/**
 The browser's end as it runs: the relay client with its maps, and a mounted
 terminal that applies frames.
 */
module Terminals {
  import opened Bytes
  import opened Frames
  import opened Pieces
  import opened BrowserFrames
  import D = Delivery

  type Sid = nat

  const ACK_EVERY: nat := 64 * 1024

  datatype Msg = Hello | AttachMsg(dev: string, sid: Sid, lastSeq: nat) | DetachMsg(dev: string, sid: Sid) | Ack(sid: Sid, seqNo: nat)

  function Heard(a: map<Sid, string>, m: Msg): map<Sid, string> {
    match m
    case AttachMsg(dev, sid, _) => a[sid := dev]
    case DetachMsg(_, sid) => a - {sid}
    case _ => a
  }

  /** What a relay that read these messages takes to be watched, and on which device. */
  function Asked(sent: seq<Msg>): map<Sid, string> {
    if sent == [] then map[] else Heard(Asked(sent[..|sent| - 1]), sent[|sent| - 1])
  }

  lemma AskedMore(sent: seq<Msg>, m: Msg)
    ensures Asked(sent + [m]) == Heard(Asked(sent), m)
  {
    assert (sent + [m])[..|sent|] == sent;
  }

  /** The same sessions on the same devices; a session without a device cannot be detached, so it does not matter. */
  ghost predicate SameWatch(a: map<Sid, string>, b: map<Sid, string>) {
    forall sid :: Watches(a, sid) == Watches(b, sid)
  }

  function Watches(a: map<Sid, string>, sid: Sid): string {
    if sid in a then a[sid] else ""
  }

  lemma AttachHeard(a: map<Sid, string>, b: map<Sid, string>, sid: Sid, dev: string)
    requires SameWatch(a, b)
    ensures SameWatch(a[sid := dev], b[sid := dev])
    ensures dev == Watches(b, sid) ==> SameWatch(a[sid := dev], b)
  {
    var a', b' := a[sid := dev], b[sid := dev];
    forall x ensures Watches(a', x) == Watches(b', x) && Watches(a', x) == if x == sid then dev else Watches(b, x) {
      assert Watches(a, x) == Watches(b, x);
    }
    assert SameWatch(a', b');
  }

  lemma DetachHeard(a: map<Sid, string>, b: map<Sid, string>, sid: Sid)
    requires SameWatch(a, b)
    ensures SameWatch(a - {sid}, b - {sid})
    ensures Watches(b, sid) == "" ==> SameWatch(a, b - {sid})
  {
    forall x
      ensures Watches(a - {sid}, x) == Watches(b - {sid}, x)
      ensures Watches(b - {sid}, x) == if x == sid then "" else Watches(a, x)
    {
      assert Watches(a, x) == Watches(b, x);
    }
  }

  class RelayClient {
    var open: bool
    var handlers: set<Sid>
    var attachInfo: map<Sid, string>
    var lastSeq: map<Sid, nat>
    var deviceOnline: map<string, bool>
    var sent: seq<Msg> // on the current connection

    function LastSeq(sid: Sid): nat
      reads this`lastSeq
    {
      if sid in lastSeq then lastSeq[sid] else 0
    }

    function Again(sid: Sid): Msg
      reads this`lastSeq, this`attachInfo
    {
      AttachMsg(Watches(attachInfo, sid), sid, LastSeq(sid))
    }

    /** While connected, the relay has been asked for exactly what is watched. */
    ghost predicate Valid()
      reads this
    {
      handlers == attachInfo.Keys && (open ==> SameWatch(Asked(sent), attachInfo))
    }

    constructor ()
      ensures Valid() && !open && attachInfo == map[] && lastSeq == map[]
    {
      open, handlers, attachInfo, lastSeq, deviceOnline, sent := false, {}, map[], map[], map[], [];
    }

    /** A message on a closed connection is dropped. */
    method Send(m: Msg)
      modifies this`sent
      ensures sent == if open then old(sent) + [m] else old(sent)
      ensures open ==> Asked(sent) == Heard(Asked(old(sent)), m)
    {
      if open {
        AskedMore(sent, m);
        sent := sent + [m];
      }
    }

    method Attach(dev: string, sid: Sid)
      requires Valid()
      modifies this`handlers, this`attachInfo, this`sent
      ensures Valid() && attachInfo == old(attachInfo)[sid := dev]
      ensures open ==> sent == old(sent) + [Again(sid)]
    {
      if open {
        AttachHeard(Asked(sent), attachInfo, sid, dev);
      }
      handlers := handlers + {sid};
      attachInfo := attachInfo[sid := dev];
      Send(AttachMsg(dev, sid, LastSeq(sid)));
    }

    /** lastSeq is not touched, so that a later attach asks for what is missing. */
    method Detach(sid: Sid)
      requires Valid()
      modifies this`handlers, this`attachInfo, this`sent
      ensures Valid() && attachInfo == old(attachInfo) - {sid}
    {
      if open {
        DetachHeard(Asked(sent), attachInfo, sid);
      }
      var dev := if sid in attachInfo then attachInfo[sid] else "";
      handlers := handlers - {sid};
      attachInfo := attachInfo - {sid};
      if dev != "" {
        Send(DetachMsg(dev, sid));
      }
    }

    method SetLastSeq(sid: Sid, seqNo: nat)
      modifies this`lastSeq
      ensures lastSeq == old(lastSeq)[sid := seqNo]
    {
      lastSeq := lastSeq[sid := seqNo];
    }

    method Closed()
      requires Valid()
      modifies this`open
      ensures Valid() && !open
    {
      open := false;
    }

    /**
     A new connection asks again for everything that was watched, once, from
     where it stopped, whatever was dropped while there was no connection.
     */
    method Reconnect()
      requires Valid()
      modifies this`open, this`sent
      ensures Valid() && open
      ensures |sent| == 1 + |attachInfo| && sent[0] == Hello
      ensures forall sid :: sid in attachInfo ==> Again(sid) in sent
    {
      open, sent := true, [Hello];
      var todo := attachInfo.Keys;
      assert |attachInfo| == |attachInfo.Keys|;
      AskedMore([], Hello);
      assert [] + [Hello] == [Hello];
      while todo != {}
        invariant open && todo <= attachInfo.Keys && sent != [] && sent[0] == Hello
        invariant |sent| + |todo| == 1 + |attachInfo|
        invariant forall sid :: sid in attachInfo && sid !in todo ==> Again(sid) in sent
        invariant forall sid :: Watches(Asked(sent), sid) == if sid in todo then "" else Watches(attachInfo, sid)
        decreases todo
        modifies this`sent
      {
        var sid :| sid in todo;
        Send(AttachMsg(attachInfo[sid], sid, LastSeq(sid)));
        todo := todo - {sid};
      }
    }

    method AskAgain(sid: Sid)
      requires sid in attachInfo && (open ==> SameWatch(Asked(sent), attachInfo))
      modifies this`sent
      ensures sent == (if open then old(sent) + [Again(sid)] else old(sent)) && (open ==> SameWatch(Asked(sent), attachInfo))
    {
      if open {
        AttachHeard(Asked(sent), attachInfo, sid, attachInfo[sid]);
      }
      Send(AttachMsg(attachInfo[sid], sid, LastSeq(sid)));
    }

    /** A device that comes back online is asked again for its sessions, and for no other. */
    method DeviceSeen(dev: string, online: bool)
      requires Valid()
      modifies this`deviceOnline, this`sent
      ensures Valid()
      ensures var back := online && dev in old(deviceOnline) && !old(deviceOnline)[dev];
        && |old(sent)| <= |sent| && sent[..|old(sent)|] == old(sent)
        && (forall m :: m in sent[|old(sent)|..] ==> back && m.AttachMsg? && m.dev == dev && m.sid in attachInfo && m == Again(m.sid))
        && (open && back ==> forall sid :: sid in attachInfo && attachInfo[sid] == dev ==> Again(sid) in sent[|old(sent)|..])
    {
      var back := online && dev in deviceOnline && !deviceOnline[dev];
      deviceOnline := deviceOnline[dev := online];
      if !back {
        return;
      }
      ghost var was, asked := sent, [];
      var todo := attachInfo.Keys;
      while todo != {}
        invariant todo <= attachInfo.Keys && sent == was + asked
        invariant open ==> SameWatch(Asked(sent), attachInfo)
        invariant forall m :: m in asked ==> m.AttachMsg? && m.dev == dev && m.sid in attachInfo && m == Again(m.sid)
        invariant open ==> forall sid :: sid in attachInfo && sid !in todo && attachInfo[sid] == dev ==> Again(sid) in asked
        decreases todo
        modifies this`sent
      {
        var sid :| sid in todo;
        if attachInfo[sid] == dev {
          AskAgain(sid);
          asked := if open then asked + [Again(sid)] else asked;
        }
        todo := todo - {sid};
      }
      assert sent[|was|..] == asked && sent[..|was|] == was;
    }
  }

  // ---- a terminal ------------------------------------------------------------------

  /** What is written to a screen: the session's bytes, and notices that it ended. */
  datatype Cell = Out(b: Byte) | Notice(code: int)

  function OutOf(cells: seq<Cell>): seq<Byte> {
    if cells == [] then []
    else
      OutOf(cells[..|cells| - 1]) + match cells[|cells| - 1] case Out(b) => [b] case Notice(_) => []
  }

  function Cells(data: seq<Byte>): seq<Cell> {
    seq(|data|, i requires 0 <= i < |data| => Out(data[i]))
  }

  lemma {:induction false} OutOfMore(cells: seq<Cell>, data: seq<Byte>)
    ensures OutOf(cells + Cells(data)) == OutOf(cells) + data
    decreases |data|
  {
    if data == [] {
      assert cells + Cells(data) == cells;
    } else {
      var n := |data| - 1;
      OutOfMore(cells, data[..n]);
      assert (cells + Cells(data))[..|cells| + n] == cells + Cells(data[..n]);
      assert data == data[..n] + [data[n]];
    }
  }

  lemma OutOfNotice(cells: seq<Cell>, code: int)
    ensures OutOf(cells + [Notice(code)]) == OutOf(cells)
  {
    assert (cells + [Notice(code)])[..|cells|] == cells;
  }

  class Terminal {
    const relay: RelayClient
    const sid: Sid
    var screen: seq<Cell>
    var unacked: nat
    ghost var shown: seq<Item> // the Snapshot and Output frames applied since it was mounted

    /** Notices aside, the screen is what the applied frames show. */
    ghost predicate Valid()
      reads this
    {
      OutOf(screen) == Screen(shown) && unacked < ACK_EVERY
    }

    constructor (relay: RelayClient, sid: Sid)
      ensures Valid() && shown == [] && this.relay == relay && this.sid == sid
    {
      this.relay, this.sid := relay, sid;
      screen, unacked, shown := [], 0, [];
    }

    /** As in the delivery machine: the frame joins what is shown, and lastSeq moves as there. */
    method OnData(i: Item, ghost c: D.Client)
      requires Valid() && (i.f.typ == OUTPUT || i.f.typ == SNAPSHOT)
      requires c.mounted && c.queue != [] && c.queue[0] == i && c.shown == shown && c.lastSeq == relay.LastSeq(sid)
      modifies this`screen, this`unacked, this`shown, relay`lastSeq, relay`sent
      ensures Valid() && shown == D.OnFrame(c).shown
      ensures relay.lastSeq == old(relay.lastSeq) || relay.lastSeq == old(relay.lastSeq)[sid := D.OnFrame(c).lastSeq]
      ensures relay.LastSeq(sid) == D.OnFrame(c).lastSeq
      ensures relay.open ==> Asked(relay.sent) == old(Asked(relay.sent))
      ensures i.f.typ == SNAPSHOT ==> unacked == old(unacked) && relay.sent == old(relay.sent)
      ensures i.f.typ == OUTPUT ==> Acked(i.f.seqNo + |i.f.payload|, old(unacked) + |i.f.payload|, unacked, old(relay.sent), relay.sent)
    {
      Shown(shown, i);
      Applied(c, i);
      shown := shown + [i];
      if i.f.typ == SNAPSHOT {
        if i.f.Reset() {
          screen := [];
        }
        OutOfMore(screen, i.f.payload);
        screen := screen + Cells(i.f.payload);
        if !i.f.More() {
          relay.SetLastSeq(sid, i.f.seqNo);
        }
      } else {
        OutOfMore(screen, i.f.payload);
        screen := screen + Cells(i.f.payload);
        CountOutput(i.f.seqNo, |i.f.payload|);
      }
    }

    /** With this many bytes unacknowledged in all, an ack of offset o is due from 64 KiB on. */
    ghost predicate Acked(o: nat, n: nat, left: nat, before: seq<Msg>, after: seq<Msg>)
      reads relay`open
    {
      if n < ACK_EVERY then left == n && after == before
      else left == 0 && after == if relay.open then before + [Ack(sid, o)] else before
    }

    method CountOutput(seqNo: nat, n: nat)
      requires unacked < ACK_EVERY
      modifies this`unacked, relay`lastSeq, relay`sent
      ensures relay.lastSeq == old(relay.lastSeq)[sid := seqNo + n]
      ensures Acked(seqNo + n, old(unacked) + n, unacked, old(relay.sent), relay.sent)
      ensures unacked < ACK_EVERY && (relay.open ==> Asked(relay.sent) == old(Asked(relay.sent)))
    {
      relay.SetLastSeq(sid, seqNo + n);
      unacked := unacked + n;
      if unacked >= ACK_EVERY {
        unacked := 0;
        relay.Send(Ack(sid, relay.LastSeq(sid)));
      }
    }

    /** Every other frame: an EOF leaves a notice, whose code is 0 if it cannot be read, the rest leave nothing. */
    method OnOther(f: Frame)
      requires Valid() && f.typ != OUTPUT && f.typ != SNAPSHOT
      modifies this`screen
      ensures Valid()
      ensures screen == old(screen) +
        if f.typ == EOF then [Notice(if |f.payload| == 4 then ParseEOF(f.payload).value else 0)] else []
    {
      if f.typ == EOF {
        SameEOF(f.payload);
        var code := match TsParseEOF(f.payload) { case Ok(n) => n case Err(_) => 0 };
        OutOfNotice(screen, code);
        screen := screen + [Notice(code)];
      }
    }
  }

  lemma Shown(l: seq<Item>, i: Item)
    ensures Screen(l + [i]) == (if i.Resets() then [] else Screen(l)) + i.f.payload
  {
    assert Pieces.Init(l + [i]) == l;
  }

  lemma Applied(c: D.Client, i: Item)
    requires c.mounted && c.queue != [] && c.queue[0] == i && (i.f.typ == OUTPUT || i.f.typ == SNAPSHOT)
    ensures D.OnFrame(c).shown == c.shown + [i]
    ensures D.OnFrame(c).lastSeq ==
      if i.f.typ == OUTPUT then i.f.seqNo + |i.f.payload| else if i.f.More() then c.lastSeq else i.f.seqNo
  {
  }
}
