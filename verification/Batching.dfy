/**
 Output batching under concurrency. The same code as in Sessions, but cut at
 every point where another goroutine can run: the ring has its own lock,
 the pending batch is guarded by the session lock, and a second lock
 serialises flushes and replays. An event that is not possible in a state
 leaves the state alone, so every list of events is a run.
 */
module Batching {
  import opened Wrappers
  import opened Bytes
  import opened RingBuffer
  import opened Sessions

  /** The flush timer: unset, running, or fired but not yet cleared by a flush. */
  datatype Timer = Unset | Armed | Fired

  /**
   What an attaching client was sent. next and after are bookkeeping: the
   offset and the index of the next OnOutput call; raced is what was emitted
   between taking the pending batch and reading the ring.
   */
  datatype Reply = Reply(lastSeq: nat, data: seq<Byte>, endSeq: nat, delta: bool,
                         next: nat, after: nat, raced: seq<Byte>)

  /** Who holds the flush lock, and how far it got; l is a replay's lastSeq. */
  datatype Holder =
    | Free
    | Taking(l: Option<nat>)
    | Delivering(b: Batch, l: Option<nat>)
    | Reading(lastSeq: nat)
    | ReadingTail(lastSeq: nat)
    | Sending(reply: Reply)

  datatype State = State(
    stream: seq<Byte>,
    cap: nat,
    seeded: nat,
    pending: seq<Byte>,
    pendingSeq: nat,
    emitting: Option<seq<Byte>>, // written to the ring, not yet to pending; holds the session lock
    timer: Timer,
    waiting: nat,                // flush calls waiting for the flush lock
    holder: Holder,
    output: seq<Batch>,
    replies: seq<Reply>,
    raced: seq<Byte>)            // written to the ring since the last take

  datatype Event =
    | Write(data: seq<Byte>)
    | Append
    | TimerFires
    | CallFlush
    | AcquireFlush
    | AcquireReplay(lastSeq: nat)
    | Take
    | Deliver
    | ReadDelta
    | ReadTail
    | Send

  function Init(scrollback: seq<Byte>, cap: nat): State {
    State(scrollback, cap, |scrollback|, [], 0, None, Unset, 0, Free, [], [], [])
  }

  predicate Enabled(s: State, e: Event) {
    match e
    case Write(_) => s.emitting.None?
    case Append => s.emitting.Some?
    case TimerFires => s.timer.Armed?
    case CallFlush => true
    case AcquireFlush => s.holder.Free? && s.waiting > 0
    case AcquireReplay(_) => s.holder.Free?
    case Take => s.holder.Taking? && s.emitting.None?
    case Deliver => s.holder.Delivering?
    case ReadDelta => s.holder.Reading?
    case ReadTail => s.holder.ReadingTail?
    case Send => s.holder.Sending?
  }

  function Delivered(s: State): nat {
    if s.output == [] then s.seeded
    else s.output[|s.output| - 1].seqNo + |s.output[|s.output| - 1].data|
  }

  /** Where the holder goes once the batch, if any, is out. */
  function Flushed(l: Option<nat>): Holder {
    match l case None => Free case Some(lastSeq) => Reading(lastSeq)
  }

  function Step(s: State, e: Event): State {
    if !Enabled(s, e) then s else
      match e
      case Write(d) =>
        s.(stream := s.stream + d, emitting := Some(d), raced := s.raced + d)
      case Append =>
        var p := s.pending + s.emitting.value;
        s.(pendingSeq := if s.pending == [] then Max0(|s.stream| - |s.emitting.value|) else s.pendingSeq,
           pending := p,
           emitting := None,
           timer := if s.timer.Unset? then Armed else s.timer,
           waiting := if |p| >= BATCH_LIMIT then s.waiting + 1 else s.waiting)
      case TimerFires => s.(timer := Fired, waiting := s.waiting + 1)
      case CallFlush => s.(waiting := s.waiting + 1)
      case AcquireFlush => s.(holder := Taking(None), waiting := s.waiting - 1)
      case AcquireReplay(l) => s.(holder := Taking(Some(l)))
      case Take =>
        var l := s.holder.l;
        s.(timer := Unset, pending := [], raced := [],
           holder := if s.pending == [] then Flushed(l) else Delivering(Batch(s.pendingSeq, s.pending), l))
      case Deliver =>
        s.(output := s.output + [s.holder.b], holder := Flushed(s.holder.l))
      case ReadDelta =>
        var l := s.holder.lastSeq;
        if Retains(s.stream, s.cap, l) then
          var d := s.stream[l..];
          s.(holder := Sending(Reply(l, d, l + |d|, true, Delivered(s), |s.output|, s.raced)))
        else s.(holder := ReadingTail(l))
      case ReadTail =>
        var tail := Last(s.stream, Min(SNAPSHOT_TAIL, Min(|s.stream|, s.cap)));
        s.(holder := Sending(Reply(s.holder.lastSeq, tail, |s.stream|, false, Delivered(s), |s.output|, s.raced)))
      case Send =>
        s.(replies := s.replies + [s.holder.reply], holder := Free)
  }

  function Max0(i: int): nat { if i < 0 then 0 else i }

  function Run(s: State, es: seq<Event>): State
    decreases |es|
  {
    if es == [] then s else Run(Step(s, es[0]), es[1..])
  }

  // ---- what every step keeps -------------------------------------------------

  /** Offset up to which bytes have been taken for delivery. */
  function Taken(s: State): nat {
    Delivered(s) + if s.holder.Delivering? then |s.holder.b.data| else 0
  }

  /** Bytes in the ring that the pending batch does not have yet. */
  function Unappended(s: State): seq<Byte> {
    if s.emitting.Some? then s.emitting.value else []
  }

  /** Delivered, in flight, pending and just written bytes make up the stream. */
  ghost predicate Accounted(s: State) {
    && Contiguous(s.output, s.stream, s.seeded, Delivered(s))
    && Taken(s) + |s.pending| + |Unappended(s)| == |s.stream|
    && s.stream[Taken(s)..] == s.pending + Unappended(s)
    && (s.pending != [] ==> s.pendingSeq == Taken(s))
    && (s.holder.Delivering? ==>
      s.holder.b == Batch(Delivered(s), s.stream[Delivered(s)..Taken(s)]) && s.holder.b.data != [])
  }

  /** Pending bytes always have a flush coming: a running timer or a waiting call. */
  ghost predicate FlushComes(s: State) {
    && (s.pending != [] ==> !s.timer.Unset?)
    && (s.timer.Fired? ==> s.waiting > 0 || s.holder == Taking(None))
  }

  /** After the take, whatever is not taken has been written since. */
  ghost predicate RacedSinceTake(s: State) {
    s.holder.Delivering? || s.holder.Reading? || s.holder.ReadingTail? || s.holder.Sending? ==>
      Taken(s) <= |s.stream| && s.raced == s.stream[Taken(s)..]
  }

  /** A reply is a piece of the stream that ends where the ring was read. */
  ghost predicate FromStream(r: Reply, stream: seq<Byte>, cap: nat) {
    && r.next <= r.endSeq <= |stream| && |r.data| <= r.endSeq
    && r.data == stream[r.endSeq - |r.data|..r.endSeq]
    && r.raced == stream[r.next..r.endSeq]
    && (r.delta ==> r.lastSeq == r.endSeq - |r.data| && Retains(stream[..r.endSeq], cap, r.lastSeq))
    && (!r.delta ==>
      && |r.data| == Min(SNAPSHOT_TAIL, Min(r.endSeq, cap))
      && exists m :: r.next <= m <= r.endSeq && !Retains(stream[..m], cap, r.lastSeq))
  }

  /** The OnOutput call after the reply starts at next; earlier ones end there. */
  ghost predicate Placed(r: Reply, output: seq<Batch>, stream: seq<Byte>, seeded: nat) {
    && r.after <= |output|
    && Contiguous(output[..r.after], stream, seeded, r.next)
    && (r.after < |output| ==> output[r.after].seqNo == r.next)
  }

  ghost predicate ReplyOk(r: Reply, s: State) {
    FromStream(r, s.stream, s.cap) && Placed(r, s.output, s.stream, s.seeded)
  }

  ghost predicate RepliesOk(s: State) {
    && (forall r :: r in s.replies ==> ReplyOk(r, s))
    && (s.holder.ReadingTail? ==>
      exists m :: Delivered(s) <= m <= |s.stream| && !Retains(s.stream[..m], s.cap, s.holder.lastSeq))
    && (s.holder.Sending? ==> ReplyOk(s.holder.reply, s) && s.holder.reply.after == |s.output|)
  }

  ghost predicate Inv(s: State) {
    Accounted(s) && FlushComes(s) && RacedSinceTake(s) && RepliesOk(s)
  }

  lemma WriteAccounted(s: State, d: seq<Byte>)
    requires Accounted(s) && Enabled(s, Write(d))
    ensures Accounted(Step(s, Write(d)))
  {
    var t := Step(s, Write(d));
    ContiguousGrows(s.output, s.stream, d, s.seeded, Delivered(s));
    SlicesGrow(s.stream, d, Delivered(s), Taken(s));
    assert Delivered(t) == Delivered(s) && Taken(t) == Taken(s) && t.stream == s.stream + d;
    assert s.stream[Taken(s)..] == s.pending && t.stream[Taken(t)..] == s.pending + d;
  }

  lemma SlicesGrow(stream: seq<Byte>, d: seq<Byte>, a: nat, b: nat)
    requires a <= b <= |stream|
    ensures (stream + d)[b..] == stream[b..] + d && (stream + d)[a..b] == stream[a..b]
  {
  }

  lemma WriteKeeps(s: State, d: seq<Byte>)
    requires Inv(s) && Enabled(s, Write(d))
    ensures Inv(Step(s, Write(d)))
  {
    var t := Step(s, Write(d));
    WriteAccounted(s, d);
    assert t.stream[Taken(t)..] == s.stream[Taken(s)..] + d;
    WriteReplies(s);
  }

  lemma WriteReplies(s: State)
    requires RepliesOk(s)
    ensures forall d :: Enabled(s, Write(d)) ==> RepliesOk(Step(s, Write(d)))
  {
    forall d | Enabled(s, Write(d))
      ensures RepliesOk(Step(s, Write(d)))
    {
      var t := Step(s, Write(d));
      forall r | ReplyOk(r, s) ensures ReplyOk(r, t) {
        ReplyGrows(r, s, d);
      }
      if s.holder.ReadingTail? {
        var m :| Delivered(s) <= m <= |s.stream| && !Retains(s.stream[..m], s.cap, s.holder.lastSeq);
        assert t.stream[..m] == s.stream[..m];
      }
    }
  }

  lemma ReplyGrows(r: Reply, s: State, d: seq<Byte>)
    requires ReplyOk(r, s)
    ensures ReplyOk(r, s.(stream := s.stream + d))
  {
    var t := s.stream + d;
    ContiguousGrows(s.output[..r.after], s.stream, d, s.seeded, r.next);
    assert t[r.endSeq - |r.data|..r.endSeq] == s.stream[r.endSeq - |r.data|..r.endSeq];
    assert t[r.next..r.endSeq] == s.stream[r.next..r.endSeq];
    assert t[..r.endSeq] == s.stream[..r.endSeq];
    if !r.delta {
      var m :| r.next <= m <= r.endSeq && !Retains(s.stream[..m], s.cap, r.lastSeq);
      assert t[..m] == s.stream[..m];
    }
  }

  lemma TakeKeeps(s: State)
    requires Inv(s) && Enabled(s, Take)
    ensures Inv(Step(s, Take))
  {
    var t := Step(s, Take);
    assert Delivered(t) == Delivered(s) && Taken(s) == Delivered(s);
    assert s.stream[Taken(s)..] == s.pending;
    assert Taken(t) == |t.stream|;
    TakeAccounted(s, t);
    assert t.stream[|t.stream|..] == [];
    assert RepliesOk(t);
  }

  lemma TakeAccounted(s: State, t: State)
    requires Accounted(s) && Enabled(s, Take) && t == Step(s, Take)
    requires s.stream[Delivered(s)..] == s.pending
    ensures Accounted(t)
  {
    assert t.stream[|t.stream|..] == [];
    assert s.stream[Delivered(s)..|s.stream|] == s.stream[Delivered(s)..];
  }

  lemma DeliverKeeps(s: State)
    requires Inv(s) && Enabled(s, Deliver)
    ensures Inv(Step(s, Deliver))
  {
    var t := Step(s, Deliver);
    assert t.output[..|t.output| - 1] == s.output;
    assert Delivered(t) == Taken(s);
    assert Taken(t) == Taken(s);
    forall r | r in s.replies ensures ReplyOk(r, t) {
      DeliverPlaced(r, s);
    }
  }

  /** A reply keeps its place when a batch is appended to the output. */
  lemma DeliverPlaced(r: Reply, s: State)
    requires ReplyOk(r, s) && Accounted(s) && s.holder.Delivering?
    ensures ReplyOk(r, Step(s, Deliver))
  {
    var t := Step(s, Deliver);
    assert t.output[..r.after] == s.output[..r.after];
    if r.after == |s.output| {
      assert s.output[..r.after] == s.output;
      ContiguousEnds(s.output, s.stream, s.seeded, r.next, Delivered(s));
      assert t.output[r.after] == s.holder.b;
    } else {
      assert t.output[r.after] == s.output[r.after];
    }
  }

  lemma ContiguousEnds(bs: seq<Batch>, stream: seq<Byte>, from: nat, a: nat, b: nat)
    requires Contiguous(bs, stream, from, a) && Contiguous(bs, stream, from, b)
    ensures a == b
  {
  }

  /** A reply composed now, from the ring as it is, is in order. */
  lemma ReplyNow(s: State, r: Reply)
    requires Accounted(s) && RacedSinceTake(s) && (s.holder.Reading? || s.holder.ReadingTail?)
    requires |r.data| <= |s.stream| && r.data == Last(s.stream, |r.data|)
    requires r.endSeq == |s.stream| && r.next == Delivered(s) && r.after == |s.output| && r.raced == s.raced
    requires r.delta ==> r.lastSeq == |s.stream| - |r.data| && Retains(s.stream, s.cap, r.lastSeq)
    requires !r.delta ==> |r.data| == Min(SNAPSHOT_TAIL, Min(r.endSeq, s.cap))
    requires !r.delta ==>
      exists m :: r.next <= m <= r.endSeq && !Retains(s.stream[..m], s.cap, r.lastSeq)
    ensures ReplyOk(r, s)
  {
    assert s.output[..|s.output|] == s.output;
    assert s.stream[..|s.stream|] == s.stream;
    assert Taken(s) == Delivered(s);
    assert FromStream(r, s.stream, s.cap);
  }

  lemma ReadDeltaKeeps(s: State)
    requires Inv(s) && Enabled(s, ReadDelta)
    ensures Inv(Step(s, ReadDelta))
  {
    var t := Step(s, ReadDelta);
    assert Delivered(t) == Delivered(s) && Taken(t) == Taken(s);
    if t.holder.Sending? {
      ReplyNow(s, t.holder.reply);
    } else {
      assert s.stream[..|s.stream|] == s.stream;
    }
    assert RepliesOk(t);
  }

  lemma ReadTailKeeps(s: State)
    requires Inv(s) && Enabled(s, ReadTail)
    ensures Inv(Step(s, ReadTail))
  {
    ReplyNow(s, Step(s, ReadTail).holder.reply);
  }

  lemma StepKeeps(s: State, e: Event)
    requires Inv(s)
    ensures Inv(Step(s, e))
  {
    if Enabled(s, e) {
      match e
      case Write(d) => WriteKeeps(s, d);
      case Append => AppendKeeps(s);
      case Take => TakeKeeps(s);
      case Deliver => DeliverKeeps(s);
      case ReadDelta => ReadDeltaKeeps(s);
      case ReadTail => ReadTailKeeps(s);
      case _ => HandoverKeeps(s, e);
    }
  }

  lemma AppendKeeps(s: State)
    requires Inv(s) && Enabled(s, Append)
    ensures Inv(Step(s, Append))
  {
    assert Taken(Step(s, Append)) == Taken(s);
  }

  /** Timers and the flush lock change hands; no byte moves. */
  lemma HandoverKeeps(s: State, e: Event)
    requires Inv(s) && Enabled(s, e)
    requires e.TimerFires? || e.CallFlush? || e.AcquireFlush? || e.AcquireReplay? || e.Send?
    ensures Inv(Step(s, e))
  {
    assert Delivered(Step(s, e)) == Delivered(s) && Taken(Step(s, e)) == Taken(s);
  }

  lemma {:induction false} RunKeeps(s: State, es: seq<Event>)
    requires Inv(s)
    ensures Inv(Run(s, es)) && Run(s, es).seeded == s.seeded
    decreases |es|
  {
    if es != [] {
      StepKeeps(s, es[0]);
      RunKeeps(Step(s, es[0]), es[1..]);
    }
  }

  // ---- the claims ---------------------------------------------------------------

  /** Outside an Emit: delivered, in-flight and pending bytes add up to the ring's seq. */
  lemma OutputIsTheStream(scrollback: seq<Byte>, cap: nat, es: seq<Event>)
    ensures var s := Run(Init(scrollback, cap), es);
      && |scrollback| <= Delivered(s) <= |s.stream|
      && Joined(s.output) == s.stream[|scrollback|..Delivered(s)]
      && (s.emitting.None? ==> Taken(s) + |s.pending| == |s.stream|)
      && (s.pending != [] ==> s.timer.Armed? || s.waiting > 0 || s.holder == Taking(None))
  {
    RunKeeps(Init(scrollback, cap), es);
    var s := Run(Init(scrollback, cap), es);
    ContiguousIsStream(s.output, s.stream, s.seeded, Delivered(s));
  }

  /**
   Never a gap: the first OnOutput call after a reply starts at or before the
   end of the reply. What the client gets twice is exactly what was emitted
   between the take and the ring read, so it gets nothing twice if and only
   if nothing was emitted there.
   */
  lemma OverlapIsWhatRaced(scrollback: seq<Byte>, cap: nat, es: seq<Event>, r: Reply)
    requires r in Run(Init(scrollback, cap), es).replies
    ensures var s := Run(Init(scrollback, cap), es);
      && |r.data| <= r.endSeq <= |s.stream|
      && r.data == s.stream[r.endSeq - |r.data|..r.endSeq]
      && (r.delta ==> r.endSeq - |r.data| == r.lastSeq)
      && r.after <= |s.output|
      && (r.after < |s.output| ==>
        var next := s.output[r.after].seqNo;
        && next <= r.endSeq
        && s.stream[next..r.endSeq] == r.raced
        && (next == r.endSeq <==> r.raced == []))
  {
    RunKeeps(Init(scrollback, cap), es);
    assert ReplyOk(r, Run(Init(scrollback, cap), es));
  }

  const RACE := [AcquireReplay(0), Take, Write([7]), ReadDelta, Send]
  const FLUSH := [Append, TimerFires, AcquireFlush, Take, Deliver]

  /** The code does let bytes race: on this run the client is sent byte 7 twice. */
  lemma ByteSentTwice()
    ensures var s := Run(Init([], 8), RACE + FLUSH);
      && s.stream == [7]
      && s.replies == [Reply(0, [7], 1, true, 0, 0, [7])]
      && s.output == [Batch(0, [7])]
  {
    RunAppend(Init([], 8), RACE, FLUSH);
    RaceReplies();
    FlushFollows(Run(Init([], 8), RACE));
  }

  lemma RaceReplies()
    ensures var t := Run(Init([], 8), RACE);
      && t.stream == [7] && t.replies == [Reply(0, [7], 1, true, 0, 0, [7])] && t.output == []
      && t.emitting == Some([7]) && t.pending == [] && t.timer.Unset? && t.waiting == 0 && t.holder.Free?
  {
    var s := Init([], 8);
    Unroll5(s, AcquireReplay(0), Take, Write([7]), ReadDelta, Send);
    ReplayTakes(s);
    WriteRaces(s.(holder := Reading(0)));
  }

  lemma ReplayTakes(s: State)
    requires s == Init([], 8)
    ensures Step(Step(s, AcquireReplay(0)), Take) == s.(holder := Reading(0))
  {
    assert Step(s, AcquireReplay(0)) == s.(holder := Taking(Some(0)));
  }

  lemma WriteRaces(a: State)
    requires a == Init([], 8).(holder := Reading(0))
    ensures Step(Step(Step(a, Write([7])), ReadDelta), Send) ==
      a.(stream := [7], raced := [7], emitting := Some([7]), holder := Free,
         replies := [Reply(0, [7], 1, true, 0, 0, [7])])
  {
    var b := Step(a, Write([7]));
    assert b == a.(stream := [7], raced := [7], emitting := Some([7]));
    assert [7][0..] == [7];
    var c := Step(b, ReadDelta);
    assert c == b.(holder := Sending(Reply(0, [7], 1, true, 0, 0, [7])));
  }

  lemma FlushFollows(t: State)
    requires t.stream == [7] && t.output == []
    requires t.emitting == Some([7]) && t.pending == [] && t.timer.Unset? && t.waiting == 0 && t.holder.Free?
    ensures var s := Run(t, FLUSH);
      s.stream == t.stream && s.replies == t.replies && s.output == [Batch(0, [7])]
  {
    Unroll5(t, Append, TimerFires, AcquireFlush, Take, Deliver);
    var a := Step(t, Append);
    assert a == t.(pending := [7], pendingSeq := 0, emitting := None, timer := Armed);
    var b := Step(Step(a, TimerFires), AcquireFlush);
    assert b == a.(timer := Fired, holder := Taking(None));
  }

  lemma Unroll5(s: State, a: Event, b: Event, c: Event, d: Event, e: Event)
    ensures Run(s, [a, b, c, d, e]) == Step(Step(Step(Step(Step(s, a), b), c), d), e)
  {
    Unroll1(s, a, [b, c, d, e]);
    Unroll1(Step(s, a), b, [c, d, e]);
    var s' := Step(Step(s, a), b);
    Unroll1(s', c, [d, e]);
    Unroll1(Step(s', c), d, [e]);
    Unroll1(Step(Step(s', c), d), e, []);
  }

  lemma Unroll1(s: State, e: Event, es: seq<Event>)
    ensures Run(s, [e] + es) == Run(Step(s, e), es)
  {
    assert ([e] + es)[1..] == es;
  }

  lemma {:induction false} RunAppend(s: State, es: seq<Event>, fs: seq<Event>)
    ensures Run(s, es + fs) == Run(Run(s, es), fs)
    decreases |es|
  {
    if es == [] {
      assert es + fs == fs;
    } else {
      assert (es + fs)[1..] == es[1..] + fs;
      RunAppend(Step(s, es[0]), es[1..], fs);
    }
  }

  const FINISH_FLUSH := [Append, Take, Deliver, ReadDelta, ReadTail]
  const FINISH_REPLAY := [Send, TimerFires, AcquireFlush, Take, Deliver]

  /**
   No pending byte is ever stuck: from every reachable state, letting everyone
   who holds a lock finish and then firing the timer delivers everything.
   */
  lemma AlwaysDrains(scrollback: seq<Byte>, cap: nat, es: seq<Event>)
    ensures var s := Run(Init(scrollback, cap), es);
      var t := Run(s, FINISH_FLUSH + FINISH_REPLAY);
      t.stream == s.stream && t.pending == [] && Delivered(t) == |t.stream|
  {
    RunKeeps(Init(scrollback, cap), es);
    var s := Run(Init(scrollback, cap), es);
    RunAppend(s, FINISH_FLUSH, FINISH_REPLAY);
    RunKeeps(s, FINISH_FLUSH);
    var m := Run(s, FINISH_FLUSH);
    RunKeeps(m, FINISH_REPLAY);
    HoldersFinish(s);
    TimerDelivers(m);
  }

  lemma HoldersFinish(s: State)
    requires Inv(s)
    ensures var m := Run(s, FINISH_FLUSH);
      m.stream == s.stream && m.emitting.None? && (m.holder.Free? || m.holder.Sending?)
  {
    Unroll5(s, Append, Take, Deliver, ReadDelta, ReadTail);
    TakersDeliver(s);
    ReadersSend(Step(Step(Step(s, Append), Take), Deliver));
  }

  lemma TakersDeliver(s: State)
    ensures var c := Step(Step(Step(s, Append), Take), Deliver);
      c.stream == s.stream && c.emitting.None? && !c.holder.Taking? && !c.holder.Delivering?
  {
    var a := Step(s, Append);
    assert a.emitting.None? && a.stream == s.stream;
    var b := Step(a, Take);
    assert b.emitting.None? && !b.holder.Taking? && b.stream == s.stream;
  }

  lemma ReadersSend(c: State)
    requires c.emitting.None? && !c.holder.Taking? && !c.holder.Delivering?
    ensures var m := Step(Step(c, ReadDelta), ReadTail);
      m.stream == c.stream && m.emitting.None? && (m.holder.Free? || m.holder.Sending?)
  {
    var d := Step(c, ReadDelta);
    assert d.emitting.None? && !d.holder.Taking? && !d.holder.Delivering? && !d.holder.Reading? && d.stream == c.stream;
  }

  lemma TimerDelivers(m: State)
    requires Inv(m) && m.emitting.None? && (m.holder.Free? || m.holder.Sending?)
    ensures var t := Run(m, FINISH_REPLAY);
      t.stream == m.stream && t.pending == [] && Delivered(t) == |t.stream|
  {
    Unroll5(m, Send, TimerFires, AcquireFlush, Take, Deliver);
    TimerIsOut(m);
    WaiterDelivers(Step(Step(m, Send), TimerFires));
  }

  lemma TimerIsOut(m: State)
    requires Inv(m) && m.emitting.None? && (m.holder.Free? || m.holder.Sending?)
    ensures var f := Step(Step(m, Send), TimerFires);
      Inv(f) && f.holder.Free? && f.emitting.None? && !f.timer.Armed? && f.stream == m.stream
  {
    var e := Step(m, Send);
    StepKeeps(m, Send);
    assert e.holder.Free? && e.emitting.None? && e.stream == m.stream;
    StepKeeps(e, TimerFires);
  }

  lemma WaiterDelivers(f: State)
    requires Inv(f) && f.holder.Free? && f.emitting.None? && !f.timer.Armed?
    ensures var t := Step(Step(Step(f, AcquireFlush), Take), Deliver);
      t.stream == f.stream && t.pending == [] && Delivered(t) == |t.stream|
  {
    var g := Step(f, AcquireFlush);
    if f.waiting == 0 {
      NothingToDeliver(f);
    } else {
      StepKeeps(f, AcquireFlush);
      TakenDelivers(g);
    }
  }

  /** Nobody waits, so nothing is pending. */
  lemma NothingToDeliver(f: State)
    requires Inv(f) && f.holder.Free? && f.emitting.None? && !f.timer.Armed? && f.waiting == 0
    ensures Step(Step(Step(f, AcquireFlush), Take), Deliver) == f && f.pending == [] && Delivered(f) == |f.stream|
  {
  }

  lemma TakenDelivers(g: State)
    requires Inv(g) && g.holder == Taking(None) && g.emitting.None?
    ensures var t := Step(Step(g, Take), Deliver);
      t.stream == g.stream && t.pending == [] && Delivered(t) == |t.stream|
  {
    var h := Step(g, Take);
    StepKeeps(g, Take);
    assert Taken(h) == |h.stream|;
  }
}
