/**
 The output stream of one session from the agent through the relay to any
 number of browser terminals, within one agent connection. Every list of
 events is a run; an event that is not possible in a state does nothing.
 */
module Delivery {
  import opened Bytes
  import opened RingBuffer
  import opened Sessions
  import opened Frames
  import opened Pieces

  type Cid = string

  /**
   A browser's terminal. shown is what it wrote, queue what is in flight to it.
   base and clean are bookkeeping: the offset the terminal was mounted at, and
   whether every attach so far was made with nothing in flight and replayed
   with no byte racing.
   */
  datatype Client = Client(shown: seq<Item>, queue: seq<Item>, lastSeq: nat, mounted: bool, base: nat, clean: bool)

  datatype Attachment = Attachment(cid: Cid, lastSeq: nat)

  /** What consoles send to the relay about the session, in one queue. */
  datatype Control = Ask(a: Attachment) | Leave(cid: Cid)

  datatype State = State(
    stream: seq<Byte>,          // everything written to the ring
    cap: nat,                   // ring capacity
    sid: nat,
    delivered: nat,             // end of what OnOutput was given
    toRelay: seq<Item>,         // agent to relay
    relayed: nat,               // bookkeeping: end of the Output the relay has routed
    attached: map<Cid, bool>,   // at the relay; true while a snapshot is pending
    sent: seq<Control>,         // attaches and detaches on their way to the relay
    toAgent: seq<Attachment>,   // attaches from the relay to the agent
    clients: map<Cid, Client>)

  datatype Event =
    | Emit(data: seq<Byte>)
    | Flush
    | Join(cid: Cid, lastSeq: nat)
    | Attach(cid: Cid)
    | RelayControl
    | Replay(racing: seq<Byte>) // what is emitted between its flush and its ring read
    | Route
    | Apply(cid: Cid)
    | Detach(cid: Cid)

  function Initial(scrollback: seq<Byte>, cap: nat, sid: nat): State {
    State(scrollback, cap, sid, |scrollback|, [], |scrollback|, map[], [], [], map[])
  }

  /** The last frame written has FlagMore: the rest of a snapshot is still to come. */
  predicate MidSnapshot(c: Client) {
    c.shown != [] && Final(c.shown).f.typ == SNAPSHOT && Final(c.shown).f.More()
  }

  predicate HasSnapshot(q: seq<Item>) {
    exists i :: 0 <= i < |q| && q[i].f.typ == SNAPSHOT
  }

  /** routeAgentFrame: who gets a frame. */
  predicate Wants(pending: bool, f: Frame) {
    if f.typ == SNAPSHOT then pending else if f.typ == OUTPUT then !pending else true
  }

  predicate EndsSnapshot(f: Frame) {
    f.typ == SNAPSHOT && !f.More()
  }

  function FlushStep(s: State): State {
    if s.delivered >= |s.stream| then s
    else
      s.(toRelay := s.toRelay + Tag(Chunks(OUTPUT, s.sid, s.delivered, s.stream[s.delivered..], 0), s.delivered),
         delivered := |s.stream|)
  }

  /** handleAttach's answer from the ring as it is. */
  function SnapshotItems(s: State, lastSeq: nat): seq<Item> {
    var (data, delta) := ReplayDelta(s.stream, s.cap, lastSeq);
    Tag(Chunks(SNAPSHOT, s.sid, |s.stream|, data, if delta then 0 else FLAG_RESET), |s.stream| - |data|)
  }

  function AttachStep(s: State, cid: Cid): State
    requires cid in s.clients
  {
    var c := s.clients[cid];
    var quiet := c.queue == [] && (cid in s.attached ==> s.attached[cid]);
    var c' := if c.mounted then c.(clean := c.clean && quiet)
              else c.(mounted := true, shown := [], base := c.lastSeq, clean := quiet);
    s.(clients := s.clients[cid := c'], sent := s.sent + [Ask(Attachment(cid, c.lastSeq))])
  }

  /** The relay takes one message: an attach makes its client pending and goes on, a detach ends here. */
  function RelayControlStep(s: State): State
    requires s.sent != []
  {
    var t := s.(sent := s.sent[1..]);
    match s.sent[0]
    case Ask(a) => t.(toAgent := s.toAgent + [a], attached := s.attached[a.cid := true])
    case Leave(x) => t.(attached := s.attached - {x})
  }

  /** The terminal closes: frames that still come find no handler. */
  function DetachStep(s: State, x: Cid): State
    requires x in s.clients
  {
    if !s.clients[x].mounted then s
    else s.(clients := s.clients[x := s.clients[x].(mounted := false)], sent := s.sent + [Leave(x)])
  }

  function ReplayStep(s: State, racing: seq<Byte>): State
    requires s.toAgent != []
  {
    var f := FlushStep(s);
    AnswerStep(f.(stream := f.stream + racing), racing != [])
  }

  /** Reading the ring and sending the snapshot. */
  function AnswerStep(g: State, raced: bool): State
    requires g.toAgent != []
  {
    var a := g.toAgent[0];
    g.(toAgent := g.toAgent[1..],
       toRelay := g.toRelay + SnapshotItems(g, a.lastSeq),
       clients := if !raced || a.cid !in g.clients then g.clients
                  else g.clients[a.cid := g.clients[a.cid].(clean := false)])
  }

  function RouteStep(s: State): State
    requires s.toRelay != []
  {
    var i := s.toRelay[0];
    s.(toRelay := s.toRelay[1..],
       relayed := if i.f.typ == OUTPUT then i.End() else s.relayed,
       attached := map x | x in s.attached :: s.attached[x] && !EndsSnapshot(i.f),
       clients := map x | x in s.clients ::
         if x in s.attached && Wants(s.attached[x], i.f)
         then s.clients[x].(queue := s.clients[x].queue + [i]) else s.clients[x])
  }

  /** The terminal's onFrame; a frame that finds no handler is dropped. */
  function OnFrame(c: Client): Client
    requires c.queue != []
  {
    var i := c.queue[0];
    if !c.mounted then c.(queue := c.queue[1..])
    else
      c.(queue := c.queue[1..], shown := c.shown + [i],
         lastSeq := if EndsSnapshot(i.f) then i.f.seqNo
                    else if i.f.typ == OUTPUT then i.f.seqNo + |i.f.payload|
                    else c.lastSeq)
  }

  function Step(s: State, e: Event): State {
    match e
    case Emit(d) => s.(stream := s.stream + d)
    case Flush => FlushStep(s)
    case Join(x, l) => if x in s.clients then s else s.(clients := s.clients[x := Client([], [], l, false, l, true)])
    case Attach(x) => if x in s.clients then AttachStep(s, x) else s
    case RelayControl => if s.sent != [] then RelayControlStep(s) else s
    case Replay(d) => if s.toAgent != [] then ReplayStep(s, d) else s
    case Route => if s.toRelay != [] then RouteStep(s) else s
    case Apply(x) => if x in s.clients && s.clients[x].queue != [] then s.(clients := s.clients[x := OnFrame(s.clients[x])]) else s
    case Detach(x) => if x in s.clients then DetachStep(s, x) else s
  }

  function Run(s: State, es: seq<Event>): State
    decreases |es|
  {
    if es == [] then s else Run(Step(s, es[0]), es[1..])
  }

  // ---- attaching one at a time ---------------------------------------------------

  /** The attaches among what consoles sent. */
  function Asks(q: seq<Control>): seq<Attachment> {
    if q == [] then []
    else Asks(q[..|q| - 1]) + Asked1(q[|q| - 1])
  }

  function Asked1(m: Control): seq<Attachment> {
    match m case Ask(a) => [a] case Leave(_) => []
  }

  /** No attach of this session is anywhere between its sender and its last chunk. */
  predicate NoneOutstanding(s: State) {
    Asks(s.sent) == [] && s.toAgent == [] && !HasSnapshot(s.toRelay)
  }

  /**
   What the claims ask of the consoles: attach only while no attach of the
   session is outstanding, and not in the middle of a snapshot; and mount a
   fresh terminal only when the old one has left the relay and nothing is in
   flight to it. Terminals may close at any time.
   */
  predicate Careful(s: State, e: Event) {
    match e
    case Attach(x) =>
      && NoneOutstanding(s)
      && (x in s.clients ==>
        var c := s.clients[x];
        if c.mounted then !HasSnapshot(c.queue) && !MidSnapshot(c)
        else c.queue == [] && x !in s.attached && Leave(x) !in s.sent)
    case _ => true
  }

  predicate CarefulRun(s: State, es: seq<Event>)
    decreases |es|
  {
    es == [] || (Careful(s, es[0]) && CarefulRun(Step(s, es[0]), es[1..]))
  }

  // ---- the invariant ---------------------------------------------------------------

  /** How far the one outstanding attach, if any, has come. */
  datatype Phase =
    | Idle
    | Asked(c: Cid, l: nat)                      // on its way to the relay
    | Marked(c: Cid, l: nat)                     // pending at the relay, on its way to the agent
    | Answered(c: Cid, i: nat, j: nat, turn: nat, end: nat)
      // toRelay[i..j] is the snapshot, up to end; Output before it ends at turn

  function Log(c: Client): seq<Item> { c.shown + c.queue }

  ghost predicate LogOk(c: Client, stream: seq<Byte>) {
    && AllPieces(c.shown, stream) && AllPieces(c.queue, stream)
    && (c.mounted ==>
      && NoGap(Log(c), c.base)
      && (c.clean ==> Exact(Log(c), c.base)))
    && (MidSnapshot(c) || !c.mounted || c.lastSeq <= Reach(c.shown, c.base))
    && (c.clean && c.mounted && !MidSnapshot(c) ==> c.lastSeq == End(c.shown, c.base))
  }

  /** A complete client has been sent all Output up to the relay's position. */
  ghost predicate CaughtUp(c: Client, relayed: nat) {
    relayed <= Reach(Log(c), c.base) && (c.clean ==> End(Log(c), c.base) == relayed)
  }

  /** A replay that starts at offset from will continue the client's log. */
  ghost predicate Continues(c: Client, from: nat) {
    from <= Reach(Log(c), c.base) && (c.clean ==> from == End(Log(c), c.base))
  }

  ghost predicate QueueOk(s: State, ph: Phase) {
    && s.relayed <= s.delivered <= |s.stream|
    && AllPieces(s.toRelay, s.stream)
    && match ph
       case Answered(_, i, j, turn, end) =>
         && i < j <= |s.toRelay| && turn <= end
         && OutChain(s.toRelay[..i], s.relayed, turn)
         && SnapChain(s.toRelay[i..j], s.toRelay[i].at, end)
         && OutChain(s.toRelay[j..], turn, s.delivered)
       case _ => OutChain(s.toRelay, s.relayed, s.delivered)
  }

  ghost predicate ControlOk(s: State, ph: Phase) {
    && Asks(s.sent) == (if ph.Asked? then [Attachment(ph.c, ph.l)] else [])
    && s.toAgent == (if ph.Marked? then [Attachment(ph.c, ph.l)] else [])
    && forall x :: Leave(x) in s.sent ==> x in s.clients && !s.clients[x].mounted
  }

  ghost predicate Waiting(ph: Phase, x: Cid) {
    (ph.Marked? || ph.Answered?) && ph.c == x
  }

  /** Of clients that have closed their terminal nothing is asked but to be known. */
  ghost predicate RolesOk(s: State, ph: Phase) {
    && (forall x :: x in s.attached ==>
      && x in s.clients && (s.attached[x] ==> Waiting(ph, x))
      && (s.clients[x].mounted ==>
        && (Waiting(ph, x) ==> s.attached[x])
        && (!s.attached[x] ==> CaughtUp(s.clients[x], s.relayed))))
    && (!ph.Idle? ==> ph.c in s.clients)
    && ((ph.Marked? || ph.Answered?) && s.clients[ph.c].mounted ==> ph.c in s.attached)
  }

  ghost predicate ReplayOk(s: State, ph: Phase) {
    !ph.Idle? ==>
      && ph.c in s.clients
      && (s.clients[ph.c].mounted ==> WillContinue(s, ph, s.clients[ph.c]))
      && (ph.Answered? ==> ph.i < |s.toRelay|)
  }

  /** The answer continues the log of the terminal that waits for it. */
  ghost predicate WillContinue(s: State, ph: Phase, c: Client) {
    match ph
    case Idle => true
    case Asked(x, l) => Continues(c, l) && (c.clean ==> x !in s.attached)
    case Marked(x, l) => Continues(c, l)
    case Answered(x, i, j, turn, end) =>
      && i < |s.toRelay|
      && (s.toRelay[i].Resets() || Continues(c, s.toRelay[i].at))
      && (c.clean ==> turn == end)
  }

  ghost predicate Inv(s: State, ph: Phase) {
    && QueueOk(s, ph) && ControlOk(s, ph) && RolesOk(s, ph) && ReplayOk(s, ph)
    && (forall x :: x in s.clients ==> LogOk(s.clients[x], s.stream))
  }

  function NextPhase(s: State, ph: Phase, e: Event): Phase {
    match e
    case Attach(x) => if x in s.clients then Asked(x, s.clients[x].lastSeq) else ph
    case RelayControl => if ph.Asked? && s.sent != [] && s.sent[0].Ask? then Marked(ph.c, ph.l) else ph
    case Replay(d) =>
      if ph.Marked? then
        var i := |FlushStep(s).toRelay|;
        Answered(ph.c, i, |Step(s, e).toRelay|, FlushStep(s).delivered, |s.stream| + |d|)
      else ph
    case Route =>
      if !ph.Answered? then ph
      else if ph.i > 0 && ph.j > 0 then ph.(i := ph.i - 1, j := ph.j - 1)
      else if ph.j > 1 then ph.(j := ph.j - 1)
      else Idle
    case _ => ph
  }

  // ---- what every careful step keeps --------------------------------------------

  lemma PiecesGrow(q: seq<Item>, stream: seq<Byte>, d: seq<Byte>)
    requires AllPieces(q, stream)
    ensures AllPieces(q, stream + d)
  {
    forall i | i in q ensures Piece(i, stream + d) {
      assert Piece(i, stream);
      assert (stream + d)[i.at..i.End()] == stream[i.at..i.End()];
    }
  }

  lemma EmitKeeps(s: State, ph: Phase, d: seq<Byte>)
    requires Inv(s, ph)
    ensures Inv(s.(stream := s.stream + d), ph)
  {
    var t := s.(stream := s.stream + d);
    PiecesGrow(s.toRelay, s.stream, d);
    forall x | x in t.clients ensures LogOk(t.clients[x], t.stream) {
      assert LogOk(s.clients[x], s.stream);
      PiecesGrow(s.clients[x].shown, s.stream, d);
      PiecesGrow(s.clients[x].queue, s.stream, d);
    }
  }

  lemma FlushQueue(s: State, t: State, more: seq<Item>)
    requires t == s.(toRelay := s.toRelay + more, delivered := |s.stream|)
    requires OutChain(more, s.delivered, |s.stream|) && AllPieces(more, s.stream)
    ensures forall ph :: QueueOk(s, ph) ==> QueueOk(t, ph)
  {
    forall ph | QueueOk(s, ph)
      ensures QueueOk(t, ph)
    {
      if ph.Answered? {
        OutChainJoins(s.toRelay[ph.j..], more, ph.turn, s.delivered, t.delivered);
        assert t.toRelay[..ph.i] == s.toRelay[..ph.i] && t.toRelay[ph.i..ph.j] == s.toRelay[ph.i..ph.j];
        assert t.toRelay[ph.j..] == s.toRelay[ph.j..] + more;
      } else {
        OutChainJoins(s.toRelay, more, s.relayed, s.delivered, t.delivered);
      }
    }
  }

  /** A flush changes nothing about where the outstanding attach is. */
  lemma FlushKeeps(s: State)
    ensures forall ph :: Inv(s, ph) ==> Inv(FlushStep(s), ph)
  {
    forall ph | Inv(s, ph)
      ensures Inv(FlushStep(s), ph)
    {
      var t := FlushStep(s);
      if s.delivered < |s.stream| {
        assert s.stream[s.delivered..] == s.stream[s.delivered..|s.stream|];
        ChunkedOutput(s.sid, s.stream, s.delivered, |s.stream|);
        FlushQueue(s, t, Tag(Chunks(OUTPUT, s.sid, s.delivered, s.stream[s.delivered..], 0), s.delivered));
      }
    }
  }

  lemma SameQueue(s: State, t: State, ph: Phase)
    requires QueueOk(s, ph)
    requires t.stream == s.stream && t.delivered == s.delivered && t.relayed == s.relayed && t.toRelay == s.toRelay
    ensures QueueOk(t, ph)
  {
  }

  lemma JoinRoles(s: State, ph: Phase, x: Cid, c: Client)
    requires ControlOk(s, ph) && RolesOk(s, ph) && ReplayOk(s, ph) && x !in s.clients
    ensures var t := s.(clients := s.clients[x := c]); ControlOk(t, ph) && RolesOk(t, ph) && ReplayOk(t, ph)
  {
  }

  lemma JoinKeeps(s: State, ph: Phase, x: Cid, l: nat)
    requires Inv(s, ph)
    ensures Inv(Step(s, Join(x, l)), ph)
  {
    var t := Step(s, Join(x, l));
    SameQueue(s, t, ph);
    if x !in s.clients {
      JoinRoles(s, ph, x, t.clients[x]);
      forall y | y in t.clients ensures LogOk(t.clients[y], t.stream) {
        assert y in s.clients ==> LogOk(s.clients[y], s.stream);
      }
    }
  }

  /** When nothing is outstanding, the phase is Idle and no client is pending. */
  lemma NothingOutstanding(s: State, ph: Phase)
    requires Inv(s, ph) && NoneOutstanding(s)
    ensures ph.Idle?
  {
  }

  /** A new or fresh terminal's log, or the old one's, with only its quietness changed. */
  lemma AttachLog(c: Client, stream: seq<Byte>, quiet: bool)
    requires LogOk(c, stream)
    requires if c.mounted then !HasSnapshot(c.queue) && !MidSnapshot(c) && (quiet ==> c.queue == []) else c.queue == []
    ensures var c' := if c.mounted then c.(clean := c.clean && quiet)
                      else c.(mounted := true, shown := [], base := c.lastSeq, clean := quiet);
      LogOk(c', stream) && Continues(c', c.lastSeq)
  {
    if c.mounted {
      ReachGrows(c.shown, c.queue, c.base);
      assert c.queue == [] ==> Log(c) == c.shown;
    } else {
      assert [] + c.queue == [];
    }
  }

  lemma AttachControl(s: State, ph: Phase, x: Cid)
    requires ControlOk(s, ph) && ph.Idle? && Careful(s, Attach(x)) && x in s.clients
    ensures ControlOk(AttachStep(s, x), Asked(x, s.clients[x].lastSeq))
  {
    AsksMore(s.sent, Ask(Attachment(x, s.clients[x].lastSeq)));
    var t := AttachStep(s, x);
    forall y | Leave(y) in t.sent ensures Leave(y) in s.sent {
    }
  }

  lemma AttachRoles(s: State, ph: Phase, x: Cid)
    requires RolesOk(s, ph) && ph.Idle? && Careful(s, Attach(x)) && x in s.clients
    requires Continues(AttachStep(s, x).clients[x], s.clients[x].lastSeq)
    ensures var t, ph' := AttachStep(s, x), Asked(x, s.clients[x].lastSeq); RolesOk(t, ph') && ReplayOk(t, ph')
  {
  }

  lemma AttachKeeps(s: State, ph: Phase, x: Cid)
    requires Inv(s, ph) && Careful(s, Attach(x)) && x in s.clients
    ensures Inv(AttachStep(s, x), Asked(x, s.clients[x].lastSeq))
  {
    NothingOutstanding(s, ph);
    var c, t := s.clients[x], AttachStep(s, x);
    assert LogOk(c, s.stream);
    AttachLog(c, s.stream, c.queue == [] && (x in s.attached ==> s.attached[x]));
    AttachControl(s, ph, x);
    AttachRoles(s, ph, x);
    SameQueue(s, t, ph);
    forall y | y in t.clients ensures LogOk(t.clients[y], t.stream) {
      assert LogOk(s.clients[y], s.stream);
    }
  }

  lemma AsksMore(q: seq<Control>, m: Control)
    ensures Asks(q + [m]) == Asks(q) + Asked1(m)
  {
    assert (q + [m])[..|q|] == q;
  }

  lemma {:induction false} AsksHead(q: seq<Control>)
    requires q != []
    ensures Asks(q) == Asked1(q[0]) + Asks(q[1..])
  {
    if |q| == 1 {
      assert q[..0] == [] && q[1..] == [];
    } else {
      var less := q[..|q| - 1];
      AsksHead(less);
      assert less[1..] == q[1..][..|q[1..]| - 1];
      assert Asks(q) == Asks(less) + Asked1(q[|q| - 1]);
    }
  }

  lemma AskRoles(s: State, ph: Phase, a: Attachment, t: State)
    requires RolesOk(s, ph) && ReplayOk(s, ph) && ph == Asked(a.cid, a.lastSeq)
    requires t == s.(sent := t.sent, toAgent := t.toAgent, attached := s.attached[a.cid := true])
    ensures RolesOk(t, Marked(a.cid, a.lastSeq)) && ReplayOk(t, Marked(a.cid, a.lastSeq))
  {
  }

  lemma AskControl(s: State, ph: Phase, a: Attachment)
    requires ControlOk(s, ph) && s.sent != [] && s.sent[0] == Ask(a)
    ensures ph == Asked(a.cid, a.lastSeq) && ControlOk(RelayControlStep(s), Marked(a.cid, a.lastSeq))
  {
    AsksHead(s.sent);
    assert Asks(s.sent)[0] == a;
    assert ph == Asked(a.cid, a.lastSeq) && Asks(s.sent[1..]) == [];
    forall x | Leave(x) in s.sent[1..] ensures Leave(x) in s.sent {
    }
  }

  lemma AskTaken(s: State, ph: Phase, a: Attachment)
    requires Inv(s, ph) && s.sent != [] && s.sent[0] == Ask(a)
    ensures NextPhase(s, ph, RelayControl) == Marked(a.cid, a.lastSeq) && Inv(RelayControlStep(s), Marked(a.cid, a.lastSeq))
  {
    var t := RelayControlStep(s);
    AskControl(s, ph, a);
    AskRoles(s, ph, a, t);
    SameQueue(s, t, ph);
    SameQueue(s, t, Marked(a.cid, a.lastSeq));
    forall x | x in t.clients ensures LogOk(t.clients[x], t.stream) {
      assert LogOk(s.clients[x], s.stream);
    }
  }

  lemma LeaveTaken(s: State, ph: Phase, x: Cid)
    requires Inv(s, ph) && s.sent != [] && s.sent[0] == Leave(x)
    ensures NextPhase(s, ph, RelayControl) == ph && Inv(RelayControlStep(s), ph)
  {
    AsksHead(s.sent);
    assert Leave(x) in s.sent && [] + Asks(s.sent[1..]) == Asks(s.sent[1..]);
    forall y | Leave(y) in s.sent[1..] ensures Leave(y) in s.sent {
    }
  }

  lemma RelayControlKeeps(s: State, ph: Phase)
    requires Inv(s, ph) && s.sent != []
    ensures Inv(RelayControlStep(s), NextPhase(s, ph, RelayControl))
  {
    match s.sent[0]
    case Ask(a) => AskTaken(s, ph, a);
    case Leave(x) => LeaveTaken(s, ph, x);
  }

  lemma DetachControl(s: State, ph: Phase, x: Cid)
    requires ControlOk(s, ph) && x in s.clients
    ensures ControlOk(DetachStep(s, x), ph)
  {
    AsksMore(s.sent, Leave(x));
    var t := DetachStep(s, x);
    forall y | Leave(y) in t.sent ensures y in t.clients && !t.clients[y].mounted {
      assert y == x || Leave(y) in s.sent;
    }
  }

  /** Who is at the relay and in which role, when a terminal closes. */
  lemma DetachRoles(s: State, ph: Phase, x: Cid, t: State)
    requires RolesOk(s, ph) && ReplayOk(s, ph) && x in s.clients
    requires t == s.(clients := s.clients[x := s.clients[x].(mounted := false)], sent := t.sent)
    ensures RolesOk(t, ph) && ReplayOk(t, ph)
  {
  }

  lemma DetachKeeps(s: State, ph: Phase, x: Cid)
    requires Inv(s, ph) && x in s.clients
    ensures Inv(DetachStep(s, x), ph)
  {
    var t := DetachStep(s, x);
    DetachControl(s, ph, x);
    SameQueue(s, t, ph);
    if s.clients[x].mounted {
      DetachRoles(s, ph, x, t);
      forall y | y in t.clients ensures LogOk(t.clients[y], t.stream) {
        assert LogOk(s.clients[y], s.stream);
      }
    }
  }

  lemma OnFrameOk(c: Client)
    requires c.queue != []
    ensures forall stream :: LogOk(c, stream) ==> LogOk(OnFrame(c), stream) && (c.mounted ==> Log(OnFrame(c)) == Log(c))
  {
    forall stream | LogOk(c, stream)
      ensures LogOk(OnFrame(c), stream) && (c.mounted ==> Log(OnFrame(c)) == Log(c))
    {
      var i := c.queue[0];
      assert i in c.queue;
      assert Piece(i, stream);
      if c.mounted {
        assert Log(OnFrame(c)) == Log(c);
        Push(c.shown, i, c.base);
      }
    }
  }

  /** Applying a frame changes a client's log and role in nothing. */
  lemma ApplyRoles(s: State, ph: Phase, x: Cid, c: Client)
    requires ControlOk(s, ph) && RolesOk(s, ph) && ReplayOk(s, ph) && x in s.clients
    requires c.mounted == s.clients[x].mounted && c.base == s.clients[x].base && c.clean == s.clients[x].clean
    requires c.mounted ==> Log(c) == Log(s.clients[x])
    ensures var t := s.(clients := s.clients[x := c]); ControlOk(t, ph) && RolesOk(t, ph) && ReplayOk(t, ph)
  {
  }

  lemma ApplyKeeps(s: State, ph: Phase, x: Cid)
    requires Inv(s, ph) && x in s.clients && s.clients[x].queue != []
    ensures Inv(Step(s, Apply(x)), ph)
  {
    var t := Step(s, Apply(x));
    assert LogOk(s.clients[x], s.stream);
    OnFrameOk(s.clients[x]);
    SameQueue(s, t, ph);
    ApplyRoles(s, ph, x, t.clients[x]);
    forall y | y in t.clients ensures LogOk(t.clients[y], t.stream) {
      assert LogOk(s.clients[y], s.stream);
    }
  }

  /** A replay's chunks are one snapshot of the stream, from the asked offset or with a reset. */
  lemma ReplayIsSnapshot(g: State, l: nat, q: seq<Item>)
    requires q == SnapshotItems(g, l)
    ensures q != [] && (q[0].Resets() || q[0].at == l)
    ensures AllPieces(q, g.stream) && SnapChain(q, q[0].at, |g.stream|)
  {
    var (data, delta) := ReplayDelta(g.stream, g.cap, l);
    var a := |g.stream| - |data|;
    assert data == g.stream[a..|g.stream|];
    ChunkedSnapshot(g.sid, g.stream, a, |g.stream|, if delta then 0 else FLAG_RESET);
  }

  /** The snapshot goes into the queue behind everything flushed before it. */
  lemma AnswerInQueue(g: State, l: nat, q: seq<Item>)
    requires q == SnapshotItems(g, l)
    ensures forall c :: QueueOk(g, Marked(c, l)) ==>
      && q != [] && (q[0].Resets() || q[0].at == l)
      && QueueOk(g.(toRelay := g.toRelay + q), Answered(c, |g.toRelay|, |g.toRelay| + |q|, g.delivered, |g.stream|))
  {
    forall c | QueueOk(g, Marked(c, l))
      ensures q != [] && (q[0].Resets() || q[0].at == l)
      ensures QueueOk(g.(toRelay := g.toRelay + q), Answered(c, |g.toRelay|, |g.toRelay| + |q|, g.delivered, |g.stream|))
    {
      ReplayIsSnapshot(g, l, q);
      AppendedSlices(g.toRelay, q);
      QueuedAnswer(g, c, l, q, g.(toRelay := g.toRelay + q), |g.toRelay|, |g.toRelay| + |q|);
    }
  }

  lemma QueuedAnswer(g: State, c: Cid, l: nat, q: seq<Item>, t: State, n: nat, m: nat)
    requires QueueOk(g, Marked(c, l)) && t == g.(toRelay := t.toRelay)
    requires n < m == |t.toRelay| && t.toRelay[..n] == g.toRelay && t.toRelay[n..m] == q
    requires AllPieces(q, g.stream) && SnapChain(q, t.toRelay[n].at, |g.stream|)
    ensures QueueOk(t, Answered(c, n, m, g.delivered, |g.stream|))
  {
    assert t.toRelay[m..] == [];
    assert OutChain([], g.delivered, t.delivered);
    assert t.toRelay == g.toRelay + q;
    forall i | i in t.toRelay ensures Piece(i, t.stream) {
    }
  }

  lemma AppendedSlices<T>(p: seq<T>, q: seq<T>)
    ensures (p + q)[..|p|] == p && (p + q)[|p|..|p| + |q|] == q && (p + q)[|p| + |q|..] == []
    ensures q != [] ==> (p + q)[|p|] == q[0]
  {
  }

  lemma AnswerKeeps(g: State, c: Cid, l: nat)
    requires Inv(g, Marked(c, l))
    ensures forall raced :: g.delivered == |g.stream| || raced ==>
      var t := AnswerStep(g, raced); Inv(t, Answered(c, |g.toRelay|, |t.toRelay|, g.delivered, |g.stream|))
  {
    forall raced | g.delivered == |g.stream| || raced
      ensures var t := AnswerStep(g, raced); Inv(t, Answered(c, |g.toRelay|, |t.toRelay|, g.delivered, |g.stream|))
    {
      var t := AnswerStep(g, raced);
      var q := SnapshotItems(g, l);
      AnswerInQueue(g, l, q);
      assert t.toRelay == g.toRelay + q && t.toRelay[|g.toRelay|] == q[0];
      assert Log(t.clients[c]) == Log(g.clients[c]) && t.clients.Keys == g.clients.Keys;
      assert ControlOk(t, Answered(c, |g.toRelay|, |t.toRelay|, g.delivered, |g.stream|));
      UncleanLogs(g, raced);
    }
  }

  lemma UncleanLogs(g: State, raced: bool)
    requires g.toAgent != [] && forall x :: x in g.clients ==> LogOk(g.clients[x], g.stream)
    ensures var t := AnswerStep(g, raced); forall x :: x in t.clients ==> LogOk(t.clients[x], t.stream)
  {
    var t := AnswerStep(g, raced);
    forall x | x in t.clients ensures LogOk(t.clients[x], t.stream) {
      assert LogOk(g.clients[x], g.stream);
    }
  }

  lemma ReplayKeeps(s: State, ph: Phase, d: seq<Byte>)
    requires Inv(s, ph) && s.toAgent != []
    ensures ph.Marked? && Inv(ReplayStep(s, d), NextPhase(s, ph, Replay(d)))
  {
    FlushKeeps(s);
    var f := FlushStep(s);
    EmitKeeps(f, ph, d);
    AnswerKeeps(f.(stream := f.stream + d), ph.c, ph.l);
  }

  lemma PushedOk(c: Client, i: Item, stream: seq<Byte>)
    requires LogOk(c, stream) && Piece(i, stream) && c.mounted
    requires i.Resets() || Continues(c, i.at)
    ensures var c' := c.(queue := c.queue + [i]);
      && LogOk(c', stream)
      && Reach(Log(c'), c.base) == (if i.Resets() then i.End() else Max(Reach(Log(c), c.base), i.End()))
      && End(Log(c'), c.base) == i.End()
  {
    var c' := c.(queue := c.queue + [i]);
    assert Log(c') == Log(c) + [i];
    Push(Log(c), i, c.base);
  }

  /** What routing frame i does to one client. */
  function Routed(s: State, x: Cid, i: Item): Client
    requires x in s.clients
  {
    if x in s.attached && Wants(s.attached[x], i.f)
    then s.clients[x].(queue := s.clients[x].queue + [i]) else s.clients[x]
  }

  lemma OutputKeeps(s: State, ph: Phase, x: Cid, i: Item)
    requires RolesOk(s, ph) && x in s.clients && LogOk(s.clients[x], s.stream)
    requires i.f.typ == OUTPUT && i.at == s.relayed && Piece(i, s.stream)
    ensures var c := Routed(s, x, i);
      && LogOk(c, s.stream)
      && (s.clients[x].mounted && x in s.attached && !s.attached[x] ==> CaughtUp(c, i.End()))
      && (s.clients[x].mounted ==> Reach(Log(c), c.base) >= Reach(Log(s.clients[x]), c.base))
  {
    if x in s.attached && !s.attached[x] && s.clients[x].mounted {
      PushedOk(s.clients[x], i, s.stream);
    }
  }

  lemma OutChainHead(q: seq<Item>, n: nat, from: nat, to: nat)
    requires 0 < n <= |q| && OutChain(q[..n], from, to)
    ensures q[0].f.typ == OUTPUT && q[0].at == from && OutChain(q[1..][..n - 1], q[0].End(), to)
    ensures q[0].End() <= to
  {
    assert q[..n][1..] == q[1..][..n - 1];
    OutChainOrder(q[..n], from, to);
    OutChainOrder(q[..n][1..], q[0].End(), to);
  }

  lemma {:induction false} OutChainOrder(q: seq<Item>, from: nat, to: nat)
    requires OutChain(q, from, to)
    ensures from <= to
  {
    if q != [] {
      OutChainOrder(q[1..], q[0].End(), to);
    }
  }

  lemma RouteOutputQueue(s: State)
    requires s.toRelay != []
    ensures forall ph :: QueueOk(s, ph) && (ph.Answered? ==> ph.i > 0) ==>
      && s.toRelay[0].f.typ == OUTPUT && s.toRelay[0].at == s.relayed
      && QueueOk(RouteStep(s), NextPhase(s, ph, Route))
  {
    forall ph | QueueOk(s, ph) && (ph.Answered? ==> ph.i > 0)
      ensures s.toRelay[0].f.typ == OUTPUT && s.toRelay[0].at == s.relayed && QueueOk(RouteStep(s), NextPhase(s, ph, Route))
    {
      var q := s.toRelay;
      if ph.Answered? {
        OutChainHead(q, ph.i, s.relayed, ph.turn);
        OutChainOrder(q[ph.j..], ph.turn, s.delivered);
        assert q[1..][ph.i - 1..ph.j - 1] == q[ph.i..ph.j];
        assert q[1..][ph.j - 1..] == q[ph.j..];
        assert q[1..][ph.i - 1] == q[ph.i];
      } else {
        assert q[..|q|] == q && q[1..][..|q| - 1] == q[1..];
        OutChainHead(q, |q|, s.relayed, s.delivered);
      }
    }
  }

  lemma RouteControl(s: State, ph: Phase)
    requires ControlOk(s, ph) && s.toRelay != []
    ensures ControlOk(RouteStep(s), NextPhase(s, ph, Route))
  {
  }

  /** The next frame is Output: no answer in the queue, or Output still before it. */
  lemma RouteOutputKeeps(s: State)
    requires s.toRelay != []
    ensures forall ph :: Inv(s, ph) && (ph.Answered? ==> ph.i > 0) ==> Inv(RouteStep(s), NextPhase(s, ph, Route))
  {
    forall ph | Inv(s, ph) && (ph.Answered? ==> ph.i > 0)
      ensures Inv(RouteStep(s), NextPhase(s, ph, Route))
    {
      RouteOutputQueue(s);
      var i, t, ph' := s.toRelay[0], RouteStep(s), NextPhase(s, ph, Route);
      assert i in s.toRelay && Piece(i, s.stream);
      RouteOutputClients(s, ph, t, i);
      RouteOutputRoles(s, ph, t, ph');
      RouteOutputReplay(s, ph, t, ph');
      RouteControl(s, ph);
    }
  }

  lemma RouteOutputClients(s: State, ph: Phase, t: State, i: Item)
    requires RolesOk(s, ph) && s.toRelay != [] && forall x :: x in s.clients ==> LogOk(s.clients[x], s.stream)
    requires i == s.toRelay[0] && t == RouteStep(s)
    requires i.f.typ == OUTPUT && i.at == s.relayed && Piece(i, s.stream)
    ensures t.attached == s.attached && t.stream == s.stream && t.clients.Keys == s.clients.Keys
    ensures forall x :: x in s.clients ==> LogOk(t.clients[x], t.stream) && Advanced(s, t, x)
  {
    assert t.clients.Keys == s.clients.Keys;
    forall x | x in s.clients ensures LogOk(t.clients[x], t.stream) && Advanced(s, t, x) {
      assert t.clients[x] == Routed(s, x, i);
      OutputKeeps(s, ph, x, i);
    }
  }

  /** A client's log went on with the relay's position. */
  ghost predicate Advanced(s: State, t: State, x: Cid)
    requires x in s.clients
  {
    && x in t.clients
    && t.clients[x].base == s.clients[x].base
    && t.clients[x].mounted == s.clients[x].mounted && t.clients[x].clean == s.clients[x].clean
    && (x in s.attached && !s.attached[x] && s.clients[x].mounted ==> CaughtUp(t.clients[x], t.relayed))
    && (x !in s.attached || s.attached[x] ==> t.clients[x] == s.clients[x])
    && (s.clients[x].mounted ==>
      Reach(Log(t.clients[x]), t.clients[x].base) >= Reach(Log(s.clients[x]), s.clients[x].base))
  }

  lemma RouteOutputRoles(s: State, ph: Phase, t: State, ph': Phase)
    requires RolesOk(s, ph)
    requires t.attached == s.attached && forall x :: x in s.clients ==> Advanced(s, t, x)
    requires ph' == if ph.Answered? && ph.i > 0 && ph.j > 0 then ph.(i := ph.i - 1, j := ph.j - 1) else ph
    ensures RolesOk(t, ph')
  {
  }

  lemma RouteOutputReplay(s: State, ph: Phase, t: State, ph': Phase)
    requires RolesOk(s, ph) && ReplayOk(s, ph) && s.toRelay != []
    requires ph.Answered? ==> 0 < ph.i < ph.j
    requires t.attached == s.attached && t.toRelay == s.toRelay[1..]
    requires forall x :: x in s.clients ==> Advanced(s, t, x)
    requires ph' == if ph.Answered? then ph.(i := ph.i - 1, j := ph.j - 1) else ph
    ensures ReplayOk(t, ph')
  {
    if !ph.Idle? {
      assert Advanced(s, t, ph.c);
      if ph.Answered? {
        assert t.toRelay[ph.i - 1] == s.toRelay[ph.i];
      }
    }
  }

  lemma SnapChainHead(q: seq<Item>, j: nat, to: nat)
    requires 0 < j <= |q| && SnapChain(q[..j], q[0].at, to)
    ensures q[0].f.typ == SNAPSHOT && (q[0].f.More() <==> j > 1)
    ensures j == 1 ==> q[0].End() == to
    ensures j > 1 ==> q[1].at == q[0].End() && !q[1].Resets() && SnapChain(q[1..][..j - 1], q[1].at, to)
  {
    assert q[..j][1..] == q[1..][..j - 1];
  }

  lemma RouteSnapshotQueue(s: State)
    ensures forall ph :: QueueOk(s, ph) && ph.Answered? && ph.i == 0 ==>
      && s.relayed == ph.turn && s.toRelay[0].f.typ == SNAPSHOT && (s.toRelay[0].f.More() <==> ph.j > 1)
      && (if ph.j == 1 then s.toRelay[0].End() == ph.end else s.toRelay[1].at == s.toRelay[0].End())
      && QueueOk(RouteStep(s), NextPhase(s, ph, Route))
  {
    forall ph | QueueOk(s, ph) && ph.Answered? && ph.i == 0
      ensures s.relayed == ph.turn && s.toRelay[0].f.typ == SNAPSHOT && (s.toRelay[0].f.More() <==> ph.j > 1)
      ensures if ph.j == 1 then s.toRelay[0].End() == ph.end else s.toRelay[1].at == s.toRelay[0].End()
      ensures QueueOk(RouteStep(s), NextPhase(s, ph, Route))
    {
      var q := s.toRelay;
      assert q[0..ph.j] == q[..ph.j];
      SnapChainHead(q, ph.j, ph.end);
      assert q[1..][ph.j - 1..] == q[ph.j..];
      if ph.j > 1 {
        assert q[1..][0..ph.j - 1] == q[1..][..ph.j - 1];
      }
    }
  }

  /** The next frame is a chunk of the snapshot: it goes to the one pending client. */
  lemma RouteSnapshotKeeps(s: State)
    ensures forall ph :: Inv(s, ph) && ph.Answered? && ph.i == 0 ==> Inv(RouteStep(s), NextPhase(s, ph, Route))
  {
    forall ph | Inv(s, ph) && ph.Answered? && ph.i == 0
      ensures Inv(RouteStep(s), NextPhase(s, ph, Route))
    {
      RouteSnapshotQueue(s);
      var i, t, ph' := s.toRelay[0], RouteStep(s), NextPhase(s, ph, Route);
      assert i in s.toRelay && Piece(i, s.stream);
      RouteSnapshotLogs(s, ph, i, t);
      RouteSnapshotRoles(s, ph, t, i);
      RouteControl(s, ph);
      assert t.clients.Keys == s.clients.Keys && t.stream == s.stream;
    }
  }

  lemma RouteSnapshotLogs(s: State, ph: Phase, i: Item, t: State)
    requires RolesOk(s, ph) && ReplayOk(s, ph) && ph.Answered? && ph.i == 0 && s.toRelay != []
    requires forall x :: x in s.clients ==> LogOk(s.clients[x], s.stream)
    requires i == s.toRelay[0] && i.f.typ == SNAPSHOT && Piece(i, s.stream) && t == RouteStep(s)
    ensures forall x :: x in s.clients ==> LogOk(t.clients[x], s.stream)
    ensures forall x :: x in s.clients && x != ph.c ==> t.clients[x] == s.clients[x]
    ensures s.clients[ph.c].mounted ==>
      && Reach(Log(t.clients[ph.c]), t.clients[ph.c].base) >= i.End()
      && End(Log(t.clients[ph.c]), t.clients[ph.c].base) == i.End()
  {
    assert forall x :: x in s.clients ==> t.clients[x] == Routed(s, x, i);
    var c := s.clients[ph.c];
    if c.mounted {
      PushedOk(c, i, s.stream);
      assert t.clients[ph.c] == c.(queue := c.queue + [i]);
    }
  }

  lemma RouteSnapshotRoles(s: State, ph: Phase, t: State, i: Item)
    requires RolesOk(s, ph) && ReplayOk(s, ph) && ph.Answered? && ph.i == 0 && ph.j > 0
    requires t == RouteStep(s) && i == s.toRelay[0] && i.f.typ == SNAPSHOT
    requires s.relayed == ph.turn <= ph.end
    requires i.f.More() <==> ph.j > 1
    requires ph.j == 1 ==> i.End() == ph.end
    requires ph.j > 1 ==> |s.toRelay| > 1 && s.toRelay[1].at == i.End()
    requires forall x :: x in s.clients && x != ph.c ==> t.clients[x] == s.clients[x]
    requires s.clients[ph.c].mounted ==>
      && Reach(Log(t.clients[ph.c]), t.clients[ph.c].base) >= i.End()
      && End(Log(t.clients[ph.c]), t.clients[ph.c].base) == i.End()
    ensures RolesOk(t, NextPhase(s, ph, Route)) && ReplayOk(t, NextPhase(s, ph, Route))
  {
    if ph.j > 1 {
      assert t.attached == s.attached;
      assert t.toRelay[0] == s.toRelay[1];
    }
  }

  lemma StepKeeps(s: State, ph: Phase, e: Event)
    requires Inv(s, ph) && Careful(s, e)
    ensures Inv(Step(s, e), NextPhase(s, ph, e))
  {
    match e
    case Emit(d) => EmitKeeps(s, ph, d);
    case Flush => FlushKeeps(s);
    case Join(x, l) => JoinKeeps(s, ph, x, l);
    case Attach(x) => if x in s.clients { AttachKeeps(s, ph, x); }
    case RelayControl => if s.sent != [] { RelayControlKeeps(s, ph); }
    case Replay(d) => if s.toAgent != [] { ReplayKeeps(s, ph, d); }
    case Route =>
      if s.toRelay != [] {
        if ph.Answered? && ph.i == 0 { RouteSnapshotKeeps(s); } else { RouteOutputKeeps(s); }
      }
    case Apply(x) => if x in s.clients && s.clients[x].queue != [] { ApplyKeeps(s, ph, x); }
    case Detach(x) => if x in s.clients { DetachKeeps(s, ph, x); }
  }

  /** In every state a careful run reaches, the one outstanding attach, if any, is in some phase. */
  lemma {:induction false} RunKeeps(s: State, ph: Phase, es: seq<Event>)
    requires Inv(s, ph) && CarefulRun(s, es)
    ensures exists ph' :: Inv(Run(s, es), ph')
    decreases |es|
  {
    if es == [] {
      assert Inv(Run(s, es), ph);
    } else {
      var t := Step(s, es[0]);
      StepKeeps(s, ph, es[0]);
      RunKeeps(t, NextPhase(s, ph, es[0]), es[1..]);
      var ph' :| Inv(Run(t, es[1..]), ph');
      assert Run(s, es) == Run(t, es[1..]);
    }
  }

  // ---- the claims -----------------------------------------------------------------

  /**
   No byte is ever missing: whatever races and whatever is in flight when a
   client attaches, every mounted terminal has written every byte between
   where its screen begins and the furthest offset it reached.
   */
  lemma NoByteMissing(scrollback: seq<Byte>, cap: nat, sid: nat, es: seq<Event>, x: Cid, o: nat)
    requires CarefulRun(Initial(scrollback, cap, sid), es)
    ensures var s := Run(Initial(scrollback, cap, sid), es);
      x in s.clients && s.clients[x].mounted ==>
        var c := s.clients[x];
        && (forall i :: i in c.shown ==> i.End() <= |s.stream| && i.f.payload == s.stream[i.at..i.End()])
        && (Start(c.shown, c.base) <= o < Reach(c.shown, c.base) ==> Shows(c.shown, o))
  {
    RunKeeps(Initial(scrollback, cap, sid), Idle, es);
    var s := Run(Initial(scrollback, cap, sid), es);
    var ph :| Inv(s, ph);
    if x in s.clients && s.clients[x].mounted {
      var c := s.clients[x];
      assert LogOk(c, s.stream);
      assert forall i :: i in c.shown ==> Piece(i, s.stream);
      PrefixesToo(c.shown, c.queue, c.base);
      if Start(c.shown, c.base) <= o < Reach(c.shown, c.base) {
        NoGapShowsAll(c.shown, c.base, o);
      }
    }
  }

  /** Output still on its way to the relay is what lies between its position and the agent's. */
  lemma OutputInFlight(s: State, ph: Phase)
    requires Inv(s, ph)
    ensures OutputBytes(s.toRelay) == s.stream[s.relayed..s.delivered]
  {
    var q := s.toRelay;
    if ph.Answered? {
      OutChainBytes(q[..ph.i], s.relayed, ph.turn, s.stream);
      SnapChainBytes(q[ph.i..ph.j], q[ph.i].at, ph.end);
      OutChainBytes(q[ph.j..], ph.turn, s.delivered, s.stream);
      ThreeParts(q, ph.i, ph.j);
      OutputBytesOfThree(q[..ph.i], q[ph.i..ph.j], q[ph.j..]);
      SplitStream(s.stream, s.relayed, ph.turn, s.delivered);
    } else {
      OutChainBytes(q, s.relayed, s.delivered, s.stream);
    }
  }

  lemma OutputBytesOfThree(a: seq<Item>, b: seq<Item>, c: seq<Item>)
    ensures OutputBytes(a + b + c) == OutputBytes(a) + OutputBytes(b) + OutputBytes(c)
  {
    OutputBytesJoin(a, b);
    OutputBytesJoin(a + b, c);
  }

  lemma ThreeParts<T>(q: seq<T>, i: nat, j: nat)
    requires i <= j <= |q|
    ensures q == q[..i] + q[i..j] + q[j..]
  {
  }

  lemma SplitStream(stream: seq<Byte>, a: nat, b: nat, c: nat)
    requires a <= b <= c <= |stream|
    ensures stream[a..c] == stream[a..b] + stream[b..c] == stream[a..b] + [] + stream[b..c]
  {
  }

  /**
   Exactly once: a client whose attaches were all quiet shows one piece of the
   stream, byte for byte, and lastSeq is where it ends. Once complete, what it
   shows, what is queued for it and the Output still on its way to the relay
   are together the stream up to what the agent has delivered.
   */
  lemma ExactlyOnce(scrollback: seq<Byte>, cap: nat, sid: nat, es: seq<Event>, x: Cid)
    requires CarefulRun(Initial(scrollback, cap, sid), es)
    ensures var s := Run(Initial(scrollback, cap, sid), es);
      x in s.clients && s.clients[x].mounted && s.clients[x].clean ==>
        var c := s.clients[x];
        && (c.shown != [] ==>
          && Start(c.shown, c.base) <= End(c.shown, c.base) <= |s.stream|
          && Screen(c.shown) == s.stream[Start(c.shown, c.base)..End(c.shown, c.base)])
        && (!MidSnapshot(c) ==> c.lastSeq == End(c.shown, c.base))
        && (x in s.attached && !s.attached[x] ==>
          && Start(Log(c), c.base) <= s.delivered <= |s.stream|
          && Screen(Log(c)) + OutputBytes(s.toRelay) == s.stream[Start(Log(c), c.base)..s.delivered])
  {
    RunKeeps(Initial(scrollback, cap, sid), Idle, es);
    var s := Run(Initial(scrollback, cap, sid), es);
    var ph :| Inv(s, ph);
    if x in s.clients && s.clients[x].mounted && s.clients[x].clean {
      var c := s.clients[x];
      assert LogOk(c, s.stream);
      PrefixesToo(c.shown, c.queue, c.base);
      if c.shown != [] {
        ExactIsStream(c.shown, c.base, s.stream);
      }
      if x in s.attached && !s.attached[x] {
        WholeWay(s, ph, x, c);
      }
    }
  }

  /** What a complete client has, and the Output still on its way, are one piece of the stream. */
  lemma WholeWay(s: State, ph: Phase, x: Cid, c: Client)
    requires Inv(s, ph) && x in s.clients && c == s.clients[x] && c.mounted && c.clean && x in s.attached && !s.attached[x]
    ensures Start(Log(c), c.base) <= s.delivered <= |s.stream|
    ensures Screen(Log(c)) + OutputBytes(s.toRelay) == s.stream[Start(Log(c), c.base)..s.delivered]
  {
    OutputInFlight(s, ph);
    assert LogOk(c, s.stream) && CaughtUp(c, s.relayed);
    assert AllPieces(Log(c), s.stream);
    ExactIsStream(Log(c), c.base, s.stream);
    var a := Start(Log(c), c.base);
    assert s.stream[a..s.delivered] == s.stream[a..s.relayed] + s.stream[s.relayed..s.delivered];
  }

  /** In particular, when nothing is left to send, the screen ends with the stream. */
  lemma QuietMeansUpToDate(scrollback: seq<Byte>, cap: nat, sid: nat, es: seq<Event>, x: Cid)
    requires CarefulRun(Initial(scrollback, cap, sid), es)
    ensures var s := Run(Initial(scrollback, cap, sid), es);
      && (x in s.attached ==> x in s.clients)
      && (x in s.attached && !s.attached[x] && s.clients[x].mounted && s.clients[x].clean && s.clients[x].queue == []
          && s.toRelay == [] && s.delivered == |s.stream| ==>
        var c := s.clients[x];
        Start(c.shown, c.base) <= |s.stream| && Screen(c.shown) == s.stream[Start(c.shown, c.base)..])
  {
    RunKeeps(Initial(scrollback, cap, sid), Idle, es);
    ExactlyOnce(scrollback, cap, sid, es, x);
    var s := Run(Initial(scrollback, cap, sid), es);
    var ph :| Inv(s, ph);
    if x in s.attached && s.clients[x].queue == [] && s.toRelay == [] {
      assert Log(s.clients[x]) == s.clients[x].shown;
      assert Screen(s.clients[x].shown) + [] == Screen(s.clients[x].shown);
    }
  }
}
