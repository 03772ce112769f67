/**
 What an answer of the agent does to every client whose attach is pending,
 whoever asked: the relay sends it to all of them. This holds in any state,
 with any number of attaches outstanding.
 */
module Answers {
  import opened Bytes
  import opened RingBuffer
  import opened Sessions
  import opened Frames
  import opened Pieces
  import opened Delivery

  function Routes(es: seq<Event>): nat {
    if es == [] then 0 else (if es[0].Route? then 1 else 0) + Routes(es[1..])
  }

  /** Nothing the client itself does: others may come, go, ask and be answered. */
  predicate NotBy(e: Event, x: Cid) {
    e != Attach(x) && e != Detach(x)
  }

  /** No message of the client is on its way to the relay. */
  predicate Silent(s: State, x: Cid) {
    forall m :: m in s.sent ==> m != Leave(x) && !(m.Ask? && m.a.cid == x)
  }

  /** A mounted client at the relay; r is what the relay will get next, up to the end of an answer. */
  ghost predicate Awaits(s: State, x: Cid, r: seq<Item>, pending: bool) {
    && x in s.clients && s.clients[x].mounted && x in s.attached && s.attached[x] == pending && Silent(s, x)
    && |r| <= |s.toRelay| && s.toRelay[..|r|] == r
  }

  /** Output frames, then one snapshot. */
  ghost predicate OutputThenSnapshot(p: seq<Item>, q: seq<Item>, to: nat) {
    (forall i :: i in p ==> i.f.typ == OUTPUT) && SnapChain(q, if q == [] then 0 else q[0].at, to)
  }

  lemma OtherStep(s: State, e: Event, x: Cid, r: seq<Item>, pending: bool)
    requires Awaits(s, x, r, pending) && NotBy(e, x) && !e.Route?
    ensures var t := Step(s, e);
      Awaits(t, x, r, pending) && Log(t.clients[x]) == Log(s.clients[x]) && t.clients[x].base == s.clients[x].base
  {
    match e
    case Replay(d) => if s.toAgent != [] { ReplayAppends(s, d, r); }
    case Flush => FlushAppends(s, r);
    case Apply(y) =>
      if y == x && s.clients[x].queue != [] {
        var c := s.clients[x];
        assert c.shown + [c.queue[0]] + c.queue[1..] == Log(c);
      }
    case RelayControl => if s.sent != [] { ControlSilent(s, x); }
    case _ =>
  }

  lemma ControlSilent(s: State, x: Cid)
    requires Silent(s, x) && s.sent != []
    ensures Silent(RelayControlStep(s), x) && s.sent[0] != Leave(x) && !(s.sent[0].Ask? && s.sent[0].a.cid == x)
  {
    assert s.sent[0] in s.sent;
    forall m | m in s.sent[1..] ensures m in s.sent {
    }
  }

  lemma FlushAppends(s: State, r: seq<Item>)
    requires |r| <= |s.toRelay| && s.toRelay[..|r|] == r
    ensures |r| <= |FlushStep(s).toRelay| && FlushStep(s).toRelay[..|r|] == r
  {
  }

  lemma ReplayAppends(s: State, d: seq<Byte>, r: seq<Item>)
    requires |r| <= |s.toRelay| && s.toRelay[..|r|] == r && s.toAgent != []
    ensures |r| <= |ReplayStep(s, d).toRelay| && ReplayStep(s, d).toRelay[..|r|] == r
  {
    FlushAppends(s, r);
  }

  /** One frame of what is awaited: Output passes a pending client by, a chunk reaches it. */
  lemma RouteReaches(s: State, x: Cid, r: seq<Item>, i: Item)
    requires Awaits(s, x, r, true) && r != [] && i == r[0] && (i.f.typ == OUTPUT || i.f.typ == SNAPSHOT)
    ensures var t := RouteStep(s);
      && Awaits(t, x, r[1..], !EndsSnapshot(i.f)) && t.clients[x].base == s.clients[x].base
      && Log(t.clients[x]) == if i.f.typ == OUTPUT then Log(s.clients[x]) else Log(s.clients[x]) + [i]
  {
    var t := RouteStep(s);
    assert s.toRelay[0] == s.toRelay[..|r|][0];
    assert s.toRelay[1..][..|r| - 1] == s.toRelay[..|r|][1..];
    assert t.clients[x] == Routed(s, x, i);
    assert s.clients[x].shown + (s.clients[x].queue + [i]) == Log(s.clients[x]) + [i];
  }

  lemma OutputPasses(s: State, x: Cid, p: seq<Item>, q: seq<Item>, to: nat)
    requires Awaits(s, x, p + q, true) && OutputThenSnapshot(p, q, to) && p != []
    ensures var t := Step(s, Route);
      && Awaits(t, x, p[1..] + q, true) && OutputThenSnapshot(p[1..], q, to)
      && t.clients[x].base == s.clients[x].base && Log(t.clients[x]) == Log(s.clients[x])
  {
    assert p[0] in p && (p + q)[1..] == p[1..] + q;
    RouteReaches(s, x, p + q, p[0]);
  }

  lemma ChunkReaches(s: State, x: Cid, q: seq<Item>, to: nat)
    requires Awaits(s, x, q, true) && OutputThenSnapshot([], q, to)
    ensures var t := Step(s, Route);
      && Awaits(t, x, q[1..], |q| > 1) && (|q| > 1 ==> OutputThenSnapshot([], q[1..], to))
      && t.clients[x].base == s.clients[x].base && Log(t.clients[x]) == Log(s.clients[x]) + [q[0]]
  {
    RouteReaches(s, x, q, q[0]);
    if |q| > 1 {
      assert SnapChain(q[1..], q[0].End(), to);
      assert q[1..][0].at == q[0].End();
    }
  }

  ghost predicate Arrived(s: State, t: State, x: Cid, q: seq<Item>)
    requires x in s.clients
  {
    && Awaits(t, x, [], false) && t.clients[x].base == s.clients[x].base
    && Log(t.clients[x]) == Log(s.clients[x]) + q
  }

  /** With q empty the client is complete, and with no more frames routed its log stays. */
  lemma {:induction false} ChunksArrive(s: State, es: seq<Event>, x: Cid, q: seq<Item>, to: nat)
    requires Awaits(s, x, q, q != []) && (q != [] ==> OutputThenSnapshot([], q, to))
    requires Routes(es) == |q| && forall e :: e in es ==> NotBy(e, x)
    ensures Arrived(s, Run(s, es), x, q)
    decreases |es|
  {
    if es != [] {
      var e, t := es[0], Step(s, es[0]);
      assert e in es;
      if !e.Route? {
        OtherStep(s, e, x, q, q != []);
        ChunksArrive(t, es[1..], x, q, to);
      } else {
        ChunkReaches(s, x, q, to);
        assert Log(s.clients[x]) + [q[0]] + q[1..] == Log(s.clients[x]) + q;
        ChunksArrive(t, es[1..], x, q[1..], to);
      }
    }
  }

  lemma {:induction false} AnswerArrives(s: State, es: seq<Event>, x: Cid, p: seq<Item>, q: seq<Item>, to: nat)
    requires Awaits(s, x, p + q, true) && OutputThenSnapshot(p, q, to)
    requires Routes(es) == |p| + |q| && forall e :: e in es ==> NotBy(e, x)
    ensures Arrived(s, Run(s, es), x, q)
    decreases |es|
  {
    if p == [] {
      assert p + q == q;
      ChunksArrive(s, es, x, q, to);
    } else {
      var e, t := es[0], Step(s, es[0]);
      assert e in es;
      if e.Route? {
        OutputPasses(s, x, p, q, to);
        AnswerArrives(t, es[1..], x, p[1..], q, to);
      } else {
        OtherStep(s, e, x, p + q, true);
        AnswerArrives(t, es[1..], x, p, q, to);
      }
    }
  }

  // ---- the agent's answer -----------------------------------------------------------------

  lemma {:induction false} OutChainIsOutput(q: seq<Item>, from: nat, to: nat)
    requires OutChain(q, from, to)
    ensures forall i :: i in q ==> i.f.typ == OUTPUT
  {
    if q != [] {
      OutChainIsOutput(q[1..], q[0].End(), to);
      assert q == [q[0]] + q[1..];
    }
  }

  /** Everything flushed is Output. */
  lemma FlushIsOutput(s: State)
    requires forall i :: i in s.toRelay ==> i.f.typ == OUTPUT
    ensures forall i :: i in FlushStep(s).toRelay ==> i.f.typ == OUTPUT
  {
    if s.delivered < |s.stream| {
      assert s.stream[s.delivered..] == s.stream[s.delivered..|s.stream|];
      ChunkedOutput(s.sid, s.stream, s.delivered, |s.stream|);
      OutChainIsOutput(Tag(Chunks(OUTPUT, s.sid, s.delivered, s.stream[s.delivered..], 0), s.delivered),
                       s.delivered, |s.stream|);
    }
  }

  /** The answer's frames, which start at the asked offset if the ring still has it, and reset otherwise. */
  lemma AnswerIs(g: State, l: nat, q: seq<Item>)
    requires q == SnapshotItems(g, l)
    ensures SnapChain(q, q[0].at, |g.stream|) && q != []
    ensures if Retains(g.stream, g.cap, l) then q[0].at == l && !q[0].Resets()
            else q[0].Resets() && q[0].at <= |g.stream| && FullTail(|g.stream| - q[0].at, |g.stream|, g.cap)
  {
    var (data, delta) := ReplayDelta(g.stream, g.cap, l);
    var a := |g.stream| - |data|;
    assert data == g.stream[a..|g.stream|];
    ChunkedSnapshot(g.sid, g.stream, a, |g.stream|, if delta then 0 else FLAG_RESET);
  }

  /**
   Exactly when an answer suits a pending client, whoever asked for it. The
   agent answers the oldest request, for offset l; then, however the consoles,
   the agent and other clients go on, once the relay has routed the answer:
   the client is complete, and it misses no byte if and only if it missed none
   before and the ring no longer had l, so that the answer resets, or l is no
   further than what the client had reached. And it gets nothing twice if and
   only if l is exactly its end. After a reset its screen holds as much of the
   stream as a snapshot and the ring allow, otherwise it begins where it did.
   */
  lemma AnswerReachesPending(s: State, d: seq<Byte>, es: seq<Event>, x: Cid, l: nat)
    requires s.toAgent != [] && l == s.toAgent[0].lastSeq && forall i :: i in s.toRelay ==> i.f.typ == OUTPUT
    requires x in s.clients && s.clients[x].mounted && x in s.attached && s.attached[x] && Silent(s, x)
    requires Routes(es) == |Step(s, Replay(d)).toRelay| && forall e :: e in es ==> NotBy(e, x)
    ensures var t := Run(Step(s, Replay(d)), es);
      && x in t.clients && x in t.attached && !t.attached[x]
      && var c, c' := s.clients[x], t.clients[x]; var stream := s.stream + d;
      && c'.base == c.base && Reach(Log(c'), c'.base) >= |stream| == End(Log(c'), c'.base)
      && (NoGap(Log(c'), c'.base) <==> NoGap(Log(c), c.base) && (Retains(stream, s.cap, l) ==> l <= Reach(Log(c), c.base)))
      && (Exact(Log(c'), c'.base) <==> Exact(Log(c), c.base) && (Retains(stream, s.cap, l) ==> l == End(Log(c), c.base)))
      && var start := Start(Log(c'), c'.base);
      if Retains(stream, s.cap, l) then start == Start(Log(c), c.base)
      else start <= |stream| && FullTail(|stream| - start, |stream|, s.cap)
  {
    var f := FlushStep(s);
    var g := f.(stream := s.stream + d);
    var u := Step(s, Replay(d));
    var p, q := f.toRelay, SnapshotItems(g, l);
    FlushIsOutput(s);
    AnswerIs(g, l, q);
    assert u.toRelay == p + q && u.toRelay[..|p + q|] == p + q;
    assert Log(u.clients[x]) == Log(s.clients[x]);
    AnswerArrives(u, es, x, p, q, |g.stream|);
    SnapshotJoins(Log(s.clients[x]), q, q[0].at, |g.stream|, s.clients[x].base);
    SnapshotStarts(Log(s.clients[x]), q, q[0].at, |g.stream|, s.clients[x].base);
  }
}
