/**
 That the output does arrive: from every state that careful consoles can bring
 about, letting everything on its way come through, and writing nothing more,
 brings every attached terminal to the end of the stream.
 */
module Arrival {
  import opened Bytes
  import opened RingBuffer
  import opened Sessions
  import opened Frames
  import opened Pieces
  import opened Delivery

  /** Something that is on its way comes one step further; nothing new begins. */
  predicate Progress(e: Event) {
    e == RelayControl || e == Replay([]) || e == Flush || e == Route || e.Apply?
  }

  ghost predicate Watching(s: State, x: Cid) {
    x in s.clients && s.clients[x].mounted && x in s.attached
  }

  /** Terminal x misses nothing up to the stream's end, and shows each byte once if its attaches were quiet. */
  ghost predicate UpToDate(s: State, x: Cid) {
    && x in s.clients
    && var c := s.clients[x];
    && c.mounted && NoGap(c.shown, c.base) && Reach(c.shown, c.base) >= |s.stream|
    && (c.clean ==>
      && Start(c.shown, c.base) <= |s.stream| && Screen(c.shown) == s.stream[Start(c.shown, c.base)..]
      && (!MidSnapshot(c) ==> c.lastSeq == |s.stream|))
  }

  /** After these events the terminal is up to date, with the stream and the terminal as they were. */
  ghost predicate Finishes(s: State, es: seq<Event>, x: Cid) {
    && (forall e :: e in es ==> Progress(e))
    && var t := Run(s, es);
    && x in s.clients && t.stream == s.stream && UpToDate(t, x)
    && t.clients[x].base == s.clients[x].base && t.clients[x].clean == s.clients[x].clean
  }

  /** A step of progress keeps the terminal watching, and the stream. */
  ghost predicate SameTerminal(s: State, t: State, x: Cid)
    requires x in s.clients
  {
    && Watching(t, x) && t.stream == s.stream
    && t.clients[x].base == s.clients[x].base && t.clients[x].clean == s.clients[x].clean
  }

  /** Everything that is still to happen before x has all of the stream. */
  predicate AllDone(s: State, x: Cid) {
    s.sent == [] && s.toAgent == [] && s.delivered >= |s.stream| && s.toRelay == [] && (x in s.clients ==> s.clients[x].queue == [])
  }

  /** What is on its way came closer, each thing after those it may cause. */
  predicate Closer(s: State, t: State, x: Cid) {
    && x in s.clients && x in t.clients
    && (|| |t.sent| < |s.sent|
        || (t.sent == s.sent &&
            (|| |t.toAgent| < |s.toAgent|
             || (t.toAgent == s.toAgent &&
                 (|| |t.stream| - t.delivered < |s.stream| - s.delivered
                  || (t.stream == s.stream && t.delivered == s.delivered &&
                      (|| |t.toRelay| < |s.toRelay|
                       || (t.toRelay == s.toRelay && |t.clients[x].queue| < |s.clients[x].queue|))))))))
  }

  ghost predicate Good(s: State) {
    exists ph :: Inv(s, ph)
  }

  /** t is one step of progress from s. */
  ghost predicate Advances(s: State, t: State, x: Cid) {
    && x in s.clients && SameTerminal(s, t, x) && s.delivered <= |s.stream| && Good(t) && Closer(s, t, x)
    && exists e :: Progress(e) && t == Step(s, e)
  }

  lemma ControlAdvances(s: State, x: Cid)
    requires Watching(s, x) && s.sent != [] && s.sent[0] != Leave(x)
    ensures SameTerminal(s, Step(s, RelayControl), x) && Closer(s, Step(s, RelayControl), x)
  {
  }

  lemma ReplayAdvances(s: State, x: Cid)
    requires Watching(s, x) && s.toAgent != []
    ensures SameTerminal(s, Step(s, Replay([])), x) && Closer(s, Step(s, Replay([])), x)
  {
    assert s.stream + [] == s.stream;
  }

  lemma FlushAdvances(s: State, x: Cid)
    requires Watching(s, x) && s.delivered < |s.stream|
    ensures SameTerminal(s, Step(s, Flush), x) && Closer(s, Step(s, Flush), x)
  {
  }

  lemma RouteAdvances(s: State, x: Cid)
    requires Watching(s, x) && s.toRelay != []
    ensures SameTerminal(s, Step(s, Route), x) && Closer(s, Step(s, Route), x)
  {
  }

  lemma ApplyAdvances(s: State, x: Cid)
    requires Watching(s, x) && s.clients[x].queue != []
    ensures SameTerminal(s, Step(s, Apply(x)), x) && Closer(s, Step(s, Apply(x)), x)
  {
  }

  lemma StaysGood(s: State, ph: Phase, e: Event)
    requires Inv(s, ph) && Progress(e)
    ensures Good(Step(s, e))
  {
    StepKeeps(s, ph, e);
  }

  /** While anything is on its way, some step of progress can be made. */
  lemma SomethingAdvances(s: State, ph: Phase, x: Cid)
    requires Inv(s, ph) && Watching(s, x) && !AllDone(s, x)
    ensures exists t :: Advances(s, t, x)
  {
    var e;
    if s.sent != [] {
      e := RelayControl;
      assert s.sent[0] in s.sent;
      ControlAdvances(s, x);
    } else if s.toAgent != [] {
      e := Replay([]);
      ReplayAdvances(s, x);
    } else if s.delivered < |s.stream| {
      e := Flush;
      FlushAdvances(s, x);
    } else if s.toRelay != [] {
      e := Route;
      RouteAdvances(s, x);
    } else {
      e := Apply(x);
      ApplyAdvances(s, x);
    }
    StaysGood(s, ph, e);
    assert Advances(s, Step(s, e), x);
  }

  /** With nothing left on its way, a watching terminal is up to date. */
  lemma NothingLeft(s: State, ph: Phase)
    requires Inv(s, ph)
    ensures forall x :: Watching(s, x) && AllDone(s, x) ==> UpToDate(s, x)
  {
    forall x | Watching(s, x) && AllDone(s, x)
      ensures UpToDate(s, x)
    {
      NothingOutstanding(s, ph);
      var c := s.clients[x];
      assert LogOk(c, s.stream) && CaughtUp(c, s.relayed) && Log(c) == c.shown;
      OutputInFlight(s, ph);
      assert s.relayed == |s.stream| by {
        assert OutChain(s.toRelay, s.relayed, s.delivered);
      }
      if c.clean {
        WholeWay(s, ph, x, c);
        assert Screen(c.shown) + [] == Screen(c.shown);
      }
    }
  }

  lemma Later(s: State, t: State, es: seq<Event>, x: Cid)
    requires Advances(s, t, x) && Finishes(t, es, x)
    ensures exists more :: Finishes(s, more, x)
  {
    var e :| Progress(e) && t == Step(s, e);
    assert ([e] + es)[1..] == es;
    assert Run(s, [e] + es) == Run(t, es);
    assert Finishes(s, [e] + es, x);
  }

  lemma {:induction false} Finishing(s: State, x: Cid)
    requires Good(s) && Watching(s, x)
    ensures exists es :: Finishes(s, es, x)
    decreases |s.sent|, |s.toAgent|, |s.stream| - s.delivered, |s.toRelay|, |s.clients[x].queue|
  {
    var ph :| Inv(s, ph);
    if AllDone(s, x) {
      NothingLeft(s, ph);
      assert Finishes(s, [], x);
    } else {
      SomethingAdvances(s, ph, x);
      var t :| Advances(s, t, x);
      Finishing(t, x);
      var es :| Finishes(t, es, x);
      Later(s, t, es, x);
    }
  }

  /** So it is in every run of careful consoles. */
  lemma EverythingArrives(scrollback: seq<Byte>, cap: nat, sid: nat, es: seq<Event>, x: Cid)
    requires CarefulRun(Initial(scrollback, cap, sid), es) && Watching(Run(Initial(scrollback, cap, sid), es), x)
    ensures exists more :: Finishes(Run(Initial(scrollback, cap, sid), es), more, x)
  {
    RunKeeps(Initial(scrollback, cap, sid), Idle, es);
    var s := Run(Initial(scrollback, cap, sid), es);
    assert Good(s);
    Finishing(s, x);
  }
}
