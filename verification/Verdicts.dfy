/**
 A verdict's whole way: a console decides at the relay, the decision travels
 to the agent, the store wakes a blocked hook handler, and the handler
 answers the tool. Requests, duplicates, timeouts, local closes, lost
 connections and sweeps happen in any order.
 */
module Verdicts {
  import opened Wrappers
  import opened Approvals
  import RelayInbox

  type Handler = nat

  /** A successful decideApproval, and the message it sends; its number is its place in the log. */
  datatype Decided = Decided(key: Key, decision: string)
  datatype Message = Message(key: Key, decision: string, who: string, id: nat)

  /**
   What a hook handler answered the tool with: allow or deny. id, seen and
   waited are bookkeeping: the decide message it came from, how many decisions
   the relay had taken by then, and the pending object it waited on.
   */
  datatype Answer = Answer(key: Key, decision: string, id: nat, seen: nat, waited: nat)

  datatype State = State(
    relay: RelayInbox.Relay,
    decided: seq<Decided>,
    unsent: map<nat, Message>,      // decided, not yet sent: the lock is released in between
    wire: seq<Message>,             // relay to agent
    store: Approvals.State,
    asking: map<Handler, Key>,      // after Add, before wait
    blocked: map<Handler, nat>,     // waiting on this object's channel
    answers: seq<Answer>,
    done: set<nat>,                 // bookkeeping: messages the agent has received
    left: seq<Status>)              // bookkeeping: the status each decision left at the relay

  datatype Event =
    | Relay(r: RelayInbox.Event)
    | Send(id: nat, up: bool)                          // on its connection, or on one already gone
    | Lose                                             // the connection and all it carried
    | Deliver(now: int)
    | Request(h: Handler, a: Approval, now: int)
    | Wait(h: Handler)
    | Wake(h: Handler)
    | GiveUp(h: Handler, now: int)                     // timeout, or the tool hung up
    | Local(e: Approvals.Event)

  const AGENT: RelayInbox.Dev := "agent"

  function Initial(relay: RelayInbox.Relay): State {
    State.State(relay, [], map[], [], EMPTY, map[], map[], [], {}, [])
  }

  /** Closes and sweeps; decisions reach the store only through the wire. */
  predicate IsLocal(e: Approvals.Event) {
    e.EAdd? || e.EClose? || e.ECloseSession? || e.ESweep?
  }

  function RelayStep(s: State, e: RelayInbox.Event): State {
    var (relay, o) := RelayInbox.Act(s.relay, e);
    if o.Forward? && (e.EDecide? || e.EDecideLoaded?) then
      s.(relay := relay, decided := s.decided + [Decided(e.key, e.decision)],
         left := s.left + [if e.key in relay.cache then relay.cache[e.key].status else Pending],
         unsent := if o.dev == AGENT then s.unsent[|s.decided| := Message(e.key, e.decision, e.who, |s.decided|)]
                   else s.unsent)
    else s.(relay := relay)
  }

  function SendStep(s: State, id: nat, up: bool): State
    requires id in s.unsent
  {
    s.(unsent := s.unsent - {id}, wire := if up then s.wire + [s.unsent[id]] else s.wire)
  }

  function DeliverStep(s: State, now: int): State
    requires s.wire != []
  {
    var m := s.wire[0];
    s.(wire := s.wire[1..], done := s.done + {m.id},
       store := Decide(s.store, m.key, m.decision, m.who, Some(m.id), now))
  }

  /** The channel the handler waits on has a value. */
  predicate Ready(s: State, h: Handler) {
    && h in s.blocked && s.blocked[h] < |s.store.objects|
    && s.store.objects[s.blocked[h]].ch.Some? && s.store.objects[s.blocked[h]].ch.value != []
  }

  function WakeStep(s: State, h: Handler): State
    requires Ready(s, h)
  {
    var i := s.blocked[h];
    var o := s.store.objects[i];
    var d := o.ch.value[0];
    s.(blocked := s.blocked - {h}, store := Receive(s.store, i),
       answers := s.answers +
         if d.decision == "allow" || d.decision == "deny"
         then [Answer(o.a.key, d.decision, if d.msg.Some? then d.msg.value else 0, |s.decided|, i)] else [])
  }

  function Step(s: State, e: Event): State {
    match e
    case Relay(r) => RelayStep(s, r)
    case Send(id, up) => if id in s.unsent then SendStep(s, id, up) else s
    case Lose => s.(wire := [])
    case Deliver(now) => if s.wire != [] then DeliverStep(s, now) else s
    case Request(h, a, now) =>
      var t := s.(store := Add(s.store, a, now));
      if a.level == Hook then t.(asking := s.asking[h := a.key]) else t
    case Wait(h) =>
      if h !in s.asking then s
      else
        var k := s.asking[h];
        var t := s.(asking := s.asking - {h});
        if k in s.store.items && s.store.items[k] < |s.store.objects| && s.store.objects[s.store.items[k]].ch.Some?
        then t.(blocked := s.blocked[h := s.store.items[k]]) else t
    case Wake(h) => if Ready(s, h) then WakeStep(s, h) else s
    case GiveUp(h, now) =>
      if h in s.blocked && s.blocked[h] < |s.store.objects|
      then s.(blocked := s.blocked - {h},
              store := Close(s.store, s.store.objects[s.blocked[h]].a.key, Fallback, "timeout", now))
      else s
    case Local(e) => if IsLocal(e) then s.(store := Approvals.Step(s.store, e)) else s
  }

  function Run(s: State, es: seq<Event>): State
    decreases |es|
  {
    if es == [] then s else Run(Step(s, es[0]), es[1..])
  }

  // ---- where every decision is ----------------------------------------------------------

  ghost predicate Sound(m: Message, s: State) {
    m.id < |s.decided| && m.id !in s.done && s.decided[m.id] == Decided(m.key, m.decision)
  }

  /** Every decision is sent at most once, so it is in one place on its way. */
  ghost predicate WireOk(s: State) {
    && (forall id :: id in s.done ==> id < |s.decided|)
    && (forall id :: id in s.unsent ==> s.unsent[id].id == id && Sound(s.unsent[id], s))
    && (forall i :: 0 <= i < |s.wire| ==> Sound(s.wire[i], s) && s.wire[i].id !in s.unsent)
    && (forall i, j :: 0 <= i < j < |s.wire| ==> s.wire[i].id != s.wire[j].id)
  }

  /** The message whose decision is waiting in an object's channel. */
  function Parked(o: Object): Option<nat> {
    if o.ch.Some? && o.ch.value != [] then o.ch.value[0].msg else None
  }

  /** A value in a channel is no decision, or came with a decide message for that key. */
  ghost predicate ParkedOk(o: Object, decided: seq<Decided>, done: set<nat>) {
    o.ch.Some? && o.ch.value != [] ==>
      var d := o.ch.value[0];
      d == NO_DECISION ||
        (d.msg.Some? && d.msg.value in done && d.msg.value < |decided| &&
         decided[d.msg.value] == Decided(o.a.key, d.decision))
  }

  ghost predicate ParkedOnce(s: State) {
    && (forall i :: 0 <= i < |s.store.objects| ==> ParkedOk(s.store.objects[i], s.decided, s.done))
    && (forall i, j :: 0 <= i < j < |s.store.objects| && Parked(s.store.objects[i]).Some? ==>
      Parked(s.store.objects[i]) != Parked(s.store.objects[j]))
  }

  ghost predicate AnswerOk(a: Answer, decided: seq<Decided>, done: set<nat>, objects: seq<Object>) {
    && a.id < a.seen <= |decided| && a.id in done
    && decided[a.id] == Decided(a.key, a.decision)
    && a.waited < |objects|
    && objects[a.waited].a.key == a.key
    && objects[a.waited].a.status == Verdict(a.decision)
  }

  ghost predicate AnswersOnce(s: State) {
    && (forall i :: 0 <= i < |s.answers| ==> AnswerOk(s.answers[i], s.decided, s.done, s.store.objects))
    && (forall i, j :: 0 <= i < j < |s.answers| ==> s.answers[i].id != s.answers[j].id)
    && (forall i, j :: 0 <= i < |s.answers| && 0 <= j < |s.store.objects| ==>
      Parked(s.store.objects[j]) != Some(s.answers[i].id))
  }

  ghost predicate Inv(s: State) {
    Approvals.Inv(s.store) && WireOk(s) && ParkedOnce(s) && AnswersOnce(s)
  }

  // ---- steps of the store that carry no decision ------------------------------------------

  /** What a store step that brings no decision may do. */
  ghost predicate Quiet(a: Approvals.State, b: Approvals.State) {
    && |a.objects| <= |b.objects|
    && (forall i :: 0 <= i < |a.objects| ==>
      && b.objects[i].a.key == a.objects[i].a.key
      && (a.objects[i].a.status != Pending ==> b.objects[i].a == a.objects[i].a))
    && (forall i :: 0 <= i < |b.objects| ==>
      || (i < |a.objects| && b.objects[i].ch == a.objects[i].ch)
      || Empty(b.objects[i])
      || b.objects[i].ch == Some([NO_DECISION]))
  }

  predicate Empty(o: Object) {
    o.ch.None? || o.ch.value == []
  }

  lemma LocalQuiet(s: Approvals.State, e: Approvals.Event)
    requires Approvals.Inv(s) && IsLocal(e)
    ensures Quiet(s, Approvals.Step(s, e))
  {
    assert [] + [NO_DECISION] == [NO_DECISION];
  }

  lemma QuietKeeps(s: State, store: Approvals.State)
    requires Inv(s) && Approvals.Inv(store) && Quiet(s.store, store)
    ensures Inv(s.(store := store))
  {
    var t := s.(store := store);
    forall i | 0 <= i < |store.objects|
      ensures ParkedOk(store.objects[i], s.decided, s.done)
      ensures Parked(store.objects[i]).Some? ==>
        i < |s.store.objects| && Parked(store.objects[i]) == Parked(s.store.objects[i])
    {
    }
    assert ParkedOnce(t);
    assert AnswersOnce(t);
  }

  // ---- one step ---------------------------------------------------------------------------

  lemma RelayKeeps(s: State, e: RelayInbox.Event)
    requires Inv(s)
    ensures Inv(RelayStep(s, e))
  {
    var t := RelayStep(s, e);
    if t.decided == s.decided {
      assert t == s.(relay := t.relay);
    } else {
      var d := Decided(e.key, e.decision);
      var u := s.(relay := t.relay, decided := s.decided + [d], left := t.left);
      Logged(s, u, d);
      Queued(u, t, Message(e.key, e.decision, e.who, |s.decided|));
    }
  }

  lemma Queued(s: State, t: State, m: Message)
    requires Inv(s) && Sound(m, s) && m.id !in s.unsent
    requires forall i :: 0 <= i < |s.wire| ==> s.wire[i].id != m.id
    requires t == s || t == s.(unsent := s.unsent[m.id := m])
    ensures Inv(t)
  {
    assert WireOk(t);
  }

  lemma Logged(s: State, t: State, d: Decided)
    requires Inv(s) && t == s.(relay := t.relay, decided := s.decided + [d], left := t.left)
    ensures Inv(t) && |s.decided| !in s.done && |s.decided| !in s.unsent
    ensures forall i :: 0 <= i < |s.wire| ==> s.wire[i].id != |s.decided|
  {
    assert forall i :: 0 <= i < |s.decided| ==> t.decided[i] == s.decided[i];
    forall i | 0 <= i < |s.store.objects| ensures ParkedOk(s.store.objects[i], t.decided, t.done) {
      assert ParkedOk(s.store.objects[i], s.decided, s.done);
    }
    forall i | 0 <= i < |s.answers| ensures AnswerOk(s.answers[i], t.decided, t.done, t.store.objects) {
      assert AnswerOk(s.answers[i], s.decided, s.done, s.store.objects);
    }
    assert ParkedOnce(t) && AnswersOnce(t) && WireOk(t);
  }

  lemma SendKeeps(s: State, id: nat, up: bool)
    requires Inv(s) && id in s.unsent
    ensures Inv(SendStep(s, id, up))
  {
    assert WireOk(SendStep(s, id, up));
  }

  /** The object that takes a decision goes from an empty channel to one holding it. */
  lemma DecideEffect(s: Approvals.State, m: Message, now: int, t: Approvals.State)
    requires Approvals.Inv(s) && t == Decide(s, m.key, m.decision, m.who, Some(m.id), now)
    ensures Filled(s, t, m, if IsPending(s, m.key) then s.items[m.key] else |s.objects|)
  {
    if IsPending(s, m.key) {
      assert ObjectOk(s.objects[s.items[m.key]]);
      assert [] + [Decision(m.decision, m.who, Some(m.id))] == [Decision(m.decision, m.who, Some(m.id))];
    }
  }

  /** Only object n changed, if there is one: it was pending, and now it may hold m's decision. */
  ghost predicate Filled(s: Approvals.State, t: Approvals.State, m: Message, n: nat) {
    && |t.objects| == |s.objects|
    && (forall i :: 0 <= i < |s.objects| && i != n ==> t.objects[i] == s.objects[i])
    && (n < |s.objects| ==>
      && s.objects[n].a.status == Pending && t.objects[n].a.key == s.objects[n].a.key == m.key
      && (Empty(t.objects[n]) || t.objects[n].ch == Some([Decision(m.decision, m.who, Some(m.id))])))
  }

  lemma DeliverKeeps(s: State, now: int)
    requires Inv(s) && s.wire != []
    ensures Inv(DeliverStep(s, now))
  {
    var m := s.wire[0];
    var t := DeliverStep(s, now);
    assert Sound(m, s);
    Approvals.StepKeeps(s.store, EDecide(m.key, m.decision, m.who, Some(m.id), now));
    DecideEffect(s.store, m, now, t.store);
    Taken(s, t, m, if IsPending(s.store, m.key) then s.store.items[m.key] else |s.store.objects|);
    OffTheWire(s, t);
  }

  lemma OffTheWire(s: State, t: State)
    requires WireOk(s) && s.wire != []
    requires t.decided == s.decided && t.unsent == s.unsent && t.wire == s.wire[1..] && t.done == s.done + {s.wire[0].id}
    ensures WireOk(t)
  {
    assert Sound(s.wire[0], s);
    forall i | 0 <= i < |t.wire| ensures Sound(t.wire[i], t) && t.wire[i].id !in t.unsent {
      assert t.wire[i] == s.wire[i + 1];
    }
  }

  /** Message m is done with; object n, if there is one, now holds its decision. */
  lemma Taken(s: State, t: State, m: Message, n: nat)
    requires Inv(s) && Sound(m, s)
    requires t.decided == s.decided && t.done == s.done + {m.id} && t.answers == s.answers
    requires Filled(s.store, t.store, m, n)
    ensures ParkedOnce(t) && AnswersOnce(t)
  {
    forall i | 0 <= i < |s.store.objects|
      ensures ParkedOk(t.store.objects[i], t.decided, t.done)
      ensures i != n && Parked(t.store.objects[i]).Some? ==> Parked(t.store.objects[i]).value != m.id
    {
      assert ParkedOk(s.store.objects[i], s.decided, s.done);
    }
    forall i | 0 <= i < |s.answers|
      ensures AnswerOk(t.answers[i], t.decided, t.done, t.store.objects) && t.answers[i].id != m.id
    {
      assert AnswerOk(s.answers[i], s.decided, s.done, s.store.objects);
    }
  }

  lemma WakeKeeps(s: State, h: Handler)
    requires Inv(s) && Ready(s, h)
    ensures Inv(WakeStep(s, h))
  {
    var i := s.blocked[h];
    var o := s.store.objects[i];
    var t := WakeStep(s, h);
    Approvals.StepKeeps(s.store, EReceive(i));
    assert ObjectOk(o) && ParkedOk(o, s.decided, s.done);
    assert Quiet(s.store, t.store);
    QuietKeeps(s, t.store);
    var d := o.ch.value[0];
    if d.decision == "allow" || d.decision == "deny" {
      assert Parked(o) == d.msg && Parked(t.store.objects[i]) == None;
      Answered(s.(store := t.store), t, t.answers[|s.answers|]);
    }
  }

  lemma Answered(s: State, t: State, a: Answer)
    requires Inv(s) && AnswerOk(a, s.decided, s.done, s.store.objects)
    requires t == s.(blocked := t.blocked, answers := s.answers + [a])
    requires forall i :: 0 <= i < |s.store.objects| ==> Parked(s.store.objects[i]) != Some(a.id)
    requires forall i :: 0 <= i < |s.answers| ==> s.answers[i].id != a.id
    ensures Inv(t)
  {
    assert WireOk(t) && ParkedOnce(t);
    assert forall i :: 0 <= i < |s.answers| ==> t.answers[i] == s.answers[i];
  }

  lemma StepKeeps(s: State, e: Event)
    requires Inv(s)
    ensures Inv(Step(s, e))
  {
    match e
    case Relay(r) => RelayKeeps(s, r);
    case Send(id, up) => if id in s.unsent { SendKeeps(s, id, up); }
    case Lose =>
    case Deliver(now) => if s.wire != [] { DeliverKeeps(s, now); }
    case Request(h, a, now) => RequestKeeps(s, h, a, now);
    case Wait(h) => AskingIsFree(s, Step(s, e));
    case Wake(h) => if Ready(s, h) { WakeKeeps(s, h); }
    case GiveUp(h, now) => GiveUpKeeps(s, h, now);
    case Local(l) => if IsLocal(l) { QuietStep(s, l); }
  }

  lemma RequestKeeps(s: State, h: Handler, a: Approval, now: int)
    requires Inv(s)
    ensures Inv(Step(s, Request(h, a, now)))
  {
    QuietStep(s, EAdd(a, now));
    AskingIsFree(s.(store := Add(s.store, a, now)), Step(s, Request(h, a, now)));
  }

  /** Who is asking or blocked does not matter to the invariant. */
  lemma AskingIsFree(s: State, t: State)
    requires Inv(s) && t == s.(asking := t.asking, blocked := t.blocked)
    ensures Inv(t)
  {
  }

  lemma GiveUpKeeps(s: State, h: Handler, now: int)
    requires Inv(s)
    ensures Inv(Step(s, GiveUp(h, now)))
  {
    if h in s.blocked && s.blocked[h] < |s.store.objects| {
      var e := EClose(s.store.objects[s.blocked[h]].a.key, true, "timeout", now);
      QuietStep(s, e);
      AskingIsFree(s.(store := Approvals.Step(s.store, e)), Step(s, GiveUp(h, now)));
    }
  }

  lemma QuietStep(s: State, e: Approvals.Event)
    requires Inv(s) && IsLocal(e)
    ensures Inv(s.(store := Approvals.Step(s.store, e)))
  {
    LocalQuiet(s.store, e);
    Approvals.StepKeeps(s.store, e);
    QuietKeeps(s, Approvals.Step(s.store, e));
  }

  lemma {:induction false} RunKeeps(s: State, es: seq<Event>)
    requires Inv(s)
    ensures Inv(Run(s, es))
    decreases |es|
  {
    if es != [] {
      StepKeeps(s, es[0]);
      RunKeeps(Step(s, es[0]), es[1..]);
    }
  }

  // ---- verdicts and decisions ---------------------------------------------------------------

  /** The status that goes with a word. */
  ghost predicate LeftOk(s: State) {
    |s.left| == |s.decided| &&
    forall i :: 0 <= i < |s.left| ==> s.left[i] == match s.decided[i].decision case "allow" => Allowed case _ => Denied
  }

  lemma {:induction false} RunLeft(s: State, es: seq<Event>)
    requires LeftOk(s)
    ensures LeftOk(Run(s, es))
    decreases |es|
  {
    if es != [] {
      var t := Step(s, es[0]);
      if es[0].Relay? && (es[0].r.EDecide? || es[0].r.EDecideLoaded?) && t.decided != s.decided {
        RelayInbox.DecisionRecorded(s.relay, es[0].r, es[0].r.key);
      }
      RunLeft(t, es[1..]);
    }
  }

  /**
   Every verdict a tool is given comes from a successful decision the relay
   took before, for the same key and with the same word; no two verdicts share
   one; the decision left the relay's item in the status of that word; and the
   object the handler waited on ends in it, too.
   */
  lemma VerdictsHaveCauses(relay: RelayInbox.Relay, es: seq<Event>)
    ensures var s := Run(Initial(relay), es);
      && (forall i :: 0 <= i < |s.answers| ==>
        var a := s.answers[i];
        && a.id < a.seen <= |s.decided| && s.decided[a.id] == Decided(a.key, a.decision)
        && a.id < |s.left| && s.left[a.id] == (match a.decision case "allow" => Allowed case _ => Denied)
        && a.waited < |s.store.objects| && s.store.objects[a.waited].a.status == s.left[a.id])
      && (forall i, j :: 0 <= i < j < |s.answers| ==> s.answers[i].id != s.answers[j].id)
  {
    RunKeeps(Initial(relay), es);
    RunLeft(Initial(relay), es);
    var s := Run(Initial(relay), es);
    forall i | 0 <= i < |s.answers| ensures AnswerOk(s.answers[i], s.decided, s.done, s.store.objects) {
    }
  }

  function Given(answers: seq<Answer>, key: Key, decision: string): nat {
    if answers == [] then 0
    else
      var a := answers[|answers| - 1];
      Given(answers[..|answers| - 1], key, decision) + if a.key == key && a.decision == decision then 1 else 0
  }

  /** The decisions on this key with this word that succeeded along a run of the relay. */
  function Successes(s: RelayInbox.Relay, es: seq<Event>, key: Key, decision: string): nat
    decreases |es|
  {
    if es == [] then 0
    else if es[0].Relay? then
      Successes(RelayInbox.Act(s, es[0].r).0, es[1..], key, decision) +
        if RelayInbox.Forwards(s, es[0].r, key) && es[0].r.decision == decision then 1 else 0
    else Successes(s, es[1..], key, decision)
  }

  function Ids(answers: seq<Answer>, key: Key, decision: string): set<nat> {
    if answers == [] then {}
    else
      var a := answers[|answers| - 1];
      Ids(answers[..|answers| - 1], key, decision) + if a.key == key && a.decision == decision then {a.id} else {}
  }

  function Places(log: seq<Decided>, d: Decided): set<nat> {
    set i: nat | i < |log| && log[i] == d
  }

  lemma {:induction false} LogIsSuccesses(s: State, es: seq<Event>, key: Key, decision: string)
    ensures |Places(Run(s, es).decided, Decided(key, decision))| ==
      |Places(s.decided, Decided(key, decision))| + Successes(s.relay, es, key, decision)
    decreases |es|
  {
    if es != [] {
      var t := Step(s, es[0]);
      LogIsSuccesses(t, es[1..], key, decision);
      LogStep(s, es[0], key, decision);
    }
  }

  lemma LogStep(s: State, e: Event, key: Key, decision: string)
    ensures var before, after := Places(s.decided, Decided(key, decision)), Places(Step(s, e).decided, Decided(key, decision));
      after == if e.Relay? && RelayInbox.Forwards(s.relay, e.r, key) && e.r.decision == decision
               then before + {|s.decided|} else before
    ensures Step(s, e).relay == if e.Relay? then RelayInbox.Act(s.relay, e.r).0 else s.relay
  {
  }

  lemma {:induction false} IdsAreAnswers(answers: seq<Answer>, key: Key, decision: string)
    ensures forall id :: id in Ids(answers, key, decision) ==>
      exists i :: 0 <= i < |answers| && answers[i].id == id && answers[i].key == key && answers[i].decision == decision
  {
    if answers != [] {
      var less := answers[..|answers| - 1];
      IdsAreAnswers(less, key, decision);
      assert forall i :: 0 <= i < |less| ==> less[i] == answers[i];
    }
  }

  lemma {:induction false} GivenIsIds(answers: seq<Answer>, key: Key, decision: string)
    requires forall i, j :: 0 <= i < j < |answers| ==> answers[i].id != answers[j].id
    ensures Given(answers, key, decision) == |Ids(answers, key, decision)|
  {
    if answers != [] {
      var less := answers[..|answers| - 1];
      GivenIsIds(less, key, decision);
      IdsAreAnswers(less, key, decision);
    }
  }

  lemma Subset<T>(a: set<T>, b: set<T>)
    requires a <= b
    ensures |a| <= |b|
  {
    assert b == a + (b - a);
  }

  /** In every run: no more allows (or denies) reach tools than consoles successfully gave, key by key. */
  lemma NoVerdictFromNowhere(relay: RelayInbox.Relay, es: seq<Event>, key: Key, decision: string)
    ensures Given(Run(Initial(relay), es).answers, key, decision) <= Successes(relay, es, key, decision)
  {
    var s := Run(Initial(relay), es);
    RunKeeps(Initial(relay), es);
    var ids := Ids(s.answers, key, decision);
    IdsAreAnswers(s.answers, key, decision);
    GivenIsIds(s.answers, key, decision);
    forall id | id in ids ensures id in Places(s.decided, Decided(key, decision)) {
      var i :| 0 <= i < |s.answers| && s.answers[i].id == id && s.answers[i].key == key && s.answers[i].decision == decision;
      assert AnswerOk(s.answers[i], s.decided, s.done, s.store.objects);
    }
    LogIsSuccesses(Initial(relay), es, key, decision);
    Subset(ids, Places(s.decided, Decided(key, decision)));
  }

  function RelayEvents(es: seq<Event>): seq<RelayInbox.Event> {
    if es == [] then [] else (if es[0].Relay? then [es[0].r] else []) + RelayEvents(es[1..])
  }

  lemma {:induction false} SuccessesAreForwards(s: RelayInbox.Relay, es: seq<Event>, key: Key)
    ensures Successes(s, es, key, "allow") + Successes(s, es, key, "deny") ==
      RelayInbox.Forwarded(s, RelayEvents(es), key)
    decreases |es|
  {
    if es != [] {
      if es[0].Relay? {
        assert RelayEvents(es)[1..] == RelayEvents(es[1..]);
        SuccessesAreForwards(RelayInbox.Act(s, es[0].r).0, es[1..], key);
      } else {
        assert RelayEvents(es) == RelayEvents(es[1..]);
        SuccessesAreForwards(s, es[1..], key);
      }
    }
  }

  /** From an empty cache: at most one verdict, of either word, for every time a key was made pending. */
  lemma OneVerdictPerAnnouncement(online: set<RelayInbox.Dev>, es: seq<Event>, key: Key)
    ensures var s := Run(Initial(RelayInbox.Relay(map[], online)), es);
      Given(s.answers, key, "allow") + Given(s.answers, key, "deny") <= RelayInbox.MadePending(RelayEvents(es), key)
  {
    var relay := RelayInbox.Relay(map[], online);
    NoVerdictFromNowhere(relay, es, key, "allow");
    NoVerdictFromNowhere(relay, es, key, "deny");
    SuccessesAreForwards(relay, es, key);
    RelayInbox.SettlesOnce(relay, RelayEvents(es), key);
  }

  // ---- and it does arrive ---------------------------------------------------------------------

  /** The handler waits on the key's current object, which is still pending. */
  predicate WaitsFor(s: State, h: Handler, k: Key) {
    && IsPending(s.store, k) && s.store.objects[s.store.items[k]].a.level == Hook
    && h in s.blocked && s.blocked[h] == s.store.items[k]
  }

  /** A permission request for a hook leaves its handler waiting, unless an item of another level is pending for the key. */
  lemma RequestWaits(s: State, h: Handler, a: Approval, now: int)
    requires Inv(s) && a.level == Hook
    requires Duplicate(s.store, a.key, now) ==> s.store.objects[s.store.items[a.key]].a.level == Hook
    ensures WaitsFor(Step(Step(s, Request(h, a, now)), Wait(h)), h, a.key)
  {
    if Duplicate(s.store, a.key, now) {
      assert ObjectOk(s.store.objects[s.store.items[a.key]]);
    }
  }

  /** The decision reaches the store, while nothing else is on the wire. */
  lemma DecisionReachesStore(s: State, e: RelayInbox.Event, h: Handler, now: int)
    requires (e.EDecide? || e.EDecideLoaded?) && RelayInbox.Forwards(s.relay, e, e.key)
    requires RelayInbox.Act(s.relay, e).1.dev == AGENT
    requires Inv(s) && s.wire == [] && WaitsFor(s, h, e.key)
    ensures var t := Step(Step(Step(s, Relay(e)), Send(|s.decided|, true)), Deliver(now)); var i := s.blocked[h];
      && t.answers == s.answers && t.blocked == s.blocked && i < |t.store.objects|
      && t.store.objects[i].a.key == e.key && t.store.objects[i].a.decidedBy == e.who
      && t.store.objects[i].ch == Some([Decision(e.decision, e.who, Some(|s.decided|))])
  {
    var u := Step(Step(s, Relay(e)), Send(|s.decided|, true));
    assert u.wire == [Message(e.key, e.decision, e.who, |s.decided|)];
    assert u.store == s.store && u.blocked == s.blocked;
    assert ObjectOk(s.store.objects[s.blocked[h]]);
    assert [] + [Decision(e.decision, e.who, Some(|s.decided|))] == [Decision(e.decision, e.who, Some(|s.decided|))];
  }

  /**
   A decision that a console takes while a handler waits for it, and that
   nothing overtakes, is what the handler answers its tool, word for word.
   */
  lemma VerdictGetsThrough(s: State, e: RelayInbox.Event, h: Handler, now: int)
    requires (e.EDecide? || e.EDecideLoaded?) && RelayInbox.Forwards(s.relay, e, e.key)
    requires RelayInbox.Act(s.relay, e).1.dev == AGENT
    requires Inv(s) && s.wire == [] && WaitsFor(s, h, e.key)
    ensures var t := Step(Step(Step(Step(s, Relay(e)), Send(|s.decided|, true)), Deliver(now)), Wake(h));
      && |t.answers| == |s.answers| + 1 && t.answers[..|s.answers|] == s.answers
      && t.answers[|s.answers|].key == e.key && t.answers[|s.answers|].decision == e.decision && h !in t.blocked
  {
    DecisionReachesStore(s, e, h, now);
  }

  /** A handler that gives up leaves its pending approval to the local dialog, and answers nothing. */
  lemma GivingUpFallsBack(s: State, h: Handler, k: Key, now: int)
    requires Inv(s) && WaitsFor(s, h, k)
    ensures var t := Step(s, GiveUp(h, now)); var i := s.blocked[h];
      && t.answers == s.answers && h !in t.blocked
      && t.store.objects[i].a.status == Fallback && t.store.objects[i].a.decidedBy == "timeout"
  {
  }
}
