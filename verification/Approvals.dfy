/**
 The agent's pending approvals. A pending object is created by Add and lives
 on after its key is re-added, because a blocked hook handler still holds its
 channel; so the store is the list of all objects ever created, oldest first,
 and a map from keys to the current one.
 */
module Approvals {
  import opened Wrappers

  type Key = string
  type Sid = nat

  datatype Level = Hook | Keys | Suspect // A, B, C
  datatype Status = Pending | Allowed | Denied | ClosedLocal | Fallback

  datatype Approval = Approval(key: Key, sid: Sid, level: Level, createdAt: int,
                               status: Status, decidedBy: string, decidedAt: Option<int>)

  /** What a hook handler receives; msg is bookkeeping: which decide message it came from. */
  datatype Decision = Decision(decision: string, who: string, msg: Option<nat>)

  const NO_DECISION := Decision("", "", None)

  /**
   One pending object. ch is its channel of capacity one; sent is
   bookkeeping: every value ever put into it.
   */
  datatype Object = Object(a: Approval, ch: Option<seq<Decision>>, sent: seq<Decision>)

  datatype State = State(objects: seq<Object>, items: map<Key, nat>)

  const EMPTY := State([], map[])
  const DEDUPE := 60

  predicate WellFormed(s: State) {
    forall k :: k in s.items ==> s.items[k] < |s.objects| && s.objects[s.items[k]].a.key == k
  }

  /** The key's current object is still pending. */
  predicate IsPending(s: State, k: Key) {
    k in s.items && s.items[k] < |s.objects| && s.objects[s.items[k]].a.status == Pending
  }

  /** Whether Add finds an item to return instead of storing a new one. */
  predicate Duplicate(s: State, k: Key, now: int) {
    IsPending(s, k) && now - s.objects[s.items[k]].a.createdAt < DEDUPE
  }

  function Add(s: State, a: Approval, now: int): State {
    if Duplicate(s, a.key, now) then s
    else
      var o := Object(a.(status := Pending), if a.level == Hook then Some([]) else None, []);
      State(s.objects + [o], s.items[a.key := |s.objects|])
  }

  /** select { case p.ch <- d: default: } */
  function Send(o: Object, d: Decision): Object {
    if o.ch.Some? && |o.ch.value| < 1 then o.(ch := Some(o.ch.value + [d]), sent := o.sent + [d]) else o
  }

  /** A terminal status, and the wake-up of whoever waits. */
  function Settle(o: Object, status: Status, who: string, now: int, d: Decision): Object {
    Send(o.(a := o.a.(status := status, decidedBy := who, decidedAt := Some(now))), d)
  }

  function Verdict(decision: string): Status {
    if decision == "allow" then Allowed else Denied
  }

  function Decide(s: State, k: Key, decision: string, who: string, msg: Option<nat>, now: int): State {
    if !IsPending(s, k) then s
    else
      var i := s.items[k];
      s.(objects := s.objects[i := Settle(s.objects[i], Verdict(decision), who, now, Decision(decision, who, msg))])
  }

  function Close(s: State, k: Key, status: Status, who: string, now: int): State {
    if !IsPending(s, k) then s
    else
      var i := s.items[k];
      s.(objects := s.objects[i := Settle(s.objects[i], status, who, now, NO_DECISION)])
  }

  /** Current and pending, of this session. */
  predicate InSession(s: State, i: nat, sid: Sid) {
    && i < |s.objects| && s.objects[i].a.sid == sid && s.objects[i].a.status == Pending
    && s.objects[i].a.key in s.items && s.items[s.objects[i].a.key] == i
  }

  function CloseSession(s: State, sid: Sid, status: Status, who: string, now: int): State {
    s.(objects := seq(|s.objects|, i requires 0 <= i < |s.objects| =>
        if InSession(s, i, sid) then Settle(s.objects[i], status, who, now, NO_DECISION) else s.objects[i]))
  }

  predicate TooOld(a: Approval, maxAge: int, now: int) {
    a.status != Pending && a.decidedAt.Some? && now - a.decidedAt.value > maxAge
  }

  function Finished(s: State, maxAge: int, now: int): set<Key> {
    set k | k in s.items && s.items[k] < |s.objects| && TooOld(s.objects[s.items[k]].a, maxAge, now)
  }

  function Sweep(s: State, maxAge: int, now: int): State {
    s.(items := s.items - Finished(s, maxAge, now))
  }

  /** A handler that holds object i takes what is in its channel. */
  function Receive(s: State, i: nat): State {
    if i < |s.objects| && s.objects[i].ch.Some? && s.objects[i].ch.value != []
    then s.(objects := s.objects[i := s.objects[i].(ch := Some(s.objects[i].ch.value[1..]))])
    else s
  }

  // ---- single outcome -----------------------------------------------------------------

  /** The one value that goes with a terminal status. */
  ghost predicate Matches(d: Decision, status: Status) {
    match status
    case Pending => false
    case Allowed => d.decision == "allow"
    case Denied => d.decision != "allow"
    case ClosedLocal => d == NO_DECISION
    case Fallback => d == NO_DECISION
  }

  /** Empty while pending; from then on exactly one value was sent, and is in the channel until taken. */
  ghost predicate ObjectOk(o: Object) {
    && (o.ch.Some? <==> o.a.level == Hook)
    && (o.a.status == Pending || o.ch.None? ==> o.sent == [])
    && (o.a.status != Pending && o.ch.Some? ==> |o.sent| == 1 && Matches(o.sent[0], o.a.status))
    && (o.ch.Some? ==> o.ch.value == o.sent || o.ch.value == [])
  }

  ghost predicate Inv(s: State) {
    WellFormed(s) && forall i :: 0 <= i < |s.objects| ==> ObjectOk(s.objects[i])
  }

  datatype Event =
    | EAdd(a: Approval, now: int)
    | EDecide(key: Key, decision: string, who: string, msg: Option<nat>, now: int)
    | EClose(key: Key, fallback: bool, who: string, now: int)
    | ECloseSession(sid: Sid, who: string, now: int)
    | ESweep(maxAge: int, now: int)
    | EReceive(i: nat)

  function Step(s: State, e: Event): State {
    match e
    case EAdd(a, now) => Add(s, a, now)
    case EDecide(k, d, who, msg, now) => Decide(s, k, d, who, msg, now)
    case EClose(k, fallback, who, now) => Close(s, k, if fallback then Fallback else ClosedLocal, who, now)
    case ECloseSession(sid, who, now) => CloseSession(s, sid, ClosedLocal, who, now)
    case ESweep(maxAge, now) => Sweep(s, maxAge, now)
    case EReceive(i) => Receive(s, i)
  }

  function Run(s: State, es: seq<Event>): State
    decreases |es|
  {
    if es == [] then s else Run(Step(s, es[0]), es[1..])
  }

  lemma SettleOk(o: Object, status: Status, who: string, now: int, d: Decision)
    requires ObjectOk(o) && o.a.status == Pending && status != Pending && Matches(d, status)
    ensures var t := Settle(o, status, who, now, d);
      && ObjectOk(t) && t.sent == (if o.ch.Some? then [d] else [])
      && t.ch == (if o.ch.Some? then Some([d]) else None)
  {
  }

  lemma CloseSessionKeeps(s: State, sid: Sid, who: string, now: int)
    requires Inv(s)
    ensures Inv(CloseSession(s, sid, ClosedLocal, who, now))
  {
    var t := CloseSession(s, sid, ClosedLocal, who, now);
    forall i | 0 <= i < |s.objects| ensures ObjectOk(t.objects[i]) {
      if InSession(s, i, sid) {
        SettleOk(s.objects[i], ClosedLocal, who, now, NO_DECISION);
      }
    }
  }

  lemma StepKeeps(s: State, e: Event)
    requires Inv(s)
    ensures Inv(Step(s, e))
  {
    match e
    case EDecide(k, d, who, msg, now) =>
      if IsPending(s, k) {
        SettleOk(s.objects[s.items[k]], Verdict(d), who, now, Decision(d, who, msg));
      }
    case EClose(k, fallback, who, now) =>
      if IsPending(s, k) {
        SettleOk(s.objects[s.items[k]], if fallback then Fallback else ClosedLocal, who, now, NO_DECISION);
      }
    case ECloseSession(sid, who, now) => CloseSessionKeeps(s, sid, who, now);
    case _ =>
  }

  lemma {:induction false} RunKeeps(s: State, es: seq<Event>)
    requires Inv(s)
    ensures Inv(Run(s, es)) && |Run(s, es).objects| >= |s.objects|
    decreases |es|
  {
    if es != [] {
      StepKeeps(s, es[0]);
      RunKeeps(Step(s, es[0]), es[1..]);
    }
  }

  lemma SettledStep(s: State, e: Event, i: nat)
    requires Inv(s) && i < |s.objects| && s.objects[i].a.status != Pending
    ensures var t := Step(s, e);
      i < |t.objects| && t.objects[i].a == s.objects[i].a && t.objects[i].sent == s.objects[i].sent
  {
  }

  /** A settled object keeps its approval and what was sent, whatever happens. */
  lemma {:induction false} SettledIsFinal(s: State, es: seq<Event>, i: nat)
    requires Inv(s) && i < |s.objects| && s.objects[i].a.status != Pending
    ensures i < |Run(s, es).objects|
    ensures Run(s, es).objects[i].a == s.objects[i].a && Run(s, es).objects[i].sent == s.objects[i].sent
    decreases |es|
  {
    if es != [] {
      StepKeeps(s, es[0]);
      SettledStep(s, es[0], i);
      SettledIsFinal(Step(s, es[0]), es[1..], i);
    }
  }

  /** Whether event e settles object i in state s. */
  predicate Settles(s: State, e: Event, i: nat) {
    i < |s.objects| && s.objects[i].a.status == Pending && Step(s, e).objects[i].a.status != Pending
  }

  function Outcomes(s: State, es: seq<Event>, i: nat): nat
    decreases |es|
  {
    if es == [] then 0 else (if Settles(s, es[0], i) then 1 else 0) + Outcomes(Step(s, es[0]), es[1..], i)
  }

  /**
   At most one Decide or Close ever succeeds on a pending object. A handler's
   object that is settled was sent exactly one value, the one that goes with
   its status, and it is never dropped for want of room.
   */
  lemma {:induction false} SingleOutcome(s: State, es: seq<Event>, i: nat)
    requires Inv(s)
    ensures Outcomes(s, es, i) <= 1
    ensures i < |s.objects| && s.objects[i].a.status != Pending ==> Outcomes(s, es, i) == 0
    ensures var t := Run(s, es);
      i < |t.objects| && t.objects[i].a.level == Hook && t.objects[i].a.status != Pending ==>
        |t.objects[i].sent| == 1 && Matches(t.objects[i].sent[0], t.objects[i].a.status)
    decreases |es|
  {
    if es != [] {
      StepKeeps(s, es[0]);
      SingleOutcome(Step(s, es[0]), es[1..], i);
    }
  }

  /** The send of Decide and Close never takes the default branch. */
  lemma SendNeverDrops(es: seq<Event>, k: Key, d: Decision)
    ensures var s := Run(EMPTY, es);
      IsPending(s, k) && s.objects[s.items[k]].ch.Some? ==>
        Send(s.objects[s.items[k]], d).ch == Some([d])
  {
    RunKeeps(EMPTY, es);
    var s := Run(EMPTY, es);
    if IsPending(s, k) {
      assert ObjectOk(s.objects[s.items[k]]);
      assert [] + [d] == [d];
    }
  }

  // ---- what each operation does -------------------------------------------------------------

  /** Every object but number i, and every key but k, is as it was. */
  ghost predicate RestSame(s: State, t: State, i: nat, k: Key) {
    && |s.objects| <= |t.objects| && (forall j :: 0 <= j < |s.objects| && j != i ==> t.objects[j] == s.objects[j])
    && t.items - {k} == s.items - {k}
  }

  /** A key pending for less than a minute stays as it is; otherwise a new pending object takes its place. */
  lemma AddIsExact(s: State, a: Approval, now: int)
    requires Inv(s)
    ensures var t := Add(s, a, now); var n := |s.objects|;
      if a.key in s.items && s.objects[s.items[a.key]].a.status == Pending && now < s.objects[s.items[a.key]].a.createdAt + 60
      then t == s
      else RestSame(s, t, n, a.key) && |t.objects| == n + 1 && a.key in t.items && t.items[a.key] == n &&
           t.objects[n].a == a.(status := Pending) && t.objects[n].ch == (if a.level == Hook then Some([]) else None)
  {
  }

  /** The pending object of the key takes the status of the word, and its handler can read the decision. */
  lemma DecideIsExact(s: State, k: Key, decision: string, who: string, msg: Option<nat>, now: int)
    requires Inv(s) && k in s.items
    ensures var t := Decide(s, k, decision, who, msg, now); var i := s.items[k];
      if s.objects[i].a.status != Pending then t == s
      else RestSame(s, t, i, k) && t.items == s.items &&
           t.objects[i].a == s.objects[i].a.(decidedBy := who, decidedAt := Some(now),
                                             status := match decision case "allow" => Allowed case _ => Denied) &&
           t.objects[i].ch == (if s.objects[i].a.level == Hook then Some([Decision(decision, who, msg)]) else None)
  {
    var i := s.items[k];
    assert ObjectOk(s.objects[i]);
    assert [] + [Decision(decision, who, msg)] == [Decision(decision, who, msg)];
  }

  /** The pending object of the key takes the given status, and its handler reads that there is no decision. */
  lemma CloseIsExact(s: State, k: Key, status: Status, who: string, now: int)
    requires Inv(s) && k in s.items
    ensures var t := Close(s, k, status, who, now); var i := s.items[k];
      if s.objects[i].a.status != Pending then t == s
      else RestSame(s, t, i, k) && t.items == s.items &&
           t.objects[i].a == s.objects[i].a.(decidedBy := who, decidedAt := Some(now), status := status) &&
           t.objects[i].ch == (if s.objects[i].a.level == Hook then Some([NO_DECISION]) else None)
  {
    var i := s.items[k];
    assert ObjectOk(s.objects[i]);
    assert [] + [NO_DECISION] == [NO_DECISION];
  }

  /** A key stays if and only if it is pending, or was settled no longer ago than the age. */
  lemma SweepIsExact(s: State, maxAge: int, now: int, k: Key)
    requires Inv(s) && k in s.items
    ensures var t := Sweep(s, maxAge, now); var a := s.objects[s.items[k]].a;
      && t.objects == s.objects && (k in t.items ==> t.items[k] == s.items[k])
      && (k in t.items <==> a.status == Pending || a.decidedAt == None || now <= a.decidedAt.value + maxAge)
  {
  }

  /** CloseSession closes exactly the pending items of its session. */
  lemma CloseSessionIsExact(s: State, sid: Sid, status: Status, who: string, now: int, k: Key)
    requires Inv(s)
    ensures var t := CloseSession(s, sid, status, who, now);
      && t.items == s.items
      && (k in s.items ==>
        var o, o' := s.objects[s.items[k]], t.objects[s.items[k]];
        if o.a.status == Pending && o.a.sid == sid
        then o'.a == o.a.(status := status, decidedBy := who, decidedAt := Some(now))
        else o' == o)
      && (forall i :: 0 <= i < |s.objects| && i !in s.items.Values ==> t.objects[i] == s.objects[i])
  {
    var t := CloseSession(s, sid, status, who, now);
    forall i | 0 <= i < |s.objects| && i !in s.items.Values ensures t.objects[i] == s.objects[i] {
      assert s.objects[i].a.key in s.items ==> s.items[s.objects[i].a.key] in s.items.Values;
    }
  }
}
