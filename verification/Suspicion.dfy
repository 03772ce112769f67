/**
 The heuristic and the inbox together: what the agent does with each verdict,
 while hooks, consoles, exits and sweeps work on the same store. key is the
 key of a session's prompt line, a hash in the program.
 */
module Suspicion {
  import opened Wrappers
  import opened Approvals
  import Heuristic
  import Decimals

  type KeyOf = (Sid, string) -> Key

  datatype State = State(heur: map<Sid, Heuristic.State>, ptyKeys: map<Sid, Key>, store: Approvals.State)

  datatype Event =
    | Open(sid: Sid)
    | Shut(sid: Sid, now: int)                      // closeSession
    | Exit(sid: Sid, now: int)
    | Tick(sid: Sid, r: Heuristic.Reading)
    | Other(e: Approvals.Event)                     // hooks, consoles, sweeps

  const START := State.State(map[], map[], EMPTY)

  function Guess(sid: Sid, key: Key, now: int): Approval {
    Approval(key, sid, Suspect, now, Pending, "", None)
  }

  function TickStep(s: State, sid: Sid, r: Heuristic.Reading, key: KeyOf): State
    requires sid in s.heur
  {
    var (h, v) := Heuristic.Evaluate(s.heur[sid], r);
    var t := s.(heur := s.heur[sid := h]);
    match v
    case Suspect =>
      var k := key(sid, r.line);
      t.(store := Add(s.store, Guess(sid, k, r.now), r.now), ptyKeys := s.ptyKeys[sid := k])
    case Cleared =>
      var k := if sid in s.ptyKeys then s.ptyKeys[sid] else "";
      t.(store := Close(s.store, k, ClosedLocal, "output", r.now), ptyKeys := s.ptyKeys - {sid})
    case _ => t
  }

  function Step(s: State, e: Event, key: KeyOf): State {
    match e
    case Open(sid) => if sid in s.heur then s else s.(heur := s.heur[sid := Heuristic.ZERO])
    case Shut(sid, now) =>
      if sid !in s.heur then s.(ptyKeys := s.ptyKeys - {sid})
      else State.State(s.heur - {sid}, s.ptyKeys - {sid}, CloseSession(s.store, sid, ClosedLocal, "close", now))
    case Exit(sid, now) => s.(store := CloseSession(s.store, sid, ClosedLocal, "exit", now))
    case Tick(sid, r) => if sid in s.heur then TickStep(s, sid, r, key) else s
    case Other(e) => s.(store := Approvals.Step(s.store, e))
  }

  function Run(s: State, es: seq<Event>, key: KeyOf): State
    decreases |es|
  {
    if es == [] then s else Run(Step(s, es[0], key), es[1..], key)
  }

  /** Only the heuristic raises level C items, and the clock is never zero. */
  predicate Fair(e: Event) {
    match e
    case Tick(_, r) => r.now != 0
    case Other(EAdd(a, _)) => a.level != Suspect
    case _ => true
  }

  // ---- a pending guess belongs to a suspecting session ----------------------------------------

  predicate PendingGuess(s: State, k: Key, sid: Sid) {
    IsPending(s.store, k) &&
    var a := s.store.objects[s.store.items[k]].a; a.level == Suspect && a.sid == sid
  }

  predicate Suspecting(s: State, sid: Sid) {
    sid in s.heur && s.heur[sid].suspectAt != 0
  }

  ghost predicate Owned(s: State) {
    forall k, sid :: PendingGuess(s, k, sid) ==> Suspecting(s, sid) && sid in s.ptyKeys && s.ptyKeys[sid] == k
  }

  ghost predicate Inv(s: State) {
    && WellFormed(s.store)
    && (forall sid :: sid in s.heur ==> Heuristic.Inv(s.heur[sid]))
    && Owned(s)
  }

  /** What a store step that raises no guess may do. */
  ghost predicate Shrinks(a: Approvals.State, b: Approvals.State) {
    && WellFormed(b)
    && forall k :: IsPending(b, k) && b.objects[b.items[k]].a.level == Suspect ==>
      IsPending(a, k) && a.objects[a.items[k]].a == b.objects[b.items[k]].a
  }

  lemma OtherShrinks(s: Approvals.State, e: Approvals.Event)
    requires WellFormed(s) && (e.EAdd? ==> e.a.level != Suspect)
    ensures Shrinks(s, Approvals.Step(s, e))
  {
    var t := Approvals.Step(s, e);
    OtherWellFormed(s, e);
    forall k | IsPending(t, k) && t.objects[t.items[k]].a.level == Suspect
      ensures IsPending(s, k) && s.objects[s.items[k]].a == t.objects[t.items[k]].a
    {
      if e.EAdd? && k == e.a.key {
        assert t == s;
      } else {
        OtherKeepsKey(s, e, k);
      }
    }
  }

  lemma ShutOne(s: Approvals.State, sid: Sid, who: string, now: int)
    requires WellFormed(s)
    ensures var t := CloseSession(s, sid, ClosedLocal, who, now);
      Shrinks(s, t) && forall k :: IsPending(t, k) ==> t.objects[t.items[k]].a.sid != sid
  {
  }

  lemma TickKeeps(s: State, sid: Sid, r: Heuristic.Reading, key: KeyOf)
    requires Inv(s) && sid in s.heur && r.now != 0
    ensures Inv(TickStep(s, sid, r, key))
  {
    var t := TickStep(s, sid, r, key);
    Heuristic.EvaluateKeeps(s.heur[sid], r);
    TickKeepsGuess(s, sid, r, key);
  }

  lemma TickKeepsGuess(s: State, sid: Sid, r: Heuristic.Reading, key: KeyOf)
    requires Inv(s) && sid in s.heur && r.now != 0
    ensures var t := TickStep(s, sid, r, key);
      forall k, x :: PendingGuess(t, k, x) ==> Suspecting(t, x) && x in t.ptyKeys && t.ptyKeys[x] == k
  {
    forall k, x | PendingGuess(TickStep(s, sid, r, key), k, x)
      ensures var t := TickStep(s, sid, r, key); Suspecting(t, x) && x in t.ptyKeys && t.ptyKeys[x] == k
    {
      var (h, v) := Heuristic.Evaluate(s.heur[sid], r);
      Heuristic.EvaluateKeeps(s.heur[sid], r);
      if v == Heuristic.Suspect {
        Raised(s, sid, r, key, k, x);
      } else {
        assert PendingGuess(s, k, x);
      }
    }
  }

  lemma Raised(s: State, sid: Sid, r: Heuristic.Reading, key: KeyOf, k: Key, x: Sid)
    requires Inv(s) && sid in s.heur && r.now != 0 && Heuristic.Evaluate(s.heur[sid], r).1 == Heuristic.Suspect
    requires PendingGuess(TickStep(s, sid, r, key), k, x)
    ensures if x == sid then k == key(sid, r.line) else PendingGuess(s, k, x)
  {
    var k' := key(sid, r.line);
    if k != k' || Duplicate(s.store, k', r.now) {
      assert PendingGuess(s, k, x);
    }
  }

  lemma StepKeeps(s: State, e: Event, key: KeyOf)
    requires Inv(s) && Fair(e)
    ensures Inv(Step(s, e, key))
  {
    var t := Step(s, e, key);
    match e
    case Open(sid) => assert forall k, x :: PendingGuess(t, k, x) ==> PendingGuess(s, k, x);
    case Shut(sid, now) =>
      ShutOne(s.store, sid, "close", now);
      assert forall k, x :: PendingGuess(t, k, x) ==> PendingGuess(s, k, x);
    case Exit(sid, now) =>
      ShutOne(s.store, sid, "exit", now);
      assert forall k, x :: PendingGuess(t, k, x) ==> PendingGuess(s, k, x);
    case Tick(sid, r) => if sid in s.heur { TickKeeps(s, sid, r, key); }
    case Other(o) =>
      OtherShrinks(s.store, o);
      assert forall k, x :: PendingGuess(t, k, x) ==> PendingGuess(s, k, x);
  }

  lemma {:induction false} RunKeeps(s: State, es: seq<Event>, key: KeyOf)
    requires Inv(s) && forall e :: e in es ==> Fair(e)
    ensures Inv(Run(s, es, key))
    decreases |es|
  {
    if es != [] {
      assert es[0] in es;
      StepKeeps(s, es[0], key);
      RunKeeps(Step(s, es[0], key), es[1..], key);
    }
  }

  /** A session never has two pending guesses, and one only while its heuristic suspects it. */
  lemma OneGuessPerSession(es: seq<Event>, key: KeyOf)
    requires forall e :: e in es ==> Fair(e)
    ensures var s := Run(START, es, key); forall k1, k2, sid :: PendingGuess(s, k1, sid) ==>
      && Suspecting(s, sid) && sid in s.ptyKeys && s.ptyKeys[sid] == k1
      && (PendingGuess(s, k2, sid) ==> k1 == k2)
  {
    RunKeeps(START, es, key);
  }

  // ---- exactly what one tick does to the others -----------------------------------------------

  function PtyKey(s: State, sid: Sid): Key {
    if sid in s.ptyKeys then s.ptyKeys[sid] else ""
  }

  /** The key's current item is another session's. */
  predicate Foreign(s: State, k: Key, sid: Sid) {
    k in s.store.items && s.store.items[k] < |s.store.objects| && s.store.objects[s.store.items[k]].a.sid != sid
  }

  predicate Kept(s: State, t: State, k: Key) {
    && k in s.store.items && s.store.items[k] < |s.store.objects|
    && k in t.store.items && t.store.items[k] < |t.store.objects|
    && t.store.objects[t.store.items[k]] == s.store.objects[s.store.items[k]]
  }

  /** The tick raises a guess over another session's item, or closes another session's pending item. */
  predicate Tramples(s: State, sid: Sid, r: Heuristic.Reading, key: KeyOf)
    requires sid in s.heur
  {
    match Heuristic.Evaluate(s.heur[sid], r).1
    case Suspect => Foreign(s, key(sid, r.line), sid) && !Duplicate(s.store, key(sid, r.line), r.now)
    case Cleared => Foreign(s, PtyKey(s, sid), sid) && IsPending(s.store, PtyKey(s, sid))
    case _ => false
  }

  /** With any keys: a tick leaves every other session's approval as it is, if and only if it does not do that. */
  lemma TickIsolatedIff(s: State, sid: Sid, r: Heuristic.Reading, key: KeyOf)
    requires WellFormed(s.store) && sid in s.heur
    ensures (forall k :: Foreign(s, k, sid) ==> Kept(s, TickStep(s, sid, r, key), k)) <==> !Tramples(s, sid, r, key)
  {
    var t := TickStep(s, sid, r, key);
    var v := Heuristic.Evaluate(s.heur[sid], r).1;
    if Tramples(s, sid, r, key) {
      var k := if v == Heuristic.Suspect then key(sid, r.line) else PtyKey(s, sid);
      assert Foreign(s, k, sid) && !Kept(s, t, k);
    } else {
      forall k | Foreign(s, k, sid) ensures Kept(s, t, k) {
        NotTrampled(s, sid, r, key, k);
      }
    }
  }

  lemma NotTrampled(s: State, sid: Sid, r: Heuristic.Reading, key: KeyOf, k: Key)
    requires WellFormed(s.store) && sid in s.heur && !Tramples(s, sid, r, key) && Foreign(s, k, sid)
    ensures Kept(s, TickStep(s, sid, r, key), k)
  {
  }

  /**
   With any keys: a session that comes under suspicion gets a pending guess of
   its own, if and only if the key is not pending already since less than a
   minute; and if it is, that is another session's item or no guess.
   */
  lemma OwnGuessIff(s: State, sid: Sid, r: Heuristic.Reading, key: KeyOf)
    requires Inv(s) && sid in s.heur && r.now != 0 && Heuristic.Evaluate(s.heur[sid], r).1 == Heuristic.Suspect
    ensures var k := key(sid, r.line);
      && (PendingGuess(TickStep(s, sid, r, key), k, sid) <==> !Duplicate(s.store, k, r.now))
      && (IsPending(s.store, k) ==> Foreign(s, k, sid) || s.store.objects[s.store.items[k]].a.level != Suspect)
  {
    var k := key(sid, r.line);
    assert !PendingGuess(s, k, sid);
    if !Duplicate(s.store, k, r.now) {
      assert TickStep(s, sid, r, key).store.items[k] == |s.store.objects|;
    }
  }

  /** The key's item in t is the pending one of s, closed locally by who. */
  predicate ClosedBy(s: State, t: State, k: Key, who: string, now: int) {
    && IsPending(s.store, k) && k in t.store.items && t.store.items[k] == s.store.items[k] < |t.store.objects|
    && t.store.objects[t.store.items[k]].a ==
       s.store.objects[s.store.items[k]].a.(status := ClosedLocal, decidedBy := who, decidedAt := Some(now))
  }

  /**
   With any keys: new output closes the session's own pending guess, and with
   it the suspicion is over; closing or ending a session closes whatever of its
   approvals is pending, and only a closed one is forgotten.
   */
  lemma EndsCloseLocally(s: State, sid: Sid, r: Heuristic.Reading, key: KeyOf, k: Key, now: int)
    requires Inv(s) && sid in s.heur
    ensures Heuristic.Evaluate(s.heur[sid], r).1 == Heuristic.Cleared && PendingGuess(s, k, sid) ==>
      var t := TickStep(s, sid, r, key); ClosedBy(s, t, k, "output", r.now) && !Suspecting(t, sid) && sid !in t.ptyKeys
    ensures IsPending(s.store, k) && s.store.objects[s.store.items[k]].a.sid == sid ==>
      && ClosedBy(s, Step(s, Shut(sid, now), key), k, "close", now)
      && ClosedBy(s, Step(s, Exit(sid, now), key), k, "exit", now)
    ensures Step(s, Exit(sid, now), key).heur == s.heur && Step(s, Shut(sid, now), key).heur == s.heur - {sid}
  {
  }

  // ---- runs in which no two sessions share a key, and the other way round -----------------------

  /** A tick that sees a prompt, and so may use its key. */
  predicate Asks(e: Event) {
    e.Tick? && e.r.prompt
  }

  /** In this run prompts of different sessions have different keys, and hooks use none of them. */
  ghost predicate Distinct(es: seq<Event>, key: KeyOf) {
    && (forall e, f :: e in es && f in es && Asks(e) && Asks(f) && e.sid != f.sid ==>
      key(e.sid, e.r.line) != key(f.sid, f.r.line))
    && (forall e, f :: e in es && f in es && Asks(e) && f.Other? && f.e.EAdd? ==> f.e.a.key != key(e.sid, e.r.line))
  }

  /** Whose key it is. */
  function Table(es: seq<Event>, key: KeyOf): map<Key, Sid> {
    if es == [] then map[]
    else if Asks(es[0]) then Table(es[1..], key)[key(es[0].sid, es[0].r.line) := es[0].sid]
    else Table(es[1..], key)
  }

  predicate Fits(e: Event, key: KeyOf, m: map<Key, Sid>) {
    match e
    case Tick(sid, r) => r.prompt ==> key(sid, r.line) in m && m[key(sid, r.line)] == sid
    case Other(EAdd(a, _)) => a.key !in m
    case _ => true
  }

  predicate AsksFor(e: Event, key: KeyOf, k: Key, sid: Sid) {
    Asks(e) && key(e.sid, e.r.line) == k && e.sid == sid
  }

  lemma {:induction false} TableIsOfRun(es: seq<Event>, key: KeyOf, k: Key)
    requires k in Table(es, key)
    ensures exists e :: e in es && AsksFor(e, key, k, Table(es, key)[k])
    decreases |es|
  {
    if Asks(es[0]) && key(es[0].sid, es[0].r.line) == k {
      assert es[0] in es && AsksFor(es[0], key, k, es[0].sid);
    } else {
      TableIsOfRun(es[1..], key, k);
      var e :| e in es[1..] && AsksFor(e, key, k, Table(es[1..], key)[k]);
      assert e in es;
    }
  }

  lemma {:induction false} TableHasRun(es: seq<Event>, key: KeyOf, e: Event)
    requires e in es && Asks(e)
    ensures key(e.sid, e.r.line) in Table(es, key)
    decreases |es|
  {
    if e != es[0] {
      TableHasRun(es[1..], key, e);
    }
  }

  lemma TableFits(es: seq<Event>, key: KeyOf, e: Event)
    requires Distinct(es, key) && e in es
    ensures Fits(e, key, Table(es, key))
  {
    var m := Table(es, key);
    if Asks(e) {
      TableHasRun(es, key, e);
      var k := key(e.sid, e.r.line);
      TableIsOfRun(es, key, k);
      var f :| f in es && AsksFor(f, key, k, m[k]);
    } else if e.Other? && e.e.EAdd? && e.e.a.key in m {
      TableIsOfRun(es, key, e.e.a.key);
      assert false;
    }
  }

  /** Who a key belongs to. */
  ghost predicate KeysOk(s: State, m: map<Key, Sid>) {
    && WellFormed(s.store)
    && (forall k :: k in s.store.items && k in m ==>
      s.store.objects[s.store.items[k]].a.sid == m[k] && s.store.objects[s.store.items[k]].a.level == Suspect)
    && (forall sid :: sid in s.ptyKeys ==> s.ptyKeys[sid] in m && m[s.ptyKeys[sid]] == sid)
    && (forall sid :: Suspecting(s, sid) ==> sid in s.ptyKeys)
  }

  ghost predicate InvK(s: State, m: map<Key, Sid>) {
    Inv(s) && KeysOk(s, m)
  }

  /** Store steps leave the session and level of a key's item alone, and add only the keys they are given. */
  lemma OtherKeepsKeys(s: Approvals.State, e: Approvals.Event)
    requires WellFormed(s)
    ensures var t := Approvals.Step(s, e);
      && WellFormed(t)
      && forall k :: k in t.items && !(e.EAdd? && k == e.a.key) ==>
        && k in s.items
        && t.objects[t.items[k]].a.sid == s.objects[s.items[k]].a.sid
        && t.objects[t.items[k]].a.level == s.objects[s.items[k]].a.level
  {
    var t := Approvals.Step(s, e);
    OtherWellFormed(s, e);
    forall k | k in t.items && !(e.EAdd? && k == e.a.key)
      ensures k in s.items && t.objects[t.items[k]].a.sid == s.objects[s.items[k]].a.sid
      ensures t.objects[t.items[k]].a.level == s.objects[s.items[k]].a.level
    {
      OtherKeepsKey(s, e, k);
    }
  }

  lemma OtherKeepsKey(s: Approvals.State, e: Approvals.Event, k: Key)
    requires WellFormed(s) && k in Approvals.Step(s, e).items && !(e.EAdd? && k == e.a.key)
    ensures var t := Approvals.Step(s, e);
      && k in s.items && t.items[k] == s.items[k] < |t.objects|
      && t.objects[t.items[k]].a.sid == s.objects[s.items[k]].a.sid
      && t.objects[t.items[k]].a.level == s.objects[s.items[k]].a.level
      && (t.objects[t.items[k]].a.status == Pending ==> t.objects[t.items[k]].a == s.objects[s.items[k]].a)
  {
  }

  lemma OtherWellFormed(s: Approvals.State, e: Approvals.Event)
    requires WellFormed(s)
    ensures WellFormed(Approvals.Step(s, e))
  {
  }

  lemma SuspectKeepsKeys(s: State, sid: Sid, r: Heuristic.Reading, key: KeyOf, m: map<Key, Sid>)
    requires InvK(s, m) && Fits(Tick(sid, r), key, m) && sid in s.heur && r.now != 0
    requires Heuristic.Evaluate(s.heur[sid], r).1 == Heuristic.Suspect
    ensures KeysOk(TickStep(s, sid, r, key), m)
    ensures PendingGuess(TickStep(s, sid, r, key), key(sid, r.line), sid)
  {
    var k := key(sid, r.line);
    var t := TickStep(s, sid, r, key);
    OwnGuessIff(s, sid, r, key);
    assert !Duplicate(s.store, k, r.now);
    assert t.store.items == s.store.items[k := |s.store.objects|];
  }

  lemma ClearedKeepsKeys(s: State, sid: Sid, r: Heuristic.Reading, key: KeyOf, m: map<Key, Sid>)
    requires InvK(s, m) && sid in s.heur && r.now != 0
    requires Heuristic.Evaluate(s.heur[sid], r).1 == Heuristic.Cleared
    ensures KeysOk(TickStep(s, sid, r, key), m)
  {
    var t := TickStep(s, sid, r, key);
    OtherKeepsKeys(s.store, EClose(s.ptyKeys[sid], false, "output", r.now));
    Heuristic.EvaluateKeeps(s.heur[sid], r);
  }

  lemma TickKeepsKeys(s: State, sid: Sid, r: Heuristic.Reading, key: KeyOf, m: map<Key, Sid>)
    requires InvK(s, m) && Fits(Tick(sid, r), key, m) && sid in s.heur && r.now != 0
    ensures InvK(TickStep(s, sid, r, key), m)
  {
    TickKeeps(s, sid, r, key);
    var v := Heuristic.Evaluate(s.heur[sid], r).1;
    if v == Heuristic.Suspect {
      SuspectKeepsKeys(s, sid, r, key, m);
    } else if v == Heuristic.Cleared {
      ClearedKeepsKeys(s, sid, r, key, m);
    } else {
      Heuristic.EvaluateKeeps(s.heur[sid], r);
      assert forall x :: Suspecting(TickStep(s, sid, r, key), x) ==> Suspecting(s, x);
    }
  }

  lemma StepKeepsKeys(s: State, e: Event, key: KeyOf, m: map<Key, Sid>)
    requires InvK(s, m) && Fair(e) && Fits(e, key, m)
    ensures InvK(Step(s, e, key), m)
  {
    StepKeeps(s, e, key);
    var t := Step(s, e, key);
    match e
    case Tick(sid, r) => if sid in s.heur { TickKeepsKeys(s, sid, r, key, m); }
    case Open(sid) => assert forall x :: Suspecting(t, x) ==> Suspecting(s, x);
    case Shut(sid, now) =>
      OtherKeepsKeys(s.store, ECloseSession(sid, "close", now));
      assert forall x :: Suspecting(t, x) ==> Suspecting(s, x) && x != sid;
    case Exit(sid, now) =>
      OtherKeepsKeys(s.store, ECloseSession(sid, "exit", now));
      assert forall x :: Suspecting(t, x) ==> Suspecting(s, x);
    case Other(o) =>
      OtherKeepsKeys(s.store, o);
      assert forall x :: Suspecting(t, x) ==> Suspecting(s, x);
  }

  /** A tick whose key is its session's own tramples on nobody. */
  lemma OwnKeyIsolated(s: State, sid: Sid, r: Heuristic.Reading, key: KeyOf, m: map<Key, Sid>)
    requires InvK(s, m) && Fits(Tick(sid, r), key, m) && sid in s.heur && r.now != 0
    ensures !Tramples(s, sid, r, key)
  {
  }

  /** Events by which somebody other than the heuristic may settle this session's guess. */
  predicate Answers(e: Event, sid: Sid, k: Key) {
    match e
    case Shut(x, _) => x == sid
    case Exit(x, _) => x == sid
    case Other(EDecide(k', _, _, _, _)) => k' == k
    case Other(EClose(k', _, _, _)) => k' == k
    case Other(ECloseSession(x, _, _)) => x == sid
    case _ => false
  }

  /** The guess is pending exactly while the session is suspected. */
  ghost predicate Agree(s: State, sid: Sid) {
    Suspecting(s, sid) <==> (sid in s.ptyKeys && PendingGuess(s, s.ptyKeys[sid], sid))
  }

  lemma OtherKeepsPending(s: Approvals.State, e: Approvals.Event, k: Key)
    requires WellFormed(s) && IsPending(s, k)
    requires !(e.EAdd? && e.a.key == k) && !(e.EDecide? && e.key == k) && !(e.EClose? && e.key == k)
    requires e.ECloseSession? ==> e.sid != s.objects[s.items[k]].a.sid
    ensures var t := Approvals.Step(s, e); IsPending(t, k) && t.objects[t.items[k]].a == s.objects[s.items[k]].a
  {
  }

  /** Until somebody else answers it, heuristic and inbox agree after every step. */
  lemma StepAgrees(s: State, e: Event, key: KeyOf, m: map<Key, Sid>, sid: Sid)
    requires InvK(s, m) && Fair(e) && Fits(e, key, m)
    requires Agree(s, sid) && (sid in s.ptyKeys ==> !Answers(e, sid, s.ptyKeys[sid]))
    ensures Agree(Step(s, e, key), sid)
  {
    StepKeeps(s, e, key);
    if Suspecting(s, sid) {
      SuspectedAgrees(s, e, key, m, sid);
    } else {
      match e
      case Tick(x, r) =>
        if x == sid && x in s.heur && Heuristic.Evaluate(s.heur[x], r).1 == Heuristic.Suspect {
          SuspectKeepsKeys(s, x, r, key, m);
        }
      case _ =>
    }
  }

  lemma SuspectedAgrees(s: State, e: Event, key: KeyOf, m: map<Key, Sid>, sid: Sid)
    requires InvK(s, m) && Fair(e) && Fits(e, key, m) && Inv(Step(s, e, key))
    requires Suspecting(s, sid) && Agree(s, sid) && !Answers(e, sid, s.ptyKeys[sid])
    ensures Agree(Step(s, e, key), sid)
  {
    var k := s.ptyKeys[sid];
    match e
    case Tick(x, r) =>
      if x == sid {
        Heuristic.EvaluateKeeps(s.heur[sid], r);
      } else if x in s.heur {
        OwnKeyIsolated(s, x, r, key, m);
        NotTrampled(s, x, r, key, k);
      }
    case Shut(x, now) => OtherKeepsPending(s.store, ECloseSession(x, "close", now), k);
    case Exit(x, now) => OtherKeepsPending(s.store, ECloseSession(x, "exit", now), k);
    case Other(o) => OtherKeepsPending(s.store, o, k);
    case _ =>
  }

  predicate Unanswered(s: State, es: seq<Event>, key: KeyOf, sid: Sid)
    decreases |es|
  {
    es == [] ||
      ((sid in s.ptyKeys ==> !Answers(es[0], sid, s.ptyKeys[sid])) && Unanswered(Step(s, es[0], key), es[1..], key, sid))
  }

  lemma {:induction false} RunAgrees(s: State, es: seq<Event>, key: KeyOf, m: map<Key, Sid>, sid: Sid)
    requires InvK(s, m) && Agree(s, sid) && Unanswered(s, es, key, sid)
    requires forall e :: e in es ==> Fair(e) && Fits(e, key, m)
    ensures Agree(Run(s, es, key), sid)
    decreases |es|
  {
    if es != [] {
      assert es[0] in es;
      StepKeepsKeys(s, es[0], key, m);
      StepAgrees(s, es[0], key, m, sid);
      RunAgrees(Step(s, es[0], key), es[1..], key, m, sid);
    }
  }

  /**
   In every run in which prompts of different sessions have different keys,
   and in which nobody else answers the session's guesses: it has a pending
   guess if and only if it is suspected.
   */
  lemma SuspectedIffPending(es: seq<Event>, key: KeyOf, sid: Sid)
    requires Distinct(es, key) && Unanswered(START, es, key, sid)
    requires forall e :: e in es ==> Fair(e)
    ensures var s := Run(START, es, key);
      Suspecting(s, sid) <==> exists k :: PendingGuess(s, k, sid)
  {
    forall e | e in es ensures Fits(e, key, Table(es, key)) {
      TableFits(es, key, e);
    }
    RunAgrees(START, es, key, Table(es, key), sid);
    RunKeeps(START, es, key);
    var s := Run(START, es, key);
    if k :| PendingGuess(s, k, sid) {
      assert Owned(s);
    }
  }

  lemma {:induction false} RunNeverTramples(s: State, es: seq<Event>, key: KeyOf, m: map<Key, Sid>, sid: Sid, r: Heuristic.Reading)
    requires InvK(s, m) && forall e :: e in es ==> Fair(e) && Fits(e, key, m)
    requires Fits(Tick(sid, r), key, m) && r.now != 0 && sid in Run(s, es, key).heur
    ensures !Tramples(Run(s, es, key), sid, r, key)
    decreases |es|
  {
    if es == [] {
      OwnKeyIsolated(s, sid, r, key, m);
    } else {
      assert es[0] in es;
      StepKeepsKeys(s, es[0], key, m);
      RunNeverTramples(Step(s, es[0], key), es[1..], key, m, sid, r);
    }
  }

  /** In such a run the next tick of a session leaves the approvals of all others as they are. */
  lemma TickIsolated(es: seq<Event>, sid: Sid, r: Heuristic.Reading, key: KeyOf, k: Key)
    requires Distinct(es + [Tick(sid, r)], key) && forall e :: e in es + [Tick(sid, r)] ==> Fair(e)
    requires sid in Run(START, es, key).heur && Foreign(Run(START, es, key), k, sid)
    ensures var s := Run(START, es, key); Kept(s, TickStep(s, sid, r, key), k)
  {
    var all := es + [Tick(sid, r)];
    var m := Table(all, key);
    forall e | e in all ensures Fits(e, key, m) {
      TableFits(all, key, e);
    }
    assert Tick(sid, r) in all;
    assert Fair(Tick(sid, r));
    forall e | e in es ensures Fair(e) && Fits(e, key, m) {
      assert e in all;
    }
    RunNeverTramples(START, es, key, m, sid, r);
    RunKeeps(START, es, key);
    NotTrampled(Run(START, es, key), sid, r, key, k);
  }

  // ---- the program's keys ----------------------------------------------------------------------

  /** The text whose hash is the key: nothing separates the session from the line. */
  function Preimage(sid: Sid, line: string): string {
    "pty" + Decimals.Format(sid) + line
  }

  function HashedBy(hash: string -> string): KeyOf {
    (sid: Sid, line: string) => "pty-" + hash(Preimage(sid, line))
  }

  /** The line of s1 begins with the digits that its number lacks to be s2's. */
  predicate RunsInto(s1: Sid, l1: string, s2: Sid, l2: string) {
    var a, b := Decimals.Format(s1), Decimals.Format(s2);
    |a| < |b| && b[..|a|] == a && l1 == b[|a|..] + l2
  }

  /** Exactly when prompts of two sessions are the same text to hash; never with numbers of one length. */
  lemma PreimagesCollideIff(s1: Sid, l1: string, s2: Sid, l2: string)
    requires s1 != s2
    ensures Preimage(s1, l1) == Preimage(s2, l2) <==> RunsInto(s1, l1, s2, l2) || RunsInto(s2, l2, s1, l1)
  {
    var a, b := Decimals.Format(s1), Decimals.Format(s2);
    Decimals.NumberOfFormat(s1);
    Decimals.NumberOfFormat(s2);
    SameText(a + l1, b + l2);
    assert "pty" + a + l1 == "pty" + (a + l1) && "pty" + b + l2 == "pty" + (b + l2);
    Overlap(a, l1, b, l2);
  }

  lemma SameText(x: string, y: string)
    ensures "pty" + x == "pty" + y <==> x == y
  {
    assert ("pty" + x)[3..] == x && ("pty" + y)[3..] == y;
  }

  lemma Overlap(a: string, l1: string, b: string, l2: string)
    requires a != b
    ensures a + l1 == b + l2 <==>
      || (|a| < |b| && b[..|a|] == a && l1 == b[|a|..] + l2)
      || (|b| < |a| && a[..|b|] == b && l2 == a[|b|..] + l1)
  {
    var c, d := a + l1, b + l2;
    assert c[..|a|] == a && c[|a|..] == l1 && d[..|b|] == b && d[|b|..] == l2;
    if |a| <= |b| {
      assert d[..|a|] == b[..|a|] && d[|a|..] == b[|a|..] + l2;
      assert d == d[..|a|] + d[|a|..];
    } else {
      assert c[..|b|] == a[..|b|] && c[|b|..] == a[|b|..] + l1;
      assert c == c[..|b|] + c[|b|..];
    }
  }

  /** So a run of the program is one of those above, if its prompts do not collide, nor their hashes; hooks' keys look different. */
  lemma HashedDistinct(es: seq<Event>, hash: string -> string)
    requires forall e, f :: e in es && f in es && Asks(e) && Asks(f) && e.sid != f.sid ==>
      !RunsInto(e.sid, e.r.line, f.sid, f.r.line)
    requires forall e, f :: e in es && f in es && Asks(e) && Asks(f) ==>
      (hash(Preimage(e.sid, e.r.line)) == hash(Preimage(f.sid, f.r.line)) <==>
       Preimage(e.sid, e.r.line) == Preimage(f.sid, f.r.line))
    requires forall e :: e in es && e.Other? && e.e.EAdd? ==> !("pty-" <= e.e.a.key)
    ensures Distinct(es, HashedBy(hash))
  {
    var key := HashedBy(hash);
    forall e, f | e in es && f in es && Asks(e) && Asks(f) && e.sid != f.sid
      ensures key(e.sid, e.r.line) != key(f.sid, f.r.line)
    {
      PreimagesCollideIff(e.sid, e.r.line, f.sid, f.r.line);
      assert key(e.sid, e.r.line)[4..] == hash(Preimage(e.sid, e.r.line));
      assert key(f.sid, f.r.line)[4..] == hash(Preimage(f.sid, f.r.line));
    }
    forall e | e in es && Asks(e) ensures "pty-" <= key(e.sid, e.r.line) {
    }
  }

  lemma SamePreimage()
    ensures Preimage(1, "2?") == Preimage(12, "?")
  {
    assert Decimals.Format(1) == "1";
    assert Decimals.Format(12) == "12";
  }

  function Look(line: string, at: int): Heuristic.Reading {
    Heuristic.Reading(false, "claude", 1, 0, line, true, at)
  }

  const T0 := 400 * Heuristic.SECOND
  const T1 := 420 * Heuristic.SECOND
  const CANDIDATE := Heuristic.State(T0, 0, 0)
  const SUSPECT := Heuristic.State(0, T1, 0)

  lemma Looks(line: string)
    ensures Heuristic.Evaluate(Heuristic.ZERO, Look(line, T0)) == (CANDIDATE, Heuristic.Nothing)
    ensures Heuristic.Evaluate(CANDIDATE, Look(line, T1)) == (SUSPECT, Heuristic.Suspect)
    ensures Heuristic.Evaluate(SUSPECT, GoesOn(line)) == (Heuristic.ZERO, Heuristic.Cleared)
  {
  }

  function GoesOn(line: string): Heuristic.Reading {
    Look(line, T1).(lastOutput := T1 + 1, now := T1 + 2)
  }

  function Shared(k: Key): Approvals.State {
    Approvals.State([Object(Guess(1, k, T1), None, [])], map[k := 0])
  }

  lemma FirstAsks(s: State, key: KeyOf, k: Key)
    requires s == State.State(map[1 := CANDIDATE, 12 := Heuristic.ZERO], map[], EMPTY) && key(1, "2?") == k
    ensures Step(s, Tick(1, Look("2?", T1)), key) ==
      State.State(map[1 := SUSPECT, 12 := Heuristic.ZERO], map[1 := k], Shared(k))
  {
    Looks("2?");
  }

  lemma SecondAsks(s: State, key: KeyOf, k: Key)
    requires s == State.State(map[1 := SUSPECT, 12 := CANDIDATE], map[1 := k], Shared(k)) && key(12, "?") == k
    ensures Step(s, Tick(12, Look("?", T1)), key) ==
      State.State(map[1 := SUSPECT, 12 := SUSPECT], map[1 := k, 12 := k], Shared(k))
  {
    Looks("?");
    assert Duplicate(s.store, k, T1);
  }

  lemma SecondGoesOn(s: State, key: KeyOf, k: Key)
    requires s == State.State(map[1 := SUSPECT, 12 := SUSPECT], map[1 := k, 12 := k], Shared(k))
    ensures var t := Step(s, Tick(12, GoesOn("?")), key);
      Suspecting(t, 1) && !Suspecting(t, 12) && forall x :: !IsPending(t.store, x)
  {
    Looks("?");
  }

  lemma {:induction false} NobodyAnswers(s: State, es: seq<Event>, key: KeyOf, sid: Sid)
    requires forall e :: e in es ==> e.Open? || e.Tick?
    ensures Unanswered(s, es, key, sid)
    decreases |es|
  {
    if es != [] {
      assert es[0] in es;
      NobodyAnswers(Step(s, es[0], key), es[1..], key, sid);
    }
  }

  lemma {:induction false} RunJoin(s: State, a: seq<Event>, b: seq<Event>, key: KeyOf)
    ensures Run(s, a + b, key) == Run(Run(s, a, key), b, key)
    decreases |a|
  {
    if a == [] {
      assert a + b == b;
    } else {
      assert (a + b)[1..] == a[1..] + b;
      RunJoin(Step(s, a[0], key), a[1..], b, key);
    }
  }

  lemma Two(s: State, e: Event, f: Event, key: KeyOf)
    ensures Run(s, [e, f], key) == Step(Step(s, e, key), f, key)
  {
    assert [e, f][1..] == [f] && [f][1..] == [];
    assert Run(Step(s, e, key), [f], key) == Run(Step(Step(s, e, key), f, key), [], key);
  }

  /**
   So, whatever the hash: session 1 asks "2?", session 12 asks "?"; both are
   suspected and share one approval. When 12 goes on, the approval of session
   1 is closed although it is still waiting.
   */
  lemma SharedKeyClosesTheOther(hash: string -> string) returns (es: seq<Event>)
    ensures forall e :: e in es ==> Fair(e)
    ensures Unanswered(START, es, HashedBy(hash), 1)
    ensures var s := Run(START, es, HashedBy(hash));
      Suspecting(s, 1) && !Suspecting(s, 12) && forall k :: !IsPending(s.store, k)
  {
    var key := HashedBy(hash);
    var k := key(1, "2?");
    SamePreimage();
    var a := [Open(1), Open(12)];
    var b := [Tick(1, Look("2?", T0)), Tick(1, Look("2?", T1))];
    var c := [Tick(12, Look("?", T0)), Tick(12, Look("?", T1))];
    var d := [Tick(12, GoesOn("?"))];
    es := a + (b + (c + d));
    var s1 := Run(START, a, key);
    var s2 := Run(s1, b, key);
    var s3 := Run(s2, c, key);
    RunJoin(START, a, b + (c + d), key);
    RunJoin(s1, b, c + d, key);
    RunJoin(s2, c, d, key);
    NobodyAnswers(START, es, key, 1);
    StoryAB(key, k);
    StoryC(key, k);
    SecondGoesOn(s3, key, k);
    assert d[1..] == [];
    assert Run(s3, d, key) == Run(Step(s3, d[0], key), [], key);
  }

  lemma StoryAB(key: KeyOf, k: Key)
    requires key(1, "2?") == k
    ensures Run(Run(START, [Open(1), Open(12)], key), [Tick(1, Look("2?", T0)), Tick(1, Look("2?", T1))], key) ==
      State.State(map[1 := SUSPECT, 12 := Heuristic.ZERO], map[1 := k], Shared(k))
  {
    Two(START, Open(1), Open(12), key);
    var s1 := State.State(map[1 := Heuristic.ZERO, 12 := Heuristic.ZERO], map[], EMPTY);
    assert Run(START, [Open(1), Open(12)], key) == s1;
    Two(s1, Tick(1, Look("2?", T0)), Tick(1, Look("2?", T1)), key);
    Looks("2?");
    var s2 := s1.(heur := map[1 := CANDIDATE, 12 := Heuristic.ZERO]);
    assert Step(s1, Tick(1, Look("2?", T0)), key) == s2;
    FirstAsks(s2, key, k);
  }

  lemma StoryC(key: KeyOf, k: Key)
    requires key(12, "?") == k
    ensures Run(State.State(map[1 := SUSPECT, 12 := Heuristic.ZERO], map[1 := k], Shared(k)),
                [Tick(12, Look("?", T0)), Tick(12, Look("?", T1))], key) ==
      State.State(map[1 := SUSPECT, 12 := SUSPECT], map[1 := k, 12 := k], Shared(k))
  {
    var s := State.State(map[1 := SUSPECT, 12 := Heuristic.ZERO], map[1 := k], Shared(k));
    Two(s, Tick(12, Look("?", T0)), Tick(12, Look("?", T1)), key);
    Looks("?");
    var t := s.(heur := map[1 := SUSPECT, 12 := CANDIDATE]);
    assert Step(s, Tick(12, Look("?", T0)), key) == t;
    SecondAsks(t, key, k);
  }
}
