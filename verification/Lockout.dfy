/**
 The lockout of the login and pairing endpoints: after too many failures a
 key is refused for a while. Times are int, and 0 is the zero time.
 */
module Lockout {

  datatype Entry = Entry(fails: int, lastFail: int, lockedUntil: int)

  datatype Policy = Policy(after: int, for_: int)

  type State = map<string, Entry>

  function Locked(s: State, key: string, now: int, p: Policy): (State, bool) {
    if key !in s then (s, false)
    else if now < s[key].lockedUntil then (s, true)
    else if now - s[key].lastFail > p.for_ then (s - {key}, false)
    else (s, false)
  }

  function Fail(s: State, key: string, now: int, p: Policy): (State, bool) {
    var e := if key !in s || now - s[key].lastFail > p.for_ then Entry(0, 0, 0) else s[key];
    if e.fails + 1 >= p.after then (s[key := Entry(0, now, now + p.for_)], true)
    else (s[key := Entry(e.fails + 1, now, e.lockedUntil)], false)
  }

  /** Check looks only; an Attempt looks, and if it may, fails. */
  datatype Event =
    | Check(key: string, now: int)
    | Attempt(key: string, now: int)
    | Reset(key: string, now: int)

  predicate Accepted(s: State, e: Event, p: Policy) {
    e.Attempt? && !Locked(s, e.key, e.now, p).1
  }

  function Step(s: State, e: Event, p: Policy): State {
    match e
    case Check(k, now) => Locked(s, k, now, p).0
    case Attempt(k, now) =>
      var (t, locked) := Locked(s, k, now, p);
      if locked then t else Fail(t, k, now, p).0
    case Reset(k, _) => s - {k}
  }

  function Run(s: State, es: seq<Event>, p: Policy): State
    decreases |es|
  {
    if es == [] then s else Run(Step(s, es[0], p), es[1..], p)
  }

  /** The times of the key's accepted failures since its last reset. */
  function History(s: State, h: seq<int>, es: seq<Event>, key: string, p: Policy): seq<int>
    decreases |es|
  {
    if es == [] then h
    else
      var e := es[0];
      var h' := if e.key != key then h else if e.Reset? then [] else if Accepted(s, e, p) then h + [e.now] else h;
      History(Step(s, e, p), h', es[1..], key, p)
  }

  predicate Monotone(since: int, es: seq<Event>)
    decreases |es|
  {
    es == [] || (since <= es[0].now && Monotone(es[0].now, es[1..]))
  }

  // ---- what an entry stands for -------------------------------------------------------------

  function Limit(p: Policy): int {
    if p.after < 1 then 1 else p.after
  }

  function Final(h: seq<int>): int
    requires h != []
  {
    h[|h| - 1]
  }

  /** How many failures in a row count together: a full streak locks, and a long pause ends it. */
  function Streak(h: seq<int>, p: Policy): (n: int)
    ensures h != [] ==> 1 <= n <= Limit(p)
  {
    if h == [] then 0
    else
      var before := h[..|h| - 1];
      if before != [] && Streak(before, p) < Limit(p) && Final(h) - Final(before) <= p.for_
      then Streak(before, p) + 1 else 1
  }

  /** The key is refused at this time. */
  predicate Refused(h: seq<int>, now: int, p: Policy) {
    h != [] && Streak(h, p) >= Limit(p) && now < Final(h) + p.for_
  }

  /** No failure was accepted while the ones before it refused the key, and time went on. */
  ghost predicate Lawful(h: seq<int>, p: Policy) {
    forall k :: 0 < k < |h| ==> h[k - 1] <= h[k] && !Refused(h[..k], h[k], p)
  }

  ghost predicate Rel(s: State, key: string, h: seq<int>, now: int, p: Policy) {
    && 0 <= now
    && (h != [] ==> 0 <= Final(h) <= now)
    && (if key !in s then h == [] || now > Final(h) + p.for_
        else
          && h != [] && s[key].lastFail == Final(h)
          && (if Streak(h, p) >= Limit(p) then s[key].fails == 0 && s[key].lockedUntil == Final(h) + p.for_
              else s[key].fails == Streak(h, p) && s[key].lockedUntil <= Final(h)))
  }

  lemma LockedIsRefused(s: State, key: string, h: seq<int>, since: int, now: int, p: Policy)
    requires Rel(s, key, h, since, p) && since <= now
    ensures Locked(s, key, now, p).1 <==> Refused(h, now, p)
    ensures Rel(Locked(s, key, now, p).0, key, h, now, p)
  {
  }

  lemma FailExtends(s: State, key: string, h: seq<int>, now: int, p: Policy)
    requires Rel(s, key, h, now, p) && !Refused(h, now, p)
    ensures Rel(Fail(s, key, now, p).0, key, h + [now], now, p)
    ensures Fail(s, key, now, p).1 <==> Streak(h + [now], p) == Limit(p)
  {
    assert (h + [now])[..|h|] == h;
  }

  lemma LawfulExtends(h: seq<int>, now: int, p: Policy)
    requires Lawful(h, p) && !Refused(h, now, p) && (h != [] ==> Final(h) <= now)
    ensures Lawful(h + [now], p)
  {
    var g := h + [now];
    forall k | 0 < k < |g| ensures g[k - 1] <= g[k] && !Refused(g[..k], g[k], p) {
      assert g[..k] == h[..k];
      if k == |h| {
        assert h[..k] == h;
      }
    }
  }

  lemma StepRel(s: State, e: Event, key: string, h: seq<int>, since: int, p: Policy)
    requires Rel(s, key, h, since, p) && Lawful(h, p) && since <= e.now
    ensures var g := History(s, h, [e], key, p); Rel(Step(s, e, p), key, g, e.now, p) && Lawful(g, p)
  {
    assert [e][1..] == [];
    if e.key == key && !e.Reset? {
      LockedIsRefused(s, key, h, since, e.now, p);
      if Accepted(s, e, p) {
        FailExtends(Locked(s, key, e.now, p).0, key, h, e.now, p);
        LawfulExtends(h, e.now, p);
      }
    }
  }

  lemma {:induction false} RunRel(s: State, es: seq<Event>, key: string, h: seq<int>, p: Policy)
    requires Lawful(h, p)
    ensures forall since :: Rel(s, key, h, since, p) && Monotone(since, es) ==>
      var g := History(s, h, es, key, p);
      Rel(Run(s, es, p), key, g, if es == [] then since else es[|es| - 1].now, p) && Lawful(g, p)
    decreases |es|
  {
    forall since | Rel(s, key, h, since, p) && Monotone(since, es) && es != []
      ensures Rel(Run(s, es, p), key, History(s, h, es, key, p), es[|es| - 1].now, p) && Lawful(History(s, h, es, key, p), p)
    {
      StepRel(s, es[0], key, h, since, p);
      var g := History(s, h, [es[0]], key, p);
      assert [es[0]][1..] == [];
      assert History(s, h, es, key, p) == History(Step(s, es[0], p), g, es[1..], key, p);
      RunRel(Step(s, es[0], p), es[1..], key, g, p);
    }
  }

  // ---- the bound --------------------------------------------------------------------------------

  /** Failures i to j lie within one window: they all belong to one streak. */
  lemma {:induction false} OneStreak(h: seq<int>, i: nat, j: nat, p: Policy)
    requires Lawful(h, p) && i <= j < |h| && h[j] < h[i] + p.for_
    ensures j - i + 1 <= Streak(h[..j + 1], p)
    decreases j
  {
    if i < j {
      Ordered(h, i, j - 1, p);
      Ordered(h, j - 1, j, p);
      OneStreak(h, i, j - 1, p);
      StreakStep(h, j, p);
      assert !Refused(h[..j], h[j], p);
    }
  }

  lemma StreakStep(h: seq<int>, j: nat, p: Policy)
    requires 0 < j < |h|
    ensures Streak(h[..j + 1], p) ==
      if Streak(h[..j], p) < Limit(p) && h[j] - h[j - 1] <= p.for_ then Streak(h[..j], p) + 1 else 1
  {
    assert h[..j + 1][..j] == h[..j];
  }

  lemma {:induction false} Ordered(h: seq<int>, i: nat, j: nat, p: Policy)
    requires Lawful(h, p) && i <= j < |h|
    ensures h[i] <= h[j]
    decreases j
  {
    if i < j {
      Ordered(h, i, j - 1, p);
    }
  }

  /** How many of these times lie in the half-open window. */
  function Count(h: seq<int>, lo: int, hi: int): nat {
    if h == [] then 0
    else Count(h[..|h| - 1], lo, hi) + if lo <= Final(h) < hi then 1 else 0
  }

  lemma {:induction false} CountAtMost(h: seq<int>, n: nat, lo: int, p: Policy) returns (i: nat)
    requires Lawful(h, p) && n <= |h| && (n > 0 ==> h[n - 1] < lo + p.for_)
    ensures i <= n && Count(h[..n], lo, lo + p.for_) == n - i
    ensures (forall k :: i <= k < n ==> lo <= h[k]) && (i > 0 ==> h[i - 1] < lo)
    decreases n
  {
    if n == 0 {
      return 0;
    }
    assert h[..n][..n - 1] == h[..n - 1];
    if n > 1 {
      Ordered(h, n - 2, n - 1, p);
    }
    i := CountAtMost(h, n - 1, lo, p);
    if h[n - 1] < lo {
      i := n;
    }
  }

  lemma {:induction false} CountBound(h: seq<int>, n: nat, lo: int, p: Policy)
    requires Lawful(h, p) && n <= |h|
    ensures Count(h[..n], lo, lo + p.for_) <= Limit(p)
    decreases n
  {
    if n > 0 {
      assert h[..n][..n - 1] == h[..n - 1];
      if h[n - 1] >= lo + p.for_ {
        CountBound(h, n - 1, lo, p);
      } else {
        var i := CountAtMost(h, n, lo, p);
        if i < n {
          OneStreak(h, i, n - 1, p);
        }
      }
    }
  }

  /**
   In every run with a clock that does not go back: no window of the lockout's
   length holds more accepted failures of a key than the limit allows, counted
   since the key's last reset.
   */
  lemma WindowBound(es: seq<Event>, key: string, lo: int, p: Policy)
    requires Monotone(0, es)
    ensures Count(History(map[], [], es, key, p), lo, lo + p.for_) <= Limit(p)
  {
    var h := History(map[], [], es, key, p);
    RunRel(map[], es, key, [], p);
    CountBound(h, |h|, lo, p);
    assert h[..|h|] == h;
  }

  /** And a key is refused only for that: a full streak whose last failure is less than the lockout's length ago. */
  lemma RefusedExactly(es: seq<Event>, key: string, now: int, p: Policy)
    requires Monotone(0, es + [Check(key, now)])
    ensures Locked(Run(map[], es, p), key, now, p).1 <==> Refused(History(map[], [], es, key, p), now, p)
  {
    MonotoneTail(0, es, Check(key, now));
    RunRel(map[], es, key, [], p);
    LockedIsRefused(Run(map[], es, p), key, History(map[], [], es, key, p),
                    if es == [] then 0 else es[|es| - 1].now, now, p);
  }

  lemma {:induction false} MonotoneTail(since: int, es: seq<Event>, e: Event)
    requires Monotone(since, es + [e])
    ensures Monotone(since, es) && (if es == [] then since else es[|es| - 1].now) <= e.now
    decreases |es|
  {
    if es == [] {
      assert es + [e] == [e];
    } else {
      assert (es + [e])[1..] == es[1..] + [e];
      MonotoneTail(es[0].now, es[1..], e);
    }
  }

  // ---- as it runs ---------------------------------------------------------------------------

  class Limiter {
    const policy: Policy
    var ents: map<string, Entry>

    constructor (policy: Policy)
      ensures ents == map[] && this.policy == policy
    {
      this.policy := policy;
      ents := map[];
    }

    method IsLocked(key: string, now: int) returns (locked: bool)
      modifies this
      ensures (ents, locked) == Locked(old(ents), key, now, policy)
    {
      if key !in ents {
        return false;
      }
      if now < ents[key].lockedUntil {
        return true;
      }
      if now - ents[key].lastFail > policy.for_ {
        ents := ents - {key};
      }
      return false;
    }

    method RecordFailure(key: string, now: int) returns (justLocked: bool)
      modifies this
      ensures (ents, justLocked) == Fail(old(ents), key, now, policy)
    {
      if key !in ents || now - ents[key].lastFail > policy.for_ {
        ents := ents[key := Entry(0, 0, 0)];
      }
      var e := ents[key];
      e := e.(fails := e.fails + 1, lastFail := now);
      justLocked := e.fails >= policy.after;
      if justLocked {
        e := e.(lockedUntil := now + policy.for_, fails := 0);
      }
      ents := ents[key := e];
      assert ents == Fail(old(ents), key, now, policy).0;
    }

    method Forget(key: string)
      modifies this
      ensures ents == old(ents) - {key}
    {
      ents := ents - {key};
    }
  }
}
