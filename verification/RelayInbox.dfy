/**
 The relay's cached approvals: what an agent announces, what closes it, and
 how a console's decision is accepted once and forwarded.
 */
module RelayInbox {
  import opened Wrappers
  import opened Approvals

  type Dev = string

  datatype Item = Item(level: Level, status: Status, dev: Dev, decidedBy: string)

  datatype Relay = Relay(cache: map<Key, Item>, online: set<Dev>)

  datatype Outcome = BadDecision | NotCached | Already(status: Status) | NotByDecision | Offline | Forward(dev: Dev)

  /** An approval.new replaces whatever was cached under its key. */
  function New(s: Relay, key: Key, item: Item): Relay {
    s.(cache := s.cache[key := item])
  }

  /** approval.closed settles a pending item, or leaves a settled one alone. */
  function Closed(s: Relay, key: Key, fallback: bool, who: string): Relay {
    if key in s.cache && s.cache[key].status == Pending
    then s.(cache := s.cache[key := s.cache[key].(status := if fallback then Fallback else ClosedLocal, decidedBy := who)])
    else s
  }

  /** The device a decision goes to: the item's own, or the one the console named. */
  function Target(item: Item, hint: Dev): Dev {
    if item.dev == "" then hint else item.dev
  }

  function Check(s: Relay, key: Key, decision: string, hint: Dev): Outcome {
    if decision != "allow" && decision != "deny" then BadDecision
    else if key !in s.cache then NotCached
    else
      var a := s.cache[key];
      if a.status != Pending then Already(a.status)
      else if a.level != Hook then NotByDecision
      else if Target(a, hint) !in s.online then Offline
      else Forward(Target(a, hint))
  }

  /** decideApproval for a cached key: the new state, and what to forward or answer. */
  function DecideCached(s: Relay, key: Key, decision: string, who: string, hint: Dev): (r: (Relay, Outcome)) {
    var o := Check(s, key, decision, hint);
    if o.Forward?
    then (s.(cache := s.cache[key := s.cache[key].(status := Verdict(decision), decidedBy := who)]), o)
    else (s, o)
  }

  /** The second half of a cache miss: the row read without the lock is cached, then decided. */
  function DecideLoaded(s: Relay, key: Key, row: Item, decision: string, who: string, hint: Dev): (r: (Relay, Outcome)) {
    if decision != "allow" && decision != "deny" then (s, BadDecision)
    else DecideCached(New(s, key, row), key, decision, who, hint)
  }

  datatype Event =
    | ENew(key: Key, item: Item)
    | EClosed(key: Key, fallback: bool, who: string)
    | EDecide(key: Key, decision: string, who: string, hint: Dev)
    | EDecideLoaded(key: Key, row: Item, decision: string, who: string, hint: Dev)
    | EOnline(dev: Dev)
    | EOffline(dev: Dev)

  function Act(s: Relay, e: Event): (r: (Relay, Outcome)) {
    match e
    case ENew(k, item) => (New(s, k, item), NotCached)
    case EClosed(k, fallback, who) => (Closed(s, k, fallback, who), NotCached)
    case EDecide(k, d, who, hint) => DecideCached(s, k, d, who, hint)
    case EDecideLoaded(k, row, d, who, hint) => DecideLoaded(s, k, row, d, who, hint)
    case EOnline(d) => (s.(online := s.online + {d}), NotCached)
    case EOffline(d) => (s.(online := s.online - {d}), NotCached)
  }

  function Run(s: Relay, es: seq<Event>): Relay
    decreases |es|
  {
    if es == [] then s else Run(Act(s, es[0]).0, es[1..])
  }

  predicate PendingAt(s: Relay, key: Key) {
    key in s.cache && s.cache[key].status == Pending
  }

  /** Whether the event takes the key's item out of pending: a decision or a close. */
  predicate Settles(s: Relay, e: Event, key: Key) {
    match e
    case EClosed(k, _, _) => k == key && PendingAt(s, key)
    case EDecide(k, _, _, _) => k == key && Act(s, e).1.Forward?
    case EDecideLoaded(k, _, _, _, _) => k == key && Act(s, e).1.Forward?
    case _ => false
  }

  predicate Forwards(s: Relay, e: Event, key: Key) {
    (e.EDecide? || e.EDecideLoaded?) && e.key == key && Act(s, e).1.Forward?
  }

  function Settlements(s: Relay, es: seq<Event>, key: Key): nat
    decreases |es|
  {
    if es == [] then 0 else (if Settles(s, es[0], key) then 1 else 0) + Settlements(Act(s, es[0]).0, es[1..], key)
  }

  function Forwarded(s: Relay, es: seq<Event>, key: Key): nat
    decreases |es|
  {
    if es == [] then 0 else (if Forwards(s, es[0], key) then 1 else 0) + Forwarded(Act(s, es[0]).0, es[1..], key)
  }

  /** How often the key was made pending: announced so, or loaded so from the database. */
  function MadePending(es: seq<Event>, key: Key): nat {
    if es == [] then 0
    else
      var e := es[0];
      (if e.ENew? && e.key == key && e.item.status == Pending then 1
       else if e.EDecideLoaded? && e.key == key && e.row.status == Pending then 1 else 0)
      + MadePending(es[1..], key)
  }

  /**
   An item settles at most once for every time it was made pending, by exactly
   one of a decision and a close, and at most that many decisions are forwarded.
   */
  lemma {:induction false} SettlesOnce(s: Relay, es: seq<Event>, key: Key)
    ensures Settlements(s, es, key) <= (if PendingAt(s, key) then 1 else 0) + MadePending(es, key)
    ensures Forwarded(s, es, key) <= Settlements(s, es, key)
    decreases |es|
  {
    if es != [] {
      SettlesOnce(Act(s, es[0]).0, es[1..], key);
    }
  }

  /** Between two announcements of a cached key: never two, and none once settled. */
  lemma OnceWhileCached(s: Relay, es: seq<Event>, key: Key)
    requires forall e :: e in es ==> !(e.ENew? && e.key == key) && !(e.EDecideLoaded? && e.key == key)
    ensures Settlements(s, es, key) <= 1 && Forwarded(s, es, key) <= 1
    ensures !PendingAt(s, key) ==> Settlements(s, es, key) == 0
    ensures PendingAt(s, key) ==> (Settlements(s, es, key) == 1 <==> !PendingAt(Run(s, es), key))
  {
    SettlesOnce(s, es, key);
    NeverMadePending(es, key);
    if PendingAt(s, key) {
      SettledOrPending(s, es, key);
    }
  }

  lemma {:induction false} NeverMadePending(es: seq<Event>, key: Key)
    requires forall e :: e in es ==> !(e.ENew? && e.key == key) && !(e.EDecideLoaded? && e.key == key)
    ensures MadePending(es, key) == 0
  {
    if es != [] {
      NeverMadePending(es[1..], key);
    }
  }

  lemma {:induction false} SettledOrPending(s: Relay, es: seq<Event>, key: Key)
    requires forall e :: e in es ==> !(e.ENew? && e.key == key) && !(e.EDecideLoaded? && e.key == key)
    requires PendingAt(s, key)
    ensures Settlements(s, es, key) == 0 <==> PendingAt(Run(s, es), key)
    decreases |es|
  {
    if es != [] {
      assert es[0] in es;
      var t := Act(s, es[0]).0;
      if PendingAt(t, key) {
        SettledOrPending(t, es[1..], key);
      } else {
        assert Settles(s, es[0], key);
        StaysSettled(t, es[1..], key);
      }
    }
  }

  lemma {:induction false} StaysSettled(s: Relay, es: seq<Event>, key: Key)
    requires forall e :: e in es ==> !(e.ENew? && e.key == key) && !(e.EDecideLoaded? && e.key == key)
    requires key in s.cache && !PendingAt(s, key)
    ensures key in Run(s, es).cache && Run(s, es).cache[key] == s.cache[key]
    decreases |es|
  {
    if es != [] {
      assert es[0] in es;
      StaysSettled(Act(s, es[0]).0, es[1..], key);
    }
  }

  // ---- what a decision, a close and an announcement leave ---------------------------------

  /** The item as the decision finds it: loaded with it, or cached. */
  function Found(s: Relay, e: Event): Option<Item>
    requires e.EDecide? || e.EDecideLoaded?
  {
    if e.EDecideLoaded? then Some(e.row) else if e.key in s.cache then Some(s.cache[e.key]) else None
  }

  /** Nothing but this key's item may differ. */
  predicate OnlyThis(s: Relay, t: Relay, key: Key) {
    t.online == s.online && t.cache - {key} == s.cache - {key}
  }

  /**
   A forwarded decision goes to the item's device, or to the one the console
   named if it has none, which is online; and it leaves the item with the
   status of its word, who gave it, and everything else as it was found.
   */
  lemma DecisionRecorded(s: Relay, e: Event, key: Key)
    requires Forwards(s, e, key)
    ensures var (t, o) := Act(s, e); var was := Found(s, e);
      && was.Some? && key in t.cache && OnlyThis(s, t, key)
      && t.cache[key].status == (match e.decision case "allow" => Allowed case _ => Denied)
      && e.decision in {"allow", "deny"} && t.cache[key].decidedBy == e.who
      && t.cache[key].level == was.value.level == Hook && t.cache[key].dev == was.value.dev
      && o.dev == (if was.value.dev != "" then was.value.dev else e.hint) && o.dev in s.online
  {
  }

  /** A decision that is not forwarded says why, and changes no item but to cache a loaded one. */
  lemma RefusalSaysWhy(s: Relay, e: Event)
    requires (e.EDecide? || e.EDecideLoaded?) && !Forwards(s, e, e.key)
    ensures var (t, o) := Act(s, e); var was := Found(s, e);
      && OnlyThis(s, t, e.key)
      && (o == BadDecision <==> e.decision !in {"allow", "deny"}) && (o == BadDecision ==> t == s)
      && (o != BadDecision && e.key in t.cache ==> was == Some(t.cache[e.key]))
      && (o == NotCached <==> e.decision in {"allow", "deny"} && was == None)
      && (o.Already? ==> was.Some? && was.value.status == o.status != Pending)
      && (o == NotByDecision ==> was.Some? && was.value.status == Pending && was.value.level != Hook)
      && (o == Offline ==> was.Some? && was.value.status == Pending && was.value.level == Hook)
  {
  }

  /** From then on the item keeps the status of the forwarded word, until it is announced or loaded again. */
  lemma WordStays(s: Relay, e: Event, es: seq<Event>, key: Key)
    requires Forwards(s, e, key)
    requires forall f :: f in es ==> !(f.ENew? && f.key == key) && !(f.EDecideLoaded? && f.key == key)
    ensures var t := Run(Act(s, e).0, es);
      && key in t.cache && t.cache[key].decidedBy == e.who
      && t.cache[key].status == (match e.decision case "allow" => Allowed case _ => Denied)
  {
    DecisionRecorded(s, e, key);
    StaysSettled(Act(s, e).0, es, key);
  }

  /** An announcement is cached as it came; a close settles a pending item, and only that. */
  lemma OthersRecorded(s: Relay, key: Key, item: Item, fallback: bool, who: string)
    ensures OnlyThis(s, New(s, key, item), key) && key in New(s, key, item).cache && New(s, key, item).cache[key] == item
    ensures !PendingAt(s, key) ==> Closed(s, key, fallback, who) == s
    ensures PendingAt(s, key) ==>
      var t := Closed(s, key, fallback, who);
      && OnlyThis(s, t, key) && key in t.cache
      && t.cache[key].status == (if fallback then Fallback else ClosedLocal) && t.cache[key].decidedBy == who
      && t.cache[key].level == s.cache[key].level && t.cache[key].dev == s.cache[key].dev
  {
  }

  // ---- exactly when a second decision is forwarded ---------------------------------------

  /** The event announces the key's item as pending, or caches a pending row. */
  predicate Opens(e: Event, key: Key) {
    match e
    case ENew(k, item) => k == key && item.status == Pending
    case EDecideLoaded(k, row, _, _, _) => k == key && row.status == Pending
    case _ => false
  }

  predicate Decidable(item: Item, hint: Dev, online: set<Dev>) {
    item.status == Pending && item.level == Hook && Target(item, hint) in online
  }

  /** An acceptable decision: its word, the item it finds or has loaded, and the device. */
  predicate Wins(s: Relay, e: Event, key: Key) {
    match e
    case EDecide(k, d, _, hint) =>
      k == key && (d == "allow" || d == "deny") && key in s.cache && Decidable(s.cache[key], hint, s.online)
    case EDecideLoaded(k, row, d, _, hint) =>
      k == key && (d == "allow" || d == "deny") && Decidable(row, hint, s.online)
    case _ => false
  }

  lemma WinsForwards(s: Relay, e: Event, key: Key)
    ensures Forwards(s, e, key) <==> Wins(s, e, key)
    ensures Wins(s, e, key) ==> !PendingAt(Act(s, e).0, key)
    ensures PendingAt(Act(s, e).0, key) ==> PendingAt(s, key) || Opens(e, key)
    ensures Wins(s, e, key) ==> PendingAt(s, key) || Opens(e, key)
  {
  }

  /** The state in which event i happens. */
  function At(s: Relay, es: seq<Event>, i: nat): Relay
    requires i <= |es|
    decreases |es|
  {
    if i == 0 then s else At(Act(s, es[0]).0, es[1..], i - 1)
  }

  predicate WinsAt(s: Relay, es: seq<Event>, key: Key, k: nat) {
    k < |es| && Wins(At(s, es, k), es[k], key)
  }

  predicate OpensAt(es: seq<Event>, key: Key, j: nat) {
    j < |es| && Opens(es[j], key)
  }

  lemma Shift(s: Relay, es: seq<Event>, key: Key, k: nat)
    requires es != []
    ensures WinsAt(s, es, key, k + 1) <==> WinsAt(Act(s, es[0]).0, es[1..], key, k)
    ensures OpensAt(es, key, k + 1) <==> OpensAt(es[1..], key, k)
  {
  }

  lemma {:induction false} SomeWin(s: Relay, es: seq<Event>, key: Key)
    requires Forwarded(s, es, key) >= 1
    ensures exists k: nat :: WinsAt(s, es, key, k)
    decreases |es|
  {
    WinsForwards(s, es[0], key);
    if Wins(s, es[0], key) {
      assert WinsAt(s, es, key, 0);
    } else {
      SomeWin(Act(s, es[0]).0, es[1..], key);
      var k: nat :| WinsAt(Act(s, es[0]).0, es[1..], key, k);
      Shift(s, es, key, k);
    }
  }

  lemma {:induction false} WinCounts(s: Relay, es: seq<Event>, key: Key, k: nat)
    requires WinsAt(s, es, key, k)
    ensures Forwarded(s, es, key) >= 1
    decreases |es|
  {
    WinsForwards(s, es[0], key);
    if k > 0 {
      Shift(s, es, key, k - 1);
      WinCounts(Act(s, es[0]).0, es[1..], key, k - 1);
    }
  }

  lemma {:induction false} TwoWinsCount(s: Relay, es: seq<Event>, key: Key, i: nat, k: nat)
    requires i < k && WinsAt(s, es, key, i) && WinsAt(s, es, key, k)
    ensures Forwarded(s, es, key) >= 2
    decreases |es|
  {
    var t := Act(s, es[0]).0;
    WinsForwards(s, es[0], key);
    Shift(s, es, key, k - 1);
    if i == 0 {
      WinCounts(t, es[1..], key, k - 1);
    } else {
      Shift(s, es, key, i - 1);
      TwoWinsCount(t, es[1..], key, i - 1, k - 1);
    }
  }

  /** Only an item that was made pending can be won. */
  lemma {:induction false} OpenedBefore(s: Relay, es: seq<Event>, key: Key, k: nat)
    requires !PendingAt(s, key) && WinsAt(s, es, key, k)
    ensures exists j: nat :: j <= k && OpensAt(es, key, j)
    decreases |es|
  {
    WinsForwards(s, es[0], key);
    if Opens(es[0], key) {
      assert OpensAt(es, key, 0);
    } else {
      Shift(s, es, key, k - 1);
      OpenedBefore(Act(s, es[0]).0, es[1..], key, k - 1);
      var j: nat :| j <= k - 1 && OpensAt(es[1..], key, j);
      Shift(s, es, key, j);
    }
  }

  lemma {:induction false} TwoWins(s: Relay, es: seq<Event>, key: Key)
    requires Forwarded(s, es, key) >= 2
    ensures WonTwice(s, es, key)
    decreases |es|
  {
    var t := Act(s, es[0]).0;
    WinsForwards(s, es[0], key);
    if Wins(s, es[0], key) {
      SomeWin(t, es[1..], key);
      var k: nat :| WinsAt(t, es[1..], key, k);
      OpenedBefore(t, es[1..], key, k);
      var j: nat :| j <= k && OpensAt(es[1..], key, j);
      Shift(s, es, key, j);
      Shift(s, es, key, k);
      assert WinsAt(s, es, key, 0) && OpensAt(es, key, j + 1) && WinsAt(s, es, key, k + 1);
    } else {
      TwoWins(t, es[1..], key);
      var i: nat, j: nat, k: nat :|
        i < j <= k && WinsAt(t, es[1..], key, i) && OpensAt(es[1..], key, j) && WinsAt(t, es[1..], key, k);
      Shift(s, es, key, i);
      Shift(s, es, key, j);
      Shift(s, es, key, k);
      assert WinsAt(s, es, key, i + 1) && OpensAt(es, key, j + 1) && WinsAt(s, es, key, k + 1);
    }
  }

  /** A decision is accepted, the key is made pending again, and another decision is accepted. */
  ghost predicate WonTwice(s: Relay, es: seq<Event>, key: Key) {
    exists i: nat, j: nat, k: nat ::
      i < j <= k && WinsAt(s, es, key, i) && OpensAt(es, key, j) && WinsAt(s, es, key, k)
  }

  /**
   More than one decision on a key is forwarded exactly when after an accepted
   one the key is announced or loaded as pending again, and then, or later,
   another acceptable one comes.
   */
  lemma ForwardedTwiceIff(s: Relay, es: seq<Event>, key: Key)
    ensures Forwarded(s, es, key) >= 2 <==> WonTwice(s, es, key)
  {
    if Forwarded(s, es, key) >= 2 {
      TwoWins(s, es, key);
    }
    if i: nat, j: nat, k: nat :| i < j <= k && WinsAt(s, es, key, i) && OpensAt(es, key, j) && WinsAt(s, es, key, k) {
      TwoWinsCount(s, es, key, i, k);
    }
  }

  /**
   The cache miss does break it: two consoles deciding the same uncached key
   at once both load the pending row, and both decisions are forwarded.
   */
  lemma MissForwardsTwice(key: Key, dev: Dev)
    requires dev != ""
    ensures var row := Item(Hook, Pending, dev, "");
      var es := [EDecideLoaded(key, row, "allow", "web:1", ""), EDecideLoaded(key, row, "deny", "web:2", "")];
      Forwarded(Relay(map[], {dev}), es, key) == 2
  {
    var row := Item(Hook, Pending, dev, "");
    var e1, e2 := EDecideLoaded(key, row, "allow", "web:1", ""), EDecideLoaded(key, row, "deny", "web:2", "");
    var s := Relay(map[], {dev});
    var t := Act(s, e1).0;
    assert [e1, e2][1..] == [e2] && [e2][1..] == [];
    assert Forwards(s, e1, key) && Forwards(t, e2, key);
    assert Forwarded(t, [e2], key) == 1;
  }

  /** Only an item answered through its hook can be allowed or denied. */
  ghost predicate LevelsOk(s: Relay) {
    forall k :: k in s.cache && s.cache[k].level != Hook ==> s.cache[k].status !in {Allowed, Denied}
  }

  ghost predicate SaneInput(e: Event) {
    match e
    case ENew(_, item) => item.level != Hook ==> item.status !in {Allowed, Denied}
    case EDecideLoaded(_, row, _, _, _) => row.level != Hook ==> row.status !in {Allowed, Denied}
    case _ => true
  }

  lemma {:induction false} OnlyHooksAreDecided(s: Relay, es: seq<Event>)
    requires LevelsOk(s) && forall e :: e in es ==> SaneInput(e)
    ensures LevelsOk(Run(s, es))
    decreases |es|
  {
    if es != [] {
      assert SaneInput(es[0]);
      OnlyHooksAreDecided(Act(s, es[0]).0, es[1..]);
    }
  }

  // ---- as it runs ---------------------------------------------------------------------

  class Inbox {
    var approvals: map<Key, Item>
    var online: set<Dev>

    ghost function View(): Relay
      reads this
    {
      Relay(approvals, online)
    }

    method OnNew(key: Key, item: Item)
      modifies this`approvals
      ensures View() == New(old(View()), key, item)
    {
      approvals := approvals[key := item];
    }

    method OnClosed(key: Key, fallback: bool, who: string) returns (changed: bool)
      modifies this`approvals
      ensures View() == Closed(old(View()), key, fallback, who)
      ensures changed <==> PendingAt(old(View()), key)
    {
      changed := false;
      if key in approvals && approvals[key].status == Pending {
        var a := approvals[key].(status := ClosedLocal);
        if fallback {
          a := a.(status := Fallback);
        }
        approvals := approvals[key := a.(decidedBy := who)];
        changed := true;
      }
    }

    method DecideApproval(key: Key, decision: string, who: string, hint: Dev, row: Option<Item>) returns (o: Outcome)
      modifies this`approvals
      ensures (View(), o) ==
        if key in old(approvals) || row.None? then DecideCached(old(View()), key, decision, who, hint)
        else DecideLoaded(old(View()), key, row.value, decision, who, hint)
    {
      if decision != "allow" && decision != "deny" {
        return BadDecision;
      }
      if key !in approvals {
        if row.None? {
          return NotCached;
        }
        approvals := approvals[key := row.value];
      }
      var a := approvals[key];
      if a.status != Pending {
        return Already(a.status);
      }
      if a.level != Hook {
        return NotByDecision;
      }
      var dev := a.dev;
      if dev == "" {
        dev := hint;
      }
      if dev !in online {
        return Offline;
      }
      a := a.(status := if decision == "deny" then Denied else Allowed, decidedBy := who);
      approvals := approvals[key := a];
      return Forward(dev);
    }
  }
}
