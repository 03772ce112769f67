/** The approval store as it runs, method by method, against module Approvals. */
module ApprovalStore {
  import opened Wrappers
  import opened Approvals

  class Store {
    var objects: seq<Object> // every pending object ever created; a handler holds an index
    var items: map<Key, nat>

    ghost function View(): State
      reads this
    {
      State(objects, items)
    }

    ghost predicate Valid()
      reads this
    {
      Inv(View())
    }

    constructor ()
      ensures Valid() && View() == EMPTY
    {
      objects, items := [], map[];
    }

    method Add(a: Approval, now: int) returns (stored: Approval, dup: bool)
      requires Valid()
      modifies this
      ensures Valid() && View() == Approvals.Add(old(View()), a, now)
      ensures dup <==> Duplicate(old(View()), a.key, now)
      ensures a.key in items && stored == objects[items[a.key]].a && stored.status == Pending
    {
      StepKeeps(View(), EAdd(a, now));
      if a.key in items && objects[items[a.key]].a.status == Pending {
        if now - objects[items[a.key]].a.createdAt < DEDUPE {
          return objects[items[a.key]].a, true;
        }
      }
      stored := a.(status := Pending);
      var o := Object(stored, None, []);
      if stored.level == Hook {
        o := o.(ch := Some([]));
      }
      items := items[a.key := |objects|];
      objects := objects + [o];
      dup := false;
    }

    /** The current object's approval and the channel a handler would wait on. */
    method Wait(key: Key) returns (i: nat, ok: bool)
      requires Valid()
      ensures ok <==> key in items && objects[items[key]].a.level == Hook
      ensures ok ==> i == items[key] && objects[i].ch.Some?
    {
      if key !in items || objects[items[key]].ch.None? {
        return 0, false;
      }
      return items[key], true;
    }

    method Decide(key: Key, decision: string, who: string, msg: Option<nat>, now: int) returns (a: Option<Approval>)
      requires Valid()
      modifies this`objects
      ensures Valid() && View() == Approvals.Decide(old(View()), key, decision, who, msg, now)
      ensures a.Some? <==> IsPending(old(View()), key)
      ensures a.Some? ==> a.value == objects[items[key]].a && a.value.status == Verdict(decision)
    {
      StepKeeps(View(), EDecide(key, decision, who, msg, now));
      if key !in items || objects[items[key]].a.status != Pending {
        return None;
      }
      var o := objects[items[key]];
      if decision == "allow" {
        o := o.(a := o.a.(status := Allowed));
      } else {
        o := o.(a := o.a.(status := Denied));
      }
      o := o.(a := o.a.(decidedBy := who, decidedAt := Some(now)));
      o := Send(o, Decision(decision, who, msg));
      objects := objects[items[key] := o];
      return Some(o.a);
    }

    method Close(key: Key, status: Status, who: string, now: int) returns (a: Option<Approval>)
      requires Valid() && status in {ClosedLocal, Fallback}
      modifies this`objects
      ensures Valid() && View() == Approvals.Close(old(View()), key, status, who, now)
      ensures a.Some? <==> IsPending(old(View()), key)
      ensures a.Some? ==> a.value == objects[items[key]].a && a.value.status == status
    {
      StepKeeps(View(), EClose(key, status == Fallback, who, now));
      if key !in items || objects[items[key]].a.status != Pending {
        return None;
      }
      var o := objects[items[key]];
      o := o.(a := o.a.(status := status, decidedBy := who, decidedAt := Some(now)));
      o := Send(o, NO_DECISION);
      objects := objects[items[key] := o];
      return Some(o.a);
    }

    /** The keys of a session's pending approvals, in no particular order. */
    method PendingForSession(sid: Sid) returns (keys: set<Key>)
      requires Valid()
      ensures keys == set k | k in items && InSession(View(), items[k], sid)
    {
      keys := {};
      var todo := items.Keys;
      while todo != {}
        invariant todo <= items.Keys
        invariant keys == set k | k in items && k !in todo && InSession(View(), items[k], sid)
        decreases todo
      {
        var k :| k in todo;
        if objects[items[k]].a.status == Pending && objects[items[k]].a.sid == sid {
          keys := keys + {k};
        }
        todo := todo - {k};
      }
    }

    /** Close a key that was pending in s and has not been closed since. */
    method CloseNext(ghost s: State, ghost closed: set<Key>, k: Key, status: Status, who: string, now: int)
      returns (a: Option<Approval>)
      requires Valid() && Inv(s) && status in {ClosedLocal, Fallback} && View() == CloseSome(s, closed, status, who, now)
      requires k !in closed && IsPending(s, k)
      modifies this`objects
      ensures Valid() && View() == CloseSome(s, closed + {k}, status, who, now) && a.Some?
    {
      CloseOneMore(s, closed, k, status, who, now);
      a := Close(k, status, who, now);
    }

    method CloseKeys(ghost s: State, keys: set<Key>, status: Status, who: string, now: int) returns (closed: set<Key>)
      requires Valid() && View() == s && status in {ClosedLocal, Fallback}
      requires forall k :: k in keys ==> IsPending(s, k)
      modifies this`objects
      ensures Valid() && View() == CloseSome(s, keys, status, who, now) && closed == keys
    {
      closed := {};
      var todo := keys;
      while todo != {}
        invariant todo <= keys && closed == keys - todo
        invariant Valid() && View() == CloseSome(s, closed, status, who, now)
        modifies this`objects
        decreases todo
      {
        var k :| k in todo;
        OneLess(keys, todo, k);
        var a := CloseNext(s, closed, k, status, who, now);
        if a.Some? {
          closed := closed + {k};
        }
        todo := todo - {k};
      }
      assert keys - todo == keys;
    }

    method CloseSession(sid: Sid, status: Status, who: string, now: int) returns (closed: set<Key>)
      requires Valid() && status in {ClosedLocal, Fallback}
      modifies this`objects
      ensures Valid() && View() == Approvals.CloseSession(old(View()), sid, status, who, now)
      ensures closed == set k | k in items && InSession(old(View()), items[k], sid)
    {
      ghost var s := View();
      var keys := PendingForSession(sid);
      closed := CloseKeys(s, keys, status, who, now);
      CloseSomeIsSession(s, closed, sid, status, who, now);
    }

    method Sweep(maxAge: int, now: int)
      requires Valid()
      modifies this`items
      ensures Valid() && View() == Approvals.Sweep(old(View()), maxAge, now)
    {
      StepKeeps(View(), ESweep(maxAge, now));
      ghost var all := items;
      var todo := items.Keys;
      while todo != {}
        invariant todo <= items.Keys <= all.Keys
        invariant forall k :: k in items ==> items[k] == all[k]
        invariant forall k :: k in all ==>
          (k in items <==> k in todo || !TooOld(objects[all[k]].a, maxAge, now))
        modifies this`items
        decreases todo
      {
        var k :| k in todo;
        if TooOld(objects[items[k]].a, maxAge, now) {
          items := items - {k};
        }
        todo := todo - {k};
      }
      assert items == all - Finished(old(View()), maxAge, now);
    }
  }

  /** The objects of a set of keys closed, one after the other. */
  ghost function CloseSome(s: State, keys: set<Key>, status: Status, who: string, now: int): State {
    s.(objects := seq(|s.objects|, i requires 0 <= i < |s.objects| =>
        if IsCurrent(s, i) && s.objects[i].a.key in keys
        then Settle(s.objects[i], status, who, now, NO_DECISION) else s.objects[i]))
  }

  lemma OneLess(keys: set<Key>, todo: set<Key>, k: Key)
    requires k in todo && todo <= keys
    ensures k !in keys - todo && (keys - todo) + {k} == keys - (todo - {k})
  {
  }

  predicate IsCurrent(s: State, i: nat) {
    i < |s.objects| && s.objects[i].a.key in s.items && s.items[s.objects[i].a.key] == i
  }

  lemma CloseOneMore(s: State, keys: set<Key>, k: Key, status: Status, who: string, now: int)
    requires Inv(s) && k !in keys && IsPending(s, k)
    ensures IsPending(CloseSome(s, keys, status, who, now), k)
    ensures Close(CloseSome(s, keys, status, who, now), k, status, who, now) == CloseSome(s, keys + {k}, status, who, now)
  {
    var m, t := CloseSome(s, keys, status, who, now), CloseSome(s, keys + {k}, status, who, now);
    var i := s.items[k];
    assert m.objects[i] == s.objects[i];
    assert m.objects[i := Settle(s.objects[i], status, who, now, NO_DECISION)] == t.objects;
  }

  lemma CloseSomeIsSession(s: State, keys: set<Key>, sid: Sid, status: Status, who: string, now: int)
    requires Inv(s) && keys == set k | k in s.items && InSession(s, s.items[k], sid)
    ensures CloseSome(s, keys, status, who, now) == CloseSession(s, sid, status, who, now)
  {
    var l, r := CloseSome(s, keys, status, who, now), CloseSession(s, sid, status, who, now);
    forall i | 0 <= i < |s.objects| ensures l.objects[i] == r.objects[i] {
      assert InSession(s, i, sid) <==> IsCurrent(s, i) && s.objects[i].a.key in keys;
    }
  }
}
