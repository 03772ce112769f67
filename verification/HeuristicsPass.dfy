/** The agent's heuristics pass as it runs: a loop over the sessions that updates its maps. */
module HeuristicsPass {
  import opened Approvals
  import Heuristic
  import S = Suspicion

  function Ticks(ts: seq<(Sid, Heuristic.Reading)>): seq<S.Event> {
    seq(|ts|, i requires 0 <= i < |ts| => S.Tick(ts[i].0, ts[i].1))
  }

  class Agent {
    var heur: map<Sid, Heuristic.State>
    var ptyKeys: map<Sid, Key>
    var store: Approvals.State

    ghost function View(): S.State
      reads this
    {
      S.State.State(heur, ptyKeys, store)
    }

    /** One pass over the sessions, in whatever order the map gives them. */
    method RunHeuristics(ts: seq<(Sid, Heuristic.Reading)>, key: S.KeyOf)
      modifies this
      ensures View() == S.Run(old(View()), Ticks(ts), key)
    {
      var i := 0;
      while i < |ts|
        invariant 0 <= i <= |ts|
        invariant S.Run(View(), Ticks(ts)[i..], key) == S.Run(old(View()), Ticks(ts), key)
      {
        ghost var before := View();
        var (sid, r) := ts[i];
        if sid in heur {
          var (h, v) := Heuristic.Evaluate(heur[sid], r);
          heur := heur[sid := h];
          match v {
            case Suspect =>
              var ap := S.Guess(sid, key(sid, r.line), r.now);
              store := Add(store, ap, r.now);
              ptyKeys := ptyKeys[sid := ap.key];
            case Cleared =>
              var k := if sid in ptyKeys then ptyKeys[sid] else "";
              ptyKeys := ptyKeys - {sid};
              store := Close(store, k, ClosedLocal, "output", r.now);
            case _ =>
          }
        }
        assert View() == S.Step(before, Ticks(ts)[i], key);
        assert Ticks(ts)[i..][1..] == Ticks(ts)[i + 1..];
        i := i + 1;
      }
    }
  }
}
