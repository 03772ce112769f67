/**
 Process generations of one session: every shell, or tmux client, that was
 started for it, how its end is noticed, and how it is replaced by re-attach
 or by kill-and-resume. Each step is what the program does between taking and
 leaving the session's lock.
 */
module Generations {
  import opened Wrappers

  /** Attempting: between the decision whether to give up and the spawn. */
  datatype Phase = Running | Checked(superseded: bool) | Reattaching | Attempting(giveUp: bool) | Ended

  /**
   The rest is bookkeeping: what the exit check found, the calls of OnExit, the
   place of its re-attach decision in the log, and the generation it was
   re-attached as.
   */
  datatype Gen = Gen(phase: Phase, checked: Option<bool>, exits: nat, attempt: Option<nat>, heir: Option<nat>)

  const FRESH := Gen(Running, None, 0, None, None)

  /** A kill-and-resume under way, and what it saw when it began. */
  datatype Kill = Kill(old_: Option<nat>, alive: bool)

  /** log is bookkeeping: for each re-attach decision whether the client died young, and whether another was tried. */
  datatype Attempt = Attempt(young: bool, tried: bool)

  datatype State = State(gens: seq<Gen>, cur: Option<nat>, killing: Option<Kill>, closed: bool, alive: bool,
                         persist: bool, fast: nat, log: seq<Attempt>, stream: seq<int>)

  datatype Event =
    | Emit(data: seq<int>)
    | Check(g: nat)                     // the process was reaped: superseded?
    | Finish(g: nat, tmuxAlive: bool)   // re-attach, or exit
    | Count(g: nat, young: bool)        // lived under 5 seconds?
    | Attach(g: nat, ok: bool)
    | KillBegin
    | KillSpawn(ok: bool, banner: seq<int>)
    | Close                             // or Suspend

  const MAX_FAST := 3

  function Initial(persist: bool): State {
    State([FRESH], Some(0), None, false, true, persist, 0, [], [])
  }

  predicate In(s: State, g: nat, p: Phase) {
    g < |s.gens| && s.gens[g].phase == p
  }

  /** The exited channel is closed. */
  predicate Exited(s: State, g: nat) {
    g < |s.gens| && (s.gens[g].phase.Reattaching? || s.gens[g].phase.Attempting? || s.gens[g].phase.Ended?)
  }

  predicate CanSpawn(s: State) {
    s.killing.Some? && (s.killing.value.old_.None? || !s.killing.value.alive || Exited(s, s.killing.value.old_.value))
  }

  function WithPhase(s: State, g: nat, p: Phase): State
    requires g < |s.gens|
  {
    s.(gens := s.gens[g := s.gens[g].(phase := p)])
  }

  /** The generation is over, and OnExit is called. */
  function Report(s: State, g: nat): State
    requires g < |s.gens|
  {
    s.(gens := s.gens[g := s.gens[g].(phase := Ended, exits := s.gens[g].exits + 1)], alive := false)
  }

  /** Spawn and publish. */
  function Spawn(s: State): State {
    s.(gens := s.gens + [FRESH], cur := Some(|s.gens|), alive := true)
  }

  function CheckStep(s: State, g: nat): State
    requires g < |s.gens|
  {
    var superseded := s.cur != Some(g) || s.killing.Some? || s.closed;
    s.(gens := s.gens[g := s.gens[g].(phase := Checked(superseded), checked := Some(superseded))])
  }

  function FinishStep(s: State, g: nat, tmuxAlive: bool): State
    requires g < |s.gens| && s.gens[g].phase.Checked?
  {
    if s.gens[g].phase.superseded then WithPhase(s, g, Ended)
    else if s.persist && tmuxAlive then WithPhase(s, g, Reattaching)
    else Report(s, g)
  }

  function CountStep(s: State, g: nat, young: bool): State
    requires g < |s.gens|
  {
    var fast := if young then s.fast + 1 else 0;
    s.(fast := fast, log := s.log + [Attempt(young, fast <= MAX_FAST)],
       gens := s.gens[g := s.gens[g].(phase := Attempting(fast > MAX_FAST), attempt := Some(|s.log|))])
  }

  function AttachStep(s: State, g: nat, ok: bool): State
    requires g < |s.gens| && s.gens[g].phase.Attempting?
  {
    if !s.gens[g].phase.giveUp && ok
    then Spawn(s.(gens := s.gens[g := s.gens[g].(phase := Ended, heir := Some(|s.gens|))]))
    else Report(s, g)
  }

  function KillSpawnStep(s: State, ok: bool, banner: seq<int>): State {
    var t := s.(killing := None, stream := s.stream + banner);
    if ok then Spawn(t) else t.(cur := None, alive := false)
  }

  function Step(s: State, e: Event): State {
    match e
    case Emit(data) => s.(stream := s.stream + data)
    case Check(g) => if In(s, g, Running) then CheckStep(s, g) else s
    case Finish(g, tmuxAlive) => if g < |s.gens| && s.gens[g].phase.Checked? then FinishStep(s, g, tmuxAlive) else s
    case Count(g, young) => if In(s, g, Reattaching) then CountStep(s, g, young) else s
    case Attach(g, ok) => if g < |s.gens| && s.gens[g].phase.Attempting? then AttachStep(s, g, ok) else s
    case KillBegin => if s.closed || s.killing.Some? then s else s.(killing := Some(Kill(s.cur, s.alive)))
    case KillSpawn(ok, banner) => if CanSpawn(s) then KillSpawnStep(s, ok, banner) else s
    case Close => if s.closed then s else s.(closed := true, alive := false)
  }

  function Run(s: State, es: seq<Event>): State
    decreases |es|
  {
    if es == [] then s else Run(Step(s, es[0]), es[1..])
  }

  // ---- OnExit --------------------------------------------------------------------------------------

  ghost predicate GenOk(x: Gen) {
    && x.exits <= 1
    && (x.exits == 1 ==> x.phase == Ended && x.checked == Some(false) && x.heir == None)
    && (x.heir.Some? ==> x.phase == Ended && x.checked == Some(false))
    && (x.phase == Ended && x.checked == Some(false) ==> x.exits == 1 || x.heir.Some?)
    && (match x.phase
        case Running => x.checked == None
        case Checked(sup) => x.checked == Some(sup)
        case Reattaching => x.checked == Some(false)
        case Attempting(_) => x.checked == Some(false)
        case Ended => x.checked.Some?)
  }

  ghost predicate GensOk(s: State) {
    && (forall g :: 0 <= g < |s.gens| ==> GenOk(s.gens[g]))
    && (s.cur.Some? ==> s.cur.value < |s.gens|)
  }

  /** What a step may do to the generations there are. */
  ghost predicate Carries(s: State, t: State) {
    && |s.gens| <= |t.gens| && s.stream <= t.stream
    && forall g :: 0 <= g < |s.gens| && s.gens[g].checked.Some? ==> t.gens[g].checked == s.gens[g].checked
  }

  lemma AttachGens(s: State, g: nat, ok: bool)
    requires GensOk(s) && g < |s.gens| && s.gens[g].phase.Attempting?
    ensures GensOk(AttachStep(s, g, ok)) && Carries(s, AttachStep(s, g, ok))
  {
    assert GenOk(s.gens[g]);
  }

  lemma FinishGens(s: State, g: nat, tmuxAlive: bool)
    requires GensOk(s) && g < |s.gens| && s.gens[g].phase.Checked?
    ensures GensOk(FinishStep(s, g, tmuxAlive)) && Carries(s, FinishStep(s, g, tmuxAlive))
  {
    assert GenOk(s.gens[g]);
  }

  lemma StepGens(s: State, e: Event)
    requires GensOk(s)
    ensures GensOk(Step(s, e)) && Carries(s, Step(s, e))
  {
    match e
    case Attach(g, ok) => if g < |s.gens| && s.gens[g].phase.Attempting? { AttachGens(s, g, ok); }
    case Finish(g, tmuxAlive) => if g < |s.gens| && s.gens[g].phase.Checked? { FinishGens(s, g, tmuxAlive); }
    case Count(g, young) => if In(s, g, Reattaching) { CountGens(s, g, young); }
    case KillSpawn(ok, banner) => KillSpawnGens(s, ok, banner);
    case _ =>
  }

  lemma CountGens(s: State, g: nat, young: bool)
    requires GensOk(s) && In(s, g, Reattaching)
    ensures GensOk(CountStep(s, g, young)) && Carries(s, CountStep(s, g, young))
  {
    assert GenOk(s.gens[g]);
  }

  lemma KillSpawnGens(s: State, ok: bool, banner: seq<int>)
    requires GensOk(s)
    ensures GensOk(KillSpawnStep(s, ok, banner)) && Carries(s, KillSpawnStep(s, ok, banner))
  {
  }

  lemma {:induction false} RunGens(s: State, es: seq<Event>)
    requires GensOk(s)
    ensures GensOk(Run(s, es)) && Carries(s, Run(s, es))
    decreases |es|
  {
    if es != [] {
      StepGens(s, es[0]);
      RunGens(Step(s, es[0]), es[1..]);
    }
  }

  /**
   In every run each generation reports its exit at most once; one whose exit
   is checked while a kill is under way, or after close, never does; and what
   the session's stream held stays, through every generation.
   */
  lemma ExitsOnce(before: seq<Event>, after: seq<Event>, persist: bool, g: nat)
    ensures var s := Run(Initial(persist), before);
      && (g < |s.gens| ==> s.gens[g].exits <= 1)
      && (In(s, g, Running) && (s.killing.Some? || s.closed) ==>
        var t := Run(Step(s, Check(g)), after); g < |t.gens| && t.gens[g].exits == 0)
      && s.stream <= Run(s, after).stream
  {
    var s := Run(Initial(persist), before);
    RunGens(Initial(persist), before);
    RunGens(s, after);
    if In(s, g, Running) && (s.killing.Some? || s.closed) {
      StepGens(s, Check(g));
      RunGens(Step(s, Check(g)), after);
      assert GenOk(Run(Step(s, Check(g)), after).gens[g]);
    }
  }

  /** What the check finds, for the current process of a session that is neither being killed nor closed, and for any other. */
  lemma CheckSees(s: State, g: nat)
    requires In(s, g, Running)
    ensures var t := Step(s, Check(g));
      && (s.cur == Some(g) && s.killing == None && !s.closed ==> In(t, g, Checked(false)))
      && (s.cur != Some(g) || s.killing != None || s.closed ==> In(t, g, Checked(true)))
      && t.gens[g].checked == Some(t.gens[g].phase.superseded) && t.cur == s.cur && t.alive == s.alive
  {
  }

  /** Nothing else than this generation may differ. */
  ghost predicate OthersSame(s: State, t: State, g: nat) {
    && |s.gens| <= |t.gens| && (forall h :: 0 <= h < |s.gens| && h != g ==> t.gens[h] == s.gens[h])
    && t.killing == s.killing && t.closed == s.closed && t.stream == s.stream
  }

  /**
   A process that ends by itself, with no tmux session behind it, is reported
   and the session is marked dead.
   */
  lemma ExitIsReported(s: State, g: nat, tmuxAlive: bool)
    requires In(s, g, Running) && s.gens[g].exits == 0 && s.cur == Some(g) && s.killing == None && !s.closed
    requires !s.persist || !tmuxAlive
    ensures var t := Step(Step(s, Check(g)), Finish(g, tmuxAlive));
      In(t, g, Ended) && t.gens[g].exits == 1 && !t.alive && t.cur == s.cur && |t.gens| == |s.gens| && OthersSame(s, t, g)
  {
  }

  /** A tmux client that is lost is not; and neither is a process that was superseded. */
  lemma OthersAreNot(s: State, g: nat, tmuxAlive: bool)
    requires g < |s.gens| && s.gens[g].phase.Checked? && (s.gens[g].phase.superseded || (s.persist && tmuxAlive))
    ensures var t := Step(s, Finish(g, tmuxAlive));
      && t.gens[g].exits == s.gens[g].exits && t.alive == s.alive && t.cur == s.cur && |t.gens| == |s.gens|
      && In(t, g, if s.gens[g].phase.superseded then Ended else Reattaching) && OthersSame(s, t, g)
  {
  }

  /** A re-attach puts another client in the place of the lost one; one that gives up or fails is reported. */
  lemma ReattachOrReport(s: State, g: nat, ok: bool)
    requires g < |s.gens| && s.gens[g].phase.Attempting?
    ensures var t := Step(s, Attach(g, ok));
      && In(t, g, Ended) && OthersSame(s, t, g)
      && if ok && s.gens[g].phase == Attempting(false)
         then |t.gens| == |s.gens| + 1 && t.gens[|s.gens|] == FRESH && t.cur == Some(|s.gens|) && t.alive &&
              t.gens[g].exits == s.gens[g].exits && t.gens[g].heir == t.cur
         else |t.gens| == |s.gens| && t.gens[g].exits == s.gens[g].exits + 1 && !t.alive && t.cur == s.cur
  {
  }

  /** The end of kill-and-resume: another process, or a dead session; and the banner is in the stream. */
  lemma ResumeOrFail(s: State, ok: bool, banner: seq<int>)
    requires CanSpawn(s)
    ensures var t := Step(s, KillSpawn(ok, banner));
      && t.killing == None && t.stream == s.stream + banner && t.gens[..|s.gens|] == s.gens
      && if ok then |t.gens| == |s.gens| + 1 && t.gens[|s.gens|] == FRESH && t.cur == Some(|s.gens|) && t.alive
         else |t.gens| == |s.gens| && t.cur == None && !t.alive
  {
  }

  /**
   In every run a process that ended by itself, as its check found, has been
   reported exactly once, unless another client took its place.
   */
  lemma EveryExitReported(es: seq<Event>, persist: bool, g: nat)
    requires var s := Run(Initial(persist), es); In(s, g, Ended) && s.gens[g].checked == Some(false)
    ensures var x := Run(Initial(persist), es).gens[g]; x.exits == (if x.heir == None then 1 else 0)
  {
    RunGens(Initial(persist), es);
    assert GenOk(Run(Initial(persist), es).gens[g]);
  }

  // ---- re-attaching ---------------------------------------------------------------------------------

  /** How many clients in a row, up to now, died young. */
  function YoungRun(log: seq<Attempt>): nat {
    if log == [] || !log[|log| - 1].young then 0 else 1 + YoungRun(log[..|log| - 1])
  }

  ghost predicate LogOk(s: State) {
    && s.fast == YoungRun(s.log)
    && forall i :: 0 <= i < |s.log| ==> (s.log[i].tried <==> YoungRun(s.log[..i + 1]) <= MAX_FAST)
  }

  lemma StepLog(s: State, e: Event)
    requires LogOk(s)
    ensures LogOk(Step(s, e))
  {
    var t := Step(s, e);
    if e.Count? && In(s, e.g, Reattaching) {
      LogGrows(s, t, e.young);
    }
  }

  lemma LogGrows(s: State, t: State, young: bool)
    requires LogOk(s) && t.fast == (if young then s.fast + 1 else 0)
    requires t.log == s.log + [Attempt(young, t.fast <= MAX_FAST)]
    ensures LogOk(t)
  {
    assert t.log[..|s.log|] == s.log;
    forall i | 0 <= i < |t.log| ensures t.log[i].tried <==> YoungRun(t.log[..i + 1]) <= MAX_FAST {
      if i < |s.log| {
        assert t.log[..i + 1] == s.log[..i + 1];
      } else {
        assert t.log[..i + 1] == t.log;
      }
    }
  }

  lemma {:induction false} RunLog(s: State, es: seq<Event>)
    requires LogOk(s)
    ensures LogOk(Run(s, es))
    decreases |es|
  {
    if es != [] {
      StepLog(s, es[0]);
      RunLog(Step(s, es[0]), es[1..]);
    }
  }

  lemma {:induction false} YoungRunGrows(log: seq<Attempt>, i: nat, j: nat)
    requires i <= j < |log| && forall k :: i <= k <= j ==> log[k].young
    ensures YoungRun(log[..j + 1]) >= j - i + 1
    decreases j
  {
    assert log[..j + 1][..j] == log[..j];
    if i < j {
      YoungRunGrows(log, i, j - 1);
    }
  }

  /** A lost client's decision is in the log, it gives up if it was not to try, and it has an heir only if it was. */
  ghost predicate AttemptOk(x: Gen, log: seq<Attempt>) {
    && (x.attempt.Some? ==> x.attempt.value < |log|)
    && (x.phase.Attempting? ==> x.attempt.Some? && (log[x.attempt.value].tried <==> !x.phase.giveUp))
    && (x.heir.Some? ==> x.attempt.Some? && log[x.attempt.value].tried)
    && (x.phase.Running? || x.phase.Checked? || x.phase.Reattaching? ==> x.attempt == None)
  }

  ghost predicate AttemptsOk(s: State) {
    && (forall g :: 0 <= g < |s.gens| ==> AttemptOk(s.gens[g], s.log))
    && (forall g, h :: 0 <= g < h < |s.gens| && s.gens[g].attempt.Some? ==> s.gens[g].attempt != s.gens[h].attempt)
  }

  /** One generation changed, within what is asked of it; a fresh one may have been added, and a decision logged. */
  lemma OneAttempt(s: State, t: State, g: nat, x: Gen, more: seq<Gen>)
    requires AttemptsOk(s) && g < |s.gens| && (more == [] || more == [FRESH]) && t.gens == s.gens[g := x] + more
    requires s.log <= t.log && AttemptOk(x, t.log)
    requires x.attempt == s.gens[g].attempt || x.attempt == Some(|s.log|)
    ensures AttemptsOk(t)
  {
    forall h | 0 <= h < |t.gens| ensures AttemptOk(t.gens[h], t.log) {
      if h < |s.gens| {
        assert AttemptOk(s.gens[h], s.log);
      }
    }
  }

  lemma CountAttempts(s: State, g: nat, young: bool)
    requires AttemptsOk(s) && In(s, g, Reattaching)
    ensures AttemptsOk(CountStep(s, g, young))
  {
    var t := CountStep(s, g, young);
    assert t.gens == s.gens[g := t.gens[g]] + [];
    OneAttempt(s, t, g, t.gens[g], []);
  }

  lemma AttachAttempts(s: State, g: nat, ok: bool)
    requires AttemptsOk(s) && g < |s.gens| && s.gens[g].phase.Attempting?
    ensures AttemptsOk(AttachStep(s, g, ok))
  {
    var t := AttachStep(s, g, ok);
    var more := t.gens[|s.gens|..];
    assert AttemptOk(s.gens[g], s.log);
    assert t.gens == s.gens[g := t.gens[g]] + more;
    OneAttempt(s, t, g, t.gens[g], more);
  }

  lemma FinishAttempts(s: State, t: State, g: nat)
    requires AttemptsOk(s) && g < |s.gens| == |t.gens| && t.log == s.log && t.gens == s.gens[g := t.gens[g]]
    requires s.gens[g].attempt == t.gens[g].attempt == None && t.gens[g].heir == s.gens[g].heir && !t.gens[g].phase.Attempting?
    ensures AttemptsOk(t)
  {
    assert AttemptOk(s.gens[g], s.log);
    assert t.gens == s.gens[g := t.gens[g]] + [];
    OneAttempt(s, t, g, t.gens[g], []);
  }

  lemma StepAttempts(s: State, e: Event)
    requires AttemptsOk(s)
    ensures AttemptsOk(Step(s, e))
  {
    match e
    case Check(g) =>
      if In(s, g, Running) {
        assert AttemptOk(s.gens[g], s.log);
        FinishAttempts(s, CheckStep(s, g), g);
      }
    case Finish(g, tmuxAlive) =>
      if g < |s.gens| && s.gens[g].phase.Checked? {
        assert AttemptOk(s.gens[g], s.log);
        FinishAttempts(s, FinishStep(s, g, tmuxAlive), g);
      }
    case Count(g, young) => if In(s, g, Reattaching) { CountAttempts(s, g, young); }
    case Attach(g, ok) => if g < |s.gens| && s.gens[g].phase.Attempting? { AttachAttempts(s, g, ok); }
    case KillSpawn(ok, banner) => KillSpawnAttempts(s, ok, banner);
    case _ =>
  }

  lemma KillSpawnAttempts(s: State, ok: bool, banner: seq<int>)
    requires AttemptsOk(s)
    ensures AttemptsOk(KillSpawnStep(s, ok, banner))
  {
    var t := KillSpawnStep(s, ok, banner);
    forall g | 0 <= g < |t.gens| ensures AttemptOk(t.gens[g], t.log) {
      if g < |s.gens| {
        assert AttemptOk(s.gens[g], s.log);
      }
    }
  }

  lemma {:induction false} RunAttempts(s: State, es: seq<Event>)
    requires AttemptsOk(s)
    ensures AttemptsOk(Run(s, es))
    decreases |es|
  {
    if es != [] {
      StepAttempts(s, es[0]);
      RunAttempts(Step(s, es[0]), es[1..]);
    }
  }

  /** Every client that took another's place was put there by a decision of its own to try once more. */
  lemma HeirsWereTried(es: seq<Event>, persist: bool)
    ensures var s := Run(Initial(persist), es);
      forall g, h :: 0 <= g < h < |s.gens| && s.gens[g].heir.Some? && s.gens[h].heir.Some? ==>
        var a, b := s.gens[g].attempt, s.gens[h].attempt;
        a.Some? && b.Some? && a != b && a.value < |s.log| && b.value < |s.log| && s.log[a.value].tried && s.log[b.value].tried
  {
    RunAttempts(Initial(persist), es);
    var s := Run(Initial(persist), es);
    assert forall g :: 0 <= g < |s.gens| ==> AttemptOk(s.gens[g], s.log);
  }

  lemma {:induction false} YoungRunIs(log: seq<Attempt>, n: nat)
    requires n <= |log|
    ensures YoungRun(log) >= n <==> forall k :: |log| - n <= k < |log| ==> log[k].young
    decreases n
  {
    if n > 0 {
      var less := log[..|log| - 1];
      YoungRunIs(less, n - 1);
      assert forall k :: |log| - n <= k < |less| ==> less[k] == log[k];
    }
  }

  lemma {:induction false} YoungRunAtMost(log: seq<Attempt>)
    ensures YoungRun(log) <= |log|
  {
    if log != [] {
      YoungRunAtMost(log[..|log| - 1]);
    }
  }

  /** In every run: giving up is decided exactly when this client and the three before it all died young. */
  lemma CountDecides(es: seq<Event>, persist: bool, g: nat, young: bool)
    requires In(Run(Initial(persist), es), g, Reattaching)
    ensures var s := Run(Initial(persist), es); var t := Step(s, Count(g, young)); var n := |s.log|;
      && |t.log| == n + 1 && t.log[..n] == s.log && t.log[n].young == young && In(t, g, Attempting(!t.log[n].tried))
      && (!t.log[n].tried <==> young && n >= 3 && forall k :: n - 3 <= k < n ==> s.log[k].young)
      && OthersSame(s, t, g) && t.gens[g].exits == s.gens[g].exits && t.alive == s.alive && t.cur == s.cur
  {
    RunLog(Initial(persist), es);
    var s := Run(Initial(persist), es);
    YoungRunAtMost(s.log);
    if |s.log| >= 3 {
      YoungRunIs(s.log, 3);
    }
  }

  /** A kill that finds a live process waits for its end; a close leaves everything but whether the session is alive. */
  lemma KillWaits(s: State, e: Event)
    requires (e.KillBegin? || e.Close?) && !s.closed && (e.KillBegin? ==> s.killing == None)
    ensures var t := Step(s, e);
      && t.gens == s.gens && t.cur == s.cur && t.stream == s.stream && t.closed == e.Close? && t.alive == (s.alive && !e.Close?)
      && (e.KillBegin? ==> t.killing.Some? && (CanSpawn(t) <==> (s.alive && s.cur.Some? ==> Exited(s, s.cur.value))))
      && (e.Close? ==> t.killing == s.killing)
  {
  }

  /** Of clients in a row that die young, only the first three are ever replaced. */
  lemma AtMostThreeInARow(es: seq<Event>, persist: bool, i: nat, j: nat)
    requires var log := Run(Initial(persist), es).log;
      i <= j < |log| && (forall k :: i <= k <= j ==> log[k].young) && log[j].tried
    ensures j - i + 1 <= MAX_FAST
  {
    RunLog(Initial(persist), es);
    YoungRunGrows(Run(Initial(persist), es).log, i, j);
  }

  // ---- one generation at a time -----------------------------------------------------------------------

  /** An exit that may still end in a re-attach. */
  predicate Mending(s: State, g: nat) {
    g < |s.gens| &&
    match s.gens[g].phase
    case Checked(superseded) => !superseded && s.persist
    case Reattaching => true
    case Attempting(_) => true
    case _ => false
  }

  /** One that may end in a new client: giving up is not decided. */
  predicate CurMaySpawn(s: State) {
    CurMending(s) && s.gens[s.cur.value].phase != Attempting(true)
  }

  predicate CurMending(s: State) {
    s.cur.Some? && Mending(s, s.cur.value)
  }

  /**
   Only the current generation is not over, the alive flag does not miss it,
   no kill is under way while it is being mended, and after close nothing can
   start another.
   */
  ghost predicate Single(s: State) {
    && (forall g :: 0 <= g < |s.gens| && s.gens[g].phase != Ended ==> s.cur == Some(g))
    && (s.cur.Some? ==> s.cur.value < |s.gens|)
    && (!s.closed && s.cur.Some? && s.gens[s.cur.value].phase != Ended ==> s.alive)
    && (s.killing.Some? ==>
      && !CurMending(s) && !s.closed && s.killing.value.old_ == s.cur
      && (s.cur.Some? && s.gens[s.cur.value].phase != Ended ==> s.killing.value.alive))
    && (s.closed ==> !CurMaySpawn(s) && s.killing.None?)
  }

  /** A kill does not begin during a re-attach, nor a close during either. */
  predicate Orderly(s: State, e: Event) {
    match e
    case KillBegin => s.closed || s.killing.Some? || !CurMending(s)
    case Close => !CurMaySpawn(s) && s.killing.None?
    case _ => true
  }

  lemma StepSingle(s: State, e: Event)
    requires Single(s)
    ensures Single(Step(s, e)) <==> Orderly(s, e)
    ensures s.closed ==> |Step(s, e).gens| == |s.gens|
  {
    match e
    case Attach(g, ok) =>
      if g < |s.gens| && s.gens[g].phase.Attempting? {
        AttachSingle(s, g, ok);
      }
    case KillSpawn(ok, banner) =>
      if CanSpawn(s) {
        KillSpawnSingle(s, ok, banner);
      }
    case _ =>
  }

  lemma AttachSingle(s: State, g: nat, ok: bool)
    requires Single(s) && g < |s.gens| && s.gens[g].phase.Attempting?
    ensures Single(AttachStep(s, g, ok)) && (s.closed ==> |AttachStep(s, g, ok).gens| == |s.gens|)
  {
    assert s.cur == Some(g);
  }

  lemma KillSpawnSingle(s: State, ok: bool, banner: seq<int>)
    requires Single(s) && CanSpawn(s)
    ensures Single(KillSpawnStep(s, ok, banner)) && !s.closed
  {
  }

  predicate OrderlyRun(s: State, es: seq<Event>)
    decreases |es|
  {
    es == [] || (Orderly(s, es[0]) && OrderlyRun(Step(s, es[0]), es[1..]))
  }

  lemma {:induction false} RunSingle(s: State, es: seq<Event>)
    requires Single(s) && OrderlyRun(s, es)
    ensures Single(Run(s, es))
    decreases |es|
  {
    if es != [] {
      StepSingle(s, es[0]);
      RunSingle(Step(s, es[0]), es[1..]);
    }
  }

  /** In an orderly run at most one generation runs at a time, the current one. */
  lemma OneAtATime(es: seq<Event>, persist: bool, g: nat, h: nat)
    requires OrderlyRun(Initial(persist), es)
    ensures var s := Run(Initial(persist), es); In(s, g, Running) && In(s, h, Running) ==> g == h && s.cur == Some(g)
  {
    RunSingle(Initial(persist), es);
  }

  lemma {:induction false} ClosedStaysClosed(s: State, es: seq<Event>)
    requires Single(s) && s.closed && OrderlyRun(s, es)
    ensures |Run(s, es).gens| == |s.gens| && Run(s, es).closed
    decreases |es|
  {
    if es != [] {
      StepSingle(s, es[0]);
      ClosedStaysClosed(Step(s, es[0]), es[1..]);
    }
  }

  // ---- and why the condition is needed ------------------------------------------------------------------

  lemma Unroll(s: State, e: Event, es: seq<Event>)
    ensures Run(s, [e] + es) == Run(Step(s, e), es)
  {
    assert ([e] + es)[1..] == es;
  }

  lemma {:induction false} RunJoin(s: State, a: seq<Event>, b: seq<Event>)
    ensures Run(s, a + b) == Run(Run(s, a), b)
    decreases |a|
  {
    if a == [] {
      assert a + b == b;
    } else {
      assert (a + b)[1..] == a[1..] + b;
      RunJoin(Step(s, a[0]), a[1..], b);
    }
  }

  predicate SideBySide(t: State, n: nat) {
    In(t, n, Running) && In(t, n + 1, Running)
  }

  lemma TwoSteps(s: State, e: Event, f: Event)
    ensures Run(s, [e, f]) == Step(Step(s, e), f)
  {
    assert [e, f][1..] == [f] && [f][1..] == [];
    assert Run(Step(s, e), [f]) == Run(Step(Step(s, e), f), []);
  }

  /** A re-attach while a kill is under way: both spawn. */
  lemma ReattachToo(s: State, g: nat)
    requires g < |s.gens| && s.gens[g].phase.Attempting? && !s.closed
    requires s.killing.Some? && s.killing.value.old_ == Some(g)
    ensures var t := Step(Step(s, KillSpawn(true, [])), Attach(g, true));
      if s.gens[g].phase.giveUp then In(t, |s.gens|, Running) && |t.gens| == |s.gens| + 1 && GivenUp(t, |s.gens|)
      else SideBySide(t, |s.gens|)
  {
  }

  /** The session is marked dead although this generation, the current one, runs. */
  predicate GivenUp(s: State, g: nat) {
    s.cur == Some(g) && !s.alive && !s.closed && s.killing.None?
  }

  /** So another kill does not wait for its process. */
  lemma KillTheDead(s: State, g: nat)
    requires In(s, g, Running) && |s.gens| == g + 1 && GivenUp(s, g)
    ensures SideBySide(Step(Step(s, KillBegin), KillSpawn(true, [])), g)
  {
  }

  lemma BothSpawn(s: State, g: nat)
    requires g < |s.gens| && s.gens[g].phase.Attempting? && !s.closed
    requires s.killing.Some? && s.killing.value.old_ == Some(g)
    ensures exists es :: SideBySide(Run(s, es), |s.gens|)
  {
    var a, b := [KillSpawn(true, []), Attach(g, true)], [KillBegin, KillSpawn(true, [])];
    ReattachToo(s, g);
    TwoSteps(s, KillSpawn(true, []), Attach(g, true));
    if s.gens[g].phase.giveUp {
      KillTheDead(Run(s, a), |s.gens|);
      TwoSteps(Run(s, a), KillBegin, KillSpawn(true, []));
      RunJoin(s, a, b);
      assert SideBySide(Run(s, a + b), |s.gens|);
    } else {
      assert SideBySide(Run(s, a), |s.gens|);
    }
  }

  /** Whenever a kill begins during a re-attach, two generations can come to run side by side. */
  lemma KillDuringReattach(s: State)
    requires Single(s) && !Orderly(s, KillBegin)
    ensures exists es :: SideBySide(Run(Step(s, KillBegin), es), |s.gens|)
  {
    var g := s.cur.value;
    var t := Step(s, KillBegin);
    Advance(t, g);
    var es :| Advanced(t, Run(t, es), g);
    BothSpawn(Run(t, es), g);
    var more :| SideBySide(Run(Run(t, es), more), |s.gens|);
    RunJoin(t, es, more);
    assert SideBySide(Run(t, es + more), |s.gens|);
  }

  /** The re-attach has come to the point before its spawn, and nothing else has happened. */
  predicate Advanced(s: State, t: State, g: nat)
    requires g < |s.gens|
  {
    && t == s.(gens := t.gens, fast := t.fast, log := t.log)
    && |t.gens| == |s.gens| && t.gens[g].phase.Attempting?
    && (s.gens[g].phase != Attempting(true) ==> !t.gens[g].phase.giveUp)
  }

  lemma Advance(s: State, g: nat)
    requires Mending(s, g)
    ensures exists es :: Advanced(s, Run(s, es), g)
  {
    if s.gens[g].phase.Attempting? {
      assert Advanced(s, Run(s, []), g);
    } else if s.gens[g].phase.Reattaching? {
      Unroll(s, Count(g, false), []);
      assert Advanced(s, Run(s, [Count(g, false)] + []), g);
    } else {
      var t := Step(s, Finish(g, true));
      Unroll(t, Count(g, false), []);
      Unroll(s, Finish(g, true), [Count(g, false)] + []);
      assert Advanced(s, Run(s, [Finish(g, true)] + ([Count(g, false)] + [])), g);
    }
  }

  predicate RunsAgain(t: State, n: nat) {
    t.closed && In(t, n, Running)
  }

  /** Whenever a close comes during a re-attach or a kill, the closed session can come to run again. */
  lemma CloseDuringEither(s: State)
    requires Single(s) && !Orderly(s, Close)
    ensures exists es :: RunsAgain(Run(Step(s, Close), es), |s.gens|)
  {
    var t := Step(s, Close);
    if CurMaySpawn(s) {
      var g := s.cur.value;
      Advance(t, g);
      var es :| Advanced(t, Run(t, es), g);
      OneMore(t, es, Attach(g, true));
      assert RunsAgain(Run(t, es + [Attach(g, true)]), |s.gens|);
    } else {
      Bury(t);
      var es :| Buried(t, Run(t, es));
      OneMore(t, es, KillSpawn(true, []));
      assert RunsAgain(Run(t, es + [KillSpawn(true, [])]), |s.gens|);
    }
  }

  lemma OneMore(s: State, es: seq<Event>, e: Event)
    ensures Run(s, es + [e]) == Step(Run(s, es), e)
  {
    RunJoin(s, es, [e]);
    Unroll(Run(s, es), e, []);
    assert [e] + [] == [e];
  }

  /** The generation that is being killed has come to its end. */
  predicate Buried(s: State, t: State) {
    CanSpawn(t) && t.closed && |t.gens| == |s.gens|
  }

  lemma Bury(s: State)
    requires s.killing.Some? && s.closed
    requires s.killing.value.old_ == s.cur && (s.cur.Some? ==> s.cur.value < |s.gens|)
    requires !CurMending(s)
    ensures exists es :: Buried(s, Run(s, es))
  {
    if s.cur == None || s.gens[s.cur.value].phase == Ended {
      assert Buried(s, Run(s, []));
    } else if s.gens[s.cur.value].phase == Running {
      var g := s.cur.value;
      var t := Step(s, Check(g));
      Unroll(t, Finish(g, false), []);
      Unroll(s, Check(g), [Finish(g, false)] + []);
      assert Buried(s, Run(s, [Check(g)] + ([Finish(g, false)] + [])));
    } else {
      var g := s.cur.value;
      Unroll(s, Finish(g, false), []);
      assert Buried(s, Run(s, [Finish(g, false)] + []));
    }
  }

  // ---- as it runs ---------------------------------------------------------------------------------------

  class Lifecycle {
    const persist: bool
    var gens: seq<Gen>
    var cur: Option<nat>
    var killing: Option<Kill>
    var closed: bool
    var alive: bool
    var fast: nat
    var stream: seq<int>
    var log: seq<Attempt>

    ghost function View(): State
      reads this
    {
      State(gens, cur, killing, closed, alive, persist, fast, log, stream)
    }

    constructor (persist: bool)
      ensures View() == Initial(persist)
    {
      this.persist := persist;
      gens, cur, killing, closed, alive := [FRESH], Some(0), None, false, true;
      fast, stream, log := 0, [], [];
    }

    /** waitLoop up to the first unlock. */
    method CheckExit(g: nat) returns (superseded: bool)
      requires In(View(), g, Running)
      modifies this`gens
      ensures View() == Step(old(View()), Check(g)) && gens[g].phase == Checked(superseded)
    {
      superseded := cur != Some(g) || killing.Some? || closed;
      gens := gens[g := gens[g].(phase := Checked(superseded), checked := Some(superseded))];
    }

    /** The rest of waitLoop, or its way into reattach. */
    method FinishExit(g: nat, superseded: bool, tmuxAlive: bool) returns (reattach: bool)
      requires In(View(), g, Checked(superseded))
      modifies this`gens, this`alive
      ensures View() == Step(old(View()), Finish(g, tmuxAlive)) && (reattach <==> In(View(), g, Reattaching))
    {
      if !superseded && persist && tmuxAlive {
        gens := gens[g := gens[g].(phase := Reattaching)];
        return true;
      }
      reattach := false;
      gens := gens[g := gens[g].(phase := Ended)];
      if !superseded {
        alive := false;
        gens := gens[g := gens[g].(exits := gens[g].exits + 1)];
      }
    }

    /** reattach up to its first unlock. */
    method CountClient(g: nat, young: bool) returns (giveUp: bool)
      requires In(View(), g, Reattaching)
      modifies this`gens, this`fast, this`log
      ensures View() == Step(old(View()), Count(g, young)) && gens[g].phase == Attempting(giveUp)
    {
      fast := if young then fast + 1 else 0;
      giveUp := fast > 3;
      gens := gens[g := gens[g].(phase := Attempting(giveUp), attempt := Some(|log|))];
      log := log + [Attempt(young, !giveUp)];
    }

    /** The rest of it: another client, or the failure is reported. */
    method AttachAgain(g: nat, giveUp: bool, ok: bool)
      requires In(View(), g, Attempting(giveUp))
      modifies this`gens, this`cur, this`alive
      ensures View() == Step(old(View()), Attach(g, ok))
    {
      if !giveUp && ok {
        gens := gens[g := gens[g].(phase := Ended, heir := Some(|gens|))] + [FRESH];
        cur := Some(|gens| - 1);
        alive := true;
      } else {
        alive := false;
        gens := gens[g := gens[g].(phase := Ended, exits := gens[g].exits + 1)];
      }
    }

    method BeginKill() returns (begun: bool)
      modifies this`killing
      ensures View() == Step(old(View()), KillBegin) && (begun <==> !closed && old(killing).None?)
    {
      if closed || killing.Some? {
        return false;
      }
      killing := Some(Kill(cur, alive));
      return true;
    }

    method Respawn(ok: bool, banner: seq<int>)
      requires CanSpawn(View())
      modifies this
      ensures View() == Step(old(View()), KillSpawn(ok, banner))
    {
      stream := stream + banner;
      killing := None;
      if !ok {
        cur := None;
        alive := false;
        return;
      }
      gens := gens + [FRESH];
      cur := Some(|gens| - 1);
      alive := true;
    }

    method CloseNow()
      modifies this`closed, this`alive
      ensures View() == Step(old(View()), Close)
    {
      if closed {
        return;
      }
      closed := true;
      alive := false;
    }
  }
}
