/**
 The PTY heuristic: guesses from silence and the last line whether a tool is
 waiting for its user. Times are nanoseconds since Go's zero time, which is 0.
 */
module Heuristic {

  const SECOND := 1_000_000_000
  const SILENCE_FOR_SUSPECT := 300 * SECOND
  const SILENCE_FOR_UNKNOWN := 600 * SECOND
  const SUSPECT_DEBOUNCE := 15 * SECOND
  const STRUCTURED_FRESH_FOR := 300 * SECOND

  /**
   One evaluation of a session: what the session shows, and when. idle stands
   for a dead, closed or exited session; prompt for whether line matches the
   prompt pattern.
   */
  datatype Reading = Reading(idle: bool, tool: string, lastOutput: int, lastStructured: int,
                             line: string, prompt: bool, now: int)

  datatype Kind = Nothing | Suspect | Cleared | Unknown | Resumed

  datatype State = State(candidateSince: int, suspectAt: int, unknownAt: int)

  const ZERO := State(0, 0, 0)

  predicate Skipped(r: Reading) {
    r.idle || r.tool == "" || r.tool == "shell"
  }

  predicate StructFresh(r: Reading) {
    r.lastStructured != 0 && r.now - r.lastStructured < STRUCTURED_FRESH_FOR
  }

  predicate StructStale(r: Reading) {
    r.lastStructured == 0 || r.now - r.lastStructured >= SILENCE_FOR_UNKNOWN
  }

  /** Output after time t, or a fresh structured signal. */
  predicate Revived(r: Reading, t: int) {
    r.lastOutput > t || StructFresh(r)
  }

  predicate QuietPrompt(r: Reading) {
    r.now - r.lastOutput >= SILENCE_FOR_SUSPECT && r.prompt
  }

  function Evaluate(st: State, r: Reading): (State, Kind) {
    if Skipped(r) then (st, Nothing)
    else if st.suspectAt != 0 then
      if Revived(r, st.suspectAt) then (st.(suspectAt := 0, candidateSince := 0), Cleared) else (st, Nothing)
    else if st.unknownAt != 0 && Revived(r, st.unknownAt) then (st.(unknownAt := 0), Resumed)
    else if StructFresh(r) then (st.(candidateSince := 0), Nothing)
    else if QuietPrompt(r) then
      if st.candidateSince == 0 then (st.(candidateSince := r.now), Nothing)
      else if r.now - st.candidateSince >= SUSPECT_DEBOUNCE then (State(0, r.now, 0), Suspect)
      else (st, Nothing)
    else if r.now - r.lastOutput >= SILENCE_FOR_UNKNOWN && StructStale(r) && st.unknownAt == 0 then
      (State(0, 0, r.now), Unknown)
    else (st.(candidateSince := 0), Nothing)
  }

  function After(st: State, rs: seq<Reading>): State
    decreases |rs|
  {
    if rs == [] then st else After(Evaluate(st, rs[0]).0, rs[1..])
  }

  function Said(v: Kind): seq<Kind> {
    if v == Nothing then [] else [v]
  }

  /** The verdicts of a run, without the empty ones. */
  function Trace(st: State, rs: seq<Reading>): seq<Kind>
    decreases |rs|
  {
    if rs == [] then []
    else
      var (t, v) := Evaluate(st, rs[0]);
      Said(v) + Trace(t, rs[1..])
  }

  /** The clock is never Go's zero time. */
  predicate Clocked(rs: seq<Reading>) {
    forall i :: 0 <= i < |rs| ==> rs[i].now != 0
  }

  lemma {:induction false} RunJoin(st: State, a: seq<Reading>, b: seq<Reading>)
    ensures After(st, a + b) == After(After(st, a), b)
    ensures Trace(st, a + b) == Trace(st, a) + Trace(After(st, a), b)
    decreases |a|
  {
    if a == [] {
      assert a + b == b;
    } else {
      assert (a + b)[0] == a[0] && (a + b)[1..] == a[1..] + b;
      RunJoin(Evaluate(st, a[0]).0, a[1..], b);
    }
  }

  lemma One(st: State, r: Reading)
    ensures After(st, [r]) == Evaluate(st, r).0
    ensures Trace(st, [r]) == Said(Evaluate(st, r).1)
  {
    assert [r][1..] == [];
  }

  lemma Snoc(st: State, rs: seq<Reading>, r: Reading)
    ensures After(st, rs + [r]) == Evaluate(After(st, rs), r).0
    ensures Trace(st, rs + [r]) == Trace(st, rs) + Said(Evaluate(After(st, rs), r).1)
  {
    RunJoin(st, rs, [r]);
    One(After(st, rs), r);
  }

  // ---- the automaton --------------------------------------------------------------------------

  datatype Phase = Normal | Suspecting | Lost

  ghost predicate Inv(st: State) {
    st.suspectAt != 0 ==> st.unknownAt == 0 && st.candidateSince == 0
  }

  function PhaseOf(st: State): Phase {
    if st.suspectAt != 0 then Suspecting else if st.unknownAt != 0 then Lost else Normal
  }

  /** ties: whether a suspicion may follow an unknown verdict directly. */
  predicate Allowed(p: Phase, v: Kind, ties: bool) {
    match p
    case Normal => v == Suspect || v == Unknown
    case Suspecting => v == Cleared
    case Lost => v == Resumed || (ties && v == Suspect)
  }

  function Goto(v: Kind): Phase {
    match v
    case Suspect => Suspecting
    case Unknown => Lost
    case _ => Normal
  }

  function PhaseAfter(p: Phase, w: seq<Kind>): Phase {
    if w == [] then p else Goto(w[|w| - 1])
  }

  /** Every verdict is allowed in the phase the ones before it lead to. */
  predicate Follows(p: Phase, w: seq<Kind>, ties: bool) {
    forall i :: 0 <= i < |w| ==> Allowed(PhaseAfter(p, w[..i]), w[i], ties)
  }

  lemma FollowsSnoc(p: Phase, w: seq<Kind>, v: Kind, ties: bool)
    requires Follows(p, w, ties) && Allowed(PhaseAfter(p, w), v, ties)
    ensures Follows(p, w + [v], ties) && PhaseAfter(p, w + [v]) == Goto(v)
  {
    var u := w + [v];
    forall i | 0 <= i < |u| ensures Allowed(PhaseAfter(p, u[..i]), u[i], ties) {
      assert u[..i] == w[..i];
      if i == |w| {
        assert w[..i] == w;
      }
    }
  }

  lemma EvaluateKeeps(st: State, r: Reading)
    requires Inv(st) && r.now != 0
    ensures var (t, v) := Evaluate(st, r);
      Inv(t) && (if v == Nothing then PhaseOf(t) == PhaseOf(st) else Allowed(PhaseOf(st), v, true) && PhaseOf(t) == Goto(v))
  {
  }

  /** A structured signal came less than this many minutes before the reading. */
  predicate Signalled(r: Reading, minutes: int) {
    r.lastStructured != 0 && r.now - r.lastStructured < Minutes(minutes)
  }

  function Minutes(n: int): int { n * 60 * SECOND }

  /** When each verdict is given, and what it leaves, for a session that is not skipped. */
  lemma VerdictsExactly(st: State, r: Reading)
    requires Inv(st) && !r.idle && r.tool !in {"", "shell"}
    ensures var (t, v) := Evaluate(st, r);
      && (v == Cleared <==> st.suspectAt != 0 && (r.lastOutput > st.suspectAt || Signalled(r, 5)))
      && (v == Resumed <==> st.unknownAt != 0 && (r.lastOutput > st.unknownAt || Signalled(r, 5)))
      && (v == Suspect <==>
        && st.suspectAt == 0 && r.prompt && r.now - r.lastOutput >= Minutes(5) && !Signalled(r, 5)
        && (st.unknownAt != 0 ==> r.lastOutput <= st.unknownAt)
        && st.candidateSince != 0 && r.now - st.candidateSince >= 15 * SECOND)
      && (v == Unknown <==>
        && st.suspectAt == 0 && st.unknownAt == 0
        && !r.prompt && r.now - r.lastOutput >= Minutes(10) && !Signalled(r, 10))
      && t.suspectAt == (if v == Suspect then r.now else if v == Cleared then 0 else st.suspectAt)
      && t.unknownAt == (if v == Unknown then r.now else if v in {Resumed, Suspect} then 0 else st.unknownAt)
      && t.candidateSince ==
        (if v == Resumed then st.candidateSince
         else if v == Suspect || st.suspectAt != 0 || !r.prompt || r.now - r.lastOutput < Minutes(5) || Signalled(r, 5) then 0
         else if st.candidateSince == 0 then r.now
         else st.candidateSince)
  {
  }

  /**
   For all readings, in any order and at any non-zero times: suspect and unknown
   are never both active, and the verdicts follow the three-state automaton.
   */
  lemma {:induction false} TracesFollow(rs: seq<Reading>)
    requires Clocked(rs)
    ensures var st, w := After(ZERO, rs), Trace(ZERO, rs);
      Inv(st) && Follows(Normal, w, true) && PhaseOf(st) == PhaseAfter(Normal, w)
    decreases |rs|
  {
    if rs != [] {
      var less, r := rs[..|rs| - 1], rs[|rs| - 1];
      assert rs == less + [r];
      TracesFollow(less);
      Snoc(ZERO, less, r);
      EvaluateKeeps(After(ZERO, less), r);
      var v := Evaluate(After(ZERO, less), r).1;
      if v != Nothing {
        FollowsSnoc(Normal, Trace(ZERO, less), v, true);
      } else {
        assert Trace(ZERO, rs) == Trace(ZERO, less);
      }
    }
  }

  /** The state before reading k. */
  function At(rs: seq<Reading>, k: nat): State
    requires k <= |rs|
  {
    if k == 0 then ZERO else Evaluate(At(rs, k - 1), rs[k - 1]).0
  }

  lemma {:induction false} AtIsAfter(rs: seq<Reading>, k: nat)
    requires k <= |rs|
    ensures At(rs, k) == After(ZERO, rs[..k])
  {
    if k > 0 {
      AtIsAfter(rs, k - 1);
      assert rs[..k] == rs[..k - 1] + [rs[k - 1]];
      Snoc(ZERO, rs[..k - 1], rs[k - 1]);
    }
  }

  lemma AtEnd(rs: seq<Reading>)
    ensures At(rs, |rs|) == After(ZERO, rs)
  {
    AtIsAfter(rs, |rs|);
    assert rs[..|rs|] == rs;
  }

  lemma {:induction false} InvAt(rs: seq<Reading>, k: nat)
    requires Clocked(rs) && k <= |rs|
    ensures Inv(At(rs, k))
  {
    if k > 0 {
      InvAt(rs, k - 1);
      EvaluateKeeps(At(rs, k - 1), rs[k - 1]);
    }
  }

  // ---- what a real session shows -----------------------------------------------------------------

  /**
   Two readings of one session, the first taken before the second. The last
   line is read under the lock that every output takes, so it changes only
   with an output, and then lastOutput is no earlier than the first reading.
   */
  predicate Before(a: Reading, b: Reading) {
    && a.tool == b.tool && a.now <= b.now && a.lastStructured <= b.lastStructured
    && a.lastOutput <= b.lastOutput
    && (a.lastOutput == b.lastOutput ==> a.line == b.line)
    && (a.lastOutput < b.lastOutput ==> a.now <= b.lastOutput)
    && (a.line == b.line ==> a.prompt == b.prompt)
  }

  predicate Physical(rs: seq<Reading>) {
    forall i, j :: 0 <= i < j < |rs| ==> Before(rs[i], rs[j])
  }

  /** No output carries exactly the time of an earlier reading. */
  predicate NoTie(rs: seq<Reading>) {
    forall i, j :: 0 <= i < j < |rs| ==> rs[j].lastOutput != rs[i].now
  }

  lemma PrefixToo(rs: seq<Reading>, n: nat)
    requires n <= |rs|
    ensures Clocked(rs) ==> Clocked(rs[..n])
    ensures Physical(rs) ==> Physical(rs[..n])
    ensures NoTie(rs) ==> NoTie(rs[..n])
  {
  }

  /** An active unknown verdict was given by a reading that saw no prompt. */
  lemma {:induction false} UnknownHasSource(rs: seq<Reading>, n: nat) returns (u: nat)
    requires Clocked(rs) && n <= |rs| && PhaseOf(At(rs, n)) == Lost
    ensures u < n && rs[u].now == At(rs, n).unknownAt && !rs[u].prompt
    decreases n
  {
    InvAt(rs, n - 1);
    UnknownStays(At(rs, n - 1), rs[n - 1]);
    if Evaluate(At(rs, n - 1), rs[n - 1]).1 == Unknown {
      u := n - 1;
    } else {
      u := UnknownHasSource(rs, n - 1);
    }
  }

  lemma UnknownStays(st: State, r: Reading)
    requires Inv(st) && r.now != 0 && PhaseOf(Evaluate(st, r).0) == Lost
    ensures var (t, v) := Evaluate(st, r);
      if v == Unknown then t.unknownAt == r.now && !r.prompt else PhaseOf(st) == Lost && t.unknownAt == st.unknownAt
  {
  }

  /** While a session is unknown a prompt shows only if it came at the very time of the unknown verdict. */
  lemma PromptWhileLost(rs: seq<Reading>, i: nat)
    requires Clocked(rs) && Physical(rs) && i < |rs| && PhaseOf(At(rs, i)) == Lost
    requires rs[i].prompt && rs[i].lastOutput <= At(rs, i).unknownAt
    ensures rs[i].lastOutput == At(rs, i).unknownAt && !NoTie(rs)
  {
    var u := UnknownHasSource(rs, i);
    assert Before(rs[u], rs[i]);
  }

  /** The debounce has run: a candidate, at least 15 seconds old, and the prompt is still there. */
  predicate Ripe(st: State, r: Reading) {
    !Skipped(r) && !StructFresh(r) && QuietPrompt(r) && st.candidateSince != 0 && r.now - st.candidateSince >= SUSPECT_DEBOUNCE
  }

  /**
   Exactly when a real session is suspected while it is unknown: its last
   output carries the very time of the unknown verdict.
   */
  lemma SuspectWhileLostIff(rs: seq<Reading>, i: nat)
    requires Clocked(rs) && Physical(rs) && i < |rs| && PhaseOf(At(rs, i)) == Lost
    ensures var st, r := At(rs, i), rs[i];
      Evaluate(st, r).1 == Suspect <==> r.lastOutput == st.unknownAt && Ripe(st, r)
    ensures NoTie(rs) ==> Evaluate(At(rs, i), rs[i]).1 != Suspect
  {
    InvAt(rs, i);
    if rs[i].prompt && rs[i].lastOutput <= At(rs, i).unknownAt {
      PromptWhileLost(rs, i);
    }
  }

  // ---- the language of real sessions ----------------------------------------------------------------

  lemma {:induction false} RealTracesFollow(rs: seq<Reading>)
    requires Clocked(rs) && Physical(rs) && NoTie(rs)
    ensures Follows(Normal, Trace(ZERO, rs), false)
    decreases |rs|
  {
    if rs != [] {
      var less, r := rs[..|rs| - 1], rs[|rs| - 1];
      assert rs == less + [r];
      PrefixToo(rs, |rs| - 1);
      RealTracesFollow(less);
      TracesFollow(less);
      Snoc(ZERO, less, r);
      var st := After(ZERO, less);
      AtIsAfter(rs, |rs| - 1);
      EvaluateKeeps(st, r);
      if PhaseOf(st) == Lost {
        SuspectWhileLostIff(rs, |rs| - 1);
      }
      if Evaluate(st, r).1 != Nothing {
        FollowsSnoc(Normal, Trace(ZERO, less), Evaluate(st, r).1, false);
      } else {
        assert Trace(ZERO, rs) == Trace(ZERO, less);
      }
    }
  }

  /** A reading d minutes after t of a session whose last output, at time o, was a prompt or not. */
  function Look(t: int, d: int, o: int, prompt: bool): Reading {
    Reading(false, "claude", o, 0, if prompt then "Continue?" else "", prompt, t + Minutes(d))
  }

  /**
   Readings that bring verdict v about after time t: one output, and at most
   two looks at it within 20 minutes. Only a suspicion of an unknown session
   needs the output to come at time t itself.
   */
  function Provoke(p: Phase, v: Kind, t: int): seq<Reading> {
    if v == Suspect then
      var o := if p == Lost then t else t + 1;
      [Look(t, 10, o, true), Look(t, 20, o, true)]
    else [Look(t, 20, t + 1, false)]
  }

  /** No candidate is running, and an active verdict was given at t. */
  predicate AsOf(st: State, t: int) {
    && st.candidateSince == 0
    && (st.unknownAt == 0 || st.unknownAt == t) && (st.suspectAt == 0 || st.suspectAt == t)
  }

  /** These readings give the one verdict v, and are over within 20 minutes of t. */
  ghost predicate Provokes(st: State, rs: seq<Reading>, v: Kind, t: int) {
    && Trace(st, rs) == [v]
    && var after := After(st, rs);
    && PhaseOf(after) == Goto(v) && Inv(after) && AsOf(after, t + Minutes(20))
  }

  lemma Provoked(p: Phase, v: Kind, t: int)
    requires t > 0 && Allowed(p, v, true)
    ensures forall st :: AsOf(st, t) && Inv(st) && p == PhaseOf(st) ==> Provokes(st, Provoke(p, v, t), v, t)
  {
    forall st | AsOf(st, t) && Inv(st) && p == PhaseOf(st)
      ensures Provokes(st, Provoke(p, v, t), v, t)
    {
      if v == Suspect {
        var o := if p == Lost then t else t + 1;
        var a, b := Look(t, 10, o, true), Look(t, 20, o, true);
        var s1 := st.(candidateSince := t + Minutes(10));
        assert Evaluate(st, a) == (s1, Nothing);
        assert Evaluate(s1, b) == (State(0, t + Minutes(20), 0), Suspect);
        One(st, a);
        One(s1, b);
        RunJoin(st, [a], [b]);
        assert Provoke(p, v, t) == [a] + [b];
      } else {
        One(st, Look(t, 20, t + 1, false));
      }
    }
  }

  /** A stretch of readings: everything in it happens from t on, at t itself only if ties are meant. */
  predicate From(t: int, rs: seq<Reading>, ties: bool) {
    && (forall i :: 0 <= i < |rs| ==> t < rs[i].now && t <= rs[i].lastOutput && (!ties ==> t < rs[i].lastOutput))
    && (forall i :: 0 <= i < |rs| ==> rs[i] == Look(rs[i].now, 0, rs[i].lastOutput, rs[i].prompt))
    && Physical(rs) && (!ties ==> NoTie(rs))
  }

  lemma ProvokeFrom(p: Phase, v: Kind, t: int, ties: bool)
    requires t > 0 && (p == Lost && v == Suspect ==> ties)
    ensures From(t, Provoke(p, v, t), ties)
    ensures forall r :: r in Provoke(p, v, t) ==> r.now <= t + Minutes(20) && r.lastOutput <= t + 1
  {
  }

  lemma Joined(t: int, u: int, a: seq<Reading>, b: seq<Reading>, ties: bool)
    requires t + 1 < u && From(t, a, ties) && From(u, b, ties)
    requires forall r :: r in a ==> r.now <= u && r.lastOutput <= t + 1
    ensures From(t, a + b, ties)
  {
    var c := a + b;
    forall i, j | 0 <= i < j < |c| ensures Before(c[i], c[j]) && (!ties ==> c[j].lastOutput != c[i].now) {
      if i < |a| <= j {
        assert c[i] == a[i] && c[i] in a && c[j] == b[j - |a|];
      } else if j < |a| {
        assert c[i] == a[i] && c[j] == a[j];
      } else {
        assert c[i] == b[i - |a|] && c[j] == b[j - |a|];
      }
    }
  }

  ghost predicate Tells(st: State, rs: seq<Reading>, w: seq<Kind>, t: int, ties: bool) {
    From(t, rs, ties) && Trace(st, rs) == w
  }

  lemma {:induction false} WordsAreTraces(st: State, w: seq<Kind>, t: int, ties: bool)
    requires t > 0 && AsOf(st, t) && Inv(st) && Follows(PhaseOf(st), w, ties)
    ensures exists rs :: Tells(st, rs, w, t, ties)
    decreases |w|
  {
    if w == [] {
      assert Tells(st, [], w, t, ties);
    } else {
      var p, v := PhaseOf(st), w[0];
      assert w[..0] == [];
      var first, u := Provoke(p, v, t), t + Minutes(20);
      Provoked(p, v, t);
      ProvokeFrom(p, v, t, ties);
      FollowsTail(p, w, ties);
      WordsAreTraces(After(st, first), w[1..], u, ties);
      var rest :| Tells(After(st, first), rest, w[1..], u, ties);
      RunJoin(st, first, rest);
      Joined(t, u, first, rest, ties);
      assert w == [v] + w[1..];
      assert Tells(st, first + rest, w, t, ties);
    }
  }

  lemma FollowsTail(p: Phase, w: seq<Kind>, ties: bool)
    requires w != [] && Follows(p, w, ties)
    ensures Follows(Goto(w[0]), w[1..], ties)
  {
    forall i | 0 <= i < |w[1..]| ensures Allowed(PhaseAfter(Goto(w[0]), w[1..][..i]), w[1..][i], ties) {
      assert w[..i + 1] == [w[0]] + w[1..][..i];
    }
  }

  /** The readings some real session gives, in which this is the trace of verdicts. */
  ghost predicate Realised(w: seq<Kind>, ties: bool) {
    exists rs :: Clocked(rs) && Physical(rs) && (!ties ==> NoTie(rs)) && Trace(ZERO, rs) == w
  }

  /**
   The verdict traces of real sessions are exactly the words in which a
   suspicion is only ever followed by cleared and an unknown verdict only by
   resumed; if outputs may carry the time of an earlier reading, exactly those
   in which an unknown verdict may be followed by a suspicion, too.
   */
  lemma TraceLanguage(w: seq<Kind>)
    ensures Realised(w, false) <==> Follows(Normal, w, false)
    ensures Realised(w, true) <==> Follows(Normal, w, true)
  {
    if rs :| Clocked(rs) && Physical(rs) && NoTie(rs) && Trace(ZERO, rs) == w {
      RealTracesFollow(rs);
    }
    if rs :| Clocked(rs) && Physical(rs) && Trace(ZERO, rs) == w {
      TracesFollow(rs);
    }
    if Follows(Normal, w, false) {
      WordsAreTraces(ZERO, w, 1, false);
      var rs :| Tells(ZERO, rs, w, 1, false);
      assert Clocked(rs) && NoTie(rs);
    }
    if Follows(Normal, w, true) {
      WordsAreTraces(ZERO, w, 1, true);
      var rs :| Tells(ZERO, rs, w, 1, true);
      assert Clocked(rs);
    }
  }

  // ---- the debounce -------------------------------------------------------------------------------------

  /** An evaluation that starts, or keeps, a running candidate. */
  predicate KeepsCandidate(st: State, r: Reading) {
    || Skipped(r)
    || Evaluate(st, r).1 == Resumed
    || (st.suspectAt == 0 && !StructFresh(r) && QuietPrompt(r))
  }

  /** Reading i starts a candidate: a silent prompt, and there was none. */
  predicate StartsAt(rs: seq<Reading>, i: nat) {
    && i < |rs| && !Skipped(rs[i]) && QuietPrompt(rs[i]) && !StructFresh(rs[i])
    && At(rs, i).candidateSince == 0 && At(rs, i).suspectAt == 0
  }

  /** After reading k the candidate of reading i is still running, and if k is a later one it kept it. */
  predicate KeptAt(rs: seq<Reading>, i: nat, k: nat)
    requires i <= k < |rs|
  {
    At(rs, k + 1).candidateSince == rs[i].now && (i < k ==> KeepsCandidate(At(rs, k), rs[k]))
  }

  /** Reading i started the candidate, and nothing since then reset it. */
  ghost predicate Started(rs: seq<Reading>, i: nat) {
    StartsAt(rs, i) && forall k :: i <= k < |rs| ==> KeptAt(rs, i, k)
  }

  lemma CandidateStays(st: State, r: Reading)
    requires Inv(st) && st.candidateSince != 0 && Evaluate(st, r).0.candidateSince != 0
    ensures Evaluate(st, r).0.candidateSince == st.candidateSince && KeepsCandidate(st, r)
  {
  }

  /** Reading i started the candidate that is running before reading n. */
  ghost predicate StartedBefore(rs: seq<Reading>, i: nat, n: nat)
    requires n <= |rs|
  {
    && i < n && StartsAt(rs, i) && At(rs, n).candidateSince == rs[i].now
    && forall k :: i <= k < n ==> KeptAt(rs, i, k)
  }

  lemma {:induction false} CandidateHasStart(rs: seq<Reading>, n: nat)
    requires Clocked(rs) && n <= |rs| && At(rs, n).candidateSince != 0
    ensures exists i: nat :: StartedBefore(rs, i, n)
    decreases n
  {
    if At(rs, n - 1).candidateSince == 0 {
      assert StartedBefore(rs, n - 1, n);
    } else {
      CandidateHasStart(rs, n - 1);
      var i: nat :| StartedBefore(rs, i, n - 1);
      InvAt(rs, n - 1);
      CandidateStays(At(rs, n - 1), rs[n - 1]);
      assert StartedBefore(rs, i, n);
    }
  }

  /**
   A suspect verdict needs a silent prompt now and a silent prompt at least
   15 seconds before it, with no evaluation in between that reset the candidate.
   */
  lemma SuspectNeedsTwoPrompts(rs: seq<Reading>, r: Reading)
    requires Clocked(rs) && Evaluate(After(ZERO, rs), r).1 == Suspect
    ensures QuietPrompt(r) && !StructFresh(r)
    ensures exists i: nat :: Started(rs, i) && r.now - rs[i].now >= SUSPECT_DEBOUNCE
  {
    AtEnd(rs);
    CandidateHasStart(rs, |rs|);
    var i: nat :| StartedBefore(rs, i, |rs|);
    assert Started(rs, i);
  }

  /** The session resumed at reading m. */
  predicate ResumedAt(rs: seq<Reading>, m: nat) {
    m < |rs| && Evaluate(At(rs, m), rs[m]).1 == Resumed
  }

  /** It resumed at some reading after i and before k. */
  predicate ResumedIn(rs: seq<Reading>, i: nat, k: nat) {
    i + 1 < k && (ResumedAt(rs, k - 1) || ResumedIn(rs, i, k - 1))
  }

  lemma PhaseStep(rs: seq<Reading>, i: nat, k: nat)
    requires Clocked(rs) && Started(rs, i) && i <= k < |rs|
    ensures if ResumedAt(rs, k) && i < k then PhaseOf(At(rs, k)) == Lost && PhaseOf(At(rs, k + 1)) == Normal
            else PhaseOf(At(rs, k + 1)) == PhaseOf(At(rs, k))
  {
    assert KeptAt(rs, i, k);
    InvAt(rs, k);
  }

  lemma {:induction false} PhaseAlong(rs: seq<Reading>, i: nat, k: nat)
    requires Clocked(rs) && Started(rs, i) && i < k <= |rs|
    ensures if ResumedIn(rs, i, k) then PhaseOf(At(rs, i)) == Lost && PhaseOf(At(rs, k)) == Normal
            else PhaseOf(At(rs, k)) == PhaseOf(At(rs, i))
    decreases k
  {
    PhaseStep(rs, i, k - 1);
    if i < k - 1 {
      PhaseAlong(rs, i, k - 1);
    }
  }

  /**
   Exactly when a prompt that was not there all the time is suspected: the
   candidate was started while the session was unknown, and is used when it no
   longer is. In a real session its prompt then came at the very time of the
   unknown verdict; without such a tie every evaluation since the start saw a
   silent prompt.
   */
  lemma DebounceSkippedIff(rs: seq<Reading>, r: Reading, i: nat)
    requires Clocked(rs) && Evaluate(After(ZERO, rs), r).1 == Suspect && Started(rs, i)
    ensures ResumedIn(rs, i, |rs|) <==> PhaseOf(At(rs, i)) == Lost && PhaseOf(After(ZERO, rs)) == Normal
    ensures Physical(rs) && PhaseOf(At(rs, i)) == Lost ==> rs[i].lastOutput == At(rs, i).unknownAt
    ensures Physical(rs) && NoTie(rs) ==>
      forall k :: i < k < |rs| ==> Skipped(rs[k]) || (QuietPrompt(rs[k]) && !StructFresh(rs[k]))
  {
    PhaseAlong(rs, i, |rs|);
    AtEnd(rs);
    if Physical(rs) && PhaseOf(At(rs, i)) == Lost {
      StartTie(rs, i);
    }
    if Physical(rs) && NoTie(rs) {
      forall k | i < k < |rs| ensures Skipped(rs[k]) || (QuietPrompt(rs[k]) && !StructFresh(rs[k])) {
        assert KeptAt(rs, i, k);
        PhaseStep(rs, i, k);
        PhaseAlong(rs, i, k);
      }
    }
  }

  /** A candidate started while the session is unknown has its prompt from the time of the unknown verdict. */
  lemma StartTie(rs: seq<Reading>, i: nat)
    requires Clocked(rs) && Physical(rs) && Started(rs, i) && PhaseOf(At(rs, i)) == Lost
    ensures rs[i].lastOutput == At(rs, i).unknownAt && !NoTie(rs)
  {
    assert KeptAt(rs, i, i);
    InvAt(rs, i);
    PromptWhileLost(rs, i);
  }

  /** A session unknown at minute 11, a prompt at that very moment, output again at minute 17. */
  function TieRun(): seq<Reading> {
    var u := Minutes(11);
    [Look(u, 0, Minutes(1), false), Look(u, 5, u, true), Look(u, 7, u + Minutes(6), true), Look(u, 11, u + Minutes(6), true)]
  }

  lemma TieRunIsReal()
    ensures Clocked(TieRun()) && Physical(TieRun())
  {
  }

  /** The session resumed, and yet its next silent prompt is suspected at the first evaluation. */
  lemma ResumedKeepsCandidate()
    ensures Physical(TieRun()) && !QuietPrompt(TieRun()[2]) && ResumedAt(TieRun(), 2)
    ensures Trace(ZERO, TieRun()) == [Unknown, Resumed, Suspect]
  {
    var rs, u := TieRun(), Minutes(11);
    var s1, s2, s3 := State(0, 0, u), State(u + Minutes(5), 0, u), State(u + Minutes(5), 0, 0);
    TieRunIsReal();
    assert Evaluate(ZERO, rs[0]) == (s1, Unknown) && Evaluate(s1, rs[1]) == (s2, Nothing);
    assert Evaluate(s2, rs[2]) == (s3, Resumed) && Evaluate(s3, rs[3]).1 == Suspect;
    FourSteps(rs, s1, s2, s3);
    assert At(rs, 0) == ZERO && At(rs, 1) == s1 && At(rs, 2) == s2;
  }

  lemma FourSteps(rs: seq<Reading>, s1: State, s2: State, s3: State)
    requires |rs| == 4
    requires s1 == Evaluate(ZERO, rs[0]).0 && s2 == Evaluate(s1, rs[1]).0 && s3 == Evaluate(s2, rs[2]).0
    ensures Trace(ZERO, rs) == Said(Evaluate(ZERO, rs[0]).1) + (Said(Evaluate(s1, rs[1]).1)
                             + (Said(Evaluate(s2, rs[2]).1) + Said(Evaluate(s3, rs[3]).1)))
  {
    Cons(ZERO, rs);
    Cons(s1, rs[1..]);
    Cons(s2, rs[2..]);
    One(s3, rs[3]);
    assert rs[1..][1..] == rs[2..] && rs[2..][1..] == rs[3..] == [rs[3]];
  }

  lemma Cons(st: State, rs: seq<Reading>)
    requires rs != []
    ensures Trace(st, rs) == Said(Evaluate(st, rs[0]).1) + Trace(Evaluate(st, rs[0]).0, rs[1..])
  {
  }

  // ---- as it runs ---------------------------------------------------------------------------

  class HeurState {
    var candidateSince: int
    var suspectAt: int
    var unknownAt: int

    ghost function View(): State
      reads this
    {
      State(candidateSince, suspectAt, unknownAt)
    }

    constructor ()
      ensures View() == ZERO
    {
      candidateSince, suspectAt, unknownAt := 0, 0, 0;
    }

    method EvaluateNow(r: Reading) returns (v: Kind)
      modifies this
      ensures (View(), v) == Evaluate(old(View()), r)
    {
      if r.idle || r.tool == "" || r.tool == "shell" {
        return Nothing;
      }
      var silence := r.now - r.lastOutput;
      var structFresh := r.lastStructured != 0 && r.now - r.lastStructured < STRUCTURED_FRESH_FOR;
      var structStale := r.lastStructured == 0 || r.now - r.lastStructured >= SILENCE_FOR_UNKNOWN;
      if suspectAt != 0 {
        if r.lastOutput > suspectAt || structFresh {
          suspectAt, candidateSince := 0, 0;
          return Cleared;
        }
        return Nothing;
      }
      if unknownAt != 0 {
        if r.lastOutput > unknownAt || structFresh {
          unknownAt := 0;
          return Resumed;
        }
      }
      if structFresh {
        candidateSince := 0;
        return Nothing;
      }
      if silence >= SILENCE_FOR_SUSPECT && r.prompt {
        if candidateSince == 0 {
          candidateSince := r.now;
          return Nothing;
        }
        if r.now - candidateSince >= SUSPECT_DEBOUNCE {
          suspectAt, unknownAt, candidateSince := r.now, 0, 0;
          return Suspect;
        }
        return Nothing;
      }
      candidateSince := 0;
      if silence >= SILENCE_FOR_UNKNOWN && structStale && unknownAt == 0 {
        unknownAt := r.now;
        return Unknown;
      }
      return Nothing;
    }
  }
}
