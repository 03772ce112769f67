/**
 Sessions that outlive the agent: what opening, closing, exiting, suspending
 and adopting do to tmux, to the session directories and to the agent's map.
 */
module Restart {
  import opened Wrappers
  import opened Decimals

  type Sid = n: nat | n < LIMIT

  // ---- names in tmux ------------------------------------------------------------------------------

  function PersistName(sid: Sid): string {
    "tx-" + Format(sid)
  }

  function PersistSID(name: string): Option<Sid> {
    if |name| >= 3 && name[..3] == "tx-" then Parse(name[3..]) else None
  }

  lemma NameReadsBack(sid: Sid)
    ensures PersistSID(PersistName(sid)) == Some(sid)
  {
    ParseOfFormat(sid);
    assert PersistName(sid)[3..] == Format(sid);
  }

  /** The other way round it is only true of names without leading zeros. */
  lemma SidWritesBack(name: string)
    requires PersistSID(name).Some?
    ensures PersistName(PersistSID(name).value) == name <==> (name[3] != '0' || |name| == 4)
  {
    FormatOfParse(name[3..]);
    assert name == "tx-" + name[3..];
    var other := PersistName(PersistSID(name).value);
    assert other[3..] == Format(PersistSID(name).value);
  }

  predicate IsSpace(c: char) {
    c == ' ' || c == '\t' || c == '\n' || c == '\r' || c == '\U{B}' || c == '\U{C}'
  }

  function TrimLeft(s: string): string {
    if s != "" && IsSpace(s[0]) then TrimLeft(s[1..]) else s
  }

  function TrimRight(s: string): string {
    if s != "" && IsSpace(s[|s| - 1]) then TrimRight(s[..|s| - 1]) else s
  }

  function Trim(s: string): string {
    TrimRight(TrimLeft(s))
  }

  function Split(s: string, line: string): seq<string>
    decreases |s|
  {
    if s == "" then [line]
    else if s[0] == '\n' then [line] + Split(s[1..], "")
    else Split(s[1..], line + [s[0]])
  }

  function SidsOf(lines: seq<string>): seq<Sid> {
    if lines == [] then []
    else
      var last := PersistSID(Trim(lines[|lines| - 1]));
      SidsOf(lines[..|lines| - 1]) + if last.Some? then [last.value] else []
  }

  /** What tmux prints: one name a line. */
  function Listing(names: seq<string>): string {
    if names == [] then "" else names[0] + "\n" + Listing(names[1..])
  }

  /** What the program makes of the listing; a failed tmux call is no sessions. */
  function Listed(out: Option<string>): seq<Sid> {
    if out == None then [] else SidsOf(Split(out.value, ""))
  }

  method TmuxSessions(out: Option<string>) returns (sids: seq<Sid>)
    ensures sids == Listed(out)
  {
    sids := [];
    if out == None {
      return;
    }
    var lines := Split(out.value, "");
    for i := 0 to |lines|
      invariant sids == SidsOf(lines[..i])
    {
      assert lines[..i + 1][..i] == lines[..i];
      var sid := PersistSID(Trim(lines[i]));
      if sid.Some? {
        sids := sids + [sid.value];
      }
    }
    assert lines[..|lines|] == lines;
  }

  lemma {:induction false} SplitLine(name: string, rest: string, line: string)
    requires '\n' !in name
    ensures Split(name + "\n" + rest, line) == [line + name] + Split(rest, "")
    decreases |name|
  {
    var all := name + "\n" + rest;
    if name == "" {
      assert all == "\n" + rest && all[1..] == rest && line + "" == line;
    } else {
      assert all[1..] == name[1..] + "\n" + rest;
      assert line + [name[0]] + name[1..] == line + name;
      SplitLine(name[1..], rest, line + [name[0]]);
    }
  }

  lemma {:induction false} SplitListing(names: seq<string>)
    requires forall i :: 0 <= i < |names| ==> '\n' !in names[i]
    ensures Split(Listing(names), "") == names + [""]
  {
    if names != [] {
      SplitLine(names[0], Listing(names[1..]), "");
      SplitListing(names[1..]);
      assert "" + names[0] == names[0];
      assert names == [names[0]] + names[1..];
    }
  }

  lemma NameIsTrim(sid: Sid)
    ensures Trim(PersistName(sid)) == PersistName(sid) && '\n' !in PersistName(sid)
  {
    var s := PersistName(sid);
    assert s[0] == 't';
    assert s[|s| - 1] == Format(sid)[|Format(sid)| - 1];
  }

  function Names(sids: seq<Sid>): seq<string> {
    seq(|sids|, i requires 0 <= i < |sids| => PersistName(sids[i]))
  }

  lemma {:induction false} SidsOfNames(sids: seq<Sid>)
    ensures SidsOf(Names(sids)) == sids
  {
    if sids != [] {
      var n := |sids| - 1;
      assert Names(sids)[..n] == Names(sids[..n]);
      SidsOfNames(sids[..n]);
      NameIsTrim(sids[n]);
      NameReadsBack(sids[n]);
      assert sids == sids[..n] + [sids[n]];
    }
  }

  /** From tmux's listing the program reads back exactly its sessions. */
  lemma ListingReadsBack(sids: seq<Sid>)
    ensures Listed(Some(Listing(Names(sids)))) == sids
  {
    forall i | 0 <= i < |sids| ensures '\n' !in Names(sids)[i] {
      NameIsTrim(sids[i]);
    }
    SplitListing(Names(sids));
    SidsOfNames(sids);
    var all := Names(sids) + [""];
    assert all[..|all| - 1] == Names(sids);
  }

  // ---- the run ------------------------------------------------------------------------------------

  datatype Meta = Meta(sid: Sid, tool: string, name: string, toolSession: string)

  datatype Live = Live(meta: Meta, persisted: bool)

  /**
   dirs holds the session directories, and what their meta file says if there
   is one; held the sessions in tmux of which this process has, or had, a
   Session object. The rest is bookkeeping: every session as it was opened, the
   closed ones whose directory is gone, and those opened in tmux with their
   meta written, not closed since and never passed over by a start.
   */
  datatype State = State(tmux: set<string>, dirs: map<Sid, Option<Meta>>, sessions: map<Sid, Live>, held: set<Sid>,
                         up: bool, persist: bool, history: map<Sid, Meta>, gone: set<Sid>, owed: set<Sid>)

  datatype Event =
    | Open(sid: Sid, tool: string, name: string, made: bool, written: bool) // directory made, meta written
    | Note(sid: Sid, id: string)                        // the tool's own session id
    | Close(sid: Sid, killed: bool, removed: bool)      // tmux killed, directory removed
    | Exit(sid: Sid)                                    // the shell in tmux ends
    | Respawn(sid: Sid)                                 // tmux new-session -A, by re-attach or kill-and-resume
    | Down                                              // suspended, or killed
    | Up(persist: bool, listed: bool, failing: set<Sid>)
      // started; whether tmux could be asked, and what cannot be adopted this time

  const START := State({}, map[], map[], {}, false, false, map[], {}, {})

  predicate Alive(tmux: set<string>, sid: Sid) {
    exists name :: name in tmux && PersistSID(name) == Some(sid)
  }

  /** What adoptSessions takes to be alive. */
  predicate SeenAlive(s: State, listed: bool, sid: Sid) {
    listed && Alive(s.tmux, sid)
  }

  /** adoptSessions: directories not seen alive go, those with a readable meta come back. */
  function Adopt(s: State, listed: bool, failing: set<Sid>): State {
    var more := map sid | sid in s.dirs && SeenAlive(s, listed, sid) && s.dirs[sid].Some? && sid !in failing ::
                  Live(s.dirs[sid].value, true);
    s.(sessions := s.sessions + more, held := s.held + more.Keys,
       dirs := map sid | sid in s.dirs && SeenAlive(s, listed, sid) :: s.dirs[sid],
       owed := set sid | sid in s.owed && SeenAlive(s, listed, sid))
  }

  function OpenStep(s: State, sid: Sid, tool: string, name: string, made: bool, written: bool): State {
    var meta := Meta(sid, tool, name, "");
    s.(tmux := if s.persist then s.tmux + {PersistName(sid)} else s.tmux,
       held := if s.persist then s.held + {sid} else s.held,
       dirs := if made then s.dirs[sid := if s.persist && written then Some(meta) else None] else s.dirs,
       sessions := s.sessions[sid := Live(meta, s.persist)],
       history := s.history[sid := meta],
       owed := if s.persist && made && written then s.owed + {sid} else s.owed)
  }

  function CloseStep(s: State, sid: Sid, killed: bool, removed: bool): State
    requires sid in s.sessions
  {
    s.(sessions := s.sessions - {sid},
       tmux := if killed && s.sessions[sid].persisted then s.tmux - {PersistName(sid)} else s.tmux,
       dirs := if removed then s.dirs - {sid} else s.dirs,
       gone := if removed then s.gone + {sid} else s.gone,
       owed := s.owed - {sid})
  }

  function Step(s: State, e: Event): State {
    match e
    case Open(sid, tool, name, made, written) =>
      if s.up && sid !in s.history then OpenStep(s, sid, tool, name, made, written) else s
    case Note(sid, id) =>
      if s.up && s.persist && id != "" && sid in s.dirs && s.dirs[sid].Some?
      then s.(dirs := s.dirs[sid := Some(s.dirs[sid].value.(toolSession := id))]) else s
    case Close(sid, killed, removed) =>
      if s.up && sid in s.sessions then CloseStep(s, sid, killed, removed) else s
    case Exit(sid) => s.(tmux := s.tmux - {PersistName(sid)})
    case Respawn(sid) => if sid in s.held then s.(tmux := s.tmux + {PersistName(sid)}) else s
    case Down => s.(up := false, sessions := map[], held := {})
    case Up(persist, listed, failing) =>
      if s.up then s
      else
        var t := s.(up := true, persist := persist);
        if persist then Adopt(t, listed, failing) else t
  }

  function Run(s: State, es: seq<Event>): State
    decreases |es|
  {
    if es == [] then s else Run(Step(s, es[0]), es[1..])
  }

  /** The directory still says how the session was opened. */
  ghost predicate Recorded(s: State, sid: Sid) {
    sid in s.dirs && s.dirs[sid].Some?
  }

  ghost predicate NamesOk(s: State) {
    forall name :: name in s.tmux ==> exists sid: Sid :: sid in s.history && name == PersistName(sid)
  }

  ghost predicate MetaOk(m: Meta, sid: Sid, history: map<Sid, Meta>) {
    sid in history && m == history[sid].(toolSession := m.toolSession)
  }

  ghost predicate DirsOk(s: State) {
    && (forall sid :: sid in s.dirs ==> sid in s.history)
    && (forall sid :: Recorded(s, sid) ==> MetaOk(s.dirs[sid].value, sid, s.history))
  }

  ghost predicate SessionsOk(s: State) {
    && (!s.up ==> s.sessions == map[] && s.held == {})
    && (forall sid :: sid in s.held ==> sid in s.history)
    && (forall sid :: sid in s.sessions ==> SessionOk(s, sid, s.sessions[sid]))
  }

  ghost predicate SessionOk(s: State, sid: Sid, l: Live) {
    && MetaOk(l.meta, sid, s.history) && sid !in s.gone
    && (if l.persisted then sid in s.held else sid !in s.held && PersistName(sid) !in s.tmux && !Recorded(s, sid))
  }

  /** A closed session whose directory was removed has none ever after. */
  ghost predicate GoneOk(s: State) {
    forall sid :: sid in s.gone ==> sid in s.history && sid !in s.dirs
  }

  ghost predicate OwedOk(s: State) {
    forall sid :: sid in s.owed ==> sid in s.history && Recorded(s, sid)
  }

  ghost predicate Inv(s: State) {
    NamesOk(s) && DirsOk(s) && SessionsOk(s) && GoneOk(s) && OwedOk(s)
  }

  lemma AliveIsName(s: State, sid: Sid)
    requires NamesOk(s)
    ensures Alive(s.tmux, sid) <==> PersistName(sid) in s.tmux
  {
    NameReadsBack(sid);
    if name :| name in s.tmux && PersistSID(name) == Some(sid) {
      var other: Sid :| other in s.history && name == PersistName(other);
      NameReadsBack(other);
    }
  }

  lemma SameName(a: Sid, b: Sid)
    requires PersistName(a) == PersistName(b)
    ensures a == b
  {
    NameReadsBack(a);
    NameReadsBack(b);
  }

  lemma FreshName(s: State, sid: Sid)
    requires NamesOk(s) && sid !in s.history
    ensures PersistName(sid) !in s.tmux && forall x :: x in s.history ==> PersistName(x) != PersistName(sid)
  {
    forall x | x in s.history ensures PersistName(x) != PersistName(sid) {
      if PersistName(x) == PersistName(sid) {
        SameName(x, sid);
        assert false;
      }
    }
  }

  lemma OpenKeeps(s: State, sid: Sid, tool: string, name: string, made: bool, written: bool)
    requires Inv(s) && s.up && sid !in s.history
    ensures Inv(OpenStep(s, sid, tool, name, made, written))
  {
    var t := OpenStep(s, sid, tool, name, made, written);
    FreshName(s, sid);
    assert NamesOk(t);
    OpenKeepsDirs(s, t, sid, Meta(sid, tool, name, ""));
    OpenKeepsSessions(s, t, sid, Meta(sid, tool, name, ""));
  }

  /** What opening does to the directories, and to what is said about them. */
  ghost predicate OpenedDir(s: State, t: State, sid: Sid, meta: Meta) {
    && meta.sid == sid && meta.toolSession == ""
    && t.history == s.history[sid := meta] && t.gone == s.gone
    && t.tmux == (if s.persist then s.tmux + {PersistName(sid)} else s.tmux)
    && (|| (t.dirs == s.dirs && t.owed == s.owed)
        || (t.dirs == s.dirs[sid := Some(meta)] && t.owed == s.owed + {sid})
        || (t.dirs == s.dirs[sid := None] && t.owed == s.owed))
  }

  lemma OpenKeepsDirs(s: State, t: State, sid: Sid, meta: Meta)
    requires Inv(s) && sid !in s.history && OpenedDir(s, t, sid, meta)
    requires forall x :: x in s.history ==> PersistName(x) != PersistName(sid)
    requires sid !in s.owed
    ensures DirsOk(t) && GoneOk(t) && OwedOk(t)
  {
    forall x | Recorded(t, x) ensures MetaOk(t.dirs[x].value, x, t.history) {
      if x != sid {
        assert Recorded(s, x);
      }
    }
    forall x | x in t.owed ensures x in t.history && Recorded(t, x) {
      if x != sid {
        assert x in s.history;
        assert Recorded(s, x);
      }
    }
  }

  lemma OpenKeepsSessions(s: State, t: State, sid: Sid, meta: Meta)
    requires Inv(s) && s.up && sid !in s.history && OpenedDir(s, t, sid, meta) && t.up
    requires t.sessions == s.sessions[sid := Live(meta, s.persist)]
    requires t.held == if s.persist then s.held + {sid} else s.held
    requires !s.persist ==> !Recorded(t, sid)
    requires PersistName(sid) !in s.tmux && forall x :: x in s.history ==> PersistName(x) != PersistName(sid)
    ensures SessionsOk(t)
  {
    forall x | x in t.sessions ensures SessionOk(t, x, t.sessions[x]) {
      if x != sid {
        assert SessionOk(s, x, s.sessions[x]);
      }
    }
  }

  lemma CloseKeeps(s: State, sid: Sid, killed: bool, removed: bool)
    requires Inv(s) && s.up && sid in s.sessions
    ensures Inv(CloseStep(s, sid, killed, removed))
  {
    var t := CloseStep(s, sid, killed, removed);
    assert SessionOk(s, sid, s.sessions[sid]);
    forall x | x in t.sessions ensures SessionOk(t, x, t.sessions[x]) {
      assert SessionOk(s, x, s.sessions[x]);
    }
  }

  lemma AdoptKeeps(s: State, listed: bool, failing: set<Sid>)
    requires Inv(s) && s.sessions == map[] && s.held == {} && s.up
    ensures Inv(Adopt(s, listed, failing))
  {
    var u := Adopt(s, listed, failing);
    forall sid | sid in u.sessions ensures SessionOk(u, sid, u.sessions[sid]) {
      assert Recorded(s, sid);
    }
    forall sid | sid in u.owed ensures sid in u.history && Recorded(u, sid) {
      assert Recorded(s, sid);
    }
    assert DirsOk(u) by {
      assert forall sid :: Recorded(u, sid) ==> Recorded(s, sid);
    }
  }

  /** The agent goes down, or comes up without persistence. */
  lemma IdleKeeps(s: State, up: bool, persist: bool)
    requires Inv(s)
    ensures Inv(s.(up := up, persist := persist, sessions := map[], held := {}))
  {
  }

  /** A shell in tmux ends, or one comes back under its name. */
  lemma TmuxKeeps(s: State, sid: Sid, back: bool)
    requires Inv(s) && (back ==> sid in s.held)
    ensures Inv(s.(tmux := if back then s.tmux + {PersistName(sid)} else s.tmux - {PersistName(sid)}))
  {
    var t := s.(tmux := if back then s.tmux + {PersistName(sid)} else s.tmux - {PersistName(sid)});
    forall x | x in t.sessions ensures SessionOk(t, x, t.sessions[x]) {
      assert SessionOk(s, x, s.sessions[x]);
      if PersistName(x) == PersistName(sid) {
        SameName(x, sid);
      }
    }
  }

  lemma NoteKeeps(s: State, sid: Sid, id: string)
    requires Inv(s)
    ensures Inv(Step(s, Note(sid, id)))
  {
    assert Recorded(s, sid) ==> MetaOk(s.dirs[sid].value, sid, s.history);
    var t := Step(s, Note(sid, id));
    forall x ensures Recorded(t, x) <==> Recorded(s, x) {
    }
    forall x | x in t.sessions ensures SessionOk(t, x, t.sessions[x]) {
      assert SessionOk(s, x, s.sessions[x]);
    }
  }

  lemma StepKeeps(s: State, e: Event)
    requires Inv(s)
    ensures Inv(Step(s, e)) && s.gone <= Step(s, e).gone
  {
    match e
    case Open(sid, tool, name, made, written) =>
      if s.up && sid !in s.history { OpenKeeps(s, sid, tool, name, made, written); }
    case Note(sid, id) => NoteKeeps(s, sid, id);
    case Close(sid, killed, removed) => if s.up && sid in s.sessions { CloseKeeps(s, sid, killed, removed); }
    case Exit(sid) => TmuxKeeps(s, sid, false);
    case Respawn(sid) => if sid in s.held { TmuxKeeps(s, sid, true); }
    case Down => IdleKeeps(s, false, s.persist);
    case Up(persist, listed, failing) =>
      if !s.up {
        IdleKeeps(s, true, persist);
        if persist { AdoptKeeps(s.(up := true, persist := persist), listed, failing); }
      }
  }

  lemma {:induction false} RunKeeps(s: State, es: seq<Event>)
    requires Inv(s)
    ensures Inv(Run(s, es)) && s.gone <= Run(s, es).gone
    decreases |es|
  {
    if es != [] {
      StepKeeps(s, es[0]);
      RunKeeps(Step(s, es[0]), es[1..]);
    }
  }

  /**
   After any run, a starting agent that can ask tmux takes back exactly the
   live sessions whose meta can be read, each as it was opened; that includes
   every one whose meta was written and that was not closed. It removes
   exactly the dead directories and leaves tmux alone.
   */
  lemma AdoptionIsExact(es: seq<Event>, listed: bool, failing: set<Sid>, sid: Sid)
    requires !Run(START, es).up
    ensures var s, t := Run(START, es), Step(Run(START, es), Up(true, listed, failing));
      && (sid in t.sessions <==> listed && PersistName(sid) in s.tmux && Recorded(s, sid) && sid !in failing)
      && (listed && sid in s.owed && PersistName(sid) in s.tmux && sid !in failing ==> sid in t.sessions)
      && (sid in t.sessions ==>
        var l := t.sessions[sid];
        && sid in s.history && l.persisted && l.meta == s.dirs[sid].value
        && l.meta.(toolSession := "") == s.history[sid].(toolSession := ""))
      && (sid in t.dirs <==> listed && sid in s.dirs && PersistName(sid) in s.tmux)
      && (sid in t.dirs ==> t.dirs[sid] == s.dirs[sid])
      && t.tmux == s.tmux
  {
    RunKeeps(START, es);
    var s := Run(START, es);
    AliveIsName(s, sid);
    if Recorded(s, sid) {
      assert MetaOk(s.dirs[sid].value, sid, s.history);
    }
  }

  /** The directory of a session that is still running. */
  predicate LiveDir(s: State, sid: Sid) {
    sid in s.dirs && PersistName(sid) in s.tmux
  }

  /**
   Exactly when a start spares the directories of all live sessions: tmux could
   be asked, or there are none. When it could not be asked, all directories go
   and no session comes back.
   */
  lemma LiveDirsSurviveIff(es: seq<Event>, listed: bool, failing: set<Sid>)
    requires !Run(START, es).up
    ensures var s, t := Run(START, es), Step(Run(START, es), Up(true, listed, failing));
      && ((forall sid :: LiveDir(s, sid) ==> LiveDir(t, sid)) <==> listed || forall sid :: !LiveDir(s, sid))
      && (!listed ==> t.dirs == map[] && t.sessions == map[])
  {
    RunKeeps(START, es);
    var s, t := Run(START, es), Step(Run(START, es), Up(true, listed, failing));
    forall sid | LiveDir(s, sid) ensures LiveDir(t, sid) <==> listed {
      AliveIsName(s, sid);
    }
    if !listed {
      assert t.dirs == map[] && t.sessions == map[];
    }
  }

  /** A session opened and left running; one start cannot ask tmux, and no later one takes the session back. */
  lemma FailedListingLosesSession(after: seq<Event>, sid: Sid)
    ensures var s := Run(START, [Up(true, true, {}), Open(sid, "claude", "a", true, true), Down, Up(true, false, {})]);
      PersistName(sid) in s.tmux && sid !in Run(s, after).sessions
  {
    var s1 := Step(START, Up(true, true, {}));
    var s2 := Step(s1, Open(sid, "claude", "a", true, true));
    var s3 := Step(s2, Down);
    var s := Step(s3, Up(true, false, {}));
    Unroll(s3, Up(true, false, {}), []);
    Unroll(s2, Down, [Up(true, false, {})] + []);
    Unroll(s1, Open(sid, "claude", "a", true, true), [Down] + ([Up(true, false, {})] + []));
    var es := [Up(true, true, {})] + ([Open(sid, "claude", "a", true, true)] + ([Down] + ([Up(true, false, {})] + [])));
    Unroll(START, Up(true, true, {}), es[1..]);
    assert es == [Up(true, true, {}), Open(sid, "claude", "a", true, true), Down, Up(true, false, {})];
    RunKeeps(START, es);
    assert s.dirs == map[];
    NoRecordStays(s, after, sid);
  }

  // ---- what opening, noting and closing do --------------------------------------------------------

  /** Everything about the other sessions is as it was. */
  ghost predicate OthersSame(s: State, t: State, sid: Sid) {
    && t.sessions - {sid} == s.sessions - {sid} && t.dirs - {sid} == s.dirs - {sid}
    && t.tmux - {PersistName(sid)} == s.tmux - {PersistName(sid)} && t.up == s.up
  }

  /** A new session runs, in tmux if the agent persists sessions, and is recorded as opened if its meta could be written. */
  lemma OpenIsExact(s: State, sid: Sid, tool: string, name: string, made: bool, written: bool)
    requires Inv(s) && s.up && sid !in s.history
    ensures var t := Step(s, Open(sid, tool, name, made, written)); var meta := Meta(sid, tool, name, "");
      && OthersSame(s, t, sid) && sid in t.sessions && t.sessions[sid] == Live(meta, s.persist)
      && (PersistName(sid) in t.tmux <==> s.persist)
      && (if made && s.persist && written then sid in t.dirs && t.dirs[sid] == Some(meta) else !Recorded(t, sid))
  {
    FreshName(s, sid);
  }

  /** The tool's own session id is all that a note changes in a recorded meta. */
  lemma NoteIsExact(s: State, sid: Sid, id: string)
    requires s.up && s.persist && id != "" && Recorded(s, sid)
    ensures var t := Step(s, Note(sid, id));
      OthersSame(s, t, sid) && t.sessions == s.sessions && t.tmux == s.tmux
      && Recorded(t, sid) && t.dirs[sid].value == s.dirs[sid].value.(toolSession := id)
  {
  }

  /** A closed session is no longer the agent's, and what was killed or removed is gone. */
  lemma CloseIsExact(s: State, sid: Sid, killed: bool, removed: bool)
    requires Inv(s) && s.up && sid in s.sessions
    ensures var t := Step(s, Close(sid, killed, removed));
      && OthersSame(s, t, sid) && sid !in t.sessions
      && (PersistName(sid) in t.tmux <==> PersistName(sid) in s.tmux && !killed)
      && (sid in t.dirs <==> sid in s.dirs && !removed) && (sid in t.dirs ==> t.dirs[sid] == s.dirs[sid])
  {
    assert SessionOk(s, sid, s.sessions[sid]);
  }

  /** What the world does: a shell ends, its name is brought back, the agent stops. Nothing on disk changes. */
  lemma OutsideIsExact(s: State, sid: Sid)
    ensures var ended := Step(s, Exit(sid));
      PersistName(sid) !in ended.tmux && OthersSame(s, ended, sid) && ended.sessions == s.sessions && ended.dirs == s.dirs
    ensures var back := Step(s, Respawn(sid));
      && OthersSame(s, back, sid) && back.sessions == s.sessions && back.dirs == s.dirs
      && (PersistName(sid) in back.tmux <==> PersistName(sid) in s.tmux || sid in s.held)
    ensures var stopped := Step(s, Down);
      !stopped.up && stopped.sessions == map[] && stopped.held == {} && stopped.tmux == s.tmux && stopped.dirs == s.dirs
  {
  }

  /** Open, the tool tells its session id, the agent stops and starts: the session is back as it was. */
  lemma OpenedComesBack(s: State, sid: Sid, tool: string, name: string, id: string)
    requires Inv(s) && s.up && s.persist && sid !in s.history && id != ""
    ensures var noted := Step(Step(s, Open(sid, tool, name, true, true)), Note(sid, id));
      var t := Step(Step(noted, Down), Up(true, true, {}));
      sid in t.sessions && t.sessions[sid] == Live(Meta(sid, tool, name, id), true)
  {
    NameReadsBack(sid);
    var u := Step(Step(Step(s, Open(sid, tool, name, true, true)), Note(sid, id)), Down);
    assert PersistName(sid) in u.tmux && Alive(u.tmux, sid);
  }

  // ---- closed sessions ----------------------------------------------------------------------------

  lemma ComesBack(s: State, sid: Sid)
    requires Inv(s) && s.up && sid in s.held && Recorded(s, sid)
    ensures sid in Run(s, [Respawn(sid), Down, Up(true, true, {})]).sessions
  {
    ThreeSteps(s, Respawn(sid), Down, Up(true, true, {}));
    NameReadsBack(sid);
    assert PersistName(sid) in Step(Step(s, Respawn(sid)), Down).tmux;
  }

  lemma ThreeSteps(s: State, e: Event, f: Event, g: Event)
    ensures Run(s, [e, f, g]) == Step(Step(Step(s, e), f), g)
  {
    Unroll(Step(Step(s, e), f), g, []);
    Unroll(Step(s, e), f, [g]);
    Unroll(s, e, [f, g]);
    assert [g] + [] == [g] && [f] + [g] == [f, g] && [e] + [f, g] == [e, f, g];
  }

  lemma Unroll(s: State, e: Event, es: seq<Event>)
    ensures Run(s, [e] + es) == Run(Step(s, e), es)
  {
    assert ([e] + es)[1..] == es;
  }

  /**
   Exactly when a closed session stays away in every later run: its directory
   was removed, or there was no meta in it to adopt it by. Killing it in tmux
   is not enough, because a re-attach or kill-and-resume under way can bring
   its name back.
   */
  lemma ClosedForGoodIff(before: seq<Event>, killed: bool, removed: bool, sid: Sid)
    requires var s := Run(START, before); s.up && sid in s.sessions
    ensures var s := Run(START, before);
      (forall after :: sid !in Run(Step(s, Close(sid, killed, removed)), after).sessions) <==> removed || !Recorded(s, sid)
  {
    var s := Run(START, before);
    var t := Step(s, Close(sid, killed, removed));
    RunKeeps(START, before);
    StepKeeps(s, Close(sid, killed, removed));
    assert SessionOk(s, sid, s.sessions[sid]);
    if removed || !Recorded(s, sid) {
      forall after ensures sid !in Run(t, after).sessions {
        NoRecordStays(t, after, sid);
      }
    } else {
      ComesBack(t, sid);
    }
  }

  /** Without a meta in its directory a session of the past is never adopted. */
  lemma {:induction false} NoRecordStays(s: State, es: seq<Event>, sid: Sid)
    requires Inv(s) && sid in s.history && sid !in s.sessions && !Recorded(s, sid)
    ensures sid !in Run(s, es).sessions
    decreases |es|
  {
    if es != [] {
      StepKeeps(s, es[0]);
      NoRecordStep(s, es[0], sid);
      NoRecordStays(Step(s, es[0]), es[1..], sid);
    }
  }

  lemma NoRecordStep(s: State, e: Event, sid: Sid)
    requires sid in s.history && sid !in s.sessions && !Recorded(s, sid)
    ensures var t := Step(s, e); sid in t.history && sid !in t.sessions && !Recorded(t, sid)
  {
  }

  /** But killing is enough as long as nothing brings the name back. */
  lemma {:induction false} KilledStaysAway(s: State, es: seq<Event>, sid: Sid)
    requires Inv(s) && sid in s.history && sid !in s.sessions && PersistName(sid) !in s.tmux
    requires forall e :: e in es ==> e != Respawn(sid)
    ensures sid !in Run(s, es).sessions && PersistName(sid) !in Run(s, es).tmux
    decreases |es|
  {
    if es != [] {
      assert es[0] in es;
      StepKeeps(s, es[0]);
      KilledStep(s, es[0], sid);
      forall e | e in es[1..] ensures e != Respawn(sid) {
        assert e in es;
      }
      KilledStaysAway(Step(s, es[0]), es[1..], sid);
    }
  }

  lemma KilledStep(s: State, e: Event, sid: Sid)
    requires Inv(s) && sid in s.history && sid !in s.sessions && PersistName(sid) !in s.tmux && e != Respawn(sid)
    ensures var t := Step(s, e); sid in t.history && sid !in t.sessions && PersistName(sid) !in t.tmux
  {
    AliveIsName(s, sid);
    if e.Respawn? && PersistName(e.sid) == PersistName(sid) {
      SameName(e.sid, sid);
    } else if e.Open? && PersistName(e.sid) == PersistName(sid) {
      SameName(e.sid, sid);
    }
  }

  // ---- as it runs ---------------------------------------------------------------------------------

  /** What the loop does with one directory entry. */
  function Visit(d: map<Sid, Option<Meta>>, m: map<Sid, Live>, entry: string, alive: seq<Sid>, failing: set<Sid>)
    : (map<Sid, Option<Meta>>, map<Sid, Live>)
  {
    var n := Parse(entry);
    if n.None? then (d, m)
    else if n.value !in alive then (d - {n.value}, m)
    else if n.value in d && d[n.value].Some? && n.value !in failing then (d, m[n.value := Live(d[n.value].value, true)])
    else (d, m)
  }

  function VisitAll(d: map<Sid, Option<Meta>>, m: map<Sid, Live>, entries: seq<string>, alive: seq<Sid>, failing: set<Sid>)
    : (map<Sid, Option<Meta>>, map<Sid, Live>)
  {
    if entries == [] then (d, m)
    else
      var (d1, m1) := VisitAll(d, m, entries[..|entries| - 1], alive, failing);
      Visit(d1, m1, entries[|entries| - 1], alive, failing)
  }

  /** The loop has come past a directory entry of this session. */
  predicate Seen(entries: seq<string>, sid: Sid) {
    entries != [] && (Seen(entries[..|entries| - 1], sid) || Parse(entries[|entries| - 1]) == Some(sid))
  }

  predicate Takes(d: map<Sid, Option<Meta>>, alive: seq<Sid>, failing: set<Sid>, sid: Sid) {
    sid in d && sid in alive && d[sid].Some? && sid !in failing
  }

  lemma {:induction false} Visited(d: map<Sid, Option<Meta>>, m: map<Sid, Live>, entries: seq<string>,
                                   alive: seq<Sid>, failing: set<Sid>, sid: Sid)
    ensures var (d1, m1) := VisitAll(d, m, entries, alive, failing);
      && (sid in d1 <==> sid in d && (sid in alive || !Seen(entries, sid)))
      && (sid in d1 ==> d1[sid] == d[sid])
      && (if Seen(entries, sid) && Takes(d, alive, failing, sid) then sid in m1 && m1[sid] == Live(d[sid].value, true)
          else (sid in m1 <==> sid in m) && (sid in m1 ==> m1[sid] == m[sid]))
  {
    if entries != [] {
      Visited(d, m, entries[..|entries| - 1], alive, failing, sid);
    }
  }

  lemma {:induction false} SeenIn(entries: seq<string>, sid: Sid)
    requires Format(sid) in entries
    ensures Seen(entries, sid)
  {
    var less := entries[..|entries| - 1];
    assert entries == less + [entries[|entries| - 1]];
    ParseOfFormat(sid);
    if Format(sid) in less {
      SeenIn(less, sid);
    }
  }

  lemma VisitedAsAdopted(s: State, entries: seq<string>, alive: seq<Sid>, listed: bool, failing: set<Sid>, t: State, sid: Sid)
    requires sid in alive <==> SeenAlive(s, listed, sid)
    requires sid in s.dirs ==> Format(sid) in entries
    requires t == Adopt(s, listed, failing)
    ensures var (d, m) := VisitAll(s.dirs, s.sessions, entries, alive, failing);
      && (sid in d <==> sid in t.dirs) && (sid in d ==> d[sid] == t.dirs[sid])
      && (sid in m <==> sid in t.sessions) && (sid in m ==> m[sid] == t.sessions[sid])
  {
    Visited(s.dirs, s.sessions, entries, alive, failing, sid);
    if sid in s.dirs {
      SeenIn(entries, sid);
    }
  }

  lemma SameMap<T>(a: map<Sid, T>, b: map<Sid, T>)
    requires forall sid: Sid :: (sid in a <==> sid in b) && (sid in a ==> a[sid] == b[sid])
    ensures a == b
  {
  }

  /** Going over all directories amounts to the adoption described above. */
  lemma VisitAllIsAdopt(s: State, entries: seq<string>, alive: seq<Sid>, listed: bool, failing: set<Sid>, t: State)
    requires forall sid: Sid :: sid in alive <==> SeenAlive(s, listed, sid)
    requires forall sid :: sid in s.dirs ==> Format(sid) in entries
    requires t == Adopt(s, listed, failing)
    ensures VisitAll(s.dirs, s.sessions, entries, alive, failing) == (t.dirs, t.sessions)
  {
    var (d, m) := VisitAll(s.dirs, s.sessions, entries, alive, failing);
    forall sid: Sid
      ensures (sid in d <==> sid in t.dirs) && (sid in d ==> d[sid] == t.dirs[sid])
      ensures (sid in m <==> sid in t.sessions) && (sid in m ==> m[sid] == t.sessions[sid])
    {
      VisitedAsAdopted(s, entries, alive, listed, failing, t, sid);
    }
    SameMap(d, t.dirs);
    SameMap(m, t.sessions);
  }

  class Agent {
    var dirs: map<Sid, Option<Meta>>
    var sessions: map<Sid, Live>

    /**
     out is tmux's listing, if it gave one, and then of what is in s.tmux;
     entries are the names under the sessions directory.
     */
    method AdoptSessions(out: Option<string>, entries: seq<string>, failing: set<Sid>, ghost s: State)
      requires s.sessions == sessions && s.dirs == dirs
      requires out.Some? ==> forall sid: Sid :: sid in Listed(out) <==> Alive(s.tmux, sid)
      requires forall sid :: sid in dirs ==> Format(sid) in entries
      modifies this
      ensures sessions == Adopt(s, out.Some?, failing).sessions && dirs == Adopt(s, out.Some?, failing).dirs
    {
      var alive := TmuxSessions(out);
      for i := 0 to |entries|
        invariant (dirs, sessions) == VisitAll(s.dirs, s.sessions, entries[..i], alive, failing)
      {
        assert entries[..i + 1][..i] == entries[..i];
        var n := Parse(entries[i]);
        if n.Some? {
          var sid: Sid := n.value;
          if sid !in alive {
            dirs := dirs - {sid};
          } else if sid in dirs && dirs[sid].Some? {
            if sid !in failing {
              sessions := sessions[sid := Live(dirs[sid].value, true)];
            }
          }
        }
      }
      assert entries[..|entries|] == entries;
      VisitAllIsAdopt(s, entries, alive, out.Some?, failing, Adopt(s, out.Some?, failing));
    }
  }
}
