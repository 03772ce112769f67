/**
 The printers: the line typed into the shell to start a tool, its quoting,
 and the TOML array given to codex. Each is undone by its reader.
 */
module CommandLine {
  import opened Wrappers
  import opened Readers

  // ---- quoting ----------------------------------------------------------------------------------

  /** What makes QuoteArg quote; the hook printer adds the newline. */
  const SPECIAL := " \t\"'`$&|;<>()[]{}*?!\\#~^%,"
  const HOOK_SPECIAL := SPECIAL + "\n"

  predicate ContainsAny(s: string, chars: string) {
    exists i :: 0 <= i < |s| && s[i] in chars
  }

  function Replace(s: string, c: char, with: string): string {
    if s == "" then "" else (if s[0] == c then with else [s[0]]) + Replace(s[1..], c, with)
  }

  const ESCAPED := "'\\''"

  function SingleQuoted(s: string): string {
    "'" + Replace(s, '\'', ESCAPED) + "'"
  }

  datatype ShellKind = PowerShell | Cmd | Sh

  function QuoteArg(kind: ShellKind, s: string): string {
    if s != "" && !ContainsAny(s, SPECIAL) then s
    else
      match kind
      case PowerShell => "'" + Replace(s, '\'', "''") + "'"
      case Cmd => "\"" + Replace(s, '"', "\\\"") + "\""
      case Sh => SingleQuoted(s)
  }

  function HookQuote(s: string): string {
    if s != "" && !ContainsAny(s, HOOK_SPECIAL) then s else SingleQuoted(s)
  }

  /** A word that reaches the shell without its newlines ending the line. */
  predicate NewlineSafe(s: string) {
    '\n' !in s || ContainsAny(s, SPECIAL)
  }

  lemma {:induction false} EscapedReadsBack(s: string, rest: string, cur: string, done: seq<string>)
    ensures Lex(Replace(s, '\'', ESCAPED) + "'" + rest, Single, Some(cur), done) == Lex(rest, Bare, Some(cur + s), done)
    decreases |s|
  {
    if s == "" {
      assert cur + s == cur;
      assert ("" + "'" + rest)[1..] == rest;
    } else {
      var tail := Replace(s[1..], '\'', ESCAPED) + "'" + rest;
      assert cur + [s[0]] + s[1..] == cur + s;
      EscapedReadsBack(s[1..], rest, cur + [s[0]], done);
      OneEscaped(s[0], tail, cur, done);
      assert Replace(s, '\'', ESCAPED) + "'" + rest == (if s[0] == '\'' then ESCAPED else [s[0]]) + tail;
    }
  }

  lemma OneEscaped(c: char, tail: string, cur: string, done: seq<string>)
    ensures Lex((if c == '\'' then ESCAPED else [c]) + tail, Single, Some(cur), done) == Lex(tail, Single, Some(cur + [c]), done)
  {
    if c == '\'' {
      QuoteInQuotes(tail, cur, done);
    } else {
      assert ([c] + tail)[1..] == tail;
    }
  }

  /** Out of the quotes, an escaped quote, and back in. */
  lemma QuoteInQuotes(tail: string, cur: string, done: seq<string>)
    ensures Lex("'\\''" + tail, Single, Some(cur), done) == Lex(tail, Single, Some(cur + "'"), done)
  {
    var a := "'\\''" + tail;
    assert a[1..] == "\\''" + tail;
    assert a[1..][2..] == "'" + tail;
    assert ("'" + tail)[1..] == tail;
    assert Lex(a, Single, Some(cur), done) == Lex("\\''" + tail, Bare, Some(cur), done);
    assert Lex("\\''" + tail, Bare, Some(cur), done) == Lex("'" + tail, Bare, Some(cur + "'"), done);
  }

  /** What stands in single quotes is read back, whatever it is and whatever follows. */
  lemma SingleQuotedReadsBack(s: string, rest: string, done: seq<string>)
    ensures Lex(SingleQuoted(s) + rest, Bare, None, done) == Lex(rest, Bare, Some(s), done)
  {
    var all := SingleQuoted(s) + rest;
    assert all[1..] == Replace(s, '\'', ESCAPED) + "'" + rest;
    assert all[0] == '\'';
    EscapedReadsBack(s, rest, "", done);
    assert "" + s == s;
  }

  predicate Plain(c: char) {
    c !in SPECIAL && c != '\n'
  }

  /** Nothing the shell treats specially is plain. */
  lemma PlainChar(c: char)
    requires Plain(c)
    ensures !IsOperator(c) && !Expands(c)
    ensures c != ' ' && c != '\t' && c != '\'' && c != '"' && c != '\\' && c != '#' && c != '~'
  {
    var s := SPECIAL;
    assert s[0] == ' ' && s[1] == '\t' && s[2] == '"' && s[3] == '\'' && s[4] == '`' && s[5] == '$' && s[6] == '&';
    assert s[7] == '|' && s[8] == ';' && s[9] == '<' && s[10] == '>' && s[11] == '(' && s[12] == ')' && s[13] == '[';
    assert s[17] == '*' && s[18] == '?' && s[20] == '\\' && s[21] == '#' && s[22] == '~';
  }

  lemma {:induction false} PlainReadsBack(s: string, rest: string, cur: Option<string>, done: seq<string>)
    requires forall i :: 0 <= i < |s| ==> Plain(s[i])
    ensures Lex(s + rest, Bare, cur, done) ==
      Lex(rest, Bare, if s == "" then cur else Some((if cur.Some? then cur.value else "") + s), done)
    decreases |s|
  {
    if s == "" {
      assert s + rest == rest;
    } else {
      assert (s + rest)[1..] == s[1..] + rest;
      PlainChar(s[0]);
      var c := if cur.Some? then cur.value else "";
      assert Lex(s + rest, Bare, cur, done) == Lex(s[1..] + rest, Bare, Some(c + [s[0]]), done);
      PlainReadsBack(s[1..], rest, Some(c + [s[0]]), done);
      assert c + [s[0]] + s[1..] == c + s;
      if s[1..] == "" {
        assert c + [s[0]] == c + s;
      }
    }
  }

  /** An unquoted newline ends the line: what follows it is another command. */
  lemma {:induction false} RawNewlineEnds(s: string, rest: string, cur: Option<string>, done: seq<string>)
    requires !ContainsAny(s, SPECIAL) && '\n' in s
    ensures var r := Lex(s + rest, Bare, cur, done); r.Line? && r.rest.Some?
    decreases |s|
  {
    assert (s + rest)[1..] == s[1..] + rest;
    if s[0] != '\n' {
      assert Plain(s[0]) by {
        assert s[0] !in SPECIAL;
      }
      PlainChar(s[0]);
      forall i | 0 <= i < |s[1..]| ensures s[1..][i] !in SPECIAL {
        assert s[1..][i] == s[i + 1];
      }
      RawNewlineEnds(s[1..], rest, Grow(cur, s[0]), done);
    }
  }

  lemma ArgReadsBack(s: string, rest: string, done: seq<string>)
    requires NewlineSafe(s)
    ensures Lex(QuoteArg(Sh, s) + rest, Bare, None, done) == Lex(rest, Bare, Some(s), done)
  {
    if s != "" && !ContainsAny(s, SPECIAL) {
      forall i | 0 <= i < |s| ensures Plain(s[i]) {
      }
      PlainReadsBack(s, rest, None, done);
      assert "" + s == s;
    } else {
      SingleQuotedReadsBack(s, rest, done);
    }
  }

  lemma HookArgReadsBack(s: string, rest: string, done: seq<string>)
    ensures Lex(HookQuote(s) + rest, Bare, None, done) == Lex(rest, Bare, Some(s), done)
  {
    if s != "" && !ContainsAny(s, HOOK_SPECIAL) {
      forall i | 0 <= i < |s| ensures Plain(s[i]) {
        assert s[i] !in HOOK_SPECIAL;
      }
      PlainReadsBack(s, rest, None, done);
      assert "" + s == s;
    } else {
      SingleQuotedReadsBack(s, rest, done);
    }
  }

  // ---- whole lines ------------------------------------------------------------------------------

  function Join(parts: seq<string>): string {
    if parts == [] then "" else if |parts| == 1 then parts[0] else parts[0] + " " + Join(parts[1..])
  }

  function QuoteAll(kind: ShellKind, argv: seq<string>): seq<string> {
    seq(|argv|, i requires 0 <= i < |argv| => QuoteArg(kind, argv[i]))
  }

  function HookQuoteAll(argv: seq<string>): seq<string> {
    seq(|argv|, i requires 0 <= i < |argv| => HookQuote(argv[i]))
  }

  /** A word that reads back, a blank, and whatever is read after them. */
  lemma NextWord(quoted: string, word: string, rest: string, done: seq<string>)
    requires Lex(quoted + (" " + rest), Bare, None, done) == Lex(" " + rest, Bare, Some(word), done)
    ensures Lex(quoted + " " + rest, Bare, None, done) == Lex(rest, Bare, None, done + [word])
  {
    assert quoted + " " + rest == quoted + (" " + rest);
    assert (" " + rest)[1..] == rest;
  }

  lemma LastWord(quoted: string, word: string, done: seq<string>)
    requires Lex(quoted + "", Bare, None, done) == Lex("", Bare, Some(word), done)
    ensures Lex(quoted, Bare, None, done) == Line(done + [word], None)
  {
    assert quoted + "" == quoted;
  }

  /** The first of several words. */
  lemma FirstWord(argv: seq<string>, done: seq<string>)
    requires |argv| > 1 && NewlineSafe(argv[0])
    ensures Lex(Join(QuoteAll(Sh, argv)), Bare, None, done) ==
      Lex(Join(QuoteAll(Sh, argv[1..])), Bare, None, done + [argv[0]])
  {
    assert QuoteAll(Sh, argv)[1..] == QuoteAll(Sh, argv[1..]);
    var rest := Join(QuoteAll(Sh, argv[1..]));
    ArgReadsBack(argv[0], " " + rest, done);
    NextWord(QuoteArg(Sh, argv[0]), argv[0], rest, done);
  }

  lemma OnlyWord(argv: seq<string>, done: seq<string>)
    requires |argv| == 1 && NewlineSafe(argv[0])
    ensures Lex(Join(QuoteAll(Sh, argv)), Bare, None, done) == Line(done + argv, None)
  {
    ArgReadsBack(argv[0], "", done);
    LastWord(QuoteArg(Sh, argv[0]), argv[0], done);
    assert Join(QuoteAll(Sh, argv)) == QuoteArg(Sh, argv[0]);
    assert argv == [argv[0]];
  }

  lemma {:induction false} LineReadsBack(argv: seq<string>, done: seq<string>)
    requires forall i :: 0 <= i < |argv| ==> NewlineSafe(argv[i])
    ensures Lex(Join(QuoteAll(Sh, argv)), Bare, None, done) == Line(done + argv, None)
    decreases |argv|
  {
    if argv == [] {
      assert done + argv == done;
    } else if |argv| == 1 {
      OnlyWord(argv, done);
    } else {
      FirstWord(argv, done);
      LineReadsBack(argv[1..], done + [argv[0]]);
      assert done + [argv[0]] + argv[1..] == done + argv;
    }
  }

  lemma {:induction false} LineBreaks(argv: seq<string>, done: seq<string>, k: nat)
    requires k < |argv| && !NewlineSafe(argv[k]) && forall i :: 0 <= i < k ==> NewlineSafe(argv[i])
    ensures var r := Lex(Join(QuoteAll(Sh, argv)), Bare, None, done); r.Line? && r.rest.Some?
    decreases |argv|
  {
    assert QuoteAll(Sh, argv)[1..] == QuoteAll(Sh, argv[1..]);
    var word := QuoteArg(Sh, argv[0]);
    var rest := if |argv| == 1 then "" else " " + Join(QuoteAll(Sh, argv[1..]));
    assert Join(QuoteAll(Sh, argv)) == word + rest;
    if k == 0 {
      RawNewlineEnds(argv[0], rest, None, done);
    } else {
      ArgReadsBack(argv[0], rest, done);
      assert rest[1..] == Join(QuoteAll(Sh, argv[1..]));
      LineBreaks(argv[1..], done + [argv[0]], k - 1);
    }
  }

  lemma {:induction false} FirstUnsafe(argv: seq<string>) returns (k: nat)
    ensures k <= |argv| && (k < |argv| ==> !NewlineSafe(argv[k])) && forall i :: 0 <= i < k ==> NewlineSafe(argv[i])
  {
    k := 0;
    while k < |argv| && NewlineSafe(argv[k])
      invariant k <= |argv| && forall i :: 0 <= i < k ==> NewlineSafe(argv[i])
    {
      k := k + 1;
    }
  }

  /** The shell takes the text for more than one command. */
  predicate OnlyPart(p: Parsed) {
    p.Line? && p.rest.Some?
  }

  /** The shell sees exactly the intended words, if and only if every word is newline-safe. */
  lemma LineReadsBackIff(argv: seq<string>)
    ensures ShellWords(Join(QuoteAll(Sh, argv))) == Line(argv, None) <==> forall i :: 0 <= i < |argv| ==> NewlineSafe(argv[i])
    ensures ShellWords(Join(QuoteAll(Sh, argv))) == Line(argv, None) || OnlyPart(ShellWords(Join(QuoteAll(Sh, argv))))
  {
    var k := FirstUnsafe(argv);
    if k < |argv| {
      LineBreaks(argv, [], k);
    } else {
      LineReadsBack(argv, []);
      assert [] + argv == argv;
    }
  }

  /** The hook printer quotes newlines too, so its line always reads back. */
  lemma {:induction false} HookLineReadsBack(argv: seq<string>, done: seq<string>)
    ensures Lex(Join(HookQuoteAll(argv)), Bare, None, done) == Line(done + argv, None)
    decreases |argv|
  {
    if argv == [] {
      assert done + argv == done;
    } else {
      assert HookQuoteAll(argv)[1..] == HookQuoteAll(argv[1..]);
      assert argv == [argv[0]] + argv[1..];
      var word := HookQuote(argv[0]);
      if |argv| == 1 {
        HookArgReadsBack(argv[0], "", done);
        LastWord(word, argv[0], done);
      } else {
        var rest := Join(HookQuoteAll(argv[1..]));
        HookArgReadsBack(argv[0], " " + rest, done);
        NextWord(word, argv[0], rest, done);
        HookLineReadsBack(argv[1..], done + [argv[0]]);
        assert done + [argv[0]] + argv[1..] == done + argv;
      }
    }
  }

  // ---- the TOML array -----------------------------------------------------------------------------

  function TomlChar(c: char): string {
    if c == '\\' then "\\\\" else if c == '"' then "\\\"" else if c == '\n' then "\\n" else [c]
  }

  function TomlEscaped(s: string): string {
    if s == "" then "" else TomlChar(s[0]) + TomlEscaped(s[1..])
  }

  function TomlString(s: string): string {
    "\"" + TomlEscaped(s) + "\""
  }

  /** The rest of the array, and whether a value stands before it. */
  function TomlItems(items: seq<string>, next: bool): string
    decreases |items|, next
  {
    if items == [] then "]"
    else if next then "," + TomlItems(items, false)
    else TomlString(items[0]) + TomlItems(items[1..], true)
  }

  function TomlArray(items: seq<string>): string {
    "[" + TomlItems(items, false)
  }

  /** No control characters but tab, which may stand, and newline, which is escaped. */
  predicate TomlSafe(s: string) {
    forall i :: 0 <= i < |s| ==> !Control(s[i]) || s[i] == '\n'
  }

  lemma {:induction false} StringReadsBack(s: string, rest: string)
    ensures ReadString(TomlEscaped(s) + "\"" + rest) == if TomlSafe(s) then Some((s, rest)) else None
  {
    var all := TomlEscaped(s) + "\"" + rest;
    if s == "" {
      assert all == "\"" + rest && all[1..] == rest;
    } else {
      var tail := TomlEscaped(s[1..]) + "\"" + rest;
      assert all == TomlChar(s[0]) + tail;
      StringReadsBack(s[1..], rest);
      assert TomlSafe(s) <==> TomlSafe(s[1..]) && (!Control(s[0]) || s[0] == '\n') by {
        assert s == [s[0]] + s[1..];
      }
      CharReadsBack(s[0], tail);
      assert s == [s[0]] + s[1..];
    }
  }

  lemma CharReadsBack(c: char, tail: string)
    ensures ReadString(TomlChar(c) + tail) == if Control(c) && c != '\n' then None else Prepend(c, ReadString(tail))
  {
    var all := TomlChar(c) + tail;
    if |TomlChar(c)| == 1 {
      assert all[1..] == tail;
    } else {
      assert all[2..] == tail;
    }
  }

  predicate AllTomlSafe(items: seq<string>) {
    items == [] || (TomlSafe(items[0]) && AllTomlSafe(items[1..]))
  }

  lemma {:induction false} ItemsReadBack(items: seq<string>, next: bool)
    ensures ReadItems(TomlItems(items, next), next) == if AllTomlSafe(items) then Some(items) else None
    decreases |items|, next
  {
    if items != [] {
      if next {
        ItemsReadBack(items, false);
        CommaRead(TomlItems(items, false));
      } else {
        ItemsReadBack(items[1..], true);
        ItemRead(items[0], TomlItems(items[1..], true));
        assert items == [items[0]] + items[1..];
      }
    }
  }

  lemma ItemRead(s: string, rest: string)
    ensures ReadItems(TomlString(s) + rest, false) ==
      if !TomlSafe(s) || ReadItems(rest, true) == None then None else Some([s] + ReadItems(rest, true).value)
  {
    var all := TomlString(s) + rest;
    assert all[0] == '"' && all[1..] == TomlEscaped(s) + "\"" + rest;
    StringReadsBack(s, rest);
  }

  lemma CommaRead(rest: string)
    ensures ReadItems("," + rest, true) == ReadItems(rest, false)
  {
    assert ("," + rest)[1..] == rest;
  }

  /** A TOML reader gets the strings back, if and only if none holds a control character other than tab and newline. */
  lemma ArrayReadsBackIff(items: seq<string>)
    ensures ReadArray(TomlArray(items)) == Some(items) <==> AllTomlSafe(items)
    ensures !AllTomlSafe(items) ==> ReadArray(TomlArray(items)) == None
  {
    ItemsReadBack(items, false);
    assert TomlArray(items)[1..] == TomlItems(items, false);
  }

  lemma CharWritten(was: string, s: string, k: nat, b: string)
    requires k < |s| && b == was + TomlChar(s[k])
    ensures b + TomlEscaped(s[k + 1..]) == was + TomlEscaped(s[k..])
  {
    assert s[k..][1..] == s[k + 1..];
  }

  method WriteEscaped(b0: string, s: string) returns (b: string)
    ensures b == b0 + TomlEscaped(s)
  {
    b := b0;
    var k := 0;
    while k < |s|
      invariant 0 <= k <= |s|
      invariant b + TomlEscaped(s[k..]) == b0 + TomlEscaped(s)
    {
      ghost var was := b;
      match s[k] {
        case '\\' => b := b + "\\\\";
        case '"' => b := b + "\\\"";
        case '\n' => b := b + "\\n";
        case c => b := b + [c];
      }
      CharWritten(was, s, k, b);
      k := k + 1;
    }
    assert s[k..] == "";
  }

  lemma StringWritten(base: string, s: string)
    ensures base + "\"" + TomlEscaped(s) + "\"" == base + TomlString(s)
  {
  }

  lemma ItemWritten(start: string, items: seq<string>, next: bool)
    requires items != []
    ensures (if next then start + "," else start) + TomlString(items[0]) + TomlItems(items[1..], true)
      == start + TomlItems(items, next)
  {
    assert TomlItems(items, false) == TomlString(items[0]) + TomlItems(items[1..], true);
  }

  method TomlStringArray(items: seq<string>) returns (b: string)
    ensures b == TomlArray(items)
  {
    b := "[";
    var i := 0;
    while i < |items|
      invariant 0 <= i <= |items|
      invariant b + TomlItems(items[i..], i > 0) == TomlArray(items)
    {
      ghost var start, rest := b, items[i..];
      if i > 0 {
        b := b + ",";
      }
      StringWritten(b, items[i]);
      b := b + "\"";
      b := WriteEscaped(b, items[i]);
      b := b + "\"";
      ItemWritten(start, rest, i > 0);
      assert rest[1..] == items[i + 1..];
      i := i + 1;
    }
    assert items[i..] == [];
    b := b + "]";
  }

  // ---- the tool's line ------------------------------------------------------------------------------

  datatype ToolSpec = ToolSpec(tool: string, name: string, permissionMode: string, resume: string,
                               extra: seq<string>, settingsPath: string, codexNotify: seq<string>, kind: ShellKind)

  function Flag(flag: string, value: string): seq<string> {
    if value == "" then [] else [flag, value]
  }

  /** The words claude is meant to be started with. */
  function ClaudeArgv(t: ToolSpec, resumeAfterKill: bool): seq<string> {
    ["claude"] + Flag("--name", t.name) + Flag("--permission-mode", t.permissionMode) + Flag("--settings", t.settingsPath)
    + (if resumeAfterKill then (if t.name != "" then ["--resume", t.name] else ["--continue"])
       else if t.resume == "last" || t.resume == "continue" then ["--continue"]
       else Flag("--resume", t.resume))
  }

  function CodexArgv(t: ToolSpec, resumeAfterKill: bool): seq<string> {
    ["codex"]
    + (if resumeAfterKill || t.resume == "last" then ["resume", "--last"] else Flag("resume", t.resume))
    + (if t.codexNotify != [] then ["-c", "notify=" + TomlArray(t.codexNotify)] else [])
  }

  function Argv(t: ToolSpec, resumeAfterKill: bool): seq<string> {
    if t.tool == "claude" then ClaudeArgv(t, resumeAfterKill) + t.extra
    else if t.tool == "codex" then CodexArgv(t, resumeAfterKill) + t.extra
    else if t.tool == "grok" then ["grok"] + t.extra
    else []
  }

  predicate Word(s: string) {
    s != "" && forall i :: 0 <= i < |s| ==> 'a' <= s[i] <= 'z' || s[i] == '-'
  }

  lemma LetterIsPlain(c: char)
    requires 'a' <= c <= 'z' || c == '-'
    ensures c !in SPECIAL && c != '\n'
  {
  }

  /** A word of small letters and dashes is typed as it is. */
  lemma WordAsIs(kind: ShellKind, s: string)
    requires Word(s)
    ensures QuoteArg(kind, s) == s && NewlineSafe(s)
  {
    forall i | 0 <= i < |s| ensures s[i] !in SPECIAL && s[i] != '\n' {
      LetterIsPlain(s[i]);
    }
  }

  lemma Appended(kind: ShellKind, argv: seq<string>, flag: string, value: string)
    requires Word(flag)
    ensures QuoteAll(kind, argv + [flag]) == QuoteAll(kind, argv) + [flag]
    ensures QuoteAll(kind, argv + [flag, value]) == QuoteAll(kind, argv) + [flag, QuoteArg(kind, value)]
  {
    WordAsIs(kind, flag);
  }

  /** A flag and its value, if it has one. */
  method WithFlag(kind: ShellKind, parts: seq<string>, ghost argv: seq<string>, flag: string, value: string)
    returns (more: seq<string>)
    requires parts == QuoteAll(kind, argv) && Word(flag)
    ensures more == QuoteAll(kind, argv + Flag(flag, value))
  {
    more := parts;
    if value != "" {
      Appended(kind, argv, flag, value);
      more := parts + [flag, QuoteArg(kind, value)];
    } else {
      assert argv + [] == argv;
    }
  }

  method ClaudeParts(t: ToolSpec, resumeAfterKill: bool) returns (parts: seq<string>)
    ensures parts == QuoteAll(t.kind, ClaudeArgv(t, resumeAfterKill))
  {
    Appended(t.kind, [], "claude", "");
    assert [] + ["claude"] == ["claude"];
    parts := ["claude"];
    ghost var a1 := ["claude"];
    parts := WithFlag(t.kind, parts, a1, "--name", t.name);
    ghost var a2 := a1 + Flag("--name", t.name);
    parts := WithFlag(t.kind, parts, a2, "--permission-mode", t.permissionMode);
    ghost var a3 := a2 + Flag("--permission-mode", t.permissionMode);
    parts := WithFlag(t.kind, parts, a3, "--settings", t.settingsPath);
    ghost var a4 := a3 + Flag("--settings", t.settingsPath);
    if resumeAfterKill && t.name != "" {
      Appended(t.kind, a4, "--resume", t.name);
      parts := parts + ["--resume", QuoteArg(t.kind, t.name)];
    } else if resumeAfterKill || t.resume == "last" || t.resume == "continue" {
      Appended(t.kind, a4, "--continue", "");
      parts := parts + ["--continue"];
    } else {
      parts := WithFlag(t.kind, parts, a4, "--resume", t.resume);
    }
  }

  method CodexParts(t: ToolSpec, resumeAfterKill: bool) returns (parts: seq<string>)
    ensures parts == QuoteAll(t.kind, CodexArgv(t, resumeAfterKill))
  {
    Appended(t.kind, [], "codex", "");
    assert [] + ["codex"] == ["codex"];
    parts := ["codex"];
    ghost var argv := ["codex"];
    if resumeAfterKill || t.resume == "last" {
      WordAsIs(t.kind, "--last");
      Appended(t.kind, argv, "resume", "--last");
      argv := argv + ["resume", "--last"];
      parts := parts + ["resume", "--last"];
    } else {
      parts := WithFlag(t.kind, parts, argv, "resume", t.resume);
      argv := argv + Flag("resume", t.resume);
    }
    if |t.codexNotify| > 0 {
      var toml := TomlStringArray(t.codexNotify);
      Appended(t.kind, argv, "-c", "notify=" + toml);
      parts := parts + ["-c", QuoteArg(t.kind, "notify=" + toml)];
    }
  }

  // ---- what the tool makes of it --------------------------------------------------------------------

  function Given(value: string): Option<string> {
    if value == "" then None else Some(value)
  }

  /** The conversation claude is to go on with: after a kill its own, otherwise the one asked for. */
  ghost predicate ClaudeConversation(t: ToolSpec, resumeAfterKill: bool, c: Conversation) {
    && (resumeAfterKill && t.name != "" ==> c == Named(t.name))
    && (resumeAfterKill && t.name == "" ==> c == Latest)
    && (!resumeAfterKill && t.resume in {"last", "continue"} ==> c == Latest)
    && (!resumeAfterKill && t.resume == "" ==> c == Fresh)
    && (!resumeAfterKill && t.resume !in {"last", "continue", ""} ==> c == Named(t.resume))
  }

  ghost predicate CodexConversation(t: ToolSpec, resumeAfterKill: bool, c: Conversation) {
    && (resumeAfterKill || t.resume in {"last", "--last"} ==> c == Latest)
    && (!resumeAfterKill && t.resume == "" ==> c == Fresh)
    && (!resumeAfterKill && t.resume !in {"last", "--last", ""} ==> c == Named(t.resume))
  }

  const NO_CLAUDE := ClaudeOptions(None, None, None, Fresh)
  const NO_CODEX := CodexOptions(Fresh, None)

  /** The words start claude, and what is between it and the extra arguments says just what the spec does. */
  ghost predicate StartsClaude(t: ToolSpec, resumeAfterKill: bool, words: seq<string>, n: nat) {
    && 0 < n <= |words| && words[0] == "claude" && words[n..] == t.extra
    && var o := ReadClaude(words[1..n], NO_CLAUDE);
    && o.Some? && o.value.name == Given(t.name) && o.value.permissionMode == Given(t.permissionMode)
    && o.value.settings == Given(t.settingsPath) && ClaudeConversation(t, resumeAfterKill, o.value.conversation)
  }

  /** Likewise codex; its notify command is readable if and only if TOML can hold it. */
  ghost predicate StartsCodex(t: ToolSpec, resumeAfterKill: bool, words: seq<string>, n: nat) {
    && 0 < n <= |words| && words[0] == "codex" && words[n..] == t.extra
    && var o := ReadCodex(words[1..n], NO_CODEX);
    && (o.Some? <==> AllTomlSafe(t.codexNotify))
    && (o.Some? ==>
      && o.value.notify == (if t.codexNotify == [] then None else Some(t.codexNotify))
      && CodexConversation(t, resumeAfterKill, o.value.conversation))
  }

  /** The words start the tool of the spec as the spec says; a plain shell gets none. */
  ghost predicate Starts(t: ToolSpec, resumeAfterKill: bool, words: seq<string>) {
    var n := |words| - |t.extra|;
    match t.tool
    case "claude" => n > 0 && StartsClaude(t, resumeAfterKill, words, n)
    case "codex" => n > 0 && StartsCodex(t, resumeAfterKill, words, n)
    case "grok" => words == ["grok"] + t.extra
    case _ => words == []
  }

  lemma ReadFlag(value: string, rest: seq<string>, o: ClaudeOptions)
    ensures ReadClaude(Flag("--name", value) + rest, o) ==
      ReadClaude(rest, if value == "" then o else o.(name := Some(value)))
    ensures ReadClaude(Flag("--permission-mode", value) + rest, o) ==
      ReadClaude(rest, if value == "" then o else o.(permissionMode := Some(value)))
    ensures ReadClaude(Flag("--settings", value) + rest, o) ==
      ReadClaude(rest, if value == "" then o else o.(settings := Some(value)))
    ensures ReadClaude(Flag("--resume", value) + rest, o) ==
      ReadClaude(rest, if value == "" then o else o.(conversation := Named(value)))
  {
    if value == "" {
      assert [] + rest == rest;
    } else {
      assert (["--name", value] + rest)[2..] == rest && (["--permission-mode", value] + rest)[2..] == rest;
      assert (["--settings", value] + rest)[2..] == rest && (["--resume", value] + rest)[2..] == rest;
    }
  }

  function Resumption(t: ToolSpec, resumeAfterKill: bool): seq<string> {
    if resumeAfterKill then (if t.name != "" then ["--resume", t.name] else ["--continue"])
    else if t.resume == "last" || t.resume == "continue" then ["--continue"]
    else Flag("--resume", t.resume)
  }

  lemma ResumptionRead(t: ToolSpec, resumeAfterKill: bool, o: ClaudeOptions)
    requires o.conversation == Fresh
    ensures var r := ReadClaude(Resumption(t, resumeAfterKill), o);
      r.Some? && r.value == o.(conversation := r.value.conversation) &&
      ClaudeConversation(t, resumeAfterKill, r.value.conversation)
  {
    var words := Resumption(t, resumeAfterKill);
    var id := if resumeAfterKill then t.name else t.resume;
    ReadFlag(id, [], o);
    assert words + [] == words;
    if words == ["--continue"] {
      assert words[1..] == [];
    }
  }

  /** What claude reads up to the resumption. */
  lemma FlagsRead(t: ToolSpec, r: seq<string>)
    ensures var a, b, c := Flag("--name", t.name), Flag("--permission-mode", t.permissionMode), Flag("--settings", t.settingsPath);
      ReadClaude(a + (b + (c + r)), NO_CLAUDE) ==
      ReadClaude(r, ClaudeOptions(Given(t.name), Given(t.permissionMode), Given(t.settingsPath), Fresh))
  {
    var b, c := Flag("--permission-mode", t.permissionMode), Flag("--settings", t.settingsPath);
    ReadFlag(t.name, b + (c + r), NO_CLAUDE);
    ReadFlag(t.permissionMode, c + r, NO_CLAUDE.(name := Given(t.name)));
    ReadFlag(t.settingsPath, r, NO_CLAUDE.(name := Given(t.name), permissionMode := Given(t.permissionMode)));
  }

  lemma ClaudeStarts(t: ToolSpec)
    requires t.tool == "claude"
    ensures forall resumeAfterKill :: Starts(t, resumeAfterKill, Argv(t, resumeAfterKill))
  {
    forall resumeAfterKill
      ensures Starts(t, resumeAfterKill, Argv(t, resumeAfterKill))
    {
      var words, n := Argv(t, resumeAfterKill), |ClaudeArgv(t, resumeAfterKill)|;
      var r := Resumption(t, resumeAfterKill);
      var a, b, c := Flag("--name", t.name), Flag("--permission-mode", t.permissionMode), Flag("--settings", t.settingsPath);
      assert words[n..] == t.extra;
      assert words[1..n] == a + (b + (c + r));
      FlagsRead(t, r);
      ResumptionRead(t, resumeAfterKill, ClaudeOptions(Given(t.name), Given(t.permissionMode), Given(t.settingsPath), Fresh));
    }
  }

  lemma NotifyRead(items: seq<string>, o: CodexOptions)
    requires items != []
    ensures ReadCodex(["-c", NOTIFY + TomlArray(items)], o) ==
      if AllTomlSafe(items) then Some(o.(notify := Some(items))) else None
  {
    var words := ["-c", NOTIFY + TomlArray(items)];
    assert words[1][..|NOTIFY|] == NOTIFY && words[1][|NOTIFY|..] == TomlArray(items);
    ArrayReadsBackIff(items);
    assert words[2..] == [];
  }

  lemma CodexStarts(t: ToolSpec)
    requires t.tool == "codex"
    ensures forall resumeAfterKill :: Starts(t, resumeAfterKill, Argv(t, resumeAfterKill))
  {
    forall resumeAfterKill
      ensures Starts(t, resumeAfterKill, Argv(t, resumeAfterKill))
    {
      var words, n := Argv(t, resumeAfterKill), |CodexArgv(t, resumeAfterKill)|;
      var a := if resumeAfterKill || t.resume == "last" then ["resume", "--last"] else Flag("resume", t.resume);
      var b := if t.codexNotify == [] then [] else ["-c", NOTIFY + TomlArray(t.codexNotify)];
      assert words[n..] == t.extra && words[1..n] == a + b;
      var o := if a == [] then NO_CODEX else NO_CODEX.(conversation := if a[1] == "--last" then Latest else Named(a[1]));
      assert ReadCodex(a + b, NO_CODEX) == ReadCodex(b, o) by {
        if a == [] {
          assert a + b == b;
        } else {
          assert (a + b)[2..] == b;
        }
      }
      if t.codexNotify != [] {
        NotifyRead(t.codexNotify, o);
      }
    }
  }

  /** Whatever the tool, and whether or not it is resumed after a kill. */
  lemma ToolStarts(t: ToolSpec)
    ensures forall resumeAfterKill :: Starts(t, resumeAfterKill, Argv(t, resumeAfterKill))
  {
    if t.tool == "claude" {
      ClaudeStarts(t);
    } else if t.tool == "codex" {
      CodexStarts(t);
    }
  }

  /** No field would be typed with its newlines. */
  predicate FieldsSafe(t: ToolSpec) {
    && NewlineSafe(t.name) && NewlineSafe(t.permissionMode) && NewlineSafe(t.settingsPath) && NewlineSafe(t.resume)
    && forall i :: 0 <= i < |t.extra| ==> NewlineSafe(t.extra[i])
  }

  /**
   In a POSIX shell the line starts the tool as the spec says, unless the shell
   takes it for more than one command; and it does not if the fields are safe.
   */
  method Command(t: ToolSpec, resumeAfterKill: bool) returns (line: string)
    ensures line == Join(QuoteAll(t.kind, Argv(t, resumeAfterKill)))
    ensures t.kind == Sh ==>
      var p := ShellWords(line); OnlyPart(p) || (p.Line? && p.rest == None && Starts(t, resumeAfterKill, p.words))
    ensures t.kind == Sh && FieldsSafe(t) ==> !OnlyPart(ShellWords(line))
  {
    line := Typed(t, resumeAfterKill);
    if t.kind == Sh {
      LineReadsBackIff(Argv(t, resumeAfterKill));
      ToolStarts(t);
      if FieldsSafe(t) {
        WordsSafe(t, resumeAfterKill);
      }
    }
  }

  predicate AllSafe(words: seq<string>) {
    forall i :: 0 <= i < |words| ==> NewlineSafe(words[i])
  }

  lemma SafeJoin(a: seq<string>, b: seq<string>)
    requires AllSafe(a) && AllSafe(b)
    ensures AllSafe(a + b)
  {
  }

  lemma FlagSafe(flag: string, value: string)
    requires Word(flag) && NewlineSafe(value)
    ensures AllSafe(Flag(flag, value)) && AllSafe([flag]) && AllSafe([flag, value])
  {
    WordAsIs(Sh, flag);
  }

  lemma ClaudeSafe(t: ToolSpec, resumeAfterKill: bool)
    requires FieldsSafe(t)
    ensures AllSafe(ClaudeArgv(t, resumeAfterKill))
  {
    var a, b, c := Flag("--name", t.name), Flag("--permission-mode", t.permissionMode), Flag("--settings", t.settingsPath);
    FlagSafe("claude", "");
    FlagSafe("--name", t.name);
    FlagSafe("--permission-mode", t.permissionMode);
    FlagSafe("--settings", t.settingsPath);
    FlagSafe("--resume", t.name);
    FlagSafe("--resume", t.resume);
    FlagSafe("--continue", "");
    SafeJoin(["claude"], a);
    SafeJoin(["claude"] + a, b);
    SafeJoin(["claude"] + a + b, c);
    SafeJoin(["claude"] + a + b + c, Resumption(t, resumeAfterKill));
  }

  lemma CodexSafe(t: ToolSpec, resumeAfterKill: bool)
    requires FieldsSafe(t)
    ensures AllSafe(CodexArgv(t, resumeAfterKill))
  {
    var word := NOTIFY + TomlArray(t.codexNotify);
    NotifySafe(t.codexNotify);
    WordAsIs(Sh, "--last");
    FlagSafe("codex", "");
    FlagSafe("resume", "--last");
    FlagSafe("resume", t.resume);
    FlagSafe("-c", word);
    var a := if resumeAfterKill || t.resume == "last" then ["resume", "--last"] else Flag("resume", t.resume);
    var b := if t.codexNotify == [] then [] else ["-c", word];
    SafeJoin(["codex"], a);
    SafeJoin(["codex"] + a, b);
    assert CodexArgv(t, resumeAfterKill) == ["codex"] + a + b;
  }

  /** The notify setting has a bracket, so it is always quoted. */
  lemma NotifySafe(items: seq<string>)
    ensures NewlineSafe(NOTIFY + TomlArray(items))
  {
    var word := NOTIFY + TomlArray(items);
    assert word[|NOTIFY|] == '[' && SPECIAL[13] == '[';
    assert ContainsAny(word, SPECIAL);
  }

  lemma WordsSafe(t: ToolSpec, resumeAfterKill: bool)
    requires FieldsSafe(t)
    ensures AllSafe(Argv(t, resumeAfterKill))
  {
    ClaudeSafe(t, resumeAfterKill);
    CodexSafe(t, resumeAfterKill);
    FlagSafe("grok", "");
    assert AllSafe(t.extra);
    SafeJoin(ClaudeArgv(t, resumeAfterKill), t.extra);
    SafeJoin(CodexArgv(t, resumeAfterKill), t.extra);
    SafeJoin(["grok"], t.extra);
  }

  method Typed(t: ToolSpec, resumeAfterKill: bool) returns (line: string)
    ensures line == Join(QuoteAll(t.kind, Argv(t, resumeAfterKill)))
  {
    var parts: seq<string>;
    ghost var argv: seq<string>;
    if t.tool == "claude" {
      parts := ClaudeParts(t, resumeAfterKill);
      argv := ClaudeArgv(t, resumeAfterKill);
    } else if t.tool == "codex" {
      parts := CodexParts(t, resumeAfterKill);
      argv := CodexArgv(t, resumeAfterKill);
    } else if t.tool == "grok" {
      Appended(t.kind, [], "grok", "");
      assert [] + ["grok"] == ["grok"];
      parts := ["grok"];
      argv := ["grok"];
    } else {
      return "";
    }
    var i := 0;
    while i < |t.extra|
      invariant 0 <= i <= |t.extra|
      invariant parts == QuoteAll(t.kind, argv + t.extra[..i])
    {
      assert argv + t.extra[..i + 1] == argv + t.extra[..i] + [t.extra[i]];
      parts := parts + [QuoteArg(t.kind, t.extra[i])];
      i := i + 1;
    }
    assert argv + t.extra[..i] == Argv(t, resumeAfterKill);
    line := Join(parts);
  }

  /**
   A POSIX shell gets exactly the intended words from the line, if and only if
   no word holds a newline without anything else that needs quotes.
   */
  lemma CommandReadsBack(t: ToolSpec, resumeAfterKill: bool, line: string)
    requires t.kind == Sh && line == Join(QuoteAll(t.kind, Argv(t, resumeAfterKill)))
    ensures ShellWords(line) == Line(Argv(t, resumeAfterKill), None) <==>
      forall w :: w in Argv(t, resumeAfterKill) ==> NewlineSafe(w)
  {
    var argv := Argv(t, resumeAfterKill);
    LineReadsBackIff(argv);
    if forall i :: 0 <= i < |argv| ==> NewlineSafe(argv[i]) {
    } else {
      var i :| 0 <= i < |argv| && !NewlineSafe(argv[i]);
      assert argv[i] in argv;
    }
  }

  /** A name with a newline and nothing else to quote: the shell gets two commands. */
  lemma NewlineBreaksTheLine(t: ToolSpec)
    requires t == ToolSpec("claude", "a\nb", "", "", [], "", [], Sh)
    ensures Argv(t, false) == ["claude", "--name", "a\nb"]
    ensures ShellWords(Join(QuoteAll(Sh, Argv(t, false)))) == Line(["claude", "--name", "a"], Some("b"))
  {
    var name := t.name;
    var argv := ["claude", "--name", name];
    assert ClaudeArgv(t, false) == argv && Argv(t, false) == argv;
    WordAsIs(Sh, "claude");
    WordAsIs(Sh, "--name");
    FirstWord(argv, []);
    assert argv[1..] == ["--name", name] && [] + ["claude"] == ["claude"];
    FirstWord(argv[1..], ["claude"]);
    assert argv[1..][1..] == [name] && ["claude"] + ["--name"] == ["claude", "--name"];
    NameSplits(name, ["claude", "--name"]);
  }

  lemma NameSplits(name: string, done: seq<string>)
    requires name == "a\nb"
    ensures Lex(Join(QuoteAll(Sh, [name])), Bare, None, done) == Line(done + ["a"], Some("b"))
  {
    forall i | 0 <= i < |name| ensures name[i] !in SPECIAL {
      LetterIsPlain('a');
      LetterIsPlain('b');
    }
    assert QuoteAll(Sh, [name]) == [name];
    PlainChar('a');
    assert name[1..] == "\n" + "b";
    assert Lex(name, Bare, None, done) == Lex(name[1..], Bare, Some("" + [name[0]]), done);
    assert "" + [name[0]] == "a";
    LineEnds("b", "a", done);
  }

  lemma LineEnds(rest: string, word: string, done: seq<string>)
    ensures Lex("\n" + rest, Bare, Some(word), done) == Line(done + [word], Some(rest))
  {
    assert ("\n" + rest)[1..] == rest;
  }

  /** The configuration word always arrives whole, and a TOML reader finds the notify command in it. */
  lemma NotifyReadsBack(items: seq<string>, rest: string, done: seq<string>)
    ensures var word := "notify=" + TomlArray(items);
      && Lex(QuoteArg(Sh, word) + rest, Bare, None, done) == Lex(rest, Bare, Some(word), done)
      && ReadArray(word[7..]) == (if AllTomlSafe(items) then Some(items) else None)
  {
    var word := "notify=" + TomlArray(items);
    assert word[7] == '[' && SPECIAL[13] == '[';
    assert ContainsAny(word, SPECIAL);
    ArgReadsBack(word, rest, done);
    assert word[7..] == TomlArray(items);
    ArrayReadsBackIff(items);
  }

  // ---- hooks ------------------------------------------------------------------------------------------

  lemma HookQuoteSnoc(argv: seq<string>, word: string)
    ensures HookQuoteAll(argv + [word]) == HookQuoteAll(argv) + [HookQuote(word)]
  {
  }

  method ShJoin(argv: seq<string>) returns (line: string)
    ensures line == Join(HookQuoteAll(argv))
    ensures ShellWords(line) == Line(argv, None)
  {
    var out: seq<string> := [];
    for i := 0 to |argv|
      invariant out == HookQuoteAll(argv[..i])
    {
      assert argv[..i + 1] == argv[..i] + [argv[i]];
      HookQuoteSnoc(argv[..i], argv[i]);
      out := out + [HookQuote(argv[i])];
    }
    assert argv[..|argv|] == argv;
    line := Join(out);
    HookLineReadsBack(argv, []);
    assert [] + argv == argv;
  }
}
