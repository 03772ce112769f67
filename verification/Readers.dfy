/**
 The readers that undo the printers: words of a simple command for a POSIX
 shell, an array of strings for TOML, and the options of the tools started.
 */
module Readers {
  import opened Wrappers

  // ---- POSIX shell: sections 2.2 (quoting) and 2.3 (token recognition) -----------------------

  datatype Mode = Bare | Single | Double

  /**
   The words of the first line after quote removal, and what follows its
   newline. Beyond: operators, expansions, patterns and comments, which this
   reader does not perform.
   */
  datatype Parsed = Line(words: seq<string>, rest: Option<string>) | Incomplete | Beyond

  function Grow(cur: Option<string>, c: char): Option<string> {
    Some((if cur.Some? then cur.value else "") + [c])
  }

  function Begin(cur: Option<string>): Option<string> {
    if cur.Some? then cur else Some("")
  }

  function Finish(cur: Option<string>, done: seq<string>): seq<string> {
    if cur.Some? then done + [cur.value] else done
  }

  predicate IsOperator(c: char) {
    c == '|' || c == '&' || c == ';' || c == '<' || c == '>' || c == '(' || c == ')'
  }

  predicate Expands(c: char) {
    c == '$' || c == '`' || c == '*' || c == '?' || c == '['
  }

  function Lex(s: string, mode: Mode, cur: Option<string>, done: seq<string>): Parsed
    decreases |s|
  {
    if s == "" then (if mode == Bare then Line(Finish(cur, done), None) else Incomplete)
    else
      match mode
      case Single => if s[0] == '\'' then Lex(s[1..], Bare, cur, done) else Lex(s[1..], Single, Grow(cur, s[0]), done)
      case Double => LexDouble(s, cur, done)
      case Bare => LexBare(s, cur, done)
  }

  function LexDouble(s: string, cur: Option<string>, done: seq<string>): Parsed
    requires s != ""
    decreases |s|, 0
  {
    if s[0] == '"' then Lex(s[1..], Bare, cur, done)
    else if s[0] == '$' || s[0] == '`' then Beyond
    else if s[0] == '\\' && |s| > 1 && s[1] == '\n' then Lex(s[2..], Double, cur, done)
    else if s[0] == '\\' && |s| > 1 && s[1] in "$`\"\\" then Lex(s[2..], Double, Grow(cur, s[1]), done)
    else Lex(s[1..], Double, Grow(cur, s[0]), done)
  }

  function LexBare(s: string, cur: Option<string>, done: seq<string>): Parsed
    requires s != ""
    decreases |s|, 0
  {
    var c := s[0];
    if c == '\n' then Line(Finish(cur, done), Some(s[1..]))
    else if c == ' ' || c == '\t' then Lex(s[1..], Bare, None, Finish(cur, done))
    else if c == '\'' then Lex(s[1..], Single, Begin(cur), done)
    else if c == '"' then Lex(s[1..], Double, Begin(cur), done)
    else if c == '\\' then
      if |s| == 1 then Incomplete
      else if s[1] == '\n' then Lex(s[2..], Bare, cur, done)
      else Lex(s[2..], Bare, Grow(cur, s[1]), done)
    else if IsOperator(c) || Expands(c) || (cur == None && (c == '#' || c == '~')) then Beyond
    else Lex(s[1..], Bare, Grow(cur, c), done)
  }

  function ShellWords(s: string): Parsed {
    Lex(s, Bare, None, [])
  }

  // ---- TOML v1.0.0: sections String (basic strings) and Array ---------------------------------

  /** Control characters other than tab may not stand in a basic string. */
  predicate Control(c: char) {
    (c < ' ' && c != '\t') || c == '\U{7F}'
  }

  function Unescape(c: char): Option<char> {
    match c
    case 'b' => Some('\U{8}')
    case 't' => Some('\t')
    case 'n' => Some('\n')
    case 'f' => Some('\U{C}')
    case 'r' => Some('\r')
    case '"' => Some('"')
    case '\\' => Some('\\')
    case _ => None
  }

  /** A basic string after its opening quote: its value, and the text after its closing one. */
  function ReadString(s: string): (r: Option<(string, string)>)
    ensures r.Some? ==> |r.value.1| < |s|
  {
    if s == "" || Control(s[0]) then None
    else if s[0] == '"' then Some(("", s[1..]))
    else if s[0] == '\\' then
      if |s| == 1 || Unescape(s[1]).None? then None else Prepend(Unescape(s[1]).value, ReadString(s[2..]))
    else Prepend(s[0], ReadString(s[1..]))
  }

  function Prepend(c: char, r: Option<(string, string)>): Option<(string, string)> {
    if r.None? then None else Some(([c] + r.value.0, r.value.1))
  }

  predicate Blank(s: string) {
    forall i :: 0 <= i < |s| ==> s[i] in " \t\n\r"
  }

  /** The rest of an array: after a comma or the bracket, or (next) after a value. */
  function ReadItems(s: string, next: bool): Option<seq<string>>
    decreases |s|
  {
    if s == "" then None
    else if s[0] in " \t\n\r" then ReadItems(s[1..], next)
    else if s[0] == ']' then (if Blank(s[1..]) then Some([]) else None)
    else if next then (if s[0] == ',' then ReadItems(s[1..], false) else None)
    else if s[0] == '"' then
      var r := ReadString(s[1..]);
      if r.None? then None
      else
        var more := ReadItems(r.value.1, true);
        if more.None? then None else Some([r.value.0] + more.value)
    else None
  }

  function ReadArray(s: string): Option<seq<string>> {
    if s != "" && s[0] == '[' then ReadItems(s[1..], false) else None
  }

  // ---- the tools' options, in any order; a value is the next word, whatever it looks like ------------

  datatype Conversation = Fresh | Latest | Named(id: string)

  datatype ClaudeOptions = ClaudeOptions(name: Option<string>, permissionMode: Option<string>,
                                         settings: Option<string>, conversation: Conversation)

  function ReadClaude(words: seq<string>, o: ClaudeOptions): Option<ClaudeOptions>
    decreases |words|
  {
    if words == [] then Some(o)
    else if words[0] == "--continue" then ReadClaude(words[1..], o.(conversation := Latest))
    else if |words| == 1 then None
    else if words[0] == "--name" then ReadClaude(words[2..], o.(name := Some(words[1])))
    else if words[0] == "--permission-mode" then ReadClaude(words[2..], o.(permissionMode := Some(words[1])))
    else if words[0] == "--settings" then ReadClaude(words[2..], o.(settings := Some(words[1])))
    else if words[0] == "--resume" then ReadClaude(words[2..], o.(conversation := Named(words[1])))
    else None
  }

  datatype CodexOptions = CodexOptions(conversation: Conversation, notify: Option<seq<string>>)

  const NOTIFY := "notify="

  /** The resume subcommand with its target, and -c with a notify setting in TOML. */
  function ReadCodex(words: seq<string>, o: CodexOptions): Option<CodexOptions>
    decreases |words|
  {
    if words == [] then Some(o)
    else if |words| == 1 then None
    else if words[0] == "resume" then
      ReadCodex(words[2..], o.(conversation := if words[1] == "--last" then Latest else Named(words[1])))
    else if words[0] == "-c" && |NOTIFY| <= |words[1]| && words[1][..|NOTIFY|] == NOTIFY then
      var items := ReadArray(words[1][|NOTIFY|..]);
      if items == None then None else ReadCodex(words[2..], o.(notify := items))
    else None
  }
}
