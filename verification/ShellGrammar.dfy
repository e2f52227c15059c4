/** The shell's tokens and grammar (user/sh.c:265-449).

    A command line is its characters up to the terminating NUL.  Words are kept as the positions of
    their first character and of the character after their last, as the parser keeps pointers. */
module ShellGrammar {
  const MAXARGS: nat := 10

  // A buffer up to its NUL.
  predicate Line(s: string) {
    forall i :: 0 <= i < |s| ==> s[i] != '\0'
  }

  function At(s: string, i: nat): char {
    if i < |s| then s[i] else '\0'
  }

  predicate IsSpace(c: char) {
    c == ' ' || c == '\t' || c == '\r' || c == '\n' || c == '\U{00000B}'
  }

  predicate IsSymbol(c: char) {
    c == '<' || c == '|' || c == '>' || c == '&' || c == ';' || c == '(' || c == ')'
  }

  predicate IsWordChar(c: char) {
    c != '\0' && !IsSpace(c) && !IsSymbol(c)
  }

  // ---- tokens ----

  datatype Kind = End | Symbol(c: char) | Append | Word       // Append is >>

  // from and to delimit the token; next is where the following one starts.
  datatype Token = Token(kind: Kind, from: nat, to: nat, next: nat)

  // Past whitespace.
  function Skip(s: string, i: nat): (j: nat)
    requires i <= |s|
    ensures i <= j <= |s| && !IsSpace(At(s, j))
    decreases |s| - i
  {
    if i < |s| && IsSpace(s[i]) then Skip(s, i + 1) else i
  }

  lemma SkipTwice(s: string, i: nat)
    requires i <= |s|
    ensures Skip(s, Skip(s, i)) == Skip(s, i)
  {
  }

  function WordEnd(s: string, i: nat): (j: nat)
    requires i <= |s|
    ensures i <= j <= |s| && (forall k :: i <= k < j ==> !IsSpace(s[k]) && !IsSymbol(s[k]))
    ensures j < |s| ==> IsSpace(s[j]) || IsSymbol(s[j])
    decreases |s| - i
  {
    if i < |s| && !IsSpace(s[i]) && !IsSymbol(s[i]) then WordEnd(s, i + 1) else i
  }

  function GetToken(s: string, i: nat): (t: Token)
    requires i <= |s| && Line(s)
    ensures i <= t.from <= t.to <= t.next <= |s|
    ensures t.kind != End ==> t.from < t.to
    ensures t.kind == End ==> t.next == |s|
    ensures t.kind == Word ==> WordAt(s, t.from, t.to)
  {
    var j := Skip(s, i);
    var c := At(s, j);
    if c == '\0' then Token(End, j, j, j)
    else if c == '>' then
      if At(s, j + 1) == '>' then Token(Append, j, j + 2, Skip(s, j + 2)) else Token(Symbol('>'), j, j + 1, Skip(s, j + 1))
    else if IsSymbol(c) then Token(Symbol(c), j, j + 1, Skip(s, j + 1))
    else
      var e := WordEnd(s, j);
      Token(Word, j, e, Skip(s, e))
  }

  // A maximal run of word characters.
  predicate WordAt(s: string, from: nat, to: nat) {
    && from < to <= |s| && (forall k :: from <= k < to ==> IsWordChar(s[k]))
    && (to < |s| ==> !IsWordChar(s[to]))
  }

  // peek: the next token starts with one of these characters.
  predicate Peek(s: string, i: nat, toks: string)
    requires i <= |s|
  {
    At(s, Skip(s, i)) != '\0' && At(s, Skip(s, i)) in toks
  }

  // ---- commands ----

  datatype Span = Span(from: nat, to: nat)

  datatype Mode = Read | Write | AppendTo

  datatype Redirection = Redirection(file: Span, mode: Mode)

  datatype Cmd =
    | Exec(argv: seq<Span>)
    | Redir(cmd: Cmd, redir: Redirection)
    | Pipe(left: Cmd, right: Cmd)
    | List(left: Cmd, right: Cmd)
    | Back(cmd: Cmd)

  // Panic is the shell's panic on a syntax error.
  datatype Result<+T> = Ok(value: T, pos: nat) | Panic

  // The first redirection is the innermost.
  function Wrap(c: Cmd, rs: seq<Redirection>): Cmd
    decreases |rs|
  {
    if rs == [] then c else Redir(Wrap(c, rs[..|rs| - 1]), rs[|rs| - 1])
  }

  function ModeOf(k: Kind): Mode {
    if k == Append then AppendTo else if k == Symbol('<') then Read else Write
  }

  // ---- the grammar ----

  // parseredirs
  function Redirs(s: string, i: nat, rs: seq<Redirection>): (r: Result<seq<Redirection>>)
    requires i <= |s| && Line(s)
    ensures r.Ok? ==> i <= r.pos <= |s| && (Peek(s, i, "<>") ==> i < r.pos)
    decreases |s| - i
  {
    if Peek(s, i, "<>") then
      var op := GetToken(s, i);
      var file := GetToken(s, op.next);
      if file.kind != Word then Panic
      else Redirs(s, file.next, rs + [Redirection(Span(file.from, file.to), ModeOf(op.kind))])
    else Ok(rs, Skip(s, i))
  }

  // parseexec's loop
  function Args(s: string, i: nat, argv: seq<Span>, rs: seq<Redirection>): (r: Result<(seq<Span>, seq<Redirection>)>)
    requires i <= |s| && Line(s)
    ensures r.Ok? ==> i <= r.pos <= |s|
    decreases |s| - i
  {
    if Peek(s, i, "|)&;") then Ok((argv, rs), Skip(s, i))
    else
      var t := GetToken(s, i);
      if t.kind == End then Ok((argv, rs), t.next)
      else if t.kind != Word then Panic
      else
        var argv' := argv + [Span(t.from, t.to)];
        if |argv'| >= MAXARGS then Panic
        else
          match Redirs(s, t.next, rs)
          case Panic => Panic
          case Ok(rs', j) => Args(s, j, argv', rs')
  }

  // parseexec
  function ParseExec(s: string, i: nat): (r: Result<Cmd>)
    requires i <= |s| && Line(s)
    ensures r.Ok? ==> i <= r.pos <= |s|
    decreases |s| - i, 1
  {
    if Peek(s, i, "(") then ParseBlock(s, i)
    else
      match Redirs(s, i, [])
      case Panic => Panic
      case Ok(rs, j) =>
        match Args(s, j, [], rs)
        case Panic => Panic
        case Ok(v, k) => Ok(Wrap(Exec(v.0), v.1), k)
  }

  // parseblock
  function ParseBlock(s: string, i: nat): (r: Result<Cmd>)
    requires i <= |s| && Line(s) && Peek(s, i, "(")
    ensures r.Ok? ==> i < r.pos <= |s|
    decreases |s| - i, 0
  {
    match ParseLine(s, GetToken(s, i).next)
    case Panic => Panic
    case Ok(c, j) =>
      if !Peek(s, j, ")") then Panic
      else
        match Redirs(s, GetToken(s, j).next, [])
        case Panic => Panic
        case Ok(rs, k) => Ok(Wrap(c, rs), k)
  }

  // parsepipe
  function ParsePipe(s: string, i: nat): (r: Result<Cmd>)
    requires i <= |s| && Line(s)
    ensures r.Ok? ==> i <= r.pos <= |s|
    decreases |s| - i, 2
  {
    match ParseExec(s, i)
    case Panic => Panic
    case Ok(c, j) =>
      if Peek(s, j, "|") then
        match ParsePipe(s, GetToken(s, j).next)
        case Panic => Panic
        case Ok(d, k) => Ok(Pipe(c, d), k)
      else Ok(c, Skip(s, j))
  }

  // parseline's loop over &
  function Backs(s: string, i: nat, c: Cmd): (r: Result<Cmd>)
    requires i <= |s| && Line(s)
    ensures r.Ok? && i <= r.pos <= |s|
    decreases |s| - i
  {
    if Peek(s, i, "&") then Backs(s, GetToken(s, i).next, Back(c)) else Ok(c, Skip(s, i))
  }

  // parseline
  function ParseLine(s: string, i: nat): (r: Result<Cmd>)
    requires i <= |s| && Line(s)
    ensures r.Ok? ==> i <= r.pos <= |s|
    decreases |s| - i, 3
  {
    match ParsePipe(s, i)
    case Panic => Panic
    case Ok(c, j) =>
      var b := Backs(s, j, c);
      if Peek(s, b.pos, ";") then
        match ParseLine(s, GetToken(s, b.pos).next)
        case Panic => Panic
        case Ok(d, k) => Ok(List(b.value, d), k)
      else Ok(b.value, Skip(s, b.pos))
  }

  // parsecmd before nulterminate: the whole line must be used.
  function ParseCmd(s: string): (r: Result<Cmd>)
    requires Line(s)
  {
    match ParseLine(s, 0)
    case Panic => Panic
    case Ok(c, i) => if Skip(s, i) == |s| then Ok(c, |s|) else Panic
  }
}
