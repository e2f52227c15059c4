/** Command lines as their parts, with their tokens and their meaning (user/sh.c:310-446).

    A line is jobs ended by & and separated by ;, a job is a pipeline of units, and a unit is a plain command,
    with redirections anywhere among its words, or a line in parentheses. */
module ShellLines {
  import opened ShellGrammar

  // ---- the tokens of a line ----

  datatype Tok = Sign(c: char) | Twice | Text(w: string)        // Twice is >>

  function Between(s: string, from: nat, to: nat): string {
    if from <= to <= |s| then s[from..to] else ""
  }

  // t is the token that GetToken finds at i.
  predicate IsTok(s: string, i: nat, t: Tok)
    requires i <= |s| && Line(s)
  {
    var g := GetToken(s, i);
    match t
    case Sign(c) => g.kind == Symbol(c)
    case Twice => g.kind == Append
    case Text(w) => g.kind == Word && Between(s, g.from, g.to) == w
  }

  // The tokens from i on are these, and maybe more.
  predicate Scans(s: string, i: nat, toks: seq<Tok>)
    requires i <= |s| && Line(s)
    decreases |toks|
  {
    toks == [] || (IsTok(s, i, toks[0]) && Scans(s, GetToken(s, i).next, toks[1..]))
  }

  // Where the token after the next n is looked for.
  function Past(s: string, i: nat, n: nat): (j: nat)
    requires i <= |s| && Line(s)
    ensures i <= j <= |s|
    decreases n
  {
    if n == 0 then i else Past(s, GetToken(s, i).next, n - 1)
  }

  // ---- lines as their parts ----

  datatype Piece = Arg(word: string) | Into(file: string, mode: Mode)

  datatype Unit = Plain(pieces: seq<Piece>) | Group(inner: Job, into: seq<Piece>)

  datatype Pipeline = Sole(unit: Unit) | Chain(unit: Unit, rest: Pipeline)

  // backs is the number of & after the pipeline.
  datatype Job = Last(pipe: Pipeline, backs: nat) | Next(pipe: Pipeline, backs: nat, rest: Job)

  predicate AllInto(ps: seq<Piece>) {
    forall i :: 0 <= i < |ps| ==> ps[i].Into?
  }

  function WordOf(p: Piece): (r: seq<string>)
    ensures |r| <= 1
  {
    if p.Arg? then [p.word] else []
  }

  function FileOf(p: Piece): seq<(string, Mode)> {
    if p.Into? then [(p.file, p.mode)] else []
  }

  function Words(ps: seq<Piece>): (r: seq<string>)
    ensures |r| <= |ps|
  {
    if ps == [] then [] else WordOf(ps[0]) + Words(ps[1..])
  }

  function Files(ps: seq<Piece>): seq<(string, Mode)> {
    if ps == [] then [] else FileOf(ps[0]) + Files(ps[1..])
  }

  // A plain command has at most nine words, and only redirections follow a parenthesis.
  predicate UnitOk(u: Unit) {
    match u
    case Plain(ps) => |Words(ps)| < MAXARGS
    case Group(j, into) => JobOk(j) && AllInto(into)
  }

  predicate PipelineOk(p: Pipeline) {
    match p
    case Sole(u) => UnitOk(u)
    case Chain(u, rest) => UnitOk(u) && PipelineOk(rest)
  }

  predicate JobOk(j: Job) {
    match j
    case Last(p, _) => PipelineOk(p)
    case Next(p, _, rest) => PipelineOk(p) && JobOk(rest)
  }

  // ---- their tokens ----

  function OpTok(m: Mode): Tok {
    match m
    case Read => Sign('<')
    case Write => Sign('>')
    case AppendTo => Twice
  }

  function PieceToks(p: Piece): seq<Tok> {
    match p
    case Arg(w) => [Text(w)]
    case Into(f, m) => [OpTok(m), Text(f)]
  }

  function PiecesToks(ps: seq<Piece>): seq<Tok> {
    if ps == [] then [] else PieceToks(ps[0]) + PiecesToks(ps[1..])
  }

  function UnitToks(u: Unit): seq<Tok> {
    match u
    case Plain(ps) => PiecesToks(ps)
    case Group(j, into) => [Sign('(')] + (JobToks(j) + ([Sign(')')] + PiecesToks(into)))
  }

  function PipelineToks(p: Pipeline): seq<Tok> {
    match p
    case Sole(u) => UnitToks(u)
    case Chain(u, rest) => UnitToks(u) + ([Sign('|')] + PipelineToks(rest))
  }

  function Ands(n: nat): seq<Tok> {
    if n == 0 then [] else [Sign('&')] + Ands(n - 1)
  }

  function JobToks(j: Job): seq<Tok> {
    match j
    case Last(p, n) => PipelineToks(p) + Ands(n)
    case Next(p, n, rest) => PipelineToks(p) + (Ands(n) + ([Sign(';')] + JobToks(rest)))
  }

  // ---- what they mean ----

  // A command with its words as strings.
  datatype Tree =
    | Run(args: seq<string>)
    | To(cmd: Tree, file: string, mode: Mode)
    | Both(left: Tree, right: Tree)          // left | right
    | Then(left: Tree, right: Tree)          // left ; right
    | Behind(cmd: Tree)                      // cmd &

  // The first redirection is the innermost.
  function Redirected(t: Tree, files: seq<(string, Mode)>): Tree
    decreases |files|
  {
    if files == [] then t else Redirected(To(t, files[0].0, files[0].1), files[1..])
  }

  function BehindAll(t: Tree, n: nat): Tree
    decreases n
  {
    if n == 0 then t else BehindAll(Behind(t), n - 1)
  }

  function UnitTree(u: Unit): Tree {
    match u
    case Plain(ps) => Redirected(Run(Words(ps)), Files(ps))
    case Group(j, into) => Redirected(JobTree(j), Files(into))
  }

  // | binds tighter than & and ;, and all nest to the right.
  function PipelineTree(p: Pipeline): Tree {
    match p
    case Sole(u) => UnitTree(u)
    case Chain(u, rest) => Both(UnitTree(u), PipelineTree(rest))
  }

  function JobTree(j: Job): Tree {
    match j
    case Last(p, n) => BehindAll(PipelineTree(p), n)
    case Next(p, n, rest) => Then(BehindAll(PipelineTree(p), n), JobTree(rest))
  }

  function Texts(s: string, ws: seq<Span>): (r: seq<string>)
    ensures |r| == |ws|
  {
    seq(|ws|, i requires 0 <= i < |ws| => Between(s, ws[i].from, ws[i].to))
  }

  function Meaning(s: string, c: Cmd): Tree {
    match c
    case Exec(argv) => Run(Texts(s, argv))
    case Redir(d, r) => To(Meaning(s, d), Between(s, r.file.from, r.file.to), r.mode)
    case Pipe(l, r) => Both(Meaning(s, l), Meaning(s, r))
    case List(l, r) => Then(Meaning(s, l), Meaning(s, r))
    case Back(d) => Behind(Meaning(s, d))
  }
}
