/** Printing a command line and parsing it back (user/sh.c:327-446). */
module ShellRoundTrip {
  import opened ShellGrammar
  import opened ShellLines
  import opened ShellReads

  predicate IsWord(w: string) {
    |w| > 0 && forall i :: 0 <= i < |w| ==> IsWordChar(w[i])
  }

  predicate TokOk(t: Tok) {
    match t
    case Sign(c) => IsSymbol(c)
    case Twice => true
    case Text(w) => IsWord(w)
  }

  // Each token and a blank.
  function Shown(t: Tok): string {
    match t
    case Sign(c) => [c, ' ']
    case Twice => ">> "
    case Text(w) => w + " "
  }

  function Print(toks: seq<Tok>): string {
    if toks == [] then "" else Shown(toks[0]) + Print(toks[1..])
  }

  lemma {:induction false} PrintIsLine(toks: seq<Tok>)
    requires forall k :: 0 <= k < |toks| ==> TokOk(toks[k])
    ensures Line(Print(toks))
  {
    if toks != [] {
      PrintIsLine(toks[1..]);
      assert TokOk(toks[0]);
    }
  }

  lemma {:induction false} WordEnds(s: string, i: nat, e: nat)
    requires i <= e <= |s| && (forall k :: i <= k < e ==> IsWordChar(s[k])) && !IsWordChar(At(s, e)) && Line(s)
    ensures WordEnd(s, i) == e
    decreases e - i
  {
    if i < e { WordEnds(s, i + 1, e); }
  }

  lemma FrontOf(s: string, i: nat, a: string, rest: string)
    requires i <= |s| && s[i..] == a + rest
    ensures i + |a| <= |s| && s[i..i + |a|] == a
    ensures if rest == "" then i + |a| == |s| else i + |a| < |s| && s[i + |a|] == rest[0]
  {
    assert s[i..i + |a|] == s[i..][..|a|];
    if rest != "" { assert s[i + |a|] == s[i..][|a|]; }
  }

  // The printing of a token is read as that token, and the next one is looked for after its blank.
  lemma ShownReads(s: string, i: nat, t: Tok, rest: string)
    requires Line(s) && i <= |s| && s[i..] == Shown(t) + rest && TokOk(t) && (rest == "" || !IsSpace(rest[0]))
    ensures IsTok(s, i, t) && GetToken(s, i).next == i + |Shown(t)|
  {
    hide GetToken, Skip, Line, IsWord, IsSymbol, IsSpace;
    FrontOf(s, i, Shown(t), rest);
    match t
    case Sign(c) =>
      assert s[i + 1] == s[i..i + 2][1];
      BlankPassed(s, i + 2);
      SignReads(s, i, c);
    case Twice =>
      assert s[i + 2] == s[i..i + 3][2];
      BlankPassed(s, i + 3);
      TwiceReads(s, i);
    case Text(w) =>
      assert s[i + |w|] == s[i..i + |w| + 1][|w|];
      BlankPassed(s, i + |w| + 1);
      TextReads(s, i, w);
  }

  lemma BlankPassed(s: string, e: nat)
    requires Line(s) && 0 < e <= |s| && s[e - 1] == ' ' && (e < |s| ==> !IsSpace(s[e]))
    ensures Skip(s, e - 1) == e && Skip(s, e) == e
  {
  }

  lemma SignReads(s: string, i: nat, c: char)
    requires Line(s) && i + 2 <= |s| && s[i..i + 2] == [c, ' '] && IsSymbol(c) && Skip(s, i + 1) == i + 2
    ensures GetToken(s, i).kind == Symbol(c) && GetToken(s, i).next == i + 2
  {
    assert s[i] == s[i..i + 2][0] && s[i + 1] == s[i..i + 2][1];
    assert Skip(s, i) == i;
  }

  lemma TwiceReads(s: string, i: nat)
    requires Line(s) && i + 3 <= |s| && s[i..i + 3] == ">> " && Skip(s, i + 2) == i + 3
    ensures GetToken(s, i).kind == Append && GetToken(s, i).next == i + 3
  {
    assert s[i] == s[i..i + 3][0] && s[i + 1] == s[i..i + 3][1];
    assert Skip(s, i) == i;
  }

  lemma TextReads(s: string, i: nat, w: string)
    requires Line(s) && i + |w| + 1 <= |s| && s[i..i + |w| + 1] == w + " " && IsWord(w) && Skip(s, i + |w|) == i + |w| + 1
    ensures var g := GetToken(s, i); g.kind == Word && Between(s, g.from, g.to) == w && g.next == i + |w| + 1
  {
    var e := i + |w|;
    assert s[e] == s[i..e + 1][|w|] == ' ';
    assert s[i..e] == s[i..e + 1][..|w|] == w;
    forall k | i <= k < e
      ensures IsWordChar(s[k])
    {
      assert s[k] == w[k - i];
    }
    WordEnds(s, i, e);
    assert Skip(s, i) == i;
  }

  lemma {:induction false} PrintReads(s: string, i: nat, toks: seq<Tok>)
    requires Line(s) && i <= |s| && s[i..] == Print(toks) && forall k :: 0 <= k < |toks| ==> TokOk(toks[k])
    ensures Scans(s, i, toks) && Past(s, i, |toks|) == |s|
    decreases |toks|
  {
    hide GetToken, Shown;
    if toks != [] {
      assert TokOk(toks[0]);
      PrintStarts(toks[1..]);
      ShownReads(s, i, toks[0], Print(toks[1..]));
      assert s[i + |Shown(toks[0])|..] == s[i..][|Shown(toks[0])|..] == Print(toks[1..]);
      PrintReads(s, GetToken(s, i).next, toks[1..]);
    }
  }

  lemma PrintStarts(toks: seq<Tok>)
    requires forall k :: 0 <= k < |toks| ==> TokOk(toks[k])
    ensures Print(toks) == "" || !IsSpace(Print(toks)[0])
  {
    if toks != [] { assert TokOk(toks[0]); }
  }

  predicate AllOk(toks: seq<Tok>) {
    forall k :: 0 <= k < |toks| ==> TokOk(toks[k])
  }

  /* A line printed bare, without more parentheses than it has, reads back as what it means. */
  lemma PrintedReads(j: Job)
    requires JobOk(j) && AllOk(JobToks(j))
    ensures var s := Print(JobToks(j));
      Line(s) && ParseCmd(s).Ok? && Meaning(s, ParseCmd(s).value) == JobTree(j)
  {
    hide ParseCmd, Meaning, Print, GetToken, JobToks, Scans, JobOk, JobTree;
    var toks := JobToks(j);
    var s := Print(toks);
    PrintIsLine(toks);
    PrintReads(s, 0, toks) by { assert s[0..] == s; }
    AtEnd(s);
    LineReads(s, j);
  }

  lemma AtEnd(s: string)
    requires Line(s)
    ensures GetToken(s, |s|).kind == End
  {
  }

  predicate Valid(t: Tree) {
    match t
    case Run(args) => |args| < MAXARGS && forall i :: 0 <= i < |args| ==> IsWord(args[i])
    case To(c, file, mode) => Valid(c) && IsWord(file)
    case Both(l, r) => Valid(l) && Valid(r)
    case Then(l, r) => Valid(l) && Valid(r)
    case Behind(c) => Valid(c)
  }

  // A line for a tree, with every operand in parentheses.
  function LineOf(t: Tree): Job {
    match t
    case Run(args) => Last(Sole(Plain(seq(|args|, i requires 0 <= i < |args| => Arg(args[i])))), 0)
    case To(c, f, m) => Last(Sole(Group(LineOf(c), [Into(f, m)])), 0)
    case Both(l, r) => Last(Chain(Group(LineOf(l), []), Sole(Group(LineOf(r), []))), 0)
    case Then(l, r) => Next(Sole(Group(LineOf(l), [])), 0, Last(Sole(Group(LineOf(r), [])), 0))
    case Behind(c) => Last(Sole(Group(LineOf(c), [])), 1)
  }

  lemma {:induction false} ArgsOf(args: seq<string>)
    requires forall i :: 0 <= i < |args| ==> IsWord(args[i])
    ensures var ps := seq(|args|, i requires 0 <= i < |args| => Arg(args[i]));
      Words(ps) == args && Files(ps) == [] && AllOk(PiecesToks(ps))
    decreases |args|
  {
    var ps := seq(|args|, i requires 0 <= i < |args| => Arg(args[i]));
    if args != [] {
      ArgsOf(args[1..]);
      assert ps[1..] == seq(|args[1..]|, i requires 0 <= i < |args[1..]| => Arg(args[1..][i]));
    }
  }

  predicate Writes(j: Job, t: Tree) {
    JobOk(j) && JobTree(j) == t && AllOk(JobToks(j))
  }

  predicate UnitWrites(u: Unit, t: Tree) {
    UnitOk(u) && UnitTree(u) == t && AllOk(UnitToks(u))
  }

  lemma {:induction false} LineOfMeans(t: Tree)
    requires Valid(t)
    ensures Writes(LineOf(t), t)
  {
    hide Writes, UnitWrites;
    match t
    case Run(args) =>
      RunMeans(args);
    case To(c, f, m) =>
      LineOfMeans(c);
      ToMeans(c, f, m);
    case Both(l, r) =>
      LineOfMeans(l);
      LineOfMeans(r);
      BothMean(l, r);
    case Then(l, r) =>
      LineOfMeans(l);
      LineOfMeans(r);
      ThenMeans(l, r);
    case Behind(c) =>
      LineOfMeans(c);
      BehindMeans(c);
  }

  predicate PipelineWrites(p: Pipeline, t: Tree) {
    PipelineOk(p) && PipelineTree(p) == t && AllOk(PipelineToks(p))
  }

  lemma SoleWrites(u: Unit, t: Tree)
    requires UnitWrites(u, t)
    ensures PipelineWrites(Sole(u), t)
  {
    hide UnitOk, UnitTree, UnitToks, TokOk;
  }

  lemma LastWrites(p: Pipeline, t: Tree, n: nat)
    requires PipelineWrites(p, t) && n <= 1
    ensures Writes(Last(p, n), if n == 0 then t else Behind(t))
  {
    hide PipelineOk, PipelineTree, PipelineToks, TokOk;
    SignsOk();
    assert Ands(n) == if n == 0 then [] else [Sign('&')] + Ands(0);
    assert BehindAll(t, n) == if n == 0 then t else BehindAll(Behind(t), 0);
    assert JobToks(Last(p, n)) == PipelineToks(p) + Ands(n);
  }

  lemma RunMeans(args: seq<string>)
    requires Valid(Run(args))
    ensures Writes(LineOf(Run(args)), Run(args))
  {
    hide PiecesToks, Words, Files, Writes, PipelineWrites;
    ArgsOf(args);
    var u := Plain(seq(|args|, i requires 0 <= i < |args| => Arg(args[i])));
    SoleWrites(u, Run(args));
    LastWrites(Sole(u), Run(args), 0);
  }

  lemma ToMeans(c: Tree, f: string, m: Mode)
    requires Writes(LineOf(c), c) && IsWord(f)
    ensures Writes(LineOf(To(c, f, m)), To(c, f, m))
  {
    hide UnitWrites, PipelineWrites;
    var u := Group(LineOf(c), [Into(f, m)]);
    OneInto(f, m);
    InParens(LineOf(c), [Into(f, m)]);
    assert Redirected(c, [(f, m)]) == To(c, f, m);
    SoleWrites(u, To(c, f, m));
    LastWrites(Sole(u), To(c, f, m), 0);
  }

  lemma BothMean(l: Tree, r: Tree)
    requires Writes(LineOf(l), l) && Writes(LineOf(r), r)
    ensures Writes(LineOf(Both(l, r)), Both(l, r))
  {
    hide UnitOk, UnitTree, UnitToks, TokOk;
    SignsOk();
    InParens(LineOf(l), []);
    InParens(LineOf(r), []);
    var last := Sole(Group(LineOf(r), []));
    SoleWrites(last.unit, r);
    var p := Chain(Group(LineOf(l), []), last);
    assert PipelineToks(p) == UnitToks(p.unit) + ([Sign('|')] + PipelineToks(last));
    LastWrites(p, Both(l, r), 0);
  }

  lemma ThenMeans(l: Tree, r: Tree)
    requires Writes(LineOf(l), l) && Writes(LineOf(r), r)
    ensures Writes(LineOf(Then(l, r)), Then(l, r))
  {
    hide UnitOk, UnitTree, UnitToks, TokOk;
    SignsOk();
    InParens(LineOf(l), []);
    InParens(LineOf(r), []);
    var first, last := Sole(Group(LineOf(l), [])), Last(Sole(Group(LineOf(r), [])), 0);
    SoleWrites(first.unit, l);
    SoleWrites(last.pipe.unit, r);
    LastWrites(last.pipe, r, 0);
    assert JobToks(Next(first, 0, last)) == PipelineToks(first) + (Ands(0) + ([Sign(';')] + JobToks(last)));
  }

  lemma BehindMeans(c: Tree)
    requires Writes(LineOf(c), c)
    ensures Writes(LineOf(Behind(c)), Behind(c))
  {
    hide UnitWrites, PipelineWrites;
    var u := Group(LineOf(c), []);
    InParens(LineOf(c), []);
    SoleWrites(u, c);
    LastWrites(Sole(u), c, 1);
  }

  lemma SignsOk()
    ensures TokOk(Sign('|')) && TokOk(Sign(';')) && TokOk(Sign('&')) && TokOk(Sign('(')) && TokOk(Sign(')'))
  {
  }

  lemma InParens(j: Job, into: seq<Piece>)
    requires JobOk(j) && AllInto(into) && AllOk(JobToks(j)) && AllOk(PiecesToks(into))
    ensures UnitWrites(Group(j, into), Redirected(JobTree(j), Files(into)))
  {
    hide PiecesToks, Files, Redirected, TokOk;
    SignsOk();
  }

  lemma OneInto(f: string, m: Mode)
    requires IsWord(f)
    ensures AllOk(PiecesToks([Into(f, m)])) && Files([Into(f, m)]) == [(f, m)]
  {
    assert [Into(f, m)][1..] == [];
    assert FileOf(Into(f, m)) == [(f, m)];
  }

  /* Every tree with valid words and at most nine arguments is what some line is parsed as. */
  lemma RoundTrip(t: Tree)
    requires Valid(t)
    ensures var s := Print(JobToks(LineOf(t)));
      Line(s) && ParseCmd(s).Ok? && Meaning(s, ParseCmd(s).value) == t
  {
    hide ParseCmd, Meaning, Print, JobToks, LineOf, JobOk, JobTree;
    LineOfMeans(t);
    PrintedReads(LineOf(t));
  }
}
