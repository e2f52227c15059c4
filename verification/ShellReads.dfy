/** The shell parses a line as its tokens say, however the line is spaced (user/sh.c:310-446). */
module ShellReads {
  import opened ShellGrammar
  import opened ShellLines

  // ---- tokens and peeking ----

  lemma {:induction false} ScansParts(s: string, i: nat, a: seq<Tok>, b: seq<Tok>)
    requires i <= |s| && Line(s) && Scans(s, i, a + b)
    ensures Scans(s, i, a) && Scans(s, Past(s, i, |a|), b) && Past(s, i, |a + b|) == Past(s, Past(s, i, |a|), |b|)
    decreases |a|
  {
    hide GetToken, Skip, IsTok;
    if a == [] {
      assert a + b == b;
    } else {
      assert (a + b)[1..] == a[1..] + b;
      ScansParts(s, GetToken(s, i).next, a[1..], b);
    }
  }

  lemma ScansOne(s: string, i: nat, t: Tok)
    requires i <= |s| && Line(s) && Scans(s, i, [t])
    ensures IsTok(s, i, t) && Past(s, i, 1) == GetToken(s, i).next
  {
    assert Past(s, GetToken(s, i).next, 0) == GetToken(s, i).next;
  }

  // peek looks at the first character of the next token.
  lemma PeekTok(s: string, i: nat, toks: string)
    requires i <= |s| && Line(s) && forall c :: c in toks ==> IsSymbol(c)
    ensures var k := GetToken(s, i).kind;
      Peek(s, i, toks) <==> (k.Symbol? && k.c in toks) || (k.Append? && '>' in toks)
  {
  }

  // The token at i is one of these signs, or the line ends there.
  predicate Follows(s: string, i: nat, signs: string)
    requires i <= |s| && Line(s)
  {
    var k := GetToken(s, i).kind;
    k == End || (k.Symbol? && k.c in signs)
  }

  // ---- redirections ----

  // rs has the redirections rs0 and after them those of files.
  predicate HasFiles(s: string, rs0: seq<Redirection>, rs: seq<Redirection>, files: seq<(string, Mode)>) {
    && |rs| == |rs0| + |files| && rs[..|rs0|] == rs0
    && forall k :: 0 <= k < |files| ==> FileIs(s, rs[|rs0| + k], files[k])
  }

  predicate FileIs(s: string, r: Redirection, file: (string, Mode)) {
    Between(s, r.file.from, r.file.to) == file.0 && r.mode == file.1
  }

  lemma HasFilesMore(s: string, rs0: seq<Redirection>, r: Redirection, rs: seq<Redirection>, files: seq<(string, Mode)>, file: (string, Mode))
    requires HasFiles(s, rs0 + [r], rs, files) && FileIs(s, r, file)
    ensures HasFiles(s, rs0, rs, [file] + files)
  {
    assert rs[..|rs0|] == rs[..|rs0| + 1][..|rs0|];
    forall k | 0 <= k < |files| + 1
      ensures FileIs(s, rs[|rs0| + k], ([file] + files)[k])
    {
      if k == 0 {
        assert rs[|rs0|] == rs[..|rs0| + 1][|rs0|] == r;
      } else {
        assert FileIs(s, rs[|rs0| + 1 + (k - 1)], files[k - 1]);
      }
    }
  }

  lemma HasFilesTrans(s: string, rs0: seq<Redirection>, rs1: seq<Redirection>, rs2: seq<Redirection>, a: seq<(string, Mode)>, b: seq<(string, Mode)>)
    requires HasFiles(s, rs0, rs1, a) && HasFiles(s, rs1, rs2, b)
    ensures HasFiles(s, rs0, rs2, a + b)
  {
    assert rs2[..|rs0|] == rs2[..|rs1|][..|rs0|];
    forall k | 0 <= k < |a| + |b|
      ensures FileIs(s, rs2[|rs0| + k], (a + b)[k])
    {
      if k < |a| {
        assert rs2[|rs0| + k] == rs2[..|rs1|][|rs0| + k] && FileIs(s, rs1[|rs0| + k], a[k]);
      } else {
        assert FileIs(s, rs2[|rs1| + (k - |a|)], b[k - |a|]);
      }
    }
  }

  predicate NoRedir(s: string, i: nat)
    requires i <= |s| && Line(s)
  {
    var k := GetToken(s, i).kind;
    k != Symbol('<') && k != Symbol('>') && k != Append
  }

  // Where a token is looked for after whitespace has been passed.
  predicate SamePlace(s: string, i: nat, j: nat) {
    i <= |s| && j <= |s| && Skip(s, i) == Skip(s, j)
  }

  lemma SameToken(s: string, i: nat, j: nat)
    requires Line(s) && SamePlace(s, i, j)
    ensures GetToken(s, i) == GetToken(s, j)
  {
  }

  lemma {:induction false} RedirsRead(s: string, i: nat, ps: seq<Piece>, rs: seq<Redirection>)
    requires i <= |s| && Line(s) && AllInto(ps) && Scans(s, i, PiecesToks(ps)) && NoRedir(s, Past(s, i, |PiecesToks(ps)|))
    ensures var r := Redirs(s, i, rs);
      r.Ok? && SamePlace(s, r.pos, Past(s, i, |PiecesToks(ps)|)) && HasFiles(s, rs, r.value, Files(ps))
    decreases |ps|
  {
    hide GetToken, Skip, Peek, Between;
    PeekTok(s, i, "<>");
    if ps == [] {
      SkipTwice(s, i);
      assert Redirs(s, i, rs) == Ok(rs, Skip(s, i));
    } else {
      var toks := PiecesToks(ps);
      var f, m := ps[0].file, ps[0].mode;
      assert toks == [OpTok(m)] + ([Text(f)] + PiecesToks(ps[1..]));
      ScansParts(s, i, [OpTok(m)], [Text(f)] + PiecesToks(ps[1..]));
      ScansOne(s, i, OpTok(m));
      var op := GetToken(s, i);
      ScansParts(s, op.next, [Text(f)], PiecesToks(ps[1..]));
      ScansOne(s, op.next, Text(f));
      var file := GetToken(s, op.next);
      var r := Redirection(Span(file.from, file.to), ModeOf(op.kind));
      assert FileIs(s, r, (f, m));
      RedirsRead(s, file.next, ps[1..], rs + [r]);
      HasFilesMore(s, rs, r, Redirs(s, file.next, rs + [r]).value, Files(ps[1..]), (f, m));
    }
  }

  // ---- plain commands ----

  // How many redirections come first.
  function Leading(ps: seq<Piece>): (n: nat)
    ensures n <= |ps| && AllInto(ps[..n]) && (n < |ps| ==> ps[n].Arg?)
  {
    if ps == [] || ps[0].Arg? then 0
    else
      var n := Leading(ps[1..]);
      assert ps[..n + 1] == [ps[0]] + ps[1..][..n];
      n + 1
  }

  lemma {:induction false} ToksApart(a: seq<Piece>, b: seq<Piece>)
    ensures PiecesToks(a + b) == PiecesToks(a) + PiecesToks(b)
  {
    hide PieceToks;
    if a == [] {
      assert a + b == b;
    } else {
      assert (a + b)[0] == a[0] && (a + b)[1..] == a[1..] + b;
      ToksApart(a[1..], b);
      assert PiecesToks(a + b) == PieceToks(a[0]) + PiecesToks((a + b)[1..]);
      assert PiecesToks(a) == PieceToks(a[0]) + PiecesToks(a[1..]);
    }
  }

  lemma {:induction false} WordsApart(a: seq<Piece>, b: seq<Piece>)
    ensures Words(a + b) == Words(a) + Words(b)
  {
    hide WordOf;
    if a == [] {
      assert a + b == b;
    } else {
      assert (a + b)[0] == a[0] && (a + b)[1..] == a[1..] + b;
      WordsApart(a[1..], b);
      assert Words(a + b) == WordOf(a[0]) + Words((a + b)[1..]);
      assert Words(a) == WordOf(a[0]) + Words(a[1..]);
    }
  }

  lemma {:induction false} FilesApart(a: seq<Piece>, b: seq<Piece>)
    ensures Files(a + b) == Files(a) + Files(b)
  {
    hide FileOf;
    if a == [] {
      assert a + b == b;
    } else {
      assert (a + b)[0] == a[0] && (a + b)[1..] == a[1..] + b;
      FilesApart(a[1..], b);
      assert Files(a + b) == FileOf(a[0]) + Files((a + b)[1..]);
      assert Files(a) == FileOf(a[0]) + Files(a[1..]);
    }
  }

  lemma PiecesApart(a: seq<Piece>, b: seq<Piece>)
    ensures PiecesToks(a + b) == PiecesToks(a) + PiecesToks(b)
    ensures Words(a + b) == Words(a) + Words(b) && Files(a + b) == Files(a) + Files(b)
  {
    hide *;
    ToksApart(a, b);
    WordsApart(a, b);
    FilesApart(a, b);
  }

  lemma {:induction false} IntosHaveNoWords(ps: seq<Piece>)
    requires AllInto(ps)
    ensures Words(ps) == []
  {
    if ps != [] { IntosHaveNoWords(ps[1..]); }
  }

  lemma WordStarts(s: string, i: nat, ps: seq<Piece>)
    requires i <= |s| && Line(s) && Scans(s, i, PiecesToks(ps)) && (ps != [] ==> ps[0].Arg?)
    requires Follows(s, Past(s, i, |PiecesToks(ps)|), "|)&;")
    ensures NoRedir(s, i)
  {
    if ps != [] { assert PiecesToks(ps)[0] == Text(ps[0].word); }
  }

  predicate ArgsMean(s: string, r: Result<(seq<Span>, seq<Redirection>)>, pos: nat, argv: seq<Span>, rs: seq<Redirection>, ps: seq<Piece>) {
    && r.Ok? && SamePlace(s, r.pos, pos)
    && Texts(s, r.value.0) == Texts(s, argv) + Words(ps) && HasFiles(s, rs, r.value.1, Files(ps))
  }

  lemma {:induction false} ArgsRead(s: string, i: nat, ps: seq<Piece>, argv: seq<Span>, rs: seq<Redirection>)
    requires i <= |s| && Line(s) && Scans(s, i, PiecesToks(ps)) && (ps != [] ==> ps[0].Arg?)
    requires Follows(s, Past(s, i, |PiecesToks(ps)|), "|)&;") && |argv| + |Words(ps)| < MAXARGS
    ensures ArgsMean(s, Args(s, i, argv, rs), Past(s, i, |PiecesToks(ps)|), argv, rs, ps)
    decreases |ps|
  {
    hide GetToken, Skip, Peek, Between, Redirs, Texts, HasFiles, Files, Words, PiecesToks, Scans;
    if ps == [] {
      ArgsStop(s, i, ps, argv, rs);
    } else {
      var n := Leading(ps[1..]);
      var a, into, rest := ps[..1], ps[1..][..n], ps[1..][n..];
      SplitWord(s, i, ps, n);
      var j := GetToken(s, i).next;
      var k := Past(s, j, |PiecesToks(into)|);
      WordStarts(s, k, rest);
      RedirsRead(s, j, into, rs);
      var r := Redirs(s, j, rs);
      MovedScan(s, k, r.pos, PiecesToks(rest));
      MovedFollows(s, Past(s, k, |PiecesToks(rest)|), Past(s, r.pos, |PiecesToks(rest)|), "|)&;");
      var span := Span(GetToken(s, i).from, GetToken(s, i).to);
      ArgsRead(s, r.pos, rest, argv + [span], r.value);
      ArgsUnroll(s, i, argv, rs, span);
      ArgsMore(s, Args(s, r.pos, argv + [span], r.value), Past(s, i, |PiecesToks(ps)|), argv, rs, ps, n, span, r.value);
    }
  }

  lemma ArgsStop(s: string, i: nat, ps: seq<Piece>, argv: seq<Span>, rs: seq<Redirection>)
    requires i <= |s| && Line(s) && ps == [] && Follows(s, Past(s, i, |PiecesToks(ps)|), "|)&;")
    ensures ArgsMean(s, Args(s, i, argv, rs), Past(s, i, |PiecesToks(ps)|), argv, rs, ps)
  {
    hide Texts;
    PeekTok(s, i, "|)&;");
    SkipTwice(s, i);
    assert GetToken(s, i).kind == End ==> GetToken(s, i).next == Skip(s, i);
  }

  lemma WordFirst(ps: seq<Piece>)
    requires ps != [] && ps[0].Arg?
    ensures PiecesToks(ps) == [Text(ps[0].word)] + PiecesToks(ps[1..])
    ensures Words(ps) == [ps[0].word] + Words(ps[1..]) && Files(ps) == Files(ps[1..])
  {
  }

  // A plain command is a word, the redirections behind it, and the rest.
  lemma SplitWord(s: string, i: nat, ps: seq<Piece>, n: nat)
    requires i <= |s| && Line(s) && Scans(s, i, PiecesToks(ps)) && ps != [] && ps[0].Arg? && n == Leading(ps[1..])
    ensures var into, rest := ps[1..][..n], ps[1..][n..];
      var g := GetToken(s, i);
      && g.kind == Word && Between(s, g.from, g.to) == ps[0].word
      && Scans(s, g.next, PiecesToks(into)) && Scans(s, Past(s, g.next, |PiecesToks(into)|), PiecesToks(rest))
      && Past(s, i, |PiecesToks(ps)|) == Past(s, Past(s, g.next, |PiecesToks(into)|), |PiecesToks(rest)|)
      && Words(ps) == [ps[0].word] + Words(rest) && Files(ps) == Files(into) + Files(rest)
      && AllInto(into) && (rest != [] ==> rest[0].Arg?)
  {
    hide GetToken, Between, Scans, PiecesToks, Words, Files, Past;
    var into, rest := ps[1..][..n], ps[1..][n..];
    assert ps[1..] == into + rest;
    PiecesApart(into, rest);
    IntosHaveNoWords(into);
    WordFirst(ps);
    ScansParts(s, i, [Text(ps[0].word)], PiecesToks(ps[1..]));
    ScansOne(s, i, Text(ps[0].word));
    ScansParts(s, GetToken(s, i).next, PiecesToks(into), PiecesToks(rest));
  }

  // Whitespace before the first token does not matter.
  lemma {:induction false} MovedScan(s: string, i: nat, j: nat, toks: seq<Tok>)
    requires Line(s) && SamePlace(s, j, i) && Scans(s, i, toks)
    ensures Scans(s, j, toks) && SamePlace(s, Past(s, j, |toks|), Past(s, i, |toks|))
  {
    SameToken(s, j, i);
  }

  lemma ArgsUnroll(s: string, i: nat, argv: seq<Span>, rs: seq<Redirection>, span: Span)
    requires Line(s) && |argv| + 1 < MAXARGS && i <= |s| && GetToken(s, i).kind == Word
    requires span == Span(GetToken(s, i).from, GetToken(s, i).to) && Redirs(s, GetToken(s, i).next, rs).Ok?
    ensures var r := Redirs(s, GetToken(s, i).next, rs); Args(s, i, argv, rs) == Args(s, r.pos, argv + [span], r.value)
  {
    hide GetToken, Redirs, Peek;
    PeekTok(s, i, "|)&;");
  }

  lemma ArgsMore(s: string, r: Result<(seq<Span>, seq<Redirection>)>, pos: nat, argv: seq<Span>, rs: seq<Redirection>, ps: seq<Piece>,
                 n: nat, span: Span, rs1: seq<Redirection>)
    requires ps != [] && ps[0].Arg? && n <= |ps[1..]| && pos <= |s|
    requires var into, rest := ps[1..][..n], ps[1..][n..];
      && ArgsMean(s, r, pos, argv + [span], rs1, rest) && HasFiles(s, rs, rs1, Files(into))
      && Words(ps) == [ps[0].word] + Words(rest) && Files(ps) == Files(into) + Files(rest)
    requires Between(s, span.from, span.to) == ps[0].word
    ensures ArgsMean(s, r, pos, argv, rs, ps)
  {
    hide HasFiles, Between, Files, Words, Skip;
    var into, rest := ps[1..][..n], ps[1..][n..];
    HasFilesTrans(s, rs, rs1, r.value.1, Files(into), Files(rest));
    assert Texts(s, argv + [span]) == Texts(s, argv) + [ps[0].word];
  }

  lemma {:induction false} WrapMeans(s: string, c: Cmd, rs: seq<Redirection>, files: seq<(string, Mode)>)
    requires HasFiles(s, [], rs, files)
    ensures Meaning(s, Wrap(c, rs)) == Redirected(Meaning(s, c), files)
    decreases |rs|
  {
    hide Between;
    if files == [] {
      assert rs == [];
    } else {
      assert FileIs(s, rs[0], files[0]);
      var rest, last := rs[1..], files[1..];
      forall k | 0 <= k < |last|
        ensures FileIs(s, rest[k], last[k])
      {
        assert FileIs(s, rs[0 + (k + 1)], files[k + 1]);
      }
      WrapMeans(s, Redir(c, rs[0]), rest, last);
      WrapFirst(c, rs);
    }
  }

  lemma {:induction false} WrapFirst(c: Cmd, rs: seq<Redirection>)
    requires rs != []
    ensures Wrap(c, rs) == Wrap(Redir(c, rs[0]), rs[1..])
    decreases |rs|
  {
    var n := |rs| - 1;
    if n == 0 {
      assert rs[..n] == [] && rs[1..] == [];
    } else {
      WrapFirst(c, rs[..n]);
      assert rs[..n][1..] == rs[1..][..n - 1];
    }
  }

  // ---- units, pipelines, jobs ----

  predicate Means(s: string, r: Result<Cmd>, pos: nat, t: Tree) {
    r.Ok? && SamePlace(s, r.pos, pos) && Meaning(s, r.value) == t
  }

  lemma PlainReads(s: string, i: nat, ps: seq<Piece>)
    requires i <= |s| && Line(s) && Scans(s, i, PiecesToks(ps)) && |Words(ps)| < MAXARGS
    requires Follows(s, Past(s, i, |PiecesToks(ps)|), "|)&;")
    ensures Means(s, ParseExec(s, i), Past(s, i, |PiecesToks(ps)|), UnitTree(Plain(ps)))
  {
    hide GetToken, Skip, Peek, Between, Redirs, Args, HasFiles, Files, Words, PiecesToks, Scans, Wrap;
    var n := Leading(ps);
    var into, rest := ps[..n], ps[n..];
    assert ps == into + rest;
    PiecesApart(into, rest);
    IntosHaveNoWords(into);
    ScansParts(s, i, PiecesToks(into), PiecesToks(rest));
    var k := Past(s, i, |PiecesToks(into)|);
    WordStarts(s, k, rest);
    NotAGroup(s, i, ps);
    RedirsRead(s, i, into, []);
    var r := Redirs(s, i, []);
    MovedScan(s, k, r.pos, PiecesToks(rest));
    MovedFollows(s, Past(s, k, |PiecesToks(rest)|), Past(s, r.pos, |PiecesToks(rest)|), "|)&;");
    ArgsRead(s, r.pos, rest, [], r.value);
    var v := Args(s, r.pos, [], r.value);
    HasFilesTrans(s, [], r.value, v.value.1, Files(into), Files(rest));
    assert Texts(s, []) + Words(rest) == Words(ps);
    WrapMeans(s, Exec(v.value.0), v.value.1, Files(ps));
  }

  lemma MovedFollows(s: string, i: nat, j: nat, signs: string)
    requires Line(s) && SamePlace(s, j, i) && Follows(s, i, signs)
    ensures Follows(s, j, signs)
  {
    SameToken(s, j, i);
  }

  lemma NotAGroup(s: string, i: nat, ps: seq<Piece>)
    requires i <= |s| && Line(s) && Scans(s, i, PiecesToks(ps)) && Follows(s, Past(s, i, |PiecesToks(ps)|), "|)&;")
    ensures !Peek(s, i, "(")
  {
    PeekTok(s, i, "(");
    if ps != [] { assert PiecesToks(ps)[0] == PieceToks(ps[0])[0]; }
  }

  lemma {:induction false} BacksRead(s: string, i: nat, c: Cmd, n: nat)
    requires i <= |s| && Line(s) && Scans(s, i, Ands(n)) && Follows(s, Past(s, i, n), ");")
    ensures |Ands(n)| == n && Means(s, Backs(s, i, c), Past(s, i, n), BehindAll(Meaning(s, c), n))
    decreases n
  {
    hide GetToken, Skip, Peek;
    AndsLength(n);
    PeekTok(s, i, "&");
    if n == 0 {
      SkipTwice(s, i);
      assert Backs(s, i, c) == Ok(c, Skip(s, i));
    } else {
      ScansParts(s, i, [Sign('&')], Ands(n - 1));
      ScansOne(s, i, Sign('&'));
      BacksRead(s, GetToken(s, i).next, Back(c), n - 1);
      assert Backs(s, i, c) == Backs(s, GetToken(s, i).next, Back(c));
    }
  }

  lemma {:induction false} AndsLength(n: nat)
    ensures |Ands(n)| == n
  {
    if n > 0 { AndsLength(n - 1); }
  }

  lemma {:induction false} UnitReads(s: string, i: nat, u: Unit)
    requires i <= |s| && Line(s) && UnitOk(u) && Scans(s, i, UnitToks(u)) && Follows(s, Past(s, i, |UnitToks(u)|), "|)&;")
    ensures Means(s, ParseExec(s, i), Past(s, i, |UnitToks(u)|), UnitTree(u))
    decreases u
  {
    hide GetToken, Skip, Peek, ParseExec, ParseLine, Redirs, Scans, PiecesToks, Files, HasFiles, Wrap;
    match u
    case Plain(ps) => PlainReads(s, i, ps);
    case Group(j, into) =>
      GroupParts(s, i, j, into);
      var a := GetToken(s, i).next;
      var b := Past(s, a, |JobToks(j)|);
      var c := GetToken(s, b).next;
      JobReads(s, a, j);
      var r := ParseLine(s, a);
      SameToken(s, r.pos, b);
      FollowsIsNoRedir(s, Past(s, c, |PiecesToks(into)|));
      RedirsRead(s, c, into, []);
      GroupUnrolls(s, i);
      WrapMeans(s, r.value, Redirs(s, c, []).value, Files(into));
  }

  lemma FollowsIsNoRedir(s: string, i: nat)
    requires i <= |s| && Line(s) && Follows(s, i, "|)&;")
    ensures NoRedir(s, i)
  {
  }

  lemma GroupParts(s: string, i: nat, j: Job, into: seq<Piece>)
    requires i <= |s| && Line(s) && Scans(s, i, UnitToks(Group(j, into)))
    ensures IsTok(s, i, Sign('('))
    ensures var a := GetToken(s, i).next;
      var b := Past(s, a, |JobToks(j)|);
      && Scans(s, a, JobToks(j)) && IsTok(s, b, Sign(')')) && Follows(s, b, ")")
      && Scans(s, GetToken(s, b).next, PiecesToks(into))
      && Past(s, i, |UnitToks(Group(j, into))|) == Past(s, GetToken(s, b).next, |PiecesToks(into)|)
  {
    hide GetToken, JobToks, PiecesToks;
    ScansParts(s, i, [Sign('(')], JobToks(j) + ([Sign(')')] + PiecesToks(into)));
    ScansOne(s, i, Sign('('));
    var a := GetToken(s, i).next;
    ScansParts(s, a, JobToks(j), [Sign(')')] + PiecesToks(into));
    var b := Past(s, a, |JobToks(j)|);
    ScansParts(s, b, [Sign(')')], PiecesToks(into));
    ScansOne(s, b, Sign(')'));
  }

  lemma GroupUnrolls(s: string, i: nat)
    requires i <= |s| && Line(s) && IsTok(s, i, Sign('(')) && ParseLine(s, GetToken(s, i).next).Ok?
    requires IsTok(s, ParseLine(s, GetToken(s, i).next).pos, Sign(')'))
    ensures var r := ParseLine(s, GetToken(s, i).next);
      var rs := Redirs(s, GetToken(s, r.pos).next, []);
      rs.Ok? ==> ParseExec(s, i) == Ok(Wrap(r.value, rs.value), rs.pos)
  {
    hide GetToken, ParseLine, Redirs, Peek, Wrap;
    PeekTok(s, i, "(");
    PeekTok(s, ParseLine(s, GetToken(s, i).next).pos, ")");
  }

  lemma {:induction false} PipelineReads(s: string, i: nat, p: Pipeline)
    requires i <= |s| && Line(s) && PipelineOk(p) && Scans(s, i, PipelineToks(p)) && Follows(s, Past(s, i, |PipelineToks(p)|), ")&;")
    ensures Means(s, ParsePipe(s, i), Past(s, i, |PipelineToks(p)|), PipelineTree(p))
    decreases p
  {
    hide GetToken, Peek, ParseExec, Scans, UnitToks, UnitTree;
    match p
    case Sole(u) =>
      UnitReads(s, i, u);
      var r := ParseExec(s, i);
      SameToken(s, r.pos, Past(s, i, |UnitToks(u)|));
      PeekTok(s, r.pos, "|");
      SkipTwice(s, r.pos);
    case Chain(u, rest) =>
      ScansParts(s, i, UnitToks(u), [Sign('|')] + PipelineToks(rest));
      var a := Past(s, i, |UnitToks(u)|);
      ScansParts(s, a, [Sign('|')], PipelineToks(rest));
      ScansOne(s, a, Sign('|'));
      UnitReads(s, i, u);
      var r := ParseExec(s, i);
      SameToken(s, r.pos, a);
      PeekTok(s, r.pos, "|");
      PipelineReads(s, GetToken(s, a).next, rest);
  }

  /* However the line is spaced, its tokens decide how it is parsed. */
  lemma {:induction false} JobReads(s: string, i: nat, j: Job)
    requires i <= |s| && Line(s) && JobOk(j) && Scans(s, i, JobToks(j)) && Follows(s, Past(s, i, |JobToks(j)|), ")")
    ensures Means(s, ParseLine(s, i), Past(s, i, |JobToks(j)|), JobTree(j))
    decreases j
  {
    hide GetToken, Skip, Peek, ParsePipe, Scans, Past, PipelineToks, PipelineTree, Ands, Backs, BehindAll;
    var a := Past(s, i, |PipelineToks(j.pipe)|);
    var c := Past(s, a, j.backs);
    JobParts(s, i, j);
    PipelineReads(s, i, j.pipe);
    BacksAfter(s, i, a, j.backs);
    var r := ParsePipe(s, i);
    var b := Backs(s, r.pos, r.value);
    SameToken(s, b.pos, c);
    if j.Last? {
      LineEnds(s, i);
    } else {
      JobReads(s, GetToken(s, c).next, j.rest);
      LineGoesOn(s, i);
    }
  }

  lemma JobParts(s: string, i: nat, j: Job)
    requires i <= |s| && Line(s) && Scans(s, i, JobToks(j)) && Follows(s, Past(s, i, |JobToks(j)|), ")")
    ensures var a := Past(s, i, |PipelineToks(j.pipe)|);
      var c := Past(s, a, j.backs);
      && Scans(s, i, PipelineToks(j.pipe)) && Follows(s, a, ")&;") && Scans(s, a, Ands(j.backs)) && Follows(s, c, ");")
      && (j.Last? ==> Past(s, i, |JobToks(j)|) == c && Follows(s, c, ")"))
      && (j.Next? ==> IsTok(s, c, Sign(';')) && Scans(s, GetToken(s, c).next, JobToks(j.rest))
                      && Past(s, i, |JobToks(j)|) == Past(s, GetToken(s, c).next, |JobToks(j.rest)|))
  {
    hide GetToken, Scans, Past, PipelineToks, Ands;
    var p, n := j.pipe, j.backs;
    var a := Past(s, i, |PipelineToks(p)|);
    AndsLength(n);
    if j.Last? {
      ScansParts(s, i, PipelineToks(p), Ands(n));
      AndsFollow(s, a, n, ")");
    } else {
      var tail := [Sign(';')] + JobToks(j.rest);
      ScansParts(s, i, PipelineToks(p), Ands(n) + tail);
      ScansParts(s, a, Ands(n), tail);
      var c := Past(s, a, n);
      ScansParts(s, c, [Sign(';')], JobToks(j.rest));
      ScansOne(s, c, Sign(';'));
      AndsFollow(s, a, n, ";");
    }
  }

  lemma LineEnds(s: string, i: nat)
    requires i <= |s| && Line(s) && ParsePipe(s, i).Ok?
    requires var b := Backs(s, ParsePipe(s, i).pos, ParsePipe(s, i).value); b.Ok? && Follows(s, b.pos, ")")
    ensures var b := Backs(s, ParsePipe(s, i).pos, ParsePipe(s, i).value);
      ParseLine(s, i).Ok? && ParseLine(s, i).value == b.value && SamePlace(s, ParseLine(s, i).pos, b.pos)
  {
    hide GetToken, Peek, ParsePipe, Backs;
    var b := Backs(s, ParsePipe(s, i).pos, ParsePipe(s, i).value);
    PeekTok(s, b.pos, ";");
    SkipTwice(s, b.pos);
  }

  lemma LineGoesOn(s: string, i: nat)
    requires i <= |s| && Line(s) && ParsePipe(s, i).Ok?
    requires var b := Backs(s, ParsePipe(s, i).pos, ParsePipe(s, i).value);
      b.Ok? && IsTok(s, b.pos, Sign(';')) && ParseLine(s, GetToken(s, b.pos).next).Ok?
    ensures var b := Backs(s, ParsePipe(s, i).pos, ParsePipe(s, i).value);
      var rest := ParseLine(s, GetToken(s, b.pos).next);
      ParseLine(s, i) == Ok(List(b.value, rest.value), rest.pos)
  {
    hide GetToken, Peek, ParsePipe, Backs;
    var b := Backs(s, ParsePipe(s, i).pos, ParsePipe(s, i).value);
    PeekTok(s, b.pos, ";");
  }

  lemma AndsFollow(s: string, a: nat, n: nat, signs: string)
    requires a <= |s| && Line(s) && Scans(s, a, Ands(n)) && Follows(s, Past(s, a, n), signs) && (signs == ")" || signs == ";")
    ensures Follows(s, a, ")&;") && Follows(s, Past(s, a, n), ");")
  {
  }

  // The loop over & starts where the pipeline ended.
  lemma BacksAfter(s: string, i: nat, a: nat, n: nat)
    requires i <= |s| && Line(s) && ParsePipe(s, i).Ok? && SamePlace(s, ParsePipe(s, i).pos, a)
    requires Scans(s, a, Ands(n)) && Follows(s, Past(s, a, n), ");")
    ensures var r := ParsePipe(s, i); Means(s, Backs(s, r.pos, r.value), Past(s, a, n), BehindAll(Meaning(s, r.value), n))
  {
    hide GetToken, ParsePipe, Backs, BehindAll, Meaning;
    var r := ParsePipe(s, i);
    AndsLength(n);
    MovedScan(s, a, r.pos, Ands(n));
    MovedFollows(s, Past(s, a, n), Past(s, r.pos, n), ");");
    BacksRead(s, r.pos, r.value, n);
  }

  // The tokens of s are those of j, and there are no more.
  predicate Spells(s: string, j: Job)
    requires Line(s)
  {
    JobOk(j) && Scans(s, 0, JobToks(j)) && GetToken(s, Past(s, 0, |JobToks(j)|)).kind == End
  }

  /* A line with the tokens of a job, and no others, is parsed as that job, whatever the spacing. */
  lemma LineReads(s: string, j: Job)
    requires Line(s) && Spells(s, j)
    ensures ParseCmd(s).Ok? && Meaning(s, ParseCmd(s).value) == JobTree(j)
  {
    hide ParseLine, JobToks, Scans, JobTree, Meaning;
    JobReads(s, 0, j);
    EndIsEnd(s, Past(s, 0, |JobToks(j)|));
  }

  lemma EndIsEnd(s: string, i: nat)
    requires i <= |s| && Line(s) && GetToken(s, i).kind == End
    ensures Skip(s, i) == |s|
  {
  }
}
