/** The words of a parsed command, and ending them with NULs (user/sh.c:448-493). */
module ShellWords {
  import opened ShellGrammar

  // All words of a command: arguments and file names.
  function Spans(c: Cmd): set<Span> {
    match c
    case Exec(argv) => set w | w in argv
    case Redir(d, r) => Spans(d) + {r.file}
    case Pipe(l, r) => Spans(l) + Spans(r)
    case List(l, r) => Spans(l) + Spans(r)
    case Back(d) => Spans(d)
  }

  predicate IsWordSpan(s: string, w: Span) {
    WordAt(s, w.from, w.to)
  }

  predicate AllWords(s: string, c: Cmd) {
    forall w :: w in Spans(c) ==> IsWordSpan(s, w)
  }

  // ---- every word of a parsed command is a maximal run of word characters ----

  predicate FilesOk(s: string, rs: seq<Redirection>) {
    forall k :: 0 <= k < |rs| ==> IsWordSpan(s, rs[k].file)
  }

  predicate ArgvOk(s: string, argv: seq<Span>) {
    forall k :: 0 <= k < |argv| ==> IsWordSpan(s, argv[k])
  }

  lemma {:induction false} WrapWords(s: string, c: Cmd, rs: seq<Redirection>)
    requires AllWords(s, c) && FilesOk(s, rs)
    ensures AllWords(s, Wrap(c, rs))
    decreases |rs|
  {
    if rs != [] {
      WrapWords(s, c, rs[..|rs| - 1]);
      assert IsWordSpan(s, rs[|rs| - 1].file);
    }
  }

  lemma {:induction false} RedirsWords(s: string, i: nat, rs: seq<Redirection>)
    requires i <= |s| && Line(s) && FilesOk(s, rs)
    ensures Redirs(s, i, rs).Ok? ==> FilesOk(s, Redirs(s, i, rs).value)
    decreases |s| - i
  {
    hide GetToken, WordAt, Skip;
    if Peek(s, i, "<>") {
      var op := GetToken(s, i);
      var file := GetToken(s, op.next);
      if file.kind == Word {
        RedirsWords(s, file.next, rs + [Redirection(Span(file.from, file.to), ModeOf(op.kind))]);
      }
    }
  }

  lemma {:induction false} ArgsWords(s: string, i: nat, argv: seq<Span>, rs: seq<Redirection>)
    requires i <= |s| && Line(s) && ArgvOk(s, argv) && FilesOk(s, rs)
    ensures var r := Args(s, i, argv, rs); r.Ok? ==> ArgvOk(s, r.value.0) && FilesOk(s, r.value.1)
    decreases |s| - i
  {
    hide GetToken, WordAt, Skip, Redirs, FilesOk, Peek;
    if !Peek(s, i, "|)&;") {
      var t := GetToken(s, i);
      if t.kind == Word && |argv| + 1 < MAXARGS {
        RedirsWords(s, t.next, rs);
        var r := Redirs(s, t.next, rs);
        if r.Ok? { ArgsWords(s, r.pos, argv + [Span(t.from, t.to)], r.value); }
      }
    }
  }

  lemma ExecWords(s: string, argv: seq<Span>)
    requires ArgvOk(s, argv)
    ensures AllWords(s, Exec(argv))
  {
  }

  lemma {:induction false} ParseExecWords(s: string, i: nat)
    requires i <= |s| && Line(s)
    ensures ParseExec(s, i).Ok? ==> AllWords(s, ParseExec(s, i).value)
    decreases |s| - i, 1
  {
    hide AllWords, Args, Redirs, Peek, Wrap, ParseBlock, FilesOk, ArgvOk;
    if Peek(s, i, "(") {
      ParseBlockWords(s, i);
    } else {
      NoFiles(s);
      RedirsWords(s, i, []);
      var r := Redirs(s, i, []);
      if r.Ok? {
        ArgsWords(s, r.pos, [], r.value);
        var a := Args(s, r.pos, [], r.value);
        if a.Ok? {
          ExecWords(s, a.value.0);
          WrapWords(s, Exec(a.value.0), a.value.1);
        }
      }
    }
  }

  lemma NoFiles(s: string)
    ensures FilesOk(s, []) && ArgvOk(s, [])
  {
  }

  lemma {:induction false} ParseBlockWords(s: string, i: nat)
    requires i <= |s| && Line(s) && Peek(s, i, "(")
    ensures ParseBlock(s, i).Ok? ==> AllWords(s, ParseBlock(s, i).value)
    decreases |s| - i, 0
  {
    hide AllWords, Redirs, Wrap, ParseLine, FilesOk;
    ParseLineWords(s, GetToken(s, i).next);
    var c := ParseLine(s, GetToken(s, i).next);
    if c.Ok? && Peek(s, c.pos, ")") {
      NoFiles(s);
      RedirsWords(s, GetToken(s, c.pos).next, []);
      var r := Redirs(s, GetToken(s, c.pos).next, []);
      if r.Ok? { WrapWords(s, c.value, r.value); }
    }
  }

  lemma {:induction false} ParsePipeWords(s: string, i: nat)
    requires i <= |s| && Line(s)
    ensures ParsePipe(s, i).Ok? ==> AllWords(s, ParsePipe(s, i).value)
    decreases |s| - i, 2
  {
    ParseExecWords(s, i);
    var c := ParseExec(s, i);
    if c.Ok? && Peek(s, c.pos, "|") {
      ParsePipeWords(s, GetToken(s, c.pos).next);
    }
  }

  lemma {:induction false} BacksWords(s: string, i: nat, c: Cmd)
    requires i <= |s| && Line(s) && AllWords(s, c)
    ensures AllWords(s, Backs(s, i, c).value)
    decreases |s| - i
  {
    if Peek(s, i, "&") {
      BacksWords(s, GetToken(s, i).next, Back(c));
    }
  }

  lemma {:induction false} ParseLineWords(s: string, i: nat)
    requires i <= |s| && Line(s)
    ensures ParseLine(s, i).Ok? ==> AllWords(s, ParseLine(s, i).value)
    decreases |s| - i, 3
  {
    ParsePipeWords(s, i);
    var c := ParsePipe(s, i);
    if c.Ok? {
      BacksWords(s, c.pos, c.value);
      var b := Backs(s, c.pos, c.value);
      if Peek(s, b.pos, ";") {
        ParseLineWords(s, GetToken(s, b.pos).next);
      }
    }
  }

  // ---- nulterminate ----

  // Where nulterminate writes.
  function Ends(c: Cmd): set<nat> {
    match c
    case Exec(argv) => ArgEnds(argv, |argv|)
    case Redir(d, r) => Ends(d) + {r.file.to}
    case Pipe(l, r) => Ends(l) + Ends(r)
    case List(l, r) => Ends(l) + Ends(r)
    case Back(d) => Ends(d)
  }

  function ArgEnds(argv: seq<Span>, n: nat): set<nat>
    requires n <= |argv|
  {
    if n == 0 then {} else ArgEnds(argv, n - 1) + {argv[n - 1].to}
  }

  // The buffer with NULs at these positions.
  function Nulled(b: seq<char>, ends: set<nat>): (r: seq<char>)
    ensures |r| == |b| && forall k :: 0 <= k < |b| ==> r[k] == if k in ends then '\0' else b[k]
  {
    seq(|b|, k requires 0 <= k < |b| => if k in ends then '\0' else b[k])
  }

  lemma {:induction false} ArgEndIs(argv: seq<Span>, n: nat, e: nat)
    requires n <= |argv|
    ensures e in ArgEnds(argv, n) <==> exists k :: 0 <= k < n && argv[k].to == e
  {
    if n > 0 { ArgEndIs(argv, n - 1, e); }
  }

  // The positions written are exactly the ends of the words.
  lemma {:induction false} EndIsSpan(c: Cmd, e: nat)
    ensures e in Ends(c) <==> exists w :: w in Spans(c) && w.to == e
  {
    match c
    case Exec(argv) =>
      ArgEndIs(argv, |argv|, e);
      if k :| 0 <= k < |argv| && argv[k].to == e { assert argv[k] in Spans(c); }
    case Redir(d, r) => EndIsSpan(d, e);
    case Pipe(l, r) => EndIsSpan(l, e); EndIsSpan(r, e);
    case List(l, r) => EndIsSpan(l, e); EndIsSpan(r, e);
    case Back(d) => EndIsSpan(d, e);
  }

  // The C string that starts at position i.
  function CString(b: seq<char>, i: nat): string
    requires i <= |b|
    decreases |b| - i
  {
    if i < |b| && b[i] != '\0' then [b[i]] + CString(b, i + 1) else ""
  }

  lemma {:induction false} CStringIs(b: seq<char>, i: nat, e: nat)
    requires i <= e < |b| && b[e] == '\0' && forall k :: i <= k < e ==> b[k] != '\0'
    ensures CString(b, i) == b[i..e]
    decreases e - i
  {
    if i < e {
      CStringIs(b, i + 1, e);
      assert b[i..e] == [b[i]] + b[i + 1..e];
    }
  }

  // A word character is not where a word ends.
  lemma NotAnEnd(s: string, c: Cmd, k: nat)
    requires AllWords(s, c) && k < |s| && IsWordChar(s[k])
    ensures k !in Ends(c)
  {
    EndIsSpan(c, k);
    forall w | w in Spans(c)
      ensures w.to != k
    {
      assert IsWordSpan(s, w);
    }
  }

  // No byte of a word is overwritten, and every word is afterwards a C string of its own.
  lemma WordsBecomeStrings(s: string, b: seq<char>, c: Cmd, w: Span)
    requires Line(s) && |b| == |s| + 1 && b == s + ['\0'] && AllWords(s, c) && w in Spans(c)
    ensures var b' := Nulled(b, Ends(c));
      && w.from < w.to <= |s|
      && b'[w.from..w.to] == s[w.from..w.to]
      && CString(b', w.from) == s[w.from..w.to]
  {
    var b' := Nulled(b, Ends(c));
    assert IsWordSpan(s, w);
    EndIsSpan(c, w.to);
    forall k | w.from <= k < w.to
      ensures b'[k] == s[k] && b'[k] != '\0'
    {
      NotAnEnd(s, c, k);
    }
    assert b'[w.from..w.to] == s[w.from..w.to];
    CStringIs(b', w.from, w.to);
  }
}
