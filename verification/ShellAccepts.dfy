/** The shell accepts no other line (user/sh.c:310-446). */
module ShellAccepts {
  import opened ShellGrammar
  import opened ShellLines
  import opened ShellReads

  lemma {:induction false} Joined(s: string, i: nat, a: seq<Tok>, p: nat, b: seq<Tok>)
    requires i <= |s| && Line(s) && Scans(s, i, a) && SamePlace(s, p, Past(s, i, |a|)) && Scans(s, p, b)
    ensures Scans(s, i, a + b) && SamePlace(s, Past(s, p, |b|), Past(s, i, |a + b|))
    decreases |a|
  {
    hide GetToken, Skip, IsTok;
    if a == [] {
      assert a + b == b;
      MovedScan(s, p, i, b);
    } else {
      assert (a + b)[1..] == a[1..] + b;
      Joined(s, GetToken(s, i).next, a[1..], p, b);
    }
  }

  lemma OneTok(s: string, i: nat, t: Tok)
    requires i <= |s| && Line(s) && IsTok(s, i, t)
    ensures Scans(s, i, [t]) && Past(s, i, 1) == GetToken(s, i).next
  {
    assert Past(s, GetToken(s, i).next, 0) == GetToken(s, i).next;
  }

  // The loop over redirections consumes redirections.
  lemma {:induction false} RedirsFrom(s: string, i: nat, rs: seq<Redirection>) returns (ps: seq<Piece>)
    requires i <= |s| && Line(s) && Redirs(s, i, rs).Ok?
    ensures AllInto(ps) && Scans(s, i, PiecesToks(ps)) && SamePlace(s, Redirs(s, i, rs).pos, Past(s, i, |PiecesToks(ps)|))
    decreases |s| - i
  {
    hide GetToken, Skip, Peek, Between, PieceToks;
    PeekTok(s, i, "<>");
    if !Peek(s, i, "<>") {
      SkipTwice(s, i);
      ps := [];
    } else {
      var op := GetToken(s, i);
      var file := GetToken(s, op.next);
      var r := Redirection(Span(file.from, file.to), ModeOf(op.kind));
      var rest := RedirsFrom(s, file.next, rs + [r]);
      var p := Into(Between(s, file.from, file.to), ModeOf(op.kind));
      IntoAhead(s, i, p);
      Joined(s, i, PieceToks(p), file.next, PiecesToks(rest));
      ps := [p] + rest;
      assert ps[1..] == rest;
    }
  }

  lemma IntoAhead(s: string, i: nat, p: Piece)
    requires i <= |s| && Line(s) && Peek(s, i, "<>") && GetToken(s, GetToken(s, i).next).kind == Word
    requires var file := GetToken(s, GetToken(s, i).next); p == Into(Between(s, file.from, file.to), ModeOf(GetToken(s, i).kind))
    ensures Scans(s, i, PieceToks(p))
    ensures SamePlace(s, GetToken(s, GetToken(s, i).next).next, Past(s, i, |PieceToks(p)|))
  {
    hide GetToken, Between, Skip;
    PeekTok(s, i, "<>");
    var j := GetToken(s, i).next;
    OneTok(s, i, OpTok(p.mode));
    OneTok(s, j, Text(p.file));
    Joined(s, i, [OpTok(p.mode)], j, [Text(p.file)]);
    assert PieceToks(p) == [OpTok(p.mode)] + [Text(p.file)];
  }

  // The loop over words consumes words and redirections, and stops before | ) & ; or the end.
  lemma {:induction false} ArgsFrom(s: string, i: nat, argv: seq<Span>, rs: seq<Redirection>) returns (ps: seq<Piece>)
    requires i <= |s| && Line(s) && Args(s, i, argv, rs).Ok? && |argv| < MAXARGS
    ensures Scans(s, i, PiecesToks(ps)) && SamePlace(s, Args(s, i, argv, rs).pos, Past(s, i, |PiecesToks(ps)|))
    ensures |argv| + |Words(ps)| < MAXARGS
    decreases |s| - i
  {
    hide GetToken, Skip, Peek, Between, Redirs, Scans, Past, PiecesToks, Words, Files;
    PeekTok(s, i, "|)&;");
    var t := GetToken(s, i);
    if Peek(s, i, "|)&;") || t.kind == End {
      ps := [];
      ArgsStopped(s, i, argv, rs);
    } else {
      var r := Redirs(s, t.next, rs);
      var into := RedirsFrom(s, t.next, rs);
      var rest := ArgsFrom(s, r.pos, argv + [Span(t.from, t.to)], r.value);
      var w := Arg(Between(s, t.from, t.to));
      ps := [w] + (into + rest);
      WordFirst(ps);
      assert ps[1..] == into + rest;
      PiecesApart(into, rest);
      IntosHaveNoWords(into);
      OneTok(s, i, Text(w.word));
      Joined(s, t.next, PiecesToks(into), r.pos, PiecesToks(rest));
      Here(s, t.next);
      Joined(s, i, [Text(w.word)], t.next, PiecesToks(into) + PiecesToks(rest));
    }
  }

  lemma Here(s: string, i: nat)
    requires i <= |s|
    ensures SamePlace(s, i, i)
  {
  }

  lemma ArgsStopped(s: string, i: nat, argv: seq<Span>, rs: seq<Redirection>)
    requires i <= |s| && Line(s) && (Peek(s, i, "|)&;") || GetToken(s, i).kind == End)
    ensures Scans(s, i, PiecesToks([])) && SamePlace(s, Args(s, i, argv, rs).pos, Past(s, i, |PiecesToks([])|)) && Words([]) == []
  {
    SkipTwice(s, i);
  }

  lemma {:induction false} UnitFrom(s: string, i: nat) returns (u: Unit)
    requires i <= |s| && Line(s) && ParseExec(s, i).Ok?
    ensures UnitOk(u) && Scans(s, i, UnitToks(u)) && SamePlace(s, ParseExec(s, i).pos, Past(s, i, |UnitToks(u)|))
    decreases |s| - i, 1
  {
    hide GetToken, Skip, Peek, Redirs, Args, Wrap, Scans, Past, PiecesToks, Words, ParseLine, JobToks;
    if Peek(s, i, "(") {
      u := GroupFrom(s, i);
    } else {
      var r := Redirs(s, i, []);
      var into := RedirsFrom(s, i, []);
      var rest := ArgsFrom(s, r.pos, [], r.value);
      PiecesApart(into, rest);
      IntosHaveNoWords(into);
      Joined(s, i, PiecesToks(into), r.pos, PiecesToks(rest));
      u := Plain(into + rest);
    }
  }

  lemma {:induction false} GroupFrom(s: string, i: nat) returns (u: Unit)
    requires i <= |s| && Line(s) && Peek(s, i, "(") && ParseBlock(s, i).Ok?
    ensures UnitOk(u) && Scans(s, i, UnitToks(u)) && SamePlace(s, ParseBlock(s, i).pos, Past(s, i, |UnitToks(u)|))
    decreases |s| - i, 0
  {
    hide GetToken, Skip, Peek, Redirs, Wrap, Scans, Past, PiecesToks, ParseLine, JobToks;
    PeekTok(s, i, "(");
    var a := GetToken(s, i).next;
    var j := JobFrom(s, a);
    var r := ParseLine(s, a);
    PeekTok(s, r.pos, ")");
    var c := GetToken(s, r.pos).next;
    var into := RedirsFrom(s, c, []);
    OneTok(s, r.pos, Sign(')'));
    Here(s, c);
    Joined(s, r.pos, [Sign(')')], c, PiecesToks(into));
    Joined(s, a, JobToks(j), r.pos, [Sign(')')] + PiecesToks(into));
    OneTok(s, i, Sign('('));
    Here(s, a);
    Joined(s, i, [Sign('(')], a, JobToks(j) + ([Sign(')')] + PiecesToks(into)));
    u := Group(j, into);
  }

  lemma {:induction false} PipelineFrom(s: string, i: nat) returns (p: Pipeline)
    requires i <= |s| && Line(s) && ParsePipe(s, i).Ok?
    ensures PipelineOk(p) && Scans(s, i, PipelineToks(p)) && SamePlace(s, ParsePipe(s, i).pos, Past(s, i, |PipelineToks(p)|))
    decreases |s| - i, 2
  {
    hide GetToken, Skip, Peek, Scans, Past, ParseExec, UnitToks, UnitOk;
    var u := UnitFrom(s, i);
    var r := ParseExec(s, i);
    PeekTok(s, r.pos, "|");
    if Peek(s, r.pos, "|") {
      var c := GetToken(s, r.pos).next;
      PeekMoves(s, r.pos);
      var rest := PipelineFrom(s, c);
      OneTok(s, r.pos, Sign('|'));
      Here(s, c);
      Joined(s, r.pos, [Sign('|')], c, PipelineToks(rest));
      Joined(s, i, UnitToks(u), r.pos, [Sign('|')] + PipelineToks(rest));
      p := Chain(u, rest);
    } else {
      SkipTwice(s, r.pos);
      p := Sole(u);
    }
  }

  lemma PeekMoves(s: string, i: nat)
    requires i <= |s| && Line(s) && GetToken(s, i).kind != End
    ensures GetToken(s, i).next > i
  {
  }

  lemma {:induction false} BacksFrom(s: string, i: nat, c: Cmd) returns (n: nat)
    requires i <= |s| && Line(s)
    ensures Scans(s, i, Ands(n)) && SamePlace(s, Backs(s, i, c).pos, Past(s, i, |Ands(n)|))
    decreases |s| - i
  {
    hide GetToken, Skip, Peek;
    PeekTok(s, i, "&");
    if Peek(s, i, "&") {
      PeekMoves(s, i);
      var j := GetToken(s, i).next;
      var m := BacksFrom(s, j, Back(c));
      OneTok(s, i, Sign('&'));
      Here(s, j);
      Joined(s, i, [Sign('&')], j, Ands(m));
      n := m + 1;
    } else {
      SkipTwice(s, i);
      n := 0;
    }
  }

  lemma {:induction false} JobFrom(s: string, i: nat) returns (j: Job)
    requires i <= |s| && Line(s) && ParseLine(s, i).Ok?
    ensures JobOk(j) && Scans(s, i, JobToks(j)) && SamePlace(s, ParseLine(s, i).pos, Past(s, i, |JobToks(j)|))
    decreases |s| - i, 3
  {
    hide GetToken, Skip, Peek, Scans, Past, ParsePipe, Backs, PipelineToks, PipelineOk, Ands;
    var p := PipelineFrom(s, i);
    var r := ParsePipe(s, i);
    var n := BacksFrom(s, r.pos, r.value);
    var b := Backs(s, r.pos, r.value);
    PeekTok(s, b.pos, ";");
    if Peek(s, b.pos, ";") {
      PeekMoves(s, b.pos);
      var c := GetToken(s, b.pos).next;
      var rest := JobFrom(s, c);
      OneTok(s, b.pos, Sign(';'));
      Here(s, c);
      Joined(s, b.pos, [Sign(';')], c, JobToks(rest));
      Joined(s, r.pos, Ands(n), b.pos, [Sign(';')] + JobToks(rest));
      Joined(s, i, PipelineToks(p), r.pos, Ands(n) + ([Sign(';')] + JobToks(rest)));
      j := Next(p, n, rest);
    } else {
      SkipTwice(s, b.pos);
      Joined(s, i, PipelineToks(p), r.pos, Ands(n));
      j := Last(p, n);
    }
  }

  /* A line is accepted exactly when its tokens are those of a job. */
  lemma Accepted(s: string)
    requires Line(s)
    ensures ParseCmd(s).Ok? <==> exists j :: Spells(s, j)
  {
    hide ParseLine, JobToks, Scans, JobOk, Spells;
    if ParseCmd(s).Ok? {
      var j := JobFrom(s, 0);
      var k := Past(s, 0, |JobToks(j)|);
      EndsThere(s, ParseLine(s, 0).pos, k);
      SpellsIt(s, j);
    } else if j :| Spells(s, j) {
      LineReads(s, j);
    }
  }

  lemma SpellsIt(s: string, j: Job)
    requires Line(s) && JobOk(j) && Scans(s, 0, JobToks(j)) && GetToken(s, Past(s, 0, |JobToks(j)|)).kind == End
    ensures Spells(s, j)
  {
  }

  lemma EndsThere(s: string, i: nat, k: nat)
    requires Line(s) && SamePlace(s, i, k) && Skip(s, i) == |s|
    ensures GetToken(s, k).kind == End
  {
  }
}
