/** The shell's parser as it runs: a cursor over the line buffer (user/sh.c:265-493). */
module Shell {
  import opened ShellGrammar
  import opened ShellWords

  class Parser {
    const buf: array<char>
    const es: nat                        // the end of the line, where its NUL is
    var ps: nat

    ghost function Text(): string
      reads this, buf
      requires es <= buf.Length
    {
      buf[..es]
    }

    ghost predicate Valid()
      reads this, buf
    {
      es + 1 == buf.Length && buf[es] == '\0' && Line(buf[..es]) && ps <= es
    }

    constructor (buf: array<char>)
      requires buf.Length > 0 && buf[buf.Length - 1] == '\0' && Line(buf[..buf.Length - 1])
      ensures this.buf == buf && es + 1 == buf.Length && ps == 0 && Valid()
    {
      this.buf := buf;
      es := buf.Length - 1;
      ps := 0;
    }

    // The loop that both peek and gettoken run over whitespace.
    method SkipSpace()
      requires Valid()
      modifies `ps
      ensures Valid() && ps == Skip(Text(), old(ps))
    {
      while ps < es && IsSpace(buf[ps])
        invariant Valid() && Skip(Text(), ps) == Skip(Text(), old(ps))
      {
        ps := ps + 1;
      }
    }

    method PeekAt(toks: string) returns (b: bool)
      requires Valid()
      modifies `ps
      ensures Valid() && ps == Skip(Text(), old(ps)) && b == Peek(Text(), old(ps), toks)
    {
      SkipSpace();
      b := buf[ps] != '\0' && buf[ps] in toks;
    }

    // gettoken's loop over a word.
    method SkipWord()
      requires Valid()
      modifies `ps
      ensures Valid() && ps == WordEnd(Text(), old(ps))
    {
      while ps < es && !IsSpace(buf[ps]) && !IsSymbol(buf[ps])
        invariant Valid() && WordEnd(Text(), ps) == WordEnd(Text(), old(ps))
      {
        ps := ps + 1;
      }
    }

    method NextToken() returns (t: Token)
      requires Valid()
      modifies `ps
      ensures Valid() && t == GetToken(Text(), old(ps)) && ps == t.next
    {
      hide Line, IsSpace, GetToken, Skip, WordEnd, IsSymbol, WordAt;
      ghost var s := Text();
      SkipSpace();
      var q := ps;
      var c := buf[q];
      var kind := End;
      NulAtEnd();
      assert c == At(s, q);
      if c == '\0' {
      } else if c == '>' {
        kind := Symbol('>');
        ps := ps + 1;
        NulAtEnd();
        if buf[ps] == '>' {
          kind := Append;
          ps := ps + 1;
        }
      } else if IsSymbol(c) {
        kind := Symbol(c);
        ps := ps + 1;
      } else {
        kind := Word;
        SkipWord();
      }
      var eq := ps;
      TokenIs(s, old(ps), q, kind, eq);
      SkipSpace();
      t := Token(kind, q, eq, ps);
    }

    lemma NulAtEnd()
      requires Valid()
      ensures buf[ps] == '\0' <==> ps == es
      ensures buf[ps] == At(Text(), ps)
    {
      if ps < es { assert buf[..es][ps] != '\0'; }
    }

    // parseredirs; rs are the redirections so far.
    method ParseRedirs(rs: seq<Redirection>) returns (ok: bool, r: seq<Redirection>)
      requires Valid()
      modifies `ps
      ensures Valid() && old(ps) <= ps
      ensures Redirs(Text(), old(ps), rs) == if ok then Ok(r, ps) else Panic
    {
      hide Line, GetToken, Peek, Skip;
      r := rs;
      while true
        invariant Valid() && old(ps) <= ps && Redirs(Text(), ps, r) == Redirs(Text(), old(ps), rs)
        decreases es - ps
      {
        ghost var at := ps;
        var more := PeekAt("<>");
        SameAfterSkip(Text(), at, "<>");
        if !more {
          return true, r;
        }
        var op := NextToken();
        var file := NextToken();
        if file.kind != Word {
          return false, r;
        }
        r := r + [Redirection(Span(file.from, file.to), ModeOf(op.kind))];
      }
    }

    method ParseExec() returns (ok: bool, c: Cmd)
      requires Valid()
      modifies `ps
      ensures Valid() && old(ps) <= ps
      ensures ShellGrammar.ParseExec(Text(), old(ps)) == if ok then Ok(c, ps) else Panic
      decreases es - ps, 1
    {
      hide Line, GetToken, Peek, Skip, Redirs, Wrap, ShellGrammar.ParseBlock;
      ghost var start := ps;
      c := Exec([]);
      var block := PeekAt("(");
      SameAfterSkip(Text(), start, "(");
      SameRedirs(Text(), start);
      if block {
        SameBlock(Text(), start);
        ok, c := ParseBlock();
        return;
      }
      var rs;
      ok, rs := ParseRedirs([]);
      if !ok {
        return;
      }
      ghost var from, rs0 := ps, rs;
      var argv: seq<Span> := [];
      while true
        invariant Valid() && old(ps) <= ps && |argv| < MAXARGS
        invariant Args(Text(), ps, argv, rs) == Args(Text(), from, [], rs0)
        decreases es - ps
      {
        ghost var at := ps;
        var closing := PeekAt("|)&;");
        SameAfterSkip(Text(), at, "|)&;");
        if closing {
          break;
        }
        var t := NextToken();
        if t.kind == End {
          break;
        }
        if t.kind != Word {
          return false, c;
        }
        argv := argv + [Span(t.from, t.to)];
        if |argv| >= MAXARGS {
          return false, c;
        }
        ok, rs := ParseRedirs(rs);
        if !ok {
          return;
        }
      }
      ok, c := true, Wrap(Exec(argv), rs);
    }

    method ParseBlock() returns (ok: bool, c: Cmd)
      requires Valid() && Peek(Text(), ps, "(")
      modifies `ps
      ensures Valid() && old(ps) <= ps
      ensures ShellGrammar.ParseBlock(Text(), old(ps)) == if ok then Ok(c, ps) else Panic
      decreases es - ps, 0
    {
      hide Line, Peek, Skip, Redirs, Wrap, ShellGrammar.ParseLine;
      ghost var start := ps;
      var open := PeekAt("(");
      SameAfterSkip(Text(), start, "(");
      OpensWithSymbol(Text(), start);
      var t := NextToken();
      ok, c := ParseLine();
      if !ok {
        return;
      }
      ghost var at := ps;
      var close := PeekAt(")");
      SameAfterSkip(Text(), at, ")");
      if !close {
        return false, c;
      }
      t := NextToken();
      var rs;
      ok, rs := ParseRedirs([]);
      c := Wrap(c, rs);
    }

    method ParsePipe() returns (ok: bool, c: Cmd)
      requires Valid()
      modifies `ps
      ensures Valid() && old(ps) <= ps
      ensures ShellGrammar.ParsePipe(Text(), old(ps)) == if ok then Ok(c, ps) else Panic
      decreases es - ps, 2
    {
      hide Line, Peek, Skip, GetToken, ShellGrammar.ParseExec;
      ok, c := ParseExec();
      if !ok {
        return;
      }
      ghost var at := ps;
      var more := PeekAt("|");
      SameAfterSkip(Text(), at, "|");
      if more {
        var t := NextToken();
        var d;
        ok, d := ParsePipe();
        c := Pipe(c, d);
      }
    }

    method ParseLine() returns (ok: bool, c: Cmd)
      requires Valid()
      modifies `ps
      ensures Valid() && old(ps) <= ps
      ensures ShellGrammar.ParseLine(Text(), old(ps)) == if ok then Ok(c, ps) else Panic
      decreases es - ps, 3
    {
      hide Line, Peek, Skip, GetToken, ShellGrammar.ParsePipe;
      ok, c := ParsePipe();
      if !ok {
        return;
      }
      ghost var at, from, c0 := ps, ps, c;
      var back := PeekAt("&");
      SameAfterSkip(Text(), at, "&");
      while back
        invariant Valid() && from <= at <= ps && ps == Skip(Text(), at) && back == Peek(Text(), at, "&")
        invariant GetToken(Text(), ps) == GetToken(Text(), at) && (back ==> ps < es)
        invariant Backs(Text(), at, c) == Backs(Text(), from, c0)
        decreases es - ps
      {
        var t := NextToken();
        c := Back(c);
        at := ps;
        back := PeekAt("&");
        SameAfterSkip(Text(), at, "&");
      }
      at := ps;
      var more := PeekAt(";");
      SameAfterSkip(Text(), at, ";");
      if more {
        var t := NextToken();
        var d;
        ok, d := ParseLine();
        c := List(c, d);
      }
    }

    // parsecmd
    method ParseCmd() returns (ok: bool, c: Cmd)
      requires Valid() && ps == 0
      modifies `ps, buf
      ensures ShellGrammar.ParseCmd(old(Text())) == if ok then Ok(c, es) else Panic
      ensures ok ==> buf[..] == Nulled(old(buf[..]), Ends(c))
      ensures ok ==> forall w :: w in Spans(c) ==> IsStringAt(buf[..], w, old(Text()))
      ensures !ok ==> buf[..] == old(buf[..])
    {
      hide Line, Peek, GetToken, ShellGrammar.ParseLine, Nulled, Ends, Spans, AllWords, CString;
      ghost var s, b := Text(), buf[..];
      ok, c := ParseLine();
      if !ok {
        return;
      }
      var found := PeekAt("");
      if ps != es {
        return false, c;
      }
      ParseLineWords(s, 0);
      EndsInside(s, c);
      NulTerminate(c);
      assert b == s + ['\0'];
      forall w | w in Spans(c)
        ensures IsStringAt(buf[..], w, s)
      {
        WordsBecomeStrings(s, b, c, w);
      }
    }

    // nulterminate
    method NulTerminate(c: Cmd)
      requires EndsWithin(c, buf.Length)
      modifies buf
      ensures buf[..] == Nulled(old(buf[..]), Ends(c))
      decreases c
    {
      hide Nulled, EndsWithin;
      EndsOfParts(c, buf.Length);
      ghost var b := buf[..];
      match c
      case Exec(argv) =>
        var i := 0;
        NulledNone(b);
        while i < |argv|
          invariant i <= |argv| && buf[..] == Nulled(b, ArgEnds(argv, i))
        {
          NulledOne(b, ArgEnds(argv, i), argv[i].to);
          buf[argv[i].to] := '\0';
          i := i + 1;
        }
      case Redir(d, r) =>
        NulTerminate(d);
        NulledOne(b, Ends(d), r.file.to);
        buf[r.file.to] := '\0';
      case Pipe(l, r) =>
        NulTerminate(l);
        NulTerminate(r);
        NulledMore(b, Ends(l), Ends(r));
      case List(l, r) =>
        NulTerminate(l);
        NulTerminate(r);
        NulledMore(b, Ends(l), Ends(r));
      case Back(d) =>
        NulTerminate(d);
    }
  }

  // nulterminate stays inside a buffer of n characters.
  ghost predicate EndsWithin(c: Cmd, n: nat) {
    forall e :: e in Ends(c) ==> e < n
  }

  lemma EndsOfParts(c: Cmd, n: nat)
    requires EndsWithin(c, n)
    ensures c.Exec? ==> forall k :: 0 <= k < |c.argv| ==> c.argv[k].to < n
    ensures c.Redir? ==> EndsWithin(c.cmd, n) && c.redir.file.to < n
    ensures c.Pipe? || c.List? ==> EndsWithin(c.left, n) && EndsWithin(c.right, n)
    ensures c.Back? ==> EndsWithin(c.cmd, n)
  {
    match c
    case Exec(argv) =>
      assert Ends(c) == ArgEnds(argv, |argv|);
      forall k | 0 <= k < |argv|
        ensures argv[k].to < n
      {
        EndsGrow(argv, k + 1, |argv|);
      }
    case Redir(d, r) => assert Ends(c) == Ends(d) + {r.file.to};
    case Pipe(l, r) => assert Ends(c) == Ends(l) + Ends(r);
    case List(l, r) => assert Ends(c) == Ends(l) + Ends(r);
    case Back(d) => assert Ends(c) == Ends(d);
  }

  lemma NulledNone(b: seq<char>)
    ensures Nulled(b, {}) == b
  {
  }

  lemma NulledOne(b: seq<char>, ends: set<nat>, e: nat)
    requires e < |b|
    ensures Nulled(b, ends)[e := '\0'] == Nulled(b, ends + {e})
  {
  }

  lemma NulledMore(b: seq<char>, ends: set<nat>, more: set<nat>)
    ensures Nulled(Nulled(b, ends), more) == Nulled(b, ends + more)
  {
  }

  // The C string at the start of word w is the word as it stood in the line.
  ghost predicate IsStringAt(b: seq<char>, w: Span, s: string) {
    w.from <= w.to <= |s| && w.from <= |b| && CString(b, w.from) == s[w.from..w.to]
  }

  // What gettoken has found between q and eq.
  predicate Found(s: string, q: nat, kind: Kind, eq: nat)
    requires q <= |s| && Line(s)
  {
    var c := At(s, q);
    if c == '\0' then kind == End && eq == q
    else if c == '>' then if At(s, q + 1) == '>' then kind == Append && eq == q + 2 else kind == Symbol('>') && eq == q + 1
    else if IsSymbol(c) then kind == Symbol(c) && eq == q + 1
    else kind == Word && eq == WordEnd(s, q)
  }

  lemma TokenIs(s: string, i: nat, q: nat, kind: Kind, eq: nat)
    requires Line(s) && i <= |s| && q == Skip(s, i) && eq <= |s| && Found(s, q, kind, eq)
    ensures GetToken(s, i) == Token(kind, q, eq, Skip(s, eq))
  {
  }

  lemma {:induction false} EndsGrow(argv: seq<Span>, n: nat, m: nat)
    requires 0 < n <= m <= |argv|
    ensures argv[n - 1].to in ArgEnds(argv, m)
  {
    if n < m { EndsGrow(argv, n, m - 1); }
  }

  // Whitespace skipped once need not be skipped again.
  lemma SameAfterSkip(s: string, i: nat, toks: string)
    requires i <= |s| && Line(s)
    ensures Skip(s, Skip(s, i)) == Skip(s, i) && GetToken(s, Skip(s, i)) == GetToken(s, i)
    ensures Peek(s, Skip(s, i), toks) == Peek(s, i, toks)
    ensures Peek(s, i, toks) ==> Skip(s, i) < |s|
  {
    SkipTwice(s, i);
  }

  lemma SameRedirs(s: string, i: nat)
    requires i <= |s| && Line(s)
    ensures Redirs(s, Skip(s, i), []) == Redirs(s, i, [])
  {
    SameAfterSkip(s, i, "<>");
  }

  lemma SameBlock(s: string, i: nat)
    requires i <= |s| && Line(s) && Peek(s, i, "(")
    ensures Peek(s, Skip(s, i), "(") && ShellGrammar.ParseBlock(s, Skip(s, i)) == ShellGrammar.ParseBlock(s, i)
  {
    hide ShellGrammar.ParseLine, Redirs;
    SameAfterSkip(s, i, "(");
  }

  lemma OpensWithSymbol(s: string, i: nat)
    requires i <= |s| && Line(s) && Peek(s, i, "(")
    ensures GetToken(s, i).next > i
  {
  }

  lemma EndsInside(s: string, c: Cmd)
    requires AllWords(s, c)
    ensures EndsWithin(c, |s| + 1)
  {
    forall e | e in Ends(c)
      ensures e <= |s|
    {
      EndIsSpan(c, e);
      var w :| w in Spans(c) && w.to == e;
      assert IsWordSpan(s, w);
    }
  }
}
