/** The regular expression matcher of user/grep.c.

    A C string is the sequence of its characters before the terminating NUL; a pointer into it is
    the suffix that starts there. */
module Grep {
  const NUL: char := '\0'

  // *(s + i): the terminator is readable.
  function At(s: string, i: nat): char
    requires i <= |s|
  {
    if i < |s| then s[i] else NUL
  }

  predicate IsCString(s: string) {
    forall i :: 0 <= i < |s| ==> s[i] != NUL
  }

  // ---------- what a pattern means ----------

  datatype Item = One(c: char) | Star(c: char)

  datatype Regex = Regex(items: seq<Item>, atEnd: bool)

  function Parse(re: string): Regex {
    if re == "" then Regex([], false)
    else if |re| >= 2 && re[1] == '*' then
      var rest := Parse(re[2..]);
      Regex([Star(re[0])] + rest.items, rest.atEnd)
    else if re == "$" then Regex([], true)
    else
      var rest := Parse(re[1..]);
      Regex([One(re[0])] + rest.items, rest.atEnd)
  }

  predicate Accepts(c: char, x: char) {
    c == '.' || c == x
  }

  predicate Fits(item: Item, w: string) {
    match item
    case One(c) => |w| == 1 && Accepts(c, w[0])
    case Star(c) => forall i :: 0 <= i < |w| ==> Accepts(c, w[i])
  }

  // cuts divides w into one piece for each item, in order.
  ghost predicate Divides(items: seq<Item>, w: string, cuts: seq<nat>) {
    && |cuts| == |items| + 1
    && cuts[0] == 0 && cuts[|items|] == |w|
    && forall i :: 0 <= i < |items| ==> Piece(items, w, cuts, i)
  }

  predicate Piece(items: seq<Item>, w: string, cuts: seq<nat>, i: nat)
    requires |cuts| == |items| + 1 && i < |items|
  {
    cuts[i] <= cuts[i + 1] <= |w| && Fits(items[i], w[cuts[i]..cuts[i + 1]])
  }

  ghost predicate InLanguage(items: seq<Item>, w: string) {
    exists cuts :: Divides(items, w, cuts)
  }

  // Some part of text that begins at its start, and ends at its end if it must, is in the language.
  ghost predicate Here(rx: Regex, text: string) {
    exists j :: 0 <= j <= |text| && (rx.atEnd ==> j == |text|) && InLanguage(rx.items, text[..j])
  }

  // What match promises: the pattern, anchored or not, describes some part of the text.
  ghost predicate Matches(re: string, text: string) {
    if re != "" && re[0] == '^' then Here(Parse(re[1..]), text)
    else exists i :: 0 <= i <= |text| && Here(Parse(re), text[i..])
  }

  // ---------- the first item of a division ----------

  lemma NothingIsEmpty(w: string)
    ensures InLanguage([], w) <==> w == ""
  {
    if w == "" {
      assert Divides([], w, [0]);
    }
  }

  lemma SliceOfSuffix(w: string, k: nat, a: nat, b: nat)
    requires a <= b && k + b <= |w|
    ensures w[k..][a..b] == w[k + a..k + b]
  {
  }

  lemma FirstPiece(item: Item, items: seq<Item>, w: string, cuts: seq<nat>)
    requires Divides([item] + items, w, cuts)
    ensures cuts[1] <= |w| && Fits(item, w[..cuts[1]])
    ensures InLanguage(items, w[cuts[1]..])
  {
    var all := [item] + items;
    assert Piece(all, w, cuts, 0);
    var k := cuts[1];
    CutsAbove(all, w, cuts, |items| + 1);
    var rest := seq(|items| + 1, i requires 0 <= i <= |items| => cuts[i + 1] - k as nat);
    forall i | 0 <= i < |items|
      ensures Piece(items, w[k..], rest, i)
    {
      assert Piece(all, w, cuts, i + 1);
      assert rest[i] + k == cuts[i + 1] && rest[i + 1] + k == cuts[i + 2];
      SliceOfSuffix(w, k, rest[i], rest[i + 1]);
    }
    assert Divides(items, w[k..], rest);
  }

  lemma {:induction false} CutsAbove(items: seq<Item>, w: string, cuts: seq<nat>, n: nat)
    requires |items| > 0 && Divides(items, w, cuts) && 1 <= n <= |items|
    ensures forall i :: 1 <= i <= n ==> cuts[1] <= cuts[i]
  {
    if n > 1 {
      CutsAbove(items, w, cuts, n - 1);
      assert Piece(items, w, cuts, n - 1);
    }
  }

  lemma PutPieceFirst(item: Item, items: seq<Item>, w: string, k: nat, cuts: seq<nat>)
    requires k <= |w| && Fits(item, w[..k]) && Divides(items, w[k..], cuts)
    ensures InLanguage([item] + items, w)
  {
    var all := [item] + items;
    var more := [0] + seq(|cuts|, i requires 0 <= i < |cuts| => cuts[i] + k);
    forall i | 0 <= i < |all|
      ensures Piece(all, w, more, i)
    {
      if i > 0 {
        assert Piece(items, w[k..], cuts, i - 1);
        assert more[i] == cuts[i - 1] + k && more[i + 1] == cuts[i] + k;
        SliceOfSuffix(w, k, cuts[i - 1], cuts[i]);
      } else {
        assert w[more[0]..more[1]] == w[..k];
      }
    }
    assert Divides(all, w, more);
  }

  /* The language of a concatenation, one item at a time. */
  lemma LanguageCons(item: Item, items: seq<Item>, w: string)
    ensures InLanguage([item] + items, w) <==>
      exists k :: 0 <= k <= |w| && Fits(item, w[..k]) && InLanguage(items, w[k..])
  {
    if InLanguage([item] + items, w) {
      var cuts :| Divides([item] + items, w, cuts);
      FirstPiece(item, items, w, cuts);
      assert 0 <= cuts[1] <= |w| && Fits(item, w[..cuts[1]]) && InLanguage(items, w[cuts[1]..]);
    }
    if k :| 0 <= k <= |w| && Fits(item, w[..k]) && InLanguage(items, w[k..]) {
      var cuts :| Divides(items, w[k..], cuts);
      PutPieceFirst(item, items, w, k, cuts);
    }
  }

  // ---------- the same for a match at the start of a text ----------

  lemma HereNothing(atEnd: bool, text: string)
    ensures Here(Regex([], atEnd), text) <==> (atEnd ==> text == "")
  {
    NothingIsEmpty("");
    assert text[..0] == "";
    assert Here(Regex([], false), text);
    if Here(Regex([], atEnd), text) {
      var j :| 0 <= j <= |text| && (atEnd ==> j == |text|) && InLanguage([], text[..j]);
      NothingIsEmpty(text[..j]);
    }
  }

  lemma HereCons(item: Item, items: seq<Item>, atEnd: bool, text: string)
    ensures Here(Regex([item] + items, atEnd), text) <==>
      exists k :: 0 <= k <= |text| && Fits(item, text[..k]) && Here(Regex(items, atEnd), text[k..])
  {
    if Here(Regex([item] + items, atEnd), text) {
      var j :| 0 <= j <= |text| && (atEnd ==> j == |text|) && InLanguage([item] + items, text[..j]);
      LanguageCons(item, items, text[..j]);
      var k :| 0 <= k <= j && Fits(item, text[..j][..k]) && InLanguage(items, text[..j][k..]);
      assert text[..j][..k] == text[..k] && text[..j][k..] == text[k..][..j - k];
      assert 0 <= k <= |text| && Fits(item, text[..k]) && Here(Regex(items, atEnd), text[k..]);
    }
    if k :| 0 <= k <= |text| && Fits(item, text[..k]) && Here(Regex(items, atEnd), text[k..]) {
      var i :| 0 <= i <= |text| - k && (atEnd ==> i == |text| - k) && InLanguage(items, text[k..][..i]);
      var j := k + i;
      assert text[..j][..k] == text[..k] && text[..j][k..] == text[k..][..i];
      LanguageCons(item, items, text[..j]);
      assert Here(Regex([item] + items, atEnd), text);
    }
  }

  lemma HereOne(c: char, items: seq<Item>, atEnd: bool, text: string)
    ensures Here(Regex([One(c)] + items, atEnd), text) <==>
      text != "" && Accepts(c, text[0]) && Here(Regex(items, atEnd), text[1..])
  {
    HereCons(One(c), items, atEnd, text);
    if text != "" && Accepts(c, text[0]) && Here(Regex(items, atEnd), text[1..]) {
      assert Fits(One(c), text[..1]);
    }
  }

  // ---------- the matcher ----------

  /* matchhere decides whether the pattern describes a part of text at its start. */
  method MatchHere(re: string, text: string) returns (r: bool)
    requires IsCString(re) && IsCString(text)
    ensures r <==> Here(Parse(re), text)
    decreases |re|, 0
  {
    if At(re, 0) == NUL {
      HereNothing(false, text);
      return true;
    }
    if At(re, 1) == '*' {
      var rest := Parse(re[2..]);
      HereCons(Star(re[0]), rest.items, rest.atEnd, text);
      r := MatchStar(At(re, 0), re[2..], text);
      return;
    }
    if At(re, 0) == '$' && At(re, 1) == NUL {
      HereNothing(true, text);
      return At(text, 0) == NUL;
    }
    var rest := Parse(re[1..]);
    HereOne(re[0], rest.items, rest.atEnd, text);
    if At(text, 0) != NUL && (At(re, 0) == '.' || At(re, 0) == At(text, 0)) {
      r := MatchHere(re[1..], text[1..]);
      return;
    }
    return false;
  }

  /* matchstar decides whether some run of c, followed by a match of re, begins text. */
  method MatchStar(c: char, re: string, text: string) returns (r: bool)
    requires IsCString(re) && IsCString(text)
    ensures r <==> exists k :: 0 <= k <= |text| && Fits(Star(c), text[..k]) && Here(Parse(re), text[k..])
    decreases |re|, 1
  {
    var i := 0;
    while true
      invariant 0 <= i <= |text| && Fits(Star(c), text[..i])
      invariant forall k :: 0 <= k < i ==> !Here(Parse(re), text[k..])
      decreases |text| - i
    {
      var here := MatchHere(re, text[i..]);
      if here {
        return true;
      }
      if At(text, i) == NUL {
        assert i == |text|;
        return false;
      }
      if !(At(text, i) == c || c == '.') {
        forall k | i < k <= |text|
          ensures !Fits(Star(c), text[..k])
        {
          assert text[..k][i] == text[i];
        }
        return false;
      }
      i := i + 1;
    }
    return false;
  }

  /* match decides whether the pattern describes some part of text. */
  method Match(re: string, text: string) returns (r: bool)
    requires IsCString(re) && IsCString(text)
    ensures r <==> Matches(re, text)
  {
    if At(re, 0) == '^' {
      r := MatchHere(re[1..], text);
      return;
    }
    var i := 0;
    while true
      invariant 0 <= i <= |text|
      invariant forall k :: 0 <= k < i ==> !Here(Parse(re), text[k..])
      decreases |text| - i
    {
      var here := MatchHere(re, text[i..]);
      if here {
        return true;
      }
      if At(text, i) == NUL {
        return false;
      }
      i := i + 1;
    }
    return false;
  }
}
