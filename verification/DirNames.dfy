/** A directory as a map from name to inode number (kernel/fs.c:529-583): dirlink refuses a name
    that is there, so the entries in use of a directory always have different names. */
module DirNames {
  import opened Links
  import opened LinkSteps

  // Entry k is in use under this name.
  predicate Matches(es: seq<Dirent>, k: nat, name: string)
    requires k < |es|
  {
    es[k].inum != 0 && es[k].name == name
  }

  // The first n entries do not have this name.
  predicate Missing(es: seq<Dirent>, n: nat, name: string)
    requires n <= |es|
  {
    forall j: nat :: j < n ==> !Matches(es, j, name)
  }

  predicate Apart(es: seq<Dirent>, j: nat, k: nat)
    requires j < |es| && k < |es|
  {
    es[j].inum != 0 && es[k].inum != 0 && es[j].name == es[k].name ==> j == k
  }

  // No two entries in use have the same name.
  ghost predicate Distinct(es: seq<Dirent>) {
    forall j: nat, k: nat :: j < |es| && k < |es| ==> Apart(es, j, k)
  }

  // The directory with these entries.
  function AsMap(es: seq<Dirent>): map<string, nat> {
    if es == [] then map[]
    else
      var rest, e := AsMap(es[..|es| - 1]), es[|es| - 1];
      if e.inum != 0 then rest[e.name := e.inum] else rest
  }

  lemma {:induction false} NameHasEntry(es: seq<Dirent>, name: string) returns (k: nat)
    requires name in AsMap(es)
    ensures k < |es| && Matches(es, k, name)
  {
    var n := |es| - 1;
    if Matches(es, n, name) {
      k := n;
    } else {
      k := NameHasEntry(es[..n], name);
      assert Matches(es[..n], k, name);
    }
  }

  lemma {:induction false} EntryHasName(es: seq<Dirent>, k: nat)
    requires Distinct(es) && k < |es| && es[k].inum != 0
    ensures es[k].name in AsMap(es) && AsMap(es)[es[k].name] == es[k].inum
  {
    var n := |es| - 1;
    if k < n {
      forall i: nat, j: nat | i < n && j < n
        ensures Apart(es[..n], i, j)
      {
        assert Apart(es, i, j);
      }
      EntryHasName(es[..n], k);
      assert Apart(es, k, n);
    }
  }

  /* What dirlookup finds is what the map has. */
  lemma LookupIsMap(es: seq<Dirent>, name: string)
    requires Distinct(es)
    ensures name in AsMap(es) <==> !Missing(es, |es|, name)
    ensures forall k: nat :: k < |es| && Matches(es, k, name) ==> name in AsMap(es) && AsMap(es)[name] == es[k].inum
  {
    if name in AsMap(es) {
      var k := NameHasEntry(es, name);
    }
    forall k: nat | k < |es| && Matches(es, k, name)
      ensures name in AsMap(es) && AsMap(es)[name] == es[k].inum
    {
      EntryHasName(es, k);
    }
  }

  /* Writing an entry where there is none is an insertion. */
  lemma PutInserts(es: seq<Dirent>, k: nat, e: Dirent)
    requires Distinct(es) && k <= |es| && (k < |es| ==> es[k].inum == 0) && e.inum != 0 && Missing(es, |es|, e.name)
    ensures Distinct(Put(es, k, e)) && AsMap(Put(es, k, e)) == AsMap(es)[e.name := e.inum]
  {
    hide Put;
    var r := Put(es, k, e);
    forall i: nat, j: nat | i < |r| && j < |r|
      ensures Apart(r, i, j)
    {
      if i != k && j != k { assert Apart(es, i, j); }
      if i != k { assert !Matches(es, i, e.name); }
      if j != k { assert !Matches(es, j, e.name); }
    }
    forall name | name in AsMap(es)[e.name := e.inum]
      ensures name in AsMap(r) && AsMap(r)[name] == AsMap(es)[e.name := e.inum][name]
    {
      if name == e.name {
        assert Matches(r, k, name);
      } else {
        var i := NameHasEntry(es, name);
        assert Matches(r, i, name);
        LookupIsMap(es, name);
      }
      LookupIsMap(r, name);
    }
    forall name | name in AsMap(r)
      ensures name in AsMap(es)[e.name := e.inum]
    {
      var i := NameHasEntry(r, name);
      if i != k { LookupIsMap(es, name); assert Matches(es, i, name); }
    }
  }

  /* Emptying an entry in use is a removal. */
  lemma ClearRemoves(es: seq<Dirent>, k: nat)
    requires Distinct(es) && k < |es| && es[k].inum != 0
    ensures Distinct(Put(es, k, Dirent(0, ""))) && AsMap(Put(es, k, Dirent(0, ""))) == AsMap(es) - {es[k].name}
  {
    hide Put;
    var r := Put(es, k, Dirent(0, ""));
    forall i: nat, j: nat | i < |r| && j < |r|
      ensures Apart(r, i, j)
    {
      assert Apart(es, i, j);
    }
    forall name | name in AsMap(es) - {es[k].name}
      ensures name in AsMap(r) && AsMap(r)[name] == AsMap(es)[name]
    {
      var i := NameHasEntry(es, name);
      assert Matches(r, i, name);
      LookupIsMap(es, name);
      LookupIsMap(r, name);
    }
    forall name | name in AsMap(r)
      ensures name in AsMap(es) - {es[k].name}
    {
      var i := NameHasEntry(r, name);
      assert Apart(es, i, k) && Matches(es, i, name);
      LookupIsMap(es, name);
    }
  }

  // ---- all directories ----

  ghost predicate NamesDistinct(s: seq<Node>) {
    forall d: nat :: d < |s| ==> Distinct(s[d].dirents)
  }

  function DirMap(s: seq<Node>, d: nat): map<string, nat>
    requires d < |s|
  {
    AsMap(s[d].dirents)
  }

  lemma NoNames(es: seq<Dirent>)
    requires es == []
    ensures Distinct(es) && AsMap(es) == map[]
  {
  }

  lemma DotsDistinct(i: nat, d: nat)
    requires i != 0 && d != 0
    ensures var es := [Dirent(i, DOT), Dirent(d, DOTDOT)];
      Distinct(es) && AsMap(es) == map[DOT := i, DOTDOT := d]
  {
    NoNames([]);
    PutInserts([], 0, Dirent(i, DOT));
    assert Put([], 0, Dirent(i, DOT)) == [Dirent(i, DOT)];
    PutInserts([Dirent(i, DOT)], 1, Dirent(d, DOTDOT));
    assert Put([Dirent(i, DOT)], 1, Dirent(d, DOTDOT)) == [Dirent(i, DOT), Dirent(d, DOTDOT)];
  }

  /* create adds one name to its directory; a new directory has the two dots; no other directory changes. */
  lemma MadeInserts(s: seq<Node>, d: nat, k: nat, name: string, i: nat, kind: Kind)
    requires NamesDistinct(s) && Creatable(s, d, k, name, i) && d != 0 && Missing(s[d].dirents, |s[d].dirents|, name)
    ensures var s' := Made(s, d, k, name, i, kind);
      && NamesDistinct(s') && DirMap(s', d) == DirMap(s, d)[name := i]
      && DirMap(s', i) == (if kind == Dir then map[DOT := i, DOTDOT := d] else map[])
      && (forall e: nat :: e < |s| && e != d && e != i ==> DirMap(s', e) == DirMap(s, e))
  {
    hide Put, Distinct, AsMap;
    var s' := Made(s, d, k, name, i, kind);
    PutInserts(s[d].dirents, k, Dirent(i, name));
    DotsDistinct(i, d);
    NoNames([]);
    forall e: nat | e < |s'|
      ensures Distinct(s'[e].dirents)
    {
    }
  }

  /* So does the entry of a new link. */
  lemma EnteredInserts(s: seq<Node>, d: nat, k: nat, name: string, i: nat)
    requires NamesDistinct(s) && Vacant(s, d, k) && i != 0 && Missing(s[d].dirents, |s[d].dirents|, name)
    ensures var s' := Entered(s, d, k, Dirent(i, name));
      && NamesDistinct(s') && DirMap(s', d) == DirMap(s, d)[name := i]
      && (forall e: nat :: e < |s| && e != d ==> DirMap(s', e) == DirMap(s, e))
  {
    hide Put, Distinct, AsMap;
    PutInserts(s[d].dirents, k, Dirent(i, name));
  }

  // Only dirents matter.
  lemma SameDirents(s: seq<Node>, s': seq<Node>)
    requires NamesDistinct(s) && |s'| == |s| && forall e: nat :: e < |s| ==> s'[e].dirents == s[e].dirents
    ensures NamesDistinct(s') && forall e: nat :: e < |s| ==> DirMap(s', e) == DirMap(s, e)
  {
    hide Distinct;
  }

  /* unlink removes one name from its directory. */
  lemma UnlinkedRemoves(s: seq<Node>, s': seq<Node>, d: nat, k: nat)
    requires NamesDistinct(s) && Linked(s, d, k) && s[d].dirents[k].inum < |s|
    requires s' == UnlinkedFile(s, d, k) || s' == UnlinkedDir(s, d, k)
    ensures NamesDistinct(s') && DirMap(s', d) == DirMap(s, d) - {s[d].dirents[k].name}
    ensures forall e: nat :: e < |s| && e != d ==> DirMap(s', e) == DirMap(s, e)
  {
    hide Put, Distinct, AsMap;
    ClearRemoves(s[d].dirents, k);
  }

  lemma ReclaimedDistinct(s: seq<Node>, i: nat)
    requires NamesDistinct(s) && i < |s|
    ensures NamesDistinct(Reclaimed(s, i)) && DirMap(Reclaimed(s, i), i) == map[]
    ensures forall e: nat :: e < |s| && e != i ==> DirMap(Reclaimed(s, i), e) == DirMap(s, e)
  {
    hide Distinct, AsMap;
    NoNames([]);
  }
}
