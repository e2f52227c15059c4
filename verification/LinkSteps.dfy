/** What link, unlink and iput do to the link counts (kernel/sysfile.c:119-240, kernel/fs.c:329-358). */
module LinkSteps {
  import opened Links

  predicate IsFile(s: seq<Node>, i: nat) {
    0 < i < |s| && (s[i].kind == Reg || s[i].kind == Dev)
  }

  // ---- only a file's count changes ----

  function Relinked(s: seq<Node>, i: nat, n: int): (r: seq<Node>)
    requires i < |s|
    ensures |r| == |s|
  {
    s[i := s[i].(nlink := n)]
  }

  lemma RelinkedKeeps(s: seq<Node>, i: nat, n: int)
    requires Shape(s) && Tree(s) && IsFile(s, i) && 0 <= n <= NLINK_MAX
    ensures Shape(Relinked(s, i, n)) && Tree(Relinked(s, i, n))
  {
    var s' := Relinked(s, i, n);
    forall j: nat | j < |s'|
      ensures NodeOk(s', j)
    {
      assert NodeOk(s, j);
      if s[j].kind == Dir {
        forall k: nat | 2 <= k < |s'[j].dirents|
          ensures Ordinary(s'[j], k)
        {
          assert Ordinary(s[j], k);
        }
      }
    }
    forall d: nat, k: nat | d < |s'| && k < |s'[d].dirents|
      ensures EntryOk(s', d, k)
    {
      assert EntryOk(s, d, k);
    }
    forall c: nat | c < |s'|
      ensures ParentOk(s', c)
    {
      assert ParentOk(s, c) && NodeOk(s, c);
      if s[c].kind == Dir && s[c].nlink != 0 && c != ROOTINO {
        var m: nat :| 2 <= m < |s[Parent(s, c)].dirents| && s[Parent(s, c)].dirents[m].inum == c;
        assert s'[Parent(s, c)].dirents[m].inum == c;
      }
    }
    forall d: nat, k: nat, k': nat | d < |s'| && 2 <= k < |s'[d].dirents| && 2 <= k' < |s'[d].dirents|
      ensures OneEntry(s', d, k, k')
    {
      assert OneEntry(s, d, k, k');
    }
  }

  lemma RelinkedRefs(s: seq<Node>, i: nat, n: int, j: nat)
    requires IsFile(s, i)
    ensures Refs(Relinked(s, i, n), j) == Refs(s, j)
  {
    var s' := Relinked(s, i, n);
    forall d: nat, k: nat
      ensures Names(s', d, k, j) <==> Names(s, d, k, j)
    {
    }
  }

  // ip->nlink++ in sys_link: right exactly when the short does not overflow.
  lemma StartKeepsInvIff(s: seq<Node>, pending: multiset<nat>, i: nat)
    requires Inv(s, pending) && IsFile(s, i)
    ensures Inv(Relinked(s, i, Inc(s[i].nlink)), pending + multiset{i}) <==> s[i].nlink < NLINK_MAX
  {
    var s' := Relinked(s, i, Inc(s[i].nlink));
    assert NodeOk(s, i);
    if s[i].nlink < NLINK_MAX {
      RelinkedKeeps(s, i, s[i].nlink + 1);
      forall j: nat | 0 < j < |s'|
        ensures CountOk(s', pending + multiset{i}, j)
      {
        assert CountOk(s, pending, j);
        RelinkedRefs(s, i, s[i].nlink + 1, j);
      }
    } else {
      assert !NodeOk(s', i);
    }
  }

  // The rollback: ip->nlink--.
  lemma UndoKeepsInv(s: seq<Node>, pending: multiset<nat>, i: nat)
    requires Inv(s, pending) && i in pending
    ensures IsFile(s, i) && Inv(Relinked(s, i, s[i].nlink - 1), pending - multiset{i})
  {
    var s' := Relinked(s, i, s[i].nlink - 1);
    assert NodeOk(s, i) && CountOk(s, pending, i);
    RelinkedKeeps(s, i, s[i].nlink - 1);
    forall j: nat | 0 < j < |s'|
      ensures CountOk(s', pending - multiset{i}, j)
    {
      assert CountOk(s, pending, j);
      RelinkedRefs(s, i, s[i].nlink - 1, j);
    }
  }

  // ---- an entry for a file appears or goes ----

  // Entry k of directory d was empty or led to a file, and now is e, empty or leading to a file.
  predicate FileEntry(s: seq<Node>, d: nat, k: nat, e: Dirent) {
    && d < |s| && s[d].kind == Dir && 2 <= k <= |s[d].dirents|
    && (k < |s[d].dirents| ==> s[d].dirents[k].inum == 0 || IsFile(s, s[d].dirents[k].inum))
    && (e.inum == 0 || (IsFile(s, e.inum) && e.name != DOT && e.name != DOTDOT))
  }

  lemma EnteredKeeps(s: seq<Node>, d: nat, k: nat, e: Dirent)
    requires Shape(s) && Tree(s) && FileEntry(s, d, k, e) && (e.inum == 0 || s[d].nlink != 0)
    ensures Shape(Entered(s, d, k, e)) && Tree(Entered(s, d, k, e))
  {
    hide Put;
    var s' := Entered(s, d, k, e);
    forall j: nat | j < |s'|
      ensures NodeOk(s', j)
    {
      assert NodeOk(s, j);
      if s[j].kind == Dir {
        forall m: nat | 2 <= m < |s'[j].dirents|
          ensures Ordinary(s'[j], m)
        {
          if j != d || m != k { assert Ordinary(s[j], m); }
        }
      }
    }
    EnteredTree(s, d, k, e);
  }

  lemma EnteredTree(s: seq<Node>, d: nat, k: nat, e: Dirent)
    requires Shape(s) && Tree(s) && FileEntry(s, d, k, e)
    ensures Tree(Entered(s, d, k, e))
  {
    hide Put;
    var s' := Entered(s, d, k, e);
    forall c: nat, m: nat | c < |s'| && m < |s'[c].dirents|
      ensures EntryOk(s', c, m)
    {
      assert NodeOk(s, c);
      if c != d || m != k {
        assert EntryOk(s, c, m);
        if s[c].dirents[m].inum < |s| { assert NodeOk(s, s[c].dirents[m].inum); }
      }
    }
    forall c: nat | c < |s'|
      ensures ParentOk(s', c)
    {
      EnteredParent(s, d, k, e, c);
    }
    forall c: nat, m: nat, m': nat | c < |s'| && 2 <= m < |s'[c].dirents| && 2 <= m' < |s'[c].dirents|
      ensures OneEntry(s', c, m, m')
    {
      if c != d || (m != k && m' != k) { assert OneEntry(s, c, m, m'); }
    }
  }

  lemma EnteredParent(s: seq<Node>, d: nat, k: nat, e: Dirent, c: nat)
    requires Shape(s) && Tree(s) && FileEntry(s, d, k, e) && c < |s|
    ensures ParentOk(Entered(s, d, k, e), c)
  {
    hide Put;
    var s' := Entered(s, d, k, e);
    assert ParentOk(s, c) && NodeOk(s, c);
    if s[c].kind == Dir && s[c].nlink != 0 && c != ROOTINO {
      var p := Parent(s, c);
      assert NodeOk(s, p);
      var m: nat :| 2 <= m < |s[p].dirents| && s[p].dirents[m].inum == c;
      assert s'[p].dirents[m].inum == c;
    }
  }

  lemma EnteredNames(s: seq<Node>, d: nat, k: nat, e: Dirent, c: nat, m: nat, j: nat)
    requires FileEntry(s, d, k, e) && j != 0
    ensures Names(Entered(s, d, k, e), c, m, j) <==> if c == d && m == k then j == e.inum else Names(s, c, m, j)
  {
    hide Put;
  }

  lemma EnteredRefs(s: seq<Node>, d: nat, k: nat, e: Dirent, j: nat)
    requires FileEntry(s, d, k, e) && j != 0
    ensures Refs(Entered(s, d, k, e), j) == Refs(s, j) - {(d, k)} + if e.inum == j then {(d, k)} else {}
  {
    hide Entered, Names;
    var s' := Entered(s, d, k, e);
    forall c: nat, m: nat
      ensures (c, m) in Refs(s', j) <==> if (c, m) == (d, k) then e.inum == j else (c, m) in Refs(s, j)
    {
      EnteredNames(s, d, k, e, c, m, j);
      InRefs(s, c, m, j);
      InRefs(s', c, m, j);
    }
  }

  // dirlink's entry for the link being made: the counts are right, whatever the directory.
  lemma FinishCounts(s: seq<Node>, pending: multiset<nat>, d: nat, k: nat, name: string, i: nat)
    requires Inv(s, pending) && i in pending && Vacant(s, d, k) && name != DOT && name != DOTDOT
    ensures Counts(Entered(s, d, k, Dirent(i, name)), pending - multiset{i})
  {
    hide Entered, Names, Refs, Shape, Tree;
    var e := Dirent(i, name);
    var s' := Entered(s, d, k, e);
    EnteredFrame(s, d, k, e);
    forall j: nat | 0 < j < |s'|
      ensures CountOk(s', pending - multiset{i}, j)
    {
      assert CountOk(s, pending, j);
      EnteredRefs(s, d, k, e, j);
      InRefs(s, d, k, j);
      VacantNames(s, d, k, j);
      assert Refs(s, j) - {(d, k)} == Refs(s, j);
    }
  }

  lemma FinishKeepsInv(s: seq<Node>, pending: multiset<nat>, d: nat, k: nat, name: string, i: nat)
    requires Inv(s, pending) && i in pending && Vacant(s, d, k) && s[d].nlink != 0 && name != DOT && name != DOTDOT
    ensures Inv(Entered(s, d, k, Dirent(i, name)), pending - multiset{i})
  {
    hide Entered, Names, Refs, Shape, Tree, Counts;
    EnteredKeeps(s, d, k, Dirent(i, name));
    EnteredFrame(s, d, k, Dirent(i, name));
    FinishCounts(s, pending, d, k, name, i);
  }

  lemma VacantNames(s: seq<Node>, d: nat, k: nat, j: nat)
    requires Vacant(s, d, k) && j != 0
    ensures !Names(s, d, k, j)
  {
  }

  lemma EnteredFrame(s: seq<Node>, d: nat, k: nat, e: Dirent)
    requires d < |s| && k <= |s[d].dirents|
    ensures forall j: nat :: j < |s| ==> Entered(s, d, k, e)[j].kind == s[j].kind && Entered(s, d, k, e)[j].nlink == s[j].nlink
  {
  }

  // ---- unlink ----

  function Cleared(s: seq<Node>, d: nat, k: nat): (r: seq<Node>)
    requires d < |s| && k < |s[d].dirents|
    ensures |r| == |s|
  {
    Entered(s, d, k, Dirent(0, ""))
  }

  // Entry k of directory d is in use and is not one of the dots.
  predicate Linked(s: seq<Node>, d: nat, k: nat) {
    d < |s| && s[d].kind == Dir && 2 <= k < |s[d].dirents| && s[d].dirents[k].inum != 0
  }

  lemma LinkedFacts(s: seq<Node>, pending: multiset<nat>, d: nat, k: nat)
    requires Inv(s, pending) && Linked(s, d, k)
    ensures var i := s[d].dirents[k].inum;
      && 0 < i < |s| && s[i].kind != Free && s[d].nlink != 0 && Names(s, d, k, i) && (d, k) in Refs(s, i)
      && 1 <= s[i].nlink <= NLINK_MAX
      && (s[i].kind != Dir ==> IsFile(s, i))
      && (s[i].kind == Dir ==> i != ROOTINO && NodeOk(s, i) && Parent(s, i) == d)
  {
    var i := s[d].dirents[k].inum;
    assert NodeOk(s, d) && Ordinary(s[d], k) && EntryOk(s, d, k);
    assert NodeOk(s, i) && CountOk(s, pending, i);
    InRefs(s, d, k, i);
  }

  function UnlinkedFile(s: seq<Node>, d: nat, k: nat): (r: seq<Node>)
    requires Linked(s, d, k) && s[d].dirents[k].inum < |s|
    ensures |r| == |s|
  {
    var i := s[d].dirents[k].inum;
    var s1 := Cleared(s, d, k);
    Relinked(s1, i, s1[i].nlink - 1)
  }

  lemma UnlinkedFileCount(s: seq<Node>, pending: multiset<nat>, d: nat, k: nat, j: nat)
    requires Inv(s, pending) && Linked(s, d, k) && s[d].dirents[k].inum < |s| && s[s[d].dirents[k].inum].kind != Dir
    requires 0 < j < |s|
    ensures CountOk(UnlinkedFile(s, d, k), pending, j)
  {
    hide Entered, Names, Refs, Shape, Tree, NodeOk;
    var i, e := s[d].dirents[k].inum, Dirent(0, "");
    LinkedFacts(s, pending, d, k);
    var s1 := Cleared(s, d, k);
    EnteredFrame(s, d, k, e);
    assert CountOk(s, pending, j);
    EnteredRefs(s, d, k, e, j);
    RelinkedRefs(s1, i, s1[i].nlink - 1, j);
    InRefs(s, d, k, j);
    NamesOne(s, d, k, i, j);
    assert j != i ==> Refs(s, j) - {(d, k)} == Refs(s, j);
  }

  lemma UnlinkedFileKeepsInv(s: seq<Node>, pending: multiset<nat>, d: nat, k: nat)
    requires Inv(s, pending) && Linked(s, d, k) && s[d].dirents[k].inum < |s| && s[s[d].dirents[k].inum].kind != Dir
    ensures Inv(UnlinkedFile(s, d, k), pending)
  {
    hide Entered, Names, Refs, Shape, Tree, NodeOk, CountOk;
    var i, e := s[d].dirents[k].inum, Dirent(0, "");
    LinkedFacts(s, pending, d, k);
    var s1 := Cleared(s, d, k);
    EnteredKeeps(s, d, k, e);
    EnteredFrame(s, d, k, e);
    RelinkedKeeps(s1, i, s1[i].nlink - 1);
    forall j: nat | 0 < j < |s|
      ensures CountOk(UnlinkedFile(s, d, k), pending, j)
    {
      UnlinkedFileCount(s, pending, d, k, j);
    }
  }

  lemma NamesOne(s: seq<Node>, d: nat, k: nat, i: nat, j: nat)
    requires Names(s, d, k, i)
    ensures Names(s, d, k, j) ==> j == i
  {
  }

  // isdirempty
  predicate EmptyDir(n: Node) {
    forall k: nat :: 2 <= k < |n.dirents| ==> n.dirents[k].inum == 0
  }

  function UnlinkedDir(s: seq<Node>, d: nat, k: nat): (r: seq<Node>)
    requires Linked(s, d, k) && s[d].dirents[k].inum < |s|
    ensures |r| == |s|
  {
    var i := s[d].dirents[k].inum;
    var s1 := Cleared(s, d, k);
    var s2 := Relinked(s1, d, s1[d].nlink - 1);
    Relinked(s2, i, s2[i].nlink - 1)
  }

  predicate RemovableDir(s: seq<Node>, d: nat, k: nat) {
    && Linked(s, d, k) && s[d].dirents[k].inum < |s|
    && s[s[d].dirents[k].inum].kind == Dir && EmptyDir(s[s[d].dirents[k].inum])
  }

  // An empty directory is named by its parent's entry alone.
  lemma EmptyDirRefs(s: seq<Node>, pending: multiset<nat>, d: nat, k: nat)
    requires Inv(s, pending) && RemovableDir(s, d, k)
    ensures Refs(s, s[d].dirents[k].inum) == {(d, k)}
  {
    var i := s[d].dirents[k].inum;
    LinkedFacts(s, pending, d, k);
    forall c: nat, m: nat | Names(s, c, m, i)
      ensures (c, m) == (d, k)
    {
      assert NodeOk(s, c) && EntryOk(s, c, m) && ParentOk(s, c);
      if m >= 2 { assert OneEntry(s, d, k, m); }
    }
    forall c: nat, m: nat
      ensures (c, m) in Refs(s, i) <==> (c, m) == (d, k)
    {
      InRefs(s, c, m, i);
    }
  }

  // Its parent is named by it and by at least one more entry.
  lemma ParentRefs(s: seq<Node>, pending: multiset<nat>, d: nat, k: nat)
    requires Inv(s, pending) && RemovableDir(s, d, k)
    ensures (s[d].dirents[k].inum, 1) in Refs(s, d) && s[d].nlink >= 2 && d != s[d].dirents[k].inum
    ensures s[s[d].dirents[k].inum].nlink == 1 && pending[s[d].dirents[k].inum] == 0
  {
    var i := s[d].dirents[k].inum;
    LinkedFacts(s, pending, d, k);
    EmptyDirRefs(s, pending, d, k);
    assert CountOk(s, pending, i) && CountOk(s, pending, d) && NodeOk(s, d) && NodeOk(s, i);
    InRefs(s, i, 1, d);
    var other: (nat, nat);
    if d == ROOTINO {
      other := (d, 1);
    } else {
      assert ParentOk(s, d);
      var p := Parent(s, d);
      var m: nat :| 2 <= m < |s[p].dirents| && s[p].dirents[m].inum == d;
      assert NodeOk(s, p) && Ordinary(s[p], m);
      other := (p, m);
    }
    InRefs(s, other.0, other.1, d);
    assert {(i, 1), other} <= Refs(s, d);
    AtLeastTwo(Refs(s, d), (i, 1), other);
  }

  lemma AtLeastTwo(a: set<(nat, nat)>, x: (nat, nat), y: (nat, nat))
    requires x in a && y in a && x != y
    ensures |a| >= 2
  {
    assert |a - {x}| >= 1;
  }

  lemma UnlinkedDirNodes(s: seq<Node>, d: nat, k: nat)
    requires RemovableDir(s, d, k) && s[d].dirents[k].inum != d
    ensures var i := s[d].dirents[k].inum;
      var s' := UnlinkedDir(s, d, k);
      && s'[i] == s[i].(nlink := s[i].nlink - 1)
      && s'[d] == Node(Dir, s[d].nlink - 1, Put(s[d].dirents, k, Dirent(0, "")))
      && (forall e: nat :: e < |s| && e != i && e != d ==> s'[e] == s[e])
  {
  }

  lemma UnlinkedDirShape(s: seq<Node>, pending: multiset<nat>, d: nat, k: nat)
    requires Inv(s, pending) && RemovableDir(s, d, k)
    ensures Shape(UnlinkedDir(s, d, k))
  {
    hide UnlinkedDir, Put, Tree, Counts, Refs;
    var s', i := UnlinkedDir(s, d, k), s[d].dirents[k].inum;
    LinkedFacts(s, pending, d, k);
    ParentRefs(s, pending, d, k);
    UnlinkedDirNodes(s, d, k);
    forall j: nat | j < |s'|
      ensures NodeOk(s', j)
    {
      assert NodeOk(s, j);
      if s[j].kind == Dir {
        forall m: nat | 2 <= m < |s'[j].dirents|
          ensures Ordinary(s'[j], m)
        {
          assert Ordinary(s[j], m);
        }
      }
    }
  }

  lemma UnlinkedDirTree(s: seq<Node>, pending: multiset<nat>, d: nat, k: nat)
    requires Inv(s, pending) && RemovableDir(s, d, k)
    ensures Tree(UnlinkedDir(s, d, k))
  {
    hide UnlinkedDir, Put, Counts, Refs;
    var s', i := UnlinkedDir(s, d, k), s[d].dirents[k].inum;
    LinkedFacts(s, pending, d, k);
    ParentRefs(s, pending, d, k);
    UnlinkedDirNodes(s, d, k);
    forall e: nat, m: nat | e < |s'| && m < |s'[e].dirents|
      ensures EntryOk(s', e, m)
    {
      UnlinkedDirEntry(s, pending, d, k, e, m);
    }
    forall c: nat | c < |s'|
      ensures ParentOk(s', c)
    {
      UnlinkedDirParent(s, pending, d, k, c);
    }
    forall e: nat, m: nat, m': nat | e < |s'| && 2 <= m < |s'[e].dirents| && 2 <= m' < |s'[e].dirents|
      ensures OneEntry(s', e, m, m')
    {
      assert OneEntry(s, e, m, m');
    }
  }

  lemma UnlinkedDirEntry(s: seq<Node>, pending: multiset<nat>, d: nat, k: nat, e: nat, m: nat)
    requires Inv(s, pending) && RemovableDir(s, d, k) && e < |s| && m < |UnlinkedDir(s, d, k)[e].dirents|
    ensures EntryOk(UnlinkedDir(s, d, k), e, m)
  {
    hide UnlinkedDir, Put, Counts, Refs;
    var i := s[d].dirents[k].inum;
    LinkedFacts(s, pending, d, k);
    ParentRefs(s, pending, d, k);
    UnlinkedDirNodes(s, d, k);
    assert EntryOk(s, e, m) && NodeOk(s, e) && NodeOk(s, d);
    if e == d && 2 <= m { assert OneEntry(s, d, k, m); }
  }

  lemma UnlinkedDirParent(s: seq<Node>, pending: multiset<nat>, d: nat, k: nat, c: nat)
    requires Inv(s, pending) && RemovableDir(s, d, k) && c < |s|
    ensures ParentOk(UnlinkedDir(s, d, k), c)
  {
    hide UnlinkedDir, Put, Counts, Refs;
    var s', i := UnlinkedDir(s, d, k), s[d].dirents[k].inum;
    LinkedFacts(s, pending, d, k);
    ParentRefs(s, pending, d, k);
    UnlinkedDirNodes(s, d, k);
    assert ParentOk(s, c) && NodeOk(s, c);
    if s[c].kind == Dir && s[c].nlink != 0 && c != ROOTINO && c != i {
      var p := Parent(s, c);
      var m: nat :| 2 <= m < |s[p].dirents| && s[p].dirents[m].inum == c;
      assert s'[p].dirents[m].inum == c;
    }
  }

  lemma UnlinkedDirNames(s: seq<Node>, pending: multiset<nat>, d: nat, k: nat, e: nat, m: nat, j: nat)
    requires Inv(s, pending) && RemovableDir(s, d, k) && j != 0
    ensures var i := s[d].dirents[k].inum;
      Names(UnlinkedDir(s, d, k), e, m, j) <==> Names(s, e, m, j) && (e, m) != (d, k) && (e, m) != (i, 1)
  {
    hide UnlinkedDir, Put, Counts, Refs, Tree;
    var i := s[d].dirents[k].inum;
    LinkedFacts(s, pending, d, k);
    ParentRefs(s, pending, d, k);
    UnlinkedDirNodes(s, d, k);
    assert NodeOk(s, i) && NodeOk(s, d);
  }

  lemma UnlinkedDirCount(s: seq<Node>, pending: multiset<nat>, d: nat, k: nat, j: nat)
    requires Inv(s, pending) && RemovableDir(s, d, k) && 0 < j < |s|
    ensures CountOk(UnlinkedDir(s, d, k), pending, j)
  {
    hide UnlinkedDir, Put, Names, Tree, Shape;
    var s', i := UnlinkedDir(s, d, k), s[d].dirents[k].inum;
    LinkedFacts(s, pending, d, k);
    ParentRefs(s, pending, d, k);
    UnlinkedDirNodes(s, d, k);
    assert CountOk(s, pending, j);
    forall e: nat, m: nat
      ensures (e, m) in Refs(s', j) <==> (e, m) in Refs(s, j) - {(d, k), (i, 1)}
    {
      UnlinkedDirNames(s, pending, d, k, e, m, j);
      InRefs(s, e, m, j);
      InRefs(s', e, m, j);
    }
    assert Refs(s', j) == Refs(s, j) - {(d, k), (i, 1)};
    InRefs(s, d, k, j);
    InRefs(s, i, 1, j);
    NamesOne(s, d, k, i, j);
    InRefs(s, i, 1, d);
    NamesOne(s, i, 1, d, j);
    assert Refs(s', j) == if j == i then Refs(s, j) - {(d, k)} else if j == d then Refs(s, j) - {(i, 1)} else Refs(s, j);
  }

  lemma UnlinkedDirKeepsInv(s: seq<Node>, pending: multiset<nat>, d: nat, k: nat)
    requires Inv(s, pending) && RemovableDir(s, d, k)
    ensures Inv(UnlinkedDir(s, d, k), pending)
  {
    hide UnlinkedDir, Put, Names, Tree, Shape, CountOk;
    UnlinkedDirShape(s, pending, d, k);
    UnlinkedDirTree(s, pending, d, k);
    forall j: nat | 0 < j < |s|
      ensures CountOk(UnlinkedDir(s, d, k), pending, j)
    {
      UnlinkedDirCount(s, pending, d, k, j);
    }
    ParentRefs(s, pending, d, k);
    UnlinkedDirNodes(s, d, k);
  }

  // ---- iput of the last reference to an inode without links ----

  function Reclaimed(s: seq<Node>, i: nat): (r: seq<Node>)
    requires i < |s|
    ensures |r| == |s|
  {
    s[i := Node(Free, 0, [])]
  }

  lemma ReclaimedKeepsInv(s: seq<Node>, pending: multiset<nat>, i: nat)
    requires Inv(s, pending) && 0 < i < |s| && s[i].nlink == 0
    ensures Inv(Reclaimed(s, i), pending)
  {
    var s' := Reclaimed(s, i);
    FreeUnnamed(s, pending, i, 0, 0);
    forall j: nat | j < |s'|
      ensures NodeOk(s', j)
    {
      assert NodeOk(s, j);
    }
    ReclaimedTree(s, pending, i);
    forall j: nat | 0 < j < |s'|
      ensures CountOk(s', pending, j)
    {
      assert CountOk(s, pending, j);
      ReclaimedRefs(s, pending, i, j);
    }
  }

  lemma ReclaimedRefs(s: seq<Node>, pending: multiset<nat>, i: nat, j: nat)
    requires Inv(s, pending) && 0 < i < |s| && s[i].nlink == 0 && 0 < j
    ensures Refs(Reclaimed(s, i), j) == Refs(s, j)
  {
    hide Tree, Counts;
    assert NodeOk(s, i);
    forall d: nat, k: nat
      ensures Names(Reclaimed(s, i), d, k, j) <==> Names(s, d, k, j)
    {
      if d == i && s[i].kind == Dir && 2 <= k < |s[i].dirents| { assert Ordinary(s[i], k); }
    }
  }

  lemma ReclaimedTree(s: seq<Node>, pending: multiset<nat>, i: nat)
    requires Inv(s, pending) && 0 < i < |s| && s[i].nlink == 0
    ensures Tree(Reclaimed(s, i))
  {
    hide Counts;
    var s' := Reclaimed(s, i);
    forall d: nat, k: nat | d < |s'| && k < |s'[d].dirents|
      ensures EntryOk(s', d, k)
    {
      assert EntryOk(s, d, k);
      if s[d].kind == Dir && k >= 2 { EntryElsewhere(s, pending, i, d, k); }
    }
    forall c: nat | c < |s'|
      ensures ParentOk(s', c)
    {
      assert ParentOk(s, c) && NodeOk(s, c);
      if s'[c].kind == Dir && s[c].nlink != 0 && c != ROOTINO {
        var p := Parent(s, c);
        var m: nat :| 2 <= m < |s[p].dirents| && s[p].dirents[m].inum == c;
        assert s'[p].dirents[m].inum == c;
      }
    }
    forall d: nat, k: nat, k': nat | d < |s'| && 2 <= k < |s'[d].dirents| && 2 <= k' < |s'[d].dirents|
      ensures OneEntry(s', d, k, k')
    {
      assert OneEntry(s, d, k, k');
    }
  }

  // ---- what is lost with a directory that was removed while in use ----

  // iput of the last reference.
  function AfterLastPut(s: seq<Node>, i: nat): (r: seq<Node>)
    requires i < |s|
    ensures |r| == |s|
  {
    if s[i].nlink == 0 then Reclaimed(s, i) else s
  }

  // The counts are right now, and still are when the last user of directory d has gone.
  ghost predicate StaysRight(s: seq<Node>, pending: multiset<nat>, d: nat)
    requires d < |s|
  {
    Counts(s, pending) && Counts(AfterLastPut(s, d), pending)
  }

  // A file made in a removed directory keeps its link when the directory and the entry are gone.
  lemma FileIsLost(s: seq<Node>, pending: multiset<nat>, d: nat, k: nat, name: string, i: nat, kind: Kind)
    requires Inv(s, pending) && Creatable(s, d, k, name, i) && s[d].nlink == 0 && kind != Free && kind != Dir
    ensures !Counts(Reclaimed(Made(s, d, k, name, i, kind), d), pending)
  {
    hide Made, Tree, Put;
    assert NodeOk(s, i) && NodeOk(s, d);
    MadeNodes(s, d, k, name, i, kind);
    var s' := Reclaimed(Made(s, d, k, name, i, kind), d);
    forall e: nat, m: nat
      ensures !Names(s', e, m, i)
    {
      FreeUnnamed(s, pending, i, e, m);
    }
    forall e: nat, m: nat
      ensures (e, m) !in Refs(s', i)
    {
      InRefs(s', e, m, i);
    }
    assert Refs(s', i) == {};
    FreeUnnamed(s, pending, i, 0, 0);
    assert !CountOk(s', pending, i);
  }

  // So does a file linked into one.
  lemma LinkIsLost(s: seq<Node>, pending: multiset<nat>, d: nat, k: nat, name: string, i: nat)
    requires Inv(s, pending) && i in pending && Vacant(s, d, k) && s[d].nlink == 0 && name != DOT && name != DOTDOT
    ensures !Counts(Reclaimed(Entered(s, d, k, Dirent(i, name)), d), pending - multiset{i})
  {
    hide Tree, Put;
    assert NodeOk(s, d);
    var s' := Reclaimed(Entered(s, d, k, Dirent(i, name)), d);
    forall e: nat, m: nat
      ensures Names(s', e, m, i) <==> Names(s, e, m, i)
    {
      if e == d && 2 <= m < |s[d].dirents| { assert Ordinary(s[d], m); }
    }
    forall e: nat, m: nat
      ensures (e, m) in Refs(s', i) <==> (e, m) in Refs(s, i)
    {
      InRefs(s, e, m, i);
      InRefs(s', e, m, i);
    }
    assert Refs(s', i) == Refs(s, i);
    assert CountOk(s, pending, i);
    assert !CountOk(s', pending - multiset{i}, i);
  }

  // create leaves counts that stay right if and only if its directory is still linked and can take the link.
  lemma MadeStaysRightIff(s: seq<Node>, pending: multiset<nat>, d: nat, k: nat, name: string, i: nat, kind: Kind)
    requires Inv(s, pending) && Creatable(s, d, k, name, i) && kind != Free
    ensures StaysRight(Made(s, d, k, name, i, kind), pending, d) <==> Allowed(s, d, kind)
  {
    hide Made, Counts, Tree;
    MadeCountsIff(s, pending, d, k, name, i, kind);
    if s[d].nlink == 0 {
      if kind != Dir {
        MadeNodes(s, d, k, name, i, kind);
        FileIsLost(s, pending, d, k, name, i, kind);
      }
    } else if Allowed(s, d, kind) {
      assert NodeOk(s, d);
      MadeNodes(s, d, k, name, i, kind);
    }
  }

  // And so does sys_link's entry.
  lemma FinishStaysRightIff(s: seq<Node>, pending: multiset<nat>, d: nat, k: nat, name: string, i: nat)
    requires Inv(s, pending) && i in pending && Vacant(s, d, k) && name != DOT && name != DOTDOT
    ensures StaysRight(Entered(s, d, k, Dirent(i, name)), pending - multiset{i}, d) <==> s[d].nlink != 0
  {
    hide Counts, Tree, Put;
    FinishCounts(s, pending, d, k, name, i);
    if s[d].nlink == 0 { LinkIsLost(s, pending, d, k, name, i); }
  }
}
