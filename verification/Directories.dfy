/** Directory operations and the system calls that count links
    (kernel/fs.c:192-214, 329-358, 529-583, kernel/sysfile.c:119-284).

    Each method is what a caller does while it holds the locks of the inodes involved.  Paths have
    been resolved already: d is any directory.  ok == false stands for a panic because there is no
    free inode, or because the directory is as large as a file can be. */
module Directories {
  import opened Blocks
  import opened Links
  import opened LinkSteps
  import opened DirNames

  const MAX_ENTRIES: nat := 17152       // MAXFILE * BSIZE / sizeof(struct dirent)

  // k is where dirlink writes: the first empty entry, or the end.
  predicate FirstVacant(es: seq<Dirent>, k: nat) {
    k <= |es| && (k < |es| ==> es[k].inum == 0) && forall j: nat :: j < k ==> es[j].inum != 0
  }

  // What dirlookup finds is an inode in use.
  lemma FoundInode(s: seq<Node>, pending: multiset<nat>, d: nat, k: nat)
    requires Inv(s, pending) && d < |s| && s[d].kind == Dir && k < |s[d].dirents| && s[d].dirents[k].inum != 0
    ensures s[d].dirents[k].inum < |s|
  {
    assert NodeOk(s, d) && EntryOk(s, d, k);
  }

  lemma FoundIsLinked(s: seq<Node>, pending: multiset<nat>, d: nat, k: nat, name: string)
    requires Inv(s, pending) && d < |s| && s[d].kind == Dir && k < |s[d].dirents| && Matches(s[d].dirents, k, name)
    requires name != DOT && name != DOTDOT
    ensures Linked(s, d, k) && s[d].dirents[k].inum < |s|
  {
    assert NodeOk(s, d) && EntryOk(s, d, k);
  }

  lemma EnterableHere(s: seq<Node>, pending: multiset<nat>, d: nat, k: nat, name: string)
    requires Inv(s, pending) && d < |s| && s[d].kind == Dir && FirstVacant(s[d].dirents, k)
    requires Missing(s[d].dirents, |s[d].dirents|, name)
    ensures Vacant(s, d, k) && name != DOT && name != DOTDOT
  {
    assert NodeOk(s, d);
    assert !Matches(s[d].dirents, 0, name) && !Matches(s[d].dirents, 1, name);
  }

  // A step of some process.
  datatype Op =
    | Create(d: nat, name: string, kind: Kind)
    | StartLink(i: nat)
    | FinishLink(i: nat, into: Option<nat>, name: string)
    | Unlink(d: nat, name: string)
    | LastPut(i: nat)

  // A new file system: the root directory, its own parent.
  function NewTree(ninodes: nat): seq<Node> {
    var root := Node(Dir, 1, [Dirent(ROOTINO, DOT), Dirent(ROOTINO, DOTDOT)]);
    seq(ninodes, i => if i == ROOTINO then root else Node(Free, 0, []))
  }

  lemma NewTreeInv(ninodes: nat)
    requires ninodes > ROOTINO
    ensures Inv(NewTree(ninodes), multiset{})
  {
    var s := NewTree(ninodes);
    forall j: nat | 0 < j < |s|
      ensures CountOk(s, multiset{}, j)
    {
      assert Refs(s, j) == if j == ROOTINO then {(ROOTINO, 1)} else {};
    }
  }

  lemma NewTreeNames(ninodes: nat)
    ensures NamesDistinct(NewTree(ninodes))
  {
    DotsDistinct(ROOTINO, ROOTINO);
    NoNames([]);
  }

  class Directories {
    var nodes: seq<Node>
    var pending: multiset<nat>      // inodes whose new link sys_link has counted but not yet entered

    constructor (ninodes: nat)
      requires ninodes > ROOTINO
      ensures Inv(nodes, pending) && pending == multiset{} && nodes == NewTree(ninodes) && NamesDistinct(nodes)
    {
      nodes := NewTree(ninodes);
      pending := multiset{};
      NewTreeInv(ninodes);
      NewTreeNames(ninodes);
    }

    method DirLookup(d: nat, name: string) returns (found: bool, k: nat)
      requires d < |nodes| && nodes[d].kind == Dir
      ensures found ==> k < |nodes[d].dirents| && Matches(nodes[d].dirents, k, name) && Missing(nodes[d].dirents, k, name)
      ensures !found ==> Missing(nodes[d].dirents, |nodes[d].dirents|, name)
      ensures Distinct(nodes[d].dirents) ==>
                (found <==> name in DirMap(nodes, d)) && (found ==> nodes[d].dirents[k].inum == DirMap(nodes, d)[name])
    {
      if Distinct(nodes[d].dirents) { LookupIsMap(nodes[d].dirents, name); }
      k := 0;
      while k < |nodes[d].dirents|
        invariant k <= |nodes[d].dirents| && Missing(nodes[d].dirents, k, name)
      {
        if nodes[d].dirents[k].inum != 0 && nodes[d].dirents[k].name == name {
          return true, k;
        }
        k := k + 1;
      }
      found := false;
    }

    // dirlink
    method DirLink(d: nat, name: string, inum: nat) returns (ok: bool, r: int, k: nat)
      requires d < |nodes| && nodes[d].kind == Dir
      modifies `nodes
      ensures r == -1 || r == 0
      ensures r == -1 <==> !Missing(old(nodes)[d].dirents, |old(nodes)[d].dirents|, name)
      ensures r == -1 ==> ok && nodes == old(nodes)
      ensures r == 0 ==> FirstVacant(old(nodes)[d].dirents, k) && (ok <==> k < MAX_ENTRIES)
      ensures r == 0 && ok ==> nodes == Entered(old(nodes), d, k, Dirent(inum, name))
    {
      var found;
      found, k := DirLookup(d, name);
      if found {
        return true, -1, k;
      }
      k := 0;
      while k < |nodes[d].dirents| && nodes[d].dirents[k].inum != 0
        invariant k <= |nodes[d].dirents|
        invariant forall j: nat :: j < k ==> nodes[d].dirents[j].inum != 0
      {
        k := k + 1;
      }
      ok, r := k < MAX_ENTRIES, 0;
      if ok {
        var node := nodes[d];
        nodes := nodes[d := node.(dirents := Put(node.dirents, k, Dirent(inum, name)))];
      }
    }

    // isdirempty
    method IsDirEmpty(i: nat) returns (b: bool)
      requires i < |nodes|
      ensures b == EmptyDir(nodes[i])
    {
      var k := 2;
      while k < |nodes[i].dirents|
        invariant 2 <= k && forall j: nat :: 2 <= j < k && j < |nodes[i].dirents| ==> nodes[i].dirents[j].inum == 0
      {
        if nodes[i].dirents[k].inum != 0 {
          return false;
        }
        k := k + 1;
      }
      b := true;
    }

    // ialloc: the lowest free inode.
    method IAlloc(kind: Kind) returns (ok: bool, i: nat)
      modifies `nodes
      ensures !ok ==> nodes == old(nodes) && forall j: nat :: 1 <= j < |nodes| ==> nodes[j].kind != Free
      ensures ok ==> 1 <= i < |old(nodes)| && old(nodes)[i].kind == Free && (forall j: nat :: 1 <= j < i ==> old(nodes)[j].kind != Free)
      ensures ok ==> nodes == old(nodes)[i := Node(kind, 0, [])]
    {
      i := 1;
      while i < |nodes|
        invariant nodes == old(nodes) && 1 <= i
        invariant forall j: nat :: 1 <= j < i && j < |nodes| ==> nodes[j].kind != Free
      {
        if nodes[i].kind == Free {
          nodes := nodes[i := Node(kind, 0, [])];
          return true, i;
        }
        i := i + 1;
      }
      ok := false;
    }
  
    // create, below the lookup of the parent; a device or file that exists is opened.
    method Create(d: nat, name: string, kind: Kind) returns (ok: bool, r: Option<nat>, ghost k: nat)
      requires Inv(nodes, pending) && d < |nodes| && nodes[d].kind == Dir && kind != Free
      modifies `nodes
      ensures !Missing(old(nodes)[d].dirents, |old(nodes)[d].dirents|, name) ==>
                && ok && nodes == old(nodes) && k < |nodes[d].dirents| && Matches(nodes[d].dirents, k, name)
                && nodes[d].dirents[k].inum < |nodes|
                && r == if kind == Reg && IsFile(nodes, nodes[d].dirents[k].inum) then Some(nodes[d].dirents[k].inum) else None
      ensures Missing(old(nodes)[d].dirents, |old(nodes)[d].dirents|, name) && ok ==>
                && r.Some? && Creatable(old(nodes), d, k, name, r.value) && FirstVacant(old(nodes)[d].dirents, k)
                && (forall j: nat :: 1 <= j < r.value ==> old(nodes)[j].kind != Free)
                && nodes == Made(old(nodes), d, k, name, r.value, kind)
      // The counts are right afterwards unless a directory was made where it must not be; they stay
      // right, also when the directory goes, exactly when it was still linked.
      ensures ok && nodes != old(nodes) ==> (Counts(nodes, pending) <==> kind != Dir || Allowed(old(nodes), d, Dir))
      ensures ok && nodes != old(nodes) ==> (StaysRight(nodes, pending, d) <==> Allowed(old(nodes), d, kind))
      ensures ok && (nodes == old(nodes) || Allowed(old(nodes), d, kind)) ==> Inv(nodes, pending)
      // On directories as maps one name is added, to this directory alone.
      ensures ok && nodes != old(nodes) && NamesDistinct(old(nodes)) ==>
                && r.Some? && NamesDistinct(nodes) && |nodes| == |old(nodes)| && DirMap(nodes, d) == DirMap(old(nodes), d)[name := r.value]
                && forall e: nat :: e < |nodes| && e != d && e != r.value ==> DirMap(nodes, e) == DirMap(old(nodes), e)
    {
      hide Tree, Counts;
      r, k := None, 0;
      ghost var s := nodes;
      assert NodeOk(s, d);
      var found, e := DirLookup(d, name);
      if found {
        var i := nodes[d].dirents[e].inum;
        ok, k := true, e;
        FoundInode(s, pending, d, e);
        if kind == Reg && (nodes[i].kind == Reg || nodes[i].kind == Dev) {
          r := Some(i);
        }
        return;
      }
      assert !Matches(s[d].dirents, 0, name) && !Matches(s[d].dirents, 1, name);
      var i;
      ok, i := IAlloc(kind);
      if !ok {
        return;
      }
      nodes := nodes[i := nodes[i].(nlink := 1)];
      assert nodes == s[i := Node(kind, 1, [])];
      if kind == Dir {
        nodes := nodes[d := nodes[d].(nlink := Inc(nodes[d].nlink))];
        Dots(i, d);
      }
      var r0, e0;
      ok, r0, e0 := DirLink(d, name, i);
      k := e0;
      r := Some(i);
      if ok {
        assert nodes == Made(s, d, k, name, i, kind);
        MadeCountsIff(s, pending, d, k, name, i, kind);
        MadeStaysRightIff(s, pending, d, k, name, i, kind);
        if Allowed(s, d, kind) { MadeKeepsInv(s, pending, d, k, name, i, kind); }
        if NamesDistinct(s) { MadeInserts(s, d, k, name, i, kind); }
      }
    }

    // The entries "." and ".." of a new directory.
    method Dots(i: nat, d: nat)
      requires i < |nodes| && nodes[i].kind == Dir && nodes[i].dirents == [] && i != 0
      modifies `nodes
      ensures nodes == old(nodes)[i := old(nodes)[i].(dirents := [Dirent(i, DOT), Dirent(d, DOTDOT)])]
    {
      var ok, r, k := DirLink(i, DOT, i);
      assert nodes[i].dirents == [Dirent(i, DOT)];
      assert !Matches(nodes[i].dirents, 0, DOTDOT);
      ok, r, k := DirLink(i, DOTDOT, d);
      assert nodes[i].dirents == [Dirent(i, DOT), Dirent(d, DOTDOT)];
    }

    // sys_link up to the release of the old inode's lock.
    method StartLink(i: nat) returns (r: int)
      requires Inv(nodes, pending) && 0 < i < |nodes| && nodes[i].kind != Free
      modifies `nodes, `pending
      ensures old(nodes)[i].kind == Dir ==> r == -1 && nodes == old(nodes) && pending == old(pending)
      ensures old(nodes)[i].kind != Dir ==>
                && r == 0 && nodes == Relinked(old(nodes), i, Inc(old(nodes)[i].nlink)) && pending == old(pending) + multiset{i}
                && (Inv(nodes, pending) <==> old(nodes)[i].nlink < NLINK_MAX)
      ensures NamesDistinct(old(nodes)) ==> NamesDistinct(nodes)
    {
      hide Tree, Counts, Shape, Distinct;
      if nodes[i].kind == Dir {
        return -1;
      }
      StartKeepsInvIff(nodes, pending, i);
      nodes := nodes[i := nodes[i].(nlink := Inc(nodes[i].nlink))];
      pending := pending + multiset{i};
      r := 0;
    }

    // The rest of sys_link: into is what nameiparent found.
    method FinishLink(i: nat, into: Option<nat>, name: string) returns (ok: bool, r: int, ghost k: nat)
      requires Inv(nodes, pending) && i in pending
      requires into.Some? ==> into.value < |nodes| && nodes[into.value].kind == Dir
      modifies `nodes, `pending
      ensures pending == old(pending) - multiset{i}
      ensures r == -1 <==> into.None? || !Missing(old(nodes)[into.value].dirents, |old(nodes)[into.value].dirents|, name)
      ensures r == -1 ==> ok && nodes == Relinked(old(nodes), i, old(nodes)[i].nlink - 1) && Inv(nodes, pending)
      ensures r != -1 && ok ==> r == 0 && Vacant(old(nodes), into.value, k)
      ensures r != -1 && ok ==> nodes == Entered(old(nodes), into.value, k, Dirent(i, name))
      // The counts are right; they stay right, also when the directory goes, exactly when it was still linked.
      ensures r != -1 && ok ==> Counts(nodes, pending)
      ensures r != -1 && ok ==> (StaysRight(nodes, pending, into.value) <==> old(nodes)[into.value].nlink != 0)
      ensures r != -1 && ok && old(nodes)[into.value].nlink != 0 ==> Inv(nodes, pending)
      ensures ok && NamesDistinct(old(nodes)) ==>
                && NamesDistinct(nodes) && |nodes| == |old(nodes)|
                && forall e: nat :: e < |nodes| ==>
                  DirMap(nodes, e) == if r == 0 && e == into.value then DirMap(old(nodes), e)[name := i] else DirMap(old(nodes), e)
    {
      hide Tree, Counts, Shape, Entered, Distinct, AsMap, NamesDistinct;
      k := 0;
      ghost var s := nodes;
      if into.Some? {
        var d, e := into.value, 0;
        ok, r, e := DirLink(d, name, i);
        k := e;
        if r == 0 {
          if ok {
            EnterableHere(s, pending, d, k, name);
            FinishCounts(s, pending, d, k, name, i);
            FinishStaysRightIff(s, pending, d, k, name, i);
            if s[d].nlink != 0 { FinishKeepsInv(s, pending, d, k, name, i); }
            if NamesDistinct(s) { EnteredInserts(s, d, k, name, i); }
          }
          pending := pending - multiset{i};
          return;
        }
      }
      // bad:
      UndoKeepsInv(nodes, pending, i);
      if NamesDistinct(s) { SameDirents(s, Relinked(s, i, s[i].nlink - 1)); }
      nodes := nodes[i := nodes[i].(nlink := nodes[i].nlink - 1)];
      pending := pending - multiset{i};
      ok, r := true, -1;
    }

    // sys_unlink, below the lookup of the parent.
    method Unlink(d: nat, name: string) returns (r: int, ghost k: nat)
      requires Inv(nodes, pending) && d < |nodes| && nodes[d].kind == Dir
      modifies `nodes
      ensures Inv(nodes, pending)
      ensures r == -1 || r == 0
      ensures r == -1 ==> nodes == old(nodes)
      // Refused for the dots, for a name that is not there, and for a directory in use.
      ensures r == -1 <==>
                || name == DOT || name == DOTDOT || Missing(old(nodes)[d].dirents, |old(nodes)[d].dirents|, name)
                || (Linked(old(nodes), d, k) && Matches(old(nodes)[d].dirents, k, name) && old(nodes)[d].dirents[k].inum < |old(nodes)|
                    && old(nodes)[old(nodes)[d].dirents[k].inum].kind == Dir && !EmptyDir(old(nodes)[old(nodes)[d].dirents[k].inum]))
      ensures r == 0 ==> Linked(old(nodes), d, k) && Matches(old(nodes)[d].dirents, k, name) && old(nodes)[d].dirents[k].inum < |old(nodes)|
      ensures r == 0 ==> nodes == if old(nodes)[old(nodes)[d].dirents[k].inum].kind == Dir then UnlinkedDir(old(nodes), d, k)
                                  else UnlinkedFile(old(nodes), d, k)
      // On directories as maps one name is removed, from this directory alone.
      ensures NamesDistinct(old(nodes)) ==>
                && NamesDistinct(nodes) && |nodes| == |old(nodes)|
                && forall e: nat :: e < |nodes| ==>
                  DirMap(nodes, e) == if r == 0 && e == d then DirMap(old(nodes), e) - {name} else DirMap(old(nodes), e)
    {
      hide Tree, Counts, Shape, Names, Refs, Distinct, AsMap, NamesDistinct;
      k := 0;
      if name == DOT || name == DOTDOT {
        return -1, 0;
      }
      var found, e := DirLookup(d, name);
      if !found {
        return -1, 0;
      }
      k := e;
      ghost var s := nodes;
      FoundIsLinked(s, pending, d, e, name);
      LinkedFacts(s, pending, d, e);
      var i := nodes[d].dirents[e].inum;
      assert nodes[i].nlink >= 1;        // no "unlink: nlink < 1"
      if nodes[i].kind == Dir {
        var empty := IsDirEmpty(i);
        if !empty {
          return -1, k;
        }
        ParentRefs(s, pending, d, k);
        UnlinkedDirKeepsInv(s, pending, d, k);
      } else {
        UnlinkedFileKeepsInv(s, pending, d, k);
      }
      nodes := nodes[d := nodes[d].(dirents := Put(nodes[d].dirents, e, Dirent(0, "")))];
      if nodes[i].kind == Dir {
        nodes := nodes[d := nodes[d].(nlink := nodes[d].nlink - 1)];
      }
      nodes := nodes[i := nodes[i].(nlink := nodes[i].nlink - 1)];
      if NamesDistinct(s) { UnlinkedRemoves(s, nodes, d, k); }
      r := 0;
    }

    // iput of the last reference.
    method LastPut(i: nat)
      requires Inv(nodes, pending) && 0 < i < |nodes|
      modifies `nodes
      ensures Inv(nodes, pending)
      ensures nodes == AfterLastPut(old(nodes), i)
      ensures NamesDistinct(old(nodes)) ==> NamesDistinct(nodes)
    {
      if NamesDistinct(nodes) { ReclaimedDistinct(nodes, i); }
      if nodes[i].nlink == 0 {
        ReclaimedKeepsInv(nodes, pending, i);
        nodes := nodes[i := Node(Free, 0, [])];
      }
    }
  
    // Any run of these steps, by any processes, that works only in directories still linked.
    method Run(ops: seq<Op>) returns (panicked: bool)
      requires Inv(nodes, pending)
      modifies this
      ensures !panicked ==> Inv(nodes, pending) && (NamesDistinct(old(nodes)) ==> NamesDistinct(nodes))
    {
      hide Tree, Counts, Shape, Names, Refs, Inv, NamesDistinct;
      panicked := false;
      for n := 0 to |ops|
        invariant Inv(nodes, pending) && (NamesDistinct(old(nodes)) ==> NamesDistinct(nodes))
      {
        if Enabled(nodes, pending, ops[n]) {
          var ok := Step(ops[n]);
          if !ok {
            return true;
          }
        }
      }
    }

    method Step(op: Op) returns (ok: bool)
      requires Inv(nodes, pending) && Enabled(nodes, pending, op)
      modifies this
      ensures ok ==> Inv(nodes, pending) && (NamesDistinct(old(nodes)) ==> NamesDistinct(nodes))
    {
      hide Tree, Counts, Shape, Names, Refs, Inv, Made, Entered, NamesDistinct;
      ok := true;
      match op
      case Create(d, name, kind) => var r; ghost var k; ok, r, k := Create(d, name, kind);
      case StartLink(i) => var r := StartLink(i);
      case FinishLink(i, into, name) => var r; ghost var k; ok, r, k := FinishLink(i, into, name);
      case Unlink(d, name) => var r; ghost var k; r, k := Unlink(d, name);
      case LastPut(i) => LastPut(i);
    }
  }

  // The step can be taken, and the directory it writes to is linked.
  predicate Enabled(s: seq<Node>, pending: multiset<nat>, op: Op) {
    match op
    case Create(d, name, kind) => d < |s| && s[d].kind == Dir && kind != Free && Allowed(s, d, kind)
    case StartLink(i) => 0 < i < |s| && s[i].kind != Free && (s[i].kind != Dir ==> s[i].nlink < NLINK_MAX)
    case FinishLink(i, into, name) => i in pending && (into.Some? ==> into.value < |s| && s[into.value].kind == Dir && s[into.value].nlink != 0)
    case Unlink(d, name) => d < |s| && s[d].kind == Dir
    case LastPut(i) => 0 < i < |s|
  }

  // With no link in the making, every count is the number of entries naming the inode, and a free inode has none.
  lemma LinkCountsExact(s: seq<Node>, i: nat)
    requires Inv(s, multiset{}) && 0 < i < |s|
    ensures s[i].nlink == |Refs(s, i)|
    ensures s[i].kind == Free ==> Refs(s, i) == {}
    ensures forall d: nat, k: nat :: (d, k) in Refs(s, i) <==> Names(s, d, k, i)
  {
    assert CountOk(s, multiset{}, i) && NodeOk(s, i);
  }

  // mkdir a; unlink a, while someone stays in it.
  function RemovedInUse(): seq<Node> {
    UnlinkedDir(MadeDir(NewTree(4), ROOTINO, 2, "a", 2), ROOTINO, 2)
  }

  // In the removed directory mkdir makes the root's count wrong at once, creat makes the file's count
  // wrong when the last user has gone.
  lemma UnlinkedParentExample()
    ensures Inv(NewTree(4), multiset{}) && Inv(RemovedInUse(), multiset{}) && RemovedInUse()[2].kind == Dir
    ensures Creatable(RemovedInUse(), 2, 2, "b", 3)
    ensures !Counts(Made(RemovedInUse(), 2, 2, "b", 3, Dir), multiset{})
    ensures Counts(Made(RemovedInUse(), 2, 2, "b", 3, Reg), multiset{})
    ensures !Counts(AfterLastPut(Made(RemovedInUse(), 2, 2, "b", 3, Reg), 2), multiset{})
  {
    hide Counts;
    var s0 := NewTree(4);
    NewTreeInv(4);
    var s1 := MadeDir(s0, ROOTINO, 2, "a", 2);
    MadeKeepsInv(s0, multiset{}, ROOTINO, 2, "a", 2, Dir);
    UnlinkedDirKeepsInv(s1, multiset{}, ROOTINO, 2);
    var s2 := RemovedInUse();
    MadeCountsIff(s2, multiset{}, 2, 2, "b", 3, Dir);
    MadeCountsIff(s2, multiset{}, 2, 2, "b", 3, Reg);
    MadeStaysRightIff(s2, multiset{}, 2, 2, "b", 3, Reg);
  }
}
