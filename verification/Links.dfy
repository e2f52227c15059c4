/** Directory entries and link counts (kernel/fs.c:529-583, kernel/sysfile.c:119-284).

    A directory's contents are its sequence of entries; an entry with inode number 0 is empty.
    Names are what remains after DIRSIZ characters have been kept.  sys_link releases every lock
    between counting the new link and writing its entry; the links counted but not yet written are
    pending. */
module Links {
  const ROOTINO: nat := 1
  const NLINK_MAX: int := 32767       // nlink is a short
  const DOT: string := "."
  const DOTDOT: string := ".."

  datatype Kind = Free | Dir | Reg | Dev

  datatype Dirent = Dirent(inum: nat, name: string)

  datatype Node = Node(kind: Kind, nlink: int, dirents: seq<Dirent>)

  // ---- who names whom ----

  // Entry k of directory d counts towards the links of inode i.
  predicate Names(s: seq<Node>, d: nat, k: nat, i: nat) {
    && d < |s| && s[d].kind == Dir && k < |s[d].dirents| && s[d].dirents[k].inum == i
    && s[d].dirents[k].name != DOT && (s[d].dirents[k].name == DOTDOT ==> s[d].nlink != 0)
  }

  ghost function Refs(s: seq<Node>, i: nat): set<(nat, nat)> {
    set d: nat, k: nat | d < |s| && k < |s[d].dirents| && Names(s, d, k, i) :: (d, k)
  }

  lemma InRefs(s: seq<Node>, d: nat, k: nat, i: nat)
    ensures (d, k) in Refs(s, i) <==> Names(s, d, k, i)
  {
  }

  // ---- the invariant ----

  predicate NodeOk(s: seq<Node>, i: nat)
    requires i < |s|
  {
    var n := s[i];
    match n.kind
    case Free => n.nlink == 0 && n.dirents == []
    case Dir =>
      && 0 <= n.nlink <= NLINK_MAX && |n.dirents| >= 2
      && n.dirents[0] == Dirent(i, DOT) && n.dirents[1].name == DOTDOT && 0 < n.dirents[1].inum < |s|
      && (forall k: nat :: 2 <= k < |n.dirents| ==> Ordinary(n, k))
    case _ => 0 <= n.nlink <= NLINK_MAX && n.dirents == []
  }

  // Entries after the first two are not dots, and a directory without links has none in use.
  predicate Ordinary(n: Node, k: nat)
    requires k < |n.dirents|
  {
    n.dirents[k].inum != 0 ==> n.dirents[k].name != DOT && n.dirents[k].name != DOTDOT && n.nlink != 0
  }

  function Parent(s: seq<Node>, c: nat): nat
    requires c < |s| && s[c].kind == Dir && |s[c].dirents| >= 2
  {
    s[c].dirents[1].inum
  }

  // An entry leads to an allocated inode; if that is a directory, its ".." leads back.
  predicate EntryOk(s: seq<Node>, d: nat, k: nat)
    requires d < |s| && k < |s[d].dirents|
  {
    var i := s[d].dirents[k].inum;
    s[d].kind == Dir && k >= 2 && i != 0 ==>
      && i < |s| && s[i].kind != Free
      && (s[i].kind == Dir ==> i != ROOTINO && s[i].nlink != 0 && |s[i].dirents| >= 2 && Parent(s, i) == d)
  }

  predicate HasEntry(s: seq<Node>, d: nat, c: nat)
    requires d < |s|
  {
    exists k: nat :: 2 <= k < |s[d].dirents| && s[d].dirents[k].inum == c
  }

  // A linked directory has an entry in its parent, which is linked too.
  predicate ParentOk(s: seq<Node>, c: nat)
    requires c < |s|
  {
    s[c].kind == Dir && s[c].nlink != 0 && c != ROOTINO ==>
      && |s[c].dirents| >= 2
      && var p := Parent(s, c);
         p < |s| && s[p].kind == Dir && s[p].nlink != 0 && HasEntry(s, p, c)
  }

  predicate OneEntry(s: seq<Node>, d: nat, k: nat, k': nat)
    requires d < |s| && k < |s[d].dirents| && k' < |s[d].dirents|
  {
    var i := s[d].dirents[k].inum;
    i != 0 && i < |s| && s[i].kind == Dir && s[d].dirents[k'].inum == i ==> k == k'
  }

  // The link count is the number of entries, plus the links being made.
  ghost predicate CountOk(s: seq<Node>, pending: multiset<nat>, i: nat)
    requires i < |s|
  {
    s[i].nlink == |Refs(s, i)| + pending[i]
  }

  ghost predicate PendingOk(s: seq<Node>, pending: multiset<nat>) {
    forall i :: i in pending ==> 0 < i < |s| && (s[i].kind == Reg || s[i].kind == Dev)
  }

  ghost predicate Shape(s: seq<Node>) {
    && ROOTINO < |s| && s[0].kind == Free && s[ROOTINO].kind == Dir && s[ROOTINO].nlink != 0
    && (forall i: nat :: i < |s| ==> NodeOk(s, i))
    && NodeOk(s, ROOTINO) && Parent(s, ROOTINO) == ROOTINO
  }

  ghost predicate Tree(s: seq<Node>) {
    && (forall d: nat, k: nat :: d < |s| && k < |s[d].dirents| ==> EntryOk(s, d, k))
    && (forall c: nat :: c < |s| ==> ParentOk(s, c))
    && (forall d: nat, k: nat, k': nat :: d < |s| && 2 <= k < |s[d].dirents| && 2 <= k' < |s[d].dirents| ==> OneEntry(s, d, k, k'))
  }

  ghost predicate Counts(s: seq<Node>, pending: multiset<nat>) {
    forall i: nat :: 0 < i < |s| ==> CountOk(s, pending, i)
  }

  ghost predicate Inv(s: seq<Node>, pending: multiset<nat>) {
    Shape(s) && Tree(s) && Counts(s, pending) && PendingOk(s, pending)
  }

  // ---- changing an entry ----

  function Put(es: seq<Dirent>, k: nat, e: Dirent): (r: seq<Dirent>)
    requires k <= |es|
    ensures |r| == if k < |es| then |es| else |es| + 1
    ensures forall j: nat :: j < |r| ==> r[j] == if j == k then e else es[j]
  {
    if k < |es| then es[k := e] else es + [e]
  }

  // Slot k of directory d is empty, or just past its end.
  predicate Vacant(s: seq<Node>, d: nat, k: nat) {
    && d < |s| && s[d].kind == Dir && 2 <= k <= |s[d].dirents|
    && (k < |s[d].dirents| ==> s[d].dirents[k].inum == 0)
  }

  function Entered(s: seq<Node>, d: nat, k: nat, e: Dirent): (r: seq<Node>)
    requires d < |s| && k <= |s[d].dirents|
    ensures |r| == |s|
  {
    s[d := s[d].(dirents := Put(s[d].dirents, k, e))]
  }

  // nlink++ on a short.
  function Inc(n: int): int {
    if n == NLINK_MAX then -NLINK_MAX - 1 else n + 1
  }

  // ---- create ----

  // A name that can be entered: dirlookup did not find it, so it is not "." or "..".
  predicate Creatable(s: seq<Node>, d: nat, k: nat, name: string, i: nat) {
    && Vacant(s, d, k) && 0 < i < |s| && s[i].kind == Free
    && name != DOT && name != DOTDOT
  }

  // The directory is still linked, and its count can grow.
  predicate Allowed(s: seq<Node>, d: nat, kind: Kind)
    requires d < |s|
  {
    s[d].nlink != 0 && (kind == Dir ==> s[d].nlink < NLINK_MAX)
  }

  function MadeFile(s: seq<Node>, d: nat, k: nat, name: string, i: nat, kind: Kind): (r: seq<Node>)
    requires Creatable(s, d, k, name, i)
    ensures |r| == |s|
  {
    Entered(s[i := Node(kind, 1, [])], d, k, Dirent(i, name))
  }

  function MadeDir(s: seq<Node>, d: nat, k: nat, name: string, i: nat): (r: seq<Node>)
    requires Creatable(s, d, k, name, i)
    ensures |r| == |s|
  {
    var s1 := s[i := Node(Dir, 1, [Dirent(i, DOT), Dirent(d, DOTDOT)])];
    var s2 := s1[d := s1[d].(nlink := Inc(s1[d].nlink))];
    Entered(s2, d, k, Dirent(i, name))
  }

  function Made(s: seq<Node>, d: nat, k: nat, name: string, i: nat, kind: Kind): (r: seq<Node>)
    requires Creatable(s, d, k, name, i)
    ensures |r| == |s|
  {
    if kind == Dir then MadeDir(s, d, k, name, i) else MadeFile(s, d, k, name, i, kind)
  }

  lemma MadeShape(s: seq<Node>, pending: multiset<nat>, d: nat, k: nat, name: string, i: nat, kind: Kind)
    requires Inv(s, pending) && Creatable(s, d, k, name, i) && kind != Free
    requires Allowed(s, d, kind)
    ensures Shape(Made(s, d, k, name, i, kind))
  {
    hide Made, Put, Tree, Counts;
    var s' := Made(s, d, k, name, i, kind);
    MadeNodes(s, d, k, name, i, kind);
    forall j: nat | j < |s'|
      ensures NodeOk(s', j)
    {
      assert NodeOk(s, j);
      if j == d {
        forall e: nat | 2 <= e < |s'[j].dirents|
          ensures Ordinary(s'[j], e)
        {
          if e != k { assert Ordinary(s[j], e); }
        }
      }
    }
  }

  // Nothing names a free inode.
  lemma FreeUnnamed(s: seq<Node>, pending: multiset<nat>, i: nat, d: nat, k: nat)
    requires Shape(s) && Counts(s, pending) && 0 < i < |s| && s[i].nlink == 0
    ensures Refs(s, i) == {} && pending[i] == 0
    ensures !Names(s, d, k, i)
  {
    assert CountOk(s, pending, i);
    InRefs(s, d, k, i);
  }

  lemma EntryElsewhere(s: seq<Node>, pending: multiset<nat>, i: nat, d: nat, k: nat)
    requires Inv(s, pending) && 0 < i < |s| && s[i].nlink == 0
    requires d < |s| && s[d].kind == Dir && 2 <= k < |s[d].dirents|
    ensures s[d].dirents[k].inum != i
  {
    assert NodeOk(s, d) && Ordinary(s[d], k);
    FreeUnnamed(s, pending, i, d, k);
  }

  // The only nodes that differ are the new one and its directory.
  lemma MadeNodes(s: seq<Node>, d: nat, k: nat, name: string, i: nat, kind: Kind)
    requires Creatable(s, d, k, name, i) && (kind == Dir ==> s[d].nlink < NLINK_MAX)
    ensures var s' := Made(s, d, k, name, i, kind);
      && s'[i] == Node(kind, 1, if kind == Dir then [Dirent(i, DOT), Dirent(d, DOTDOT)] else [])
      && s'[d] == Node(Dir, s[d].nlink + (if kind == Dir then 1 else 0), Put(s[d].dirents, k, Dirent(i, name)))
      && (forall e: nat :: e < |s| && e != i && e != d ==> s'[e] == s[e])
  {
  }

  lemma MadeEntry(s: seq<Node>, pending: multiset<nat>, d: nat, k: nat, name: string, i: nat, kind: Kind, e: nat, m: nat)
    requires Inv(s, pending) && Creatable(s, d, k, name, i) && kind != Free && Allowed(s, d, kind)
    requires e < |s| && m < |Made(s, d, k, name, i, kind)[e].dirents|
    ensures EntryOk(Made(s, d, k, name, i, kind), e, m)
  {
    hide Made, Put;
    MadeNodes(s, d, k, name, i, kind);
    assert NodeOk(s, i) && NodeOk(s, d) && NodeOk(s, e);
    if e != i && !(e == d && m == k) {
      assert EntryOk(s, e, m);
      if s[e].kind == Dir && m >= 2 { EntryElsewhere(s, pending, i, e, m); }
    }
  }

  lemma MadeParent(s: seq<Node>, pending: multiset<nat>, d: nat, k: nat, name: string, i: nat, kind: Kind, c: nat)
    requires Inv(s, pending) && Creatable(s, d, k, name, i) && kind != Free && Allowed(s, d, kind)
    requires c < |s|
    ensures ParentOk(Made(s, d, k, name, i, kind), c)
  {
    hide Made, Put;
    var s' := Made(s, d, k, name, i, kind);
    MadeNodes(s, d, k, name, i, kind);
    assert ParentOk(s, c) && NodeOk(s, c) && NodeOk(s, d);
    if c == i {
      assert s'[d].dirents[k].inum == i;
    } else if s[c].kind == Dir && s[c].nlink != 0 && c != ROOTINO {
      var p := Parent(s, c);
      var m: nat :| 2 <= m < |s[p].dirents| && s[p].dirents[m].inum == c;
      assert s'[p].dirents[m].inum == c;
    }
  }

  lemma MadeUnique(s: seq<Node>, pending: multiset<nat>, d: nat, k: nat, name: string, i: nat, kind: Kind, e: nat, m: nat, m': nat)
    requires Inv(s, pending) && Creatable(s, d, k, name, i) && kind != Free && Allowed(s, d, kind)
    requires e < |s| && 2 <= m < |Made(s, d, k, name, i, kind)[e].dirents| && 2 <= m' < |Made(s, d, k, name, i, kind)[e].dirents|
    ensures OneEntry(Made(s, d, k, name, i, kind), e, m, m')
  {
    hide Made, Put;
    MadeNodes(s, d, k, name, i, kind);
    assert NodeOk(s, e) && NodeOk(s, i);
    if e != i {
      if m < |s[e].dirents| && m' < |s[e].dirents| { assert OneEntry(s, e, m, m'); }
      if s[e].kind == Dir && m < |s[e].dirents| { EntryElsewhere(s, pending, i, e, m); }
      if s[e].kind == Dir && m' < |s[e].dirents| { EntryElsewhere(s, pending, i, e, m'); }
    }
  }

  lemma MadeTree(s: seq<Node>, pending: multiset<nat>, d: nat, k: nat, name: string, i: nat, kind: Kind)
    requires Inv(s, pending) && Creatable(s, d, k, name, i) && kind != Free && Allowed(s, d, kind)
    ensures Tree(Made(s, d, k, name, i, kind))
  {
    hide Made, Inv, EntryOk, ParentOk, OneEntry;
    var s' := Made(s, d, k, name, i, kind);
    forall e: nat, m: nat | e < |s'| && m < |s'[e].dirents|
      ensures EntryOk(s', e, m)
    {
      MadeEntry(s, pending, d, k, name, i, kind, e, m);
    }
    forall c: nat | c < |s'|
      ensures ParentOk(s', c)
    {
      MadeParent(s, pending, d, k, name, i, kind, c);
    }
    forall e: nat, m: nat, m': nat | e < |s'| && 2 <= m < |s'[e].dirents| && 2 <= m' < |s'[e].dirents|
      ensures OneEntry(s', e, m, m')
    {
      MadeUnique(s, pending, d, k, name, i, kind, e, m, m');
    }
  }

  lemma MadeNames(s: seq<Node>, pending: multiset<nat>, d: nat, k: nat, name: string, i: nat, kind: Kind, e: nat, m: nat, j: nat)
    requires Inv(s, pending) && Creatable(s, d, k, name, i) && kind != Free
    requires (kind == Dir ==> Allowed(s, d, kind)) && 0 < j < |s|
    ensures Names(Made(s, d, k, name, i, kind), e, m, j) <==>
              || Names(s, e, m, j)
              || (j == i && e == d && m == k)
              || (kind == Dir && j == d && e == i && m == 1)
  {
    hide Made, Put, Tree, Counts;
    MadeNodes(s, d, k, name, i, kind);
    assert NodeOk(s, i) && NodeOk(s, d);
  }

  lemma MadeCounts(s: seq<Node>, pending: multiset<nat>, d: nat, k: nat, name: string, i: nat, kind: Kind)
    requires Inv(s, pending) && Creatable(s, d, k, name, i) && kind != Free
    requires kind == Dir ==> Allowed(s, d, kind)
    ensures Counts(Made(s, d, k, name, i, kind), pending)
  {
    hide Made, Names;
    var s' := Made(s, d, k, name, i, kind);
    forall j: nat | 0 < j < |s'|
      ensures CountOk(s', pending, j)
    {
      assert CountOk(s, pending, j) && NodeOk(s, i);
      var more: set<(nat, nat)> := if j == i then {(d, k)} else if kind == Dir && j == d then {(i, 1)} else {};
      forall e: nat, m: nat
        ensures (e, m) in Refs(s', j) <==> (e, m) in Refs(s, j) + more
      {
        MadeNames(s, pending, d, k, name, i, kind, e, m, j);
        InRefs(s, e, m, j);
        InRefs(s', e, m, j);
      }
      assert Refs(s', j) == Refs(s, j) + more;
      MadeLinks(s, pending, d, k, name, i, kind, j);
    }
  }

  lemma MadeLinks(s: seq<Node>, pending: multiset<nat>, d: nat, k: nat, name: string, i: nat, kind: Kind, j: nat)
    requires Inv(s, pending) && Creatable(s, d, k, name, i) && kind != Free
    requires (kind == Dir ==> Allowed(s, d, kind)) && 0 < j < |s|
    ensures Made(s, d, k, name, i, kind)[j].nlink == s[j].nlink + if j == i || (kind == Dir && j == d) then 1 else 0
    ensures (d, k) !in Refs(s, i) && (i, 1) !in Refs(s, d)
  {
    assert NodeOk(s, i) && NodeOk(s, d);
    InRefs(s, d, k, i);
    InRefs(s, i, 1, d);
  }

  lemma MadeKeepsInv(s: seq<Node>, pending: multiset<nat>, d: nat, k: nat, name: string, i: nat, kind: Kind)
    requires Inv(s, pending) && Creatable(s, d, k, name, i) && kind != Free
    requires Allowed(s, d, kind)
    ensures Inv(Made(s, d, k, name, i, kind), pending)
  {
    MadeShape(s, pending, d, k, name, i, kind);
    MadeTree(s, pending, d, k, name, i, kind);
    MadeCounts(s, pending, d, k, name, i, kind);
    FreeUnnamed(s, pending, i, d, k) by { assert NodeOk(s, i); }
  }

  lemma RevivedNames(s: seq<Node>, pending: multiset<nat>, d: nat, k: nat, name: string, i: nat, e: nat, m: nat)
    requires Inv(s, pending) && Creatable(s, d, k, name, i) && s[d].nlink == 0 && NodeOk(s, d)
    ensures var p := Parent(s, d);
      Names(Made(s, d, k, name, i, Dir), e, m, p) <==>
        || Names(s, e, m, p) || (e == d && m == 1)
        || (p == i && e == d && m == k) || (p == d && e == i && m == 1)
  {
    hide Made, Put, Tree, Counts;
    MadeNodes(s, d, k, name, i, Dir);
    assert NodeOk(s, i);
    if e == d && 2 <= m < |s[d].dirents| { assert Ordinary(s[d], m); }
  }

  lemma NotBefore(s: seq<Node>, d: nat, k: nat, i: nat, p: nat)
    requires d < |s| && i < |s| && NodeOk(s, d) && NodeOk(s, i) && Vacant(s, d, k) && s[i].kind == Free && s[d].nlink == 0 && p != 0
    ensures !Names(s, d, 1, p) && !Names(s, d, k, p) && !Names(s, i, 1, p)
  {
  }

  // A directory given a link again counts once more towards its old parent.
  lemma RevivedParent(s: seq<Node>, pending: multiset<nat>, d: nat, k: nat, name: string, i: nat)
    requires Inv(s, pending) && Creatable(s, d, k, name, i) && s[d].nlink == 0
    ensures !Counts(Made(s, d, k, name, i, Dir), pending)
  {
    hide Made, Put, Tree, Names;
    var s' := Made(s, d, k, name, i, Dir);
    assert NodeOk(s, d) && NodeOk(s, i);
    MadeNodes(s, d, k, name, i, Dir);
    var p := Parent(s, d);
    var more: set<(nat, nat)> := {(d, 1)} + if p == i then {(d, k)} else if p == d then {(i, 1)} else {};
    forall e: nat, m: nat
      ensures (e, m) in Refs(s', p) <==> (e, m) in Refs(s, p) + more
    {
      InRefs(s, e, m, p);
      InRefs(s', e, m, p);
      RevivedNames(s, pending, d, k, name, i, e, m);
    }
    assert Refs(s', p) == Refs(s, p) + more;
    InRefs(s, d, 1, p);
    InRefs(s, d, k, p);
    InRefs(s, i, 1, p);
    NotBefore(s, d, k, i, p);
    assert CountOk(s, pending, p);
    assert !CountOk(s', pending, p);
  }

  // Past the range of nlink the directory's count becomes negative.
  lemma OverflowBreaksCount(s: seq<Node>, pending: multiset<nat>, d: nat, k: nat, name: string, i: nat)
    requires Inv(s, pending) && Creatable(s, d, k, name, i) && s[d].nlink == NLINK_MAX
    ensures !Counts(Made(s, d, k, name, i, Dir), pending)
  {
    assert NodeOk(s, d) && NodeOk(s, i);
    assert !CountOk(Made(s, d, k, name, i, Dir), pending, d);
  }

  // Right after create the counts are right, unless a directory was made in one that is no longer linked or full of links.
  lemma MadeCountsIff(s: seq<Node>, pending: multiset<nat>, d: nat, k: nat, name: string, i: nat, kind: Kind)
    requires Inv(s, pending) && Creatable(s, d, k, name, i) && kind != Free
    ensures Counts(Made(s, d, k, name, i, kind), pending) <==> kind != Dir || Allowed(s, d, Dir)
  {
    hide Made, Counts, Tree;
    assert NodeOk(s, d);
    if kind != Dir || Allowed(s, d, Dir) {
      MadeCounts(s, pending, d, k, name, i, kind);
    } else if s[d].nlink == 0 {
      RevivedParent(s, pending, d, k, name, i);
    } else {
      OverflowBreaksCount(s, pending, d, k, name, i);
    }
  }
}
