/** The storage allocator of user/umalloc.c.

    Addresses count units of sizeof(Header).  The free list is circular through s.ptr; its
    lowest element is the static header `base`, which lies below the heap and has size 0. */
module UserMalloc {
  import opened Blocks

  datatype Header = Header(ptr: int, size: int)

  const NULL: int := 0
  const BASE: int := 1
  const MIN_UNITS: nat := 4096      // morecore asks sbrk for at least this much
  const UNIT: nat := 16             // sizeof(Header)
  const UINT: nat := 0x1_0000_0000  // values of a uint

  function Next(l: seq<int>, i: int): int
    requires 0 <= i < |l|
  {
    if i + 1 < |l| then l[i + 1] else l[0]
  }

  // Element i of the free list l: linked to its successor, and separated from it by at least a unit.
  predicate NodeOk(m: map<int, Header>, l: seq<int>, i: int)
    requires 0 <= i < |l|
  {
    && l[i] in m && m[l[i]].ptr == Next(l, i)
    && (if i == 0 then l[0] == BASE && m[BASE].size == 0 else m[l[i]].size > 0)
    && (i + 1 < |l| ==> l[i] + m[l[i]].size < l[i + 1])
  }

  // l is the free list from base on: circular, in address order, without overlaps, fully coalesced.
  ghost predicate FreeList(m: map<int, Header>, l: seq<int>) {
    |l| > 0 && forall i :: 0 <= i < |l| ==> NodeOk(m, l, i)
  }

  // The block at a owns exactly its own units.
  ghost predicate Owns(m: map<int, Header>, owner: map<int, int>, a: int) {
    a in m && forall x :: a <= x < a + m[a].size ==> x in owner && owner[x] == a
  }

  // owner says which block each unit of the heap belongs to.  The blocks are the members of l
  // (base aside) and the live blocks, so no two blocks share a unit and no unit is lost.
  ghost predicate Tiled(m: map<int, Header>, l: seq<int>, live: map<int, int>, owner: map<int, int>) {
    && (forall i :: 1 <= i < |l| ==> Owns(m, owner, l[i]))
    && (forall a :: a in live ==> Owns(m, owner, a) && a > BASE && m[a].size == live[a] && live[a] > 0 && a !in l)
    && (forall x :: x in owner ==> x > BASE && owner[x] in m && owner[x] <= x < owner[x] + m[owner[x]].size)
    && (forall x :: x in owner ==> owner[x] in live || owner[x] in l)
  }

  lemma {:induction false} Ascending(m: map<int, Header>, l: seq<int>, i: nat, k: nat)
    requires FreeList(m, l) && i < k < |l|
    ensures l[i] in m && l[i] + m[l[i]].size < l[k]
  {
    assert NodeOk(m, l, i) && NodeOk(m, l, k - 1);
    if i < k - 1 {
      Ascending(m, l, i, k - 1);
    }
  }

  lemma AboveBase(m: map<int, Header>, l: seq<int>, i: nat)
    requires FreeList(m, l) && i < |l|
    ensures l[0] == BASE && l[i] >= BASE && (i > 0 ==> l[i] > BASE)
  {
    assert NodeOk(m, l, 0);
    if i > 0 { Ascending(m, l, 0, i); }
  }

  // ---------- free ----------

  // l[j] is the last element below bp.
  predicate Precedes(l: seq<int>, j: int, bp: int) {
    0 <= j < |l| && l[j] < bp && (j + 1 < |l| ==> bp < l[j + 1])
  }

  // The header of bp once it has absorbed, or been linked to, the element after l[j].
  function Joined(m: map<int, Header>, l: seq<int>, j: int, bp: int): Header
    requires 0 <= j < |l| && bp in m && Next(l, j) in m
  {
    var nx := Next(l, j);
    if bp + m[bp].size == nx then Header(m[nx].ptr, m[bp].size + m[nx].size) else Header(nx, m[bp].size)
  }

  // The block put back between its neighbours never overlaps them.
  lemma Fits(m: map<int, Header>, l: seq<int>, live: map<int, int>, owner: map<int, int>, j: int, bp: int)
    requires FreeList(m, l) && Tiled(m, l, live, owner) && bp in live && Precedes(l, j, bp)
    ensures l[j] in m && l[j] + m[l[j]].size <= bp
    ensures j + 1 < |l| ==> l[j + 1] in m && bp + m[bp].size <= l[j + 1] && m[l[j + 1]].size > 0
    ensures bp + m[bp].size == Next(l, j) ==> j + 1 < |l|
  {
    assert NodeOk(m, l, 0) && NodeOk(m, l, j);
    assert owner[bp] == bp;
    if j > 0 { assert Owns(m, owner, l[j]); }
    if j + 1 < |l| {
      assert NodeOk(m, l, j + 1) && Owns(m, owner, l[j + 1]);
      assert owner[l[j + 1]] == l[j + 1];
    }
  }

  datatype Layout = Layout(m: map<int, Header>, l: seq<int>, owner: map<int, int>)

  // What free leaves when bp goes back after l[j].
  function Released(m: map<int, Header>, l: seq<int>, owner: map<int, int>, j: int, bp: int): Layout
    requires 0 <= j < |l| && l[j] in m && bp in m && Next(l, j) in m
  {
    var p := l[j];
    var joined := Joined(m, l, j, bp);
    var rest := if bp + m[bp].size == Next(l, j) && j + 1 < |l| then l[j + 2..] else l[j + 1..];
    var back := p + m[p].size == bp;
    Layout(
      if back then m[bp := joined][p := Header(joined.ptr, m[p].size + joined.size)]
      else m[bp := joined][p := m[p].(ptr := bp)],
      l[..j + 1] + (if back then [] else [bp]) + rest,
      map x | x in owner :: if bp <= x < bp + joined.size then (if back then p else bp) else owner[x])
  }

  lemma ReleasedIsFreeList(m: map<int, Header>, l: seq<int>, live: map<int, int>, owner: map<int, int>, j: int, bp: int)
    requires FreeList(m, l) && Tiled(m, l, live, owner) && bp in live && Precedes(l, j, bp)
    ensures l[j] in m && Next(l, j) in m
    ensures var r := Released(m, l, owner, j, bp); FreeList(r.m, r.l)
  {
    Fits(m, l, live, owner, j, bp);
    assert NodeOk(m, l, j) && NodeOk(m, l, 0);
    var r := Released(m, l, owner, j, bp);
    AboveBase(m, l, j);
    forall i | 0 <= i < |r.l|
      ensures NodeOk(r.m, r.l, i)
    {
      ReleasedNode(m, l, live, owner, j, bp, i);
    }
  }

  lemma ReleasedNode(m: map<int, Header>, l: seq<int>, live: map<int, int>, owner: map<int, int>, j: int, bp: int, i: int)
    requires FreeList(m, l) && Tiled(m, l, live, owner) && bp in live && Precedes(l, j, bp)
    requires l[j] in m && Next(l, j) in m && 0 <= i < |Released(m, l, owner, j, bp).l|
    ensures var r := Released(m, l, owner, j, bp); NodeOk(r.m, r.l, i)
  {
    var r := Released(m, l, owner, j, bp);
    if i < j {
      assert NodeOk(m, l, i);
      Ascending(m, l, i, j);
    } else if i == j || r.l[i] == bp {
      Fits(m, l, live, owner, j, bp);
      assert NodeOk(m, l, j) && NodeOk(m, l, 0);
      if j + 1 < |l| { assert NodeOk(m, l, j + 1); }
    } else {
      ReleasedLater(m, l, live, owner, j, bp, i);
    }
  }

  lemma ReleasedLater(m: map<int, Header>, l: seq<int>, live: map<int, int>, owner: map<int, int>, j: int, bp: int, i: int)
    requires FreeList(m, l) && Tiled(m, l, live, owner) && bp in live && Precedes(l, j, bp)
    requires l[j] in m && Next(l, j) in m && j < i < |Released(m, l, owner, j, bp).l|
    requires Released(m, l, owner, j, bp).l[i] != bp
    ensures var r := Released(m, l, owner, j, bp); NodeOk(r.m, r.l, i)
  {
    var r := Released(m, l, owner, j, bp);
    var k := i + |l| - |r.l|;
    assert r.l[i] == l[k];
    assert NodeOk(m, l, k);
    Ascending(m, l, j, k);
  }

  // Who owns what after a release: the units of bp, and nothing else, have become free.
  lemma ReleasedIsTiled(m: map<int, Header>, l: seq<int>, live: map<int, int>, owner: map<int, int>, j: int, bp: int)
    requires FreeList(m, l) && Tiled(m, l, live, owner) && bp in live && Precedes(l, j, bp)
    requires l[j] in m && Next(l, j) in m
    ensures var r := Released(m, l, owner, j, bp);
      && Tiled(r.m, r.l, live - {bp}, r.owner)
      && r.owner.Keys == owner.Keys
      && forall x :: x in owner ==> (r.owner[x] in live - {bp} <==> owner[x] in live && owner[x] != bp)
  {
    var r := Released(m, l, owner, j, bp);
    forall i | 1 <= i < |r.l|
      ensures Owns(r.m, r.owner, r.l[i])
    {
      ReleasedOwns(m, l, live, owner, j, bp, i);
    }
    forall a | a in live - {bp}
      ensures Owns(r.m, r.owner, a) && r.m[a].size == live[a] && a !in r.l
    {
      LiveKept(m, l, live, owner, j, bp, a);
    }
    forall x | x in owner
      ensures r.owner[x] in r.m && r.owner[x] <= x < r.owner[x] + r.m[r.owner[x]].size
      ensures r.owner[x] in live - {bp} || r.owner[x] in r.l
      ensures r.owner[x] in live - {bp} <==> owner[x] in live && owner[x] != bp
    {
      UnitKept(m, l, live, owner, j, bp, x);
    }
  }

  lemma ReleasedOwns(m: map<int, Header>, l: seq<int>, live: map<int, int>, owner: map<int, int>, j: int, bp: int, i: int)
    requires FreeList(m, l) && Tiled(m, l, live, owner) && bp in live && Precedes(l, j, bp)
    requires l[j] in m && Next(l, j) in m && 1 <= i < |Released(m, l, owner, j, bp).l|
    ensures var r := Released(m, l, owner, j, bp); Owns(r.m, r.owner, r.l[i])
  {
    Fits(m, l, live, owner, j, bp);
    var r := Released(m, l, owner, j, bp);
    JoinedUnits(m, l, live, owner, j, bp);
    assert NodeOk(m, l, j) && Owns(m, owner, bp);
    if j > 0 { assert Owns(m, owner, l[j]); }
    if j + 1 < |l| { assert Owns(m, owner, l[j + 1]); }
    if i < j {
      Ascending(m, l, i, j);
      assert Owns(m, owner, l[i]);
    } else if i > j && r.l[i] != bp {
      var k := i + |l| - |r.l|;
      assert r.l[i] == l[k] && Owns(m, owner, l[k]);
      if j + 1 < k { Ascending(m, l, j + 1, k); }
    }
  }

  // The units that change hands are those of bp and of the element it absorbs.
  lemma JoinedUnits(m: map<int, Header>, l: seq<int>, live: map<int, int>, owner: map<int, int>, j: int, bp: int)
    requires FreeList(m, l) && Tiled(m, l, live, owner) && bp in live && Precedes(l, j, bp)
    requires l[j] in m && Next(l, j) in m
    ensures forall x :: x in owner ==>
      (bp <= x < bp + Joined(m, l, j, bp).size <==> owner[x] == bp || (bp + m[bp].size == Next(l, j) && owner[x] == Next(l, j)))
  {
    Fits(m, l, live, owner, j, bp);
    assert Owns(m, owner, bp);
    var nx := Next(l, j);
    if bp + m[bp].size == nx {
      assert Owns(m, owner, nx);
      forall x | x in owner
        ensures bp <= x < nx + m[nx].size <==> owner[x] == bp || owner[x] == nx
      {
        assert bp <= x < nx ==> owner[x] == bp;
        assert nx <= x < nx + m[nx].size ==> owner[x] == nx;
      }
    }
  }

  lemma LiveKept(m: map<int, Header>, l: seq<int>, live: map<int, int>, owner: map<int, int>, j: int, bp: int, a: int)
    requires FreeList(m, l) && Tiled(m, l, live, owner) && bp in live && Precedes(l, j, bp)
    requires l[j] in m && Next(l, j) in m && a in live && a != bp
    ensures var r := Released(m, l, owner, j, bp); Owns(r.m, r.owner, a) && r.m[a].size == live[a] && a !in r.l
  {
    JoinedUnits(m, l, live, owner, j, bp);
    assert Owns(m, owner, a);
    assert forall x :: x in Released(m, l, owner, j, bp).l ==> x == bp || x in l;
    assert Next(l, j) in l;
  }

  lemma UnitKept(m: map<int, Header>, l: seq<int>, live: map<int, int>, owner: map<int, int>, j: int, bp: int, x: int)
    requires FreeList(m, l) && Tiled(m, l, live, owner) && bp in live && Precedes(l, j, bp)
    requires l[j] in m && Next(l, j) in m && x in owner
    ensures var r := Released(m, l, owner, j, bp);
      && r.owner[x] in r.m && r.owner[x] <= x < r.owner[x] + r.m[r.owner[x]].size
      && (r.owner[x] in live - {bp} || r.owner[x] in r.l)
      && (r.owner[x] in live - {bp} <==> owner[x] in live && owner[x] != bp)
  {
    JoinedUnits(m, l, live, owner, j, bp);
    Fits(m, l, live, owner, j, bp);
    var r := Released(m, l, owner, j, bp);
    assert NodeOk(m, l, j) && l[j] in l && Next(l, j) in l;
    assert r.l[j] == l[j] && (l[j] + m[l[j]].size != bp ==> r.l[j + 1] == bp);
    if owner[x] == bp || (bp + m[bp].size == Next(l, j) && owner[x] == Next(l, j)) {
    } else if owner[x] in l {
      StaysListed(m, l, owner, j, bp, owner[x]);
    }
  }

  lemma StaysListed(m: map<int, Header>, l: seq<int>, owner: map<int, int>, j: int, bp: int, a: int)
    requires 0 <= j < |l| && l[j] in m && bp in m && Next(l, j) in m && a in l
    requires bp + m[bp].size == Next(l, j) ==> j + 1 < |l| && a != Next(l, j)
    ensures a in Released(m, l, owner, j, bp).l
  {
    var r := Released(m, l, owner, j, bp);
    var k :| 0 <= k < |l| && l[k] == a;
    assert r.l[if k <= j then k else k + |r.l| - |l|] == a;
  }

  // ---------- malloc ----------

  // The element l[j] leaves the list as a whole.
  function Unlinked(m: map<int, Header>, l: seq<int>, j: int): (map<int, Header>, seq<int>)
    requires 1 <= j < |l| && l[j] in m && l[j - 1] in m
  {
    (m[l[j - 1] := m[l[j - 1]].(ptr := m[l[j]].ptr)], l[..j] + l[j + 1..])
  }

  lemma UnlinkedIsFreeList(m: map<int, Header>, l: seq<int>, j: int)
    requires FreeList(m, l) && 1 <= j < |l|
    ensures l[j] in m && l[j - 1] in m
    ensures var (m', l') := Unlinked(m, l, j); FreeList(m', l') && l[j] !in l'
  {
    assert NodeOk(m, l, j) && NodeOk(m, l, j - 1);
    var (m', l') := Unlinked(m, l, j);
    forall i | 0 <= i < |l'|
      ensures NodeOk(m', l', i) && l'[i] != l[j]
    {
      UnlinkedNode(m, l, j, i);
      assert NodeOk(m, l, i);
      if i < j { Ascending(m, l, i, j); } else { Ascending(m, l, j, i + 1); }
    }
  }

  lemma UnlinkedIsTiled(m: map<int, Header>, l: seq<int>, live: map<int, int>, owner: map<int, int>, j: int)
    requires FreeList(m, l) && Tiled(m, l, live, owner) && 1 <= j < |l|
    ensures l[j] in m && l[j - 1] in m && l[j] !in live
    ensures var (m', l') := Unlinked(m, l, j); Tiled(m', l', live[l[j] := m[l[j]].size], owner)
  {
    UnlinkedIsFreeList(m, l, j);
    var (m', l') := Unlinked(m, l, j);
    assert l[j] in l && l[j - 1] in l && NodeOk(m, l, j);
    AboveBase(m, l, j);
    forall i | 1 <= i < |l'|
      ensures Owns(m', owner, l'[i])
    {
      assert Owns(m, owner, l[if i < j then i else i + 1]);
    }
    assert Owns(m, owner, l[j]);
    forall x | x in owner
      ensures owner[x] in live[l[j] := m[l[j]].size] || owner[x] in l'
    {
      if owner[x] in l && owner[x] != l[j] {
        var k :| 0 <= k < |l| && l[k] == owner[x];
        assert l'[if k < j then k else k - 1] == owner[x];
      }
    }
  }

  lemma UnlinkedNode(m: map<int, Header>, l: seq<int>, j: int, i: int)
    requires FreeList(m, l) && 1 <= j < |l| && 0 <= i < |l| - 1
    requires l[j] in m && l[j - 1] in m
    ensures var (m', l') := Unlinked(m, l, j); NodeOk(m', l', i)
  {
    assert NodeOk(m, l, 0) && NodeOk(m, l, j - 1) && NodeOk(m, l, j);
    if i < j - 1 {
      assert NodeOk(m, l, i);
      Ascending(m, l, i, j - 1);
    } else if i >= j {
      assert NodeOk(m, l, i + 1);
      Ascending(m, l, j - 1, i + 1);
    }
  }

  // The last n units of element l[j] become a block of their own.
  function Split(m: map<int, Header>, owner: map<int, int>, p: int, n: int): (map<int, Header>, int, map<int, int>)
    requires p in m
  {
    var q := p + m[p].size - n;
    var stale := if q in m then m[q].ptr else NULL;
    (m[p := m[p].(size := m[p].size - n)][q := Header(stale, n)], q,
     map x | x in owner :: if q <= x < q + n then q else owner[x])
  }

  lemma SplitIsFreeList(m: map<int, Header>, l: seq<int>, owner: map<int, int>, j: int, n: int)
    requires FreeList(m, l) && 1 <= j < |l| && l[j] in m && 0 < n < m[l[j]].size
    ensures var (m', q, owner') := Split(m, owner, l[j], n); FreeList(m', l) && q !in l
  {
    var (m', q, owner') := Split(m, owner, l[j], n);
    forall i | 0 <= i < |l|
      ensures l[i] != q && NodeOk(m', l, i)
    {
      assert NodeOk(m, l, i);
      if i < j { Ascending(m, l, i, j); } else if i > j { Ascending(m, l, j, i); }
    }
  }

  lemma SplitOwns(m: map<int, Header>, l: seq<int>, live: map<int, int>, owner: map<int, int>, j: int, n: int, a: int)
    requires FreeList(m, l) && Tiled(m, l, live, owner) && 1 <= j < |l|
    requires l[j] in m && 0 < n < m[l[j]].size && (a in live || (a in l && a != BASE))
    ensures var (m', q, owner') := Split(m, owner, l[j], n); a != q && Owns(m', owner', a)
  {
    var (m', q, owner') := Split(m, owner, l[j], n);
    SplitIsFreeList(m, l, owner, j, n);
    assert Owns(m, owner, l[j]) && owner[q] == l[j] && l[j] in l;
    if a in l {
      var i :| 0 <= i < |l| && l[i] == a;
      assert NodeOk(m, l, 0);
      assert Owns(m, owner, l[i]);
    } else {
      assert Owns(m, owner, a) && owner[a] == a;
    }
  }

  lemma SplitIsTiled(m: map<int, Header>, l: seq<int>, live: map<int, int>, owner: map<int, int>, j: int, n: int)
    requires FreeList(m, l) && Tiled(m, l, live, owner) && 1 <= j < |l|
    requires l[j] in m && 0 < n < m[l[j]].size
    ensures var (m', q, owner') := Split(m, owner, l[j], n);
      q !in live && Tiled(m', l, live[q := n], owner') && owner'.Keys == owner.Keys
  {
    var (m', q, owner') := Split(m, owner, l[j], n);
    SplitIsFreeList(m, l, owner, j, n);
    AboveBase(m, l, j);
    assert Owns(m, owner, l[j]) && l[j] in l;
    forall i | 1 <= i < |l|
      ensures Owns(m', owner', l[i])
    {
      AboveBase(m, l, i);
      SplitOwns(m, l, live, owner, j, n, l[i]);
    }
    forall a | a in live
      ensures a != q && Owns(m', owner', a)
    {
      SplitOwns(m, l, live, owner, j, n, a);
    }
    assert Owns(m', owner', q);
  }

  // ---------- going round the list ----------

  function Ring(l: seq<int>, i: int): int
    requires |l| > 0 && 0 <= i < 2 * |l|
  {
    if i < |l| then l[i] else l[i - |l|]
  }

  lemma RingNext(m: map<int, Header>, l: seq<int>, i: nat)
    requires FreeList(m, l) && i < 2 * |l| - 1
    ensures Ring(l, i) in m && m[Ring(l, i)].ptr == Ring(l, i + 1)
  {
    assert NodeOk(m, l, if i < |l| then i else i - |l|);
  }

  lemma RingInside(m: map<int, Header>, l: seq<int>, i: nat)
    requires FreeList(m, l) && i < 2 * |l|
    ensures Ring(l, i) in m && Ring(l, i) in l && Ring(l, i) >= BASE
  {
    var k := if i < |l| then i else i - |l|;
    assert NodeOk(m, l, k);
    AboveBase(m, l, k);
  }

  // p is on the list, behind prevp, and has at least n units.
  ghost predicate IsFit(m: map<int, Header>, l: seq<int>, prevp: int, p: int, n: nat) {
    prevp in l && prevp in m && p in l && p in m && m[prevp].ptr == p && m[p].size >= n
  }

  lemma ListDistinct(m: map<int, Header>, l: seq<int>, i: nat, k: nat)
    requires FreeList(m, l) && i < k < |l|
    ensures l[i] != l[k]
  {
    assert NodeOk(m, l, i);
    Ascending(m, l, i, k);
  }

  // Going round from l[f], one is back at l[f] after |l| steps and not before.
  lemma RingReturns(m: map<int, Header>, l: seq<int>, f: nat, d: nat)
    requires FreeList(m, l) && f < |l| && 1 <= d <= |l|
    ensures Ring(l, f + d) == l[f] <==> d == |l|
  {
    if d < |l| {
      var k := if f + d < |l| then f + d else f + d - |l|;
      if f < k { ListDistinct(m, l, f, k); } else { ListDistinct(m, l, k, f); }
    }
  }

  lemma {:induction false} PredecessorExists(m: map<int, Header>, l: seq<int>, bp: int, n: nat) returns (j: nat)
    requires FreeList(m, l) && bp > BASE && bp !in l && n < |l| && (n + 1 < |l| ==> bp < l[n + 1])
    ensures Precedes(l, j, bp)
  {
    assert NodeOk(m, l, 0);
    if l[n] < bp {
      j := n;
    } else {
      j := PredecessorExists(m, l, bp, n - 1);
    }
  }

  // What morecore asks for.
  function Rounded(nu: nat): (r: nat)
    ensures r >= nu && r >= 4096 && (r == nu || r == 4096)
  {
    if nu < MIN_UNITS then MIN_UNITS else nu
  }

  // The n units from a on.
  function Units(a: int, n: nat): (r: set<int>)
    ensures forall x :: x in r <==> a <= x < a + n
  {
    if n == 0 then {} else Units(a, n - 1) + {a + n - 1}
  }

  /* Full coalescing, seen from the units: free units that follow each other are in one block. */
  lemma {:induction false} NeighboursShareBlock(m: map<int, Header>, l: seq<int>, live: map<int, int>, owner: map<int, int>, x: int, y: int)
    requires FreeList(m, l) && Tiled(m, l, live, owner) && x <= y
    requires forall u :: x <= u <= y ==> u in owner && owner[u] !in live
    ensures owner[x] == owner[y]
    decreases y - x
  {
    if x < y {
      NeighboursShareBlock(m, l, live, owner, x, y - 1);
      var i :| 0 <= i < |l| && l[i] == owner[y - 1];
      var k :| 0 <= k < |l| && l[k] == owner[y];
      if i < k { Ascending(m, l, i, k); } else if k < i { Ascending(m, l, k, i); }
    }
  }

  ghost predicate HasFit(m: map<int, Header>, l: seq<int>, n: int) {
    exists i :: 0 <= i < |l| && l[i] in m && m[l[i]].size >= n
  }

  predicate TooSmall(m: map<int, Header>, l: seq<int>, i: int, n: int)
    requires |l| > 0 && 0 <= i < 2 * |l|
  {
    Ring(l, i) in m && m[Ring(l, i)].size < n
  }

  lemma AllTooSmall(m: map<int, Header>, l: seq<int>, f: nat, n: int)
    requires f < |l| && forall i :: f < i <= f + |l| ==> TooSmall(m, l, i, n)
    ensures !HasFit(m, l, n)
  {
    forall i | 0 <= i < |l|
      ensures l[i] in m && m[l[i]].size < n
    {
      assert TooSmall(m, l, if i > f then i else i + |l|, n);
    }
  }

  function Granted(owner: map<int, int>, hp: int, n: nat): map<int, int> {
    map x | x in owner.Keys + Units(hp, n) :: if hp <= x < hp + n then hp else owner[x]
  }

  lemma GrantedKeys(owner: map<int, int>, hp: int, n: nat)
    ensures Granted(owner, hp, n).Keys == owner.Keys + Units(hp, n)
  {
  }

  lemma SmallerFits(m: map<int, Header>, l: seq<int>, n: int, nu: int)
    requires HasFit(m, l, n) && nu <= n
    ensures HasFit(m, l, nu)
  {
  }

  lemma BelowBreak(m: map<int, Header>, l: seq<int>, live: map<int, int>, owner: map<int, int>, brk: int)
    requires FreeList(m, l) && Tiled(m, l, live, owner) && brk > BASE
    requires forall x :: x in owner ==> x < brk
    ensures forall i :: 0 <= i < |l| ==> l[i] < brk
    ensures forall a :: a in live ==> a < brk
  {
    forall i | 0 <= i < |l|
      ensures l[i] < brk
    {
      assert NodeOk(m, l, i);
      if i > 0 { assert Owns(m, owner, l[i]) && l[i] in owner; }
    }
    forall a | a in live
      ensures a < brk
    {
      assert Owns(m, owner, a) && a in owner;
    }
  }

  lemma GrantKeepsList(m: map<int, Header>, l: seq<int>, hp: int, h: Header)
    requires FreeList(m, l) && hp !in l
    ensures FreeList(m[hp := h], l)
  {
    var m' := m[hp := h];
    forall i | 0 <= i < |l|
      ensures NodeOk(m', l, i)
    {
      assert NodeOk(m, l, i);
    }
  }

  lemma GrantKeepsOwner(m: map<int, Header>, owner: map<int, int>, hp: int, h: Header, brk: int, a: int)
    requires hp >= brk && h.size > 0 && (forall x :: x in owner ==> x < brk)
    ensures Owns(m, owner, a) && a != hp ==> a in m && Owns(m[hp := h], Granted(owner, hp, h.size), a)
    ensures Owns(m[hp := h], Granted(owner, hp, h.size), hp)
  {
  }

  lemma GrantKeepsTiling(m: map<int, Header>, l: seq<int>, live: map<int, int>, owner: map<int, int>, hp: int, h: Header, brk: int)
    requires Tiled(m, l, live, owner) && hp >= brk > BASE && h.size > 0 && hp !in live && hp !in l
    requires forall x :: x in owner ==> x < brk
    ensures Tiled(m[hp := h], l, live[hp := h.size], Granted(owner, hp, h.size))
  {
    hide Owns;
    var m', owner' := m[hp := h], Granted(owner, hp, h.size);
    forall i | 1 <= i < |l|
      ensures Owns(m', owner', l[i])
    {
      GrantKeepsOwner(m, owner, hp, h, brk, l[i]);
    }
    forall a | a in live[hp := h.size]
      ensures Owns(m', owner', a) && a in m' && m'[a].size == live[hp := h.size][a]
    {
      assert a != hp ==> Owns(m, owner, a);
      GrantKeepsOwner(m, owner, hp, h, brk, a);
    }
  }

  lemma GrantKeeps(m: map<int, Header>, l: seq<int>, live: map<int, int>, owner: map<int, int>, hp: int, h: Header, brk: int)
    requires FreeList(m, l) && Tiled(m, l, live, owner) && hp >= brk > BASE && h.size > 0
    requires forall x :: x in owner ==> x < brk
    ensures hp !in live
    ensures FreeList(m[hp := h], l) && Tiled(m[hp := h], l, live[hp := h.size], Granted(owner, hp, h.size))
  {
    BelowBreak(m, l, live, owner, brk);
    GrantKeepsList(m, l, hp, h);
    GrantKeepsTiling(m, l, live, owner, hp, h, brk);
  }

  // A run of free units lies within one block, which is then at least as long.
  lemma FreeRunFits(m: map<int, Header>, l: seq<int>, live: map<int, int>, owner: map<int, int>, x: int, n: nat)
    requires FreeList(m, l) && Tiled(m, l, live, owner) && n > 0
    requires forall u :: x <= u <= x + n - 1 ==> u in owner && owner[u] !in live
    ensures HasFit(m, l, n)
  {
    NeighboursShareBlock(m, l, live, owner, x, x + n - 1);
    assert x in owner;
    var i :| 0 <= i < |l| && l[i] == owner[x];
    assert l[i] in m && m[l[i]].size >= n;
  }

  // malloc's search, d elements after l[f]: everything it has passed is too small.
  ghost predicate Searching(m: map<int, Header>, l: seq<int>, f: int, d: int, prevp: int, p: int, n: nat) {
    && FreeList(m, l) && 0 <= f < |l| && 1 <= d <= |l|
    && prevp == Ring(l, f + d - 1) && p == Ring(l, f + d)
    && forall i :: f < i < f + d ==> TooSmall(m, l, i, n)
  }

  lemma SearchStart(m: map<int, Header>, l: seq<int>, f: nat, n: nat)
    requires FreeList(m, l) && f < |l|
    ensures l[f] in m && Searching(m, l, f, 1, l[f], m[l[f]].ptr, n)
  {
    RingNext(m, l, f);
  }

  lemma SearchHere(m: map<int, Header>, l: seq<int>, f: nat, d: nat, prevp: int, p: int, n: nat)
    requires Searching(m, l, f, d, prevp, p, n)
    ensures p in m && p > NULL && (m[p].size >= n ==> IsFit(m, l, prevp, p, n))
  {
    RingInside(m, l, f + d);
    RingInside(m, l, f + d - 1);
    RingNext(m, l, f + d - 1);
  }

  lemma SearchOn(m: map<int, Header>, l: seq<int>, f: nat, d: nat, prevp: int, p: int, n: nat)
    requires Searching(m, l, f, d, prevp, p, n) && p in m && m[p].size < n && p != l[f]
    ensures d < |l| && Searching(m, l, f, d + 1, p, m[p].ptr, n)
  {
    RingReturns(m, l, f, d);
    RingNext(m, l, f + d);
  }

  lemma SearchLap(m: map<int, Header>, l: seq<int>, f: nat, d: nat, prevp: int, p: int, n: nat)
    requires Searching(m, l, f, d, prevp, p, n) && p in m && m[p].size < n && p == l[f]
    ensures !HasFit(m, l, n)
  {
    RingReturns(m, l, f, d);
    AllTooSmall(m, l, f, n);
  }

  // Going round from was, the first block with n units is p; its last n units are at a, and now is the element before it.
  ghost predicate NextFit(m: map<int, Header>, l: seq<int>, was: int, n: nat, a: int, now: int, f: nat, d: nat) {
    && f < |l| && l[f] == was && 1 <= d <= |l|
    && (forall i :: f < i < f + d ==> TooSmall(m, l, i, n))
    && var p := Ring(l, f + d);
      p in m && m[p].size >= n && a == p + m[p].size - n && now == Ring(l, f + d - 1)
  }

  // Every free block with n units ends at e.
  ghost predicate FitsEndAt(m: map<int, Header>, l: seq<int>, n: nat, e: int) {
    forall i :: 0 <= i < |l| && l[i] in m && m[l[i]].size >= n ==> l[i] + m[l[i]].size == e
  }

  // The free units are those that were free before and the n units from hp on.
  ghost predicate FreedAbove(live: map<int, int>, owner0: map<int, int>, owner: map<int, int>, hp: int, n: nat) {
    && owner.Keys == owner0.Keys + Units(hp, n) && (forall x :: x in owner0 ==> x < hp)
    && (forall x :: x in owner0 ==> (owner[x] in live <==> owner0[x] in live))
    && (forall x :: hp <= x < hp + n ==> owner[x] !in live)
  }

  // If nothing fitted before, what fits now ends where the new memory ends.
  lemma NewFitEndsAbove(m0: map<int, Header>, l0: seq<int>, owner0: map<int, int>, m: map<int, Header>, l: seq<int>, owner: map<int, int>,
                        live: map<int, int>, hp: int, n: nat, nu: nat, i: nat)
    requires FreeList(m0, l0) && Tiled(m0, l0, live, owner0) && !HasFit(m0, l0, nu) && 0 < nu <= n
    requires FreeList(m, l) && Tiled(m, l, live, owner) && FreedAbove(live, owner0, owner, hp, n)
    requires i < |l| && l[i] in m && m[l[i]].size >= nu
    ensures l[i] + m[l[i]].size == hp + n
  {
    hide HasFit;
    assert NodeOk(m, l, 0);
    var p, e := l[i], l[i] + m[l[i]].size;
    assert Owns(m, owner, p);
    assert e - 1 in owner;
    if e <= hp {
      forall u | p <= u <= p + nu - 1
        ensures u in owner0 && owner0[u] !in live
      {
        assert u in owner && owner[u] == p;
      }
      FreeRunFits(m0, l0, live, owner0, p, nu);
    } else if e < hp + n {
      assert e in owner;
      NeighboursShareBlock(m, l, live, owner, e - 1, e);
    }
  }

  lemma NewFitsEndAbove(m0: map<int, Header>, l0: seq<int>, owner0: map<int, int>, m: map<int, Header>, l: seq<int>, owner: map<int, int>,
                        live: map<int, int>, hp: int, n: nat, nu: nat)
    requires FreeList(m0, l0) && Tiled(m0, l0, live, owner0) && !HasFit(m0, l0, nu) && 0 < nu <= n
    requires FreeList(m, l) && Tiled(m, l, live, owner) && FreedAbove(live, owner0, owner, hp, n)
    ensures FitsEndAt(m, l, nu, hp + n)
  {
    hide HasFit, FreeList, Tiled, FreedAbove;
    forall i | 0 <= i < |l| && l[i] in m && m[l[i]].size >= nu
      ensures l[i] + m[l[i]].size == hp + n
    {
      NewFitEndsAbove(m0, l0, owner0, m, l, owner, live, hp, n, nu, i);
    }
  }

  lemma GrantIsFreed(live: map<int, int>, owner0: map<int, int>, owner1: map<int, int>, owner: map<int, int>, hp: int, n: nat)
    requires owner1 == Granted(owner0, hp, n) && owner.Keys == owner1.Keys && hp !in live && forall x :: x in owner0 ==> x < hp
    requires forall x :: x in owner ==> (owner[x] in live <==> owner1[x] in live[hp := n] && owner1[x] != hp)
    ensures FreedAbove(live, owner0, owner, hp, n)
  {
  }

  lemma FoundIsNext(m: map<int, Header>, l: seq<int>, f: nat, d: nat, prevp: int, p: int, n: nat)
    requires Searching(m, l, f, d, prevp, p, n) && p in m && m[p].size >= n
    ensures NextFit(m, l, l[f], n, p + m[p].size - n, prevp, f, d)
  {
  }

  // ---------- conservation ----------

  // All blocks and their sizes, the allocated ones and those on the free list.
  function AllBlocks(m: map<int, Header>, l: seq<int>, live: map<int, int>): map<int, int> {
    live + map a | a in l && a in m && a != BASE :: m[a].size
  }

  ghost function TotalUnits(blocks: map<int, int>): int
    decreases |blocks|
  {
    if blocks.Keys == {} then 0
    else
      var a := Pick(blocks.Keys);
      blocks[a] + TotalUnits(blocks - {a})
  }

  lemma {:induction false} UnitsCount(a: int, n: nat)
    ensures |Units(a, n)| == n
  {
    if n > 0 { UnitsCount(a, n - 1); }
  }

  lemma WithoutBlock(owner: map<int, int>, a: int, n: nat)
    requires forall x :: a <= x < a + n ==> x in owner
    ensures |owner - Units(a, n)| == |owner| - n
  {
    UnitsCount(a, n);
    var rest := owner - Units(a, n);
    assert rest.Keys == owner.Keys - Units(a, n) && Units(a, n) <= owner.Keys;
    assert |rest| == |rest.Keys| && |owner| == |owner.Keys|;
  }

  // A set of blocks that owns the units of owner and no others.
  ghost predicate Partition(m: map<int, Header>, blocks: map<int, int>, owner: map<int, int>) {
    && (forall a :: a in blocks ==> Owns(m, owner, a) && m[a].size == blocks[a] && blocks[a] > 0)
    && (forall x :: x in owner ==> owner[x] in blocks && owner[x] <= x < owner[x] + blocks[owner[x]])
  }

  lemma {:induction false} PartitionCounts(m: map<int, Header>, blocks: map<int, int>, owner: map<int, int>)
    requires Partition(m, blocks, owner)
    ensures |owner| == TotalUnits(blocks)
    decreases |blocks|
  {
    if blocks.Keys == {} {
      if owner.Keys != {} {
        var x := Pick(owner.Keys);
        assert false;
      }
      assert |owner.Keys| == 0;
    } else {
      var a := Pick(blocks.Keys);
      assert Owns(m, owner, a);
      WithoutBlock(owner, a, blocks[a]);
      PartitionWithout(m, blocks, owner, a);
      PartitionCounts(m, blocks - {a}, owner - Units(a, blocks[a]));
    }
  }

  lemma PartitionWithout(m: map<int, Header>, blocks: map<int, int>, owner: map<int, int>, a: int)
    requires Partition(m, blocks, owner) && a in blocks
    ensures Partition(m, blocks - {a}, owner - Units(a, blocks[a]))
  {
    var rest := owner - Units(a, blocks[a]);
    assert Owns(m, owner, a);
    forall b | b in blocks && b != a
      ensures Owns(m, rest, b)
    {
      StillOwns(m, owner, a, b);
    }
  }

  /* The sizes of all blocks, allocated and free, add up to the number of units of the heap. */
  lemma UnitsConserved(m: map<int, Header>, l: seq<int>, live: map<int, int>, owner: map<int, int>)
    requires FreeList(m, l) && Tiled(m, l, live, owner)
    ensures |owner| == TotalUnits(AllBlocks(m, l, live))
  {
    var blocks := AllBlocks(m, l, live);
    assert NodeOk(m, l, 0);
    forall a | a in blocks
      ensures Owns(m, owner, a) && m[a].size == blocks[a] && blocks[a] > 0
    {
      if a in l {
        var i :| 0 <= i < |l| && l[i] == a;
        assert NodeOk(m, l, i) && Owns(m, owner, l[i]);
      }
    }
    PartitionCounts(m, blocks, owner);
  }

  lemma StillOwns(m: map<int, Header>, owner: map<int, int>, a: int, b: int)
    requires Owns(m, owner, a) && Owns(m, owner, b) && a != b && m[a].size >= 0
    ensures Owns(m, owner - Units(a, m[a].size), b)
  {
    var rest := owner - Units(a, m[a].size);
    forall x | b <= x < b + m[b].size
      ensures x in rest && rest[x] == b
    {
      assert owner[x] == b;
    }
  }

  lemma FitPosition(m: map<int, Header>, l: seq<int>, prevp: int, p: int, n: nat) returns (j: nat)
    requires FreeList(m, l) && IsFit(m, l, prevp, p, n) && n > 0
    ensures 1 <= j < |l| && l[j] == p && l[j - 1] == prevp
  {
    var i :| 0 <= i < |l| && l[i] == prevp;
    assert NodeOk(m, l, i) && NodeOk(m, l, 0);
    j := i + 1;
  }

  lemma BaseFitsNothing(m: map<int, Header>, n: nat)
    requires FreeList(m, [BASE]) && n > 0
    ensures !HasFit(m, [BASE], n)
  {
    assert NodeOk(m, [BASE], 0);
  }

  lemma FitIsThere(m: map<int, Header>, l: seq<int>, prevp: int, p: int, n: nat)
    requires IsFit(m, l, prevp, p, n)
    ensures HasFit(m, l, n)
  {
  }

  lemma FitsThere(m: map<int, Header>, l: seq<int>, prevp: int, p: int, n: nat, e: int)
    requires IsFit(m, l, prevp, p, n) && FitsEndAt(m, l, n, e)
    ensures p + m[p].size == e
  {
  }

  // Units for a request: its bytes, rounded up, and one unit for the header.
  function UnitsFor(nbytes: nat): (n: nat)
    ensures n >= 1 && (n - 1) * UNIT >= nbytes && (n - 1) * UNIT < nbytes + UNIT
  {
    (nbytes + UNIT - 1) / UNIT + 1
  }

  // What an int parameter gets of a 64-bit value: the low 32 bits, in two's complement.
  function AsInt(x: nat): (n: int)
    ensures -0x8000_0000 <= n < 0x8000_0000 && (n - x) % UINT == 0
  {
    var low := x % UINT;
    assert (low - x) % UINT == 0;
    if low < 0x8000_0000 then low else low - UINT
  }

  // morecore passes this to sbrk, and records Rounded(nu) units in the header of what it gets.
  function SbrkArgument(nu: nat): int {
    AsInt(Rounded(nu) * UNIT)
  }

  // The units that sbrk hands out, from a on, when morecore asks for nu.
  function SbrkUnits(a: int, nu: nat): set<int> {
    if SbrkArgument(nu) < 0 then {} else Units(a, SbrkArgument(nu) / UNIT)
  }

  const LARGEST: nat := 0x7fff_ffe0

  /* The block that morecore makes lies in the memory that sbrk handed out if and only if the
     request is at most LARGEST: above it sbrk's int cuts the amount short. */
  lemma GrantCoversIff(a: int, nbytes: nat)
    requires nbytes < UINT
    ensures Units(a, Rounded(UnitsFor(nbytes))) <= SbrkUnits(a, UnitsFor(nbytes)) <==> nbytes <= LARGEST
    ensures nbytes <= LARGEST ==> SbrkUnits(a, UnitsFor(nbytes)) == Units(a, Rounded(UnitsFor(nbytes)))
  {
    var n := Rounded(UnitsFor(nbytes));
    if nbytes <= LARGEST {
      assert AsInt(n * UNIT) == n * UNIT;
    } else {
      assert AsInt(n * UNIT) < 0x8000_0000 <= n * UNIT;
      assert a + n - 1 in Units(a, n) && a + n - 1 !in SbrkUnits(a, UnitsFor(nbytes));
    }
  }

  // What sbrk has handed out once it has moved the break from a by the argument for nu; a negative one takes memory back.
  ghost function Obtained(got: set<int>, a: int, nu: nat): set<int> {
    if SbrkArgument(nu) >= 0 then got + SbrkUnits(a, nu)
    else set x | x in got && (x + 1) * UNIT <= a * UNIT + SbrkArgument(nu)
  }

  lemma ObtainedBelow(got: set<int>, brk: int, a: int, nu: nat)
    requires (forall x :: x in got ==> x < brk) && brk <= a
    ensures forall x :: x in Obtained(got, a, nu) ==> x < a + Rounded(nu)
  {
    assert SbrkArgument(nu) <= Rounded(nu) * UNIT;
  }

  // The heap has grown by the block that morecore makes at a.
  ghost predicate Grown(heap: set<int>, got: set<int>, heap': set<int>, got': set<int>, a: int, nu: nat) {
    heap' == heap + Units(a, Rounded(nu)) && got' == Obtained(got, a, nu)
  }

  lemma GrownWithinIff(heap: set<int>, got: set<int>, heap': set<int>, got': set<int>, brk: int, a: int, nbytes: nat)
    requires Grown(heap, got, heap', got', a, UnitsFor(nbytes)) && nbytes < UINT && brk <= a
    requires (forall x :: x in heap || x in got ==> x < brk) && heap <= got
    ensures heap' != heap && (heap' <= got' <==> nbytes <= LARGEST)
  {
    var n := Rounded(UnitsFor(nbytes));
    GrantCoversIff(a, nbytes);
    assert a in Units(a, n) && a !in heap;
    if nbytes > LARGEST {
      assert AsInt(n * UNIT) < 0x8000_0000 <= n * UNIT;
      assert a + n - 1 in Units(a, n) && a + n - 1 !in got;
      assert a + n - 1 !in got';
    }
  }

  /* sbrk(0), which never fails, is taken for 2^28 units, and sbrk of a negative amount for half as many. */
  lemma GrantTooShort()
    ensures SbrkArgument(UnitsFor(0xffff_fff0)) == 0 && Rounded(UnitsFor(0xffff_fff0)) == 0x1000_0000
    ensures SbrkArgument(UnitsFor(LARGEST + 1)) == -0x8000_0000 && Rounded(UnitsFor(LARGEST + 1)) == 0x800_0000
  {
    assert UnitsFor(0xffff_fff0) == 0x1000_0000;
    assert UnitsFor(LARGEST + 1) == 0x800_0000;
  }

  class Allocator {
    var mem: map<int, Header>       // the headers in memory, also stale ones
    var freep: int
    ghost var list: seq<int>        // the free list in address order, base first
    ghost var live: map<int, int>   // allocated blocks and their sizes
    ghost var owner: map<int, int>  // the block each unit that malloc manages belongs to
    ghost var got: set<int>         // the units that sbrk has handed out
    ghost var brk: int              // no such unit is at or above this address

    ghost predicate Valid()
      reads this
    {
      && brk > BASE
      && (forall x :: x in owner || x in got ==> x < brk)
      && (if freep == NULL then live == map[] && owner == map[]
          else freep in list && FreeList(mem, list) && Tiled(mem, list, live, owner))
    }

    constructor (brk: int)
      requires brk > BASE
      ensures Valid() && live == map[] && owner == map[] && got == {} && freep == NULL && this.brk == brk
    {
      mem, freep, list, live, owner, got, this.brk := map[], NULL, [], map[], map[], {}, brk;
    }

    // The search loop of free: the list element to put bp behind.
    method FindPlace(bp: int) returns (p: int, ghost j: int)
      requires Valid() && bp in live
      ensures Precedes(list, j, bp) && p == list[j]
    {
      assert bp !in list;
      ghost var stop := PredecessorExists(mem, list, bp, |list| - 1);
      p := freep;
      j :| 0 <= j < |list| && list[j] == p;
      assert NodeOk(mem, list, j) && NodeOk(mem, list, 0);
      while !(bp > p && bp < mem[p].ptr)
        invariant 0 <= j < |list| && list[j] == p && NodeOk(mem, list, j)
        decreases if j <= stop then stop - j else |list| - j + stop
      {
        if p >= mem[p].ptr && (bp > p || bp < mem[p].ptr) {
          break;
        }
        assert j != stop by { AboveBase(mem, list, j); }
        p := mem[p].ptr;
        j := if j + 1 < |list| then j + 1 else 0;
        assert NodeOk(mem, list, j);
      }
      assert NodeOk(mem, list, j);
    }

    // The pointer work of free, once the place behind p has been found.
    method Relink(bp: int, p: int, ghost j: int)
      requires 0 <= j < |list| && list[j] == p && p in mem && bp in mem && p != bp
      requires mem[p].ptr == Next(list, j) && mem[p].ptr in mem && mem[p].ptr != bp
      modifies this`mem
      ensures mem == Released(old(mem), list, owner, j, bp).m
    {
      if bp + mem[bp].size == mem[p].ptr {
        mem := mem[bp := Header(mem[mem[p].ptr].ptr, mem[bp].size + mem[mem[p].ptr].size)];
      } else {
        mem := mem[bp := Header(mem[p].ptr, mem[bp].size)];
      }
      if p + mem[p].size == bp {
        mem := mem[p := Header(mem[bp].ptr, mem[p].size + mem[bp].size)];
      } else {
        mem := mem[p := mem[p].(ptr := bp)];
      }
    }

    /* free: exactly the units of the block become free, and the list absorbs them where it can; the next
       search starts behind the element below the block. */
    method Free(ap: int) returns (ghost j: int)
      requires Valid() && ap - 1 in live
      modifies this
      ensures Valid() && freep != NULL && brk == old(brk) && got == old(got)
      ensures Precedes(old(list), j, ap - 1) && freep == old(list)[j]
      ensures live == old(live) - {ap - 1}
      ensures owner.Keys == old(owner).Keys
      ensures forall x :: x in owner ==> (owner[x] in live <==> old(owner)[x] in old(live) && old(owner)[x] != ap - 1)
    {
      var bp := ap - 1;
      var p;
      p, j := FindPlace(bp);
      ReleasedIsFreeList(mem, list, live, owner, j, bp);
      ReleasedIsTiled(mem, list, live, owner, j, bp);
      ghost var r := Released(mem, list, owner, j, bp);
      assert NodeOk(mem, list, j) && Next(list, j) in list && p >= BASE by { AboveBase(mem, list, j); }
      Relink(bp, p, j);
      freep := p;
      list, owner, live := r.l, r.owner, live - {bp};
      assert p == list[j];
    }

    // morecore's write of the new header: from here on the memory counts as an allocated block.
    method NewBlock(hp: int, n: nat)
      requires Valid() && freep != NULL && hp >= brk && n > 0
      modifies this`mem, this`live, this`owner, this`brk
      ensures Valid() && live == old(live)[hp := n] && hp !in old(live)
      ensures owner == Granted(old(owner), hp, n) && brk == hp + n
    {
      var h := Header(if hp in mem then mem[hp].ptr else NULL, n);
      GrantKeeps(mem, list, live, owner, hp, h, brk);
      mem := mem[hp := h];
      live, owner, brk := live[hp := n], Granted(owner, hp, n), hp + n;
    }

    // morecore's call of free.
    method FreeNewBlock(hp: int, n: nat)
      requires Valid() && hp in live && live[hp] == n && freep != NULL
      modifies this
      ensures Valid() && freep != NULL && brk == old(brk) && got == old(got)
      ensures live == old(live) - {hp} && owner.Keys == old(owner).Keys && HasFit(mem, list, n)
      ensures forall x :: x in owner ==> (owner[x] in live <==> old(owner)[x] in old(live) && old(owner)[x] != hp)
    {
      assert Owns(mem, owner, hp);
      ghost var j := Free(hp + 1);
      forall u | hp <= u <= hp + n - 1
        ensures u in owner && owner[u] !in live
      {
        assert old(owner)[u] == hp;
      }
      FreeRunFits(mem, list, live, owner, hp, n);
    }

    // morecore: grant is where the memory that sbrk hands out begins, if it has any left.
    method MoreCore(nu: nat, grant: Option<int>) returns (r: int)
      requires Valid() && freep != NULL && 0 < nu && (grant.Some? ==> grant.value >= brk)
      modifies this
      ensures Valid() && freep != NULL && live == old(live)
      ensures r == if grant.None? then NULL else freep
      ensures grant.None? ==> mem == old(mem) && freep == old(freep) && owner == old(owner) && brk == old(brk) && list == old(list)
      ensures grant.None? ==> got == old(got)
      ensures grant.Some? ==> owner.Keys == old(owner).Keys + Units(grant.value, Rounded(nu)) && HasFit(mem, list, nu)
      ensures grant.Some? ==> got == Obtained(old(got), grant.value, nu)
      ensures grant.Some? && !HasFit(old(mem), old(list), nu) ==> FitsEndAt(mem, list, nu, grant.value + Rounded(nu))
    {
      hide Obtained, Granted, Units, FreeList, Tiled, HasFit, FitsEndAt, FreedAbove;
      var n := if nu < MIN_UNITS then MIN_UNITS else nu;
      if grant.None? {
        return NULL;
      }
      var hp := grant.value;
      GrantedKeys(owner, hp, n);
      NewBlock(hp, n);
      ghost var owner1 := owner;
      FreeNewBlock(hp, n);
      assert live == old(live);
      GrantIsFreed(live, old(owner), owner1, owner, hp, n);
      if !HasFit(old(mem), old(list), nu) {
        NewFitsEndAbove(old(mem), old(list), old(owner), mem, list, owner, live, hp, n, nu);
      }
      if n != nu { SmallerFits(mem, list, n, nu); }
      ObtainedBelow(got, old(brk), hp, nu);
      got := Obtained(got, hp, nu);
      return freep;
    }

    // One lap of malloc's search loop, from the element after freep round to freep itself.
    method Lap(nunits: nat) returns (found: bool, p: int, prevp: int, ghost f: nat, ghost d: nat)
      requires Valid() && freep != NULL
      ensures found ==> IsFit(mem, list, prevp, p, nunits) && p > NULL
      ensures found ==> NextFit(mem, list, freep, nunits, p + mem[p].size - nunits, prevp, f, d)
      ensures !found ==> p == freep && !HasFit(mem, list, nunits)
    {
      prevp := freep;
      f :| 0 <= f < |list| && list[f] == freep;
      d := 1;
      SearchStart(mem, list, f, nunits);
      p := mem[prevp].ptr;
      while true
        invariant Searching(mem, list, f, d, prevp, p, nunits) && list[f] == freep
        decreases |list| - d
      {
        SearchHere(mem, list, f, d, prevp, p, nunits);
        if mem[p].size >= nunits {
          FoundIsNext(mem, list, f, d, prevp, p, nunits);
          return true, p, prevp, f, d;
        }
        if p == freep {
          SearchLap(mem, list, f, d, prevp, p, nunits);
          return false, p, prevp, f, d;
        }
        SearchOn(mem, list, f, d, prevp, p, nunits);
        prevp := p;
        p := mem[p].ptr;
        d := d + 1;
      }
    }

    // The whole search loop: when a lap fails, sbrk is asked, and the next lap starts at the new freep.
    method FindFit(nunits: nat, grant: Option<int>) returns (p: int, prevp: int, ghost f: nat, ghost d: nat)
      requires Valid() && freep != NULL && 0 < nunits && (grant.Some? ==> grant.value >= brk)
      modifies this
      ensures Valid() && freep != NULL && live == old(live)
      ensures (owner.Keys == old(owner).Keys && got == old(got))
        || (grant.Some? && Grown(old(owner).Keys, old(got), owner.Keys, got, grant.value, nunits))
      ensures p == NULL ==> grant.None? && owner == old(owner) && !HasFit(old(mem), old(list), nunits)
      ensures p != NULL ==> IsFit(mem, list, prevp, p, nunits)
      ensures HasFit(old(mem), old(list), nunits) ==> owner == old(owner) && got == old(got)
      ensures HasFit(old(mem), old(list), nunits) ==>
                && mem == old(mem) && list == old(list) && p in mem
                && NextFit(mem, list, old(freep), nunits, p + mem[p].size - nunits, prevp, f, d)
      ensures p != NULL && !HasFit(old(mem), old(list), nunits) ==> p in mem && grant.Some? && p + mem[p].size == grant.value + Rounded(nunits)
    {
      hide NextFit, HasFit, FreeList, Tiled, Obtained, Rounded, FitsEndAt;
      var found;
      ghost var grown := false;
      found, p, prevp, f, d := Lap(nunits);
      if found { FitIsThere(mem, list, prevp, p, nunits); }
      while !found
        invariant Valid() && freep != NULL && live == old(live)
        invariant found ==> IsFit(mem, list, prevp, p, nunits) && p > NULL
        invariant !found ==> !grown
        invariant grown ==> grant.Some? && Grown(old(owner).Keys, old(got), owner.Keys, got, grant.value, nunits)
        invariant !grown ==> owner == old(owner) && got == old(got) && brk == old(brk)
        invariant grown || !found ==> !HasFit(old(mem), old(list), nunits)
        invariant !grown ==> mem == old(mem) && list == old(list) && freep == old(freep)
        invariant found ==> p in mem && NextFit(mem, list, freep, nunits, p + mem[p].size - nunits, prevp, f, d)
        invariant found && !grown ==> HasFit(mem, list, nunits)
        invariant found && grown ==> p + mem[p].size == grant.value + Rounded(nunits)
        decreases !found
      {
        p := MoreCore(nunits, grant);
        if p == NULL {
          return;
        }
        grown := true;
        found, p, prevp, f, d := Lap(nunits);
        if found { FitsThere(mem, list, prevp, p, nunits, grant.value + Rounded(nunits)); }
      }
    }

    // malloc takes list element p as it is.
    method TakeWhole(p: int, prevp: int, ghost j: nat)
      requires Valid() && freep != NULL && 1 <= j < |list| && list[j] == p && list[j - 1] == prevp
      requires p in mem && prevp in mem
      modifies this
      ensures Valid() && freep == prevp && freep != NULL && brk == old(brk) && got == old(got)
      ensures p !in old(live) && live == old(live)[p := old(mem)[p].size]
      ensures owner == old(owner)
    {
      UnlinkedIsFreeList(mem, list, j);
      UnlinkedIsTiled(mem, list, live, owner, j);
      AboveBase(mem, list, j - 1);
      live := live[p := mem[p].size];
      mem := mem[prevp := mem[prevp].(ptr := mem[p].ptr)];
      list := list[..j] + list[j + 1..];
      assert prevp == list[j - 1];
      freep := prevp;
    }

    // malloc takes the last nunits units of list element p.
    method TakeTail(p: int, prevp: int, nunits: nat, ghost j: nat) returns (a: int)
      requires Valid() && freep != NULL && 1 <= j < |list| && list[j] == p && list[j - 1] == prevp
      requires p in mem && 0 < nunits < mem[p].size
      modifies this
      ensures Valid() && freep == prevp && freep != NULL && brk == old(brk) && got == old(got)
      ensures a !in old(live) && live == old(live)[a := nunits] && a == p + old(mem)[p].size - nunits
      ensures owner.Keys == old(owner).Keys
    {
      SplitIsFreeList(mem, list, owner, j, nunits);
      SplitIsTiled(mem, list, live, owner, j, nunits);
      AboveBase(mem, list, j - 1);
      ghost var (mem', a', owner') := Split(mem, owner, p, nunits);
      mem := mem[p := mem[p].(size := mem[p].size - nunits)];
      a := p + mem[p].size;
      mem := mem[a := Header(if a in mem then mem[a].ptr else NULL, nunits)];
      assert mem == mem' && a == a';
      live, owner := live[a := nunits], owner';
      freep := prevp;
    }

    // malloc takes nunits units from list element p.
    method Carve(p: int, prevp: int, nunits: nat) returns (a: int)
      requires Valid() && freep != NULL && nunits > 0 && IsFit(mem, list, prevp, p, nunits)
      modifies this
      ensures Valid() && freep == prevp && freep != NULL && brk == old(brk) && got == old(got)
      ensures a !in old(live) && live == old(live)[a := nunits] && a == p + old(mem)[p].size - nunits
      ensures owner.Keys == old(owner).Keys
    {
      ghost var j := FitPosition(mem, list, prevp, p, nunits);
      if mem[p].size == nunits {
        a := p;
        TakeWhole(p, prevp, j);
      } else {
        a := TakeTail(p, prevp, nunits, j);
      }
    }

    // malloc's first call makes the list that consists of base alone.
    method InitBase()
      requires Valid() && freep == NULL
      modifies this`mem, this`freep, this`list
      ensures Valid() && freep == BASE && list == [BASE]
    {
      mem := mem[BASE := Header(BASE, 0)];
      freep := BASE;
      list := [BASE];
    }

    /* malloc: the new block is disjoint from every other one and holds the request; the heap grows at
       most once, and malloc fails only if sbrk refuses.  The heap stays within the memory that sbrk has
       handed out if and only if it did not grow or the request is at most LARGEST. */
    method Malloc(nbytes: nat, grant: Option<int>) returns (r: Option<int>, ghost f: nat, ghost d: nat)
      requires Valid() && nbytes < UINT && (grant.Some? ==> grant.value >= brk)
      modifies this
      ensures Valid() && freep != NULL
      ensures r.None? ==> grant.None? && live == old(live) && owner == old(owner) && got == old(got)
      // It fails only if no free block is large enough, and asks for memory only then.
      ensures r.None? ==> old(freep) == NULL || !HasFit(old(mem), old(list), UnitsFor(nbytes))
      ensures old(freep) != NULL && HasFit(old(mem), old(list), UnitsFor(nbytes)) ==> owner.Keys == old(owner).Keys && got == old(got)
      ensures r.Some? ==> r.value - 1 !in old(live) && live == old(live)[r.value - 1 := UnitsFor(nbytes)]
      // The block is the end of the first one that fits, going round from where the last search or free left off,
      // and the next search starts behind the element before it; without a fit it is the end of the new memory.
      ensures old(freep) != NULL && HasFit(old(mem), old(list), UnitsFor(nbytes)) ==>
                r.Some? && NextFit(old(mem), old(list), old(freep), UnitsFor(nbytes), r.value - 1, freep, f, d)
      ensures r.Some? && (old(freep) == NULL || !HasFit(old(mem), old(list), UnitsFor(nbytes))) ==>
                grant.Some? && r.value - 1 == grant.value + Rounded(UnitsFor(nbytes)) - UnitsFor(nbytes)
      ensures (owner.Keys == old(owner).Keys && got == old(got))
        || (grant.Some? && Grown(old(owner).Keys, old(got), owner.Keys, got, grant.value, UnitsFor(nbytes)))
      ensures old(owner.Keys <= got) ==> (owner.Keys <= got <==> owner.Keys == old(owner).Keys || nbytes <= LARGEST)
    {
      hide FreeList, Tiled, HasFit, IsFit, Units, Rounded, Grown, Obtained, NextFit;
      var nunits := (nbytes + UNIT - 1) / UNIT + 1;
      assert nunits == UnitsFor(nbytes);
      if freep == NULL {
        InitBase();
        BaseFitsNothing(mem, nunits);
      }
      var p, prevp;
      p, prevp, f, d := FindFit(nunits, grant);
      if p == NULL {
        r := None;
        return;
      }
      var a := Carve(p, prevp, nunits);
      if old(owner.Keys <= got) && grant.Some? && Grown(old(owner).Keys, old(got), owner.Keys, got, grant.value, nunits) {
        GrownWithinIff(old(owner).Keys, old(got), owner.Keys, got, old(brk), grant.value, nbytes);
      }
      r := Some(a + 1);
    }
  }
}
