/** The free list, and what the steps of the page-table code leave alone (kernel/kalloc.c, kernel/vm.c). */
module PageMoves {
  import opened PageFormat
  import opened PageTree

  // ---- the free list ----

  // The list threaded through the first words of the free pages, from head on.
  predicate LinkOk(m: Memory, free: seq<nat>, i: nat)
    requires i < |free|
  {
    free[i] in m && m[free[i]][0] == if i + 1 < |free| then free[i + 1] else 0
  }

  ghost predicate FreeOk(m: Memory, place: map<nat, Place>, head: nat, free: seq<nat>) {
    && head == (if free == [] then 0 else free[0])
    && (forall i: nat :: i < |free| ==> LinkOk(m, free, i))
    && (forall i, j :: 0 <= i < j < |free| ==> free[i] != free[j])
    && (forall q :: q in place && place[q].Free? <==> q in free)
  }

  lemma FreePopped(m: Memory, place: map<nat, Place>, head: nat, free: seq<nat>, page: Page)
    requires FreeOk(m, place, head, free) && free != []
    ensures head in m && head in place && place[head].Free? && head == free[0]
    ensures FreeOk(m[head := page], place[head := Held], m[head][0], free[1..])
  {
    assert LinkOk(m, free, 0) && free[0] in free;
    var m', free' := m[head := page], free[1..];
    forall i: nat | i < |free'|
      ensures LinkOk(m', free', i)
    {
      assert LinkOk(m, free, i + 1);
    }
    assert free == [head] + free';
  }

  lemma FreePushed(m: Memory, place: map<nat, Place>, head: nat, free: seq<nat>, q: nat, page: Page)
    requires FreeOk(m, place, head, free) && q in place && !place[q].Free? && page[0] == head && q != 0
    ensures FreeOk(m[q := page], place[q := Free], q, [q] + free)
  {
    var m', free' := m[q := page], [q] + free;
    forall i: nat | i < |free'|
      ensures LinkOk(m', free', i)
    {
      if i > 0 { assert LinkOk(m, free, i - 1) && free[i - 1] in free; }
    }
  }

  // Pages off the list may change.
  lemma FreeFrame(m: Memory, place: map<nat, Place>, head: nat, free: seq<nat>, m': Memory, place': map<nat, Place>)
    requires FreeOk(m, place, head, free)
    requires forall q :: q in place && place[q].Free? ==> q in m' && q in m && m'[q] == m[q]
    requires forall q :: q in place' && place'[q].Free? <==> q in place && place[q].Free?
    ensures FreeOk(m', place', head, free)
  {
    forall i: nat | i < |free|
      ensures LinkOk(m', free, i)
    {
      assert LinkOk(m, free, i) && free[i] in free;
    }
  }

  // ---- everything in use stays as it is ----

  // A page in use keeps its place, and its contents unless it is a table.
  predicate KeepsPage(m: Memory, place: map<nat, Place>, m': Memory, place': map<nat, Place>, q: nat)
    requires q in place
  {
    !place[q].Free? ==>
      && q in place' && place'[q] == place[q]
      && (IsData(place, q) ==> q in m && q in m' && m'[q] == m[q])
  }

  predicate KeepsLeaf(m: Memory, m': Memory, r: nat, k: nat) {
    Pte(m', r, 0, k) == Pte(m, r, 0, k)
  }

  // Outside the leaves lo to hi of table r, and outside these pages, everything in use is as it was.
  ghost predicate Kept(m: Memory, place: map<nat, Place>, m': Memory, place': map<nat, Place>, r: nat, lo: nat, hi: nat, pages: set<nat>) {
    && place'.Keys == place.Keys
    && (forall q :: q in place && q !in pages ==> KeepsPage(m, place, m', place', q))
    && (forall x: nat :: IsRoot(place', x) <==> IsRoot(place, x))
    && (forall x: nat, k: nat :: IsRoot(place, x) && k < Bound(0) && !(x == r && lo <= k < hi) ==> KeepsLeaf(m, m', x, k))
  }

  // Only free pages were taken: no mapping and no page in use changed.
  ghost predicate Grew(m: Memory, place: map<nat, Place>, m': Memory, place': map<nat, Place>) {
    Kept(m, place, m', place', 0, 0, 0, {})
  }

  lemma KeptRefl(m: Memory, place: map<nat, Place>, r: nat, lo: nat, hi: nat, pages: set<nat>)
    requires m.Keys == place.Keys
    ensures Kept(m, place, m, place, r, lo, hi, pages)
  {
    forall q | q in place
      ensures KeepsPage(m, place, m, place, q)
    {
    }
    forall x: nat, k: nat
      ensures KeepsLeaf(m, m, x, k)
    {
    }
  }

  lemma KeptWiden(m: Memory, place: map<nat, Place>, m': Memory, place': map<nat, Place>,
                  r: nat, lo: nat, hi: nat, pages: set<nat>, r': nat, lo': nat, hi': nat, pages': set<nat>)
    requires Kept(m, place, m', place', r, lo, hi, pages)
    requires lo < hi ==> r' == r && lo' <= lo && hi <= hi'
    requires pages <= pages'
    ensures Kept(m, place, m', place', r', lo', hi', pages')
  {
    forall x: nat, k: nat | IsRoot(place, x) && k < Bound(0) && !(x == r' && lo' <= k < hi')
      ensures KeepsLeaf(m, m', x, k)
    {
      assert !(x == r && lo <= k < hi);
    }
  }

  // Pages that were free at the start do not matter in the second step.
  lemma KeptTrans(m: Memory, place: map<nat, Place>, m1: Memory, place1: map<nat, Place>, m2: Memory, place2: map<nat, Place>,
                  r: nat, lo: nat, hi: nat, pages: set<nat>, pages2: set<nat>)
    requires Kept(m, place, m1, place1, r, lo, hi, pages) && Kept(m1, place1, m2, place2, r, lo, hi, pages2)
    requires forall q :: q in pages2 && q in place ==> q in pages || place[q].Free?
    ensures Kept(m, place, m2, place2, r, lo, hi, pages)
  {
    forall q | q in place && q !in pages
      ensures KeepsPage(m, place, m2, place2, q)
    {
      assert KeepsPage(m, place, m1, place1, q);
      if !place[q].Free? { assert KeepsPage(m1, place1, m2, place2, q); }
    }
    forall x: nat, k: nat | IsRoot(place, x) && k < Bound(0) && !(x == r && lo <= k < hi)
      ensures KeepsLeaf(m, m2, x, k)
    {
      assert KeepsLeaf(m, m1, x, k) && KeepsLeaf(m1, m2, x, k);
    }
  }

  function Zeros(): Page { seq(ENTRIES, _ => 0) }

  // A free page taken, whatever is then put into it.
  lemma TakenGrew(m: Memory, place: map<nat, Place>, q: nat, page: Page)
    requires Placed(m, place) && q in place && place[q].Free?
    ensures Placed(m[q := page], place[q := Held])
    ensures Grew(m, place, m[q := page], place[q := Held])
  {
    var m', place' := m[q := page], place[q := Held];
    DataPlaced(m, place, q, page);
    Rehung(m', place, q, Held);
    forall p | p in place
      ensures KeepsPage(m, place, m', place', p)
    {
    }
    forall r: nat, k: nat | IsRoot(place, r) && k < Bound(0)
      ensures KeepsLeaf(m, m', r, k)
    {
      DataPte(m, place, q, page, r, 0, k);
    }
  }

  // walk hangs an empty table, taken from the free list, behind an empty entry.
  lemma TableAdded(m: Memory, place: map<nat, Place>, q: nat, r: nat, l: nat, key: nat)
    requires Placed(m, place) && q in place && place[q].Free?
    requires IsRoot(place, r) && 0 < l <= 2 && key < Bound(l) && TableOf(m, r, l, key) != 0 && Pte(m, r, l, key) == 0
    ensures var m1 := m[q := Zeros()];
      && TableOf(m1, r, l, key) == TableOf(m, r, l, key) && TableOf(m1, r, l, key) in m1
      && var m2 := Set(m1, r, l, key, PteWord(q, 0));
         && Placed(m2, place[q := At(r, l, key)])
         && Grew(m, place, m2, place[q := At(r, l, key)])
         && (forall d: nat :: d / 512 == key ==> TableOf(m2, r, l - 1, d) == q)
  {
    hide Pa, PteWord, Grew, Placed;
    var m1, place1 := m[q := Zeros()], place[q := Held];
    TakenGrew(m, place, q, Zeros());
    DataPte(m, place, q, Zeros(), r, l, key);
    TableOwned(m, place, r, l, key);
    PlacedAddr(m, place, q);
    PteRoundTrip(q, 0);
    var e := PteWord(q, 0);
    forall d: nat | d / 512 == key
      ensures Pte(m1, r, l - 1, d) == 0
    {
      TableUp(m1, r, l - 1, d);
      NullEntry(m1, place1, d % 512);
    }
    assert Writable(m1, place1, r, l, key, e);
    HungPlaced(m1, place1, r, l, key, q, 0);
    var m2, place2 := Set(m1, r, l, key, e), place[q := At(r, l, key)];
    assert place1[q := At(r, l, key)] == place2;
    TableAddedGrew(m, place, q, r, l, key, m1, m2);
    forall d: nat | d / 512 == key
      ensures TableOf(m2, r, l - 1, d) == q
    {
      StoredPte(m1, place1, r, l, key, e, r, l, key);
      TableUp(m2, r, l - 1, d);
    }
  }

  lemma TableAddedGrew(m: Memory, place: map<nat, Place>, q: nat, r: nat, l: nat, key: nat, m1: Memory, m2: Memory)
    requires Placed(m, place) && q in place && place[q].Free? && m1 == m[q := Zeros()]
    requires Placed(m1, place[q := Held]) && Grew(m, place, m1, place[q := Held])
    requires 0 < l && Writable(m1, place[q := Held], r, l, key, PteWord(q, 0)) && m2 == Set(m1, r, l, key, PteWord(q, 0))
    ensures Grew(m, place, m2, place[q := At(r, l, key)])
  {
    hide Pa, PteWord, TableOf, Pte, Slots, PlaceOk;
    var place1, place2 := place[q := Held], place[q := At(r, l, key)];
    WritableFacts(m1, place1, r, l, key, PteWord(q, 0));
    TableOwned(m1, place1, r, l, key);
    forall p | p in place
      ensures KeepsPage(m, place, m2, place2, p)
    {
      assert KeepsPage(m, place, m1, place1, p);
    }
    forall r': nat, k: nat | IsRoot(place, r') && k < Bound(0)
      ensures KeepsLeaf(m, m2, r', k)
    {
      assert KeepsLeaf(m, m1, r', k);
      StoredPte(m1, place1, r, l, key, PteWord(q, 0), r', 0, k);
    }
  }

  // An empty entry on the way down: there is no table below.
  lemma NoTable(m: Memory, place: map<nat, Place>, r: nat, l: nat, va: nat)
    requires Placed(m, place) && 0 < l <= 2 && Pte(m, r, l, Key(l, va)) == 0
    ensures TableOf(m, r, 0, Key(0, va)) == 0 && Pte(m, r, 0, Key(0, va)) == 0
  {
    hide Placed, Pa, Key;
    NullEntry(m, place, Key(0, va) % 512);
    KeyUp(l - 1, va);
    TableUp(m, r, l - 1, Key(l - 1, va));
    if l == 2 {
      NullEntry(m, place, Key(1, va) % 512);
      KeyUp(0, va);
      TableUp(m, r, 0, Key(0, va));
    }
  }

  // A valid entry on the way down leads to the next table.
  lemma NextTable(m: Memory, place: map<nat, Place>, r: nat, l: nat, va: nat)
    requires Placed(m, place) && IsRoot(place, r) && 0 < l <= 2 && va < MAXVA && TableOf(m, r, l, Key(l, va)) in m
    ensures m[TableOf(m, r, l, Key(l, va))][PX(l, va)] == Pte(m, r, l, Key(l, va))
    ensures Valid(Pte(m, r, l, Key(l, va))) <==> Pte(m, r, l, Key(l, va)) != 0
    ensures Pte(m, r, l, Key(l, va)) != 0 ==>
              TableOf(m, r, l - 1, Key(l - 1, va)) == Pa(Pte(m, r, l, Key(l, va))) && Pa(Pte(m, r, l, Key(l, va))) in m
  {
    hide Places, Pa, Key, TableOf;
    KeyBound(l, va);
    KeyBound(l - 1, va);
    assert SlotOk(m, place, r, l, Key(l, va));
    KeyUp(l - 1, va);
    TableUp(m, r, l - 1, Key(l - 1, va));
    PlacedKeys(m, place);
  }

  lemma PlacedKeys(m: Memory, place: map<nat, Place>)
    requires Placed(m, place)
    ensures m.Keys == place.Keys
  {
  }

  // Data pages in use stay so, with the same contents.
  predicate SameData(m: Memory, place: map<nat, Place>, m': Memory, place': map<nat, Place>, q: nat) {
    IsData(place, q) && !place[q].Free? ==> IsData(place', q) && !place'[q].Free? && q in m && q in m' && m'[q] == m[q]
  }

  lemma GrewSameData(m: Memory, place: map<nat, Place>, m': Memory, place': map<nat, Place>, q: nat)
    requires Grew(m, place, m', place')
    ensures SameData(m, place, m', place', q)
  {
    if q in place { assert KeepsPage(m, place, m', place', q); }
  }

  // ---- mapping a range ----

  // Where pages are once pa is mapped at k: a page that the table owns is reached through it.
  function Hung(place: map<nat, Place>, r: nat, k: nat, pa: nat): map<nat, Place>
    requires IsRoot(place, r)
  {
    if Private(place, r, 0, k) then place[pa := At(r, 0, k)] else place
  }

  predicate MappedAt(m: Memory, place: map<nat, Place>, r: nat, k: nat, pa: nat, perm: nat)
    requires IsRoot(place, r)
  {
    Pte(m, r, 0, k) == PteWord(pa, perm) && (Private(place, r, 0, k) ==> pa in place && place[pa] == At(r, 0, k))
  }

  // Nothing is mapped at k yet, and the page to go there is in its allocator's hands.
  predicate ReadyAt(m: Memory, place: map<nat, Place>, r: nat, k: nat, pa: nat)
    requires IsRoot(place, r)
  {
    Pte(m, r, 0, k) == 0 && (Private(place, r, 0, k) ==> pa in place && place[pa].Held?)
  }

  lemma LeafMapped(m: Memory, place: map<nat, Place>, r: nat, k: nat, pa: nat, perm: nat)
    requires Placed(m, place) && IsRoot(place, r) && k < Bound(0) && TableOf(m, r, 0, k) != 0 && TableOf(m, r, 0, k) in m
    requires ReadyAt(m, place, r, k, pa) && PermOk(0, perm)
    ensures var m' := Set(m, r, 0, k, PteWord(pa, perm));
      var place' := Hung(place, r, k, pa);
      && Placed(m', place') && IsRoot(place', r) && MappedAt(m', place', r, k, pa, perm)
      && Kept(m, place, m', place', r, k, k + 1, {pa})
  {
    hide Placed, TableOf, Pte, PteWord, Leaf;
    var e := PteWord(pa, perm);
    var m', place' := Set(m, r, 0, k, e), Hung(place, r, k, pa);
    assert Writable(m, place, r, 0, k, e);
    if Private(place, r, 0, k) {
      HungPlaced(m, place, r, 0, k, pa, perm);
    } else {
      SharedPlaced(m, place, r, k, pa, perm);
    }
    TableOwned(m, place, r, 0, k);
    PlacedKeys(m, place);
    StoredPte(m, place, r, 0, k, e, r, 0, k);
    forall q | q in place && q != pa
      ensures KeepsPage(m, place, m', place', q)
    {
    }
    forall x: nat, j: nat | IsRoot(place, x) && j < Bound(0) && !(x == r && k <= j < k + 1)
      ensures KeepsLeaf(m, m', x, j)
    {
      StoredPte(m, place, r, 0, k, e, x, 0, j);
    }
  }

  // n of total pages from pa on have been mapped at k0 on, the rest are ready.
  ghost predicate Prefix(m: Memory, place: map<nat, Place>, r: nat, k0: nat, n: nat, total: nat, pa: nat, perm: nat) {
    && IsRoot(place, r) && n <= total
    && (forall i: nat :: i < n ==> MappedAt(m, place, r, k0 + i, pa + PGSIZE * i, perm))
    && (forall i: nat :: n <= i < total ==> ReadyAt(m, place, r, k0 + i, pa + PGSIZE * i))
  }

  // The pages of memory from pa on.
  ghost function Pages(place: map<nat, Place>, pa: nat, n: nat): set<nat> {
    set q | q in place && pa <= q < pa + PGSIZE * n
  }

  lemma PrefixKept(m: Memory, place: map<nat, Place>, m': Memory, place': map<nat, Place>, r: nat, k0: nat, n: nat, total: nat, pa: nat, perm: nat)
    requires Prefix(m, place, r, k0, n, total, pa, perm) && Grew(m, place, m', place') && k0 + total <= Bound(0)
    ensures Prefix(m', place', r, k0, n, total, pa, perm)
  {
    assert IsRoot(place', r) && KeepsPage(m, place, m', place', r);
    forall i: nat | i < n
      ensures MappedAt(m', place', r, k0 + i, pa + PGSIZE * i, perm)
    {
      assert MappedAt(m, place, r, k0 + i, pa + PGSIZE * i, perm) && KeepsLeaf(m, m', r, k0 + i);
    }
    forall i: nat | n <= i < total
      ensures ReadyAt(m', place', r, k0 + i, pa + PGSIZE * i)
    {
      assert ReadyAt(m, place, r, k0 + i, pa + PGSIZE * i) && KeepsLeaf(m, m', r, k0 + i);
    }
  }

  lemma PrefixStep(m: Memory, place: map<nat, Place>, r: nat, k0: nat, n: nat, total: nat, pa: nat, perm: nat)
    requires Placed(m, place) && Prefix(m, place, r, k0, n, total, pa, perm) && n < total && k0 + total <= Bound(0)
    requires TableOf(m, r, 0, k0 + n) != 0 && TableOf(m, r, 0, k0 + n) in m && PermOk(0, perm)
    ensures var m' := Set(m, r, 0, k0 + n, PteWord(pa + PGSIZE * n, perm));
      var place' := Hung(place, r, k0 + n, pa + PGSIZE * n);
      && Pte(m, r, 0, k0 + n) == 0
      && Placed(m', place') && Prefix(m', place', r, k0, n + 1, total, pa, perm)
      && Kept(m, place, m', place', r, k0 + n, k0 + n + 1, {pa + PGSIZE * n})
      && (forall q :: q in place' && place'[q].Free? <==> q in place && place[q].Free?)
      && (forall q :: q in place && place[q].Free? ==> q in m && q in m' && m'[q] == m[q])
      && (forall q :: SameData(m, place, m', place', q))
  {
    hide Placed, TableOf, Pte, PteWord, Kept, PermOk;
    var q0 := pa + PGSIZE * n;
    assert ReadyAt(m, place, r, k0 + n, q0);
    LeafMapped(m, place, r, k0 + n, q0, perm);
    TableOwned(m, place, r, 0, k0 + n);
    PlacedKeys(m, place);
    var m', place' := Set(m, r, 0, k0 + n, PteWord(q0, perm)), Hung(place, r, k0 + n, q0);
    forall i: nat | i < n
      ensures MappedAt(m', place', r, k0 + i, pa + PGSIZE * i, perm)
    {
      assert MappedAt(m, place, r, k0 + i, pa + PGSIZE * i, perm);
      StoredPte(m, place, r, 0, k0 + n, PteWord(q0, perm), r, 0, k0 + i);
    }
    forall i: nat | n < i < total
      ensures ReadyAt(m', place', r, k0 + i, pa + PGSIZE * i)
    {
      assert ReadyAt(m, place, r, k0 + i, pa + PGSIZE * i);
      StoredPte(m, place, r, 0, k0 + n, PteWord(q0, perm), r, 0, k0 + i);
    }
  }

  // Pages that a range of size bytes at va touches.
  function Count(va: nat, size: nat): nat
    requires size > 0
  {
    Key(0, va + size - 1) - Key(0, va) + 1
  }

  lemma PageKeys(va: nat, size: nat, n: nat)
    requires size > 0 && va + size <= MAXVA && n < Count(va, size)
    ensures RoundDown(va) + PGSIZE * n < MAXVA && Key(0, RoundDown(va) + PGSIZE * n) == Key(0, va) + n
    ensures RoundDown(va) + PGSIZE * n == RoundDown(va + size - 1) <==> n + 1 == Count(va, size)
    ensures Key(0, va) + Count(va, size) <= Bound(0)
  {
  }

  lemma KeptPages(m: Memory, place: map<nat, Place>, m1: Memory, place1: map<nat, Place>, m2: Memory, place2: map<nat, Place>,
                  r: nat, k0: nat, n: nat, total: nat, pa: nat)
    requires Kept(m, place, m1, place1, r, k0, k0 + total, Pages(place, pa, total)) && n < total
    requires Kept(m1, place1, m2, place2, r, k0 + n, k0 + n + 1, {pa + PGSIZE * n})
    ensures Kept(m, place, m2, place2, r, k0, k0 + total, Pages(place, pa, total))
  {
    KeptWiden(m1, place1, m2, place2, r, k0 + n, k0 + n + 1, {pa + PGSIZE * n}, r, k0, k0 + total, {pa + PGSIZE * n});
    KeptTrans(m, place, m1, place1, m2, place2, r, k0, k0 + total, Pages(place, pa, total), {pa + PGSIZE * n});
  }

  lemma KeptThenGrew(m: Memory, place: map<nat, Place>, m1: Memory, place1: map<nat, Place>, m2: Memory, place2: map<nat, Place>,
                     r: nat, lo: nat, hi: nat, pages: set<nat>)
    requires Kept(m, place, m1, place1, r, lo, hi, pages) && Grew(m1, place1, m2, place2)
    ensures Kept(m, place, m2, place2, r, lo, hi, pages)
  {
    KeptWiden(m1, place1, m2, place2, 0, 0, 0, {}, r, lo, hi, {});
    KeptTrans(m, place, m1, place1, m2, place2, r, lo, hi, pages, {});
  }

  // ---- unmapping a range ----

  // q is reached through one of the leaves lo to hi of table r.
  predicate OnLeaf(place: map<nat, Place>, q: nat, r: nat, lo: nat, hi: nat) {
    q in place && place[q].At? && place[q].root == r && place[q].level == 0 && lo <= place[q].key < hi
  }

  ghost function LeafPages(place: map<nat, Place>, r: nat, lo: nat, hi: nat): set<nat> {
    set q | q in place && OnLeaf(place, q, r, lo, hi)
  }

  // One leaf cleared; page q behind it now has this place and these contents.
  ghost predicate LeafCleared(m: Memory, place: map<nat, Place>, m': Memory, place': map<nat, Place>, r: nat, k: nat, to: Place)
    requires IsRoot(place, r)
  {
    && Placed(m', place') && IsRoot(place', r)
    && Pte(m', r, 0, k) == 0
    && Kept(m, place, m', place', r, k, k + 1, {Pa(Pte(m, r, 0, k))})
    && (!Private(place, r, 0, k) ==> Kept(m, place, m', place', r, k, k + 1, {}))
    && (if Private(place, r, 0, k) then
          Pa(Pte(m, r, 0, k)) in place && place[Pa(Pte(m, r, 0, k))] == At(r, 0, k) && place' == place[Pa(Pte(m, r, 0, k)) := to]
        else place' == place)
  }

  lemma ClearToHolder(m: Memory, place: map<nat, Place>, r: nat, k: nat)
    requires Placed(m, place) && IsRoot(place, r) && k < Bound(0) && Pte(m, r, 0, k) != 0
    ensures TableOf(m, r, 0, k) in m && (Private(place, r, 0, k) ==> TableOf(m, r, 0, k) != Pa(Pte(m, r, 0, k)))
    ensures LeafCleared(m, place, Set(m, r, 0, k, 0), Unhung(m, place, r, 0, k), r, k, Held)
  {
    hide Placed, TableOf, Pa, Leaf;
    NullEntry(m, place, k % 512);
    TableOwned(m, place, r, 0, k);
    PlacedKeys(m, place);
    var m', place' := Set(m, r, 0, k, 0), Unhung(m, place, r, 0, k);
    assert Writable(m, place, r, 0, k, 0);
    ClearedPlaced(m, place, r, 0, k);
    StoredPte(m, place, r, 0, k, 0, r, 0, k);
    forall q | q in place && (q != Pa(Pte(m, r, 0, k)) || !Private(place, r, 0, k))
      ensures KeepsPage(m, place, m', place', q)
    {
    }
    forall x: nat, j: nat | IsRoot(place, x) && j < Bound(0) && !(x == r && k <= j < k + 1)
      ensures KeepsLeaf(m, m', x, j)
    {
      StoredPte(m, place, r, 0, k, 0, x, 0, j);
    }
  }

  // uvmunmap frees the page first and clears the entry then.
  lemma ClearToFree(m: Memory, place: map<nat, Place>, r: nat, k: nat, page: Page)
    requires Placed(m, place) && IsRoot(place, r) && k < Bound(0) && Pte(m, r, 0, k) != 0 && Private(place, r, 0, k)
    ensures var q := Pa(Pte(m, r, 0, k));
      var t := TableOf(m, r, 0, k);
      && t in m && q in m && t != q && q in place && !place[q].Free?
      && LeafCleared(m, place, Stored(m[q := page], t, k % 512, 0), place[q := Free], r, k, Free)
  {
    hide Placed, TableOf, Pa, Leaf, Pte, Kept;
    ClearToHolder(m, place, r, k);
    PlacedKeys(m, place);
    var q, t := Pa(Pte(m, r, 0, k)), TableOf(m, r, 0, k);
    var m1, place1 := Set(m, r, 0, k, 0), place[q := Held];
    PlacedKeys(m1, place1);
    DataPlaced(m1, place1, q, page);
    Rehung(m1[q := page], place1, q, Free);
    assert m1[q := page] == Stored(m[q := page], t, k % 512, 0);
    assert place1[q := Free] == place[q := Free];
    DataPte(m1, place1, q, page, r, 0, k);
    ClearedKept(m, place, m1, place1, r, k, q, page);
  }

  lemma ClearedKept(m: Memory, place: map<nat, Place>, m1: Memory, place1: map<nat, Place>, r: nat, k: nat, q: nat, page: Page)
    requires Kept(m, place, m1, place1, r, k, k + 1, {q}) && Placed(m1, place1) && q in place && !place[q].Root? && place1 == place[q := Held]
    ensures Kept(m, place, m1[q := page], place[q := Free], r, k, k + 1, {q})
  {
    hide Placed, Pte;
    var m2, place2 := m1[q := page], place[q := Free];
    forall p | p in place && p != q
      ensures KeepsPage(m, place, m2, place2, p)
    {
      assert KeepsPage(m, place, m1, place1, p);
    }
    forall x: nat, j: nat | IsRoot(place, x) && j < Bound(0) && !(x == r && k <= j < k + 1)
      ensures KeepsLeaf(m, m2, x, j)
    {
      assert KeepsLeaf(m, m1, x, j);
      DataPte(m1, place1, q, page, x, 0, j);
    }
  }

  predicate PteIs(m: Memory, r: nat, k: nat, e: nat) {
    Pte(m, r, 0, k) == e
  }

  predicate MovedTo(place0: map<nat, Place>, place: map<nat, Place>, q: nat, r: nat, lo: nat, hi: nat, to: Place) {
    OnLeaf(place0, q, r, lo, hi) ==> q in place && place[q] == to
  }

  predicate NotMoved(place0: map<nat, Place>, place: map<nat, Place>, q: nat, r: nat, lo: nat, hi: nat) {
    OnLeaf(place0, q, r, lo, hi) ==> q in place && place[q] == place0[q]
  }

  // n of total leaves from k0 on have been cleared, and their pages moved.
  ghost predicate Unmapping(m0: Memory, place0: map<nat, Place>, m: Memory, place: map<nat, Place>, r: nat, k0: nat, n: nat, total: nat, to: Place) {
    && IsRoot(place, r) && n <= total
    && Kept(m0, place0, m, place, r, k0, k0 + total, LeafPages(place0, r, k0, k0 + total))
    && (forall k: nat :: k0 <= k < k0 + n ==> PteIs(m, r, k, 0))
    && (forall k: nat :: k0 + n <= k < k0 + total ==> PteIs(m, r, k, Pte(m0, r, 0, k)))
    && (forall q :: q in place0 ==> MovedTo(place0, place, q, r, k0, k0 + n, to) && NotMoved(place0, place, q, r, k0 + n, k0 + total))
    && (forall q :: q in place0 && place0[q].Free? ==> q in place && place[q].Free?)
  }

  lemma UnmappingStart(m: Memory, place: map<nat, Place>, r: nat, k0: nat, total: nat, to: Place)
    requires Placed(m, place) && IsRoot(place, r)
    ensures Unmapping(m, place, m, place, r, k0, 0, total, to)
  {
    hide Placed, Pte;
    PlacedKeys(m, place);
    KeptRefl(m, place, r, k0, k0 + total, LeafPages(place, r, k0, k0 + total));
  }

  lemma UnmappingStep(m0: Memory, place0: map<nat, Place>, m: Memory, place: map<nat, Place>, m': Memory, place': map<nat, Place>,
                      r: nat, k0: nat, n: nat, total: nat, to: Place)
    requires Unmapping(m0, place0, m, place, r, k0, n, total, to) && n < total && k0 + total <= Bound(0)
    requires Placed(m0, place0) && IsRoot(place0, r) && Pte(m0, r, 0, k0 + n) != 0
    requires Placed(m, place) && LeafCleared(m, place, m', place', r, k0 + n, to)
    ensures Unmapping(m0, place0, m', place', r, k0, n + 1, total, to)
  {
    hide Placed, Pte, LeafPages, Pa;
    var k := k0 + n;
    assert PteIs(m, r, k, Pte(m0, r, 0, k));
    var q0 := Pa(Pte(m, r, 0, k));
    assert KeepsPage(m0, place0, m, place, r) by { NotOnLeaf(place0, r, r, k0, k0 + total); }
    LeafOwner(m0, place0, r, k);
    UnmappingKept(m0, place0, m, place, m', place', r, k0, n, total);
    forall j: nat | k0 <= j < k0 + total && j != k
      ensures Pte(m', r, 0, j) == Pte(m, r, 0, j)
    {
      assert KeepsLeaf(m, m', r, j);
    }
    forall j: nat | k0 <= j < k0 + n + 1
      ensures PteIs(m', r, j, 0)
    {
      if j < k { assert PteIs(m, r, j, 0); }
    }
    forall j: nat | k0 + n + 1 <= j < k0 + total
      ensures PteIs(m', r, j, Pte(m0, r, 0, j))
    {
      assert PteIs(m, r, j, Pte(m0, r, 0, j));
    }
    forall q | q in place0
      ensures MovedTo(place0, place', q, r, k0, k0 + n + 1, to) && NotMoved(place0, place', q, r, k0 + n + 1, k0 + total)
    {
      assert MovedTo(place0, place, q, r, k0, k0 + n, to) && NotMoved(place0, place, q, r, k0 + n, k0 + total);
      LeafPageIs(m0, place0, r, k, q);
    }
  }

  lemma NotOnLeaf(place: map<nat, Place>, q: nat, r: nat, lo: nat, hi: nat)
    requires IsRoot(place, q)
    ensures q !in LeafPages(place, r, lo, hi)
  {
  }

  lemma LeafOwner(m: Memory, place: map<nat, Place>, r: nat, k: nat)
    requires Placed(m, place) && IsRoot(place, r) && k < Bound(0) && Pte(m, r, 0, k) != 0
    ensures Private(place, r, 0, k) ==> OnLeaf(place, Pa(Pte(m, r, 0, k)), r, k, k + 1)
  {
    assert SlotOk(m, place, r, 0, k);
  }

  lemma LeafPageIs(m: Memory, place: map<nat, Place>, r: nat, k: nat, q: nat)
    requires Placed(m, place)
    ensures OnLeaf(place, q, r, k, k + 1) ==> IsRoot(place, r) && Private(place, r, 0, k) && q == Pa(Pte(m, r, 0, k))
  {
    if q in place { assert PlaceOk(m, place, q); }
  }

  lemma UnmappingKept(m0: Memory, place0: map<nat, Place>, m: Memory, place: map<nat, Place>, m': Memory, place': map<nat, Place>,
                      r: nat, k0: nat, n: nat, total: nat)
    requires IsRoot(place, r) && IsRoot(place0, r) && place[r] == place0[r] && n < total && k0 + total <= Bound(0)
    requires Placed(m0, place0) && Placed(m, place) && Pte(m, r, 0, k0 + n) == Pte(m0, r, 0, k0 + n) != 0
    requires Kept(m0, place0, m, place, r, k0, k0 + total, LeafPages(place0, r, k0, k0 + total))
    requires var q := Pa(Pte(m, r, 0, k0 + n));
      && Kept(m, place, m', place', r, k0 + n, k0 + n + 1, {q})
      && (!Private(place, r, 0, k0 + n) ==> Kept(m, place, m', place', r, k0 + n, k0 + n + 1, {}))
    ensures Kept(m0, place0, m', place', r, k0, k0 + total, LeafPages(place0, r, k0, k0 + total))
  {
    hide Placed, Pte, Pa, Kept;
    var k, q := k0 + n, Pa(Pte(m, r, 0, k0 + n));
    var pages: set<nat> := if Private(place, r, 0, k) then {q} else {};
    LeafOwner(m0, place0, r, k);
    KeptWiden(m, place, m', place', r, k, k + 1, pages, r, k0, k0 + total, pages);
    KeptTrans(m0, place0, m, place, m', place', r, k0, k0 + total, LeafPages(place0, r, k0, k0 + total), pages);
  }

  // ---- growing and copying: fresh pages behind a range of leaves ----

  // What a new leaf should show.
  datatype Want = Want(page: Page, perm: nat)

  // Leaf k leads to a page that was free at the start, with the wanted contents and permissions.
  predicate FreshAt(place0: map<nat, Place>, m: Memory, place: map<nat, Place>, r: nat, k: nat, w: Want) {
    var q := Pa(Pte(m, r, 0, k));
    && Pte(m, r, 0, k) == PteWord(q, w.perm) && Pte(m, r, 0, k) != 0
    && q in place0 && place0[q].Free? && q in place && place[q] == At(r, 0, k)
    && q in m && m[q] == w.page
  }

  // n of the wanted leaves are there.
  ghost predicate Filled(m0: Memory, place0: map<nat, Place>, m: Memory, place: map<nat, Place>, r: nat, k0: nat, n: nat, wants: seq<Want>) {
    && IsRoot(place, r) && n <= |wants|
    && Kept(m0, place0, m, place, r, k0, k0 + |wants|, {})
    && (forall i: nat :: i < n ==> FreshAt(place0, m, place, r, k0 + i, wants[i]))
    && (forall k: nat :: k0 + n <= k < k0 + |wants| ==> PteIs(m, r, k, 0))
  }

  lemma FilledStart(m: Memory, place: map<nat, Place>, r: nat, k0: nat, wants: seq<Want>)
    requires Placed(m, place) && IsRoot(place, r) && (forall k: nat :: k0 <= k < k0 + |wants| ==> PteIs(m, r, k, 0))
    ensures Filled(m, place, m, place, r, k0, 0, wants)
  {
    hide Placed, Pte;
    PlacedKeys(m, place);
    KeptRefl(m, place, r, k0, k0 + |wants|, {});
  }

  // One more fresh leaf.
  ghost predicate Added(m: Memory, place: map<nat, Place>, m': Memory, place': map<nat, Place>, r: nat, k: nat, w: Want) {
    IsRoot(place', r) && Kept(m, place, m', place', r, k, k + 1, {}) && FreshAt(place, m', place', r, k, w)
  }

  lemma FilledStep(m0: Memory, place0: map<nat, Place>, m: Memory, place: map<nat, Place>, m': Memory, place': map<nat, Place>,
                   r: nat, k0: nat, n: nat, wants: seq<Want>)
    requires Filled(m0, place0, m, place, r, k0, n, wants) && n < |wants| && k0 + |wants| <= Bound(0)
    requires Added(m, place, m', place', r, k0 + n, wants[n])
    ensures Filled(m0, place0, m', place', r, k0, n + 1, wants)
  {
    hide Pte, Pa, PteWord;
    KeptWiden(m, place, m', place', r, k0 + n, k0 + n + 1, {}, r, k0, k0 + |wants|, {});
    KeptTrans(m0, place0, m, place, m', place', r, k0, k0 + |wants|, {}, {});
    forall i: nat | i < n
      ensures FreshAt(place0, m', place', r, k0 + i, wants[i])
    {
      assert FreshAt(place0, m, place, r, k0 + i, wants[i]) && KeepsLeaf(m, m', r, k0 + i);
      assert KeepsPage(m, place, m', place', Pa(Pte(m, r, 0, k0 + i)));
    }
    forall k: nat | k0 + n + 1 <= k < k0 + |wants|
      ensures PteIs(m', r, k, 0)
    {
      assert PteIs(m, r, k, 0) && KeepsLeaf(m, m', r, k);
    }
    var q := Pa(Pte(m', r, 0, k0 + n));
    assert KeepsPage(m0, place0, m, place, q);
  }

  lemma FilledGrew(m0: Memory, place0: map<nat, Place>, m: Memory, place: map<nat, Place>, m': Memory, place': map<nat, Place>,
                   r: nat, k0: nat, n: nat, wants: seq<Want>)
    requires Filled(m0, place0, m, place, r, k0, n, wants) && Grew(m, place, m', place') && k0 + |wants| <= Bound(0)
    ensures Filled(m0, place0, m', place', r, k0, n, wants)
  {
    hide Pte, Pa, PteWord;
    KeptThenGrew(m0, place0, m, place, m', place', r, k0, k0 + |wants|, {});
    forall i: nat | i < n
      ensures FreshAt(place0, m', place', r, k0 + i, wants[i])
    {
      assert FreshAt(place0, m, place, r, k0 + i, wants[i]) && KeepsLeaf(m, m', r, k0 + i);
      assert KeepsPage(m, place, m', place', Pa(Pte(m, r, 0, k0 + i)));
    }
    forall k: nat | k0 + n <= k < k0 + |wants|
      ensures PteIs(m', r, k, 0)
    {
      assert PteIs(m, r, k, 0) && KeepsLeaf(m, m', r, k);
    }
  }

  // Taking back what was added leaves every mapping and every page in use as at the start.
  lemma FilledUndone(m0: Memory, place0: map<nat, Place>, m: Memory, place: map<nat, Place>, m': Memory, place': map<nat, Place>,
                     r: nat, k0: nat, n: nat, wants: seq<Want>)
    requires Filled(m0, place0, m, place, r, k0, n, wants) && Placed(m, place) && k0 + |wants| <= Bound(0)
    requires Unmapping(m, place, m', place', r, k0, n, n, Free)
    requires forall k: nat :: k0 <= k < k0 + |wants| ==> PteIs(m0, r, k, 0)
    ensures Grew(m0, place0, m', place')
  {
    hide Placed, Pte, Pa, PteWord;
    var pages := LeafPages(place, r, k0, k0 + n);
    KeptWiden(m, place, m', place', r, k0, k0 + n, pages, r, k0, k0 + |wants|, pages);
    forall q | q in pages && q in place0
      ensures place0[q].Free?
    {
      var k := place[q].key;
      LeafPageIs(m, place, r, k, q);
      assert FreshAt(place0, m, place, r, k0 + (k - k0), wants[k - k0]);
    }
    KeptTrans(m0, place0, m, place, m', place', r, k0, k0 + |wants|, {}, pages);
    forall x: nat, k: nat | IsRoot(place0, x) && k < Bound(0)
      ensures KeepsLeaf(m0, m', x, k)
    {
      if x == r && k0 <= k < k0 + |wants| {
        assert PteIs(m0, r, k, 0);
        if k < k0 + n {
          assert PteIs(m', r, k, 0);
        } else {
          assert PteIs(m, r, k, 0) && KeepsLeaf(m, m', r, k);
        }
      }
    }
  }

  lemma OnePage(a: nat)
    requires a % PGSIZE == 0 && Key(0, a) < PRIVATE
    ensures Count(a, PGSIZE) == 1 && a + PGSIZE <= MAXVA && Key(0, a) < Bound(0)
  {
  }

  lemma PagesOne(place: map<nat, Place>, q: nat)
    requires forall p :: p in place ==> p % 4096 == 0
    requires q % 4096 == 0
    ensures Pages(place, q, 1) <= {q}
  {
  }

  lemma ReadyOne(m: Memory, place: map<nat, Place>, r: nat, k: nat, q: nat, perm: nat)
    requires IsRoot(place, r) && ReadyAt(m, place, r, k, q)
    ensures Prefix(m, place, r, k, 0, 1, q, perm)
  {
    forall i: nat | 0 <= i < 1
      ensures ReadyAt(m, place, r, k + i, q + PGSIZE * i)
    {
      assert k + i == k && q + PGSIZE * i == q;
    }
  }

  lemma PrefixOne(m: Memory, place: map<nat, Place>, r: nat, k: nat, n: nat, q: nat, perm: nat)
    requires Prefix(m, place, r, k, n, 1, q, perm)
    ensures IsRoot(place, r)
    ensures n == 1 ==> MappedAt(m, place, r, k, q, perm)
    ensures n == 0 ==> ReadyAt(m, place, r, k, q)
  {
    if n == 1 {
      assert MappedAt(m, place, r, k + 0, q + PGSIZE * 0, perm);
    } else {
      assert ReadyAt(m, place, r, k + 0, q + PGSIZE * 0);
    }
  }

  // kalloc, fill, mappages of one page.
  lemma AddedOne(m: Memory, place: map<nat, Place>, q: nat, w: Want, m2: Memory, place2: map<nat, Place>, r: nat, k: nat, n: nat)
    requires Placed(m, place) && q in place && place[q].Free? && IsRoot(place, r) && Private(place, r, 0, k) && Pte(m, r, 0, k) == 0
    requires Placed(m2, place2) && Prefix(m2, place2, r, k, n, 1, q, w.perm) && w.perm < 1024
    requires Kept(m[q := w.page], place[q := Held], m2, place2, r, k, k + 1, Pages(place[q := Held], q, 1))
    requires SameData(m[q := w.page], place[q := Held], m2, place2, q)
    ensures n == 1 ==> Added(m, place, m2, place2, r, k, w)
    ensures n == 0 ==> q in place2 && place2[q].Held? && Kept(m, place, m2, place2, r, k, k + 1, {}) && Pte(m2, r, 0, k) == 0
  {
    hide Placed, Pte, Pa, PteWord, Kept, Prefix, Pages;
    var m1, place1 := m[q := w.page], place[q := Held];
    TakenGrew(m, place, q, w.page);
    PlacedAddr(m, place, q);
    PteRoundTrip(q, w.perm);
    PrefixOne(m2, place2, r, k, n, q, w.perm);
    PagesOne(place1, q) by { AllAligned(m1, place1); }
    KeptWiden(m1, place1, m2, place2, r, k, k + 1, Pages(place1, q, 1), r, k, k + 1, {q});
    KeptWiden(m, place, m1, place1, 0, 0, 0, {}, r, k, k + 1, {});
    KeptTrans(m, place, m1, place1, m2, place2, r, k, k + 1, {}, {q});
    KeptRoot(m, place, m2, place2, r, k, k + 1);
    PrefixLength(m2, place2, r, k, n, q, w.perm);
  }

  lemma PrefixLength(m: Memory, place: map<nat, Place>, r: nat, k: nat, n: nat, q: nat, perm: nat)
    requires Prefix(m, place, r, k, n, 1, q, perm)
    ensures n == 0 || n == 1
  {
  }

  lemma AllAligned(m: Memory, place: map<nat, Place>)
    requires Placed(m, place)
    ensures forall p :: p in place ==> p % 4096 == 0
  {
    forall p | p in place
      ensures p % 4096 == 0
    {
      PlacedAddr(m, place, p);
    }
  }

  // A root keeps its kind.
  lemma KeptRoot(m: Memory, place: map<nat, Place>, m': Memory, place': map<nat, Place>, r: nat, lo: nat, hi: nat)
    requires Kept(m, place, m', place', r, lo, hi, {}) && IsRoot(place, r)
    ensures IsRoot(place', r) && place'[r] == place[r]
  {
    assert KeepsPage(m, place, m', place', r);
  }

  // Nothing was mapped after all: only tables were added.
  lemma NothingAdded(m: Memory, place: map<nat, Place>, m2: Memory, place2: map<nat, Place>, r: nat, k: nat, q: nat, page: Page)
    requires Kept(m, place, m2, place2, r, k, k + 1, {}) && Pte(m, r, 0, k) == 0 && Pte(m2, r, 0, k) == 0
    requires Placed(m2, place2) && q in place && place[q].Free? && q in place2 && place2[q].Held?
    ensures Grew(m, place, m2[q := page], place2[q := Free])
  {
    hide Placed, Pte;
    var m3, place3 := m2[q := page], place2[q := Free];
    forall p | p in place
      ensures KeepsPage(m, place, m3, place3, p)
    {
      assert KeepsPage(m, place, m2, place2, p);
    }
    forall x: nat, j: nat | IsRoot(place, x) && j < Bound(0)
      ensures KeepsLeaf(m, m3, x, j)
    {
      if !(x == r && k <= j < k + 1) { assert KeepsLeaf(m, m2, x, j); }
      DataPte(m2, place2, q, page, x, 0, j);
    }
  }

  // uvmalloc: zeroed pages that the user may read, write and execute.
  function ZeroWants(n: nat): seq<Want> {
    seq(n, _ => Want(Zeros(), W + X + R + U))
  }

  // uvmcopy: what leaf k of table r shows.
  function Shown(m: Memory, r: nat, k: nat): Want {
    var e := Pte(m, r, 0, k);
    Want(if Pa(e) in m then m[Pa(e)] else Zeros(), Flags(e))
  }

  function CopyWants(m: Memory, r: nat, n: nat): seq<Want> {
    seq(n, (k: nat) => Shown(m, r, k))
  }

  // The leaves already filled can be unmapped again.
  lemma FilledMapped(m0: Memory, place0: map<nat, Place>, m: Memory, place: map<nat, Place>, r: nat, k0: nat, n: nat, wants: seq<Want>)
    requires Filled(m0, place0, m, place, r, k0, n, wants) && IsRoot(place0, r) && place0[r].user && k0 + |wants| <= PRIVATE
    requires forall i: nat :: i < |wants| ==> LeafFlags(wants[i])
    ensures forall k: nat :: k0 <= k < k0 + n ==> CanUnmap(m, r, k) && Private(place, r, 0, k)
    ensures IsRoot(place, r) && place[r].user
  {
    hide Pte, Pa, PteWord, Flags;
    KeptRoot(m0, place0, m, place, r, k0, k0 + |wants|);
    forall k: nat | k0 <= k < k0 + n
      ensures CanUnmap(m, r, k) && Private(place, r, 0, k)
    {
      assert LeafFlags(wants[k - k0]);
      assert FreshAt(place0, m, place, r, k0 + (k - k0), wants[k - k0]);
      PteRoundTrip(Pa(Pte(m, r, 0, k)), wants[k - k0].perm);
    }
  }

  // uvmunmap panics unless the page is mapped, with some flag besides PTE_V.
  predicate CanUnmap(m: Memory, r: nat, k: nat) {
    Pte(m, r, 0, k) != 0 && Flags(Pte(m, r, 0, k)) != V
  }

  predicate LeafFlags(w: Want) {
    w.perm < 1024 && WithV(w.perm) != V
  }

  // The pages behind n filled leaves are n different ones.
  lemma {:induction false} FilledCount(m0: Memory, place0: map<nat, Place>, m: Memory, place: map<nat, Place>, r: nat, k0: nat, n: nat, wants: seq<Want>) returns (pages: set<nat>)
    requires n <= |wants| && forall i: nat :: i < n ==> FreshAt(place0, m, place, r, k0 + i, wants[i])
    ensures |pages| == n && pages <= place.Keys && forall q :: q in pages ==> OnLeaf(place, q, r, k0, k0 + n)
  {
    hide Pte, Pa, PteWord;
    pages := {};
    if n > 0 {
      pages := FilledCount(m0, place0, m, place, r, k0, n - 1, wants);
      assert FreshAt(place0, m, place, r, k0 + (n - 1), wants[n - 1]);
      pages := pages + {Pa(Pte(m, r, 0, k0 + n - 1))};
    }
  }

  lemma FilledNeedsPages(m0: Memory, place0: map<nat, Place>, m: Memory, place: map<nat, Place>, r: nat, k0: nat, n: nat, wants: seq<Want>)
    requires Filled(m0, place0, m, place, r, k0, n, wants)
    ensures n <= |place|
  {
    hide Pte, Kept;
    var pages := FilledCount(m0, place0, m, place, r, k0, n, wants);
    Fewer(pages, place.Keys);
  }

  lemma Fewer(a: set<nat>, b: set<nat>)
    requires a <= b
    ensures |a| <= |b|
  {
    assert b == a + (b - a);
  }

  // The next leaf is still empty.
  lemma FilledNext(m0: Memory, place0: map<nat, Place>, m: Memory, place: map<nat, Place>, r: nat, k0: nat, n: nat, wants: seq<Want>)
    requires Filled(m0, place0, m, place, r, k0, n, wants) && n < |wants|
    ensures Pte(m, r, 0, k0 + n) == 0
  {
    assert PteIs(m, r, k0 + n, 0);
  }

  // While pages are added to one table, another still shows what it did.
  lemma StillShown(m0: Memory, place0: map<nat, Place>, m: Memory, place: map<nat, Place>, r: nat, hi: nat, x: nat, k: nat)
    requires Placed(m0, place0) && Kept(m0, place0, m, place, r, 0, hi, {}) && x != r && IsRoot(place0, x) && place0[x].user
    requires k < PRIVATE && Pte(m0, x, 0, k) != 0
    ensures Pte(m, x, 0, k) == Pte(m0, x, 0, k) && Pa(Pte(m0, x, 0, k)) in m && Shown(m, x, k) == Shown(m0, x, k)
    ensures PermOk(0, Flags(Pte(m0, x, 0, k)))
    ensures IsRoot(place, x)
  {
    hide Pte, Pa;
    assert SlotOk(m0, place0, x, 0, k) && KeepsLeaf(m0, m, x, k);
    assert KeepsPage(m0, place0, m, place, Pa(Pte(m0, x, 0, k)));
    FlagsSmall(Pte(m0, x, 0, k));
  }

  // ---- a new table ----

  lemma {:induction false} EmptyRoot(m: Memory, place: map<nat, Place>, q: nat, l: nat, key: nat)
    requires Placed(m, place) && q in m && (forall i: nat :: i < ENTRIES ==> m[q][i] == 0) && l <= 2
    ensures Pte(m, q, l, key) == 0
    decreases 2 - l
  {
    hide Placed, Pa;
    if l < 2 {
      EmptyRoot(m, place, q, l + 1, key / 512);
      TableUp(m, q, l, key);
      NullEntry(m, place, key % 512);
    }
  }

  lemma RootAdded(m: Memory, place: map<nat, Place>, q: nat)
    requires Placed(m, place) && q in place && place[q].Held? && q in m && (forall i: nat :: i < ENTRIES ==> m[q][i] == 0)
    ensures Placed(m, place[q := Root(true)])
    ensures forall k: nat :: k < Bound(0) ==> PteIs(m, q, k, 0)
  {
    hide Pte, Pa;
    var place' := place[q := Root(true)];
    forall r: nat, l: nat, key: nat | IsRoot(place', r) && l <= 2 && key < Bound(l)
      ensures SlotOk(m, place', r, l, key)
    {
      if r == q { EmptyRoot(m, place, q, l, key); } else { assert SlotOk(m, place, r, l, key); }
    }
    forall p | p in place'
      ensures PlaceOk(m, place', p)
    {
      assert PlaceOk(m, place, p);
    }
    forall k: nat | k < Bound(0)
      ensures PteIs(m, q, k, 0)
    {
      EmptyRoot(m, place, q, 0, k);
    }
  }

  // ---- what the invariant says of a page and of an address ----

  // Distinct pages below MAXVA have their leaf entries in distinct words of memory.
  lemma LeavesDistinct(m: Memory, place: map<nat, Place>, r: nat, va: nat, va': nat)
    requires Placed(m, place) && IsRoot(place, r) && va < MAXVA && va' < MAXVA && va % PGSIZE == 0 && va' % PGSIZE == 0
    requires TableOf(m, r, 0, Key(0, va)) != 0 && TableOf(m, r, 0, Key(0, va')) != 0
    ensures TableOf(m, r, 0, Key(0, va)) == TableOf(m, r, 0, Key(0, va')) && PX(0, va) == PX(0, va') <==> va == va'
  {
    hide Placed, TableOf;
    KeyBound(0, va);
    KeyBound(0, va');
    if TableOf(m, r, 0, Key(0, va)) == TableOf(m, r, 0, Key(0, va')) && PX(0, va) == PX(0, va') {
      DistinctSlots(m, place, r, 0, Key(0, va), r, 0, Key(0, va'));
    }
  }

  // A page is on the free list, or held, or a root, or behind exactly one entry of one table.
  lemma OnePlace(m: Memory, place: map<nat, Place>, head: nat, free: seq<nat>, r: nat, l: nat, key: nat, r': nat, l': nat, key': nat)
    requires Placed(m, place) && FreeOk(m, place, head, free)
    requires IsRoot(place, r) && l <= 2 && key < Bound(l) && Private(place, r, l, key) && Pte(m, r, l, key) != 0
    requires IsRoot(place, r') && l' <= 2 && key' < Bound(l') && Private(place, r', l', key') && Pte(m, r', l', key') != 0
    ensures var q := Pa(Pte(m, r, l, key));
      && q in place && q !in free && !place[q].Held? && !place[q].Root?
      && (Pa(Pte(m, r', l', key')) == q ==> r == r' && l == l' && key == key')
  {
    hide Pte, Pa;
    assert SlotOk(m, place, r, l, key) && SlotOk(m, place, r', l', key');
  }

  // The pages that uvmcopy gives the child are none of the parent's, and show the same bytes.
  lemma CopyIsDisjoint(m0: Memory, place0: map<nat, Place>, m: Memory, place: map<nat, Place>, parent: nat, child: nat, n: nat, k: nat, j: nat)
    requires Placed(m0, place0) && Filled(m0, place0, m, place, child, 0, n, CopyWants(m0, parent, n)) && n <= PRIVATE
    requires IsRoot(place0, parent) && place0[parent].user && parent != child && k < n && j < n
    requires Pte(m0, parent, 0, k) != 0 && Pte(m0, parent, 0, j) != 0
    ensures Pa(Pte(m, child, 0, k)) != Pa(Pte(m, parent, 0, j))
    ensures Pte(m, parent, 0, k) == Pte(m0, parent, 0, k)
    ensures Shown(m, child, k).page == Shown(m, parent, k).page == Shown(m0, parent, k).page
    ensures Flags(Pte(m, child, 0, k)) == WithV(Flags(Pte(m0, parent, 0, k)))
  {
    hide Pte, Pa, PteWord, Placed, Flags;
    var wants := CopyWants(m0, parent, n);
    assert FreshAt(place0, m, place, child, 0 + k, wants[k]);
    assert wants[k] == Shown(m0, parent, k);
    StillShown(m0, place0, m, place, child, n, parent, k);
    StillShown(m0, place0, m, place, child, n, parent, j);
    LeafOwner(m0, place0, parent, j);
    PteRoundTrip(Pa(Pte(m, child, 0, k)), wants[k].perm) by { FlagsSmall(Pte(m0, parent, 0, k)); }
  }

  lemma FlagsSmall(e: nat)
    ensures Flags(e) < 1024
  {
  }
}
