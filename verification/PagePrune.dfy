/** Taking a page table apart (kernel/vm.c:266-292). */
module PagePrune {
  import opened PageFormat
  import opened PageTree
  import opened PageMoves

  // The entry at level l on the way down to the entry for key at level from.
  function Lift(from: nat, l: nat, key: nat): nat
    requires from <= l <= 2
    decreases l - from
  {
    if from == l then key else Lift(from + 1, l, key / 512)
  }

  lemma LiftUp(from: nat, l: nat, key: nat)
    requires from < l <= 2
    ensures Lift(from, l, key) == Lift(from, l - 1, key) / 512
    decreases l - from
  {
    if from + 1 < l { LiftUp(from + 1, l, key / 512); }
  }

  // The entry is one of lo to hi at level l of table r, or below one.
  predicate Sub(r: nat, l: nat, lo: nat, hi: nat, x: nat, from: nat, key: nat)
    requires l <= 2
  {
    x == r && from <= l && lo <= Lift(from, l, key) < hi
  }

  predicate PlacePruned(place0: map<nat, Place>, place: map<nat, Place>, q: nat, r: nat, l: nat, lo: nat, hi: nat)
    requires q in place0 && l <= 2
  {
    && q in place
    && place[q] == if place0[q].At? && place0[q].level > 0 && Sub(r, l, lo, hi, place0[q].root, place0[q].level, place0[q].key) then Free
                   else place0[q]
  }

  predicate PtePruned(m0: Memory, m: Memory, r: nat, l: nat, lo: nat, hi: nat, x: nat, from: nat, key: nat)
    requires l <= 2 && from <= 2
  {
    Pte(m, x, from, key) == if Sub(r, l, lo, hi, x, from, key) then 0 else Pte(m0, x, from, key)
  }

  // The tables behind these entries are free, the entries are cleared, and nothing else has changed.
  ghost predicate Pruned(m0: Memory, place0: map<nat, Place>, m: Memory, place: map<nat, Place>, r: nat, l: nat, lo: nat, hi: nat)
    requires l <= 2
  {
    && place.Keys == place0.Keys
    && (forall q :: q in place0 ==> PlacePruned(place0, place, q, r, l, lo, hi))
    && (forall q :: SameData(m0, place0, m, place, q))
    && (forall x: nat, from: nat, key: nat :: IsRoot(place0, x) && from <= 2 && key < Bound(from) ==> PtePruned(m0, m, r, l, lo, hi, x, from, key))
  }

  lemma PrunedNothing(m: Memory, place: map<nat, Place>, r: nat, l: nat, lo: nat)
    requires Placed(m, place) && l <= 2
    ensures Pruned(m, place, m, place, r, l, lo, lo)
  {
    hide Placed, Pte;
    PlacedKeys(m, place);
  }

  lemma PrunedRoot(m0: Memory, place0: map<nat, Place>, m: Memory, place: map<nat, Place>, r: nat, l: nat, lo: nat, hi: nat, x: nat)
    requires l <= 2 && Pruned(m0, place0, m, place, r, l, lo, hi)
    ensures place.Keys == place0.Keys && (IsRoot(place, x) <==> IsRoot(place0, x))
    ensures IsRoot(place, x) ==> place[x] == place0[x]
  {
    if x in place0 { assert PlacePruned(place0, place, x, r, l, lo, hi); }
  }

  ghost predicate NoLeaves(m: Memory, r: nat) {
    forall k: nat :: k < Bound(0) ==> PteIs(m, r, k, 0)
  }

  lemma PrunedNoLeaves(m0: Memory, place0: map<nat, Place>, m: Memory, place: map<nat, Place>, r: nat, l: nat, lo: nat, hi: nat)
    requires l <= 2 && Pruned(m0, place0, m, place, r, l, lo, hi) && NoLeaves(m0, r) && IsRoot(place0, r)
    ensures NoLeaves(m, r)
  {
    hide Pte, Lift;
    forall k: nat | k < Bound(0)
      ensures PteIs(m, r, k, 0)
    {
      assert PteIs(m0, r, k, 0) && PtePruned(m0, m, r, l, lo, hi, r, 0, k);
    }
  }

  // ---- one entry ----

  // With everything below gone, the table page is freed and then the entry is cleared.
  ghost predicate EntryGone(m: Memory, place: map<nat, Place>, m': Memory, place': map<nat, Place>, r: nat, l: nat, key: nat)
    requires l <= 2
  {
    var q := Pa(Pte(m, r, l, key));
    && Placed(m', place') && q in place && place[q] == At(r, l, key) && place' == place[q := Free]
    && (forall p :: SameData(m, place, m', place', p))
    && (forall x: nat, from: nat, k: nat :: IsRoot(place, x) && from <= 2 && k < Bound(from) ==> OneCleared(m, m', r, l, key, x, from, k))
  }

  predicate OneCleared(m: Memory, m': Memory, r: nat, l: nat, key: nat, x: nat, from: nat, k: nat)
    requires from <= 2
  {
    Pte(m', x, from, k) == if x == r && from == l && k == key then 0 else Pte(m, x, from, k)
  }

  lemma EntryGoes(m: Memory, place: map<nat, Place>, r: nat, l: nat, key: nat, page: Page)
    requires Placed(m, place) && IsRoot(place, r) && 0 < l <= 2 && key < Bound(l) && Pte(m, r, l, key) != 0 && Childless(m, r, l, key)
    ensures var q := Pa(Pte(m, r, l, key));
      var t := TableOf(m, r, l, key);
      && t in m && q in m && t != q && q in place && !place[q].Free?
      && EntryGone(m, place, Stored(m[q := page], t, key % 512, 0), place[q := Free], r, l, key)
  {
    hide Placed, TableOf, Pa, Leaf, Pte, Lift;
    EntryTable(m, place, r, l, key);
    PlacedKeys(m, place);
    var q, t := Pa(Pte(m, r, l, key)), TableOf(m, r, l, key);
    assert Writable(m, place, r, l, key, 0);
    ClearedPlaced(m, place, r, l, key);
    var m1, place1 := Set(m, r, l, key, 0), place[q := Held];
    PlacedKeys(m1, place1);
    DataPlaced(m1, place1, q, page);
    Rehung(m1[q := page], place1, q, Free);
    var m', place' := Stored(m[q := page], t, key % 512, 0), place[q := Free];
    assert m1[q := page] == m';
    assert place1[q := Free] == place';
    forall x: nat, from: nat, k: nat | IsRoot(place, x) && from <= 2 && k < Bound(from)
      ensures OneCleared(m, m', r, l, key, x, from, k)
    {
      StoredPte(m, place, r, l, key, 0, x, from, k);
      DataPte(m1, place1, q, page, x, from, k);
    }
  }

  lemma LiftHere(l: nat, k: nat)
    requires l <= 2
    ensures Lift(l, l, k) == k
  {
  }

  lemma EntryTable(m: Memory, place: map<nat, Place>, r: nat, l: nat, key: nat)
    requires Placed(m, place) && IsRoot(place, r) && 0 < l <= 2 && key < Bound(l) && Pte(m, r, l, key) != 0
    ensures var t, q := TableOf(m, r, l, key), Pa(Pte(m, r, l, key));
      t != 0 && t in m && t in place && t != q && q in place && place[q] == At(r, l, key) && !IsData(place, t)
  {
    NullEntry(m, place, key % 512);
    TableOwned(m, place, r, l, key);
    PlacedKeys(m, place);
    assert SlotOk(m, place, r, l, key);
  }

  // Below an empty entry there is nothing.
  lemma {:induction false} EmptyBelow(m: Memory, place: map<nat, Place>, r: nat, l: nat, key: nat, from: nat, k: nat)
    requires Placed(m, place) && from <= l <= 2 && Lift(from, l, k) == key && Pte(m, r, l, key) == 0
    ensures Pte(m, r, from, k) == 0
    decreases l - from
  {
    hide Placed, Pa;
    if from < l {
      EmptyBelow(m, place, r, l, key, from + 1, k / 512);
      TableUp(m, r, from, k);
      NullEntry(m, place, k % 512);
    }
  }

  // An entry that was empty already.
  lemma PrunedEmpty(m0: Memory, place0: map<nat, Place>, m: Memory, place: map<nat, Place>, r: nat, l: nat, lo: nat, key: nat)
    requires l <= 2 && Pruned(m0, place0, m, place, r, l, lo, key) && lo <= key && Placed(m0, place0) && Placed(m, place)
    requires IsRoot(place0, r) && key < Bound(l) && Pte(m, r, l, key) == 0
    ensures Pruned(m0, place0, m, place, r, l, lo, key + 1)
  {
    hide Placed, Pte, Lift;
    var hi := key + 1;
    assert PtePruned(m0, m, r, l, lo, key, r, l, key);
    LiftHere(l, key);
    forall x: nat, from: nat, k: nat | IsRoot(place0, x) && from <= 2 && k < Bound(from)
      ensures PtePruned(m0, m, r, l, lo, hi, x, from, k)
    {
      assert PtePruned(m0, m, r, l, lo, key, x, from, k);
      if x == r && from <= l && Lift(from, l, k) == key { EmptyBelow(m0, place0, r, l, key, from, k); }
    }
    forall q | q in place0
      ensures PlacePruned(place0, place, q, r, l, lo, hi)
    {
      assert PlacePruned(place0, place, q, r, l, lo, key);
      if place0[q].At? && place0[q].root == r && place0[q].level <= l && Lift(place0[q].level, l, place0[q].key) == key {
        EmptyBelow(m0, place0, r, l, key, place0[q].level, place0[q].key);
        Occupied(m0, place0, q);
      }
    }
  }

  lemma Occupied(m: Memory, place: map<nat, Place>, q: nat)
    requires Placed(m, place) && q in place && place[q].At?
    ensures place[q].level <= 2 && Pte(m, place[q].root, place[q].level, place[q].key) != 0
    ensures IsRoot(place, place[q].root) && place[q].key < Bound(place[q].level)
  {
    assert PlaceOk(m, place, q);
  }

  // Being below entry key at level l is being below the table behind it.
  lemma SubChild(r: nat, l: nat, key: nat, x: nat, from: nat, k: nat)
    requires 0 < l <= 2
    ensures Sub(r, l, key, key + 1, x, from, k) <==>
              Sub(r, l - 1, key * 512, key * 512 + 512, x, from, k) || (x == r && from == l && k == key)
  {
    if from < l { LiftUp(from, l, k); } else if from == l { LiftHere(l, k); }
  }

  lemma SubSplit(r: nat, l: nat, lo: nat, key: nat, x: nat, from: nat, k: nat)
    requires l <= 2 && lo <= key
    ensures Sub(r, l, lo, key + 1, x, from, k) <==> Sub(r, l, lo, key, x, from, k) || Sub(r, l, key, key + 1, x, from, k)
  {
  }

  // freewalk on the table behind an entry, and then the entry.
  lemma PrunedStep(m0: Memory, place0: map<nat, Place>, m: Memory, place: map<nat, Place>, m1: Memory, place1: map<nat, Place>,
                   m2: Memory, place2: map<nat, Place>, r: nat, l: nat, lo: nat, key: nat)
    requires 0 < l <= 2 && lo <= key < Bound(l) && IsRoot(place0, r) && Placed(m0, place0) && Placed(m1, place1)
    requires Pruned(m0, place0, m, place, r, l, lo, key)
    requires Pruned(m, place, m1, place1, r, l - 1, key * 512, key * 512 + 512)
    requires EntryGone(m1, place1, m2, place2, r, l, key)
    ensures Pruned(m0, place0, m2, place2, r, l, lo, key + 1)
  {
    hide Placed, Pte, Lift, Sub, Pa;
    var hi := key + 1;
    forall q
      ensures SameData(m0, place0, m2, place2, q)
    {
      assert SameData(m0, place0, m, place, q) && SameData(m, place, m1, place1, q) && SameData(m1, place1, m2, place2, q);
    }
    forall x: nat, from: nat, k: nat | IsRoot(place0, x) && from <= 2 && k < Bound(from)
      ensures PtePruned(m0, m2, r, l, lo, hi, x, from, k)
    {
      PrunedRoot(m0, place0, m, place, r, l, lo, key, x);
      PrunedRoot(m, place, m1, place1, r, l - 1, key * 512, key * 512 + 512, x);
      assert PtePruned(m0, m, r, l, lo, key, x, from, k);
      assert PtePruned(m, m1, r, l - 1, key * 512, key * 512 + 512, x, from, k);
      assert OneCleared(m1, m2, r, l, key, x, from, k);
      SubChild(r, l, key, x, from, k);
      SubSplit(r, l, lo, key, x, from, k);
    }
    PrunedPlaces(m0, place0, m, place, m1, place1, m2, place2, r, l, lo, key);
  }

  lemma PrunedPlaces(m0: Memory, place0: map<nat, Place>, m: Memory, place: map<nat, Place>, m1: Memory, place1: map<nat, Place>,
                     m2: Memory, place2: map<nat, Place>, r: nat, l: nat, lo: nat, key: nat)
    requires 0 < l <= 2 && lo <= key < Bound(l) && IsRoot(place0, r) && Placed(m0, place0) && Placed(m1, place1)
    requires Pruned(m0, place0, m, place, r, l, lo, key)
    requires Pruned(m, place, m1, place1, r, l - 1, key * 512, key * 512 + 512)
    requires EntryGone(m1, place1, m2, place2, r, l, key)
    ensures place2.Keys == place0.Keys && forall q :: q in place0 ==> PlacePruned(place0, place2, q, r, l, lo, key + 1)
  {
    hide Placed, Pte, Lift, Sub, Pa, SameData, PtePruned, OneCleared;
    var gone := Pa(Pte(m1, r, l, key));
    forall q | q in place0
      ensures PlacePruned(place0, place2, q, r, l, lo, key + 1)
    {
      assert PlacePruned(place0, place, q, r, l, lo, key) && PlacePruned(place, place1, q, r, l - 1, key * 512, key * 512 + 512);
      if place0[q].At? {
        SubChild(r, l, key, place0[q].root, place0[q].level, place0[q].key);
        SubSplit(r, l, lo, key, place0[q].root, place0[q].level, place0[q].key);
        if place1[q] == At(r, l, key) { SamePlace(m1, place1, q, gone); }
      }
    }
  }

  lemma SamePlace(m: Memory, place: map<nat, Place>, q: nat, p: nat)
    requires Placed(m, place) && q in place && p in place && place[q].At? && place[q] == place[p]
    ensures q == p
  {
    assert PlaceOk(m, place, q) && PlaceOk(m, place, p);
  }

  // A cleared table has nothing behind its entries.
  lemma PrunedChildless(m0: Memory, place0: map<nat, Place>, m: Memory, place: map<nat, Place>, r: nat, l: nat, key: nat)
    requires 0 < l <= 2 && key < Bound(l) && IsRoot(place0, r) && Pruned(m0, place0, m, place, r, l - 1, key * 512, key * 512 + 512)
    ensures Childless(m, r, l, key)
    ensures Pte(m, r, l, key) == Pte(m0, r, l, key)
  {
    hide Pte;
    forall d: nat | d / 512 == key
      ensures Pte(m, r, l - 1, d) == 0
    {
      LiftHere(l - 1, d);
      assert PtePruned(m0, m, r, l - 1, key * 512, key * 512 + 512, r, l - 1, d);
    }
    assert PtePruned(m0, m, r, l - 1, key * 512, key * 512 + 512, r, l, key);
  }

  // ---- the root ----

  // Nothing is left of table r but its empty root page, which is freed.
  lemma RootFreed(m0: Memory, place0: map<nat, Place>, m: Memory, place: map<nat, Place>, r: nat, page: Page)
    requires Placed(m0, place0) && Placed(m, place) && IsRoot(place0, r) && IsRoot(place, r) && NoLeaves(m0, r)
    requires Pruned(m0, place0, m, place, r, 2, 0, 512)
    ensures Placed(m[r := page], place[r := Free])
    ensures forall q :: q in place0 ==> q in place && place[r := Free][q] == if q == r || (place0[q].At? && place0[q].root == r) then Free else place0[q]
  {
    hide Placed, Pa;
    var m', place' := m[r := page], place[r := Free];
    PlacedKeys(m, place);
    forall q | q in place
      ensures !(place[q].At? && place[q].root == r)
    {
      NothingLeft(m0, place0, m, place, r, q);
    }
    forall q | q in place0
      ensures q in place && place'[q] == if q == r || (place0[q].At? && place0[q].root == r) then Free else place0[q]
    {
      assert PlacePruned(place0, place, q, r, 2, 0, 512);
      assert !(place[q].At? && place[q].root == r);
    }
    RootlessPlaced(m, place, r, page);
  }

  lemma NothingLeft(m0: Memory, place0: map<nat, Place>, m: Memory, place: map<nat, Place>, r: nat, q: nat)
    requires Placed(m0, place0) && Placed(m, place) && IsRoot(place0, r) && NoLeaves(m0, r) && Pruned(m0, place0, m, place, r, 2, 0, 512)
    requires q in place
    ensures !(place[q].At? && place[q].root == r)
  {
    hide Placed, Pte, Lift;
    if place[q].At? && place[q].root == r {
      Occupied(m, place, q);
      var l, key := place[q].level, place[q].key;
      assert PtePruned(m0, m, r, 2, 0, 512, r, l, key);
      LiftBound(l, key);
      assert false;
    }
  }

  lemma LiftBound(l: nat, key: nat)
    requires l <= 2 && key < Bound(l)
    ensures Lift(l, 2, key) < 512
  {
    if l == 0 {
      assert Lift(0, 2, key) == Lift(1, 2, key / 512) == key / 512 / 512;
    }
  }

  lemma {:induction false} OtherRoot(m: Memory, place: map<nat, Place>, r: nat, page: Page, x: nat, l: nat, key: nat)
    requires Placed(m, place) && IsRoot(place, r) && IsRoot(place, x) && x != r && l <= 2 && key < Bound(l)
    ensures TableOf(m[r := page], x, l, key) == TableOf(m, x, l, key) && Pte(m[r := page], x, l, key) == Pte(m, x, l, key)
    decreases 2 - l
  {
    hide Placed, Pa;
    var m' := m[r := page];
    if l < 2 {
      OtherRoot(m, place, r, page, x, l + 1, key / 512);
      TableUp(m, x, l, key);
      TableUp(m', x, l, key);
    }
    TableOwned(m, place, x, l, key);
    NullEntry(m, place, 0);
    PlacedAddr(m, place, r);
  }

  lemma RootlessPlaced(m: Memory, place: map<nat, Place>, r: nat, page: Page)
    requires Placed(m, place) && IsRoot(place, r) && forall q :: q in place ==> !(place[q].At? && place[q].root == r)
    ensures Placed(m[r := page], place[r := Free])
  {
    hide Pte, Pa;
    var m', place' := m[r := page], place[r := Free];
    forall x: nat, l: nat, key: nat | IsRoot(place', x) && l <= 2 && key < Bound(l)
      ensures SlotOk(m', place', x, l, key)
    {
      assert SlotOk(m, place, x, l, key);
      OtherRoot(m, place, r, page, x, l, key);
    }
    forall q | q in place'
      ensures PlaceOk(m', place', q)
    {
      assert PlaceOk(m, place, q);
      if place'[q].At? { OtherRoot(m, place, r, page, place'[q].root, place'[q].level, place'[q].key); }
    }
  }

  // ---- freewalk's loop ----

  // Entry i of the table page for tk.
  lemma EntryOf(m: Memory, r: nat, l: nat, tk: nat, i: nat)
    requires l <= 2 && i < 512
    ensures TableOf(m, r, l, tk * 512 + i) == TableOf(m, r, l, tk * 512)
    ensures TableOf(m, r, l, tk * 512) in m ==> m[TableOf(m, r, l, tk * 512)][i] == Pte(m, r, l, tk * 512 + i)
  {
    assert (tk * 512 + i) / 512 == tk && (tk * 512) / 512 == tk;
    if l == 2 {
      assert TableOf(m, r, l, tk * 512 + i) == r;
    } else {
      TableUp(m, r, l, tk * 512 + i);
      TableUp(m, r, l, tk * 512);
    }
  }

  lemma PrunedTable(m0: Memory, place0: map<nat, Place>, m: Memory, place: map<nat, Place>, r: nat, l: nat, tk: nat, hi: nat)
    requires l <= 2 && tk * 512 < Bound(l) && IsRoot(place0, r) && Pruned(m0, place0, m, place, r, l, tk * 512, hi)
    ensures TableOf(m, r, l, tk * 512) == TableOf(m0, r, l, tk * 512)
  {
    hide Pte, Lift;
    if l < 2 {
      TableUp(m0, r, l, tk * 512);
      TableUp(m, r, l, tk * 512);
      assert PtePruned(m0, m, r, l, tk * 512, hi, r, l + 1, tk);
    } else {
      assert TableOf(m, r, l, tk * 512) == r == TableOf(m0, r, l, tk * 512);
    }
  }

  // What freewalk finds in an entry: nothing, or a pointer to the next table.
  lemma EntryFound(m: Memory, place: map<nat, Place>, r: nat, l: nat, key: nat)
    requires Placed(m, place) && IsRoot(place, r) && NoLeaves(m, r) && l <= 2 && key < Bound(l)
    ensures var e := Pte(m, r, l, key);
      && (Valid(e) <==> e != 0) && (e != 0 ==> l > 0 && !Leaf(e))
      && (e != 0 ==> Pa(e) in m && Pa(e) in place && PageAddr(Pa(e)) && Pa(e) == TableOf(m, r, l - 1, key * 512) && key * 512 < Bound(l - 1))
  {
    hide Places, TableOf;
    assert SlotOk(m, place, r, l, key);
    if l == 0 {
      assert PteIs(m, r, key, 0);
    } else {
      TableUp(m, r, l - 1, key * 512);
      if Pte(m, r, l, key) != 0 {
        PlacedKeys(m, place);
        PlacedAddr(m, place, Pa(Pte(m, r, l, key)));
        PointerIsNoLeaf(Pte(m, r, l, key));
      }
    }
  }

  lemma PointerIsNoLeaf(e: nat)
    requires Flags(e) == V
    ensures !Leaf(e)
  {
  }
}
