/** Three-level page tables in physical memory, and where every physical page is
    (kernel/vm.c:80-187, kernel/kalloc.c). */
module PageTree {
  import opened PageFormat

  // A page as its 64-bit words: page-table entries, a free-list link, or data.
  type Page = s: seq<nat> | |s| == ENTRIES witness seq(ENTRIES, _ => 0)

  type Memory = map<nat, Page>

  // The one place where a page is: on the free list, the root of a page table, reached through the
  // entry for key at some level of the table with this root, or in the hands of its allocator.
  datatype Place = Free | Root(user: bool) | Held | At(root: nat, level: nat, key: nat)

  // Pages below the trapframe belong to the page table that maps them.
  const PRIVATE: nat := 0x3ff_fffe

  function Load(m: Memory, t: nat, i: nat): nat {
    if t in m && i < ENTRIES then m[t][i] else 0
  }

  // The table page that has the entry for key, 0 if there is none.
  function TableOf(m: Memory, r: nat, l: nat, key: nat): nat
    requires l <= 2
    decreases 2 - l
  {
    if l == 2 then r
    else
      var e := Load(m, TableOf(m, r, l + 1, key / 512), key / 512 % 512);
      if e == 0 then 0 else Pa(e)
  }

  function Pte(m: Memory, r: nat, l: nat, key: nat): nat
    requires l <= 2
  {
    Load(m, TableOf(m, r, l, key), key % 512)
  }

  lemma TableUp(m: Memory, r: nat, l: nat, key: nat)
    requires l < 2
    ensures TableOf(m, r, l, key) == if Pte(m, r, l + 1, key / 512) == 0 then 0 else Pa(Pte(m, r, l + 1, key / 512))
  {
  }

  // ---- the invariant ----

  predicate IsRoot(place: map<nat, Place>, r: nat) {
    r in place && place[r].Root?
  }

  // The page behind this entry belongs to the table.
  predicate Private(place: map<nat, Place>, r: nat, l: nat, key: nat)
    requires IsRoot(place, r)
  {
    l > 0 || (place[r].user && key < PRIVATE)
  }

  predicate SlotOk(m: Memory, place: map<nat, Place>, r: nat, l: nat, key: nat)
    requires IsRoot(place, r) && l <= 2
  {
    var e := Pte(m, r, l, key);
    e != 0 ==>
      && Valid(e) && (l > 0 ==> Flags(e) == V)
      && (Private(place, r, l, key) ==> Pa(e) in place && place[Pa(e)] == At(r, l, key))
  }

  predicate PlaceOk(m: Memory, place: map<nat, Place>, q: nat)
    requires q in place
  {
    place[q].At? ==>
      && var At(r, l, key) := place[q];
         && IsRoot(place, r) && l <= 2 && key < Bound(l) && Private(place, r, l, key)
         && Pte(m, r, l, key) != 0 && Pa(Pte(m, r, l, key)) == q
  }

  ghost predicate Slots(m: Memory, place: map<nat, Place>) {
    forall r: nat, l: nat, key: nat :: IsRoot(place, r) && l <= 2 && key < Bound(l) ==> SlotOk(m, place, r, l, key)
  }

  ghost predicate Places(m: Memory, place: map<nat, Place>) {
    && m.Keys == place.Keys
    && (forall q :: q in place ==> PageAddr(q))
    && (forall q :: q in place ==> PlaceOk(m, place, q))
  }

  ghost predicate Placed(m: Memory, place: map<nat, Place>) {
    Slots(m, place) && Places(m, place)
  }

  lemma PlacedAddr(m: Memory, place: map<nat, Place>, q: nat)
    requires Placed(m, place) && q in place
    ensures PageAddr(q) && q in m && q % 4096 == 0 && q != 0
  {
  }

  lemma NullEntry(m: Memory, place: map<nat, Place>, i: nat)
    requires Placed(m, place)
    ensures 0 !in m && Load(m, 0, i) == 0
  {
    assert 0 !in place;
  }

  // A table page is a root, or is reached through exactly one entry.
  lemma TableOwned(m: Memory, place: map<nat, Place>, r: nat, l: nat, key: nat)
    requires Placed(m, place) && IsRoot(place, r) && l <= 2 && key < Bound(l)
    ensures var t := TableOf(m, r, l, key);
      t != 0 ==> t in m && if l == 2 then t == r else place[t] == At(r, l + 1, key / 512)
  {
    if l < 2 {
      TableUp(m, r, l, key);
      assert SlotOk(m, place, r, l + 1, key / 512);
    }
  }

  // Distinct entries are in distinct words of memory.
  lemma DistinctSlots(m: Memory, place: map<nat, Place>, r: nat, l: nat, key: nat, r': nat, l': nat, key': nat)
    requires Placed(m, place) && IsRoot(place, r) && l <= 2 && key < Bound(l)
    requires IsRoot(place, r') && l' <= 2 && key' < Bound(l')
    requires TableOf(m, r, l, key) != 0 && TableOf(m, r, l, key) == TableOf(m, r', l', key') && key % 512 == key' % 512
    ensures r == r' && l == l' && key == key'
  {
    TableOwned(m, place, r, l, key);
    TableOwned(m, place, r', l', key');
  }

  // ---- pages that are not tables ----

  // The words of q are not page-table entries.
  predicate IsData(place: map<nat, Place>, q: nat) {
    q in place && (place[q].Free? || place[q].Held? || (place[q].At? && place[q].level == 0))
  }

  lemma {:induction false} DataPte(m: Memory, place: map<nat, Place>, q: nat, page: Page, r: nat, l: nat, key: nat)
    requires Placed(m, place) && IsData(place, q) && IsRoot(place, r) && l <= 2 && key < Bound(l)
    ensures TableOf(m[q := page], r, l, key) == TableOf(m, r, l, key)
    ensures Pte(m[q := page], r, l, key) == Pte(m, r, l, key)
    decreases 2 - l
  {
    var m' := m[q := page];
    if l < 2 {
      DataPte(m, place, q, page, r, l + 1, key / 512);
      TableUp(m, r, l, key);
      TableUp(m', r, l, key);
    }
    TableOwned(m, place, r, l, key);
  }

  lemma DataPlaced(m: Memory, place: map<nat, Place>, q: nat, page: Page)
    requires Placed(m, place) && IsData(place, q)
    ensures Placed(m[q := page], place)
  {
    var m' := m[q := page];
    forall r: nat, l: nat, key: nat | IsRoot(place, r) && l <= 2 && key < Bound(l)
      ensures SlotOk(m', place, r, l, key)
    {
      assert SlotOk(m, place, r, l, key);
      DataPte(m, place, q, page, r, l, key);
    }
    forall p | p in place
      ensures PlaceOk(m', place, p)
    {
      assert PlaceOk(m, place, p);
      if place[p].At? { DataPte(m, place, q, page, place[p].root, place[p].level, place[p].key); }
    }
  }

  // A page moves between the free list and its holder.
  lemma Rehung(m: Memory, place: map<nat, Place>, q: nat, to: Place)
    requires Placed(m, place) && q in place && (place[q].Free? || place[q].Held?) && (to.Free? || to.Held?)
    ensures Placed(m, place[q := to])
  {
    var place' := place[q := to];
    forall r: nat, l: nat, key: nat | IsRoot(place', r) && l <= 2 && key < Bound(l)
      ensures SlotOk(m, place', r, l, key)
    {
      assert SlotOk(m, place, r, l, key);
    }
    forall p | p in place'
      ensures PlaceOk(m, place', p)
    {
      assert PlaceOk(m, place, p);
    }
  }

  // ---- writing an entry ----

  function Stored(m: Memory, t: nat, i: nat, e: nat): Memory
    requires t in m && i < ENTRIES
  {
    m[t := m[t][i := e]]
  }

  // There is nothing behind the entry, and nothing will be: above level 0 it gets 0 or an empty table.
  ghost predicate Writable(m: Memory, place: map<nat, Place>, r: nat, l: nat, key: nat, e: nat) {
    && IsRoot(place, r) && l <= 2 && key < Bound(l) && TableOf(m, r, l, key) != 0 && TableOf(m, r, l, key) in m
    && (l > 0 ==> Childless(m, r, l, key) && (e == 0 || EmptyTable(m, place, Pa(e))))
  }

  ghost predicate Childless(m: Memory, r: nat, l: nat, key: nat)
    requires 0 < l <= 2
  {
    forall d: nat :: d / 512 == key ==> Pte(m, r, l - 1, d) == 0
  }

  predicate EmptyTable(m: Memory, place: map<nat, Place>, q: nat) {
    q in m && q in place && place[q].Held? && forall i: nat :: i < ENTRIES ==> m[q][i] == 0
  }

  // An entry of a table page that is still reached the same way.
  lemma StoredSameTable(m: Memory, place: map<nat, Place>, r: nat, l: nat, key: nat, e: nat, r': nat, l': nat, key': nat)
    requires Placed(m, place) && Writable(m, place, r, l, key, e)
    requires IsRoot(place, r') && l' <= 2 && key' < Bound(l')
    requires TableOf(Stored(m, TableOf(m, r, l, key), key % 512, e), r', l', key') == TableOf(m, r', l', key')
    ensures Pte(Stored(m, TableOf(m, r, l, key), key % 512, e), r', l', key')
            == if r' == r && l' == l && key' == key then e else Pte(m, r', l', key')
  {
    hide Placed, TableOf;
    NullEntry(m, place, 0);
    var t, t' := TableOf(m, r, l, key), TableOf(m, r', l', key');
    if t' == t && key' % 512 == key % 512 { DistinctSlots(m, place, r, l, key, r', l', key'); }
  }

  // An entry of the table that the written entry led to, or leads to now.
  lemma StoredChild(m: Memory, place: map<nat, Place>, r: nat, l: nat, key: nat, e: nat, key': nat)
    requires Placed(m, place) && Writable(m, place, r, l, key, e) && 0 < l && key' / 512 == key
    requires Pte(Stored(m, TableOf(m, r, l, key), key % 512, e), r, l, key) == e
    ensures Pte(Stored(m, TableOf(m, r, l, key), key % 512, e), r, l - 1, key') == Pte(m, r, l - 1, key')
  {
    hide Placed;
    NullEntry(m, place, 0);
    TableOwned(m, place, r, l, key);
    TableUp(Stored(m, TableOf(m, r, l, key), key % 512, e), r, l - 1, key');
    assert Pte(m, r, l - 1, key') == 0;
  }

  lemma {:induction false} StoredPte(m: Memory, place: map<nat, Place>, r: nat, l: nat, key: nat, e: nat, r': nat, l': nat, key': nat)
    requires Placed(m, place) && Writable(m, place, r, l, key, e)
    requires IsRoot(place, r') && l' <= 2 && key' < Bound(l')
    ensures Pte(Stored(m, TableOf(m, r, l, key), key % 512, e), r', l', key')
            == if r' == r && l' == l && key' == key then e else Pte(m, r', l', key')
    decreases 2 - l'
  {
    hide Placed, Pa, Pte, Writable;
    WritableFacts(m, place, r, l, key, e);
    var m' := Stored(m, TableOf(m, r, l, key), key % 512, e);
    if l' < 2 {
      StoredPte(m, place, r, l, key, e, r', l' + 1, key' / 512);
      TableUp(m, r', l', key');
      TableUp(m', r', l', key');
    }
    if r' == r && l' + 1 == l && key' / 512 == key {
      StoredChild(m, place, r, l, key, e, key');
    } else {
      StoredSameTable(m, place, r, l, key, e, r', l', key');
    }
  }

  // The entry for key written.
  function Set(m: Memory, r: nat, l: nat, key: nat, e: nat): Memory
    requires l <= 2 && TableOf(m, r, l, key) in m
  {
    Stored(m, TableOf(m, r, l, key), key % 512, e)
  }

  // perm suits an entry of this level: any of the ten flag bits, none for a pointer to the next table.
  predicate PermOk(l: nat, perm: nat) {
    perm < 1024 && (l > 0 ==> perm == 0)
  }

  // A held page becomes part of the table.
  lemma HungPlaced(m: Memory, place: map<nat, Place>, r: nat, l: nat, key: nat, q: nat, perm: nat)
    requires Placed(m, place) && Writable(m, place, r, l, key, PteWord(q, perm)) && PermOk(l, perm)
    requires Pte(m, r, l, key) == 0 && q in place && place[q].Held? && Private(place, r, l, key)
    ensures Placed(Set(m, r, l, key, PteWord(q, perm)), place[q := At(r, l, key)])
  {
    hide TableOf, Pte, Writable, Pa, Flags, PteWord, Valid, Leaf;
    var e := PteWord(q, perm);
    WritableFacts(m, place, r, l, key, e);
    var m', place' := Set(m, r, l, key, e), place[q := At(r, l, key)];
    PteRoundTrip(q, perm);
    forall r': nat, l': nat, key': nat | IsRoot(place', r') && l' <= 2 && key' < Bound(l')
      ensures SlotOk(m', place', r', l', key')
    {
      StoredPte(m, place, r, l, key, e, r', l', key');
      assert SlotOk(m, place, r', l', key');
    }
    forall p | p in place'
      ensures PlaceOk(m', place', p)
    {
      assert PlaceOk(m, place, p);
      if place'[p].At? {
        var At(r', l', key') := place'[p];
        StoredPte(m, place, r, l, key, e, r', l', key');
      }
    }
  }

  lemma WritableFacts(m: Memory, place: map<nat, Place>, r: nat, l: nat, key: nat, e: nat)
    requires Writable(m, place, r, l, key, e)
    ensures IsRoot(place, r) && l <= 2 && key < Bound(l) && TableOf(m, r, l, key) in m
  {
  }

  // A leaf that shares a page it does not own.
  lemma SharedPlaced(m: Memory, place: map<nat, Place>, r: nat, key: nat, pa: nat, perm: nat)
    requires Placed(m, place) && Writable(m, place, r, 0, key, PteWord(pa, perm)) && PermOk(0, perm)
    requires !Private(place, r, 0, key)
    ensures Placed(Set(m, r, 0, key, PteWord(pa, perm)), place)
  {
    hide TableOf, Pte, Writable, Pa, Flags, PteWord, Valid, Leaf;
    var e := PteWord(pa, perm);
    WritableFacts(m, place, r, 0, key, e);
    var m' := Set(m, r, 0, key, e);
    PteRoundTrip(pa, perm);
    forall r': nat, l': nat, key': nat | IsRoot(place, r') && l' <= 2 && key' < Bound(l')
      ensures SlotOk(m', place, r', l', key')
    {
      StoredPte(m, place, r, 0, key, e, r', l', key');
      assert SlotOk(m, place, r', l', key');
    }
    forall p | p in place
      ensures PlaceOk(m', place, p)
    {
      assert PlaceOk(m, place, p);
      if place[p].At? {
        var At(r', l', key') := place[p];
        StoredPte(m, place, r, 0, key, e, r', l', key');
      }
    }
  }

  // Where pages are once the entry has been cleared: a page the table owned is held by the caller.
  function Unhung(m: Memory, place: map<nat, Place>, r: nat, l: nat, key: nat): map<nat, Place>
    requires IsRoot(place, r) && l <= 2
  {
    if Private(place, r, l, key) then place[Pa(Pte(m, r, l, key)) := Held] else place
  }

  lemma ClearedPlaced(m: Memory, place: map<nat, Place>, r: nat, l: nat, key: nat)
    requires Placed(m, place) && Writable(m, place, r, l, key, 0) && Pte(m, r, l, key) != 0
    ensures Placed(Set(m, r, l, key, 0), Unhung(m, place, r, l, key))
    ensures Private(place, r, l, key) ==> Pa(Pte(m, r, l, key)) in place && place[Pa(Pte(m, r, l, key))] == At(r, l, key)
  {
    hide TableOf, Pte, Writable, Pa, Flags, Valid, Leaf;
    WritableFacts(m, place, r, l, key, 0);
    var m', place' := Set(m, r, l, key, 0), Unhung(m, place, r, l, key);
    assert SlotOk(m, place, r, l, key);
    forall r': nat, l': nat, key': nat | IsRoot(place', r') && l' <= 2 && key' < Bound(l')
      ensures SlotOk(m', place', r', l', key')
    {
      StoredPte(m, place, r, l, key, 0, r', l', key');
      assert SlotOk(m, place, r', l', key');
    }
    forall p | p in place'
      ensures PlaceOk(m', place', p)
    {
      assert PlaceOk(m, place, p);
      if place'[p].At? {
        var At(r', l', key') := place'[p];
        StoredPte(m, place, r, l, key, 0, r', l', key');
      }
    }
  }
}
