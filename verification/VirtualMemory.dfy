/** The page allocator and the page-table operations (kernel/kalloc.c:46-98, kernel/vm.c:80-328).

    Panics on misuse (remapping a page, unmapping one that is not mapped, an address that is too
    large) are preconditions.  Page tables whose root is not a user's map pages they do not own. */
module VirtualMemory {
  import opened PageFormat
  import opened PageTree
  import opened PageMoves
  import opened PagePrune

  ghost predicate Inv(m: Memory, place: map<nat, Place>, head: nat, free: seq<nat>) {
    Placed(m, place) && FreeOk(m, place, head, free)
  }

  // memset(p, c, PGSIZE), as words, with a list pointer in the first.
  function Junk(fill: nat, first: nat): Page {
    seq(ENTRIES, i => if i == 0 then first else fill)
  }

  const ONES: nat := 0x0101_0101_0101_0101
  const FIVES: nat := 0x0505_0505_0505_0505

  class VirtualMemory {
    var mem: Memory
    var head: nat                        // kmem.freelist
    ghost var place: map<nat, Place>
    ghost var free: seq<nat>

    ghost predicate Valid()
      reads this
    {
      Inv(mem, place, head, free)
    }

    // Physical memory before kinit: every page is in the kernel's hands.
    constructor (mem: Memory)
      requires forall q :: q in mem ==> PageAddr(q)
      ensures this.mem == mem && Valid() && free == [] && place.Keys == mem.Keys
      ensures forall q :: q in place ==> place[q] == Held
    {
      this.mem := mem;
      head := 0;
      place := map q | q in mem :: Held;
      free := [];
    }

    // freerange: all whole pages from start to end become free.
    method FreeRange(start: nat, end: nat)
      requires Valid() && RoundUp(start) > 0
      requires forall q: nat :: start <= q && q + PGSIZE <= end && q % 4096 == 0 ==> q in place && place[q].Held?
      modifies this
      ensures Valid() && place.Keys == old(place).Keys
      ensures forall q :: q in place ==> place[q] == if start <= q && q + PGSIZE <= end then Free else old(place)[q]
    {
      hide Placed, FreeOk, Junk, RangeFree;
      AllAligned(mem, place);
      var p := RoundUp(start);
      RangeStart(place, start, p);
      while p + PGSIZE <= end
        invariant p % 4096 == 0 && start <= p
        invariant Valid() && RangeFree(old(place), place, start, p)
        invariant p == RoundUp(start) || p <= end
        decreases end - p
      {
        RangeNext(old(place), place, start, p);
        PlacedAddr(mem, place, p);
        KFree(p);
        p := p + PGSIZE;
      }
      RangeEnd(old(place), place, start, p, end);
    }

    method KAlloc() returns (pa: nat)
      requires Valid()
      modifies this
      ensures Valid() && Grew(old(mem), old(place), mem, place)
      ensures pa == 0 <==> old(free) == []
      ensures pa == 0 ==> mem == old(mem) && place == old(place) && free == old(free) && head == old(head)
      ensures pa != 0 ==> pa == old(free)[0] && free == old(free)[1..]
      ensures pa != 0 ==> pa in old(place) && old(place)[pa].Free? && place == old(place)[pa := Held]
      ensures pa != 0 ==> mem == old(mem)[pa := Junk(FIVES, FIVES)]
    {
      hide Placed, FreeOk, Kept, Junk;
      pa := head;
      NullIsEmpty(mem, place, head, free);
      KeptRefl(mem, place, 0, 0, 0, {});
      if pa != 0 {
        FreePopped(mem, place, head, free, Junk(FIVES, FIVES));
        TakenGrew(mem, place, pa, Junk(FIVES, FIVES));
        head := mem[pa][0];
        mem := mem[pa := Junk(FIVES, FIVES)];
        place, free := place[pa := Held], free[1..];
      }
    }

    // kfree; the page must not be on the list already.
    method KFree(pa: nat)
      requires FreeOk(mem, place, head, free) && pa in place && !place[pa].Free? && PageAddr(pa)
      modifies this
      ensures FreeOk(mem, place, head, free)
      ensures place == old(place)[pa := Free] && free == [pa] + old(free) && mem == old(mem)[pa := Junk(ONES, old(head))]
      ensures Placed(old(mem), old(place)) && old(place)[pa].Held? ==> Valid()
    {
      hide Placed, FreeOk, Junk;
      JunkFirst(ONES, head);
      FreePushed(mem, place, head, free, pa, Junk(ONES, head));
      if Placed(mem, place) && place[pa].Held? {
        DataPlaced(mem, place, pa, Junk(ONES, head));
        Rehung(mem[pa := Junk(ONES, head)], place, pa, Free);
      }
      mem := mem[pa := Junk(ONES, head)];
      head := pa;
      place, free := place[pa := Free], [pa] + free;
    }

    // kfreemem
    method KFreeMem() returns (bytes: nat)
      requires Valid()
      ensures bytes == PGSIZE * |free|
    {
      hide Placed;
      NullIsEmpty(mem, place, head, free);
      var r, count := head, 0;
      while r != 0
        invariant count <= |free| && r == if count < |free| then free[count] else 0
        decreases |free| - count
      {
        assert LinkOk(mem, free, count);
        NotNull(mem, place, head, free, count + 1);
        r := mem[r][0];
        count := count + 1;
      }
      NotNull(mem, place, head, free, count);
      bytes := count * PGSIZE;
    }

    // A fresh empty table hung behind an empty entry, or 0 when memory is out.
    method AddTable(r: nat, level: nat, va: nat, t: nat) returns (q: nat)
      requires Valid() && IsRoot(place, r) && 0 < level <= 2 && va < MAXVA
      requires t == TableOf(mem, r, level, Key(level, va)) && t in mem && Pte(mem, r, level, Key(level, va)) == 0
      modifies this
      ensures Valid() && Grew(old(mem), old(place), mem, place)
      ensures q == 0 ==> mem == old(mem) && free == []
      ensures q != 0 ==> q == TableOf(mem, r, level - 1, Key(level - 1, va)) && q in mem
    {
      hide Placed, FreeOk, Kept, Junk, TableOf, Pte, Key;
      ghost var m, pl, key := mem, place, Key(level, va);
      KeyBound(level, va);
      KeyUp(level - 1, va);
      TableOwned(m, pl, r, level, key);
      NullEntry(m, pl, 0);
      q := KAlloc();
      if q != 0 {
        ghost var m1, pl1 := mem, place;
        mem := mem[q := Zeros()];
        assert mem == m[q := Zeros()];
        TableAdded(m, pl, q, r, level, key);
        mem := mem[t := mem[t][PX(level, va) := PteWord(q, 0)]];
        place := place[q := At(r, level, key)];
        assert mem == Set(m[q := Zeros()], r, level, key, PteWord(q, 0)) && place == pl[q := At(r, level, key)];
        FreeFrame(m1, pl1, head, free, mem, place) by {
          PlacedKeys(m, pl);
          assert m1 == m[q := Junk(FIVES, FIVES)] && pl1 == pl[q := Held];
        }
        assert Key(level - 1, va) / 512 == key;
      }
    }

    // walk: the page of the leaf entry for va, or 0.
    method Walk(r: nat, va: nat, alloc: bool) returns (t: nat)
      requires Valid() && IsRoot(place, r) && va < MAXVA
      modifies this
      ensures Valid() && Grew(old(mem), old(place), mem, place)
      ensures t == TableOf(mem, r, 0, Key(0, va)) && (t != 0 ==> t in mem)
      ensures t == 0 ==> if alloc then free == [] else TableOf(old(mem), r, 0, Key(0, va)) == 0
      ensures !alloc ==> mem == old(mem) && place == old(place) && head == old(head) && free == old(free)
    {
      hide Placed, FreeOk, Kept, TableOf, Pte, Key, PX;
      PlacedKeys(mem, place);
      NullEntry(mem, place, 0);
      KeptRefl(mem, place, 0, 0, 0, {});
      t := r;
      var level := 2;
      TableAtRoot(mem, r, Key(2, va));
      while level > 0
        invariant level <= 2 && Valid() && IsRoot(place, r) && t in mem && t != 0
        invariant t == TableOf(mem, r, level, Key(level, va))
        invariant Grew(old(mem), old(place), mem, place)
        invariant !alloc ==> mem == old(mem) && place == old(place) && head == old(head) && free == old(free)
      {
        var e := mem[t][PX(level, va)];
        NextTable(mem, place, r, level, va);
        NullEntry(mem, place, 0);
        if PageFormat.Valid(e) {
          t := Pa(e);
        } else {
          if !alloc {
            NoTable(mem, place, r, level, va);
            return 0;
          }
          ghost var m1, pl1 := mem, place;
          t := AddTable(r, level, va, t);
          KeptTrans(old(mem), old(place), m1, pl1, mem, place, 0, 0, 0, {}, {});
          GrewRoot(m1, pl1, mem, place, r);
          if t == 0 {
            NoTable(mem, place, r, level, va);
            return;
          }
          NullEntry(mem, place, 0);
        }
        level := level - 1;
      }
    }

    // mappages: page after page until one needs a table that cannot be had; n were mapped.
    method MapPages(r: nat, va: nat, size: nat, pa: nat, perm: nat) returns (ret: int, ghost n: nat)
      requires Valid() && IsRoot(place, r) && size > 0 && va + size <= MAXVA && PermOk(0, perm)
      requires Prefix(mem, place, r, Key(0, va), 0, Count(va, size), pa, perm)
      modifies this
      ensures Valid() && Prefix(mem, place, r, Key(0, va), n, Count(va, size), pa, perm)
      ensures ret == (if n == Count(va, size) then 0 else -1) && (ret == -1 ==> free == [])
      ensures Kept(old(mem), old(place), mem, place, r, Key(0, va), Key(0, va) + Count(va, size), Pages(old(place), pa, Count(va, size)))
      ensures forall q :: SameData(old(mem), old(place), mem, place, q)
    {
      hide Placed, FreeOk, Kept, TableOf, Pte, Key, PX, Prefix, Pages, PteWord, PermOk, Count, RoundDown;
      ghost var k0, total := Key(0, va), Count(va, size);
      PlacedKeys(mem, place);
      KeptRefl(mem, place, r, k0, k0 + total, Pages(place, pa, total));
      var a, last, p := RoundDown(va), RoundDown(va + size - 1), pa;
      n := 0;
      CountPositive(va, size);
      while true
        invariant n < total && a == RoundDown(va) + PGSIZE * n && p == pa + PGSIZE * n
        invariant Valid() && IsRoot(place, r) && Prefix(mem, place, r, k0, n, total, pa, perm)
        invariant Kept(old(mem), old(place), mem, place, r, k0, k0 + total, Pages(old(place), pa, total))
        invariant forall q :: SameData(old(mem), old(place), mem, place, q)
        decreases total - n
      {
        PageKeys(va, size, n);
        ghost var m1, pl1 := mem, place;
        var t := Walk(r, a, true);
        GrewRoot(m1, pl1, mem, place, r);
        PrefixKept(m1, pl1, mem, place, r, k0, n, total, pa, perm);
        forall q
          ensures SameData(old(mem), old(place), mem, place, q)
        {
          assert SameData(old(mem), old(place), m1, pl1, q);
          GrewSameData(m1, pl1, mem, place, q);
        }
        KeptThenGrew(old(mem), old(place), m1, pl1, mem, place, r, k0, k0 + total, Pages(old(place), pa, total));
        if t == 0 {
          return -1, n;
        }
        m1, pl1 := mem, place;
        PrefixStep(mem, place, r, k0, n, total, pa, perm);
        EntryIndex(mem, r, a);
        assert mem[t][PX(0, a)] == 0;          // no "mappages: remap"
        mem := mem[t := mem[t][PX(0, a) := PteWord(p, perm)]];
        place := Hung(place, r, k0 + n, p);
        FreeFrame(m1, pl1, head, free, mem, place);
        forall q
          ensures SameData(old(mem), old(place), mem, place, q)
        {
          assert SameData(old(mem), old(place), m1, pl1, q) && SameData(m1, pl1, mem, place, q);
        }
        KeptPages(old(mem), old(place), m1, pl1, mem, place, r, k0, n, total, pa);
        n := n + 1;
        if a == last {
          break;
        }
        a, p := a + PGSIZE, p + PGSIZE;
      }
      ret := 0;
    }

    // uvmunmap: the leaves disappear; their pages go to the free list, or back to the caller.
    method UvmUnmap(r: nat, va: nat, npages: nat, doFree: bool)
      requires Valid() && IsRoot(place, r) && va % PGSIZE == 0 && va + npages * PGSIZE <= MAXVA
      requires forall k: nat :: Key(0, va) <= k < Key(0, va) + npages ==> CanUnmap(mem, r, k) && (doFree ==> Private(place, r, 0, k))
      modifies this
      ensures Valid() && Unmapping(old(mem), old(place), mem, place, r, Key(0, va), npages, npages, if doFree then Free else Held)
      ensures |free| == |old(free)| + if doFree then npages else 0
    {
      hide Placed, FreeOk, Kept, TableOf, Pte, Key, PX, Unmapping, Pa, LeafCleared, Junk, Unhung;
      ghost var k0, to := Key(0, va), if doFree then Free else Held;
      UnmappingStart(mem, place, r, k0, npages, to);
      var a := va;
      ghost var n := 0;
      while a < va + npages * PGSIZE
        invariant n <= npages && a == va + n * PGSIZE
        invariant Valid() && IsRoot(place, r) && Unmapping(old(mem), old(place), mem, place, r, k0, n, npages, to)
        invariant |free| == |old(free)| + if doFree then n else 0
      {
        AlignedKey(va, npages, n);
        assert CanUnmap(old(mem), r, k0 + n);
        UnmappingFacts(old(mem), old(place), mem, place, r, k0, n, npages, to);
        ghost var m, pl, k := mem, place, k0 + n;
        var t := Walk(r, a, false);
        TableThere(mem, place, r, k);
        EntryIndex(mem, r, a);
        var e := mem[t][PX(0, a)];
        LeafPresent(mem, place, r, k);
        assert CanUnmap(old(mem), r, k);
        assert PageFormat.Valid(e) && Flags(e) != V;       // no "uvmunmap: not mapped" or "not a leaf"
        ClearToHolder(m, pl, r, k);
        if doFree {
          ClearToFree(m, pl, r, k, Junk(ONES, head));
          PlacedAddr(m, pl, Pa(e));
          KFree(Pa(e));
        } else {
          UnhungFree(m, pl, r, k, head, free);
          place := Unhung(m, pl, r, 0, k);
        }
        ghost var m1, pl1 := mem, place;
        mem := mem[t := mem[t][PX(0, a) := 0]];
        ClearedFree(m, pl, r, k, head, free, m1, pl1, mem);
        UnmappingStep(old(mem), old(place), m, pl, mem, place, r, k0, n, npages, to);
        LeafClearedRoot(m, pl, mem, place, r, k, to);
        a := a + PGSIZE;
        n := n + 1;
      }
    }

    // uvmcreate: an empty table, or 0.
    method UvmCreate() returns (r: nat)
      requires Valid()
      modifies this
      ensures Valid()
      ensures r == 0 <==> old(free) == []
      ensures r == 0 ==> mem == old(mem) && place == old(place)
      ensures r != 0 ==> r in old(place) && old(place)[r].Free? && place == old(place)[r := Root(true)]
      ensures r != 0 ==> forall k: nat :: k < Bound(0) ==> PteIs(mem, r, k, 0)
      ensures r != 0 ==> forall x: nat, k: nat :: IsRoot(old(place), x) && k < Bound(0) ==> KeepsLeaf(old(mem), mem, x, k)
    {
      hide Placed, FreeOk, Kept, Pte, Junk, PteIs, KeepsLeaf;
      ghost var m, pl := mem, place;
      r := KAlloc();
      if r != 0 {
        PlacedKeys(mem, place);
        FreeFrame(mem, place, head, free, mem[r := Zeros()], place);
        TakenGrew(m, pl, r, Zeros());
        mem := mem[r := Zeros()];
        assert mem == m[r := Zeros()];
        GrewLeaves(m, pl, mem, place);
        RootAdded(mem, place, r);
        FreeFrame(mem, place, head, free, mem, place[r := Root(true)]);
        place := place[r := Root(true)];
      }
    }

    // walkaddr: the page a user address leads to, or 0.
    method WalkAddr(r: nat, va: nat) returns (pa: nat)
      requires Valid() && IsRoot(place, r)
      modifies this
      ensures mem == old(mem) && place == old(place) && head == old(head) && free == old(free)
      ensures pa == if va < MAXVA && IsUser(Pte(mem, r, 0, Key(0, va))) && Pte(mem, r, 0, Key(0, va)) != 0 then Pa(Pte(mem, r, 0, Key(0, va))) else 0
    {
      hide Placed, FreeOk, Pte, Key, PX, Pa, IsUser, Leaf;
      if va >= MAXVA {
        return 0;
      }
      var t := Walk(r, va, false);
      if t == 0 {
        NoTableNoLeaf(mem, place, r, va);
        return 0;
      }
      EntryIndex(mem, r, va);
      var e := mem[t][PX(0, va)];
      KeyBound(0, va);
      if e != 0 { LeafPresent(mem, place, r, Key(0, va)); }
      if !PageFormat.Valid(e) {
        InvalidEntry(mem, place, r, Key(0, va));
        return 0;
      }
      if !IsUser(e) {
        return 0;
      }
      ZeroInvalid();
      pa := Pa(e);
    }

    // The body of uvmalloc's and uvmcopy's loops: a fresh page with these contents, mapped at a.
    method AddPage(r: nat, a: nat, w: Want) returns (ok: bool)
      requires Valid() && IsRoot(place, r) && place[r].user && a % PGSIZE == 0 && Key(0, a) < PRIVATE
      requires Pte(mem, r, 0, Key(0, a)) == 0 && PermOk(0, w.perm)
      modifies this
      ensures Valid()
      ensures ok ==> Added(old(mem), old(place), mem, place, r, Key(0, a), w)
      ensures !ok ==> Grew(old(mem), old(place), mem, place) && |free| <= 1
    {
      hide Placed, FreeOk, Kept, Pte, Key, Prefix, Pages, Count, Junk, Added;
      ghost var m, pl, k := mem, place, Key(0, a);
      OnePage(a);
      var q := KAlloc();
      if q == 0 {
        return false;
      }
      FreeFrame(mem, place, head, free, mem[q := w.page], place) by { PlacedKeys(m, pl); }
      TakenGrew(m, pl, q, w.page);
      mem := mem[q := w.page];
      assert mem == m[q := w.page];
      DataPte(m, pl, q, w.page, r, 0, k);
      ReadyOne(mem, place, r, k, q, w.perm);
      ghost var n;
      var ret;
      ret, n := MapPages(r, a, PGSIZE, q, w.perm);
      AddedOne(m, pl, q, w, mem, place, r, k, n);
      PrefixLength(mem, place, r, k, n, q, w.perm);
      ok := ret == 0;
      if !ok {
        NothingAdded(m, pl, mem, place, r, k, q, Junk(ONES, head));
        PlacedAddr(mem, place, q);
        KFree(q);
      }
    }

    // uvmdealloc
    method UvmDealloc(r: nat, oldsz: nat, newsz: nat) returns (sz: nat)
      requires Valid() && IsRoot(place, r) && (newsz < oldsz ==> RoundUp(oldsz) <= MAXVA)
      requires forall k: nat :: RoundUp(newsz) / PGSIZE <= k < RoundUp(oldsz) / PGSIZE ==> CanUnmap(mem, r, k) && Private(place, r, 0, k)
      modifies this
      ensures Valid()
      ensures sz == if newsz >= oldsz then oldsz else newsz
      ensures if newsz < oldsz && RoundUp(newsz) < RoundUp(oldsz) then
                var k0, n := RoundUp(newsz) / PGSIZE, RoundUp(oldsz) / PGSIZE - RoundUp(newsz) / PGSIZE;
                Unmapping(old(mem), old(place), mem, place, r, k0, n, n, Free) && |free| == |old(free)| + n
              else
                mem == old(mem) && place == old(place) && free == old(free)
    {
      hide Placed, FreeOk, Pte, Unmapping;
      if newsz >= oldsz {
        return oldsz;
      }
      if RoundUp(newsz) < RoundUp(oldsz) {
        var npages := (RoundUp(oldsz) - RoundUp(newsz)) / PGSIZE;
        UvmUnmap(r, RoundUp(newsz), npages, true);
      }
      sz := newsz;
    }

    // uvmalloc: all the pages from oldsz to newsz, zeroed, or none.  Growing into the trapframe ends
    // in mappages' panic, if memory lasts so long.
    method UvmAlloc(r: nat, oldsz: nat, newsz: nat) returns (sz: nat, panicked: bool)
      requires Valid() && IsRoot(place, r) && place[r].user
      requires forall k: nat :: RoundUp(oldsz) / PGSIZE <= k < RoundUp(newsz) / PGSIZE && k < PRIVATE ==> PteIs(mem, r, k, 0)
      requires newsz > PRIVATE * PGSIZE ==> Pte(mem, r, 0, PRIVATE) != 0 && Pte(mem, r, 0, PRIVATE + 1) != 0
      modifies this
      ensures Valid()
      ensures newsz < oldsz ==> !panicked && sz == oldsz && mem == old(mem) && place == old(place) && free == old(free)
      ensures newsz >= oldsz && !panicked ==> sz == newsz || sz == 0
      ensures newsz >= oldsz && !panicked && sz == newsz && sz != 0 ==>
                var n := RoundUp(newsz) / PGSIZE - RoundUp(oldsz) / PGSIZE;
                Filled(old(mem), old(place), mem, place, r, RoundUp(oldsz) / PGSIZE, n, ZeroWants(n))
      // The user can read, write and run every new page, and finds zeros there.
      ensures newsz >= oldsz && !panicked && sz == newsz && sz != 0 ==>
                forall k: nat :: RoundUp(oldsz) / PGSIZE <= k < RoundUp(newsz) / PGSIZE ==> UserZeros(mem, r, k)
      ensures newsz >= oldsz && !panicked && sz == 0 ==> Grew(old(mem), old(place), mem, place)
      // It fails only for want of memory, and panics only if all pages below the trapframe could be had.
      ensures newsz >= oldsz && !panicked && sz == 0 && newsz != 0 ==> |free| <= RoundUp(newsz) / PGSIZE - RoundUp(oldsz) / PGSIZE
      ensures panicked ==> newsz > PRIVATE * PGSIZE && RoundUp(oldsz) / PGSIZE + |place| >= PRIVATE
    {
      hide Placed, FreeOk, Pte, Unmapping, Filled, Kept, Added, ZeroWants, LeafFlags, Key;
      panicked := false;
      if newsz < oldsz {
        return oldsz, false;
      }
      var start := RoundUp(oldsz);
      ghost var k0, total := Min(start / PGSIZE, PRIVATE), PagesBelowTop(oldsz, newsz);
      GrowthFacts(oldsz, newsz);
      ghost var wants := ZeroWants(total);
      ZeroWanted(total);
      FilledStart(mem, place, r, k0, wants);
      FilledStart(mem, place, r, start / PGSIZE, wants);
      StartGrew(mem, place);
      var a := start;
      ghost var n := 0;
      while a < newsz
        invariant n <= total && a == start + n * PGSIZE
        invariant Valid() && Filled(old(mem), old(place), mem, place, r, k0, n, wants)
        invariant n == 0 ==> mem == old(mem) && place == old(place)
      {
        ghost var m, pl := mem, place;
        var ok;
        if a >= PRIVATE * PGSIZE {
          AtTheTop(old(mem), old(place), mem, place, r, oldsz, newsz, n, wants);
          var q := KAlloc();
          if q != 0 {
            return 0, true;                                 // "mappages: remap" or "walk"
          }
          ok := false;
        } else {
          BelowTheTop(oldsz, newsz, n, a);
          FilledMapped(old(mem), old(place), mem, place, r, k0, n, wants);
          FilledNext(old(mem), old(place), mem, place, r, k0, n, wants);
          ok := AddPage(r, a, Want(Zeros(), W + X + R + U));
        }
        if !ok {
          FilledGrew(old(mem), old(place), m, pl, mem, place, r, k0, n, wants);
          GiveBack(r, a, start, old(mem), old(place), k0, n, wants);
          return 0, false;
        }
        FilledStep(old(mem), old(place), m, pl, mem, place, r, k0, n, wants);
        a := a + PGSIZE;
        n := n + 1;
      }
      GrowthDone(oldsz, newsz, n);
      sz := newsz;
      if total > 0 { FilledForUser(old(mem), old(place), mem, place, r, k0, total); }
    }

    // The pages added so far, when no more can be had.
    method GiveBack(r: nat, a: nat, start: nat, ghost m0: Memory, ghost place0: map<nat, Place>, ghost k0: nat, ghost n: nat, ghost wants: seq<Want>)
      requires Valid() && Filled(m0, place0, mem, place, r, k0, n, wants) && IsRoot(place0, r) && place0[r].user
      requires a == start + n * PGSIZE && start % PGSIZE == 0 && (n > 0 ==> start == k0 * PGSIZE) && k0 + |wants| <= PRIVATE && n <= |wants|
      requires forall i: nat :: i < |wants| ==> LeafFlags(wants[i])
      requires forall k: nat :: k0 <= k < k0 + |wants| ==> PteIs(m0, r, k, 0)
      modifies this
      ensures Valid() && Grew(m0, place0, mem, place) && |free| == |old(free)| + n
    {
      hide Placed, FreeOk, Pte, Unmapping, Filled, Kept, LeafFlags;
      FilledMapped(m0, place0, mem, place, r, k0, n, wants);
      UnmappingStart(mem, place, r, k0, 0, Free);
      AlignedSizes(start, k0, n);
      var rest := UvmDealloc(r, a, start);
      FilledUndone(m0, place0, old(mem), old(place), mem, place, r, k0, n, wants);
    }

    // uvmcopy: the child's pages are fresh and show what the parent's show, or the child is as it was.
    method UvmCopy(parent: nat, child: nat, sz: nat) returns (ret: int)
      requires Valid() && IsRoot(place, parent) && place[parent].user && IsRoot(place, child) && place[child].user && parent != child
      requires sz <= PRIVATE * PGSIZE
      requires forall k: nat :: k < RoundUp(sz) / PGSIZE ==> CanUnmap(mem, parent, k) && PteIs(mem, child, k, 0)
      modifies this
      ensures Valid() && (ret == 0 || ret == -1)
      ensures ret == 0 ==>
                var n := RoundUp(sz) / PGSIZE;
                Filled(old(mem), old(place), mem, place, child, 0, n, CopyWants(old(mem), parent, n))
      ensures ret == -1 ==> Grew(old(mem), old(place), mem, place) && |free| <= RoundUp(sz) / PGSIZE
    {
      hide Placed, FreeOk, Pte, Unmapping, Filled, Kept, Added, CopyWants, Shown, PermOk, Pa;
      ghost var total := RoundUp(sz) / PGSIZE;
      RoundUpFacts(0, sz);
      ghost var wants := CopyWants(mem, parent, total);
      CopyWanted(mem, parent, total);
      forall i: nat | i < total
        ensures LeafFlags(wants[i])
      {
        assert CanUnmap(mem, parent, i);
        LeafPresent(mem, place, parent, i);
        ShownFlags(mem, parent, i);
      }
      FilledStart(mem, place, child, 0, wants);
      var i := 0;
      ghost var n := 0;
      while i < sz
        invariant n <= total && i == n * PGSIZE
        invariant Valid() && Filled(old(mem), old(place), mem, place, child, 0, n, wants)
      {
        assert CanUnmap(old(mem), parent, n);
        FilledMapped(old(mem), old(place), mem, place, child, 0, n, wants);
        FilledNext(old(mem), old(place), mem, place, child, 0, n, wants);
        FilledKept(old(mem), old(place), mem, place, child, 0, n, wants);
        StillShown(old(mem), old(place), mem, place, child, total, parent, n);
        assert Key(0, i) == n;
        var t := Walk(parent, i, false);
        TableThere(mem, place, parent, n);
        EntryIndex(mem, parent, i);
        var e := mem[t][PX(0, i)];
        ShownIs(mem, parent, n, e);
        ghost var m, pl := mem, place;
        var ok := AddPage(child, i, Want(mem[Pa(e)], Flags(e)));
        if !ok {
          FilledGrew(old(mem), old(place), m, pl, mem, place, child, 0, n, wants);
          FilledMapped(old(mem), old(place), mem, place, child, 0, n, wants);
          m, pl := mem, place;
          UvmUnmap(child, 0, i / PGSIZE, true);
          FilledUndone(old(mem), old(place), m, pl, mem, place, child, 0, n, wants);
          return -1;
        }
        FilledStep(old(mem), old(place), m, pl, mem, place, child, 0, n, wants);
        i := i + PGSIZE;
        n := n + 1;
      }
      ret := 0;
    }

    // freewalk without its final kfree(pagetable), which each caller does.
    method FreeEntries(t: nat, ghost r: nat, ghost l: nat, ghost tk: nat)
      requires Valid() && IsRoot(place, r) && l <= 2 && tk * 512 < Bound(l) && NoLeaves(mem, r)
      requires t == TableOf(mem, r, l, tk * 512) && t in mem
      modifies this
      ensures Valid() && Pruned(old(mem), old(place), mem, place, r, l, tk * 512, tk * 512 + 512)
      decreases l
    {
      hide Placed, FreeOk, TableOf, Pte, Pruned, Pa, NoLeaves, EntryGone, Junk, Leaf;
      PrunedNothing(mem, place, r, l, tk * 512);
      var i := 0;
      while i < 512
        invariant i <= 512 && Valid() && IsRoot(place, r)
        invariant Pruned(old(mem), old(place), mem, place, r, l, tk * 512, tk * 512 + i)
      {
        ghost var key := tk * 512 + i;
        SlotBound(l, tk, i);
        PrunedNoLeaves(old(mem), old(place), mem, place, r, l, tk * 512, key);
        PrunedTable(old(mem), old(place), mem, place, r, l, tk, key);
        PrunedKeys(old(mem), old(place), mem, place, r, l, tk * 512, key);
        EntryOf(mem, r, l, tk, i);
        EntryFound(mem, place, r, l, key);
        var pte := mem[t][i];
        if PageFormat.Valid(pte) && !Leaf(pte) {
          ghost var m, pl := mem, place;
          var child := Pa(pte);
          FreeEntries(child, r, l - 1, key);
          PrunedRoot(m, pl, mem, place, r, l - 1, key * 512, key * 512 + 512, r);
          PrunedChildless(m, pl, mem, place, r, l, key);
          PrunedTableAbove(m, pl, mem, place, r, l, key);
          ghost var m1, pl1 := mem, place;
          EntryGoes(mem, place, r, l, key, Junk(ONES, head));
          KFree(child);
          ghost var m2, pl2 := mem, place;
          mem := mem[t := mem[t][i := 0]];
          EntryFree(m1, pl1, r, l, key, m2, pl2, mem, head, free);
          EntryGoneFacts(m1, pl1, mem, place, r, l, key);
          PrunedStep(old(mem), old(place), m, pl, m1, pl1, mem, place, r, l, tk * 512, key);
        } else {
          assert !PageFormat.Valid(pte);                  // no "freewalk: leaf"
          PrunedEmpty(old(mem), old(place), mem, place, r, l, tk * 512, key);
        }
        i := i + 1;
      }
    }

    // uvmfree: every page of the table goes back to the free list, and nothing else changes.
    method UvmFree(r: nat, sz: nat)
      requires Valid() && IsRoot(place, r) && sz <= PRIVATE * PGSIZE && place[r].user
      requires forall k: nat :: k < Bound(0) ==> (Pte(mem, r, 0, k) != 0 <==> k < RoundUp(sz) / PGSIZE)
      requires forall k: nat :: k < RoundUp(sz) / PGSIZE ==> CanUnmap(mem, r, k)
      modifies this
      ensures Valid() && place.Keys == old(place).Keys
      ensures forall q :: q in place ==>
                place[q] == if q == r || (old(place)[q].At? && old(place)[q].root == r) then Free else old(place)[q]
      ensures forall q :: q in place && !place[q].Free? && IsData(old(place), q) ==> q in old(mem) && q in mem && mem[q] == old(mem)[q]
      ensures forall x: nat, k: nat :: IsRoot(place, x) && k < Bound(0) ==> KeepsLeaf(old(mem), mem, x, k)
    {
      hide Placed, FreeOk, TableOf, Pte, Pruned, Unmapping, Junk, Key;
      RoundUpFacts(0, sz);
      ghost var n := RoundUp(sz) / PGSIZE;
      UnmappingStart(mem, place, r, 0, 0, Free);
      KeyZero();
      if sz > 0 {
        UvmUnmap(r, 0, RoundUp(sz) / PGSIZE, true);
      }
      ghost var m1, pl1 := mem, place;
      AllUnmapped(old(mem), old(place), mem, place, r, n);
      TableAtRoot(mem, r, 0);
      PlacedKeys(mem, place);
      FreeEntries(r, r, 2, 0);
      ghost var m2, pl2 := mem, place;
      PrunedRoot(m1, pl1, mem, place, r, 2, 0, 512, r);
      RootFreed(m1, pl1, mem, place, r, Junk(ONES, head));
      PlacedAddr(mem, place, r);
      KFree(r);
      UnmappingKeys(old(mem), old(place), m1, pl1, r, 0, n, r);
      forall q | q in place
        ensures place[q] == if q == r || (old(place)[q].At? && old(place)[q].root == r) then Free else old(place)[q]
        ensures !place[q].Free? && IsData(old(place), q) ==> q in old(mem) && q in mem && mem[q] == old(mem)[q]
      {
        FreedAll(old(mem), old(place), m1, pl1, m2, pl2, r, n, q);
      }
      forall x: nat, k: nat | IsRoot(place, x) && k < Bound(0)
        ensures KeepsLeaf(old(mem), mem, x, k)
      {
        UnmappingKeys(old(mem), old(place), m1, pl1, r, 0, n, x);
        PrunedRoot(m1, pl1, m2, pl2, r, 2, 0, 512, x);
        LeafAfterFree(old(mem), old(place), m1, pl1, m2, pl2, r, n, mem[r], x, k);
      }
    }
  }

  // The pages from start up to p have become free.
  ghost predicate RangeFree(place0: map<nat, Place>, place: map<nat, Place>, start: nat, p: nat) {
    && place.Keys == place0.Keys && (forall q :: q in place ==> q % 4096 == 0)
    && forall q :: q in place ==> place[q] == if start <= q < p then Free else place0[q]
  }

  lemma RangeStart(place: map<nat, Place>, start: nat, p: nat)
    requires p == RoundUp(start) && forall q :: q in place ==> q % 4096 == 0
    ensures RangeFree(place, place, start, p) && p % 4096 == 0 && start <= p
  {
  }

  lemma RangeNext(place0: map<nat, Place>, place: map<nat, Place>, start: nat, p: nat)
    requires RangeFree(place0, place, start, p) && start <= p && p % 4096 == 0 && p in place0
    ensures p in place && place[p] == place0[p] && RangeFree(place0, place[p := Free], start, p + PGSIZE)
  {
  }

  lemma RangeEnd(place0: map<nat, Place>, place: map<nat, Place>, start: nat, p: nat, end: nat)
    requires RangeFree(place0, place, start, p) && p % 4096 == 0 && p + PGSIZE > end && (p == RoundUp(start) || p <= end)
    ensures place.Keys == place0.Keys
    ensures forall q :: q in place ==> place[q] == if start <= q && q + PGSIZE <= end then Free else place0[q]
  {
    forall q | q in place
      ensures place[q] == if start <= q && q + PGSIZE <= end then Free else place0[q]
    {
      if start <= q { WholePages(start, q, p, end); }
    }
  }

  lemma WholePages(start: nat, q: nat, p: nat, end: nat)
    requires q % 4096 == 0 && p % 4096 == 0 && start <= q && p + PGSIZE > end && (p == RoundUp(start) || p <= end)
    ensures q < p <==> q + PGSIZE <= end
  {
  }

  lemma NoTableNoLeaf(m: Memory, place: map<nat, Place>, r: nat, va: nat)
    requires Placed(m, place) && TableOf(m, r, 0, Key(0, va)) == 0
    ensures Pte(m, r, 0, Key(0, va)) == 0
  {
    NullEntry(m, place, Key(0, va) % 512);
  }

  lemma InvalidEntry(m: Memory, place: map<nat, Place>, r: nat, k: nat)
    requires Placed(m, place) && IsRoot(place, r) && k < Bound(0) && !PageFormat.Valid(Pte(m, r, 0, k))
    ensures Pte(m, r, 0, k) == 0
  {
    assert SlotOk(m, place, r, 0, k);
  }

  lemma ZeroInvalid()
    ensures !PageFormat.Valid(0)
  {
  }

  lemma GrewLeaves(m: Memory, place: map<nat, Place>, m': Memory, place': map<nat, Place>)
    requires Grew(m, place, m', place')
    ensures forall x: nat, k: nat :: IsRoot(place, x) && k < Bound(0) ==> KeepsLeaf(m, m', x, k)
  {
  }

  lemma KeyZero()
    ensures Key(0, 0) == 0
  {
  }

  lemma SlotBound(l: nat, tk: nat, i: nat)
    requires l <= 2 && tk * 512 < Bound(l) && i < 512
    ensures tk * 512 + i < Bound(l)
  {
  }

  lemma PrunedKeys(m0: Memory, place0: map<nat, Place>, m: Memory, place: map<nat, Place>, r: nat, l: nat, lo: nat, hi: nat)
    requires l <= 2 && Pruned(m0, place0, m, place, r, l, lo, hi) && Placed(m0, place0) && Placed(m, place)
    ensures m.Keys == m0.Keys
  {
    PlacedKeys(m0, place0);
    PlacedKeys(m, place);
  }

  // The table page being walked is not touched by what happens below it.
  lemma PrunedTableAbove(m0: Memory, place0: map<nat, Place>, m: Memory, place: map<nat, Place>, r: nat, l: nat, key: nat)
    requires 0 < l <= 2 && key < Bound(l) && IsRoot(place0, r) && Placed(m0, place0) && Placed(m, place)
    requires Pruned(m0, place0, m, place, r, l - 1, key * 512, key * 512 + 512)
    ensures TableOf(m, r, l, key) == TableOf(m0, r, l, key) && m.Keys == m0.Keys
  {
    hide Pte, Lift;
    PrunedKeys(m0, place0, m, place, r, l - 1, key * 512, key * 512 + 512);
    if l < 2 {
      TableUp(m0, r, l, key);
      TableUp(m, r, l, key);
      assert PtePruned(m0, m, r, l - 1, key * 512, key * 512 + 512, r, l + 1, key / 512);
    } else {
      assert TableOf(m, r, l, key) == r == TableOf(m0, r, l, key);
    }
  }

  lemma EntryGoneFacts(m: Memory, place: map<nat, Place>, m': Memory, place': map<nat, Place>, r: nat, l: nat, key: nat)
    requires l <= 2 && EntryGone(m, place, m', place', r, l, key) && IsRoot(place, r)
    ensures Placed(m', place') && IsRoot(place', r)
  {
  }

  // Clearing an entry does not disturb the free list.
  lemma EntryFree(m1: Memory, place1: map<nat, Place>, r: nat, l: nat, key: nat, m2: Memory, place2: map<nat, Place>, m3: Memory, head: nat, free: seq<nat>)
    requires Placed(m1, place1) && IsRoot(place1, r) && 0 < l <= 2 && key < Bound(l) && Pte(m1, r, l, key) != 0
    requires place2 == place1[Pa(Pte(m1, r, l, key)) := Free] && FreeOk(m2, place2, head, free)
    requires TableOf(m1, r, l, key) in m2 && m3 == Stored(m2, TableOf(m1, r, l, key), key % 512, 0)
    requires m2.Keys == m1.Keys
    ensures FreeOk(m3, place2, head, free)
  {
    hide Pa, Pte, TableOf;
    EntryTable(m1, place1, r, l, key);
    FreeFrame(m2, place2, head, free, m3, place2) by { PlacedKeys(m1, place1); }
  }

  lemma AllUnmapped(m0: Memory, place0: map<nat, Place>, m: Memory, place: map<nat, Place>, r: nat, n: nat)
    requires Placed(m0, place0) && IsRoot(place0, r) && Unmapping(m0, place0, m, place, r, 0, n, n, Free)
    requires forall k: nat :: k < Bound(0) ==> (Pte(m0, r, 0, k) != 0 <==> k < n)
    ensures IsRoot(place, r) && NoLeaves(m, r)
  {
    hide Placed, Pte;
    forall k: nat | k < Bound(0)
      ensures PteIs(m, r, k, 0)
    {
      if k < n {
        assert PteIs(m, r, k, 0);
      } else {
        assert KeepsLeaf(m0, m, r, k);
      }
    }
  }

  // From the start of uvmfree to the freeing of the root.
  lemma FreedPlace(m0: Memory, place0: map<nat, Place>, m1: Memory, place1: map<nat, Place>, r: nat, n: nat, q: nat)
    requires Placed(m0, place0) && IsRoot(place0, r) && Unmapping(m0, place0, m1, place1, r, 0, n, n, Free) && q in place0
    requires forall k: nat :: k < Bound(0) ==> (Pte(m0, r, 0, k) != 0 <==> k < n)
    ensures q in place1
    ensures place1[q] == place0[q] || (place1[q].Free? && place0[q].At? && place0[q].root == r)
    ensures !place1[q].Free? && IsData(place0, q) ==> q in m0 && q in m1 && m1[q] == m0[q]
  {
    hide Placed, Pte, PteIs, KeepsLeaf;
    assert MovedTo(place0, place1, q, r, 0, 0 + n, Free);
    if !OnLeaf(place0, q, r, 0, 0 + n) {
      assert q !in LeafPages(place0, r, 0, 0 + n);
      assert KeepsPage(m0, place0, m1, place1, q);
    }
  }

  lemma FreedAll(m0: Memory, place0: map<nat, Place>, m1: Memory, place1: map<nat, Place>, m2: Memory, place2: map<nat, Place>, r: nat, n: nat, q: nat)
    requires Placed(m0, place0) && IsRoot(place0, r) && Unmapping(m0, place0, m1, place1, r, 0, n, n, Free) && q in place0
    requires Pruned(m1, place1, m2, place2, r, 2, 0, 512)
    requires forall p :: p in place1 ==> p in place2 && place2[r := Free][p] == if p == r || (place1[p].At? && place1[p].root == r) then Free else place1[p]
    requires forall k: nat :: k < Bound(0) ==> (Pte(m0, r, 0, k) != 0 <==> k < n)
    ensures q in place2 && place2[r := Free][q] == if q == r || (place0[q].At? && place0[q].root == r) then Free else place0[q]
    ensures !place2[r := Free][q].Free? && IsData(place0, q) ==> q in m0 && q in m2 && m2[q] == m0[q] && q != r
  {
    hide Placed, Pte, Unmapping, PlacePruned, PtePruned;
    FreedPlace(m0, place0, m1, place1, r, n, q);
    assert SameData(m1, place1, m2, place2, q);
  }

  lemma LeafAfterFree(m0: Memory, place0: map<nat, Place>, m1: Memory, place1: map<nat, Place>, m2: Memory, place2: map<nat, Place>,
                      r: nat, n: nat, page: Page, x: nat, k: nat)
    requires Unmapping(m0, place0, m1, place1, r, 0, n, n, Free) && Pruned(m1, place1, m2, place2, r, 2, 0, 512) && Placed(m2, place2)
    requires IsRoot(place0, x) && IsRoot(place1, x) && IsRoot(place2, x) && IsRoot(place2, r) && x != r && k < Bound(0)
    ensures KeepsLeaf(m0, m2[r := page], x, k)
  {
    hide Placed, Pte, LeafPages, MovedTo, NotMoved, PlacePruned, SameData;
    assert KeepsLeaf(m0, m1, x, k);
    assert PtePruned(m1, m2, r, 2, 0, 512, x, 0, k);
    OtherRoot(m2, place2, r, page, x, 0, k);
  }

  lemma UnmappingKeys(m0: Memory, place0: map<nat, Place>, m: Memory, place: map<nat, Place>, r: nat, k0: nat, n: nat, x: nat)
    requires Unmapping(m0, place0, m, place, r, k0, n, n, Free)
    ensures place.Keys == place0.Keys && (IsRoot(place, x) <==> IsRoot(place0, x))
  {
  }

  lemma RoundUpFacts(oldsz: nat, newsz: nat)
    requires oldsz <= newsz <= PRIVATE * PGSIZE
    ensures RoundUp(oldsz) % PGSIZE == 0 && RoundUp(oldsz) / PGSIZE <= RoundUp(newsz) / PGSIZE <= PRIVATE
    ensures Key(0, RoundUp(oldsz)) == RoundUp(oldsz) / PGSIZE
  {
  }

  // Page k is the user's, with all rights, and holds zeros.
  predicate UserZeros(m: Memory, r: nat, k: nat) {
    var e := Pte(m, r, 0, k);
    PageFormat.Valid(e) && IsUser(e) && e / 2 % 8 == 7 && Pa(e) in m && forall i: nat :: i < |m[Pa(e)]| ==> m[Pa(e)][i] == 0
  }

  lemma FilledForUser(m0: Memory, place0: map<nat, Place>, m: Memory, place: map<nat, Place>, r: nat, k0: nat, n: nat)
    requires Filled(m0, place0, m, place, r, k0, n, ZeroWants(n))
    ensures forall k: nat :: k0 <= k < k0 + n ==> UserZeros(m, r, k)
  {
    hide Pte, Pa, PteWord, Kept;
    forall k: nat | k0 <= k < k0 + n
      ensures UserZeros(m, r, k)
    {
      ZeroWanted(n);
      assert FreshAt(place0, m, place, r, k0 + (k - k0), ZeroWants(n)[k - k0]);
      FreshForUser(place0, m, place, r, k);
    }
  }

  lemma FreshForUser(place0: map<nat, Place>, m: Memory, place: map<nat, Place>, r: nat, k: nat)
    requires FreshAt(place0, m, place, r, k, Want(Zeros(), W + X + R + U))
    ensures UserZeros(m, r, k)
  {
    hide Pte;
    var e := Pte(m, r, 0, k);
    RightsOf(e);
  }

  lemma RightsOf(e: nat)
    requires Flags(e) == WithV(W + X + R + U)
    ensures PageFormat.Valid(e) && IsUser(e) && e / 2 % 8 == 7
  {
    assert e == e / 1024 * 1024 + 31;
    PteLowBits(e / 1024, 31);
    PteUserBit(e / 1024, 31);
  }

  lemma ZeroWanted(n: nat)
    ensures |ZeroWants(n)| == n && forall i: nat :: i < n ==> ZeroWants(n)[i] == Want(Zeros(), W + X + R + U) && LeafFlags(ZeroWants(n)[i])
  {
  }

  lemma ShownFlags(m: Memory, r: nat, k: nat)
    requires CanUnmap(m, r, k) && PageFormat.Valid(Pte(m, r, 0, k))
    ensures LeafFlags(Shown(m, r, k))
  {
    hide Pte, Pa;
    FlagsSmall(Pte(m, r, 0, k));
  }

  function Min(a: nat, b: nat): nat {
    if a < b then a else b
  }

  // Pages to add, as far as the trapframe.
  function PagesBelowTop(oldsz: nat, newsz: nat): nat {
    var k0, top := RoundUp(oldsz) / PGSIZE, Min(RoundUp(newsz) / PGSIZE, PRIVATE);
    if k0 < top then top - k0 else 0
  }

  lemma GrowthFacts(oldsz: nat, newsz: nat)
    requires oldsz <= newsz
    ensures RoundUp(oldsz) % PGSIZE == 0 && RoundUp(oldsz) / PGSIZE <= RoundUp(newsz) / PGSIZE
    ensures Min(RoundUp(oldsz) / PGSIZE, PRIVATE) + PagesBelowTop(oldsz, newsz) <= PRIVATE
    ensures PagesBelowTop(oldsz, newsz) > 0 ==> RoundUp(oldsz) / PGSIZE < PRIVATE
    ensures PagesBelowTop(oldsz, newsz) <= RoundUp(newsz) / PGSIZE - RoundUp(oldsz) / PGSIZE
  {
  }

  lemma GrowthDone(oldsz: nat, newsz: nat, n: nat)
    requires oldsz <= newsz <= RoundUp(oldsz) + n * PGSIZE && n <= PagesBelowTop(oldsz, newsz)
    ensures n == PagesBelowTop(oldsz, newsz) == RoundUp(newsz) / PGSIZE - RoundUp(oldsz) / PGSIZE
  {
  }

  lemma BelowTheTop(oldsz: nat, newsz: nat, n: nat, a: nat)
    requires oldsz <= newsz && a == RoundUp(oldsz) + n * PGSIZE && a < newsz && a < PRIVATE * PGSIZE && n <= PagesBelowTop(oldsz, newsz)
    ensures n < PagesBelowTop(oldsz, newsz) && a % PGSIZE == 0 && Key(0, a) == RoundUp(oldsz) / PGSIZE + n && Key(0, a) < PRIVATE
  {
  }

  lemma AlignedSizes(start: nat, k0: nat, n: nat)
    requires start % PGSIZE == 0 && (n > 0 ==> start == k0 * PGSIZE)
    ensures RoundUp(start) == start && RoundUp(start + n * PGSIZE) == start + n * PGSIZE
    ensures (start + n * PGSIZE) / PGSIZE == start / PGSIZE + n
    ensures n > 0 ==> start / PGSIZE == k0
  {
  }

  lemma StartGrew(m: Memory, place: map<nat, Place>)
    requires Placed(m, place)
    ensures Grew(m, place, m, place)
  {
    hide Placed, Pte;
    PlacedKeys(m, place);
    KeptRefl(m, place, 0, 0, 0, {});
  }

  // At the trapframe: every page below it has been mapped, and mappages panics.
  lemma AtTheTop(m0: Memory, place0: map<nat, Place>, m: Memory, place: map<nat, Place>, r: nat, oldsz: nat, newsz: nat, n: nat, wants: seq<Want>)
    requires oldsz <= newsz && |wants| == PagesBelowTop(oldsz, newsz)
    requires Filled(m0, place0, m, place, r, Min(RoundUp(oldsz) / PGSIZE, PRIVATE), n, wants)
    requires IsRoot(place0, r) && PRIVATE * PGSIZE <= RoundUp(oldsz) + n * PGSIZE < newsz
    requires Pte(m0, r, 0, PRIVATE) != 0 && Pte(m0, r, 0, PRIVATE + 1) != 0
    ensures RoundUp(oldsz) / PGSIZE + |place| >= PRIVATE
    ensures var a := RoundUp(oldsz) + n * PGSIZE; a >= MAXVA || Pte(m, r, 0, Key(0, a)) != 0
  {
    hide Pte;
    var k0, a := Min(RoundUp(oldsz) / PGSIZE, PRIVATE), RoundUp(oldsz) + n * PGSIZE;
    FilledNeedsPages(m0, place0, m, place, r, k0, n, wants);
    GrowthFacts(oldsz, newsz);
    if a < MAXVA {
      assert Key(0, a) == PRIVATE || Key(0, a) == PRIVATE + 1;
      assert KeepsLeaf(m0, m, r, Key(0, a));
    }
  }

  lemma CopyWanted(m: Memory, r: nat, n: nat)
    ensures |CopyWants(m, r, n)| == n && forall k: nat :: k < n ==> CopyWants(m, r, n)[k] == Shown(m, r, k)
  {
  }

  lemma ShownIs(m: Memory, r: nat, k: nat, e: nat)
    requires e == Pte(m, r, 0, k) && Pa(e) in m
    ensures Shown(m, r, k) == Want(m[Pa(e)], Flags(e))
  {
  }

  lemma FilledKept(m0: Memory, place0: map<nat, Place>, m: Memory, place: map<nat, Place>, r: nat, k0: nat, n: nat, wants: seq<Want>)
    requires Filled(m0, place0, m, place, r, k0, n, wants)
    ensures Kept(m0, place0, m, place, r, k0, k0 + |wants|, {})
  {
  }

  lemma AlignedKey(va: nat, npages: nat, n: nat)
    requires va % PGSIZE == 0 && va + npages * PGSIZE <= MAXVA && n < npages
    ensures Key(0, va + n * PGSIZE) == Key(0, va) + n && va + n * PGSIZE < MAXVA
    ensures Key(0, va) + npages <= Bound(0)
  {
  }

  lemma UnmappingFacts(m0: Memory, place0: map<nat, Place>, m: Memory, place: map<nat, Place>, r: nat, k0: nat, n: nat, total: nat, to: Place)
    requires Unmapping(m0, place0, m, place, r, k0, n, total, to) && IsRoot(place0, r) && n < total
    ensures Pte(m, r, 0, k0 + n) == Pte(m0, r, 0, k0 + n) && place[r] == place0[r]
  {
    assert PteIs(m, r, k0 + n, Pte(m0, r, 0, k0 + n));
    NotOnLeaf(place0, r, r, k0, k0 + total);
    assert KeepsPage(m0, place0, m, place, r);
  }

  // A leaf that is present is in a table page.
  lemma TableThere(m: Memory, place: map<nat, Place>, r: nat, k: nat)
    requires Placed(m, place) && Pte(m, r, 0, k) != 0
    ensures TableOf(m, r, 0, k) != 0 && TableOf(m, r, 0, k) in m
  {
    NullEntry(m, place, k % 512);
  }

  lemma LeafPresent(m: Memory, place: map<nat, Place>, r: nat, k: nat)
    requires Placed(m, place) && IsRoot(place, r) && k < Bound(0) && Pte(m, r, 0, k) != 0
    ensures PageFormat.Valid(Pte(m, r, 0, k))
  {
    assert SlotOk(m, place, r, 0, k);
  }

  lemma LeafClearedRoot(m: Memory, place: map<nat, Place>, m': Memory, place': map<nat, Place>, r: nat, k: nat, to: Place)
    requires IsRoot(place, r) && LeafCleared(m, place, m', place', r, k, to)
    ensures Placed(m', place') && IsRoot(place', r)
  {
  }

  lemma UnhungFree(m: Memory, place: map<nat, Place>, r: nat, k: nat, head: nat, free: seq<nat>)
    requires Placed(m, place) && IsRoot(place, r) && k < Bound(0) && Pte(m, r, 0, k) != 0 && FreeOk(m, place, head, free)
    ensures FreeOk(m, Unhung(m, place, r, 0, k), head, free) && Unhung(m, place, r, 0, k).Keys == place.Keys
    ensures TableOf(m, r, 0, k) in place && Unhung(m, place, r, 0, k)[TableOf(m, r, 0, k)] == place[TableOf(m, r, 0, k)]
  {
    hide Placed, Pa, Pte;
    TableThere(m, place, r, k);
    TableOwned(m, place, r, 0, k);
    LeafOwner(m, place, r, k);
    PlacedKeys(m, place);
    FreeFrame(m, place, head, free, m, Unhung(m, place, r, 0, k));
  }

  // Clearing a table entry does not disturb the free list.
  lemma ClearedFree(m: Memory, place: map<nat, Place>, r: nat, k: nat, head: nat, free: seq<nat>, m1: Memory, place1: map<nat, Place>, m2: Memory)
    requires Placed(m, place) && IsRoot(place, r) && k < Bound(0) && TableOf(m, r, 0, k) in m && TableOf(m, r, 0, k) != 0
    requires TableOf(m, r, 0, k) in m1 && m2 == Stored(m1, TableOf(m, r, 0, k), k % 512, 0)
    requires m1.Keys == m.Keys && place1.Keys == place.Keys && place1[TableOf(m, r, 0, k)] == place[TableOf(m, r, 0, k)]
    requires FreeOk(m1, place1, head, free)
    ensures FreeOk(m2, place1, head, free)
  {
    TableOwned(m, place, r, 0, k);
    FreeFrame(m1, place1, head, free, m2, place1);
  }

  lemma CountPositive(va: nat, size: nat)
    requires size > 0
    ensures Count(va, size) > 0
  {
  }

  // The word that walk's caller reads and writes.
  lemma EntryIndex(m: Memory, r: nat, a: nat)
    ensures TableOf(m, r, 0, Key(0, a)) in m ==> m[TableOf(m, r, 0, Key(0, a))][PX(0, a)] == Pte(m, r, 0, Key(0, a))
    ensures PX(0, a) == Key(0, a) % 512
  {
  }

  lemma TableAtRoot(m: Memory, r: nat, key: nat)
    ensures TableOf(m, r, 2, key) == r
  {
  }

  lemma GrewRoot(m: Memory, place: map<nat, Place>, m': Memory, place': map<nat, Place>, r: nat)
    requires Grew(m, place, m', place') && IsRoot(place, r)
    ensures IsRoot(place', r)
  {
  }

  lemma JunkFirst(fill: nat, first: nat)
    ensures Junk(fill, first)[0] == first
  {
  }

  lemma NullIsEmpty(m: Memory, place: map<nat, Place>, head: nat, free: seq<nat>)
    requires Inv(m, place, head, free)
    ensures head == 0 <==> free == []
    ensures m.Keys == place.Keys
  {
    if free != [] { NotNull(m, place, head, free, 0); }
  }

  lemma NotNull(m: Memory, place: map<nat, Place>, head: nat, free: seq<nat>, i: nat)
    requires Inv(m, place, head, free)
    ensures i < |free| ==> free[i] != 0
  {
    if i < |free| {
      assert free[i] in free;
      PlacedAddr(m, place, free[i]);
    }
  }
}
