/** Addresses and page-table entries (kernel/riscv.h:335-363; Sv39, section 4.4 of the RISC-V
    Privileged Architecture). */
module PageFormat {
  const PGSIZE: nat := 4096
  const MAXVA: nat := 0x40_0000_0000        // 1 << 38
  const ENTRIES: nat := 512
  const PABITS: nat := 0x100_0000_0000_0000 // physical addresses have 56 bits

  // PTE_V, PTE_R, PTE_W, PTE_X, PTE_U
  const V: nat := 1
  const R: nat := 2
  const W: nat := 4
  const X: nat := 8
  const U: nat := 16

  function Pa(pte: nat): nat { pte / 1024 * 4096 }        // PTE2PA

  function Flags(pte: nat): nat { pte % 1024 }            // PTE_FLAGS

  predicate Valid(pte: nat) { pte % 2 == 1 }

  // Some of R, W and X is set, so the entry is a leaf.
  predicate Leaf(pte: nat) { pte / 2 % 8 != 0 }

  predicate IsUser(pte: nat) { pte / 16 % 2 == 1 }

  // perm | PTE_V
  function WithV(perm: nat): nat { if perm % 2 == 1 then perm else perm + 1 }

  // PA2PTE(pa) | perm | PTE_V
  function PteWord(pa: nat, perm: nat): nat { pa / 4096 * 1024 + WithV(perm) }

  predicate PageAddr(pa: nat) { pa % 4096 == 0 && 0 < pa < PABITS }

  lemma PteRoundTrip(pa: nat, perm: nat)
    requires perm < 1024
    ensures Pa(PteWord(pa, perm)) == RoundDown(pa) && (pa % 4096 == 0 ==> Pa(PteWord(pa, perm)) == pa)
    ensures Flags(PteWord(pa, perm)) == WithV(perm)
    ensures Valid(PteWord(pa, perm)) && PteWord(pa, perm) != 0
    ensures Leaf(PteWord(pa, perm)) <==> perm / 2 % 8 != 0
    ensures IsUser(PteWord(pa, perm)) <==> perm / 16 % 2 == 1
  {
    var q, f := pa / 4096, WithV(perm);
    WithVBound(perm);
    PteParts(q, f);
    PteLowBits(q, f);
    PteUserBit(q, f);
    assert WithV(perm) / 16 == perm / 16;
  }

  lemma WithVBound(perm: nat)
    requires perm < 1024
    ensures WithV(perm) < 1024 && WithV(perm) % 2 == 1 && WithV(perm) / 2 == perm / 2
  {
  }

  // Page number and flags of an entry.
  lemma PteParts(q: nat, f: nat)
    requires f < 1024
    ensures (q * 1024 + f) / 1024 == q && (q * 1024 + f) % 1024 == f
  {
  }

  lemma PteLowBits(q: nat, f: nat)
    ensures (q * 1024 + f) % 2 == f % 2
    ensures (q * 1024 + f) / 2 % 8 == f / 2 % 8
  {
    assert q * 1024 + f == 2 * (q * 512) + f;
    HalfOf(q * 512, f);
    assert (q * 1024 + f) / 2 == q * 512 + f / 2;
    EighthOf(q * 64, f / 2);
  }

  lemma PteUserBit(q: nat, f: nat)
    ensures (q * 1024 + f) / 16 % 2 == f / 16 % 2
  {
    assert q * 1024 + f == 16 * (q * 64) + f;
    SixteenthOf(q * 64, f);
    assert (q * 1024 + f) / 16 == 2 * (q * 32) + f / 16;
    HalfOf(q * 32, f / 16);
  }

  lemma SixteenthOf(a: nat, f: nat)
    ensures (16 * a + f) / 16 == a + f / 16
  {
  }

  lemma HalfOf(a: nat, f: nat)
    ensures (2 * a + f) / 2 == a + f / 2 && (2 * a + f) % 2 == f % 2
  {
  }

  lemma EighthOf(a: nat, f: nat)
    ensures (8 * a + f) % 8 == f % 8
  {
  }

  // ---- virtual addresses ----

  // Bytes mapped by one entry of a table at this level.
  function Span(level: nat): (s: nat)
    requires level <= 2
    ensures s > 0
  {
    if level == 0 then 0x1000 else if level == 1 then 0x20_0000 else 0x4000_0000
  }

  // The address bits from this level's index up.
  function Key(level: nat, va: nat): nat
    requires level <= 2
  {
    va / Span(level)
  }

  // PX(level, va)
  function PX(level: nat, va: nat): (i: nat)
    requires level <= 2
    ensures i < ENTRIES
  {
    Key(level, va) % 512
  }

  function Bound(level: nat): nat
    requires level <= 2
  {
    if level == 0 then 0x800_0000 else if level == 1 then 0x4_0000 else 0x200
  }

  lemma KeyUp(level: nat, va: nat)
    requires level < 2
    ensures Key(level, va) / 512 == Key(level + 1, va)
  {
  }

  lemma KeyBound(level: nat, va: nat)
    requires level <= 2 && va < MAXVA
    ensures Key(level, va) < Bound(level)
  {
  }

  // The three indices determine the page: distinct pages have distinct paths.
  lemma IndicesDetermine(va: nat, va': nat)
    requires va < MAXVA && va' < MAXVA && va % PGSIZE == 0 && va' % PGSIZE == 0
    ensures PX(2, va) == PX(2, va') && PX(1, va) == PX(1, va') && PX(0, va) == PX(0, va') <==> va == va'
  {
    IndexSum(va);
    IndexSum(va');
  }

  lemma IndexSum(va: nat)
    requires va < MAXVA && va % PGSIZE == 0
    ensures va == Span(2) * PX(2, va) + Span(1) * PX(1, va) + Span(0) * PX(0, va)
  {
    hide PX;
    var q0 := va / 4096;
    var q1 := q0 / 512;
    var q2 := q1 / 512;
    IndexParts(va);
    assert va == 4096 * q0;
    assert q0 == 512 * q1 + q0 % 512;
    assert q1 == 512 * q2 + q1 % 512;
  }

  // The indices are the digits of the page number in base 512.
  lemma IndexParts(va: nat)
    requires va < MAXVA
    ensures var q0 := va / 4096;
      var q1 := q0 / 512;
      var q2 := q1 / 512;
      PX(0, va) == q0 % 512 && PX(1, va) == q1 % 512 && PX(2, va) == q2
  {
    KeyUp(0, va);
    KeyUp(1, va);
    TopIndex(va);
  }

  lemma TopIndex(va: nat)
    requires va < MAXVA
    ensures PX(2, va) == Key(2, va)
  {
  }

  function RoundUp(sz: nat): nat { (sz + 4095) / 4096 * 4096 }     // PGROUNDUP

  function RoundDown(a: nat): nat { a / 4096 * 4096 }              // PGROUNDDOWN
}
