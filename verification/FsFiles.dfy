/** Inodes, their block pointers and what they mean (kernel/fs.h, kernel/fs.c:370-437).

    Disk contents are those seen through the buffer cache and the log.  An inode reaches a block
    through a slot: its direct pointers are slots 0 to 11, its indirect pointer is slot 12, and the
    entries of its indirect block are slots 13 to 268. */
module FsFiles {
  import opened FsFormat

  datatype Inode = Inode(size: nat, addrs: seq<nat>)

  // The inodes, and the blocks of the data region.
  datatype Files = Files(inodes: seq<Inode>, disk: map<nat, Bytes>)

  datatype Slot = Slot(ino: nat, i: nat)

  const SLOTS: nat := 269

  // Data blocks are first..size; 32-bit block numbers.
  datatype Region = Region(first: nat, size: nat)

  predicate AddrsShaped(addrs: seq<nat>, blocks: set<nat>) {
    && |addrs| == NDIRECT + 1
    && (addrs[NDIRECT] == 0 || addrs[NDIRECT] in blocks)
    && (forall i :: 0 <= i <= NDIRECT ==> addrs[i] < UINT)
  }

  predicate InodeShaped(f: Files, ino: nat)
    requires ino < |f.inodes|
  {
    AddrsShaped(f.inodes[ino].addrs, f.disk.Keys)
  }

  ghost predicate Shaped(f: Files, g: Region) {
    && 0 < g.first <= g.size < UINT
    && (forall b :: b in f.disk <==> g.first <= b < g.size)
    && (forall ino: nat :: ino < |f.inodes| ==> InodeShaped(f, ino))
  }

  // The block number held in a slot, 0 when there is none.
  function Ptr(f: Files, ino: nat, i: nat): nat
    requires ino < |f.inodes| && InodeShaped(f, ino) && i < SLOTS
  {
    var addrs := f.inodes[ino].addrs;
    if i <= NDIRECT then addrs[i]
    else if addrs[NDIRECT] == 0 then 0
    else Word(f.disk[addrs[NDIRECT]], i - NDIRECT - 1)
  }

  // The slot of the nth block of a file.
  function DataSlot(n: nat): (i: nat)
    requires n < MAXFILE
    ensures i < SLOTS && i != NDIRECT
  {
    if n < NDIRECT then n else n + 1
  }

  function BlockOf(f: Files, ino: nat, n: nat): nat
    requires ino < |f.inodes| && InodeShaped(f, ino) && n < MAXFILE
  {
    Ptr(f, ino, DataSlot(n))
  }

  // ---- ownership ----

  // owner names, for each data block in use, the one slot that holds it.
  predicate PtrOwned(f: Files, owner: map<nat, Slot>, ino: nat, i: nat)
    requires ino < |f.inodes| && InodeShaped(f, ino) && i < SLOTS
  {
    var b := Ptr(f, ino, i);
    b != 0 ==> b in owner && owner[b] == Slot(ino, i)
  }

  ghost predicate OwnerHolds(f: Files, g: Region, owner: map<nat, Slot>, b: nat)
    requires Shaped(f, g) && b in owner
  {
    var s := owner[b];
    g.first <= b < g.size && s.ino < |f.inodes| && s.i < SLOTS && Ptr(f, s.ino, s.i) == b
  }

  ghost predicate Owned(f: Files, g: Region, owner: map<nat, Slot>) {
    && Shaped(f, g)
    && (forall ino: nat, i: nat :: ino < |f.inodes| && i < SLOTS ==> PtrOwned(f, owner, ino, i))
    && (forall b :: b in owner ==> OwnerHolds(f, g, owner, b))
  }

  // No two slots hold the same block, and the owned blocks are exactly those held in some slot.
  lemma ExactlyOneSlot(f: Files, g: Region, owner: map<nat, Slot>, b: nat)
    requires Owned(f, g, owner) && b != 0
    ensures b in owner <==> exists ino: nat, i: nat :: ino < |f.inodes| && i < SLOTS && Ptr(f, ino, i) == b
    ensures forall ino: nat, i: nat, ino': nat, i': nat ::
              ino < |f.inodes| && i < SLOTS && ino' < |f.inodes| && i' < SLOTS && Ptr(f, ino, i) == b && Ptr(f, ino', i') == b
              ==> ino == ino' && i == i'
  {
    if b in owner {
      assert OwnerHolds(f, g, owner, b);
    }
    forall ino: nat, i: nat | ino < |f.inodes| && i < SLOTS && Ptr(f, ino, i) == b
      ensures b in owner && owner[b] == Slot(ino, i)
    {
      assert PtrOwned(f, owner, ino, i);
    }
  }

  // ---- contents ----

  // Every block below len bytes is present.
  ghost predicate Mapped(f: Files, ino: nat, len: nat)
    requires ino < |f.inodes| && InodeShaped(f, ino)
  {
    len <= MAXFILE * BSIZE && forall n: nat :: n * BSIZE < len ==> Present(f, ino, n)
  }

  predicate Present(f: Files, ino: nat, n: nat)
    requires ino < |f.inodes| && InodeShaped(f, ino)
  {
    n < MAXFILE ==> BlockOf(f, ino, n) != 0 && BlockOf(f, ino, n) in f.disk
  }

  function ByteAt(f: Files, ino: nat, k: nat): Byte
    requires ino < |f.inodes| && InodeShaped(f, ino)
    requires k < MAXFILE * BSIZE && Present(f, ino, k / BSIZE)
  {
    f.disk[BlockOf(f, ino, k / BSIZE)][k % BSIZE]
  }

  // The first len bytes of a file.
  function Content(f: Files, ino: nat, len: nat): (c: seq<Byte>)
    requires ino < |f.inodes| && InodeShaped(f, ino) && Mapped(f, ino, len)
    ensures |c| == len
  {
    seq(len, k requires 0 <= k < len => assert k / BSIZE * BSIZE < len; ByteAt(f, ino, k))
  }

  // No holes in any file.
  ghost predicate Whole(f: Files, g: Region)
    requires Shaped(f, g)
  {
    forall ino: nat :: ino < |f.inodes| ==> Mapped(f, ino, f.inodes[ino].size)
  }

  function FileOf(f: Files, g: Region, ino: nat): seq<Byte>
    requires Shaped(f, g) && ino < |f.inodes| && Mapped(f, ino, f.inodes[ino].size)
  {
    Content(f, ino, f.inodes[ino].size)
  }

  lemma FileIsMapped(f: Files, g: Region, ino: nat)
    requires Shaped(f, g) && Whole(f, g) && ino < |f.inodes| && InodeShaped(f, ino)
    ensures Mapped(f, ino, f.inodes[ino].size)
    ensures FileOf(f, g, ino) == Content(f, ino, f.inodes[ino].size)
  {
  }

  // Inodes without blocks own nothing and are empty files.
  lemma EmptyOwned(f: Files, g: Region)
    requires 0 < g.first <= g.size < UINT && (forall b :: b in f.disk <==> g.first <= b < g.size)
    requires forall ino: nat :: ino < |f.inodes| ==> f.inodes[ino].size == 0 && f.inodes[ino].addrs == seq(NDIRECT + 1, _ => 0)
    ensures Owned(f, g, map[]) && Whole(f, g)
  {
    forall ino: nat | ino < |f.inodes|
      ensures InodeShaped(f, ino)
    {
    }
    forall ino: nat, i: nat | ino < |f.inodes| && i < SLOTS
      ensures PtrOwned(f, map[], ino, i)
    {
    }
  }

  // ---- framing ----

  // The block behind position n stays where it is, with the same bytes.
  predicate Kept(f: Files, f': Files, ino: nat, n: nat)
    requires ino < |f.inodes| && InodeShaped(f, ino) && n < MAXFILE
    requires ino < |f'.inodes| && InodeShaped(f', ino)
  {
    var b := BlockOf(f, ino, n);
    b != 0 ==> BlockOf(f', ino, n) == b && b in f.disk && b in f'.disk && f'.disk[b] == f.disk[b]
  }

  ghost predicate Keeps(f: Files, f': Files, ino: nat)
    requires ino < |f.inodes| && InodeShaped(f, ino)
    requires ino < |f'.inodes| && InodeShaped(f', ino)
  {
    forall n: nat :: n < MAXFILE ==> Kept(f, f', ino, n)
  }

  lemma KeepsContent(f: Files, f': Files, ino: nat, len: nat)
    requires ino < |f.inodes| && InodeShaped(f, ino)
    requires ino < |f'.inodes| && InodeShaped(f', ino)
    requires Keeps(f, f', ino) && Mapped(f, ino, len)
    ensures Mapped(f', ino, len) && Content(f', ino, len) == Content(f, ino, len)
  {
    forall n: nat | n * BSIZE < len
      ensures Present(f', ino, n)
    {
      assert Present(f, ino, n) && Kept(f, f', ino, n);
    }
    forall k | 0 <= k < len
      ensures Content(f', ino, len)[k] == Content(f, ino, len)[k]
    {
      var n := k / BSIZE;
      assert n * BSIZE < len;
      assert Present(f, ino, n) && Kept(f, f', ino, n);
    }
  }

  ghost predicate SamePtrs(f: Files, f': Files, ino: nat)
    requires ino < |f.inodes| && InodeShaped(f, ino)
    requires ino < |f'.inodes| && InodeShaped(f', ino)
  {
    forall i: nat :: i < SLOTS ==> Ptr(f', ino, i) == Ptr(f, ino, i)
  }

  // Changing blocks that file ino does not own leaves its pointers and its bytes alone.
  lemma OtherFile(f: Files, f': Files, g: Region, owner: map<nat, Slot>, ino: nat)
    requires Owned(f, g, owner) && Shaped(f', g) && |f'.inodes| == |f.inodes|
    requires ino < |f.inodes| && f'.inodes[ino].addrs == f.inodes[ino].addrs
    requires forall b :: b in owner && owner[b].ino == ino ==> b in f.disk && b in f'.disk && f'.disk[b] == f.disk[b]
    ensures SamePtrs(f, f', ino) && Keeps(f, f', ino)
  {
    assert PtrOwned(f, owner, ino, NDIRECT);
    forall n: nat | n < MAXFILE
      ensures Kept(f, f', ino, n)
    {
      assert PtrOwned(f, owner, ino, DataSlot(n));
      var b := BlockOf(f, ino, n);
      if b != 0 { assert OwnerHolds(f, g, owner, b); }
    }
  }

  // ---- filling and clearing a slot ----

  function Store(f: Files, ino: nat, i: nat, b: nat): Files
    requires ino < |f.inodes| && InodeShaped(f, ino) && i < SLOTS && b < UINT
    requires i > NDIRECT ==> f.inodes[ino].addrs[NDIRECT] != 0
  {
    var inode := f.inodes[ino];
    if i <= NDIRECT then
      f.(inodes := f.inodes[ino := inode.(addrs := inode.addrs[i := b])])
    else
      var ind := inode.addrs[NDIRECT];
      f.(disk := f.disk[ind := SetWord(f.disk[ind], i - NDIRECT - 1, b)])
  }

  ghost predicate NoEntries(f: Files, ino: nat)
    requires ino < |f.inodes| && InodeShaped(f, ino)
  {
    forall e: nat :: NDIRECT < e < SLOTS ==> Ptr(f, ino, e) == 0
  }

  // What Store needs: an indirect pointer changes only while there is nothing behind it.
  ghost predicate Storable(f: Files, g: Region, ino: nat, i: nat, b: nat)
    requires Shaped(f, g)
  {
    && ino < |f.inodes| && i < SLOTS && (b == 0 || g.first <= b < g.size)
    && InodeShaped(f, ino)
    && (i > NDIRECT ==> f.inodes[ino].addrs[NDIRECT] != 0)
    && (i == NDIRECT ==> NoEntries(f, ino) && (b != 0 ==> f.disk[b] == Zeros()))
  }

  lemma StoreShaped(f: Files, g: Region, ino: nat, i: nat, b: nat)
    requires Shaped(f, g) && Storable(f, g, ino, i, b)
    ensures Shaped(Store(f, ino, i, b), g)
  {
    var f' := Store(f, ino, i, b);
    forall j: nat | j < |f'.inodes|
      ensures InodeShaped(f', j)
    {
      assert InodeShaped(f, j);
    }
  }

  // Storing into a slot changes that slot and no other.
  lemma StorePtr(f: Files, g: Region, owner: map<nat, Slot>, ino: nat, i: nat, b: nat, j: nat, e: nat)
    requires Owned(f, g, owner) && Storable(f, g, ino, i, b)
    requires Shaped(Store(f, ino, i, b), g)
    requires j < |f.inodes| && e < SLOTS
    ensures Ptr(Store(f, ino, i, b), j, e) == if j == ino && e == i then b else Ptr(f, j, e)
  {
    assert InodeShaped(f, j) && InodeShaped(f, ino);
    assert PtrOwned(f, owner, ino, NDIRECT) && PtrOwned(f, owner, j, NDIRECT);
    if i > NDIRECT {
      if e > NDIRECT && j == ino {
        WordStored(f.disk[f.inodes[ino].addrs[NDIRECT]], i - NDIRECT - 1, b, e - NDIRECT - 1);
      }
    } else if i == NDIRECT && e > NDIRECT && j == ino {
      assert Ptr(f, ino, e) == 0;
      ZeroWords(e - NDIRECT - 1);
    }
  }

  // The same inodes, with every file's pointers and bytes where they were.
  ghost predicate KeepsAll(f: Files, f': Files, g: Region)
    requires Shaped(f, g) && Shaped(f', g)
  {
    |f'.inodes| == |f.inodes| && forall j: nat :: j < |f.inodes| ==> KeepsFile(f, f', g, j)
  }

  ghost predicate KeepsFile(f: Files, f': Files, g: Region, j: nat)
    requires Shaped(f, g) && Shaped(f', g) && j < |f.inodes| && j < |f'.inodes|
  {
    assert InodeShaped(f, j) && InodeShaped(f', j);
    f'.inodes[j].size == f.inodes[j].size && Keeps(f, f', j)
  }

  // ---- allocation ----

  function Zeroed(f: Files, b: nat): Files {
    f.(disk := f.disk[b := Zeros()])
  }

  lemma ZeroedOwned(f: Files, g: Region, owner: map<nat, Slot>, b: nat)
    requires Owned(f, g, owner) && g.first <= b < g.size && b !in owner
    ensures Owned(Zeroed(f, b), g, owner) && KeepsAll(f, Zeroed(f, b), g)
    ensures forall j: nat :: j < |f.inodes| ==> SamePtrs(f, Zeroed(f, b), j)
  {
    var f' := Zeroed(f, b);
    forall j: nat | j < |f.inodes|
      ensures InodeShaped(f', j)
    {
      assert InodeShaped(f, j);
    }
    forall j: nat | j < |f.inodes|
      ensures Keeps(f, f', j) && SamePtrs(f, f', j)
    {
      forall c | c in owner
        ensures c in f.disk && c in f'.disk && f'.disk[c] == f.disk[c]
      {
        assert OwnerHolds(f, g, owner, c);
      }
      OtherFile(f, f', g, owner, j);
    }
    SamePtrsOwned(f, f', g, owner);
    forall j: nat | j < |f.inodes|
      ensures KeepsFile(f, f', g, j)
    {
    }
  }

  lemma SamePtrsOwned(f: Files, f': Files, g: Region, owner: map<nat, Slot>)
    requires Owned(f, g, owner) && Shaped(f', g) && |f'.inodes| == |f.inodes|
    requires forall j: nat :: j < |f.inodes| ==> SamePtrs(f, f', j)
    ensures Owned(f', g, owner)
  {
    forall j: nat, i: nat | j < |f.inodes| && i < SLOTS
      ensures PtrOwned(f', owner, j, i)
    {
      assert PtrOwned(f, owner, j, i) && SamePtrs(f, f', j);
    }
    forall b | b in owner
      ensures OwnerHolds(f', g, owner, b)
    {
      assert OwnerHolds(f, g, owner, b) && SamePtrs(f, f', owner[b].ino);
    }
  }

  // Block b, fresh from balloc, put into an empty slot.
  function Filled(f: Files, ino: nat, i: nat, b: nat): Files
    requires ino < |f.inodes| && InodeShaped(f, ino) && i < SLOTS && b < UINT
    requires i > NDIRECT ==> f.inodes[ino].addrs[NDIRECT] != 0
  {
    Store(Zeroed(f, b), ino, i, b)
  }

  ghost predicate Fillable(f: Files, g: Region, owner: map<nat, Slot>, ino: nat, i: nat, b: nat)
    requires Shaped(f, g)
  {
    && ino < |f.inodes| && i < SLOTS && g.first <= b < g.size && b !in owner
    && InodeShaped(f, ino) && Ptr(f, ino, i) == 0
    && (i > NDIRECT ==> f.inodes[ino].addrs[NDIRECT] != 0)
  }

  lemma IsFillable(f: Files, g: Region, owner: map<nat, Slot>, ino: nat, i: nat, b: nat)
    requires Shaped(f, g) && ino < |f.inodes| && i < SLOTS && g.first <= b < g.size && b !in owner
    requires InodeShaped(f, ino) && Ptr(f, ino, i) == 0 && (i > NDIRECT ==> f.inodes[ino].addrs[NDIRECT] != 0)
    ensures Fillable(f, g, owner, ino, i, b)
  {
  }

  lemma ShapedRegion(f: Files, g: Region, owner: map<nat, Slot>)
    requires Owned(f, g, owner)
    ensures Shaped(f, g)
  {
  }

  lemma FilledOwned(f: Files, g: Region, owner: map<nat, Slot>, ino: nat, i: nat, b: nat)
    requires Owned(f, g, owner) && Fillable(f, g, owner, ino, i, b)
    ensures Owned(Filled(f, ino, i, b), g, owner[b := Slot(ino, i)])
    ensures Ptr(Filled(f, ino, i, b), ino, i) == b
  {
    var f1, f' := Zeroed(f, b), Filled(f, ino, i, b);
    ZeroedOwned(f, g, owner, b);
    assert SamePtrs(f, f1, ino) && Storable(f1, g, ino, i, b);
    StoreShaped(f1, g, ino, i, b);
    forall j: nat, e: nat | j < |f.inodes| && e < SLOTS
      ensures Ptr(f', j, e) == if j == ino && e == i then b else Ptr(f1, j, e)
    {
      StorePtr(f1, g, owner, ino, i, b, j, e);
    }
    StoredOwned(f1, f', g, owner, ino, i, b);
  }

  lemma StoredOwned(f: Files, f': Files, g: Region, owner: map<nat, Slot>, ino: nat, i: nat, b: nat)
    requires Owned(f, g, owner) && Shaped(f', g) && |f'.inodes| == |f.inodes|
    requires ino < |f.inodes| && i < SLOTS && Ptr(f, ino, i) == 0 && g.first <= b < g.size && b !in owner
    requires forall j: nat, e: nat :: j < |f.inodes| && e < SLOTS ==>
               Ptr(f', j, e) == if j == ino && e == i then b else Ptr(f, j, e)
    ensures Owned(f', g, owner[b := Slot(ino, i)])
  {
    var owner' := owner[b := Slot(ino, i)];
    forall j: nat, e: nat | j < |f.inodes| && e < SLOTS
      ensures PtrOwned(f', owner', j, e)
    {
      assert PtrOwned(f, owner, j, e);
    }
    forall c | c in owner'
      ensures OwnerHolds(f', g, owner', c)
    {
      if c != b { assert OwnerHolds(f, g, owner, c); }
    }
  }

  lemma FilledKeeps(f: Files, g: Region, owner: map<nat, Slot>, ino: nat, i: nat, b: nat)
    requires Owned(f, g, owner) && Fillable(f, g, owner, ino, i, b)
    requires Shaped(Filled(f, ino, i, b), g)
    ensures KeepsAll(f, Filled(f, ino, i, b), g)
    ensures Filled(f, ino, i, b).disk[b] == Zeros()
  {
    var f1, f' := Zeroed(f, b), Filled(f, ino, i, b);
    ZeroedOwned(f, g, owner, b);
    assert PtrOwned(f, owner, ino, NDIRECT) && SamePtrs(f, f1, ino);
    forall j: nat | j < |f.inodes|
      ensures KeepsFile(f, f', g, j)
    {
      assert KeepsFile(f, f1, g, j);
      forall n: nat | n < MAXFILE
        ensures Kept(f, f', j, n)
      {
        assert Kept(f, f1, j, n);
        assert PtrOwned(f, owner, j, DataSlot(n)) && SamePtrs(f, f1, j);
        StorePtr(f1, g, owner, ino, i, b, j, DataSlot(n));
      }
    }
  }

  // ---- freeing ----

  function Without(owner: map<nat, Slot>, b: nat): map<nat, Slot> {
    owner - {b}
  }

  lemma ClearedOwned(f: Files, g: Region, owner: map<nat, Slot>, ino: nat, i: nat)
    requires Owned(f, g, owner) && ino < |f.inodes| && i < SLOTS
    requires Ptr(f, ino, i) != 0 && (i == NDIRECT ==> NoEntries(f, ino))
    ensures Owned(Store(f, ino, i, 0), g, Without(owner, Ptr(f, ino, i)))
    ensures Ptr(f, ino, i) in owner && owner[Ptr(f, ino, i)] == Slot(ino, i)
  {
    var f', b := Store(f, ino, i, 0), Ptr(f, ino, i);
    var owner' := Without(owner, b);
    assert InodeShaped(f, ino) && PtrOwned(f, owner, ino, i);
    assert Storable(f, g, ino, i, 0);
    StoreShaped(f, g, ino, i, 0);
    forall j: nat, e: nat | j < |f'.inodes| && e < SLOTS
      ensures PtrOwned(f', owner', j, e)
    {
      StorePtr(f, g, owner, ino, i, 0, j, e);
      assert PtrOwned(f, owner, j, e);
    }
    forall c | c in owner'
      ensures OwnerHolds(f', g, owner', c)
    {
      assert OwnerHolds(f, g, owner, c);
      StorePtr(f, g, owner, ino, i, 0, owner[c].ino, owner[c].i);
    }
  }

  // ---- writing data ----

  function Written(f: Files, b: nat, data: Bytes): Files {
    f.(disk := f.disk[b := data])
  }

  // Writing the nth block of a file moves no pointer and touches no other block of any file.
  lemma WrittenKeeps(f: Files, g: Region, owner: map<nat, Slot>, ino: nat, n: nat, data: Bytes)
    requires Owned(f, g, owner) && ino < |f.inodes| && n < MAXFILE && BlockOf(f, ino, n) != 0
    ensures var f' := Written(f, BlockOf(f, ino, n), data);
      && Owned(f', g, owner)
      && BlockOf(f', ino, n) == BlockOf(f, ino, n)
      && (forall j: nat :: j < |f.inodes| && j != ino ==> KeepsFile(f, f', g, j))
      && (forall m: nat :: m < MAXFILE && m != n ==> Kept(f, f', ino, m))
  {
    var b := BlockOf(f, ino, n);
    var f' := Written(f, b, data);
    assert PtrOwned(f, owner, ino, DataSlot(n));
    assert OwnerHolds(f, g, owner, b);
    forall j: nat | j < |f.inodes|
      ensures InodeShaped(f', j)
    {
      assert InodeShaped(f, j);
    }
    forall j: nat | j < |f.inodes|
      ensures SamePtrs(f, f', j)
    {
      assert PtrOwned(f, owner, j, NDIRECT);
    }
    SamePtrsOwned(f, f', g, owner);
    forall j: nat, m: nat | j < |f.inodes| && m < MAXFILE && (j != ino || m != n)
      ensures Kept(f, f', j, m)
    {
      assert PtrOwned(f, owner, j, DataSlot(m)) && SamePtrs(f, f', j);
      var c := BlockOf(f, j, m);
      if c != 0 { assert OwnerHolds(f, g, owner, c); }
    }
    forall j: nat | j < |f.inodes| && j != ino
      ensures KeepsFile(f, f', g, j)
    {
      assert forall m: nat :: m < MAXFILE ==> Kept(f, f', j, m);
    }
  }
}
