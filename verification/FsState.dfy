/** The free map and the files together, and the steps that writei is made of. */
module FsState {
  import opened FsFormat
  import opened FsFiles
  import opened FsWrites
  import Param = Blocks

  datatype Super = Super(g: Region, bmapstart: nat, inodestart: nat)

  function BBlock(sb: Super, b: nat): nat { b / BPB + sb.bmapstart }

  function IBlock(sb: Super, ino: nat): nat { ino / IPB + sb.inodestart }

  // Every block before the data region, and every data block with an owner, is marked in use.
  ghost predicate Consistent(sb: Super, bits: seq<BitBlock>, f: Files, owner: map<nat, Slot>) {
    && sb.g.size <= BPB * |bits|
    && Owned(f, sb.g, owner)
    && (forall b: nat :: b < sb.g.size ==> (InUse(bits, b) <==> b < sb.g.first || b in owner))
  }

  ghost predicate Full(sb: Super, bits: seq<BitBlock>)
    requires sb.g.size <= BPB * |bits|
  {
    forall c: nat :: c < sb.g.size ==> InUse(bits, c)
  }

  // A data block's bit is set if and only if exactly one slot holds the block.
  lemma BitIffOneSlot(sb: Super, bits: seq<BitBlock>, f: Files, owner: map<nat, Slot>, b: nat)
    requires Consistent(sb, bits, f, owner) && sb.g.first <= b < sb.g.size
    ensures InUse(bits, b) <==> exists ino: nat, i: nat :: ino < |f.inodes| && i < SLOTS && Ptr(f, ino, i) == b
    ensures forall ino: nat, i: nat, ino': nat, i': nat ::
              ino < |f.inodes| && i < SLOTS && ino' < |f.inodes| && i' < SLOTS && Ptr(f, ino, i) == b && Ptr(f, ino', i') == b
              ==> ino == ino' && i == i'
  {
    ExactlyOneSlot(f, sb.g, owner, b);
  }

  lemma FilledConsistent(sb: Super, bits: seq<BitBlock>, f: Files, owner: map<nat, Slot>, ino: nat, i: nat, b: nat)
    requires Consistent(sb, bits, f, owner) && b < sb.g.size && !InUse(bits, b)
    requires Fillable(f, sb.g, owner, ino, i, b)
    ensures Consistent(sb, Marked(bits, b), Filled(f, ino, i, b), owner[b := Slot(ino, i)])
    ensures Grown(f, Filled(f, ino, i, b), sb.g, ino)
    ensures Ptr(Filled(f, ino, i, b), ino, i) == b
  {
    hide Filled, KeepsAll, InUse, Marked, Grown;
    FilledOwned(f, sb.g, owner, ino, i, b);
    FilledKeeps(f, sb.g, owner, ino, i, b);
    FilledGrown(f, sb.g, owner, ino, i, b);
    forall c: nat | c < sb.g.size
      ensures InUse(Marked(bits, b), c) <==> c == b || InUse(bits, c)
    {
      MarkedUses(bits, b, c);
    }
  }

  // bfree finds the bit of a block that a slot holds set, and clearing both keeps the file system consistent.
  lemma ClearedConsistent(sb: Super, bits: seq<BitBlock>, f: Files, owner: map<nat, Slot>, ino: nat, i: nat)
    requires Consistent(sb, bits, f, owner) && ino < |f.inodes| && InodeShaped(f, ino) && i < SLOTS
    requires Ptr(f, ino, i) != 0 && (i == NDIRECT ==> NoEntries(f, ino))
    ensures var b := Ptr(f, ino, i);
      && sb.g.first <= b < sb.g.size && InUse(bits, b)
      && b in owner && owner[b] == Slot(ino, i)
      && Consistent(sb, Cleared(bits, b), Store(f, ino, i, 0), Without(owner, b))
  {
    hide InUse, Cleared, Store;
    var b := Ptr(f, ino, i);
    ClearedOwned(f, sb.g, owner, ino, i);
    assert OwnerHolds(f, sb.g, owner, b);
    forall c: nat | c < sb.g.size
      ensures InUse(Cleared(bits, b), c) <==> c != b && InUse(bits, c)
    {
      ClearedFrees(bits, b, c);
    }
  }

  function Resized(f: Files, ino: nat, size: nat): Files
    requires ino < |f.inodes|
  {
    f.(inodes := f.inodes[ino := f.inodes[ino].(size := size)])
  }

  lemma ResizedConsistent(sb: Super, bits: seq<BitBlock>, f: Files, owner: map<nat, Slot>, ino: nat, size: nat)
    requires Consistent(sb, bits, f, owner) && ino < |f.inodes|
    ensures Consistent(sb, bits, Resized(f, ino, size), owner)
  {
    hide InUse;
    var f' := Resized(f, ino, size);
    forall j: nat | j < |f.inodes|
      ensures InodeShaped(f', j) && SamePtrs(f, f', j)
    {
      assert InodeShaped(f, j);
    }
    SamePtrsOwned(f, f', sb.g, owner);
  }

  // Every file but one has the same contents.
  ghost predicate SameFiles(f: Files, f': Files, g: Region, ino: nat) {
    && Shaped(f, g) && Shaped(f', g) && Whole(f, g) && Whole(f', g) && |f'.inodes| == |f.inodes|
    && forall j: nat :: j < |f.inodes| && j != ino ==> FileOf(f', g, j) == FileOf(f, g, j)
  }

  // ---- what a run of bmap and block writes on one inode leaves ----

  // Files other than ino are untouched.
  ghost predicate OthersKept(f0: Files, f: Files, g: Region, ino: nat)
    requires Shaped(f0, g) && Shaped(f, g)
  {
    && ino < |f0.inodes| == |f.inodes|
    && f.inodes == f0.inodes[ino := f.inodes[ino]]
    && forall j: nat :: j < |f0.inodes| && j != ino ==> KeepsFile(f0, f, g, j)
  }

  // bmap: nothing that was there moves or changes.
  ghost predicate Grown(f: Files, f': Files, g: Region, ino: nat) {
    && Shaped(f, g) && Shaped(f', g) && ino < |f.inodes|
    && KeepsAll(f, f', g)
    && f'.inodes == f.inodes[ino := f'.inodes[ino]]
    && InodeShaped(f, ino) && InodeShaped(f', ino)
    && (f.inodes[ino].addrs[NDIRECT] != 0 ==> f'.inodes[ino].addrs[NDIRECT] == f.inodes[ino].addrs[NDIRECT])
  }

  lemma KeepsTrans(f: Files, f1: Files, f2: Files, g: Region, j: nat)
    requires Shaped(f, g) && Shaped(f1, g) && Shaped(f2, g)
    requires j < |f.inodes| && j < |f1.inodes| && j < |f2.inodes|
    requires KeepsFile(f, f1, g, j) && KeepsFile(f1, f2, g, j)
    ensures KeepsFile(f, f2, g, j)
  {
    forall n: nat | n < MAXFILE
      ensures Kept(f, f2, j, n)
    {
      assert Kept(f, f1, j, n) && Kept(f1, f2, j, n);
    }
  }

  lemma GrownRefl(f: Files, g: Region, owner: map<nat, Slot>, ino: nat)
    requires Owned(f, g, owner) && ino < |f.inodes|
    ensures Grown(f, f, g, ino)
  {
    forall j: nat | j < |f.inodes|
      ensures KeepsFile(f, f, g, j)
    {
      forall n: nat | n < MAXFILE
        ensures Kept(f, f, j, n)
      {
        assert PtrOwned(f, owner, j, DataSlot(n));
        var b := BlockOf(f, j, n);
        if b != 0 { assert OwnerHolds(f, g, owner, b); }
      }
    }
  }

  lemma GrownTrans(f: Files, f1: Files, f2: Files, g: Region, ino: nat)
    requires Grown(f, f1, g, ino) && Grown(f1, f2, g, ino)
    ensures Grown(f, f2, g, ino)
  {
    forall j: nat | j < |f.inodes|
      ensures KeepsFile(f, f2, g, j)
    {
      KeepsTrans(f, f1, f2, g, j);
    }
  }

  lemma FilledGrown(f: Files, g: Region, owner: map<nat, Slot>, ino: nat, i: nat, b: nat)
    requires Owned(f, g, owner) && Fillable(f, g, owner, ino, i, b)
    requires Shaped(Filled(f, ino, i, b), g) && KeepsAll(f, Filled(f, ino, i, b), g)
    ensures Grown(f, Filled(f, ino, i, b), g, ino)
  {
    assert InodeShaped(Filled(f, ino, i, b), ino);
  }

  // tot bytes of src written at off, the size not yet updated.
  ghost predicate Progress(f0: Files, f: Files, g: Region, ino: nat, off: nat, src: seq<Byte>, tot: nat)
  {
    && Shaped(f0, g) && Shaped(f, g) && OthersKept(f0, f, g, ino)
    && InodeShaped(f0, ino) && InodeShaped(f, ino)
    && tot <= |src| && off + |src| <= MAXFILE * BSIZE
    && f.inodes[ino].size == f0.inodes[ino].size
    && Mapped(f0, ino, f0.inodes[ino].size) && off <= f0.inodes[ino].size
    && Mapped(f, ino, Max(f0.inodes[ino].size, off + tot))
    && Content(f, ino, Max(f0.inodes[ino].size, off + tot)) == Splice(FileOf(f0, g, ino), off, src[..tot])
  }

  lemma ProgressStart(f: Files, g: Region, owner: map<nat, Slot>, ino: nat, off: nat, src: seq<Byte>)
    requires Owned(f, g, owner) && ino < |f.inodes| && InodeShaped(f, ino) && Mapped(f, ino, f.inodes[ino].size)
    requires off <= f.inodes[ino].size && off + |src| <= MAXFILE * BSIZE
    ensures Progress(f, f, g, ino, off, src, 0)
  {
    GrownRefl(f, g, owner, ino);
    assert src[..0] == [];
    SpliceNothing(FileOf(f, g, ino), off);
  }

  lemma ProgressGrown(f0: Files, f: Files, f': Files, g: Region, ino: nat, off: nat, src: seq<Byte>, tot: nat)
    requires Progress(f0, f, g, ino, off, src, tot) && Grown(f, f', g, ino)
    ensures Progress(f0, f', g, ino, off, src, tot)
  {
    forall j: nat | j < |f0.inodes| && j != ino
      ensures KeepsFile(f0, f', g, j)
    {
      KeepsTrans(f0, f, f', g, j);
    }
    assert KeepsFile(f, f', g, ino);
    KeepsContent(f, f', ino, Max(f0.inodes[ino].size, off + tot));
  }

  lemma ProgressChunk(f0: Files, f: Files, g: Region, owner: map<nat, Slot>, ino: nat, off: nat, src: seq<Byte>, tot: nat, m: nat)
    requires Progress(f0, f, g, ino, off, src, tot) && Owned(f, g, owner)
    requires 0 < m <= BSIZE - (off + tot) % BSIZE && tot + m <= |src|
    requires BlockOf(f, ino, (off + tot) / BSIZE) != 0 && BlockOf(f, ino, (off + tot) / BSIZE) in f.disk
    ensures var b := BlockOf(f, ino, (off + tot) / BSIZE);
      var f' := Written(f, b, Blit(f.disk[b], (off + tot) % BSIZE, src[tot..tot + m]));
      Owned(f', g, owner) && Progress(f0, f', g, ino, off, src, tot + m) && Grows(f, f', ino)
  {
    var at, chunk := off + tot, src[tot..tot + m];
    var n := at / BSIZE;
    var b := BlockOf(f, ino, n);
    var data := Blit(f.disk[b], at % BSIZE, chunk);
    var f' := Written(f, b, data);
    WrittenKeeps(f, g, owner, ino, n, data);
    ChunkSplices(f, g, owner, ino, Max(f0.inodes[ino].size, at), at, chunk);
    SpliceMore(FileOf(f0, g, ino), off, src, tot, m);
    forall j: nat | j < |f0.inodes| && j != ino
      ensures KeepsFile(f0, f', g, j)
    {
      KeepsTrans(f0, f, f', g, j);
    }
    WrittenGrows(f, g, owner, ino, n, data);
  }

  // writei's last step, once the size is set.
  lemma ProgressEnd(f0: Files, f: Files, g: Region, ino: nat, off: nat, src: seq<Byte>, tot: nat)
    requires Progress(f0, f, g, ino, off, src, tot) && Whole(f0, g)
    requires Shaped(Resized(f, ino, Max(f0.inodes[ino].size, off + tot)), g)
    ensures var f' := Resized(f, ino, Max(f0.inodes[ino].size, off + tot));
      SameFiles(f0, f', g, ino) && FileOf(f', g, ino) == Splice(FileOf(f0, g, ino), off, src[..tot])
  {
    var len := Max(f0.inodes[ino].size, off + tot);
    var f' := Resized(f, ino, len);
    assert InodeShaped(f', ino);
    SameInode(f, f', ino, len);
    forall j: nat | j < |f0.inodes| && j != ino
      ensures Mapped(f', j, f'.inodes[j].size) && FileOf(f', g, j) == FileOf(f0, g, j)
    {
      assert KeepsFile(f0, f, g, j) && Mapped(f0, j, f0.inodes[j].size);
      KeepsContent(f0, f, j, f0.inodes[j].size);
      assert InodeShaped(f', j);
      SameInode(f, f', j, f0.inodes[j].size);
    }
  }

  lemma SameInode(f: Files, f': Files, j: nat, len: nat)
    requires j < |f.inodes| && j < |f'.inodes| && InodeShaped(f, j) && InodeShaped(f', j)
    requires f'.disk == f.disk && f'.inodes[j].addrs == f.inodes[j].addrs && Mapped(f, j, len)
    ensures Mapped(f', j, len) && Content(f', j, len) == Content(f, j, len)
  {
    forall n: nat | n * BSIZE < len
      ensures Present(f', j, n)
    {
      assert Present(f, j, n);
    }
    forall k | 0 <= k < len
      ensures Content(f', j, len)[k] == Content(f, j, len)[k]
    {
      assert k / BSIZE * BSIZE < len;
      assert Present(f, j, k / BSIZE);
    }
  }

  // ---- the blocks a write can reach, for the size of its transaction ----

  ghost function Indirect(f: Files, ino: nat): set<nat>
    requires ino < |f.inodes| && InodeShaped(f, ino)
  {
    if f.inodes[ino].addrs[NDIRECT] == 0 then {} else {f.inodes[ino].addrs[NDIRECT]}
  }

  ghost function Blocks(f: Files, ino: nat, lo: nat, hi: nat): set<nat>
    requires ino < |f.inodes| && InodeShaped(f, ino) && hi <= MAXFILE
  {
    set n: nat | lo <= n < hi && BlockOf(f, ino, n) != 0 :: BlockOf(f, ino, n)
  }

  ghost predicate Grows(f: Files, f': Files, ino: nat) {
    && ino < |f.inodes| && InodeShaped(f, ino) && ino < |f'.inodes| && InodeShaped(f', ino)
    && Indirect(f, ino) <= Indirect(f', ino)
    && forall lo: nat, hi: nat :: hi <= MAXFILE ==> Blocks(f, ino, lo, hi) <= Blocks(f', ino, lo, hi)
  }

  lemma GrownGrows(f: Files, f': Files, g: Region, ino: nat)
    requires Grown(f, f', g, ino)
    ensures Grows(f, f', ino)
  {
    assert KeepsFile(f, f', g, ino);
    forall lo: nat, hi: nat | hi <= MAXFILE
      ensures Blocks(f, ino, lo, hi) <= Blocks(f', ino, lo, hi)
    {
      forall b | b in Blocks(f, ino, lo, hi)
        ensures b in Blocks(f', ino, lo, hi)
      {
        var n: nat :| lo <= n < hi && BlockOf(f, ino, n) != 0 && BlockOf(f, ino, n) == b;
        assert Kept(f, f', ino, n);
      }
    }
  }

  lemma WrittenGrows(f: Files, g: Region, owner: map<nat, Slot>, ino: nat, n: nat, data: Bytes)
    requires Owned(f, g, owner) && ino < |f.inodes| && n < MAXFILE && BlockOf(f, ino, n) != 0
    ensures Grows(f, Written(f, BlockOf(f, ino, n), data), ino)
  {
    var f' := Written(f, BlockOf(f, ino, n), data);
    WrittenKeeps(f, g, owner, ino, n, data);
    assert InodeShaped(f, ino) && InodeShaped(f', ino);
    forall lo: nat, hi: nat | hi <= MAXFILE
      ensures Blocks(f, ino, lo, hi) <= Blocks(f', ino, lo, hi)
    {
      forall b | b in Blocks(f, ino, lo, hi)
        ensures b in Blocks(f', ino, lo, hi)
      {
        var m: nat :| lo <= m < hi && BlockOf(f, ino, m) != 0 && BlockOf(f, ino, m) == b;
        if m != n { assert Kept(f, f', ino, m); }
      }
    }
  }

  lemma {:induction false} BlocksCount(f: Files, ino: nat, lo: nat, hi: nat)
    requires ino < |f.inodes| && InodeShaped(f, ino) && lo <= hi <= MAXFILE
    ensures |Blocks(f, ino, lo, hi)| <= hi - lo
    decreases hi
  {
    if lo < hi {
      BlocksCount(f, ino, lo, hi - 1);
      var b := BlockOf(f, ino, hi - 1);
      assert Blocks(f, ino, lo, hi) == Blocks(f, ino, lo, hi - 1) + if b == 0 then {} else {b};
    }
  }

  predicate IsBitmapBlock(sb: Super, n: nat, b: nat) {
    sb.bmapstart <= b < sb.bmapstart + n
  }

  ghost function BitmapBlocks(sb: Super, n: nat): set<nat> {
    set b: nat | b < sb.bmapstart + n && IsBitmapBlock(sb, n, b)
  }

  lemma {:induction false} BitmapCount(sb: Super, n: nat)
    ensures |BitmapBlocks(sb, n)| == n
  {
    if n > 0 {
      BitmapCount(sb, n - 1);
      assert BitmapBlocks(sb, n) == BitmapBlocks(sb, n - 1) + {sb.bmapstart + n - 1};
    }
  }

  lemma BBlockIsBitmap(sb: Super, bits: seq<BitBlock>, b: nat)
    requires b < BPB * |bits|
    ensures BBlock(sb, b) in BitmapBlocks(sb, |bits|)
  {
    assert IsBitmapBlock(sb, |bits|, BBlock(sb, b));
  }

  lemma BlockIsThere(f: Files, g: Region, owner: map<nat, Slot>, ino: nat, i: nat)
    requires Owned(f, g, owner) && ino < |f.inodes| && InodeShaped(f, ino) && i < SLOTS
    ensures Ptr(f, ino, i) != 0 ==> Ptr(f, ino, i) in f.disk
  {
    assert PtrOwned(f, owner, ino, i);
    if Ptr(f, ino, i) != 0 { assert OwnerHolds(f, g, owner, Ptr(f, ino, i)); }
  }

  // ---- the outcome of a write ----

  // writei refuses: past the end, wrapping around, or beyond the largest file.
  predicate Refused(size: nat, off: nat, n: nat) {
    off > size || off + n > MAXFILE * BSIZE
  }

  // r bytes is as far as whole chunks can be copied when only reach bytes are readable.
  predicate Copied(off: nat, n: nat, reach: nat, r: nat) {
    && r <= n && r <= reach
    && (r == 0 || r == n || (off + r) % BSIZE == 0)
    && (r < n ==> r + Min(n - r, BSIZE - (off + r) % BSIZE) > reach)
  }

  lemma CopiedAll(off: nat, n: nat, reach: nat, r: nat)
    requires Copied(off, n, reach, r)
    ensures r == n <==> n <= reach
  {
  }

  // How much of a write gets done: whole chunks only.
  function CopyCount(off: nat, n: nat, reach: nat): nat {
    var first := BSIZE - off % BSIZE;
    if n <= reach then n else if reach < first then 0 else first + (reach - first) / BSIZE * BSIZE
  }

  lemma CopiedIs(off: nat, n: nat, reach: nat, r: nat)
    requires Copied(off, n, reach, r)
    ensures r == CopyCount(off, n, reach) && r <= n
  {
    if n > reach && r > 0 {
      var first := BSIZE - off % BSIZE;
      assert (off + r) % BSIZE == 0;
      assert (off + first) % BSIZE == 0;
      assert r + BSIZE > reach;
      SameBlockEnd(off + first, off + r);
    }
  }

  lemma SameBlockEnd(a: nat, b: nat)
    requires a % BSIZE == 0 && b % BSIZE == 0
    ensures a <= b ==> (b - a) % BSIZE == 0
    ensures b < a ==> b + BSIZE <= a
  {
  }

  function Ceil(x: nat): nat { (x + BSIZE - 1) / BSIZE }

  // All blocks that a write of n bytes at off may log.
  ghost function Reach(sb: Super, nbits: nat, f: Files, ino: nat, off: nat, n: nat): set<nat>
    requires ino < |f.inodes| && InodeShaped(f, ino) && off + n <= MAXFILE * BSIZE
  {
    BitmapBlocks(sb, nbits) + {IBlock(sb, ino)} + Indirect(f, ino) + Blocks(f, ino, off / BSIZE, Ceil(off + n))
  }

  lemma ReachGrows(sb: Super, nbits: nat, f: Files, f': Files, ino: nat, off: nat, n: nat)
    requires Grows(f, f', ino) && off + n <= MAXFILE * BSIZE
    ensures Reach(sb, nbits, f, ino, off, n) <= Reach(sb, nbits, f', ino, off, n)
  {
  }

  lemma ReachHas(sb: Super, nbits: nat, f: Files, ino: nat, off: nat, n: nat, at: nat)
    requires ino < |f.inodes| && InodeShaped(f, ino) && off <= at < off + n <= MAXFILE * BSIZE
    requires BlockOf(f, ino, at / BSIZE) != 0
    ensures BitmapBlocks(sb, nbits) + {BlockOf(f, ino, at / BSIZE)} + Indirect(f, ino) <= Reach(sb, nbits, f, ino, off, n)
  {
    assert off / BSIZE <= at / BSIZE < Ceil(off + n);
    assert BlockOf(f, ino, at / BSIZE) in Blocks(f, ino, off / BSIZE, Ceil(off + n));
  }

  // filewrite's max
  const CHUNK: nat := (Param.MAXOPBLOCKS - 1 - 1 - 2) / 2 * BSIZE

  // A chunk of filewrite reaches at most six blocks besides the bitmap.
  lemma ReachCount(sb: Super, nbits: nat, f: Files, ino: nat, off: nat, n: nat)
    requires ino < |f.inodes| && InodeShaped(f, ino) && off + n <= MAXFILE * BSIZE && n <= CHUNK
    ensures |Reach(sb, nbits, f, ino, off, n)| <= 6 + nbits
    ensures |Reach(sb, nbits, f, ino, off, n) - BitmapBlocks(sb, nbits)| <= 6
  {
    hide Blocks, BitmapBlocks, IBlock, Indirect;
    var lo, hi := off / BSIZE, Ceil(off + n);
    var bm, blocks, ind := BitmapBlocks(sb, nbits), Blocks(f, ino, lo, hi), Indirect(f, ino);
    BitmapCount(sb, nbits);
    if lo <= hi {
      assert hi - lo <= 4;
      BlocksCount(f, ino, lo, hi);
    }
    IndirectCount(f, ino);
    var rest := {IBlock(sb, ino)} + ind + blocks;
    assert |rest| <= |{IBlock(sb, ino)}| + |ind| + |blocks|;
    var all := Reach(sb, nbits, f, ino, off, n);
    assert all == bm + rest;
    Within(all - bm, rest);
  }

  lemma IndirectCount(f: Files, ino: nat)
    requires ino < |f.inodes| && InodeShaped(f, ino)
    ensures |Indirect(f, ino)| <= 1
  {
  }

  lemma Within(a: set<nat>, b: set<nat>)
    requires a <= b
    ensures |a| <= |b|
  {
    assert b == a + (b - a);
  }

  // writei in its loop: tot bytes are in the file, and only reachable blocks were logged.
  ghost predicate Writing(sb: Super, nbits: nat, f0: Files, f: Files, log0: set<nat>, log: set<nat>,
                          ino: nat, off: nat, src: seq<Byte>, tot: nat) {
    && Progress(f0, f, sb.g, ino, off, src, tot)
    && log <= log0 + Reach(sb, nbits, f, ino, off, |src|)
  }

  // writei when it returns.
  ghost predicate WriteDone(sb: Super, nbits: nat, f0: Files, f: Files, log0: set<nat>, log: set<nat>,
                            ino: nat, off: nat, src: seq<Byte>, tot: nat) {
    && SameFiles(f0, f, sb.g, ino) && ino < |f.inodes| && InodeShaped(f, ino)
    && tot <= |src| && off + |src| <= MAXFILE * BSIZE && off <= |FileOf(f0, sb.g, ino)|
    && FileOf(f, sb.g, ino) == Splice(FileOf(f0, sb.g, ino), off, src[..tot])
    && log <= log0 + Reach(sb, nbits, f, ino, off, |src|)
  }

  lemma WritingStart(sb: Super, nbits: nat, f: Files, owner: map<nat, Slot>, log: set<nat>, ino: nat, off: nat, src: seq<Byte>)
    requires Owned(f, sb.g, owner) && Whole(f, sb.g) && ino < |f.inodes|
    requires off <= f.inodes[ino].size && off + |src| <= MAXFILE * BSIZE
    ensures Writing(sb, nbits, f, f, log, log, ino, off, src, 0)
  {
    hide Reach, Progress;
    assert InodeShaped(f, ino);
    ProgressStart(f, sb.g, owner, ino, off, src);
  }

  lemma WritingFacts(sb: Super, nbits: nat, f0: Files, f: Files, log0: set<nat>, log: set<nat>,
                     ino: nat, off: nat, src: seq<Byte>, tot: nat)
    requires Writing(sb, nbits, f0, f, log0, log, ino, off, src, tot)
    ensures ino < |f.inodes| && InodeShaped(f, ino) && off + |src| <= MAXFILE * BSIZE
    ensures ino < |f0.inodes| && f.inodes == f0.inodes[ino := f.inodes[ino]]
    ensures f.inodes[ino].size == f0.inodes[ino].size
  {
    hide Reach;
  }

  lemma WritingGrown(sb: Super, nbits: nat, f0: Files, f: Files, f': Files, log0: set<nat>, log: set<nat>, log': set<nat>,
                     ino: nat, off: nat, src: seq<Byte>, tot: nat)
    requires Writing(sb, nbits, f0, f, log0, log, ino, off, src, tot) && Grown(f, f', sb.g, ino) && tot < |src|
    requires BlockOf(f', ino, (off + tot) / BSIZE) != 0
    requires log' <= log + BitmapBlocks(sb, nbits) + {BlockOf(f', ino, (off + tot) / BSIZE)} + Indirect(f', ino)
    ensures Writing(sb, nbits, f0, f', log0, log', ino, off, src, tot)
  {
    hide Reach, Progress, BitmapBlocks, Indirect, BlockOf, Grows, KeepsAll;
    WritingFacts(sb, nbits, f0, f, log0, log, ino, off, src, tot);
    GrownGrows(f, f', sb.g, ino);
    ReachGrows(sb, nbits, f, f', ino, off, |src|);
    ReachHas(sb, nbits, f', ino, off, |src|, off + tot);
    ProgressGrown(f0, f, f', sb.g, ino, off, src, tot);
  }

  lemma WritingChunk(sb: Super, bits: seq<BitBlock>, owner: map<nat, Slot>, f0: Files, f: Files, log0: set<nat>, log: set<nat>,
                     ino: nat, off: nat, src: seq<Byte>, tot: nat, m: nat)
    requires Writing(sb, |bits|, f0, f, log0, log, ino, off, src, tot) && Consistent(sb, bits, f, owner)
    requires 0 < m <= BSIZE - (off + tot) % BSIZE && tot + m <= |src|
    requires BlockOf(f, ino, (off + tot) / BSIZE) != 0 && BlockOf(f, ino, (off + tot) / BSIZE) in f.disk
    ensures var b := BlockOf(f, ino, (off + tot) / BSIZE);
      var f' := Written(f, b, Blit(f.disk[b], (off + tot) % BSIZE, src[tot..tot + m]));
      && Consistent(sb, bits, f', owner) && Writing(sb, |bits|, f0, f', log0, log + {b}, ino, off, src, tot + m)
      && f'.inodes == f.inodes
  {
    hide Reach, Progress, BitmapBlocks, Indirect, BlockOf, Grows, InUse, Owned;
    WritingFacts(sb, |bits|, f0, f, log0, log, ino, off, src, tot);
    var b := BlockOf(f, ino, (off + tot) / BSIZE);
    var f' := Written(f, b, Blit(f.disk[b], (off + tot) % BSIZE, src[tot..tot + m]));
    ProgressChunk(f0, f, sb.g, owner, ino, off, src, tot, m);
    ReachHas(sb, |bits|, f, ino, off, |src|, off + tot);
    ReachGrows(sb, |bits|, f, f', ino, off, |src|);
  }

  lemma WritingEnd(sb: Super, bits: seq<BitBlock>, owner: map<nat, Slot>, f0: Files, f: Files, log0: set<nat>, log: set<nat>,
                   ino: nat, off: nat, src: seq<Byte>, tot: nat)
    requires Writing(sb, |bits|, f0, f, log0, log, ino, off, src, tot) && Consistent(sb, bits, f, owner) && Whole(f0, sb.g)
    ensures var f' := Resized(f, ino, Max(f0.inodes[ino].size, off + tot));
      && Consistent(sb, bits, f', owner) && Whole(f', sb.g)
      && WriteDone(sb, |bits|, f0, f', log0, log + {IBlock(sb, ino)}, ino, off, src, tot)
  {
    hide InUse, Owned, Progress, SameFiles, BitmapBlocks, Blocks, Mapped, Content;
    WritingFacts(sb, |bits|, f0, f, log0, log, ino, off, src, tot);
    var f' := Resized(f, ino, Max(f0.inodes[ino].size, off + tot));
    ResizedConsistent(sb, bits, f, owner, ino, Max(f0.inodes[ino].size, off + tot));
    ShapedRegion(f', sb.g, owner);
    assert InodeShaped(f', ino);
    ProgressEnd(f0, f, sb.g, ino, off, src, tot);
    ResizedReach(sb, |bits|, f, ino, Max(f0.inodes[ino].size, off + tot), off, |src|);
    ProgressOff(f0, f, sb.g, ino, off, src, tot);
    SameFilesWhole(f0, f', sb.g, ino);
  }

  lemma SameFilesWhole(f: Files, f': Files, g: Region, ino: nat)
    requires SameFiles(f, f', g, ino)
    ensures Shaped(f', g) && Whole(f', g)
  {
  }

  lemma ProgressOff(f0: Files, f: Files, g: Region, ino: nat, off: nat, src: seq<Byte>, tot: nat)
    requires Progress(f0, f, g, ino, off, src, tot)
    ensures off <= |FileOf(f0, g, ino)| && tot <= |src| && off + |src| <= MAXFILE * BSIZE
  {
  }

  lemma ResizedReach(sb: Super, nbits: nat, f: Files, ino: nat, size: nat, off: nat, n: nat)
    requires ino < |f.inodes| && InodeShaped(f, ino) && off + n <= MAXFILE * BSIZE
    ensures InodeShaped(Resized(f, ino, size), ino)
    ensures Reach(sb, nbits, f, ino, off, n) == Reach(sb, nbits, Resized(f, ino, size), ino, off, n)
  {
    var f' := Resized(f, ino, size);
    forall m: nat | m < MAXFILE
      ensures BlockOf(f', ino, m) == BlockOf(f, ino, m)
    {
    }
    assert Blocks(f', ino, off / BSIZE, Ceil(off + n)) == Blocks(f, ino, off / BSIZE, Ceil(off + n));
  }

  // filewrite between chunks: done bytes of src are in the file from start on.
  ghost predicate Wrote(f0: Files, f: Files, g: Region, ino: nat, start: nat, src: seq<Byte>, done: nat) {
    && SameFiles(f0, f, g, ino) && ino < |f.inodes| && done <= |src|
    && if start <= |FileOf(f0, g, ino)| then FileOf(f, g, ino) == Splice(FileOf(f0, g, ino), start, src[..done])
       else done == 0 && FileOf(f, g, ino) == FileOf(f0, g, ino)
  }

  lemma WroteNothing(f: Files, g: Region, ino: nat, start: nat, src: seq<Byte>)
    requires Shaped(f, g) && Whole(f, g) && ino < |f.inodes|
    ensures Wrote(f, f, g, ino, start, src, 0)
  {
    assert src[..0] == [];
    if start <= |FileOf(f, g, ino)| { SpliceNothing(FileOf(f, g, ino), start); }
  }

  lemma WroteSize(f0: Files, f: Files, g: Region, ino: nat, start: nat, src: seq<Byte>, done: nat)
    requires Wrote(f0, f, g, ino, start, src, done) && ino < |f0.inodes| && InodeShaped(f0, ino)
    ensures f.inodes[ino].size == if start <= f0.inodes[ino].size then Max(f0.inodes[ino].size, start + done) else f0.inodes[ino].size
    ensures done > 0 ==> start <= f0.inodes[ino].size
  {
  }

  lemma WroteMore(sb: Super, nbits: nat, f0: Files, f: Files, f': Files, log0: set<nat>, log: set<nat>,
                  ino: nat, start: nat, src: seq<Byte>, done: nat, n1: nat, r: nat)
    requires Wrote(f0, f, sb.g, ino, start, src, done) && done + n1 <= |src|
    requires WriteDone(sb, nbits, f, f', log0, log, ino, start + done, src[done..done + n1], r)
    ensures r <= n1 && Wrote(f0, f', sb.g, ino, start, src, done + r)
    ensures start + done + n1 <= MAXFILE * BSIZE && |f'.inodes| == |f.inodes|
  {
    hide Reach;
    var c := FileOf(f0, sb.g, ino);
    assert start <= |c|;
    assert src[done..done + n1][..r] == src[done..done + r];
    SpliceMore(c, start, src, done, r);
    forall j: nat | j < |f0.inodes| && j != ino
      ensures FileOf(f', sb.g, j) == FileOf(f0, sb.g, j)
    {
      assert FileOf(f', sb.g, j) == FileOf(f, sb.g, j);
    }
  }

  // A transaction of one chunk fits.
  ghost predicate SmallEnough(sb: Super, nbits: nat, tx: set<nat>) {
    |tx - BitmapBlocks(sb, nbits)| <= 6 && |tx| <= 6 + nbits
  }

  lemma ChunkIsSmall(sb: Super, nbits: nat, f0: Files, f: Files, log: set<nat>, ino: nat, off: nat, src: seq<Byte>, r: nat)
    requires WriteDone(sb, nbits, f0, f, {}, log, ino, off, src, r) && |src| <= CHUNK
    ensures SmallEnough(sb, nbits, log)
  {
    hide BitmapBlocks, Reach, SameFiles, FileOf;
    var reach := Reach(sb, nbits, f, ino, off, |src|);
    ReachCount(sb, nbits, f, ino, off, |src|);
    Within(log, reach);
    Within(log - BitmapBlocks(sb, nbits), reach - BitmapBlocks(sb, nbits));
  }

  // ---- files as plain byte sequences ----

  datatype FileOp =
    | Write(ino: nat, off: nat, src: seq<Byte>, reach: nat)
    | Read(ino: nat, off: nat, count: nat, reach: nat)
    | Truncate(ino: nat)

  // The arguments are uints and name an inode.
  predicate Callable(ninodes: nat, op: FileOp) {
    op.ino < ninodes && (op.Write? ==> op.off < UINT && |op.src| < UINT) && (op.Read? ==> op.off < UINT && op.count < UINT)
  }

  function PlainStep(c: seq<seq<Byte>>, op: FileOp): (r: seq<seq<Byte>>)
    ensures |r| == |c|
  {
    if !Callable(|c|, op) then c
    else
      match op
      case Write(ino, off, src, reach) =>
        var n := CopyCount(off, |src|, reach);
        if Refused(|c[ino]|, off, |src|) || n > |src| then c else c[ino := Splice(c[ino], off, src[..n])]
      case Read(_, _, _, _) => c
      case Truncate(ino) => c[ino := []]
  }

  function PlainRun(c: seq<seq<Byte>>, ops: seq<FileOp>): (r: seq<seq<Byte>>)
    ensures |r| == |c|
  {
    if ops == [] then c else PlainStep(PlainRun(c, ops[..|ops| - 1]), ops[|ops| - 1])
  }

  // All files, as byte sequences.
  ghost function Contents(f: Files, g: Region): (c: seq<seq<Byte>>)
    requires Shaped(f, g) && Whole(f, g)
    ensures |c| == |f.inodes|
  {
    seq(|f.inodes|, j requires 0 <= j < |f.inodes| => FileOf(f, g, j))
  }

  lemma SameFilesContents(f: Files, f': Files, g: Region, ino: nat)
    requires SameFiles(f, f', g, ino) && ino < |f.inodes|
    ensures Contents(f', g) == Contents(f, g)[ino := FileOf(f', g, ino)]
    ensures Contents(f, g)[ino] == FileOf(f, g, ino) && |FileOf(f, g, ino)| == f.inodes[ino].size
  {
  }

  lemma WriteIsPlain(sb: Super, nbits: nat, f: Files, f': Files, log0: set<nat>, log: set<nat>, op: FileOp, r: nat)
    requires op.Write? && Callable(|f.inodes|, op) && WriteDone(sb, nbits, f, f', log0, log, op.ino, op.off, op.src, r)
    requires Copied(op.off, |op.src|, op.reach, r)
    ensures Shaped(f, sb.g) && Whole(f, sb.g) && Shaped(f', sb.g) && Whole(f', sb.g)
    ensures Contents(f', sb.g) == PlainStep(Contents(f, sb.g), op)
  {
    hide Reach, Splice, FileOf, Contents;
    CopiedIs(op.off, |op.src|, op.reach, r);
    SameFilesContents(f, f', sb.g, op.ino);
  }
}
