/** On-disk formats of the file system (kernel/fs.h): the 32-bit words of an indirect block inside
    its bytes, and the bits of the free map inside its bytes. */
module FsFormat {
  const BSIZE: nat := 1024
  const NDIRECT: nat := 12
  const NINDIRECT: nat := 256             // BSIZE / sizeof(uint)
  const MAXFILE: nat := 268               // NDIRECT + NINDIRECT
  const BPB: nat := 8192                  // bits in a bitmap block
  const IPB: nat := 16                    // inodes in a block
  const UINT: nat := 0x1_0000_0000

  type Byte = x: int | 0 <= x < 256
  type Bytes = s: seq<Byte> | |s| == BSIZE witness seq(BSIZE, _ => 0)

  function Zeros(): Bytes {
    seq(BSIZE, _ => 0)
  }

  // ---- little-endian words ----

  function Word(b: Bytes, j: nat): (w: nat)
    requires j < NINDIRECT
    ensures w < UINT
  {
    var b0: int, b1: int, b2: int, b3: int := b[4 * j], b[4 * j + 1], b[4 * j + 2], b[4 * j + 3];
    b0 + 0x100 * b1 + 0x1_0000 * b2 + 0x100_0000 * b3
  }

  function SetWord(b: Bytes, j: nat, w: nat): (r: Bytes)
    requires j < NINDIRECT && w < UINT
  {
    b[4 * j := w % 0x100][4 * j + 1 := w / 0x100 % 0x100]
      [4 * j + 2 := w / 0x1_0000 % 0x100][4 * j + 3 := w / 0x100_0000]
  }

  lemma WordOfBytes(w: nat)
    requires w < UINT
    ensures w == w % 0x100 + 0x100 * (w / 0x100 % 0x100) + 0x1_0000 * (w / 0x1_0000 % 0x100) + 0x100_0000 * (w / 0x100_0000)
  {
    assert w == w % 0x100 + 0x100 * (w / 0x100);
    assert w / 0x100 == w / 0x100 % 0x100 + 0x100 * (w / 0x1_0000);
    assert w / 0x1_0000 == w / 0x1_0000 % 0x100 + 0x100 * (w / 0x100_0000);
  }

  // A stored word is read back, and storing it disturbs no other word.
  lemma WordStored(b: Bytes, j: nat, w: nat, i: nat)
    requires i < NINDIRECT && j < NINDIRECT && w < UINT
    ensures Word(SetWord(b, j, w), i) == if i == j then w else Word(b, i)
  {
    WordOfBytes(w);
  }

  lemma ZeroWords(j: nat)
    requires j < NINDIRECT
    ensures Word(Zeros(), j) == 0
  {
  }

  // ---- bitmap bits ----

  type BitBlock = s: seq<bv8> | |s| == BSIZE witness seq(BSIZE, _ => 0)

  // 1 << k
  function Mask(k: nat): bv8
    requires k < 8
  {
    if k == 0 then 1 else if k == 1 then 2 else if k == 2 then 4 else if k == 3 then 8
    else if k == 4 then 16 else if k == 5 then 32 else if k == 6 then 64 else 128
  }

  predicate Bit(x: bv8, k: nat)
    requires k < 8
  {
    x & Mask(k) != 0
  }

  lemma OrSetsBit(x: bv8, k: nat, j: nat)
    requires k < 8 && j < 8
    ensures Bit(x | Mask(k), j) == (j == k || Bit(x, j))
  {
  }

  lemma AndNotClearsBit(x: bv8, k: nat, j: nat)
    requires k < 8 && j < 8
    ensures Bit(x & !Mask(k), j) == (j != k && Bit(x, j))
  {
  }

  predicate BlockBit(s: BitBlock, bi: nat)
    requires bi < BPB
  {
    Bit(s[bi / 8], bi % 8)
  }

  lemma BlockBitSet(s: BitBlock, bi: nat, c: nat)
    requires bi < BPB && c < BPB
    ensures BlockBit(s[bi / 8 := s[bi / 8] | Mask(bi % 8)], c) == (c == bi || BlockBit(s, c))
  {
    OrSetsBit(s[bi / 8], bi % 8, c % 8);
  }

  lemma BlockBitCleared(s: BitBlock, bi: nat, c: nat)
    requires bi < BPB && c < BPB
    ensures BlockBit(s[bi / 8 := s[bi / 8] & !Mask(bi % 8)], c) == (c != bi && BlockBit(s, c))
  {
    AndNotClearsBit(s[bi / 8], bi % 8, c % 8);
  }

  // The bit of disk block b.
  predicate InUse(bits: seq<BitBlock>, b: nat)
    requires b < BPB * |bits|
  {
    BlockBit(bits[b / BPB], b % BPB)
  }

  function Marked(bits: seq<BitBlock>, b: nat): (r: seq<BitBlock>)
    requires b < BPB * |bits|
    ensures |r| == |bits|
  {
    var s, bi := bits[b / BPB], b % BPB;
    bits[b / BPB := s[bi / 8 := s[bi / 8] | Mask(bi % 8)]]
  }

  function Cleared(bits: seq<BitBlock>, b: nat): (r: seq<BitBlock>)
    requires b < BPB * |bits|
    ensures |r| == |bits|
  {
    var s, bi := bits[b / BPB], b % BPB;
    bits[b / BPB := s[bi / 8 := s[bi / 8] & !Mask(bi % 8)]]
  }

  lemma BlankBit(bits: seq<BitBlock>, c: nat)
    requires c < BPB * |bits| && bits[c / BPB] == seq(BSIZE, _ => 0 as bv8)
    ensures !InUse(bits, c)
  {
  }

  lemma MarkedUses(bits: seq<BitBlock>, b: nat, c: nat)
    requires b < BPB * |bits| && c < BPB * |bits|
    ensures InUse(Marked(bits, b), c) == (c == b || InUse(bits, c))
  {
    BlockBitSet(bits[b / BPB], b % BPB, c % BPB);
  }

  lemma ClearedFrees(bits: seq<BitBlock>, b: nat, c: nat)
    requires b < BPB * |bits| && c < BPB * |bits|
    ensures InUse(Cleared(bits, b), c) == (c != b && InUse(bits, c))
  {
    BlockBitCleared(bits[b / BPB], b % BPB, c % BPB);
  }

  // Bit bi of the bitmap block that covers blocks base to base + BPB.
  lemma BitPlace(bits: seq<BitBlock>, base: nat, bi: nat)
    requires base % BPB == 0 && bi < BPB && base + bi < BPB * |bits|
    ensures base / BPB < |bits| && (base + bi) / BPB == base / BPB
    ensures InUse(bits, base + bi) <==> bits[base / BPB][bi / 8] & Mask(bi % 8) != 0
    ensures var s := bits[base / BPB];
      Marked(bits, base + bi) == bits[base / BPB := s[bi / 8 := s[bi / 8] | Mask(bi % 8)]]
  {
    assert (base + bi) / BPB == base / BPB && (base + bi) % BPB == bi;
  }
}
