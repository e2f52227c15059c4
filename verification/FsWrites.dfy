/** Splicing bytes into a file one block at a time (kernel/fs.c:486-517). */
module FsWrites {
  import opened FsFormat
  import opened FsFiles

  function Max(a: nat, b: nat): nat {
    if a < b then b else a
  }

  function Min(a: nat, b: nat): nat {
    if a < b then a else b
  }

  // c with d written over it from position off, growing if d reaches past the end.
  function Splice(c: seq<Byte>, off: nat, d: seq<Byte>): (r: seq<Byte>)
    requires off <= |c|
    ensures |r| == Max(|c|, off + |d|)
  {
    c[..off] + d + c[Min(|c|, off + |d|)..]
  }

  lemma SpliceMore(c: seq<Byte>, off: nat, src: seq<Byte>, tot: nat, m: nat)
    requires off <= |c| && tot + m <= |src|
    ensures Splice(Splice(c, off, src[..tot]), off + tot, src[tot..tot + m]) == Splice(c, off, src[..tot + m])
  {
    assert src[..tot + m] == src[..tot] + src[tot..tot + m];
  }

  lemma SpliceNothing(c: seq<Byte>, off: nat)
    requires off <= |c|
    ensures Splice(c, off, []) == c
  {
  }

  // memmove of chunk to position o of a block.
  function Blit(b: Bytes, o: nat, chunk: seq<Byte>): Bytes
    requires o + |chunk| <= BSIZE
  {
    b[..o] + chunk + b[o + |chunk|..]
  }

  lemma InBlock(k: nat, at: nat, m: nat)
    requires m <= BSIZE - at % BSIZE
    ensures at <= k < at + m <==> k / BSIZE == at / BSIZE && at % BSIZE <= k % BSIZE < at % BSIZE + m
  {
  }

  // One block of the file rewritten, every other block kept.
  ghost predicate OneBlock(f: Files, f': Files, ino: nat, n: nat)
    requires ino < |f.inodes| && InodeShaped(f, ino) && ino < |f'.inodes| && InodeShaped(f', ino)
  {
    && n < MAXFILE && BlockOf(f, ino, n) != 0 && BlockOf(f, ino, n) in f.disk
    && BlockOf(f', ino, n) == BlockOf(f, ino, n) && BlockOf(f, ino, n) in f'.disk
    && forall m: nat :: m < MAXFILE && m != n ==> Kept(f, f', ino, m)
  }

  lemma ChunkMapped(f: Files, f': Files, ino: nat, len: nat, at: nat, m: nat)
    requires ino < |f.inodes| && InodeShaped(f, ino) && ino < |f'.inodes| && InodeShaped(f', ino)
    requires Mapped(f, ino, len) && OneBlock(f, f', ino, at / BSIZE)
    requires at <= len && m <= BSIZE - at % BSIZE && at + m <= MAXFILE * BSIZE
    ensures Mapped(f', ino, Max(len, at + m))
  {
    forall j: nat | j * BSIZE < Max(len, at + m)
      ensures Present(f', ino, j)
    {
      if j != at / BSIZE {
        assert j * BSIZE < len;
        assert Present(f, ino, j) && Kept(f, f', ino, j);
      }
    }
  }

  lemma ChunkByte(f: Files, f': Files, ino: nat, len: nat, at: nat, chunk: seq<Byte>, k: nat)
    requires ino < |f.inodes| && InodeShaped(f, ino) && ino < |f'.inodes| && InodeShaped(f', ino)
    requires Mapped(f, ino, len) && OneBlock(f, f', ino, at / BSIZE)
    requires at <= len && |chunk| <= BSIZE - at % BSIZE && at + |chunk| <= MAXFILE * BSIZE
    requires var b := BlockOf(f, ino, at / BSIZE); f'.disk[b] == Blit(f.disk[b], at % BSIZE, chunk)
    requires k < Max(len, at + |chunk|) && Present(f', ino, k / BSIZE)
    ensures ByteAt(f', ino, k) == Splice(Content(f, ino, len), at, chunk)[k]
  {
    InBlock(k, at, |chunk|);
    if !(at <= k < at + |chunk|) {
      assert k < len && k / BSIZE * BSIZE < len;
      assert Present(f, ino, k / BSIZE);
      assert Content(f, ino, len)[k] == ByteAt(f, ino, k);
      if k / BSIZE != at / BSIZE { assert Kept(f, f', ino, k / BSIZE); }
    }
  }

  // Writing a chunk that stays inside one block splices it into the file.
  lemma ChunkSplices(f: Files, g: Region, owner: map<nat, Slot>, ino: nat, len: nat, at: nat, chunk: seq<Byte>)
    requires Owned(f, g, owner) && ino < |f.inodes| && InodeShaped(f, ino) && Mapped(f, ino, len)
    requires at <= len && |chunk| <= BSIZE - at % BSIZE && at + |chunk| <= MAXFILE * BSIZE && 0 < |chunk|
    requires BlockOf(f, ino, at / BSIZE) != 0 && BlockOf(f, ino, at / BSIZE) in f.disk
    ensures var b := BlockOf(f, ino, at / BSIZE);
      var f' := Written(f, b, Blit(f.disk[b], at % BSIZE, chunk));
      var len' := Max(len, at + |chunk|);
      && Owned(f', g, owner) && InodeShaped(f', ino)
      && Mapped(f', ino, len')
      && Content(f', ino, len') == Splice(Content(f, ino, len), at, chunk)
  {
    var n := at / BSIZE;
    var b := BlockOf(f, ino, n);
    var data := Blit(f.disk[b], at % BSIZE, chunk);
    var f' := Written(f, b, data);
    var len' := Max(len, at + |chunk|);
    WrittenKeeps(f, g, owner, ino, n, data);
    assert OneBlock(f, f', ino, n);
    ChunkMapped(f, f', ino, len, at, |chunk|);
    forall k | 0 <= k < len'
      ensures Content(f', ino, len')[k] == Splice(Content(f, ino, len), at, chunk)[k]
    {
      assert k / BSIZE * BSIZE < len';
      assert Present(f', ino, k / BSIZE);
      ChunkByte(f, f', ino, len, at, chunk, k);
    }
  }

  // A chunk inside one block, read from it.
  lemma ChunkRead(f: Files, ino: nat, len: nat, at: nat, m: nat)
    requires ino < |f.inodes| && InodeShaped(f, ino) && Mapped(f, ino, len)
    requires at + m <= len && 0 < m <= BSIZE - at % BSIZE
    ensures Present(f, ino, at / BSIZE) && at / BSIZE < MAXFILE
    ensures Content(f, ino, len)[at..at + m] == f.disk[BlockOf(f, ino, at / BSIZE)][at % BSIZE..at % BSIZE + m]
  {
    assert at / BSIZE * BSIZE < len;
    assert Present(f, ino, at / BSIZE);
    forall k | at <= k < at + m
      ensures Content(f, ino, len)[k] == f.disk[BlockOf(f, ino, at / BSIZE)][at % BSIZE + (k - at)]
    {
      InBlock(k, at, m);
    }
  }
}
