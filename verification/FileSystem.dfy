/** Block allocation, inode contents and filewrite (kernel/fs.c:64-103, 370-517, kernel/file.c:149-174).

    The calls run under the inode's lock, inside a transaction.  Where the source panics because the
    disk is full the methods return ok == false.  either_copyin and either_copyout copy a whole chunk
    or nothing: `reach` is how many bytes from the user's address on can be copied. */
module FileSystem {
  import opened FsFormat
  import opened FsFiles
  import opened FsWrites
  import opened FsState
  import opened FsTrunc
  import opened FsLog
  import Param = Blocks

  class FileSystem {
    const sb: Super
    var bits: seq<BitBlock>              // the bitmap blocks
    var files: Files                     // inodes in memory, and data blocks
    var dinodes: seq<Inode>              // inodes on disk
    ghost var owner: map<nat, Slot>
    ghost var logged: set<nat>           // blocks passed to log_write

    ghost predicate Valid()
      reads this
    {
      Consistent(sb, bits, files, owner) && |dinodes| == |files.inodes|
    }

    // Between system calls: no file has holes, and the inodes on disk are up to date.
    ghost predicate AtRest()
      reads this
    {
      Valid() && Whole(files, sb.g) && dinodes == files.inodes
    }

    ghost function Now(): Image
      reads this
    {
      Image(bits, files.disk, dinodes)
    }

    // A disk as mkfs lays it out, before the root directory: the blocks up to the data region marked, all inodes empty.
    constructor (sb: Super, nbits: nat, ninodes: nat, disk: map<nat, Bytes>)
      requires forall b :: b in disk <==> sb.g.first <= b < sb.g.size
      requires 0 < sb.g.first <= sb.g.size < UINT && sb.g.size <= BPB * nbits
      ensures this.sb == sb && AtRest() && |bits| == nbits && |files.inodes| == ninodes
      ensures forall ino: nat :: ino < ninodes ==> files.inodes[ino].size == 0
      ensures owner == map[] && logged == {}
    {
      hide InUse;
      var marked: seq<BitBlock> := seq(nbits, _ => seq(BSIZE, _ => 0 as bv8));
      var empty := Inode(0, seq(NDIRECT + 1, _ => 0));
      forall c: nat | c < BPB * nbits
        ensures !InUse(marked, c)
      {
        BlankBit(marked, c);
      }
      var b := 0;
      while b < sb.g.first
        invariant b <= sb.g.first && |marked| == nbits
        invariant forall c: nat :: c < BPB * nbits ==> (InUse(marked, c) <==> c < b)
      {
        forall c: nat | c < BPB * nbits
          ensures InUse(Marked(marked, b), c) <==> c < b + 1
        {
          MarkedUses(marked, b, c);
        }
        marked := Marked(marked, b);
        b := b + 1;
      }
      this.sb := sb;
      bits := marked;
      files := Files(seq(ninodes, _ => empty), disk);
      dinodes := seq(ninodes, _ => empty);
      owner, logged := map[], {};
      new;
      EmptyOwned(files, sb.g);
    }

    // A data block is overwritten, and handed to log_write.
    method WriteBlock(b: nat, data: Bytes)
      requires b in files.disk
      modifies `files, `logged
      ensures files == old(files).(disk := old(files).disk[b := data]) && logged == old(logged) + {b}
      ensures old(logged) <= logged && AllLogged(sb, old(Now()), Now(), logged)
    {
      hide AllLogged;
      DataLogged(sb, Now(), b, data, logged + {b});
      files := files.(disk := files.disk[b := data]);
      logged := logged + {b};
    }

    // The bit of a free block is set in its bitmap block.
    method MarkBit(base: nat, bi: nat)
      requires bi < BPB && base % BPB == 0 && base + bi < BPB * |bits|
      modifies `bits, `logged
      ensures bits == Marked(old(bits), base + bi) && logged == old(logged) + {BBlock(sb, base + bi)}
      ensures old(logged) <= logged && AllLogged(sb, old(Now()), Now(), logged)
    {
      hide AllLogged;
      BitLogged(sb, Now(), base + bi, logged + {BBlock(sb, base + bi)});
      var m := Mask(bi % 8);
      bits := bits[base / BPB := bits[base / BPB][bi / 8 := bits[base / BPB][bi / 8] | m]];
      logged := logged + {BBlock(sb, base)};
    }

    // balloc: the lowest free block, now marked and zeroed.
    method BAlloc() returns (ok: bool, b: nat)
      requires Valid()
      modifies `bits, `files, `logged
      ensures !ok ==> bits == old(bits) && files == old(files) && logged == old(logged)
      ensures !ok ==> Full(sb, bits)
      ensures ok ==> sb.g.first <= b < sb.g.size && b !in owner && !InUse(old(bits), b)
      ensures ok ==> forall c: nat :: c < b ==> InUse(old(bits), c)
      ensures ok ==> bits == Marked(old(bits), b) && files == Zeroed(old(files), b)
      ensures ok ==> logged == old(logged) + {BBlock(sb, b), b}
      ensures old(logged) <= logged && AllLogged(sb, old(Now()), Now(), logged)
    {
      hide Owned, Zeros, InUse, Marked, Mask, AllLogged;
      ghost var d := Now();
      NothingToLog(sb, d, logged);
      ShapedRegion(files, sb.g, owner);
      ok, b := false, 0;
      var base := 0;
      while base < sb.g.size
        invariant base % BPB == 0
        invariant bits == old(bits) && files == old(files) && logged == old(logged)
        invariant forall c: nat :: c < base && c < sb.g.size ==> InUse(bits, c)
      {
        var bi := 0;
        while bi < BPB && base + bi < sb.g.size
          invariant bi <= BPB
          invariant bits == old(bits) && files == old(files) && logged == old(logged)
          invariant forall c: nat :: c < base + bi && c < sb.g.size ==> InUse(bits, c)
        {
          var m := Mask(bi % 8);
          BitPlace(bits, base, bi);
          if bits[base / BPB][bi / 8] & m == 0 {
            b := base + bi;
            MarkBit(base, bi);
            ghost var d1, log1 := Now(), logged;
            WriteBlock(b, Zeros());
            LoggedTrans(sb, d, d1, Now(), log1, logged);
            return true, b;
          }
          bi := bi + 1;
        }
        base := base + BPB;
      }
    }

    // bfree; the panic on a free block is its precondition.
    method BFree(b: nat)
      requires b < BPB * |bits| && InUse(bits, b)
      modifies `bits, `logged
      ensures bits == Cleared(old(bits), b) && logged == old(logged) + {BBlock(sb, b)}
      ensures old(logged) <= logged && AllLogged(sb, old(Now()), Now(), logged)
    {
      hide AllLogged;
      BitLogged(sb, Now(), b, logged + {BBlock(sb, b)});
      var bi := b % BPB;
      var m := Mask(bi % 8);
      assert bits[b / BPB][bi / 8] & m != 0;
      bits := bits[b / BPB := bits[b / BPB][bi / 8 := bits[b / BPB][bi / 8] & !m]];
      logged := logged + {BBlock(sb, b)};
    }
  
    // An empty slot of an inode receives a fresh block.
    method FillSlot(ino: nat, i: nat) returns (ok: bool, b: nat)
      requires Valid() && ino < |files.inodes| && InodeShaped(files, ino) && i < SLOTS
      requires Ptr(files, ino, i) == 0 && (i > NDIRECT ==> files.inodes[ino].addrs[NDIRECT] != 0)
      modifies `bits, `files, `owner, `logged
      ensures Valid() && |bits| == old(|bits|)
      ensures Grown(old(files), files, sb.g, ino)
      ensures ok ==> Ptr(files, ino, i) == b && b != 0
      ensures ok ==> (i != NDIRECT ==> files.inodes[ino].addrs[NDIRECT] == old(files).inodes[ino].addrs[NDIRECT])
      ensures ok ==> logged <= old(logged) + BitmapBlocks(sb, |bits|) + {b} + (if i > NDIRECT then Indirect(old(files), ino) else {})
      ensures !ok ==> files == old(files) && logged == old(logged) && Full(sb, bits)
      ensures old(logged) <= logged && AllLogged(sb, old(Now()), Now(), logged)
    {
      hide Owned, KeepsAll, Ptr, InUse, Marked, Grown, Fillable, BitmapBlocks, AllLogged;
      ghost var f, bits0 := files, bits;
      GrownRefl(f, sb.g, owner, ino);
      ok, b := BAlloc();
      if ok {
        ShapedRegion(f, sb.g, owner);
        assert Fillable(f, sb.g, owner, ino, i, b) by { IsFillable(f, sb.g, owner, ino, i, b); }
        FilledConsistent(sb, bits0, f, owner, ino, i, b);
        BBlockIsBitmap(sb, bits, b);
        if i <= NDIRECT {
          var inode := files.inodes[ino];
          files := files.(inodes := files.inodes[ino := inode.(addrs := inode.addrs[i := b])]);
        } else {
          var ind := files.inodes[ino].addrs[NDIRECT];
          ghost var d1, log1 := Now(), logged;
          WriteBlock(ind, SetWord(files.disk[ind], i - NDIRECT - 1, b));
          LoggedTrans(sb, old(Now()), d1, Now(), log1, logged);
        }
        assert files == Filled(f, ino, i, b);
        owner := owner[b := Slot(ino, i)];
      }
    }

    // bmap: the nth block of the file, allocated if it is missing.
    method BMap(ino: nat, bn: nat) returns (ok: bool, addr: nat)
      requires Valid() && ino < |files.inodes| && InodeShaped(files, ino) && bn < MAXFILE
      modifies `bits, `files, `owner, `logged
      ensures Valid() && |bits| == old(|bits|)
      ensures Grown(old(files), files, sb.g, ino)
      ensures ok ==> addr == BlockOf(files, ino, bn) != 0 && addr in files.disk
      ensures ok ==> logged <= old(logged) + BitmapBlocks(sb, |bits|) + {addr} + Indirect(files, ino)
      ensures !ok ==> Full(sb, bits)
      // A block that is there is found without allocating anything.
      ensures old(BlockOf(files, ino, bn)) != 0 ==>
                ok && bits == old(bits) && files == old(files) && owner == old(owner) && logged == old(logged)
      ensures old(logged) <= logged && AllLogged(sb, old(Now()), Now(), logged)
    {
      hide Owned, KeepsAll, BitmapBlocks, InUse, Full, AllLogged;
      NothingToLog(sb, Now(), logged);
      ghost var f := files;
      GrownRefl(f, sb.g, owner, ino);
      if bn < NDIRECT {
        addr := files.inodes[ino].addrs[bn];
        ok := true;
        if addr == 0 {
          ok, addr := FillSlot(ino, bn);
        }
        BlockIsThere(files, sb.g, owner, ino, bn);
        return;
      }
      var e := bn - NDIRECT;
      var ind := files.inodes[ino].addrs[NDIRECT];
      if ind == 0 {
        ok, ind := FillSlot(ino, NDIRECT);
        if !ok { return false, 0; }
      }
      BlockIsThere(files, sb.g, owner, ino, NDIRECT);
      ghost var f1, d1, log1 := files, Now(), logged;
      ok, addr := true, Word(files.disk[ind], e);
      if addr == 0 {
        ok, addr := FillSlot(ino, bn + 1);
        GrownTrans(f, f1, files, sb.g, ino);
        LoggedTrans(sb, old(Now()), d1, Now(), log1, logged);
      }
      BlockIsThere(files, sb.g, owner, ino, bn + 1);
    }
  
    // itrunc's first loop.
    method FreeDirect(ino: nat)
      requires Valid() && ino < |files.inodes| && InodeShaped(files, ino)
      modifies `bits, `files, `owner, `logged
      ensures Valid() && |bits| == old(|bits|)
      ensures files.disk == old(files.disk) && |files.inodes| == |old(files).inodes| && InodeShaped(files, ino)
      ensures files.inodes == old(files.inodes)[ino := files.inodes[ino]]
      ensures forall k :: 0 <= k < NDIRECT ==> files.inodes[ino].addrs[k] == 0
      ensures owner == Dropped(old(owner), ino, NDIRECT)
      ensures logged <= old(logged) + BitmapBlocks(sb, |bits|)
      ensures old(logged) <= logged && AllLogged(sb, old(Now()), Now(), logged)
    {
      hide Owned, InUse, Cleared, BitmapBlocks, Dropped, Without, AllLogged;
      NothingToLog(sb, Now(), logged);
      DroppedNone(owner, ino);
      var i := 0;
      while i < NDIRECT
        invariant i <= NDIRECT
        invariant Valid() && |bits| == old(|bits|)
        invariant files.disk == old(files.disk) && |files.inodes| == |old(files).inodes| && InodeShaped(files, ino)
        invariant files.inodes == old(files.inodes)[ino := files.inodes[ino]]
        invariant forall k :: 0 <= k < i ==> files.inodes[ino].addrs[k] == 0
        invariant owner == Dropped(old(owner), ino, i)
        invariant logged <= old(logged) + BitmapBlocks(sb, |bits|)
        invariant old(logged) <= logged && AllLogged(sb, old(Now()), Now(), logged)
      {
        var inode := files.inodes[ino];
        DroppedStep(files, sb.g, old(owner), owner, ino, i);
        if inode.addrs[i] != 0 {
          ClearedConsistent(sb, bits, files, owner, ino, i);
          BBlockIsBitmap(sb, bits, inode.addrs[i]);
          ghost var d1, log1 := Now(), logged;
          BFree(inode.addrs[i]);
          LoggedTrans(sb, old(Now()), d1, Now(), log1, logged);
          files := files.(inodes := files.inodes[ino := inode.(addrs := inode.addrs[i := 0])]);
          owner := Without(owner, inode.addrs[i]);
        }
        i := i + 1;
      }
    }

    // itrunc's second half: the entries of the indirect block, then the block itself.
    method FreeIndirect(ino: nat, ghost owner0: map<nat, Slot>)
      requires Valid() && ino < |files.inodes| && InodeShaped(files, ino) && files.inodes[ino].addrs[NDIRECT] != 0
      requires owner == Dropped(owner0, ino, NDIRECT)
      modifies `bits, `files, `owner, `logged
      ensures Valid() && |bits| == old(|bits|)
      ensures files == Store(old(files), ino, NDIRECT, 0)
      ensures owner == Dropped(owner0, ino, SLOTS)
      ensures logged <= old(logged) + BitmapBlocks(sb, |bits|)
      ensures old(logged) <= logged && AllLogged(sb, old(Now()), Now(), logged)
    {
      hide Owned, InUse, Cleared, BitmapBlocks, Dropped, Without, Freeing, AllLogged;
      NothingToLog(sb, Now(), logged);
      var ind := files.inodes[ino].addrs[NDIRECT];
      ghost var h := files;
      FreeingStart(sb, bits, files, owner0, owner, ino);
      var j := 0;
      while j < NINDIRECT
        invariant j <= NINDIRECT
        invariant files == old(files) && |bits| == old(|bits|)
        invariant Freeing(sb, bits, h, files, owner0, owner, ino, j)
        invariant logged <= old(logged) + BitmapBlocks(sb, |bits|)
        invariant old(logged) <= logged && AllLogged(sb, old(Now()), Now(), logged)
      {
        var b := Word(files.disk[ind], j);
        FreeingFacts(sb, bits, h, files, owner0, owner, ino, j);
        FreeingStep(sb, bits, h, files, owner0, owner, ino, j);
        if b != 0 {
          BBlockIsBitmap(sb, bits, b);
          ghost var d1, log1 := Now(), logged;
          BFree(b);
          LoggedTrans(sb, old(Now()), d1, Now(), log1, logged);
          h := Store(h, ino, NDIRECT + 1 + j, 0);
          owner := Without(owner, b);
        }
        j := j + 1;
      }
      FreeingEnd(sb, bits, h, files, owner0, owner, ino);
      BBlockIsBitmap(sb, bits, ind);
      ghost var d1, log1 := Now(), logged;
      BFree(ind);
      LoggedTrans(sb, old(Now()), d1, Now(), log1, logged);
      var inode := files.inodes[ino];
      files := files.(inodes := files.inodes[ino := inode.(addrs := inode.addrs[NDIRECT := 0])]);
      owner := Without(owner, ind);
    }

    // itrunc: the inode's blocks, and no others, become free; no other file changes.
    method ITrunc(ino: nat)
      requires AtRest() && ino < |files.inodes|
      modifies `bits, `files, `dinodes, `owner, `logged
      ensures AtRest() && |bits| == old(|bits|) && ino < |files.inodes|
      ensures SameFiles(old(files), files, sb.g, ino) && FileOf(files, sb.g, ino) == []
      ensures forall b: nat :: sb.g.first <= b < sb.g.size ==>
                (InUse(bits, b) <==> InUse(old(bits), b) && !HeldBy(old(files), ino, b))
      ensures logged <= old(logged) + BitmapBlocks(sb, |bits|) + {IBlock(sb, ino)}
      ensures old(logged) <= logged && AllLogged(sb, old(Now()), Now(), logged)
    {
      hide Owned, InUse, BitmapBlocks, Dropped, HeldBy, FileOf, Whole, AllLogged;
      ShapedRegion(files, sb.g, owner);
      FreeDirect(ino);
      ghost var d1, log1 := Now(), logged;
      if files.inodes[ino].addrs[NDIRECT] != 0 {
        FreeIndirect(ino, old(owner));
        LoggedTrans(sb, old(Now()), d1, Now(), log1, logged);
      } else {
        DroppedRest(files, sb.g, old(owner), owner, ino);
      }
      TruncEnd(sb, old(bits), old(files), old(owner), bits, files, owner, ino);
      files := files.(inodes := files.inodes[ino := files.inodes[ino].(size := 0)]);
      d1, log1 := Now(), logged;
      IUpdate(ino);
      LoggedTrans(sb, old(Now()), d1, Now(), log1, logged);
    }

    method IUpdate(ino: nat)
      requires ino < |files.inodes| && ino < |dinodes|
      modifies `dinodes, `logged
      ensures dinodes == old(dinodes)[ino := files.inodes[ino]] && logged == old(logged) + {IBlock(sb, ino)}
      ensures old(logged) <= logged && AllLogged(sb, old(Now()), Now(), logged)
    {
      hide AllLogged;
      DinodeLogged(sb, Now(), ino, files.inodes[ino], logged + {IBlock(sb, ino)});
      dinodes := dinodes[ino := files.inodes[ino]];
      logged := logged + {IBlock(sb, ino)};
    }
  
    // readi: a slice of the file; nothing is allocated.
    method ReadI(ino: nat, off: nat, count: nat, reach: nat) returns (r: int, data: seq<Byte>)
      requires AtRest() && ino < |files.inodes| && off < UINT && count < UINT
      modifies `bits, `files, `owner, `logged
      ensures bits == old(bits) && files == old(files) && owner == old(owner) && logged == old(logged)
      ensures off > files.inodes[ino].size || off + count >= UINT ==> r == 0 && data == []
      ensures off <= files.inodes[ino].size && off + count < UINT ==>
                var want := FileOf(files, sb.g, ino)[off..Min(off + count, files.inodes[ino].size)];
                if |want| <= reach then r == |want| && data == want else r == -1 && data < want
    {
      hide Owned, InUse, BitmapBlocks, FileOf, Whole, Mapped, Content, Grown, Ptr, Full;
      ShapedRegion(files, sb.g, owner);
      r, data := 0, [];
      var n, size := count, files.inodes[ino].size;
      if off > size || (off + n) % UINT < off {
        return;
      }
      if off + n > size {
        n := size - off;
      }
      FileIsMapped(files, sb.g, ino);
      ghost var file := FileOf(files, sb.g, ino);
      var tot, at := 0, off;
      while tot < n
        invariant tot <= n && at == off + tot && tot <= reach
        invariant bits == old(bits) && files == old(files) && owner == old(owner) && logged == old(logged)
        invariant data == file[off..at]
      {
        var m := Min(n - tot, BSIZE - at % BSIZE);
        ChunkRead(files, ino, size, at, m);
        var ok, b := BMap(ino, at / BSIZE);
        var chunk := files.disk[b][at % BSIZE..at % BSIZE + m];
        if tot + m > reach {
          return -1, data;
        }
        assert file[off..at] + file[at..at + m] == file[off..at + m];
        data := data + chunk;
        tot, at := tot + m, at + m;
      }
      r := tot;
    }
  
    // The end of writei: the size grows if the file did, and the inode goes to the disk.
    method Extend(ino: nat, at: nat)
      requires ino < |files.inodes| && ino < |dinodes|
      modifies `files, `dinodes, `logged
      ensures files == Resized(old(files), ino, Max(old(files).inodes[ino].size, at))
      ensures dinodes == old(dinodes)[ino := files.inodes[ino]] && logged == old(logged) + {IBlock(sb, ino)}
      ensures old(logged) <= logged && AllLogged(sb, old(Now()), Now(), logged)
    {
      hide AllLogged;
      if at > files.inodes[ino].size {
        files := files.(inodes := files.inodes[ino := files.inodes[ino].(size := at)]);
      }
      assert files.inodes == old(files).inodes[ino := files.inodes[ino]];
      IUpdate(ino);
    }

    // writei: a splice of as many bytes as whole chunks allow, and the new size.
    method WriteI(ino: nat, off: nat, src: seq<Byte>, reach: nat) returns (ok: bool, r: int)
      requires AtRest() && ino < |files.inodes| && off < UINT && |src| < UINT
      modifies `bits, `files, `dinodes, `owner, `logged
      ensures Valid() && |bits| == old(|bits|)
      ensures r == -1 <==> Refused(old(files).inodes[ino].size, off, |src|)
      ensures r == -1 ==> ok && bits == old(bits) && files == old(files) && dinodes == old(dinodes) && logged == old(logged)
      ensures r == -1 ==> owner == old(owner)
      ensures !ok ==> Full(sb, bits)
      ensures r != -1 && ok ==> AtRest() && 0 <= r && Copied(off, |src|, reach, r)
      ensures r != -1 && ok ==> WriteDone(sb, |bits|, old(files), files, old(logged), logged, ino, off, src, r)
      // Whatever it has changed, also when it panics, is in the log.
      ensures old(logged) <= logged && AllLogged(sb, old(Now()), Now(), logged)
    {
      hide Owned, InUse, BitmapBlocks, Whole, Writing, WriteDone, Grown, BlockOf, Full, AllLogged;
      NothingToLog(sb, Now(), logged);
      ok, r := true, -1;
      var n := |src|;
      ShapedRegion(files, sb.g, owner);
      if off > files.inodes[ino].size || (off + n) % UINT < off {
        return;
      }
      if off + n > MAXFILE * BSIZE {
        return;
      }
      ghost var f0 := files;
      WritingStart(sb, |bits|, files, owner, logged, ino, off, src);
      var tot, at := 0, off;
      while tot < n
        invariant tot <= n && at == off + tot && tot <= reach
        invariant tot == 0 || tot == n || at % BSIZE == 0
        invariant Valid() && |bits| == old(|bits|) && dinodes == old(dinodes)
        invariant Writing(sb, |bits|, f0, files, old(logged), logged, ino, off, src, tot)
        invariant old(logged) <= logged && AllLogged(sb, old(Now()), Now(), logged)
      {
        ghost var f, d, log := files, Now(), logged;
        WritingFacts(sb, |bits|, f0, files, old(logged), logged, ino, off, src, tot);
        var b;
        ok, b := BMap(ino, at / BSIZE);
        LoggedTrans(sb, old(Now()), d, Now(), log, logged);
        if !ok {
          r := 0;
          return;
        }
        WritingGrown(sb, |bits|, f0, f, files, old(logged), log, logged, ino, off, src, tot);
        var m := Min(n - tot, BSIZE - at % BSIZE);
        if tot + m > reach {
          break;
        }
        WritingChunk(sb, bits, owner, f0, files, old(logged), logged, ino, off, src, tot, m);
        d, log := Now(), logged;
        WriteBlock(b, Blit(files.disk[b], at % BSIZE, src[tot..tot + m]));
        LoggedTrans(sb, old(Now()), d, Now(), log, logged);
        tot, at := tot + m, at + m;
      }
      WritingFacts(sb, |bits|, f0, files, old(logged), logged, ino, off, src, tot);
      WritingEnd(sb, bits, owner, f0, files, old(logged), logged, ino, off, src, tot);
      ghost var d1, log1 := Now(), logged;
      Extend(ino, at);
      LoggedTrans(sb, old(Now()), d1, Now(), log1, logged);
      r := tot;
    }
  
    // filewrite on an inode: one transaction a chunk, each small enough for the log.
    method FileWrite(ino: nat, start: nat, src: seq<Byte>, reach: nat)
      returns (ok: bool, ret: int, off: nat, ghost txs: seq<set<nat>>, ghost cuts: seq<Image>)
      requires AtRest() && ino < |files.inodes| && start < UINT && |src| < 0x8000_0000
      modifies `bits, `files, `dinodes, `owner, `logged
      ensures |bits| == old(|bits|)
      ensures forall i :: 0 <= i < |txs| ==> SmallEnough(sb, |bits|, txs[i])
      ensures |bits| <= 4 ==> forall i :: 0 <= i < |txs| ==> |txs[i]| <= Param.MAXOPBLOCKS
      ensures ok ==> AtRest() && start <= off <= start + |src| && Wrote(old(files), files, sb.g, ino, start, src, off - start)
      ensures !ok ==> sb.g.size <= BPB * |bits| && Full(sb, bits)
      // Each transaction has everything that changed between its ends; one that panics has what it changed so far.
      ensures |cuts| == |txs| + 1 && cuts[0] == old(Now())
      ensures forall i :: 0 <= i < |txs| ==> AllLogged(sb, cuts[i], cuts[i + 1], txs[i])
      ensures if ok then Now() == cuts[|txs|] else AllLogged(sb, cuts[|txs|], Now(), logged)
      ensures ok ==> ret == if off == start + |src| then |src| else -1
      // Everything is written exactly when the file can take it and the source can be read.
      ensures ok ==> (ret == |src| <==>
                      |src| == 0 || (start <= old(files).inodes[ino].size && start + |src| <= MAXFILE * BSIZE && |src| <= reach))
    {
      hide Owned, InUse, BitmapBlocks, Whole, WriteDone, Wrote, Copied, Full, AllLogged;
      ok, ret, off, txs, cuts := true, -1, start, [], [Now()];
      ghost var f0 := files;
      ShapedRegion(files, sb.g, owner);
      WroteNothing(files, sb.g, ino, start, src);
      var n, i := |src|, 0;
      while i < n
        invariant i <= n && off == start + i && off < UINT
        invariant AtRest() && |bits| == old(|bits|) && |files.inodes| == |f0.inodes|
        invariant Wrote(f0, files, sb.g, ino, start, src, i)
        invariant i <= reach && (i > 0 ==> off <= MAXFILE * BSIZE)
        invariant forall k :: 0 <= k < |txs| ==> SmallEnough(sb, |bits|, txs[k])
        invariant |cuts| == |txs| + 1 && cuts[0] == old(Now()) && cuts[|txs|] == Now()
        invariant forall k :: 0 <= k < |txs| ==> AllLogged(sb, cuts[k], cuts[k + 1], txs[k])
      {
        var n1 := n - i;
        if n1 > CHUNK {
          n1 := CHUNK;
        }
        WroteSize(f0, files, sb.g, ino, start, src, i);
        logged := {};                   // begin_op
        ghost var f := files;
        var r;
        ok, r := WriteI(ino, off, src[i..i + n1], reach - i);
        if !ok {
          return;
        }
        if r > 0 {
          off := off + r;
        }
        if r >= 0 {
          CopiedAll(start + i, n1, reach - i, r);
          WroteMore(sb, |bits|, f0, f, files, {}, logged, ino, start, src, i, n1, r);
          ChunkIsSmall(sb, |bits|, f, files, logged, ino, start + i, src[i..i + n1], r);
          txs, cuts := txs + [logged], cuts + [Now()];        // end_op
        }
        if r != n1 {
          break;
        }
        i := i + r;
      }
      WroteSize(f0, files, sb.g, ino, start, src, off - start);
      ret := if i == n then n else -1;
    }
  
    // Any run of calls does to the files what it would do to plain byte sequences, unless the disk fills up.
    method Run(ops: seq<FileOp>) returns (ok: bool)
      requires AtRest()
      modifies this
      ensures ok ==> AtRest() && Contents(files, sb.g) == PlainRun(old(Contents(files, sb.g)), ops)
      ensures !ok ==> sb.g.size <= BPB * |bits| && Full(sb, bits)
    {
      hide InUse, Whole, Contents, PlainStep, Full, PtrOwned, OwnerHolds;
      ok := true;
      ghost var c := Contents(files, sb.g);
      assert ops[..0] == [];
      for n := 0 to |ops|
        invariant AtRest() && |files.inodes| == |c| && Contents(files, sb.g) == PlainRun(c, ops[..n])
      {
        assert ops[..n + 1][..n] == ops[..n];
        ok := Step(ops[n]);
        if !ok {
          return;
        }
      }
      assert ops[..|ops|] == ops;
    }

    method Step(op: FileOp) returns (ok: bool)
      requires AtRest()
      modifies this
      ensures ok ==> AtRest() && |files.inodes| == |old(files).inodes|
      ensures ok ==> Contents(files, sb.g) == PlainStep(old(Contents(files, sb.g)), op)
      ensures !ok ==> sb.g.size <= BPB * |bits| && Full(sb, bits)
    {
      hide Owned, InUse, Whole, Contents, FileOf, Full, WriteDone, SameFiles, Reach, Splice, Copied;
      ok := true;
      ghost var f := files;
      ShapedRegion(files, sb.g, owner);
      if !Callable(|files.inodes|, op) {
        return;
      }
      match op
      case Write(ino, off, src, reach) =>
        var r;
        ok, r := WriteI(ino, off, src, reach);
        FileSize(f, sb.g, ino);
        if ok && r != -1 {
          WriteIsPlain(sb, |bits|, f, files, old(logged), logged, op, r);
        }
      case Read(ino, off, count, reach) =>
        var r, data := ReadI(ino, off, count, reach);
      case Truncate(ino) =>
        ITrunc(ino);
        SameFilesContents(f, files, sb.g, ino);
    }
  }

  lemma FileSize(f: Files, g: Region, ino: nat)
    requires Shaped(f, g) && Whole(f, g) && ino < |f.inodes|
    ensures Contents(f, g)[ino] == FileOf(f, g, ino) && |FileOf(f, g, ino)| == f.inodes[ino].size
  {
  }
}
