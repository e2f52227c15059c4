/** The on-disk log of kernel/log.c: the header block, the log region, and what a complete
    recovery makes of a disk. */
module LogFormat {
  import opened Blocks

  // dev is the device the log lives on; blocks start .. start + size - 1 are the log
  // (header first), out of nblocks blocks on the disk.
  datatype Layout = Layout(dev: nat, start: nat, size: nat, nblocks: nat)

  ghost predicate ValidLayout(g: Layout) {
    g.dev != 0 && 1 <= g.size && g.start + g.size <= g.nblocks
  }

  predicate Home(g: Layout, blk: int) {
    0 <= blk < g.nblocks && !(g.start <= blk < g.start + g.size)
  }

  // struct logheader: word 0 is n, the block numbers follow.  A header is read back as a list.
  function Entries(b: Block): (lh: seq<int>)
    ensures |lh| <= LOGSIZE
  {
    if 0 <= b[0] <= LOGSIZE then b[1..1 + b[0]] else []
  }

  // write_head overwrites n and the first n slots of the header block and leaves the rest.
  function SetHead(b: Block, lh: seq<int>): (r: Block)
    requires |lh| <= LOGSIZE
    ensures Entries(r) == lh
  {
    var r := [|lh|] + lh + b[1 + |lh|..];
    assert r[1..1 + |lh|] == lh;
    r
  }

  predicate Apart(lh: seq<int>, i: int, j: int)
    requires 0 <= i < |lh| && 0 <= j < |lh|
  {
    lh[i] != lh[j]
  }

  // A list of block numbers that a transaction may log.
  ghost predicate Loggable(g: Layout, lh: seq<int>) {
    && |lh| <= LOGSIZE && |lh| <= g.size - 1
    && (forall i :: 0 <= i < |lh| ==> Home(g, lh[i]))
    && (forall i, j :: 0 <= i < j < |lh| ==> Apart(lh, i, j))
  }

  // install_trans: copy the first n log blocks to the places lh names.
  function Replay(g: Layout, disk: seq<Block>, lh: seq<int>, n: nat): (r: seq<Block>)
    requires ValidLayout(g) && |disk| == g.nblocks && Loggable(g, lh) && n <= |lh|
    ensures |r| == |disk|
  {
    if n == 0 then disk else Replay(g, disk, lh, n - 1)[lh[n - 1] := disk[g.start + n]]
  }

  lemma {:induction false} ReplayAt(g: Layout, disk: seq<Block>, lh: seq<int>, n: nat, i: nat)
    requires ValidLayout(g) && |disk| == g.nblocks && Loggable(g, lh) && i < n <= |lh|
    ensures Replay(g, disk, lh, n)[lh[i]] == disk[g.start + 1 + i]
  {
    if i < n - 1 {
      ReplayAt(g, disk, lh, n - 1, i);
      assert Apart(lh, i, n - 1);
    }
  }

  lemma {:induction false} ReplayElsewhere(g: Layout, disk: seq<Block>, lh: seq<int>, n: nat, blk: nat)
    requires ValidLayout(g) && |disk| == g.nblocks && Loggable(g, lh) && n <= |lh|
    requires blk < g.nblocks && blk !in lh
    ensures Replay(g, disk, lh, n)[blk] == disk[blk]
  {
    if n > 0 {
      ReplayElsewhere(g, disk, lh, n - 1, blk);
    }
  }

  ghost predicate HomeEqual(g: Layout, a: seq<Block>, b: seq<Block>)
    requires |a| == g.nblocks && |b| == g.nblocks
  {
    forall blk :: 0 <= blk < g.nblocks && Home(g, blk) ==> a[blk] == b[blk]
  }

  // Log block i holds what image has at the place lh[i] names.
  predicate Logged(g: Layout, disk: seq<Block>, image: seq<Block>, lh: seq<int>, i: int)
    requires ValidLayout(g) && |disk| == g.nblocks && |image| == g.nblocks && Loggable(g, lh) && 0 <= i < |lh|
  {
    image[lh[i]] == disk[g.start + 1 + i]
  }

  // The log blocks, replayed to the places lh names, complete the disk's home blocks to those of image.
  ghost predicate RecoversWith(g: Layout, disk: seq<Block>, image: seq<Block>, lh: seq<int>) {
    && ValidLayout(g) && |disk| == g.nblocks && |image| == g.nblocks && Loggable(g, lh)
    && (forall i :: 0 <= i < |lh| ==> Logged(g, disk, image, lh, i))
    && (forall blk :: 0 <= blk < g.nblocks && Home(g, blk) && blk !in lh ==> disk[blk] == image[blk])
  }

  // The log on the disk, replayed over the disk's home blocks, yields the home blocks of image.
  ghost predicate RecoversTo(g: Layout, disk: seq<Block>, image: seq<Block>) {
    ValidLayout(g) && |disk| == g.nblocks && RecoversWith(g, disk, image, Entries(disk[g.start]))
  }

  // What recover_from_log leaves on the disk: the log replayed, then an empty header.
  function Recovered(g: Layout, disk: seq<Block>): (r: seq<Block>)
    requires ValidLayout(g) && |disk| == g.nblocks && Loggable(g, Entries(disk[g.start]))
    ensures |r| == g.nblocks
  {
    var lh := Entries(disk[g.start]);
    Replay(g, disk, lh, |lh|)[g.start := SetHead(disk[g.start], [])]
  }

  lemma RecoveredHome(g: Layout, disk: seq<Block>, blk: nat)
    requires ValidLayout(g) && |disk| == g.nblocks && Loggable(g, Entries(disk[g.start]))
    requires blk < g.nblocks && Home(g, blk)
    ensures var lh := Entries(disk[g.start]);
      if blk in lh then exists i :: 0 <= i < |lh| && lh[i] == blk && Recovered(g, disk)[blk] == disk[g.start + 1 + i]
      else Recovered(g, disk)[blk] == disk[blk]
  {
    var lh := Entries(disk[g.start]);
    if blk in lh {
      var i :| 0 <= i < |lh| && lh[i] == blk;
      ReplayAt(g, disk, lh, |lh|, i);
      assert lh[i] == blk && Recovered(g, disk)[blk] == disk[g.start + 1 + i];
    } else {
      ReplayElsewhere(g, disk, lh, |lh|, blk);
    }
  }

  /* RecoversTo is exactly what a complete recovery achieves ... */
  lemma RecoveryYieldsImage(g: Layout, disk: seq<Block>, image: seq<Block>)
    requires ValidLayout(g) && |disk| == g.nblocks && |image| == g.nblocks
    requires Loggable(g, Entries(disk[g.start]))
    ensures RecoversTo(g, disk, image) <==> HomeEqual(g, Recovered(g, disk), image)
  {
    var lh := Entries(disk[g.start]);
    if RecoversTo(g, disk, image) {
      forall blk | 0 <= blk < g.nblocks && Home(g, blk)
        ensures Recovered(g, disk)[blk] == image[blk]
      {
        RecoveredHome(g, disk, blk);
        if blk in lh {
          var i :| 0 <= i < |lh| && lh[i] == blk && Recovered(g, disk)[blk] == disk[g.start + 1 + i];
          assert Logged(g, disk, image, lh, i);
        }
      }
    }
    if HomeEqual(g, Recovered(g, disk), image) {
      forall i | 0 <= i < |lh|
        ensures Logged(g, disk, image, lh, i)
      {
        assert Home(g, lh[i]);
        ReplayAt(g, disk, lh, |lh|, i);
      }
      forall blk | 0 <= blk < g.nblocks && Home(g, blk) && blk !in lh
        ensures disk[blk] == image[blk]
      {
        RecoveredHome(g, disk, blk);
      }
    }
  }

  /* ... and recovering once more changes no home block. */
  lemma RecoveryIsIdempotent(g: Layout, disk: seq<Block>, image: seq<Block>)
    requires RecoversTo(g, disk, image)
    ensures RecoversTo(g, Recovered(g, disk), image)
    ensures HomeEqual(g, Recovered(g, Recovered(g, disk)), Recovered(g, disk))
  {
    RecoveryYieldsImage(g, disk, image);
    var once := Recovered(g, disk);
    assert Entries(once[g.start]) == [];
    assert HomeEqual(g, Recovered(g, once), once);
  }
}
