/** kernel/log.c as it runs when nothing interferes: log_write's absorption, commit and recovery,
    loop by loop, on a disk that records every state it passes through.  A crash is a cut of that
    record, so the contracts speak about each recorded disk, not only the last one. */
module LogDevice {
  import opened Blocks
  import opened LogFormat

  // One more home write of install_trans.
  lemma InstallOneRecovers(g: Layout, d: seq<Block>, image: seq<Block>, lh: seq<int>, i: nat)
    requires RecoversWith(g, d, image, lh) && i < |lh|
    ensures RecoversWith(g, d[lh[i] := d[g.start + 1 + i]], image, lh)
  {
    assert Home(g, lh[i]) && Logged(g, d, image, lh, i);
    var d' := d[lh[i] := d[g.start + 1 + i]];
    forall k | 0 <= k < |lh|
      ensures Logged(g, d', image, lh, k)
    {
      assert Logged(g, d, image, lh, k);
    }
  }

  // The disk after the first n home writes of install_trans.
  lemma {:induction false} ReplayStillRecovers(g: Layout, disk: seq<Block>, image: seq<Block>, lh: seq<int>, n: nat)
    requires RecoversWith(g, disk, image, lh) && n <= |lh|
    ensures RecoversWith(g, Replay(g, disk, lh, n), image, lh)
    ensures Replay(g, disk, lh, n)[g.start] == disk[g.start]
  {
    ReplayKeepsLog(g, disk, lh, n);
    if n > 0 {
      ReplayStillRecovers(g, disk, image, lh, n - 1);
      ReplayKeepsLog(g, disk, lh, n - 1);
      InstallOneRecovers(g, Replay(g, disk, lh, n - 1), image, lh, n - 1);
    }
  }

  // install_trans never writes into the log.
  lemma {:induction false} ReplayKeepsLog(g: Layout, disk: seq<Block>, lh: seq<int>, n: nat)
    requires ValidLayout(g) && |disk| == g.nblocks && Loggable(g, lh) && n <= |lh|
    ensures forall x :: g.start <= x < g.start + g.size ==> Replay(g, disk, lh, n)[x] == disk[x]
  {
    if n > 0 {
      ReplayKeepsLog(g, disk, lh, n - 1);
      assert Home(g, lh[n - 1]);
    }
  }

  // Every disk state of a recovery of disk, in order: the start, each home write, the cleared header.
  function RecoveryStates(g: Layout, disk: seq<Block>, n: nat): (r: seq<seq<Block>>)
    requires ValidLayout(g) && |disk| == g.nblocks && Loggable(g, Entries(disk[g.start]))
    requires n <= |Entries(disk[g.start])|
    ensures |r| == n + 1
  {
    if n == 0 then [disk] else RecoveryStates(g, disk, n - 1) + [Replay(g, disk, Entries(disk[g.start]), n)]
  }

  lemma {:induction false} RecoveryStatesAt(g: Layout, disk: seq<Block>, n: nat, k: nat)
    requires ValidLayout(g) && |disk| == g.nblocks && Loggable(g, Entries(disk[g.start]))
    requires k <= n <= |Entries(disk[g.start])|
    ensures RecoveryStates(g, disk, n)[k] == Replay(g, disk, Entries(disk[g.start]), k)
  {
    if k < n {
      RecoveryStatesAt(g, disk, n - 1, k);
    }
  }

  // left is what a recovery of disk leaves when it is cut short, or runs to its end.
  ghost predicate PartRecovered(g: Layout, disk: seq<Block>, left: seq<Block>) {
    && ValidLayout(g) && |disk| == g.nblocks && Loggable(g, Entries(disk[g.start]))
    && (left in RecoveryStates(g, disk, |Entries(disk[g.start])|) || left == Recovered(g, disk))
  }

  lemma PartRecoveredRecovers(g: Layout, disk: seq<Block>, left: seq<Block>, image: seq<Block>)
    requires RecoversTo(g, disk, image) && PartRecovered(g, disk, left)
    ensures RecoversTo(g, left, image)
  {
    var lh := Entries(disk[g.start]);
    if left == Recovered(g, disk) {
      RecoveryIsIdempotent(g, disk, image);
    } else {
      var k :| 0 <= k <= |lh| && RecoveryStates(g, disk, |lh|)[k] == left;
      RecoveryStatesAt(g, disk, |lh|, k);
      ReplayStillRecovers(g, disk, image, lh, k);
    }
  }

  /* However many recoveries crash one after the other, and wherever, a complete one restores the image. */
  lemma {:induction false} CrashedRecoveries(g: Layout, disks: seq<seq<Block>>, image: seq<Block>)
    requires |disks| > 0 && RecoversTo(g, disks[0], image)
    requires forall i :: 0 <= i < |disks| - 1 ==> PartRecovered(g, disks[i], disks[i + 1])
    ensures RecoversTo(g, disks[|disks| - 1], image)
    ensures HomeEqual(g, Recovered(g, disks[|disks| - 1]), image)
  {
    var n := |disks| - 1;
    if n > 0 {
      CrashedRecoveries(g, disks[..n], image);
      assert PartRecovered(g, disks[n - 1], disks[n]);
      PartRecoveredRecovers(g, disks[n - 1], disks[n], image);
    }
    RecoveryYieldsImage(g, disks[n], image);
  }

  // The home blocks after a transaction that takes the blocks of lh from memory.
  function Committed(disk: seq<Block>, memory: seq<Block>, lh: seq<int>): (r: seq<Block>)
    requires |memory| == |disk|
    ensures |r| == |disk|
    ensures forall x :: 0 <= x < |disk| ==> r[x] == if x in lh then memory[x] else disk[x]
  {
    seq(|disk|, x requires 0 <= x < |disk| => if x in lh then memory[x] else disk[x])
  }

  // disk with the first n log blocks written from memory.
  function WithLog(g: Layout, disk: seq<Block>, memory: seq<Block>, lh: seq<int>, n: nat): (r: seq<Block>)
    requires ValidLayout(g) && |disk| == g.nblocks && |memory| == g.nblocks && Loggable(g, lh) && n <= |lh|
    ensures |r| == |disk|
    ensures forall x :: 0 <= x < g.nblocks && !(g.start < x <= g.start + n) ==> r[x] == disk[x]
    ensures forall i :: 0 <= i < n ==> r[g.start + 1 + i] == memory[lh[i]]
  {
    if n == 0 then disk
    else WithLog(g, disk, memory, lh, n - 1)[g.start + n := memory[lh[n - 1]]]
  }

  // An empty log: the disk recovers to itself, whatever is in the log blocks.
  lemma UncommittedRecovers(g: Layout, disk: seq<Block>, memory: seq<Block>, lh: seq<int>, n: nat)
    requires ValidLayout(g) && |disk| == g.nblocks && |memory| == g.nblocks && Loggable(g, lh) && n <= |lh|
    requires Entries(disk[g.start]) == []
    ensures RecoversTo(g, WithLog(g, disk, memory, lh, n), disk)
  {
  }

  lemma CommittedRecovers(g: Layout, disk: seq<Block>, memory: seq<Block>, lh: seq<int>, head: Block)
    requires ValidLayout(g) && |disk| == g.nblocks && |memory| == g.nblocks && Loggable(g, lh)
    requires Entries(head) == lh
    ensures RecoversTo(g, WithLog(g, disk, memory, lh, |lh|)[g.start := head], Committed(disk, memory, lh))
  {
    var d := WithLog(g, disk, memory, lh, |lh|)[g.start := head];
    var image := Committed(disk, memory, lh);
    forall i | 0 <= i < |lh|
      ensures Logged(g, d, image, lh, i)
    {
      assert Home(g, lh[i]) && lh[i] in lh;
    }
  }

  class Log {
    const g: Layout
    var n: nat                           // log.lh.n
    var block: array<int>                // log.lh.block
    var outstanding: nat                 // log.outstanding
    var disk: seq<Block>
    ghost var states: seq<seq<Block>>    // every disk state so far, the present one last

    ghost predicate Valid()
      reads this, block
    {
      && ValidLayout(g) && |disk| == g.nblocks
      && block.Length == LOGSIZE && n <= LOGSIZE
      && |states| > 0 && states[|states| - 1] == disk
    }

    ghost function Lh(): (lh: seq<int>)
      requires Valid()
      reads this, block
    {
      block[..n]
    }

    constructor (g: Layout, disk: seq<Block>)
      requires ValidLayout(g) && |disk| == g.nblocks
      ensures Valid() && this.g == g && this.disk == disk && Lh() == [] && states == [disk] && fresh(block)
    {
      this.g, this.disk, n, outstanding := g, disk, 0, 0;
      block := new int[LOGSIZE];
      states := [disk];
    }

    method BWrite(blk: nat, d: Block)
      requires Valid() && blk < g.nblocks
      modifies this`disk, this`states
      ensures Valid()
      ensures disk == old(disk)[blk := d] && states == old(states) + [disk]
    {
      disk := disk[blk := d];
      states := states + [disk];
    }

    /* log_write: false is a panic.  A block already in the log is absorbed. */
    method LogWrite(blk: int) returns (ok: bool)
      requires Valid()
      modifies this`n, block
      ensures Valid()
      ensures ok <==> old(n) < LOGSIZE && old(n) < g.size - 1 && outstanding >= 1
      ensures Lh() == if !ok || blk in old(Lh()) then old(Lh()) else old(Lh()) + [blk]
      ensures ok && Home(g, blk) && Loggable(g, old(Lh())) ==> Loggable(g, Lh())
    {
      if n >= LOGSIZE || n >= g.size - 1 || outstanding < 1 {
        return false;
      }
      var i := 0;
      while i < n && block[i] != blk
        invariant 0 <= i <= n && blk !in block[..i]
      {
        i := i + 1;
      }
      ghost var lh := Lh();
      block[i] := blk;
      if i == n {
        n := n + 1;
      }
      assert i < |lh| ==> Lh() == lh && blk in lh;
      assert i == |lh| ==> lh == block[..i];
      forall a, b | Loggable(g, lh) && 0 <= a < b < |Lh()|
        ensures Apart(Lh(), a, b)
      {
        if b < |lh| { assert Apart(lh, a, b); } else { assert lh[a] in lh; }
      }
      return true;
    }

    method WriteHead()
      requires Valid()
      modifies this`disk, this`states
      ensures Valid()
      ensures disk == old(disk)[g.start := SetHead(old(disk[g.start]), Lh())] && states == old(states) + [disk]
    {
      BWrite(g.start, SetHead(disk[g.start], block[..n]));
    }

    method WriteLog(memory: seq<Block>)
      requires Valid() && |memory| == g.nblocks && Loggable(g, Lh())
      modifies this`disk, this`states
      ensures Valid()
      ensures disk == WithLog(g, old(disk), memory, Lh(), n)
      ensures |states| == |old(states)| + n && old(states) <= states
      ensures forall j :: |old(states)| <= j < |states| ==> states[j] == WithLog(g, old(disk), memory, Lh(), j - |old(states)| + 1)
    {
      for tail := 0 to n
        invariant Valid() && disk == WithLog(g, old(disk), memory, Lh(), tail)
        invariant |states| == |old(states)| + tail && old(states) <= states
        invariant forall j :: |old(states)| <= j < |states| ==> states[j] == WithLog(g, old(disk), memory, Lh(), j - |old(states)| + 1)
      {
        assert Home(g, Lh()[tail]);
        BWrite(g.start + tail + 1, memory[block[tail]]);
      }
    }

    method InstallTrans()
      requires Valid() && Loggable(g, Lh())
      modifies this`disk, this`states
      ensures Valid()
      ensures disk == Replay(g, old(disk), Lh(), n)
      ensures |states| == |old(states)| + n && old(states) <= states
      ensures forall j :: |old(states)| <= j < |states| ==> states[j] == Replay(g, old(disk), Lh(), j - |old(states)| + 1)
    {
      for tail := 0 to n
        invariant Valid() && disk == Replay(g, old(disk), Lh(), tail)
        invariant |states| == |old(states)| + tail && old(states) <= states
        invariant forall j :: |old(states)| <= j < |states| ==> states[j] == Replay(g, old(disk), Lh(), j - |old(states)| + 1)
      {
        ReplayKeepsLog(g, old(disk), Lh(), tail);
        assert Home(g, Lh()[tail]);
        BWrite(block[tail], disk[g.start + tail + 1]);
      }
    }

    method ReadHead()
      requires Valid()
      modifies this`n, block
      ensures Valid() && Lh() == Entries(disk[g.start])
    {
      var head := disk[g.start];
      n := if 0 <= head[0] <= LOGSIZE then head[0] else 0;
      for i := 0 to n
        invariant Valid() && n == |Entries(head)|
        invariant forall k :: 0 <= k < i ==> block[k] == Entries(head)[k]
      {
        block[i] := head[1 + i];
      }
    }

    // install_trans, then the empty header: common to recovery and commit.
    method InstallAndClear()
      requires Valid() && Lh() == Entries(disk[g.start]) && Loggable(g, Lh())
      modifies this`n, this`disk, this`states
      ensures Valid() && Lh() == []
      ensures disk == Recovered(g, old(disk))
      ensures old(states) <= states
      ensures forall j :: |old(states)| <= j < |states| ==> PartRecovered(g, old(disk), states[j])
    {
      ghost var lh := Lh();
      InstallTrans();
      ghost var count := |states|;
      ReplayKeepsLog(g, old(disk), lh, |lh|);
      n := 0;
      WriteHead();
      forall j | |old(states)| <= j < |states|
        ensures PartRecovered(g, old(disk), states[j])
      {
        if j < count {
          RecoveryStatesAt(g, old(disk), |lh|, j - |old(states)| + 1);
        }
      }
    }

    /* recover_from_log: it ends with the log replayed and emptied, and each disk state on the
       way is one from which PartRecovered leads on. */
    method RecoverFromLog()
      requires Valid() && Loggable(g, Entries(disk[g.start]))
      modifies this`n, this`disk, this`states, block
      ensures Valid() && Lh() == []
      ensures disk == Recovered(g, old(disk))
      ensures old(states) <= states
      ensures forall j :: |old(states)| <= j < |states| ==> PartRecovered(g, old(disk), states[j])
    {
      ReadHead();
      InstallAndClear();
    }

    // write_log and the header: the transaction is not there, not there, ..., there.
    method WriteTransaction(memory: seq<Block>)
      requires Valid() && |memory| == g.nblocks && Loggable(g, Lh()) && Entries(disk[g.start]) == []
      modifies this`disk, this`states
      ensures Valid() && Entries(disk[g.start]) == Lh()
      ensures RecoversTo(g, disk, Committed(old(disk), memory, Lh()))
      ensures |states| == |old(states)| + n + 1 && old(states) <= states
      ensures forall j :: |old(states)| <= j < |old(states)| + n ==> RecoversTo(g, states[j], old(disk))
    {
      WriteLog(memory);
      forall j | |old(states)| <= j < |states|
        ensures RecoversTo(g, states[j], old(disk))
      {
        UncommittedRecovers(g, old(disk), memory, Lh(), j - |old(states)| + 1);
      }
      WriteHead();
      CommittedRecovers(g, old(disk), memory, Lh(), disk[g.start]);
    }

    /* commit: of the disk states it passes through, those before the header write recover to the
       old home blocks, all others to the new ones. */
    method Commit(memory: seq<Block>)
      requires Valid() && |memory| == g.nblocks && Loggable(g, Lh()) && Entries(disk[g.start]) == []
      modifies this`n, this`disk, this`states
      ensures Valid() && Lh() == [] && Entries(disk[g.start]) == []
      ensures HomeEqual(g, disk, Committed(old(disk), memory, old(Lh())))
      ensures old(states) <= states
      ensures forall j :: |old(states)| <= j < |states| ==>
        RecoversTo(g, states[j], if j < |old(states)| + old(n) then old(disk) else Committed(old(disk), memory, old(Lh())))
    {
      hide RecoversTo, Committed, PartRecovered;
      if n > 0 {
        ghost var image := Committed(disk, memory, Lh());
        WriteTransaction(memory);
        ghost var logged, count := disk, |states|;
        InstallAndClear();
        RecoveryYieldsImage(g, logged, image);
        forall j | count <= j < |states|
          ensures RecoversTo(g, states[j], image)
        {
          PartRecoveredRecovers(g, logged, states[j], image);
        }
      }
    }
  }
}
