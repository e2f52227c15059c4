/** When log_write finds room for every operation that keeps to its reservation, when it does for an
    operation that has reservation left, and when every commit finds the buffers it needs
    (kernel/log.c:126-223, mkfs/mkfs.c:25). */
module LogShort {
  import opened Blocks
  import opened Bio
  import opened LogFormat
  import opened LogMachine
  import opened LogSafety
  import opened LogSteps
  import opened LogRuns
  import opened LogProgress

  // s is reached by a run from power-on with a disk that recovers to image.
  ghost predicate Reachable(g: Layout, s: State, image: seq<Block>) {
    exists trace, steps :: RunTo(g, trace, steps, image, s)
  }

  ghost predicate RunTo(g: Layout, trace: seq<State>, steps: seq<Step>, image: seq<Block>, s: State) {
    IsRun(g, trace, steps) && Boots(g, trace[0], image) && trace[|steps|] == s
  }

  lemma ReachableInv(g: Layout, s: State, image: seq<Block>)
    requires Reachable(g, s, image)
    ensures Inv(g, s)
  {
    var trace, steps :| RunTo(g, trace, steps, image, s);
    BootAgrees(g, trace[0], image);
    RunAgrees(g, trace, steps, Plain(image, image));
  }

  lemma ReachableFrom(g: Layout, s: State, s': State, image: seq<Block>)
    requires Reachable(g, s, image) && From(g, s, s')
    ensures Reachable(g, s', image)
  {
    hide Boots, Inv, Apply, Enabled, Shape;
    var trace, steps :| RunTo(g, trace, steps, image, s);
    var more, after :| QuietRun(g, more, after, s, s');
    assert RunTo(g, trace + more[1..], steps + after, image, s');
  }

  // s is on a quiet run from power-on with this disk.
  ghost predicate Booting(g: Layout, disk: seq<Block>, s: State) {
    RecoversTo(g, disk, disk) && From(g, PowerOn(disk, 0, disk), s)
  }

  lemma BootingReaches(g: Layout, disk: seq<Block>, s: State)
    requires Booting(g, disk, s)
    ensures Reachable(g, s, disk)
  {
    var s0 := PowerOn(disk, 0, disk);
    assert Boots(g, s0, disk);
    assert RunTo(g, [s0], [], disk, s0);
    ReachableFrom(g, s0, s, disk);
  }

  ghost predicate Ready(g: Layout, s: State, n: nat) {
    Others(g, s, {}) && s.pc == Running && |s.lh| == n
  }

  lemma Booted(g: Layout, disk: seq<Block>) returns (s: State)
    requires ValidLayout(g) && |disk| == g.nblocks && Entries(disk[g.start]) == []
    ensures Booting(g, disk, s) && Ready(g, s, 0) && s.ops == map[]
  {
    hide Leads, Inv;
    s := RecoveryCompletes(g, disk, 0, disk);
    PowerOnInv(g, disk, 0, disk);
  }

  // begin_op by a thread that is not in an operation.
  lemma Begun(g: Layout, s0: State, s: State, t: Tid) returns (s': State)
    requires From(g, s0, s) && Ready(g, s, 0) && t !in s.ops && |s.ops| <= 2
    ensures From(g, s0, s') && Ready(g, s', 0) && s'.ops == s.ops[t := {}]
  {
    hide From;
    s' := Apply(g, s, BeginOp(t));
    FromStep(g, s0, s, BeginOp(t));
    SameLocksRest(g, s, s');
  }

  // ---------- logging fresh blocks ----------

  function Homes(g: Layout): int {
    g.nblocks - g.size
  }

  // The ith home block.
  function HomeAt(g: Layout, i: nat): nat {
    if i < g.start then i else i + g.size
  }

  // How many of the first n blocks operation t logs: ten each, in turn.
  function Share(t: nat, n: nat): nat {
    if n < 10 * t then 0 else if n < 10 * t + 10 then n - 10 * t else 10
  }

  ghost predicate Logged3(g: Layout, s: State, n: nat) {
    && Ready(g, s, n)
    && (forall i :: 0 <= i < n ==> s.lh[i] == HomeAt(g, i))
    && s.ops.Keys == {0, 1, 2} && (forall t: nat :: t < 3 ==> |s.ops[t]| == Share(t, n))
    && (0 < n <= LOGSIZE ==> HomeAt(g, n - 1) in s.ops[(n - 1) / 10])
  }

  // No log lists more blocks than there are home blocks.
  lemma HomesBound(g: Layout, lh: seq<int>)
    requires ValidLayout(g) && Loggable(g, lh)
    ensures |lh| <= Homes(g)
  {
    var q: seq<int> := seq(|lh|, i requires 0 <= i < |lh| => if lh[i] < g.start then lh[i] else lh[i] - g.size);
    var l: seq<int> := seq(Homes(g), i => i);
    forall i | 0 <= i < |q|
      ensures q[i] in l
    {
      assert Home(g, lh[i]);
      assert l[q[i]] == q[i];
    }
    forall i, j | 0 <= i < j < |q|
      ensures Differing(q, i, j)
    {
      assert Apart(lh, i, j) && Home(g, lh[i]) && Home(g, lh[j]);
    }
    DistinctInto(q, l);
  }

  // ---------- the run ----------

  lemma Marked(g: Layout, s: State, t: Tid, b: nat, blk: nat)
    requires Shape(g, s) && Mine(g, s, t, b, blk, false) && s.pc.Running? && t in s.ops && Home(g, blk)
    requires LogHasRoom(g, s) && |s.ops[t]| < MAXOPBLOCKS && blk !in s.lh
    ensures Enabled(g, s, LogWrite(t, b, blk))
    ensures var s' := Apply(g, s, LogWrite(t, b, blk));
      && LocksSame(g, s, s', b, false) && s'.pc == s.pc && s'.lh == s.lh + [blk]
      && s'.ops == s.ops[t := s.ops[t] + {blk}]
  {
  }

  // One more fresh block is logged: bread, log_write, brelse.
  lemma LogOne(g: Layout, s0: State, s: State, n: nat) returns (s': State)
    requires From(g, s0, s) && Logged3(g, s, n) && n < LOGSIZE && n < g.size - 1 && n < Homes(g)
    ensures From(g, s0, s') && Logged3(g, s', n + 1)
  {
    hide From, Apply, Enabled, Choose, Inv, Share, HomeAt, Home, Shape, Holds, LocksSame;
    FromInv(g, s0, s);
    var t, blk := n / 10, HomeAt(g, n);
    FreshBlock(g, s, n);
    SomeUnused(g, s, blk);
    var s1, b := Visit(g, s0, s, t, blk, {});
    Marked(g, s1, t, b, blk);
    FromStep(g, s0, s1, LogWrite(t, b, blk));
    var s2 := Apply(g, s1, LogWrite(t, b, blk));
    LocksSameKeeps(g, s1, s2, b, false, {} + {b});
    MineStill(g, s1, s2, b, false, t, b, blk, false);
    s' := Leave(g, s0, s2, t, b, blk, {});
    OneMore(g, s, s', n);
  }

  lemma OneMore(g: Layout, s: State, s': State, n: nat)
    requires Logged3(g, s, n) && n < LOGSIZE && Others(g, s', {}) && s'.pc == Running && s'.lh == s.lh + [HomeAt(g, n)]
    requires n / 10 in s.ops && HomeAt(g, n) !in s.ops[n / 10] && s'.ops == s.ops[n / 10 := s.ops[n / 10] + {HomeAt(g, n)}]
    ensures Logged3(g, s', n + 1)
  {
    hide Others, HomeAt;
    assert s'.ops.Keys == {0, 1, 2};
  }

  // The next home block is not logged yet, so no operation has it.
  lemma FreshBlock(g: Layout, s: State, n: nat)
    requires Inv(g, s) && Logged3(g, s, n) && n < Homes(g) && n < LOGSIZE
    ensures Home(g, HomeAt(g, n)) && HomeAt(g, n) < g.nblocks && HomeAt(g, n) !in s.lh
    ensures n / 10 < 3 && n / 10 in s.ops && HomeAt(g, n) !in s.ops[n / 10] && |s.ops[n / 10]| == Share(n / 10, n) < MAXOPBLOCKS
  {
    hide Buffered, PhaseOk, Others;
    forall i | 0 <= i < n
      ensures s.lh[i] != HomeAt(g, n)
    {
    }
  }

  lemma {:induction false} LogMany(g: Layout, disk: seq<Block>, n: nat) returns (s: State)
    requires ValidLayout(g) && |disk| == g.nblocks && Entries(disk[g.start]) == []
    requires n <= LOGSIZE && n <= g.size - 1 && n <= Homes(g)
    ensures Booting(g, disk, s) && Logged3(g, s, n)
  {
    hide From, Others;
    var s0 := PowerOn(disk, 0, disk);
    if n == 0 {
      s := Booted(g, disk);
      s := Begun(g, s0, s, 0);
      s := Begun(g, s0, s, 1);
      s := Begun(g, s0, s, 2);
    } else {
      s := LogMany(g, disk, n - 1);
      s := LogOne(g, s0, s, n - 1);
    }
  }

  // ---------- the condition ----------

  // Blocks that begin_op reserves beyond those the on-disk log has room for.
  function Shortfall(g: Layout): nat {
    if LOGSIZE > g.size - 1 then LOGSIZE - (g.size - 1) else 0
  }

  /* An operation with more unspent reservation than the log is short of finds room. */
  lemma ReservationGivesRoom(g: Layout, s: State, t: Tid)
    requires Inv(g, s) && t in s.ops && MAXOPBLOCKS - |s.ops[t]| > Shortfall(g)
    ensures LogHasRoom(g, s)
  {
    hide Buffered, PhaseOk;
    UnspentSplit(s.ops, t);
    UnspentBound(s.ops - {t});
  }

  // No reachable operation with reservation left meets a full log.
  ghost predicate RoomWhileUnspent(g: Layout) {
    forall s, image, t :: Reachable(g, s, image) && t in s.ops && |s.ops[t]| < MAXOPBLOCKS ==> LogHasRoom(g, s)
  }

  // An operation with reservation left, in a state that a run reaches, finds no room.
  lemma FullLogIsReached(g: Layout, disk: seq<Block>) returns (trace: seq<State>, steps: seq<Step>)
    requires ValidLayout(g) && |disk| == g.nblocks && Entries(disk[g.start]) == []
    requires g.size <= LOGSIZE && g.size - 1 <= Homes(g)
    ensures IsRun(g, trace, steps) && Boots(g, trace[0], disk)
    ensures var s := trace[|steps|]; 2 in s.ops && |s.ops[2]| < MAXOPBLOCKS && !LogHasRoom(g, s)
  {
    var s := LogMany(g, disk, g.size - 1);
    BootingReaches(g, disk, s);
    trace, steps :| RunTo(g, trace, steps, disk, s);
  }

  lemma EmptyLogDisk(g: Layout) returns (disk: seq<Block>)
    requires ValidLayout(g)
    ensures |disk| == g.nblocks && Entries(disk[g.start]) == []
  {
    var empty := SetHead(seq(BLOCK_WORDS, _ => 0), []);
    disk := seq(g.nblocks, _ => empty);
  }

  /* log_write has room for every operation with reservation left, in every reachable state, if and
     only if the log is longer than LOGSIZE (or the disk has too few home blocks to fill it). */
  lemma RoomWhileUnspentIff(g: Layout)
    requires ValidLayout(g)
    ensures RoomWhileUnspent(g) <==> g.size > LOGSIZE || Homes(g) < g.size - 1
  {
    if g.size > LOGSIZE || Homes(g) < g.size - 1 {
      forall s, image, t | Reachable(g, s, image) && t in s.ops && |s.ops[t]| < MAXOPBLOCKS
        ensures LogHasRoom(g, s)
      {
        ReachableInv(g, s, image);
        if g.size > LOGSIZE {
          ReservationGivesRoom(g, s, t);
        } else {
          HomesBound(g, s.lh);
        }
      }
    } else {
      var disk := EmptyLogDisk(g);
      var trace, steps := FullLogIsReached(g, disk);
      assert RunTo(g, trace, steps, disk, trace[|steps|]);
      assert Reachable(g, trace[|steps|], disk);
    }
  }

  /* mkfs makes the log LOGSIZE blocks long, header included, on a disk of FSSIZE blocks. */
  lemma MkfsLogIsOneShort()
    ensures !RoomWhileUnspent(Layout(1, 2, LOGSIZE, 1000))
  {
    RoomWhileUnspentIff(Layout(1, 2, LOGSIZE, 1000));
  }

  // ---------- operations that have spent their reservation ----------

  // log_write panics on a full log even if the block is in it, so no lawful call may meet one.
  ghost predicate RoomAlways(g: Layout) {
    forall s, image, t, b, blk :: Reachable(g, s, image) && Shape(g, s) && Asks(g, s, t, b, blk) ==> LogHasRoom(g, s)
  }

  // As many entries as the log can hold.
  function Capacity(g: Layout): int {
    if LOGSIZE < g.size - 1 then LOGSIZE else g.size - 1
  }

  // With the log full an operation comes back to the block logged last; if there is none, to the first home block.
  lemma FullAndAsking(g: Layout, disk: seq<Block>) returns (s: State, t: Tid, b: nat, blk: nat)
    requires ValidLayout(g) && |disk| == g.nblocks && Entries(disk[g.start]) == []
    requires 0 < Homes(g) && Capacity(g) <= Homes(g)
    ensures Reachable(g, s, disk) && Shape(g, s) && Asks(g, s, t, b, blk) && !LogHasRoom(g, s)
    ensures g.size > LOGSIZE ==> blk in s.ops[t] && |s.ops[t]| == MAXOPBLOCKS
  {
    hide From, Apply, Enabled, Choose, Inv, Others, Holds, Logged3, RecoversTo;
    var s1 := LogMany(g, disk, Capacity(g));
    var s0 := PowerOn(disk, 0, disk);
    FromInv(g, s0, s1);
    t, blk := LoggedLast(g, s1, Capacity(g));
    s, b := Visit(g, s0, s1, t, blk, {});
    BootingReaches(g, disk, s);
    OthersShape(g, s, {} + {b});
  }

  lemma LoggedLast(g: Layout, s: State, n: nat) returns (t: Tid, blk: nat)
    requires Inv(g, s) && Logged3(g, s, n) && n == Capacity(g) && n <= Homes(g) && 0 < Homes(g)
    ensures Others(g, s, {}) && !LogHasRoom(g, s) && !Choose(s.cache, g.dev, blk).NoBuffers?
    ensures t in s.ops && Home(g, blk) && (blk in s.ops[t] || |s.ops[t]| < MAXOPBLOCKS)
    ensures g.size > LOGSIZE ==> blk in s.ops[t] && |s.ops[t]| == MAXOPBLOCKS
  {
    hide Choose, Inv;
    if n == 0 {
      t, blk := 0, HomeAt(g, 0);
      SomeUnused(g, s, blk);
    } else {
      t, blk := (n - 1) / 10, HomeAt(g, n - 1);
      assert s.lh[n - 1] == blk;
      PinnedIsHit(g, s, blk);
    }
  }

  lemma OthersShape(g: Layout, s: State, held: set<nat>)
    requires Others(g, s, held)
    ensures Shape(g, s)
  {
  }

  // The run to log_write's panic.
  lemma PanicIsReached(g: Layout, disk: seq<Block>) returns (trace: seq<State>, steps: seq<Step>, t: Tid, b: nat, blk: nat)
    requires ValidLayout(g) && |disk| == g.nblocks && Entries(disk[g.start]) == []
    requires 0 < Homes(g) && Capacity(g) <= Homes(g)
    ensures IsRun(g, trace, steps) && Boots(g, trace[0], disk)
    ensures var s := trace[|steps|]; Shape(g, s) && Asks(g, s, t, b, blk) && !LogHasRoom(g, s)
    ensures g.size > LOGSIZE ==> var s := trace[|steps|]; blk in s.ops[t] && |s.ops[t]| == MAXOPBLOCKS
  {
    hide Shape, Asks, Boots;
    var s;
    s, t, b, blk := FullAndAsking(g, disk);
    trace, steps :| RunTo(g, trace, steps, disk, s);
  }

  /* Every lawful log_write in every reachable state finds room if and only if all home blocks together
     do not fill the log (or there is none).  On any other disk no length of the log is enough: three
     operations can fill it, and any of them panics when it logs a block of its own once more. */
  lemma RoomIff(g: Layout)
    requires ValidLayout(g)
    ensures RoomAlways(g) <==> Homes(g) == 0 || (Homes(g) < LOGSIZE && Homes(g) < g.size - 1)
  {
    hide Reachable;
    if Homes(g) == 0 || (Homes(g) < LOGSIZE && Homes(g) < g.size - 1) {
      forall s, image, t, b, blk | Reachable(g, s, image) && Shape(g, s) && Asks(g, s, t, b, blk)
        ensures LogHasRoom(g, s)
      {
        ReachableInv(g, s, image);
        HomesBound(g, s.lh);
      }
    } else {
      var disk := EmptyLogDisk(g);
      var s, t, b, blk := FullAndAsking(g, disk);
    }
  }

  // ---------- commits that find no buffer ----------

  // Buffers for the first n log entries, in order.
  lemma {:induction false} PlacesOf(g: Layout, s: State, n: nat) returns (q: seq<int>)
    requires Shape(g, s) && Buffered(g, s) && Pinned(s) == s.lh && n <= |s.lh|
    ensures |q| == n && forall i :: 0 <= i < n ==> 0 <= q[i] < NBUF && IsKeyed(g, s, q[i], s.lh[i])
  {
    hide Buffered;
    if n == 0 {
      q := [];
    } else {
      q := PlacesOf(g, s, n - 1);
      PinnedIsCached(g, s, s.lh[n - 1]);
      var b :| 0 <= b < NBUF && CachedIn(g, s, b, s.lh[n - 1]);
      q := q + [b];
    }
  }

  // With as many blocks pinned as there are buffers, every buffer holds one of them.
  lemma EveryBufferPinned(g: Layout, s: State, b: nat)
    requires Inv(g, s) && Pinned(s) == s.lh && |s.lh| == NBUF && b < NBUF
    ensures s.cache.bufs[b].dev == g.dev && s.cache.bufs[b].blockno in s.lh
  {
    hide Buffered, PhaseOk, Pinned;
    var q := PlacesOf(g, s, NBUF);
    forall i, j | 0 <= i < j < NBUF
      ensures Differing(q, i, j)
    {
      assert Apart(s.lh, i, j);
    }
    if b !in q {
      var l: seq<int> := seq(NBUF - 1, i => if i < b then i else i + 1);
      forall i | 0 <= i < NBUF
        ensures q[i] in l
      {
        assert l[if q[i] < b then q[i] else q[i] - 1] == q[i];
      }
      DistinctInto(q, l);
    }
  }

  // A full log that the cache cannot take in: the commit is still to come or has not got anywhere.
  ghost predicate Stuck(g: Layout, s: State) {
    && Inv(g, s) && |s.lh| == NBUF
    && if s.pc.Running? then s.ops != map[] else !s.pc.boot && s.pc.phase == WriteLog(0, false)
  }

  // No thread can get a buffer for the first log block.
  lemma NoLogBuffer(g: Layout, s: State, b: nat)
    requires Stuck(g, s)
    ensures !IsKeyed(g, s, b, g.start + 1)
  {
    hide Buffered, PhaseOk;
    if b < NBUF {
      EveryBufferPinned(g, s, b);
    }
  }

  lemma StuckStep(g: Layout, s: State, step: Step)
    requires Stuck(g, s) && Enabled(g, s, step) && Quietly(step)
    ensures Stuck(g, Apply(g, s, step))
  {
    hide Buffered, PhaseOk, Choose, Reserved;
    StepKeepsInv(g, s, step);
    if step.CopyToLog? {
      NoLogBuffer(g, s, step.to);
      assert false;
    }
  }

  lemma {:induction false} StuckRun(g: Layout, trace: seq<State>, steps: seq<Step>)
    requires IsRun(g, trace, steps) && Stuck(g, trace[0]) && forall i :: 0 <= i < |steps| ==> Quietly(steps[i])
    ensures Stuck(g, trace[|steps|])
    decreases |steps|
  {
    hide Stuck;
    if steps != [] {
      var n := |steps| - 1;
      StuckRun(g, trace[..n + 1], steps[..n]);
      StuckStep(g, trace[n], steps[n]);
    }
  }

  // Whenever only one operation is left and nobody uses a buffer, its end_op can lead to a state at rest.
  ghost predicate CommitsComplete(g: Layout) {
    forall s, image, t :: Reachable(g, s, image) && LastOne(g, s, t) ==> CanRest(g, s)
  }

  ghost predicate LastOne(g: Layout, s: State, t: Tid) {
    Others(g, s, {}) && s.pc.Running? && s.ops.Keys == {t}
  }

  ghost predicate CanRest(g: Layout, s: State) {
    exists s' :: Leads(g, s, s') && AtRest(g, s')
  }

  lemma StuckNeverRests(g: Layout, s: State)
    requires Stuck(g, s)
    ensures !CanRest(g, s)
  {
    hide Stuck, Inv;
    if CanRest(g, s) {
      var s' :| Leads(g, s, s') && AtRest(g, s');
      var trace, steps :| QuietRun(g, trace, steps, s, s');
      StuckRun(g, trace, steps);
      RestIsNotStuck(g, s');
    }
  }

  lemma RestIsNotStuck(g: Layout, s: State)
    requires AtRest(g, s)
    ensures !Stuck(g, s)
  {
  }

  // end_op of an operation that is not the last.
  lemma EndsEarly(g: Layout, s0: State, s: State, t: Tid) returns (s': State)
    requires From(g, s0, s) && Others(g, s, {}) && s.pc.Running? && t in s.ops && s.ops - {t} != map[]
    ensures From(g, s0, s') && Others(g, s', {}) && s'.pc.Running? && s'.ops == s.ops - {t} && s'.lh == s.lh
  {
    hide From;
    forall b | 0 <= b < NBUF
      ensures !s.dirty[b]
    {
      assert Idle(s, b);
    }
    s' := Apply(g, s, EndOp(t));
    FromStep(g, s0, s, EndOp(t));
    SameLocksRest(g, s, s');
  }

  lemma StuckIsReached(g: Layout, disk: seq<Block>) returns (s: State)
    requires ValidLayout(g) && |disk| == g.nblocks && Entries(disk[g.start]) == []
    requires g.size > LOGSIZE && Homes(g) >= LOGSIZE
    ensures Reachable(g, s, disk) && LastOne(g, s, 0) && Stuck(g, s)
  {
    hide From, Others, Inv, RecoversTo;
    var s0 := PowerOn(disk, 0, disk);
    s := LogMany(g, disk, LOGSIZE);
    assert 0 in (s.ops - {2}).Keys && 0 in (s.ops - {2} - {1}).Keys;
    s := EndsEarly(g, s0, s, 2);
    s := EndsEarly(g, s0, s, 1);
    FromInv(g, s0, s);
    BootingReaches(g, disk, s);
    assert s.ops.Keys == {0};
  }

  /* Every commit can be brought to its end if and only if the log, header included, has no more blocks than
     there are buffers (or the disk has too few home blocks to fill it).  A longer log can hold a block for
     every buffer, and then bread of the first log block finds none. */
  lemma CommitsCompleteIff(g: Layout)
    requires ValidLayout(g)
    ensures CommitsComplete(g) <==> g.size <= LOGSIZE || Homes(g) < LOGSIZE
  {
    hide Reachable, LastOne, Stuck;
    if g.size <= LOGSIZE || Homes(g) < LOGSIZE {
      forall s, image, t | Reachable(g, s, image) && LastOne(g, s, t)
        ensures CanRest(g, s)
      {
        ReachableInv(g, s, image);
        ShortEnough(g, s, t);
      }
    } else {
      var disk := EmptyLogDisk(g);
      var s := StuckIsReached(g, disk);
      StuckNeverRests(g, s);
      assert Reachable(g, s, disk) && LastOne(g, s, 0);
    }
  }

  lemma ShortEnough(g: Layout, s: State, t: Tid)
    requires Inv(g, s) && LastOne(g, s, t) && (g.size <= LOGSIZE || Homes(g) < LOGSIZE)
    ensures CanRest(g, s)
  {
    hide Buffered, PhaseOk, Leads;
    HomesBound(g, s.lh);
    var s' := CommitCompletes(g, s, t);
  }

  /* So on a disk with home blocks to spare no length of the log gives both: room for every operation with
     reservation left, and a buffer for every commit. */
  lemma NoLengthGivesBoth(g: Layout)
    requires ValidLayout(g) && Homes(g) >= LOGSIZE
    ensures RoomWhileUnspent(g) <==> !CommitsComplete(g)
  {
    hide RoomWhileUnspent, CommitsComplete;
    RoomWhileUnspentIff(g);
    CommitsCompleteIff(g);
  }
}
