/** Commit and recovery, once begun, can always be brought to their end (kernel/log.c:53-203).

    The runs here are quiet ones: nobody writes, nothing crashes, and only the committing or
    recovering thread uses buffers. */
module LogProgress {
  import opened Blocks
  import opened Bio
  import opened LogFormat
  import opened LogMachine
  import opened LogSafety
  import opened LogSteps
  import opened LogRuns

  // ---------- quiet runs ----------

  predicate Quietly(step: Step) {
    !step.Modify? && !step.Crash?
  }

  ghost predicate QuietRun(g: Layout, trace: seq<State>, steps: seq<Step>, s: State, s': State) {
    && IsRun(g, trace, steps) && trace[0] == s && trace[|steps|] == s'
    && forall i :: 0 <= i < |steps| ==> Quietly(steps[i])
  }

  // A quiet run goes from s to s'.
  ghost predicate Leads(g: Layout, s: State, s': State) {
    exists trace, steps :: QuietRun(g, trace, steps, s, s')
  }

  // s is on a quiet run from a state with the invariant.
  ghost predicate From(g: Layout, s0: State, s: State) {
    Inv(g, s0) && Leads(g, s0, s)
  }

  lemma FromHere(g: Layout, s: State)
    requires Inv(g, s)
    ensures From(g, s, s)
  {
    assert QuietRun(g, [s], [], s, s);
  }

  lemma FromStep(g: Layout, s0: State, s: State, step: Step)
    requires From(g, s0, s) && Shape(g, s) && Enabled(g, s, step) && Quietly(step)
    ensures From(g, s0, Apply(g, s, step))
  {
    hide Enabled, Apply, Shape, Inv;
    var trace, steps :| QuietRun(g, trace, steps, s0, s);
    assert QuietRun(g, trace + [Apply(g, s, step)], steps + [step], s0, Apply(g, s, step));
  }

  lemma FromInv(g: Layout, s0: State, s: State)
    requires From(g, s0, s)
    ensures Inv(g, s)
  {
    var trace, steps :| QuietRun(g, trace, steps, s0, s);
    RunKeepsInv(g, trace, steps);
  }

  lemma {:induction false} RunKeepsInv(g: Layout, trace: seq<State>, steps: seq<Step>)
    requires IsRun(g, trace, steps) && Inv(g, trace[0])
    ensures Inv(g, trace[|steps|])
    decreases |steps|
  {
    if steps != [] {
      var n := |steps| - 1;
      RunKeepsInv(g, trace[..n + 1], steps[..n]);
      StepKeepsInv(g, trace[n], steps[n]);
    }
  }

  // ---------- one thread and its buffers ----------

  predicate Idle(s: State, b: nat)
    requires b < |s.users| && b < |s.holder| && b < |s.dirty|
  {
    s.users[b] == {} && s.holder[b] == None && !s.dirty[b]
  }

  // Nobody is using any buffer but those in held.
  ghost predicate Others(g: Layout, s: State, held: set<nat>) {
    Shape(g, s) && forall b: nat :: b < NBUF && b !in held ==> Idle(s, b)
  }

  // t alone is using buffer b, has locked it, and it has the data of blk.
  predicate Mine(g: Layout, s: State, t: Tid, b: nat, blk: nat, dirty: bool)
    requires |s.cache.bufs| == NBUF && |s.holder| == NBUF && |s.users| == NBUF && |s.dirty| == NBUF
  {
    Holds(g, s, t, b, blk) && s.users[b] == {t} && s.dirty[b] == dirty
  }

  // The two states differ in the cache and its locks only.
  predicate SameBeside(s: State, s': State) {
    && s'.disk == s.disk && s'.lh == s.lh && s'.ops == s.ops && s'.pc == s.pc
    && s'.contents == s.contents && s'.committed == s.committed
  }

  // The buffers in held are as they were.
  ghost predicate Kept(g: Layout, s: State, s': State, held: set<nat>) {
    && Shape(g, s) && Shape(g, s')
    && forall b: nat :: b < NBUF && b in held ==>
         s'.cache.bufs[b] == s.cache.bufs[b] && s'.holder[b] == s.holder[b] && s'.users[b] == s.users[b] && s'.dirty[b] == s.dirty[b]
  }

  // t has the buffer of blk from bget and is about to lock it.
  ghost predicate Waiting(g: Layout, s: State, t: Tid, b: nat, blk: nat) {
    Shape(g, s) && IsKeyed(g, s, b, blk) && blk < g.nblocks && s.users[b] == {t} && s.holder[b] == None && !s.dirty[b]
  }

  lemma Looked(g: Layout, s: State, t: Tid, blk: nat, held: set<nat>)
    requires Others(g, s, held) && blk < g.nblocks && !Choose(s.cache, g.dev, blk).NoBuffers? && Choose(s.cache, g.dev, blk).b !in held
    ensures Enabled(g, s, LogMachine.Lookup(t, blk))
    ensures var s', b := Apply(g, s, LogMachine.Lookup(t, blk)), Choose(s.cache, g.dev, blk).b;
      Waiting(g, s', t, b, blk) && Others(g, s', held + {b}) && SameBeside(s, s') && Kept(g, s, s', held)
  {
    var b := Choose(s.cache, g.dev, blk).b;
    assert Idle(s, b);
    assert s.users[b] + {t} == {t};
    var s' := Apply(g, s, LogMachine.Lookup(t, blk));
    forall a: nat | a < NBUF && a !in held + {b}
      ensures Idle(s', a)
    {
      assert Idle(s, a);
    }
  }

  // s' differs from s in buffer b only.
  ghost predicate AtBuffer(g: Layout, s: State, s': State, b: nat) {
    && Shape(g, s) && Shape(g, s') && b < NBUF && SameBeside(s, s')
    && forall a: nat :: a < NBUF && a != b ==>
         s'.cache.bufs[a] == s.cache.bufs[a] && s'.holder[a] == s.holder[a] && s'.users[a] == s.users[a] && s'.dirty[a] == s.dirty[a]
  }

  lemma AtBufferKeeps(g: Layout, s: State, s': State, b: nat, held: set<nat>)
    requires AtBuffer(g, s, s', b) && Others(g, s, held + {b}) && b !in held
    ensures Others(g, s', held + {b}) && Kept(g, s, s', held)
  {
    forall a: nat | a < NBUF && a !in held + {b}
      ensures Idle(s', a)
    {
      assert Idle(s, a);
    }
  }

  lemma Locked(g: Layout, s: State, t: Tid, b: nat, blk: nat)
    requires Waiting(g, s, t, b, blk)
    ensures Enabled(g, s, Lock(t, b))
    ensures var s1 := Apply(g, s, Lock(t, b));
      && AtBuffer(g, s, s1, b)
      && (s1.cache.bufs[b].valid ==> Mine(g, s1, t, b, blk, false))
      && (!s1.cache.bufs[b].valid ==>
            && Enabled(g, s1, Fill(t, b))
            && var s2 := Apply(g, s1, Fill(t, b)); AtBuffer(g, s, s2, b) && Mine(g, s2, t, b, blk, false))
  {
  }

  // bread
  lemma Visit(g: Layout, s0: State, s: State, t: Tid, blk: nat, held: set<nat>) returns (s': State, b: nat)
    requires From(g, s0, s) && Others(g, s, held) && blk < g.nblocks
    requires !Choose(s.cache, g.dev, blk).NoBuffers? && Choose(s.cache, g.dev, blk).b !in held
    ensures b !in held && From(g, s0, s') && Others(g, s', held + {b}) && Mine(g, s', t, b, blk, false)
    ensures SameBeside(s, s') && Kept(g, s, s', held)
  {
    hide From, Choose, Apply, Enabled, Waiting;
    b := Choose(s.cache, g.dev, blk).b;
    Looked(g, s, t, blk, held);
    var s1 := Apply(g, s, LogMachine.Lookup(t, blk));
    FromStep(g, s0, s, LogMachine.Lookup(t, blk));
    Locked(g, s1, t, b, blk);
    s' := Apply(g, s1, Lock(t, b));
    FromStep(g, s0, s1, Lock(t, b));
    if !s'.cache.bufs[b].valid {
      FromStep(g, s0, s', Fill(t, b));
      s' := Apply(g, s', Fill(t, b));
    }
    AtBufferKeeps(g, s1, s', b, held);
  }

  lemma Releases(g: Layout, s: State, t: Tid, b: nat, blk: nat)
    requires Shape(g, s) && Mine(g, s, t, b, blk, false) && s.cache.bufs[b].refcnt > 0
    ensures Enabled(g, s, Unlock(t, b))
    ensures var s1 := Apply(g, s, Unlock(t, b));
      && Shape(g, s1) && Enabled(g, s1, Drop(t, b))
      && var s2 := Apply(g, s1, Drop(t, b)); AtBuffer(g, s, s2, b) && Idle(s2, b)
  {
    assert s.users[b] - {t} == {};
  }

  // brelse
  lemma Leave(g: Layout, s0: State, s: State, t: Tid, b: nat, blk: nat, held: set<nat>) returns (s': State)
    requires From(g, s0, s) && Others(g, s, held + {b}) && b !in held && Mine(g, s, t, b, blk, false)
    ensures From(g, s0, s') && Others(g, s', held) && SameBeside(s, s') && Kept(g, s, s', held)
  {
    hide From, Apply, Enabled, Buffered, PhaseOk, Reserved;
    FromInv(g, s0, s);
    BufferOk(g, s, b);
    assert |s.users[b]| == 1;
    Releases(g, s, t, b, blk);
    var s1 := Apply(g, s, Unlock(t, b));
    FromStep(g, s0, s, Unlock(t, b));
    s' := Apply(g, s1, Drop(t, b));
    FromStep(g, s0, s1, Drop(t, b));
    AtBufferKeeps(g, s, s', b, held);
    forall a: nat | a < NBUF && a !in held
      ensures Idle(s', a)
    {
      if a != b { assert a !in held + {b}; }
    }
  }

  // ---------- buffers to spare ----------

  predicate Differing(q: seq<int>, i: int, j: int)
    requires 0 <= i < |q| && 0 <= j < |q|
  {
    q[i] != q[j]
  }

  // Distinct members of a list are no more than the list is long.
  lemma {:induction false} DistinctInto(q: seq<int>, l: seq<int>)
    requires (forall i :: 0 <= i < |q| ==> q[i] in l) && (forall i, j :: 0 <= i < j < |q| ==> Differing(q, i, j))
    ensures |q| <= |l|
  {
    if q != [] {
      var x := q[|q| - 1];
      var k :| 0 <= k < |l| && l[k] == x;
      var q', l' := q[..|q| - 1], l[..k] + l[k + 1..];
      forall i | 0 <= i < |q'|
        ensures q'[i] in l'
      {
        assert Differing(q, i, |q| - 1) && q[i] in l;
        var m :| 0 <= m < |l| && l[m] == q[i];
        assert l'[if m < k then m else m - 1] == q[i];
      }
      forall i, j | 0 <= i < j < |q'|
        ensures Differing(q', i, j)
      {
        assert Differing(q, i, j);
      }
      DistinctInto(q', l');
    }
  }

  lemma UnusedBuffer(c: Cache, dev: nat, blk: nat, b: nat)
    requires WellFormed(c) && b < NBUF && c.bufs[b].refcnt == 0
    ensures !Choose(c, dev, blk).NoBuffers?
  {
  }

  lemma CacheUnique(g: Layout, s: State)
    requires Shape(g, s) && Buffered(g, s)
    ensures Unique(s.cache)
  {
  }

  // While fewer blocks are pinned than there are buffers, an idle cache has one to spare.
  lemma SomeUnused(g: Layout, s: State, blk: nat)
    requires Inv(g, s) && Others(g, s, {}) && |Pinned(s)| < NBUF
    ensures !Choose(s.cache, g.dev, blk).NoBuffers?
  {
    hide PhaseOk, Reserved, Buffered, Choose, Pinned;
    if forall b: nat :: b < NBUF ==> s.cache.bufs[b].refcnt != 0 {
      var q: seq<int> := seq(NBUF, b requires 0 <= b < NBUF => s.cache.bufs[b].blockno);
      forall b | 0 <= b < NBUF
        ensures q[b] in Pinned(s) && s.cache.bufs[b].dev == g.dev
      {
        BufferOk(g, s, b);
        assert Idle(s, b);
      }
      CacheUnique(g, s);
      forall a, b | 0 <= a < b < NBUF
        ensures Differing(q, a, b)
      {
      }
      DistinctInto(q, Pinned(s));
    } else {
      var b: nat :| b < NBUF && s.cache.bufs[b].refcnt == 0;
      UnusedBuffer(s.cache, g.dev, blk, b);
    }
  }

  // A pinned block is found in the cache, however few buffers are unused.
  lemma PinnedIsHit(g: Layout, s: State, blk: nat)
    requires Inv(g, s) && blk in Pinned(s)
    ensures !Choose(s.cache, g.dev, blk).NoBuffers?
  {
    hide PhaseOk, Reserved, Choose, Buffered, Pinned;
    PinnedIsCached(g, s, blk);
    var b: nat :| b < NBUF && CachedIn(g, s, b, blk);
    assert Keyed(s.cache, b, g.dev, blk);
  }

  // With no pins, the buffers that t does not use are free.
  lemma SecondUnused(g: Layout, s: State, blk: nat, a: nat)
    requires Inv(g, s) && Others(g, s, {a}) && Pinned(s) == []
    ensures !Choose(s.cache, g.dev, blk).NoBuffers?
  {
    hide PhaseOk, Reserved, Choose, Buffered, Pinned;
    var b: nat := if a == 0 then 1 else 0;
    BufferOk(g, s, b);
    assert Idle(s, b);
    UnusedBuffer(s.cache, g.dev, blk, b);
  }

  // bget never picks a buffer that t uses for another block.
  lemma NotThatOne(g: Layout, s: State, t: Tid, a: nat, ablk: nat, blk: nat)
    requires Inv(g, s) && Mine(g, s, t, a, ablk, false) && ablk != blk && !Choose(s.cache, g.dev, blk).NoBuffers?
    ensures Choose(s.cache, g.dev, blk).b != a
  {
    hide PhaseOk, Reserved, Buffered;
    BufferOk(g, s, a);
    assert |s.users[a]| == 1;
  }

  // ---------- the steps of a commit, one thread at a time ----------

  // The locks are as they were, but for whether b is dirty.
  ghost predicate LocksSame(g: Layout, s: State, s': State, b: nat, dirty: bool) {
    && Shape(g, s) && Shape(g, s') && b < NBUF && s'.users == s.users && s'.holder == s.holder
    && s'.dirty == s.dirty[b := dirty]
    && forall a: nat :: a < NBUF ==>
         && s'.cache.bufs[a].dev == s.cache.bufs[a].dev && s'.cache.bufs[a].blockno == s.cache.bufs[a].blockno
         && s'.cache.bufs[a].valid == s.cache.bufs[a].valid
  }

  lemma LocksSameKeeps(g: Layout, s: State, s': State, b: nat, dirty: bool, held: set<nat>)
    requires LocksSame(g, s, s', b, dirty) && Others(g, s, held) && b in held
    ensures Others(g, s', held)
  {
    forall a: nat | a < NBUF && a !in held
      ensures Idle(s', a)
    {
      assert Idle(s, a);
    }
  }

  lemma MineStill(g: Layout, s: State, s': State, b: nat, dirty: bool, t: Tid, a: nat, blk: nat, was: bool)
    requires LocksSame(g, s, s', b, dirty) && Mine(g, s, t, a, blk, was)
    ensures Mine(g, s', t, a, blk, if a == b then dirty else was)
  {
  }

  // Where the commit or recovery stands after a step of its own.
  predicate At(s: State, boot: bool, t: Tid, phase: Phase, lh: seq<int>) {
    s.pc == Busy(boot, t, phase) && s.lh == lh && s.ops == map[]
  }

  lemma CopiesToLog(g: Layout, s: State, t: Tid, tail: nat, to: nat, from: nat)
    requires Shape(g, s) && At(s, false, t, WriteLog(tail, false), s.lh) && tail < |s.lh| && s.lh[tail] >= 0
    requires Mine(g, s, t, to, g.start + 1 + tail, false) && Mine(g, s, t, from, s.lh[tail], false)
    ensures Enabled(g, s, CopyToLog(to, from))
    ensures var s' := Apply(g, s, CopyToLog(to, from)); LocksSame(g, s, s', to, true) && At(s', false, t, WriteLog(tail, true), s.lh)
  {
  }

  lemma FlushesLog(g: Layout, s: State, t: Tid, tail: nat, b: nat)
    requires Shape(g, s) && At(s, false, t, WriteLog(tail, true), s.lh) && Mine(g, s, t, b, g.start + 1 + tail, true)
    ensures Enabled(g, s, FlushLog(b))
    ensures var s' := Apply(g, s, FlushLog(b)); LocksSame(g, s, s', b, false) && At(s', false, t, WriteLog(tail + 1, false), s.lh)
  {
  }

  lemma FillsHead(g: Layout, s: State, t: Tid, b: nat)
    requires Shape(g, s) && At(s, false, t, WriteLog(|s.lh|, false), s.lh) && |s.lh| <= LOGSIZE && Mine(g, s, t, b, g.start, false)
    ensures Enabled(g, s, FillHead(b))
    ensures var s' := Apply(g, s, FillHead(b)); LocksSame(g, s, s', b, true) && At(s', false, t, WriteHead, s.lh)
  {
    hide SetHead;
  }

  lemma FlushesHead(g: Layout, s: State, t: Tid, b: nat)
    requires Shape(g, s) && At(s, false, t, WriteHead, s.lh) && Mine(g, s, t, b, g.start, true)
    ensures Enabled(g, s, FlushHead(b))
    ensures var s' := Apply(g, s, FlushHead(b)); LocksSame(g, s, s', b, false) && At(s', false, t, Install(0, Fresh), s.lh)
  {
  }

  lemma CopiesHome(g: Layout, s: State, boot: bool, t: Tid, tail: nat, from: nat, to: nat)
    requires Shape(g, s) && At(s, boot, t, Install(tail, Fresh), s.lh) && tail < |s.lh| && s.lh[tail] >= 0
    requires Mine(g, s, t, from, g.start + 1 + tail, false) && Mine(g, s, t, to, s.lh[tail], false)
    ensures Enabled(g, s, CopyHome(from, to))
    ensures var s' := Apply(g, s, CopyHome(from, to)); LocksSame(g, s, s', to, true) && At(s', boot, t, Install(tail, Copied), s.lh)
  {
  }

  lemma FlushesHome(g: Layout, s: State, boot: bool, t: Tid, tail: nat, b: nat)
    requires Shape(g, s) && At(s, boot, t, Install(tail, Copied), s.lh) && tail < |s.lh| && s.lh[tail] >= 0
    requires Mine(g, s, t, b, s.lh[tail], true)
    ensures Enabled(g, s, FlushHome(b))
    ensures var s' := Apply(g, s, FlushHome(b)); LocksSame(g, s, s', b, false) && At(s', boot, t, Install(tail, Written), s.lh)
  {
  }

  lemma Unpins(g: Layout, s: State, boot: bool, t: Tid, tail: nat, b: nat)
    requires Shape(g, s) && At(s, boot, t, Install(tail, Written), s.lh) && tail < |s.lh| && s.lh[tail] >= 0
    requires Mine(g, s, t, b, s.lh[tail], false) && s.cache.bufs[b].refcnt > 0
    ensures Enabled(g, s, LogMachine.Unpin(b))
    ensures var s' := Apply(g, s, LogMachine.Unpin(b)); LocksSame(g, s, s', b, false) && At(s', boot, t, Install(tail + 1, Fresh), s.lh)
  {
  }

  lemma FillsClear(g: Layout, s: State, boot: bool, t: Tid, b: nat)
    requires Shape(g, s) && At(s, boot, t, ClearHead(false), []) && Mine(g, s, t, b, g.start, false)
    ensures Enabled(g, s, FillClear(b))
    ensures var s' := Apply(g, s, FillClear(b)); LocksSame(g, s, s', b, true) && At(s', boot, t, ClearHead(true), [])
  {
    hide SetHead;
  }

  lemma FlushesClear(g: Layout, s: State, boot: bool, t: Tid, b: nat)
    requires Shape(g, s) && At(s, boot, t, ClearHead(true), []) && Mine(g, s, t, b, g.start, true)
    ensures Enabled(g, s, FlushClear(b))
    ensures var s' := Apply(g, s, FlushClear(b));
      LocksSame(g, s, s', b, false) && s'.lh == [] && s'.ops == map[] && s'.pc == if boot then Running else Busy(false, t, Finish)
  {
  }

  lemma ReadsHeader(g: Layout, s: State, t: Tid, b: nat)
    requires Shape(g, s) && At(s, true, t, ReadHead, []) && Mine(g, s, t, b, g.start, false)
    ensures Enabled(g, s, ReadHeader(b))
    ensures var s' := Apply(g, s, ReadHeader(b));
      LocksSame(g, s, s', b, false) && At(s', true, t, Install(0, Fresh), Entries(s.cache.bufs[b].data))
  {
  }

  // ---------- write_log ----------

  // The thread alone is committing or recovering, and holds no buffer.
  ghost predicate Between(g: Layout, s0: State, s: State, boot: bool, t: Tid, phase: Phase, lh: seq<int>) {
    From(g, s0, s) && Others(g, s, {}) && At(s, boot, t, phase, lh)
  }

  lemma HomeOfEntry(g: Layout, s: State, tail: nat)
    requires Inv(g, s) && tail < |s.lh|
    ensures Home(g, s.lh[tail]) && 0 <= s.lh[tail] < g.nblocks && g.start + 1 + tail < g.nblocks && s.lh[tail] != g.start + 1 + tail
  {
    hide Buffered, PhaseOk;
  }

  // t has bread two blocks, the log block of entry tail and its home block.
  lemma VisitBoth(g: Layout, s0: State, s: State, boot: bool, t: Tid, phase: Phase, tail: nat) returns (s': State, a: nat, b: nat)
    requires Between(g, s0, s, boot, t, phase, s.lh) && tail < |s.lh| && |Pinned(s)| < NBUF
    requires s.lh[tail] in Pinned(s) || Pinned(s) == []
    ensures s.lh[tail] >= 0 && Inv(g, s')
    ensures From(g, s0, s') && Others(g, s', {a, b}) && a != b && At(s', boot, t, phase, s.lh)
    ensures Mine(g, s', t, a, g.start + 1 + tail, false) && Mine(g, s', t, b, s.lh[tail], false)
  {
    hide From, Choose, Inv, Pinned, Home, Shape, Holds;
    FromInv(g, s0, s);
    HomeOfEntry(g, s, tail);
    var x, y := g.start + 1 + tail, s.lh[tail];
    SomeUnused(g, s, x);
    var s1;
    s1, a := Visit(g, s0, s, t, x, {});
    FromInv(g, s0, s1);
    SamePins(s, s1);
    assert {} + {a} == {a};
    if Pinned(s1) == [] { SecondUnused(g, s1, y, a); } else { PinnedIsHit(g, s1, y); }
    NotThatOne(g, s1, t, a, x, y);
    s', b := Visit(g, s0, s1, t, y, {a});
    assert {a} + {b} == {a, b};
    MineKept(g, s1, s', {a}, t, a, x, false);
    FromInv(g, s0, s');
  }

  lemma SamePins(s: State, s': State)
    requires SameBeside(s, s')
    ensures Pinned(s') == Pinned(s)
  {
  }

  lemma MineKept(g: Layout, s: State, s': State, held: set<nat>, t: Tid, a: nat, blk: nat, dirty: bool)
    requires Kept(g, s, s', held) && a in held && Mine(g, s, t, a, blk, dirty)
    ensures Mine(g, s', t, a, blk, dirty)
  {
  }

  // t gives both buffers back.
  lemma LeaveBoth(g: Layout, s0: State, s: State, t: Tid, a: nat, x: nat, b: nat, y: nat) returns (s': State)
    requires From(g, s0, s) && Others(g, s, {a, b}) && a != b && Mine(g, s, t, a, x, false) && Mine(g, s, t, b, y, false)
    ensures From(g, s0, s') && Others(g, s', {}) && SameBeside(s, s')
  {
    hide From, Shape, Holds;
    assert {a, b} == {a} + {b};
    var s1 := Leave(g, s0, s, t, b, y, {a});
    MineKept(g, s, s1, {a}, t, a, x, false);
    assert {a} == {} + {a};
    s' := Leave(g, s0, s1, t, a, x, {});
  }

  lemma LogsOne(g: Layout, s0: State, s: State, t: Tid, tail: nat) returns (s': State)
    requires Between(g, s0, s, false, t, WriteLog(tail, false), s.lh) && tail < |s.lh| < NBUF
    ensures Between(g, s0, s', false, t, WriteLog(tail + 1, false), s.lh)
  {
    hide From, Inv, Apply, Enabled, Shape, Holds, LocksSame;
    var s1, a, b := VisitBoth(g, s0, s, false, t, WriteLog(tail, false), tail);
    var x, y := g.start + 1 + tail, s.lh[tail];
    CopiesToLog(g, s1, t, tail, a, b);
    var s2 := Apply(g, s1, CopyToLog(a, b));
    FromStep(g, s0, s1, CopyToLog(a, b));
    LocksSameKeeps(g, s1, s2, a, true, {a, b});
    MineStill(g, s1, s2, a, true, t, a, x, false);
    MineStill(g, s1, s2, a, true, t, b, y, false);
    FlushesLog(g, s2, t, tail, a);
    var s3 := Apply(g, s2, FlushLog(a));
    FromStep(g, s0, s2, FlushLog(a));
    LocksSameKeeps(g, s2, s3, a, false, {a, b});
    MineStill(g, s2, s3, a, false, t, a, x, true);
    MineStill(g, s2, s3, a, false, t, b, y, false);
    s' := LeaveBoth(g, s0, s3, t, a, x, b, y);
  }

  lemma {:induction false} LogsAll(g: Layout, s0: State, s: State, t: Tid, tail: nat) returns (s': State)
    requires Between(g, s0, s, false, t, WriteLog(tail, false), s.lh) && tail <= |s.lh| < NBUF
    ensures Between(g, s0, s', false, t, WriteLog(|s.lh|, false), s.lh)
    decreases |s.lh| - tail
  {
    hide Between;
    if tail == |s.lh| {
      s' := s;
    } else {
      s' := LogsOne(g, s0, s, t, tail);
      BetweenList(g, s0, s', false, t, WriteLog(tail + 1, false), s.lh);
      s' := LogsAll(g, s0, s', t, tail + 1);
    }
  }

  lemma BetweenList(g: Layout, s0: State, s: State, boot: bool, t: Tid, phase: Phase, lh: seq<int>)
    requires Between(g, s0, s, boot, t, phase, lh)
    ensures s.lh == lh
  {
  }

  // ---------- write_head ----------

  // bread of the header block, which is neither dirty nor pinned.
  lemma VisitHead(g: Layout, s0: State, s: State, boot: bool, t: Tid, phase: Phase) returns (s': State, b: nat)
    requires Between(g, s0, s, boot, t, phase, s.lh) && |Pinned(s)| < NBUF
    ensures From(g, s0, s') && Others(g, s', {b}) && At(s', boot, t, phase, s.lh) && SameBeside(s, s')
    ensures Mine(g, s', t, b, g.start, false)
  {
    hide From, Choose, Inv, Pinned;
    FromInv(g, s0, s);
    SomeUnused(g, s, g.start);
    s', b := Visit(g, s0, s, t, g.start, {});
    assert {} + {b} == {b};
  }

  lemma LeaveHead(g: Layout, s0: State, s: State, t: Tid, b: nat, blk: nat) returns (s': State)
    requires From(g, s0, s) && Others(g, s, {b}) && Mine(g, s, t, b, blk, false)
    ensures From(g, s0, s') && Others(g, s', {}) && SameBeside(s, s')
  {
    hide From, Shape, Holds;
    assert {} + {b} == {b};
    s' := Leave(g, s0, s, t, b, blk, {});
  }

  lemma WritesHead(g: Layout, s0: State, s: State, t: Tid) returns (s': State)
    requires Between(g, s0, s, false, t, WriteLog(|s.lh|, false), s.lh) && |s.lh| < NBUF
    ensures Between(g, s0, s', false, t, Install(0, Fresh), s.lh)
  {
    hide From, Inv, Apply, Enabled, Shape, Holds, LocksSame;
    var s1, b := VisitHead(g, s0, s, false, t, WriteLog(|s.lh|, false));
    FillsHead(g, s1, t, b);
    var s2 := Apply(g, s1, FillHead(b));
    FromStep(g, s0, s1, FillHead(b));
    LocksSameKeeps(g, s1, s2, b, true, {b});
    MineStill(g, s1, s2, b, true, t, b, g.start, false);
    FlushesHead(g, s2, t, b);
    var s3 := Apply(g, s2, FlushHead(b));
    FromStep(g, s0, s2, FlushHead(b));
    LocksSameKeeps(g, s2, s3, b, false, {b});
    MineStill(g, s2, s3, b, false, t, b, g.start, true);
    s' := LeaveHead(g, s0, s3, t, b, g.start);
  }

  // ---------- install_trans ----------

  lemma InstallsOne(g: Layout, s0: State, s: State, boot: bool, t: Tid, tail: nat) returns (s': State)
    requires Between(g, s0, s, boot, t, Install(tail, Fresh), s.lh) && tail < |s.lh| && (!boot ==> |s.lh| < NBUF)
    ensures Between(g, s0, s', boot, t, Install(tail + 1, Fresh), s.lh)
  {
    hide From, Inv, Apply, Enabled, Shape, Holds, LocksSame;
    InstallPins(s, boot, tail);
    var s1, a, b := VisitBoth(g, s0, s, boot, t, Install(tail, Fresh), tail);
    var x, y := g.start + 1 + tail, s.lh[tail];
    CopiesHome(g, s1, boot, t, tail, a, b);
    var s2 := Apply(g, s1, CopyHome(a, b));
    FromStep(g, s0, s1, CopyHome(a, b));
    LocksSameKeeps(g, s1, s2, b, true, {a, b});
    MineStill(g, s1, s2, b, true, t, a, x, false);
    MineStill(g, s1, s2, b, true, t, b, y, false);
    FlushesHome(g, s2, boot, t, tail, b);
    var s3 := Apply(g, s2, FlushHome(b));
    FromStep(g, s0, s2, FlushHome(b));
    LocksSameKeeps(g, s2, s3, b, false, {a, b});
    MineStill(g, s2, s3, b, false, t, a, x, false);
    MineStill(g, s2, s3, b, false, t, b, y, true);
    FromInv(g, s0, s3);
    InUse(g, s3, t, b, y);
    Unpins(g, s3, boot, t, tail, b);
    var s4 := Apply(g, s3, LogMachine.Unpin(b));
    FromStep(g, s0, s3, LogMachine.Unpin(b));
    LocksSameKeeps(g, s3, s4, b, false, {a, b});
    MineStill(g, s3, s4, b, false, t, a, x, false);
    MineStill(g, s3, s4, b, false, t, b, y, false);
    s' := LeaveBoth(g, s0, s4, t, a, x, b, y);
  }

  lemma InUse(g: Layout, s: State, t: Tid, b: nat, blk: nat)
    requires Inv(g, s) && Mine(g, s, t, b, blk, false)
    ensures s.cache.bufs[b].refcnt > 0
  {
    hide PhaseOk, Reserved, Buffered;
    BufferOk(g, s, b);
    assert |s.users[b]| == 1;
  }

  // install_trans unpins as it goes; recovery has pinned nothing.
  lemma InstallPins(s: State, boot: bool, tail: nat)
    requires s.pc.Busy? && s.pc.boot == boot && s.pc.phase == Install(tail, Fresh) && tail < |s.lh| && (!boot ==> |s.lh| < NBUF)
    ensures |Pinned(s)| < NBUF && (s.lh[tail] in Pinned(s) || Pinned(s) == [])
  {
    if !boot { assert s.lh[tail..][0] == s.lh[tail]; }
  }

  lemma {:induction false} InstallsAll(g: Layout, s0: State, s: State, boot: bool, t: Tid, tail: nat) returns (s': State)
    requires Between(g, s0, s, boot, t, Install(tail, Fresh), s.lh) && tail <= |s.lh| && (!boot ==> |s.lh| < NBUF)
    ensures Between(g, s0, s', boot, t, Install(|s.lh|, Fresh), s.lh)
    decreases |s.lh| - tail
  {
    hide Between;
    if tail == |s.lh| {
      s' := s;
    } else {
      s' := InstallsOne(g, s0, s, boot, t, tail);
      BetweenList(g, s0, s', boot, t, Install(tail + 1, Fresh), s.lh);
      s' := InstallsAll(g, s0, s', boot, t, tail + 1);
    }
  }

  // ---------- the empty header, and the end ----------

  // Nobody uses a buffer, no operation and no commit is under way, and the log is empty.
  ghost predicate AtRest(g: Layout, s: State) {
    Others(g, s, {}) && s.pc.Running? && s.ops == map[] && s.lh == []
  }

  lemma Forgets(g: Layout, s0: State, s: State, boot: bool, t: Tid) returns (s': State)
    requires Between(g, s0, s, boot, t, Install(|s.lh|, Fresh), s.lh)
    ensures Between(g, s0, s', boot, t, ClearHead(false), [])
  {
    hide From;
    s' := Apply(g, s, Forget);
    FromStep(g, s0, s, Forget);
    SameLocksRest(g, s, s');
  }

  lemma SameLocksRest(g: Layout, s: State, s': State)
    requires Others(g, s, {}) && Shape(g, s') && s'.users == s.users && s'.holder == s.holder && s'.dirty == s.dirty
    ensures Others(g, s', {})
  {
    forall b: nat | b < NBUF
      ensures Idle(s', b)
    {
      assert Idle(s, b);
    }
  }

  lemma Clears(g: Layout, s0: State, s: State, boot: bool, t: Tid) returns (s': State)
    requires Between(g, s0, s, boot, t, ClearHead(false), [])
    ensures From(g, s0, s') && Others(g, s', {}) && s'.lh == [] && s'.ops == map[]
    ensures s'.pc == if boot then Running else Busy(false, t, Finish)
  {
    hide From, Inv, Apply, Enabled, Shape, Holds, LocksSame;
    var s1, b := VisitHead(g, s0, s, boot, t, ClearHead(false));
    FillsClear(g, s1, boot, t, b);
    var s2 := Apply(g, s1, FillClear(b));
    FromStep(g, s0, s1, FillClear(b));
    LocksSameKeeps(g, s1, s2, b, true, {b});
    MineStill(g, s1, s2, b, true, t, b, g.start, false);
    FlushesClear(g, s2, boot, t, b);
    var s3 := Apply(g, s2, FlushClear(b));
    FromStep(g, s0, s2, FlushClear(b));
    LocksSameKeeps(g, s2, s3, b, false, {b});
    MineStill(g, s2, s3, b, false, t, b, g.start, true);
    s' := LeaveHead(g, s0, s3, t, b, g.start);
  }

  lemma Ends(g: Layout, s0: State, s: State, t: Tid) returns (s': State)
    requires From(g, s0, s) && Others(g, s, {}) && At(s, false, t, Finish, [])
    ensures From(g, s0, s') && AtRest(g, s')
  {
    hide From;
    s' := Apply(g, s, EndCommit);
    FromStep(g, s0, s, EndCommit);
    SameLocksRest(g, s, s');
  }

  // install_trans and what follows it.
  lemma InstallsToRest(g: Layout, s0: State, s: State, boot: bool, t: Tid) returns (s': State)
    requires Between(g, s0, s, boot, t, Install(0, Fresh), s.lh) && (!boot ==> |s.lh| < NBUF)
    ensures From(g, s0, s') && AtRest(g, s')
  {
    hide From, Inv, Apply, Enabled, Others;
    s' := InstallsAll(g, s0, s, boot, t, 0);
    s' := Forgets(g, s0, s', boot, t);
    s' := Clears(g, s0, s', boot, t);
    if !boot {
      s' := Ends(g, s0, s', t);
    }
  }

  // ---------- commit ----------

  lemma LastEnds(g: Layout, s: State, t: Tid)
    requires Inv(g, s) && Others(g, s, {}) && s.pc.Running? && s.ops.Keys == {t}
    ensures Enabled(g, s, EndOp(t))
    ensures var s' := Apply(g, s, EndOp(t));
      Others(g, s', {}) && At(s', false, t, if |s.lh| > 0 then WriteLog(0, false) else Finish, s.lh)
  {
    hide Buffered, PhaseOk, Reserved;
    forall b | 0 <= b < NBUF
      ensures !s.dirty[b]
    {
      assert Idle(s, b);
    }
    assert (s.ops - {t}).Keys == {};
    var s' := Apply(g, s, EndOp(t));
    SameLocksRest(g, s, s');
  }

  /* The last end_op of a group leads, through a commit, to a state at rest, if fewer blocks are in the log
     than there are buffers and nobody else holds one. */
  lemma CommitCompletes(g: Layout, s: State, t: Tid) returns (s': State)
    requires Inv(g, s) && Others(g, s, {}) && s.pc.Running? && s.ops.Keys == {t} && |s.lh| < NBUF
    ensures Leads(g, s, s') && AtRest(g, s')
    ensures HomeEqual(g, s'.disk, s.contents) && HomeEqual(g, s'.contents, s.contents)
  {
    hide Inv, Apply, Enabled, Others, Leads;
    LastEnds(g, s, t);
    FromHere(g, s);
    InvShape(g, s);
    FromStep(g, s, s, EndOp(t));
    s' := Apply(g, s, EndOp(t));
    if |s.lh| > 0 {
      s' := LogsAll(g, s, s', t, 0);
      s' := WritesHead(g, s, s', t);
      s' := InstallsToRest(g, s, s', false, t);
    } else {
      s' := Ends(g, s, s', t);
    }
    RestHolds(g, s, s', s.contents);
  }

  lemma InvShape(g: Layout, s: State)
    requires Inv(g, s)
    ensures Shape(g, s)
  {
  }

  // ---------- what a quiet run keeps ----------

  lemma {:induction false} QuietlyAgrees(g: Layout, trace: seq<State>, steps: seq<Step>, p: Plain)
    requires IsRun(g, trace, steps) && Agrees(g, trace[0], p) && (forall i :: 0 <= i < |steps| ==> Quietly(steps[i]))
    ensures exists q: Plain :: Agrees(g, trace[|steps|], q) && q.now == p.now
    decreases |steps|
  {
    hide Agrees;
    if steps == [] {
      assert p.now == p.now;
    } else {
      var n := |steps| - 1;
      QuietlyAgrees(g, trace[..n + 1], steps[..n], p);
      var q: Plain :| Agrees(g, trace[n], q) && q.now == p.now;
      StepAgrees(g, trace[n], q, steps[n]);
      assert PlainStep(q, steps[n]).now == p.now;
    }
  }

  // At rest, after a quiet run, the disk holds what was there for the threads.
  lemma RestHolds(g: Layout, s: State, s': State, now: seq<Block>)
    requires From(g, s, s') && AtRest(g, s') && |now| == g.nblocks
    requires HomeEqual(g, now, if s.pc.Busy? && s.pc.boot then s.committed else s.contents)
    ensures Shape(g, s') && HomeEqual(g, s'.disk, now) && HomeEqual(g, s'.contents, now)
  {
    hide Buffered, Reserved;
    var trace, steps :| QuietRun(g, trace, steps, s, s');
    assert Agrees(g, s, Plain(now, s.committed));
    QuietlyAgrees(g, trace, steps, Plain(now, s.committed));
    var q: Plain :| Agrees(g, s', q) && q.now == now;
    NothingLogged(g, s');
  }

  // ---------- recovery ----------

  /* Whatever disk the machine comes up with, recovery can be brought to its end, and then the disk holds
     the image that the disk recovers to. */
  lemma RecoveryCompletes(g: Layout, disk: seq<Block>, t: Tid, image: seq<Block>) returns (s': State)
    requires RecoversTo(g, disk, image)
    ensures Leads(g, PowerOn(disk, t, image), s') && AtRest(g, s')
    ensures HomeEqual(g, s'.disk, image) && HomeEqual(g, s'.contents, image)
  {
    hide Inv, Apply, Enabled, Leads;
    var s := PowerOn(disk, t, image);
    PowerOnInv(g, disk, t, image);
    FromHere(g, s);
    forall b: nat | b < NBUF
      ensures Idle(s, b)
    {
    }
    InvShape(g, s);
    var s1, b := VisitHead(g, s, s, true, t, ReadHead);
    ReadsHeader(g, s1, t, b);
    var s2 := Apply(g, s1, ReadHeader(b));
    FromStep(g, s, s1, ReadHeader(b));
    LocksSameKeeps(g, s1, s2, b, false, {b});
    MineStill(g, s1, s2, b, false, t, b, g.start, false);
    s' := LeaveHead(g, s, s2, t, b, g.start);
    s' := InstallsToRest(g, s, s', true, t);
    RestHolds(g, s, s', image);
  }
}
