/** The guarantees of the log and the buffer cache over whole runs, crashes included. */
module LogRuns {
  import opened Blocks
  import opened Bio
  import opened LogFormat
  import opened LogMachine
  import opened LogSafety
  import opened LogSteps

  // The plain machine and the log machine agree: on what was last saved, and, once recovery is
  // over, on what is there now.  While recovery runs, the plain machine is already back at the saved copy.
  ghost predicate Agrees(g: Layout, s: State, p: Plain) {
    && Inv(g, s)
    && |p.now| == g.nblocks && |p.saved| == g.nblocks
    && HomeEqual(g, p.saved, s.committed)
    && HomeEqual(g, p.now, if s.pc.Busy? && s.pc.boot then s.committed else s.contents)
  }

  // install_trans(0) copies to its home a block that already contains just that.
  lemma CopyHomeChangesNothing(g: Layout, s: State, from: nat, to: nat)
    requires Shape(g, s) && Loggable(g, s.lh) && Enabled(g, s, CopyHome(from, to)) && !s.pc.boot
    requires Installing(g, s) && Shows(g, s, from, g.start + 1 + s.pc.phase.tail)
    ensures Apply(g, s, CopyHome(from, to)).contents == s.contents
  {
    var tail := s.pc.phase.tail;
    assert Logged(g, s.contents, s.committed, s.lh, tail);
    assert Home(g, s.lh[tail]);
  }

  // Only a write by an operation changes what a running system's home blocks contain.
  lemma ContentsKept(g: Layout, s: State, step: Step)
    requires Inv(g, s) && Enabled(g, s, step) && !step.Modify? && !step.Crash? && !(s.pc.Busy? && s.pc.boot)
    ensures HomeEqual(g, Apply(g, s, step).contents, s.contents)
  {
    if step.CopyHome? {
      HeldShows(g, s, s.pc.who, step.from, g.start + 1 + s.pc.phase.tail);
      CopyHomeChangesNothing(g, s, step.from, step.to);
    } else {
      OtherStepsKeepContents(g, s, step);
    }
  }

  lemma OtherStepsKeepContents(g: Layout, s: State, step: Step)
    requires Shape(g, s) && Loggable(g, s.lh) && Enabled(g, s, step)
    requires !step.Modify? && !step.Crash? && !step.CopyHome?
    ensures HomeEqual(g, Apply(g, s, step).contents, s.contents)
  {
  }

  lemma SavedKept(g: Layout, s: State, step: Step)
    requires Shape(g, s) && Enabled(g, s, step) && !step.FlushHead?
    ensures Apply(g, s, step).committed == s.committed
  {
  }

  // Recovery ends only with every home block back at its committed contents.
  lemma BootStep(g: Layout, s: State, step: Step)
    requires Shape(g, s) && Reserved(g, s) && PhaseOk(g, s) && s.pc.Busy? && s.pc.boot && Enabled(g, s, step) && !step.Crash?
    ensures !step.FlushHead? && !step.Modify?
    ensures var s' := Apply(g, s, step); (s'.pc.Busy? && s'.pc.boot) || HomeEqual(g, s'.contents, s.committed)
  {
  }

  lemma StepAgrees(g: Layout, s: State, p: Plain, step: Step)
    requires Agrees(g, s, p) && Enabled(g, s, step)
    ensures Agrees(g, Apply(g, s, step), PlainStep(p, step))
  {
    hide Buffered, PhaseOk, Reserved;
    StepKeepsInv(g, s, step);
    if !step.FlushHead? { SavedKept(g, s, step); }
    if step.Crash? {
    } else if s.pc.Busy? && s.pc.boot {
      BootStep(g, s, step);
    } else if !step.Modify? {
      ContentsKept(g, s, step);
    }
  }

  lemma {:induction false} RunAgrees(g: Layout, trace: seq<State>, steps: seq<Step>, p: Plain)
    requires IsRun(g, trace, steps) && Agrees(g, trace[0], p)
    ensures Agrees(g, trace[|steps|], PlainRun(p, steps))
  {
    if steps != [] {
      var n := |steps| - 1;
      RunAgrees(g, trace[..n + 1], steps[..n], p);
      StepAgrees(g, trace[n], PlainRun(p, steps[..n]), steps[n]);
    }
  }

  // A run from power-on with a disk that recovers to image.
  ghost predicate Boots(g: Layout, s: State, image: seq<Block>) {
    RecoversTo(g, s.disk, image) && exists t :: s == PowerOn(s.disk, t, image)
  }

  /* Crash atomicity.  In every run from power-on, with any interleaving of threads and any
     number of crashes, also during recovery, a complete recovery of the disk as it is now gives
     exactly the home blocks that the plain machine saved at the last commit point. */
  lemma CrashAtomicity(g: Layout, trace: seq<State>, steps: seq<Step>, image: seq<Block>)
    requires IsRun(g, trace, steps) && Boots(g, trace[0], image)
    ensures var s, p := trace[|steps|], PlainRun(Plain(image, image), steps);
      && |s.disk| == g.nblocks && |p.saved| == g.nblocks
      && Loggable(g, Entries(s.disk[g.start]))
      && HomeEqual(g, Recovered(g, s.disk), p.saved)
  {
    BootAgrees(g, trace[0], image);
    RunAgrees(g, trace, steps, Plain(image, image));
    var s, p := trace[|steps|], PlainRun(Plain(image, image), steps);
    AlwaysRecoverable(g, s);
    RecoveryYieldsImage(g, s.disk, s.committed);
  }

  lemma BootAgrees(g: Layout, s: State, image: seq<Block>)
    requires Boots(g, s, image)
    ensures Agrees(g, s, Plain(image, image))
  {
    var t :| s == PowerOn(s.disk, t, image);
    PowerOnInv(g, s.disk, t, image);
  }

  // While no operation runs and no commit is under way, there is nothing left to commit.
  ghost predicate Settled(g: Layout, s: State) {
    s.pc.Running? && s.ops == map[] ==> s.lh == []
  }

  lemma StepSettles(g: Layout, s: State, step: Step)
    requires Inv(g, s) && Settled(g, s) && Enabled(g, s, step)
    ensures Settled(g, Apply(g, s, step))
  {
    hide Buffered, Choose;
  }

  lemma {:induction false} RunSettles(g: Layout, trace: seq<State>, steps: seq<Step>, image: seq<Block>)
    requires IsRun(g, trace, steps) && Boots(g, trace[0], image)
    ensures Settled(g, trace[|steps|])
    decreases |steps|
  {
    if steps != [] {
      var n := |steps| - 1;
      RunSettles(g, trace[..n + 1], steps[..n], image);
      BootAgrees(g, trace[0], image);
      RunAgrees(g, trace[..n + 1], steps[..n], Plain(image, image));
      StepSettles(g, trace[n], steps[n]);
    }
  }

  // With an empty log the disk itself holds the contents.
  lemma NothingLogged(g: Layout, s: State)
    requires Inv(g, s) && s.pc.Running? && s.ops == map[] && s.lh == []
    ensures HomeEqual(g, s.contents, s.committed)
  {
    hide Reserved;
    forall blk | 0 <= blk < g.nblocks && Home(g, blk)
      ensures s.contents[blk] == s.committed[blk]
    {
      assert BlockOk(g, s, blk);
      forall b | 0 <= b < NBUF && CachedIn(g, s, b, blk)
        ensures s.disk[blk] == s.contents[blk]
      {
        assert DataOk(g, s, b) && DirtyOk(g, s, b);
      }
    }
  }

  /* Durability.  In every run, once the last operation has ended and its commit is over, a complete
     recovery of the disk gives everything that all operations have written. */
  lemma Durability(g: Layout, trace: seq<State>, steps: seq<Step>, image: seq<Block>)
    requires IsRun(g, trace, steps) && Boots(g, trace[0], image)
    requires trace[|steps|].pc.Running? && trace[|steps|].ops == map[]
    ensures var s, p := trace[|steps|], PlainRun(Plain(image, image), steps);
      && s.lh == [] && |s.disk| == g.nblocks && |p.now| == g.nblocks && |p.saved| == g.nblocks
      && HomeEqual(g, p.saved, p.now)
      && Loggable(g, Entries(s.disk[g.start])) && HomeEqual(g, Recovered(g, s.disk), p.now)
  {
    RunSettles(g, trace, steps, image);
    CrashAtomicity(g, trace, steps, image);
    BootAgrees(g, trace[0], image);
    RunAgrees(g, trace, steps, Plain(image, image));
    NothingLogged(g, trace[|steps|]);
  }

  /* Cache transparency.  Once recovery is over, whoever holds a buffer with data of a home block
     reads exactly what the plain map holds, whatever was evicted, committed or recovered before. */
  lemma CacheTransparency(g: Layout, trace: seq<State>, steps: seq<Step>, image: seq<Block>, t: Tid, b: nat, blk: nat)
    requires IsRun(g, trace, steps) && Boots(g, trace[0], image)
    requires var s := trace[|steps|];
      Shape(g, s) && Holds(g, s, t, b, blk) && Home(g, blk) && !(s.pc.Busy? && s.pc.boot)
    ensures var p := PlainRun(Plain(image, image), steps);
      |p.now| == g.nblocks && trace[|steps|].cache.bufs[b].data == p.now[blk]
  {
    BootAgrees(g, trace[0], image);
    RunAgrees(g, trace, steps, Plain(image, image));
    HeldBufferShowsContents(g, trace[|steps|], t, b, blk);
  }

  /* Log reservation.  In every reachable state the log entries and what running operations may
     still add fit in the log, entries never exceed the blocks the log has, a commit runs only
     while no operation does, and no block is in two buffers. */
  lemma ReservationHolds(g: Layout, trace: seq<State>, steps: seq<Step>, image: seq<Block>)
    requires IsRun(g, trace, steps) && Boots(g, trace[0], image)
    ensures var s := trace[|steps|];
      && |s.lh| + Unspent(s.ops) <= LOGSIZE && |s.lh| <= g.size - 1
      && (s.pc.Busy? ==> s.ops == map[])
      && Unique(s.cache)
  {
    BootAgrees(g, trace[0], image);
    RunAgrees(g, trace, steps, Plain(image, image));
  }

  /* end_op never finds a commit in progress, so its panic is unreachable. */
  lemma EndOpNeverDuringCommit(g: Layout, trace: seq<State>, steps: seq<Step>, image: seq<Block>, t: Tid)
    requires IsRun(g, trace, steps) && Boots(g, trace[0], image) && t in trace[|steps|].ops
    ensures trace[|steps|].pc.Running?
  {
    ReservationHolds(g, trace, steps, image);
  }

  /* A crash between commit's first and last block write: the disk recovers to the new contents
     if and only if the header with the transaction had reached it. */
  lemma CommitPointDecides(g: Layout, s: State)
    requires Inv(g, s) && s.pc.Busy? && !s.pc.boot && !s.pc.phase.Finish?
    ensures Loggable(g, Entries(s.disk[g.start]))
    ensures s.pc.phase.WriteLog? || s.pc.phase.WriteHead? ==>
      Entries(s.disk[g.start]) == [] && HomeEqual(g, Recovered(g, s.disk), s.disk)
    ensures s.pc.phase.Install? || s.pc.phase.ClearHead? ==> HomeEqual(g, Recovered(g, s.disk), s.contents)
  {
    AlwaysRecoverable(g, s);
    RecoveryYieldsImage(g, s.disk, s.committed);
  }
}
