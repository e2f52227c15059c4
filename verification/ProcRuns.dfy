/** The guarantees of the process machine over whole runs. */
module ProcRuns {
  import opened Blocks
  import opened ProcMachine
  import opened ProcSafety
  import opened ProcFrame
  import opened ProcSteps

  // ---------- kinds of steps ----------

  predicate IsForkStep(step: Step) {
    step.ForkAlloc? || step.ForkFail? || step.ForkUnlock? || step.ForkTake? || step.ForkSetParent? || step.ForkStart?
  }

  // exit, up to the end of reparent.
  predicate IsReparentStep(step: Step) {
    step.ExitBegin? || step.ExitTake? || step.ExitGive? || step.ExitPass? || step.ExitEnd? || step.ExitPokeInit?
  }

  predicate IsExitStep(step: Step) {
    step.ExitTellParent? || step.ExitTakeSelf? || step.ExitZombie? || step.ExitRelease?
  }

  // wait, as long as it looks for children.
  predicate IsWaitStep(step: Step) {
    || step.WaitBegin? || step.WaitTake? || step.WaitLook? || step.WaitPass? || step.WaitReap? || step.WaitFault?
    || step.WaitSkip?
  }

  predicate IsDozeStep(step: Step) {
    step.WaitGiveUp? || step.WaitSleep? || step.WaitTakeSelf? || step.WaitRelease? || step.WaitDozeOff?
  }

  predicate IsNapStep(step: Step) {
    step.DozeElsewhere? || step.WakeElsewhere? || step.Kill? || step.Yield?
  }

  predicate IsCpuStep(step: Step) {
    step.SwitchOut? || step.CpuRelease? || step.Dispatch? || step.Continue?
  }

  lemma ForkStepKeepsInv(s: State, step: Step, s': State)
    requires Inv(s) && IsForkStep(step) && Next(s, step, s')
    ensures Inv(s')
  {
    hide Inv, Entries, Moves, MovesAlone;
    match step
    case ForkAlloc(i, np) => ForkAllocKeepsInv(s, s', i, np);
    case ForkFail(i) => ForkFailKeepsInv(s, s', i);
    case ForkUnlock(i) => ForkUnlockKeepsInv(s, s', i);
    case ForkTake(i) => ForkTakeKeepsInv(s, s', i);
    case ForkSetParent(i) => ForkSetParentKeepsInv(s, s', i);
    case ForkStart(i) => ForkStartKeepsInv(s, s', i);
  }

  lemma ReparentStepKeepsInv(s: State, step: Step, s': State)
    requires Inv(s) && IsReparentStep(step) && Next(s, step, s')
    ensures Inv(s')
  {
    hide Inv, Entries, Moves, MovesAlone;
    match step
    case ExitBegin(i, status) => ExitBeginKeepsInv(s, s', i, status);
    case ExitTake(i) => ExitTakeKeepsInv(s, s', i);
    case ExitGive(i) => ExitGiveKeepsInv(s, s', i);
    case ExitPass(i) => ExitPassKeepsInv(s, s', i);
    case ExitEnd(i) => ExitEndKeepsInv(s, s', i);
    case ExitPokeInit(i) => ExitPokeInitKeepsInv(s, s', i);
  }

  lemma ExitStepKeepsInv(s: State, step: Step, s': State)
    requires Inv(s) && IsExitStep(step) && Next(s, step, s')
    ensures Inv(s')
  {
    hide Inv, Entries, Moves, MovesAlone;
    match step
    case ExitTellParent(i) => ExitTellParentKeepsInv(s, s', i);
    case ExitTakeSelf(i) => ExitTakeSelfKeepsInv(s, s', i);
    case ExitZombie(i) => ExitZombieKeepsInv(s, s', i);
    case ExitRelease(i) => ExitReleaseKeepsInv(s, s', i);
  }

  lemma WaitStepKeepsInv(s: State, step: Step, s': State)
    requires Inv(s) && IsWaitStep(step) && Next(s, step, s')
    ensures Inv(s')
  {
    hide Inv, Entries, Moves, MovesAlone;
    match step
    case WaitBegin(i) => WaitBeginKeepsInv(s, s', i);
    case WaitTake(i) => WaitTakeKeepsInv(s, s', i);
    case WaitLook(i) => WaitLookKeepsInv(s, s', i);
    case WaitPass(i) => WaitPassKeepsInv(s, s', i);
    case WaitReap(i) => WaitReapKeepsInv(s, s', i);
    case WaitFault(i) => WaitFaultKeepsInv(s, s', i);
    case WaitSkip(i) => WaitSkipKeepsInv(s, s', i);
  }

  lemma DozeStepKeepsInv(s: State, step: Step, s': State)
    requires Inv(s) && IsDozeStep(step) && Next(s, step, s')
    ensures Inv(s')
  {
    hide Inv, Entries, Moves, MovesAlone;
    match step
    case WaitGiveUp(i) => WaitGiveUpKeepsInv(s, s', i);
    case WaitSleep(i) => WaitSleepKeepsInv(s, s', i);
    case WaitTakeSelf(i) => WaitTakeSelfKeepsInv(s, s', i);
    case WaitRelease(i) => WaitReleaseKeepsInv(s, s', i);
    case WaitDozeOff(i) => WaitDozeOffKeepsInv(s, s', i);
  }

  lemma NapStepKeepsInv(s: State, step: Step, s': State)
    requires Inv(s) && IsNapStep(step) && Next(s, step, s')
    ensures Inv(s')
  {
    hide Inv, Entries, Moves, MovesAlone;
    match step
    case DozeElsewhere(i) => DozeElsewhereKeepsInv(s, s', i);
    case WakeElsewhere(i) => WakeElsewhereKeepsInv(s, s', i);
    case Kill(i) => KillKeepsInv(s, s', i);
    case Yield(i) => YieldKeepsInv(s, s', i);
  }

  lemma CpuStepKeepsInv(s: State, step: Step, s': State)
    requires Inv(s) && IsCpuStep(step) && Next(s, step, s')
    ensures Inv(s')
  {
    hide Inv, Entries, Moves, MovesAlone;
    match step
    case SwitchOut(i, c) => SwitchOutKeepsInv(s, s', i, c);
    case CpuRelease(i, c) => CpuReleaseKeepsInv(s, s', i, c);
    case Dispatch(i, c) => DispatchKeepsInv(s, s', i, c);
    case Continue(i) => ContinueKeepsInv(s, s', i);
  }

  /* Every step of every process and every CPU keeps the invariant. */
  lemma StepKeepsInv(s: State, step: Step, s': State)
    requires Inv(s) && Next(s, step, s')
    ensures Inv(s')
  {
    if IsForkStep(step) {
      ForkStepKeepsInv(s, step, s');
    } else if IsReparentStep(step) {
      ReparentStepKeepsInv(s, step, s');
    } else if IsExitStep(step) {
      ExitStepKeepsInv(s, step, s');
    } else if IsWaitStep(step) {
      WaitStepKeepsInv(s, step, s');
    } else if IsDozeStep(step) {
      DozeStepKeepsInv(s, step, s');
    } else if IsNapStep(step) {
      NapStepKeepsInv(s, step, s');
    } else {
      CpuStepKeepsInv(s, step, s');
    }
  }

  lemma BootInv(nproc: nat, ncpu: nat)
    requires nproc > 0
    ensures Inv(Boot(nproc, ncpu))
  {
  }

  lemma {:induction false} RunKeepsInv(trace: seq<State>, steps: seq<Step>, n: nat)
    requires IsRun(trace, steps) && n <= |steps|
    ensures Inv(trace[n])
  {
    hide Next;
    if n == 0 {
      var nproc: nat, ncpu: nat :| nproc > 0 && trace[0] == Boot(nproc, ncpu);
      BootInv(nproc, ncpu);
    } else {
      RunKeepsInv(trace, steps, n - 1);
      StepKeepsInv(trace[n - 1], steps[n - 1], trace[n]);
    }
  }

  // ---------- theorems ----------

  /* No process runs on two CPUs. */
  lemma OneCpuEach(trace: seq<State>, steps: seq<Step>, n: nat, c: nat, d: nat)
    requires IsRun(trace, steps) && n <= |steps| && c < |trace[n].cpus| && d < |trace[n].cpus|
    requires trace[n].cpus[c].Some? && trace[n].cpus[c] == trace[n].cpus[d]
    ensures c == d
  {
    RunKeepsInv(trace, steps, n);
    assert CpusDiffer(trace[n], c, d);
  }

  /* A process is on a CPU exactly if it has not been switched out, and by OneCpuEach on one only. */
  lemma OnCpuUnlessOff(trace: seq<State>, steps: seq<Step>, n: nat, i: Slot)
    requires IsRun(trace, steps) && n <= |steps| && i < |trace[n].procs|
    ensures (exists c :: RunsOn(trace[n], i, c)) <==> !trace[n].procs[i].pc.Off?
  {
    RunKeepsInv(trace, steps, n);
    assert OnSome(trace[n], i);
    forall c | RunsOn(trace[n], i, c)
      ensures !trace[n].procs[i].pc.Off?
    {
      assert CpuOk(trace[n], c);
    }
  }

  /* The scheduler, which looks at the state and the lock alone, never picks a process that is on a CPU. */
  lemma DispatchedIsOff(trace: seq<State>, steps: seq<Step>, n: nat)
    requires IsRun(trace, steps) && n < |steps| && steps[n].Dispatch?
    ensures trace[n].procs[steps[n].i].pc.Off? && forall c :: !RunsOn(trace[n], steps[n].i, c)
  {
    RunKeepsInv(trace, steps, n);
    RunnableIsOff(trace[n], steps[n].i);
    OnCpuUnlessOff(trace, steps, n, steps[n].i);
  }

  /* Live pids are distinct. */
  lemma PidsDistinct(trace: seq<State>, steps: seq<Step>, n: nat, i: Slot, j: Slot)
    requires IsRun(trace, steps) && n <= |steps| && i < |trace[n].procs| && j < |trace[n].procs|
    requires trace[n].procs[i].state != UNUSED && trace[n].procs[j].state != UNUSED
    requires trace[n].procs[i].pid == trace[n].procs[j].pid
    ensures i == j
  {
    RunKeepsInv(trace, steps, n);
    assert PairOk(trace[n], i, j);
  }

  // ---------- nextpid is an int ----------

  const WORDS: nat := 0x1_0000_0000    // values of an int

  function Forks(steps: seq<Step>): nat {
    if steps == [] then 0
    else Forks(steps[..|steps| - 1]) + if steps[|steps| - 1].ForkAlloc? then 1 else 0
  }

  lemma ForksMore(steps: seq<Step>, step: Step)
    ensures Forks(steps + [step]) == Forks(steps) + if step.ForkAlloc? then 1 else 0
  {
    assert (steps + [step])[..|steps|] == steps;
  }

  lemma NextPidStep(s: State, step: Step, s': State)
    requires Next(s, step, s')
    ensures s'.nextpid == s.nextpid + if step.ForkAlloc? then 1 else 0
  {
    hide Entries;
  }

  lemma {:induction false} NextPidCounts(trace: seq<State>, steps: seq<Step>, n: nat)
    requires IsRun(trace, steps) && n <= |steps|
    ensures trace[n].nextpid == 2 + Forks(steps[..n])
  {
    hide Next;
    if n > 0 {
      NextPidCounts(trace, steps, n - 1);
      NextPidStep(trace[n - 1], steps[n - 1], trace[n]);
      assert steps[..n][..n - 1] == steps[..n - 1];
    }
  }

  lemma PidBelowNext(s: State, i: Slot)
    requires Inv(s) && i < |s.procs| && s.procs[i].state != UNUSED
    ensures 0 < s.procs[i].pid < s.nextpid
  {
    assert StateOk(s, i);
  }

  // Two live processes for which allocpid's int, the pid modulo 2^32, is the same.
  ghost predicate SameInt(s: State, i: Slot, j: Slot) {
    && i < |s.procs| && j < |s.procs| && i != j && s.procs[i].state != UNUSED && s.procs[j].state != UNUSED
    && s.procs[i].pid % WORDS == s.procs[j].pid % WORDS
  }

  /* Ints tell live processes apart as long as fewer than 2^32 processes have been forked. */
  lemma IntPidsDistinct(trace: seq<State>, steps: seq<Step>, n: nat, i: Slot, j: Slot)
    requires IsRun(trace, steps) && n <= |steps| && Forks(steps[..n]) < WORDS
    ensures !SameInt(trace[n], i, j)
  {
    hide Next, Inv, Forks;
    if SameInt(trace[n], i, j) {
      RunKeepsInv(trace, steps, n);
      NextPidCounts(trace, steps, n);
      PidBelowNext(trace[n], i);
      PidBelowNext(trace[n], j);
      PidsDiffer(trace, steps, n, i, j);
    }
  }

  lemma PidsDiffer(trace: seq<State>, steps: seq<Step>, n: nat, i: Slot, j: Slot)
    requires IsRun(trace, steps) && n <= |steps| && SameInt(trace[n], i, j)
    ensures trace[n].procs[i].pid != trace[n].procs[j].pid
  {
    if trace[n].procs[i].pid == trace[n].procs[j].pid {
      PidsDistinct(trace, steps, n, i, j);
    }
  }

  /* init has pid 1 for ever. */
  lemma InitKeepsPid(trace: seq<State>, steps: seq<Step>, n: nat)
    requires IsRun(trace, steps) && n <= |steps|
    ensures INIT < |trace[n].procs| && Alive(trace[n].procs[INIT]) && trace[n].procs[INIT].pid == 1
  {
    RunKeepsInv(trace, steps, n);
    assert FamilyOk(trace[n], INIT);
  }

  // init runs on the only CPU, and n forks have failed; the next one may have got its entry.
  function Spinning(n: nat, making: bool): State {
    var init := FREE.(state := RUNNING, pid := 1, pc := if making then ForkHold(1) else User);
    var child := if making then FREE.(state := USED, pid := 2 + n, own := Some(ByProc(INIT)), maker := Some(INIT)) else FREE;
    State([init, child], [Some(INIT)], None, if making then 3 + n else 2 + n, map[], map[], map[])
  }

  lemma Spun() returns (trace: seq<State>, steps: seq<Step>)
    ensures IsRun(trace, steps) && trace[|steps|] == Spinning(0, false) && Forks(steps) == 0
  {
    hide Next, Boot, Forks;
    var s0, s1 := Boot(2, 1), Dispatched();
    InitStarts();
    trace, steps := [s0], [];
    assert IsRun(trace, steps) && Forks([]) == 0 by { NoForks(); }
    RunOn(trace, steps, Dispatch(INIT, 0), s1);
    ForksMore(steps, Dispatch(INIT, 0));
    trace, steps := trace + [s1], steps + [Dispatch(INIT, 0)];
    RunOn(trace, steps, Continue(INIT), Spinning(0, false));
    ForksMore(steps, Continue(INIT));
    trace, steps := trace + [Spinning(0, false)], steps + [Continue(INIT)];
  }

  lemma NoForks()
    ensures Forks([]) == 0
  {
  }

  // init in the hands of the scheduler.
  function Dispatched(): State {
    var init := FREE.(state := RUNNING, pid := 1, own := Some(ByProc(INIT)), pc := Resume(User));
    State([init, FREE], [Some(INIT)], None, 2, map[], map[], map[])
  }

  lemma InitStarts()
    ensures Next(Boot(2, 1), Dispatch(INIT, 0), Dispatched()) && Next(Dispatched(), Continue(INIT), Spinning(0, false))
  {
    assert DispatchStep(Boot(2, 1), Dispatched(), INIT, 0);
    assert ContinueStep(Dispatched(), Spinning(0, false), INIT);
  }

  lemma RunOn(trace: seq<State>, steps: seq<Step>, step: Step, s: State)
    requires IsRun(trace, steps) && Next(trace[|steps|], step, s)
    ensures IsRun(trace + [s], steps + [step])
  {
    hide Next;
    var nproc: nat, ncpu: nat :| nproc > 0 && trace[0] == Boot(nproc, ncpu);
    assert (trace + [s])[0] == Boot(nproc, ncpu);
  }

  // n forks that fail for want of memory, and one that has got its entry.
  lemma {:induction false} SpunOn(n: nat, making: bool) returns (trace: seq<State>, steps: seq<Step>)
    ensures IsRun(trace, steps) && trace[|steps|] == Spinning(n, making) && Forks(steps) == if making then n + 1 else n
    decreases n, making
  {
    hide Next, Boot;
    if making {
      trace, steps := SpunOn(n, false);
      Allocates(n);
      RunOn(trace, steps, ForkAlloc(INIT, 1), Spinning(n, true));
      ForksMore(steps, ForkAlloc(INIT, 1));
      trace, steps := trace + [Spinning(n, true)], steps + [ForkAlloc(INIT, 1)];
    } else if n > 0 {
      trace, steps := SpunOn(n - 1, true);
      Fails(n);
      RunOn(trace, steps, ForkFail(INIT), Spinning(n, false));
      ForksMore(steps, ForkFail(INIT));
      trace, steps := trace + [Spinning(n, false)], steps + [ForkFail(INIT)];
    } else {
      trace, steps := Spun();
    }
  }

  lemma Allocates(n: nat)
    ensures Next(Spinning(n, false), ForkAlloc(INIT, 1), Spinning(n, true))
  {
    assert ForkAllocStep(Spinning(n, false), Spinning(n, true), INIT, 1);
  }

  lemma Fails(n: nat)
    requires n > 0
    ensures Next(Spinning(n - 1, true), ForkFail(INIT), Spinning(n, false))
  {
    assert ForkFailStep(Spinning(n - 1, true), Spinning(n, false), INIT);
  }

  /* The 2^32nd fork can give its child the int of a live process: init's. */
  lemma WrappedPidRepeats() returns (trace: seq<State>, steps: seq<Step>)
    ensures IsRun(trace, steps) && Forks(steps) == WORDS && SameInt(trace[|steps|], INIT, 1)
  {
    hide Next, Boot;
    trace, steps := SpunOn(WORDS - 1, true);
  }

  // In no run with at most m forks do two live processes ever have the same int.
  ghost predicate IntsStayDistinct(m: nat) {
    forall trace, steps, n: nat, i, j :: IsRun(trace, steps) && n <= |steps| && Forks(steps[..n]) <= m ==> !SameInt(trace[n], i, j)
  }

  lemma IntsStayDistinctIff(m: nat)
    ensures IntsStayDistinct(m) <==> m < WORDS
  {
    hide Next, Boot, Forks;
    if m < WORDS {
      forall trace, steps, n: nat, i, j | IsRun(trace, steps) && n <= |steps| && Forks(steps[..n]) <= m
        ensures !SameInt(trace[n], i, j)
      {
        IntPidsDistinct(trace, steps, n, i, j);
      }
    } else {
      var trace, steps := WrappedPidRepeats();
      assert steps[..|steps|] == steps;
      assert SameInt(trace[|steps|], INIT, 1);
    }
  }

  /* No process ever has a parent that is a zombie, unused, or still being made; and every live
     process other than init, and every zombie, has a parent. */
  lemma ParentsAlive(trace: seq<State>, steps: seq<Step>, n: nat, i: Slot)
    requires IsRun(trace, steps) && n <= |steps| && i < |trace[n].procs|
    ensures var p := trace[n].procs[i];
      && (p.parent.Some? ==> p.parent.value < |trace[n].procs| && Alive(trace[n].procs[p.parent.value]))
      && (Alive(p) || p.state == ZOMBIE ==> i == INIT || p.parent.Some?)
  {
    RunKeepsInv(trace, steps, n);
    assert FamilyOk(trace[n], i);
  }

  /* When fork returns, its child is runnable and is the caller's child. */
  lemma ForkedChild(trace: seq<State>, steps: seq<Step>, n: nat)
    requires IsRun(trace, steps) && n < |steps| && steps[n].ForkStart?
    ensures var s, s', i := trace[n], trace[n + 1], steps[n].i;
      && i < |s.procs| && s.procs[i].pc.ForkReady? && s.procs[i].pc.np < |s'.procs|
      && var q := s'.procs[s.procs[i].pc.np];
        q.state == RUNNABLE && q.parent == Some(i) && q.pid !in s.calls && s.procs[i].pc.np != INIT
  {
    RunKeepsInv(trace, steps, n);
    var s, i := trace[n], steps[n].i;
    assert FamilyOk(s, i) && HistoryOk(s, s.procs[i].pc.np) && StateOk(s, s.procs[i].pc.np);
  }

  /* When a process becomes a zombie it has no children left, and its parent is awake or will be. */
  lemma ChildrenGivenAway(trace: seq<State>, steps: seq<Step>, n: nat, k: Slot)
    requires IsRun(trace, steps) && n < |steps| && steps[n].ExitZombie?
    ensures !ChildOf(trace[n], k, steps[n].i)
    ensures steps[n].i < |trace[n].procs| && var p := trace[n].procs[steps[n].i];
      p.parent.Some? && p.parent.value < |trace[n].procs| && !Dozing(trace[n].procs[p.parent.value])
  {
    RunKeepsInv(trace, steps, n);
    var s, i := trace[n], steps[n].i;
    assert FamilyOk(s, i) && StateOk(s, i);
    if k < |s.procs| { assert PairOk(s, i, k); }
    assert PairOk(s, s.procs[i].parent.value, i);
  }

  /* A reaping wait takes a child of the caller, for the first and only time, and returns the
     status that very child passed to exit. */
  lemma ReapedOnceByParent(trace: seq<State>, steps: seq<Step>, n: nat)
    requires IsRun(trace, steps) && n < |steps| && steps[n].WaitReap?
    ensures var s := trace[n];
      var i := steps[n].i;
      var k := s.procs[i].pc.k;
      var pid := s.procs[k].pid;
      && s.procs[k].parent == Some(i) && s.procs[k].state == ZOMBIE
      && pid !in s.reaps && pid in s.exits
      && trace[n + 1].reaps == s.reaps[pid := Reaped(s.procs[i].pid, s.exits[pid])]
      && trace[n + 1].procs[k].state == UNUSED
  {
    RunKeepsInv(trace, steps, n);
    var s := trace[n];
    var i := steps[n].i;
    var k := s.procs[i].pc.k;
    assert FamilyOk(s, i) && HistoryOk(s, k);
  }

  // Step m is a call of exit by the process with this pid, with this status.
  predicate ExitCall(trace: seq<State>, steps: seq<Step>, m: nat, pid: nat, status: int) {
    && m < |steps| && m < |trace| && steps[m].ExitBegin? && steps[m].status == status
    && steps[m].i < |trace[m].procs| && trace[m].procs[steps[m].i].pid == pid
  }

  lemma CallsStep(s: State, step: Step, s': State)
    requires Next(s, step, s')
    ensures step.i < |s.procs|
    ensures s'.calls == if step.ExitBegin? then s.calls[s.procs[step.i].pid := step.status] else s.calls
  {
    hide Entries;
    if IsForkStep(step) || IsReparentStep(step) || IsExitStep(step) {
      EarlyCalls(s, step, s');
    }
  }

  lemma EarlyCalls(s: State, step: Step, s': State)
    requires Next(s, step, s') && (IsForkStep(step) || IsReparentStep(step) || IsExitStep(step))
    ensures step.i < |s.procs|
    ensures s'.calls == if step.ExitBegin? then s.calls[s.procs[step.i].pid := step.status] else s.calls
  {
    hide Entries;
  }

  // A call on record was made.
  lemma {:induction false} CallMade(trace: seq<State>, steps: seq<Step>, n: nat, pid: nat) returns (m: nat)
    requires IsRun(trace, steps) && n <= |steps| && pid in trace[n].calls
    ensures m < n && ExitCall(trace, steps, m, pid, trace[n].calls[pid])
  {
    hide Next;
    CallsStep(trace[n - 1], steps[n - 1], trace[n]);
    if steps[n - 1].ExitBegin? && trace[n - 1].procs[steps[n - 1].i].pid == pid {
      m := n - 1;
    } else {
      m := CallMade(trace, steps, n - 1, pid);
    }
  }

  // A call made stays on record.
  lemma {:induction false} CallKept(trace: seq<State>, steps: seq<Step>, m: nat, n: nat, pid: nat, status: int)
    requires IsRun(trace, steps) && m < n <= |steps| && ExitCall(trace, steps, m, pid, status)
    ensures pid in trace[n].calls
  {
    hide Next;
    CallsStep(trace[n - 1], steps[n - 1], trace[n]);
    if m < n - 1 { CallKept(trace, steps, m, n - 1, pid, status); }
  }

  /* No process calls exit twice. */
  lemma OneExitCall(trace: seq<State>, steps: seq<Step>, m: nat, n: nat, pid: nat, st: int, st': int)
    requires IsRun(trace, steps) && m < n && ExitCall(trace, steps, m, pid, st)
    ensures !ExitCall(trace, steps, n, pid, st')
  {
    if ExitCall(trace, steps, n, pid, st') {
      FirstCall(trace, steps, n, pid, st');
      CallKept(trace, steps, m, n, pid, st);
    }
  }

  lemma FirstCall(trace: seq<State>, steps: seq<Step>, n: nat, pid: nat, status: int)
    requires IsRun(trace, steps) && ExitCall(trace, steps, n, pid, status)
    ensures pid !in trace[n].calls
  {
    RunKeepsInv(trace, steps, n);
    assert HistoryOk(trace[n], steps[n].i) && StateOk(trace[n], steps[n].i);
  }

  /* What wait hands out is what the reaped child passed to exit, in the one call it made. */
  lemma ReapedStatusWasPassed(trace: seq<State>, steps: seq<Step>, n: nat) returns (m: nat)
    requires IsRun(trace, steps) && n < |steps| && steps[n].WaitReap?
    ensures var pid := trace[n].procs[trace[n].procs[steps[n].i].pc.k].pid;
      && pid in trace[n + 1].reaps && m < n && ExitCall(trace, steps, m, pid, trace[n + 1].reaps[pid].status)
      && forall j: nat, st :: ExitCall(trace, steps, j, pid, st) ==> j == m
  {
    ReapedOnceByParent(trace, steps, n);
    RunKeepsInv(trace, steps, n);
    var s := trace[n];
    var k := s.procs[steps[n].i].pc.k;
    var pid := s.procs[k].pid;
    assert HistoryOk(s, k);
    m := CallMade(trace, steps, n, pid);
    forall j: nat, st | ExitCall(trace, steps, j, pid, st)
      ensures j == m
    {
      if j < m {
        OneExitCall(trace, steps, j, m, pid, st, s.calls[pid]);
      } else if m < j {
        OneExitCall(trace, steps, m, j, pid, s.calls[pid], st);
      }
    }
  }

  /* wait returns -1 exactly if the caller has no children or has been killed; it sleeps exactly if it
     has children, none of them a zombie, and has not been killed. */
  lemma WaitDecides(trace: seq<State>, steps: seq<Step>, n: nat)
    requires IsRun(trace, steps) && n < |steps| && (steps[n].WaitGiveUp? || steps[n].WaitSleep?)
    ensures var s, i := trace[n], steps[n].i;
      && i < |s.procs|
      && (steps[n].WaitGiveUp? <==> s.procs[i].killed || !exists k: Slot :: ChildOf(s, k, i))
      && (steps[n].WaitSleep? ==> forall k: Slot :: ChildOf(s, k, i) ==> s.procs[k].state != ZOMBIE)
  {
    RunKeepsInv(trace, steps, n);
    var s, i := trace[n], steps[n].i;
    assert KidsOk(s, i);
    forall k: Slot | ChildOf(s, k, i)
      ensures s.procs[i].pc.kids && s.procs[k].state != ZOMBIE
    {
      assert PairOk(s, i, k);
    }
  }

  /* exit is called at most once for a pid, so its status never changes afterwards. */
  lemma ExitsOnce(trace: seq<State>, steps: seq<Step>, n: nat)
    requires IsRun(trace, steps) && n < |steps| && steps[n].ExitZombie?
    ensures trace[n].procs[steps[n].i].pid !in trace[n].exits
  {
    RunKeepsInv(trace, steps, n);
    assert StateOk(trace[n], steps[n].i) && HistoryOk(trace[n], steps[n].i);
  }

  /* No lost wakeup in wait: whenever wait_lock is free, a process asleep in wait, or on its way
     there without the lock, has no zombie child. */
  lemma NoZombieMissed(trace: seq<State>, steps: seq<Step>, n: nat, i: Slot, k: Slot)
    requires IsRun(trace, steps) && n <= |steps| && i < |trace[n].procs| && k < |trace[n].procs|
    requires trace[n].waitLock == None && Dozing(trace[n].procs[i]) && trace[n].procs[k].parent == Some(i)
    ensures trace[n].procs[k].state != ZOMBIE
  {
    RunKeepsInv(trace, steps, n);
    assert PairOk(trace[n], i, k);
  }
}
