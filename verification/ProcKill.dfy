/** What a process's killed flag tells (kernel/proc.c:147-170, 585-605). */
module ProcKill {
  import opened Blocks
  import opened ProcMachine
  import opened ProcSafety
  import opened ProcRuns

  // The step returns entry i to the free ones.
  predicate Frees(s: State, step: Step, i: Slot) {
    && step.i < |s.procs|
    && var pc := s.procs[step.i].pc;
      (step.WaitReap? && pc.WaitHas? && pc.k == i) || (step.ForkFail? && pc.ForkHold? && pc.np == i)
  }

  predicate KilledAfter(s: State, step: Step, i: Slot)
    requires i < |s.procs|
  {
    if Frees(s, step, i) then false else step == Kill(i) || s.procs[i].killed
  }

  lemma KilledByFork(s: State, step: Step, s': State, i: Slot)
    requires Inv(s) && Next(s, step, s') && i < |s.procs| && IsForkStep(step)
    ensures i < |s'.procs| && s'.procs[i].killed == KilledAfter(s, step, i)
  {
    assert FamilyOk(s, step.i);
  }

  lemma KilledByExit(s: State, step: Step, s': State, i: Slot)
    requires Next(s, step, s') && i < |s.procs| && (IsReparentStep(step) || IsExitStep(step))
    ensures i < |s'.procs| && s'.procs[i].killed == KilledAfter(s, step, i)
  {
  }

  lemma KilledByWait(s: State, step: Step, s': State, i: Slot)
    requires Inv(s) && Next(s, step, s') && i < |s.procs| && IsWaitStep(step)
    ensures i < |s'.procs| && s'.procs[i].killed == KilledAfter(s, step, i)
  {
    assert FamilyOk(s, step.i);
  }

  lemma KilledByRest(s: State, step: Step, s': State, i: Slot)
    requires Next(s, step, s') && i < |s.procs| && !IsForkStep(step) && !IsReparentStep(step) && !IsExitStep(step) && !IsWaitStep(step)
    ensures i < |s'.procs| && s'.procs[i].killed == KilledAfter(s, step, i)
  {
  }

  lemma KilledStep(s: State, step: Step, s': State, i: Slot)
    requires Inv(s) && Next(s, step, s') && i < |s.procs|
    ensures i < |s'.procs| && s'.procs[i].killed == KilledAfter(s, step, i)
  {
    hide Next, Inv;
    if IsForkStep(step) {
      KilledByFork(s, step, s', i);
    } else if IsReparentStep(step) || IsExitStep(step) {
      KilledByExit(s, step, s', i);
    } else if IsWaitStep(step) {
      KilledByWait(s, step, s', i);
    } else {
      KilledByRest(s, step, s', i);
    }
  }

  // kill hit entry i at step m, and the entry has not been freed since.
  ghost predicate KilledAt(trace: seq<State>, steps: seq<Step>, m: nat, n: nat, i: Slot) {
    && m < n <= |steps| && |trace| == |steps| + 1 && steps[m] == Kill(i)
    && forall j :: m < j < n ==> !Frees(trace[j], steps[j], i)
  }

  ghost predicate KilledBefore(trace: seq<State>, steps: seq<Step>, n: nat, i: Slot) {
    exists m :: KilledAt(trace, steps, m, n, i)
  }

  lemma KilledOneLater(trace: seq<State>, steps: seq<Step>, n: nat, i: Slot)
    requires n < |steps| && |trace| == |steps| + 1
    ensures KilledBefore(trace, steps, n + 1, i) <==>
      steps[n] == Kill(i) || (!Frees(trace[n], steps[n], i) && KilledBefore(trace, steps, n, i))
  {
    hide Frees;
    var later := n + 1;
    if m: nat :| KilledAt(trace, steps, m, later, i) {
      assert m < n ==> KilledAt(trace, steps, m, n, i);
    }
    if steps[n] == Kill(i) {
      assert KilledAt(trace, steps, n, n + 1, i);
    } else if !Frees(trace[n], steps[n], i) {
      if m: nat :| KilledAt(trace, steps, m, n, i) {
        assert KilledAt(trace, steps, m, n + 1, i);
      }
    }
  }

  /* A process is marked as killed exactly if kill has hit its entry since the entry was last freed. */
  lemma {:induction false} KilledIff(trace: seq<State>, steps: seq<Step>, n: nat, i: Slot)
    requires IsRun(trace, steps) && n <= |steps| && i < |trace[0].procs|
    ensures i < |trace[n].procs| && (trace[n].procs[i].killed <==> KilledBefore(trace, steps, n, i))
  {
    hide Next, Inv, KilledBefore, Frees;
    if n == 0 {
      NotYet(trace, steps, i);
    } else {
      KilledIff(trace, steps, n - 1, i);
      RunKeepsInv(trace, steps, n - 1);
      KilledStep(trace[n - 1], steps[n - 1], trace[n], i);
      KilledOneLater(trace, steps, n - 1, i);
      if steps[n - 1].Kill? { KillFreesNobody(trace[n - 1], steps[n - 1], i); }
    }
  }

  lemma NotYet(trace: seq<State>, steps: seq<Step>, i: Slot)
    requires IsRun(trace, steps) && i < |trace[0].procs|
    ensures !trace[0].procs[i].killed && !KilledBefore(trace, steps, 0, i)
  {
  }

  lemma KillFreesNobody(s: State, step: Step, i: Slot)
    requires step.Kill?
    ensures !Frees(s, step, i)
  {
  }

  /* kill leaves nobody asleep. */
  lemma KillWakes(trace: seq<State>, steps: seq<Step>, n: nat)
    requires IsRun(trace, steps) && n < |steps| && steps[n].Kill?
    ensures var p, p' := trace[n].procs[steps[n].i], trace[n + 1].procs[steps[n].i];
      p'.killed && p'.pid == p.pid && p'.state == if p.state == SLEEPING then RUNNABLE else p.state
  {
  }

  // kill(pid) has found the entry it looks for.
  predicate KillsPid(trace: seq<State>, steps: seq<Step>, m: nat, pid: nat) {
    m < |steps| && m < |trace| && steps[m].Kill? && steps[m].i < |trace[m].procs| && trace[m].procs[steps[m].i].pid == pid
  }

  // The run of KillZeroHitsTheNextChild, state by state.
  function Zeroth(n: nat): State
    requires n <= 4
  {
    var init := FREE.(pid := 1);
    var marked := FREE.(killed := true);
    match n
    case 0 => State([init.(state := RUNNABLE), FREE], [None], None, 2, map[], map[], map[])
    case 1 => State([init.(state := RUNNABLE), marked], [None], None, 2, map[], map[], map[])
    case 2 => State([init.(state := RUNNING, own := Some(ByProc(INIT)), pc := Resume(User)), marked], [Some(INIT)], None, 2, map[], map[], map[])
    case 3 => State([init.(state := RUNNING, pc := User), marked], [Some(INIT)], None, 2, map[], map[], map[])
    case 4 => State([init.(state := RUNNING, pc := ForkHold(1)), marked.(state := USED, pid := 2, own := Some(ByProc(INIT)), maker := Some(INIT))],
                    [Some(INIT)], None, 3, map[], map[], map[])
  }

  lemma ZerothBoots()
    ensures Zeroth(0) == Boot(2, 1)
  {
    var s, b := Zeroth(0), Boot(2, 1);
    assert s.procs[0] == b.procs[0] && s.procs[1] == b.procs[1];
    assert s.procs == b.procs && s.cpus == b.cpus;
  }

  lemma ZerothKills()
    ensures Next(Zeroth(0), Kill(1), Zeroth(1))
  {
    assert KillStep(Zeroth(0), Zeroth(1), 1);
  }

  lemma ZerothDispatches()
    ensures Next(Zeroth(1), Dispatch(INIT, 0), Zeroth(2))
  {
    assert DispatchStep(Zeroth(1), Zeroth(2), INIT, 0);
  }

  lemma ZerothContinues()
    ensures Next(Zeroth(2), Continue(INIT), Zeroth(3))
  {
    assert ContinueStep(Zeroth(2), Zeroth(3), INIT);
  }

  lemma ZerothForks()
    ensures Next(Zeroth(3), ForkAlloc(INIT, 1), Zeroth(4))
  {
    assert ForkAllocStep(Zeroth(3), Zeroth(4), INIT, 1);
  }

  /* That is not to say that kill was called with its pid: kill(0) finds the first unused entry, and the next
     process that fork puts there is marked from the start. */
  lemma KillZeroHitsTheNextChild() returns (trace: seq<State>, steps: seq<Step>)
    ensures IsRun(trace, steps) && |trace[|steps|].procs| == 2
    ensures var p := trace[|steps|].procs[1]; p.killed && p.state != UNUSED && forall m :: !KillsPid(trace, steps, m, p.pid)
  {
    hide Next, Boot;
    ZerothBoots();
    ZerothKills();
    ZerothDispatches();
    ZerothContinues();
    ZerothForks();
    trace := [Zeroth(0), Zeroth(1), Zeroth(2), Zeroth(3), Zeroth(4)];
    steps := [Kill(1), Dispatch(INIT, 0), Continue(INIT), ForkAlloc(INIT, 1)];
    assert trace[0] == Boot(2, 1) && 2 > 0;
  }
}
