/** What the steps of kernel/proc.c add up to: a process that yields or sleeps comes back as it was, and
    fork, exit and wait together leave the table as it was and hand over the status. */
module ProcCycles {
  import opened Blocks
  import opened ProcMachine
  import opened ProcSafety

  // ---------- paths ----------

  ghost predicate IsPath(trace: seq<State>, steps: seq<Step>, s: State, s': State) {
    && |trace| == |steps| + 1 && trace[0] == s && trace[|steps|] == s'
    && (forall n {:trigger steps[n]} :: 0 <= n < |steps| ==> Next(trace[n], steps[n], trace[n + 1]))
  }

  // The machine can get from s to s'.
  ghost predicate Leads(s: State, s': State) {
    exists trace, steps :: IsPath(trace, steps, s, s')
  }

  lemma LeadsHere(s: State)
    ensures Leads(s, s)
  {
    assert IsPath([s], [], s, s);
  }

  lemma LeadsOn(s: State, s1: State, step: Step, s2: State)
    requires Leads(s, s1) && Next(s1, step, s2)
    ensures Leads(s, s2)
  {
    hide Next;
    var trace, steps :| IsPath(trace, steps, s, s1);
    assert IsPath(trace + [s2], steps + [step], s, s2);
  }

  // ---------- one process ----------

  function One(s: State, i: Slot, p: Proc): State
    requires i < |s.procs|
  {
    s.(procs := s.procs[i := p])
  }

  predicate IdleCpu(s: State, c: nat, d: nat) {
    c < |s.cpus| && d < |s.cpus| && (d == c || s.cpus[d] == None)
  }

  // Process i runs on CPU c, with its own lock free.
  predicate OnCpu(s: State, i: Slot, c: nat) {
    && i < |s.procs| && c < |s.cpus| && s.cpus[c] == Some(i)
    && s.procs[i].state == RUNNING && s.procs[i].own == None && !s.procs[i].waiting
  }

  lemma Yields(s: State, i: Slot)
    requires i < |s.procs| && Restable(s.procs[i].pc) && s.procs[i].own == None
    ensures Next(s, Yield(i), One(s, i, s.procs[i].(own := Some(ByProc(i)), state := RUNNABLE, pc := Sched(s.procs[i].pc))))
  {
  }

  lemma Dozes(s: State, i: Slot)
    requires i < |s.procs| && s.procs[i].pc.User? && s.procs[i].own == None
    ensures Next(s, DozeElsewhere(i), One(s, i, s.procs[i].(own := Some(ByProc(i)), state := SLEEPING, pc := Sched(User))))
  {
  }

  lemma Switches(s: State, i: Slot, p: Proc, c: nat)
    requires i < |s.procs| && c < |s.cpus| && s.cpus[c] == Some(i) && p.pc.Sched?
    ensures Next(One(s, i, p), SwitchOut(i, c), One(s.(cpus := s.cpus[c := None]), i, p.(own := Some(ByCpu(c)), pc := Off(p.pc.next))))
  {
  }

  lemma Releases(s: State, i: Slot, p: Proc, c: nat)
    requires i < |s.procs| && p.own == Some(ByCpu(c))
    ensures Next(One(s, i, p), CpuRelease(i, c), One(s, i, p.(own := None)))
  {
  }

  lemma Wakes(s: State, i: Slot, p: Proc)
    requires i < |s.procs| && p.state == SLEEPING && !p.waiting && p.own == None
    ensures Next(One(s, i, p), WakeElsewhere(i), One(s, i, p.(state := RUNNABLE)))
  {
  }

  lemma Dispatches(s: State, i: Slot, p: Proc, d: nat)
    requires i < |s.procs| && d < |s.cpus| && s.cpus[d] == None && p.state == RUNNABLE && p.own == None
    ensures Next(One(s, i, p), Dispatch(i, d),
              One(s.(cpus := s.cpus[d := Some(i)]), i, p.(own := Some(ByProc(i)), state := RUNNING, pc := Resume(Context(p.pc)))))
  {
  }

  lemma Continues(s: State, i: Slot, p: Proc)
    requires i < |s.procs| && p.pc.Resume?
    ensures Next(One(s, i, p), Continue(i), One(s, i, p.(own := None, waiting := false, pc := p.pc.next)))
  {
  }

  /* A process that yields the CPU can be given it back, or any idle one, and then everything is as it was. */
  lemma YieldReturns(s: State, i: Slot, c: nat, d: nat) returns (trace: seq<State>)
    requires OnCpu(s, i, c) && Restable(s.procs[i].pc) && IdleCpu(s, c, d)
    ensures IsPath(trace, [Yield(i), SwitchOut(i, c), CpuRelease(i, c), Dispatch(i, d), Continue(i)], s,
                   s.(cpus := s.cpus[c := None][d := Some(i)]))
  {
    hide Next;
    var p, off := s.procs[i], s.(cpus := s.cpus[c := None]);
    var on := off.(cpus := off.cpus[d := Some(i)]);
    var p1 := p.(own := Some(ByProc(i)), state := RUNNABLE, pc := Sched(p.pc));
    var p2 := p1.(own := Some(ByCpu(c)), pc := Off(p.pc));
    var p3 := p2.(own := None);
    var p4 := p3.(own := Some(ByProc(i)), state := RUNNING, pc := Resume(p.pc));
    Yields(s, i);
    Switches(s, i, p1, c);
    Releases(off, i, p2, c);
    Dispatches(off, i, p3, d);
    Continues(on, i, p4);
    trace := [s, One(s, i, p1), One(off, i, p2), One(off, i, p3), One(on, i, p4), One(on, i, p)];
    assert s.procs[i := p] == s.procs;
  }

  /* So can one that sleeps, once it has been woken. */
  lemma SleepReturns(s: State, i: Slot, c: nat, d: nat) returns (trace: seq<State>)
    requires OnCpu(s, i, c) && s.procs[i].pc.User? && IdleCpu(s, c, d)
    ensures IsPath(trace, [DozeElsewhere(i), SwitchOut(i, c), CpuRelease(i, c), WakeElsewhere(i), Dispatch(i, d), Continue(i)], s,
                   s.(cpus := s.cpus[c := None][d := Some(i)]))
  {
    hide Next;
    var p, off := s.procs[i], s.(cpus := s.cpus[c := None]);
    var on := off.(cpus := off.cpus[d := Some(i)]);
    var p1 := p.(own := Some(ByProc(i)), state := SLEEPING, pc := Sched(User));
    var p2 := p1.(own := Some(ByCpu(c)), pc := Off(User));
    var p3 := p2.(own := None);
    var p4 := p3.(state := RUNNABLE);
    var p5 := p4.(own := Some(ByProc(i)), state := RUNNING, pc := Resume(User));
    Dozes(s, i);
    Switches(s, i, p1, c);
    Releases(off, i, p2, c);
    Wakes(off, i, p3);
    Dispatches(off, i, p4, d);
    Continues(on, i, p5);
    trace := [s, One(s, i, p1), One(off, i, p2), One(off, i, p3), One(off, i, p4), One(on, i, p5), One(on, i, p)];
    assert s.procs[i := p] == s.procs;
  }

  // ---------- a parent and its child ----------

  // s with two entries and wait_lock set.
  function Two(s: State, i: Slot, p: Proc, k: Slot, q: Proc, lock: Option<Slot>): State
    requires i < |s.procs| && k < |s.procs|
  {
    s.(procs := s.procs[i := p][k := q], waitLock := lock)
  }

  lemma Forks(s: State, i: Slot, p: Proc, k: Slot, s0: State) returns (s': State, q: Proc)
    requires i < |s.procs| && k < |s.procs| && i != k && p.pc.User? && s.procs[i] == p && s.procs[k] == FREE && s.waitLock == None
    requires Leads(s0, s)
    ensures q == FREE.(state := RUNNABLE, pid := s.nextpid, parent := Some(i), maker := Some(i))
    ensures s' == Two(s.(nextpid := s.nextpid + 1), i, p, k, q, None) && Leads(s0, s')
  {
    hide Leads;
    var u := s.(nextpid := s.nextpid + 1);
    var q1 := FREE.(state := USED, pid := s.nextpid, own := Some(ByProc(i)), maker := Some(i));
    var q2 := q1.(own := None);
    var q3 := q2.(parent := Some(i));
    q := q3.(state := RUNNABLE);
    var s1, s2, s3, s4 := Two(u, i, p.(pc := ForkHold(k)), k, q1, None), Two(u, i, p.(pc := ForkFree(k)), k, q2, None),
      Two(u, i, p.(pc := ForkAdopt(k)), k, q2, Some(i)), Two(u, i, p.(pc := ForkReady(k)), k, q3, None);
    s' := Two(u, i, p, k, q, None);
    assert ForkAllocStep(s, s1, i, k);
    LeadsOn(s0, s, ForkAlloc(i, k), s1);
    assert ForkUnlockStep(s1, s2, i);
    LeadsOn(s0, s1, ForkUnlock(i), s2);
    assert ForkTakeStep(s2, s3, i);
    LeadsOn(s0, s2, ForkTake(i), s3);
    assert ForkSetParentStep(s3, s4, i);
    LeadsOn(s0, s3, ForkSetParent(i), s4);
    assert ForkStartStep(s4, s', i);
    LeadsOn(s0, s4, ForkStart(i), s');
  }

  lemma ChildDispatched(s: State, i: Slot, p: Proc, k: Slot, q: Proc, d: nat)
    requires i < |s.procs| && k < |s.procs| && i != k && d < |s.cpus| && s.cpus[d] == None && q.state == RUNNABLE && q.own == None
    ensures Next(Two(s, i, p, k, q, None), Dispatch(k, d),
              Two(s.(cpus := s.cpus[d := Some(k)]), i, p, k, q.(own := Some(ByProc(k)), state := RUNNING, pc := Resume(Context(q.pc))), None))
  {
  }

  lemma ChildContinues(s: State, i: Slot, p: Proc, k: Slot, q: Proc)
    requires i < |s.procs| && k < |s.procs| && i != k && q.pc.Resume?
    ensures Next(Two(s, i, p, k, q, None), Continue(k), Two(s, i, p, k, q.(own := None, waiting := false, pc := q.pc.next), None))
  {
  }

  lemma Starts(s0: State, s: State, i: Slot, p: Proc, k: Slot, q: Proc, d: nat) returns (s': State)
    requires i < |s.procs| && k < |s.procs| && i != k && d < |s.cpus| && s.cpus[d] == None
    requires q.state == RUNNABLE && q.own == None && q.pc == Off(User) && !q.waiting && Leads(s0, Two(s, i, p, k, q, None))
    ensures s' == Two(s.(cpus := s.cpus[d := Some(k)]), i, p, k, q.(state := RUNNING, pc := User), None) && Leads(s0, s')
  {
    hide Leads, Next;
    var u := s.(cpus := s.cpus[d := Some(k)]);
    var s1, s2 := Two(s, i, p, k, q, None), Two(u, i, p, k, q.(own := Some(ByProc(k)), state := RUNNING, pc := Resume(User)), None);
    s' := Two(u, i, p, k, q.(state := RUNNING, pc := User), None);
    ChildDispatched(s, i, p, k, q, d);
    LeadsOn(s0, s1, Dispatch(k, d), s2);
    ChildContinues(u, i, p, k, q.(own := Some(ByProc(k)), state := RUNNING, pc := Resume(User)));
    LeadsOn(s0, s2, Continue(k), s');
  }

  // reparent goes through the table without finding a child.
  lemma {:induction false} FindsNoChild(s0: State, s: State, i: Slot, p: Proc, k: Slot, q: Proc, status: int, j: nat)
    requires i < |s.procs| && k < |s.procs| && i != k && j <= |s.procs| && p.parent != Some(k) && q.parent != Some(k)
    requires forall a :: 0 <= a < |s.procs| ==> s.procs[a].parent != Some(k)
    requires Leads(s0, Two(s, i, p, k, q.(pc := ExitScan(status, j)), Some(k)))
    ensures Leads(s0, Two(s, i, p, k, q.(pc := ExitScan(status, |s.procs|)), Some(k)))
    decreases |s.procs| - j
  {
    hide Leads;
    if j < |s.procs| {
      var s1, s2 := Two(s, i, p, k, q.(pc := ExitScan(status, j)), Some(k)), Two(s, i, p, k, q.(pc := ExitScan(status, j + 1)), Some(k));
      assert ExitPassStep(s1, s2, k);
      LeadsOn(s0, s1, ExitPass(k), s2);
      FindsNoChild(s0, s, i, p, k, q, status, j + 1);
    }
  }

  // exit up to the end of reparent.
  lemma ExitsTo(s0: State, s: State, i: Slot, p: Proc, k: Slot, q: Proc, status: int)
    requires i < |s.procs| && k < |s.procs| && i != k && k != INIT && p.parent != Some(k) && q.parent == Some(i)
    requires forall a :: 0 <= a < |s.procs| ==> s.procs[a].parent != Some(k)
    requires q.pc.User? && Leads(s0, Two(s, i, p, k, q, None))
    ensures Leads(s0, Two(s.(calls := s.calls[q.pid := status]), i, p, k, q.(pc := ExitTell(status)), Some(k)))
  {
    hide Leads;
    var u := s.(calls := s.calls[q.pid := status]);
    var n := |s.procs|;
    var s1, s2 := Two(s, i, p, k, q, None), Two(u, i, p, k, q.(pc := ExitWant(status)), None);
    assert ExitBeginStep(s1, s2, k, status);
    LeadsOn(s0, s1, ExitBegin(k, status), s2);
    var s3 := Two(u, i, p, k, q.(pc := ExitScan(status, 0)), Some(k));
    assert ExitTakeStep(s2, s3, k);
    LeadsOn(s0, s2, ExitTake(k), s3);
    FindsNoChild(s0, u, i, p, k, q, status, 0);
    var s4, s5 := Two(u, i, p, k, q.(pc := ExitScan(status, n)), Some(k)), Two(u, i, p, k, q.(pc := ExitTell(status)), Some(k));
    assert ExitEndStep(s4, s5, k);
    LeadsOn(s0, s4, ExitEnd(k), s5);
  }

  // The rest of exit, on CPU d.
  lemma BecomesZombie(s0: State, s: State, i: Slot, p: Proc, k: Slot, q: Proc, status: int, d: nat)
    requires i < |s.procs| && k < |s.procs| && i != k && d < |s.cpus| && s.cpus[d] == Some(k)
    requires p.own == None && p.state == RUNNING && q.own == None && q.parent == Some(i)
    requires Leads(s0, Two(s, i, p, k, q.(pc := ExitTell(status)), Some(k)))
    ensures Leads(s0, Two(s.(cpus := s.cpus[d := None], exits := s.exits[q.pid := status]), i, p, k,
                          q.(state := ZOMBIE, xstate := status, pc := Off(Dead)), None))
  {
    hide Leads;
    var u := s.(exits := s.exits[q.pid := status]);
    var z := q.(own := Some(ByProc(k)), xstate := status, state := ZOMBIE, pc := ExitDrop);
    TellsParent(s0, s, i, p, k, q, status);
    var s3, s4 := Two(s, i, p, k, q.(own := Some(ByProc(k)), pc := ExitMark(status)), Some(k)), Two(u, i, p, k, z, Some(k));
    assert ExitZombieStep(s3, s4, k);
    LeadsOn(s0, s3, ExitZombie(k), s4);
    var s5 := Two(u, i, p, k, z.(pc := Sched(Dead)), None);
    assert ExitReleaseStep(s4, s5, k);
    LeadsOn(s0, s4, ExitRelease(k), s5);
    LeavesCpu(s0, u, i, p, k, z.(pc := Sched(Dead)), d);
  }

  lemma TellsParent(s0: State, s: State, i: Slot, p: Proc, k: Slot, q: Proc, status: int)
    requires i < |s.procs| && k < |s.procs| && i != k && p.own == None && p.state == RUNNING && q.own == None && q.parent == Some(i)
    requires Leads(s0, Two(s, i, p, k, q.(pc := ExitTell(status)), Some(k)))
    ensures Leads(s0, Two(s, i, p, k, q.(own := Some(ByProc(k)), pc := ExitMark(status)), Some(k)))
  {
    hide Leads;
    var s1, s2 := Two(s, i, p, k, q.(pc := ExitTell(status)), Some(k)), Two(s, i, p, k, q.(pc := ExitSelf(status)), Some(k));
    assert ExitTellParentStep(s1, s2, k);
    LeadsOn(s0, s1, ExitTellParent(k), s2);
    var s3 := Two(s, i, p, k, q.(own := Some(ByProc(k)), pc := ExitMark(status)), Some(k));
    assert ExitTakeSelfStep(s2, s3, k);
    LeadsOn(s0, s2, ExitTakeSelf(k), s3);
  }

  lemma ChildSwitched(s: State, i: Slot, p: Proc, k: Slot, q: Proc, d: nat)
    requires i < |s.procs| && k < |s.procs| && i != k && d < |s.cpus| && s.cpus[d] == Some(k) && q.pc.Sched?
    ensures Next(Two(s, i, p, k, q, None), SwitchOut(k, d),
              Two(s.(cpus := s.cpus[d := None]), i, p, k, q.(own := Some(ByCpu(d)), pc := Off(q.pc.next)), None))
  {
  }

  lemma ChildReleased(s: State, i: Slot, p: Proc, k: Slot, q: Proc, d: nat)
    requires i < |s.procs| && k < |s.procs| && i != k && q.own == Some(ByCpu(d))
    ensures Next(Two(s, i, p, k, q, None), CpuRelease(k, d), Two(s, i, p, k, q.(own := None), None))
  {
  }

  lemma LeavesCpu(s0: State, s: State, i: Slot, p: Proc, k: Slot, q: Proc, d: nat)
    requires i < |s.procs| && k < |s.procs| && i != k && d < |s.cpus| && s.cpus[d] == Some(k) && q.pc.Sched?
    requires Leads(s0, Two(s, i, p, k, q, None))
    ensures Leads(s0, Two(s.(cpus := s.cpus[d := None]), i, p, k, q.(own := None, pc := Off(q.pc.next)), None))
  {
    hide Leads, Next;
    var u := s.(cpus := s.cpus[d := None]);
    var q1 := q.(own := Some(ByCpu(d)), pc := Off(q.pc.next));
    var s1, s2, s3 := Two(s, i, p, k, q, None), Two(u, i, p, k, q1, None), Two(u, i, p, k, q1.(own := None), None);
    ChildSwitched(s, i, p, k, q, d);
    LeadsOn(s0, s1, SwitchOut(k, d), s2);
    ChildReleased(u, i, p, k, q1, d);
    LeadsOn(s0, s2, CpuRelease(k, d), s3);
  }

  // wait passes over an entry that is not a zombie child.
  lemma PassesOver(s0: State, s: State, i: Slot, p: Proc, k: Slot, q: Proc, kids: bool, j: nat) returns (more: bool)
    requires i < |s.procs| && k < |s.procs| && i != k && j < |s.procs| && j != k && p.parent != Some(i)
    requires s.procs[j].parent == Some(i) ==> s.procs[j].state != ZOMBIE && s.procs[j].own == None
    requires Leads(s0, Two(s, i, p.(pc := WaitScan(kids, j)), k, q, Some(i)))
    ensures Leads(s0, Two(s, i, p.(pc := WaitScan(more, j + 1)), k, q, Some(i)))
  {
    hide Leads, Two;
    if j != i && s.procs[j].parent == Some(i) {
      more := true;
      SkipsChild(s0, s, i, p, k, q, kids, j);
    } else {
      more := kids;
      PassesStranger(s0, s, i, p, k, q, kids, j);
    }
  }

  lemma Looks(s: State, i: Slot, p: Proc, k: Slot, q: Proc, kids: bool, j: nat)
    requires i < |s.procs| && k < |s.procs| && i != k && j < |s.procs| && j != k && j != i
    requires s.procs[j].parent == Some(i) && s.procs[j].own == None
    ensures Next(Two(s, i, p.(pc := WaitScan(kids, j)), k, q, Some(i)), WaitLook(i),
              Two(s.(procs := s.procs[j := s.procs[j].(own := Some(ByProc(i)))]), i, p.(pc := WaitHas(true, j)), k, q, Some(i)))
  {
  }

  lemma Skips(s: State, i: Slot, p: Proc, k: Slot, q: Proc, j: nat)
    requires i < |s.procs| && k < |s.procs| && i != k && j < |s.procs| && j != k && j != i
    requires s.procs[j].state != ZOMBIE && s.procs[j].own == None
    ensures Next(Two(s.(procs := s.procs[j := s.procs[j].(own := Some(ByProc(i)))]), i, p.(pc := WaitHas(true, j)), k, q, Some(i)), WaitSkip(i),
              Two(s, i, p.(pc := WaitScan(true, j + 1)), k, q, Some(i)))
  {
    var c := s.procs[j];
    assert c.(own := Some(ByProc(i))).(own := None) == c;
  }

  lemma SkipsChild(s0: State, s: State, i: Slot, p: Proc, k: Slot, q: Proc, kids: bool, j: nat)
    requires i < |s.procs| && k < |s.procs| && i != k && j < |s.procs| && j != k && j != i
    requires s.procs[j].parent == Some(i) && s.procs[j].state != ZOMBIE && s.procs[j].own == None
    requires Leads(s0, Two(s, i, p.(pc := WaitScan(kids, j)), k, q, Some(i)))
    ensures Leads(s0, Two(s, i, p.(pc := WaitScan(true, j + 1)), k, q, Some(i)))
  {
    hide Leads, Next;
    var c := s.procs[j];
    var s1 := Two(s, i, p.(pc := WaitScan(kids, j)), k, q, Some(i));
    var s2 := Two(s.(procs := s.procs[j := c.(own := Some(ByProc(i)))]), i, p.(pc := WaitHas(true, j)), k, q, Some(i));
    var s3 := Two(s, i, p.(pc := WaitScan(true, j + 1)), k, q, Some(i));
    Looks(s, i, p, k, q, kids, j);
    LeadsOn(s0, s1, WaitLook(i), s2);
    Skips(s, i, p, k, q, j);
    LeadsOn(s0, s2, WaitSkip(i), s3);
  }

  lemma PassesStranger(s0: State, s: State, i: Slot, p: Proc, k: Slot, q: Proc, kids: bool, j: nat)
    requires i < |s.procs| && k < |s.procs| && i != k && j < |s.procs| && j != k
    requires if j == i then p.parent != Some(i) else s.procs[j].parent != Some(i)
    requires Leads(s0, Two(s, i, p.(pc := WaitScan(kids, j)), k, q, Some(i)))
    ensures Leads(s0, Two(s, i, p.(pc := WaitScan(kids, j + 1)), k, q, Some(i)))
  {
    hide Leads;
    var s1, s2 := Two(s, i, p.(pc := WaitScan(kids, j)), k, q, Some(i)), Two(s, i, p.(pc := WaitScan(kids, j + 1)), k, q, Some(i));
    assert WaitPassStep(s1, s2, i);
    LeadsOn(s0, s1, WaitPass(i), s2);
  }

  // No child of i is a zombie, and all their locks are free.
  ghost predicate NoZombies(s: State, i: Slot) {
    forall j :: 0 <= j < |s.procs| && s.procs[j].parent == Some(i) ==> s.procs[j].state != ZOMBIE && s.procs[j].own == None
  }

  lemma {:induction false} ReachesChild(s0: State, s: State, i: Slot, p: Proc, k: Slot, q: Proc, kids: bool, j: nat) returns (more: bool)
    requires i < |s.procs| && k < |s.procs| && i != k && j <= k && p.parent != Some(i) && NoZombies(s, i)
    requires Leads(s0, Two(s, i, p.(pc := WaitScan(kids, j)), k, q, Some(i)))
    ensures Leads(s0, Two(s, i, p.(pc := WaitScan(more, k)), k, q, Some(i)))
    decreases k - j
  {
    hide Leads, NoZombies, Two;
    more := kids;
    if j < k {
      if s.procs[j].parent == Some(i) { NotZombie(s, i, j); }
      more := PassesOver(s0, s, i, p, k, q, kids, j);
      more := ReachesChild(s0, s, i, p, k, q, more, j + 1);
    }
  }

  lemma NotZombie(s: State, i: Slot, j: Slot)
    requires NoZombies(s, i) && j < |s.procs| && s.procs[j].parent == Some(i)
    ensures s.procs[j].state != ZOMBIE && s.procs[j].own == None
  {
  }

  lemma WaitsFor(s0: State, s: State, i: Slot, p: Proc, k: Slot, q: Proc)
    requires i < |s.procs| && k < |s.procs| && i != k && p.pc.User? && p.parent != Some(i) && NoZombies(s, i)
    requires q.state == ZOMBIE && q.own == None && q.parent == Some(i) && Leads(s0, Two(s, i, p, k, q, None))
    ensures Leads(s0, Two(s.(reaps := s.reaps[q.pid := Reaped(p.pid, q.xstate)]), i, p, k, FREE, None))
  {
    hide Leads, NoZombies, Two;
    BeginsWait(s0, s, i, p, k, q);
    var kids := ReachesChild(s0, s, i, p, k, q, false, 0);
    Reaps(s0, s, i, p, k, q, kids);
  }

  lemma BeginsWait(s0: State, s: State, i: Slot, p: Proc, k: Slot, q: Proc)
    requires i < |s.procs| && k < |s.procs| && i != k && p.pc.User? && Leads(s0, Two(s, i, p, k, q, None))
    ensures Leads(s0, Two(s, i, p.(pc := WaitScan(false, 0)), k, q, Some(i)))
  {
    hide Leads;
    var s1, s2 := Two(s, i, p, k, q, None), Two(s, i, p.(pc := WaitWant), k, q, None);
    assert WaitBeginStep(s1, s2, i);
    LeadsOn(s0, s1, WaitBegin(i), s2);
    var s3 := Two(s, i, p.(pc := WaitScan(false, 0)), k, q, Some(i));
    assert WaitTakeStep(s2, s3, i);
    LeadsOn(s0, s2, WaitTake(i), s3);
  }

  lemma LooksAtZombie(s: State, i: Slot, p: Proc, k: Slot, q: Proc, kids: bool)
    requires i < |s.procs| && k < |s.procs| && i != k && q.own == None && q.parent == Some(i)
    ensures Next(Two(s, i, p.(pc := WaitScan(kids, k)), k, q, Some(i)), WaitLook(i),
              Two(s, i, p.(pc := WaitHas(true, k)), k, q.(own := Some(ByProc(i))), Some(i)))
  {
  }

  lemma ReapsZombie(s: State, i: Slot, p: Proc, k: Slot, q: Proc)
    requires i < |s.procs| && k < |s.procs| && i != k && p.pc.User? && q.state == ZOMBIE
    ensures Next(Two(s, i, p.(pc := WaitHas(true, k)), k, q.(own := Some(ByProc(i))), Some(i)), WaitReap(i),
              Two(s.(reaps := s.reaps[q.pid := Reaped(p.pid, q.xstate)]), i, p, k, FREE, None))
  {
  }

  lemma Reaps(s0: State, s: State, i: Slot, p: Proc, k: Slot, q: Proc, kids: bool)
    requires i < |s.procs| && k < |s.procs| && i != k && p.pc.User? && q.state == ZOMBIE && q.own == None && q.parent == Some(i)
    requires Leads(s0, Two(s, i, p.(pc := WaitScan(kids, k)), k, q, Some(i)))
    ensures Leads(s0, Two(s.(reaps := s.reaps[q.pid := Reaped(p.pid, q.xstate)]), i, p, k, FREE, None))
  {
    hide Leads, Next;
    var s4 := Two(s, i, p.(pc := WaitScan(kids, k)), k, q, Some(i));
    var s5 := Two(s, i, p.(pc := WaitHas(true, k)), k, q.(own := Some(ByProc(i))), Some(i));
    LooksAtZombie(s, i, p, k, q, kids);
    LeadsOn(s0, s4, WaitLook(i), s5);
    var s6 := Two(s.(reaps := s.reaps[q.pid := Reaped(p.pid, q.xstate)]), i, p, k, FREE, None);
    ReapsZombie(s, i, p, k, q);
    LeadsOn(s0, s5, WaitReap(i), s6);
  }

  // Nothing is in the way of a fork by i into entry k, with CPU d for the child.
  ghost predicate CanFork(s: State, i: Slot, k: Slot, d: nat) {
    && i < |s.procs| && k < |s.procs| && s.procs[i].pc.User? && s.procs[i].own == None && s.procs[k] == FREE
    && s.waitLock == None && NoZombies(s, i) && d < |s.cpus| && s.cpus[d] == None
  }

  // What is left of a child that has been forked, has exited and has been waited for.
  function Records(s: State, i: Slot, status: int): State
    requires i < |s.procs|
  {
    s.(nextpid := s.nextpid + 1, calls := s.calls[s.nextpid := status], exits := s.exits[s.nextpid := status],
       reaps := s.reaps[s.nextpid := Reaped(s.procs[i].pid, status)])
  }

  lemma Bystanders(s: State, i: Slot, k: Slot)
    requires Inv(s) && i < |s.procs| && k < |s.procs| && s.procs[i].pc.User? && s.procs[k] == FREE
    ensures i != k && k != INIT && s.procs[i].parent != Some(i) && s.procs[i].state == RUNNING
    ensures forall a :: 0 <= a < |s.procs| ==> s.procs[a].parent != Some(k)
  {
    assert StateOk(s, i) && FamilyOk(s, i) && FamilyOk(s, k);
    forall a | 0 <= a < |s.procs|
      ensures s.procs[a].parent != Some(k)
    {
      assert FamilyOk(s, a);
    }
  }

  /* From every reachable state in which nothing is in the way, a process can fork a child, the child can
     exit with any status, and the parent's wait returns the child's pid and that status; everything else,
     the whole table included, is then as it was. */
  lemma LifeCycle(s: State, i: Slot, k: Slot, d: nat, status: int)
    requires Inv(s) && CanFork(s, i, k, d)
    ensures Leads(s, Records(s, i, status))
  {
    hide Inv, Leads, NoZombies;
    var p := s.procs[i];
    Bystanders(s, i, k);
    LeadsHere(s);
    var s1, q := Forks(s, i, p, k, s);
    var u := s.(nextpid := s.nextpid + 1);
    var s2 := Starts(s, u, i, p, k, q, d);
    var v := u.(cpus := u.cpus[d := Some(k)]);
    var r := q.(state := RUNNING, pc := User);
    ExitsTo(s, v, i, p, k, r, status);
    var w := v.(calls := v.calls[q.pid := status]);
    BecomesZombie(s, w, i, p, k, r, status, d);
    var x := w.(cpus := w.cpus[d := None], exits := w.exits[q.pid := status]);
    var z := r.(state := ZOMBIE, xstate := status, pc := Off(Dead));
    SameKids(s, x, i);
    WaitsFor(s, x, i, p, k, z);
    assert s.procs[i := p][k := FREE] == s.procs;
    assert w.cpus[d := None] == s.cpus;
  }

  lemma SameKids(s: State, s': State, i: Slot)
    requires NoZombies(s, i) && s'.procs == s.procs
    ensures NoZombies(s', i)
  {
  }
}
