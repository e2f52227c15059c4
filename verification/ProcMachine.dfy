/** The life of processes (kernel/proc.c): fork, exit, wait, the scheduler, sleep and wakeup as
    one machine over any number of processes and CPUs.

    A step is one lock operation or the work done between two of them; steps of different
    processes and CPUs interleave freely.  Entry 0 of the table is the init process. */
module ProcMachine {
  import opened Blocks

  type Slot = nat      // index in the process table

  const INIT: Slot := 0

  datatype ProcState = UNUSED | USED | SLEEPING | RUNNABLE | RUNNING | ZOMBIE

  // Where a process's kernel thread stands.
  datatype Pc =
    | User                                // in user space, or in the kernel without the locks below
    | Dead                                // exit never returns
    | ForkHold(np: Slot)                  // fork: allocproc has returned np with its lock held
    | ForkFree(np: Slot)                  // ... np's lock released, about to take wait_lock
    | ForkAdopt(np: Slot)                 // ... holds wait_lock, about to set np->parent
    | ForkReady(np: Slot)                 // ... about to make np RUNNABLE
    | ExitWant(status: int)               // exit: about to take wait_lock
    | ExitScan(status: int, k: nat)       // reparent is at entry k
    | ExitPoke(status: int, k: nat)       // ... has given entry k to init, about to wake init
    | ExitTell(status: int)               // about to wake the parent
    | ExitSelf(status: int)               // about to take its own lock
    | ExitMark(status: int)               // holds wait_lock and its own lock
    | ExitDrop                            // ZOMBIE, about to release wait_lock
    | WaitWant                            // wait: about to take wait_lock
    | WaitScan(kids: bool, k: nat)        // at entry k
    | WaitHas(kids: bool, k: nat)         // ... holds the lock of its child k
    | WaitSelf                            // sleep: about to take its own lock
    | WaitDrop                            // ... holds both, about to release wait_lock
    | WaitDoze                            // ... about to become SLEEPING
    | Sched(next: Pc)                     // holds its own lock, about to switch to the scheduler
    | Off(next: Pc)                       // on no CPU
    | Resume(next: Pc)                    // dispatched, still holding its own lock

  datatype Holder = ByProc(i: Slot) | ByCpu(c: nat)

  datatype Proc = Proc(
    state: ProcState,
    pid: nat,
    parent: Option<Slot>,
    xstate: int,
    waiting: bool,            // chan is the process itself: asleep in wait
    killed: bool,
    own: Option<Holder>,      // who holds its lock
    maker: Option<Slot>,      // who allocated it
    pc: Pc)

  datatype Reaped = Reaped(parent: nat, status: int)

  datatype State = State(
    procs: seq<Proc>,
    cpus: seq<Option<Slot>>,       // c->proc
    waitLock: Option<Slot>,
    nextpid: nat,
    calls: map<nat, int>,          // pid and status of every call of exit so far
    exits: map<nat, int>,          // pid and status of every process that has become a zombie
    reaps: map<nat, Reaped>)       // what wait has returned, by child pid

  const FREE := Proc(UNUSED, 0, None, 0, false, false, None, None, Off(User))

  // A preempted or sleeping process resumes at a point where it holds none of the locks modelled here.
  predicate Restable(pc: Pc) {
    pc.User? || pc.ForkFree? || pc.ForkReady? || pc.ExitWant? || pc.WaitWant?
  }

  datatype Step =
    | ForkAlloc(i: Slot, np: Slot)
    | ForkFail(i: Slot)
    | ForkUnlock(i: Slot)
    | ForkTake(i: Slot)
    | ForkSetParent(i: Slot)
    | ForkStart(i: Slot)
    | ExitBegin(i: Slot, status: int)
    | ExitTake(i: Slot)
    | ExitGive(i: Slot)       // reparent finds a child
    | ExitPass(i: Slot)       // ... or another process
    | ExitEnd(i: Slot)        // ... or the end of the table
    | ExitPokeInit(i: Slot)
    | ExitTellParent(i: Slot)
    | ExitTakeSelf(i: Slot)
    | ExitZombie(i: Slot)
    | ExitRelease(i: Slot)
    | WaitBegin(i: Slot)
    | WaitTake(i: Slot)
    | WaitLook(i: Slot)       // a child: about to look at its state
    | WaitPass(i: Slot)
    | WaitReap(i: Slot)
    | WaitFault(i: Slot)      // copyout of the status fails
    | WaitSkip(i: Slot)
    | WaitGiveUp(i: Slot)     // wait returns -1
    | WaitSleep(i: Slot)
    | WaitTakeSelf(i: Slot)
    | WaitRelease(i: Slot)
    | WaitDozeOff(i: Slot)
    | DozeElsewhere(i: Slot)  // sleep on some other channel
    | WakeElsewhere(i: Slot)
    | Kill(i: Slot)
    | Yield(i: Slot)
    | SwitchOut(i: Slot, c: nat)
    | CpuRelease(i: Slot, c: nat)
    | Dispatch(i: Slot, c: nat)
    | Continue(i: Slot)

  // Only the entries i and o of the table may differ.
  ghost predicate Changes(s: State, s': State, i: Slot, o: Slot) {
    && i < |s.procs| && o < |s.procs| && |s'.procs| == |s.procs|
    && (forall j :: 0 <= j < |s.procs| && j != i && j != o ==> s'.procs[j] == s.procs[j])
  }

  // Process i becomes p, entry o, if it is another one, becomes q, and wait_lock becomes lock.
  ghost predicate Entries(s: State, s': State, i: Slot, p: Proc, o: Slot, q: Proc, lock: Option<Slot>) {
    Changes(s, s', i, o) && s'.procs[i] == p && (o != i ==> s'.procs[o] == q) && s'.waitLock == lock
  }

  predicate SameRecords(s: State, s': State) {
    s'.calls == s.calls && s'.exits == s.exits && s'.reaps == s.reaps
  }

  // ... and nothing else happens.
  ghost predicate Moves(s: State, s': State, i: Slot, p: Proc, o: Slot, q: Proc, lock: Option<Slot>) {
    Entries(s, s', i, p, o, q, lock) && s'.cpus == s.cpus && s'.nextpid == s.nextpid && SameRecords(s, s')
  }

  // Process i alone moves.
  ghost predicate MovesAlone(s: State, s': State, i: Slot, p: Proc, lock: Option<Slot>) {
    Moves(s, s', i, p, i, p, lock)
  }

  // wakeup(p) for a process p that only p itself sleeps on.
  function Poked(p: Proc): Proc {
    if p.state == SLEEPING && p.waiting then p.(state := RUNNABLE) else p
  }

  // The point at which the scheduler's swtch continues a process.
  function Context(pc: Pc): Pc {
    if pc.Off? then pc.next else pc
  }

  // ---------- steps of fork ----------

  ghost predicate ForkAllocStep(s: State, s': State, i: Slot, np: Slot) {
    && i < |s.procs|
    && var p := s.procs[i];
      && p.pc.User? && np < |s.procs| && s.procs[np].state == UNUSED && s.procs[np].own == None
      && Entries(s, s', i, p.(pc := ForkHold(np)),
           np, s.procs[np].(state := USED, pid := s.nextpid, own := Some(ByProc(i)), maker := Some(i)), s.waitLock)
      && s'.nextpid == s.nextpid + 1 && s'.cpus == s.cpus && SameRecords(s, s')
  }

  ghost predicate ForkFailStep(s: State, s': State, i: Slot) {
    && i < |s.procs|
    && var p := s.procs[i];
      && p.pc.ForkHold? && p.pc.np < |s.procs|
      && Moves(s, s', i, p.(pc := User), p.pc.np, FREE, s.waitLock)
  }

  ghost predicate ForkUnlockStep(s: State, s': State, i: Slot) {
    && i < |s.procs|
    && var p := s.procs[i];
      && p.pc.ForkHold? && p.pc.np < |s.procs|
      && Moves(s, s', i, p.(pc := ForkFree(p.pc.np)), p.pc.np, s.procs[p.pc.np].(own := None), s.waitLock)
  }

  ghost predicate ForkTakeStep(s: State, s': State, i: Slot) {
    && i < |s.procs|
    && var p := s.procs[i];
      && p.pc.ForkFree? && s.waitLock == None
      && MovesAlone(s, s', i, p.(pc := ForkAdopt(p.pc.np)), Some(i))
  }

  ghost predicate ForkSetParentStep(s: State, s': State, i: Slot) {
    && i < |s.procs|
    && var p := s.procs[i];
      && p.pc.ForkAdopt? && p.pc.np < |s.procs|
      && Moves(s, s', i, p.(pc := ForkReady(p.pc.np)), p.pc.np, s.procs[p.pc.np].(parent := Some(i)), None)
  }

  ghost predicate ForkStartStep(s: State, s': State, i: Slot) {
    && i < |s.procs|
    && var p := s.procs[i];
      && p.pc.ForkReady? && p.pc.np < |s.procs| && s.procs[p.pc.np].own == None
      && Moves(s, s', i, p.(pc := User), p.pc.np, s.procs[p.pc.np].(state := RUNNABLE), s.waitLock)
  }

  // ---------- steps of exit ----------

  ghost predicate ExitBeginStep(s: State, s': State, i: Slot, status: int) {
    && i < |s.procs|
    && var p := s.procs[i];
      && p.pc.User? && i != INIT
      && Entries(s, s', i, p.(pc := ExitWant(status)), i, p, s.waitLock)
      && s'.calls == s.calls[p.pid := status]
      && s'.exits == s.exits && s'.reaps == s.reaps && s'.cpus == s.cpus && s'.nextpid == s.nextpid
  }

  ghost predicate ExitTakeStep(s: State, s': State, i: Slot) {
    && i < |s.procs|
    && var p := s.procs[i];
      && p.pc.ExitWant? && s.waitLock == None
      && MovesAlone(s, s', i, p.(pc := ExitScan(p.pc.status, 0)), Some(i))
  }

  ghost predicate ExitGiveStep(s: State, s': State, i: Slot) {
    && i < |s.procs|
    && var p := s.procs[i];
      && p.pc.ExitScan? && p.pc.k < |s.procs| && s.procs[p.pc.k].parent == Some(i)
      && Moves(s, s', i, p.(pc := ExitPoke(p.pc.status, p.pc.k)),
           p.pc.k, s.procs[p.pc.k].(parent := Some(INIT)), s.waitLock)
  }

  ghost predicate ExitPassStep(s: State, s': State, i: Slot) {
    && i < |s.procs|
    && var p := s.procs[i];
      && p.pc.ExitScan? && p.pc.k < |s.procs| && s.procs[p.pc.k].parent != Some(i)
      && Moves(s, s', i, p.(pc := ExitScan(p.pc.status, p.pc.k + 1)), p.pc.k, s.procs[p.pc.k], s.waitLock)
  }

  ghost predicate ExitEndStep(s: State, s': State, i: Slot) {
    && i < |s.procs|
    && var p := s.procs[i];
      && p.pc.ExitScan? && p.pc.k >= |s.procs|
      && MovesAlone(s, s', i, p.(pc := ExitTell(p.pc.status)), s.waitLock)
  }

  ghost predicate ExitPokeInitStep(s: State, s': State, i: Slot) {
    && i < |s.procs|
    && var p := s.procs[i];
      && p.pc.ExitPoke? && s.procs[INIT].own == None
      && Moves(s, s', i, p.(pc := ExitScan(p.pc.status, p.pc.k + 1)), INIT, Poked(s.procs[INIT]), s.waitLock)
  }

  ghost predicate ExitTellParentStep(s: State, s': State, i: Slot) {
    && i < |s.procs|
    && var p := s.procs[i];
      && p.pc.ExitTell? && p.parent.Some? && p.parent.value < |s.procs| && s.procs[p.parent.value].own == None
      && Moves(s, s', i, p.(pc := ExitSelf(p.pc.status)), p.parent.value, Poked(s.procs[p.parent.value]), s.waitLock)
  }

  ghost predicate ExitTakeSelfStep(s: State, s': State, i: Slot) {
    && i < |s.procs|
    && var p := s.procs[i];
      && p.pc.ExitSelf? && p.own == None
      && MovesAlone(s, s', i, p.(own := Some(ByProc(i)), pc := ExitMark(p.pc.status)), s.waitLock)
  }

  ghost predicate ExitZombieStep(s: State, s': State, i: Slot) {
    && i < |s.procs|
    && var p := s.procs[i];
      && p.pc.ExitMark?
      && Entries(s, s', i, p.(xstate := p.pc.status, state := ZOMBIE, pc := ExitDrop), i, p, s.waitLock)
      && s'.exits == s.exits[p.pid := p.pc.status]
      && s'.calls == s.calls && s'.reaps == s.reaps && s'.cpus == s.cpus && s'.nextpid == s.nextpid
  }

  ghost predicate ExitReleaseStep(s: State, s': State, i: Slot) {
    && i < |s.procs|
    && var p := s.procs[i];
      && p.pc.ExitDrop?
      && MovesAlone(s, s', i, p.(pc := Sched(Dead)), None)
  }

  // ---------- steps of wait ----------

  ghost predicate WaitBeginStep(s: State, s': State, i: Slot) {
    && i < |s.procs|
    && var p := s.procs[i];
      && p.pc.User?
      && MovesAlone(s, s', i, p.(pc := WaitWant), s.waitLock)
  }

  ghost predicate WaitTakeStep(s: State, s': State, i: Slot) {
    && i < |s.procs|
    && var p := s.procs[i];
      && p.pc.WaitWant? && s.waitLock == None
      && MovesAlone(s, s', i, p.(pc := WaitScan(false, 0)), Some(i))
  }

  ghost predicate WaitLookStep(s: State, s': State, i: Slot) {
    && i < |s.procs|
    && var p := s.procs[i];
      && p.pc.WaitScan? && p.pc.k < |s.procs| && s.procs[p.pc.k].parent == Some(i) && s.procs[p.pc.k].own == None
      && Moves(s, s', i, p.(pc := WaitHas(true, p.pc.k)), p.pc.k, s.procs[p.pc.k].(own := Some(ByProc(i))), s.waitLock)
  }

  ghost predicate WaitPassStep(s: State, s': State, i: Slot) {
    && i < |s.procs|
    && var p := s.procs[i];
      && p.pc.WaitScan? && p.pc.k < |s.procs| && s.procs[p.pc.k].parent != Some(i)
      && Moves(s, s', i, p.(pc := WaitScan(p.pc.kids, p.pc.k + 1)), p.pc.k, s.procs[p.pc.k], s.waitLock)
  }

  ghost predicate WaitReapStep(s: State, s': State, i: Slot) {
    && i < |s.procs|
    && var p := s.procs[i];
      && p.pc.WaitHas? && p.pc.k < |s.procs| && s.procs[p.pc.k].state == ZOMBIE
      && Entries(s, s', i, p.(pc := User), p.pc.k, FREE, None)
      && s'.reaps == s.reaps[s.procs[p.pc.k].pid := Reaped(p.pid, s.procs[p.pc.k].xstate)]
      && s'.calls == s.calls && s'.exits == s.exits && s'.cpus == s.cpus && s'.nextpid == s.nextpid
  }

  ghost predicate WaitFaultStep(s: State, s': State, i: Slot) {
    && i < |s.procs|
    && var p := s.procs[i];
      && p.pc.WaitHas? && p.pc.k < |s.procs| && s.procs[p.pc.k].state == ZOMBIE
      && Moves(s, s', i, p.(pc := User), p.pc.k, s.procs[p.pc.k].(own := None), None)
  }

  ghost predicate WaitSkipStep(s: State, s': State, i: Slot) {
    && i < |s.procs|
    && var p := s.procs[i];
      && p.pc.WaitHas? && p.pc.k < |s.procs| && s.procs[p.pc.k].state != ZOMBIE
      && Moves(s, s', i, p.(pc := WaitScan(true, p.pc.k + 1)), p.pc.k, s.procs[p.pc.k].(own := None), s.waitLock)
  }

  ghost predicate WaitGiveUpStep(s: State, s': State, i: Slot) {
    && i < |s.procs|
    && var p := s.procs[i];
      && p.pc.WaitScan? && p.pc.k >= |s.procs| && (!p.pc.kids || p.killed)
      && MovesAlone(s, s', i, p.(pc := User), None)
  }

  ghost predicate WaitSleepStep(s: State, s': State, i: Slot) {
    && i < |s.procs|
    && var p := s.procs[i];
      && p.pc.WaitScan? && p.pc.k >= |s.procs| && p.pc.kids && !p.killed
      && MovesAlone(s, s', i, p.(pc := WaitSelf), s.waitLock)
  }

  ghost predicate WaitTakeSelfStep(s: State, s': State, i: Slot) {
    && i < |s.procs|
    && var p := s.procs[i];
      && p.pc.WaitSelf? && p.own == None
      && MovesAlone(s, s', i, p.(own := Some(ByProc(i)), pc := WaitDrop), s.waitLock)
  }

  ghost predicate WaitReleaseStep(s: State, s': State, i: Slot) {
    && i < |s.procs|
    && var p := s.procs[i];
      && p.pc.WaitDrop?
      && MovesAlone(s, s', i, p.(pc := WaitDoze), None)
  }

  ghost predicate WaitDozeOffStep(s: State, s': State, i: Slot) {
    && i < |s.procs|
    && var p := s.procs[i];
      && p.pc.WaitDoze?
      && MovesAlone(s, s', i, p.(waiting := true, state := SLEEPING, pc := Sched(WaitWant)), s.waitLock)
  }

  // ---------- steps of sleep, wakeup and kill elsewhere, and the scheduler ----------

  ghost predicate DozeElsewhereStep(s: State, s': State, i: Slot) {
    && i < |s.procs|
    && var p := s.procs[i];
      && p.pc.User? && p.own == None
      && MovesAlone(s, s', i, p.(own := Some(ByProc(i)), state := SLEEPING, pc := Sched(User)), s.waitLock)
  }

  ghost predicate WakeElsewhereStep(s: State, s': State, i: Slot) {
    && i < |s.procs|
    && var p := s.procs[i];
      && p.state == SLEEPING && !p.waiting && p.own == None
      && MovesAlone(s, s', i, p.(state := RUNNABLE), s.waitLock)
  }

  ghost predicate KillStep(s: State, s': State, i: Slot) {
    && i < |s.procs|
    && var p := s.procs[i];
      && p.own == None
      && MovesAlone(s, s', i, p.(killed := true, state := if p.state == SLEEPING then RUNNABLE else p.state), s.waitLock)
  }

  ghost predicate YieldStep(s: State, s': State, i: Slot) {
    && i < |s.procs|
    && var p := s.procs[i];
      && Restable(p.pc) && p.own == None
      && MovesAlone(s, s', i, p.(own := Some(ByProc(i)), state := RUNNABLE, pc := Sched(p.pc)), s.waitLock)
  }

  ghost predicate SwitchOutStep(s: State, s': State, i: Slot, c: nat) {
    && i < |s.procs|
    && var p := s.procs[i];
      && p.pc.Sched? && c < |s.cpus| && s.cpus[c] == Some(i)
      && Entries(s, s', i, p.(own := Some(ByCpu(c)), pc := Off(p.pc.next)), i, p, s.waitLock)
      && s'.cpus == s.cpus[c := None] && s'.nextpid == s.nextpid && SameRecords(s, s')
  }

  ghost predicate CpuReleaseStep(s: State, s': State, i: Slot, c: nat) {
    && i < |s.procs|
    && var p := s.procs[i];
      && p.own == Some(ByCpu(c))
      && MovesAlone(s, s', i, p.(own := None), s.waitLock)
  }

  ghost predicate DispatchStep(s: State, s': State, i: Slot, c: nat) {
    && i < |s.procs|
    && var p := s.procs[i];
      && p.state == RUNNABLE && p.own == None && c < |s.cpus| && s.cpus[c] == None
      && Entries(s, s', i, p.(own := Some(ByProc(i)), state := RUNNING, pc := Resume(Context(p.pc))), i, p, s.waitLock)
      && s'.cpus == s.cpus[c := Some(i)] && s'.nextpid == s.nextpid && SameRecords(s, s')
  }

  ghost predicate ContinueStep(s: State, s': State, i: Slot) {
    && i < |s.procs|
    && var p := s.procs[i];
      && p.pc.Resume?
      && MovesAlone(s, s', i, p.(own := None, waiting := false, pc := p.pc.next), s.waitLock)
  }

  ghost predicate Next(s: State, step: Step, s': State) {
    match step
    case ForkAlloc(i, np) => ForkAllocStep(s, s', i, np)
    case ForkFail(i) => ForkFailStep(s, s', i)
    case ForkUnlock(i) => ForkUnlockStep(s, s', i)
    case ForkTake(i) => ForkTakeStep(s, s', i)
    case ForkSetParent(i) => ForkSetParentStep(s, s', i)
    case ForkStart(i) => ForkStartStep(s, s', i)
    case ExitBegin(i, status) => ExitBeginStep(s, s', i, status)
    case ExitTake(i) => ExitTakeStep(s, s', i)
    case ExitGive(i) => ExitGiveStep(s, s', i)
    case ExitPass(i) => ExitPassStep(s, s', i)
    case ExitEnd(i) => ExitEndStep(s, s', i)
    case ExitPokeInit(i) => ExitPokeInitStep(s, s', i)
    case ExitTellParent(i) => ExitTellParentStep(s, s', i)
    case ExitTakeSelf(i) => ExitTakeSelfStep(s, s', i)
    case ExitZombie(i) => ExitZombieStep(s, s', i)
    case ExitRelease(i) => ExitReleaseStep(s, s', i)
    case WaitBegin(i) => WaitBeginStep(s, s', i)
    case WaitTake(i) => WaitTakeStep(s, s', i)
    case WaitLook(i) => WaitLookStep(s, s', i)
    case WaitPass(i) => WaitPassStep(s, s', i)
    case WaitReap(i) => WaitReapStep(s, s', i)
    case WaitFault(i) => WaitFaultStep(s, s', i)
    case WaitSkip(i) => WaitSkipStep(s, s', i)
    case WaitGiveUp(i) => WaitGiveUpStep(s, s', i)
    case WaitSleep(i) => WaitSleepStep(s, s', i)
    case WaitTakeSelf(i) => WaitTakeSelfStep(s, s', i)
    case WaitRelease(i) => WaitReleaseStep(s, s', i)
    case WaitDozeOff(i) => WaitDozeOffStep(s, s', i)
    case DozeElsewhere(i) => DozeElsewhereStep(s, s', i)
    case WakeElsewhere(i) => WakeElsewhereStep(s, s', i)
    case Kill(i) => KillStep(s, s', i)
    case Yield(i) => YieldStep(s, s', i)
    case SwitchOut(i, c) => SwitchOutStep(s, s', i, c)
    case CpuRelease(i, c) => CpuReleaseStep(s, s', i, c)
    case Dispatch(i, c) => DispatchStep(s, s', i, c)
    case Continue(i) => ContinueStep(s, s', i)
  }

  // init, set up by userinit and about to run for the first time, is the only process.
  function Boot(nproc: nat, ncpu: nat): State
    requires nproc > 0
  {
    State(seq(nproc, i => if i == INIT then FREE.(state := RUNNABLE, pid := 1) else FREE),
          seq(ncpu, _ => None), None, 2, map[], map[], map[])
  }

  ghost predicate IsRun(trace: seq<State>, steps: seq<Step>) {
    && |trace| == |steps| + 1
    && (exists nproc: nat, ncpu: nat :: nproc > 0 && trace[0] == Boot(nproc, ncpu))
    && (forall n {:trigger steps[n]} :: 0 <= n < |steps| ==> Next(trace[n], steps[n], trace[n + 1]))
  }
}
