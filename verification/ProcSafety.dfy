/** The invariant of the process machine.  ProcSteps shows that every step keeps it, ProcRuns what
    it means for whole runs. */
module ProcSafety {
  import opened Blocks
  import opened ProcMachine

  // ---------- which locks a program point holds ----------

  predicate HasWait(pc: Pc) {
    || pc.ForkAdopt? || pc.ExitScan? || pc.ExitPoke? || pc.ExitTell? || pc.ExitSelf? || pc.ExitMark? || pc.ExitDrop?
    || pc.WaitScan? || pc.WaitHas? || pc.WaitSelf? || pc.WaitDrop?
  }

  predicate HasSelf(pc: Pc) {
    pc.ExitMark? || pc.ExitDrop? || pc.WaitDrop? || pc.WaitDoze? || pc.Sched? || pc.Resume?
  }

  // The other process whose lock is held.
  function Held(pc: Pc): Option<Slot> {
    if pc.ForkHold? then Some(pc.np) else if pc.WaitHas? then Some(pc.k) else None
  }

  function Base(pc: Pc): Pc {
    if pc.Sched? || pc.Off? || pc.Resume? then pc.next else pc
  }

  // The child being made.
  function Making(pc: Pc): Option<Slot> {
    var b := Base(pc);
    if b.ForkHold? || b.ForkFree? || b.ForkAdopt? || b.ForkReady? then Some(b.np) else None
  }

  predicate Alive(p: Proc) {
    p.state == SLEEPING || p.state == RUNNABLE || p.state == RUNNING
  }

  // Asleep in wait, or past the point of no return towards it.
  predicate Dozing(p: Proc) {
    p.pc.WaitDoze? || (p.state == SLEEPING && p.waiting)
  }

  // ---------- invariant ----------

  ghost predicate LocksOk(s: State, i: Slot)
    requires i < |s.procs|
  {
    var p := s.procs[i];
    && (HasWait(p.pc) <==> s.waitLock == Some(i))
    && (HasSelf(p.pc) <==> p.own == Some(ByProc(i)))
    && (p.own.Some? && p.own.value.ByCpu? ==> p.pc.Off?)
    && (p.own.Some? && p.own.value.ByProc? && p.own.value.i != i ==>
          p.own.value.i < |s.procs| && Held(s.procs[p.own.value.i].pc) == Some(i))
    && (Held(p.pc).Some? ==>
          Held(p.pc).value < |s.procs| && Held(p.pc).value != i && s.procs[Held(p.pc).value].own == Some(ByProc(i)))
  }

  ghost predicate StateOk(s: State, i: Slot)
    requires i < |s.procs|
  {
    var p := s.procs[i];
    && (p.pc.Off? || p.pc.Sched? || p.pc.Resume? ==> Restable(p.pc.next) || p.pc.next.Dead?)
    && (p.state == RUNNING <==> !p.pc.Off? && !p.pc.Sched? && !p.pc.ExitDrop?)
    && (p.state == ZOMBIE <==> p.pc.ExitDrop? || p.pc == Sched(Dead) || p.pc == Off(Dead))
    && (p.pc.Resume? ==> !p.pc.next.Dead?)
    && !p.pc.Dead?
    && (p.state == UNUSED || p.state == USED ==> p.pc == Off(User))
    && (p.waiting ==> (p.pc.Sched? || p.pc.Off? || p.pc.Resume?) && p.pc.next.WaitWant?)
    && (p.state == UNUSED ==> p.pid == 0 && p.parent == None && p.own == None)
    && (p.state != UNUSED ==> 0 < p.pid < s.nextpid)
    && (p.own.Some? && p.own.value.ByCpu? ==> p.state != USED)
  }

  ghost predicate FamilyOk(s: State, i: Slot)
    requires i < |s.procs|
  {
    var p := s.procs[i];
    && (p.parent.Some? ==>
          p.parent.value < |s.procs| && p.parent.value != i && Alive(s.procs[p.parent.value]) && p.state != UNUSED)
    && (Alive(p) || p.state == ZOMBIE ==> i == INIT || p.parent.Some?)
    && (i == INIT ==> Alive(p) && p.pid == 1 && p.parent == None && !IsExiting(p.pc))
    && (Making(p.pc).Some? ==>
          var np := Making(p.pc).value;
          && np < |s.procs| && np != i && np != INIT
          && s.procs[np].state == USED && s.procs[np].maker == Some(i)
          && s.procs[np].parent == if Base(p.pc).ForkReady? then Some(i) else None)
    && (p.state == USED ==> p.parent == None || p.parent == p.maker)
    && (p.state == USED ==> p.maker.Some? && p.maker.value < |s.procs| && Making(s.procs[p.maker.value].pc) == Some(i))
    && (p.pc.WaitHas? ==> p.pc.k < |s.procs| && s.procs[p.pc.k].parent == Some(i) && p.pc.kids)
  }

  predicate IsExiting(pc: Pc) {
    var b := Base(pc);
    || b.ExitWant? || b.ExitScan? || b.ExitPoke? || b.ExitTell? || b.ExitSelf? || b.ExitMark? || b.ExitDrop? || b.Dead?
  }

  // Entries below this have no parent that is exiting at pc.
  function Reparented(pc: Pc, n: nat): nat {
    if pc.ExitScan? then pc.k
    else if pc.ExitPoke? then pc.k + 1
    else if pc.ExitTell? || pc.ExitSelf? || pc.ExitMark? || pc.ExitDrop? then n
    else 0
  }

  // Entries below this are known not to be children of a process that waits at pc.
  function Childless(pc: Pc): nat {
    if pc.WaitScan? && !pc.kids then pc.k else 0
  }

  // The process at pc has seen a child and holds wait_lock since.
  predicate SawKids(pc: Pc) {
    (pc.WaitScan? && pc.kids) || pc.WaitHas? || pc.WaitSelf? || pc.WaitDrop?
  }

  predicate ChildOf(s: State, k: Slot, i: Slot) {
    k < |s.procs| && s.procs[k].parent == Some(i)
  }

  ghost predicate KidsOk(s: State, i: Slot)
    requires i < |s.procs|
  {
    SawKids(s.procs[i].pc) ==> exists k :: ChildOf(s, k, i)
  }

  // Entries below this are known not to be zombie children of a process that waits at pc.
  function Searched(pc: Pc, n: nat): nat {
    if pc.WaitScan? || pc.WaitHas? then pc.k
    else if pc.WaitSelf? || pc.WaitDrop? then n
    else 0
  }

  // How process i stands to entry k of the table.
  ghost predicate PairOk(s: State, i: Slot, k: Slot)
    requires i < |s.procs| && k < |s.procs|
  {
    var p, q := s.procs[i], s.procs[k];
    && (i != k && p.state != UNUSED && q.state != UNUSED ==> p.pid != q.pid)
    && (k < Reparented(p.pc, |s.procs|) ==> q.parent != Some(i))
    && (k < Searched(p.pc, |s.procs|) && q.parent == Some(i) ==> q.state != ZOMBIE)
    && (k < Childless(p.pc) ==> q.parent != Some(i))
    && (Dozing(p) && q.parent == Some(i) && q.state == ZOMBIE ==>
          i == INIT && s.waitLock.Some? && s.waitLock.value < |s.procs| && s.procs[s.waitLock.value].pc.ExitPoke?)
    && (q.parent == Some(i) && (q.pc.ExitSelf? || q.pc.ExitMark?) ==> !Dozing(p))
  }

  function Recorded(m: map<nat, int>, pid: nat): Option<int> {
    if pid in m then Some(m[pid]) else None
  }

  // The status that a process on its way out has been given.
  function ExitStatus(pc: Pc): Option<int> {
    var b := Base(pc);
    if b.ExitWant? || b.ExitScan? || b.ExitPoke? || b.ExitTell? || b.ExitSelf? || b.ExitMark? then Some(b.status) else None
  }

  ghost predicate HistoryOk(s: State, i: Slot)
    requires i < |s.procs|
  {
    var p := s.procs[i];
    p.state != UNUSED ==>
      && p.pid !in s.reaps
      && Recorded(s.exits, p.pid) == (if p.state == ZOMBIE then Some(p.xstate) else None)
      && Recorded(s.calls, p.pid) == (if p.state == ZOMBIE then Some(p.xstate) else ExitStatus(p.pc))
  }

  ghost predicate ReapOk(s: State, pid: nat)
    requires pid in s.reaps
  {
    && 0 < pid < s.nextpid && pid in s.exits && s.exits[pid] == s.reaps[pid].status
    && pid in s.calls && s.calls[pid] == s.reaps[pid].status
  }

  ghost predicate CpuOk(s: State, c: nat)
    requires c < |s.cpus|
  {
    s.cpus[c].Some? ==> s.cpus[c].value < |s.procs| && !s.procs[s.cpus[c].value].pc.Off?
  }

  ghost predicate CpusDiffer(s: State, c: nat, d: nat)
    requires c < |s.cpus| && d < |s.cpus|
  {
    c != d && s.cpus[c].Some? ==> s.cpus[c] != s.cpus[d]
  }

  predicate RunsOn(s: State, i: Slot, c: nat) {
    c < |s.cpus| && s.cpus[c] == Some(i)
  }

  // A process that has not been switched out is on some CPU.
  ghost predicate OnSome(s: State, i: Slot)
    requires i < |s.procs|
  {
    s.procs[i].pc.Off? || exists c :: RunsOn(s, i, c)
  }

  ghost predicate Inv(s: State) {
    && INIT < |s.procs|
    && (forall i :: 0 <= i < |s.procs| ==> LocksOk(s, i))
    && (forall i :: 0 <= i < |s.procs| ==> StateOk(s, i))
    && (forall i :: 0 <= i < |s.procs| ==> FamilyOk(s, i))
    && (forall i :: 0 <= i < |s.procs| ==> HistoryOk(s, i))
    && (forall i, k :: 0 <= i < |s.procs| && 0 <= k < |s.procs| ==> PairOk(s, i, k))
    && (forall pid :: pid in s.reaps ==> ReapOk(s, pid))
    && (forall pid :: pid in s.exits || pid in s.calls ==> 0 < pid < s.nextpid)
    && (forall c :: 0 <= c < |s.cpus| ==> CpuOk(s, c))
    && (forall c, d :: 0 <= c < |s.cpus| && 0 <= d < |s.cpus| ==> CpusDiffer(s, c, d))
    && (forall i :: 0 <= i < |s.procs| ==> OnSome(s, i))
    && (forall i :: 0 <= i < |s.procs| ==> KidsOk(s, i))
    && (s.waitLock.Some? ==> s.waitLock.value < |s.procs|)
  }
}
