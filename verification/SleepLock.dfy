/** Sleep locks over sleep and wakeup (kernel/sleeplock.c, kernel/proc.c): every interleaving of
    any number of processes that acquire and release one sleep lock.

    A step is one lock operation or the work done between two of them.  wakeup visits the process
    table entry by entry, taking each process's own lock.  Any process may be killed while it sleeps. */
module SleepLock {
  import opened Blocks

  type Pid = nat

  datatype ProcState = RUNNABLE | RUNNING | SLEEPING

  // Where a process stands.  "lk" is the spin lock inside the sleep lock, "own" the process's own lock.
  datatype Pc =
    | Outside
    | Enter             // acquiresleep: about to acquire lk (also after waking up)
    | Test              // holds lk: about to test lk->locked
    | LockSelf          // holds lk, saw locked: in sleep, about to acquire own
    | ReleaseInner      // holds lk and own: about to release lk
    | FallAsleep        // holds own: about to set chan and SLEEPING
    | SwitchOut         // SLEEPING, own still held until the scheduler has taken over
    | Asleep            // own released; SLEEPING or already RUNNABLE
    | Tidy              // running again, holds own: about to clear chan
    | Leave             // holds lk, has set locked: about to release lk
    | Holding           // acquiresleep has returned
    | EnterRelease      // releasesleep: about to acquire lk
    | Unlock            // holds lk: about to clear locked
    | Wake(k: nat)      // holds lk: wakeup is about to visit process k
    | WakeHas(k: nat)   // ... and holds process k's lock
    | LeaveRelease      // holds lk: about to release it

  datatype Proc = Proc(state: ProcState, chan: bool, own: Option<Pid>, pc: Pc)

  datatype State = State(lk: Option<Pid>, locked: bool, pid: Option<Pid>, procs: seq<Proc>)

  datatype Step =
    | Advance(i: Pid)     // process i takes its next step
    | Dispatch(i: Pid)    // the scheduler picks the sleeper i, which has been woken
    | Kill(i: Pid)

  function SetProc(s: State, i: Pid, p: Proc): State
    requires i < |s.procs|
  {
    s.(procs := s.procs[i := p])
  }

  function Goto(s: State, i: Pid, pc: Pc): State
    requires i < |s.procs|
  {
    SetProc(s, i, s.procs[i].(pc := pc))
  }

  // A process waiting for a spin lock that is taken cannot step; everyone else can.
  predicate CanAdvance(s: State, i: Pid)
    requires i < |s.procs|
  {
    match s.procs[i].pc
    case Enter => s.lk == None
    case EnterRelease => s.lk == None
    case LockSelf => s.procs[i].own == None
    case Wake(k) => k >= |s.procs| || k == i || s.procs[k].own == None
    case WakeHas(k) => k < |s.procs|
    case Asleep => false
    case _ => true
  }

  function AdvanceFrom(s: State, i: Pid): State
    requires i < |s.procs| && CanAdvance(s, i)
  {
    var p := s.procs[i];
    match p.pc
    case Outside => Goto(s, i, Enter)
    case Enter => Goto(s, i, Test).(lk := Some(i))
    case Test => if s.locked then Goto(s, i, LockSelf) else Goto(s, i, Leave).(locked := true, pid := Some(i))
    case LockSelf => SetProc(s, i, p.(own := Some(i), pc := ReleaseInner))
    case ReleaseInner => Goto(s, i, FallAsleep).(lk := None)
    case FallAsleep => SetProc(s, i, p.(chan := true, state := SLEEPING, pc := SwitchOut))
    case SwitchOut => SetProc(s, i, p.(own := None, pc := Asleep))
    case Tidy => SetProc(s, i, p.(chan := false, own := None, pc := Enter))
    case Leave => Goto(s, i, Holding).(lk := None)
    case Holding => Goto(s, i, EnterRelease)
    case EnterRelease => Goto(s, i, Unlock).(lk := Some(i))
    case Unlock => Goto(s, i, Wake(0)).(locked := false, pid := None)
    case Wake(k) =>
      if k >= |s.procs| then Goto(s, i, LeaveRelease)
      else if k == i then Goto(s, i, Wake(k + 1))
      else Goto(SetProc(s, k, s.procs[k].(own := Some(i))), i, WakeHas(k))
    case WakeHas(k) =>
      var q := s.procs[k];
      var woken := if q.state == SLEEPING && q.chan then RUNNABLE else q.state;
      Goto(SetProc(s, k, q.(state := woken, own := None)), i, Wake(k + 1))
    case LeaveRelease => Goto(s, i, Outside).(lk := None)
  }

  predicate Enabled(s: State, step: Step) {
    match step
    case Advance(i) => i < |s.procs| && CanAdvance(s, i)
    case Dispatch(i) =>
      i < |s.procs| && s.procs[i].pc.Asleep? && s.procs[i].state == RUNNABLE && s.procs[i].own == None
    case Kill(i) => i < |s.procs| && s.procs[i].own == None
  }

  function Apply(s: State, step: Step): State
    requires Enabled(s, step)
  {
    match step
    case Advance(i) => AdvanceFrom(s, i)
    case Dispatch(i) => SetProc(s, i, s.procs[i].(state := RUNNING, own := Some(i), pc := Tidy))
    case Kill(i) => if s.procs[i].state == SLEEPING then SetProc(s, i, s.procs[i].(state := RUNNABLE)) else s
  }

  function Start(n: nat): State {
    State(None, false, None, seq(n, _ => Proc(RUNNING, false, None, Outside)))
  }

  // ---------- invariant ----------

  predicate HasInner(pc: Pc) {
    pc.Test? || pc.LockSelf? || pc.ReleaseInner? || pc.Leave? || pc.Unlock? || pc.Wake? || pc.WakeHas? || pc.LeaveRelease?
  }

  predicate HasOwn(pc: Pc) {
    pc.ReleaseInner? || pc.FallAsleep? || pc.SwitchOut? || pc.Tidy?
  }

  // The process owns the sleep lock.
  predicate Owns(pc: Pc) {
    pc.Leave? || pc.Holding? || pc.EnterRelease? || pc.Unlock?
  }

  // It is asleep on the lock, or has let go of lk and will be.
  predicate Sleeps(p: Proc) {
    p.pc.FallAsleep? || p.state == SLEEPING
  }

  // lk's holder is waking processes up and has yet to visit i.
  predicate YetToVisit(s: State, i: nat) {
    && s.lk.Some? && s.lk.value < |s.procs|
    && (var pc := s.procs[s.lk.value].pc; (pc.Wake? || pc.WakeHas?) && pc.k <= i)
  }

  ghost predicate ProcOk(s: State, i: nat)
    requires i < |s.procs|
  {
    var p := s.procs[i];
    && (HasInner(p.pc) <==> s.lk == Some(i))
    && (HasOwn(p.pc) ==> p.own == Some(i))
    && (p.own == Some(i) ==> HasOwn(p.pc))
    && (p.own.Some? && p.own.value != i ==>
          s.lk == p.own && p.own.value < |s.procs| && s.procs[p.own.value].pc == WakeHas(i))
    && (p.pc.WakeHas? ==> p.pc.k < |s.procs| && p.pc.k != i && s.procs[p.pc.k].own == Some(i))
    && (Owns(p.pc) ==> s.locked && s.pid == Some(i))
    && (p.pc.LockSelf? || p.pc.ReleaseInner? ==> s.locked)
    && (p.pc.SwitchOut? || p.pc.Asleep? ==> p.state != RUNNING)
    && (p.state == SLEEPING ==> p.chan && (p.pc.SwitchOut? || p.pc.Asleep?))
    && (Sleeps(p) && !s.locked ==> YetToVisit(s, i))
  }

  ghost predicate Inv(s: State) {
    && (forall i :: 0 <= i < |s.procs| ==> ProcOk(s, i))
    && (s.lk.Some? ==> s.lk.value < |s.procs|)
    && (s.locked ==> s.pid.Some? && s.pid.value < |s.procs| && Owns(s.procs[s.pid.value].pc))
  }

  // What ProcOk(s', j) needs to know about s: j itself, the process that steps, and, during a
  // wakeup, the process being visited and the holder of lk.
  ghost predicate Around(s: State, i: nat, j: nat)
    requires i < |s.procs| && j < |s.procs|
  {
    && ProcOk(s, i) && ProcOk(s, j)
    && (s.lk.Some? ==> s.lk.value < |s.procs| && ProcOk(s, s.lk.value))
    && (s.procs[i].pc.WakeHas? ==> s.procs[i].pc.k < |s.procs| && ProcOk(s, s.procs[i].pc.k))
    && (s.locked ==> s.pid.Some? && s.pid.value < |s.procs| && Owns(s.procs[s.pid.value].pc))
  }

  lemma PlainKeepsProc(s: State, i: nat, j: nat)
    requires i < |s.procs| && j < |s.procs| && Around(s, i, j) && CanAdvance(s, i)
    requires s.procs[i].pc.Outside? || s.procs[i].pc.Holding?
    ensures ProcOk(AdvanceFrom(s, i), j)
  {
  }

  lemma TakeInnerKeepsProc(s: State, i: nat, j: nat)
    requires i < |s.procs| && j < |s.procs| && Around(s, i, j) && CanAdvance(s, i)
    requires s.procs[i].pc.Enter? || s.procs[i].pc.EnterRelease?
    ensures ProcOk(AdvanceFrom(s, i), j)
  {
  }

  lemma DropInnerKeepsProc(s: State, i: nat, j: nat)
    requires i < |s.procs| && j < |s.procs| && Around(s, i, j) && CanAdvance(s, i)
    requires s.procs[i].pc.Leave? || s.procs[i].pc.LeaveRelease?
    ensures ProcOk(AdvanceFrom(s, i), j)
  {
  }

  lemma TidyKeepsProc(s: State, i: nat, j: nat)
    requires i < |s.procs| && j < |s.procs| && Around(s, i, j) && CanAdvance(s, i)
    requires s.procs[i].pc.Tidy?
    ensures ProcOk(AdvanceFrom(s, i), j)
  {
  }

  lemma TestKeepsProc(s: State, i: nat, j: nat)
    requires i < |s.procs| && j < |s.procs| && Around(s, i, j) && CanAdvance(s, i)
    requires s.procs[i].pc.Test?
    ensures ProcOk(AdvanceFrom(s, i), j)
  {
  }

  lemma PrepareKeepsProc(s: State, i: nat, j: nat)
    requires i < |s.procs| && j < |s.procs| && Around(s, i, j) && CanAdvance(s, i)
    requires s.procs[i].pc.LockSelf? || s.procs[i].pc.ReleaseInner?
    ensures ProcOk(AdvanceFrom(s, i), j)
  {
  }

  lemma SleepKeepsProc(s: State, i: nat, j: nat)
    requires i < |s.procs| && j < |s.procs| && Around(s, i, j) && CanAdvance(s, i)
    requires s.procs[i].pc.FallAsleep? || s.procs[i].pc.SwitchOut?
    ensures ProcOk(AdvanceFrom(s, i), j)
  {
  }

  lemma UnlockKeepsProc(s: State, i: nat, j: nat)
    requires i < |s.procs| && j < |s.procs| && Around(s, i, j) && CanAdvance(s, i)
    requires s.procs[i].pc.Unlock?
    ensures ProcOk(AdvanceFrom(s, i), j)
  {
  }

  lemma WakeKeepsProc(s: State, i: nat, j: nat)
    requires i < |s.procs| && j < |s.procs| && Around(s, i, j) && CanAdvance(s, i)
    requires s.procs[i].pc.Wake?
    ensures ProcOk(AdvanceFrom(s, i), j)
  {
  }

  lemma VisitKeepsProc(s: State, i: nat, j: nat)
    requires i < |s.procs| && j < |s.procs| && Around(s, i, j) && CanAdvance(s, i)
    requires s.procs[i].pc.WakeHas?
    ensures ProcOk(AdvanceFrom(s, i), j)
  {
  }

  lemma AdvanceKeepsProc(s: State, i: nat, j: nat)
    requires i < |s.procs| && j < |s.procs| && Around(s, i, j) && CanAdvance(s, i)
    ensures ProcOk(AdvanceFrom(s, i), j)
  {
    var pc := s.procs[i].pc;
    if pc.Outside? || pc.Holding? {
      PlainKeepsProc(s, i, j);
    } else if pc.Enter? || pc.EnterRelease? {
      TakeInnerKeepsProc(s, i, j);
    } else if pc.Leave? || pc.LeaveRelease? {
      DropInnerKeepsProc(s, i, j);
    } else if pc.Tidy? {
      TidyKeepsProc(s, i, j);
    } else if pc.Test? {
      TestKeepsProc(s, i, j);
    } else if pc.LockSelf? || pc.ReleaseInner? {
      PrepareKeepsProc(s, i, j);
    } else if pc.FallAsleep? || pc.SwitchOut? {
      SleepKeepsProc(s, i, j);
    } else if pc.Unlock? {
      UnlockKeepsProc(s, i, j);
    } else if pc.Wake? {
      WakeKeepsProc(s, i, j);
    } else {
      VisitKeepsProc(s, i, j);
    }
  }

  lemma AdvanceKeepsInv(s: State, i: Pid)
    requires Inv(s) && i < |s.procs| && CanAdvance(s, i)
    ensures Inv(AdvanceFrom(s, i))
  {
    var s' := AdvanceFrom(s, i);
    assert ProcOk(s, i);
    forall j | 0 <= j < |s.procs|
      ensures ProcOk(s', j)
    {
      assert Around(s, i, j);
      AdvanceKeepsProc(s, i, j);
    }
    assert s.pid.Some? && s.pid.value < |s.procs| ==> ProcOk(s, s.pid.value);
  }

  lemma DispatchKeepsProc(s: State, i: nat, j: nat)
    requires i < |s.procs| && j < |s.procs| && Enabled(s, Dispatch(i)) && ProcOk(s, i) && ProcOk(s, j)
    ensures ProcOk(Apply(s, Dispatch(i)), j)
  {
  }

  lemma KillKeepsProc(s: State, i: nat, j: nat)
    requires i < |s.procs| && j < |s.procs| && Enabled(s, Kill(i)) && ProcOk(s, i) && ProcOk(s, j)
    ensures ProcOk(Apply(s, Kill(i)), j)
  {
  }

  lemma StepKeepsInv(s: State, step: Step)
    requires Inv(s) && Enabled(s, step)
    ensures Inv(Apply(s, step))
  {
    match step
    case Advance(i) => AdvanceKeepsInv(s, i);
    case Dispatch(i) =>
      assert ProcOk(s, i);
      forall j | 0 <= j < |s.procs|
        ensures ProcOk(Apply(s, step), j)
      {
        DispatchKeepsProc(s, i, j);
      }
    case Kill(i) =>
      assert ProcOk(s, i);
      forall j | 0 <= j < |s.procs|
        ensures ProcOk(Apply(s, step), j)
      {
        KillKeepsProc(s, i, j);
      }
  }

  // ---------- whole runs ----------

  ghost predicate IsRun(trace: seq<State>, steps: seq<Step>) {
    && |trace| == |steps| + 1
    && (exists n: nat :: trace[0] == Start(n))
    && (forall i :: 0 <= i < |steps| ==> Enabled(trace[i], steps[i]) && trace[i + 1] == Apply(trace[i], steps[i]))
  }

  lemma {:induction false} RunKeepsInv(trace: seq<State>, steps: seq<Step>, n: nat)
    requires IsRun(trace, steps) && n <= |steps|
    ensures Inv(trace[n])
  {
    if n > 0 {
      RunKeepsInv(trace, steps, n - 1);
      StepKeepsInv(trace[n - 1], steps[n - 1]);
    }
  }

  /* Mutual exclusion: in every interleaving at most one process is between the end of
     acquiresleep and releasesleep's clearing of the lock, and holdingsleep is true of exactly it. */
  lemma MutualExclusion(trace: seq<State>, steps: seq<Step>, n: nat, i: nat, j: nat)
    requires IsRun(trace, steps) && n <= |steps| && i < |trace[n].procs| && j < |trace[n].procs|
    requires Owns(trace[n].procs[i].pc) && Owns(trace[n].procs[j].pc)
    ensures i == j && trace[n].locked && trace[n].pid == Some(i)
  {
    RunKeepsInv(trace, steps, n);
    assert ProcOk(trace[n], i) && ProcOk(trace[n], j);
  }

  /* No lost wakeup: in every interleaving, whenever the sleep lock is free and its inner spin lock
     is free, no process sleeps on it or is past the point of no return towards sleeping on it. */
  lemma NoLostWakeup(trace: seq<State>, steps: seq<Step>, n: nat, i: nat)
    requires IsRun(trace, steps) && n <= |steps| && i < |trace[n].procs|
    requires !trace[n].locked && trace[n].lk == None
    ensures !Sleeps(trace[n].procs[i])
  {
    RunKeepsInv(trace, steps, n);
    assert ProcOk(trace[n], i);
  }

  /* ... so nobody is then stuck: every process can step, or be dispatched, without anyone's help. */
  lemma FreeLockIsReachable(trace: seq<State>, steps: seq<Step>, n: nat, i: nat)
    requires IsRun(trace, steps) && n <= |steps| && i < |trace[n].procs|
    requires !trace[n].locked && trace[n].lk == None
    ensures Enabled(trace[n], Advance(i)) || Enabled(trace[n], Dispatch(i))
  {
    RunKeepsInv(trace, steps, n);
    assert ProcOk(trace[n], i);
    NoLostWakeup(trace, steps, n, i);
  }

  // Process i is inside acquiresleep.
  predicate Wants(pc: Pc) {
    || pc.Enter? || pc.Test? || pc.LockSelf? || pc.ReleaseInner? || pc.FallAsleep? || pc.SwitchOut? || pc.Asleep? || pc.Tidy?
    || pc.Leave?
  }

  // The one step that is process i's own.
  function OwnStep(s: State, i: Pid): Step
    requires i < |s.procs|
  {
    if s.procs[i].pc.Asleep? then Dispatch(i) else Advance(i)
  }

  // By at most k steps of its own, each of them possible, process i comes out of acquiresleep with the lock.
  predicate GetsLock(s: State, i: Pid, k: nat)
    requires i < |s.procs|
    decreases k
  {
    if s.procs[i].pc.Holding? then s.locked && s.pid == Some(i)
    else k > 0 && Enabled(s, OwnStep(s, i)) && GetsLock(Apply(s, OwnStep(s, i)), i, k - 1)
  }

  lemma EntersAndGets(s: State, i: Pid)
    requires i < |s.procs| && !s.locked && s.lk == None && s.procs[i].pc.Enter?
    ensures GetsLock(s, i, 3)
  {
    var s1 := Apply(s, Advance(i));
    var s2 := Apply(s1, Advance(i));
    var s3 := Apply(s2, Advance(i));
    assert GetsLock(s3, i, 0) && GetsLock(s2, i, 1) && GetsLock(s1, i, 2);
  }

  lemma WakesAndGets(s: State, i: Pid)
    requires i < |s.procs| && !s.locked && s.lk == None
    requires s.procs[i].pc.Tidy? || (s.procs[i].pc.Asleep? && s.procs[i].state == RUNNABLE && s.procs[i].own == None)
    ensures GetsLock(s, i, if s.procs[i].pc.Tidy? then 4 else 5)
  {
    var s1 := if s.procs[i].pc.Tidy? then s else Apply(s, Dispatch(i));
    EntersAndGets(Apply(s1, Advance(i)), i);
    assert GetsLock(s1, i, 4);
  }

  /* And a process inside acquiresleep then gets the lock, left to itself, in at most six steps. */
  lemma FreeLockIsObtained(trace: seq<State>, steps: seq<Step>, n: nat, i: nat)
    requires IsRun(trace, steps) && n <= |steps| && i < |trace[n].procs|
    requires !trace[n].locked && trace[n].lk == None && Wants(trace[n].procs[i].pc)
    ensures GetsLock(trace[n], i, 6)
  {
    var s := trace[n];
    RunKeepsInv(trace, steps, n);
    assert ProcOk(s, i);
    NoLostWakeup(trace, steps, n, i);
    if s.procs[i].pc.Enter? {
      EntersAndGets(s, i);
      MoreStepsGet(s, i, 3, 6);
    } else if s.procs[i].pc.SwitchOut? {
      WakesAndGets(Apply(s, Advance(i)), i);
    } else {
      WakesAndGets(s, i);
      MoreStepsGet(s, i, if s.procs[i].pc.Tidy? then 4 else 5, 6);
    }
  }

  lemma {:induction false} MoreStepsGet(s: State, i: Pid, k: nat, more: nat)
    requires i < |s.procs| && GetsLock(s, i, k) && k <= more
    ensures GetsLock(s, i, more)
    decreases k
  {
    if !s.procs[i].pc.Holding? {
      MoreStepsGet(Apply(s, OwnStep(s, i)), i, k - 1, more - 1);
    }
  }
}
