/** Every step of the process machine keeps its invariant: that of the entries it changes, and so everybody's. */
module ProcSteps {
  import opened Blocks
  import opened ProcMachine
  import opened ProcSafety
  import opened ProcFrame

  ghost predicate Known(s: State, j: Slot)
    requires j < |s.procs|
  {
    LocksOk(s, j) && StateOk(s, j) && FamilyOk(s, j) && HistoryOk(s, j)
  }

  // The invariant as far as it concerns two entries only.
  ghost predicate Local(s: State, i: Slot, o: Slot) {
    && INIT < |s.procs| && i < |s.procs| && o < |s.procs|
    && Known(s, i) && Known(s, o)
    && PairOk(s, i, i) && PairOk(s, o, o) && PairOk(s, i, o) && PairOk(s, o, i)
  }

  ghost predicate One(s: State, i: Slot) {
    INIT < |s.procs| && i < |s.procs| && Known(s, i) && PairOk(s, i, i)
  }

  // A step that disturbs nobody else.
  ghost predicate Quiet(s: State, s': State, i: Slot, o: Slot) {
    && Changes(s, s', i, o)
    && QuietLocks(s, s', i, o) && QuietFamily(s, s', i, o) && QuietPairs(s, s', i, o) && QuietHistory(s, s', i, o)
  }

  // The CPUs are as before, and the two entries on or off them as before.
  ghost predicate CpusKept(s: State, s': State, i: Slot, o: Slot)
    requires Changes(s, s', i, o)
  {
    && s'.cpus == s.cpus
    && (s'.procs[i].pc.Off? <==> s.procs[i].pc.Off?) && (s'.procs[o].pc.Off? <==> s.procs[o].pc.Off?)
  }

  // A step that keeps the invariant of the entries it changes and disturbs no other.
  ghost predicate Fine(s: State, s': State, i: Slot, o: Slot) {
    Quiet(s, s', i, o) && Local(s', i, o) && CpusKept(s, s', i, o)
  }

  // The same for a step of process i alone.
  ghost predicate FineAlone(s: State, s': State, i: Slot) {
    FineBut(s, s', i) && CpusKept(s, s', i, i)
  }

  // ... and for one that switches to or from it.
  ghost predicate FineBut(s: State, s': State, i: Slot) {
    Quiet(s, s', i, i) && One(s', i)
  }

  // ---------- everybody together ----------

  // Whoever saw a child still has one.
  lemma KidsStay(s: State, s': State, i: Slot, o: Slot, j: Slot)
    requires Quiet(s, s', i, o) && j < |s.procs| && KidsOk(s, j)
    ensures KidsOk(s', j)
  {
    if SawKids(s'.procs[j].pc) {
      if SawKids(s.procs[j].pc) {
        var k :| ChildOf(s, k, j);
        assert ChildOf(s', k, j);
      } else {
        assert ChildOf(s', o, j);
      }
    }
  }

  ghost predicate CpusInOrder(s: State) {
    && (forall c :: 0 <= c < |s.cpus| ==> CpuOk(s, c))
    && (forall c, d :: 0 <= c < |s.cpus| && 0 <= d < |s.cpus| ==> CpusDiffer(s, c, d))
    && (forall i :: 0 <= i < |s.procs| ==> OnSome(s, i))
  }

  lemma CpusStayInOrder(s: State, s': State, i: Slot, o: Slot)
    requires Changes(s, s', i, o) && CpusKept(s, s', i, o) && CpusInOrder(s)
    ensures CpusInOrder(s')
  {
    forall c | 0 <= c < |s.cpus|
      ensures CpuOk(s', c)
    {
      assert CpuOk(s, c);
    }
    forall c, d | 0 <= c < |s.cpus| && 0 <= d < |s.cpus|
      ensures CpusDiffer(s', c, d)
    {
      assert CpusDiffer(s, c, d);
    }
    forall j | 0 <= j < |s'.procs|
      ensures OnSome(s', j)
    {
      assert OnSome(s, j);
      if !s'.procs[j].pc.Off? {
        var c :| RunsOn(s, j, c);
        assert RunsOn(s', j, c);
      }
    }
  }

  lemma EveryoneKnown(s: State, s': State, i: Slot, o: Slot, j: Slot)
    requires Inv(s) && Quiet(s, s', i, o) && Local(s', i, o) && j < |s.procs|
    ensures Known(s', j)
  {
    if j != i && j != o {
      assert Known(s, i) && Known(s, o) && Known(s, j) && PairOk(s, i, j) && PairOk(s, o, j);
      ThirdLocks(s, s', i, o, j);
      ThirdState(s, s', i, o, j);
      ThirdFamily(s, s', i, o, j);
      ThirdHistory(s, s', i, o, j);
    }
  }

  lemma EveryPair(s: State, s': State, i: Slot, o: Slot, j: Slot, k: Slot)
    requires Inv(s) && Quiet(s, s', i, o) && Local(s', i, o) && j < |s.procs| && k < |s.procs|
    ensures PairOk(s', j, k)
  {
    assert Known(s, i) && Known(s, o) && Known(s, j) && Known(s, k) && PairOk(s, j, k);
    if j != i && j != o {
      if k == i {
        ToStepper(s, s', i, o, j);
      } else if k == o {
        ToOther(s, s', i, o, j);
      } else {
        ThirdPair(s, s', i, o, j, k);
      }
    } else if k != i && k != o {
      if j == i {
        FromStepper(s, s', i, o, k);
      } else {
        FromOther(s, s', i, o, k);
      }
    }
  }

  // The record of exits and reaps grows consistently.
  ghost predicate RecordsOk(s: State) {
    && (forall pid :: pid in s.reaps ==> ReapOk(s, pid))
    && (forall pid :: pid in s.exits || pid in s.calls ==> 0 < pid < s.nextpid)
  }

  lemma Assemble(s: State, s': State, i: Slot, o: Slot)
    requires Inv(s) && Quiet(s, s', i, o) && Local(s', i, o) && CpusInOrder(s') && RecordsOk(s')
    ensures Inv(s')
  {
    forall j | 0 <= j < |s'.procs|
      ensures LocksOk(s', j) && StateOk(s', j) && FamilyOk(s', j) && HistoryOk(s', j)
    {
      EveryoneKnown(s, s', i, o, j);
    }
    forall j | 0 <= j < |s'.procs|
      ensures KidsOk(s', j)
    {
      assert KidsOk(s, j);
      KidsStay(s, s', i, o, j);
    }
    forall j, k | 0 <= j < |s'.procs| && 0 <= k < |s'.procs|
      ensures PairOk(s', j, k)
    {
      EveryPair(s, s', i, o, j, k);
    }
  }

  lemma InvLocal(s: State, i: Slot, o: Slot)
    requires Inv(s) && i < |s.procs| && o < |s.procs|
    ensures Local(s, i, o) && One(s, i)
  {
    assert Known(s, i) && Known(s, o);
  }

  // exits and reaps are as before.
  lemma RecordsKept(s: State, s': State)
    requires Inv(s) && SameRecords(s, s') && s.nextpid <= s'.nextpid
    ensures RecordsOk(s')
  {
    forall pid | pid in s'.reaps
      ensures ReapOk(s', pid)
    {
      assert ReapOk(s, pid);
    }
  }

  lemma CallKeepsRecords(s: State, s': State, i: Slot, status: int)
    requires Inv(s) && ExitBeginStep(s, s', i, status)
    ensures RecordsOk(s')
  {
    assert StateOk(s, i) && HistoryOk(s, i);
    forall pid | pid in s'.reaps
      ensures ReapOk(s', pid)
    {
      assert ReapOk(s, pid);
    }
  }

  lemma ZombieKeepsRecords(s: State, s': State, i: Slot)
    requires Inv(s) && ExitZombieStep(s, s', i)
    ensures RecordsOk(s')
  {
    assert StateOk(s, i) && HistoryOk(s, i);
    forall pid | pid in s'.reaps
      ensures ReapOk(s', pid)
    {
      assert ReapOk(s, pid);
    }
  }

  lemma ReapKeepsRecords(s: State, s': State, i: Slot)
    requires Inv(s) && WaitReapStep(s, s', i)
    ensures RecordsOk(s')
  {
    assert HistoryOk(s, s.procs[i].pc.k) && StateOk(s, s.procs[i].pc.k);
    forall pid | pid in s'.reaps
      ensures ReapOk(s', pid)
    {
      if pid in s.reaps { assert ReapOk(s, pid); }
    }
  }

  lemma InvRecords(s: State)
    requires Inv(s)
    ensures forall pid :: pid in s.calls || pid in s.exits || pid in s.reaps ==> pid < s.nextpid
  {
    forall pid | pid in s.reaps
      ensures pid < s.nextpid
    {
      assert ReapOk(s, pid);
    }
  }

  lemma InitFamily(s: State)
    requires Inv(s)
    ensures FamilyOk(s, INIT)
  {
  }

  lemma ConcludeReap(s: State, s': State, i: Slot, o: Slot)
    requires Inv(s) && Fine(s, s', i, o) && RecordsOk(s')
    ensures Inv(s')
  {
    hide QuietLocks, QuietFamily, QuietPairs, QuietHistory, Local;
    CpusStayInOrder(s, s', i, o);
    Assemble(s, s', i, o);
  }

  lemma Conclude(s: State, s': State, i: Slot, o: Slot)
    requires Inv(s) && Fine(s, s', i, o) && SameRecords(s, s')
    ensures Inv(s')
  {
    hide Inv, QuietLocks, QuietPairs, QuietHistory, Local, RecordsOk, CpusKept;
    RecordsKept(s, s');
    ConcludeReap(s, s', i, o);
  }

  lemma ConcludeExit(s: State, s': State, i: Slot)
    requires Inv(s) && FineAlone(s, s', i) && RecordsOk(s')
    ensures Inv(s')
  {
    hide QuietLocks, QuietFamily, QuietPairs, QuietHistory;
    CpusStayInOrder(s, s', i, i);
    Assemble(s, s', i, i);
  }

  lemma ConcludeAlone(s: State, s': State, i: Slot)
    requires Inv(s) && FineAlone(s, s', i) && SameRecords(s, s')
    ensures Inv(s')
  {
    hide Inv, QuietLocks, QuietPairs, QuietHistory, One, RecordsOk, CpusKept;
    RecordsKept(s, s');
    ConcludeExit(s, s', i);
  }

  lemma ConcludeSwitch(s: State, s': State, i: Slot)
    requires Inv(s) && FineBut(s, s', i) && SameRecords(s, s') && CpusInOrder(s')
    ensures Inv(s')
  {
    hide QuietLocks, QuietPairs, QuietHistory;
    RecordsKept(s, s');
    Assemble(s, s', i, i);
  }

  lemma SwitchOutKeepsCpus(s: State, s': State, i: Slot, c: nat)
    requires Inv(s) && SwitchOutStep(s, s', i, c)
    ensures CpusInOrder(s')
  {
    forall d | 0 <= d < |s'.cpus|
      ensures CpuOk(s', d)
    {
      assert CpuOk(s, d) && CpusDiffer(s, c, d);
    }
    forall d, e | 0 <= d < |s'.cpus| && 0 <= e < |s'.cpus|
      ensures CpusDiffer(s', d, e)
    {
      assert CpusDiffer(s, d, e);
    }
    forall j | 0 <= j < |s'.procs|
      ensures OnSome(s', j)
    {
      assert OnSome(s, j);
      if j != i && !s.procs[j].pc.Off? {
        var d :| RunsOn(s, j, d);
        assert RunsOn(s', j, d);
      }
    }
  }

  lemma DispatchKeepsCpus(s: State, s': State, i: Slot, c: nat)
    requires Inv(s) && DispatchStep(s, s', i, c)
    ensures CpusInOrder(s')
  {
    RunnableIsOff(s, i);
    forall d | 0 <= d < |s'.cpus|
      ensures CpuOk(s', d)
    {
      assert CpuOk(s, d);
    }
    forall d, e | 0 <= d < |s'.cpus| && 0 <= e < |s'.cpus|
      ensures CpusDiffer(s', d, e)
    {
      assert CpusDiffer(s, d, e) && CpuOk(s, d) && CpuOk(s, e);
    }
    forall j | 0 <= j < |s'.procs|
      ensures OnSome(s', j)
    {
      assert OnSome(s, j);
      if j == i {
        assert RunsOn(s', i, c);
      } else if !s.procs[j].pc.Off? {
        var d :| RunsOn(s, j, d);
        assert RunsOn(s', j, d);
      }
    }
  }

  // What the scheduler looks at, the state and the lock, is enough: the process has been switched out.
  lemma RunnableIsOff(s: State, i: Slot)
    requires Inv(s) && i < |s.procs| && s.procs[i].state == RUNNABLE && s.procs[i].own == None
    ensures s.procs[i].pc.Off?
  {
    assert StateOk(s, i) && LocksOk(s, i);
  }

  // ---------- each step by itself ----------

  lemma ForkAllocIsFine(s: State, s': State, i: Slot, np: Slot)
    requires ForkAllocStep(s, s', i, np) && Local(s, i, np)
    requires forall pid :: pid in s.calls || pid in s.exits || pid in s.reaps ==> pid < s.nextpid
    ensures Fine(s, s', i, np) && SameRecords(s, s')
  {
  }

  lemma ForkAllocKeepsInv(s: State, s': State, i: Slot, np: Slot)
    requires Inv(s) && ForkAllocStep(s, s', i, np)
    ensures Inv(s')
  {
    hide Inv, Local, Fine, SameRecords, Entries, Moves;
    InvRecords(s);
    InvLocal(s, i, np);
    ForkAllocIsFine(s, s', i, np);
    Conclude(s, s', i, np);
  }

  lemma ForkFailIsFine(s: State, s': State, i: Slot)
    requires ForkFailStep(s, s', i) && Local(s, i, s.procs[i].pc.np)
    ensures Fine(s, s', i, s.procs[i].pc.np) && SameRecords(s, s')
  {
  }

  lemma ForkFailKeepsInv(s: State, s': State, i: Slot)
    requires Inv(s) && ForkFailStep(s, s', i)
    ensures Inv(s')
  {
    hide Inv, Local, Fine, SameRecords, Entries, Moves;
    InvLocal(s, i, s.procs[i].pc.np);
    ForkFailIsFine(s, s', i);
    Conclude(s, s', i, s.procs[i].pc.np);
  }

  lemma ForkUnlockIsFine(s: State, s': State, i: Slot)
    requires ForkUnlockStep(s, s', i) && Local(s, i, s.procs[i].pc.np)
    ensures Fine(s, s', i, s.procs[i].pc.np) && SameRecords(s, s')
  {
  }

  lemma ForkUnlockKeepsInv(s: State, s': State, i: Slot)
    requires Inv(s) && ForkUnlockStep(s, s', i)
    ensures Inv(s')
  {
    hide Inv, Local, Fine, SameRecords, Entries, Moves;
    InvLocal(s, i, s.procs[i].pc.np);
    ForkUnlockIsFine(s, s', i);
    Conclude(s, s', i, s.procs[i].pc.np);
  }

  lemma ForkTakeKeepsInv(s: State, s': State, i: Slot)
    requires Inv(s) && ForkTakeStep(s, s', i)
    ensures Inv(s')
  {
    hide Inv, RecordsOk, CpusInOrder;
    InvLocal(s, i, i);
    ConcludeAlone(s, s', i);
  }

  lemma ForkSetParentIsFine(s: State, s': State, i: Slot)
    requires ForkSetParentStep(s, s', i) && Local(s, i, s.procs[i].pc.np)
    ensures Fine(s, s', i, s.procs[i].pc.np) && SameRecords(s, s')
  {
  }

  lemma ForkSetParentKeepsInv(s: State, s': State, i: Slot)
    requires Inv(s) && ForkSetParentStep(s, s', i)
    ensures Inv(s')
  {
    hide Inv, Local, Fine, SameRecords, Entries, Moves;
    InvLocal(s, i, s.procs[i].pc.np);
    ForkSetParentIsFine(s, s', i);
    Conclude(s, s', i, s.procs[i].pc.np);
  }

  lemma ForkStartIsFine(s: State, s': State, i: Slot)
    requires ForkStartStep(s, s', i) && Local(s, i, s.procs[i].pc.np)
    ensures Fine(s, s', i, s.procs[i].pc.np) && SameRecords(s, s')
  {
  }

  lemma ForkStartKeepsInv(s: State, s': State, i: Slot)
    requires Inv(s) && ForkStartStep(s, s', i)
    ensures Inv(s')
  {
    hide Inv, Local, Fine, SameRecords, Entries, Moves;
    InvLocal(s, i, s.procs[i].pc.np);
    ForkStartIsFine(s, s', i);
    Conclude(s, s', i, s.procs[i].pc.np);
  }

  lemma ExitBeginKeepsInv(s: State, s': State, i: Slot, status: int)
    requires Inv(s) && ExitBeginStep(s, s', i, status)
    ensures Inv(s')
  {
    hide Inv, RecordsOk, CpusInOrder;
    InvLocal(s, i, i);
    CallKeepsRecords(s, s', i, status);
    ConcludeExit(s, s', i);
  }

  lemma ExitTakeKeepsInv(s: State, s': State, i: Slot)
    requires Inv(s) && ExitTakeStep(s, s', i)
    ensures Inv(s')
  {
    hide Inv, RecordsOk, CpusInOrder;
    InvLocal(s, i, i);
    ConcludeAlone(s, s', i);
  }

  lemma ExitGiveIsFine(s: State, s': State, i: Slot)
    requires ExitGiveStep(s, s', i) && Local(s, i, s.procs[i].pc.k)
    requires FamilyOk(s, INIT)
    ensures Fine(s, s', i, s.procs[i].pc.k) && SameRecords(s, s')
  {
  }

  lemma ExitGiveKeepsInv(s: State, s': State, i: Slot)
    requires Inv(s) && ExitGiveStep(s, s', i)
    ensures Inv(s')
  {
    hide Inv, Local, Fine, SameRecords, Entries, Moves;
    InitFamily(s);
    InvLocal(s, i, s.procs[i].pc.k);
    ExitGiveIsFine(s, s', i);
    Conclude(s, s', i, s.procs[i].pc.k);
  }

  lemma ExitPassIsQuiet(s: State, s': State, i: Slot)
    requires ExitPassStep(s, s', i) && Local(s, i, s.procs[i].pc.k)
    ensures Quiet(s, s', i, s.procs[i].pc.k) && CpusKept(s, s', i, s.procs[i].pc.k)
  {
  }

  lemma ExitPassKeepsLocal(s: State, s': State, i: Slot)
    requires ExitPassStep(s, s', i) && Local(s, i, s.procs[i].pc.k)
    ensures Local(s', i, s.procs[i].pc.k)
  {
  }

  lemma ExitPassKeepsInv(s: State, s': State, i: Slot)
    requires Inv(s) && ExitPassStep(s, s', i)
    ensures Inv(s')
  {
    hide Inv, Quiet, Local, CpusKept, RecordsOk;
    var o := s.procs[i].pc.k;
    InvLocal(s, i, o);
    ExitPassIsQuiet(s, s', i);
    ExitPassKeepsLocal(s, s', i);
    Conclude(s, s', i, o);
  }

  lemma ExitEndKeepsInv(s: State, s': State, i: Slot)
    requires Inv(s) && ExitEndStep(s, s', i)
    ensures Inv(s')
  {
    hide Inv, RecordsOk, CpusInOrder;
    InvLocal(s, i, i);
    ConcludeAlone(s, s', i);
  }

  lemma ExitPokeInitIsFine(s: State, s': State, i: Slot)
    requires ExitPokeInitStep(s, s', i) && Local(s, i, INIT)
    ensures Fine(s, s', i, INIT) && SameRecords(s, s')
  {
  }

  lemma ExitPokeInitKeepsInv(s: State, s': State, i: Slot)
    requires Inv(s) && ExitPokeInitStep(s, s', i)
    ensures Inv(s')
  {
    hide Inv, Local, Fine, SameRecords, Entries, Moves;
    InvLocal(s, i, INIT);
    ExitPokeInitIsFine(s, s', i);
    Conclude(s, s', i, INIT);
  }

  lemma ExitTellParentIsFine(s: State, s': State, i: Slot)
    requires ExitTellParentStep(s, s', i) && Local(s, i, s.procs[i].parent.value)
    ensures Fine(s, s', i, s.procs[i].parent.value) && SameRecords(s, s')
  {
    assert Alive(s.procs[s.procs[i].parent.value]);
  }

  lemma ExitTellParentKeepsInv(s: State, s': State, i: Slot)
    requires Inv(s) && ExitTellParentStep(s, s', i)
    ensures Inv(s')
  {
    hide Inv, Local, Fine, SameRecords, Entries, Moves;
    InvLocal(s, i, s.procs[i].parent.value);
    ExitTellParentIsFine(s, s', i);
    Conclude(s, s', i, s.procs[i].parent.value);
  }

  lemma ExitTakeSelfKeepsInv(s: State, s': State, i: Slot)
    requires Inv(s) && ExitTakeSelfStep(s, s', i)
    ensures Inv(s')
  {
    hide Inv, RecordsOk, CpusInOrder;
    InvLocal(s, i, i);
    ConcludeAlone(s, s', i);
  }

  lemma ExitZombieKeepsInv(s: State, s': State, i: Slot)
    requires Inv(s) && ExitZombieStep(s, s', i)
    ensures Inv(s')
  {
    hide Inv, RecordsOk, CpusInOrder;
    InvLocal(s, i, i);
    ZombieKeepsRecords(s, s', i);
    ConcludeExit(s, s', i);
  }

  lemma ExitReleaseKeepsInv(s: State, s': State, i: Slot)
    requires Inv(s) && ExitReleaseStep(s, s', i)
    ensures Inv(s')
  {
    hide Inv, RecordsOk, CpusInOrder;
    InvLocal(s, i, i);
    ConcludeAlone(s, s', i);
  }

  lemma WaitBeginKeepsInv(s: State, s': State, i: Slot)
    requires Inv(s) && WaitBeginStep(s, s', i)
    ensures Inv(s')
  {
    hide Inv, RecordsOk, CpusInOrder;
    InvLocal(s, i, i);
    ConcludeAlone(s, s', i);
  }

  lemma WaitTakeKeepsInv(s: State, s': State, i: Slot)
    requires Inv(s) && WaitTakeStep(s, s', i)
    ensures Inv(s')
  {
    hide Inv, RecordsOk, CpusInOrder;
    InvLocal(s, i, i);
    ConcludeAlone(s, s', i);
  }

  lemma WaitLookIsFine(s: State, s': State, i: Slot)
    requires WaitLookStep(s, s', i) && Local(s, i, s.procs[i].pc.k)
    ensures Fine(s, s', i, s.procs[i].pc.k) && SameRecords(s, s')
  {
  }

  lemma WaitLookKeepsInv(s: State, s': State, i: Slot)
    requires Inv(s) && WaitLookStep(s, s', i)
    ensures Inv(s')
  {
    hide Inv, Local, Fine, SameRecords, Entries, Moves;
    InvLocal(s, i, s.procs[i].pc.k);
    WaitLookIsFine(s, s', i);
    Conclude(s, s', i, s.procs[i].pc.k);
  }

  lemma WaitPassIsQuiet(s: State, s': State, i: Slot)
    requires WaitPassStep(s, s', i) && Local(s, i, s.procs[i].pc.k)
    ensures Quiet(s, s', i, s.procs[i].pc.k) && CpusKept(s, s', i, s.procs[i].pc.k)
  {
  }

  lemma WaitPassKeepsLocal(s: State, s': State, i: Slot)
    requires WaitPassStep(s, s', i) && Local(s, i, s.procs[i].pc.k)
    ensures Local(s', i, s.procs[i].pc.k)
  {
  }

  lemma WaitPassKeepsInv(s: State, s': State, i: Slot)
    requires Inv(s) && WaitPassStep(s, s', i)
    ensures Inv(s')
  {
    hide Inv, Quiet, Local, CpusKept, RecordsOk;
    var o := s.procs[i].pc.k;
    InvLocal(s, i, o);
    WaitPassIsQuiet(s, s', i);
    WaitPassKeepsLocal(s, s', i);
    Conclude(s, s', i, o);
  }

  lemma WaitReapIsQuiet(s: State, s': State, i: Slot)
    requires WaitReapStep(s, s', i) && Local(s, i, s.procs[i].pc.k)
    ensures Quiet(s, s', i, s.procs[i].pc.k) && CpusKept(s, s', i, s.procs[i].pc.k)
  {
  }

  lemma WaitReapKeepsKnown(s: State, s': State, i: Slot)
    requires WaitReapStep(s, s', i) && Local(s, i, s.procs[i].pc.k)
    ensures Known(s', i)
  {
  }

  lemma WaitReapFreesEntry(s: State, s': State, i: Slot)
    requires WaitReapStep(s, s', i) && Local(s, i, s.procs[i].pc.k)
    ensures Known(s', s.procs[i].pc.k)
  {
  }

  lemma WaitReapKeepsLocal(s: State, s': State, i: Slot)
    requires WaitReapStep(s, s', i) && Local(s, i, s.procs[i].pc.k)
    ensures Local(s', i, s.procs[i].pc.k)
  {
    hide LocksOk, HistoryOk;
    WaitReapKeepsKnown(s, s', i);
    WaitReapFreesEntry(s, s', i);
  }

  lemma WaitReapKeepsInv(s: State, s': State, i: Slot)
    requires Inv(s) && WaitReapStep(s, s', i)
    ensures Inv(s')
  {
    hide Inv, Quiet, Local, CpusKept, RecordsOk;
    var o := s.procs[i].pc.k;
    InvLocal(s, i, o);
    WaitReapIsQuiet(s, s', i);
    WaitReapKeepsLocal(s, s', i);
    ReapKeepsRecords(s, s', i);
    ConcludeReap(s, s', i, o);
  }

  lemma WaitFaultIsFine(s: State, s': State, i: Slot)
    requires WaitFaultStep(s, s', i) && Local(s, i, s.procs[i].pc.k)
    ensures Fine(s, s', i, s.procs[i].pc.k) && SameRecords(s, s')
  {
  }

  lemma WaitFaultKeepsInv(s: State, s': State, i: Slot)
    requires Inv(s) && WaitFaultStep(s, s', i)
    ensures Inv(s')
  {
    hide Inv, Local, Fine, SameRecords, Entries, Moves;
    InvLocal(s, i, s.procs[i].pc.k);
    WaitFaultIsFine(s, s', i);
    Conclude(s, s', i, s.procs[i].pc.k);
  }

  lemma WaitSkipIsFine(s: State, s': State, i: Slot)
    requires WaitSkipStep(s, s', i) && Local(s, i, s.procs[i].pc.k)
    ensures Fine(s, s', i, s.procs[i].pc.k) && SameRecords(s, s')
  {
  }

  lemma WaitSkipKeepsInv(s: State, s': State, i: Slot)
    requires Inv(s) && WaitSkipStep(s, s', i)
    ensures Inv(s')
  {
    hide Inv, Local, Fine, SameRecords, Entries, Moves;
    InvLocal(s, i, s.procs[i].pc.k);
    WaitSkipIsFine(s, s', i);
    Conclude(s, s', i, s.procs[i].pc.k);
  }

  lemma WaitGiveUpKeepsInv(s: State, s': State, i: Slot)
    requires Inv(s) && WaitGiveUpStep(s, s', i)
    ensures Inv(s')
  {
    hide Inv, RecordsOk, CpusInOrder;
    InvLocal(s, i, i);
    ConcludeAlone(s, s', i);
  }

  lemma WaitSleepKeepsInv(s: State, s': State, i: Slot)
    requires Inv(s) && WaitSleepStep(s, s', i)
    ensures Inv(s')
  {
    hide Inv, RecordsOk, CpusInOrder;
    InvLocal(s, i, i);
    ConcludeAlone(s, s', i);
  }

  lemma WaitTakeSelfKeepsInv(s: State, s': State, i: Slot)
    requires Inv(s) && WaitTakeSelfStep(s, s', i)
    ensures Inv(s')
  {
    hide Inv, RecordsOk, CpusInOrder;
    InvLocal(s, i, i);
    ConcludeAlone(s, s', i);
  }

  lemma WaitReleaseKeepsInv(s: State, s': State, i: Slot)
    requires Inv(s) && WaitReleaseStep(s, s', i)
    ensures Inv(s')
  {
    hide Inv, RecordsOk, CpusInOrder;
    InvLocal(s, i, i);
    ConcludeAlone(s, s', i);
  }

  lemma WaitDozeOffKeepsInv(s: State, s': State, i: Slot)
    requires Inv(s) && WaitDozeOffStep(s, s', i)
    ensures Inv(s')
  {
    hide Inv, RecordsOk, CpusInOrder;
    InvLocal(s, i, i);
    ConcludeAlone(s, s', i);
  }

  lemma DozeElsewhereKeepsInv(s: State, s': State, i: Slot)
    requires Inv(s) && DozeElsewhereStep(s, s', i)
    ensures Inv(s')
  {
    hide Inv, RecordsOk, CpusInOrder;
    InvLocal(s, i, i);
    ConcludeAlone(s, s', i);
  }

  lemma WakeElsewhereKeepsInv(s: State, s': State, i: Slot)
    requires Inv(s) && WakeElsewhereStep(s, s', i)
    ensures Inv(s')
  {
    hide Inv, RecordsOk, CpusInOrder;
    InvLocal(s, i, i);
    ConcludeAlone(s, s', i);
  }

  lemma KillWakesInv(s: State, s': State, i: Slot)
    requires Inv(s) && KillStep(s, s', i) && s.procs[i].state == SLEEPING
    ensures Inv(s')
  {
    hide Inv, RecordsOk, CpusInOrder;
    InvLocal(s, i, i);
    ConcludeAlone(s, s', i);
  }

  // Nobody's part of the invariant looks at killed.
  lemma KilledKnown(s: State, s': State, i: Slot, j: Slot)
    requires i < |s.procs| && MovesAlone(s, s', i, s.procs[i].(killed := true), s.waitLock)
    requires j < |s.procs| && Known(s, j)
    ensures Known(s', j)
  {
    hide FamilyOk;
    KilledFamily(s, s', i, j);
  }

  lemma KilledFamily(s: State, s': State, i: Slot, j: Slot)
    requires i < |s.procs| && MovesAlone(s, s', i, s.procs[i].(killed := true), s.waitLock)
    requires j < |s.procs| && FamilyOk(s, j)
    ensures FamilyOk(s', j)
  {
  }

  lemma KilledPair(s: State, s': State, i: Slot, j: Slot, k: Slot)
    requires i < |s.procs| && MovesAlone(s, s', i, s.procs[i].(killed := true), s.waitLock)
    requires j < |s.procs| && k < |s.procs| && PairOk(s, j, k)
    ensures PairOk(s', j, k)
  {
  }

  lemma KilledPlace(s: State, s': State, i: Slot, j: Slot)
    requires i < |s.procs| && MovesAlone(s, s', i, s.procs[i].(killed := true), s.waitLock)
    requires j < |s.procs| && OnSome(s, j) && KidsOk(s, j)
    ensures OnSome(s', j) && KidsOk(s', j)
  {
    if !s'.procs[j].pc.Off? {
      var c :| RunsOn(s, j, c);
      assert RunsOn(s', j, c);
    }
    if SawKids(s'.procs[j].pc) {
      var c :| ChildOf(s, c, j);
      assert ChildOf(s', c, j);
    }
  }

  lemma KilledCpu(s: State, s': State, i: Slot, c: nat, d: nat)
    requires i < |s.procs| && MovesAlone(s, s', i, s.procs[i].(killed := true), s.waitLock)
    requires c < |s.cpus| && d < |s.cpus| && CpuOk(s, c) && CpusDiffer(s, c, d)
    ensures CpuOk(s', c) && CpusDiffer(s', c, d)
  {
  }

  lemma KillKeepsInv(s: State, s': State, i: Slot)
    requires Inv(s) && KillStep(s, s', i)
    ensures Inv(s')
  {
    if s.procs[i].state == SLEEPING {
      KillWakesInv(s, s', i);
    } else {
      KilledOnly(s, s', i);
    }
  }

  lemma KilledOnly(s: State, s': State, i: Slot)
    requires Inv(s) && i < |s.procs| && MovesAlone(s, s', i, s.procs[i].(killed := true), s.waitLock)
    ensures Inv(s')
  {
    hide LocksOk, StateOk, FamilyOk, HistoryOk, PairOk, OnSome, KidsOk, CpuOk, CpusDiffer, ReapOk;
    forall j | 0 <= j < |s'.procs|
      ensures LocksOk(s', j) && StateOk(s', j) && FamilyOk(s', j) && HistoryOk(s', j) && OnSome(s', j) && KidsOk(s', j)
    {
      assert Known(s, j);
      KilledKnown(s, s', i, j);
      KilledPlace(s, s', i, j);
    }
    forall j, k | 0 <= j < |s'.procs| && 0 <= k < |s'.procs|
      ensures PairOk(s', j, k)
    {
      KilledPair(s, s', i, j, k);
    }
    forall c | 0 <= c < |s'.cpus|
      ensures CpuOk(s', c)
    {
      assert CpusDiffer(s, c, c);
      KilledCpu(s, s', i, c, c);
    }
    forall c, d | 0 <= c < |s'.cpus| && 0 <= d < |s'.cpus|
      ensures CpusDiffer(s', c, d)
    {
      KilledCpu(s, s', i, c, d);
    }
    RecordsKept(s, s');
  }

  lemma YieldKeepsInv(s: State, s': State, i: Slot)
    requires Inv(s) && YieldStep(s, s', i)
    ensures Inv(s')
  {
    hide Inv, RecordsOk, CpusInOrder;
    InvLocal(s, i, i);
    ConcludeAlone(s, s', i);
  }

  lemma SwitchOutKeepsInv(s: State, s': State, i: Slot, c: nat)
    requires Inv(s) && SwitchOutStep(s, s', i, c)
    ensures Inv(s')
  {
    hide Inv, RecordsOk, CpusInOrder;
    InvLocal(s, i, i);
    SwitchOutKeepsCpus(s, s', i, c);
    ConcludeSwitch(s, s', i);
  }

  lemma CpuReleaseKeepsInv(s: State, s': State, i: Slot, c: nat)
    requires Inv(s) && CpuReleaseStep(s, s', i, c)
    ensures Inv(s')
  {
    hide Inv, RecordsOk, CpusInOrder;
    InvLocal(s, i, i);
    ConcludeAlone(s, s', i);
  }

  lemma DispatchKeepsInv(s: State, s': State, i: Slot, c: nat)
    requires Inv(s) && DispatchStep(s, s', i, c)
    ensures Inv(s')
  {
    hide Inv, RecordsOk, CpusInOrder;
    InvLocal(s, i, i);
    DispatchKeepsCpus(s, s', i, c);
    ConcludeSwitch(s, s', i);
  }

  lemma ContinueKeepsInv(s: State, s': State, i: Slot)
    requires Inv(s) && ContinueStep(s, s', i)
    ensures Inv(s')
  {
    hide Inv, RecordsOk, CpusInOrder;
    InvLocal(s, i, i);
    ConcludeAlone(s, s', i);
  }
}
