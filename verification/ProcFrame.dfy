/** What a step of the process machine must respect so that nobody else's part of the invariant
    is disturbed.  A step changes its own entry i and at most one other entry o. */
module ProcFrame {
  import opened Blocks
  import opened ProcMachine
  import opened ProcSafety

  ghost predicate QuietLocks(s: State, s': State, i: Slot, o: Slot)
    requires Changes(s, s', i, o)
  {
    var p, p', q, q' := s.procs[i], s'.procs[i], s.procs[o], s'.procs[o];
    && (s'.waitLock == s.waitLock || (s.waitLock == None && s'.waitLock == Some(i)) || (s.waitLock == Some(i) && s'.waitLock == None))
    && (Held(p.pc).Some? && Held(p.pc) != Some(o) ==> Held(p'.pc) == Held(p.pc))
    && (o != i ==> Held(q'.pc) == Held(q.pc))
    && (p.own.Some? && p.own.value.ByProc? && p.own.value.i != i ==> p'.own == p.own)
    && (q.own.Some? && q.own.value.ByProc? && q.own.value.i != o && q.own.value.i != i ==> q'.own == q.own)
  }

  ghost predicate QuietFamily(s: State, s': State, i: Slot, o: Slot)
    requires Changes(s, s', i, o)
  {
    var p, p', q, q' := s.procs[i], s'.procs[i], s.procs[o], s'.procs[o];
    && s.nextpid <= s'.nextpid
    && p'.parent == p.parent && p.state != USED && p.state != UNUSED
    && (Alive(p) ==> Alive(p') || p.pc.ExitMark?)
    && (Alive(q) && o != i ==> Alive(q'))
    && (q.state == USED && q.maker != Some(i) ==> q'.state == USED && q'.maker == q.maker && q'.parent == q.parent)
    && (Making(p.pc).Some? && Making(p.pc) != Some(o) ==> Making(p'.pc) == Making(p.pc))
    && (o != i ==> Making(q'.pc) == Making(q.pc))
    && (q.parent.Some? && q.parent != Some(i) ==> q'.parent == q.parent)
    && (q'.parent == q.parent || q'.parent == None || q'.parent == Some(i) || q'.parent == Some(INIT))
  }

  function Min(a: nat, b: nat): nat {
    if a < b then a else b
  }

  ghost predicate QuietPairs(s: State, s': State, i: Slot, o: Slot)
    requires Changes(s, s', i, o)
  {
    var n := |s.procs|;
    var p, p', q, q' := s.procs[i], s'.procs[i], s.procs[o], s'.procs[o];
    && p'.pid == p.pid && (q'.state != UNUSED ==> q'.pid == q.pid || q'.pid == s.nextpid)
    && (q'.state != UNUSED && q'.pid == q.pid ==> q.state != UNUSED)
    && (Min(Reparented(p'.pc, n), n) <= Min(Reparented(p.pc, n), n)
        || (Reparented(p'.pc, n) == Reparented(p.pc, n) + 1 && Reparented(p.pc, n) == o))
    && (Min(Searched(p'.pc, n), n) <= Min(Searched(p.pc, n), n)
        || (Searched(p'.pc, n) == Searched(p.pc, n) + 1 && Searched(p.pc, n) == o))
    && (Min(Childless(p'.pc), n) <= Min(Childless(p.pc), n)
        || (Childless(p'.pc) == Childless(p.pc) + 1 && Childless(p.pc) == o))
    && (SawKids(p'.pc) ==> (SawKids(p.pc) || q'.parent == Some(i)) && (q.parent == Some(i) ==> q'.parent == Some(i)))
    && (Dozing(p') && !Dozing(p) ==> p.pc.WaitDrop?)
    && (p'.state == ZOMBIE && p.state != ZOMBIE ==> p.pc.ExitMark?)
    && (p'.pc.ExitSelf? && !p.pc.ExitSelf? ==> p.parent == Some(o) && o != i)
    && (p'.pc.ExitMark? && !p.pc.ExitMark? ==> p.pc.ExitSelf?)
    && (p.pc.ExitPoke? && s.waitLock == Some(i) && !p'.pc.ExitPoke? ==> o == INIT && o != i && !Dozing(q'))
    && (s'.waitLock != s.waitLock ==> !p.pc.ExitPoke?)
    && (o != i ==> Reparented(q'.pc, n) == Reparented(q.pc, n) && Searched(q'.pc, n) == Searched(q.pc, n))
    && (o != i ==> Childless(q'.pc) == Childless(q.pc) && (SawKids(q'.pc) ==> SawKids(q.pc)))
    && (o != i ==> (Dozing(q') ==> Dozing(q)) && (q.pc.ExitPoke? ==> q'.pc.ExitPoke?))
    && (o != i ==> (q'.state == ZOMBIE ==> q.state == ZOMBIE))
    && (o != i ==> (q'.pc.ExitSelf? || q'.pc.ExitMark? ==> q'.pc == q.pc))
    && (q'.parent != q.parent && q'.parent == Some(INIT) && i != INIT ==> s'.waitLock == Some(i) && p'.pc.ExitPoke? && HasWait(p.pc))
    && (q'.parent != q.parent && q'.parent == Some(i) ==> q.state == USED)
  }

  ghost predicate QuietHistory(s: State, s': State, i: Slot, o: Slot)
    requires Changes(s, s', i, o)
  {
    && (s'.exits == s.exits || (s.procs[i].state != UNUSED && s'.exits.Keys == s.exits.Keys + {s.procs[i].pid}
          && forall x :: x in s.exits && x != s.procs[i].pid ==> s'.exits[x] == s.exits[x]))
    && (s'.calls == s.calls || (s.procs[i].state != UNUSED && s'.calls.Keys == s.calls.Keys + {s.procs[i].pid}
          && forall x :: x in s.calls && x != s.procs[i].pid ==> s'.calls[x] == s.calls[x]))
    && (s'.reaps == s.reaps || (s.procs[o].state != UNUSED && s'.reaps.Keys == s.reaps.Keys + {s.procs[o].pid}))
  }

  // ---------- third parties ----------

  lemma ThirdLocks(s: State, s': State, i: Slot, o: Slot, j: Slot)
    requires Changes(s, s', i, o) && j < |s.procs| && j != i && j != o
    requires QuietLocks(s, s', i, o) && LocksOk(s, i) && LocksOk(s, o) && LocksOk(s, j)
    ensures LocksOk(s', j)
  {
  }

  lemma ThirdState(s: State, s': State, i: Slot, o: Slot, j: Slot)
    requires Changes(s, s', i, o) && j < |s.procs| && j != i && j != o
    requires s.nextpid <= s'.nextpid && StateOk(s, j)
    ensures StateOk(s', j)
  {
  }

  lemma ThirdFamily(s: State, s': State, i: Slot, o: Slot, j: Slot)
    requires Changes(s, s', i, o) && j < |s.procs| && j != i && j != o
    requires QuietFamily(s, s', i, o) && FamilyOk(s, i) && FamilyOk(s, o) && FamilyOk(s, j)
    requires s.procs[i].pc.ExitMark? ==> s.procs[j].parent != Some(i)
    ensures FamilyOk(s', j)
  {
  }

  lemma ThirdHistory(s: State, s': State, i: Slot, o: Slot, j: Slot)
    requires Changes(s, s', i, o) && j < |s.procs| && j != i && j != o
    requires QuietHistory(s, s', i, o) && HistoryOk(s, j) && PairOk(s, i, j) && PairOk(s, o, j)
    ensures HistoryOk(s', j)
  {
  }

  lemma ThirdPair(s: State, s': State, i: Slot, o: Slot, j: Slot, k: Slot)
    requires Changes(s, s', i, o) && j < |s.procs| && j != i && j != o && k < |s.procs| && k != i && k != o
    requires QuietLocks(s, s', i, o) && QuietPairs(s, s', i, o) && LocksOk(s, i) && PairOk(s, j, k)
    ensures PairOk(s', j, k)
  {
  }

  // ---------- the stepping process and a third party ----------

  lemma FromStepper(s: State, s': State, i: Slot, o: Slot, j: Slot)
    requires Changes(s, s', i, o) && j < |s.procs| && j != i && j != o
    requires QuietLocks(s, s', i, o) && QuietPairs(s, s', i, o)
    requires LocksOk(s, i) && LocksOk(s, j) && PairOk(s, i, j) && s.procs[i].state != UNUSED
    ensures PairOk(s', i, j)
  {
  }

  lemma ToStepper(s: State, s': State, i: Slot, o: Slot, j: Slot)
    requires Changes(s, s', i, o) && j < |s.procs| && j != i && j != o
    requires QuietLocks(s, s', i, o) && QuietFamily(s, s', i, o) && QuietPairs(s, s', i, o)
    requires LocksOk(s, i) && LocksOk(s, j) && PairOk(s, j, i) && s.procs[i].state != UNUSED
    ensures PairOk(s', j, i)
  {
  }

  lemma FromOther(s: State, s': State, i: Slot, o: Slot, j: Slot)
    requires Changes(s, s', i, o) && j < |s.procs| && j != i && j != o && o != i
    requires QuietLocks(s, s', i, o) && QuietFamily(s, s', i, o) && QuietPairs(s, s', i, o)
    requires LocksOk(s, i) && StateOk(s, j) && PairOk(s, o, j)
    ensures PairOk(s', o, j)
  {
  }

  lemma ToOther(s: State, s': State, i: Slot, o: Slot, j: Slot)
    requires Changes(s, s', i, o) && j < |s.procs| && j != i && j != o && o != i
    requires QuietLocks(s, s', i, o) && QuietFamily(s, s', i, o) && QuietPairs(s, s', i, o)
    requires LocksOk(s, i) && LocksOk(s, j) && LocksOk(s, o) && FamilyOk(s, j) && FamilyOk(s, o) && StateOk(s, j) && StateOk(s, o)
    requires PairOk(s, j, o)
    ensures PairOk(s', j, o)
  {
  }
}
