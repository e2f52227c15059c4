/** The invariant of the log machine, and what it says of reservations, buffers and the disk.
    LogSteps shows that every step keeps it, LogRuns what it means for whole runs. */
module LogSafety {
  import opened Blocks
  import opened Bio
  import opened LogFormat
  import opened LogMachine

  // ---------- reservations ----------

  // Log space that running operations may still ask for.
  ghost function Unspent(ops: map<Tid, set<int>>): (n: int)
    decreases |ops|
  {
    if ops == map[] then 0
    else
      var t :| t in ops;
      MAXOPBLOCKS - |ops[t]| + Unspent(ops - {t})
  }

  lemma {:induction false} UnspentSplit(ops: map<Tid, set<int>>, t: Tid)
    requires t in ops
    ensures Unspent(ops) == MAXOPBLOCKS - |ops[t]| + Unspent(ops - {t})
    decreases |ops|
  {
    var u :| u in ops && Unspent(ops) == MAXOPBLOCKS - |ops[u]| + Unspent(ops - {u});
    if u != t {
      UnspentSplit(ops - {u}, t);
      UnspentSplit(ops - {t}, u);
      assert ops - {u} - {t} == ops - {t} - {u};
    }
  }

  lemma {:induction false} UnspentBound(ops: map<Tid, set<int>>)
    requires forall t :: t in ops ==> |ops[t]| <= MAXOPBLOCKS
    ensures 0 <= Unspent(ops) <= |ops| * MAXOPBLOCKS
    decreases |ops|
  {
    if ops != map[] {
      var t :| t in ops;
      UnspentSplit(ops, t);
      UnspentBound(ops - {t});
    }
  }

  ghost predicate Reserved(g: Layout, s: State) {
    && Loggable(g, s.lh)
    && (forall t :: t in s.ops ==> |s.ops[t]| <= MAXOPBLOCKS)
    && (forall t, x :: t in s.ops && x in s.ops[t] ==> x in s.lh)
    && |s.lh| + Unspent(s.ops) <= LOGSIZE
    && (s.ops != map[] ==> s.pc.Running?)
  }

  // ---------- buffers ----------

  // Blocks whose buffers carry a pin of the log.
  function Pinned(s: State): seq<int> {
    if s.pc.Busy? && s.pc.boot then []
    else if s.pc.Busy? && s.pc.phase.Install? && s.pc.phase.tail <= |s.lh| then s.lh[s.pc.phase.tail..]
    else s.lh
  }

  // The block that the committing or recovering thread has changed in memory and not yet written.
  function InHand(g: Layout, s: State): int {
    if !s.pc.Busy? then -1
    else match s.pc.phase
      case WriteLog(tail, copied) => if copied then g.start + 1 + tail else -1
      case WriteHead => g.start
      case Install(tail, stage) => if stage.Copied? && tail < |s.lh| then s.lh[tail] else -1
      case ClearHead(filled) => if filled then g.start else -1
      case _ => -1
  }

  ghost predicate DirtyOk(g: Layout, s: State, b: nat)
    requires Shape(g, s) && b < NBUF
  {
    s.dirty[b] ==>
      && s.holder[b].Some? && s.cache.bufs[b].valid && s.cache.bufs[b].dev == g.dev
      && (|| (Home(g, s.cache.bufs[b].blockno) && s.holder[b].value in s.ops)
          || (s.pc.Busy? && s.holder[b].value == s.pc.who && s.cache.bufs[b].blockno == InHand(g, s)))
  }

  ghost predicate CountOk(g: Layout, s: State, b: nat)
    requires Shape(g, s) && b < NBUF
  {
    var buf := s.cache.bufs[b];
    && (s.holder[b].Some? ==> s.holder[b].value in s.users[b])
    && (buf.dev != g.dev ==> s.users[b] == {})
    && buf.refcnt == |s.users[b]| + if buf.dev == g.dev && buf.blockno in Pinned(s) then 1 else 0
  }

  ghost predicate DataOk(g: Layout, s: State, b: nat)
    requires Shape(g, s) && b < NBUF
  {
    var buf := s.cache.bufs[b];
    buf.dev == g.dev ==>
      && buf.blockno < g.nblocks
      && (buf.blockno in Pinned(s) ==> buf.valid)
      && (buf.valid ==> buf.data == s.contents[buf.blockno])
      && (buf.valid && !s.dirty[b] && buf.blockno !in Pinned(s) ==> s.disk[buf.blockno] == s.contents[buf.blockno])
  }

  predicate CachedIn(g: Layout, s: State, b: nat, blk: int)
    requires |s.cache.bufs| == NBUF
  {
    IsKeyed(g, s, b, blk) && s.cache.bufs[b].valid
  }

  ghost predicate Cached(g: Layout, s: State, blk: int)
    requires |s.cache.bufs| == NBUF
  {
    exists b :: 0 <= b < NBUF && CachedIn(g, s, b, blk)
  }

  ghost predicate BlockOk(g: Layout, s: State, blk: nat)
    requires Shape(g, s) && blk < g.nblocks
  {
    s.disk[blk] == s.contents[blk] || Cached(g, s, blk)
  }

  ghost predicate Buffered(g: Layout, s: State)
    requires Shape(g, s)
  {
    && Unique(s.cache)
    && (forall b :: 0 <= b < NBUF ==> CountOk(g, s, b))
    && (forall b :: 0 <= b < NBUF ==> DirtyOk(g, s, b))
    && (forall b :: 0 <= b < NBUF ==> DataOk(g, s, b))
    && (forall blk :: 0 <= blk < g.nblocks ==> BlockOk(g, s, blk))
    && (forall i :: 0 <= i < |Pinned(s)| ==> Cached(g, s, Pinned(s)[i]))
  }

  // ---------- the log on the disk ----------

  // The first n log blocks are on the disk and hold what image has for the first n entries.
  ghost predicate LoggedUpTo(g: Layout, s: State, image: seq<Block>, n: nat)
    requires Shape(g, s) && Loggable(g, s.lh) && |image| == g.nblocks && n <= |s.lh|
  {
    && (forall i :: 0 <= i < n ==> Logged(g, s.disk, image, s.lh, i))
    && (forall i :: 0 <= i < n ==> Logged(g, s.contents, image, s.lh, i))
  }

  ghost predicate Quiet(g: Layout, s: State)
    requires Shape(g, s)
  {
    Entries(s.disk[g.start]) == [] && HomeEqual(g, s.disk, s.committed)
  }

  ghost predicate Installing(g: Layout, s: State)
    requires Shape(g, s) && Loggable(g, s.lh) && s.pc.Busy? && s.pc.phase.Install?
  {
    var tail, stage := s.pc.phase.tail, s.pc.phase.stage;
    && tail <= |s.lh| && (!stage.Fresh? ==> tail < |s.lh|)
    && Entries(s.disk[g.start]) == s.lh
    && LoggedUpTo(g, s, s.committed, |s.lh|)
    && (var done := if stage.Written? then tail + 1 else tail;
        forall blk :: 0 <= blk < g.nblocks && Home(g, blk) && blk !in s.lh[done..] ==> s.disk[blk] == s.committed[blk])
    && (if s.pc.boot then
          && (forall blk :: 0 <= blk < g.nblocks && Home(g, blk) && blk != InHand(g, s) ==> s.contents[blk] == s.disk[blk])
          && (stage.Copied? ==> s.contents[s.lh[tail]] == s.committed[s.lh[tail]])
        else HomeEqual(g, s.contents, s.committed))
  }

  ghost predicate PhaseOk(g: Layout, s: State)
    requires Shape(g, s) && Loggable(g, s.lh)
  {
    match s.pc
    case Running => Quiet(g, s)
    case Busy(boot, who, phase) =>
      match phase
      case ReadHead => boot && s.lh == [] && s.contents == s.disk && RecoversTo(g, s.disk, s.committed)
      case WriteLog(tail, copied) =>
        && !boot && Quiet(g, s) && tail <= |s.lh|
        && LoggedUpTo(g, s, s.contents, tail)
        && (copied ==> tail < |s.lh| && Logged(g, s.contents, s.contents, s.lh, tail))
      case WriteHead =>
        && !boot && Quiet(g, s) && LoggedUpTo(g, s, s.contents, |s.lh|) && Entries(s.contents[g.start]) == s.lh
      case Install(_, _) => Installing(g, s)
      case ClearHead(filled) =>
        && s.lh == []
        && RecoversTo(g, s.disk, s.committed)
        && HomeEqual(g, s.disk, s.committed) && HomeEqual(g, s.contents, s.committed)
        && (filled ==> Entries(s.contents[g.start]) == [])
      case Finish => !boot && s.lh == [] && Quiet(g, s)
  }

  ghost predicate Inv(g: Layout, s: State) {
    Shape(g, s) && Reserved(g, s) && Buffered(g, s) && PhaseOk(g, s)
  }

  // ---------- consequences of the invariant ----------

  /* Whatever instant a crash picks, recovery leads to the last committed contents. */
  lemma AlwaysRecoverable(g: Layout, s: State)
    requires Inv(g, s)
    ensures RecoversTo(g, s.disk, s.committed)
  {
    if s.pc.Busy? && s.pc.phase.Install? {
      var tail := if s.pc.phase.stage.Written? then s.pc.phase.tail + 1 else s.pc.phase.tail;
      assert forall x :: x in s.lh[tail..] ==> x in s.lh;
    }
  }

  /* Everyone who holds a buffer with data sees the contents. */
  lemma HeldBufferShowsContents(g: Layout, s: State, t: Tid, b: nat, blk: nat)
    requires Inv(g, s) && Holds(g, s, t, b, blk)
    ensures s.cache.bufs[b].data == s.contents[blk]
  {
    assert DataOk(g, s, b);
  }

  lemma PinnedIsCached(g: Layout, s: State, blk: int)
    requires Shape(g, s) && Buffered(g, s)
    ensures blk in Pinned(s) ==> Cached(g, s, blk)
  {
  }

  lemma UniqueKey(g: Layout, s: State, a: nat, b: nat, blk: int)
    requires Shape(g, s) && Unique(s.cache) && IsKeyed(g, s, a, blk) && IsKeyed(g, s, b, blk)
    ensures a == b
  {
    assert s.cache.bufs[a].dev != 0;
  }
}
