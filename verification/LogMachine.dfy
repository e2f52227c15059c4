/** Group commit, the buffer cache and crash recovery as one machine (kernel/log.c, kernel/bio.c).

    Threads run concurrently; a step is one critical section or one disk transfer.  bread is
    the steps Lookup, Lock and (for a buffer without data) Fill; brelse is Unlock and Drop.
    Any thread may take these at any time, also while another one commits.  A commit, and the
    recovery that follows a crash, are carried out by one thread, buffer by buffer.  A crash may
    come between any two steps and leaves nothing but the disk. */
module LogMachine {
  import opened Blocks
  import opened Bio
  import opened LogFormat

  type Tid = nat

  datatype Stage = Fresh | Copied | Written

  datatype Phase =
    | ReadHead                             // recovery: header not read yet
    | WriteLog(tail: nat, copied: bool)    // write_log: log block tail is next; copied: in memory only
    | WriteHead                            // header filled in memory, not yet on the disk
    | Install(tail: nat, stage: Stage)     // install_trans: entry tail is next
    | ClearHead(filled: bool)              // writing the empty header
    | Finish                               // commit() has returned

  datatype Pc = Running | Busy(boot: bool, who: Tid, phase: Phase)

  datatype State = State(
    disk: seq<Block>,
    cache: Cache,
    holder: seq<Option<Tid>>,   // sleep lock of each buffer
    users: seq<set<Tid>>,       // threads between bget and brelse of each buffer
    dirty: seq<bool>,           // changed by its holder, not yet handed to log_write or bwrite
    lh: seq<int>,               // log.lh
    ops: map<Tid, set<int>>,    // threads between begin_op and end_op, with the blocks each has logged
    pc: Pc,                     // log.committing, and where commit or recovery stands
    contents: seq<Block>,       // what every block contains for the threads
    committed: seq<Block>)      // contents as of the last commit point

  // ---------- guards ----------

  ghost predicate Shape(g: Layout, s: State) {
    && ValidLayout(g)
    && |s.disk| == g.nblocks && |s.contents| == g.nblocks && |s.committed| == g.nblocks
    && WellFormed(s.cache)
    && |s.holder| == NBUF && |s.users| == NBUF && |s.dirty| == NBUF
  }

  predicate IsKeyed(g: Layout, s: State, b: nat, blk: int)
    requires |s.cache.bufs| == NBUF
  {
    b < NBUF && s.cache.bufs[b].dev == g.dev && s.cache.bufs[b].blockno == blk
  }

  // t has locked the buffer of block blk and the buffer has data.
  predicate Holds(g: Layout, s: State, t: Tid, b: nat, blk: int)
    requires |s.cache.bufs| == NBUF && |s.holder| == NBUF
  {
    IsKeyed(g, s, b, blk) && s.holder[b] == Some(t) && s.cache.bufs[b].valid && 0 <= blk < g.nblocks
  }

  predicate BusyHolds(g: Layout, s: State, b: nat, blk: int)
    requires |s.cache.bufs| == NBUF && |s.holder| == NBUF
  {
    s.pc.Busy? && Holds(g, s, s.pc.who, b, blk)
  }

  // ---------- pieces of steps ----------

  // memmove into a held buffer.
  function Overwrite(g: Layout, s: State, b: nat, blk: nat, d: Block): State
    requires Shape(g, s) && IsKeyed(g, s, b, blk) && blk < g.nblocks
  {
    s.(cache := s.cache.(bufs := s.cache.bufs[b := s.cache.bufs[b].(data := d)]),
       dirty := s.dirty[b := true],
       contents := s.contents[blk := d])
  }

  // bwrite of a held buffer.
  function FlushBuffer(g: Layout, s: State, b: nat, blk: nat): State
    requires Shape(g, s) && IsKeyed(g, s, b, blk) && blk < g.nblocks
  {
    s.(disk := s.disk[blk := s.cache.bufs[b].data], dirty := s.dirty[b := false])
  }

  function Pin(g: Layout, s: State, b: nat): State
    requires Shape(g, s) && b < NBUF
  {
    s.(cache := Bio.Pin(s.cache, b))
  }

  function Goto(s: State, phase: Phase): State
    requires s.pc.Busy?
  {
    s.(pc := s.pc.(phase := phase))
  }

  const EMPTY_BUF := Buf(0, 0, false, 0, seq(BLOCK_WORDS, _ => 0))

  function EmptyOrder(): (r: seq<nat>)
    ensures Arranged(r, NBUF)
  {
    var r := seq(NBUF, i requires 0 <= i < NBUF => NBUF - 1 - i);
    assert forall b :: 0 <= b < NBUF ==> b in r by {
      forall b | 0 <= b < NBUF ensures b in r {
        assert r[NBUF - 1 - b] == b;
      }
    }
    assert forall i, j :: 0 <= i < j < |r| ==> Differ(r, i, j);
    r
  }

  // The machine as it comes up: a disk, and a thread about to recover it.
  function PowerOn(disk: seq<Block>, t: Tid, image: seq<Block>): State {
    State(disk, Cache(seq(NBUF, _ => EMPTY_BUF), EmptyOrder()),
          seq(NBUF, _ => None), seq(NBUF, _ => {}), seq(NBUF, _ => false),
          [], map[], Busy(true, t, ReadHead), disk, image)
  }

  // ---------- steps ----------

  datatype Step =
    | Lookup(t: Tid, blk: nat)
    | Lock(t: Tid, b: nat)
    | Fill(t: Tid, b: nat)
    | Modify(t: Tid, b: nat, blk: nat, d: Block)
    | LogWrite(t: Tid, b: nat, blk: nat)
    | Unlock(t: Tid, b: nat)
    | Drop(t: Tid, b: nat)
    | BeginOp(t: Tid)
    | EndOp(t: Tid)
    | CopyToLog(to: nat, from: nat)
    | FlushLog(b: nat)
    | FillHead(b: nat)
    | FlushHead(b: nat)
    | CopyHome(from: nat, to: nat)
    | FlushHome(b: nat)
    | Unpin(b: nat)
    | Forget
    | FillClear(b: nat)
    | FlushClear(b: nat)
    | EndCommit
    | ReadHeader(b: nat)
    | Crash(t: Tid)

  // log_write panics unless this holds, even when the block is already in the log.
  predicate LogHasRoom(g: Layout, s: State) {
    |s.lh| < LOGSIZE && |s.lh| < g.size - 1
  }

  // t calls log_write as callers must: inside an operation, with a locked home block that it has
  // logged before or for which it has reservation left.
  predicate Asks(g: Layout, s: State, t: Tid, b: nat, blk: nat)
    requires |s.cache.bufs| == NBUF && |s.holder| == NBUF
  {
    Holds(g, s, t, b, blk) && t in s.ops && Home(g, blk) && (blk in s.ops[t] || |s.ops[t]| < MAXOPBLOCKS)
  }

  // Source guards, plus what callers of these functions must respect: a home block is changed
  // only inside an operation and under its buffer's lock, a changed buffer is handed to
  // log_write before it is released, and an operation logs at most MAXOPBLOCKS blocks.
  ghost predicate Enabled(g: Layout, s: State, step: Step)
    requires Shape(g, s)
  {
    match step
    case Lookup(t, blk) =>
      && blk < g.nblocks
      && !Choose(s.cache, g.dev, blk).NoBuffers?
      && t !in s.users[Choose(s.cache, g.dev, blk).b]
    case Lock(t, b) => b < NBUF && t in s.users[b] && s.holder[b] == None
    case Fill(t, b) =>
      b < NBUF && s.holder[b] == Some(t) && !s.cache.bufs[b].valid && s.cache.bufs[b].blockno < g.nblocks
    case Modify(t, b, blk, d) => Holds(g, s, t, b, blk) && t in s.ops && Home(g, blk)
    case LogWrite(t, b, blk) => Asks(g, s, t, b, blk) && LogHasRoom(g, s)
    case Unlock(t, b) => b < NBUF && s.holder[b] == Some(t) && !s.dirty[b]
    case Drop(t, b) => b < NBUF && t in s.users[b] && s.holder[b] != Some(t) && s.cache.bufs[b].refcnt > 0
    case BeginOp(t) =>
      && s.pc.Running? && t !in s.ops
      && |s.lh| + (|s.ops| + 1) * MAXOPBLOCKS <= LOGSIZE
    case EndOp(t) => t in s.ops && forall b :: 0 <= b < NBUF && s.dirty[b] ==> s.holder[b] != Some(t)
    case CopyToLog(to, from) =>
      && s.pc.Busy? && s.pc.phase.WriteLog? && !s.pc.phase.copied && s.pc.phase.tail < |s.lh|
      && BusyHolds(g, s, to, g.start + 1 + s.pc.phase.tail)
      && BusyHolds(g, s, from, s.lh[s.pc.phase.tail])
    case FlushLog(b) =>
      && s.pc.Busy? && s.pc.phase.WriteLog? && s.pc.phase.copied
      && BusyHolds(g, s, b, g.start + 1 + s.pc.phase.tail)
    case FillHead(b) =>
      && s.pc.Busy? && s.pc.phase == WriteLog(|s.lh|, false) && |s.lh| <= LOGSIZE
      && BusyHolds(g, s, b, g.start)
    case FlushHead(b) => s.pc.Busy? && s.pc.phase.WriteHead? && BusyHolds(g, s, b, g.start)
    case CopyHome(from, to) =>
      && s.pc.Busy? && s.pc.phase.Install? && s.pc.phase.stage.Fresh? && s.pc.phase.tail < |s.lh|
      && BusyHolds(g, s, from, g.start + 1 + s.pc.phase.tail)
      && BusyHolds(g, s, to, s.lh[s.pc.phase.tail])
    case FlushHome(b) =>
      && s.pc.Busy? && s.pc.phase.Install? && s.pc.phase.stage.Copied? && s.pc.phase.tail < |s.lh|
      && BusyHolds(g, s, b, s.lh[s.pc.phase.tail])
    case Unpin(b) =>
      && s.pc.Busy? && s.pc.phase.Install? && s.pc.phase.stage.Written? && s.pc.phase.tail < |s.lh|
      && BusyHolds(g, s, b, s.lh[s.pc.phase.tail]) && s.cache.bufs[b].refcnt > 0
    case Forget => s.pc.Busy? && s.pc.phase == Install(|s.lh|, Fresh)
    case FillClear(b) => s.pc.Busy? && s.pc.phase == ClearHead(false) && BusyHolds(g, s, b, g.start)
    case FlushClear(b) => s.pc.Busy? && s.pc.phase == ClearHead(true) && BusyHolds(g, s, b, g.start)
    case EndCommit => s.pc.Busy? && s.pc.phase.Finish?
    case ReadHeader(b) => s.pc.Busy? && s.pc.phase.ReadHead? && BusyHolds(g, s, b, g.start)
    case Crash(t) => true
  }

  function DoLookup(g: Layout, s: State, t: Tid, blk: nat): State
    requires Shape(g, s) && Enabled(g, s, Lookup(t, blk))
  {
    var b := Choose(s.cache, g.dev, blk).b;
    s.(cache := Get(s.cache, g.dev, blk), users := s.users[b := s.users[b] + {t}])
  }

  function DoFill(g: Layout, s: State, b: nat): State
    requires Shape(g, s) && b < NBUF && s.cache.bufs[b].blockno < g.nblocks
  {
    var buf := s.cache.bufs[b];
    s.(cache := s.cache.(bufs := s.cache.bufs[b := buf.(data := s.disk[buf.blockno], valid := true)]))
  }

  function DoLogWrite(g: Layout, s: State, t: Tid, b: nat, blk: nat): State
    requires Shape(g, s) && Enabled(g, s, LogWrite(t, b, blk))
  {
    var s1 := s.(dirty := s.dirty[b := false], ops := s.ops[t := s.ops[t] + {blk}]);
    if blk in s.lh then s1 else Pin(g, s1, b).(lh := s.lh + [blk])
  }

  function DoDrop(g: Layout, s: State, t: Tid, b: nat): State
    requires Shape(g, s) && Enabled(g, s, Drop(t, b))
  {
    s.(cache := Put(s.cache, b), users := s.users[b := s.users[b] - {t}])
  }

  // The last operation to end starts a commit; commit() does nothing if nothing was logged.
  function DoEndOp(s: State, t: Tid): State
    requires t in s.ops
  {
    var s1 := s.(ops := s.ops - {t});
    if s1.ops != map[] then s1
    else s1.(pc := Busy(false, t, if |s.lh| > 0 then WriteLog(0, false) else Finish))
  }

  // install_trans(0) unpins the block it has just written; install_trans(1) does not.
  function DoUnpin(g: Layout, s: State, b: nat): State
    requires Shape(g, s) && Enabled(g, s, Unpin(b))
  {
    var s1 := Goto(s, Install(s.pc.phase.tail + 1, Fresh));
    if s.pc.boot then s1
    else s1.(cache := Bio.Unpin(s.cache, b))
  }

  function Apply(g: Layout, s: State, step: Step): State
    requires Shape(g, s) && Enabled(g, s, step)
  {
    match step
    case Lookup(t, blk) => DoLookup(g, s, t, blk)
    case Lock(t, b) => s.(holder := s.holder[b := Some(t)])
    case Fill(t, b) => DoFill(g, s, b)
    case Modify(t, b, blk, d) => Overwrite(g, s, b, blk, d)
    case LogWrite(t, b, blk) => DoLogWrite(g, s, t, b, blk)
    case Unlock(t, b) => s.(holder := s.holder[b := None])
    case Drop(t, b) => DoDrop(g, s, t, b)
    case BeginOp(t) => s.(ops := s.ops[t := {}])
    case EndOp(t) => DoEndOp(s, t)
    case CopyToLog(to, from) =>
      Goto(Overwrite(g, s, to, g.start + 1 + s.pc.phase.tail, s.cache.bufs[from].data), WriteLog(s.pc.phase.tail, true))
    case FlushLog(b) => Goto(FlushBuffer(g, s, b, g.start + 1 + s.pc.phase.tail), WriteLog(s.pc.phase.tail + 1, false))
    case FillHead(b) => Goto(Overwrite(g, s, b, g.start, SetHead(s.cache.bufs[b].data, s.lh)), WriteHead)
    case FlushHead(b) => Goto(FlushBuffer(g, s, b, g.start), Install(0, Fresh)).(committed := s.contents)
    case CopyHome(from, to) =>
      Goto(Overwrite(g, s, to, s.lh[s.pc.phase.tail], s.cache.bufs[from].data), Install(s.pc.phase.tail, Copied))
    case FlushHome(b) => Goto(FlushBuffer(g, s, b, s.lh[s.pc.phase.tail]), Install(s.pc.phase.tail, Written))
    case Unpin(b) => DoUnpin(g, s, b)
    case Forget => Goto(s, ClearHead(false)).(lh := [])
    case FillClear(b) => Goto(Overwrite(g, s, b, g.start, SetHead(s.cache.bufs[b].data, [])), ClearHead(true))
    case FlushClear(b) =>
      var s1 := FlushBuffer(g, s, b, g.start);
      if s.pc.boot then s1.(pc := Running) else Goto(s1, Finish)
    case EndCommit => s.(pc := Running)
    case ReadHeader(b) => Goto(s, Install(0, Fresh)).(lh := Entries(s.cache.bufs[b].data))
    case Crash(t) => PowerOn(s.disk, t, s.committed)
  }

  // ---------- the plain reference machine ----------

  // A map from block to data and a saved copy of it.  Only three steps touch it: a write, a
  // commit point, which saves, and a crash, which goes back to the saved copy.
  datatype Plain = Plain(now: seq<Block>, saved: seq<Block>)

  function PlainStep(p: Plain, step: Step): (p': Plain)
    ensures |p'.now| == |p.now| || step.Crash?
  {
    match step
    case Modify(t, b, blk, d) => if blk < |p.now| then p.(now := p.now[blk := d]) else p
    case FlushHead(b) => p.(saved := p.now)
    case Crash(t) => p.(now := p.saved)
    case _ => p
  }

  function PlainRun(p: Plain, steps: seq<Step>): Plain {
    if steps == [] then p else PlainStep(PlainRun(p, steps[..|steps| - 1]), steps[|steps| - 1])
  }

  // trace is a run of the machine that takes the given steps.
  ghost predicate IsRun(g: Layout, trace: seq<State>, steps: seq<Step>) {
    && |trace| == |steps| + 1
    && (forall i :: 0 <= i < |steps| ==>
          Shape(g, trace[i]) && Enabled(g, trace[i], steps[i]) && trace[i + 1] == Apply(g, trace[i], steps[i]))
  }
}
