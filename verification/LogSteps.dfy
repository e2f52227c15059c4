/** Every step of the log machine keeps its invariant. */
module LogSteps {
  import opened Blocks
  import opened Bio
  import opened LogFormat
  import opened LogMachine
  import opened LogSafety

  // s' differs from s, as far as buffers and blocks go, only in buffer b, which holds block blk.
  ghost predicate OnlyBuffer(g: Layout, s: State, s': State, b: nat, blk: nat)
    requires Shape(g, s) && Shape(g, s')
  {
    && IsKeyed(g, s, b, blk) && IsKeyed(g, s', b, blk) && blk < g.nblocks
    && (s.cache.bufs[b].valid ==> s'.cache.bufs[b].valid)
    && (forall a :: 0 <= a < NBUF && a != b ==> SameBuffer(s, s', a))
    && (forall x :: 0 <= x < g.nblocks && x != blk ==> s'.disk[x] == s.disk[x] && s'.contents[x] == s.contents[x])
  }

  predicate SameBuffer(s: State, s': State, a: nat)
    requires a < |s.cache.bufs| && a < |s'.cache.bufs| && a < |s.holder| && a < |s'.holder|
    requires a < |s.users| && a < |s'.users| && a < |s.dirty| && a < |s'.dirty|
  {
    s.cache.bufs[a] == s'.cache.bufs[a] && s.holder[a] == s'.holder[a] && s.users[a] == s'.users[a]
    && s.dirty[a] == s'.dirty[a]
  }

  // Other buffers' pins and the reasons for their being dirty carry over.
  ghost predicate OthersUndisturbed(g: Layout, s: State, s': State, blk: nat) {
    && (forall x :: x != blk ==> (x in Pinned(s) <==> x in Pinned(s')))
    && (forall t :: t in s.ops ==> t in s'.ops)
    && (InHand(g, s) == -1 || InHand(g, s) == blk || (s'.pc == s.pc && s'.lh == s.lh))
  }

  lemma CachedElsewhere(g: Layout, s: State, s': State, b: nat, blk: nat, x: int)
    requires Shape(g, s) && Shape(g, s') && OnlyBuffer(g, s, s', b, blk) && Cached(g, s, x)
    ensures Cached(g, s', x)
  {
    var a :| 0 <= a < NBUF && CachedIn(g, s, a, x);
    assert a != b ==> SameBuffer(s, s', a);
    assert CachedIn(g, s', a, x);
  }

  lemma KeysKept(g: Layout, s: State, s': State, b: nat, blk: nat)
    requires Shape(g, s) && Shape(g, s') && OnlyBuffer(g, s, s', b, blk) && Unique(s.cache)
    ensures Unique(s'.cache)
  {
    forall a | 0 <= a < NBUF
      ensures s'.cache.bufs[a].dev == s.cache.bufs[a].dev && s'.cache.bufs[a].blockno == s.cache.bufs[a].blockno
    {
      assert a != b ==> SameBuffer(s, s', a);
    }
  }

  lemma OneBuffer(g: Layout, s: State, s': State, b: nat, blk: nat)
    requires Shape(g, s) && Buffered(g, s) && Shape(g, s') && OnlyBuffer(g, s, s', b, blk) && OthersUndisturbed(g, s, s', blk)
    requires CountOk(g, s', b) && DirtyOk(g, s', b) && DataOk(g, s', b) && BlockOk(g, s', blk)
    requires blk in Pinned(s') ==> Cached(g, s', blk)
    ensures Buffered(g, s')
  {
    KeysKept(g, s, s', b, blk);
    forall a | 0 <= a < NBUF
      ensures CountOk(g, s', a) && DirtyOk(g, s', a) && DataOk(g, s', a)
    {
      if a != b {
        assert SameBuffer(s, s', a);
        assert CountOk(g, s, a) && DirtyOk(g, s, a) && DataOk(g, s, a);
        if s.cache.bufs[a].dev == g.dev && s.cache.bufs[a].blockno == blk {
          UniqueKey(g, s, a, b, blk);
        }
      }
    }
    forall x | 0 <= x < g.nblocks
      ensures BlockOk(g, s', x)
    {
      if x != blk {
        assert BlockOk(g, s, x);
        if Cached(g, s, x) { CachedElsewhere(g, s, s', b, blk, x); }
      }
    }
    forall i | 0 <= i < |Pinned(s')|
      ensures Cached(g, s', Pinned(s')[i])
    {
      var x := Pinned(s')[i];
      assert x in Pinned(s');
      if x != blk {
        assert x in Pinned(s);
        var j :| 0 <= j < |Pinned(s)| && Pinned(s)[j] == x;
        assert Cached(g, s, x);
        CachedElsewhere(g, s, s', b, blk, x);
      }
    }
  }

  // Only the log's own bookkeeping changes.
  lemma NoBuffer(g: Layout, s: State, s': State)
    requires Shape(g, s) && Buffered(g, s) && Shape(g, s')
    requires s'.cache == s.cache && s'.holder == s.holder && s'.users == s.users && s'.dirty == s.dirty
    requires s'.disk == s.disk && s'.contents == s.contents
    requires Pinned(s') == Pinned(s)
    requires forall b :: 0 <= b < NBUF ==> DirtyOk(g, s', b)
    ensures Buffered(g, s')
  {
    forall b | 0 <= b < NBUF
      ensures CountOk(g, s', b) && DataOk(g, s', b)
    {
      assert CountOk(g, s, b) && DataOk(g, s, b);
    }
    forall x | 0 <= x < g.nblocks
      ensures BlockOk(g, s', x)
    {
      assert BlockOk(g, s, x);
      if Cached(g, s, x) { CachedStays(g, s, s', x); }
    }
    forall i | 0 <= i < |Pinned(s')|
      ensures Cached(g, s', Pinned(s')[i])
    {
      CachedStays(g, s, s', Pinned(s)[i]);
    }
  }

  lemma CachedStays(g: Layout, s: State, s': State, x: int)
    requires |s.cache.bufs| == NBUF && s'.cache == s.cache && Cached(g, s, x)
    ensures Cached(g, s', x)
  {
    var a :| 0 <= a < NBUF && CachedIn(g, s, a, x);
    assert CachedIn(g, s', a, x);
  }

  lemma Showing(g: Layout, s: State, b: nat, blk: int)
    requires |s.cache.bufs| == NBUF && b < NBUF && CachedIn(g, s, b, blk)
    ensures Cached(g, s, blk)
  {
  }

  // The log's own state is as before.
  lemma SameLog(g: Layout, s: State, s': State)
    requires Shape(g, s) && Reserved(g, s) && PhaseOk(g, s) && Shape(g, s')
    requires s'.disk == s.disk && s'.contents == s.contents && s'.committed == s.committed
    requires s'.lh == s.lh && s'.ops == s.ops && s'.pc == s.pc
    ensures Reserved(g, s') && PhaseOk(g, s')
  {
  }

  // bget finds the block in buffer b.
  function Referenced(s: State, t: Tid, b: nat): State
    requires b < |s.cache.bufs| && b < |s.users|
  {
    s.(cache := s.cache.(bufs := s.cache.bufs[b := s.cache.bufs[b].(refcnt := s.cache.bufs[b].refcnt + 1)]),
       users := s.users[b := s.users[b] + {t}])
  }

  lemma HitKeepsInv(g: Layout, s: State, t: Tid, b: nat, blk: nat)
    requires Inv(g, s) && IsKeyed(g, s, b, blk) && t !in s.users[b]
    ensures Inv(g, Referenced(s, t, b))
  {
    BufferOnly(g, s, Referenced(s, t, b), b);
    SameLog(g, s, Referenced(s, t, b));
  }

  // bget turns buffer v over to a block that is not cached.
  function Recycled(g: Layout, s: State, t: Tid, v: nat, blk: nat): State
    requires v < |s.cache.bufs| && v < |s.users|
  {
    s.(cache := s.cache.(bufs := s.cache.bufs[v := s.cache.bufs[v].(dev := g.dev, blockno := blk, valid := false, refcnt := 1)]),
       users := s.users[v := s.users[v] + {t}])
  }

  ghost predicate CanRecycle(g: Layout, s: State, v: nat, blk: nat)
    requires Shape(g, s)
  {
    v < NBUF && s.cache.bufs[v].refcnt == 0 && blk < g.nblocks && forall a :: 0 <= a < NBUF ==> !IsKeyed(g, s, a, blk)
  }

  // Recycling a buffer never loses the only copy of a block.
  lemma StillCached(g: Layout, s: State, t: Tid, v: nat, blk: nat, x: int)
    requires Shape(g, s) && Buffered(g, s) && CanRecycle(g, s, v, blk)
    requires Cached(g, s, x) && (x in Pinned(s) || (0 <= x < g.nblocks && s.disk[x] != s.contents[x]))
    ensures Cached(g, Recycled(g, s, t, v, blk), x)
  {
    var a :| 0 <= a < NBUF && CachedIn(g, s, a, x);
    assert CountOk(g, s, a) && DirtyOk(g, s, a) && DataOk(g, s, a);
    assert CachedIn(g, Recycled(g, s, t, v, blk), a, x);
  }

  lemma NewKeyNotPinned(g: Layout, s: State, v: nat, blk: nat)
    requires Shape(g, s) && Buffered(g, s) && CanRecycle(g, s, v, blk)
    ensures blk !in Pinned(s)
  {
    PinnedIsCached(g, s, blk);
  }

  lemma RecycleKeepsBuffer(g: Layout, s: State, t: Tid, v: nat, blk: nat, a: nat)
    requires Shape(g, s) && Buffered(g, s) && CanRecycle(g, s, v, blk) && a < NBUF
    ensures var s' := Recycled(g, s, t, v, blk); CountOk(g, s', a) && DirtyOk(g, s', a) && DataOk(g, s', a)
  {
    hide Cached, BlockOk, Unique;
    assert CountOk(g, s, a) && DirtyOk(g, s, a) && DataOk(g, s, a);
    NewKeyNotPinned(g, s, v, blk);
  }

  lemma RecycleKeepsBuffers(g: Layout, s: State, t: Tid, v: nat, blk: nat)
    requires Shape(g, s) && Buffered(g, s) && CanRecycle(g, s, v, blk) && Unique(Recycled(g, s, t, v, blk).cache)
    ensures Buffered(g, Recycled(g, s, t, v, blk))
  {
    var s' := Recycled(g, s, t, v, blk);
    forall a | 0 <= a < NBUF
      ensures CountOk(g, s', a) && DirtyOk(g, s', a) && DataOk(g, s', a)
    {
      RecycleKeepsBuffer(g, s, t, v, blk, a);
    }
    forall x | 0 <= x < g.nblocks
      ensures BlockOk(g, s', x)
    {
      assert BlockOk(g, s, x);
      if s.disk[x] != s.contents[x] { StillCached(g, s, t, v, blk, x); }
    }
    forall i | 0 <= i < |Pinned(s')|
      ensures Cached(g, s', Pinned(s')[i])
    {
      StillCached(g, s, t, v, blk, Pinned(s)[i]);
    }
  }

  lemma LookupKeepsInv(g: Layout, s: State, t: Tid, blk: nat)
    requires Inv(g, s) && Enabled(g, s, Lookup(t, blk))
    ensures Inv(g, Apply(g, s, Lookup(t, blk)))
  {
    hide PhaseOk, Unspent, CountOk, DirtyOk, DataOk, BlockOk;
    match Choose(s.cache, g.dev, blk)
    case Hit(b) => HitKeepsInv(g, s, t, b, blk);
    case Recycle(v) =>
      assert CanRecycle(g, s, v, blk) by {
        forall a | 0 <= a < NBUF
          ensures !IsKeyed(g, s, a, blk)
        {
          assert !Keyed(s.cache, a, g.dev, blk);
        }
      }
      GetKeepsUnique(s.cache, g.dev, blk);
      RecycleKeepsBuffers(g, s, t, v, blk);
      SameLog(g, s, Recycled(g, s, t, v, blk));
  }

  lemma LockKeepsInv(g: Layout, s: State, t: Tid, b: nat)
    requires Inv(g, s) && Enabled(g, s, Lock(t, b))
    ensures Inv(g, Apply(g, s, Lock(t, b)))
  {
    assert CountOk(g, s, b);
    BufferOnly(g, s, Apply(g, s, Lock(t, b)), b);
    SameLog(g, s, Apply(g, s, Lock(t, b)));
  }

  // The step changes nothing but buffer b, and not its block.
  lemma BufferOnly(g: Layout, s: State, s': State, b: nat)
    requires Shape(g, s) && Buffered(g, s) && Shape(g, s') && b < NBUF && s.cache.bufs[b].dev == g.dev
    requires s'.cache.bufs[b].dev == s.cache.bufs[b].dev && s'.cache.bufs[b].blockno == s.cache.bufs[b].blockno
    requires s.cache.bufs[b].valid ==> s'.cache.bufs[b].valid
    requires forall a :: 0 <= a < NBUF && a != b ==> SameBuffer(s, s', a)
    requires s'.disk == s.disk && s'.contents == s.contents && s'.committed == s.committed
    requires s'.lh == s.lh && s'.ops == s.ops && s'.pc == s.pc
    requires CountOk(g, s, b) && DirtyOk(g, s, b) && DataOk(g, s, b) ==>
      CountOk(g, s', b) && DirtyOk(g, s', b) && DataOk(g, s', b)
    ensures Buffered(g, s')
  {
    var blk := s.cache.bufs[b].blockno;
    assert CountOk(g, s, b) && DirtyOk(g, s, b) && DataOk(g, s, b) && BlockOk(g, s, blk);
    if Cached(g, s, blk) { CachedElsewhere(g, s, s', b, blk, blk); }
    OneBuffer(g, s, s', b, blk);
  }

  lemma UnlockKeepsInv(g: Layout, s: State, t: Tid, b: nat)
    requires Inv(g, s) && Enabled(g, s, Unlock(t, b))
    ensures Inv(g, Apply(g, s, Unlock(t, b)))
  {
    assert CountOk(g, s, b);
    BufferOnly(g, s, Apply(g, s, Unlock(t, b)), b);
    SameLog(g, s, Apply(g, s, Unlock(t, b)));
  }

  lemma FillKeepsInv(g: Layout, s: State, t: Tid, b: nat)
    requires Inv(g, s) && Enabled(g, s, Fill(t, b))
    ensures Inv(g, Apply(g, s, Fill(t, b)))
  {
    var blk := s.cache.bufs[b].blockno;
    assert CountOk(g, s, b) && DirtyOk(g, s, b) && BlockOk(g, s, blk);
    assert s.disk[blk] == s.contents[blk] by {
      if Cached(g, s, blk) {
        var a :| 0 <= a < NBUF && CachedIn(g, s, a, blk);
        UniqueKey(g, s, a, b, blk);
      }
    }
    BufferOnly(g, s, Apply(g, s, Fill(t, b)), b);
    SameLog(g, s, Apply(g, s, Fill(t, b)));
  }

  lemma BufferOk(g: Layout, s: State, b: nat)
    requires Shape(g, s) && Buffered(g, s) && b < NBUF
    ensures CountOk(g, s, b) && DirtyOk(g, s, b) && DataOk(g, s, b)
  {
  }

  lemma DropKeepsInv(g: Layout, s: State, t: Tid, b: nat)
    requires Inv(g, s) && Enabled(g, s, Drop(t, b))
    ensures Inv(g, Apply(g, s, Drop(t, b)))
  {
    hide Buffered, Unspent, PhaseOk, Reserved;
    BufferOk(g, s, b);
    BufferOnly(g, s, Apply(g, s, Drop(t, b)), b);
    SameLog(g, s, Apply(g, s, Drop(t, b)));
  }

  lemma ModifyKeepsInv(g: Layout, s: State, t: Tid, b: nat, blk: nat, d: Block)
    requires Inv(g, s) && Enabled(g, s, Modify(t, b, blk, d))
    ensures Inv(g, Apply(g, s, Modify(t, b, blk, d)))
  {
    var s' := Apply(g, s, Modify(t, b, blk, d));
    assert CountOk(g, s, b) && DirtyOk(g, s, b) && DataOk(g, s, b);
    Showing(g, s', b, blk);
    OneBuffer(g, s, s', b, blk);
  }

  lemma LogWriteKeepsReservation(g: Layout, s: State, t: Tid, b: nat, blk: nat)
    requires Inv(g, s) && Enabled(g, s, LogWrite(t, b, blk))
    ensures Reserved(g, DoLogWrite(g, s, t, b, blk))
  {
    var s' := DoLogWrite(g, s, t, b, blk);
    UnspentSplit(s.ops, t);
    UnspentSplit(s'.ops, t);
    assert s'.ops - {t} == s.ops - {t};
    assert s.lh <= s'.lh && blk in s'.lh by { assert blk !in s.lh ==> s'.lh[|s.lh|] == blk; }
    forall u, x | u in s'.ops && x in s'.ops[u]
      ensures x in s'.lh
    {
      if x != blk {
        assert u in s.ops && x in s.ops[u];
        assert x in s.lh;
        var k :| 0 <= k < |s.lh| && s.lh[k] == x;
        assert s'.lh[k] == x;
      }
    }
    forall i, j | 0 <= i < j < |s'.lh|
      ensures Apart(s'.lh, i, j)
    {
      if j < |s.lh| { assert Apart(s.lh, i, j); }
    }
  }

  lemma LogWriteKeepsInv(g: Layout, s: State, t: Tid, b: nat, blk: nat)
    requires Inv(g, s) && Enabled(g, s, LogWrite(t, b, blk))
    ensures Inv(g, Apply(g, s, LogWrite(t, b, blk)))
  {
    hide Buffered, Unspent, Reserved;
    var s' := Apply(g, s, LogWrite(t, b, blk));
    LogWriteKeepsReservation(g, s, t, b, blk);
    BufferOk(g, s, b);
    Showing(g, s', b, blk);
    assert blk in s'.lh by { assert blk !in s.lh ==> s'.lh[|s.lh|] == blk; }
    OneBuffer(g, s, s', b, blk);
  }

  lemma BeginOpKeepsInv(g: Layout, s: State, t: Tid)
    requires Inv(g, s) && Enabled(g, s, BeginOp(t))
    ensures Inv(g, Apply(g, s, BeginOp(t)))
  {
    var s' := Apply(g, s, BeginOp(t));
    UnspentBound(s.ops);
    UnspentSplit(s'.ops, t);
    assert s'.ops - {t} == s.ops;
    forall b | 0 <= b < NBUF
      ensures DirtyOk(g, s', b)
    {
      assert DirtyOk(g, s, b);
    }
    NoBuffer(g, s, s');
  }

  lemma EndOpKeepsInv(g: Layout, s: State, t: Tid)
    requires Inv(g, s) && Enabled(g, s, EndOp(t))
    ensures Inv(g, Apply(g, s, EndOp(t)))
  {
    var s' := Apply(g, s, EndOp(t));
    UnspentBound(s.ops);
    UnspentSplit(s.ops, t);
    forall b | 0 <= b < NBUF
      ensures DirtyOk(g, s', b)
    {
      assert DirtyOk(g, s, b);
    }
    NoBuffer(g, s, s');
  }

  // memmove into a buffer that its holder may change.
  lemma OverwriteKeepsBuffers(g: Layout, s: State, s': State, t: Tid, b: nat, blk: nat, d: Block)
    requires Shape(g, s) && Buffered(g, s) && Holds(g, s, t, b, blk)
    requires s' == Overwrite(g, s, b, blk, d).(pc := s'.pc)
    requires Pinned(s') == Pinned(s) && InHand(g, s) == -1
    requires s'.pc.Busy? && s'.pc.who == t && InHand(g, s') == blk
    ensures Buffered(g, s')
  {
    assert CountOk(g, s, b) && DataOk(g, s, b);
    Showing(g, s', b, blk);
    OneBuffer(g, s, s', b, blk);
  }

  // bwrite of a buffer.
  lemma FlushKeepsBuffers(g: Layout, s: State, s': State, t: Tid, b: nat, blk: nat)
    requires Shape(g, s) && Buffered(g, s) && Holds(g, s, t, b, blk)
    requires s' == FlushBuffer(g, s, b, blk).(pc := s'.pc, committed := s'.committed) && Shape(g, s')
    requires Pinned(s') == Pinned(s) && (InHand(g, s) == -1 || InHand(g, s) == blk)
    ensures Buffered(g, s')
  {
    assert CountOk(g, s, b) && DataOk(g, s, b);
    Showing(g, s', b, blk);
    OneBuffer(g, s, s', b, blk);
  }

  lemma LoggedKept(g: Layout, s: State, s': State, image: seq<Block>, image': seq<Block>, n: nat)
    requires Shape(g, s) && Shape(g, s') && Loggable(g, s.lh) && s'.lh == s.lh && n <= |s.lh|
    requires |image| == g.nblocks && |image'| == g.nblocks && HomeEqual(g, image, image')
    requires LoggedUpTo(g, s, image, n)
    requires forall x :: g.start < x <= g.start + n ==> s'.disk[x] == s.disk[x] && s'.contents[x] == s.contents[x]
    ensures LoggedUpTo(g, s', image', n)
  {
    forall i | 0 <= i < n
      ensures Logged(g, s'.disk, image', s'.lh, i) && Logged(g, s'.contents, image', s'.lh, i)
    {
      assert Logged(g, s.disk, image, s.lh, i) && Logged(g, s.contents, image, s.lh, i);
      assert Home(g, s.lh[i]);
    }
  }

  // What the phase lemmas need to know about the buffer being copied or written.
  ghost predicate Shows(g: Layout, s: State, b: nat, blk: nat)
    requires Shape(g, s)
  {
    IsKeyed(g, s, b, blk) && blk < g.nblocks && s.cache.bufs[b].data == s.contents[blk]
  }

  lemma HeldShows(g: Layout, s: State, t: Tid, b: nat, blk: nat)
    requires Shape(g, s) && Buffered(g, s) && Holds(g, s, t, b, blk)
    ensures Shows(g, s, b, blk)
  {
    assert DataOk(g, s, b);
  }

  lemma CopyToLogKeepsPhase(g: Layout, s: State, to: nat, from: nat)
    requires Shape(g, s) && Reserved(g, s) && PhaseOk(g, s) && Enabled(g, s, CopyToLog(to, from))
    requires Shows(g, s, from, s.lh[s.pc.phase.tail])
    ensures PhaseOk(g, Apply(g, s, CopyToLog(to, from)))
  {
    var s' := Apply(g, s, CopyToLog(to, from));
    LoggedKept(g, s, s', s.contents, s'.contents, s.pc.phase.tail);
    assert Home(g, s.lh[s.pc.phase.tail]);
  }

  lemma CopyToLogKeepsInv(g: Layout, s: State, to: nat, from: nat)
    requires Inv(g, s) && Enabled(g, s, CopyToLog(to, from))
    ensures Inv(g, Apply(g, s, CopyToLog(to, from)))
  {
    var tail := s.pc.phase.tail;
    HeldShows(g, s, s.pc.who, from, s.lh[tail]);
    OverwriteKeepsBuffers(g, s, Apply(g, s, CopyToLog(to, from)), s.pc.who, to, g.start + 1 + tail, s.cache.bufs[from].data);
    CopyToLogKeepsPhase(g, s, to, from);
  }

  lemma LoggedOneMore(g: Layout, s: State, s': State, n: nat)
    requires Shape(g, s) && Shape(g, s') && Loggable(g, s.lh) && s'.lh == s.lh && n < |s.lh|
    requires s'.contents == s.contents && s'.disk == s.disk[g.start + 1 + n := s.contents[g.start + 1 + n]]
    requires LoggedUpTo(g, s, s.contents, n) && Logged(g, s.contents, s.contents, s.lh, n)
    ensures LoggedUpTo(g, s', s'.contents, n + 1)
  {
    LoggedKept(g, s, s', s.contents, s'.contents, n);
  }

  lemma FlushLogKeepsPhase(g: Layout, s: State, b: nat)
    requires Shape(g, s) && Reserved(g, s) && PhaseOk(g, s) && Enabled(g, s, FlushLog(b))
    requires Shows(g, s, b, g.start + 1 + s.pc.phase.tail)
    ensures PhaseOk(g, Apply(g, s, FlushLog(b)))
  {
    var s' := Apply(g, s, FlushLog(b));
    LoggedOneMore(g, s, s', s.pc.phase.tail);
  }

  lemma FlushLogKeepsInv(g: Layout, s: State, b: nat)
    requires Inv(g, s) && Enabled(g, s, FlushLog(b))
    ensures Inv(g, Apply(g, s, FlushLog(b)))
  {
    var blk := g.start + 1 + s.pc.phase.tail;
    HeldShows(g, s, s.pc.who, b, blk);
    FlushKeepsBuffers(g, s, Apply(g, s, FlushLog(b)), s.pc.who, b, blk);
    FlushLogKeepsPhase(g, s, b);
  }

  lemma FillHeadKeepsPhase(g: Layout, s: State, b: nat)
    requires Shape(g, s) && Reserved(g, s) && PhaseOk(g, s) && Enabled(g, s, FillHead(b))
    ensures PhaseOk(g, Apply(g, s, FillHead(b)))
  {
    var s' := Apply(g, s, FillHead(b));
    LoggedKept(g, s, s', s.contents, s'.contents, |s.lh|);
  }

  lemma FillHeadKeepsInv(g: Layout, s: State, b: nat)
    requires Inv(g, s) && Enabled(g, s, FillHead(b))
    ensures Inv(g, Apply(g, s, FillHead(b)))
  {
    OverwriteKeepsBuffers(g, s, Apply(g, s, FillHead(b)), s.pc.who, b, g.start, SetHead(s.cache.bufs[b].data, s.lh));
    FillHeadKeepsPhase(g, s, b);
  }

  // With no operation running, a home block outside the transaction is the same in memory and on the disk.
  lemma UnloggedOnDisk(g: Layout, s: State, blk: nat)
    requires Shape(g, s) && Buffered(g, s) && s.ops == map[] && s.pc.Busy? && !s.pc.boot && s.pc.phase.WriteHead?
    requires blk < g.nblocks && Home(g, blk) && blk !in s.lh
    ensures s.disk[blk] == s.contents[blk]
  {
    assert BlockOk(g, s, blk);
    if Cached(g, s, blk) {
      var a :| 0 <= a < NBUF && CachedIn(g, s, a, blk);
      assert DataOk(g, s, a) && DirtyOk(g, s, a);
    }
  }

  lemma FlushHeadKeepsPhase(g: Layout, s: State, b: nat)
    requires Shape(g, s) && Reserved(g, s) && PhaseOk(g, s) && Enabled(g, s, FlushHead(b))
    requires Shows(g, s, b, g.start)
    requires forall blk :: 0 <= blk < g.nblocks && Home(g, blk) && blk !in s.lh ==> s.disk[blk] == s.contents[blk]
    ensures PhaseOk(g, Apply(g, s, FlushHead(b)))
  {
    var s' := Apply(g, s, FlushHead(b));
    LoggedKept(g, s, s', s.contents, s'.committed, |s.lh|);
    assert s'.lh[0..] == s.lh;
  }

  lemma FlushHeadKeepsInv(g: Layout, s: State, b: nat)
    requires Inv(g, s) && Enabled(g, s, FlushHead(b))
    ensures Inv(g, Apply(g, s, FlushHead(b)))
  {
    var s' := Apply(g, s, FlushHead(b));
    HeldShows(g, s, s.pc.who, b, g.start);
    assert s'.lh[0..] == s.lh;
    FlushKeepsBuffers(g, s, s', s.pc.who, b, g.start);
    forall blk | 0 <= blk < g.nblocks && Home(g, blk) && blk !in s.lh
      ensures s.disk[blk] == s.contents[blk]
    {
      UnloggedOnDisk(g, s, blk);
    }
    FlushHeadKeepsPhase(g, s, b);
  }

  lemma CopyHomeKeepsPhase(g: Layout, s: State, from: nat, to: nat)
    requires Shape(g, s) && Reserved(g, s) && PhaseOk(g, s) && Enabled(g, s, CopyHome(from, to))
    requires Shows(g, s, from, g.start + 1 + s.pc.phase.tail)
    ensures PhaseOk(g, Apply(g, s, CopyHome(from, to)))
  {
    hide RecoversTo, Quiet, Unspent, LoggedUpTo, Entries;
    var s' := Apply(g, s, CopyHome(from, to));
    var tail := s.pc.phase.tail;
    assert Home(g, s.lh[tail]);
    LoggedKept(g, s, s', s.committed, s'.committed, |s.lh|);
    LoggedAt(g, s, s.committed, |s.lh|, tail);
  }

  lemma LoggedAt(g: Layout, s: State, image: seq<Block>, n: nat, i: nat)
    requires Shape(g, s) && Loggable(g, s.lh) && |image| == g.nblocks && i < n <= |s.lh| && LoggedUpTo(g, s, image, n)
    ensures Logged(g, s.contents, image, s.lh, i) && Logged(g, s.disk, image, s.lh, i)
  {
  }

  lemma CopyHomeKeepsInv(g: Layout, s: State, from: nat, to: nat)
    requires Inv(g, s) && Enabled(g, s, CopyHome(from, to))
    ensures Inv(g, Apply(g, s, CopyHome(from, to)))
  {
    hide PhaseOk, Buffered, Unspent, LoggedUpTo, Entries;
    var tail := s.pc.phase.tail;
    HeldShows(g, s, s.pc.who, from, g.start + 1 + tail);
    OverwriteKeepsBuffers(g, s, Apply(g, s, CopyHome(from, to)), s.pc.who, to, s.lh[tail], s.cache.bufs[from].data);
    CopyHomeKeepsPhase(g, s, from, to);
  }

  lemma RestOfList(lh: seq<int>, k: nat, x: int)
    requires k < |lh|
    ensures x in lh[k..] <==> x == lh[k] || x in lh[k + 1..]
  {
    assert lh[k..] == [lh[k]] + lh[k + 1..];
  }

  lemma FlushHomeKeepsPhase(g: Layout, s: State, b: nat)
    requires Shape(g, s) && Reserved(g, s) && PhaseOk(g, s) && Enabled(g, s, FlushHome(b))
    requires Shows(g, s, b, s.lh[s.pc.phase.tail])
    ensures PhaseOk(g, Apply(g, s, FlushHome(b)))
  {
    var s' := Apply(g, s, FlushHome(b));
    var tail := s.pc.phase.tail;
    assert Home(g, s.lh[tail]);
    LoggedKept(g, s, s', s.committed, s'.committed, |s.lh|);
    forall blk | 0 <= blk < g.nblocks && Home(g, blk) && blk !in s.lh[tail + 1..]
      ensures s'.disk[blk] == s'.committed[blk]
    {
      RestOfList(s.lh, tail, blk);
    }
  }

  lemma FlushHomeKeepsInv(g: Layout, s: State, b: nat)
    requires Inv(g, s) && Enabled(g, s, FlushHome(b))
    ensures Inv(g, Apply(g, s, FlushHome(b)))
  {
    var blk := s.lh[s.pc.phase.tail];
    HeldShows(g, s, s.pc.who, b, blk);
    FlushKeepsBuffers(g, s, Apply(g, s, FlushHome(b)), s.pc.who, b, blk);
    FlushHomeKeepsPhase(g, s, b);
  }

  lemma TailNotRepeated(g: Layout, lh: seq<int>, k: nat)
    requires Loggable(g, lh) && k < |lh|
    ensures lh[k] !in lh[k + 1..]
  {
    forall j | k < j < |lh|
      ensures lh[j] != lh[k]
    {
      assert Apart(lh, k, j);
    }
  }

  lemma UnpinPins(g: Layout, s: State, b: nat)
    requires Shape(g, s) && Loggable(g, s.lh) && Enabled(g, s, Unpin(b)) && !s.pc.boot
    ensures var s', blk := Apply(g, s, Unpin(b)), s.lh[s.pc.phase.tail];
      && blk in Pinned(s) && blk !in Pinned(s') && (forall x :: x != blk ==> (x in Pinned(s) <==> x in Pinned(s')))
      && InHand(g, s) == -1 && InHand(g, s') == -1
  {
    var tail := s.pc.phase.tail;
    TailNotRepeated(g, s.lh, tail);
    forall x
      ensures x in s.lh[tail..] <==> x == s.lh[tail] || x in s.lh[tail + 1..]
    {
      RestOfList(s.lh, tail, x);
    }
  }

  // s' is s with one reference to b fewer, and the commit a step further.
  predicate OneFewer(s: State, s': State, b: nat)
    requires b < |s.cache.bufs| && s.cache.bufs[b].refcnt > 0
  {
    && s'.cache == Bio.Unpin(s.cache, b)
    && s'.holder == s.holder && s'.users == s.users && s'.dirty == s.dirty
    && s'.ops == s.ops && s'.disk == s.disk && s'.contents == s.contents && s'.committed == s.committed
  }

  lemma UnpinOne(g: Layout, s: State, b: nat)
    requires Shape(g, s) && Enabled(g, s, Unpin(b)) && !s.pc.boot
    ensures OneFewer(s, Apply(g, s, Unpin(b)), b)
  {
  }

  lemma FewerOnly(g: Layout, s: State, s': State, b: nat, blk: nat)
    requires Shape(g, s) && b < NBUF && s.cache.bufs[b].refcnt > 0 && OneFewer(s, s', b) && IsKeyed(g, s, b, blk) && blk < g.nblocks
    ensures Shape(g, s') && OnlyBuffer(g, s, s', b, blk)
  {
  }

  // The block that has just been installed no longer needs its pin.
  lemma UnpinKeepsBuffers(g: Layout, s: State, b: nat)
    requires Shape(g, s) && Buffered(g, s) && Loggable(g, s.lh) && Enabled(g, s, Unpin(b)) && !s.pc.boot
    requires s.disk[s.lh[s.pc.phase.tail]] == s.contents[s.lh[s.pc.phase.tail]]
    ensures Buffered(g, Apply(g, s, Unpin(b)))
  {
    var s' := Apply(g, s, Unpin(b));
    var blk := s.lh[s.pc.phase.tail];
    assert Home(g, blk);
    BufferOk(g, s, b);
    UnpinPins(g, s, b);
    UnpinOne(g, s, b);
    FewerOnly(g, s, s', b, blk);
    UnpinnedBuffer(g, s, s', b, blk);
    OneBuffer(g, s, s', b, blk) by { hide Apply, Enabled, Pinned, InHand, Buffered; }
  }

  lemma UnpinnedBuffer(g: Layout, s: State, s': State, b: nat, blk: nat)
    requires Shape(g, s) && Shape(g, s') && IsKeyed(g, s, b, blk) && blk < g.nblocks && CountOk(g, s, b) && DirtyOk(g, s, b) && DataOk(g, s, b)
    requires blk in Pinned(s) && blk !in Pinned(s') && InHand(g, s) == -1 && InHand(g, s') == -1
    requires s.cache.bufs[b].refcnt > 0 && OneFewer(s, s', b) && s.disk[blk] == s.contents[blk]
    ensures CountOk(g, s', b) && DirtyOk(g, s', b) && DataOk(g, s', b) && BlockOk(g, s', blk)
  {
    hide Pinned, InHand;
  }

  lemma UnpinKeepsPhase(g: Layout, s: State, b: nat)
    requires Shape(g, s) && Reserved(g, s) && PhaseOk(g, s) && Enabled(g, s, Unpin(b))
    ensures PhaseOk(g, Apply(g, s, Unpin(b)))
  {
    var s' := Apply(g, s, Unpin(b));
    LoggedKept(g, s, s', s.committed, s'.committed, |s.lh|);
  }

  lemma UnpinKeepsInv(g: Layout, s: State, b: nat)
    requires Inv(g, s) && Enabled(g, s, Unpin(b))
    ensures Inv(g, Apply(g, s, Unpin(b)))
  {
    var tail := s.pc.phase.tail;
    assert Home(g, s.lh[tail]);
    TailNotRepeated(g, s.lh, tail);
    UnpinKeepsPhase(g, s, b);
    if s.pc.boot {
      forall a | 0 <= a < NBUF
        ensures DirtyOk(g, Apply(g, s, Unpin(b)), a)
      {
        assert DirtyOk(g, s, a);
      }
      NoBuffer(g, s, Apply(g, s, Unpin(b)));
    } else {
      UnpinKeepsBuffers(g, s, b);
    }
  }

  lemma ForgetKeepsInv(g: Layout, s: State)
    requires Inv(g, s) && Enabled(g, s, Forget)
    ensures Inv(g, Apply(g, s, Forget))
  {
    var s' := Apply(g, s, Forget);
    AlwaysRecoverable(g, s);
    forall b | 0 <= b < NBUF
      ensures DirtyOk(g, s', b)
    {
      assert DirtyOk(g, s, b);
    }
    assert s.lh[|s.lh|..] == [];
    NoBuffer(g, s, s');
  }

  lemma FillClearKeepsPhase(g: Layout, s: State, b: nat)
    requires Shape(g, s) && Reserved(g, s) && PhaseOk(g, s) && Enabled(g, s, FillClear(b))
    ensures PhaseOk(g, Apply(g, s, FillClear(b)))
  {
  }

  lemma FillClearKeepsInv(g: Layout, s: State, b: nat)
    requires Inv(g, s) && Enabled(g, s, FillClear(b))
    ensures Inv(g, Apply(g, s, FillClear(b)))
  {
    OverwriteKeepsBuffers(g, s, Apply(g, s, FillClear(b)), s.pc.who, b, g.start, SetHead(s.cache.bufs[b].data, []));
    FillClearKeepsPhase(g, s, b);
  }

  lemma FlushClearKeepsPhase(g: Layout, s: State, b: nat)
    requires Shape(g, s) && Reserved(g, s) && PhaseOk(g, s) && Enabled(g, s, FlushClear(b))
    requires Shows(g, s, b, g.start)
    ensures PhaseOk(g, Apply(g, s, FlushClear(b)))
  {
  }

  lemma FlushClearKeepsInv(g: Layout, s: State, b: nat)
    requires Inv(g, s) && Enabled(g, s, FlushClear(b))
    ensures Inv(g, Apply(g, s, FlushClear(b)))
  {
    HeldShows(g, s, s.pc.who, b, g.start);
    FlushKeepsBuffers(g, s, Apply(g, s, FlushClear(b)), s.pc.who, b, g.start);
    FlushClearKeepsPhase(g, s, b);
  }

  lemma EndCommitKeepsInv(g: Layout, s: State)
    requires Inv(g, s) && Enabled(g, s, EndCommit)
    ensures Inv(g, Apply(g, s, EndCommit))
  {
    var s' := Apply(g, s, EndCommit);
    forall b | 0 <= b < NBUF
      ensures DirtyOk(g, s', b)
    {
      assert DirtyOk(g, s, b);
    }
    NoBuffer(g, s, s');
  }

  lemma ReadHeaderKeepsInv(g: Layout, s: State, b: nat)
    requires Inv(g, s) && Enabled(g, s, ReadHeader(b))
    ensures Inv(g, Apply(g, s, ReadHeader(b)))
  {
    var s' := Apply(g, s, ReadHeader(b));
    assert DataOk(g, s, b);
    forall b | 0 <= b < NBUF
      ensures DirtyOk(g, s', b)
    {
      assert DirtyOk(g, s, b);
    }
    NoBuffer(g, s, s');
    assert PhaseOk(g, s');
  }

  lemma PowerOnInv(g: Layout, disk: seq<Block>, t: Tid, image: seq<Block>)
    requires RecoversTo(g, disk, image)
    ensures Inv(g, PowerOn(disk, t, image))
  {
    var s := PowerOn(disk, t, image);
    assert Reserved(g, s);
    assert Buffered(g, s);
  }

  lemma CrashKeepsInv(g: Layout, s: State, t: Tid)
    requires Inv(g, s)
    ensures Inv(g, Apply(g, s, Crash(t)))
  {
    AlwaysRecoverable(g, s);
    PowerOnInv(g, s.disk, t, s.committed);
  }

  predicate IsCallerStep(step: Step) {
    step.Lookup? || step.Lock? || step.Fill? || step.Modify? || step.LogWrite? || step.Unlock? || step.Drop?
  }

  predicate IsCommitStep(step: Step) {
    step.BeginOp? || step.EndOp? || step.CopyToLog? || step.FlushLog? || step.FillHead? || step.FlushHead? || step.EndCommit?
  }

  predicate IsInstallStep(step: Step) {
    step.CopyHome? || step.FlushHome? || step.Unpin? || step.Forget? || step.FillClear? || step.FlushClear?
  }

  lemma CallerStepKeepsInv(g: Layout, s: State, step: Step)
    requires Inv(g, s) && Enabled(g, s, step)
    requires IsCallerStep(step)
    ensures Inv(g, Apply(g, s, step))
  {
    match step
    case Lookup(t, blk) => LookupKeepsInv(g, s, t, blk);
    case Lock(t, b) => LockKeepsInv(g, s, t, b);
    case Fill(t, b) => FillKeepsInv(g, s, t, b);
    case Modify(t, b, blk, d) => ModifyKeepsInv(g, s, t, b, blk, d);
    case LogWrite(t, b, blk) => LogWriteKeepsInv(g, s, t, b, blk);
    case Unlock(t, b) => UnlockKeepsInv(g, s, t, b);
    case Drop(t, b) => DropKeepsInv(g, s, t, b);
  }

  lemma CommitStepKeepsInv(g: Layout, s: State, step: Step)
    requires Inv(g, s) && Enabled(g, s, step)
    requires IsCommitStep(step)
    ensures Inv(g, Apply(g, s, step))
  {
    match step
    case BeginOp(t) => BeginOpKeepsInv(g, s, t);
    case EndOp(t) => EndOpKeepsInv(g, s, t);
    case CopyToLog(to, from) => CopyToLogKeepsInv(g, s, to, from);
    case FlushLog(b) => FlushLogKeepsInv(g, s, b);
    case FillHead(b) => FillHeadKeepsInv(g, s, b);
    case FlushHead(b) => FlushHeadKeepsInv(g, s, b);
    case EndCommit => EndCommitKeepsInv(g, s);
  }

  lemma InstallStepKeepsInv(g: Layout, s: State, step: Step)
    requires Inv(g, s) && Enabled(g, s, step)
    requires IsInstallStep(step)
    ensures Inv(g, Apply(g, s, step))
  {
    match step
    case CopyHome(from, to) => CopyHomeKeepsInv(g, s, from, to);
    case FlushHome(b) => FlushHomeKeepsInv(g, s, b);
    case Unpin(b) => UnpinKeepsInv(g, s, b);
    case Forget => ForgetKeepsInv(g, s);
    case FillClear(b) => FillClearKeepsInv(g, s, b);
    case FlushClear(b) => FlushClearKeepsInv(g, s, b);
  }

  /* Every step of every thread, and a crash at any moment, keeps the invariant. */
  lemma StepKeepsInv(g: Layout, s: State, step: Step)
    requires Inv(g, s) && Enabled(g, s, step)
    ensures Inv(g, Apply(g, s, step))
  {
    if IsCallerStep(step) {
      CallerStepKeepsInv(g, s, step);
    } else if IsCommitStep(step) {
      CommitStepKeepsInv(g, s, step);
    } else if IsInstallStep(step) {
      InstallStepKeepsInv(g, s, step);
    } else if step.Crash? {
      CrashKeepsInv(g, s, step.t);
    } else {
      ReadHeaderKeepsInv(g, s, step.b);
    }
  }
}
