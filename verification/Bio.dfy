/** The buffer cache of kernel/bio.c.

    `Cache` is the abstract cache: the buffers, and the list of buffer indices from most to
    least recently used.  `Get`, `Put`, `Pin` and `Unpin` are what bget, brelse, bpin and bunpin do
    to it; the log's state machine (module LogMachine) is built on them.  `Bcache` is the cache as
    the kernel stores it, a doubly linked ring of buffers, and its methods are proved to act on the
    abstract cache exactly as these functions do.  Buffers are named by their index in bcache.buf. */
module Bio {
  import opened Blocks

  datatype Buf = Buf(dev: nat, blockno: nat, valid: bool, refcnt: nat, data: Block)

  datatype Cache = Cache(bufs: seq<Buf>, order: seq<nat>)

  predicate Keyed(c: Cache, b: nat, dev: nat, blockno: nat)
    requires b < |c.bufs|
  {
    c.bufs[b].dev == dev && c.bufs[b].blockno == blockno
  }

  predicate Differ(order: seq<nat>, i: int, j: int)
    requires 0 <= i < |order| && 0 <= j < |order|
  {
    order[i] != order[j]
  }

  ghost predicate Distinct(order: seq<nat>) {
    forall i, j :: 0 <= i < j < |order| ==> Differ(order, i, j)
  }

  // The recency list names every buffer exactly once.
  ghost predicate Arranged(order: seq<nat>, n: nat) {
    && |order| == n
    && (forall i :: 0 <= i < n ==> order[i] < n)
    && Distinct(order)
    && (forall b :: 0 <= b < n ==> b in order)
  }

  ghost predicate WellFormed(c: Cache) {
    |c.bufs| == NBUF && Arranged(c.order, NBUF)
  }

  // binit leaves every buffer keyed (0, 0), so device 0 is exempt.
  ghost predicate Unique(c: Cache) {
    forall a, b :: 0 <= a < |c.bufs| && 0 <= b < |c.bufs| && a != b && c.bufs[a].dev != 0 ==>
      !(c.bufs[a].dev == c.bufs[b].dev && c.bufs[a].blockno == c.bufs[b].blockno)
  }

  /* Position in the list, from k on, of the first buffer holding (dev, blockno); |order| if none. */
  function FindKey(c: Cache, dev: nat, blockno: nat, k: nat): (r: nat)
    requires WellFormed(c) && k <= NBUF
    ensures k <= r <= NBUF
    ensures r < NBUF ==> Keyed(c, c.order[r], dev, blockno)
    ensures forall i :: k <= i < r ==> !Keyed(c, c.order[i], dev, blockno)
    decreases NBUF - k
  {
    if k == NBUF || Keyed(c, c.order[k], dev, blockno) then k else FindKey(c, dev, blockno, k + 1)
  }

  /* One more than the position, below k, of the last buffer nobody refers to; 0 if none. */
  function FindVictim(c: Cache, k: nat): (r: nat)
    requires WellFormed(c) && k <= NBUF
    ensures r <= k
    ensures r > 0 ==> c.bufs[c.order[r - 1]].refcnt == 0
    ensures forall i :: r <= i < k ==> c.bufs[c.order[i]].refcnt != 0
  {
    if k == 0 || c.bufs[c.order[k - 1]].refcnt == 0 then k else FindVictim(c, k - 1)
  }

  // Both of bget's loops visit every buffer.
  lemma FullScan(c: Cache, dev: nat, blockno: nat)
    requires WellFormed(c)
    ensures FindKey(c, dev, blockno, 0) == NBUF ==> forall b :: 0 <= b < NBUF ==> !Keyed(c, b, dev, blockno)
    ensures FindVictim(c, NBUF) == 0 ==> forall b :: 0 <= b < NBUF ==> c.bufs[b].refcnt != 0
  {
    forall b | 0 <= b < NBUF
      ensures FindKey(c, dev, blockno, 0) == NBUF ==> !Keyed(c, b, dev, blockno)
      ensures FindVictim(c, NBUF) == 0 ==> c.bufs[b].refcnt != 0
    {
      assert b in c.order;
    }
  }

  datatype Lookup = Hit(b: nat) | Recycle(b: nat) | NoBuffers

  function Choose(c: Cache, dev: nat, blockno: nat): (r: Lookup)
    requires WellFormed(c)
    ensures r.Hit? ==> r.b < NBUF && Keyed(c, r.b, dev, blockno)
    ensures !r.Hit? ==> forall b :: 0 <= b < NBUF ==> !Keyed(c, b, dev, blockno)
    ensures r.Recycle? ==> r.b < NBUF && c.bufs[r.b].refcnt == 0
    ensures r.NoBuffers? ==> forall b :: 0 <= b < NBUF ==> c.bufs[b].refcnt != 0
  {
    var hit := FindKey(c, dev, blockno, 0);
    if hit < NBUF then Hit(c.order[hit])
    else
      var victim := FindVictim(c, NBUF);
      FullScan(c, dev, blockno);
      if victim > 0 then Recycle(c.order[victim - 1]) else NoBuffers
  }

  // The effect of bget's critical section; NoBuffers is a panic and has no successor.
  function Get(c: Cache, dev: nat, blockno: nat): (c': Cache)
    requires WellFormed(c) && !Choose(c, dev, blockno).NoBuffers?
    ensures WellFormed(c')
  {
    match Choose(c, dev, blockno)
    case Hit(b) => c.(bufs := c.bufs[b := c.bufs[b].(refcnt := c.bufs[b].refcnt + 1)])
    case Recycle(b) =>
      c.(bufs := c.bufs[b := c.bufs[b].(dev := dev, blockno := blockno, valid := false, refcnt := 1)])
  }

  function Remove(order: seq<nat>, b: nat): (r: seq<nat>) {
    if order == [] then []
    else if order[0] == b then order[1..]
    else [order[0]] + Remove(order[1..], b)
  }

  lemma {:induction false} RemoveAt(order: seq<nat>, i: nat)
    requires i < |order|
    requires forall j :: 0 <= j < i ==> order[j] != order[i]
    ensures Remove(order, order[i]) == order[..i] + order[i + 1..]
  {
    if i > 0 {
      RemoveAt(order[1..], i - 1);
      assert order[1..][..i - 1] == order[1..i];
      assert order[1..][i..] == order[i + 1..];
      assert [order[0]] + order[1..i] == order[..i];
    }
  }

  lemma DistinctBefore(order: seq<nat>, i: nat)
    requires Distinct(order) && i < |order|
    ensures Remove(order, order[i]) == order[..i] + order[i + 1..]
  {
    forall j | 0 <= j < i
      ensures order[j] != order[i]
    {
      assert Differ(order, j, i);
    }
    RemoveAt(order, i);
  }

  lemma MoveToFront(order: seq<nat>, n: nat, b: nat)
    requires Arranged(order, n) && b < n
    ensures Arranged([b] + Remove(order, b), n)
  {
    assert b in order;
    var i :| 0 <= i < n && order[i] == b;
    DistinctBefore(order, i);
    var moved := [b] + (order[..i] + order[i + 1..]);
    forall x, y | 0 <= x < y < n
      ensures Differ(moved, x, y)
    {
      MovedDistinct(order, i, x, y);
    }
    forall a | 0 <= a < n
      ensures a in moved
    {
      MovedCovers(order, i, a);
    }
  }

  lemma MovedDistinct(order: seq<nat>, i: nat, x: nat, y: nat)
    requires Distinct(order) && i < |order| && x < y < |order|
    ensures Differ([order[i]] + (order[..i] + order[i + 1..]), x, y)
  {
    if x == 0 {
      assert if y <= i then Differ(order, y - 1, i) else Differ(order, i, y);
    } else {
      assert Differ(order, if x <= i then x - 1 else x, if y <= i then y - 1 else y);
    }
  }

  lemma MovedCovers(order: seq<nat>, i: nat, a: nat)
    requires i < |order| && a in order
    ensures a in [order[i]] + (order[..i] + order[i + 1..])
  {
    var moved := [order[i]] + (order[..i] + order[i + 1..]);
    var j :| 0 <= j < |order| && order[j] == a;
    assert moved[if j < i then j + 1 else if j > i then j else 0] == a;
  }

  // The effect of brelse's critical section: a buffer nobody refers to any more becomes the most recent.
  function Put(c: Cache, b: nat): (c': Cache)
    requires WellFormed(c) && b < NBUF && c.bufs[b].refcnt > 0
    ensures WellFormed(c')
  {
    var left := c.bufs[b].refcnt - 1;
    var bufs := c.bufs[b := c.bufs[b].(refcnt := left)];
    MoveToFront(c.order, NBUF, b);
    Cache(bufs, if left == 0 then [b] + Remove(c.order, b) else c.order)
  }

  function Pin(c: Cache, b: nat): Cache
    requires b < |c.bufs|
  {
    c.(bufs := c.bufs[b := c.bufs[b].(refcnt := c.bufs[b].refcnt + 1)])
  }

  // bunpin, unlike brelse, leaves the recency list alone.
  function Unpin(c: Cache, b: nat): Cache
    requires b < |c.bufs| && c.bufs[b].refcnt > 0
  {
    c.(bufs := c.bufs[b := c.bufs[b].(refcnt := c.bufs[b].refcnt - 1)])
  }

  /* No two buffers ever hold the same block of a device other than 0. */
  lemma GetKeepsUnique(c: Cache, dev: nat, blockno: nat)
    requires WellFormed(c) && Unique(c) && !Choose(c, dev, blockno).NoBuffers?
    ensures Unique(Get(c, dev, blockno))
  {
    var c' := Get(c, dev, blockno);
    match Choose(c, dev, blockno)
    case Hit(b) =>
      assert forall a :: 0 <= a < NBUF ==> c'.bufs[a].dev == c.bufs[a].dev && c'.bufs[a].blockno == c.bufs[a].blockno;
    case Recycle(v) =>
      forall a, b | 0 <= a < NBUF && 0 <= b < NBUF && a != b && c'.bufs[a].dev != 0
        ensures !(c'.bufs[a].dev == c'.bufs[b].dev && c'.bufs[a].blockno == c'.bufs[b].blockno)
      {
        assert !Keyed(c, a, dev, blockno) && !Keyed(c, b, dev, blockno);
      }
  }

  /* Recycling never takes a buffer that is referred to, and takes the least recently used one. */
  lemma VictimIsLeastRecent(c: Cache, dev: nat, blockno: nat, i: nat)
    requires WellFormed(c) && Choose(c, dev, blockno).Recycle?
    requires i < NBUF && c.bufs[c.order[i]].refcnt == 0
    ensures exists v :: i <= v < NBUF && c.order[v] == Choose(c, dev, blockno).b
  {
    var v := FindVictim(c, NBUF) - 1;
    assert c.order[v] == Choose(c, dev, blockno).b;
  }

  // ---------- what a pin is for ----------

  datatype Use = Getting(dev: nat, blockno: nat) | Putting(b: nat) | Pinning(b: nat) | Unpinning(b: nat)

  // bget does not panic, and a reference that is given up was there.
  predicate CanUse(c: Cache, u: Use)
    requires WellFormed(c)
  {
    match u
    case Getting(dev, blockno) => !Choose(c, dev, blockno).NoBuffers?
    case Putting(b) => b < NBUF && c.bufs[b].refcnt > 0
    case Pinning(b) => b < NBUF
    case Unpinning(b) => b < NBUF && c.bufs[b].refcnt > 0
  }

  function Used(c: Cache, u: Use): (c': Cache)
    requires WellFormed(c) && CanUse(c, u)
    ensures WellFormed(c')
  {
    match u
    case Getting(dev, blockno) => Get(c, dev, blockno)
    case Putting(b) => Put(c, b)
    case Pinning(b) => Pin(c, b)
    case Unpinning(b) => Unpin(c, b)
  }

  predicate Takes(c: Cache, u: Use, b: nat)
    requires WellFormed(c)
  {
    match u
    case Getting(dev, blockno) => Choose(c, dev, blockno) == Hit(b)
    case Pinning(x) => x == b
    case _ => false
  }

  predicate Gives(u: Use, b: nat) {
    u == Putting(b) || u == Unpinning(b)
  }

  // Any use of the cache in which the others, who start with `held` references to b, give up only what they hold.
  ghost predicate UsedByOthers(c: Cache, uses: seq<Use>, b: nat, held: nat)
    requires WellFormed(c)
    decreases uses
  {
    uses == [] || (
      && CanUse(c, uses[0])
      && (Gives(uses[0], b) ==> held > 0)
      && UsedByOthers(Used(c, uses[0]), uses[1..], b, HeldAfter(c, uses[0], b, held)))
  }

  function HeldAfter(c: Cache, u: Use, b: nat, held: nat): nat
    requires WellFormed(c) && (Gives(u, b) ==> held > 0)
  {
    if Takes(c, u, b) then held + 1 else if Gives(u, b) then held - 1 else held
  }

  ghost function AfterUses(c: Cache, uses: seq<Use>): (c': Cache)
    requires WellFormed(c)
    ensures WellFormed(c')
    decreases uses
  {
    if uses == [] || !CanUse(c, uses[0]) then c else AfterUses(Used(c, uses[0]), uses[1..])
  }

  lemma UseKeepsUnique(c: Cache, u: Use)
    requires WellFormed(c) && Unique(c) && CanUse(c, u)
    ensures Unique(Used(c, u))
  {
    hide Unique, Arranged, Choose, Remove;
    match u
    case Getting(dev, blockno) => GetKeepsUnique(c, dev, blockno);
    case _ => SameKeysUnique(c, Used(c, u));
  }

  lemma UseKeepsPinned(c: Cache, u: Use, b: nat, held: nat)
    requires WellFormed(c) && CanUse(c, u) && (Gives(u, b) ==> held > 0)
    requires b < NBUF && c.bufs[b].refcnt == held + 1
    ensures Used(c, u).bufs[b] == c.bufs[b].(refcnt := HeldAfter(c, u, b, held) + 1)
  {
    hide Arranged, Choose, Remove;
  }

  lemma SameKeysUnique(c: Cache, c': Cache)
    requires Unique(c) && |c'.bufs| == |c.bufs|
    requires forall a :: 0 <= a < |c.bufs| ==> c'.bufs[a].dev == c.bufs[a].dev && c'.bufs[a].blockno == c.bufs[a].blockno
    ensures Unique(c')
  {
  }

  lemma {:induction false} HeldStays(c: Cache, uses: seq<Use>, b: nat, held: nat)
    requires WellFormed(c) && Unique(c) && UsedByOthers(c, uses, b, held)
    requires b < NBUF && c.bufs[b].refcnt == held + 1
    ensures Unique(AfterUses(c, uses)) && AfterUses(c, uses).bufs[b].refcnt > 0
    ensures AfterUses(c, uses).bufs[b] == c.bufs[b].(refcnt := AfterUses(c, uses).bufs[b].refcnt)
    decreases uses
  {
    if uses != [] {
      UseKeepsUnique(c, uses[0]);
      UseKeepsPinned(c, uses[0], b, held);
      HeldStays(Used(c, uses[0]), uses[1..], b, HeldAfter(c, uses[0], b, held));
    }
  }

  /* However the cache is used after bpin, until the pin itself is given up the buffer keeps its block, valid
     bit and bytes, and bget of that block finds this buffer. */
  lemma PinnedStays(c: Cache, b: nat, uses: seq<Use>)
    requires WellFormed(c) && Unique(c) && b < NBUF && c.bufs[b].dev != 0
    requires UsedByOthers(Pin(c, b), uses, b, c.bufs[b].refcnt)
    ensures var c' := AfterUses(Pin(c, b), uses);
            c'.bufs[b] == c.bufs[b].(refcnt := c'.bufs[b].refcnt) && Choose(c', c.bufs[b].dev, c.bufs[b].blockno) == Hit(b)
  {
    var p := Pin(c, b);
    SameKeysUnique(c, p);
    HeldStays(p, uses, b, c.bufs[b].refcnt);
    var c' := AfterUses(p, uses);
    assert Keyed(c', b, c.bufs[b].dev, c.bufs[b].blockno);
  }

  // ---------- least recently used ----------

  // brelse gives up the last reference to the buffer.
  predicate Frees(c: Cache, u: Use)
    requires WellFormed(c) && CanUse(c, u)
  {
    u.Putting? && c.bufs[u.b].refcnt == 1
  }

  // The buffers in the order in which brelse left them unused.
  ghost function Released(c: Cache, uses: seq<Use>): seq<nat>
    requires WellFormed(c)
    decreases uses
  {
    if uses == [] || !CanUse(c, uses[0]) then []
    else (if Frees(c, uses[0]) then [uses[0].b] else []) + Released(Used(c, uses[0]), uses[1..])
  }

  // The last time b was released, if it was.
  function LastAt(h: seq<nat>, b: nat): (t: int)
    ensures -1 <= t < |h| && (t >= 0 ==> h[t] == b)
    ensures forall i :: t < i < |h| ==> h[i] != b
  {
    if h == [] then -1 else if h[|h| - 1] == b then |h| - 1 else LastAt(h[..|h| - 1], b)
  }

  predicate Later(order: seq<nat>, h: seq<nat>, i: nat, j: nat)
    requires i < |order| && j < |order|
  {
    LastAt(h, order[i]) > LastAt(h, order[j])
  }

  // The recency list goes from the latest release to the earliest.
  ghost predicate ByRelease(order: seq<nat>, h: seq<nat>) {
    forall i: nat, j: nat :: i < j < |order| ==> Later(order, h, i, j)
  }

  lemma LastAfter(h: seq<nat>, b: nat, x: nat)
    ensures LastAt(h + [b], x) == if x == b then |h| else LastAt(h, x)
  {
    assert (h + [b])[..|h|] == h;
  }

  lemma FrontOrders(order: seq<nat>, k: nat, h: seq<nat>)
    requires Distinct(order) && k < |order| && ByRelease(order, h)
    ensures ByRelease([order[k]] + (order[..k] + order[k + 1..]), h + [order[k]])
  {
    hide Distinct, LastAt;
    var b := order[k];
    var moved := [b] + (order[..k] + order[k + 1..]);
    forall i: nat, j: nat | i < j < |moved|
      ensures Later(moved, h + [b], i, j)
    {
      LastAfter(h, b, moved[i]);
      LastAfter(h, b, moved[j]);
      MovedDistinct(order, k, 0, j);
      LastBefore(h, moved[j]);
      if i > 0 {
        MovedDistinct(order, k, 0, i);
        assert Later(order, h, if i <= k then i - 1 else i, if j <= k then j - 1 else j);
      }
    }
  }

  lemma LastBefore(h: seq<nat>, x: nat)
    ensures LastAt(h, x) < |h|
  {
  }

  lemma PutOrders(c: Cache, b: nat, h: seq<nat>)
    requires WellFormed(c) && b < NBUF && c.bufs[b].refcnt == 1 && ByRelease(c.order, h)
    ensures ByRelease(Put(c, b).order, h + [b])
  {
    hide ByRelease, Remove, Distinct;
    assert b in c.order;
    var k :| 0 <= k < NBUF && c.order[k] == b;
    DistinctBefore(c.order, k);
    FrontOrders(c.order, k, h);
  }

  lemma {:induction false} UsesOrder(c: Cache, uses: seq<Use>, h: seq<nat>)
    requires WellFormed(c) && ByRelease(c.order, h)
    ensures ByRelease(AfterUses(c, uses).order, h + Released(c, uses))
    decreases uses
  {
    hide ByRelease, WellFormed, Choose, Remove;
    if uses == [] || !CanUse(c, uses[0]) {
      assert h + [] == h;
    } else {
      var u, c' := uses[0], Used(c, uses[0]);
      if Frees(c, u) {
        PutOrders(c, u.b, h);
        UsesOrder(c', uses[1..], h + [u.b]);
        assert h + [u.b] + Released(c', uses[1..]) == h + Released(c, uses);
      } else {
        assert c'.order == c.order;
        UsesOrder(c', uses[1..], h);
        assert Released(c', uses[1..]) == Released(c, uses);
      }
    }
  }

  /* However the cache has been used, the buffer that bget recycles is, of those nobody refers to, the one
     whose last release by brelse is the earliest; h is the order of releases before. */
  lemma RecyclesEarliestReleased(c: Cache, h: seq<nat>, uses: seq<Use>, dev: nat, blockno: nat, b: nat)
    requires WellFormed(c) && ByRelease(c.order, h)
    requires Choose(AfterUses(c, uses), dev, blockno).Recycle?
    requires b < NBUF && AfterUses(c, uses).bufs[b].refcnt == 0 && b != Choose(AfterUses(c, uses), dev, blockno).b
    ensures var h' := h + Released(c, uses); LastAt(h', Choose(AfterUses(c, uses), dev, blockno).b) < LastAt(h', b)
  {
    hide Used, Put, CanUse;
    var c' := AfterUses(c, uses);
    UsesOrder(c, uses, h);
    assert b in c'.order;
    var i: nat :| i < NBUF && c'.order[i] == b;
    VictimIsLeastRecent(c', dev, blockno, i);
    var v: nat :| i <= v < NBUF && c'.order[v] == Choose(c', dev, blockno).b;
    assert Later(c'.order, h + Released(c, uses), i, v);
  }

  // binit's list is as if the buffers had been released from the first to the last.
  lemma OrderAtBoot(order: seq<nat>)
    requires |order| == NBUF && forall i :: 0 <= i < NBUF ==> order[i] == NBUF - 1 - i
    ensures ByRelease(order, seq(NBUF, i => i))
  {
    var h := seq(NBUF, i => i);
    forall i: nat, j: nat | i < j < NBUF
      ensures Later(order, h, i, j)
    {
      assert h[order[i]] == order[i] && h[order[j]] == order[j];
    }
  }

  const HEAD: nat := NBUF

  // The i-th node of the ring: position -1 and position |order| are both the list head.
  function RingAt(order: seq<nat>, i: int): nat {
    if 0 <= i < |order| then order[i] else HEAD
  }

  predicate NextAt(ring: seq<nat>, next: seq<nat>, i: int)
    requires |next| == NBUF + 1 && forall j :: 0 <= j < |ring| ==> ring[j] < NBUF
  {
    next[RingAt(ring, i)] == RingAt(ring, i + 1)
  }

  predicate PrevAt(ring: seq<nat>, prev: seq<nat>, i: int)
    requires |prev| == NBUF + 1 && forall j :: 0 <= j < |ring| ==> ring[j] < NBUF
  {
    prev[RingAt(ring, i)] == RingAt(ring, i - 1)
  }

  // next and prev, indexed by node, link the head and the buffers of ring into one circle.
  ghost predicate Linked(ring: seq<nat>, next: seq<nat>, prev: seq<nat>) {
    && |next| == NBUF + 1 && |prev| == NBUF + 1
    && (forall i :: 0 <= i < |ring| ==> ring[i] < NBUF)
    && Distinct(ring)
    && (forall i :: -1 <= i < |ring| ==> NextAt(ring, next, i))
    && (forall i :: 0 <= i <= |ring| ==> PrevAt(ring, prev, i))
  }

  lemma LinkedEnds(ring: seq<nat>, next: seq<nat>, prev: seq<nat>)
    requires Linked(ring, next, prev)
    ensures next[HEAD] == RingAt(ring, 0) && prev[HEAD] == RingAt(ring, |ring| - 1)
  {
    assert NextAt(ring, next, -1) && PrevAt(ring, prev, |ring|);
  }

  lemma RingDistinct(ring: seq<nat>, i: int, j: int)
    requires Distinct(ring) && (forall k :: 0 <= k < |ring| ==> ring[k] < NBUF)
    requires -1 <= i < j <= |ring| && !(i == -1 && j == |ring|)
    ensures RingAt(ring, i) != RingAt(ring, j)
  {
    assert 0 <= i && j < |ring| ==> Differ(ring, i, j);
  }

  lemma UnlinkOne(ring: seq<nat>, next: seq<nat>, prev: seq<nat>, k: nat)
    requires Linked(ring, next, prev) && k < |ring|
    ensures var b, rest := ring[k], ring[..k] + ring[k + 1..];
      && next[b] <= NBUF && prev[b] <= NBUF && b !in rest
      && Linked(rest, next[prev[b] := next[b]], prev[next[b] := prev[b]])
  {
    var b, rest := ring[k], ring[..k] + ring[k + 1..];
    assert NextAt(ring, next, k) && PrevAt(ring, prev, k);
    var next', prev' := next[prev[b] := next[b]], prev[next[b] := prev[b]];
    forall i, j | 0 <= i < j < |rest|
      ensures Differ(rest, i, j)
    {
      assert Differ(ring, if i < k then i else i + 1, if j < k then j else j + 1);
    }
    forall i | 0 <= i < |rest|
      ensures rest[i] != b
    {
      assert if i < k then Differ(ring, i, k) else Differ(ring, k, i + 1);
    }
    forall i | -1 <= i < |rest|
      ensures NextAt(rest, next', i)
    {
      var j := if i < k then i else i + 1;
      assert NextAt(ring, next, j);
      if j < k - 1 { RingDistinct(ring, j, k - 1); }
      if k < j && k - 1 >= 0 { RingDistinct(ring, k - 1, j); }
    }
    forall i | 0 <= i <= |rest|
      ensures PrevAt(rest, prev', i)
    {
      var j := if i < k then i else i + 1;
      assert PrevAt(ring, prev, j);
      if k + 1 < j { RingDistinct(ring, k + 1, j); }
      if j < k { RingDistinct(ring, j, k + 1); }
    }
  }

  lemma InsertOne(ring: seq<nat>, next: seq<nat>, prev: seq<nat>, b: nat)
    requires Linked(ring, next, prev) && b < NBUF && b !in ring
    ensures next[HEAD] <= NBUF
    ensures Linked([b] + ring, next[b := next[HEAD]][HEAD := b], prev[b := HEAD][next[HEAD] := b])
  {
    LinkedEnds(ring, next, prev);
    var longer := [b] + ring;
    var next', prev' := next[b := next[HEAD]][HEAD := b], prev[b := HEAD][next[HEAD] := b];
    forall i, j | 0 <= i < j < |longer|
      ensures Differ(longer, i, j)
    {
      if i > 0 { assert Differ(ring, i - 1, j - 1); }
    }
    forall i | -1 <= i < |longer|
      ensures NextAt(longer, next', i)
    {
      if i > 0 { assert NextAt(ring, next, i - 1); }
    }
    forall i | 0 <= i <= |longer|
      ensures PrevAt(longer, prev', i)
    {
      if i > 1 {
        assert PrevAt(ring, prev, i - 1);
        RingDistinct(ring, 0, i - 1);
      }
    }
  }

  class Bcache {
    var buf: seq<Buf>
    var next: seq<nat>
    var prev: seq<nat>
    ghost var order: seq<nat>

    ghost predicate Valid()
      reads this
    {
      |buf| == NBUF && Arranged(order, NBUF) && Linked(order, next, prev)
    }

    ghost function Abs(): (c: Cache)
      reads this
    {
      Cache(buf, order)
    }

    constructor ()
      ensures Valid()
      ensures forall i :: 0 <= i < NBUF ==> order[i] == NBUF - 1 - i
      ensures forall b :: 0 <= b < NBUF ==>
        buf[b].dev == 0 && buf[b].blockno == 0 && !buf[b].valid && buf[b].refcnt == 0
    {
      buf := seq(NBUF, _ => Buf(0, 0, false, 0, seq(BLOCK_WORDS, _ => 0)));
      next, prev := seq(NBUF + 1, _ => HEAD), seq(NBUF + 1, _ => HEAD);
      order := [];
      new;
      for b := 0 to NBUF
        invariant |buf| == NBUF
        invariant forall k :: 0 <= k < NBUF ==> buf[k].dev == 0 && buf[k].blockno == 0 && !buf[k].valid && buf[k].refcnt == 0
        invariant |order| == b && forall i :: 0 <= i < b ==> order[i] == b - 1 - i
        invariant Linked(order, next, prev)
      {
        InsertFirst(b);
      }
      forall b | 0 <= b < NBUF
        ensures b in order
      {
        assert order[NBUF - 1 - b] == b;
      }
    }

    // bget's first loop: the most recently used buffer holding the block, or the list head.
    method ScanForKey(dev: nat, blockno: nat) returns (b: nat)
      requires Valid()
      ensures b == RingAt(order, FindKey(Abs(), dev, blockno, 0))
    {
      LinkedEnds(order, next, prev);
      b := next[HEAD];
      ghost var k: nat := 0;
      while b != HEAD
        invariant 0 <= k <= NBUF && b == RingAt(order, k)
        invariant FindKey(Abs(), dev, blockno, 0) == FindKey(Abs(), dev, blockno, k)
        decreases NBUF - k
      {
        if buf[b].dev == dev && buf[b].blockno == blockno {
          return b;
        }
        assert NextAt(order, next, k);
        b := next[b];
        k := k + 1;
      }
    }

    // bget's second loop: the least recently used buffer nobody refers to, or the list head.
    method ScanForVictim() returns (b: nat)
      requires Valid()
      ensures b == RingAt(order, FindVictim(Abs(), NBUF) - 1)
    {
      LinkedEnds(order, next, prev);
      b := prev[HEAD];
      ghost var k: nat := NBUF;
      while b != HEAD
        invariant 0 <= k <= NBUF && b == RingAt(order, k - 1)
        invariant FindVictim(Abs(), NBUF) == FindVictim(Abs(), k)
        decreases k
      {
        if buf[b].refcnt == 0 {
          return b;
        }
        assert PrevAt(order, prev, k - 1);
        b := prev[b];
        k := k - 1;
      }
    }

    // bget, up to the point where it would wait for the buffer's sleep lock.
    method BGet(dev: nat, blockno: nat) returns (r: Option<nat>)
      requires Valid()
      modifies this`buf
      ensures Valid()
      ensures r.None? <==> Choose(old(Abs()), dev, blockno).NoBuffers?
      ensures r.None? ==> Abs() == old(Abs())
      ensures r.Some? ==> r.value == Choose(old(Abs()), dev, blockno).b
      ensures r.Some? ==> Abs() == Get(old(Abs()), dev, blockno)
    {
      var b := ScanForKey(dev, blockno);
      if b != HEAD {
        buf := buf[b := buf[b].(refcnt := buf[b].refcnt + 1)];
        return Some(b);
      }
      b := ScanForVictim();
      if b != HEAD {
        buf := buf[b := buf[b].(dev := dev, blockno := blockno, valid := false, refcnt := 1)];
        return Some(b);
      }
      return None;
    }

    // brelse, after the buffer's sleep lock has been released.
    method BRelse(b: nat)
      requires Valid() && b < NBUF && buf[b].refcnt > 0
      modifies this
      ensures Valid()
      ensures Abs() == Put(old(Abs()), b)
    {
      buf := buf[b := buf[b].(refcnt := buf[b].refcnt - 1)];
      if buf[b].refcnt == 0 {
        MoveToFront(order, NBUF, b);
        assert b in order;
        Unlink(b);
        InsertFirst(b);
      }
    }

    method Unlink(b: nat)
      requires Linked(order, next, prev) && b in order
      modifies this`next, this`prev, this`order
      ensures order == Remove(old(order), b) && b !in order
      ensures Linked(order, next, prev)
    {
      ghost var i :| 0 <= i < |order| && order[i] == b;
      ghost var rest := order[..i] + order[i + 1..];
      DistinctBefore(order, i);
      UnlinkOne(order, next, prev, i);
      prev := prev[next[b] := prev[b]];
      next := next[prev[b] := next[b]];
      order := rest;
    }

    method InsertFirst(b: nat)
      requires Linked(order, next, prev) && b < NBUF && b !in order
      modifies this`next, this`prev, this`order
      ensures order == [b] + old(order)
      ensures Linked(order, next, prev)
    {
      LinkedEnds(order, next, prev);
      InsertOne(order, next, prev, b);
      next := next[b := next[HEAD]];
      prev := prev[b := HEAD];
      prev := prev[next[HEAD] := b];
      next := next[HEAD := b];
      order := [b] + order;
    }

    method BPin(b: nat)
      requires Valid() && b < NBUF
      modifies this`buf
      ensures Valid()
      ensures Abs() == Pin(old(Abs()), b)
    {
      buf := buf[b := buf[b].(refcnt := buf[b].refcnt + 1)];
    }

    method BUnpin(b: nat)
      requires Valid() && b < NBUF && buf[b].refcnt > 0
      modifies this`buf
      ensures Valid()
      ensures Abs() == Unpin(old(Abs()), b)
    {
      buf := buf[b := buf[b].(refcnt := buf[b].refcnt - 1)];
    }
  }
}
