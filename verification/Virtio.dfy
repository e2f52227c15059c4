/** The virtio disk driver and its device (kernel/virtio_disk.c), as two parties that share a
    descriptor table and two rings.

    The driver's methods are its critical sections; virtio_disk_rw is Submit, then a sleep until
    b->disk is 0, then Finish.  The device takes offered requests in ring order and completes taken
    ones in any order; it knows only what is in the shared tables. */
module Virtio {
  import opened Blocks

  const NUM: nat := 8
  const WRAP: nat := 65536             // ring indices are uint16
  const BSIZE: nat := 1024
  const IOERR: nat := 1
  const SECTOR: nat := 512             // the device counts in sectors of 512 bytes

  type BufId = nat

  datatype Addr = Null | OpAt(i: nat) | DataOf(b: BufId) | StatusAt(i: nat)

  datatype Desc = Desc(addr: Addr, len: nat, hasNext: bool, deviceWrites: bool, next: nat)

  const ZERO := Desc(Null, 0, false, false, 0)

  datatype Op = Op(write: bool, sector: nat)

  datatype Info = Info(b: Option<BufId>, status: nat)

  // Where a request stands: on the avail ring, with the device, on the used ring, or acknowledged.
  datatype Phase = Offered | Taken | Done | Acked

  datatype Req = Req(i1: nat, i2: nat, b: BufId, write: bool, blockno: nat, phase: Phase)

  // ---------- descriptors ----------

  // Descriptor d belongs to the chain that starts at h.
  predicate InChain(h: nat, r: Req, d: nat) {
    d == h || d == r.i1 || d == r.i2
  }

  predicate ChainOk(free: seq<bool>, desc: seq<Desc>, h: nat, r: Req)
    requires |free| == NUM && |desc| == NUM
  {
    && h < NUM && r.i1 < NUM && r.i2 < NUM && h != r.i1 && h != r.i2 && r.i1 != r.i2
    && !free[h] && !free[r.i1] && !free[r.i2]
    && desc[h] == Desc(OpAt(h), 16, true, false, r.i1)
    && desc[r.i1] == Desc(DataOf(r.b), BSIZE, true, !r.write, r.i2)
    && desc[r.i2] == Desc(StatusAt(h), 1, false, true, 0)
  }

  // The request a device expects (section 5.2.6 of the virtio specification): a header of 16 bytes that it reads, the
  // data, which it writes if it reads from the disk, and a status byte that it writes.
  predicate Proper(op: Op, head: Desc, data: Desc, status: Desc) {
    && head.addr.OpAt? && head.len == 16 && !head.deviceWrites
    && data.addr.DataOf? && data.len == BSIZE && data.deviceWrites == !op.write
    && status.addr.StatusAt? && status.len == 1 && status.deviceWrites && !status.hasNext
  }

  // Descriptor d is free and blank, or in the chain that owner names.
  ghost predicate DescOk(free: seq<bool>, desc: seq<Desc>, reqs: map<nat, Req>, owner: map<nat, nat>, d: nat)
    requires |free| == NUM && |desc| == NUM && d < NUM
  {
    && (free[d] <==> d !in owner)
    && (free[d] ==> desc[d] == ZERO)
    && (d in owner ==> owner[d] in reqs && InChain(owner[d], reqs[owner[d]], d))
  }

  function Without<K, V>(m: map<K, V>, k: K): map<K, V> {
    m - {k}
  }

  function Own(owner: map<nat, nat>, h: nat, r: Req): map<nat, nat> {
    owner[h := h][r.i1 := h][r.i2 := h]
  }

  function Disown(owner: map<nat, nat>, h: nat, r: Req): map<nat, nat> {
    owner - {h, r.i1, r.i2}
  }

  predicate OwnsChain(owner: map<nat, nat>, h: nat, r: Req) {
    && h in owner && r.i1 in owner && r.i2 in owner
    && owner[h] == h && owner[r.i1] == h && owner[r.i2] == h
  }

  // Descriptors split into free ones and disjoint chains of three.
  ghost predicate Partition(free: seq<bool>, desc: seq<Desc>, reqs: map<nat, Req>, owner: map<nat, nat>) {
    && |free| == NUM && |desc| == NUM
    && (forall d :: 0 <= d < NUM ==> DescOk(free, desc, reqs, owner, d))
    && (forall h :: h in reqs ==> ChainOk(free, desc, h, reqs[h]) && OwnsChain(owner, h, reqs[h]))
  }

  // Three descriptors chained up by virtio_disk_rw.
  function Linked(desc: seq<Desc>, h: nat, r: Req): (desc': seq<Desc>)
    requires |desc| == NUM && h < NUM && r.i1 < NUM && r.i2 < NUM
    ensures |desc'| == NUM
  {
    desc[h := Desc(OpAt(h), 16, true, false, r.i1)]
        [r.i1 := Desc(DataOf(r.b), BSIZE, true, !r.write, r.i2)]
        [r.i2 := Desc(StatusAt(h), 1, false, true, 0)]
  }

  function Blanked(desc: seq<Desc>, h: nat, r: Req): (desc': seq<Desc>)
    requires |desc| == NUM && h < NUM && r.i1 < NUM && r.i2 < NUM
    ensures |desc'| == NUM
  {
    desc[h := ZERO][r.i1 := ZERO][r.i2 := ZERO]
  }

  function Marked(free: seq<bool>, h: nat, r: Req, x: bool): (free': seq<bool>)
    requires |free| == NUM && h < NUM && r.i1 < NUM && r.i2 < NUM
    ensures |free'| == NUM
  {
    free[h := x][r.i1 := x][r.i2 := x]
  }

  predicate ThreeFree(free: seq<bool>, a: nat, b: nat, c: nat)
    requires |free| == NUM
  {
    a < NUM && b < NUM && c < NUM && a != b && a != c && b != c && free[a] && free[b] && free[c]
  }

  lemma AddChain(free: seq<bool>, desc: seq<Desc>, reqs: map<nat, Req>, owner: map<nat, nat>, h: nat, r: Req)
    requires Partition(free, desc, reqs, owner) && ThreeFree(free, h, r.i1, r.i2)
    ensures h !in reqs
    ensures Partition(Marked(free, h, r, false), Linked(desc, h, r), reqs[h := r], Own(owner, h, r))
  {
    var free', desc', owner' := Marked(free, h, r, false), Linked(desc, h, r), Own(owner, h, r);
    var reqs' := reqs[h := r];
    assert DescOk(free, desc, reqs, owner, h) && DescOk(free, desc, reqs, owner, r.i1) && DescOk(free, desc, reqs, owner, r.i2);
    forall g | g in reqs
      ensures g != h && ChainOk(free', desc', g, reqs[g]) && OwnsChain(owner', g, reqs[g])
    {
      assert ChainOk(free, desc, g, reqs[g]) && OwnsChain(owner, g, reqs[g]);
    }
    forall d | 0 <= d < NUM
      ensures DescOk(free', desc', reqs', owner', d)
    {
      assert DescOk(free, desc, reqs, owner, d);
    }
  }

  lemma RemoveChain(free: seq<bool>, desc: seq<Desc>, reqs: map<nat, Req>, owner: map<nat, nat>, h: nat)
    requires Partition(free, desc, reqs, owner) && h in reqs
    ensures |free| == NUM && |desc| == NUM && ChainOk(free, desc, h, reqs[h])
    ensures var r := reqs[h];
      Partition(Marked(free, h, r, true), Blanked(desc, h, r), Without(reqs, h), Disown(owner, h, r))
  {
    var r := reqs[h];
    assert ChainOk(free, desc, h, r) && OwnsChain(owner, h, r);
    var free', desc', owner' := Marked(free, h, r, true), Blanked(desc, h, r), Disown(owner, h, r);
    forall g | g in Without(reqs, h)
      ensures ChainOk(free', desc', g, reqs[g]) && OwnsChain(owner', g, reqs[g])
    {
      assert ChainOk(free, desc, g, reqs[g]) && OwnsChain(owner, g, reqs[g]);
    }
    forall d | 0 <= d < NUM
      ensures DescOk(free', desc', Without(reqs, h), owner', d)
    {
      assert DescOk(free, desc, reqs, owner, d);
    }
  }

  // Moving a request on to another phase touches no descriptor.
  lemma AdvanceChain(free: seq<bool>, desc: seq<Desc>, reqs: map<nat, Req>, owner: map<nat, nat>, h: nat, phase: Phase)
    requires Partition(free, desc, reqs, owner) && h in reqs
    ensures Partition(free, desc, reqs[h := reqs[h].(phase := phase)], owner)
  {
    var reqs' := reqs[h := reqs[h].(phase := phase)];
    forall d | 0 <= d < NUM
      ensures DescOk(free, desc, reqs', owner, d)
    {
      assert DescOk(free, desc, reqs, owner, d);
    }
  }

  // ---------- descriptor allocation ----------

  // alloc_desc: the first free descriptor, or -1.
  method AllocDesc(free0: seq<bool>) returns (r: int, free: seq<bool>)
    requires |free0| == NUM
    ensures r == -1 || 0 <= r < NUM
    ensures r == -1 ==> free == free0 && forall d :: 0 <= d < NUM ==> !free[d]
    ensures r >= 0 ==> free0[r] && free == free0[r := false] && forall d :: 0 <= d < r ==> !free0[d]
  {
    free := free0;
    for i := 0 to NUM
      invariant free == free0
      invariant forall d :: 0 <= d < i ==> !free[d]
    {
      if free[i] {
        free := free[i := false];
        return i, free;
      }
    }
    return -1, free;
  }

  // free_desc: false is one of its two panics.
  method FreeDesc(free0: seq<bool>, desc0: seq<Desc>, i: nat) returns (ok: bool, free: seq<bool>, desc: seq<Desc>)
    requires |free0| == NUM && |desc0| == NUM
    ensures ok <==> i < NUM && !free0[i]
    ensures !ok ==> free == free0 && desc == desc0
    ensures ok ==> free == free0[i := true] && desc == desc0[i := ZERO]
  {
    if i >= NUM || free0[i] {
      return false, free0, desc0;
    }
    return true, free0[i := true], desc0[i := ZERO];
  }

  /* free_chain: given a well-formed chain it stops after three descriptors and does not panic. */
  method FreeChain(free0: seq<bool>, desc0: seq<Desc>, head: nat, ghost r: Req) returns (ok: bool, free: seq<bool>, desc: seq<Desc>)
    requires |free0| == NUM && |desc0| == NUM && ChainOk(free0, desc0, head, r)
    ensures ok && free == Marked(free0, head, r, true) && desc == Blanked(desc0, head, r)
  {
    var i := head;
    free, desc := free0, desc0;
    ghost var k := 0;
    while true
      invariant 0 <= k <= 2
      invariant i == if k == 0 then head else if k == 1 then r.i1 else r.i2
      invariant k == 0 ==> free == free0 && desc == desc0
      invariant k == 1 ==> free == free0[head := true] && desc == desc0[head := ZERO]
      invariant k == 2 ==> free == free0[head := true][r.i1 := true] && desc == desc0[head := ZERO][r.i1 := ZERO]
      decreases 3 - k
    {
      var flag, nxt := desc[i].hasNext, desc[i].next;
      ok, free, desc := FreeDesc(free, desc, i);
      if !ok {
        return;
      }
      if flag {
        i := nxt;
        k := k + 1;
      } else {
        return;
      }
    }
  }

  /* alloc3_desc: three different free descriptors, or, when there are fewer, none and nothing changed. */
  method Alloc3(free0: seq<bool>, desc0: seq<Desc>) returns (ok: bool, idx: seq<nat>, free: seq<bool>, desc: seq<Desc>)
    requires |free0| == NUM && |desc0| == NUM && forall d :: 0 <= d < NUM && free0[d] ==> desc0[d] == ZERO
    ensures desc == desc0
    ensures ok ==> |idx| == 3 && ThreeFree(free0, idx[0], idx[1], idx[2])
    ensures ok ==> forall r: Req :: r.i1 == idx[1] && r.i2 == idx[2] ==> free == Marked(free0, idx[0], r, false)
    ensures !ok ==> free == free0 && forall a: nat, b: nat, c: nat :: !ThreeFree(free0, a, b, c)
  {
    free, desc, idx := free0, desc0, [];
    for i := 0 to 3
      invariant |idx| == i && desc == desc0
      invariant forall k :: 0 <= k < i ==> idx[k] < NUM && free0[idx[k]]
      invariant i == 0 ==> free == free0
      invariant i == 1 ==> free == free0[idx[0] := false]
      invariant i == 2 ==> free == free0[idx[0] := false][idx[1] := false] && idx[0] != idx[1]
      invariant i == 3 ==> ThreeFree(free0, idx[0], idx[1], idx[2])
      invariant i == 3 ==> free == free0[idx[0] := false][idx[1] := false][idx[2] := false]
    {
      var d;
      d, free := AllocDesc(free);
      if d < 0 {
        forall a: nat, b: nat, c: nat
          ensures !ThreeFree(free0, a, b, c)
        {
          assert a < NUM ==> !free[a];
          assert b < NUM ==> !free[b];
          assert c < NUM ==> !free[c];
        }
        for j := 0 to i
          invariant desc == desc0 && i <= 2
          invariant i == 1 && j == 0 ==> free == free0[idx[0] := false]
          invariant i == 2 && j == 0 ==> free == free0[idx[0] := false][idx[1] := false] && idx[0] != idx[1]
          invariant i == 2 && j == 1 ==> free == free0[idx[1] := false]
          invariant j == i ==> free == free0
        {
          ok, free, desc := FreeDesc(free, desc, idx[j]);
        }
        return false, idx, free, desc;
      }
      idx := idx + [d];
    }
    ok := true;
  }

  // virtio_disk_rw fills in the three descriptors.
  method Format(desc0: seq<Desc>, b: BufId, write: bool, i0: nat, i1: nat, i2: nat) returns (desc: seq<Desc>)
    requires |desc0| == NUM && i0 < NUM && i1 < NUM && i2 < NUM
    ensures forall r: Req :: r.i1 == i1 && r.i2 == i2 && r.b == b && r.write == write ==> desc == Linked(desc0, i0, r)
  {
    desc := desc0[i0 := Desc(OpAt(i0), 16, true, false, i1)];
    desc := desc[i1 := Desc(DataOf(b), BSIZE, true, !write, i2)];
    desc := desc[i2 := Desc(StatusAt(i0), 1, false, true, 0)];
  }

  // ---------- rings ----------

  predicate SlotOk(ring: seq<nat>, hist: seq<nat>, i: nat)
    requires |ring| == NUM && i < |hist|
  {
    ring[i % NUM] == hist[i]
  }

  // hist is everything ever put on the ring; what is past seen is still there to be read.
  ghost predicate RingOk(ring: seq<nat>, idx: nat, hist: seq<nat>, seen: nat) {
    && |ring| == NUM && idx == |hist| % WRAP
    && seen <= |hist| <= seen + NUM
    && (forall i :: seen <= i < |hist| ==> SlotOk(ring, hist, i))
    && (forall i :: seen <= i < |hist| ==> hist[i] < NUM)
    && (forall i, j :: seen <= i < j < |hist| ==> Distinct(hist, i, j))
  }

  predicate Distinct(hist: seq<nat>, i: nat, j: nat)
    requires i < |hist| && j < |hist|
  {
    hist[i] != hist[j]
  }

  function FirstOr(s: seq<nat>, x: nat): nat {
    if |s| > 0 then s[0] else x
  }

  // Distinct heads: there can be no more of them than descriptors.
  lemma {:induction false} Pigeonhole(s: seq<nat>, n: nat)
    requires forall i :: 0 <= i < |s| ==> s[i] < n
    requires forall i, j :: 0 <= i < j < |s| ==> Distinct(s, i, j)
    ensures |s| <= n
  {
    if n == 0 {
      assert FirstOr(s, 0) >= 0;
    } else if n - 1 in s {
      var k :| 0 <= k < |s| && s[k] == n - 1;
      var rest := s[..k] + s[k + 1..];
      forall i | 0 <= i < |rest|
        ensures rest[i] < n - 1
      {
        assert if i < k then Distinct(s, i, k) else Distinct(s, k, i + 1);
      }
      forall i, j | 0 <= i < j < |rest|
        ensures Distinct(rest, i, j)
      {
        assert Distinct(s, if i < k then i else i + 1, if j < k then j else j + 1);
      }
      Pigeonhole(rest, n - 1);
    } else {
      Pigeonhole(s, n - 1);
    }
  }

  /* A new head, different from every unread one, fits on the ring without overwriting any. */
  lemma PutOnRing(ring: seq<nat>, idx: nat, hist: seq<nat>, seen: nat, h: nat)
    requires RingOk(ring, idx, hist, seen) && h < NUM
    requires forall i :: seen <= i < |hist| ==> hist[i] != h
    ensures RingOk(ring[idx % NUM := h], (idx + 1) % WRAP, hist + [h], seen)
  {
    var hist' := hist + [h];
    var ring' := ring[idx % NUM := h];
    SlotOfCounter(|hist|);
    var pending := hist'[seen..];
    forall i | 0 <= i < |pending|
      ensures pending[i] < NUM
    {
      assert pending[i] == hist'[seen + i];
    }
    forall i, j | 0 <= i < j < |pending|
      ensures Distinct(pending, i, j)
    {
      if seen + j < |hist| { assert Distinct(hist, seen + i, seen + j); }
    }
    Pigeonhole(pending, NUM);
    forall i | seen <= i < |hist'|
      ensures SlotOk(ring', hist', i)
    {
      if i < |hist| {
        assert SlotOk(ring, hist, i);
        SlotsDiffer(i, |hist|);
      }
    }
    forall i, j | seen <= i < j < |hist'|
      ensures Distinct(hist', i, j)
    {
      if j < |hist| { assert Distinct(hist, i, j); }
    }
  }

  lemma SlotsDiffer(i: nat, j: nat)
    requires i < j < i + NUM
    ensures i % NUM != j % NUM
  {
  }

  lemma SlotOfCounter(x: nat)
    ensures (x % WRAP) % NUM == x % NUM
  {
  }

  lemma ReadRing(ring: seq<nat>, idx: nat, hist: seq<nat>, seen: nat)
    requires RingOk(ring, idx, hist, seen) && seen < |hist|
    ensures ring[(seen % WRAP) % NUM] == hist[seen] && RingOk(ring, idx, hist, seen + 1)
  {
    assert SlotOk(ring, hist, seen);
    SlotOfCounter(seen);
  }

  lemma UnreadDiffer(ring: seq<nat>, idx: nat, hist: seq<nat>, seen: nat)
    requires RingOk(ring, idx, hist, seen) && seen < |hist|
    ensures forall i :: seen < i < |hist| ==> hist[i] != hist[seen]
  {
    forall i | seen < i < |hist|
      ensures hist[i] != hist[seen]
    {
      assert Distinct(hist, seen, i);
    }
  }

  // The driver's and the device's uint16 counters agree exactly when the ring is empty.
  lemma RingEmpty(ring: seq<nat>, idx: nat, hist: seq<nat>, seen: nat)
    requires RingOk(ring, idx, hist, seen)
    ensures idx == seen % WRAP <==> seen == |hist|
  {
  }

  // ---------- the shared state ----------

  // Every unread entry of the avail ring is an offered request, and vice versa.
  ghost predicate Listed(reqs: map<nat, Req>, hist: seq<nat>, seen: nat, phase: Phase) {
    && seen <= |hist|
    && (forall i :: seen <= i < |hist| ==> hist[i] in reqs && reqs[hist[i]].phase == phase)
    && (forall h :: h in reqs && reqs[h].phase == phase ==> h in hist[seen..])
  }

  lemma ListMore(reqs: map<nat, Req>, hist: seq<nat>, seen: nat, h: nat, r: Req)
    requires Listed(reqs, hist, seen, r.phase) && (h in reqs ==> reqs[h].phase != r.phase)
    ensures forall i :: seen <= i < |hist| ==> hist[i] != h
    ensures Listed(reqs[h := r], hist + [h], seen, r.phase)
  {
    var hist' := hist + [h];
    assert hist'[seen..] == hist[seen..] + [h];
  }

  // The next entry moves on to another phase.
  lemma ListLess(reqs: map<nat, Req>, hist: seq<nat>, seen: nat, r: Req)
    requires seen < |hist| && hist[seen] in reqs && Listed(reqs, hist, seen, reqs[hist[seen]].phase) && r.phase != reqs[hist[seen]].phase
    requires forall i :: seen < i < |hist| ==> hist[i] != hist[seen]
    ensures Listed(reqs[hist[seen] := r], hist, seen + 1, reqs[hist[seen]].phase)
  {
    assert hist[seen..] == [hist[seen]] + hist[seen + 1..];
  }

  // A request that is in neither the old nor the new phase of h stays where it is listed.
  lemma ListSame(reqs: map<nat, Req>, hist: seq<nat>, seen: nat, phase: Phase, h: nat, r: Req)
    requires Listed(reqs, hist, seen, phase) && (h in reqs ==> reqs[h].phase != phase) && r.phase != phase
    ensures Listed(reqs[h := r], hist, seen, phase) && Listed(Without(reqs, h), hist, seen, phase)
  {
  }

  // A ring between the two parties, whose unread entries are the requests in the given phase.
  ghost predicate RingLists(ring: seq<nat>, idx: nat, hist: seq<nat>, seen: nat, reqs: map<nat, Req>, phase: Phase) {
    RingOk(ring, idx, hist, seen) && Listed(reqs, hist, seen, phase)
  }

  // Request h is put on the ring.
  lemma PutRequest(ring: seq<nat>, idx: nat, hist: seq<nat>, seen: nat, reqs: map<nat, Req>, h: nat, r: Req)
    requires RingLists(ring, idx, hist, seen, reqs, r.phase) && h < NUM && (h in reqs ==> reqs[h].phase != r.phase)
    ensures |ring| == NUM && idx % NUM < NUM
    ensures RingLists(ring[idx % NUM := h], (idx + 1) % WRAP, hist + [h], seen, reqs[h := r], r.phase)
  {
    ListMore(reqs, hist, seen, h, r);
    PutOnRing(ring, idx, hist, seen, h);
  }

  // The next request is read from the ring.
  lemma GetRequest(ring: seq<nat>, idx: nat, hist: seq<nat>, seen: nat, reqs: map<nat, Req>, phase: Phase, phase': Phase)
    requires RingLists(ring, idx, hist, seen, reqs, phase) && phase' != phase
    ensures seen <= |hist| && (idx == seen % WRAP <==> seen == |hist|)
    ensures seen < |hist| ==>
      && |ring| == NUM && ring[(seen % WRAP) % NUM] == hist[seen]
      && hist[seen] in reqs && hist[seen] < NUM && reqs[hist[seen]].phase == phase
      && RingLists(ring, idx, hist, seen + 1, reqs[hist[seen] := reqs[hist[seen]].(phase := phase')], phase)
  {
    RingEmpty(ring, idx, hist, seen);
    if seen < |hist| {
      ReadRing(ring, idx, hist, seen);
      UnreadDiffer(ring, idx, hist, seen);
      ListLess(reqs, hist, seen, reqs[hist[seen]].(phase := phase'));
    }
  }

  lemma RingKept(ring: seq<nat>, idx: nat, hist: seq<nat>, seen: nat, reqs: map<nat, Req>, phase: Phase, h: nat, r: Req)
    requires RingLists(ring, idx, hist, seen, reqs, phase) && (h in reqs ==> reqs[h].phase != phase) && r.phase != phase
    ensures RingLists(ring, idx, hist, seen, reqs[h := r], phase) && RingLists(ring, idx, hist, seen, Without(reqs, h), phase)
  {
    ListSame(reqs, hist, seen, phase, h, r);
  }

  datatype Tables = Tables(ops: seq<Op>, info: seq<Info>, blockOf: map<BufId, nat>, dataOf: map<BufId, Block>, blocks: map<nat, Block>)

  // What the tables say about request h.
  ghost predicate RequestOk(t: Tables, user: map<BufId, nat>, h: nat, r: Req)
    requires |t.ops| == NUM && |t.info| == NUM
  {
    && h < NUM
    && t.ops[h].write == r.write && t.ops[h].sector * SECTOR == r.blockno * BSIZE
    && t.info[h].b == Some(r.b)
    && r.b in user && user[r.b] == h
    && r.b in t.blockOf && t.blockOf[r.b] == r.blockno && r.b in t.dataOf && r.blockno in t.blocks
  }

  ghost predicate RequestsOk(t: Tables, user: map<BufId, nat>, reqs: map<nat, Req>) {
    && |t.ops| == NUM && |t.info| == NUM
    && (forall h :: h in reqs ==> RequestOk(t, user, h, reqs[h]))
  }

  lemma RequestsAdd(t: Tables, t': Tables, user: map<BufId, nat>, reqs: map<nat, Req>, h: nat, r: Req)
    requires RequestsOk(t, user, reqs) && h < NUM && h !in reqs && r.b !in user
    requires r.b in t.blockOf && t.blockOf[r.b] == r.blockno && r.b in t.dataOf && r.blockno in t.blocks
    requires t' == t.(ops := t.ops[h := Op(r.write, r.blockno * (BSIZE / SECTOR))], info := t.info[h := Info(Some(r.b), 0xff)])
    ensures RequestsOk(t', user[r.b := h], reqs[h := r])
  {
    forall g | g in reqs
      ensures RequestOk(t', user[r.b := h], g, reqs[g])
    {
      assert RequestOk(t, user, g, reqs[g]);
    }
  }

  lemma RequestsRemove(t: Tables, t': Tables, user: map<BufId, nat>, reqs: map<nat, Req>, h: nat)
    requires RequestsOk(t, user, reqs) && h in reqs && h < NUM && t' == t.(info := t.info[h := t.info[h].(b := None)])
    ensures RequestsOk(t', Without(user, reqs[h].b), Without(reqs, h))
  {
    assert RequestOk(t, user, h, reqs[h]);
    forall g | g in reqs && g != h
      ensures RequestOk(t', Without(user, reqs[h].b), g, reqs[g])
    {
      assert RequestOk(t, user, g, reqs[g]);
    }
  }

  // The device or the driver moves request h on; completing it sets its status and moves a block.
  lemma RequestsAdvance(t: Tables, t': Tables, user: map<BufId, nat>, reqs: map<nat, Req>, h: nat, phase: Phase)
    requires RequestsOk(t, user, reqs) && h in reqs && h < NUM
    requires t'.ops == t.ops && t'.blockOf == t.blockOf && t'.dataOf.Keys == t.dataOf.Keys && t'.blocks.Keys == t.blocks.Keys
    requires |t'.info| == NUM && |t.info| == NUM && t'.info == t.info[h := t.info[h].(status := t'.info[h].status)]
    ensures RequestsOk(t', user, reqs[h := reqs[h].(phase := phase)])
  {
    forall g | g in reqs
      ensures RequestOk(t', user, g, if g == h then reqs[h].(phase := phase) else reqs[g])
    {
      assert RequestOk(t, user, g, reqs[g]);
      assert reqs[g].b in t'.dataOf.Keys && reqs[g].blockno in t'.blocks.Keys;
    }
  }

  lemma RequestAt(t: Tables, user: map<BufId, nat>, reqs: map<nat, Req>, h: nat)
    requires RequestsOk(t, user, reqs) && h in reqs
    ensures |t.ops| == NUM && |t.info| == NUM && RequestOk(t, user, h, reqs[h])
  {
  }

  // A buffer is used by at most one request, and its disk field is 1 until that request is acknowledged.
  ghost predicate UsersOk(reqs: map<nat, Req>, user: map<BufId, nat>, atDisk: set<BufId>) {
    && (forall b :: b in user ==> user[b] in reqs && reqs[user[b]].b == b)
    && (forall b :: b in atDisk <==> b in user && !reqs[user[b]].phase.Acked?)
  }

  lemma UsersAdd(reqs: map<nat, Req>, user: map<BufId, nat>, atDisk: set<BufId>, h: nat, r: Req)
    requires UsersOk(reqs, user, atDisk) && h !in reqs && r.b !in user && !r.phase.Acked?
    ensures UsersOk(reqs[h := r], user[r.b := h], atDisk + {r.b})
  {
  }

  lemma UsersAdvance(reqs: map<nat, Req>, user: map<BufId, nat>, atDisk: set<BufId>, h: nat, phase: Phase)
    requires UsersOk(reqs, user, atDisk) && h in reqs && reqs[h].b in user && user[reqs[h].b] == h && !reqs[h].phase.Acked?
    ensures UsersOk(reqs[h := reqs[h].(phase := phase)], user, if phase.Acked? then atDisk - {reqs[h].b} else atDisk)
  {
  }

  lemma UsersRemove(reqs: map<nat, Req>, user: map<BufId, nat>, atDisk: set<BufId>, h: nat)
    requires UsersOk(reqs, user, atDisk) && h in reqs && reqs[h].b !in atDisk
    requires reqs[h].b in user && user[reqs[h].b] == h
    ensures reqs[h].phase.Acked? && UsersOk(Without(reqs, h), Without(user, reqs[h].b), atDisk)
  {
  }

  // ---------- what a request has brought ----------

  // What is known of request h: the status it completed with, and the bytes it was made with or has moved.
  ghost predicate ResultOk(info: seq<Info>, dataOf: map<BufId, Block>, h: nat, r: Req, status: map<nat, nat>, bytes: map<nat, Block>) {
    && h < |info|
    && (r.phase.Done? || r.phase.Acked? ==> h in status)
    && (r.phase.Done? ==> info[h].status == status[h])
    && (r.phase.Acked? ==> status[h] == 0)
    && (HasBytes(r) ==> r.b in dataOf && h in bytes && dataOf[r.b] == bytes[h])
  }

  // A write has its bytes from the start, a read when it is completed.
  predicate HasBytes(r: Req) {
    r.write || r.phase.Done? || r.phase.Acked?
  }

  ghost predicate ResultsOk(info: seq<Info>, dataOf: map<BufId, Block>, reqs: map<nat, Req>, status: map<nat, nat>, bytes: map<nat, Block>) {
    forall h :: h in reqs ==> ResultOk(info, dataOf, h, reqs[h], status, bytes)
  }

  lemma ResultAt(info: seq<Info>, dataOf: map<BufId, Block>, reqs: map<nat, Req>, status: map<nat, nat>, bytes: map<nat, Block>, h: nat)
    requires ResultsOk(info, dataOf, reqs, status, bytes) && h in reqs
    ensures ResultOk(info, dataOf, h, reqs[h], status, bytes)
  {
  }

  // A new request takes the bytes it is to write from its buffer.
  function WithBytes(bytes: map<nat, Block>, h: nat, write: bool, data: Block): map<nat, Block> {
    if write then bytes[h := data] else Without(bytes, h)
  }

  lemma ResultsAdd(info: seq<Info>, dataOf: map<BufId, Block>, reqs: map<nat, Req>, status: map<nat, nat>, bytes: map<nat, Block>, h: nat, r: Req, i: Info)
    requires ResultsOk(info, dataOf, reqs, status, bytes) && h !in reqs && h < |info| && r.phase.Offered? && r.b in dataOf
    ensures ResultsOk(info[h := i], dataOf, reqs[h := r], status, WithBytes(bytes, h, r.write, dataOf[r.b]))
  {
    forall g | g in reqs
      ensures ResultOk(info[h := i], dataOf, g, reqs[g], status, WithBytes(bytes, h, r.write, dataOf[r.b]))
    {
      assert ResultOk(info, dataOf, g, reqs[g], status, bytes);
    }
  }

  lemma ResultsRemove(info: seq<Info>, dataOf: map<BufId, Block>, reqs: map<nat, Req>, status: map<nat, nat>, bytes: map<nat, Block>, h: nat)
    requires ResultsOk(info, dataOf, reqs, status, bytes) && h < |info|
    ensures ResultsOk(info[h := info[h].(b := None)], dataOf, Without(reqs, h), status, bytes)
  {
    forall g | g in Without(reqs, h)
      ensures ResultOk(info[h := info[h].(b := None)], dataOf, g, reqs[g], status, bytes)
    {
      assert ResultOk(info, dataOf, g, reqs[g], status, bytes);
    }
  }

  // The device takes request h, or the driver acknowledges it.
  lemma ResultsAdvance(info: seq<Info>, dataOf: map<BufId, Block>, reqs: map<nat, Req>, status: map<nat, nat>, bytes: map<nat, Block>, h: nat, phase: Phase)
    requires ResultsOk(info, dataOf, reqs, status, bytes) && h in reqs
    requires phase.Taken? || (phase.Acked? && reqs[h].phase.Done? && h in status && status[h] == 0)
    ensures ResultsOk(info, dataOf, WithPhase(reqs, h, phase), status, bytes)
  {
    forall g | g in reqs
      ensures ResultOk(info, dataOf, g, WithPhase(reqs, h, phase)[g], status, bytes)
    {
      assert ResultOk(info, dataOf, g, reqs[g], status, bytes);
    }
  }

  // The device completes request h, which alone uses its buffer.
  lemma ResultsComplete(info: seq<Info>, info': seq<Info>, dataOf: map<BufId, Block>, dataOf': map<BufId, Block>,
                        reqs: map<nat, Req>, status: map<nat, nat>, bytes: map<nat, Block>, h: nat, st: nat, moved: Block)
    requires ResultsOk(info, dataOf, reqs, status, bytes) && h in reqs && h < |info| && reqs[h].b in dataOf
    requires forall g :: g in reqs && g != h ==> reqs[g].b != reqs[h].b
    requires info' == info[h := info[h].(status := st)]
    requires dataOf' == if reqs[h].write then dataOf else dataOf[reqs[h].b := moved]
    ensures ResultsOk(info', dataOf', WithPhase(reqs, h, Done), status[h := st],
              if reqs[h].write then bytes else bytes[h := moved])
  {
    forall g | g in reqs
      ensures ResultOk(info', dataOf', g, WithPhase(reqs, h, Done)[g], status[h := st], if reqs[h].write then bytes else bytes[h := moved])
    {
      assert ResultOk(info, dataOf, g, reqs[g], status, bytes);
    }
  }

  lemma SoleUser(t: Tables, user: map<BufId, nat>, reqs: map<nat, Req>, h: nat)
    requires RequestsOk(t, user, reqs) && h in reqs
    ensures forall g :: g in reqs && g != h ==> reqs[g].b != reqs[h].b
  {
    forall g | g in reqs && g != h
      ensures reqs[g].b != reqs[h].b
    {
      assert RequestOk(t, user, g, reqs[g]) && RequestOk(t, user, h, reqs[h]);
    }
  }

  // The pages shared with the device.
  datatype Shared = Shared(
    desc: seq<Desc>, ops: seq<Op>,
    availRing: seq<nat>, availIdx: nat,
    usedRing: seq<nat>, usedIdx: nat)

  // The driver's own part of struct disk; lookedAt is disk.used_idx.
  datatype Driver = Driver(free: seq<bool>, info: seq<Info>, lookedAt: nat)

  // The fields of struct buf that matter here; atDisk holds the buffers whose disk field is 1.
  datatype Buffers = Buffers(atDisk: set<BufId>, blockOf: map<BufId, nat>, dataOf: map<BufId, Block>)

  // How far the device has read the avail ring, the heads it is working on, and the contents of the disk.
  datatype Device = Device(taken: nat, holding: set<nat>, blocks: map<nat, Block>)

  // Bookkeeping of the proof: requests by head, the chain of each descriptor, the request of each
  // buffer, every head ever put on either ring, how many completions the driver has seen, and by
  // head the status of each completion and the bytes of each transfer.
  datatype Book = Book(
    reqs: map<nat, Req>, owner: map<nat, nat>, user: map<BufId, nat>,
    offered: seq<nat>, finished: seq<nat>, acked: nat,
    status: map<nat, nat>, bytes: map<nat, Block>)

  ghost predicate Inv(m: Shared, v: Driver, f: Buffers, e: Device, k: Book) {
    && |v.free| == NUM && |m.desc| == NUM && |m.ops| == NUM && |v.info| == NUM
    && Partition(v.free, m.desc, k.reqs, k.owner)
    && RingLists(m.availRing, m.availIdx, k.offered, e.taken, k.reqs, Offered)
    && RingLists(m.usedRing, m.usedIdx, k.finished, k.acked, k.reqs, Done)
    && v.lookedAt == k.acked % WRAP
    && RequestsOk(Tables(m.ops, v.info, f.blockOf, f.dataOf, e.blocks), k.user, k.reqs)
    && UsersOk(k.reqs, k.user, f.atDisk)
    && HoldingOk(e.holding, k.reqs)
    && ResultsOk(v.info, f.dataOf, k.reqs, k.status, k.bytes)
  }

  ghost predicate HoldingOk(holding: set<nat>, reqs: map<nat, Req>) {
    forall h :: h in holding <==> h in reqs && reqs[h].phase.Taken?
  }

  lemma HoldingPut(holding: set<nat>, reqs: map<nat, Req>, h: nat, r: Req)
    requires HoldingOk(holding, reqs)
    ensures HoldingOk(if r.phase.Taken? then holding + {h} else holding - {h}, reqs[h := r])
  {
  }

  lemma NotHeld(holding: set<nat>, reqs: map<nat, Req>, h: nat)
    requires HoldingOk(holding, reqs) && (h !in reqs || !reqs[h].phase.Taken?)
    ensures holding - {h} == holding && HoldingOk(holding, Without(reqs, h))
  {
  }

  lemma IsTaken(holding: set<nat>, reqs: map<nat, Req>, h: nat)
    requires HoldingOk(holding, reqs) && h in holding
    ensures h in reqs && reqs[h].phase.Taken?
  {
  }

  // What device and driver do to the requests in hand: each is offered, taken, done and acknowledged
  // in turn, and those acknowledged since k0 are the heads read off the used ring since then.
  ghost predicate Progress(k0: Book, k: Book) {
    && k == k0.(reqs := k.reqs, finished := k.finished, acked := k.acked, status := k.status, bytes := k.bytes)
    && k0.finished <= k.finished && k0.acked <= k.acked <= |k.finished|
    && AllLater(k0.reqs, k.reqs)
    && AckedAre(k0.reqs, k.reqs, k.finished[k0.acked..k.acked])
    && BytesStay(k0, k)
  }

  ghost predicate BytesStay(k0: Book, k: Book) {
    forall h :: h in k0.reqs && HasBytes(k0.reqs[h]) && h in k0.bytes ==> h in k.bytes && k.bytes[h] == k0.bytes[h]
  }

  ghost predicate AllLater(reqs0: map<nat, Req>, reqs: map<nat, Req>) {
    reqs.Keys == reqs0.Keys && forall h :: h in reqs0 ==> Later(reqs0[h], reqs[h])
  }

  lemma LaterMore(reqs0: map<nat, Req>, reqs: map<nat, Req>, h: nat, phase: Phase)
    requires AllLater(reqs0, reqs) && h in reqs && Rank(reqs[h].phase) <= Rank(phase)
    ensures AllLater(reqs0, WithPhase(reqs, h, phase))
  {
    assert Later(reqs0[h], reqs[h]);
  }

  ghost predicate AckedAre(reqs0: map<nat, Req>, reqs: map<nat, Req>, read: seq<nat>) {
    && (forall h :: h in reqs0 && h in reqs && reqs[h].phase.Acked? ==> reqs0[h].phase.Acked? || h in read)
    && (forall h :: h in read ==> h in reqs && reqs[h].phase.Acked?)
  }

  lemma AckedMore(reqs0: map<nat, Req>, reqs: map<nat, Req>, read: seq<nat>, h: nat)
    requires AckedAre(reqs0, reqs, read) && h in reqs
    ensures AckedAre(reqs0, WithPhase(reqs, h, Acked), read + [h])
  {
  }

  function Rank(p: Phase): nat {
    match p
    case Offered => 0
    case Taken => 1
    case Done => 2
    case Acked => 3
  }

  predicate Later(r: Req, r': Req) {
    r' == r.(phase := r'.phase) && Rank(r.phase) <= Rank(r'.phase)
  }

  // The book after the device has completed request h and moved a block.
  function Completed(k: Book, h: nat, st: nat, moved: Block): Book
    requires h in k.reqs
  {
    k.(reqs := WithPhase(k.reqs, h, Done), finished := k.finished + [h], status := k.status[h := st],
       bytes := if k.reqs[h].write then k.bytes else k.bytes[h := moved])
  }

  lemma LaterAt(reqs0: map<nat, Req>, reqs: map<nat, Req>, h: nat)
    requires AllLater(reqs0, reqs) && h in reqs
    ensures h in reqs0 && Later(reqs0[h], reqs[h])
  {
  }

  lemma AckedStay(reqs0: map<nat, Req>, reqs: map<nat, Req>, read: seq<nat>, h: nat, phase: Phase)
    requires AckedAre(reqs0, reqs, read) && h in reqs && !reqs[h].phase.Acked? && !phase.Acked?
    ensures AckedAre(reqs0, WithPhase(reqs, h, phase), read)
  {
  }

  lemma ProgressStart(k: Book)
    requires k.acked <= |k.finished|
    ensures Progress(k, k)
  {
  }

  lemma ProgressTake(k0: Book, k: Book, h: nat)
    requires Progress(k0, k) && h in k.reqs && k.reqs[h].phase.Offered?
    ensures Progress(k0, k.(reqs := WithPhase(k.reqs, h, Taken)))
  {
    hide AllLater;
    LaterMore(k0.reqs, k.reqs, h, Taken);
  }

  lemma ProgressComplete(k0: Book, k: Book, h: nat, st: nat, moved: Block)
    requires Progress(k0, k) && h in k.reqs && k.reqs[h].phase.Taken?
    ensures Progress(k0, Completed(k, h, st, moved))
  {
    hide AllLater, AckedAre;
    LaterMore(k0.reqs, k.reqs, h, Done);
    LaterAt(k0.reqs, k.reqs, h);
    AckedStay(k0.reqs, k.reqs, k.finished[k0.acked..k.acked], h, Done);
    assert (k.finished + [h])[k0.acked..k.acked] == k.finished[k0.acked..k.acked];
  }

  lemma ProgressAck(k0: Book, k: Book, h: nat)
    requires Progress(k0, k) && h in k.reqs && k.reqs[h].phase.Done? && k.acked < |k.finished| && k.finished[k.acked] == h
    ensures Progress(k0, k.(reqs := WithPhase(k.reqs, h, Acked), acked := k.acked + 1))
  {
    hide AckedAre, AllLater, WithPhase;
    LaterMore(k0.reqs, k.reqs, h, Acked);
    AckedMore(k0.reqs, k.reqs, k.finished[k0.acked..k.acked], h);
    assert k.finished[k0.acked..k.acked + 1] == k.finished[k0.acked..k.acked] + [h];
  }

  ghost function Unacked(reqs: map<nat, Req>): set<nat> {
    set h | h in reqs && !reqs[h].phase.Acked?
  }

  lemma UnackedKept(reqs: map<nat, Req>, h: nat, phase: Phase)
    requires h in reqs && !reqs[h].phase.Acked? && !phase.Acked?
    ensures Unacked(WithPhase(reqs, h, phase)) == Unacked(reqs)
  {
  }

  lemma OneAcked(reqs: map<nat, Req>, h: nat)
    requires h in reqs && !reqs[h].phase.Acked?
    ensures h in Unacked(reqs) && Unacked(WithPhase(reqs, h, Acked)) == Unacked(reqs) - {h}
  {
  }

  // Since k0 nothing has happened but acknowledgements.
  ghost predicate OnlyAcked(k0: Book, k: Book) {
    && k == k0.(reqs := k.reqs, acked := k.acked)
    && (forall h :: h in k.reqs ==> h in k0.reqs && (k.reqs[h] == k0.reqs[h] || k.reqs[h] == Acknowledged(k0.reqs[h])))
  }

  lemma OnlyAckedStart(k: Book)
    ensures OnlyAcked(k, k)
  {
  }

  lemma OnlyAckedMore(k0: Book, k: Book, h: nat)
    requires OnlyAcked(k0, k) && h in k.reqs && k.reqs[h].phase.Done?
    ensures OnlyAcked(k0, k.(reqs := WithPhase(k.reqs, h, Acked), acked := k.acked + 1))
  {
  }

  lemma OnlyAckedEnd(k0: Book, k: Book)
    requires OnlyAcked(k0, k) && forall h :: h in k.reqs ==> !k.reqs[h].phase.Done?
    ensures k == k0.(reqs := k.reqs, acked := k.acked)
    ensures forall h :: h in k.reqs ==> h in k0.reqs && k.reqs[h] == Acknowledged(k0.reqs[h])
  {
  }

  // Everything acknowledged since k0 had status 0.
  lemma ReadIsZero(info: seq<Info>, dataOf: map<BufId, Block>, k0: Book, k: Book)
    requires Progress(k0, k) && ResultsOk(info, dataOf, k.reqs, k.status, k.bytes)
    ensures k0.acked <= k.acked <= |k.finished|
    ensures forall h :: h in k.finished[k0.acked..k.acked] ==> h in k.status && k.status[h] == 0
  {
    forall h | h in k.finished[k0.acked..k.acked]
      ensures h in k.status && k.status[h] == 0
    {
      assert ResultOk(info, dataOf, h, k.reqs[h], k.status, k.bytes);
    }
  }

  // The device's turn: to fetch a request or to complete one.
  datatype Turn = Take | Complete(h: nat, st: nat, left: Block)

  lemma BlankWhenFree(free: seq<bool>, desc: seq<Desc>, reqs: map<nat, Req>, owner: map<nat, nat>)
    requires Partition(free, desc, reqs, owner)
    ensures |free| == NUM && |desc| == NUM && forall d :: 0 <= d < NUM && free[d] ==> desc[d] == ZERO
  {
    forall d | 0 <= d < NUM && free[d]
      ensures desc[d] == ZERO
    {
      assert DescOk(free, desc, reqs, owner, d);
    }
  }

  // A new request for buffer b, under a head not in use, is the only change to the book.
  ghost predicate IsOffer(k: Book, k': Book, h: nat, b: BufId, write: bool, blockOf: map<BufId, nat>) {
    && h !in k.reqs && h in k'.reqs && b in blockOf
    && k'.reqs == k.reqs[h := k'.reqs[h]]
    && k'.reqs[h] == Req(k'.reqs[h].i1, k'.reqs[h].i2, b, write, blockOf[b], Offered)
    && k'.user == k.user[b := h] && k'.offered == k.offered + [h]
    && k'.finished == k.finished && k'.acked == k.acked
  }

  // The bytes of the new request: a write's are those of its buffer.
  predicate TakesBytes(k: Book, k': Book, h: nat, b: BufId, write: bool, dataOf: map<BufId, Block>) {
    b in dataOf && k'.status == k.status && k'.bytes == WithBytes(k.bytes, h, write, dataOf[b])
  }

  function Acknowledged(r: Req): Req {
    if r.phase.Done? then r.(phase := Acked) else r
  }

  lemma NoneDone(ring: seq<nat>, idx: nat, hist: seq<nat>, seen: nat, reqs: map<nat, Req>)
    requires RingLists(ring, idx, hist, seen, reqs, Done) && seen == |hist|
    ensures forall h :: h in reqs ==> !reqs[h].phase.Done?
  {
    assert hist[seen..] == [];
  }

  lemma ChainAt(free: seq<bool>, desc: seq<Desc>, reqs: map<nat, Req>, owner: map<nat, nat>, h: nat)
    requires Partition(free, desc, reqs, owner) && h in reqs
    ensures |free| == NUM && |desc| == NUM && ChainOk(free, desc, h, reqs[h])
  {
  }

  function WithPhase(reqs: map<nat, Req>, h: nat, phase: Phase): map<nat, Req>
    requires h in reqs
  {
    reqs[h := reqs[h].(phase := phase)]
  }

  class Disk {
    var m: Shared
    var v: Driver
    var f: Buffers
    var e: Device
    ghost var k: Book

    ghost predicate Valid()
      reads this
    {
      Inv(m, v, f, e, k)
    }

    constructor (blockOf: map<BufId, nat>, dataOf: map<BufId, Block>, blocks: map<nat, Block>)
      ensures Valid() && k.reqs == map[] && f == Buffers({}, blockOf, dataOf) && e == Device(0, {}, blocks)
    {
      m := Shared(seq(NUM, _ => ZERO), seq(NUM, _ => Op(false, 0)), seq(NUM, _ => 0), 0, seq(NUM, _ => 0), 0);
      v := Driver(seq(NUM, _ => true), seq(NUM, _ => Info(None, 0)), 0);
      f := Buffers({}, blockOf, dataOf);
      e := Device(0, {}, blocks);
      k := Book(map[], map[], map[], [], [], 0, map[], map[]);
    }

    /* The first half of virtio_disk_rw: the request is offered to the device, or, when fewer than
       three descriptors are free, nothing happens and the caller sleeps. */
    method Submit(b: BufId, write: bool) returns (r: Option<nat>)
      requires Valid() && b !in k.user && b in f.blockOf && b in f.dataOf && f.blockOf[b] in e.blocks
      modifies this`m, this`v, this`f, this`k
      ensures Valid()
      ensures r.None? ==> m == old(m) && v == old(v) && f == old(f) && k == old(k)
      ensures r.None? ==> |v.free| == NUM && forall a: nat, b: nat, c: nat :: !ThreeFree(v.free, a, b, c)
      ensures r.Some? ==> IsOffer(old(k), k, r.value, b, write, f.blockOf) && f == old(f).(atDisk := old(f).atDisk + {b})
      ensures r.Some? ==> TakesBytes(old(k), k, r.value, b, write, f.dataOf)
      ensures r.Some? ==> r.value < |m.ops| && m.ops[r.value].write == write && m.ops[r.value].sector * SECTOR == f.blockOf[b] * BSIZE
    {
      hide Partition, RingLists, UsersOk, RequestsOk, HoldingOk, ResultsOk, Own, Linked, Marked, WithBytes;
      BlankWhenFree(v.free, m.desc, k.reqs, k.owner);
      var ok, idx, free, desc := Alloc3(v.free, m.desc);
      if !ok {
        return None;
      }
      var i0, i1, i2 := idx[0], idx[1], idx[2];
      ghost var req := Req(i1, i2, b, write, f.blockOf[b], Offered);
      AddChain(v.free, m.desc, k.reqs, k.owner, i0, req);
      PutRequest(m.availRing, m.availIdx, k.offered, e.taken, k.reqs, i0, req);
      RingKept(m.usedRing, m.usedIdx, k.finished, k.acked, k.reqs, Done, i0, req);
      UsersAdd(k.reqs, k.user, f.atDisk, i0, req);
      NotHeld(e.holding, k.reqs, i0);
      HoldingPut(e.holding, k.reqs, i0, req);

      var ops := m.ops[i0 := Op(write, f.blockOf[b] * (BSIZE / SECTOR))];
      desc := Format(desc, b, write, i0, i1, i2);
      var info := v.info[i0 := Info(Some(b), 0xff)];
      RequestsAdd(Tables(m.ops, v.info, f.blockOf, f.dataOf, e.blocks), Tables(ops, info, f.blockOf, f.dataOf, e.blocks), k.user, k.reqs, i0, req);
      ResultsAdd(v.info, f.dataOf, k.reqs, k.status, k.bytes, i0, req, Info(Some(b), 0xff));
      f := f.(atDisk := f.atDisk + {b});
      v := v.(free := free, info := info);
      m := m.(desc := desc, ops := ops, availRing := m.availRing[m.availIdx % NUM := i0], availIdx := (m.availIdx + 1) % WRAP);
      k := k.(reqs := k.reqs[i0 := req], owner := Own(k.owner, i0, req), user := k.user[b := i0], offered := k.offered + [i0],
             bytes := WithBytes(k.bytes, i0, write, f.dataOf[b]));
      return Some(i0);
    }

    /* The second half of virtio_disk_rw, once b->disk is 0: the chain is freed, without a panic, and the
       buffer holds the bytes of the request, whatever happened meanwhile: for a read those its block held
       when the device completed it, for a write those the buffer held when it was submitted. */
    method Finish(head: nat) returns (ok: bool)
      requires Valid() && head in k.reqs && k.reqs[head].b !in f.atDisk
      modifies this`m, this`v, this`k
      ensures Valid() && ok
      ensures k.reqs == Without(old(k).reqs, head) && k.user == Without(old(k).user, old(k).reqs[head].b)
      ensures k.status == old(k).status && k.bytes == old(k).bytes && f == old(f) && e == old(e)
      ensures var b := old(k).reqs[head].b;
        && head in old(k).status && old(k).status[head] == 0
        && b in f.dataOf && head in old(k).bytes && f.dataOf[b] == old(k).bytes[head]
    {
      hide Partition, RingLists, UsersOk, RequestsOk, HoldingOk, ResultsOk, ChainOk, Marked, Blanked, Without, Disown;
      ghost var req := k.reqs[head];
      ghost var t := Tables(m.ops, v.info, f.blockOf, f.dataOf, e.blocks);
      RequestAt(t, k.user, k.reqs, head);
      UsersRemove(k.reqs, k.user, f.atDisk, head);
      RemoveChain(v.free, m.desc, k.reqs, k.owner, head);
      NotHeld(e.holding, k.reqs, head);
      ResultAt(v.info, f.dataOf, k.reqs, k.status, k.bytes, head);
      ResultsRemove(v.info, f.dataOf, k.reqs, k.status, k.bytes, head);
      RingKept(m.availRing, m.availIdx, k.offered, e.taken, k.reqs, Offered, head, req);
      RingKept(m.usedRing, m.usedIdx, k.finished, k.acked, k.reqs, Done, head, req);
      var info := v.info[head := v.info[head].(b := None)];
      RequestsRemove(t, t.(info := info), k.user, k.reqs, head);
      var free, desc;
      ok, free, desc := FreeChain(v.free, m.desc, head, req);
      v := v.(info := info, free := free);
      m := m.(desc := desc);
      k := k.(owner := Disown(k.owner, head, req), reqs := Without(k.reqs, head), user := Without(k.user, req.b));
    }

    // ---------- the device ----------

    // The device fetches the next offered request, if there is one.
    method DeviceTake() returns (head: Option<nat>)
      requires Valid()
      modifies this`e, this`k
      ensures Valid()
      ensures head.None? <==> old(e).taken == |k.offered|
      ensures head.None? ==> e == old(e) && k == old(k)
      ensures head.Some? ==>
                e == old(e).(taken := old(e).taken + 1, holding := old(e).holding + {head.value}) && old(e).taken < |old(k).offered| && head.value == old(k).offered[old(e).taken]
      ensures head.Some? ==> head.value in old(k).reqs && old(k).reqs[head.value].phase.Offered?
      ensures head.Some? ==> k == old(k).(reqs := WithPhase(old(k).reqs, head.value, Taken))
    {
      hide Partition, RingLists, UsersOk, RequestsOk, HoldingOk, ResultsOk;
      GetRequest(m.availRing, m.availIdx, k.offered, e.taken, k.reqs, Offered, Taken);
      if m.availIdx == e.taken % WRAP {
        return None;
      }
      var h := m.availRing[e.taken % WRAP % NUM];
      ghost var t := Tables(m.ops, v.info, f.blockOf, f.dataOf, e.blocks);
      RequestAt(t, k.user, k.reqs, h);
      RequestsAdvance(t, t, k.user, k.reqs, h, Taken);
      RingKept(m.usedRing, m.usedIdx, k.finished, k.acked, k.reqs, Done, h, k.reqs[h].(phase := Taken));
      AdvanceChain(v.free, m.desc, k.reqs, k.owner, h, Taken);
      UsersAdvance(k.reqs, k.user, f.atDisk, h, Taken);
      HoldingPut(e.holding, k.reqs, h, k.reqs[h].(phase := Taken));
      ResultsAdvance(v.info, f.dataOf, k.reqs, k.status, k.bytes, h, Taken);
      e := e.(taken := e.taken + 1, holding := e.holding + {h});
      k := k.(reqs := WithPhase(k.reqs, h, Taken));
      return Some(h);
    }

    /* The device completes any request it has taken, with a status.  Following the descriptors it moves
       the block the request was made for, between the disk and the buffer the request was made for; a
       transfer that fails, with a status other than 0, may leave anything where it writes. */
    method DeviceComplete(h: nat, st: nat, left: Block) returns (ghost moved: Block)
      requires Valid() && h in e.holding
      modifies this
      ensures Valid() && h in old(k).reqs && old(k).reqs[h].phase.Taken?
      ensures var r := old(k).reqs[h];
        && r.b in old(f).dataOf && r.blockno in old(e).blocks && f.atDisk == old(f).atDisk && f.blockOf == old(f).blockOf
        && e.taken == old(e).taken && e.holding == old(e).holding - {h}
        && moved == (if st != 0 then left else if r.write then old(f).dataOf[r.b] else old(e).blocks[r.blockno])
        && k == Completed(old(k), h, st, moved)
        && e.blocks == (if r.write then old(e).blocks[r.blockno := moved] else old(e).blocks)
        && f.dataOf == (if r.write then old(f).dataOf else old(f).dataOf[r.b := moved])
    {
      hide Partition, RingLists, UsersOk, RequestsOk, HoldingOk, ResultsOk;
      IsTaken(e.holding, k.reqs, h);
      ghost var t, req := Tables(m.ops, v.info, f.blockOf, f.dataOf, e.blocks), k.reqs[h];
      RequestAt(t, k.user, k.reqs, h);
      SoleUser(t, k.user, k.reqs, h);
      ChainAt(v.free, m.desc, k.reqs, k.owner, h);
      RingKept(m.availRing, m.availIdx, k.offered, e.taken, k.reqs, Offered, h, req.(phase := Done));
      PutRequest(m.usedRing, m.usedIdx, k.finished, k.acked, k.reqs, h, req.(phase := Done));
      AdvanceChain(v.free, m.desc, k.reqs, k.owner, h, Done);
      UsersAdvance(k.reqs, k.user, f.atDisk, h, Done);
      HoldingPut(e.holding, k.reqs, h, req.(phase := Done));

      var head := m.desc[h];
      var data := if head.hasNext then m.desc[head.next] else ZERO;
      var status := if data.hasNext then m.desc[data.next] else ZERO;
      var op, b := m.ops[head.addr.i], data.addr.b;
      var st := if Proper(op, head, data, status) then st else IOERR;
      var blk := op.sector * SECTOR / BSIZE;
      var bytes := if st != 0 then left else if op.write then f.dataOf[b] else e.blocks[blk];
      if op.write {
        e := e.(blocks := e.blocks[blk := bytes]);
      } else {
        f := f.(dataOf := f.dataOf[b := bytes]);
      }
      moved := bytes;
      v := v.(info := v.info[status.addr.i := v.info[status.addr.i].(status := st)]);
      RequestsAdvance(t, Tables(m.ops, v.info, f.blockOf, f.dataOf, e.blocks), k.user, k.reqs, h, Done);
      ResultsComplete(t.info, v.info, t.dataOf, f.dataOf, k.reqs, k.status, k.bytes, h, st, moved);
      e := e.(holding := e.holding - {h});
      m := m.(usedRing := m.usedRing[m.usedIdx % NUM := h], usedIdx := (m.usedIdx + 1) % WRAP);
      k := Completed(k, h, st, moved);
    }

    // One round of virtio_disk_intr's loop: false is its panic, on a status other than 0.
    method AckOne() returns (ok: bool)
      requires Valid() && v.lookedAt != m.usedIdx
      modifies this`v, this`f, this`k
      ensures Valid() && old(k).acked < |k.finished|
      ensures var id := old(k).finished[old(k).acked];
        && id in old(k).reqs && old(k).reqs[id].phase.Done? && id in old(k).status
        && (ok <==> old(k).status[id] == 0)
        && (ok ==> k == old(k).(reqs := WithPhase(old(k).reqs, id, Acked), acked := old(k).acked + 1))
        && (ok ==> f == old(f).(atDisk := old(f).atDisk - {old(k).reqs[id].b}))
        && (!ok ==> k == old(k) && f == old(f) && v == old(v))
    {
      hide Partition, RingLists, UsersOk, RequestsOk, HoldingOk, ResultsOk;
      GetRequest(m.usedRing, m.usedIdx, k.finished, k.acked, k.reqs, Done, Acked);
      var id := m.usedRing[v.lookedAt % NUM];
      ghost var t := Tables(m.ops, v.info, f.blockOf, f.dataOf, e.blocks);
      RequestAt(t, k.user, k.reqs, id);
      ResultAt(v.info, f.dataOf, k.reqs, k.status, k.bytes, id);
      if v.info[id].status != 0 {
        return false;
      }
      var b := v.info[id].b.value;
      RequestsAdvance(t, t, k.user, k.reqs, id, Acked);
      RingKept(m.availRing, m.availIdx, k.offered, e.taken, k.reqs, Offered, id, k.reqs[id].(phase := Acked));
      AdvanceChain(v.free, m.desc, k.reqs, k.owner, id, Acked);
      UsersAdvance(k.reqs, k.user, f.atDisk, id, Acked);
      NotHeld(e.holding, k.reqs, id);
      HoldingPut(e.holding, k.reqs, id, k.reqs[id].(phase := Acked));
      ResultsAdvance(v.info, f.dataOf, k.reqs, k.status, k.bytes, id, Acked);
      f := f.(atDisk := f.atDisk - {b});
      v := v.(lookedAt := (v.lookedAt + 1) % WRAP);
      k := k.(reqs := WithPhase(k.reqs, id, Acked), acked := k.acked + 1);
      return true;
    }

    // The device at work while the driver is.
    method DeviceTurns(turns: seq<Turn>, ghost k0: Book)
      requires Valid() && Progress(k0, k)
      modifies this
      ensures Valid() && Progress(k0, k) && k.acked == old(k).acked && Unacked(k.reqs) == Unacked(old(k).reqs)
      ensures f.atDisk == old(f).atDisk && f.blockOf == old(f).blockOf
      ensures turns == [] ==> k == old(k) && f == old(f) && e == old(e)
    {
      hide Inv, Progress;
      for i := 0 to |turns|
        invariant Valid() && Progress(k0, k) && k.acked == old(k).acked && Unacked(k.reqs) == Unacked(old(k).reqs)
        invariant f.atDisk == old(f).atDisk && f.blockOf == old(f).blockOf
        invariant i == 0 ==> k == old(k) && f == old(f) && e == old(e)
      {
        ghost var was := k;
        match turns[i] {
          case Take =>
            var h := DeviceTake();
            if h.Some? {
              ProgressTake(k0, was, h.value);
              UnackedKept(was.reqs, h.value, Taken);
            }
          case Complete(h, st, left) =>
            if h in e.holding {
              ghost var moved := DeviceComplete(h, st, left);
              ProgressComplete(k0, was, h, st, moved);
              UnackedKept(was.reqs, h, Done);
            }
        }
      }
    }

    /* virtio_disk_intr, with the device at work before each look at the used ring: however it races,
       the loop ends.  It panics exactly if a completion that it gets to has a status other than 0;
       otherwise it has acknowledged every completion on the used ring and nothing else, each by
       clearing the disk field of the very buffer that was submitted under its head. */
    method Intr(turns: seq<seq<Turn>>) returns (ok: bool)
      requires Valid()
      modifies this
      ensures Valid() && Progress(old(k), k) && f.blockOf == old(f).blockOf
      ensures forall h :: h in k.finished[old(k).acked..k.acked] ==> h in k.status && k.status[h] == 0
      ensures ok ==> k.acked == |k.finished| && forall h :: h in k.reqs ==> !k.reqs[h].phase.Done?
      ensures !ok ==> k.acked < |k.finished| && k.finished[k.acked] in k.status && k.status[k.finished[k.acked]] != 0
      ensures turns == [] && ok ==> k == old(k).(reqs := k.reqs, acked := |k.finished|) && f == old(f).(atDisk := f.atDisk) && e == old(e)
      ensures turns == [] && ok ==> forall h :: h in k.reqs ==> h in old(k).reqs && k.reqs[h] == Acknowledged(old(k).reqs[h])
    {
      hide Partition, RingLists, UsersOk, RequestsOk, HoldingOk, ResultsOk, Progress, OnlyAcked, WithPhase, Acknowledged;
      OnlyAckedStart(k);
      GetRequest(m.usedRing, m.usedIdx, k.finished, k.acked, k.reqs, Done, Acked);
      ProgressStart(k);
      var round := 0;
      while true
        invariant Valid() && Progress(old(k), k) && f.blockOf == old(f).blockOf
        invariant turns == [] ==> OnlyAcked(old(k), k) && f == old(f).(atDisk := f.atDisk) && e == old(e)
        decreases |Unacked(k.reqs)|
      {
        DeviceTurns(if round < |turns| then turns[round] else [], old(k));
        if v.lookedAt == m.usedIdx {
          break;
        }
        ghost var was := k;
        ok := AckOne();
        if !ok {
          ReadIsZero(v.info, f.dataOf, old(k), k);
          return;
        }
        ProgressAck(old(k), was, was.finished[was.acked]);
        OneAcked(was.reqs, was.finished[was.acked]);
        if turns == [] { OnlyAckedMore(old(k), was, was.finished[was.acked]); }
        round := round + 1;
      }
      ok := true;
      ReadIsZero(v.info, f.dataOf, old(k), k);
      GetRequest(m.usedRing, m.usedIdx, k.finished, k.acked, k.reqs, Done, Acked);
      NoneDone(m.usedRing, m.usedIdx, k.finished, k.acked, k.reqs);
      if turns == [] { OnlyAckedEnd(old(k), k); }
    }
  }
}
