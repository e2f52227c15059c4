/** Pipes (kernel/pipe.c).

    The pipe's lock is held throughout a call except while the caller sleeps, so other processes
    get their turns exactly at those points.  What happens during a sleep is a parameter: the list
    of turns, by any processes, until the caller is scheduled again.  copyin and copyout fault at a
    position that is a parameter too. */
module Pipe {
  const PIPESIZE: nat := 512
  const UINT: nat := 0x1_0000_0000    // nread and nwrite are uint and wrap around

  datatype Outcome = Blocked | Failed | Count(n: nat)

  // One process's use of the pipe between acquiring and releasing its lock.
  datatype Turn =
    | WriteTurn(src: seq<char>, fault: nat)   // pipewrite's loop until it must sleep or stops
    | ReadTurn(n: nat, fault: nat)            // piperead's copy loop
    | CloseTurn(writable: bool)               // pipeclose

  // What a sleeper finds when it runs again: the turns taken meanwhile, and whether it was killed.
  datatype Nap = Nap(turns: seq<Turn>, killed: bool)

  lemma SlotOf(x: nat)
    ensures (x % UINT) % PIPESIZE == x % PIPESIZE
  {
  }

  // The wrapped counters compare equal, or a full buffer apart, exactly when the true counts do.
  lemma CountersCompare(w: nat, c: nat)
    requires c <= w <= c + PIPESIZE
    ensures w % UINT == c % UINT <==> w == c
    ensures w % UINT == (c % UINT + PIPESIZE) % UINT <==> w == c + PIPESIZE
  {
  }

  lemma SlotsDiffer(i: nat, j: nat)
    requires i < j < i + PIPESIZE
    ensures i % PIPESIZE != j % PIPESIZE
  {
  }

  // The bytes from position `from` on are in the ring, each at its place.
  ghost predicate InRing(ring: seq<char>, written: seq<char>, from: nat)
    requires |ring| == PIPESIZE
  {
    forall i: nat :: from <= i < |written| ==> ring[i % PIPESIZE] == written[i]
  }

  lemma RingPut(ring: seq<char>, written: seq<char>, from: nat, ch: char)
    requires |ring| == PIPESIZE && InRing(ring, written, from) && from <= |written| < from + PIPESIZE
    ensures InRing(ring[|written| % PIPESIZE := ch], written + [ch], from)
  {
    forall i: nat | from <= i < |written|
      ensures i % PIPESIZE != |written| % PIPESIZE
    {
      SlotsDiffer(i, |written|);
    }
  }

  lemma RingTake(ring: seq<char>, written: seq<char>, from: nat)
    requires |ring| == PIPESIZE && InRing(ring, written, from) && from < |written|
    ensures ring[from % PIPESIZE] == written[from] && InRing(ring, written, from + 1)
  {
  }

  lemma NextCount(x: nat)
    ensures (x % UINT + 1) % UINT == (x + 1) % UINT
  {
  }

  // at lists, in increasing order, positions from `from` on where s occurs in all.
  ghost predicate OccursAt(s: seq<char>, all: seq<char>, from: nat, at: seq<nat>) {
    && |at| == |s|
    && (forall k :: 0 <= k < |s| ==> from <= at[k] < |all| && all[at[k]] == s[k])
    && (forall k, l :: 0 <= k < l < |s| ==> Before(at, k, l))
  }

  predicate Before(at: seq<nat>, k: int, l: int)
    requires 0 <= k < |at| && 0 <= l < |at|
  {
    at[k] < at[l]
  }

  lemma OccursLater(s: seq<char>, all: seq<char>, longer: seq<char>, from: nat, at: seq<nat>)
    requires OccursAt(s, all, from, at) && all <= longer
    ensures OccursAt(s, longer, from, at)
  {
  }

  lemma OccursMore(src: seq<char>, i: nat, all: seq<char>, from: nat, at: seq<nat>)
    requires i < |src| && OccursAt(src[..i], all, from, at) && from <= |all|
    ensures OccursAt(src[..i + 1], all + [src[i]], from, at + [|all|])
  {
    var s', all', at' := src[..i + 1], all + [src[i]], at + [|all|];
    forall k | 0 <= k <= i
      ensures from <= at'[k] < |all'| && all'[at'[k]] == s'[k]
    {
      if k < i { assert src[..i][k] == s'[k]; }
    }
    forall k, l | 0 <= k < l <= i
      ensures Before(at', k, l)
    {
      if l < i { assert Before(at, k, l); }
    }
  }

  // ---------- what calls do to a pipe, whole runs of bytes at a time ----------

  datatype View = View(written: seq<char>, consumed: seq<char>, readopen: bool, writeopen: bool)

  predicate Fifo(v: View) {
    v.consumed <= v.written && |v.written| <= |v.consumed| + PIPESIZE
  }

  function Min(a: nat, b: nat): nat {
    if a < b then a else b
  }

  function Room(v: View): nat
    requires Fifo(v)
  {
    |v.consumed| + PIPESIZE - |v.written|
  }

  // How many bytes a writer puts in before it sleeps or stops.
  function Poured(v: View, src: seq<char>, fault: nat): (k: nat)
    requires Fifo(v)
    ensures k <= |src| && k <= fault && k <= Room(v)
  {
    if v.readopen then Min(|src|, Min(fault, Room(v))) else 0
  }

  function Pour(v: View, src: seq<char>, fault: nat): (v': View)
    requires Fifo(v)
    ensures Fifo(v')
  {
    v.(written := v.written + src[..Poured(v, src, fault)])
  }

  // How many bytes a reader gets; if it stops at a fault, one more is lost.
  function Drawn(v: View, n: nat, fault: nat): (k: nat)
    requires Fifo(v)
    ensures k <= n && k <= fault && |v.consumed| + k <= |v.written|
  {
    Min(n, Min(fault, |v.written| - |v.consumed|))
  }

  function Draw(v: View, n: nat, fault: nat): (v': View)
    requires Fifo(v)
    ensures Fifo(v')
  {
    var k := Drawn(v, n, fault);
    var taken := if k == fault < n && |v.consumed| + k < |v.written| then k + 1 else k;
    v.(consumed := v.written[..|v.consumed| + taken])
  }

  function Turned(v: View, turn: Turn): (v': View)
    requires Fifo(v)
    ensures Fifo(v')
  {
    match turn
    case WriteTurn(src, fault) => Pour(v, src, fault)
    case ReadTurn(n, fault) => Draw(v, n, fault)
    case CloseTurn(writable) => if writable then v.(writeopen := false) else v.(readopen := false)
  }

  function AllTurned(v: View, turns: seq<Turn>): (v': View)
    requires Fifo(v)
    ensures Fifo(v')
    decreases turns
  {
    if turns == [] then v else AllTurned(Turned(v, turns[0]), turns[1..])
  }

  datatype Wrote = Wrote(v: View, r: Outcome)

  // A writer's call: bytes as long as there is room, then the turns of a nap, and so on.
  function Writes(v: View, src: seq<char>, fault: nat, naps: seq<Nap>, dead: bool): Wrote
    requires Fifo(v)
    decreases |naps|
  {
    if src == [] then Wrote(v, Count(0))
    else if !v.readopen || dead then Wrote(v, Failed)
    else
      var k := Poured(v, src, fault);
      if k == |src| || k < Room(v) then Wrote(Pour(v, src, fault), Count(k))
      else if naps == [] then Wrote(Pour(v, src, fault), Blocked)
      else
        var w := Writes(AllTurned(Pour(v, src, fault), naps[0].turns), src[k..], fault - k, naps[1..], dead || naps[0].killed);
        Wrote(w.v, More(w.r, k))
  }

  function More(r: Outcome, k: nat): Outcome {
    if r.Count? then Count(r.n + k) else r
  }

  // One byte of a writer's call.
  lemma WritesByte(v: View, src: seq<char>, fault: nat, naps: seq<Nap>)
    requires Fifo(v) && src != [] && fault > 0 && v.readopen && Room(v) > 0
    ensures var v' := v.(written := v.written + [src[0]]);
      Fifo(v') && Writes(v, src, fault, naps, false) == Wrote(Writes(v', src[1..], fault - 1, naps, false).v, More(Writes(v', src[1..], fault - 1, naps, false).r, 1))
  {
    var v' := v.(written := v.written + [src[0]]);
    var k := Poured(v, src, fault);
    assert k == 1 + Poured(v', src[1..], fault - 1);
    assert v.written + src[..k] == v'.written + src[1..][..k - 1];
    assert Pour(v, src, fault) == Pour(v', src[1..], fault - 1);
    if k < |src| && k == Room(v) && naps != [] {
      assert src[k..] == src[1..][k - 1..];
    }
  }

  // The rest of a call that has put in i bytes and slept nap times leads to w.
  ghost predicate ContinuesFrom(v: View, src: seq<char>, i: nat, fault: nat, naps: seq<Nap>, nap: nat, dead: bool, w: Wrote)
    requires Fifo(v) && i <= |src| && i <= fault && nap <= |naps|
  {
    var rest := Writes(v, src[i..], fault - i, naps[nap..], dead);
    w == Wrote(rest.v, More(rest.r, i))
  }

  lemma ContinuesStart(v: View, src: seq<char>, fault: nat, naps: seq<Nap>, dead: bool)
    requires Fifo(v)
    ensures ContinuesFrom(v, src, 0, fault, naps, 0, dead, Writes(v, src, fault, naps, dead))
  {
    assert src[0..] == src && naps[0..] == naps;
  }

  lemma ContinuesStuck(v: View, src: seq<char>, i: nat, fault: nat, naps: seq<Nap>, nap: nat, dead: bool, w: Wrote)
    requires Fifo(v) && i < |src| && i <= fault && nap <= |naps| && ContinuesFrom(v, src, i, fault, naps, nap, dead, w)
    ensures !v.readopen || dead ==> w == Wrote(v, Failed)
    ensures v.readopen && !dead && Room(v) == 0 && nap == |naps| ==> w == Wrote(v, Blocked)
  {
    assert v.written + src[i..][..0] == v.written;
  }

  lemma ContinuesNap(v: View, src: seq<char>, i: nat, fault: nat, naps: seq<Nap>, nap: nat, w: Wrote)
    requires Fifo(v) && i < |src| && i <= fault && nap < |naps| && ContinuesFrom(v, src, i, fault, naps, nap, false, w)
    requires v.readopen && Room(v) == 0
    ensures ContinuesFrom(AllTurned(v, naps[nap].turns), src, i, fault, naps, nap + 1, naps[nap].killed, w)
  {
    hide AllTurned;
    assert v.written + src[i..][..0] == v.written && src[i..][0..] == src[i..] && naps[nap..][1..] == naps[nap + 1..];
  }

  lemma ContinuesByte(v: View, src: seq<char>, i: nat, fault: nat, naps: seq<Nap>, nap: nat, w: Wrote)
    requires Fifo(v) && i < |src| && i < fault && nap <= |naps| && ContinuesFrom(v, src, i, fault, naps, nap, false, w)
    requires v.readopen && Room(v) > 0
    ensures ContinuesFrom(v.(written := v.written + [src[i]]), src, i + 1, fault, naps, nap, false, w)
  {
    hide Writes;
    WritesByte(v, src[i..], fault - i, naps[nap..]);
    assert src[i..][1..] == src[i + 1..];
  }

  lemma ContinuesEnd(v: View, src: seq<char>, i: nat, fault: nat, naps: seq<Nap>, nap: nat, dead: bool, w: Wrote)
    requires Fifo(v) && i <= |src| && i <= fault && nap <= |naps| && ContinuesFrom(v, src, i, fault, naps, nap, dead, w)
    requires i == |src| || (i == fault && v.readopen && !dead && Room(v) > 0)
    ensures w == Wrote(v, Count(i))
  {
    assert v.written + src[i..][..0] == v.written;
  }

  // A call that does not sleep.
  lemma WritesOnce(v: View, src: seq<char>, fault: nat)
    requires Fifo(v)
    ensures Writes(v, src, fault, [], false).v == Pour(v, src, fault)
  {
    assert v.written + src[..0] == v.written;
  }

  lemma NoBytesOccur(all: seq<char>)
    ensures OccursAt([], all, |all|, [])
  {
  }

  datatype Got = Got(v: View, r: Outcome, out: seq<char>)

  function Draws(v: View, n: nat, fault: nat): Got
    requires Fifo(v)
  {
    var c, k := |v.consumed|, Drawn(v, n, fault);
    Got(Draw(v, n, fault), Count(k), v.written[c..c + k])
  }

  // A reader's call: naps until there is something or no writer is left.
  function Reads(v: View, n: nat, fault: nat, naps: seq<Nap>, dead: bool): Got
    requires Fifo(v)
    decreases |naps|
  {
    if v.consumed == v.written && v.writeopen then
      if dead then Got(v, Failed, [])
      else if naps == [] then Got(v, Blocked, [])
      else Reads(AllTurned(v, naps[0].turns), n, fault, naps[1..], dead || naps[0].killed)
    else Draws(v, n, fault)
  }

  // The caller was killed before the call or during one of its first naps.
  predicate KilledBy(naps: seq<Nap>, slept: nat, killed: bool)
    requires slept <= |naps|
  {
    killed || exists j :: 0 <= j < slept && naps[j].killed
  }

  lemma NotKilledYet(naps: seq<Nap>, killed: bool)
    ensures KilledBy(naps, 0, killed) <==> killed
  {
  }

  lemma KilledMore(naps: seq<Nap>, slept: nat, killed: bool)
    requires slept < |naps|
    ensures KilledBy(naps, slept + 1, killed) <==> KilledBy(naps, slept, killed) || naps[slept].killed
  {
  }

  lemma ReadsStuck(v: View, n: nat, fault: nat, naps: seq<Nap>, dead: bool)
    requires Fifo(v) && v.consumed == v.written && v.writeopen
    ensures dead ==> Reads(v, n, fault, naps, dead) == Got(v, Failed, [])
    ensures !dead && naps == [] ==> Reads(v, n, fault, naps, dead) == Got(v, Blocked, [])
  {
  }

  lemma ReadsNap(v: View, n: nat, fault: nat, naps: seq<Nap>)
    requires Fifo(v) && v.consumed == v.written && v.writeopen && naps != []
    ensures Reads(v, n, fault, naps, false) == Reads(AllTurned(v, naps[0].turns), n, fault, naps[1..], naps[0].killed)
  {
  }

  lemma ReadsNow(v: View, n: nat, fault: nat, naps: seq<Nap>, dead: bool)
    requires Fifo(v) && !(v.consumed == v.written && v.writeopen)
    ensures Reads(v, n, fault, naps, dead) == Draws(v, n, fault)
  {
  }

  // What a copy has taken out: the bytes it delivered and, at a fault, the one it lost.
  ghost predicate CopiedOut(c0: seq<char>, c: seq<char>, written: seq<char>, out: seq<char>, n: nat, fault: nat) {
    if |out| == fault < n && |c0| + fault < |written|
    then c == c0 + out + [written[|c0| + fault]]
    else c == c0 + out && (|out| == n || c == written)
  }

  class Pipe {
    const data: array<char>
    var nread: nat
    var nwrite: nat
    var readopen: bool
    var writeopen: bool
    ghost var written: seq<char>     // every byte ever put in
    ghost var consumed: seq<char>    // every byte ever taken out

    /* First in, first out: what was taken out is a prefix of what was put in, and the rest,
       never more than PIPESIZE bytes, is in the buffer. */
    ghost predicate Valid()
      reads this, data
    {
      && data.Length == PIPESIZE
      && nread == |consumed| % UINT && nwrite == |written| % UINT
      && consumed <= written && |written| <= |consumed| + PIPESIZE
      && InRing(data[..], written, |consumed|)
    }

    constructor ()
      ensures Valid() && written == [] && consumed == [] && readopen && writeopen && fresh(data)
    {
      data := new char[PIPESIZE];
      nread, nwrite, readopen, writeopen := 0, 0, true, true;
      written, consumed := [], [];
    }

    ghost function Now(): View
      reads this
    {
      View(written, consumed, readopen, writeopen)
    }

    // data[nwrite++ % PIPESIZE] = ch
    method Put(ch: char)
      requires Valid() && |written| < |consumed| + PIPESIZE
      modifies this`nwrite, this`written, data
      ensures Valid() && written == old(written) + [ch]
    {
      hide InRing;
      SlotOf(|written|);
      NextCount(|written|);
      RingPut(data[..], written, |consumed|, ch);
      data[nwrite % PIPESIZE] := ch;
      assert data[..] == old(data[..])[|written| % PIPESIZE := ch];
      nwrite := (nwrite + 1) % UINT;
      written := written + [ch];
    }

    // ch = data[nread++ % PIPESIZE]
    method Take() returns (ch: char)
      requires Valid() && |consumed| < |written|
      modifies this`nread, this`consumed
      ensures Valid() && ch == written[|old(consumed)|] && consumed == old(consumed) + [ch]
    {
      hide InRing;
      SlotOf(|consumed|);
      NextCount(|consumed|);
      RingTake(data[..], written, |consumed|);
      ch := data[nread % PIPESIZE];
      nread := (nread + 1) % UINT;
      consumed := consumed + [ch];
    }

    method IsFull() returns (full: bool)
      requires Valid()
      ensures full <==> |written| == |consumed| + PIPESIZE
    {
      CountersCompare(|written|, |consumed|);
      full := nwrite == (nread + PIPESIZE) % UINT;
    }

    method IsEmpty() returns (empty: bool)
      requires Valid()
      ensures empty <==> |written| == |consumed|
    {
      CountersCompare(|written|, |consumed|);
      empty := nread == nwrite;
    }

    /* pipewrite: when it returns the count i, the first i bytes of src have been put in, in
       order, wherever other writers' bytes may lie between them. */
    method PipeWrite(src: seq<char>, fault: nat, naps: seq<Nap>, killed: bool) returns (r: Outcome, ghost at: seq<nat>, ghost slept: nat)
      requires Valid()
      modifies this, data
      decreases |naps|, 0
      ensures Valid() && old(written) <= written && old(consumed) <= consumed
      ensures Wrote(Now(), r) == Writes(old(Now()), src, fault, naps, killed)
      ensures |at| <= |src| && OccursAt(src[..|at|], written, |old(written)|, at)
      ensures r.Count? ==> r.n == |at| && (r.n == |src| || r.n == fault)
      ensures naps == [] && r.Count? ==> written == old(written) + src[..r.n] && consumed == old(consumed)
      ensures naps == [] && r.Failed? ==> written == old(written) && (old(!readopen) || killed)
      // It fails exactly if, with bytes still to write, it finds the reader gone or itself killed.
      ensures slept <= |naps|
      ensures r.Failed? ==> |at| < |src| && (!readopen || KilledBy(naps, slept, killed))
      ensures !r.Failed? && src != [] ==> old(readopen) && !KilledBy(naps, slept, killed)
      // An end once closed stays closed; nothing enters a pipe that nobody can read.
      ensures (readopen ==> old(readopen)) && (writeopen ==> old(writeopen)) && (old(!readopen) ==> written == old(written))
      // Only a full pipe with a reader, and bytes still to write, makes the writer wait.
      ensures r.Blocked? ==> slept == |naps| && |at| < |src| && |written| == |consumed| + PIPESIZE && readopen
      ensures naps == [] && r.Blocked? ==> written == old(written) + src[..|at|] && consumed == old(consumed) && !killed
    {
      hide Writes, ContinuesFrom, AllTurned, OccursAt, InRing, KilledBy;
      var i, nap, dead := 0, 0, killed;
      at := [];
      NoBytesOccur(written);
      NotKilledYet(naps, killed);
      ghost var w := Writes(Now(), src, fault, naps, killed);
      ContinuesStart(Now(), src, fault, naps, killed);
      while i < |src|
        invariant Valid() && 0 <= i <= |src| && i <= fault && 0 <= nap <= |naps|
        invariant old(written) <= written && old(consumed) <= consumed
        invariant ContinuesFrom(Now(), src, i, fault, naps, nap, dead, w)
        invariant |at| == i && OccursAt(src[..i], written, |old(written)|, at)
        invariant (readopen ==> old(readopen)) && (writeopen ==> old(writeopen)) && (old(!readopen) ==> written == old(written))
        invariant nap == 0 ==> written == old(written) + src[..i] && consumed == old(consumed)
        invariant nap == 0 ==> dead == killed && readopen == old(readopen)
        invariant i > 0 || nap > 0 ==> old(readopen) && !killed
        invariant dead <==> KilledBy(naps, nap, killed)
        invariant i == |src| && src != [] ==> !dead
        decreases |naps| - nap, |src| - i
      {
        ContinuesStuck(Now(), src, i, fault, naps, nap, dead, w);
        if !readopen || dead {
          return Failed, at, nap;
        }
        var full := IsFull();
        if full {
          if nap == |naps| {
            return Blocked, at, nap;
          }
          ghost var before := written;
          ContinuesNap(Now(), src, i, fault, naps, nap, w);
          KilledMore(naps, nap, killed);
          RunTurns(naps[nap].turns);
          OccursLater(src[..i], before, written, |old(written)|, at);
          dead := dead || naps[nap].killed;
          nap := nap + 1;
        } else {
          if i == fault {
            break;
          }
          ContinuesByte(Now(), src, i, fault, naps, nap, w);
          OccursMore(src, i, written, |old(written)|, at);
          at := at + [|written|];
          Put(src[i]);
          i := i + 1;
        }
      }
      ContinuesEnd(Now(), src, i, fault, naps, nap, dead, w);
      return Count(i), at, nap;
    }

    /* piperead's copy loop: the bytes handed over are the oldest unread ones; a byte whose
       copyout faults is taken out and lost. */
    method CopyOut(n: nat, fault: nat) returns (out: seq<char>)
      requires Valid()
      modifies this`nread, this`consumed
      ensures Valid()
      ensures |out| <= n && |out| <= fault && |old(consumed)| + |out| <= |written|
      ensures out == written[|old(consumed)|..|old(consumed)| + |out|]
      ensures CopiedOut(old(consumed), consumed, written, out, n, fault)
      ensures old(consumed) <= consumed && |old(consumed)| + |out| <= |consumed| <= |old(consumed)| + |out| + 1
      ensures |out| == n || |out| == fault || consumed == written
      ensures |out| < fault ==> |consumed| == |old(consumed)| + |out|
      ensures |out| == Drawn(old(Now()), n, fault) && Now() == Draw(old(Now()), n, fault)
    {
      hide InRing;
      out := [];
      ghost var c := |consumed|;
      for i := 0 to n
        invariant Valid() && |out| == i && i <= fault && c + i <= |written|
        invariant out == written[c..c + i] && consumed == old(consumed) + out
      {
        var empty := IsEmpty();
        if empty {
          break;
        }
        var ch := Take();
        if i == fault {
          return;
        }
        out := out + [ch];
      }
    }

    // piperead's wait for bytes: Count means that it can go on.
    method Await(naps: seq<Nap>, killed: bool, ghost n: nat, ghost fault: nat) returns (r: Outcome, ghost slept: nat)
      requires Valid()
      modifies this, data
      ensures Valid() && old(written) <= written && old(consumed) <= consumed
      ensures !r.Count? ==> Got(Now(), r, []) == Reads(old(Now()), n, fault, naps, killed)
      ensures r.Count? ==> Reads(old(Now()), n, fault, naps, killed) == Draws(Now(), n, fault)
      ensures r.Count? <==> !(consumed == written && writeopen)
      ensures slept <= |naps| && (r.Failed? ==> KilledBy(naps, slept, killed))
      ensures r.Blocked? ==> slept == |naps| && !KilledBy(naps, slept, killed)
      ensures naps == [] || old(!writeopen) ==> written == old(written) && consumed == old(consumed) && slept == 0
      ensures old(!writeopen) ==> !writeopen
    {
      hide InRing, Reads, AllTurned, Draws, KilledBy;
      var nap, dead := 0, killed;
      NotKilledYet(naps, killed);
      assert naps[0..] == naps;
      var empty := IsEmpty();
      while empty && writeopen
        invariant Valid() && 0 <= nap <= |naps|
        invariant old(written) <= written && old(consumed) <= consumed
        invariant empty <==> |written| == |consumed|
        invariant Reads(old(Now()), n, fault, naps, killed) == Reads(Now(), n, fault, naps[nap..], dead)
        invariant dead <==> KilledBy(naps, nap, killed)
        invariant old(!writeopen) ==> nap == 0 && !writeopen
        invariant nap == 0 ==> written == old(written) && consumed == old(consumed)
        decreases |naps| - nap
      {
        ReadsStuck(Now(), n, fault, naps[nap..], dead);
        if dead {
          return Failed, nap;
        }
        if nap == |naps| {
          return Blocked, nap;
        }
        assert naps[nap..][1..] == naps[nap + 1..];
        ReadsNap(Now(), n, fault, naps[nap..]);
        KilledMore(naps, nap, killed);
        RunTurns(naps[nap].turns);
        dead := dead || naps[nap].killed;
        nap := nap + 1;
        empty := IsEmpty();
      }
      ReadsNow(Now(), n, fault, naps[nap..], dead);
      return Count(0), nap;
    }

    /* piperead: it returns the oldest unread bytes, at most n of them, and an empty result for
       n > 0 only if the pipe is empty and closed for writing or copyout faults at once. */
    method PipeRead(n: nat, fault: nat, naps: seq<Nap>, killed: bool) returns (r: Outcome, out: seq<char>, ghost c: nat, ghost slept: nat)
      requires Valid()
      modifies this, data
      ensures Valid() && old(written) <= written && old(consumed) <= consumed
      ensures Got(Now(), r, out) == Reads(old(Now()), n, fault, naps, killed)
      ensures r.Count? ==> r.n == |out| <= n && (|out| == n || |out| == fault || consumed == written)
      ensures r.Count? ==> |old(consumed)| <= c && c + |out| <= |consumed| <= c + |out| + 1
      ensures r.Count? ==> c + |out| <= |written| && out == written[c..c + |out|]
      ensures r == Count(0) && n > 0 && fault > 0 ==> consumed == written && !writeopen
      ensures !r.Count? ==> out == []
      // Only an empty pipe with a writer makes the reader wait or give up.
      ensures !r.Count? ==> consumed == written && writeopen
      // It fails only if it was killed, and a killed reader does not sleep.
      ensures slept <= |naps| && (r.Failed? ==> KilledBy(naps, slept, killed))
      ensures r.Blocked? ==> slept == |naps| && !KilledBy(naps, slept, killed)
      ensures naps == [] && r.Failed? ==> killed
      ensures naps == [] && r.Blocked? ==> !killed
      ensures naps == [] && r.Count? ==> c == |old(consumed)| && written == old(written)
      // Once the write end is closed a reader never waits, and gets what is left and then 0.
      ensures old(!writeopen) ==> r.Count? && written == old(written) && c == |old(consumed)|
    {
      hide InRing, Reads, Draw, Drawn, KilledBy, CopiedOut;
      out, c := [], 0;
      NotKilledYet(naps, killed);
      r, slept := Await(naps, killed, n, fault);
      if r.Count? {
        c := |consumed|;
        out := CopyOut(n, fault);
        r := Count(|out|);
      }
    }

    method PipeClose(writable: bool) returns (freed: bool)
      requires Valid()
      modifies this`readopen, this`writeopen
      ensures Valid()
      ensures readopen == (old(readopen) && writable) && writeopen == (old(writeopen) && !writable)
      ensures freed <==> !readopen && !writeopen
    {
      if writable {
        writeopen := false;
      } else {
        readopen := false;
      }
      freed := !readopen && !writeopen;
    }

    /* Any turns, by any processes, in any order: the pipe stays first in, first out. */
    method RunTurns(turns: seq<Turn>)
      requires Valid()
      modifies this, data
      ensures Valid() && old(written) <= written && old(consumed) <= consumed
      ensures (readopen ==> old(readopen)) && (writeopen ==> old(writeopen)) && (old(!readopen) ==> written == old(written))
      ensures Now() == AllTurned(old(Now()), turns)
      decreases 0, 1 + |turns|
    {
      hide InRing;
      if turns != [] {
        match turns[0] {
          case WriteTurn(src, fault) =>
            WritesOnce(Now(), src, fault);
            var _, _, _ := PipeWrite(src, fault, [], false);
          case ReadTurn(n, fault) => var _ := CopyOut(n, fault);
          case CloseTurn(writable) => var _ := PipeClose(writable);
        }
        RunTurns(turns[1..]);
      }
    }
  }
}
