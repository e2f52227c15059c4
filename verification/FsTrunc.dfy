/** The order in which itrunc gives back an inode's blocks (kernel/fs.c:409-437). */
module FsTrunc {
  import opened FsFormat
  import opened FsFiles
  import opened FsState

  // Direct blocks first, then the entries of the indirect block, then the indirect block itself.
  function Rank(i: nat): (r: nat)
    requires i < SLOTS
    ensures r < SLOTS
  {
    if i < NDIRECT then i else if i == NDIRECT then SLOTS - 1 else i - 1
  }

  ghost predicate Gone(s: Slot, ino: nat, r: nat) {
    s.ino == ino && s.i < SLOTS && Rank(s.i) < r
  }

  // The owners left once the first r slots of inode ino have been freed.
  ghost function Dropped(owner: map<nat, Slot>, ino: nat, r: nat): map<nat, Slot> {
    map b | b in owner && !Gone(owner[b], ino, r) :: owner[b]
  }

  lemma DroppedNone(owner: map<nat, Slot>, ino: nat)
    ensures Dropped(owner, ino, 0) == owner
  {
  }

  lemma DroppedStep(f: Files, g: Region, owner0: map<nat, Slot>, owner: map<nat, Slot>, ino: nat, i: nat)
    requires Owned(f, g, owner) && ino < |f.inodes| && InodeShaped(f, ino) && i < SLOTS
    requires owner == Dropped(owner0, ino, Rank(i))
    ensures Dropped(owner0, ino, Rank(i) + 1) == if Ptr(f, ino, i) == 0 then owner else Without(owner, Ptr(f, ino, i))
  {
    var b := Ptr(f, ino, i);
    assert PtrOwned(f, owner, ino, i);
    forall c | c in owner0
      ensures Gone(owner0[c], ino, Rank(i) + 1) <==> Gone(owner0[c], ino, Rank(i)) || (b != 0 && c == b)
    {
      if c in owner { assert OwnerHolds(f, g, owner, c); }
    }
    assert Dropped(owner0, ino, Rank(i) + 1) == if b == 0 then owner else Without(owner, b);
  }

  // An inode without an indirect block owns no entries.
  lemma DroppedRest(f: Files, g: Region, owner0: map<nat, Slot>, owner: map<nat, Slot>, ino: nat)
    requires Owned(f, g, owner) && ino < |f.inodes| && InodeShaped(f, ino)
    requires owner == Dropped(owner0, ino, NDIRECT) && f.inodes[ino].addrs[NDIRECT] == 0
    ensures owner == Dropped(owner0, ino, SLOTS)
  {
    forall c | c in owner
      ensures !Gone(owner[c], ino, SLOTS)
    {
      assert OwnerHolds(f, g, owner, c);
    }
    assert owner == Dropped(owner0, ino, SLOTS);
  }

  // The contents of blocks that nobody owns do not matter.
  lemma UnownedIrrelevant(f: Files, f': Files, g: Region, owner: map<nat, Slot>)
    requires Owned(f, g, owner) && Shaped(f', g) && f'.inodes == f.inodes
    requires forall b :: b in owner ==> b in f.disk && b in f'.disk && f'.disk[b] == f.disk[b]
    ensures Owned(f', g, owner)
  {
    forall j: nat | j < |f.inodes|
      ensures SamePtrs(f, f', j)
    {
      OtherFile(f, f', g, owner, j);
    }
    SamePtrsOwned(f, f', g, owner);
  }

  // h is f with the first k entries of ino's indirect block cleared.
  ghost predicate Shadow(h: Files, f: Files, g: Region, ino: nat, k: nat)
  {
    && Shaped(f, g) && Shaped(h, g) && ino < |f.inodes|
    && h.inodes == f.inodes && InodeShaped(f, ino) && InodeShaped(h, ino)
    && f.inodes[ino].addrs[NDIRECT] != 0
    && (forall b :: b in f.disk && b != f.inodes[ino].addrs[NDIRECT] ==> h.disk[b] == f.disk[b])
    && (forall e: nat :: NDIRECT < e < SLOTS ==> Ptr(h, ino, e) == if e <= NDIRECT + k then 0 else Ptr(f, ino, e))
  }

  lemma ShadowStart(f: Files, g: Region, owner: map<nat, Slot>, ino: nat)
    requires Owned(f, g, owner) && ino < |f.inodes| && InodeShaped(f, ino) && f.inodes[ino].addrs[NDIRECT] != 0
    ensures Shadow(f, f, g, ino, 0)
  {
  }

  lemma ShadowStep(h: Files, f: Files, g: Region, owner: map<nat, Slot>, ino: nat, k: nat)
    requires Shaped(f, g) && Owned(h, g, owner) && ino < |f.inodes| && k < NINDIRECT && Shadow(h, f, g, ino, k)
    ensures Ptr(h, ino, NDIRECT + 1 + k) == Ptr(f, ino, NDIRECT + 1 + k)
    ensures Ptr(f, ino, NDIRECT + 1 + k) == 0 ==> Shadow(h, f, g, ino, k + 1)
    ensures var h' := Store(h, ino, NDIRECT + 1 + k, 0); Shaped(h', g) && Shadow(h', f, g, ino, k + 1)
  {
    var i := NDIRECT + 1 + k;
    var h' := Store(h, ino, i, 0);
    assert Storable(h, g, ino, i, 0);
    StoreShaped(h, g, ino, i, 0);
    assert InodeShaped(h', ino);
    forall e: nat | NDIRECT < e < SLOTS
      ensures Ptr(h', ino, e) == if e <= NDIRECT + k + 1 then 0 else Ptr(f, ino, e)
    {
      StorePtr(h, g, owner, ino, i, 0, ino, e);
    }
  }

  // With all entries cleared in the shadow, clearing the pointer in f frees the indirect block.
  lemma ShadowEnd(sb: Super, bits: seq<BitBlock>, h: Files, f: Files, owner: map<nat, Slot>, ino: nat)
    requires Shaped(f, sb.g) && Consistent(sb, bits, h, owner) && ino < |f.inodes| && Shadow(h, f, sb.g, ino, NINDIRECT)
    ensures var b := f.inodes[ino].addrs[NDIRECT];
      && b == Ptr(h, ino, NDIRECT)
      && b < sb.g.size && InUse(bits, b)
      && Consistent(sb, Cleared(bits, b), Store(f, ino, NDIRECT, 0), Without(owner, b))
  {
    hide InUse, Cleared;
    var b := f.inodes[ino].addrs[NDIRECT];
    ClearedConsistent(sb, bits, h, owner, ino, NDIRECT);
    var h', f', owner' := Store(h, ino, NDIRECT, 0), Store(f, ino, NDIRECT, 0), Without(owner, b);
    forall j: nat | j < |f'.inodes|
      ensures InodeShaped(f', j)
    {
      assert InodeShaped(f, j);
    }
    forall c | c in owner'
      ensures c in h'.disk && c in f'.disk && f'.disk[c] == h'.disk[c]
    {
      assert OwnerHolds(h', sb.g, owner', c);
    }
    UnownedIrrelevant(h', f', sb.g, owner');
  }

  // itrunc after the first k entries: the bits and the owners already fit the shadow.
  ghost predicate Freeing(sb: Super, bits: seq<BitBlock>, h: Files, f: Files,
                          owner0: map<nat, Slot>, owner: map<nat, Slot>, ino: nat, k: nat) {
    Consistent(sb, bits, h, owner) && Shadow(h, f, sb.g, ino, k) && owner == Dropped(owner0, ino, NDIRECT + k)
  }

  lemma FreeingStart(sb: Super, bits: seq<BitBlock>, f: Files, owner0: map<nat, Slot>, owner: map<nat, Slot>, ino: nat)
    requires Consistent(sb, bits, f, owner) && ino < |f.inodes| && InodeShaped(f, ino)
    requires f.inodes[ino].addrs[NDIRECT] != 0 && owner == Dropped(owner0, ino, NDIRECT)
    ensures Freeing(sb, bits, f, f, owner0, owner, ino, 0)
    ensures f.inodes[ino].addrs[NDIRECT] in f.disk
  {
    ShadowStart(f, sb.g, owner, ino);
  }

  lemma FreeingStep(sb: Super, bits: seq<BitBlock>, h: Files, f: Files,
                    owner0: map<nat, Slot>, owner: map<nat, Slot>, ino: nat, k: nat)
    requires Freeing(sb, bits, h, f, owner0, owner, ino, k) && k < NINDIRECT
    ensures var b := Word(f.disk[f.inodes[ino].addrs[NDIRECT]], k);
      && (b == 0 ==> Freeing(sb, bits, h, f, owner0, owner, ino, k + 1))
      && (b != 0 ==>
            && b < BPB * |bits| && InUse(bits, b)
            && Freeing(sb, Cleared(bits, b), Store(h, ino, NDIRECT + 1 + k, 0), f, owner0, Without(owner, b), ino, k + 1))
  {
    hide Consistent, Shadow, InUse, Cleared, Store, Dropped, Without;
    var i := NDIRECT + 1 + k;
    FreeingFacts(sb, bits, h, f, owner0, owner, ino, k);
    ShadowStep(h, f, sb.g, owner, ino, k);
    DroppedStep(h, sb.g, owner0, owner, ino, i);
    if Ptr(h, ino, i) != 0 { ClearedConsistent(sb, bits, h, owner, ino, i); }
  }

  lemma FreeingFacts(sb: Super, bits: seq<BitBlock>, h: Files, f: Files,
                     owner0: map<nat, Slot>, owner: map<nat, Slot>, ino: nat, k: nat)
    requires Freeing(sb, bits, h, f, owner0, owner, ino, k)
    ensures Owned(h, sb.g, owner) && Shaped(f, sb.g) && ino < |f.inodes| && h.inodes == f.inodes
    ensures InodeShaped(f, ino) && InodeShaped(h, ino) && f.inodes[ino].addrs[NDIRECT] != 0
    ensures sb.g.size <= BPB * |bits|
  {
  }

  lemma FreeingEnd(sb: Super, bits: seq<BitBlock>, h: Files, f: Files,
                   owner0: map<nat, Slot>, owner: map<nat, Slot>, ino: nat)
    requires Freeing(sb, bits, h, f, owner0, owner, ino, NINDIRECT)
    ensures var b := f.inodes[ino].addrs[NDIRECT];
      && b < BPB * |bits| && InUse(bits, b)
      && Consistent(sb, Cleared(bits, b), Store(f, ino, NDIRECT, 0), Without(owner, b))
      && Without(owner, b) == Dropped(owner0, ino, SLOTS)
  {
    hide Consistent, Shadow, InUse, Cleared, Store, Dropped, Without;
    FreeingFacts(sb, bits, h, f, owner0, owner, ino, NINDIRECT);
    DroppedStep(h, sb.g, owner0, owner, ino, NDIRECT);
    ShadowEnd(sb, bits, h, f, owner, ino);
  }

  // Some slot of inode ino holds b.
  ghost predicate HeldBy(f: Files, ino: nat, b: nat)
    requires ino < |f.inodes| && InodeShaped(f, ino)
  {
    exists i: nat :: i < SLOTS && Ptr(f, ino, i) == b
  }

  // What is freed is exactly what the inode's slots held.
  lemma DroppedIsHeld(sb: Super, bits: seq<BitBlock>, f: Files, owner: map<nat, Slot>,
                      bits': seq<BitBlock>, f': Files, owner': map<nat, Slot>, ino: nat, b: nat)
    requires Consistent(sb, bits, f, owner) && Consistent(sb, bits', f', owner')
    requires ino < |f.inodes| && InodeShaped(f, ino) && owner' == Dropped(owner, ino, SLOTS)
    requires sb.g.first <= b < sb.g.size
    ensures InUse(bits', b) <==> InUse(bits, b) && !HeldBy(f, ino, b)
  {
    hide InUse;
    if b in owner {
      assert OwnerHolds(f, sb.g, owner, b);
      if owner[b].ino == ino { assert Ptr(f, ino, owner[b].i) == b; }
    }
    forall i: nat | i < SLOTS && Ptr(f, ino, i) == b
      ensures b in owner && owner[b] == Slot(ino, i)
    {
      assert PtrOwned(f, owner, ino, i);
    }
  }

  // Resetting one inode leaves every other file as it was.
  lemma ResetKeepsOthers(f: Files, f': Files, g: Region, owner: map<nat, Slot>, ino: nat)
    requires Owned(f, g, owner) && Shaped(f', g) && ino < |f.inodes| && Whole(f, g)
    requires f'.disk == f.disk && |f'.inodes| == |f.inodes| && f'.inodes == f.inodes[ino := f'.inodes[ino]] && f'.inodes[ino].size == 0
    ensures SameFiles(f, f', g, ino) && FileOf(f', g, ino) == []
  {
    forall j: nat | j < |f.inodes| && j != ino
      ensures Mapped(f', j, f'.inodes[j].size) && FileOf(f', g, j) == FileOf(f, g, j)
    {
      forall b | b in owner
        ensures b in f.disk
      {
        assert OwnerHolds(f, g, owner, b);
      }
      OtherFile(f, f', g, owner, j);
      KeepsContent(f, f', j, f.inodes[j].size);
    }
  }

  // The state itrunc leaves, given the one in which all slots of ino have been freed.
  lemma TruncEnd(sb: Super, bits: seq<BitBlock>, f: Files, owner: map<nat, Slot>,
                 bits': seq<BitBlock>, f': Files, owner': map<nat, Slot>, ino: nat)
    requires Consistent(sb, bits, f, owner) && Whole(f, sb.g) && Consistent(sb, bits', f', owner')
    requires ino < |f.inodes| == |f'.inodes| && f'.disk == f.disk && f'.inodes == f.inodes[ino := f'.inodes[ino]]
    requires owner' == Dropped(owner, ino, SLOTS) && InodeShaped(f, ino)
    ensures Consistent(sb, bits', Resized(f', ino, 0), owner')
    ensures SameFiles(f, Resized(f', ino, 0), sb.g, ino) && FileOf(Resized(f', ino, 0), sb.g, ino) == []
    ensures forall b: nat :: sb.g.first <= b < sb.g.size ==> (InUse(bits', b) <==> InUse(bits, b) && !HeldBy(f, ino, b))
  {
    hide InUse, HeldBy, Dropped, Owned, FileOf;
    ResizedConsistent(sb, bits', f', owner', ino, 0);
    ShapedRegion(Resized(f', ino, 0), sb.g, owner');
    ResetKeepsOthers(f, Resized(f', ino, 0), sb.g, owner, ino);
    forall b: nat | sb.g.first <= b < sb.g.size
      ensures InUse(bits', b) <==> InUse(bits, b) && !HeldBy(f, ino, b)
    {
      DroppedIsHeld(sb, bits, f, owner, bits', f', owner', ino, b);
    }
  }
}
