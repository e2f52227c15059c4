/** Every block that the file system changes is handed to log_write (kernel/fs.c:64-103, 221-237, 370-517):
    what a transaction leaves out of the log is neither pinned nor committed. */
module FsLog {
  import opened FsFormat
  import opened FsFiles
  import opened FsState

  // The blocks that these calls write: bitmap, data and inodes.
  datatype Image = Image(bits: seq<BitBlock>, data: map<nat, Bytes>, dinodes: seq<Inode>)

  // Every block on which the two differ is in log.
  ghost predicate AllLogged(sb: Super, d: Image, d': Image, log: set<nat>) {
    && |d'.bits| == |d.bits| && d'.data.Keys == d.data.Keys && |d'.dinodes| == |d.dinodes|
    && (forall k: nat :: k < |d.bits| && d'.bits[k] != d.bits[k] ==> BitsLogged(sb, k, log))
    && (forall b :: b in d.data && d'.data[b] != d.data[b] ==> b in log)
    && (forall i: nat :: i < |d.dinodes| && d'.dinodes[i] != d.dinodes[i] ==> InodeLogged(sb, i, log))
  }

  predicate BitsLogged(sb: Super, k: nat, log: set<nat>) {
    k + sb.bmapstart in log
  }

  // The kth inode block holds inode i; a block has room for IPB of them.
  predicate InodeIn(i: nat, k: nat) {
    k * IPB <= i < k * IPB + IPB
  }

  ghost predicate InodeLogged(sb: Super, i: nat, log: set<nat>) {
    forall k: nat :: InodeIn(i, k) ==> k + sb.inodestart in log
  }

  lemma NothingToLog(sb: Super, d: Image, log: set<nat>)
    ensures AllLogged(sb, d, d, log)
  {
  }

  lemma LoggedTrans(sb: Super, d: Image, d1: Image, d2: Image, log1: set<nat>, log2: set<nat>)
    requires AllLogged(sb, d, d1, log1) && AllLogged(sb, d1, d2, log2) && log1 <= log2
    ensures AllLogged(sb, d, d2, log2)
  {
    forall k: nat | k < |d.bits| && d2.bits[k] != d.bits[k]
      ensures BitsLogged(sb, k, log2)
    {
      assert d1.bits[k] != d.bits[k] ==> BitsLogged(sb, k, log1);
    }
    forall i: nat | i < |d.dinodes| && d2.dinodes[i] != d.dinodes[i]
      ensures InodeLogged(sb, i, log2)
    {
      assert d1.dinodes[i] != d.dinodes[i] ==> InodeLogged(sb, i, log1);
    }
    forall b | b in d.data && d2.data[b] != d.data[b]
      ensures b in log2
    {
      assert b in d1.data.Keys;
    }
  }

  // A bit of the bitmap is set or cleared.
  lemma BitLogged(sb: Super, d: Image, b: nat, log: set<nat>)
    requires b < BPB * |d.bits| && BBlock(sb, b) in log
    ensures AllLogged(sb, d, d.(bits := Marked(d.bits, b)), log)
    ensures AllLogged(sb, d, d.(bits := Cleared(d.bits, b)), log)
  {
  }

  lemma DataLogged(sb: Super, d: Image, b: nat, data: Bytes, log: set<nat>)
    requires b in d.data && b in log
    ensures AllLogged(sb, d, d.(data := d.data[b := data]), log)
  {
  }

  lemma DinodeLogged(sb: Super, d: Image, ino: nat, inode: Inode, log: set<nat>)
    requires ino < |d.dinodes| && IBlock(sb, ino) in log
    ensures AllLogged(sb, d, d.(dinodes := d.dinodes[ino := inode]), log)
  {
  }
}
