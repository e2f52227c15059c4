/** Values and constants shared by the storage layers (kernel/param.h, kernel/fs.h). */
module Blocks {
  datatype Option<+T> = None | Some(value: T)

  // Some member of a set.
  ghost function Pick<T>(s: set<T>): (t: T)
    requires s != {}
    ensures t in s
  {
    var t :| t in s;
    t
  }

  const MAXOPBLOCKS: nat := 10
  const LOGSIZE: nat := 3 * MAXOPBLOCKS
  const NBUF: nat := 3 * MAXOPBLOCKS

  // BSIZE bytes, seen as the 32-bit words that the log header and the indirect blocks are made of.
  const BLOCK_WORDS: nat := 256

  type Block = b: seq<int> | |b| == BLOCK_WORDS witness seq(BLOCK_WORDS, _ => 0)
}
