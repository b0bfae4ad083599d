/** Disk blocks and devices, shared by the log, the buffer cache and the file system. */
module Blocks {
  import opened Bytes

  const BSIZE := 1024

  /** The most blocks one file system operation may log. */
  const MAXOPBLOCKS := 10

  type Block = b: seq<byte> | |b| == BSIZE witness seq(BSIZE, i => 0)

  function ZeroBlock(): (b: Block)
    ensures forall i :: 0 <= i < BSIZE ==> b[i] == 0
  {
    seq(BSIZE, i => 0)
  }

  /** The 32-bit words a block is made of. */
  const WORDS := BSIZE / 4

  function SetWord(b: Block, i: nat, w: nat): (r: Block)
    requires i < WORDS
  {
    PutWord(b, i, w)
  }
}
