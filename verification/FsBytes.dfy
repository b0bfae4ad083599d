/** What a partly completed write means for the bytes of every file. */
module FsBytes {
  import opened Bytes
  import opened Blocks
  import opened FsLayout
  import opened FsImage
  import opened FsFile

  const MAXBYTES := MAXFILE * BSIZE

  /** Byte o of file j is mapped and is x. */
  ghost predicate HasByte(m: Image, j: nat, o: nat, x: byte)
    requires m.Shape() && j < |m.itab| && o < MAXBYTES
  {
    BlockAddr(m, j, o / BSIZE) != 0 && ByteAt(m, j, o) == x
  }

  /** File i holds bs from offset lo on. */
  ghost predicate HoldsBytes(m: Image, i: nat, lo: nat, bs: seq<byte>)
    requires m.Shape() && i < |m.itab| && lo + |bs| <= MAXBYTES
  {
    forall d :: 0 <= d < |bs| ==> HasByte(m, i, lo + d, bs[d])
  }

  /** Every byte that was mapped in m0 is the same in m, but for [lo, hi) of file i. */
  ghost predicate Untouched(m0: Image, m: Image, i: nat, lo: nat, hi: nat)
    requires m0.Shape() && m.Shape()
  {
    && m.sb == m0.sb
    && forall j, o ::
         (0 <= j < |m0.itab| && 0 <= o < MAXBYTES && BlockAddr(m0, j, o / BSIZE) != 0 && !(j == i && lo <= o < hi)) ==>
           HasByte(m, j, o, ByteAt(m0, j, o))
  }

  lemma UntouchedRefl(m: Image, i: nat, lo: nat)
    requires m.Shape()
    ensures Untouched(m, m, i, lo, lo)
  {
  }

  lemma MapKeepsBytes(m0: Image, m: Image, m': Image, i: nat, lo: nat, bs: seq<byte>)
    requires m0.Shape() && m.Shape() && m'.Shape() && i < |m.itab| && lo + |bs| <= MAXBYTES
    requires Untouched(m0, m, i, lo, lo + |bs|) && HoldsBytes(m, i, lo, bs) && Preserved(m, m')
    ensures Untouched(m0, m', i, lo, lo + |bs|) && HoldsBytes(m', i, lo, bs)
  {
    forall d | 0 <= d < |bs|
      ensures HasByte(m', i, lo + d, bs[d])
    {
      assert HasByte(m, i, lo + d, bs[d]);
      PreservedByte(m, m', i, lo + d);
    }
    forall j, o | 0 <= j < |m0.itab| && 0 <= o < MAXBYTES && BlockAddr(m0, j, o / BSIZE) != 0
                  && !(j == i && lo <= o < lo + |bs|)
      ensures HasByte(m', j, o, ByteAt(m0, j, o))
    {
      assert HasByte(m, j, o, ByteAt(m0, j, o));
      PreservedByte(m, m', j, o);
    }
  }

  /** The image after chunk is laid over the block that holds offset at of file i. */
  function Patch(m: Image, i: nat, at: nat, chunk: seq<byte>): (m': Image)
    requires m.Shape() && i < |m.itab| && at < MAXBYTES && at % BSIZE + |chunk| <= BSIZE
    requires BlockAddr(m, i, at / BSIZE) < |m.blocks|
  {
    var a := BlockAddr(m, i, at / BSIZE);
    WriteBlock(m, a, Overlay(m.blocks[a], at % BSIZE, chunk))
  }

  /** Patch changes the bytes [at, at + |chunk|) of file i and nothing else. */
  lemma PatchByte(m: Image, own: Owners, i: nat, at: nat, chunk: seq<byte>, j: nat, o: nat)
    requires Inv(m, own) && i < |m.itab| && at < MAXBYTES && at % BSIZE + |chunk| <= BSIZE
    requires BlockAddr(m, i, at / BSIZE) != 0 && j < |m.itab| && o < MAXBYTES
    ensures BlockAddr(m, i, at / BSIZE) < |m.blocks| && Patch(m, i, at, chunk).Shape()
    ensures BlockAddr(Patch(m, i, at, chunk), j, o / BSIZE) == BlockAddr(m, j, o / BSIZE)
    ensures ByteAt(Patch(m, i, at, chunk), j, o) ==
            if j == i && at <= o < at + |chunk| then chunk[o - at] else ByteAt(m, j, o)
  {
    var bn := at / BSIZE;
    FileBlockOwned(m, own, i, bn);
    var v := Overlay(m.blocks[BlockAddr(m, i, bn)], at % BSIZE, chunk);
    WriteBlockKeeps(m, own, i, bn, v);
    WriteBlockByte(m, own, i, bn, v, j, o);
    ChunkOffset(at, |chunk|, o);
    hide Inv, SlotAddr;
  }

  lemma PatchHolds(m: Image, own: Owners, i: nat, lo: nat, bs: seq<byte>, chunk: seq<byte>)
    requires Inv(m, own) && i < |m.itab| && lo + |bs| + |chunk| <= MAXBYTES && lo + |bs| < MAXBYTES
    requires (lo + |bs|) % BSIZE + |chunk| <= BSIZE && BlockAddr(m, i, (lo + |bs|) / BSIZE) != 0
    requires HoldsBytes(m, i, lo, bs)
    ensures BlockAddr(m, i, (lo + |bs|) / BSIZE) < |m.blocks| && Patch(m, i, lo + |bs|, chunk).Shape()
    ensures HoldsBytes(Patch(m, i, lo + |bs|, chunk), i, lo, bs + chunk)
  {
    hide SlotsOk, OwnersOk, BitsOk, InodesOk, SlotAddr, ByteAt;
    var at := lo + |bs|;
    PatchByte(m, own, i, at, chunk, i, at);
    hide Patch;
    var m' := Patch(m, i, at, chunk);
    forall d | 0 <= d < |bs + chunk|
      ensures HasByte(m', i, lo + d, (bs + chunk)[d])
    {
      PatchByte(m, own, i, at, chunk, i, lo + d);
      if d < |bs| {
        assert HasByte(m, i, lo + d, bs[d]);
      } else {
        ChunkOffset(at, |chunk|, lo + d);
      }
    }
  }

  lemma PatchUntouched(m0: Image, m: Image, own: Owners, i: nat, lo: nat, at: nat, chunk: seq<byte>)
    requires m0.Shape() && Inv(m, own) && i < |m.itab| && lo <= at < MAXBYTES && at + |chunk| <= MAXBYTES
    requires at % BSIZE + |chunk| <= BSIZE && BlockAddr(m, i, at / BSIZE) != 0
    requires Untouched(m0, m, i, lo, at)
    ensures BlockAddr(m, i, at / BSIZE) < |m.blocks| && Patch(m, i, at, chunk).Shape()
    ensures Untouched(m0, Patch(m, i, at, chunk), i, lo, at + |chunk|)
  {
    hide SlotsOk, OwnersOk, BitsOk, InodesOk, SlotAddr, ByteAt;
    PatchByte(m, own, i, at, chunk, i, at);
    var m' := Patch(m, i, at, chunk);
    assert m'.sb == m.sb;
    hide Patch;
    forall j, o | 0 <= j < |m0.itab| && 0 <= o < MAXBYTES && BlockAddr(m0, j, o / BSIZE) != 0
                  && !(j == i && lo <= o < at + |chunk|)
      ensures HasByte(m', j, o, ByteAt(m0, j, o))
    {
      assert HasByte(m, j, o, ByteAt(m0, j, o));
      PatchByte(m, own, i, at, chunk, j, o);
    }
  }

  /** Within one block, offsets run from at % BSIZE. */
  lemma ChunkOffset(at: nat, n: nat, o: nat)
    requires at % BSIZE + n <= BSIZE
    ensures at <= o < at + n ==> o / BSIZE == at / BSIZE && o % BSIZE == at % BSIZE + (o - at)
    ensures o / BSIZE == at / BSIZE ==> o - at == o % BSIZE - at % BSIZE
  {
    if at <= o < at + n {
      DivIs(o, at / BSIZE, at % BSIZE + (o - at));
    }
  }

  lemma DivIs(x: nat, q: nat, r: nat)
    requires x == BSIZE * q + r && r < BSIZE
    ensures x / BSIZE == q && x % BSIZE == r
  {
  }

  // ----- Sizes, inode blocks, contents -----

  function SetSize(m: Image, i: nat, size: nat): (m': Image)
    requires i < |m.itab|
  {
    m.(itab := m.itab[i := m.itab[i].(size := size)])
  }

  lemma SetSizeKeeps(m: Image, own: Owners, i: nat, size: nat)
    requires Inv(m, own) && i < |m.itab| && m.itab[i].typ != 0 && size <= MAXBYTES
    requires forall bn :: 0 <= bn < MAXFILE && bn * BSIZE < size ==> BlockAddr(m, i, bn) != 0
    ensures Inv(SetSize(m, i, size), own) && SameSlots(m, SetSize(m, i, size))
  {
    var m' := SetSize(m, i, size);
    SlotsFrame(m, m');
    SameSlotsOk(m, m', own);
    SameBits(m, m', own, own);
    hide SlotsOk, BitsOk, SlotAddr;
    forall j | 0 <= j < |m.itab|
      ensures InodeOk(m', j)
    {
      assert InodeOk(m, j);
      forall bn | 0 <= bn < MAXFILE && bn * BSIZE < m'.itab[j].size
        ensures BlockAddr(m', j, bn) != 0
      {
        assert BlockAddr(m, j, bn) != 0;
      }
    }
  }

  lemma DinodeFrame(sb: Super, blocks: seq<Block>, i: nat, d: Inode)
    requires sb.Valid() && |blocks| == sb.size && i < sb.ninodes && d.Valid()
    ensures sb.IBlock(i) < sb.bmapstart <= |blocks|
    ensures forall a :: sb.bmapstart <= a < |blocks| ==> SetDinode(sb, blocks, i, d)[a] == blocks[a]
  {
    InodeBlockRange(sb, i);
    hide SpliceInode;
  }

  /** Writing inode i back touches neither the free map nor any data block. */
  lemma SetDinodeKeeps(m: Image, own: Owners, i: nat)
    requires Inv(m, own) && i < |m.itab|
    ensures m.sb.IBlock(i) < m.sb.bmapstart <= |m.blocks|
    ensures var m' := m.(blocks := SetDinode(m.sb, m.blocks, i, m.itab[i]));
            Inv(m', own) && SameSlots(m, m') && Preserved(m, m')
  {
    hide SetDinode, SlotsOk, InodesOk, BitsOk, SlotAddr, Preserved;
    DinodeFrame(m.sb, m.blocks, i, m.itab[i]);
    var blocks' := SetDinode(m.sb, m.blocks, i, m.itab[i]);
    var m' := m.(blocks := blocks');
    assert forall a :: a in own ==> a < |m.blocks| && blocks'[a] == m.blocks[a];
    hide OwnersOk;
    OutsideIndirect(m, blocks', own);
    DinodeBits(m, m', own);
    PreservedBy(m, m', own);
  }

  lemma DinodeBits(m: Image, m': Image, own: Owners)
    requires m.Shape() && m'.Shape() && m'.sb == m.sb && BitsOk(m, own)
    requires forall a :: m.sb.bmapstart <= a < |m.blocks| ==> m'.blocks[a] == m.blocks[a]
    ensures BitsOk(m', own)
  {
    forall a | 0 <= a < m.sb.size
      ensures m.sb.BBlock(a) < m.sb.data && (Bit(m.sb, m'.blocks, a) <==> a < m.sb.data || a in own)
    {
      BBlockRange(m.sb, a);
    }
  }

  /** Every inode on disk equals its copy in memory. */
  ghost predicate Synced(m: Image)
    requires m.Shape()
  {
    forall j :: 0 <= j < |m.itab| ==> m.sb.IBlock(j) < |m.blocks| && Dinode(m.sb, m.blocks, j) == m.itab[j]
  }

  lemma InodeBlockRange(sb: Super, j: nat)
    requires sb.Valid() && j < sb.ninodes
    ensures sb.IBlock(j) < sb.bmapstart
  {
    assert IPB == 16;
    assert j / 16 <= sb.ninodes / 16;
  }

  /** After iupdate(i), if only i was out of step, all are in step. */
  lemma UpdateSyncs(m: Image, i: nat)
    requires m.Shape() && i < |m.itab| && m.sb.IBlock(i) < |m.blocks|
    requires forall j :: 0 <= j < |m.itab| && j != i ==>
               m.sb.IBlock(j) < |m.blocks| && Dinode(m.sb, m.blocks, j) == m.itab[j]
    ensures m.(blocks := SetDinode(m.sb, m.blocks, i, m.itab[i])).Shape()
    ensures Synced(m.(blocks := SetDinode(m.sb, m.blocks, i, m.itab[i])))
  {
    hide Dinode, SetDinode;
    forall j | 0 <= j < |m.itab|
      ensures m.sb.IBlock(j) < |m.blocks| && Dinode(m.sb, SetDinode(m.sb, m.blocks, i, m.itab[i]), j) == m.itab[j]
    {
      InodeBlockRange(m.sb, j);
      DinodeSetDinode(m.sb, m.blocks, i, m.itab[i], j);
    }
  }

  /** s with bs laid over it from offset off, growing if need be. */
  function Splice(s: seq<byte>, off: nat, bs: seq<byte>): (r: seq<byte>)
    requires off <= |s|
    ensures |r| == if off + |bs| > |s| then off + |bs| else |s|
    ensures forall o :: 0 <= o < |r| ==> r[o] == if off <= o < off + |bs| then bs[o - off] else s[o]
  {
    s[..off] + bs + (if off + |bs| < |s| then s[off + |bs|..] else [])
  }
}
