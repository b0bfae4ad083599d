/** Files as byte sequences over the block map. */
module FsFile {
  import opened Bytes
  import opened Blocks
  import opened FsLayout
  import opened FsImage

  /** Every mapped block of every file keeps its place and its bytes from m to m'. */
  ghost predicate Preserved(m: Image, m': Image)
    requires m.Shape() && m'.Shape()
  {
    && m'.sb == m.sb
    && forall j, bn :: 0 <= j < |m.itab| && 0 <= bn < MAXFILE && BlockAddr(m, j, bn) != 0 ==> KeptBlock(m, m', j, bn)
  }

  ghost predicate KeptBlock(m: Image, m': Image, j: nat, bn: nat)
    requires m.Shape() && m'.Shape() && m'.sb == m.sb && j < |m.itab| && bn < MAXFILE
  {
    var a := BlockAddr(m, j, bn);
    BlockAddr(m', j, bn) == a && (a < |m.blocks| ==> m'.blocks[a] == m.blocks[a])
  }

  lemma PreservedTrans(m: Image, m1: Image, m2: Image)
    requires m.Shape() && m1.Shape() && m2.Shape() && Preserved(m, m1) && Preserved(m1, m2)
    ensures Preserved(m, m2)
  {
    forall j, bn | 0 <= j < |m.itab| && 0 <= bn < MAXFILE && BlockAddr(m, j, bn) != 0
      ensures KeptBlock(m, m2, j, bn)
    {
      assert KeptBlock(m, m1, j, bn) && KeptBlock(m1, m2, j, bn);
    }
  }

  /** A mapped file block is a data block owned by its slot. */
  lemma FileBlockOwned(m: Image, own: Owners, j: nat, bn: nat)
    requires Inv(m, own) && j < |m.itab| && bn < MAXFILE && BlockAddr(m, j, bn) != 0
    ensures var a := BlockAddr(m, j, bn);
            m.sb.data <= a < m.sb.size && a in own && own[a] == InSlot(Slot(j, FileSlot(bn)))
  {
    assert SlotOk(m, own, j, FileSlot(bn));
  }

  /** Changing blocks that belong to no file preserves the files, wherever slots stay put. */
  lemma PreservedBy(m: Image, m': Image, own: Owners)
    requires Inv(m, own) && m'.Shape() && m'.sb == m.sb
    requires forall j, bn :: 0 <= j < |m.itab| && 0 <= bn < MAXFILE && BlockAddr(m, j, bn) != 0 ==>
               BlockAddr(m', j, bn) == BlockAddr(m, j, bn)
    requires forall a :: a in own && own[a].InSlot? && own[a].slot.k != NDIRECT ==> a < |m.blocks| ==>
               m'.blocks[a] == m.blocks[a]
    ensures Preserved(m, m')
  {
    forall j, bn | 0 <= j < |m.itab| && 0 <= bn < MAXFILE && BlockAddr(m, j, bn) != 0
      ensures KeptBlock(m, m', j, bn)
    {
      FileBlockOwned(m, own, j, bn);
    }
  }

  // ----- Bytes -----

  /** Byte o of file i; 0 where nothing is mapped. */
  function ByteAt(m: Image, i: nat, o: nat): (x: byte)
    requires m.Shape() && i < |m.itab| && o < MAXFILE * BSIZE
  {
    var a := BlockAddr(m, i, o / BSIZE);
    if 0 < a < |m.blocks| then m.blocks[a][o % BSIZE] else 0
  }

  /** The file's contents; in a sound image no size exceeds MAXFILE blocks. */
  function Contents(m: Image, i: nat): (s: seq<byte>)
    requires m.Shape() && i < |m.itab|
  {
    var n := if m.itab[i].size <= MAXFILE * BSIZE then m.itab[i].size else MAXFILE * BSIZE;
    seq(n, o requires 0 <= o < n => ByteAt(m, i, o))
  }

  lemma PreservedByte(m: Image, m': Image, j: nat, o: nat)
    requires m.Shape() && m'.Shape() && Preserved(m, m') && j < |m.itab| && o < MAXFILE * BSIZE
    requires BlockAddr(m, j, o / BSIZE) != 0
    ensures BlockAddr(m', j, o / BSIZE) == BlockAddr(m, j, o / BSIZE)
    ensures ByteAt(m', j, o) == ByteAt(m, j, o)
  {
    assert KeptBlock(m, m', j, o / BSIZE);
  }

  function WriteBlock(m: Image, a: nat, v: Block): (m': Image)
    requires a < |m.blocks|
  {
    m.(blocks := m.blocks[a := v])
  }

  /** Writing a mapped file block moves no slot and touches no other file block. */
  lemma WriteBlockKeeps(m: Image, own: Owners, i: nat, bn: nat, v: Block)
    requires Inv(m, own) && i < |m.itab| && bn < MAXFILE && BlockAddr(m, i, bn) != 0
    ensures var a := BlockAddr(m, i, bn);
            && a < m.sb.size && Inv(WriteBlock(m, a, v), own) && SameSlots(m, WriteBlock(m, a, v))
  {
    FileBlockOwned(m, own, i, bn);
    var a := BlockAddr(m, i, bn);
    hide SlotsOk, InodesOk, SlotAddr;
    OutsideIndirect(m, m.blocks[a := v], own);
    SameBits(m, WriteBlock(m, a, v), own, own);
  }

  lemma WriteBlockByte(m: Image, own: Owners, i: nat, bn: nat, v: Block, j: nat, o: nat)
    requires Inv(m, own) && i < |m.itab| && bn < MAXFILE && BlockAddr(m, i, bn) != 0
    requires j < |m.itab| && o < MAXFILE * BSIZE
    ensures var a := BlockAddr(m, i, bn);
            && a < m.sb.size && WriteBlock(m, a, v).Shape()
            && ByteAt(WriteBlock(m, a, v), j, o) == if j == i && o / BSIZE == bn then v[o % BSIZE] else ByteAt(m, j, o)
  {
    FileBlockOwned(m, own, i, bn);
    WriteBlockKeeps(m, own, i, bn, v);
    if BlockAddr(m, j, o / BSIZE) != 0 {
      FileBlockOwned(m, own, j, o / BSIZE);
    }
    hide Inv;
  }

  // ----- What bmap may do to the map -----

  /** m' is m with file block (i, bn) at addr: no other file block moved or changed,
      and apart from i's pointers no inode changed. */
  ghost predicate Mapping(m: Image, m': Image, i: nat, bn: nat, addr: nat)
    requires m.Shape() && m'.Shape() && i < |m.itab| && bn < MAXFILE
  {
    && m'.sb == m.sb
    && (forall j :: 0 <= j < |m.itab| && j != i ==> m'.itab[j] == m.itab[j])
    && m'.itab[i] == m.itab[i].(addrs := m'.itab[i].addrs)
    && BlockAddr(m', i, bn) == addr
    && (forall j, l :: 0 <= j < |m.itab| && 0 <= l < MAXFILE && !(j == i && l == bn) ==>
          BlockAddr(m', j, l) == BlockAddr(m, j, l))
    && Preserved(m, m')
  }

  lemma MappingTrans(m: Image, m1: Image, m2: Image, i: nat, bn: nat, a1: nat, a2: nat)
    requires m.Shape() && m1.Shape() && m2.Shape() && i < |m.itab| && bn < MAXFILE
    requires Mapping(m, m1, i, bn, a1) && Mapping(m1, m2, i, bn, a2)
    ensures Mapping(m, m2, i, bn, a2)
  {
    PreservedTrans(m, m1, m2);
    hide Preserved, BlockAddr;
  }

  lemma MappingSame(m: Image, m': Image, i: nat, bn: nat)
    requires m.Shape() && m'.Shape() && i < |m.itab| && bn < MAXFILE
    requires SameSlots(m, m') && Preserved(m, m') && m'.itab == m.itab
    ensures Mapping(m, m', i, bn, BlockAddr(m, i, bn))
  {
    hide Preserved, SlotAddr;
  }

  lemma MappingRefl(m: Image, i: nat, bn: nat)
    requires m.Shape() && i < |m.itab| && bn < MAXFILE
    ensures Mapping(m, m, i, bn, BlockAddr(m, i, bn))
  {
  }

  lemma MappingLink(m: Image, m': Image, i: nat, bn: nat, k: nat, b: nat)
    requires m.Shape() && m'.Shape() && i < |m.itab| && bn < MAXFILE && (k == FileSlot(bn) || k == NDIRECT)
    requires Linked(m, m', i, k, b) && Preserved(m, m')
    requires forall j :: 0 <= j < |m.itab| && j != i ==> m'.itab[j] == m.itab[j]
    requires m'.itab[i] == m.itab[i].(addrs := m'.itab[i].addrs)
    ensures Mapping(m, m', i, bn, if k == FileSlot(bn) then b else BlockAddr(m, i, bn))
  {
    hide Preserved, SlotAddr;
  }
}
