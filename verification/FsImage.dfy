/** The file system as a value: which block belongs to which slot of which inode,
    and what each primitive change of the code keeps. */
module FsImage {
  import opened Bytes
  import opened Blocks
  import opened FsLayout

  /** The block store and the in-memory inodes. */
  datatype Image = Image(sb: Super, blocks: seq<Block>, itab: seq<Inode>) {
    ghost predicate Shape() {
      && sb.Valid() && |blocks| == sb.size && |itab| == sb.ninodes
      && forall i :: 0 <= i < |itab| ==> itab[i].Valid()
    }
  }

  /** Slot k of an inode: a direct pointer (k < 12), the pointer to the indirect
      block (k == 12), or entry k - 13 of the indirect block. */
  datatype Slot = Slot(inum: nat, k: nat)

  const SLOTS := NDIRECT + 1 + NINDIRECT

  /** A block in use is about to be linked, or sits in exactly one slot. */
  datatype Owner = Floating | InSlot(slot: Slot)

  type Owners = map<nat, Owner>

  function SlotAddr(m: Image, i: nat, k: nat): (a: nat)
    requires m.Shape() && i < |m.itab| && k < SLOTS
    ensures a < UINT_MAX
  {
    if k <= NDIRECT then m.itab[i].addrs[k]
    else
      var ind := m.itab[i].addrs[NDIRECT];
      if ind == 0 || ind >= |m.blocks| then 0 else Word(m.blocks[ind], k - NDIRECT - 1)
  }

  /** The slot that holds block bn of a file. */
  function FileSlot(bn: nat): (k: nat) {
    if bn < NDIRECT then bn else bn + 1
  }

  function BlockAddr(m: Image, i: nat, bn: nat): (a: nat)
    requires m.Shape() && i < |m.itab| && bn < MAXFILE
  {
    SlotAddr(m, i, FileSlot(bn))
  }

  // ----- The invariant -----

  /** Slot (i, k), if not empty, holds a data block recorded as its own. */
  ghost predicate SlotOk(m: Image, own: Owners, i: nat, k: nat)
    requires m.Shape() && i < |m.itab| && k < SLOTS
  {
    var a := SlotAddr(m, i, k);
    a != 0 ==> m.sb.data <= a < m.sb.size && a in own && own[a] == InSlot(Slot(i, k))
  }

  ghost predicate SlotsOk(m: Image, own: Owners)
    requires m.Shape()
  {
    forall i, k :: 0 <= i < |m.itab| && 0 <= k < SLOTS ==> SlotOk(m, own, i, k)
  }

  /** Every recorded owner really holds the block. */
  ghost predicate OwnersOk(m: Image, own: Owners)
    requires m.Shape()
  {
    forall a :: a in own ==>
      && m.sb.data <= a < m.sb.size
      && (own[a].InSlot? ==>
            own[a].slot.inum < |m.itab| && own[a].slot.k < SLOTS && SlotAddr(m, own[a].slot.inum, own[a].slot.k) == a)
  }

  /** A bit is set exactly for metadata blocks and blocks in use. */
  ghost predicate BitsOk(m: Image, own: Owners)
    requires m.Shape()
  {
    forall a :: 0 <= a < m.sb.size ==>
      m.sb.BBlock(a) < m.sb.data && (Bit(m.sb, m.blocks, a) <==> a < m.sb.data || a in own)
  }

  /** Every block below the size is mapped; a free inode maps nothing. */
  ghost predicate InodeOk(m: Image, i: nat)
    requires m.Shape() && i < |m.itab|
  {
    && m.itab[i].size <= MAXFILE * BSIZE
    && (forall bn :: 0 <= bn < MAXFILE && bn * BSIZE < m.itab[i].size ==> BlockAddr(m, i, bn) != 0)
    && (m.itab[i].typ == 0 ==> m.itab[i].size == 0 && forall k :: 0 <= k <= NDIRECT ==> m.itab[i].addrs[k] == 0)
  }

  ghost predicate InodesOk(m: Image)
    requires m.Shape()
  {
    forall i :: 0 <= i < |m.itab| ==> InodeOk(m, i)
  }

  ghost predicate Inv(m: Image, own: Owners) {
    m.Shape() && SlotsOk(m, own) && OwnersOk(m, own) && BitsOk(m, own) && InodesOk(m)
  }

  lemma BBlockRange(sb: Super, a: nat)
    requires sb.Valid() && a < sb.size
    ensures sb.bmapstart <= sb.BBlock(a) < sb.data
  {
  }

  // ----- Primitive changes -----

  /** m and m' agree on every slot. */
  ghost predicate SameSlots(m: Image, m': Image)
    requires m.Shape() && m'.Shape()
  {
    && m'.sb == m.sb
    && forall i, k :: 0 <= i < |m.itab| && 0 <= k < SLOTS ==> SlotAddr(m', i, k) == SlotAddr(m, i, k)
  }

  /** The bits and the sizes do not matter to the slots, nor does the content of a block
      that is not an indirect block. */
  lemma SlotsFrame(m: Image, m': Image)
    requires m.Shape() && m'.Shape() && m'.sb == m.sb
    requires forall i :: 0 <= i < |m.itab| ==> m'.itab[i].addrs == m.itab[i].addrs
    requires forall i :: 0 <= i < |m.itab| && 0 < m.itab[i].addrs[NDIRECT] < |m.blocks| ==>
               m'.blocks[m.itab[i].addrs[NDIRECT]] == m.blocks[m.itab[i].addrs[NDIRECT]]
    ensures SameSlots(m, m')
  {
  }

  lemma SameInodeOk(m: Image, m': Image, i: nat)
    requires m.Shape() && m'.Shape() && SameSlots(m, m') && i < |m.itab| && InodeOk(m, i)
    requires m'.itab[i].size == m.itab[i].size && m'.itab[i].typ == m.itab[i].typ && m'.itab[i].addrs == m.itab[i].addrs
    ensures InodeOk(m', i)
  {
    forall bn | 0 <= bn < MAXFILE && bn * BSIZE < m'.itab[i].size
      ensures BlockAddr(m', i, bn) != 0
    {
      assert BlockAddr(m, i, bn) != 0;
    }
  }

  lemma SameSlotsKeep(m: Image, m': Image, own: Owners)
    requires Inv(m, own) && m'.Shape() && SameSlots(m, m')
    requires forall i :: 0 <= i < |m.itab| ==> m'.itab[i].size == m.itab[i].size && m'.itab[i].typ == m.itab[i].typ
                                               && m'.itab[i].addrs == m.itab[i].addrs
    ensures SlotsOk(m', own) && OwnersOk(m', own) && InodesOk(m')
  {
    forall i, k | 0 <= i < |m'.itab| && 0 <= k < SLOTS
      ensures SlotOk(m', own, i, k)
    {
      assert SlotOk(m, own, i, k);
    }
    forall i | 0 <= i < |m'.itab|
      ensures InodeOk(m', i)
    {
      SameInodeOk(m, m', i);
    }
  }

  /** An indirect block in use is owned as slot 12. */
  lemma IndirectOwned(m: Image, own: Owners, i: nat)
    requires Inv(m, own) && i < |m.itab| && m.itab[i].addrs[NDIRECT] != 0
    ensures m.itab[i].addrs[NDIRECT] in own && own[m.itab[i].addrs[NDIRECT]] == InSlot(Slot(i, NDIRECT))
    ensures m.sb.data <= m.itab[i].addrs[NDIRECT] < m.sb.size
  {
    assert SlotOk(m, own, i, NDIRECT);
  }

  function AllocBlocks(sb: Super, blocks: seq<Block>, b: nat): (r: seq<Block>)
    requires sb.BBlock(b) < |blocks| && b < |blocks|
    ensures |r| == |blocks|
  {
    SetBit(sb, blocks, b, true)[b := ZeroBlock()]
  }

  lemma AllocBits(m: Image, own: Owners, b: nat)
    requires m.Shape() && BitsOk(m, own) && m.sb.data <= b < m.sb.size
    ensures m.sb.BBlock(b) < |m.blocks|
    ensures BitsOk(m.(blocks := AllocBlocks(m.sb, m.blocks, b)), own[b := Floating])
  {
    BBlockRange(m.sb, b);
    var blocks' := AllocBlocks(m.sb, m.blocks, b);
    forall a | 0 <= a < m.sb.size
      ensures m.sb.BBlock(a) < m.sb.data && (Bit(m.sb, blocks', a) <==> a < m.sb.data || a in own[b := Floating])
    {
      BBlockRange(m.sb, a);
      BitSetBit(m.sb, m.blocks, b, true, a);
      assert blocks'[m.sb.BBlock(a)] == SetBit(m.sb, m.blocks, b, true)[m.sb.BBlock(a)];
    }
  }

  /** Changing blocks that are no indirect block of any inode. */
  lemma OutsideIndirect(m: Image, blocks': seq<Block>, own: Owners)
    requires Inv(m, own) && |blocks'| == |m.blocks|
    requires forall a :: a in own && own[a].InSlot? && own[a].slot.k == NDIRECT ==> blocks'[a] == m.blocks[a]
    ensures var m' := m.(blocks := blocks');
            && m'.Shape() && SameSlots(m, m')
            && SlotsOk(m', own) && OwnersOk(m', own) && InodesOk(m')
  {
    var m' := m.(blocks := blocks');
    forall i | 0 <= i < |m.itab| && 0 < m.itab[i].addrs[NDIRECT] < |m.blocks|
      ensures m'.blocks[m.itab[i].addrs[NDIRECT]] == m.blocks[m.itab[i].addrs[NDIRECT]]
    {
      IndirectOwned(m, own, i);
    }
    hide Inv;
    SlotsFrame(m, m');
    SameSlotsKeep(m, m', own);
  }

  lemma FloatingKeeps(m: Image, own: Owners, b: nat)
    requires m.Shape() && SlotsOk(m, own) && OwnersOk(m, own)
    requires m.sb.data <= b < m.sb.size && b !in own
    ensures SlotsOk(m, own[b := Floating]) && OwnersOk(m, own[b := Floating])
  {
    var own' := own[b := Floating];
    forall i, k | 0 <= i < |m.itab| && 0 <= k < SLOTS
      ensures SlotOk(m, own', i, k)
    {
      assert SlotOk(m, own, i, k);
    }
  }

  /** balloc of free block b. */
  lemma AllocKeeps(m: Image, own: Owners, b: nat)
    requires Inv(m, own) && b < m.sb.size && m.sb.BBlock(b) < |m.blocks| && !Bit(m.sb, m.blocks, b)
    ensures m.sb.data <= b && b !in own
    ensures var m' := m.(blocks := AllocBlocks(m.sb, m.blocks, b));
            Inv(m', own[b := Floating]) && SameSlots(m, m')
  {
    assert m.sb.data <= b && b !in own;
    hide SlotsOk, BitsOk, InodesOk, Bit, SetBit;
    var blocks' := AllocBlocks(m.sb, m.blocks, b);
    AllocBits(m, own, b);
    AllocFrame(m.sb, m.blocks, b);
    OutsideIndirect(m, blocks', own);
    FloatingKeeps(m.(blocks := blocks'), own, b);
  }

  /** balloc touches the block and its free map block. */
  lemma AllocFrame(sb: Super, blocks: seq<Block>, b: nat)
    requires sb.Valid() && |blocks| == sb.size && b < sb.size && sb.BBlock(b) < |blocks|
    ensures forall a :: sb.data <= a < sb.size && a != b ==> AllocBlocks(sb, blocks, b)[a] == blocks[a]
    ensures AllocBlocks(sb, blocks, b)[b] == ZeroBlock()
  {
    BBlockRange(sb, b);
  }

  // ----- Linking a floating block into an empty slot -----

  /** m' is m with block b in slot (i, k), which was empty; nothing else moved. */
  ghost predicate Linked(m: Image, m': Image, i: nat, k: nat, b: nat)
    requires m.Shape() && m'.Shape() && i < |m.itab| && k < SLOTS
  {
    && m'.sb == m.sb
    && (forall j, l :: 0 <= j < |m.itab| && 0 <= l < SLOTS ==>
          SlotAddr(m', j, l) == if j == i && l == k then b else SlotAddr(m, j, l))
    && SlotAddr(m, i, k) == 0
    && (forall j :: 0 <= j < |m.itab| ==> m'.itab[j].size == m.itab[j].size && m'.itab[j].typ == m.itab[j].typ)
    && (forall a :: 0 <= a < m.sb.data ==> m'.blocks[a] == m.blocks[a])
  }

  lemma LinkedSlots(m: Image, m': Image, own: Owners, i: nat, k: nat, b: nat)
    requires m.Shape() && m'.Shape() && i < |m.itab| && k < SLOTS && Linked(m, m', i, k, b)
    requires SlotsOk(m, own) && OwnersOk(m, own)
    requires b in own && own[b] == Floating && b != 0
    ensures SlotsOk(m', own[b := InSlot(Slot(i, k))]) && OwnersOk(m', own[b := InSlot(Slot(i, k))])
  {
    hide SlotAddr;
    var own' := own[b := InSlot(Slot(i, k))];
    forall j, l | 0 <= j < |m'.itab| && 0 <= l < SLOTS
      ensures SlotOk(m', own', j, l)
    {
      assert SlotOk(m, own, j, l);
    }
  }

  lemma LinkedInode(m: Image, m': Image, i: nat, k: nat, b: nat, j: nat)
    requires m.Shape() && m'.Shape() && i < |m.itab| && k < SLOTS && Linked(m, m', i, k, b)
    requires b != 0 && m.itab[i].typ != 0
    requires j < |m.itab| && InodeOk(m, j)
    ensures InodeOk(m', j)
  {
    forall bn | 0 <= bn < MAXFILE && bn * BSIZE < m'.itab[j].size
      ensures BlockAddr(m', j, bn) != 0
    {
      assert BlockAddr(m, j, bn) != 0;
    }
    if m'.itab[j].typ == 0 {
      forall l | 0 <= l <= NDIRECT
        ensures m'.itab[j].addrs[l] == 0
      {
        assert SlotAddr(m', j, l) == SlotAddr(m, j, l);
      }
    }
  }

  lemma LinkedKeeps(m: Image, m': Image, own: Owners, i: nat, k: nat, b: nat)
    requires Inv(m, own) && m'.Shape() && i < |m.itab| && k < SLOTS && Linked(m, m', i, k, b)
    requires b in own && own[b] == Floating && m.itab[i].typ != 0
    ensures Inv(m', own[b := InSlot(Slot(i, k))])
  {
    var own' := own[b := InSlot(Slot(i, k))];
    LinkedSlots(m, m', own, i, k, b);
    forall j | 0 <= j < |m.itab|
      ensures InodeOk(m', j)
    {
      LinkedInode(m, m', i, k, b, j);
    }
    hide Linked, SlotsOk, OwnersOk, InodeOk;
    SameBits(m, m', own, own');
  }

  lemma SameBits(m: Image, m': Image, own: Owners, own': Owners)
    requires m.Shape() && m'.Shape() && m'.sb == m.sb && BitsOk(m, own) && own'.Keys == own.Keys
    requires forall a :: 0 <= a < m.sb.data ==> m'.blocks[a] == m.blocks[a]
    ensures BitsOk(m', own')
  {
    forall a | 0 <= a < m.sb.size
      ensures m.sb.BBlock(a) < m.sb.data && (Bit(m.sb, m'.blocks, a) <==> a < m.sb.data || a in own')
    {
      BBlockRange(m.sb, a);
      assert a in own' <==> a in own.Keys;
    }
  }

  function SetAddr(m: Image, i: nat, k: nat, b: nat): (m': Image)
    requires i < |m.itab| && k < |m.itab[i].addrs|
  {
    m.(itab := m.itab[i := m.itab[i].(addrs := m.itab[i].addrs[k := b])])
  }

  /** ip->addrs[k] = b for a direct slot, or for the indirect block, which is zeroed. */
  lemma SetAddrLinks(m: Image, i: nat, k: nat, b: nat)
    requires m.Shape() && i < |m.itab| && k <= NDIRECT && b < |m.blocks| && m.itab[i].addrs[k] == 0
    requires k == NDIRECT ==> m.blocks[b] == ZeroBlock()
    ensures SetAddr(m, i, k, b).Shape() && Linked(m, SetAddr(m, i, k, b), i, k, b)
  {
    var m' := SetAddr(m, i, k, b);
    forall j, l | 0 <= j < |m.itab| && 0 <= l < SLOTS
      ensures SlotAddr(m', j, l) == if j == i && l == k then b else SlotAddr(m, j, l)
    {
      if j == i && l > NDIRECT && k == NDIRECT {
        ZeroWord(l - NDIRECT - 1);
      }
    }
  }

  lemma ZeroWord(j: nat)
    requires j < WORDS
    ensures Word(ZeroBlock(), j) == 0
  {
    DecodeZeros(ZeroBlock()[4 * j..4 * j + 4]);
  }

  function SetEntry(m: Image, ind: nat, j: nat, b: nat): (m': Image)
    requires ind < |m.blocks| && j < NINDIRECT
  {
    m.(blocks := m.blocks[ind := SetWord(m.blocks[ind], j, b)])
  }

  /** a[j] = b in the indirect block. */
  lemma SetEntryLinks(m: Image, own: Owners, i: nat, j: nat, b: nat)
    requires Inv(m, own) && i < |m.itab| && j < NINDIRECT && b < m.sb.size
    requires m.itab[i].addrs[NDIRECT] != 0 && SlotAddr(m, i, NDIRECT + 1 + j) == 0
    ensures m.itab[i].addrs[NDIRECT] < |m.blocks|
    ensures var m' := SetEntry(m, m.itab[i].addrs[NDIRECT], j, b);
            m'.Shape() && Linked(m, m', i, NDIRECT + 1 + j, b)
  {
    IndirectOwned(m, own, i);
    var ind := m.itab[i].addrs[NDIRECT];
    var m' := SetEntry(m, ind, j, b);
    forall p, l | 0 <= p < |m.itab| && 0 <= l < SLOTS
      ensures SlotAddr(m', p, l) == if p == i && l == NDIRECT + 1 + j then b else SlotAddr(m, p, l)
    {
      if l > NDIRECT && m.itab[p].addrs[NDIRECT] != 0 {
        IndirectOwned(m, own, p);
        WordPutWord(m.blocks[ind], j, b, l - NDIRECT - 1);
      }
    }
    assert m'.Shape();
    assert forall a :: 0 <= a < m.sb.data ==> m'.blocks[a] == m.blocks[a];
    assert forall q :: 0 <= q < |m.itab| ==> m'.itab[q].size == m.itab[q].size && m'.itab[q].typ == m.itab[q].typ;
    assert SlotAddr(m, i, NDIRECT + 1 + j) == 0;
    assert Linked(m, m', i, NDIRECT + 1 + j, b);
  }

  // ----- Emptying a slot -----

  /** Everything but inode i's size against its blocks: what holds while i is truncated. */
  ghost predicate InvBut(m: Image, own: Owners, i: nat) {
    && m.Shape() && SlotsOk(m, own) && OwnersOk(m, own) && BitsOk(m, own)
    && forall j :: 0 <= j < |m.itab| && j != i ==> InodeOk(m, j)
  }

  /** m' is m with slot (i, k), which held a, emptied and a's bit cleared. */
  ghost predicate Unlinked(m: Image, m': Image, i: nat, k: nat, a: nat)
    requires m.Shape() && m'.Shape() && i < |m.itab| && k < SLOTS
  {
    && m'.sb == m.sb && SlotAddr(m, i, k) == a != 0
    && (forall j, l :: 0 <= j < |m.itab| && 0 <= l < SLOTS ==>
          SlotAddr(m', j, l) == if j == i && l == k then 0 else SlotAddr(m, j, l))
    && (forall j :: 0 <= j < |m.itab| && j != i ==> m'.itab[j] == m.itab[j])
    && (forall b :: 0 <= b < m.sb.size && m.sb.BBlock(b) < m.sb.data ==>
          Bit(m.sb, m'.blocks, b) == (b != a && Bit(m.sb, m.blocks, b)))
  }

  lemma UnlinkedSlots(m: Image, m': Image, own: Owners, i: nat, k: nat, a: nat)
    requires m.Shape() && m'.Shape() && i < |m.itab| && k < SLOTS && Unlinked(m, m', i, k, a)
    requires SlotsOk(m, own) && OwnersOk(m, own)
    ensures SlotsOk(m', own - {a}) && OwnersOk(m', own - {a})
  {
    var own' := own - {a};
    assert SlotOk(m, own, i, k);
    forall j, l | 0 <= j < |m'.itab| && 0 <= l < SLOTS
      ensures SlotOk(m', own', j, l)
    {
      assert SlotOk(m, own, j, l);
    }
  }

  lemma UnlinkedKeeps(m: Image, m': Image, own: Owners, i: nat, k: nat, a: nat)
    requires InvBut(m, own, i) && m'.Shape() && i < |m.itab| && k < SLOTS && Unlinked(m, m', i, k, a)
    ensures InvBut(m', own - {a}, i)
    ensures m.sb.data <= a < m.sb.size && a in own && own[a] == InSlot(Slot(i, k))
  {
    UnlinkedSlots(m, m', own, i, k, a);
    assert SlotOk(m, own, i, k);
    forall j | 0 <= j < |m.itab| && j != i
      ensures InodeOk(m', j)
    {
      assert InodeOk(m, j);
      UnlinkedInode(m, m', i, k, a, j);
    }
    hide SlotsOk, OwnersOk, InodeOk;
    forall b | 0 <= b < m.sb.size
      ensures m.sb.BBlock(b) < m.sb.data && (Bit(m.sb, m'.blocks, b) <==> b < m.sb.data || b in own - {a})
    {
      BBlockRange(m.sb, b);
    }
  }

  lemma UnlinkedInode(m: Image, m': Image, i: nat, k: nat, a: nat, j: nat)
    requires m.Shape() && m'.Shape() && i < |m.itab| && k < SLOTS && Unlinked(m, m', i, k, a)
    requires j < |m.itab| && j != i && InodeOk(m, j)
    ensures InodeOk(m', j)
  {
    forall bn | 0 <= bn < MAXFILE && bn * BSIZE < m'.itab[j].size
      ensures BlockAddr(m', j, bn) != 0
    {
      assert BlockAddr(m, j, bn) != 0;
    }
  }

  /** Bfree and ip->addrs[k] = 0 together. */
  function FreeAddr(m: Image, i: nat, k: nat): (m': Image)
    requires m.Shape() && i < |m.itab| && k <= NDIRECT && m.sb.BBlock(m.itab[i].addrs[k]) < |m.blocks|
  {
    SetAddr(m.(blocks := SetBit(m.sb, m.blocks, m.itab[i].addrs[k], false)), i, k, 0)
  }

  /** Clearing a bit leaves every data block alone. */
  lemma ClearFrame(sb: Super, blocks: seq<Block>, a: nat)
    requires sb.Valid() && |blocks| == sb.size && a < sb.size
    ensures sb.BBlock(a) < |blocks|
    ensures forall b :: sb.data <= b < sb.size ==> SetBit(sb, blocks, a, false)[b] == blocks[b]
    ensures forall b :: 0 <= b < sb.size && sb.BBlock(b) < sb.data ==>
              Bit(sb, SetBit(sb, blocks, a, false), b) == (b != a && Bit(sb, blocks, b))
  {
    BBlockRange(sb, a);
    forall b | 0 <= b < sb.size && sb.BBlock(b) < sb.data
      ensures Bit(sb, SetBit(sb, blocks, a, false), b) == (b != a && Bit(sb, blocks, b))
    {
      BitSetBit(sb, blocks, a, false, b);
    }
  }

  lemma IndirectInData(m: Image, own: Owners, j: nat)
    requires m.Shape() && SlotsOk(m, own) && j < |m.itab|
    ensures m.itab[j].addrs[NDIRECT] != 0 ==> m.sb.data <= m.itab[j].addrs[NDIRECT] < m.sb.size
  {
    assert SlotOk(m, own, j, NDIRECT);
  }

  /** Clearing ip->addrs[k]; for the indirect block, once its entries are all empty. */
  lemma ClearAddrSlots(m: Image, i: nat, k: nat, j: nat, l: nat)
    requires m.Shape() && i < |m.itab| && k <= NDIRECT && j < |m.itab| && l < SLOTS
    requires k == NDIRECT && j == i && NDIRECT < l ==> SlotAddr(m, i, l) == 0
    ensures SetAddr(m, i, k, 0).Shape()
    ensures SlotAddr(SetAddr(m, i, k, 0), j, l) == if j == i && l == k then 0 else SlotAddr(m, j, l)
  {
  }

  lemma FreeAddrUnlinks(m: Image, own: Owners, i: nat, k: nat)
    requires InvBut(m, own, i) && i < |m.itab| && k <= NDIRECT && m.itab[i].addrs[k] != 0
    requires k == NDIRECT ==> forall l :: NDIRECT < l < SLOTS ==> SlotAddr(m, i, l) == 0
    ensures m.itab[i].addrs[k] < m.sb.size && m.sb.BBlock(m.itab[i].addrs[k]) < |m.blocks|
    ensures FreeAddr(m, i, k).Shape() && Unlinked(m, FreeAddr(m, i, k), i, k, m.itab[i].addrs[k])
  {
    assert SlotOk(m, own, i, k);
    var a := m.itab[i].addrs[k];
    ClearedImage(m, own, a);
    var m1 := m.(blocks := SetBit(m.sb, m.blocks, a, false));
    hide SetBit, Bit, SlotsOk, OwnersOk, BitsOk, InodeOk, SlotOk;
    var m' := FreeAddr(m, i, k);
    forall j, l | 0 <= j < |m.itab| && 0 <= l < SLOTS
      ensures SlotAddr(m', j, l) == if j == i && l == k then 0 else SlotAddr(m, j, l)
    {
      ClearAddrSlots(m1, i, k, j, l);
    }
  }

  /** Bfree of entry j and, in the mind, zeroing it. */
  function FreeEntry(m: Image, ind: nat, j: nat, a: nat): (m': Image)
    requires m.Shape() && ind < |m.blocks| && j < NINDIRECT && m.sb.BBlock(a) < |m.blocks|
  {
    SetEntry(m.(blocks := SetBit(m.sb, m.blocks, a, false)), ind, j, 0)
  }

  lemma SetEntrySlots(m: Image, own: Owners, i: nat, j: nat, p: nat, l: nat)
    requires m.Shape() && SlotsOk(m, own) && i < |m.itab| && j < NINDIRECT && p < |m.itab| && l < SLOTS
    requires 0 != m.itab[i].addrs[NDIRECT] < |m.blocks|
    ensures var m' := SetEntry(m, m.itab[i].addrs[NDIRECT], j, 0);
            m'.Shape() && SlotAddr(m', p, l) == if p == i && l == NDIRECT + 1 + j then 0 else SlotAddr(m, p, l)
  {
    assert SlotOk(m, own, i, NDIRECT) && SlotOk(m, own, p, NDIRECT);
    if l > NDIRECT {
      WordPutWord(m.blocks[m.itab[i].addrs[NDIRECT]], j, 0, l - NDIRECT - 1);
    }
  }

  lemma FreeEntryUnlinks(m: Image, own: Owners, i: nat, j: nat)
    requires InvBut(m, own, i) && i < |m.itab| && j < NINDIRECT && m.itab[i].addrs[NDIRECT] != 0
    requires SlotAddr(m, i, NDIRECT + 1 + j) != 0
    ensures var a := SlotAddr(m, i, NDIRECT + 1 + j);
            var ind := m.itab[i].addrs[NDIRECT];
            && m.sb.data <= ind < m.sb.size && a < m.sb.size && m.sb.BBlock(a) < |m.blocks|
            && FreeEntry(m, ind, j, a).Shape()
            && Unlinked(m, FreeEntry(m, ind, j, a), i, NDIRECT + 1 + j, a)
  {
    var a := SlotAddr(m, i, NDIRECT + 1 + j);
    var ind := m.itab[i].addrs[NDIRECT];
    assert SlotOk(m, own, i, NDIRECT + 1 + j);
    IndirectInData(m, own, i);
    ClearedImage(m, own, a);
    var m1 := m.(blocks := SetBit(m.sb, m.blocks, a, false));
    var m' := FreeEntry(m, ind, j, a);
    hide SetBit, Bit, SlotsOk, OwnersOk, BitsOk, InodeOk, SlotOk;
    forall p, l | 0 <= p < |m.itab| && 0 <= l < SLOTS
      ensures SlotAddr(m', p, l) == if p == i && l == NDIRECT + 1 + j then 0 else SlotAddr(m, p, l)
    {
      SetEntrySlots(m1, own, i, j, p, l);
    }
    BitsBelowData(m.sb, m1.blocks, m'.blocks);
  }

  lemma BitsBelowData(sb: Super, blocks: seq<Block>, blocks': seq<Block>)
    requires sb.Valid() && |blocks| == |blocks'| == sb.size
    requires forall b :: 0 <= b < sb.data ==> blocks'[b] == blocks[b]
    ensures forall b :: 0 <= b < sb.size && sb.BBlock(b) < sb.data ==> Bit(sb, blocks', b) == Bit(sb, blocks, b)
  {
  }

  lemma ClearedImage(m: Image, own: Owners, a: nat)
    requires m.Shape() && SlotsOk(m, own) && a < m.sb.size
    ensures m.sb.BBlock(a) < |m.blocks|
    ensures var m1 := m.(blocks := SetBit(m.sb, m.blocks, a, false));
            && m1.Shape() && SameSlots(m, m1) && SlotsOk(m1, own)
            && forall b :: 0 <= b < m.sb.size && m.sb.BBlock(b) < m.sb.data ==>
                 Bit(m.sb, m1.blocks, b) == (b != a && Bit(m.sb, m.blocks, b))
  {
    ClearFrame(m.sb, m.blocks, a);
    var m1 := m.(blocks := SetBit(m.sb, m.blocks, a, false));
    forall p | 0 <= p < |m.itab| { IndirectInData(m, own, p); }
    hide SetBit, Bit, SlotsOk;
    SlotsFrame(m, m1);
    SameSlotsOk(m, m1, own);
  }

  lemma SameSlotsOk(m: Image, m': Image, own: Owners)
    requires m.Shape() && m'.Shape() && SameSlots(m, m') && SlotsOk(m, own)
    ensures SlotsOk(m', own)
  {
    forall i, k | 0 <= i < |m'.itab| && 0 <= k < SLOTS
      ensures SlotOk(m', own, i, k)
    {
      assert SlotOk(m, own, i, k);
    }
  }
}
