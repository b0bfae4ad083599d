/** itrunc, and with it the freeing and the allocation of inodes. */
module FsTrunc {
  import opened Collections
  import opened Bytes
  import opened Blocks
  import opened FsLayout
  import opened FsImage
  import opened FsFile
  import opened FsBytes
  import opened FsCode
  import opened FsIo

  /** Only free map blocks differ between x and y. */
  ghost predicate OnlyMaps(sb: Super, x: seq<Block>, y: seq<Block>) {
    |x| == |y| && forall a :: 0 <= a < |x| && (a < sb.bmapstart || a >= sb.data) ==> y[a] == x[a]
  }

  /** own is own0 less some blocks of inode i. */
  ghost predicate Released(own0: Owners, own: Owners, i: nat) {
    && (forall a :: a in own ==> a in own0 && own[a] == own0[a])
    && (forall a :: a in own0 && a !in own ==> own0[a].InSlot? && own0[a].slot.inum == i)
  }

  /** From m0 to m inode i has given up blocks: nothing but free map bits and i's pointers changed. */
  ghost predicate Truncating(m0: Image, own0: Owners, m: Image, own: Owners, i: nat) {
    && m0.Shape() && m.Shape() && m.sb == m0.sb && i < |m0.itab|
    && OnlyMaps(m.sb, m0.blocks, m.blocks) && SameFields(m0.itab, m.itab, i)
    && Released(own0, own, i)
  }

  /** The free map blocks of the blocks given up between own0 and own. */
  ghost function FreedMaps(sb: Super, own0: Owners, own: Owners): (r: set<nat>) {
    set a | a in own0 && a !in own :: sb.BBlock(a)
  }

  /** The free map blocks of the blocks of inode i. */
  ghost function FileMaps(sb: Super, own: Owners, i: nat): (r: set<nat>) {
    set a | a in own && own[a].InSlot? && own[a].slot.inum == i :: sb.BBlock(a)
  }

  lemma FreedOne(sb: Super, own0: Owners, own: Owners, i: nat, a: nat)
    requires a in own && Released(own0, own, i)
    ensures FreedMaps(sb, own0, own - {a}) == FreedMaps(sb, own0, own) + {sb.BBlock(a)}
  {
    hide Super.BBlock;
    assert a in own0 && a !in own - {a};
    assert sb.BBlock(a) in FreedMaps(sb, own0, own - {a});
  }

  lemma FreedNone(sb: Super, own: Owners)
    ensures FreedMaps(sb, own, own) == {}
  {
  }

  lemma FreedAll(sb: Super, own0: Owners, own: Owners, i: nat)
    requires forall a :: a in own <==> a in own0 && !(own0[a].InSlot? && own0[a].slot.inum == i)
    ensures FreedMaps(sb, own0, own) == FileMaps(sb, own0, i)
  {
    hide Super.BBlock;
  }

  /** A slot's block is in use, so freeing it does not panic. */
  lemma SlotBit(m: Image, own: Owners, i: nat, k: nat)
    requires InvBut(m, own, i) && i < |m.itab| && k < SLOTS && SlotAddr(m, i, k) != 0
    ensures var a := SlotAddr(m, i, k);
            && m.sb.data <= a < m.sb.size && m.sb.BBlock(a) < |m.blocks| && Bit(m.sb, m.blocks, a)
            && a in own && own[a] == InSlot(Slot(i, k))
  {
    assert SlotOk(m, own, i, k);
    BBlockRange(m.sb, SlotAddr(m, i, k));
  }

  lemma ClearOnlyMaps(sb: Super, x: seq<Block>, y: seq<Block>, a: nat)
    requires sb.Valid() && |y| == sb.size && a < sb.size && OnlyMaps(sb, x, y)
    ensures sb.BBlock(a) < |y| && OnlyMaps(sb, x, SetBit(sb, y, a, false))
  {
    BBlockRange(sb, a);
  }

  /** One step of the first loop, or of the freeing of the indirect block. */
  lemma FreeAddrStep(m0: Image, own0: Owners, m: Image, own: Owners, i: nat, k: nat)
    requires InvBut(m, own, i) && Truncating(m0, own0, m, own, i)
    requires i < |m.itab| && k <= NDIRECT && m.itab[i].addrs[k] != 0
    requires k == NDIRECT ==> forall l :: NDIRECT < l < SLOTS ==> SlotAddr(m, i, l) == 0
    ensures m.sb.BBlock(m.itab[i].addrs[k]) < |m.blocks| && Bit(m.sb, m.blocks, m.itab[i].addrs[k])
    ensures InvBut(FreeAddr(m, i, k), own - {m.itab[i].addrs[k]}, i) && m.itab[i].addrs[k] in own
    ensures Truncating(m0, own0, FreeAddr(m, i, k), own - {m.itab[i].addrs[k]}, i)
  {
    var a := m.itab[i].addrs[k];
    SlotBit(m, own, i, k);
    hide SlotsOk, OwnersOk, BitsOk, InodeOk, SetBit;
    ClearOnlyMaps(m.sb, m0.blocks, m.blocks, a);
    FreeAddrUnlinks(m, own, i, k);
    UnlinkedKeeps(m, FreeAddr(m, i, k), own, i, k, a);
  }

  lemma TruncStart(m: Image, own: Owners, i: nat)
    requires Inv(m, own) && i < |m.itab|
    ensures InvBut(m, own, i) && Truncating(m, own, m, own, i)
  {
    hide SlotsOk, OwnersOk, BitsOk;
  }

  /** Free the block of one direct pointer, if it has one. */
  method FreePointer(fs: FileSystem, i: nat, k: nat, ghost m0: Image, ghost own0: Owners, ghost log0: set<nat>)
    returns (panicked: bool)
    requires InvBut(fs.View(), fs.own, i) && Truncating(m0, own0, fs.View(), fs.own, i) && i < |fs.itab| && k < NDIRECT
    requires fs.logged == log0 + FreedMaps(fs.sb, own0, fs.own)
    modifies fs`blocks, fs`itab, fs`logged, fs`own
    ensures !panicked && InvBut(fs.View(), fs.own, i) && Truncating(m0, own0, fs.View(), fs.own, i)
    ensures fs.itab == old(fs.itab)[i := old(fs.itab)[i].(addrs := old(fs.itab)[i].addrs[k := 0])]
    ensures fs.logged == log0 + FreedMaps(fs.sb, own0, fs.own)
  {
    hide SlotsOk, OwnersOk, BitsOk, InodeOk, Bit, SetBit, FreedMaps, OnlyMaps, Released, SameFields, SlotAddr;
    var a := fs.itab[i].addrs[k];
    assert a == 0 ==> fs.itab[i].addrs[k := 0] == fs.itab[i].addrs;
    if a != 0 {
      FreeAddrStep(m0, own0, fs.View(), fs.own, i, k);
      FreedOne(fs.sb, own0, fs.own, i, a);
      panicked := fs.Bfree(a);
      if panicked {
        return;
      }
      fs.itab := fs.itab[i := fs.itab[i].(addrs := fs.itab[i].addrs[k := 0])];
      fs.own := fs.own - {a};
    }
    panicked := false;
  }

  /** itrunc's first loop. */
  method FreeDirect(fs: FileSystem, i: nat) returns (panicked: bool)
    requires fs.Valid() && i < |fs.itab|
    modifies fs`blocks, fs`itab, fs`logged, fs`own
    ensures !panicked && InvBut(fs.View(), fs.own, i)
    ensures Truncating(old(fs.View()), old(fs.own), fs.View(), fs.own, i)
    ensures forall l :: 0 <= l < NDIRECT ==> fs.itab[i].addrs[l] == 0
    ensures fs.itab[i].addrs[NDIRECT] == old(fs.itab)[i].addrs[NDIRECT]
    ensures fs.logged == old(fs.logged) + FreedMaps(fs.sb, old(fs.own), fs.own)
  {
    hide SlotsOk, OwnersOk, BitsOk, InodeOk, FreedMaps, OnlyMaps, Released, SameFields;
    ghost var m0, own0 := fs.View(), fs.own;
    TruncStart(m0, own0, i);
    FreedNone(fs.sb, own0);
    for k := 0 to NDIRECT
      invariant InvBut(fs.View(), fs.own, i) && Truncating(m0, own0, fs.View(), fs.own, i) && i < |fs.itab|
      invariant forall l :: 0 <= l < k ==> fs.itab[i].addrs[l] == 0
      invariant fs.itab[i].addrs[NDIRECT] == m0.itab[i].addrs[NDIRECT]
      invariant fs.logged == old(fs.logged) + FreedMaps(fs.sb, own0, fs.own)
    {
      panicked := FreePointer(fs, i, k, m0, own0, old(fs.logged));
      if panicked {
        return;
      }
    }
    panicked := false;
  }

  /** m with the indirect block of inode i read as ib. */
  function Seen(m: Image, ind: nat, ib: Block): (m': Image)
    requires ind < |m.blocks|
  {
    m.(blocks := m.blocks[ind := ib])
  }

  /** One step of the second loop: entry j's block is freed while the entry stays in the
      block, so the image is sound once the entry is read as zero. */
  lemma FreeEntryStep(m0: Image, own0: Owners, m: Image, own: Owners, i: nat, ind: nat, ib: Block, j: nat)
    requires m.Shape() && i < |m.itab| && ind == m.itab[i].addrs[NDIRECT] && 0 < ind < |m.blocks| && j < NINDIRECT
    requires InvBut(Seen(m, ind, ib), own, i) && Truncating(m0, own0, m, own, i)
    requires Word(ib, j) != 0
    ensures var a := Word(ib, j);
            && a < m.sb.size && m.sb.BBlock(a) < |m.blocks| && Bit(m.sb, m.blocks, a) && a in own
            && InvBut(Seen(m.(blocks := SetBit(m.sb, m.blocks, a, false)), ind, SetWord(ib, j, 0)), own - {a}, i)
            && Truncating(m0, own0, m.(blocks := SetBit(m.sb, m.blocks, a, false)), own - {a}, i)
  {
    var mg := Seen(m, ind, ib);
    var a := Word(ib, j);
    hide SlotsOk, OwnersOk, BitsOk, InodeOk, SetWord, Word, SetBit, Bit;
    SeenEntry(m, i, ind, ib, j);
    FreeEntryKeeps(mg, own, i, j);
    SeenBits(m, ind, ib, a);
    FreeEntrySeen(m, ind, ib, j, a);
    ClearOnlyMaps(m.sb, m0.blocks, m.blocks, a);
  }

  lemma SeenEntry(m: Image, i: nat, ind: nat, ib: Block, j: nat)
    requires m.Shape() && i < |m.itab| && ind == m.itab[i].addrs[NDIRECT] && 0 < ind < |m.blocks| && j < NINDIRECT
    ensures Seen(m, ind, ib).Shape() && SlotAddr(Seen(m, ind, ib), i, NDIRECT + 1 + j) == Word(ib, j)
  {
  }

  lemma FreeEntryKeeps(m: Image, own: Owners, i: nat, j: nat)
    requires InvBut(m, own, i) && i < |m.itab| && j < NINDIRECT && m.itab[i].addrs[NDIRECT] != 0
    requires SlotAddr(m, i, NDIRECT + 1 + j) != 0
    ensures var a := SlotAddr(m, i, NDIRECT + 1 + j);
            var ind := m.itab[i].addrs[NDIRECT];
            && m.sb.data <= ind < m.sb.size && m.sb.data <= a < m.sb.size && m.sb.BBlock(a) < |m.blocks|
            && Bit(m.sb, m.blocks, a) && a in own && own[a] == InSlot(Slot(i, NDIRECT + 1 + j))
            && InvBut(FreeEntry(m, ind, j, a), own - {a}, i)
  {
    hide SlotsOk, OwnersOk, BitsOk, InodeOk, SetWord, Word, SetBit, Bit, SlotAddr;
    var a := SlotAddr(m, i, NDIRECT + 1 + j);
    SlotBit(m, own, i, NDIRECT + 1 + j);
    FreeEntryUnlinks(m, own, i, j);
    UnlinkedKeeps(m, FreeEntry(m, m.itab[i].addrs[NDIRECT], j, a), own, i, NDIRECT + 1 + j, a);
  }

  /** What is read in a data block does not matter to the free map. */
  lemma SeenBits(m: Image, ind: nat, ib: Block, a: nat)
    requires m.Shape() && m.sb.data <= ind < m.sb.size && a < m.sb.size
    ensures m.sb.BBlock(a) < |m.blocks| && Bit(m.sb, Seen(m, ind, ib).blocks, a) == Bit(m.sb, m.blocks, a)
  {
    BBlockRange(m.sb, a);
  }

  lemma FreeEntrySeen(m: Image, ind: nat, ib: Block, j: nat, a: nat)
    requires m.Shape() && m.sb.data <= ind < m.sb.size && a < m.sb.size && j < NINDIRECT && m.sb.BBlock(a) < |m.blocks|
    ensures Seen(m, ind, ib).Shape()
    ensures FreeEntry(Seen(m, ind, ib), ind, j, a) ==
            Seen(m.(blocks := SetBit(m.sb, m.blocks, a, false)), ind, SetWord(ib, j, 0))
  {
    hide SetWord;
    BBlockRange(m.sb, a);
    var mg := Seen(m, ind, ib);
    assert mg.blocks[m.sb.BBlock(a)] == m.blocks[m.sb.BBlock(a)];
    var x := SetBit(m.sb, mg.blocks, a, false);
    var y := SetBit(m.sb, m.blocks, a, false);
    assert x[ind] == ib;
    assert forall b :: 0 <= b < |x| && b != ind ==> x[b] == y[b];
    hide SetBit;
    assert x[ind := SetWord(ib, j, 0)] == y[ind := SetWord(ib, j, 0)];
  }

  /** itrunc's second loop; the indirect block itself is not written. */
  method FreeEntries(fs: FileSystem, i: nat, ind: nat, ghost m0: Image, ghost own0: Owners, ghost log0: set<nat>)
    returns (panicked: bool, ghost ib: Block)
    requires InvBut(fs.View(), fs.own, i) && Truncating(m0, own0, fs.View(), fs.own, i)
    requires i < |fs.itab| && ind == fs.itab[i].addrs[NDIRECT] && 0 < ind < |fs.blocks|
    requires fs.logged == log0 + FreedMaps(fs.sb, own0, fs.own)
    modifies fs`blocks, fs`logged, fs`own
    ensures !panicked && fs.View().Shape() && ind < |fs.blocks|
    ensures InvBut(Seen(fs.View(), ind, ib), fs.own, i) && Truncating(m0, own0, fs.View(), fs.own, i)
    ensures forall j :: 0 <= j < NINDIRECT ==> Word(ib, j) == 0
    ensures fs.logged == log0 + FreedMaps(fs.sb, own0, fs.own)
  {
    hide SlotsOk, OwnersOk, BitsOk, InodeOk, Bit, SetBit, SetWord, Word, FreedMaps;
    ghost var a0 := fs.blocks[ind];
    ib := a0;
    IndirectHome(fs.View(), fs.own, i);
    assert Seen(fs.View(), ind, ib) == fs.View();
    for j := 0 to NINDIRECT
      invariant fs.View().Shape() && |fs.blocks| == |m0.blocks| && fs.blocks[ind] == a0
      invariant InvBut(Seen(fs.View(), ind, ib), fs.own, i) && Truncating(m0, own0, fs.View(), fs.own, i)
      invariant forall l :: 0 <= l < NINDIRECT ==> Word(ib, l) == if l < j then 0 else Word(a0, l)
      invariant fs.logged == log0 + FreedMaps(fs.sb, own0, fs.own)
    {
      var a := Word(fs.blocks[ind], j);
      if a != 0 {
        FreeEntryStep(m0, own0, fs.View(), fs.own, i, ind, ib, j);
        FreedOne(fs.sb, own0, fs.own, i, a);
        ClearFrame(fs.sb, fs.blocks, a);
        panicked := fs.Bfree(a);
        if panicked {
          return;
        }
        fs.own := fs.own - {a};
        forall l | 0 <= l < NINDIRECT
          ensures Word(SetWord(ib, j, 0), l) == if l < j + 1 then 0 else Word(a0, l)
        {
          EntryCleared(ib, j, l);
        }
        ib := SetWord(ib, j, 0);
      }
    }
    panicked := false;
  }

  lemma EntryCleared(b: Block, j: nat, l: nat)
    requires j < WORDS && l < WORDS
    ensures Word(SetWord(b, j, 0), l) == if l == j then 0 else Word(b, l)
  {
    WordPutWord(b, j, 0, l);
  }

  lemma IndirectHome(m: Image, own: Owners, i: nat)
    requires InvBut(m, own, i) && i < |m.itab| && m.itab[i].addrs[NDIRECT] != 0
    ensures m.sb.data <= m.itab[i].addrs[NDIRECT] < m.sb.size
  {
    assert SlotOk(m, own, i, NDIRECT);
  }

  /** The contents of a block nobody owns do not matter. */
  lemma FreeContent(m: Image, own: Owners, i: nat, b: nat, v: Block)
    requires InvBut(m, own, i) && m.sb.data <= b < m.sb.size && b !in own
    ensures InvBut(Seen(m, b, v), own, i)
  {
    var m' := Seen(m, b, v);
    forall j | 0 <= j < |m.itab| && 0 < m.itab[j].addrs[NDIRECT] < |m.blocks|
      ensures m'.blocks[m.itab[j].addrs[NDIRECT]] == m.blocks[m.itab[j].addrs[NDIRECT]]
    {
      assert SlotOk(m, own, j, NDIRECT);
    }
    SlotsFrame(m, m');
    SameSlotsOk(m, m', own);
    SameBits(m, m', own, own);
    forall j | 0 <= j < |m.itab| && j != i
      ensures InodeOk(m', j)
    {
      SameInodeOk(m, m', j);
    }
    hide SlotsOk, BitsOk, InodeOk;
  }

  lemma FreeAddrSeen(m: Image, i: nat, ind: nat, ib: Block)
    requires m.Shape() && i < |m.itab| && ind == m.itab[i].addrs[NDIRECT] && m.sb.data <= ind < m.sb.size
    ensures m.sb.BBlock(ind) < |m.blocks| && Seen(m, ind, ib).Shape()
    ensures ind < |FreeAddr(Seen(m, ind, ib), i, NDIRECT).blocks|
    ensures FreeAddr(m, i, NDIRECT) == Seen(FreeAddr(Seen(m, ind, ib), i, NDIRECT), ind, m.blocks[ind])
  {
    BBlockRange(m.sb, ind);
    var mg := Seen(m, ind, ib);
    assert mg.blocks[m.sb.BBlock(ind)] == m.blocks[m.sb.BBlock(ind)];
    var x := SetBit(m.sb, mg.blocks, ind, false);
    var y := SetBit(m.sb, m.blocks, ind, false);
    assert y[ind] == m.blocks[ind];
    assert forall b :: 0 <= b < |x| && b != ind ==> x[b] == y[b];
    hide SetBit;
    assert y == x[ind := m.blocks[ind]];
  }

  /** Freeing the indirect block once its entries are freed. */
  lemma IndirectStep(m: Image, own: Owners, i: nat, ind: nat, ib: Block)
    requires m.Shape() && i < |m.itab| && ind == m.itab[i].addrs[NDIRECT] && 0 < ind < |m.blocks|
    requires InvBut(Seen(m, ind, ib), own, i)
    requires forall j :: 0 <= j < NINDIRECT ==> Word(ib, j) == 0
    ensures m.sb.data <= ind && m.sb.BBlock(ind) < |m.blocks| && Bit(m.sb, m.blocks, ind)
    ensures ind in own && own[ind] == InSlot(Slot(i, NDIRECT))
    ensures InvBut(FreeAddr(m, i, NDIRECT), own - {ind}, i)
  {
    var mg := Seen(m, ind, ib);
    hide SlotsOk, OwnersOk, BitsOk, InodeOk, SetBit, Bit, Word;
    forall l | NDIRECT < l < SLOTS
      ensures SlotAddr(mg, i, l) == 0
    {
      SeenEntry(m, i, ind, ib, l - NDIRECT - 1);
    }
    SlotBit(mg, own, i, NDIRECT);
    SeenBits(m, ind, ib, ind);
    FreeAddrUnlinks(mg, own, i, NDIRECT);
    var mg' := FreeAddr(mg, i, NDIRECT);
    UnlinkedKeeps(mg, mg', own, i, NDIRECT, ind);
    FreeAddrSeen(m, i, ind, ib);
    FreeContent(mg', own - {ind}, i, ind, m.blocks[ind]);
  }

  /** The indirect half of itrunc. */
  method FreeIndirect(fs: FileSystem, i: nat, ghost m0: Image, ghost own0: Owners, ghost log0: set<nat>)
    returns (panicked: bool)
    requires InvBut(fs.View(), fs.own, i) && Truncating(m0, own0, fs.View(), fs.own, i) && i < |fs.itab|
    requires forall l :: 0 <= l < NDIRECT ==> fs.itab[i].addrs[l] == 0
    requires fs.logged == log0 + FreedMaps(fs.sb, own0, fs.own)
    modifies fs`blocks, fs`itab, fs`logged, fs`own
    ensures !panicked && InvBut(fs.View(), fs.own, i) && Truncating(m0, own0, fs.View(), fs.own, i)
    ensures forall l :: 0 <= l <= NDIRECT ==> fs.itab[i].addrs[l] == 0
    ensures fs.logged == log0 + FreedMaps(fs.sb, own0, fs.own)
  {
    hide SlotsOk, OwnersOk, BitsOk, InodeOk, Bit, SetBit, SetWord, Word, FreedMaps;
    var ind := fs.itab[i].addrs[NDIRECT];
    if ind != 0 {
      IndirectHome(fs.View(), fs.own, i);
      ghost var ib;
      panicked, ib := FreeEntries(fs, i, ind, m0, own0, log0);
      IndirectStep(fs.View(), fs.own, i, ind, ib);
      FreedOne(fs.sb, own0, fs.own, i, ind);
      ClearOnlyMaps(fs.sb, m0.blocks, fs.blocks, ind);
      panicked := fs.Bfree(ind);
      if panicked {
        return;
      }
      fs.itab := fs.itab[i := fs.itab[i].(addrs := fs.itab[i].addrs[NDIRECT := 0])];
      fs.own := fs.own - {ind};
    }
    panicked := false;
  }

  const NO_ADDRS: seq<nat> := [0, 0, 0, 0, 0, 0, 0, 0, 0, 0, 0, 0, 0]

  /** Truncation: inode i, now of type typ, is empty, exactly its blocks are free again, and every other
      file and inode is the same. */
  ghost predicate Truncated(m0: Image, own0: Owners, m: Image, own: Owners, i: nat, typ: nat)
    requires m0.Shape() && m.Shape() && i < |m0.itab| && m.sb == m0.sb
  {
    && m.itab[i] == m0.itab[i].(typ := typ, size := 0, addrs := NO_ADDRS)
    && (forall j :: 0 <= j < |m0.itab| && j != i ==> m.itab[j] == m0.itab[j] && Contents(m, j) == Contents(m0, j))
    && (forall a :: a in own <==> a in own0 && !(own0[a].InSlot? && own0[a].slot.inum == i))
    && (forall a :: 0 <= a < m.sb.size && m.sb.BBlock(a) < |m.blocks| ==>
          (Bit(m.sb, m.blocks, a) <==>
           Bit(m.sb, m0.blocks, a) && !(a in own0 && own0[a].InSlot? && own0[a].slot.inum == i)))
  }

  lemma EmptySlots(m: Image, i: nat, k: nat)
    requires m.Shape() && i < |m.itab| && k < SLOTS && forall l :: 0 <= l <= NDIRECT ==> m.itab[i].addrs[l] == 0
    ensures SlotAddr(m, i, k) == 0
  {
  }

  /** With every pointer gone and the size zero, the image is sound again. */
  lemma TruncFinish(m: Image, own: Owners, i: nat)
    requires InvBut(m, own, i) && i < |m.itab| && forall l :: 0 <= l <= NDIRECT ==> m.itab[i].addrs[l] == 0
    ensures Inv(SetSize(m, i, 0), own) && SameSlots(m, SetSize(m, i, 0))
  {
    var m' := SetSize(m, i, 0);
    SlotsFrame(m, m');
    SameSlotsOk(m, m', own);
    SameBits(m, m', own, own);
    hide SlotsOk, BitsOk;
    forall j | 0 <= j < |m.itab|
      ensures InodeOk(m', j)
    {
      if j != i {
        SameInodeOk(m, m', j);
      }
    }
  }

  /** What is no longer owned is exactly what i owned. */
  lemma ReleasedAll(m0: Image, own0: Owners, m: Image, own: Owners, i: nat)
    requires InvBut(m, own, i) && Truncating(m0, own0, m, own, i)
    requires forall l :: 0 <= l <= NDIRECT ==> m.itab[i].addrs[l] == 0
    ensures forall a :: a in own <==> a in own0 && !(own0[a].InSlot? && own0[a].slot.inum == i)
  {
    forall a | a in own
      ensures !(own[a].InSlot? && own[a].slot.inum == i)
    {
      if own[a].InSlot? && own[a].slot.inum == i {
        EmptySlots(m, i, own[a].slot.k);
        assert false;
      }
    }
  }

  lemma OthersKeepBlocks(m0: Image, own0: Owners, m: Image, own: Owners, i: nat, j: nat, bn: nat)
    requires Inv(m0, own0) && InvBut(m, own, i) && Truncating(m0, own0, m, own, i)
    requires j < |m0.itab| && j != i && bn < MAXFILE && BlockAddr(m0, j, bn) != 0
    ensures KeptBlock(m0, m, j, bn)
  {
    FileBlockOwned(m0, own0, j, bn);
    var a := BlockAddr(m0, j, bn);
    assert a in own && own[a] == own0[a];
  }

  lemma OthersKeepContents(m0: Image, own0: Owners, m: Image, own: Owners, i: nat, j: nat)
    requires Inv(m0, own0) && InvBut(m, own, i) && Truncating(m0, own0, m, own, i) && j < |m0.itab| && j != i
    ensures Contents(m, j) == Contents(m0, j)
  {
    assert InodeOk(m0, j);
    forall o | 0 <= o < m0.itab[j].size
      ensures ByteAt(m, j, o) == ByteAt(m0, j, o)
    {
      FileBlocksMapped(m0, own0, j, o);
      OthersKeepBlocks(m0, own0, m, own, i, j, o / BSIZE);
      FileAddrRange(m0, own0, j, o / BSIZE);
    }
  }

  lemma TruncBits(m0: Image, own0: Owners, m: Image, own: Owners, i: nat, a: nat)
    requires Inv(m0, own0) && Inv(m, own) && m.sb == m0.sb && a < m.sb.size
    requires forall b :: b in own <==> b in own0 && !(own0[b].InSlot? && own0[b].slot.inum == i)
    ensures m.sb.BBlock(a) < |m.blocks|
    ensures Bit(m.sb, m.blocks, a) <==>
            Bit(m.sb, m0.blocks, a) && !(a in own0 && own0[a].InSlot? && own0[a].slot.inum == i)
  {
    hide SlotsOk, InodesOk, Bit, Super.BBlock;
  }

  lemma SizeKeepsContents(m: Image, i: nat, j: nat)
    requires m.Shape() && i < |m.itab| && j < |m.itab| && j != i && SameSlots(m, SetSize(m, i, 0))
    ensures Contents(SetSize(m, i, 0), j) == Contents(m, j)
  {
    forall o | 0 <= o < |Contents(m, j)|
      ensures ByteAt(SetSize(m, i, 0), j, o) == ByteAt(m, j, o)
    {
      SameBlockAddr(m, SetSize(m, i, 0), j, o / BSIZE);
    }
  }

  /** The last two steps of itrunc, from m1 with every pointer gone to m3 on disk. */
  lemma TruncResult(m0: Image, own0: Owners, m1: Image, own: Owners, m3: Image, i: nat)
    requires Inv(m0, own0) && InvBut(m1, own, i) && Truncating(m0, own0, m1, own, i)
    requires forall l :: 0 <= l <= NDIRECT ==> m1.itab[i].addrs[l] == 0
    requires Inv(m3, own) && Preserved(SetSize(m1, i, 0), m3) && m3.itab == SetSize(m1, i, 0).itab
    ensures Truncated(m0, own0, m3, own, i, m0.itab[i].typ)
  {
    var m2 := SetSize(m1, i, 0);
    TruncFinish(m1, own, i);
    ReleasedAll(m0, own0, m1, own, i);
    hide SlotsOk, OwnersOk, BitsOk, InodesOk, InodeOk, Preserved, SameSlots, Contents, OnlyMaps;
    assert m3.itab[i].addrs == NO_ADDRS;
    forall j | 0 <= j < |m0.itab| && j != i
      ensures m3.itab[j] == m0.itab[j] && Contents(m3, j) == Contents(m0, j)
    {
      OthersKeepContents(m0, own0, m1, own, i, j);
      SizeKeepsContents(m1, i, j);
      PreservedContents(m2, own, m3, j);
    }
    forall a | 0 <= a < m3.sb.size && m3.sb.BBlock(a) < |m3.blocks|
      ensures Bit(m3.sb, m3.blocks, a) <==>
                Bit(m3.sb, m0.blocks, a) && !(a in own0 && own0[a].InSlot? && own0[a].slot.inum == i)
    {
      TruncBits(m0, own0, m3, own, i, a);
    }
  }

  /** iupdate brings the disk inode up to date when no other inode block has changed. */
  lemma SyncOne(m0: Image, m: Image, i: nat)
    requires m0.Shape() && Synced(m0) && m.Shape() && m.sb == m0.sb && i < |m.itab|
    requires SameInodes(m.sb, m0.blocks, m.blocks) && SameButOne(m0.itab, m.itab, i)
    ensures m.sb.IBlock(i) < |m.blocks|
    ensures m.(blocks := SetDinode(m.sb, m.blocks, i, m.itab[i])).Shape()
    ensures Synced(m.(blocks := SetDinode(m.sb, m.blocks, i, m.itab[i])))
  {
    InodeBlockRange(m.sb, i);
    forall j | 0 <= j < |m.itab| && j != i
      ensures m.sb.IBlock(j) < |m.blocks| && Dinode(m.sb, m.blocks, j) == m.itab[j]
    {
      InodeBlockRange(m.sb, j);
      assert m.blocks[m.sb.IBlock(j)] == m0.blocks[m0.sb.IBlock(j)];
    }
    UpdateSyncs(m, i);
  }

  /** iupdate after a change to inode i, and to map blocks only, since the inodes were last in step. */
  method Flush(fs: FileSystem, i: nat, ghost m0: Image)
    requires fs.Valid() && m0.Shape() && Synced(m0) && m0.sb == fs.sb && i < |fs.itab|
    requires SameInodes(fs.sb, m0.blocks, fs.blocks) && SameButOne(m0.itab, fs.itab, i)
    modifies fs`blocks, fs`logged
    ensures fs.Valid() && Synced(fs.View()) && Preserved(old(fs.View()), fs.View())
    ensures fs.logged == old(fs.logged) + {fs.sb.IBlock(i)}
  {
    hide SlotsOk, OwnersOk, BitsOk, InodesOk, Synced, SetDinode, Preserved, SameSlots, SameInodes, SameButOne;
    SyncOne(m0, fs.View(), i);
    Iupdate(fs, i);
  }

  /** itrunc: never panics, frees exactly the inode's own blocks, and logs exactly the free map blocks of
      these and the inode's block. */
  method Itrunc(fs: FileSystem, i: nat) returns (panicked: bool)
    requires fs.Valid() && Synced(fs.View()) && i < |fs.itab|
    modifies fs`blocks, fs`itab, fs`logged, fs`own
    ensures !panicked && fs.Valid() && Synced(fs.View())
    ensures Truncated(old(fs.View()), old(fs.own), fs.View(), fs.own, i, old(fs.itab)[i].typ)
    ensures fs.logged == old(fs.logged) + FileMaps(fs.sb, old(fs.own), i) + {fs.sb.IBlock(i)}
  {
    ghost var m0, own0 := fs.View(), fs.own;
    hide SlotsOk, OwnersOk, BitsOk, InodesOk, InodeOk, Synced, SetDinode, Truncated, FreedMaps, FileMaps;
    panicked := FreeDirect(fs, i);
    if panicked {
      return;
    }
    panicked := FreeIndirect(fs, i, m0, own0, old(fs.logged));
    if panicked {
      return;
    }
    ghost var m1 := fs.View();
    TruncFinish(m1, fs.own, i);
    fs.itab := fs.itab[i := fs.itab[i].(size := 0)];
    assert fs.View() == SetSize(m1, i, 0);
    Flush(fs, i, m0);
    TruncResult(m0, own0, m1, fs.own, fs.View(), i);
    ReleasedAll(m0, own0, m1, fs.own, i);
    FreedAll(fs.sb, own0, fs.own, i);
  }

  function Renamed(m: Image, i: nat, d: Inode): (m': Image)
    requires i < |m.itab|
  {
    m.(itab := m.itab[i := d])
  }

  /** An empty inode may become any other empty inode. */
  lemma EmptyReplace(m: Image, own: Owners, i: nat, d: Inode)
    requires Inv(m, own) && i < |m.itab| && m.itab[i].addrs == NO_ADDRS && m.itab[i].size == 0
    requires d.Valid() && d.size == 0 && d.addrs == NO_ADDRS
    ensures Inv(Renamed(m, i, d), own) && Preserved(m, Renamed(m, i, d))
  {
    var m' := Renamed(m, i, d);
    SlotsFrame(m, m');
    SameSlotsOk(m, m', own);
    SameBits(m, m', own, own);
    hide SlotsOk, BitsOk, SlotAddr;
    forall j | 0 <= j < |m.itab|
      ensures InodeOk(m', j)
    {
      assert InodeOk(m, j);
      if j != i {
        SameInodeOk(m, m', j);
      }
    }
    hide OwnersOk, InodesOk, SameSlots;
    PreservedBy(m, m', own);
  }

  /** Giving an empty inode a new type, on disk too, changes no file. */
  lemma ReplaceResult(m: Image, own: Owners, i: nat, d: Inode, m': Image)
    requires Inv(m, own) && i < |m.itab| && m.itab[i].addrs == NO_ADDRS && m.itab[i].size == 0
    requires d.Valid() && d.size == 0 && d.addrs == NO_ADDRS
    requires m'.Shape() && m'.itab == m.itab[i := d] && Preserved(Renamed(m, i, d), m')
    ensures forall j :: 0 <= j < |m.itab| ==> Contents(m', j) == Contents(m, j)
  {
    EmptyReplace(m, own, i, d);
    hide Inv, Preserved, Contents;
    assert m.Shape();
    forall j | 0 <= j < |m.itab|
      ensures Contents(m', j) == Contents(m, j)
    {
      PreservedContents(m, own, Renamed(m, i, d), j);
      PreservedContents(Renamed(m, i, d), own, m', j);
    }
  }

  /** Replace an empty inode in memory and on disk: ip->type = 0; iupdate(ip), or ialloc's memset. */
  method PutEmpty(fs: FileSystem, i: nat, d: Inode)
    requires fs.Valid() && Synced(fs.View()) && i < |fs.itab|
    requires fs.itab[i].addrs == NO_ADDRS && fs.itab[i].size == 0
    requires d.Valid() && d.size == 0 && d.addrs == NO_ADDRS
    modifies fs`blocks, fs`itab, fs`logged
    ensures fs.Valid() && Synced(fs.View()) && fs.itab == old(fs.itab)[i := d]
    ensures fs.logged == old(fs.logged) + {fs.sb.IBlock(i)}
    ensures forall j :: 0 <= j < |fs.itab| ==> Contents(fs.View(), j) == Contents(old(fs.View()), j)
  {
    ghost var m0 := fs.View();
    hide SlotsOk, OwnersOk, BitsOk, InodesOk, Synced, Preserved, SameSlots, Contents, SetDinode, SlotAddr;
    EmptyReplace(m0, fs.own, i, d);
    fs.itab := fs.itab[i := d];
    assert fs.View() == Renamed(m0, i, d);
    Flush(fs, i, m0);
    ReplaceResult(m0, fs.own, i, d, fs.View());
  }

  lemma FreeResult(m0: Image, own0: Owners, m1: Image, m2: Image, own: Owners, i: nat, t: nat)
    requires Inv(m0, own0) && Inv(m1, own) && Inv(m2, own) && m1.sb == m0.sb && m2.sb == m0.sb && i < |m0.itab|
    requires Truncated(m0, own0, m1, own, i, t) && m2.itab == m1.itab[i := m1.itab[i].(typ := 0)]
    requires forall j :: 0 <= j < |m1.itab| ==> Contents(m2, j) == Contents(m1, j)
    ensures Truncated(m0, own0, m2, own, i, 0)
  {
    hide SlotsOk, OwnersOk, BitsOk, InodesOk, Contents, Bit;
    forall a | 0 <= a < m2.sb.size && m2.sb.BBlock(a) < |m2.blocks|
      ensures Bit(m2.sb, m2.blocks, a) <==>
                Bit(m2.sb, m0.blocks, a) && !(a in own0 && own0[a].InSlot? && own0[a].slot.inum == i)
    {
      TruncBits(m0, own0, m2, own, i, a);
    }
  }

  /** iput: the last reference to a loaded inode without links frees it. */
  method Iput(fs: FileSystem, i: nat, ref: nat, valid: bool) returns (panicked: bool, ref': nat)
    requires fs.Valid() && Synced(fs.View()) && i < |fs.itab| && ref > 0
    modifies fs`blocks, fs`itab, fs`logged, fs`own
    ensures !panicked && fs.Valid() && Synced(fs.View()) && ref' == ref - 1
    ensures if ref == 1 && valid && old(fs.itab)[i].nlink == 0
            then Truncated(old(fs.View()), old(fs.own), fs.View(), fs.own, i, 0)
                 && fs.logged == old(fs.logged) + FileMaps(fs.sb, old(fs.own), i) + {fs.sb.IBlock(i)}
            else fs.View() == old(fs.View()) && fs.own == old(fs.own) && fs.logged == old(fs.logged)
  {
    hide SlotsOk, OwnersOk, BitsOk, InodesOk, Synced, Contents, FileMaps;
    ref' := ref - 1;
    panicked := false;
    if ref == 1 && valid && fs.itab[i].nlink == 0 {
      ghost var m0, own0 := fs.View(), fs.own;
      panicked := Itrunc(fs, i);
      if panicked {
        return;
      }
      ghost var m1 := fs.View();
      PutEmpty(fs, i, fs.itab[i].(typ := 0));
      FreeResult(m0, own0, m1, fs.View(), fs.own, i, m0.itab[i].typ);
    }
  }

  /** A truncation by itself takes no more than a transaction may log exactly if its free map blocks are
      fewer than that, as they are on every disk with so few of them. */
  lemma TruncationFits(m: Image, own: Owners, i: nat)
    requires Inv(m, own) && i < |m.itab|
    ensures |FileMaps(m.sb, own, i) + {m.sb.IBlock(i)}| == |FileMaps(m.sb, own, i)| + 1
    ensures |FileMaps(m.sb, own, i) + {m.sb.IBlock(i)}| <= MAXOPBLOCKS <==> |FileMaps(m.sb, own, i)| < MAXOPBLOCKS
    ensures |FileMaps(m.sb, own, i)| <= m.sb.data - m.sb.bmapstart
  {
    InodeBlockRange(m.sb, i);
    var maps := FileMaps(m.sb, own, i);
    var all := Range(m.sb.bmapstart, m.sb.data);
    forall b | b in maps
      ensures b in all
    {
      var a :| a in own && own[a].InSlot? && own[a].slot.inum == i && m.sb.BBlock(a) == b;
      BBlockRange(m.sb, a);
    }
    RangeSize(m.sb.bmapstart, m.sb.data);
    SubsetSize(maps, all);
  }

  /** w is what the truncation of some file logs, and fits. */
  ghost predicate TruncLog(w: set<nat>) {
    exists m: Image, own: Owners, i: nat :: TruncatesWith(w, m, own, i)
  }

  ghost predicate TruncatesWith(w: set<nat>, m: Image, own: Owners, i: nat) {
    && Inv(m, own) && i < |m.itab| && w == FileMaps(m.sb, own, i) + {m.sb.IBlock(i)}
    && |FileMaps(m.sb, own, i)| < MAXOPBLOCKS
  }

  lemma TruncLogFits(w: set<nat>)
    requires TruncLog(w)
    ensures |w| <= MAXOPBLOCKS
  {
    hide Inv, FileMaps;
    var m: Image, own: Owners, i: nat :| TruncatesWith(w, m, own, i);
    TruncationFits(m, own, i);
  }

  /** The transaction in which fileclose drops its reference: begin_op, iput, end_op. It logs more blocks
      than it has reserved exactly if the last reference goes and the file's free map blocks are too many. */
  method CloseInode(fs: FileSystem, i: nat, ref: nat, valid: bool) returns (panicked: bool, ref': nat)
    requires fs.Valid() && Synced(fs.View()) && i < |fs.itab| && ref > 0
    modifies fs`blocks, fs`itab, fs`logged, fs`own
    ensures !panicked && fs.Valid() && Synced(fs.View()) && ref' == ref - 1
    ensures var frees := ref == 1 && valid && old(fs.itab)[i].nlink == 0;
            && (frees ==> Truncated(old(fs.View()), old(fs.own), fs.View(), fs.own, i, 0))
            && (!frees ==> fs.View() == old(fs.View()) && fs.logged == {})
            && (|fs.logged| > MAXOPBLOCKS <==> frees && |FileMaps(fs.sb, old(fs.own), i)| >= MAXOPBLOCKS)
            && (frees && |FileMaps(fs.sb, old(fs.own), i)| < MAXOPBLOCKS ==> TruncLog(fs.logged))
  {
    hide Inv, Settled, Synced, Truncated, FileMaps;
    fs.BeginOp();
    ghost var m, own := fs.View(), fs.own;
    InvShape(m, own);
    TruncationFits(m, own, i);
    panicked, ref' := Iput(fs, i, ref, valid);
    InvShape(fs.View(), fs.own);
    assert {} + FileMaps(fs.sb, own, i) + {fs.sb.IBlock(i)} == FileMaps(fs.sb, own, i) + {fs.sb.IBlock(i)};
    if ref == 1 && valid && m.itab[i].nlink == 0 && |FileMaps(fs.sb, own, i)| < MAXOPBLOCKS {
      assert TruncatesWith(fs.logged, m, own, i);
    }
  }

  /** A free inode is empty. */
  lemma FreeInodeEmpty(m: Image, own: Owners, i: nat)
    requires Inv(m, own) && Synced(m) && i < |m.itab|
    ensures m.sb.IBlock(i) < |m.blocks| && Dinode(m.sb, m.blocks, i).typ == m.itab[i].typ
    ensures m.itab[i].typ == 0 ==> m.itab[i].addrs == NO_ADDRS && m.itab[i].size == 0
  {
    hide Dinode, SlotsOk, OwnersOk, BitsOk;
    assert InodeOk(m, i);
  }

  /** ialloc: takes the first free inode after number 0, or reports that there is none; no file
      changes, and no block is taken. */
  method Ialloc(fs: FileSystem, typ: nat) returns (inum: nat)
    requires fs.Valid() && Synced(fs.View()) && typ < 0x1_0000
    modifies fs`blocks, fs`itab, fs`logged
    ensures fs.Valid() && Synced(fs.View())
    ensures inum == 0 ==> fs.View() == old(fs.View()) && forall j :: 1 <= j < |fs.itab| ==> fs.itab[j].typ != 0
    ensures inum != 0 ==> inum < |fs.itab| && old(fs.itab)[inum].typ == 0
                          && forall j :: 1 <= j < inum ==> old(fs.itab)[j].typ != 0
    ensures inum != 0 ==> fs.itab == old(fs.itab)[inum := Inode(typ, 0, 0, 0, 0, NO_ADDRS)]
    ensures fs.logged == old(fs.logged) + (if inum == 0 then {} else {fs.sb.IBlock(inum)})
    ensures forall j :: 0 <= j < |fs.itab| ==> Contents(fs.View(), j) == Contents(old(fs.View()), j)
  {
    hide SlotsOk, OwnersOk, BitsOk, InodesOk, Synced, Contents, Dinode;
    inum := 1;
    while inum < fs.sb.ninodes
      invariant 1 <= inum && fs.View() == old(fs.View()) && fs.logged == old(fs.logged)
      invariant forall j :: 1 <= j < inum && j < |fs.itab| ==> fs.itab[j].typ != 0
    {
      FreeInodeEmpty(fs.View(), fs.own, inum);
      if Dinode(fs.sb, fs.blocks, inum).typ == 0 {
        PutEmpty(fs, inum, Inode(typ, 0, 0, 0, 0, NO_ADDRS));
        return;
      }
      inum := inum + 1;
    }
    inum := 0;
  }
}
