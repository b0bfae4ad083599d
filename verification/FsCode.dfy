/** The allocator and the block map of fs.c as code. */
module FsCode {
  import opened Bytes
  import opened Blocks
  import opened FsLayout
  import opened FsImage
  import opened FsFile

  /** Bit b + bi lies in the free map block of b, at byte bi / 8. */
  lemma BitIndex(sb: Super, b: nat, bi: nat)
    requires b % BPB == 0 && bi < BPB
    ensures sb.BBlock(b + bi) == sb.BBlock(b)
    ensures (b + bi) % BPB == bi && (b + bi) % 8 == bi % 8
  {
    assert (b + bi) / BPB == b / BPB;
  }

  lemma NextMap(b: nat)
    requires b % BPB == 0
    ensures (b + BPB) % BPB == 0
  {
    assert b == b / BPB * BPB;
    assert (b + BPB) / BPB == b / BPB + 1;
  }

  ghost predicate Settled(own: Owners) {
    forall a :: a in own ==> own[a].InSlot?
  }

  /** The inode blocks are the same in x and y. */
  ghost predicate SameInodes(sb: Super, x: seq<Block>, y: seq<Block>) {
    |x| == |y| && forall a :: 0 <= a < sb.bmapstart && a < |x| ==> y[a] == x[a]
  }

  /** How many free blocks bmap takes to map block bn of file i. */
  function Cost(m: Image, i: nat, bn: nat): (n: nat)
    requires m.Shape() && i < |m.itab| && bn < MAXFILE
  {
    if BlockAddr(m, i, bn) != 0 then 0 else if bn >= NDIRECT && m.itab[i].addrs[NDIRECT] == 0 then 2 else 1
  }

  /** From own to own', cost blocks were taken; or fewer, if that is all there were. */
  ghost predicate Paid(own: Owners, own': Owners, cost: nat, done: bool) {
    if done then |own'| == |own| + cost else |own'| < |own| + cost
  }

  // ----- What the log covers -----

  /** x and y differ in the blocks s at most. */
  ghost predicate OnlyIn(x: seq<Block>, y: seq<Block>, s: set<nat>) {
    |y| == |x| && forall a :: 0 <= a < |x| && a !in s ==> y[a] == x[a]
  }

  /** No block changed hands from own to own'. */
  ghost predicate Extends(own: Owners, own': Owners) {
    forall a :: a in own ==> a in own' && own'[a] == own[a]
  }

  /** Slot k is the indirect pointer, or holds a file block from lo up to hi. */
  predicate InScope(k: nat, lo: nat, hi: nat) {
    k == NDIRECT || lo <= (if k < NDIRECT then k else k - 1) < hi
  }

  /** Of the blocks that had an owner, those logged from log to log' are in scope in inode i. */
  ghost predicate Scoped(own: Owners, log: set<nat>, log': set<nat>, i: nat, lo: nat, hi: nat) {
    && log <= log'
    && forall a :: a in log' && a !in log && a in own ==>
         own[a].InSlot? && own[a].slot.inum == i && InScope(own[a].slot.k, lo, hi)
  }

  /** What mapping a block of file i logs: new blocks, their free map blocks and the indirect block, and
      these are all it changes. */
  ghost predicate MapLog(own: Owners, own': Owners, log: set<nat>, log': set<nat>, x: seq<Block>, y: seq<Block>,
                         i: nat) {
    Extends(own, own') && Scoped(own, log, log', i, 0, 0) && OnlyIn(x, y, log')
  }

  lemma ScopedTrans(own: Owners, own1: Owners, log: set<nat>, log1: set<nat>, log2: set<nat>, i: nat,
                    lo: nat, mid: nat, from: nat, hi: nat)
    requires Extends(own, own1) && Scoped(own, log, log1, i, lo, mid) && Scoped(own1, log1, log2, i, from, hi)
    requires from >= hi || (lo <= from <= mid <= hi)
    ensures Scoped(own, log, log2, i, lo, if from >= hi then mid else hi)
  {
  }

  lemma MapLogTrans(own: Owners, own1: Owners, own2: Owners, log: set<nat>, log1: set<nat>, log2: set<nat>,
                    x: seq<Block>, y: seq<Block>, z: seq<Block>, i: nat)
    requires MapLog(own, own1, log, log1, x, y, i) && MapLog(own1, own2, log1, log2, y, z, i)
    ensures MapLog(own, own2, log, log2, x, z, i)
  {
    ScopedTrans(own, own1, log, log1, log2, i, 0, 0, 0, 0);
  }

  lemma MapLogKeys(own: Owners, own': Owners, log: set<nat>, log': set<nat>, x: seq<Block>, y: seq<Block>, i: nat)
    requires MapLog(own, own', log, log', x, y, i)
    ensures own.Keys <= own'.Keys && log <= log'
  {
  }

  lemma MapLogRefl(own: Owners, log: set<nat>, x: seq<Block>, i: nat)
    ensures MapLog(own, own, log, log, x, x, i)
  {
  }

  /** A block that balloc hands out: neither it nor its free map block had an owner. */
  lemma AllocMapLog(m: Image, own: Owners, b: nat, log: set<nat>, i: nat)
    requires Inv(m, own) && m.sb.data <= b < m.sb.size && m.sb.BBlock(b) < |m.blocks| && b !in own
    ensures MapLog(own, own[b := Floating], log, log + {m.sb.BBlock(b), b}, m.blocks, AllocBlocks(m.sb, m.blocks, b), i)
  {
    hide SlotsOk, BitsOk, InodesOk;
    BBlockRange(m.sb, b);
    assert m.sb.BBlock(b) !in own;
  }

  /** Giving the waiting block its slot does not disturb this. */
  lemma MapLogLink(own: Owners, own1: Owners, log: set<nat>, log1: set<nat>, x: seq<Block>, y: seq<Block>, i: nat,
                   b: nat, o: Owner)
    requires MapLog(own, own1, log, log1, x, y, i) && b !in own
    ensures MapLog(own, own1[b := o], log, log1, x, y, i)
  {
  }

  lemma MapLogEntry(own: Owners, log: set<nat>, x: seq<Block>, y: seq<Block>, i: nat, ind: nat)
    requires ind in own && own[ind] == InSlot(Slot(i, NDIRECT))
    requires |y| == |x| && forall a :: 0 <= a < |x| && a != ind ==> y[a] == x[a]
    ensures MapLog(own, own, log, log + {ind}, x, y, i)
  {
  }

  class FileSystem {
    const sb: Super
    /** The block store, and the inodes in memory. */
    var blocks: seq<Block>
    var itab: seq<Inode>
    /** Which slot holds which block, and the blocks passed to log_write in this transaction. */
    ghost var own: Owners
    ghost var logged: set<nat>
    /** Blocks whose buffer was changed without a log_write. */
    ghost var scribbled: set<nat>

    constructor (m: Image, ghost own: Owners)
      ensures View() == m && this.own == own && logged == {} && scribbled == {}
    {
      sb, blocks, itab := m.sb, m.blocks, m.itab;
      this.own, logged, scribbled := own, {}, {};
    }

    ghost function View(): (m: Image)
      reads this
    {
      Image(sb, blocks, itab)
    }

    ghost predicate Valid()
      reads this
    {
      Inv(View(), own) && Settled(own)
    }

    /** log_write of a buffer that now holds v. */
    method LogWrite(b: nat, v: Block)
      requires b < |blocks|
      modifies this`blocks, this`logged
      ensures blocks == old(blocks)[b := v] && logged == old(logged) + {b}
    {
      blocks := blocks[b := v];
      logged := logged + {b};
    }

    /** begin_op: nothing has been passed to log_write yet. */
    method BeginOp()
      modifies this`logged
      ensures logged == {}
    {
      logged := {};
    }

    /** A buffer changed in the cache and released without log_write. */
    method Scribble(b: nat, v: Block)
      requires b < |blocks|
      modifies this`blocks, this`scribbled
      ensures blocks == old(blocks)[b := v] && scribbled == old(scribbled) + {b}
    {
      blocks := blocks[b := v];
      scribbled := scribbled + {b};
    }

    /** balloc: the lowest free block, marked and zeroed, or 0 if there is none. On a disk where block 0
        is free the two cannot be told apart by the result. */
    method Balloc() returns (r: nat)
      requires sb.Valid() && |blocks| == sb.size
      requires forall a :: 0 <= a < sb.size ==> sb.BBlock(a) < sb.size
      modifies this`blocks, this`logged
      ensures if forall c :: 0 <= c < sb.size ==> Bit(sb, old(blocks), c)
              then r == 0 && blocks == old(blocks) && logged == old(logged)
              else
                && r < sb.size && !Bit(sb, old(blocks), r) && (forall c :: 0 <= c < r ==> Bit(sb, old(blocks), c))
                && blocks == AllocBlocks(sb, old(blocks), r) && logged == old(logged) + {sb.BBlock(r), r}
    {
      hide Bit, SetBit;
      var b := 0;
      while b < sb.size
        invariant b % BPB == 0
        invariant blocks == old(blocks) && logged == old(logged)
        invariant forall c :: 0 <= c < b && c < sb.size ==> Bit(sb, blocks, c)
        decreases sb.size + BPB - b
      {
        var bi := ScanMap(b);
        if bi < BPB && b + bi < sb.size {
          Mark(b + bi);
          LogWrite(b + bi, ZeroBlock());
          return b + bi;
        }
        NextMap(b);
        b := b + BPB;
      }
      r := 0;
    }

    /** balloc's inner loop: the first clear bit of b's free map block. */
    method ScanMap(b: nat) returns (bi: nat)
      requires sb.Valid() && |blocks| == sb.size && b % BPB == 0 && b < sb.size
      requires forall a :: 0 <= a < sb.size ==> sb.BBlock(a) < sb.size
      ensures bi <= BPB
      ensures forall c :: b <= c < b + bi && c < sb.size ==> Bit(sb, blocks, c)
      ensures bi < BPB && b + bi < sb.size ==> !Bit(sb, blocks, b + bi)
      ensures bi < BPB ==> b + bi <= sb.size
      ensures b + bi >= sb.size || bi == BPB || !Bit(sb, blocks, b + bi)
    {
      var bp := blocks[sb.BBlock(b)];
      bi := 0;
      while bi < BPB && b + bi < sb.size
        invariant 0 <= bi <= BPB && b + bi <= sb.size
        invariant forall c :: b <= c < b + bi && c < sb.size ==> Bit(sb, blocks, c)
      {
        BitIndex(sb, b, bi);
        if !BitOf(bp[bi / 8], bi % 8) {
          return;
        }
        bi := bi + 1;
      }
    }

    /** bp->data[bi/8] |= m; log_write(bp). */
    method Mark(b: nat)
      requires sb.BBlock(b) < |blocks|
      modifies this`blocks, this`logged
      ensures blocks == SetBit(sb, old(blocks), b, true) && logged == old(logged) + {sb.BBlock(b)}
    {
      var bp := blocks[sb.BBlock(b)];
      var bi := b % BPB;
      ModEight(b);
      LogWrite(sb.BBlock(b), bp[bi / 8 := ByteWithBit(bp[bi / 8], bi % 8, true)]);
    }

    /** bfree; true is the "freeing free block" panic. */
    method Bfree(b: nat) returns (panicked: bool)
      requires sb.Valid() && |blocks| == sb.size && sb.BBlock(b) < sb.size
      modifies this`blocks, this`logged
      ensures panicked <==> !Bit(sb, old(blocks), b)
      ensures panicked ==> blocks == old(blocks) && logged == old(logged)
      ensures !panicked ==> blocks == SetBit(sb, old(blocks), b, false) && logged == old(logged) + {sb.BBlock(b)}
    {
      hide BitOf, ByteWithBit;
      var bp := blocks[sb.BBlock(b)];
      var bi := b % BPB;
      ModEight(b);
      if !BitOf(bp[bi / 8], bi % 8) {
        return true;
      }
      LogWrite(sb.BBlock(b), bp[bi / 8 := ByteWithBit(bp[bi / 8], bi % 8, false)]);
      panicked := false;
    }
  
    /** balloc on a sound image: the new block belongs to nobody yet. */
    method Allocate(ghost i: nat) returns (b: nat)
      requires Valid()
      modifies this`blocks, this`logged, this`own
      ensures Inv(View(), own)
      ensures b == 0 ==> blocks == old(blocks) && logged == old(logged) && own == old(own) && Full(View())
      ensures b != 0 ==>
                && sb.data <= b < sb.size && b !in old(own) && own == old(own)[b := Floating]
                && blocks[b] == ZeroBlock() && logged == old(logged) + {sb.BBlock(b), b}
                && SameSlots(old(View()), View()) && Preserved(old(View()), View())
                && SameInodes(sb, old(blocks), blocks)
      ensures MapLog(old(own), own, old(logged), logged, old(blocks), blocks, i)
    {
      BallocReady(View(), own);
      hide Inv, SameSlots, Preserved, AllocBlocks, Full, SameInodes, Bit, MapLog;
      b := Balloc();
      if b == 0 {
        AllUsed(View());
        MapLogRefl(own, logged, blocks, i);
      } else {
        AllocAll(old(View()), own, b);
        AllocMapLog(old(View()), own, b, old(logged), i);
        own := own[b := Floating];
      }
    }

    /** ip->addrs[k] = b, b being a block just allocated. */
    method LinkAddr(i: nat, k: nat, b: nat)
      requires Inv(View(), own) && i < |itab| && itab[i].typ != 0 && k <= NDIRECT && itab[i].addrs[k] == 0
      requires b in own && own[b] == Floating && (k == NDIRECT ==> blocks[b] == ZeroBlock())
      modifies this`itab, this`own
      ensures Inv(View(), own) && own == old(own)[b := InSlot(Slot(i, k))]
      ensures View() == SetAddr(old(View()), i, k, b)
      ensures Linked(old(View()), View(), i, k, b) && Preserved(old(View()), View())
    {
      ghost var m := View();
      SetAddrLinks(m, i, k, b);
      LinkedKeeps(m, SetAddr(m, i, k, b), own, i, k, b);
      LinkedPreserves(m, SetAddr(m, i, k, b), own, i, k, b);
      itab := itab[i := itab[i].(addrs := itab[i].addrs[k := b])];
      own := own[b := InSlot(Slot(i, k))];
    }

    /** a[j] = b; log_write(bp), in i's indirect block. */
    method LinkEntry(i: nat, j: nat, b: nat)
      requires Inv(View(), own) && i < |itab| && itab[i].typ != 0 && j < NINDIRECT
      requires itab[i].addrs[NDIRECT] != 0 && SlotAddr(View(), i, NDIRECT + 1 + j) == 0
      requires b in own && own[b] == Floating
      modifies this`blocks, this`own, this`logged
      ensures Inv(View(), own) && own == old(own)[b := InSlot(Slot(i, NDIRECT + 1 + j))]
      ensures Linked(old(View()), View(), i, NDIRECT + 1 + j, b) && Preserved(old(View()), View())
      ensures logged == old(logged) + {itab[i].addrs[NDIRECT]}
      ensures forall a :: 0 <= a < sb.size && a != itab[i].addrs[NDIRECT] ==> blocks[a] == old(blocks)[a]
      ensures SameInodes(sb, old(blocks), blocks)
    {
      hide SetWord, SlotsOk, OwnersOk, BitsOk, InodesOk, Linked, Preserved, SlotAddr, SameInodes;
      LinkEntryKeeps(View(), own, i, j, b);
      var ind := itab[i].addrs[NDIRECT];
      LogWrite(ind, SetWord(blocks[ind], j, b));
      own := own[b := InSlot(Slot(i, NDIRECT + 1 + j))];
    }

    /** bmap: the address of block bn of file i, allocating it and, if need be, the indirect
        block. 0 only when the disk is full; it stops the machine beyond the largest file. */
    method Bmap(i: nat, bn: nat) returns (panicked: bool, addr: nat)
      requires Valid() && i < |itab| && itab[i].typ != 0
      modifies this`blocks, this`itab, this`own, this`logged
      ensures panicked <==> bn >= MAXFILE
      ensures panicked ==> View() == old(View()) && logged == old(logged) && own == old(own)
      ensures !panicked ==> Valid() && Mapping(old(View()), View(), i, bn, addr) && addr < sb.size
      ensures !panicked && addr == 0 ==> Full(View())
      ensures !panicked && BlockAddr(old(View()), i, bn) != 0 ==> View() == old(View()) && logged == old(logged)
      ensures !panicked && BlockAddr(old(View()), i, bn) == 0 && addr != 0 ==>
                blocks[addr] == ZeroBlock() && addr !in old(own) && addr in logged
      ensures !panicked ==> MapLog(old(own), own, old(logged), logged, old(blocks), blocks, i)
      ensures !panicked ==> logged <= old(logged) + AllocLog(sb, addr) + IndirectLog(old(View()), View(), i, bn)
      ensures !panicked ==> SameInodes(sb, old(blocks), blocks)
      ensures !panicked && (bn < NDIRECT || old(itab)[i].addrs[NDIRECT] != 0) ==>
                itab[i].addrs[NDIRECT] == old(itab)[i].addrs[NDIRECT]
      ensures !panicked ==> Paid(old(own), own, Cost(old(View()), i, bn), addr != 0)
    {
      hide SlotsOk, OwnersOk, BitsOk, InodesOk, SlotAddr, BlockAddr, Full, Mapping, Settled, MapLog;
      panicked, addr := false, 0;
      if bn < NDIRECT {
        FileAddrRange(View(), own, i, bn);
        addr := BmapDirect(i, bn);
        MappingAt(old(View()), View(), i, bn, addr);
      } else if bn - NDIRECT < NINDIRECT {
        FileAddrRange(View(), own, i, bn);
        addr := BmapIndirect(i, bn);
        MappingAt(old(View()), View(), i, bn, addr);
      } else {
        panicked := true;
      }
    }

    method BmapDirect(i: nat, bn: nat) returns (addr: nat)
      requires Valid() && i < |itab| && itab[i].typ != 0 && bn < NDIRECT
      modifies this`blocks, this`itab, this`own, this`logged
      ensures Valid() && Mapping(old(View()), View(), i, bn, addr)
      ensures BlockAddr(old(View()), i, bn) != 0 ==> View() == old(View()) && logged == old(logged)
      ensures addr == 0 ==> Full(View())
      ensures BlockAddr(old(View()), i, bn) == 0 && addr != 0 ==>
                addr < sb.size && blocks[addr] == ZeroBlock() && addr !in old(own) && addr in logged
      ensures MapLog(old(own), own, old(logged), logged, old(blocks), blocks, i)
      ensures logged <= old(logged) + AllocLog(sb, addr)
      ensures SameInodes(sb, old(blocks), blocks)
      ensures itab[i].addrs[NDIRECT] == old(itab)[i].addrs[NDIRECT]
      ensures Paid(old(own), own, Cost(old(View()), i, bn), addr != 0)
    {
      hide SlotsOk, OwnersOk, BitsOk, InodesOk, Preserved, SameSlots, Full, Mapping, MapLog;
      addr := itab[i].addrs[bn];
      MappingRefl(View(), i, bn);
      MapLogRefl(own, logged, blocks, i);
      if addr == 0 {
        ghost var m := View();
        addr := Allocate(i);
        if addr == 0 {
          return;
        }
        ghost var m1 := View();
        MappingSame(m, m1, i, bn);
        MapLogLink(old(own), own, old(logged), logged, m.blocks, blocks, i, addr, InSlot(Slot(i, bn)));
        LinkAddr(i, bn, addr);
        MappingLink(m1, View(), i, bn, bn, addr);
        MappingTrans(m, m1, View(), i, bn, 0, addr);
      }
    }

    /** Load the indirect block, allocating if necessary. */
    method Indirect(i: nat, ghost bn: nat) returns (ind: nat)
      requires Valid() && i < |itab| && itab[i].typ != 0 && NDIRECT <= bn < MAXFILE
      modifies this`blocks, this`itab, this`own, this`logged
      ensures Valid() && Mapping(old(View()), View(), i, bn, BlockAddr(old(View()), i, bn))
      ensures ind == itab[i].addrs[NDIRECT] && (ind == 0 ==> Full(View()))
      ensures ind != 0 ==> ind < sb.size
      ensures old(itab)[i].addrs[NDIRECT] != 0 ==> View() == old(View()) && logged == old(logged)
      ensures old(itab)[i].addrs[NDIRECT] == 0 ==> logged == old(logged) + AllocLog(sb, ind)
      ensures old(own).Keys <= own.Keys
      ensures MapLog(old(own), own, old(logged), logged, old(blocks), blocks, i)
      ensures |own| == |old(own)| + if old(itab)[i].addrs[NDIRECT] == 0 && ind != 0 then 1 else 0
      ensures SameInodes(sb, old(blocks), blocks)
    {
      hide SlotsOk, OwnersOk, BitsOk, InodesOk, Preserved, SameSlots, Full, Mapping, MapLog, SlotAddr, BlockAddr;
      ind := itab[i].addrs[NDIRECT];
      MappingRefl(View(), i, bn);
      MapLogRefl(own, logged, blocks, i);
      if ind == 0 {
        ghost var m := View();
        ind := Allocate(i);
        if ind == 0 {
          return;
        }
        ghost var m1 := View();
        MappingSame(m, m1, i, bn);
        MappingAt(m, m1, i, bn, BlockAddr(m, i, bn));
        MapLogLink(old(own), own, old(logged), logged, m.blocks, blocks, i, ind, InSlot(Slot(i, NDIRECT)));
        LinkAddr(i, NDIRECT, ind);
        MappingLink(m1, View(), i, bn, NDIRECT, ind);
        MappingTrans(m, m1, View(), i, bn, BlockAddr(m, i, bn), BlockAddr(m, i, bn));
      } else {
        IndirectOwned(View(), own, i);
      }
    }

    method BmapIndirect(i: nat, bn: nat) returns (addr: nat)
      requires Valid() && i < |itab| && itab[i].typ != 0 && NDIRECT <= bn < MAXFILE
      modifies this`blocks, this`itab, this`own, this`logged
      ensures Valid() && Mapping(old(View()), View(), i, bn, addr)
      ensures BlockAddr(old(View()), i, bn) != 0 ==> View() == old(View()) && logged == old(logged)
      ensures addr == 0 ==> Full(View())
      ensures BlockAddr(old(View()), i, bn) == 0 && addr != 0 ==>
                addr < sb.size && blocks[addr] == ZeroBlock() && addr !in old(own) && addr in logged
      ensures MapLog(old(own), own, old(logged), logged, old(blocks), blocks, i)
      ensures logged <= old(logged) + AllocLog(sb, addr) + IndirectLog(old(View()), View(), i, bn)
      ensures SameInodes(sb, old(blocks), blocks)
      ensures bn < NDIRECT || old(itab)[i].addrs[NDIRECT] != 0 ==> itab[i].addrs[NDIRECT] == old(itab)[i].addrs[NDIRECT]
      ensures Paid(old(own), own, Cost(old(View()), i, bn), addr != 0)
    {
      ghost var m := View();
      hide SlotsOk, OwnersOk, BitsOk, InodesOk, Preserved, SlotAddr, Full, Word, MapLog;
      if itab[i].addrs[NDIRECT] == 0 {
        NoIndirect(m, i, bn);
      }
      var ind := Indirect(i, bn);
      ghost var m1, own1, log1 := View(), own, logged;
      if ind == 0 {
        NoIndirect(m1, i, bn);
        return 0;
      }
      addr := Entry(i, bn, ind);
      MappingTrans(m, m1, View(), i, bn, BlockAddr(m, i, bn), addr);
      MapLogTrans(old(own), own1, own, old(logged), log1, logged, m.blocks, m1.blocks, blocks, i);
      assert addr !in own1 ==> addr !in old(own) by {
        MapLogKeys(old(own), own1, old(logged), log1, m.blocks, m1.blocks, i);
      }
    }

    /** The entry of the indirect block, allocating the block it points to if necessary. */
    method Entry(i: nat, bn: nat, ind: nat) returns (addr: nat)
      requires Valid() && i < |itab| && itab[i].typ != 0 && NDIRECT <= bn < MAXFILE
      requires itab[i].addrs[NDIRECT] == ind && ind != 0
      modifies this`blocks, this`own, this`logged
      ensures Valid() && Mapping(old(View()), View(), i, bn, addr)
      ensures BlockAddr(old(View()), i, bn) != 0 ==> View() == old(View()) && logged == old(logged)
      ensures addr == 0 ==> Full(View())
      ensures BlockAddr(old(View()), i, bn) == 0 && addr != 0 ==>
                addr < sb.size && blocks[addr] == ZeroBlock() && addr !in old(own) && addr in logged
      ensures MapLog(old(own), own, old(logged), logged, old(blocks), blocks, i)
      ensures logged <= old(logged) + AllocLog(sb, addr) + {ind}
      ensures SameInodes(sb, old(blocks), blocks)
      ensures |own| == |old(own)| + if BlockAddr(old(View()), i, bn) == 0 && addr != 0 then 1 else 0
    {
      hide Preserved, SlotAddr, BlockAddr, SlotsOk, OwnersOk, BitsOk, InodesOk, Mapping, Word, MapLog;
      ghost var m := View();
      IndirectOwned(m, own, i);
      MappingRefl(m, i, bn);
      MapLogRefl(own, logged, blocks, i);
      addr := Word(blocks[ind], bn - NDIRECT);
      EntryWord(m, i, bn);
      if addr == 0 {
        addr := NewEntry(i, bn, ind);
      }
    }

    method NewEntry(i: nat, bn: nat, ind: nat) returns (addr: nat)
      requires Valid() && i < |itab| && itab[i].typ != 0 && NDIRECT <= bn < MAXFILE
      requires itab[i].addrs[NDIRECT] == ind && ind != 0 && BlockAddr(View(), i, bn) == 0
      modifies this`blocks, this`own, this`logged
      ensures Valid() && Mapping(old(View()), View(), i, bn, addr)
      ensures addr == 0 ==> Full(View())
      ensures addr != 0 ==> addr < sb.size && blocks[addr] == ZeroBlock() && addr !in old(own) && addr in logged
      ensures MapLog(old(own), own, old(logged), logged, old(blocks), blocks, i)
      ensures logged <= old(logged) + AllocLog(sb, addr) + {ind}
      ensures SameInodes(sb, old(blocks), blocks)
      ensures |own| == |old(own)| + if addr != 0 then 1 else 0
    {
      hide Preserved, SlotAddr, BlockAddr, Linked, SameSlots, SlotsOk, OwnersOk, BitsOk, InodesOk, Mapping, Full,
           MapLog;
      ghost var m := View();
      IndirectOwned(m, own, i);
      addr := Allocate(i);
      if addr == 0 {
        MappingRefl(m, i, bn);
        return;
      }
      ghost var m1, own1, log1 := View(), own, logged;
      EntryEmpty(m, m1, i, bn);
      LinkEntry(i, bn - NDIRECT, addr);
      NewEntryMapping(m, m1, View(), i, bn, addr);
      MapLogEntry(own1, log1, m1.blocks, blocks, i, ind);
      MapLogTrans(old(own), own1, own1, old(logged), log1, logged, m.blocks, m1.blocks, blocks, i);
      MapLogLink(old(own), own1, old(logged), logged, m.blocks, blocks, i, addr, own[addr]);
    }
  }

  /** The blocks logged for a newly allocated block: itself and its free map block. */
  ghost function AllocLog(sb: Super, addr: nat): (r: set<nat>) {
    if addr == 0 then {} else {addr, sb.BBlock(addr)}
  }

  /** What mapping block bn may log for the indirect block. */
  ghost function IndirectLog(m: Image, m': Image, i: nat, bn: nat): (r: set<nat>)
    requires m.Shape() && m'.Shape() && i < |m.itab| && i < |m'.itab|
  {
    var ind := m'.itab[i].addrs[NDIRECT];
    if bn < NDIRECT || ind == 0 then {}
    else if m.itab[i].addrs[NDIRECT] != 0 then {ind}
    else {ind, m'.sb.BBlock(ind)}
  }

  lemma NoIndirect(m: Image, i: nat, bn: nat)
    requires m.Shape() && i < |m.itab| && NDIRECT <= bn < MAXFILE && m.itab[i].addrs[NDIRECT] == 0
    ensures BlockAddr(m, i, bn) == 0
  {
  }

  lemma EntryWord(m: Image, i: nat, bn: nat)
    requires m.Shape() && i < |m.itab| && NDIRECT <= bn < MAXFILE && 0 < m.itab[i].addrs[NDIRECT] < |m.blocks|
    ensures Word(m.blocks[m.itab[i].addrs[NDIRECT]], bn - NDIRECT) == BlockAddr(m, i, bn)
  {
  }

  lemma NewEntryMapping(m: Image, m1: Image, m2: Image, i: nat, bn: nat, addr: nat)
    requires m.Shape() && m1.Shape() && m2.Shape() && i < |m.itab| && NDIRECT <= bn < MAXFILE
    requires SameSlots(m, m1) && Preserved(m, m1) && m1.itab == m.itab && BlockAddr(m, i, bn) == 0
    requires Linked(m1, m2, i, NDIRECT + 1 + (bn - NDIRECT), addr) && Preserved(m1, m2) && m2.itab == m.itab
    ensures Mapping(m, m2, i, bn, addr)
  {
    MappingSame(m, m1, i, bn);
    MappingLink(m1, m2, i, bn, bn + 1, addr);
    MappingTrans(m, m1, m2, i, bn, 0, addr);
  }

  lemma EntryEmpty(m: Image, m1: Image, i: nat, bn: nat)
    requires m.Shape() && m1.Shape() && SameSlots(m, m1) && i < |m.itab| && NDIRECT <= bn < MAXFILE
    requires BlockAddr(m, i, bn) == 0
    ensures SlotAddr(m1, i, NDIRECT + 1 + (bn - NDIRECT)) == 0
  {
  }

  lemma FileAddrRange(m: Image, own: Owners, i: nat, bn: nat)
    requires Inv(m, own) && i < |m.itab| && bn < MAXFILE
    ensures BlockAddr(m, i, bn) < m.sb.size
  {
    assert SlotOk(m, own, i, FileSlot(bn));
  }

  lemma MappingAt(m: Image, m': Image, i: nat, bn: nat, addr: nat)
    requires m.Shape() && m'.Shape() && i < |m.itab| && bn < MAXFILE && Mapping(m, m', i, bn, addr)
    ensures BlockAddr(m', i, bn) == addr
  {
  }

  /** No free block is left. */
  ghost predicate Full(m: Image)
    requires m.Shape()
  {
    forall a :: 0 <= a < m.sb.size && m.sb.BBlock(a) < m.sb.size ==> Bit(m.sb, m.blocks, a)
  }

  /** Linking a block into an empty slot, with every file block left as it was. */
  lemma LinkedPreserves(m: Image, m': Image, own: Owners, i: nat, k: nat, b: nat)
    requires Inv(m, own) && m'.Shape() && i < |m.itab| && k < SLOTS && Linked(m, m', i, k, b)
    requires forall a :: a in own && own[a].InSlot? && own[a].slot.k != NDIRECT ==> a < |m.blocks| ==>
               m'.blocks[a] == m.blocks[a]
    ensures Preserved(m, m')
  {
    hide SlotsOk, BitsOk, InodesOk, SlotAddr;
    PreservedBy(m, m', own);
  }

  lemma OwnedInData(m: Image, own: Owners, b: nat)
    requires m.Shape() && OwnersOk(m, own) && b in own
    ensures m.sb.data <= b < m.sb.size
  {
  }

  lemma LinkEntryInv(m: Image, own: Owners, i: nat, j: nat, b: nat)
    requires Inv(m, own) && i < |m.itab| && m.itab[i].typ != 0 && j < NINDIRECT
    requires m.itab[i].addrs[NDIRECT] != 0 && SlotAddr(m, i, NDIRECT + 1 + j) == 0
    requires b in own && own[b] == Floating
    ensures m.itab[i].addrs[NDIRECT] < |m.blocks|
    ensures var m' := SetEntry(m, m.itab[i].addrs[NDIRECT], j, b);
            && Inv(m', own[b := InSlot(Slot(i, NDIRECT + 1 + j))]) && Linked(m, m', i, NDIRECT + 1 + j, b)
  {
    hide SetWord, SetEntry, Linked, SlotAddr, SlotsOk, BitsOk, InodesOk, OwnersOk;
    OwnedInData(m, own, b);
    SetEntryLinks(m, own, i, j, b);
    LinkedKeeps(m, SetEntry(m, m.itab[i].addrs[NDIRECT], j, b), own, i, NDIRECT + 1 + j, b);
  }

  lemma LinkEntryKeeps(m: Image, own: Owners, i: nat, j: nat, b: nat)
    requires Inv(m, own) && i < |m.itab| && m.itab[i].typ != 0 && j < NINDIRECT
    requires m.itab[i].addrs[NDIRECT] != 0 && SlotAddr(m, i, NDIRECT + 1 + j) == 0
    requires b in own && own[b] == Floating
    ensures m.itab[i].addrs[NDIRECT] < |m.blocks|
    ensures var m' := SetEntry(m, m.itab[i].addrs[NDIRECT], j, b);
            && Inv(m', own[b := InSlot(Slot(i, NDIRECT + 1 + j))])
            && Linked(m, m', i, NDIRECT + 1 + j, b) && Preserved(m, m')
            && SameInodes(m.sb, m.blocks, m'.blocks)
  {
    hide SetWord, Linked, SlotAddr, SlotsOk, BitsOk, InodesOk, OwnersOk, Preserved;
    LinkEntryInv(m, own, i, j, b);
    IndirectOwned(m, own, i);
    LinkedPreserves(m, SetEntry(m, m.itab[i].addrs[NDIRECT], j, b), own, i, NDIRECT + 1 + j, b);
  }

  lemma BallocReady(m: Image, own: Owners)
    requires Inv(m, own)
    ensures m.sb.Valid() && |m.blocks| == m.sb.size
    ensures forall a :: 0 <= a < m.sb.size ==> m.sb.BBlock(a) < m.sb.size
    ensures Bit(m.sb, m.blocks, 0)
  {
    assert 0 < m.sb.data;
  }

  lemma AllUsed(m: Image)
    requires m.Shape() && forall a :: 0 <= a < m.sb.size ==> m.sb.BBlock(a) < m.sb.size && Bit(m.sb, m.blocks, a)
    ensures Full(m)
  {
  }

  lemma AllocAll(m: Image, own: Owners, b: nat)
    requires Inv(m, own) && b < m.sb.size && m.sb.BBlock(b) < |m.blocks| && !Bit(m.sb, m.blocks, b)
    ensures m.sb.data <= b < m.sb.size && b !in own
    ensures var m' := m.(blocks := AllocBlocks(m.sb, m.blocks, b));
            && Inv(m', own[b := Floating]) && m'.blocks[b] == ZeroBlock()
            && SameSlots(m, m') && Preserved(m, m') && SameInodes(m.sb, m.blocks, m'.blocks)
  {
    hide SlotsOk, OwnersOk, BitsOk, InodesOk, SameSlots, Preserved, Bit;
    AllocKeeps(m, own, b);
    AllocPreserves(m, own, b);
    BBlockRange(m.sb, b);
  }

  lemma AllocPreserves(m: Image, own: Owners, b: nat)
    requires Inv(m, own) && b < m.sb.size && m.sb.BBlock(b) < |m.blocks| && !Bit(m.sb, m.blocks, b)
    ensures m.(blocks := AllocBlocks(m.sb, m.blocks, b)).Shape()
    ensures Preserved(m, m.(blocks := AllocBlocks(m.sb, m.blocks, b)))
  {
    AllocKeeps(m, own, b);
    AllocFrame(m.sb, m.blocks, b);
    hide Bit, SetBit, AllocBlocks, SlotsOk, BitsOk, InodesOk;
    PreservedBy(m, m.(blocks := AllocBlocks(m.sb, m.blocks, b)), own);
  }
}
