/** writei and iupdate over the block map. */
module FsIo {
  import opened Collections
  import opened Bytes
  import opened Blocks
  import opened FsLayout
  import opened FsImage
  import opened FsFile
  import opened FsBytes
  import opened FsCode
  import opened FsNeed

  /** iupdate: the in-memory inode goes to its place in its inode block. */
  method Iupdate(fs: FileSystem, i: nat)
    requires fs.Valid() && i < |fs.itab|
    modifies fs`blocks, fs`logged
    ensures fs.Valid() && SameSlots(old(fs.View()), fs.View()) && Preserved(old(fs.View()), fs.View())
    ensures fs.sb.IBlock(i) < |fs.blocks|
    ensures fs.blocks == SetDinode(fs.sb, old(fs.blocks), i, fs.itab[i])
    ensures fs.logged == old(fs.logged) + {fs.sb.IBlock(i)}
    ensures OnlyIn(old(fs.blocks), fs.blocks, {fs.sb.IBlock(i)})
  {
    SetDinodeKeeps(fs.View(), fs.own, i);
    hide Inv, SameSlots, Preserved, SpliceInode;
    var b := fs.sb.IBlock(i);
    fs.LogWrite(b, SpliceInode(fs.blocks[b], i % IPB, fs.itab[i]));
  }

  function Min(a: nat, b: nat): (r: nat) {
    if a < b then a else b
  }

  datatype Outcome = Copied | Faulted | NoSpace

  /** How many bytes of a transfer at offset o go to one block. */
  function ChunkSize(o: nat, left: nat): (n: nat)
    ensures n <= left && o % BSIZE + n <= BSIZE && (left > 0 ==> n > 0)
  {
    Min(left, BSIZE - o % BSIZE)
  }

  /** Apart from the pointers of inode i, the inodes are the same. */
  ghost predicate SameFields(x: seq<Inode>, y: seq<Inode>, i: nat) {
    && |x| == |y| && i < |x|
    && (forall j :: 0 <= j < |x| && j != i ==> y[j] == x[j])
    && y[i] == x[i].(addrs := y[i].addrs)
  }

  /** The free map blocks one turn of writei's loop may log. */
  ghost function StepMaps(m: Image, m': Image, i: nat, bn: nat, addr: nat): (r: set<nat>)
    requires m.Shape() && m'.Shape() && i < |m.itab| && i < |m'.itab| && bn < MAXFILE
    ensures |r| <= (if BlockAddr(m, i, bn) == 0 then 1 else 0)
                   + (if m.itab[i].addrs[NDIRECT] == 0 && m'.itab[i].addrs[NDIRECT] != 0 then 1 else 0)
  {
    (if BlockAddr(m, i, bn) != 0 then {} else {m'.sb.BBlock(addr)}) +
    (var ind := m'.itab[i].addrs[NDIRECT];
     if m.itab[i].addrs[NDIRECT] == 0 && ind != 0 then {m'.sb.BBlock(ind)} else {})
  }

  /** All it may log: the block itself, free map blocks, the indirect block. */
  ghost function StepLog(m: Image, m': Image, i: nat, bn: nat, addr: nat): (r: set<nat>)
    requires m.Shape() && m'.Shape() && i < |m.itab| && i < |m'.itab| && bn < MAXFILE
  {
    {addr} + StepMaps(m, m', i, bn, addr) + PointerSet(m'.itab[i].addrs[NDIRECT])
  }

  lemma MapLogged(m: Image, m': Image, i: nat, bn: nat, addr: nat, log0: set<nat>, log1: set<nat>)
    requires m.Shape() && m'.Shape() && i < |m.itab| && i < |m'.itab| && bn < MAXFILE
    requires BlockAddr(m, i, bn) != 0 ==> log1 == log0
    requires log1 <= log0 + AllocLog(m'.sb, addr) + IndirectLog(m, m', i, bn)
    ensures log1 <= log0 + StepLog(m, m', i, bn, addr)
  {
    hide SlotAddr, BlockAddr, Super.BBlock;
  }

  /** Copy n source bytes into the buffer of a mapped block, with or without log_write. */
  method PutChunk(fs: FileSystem, ghost m0: Image, i: nat, lo: nat, src: seq<byte>, tot: nat, n: nat,
                  a: nat, log: bool)
    requires fs.Valid() && i < |fs.itab| && m0.Shape() && tot + n <= |src| && tot < |src| && lo + |src| <= MAXBYTES
    requires (lo + tot) % BSIZE + n <= BSIZE && BlockAddr(fs.View(), i, (lo + tot) / BSIZE) == a != 0
    requires Untouched(m0, fs.View(), i, lo, lo + tot) && HoldsBytes(fs.View(), i, lo, src[..tot])
    modifies fs`blocks, fs`logged, fs`scribbled
    ensures fs.Valid() && SameInodes(fs.sb, old(fs.blocks), fs.blocks)
    ensures Untouched(m0, fs.View(), i, lo, lo + tot + n) && HoldsBytes(fs.View(), i, lo, src[..tot + n])
    ensures BlockAddr(fs.View(), i, (lo + tot) / BSIZE) == a
    ensures fs.logged == old(fs.logged) + (if log then {a} else {})
    ensures fs.scribbled == old(fs.scribbled) + (if log then {} else {a})
    ensures SameSlots(old(fs.View()), fs.View()) && OnlyIn(old(fs.blocks), fs.blocks, {a})
  {
    hide Untouched, HoldsBytes, SlotsOk, OwnersOk, BitsOk, InodesOk, SlotAddr, SameInodes, SameSlots;
    PatchInv(fs.View(), fs.own, i, lo + tot, src[tot..tot + n]);
    PatchWrites(m0, fs.View(), fs.own, i, lo, src, tot, n);
    var v := Overlay(fs.blocks[a], (lo + tot) % BSIZE, src[tot..tot + n]);
    if log {
      fs.LogWrite(a, v);
    } else {
      fs.Scribble(a, v);
    }
  }

  /** What one turn of writei's loop does: block (lo + tot) / BSIZE is mapped, at addr, and the source
      bytes that are readable are copied in; or there is no block for it. */
  ghost predicate Stepped(m0: Image, m: Image, own: Owners, log: set<nat>, m': Image, own': Owners, log': set<nat>,
                          i: nat, lo: nat, src: seq<byte>, readable: nat, tot: nat, outcome: Outcome, adv: nat,
                          addr: nat)
  {
    && m0.Shape() && m.Shape() && m'.Shape() && m'.sb == m.sb && i < |m.itab| && tot < |src| && lo + |src| <= MAXBYTES
    && SameFields(m.itab, m'.itab, i) && SameInodes(m.sb, m.blocks, m'.blocks) && tot + adv <= |src|
    && Untouched(m0, m', i, lo, lo + tot + adv) && HoldsBytes(m', i, lo, src[..tot + adv])
    && Chunked(lo, |src|, readable, tot, outcome, adv) && (outcome == NoSpace ==> Full(m'))
    && (outcome == NoSpace <==> addr == 0) && addr == BlockAddr(m', i, (lo + tot) / BSIZE)
    && log' <= log + StepLog(m, m', i, (lo + tot) / BSIZE, addr)
    && (m.itab[i].addrs[NDIRECT] != 0 ==> m'.itab[i].addrs[NDIRECT] == m.itab[i].addrs[NDIRECT])
    && (BlockAddr(m, i, (lo + tot) / BSIZE) != 0 ==> m'.itab == m.itab)
    && Paid(own, own', Cost(m, i, (lo + tot) / BSIZE), addr != 0)
    && (addr != 0 ==> Spent(m, m', i, (lo + tot) / BSIZE, (lo + tot) / BSIZE + 1))
    && StepCovers(m, own, log, m', own', log', i, (lo + tot) / BSIZE, outcome, adv, addr)
  }

  /** What it logs: of the blocks that had an owner, the indirect block, and the block itself if the copy is
      complete. Nothing else changes, but for the block of a copy that fails part way. A block that is new
      is logged in any case, since balloc has zeroed it. */
  ghost predicate StepCovers(m: Image, own: Owners, log: set<nat>, m': Image, own': Owners, log': set<nat>, i: nat,
                             bn: nat, outcome: Outcome, adv: nat, addr: nat)
    requires m.Shape() && m'.Shape() && i < |m.itab| && i < |m'.itab| && bn < MAXFILE
  {
    && Extends(own, own') && Scoped(own, log, log', i, bn, if outcome == Copied then bn + 1 else bn)
    && OnlyIn(m.blocks, m'.blocks, log' + TornAt(outcome, adv, addr)) && OthersKept(m, m', i, bn)
    && (addr != 0 && (outcome == Copied || BlockAddr(m, i, bn) == 0) ==> addr in log')
    && (BlockAddr(m, i, bn) != 0 ==> addr == BlockAddr(m, i, bn))
  }

  function TornAt(outcome: Outcome, adv: nat, addr: nat): (r: set<nat>) {
    if outcome == Faulted && adv > 0 then {addr} else {}
  }

  /** The blocks of file i but bn are where they were. */
  ghost predicate OthersKept(m: Image, m': Image, i: nat, bn: nat)
    requires m.Shape() && m'.Shape() && i < |m.itab| && i < |m'.itab|
  {
    forall k :: 0 <= k < MAXFILE && k != bn ==> BlockAddr(m', i, k) == BlockAddr(m, i, k)
  }

  lemma OthersAre(m: Image, m1: Image, m2: Image, i: nat, bn: nat, a: nat)
    requires m.Shape() && m1.Shape() && m2.Shape() && i < |m.itab| && i < |m1.itab| && i < |m2.itab| && bn < MAXFILE
    requires Mapping(m, m1, i, bn, a) && SameSlots(m1, m2)
    ensures OthersKept(m, m2, i, bn)
  {
    hide BlockAddr, Preserved, SameSlots;
    forall k | 0 <= k < MAXFILE && k != bn
      ensures BlockAddr(m2, i, k) == BlockAddr(m, i, k)
    {
      SameBlockAddr(m1, m2, i, k);
    }
  }

  lemma MappedOnly(m: Image, own: Owners, log: set<nat>, m1: Image, own1: Owners, log1: set<nat>, i: nat, bn: nat)
    requires m.Shape() && m1.Shape() && i < |m.itab| && i < |m1.itab| && bn < MAXFILE && BlockAddr(m, i, bn) == 0
    requires MapLog(own, own1, log, log1, m.blocks, m1.blocks, i) && Mapping(m, m1, i, bn, 0)
    ensures StepCovers(m, own, log, m1, own1, log1, i, bn, NoSpace, 0, 0)
  {
    hide BlockAddr, SlotAddr, Preserved;
  }

  /** From what bmap and the copy log to what the turn does. */
  lemma StepCoversIs(m: Image, own: Owners, log: set<nat>, m1: Image, own1: Owners, log1: set<nat>, m2: Image,
                     log2: set<nat>, i: nat, bn: nat, outcome: Outcome, adv: nat, a: nat)
    requires m.Shape() && m2.Shape() && i < |m.itab| && i < |m1.itab| && i < |m2.itab| && bn < MAXFILE
    requires Inv(m1, own1) && outcome != NoSpace && Mapping(m, m1, i, bn, a) && SameSlots(m1, m2)
    requires MapLog(own, own1, log, log1, m.blocks, m1.blocks, i) && BlockAddr(m1, i, bn) == a != 0
    requires BlockAddr(m, i, bn) == 0 ==> a in log1
    requires BlockAddr(m, i, bn) != 0 ==> m1 == m
    requires log2 == log1 + (if outcome == Copied then {a} else {})
    requires OnlyIn(m1.blocks, m2.blocks, if adv > 0 then {a} else {})
    ensures StepCovers(m, own, log, m2, own1, log2, i, bn, outcome, adv, a)
  {
    hide Inv, BlockAddr, SlotAddr, SameSlots, Mapping, OthersKept;
    InvShape(m1, own1);
    OthersAre(m, m1, m2, i, bn, a);
    FileBlockOwned(m1, own1, i, bn);
  }

  /** How far a turn gets: a whole chunk, what is readable of it, or nowhere. */
  predicate Chunked(lo: nat, n: nat, readable: nat, tot: nat, outcome: Outcome, adv: nat)
    requires tot < n
  {
    var c := ChunkSize(lo + tot, n - tot);
    match outcome
    case Copied => adv == c && tot + c <= readable
    case Faulted => readable < tot + c && adv == if readable > tot then readable - tot else 0
    case NoSpace => adv == 0
  }

  /** What bmap does for a turn: block bn is at a, or there is none to be had. */
  ghost predicate BlockMapped(m: Image, own: Owners, log: set<nat>, m1: Image, own1: Owners, log1: set<nat>, i: nat,
                              bn: nat, a: nat)
  {
    && m.Shape() && Inv(m1, own1) && i < |m.itab| && i < |m1.itab| && bn < MAXFILE && Mapping(m, m1, i, bn, a)
    && SameFields(m.itab, m1.itab, i) && SameInodes(m.sb, m.blocks, m1.blocks) && (a == 0 ==> Full(m1))
    && (bn < NDIRECT || m.itab[i].addrs[NDIRECT] != 0 ==> m1.itab[i].addrs[NDIRECT] == m.itab[i].addrs[NDIRECT])
    && (BlockAddr(m, i, bn) != 0 ==> m1 == m) && (BlockAddr(m, i, bn) == 0 && a != 0 ==> a in log1)
    && MapLog(own, own1, log, log1, m.blocks, m1.blocks, i) && log1 <= log + StepLog(m, m1, i, bn, a)
    && Paid(own, own1, Cost(m, i, bn), a != 0)
  }

  /** bmap, for a turn of writei's loop. */
  method MapBlock(fs: FileSystem, i: nat, bn: nat) returns (a: nat)
    requires fs.Valid() && i < |fs.itab| && fs.itab[i].typ != 0 && bn < MAXFILE
    modifies fs`blocks, fs`itab, fs`own, fs`logged
    ensures fs.Valid() && i < |fs.itab|
    ensures BlockMapped(old(fs.View()), old(fs.own), old(fs.logged), fs.View(), fs.own, fs.logged, i, bn, a)
  {
    hide SlotsOk, OwnersOk, BitsOk, InodesOk, Mapping, SlotAddr, BlockAddr, Preserved, Full, SameInodes, SameFields,
         StepLog, AllocLog, IndirectLog, Cost, MapLog;
    ghost var m := fs.View();
    var panicked;
    panicked, a := fs.Bmap(i, bn);
    MappingFacts(m, fs.View(), i, bn, a);
    MapLogged(m, fs.View(), i, bn, a, old(fs.logged), fs.logged);
  }

  lemma BlockMappedParts(m0: Image, m: Image, own: Owners, log: set<nat>, m1: Image, own1: Owners, log1: set<nat>,
                         i: nat, lo: nat, bs: seq<byte>, bn: nat, a: nat)
    requires BlockMapped(m, own, log, m1, own1, log1, i, bn, a) && m0.Shape() && lo + |bs| <= MAXBYTES
    requires Untouched(m0, m, i, lo, lo + |bs|) && HoldsBytes(m, i, lo, bs)
    ensures m1.Shape() && i < |m1.itab| && BlockAddr(m1, i, bn) == a
    ensures Untouched(m0, m1, i, lo, lo + |bs|) && HoldsBytes(m1, i, lo, bs)
  {
    hide Untouched, HoldsBytes, SlotsOk, OwnersOk, BitsOk, InodesOk, Mapping, BlockAddr, Preserved, Full, SameInodes,
         SameFields, StepLog, Cost, MapLog;
    MappingFacts(m, m1, i, bn, a);
    MapKeepsBytes(m0, m, m1, i, lo, bs);
  }

  lemma NoBlock(m0: Image, m: Image, own: Owners, log: set<nat>, m1: Image, own1: Owners, log1: set<nat>,
                i: nat, lo: nat, src: seq<byte>, readable: nat, tot: nat)
    requires tot < |src| && lo + |src| <= MAXBYTES && m0.Shape()
    requires BlockMapped(m, own, log, m1, own1, log1, i, (lo + tot) / BSIZE, 0)
    requires Untouched(m0, m1, i, lo, lo + tot) && HoldsBytes(m1, i, lo, src[..tot])
    ensures Stepped(m0, m, own, log, m1, own1, log1, i, lo, src, readable, tot, NoSpace, 0, 0)
  {
    hide Untouched, HoldsBytes, SlotsOk, OwnersOk, BitsOk, InodesOk, Mapping, BlockAddr, Preserved, Full, SameInodes,
         SameFields, StepLog, Cost, MapLog, StepCovers;
    MappingFacts(m, m1, i, (lo + tot) / BSIZE, 0);
    MappedOnly(m, own, log, m1, own1, log1, i, (lo + tot) / BSIZE);
  }

  lemma BlockFilled(m0: Image, m: Image, own: Owners, log: set<nat>, m1: Image, own1: Owners, log1: set<nat>,
                    m2: Image, log2: set<nat>, i: nat, lo: nat, src: seq<byte>, readable: nat, tot: nat,
                    outcome: Outcome, adv: nat, a: nat)
    requires tot < |src| && lo + |src| <= MAXBYTES && m0.Shape() && m2.Shape() && m2.sb == m1.sb && m2.itab == m1.itab
    requires BlockMapped(m, own, log, m1, own1, log1, i, (lo + tot) / BSIZE, a) && a != 0 && outcome != NoSpace
    requires SameInodes(m1.sb, m1.blocks, m2.blocks) && tot + adv <= |src| && SameSlots(m1, m2)
    requires Untouched(m0, m2, i, lo, lo + tot + adv) && HoldsBytes(m2, i, lo, src[..tot + adv])
    requires BlockAddr(m2, i, (lo + tot) / BSIZE) == a && Chunked(lo, |src|, readable, tot, outcome, adv)
    requires log2 == log1 + (if outcome == Copied then {a} else {})
    requires OnlyIn(m1.blocks, m2.blocks, if adv > 0 then {a} else {})
    ensures Stepped(m0, m, own, log, m2, own1, log2, i, lo, src, readable, tot, outcome, adv, a)
  {
    hide Untouched, HoldsBytes, SlotsOk, OwnersOk, BitsOk, InodesOk, Mapping, BlockAddr, Preserved, Full, SameInodes,
         SameFields, StepLog, StepMaps, Cost, MapLog, StepCovers, Spent, SameSlots, OnlyIn, Chunked;
    var bn := (lo + tot) / BSIZE;
    MappingFacts(m, m1, i, bn, a);
    SpentNone(m, i, bn);
    SpendNext(m, m, m1, i, bn, bn, a);
    SpentSame(m, m1, m2, i, bn, bn + 1);
    SameInodesTrans(m.sb, m.blocks, m1.blocks, m2.blocks);
    StepLogSame(m, m1, m2, i, bn, a);
    StepCoversIs(m, own, log, m1, own1, log1, m2, log2, i, bn, outcome, adv, a);
  }

  /** One turn of writei's loop: map the block, then copy the source bytes that are
      readable into it. A fault leaves the bytes before it in the buffer, with no log_write for them. */
  method WriteStep(fs: FileSystem, ghost m0: Image, i: nat, lo: nat, src: seq<byte>, readable: nat, tot: nat)
    returns (outcome: Outcome, adv: nat, ghost addr: nat)
    requires fs.Valid() && i < |fs.itab| && fs.itab[i].typ != 0 && m0.Shape()
    requires tot < |src| && lo + |src| <= MAXBYTES
    requires Untouched(m0, fs.View(), i, lo, lo + tot) && HoldsBytes(fs.View(), i, lo, src[..tot])
    modifies fs
    ensures fs.Valid() && fs.scribbled == old(fs.scribbled) + (if outcome == Faulted && adv > 0 then {addr} else {})
    ensures Stepped(m0, old(fs.View()), old(fs.own), old(fs.logged), fs.View(), fs.own, fs.logged,
                    i, lo, src, readable, tot, outcome, adv, addr)
  {
    hide Untouched, HoldsBytes, Inv, BlockAddr, SameInodes, SameSlots, OnlyIn, Stepped, BlockMapped, Settled, Chunked;
    ghost var m := fs.View();
    assert |src[..tot]| == tot;
    var a := MapBlock(fs, i, (lo + tot) / BSIZE);
    addr := a;
    ghost var m1, log1 := fs.View(), fs.logged;
    BlockMappedParts(m0, m, old(fs.own), old(fs.logged), m1, fs.own, log1, i, lo, src[..tot], (lo + tot) / BSIZE, a);
    if a == 0 {
      NoBlock(m0, m, old(fs.own), old(fs.logged), m1, fs.own, log1, i, lo, src, readable, tot);
      return NoSpace, 0, a;
    }
    outcome, adv := CopyIn(fs, m0, i, lo, src, readable, tot, a);
    InvShape(fs.View(), fs.own);
    BlockFilled(m0, m, old(fs.own), old(fs.logged), m1, fs.own, log1, fs.View(), fs.logged, i, lo, src, readable, tot,
                outcome, adv, a);
  }

  lemma StepLogSame(m: Image, m1: Image, m2: Image, i: nat, bn: nat, addr: nat)
    requires m.Shape() && m1.Shape() && m2.Shape() && i < |m.itab| && i < |m1.itab| && bn < MAXFILE
    requires m2.itab == m1.itab && m2.sb == m1.sb
    ensures StepLog(m, m2, i, bn, addr) == StepLog(m, m1, i, bn, addr)
    ensures {addr} <= StepLog(m, m2, i, bn, addr)
  {
    hide SlotAddr, BlockAddr, Super.BBlock;
  }

  lemma MappingFacts(m: Image, m': Image, i: nat, bn: nat, a: nat)
    requires m.Shape() && m'.Shape() && i < |m.itab| && bn < MAXFILE && Mapping(m, m', i, bn, a)
    ensures Preserved(m, m') && SameFields(m.itab, m'.itab, i) && BlockAddr(m', i, bn) == a
  {
  }

  lemma SameInodesTrans(sb: Super, x: seq<Block>, y: seq<Block>, z: seq<Block>)
    requires SameInodes(sb, x, y) && SameInodes(sb, y, z)
    ensures SameInodes(sb, x, z)
  {
  }

  /** either_copyin of one chunk into block a, and log_write if it succeeds. */
  method CopyIn(fs: FileSystem, ghost m0: Image, i: nat, lo: nat, src: seq<byte>, readable: nat, tot: nat, a: nat)
    returns (outcome: Outcome, adv: nat)
    requires fs.Valid() && i < |fs.itab| && m0.Shape() && tot < |src| && lo + |src| <= MAXBYTES
    requires BlockAddr(fs.View(), i, (lo + tot) / BSIZE) == a != 0
    requires Untouched(m0, fs.View(), i, lo, lo + tot) && HoldsBytes(fs.View(), i, lo, src[..tot])
    modifies fs`blocks, fs`logged, fs`scribbled
    ensures fs.Valid() && SameInodes(fs.sb, old(fs.blocks), fs.blocks)
    ensures tot + adv <= |src|
    ensures Untouched(m0, fs.View(), i, lo, lo + tot + adv) && HoldsBytes(fs.View(), i, lo, src[..tot + adv])
    ensures BlockAddr(fs.View(), i, (lo + tot) / BSIZE) == a
    ensures outcome != NoSpace && Chunked(lo, |src|, readable, tot, outcome, adv)
    ensures fs.scribbled == old(fs.scribbled) + (if outcome == Faulted && adv > 0 then {a} else {})
    ensures fs.logged == old(fs.logged) + (if outcome == Copied then {a} else {})
    ensures SameSlots(old(fs.View()), fs.View()) && OnlyIn(old(fs.blocks), fs.blocks, if adv > 0 then {a} else {})
  {
    hide Untouched, HoldsBytes, SlotsOk, OwnersOk, BitsOk, InodesOk, SlotAddr, BlockAddr;
    var n := ChunkSize(lo + tot, |src| - tot);
    if tot + n > readable {
      outcome, adv := Faulted, if readable > tot then readable - tot else 0;
      if adv > 0 {
        PutChunk(fs, m0, i, lo, src, tot, adv, a, false);
      }
    } else {
      outcome, adv := Copied, n;
      PutChunk(fs, m0, i, lo, src, tot, n, a, true);
    }
  }

  /** Laying bytes over a mapped block keeps the map and the inode blocks. */
  lemma PatchInv(m: Image, own: Owners, i: nat, at: nat, chunk: seq<byte>)
    requires Inv(m, own) && i < |m.itab| && at < MAXBYTES && at % BSIZE + |chunk| <= BSIZE
    requires BlockAddr(m, i, at / BSIZE) != 0
    ensures m.sb.data <= BlockAddr(m, i, at / BSIZE) < |m.blocks|
    ensures var m' := Patch(m, i, at, chunk);
            && Inv(m', own) && BlockAddr(m', i, at / BSIZE) == BlockAddr(m, i, at / BSIZE)
            && SameInodes(m.sb, m.blocks, m'.blocks) && m'.itab == m.itab && SameSlots(m, m')
  {
    hide SlotsOk, OwnersOk, BitsOk, InodesOk, SlotAddr;
    var bn := at / BSIZE;
    FileBlockOwned(m, own, i, bn);
    WriteBlockKeeps(m, own, i, bn, Overlay(m.blocks[BlockAddr(m, i, bn)], at % BSIZE, chunk));
  }

  /** Writing src[tot..tot + n) into its block extends the written part by those bytes. */
  lemma PatchWrites(m0: Image, m: Image, own: Owners, i: nat, lo: nat, src: seq<byte>, tot: nat, n: nat)
    requires m0.Shape() && Inv(m, own) && i < |m.itab| && tot + n <= |src| && lo + |src| <= MAXBYTES && tot < |src|
    requires (lo + tot) % BSIZE + n <= BSIZE && BlockAddr(m, i, (lo + tot) / BSIZE) != 0
    requires Untouched(m0, m, i, lo, lo + tot) && HoldsBytes(m, i, lo, src[..tot])
    ensures BlockAddr(m, i, (lo + tot) / BSIZE) < |m.blocks|
    ensures Patch(m, i, lo + tot, src[tot..tot + n]).Shape()
    ensures Untouched(m0, Patch(m, i, lo + tot, src[tot..tot + n]), i, lo, lo + tot + n)
    ensures HoldsBytes(Patch(m, i, lo + tot, src[tot..tot + n]), i, lo, src[..tot + n])
  {
    hide Untouched, HoldsBytes, SlotsOk, OwnersOk, BitsOk, InodesOk, SlotAddr, Patch;
    var bs, chunk := src[..tot], src[tot..tot + n];
    assert bs + chunk == src[..tot + n];
    assert lo + |bs| == lo + tot;
    PatchHolds(m, own, i, lo, bs, chunk);
    PatchUntouched(m0, m, own, i, lo, lo + tot, chunk);
  }

  // ----- The bill: how many distinct blocks a write logs -----

  /** Blocks the indirect pointer contributes. */
  function PointerSet(ind: nat): (r: set<nat>)
    ensures |r| <= 1
  {
    if ind == 0 then {} else {ind}
  }

  /** `logged` beyond log0 is `data` (one block a chunk), `maps` (free map blocks, one for each
      of `news` chunks that were not mapped and one more for a new indirect block) and the
      indirect block. */
  ghost predicate Bill(log0: set<nat>, logged: set<nat>, data: set<nat>, maps: set<nat>,
                       ind0: nat, ind: nat, chunks: nat, news: nat)
  {
    && logged <= log0 + data + maps + PointerSet(ind)
    && |data| <= chunks && news <= chunks
    && |maps| <= news + (if ind0 == 0 && ind != 0 then 1 else 0)
    && (ind0 != 0 ==> ind == ind0)
  }

  /** One more chunk: what it adds to the bill. */
  lemma BillGrows(log0: set<nat>, logged: set<nat>, data: set<nat>, maps: set<nat>, ind0: nat, ind: nat,
                  chunks: nat, news: nat, logged': set<nat>, addr: nat, ind': nat, more: set<nat>, isNew: bool)
    requires Bill(log0, logged, data, maps, ind0, ind, chunks, news)
    requires ind != 0 ==> ind' == ind
    requires logged' <= logged + ({addr} + more + PointerSet(ind'))
    requires |more| <= (if isNew then 1 else 0) + (if ind == 0 && ind' != 0 then 1 else 0)
    ensures Bill(log0, logged', data + {addr}, maps + more, ind0, ind', chunks + 1, news + (if isNew then 1 else 0))
  {
    UnionSize(data, {addr});
    UnionSize(maps, more);
  }

  /** A full chunk that is not the last ends on a block boundary. */
  lemma ChunkAdvances(at: nat, left: nat)
    requires ChunkSize(at, left) < left
    ensures (at + ChunkSize(at, left)) % BSIZE == 0
    ensures (at + ChunkSize(at, left)) / BSIZE == at / BSIZE + 1
  {
    DivIs(at + ChunkSize(at, left), at / BSIZE + 1, 0);
  }

  // ----- writei -----

  /** The contents after a write that placed bs at off and counted tot of its bytes. */
  function AfterWrite(s: seq<byte>, off: nat, bs: seq<byte>, tot: nat): (r: seq<byte>)
    requires off <= |s| && tot <= |bs|
  {
    Splice(s, off, bs)[..if off + tot > |s| then off + tot else |s|]
  }

  lemma FileBlocksMapped(m: Image, own: Owners, i: nat, o: nat)
    requires Inv(m, own) && i < |m.itab| && o < m.itab[i].size
    ensures o < MAXBYTES && BlockAddr(m, i, o / BSIZE) != 0
  {
    assert InodeOk(m, i);
    assert o / BSIZE * BSIZE <= o;
  }

  /** From byte facts to contents. */
  lemma ContentsAfter(m0: Image, own0: Owners, m: Image, i: nat, off: nat, bs: seq<byte>, tot: nat)
    requires Inv(m0, own0) && m.Shape() && i < |m0.itab| && m.sb == m0.sb
    requires off <= m0.itab[i].size && off + |bs| <= MAXBYTES && tot <= |bs|
    requires Untouched(m0, m, i, off, off + |bs|) && HoldsBytes(m, i, off, bs)
    requires m.itab[i].size == if off + tot > m0.itab[i].size then off + tot else m0.itab[i].size
    ensures m.itab[i].size <= MAXBYTES && |Contents(m0, i)| == m0.itab[i].size
    ensures Contents(m, i) == AfterWrite(Contents(m0, i), off, bs, tot)
  {
    hide Inv, Untouched, HoldsBytes, ByteAt, AfterWrite;
    InvShape(m0, own0);
    ContentsSize(m0, own0, i);
    SizeFits(m0, own0, i);
    var s := Contents(m0, i);
    AfterWriteSize(s, off, bs, tot);
    forall o | 0 <= o < m.itab[i].size
      ensures ByteAt(m, i, o) == AfterWrite(s, off, bs, tot)[o]
    {
      ByteAfter(m0, own0, m, i, off, bs, tot, o);
    }
  }

  lemma SizeFits(m: Image, own: Owners, i: nat)
    requires Inv(m, own) && i < |m.itab|
    ensures m.itab[i].size <= MAXBYTES
  {
    assert InodeOk(m, i);
  }

  lemma AfterWriteSize(s: seq<byte>, off: nat, bs: seq<byte>, tot: nat)
    requires off <= |s| && tot <= |bs|
    ensures |AfterWrite(s, off, bs, tot)| == if off + tot > |s| then off + tot else |s|
  {
  }

  /** One byte of the file after the write. */
  lemma ByteAfter(m0: Image, own0: Owners, m: Image, i: nat, off: nat, bs: seq<byte>, tot: nat, o: nat)
    requires Inv(m0, own0) && m.Shape() && i < |m0.itab| && m.sb == m0.sb
    requires off <= m0.itab[i].size == |Contents(m0, i)| && off + |bs| <= MAXBYTES && tot <= |bs|
    requires Untouched(m0, m, i, off, off + |bs|) && HoldsBytes(m, i, off, bs)
    requires o < off + tot || o < m0.itab[i].size
    ensures o < MAXBYTES && o < |AfterWrite(Contents(m0, i), off, bs, tot)|
    ensures ByteAt(m, i, o) == AfterWrite(Contents(m0, i), off, bs, tot)[o]
  {
    hide SlotsOk, OwnersOk, BitsOk, InodesOk, BlockAddr;
    SizeFits(m0, own0, i);
    if off <= o < off + |bs| {
      assert HasByte(m, i, off + (o - off), bs[o - off]);
    } else {
      FileBlocksMapped(m0, own0, i, o);
      assert HasByte(m, i, o, ByteAt(m0, i, o));
    }
  }

  lemma ContentsSame(m0: Image, own0: Owners, m: Image, i: nat, lo: nat, hi: nat, j: nat)
    requires Inv(m0, own0) && m.Shape() && m.sb == m0.sb && j < |m0.itab| && j != i
    requires Untouched(m0, m, i, lo, hi) && m.itab[j] == m0.itab[j]
    ensures Contents(m, j) == Contents(m0, j)
  {
    assert InodeOk(m0, j);
    forall o | 0 <= o < m0.itab[j].size
      ensures ByteAt(m, j, o) == ByteAt(m0, j, o)
    {
      FileBlocksMapped(m0, own0, j, o);
      assert HasByte(m, j, o, ByteAt(m0, j, o));
    }
  }

  /** The whole of a write up to the size, mapped. */
  lemma GrownIsMapped(m0: Image, own0: Owners, m: Image, i: nat, off: nat, bs: seq<byte>, size: nat)
    requires Inv(m0, own0) && m.Shape() && i < |m0.itab| && m.sb == m0.sb
    requires off <= m0.itab[i].size && off + |bs| <= MAXBYTES
    requires Untouched(m0, m, i, off, off + |bs|) && HoldsBytes(m, i, off, bs)
    requires size <= m0.itab[i].size || size <= off + |bs|
    ensures forall bn :: 0 <= bn < MAXFILE && bn * BSIZE < size ==> BlockAddr(m, i, bn) != 0
  {
    forall bn | 0 <= bn < MAXFILE && bn * BSIZE < size
      ensures BlockAddr(m, i, bn) != 0
    {
      var o := bn * BSIZE;
      DivIs(o, bn, 0);
      if off <= o < off + |bs| {
        assert HasByte(m, i, off + (o - off), bs[o - off]);
      } else {
        FileBlocksMapped(m0, own0, i, o);
        assert HasByte(m, i, o, ByteAt(m0, i, o));
      }
    }
  }

  /** An unaligned offset within the size lies in a mapped block. */
  lemma FirstMapped(m: Image, own: Owners, i: nat, off: nat)
    requires Inv(m, own) && i < |m.itab| && off <= m.itab[i].size && off % BSIZE != 0
    ensures off < MAXBYTES && BlockAddr(m, i, off / BSIZE) != 0
  {
    assert InodeOk(m, i);
    FileBlocksMapped(m, own, i, off - 1);
    DivIs(off - 1, off / BSIZE, off % BSIZE - 1);
  }

  /** Position of the loop: k chunks are behind, and all but the first start on a boundary. */
  ghost predicate At(off: nat, tot: nat, k: nat) {
    && (tot == 0 ==> k == 0)
    && (tot > 0 ==> (off + tot) % BSIZE == 0 && (off + tot) / BSIZE == off / BSIZE + k)
  }

  lemma AtNext(off: nat, tot: nat, k: nat, n: nat)
    requires At(off, tot, k) && tot < n
    ensures k + 1 <= Chunks(off, n)
    ensures var c := ChunkSize(off + tot, n - tot);
            tot + c < n ==> At(off, tot + c, k + 1)
  {
    var c := ChunkSize(off + tot, n - tot);
    DivMono(off + tot, off + n - 1);
    if tot + c < n {
      ChunkAdvances(off + tot, n - tot);
      assert off + tot + c == off + (tot + c);
    }
  }

  /** From m0 to m, file i has come to hold bs from off on, and nothing else changed but i's map. */
  ghost predicate Progress(m0: Image, m: Image, i: nat, off: nat, bs: seq<byte>) {
    && m0.Shape() && m.Shape() && m.sb == m0.sb && off + |bs| <= MAXBYTES
    && SameFields(m0.itab, m.itab, i) && SameInodes(m0.sb, m0.blocks, m.blocks)
    && Untouched(m0, m, i, off, off + |bs|) && HoldsBytes(m, i, off, bs)
  }

  /** A write's bill so far. */
  datatype Tab = Tab(data: set<nat>, maps: set<nat>, chunks: nat, news: nat)

  /** The bill of a write at off of n bytes that has got from m0 to m and done tot bytes. */
  ghost predicate Account(log0: set<nat>, logged: set<nat>, tab: Tab, ind0: nat, ind: nat, off: nat, n: nat)
  {
    && Bill(log0, logged, tab.data, tab.maps, ind0, ind, tab.chunks, tab.news)
    && tab.chunks <= Chunks(off, n)
    && (off % BSIZE != 0 && tab.chunks > 0 ==> tab.news < tab.chunks)
  }

  ghost function Charge(tab: Tab, m: Image, m': Image, i: nat, bn: nat, addr: nat): (r: Tab)
    requires m.Shape() && m'.Shape() && i < |m.itab| && i < |m'.itab| && bn < MAXFILE
  {
    Tab(tab.data + {addr}, tab.maps + StepMaps(m, m', i, bn, addr), tab.chunks + 1,
        tab.news + (if BlockAddr(m, i, bn) == 0 then 1 else 0))
  }

  lemma ChargeAccount(log0: set<nat>, logged: set<nat>, tab: Tab, ind0: nat, m: Image, m': Image, i: nat, bn: nat,
                      logged': set<nat>, addr: nat, off: nat, n: nat)
    requires m.Shape() && m'.Shape() && i < |m.itab| && i < |m'.itab| && bn < MAXFILE
    requires Account(log0, logged, tab, ind0, m.itab[i].addrs[NDIRECT], off, n) && tab.chunks + 1 <= Chunks(off, n)
    requires tab.chunks == 0 && off % BSIZE != 0 ==> BlockAddr(m, i, bn) != 0
    requires m.itab[i].addrs[NDIRECT] != 0 ==> m'.itab[i].addrs[NDIRECT] == m.itab[i].addrs[NDIRECT]
    requires logged' <= logged + StepLog(m, m', i, bn, addr)
    ensures Account(log0, logged', Charge(tab, m, m', i, bn, addr), ind0, m'.itab[i].addrs[NDIRECT], off, n)
  {
    BillNews(log0, logged, tab, ind0, m.itab[i].addrs[NDIRECT]);
    hide SlotAddr, BlockAddr, Chunks, Bill, StepMaps, PointerSet;
    BillGrows(log0, logged, tab.data, tab.maps, ind0, m.itab[i].addrs[NDIRECT], tab.chunks, tab.news, logged', addr,
              m'.itab[i].addrs[NDIRECT], StepMaps(m, m', i, bn, addr), BlockAddr(m, i, bn) == 0);
  }

  lemma BillNews(log0: set<nat>, logged: set<nat>, tab: Tab, ind0: nat, ind: nat)
    requires Bill(log0, logged, tab.data, tab.maps, ind0, ind, tab.chunks, tab.news)
    ensures tab.news <= tab.chunks
  {
  }

  lemma LoopStart(m: Image, i: nat, off: nat, logged: set<nat>, n: nat)
    requires m.Shape() && i < |m.itab| && off <= MAXBYTES
    ensures Progress(m, m, i, off, []) && At(off, 0, 0)
    ensures Account(logged, logged, Tab({}, {}, 0, 0), m.itab[i].addrs[NDIRECT], m.itab[i].addrs[NDIRECT], off, n)
  {
    UntouchedRefl(m, i, off);
  }

  // ----- How the loop ends -----

  /** What a turn that does not complete its chunk says of the write as a whole. */
  ghost predicate Ended(m0: Image, i: nat, off: nat, n: nat, readable: nat, tot: nat, outcome: Outcome, adv: nat)
    requires m0.Shape() && i < |m0.itab| && off + n <= MAXBYTES
  {
    outcome != Copied ==>
      && !Fits(m0, i, off, n, readable) && (adv > 0 <==> Tears(m0, i, off, n, readable))
      && (adv > 0 ==> (off + readable) / BSIZE == (off + tot) / BSIZE)
  }

  /** A source that gives out inside a chunk gives out inside its block. */
  lemma InChunk(off: nat, n: nat, tot: nat, readable: nat)
    requires tot < n && tot < readable < tot + ChunkSize(off + tot, n - tot)
    ensures (off + readable) / BSIZE == (off + tot) / BSIZE && (off + readable) % BSIZE != 0
    ensures off / BSIZE + Chunks(off, readable) == (off + tot) / BSIZE + 1
  {
    var q, d := (off + tot) / BSIZE, readable - tot;
    DivIs(off + readable, q, (off + tot) % BSIZE + d);
    DivIs(off + readable - 1, q, (off + tot) % BSIZE + d - 1);
  }

  lemma AtBoundary(off: nat, tot: nat, k: nat)
    requires At(off, tot, k)
    ensures tot == 0 || (off + tot) % BSIZE == 0
  {
  }

  /** A transfer that goes beyond tot touches the block of tot. */
  lemma ChunksPast(off: nat, tot: nat, n: nat)
    requires tot < n
    ensures (off + tot) / BSIZE + 1 <= off / BSIZE + Chunks(off, n)
  {
    DivMono(off + tot, off + n - 1);
  }

  lemma FaultEnds(m0: Image, i: nat, off: nat, n: nat, readable: nat, tot: nat, k: nat, adv: nat)
    requires m0.Shape() && i < |m0.itab| && off + n <= MAXBYTES && tot < n && At(off, tot, k)
    requires tot <= readable < tot + ChunkSize(off + tot, n - tot) && adv == readable - tot
    requires (off + tot) / BSIZE < MAXFILE && Need(m0, i, off / BSIZE, (off + tot) / BSIZE + 1) <= |FreeBlocks(m0)|
    ensures Ended(m0, i, off, n, readable, tot, Faulted, adv)
  {
    hide Need, FreeBlocks, Chunks;
    if adv > 0 {
      InChunk(off, n, tot, readable);
    } else {
      AtBoundary(off, tot, k);
    }
  }

  lemma NoSpaceEnds(m0: Image, i: nat, off: nat, n: nat, readable: nat, tot: nat, k: nat)
    requires m0.Shape() && i < |m0.itab| && off + n <= MAXBYTES && tot < n && At(off, tot, k) && tot <= readable
    requires (off + tot) / BSIZE < MAXFILE && Need(m0, i, off / BSIZE, (off + tot) / BSIZE + 1) > |FreeBlocks(m0)|
    ensures Ended(m0, i, off, n, readable, tot, NoSpace, 0)
  {
    hide Need, FreeBlocks, Chunks;
    var lo, b := off / BSIZE, (off + tot) / BSIZE + 1;
    ChunksPast(off, tot, n);
    ChunksFit(off, n);
    NeedMono(m0, i, lo, b, lo + Chunks(off, n));
    if tot < readable < n {
      ChunksPast(off, tot, readable);
      ChunksFit(off, readable);
      NeedMono(m0, i, lo, b, lo + Chunks(off, readable));
    } else {
      AtBoundary(off, tot, k);
    }
  }

  lemma HowItEnds(m0: Image, own0: Owners, m: Image, own: Owners, i: nat, off: nat, n: nat, readable: nat, tot: nat,
                  k: nat,
                  outcome: Outcome, adv: nat)
    requires Inv(m0, own0) && Inv(m, own) && m.sb == m0.sb && i < |m0.itab| && off + n <= MAXBYTES
    requires tot < n && At(off, tot, k) && tot <= readable && (off + tot) / BSIZE < MAXFILE
    requires outcome == Faulted ==> readable < tot + ChunkSize(off + tot, n - tot) && adv == readable - tot
                                    && Ledger(m0, own0, m, own, i, off / BSIZE, (off + tot) / BSIZE + 1)
    requires outcome == NoSpace ==> adv == 0 && Full(m)
                                    && |own| < |own0| + Need(m0, i, off / BSIZE, (off + tot) / BSIZE + 1)
    ensures Ended(m0, i, off, n, readable, tot, outcome, adv)
  {
    hide SlotsOk, OwnersOk, BitsOk, InodesOk, Full, At, Ended, Need, Spent, FreeBlocks, ChunkSize;
    FreeCount(m0, own0);
    FreeCount(m, own);
    match outcome
    case Copied => NotEnded(m0, i, off, n, readable, tot, adv);
    case Faulted => FaultEnds(m0, i, off, n, readable, tot, k, adv);
    case NoSpace =>
      FullCount(m, own);
      NoSpaceEnds(m0, i, off, n, readable, tot, k);
  }

  lemma NotEnded(m0: Image, i: nat, off: nat, n: nat, readable: nat, tot: nat, adv: nat)
    requires m0.Shape() && i < |m0.itab| && off + n <= MAXBYTES
    ensures Ended(m0, i, off, n, readable, tot, Copied, adv)
  {
  }

  /** A write that got through has had room and a readable source. */
  lemma DoneFits(m0: Image, own0: Owners, m: Image, own: Owners, i: nat, off: nat, n: nat, readable: nat)
    requires Inv(m0, own0) && Inv(m, own) && i < |m0.itab| && off + n <= MAXBYTES && n <= readable
    requires Ledger(m0, own0, m, own, i, off / BSIZE, off / BSIZE + Chunks(off, n))
    ensures Fits(m0, i, off, n, readable) && !Tears(m0, i, off, n, readable)
  {
    hide SlotsOk, OwnersOk, BitsOk, InodesOk, Need, FreeBlocks, Spent, Chunks;
    FreeCount(m0, own0);
    FreeCount(m, own);
  }

  lemma LedgerStart(m: Image, own: Owners, i: nat, off: nat)
    requires m.Shape() && i < |m.itab| && off <= MAXBYTES
    ensures Ledger(m, own, m, own, i, off / BSIZE, off / BSIZE) && Chunks(off, 0) == 0
  {
    DivMono(off, MAXBYTES);
    SpentNone(m, i, off / BSIZE);
  }

  // ----- What the log covers -----

  /** From m0 to m the blocks of file i from lo up to hi have been logged. Of the blocks that had an owner
      only these and the indirect block have. Nothing changed outside the log but the blocks `extra`. */
  ghost predicate Covered(m0: Image, own0: Owners, log0: set<nat>, m: Image, own: Owners, logged: set<nat>, i: nat,
                          lo: nat, hi: nat, extra: set<nat>)
  {
    && m.Shape() && i < |m.itab| && Extends(own0, own) && Scoped(own0, log0, logged, i, lo, hi)
    && OnlyIn(m0.blocks, m.blocks, logged + extra)
    && forall bn :: lo <= bn < hi && bn < MAXFILE ==> BlockAddr(m, i, bn) in logged
  }

  lemma CoveredStart(m: Image, own: Owners, log: set<nat>, i: nat, lo: nat)
    requires m.Shape() && i < |m.itab|
    ensures Covered(m, own, log, m, own, log, i, lo, lo, {})
  {
  }

  /** One turn more. */
  lemma CoveredNext(m0: Image, own0: Owners, log0: set<nat>, m: Image, own: Owners, log: set<nat>, m': Image,
                    own': Owners, log': set<nat>, i: nat, lo: nat, bn: nat, outcome: Outcome, adv: nat, addr: nat)
    requires Covered(m0, own0, log0, m, own, log, i, lo, bn, {}) && lo <= bn < MAXFILE && m'.Shape() && i < |m'.itab|
    requires StepCovers(m, own, log, m', own', log', i, bn, outcome, adv, addr)
    requires addr == BlockAddr(m', i, bn) && (outcome == Copied ==> addr != 0)
    ensures Covered(m0, own0, log0, m', own', log', i, lo, if outcome == Copied then bn + 1 else bn,
                    TornAt(outcome, adv, addr))
  {
    hide BlockAddr;
    ScopedTrans(own0, own, log0, log, log', i, lo, bn, bn, if outcome == Copied then bn + 1 else bn);
  }

  /** Block bn of file i, at addr, is in the log after a copy that failed exactly if it was there before or
      the write had to allocate it. */
  ghost predicate TornLogged(m0: Image, log0: set<nat>, logged: set<nat>, i: nat, bn: nat, addr: nat)
    requires m0.Shape() && i < |m0.itab| && bn < MAXFILE
  {
    addr != 0 && (addr in logged <==> addr in log0 || BlockAddr(m0, i, bn) == 0)
  }

  lemma TornIs(m0: Image, own0: Owners, log0: set<nat>, m: Image, own: Owners, log: set<nat>, m': Image, own': Owners,
               log': set<nat>, i: nat, lo: nat, bn: nat, adv: nat, addr: nat)
    requires Inv(m0, own0) && m.Shape() && i < |m0.itab| && i < |m.itab| && lo <= bn < MAXFILE && addr != 0
    requires m'.Shape() && i < |m'.itab|
    requires Covered(m0, own0, log0, m, own, log, i, lo, bn, {}) && Spent(m0, m, i, lo, bn)
    requires StepCovers(m, own, log, m', own', log', i, bn, Faulted, adv, addr)
    ensures TornLogged(m0, log0, log', i, bn, addr)
  {
    hide Inv, BlockAddr, SlotAddr;
    InvShape(m0, own0);
    ScopedTrans(own0, own, log0, log, log', i, lo, bn, bn, bn);
    assert BlockAddr(m, i, bn) == BlockAddr(m0, i, bn);
    if BlockAddr(m0, i, bn) != 0 {
      FileBlockOwned(m0, own0, i, bn);
    }
  }

  /** iupdate adds the inode's block to the log, which nothing owns. */
  lemma CoveredKept(m0: Image, own0: Owners, log0: set<nat>, m: Image, own: Owners, logged: set<nat>, m': Image,
                    i: nat, lo: nat, hi: nat, extra: set<nat>, ib: nat)
    requires Covered(m0, own0, log0, m, own, logged, i, lo, hi, extra) && m'.Shape() && SameSlots(m, m')
    requires Inv(m0, own0) && ib < m0.sb.data && OnlyIn(m.blocks, m'.blocks, {ib})
    ensures Covered(m0, own0, log0, m', own, logged + {ib}, i, lo, hi, extra)
  {
    OwnedAbove(m0, own0);
    SameTable(m, m');
    hide Inv, BlockAddr, SlotAddr, SameSlots;
    forall bn | lo <= bn < hi && bn < MAXFILE
      ensures BlockAddr(m', i, bn) in logged
    {
      SameBlockAddr(m, m', i, bn);
    }
  }

  lemma OwnedAbove(m: Image, own: Owners)
    requires Inv(m, own)
    ensures forall a :: a in own ==> m.sb.data <= a < m.sb.size
  {
  }

  lemma AtChunks(off: nat, tot: nat, k: nat)
    requires At(off, tot, k)
    ensures k == Chunks(off, tot)
  {
    if tot > 0 {
      DivIs(off + tot - 1, off / BSIZE + k - 1, BSIZE - 1);
    }
  }

  /** Where the loop stands after tot bytes: every clause of a write, with tot in place of the whole. */
  ghost predicate Running(m0: Image, own0: Owners, log0: set<nat>, m: Image, own: Owners, logged: set<nat>,
                          i: nat, off: nat, src: seq<byte>, readable: nat, tot: nat, tab: Tab)
  {
    && tot <= |src| && tot <= readable && off + |src| <= MAXBYTES
    && Progress(m0, m, i, off, src[..tot]) && m.itab[i].typ != 0
    && Account(log0, logged, tab, m0.itab[i].addrs[NDIRECT], m.itab[i].addrs[NDIRECT], off, |src|)
    && (if tot < |src| then At(off, tot, tab.chunks) else tab.chunks == Chunks(off, |src|))
    && (tab.chunks == 0 ==> m == m0 && tot == 0)
    && Ledger(m0, own0, m, own, i, off / BSIZE, off / BSIZE + tab.chunks)
    && Covered(m0, own0, log0, m, own, logged, i, off / BSIZE, off / BSIZE + tab.chunks, {})
  }

  /** The loop has ended: tot bytes counted, `copied` in the buffers, and `torn` the
      block in which the copy failed. */
  ghost predicate Stopped(m0: Image, own0: Owners, log0: set<nat>, m: Image, own: Owners, logged: set<nat>,
                          i: nat, off: nat, src: seq<byte>, readable: nat, tot: nat, copied: nat, torn: set<nat>,
                          tab: Tab)
  {
    && tot <= copied <= |src| && (tot == |src| ==> copied == tot) && off + |src| <= MAXBYTES
    && Progress(m0, m, i, off, src[..copied]) && m.itab[i].typ != 0
    && Account(log0, logged, tab, m0.itab[i].addrs[NDIRECT], m.itab[i].addrs[NDIRECT], off, |src|)
    && (tot < |src| ==> readable < |src| || Full(m))
    && (tot == |src| <==> Fits(m0, i, off, |src|, readable))
    && (copied > tot <==> Tears(m0, i, off, |src|, readable))
    && (copied > tot ==> copied == readable)
    && torn == (if copied > tot then {BlockAddr(m, i, (off + readable) / BSIZE)} else {})
    && (tot == |src| ==> Ledger(m0, own0, m, own, i, off / BSIZE, off / BSIZE + Chunks(off, |src|)))
    && Covered(m0, own0, log0, m, own, logged, i, off / BSIZE, off / BSIZE + Chunks(off, tot), torn)
    && (copied > tot ==>
          TornLogged(m0, log0, logged, i, (off + readable) / BSIZE, BlockAddr(m, i, (off + readable) / BSIZE)))
  }

  lemma Starts(m: Image, own: Owners, i: nat, off: nat, src: seq<byte>, readable: nat, logged: set<nat>)
    requires m.Shape() && i < |m.itab| && m.itab[i].typ != 0 && off + |src| <= MAXBYTES
    ensures Running(m, own, logged, m, own, logged, i, off, src, readable, 0, Tab({}, {}, 0, 0))
  {
    hide Progress, Account, Ledger, Covered;
    LoopStart(m, i, off, logged, |src|);
    LedgerStart(m, own, i, off);
    CoveredStart(m, own, logged, i, off / BSIZE);
    assert src[..0] == [];
  }

  lemma Finishes(m0: Image, own0: Owners, log0: set<nat>, m: Image, own: Owners, logged: set<nat>,
                 i: nat, off: nat, src: seq<byte>, readable: nat, tab: Tab)
    requires Inv(m0, own0) && Inv(m, own) && i < |m0.itab|
    requires Running(m0, own0, log0, m, own, logged, i, off, src, readable, |src|, tab)
    ensures Stopped(m0, own0, log0, m, own, logged, i, off, src, readable, |src|, |src|, {}, tab)
  {
    hide Inv, Progress, Account, Ledger, Fits, Tears, Chunks, Full, Covered, TornLogged;
    ProgressParts(m0, m, i, off, src[..|src|]);
    DoneFits(m0, own0, m, own, i, off, |src|, readable);
  }

  /** writei's loop. */
  method WriteLoop(fs: FileSystem, i: nat, src: seq<byte>, readable: nat, off: nat)
    returns (tot: nat, ghost copied: nat, ghost torn: set<nat>, ghost tab: Tab)
    requires fs.Valid() && i < |fs.itab| && fs.itab[i].typ != 0
    requires off <= fs.itab[i].size && off + |src| <= MAXBYTES
    modifies fs
    ensures fs.Valid() && fs.scribbled == old(fs.scribbled) + torn
    ensures Stopped(old(fs.View()), old(fs.own), old(fs.logged), fs.View(), fs.own, fs.logged,
                    i, off, src, readable, tot, copied, torn, tab)
  {
    hide Inv, Settled, Running, Stopped;
    ghost var m0, own0, log0 := fs.View(), fs.own, fs.logged;
    tot, copied, torn, tab := 0, 0, {}, Tab({}, {}, 0, 0);
    InvShape(m0, own0);
    Starts(m0, own0, i, off, src, readable, log0);
    while tot < |src|
      invariant tot == copied <= |src| && torn == {} && fs.scribbled == old(fs.scribbled)
      invariant fs.Valid() && Running(m0, own0, log0, fs.View(), fs.own, fs.logged, i, off, src, readable, tot, tab)
    {
      var outcome, adv;
      outcome, adv, torn, tab := Turn(fs, m0, own0, log0, i, off, src, readable, tot, tab);
      copied := tot + adv;
      if outcome != Copied {
        return;
      }
      tot := tot + adv;
    }
    Finishes(m0, own0, log0, fs.View(), fs.own, fs.logged, i, off, src, readable, tab);
  }

  lemma InvShape(m: Image, own: Owners)
    requires Inv(m, own)
    ensures m.Shape()
  {
  }

  /** One turn of the loop, with its charge. */
  method Turn(fs: FileSystem, ghost m0: Image, ghost own0: Owners, ghost log0: set<nat>, i: nat, off: nat,
              src: seq<byte>,
              readable: nat, tot: nat, ghost tab: Tab)
    returns (outcome: Outcome, adv: nat, ghost torn: set<nat>, ghost tab': Tab)
    requires fs.Valid() && Inv(m0, own0) && i < |m0.itab| && tot < |src| && off <= m0.itab[i].size
    requires Running(m0, own0, log0, fs.View(), fs.own, fs.logged, i, off, src, readable, tot, tab)
    modifies fs
    ensures fs.Valid() && fs.scribbled == old(fs.scribbled) + torn
    ensures tot + adv <= |src| && (outcome == Copied ==> adv > 0 && torn == {})
    ensures outcome == Copied ==>
              Running(m0, own0, log0, fs.View(), fs.own, fs.logged, i, off, src, readable, tot + adv, tab')
    ensures outcome != Copied ==>
              Stopped(m0, own0, log0, fs.View(), fs.own, fs.logged, i, off, src, readable, tot, tot + adv, torn, tab')
  {
    hide Inv, Settled, Running, Stopped, Stepped, Untouched, HoldsBytes, BlockAddr, Charge;
    ghost var m, own1, log1 := fs.View(), fs.own, fs.logged;
    RunningParts(m0, own0, log0, m, own1, log1, i, off, src, readable, tot, tab);
    ghost var addr;
    outcome, adv, addr := WriteStep(fs, m0, i, off, src, readable, tot);
    torn := if outcome == Faulted && adv > 0 then {addr} else {};
    SteppedParts(m0, m, own1, log1, fs.View(), fs.own, fs.logged, i, off, src, readable, tot, outcome, adv, addr);
    tab' := Charge(tab, m, fs.View(), i, (off + tot) / BSIZE, addr);
    if outcome == Copied {
      TurnRuns(m0, own0, log0, m, own1, log1, fs.View(), fs.own, fs.logged, i, off, src, readable, tot, tab, adv, addr);
    } else {
      TurnStops(m0, own0, log0, m, own1, log1, fs.View(), fs.own, fs.logged, i, off, src, readable, tot, tab, outcome,
                adv, addr);
    }
  }

  lemma RunningParts(m0: Image, own0: Owners, log0: set<nat>, m: Image, own: Owners, logged: set<nat>,
                     i: nat, off: nat, src: seq<byte>, readable: nat, tot: nat, tab: Tab)
    requires Running(m0, own0, log0, m, own, logged, i, off, src, readable, tot, tab)
    ensures m0.Shape() && m.Shape() && i < |m0.itab| && i < |m.itab| && m.itab[i].typ != 0 && off + |src| <= MAXBYTES
    ensures Untouched(m0, m, i, off, off + tot) && HoldsBytes(m, i, off, src[..tot])
  {
    hide Untouched, HoldsBytes, Account, Ledger, At, Covered;
    assert |src[..tot]| == tot;
  }

  lemma SteppedParts(m0: Image, m: Image, own: Owners, log: set<nat>, m': Image, own': Owners, log': set<nat>,
                     i: nat, lo: nat, src: seq<byte>, readable: nat, tot: nat, outcome: Outcome, adv: nat, addr: nat)
    requires Stepped(m0, m, own, log, m', own', log', i, lo, src, readable, tot, outcome, adv, addr)
    ensures m.Shape() && m'.Shape() && i < |m.itab| && i < |m'.itab| && (lo + tot) / BSIZE < MAXFILE
    ensures tot + adv <= |src| && (outcome == Copied ==> adv > 0)
  {
  }

  /** What every turn gives, whatever its outcome. */
  lemma TurnSums(m0: Image, own0: Owners, log0: set<nat>, m: Image, own: Owners, log1: set<nat>, m': Image,
                 own': Owners,
                 log2: set<nat>, i: nat, off: nat, src: seq<byte>, readable: nat, tot: nat, tab: Tab,
                 outcome: Outcome, adv: nat, addr: nat)
    requires Inv(m0, own0) && Inv(m', own') && i < |m0.itab| && tot < |src| && off <= m0.itab[i].size
    requires Running(m0, own0, log0, m, own, log1, i, off, src, readable, tot, tab)
    requires Stepped(m0, m, own, log1, m', own', log2, i, off, src, readable, tot, outcome, adv, addr)
    ensures Progress(m0, m', i, off, src[..tot + adv]) && i < |m'.itab| && m'.itab[i].typ == m.itab[i].typ
    ensures var tab' := Charge(tab, m, m', i, (off + tot) / BSIZE, addr);
            && Account(log0, log2, tab', m0.itab[i].addrs[NDIRECT], m'.itab[i].addrs[NDIRECT], off, |src|)
            && tab'.chunks == tab.chunks + 1
    ensures (off + tot) / BSIZE == off / BSIZE + tab.chunks
    ensures addr != 0 ==> Ledger(m0, own0, m', own', i, off / BSIZE, (off + tot) / BSIZE + 1)
    ensures Ended(m0, i, off, |src|, readable, tot, outcome, adv)
  {
    hide Inv, Progress, Account, At, Ledger, Ended, Untouched, HoldsBytes, SameFields, SameInodes, StepLog, Paid, Cost,
         Spent,
         BlockAddr, Charge, Full, Chunks, Covered, StepCovers;
    TurnProgress(m0, m, m', i, off, src, tot, adv);
    ProgressParts(m0, m, i, off, src[..tot]);
    TurnAccount(m0, own0, log0, m, log1, m', log2, i, off, |src|, tot, tab, addr);
    LedgerNext(m0, own0, m, own, m', own', i, off / BSIZE, (off + tot) / BSIZE, addr != 0);
    HowItEnds(m0, own0, m', own', i, off, |src|, readable, tot, tab.chunks, outcome, adv);
  }

  /** What a turn adds to what the log covers. */
  lemma TurnCovers(m0: Image, own0: Owners, log0: set<nat>, m: Image, own: Owners, log1: set<nat>, m': Image,
                   own': Owners, log2: set<nat>, i: nat, off: nat, src: seq<byte>, readable: nat, tot: nat, tab: Tab,
                   outcome: Outcome, adv: nat, addr: nat)
    requires Inv(m0, own0) && Inv(m', own') && i < |m0.itab| && tot < |src|
    requires Running(m0, own0, log0, m, own, log1, i, off, src, readable, tot, tab)
    requires Stepped(m0, m, own, log1, m', own', log2, i, off, src, readable, tot, outcome, adv, addr)
    requires (off + tot) / BSIZE == off / BSIZE + tab.chunks
    ensures Covered(m0, own0, log0, m', own', log2, i, off / BSIZE,
                    if outcome == Copied then (off + tot) / BSIZE + 1 else (off + tot) / BSIZE,
                    TornAt(outcome, adv, addr))
    ensures outcome == Faulted ==> TornLogged(m0, log0, log2, i, (off + tot) / BSIZE, addr)
  {
    hide Inv, Progress, Account, At, Untouched, HoldsBytes, SameFields, SameInodes, StepLog, Paid, Cost, Need, Full,
         Spent, BlockAddr, Chunks, Covered, StepCovers, TornLogged, ChunkSize;
    var lo, bn := off / BSIZE, (off + tot) / BSIZE;
    SteppedParts(m0, m, own, log1, m', own', log2, i, off, src, readable, tot, outcome, adv, addr);
    CoveredNext(m0, own0, log0, m, own, log1, m', own', log2, i, lo, bn, outcome, adv, addr);
    if outcome == Faulted {
      TornIs(m0, own0, log0, m, own, log1, m', own', log2, i, lo, bn, adv, addr);
    }
  }

  lemma TurnRuns(m0: Image, own0: Owners, log0: set<nat>, m: Image, own: Owners, log1: set<nat>, m': Image,
                 own': Owners,
                 log2: set<nat>, i: nat, off: nat, src: seq<byte>, readable: nat, tot: nat, tab: Tab, adv: nat,
                 addr: nat)
    requires Inv(m0, own0) && Inv(m', own') && i < |m0.itab| && tot < |src| && off <= m0.itab[i].size
    requires Running(m0, own0, log0, m, own, log1, i, off, src, readable, tot, tab)
    requires Stepped(m0, m, own, log1, m', own', log2, i, off, src, readable, tot, Copied, adv, addr)
    ensures i < |m'.itab|
    ensures Running(m0, own0, log0, m', own', log2, i, off, src, readable, tot + adv,
                    Charge(tab, m, m', i, (off + tot) / BSIZE, addr))
  {
    hide Inv, Progress, Account, Ledger, Ended, Untouched, HoldsBytes, SameFields, SameInodes, StepLog, Paid, Cost,
         Spent, BlockAddr, Charge, Full, Chunks, At, ChunkSize, Covered, StepCovers, TornLogged;
    TurnSums(m0, own0, log0, m, own, log1, m', own', log2, i, off, src, readable, tot, tab, Copied, adv, addr);
    TurnCovers(m0, own0, log0, m, own, log1, m', own', log2, i, off, src, readable, tot, tab, Copied, adv, addr);
    TurnNext(off, |src|, tot, tab.chunks);
  }

  /** Where the next turn starts. */
  lemma TurnNext(off: nat, n: nat, tot: nat, k: nat)
    requires tot < n && At(off, tot, k)
    ensures var c := ChunkSize(off + tot, n - tot);
            if tot + c < n then At(off, tot + c, k + 1) else k + 1 == Chunks(off, n)
  {
    AtNext(off, tot, k, n);
    if tot + ChunkSize(off + tot, n - tot) == n {
      LastChunk(off, tot, n);
    }
  }

  lemma TurnStops(m0: Image, own0: Owners, log0: set<nat>, m: Image, own: Owners, log1: set<nat>, m': Image,
                  own': Owners,
                  log2: set<nat>, i: nat, off: nat, src: seq<byte>, readable: nat, tot: nat, tab: Tab,
                  outcome: Outcome, adv: nat, addr: nat)
    requires Inv(m0, own0) && Inv(m', own') && i < |m0.itab| && tot < |src| && off <= m0.itab[i].size
    requires Running(m0, own0, log0, m, own, log1, i, off, src, readable, tot, tab) && outcome != Copied
    requires Stepped(m0, m, own, log1, m', own', log2, i, off, src, readable, tot, outcome, adv, addr)
    ensures i < |m'.itab|
    ensures Stopped(m0, own0, log0, m', own', log2, i, off, src, readable, tot, tot + adv,
                    if outcome == Faulted && adv > 0 then {addr} else {},
                    Charge(tab, m, m', i, (off + tot) / BSIZE, addr))
  {
    hide Inv, Progress, Account, Ledger, Untouched, HoldsBytes, SameFields, SameInodes, StepLog, Paid, Cost, Spent,
         BlockAddr, Charge, Full, Chunks, At, Fits, Tears, Covered, StepCovers, TornLogged;
    TurnSums(m0, own0, log0, m, own, log1, m', own', log2, i, off, src, readable, tot, tab, outcome, adv, addr);
    TurnCovers(m0, own0, log0, m, own, log1, m', own', log2, i, off, src, readable, tot, tab, outcome, adv, addr);
    AtChunks(off, tot, tab.chunks);
  }

  lemma ProgressParts(m0: Image, m: Image, i: nat, off: nat, bs: seq<byte>)
    requires Progress(m0, m, i, off, bs)
    ensures m0.Shape() && m.Shape() && i < |m0.itab| && i < |m.itab| && m.sb == m0.sb && off + |bs| <= MAXBYTES
    ensures Untouched(m0, m, i, off, off + |bs|) && HoldsBytes(m, i, off, bs)
  {
  }

  lemma TurnProgress(m0: Image, m: Image, m': Image, i: nat, off: nat, src: seq<byte>, tot: nat, adv: nat)
    requires tot + adv <= |src| && off + |src| <= MAXBYTES && Progress(m0, m, i, off, src[..tot])
    requires m'.Shape() && m'.sb == m.sb && SameFields(m.itab, m'.itab, i) && SameInodes(m.sb, m.blocks, m'.blocks)
    requires Untouched(m0, m', i, off, off + tot + adv) && HoldsBytes(m', i, off, src[..tot + adv])
    ensures Progress(m0, m', i, off, src[..tot + adv])
    ensures i < |m'.itab| && m'.itab[i].typ == m.itab[i].typ
  {
    hide Untouched, HoldsBytes, SameInodes;
    assert off + |src[..tot + adv]| == off + tot + adv;
    SameInodesTrans(m.sb, m0.blocks, m.blocks, m'.blocks);
  }

  lemma LastChunk(off: nat, tot: nat, n: nat)
    requires tot < n && tot + ChunkSize(off + tot, n - tot) == n
    ensures (off + tot) / BSIZE + 1 == off / BSIZE + Chunks(off, n)
  {
    DivIs(off + n - 1, (off + tot) / BSIZE, (off + tot) % BSIZE + (n - tot) - 1);
  }

  /** What a turn adds to the bill, and where the next one starts. */
  lemma TurnAccount(m0: Image, own0: Owners, log0: set<nat>, m: Image, log1: set<nat>, m': Image, log2: set<nat>,
                    i: nat, off: nat, n: nat, tot: nat, tab: Tab, addr: nat)
    requires Inv(m0, own0) && m.Shape() && m'.Shape() && i < |m0.itab| && i < |m.itab| && i < |m'.itab|
    requires tot < n && off + n <= MAXBYTES && off <= m0.itab[i].size && At(off, tot, tab.chunks)
    requires tab.chunks == 0 ==> m == m0 && tot == 0
    requires Account(log0, log1, tab, m0.itab[i].addrs[NDIRECT], m.itab[i].addrs[NDIRECT], off, n)
    requires log2 <= log1 + StepLog(m, m', i, (off + tot) / BSIZE, addr)
    requires m.itab[i].addrs[NDIRECT] != 0 ==> m'.itab[i].addrs[NDIRECT] == m.itab[i].addrs[NDIRECT]
    ensures var tab' := Charge(tab, m, m', i, (off + tot) / BSIZE, addr);
            && Account(log0, log2, tab', m0.itab[i].addrs[NDIRECT], m'.itab[i].addrs[NDIRECT], off, n)
            && tab'.chunks == tab.chunks + 1
    ensures (off + tot) / BSIZE == off / BSIZE + tab.chunks
  {
    hide SlotsOk, OwnersOk, BitsOk, InodesOk, SlotAddr, BlockAddr, Account, Chunks, StepLog, StepMaps;
    if tab.chunks == 0 && off % BSIZE != 0 {
      FirstMapped(m0, own0, i, off);
    }
    AtNext(off, tot, tab.chunks, n);
    ChargeAccount(log0, log1, tab, m0.itab[i].addrs[NDIRECT], m, m', i, (off + tot) / BSIZE, log2, addr, off, n);
  }

  /** writei's error returns: past the end, wrapped around, or beyond the largest file. */
  predicate WriteRejected(size: nat, off: nat, n: nat) {
    off > size || off + n >= UINT_MAX || off + n > MAXBYTES
  }

  /** File i of m is file i of m0 after bs was placed at off and tot bytes of it counted;
      every other file and inode is the same. */
  ghost predicate Wrote(m0: Image, m: Image, i: nat, off: nat, bs: seq<byte>, tot: nat)
    requires m0.Shape() && m.Shape() && i < |m0.itab|
  {
    && m.sb == m0.sb && tot <= |bs| && off <= |Contents(m0, i)|
    && Contents(m, i) == AfterWrite(Contents(m0, i), off, bs, tot)
    && m.itab[i] == m0.itab[i].(addrs := m.itab[i].addrs, size := |Contents(m, i)|)
    && forall j :: 0 <= j < |m0.itab| && j != i ==> m.itab[j] == m0.itab[j] && Contents(m, j) == Contents(m0, j)
  }

  /** writei: src is the caller's buffer, of which the first `readable` bytes can be copied.
      It is complete exactly when the source is readable and there are enough free blocks. `copied` counts
      the bytes that reached a buffer. It exceeds the result r exactly when the source gives out inside
      a block that can be had. The log then has every block that changed, but for that one if the file had it
      before and this transaction had not logged it. */
  method Writei(fs: FileSystem, i: nat, src: seq<byte>, readable: nat, off: nat)
    returns (r: int, ghost copied: nat, ghost tab: Tab)
    requires fs.Valid() && Synced(fs.View()) && i < |fs.itab| && fs.itab[i].typ != 0
    requires off < UINT_MAX && |src| < UINT_MAX
    modifies fs
    ensures fs.Valid() && Synced(fs.View())
    ensures r == -1 <==> WriteRejected(old(fs.itab)[i].size, off, |src|)
    ensures r == -1 <==> off > old(fs.itab)[i].size || off + |src| >= 0x1_0000_0000 || off + |src| > 268 * 1024
    ensures r == -1 ==> fs.View() == old(fs.View()) && fs.logged == old(fs.logged) && fs.scribbled == old(fs.scribbled)
    ensures r != -1 ==> 0 <= r <= copied <= |src| && (r == |src| ==> copied == r)
    ensures r != -1 ==> Wrote(old(fs.View()), fs.View(), i, off, src[..copied], r)
    ensures 0 <= r < |src| ==> readable < |src| || Full(fs.View())
    ensures r != -1 ==> (r == |src| <==> Fits(old(fs.View()), i, off, |src|, readable))
    ensures r != -1 ==> (copied > r <==> Tears(old(fs.View()), i, off, |src|, readable))
    ensures r != -1 && copied > r ==> copied == readable
    ensures r != -1 ==> fs.scribbled == old(fs.scribbled) + Torn(old(fs.View()), fs.View(), i, off, |src|, readable)
    ensures r != -1 ==>
              Torn(old(fs.View()), fs.View(), i, off, |src|, readable) - fs.logged ==
              LostBlock(old(fs.View()), fs.View(), i, off, |src|, readable) - old(fs.logged)
    ensures r != -1 ==>
              Covered(old(fs.View()), old(fs.own), old(fs.logged), fs.View(), fs.own, fs.logged, i, off / BSIZE,
                      off / BSIZE + Chunks(off, r), LostBlock(old(fs.View()), fs.View(), i, off, |src|, readable))
    ensures r == |src| ==>
              Ledger(old(fs.View()), old(fs.own), fs.View(), fs.own, i, off / BSIZE, off / BSIZE + Chunks(off, |src|))
    ensures r != -1 ==>
              exists log1 :: (fs.logged == log1 + {fs.sb.IBlock(i)} &&
                Account(old(fs.logged), log1, tab, old(fs.itab)[i].addrs[NDIRECT], fs.itab[i].addrs[NDIRECT], off,
                        |src|))
  {
    hide Inv, Full, Account, Settled, Synced, Wrote, BlockAddr, Fits, Tears, Torn, Ledger, Covered, LostBlock;
    copied, tab := 0, Tab({}, {}, 0, 0);
    if off > fs.itab[i].size || off + |src| >= UINT_MAX {
      return -1, copied, tab;
    }
    if off + |src| > MAXBYTES {
      return -1, copied, tab;
    }
    r, copied, tab := WriteBody(fs, i, src, readable, off);
  }

  /** The block a write is torn in, if it is. */
  ghost function Torn(m0: Image, m: Image, i: nat, off: nat, n: nat, readable: nat): (r: set<nat>)
    requires m0.Shape() && m.Shape() && i < |m0.itab| && i < |m.itab| && off + n <= MAXBYTES
  {
    if Tears(m0, i, off, n, readable) then {BlockAddr(m, i, (off + readable) / BSIZE)} else {}
  }

  /** A write is torn in a block that the file had before: only then is the change left out of the log. */
  ghost predicate Lost(m0: Image, i: nat, off: nat, n: nat, readable: nat)
    requires m0.Shape() && i < |m0.itab| && off + n <= MAXBYTES
  {
    Tears(m0, i, off, n, readable) && BlockAddr(m0, i, (off + readable) / BSIZE) != 0
  }

  /** The block whose change is lost. */
  ghost function LostBlock(m0: Image, m: Image, i: nat, off: nat, n: nat, readable: nat): (r: set<nat>)
    requires m0.Shape() && m.Shape() && i < |m0.itab| && i < |m.itab| && off + n <= MAXBYTES
  {
    if Lost(m0, i, off, n, readable) then {BlockAddr(m, i, (off + readable) / BSIZE)} else {}
  }

  /** What a write has logged once the inode has been put back. */
  lemma StoppedCovers(m0: Image, own0: Owners, log0: set<nat>, m: Image, own: Owners, logged: set<nat>, m': Image,
                      i: nat, off: nat, src: seq<byte>, readable: nat, tot: nat, copied: nat, torn: set<nat>, tab: Tab,
                      ib: nat)
    requires Stopped(m0, own0, log0, m, own, logged, i, off, src, readable, tot, copied, torn, tab)
    requires Inv(m0, own0) && Inv(m, own) && m'.Shape() && SameSlots(m, m')
    requires ib < m0.sb.data && OnlyIn(m.blocks, m'.blocks, {ib})
    ensures i < |m0.itab| && i < |m'.itab| && off + |src| <= MAXBYTES
    ensures Covered(m0, own0, log0, m', own, logged + {ib}, i, off / BSIZE, off / BSIZE + Chunks(off, tot),
                    LostBlock(m0, m', i, off, |src|, readable))
    ensures Torn(m0, m', i, off, |src|, readable) - (logged + {ib}) == LostBlock(m0, m', i, off, |src|, readable) - log0
  {
    hide SlotAddr, BlockAddr, SameSlots, Account, Full, Fits, NeedFor, FreeBlocks, Ledger, Chunks, Untouched,
         HoldsBytes, Inv,
         Covered;
    SameTable(m, m');
    CoveredKept(m0, own0, log0, m, own, logged, m', i, off / BSIZE, off / BSIZE + Chunks(off, tot), torn, ib);
    if copied > tot {
      SameBlockAddr(m, m', i, (off + readable) / BSIZE);
      TornAbove(m, own, i, (off + readable) / BSIZE);
    }
    CoveredLess(m0, own0, log0, m', own, logged + {ib}, i, off / BSIZE, off / BSIZE + Chunks(off, tot), torn,
                LostBlock(m0, m', i, off, |src|, readable));
  }

  lemma TornAbove(m: Image, own: Owners, i: nat, bn: nat)
    requires Inv(m, own) && i < |m.itab| && bn < MAXFILE && BlockAddr(m, i, bn) != 0
    ensures BlockAddr(m, i, bn) >= m.sb.data
  {
    FileBlockOwned(m, own, i, bn);
  }

  lemma CoveredLess(m0: Image, own0: Owners, log0: set<nat>, m: Image, own: Owners, logged: set<nat>, i: nat,
                    lo: nat, hi: nat, extra: set<nat>, less: set<nat>)
    requires Covered(m0, own0, log0, m, own, logged, i, lo, hi, extra) && extra <= logged + less
    ensures Covered(m0, own0, log0, m, own, logged, i, lo, hi, less)
  {
    hide BlockAddr;
  }

  /** writei past its checks. */
  method WriteBody(fs: FileSystem, i: nat, src: seq<byte>, readable: nat, off: nat)
    returns (tot: nat, ghost copied: nat, ghost tab: Tab)
    requires fs.Valid() && Synced(fs.View()) && i < |fs.itab| && fs.itab[i].typ != 0
    requires off <= fs.itab[i].size && off + |src| <= MAXBYTES
    modifies fs
    ensures fs.Valid() && Synced(fs.View()) && tot <= copied <= |src| && (tot == |src| ==> copied == tot)
    ensures Wrote(old(fs.View()), fs.View(), i, off, src[..copied], tot)
    ensures tot < |src| ==> readable < |src| || Full(fs.View())
    ensures tot == |src| <==> Fits(old(fs.View()), i, off, |src|, readable)
    ensures copied > tot <==> Tears(old(fs.View()), i, off, |src|, readable)
    ensures copied > tot ==> copied == readable
    ensures fs.scribbled == old(fs.scribbled) + Torn(old(fs.View()), fs.View(), i, off, |src|, readable)
    ensures Torn(old(fs.View()), fs.View(), i, off, |src|, readable) - fs.logged ==
              LostBlock(old(fs.View()), fs.View(), i, off, |src|, readable) - old(fs.logged)
    ensures Covered(old(fs.View()), old(fs.own), old(fs.logged), fs.View(), fs.own, fs.logged, i, off / BSIZE,
                      off / BSIZE + Chunks(off, tot), LostBlock(old(fs.View()), fs.View(), i, off, |src|, readable))
    ensures tot == |src| ==>
              Ledger(old(fs.View()), old(fs.own), fs.View(), fs.own, i, off / BSIZE, off / BSIZE + Chunks(off, |src|))
    ensures exists log1 :: (fs.logged == log1 + {fs.sb.IBlock(i)} &&
              Account(old(fs.logged), log1, tab, old(fs.itab)[i].addrs[NDIRECT], fs.itab[i].addrs[NDIRECT], off, |src|))
  {
    hide Inv, SlotAddr, BlockAddr, Full, Account, Settled, Progress, Synced, Wrote, SameSlots, Stopped, Fits, Tears,
         Torn, Ledger, Chunks, Covered, LostBlock, OnlyIn;
    ghost var m0, own0, log0 := fs.View(), fs.own, fs.logged;
    ghost var torn;
    tot, copied, torn, tab := WriteLoop(fs, i, src, readable, off);
    ghost var m1, log1 := fs.View(), fs.logged;
    InvShape(m0, own0);
    InvShape(m1, fs.own);
    StoppedParts(m0, own0, log0, m1, fs.own, log1, i, off, src, readable, tot, copied, torn, tab);
    FinishWrite(fs, m0, own0, i, off, src[..copied], tot);
    InvShape(fs.View(), fs.own);
    StoppedSame(m0, own0, log0, m1, fs.own, log1, fs.View(), i, off, src, readable, tot, copied, torn, tab);
    StoppedCovers(m0, own0, log0, m1, fs.own, log1, fs.View(), i, off, src, readable, tot, copied, torn, tab,
                  fs.sb.IBlock(i));
    assert fs.logged == log1 + {fs.sb.IBlock(i)};
  }

  lemma StoppedParts(m0: Image, own0: Owners, log0: set<nat>, m: Image, own: Owners, logged: set<nat>,
                     i: nat, off: nat, src: seq<byte>, readable: nat, tot: nat, copied: nat, torn: set<nat>, tab: Tab)
    requires Stopped(m0, own0, log0, m, own, logged, i, off, src, readable, tot, copied, torn, tab)
    ensures tot <= copied <= |src| && (tot == |src| ==> copied == tot) && i < |m0.itab| && i < |m.itab|
    ensures m0.Shape() && m.Shape() && Progress(m0, m, i, off, src[..copied]) && m.itab[i].typ != 0
    ensures Account(log0, logged, tab, m0.itab[i].addrs[NDIRECT], m.itab[i].addrs[NDIRECT], off, |src|)
    ensures tot < |src| ==> readable < |src| || Full(m)
    ensures tot == |src| <==> Fits(m0, i, off, |src|, readable)
    ensures copied > tot <==> Tears(m0, i, off, |src|, readable)
    ensures copied > tot ==> copied == readable
  {
    hide Account, Full, Fits, Tears, Ledger;
  }

  /** What follows from the loop after the inode has been put back. */
  lemma StoppedSame(m0: Image, own0: Owners, log0: set<nat>, m: Image, own: Owners, logged: set<nat>, m': Image,
                    i: nat, off: nat, src: seq<byte>, readable: nat, tot: nat, copied: nat, torn: set<nat>, tab: Tab)
    requires Stopped(m0, own0, log0, m, own, logged, i, off, src, readable, tot, copied, torn, tab)
    requires m.Shape() && m'.Shape() && SameSlots(m, m')
    ensures m0.Shape() && i < |m0.itab| && i < |m'.itab| && off + |src| <= MAXBYTES
    ensures torn == Torn(m0, m', i, off, |src|, readable)
    ensures tot == |src| ==> Ledger(m0, own0, m', own, i, off / BSIZE, off / BSIZE + Chunks(off, |src|))
  {
    hide SlotAddr, BlockAddr, SameSlots, Account, Full, Fits, Ledger, Chunks, Untouched, HoldsBytes;
    if copied > tot {
      SameBlockAddr(m, m', i, (off + readable) / BSIZE);
    }
    if tot == |src| {
      LedgerSame(m0, own0, m, own, m', i, off / BSIZE, off / BSIZE + Chunks(off, |src|));
    }
    SameTable(m, m');
  }

  /** The end of writei: the new size, and iupdate whether or not the size changed. */
  method FinishWrite(fs: FileSystem, ghost m0: Image, ghost own0: Owners, i: nat, off: nat, ghost bs: seq<byte>,
                     tot: nat)
    requires fs.Valid() && Inv(m0, own0) && Synced(m0) && i < |fs.itab| && fs.itab[i].typ != 0
    requires Progress(m0, fs.View(), i, off, bs) && tot <= |bs| && i < |m0.itab| && off <= m0.itab[i].size
    modifies fs`itab, fs`blocks, fs`logged
    ensures fs.Valid() && Synced(fs.View()) && Wrote(m0, fs.View(), i, off, bs, tot)
    ensures fs.itab[i].addrs == old(fs.itab)[i].addrs
    ensures SameSlots(old(fs.View()), fs.View())
    ensures fs.logged == old(fs.logged) + {fs.sb.IBlock(i)}
    ensures OnlyIn(old(fs.blocks), fs.blocks, {fs.sb.IBlock(i)}) && fs.sb.IBlock(i) < fs.sb.data
    ensures Full(old(fs.View())) ==> Full(fs.View())
  {
    hide Inv, BlockAddr, Full, Progress, Synced, Wrote, SetDinode, Preserved, SameSlots, OnlyIn;
    ghost var m1 := fs.View();
    InvShape(m0, own0);
    InvShape(m1, fs.own);
    InodeBelowData(m1, i);
    WriteGrows(m0, own0, m1, fs.own, i, off, bs, tot);
    if off + tot > fs.itab[i].size {
      fs.itab := fs.itab[i := fs.itab[i].(size := off + tot)];
    }
    ghost var m2 := fs.View();
    assert m2 == SetSize(m1, i, if off + tot > m1.itab[i].size then off + tot else m1.itab[i].size);
    InvShape(m2, fs.own);
    Iupdate(fs, i);
    InvShape(fs.View(), fs.own);
    WroteKept(m0, m2, fs.own, fs.View(), i, off, bs, tot);
    SyncAfter(m0, m1, m2, i, off, bs);
    FullKept(m1, i, m2.itab[i], fs.View());
    SameSlotsTrans(m1, m2, fs.View());
  }

  lemma InodeBelowData(m: Image, i: nat)
    requires m.Shape() && i < |m.itab|
    ensures m.sb.IBlock(i) < m.sb.data
  {
    InodeBlockRange(m.sb, i);
  }

  lemma SameSlotsTrans(m: Image, m1: Image, m2: Image)
    requires m.Shape() && m1.Shape() && m2.Shape() && SameSlots(m, m1) && SameSlots(m1, m2)
    ensures SameSlots(m, m2)
  {
    hide SlotAddr;
  }

  lemma SameTable(m: Image, m': Image)
    requires m.Shape() && m'.Shape() && SameSlots(m, m')
    ensures |m'.itab| == |m.itab|
  {
  }

  lemma SameBlockAddr(m: Image, m': Image, i: nat, bn: nat)
    requires m.Shape() && m'.Shape() && SameSlots(m, m') && i < |m.itab| && bn < MAXFILE
    ensures BlockAddr(m', i, bn) == BlockAddr(m, i, bn)
  {
    hide SlotAddr;
  }

  lemma FullKept(m: Image, i: nat, d: Inode, m': Image)
    requires m.Shape() && m'.Shape() && m'.sb == m.sb && i < |m.itab| && d.Valid() && m.sb.IBlock(i) < |m.blocks|
    requires m'.blocks == SetDinode(m.sb, m.blocks, i, d)
    ensures Full(m) ==> Full(m')
  {
    DinodeFrame(m.sb, m.blocks, i, d);
    hide SetDinode;
    forall a | 0 <= a < m.sb.size && m.sb.BBlock(a) < m.sb.size
      ensures Bit(m.sb, m.blocks, a) == Bit(m.sb, m'.blocks, a)
    {
      BBlockRange(m.sb, a);
    }
  }

  /** Only inode i was out of step with the disk, and iupdate puts it back. */
  lemma SyncAfter(m0: Image, m1: Image, m2: Image, i: nat, off: nat, bs: seq<byte>)
    requires m0.Shape() && Synced(m0) && Progress(m0, m1, i, off, bs) && m2.Shape() && i < |m2.itab|
    requires m2.blocks == m1.blocks && m2.sb == m1.sb && SameButOne(m1.itab, m2.itab, i)
    ensures m2.sb.IBlock(i) < |m2.blocks|
    ensures m2.(blocks := SetDinode(m2.sb, m2.blocks, i, m2.itab[i])).Shape()
    ensures Synced(m2.(blocks := SetDinode(m2.sb, m2.blocks, i, m2.itab[i])))
  {
    hide Untouched, HoldsBytes;
    InodeBlockRange(m2.sb, i);
    forall j | 0 <= j < |m2.itab| && j != i
      ensures m2.sb.IBlock(j) < |m2.blocks| && Dinode(m2.sb, m2.blocks, j) == m2.itab[j]
    {
      InodeBlockRange(m2.sb, j);
      assert m2.blocks[m2.sb.IBlock(j)] == m0.blocks[m0.sb.IBlock(j)];
    }
    UpdateSyncs(m2, i);
  }

  ghost predicate SameButOne(x: seq<Inode>, y: seq<Inode>, i: nat) {
    |x| == |y| && forall j :: 0 <= j < |x| && j != i ==> y[j] == x[j]
  }

  /** After the loop: the new size is sound, and the file reads as it should. */
  lemma WriteGrows(m0: Image, own0: Owners, m: Image, own: Owners, i: nat, off: nat, bs: seq<byte>, tot: nat)
    requires Inv(m0, own0) && Inv(m, own) && i < |m.itab| && m.itab[i].typ != 0
    requires Progress(m0, m, i, off, bs) && tot <= |bs| && off <= m0.itab[i].size
    ensures m.itab[i].size == m0.itab[i].size
    ensures var size := if off + tot > m.itab[i].size then off + tot else m.itab[i].size;
            var m' := SetSize(m, i, size);
            && Inv(m', own) && SameSlots(m, m') && Wrote(m0, m', i, off, bs, tot)
  {
    assert InodeOk(m0, i);
    var size := if off + tot > m.itab[i].size then off + tot else m.itab[i].size;
    GrownIsMapped(m0, own0, m, i, off, bs, size);
    hide SlotsOk, OwnersOk, BitsOk, InodesOk, SlotAddr, BlockAddr;
    SetSizeKeeps(m, own, i, size);
    var m' := SetSize(m, i, size);
    SameBlocksPreserved(m, m');
    MapKeepsBytes(m0, m, m', i, off, bs);
    ContentsAfter(m0, own0, m', i, off, bs, tot);
    forall j | 0 <= j < |m0.itab| && j != i
      ensures m'.itab[j] == m0.itab[j] && Contents(m', j) == Contents(m0, j)
    {
      ContentsSame(m0, own0, m', i, off, off + |bs|, j);
    }
    ContentsSize(m', own, i);
  }

  lemma SameBlocksPreserved(m: Image, m': Image)
    requires m.Shape() && m'.Shape() && SameSlots(m, m') && m'.blocks == m.blocks
    ensures Preserved(m, m')
  {
    hide SlotAddr;
  }

  lemma ContentsSize(m: Image, own: Owners, i: nat)
    requires Inv(m, own) && i < |m.itab|
    ensures |Contents(m, i)| == m.itab[i].size
  {
    assert InodeOk(m, i);
  }

  /** Keeping every mapped block keeps every file. */
  lemma PreservedContents(m: Image, own: Owners, m': Image, j: nat)
    requires Inv(m, own) && m'.Shape() && Preserved(m, m') && j < |m.itab| && m'.itab[j].size == m.itab[j].size
    ensures Contents(m', j) == Contents(m, j)
  {
    assert InodeOk(m, j);
    forall o | 0 <= o < m.itab[j].size
      ensures ByteAt(m', j, o) == ByteAt(m, j, o)
    {
      FileBlocksMapped(m, own, j, o);
      PreservedByte(m, m', j, o);
    }
  }

  lemma WroteKept(m0: Image, m: Image, own: Owners, m': Image, i: nat, off: nat, bs: seq<byte>, tot: nat)
    requires m0.Shape() && Inv(m, own) && m'.Shape() && i < |m0.itab| && Wrote(m0, m, i, off, bs, tot)
    requires Preserved(m, m') && m'.itab == m.itab && m'.sb == m.sb
    ensures Wrote(m0, m', i, off, bs, tot)
  {
    hide Preserved, Contents;
    forall j | 0 <= j < |m.itab| ensures Contents(m', j) == Contents(m, j) { PreservedContents(m, own, m', j); }
  }
}
