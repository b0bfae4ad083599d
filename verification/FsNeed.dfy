/** How many free blocks a write takes, counted on the image before it. */
module FsNeed {
  import opened Collections
  import opened Blocks
  import opened FsLayout
  import opened FsImage
  import opened FsFile
  import opened FsBytes
  import opened FsCode

  // ----- Free blocks -----

  /** The blocks whose bit is clear. */
  ghost function FreeBlocks(m: Image): (r: set<nat>)
    requires m.Shape()
  {
    set a: nat | a < m.sb.size && m.sb.BBlock(a) < |m.blocks| && !Bit(m.sb, m.blocks, a)
  }

  /** A data block is free or it is somebody's. */
  lemma FreeCount(m: Image, own: Owners)
    requires Inv(m, own)
    ensures |FreeBlocks(m)| + |own| == m.sb.size - m.sb.data
  {
    hide SlotsOk, InodesOk, Bit;
    var data := Range(m.sb.data, m.sb.size);
    RangeSize(m.sb.data, m.sb.size);
    forall a: nat
      ensures a in FreeBlocks(m) <==> a in data - own.Keys
    {
      if a < m.sb.size {
        assert m.sb.BBlock(a) < m.sb.data;
      }
    }
    assert FreeBlocks(m) == data - own.Keys;
    assert own.Keys <= data;
    assert |data - own.Keys| == |data| - |own.Keys|;
    assert |own.Keys| == |own|;
  }

  lemma FullCount(m: Image, own: Owners)
    requires Inv(m, own) && Full(m)
    ensures |own| == m.sb.size - m.sb.data && FreeBlocks(m) == {}
  {
    FreeCount(m, own);
    hide SlotsOk, OwnersOk, InodesOk, Bit;
    assert FreeBlocks(m) == {};
  }

  // ----- Counting -----

  /** Blocks a transfer of n bytes at offset off touches. */
  function Chunks(off: nat, n: nat): (c: nat)
    ensures n > 0 ==> c > 0
  {
    if n == 0 then 0
    else
      LastBlock(off, n);
      (off + n - 1) / BSIZE - off / BSIZE + 1
  }

  lemma LastBlock(off: nat, n: nat)
    requires n > 0
    ensures off / BSIZE <= (off + n - 1) / BSIZE
  {
    DivMono(off, off + n - 1);
  }

  lemma DivMono(a: nat, b: nat)
    requires a <= b
    ensures a / BSIZE <= b / BSIZE
  {
    var q, r := a / BSIZE, b / BSIZE;
    assert a == BSIZE * q + a % BSIZE && b == BSIZE * r + b % BSIZE;
    assert q <= r;
  }

  lemma ChunksMono(off: nat, n: nat, n': nat)
    requires n <= n'
    ensures Chunks(off, n) <= Chunks(off, n')
  {
    if n > 0 {
      DivMono(off + n - 1, off + n' - 1);
    }
  }

  /** A transfer ends within block off / BSIZE + Chunks(off, n) - 1. */
  lemma ChunksFit(off: nat, n: nat)
    requires off + n <= MAXBYTES
    ensures off / BSIZE + Chunks(off, n) <= MAXFILE
  {
    if n > 0 {
      DivMono(off + n - 1, MAXBYTES - 1);
    } else {
      DivMono(off, MAXBYTES);
    }
  }

  /** The unmapped blocks of file i from lo up to hi. */
  ghost function Unmapped(m: Image, i: nat, lo: nat, hi: nat): (n: nat)
    requires m.Shape() && i < |m.itab| && hi <= MAXFILE
    decreases hi
  {
    if hi <= lo then 0 else Unmapped(m, i, lo, hi - 1) + if BlockAddr(m, i, hi - 1) == 0 then 1 else 0
  }

  predicate Reaches(lo: nat, hi: nat) {
    lo < hi && hi > NDIRECT
  }

  /** The free blocks it takes to map all of them, the indirect block included. */
  ghost function Need(m: Image, i: nat, lo: nat, hi: nat): (n: nat)
    requires m.Shape() && i < |m.itab| && hi <= MAXFILE
  {
    Unmapped(m, i, lo, hi) + if Reaches(lo, hi) && m.itab[i].addrs[NDIRECT] == 0 then 1 else 0
  }

  /** The free blocks a write of n bytes at off takes. */
  ghost function NeedFor(m: Image, i: nat, off: nat, n: nat): (r: nat)
    requires m.Shape() && i < |m.itab| && off + n <= MAXBYTES
  {
    ChunksFit(off, n);
    Need(m, i, off / BSIZE, off / BSIZE + Chunks(off, n))
  }

  lemma {:induction false} UnmappedMono(m: Image, i: nat, lo: nat, hi: nat, hi': nat)
    requires m.Shape() && i < |m.itab| && hi <= hi' <= MAXFILE
    ensures Unmapped(m, i, lo, hi) <= Unmapped(m, i, lo, hi')
    decreases hi'
  {
    if hi < hi' {
      UnmappedMono(m, i, lo, hi, hi' - 1);
    }
  }

  lemma NeedMono(m: Image, i: nat, lo: nat, hi: nat, hi': nat)
    requires m.Shape() && i < |m.itab| && hi <= hi' <= MAXFILE
    ensures Need(m, i, lo, hi) <= Need(m, i, lo, hi')
  {
    UnmappedMono(m, i, lo, hi, hi');
  }

  lemma NeedForMono(m: Image, i: nat, off: nat, n: nat, n': nat)
    requires m.Shape() && i < |m.itab| && n <= n' && off + n' <= MAXBYTES
    ensures NeedFor(m, i, off, n) <= NeedFor(m, i, off, n')
  {
    ChunksMono(off, n, n');
    ChunksFit(off, n');
    NeedMono(m, i, off / BSIZE, off / BSIZE + Chunks(off, n), off / BSIZE + Chunks(off, n'));
  }

  // ----- Spending -----

  /** From m0 to m the blocks of file i from lo up to hi have been mapped, and no other. */
  ghost predicate Spent(m0: Image, m: Image, i: nat, lo: nat, hi: nat)
    requires m0.Shape() && m.Shape() && i < |m0.itab| && i < |m.itab|
  {
    && (forall bn :: lo <= bn < hi && bn < MAXFILE ==> BlockAddr(m, i, bn) != 0)
    && (forall bn :: 0 <= bn < MAXFILE && !(lo <= bn < hi) ==> BlockAddr(m, i, bn) == BlockAddr(m0, i, bn))
    && (m.itab[i].addrs[NDIRECT] == 0 <==> m0.itab[i].addrs[NDIRECT] == 0 && !Reaches(lo, hi))
  }

  lemma SpentNone(m: Image, i: nat, lo: nat)
    requires m.Shape() && i < |m.itab| && lo <= MAXFILE
    ensures Spent(m, m, i, lo, lo) && Need(m, i, lo, lo) == 0
  {
  }

  /** Mapping the next block costs what the count grows by. */
  lemma SpendCost(m0: Image, m: Image, i: nat, lo: nat, bn: nat)
    requires m0.Shape() && m.Shape() && i < |m0.itab| && i < |m.itab| && lo <= bn < MAXFILE
    requires Spent(m0, m, i, lo, bn)
    ensures Need(m0, i, lo, bn + 1) == Need(m0, i, lo, bn) + Cost(m, i, bn)
  {
    hide SlotAddr;
    assert BlockAddr(m, i, bn) == BlockAddr(m0, i, bn);
    if bn >= NDIRECT && m.itab[i].addrs[NDIRECT] == 0 {
      NoIndirect(m, i, bn);
    }
    hide BlockAddr;
  }

  lemma SpendNext(m0: Image, m: Image, m': Image, i: nat, lo: nat, bn: nat, addr: nat)
    requires m0.Shape() && m.Shape() && m'.Shape() && i < |m0.itab| && i < |m.itab| && lo <= bn < MAXFILE
    requires Spent(m0, m, i, lo, bn) && Mapping(m, m', i, bn, addr) && addr != 0
    requires bn < NDIRECT || m.itab[i].addrs[NDIRECT] != 0 ==> m'.itab[i].addrs[NDIRECT] == m.itab[i].addrs[NDIRECT]
    ensures i < |m'.itab| && Spent(m0, m', i, lo, bn + 1)
  {
    hide SlotAddr, Preserved;
    if bn >= NDIRECT && m'.itab[i].addrs[NDIRECT] == 0 {
      NoIndirect(m', i, bn);
    }
    hide BlockAddr;
  }

  /** Spending looks at the slots of the file alone. */
  lemma SpentSame(m0: Image, m: Image, m': Image, i: nat, lo: nat, hi: nat)
    requires m0.Shape() && m.Shape() && m'.Shape() && i < |m0.itab| && i < |m.itab|
    requires Spent(m0, m, i, lo, hi) && SameSlots(m, m')
    ensures i < |m'.itab| && Spent(m0, m', i, lo, hi)
  {
    assert SlotAddr(m', i, NDIRECT) == SlotAddr(m, i, NDIRECT);
    hide SlotAddr;
    assert forall bn :: 0 <= bn < MAXFILE ==> BlockAddr(m', i, bn) == BlockAddr(m, i, bn);
    hide BlockAddr;
  }

  // ----- One write after another -----

  lemma {:induction false} UnmappedSplit(m0: Image, m: Image, i: nat, lo: nat, mid: nat, from: nat, hi: nat)
    requires m0.Shape() && m.Shape() && i < |m0.itab| && i < |m.itab| && lo <= mid <= hi <= MAXFILE
    requires Spent(m0, m, i, lo, mid) && lo <= from <= mid
    ensures Unmapped(m0, i, lo, hi) == Unmapped(m0, i, lo, mid) + Unmapped(m, i, from, hi)
    decreases hi
  {
    hide BlockAddr;
    if hi > mid {
      UnmappedSplit(m0, m, i, lo, mid, from, hi - 1);
    } else {
      NoneUnmapped(m, i, from, mid);
    }
  }

  lemma {:induction false} NoneUnmapped(m: Image, i: nat, lo: nat, hi: nat)
    requires m.Shape() && i < |m.itab| && hi <= MAXFILE
    requires forall bn :: lo <= bn < hi ==> BlockAddr(m, i, bn) != 0
    ensures Unmapped(m, i, lo, hi) == 0
    decreases hi
  {
    hide BlockAddr;
    if lo < hi {
      NoneUnmapped(m, i, lo, hi - 1);
    }
  }

  lemma NeedSplit(m0: Image, m: Image, i: nat, lo: nat, mid: nat, from: nat, hi: nat)
    requires m0.Shape() && m.Shape() && i < |m0.itab| && i < |m.itab| && lo <= mid <= hi <= MAXFILE
    requires Spent(m0, m, i, lo, mid) && lo <= from <= mid && from < hi
    ensures Need(m0, i, lo, hi) == Need(m0, i, lo, mid) + Need(m, i, from, hi)
  {
    hide BlockAddr;
    UnmappedSplit(m0, m, i, lo, mid, from, hi);
  }

  lemma SpentTrans(m0: Image, m1: Image, m2: Image, i: nat, lo: nat, mid: nat, from: nat, hi: nat)
    requires m0.Shape() && m1.Shape() && m2.Shape() && i < |m0.itab| && i < |m1.itab| && i < |m2.itab|
    requires lo <= from <= mid <= hi <= MAXFILE && from < hi
    requires Spent(m0, m1, i, lo, mid) && Spent(m1, m2, i, from, hi)
    ensures Spent(m0, m2, i, lo, hi)
  {
    hide BlockAddr;
  }

  /** Both at once: file i has had its blocks from lo up to hi mapped, and that many blocks were taken. */
  ghost predicate Ledger(m0: Image, own0: Owners, m: Image, own: Owners, i: nat, lo: nat, hi: nat) {
    && m0.Shape() && m.Shape() && i < |m0.itab| && i < |m.itab| && m.sb == m0.sb && hi <= MAXFILE
    && Spent(m0, m, i, lo, hi) && |own| == |own0| + Need(m0, i, lo, hi)
  }

  /** One more block mapped, or not enough left for it. */
  lemma LedgerNext(m0: Image, own0: Owners, m: Image, own: Owners, m': Image, own': Owners, i: nat, lo: nat, bn: nat,
                   done: bool)
    requires Ledger(m0, own0, m, own, i, lo, bn) && m'.Shape() && m'.sb == m.sb && i < |m'.itab| && lo <= bn < MAXFILE
    requires Paid(own, own', Cost(m, i, bn), done) && (done ==> Spent(m, m', i, bn, bn + 1))
    ensures done ==> Ledger(m0, own0, m', own', i, lo, bn + 1)
    ensures !done ==> |own'| < |own0| + Need(m0, i, lo, bn + 1)
  {
    SpendCost(m0, m, i, lo, bn);
    hide BlockAddr, Cost, Need;
    if done {
      SpentTrans(m0, m, m', i, lo, bn, bn, bn + 1);
    }
  }

  lemma LedgerSame(m0: Image, own0: Owners, m: Image, own: Owners, m': Image, i: nat, lo: nat, hi: nat)
    requires Ledger(m0, own0, m, own, i, lo, hi) && m'.Shape() && SameSlots(m, m')
    ensures Ledger(m0, own0, m', own, i, lo, hi)
  {
    SpentSame(m0, m, m', i, lo, hi);
    hide Spent, Need, SlotAddr;
  }

  // ----- How a write ends -----

  /** A write of n bytes at off, of which `readable` can be copied in, is complete. */
  ghost predicate Fits(m: Image, i: nat, off: nat, n: nat, readable: nat)
    requires m.Shape() && i < |m.itab| && off + n <= MAXBYTES
  {
    n <= readable && NeedFor(m, i, off, n) <= |FreeBlocks(m)|
  }

  /** It stops inside a block: the source gives out there, and there is room up to there. */
  ghost predicate Tears(m: Image, i: nat, off: nat, n: nat, readable: nat)
    requires m.Shape() && i < |m.itab| && off + n <= MAXBYTES
  {
    0 < readable < n && (off + readable) % BSIZE != 0 && NeedFor(m, i, off, readable) <= |FreeBlocks(m)|
  }
}
