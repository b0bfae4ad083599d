/** filewrite: its loop over transactions, the size of one transaction, and how the whole ends. */
module FsWrite {
  import opened Collections
  import opened Bytes
  import opened Blocks
  import opened FsLayout
  import opened FsImage
  import opened FsFile
  import opened FsBytes
  import opened FsCode
  import opened FsNeed
  import opened FsIo
  import opened FsRead

  // ----- One transaction -----

  /** The most bytes filewrite gives to one writei. */
  const MAXCHUNK := (MAXOPBLOCKS - 1 - 1 - 2) / 2 * BSIZE

  lemma DivBelow(x: nat, q: nat)
    requires x < BSIZE * (q + 1)
    ensures x / BSIZE <= q
  {
    assert x == BSIZE * (x / BSIZE) + x % BSIZE;
  }

  lemma ChunksOfThree(off: nat, n: nat)
    requires n <= MAXCHUNK
    ensures Chunks(off, n) <= 4 && (off % BSIZE == 0 ==> Chunks(off, n) <= 3)
  {
    if n > 0 {
      var q := off / BSIZE;
      assert off == BSIZE * q + off % BSIZE;
      DivBelow(off + n - 1, if off % BSIZE == 0 then q + 2 else q + 3);
    }
  }

  /** One filewrite chunk, at any offset and alignment and with any number of free map
      blocks, logs at most MAXOPBLOCKS distinct blocks. */
  lemma TransactionFits(log1: set<nat>, tab: Tab, ind0: nat, ind: nat, off: nat, n: nat, inodeBlock: nat)
    requires n <= MAXCHUNK && Account({}, log1, tab, ind0, ind, off, n)
    ensures |log1 + {inodeBlock}| <= MAXOPBLOCKS
  {
    ChunksOfThree(off, n);
    hide Chunks;
    var all := tab.data + tab.maps + PointerSet(ind);
    SubsetSize(log1, all);
    UnionSize(tab.data, tab.maps);
    UnionSize(tab.data + tab.maps, PointerSet(ind));
    UnionSize(log1, {inodeBlock});
  }

  /** It is the largest number of whole blocks for which that holds: with one block more, an aligned write to a file
      without indirect block can log eleven. */
  lemma ChunkIsLargest(a: nat) returns (log1: set<nat>, tab: Tab)
    requires a > 0
    ensures Account({}, log1, tab, 0, a + 9, 0, MAXCHUNK + BSIZE) && |log1 + {a + 10}| > MAXOPBLOCKS
  {
    hide Range, Account;
    tab := Tab(Range(a, a + 4), Range(a + 4, a + 9), 4, 4);
    log1 := Range(a, a + 10);
    RangeSize(a, a + 4);
    RangeSize(a + 4, a + 9);
    RangeSize(a, a + 11);
    assert log1 + {a + 10} == Range(a, a + 11);
    WorstBill(log1, tab, a + 9);
  }

  lemma WorstBill(log1: set<nat>, tab: Tab, ind: nat)
    requires tab.chunks == tab.news == |tab.data| == 4 && |tab.maps| == 5 && ind > 0
    requires log1 <= tab.data + tab.maps + {ind}
    ensures Account({}, log1, tab, 0, ind, 0, MAXCHUNK + BSIZE)
  {
    FourBlocks();
    hide Chunks;
  }

  lemma FourBlocks()
    ensures Chunks(0, MAXCHUNK + BSIZE) == 4
  {
    assert MAXCHUNK + BSIZE == 4096;
    DivIs(4095, 3, 1023);
  }

  /** w is what a chunk of n bytes at off logs: its bill, and the inode's block. */
  ghost predicate BilledAs(w: set<nat>, log1: set<nat>, tab: Tab, ind0: nat, ind: nat, off: nat, n: nat,
                           inodeBlock: nat) {
    w == log1 + {inodeBlock} && n <= MAXCHUNK && Account({}, log1, tab, ind0, ind, off, n)
  }

  /** w is the set of blocks some transaction of filewrite logs. */
  ghost predicate ChunkLog(w: set<nat>) {
    w == {} || exists log1: set<nat>, tab: Tab, ind0: nat, ind: nat, off: nat, n: nat, inodeBlock: nat ::
      BilledAs(w, log1, tab, ind0, ind, off, n, inodeBlock)
  }

  lemma ChunkLogFits(w: set<nat>)
    requires ChunkLog(w)
    ensures |w| <= MAXOPBLOCKS
  {
    hide Account;
    if w != {} {
      var log1: set<nat>, tab: Tab, ind0: nat, ind: nat, off: nat, n: nat, inodeBlock: nat :|
        BilledAs(w, log1, tab, ind0, ind, off, n, inodeBlock);
      TransactionFits(log1, tab, ind0, ind, off, n, inodeBlock);
    }
  }

  /** An open file's position. */
  class File {
    var off: nat
    constructor (off: nat)
      ensures this.off == off
    {
      this.off := off;
    }
  }

  /** A write that follows a complete write extends it. */
  lemma WroteMore(m0: Image, m1: Image, m2: Image, i: nat, off: nat, a: seq<byte>, b: seq<byte>, tot: nat)
    requires m0.Shape() && m1.Shape() && m2.Shape() && i < |m0.itab|
    requires Wrote(m0, m1, i, off, a, |a|) && Wrote(m1, m2, i, off + |a|, b, tot)
    ensures Wrote(m0, m2, i, off, a + b, |a| + tot)
  {
    hide Contents;
    ReadBack(Contents(m0, i), off, a);
    WriteTwice(Contents(m0, i), off, a, b, tot);
  }

  lemma WroteNothing(m: Image, own: Owners, i: nat, off: nat)
    requires Inv(m, own) && i < |m.itab| && off <= m.itab[i].size
    ensures Wrote(m, m, i, off, [], 0)
  {
    ContentsSize(m, own, i);
  }

  // ----- One chunk after another -----

  /** From m0 to m the first k bytes of a write at off have been written, in whole chunks. */
  ghost predicate Begun(m0: Image, own0: Owners, m: Image, own: Owners, i: nat, off: nat, k: nat) {
    && off + k <= MAXBYTES
    && if k == 0 then m == m0 && own == own0
       else Ledger(m0, own0, m, own, i, off / BSIZE, off / BSIZE + Chunks(off, k))
  }

  /** The blocks of two transfers in a row: the second starts in the last block of the first, or next to it. */
  lemma ChunksJoin(off: nat, k: nat, x: nat)
    requires k > 0 && x > 0
    ensures var lo, mid, next := off / BSIZE, off / BSIZE + Chunks(off, k), (off + k) / BSIZE;
            lo <= next <= mid <= next + Chunks(off + k, x) == lo + Chunks(off, k + x)
            && next < next + Chunks(off + k, x)
  {
    DivMono(off, off + k);
    DivMono(off + k - 1, off + k + x - 1);
    DivNext(off + k - 1);
  }

  lemma DivNext(a: nat)
    ensures (a + 1) / BSIZE <= a / BSIZE + 1
  {
    DivMono(a + 1, a + BSIZE);
    DivIs(a + BSIZE, a / BSIZE + 1, a % BSIZE);
  }

  /** The blocks a chunk needs where it starts are what it adds to the need of the whole. */
  lemma NeedJoin(m0: Image, own0: Owners, m: Image, own: Owners, i: nat, off: nat, k: nat, x: nat)
    requires Begun(m0, own0, m, own, i, off, k) && m0.Shape() && m.Shape() && i < |m0.itab| && i < |m.itab|
    requires x > 0 && off + k + x <= MAXBYTES
    ensures NeedFor(m0, i, off, k + x) == NeedFor(m0, i, off, k) + NeedFor(m, i, off + k, x)
    ensures |own| == |own0| + NeedFor(m0, i, off, k)
  {
    hide Spent, Need, BlockAddr, Image.Shape, Chunks;
    if k == 0 {
      SpentNone(m0, i, off / BSIZE);
      EmptyNeed(m0, i, off);
    } else {
      ChunksJoin(off, k, x);
      ChunksFit(off, k + x);
      var lo, next := off / BSIZE, (off + k) / BSIZE;
      NeedSplit(m0, m, i, lo, lo + Chunks(off, k), next, next + Chunks(off + k, x));
    }
  }

  lemma EmptyNeed(m: Image, i: nat, off: nat)
    requires m.Shape() && i < |m.itab| && off <= MAXBYTES
    ensures NeedFor(m, i, off, 0) == 0 && Chunks(off, 0) == 0
  {
    hide BlockAddr;
  }

  /** There is room for a chunk where it starts exactly if there was room for all up to its end. */
  lemma SameRoom(m0: Image, own0: Owners, m: Image, own: Owners, i: nat, off: nat, k: nat, x: nat)
    requires Inv(m0, own0) && Inv(m, own) && Begun(m0, own0, m, own, i, off, k) && i < |m0.itab| && i < |m.itab|
    requires m.sb == m0.sb && x > 0 && off + k + x <= MAXBYTES
    ensures NeedFor(m, i, off + k, x) <= |FreeBlocks(m)| <==> NeedFor(m0, i, off, k + x) <= |FreeBlocks(m0)|
  {
    hide Inv, NeedFor, FreeBlocks, Begun;
    InvShape(m0, own0);
    InvShape(m, own);
    FreeCount(m0, own0);
    FreeCount(m, own);
    NeedJoin(m0, own0, m, own, i, off, k, x);
  }

  lemma BegunMore(m0: Image, own0: Owners, m1: Image, own1: Owners, m2: Image, own2: Owners, i: nat, off: nat, k: nat,
                  x: nat)
    requires Begun(m0, own0, m1, own1, i, off, k) && m0.Shape() && i < |m0.itab| && x > 0 && off + k + x <= MAXBYTES
    requires Ledger(m1, own1, m2, own2, i, (off + k) / BSIZE, (off + k) / BSIZE + Chunks(off + k, x))
    ensures Begun(m0, own0, m2, own2, i, off, k + x)
  {
    hide Spent, Need;
    if k > 0 {
      ChunksJoin(off, k, x);
      ChunksFit(off, k + x);
      hide Chunks;
      var lo, next := off / BSIZE, (off + k) / BSIZE;
      SpentTrans(m0, m1, m2, i, lo, lo + Chunks(off, k), next, next + Chunks(off + k, x));
      NeedSplit(m0, m1, i, lo, lo + Chunks(off, k), next, next + Chunks(off + k, x));
    }
  }

  // ----- How filewrite ends -----

  /** Where the chunk that holds byte x of n ends. */
  function ChunkEnd(n: nat, x: nat): (e: nat) {
    Min(n, (x / MAXCHUNK + 1) * MAXCHUNK)
  }

  /** Where it starts. */
  function ChunkStart(x: nat): (s: nat) {
    x / MAXCHUNK * MAXCHUNK
  }

  /** filewrite gets through. */
  ghost predicate FileFits(m: Image, i: nat, off: nat, n: nat, readable: nat)
    requires m.Shape() && i < |m.itab|
  {
    n == 0 || (off <= m.itab[i].size && off + n <= MAXBYTES && Fits(m, i, off, n, readable))
  }

  /** The source gives out inside a block, in a chunk that writei accepts and that has begun. */
  ghost predicate FileTears(m: Image, i: nat, off: nat, n: nat, readable: nat)
    requires m.Shape() && i < |m.itab|
  {
    && off <= m.itab[i].size && readable < n && readable % MAXCHUNK != 0 && off + ChunkEnd(n, readable) <= MAXBYTES
    && Tears(m, i, off, ChunkEnd(n, readable), readable)
  }

  /** Chunk boundaries. */
  predicate ChunkAt(n: nat, k: nat, n1: nat) {
    k < n && k % MAXCHUNK == 0 && n1 == Min(n - k, MAXCHUNK)
  }

  lemma ChunkDiv(x: nat, q: nat, r: nat)
    requires x == MAXCHUNK * q + r && r < MAXCHUNK
    ensures x / MAXCHUNK == q && x % MAXCHUNK == r
  {
    assert MAXCHUNK == 3072;
    assert x / 3072 == q && x % 3072 == r;
  }

  lemma ChunkHere(n: nat, k: nat, n1: nat, x: nat)
    requires ChunkAt(n, k, n1) && k <= x < n
    ensures x < k + n1 ==> ChunkEnd(n, x) == k + n1 && (x % MAXCHUNK != 0 <==> x > k)
    ensures k + n1 <= ChunkEnd(n, x)
  {
    var q, p := k / MAXCHUNK, x / MAXCHUNK;
    assert k == MAXCHUNK * q && x == MAXCHUNK * p + x % MAXCHUNK;
    if x < k + MAXCHUNK {
      ChunkDiv(x, q, x - k);
    } else {
      assert p >= q + 1;
    }
  }

  lemma ChunkNext(n: nat, k: nat, n1: nat)
    requires ChunkAt(n, k, n1)
    ensures k + n1 <= n && (k + n1 < n ==> (k + n1) % MAXCHUNK == 0)
  {
    if n1 == MAXCHUNK {
      ChunkDiv(k + n1, k / MAXCHUNK + 1, 0);
    }
  }

  /** A chunk that writei rejects: filewrite neither gets through nor leaves anything torn. */
  lemma RejectedEnds(m0: Image, i: nat, off: nat, n: nat, readable: nat, k: nat, n1: nat)
    requires m0.Shape() && i < |m0.itab| && ChunkAt(n, k, n1) && k <= readable
    requires off > m0.itab[i].size || off + k + n1 > MAXBYTES
    ensures !FileFits(m0, i, off, n, readable) && !FileTears(m0, i, off, n, readable)
  {
    if readable < n {
      ChunkHere(n, k, n1, readable);
    }
  }

  /** A chunk that stops short: filewrite does not get through. */
  lemma ShortFits(m0: Image, own0: Owners, m: Image, own: Owners, i: nat, off: nat, n: nat, readable: nat, k: nat,
                  n1: nat)
    requires Inv(m0, own0) && Inv(m, own) && m.sb == m0.sb && i < |m0.itab| && i < |m.itab|
    requires ChunkAt(n, k, n1) && k <= readable && off + k + n1 <= MAXBYTES && Begun(m0, own0, m, own, i, off, k)
    requires !Fits(m, i, off + k, n1, readable - k)
    ensures !FileFits(m0, i, off, n, readable)
    ensures readable < k + n1 || NeedFor(m0, i, off, k + n1) > |FreeBlocks(m0)|
  {
    hide Inv, Begun, NeedFor, FreeBlocks;
    InvShape(m0, own0);
    InvShape(m, own);
    SameRoom(m0, own0, m, own, i, off, k, n1);
    if off + n <= MAXBYTES {
      NeedForMono(m0, i, off, k + n1, n);
    }
  }

  /** The same block and the same room, seen from the start of the chunk. */
  lemma SameTear(m0: Image, own0: Owners, m: Image, own: Owners, i: nat, off: nat, readable: nat, k: nat, n1: nat)
    requires Inv(m0, own0) && Inv(m, own) && m.sb == m0.sb && i < |m0.itab| && i < |m.itab|
    requires k <= readable < k + n1 && off + k + n1 <= MAXBYTES && Begun(m0, own0, m, own, i, off, k)
    ensures readable > k ==> (Tears(m0, i, off, k + n1, readable) <==> Tears(m, i, off + k, n1, readable - k))
    ensures off + k + (readable - k) == off + readable
  {
    hide Inv, Begun, NeedFor, FreeBlocks;
    InvShape(m0, own0);
    InvShape(m, own);
    assert off + k + (readable - k) == off + readable && k + (readable - k) == readable;
    if readable > k {
      SameRoom(m0, own0, m, own, i, off, k, readable - k);
    }
  }

  /** It leaves a block torn exactly if the chunk does. */
  lemma ShortTears(m0: Image, own0: Owners, m: Image, own: Owners, i: nat, off: nat, n: nat, readable: nat, k: nat,
                   n1: nat)
    requires Inv(m0, own0) && Inv(m, own) && m.sb == m0.sb && i < |m0.itab| && i < |m.itab| && off <= m0.itab[i].size
    requires ChunkAt(n, k, n1) && k <= readable && off + k + n1 <= MAXBYTES && Begun(m0, own0, m, own, i, off, k)
    requires readable < k + n1 || NeedFor(m0, i, off, k + n1) > |FreeBlocks(m0)|
    ensures FileTears(m0, i, off, n, readable) <==> Tears(m, i, off + k, n1, readable - k)
  {
    hide Inv, Begun, NeedFor, FreeBlocks, ChunkEnd;
    InvShape(m0, own0);
    InvShape(m, own);
    if k <= readable < n {
      ChunkHere(n, k, n1, readable);
    }
    if readable < k + n1 {
      SameTear(m0, own0, m, own, i, off, readable, k, n1);
    } else if off + readable <= MAXBYTES {
      NeedForMono(m0, i, off, k + n1, readable);
    }
  }

  /** All chunks written. */
  lemma WholeEnds(m0: Image, own0: Owners, m: Image, own: Owners, i: nat, off: nat, n: nat, readable: nat)
    requires Inv(m0, own0) && Inv(m, own) && i < |m0.itab| && n <= readable
    requires n > 0 ==> off <= m0.itab[i].size && Begun(m0, own0, m, own, i, off, n)
    ensures FileFits(m0, i, off, n, readable) && !FileTears(m0, i, off, n, readable)
  {
    hide Inv, Ledger, Fits, Chunks;
    InvShape(m0, own0);
    if n > 0 {
      DoneFits(m0, own0, m, own, i, off, n, readable);
    }
  }

  /** The only reasons for filewrite to write less than it was given. */
  predicate Excused(size: nat, off: nat, n: nat, readable: nat, full: bool) {
    off > size || off + n > MAXBYTES || readable < n || full
  }

  /** Where filewrite's loop stands after k bytes. */
  ghost predicate Writing(m0: Image, own0: Owners, m: Image, own: Owners, i: nat, off: nat, src: seq<byte>,
                          readable: nat, k: nat)
    requires m0.Shape() && m.Shape() && i < |m0.itab|
  {
    && k <= |src| && k <= readable && (k < |src| ==> k % MAXCHUNK == 0) && m.sb == m0.sb
    && if off <= m0.itab[i].size then Wrote(m0, m, i, off, src[..k], k) && Begun(m0, own0, m, own, i, off, k)
       else k == 0 && m == m0 && own == own0
  }

  lemma Prefixes(s: seq<byte>, k: nat, n: nat, c: nat)
    requires k + n <= |s| && c <= n
    ensures s[..k] + s[k..k + n][..c] == s[..k + c] && (c == n ==> s[k..k + n][..c] == s[k..k + n])
  {
  }

  lemma WritingStarts(m: Image, own: Owners, i: nat, off: nat, src: seq<byte>, readable: nat)
    requires Inv(m, own) && i < |m.itab|
    ensures Writing(m, own, m, own, i, off, src, readable, 0)
  {
    hide SlotsOk, OwnersOk, BitsOk, BlockAddr, Wrote;
    assert InodeOk(m, i);
    assert src[..0] == [];
    if off <= m.itab[i].size {
      WroteNothing(m, own, i, off);
    }
  }

  /** A chunk that went through whole. */
  lemma WritingMore(m0: Image, own0: Owners, m1: Image, own1: Owners, m2: Image, own2: Owners, i: nat, off: nat,
                    src: seq<byte>, readable: nat, k: nat, n1: nat, logged: set<nat>, c: nat)
    requires m0.Shape() && m1.Shape() && m2.Shape() && i < |m0.itab| && i < |m1.itab| && ChunkAt(|src|, k, n1)
    requires Writing(m0, own0, m1, own1, i, off, src, readable, k) && k <= readable
    requires !WriteRejected(m1.itab[i].size, off + k, n1) && i < |m2.itab|
    requires ChunkWritten(m1, own1, m2, own2, logged, i, off + k, src[k..k + n1], readable - k, n1, c)
    ensures Writing(m0, own0, m2, own2, i, off, src, readable, k + n1) && c == n1
    ensures Torn(m1, m2, i, off + k, n1, readable - k) == {}
  {
    hide Wrote, Ledger, Chunks, Begun, NeedFor, FreeBlocks, Covered, LostBlock, BlockAddr;
    Prefixes(src, k, n1, n1);
    WroteSb(m1, m2, i, off + k, src[k..k + n1], n1);
    ChunkNext(|src|, k, n1);
    if off <= m0.itab[i].size {
      WroteMore(m0, m1, m2, i, off, src[..k], src[k..k + n1], n1);
      BegunMore(m0, own0, m1, own1, m2, own2, i, off, k, n1);
    }
  }

  lemma WroteSb(m: Image, m': Image, i: nat, off: nat, bs: seq<byte>, tot: nat)
    requires m.Shape() && m'.Shape() && i < |m.itab| && Wrote(m, m', i, off, bs, tot)
    ensures m'.sb == m.sb
  {
  }

  /** The block filewrite is torn in, if it is. */
  ghost function FileTorn(m0: Image, m: Image, i: nat, off: nat, n: nat, readable: nat): (r: set<nat>)
    requires m0.Shape() && m.Shape() && i < |m0.itab| && i < |m.itab|
  {
    if FileTears(m0, i, off, n, readable) then {BlockAddr(m, i, (off + readable) / BSIZE)} else {}
  }

  /** The block was the file's before the transaction that tears it, from the start or from an earlier chunk. */
  ghost predicate FileLost(m: Image, i: nat, off: nat, n: nat, readable: nat)
    requires m.Shape() && i < |m.itab|
  {
    && FileTears(m, i, off, n, readable)
    && (BlockAddr(m, i, (off + readable) / BSIZE) != 0
        || (off + readable) / BSIZE < off / BSIZE + Chunks(off, ChunkStart(readable)))
  }

  ghost function FileLostBlock(m0: Image, m: Image, i: nat, off: nat, n: nat, readable: nat): (r: set<nat>)
    requires m0.Shape() && m.Shape() && i < |m0.itab| && i < |m.itab|
  {
    if FileLost(m0, i, off, n, readable) then {BlockAddr(m, i, (off + readable) / BSIZE)} else {}
  }

  lemma LostSame(m0: Image, own0: Owners, m1: Image, own1: Owners, i: nat, off: nat, n: nat, readable: nat, k: nat,
                 n1: nat)
    requires m0.Shape() && m1.Shape() && i < |m0.itab| && i < |m1.itab| && ChunkAt(n, k, n1) && k <= readable
    requires off + k + n1 <= MAXBYTES && Begun(m0, own0, m1, own1, i, off, k)
    requires FileTears(m0, i, off, n, readable) <==> Tears(m1, i, off + k, n1, readable - k)
    ensures Lost(m1, i, off + k, n1, readable - k) <==> FileLost(m0, i, off, n, readable)
  {
    hide BlockAddr, Image.Shape, FileTears, NeedFor, FreeBlocks, Need;
    assert off + k + (readable - k) == off + readable;
    if Tears(m1, i, off + k, n1, readable - k) {
      DivMono(off, off + readable);
      ChunkDiv(readable, k / MAXCHUNK, readable - k);
      assert ChunkStart(readable) == k;
      MappedBefore(m0, own0, m1, own1, i, off, k, (off + readable) / BSIZE);
    }
  }

  /** A block from off on has come to be mapped if it was, or if it is among the first k bytes. */
  lemma MappedBefore(m0: Image, own0: Owners, m1: Image, own1: Owners, i: nat, off: nat, k: nat, bn: nat)
    requires m0.Shape() && m1.Shape() && i < |m0.itab| && i < |m1.itab| && off / BSIZE <= bn < MAXFILE
    requires Begun(m0, own0, m1, own1, i, off, k)
    ensures BlockAddr(m1, i, bn) != 0 <==> BlockAddr(m0, i, bn) != 0 || bn < off / BSIZE + Chunks(off, k)
  {
    hide BlockAddr, Image.Shape, Need;
  }

  /** How filewrite has ended: done bytes counted, `copied` in the buffers. */
  ghost predicate Ending(m0: Image, m: Image, i: nat, off: nat, src: seq<byte>, readable: nat, done: nat, copied: nat,
                         torn: set<nat>)
    requires m0.Shape() && m.Shape() && i < |m0.itab| && i < |m.itab|
  {
    && done <= copied <= |src| && (done == |src| ==> copied == done)
    && (if off <= m0.itab[i].size then Wrote(m0, m, i, off, src[..copied], done) else done == 0 && m == m0)
    && (done == |src| <==> FileFits(m0, i, off, |src|, readable))
    && (copied > done <==> FileTears(m0, i, off, |src|, readable)) && (copied > done ==> copied == readable)
    && torn == FileTorn(m0, m, i, off, |src|, readable)
    && (done < |src| ==> Excused(m0.itab[i].size, off, |src|, readable, Full(m)))
  }

  lemma EndsWhole(m0: Image, own0: Owners, m: Image, own: Owners, i: nat, off: nat, src: seq<byte>, readable: nat)
    requires Inv(m0, own0) && Inv(m, own) && i < |m0.itab| && i < |m.itab|
    requires Writing(m0, own0, m, own, i, off, src, readable, |src|)
    ensures Ending(m0, m, i, off, src, readable, |src|, |src|, {})
  {
    hide Inv, Wrote, Begun, FileFits, FileTears;
    InvShape(m0, own0);
    InvShape(m, own);
    WholeEnds(m0, own0, m, own, i, off, |src|, readable);
  }

  lemma EndsRejected(m0: Image, own0: Owners, m: Image, own: Owners, i: nat, off: nat, src: seq<byte>, readable: nat,
                     k: nat, n1: nat)
    requires m0.Shape() && m.Shape() && i < |m0.itab| && i < |m.itab| && ChunkAt(|src|, k, n1)
    requires Writing(m0, own0, m, own, i, off, src, readable, k) && WriteRejected(m.itab[i].size, off + k, n1)
    ensures Ending(m0, m, i, off, src, readable, k, k, {})
  {
    hide Wrote, Begun, FileFits, FileTears;
    if off <= m0.itab[i].size {
      WroteReaches(m0, m, i, off, src[..k], k);
    }
    RejectedEnds(m0, i, off, |src|, readable, k, n1);
  }

  lemma TornSame(m0: Image, m1: Image, m2: Image, i: nat, off: nat, n: nat, readable: nat, k: nat, n1: nat)
    requires m0.Shape() && m1.Shape() && m2.Shape() && i < |m0.itab| && i < |m1.itab| && i < |m2.itab|
    requires k <= readable && off + k + n1 <= MAXBYTES
    requires FileTears(m0, i, off, n, readable) <==> Tears(m1, i, off + k, n1, readable - k)
    ensures Torn(m1, m2, i, off + k, n1, readable - k) == FileTorn(m0, m2, i, off, n, readable)
  {
    assert off + k + (readable - k) == off + readable;
  }

  lemma EndsShort(m0: Image, own0: Owners, m1: Image, own1: Owners, m2: Image, own2: Owners, i: nat, off: nat,
                  src: seq<byte>, readable: nat, k: nat, n1: nat, logged: set<nat>, r: nat, c: nat)
    requires Inv(m0, own0) && Inv(m1, own1) && m2.Shape() && i < |m0.itab| && i < |m1.itab| && i < |m2.itab|
    requires ChunkAt(|src|, k, n1) && Writing(m0, own0, m1, own1, i, off, src, readable, k)
    requires !WriteRejected(m1.itab[i].size, off + k, n1) && r < n1
    requires ChunkWritten(m1, own1, m2, own2, logged, i, off + k, src[k..k + n1], readable - k, r, c)
    ensures k <= k + r <= k + c <= |src|
    ensures FileTorn(m0, m2, i, off, |src|, readable) - logged == FileLostBlock(m0, m2, i, off, |src|, readable)
    ensures Ending(m0, m2, i, off, src, readable, k + r, k + c, Torn(m1, m2, i, off + k, n1, readable - k))
  {
    hide Inv, Wrote, Begun, Fits, Tears, Full, FileFits, FileTears, Torn, FileTorn, Image.Shape, NeedFor, FreeBlocks,
         Covered, LostBlock, FileLostBlock, Chunks, Ledger, BlockAddr;
    Prefixes(src, k, n1, c);
    InvShape(m0, own0);
    InvShape(m1, own1);
    WroteMore(m0, m1, m2, i, off, src[..k], src[k..k + n1][..c], r);
    ShortFits(m0, own0, m1, own1, i, off, |src|, readable, k, n1);
    ShortTears(m0, own0, m1, own1, i, off, |src|, readable, k, n1);
    TornSame(m0, m1, m2, i, off, |src|, readable, k, n1);
    ShortLost(m0, own0, m1, own1, m2, i, off, src, readable, k, n1);
  }

  lemma ShortLost(m0: Image, own0: Owners, m1: Image, own1: Owners, m2: Image, i: nat, off: nat, src: seq<byte>,
                  readable: nat, k: nat, n1: nat)
    requires Inv(m0, own0) && Inv(m1, own1) && m2.Shape() && i < |m0.itab| && i < |m1.itab| && i < |m2.itab|
    requires ChunkAt(|src|, k, n1) && Writing(m0, own0, m1, own1, i, off, src, readable, k)
    requires !WriteRejected(m1.itab[i].size, off + k, n1) && !Fits(m1, i, off + k, n1, readable - k)
    ensures LostBlock(m1, m2, i, off + k, n1, readable - k) == FileLostBlock(m0, m2, i, off, |src|, readable)
  {
    hide Inv, Wrote, Begun, Fits, Tears, FileFits, FileTears, Lost, FileLost, NeedFor, FreeBlocks, BlockAddr;
    InvShape(m0, own0);
    InvShape(m1, own1);
    ShortFits(m0, own0, m1, own1, i, off, |src|, readable, k, n1);
    ShortTears(m0, own0, m1, own1, i, off, |src|, readable, k, n1);
    LostSame(m0, own0, m1, own1, i, off, |src|, readable, k, n1);
    assert off + k + (readable - k) == off + readable;
  }

  /** filewrite's loop over transactions: `readable` bytes of the user's buffer can be read.
      The result is |src| or -1; either way the file is the old one with a prefix of src at the
      old position, and no transaction logged more than MAXOPBLOCKS blocks. A copy stops inside a
      block exactly in the case FileTears. The log of that transaction lacks the block exactly in the
      case FileLost. */
  method FileWrite(fs: FileSystem, f: File, i: nat, src: seq<byte>, readable: nat)
    returns (ret: int, ghost done: nat, ghost copied: nat, ghost peak: nat)
    requires fs.Valid() && Synced(fs.View()) && i < |fs.itab| && fs.itab[i].typ != 0
    requires |src| < UINT_MAX && f.off < UINT_MAX
    modifies fs, f
    ensures fs.Valid() && Synced(fs.View()) && i < |fs.itab|
    ensures ret == (if done == |src| then |src| else -1)
    ensures f.off == old(f.off) + done
    ensures Ending(old(fs.View()), fs.View(), i, old(f.off), src, readable, done, copied,
                   FileTorn(old(fs.View()), fs.View(), i, old(f.off), |src|, readable))
    ensures fs.scribbled == old(fs.scribbled) + FileTorn(old(fs.View()), fs.View(), i, old(f.off), |src|, readable)
    ensures FileTorn(old(fs.View()), fs.View(), i, old(f.off), |src|, readable) - fs.logged ==
            FileLostBlock(old(fs.View()), fs.View(), i, old(f.off), |src|, readable)
    ensures peak <= MAXOPBLOCKS
  {
    hide Inv, Settled, Synced, Wrote, Account, Full, Writing, Ending, Fits, Tears, FileTorn, Ledger, Chunks, BlockAddr,
         Covered, LostBlock, Torn, FileLostBlock, ChunkWritten;
    ghost var m0, own0, off0 := fs.View(), fs.own, f.off;
    ghost var torn: set<nat> := {};
    done, copied, peak := 0, 0, 0;
    InvShape(m0, own0);
    WritingStarts(m0, own0, i, off0, src, readable);
    var k := 0;
    while k < |src|
      invariant fs.View().Shape() && fs.Valid() && Synced(fs.View()) && i < |fs.itab| && fs.itab[i].typ != 0
      invariant k == done == copied <= |src| && f.off == off0 + k < UINT_MAX && peak <= MAXOPBLOCKS
      invariant Writing(m0, own0, fs.View(), fs.own, i, off0, src, readable, k) && fs.scribbled == old(fs.scribbled)
    {
      var n1 := Min(|src| - k, MAXCHUNK);
      var r;
      ghost var c, size, m1, own1 := 0, 0, fs.View(), fs.own;
      WritingAt(m0, own0, m1, own1, i, off0, src, readable, k);
      r, c, size := WriteChunk(fs, f, i, src[k..k + n1], readable - k);
      InvShape(fs.View(), fs.own);
      peak := if size > peak then size else peak;
      if r == -1 {
        EndsRejected(m0, own0, m1, own1, i, off0, src, readable, k, n1);
        EndingTorn(m0, fs.View(), i, off0, src, readable, k, k, {});
        NotTorn(m0, fs.View(), i, off0, |src|, readable);
        return -1, done, copied, peak;
      }
      done, copied := k + r, k + c;
      if r != n1 {
        EndsShort(m0, own0, m1, own1, fs.View(), fs.own, i, off0, src, readable, k, n1, fs.logged, r, c);
        torn := Torn(m1, fs.View(), i, off0 + k, n1, readable - k);
        EndingTorn(m0, fs.View(), i, off0, src, readable, done, copied, torn);
        return -1, done, copied, peak;
      }
      WritingMore(m0, own0, m1, own1, fs.View(), fs.own, i, off0, src, readable, k, n1, fs.logged, c);
      k := k + r;
    }
    EndsWhole(m0, own0, fs.View(), fs.own, i, off0, src, readable);
    EndingTorn(m0, fs.View(), i, off0, src, readable, |src|, |src|, {});
    NotTorn(m0, fs.View(), i, off0, |src|, readable);
    ret := |src|;
  }

  lemma WritingAt(m0: Image, own0: Owners, m: Image, own: Owners, i: nat, off: nat, src: seq<byte>, readable: nat,
                  k: nat)
    requires m0.Shape() && m.Shape() && i < |m0.itab| && k < |src|
    requires Writing(m0, own0, m, own, i, off, src, readable, k)
    ensures k <= readable && ChunkAt(|src|, k, Min(|src| - k, MAXCHUNK))
  {
  }

  lemma NotTorn(m0: Image, m: Image, i: nat, off: nat, n: nat, readable: nat)
    requires m0.Shape() && m.Shape() && i < |m0.itab| && i < |m.itab| && FileTorn(m0, m, i, off, n, readable) == {}
    ensures FileLostBlock(m0, m, i, off, n, readable) == {}
  {
    hide FileTears, BlockAddr;
  }

  lemma EndingTorn(m0: Image, m: Image, i: nat, off: nat, src: seq<byte>, readable: nat, done: nat, copied: nat,
                   torn: set<nat>)
    requires m0.Shape() && m.Shape() && i < |m0.itab| && i < |m.itab|
    requires Ending(m0, m, i, off, src, readable, done, copied, torn)
    ensures torn == FileTorn(m0, m, i, off, |src|, readable)
    ensures done <= copied <= |src| && (done == |src| ==> copied == done)
  {
  }

  /** What a transaction of filewrite does when writei accepts it: it is complete exactly if the source is
      readable and there is room, and stops inside a block exactly in the case Tears. Its log then
      has all it changed, but for the block of the case Lost. */
  ghost predicate ChunkWritten(m: Image, own: Owners, m': Image, own': Owners, logged: set<nat>, i: nat, off: nat,
                               src: seq<byte>, readable: nat, r: int, copied: nat)
    requires m.Shape() && m'.Shape() && i < |m.itab| && i < |m'.itab| && off + |src| <= MAXBYTES
  {
    && 0 <= r <= copied <= |src| && (r == |src| ==> copied == r) && Wrote(m, m', i, off, src[..copied], r)
    && (r < |src| ==> readable < |src| || Full(m')) && (r == |src| <==> Fits(m, i, off, |src|, readable))
    && (copied > r <==> Tears(m, i, off, |src|, readable)) && (copied > r ==> copied == readable)
    && Torn(m, m', i, off, |src|, readable) - logged == LostBlock(m, m', i, off, |src|, readable)
    && Covered(m, own, {}, m', own', logged, i, off / BSIZE, off / BSIZE + Chunks(off, r),
               LostBlock(m, m', i, off, |src|, readable))
    && (r == |src| ==> Ledger(m, own, m', own', i, off / BSIZE, off / BSIZE + Chunks(off, |src|)))
  }

  /** One transaction of filewrite: begin_op, writei at the file position, end_op. */
  method WriteChunk(fs: FileSystem, f: File, i: nat, src: seq<byte>, readable: nat)
    returns (r: int, ghost copied: nat, ghost logged: nat)
    requires fs.Valid() && Synced(fs.View()) && i < |fs.itab| && fs.itab[i].typ != 0
    requires |src| <= MAXCHUNK && f.off < UINT_MAX
    modifies fs, f
    ensures fs.Valid() && Synced(fs.View()) && i < |fs.itab| && fs.itab[i].typ != 0
    ensures r == -1 <==> WriteRejected(old(fs.itab)[i].size, old(f.off), |src|)
    ensures r == -1 ==> fs.View() == old(fs.View()) && f.off == old(f.off) && fs.scribbled == old(fs.scribbled)
    ensures r != -1 ==>
              ChunkWritten(old(fs.View()), old(fs.own), fs.View(), fs.own, fs.logged, i, old(f.off), src, readable, r,
                           copied)
    ensures r != -1 ==> 0 <= r <= copied <= |src| && f.off == old(f.off) + r < UINT_MAX
    ensures r != -1 ==>
              fs.scribbled == old(fs.scribbled) + Torn(old(fs.View()), fs.View(), i, old(f.off), |src|, readable)
    ensures logged == |fs.logged| <= MAXOPBLOCKS && ChunkLog(fs.logged)
  {
    hide Inv, Settled, Synced, Wrote, Account, Full, Fits, Tears, Torn, Ledger, Chunks, BlockAddr, Covered, LostBlock;
    fs.BeginOp();
    ghost var m, tab := fs.View(), Tab({}, {}, 0, 0);
    InvShape(m, fs.own);
    r, copied, tab := Writei(fs, i, src, readable, f.off);
    InvShape(fs.View(), fs.own);
    if r != -1 {
      WroteType(m, fs.View(), i, f.off, src[..copied], r);
      ghost var log1 :| fs.logged == log1 + {fs.sb.IBlock(i)} &&
        Account({}, log1, tab, m.itab[i].addrs[NDIRECT], fs.itab[i].addrs[NDIRECT], f.off, |src|);
      assert BilledAs(fs.logged, log1, tab, m.itab[i].addrs[NDIRECT], fs.itab[i].addrs[NDIRECT], f.off, |src|,
                      fs.sb.IBlock(i));
    }
    ChunkLogFits(fs.logged);
    if r > 0 {
      f.off := f.off + r;
    }
    logged := |fs.logged|;
  }

  lemma WroteReaches(m0: Image, m: Image, i: nat, off: nat, bs: seq<byte>, tot: nat)
    requires m0.Shape() && m.Shape() && i < |m0.itab| && Wrote(m0, m, i, off, bs, tot)
    ensures m.itab[i].size >= off + tot
  {
  }

  lemma WroteType(m0: Image, m: Image, i: nat, off: nat, bs: seq<byte>, tot: nat)
    requires m0.Shape() && m.Shape() && i < |m0.itab| && Wrote(m0, m, i, off, bs, tot)
    ensures m.itab[i].typ == m0.itab[i].typ
  {
  }
}
