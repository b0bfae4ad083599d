/** readi, and what it says of a file just written. */
module FsRead {
  import opened Bytes
  import opened Blocks
  import opened FsImage
  import opened FsFile
  import opened FsBytes
  import opened FsCode
  import opened FsNeed
  import opened FsIo

  lemma ByteInBlock(m: Image, i: nat, o: nat, n: nat, d: nat)
    requires m.Shape() && i < |m.itab| && o + n <= MAXBYTES && d < n && o % BSIZE + n <= BSIZE
    requires 0 < BlockAddr(m, i, o / BSIZE) < |m.blocks|
    ensures ByteAt(m, i, o + d) == m.blocks[BlockAddr(m, i, o / BSIZE)][o % BSIZE + d]
  {
    hide BlockAddr;
    ChunkOffset(o, n, o + d);
  }

  /** A run of bytes inside one block is a run of the file. */
  lemma BlockSlice(m: Image, own: Owners, i: nat, o: nat, n: nat)
    requires Inv(m, own) && i < |m.itab| && o + n <= m.itab[i].size && n > 0 && o % BSIZE + n <= BSIZE
    ensures o < MAXBYTES && 0 < BlockAddr(m, i, o / BSIZE) < |m.blocks|
    ensures |Contents(m, i)| == m.itab[i].size <= MAXBYTES
    ensures m.blocks[BlockAddr(m, i, o / BSIZE)][o % BSIZE..o % BSIZE + n] == Contents(m, i)[o..o + n]
  {
    hide SlotsOk, OwnersOk, BitsOk, SlotAddr, BlockAddr, ByteAt;
    assert InodeOk(m, i);
    ContentsSize(m, own, i);
    FileBlocksMapped(m, own, i, o);
    FileAddrRange(m, own, i, o / BSIZE);
    var x := m.blocks[BlockAddr(m, i, o / BSIZE)][o % BSIZE..o % BSIZE + n];
    var y := Contents(m, i)[o..o + n];
    forall d | 0 <= d < n
      ensures x[d] == y[d]
    {
      ByteInBlock(m, i, o, n, d);
    }
    hide Contents;
    assert x == y;
  }

  /** At most n elements of s from off on. */
  function Slice(s: seq<byte>, off: nat, n: nat): (r: seq<byte>)
    ensures |r| == if off >= |s| then 0 else if n < |s| - off then n else |s| - off
    ensures forall o :: 0 <= o < |r| ==> r[o] == s[off + o]
  {
    if off <= |s| then s[off..Min(off + n, |s|)] else []
  }

  /** readi: `writable` is how many bytes the destination can take, and dst what reaches it. Reading
      never allocates, logs or changes anything. */
  method Readi(fs: FileSystem, i: nat, writable: nat, off: nat, n: nat) returns (r: int, dst: seq<byte>)
    requires fs.Valid() && i < |fs.itab| && fs.itab[i].typ != 0
    requires off < UINT_MAX && n < UINT_MAX
    modifies fs
    ensures fs.Valid() && fs.View() == old(fs.View())
    ensures fs.logged == old(fs.logged) && fs.scribbled == old(fs.scribbled)
    ensures off > fs.itab[i].size || off + n >= UINT_MAX ==> r == 0 && dst == []
    ensures off <= fs.itab[i].size && off + n < UINT_MAX ==>
              var s := Slice(Contents(fs.View(), i), off, n);
              r == (if |s| <= writable then |s| else -1) && dst == s[..Min(|s|, writable)]
  {
    hide Inv, Contents, Settled;
    dst := [];
    if off > fs.itab[i].size || off + n >= UINT_MAX {
      return 0, dst;
    }
    ContentsSize(fs.View(), fs.own, i);
    var len := n;
    if off + n > fs.itab[i].size {
      len := fs.itab[i].size - off;
    }
    var ok;
    ok, dst := ReadLoop(fs, i, writable, off, len);
    r := if ok then len else -1;
  }

  /** readi's loop. */
  method ReadLoop(fs: FileSystem, i: nat, writable: nat, off: nat, len: nat) returns (ok: bool, dst: seq<byte>)
    requires fs.Valid() && i < |fs.itab| && fs.itab[i].typ != 0
    requires off + len <= fs.itab[i].size && |Contents(fs.View(), i)| == fs.itab[i].size
    modifies fs`blocks, fs`itab, fs`own, fs`logged
    ensures fs.Valid() && fs.View() == old(fs.View()) && fs.logged == old(fs.logged)
    ensures ok == (len <= writable)
    ensures dst == Contents(fs.View(), i)[off..off + Min(len, writable)]
  {
    hide SlotsOk, OwnersOk, BitsOk, InodesOk, SlotAddr, BlockAddr, Contents, Settled, ChunkSize;
    ghost var m := fs.View();
    ghost var s := Contents(m, i);
    dst := [];
    var tot := 0;
    while tot < len
      invariant fs.Valid() && fs.View() == m && fs.logged == old(fs.logged)
      invariant tot <= len && tot <= writable
      invariant dst == s[off..off + tot]
    {
      var c := ChunkSize(off + tot, len - tot);
      var bytes := ReadChunk(fs, i, off + tot, c);
      assert bytes == s[off + tot..off + tot + c];
      if tot + c > writable {
        SliceJoin(s, off, tot, writable - tot);
        return false, dst + bytes[..writable - tot];
      }
      SliceJoin(s, off, tot, c);
      dst, tot := dst + bytes, tot + c;
    }
    ok := true;
  }

  lemma SliceJoin(s: seq<byte>, off: nat, tot: nat, c: nat)
    requires off + tot + c <= |s|
    ensures s[off..off + tot] + s[off + tot..off + tot + c] == s[off..off + (tot + c)]
  {
  }

  /** bmap and bread of one block of the file: a block below the size is always mapped. */
  method ReadChunk(fs: FileSystem, i: nat, o: nat, c: nat) returns (bytes: seq<byte>)
    requires fs.Valid() && i < |fs.itab| && fs.itab[i].typ != 0
    requires c > 0 && o + c <= fs.itab[i].size && o % BSIZE + c <= BSIZE
    modifies fs`blocks, fs`itab, fs`own, fs`logged
    ensures fs.Valid() && fs.View() == old(fs.View()) && fs.logged == old(fs.logged)
    ensures o + c <= |Contents(fs.View(), i)| && bytes == Contents(fs.View(), i)[o..o + c]
  {
    hide SlotsOk, OwnersOk, BitsOk, InodesOk, SlotAddr, BlockAddr, Contents, Full, Mapping;
    ghost var m := fs.View();
    BlockSlice(m, fs.own, i, o, c);
    var panicked, addr := fs.Bmap(i, o / BSIZE);
    MappingFacts(m, fs.View(), i, o / BSIZE, addr);
    bytes := fs.blocks[addr][o % BSIZE..o % BSIZE + c];
  }

  // ----- What was written is what is read -----

  /** A complete write splices the bytes in, and reading the range back returns them. */
  lemma ReadBack(s: seq<byte>, off: nat, bs: seq<byte>)
    requires off <= |s|
    ensures AfterWrite(s, off, bs, |bs|) == Splice(s, off, bs)
    ensures Slice(Splice(s, off, bs), off, |bs|) == bs
  {
  }

  /** Two writes one after the other are one. */
  lemma WriteTwice(s: seq<byte>, off: nat, a: seq<byte>, b: seq<byte>, tot: nat)
    requires off <= |s| && tot <= |b|
    ensures AfterWrite(Splice(s, off, a), off + |a|, b, tot) == AfterWrite(s, off, a + b, |a| + tot)
  {
    var x := Splice(Splice(s, off, a), off + |a|, b);
    var y := Splice(s, off, a + b);
    assert |x| == |y|;
    assert forall k :: 0 <= k < |x| ==> x[k] == y[k];
    assert x == y;
  }

  /** A write that fits, then a read of the same range: the bytes come back. */
  method WriteThenRead(fs: FileSystem, i: nat, src: seq<byte>, off: nat) returns (n: int, r: int, dst: seq<byte>)
    requires fs.Valid() && Synced(fs.View()) && i < |fs.itab| && fs.itab[i].typ != 0
    requires off < UINT_MAX && |src| < UINT_MAX
    modifies fs
    ensures fs.Valid() && Synced(fs.View())
    ensures n == |src| <==>
            !WriteRejected(old(fs.itab)[i].size, off, |src|) && Fits(old(fs.View()), i, off, |src|, |src|)
    ensures n == |src| ==> r == |src| && dst == src
  {
    hide Inv, Settled, Synced, Full, Account, Ledger, Fits, Tears, Torn, BlockAddr;
    InvShape(fs.View(), fs.own);
    ghost var m := fs.View();
    ghost var copied, tab;
    n, copied, tab := Writei(fs, i, src, |src|, off);
    InvShape(fs.View(), fs.own);
    if n == |src| {
      assert src[..copied] == src;
      WroteSame(m, fs.View(), i, off, src);
      r, dst := Readi(fs, i, |src|, off, |src|);
    } else {
      r, dst := -1, [];
    }
  }

  lemma WroteSame(m: Image, m': Image, i: nat, off: nat, bs: seq<byte>)
    requires m.Shape() && m'.Shape() && i < |m.itab| && Wrote(m, m', i, off, bs, |bs|)
    ensures i < |m'.itab| && m'.itab[i].typ == m.itab[i].typ && m'.itab[i].size >= off + |bs|
    ensures Slice(Contents(m', i), off, |bs|) == bs
  {
    hide Contents;
    ReadBack(Contents(m, i), off, bs);
  }
}
