/** A formatted disk without files, where every run can start, and two runs on it that are torn: one loses a
    change, one does not. */
module FsFormat {
  import opened Bytes
  import opened Blocks
  import opened FsLayout
  import opened FsImage
  import opened FsFile
  import opened FsBytes
  import opened FsCode
  import opened FsNeed
  import opened FsIo
  import opened FsTrunc

  /** Zeroed blocks with the first n bits of the free map set. */
  function Marked(sb: Super, n: nat): (r: seq<Block>)
    requires sb.Valid() && n <= sb.data
    ensures |r| == sb.size
  {
    if n == 0 then seq(sb.size, _ => ZeroBlock())
    else
      BBlockRange(sb, n - 1);
      SetBit(sb, Marked(sb, n - 1), n - 1, true)
  }

  lemma {:induction false} ZeroBits(k: nat)
    ensures !BitOf(0, k)
  {
    if k > 0 {
      ZeroBits(k - 1);
    }
  }

  lemma {:induction false} MarkedBits(sb: Super, n: nat, a: nat)
    requires sb.Valid() && n <= sb.data && a < sb.size
    ensures sb.BBlock(a) < sb.data && (Bit(sb, Marked(sb, n), a) <==> a < n)
    decreases n
  {
    BBlockRange(sb, a);
    if n == 0 {
      ZeroBits(a % 8);
    } else {
      MarkedBits(sb, n - 1, a);
      BBlockRange(sb, n - 1);
      BitSetBit(sb, Marked(sb, n - 1), n - 1, true, a);
    }
  }

  lemma {:induction false} MarkedZero(sb: Super, n: nat, a: nat)
    requires sb.Valid() && n <= sb.data && a < sb.bmapstart
    ensures Marked(sb, n)[a] == ZeroBlock()
    decreases n
  {
    if n > 0 {
      MarkedZero(sb, n - 1, a);
      BBlockRange(sb, n - 1);
    }
  }

  lemma {:induction false} ZeroWords(s: seq<byte>, n: nat)
    requires |s| == 4 * n && forall k :: 0 <= k < |s| ==> s[k] == 0
    ensures forall k :: 0 <= k < n ==> DecodeWords(s, n)[k] == 0
  {
    if n > 0 {
      DecodeZeros(s[..4]);
      ZeroWords(s[4..], n - 1);
    }
  }

  const FREE_INODE := Inode(0, 0, 0, 0, 0, NO_ADDRS)

  lemma ZeroInode(s: seq<byte>)
    requires |s| == 64 && forall k :: 0 <= k < 64 ==> s[k] == 0
    ensures DecodeInode(s) == FREE_INODE
  {
    DecodeZeros(s[..2]);
    DecodeZeros(s[2..4]);
    DecodeZeros(s[4..6]);
    DecodeZeros(s[6..8]);
    DecodeZeros(s[8..12]);
    ZeroWords(s[12..], NDIRECT + 1);
    assert DecodeWords(s[12..], NDIRECT + 1) == NO_ADDRS;
  }

  /** The formatted disk: metadata marked in use, every inode free. */
  function Formatted(sb: Super): (m: Image)
    requires sb.Valid()
  {
    Image(sb, Marked(sb, sb.data), seq(sb.ninodes, _ => FREE_INODE))
  }

  /** It is sound, and every data block is free. */
  lemma FormattedSound(sb: Super)
    requires sb.Valid()
    ensures Inv(Formatted(sb), map[]) && Synced(Formatted(sb)) && |FreeBlocks(Formatted(sb))| == sb.size - sb.data
  {
    hide Inv, Synced, FreeBlocks, Marked;
    FormattedInv(sb);
    InvShape(Formatted(sb), map[]);
    FreeCount(Formatted(sb), map[]);
    FormattedSynced(sb);
  }

  lemma FormattedSynced(sb: Super)
    requires sb.Valid() && Formatted(sb).Shape()
    ensures Synced(Formatted(sb))
  {
    hide Marked, Super.IBlock, Dinode;
    var m := Formatted(sb);
    forall j | 0 <= j < |m.itab|
      ensures sb.IBlock(j) < |m.blocks| && Dinode(sb, m.blocks, j) == m.itab[j]
    {
      InodeBlockRange(sb, j);
      FormattedInode(sb, j);
    }
  }

  lemma FormattedInode(sb: Super, j: nat)
    requires sb.Valid() && j < sb.ninodes
    ensures sb.IBlock(j) < sb.size && Dinode(sb, Marked(sb, sb.data), j) == FREE_INODE
  {
    hide Marked, DecodeInode;
    InodeBlockRange(sb, j);
    MarkedZero(sb, sb.data, sb.IBlock(j));
    ZeroInode(ZeroBlock()[j % IPB * 64..j % IPB * 64 + 64]);
  }

  lemma FormattedInv(sb: Super)
    requires sb.Valid()
    ensures Inv(Formatted(sb), map[])
  {
    var m := Formatted(sb);
    forall a | 0 <= a < sb.size
      ensures sb.BBlock(a) < sb.data && (Bit(sb, m.blocks, a) <==> a < sb.data)
    {
      MarkedBits(sb, sb.data, a);
    }
    hide Bit, Marked, Super.BBlock;
    assert m.Shape();
    forall i, k | 0 <= i < |m.itab| && 0 <= k < SLOTS
      ensures SlotAddr(m, i, k) == 0
    {
    }
    assert SlotsOk(m, map[]);
    forall i | 0 <= i < |m.itab|
      ensures InodeOk(m, i)
    {
    }
  }

  // ----- A torn write -----

  /** One byte at the start of a file takes at most one free block. */
  lemma OneByteNeed(m: Image, i: nat)
    requires m.Shape() && i < |m.itab|
    ensures NeedFor(m, i, 0, 1) <= 1
  {
    hide BlockAddr;
    assert Chunks(0, 1) == 1;
    assert Unmapped(m, i, 0, 0) == 0;
  }

  /** A disk of 100 blocks, laid out as mkfs does, with one file, number 1, that is empty. */
  method EmptyFile() returns (fs: FileSystem)
    ensures fresh(fs) && fs.Valid() && Synced(fs.View()) && |fs.itab| == 8 && fs.scribbled == {} && |fs.own| == 0
    ensures fs.itab[1] == Inode(2, 0, 0, 0, 0, NO_ADDRS) && |FreeBlocks(fs.View())| == 65
  {
    hide Inv, Synced, FreeBlocks, Marked, Contents;
    var sb := Super(100, 8, 33, 34, 35);
    FormattedSound(sb);
    fs := new FileSystem(Formatted(sb), map[]);
    InvShape(fs.View(), fs.own);
    assert fs.itab[1].typ == 0;
    var i := Ialloc(fs, 2);
    assert i == 1;
    InvShape(fs.View(), fs.own);
    FreeCount(fs.View(), fs.own);
  }

  /** The same with one byte in it. */
  method OneFile() returns (fs: FileSystem)
    ensures fresh(fs) && fs.Valid() && Synced(fs.View()) && |fs.itab| == 8 && fs.itab[1].typ == 2 && fs.scribbled == {}
    ensures Contents(fs.View(), 1) == [7] && fs.itab[1].size == 1 && |FreeBlocks(fs.View())| >= 64
  {
    hide Inv, Synced, Full, Account, NeedFor, FreeBlocks, Contents, Ledger, Wrote, Settled, Chunks, BlockAddr;
    fs := EmptyFile();
    ghost var m, own := fs.View(), fs.own;
    InvShape(m, own);
    OneByteNeed(m, 1);
    var n;
    ghost var copied, tab;
    n, copied, tab := Writei(fs, 1, [7], 1, 0);
    InvShape(fs.View(), fs.own);
    assert [7][..copied] == [7];
    FirstByte(m, fs.View(), 7, own, fs.own);
  }

  lemma FirstByte(m: Image, m': Image, x: byte, own: Owners, own': Owners)
    requires Inv(m, own) && Inv(m', own') && 1 < |m.itab| && 1 < |m'.itab| && m.itab[1].size <= 1
    requires Wrote(m, m', 1, 0, [x], 1) && Ledger(m, own, m', own', 1, 0, 0 + Chunks(0, 1))
    ensures Contents(m', 1) == [x] && m'.itab[1].size == 1 && m'.itab[1].typ == m.itab[1].typ
    ensures |FreeBlocks(m')| + 1 >= |FreeBlocks(m)|
  {
    ContentsSize(m, own, 1);
    FreeCount(m, own);
    FreeCount(m', own');
    OneByteNeed(m, 1);
    hide SlotsOk, OwnersOk, BitsOk, InodesOk, BlockAddr, Contents, FreeBlocks, Spent, Need;
  }

  /** In the next transaction two bytes are written over that byte, of which only the first can be read.
      writei returns 0, the file has changed in the cache, and the transaction does not log its block. */
  method TornRun() returns (fs: FileSystem, r: int)
    ensures fresh(fs) && fs.Valid() && Synced(fs.View())
    ensures r == 0 && |fs.itab| == 8 && Contents(fs.View(), 1) == [8]
    ensures fs.scribbled == {BlockAddr(fs.View(), 1, 0)} && BlockAddr(fs.View(), 1, 0) != 0
    ensures BlockAddr(fs.View(), 1, 0) !in fs.logged
  {
    hide Inv, Synced, Full, Account, BlockAddr, NeedFor, FreeBlocks, Contents, Ledger, Wrote, Settled, Chunks, Covered;
    fs := OneFile();
    fs.BeginOp();
    ghost var m := fs.View();
    InvShape(m, fs.own);
    OneByteNeed(m, 1);
    FirstIsMapped(m, fs.own);
    ghost var copied, tab;
    r, copied, tab := Writei(fs, 1, [8, 9], 1, 0);
    InvShape(fs.View(), fs.own);
    assert [8, 9][..1] == [8];
    TornByte(m, fs.View(), fs.own, 8, r);
    assert BlockAddr(fs.View(), 1, 0) in LostBlock(m, fs.View(), 1, 0, 2, 1);
  }

  lemma FirstIsMapped(m: Image, own: Owners)
    requires Inv(m, own) && 1 < |m.itab| && m.itab[1].size == 1
    ensures BlockAddr(m, 1, 0) != 0
  {
    FileBlocksMapped(m, own, 1, 0);
  }

  /** The same two bytes to the empty file: the write is torn as well, but in a block that is new, and
      the transaction logs it. */
  method CoveredRun() returns (fs: FileSystem, r: int)
    ensures fresh(fs) && fs.Valid() && Synced(fs.View())
    ensures r == 0 && |fs.itab| == 8 && Contents(fs.View(), 1) == []
    ensures fs.scribbled == {BlockAddr(fs.View(), 1, 0)} && BlockAddr(fs.View(), 1, 0) in fs.logged
  {
    hide Inv, Synced, Full, Account, BlockAddr, NeedFor, FreeBlocks, Contents, Ledger, Wrote, Settled, Chunks, Covered;
    fs := EmptyFile();
    fs.BeginOp();
    ghost var m := fs.View();
    InvShape(m, fs.own);
    OneByteNeed(m, 1);
    NoBlocks(m, 1, 0);
    ghost var copied, tab;
    r, copied, tab := Writei(fs, 1, [8, 9], 1, 0);
    InvShape(fs.View(), fs.own);
    assert [8, 9][..1] == [8];
    assert Tears(m, 1, 0, 2, 1) && r == 0 && copied == 1;
    StillEmpty(m, fs.View(), 8);
    NewTorn(m, fs.View(), fs.logged);
  }

  lemma NewTorn(m: Image, m': Image, logged: set<nat>)
    requires m.Shape() && m'.Shape() && 1 < |m.itab| && 1 < |m'.itab|
    requires Tears(m, 1, 0, 2, 1) && BlockAddr(m, 1, 0) == 0
    requires Torn(m, m', 1, 0, 2, 1) - logged == LostBlock(m, m', 1, 0, 2, 1) - {}
    ensures Torn(m, m', 1, 0, 2, 1) == {BlockAddr(m', 1, 0)} && BlockAddr(m', 1, 0) in logged
  {
    hide BlockAddr, Tears;
    assert (0 + 1) / BSIZE == 0;
    assert LostBlock(m, m', 1, 0, 2, 1) == {};
    var a := BlockAddr(m', 1, 0);
    assert Torn(m, m', 1, 0, 2, 1) == {a};
    assert a !in {a} - logged;
  }

  lemma NoBlocks(m: Image, i: nat, bn: nat)
    requires m.Shape() && i < |m.itab| && m.itab[i].addrs == NO_ADDRS && bn < NDIRECT
    ensures BlockAddr(m, i, bn) == 0
  {
  }

  lemma StillEmpty(m: Image, m': Image, x: byte)
    requires m.Shape() && m'.Shape() && 1 < |m.itab| && 1 < |m'.itab| && m.itab[1].size == 0
    requires Wrote(m, m', 1, 0, [x], 0)
    ensures Contents(m', 1) == []
  {
  }

  lemma TornByte(m: Image, m': Image, own': Owners, x: byte, r: nat)
    requires m.Shape() && Inv(m', own') && 1 < |m.itab| && 1 < |m'.itab| && |Contents(m, 1)| == 1
    requires r <= 1 && Wrote(m, m', 1, 0, [x], r)
    ensures Contents(m', 1) == [x] && BlockAddr(m', 1, 0) != 0
  {
    FileBlocksMapped(m', own', 1, 0);
    hide SlotsOk, OwnersOk, BitsOk, InodesOk, BlockAddr, Contents;
  }
}
