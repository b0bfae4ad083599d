/** On-disk layout of the file system: superblock, free map bits, and inodes. */
module FsLayout {
  import opened Bytes
  import opened Blocks

  const BPB := BSIZE * 8
  const IPB := BSIZE / 64
  const NDIRECT := 12
  const NINDIRECT := BSIZE / 4
  const MAXFILE := NDIRECT + NINDIRECT

  /** The superblock fields used here; `data` is the first data block. */
  datatype Super = Super(size: nat, ninodes: nat, inodestart: nat, bmapstart: nat, data: nat) {
    /** The regions mkfs lays out, one after the other. */
    ghost predicate Valid() {
      && 0 < inodestart
      && inodestart + ninodes / IPB + 1 <= bmapstart
      && bmapstart + size / BPB + 1 <= data
      && data < size < UINT_MAX
    }

    function IBlock(i: nat): (b: nat) {
      i / IPB + inodestart
    }

    function BBlock(b: nat): (r: nat) {
      b / BPB + bmapstart
    }
  }

  // ----- Bits of a byte -----

  /** x & (1 << k) is not zero. */
  predicate BitOf(x: nat, k: nat) {
    if k == 0 then x % 2 == 1 else BitOf(x / 2, k - 1)
  }

  /** x | (1 << k), or x & ~(1 << k). */
  function WithBit(x: nat, k: nat, on: bool): (r: nat) {
    if k == 0 then x - x % 2 + (if on then 1 else 0)
    else x % 2 + 2 * WithBit(x / 2, k - 1, on)
  }

  lemma {:induction false} BitOfWithBit(x: nat, k: nat, on: bool, j: nat)
    ensures BitOf(WithBit(x, k, on), j) == if j == k then on else BitOf(x, j)
  {
    if k > 0 && j > 0 {
      BitOfWithBit(x / 2, k - 1, on, j - 1);
    }
  }

  function Pow2(n: nat): (p: nat) {
    if n == 0 then 1 else 2 * Pow2(n - 1)
  }

  lemma {:induction false} WithBitFits(x: nat, k: nat, on: bool, n: nat)
    requires x < Pow2(n) && k < n
    ensures WithBit(x, k, on) < Pow2(n)
  {
    var half := x / 2;
    assert x == 2 * half + x % 2 && Pow2(n) == 2 * Pow2(n - 1) && half < Pow2(n - 1);
    if k > 0 {
      WithBitFits(half, k - 1, on, n - 1);
      assert WithBit(x, k, on) == x % 2 + 2 * WithBit(half, k - 1, on);
    }
  }

  /** One byte of the free map with one bit changed. */
  function ByteWithBit(x: byte, k: nat, on: bool): (r: byte)
    requires k < 8
  {
    WithBitFits(x, k, on, 8);
    assert Pow2(8) == 256;
    WithBit(x, k, on)
  }

  // ----- The free map -----

  /** Bit b of the free map. */
  predicate Bit(sb: Super, blocks: seq<Block>, b: nat)
    requires sb.BBlock(b) < |blocks|
  {
    BitOf(blocks[sb.BBlock(b)][b % BPB / 8], b % 8)
  }

  /** The blocks with bit b of the free map changed. */
  function SetBit(sb: Super, blocks: seq<Block>, b: nat, on: bool): (r: seq<Block>)
    requires sb.BBlock(b) < |blocks|
    ensures |r| == |blocks|
  {
    var m := blocks[sb.BBlock(b)];
    blocks[sb.BBlock(b) := m[b % BPB / 8 := ByteWithBit(m[b % BPB / 8], b % 8, on)]]
  }

  lemma BitSetBit(sb: Super, blocks: seq<Block>, b: nat, on: bool, c: nat)
    requires sb.BBlock(b) < |blocks| && sb.BBlock(c) < |blocks|
    ensures Bit(sb, SetBit(sb, blocks, b, on), c) == if c == b then on else Bit(sb, blocks, c)
  {
    BitOfWithBit(blocks[sb.BBlock(b)][b % BPB / 8], b % 8, on, c % 8);
    if sb.BBlock(b) == sb.BBlock(c) && b % BPB / 8 == c % BPB / 8 && b % 8 == c % 8 {
      SameBit(b, c);
    }
  }

  lemma ModIs(x: nat, q: nat, u: nat)
    requires x == 8 * q + u && u < 8
    ensures x % 8 == u
  {
  }

  lemma ModEight(b: nat)
    ensures b % BPB % 8 == b % 8
  {
    ModIs(b, 1024 * (b / BPB) + b % BPB / 8, b % BPB % 8);
  }

  lemma SameBit(b: nat, c: nat)
    requires b / BPB == c / BPB && b % BPB / 8 == c % BPB / 8 && b % 8 == c % 8
    ensures b == c
  {
    ModEight(b);
    ModEight(c);
  }

  // ----- Inodes -----

  datatype Inode = Inode(typ: nat, major: nat, minor: nat, nlink: nat, size: nat, addrs: seq<nat>) {
    /** The fields fit the widths of struct dinode. */
    ghost predicate Valid() {
      && typ < 0x1_0000 && major < 0x1_0000 && minor < 0x1_0000 && nlink < 0x1_0000
      && size < UINT_MAX && |addrs| == NDIRECT + 1
      && forall k :: 0 <= k < |addrs| ==> addrs[k] < UINT_MAX
    }
  }

  function EncodeWords(ws: seq<nat>): (s: seq<byte>)
    ensures |s| == 4 * |ws|
  {
    if ws == [] then [] else Encode(ws[0], 4) + EncodeWords(ws[1..])
  }

  function DecodeWords(s: seq<byte>, n: nat): (ws: seq<nat>)
    requires |s| == 4 * n
    ensures |ws| == n && forall k :: 0 <= k < n ==> ws[k] < UINT_MAX
  {
    if n == 0 then []
    else
      assert Pow256(4) == UINT_MAX;
      [Decode(s[..4])] + DecodeWords(s[4..], n - 1)
  }

  lemma {:induction false} WordsRoundTrip(ws: seq<nat>)
    requires forall k :: 0 <= k < |ws| ==> ws[k] < UINT_MAX
    ensures DecodeWords(EncodeWords(ws), |ws|) == ws
  {
    if ws != [] {
      assert Pow256(4) == UINT_MAX;
      DecodeEncode(ws[0], 4);
      WordsRoundTrip(ws[1..]);
      assert EncodeWords(ws)[..4] == Encode(ws[0], 4) && EncodeWords(ws)[4..] == EncodeWords(ws[1..]);
    }
  }

  /** struct dinode as bytes. */
  function EncodeInode(d: Inode): (s: seq<byte>)
    requires |d.addrs| == NDIRECT + 1
    ensures |s| == 64
  {
    Encode(d.typ, 2) + Encode(d.major, 2) + Encode(d.minor, 2) + Encode(d.nlink, 2) +
    Encode(d.size, 4) + EncodeWords(d.addrs)
  }

  function DecodeInode(s: seq<byte>): (d: Inode)
    requires |s| == 64
    ensures d.Valid()
  {
    assert Pow256(2) == 0x1_0000 && Pow256(4) == UINT_MAX;
    Inode(Decode(s[..2]), Decode(s[2..4]), Decode(s[4..6]), Decode(s[6..8]), Decode(s[8..12]),
          DecodeWords(s[12..], NDIRECT + 1))
  }

  lemma InodeRoundTrip(d: Inode)
    requires d.Valid()
    ensures DecodeInode(EncodeInode(d)) == d
  {
    var s := EncodeInode(d);
    assert Pow256(2) == 0x1_0000 && Pow256(4) == UINT_MAX;
    assert s[..2] == Encode(d.typ, 2) && s[2..4] == Encode(d.major, 2);
    assert s[4..6] == Encode(d.minor, 2) && s[6..8] == Encode(d.nlink, 2);
    assert s[8..12] == Encode(d.size, 4) && s[12..] == EncodeWords(d.addrs);
    DecodeEncode(d.typ, 2);
    DecodeEncode(d.major, 2);
    DecodeEncode(d.minor, 2);
    DecodeEncode(d.nlink, 2);
    DecodeEncode(d.size, 4);
    WordsRoundTrip(d.addrs);
  }

  /** The on-disk inode number i. */
  function Dinode(sb: Super, blocks: seq<Block>, i: nat): (d: Inode)
    requires sb.IBlock(i) < |blocks|
    ensures d.Valid()
  {
    var off := i % IPB * 64;
    DecodeInode(blocks[sb.IBlock(i)][off..off + 64])
  }

  function SpliceInode(b: Block, slot: nat, d: Inode): (r: Block)
    requires slot < IPB && |d.addrs| == NDIRECT + 1
  {
    b[..slot * 64] + EncodeInode(d) + b[slot * 64 + 64..]
  }

  /** iupdate's effect on the disk blocks. */
  function SetDinode(sb: Super, blocks: seq<Block>, i: nat, d: Inode): (r: seq<Block>)
    requires sb.IBlock(i) < |blocks| && |d.addrs| == NDIRECT + 1
    ensures |r| == |blocks|
  {
    blocks[sb.IBlock(i) := SpliceInode(blocks[sb.IBlock(i)], i % IPB, d)]
  }

  /** Writing an inode back changes that inode on disk and no other. */
  lemma DinodeSetDinode(sb: Super, blocks: seq<Block>, i: nat, d: Inode, j: nat)
    requires sb.IBlock(i) < |blocks| && sb.IBlock(j) < |blocks| && d.Valid()
    ensures Dinode(sb, SetDinode(sb, blocks, i, d), j) == if i == j then d else Dinode(sb, blocks, j)
  {
    hide DecodeInode, EncodeInode;
    var off, off' := i % IPB * 64, j % IPB * 64;
    var b := blocks[sb.IBlock(i)];
    var b' := SpliceInode(b, i % IPB, d);
    if i == j {
      assert b'[off..off + 64] == EncodeInode(d);
      InodeRoundTrip(d);
    } else if sb.IBlock(i) == sb.IBlock(j) {
      assert i % IPB != j % IPB by {
        assert i == i / IPB * IPB + i % IPB && j == j / IPB * IPB + j % IPB;
      }
      assert b'[off'..off' + 64] == b[off'..off' + 64];
    }
  }
}
