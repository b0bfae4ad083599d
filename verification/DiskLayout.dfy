/** The formats on disk, byte by byte: where the log header, the free map, the inodes and the block map keep
    what. */
module DiskLayout {
  import opened Bytes
  import opened Blocks
  import opened LogFormat
  import opened FsLayout
  import opened FsImage
  import opened FsFile

  // ----- integers -----

  /** A 32-bit integer is four bytes, the lowest first. */
  lemma WordBytes(s: seq<byte>, i: nat)
    requires 4 * i + 4 <= |s|
    ensures Word(s, i) == Four(s[4 * i], s[4 * i + 1], s[4 * i + 2], s[4 * i + 3])
  {
    FourBytes(s[4 * i..4 * i + 4]);
  }

  // ----- the log -----

  /** struct logheader: the count, then the block numbers. Log block t follows the header at distance t + 1. */
  lemma HeaderPlace(g: Geometry, b: Block, i: nat)
    requires HeadCount(b) <= LOGBLOCKS && i < HeadCount(b)
    ensures HeadCount(b) == Word(b, 0) && |HeadList(b)| == HeadCount(b) && HeadList(b)[i] == Word(b, 1 + i)
    ensures g.Slot(0) == g.start + 1 && g.Slot(i + 1) == g.Slot(i) + 1
  {
  }

  // ----- the free map -----

  /** Bit k of x, as a number. */
  function Bit01(x: nat, k: nat): (r: nat) {
    if BitOf(x, k) then 1 else 0
  }

  lemma LowBits(x: nat)
    ensures x == Bit01(x, 0) + 2 * (x / 2)
    ensures forall k :: 0 < k < 8 ==> Bit01(x, k) == Bit01(x / 2, k - 1)
  {
  }

  /** The bits of a byte, the lowest first. */
  lemma ByteBits(x: byte)
    ensures x == Bit01(x, 0) + 2 * Bit01(x, 1) + 4 * Bit01(x, 2) + 8 * Bit01(x, 3)
                 + 16 * Bit01(x, 4) + 32 * Bit01(x, 5) + 64 * Bit01(x, 6) + 128 * Bit01(x, 7)
  {
    var h1 := x / 2;
    var h2 := h1 / 2;
    var h3 := h2 / 2;
    var h4 := h3 / 2;
    var h5 := h4 / 2;
    var h6 := h5 / 2;
    var h7 := h6 / 2;
    LowBits(x);
    LowBits(h1);
    LowBits(h2);
    LowBits(h3);
    LowBits(h4);
    LowBits(h5);
    LowBits(h6);
    LowBits(h7);
    hide Bit01;
  }

  /** The bit of block b: 8192 bits a map block, eight a byte. */
  lemma BitPlace(sb: Super, blocks: seq<Block>, b: nat)
    requires sb.bmapstart + b / 8192 < |blocks|
    ensures sb.BBlock(b) < |blocks|
    ensures Bit(sb, blocks, b) <==> BitOf(blocks[sb.bmapstart + b / 8192][b % 8192 / 8], b % 8)
  {
    assert BPB == 8192;
  }

  // ----- inodes -----

  lemma SliceOfRest(s: seq<byte>, a: nat, o: nat, n: nat)
    requires a + o + n <= |s|
    ensures s[a..][o..o + n] == s[a + o..a + o + n]
  {
  }

  lemma {:induction false} WordsAt(s: seq<byte>, n: nat, k: nat)
    requires |s| == 4 * n && k < n
    ensures DecodeWords(s, n)[k] == Word(s, k)
  {
    if k > 0 {
      WordsAt(s[4..], n - 1, k - 1);
      var o := 4 * (k - 1);
      assert 4 + o == 4 * k;
      SliceOfRest(s, 4, o, 4);
    } else {
      assert s[..4] == s[0..4];
    }
  }

  /** struct dinode: inode i is the (i % 16)th piece of 64 bytes of its block. */
  lemma InodePlace(sb: Super, blocks: seq<Block>, i: nat, k: nat)
    requires sb.inodestart + i / 16 < |blocks| && k <= NDIRECT
    ensures sb.IBlock(i) < |blocks|
    ensures var d := Dinode(sb, blocks, i);
            var s := blocks[sb.inodestart + i / 16][i % 16 * 64..i % 16 * 64 + 64];
            && d.typ == Two(s[0], s[1]) && d.major == Two(s[2], s[3]) && d.minor == Two(s[4], s[5])
            && d.nlink == Two(s[6], s[7]) && d.size == Word(s, 2) && d.addrs[k] == Word(s, 3 + k)
  {
    assert IPB == 16;
    var s := blocks[sb.inodestart + i / 16][i % 16 * 64..i % 16 * 64 + 64];
    TwoBytes(s[..2]);
    TwoBytes(s[2..4]);
    TwoBytes(s[4..6]);
    TwoBytes(s[6..8]);
    WordsAt(s[12..], NDIRECT + 1, k);
    assert 12 + 4 * k == 4 * (3 + k);
    SliceOfRest(s, 12, 4 * k, 4);
  }

  // ----- the block map -----

  /** Twelve direct blocks, then as many as the indirect block lists. */
  lemma BlockPlace(m: Image, i: nat, bn: nat)
    requires m.Shape() && i < |m.itab| && bn < MAXFILE
    ensures var addrs := m.itab[i].addrs;
            BlockAddr(m, i, bn) ==
            if bn < 12 then addrs[bn]
            else if 0 < addrs[12] < |m.blocks| then Word(m.blocks[addrs[12]], bn - 12) else 0
  {
  }

  /** Byte o of a file is byte o % 1024 of its block o / 1024. */
  lemma BytePlace(m: Image, i: nat, o: nat)
    requires m.Shape() && i < |m.itab| && o < MAXFILE * BSIZE
    ensures o / 1024 < MAXFILE
    ensures var a := BlockAddr(m, i, o / 1024); 0 < a < |m.blocks| ==> ByteAt(m, i, o) == m.blocks[a][o % 1024]
  {
  }
}
