/** Little-endian fields inside byte strings: how the kernel reads and writes
    an integer through a pointer into a disk block or a memory page. */
module Bytes {

  type byte = x: int | 0 <= x < 256

  /** 256 to the k: one more than the largest k-byte unsigned integer. */
  function Pow256(k: nat): (p: nat)
    ensures p > 0
  {
    if k == 0 then 1 else 256 * Pow256(k - 1)
  }

  /** The k-byte little-endian encoding of w modulo 256^k. */
  function Encode(w: nat, k: nat): (s: seq<byte>)
    ensures |s| == k
  {
    if k == 0 then [] else [w % 256] + Encode(w / 256, k - 1)
  }

  function Decode(s: seq<byte>): (w: nat)
    ensures w < Pow256(|s|)
  {
    if |s| == 0 then 0 else s[0] + 256 * Decode(s[1..])
  }

  lemma {:induction false} DecodeEncode(w: nat, k: nat)
    requires w < Pow256(k)
    ensures Decode(Encode(w, k)) == w
  {
    if k > 0 {
      DecodeEncode(w / 256, k - 1);
      assert Encode(w, k)[1..] == Encode(w / 256, k - 1);
    }
  }

  function Two(x0: nat, x1: nat): (r: nat) {
    x0 + 256 * x1
  }

  function Four(x0: nat, x1: nat, x2: nat, x3: nat): (r: nat) {
    x0 + 256 * x1 + 0x1_0000 * x2 + 0x100_0000 * x3
  }

  lemma TwoBytes(s: seq<byte>)
    requires |s| == 2
    ensures Decode(s) == Two(s[0], s[1])
  {
    assert Decode(s[1..]) == s[1] + 256 * Decode(s[1..][1..]);
  }

  lemma FourBytes(s: seq<byte>)
    requires |s| == 4
    ensures Decode(s) == Four(s[0], s[1], s[2], s[3])
  {
    TwoBytes(s[2..]);
    assert s[1..][1..] == s[2..];
    assert Decode(s[1..]) == s[1] + 256 * Decode(s[2..]);
  }

  lemma {:induction false} DecodeZeros(s: seq<byte>)
    requires forall k :: 0 <= k < |s| ==> s[k] == 0
    ensures Decode(s) == 0
  {
    if s != [] {
      DecodeZeros(s[1..]);
    }
  }

  /** The k-byte field of s that starts at byte off. */
  function Get(s: seq<byte>, off: nat, k: nat): (w: nat)
    requires off + k <= |s|
    ensures w < Pow256(k)
  {
    Decode(s[off..off + k])
  }

  /** s with its k-byte field at off overwritten. */
  function Put(s: seq<byte>, off: nat, k: nat, w: nat): (r: seq<byte>)
    requires off + k <= |s|
    ensures |r| == |s|
  {
    s[..off] + Encode(w, k) + s[off + k..]
  }

  lemma GetPutSame(s: seq<byte>, off: nat, k: nat, w: nat)
    requires off + k <= |s|
    requires w < Pow256(k)
    ensures Get(Put(s, off, k, w), off, k) == w
  {
    DecodeEncode(w, k);
    assert Put(s, off, k, w)[off..off + k] == Encode(w, k);
  }

  lemma GetPutOther(s: seq<byte>, off: nat, k: nat, w: nat, off': nat, k': nat)
    requires off + k <= |s|
    requires off' + k' <= |s|
    requires off + k <= off' || off' + k' <= off
    ensures Get(Put(s, off, k, w), off', k') == Get(s, off', k')
  {
    var r := Put(s, off, k, w);
    assert forall i :: 0 <= i < off || off + k <= i < |s| ==> r[i] == s[i];
    assert r[off'..off' + k'] == s[off'..off' + k'];
  }

  /** Largest value of the source's 32-bit unsigned int, plus one. */
  const UINT_MAX := 0x1_0000_0000

  /** The i-th 32-bit word of s. */
  function Word(s: seq<byte>, i: nat): (w: nat)
    requires 4 * i + 4 <= |s|
    ensures w < UINT_MAX
  {
    assert Pow256(4) == UINT_MAX;
    Get(s, 4 * i, 4)
  }

  function PutWord(s: seq<byte>, i: nat, w: nat): (r: seq<byte>)
    requires 4 * i + 4 <= |s|
    ensures |r| == |s|
  {
    Put(s, 4 * i, 4, w)
  }

  /** Writing a word changes that word and no other. */
  lemma WordPutWord(s: seq<byte>, i: nat, w: nat, j: nat)
    requires 4 * i + 4 <= |s| && 4 * j + 4 <= |s|
    requires w < UINT_MAX
    ensures Word(PutWord(s, i, w), j) == if i == j then w else Word(s, j)
  {
    assert Pow256(4) == UINT_MAX;
    if i == j {
      GetPutSame(s, 4 * i, 4, w);
    } else {
      GetPutOther(s, 4 * i, 4, w, 4 * j, 4);
    }
  }

  /** s with the bytes bs laid over it from at on. */
  function Overlay(s: seq<byte>, at: nat, bs: seq<byte>): (r: seq<byte>)
    requires at + |bs| <= |s|
    ensures |r| == |s|
  {
    s[..at] + bs + s[at + |bs|..]
  }
}
