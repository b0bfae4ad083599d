/** Physical pages, page-table entries and the index arithmetic of Sv39 (section 4.4 of the RISC-V
    Privileged Architecture, version 20211203). Pages are named by their numbers: an address is
    PGSIZE times its page number plus an offset. */
module VmPages {
  import opened Bytes

  const PGSIZE := 4096
  const ENTRIES := 512
  /** One beyond the highest virtual page: MAXVA uses one bit less than Sv39 allows. */
  const MAXPAGE := 0x400_0000
  /** One beyond the highest physical page number an entry can hold. */
  const MAXPPN := 0x1000_0000_0000

  type Page = p: seq<byte> | |p| == PGSIZE witness seq(PGSIZE, i => 0)

  type Ram = map<nat, Page>

  /** A page filled by memset. */
  function Filled(x: byte): (p: Page)
    ensures forall i :: 0 <= i < PGSIZE ==> p[i] == x
  {
    seq(PGSIZE, i => x)
  }

  function Entry(p: Page, i: nat): (e: nat)
    requires i < ENTRIES
  {
    Get(p, 8 * i, 8)
  }

  function SetEntry(p: Page, i: nat, e: nat): (r: Page)
    requires i < ENTRIES
  {
    Put(p, 8 * i, 8, e)
  }

  /** Entry i is the eight bytes at 8 * i, the lowest first. */
  lemma EntryPlace(p: Page, i: nat)
    requires i < ENTRIES
    ensures Entry(p, i) == Word(p, 2 * i) + 0x1_0000_0000 * Word(p, 2 * i + 1)
  {
    SplitEight(p[8 * i..8 * i + 8]);
    assert p[8 * i..8 * i + 8][..4] == p[4 * (2 * i)..4 * (2 * i) + 4];
    assert p[8 * i..8 * i + 8][4..] == p[4 * (2 * i + 1)..4 * (2 * i + 1) + 4];
  }

  lemma SplitEight(s: seq<byte>)
    requires |s| == 8
    ensures Decode(s) == Decode(s[..4]) + 0x1_0000_0000 * Decode(s[4..])
  {
    FourBytes(s[..4]);
    assert s[1..][1..] == s[2..] && s[2..][1..] == s[3..] && s[3..][1..] == s[4..];
    assert Decode(s[3..]) == s[3] + 256 * Decode(s[4..]);
    assert Decode(s[2..]) == s[2] + 256 * Decode(s[3..]);
    assert Decode(s[1..]) == s[1] + 256 * Decode(s[2..]);
  }

  const TWO64 := 0x1_0000_0000_0000_0000

  lemma EightBytes()
    ensures Pow256(8) == TWO64
  {
    assert Pow256(4) == 0x1_0000_0000;
    assert Pow256(8) == 256 * (256 * (256 * (256 * Pow256(4))));
  }

  /** Writing an entry changes that entry and no other. */
  lemma EntrySetEntry(p: Page, i: nat, e: nat, j: nat)
    requires i < ENTRIES && j < ENTRIES && e < TWO64
    ensures Entry(SetEntry(p, i, e), j) == if i == j then e else Entry(p, j)
  {
    EightBytes();
    if i == j {
      GetPutSame(p, 8 * i, 8, e);
    } else {
      GetPutOther(p, 8 * i, 8, e, 8 * j, 8);
    }
  }

  lemma ZeroEntry(i: nat)
    requires i < ENTRIES
    ensures Entry(Filled(0), i) == 0
  {
    DecodeZeros(Filled(0)[8 * i..8 * i + 8]);
  }

  // ----- entries -----

  const V := 1
  const R := 2
  const W := 4
  const X := 8
  const U := 16

  /** PA2PTE(pa) | flags. */
  function Pte(ppn: nat, flags: nat): (e: nat) {
    ppn * 1024 + flags
  }

  /** PTE2PA, as a page number. */
  function PpnOf(e: nat): (ppn: nat) {
    e / 1024
  }

  function FlagsOf(e: nat): (f: nat)
    ensures f < 1024
  {
    e % 1024
  }

  predicate Has(flags: nat, bit: nat)
    requires bit > 0
  {
    flags / bit % 2 == 1
  }

  predicate Valid(e: nat) {
    e % 2 == 1
  }

  /** flags | PTE_V. */
  function WithV(flags: nat): (f: nat) {
    if flags % 2 == 1 then flags else flags + 1
  }

  lemma PteParts(ppn: nat, flags: nat)
    requires flags < 1024
    ensures PpnOf(Pte(ppn, flags)) == ppn && FlagsOf(Pte(ppn, flags)) == flags
    ensures Valid(Pte(ppn, flags)) <==> flags % 2 == 1
    ensures ppn < MAXPPN ==> Pte(ppn, flags) < TWO64
  {
  }

  /** The bits of an entry: the page number from bit 10 on, the flags below. */
  lemma PteFields(e: nat)
    ensures e == 1024 * PpnOf(e) + FlagsOf(e)
    ensures Valid(e) <==> Has(FlagsOf(e), V)
  {
  }

  lemma VBit(flags: nat)
    requires flags < 1024
    ensures WithV(flags) < 1024 && WithV(flags) % 2 == 1
    ensures forall bit :: bit in {R, W, X, U} ==> (Has(WithV(flags), bit) <==> Has(flags, bit))
  {
  }

  // ----- indices -----

  /** PX(2, va), PX(1, va) and PX(0, va) of the address of virtual page v. */
  function Px2(v: nat): (i: nat) {
    v / 0x4_0000
  }

  function Px1(v: nat): (i: nat)
    ensures i < ENTRIES
  {
    v / ENTRIES % ENTRIES
  }

  function Px0(v: nat): (i: nat)
    ensures i < ENTRIES
  {
    v % ENTRIES
  }

  /** The three indices determine the page, and Px2 and Px1 its block of 512 pages. */
  lemma IndexSplit(v: nat)
    ensures v == (Px2(v) * ENTRIES + Px1(v)) * ENTRIES + Px0(v) && v / ENTRIES == Px2(v) * ENTRIES + Px1(v)
    ensures v / ENTRIES / ENTRIES == Px2(v) && (v < MAXPAGE ==> Px2(v) < 256 < ENTRIES)
  {
    var k := v / ENTRIES;
    assert v == ENTRIES * k + v % ENTRIES && k == ENTRIES * (k / ENTRIES) + k % ENTRIES;
    assert v == 0x4_0000 * (k / ENTRIES) + (ENTRIES * (k % ENTRIES) + v % ENTRIES);
  }

  lemma IndexInjective(u: nat, v: nat)
    requires Px2(u) == Px2(v) && Px1(u) == Px1(v) && Px0(u) == Px0(v)
    ensures u == v
  {
    IndexSplit(u);
    IndexSplit(v);
  }
}
