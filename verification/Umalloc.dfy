/** The user-level allocator: a circular list of free blocks threaded through their headers.
    Addresses count headers (16 bytes); the null pointer is 0, the static header base is 1, and
    the heap lies above it. */
module Umalloc {
  import opened Collections
  import opened FreeRegions

  const NULL := 0
  const BASE := 1
  const HEADER := 16
  const CHUNK := 4096
  /** The largest request sbrk's int argument can carry, in headers. */
  const MAXUNITS := 0x7FF_FFFF

  datatype Header = Header(ptr: nat, size: nat)

  function NextId(ids: seq<nat>, k: nat): (r: nat) {
    if k + 1 < |ids| then ids[k + 1] else BASE
  }

  ghost predicate NextAt(mem: map<nat, Header>, ids: seq<nat>, k: nat)
    requires k < |ids|
  {
    ids[k] in mem && mem[ids[k]].ptr == NextId(ids, k)
  }

  ghost predicate InMem(mem: map<nat, Header>, ids: seq<nat>) {
    forall k :: 0 <= k < |ids| ==> ids[k] in mem
  }

  /** The headers ids form one cycle, in this order, that starts at base. */
  ghost predicate Ring(mem: map<nat, Header>, ids: seq<nat>) {
    && |ids| > 0 && ids[0] == BASE && InMem(mem, ids) && mem[BASE].size == 0
    && forall k :: 0 <= k < |ids| ==> NextAt(mem, ids, k)
  }

  /** The free blocks, base left out. */
  function RegionsOf(mem: map<nat, Header>, ids: seq<nat>): (l: seq<Region>)
    requires |ids| > 0 && InMem(mem, ids)
    ensures |l| == |ids| - 1
  {
    seq(|ids| - 1, k requires 0 <= k < |ids| - 1 => Region(ids[k + 1], mem[ids[k + 1]].size))
  }

  ghost predicate Above(l: seq<Region>) {
    forall k :: 0 <= k < |l| ==> l[k].begin > BASE
  }

  /** In a canonical list above base the addresses of the cycle increase, with one wrap. */
  lemma RingIncreases(mem: map<nat, Header>, ids: seq<nat>, j: nat, k: nat)
    requires Ring(mem, ids) && Canonical(RegionsOf(mem, ids)) && Above(RegionsOf(mem, ids)) && j < k < |ids|
    ensures ids[j] < ids[k] && (j > 0 ==> ids[j] + mem[ids[j]].size < ids[k])
  {
    var l := RegionsOf(mem, ids);
    assert l[k - 1].begin == ids[k];
    if j > 0 {
      assert l[j - 1] == Region(ids[j], mem[ids[j]].size) && l[j - 1].End() < l[k - 1].begin;
    }
  }

  lemma RingDistinct(mem: map<nat, Header>, ids: seq<nat>)
    requires Ring(mem, ids) && Canonical(RegionsOf(mem, ids)) && Above(RegionsOf(mem, ids))
    ensures Distinct(ids)
  {
    forall j, k | 0 <= j < k < |ids|
      ensures ids[j] != ids[k]
    {
      RingIncreases(mem, ids, j, k);
    }
  }

  /** free, once the place is found: bp goes after p, joined with its upper and lower neighbour
      if up and down say so. */
  function FreeMem(mem: map<nat, Header>, p: nat, bp: nat, up: bool, down: bool): (r: map<nat, Header>)
    requires p in mem && bp in mem && (up ==> mem[p].ptr in mem)
  {
    var q := mem[p].ptr;
    var h := if up then Header(mem[q].ptr, mem[bp].size + mem[q].size) else Header(q, mem[bp].size);
    var m1 := mem[bp := h];
    if down then m1[p := Header(h.ptr, m1[p].size + h.size)] else m1[p := Header(bp, m1[p].size)]
  }

  function FreeIds(ids: seq<nat>, j: nat, bp: nat, up: bool, down: bool): (r: seq<nat>)
    requires j < |ids| && (up ==> j + 1 < |ids|)
    ensures |r| > 0
  {
    ids[..j + 1] + (if down then [] else [bp]) + ids[if up then j + 2 else j + 1..]
  }

  lemma FreeRing(mem: map<nat, Header>, ids: seq<nat>, j: nat, bp: nat, up: bool, down: bool)
    requires Ring(mem, ids) && Distinct(ids) && j < |ids| && bp in mem && bp !in ids
    requires (up ==> j + 1 < |ids|) && (down ==> j > 0)
    ensures mem[ids[j]].ptr in mem && Ring(FreeMem(mem, ids[j], bp, up, down), FreeIds(ids, j, bp, up, down))
  {
    assert NextAt(mem, ids, j);
    var mem', ids' := FreeMem(mem, ids[j], bp, up, down), FreeIds(ids, j, bp, up, down);
    var q := mem[ids[j]].ptr;
    if up {
      assert NextAt(mem, ids, j + 1);
    }
    forall k | 0 <= k < |ids'|
      ensures NextAt(mem', ids', k)
    {
      var d := (if up then 1 else 0) - (if down then 0 else 1);
      if k < j {
        assert NextAt(mem, ids, k);
      } else if k > j + (if down then 0 else 1) {
        assert NextAt(mem, ids, k + d);
      }
    }
    assert NextAt(mem', ids', 0);
  }

  /** The list after a release, in one formula. */
  function Merged(l: seq<Region>, j: nat, c: Region, up: bool, down: bool): (r: seq<Region>)
    requires j <= |l| && (up ==> j < |l|) && (down ==> j > 0)
  {
    var lo, hi := if down then j - 1 else j, if up then j + 1 else j;
    l[..lo] + [Region(if down then l[j - 1].begin else c.begin,
                      (if down then l[j - 1].count else 0) + c.count + (if up then l[j].count else 0))] + l[hi..]
  }

  lemma FreeRegionsAre(mem: map<nat, Header>, ids: seq<nat>, j: nat, bp: nat, up: bool, down: bool)
    requires Ring(mem, ids) && Distinct(ids) && j < |ids| && bp in mem && bp !in ids
    requires (up ==> j + 1 < |ids|) && (down ==> j > 0)
    ensures mem[ids[j]].ptr in mem
    ensures var l := RegionsOf(mem, ids);
            var mem', ids' := FreeMem(mem, ids[j], bp, up, down), FreeIds(ids, j, bp, up, down);
            InMem(mem', ids') && RegionsOf(mem', ids') == Merged(l, j, Region(bp, mem[bp].size), up, down)
  {
    assert NextAt(mem, ids, j);
    FreeRing(mem, ids, j, bp, up, down);
    var l, c := RegionsOf(mem, ids), Region(bp, mem[bp].size);
    var mem', ids' := FreeMem(mem, ids[j], bp, up, down), FreeIds(ids, j, bp, up, down);
    var l', m := RegionsOf(mem', ids'), Merged(l, j, c, up, down);
    hide Ring, Distinct;
    assert |l'| == |m|;
    forall k | 0 <= k < |m|
      ensures l'[k] == m[k]
    {
      FreeRegionAt(mem, ids, j, bp, up, down, k);
    }
  }

  lemma FreeRegionAt(mem: map<nat, Header>, ids: seq<nat>, j: nat, bp: nat, up: bool, down: bool, k: nat)
    requires InMem(mem, ids) && Distinct(ids) && j < |ids| && bp in mem && bp !in ids && NextAt(mem, ids, j)
    requires (up ==> j + 1 < |ids|) && (down ==> j > 0) && k + 1 < |FreeIds(ids, j, bp, up, down)|
    ensures var l, c := RegionsOf(mem, ids), Region(bp, mem[bp].size);
            var mem', ids' := FreeMem(mem, ids[j], bp, up, down), FreeIds(ids, j, bp, up, down);
            && k < |Merged(l, j, c, up, down)| && ids'[k + 1] in mem'
            && Region(ids'[k + 1], mem'[ids'[k + 1]].size) == Merged(l, j, c, up, down)[k]
  {
    var ids' := FreeIds(ids, j, bp, up, down);
    var lo := if down then j - 1 else j;
    if k < lo {
      assert ids'[k + 1] == ids[k + 1] && (down ==> ids[k + 1] != ids[j]);
    } else if k == lo {
      assert ids'[k + 1] == if down then ids[j] else bp;
    } else {
      var d := (if up then 1 else 0) - (if down then 0 else 1);
      assert ids'[k + 1] == ids[k + 1 + d] != ids[j];
      assert Merged(RegionsOf(mem, ids), j, Region(bp, mem[bp].size), up, down)[k] == RegionsOf(mem, ids)[k + d];
    }
  }

  lemma JoinUp(l: seq<Region>, j: nat, c: Region, up: bool)
    requires j <= |l| && (up <==> j < |l| && c.End() == l[j].begin)
    ensures Joined(Insert(l, j, c), j) == Merged(l, j, c, up, false)
  {
    var l0 := Insert(l, j, c);
    assert l0[j] == c && (j < |l| ==> l0[j + 1] == l[j]);
  }

  lemma JoinDown(l: seq<Region>, j: nat, c: Region, up: bool, down: bool)
    requires 0 < j <= |l| && (up ==> j < |l|) && (down <==> l[j - 1].End() == c.begin)
    ensures Joined(Merged(l, j, c, up, false), j - 1) == Merged(l, j, c, up, down)
  {
    var l1 := Merged(l, j, c, up, false);
    assert l1[j - 1] == l[j - 1] && l1[j].begin == c.begin;
  }

  lemma ReleasedForm(l: seq<Region>, j: nat, b: nat, n: nat)
    requires j == Place(l, b)
    ensures Released(l, b, n)
         == Merged(l, j, Region(b, n), j < |l| && b + n == l[j].begin, j > 0 && l[j - 1].End() == b)
  {
    hide Joined, Insert, Merged, Place;
    var c := Region(b, n);
    var up := j < |l| && b + n == l[j].begin;
    JoinUp(l, j, c, up);
    if j > 0 {
      JoinDown(l, j, c, up, l[j - 1].End() == b);
    }
  }

  /** Taking the last n units of region k. */
  lemma TakenForm(l: seq<Region>, k: nat, n: nat)
    requires Canonical(l) && k < |l| && 0 < n <= l[k].count
    ensures l[k].Holds(l[k].End() - n, n)
    ensures Mapped(l, l[k].End() - n, n)
         == if l[k].count == n then l[..k] + l[k + 1..] else l[k := Region(l[k].begin, l[k].count - n)]
  {
    var a := l[k].End() - n;
    OnlyHolder(l, k, a, n);
    hide Holder, Canonical;
    assert Pieces(l[k], a, n) == if l[k].count == n then [] else [Region(l[k].begin, l[k].count - n)];
    hide Pieces;
  }

  /** In a canonical list one region at most holds a range. */
  lemma OnlyHolder(l: seq<Region>, k: nat, b: nat, n: nat)
    requires Canonical(l) && k < |l| && n > 0 && l[k].Holds(b, n)
    ensures Holder(l, 0, b, n) == k
  {
  }

  lemma UnlinkRing(mem: map<nat, Header>, ids: seq<nat>, k: nat)
    requires Ring(mem, ids) && Distinct(ids) && 0 < k < |ids|
    ensures var mem', ids' := mem[ids[k - 1] := mem[ids[k - 1]].(ptr := mem[ids[k]].ptr)], ids[..k] + ids[k + 1..];
            && Ring(mem', ids')
            && var l := RegionsOf(mem, ids); RegionsOf(mem', ids') == l[..k - 1] + l[k..]
  {
    var mem', ids' := mem[ids[k - 1] := mem[ids[k - 1]].(ptr := mem[ids[k]].ptr)], ids[..k] + ids[k + 1..];
    assert NextAt(mem, ids, k);
    forall j | 0 <= j < |ids'|
      ensures NextAt(mem', ids', j)
    {
      assert NextAt(mem, ids, if j < k then j else j + 1);
    }
  }

  lemma ShrinkRing(mem: map<nat, Header>, ids: seq<nat>, k: nat, size: nat, a: nat, h: Header)
    requires Ring(mem, ids) && Distinct(ids) && 0 < k < |ids| && a !in ids
    ensures var mem' := mem[ids[k] := mem[ids[k]].(size := size)][a := h];
            Ring(mem', ids) && RegionsOf(mem', ids) == RegionsOf(mem, ids)[k - 1 := Region(ids[k], size)]
  {
    var mem' := mem[ids[k] := mem[ids[k]].(size := size)][a := h];
    forall j | 0 <= j < |ids|
      ensures NextAt(mem', ids, j)
    {
      assert NextAt(mem, ids, j);
    }
  }

  /** A header that is not in the ring may change freely. */
  lemma OtherRing(mem: map<nat, Header>, ids: seq<nat>, a: nat, h: Header)
    requires Ring(mem, ids) && a !in ids
    ensures Ring(mem[a := h], ids) && RegionsOf(mem[a := h], ids) == RegionsOf(mem, ids)
  {
    var mem' := mem[a := h];
    forall j | 0 <= j < |ids|
      ensures NextAt(mem', ids, j)
    {
      assert NextAt(mem, ids, j);
    }
  }

  // ----- who holds which unit -----

  ghost predicate LiveAt(live: map<nat, nat>, u: nat) {
    exists a :: a in live && a <= u < a + live[a]
  }

  ghost predicate AllApart(l: seq<Region>, live: map<nat, nat>) {
    forall a :: a in live ==> live[a] > 0 && Apart(l, a, live[a])
  }

  function Units(a: nat, n: nat): (r: set<nat>)
    ensures forall u: nat :: u in r <==> a <= u < a + n
  {
    set u: nat | a <= u < a + n && Within(a, n, u)
  }

  /** Free and live blocks are apart, and together are the units obtained from sbrk. */
  ghost predicate Partition(heap: set<nat>, l: seq<Region>, live: map<nat, nat>) {
    && (forall u: nat :: u in heap <==> Covers(l, u) || LiveAt(live, u))
    && AllApart(l, live)
    && (forall a, b :: a in live && b in live && a != b ==> a + live[a] <= b || b + live[b] <= a)
  }

  lemma LiveWith(live: map<nat, nat>, a: nat, n: nat, u: nat)
    requires a !in live
    ensures LiveAt(live[a := n], u) <==> LiveAt(live, u) || a <= u < a + n
  {
    var live' := live[a := n];
    if LiveAt(live, u) {
      var b :| b in live && b <= u < b + live[b];
      assert b in live' && live'[b] == live[b];
    }
    assert a in live';
  }

  lemma LiveWithout(live: map<nat, nat>, a: nat, u: nat)
    requires a in live && forall b :: b in live && b != a ==> a + live[a] <= b || b + live[b] <= a
    ensures LiveAt(live - {a}, u) <==> LiveAt(live, u) && !(a <= u < a + live[a])
  {
    var live' := live - {a};
    if LiveAt(live, u) && !(a <= u < a + live[a]) {
      var b :| b in live && b <= u < b + live[b];
      assert b in live' && live'[b] == live[b];
    }
  }

  /** A covered and an uncovered range do not overlap. */
  lemma Separate(l: seq<Region>, a: nat, n: nat, b: nat, m: nat)
    requires n > 0 && m > 0
    requires forall u: nat :: Within(a, n, u) ==> Covers(l, u)
    requires forall u: nat :: Within(b, m, u) ==> !Covers(l, u)
    ensures a + n <= b || b + m <= a
  {
    var u := if a <= b then b else a;
    assert Within(a, n, u) && Within(b, m, u) <==> u < a + n && u < b + m;
  }

  /** malloc's step: part of a free block becomes live. */
  lemma TakePartition(heap: set<nat>, l: seq<Region>, live: map<nat, nat>, a: nat, n: nat)
    requires Canonical(l) && Partition(heap, l, live) && n > 0 && exists k :: 0 <= k < |l| && l[k].Holds(a, n)
    ensures a !in live && Canonical(Mapped(l, a, n)) && Partition(heap, Mapped(l, a, n), live[a := n])
  {
    hide Mapped, Canonical, Covers, Apart, LiveAt, Within;
    var l', live' := Mapped(l, a, n), live[a := n];
    MappedMeans(l, a, n);
    HeldCovered(l, a, n);
    forall b | b in live
      ensures a + n <= b || b + live[b] <= a
    {
      ApartUncovered(l, b, live[b]);
      Separate(l, a, n, b, live[b]);
    }
    TakeUnits(heap, l, live, a, n);
    TakeApart(l, live, a, n);
  }

  lemma TakeUnits(heap: set<nat>, l: seq<Region>, live: map<nat, nat>, a: nat, n: nat)
    requires Partition(heap, l, live) && a !in live
    requires forall u: nat :: Covers(Mapped(l, a, n), u) <==> Covers(l, u) && !Within(a, n, u)
    requires forall u: nat :: Within(a, n, u) ==> Covers(l, u)
    ensures forall u: nat :: u in heap <==> Covers(Mapped(l, a, n), u) || LiveAt(live[a := n], u)
  {
    hide Mapped, Covers, LiveAt;
    forall u: nat
      ensures u in heap <==> Covers(Mapped(l, a, n), u) || LiveAt(live[a := n], u)
    {
      LiveWith(live, a, n, u);
      assert Within(a, n, u) <==> a <= u < a + n;
    }
  }

  lemma TakeApart(l: seq<Region>, live: map<nat, nat>, a: nat, n: nat)
    requires Canonical(Mapped(l, a, n)) && n > 0 && a !in live
    requires AllApart(l, live)
    requires forall u: nat :: Covers(Mapped(l, a, n), u) <==> Covers(l, u) && !Within(a, n, u)
    ensures AllApart(Mapped(l, a, n), live[a := n])
  {
    var l', live' := Mapped(l, a, n), live[a := n];
    hide Mapped, Canonical, Covers, Apart;
    forall b | b in live'
      ensures Apart(l', b, live'[b])
    {
      if b != a {
        ApartUncovered(l, b, live[b]);
      }
      UncoveredApart(l', b, live'[b]);
    }
  }

  /** free's step: a live block becomes free. */
  lemma GivePartition(heap: set<nat>, l: seq<Region>, live: map<nat, nat>, a: nat)
    requires Canonical(l) && Partition(heap, l, live) && a in live
    ensures Canonical(Released(l, a, live[a])) && Partition(heap, Released(l, a, live[a]), live - {a})
  {
    var n := live[a];
    var l', live' := Released(l, a, n), live - {a};
    ReleasedMeans(l, a, n);
    hide Released, Canonical, Covers, Apart, LiveAt;
    forall u: nat
      ensures u in heap <==> Covers(l', u) || LiveAt(live', u)
    {
      LiveWithout(live, a, u);
      assert Within(a, n, u) <==> a <= u < a + n;
    }
    forall b | b in live'
      ensures Apart(l', b, live'[b])
    {
      ApartUncovered(l, b, live[b]);
      forall u: nat | Within(b, live[b], u)
        ensures !Covers(l', u)
      {
        assert !Within(a, n, u);
      }
      UncoveredApart(l', b, live[b]);
    }
  }

  /** morecore's step: new units come in as a live block. */
  lemma GrowPartition(heap: set<nat>, l: seq<Region>, live: map<nat, nat>, a: nat, n: nat)
    requires Canonical(l) && Partition(heap, l, live) && n > 0 && forall u :: u in heap ==> u < a
    ensures a !in live && Partition(heap + Units(a, n), l, live[a := n])
  {
    var heap', live' := heap + Units(a, n), live[a := n];
    forall b | b in live
      ensures b + live[b] <= a
    {
      assert LiveAt(live, b + live[b] - 1);
    }
    hide Canonical, Covers, Apart, LiveAt;
    forall u: nat
      ensures u in heap' <==> Covers(l, u) || LiveAt(live', u)
    {
      LiveWith(live, a, n, u);
    }
    assert Apart(l, a, n) by {
      forall u: nat | Within(a, n, u)
        ensures !Covers(l, u)
      {
        assert u !in heap;
      }
      UncoveredApart(l, a, n);
    }
  }
}
