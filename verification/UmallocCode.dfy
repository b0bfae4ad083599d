/** malloc, free and morecore on the headers in memory. */
module UmallocCode {
  import opened Collections
  import opened FreeRegions
  import opened Umalloc

  /** What sbrk answers: a failure, or the first header of the new units. */
  datatype Grant = Denied | At(first: nat)

  ghost predicate SizedIn(mem: map<nat, Header>, heap: set<nat>, live: map<nat, nat>, top: nat) {
    && BASE + 1 < top && BASE in mem
    && (forall u :: u in heap ==> BASE + 1 < u < top && u in mem)
    && (forall a :: a in live ==> a in heap && mem[a].size == live[a])
  }

  /** The order of the ring around a block that is not in it. */
  ghost predicate Around(ids: seq<nat>, j: nat, bp: nat) {
    && j < |ids|
    && (forall k :: 0 <= k <= j ==> ids[k] < bp)
    && (forall k :: j < k < |ids| ==> bp < ids[k])
    && (forall i, k :: 0 <= i < k < |ids| ==> ids[i] < ids[k])
  }

  lemma AroundPlace(mem: map<nat, Header>, ids: seq<nat>, bp: nat, n: nat)
    requires Ring(mem, ids) && Canonical(RegionsOf(mem, ids)) && Above(RegionsOf(mem, ids))
    requires n > 0 && bp > BASE && Apart(RegionsOf(mem, ids), bp, n)
    ensures Around(ids, Place(RegionsOf(mem, ids), bp), bp) && bp !in ids
  {
    var l := RegionsOf(mem, ids);
    var j := Place(l, bp);
    PlaceSplits(l, bp);
    forall k | 0 <= k < |ids|
      ensures if k <= j then ids[k] < bp else bp < ids[k]
    {
      if k > 0 {
        assert l[k - 1].begin == ids[k] && l[k - 1].count > 0;
      }
    }
    forall i, k | 0 <= i < k < |ids|
      ensures ids[i] < ids[k]
    {
      RingIncreases(mem, ids, i, k);
    }
  }

  /** The sizes free reads tell whether the block touches its neighbours. */
  lemma Neighbours(mem: map<nat, Header>, ids: seq<nat>, j: nat, bp: nat, n: nat)
    requires Ring(mem, ids) && Around(ids, j, bp) && BASE + 1 < bp
    ensures var l, p := RegionsOf(mem, ids), ids[j];
            && (bp + n == mem[p].ptr <==> j < |l| && bp + n == l[j].begin)
            && (p + mem[p].size == bp <==> j > 0 && l[j - 1].End() == bp)
  {
    assert NextAt(mem, ids, j);
    assert ids[0] < bp;
  }

  lemma FreeIdsKeep(ids: seq<nat>, j: nat, bp: nat, up: bool, down: bool)
    requires j < |ids| && (up ==> j + 1 < |ids|)
    ensures ids[j] in FreeIds(ids, j, bp, up, down)
  {
    assert FreeIds(ids, j, bp, up, down)[j] == ids[j];
  }

  /** The two assignments of free, one after the other. */
  lemma FreeMemIs(mem: map<nat, Header>, p: nat, bp: nat)
    requires p in mem && bp in mem && p != bp && mem[p].ptr in mem
    ensures var up, down := bp + mem[bp].size == mem[p].ptr, p + mem[p].size == bp;
            var q := mem[p].ptr;
            var m1 := if up then mem[bp := Header(mem[q].ptr,
                                                  mem[bp].size + mem[q].size)] else mem[bp := mem[bp].(ptr := q)];
            var m2 := if p + m1[p].size == bp then m1[p := Header(m1[bp].ptr, m1[p].size + m1[bp].size)]
                      else m1[p := m1[p].(ptr := bp)];
            && m2 == FreeMem(mem, p, bp, up, down) && m1[p] == mem[p]
            && m2.Keys == mem.Keys && forall a :: a in mem && a != p && a != bp ==> m2[a] == mem[a]
  {
  }

  /** Free blocks lie where the heap lies. */
  lemma AbovePartition(heap: set<nat>, l: seq<Region>, live: map<nat, nat>)
    requires Canonical(l) && Partition(heap, l, live) && forall u :: u in heap ==> u > BASE
    ensures Above(l)
  {
    forall k | 0 <= k < |l|
      ensures l[k].begin > BASE
    {
      assert l[k].Has(l[k].begin) && Covers(l, l[k].begin);
    }
  }

  lemma LiveUnit(heap: set<nat>, l: seq<Region>, live: map<nat, nat>, a: nat)
    requires Partition(heap, l, live) && a in live
    ensures a in heap && live[a] > 0 && Apart(l, a, live[a])
  {
    assert LiveAt(live, a);
  }

  /** Headers of live blocks are not in the ring. */
  lemma LiveOutside(mem: map<nat, Header>, ids: seq<nat>, heap: set<nat>, live: map<nat, nat>)
    requires Ring(mem, ids) && Canonical(RegionsOf(mem, ids)) && Above(RegionsOf(mem, ids))
    requires Partition(heap, RegionsOf(mem, ids), live) && forall u :: u in heap ==> u > BASE
    ensures forall a :: a in live ==> a !in ids
  {
    forall a | a in live
      ensures a !in ids
    {
      LiveUnit(heap, RegionsOf(mem, ids), live, a);
      AroundPlace(mem, ids, a, live[a]);
    }
  }

  lemma FreePlace(mem: map<nat, Header>, ids: seq<nat>, heap: set<nat>, live: map<nat, nat>, bp: nat)
    requires Ring(mem, ids) && Canonical(RegionsOf(mem, ids)) && Above(RegionsOf(mem, ids))
    requires Partition(heap, RegionsOf(mem, ids), live) && (forall u :: u in heap ==> u > BASE) && bp in live
    ensures Around(ids, Place(RegionsOf(mem, ids), bp), bp)
  {
    LiveUnit(heap, RegionsOf(mem, ids), live, bp);
    AroundPlace(mem, ids, bp, live[bp]);
  }

  /** The memory after free is a ring of the released list, and live headers are untouched. */
  lemma FreeResult(mem: map<nat, Header>, ids: seq<nat>, heap: set<nat>, live: map<nat, nat>, bp: nat, j: nat)
    requires Ring(mem, ids) && Canonical(RegionsOf(mem, ids)) && Above(RegionsOf(mem, ids))
    requires Partition(heap, RegionsOf(mem, ids), live) && (forall u :: u in heap ==> u > BASE + 1)
    requires bp in live && bp in mem && mem[bp].size == live[bp] && j == Place(RegionsOf(mem, ids), bp)
    ensures j < |ids| && ids[j] != bp && mem[ids[j]].ptr in mem
    ensures var l, p := RegionsOf(mem, ids), ids[j];
            var up, down := bp + mem[bp].size == mem[p].ptr, p + mem[p].size == bp;
            && (up ==> j + 1 < |ids|)
            && var mem', ids' := FreeMem(mem, p, bp, up, down), FreeIds(ids, j, bp, up, down);
            && Ring(mem', ids') && p in ids' && RegionsOf(mem', ids') == Released(l, bp, live[bp])
            && Canonical(RegionsOf(mem', ids')) && Above(RegionsOf(mem', ids'))
            && Partition(heap, RegionsOf(mem', ids'), live - {bp})
            && mem'.Keys == mem.Keys && forall a :: a in live - {bp} && a in mem ==> mem'[a] == mem[a]
  {
    hide Canonical, Above, Partition, Distinct, RegionsOf, FreeMem, FreeIds, Merged, Apart, Place, Released, NextAt;
    var l, n := RegionsOf(mem, ids), live[bp];
    LiveUnit(heap, l, live, bp);
    LiveOutside(mem, ids, heap, live);
    AroundPlace(mem, ids, bp, n);
    RingDistinct(mem, ids);
    hide Around;
    var p := ids[j];
    Neighbours(mem, ids, j, bp, n);
    var up, down := bp + n == mem[p].ptr, p + mem[p].size == bp;
    FreeRing(mem, ids, j, bp, up, down);
    FreeRegionsAre(mem, ids, j, bp, up, down);
    ReleasedForm(l, j, bp, n);
    GivePartition(heap, l, live, bp);
    FreeIdsKeep(ids, j, bp, up, down);
    FreeMemIs(mem, p, bp);
    AbovePartition(heap, Released(l, bp, n), live - {bp});
  }

  /** Position t lies strictly between s and i on the way round the ring. */
  ghost predicate Passed(s: nat, i: nat, t: nat) {
    if s < i then s < t < i else t > s || t < i
  }

  /** The units of a block: its header, and as many more as hold nbytes, no unit too many. */
  function UnitsFor(nbytes: nat): (r: nat)
    ensures r > 0 && nbytes <= (r - 1) * HEADER < nbytes + HEADER
  {
    (nbytes + HEADER - 1) / HEADER + 1
  }

  /** A free block of at least n units. */
  ghost predicate Fits(l: seq<Region>, n: nat) {
    exists k :: 0 <= k < |l| && l[k].count >= n
  }

  /** The two ways malloc takes n units off the end of block k. */
  function TakeMem(mem: map<nat, Header>, prevp: nat, p: nat, n: nat): (r: map<nat, Header>)
    requires prevp in mem && p in mem && mem[p].size >= n && p + mem[p].size - n in mem
  {
    if mem[p].size == n then mem[prevp := mem[prevp].(ptr := mem[p].ptr)]
    else
      var a := p + mem[p].size - n;
      mem[p := mem[p].(size := mem[p].size - n)][a := mem[a].(size := n)]
  }

  function TakeIds(mem: map<nat, Header>, ids: seq<nat>, k: nat, n: nat): (r: seq<nat>)
    requires k < |ids| && ids[k] in mem
  {
    if mem[ids[k]].size == n then ids[..k] + ids[k + 1..] else ids
  }

  lemma InsideFree(mem: map<nat, Header>, ids: seq<nat>, heap: set<nat>, live: map<nat, nat>, k: nat, u: nat)
    requires Ring(mem, ids) && Partition(heap, RegionsOf(mem, ids), live) && 0 < k < |ids|
    requires ids[k] <= u < ids[k] + mem[ids[k]].size
    ensures u in heap
  {
    var l := RegionsOf(mem, ids);
    assert l[k - 1].Has(u) && Covers(l, u);
  }

  lemma TailOutside(mem: map<nat, Header>, ids: seq<nat>, k: nat, a: nat)
    requires Ring(mem, ids) && Canonical(RegionsOf(mem, ids)) && Above(RegionsOf(mem, ids)) && 0 < k < |ids|
    requires ids[k] < a < ids[k] + mem[ids[k]].size
    ensures a !in ids
  {
    forall i | 0 <= i < |ids|
      ensures ids[i] != a
    {
      if i < k {
        RingIncreases(mem, ids, i, k);
      } else if i > k {
        RingIncreases(mem, ids, k, i);
      }
    }
  }

  /** The cycle ids threads exactly the free blocks l. */
  ghost predicate RingOf(mem: map<nat, Header>, ids: seq<nat>, l: seq<Region>) {
    Ring(mem, ids) && RegionsOf(mem, ids) == l
  }

  lemma TakeRing(mem: map<nat, Header>, ids: seq<nat>, l: seq<Region>, k: nat, n: nat)
    requires RingOf(mem, ids, l) && Canonical(l) && Above(l)
    requires 0 < k < |ids| && 0 < n <= mem[ids[k]].size && ids[k] + mem[ids[k]].size - n in mem
    ensures var a := ids[k] + mem[ids[k]].size - n;
            && RingOf(TakeMem(mem, ids[k - 1], ids[k], n), TakeIds(mem, ids, k, n), Mapped(l, a, n))
            && exists i :: 0 <= i < |l| && l[i].Holds(a, n)
  {
    hide Canonical, Above, Mapped, NextAt, RegionsOf, Distinct;
    var p := ids[k];
    var a := p + mem[p].size - n;
    RingDistinct(mem, ids);
    RegionHere(mem, ids, k);
    TakenForm(l, k - 1, n);
    if mem[p].size == n {
      UnlinkRing(mem, ids, k);
    } else {
      TailOutside(mem, ids, k, a);
      ShrinkRing(mem, ids, k, mem[p].size - n, a, mem[a].(size := n));
    }
  }

  lemma RegionHere(mem: map<nat, Header>, ids: seq<nat>, k: nat)
    requires InMem(mem, ids) && 0 < k < |ids|
    ensures RegionsOf(mem, ids)[k - 1] == Region(ids[k], mem[ids[k]].size)
  {
  }

  /** Taking a block touches no header of a live one. */
  lemma TakeFrame(mem: map<nat, Header>, ids: seq<nat>, live: map<nat, nat>, k: nat, n: nat)
    requires InMem(mem, ids) && 0 < k < |ids| && 0 < n <= mem[ids[k]].size
    requires (forall b :: b in live ==> b !in ids)
    requires var a := ids[k] + mem[ids[k]].size - n; a in mem && a !in live
    ensures var a := ids[k] + mem[ids[k]].size - n;
            var mem', ids' := TakeMem(mem, ids[k - 1], ids[k], n), TakeIds(mem, ids, k, n);
            && mem'.Keys == mem.Keys && (ids[k - 1] != a ==> mem'[a].size == n)
            && (forall b :: b in live && b in mem ==> mem'[b] == mem[b])
            && ids[k - 1] in ids'
  {
    assert TakeIds(mem, ids, k, n)[k - 1] == ids[k - 1];
  }

  /** Memory mem' and the cycle ids' are sound after block a of n units has gone from the free blocks l. */
  ghost predicate TakeLeaves(mem: map<nat, Header>, l: seq<Region>, live: map<nat, nat>, mem': map<nat, Header>,
                             ids': seq<nat>, a: nat, n: nat)
  {
    && a in mem && mem'.Keys == mem.Keys && mem'[a].size == n
    && (forall b :: b in live && b in mem ==> mem'[b] == mem[b])
    && RingOf(mem', ids', Mapped(l, a, n))
  }

  /** The memory after malloc takes its block. */
  lemma TakeResult(mem: map<nat, Header>, ids: seq<nat>, l: seq<Region>, heap: set<nat>, live: map<nat, nat>, k: nat,
                   n: nat, a: nat)
    requires RingOf(mem, ids, l) && Canonical(l) && Above(l)
    requires Partition(heap, l, live) && (forall u :: u in heap ==> u > BASE + 1 && u in mem)
    requires 0 < k < |ids| && 0 < n <= mem[ids[k]].size && a == ids[k] + mem[ids[k]].size - n
    ensures a in heap && a !in live && a in mem && ids[k - 1] in TakeIds(mem, ids, k, n)
    ensures TakeLeaves(mem, l, live, TakeMem(mem, ids[k - 1], ids[k], n), TakeIds(mem, ids, k, n), a, n)
    ensures Canonical(Mapped(l, a, n)) && Above(Mapped(l, a, n)) && Partition(heap, Mapped(l, a, n), live[a := n])
  {
    hide Canonical, Above, Partition, RegionsOf, Mapped, NextAt, TakeMem, TakeIds;
    InsideFree(mem, ids, heap, live, k, a);
    TakeRing(mem, ids, l, k, n);
    LiveOutside(mem, ids, heap, live);
    TakePartition(heap, l, live, a, n);
    AbovePartition(heap, Mapped(l, a, n), live[a := n]);
    RingIncreases(mem, ids, k - 1, k);
    TakeFrame(mem, ids, live, k, n);
  }

  /** Memory with n new units at hp, under one header. */
  function Grown(mem: map<nat, Header>, hp: nat, n: nat): (r: map<nat, Header>)
    ensures forall u :: u in r <==> u in mem || u in Units(hp, n) || u == hp
    ensures hp in r && r[hp].size == n && forall u :: u in mem && u !in Units(hp, n) && u != hp ==> r[u] == mem[u]
  {
    var more := mem + map u | u in Units(hp, n) :: Header(NULL, 0);
    more[hp := Header(NULL, n)]
  }

  lemma GrowSized(mem: map<nat, Header>, heap: set<nat>, live: map<nat, nat>, top: nat, hp: nat, n: nat)
    requires SizedIn(mem, heap, live, top) && hp >= top && n > 0
    ensures SizedIn(Grown(mem, hp, n), heap + Units(hp, n), live[hp := n], hp + n)
  {
    hide Grown;
    assert hp in Units(hp, n);
  }

  lemma GrowRing(mem: map<nat, Header>, ids: seq<nat>, heap: set<nat>, live: map<nat, nat>, hp: nat, n: nat)
    requires Ring(mem, ids) && Canonical(RegionsOf(mem, ids)) && hp > BASE
    requires Partition(heap, RegionsOf(mem, ids), live) && forall u :: u in heap ==> u < hp
    ensures Ring(Grown(mem, hp, n), ids) && RegionsOf(Grown(mem, hp, n), ids) == RegionsOf(mem, ids)
  {
    hide Grown, Canonical, Partition;
    var l := RegionsOf(mem, ids);
    forall k | 0 <= k < |ids|
      ensures ids[k] < hp
    {
      if k > 0 {
        InsideHeap(heap, l, live, k - 1);
        assert l[k - 1].begin == ids[k];
      }
    }
    SameRing(mem, Grown(mem, hp, n), ids);
  }

  lemma InsideHeap(heap: set<nat>, l: seq<Region>, live: map<nat, nat>, k: nat)
    requires Canonical(l) && Partition(heap, l, live) && k < |l|
    ensures l[k].begin in heap
  {
    assert l[k].Has(l[k].begin) && Covers(l, l[k].begin);
  }

  lemma SameRing(mem: map<nat, Header>, mem': map<nat, Header>, ids: seq<nat>)
    requires Ring(mem, ids) && forall k :: 0 <= k < |ids| ==> ids[k] in mem' && mem'[ids[k]] == mem[ids[k]]
    ensures Ring(mem', ids) && RegionsOf(mem', ids) == RegionsOf(mem, ids)
  {
    forall k | 0 <= k < |ids|
      ensures NextAt(mem', ids, k)
    {
      assert NextAt(mem, ids, k);
    }
  }

  /** A released block can serve any request up to its size. */
  lemma FitsReleased(l: seq<Region>, b: nat, n: nat, nu: nat)
    requires Canonical(l) && n > 0 && Apart(l, b, n) && nu <= n
    ensures Fits(Released(l, b, n), nu)
  {
    var r := Released(l, b, n);
    ReleasedMeans(l, b, n);
    hide Released, Canonical, Covers, Apart;
    CoveredHeld(r, b, n, n);
    var k :| 0 <= k < |r| && r[k].Holds(b, n);
    assert r[k].count >= nu;
  }

  function Request(n: nat): (r: nat) {
    if n < CHUNK then CHUNK else n
  }

  /** The free blocks after malloc, in terms of those before. */
  ghost function Left(l: seq<Region>, n: nat, os: Grant, calls: nat, r: nat): (l': seq<Region>)
    requires os.At? || calls == 0 || r == NULL
  {
    if r == NULL then l
    else if calls == 0 then Mapped(l, r - 1, n)
    else Mapped(Released(l, os.first, Request(n)), r - 1, n)
  }

  lemma EmptyRing(mem: map<nat, Header>)
    requires BASE in mem && mem[BASE] == Header(BASE, 0)
    ensures Ring(mem, [BASE]) && RegionsOf(mem, [BASE]) == [] && Canonical([]) && Above([]) && Partition({}, [], map[])
  {
    assert NextAt(mem, [BASE], 0);
  }

  lemma FitsRing(mem: map<nat, Header>, ids: seq<nat>, n: nat)
    requires Ring(mem, ids)
    ensures Fits(RegionsOf(mem, ids), n) <==> exists t :: 0 < t < |ids| && mem[ids[t]].size >= n
  {
    var l := RegionsOf(mem, ids);
    if t :| 0 < t < |ids| && mem[ids[t]].size >= n {
      assert l[t - 1].count >= n;
    }
    if k :| 0 <= k < |l| && l[k].count >= n {
      assert mem[ids[k + 1]].size >= n;
    }
  }

  /** A unit inside a live block is no header that matters. */
  lemma BodyOutside(mem: map<nat, Header>, ids: seq<nat>, heap: set<nat>, live: map<nat, nat>, b: nat, u: nat)
    requires Ring(mem, ids) && Canonical(RegionsOf(mem, ids)) && Above(RegionsOf(mem, ids))
    requires Partition(heap, RegionsOf(mem, ids), live) && (forall x :: x in heap ==> x > BASE)
    requires b in live && b < u < b + live[b]
    ensures u !in ids && u !in live && u in heap
  {
    var l := RegionsOf(mem, ids);
    LiveUnit(heap, l, live, b);
    assert LiveAt(live, u);
    AroundPlace(mem, ids, u, b + live[b] - u);
  }

  class Heap {
    var mem: map<nat, Header>
    var freep: nat
    /** The ring in address order, the live blocks, the units obtained from sbrk, the break. */
    ghost var ids: seq<nat>
    ghost var live: map<nat, nat>
    ghost var heap: set<nat>
    ghost var top: nat

    ghost function Regions(): (l: seq<Region>)
      reads this
      requires |ids| > 0 && InMem(mem, ids)
    {
      RegionsOf(mem, ids)
    }

    /** Every unit is in memory between base and the break, and live headers hold their sizes. */
    ghost predicate Sized()
      reads this
    {
      SizedIn(mem, heap, live, top)
    }

    ghost predicate Ready()
      reads this
    {
      && Ring(mem, ids) && Canonical(Regions()) && Above(Regions()) && freep in ids
      && Partition(heap, Regions(), live) && Sized()
    }

    /** Before the first malloc there is no list; ever after there is one. */
    ghost predicate Valid()
      reads this
    {
      if freep == NULL then heap == {} && live == map[] && Sized() else Ready()
    }

    /** free's search for the place of bp, round the ring from freep. */
    method FindPlace(bp: nat, ghost j: nat) returns (p: nat)
      requires Ring(mem, ids) && freep in ids && Around(ids, j, bp)
      ensures p == ids[j]
    {
      ghost var i :| 0 <= i < |ids| && ids[i] == freep;
      p := freep;
      assert NextAt(mem, ids, i);
      while !(bp > p && bp < mem[p].ptr)
        invariant 0 <= i < |ids| && p == ids[i] && NextAt(mem, ids, i)
        decreases if i <= j then j - i else |ids| - i + j
      {
        if p >= mem[p].ptr && (bp > p || bp < mem[p].ptr) {
          break;
        }
        assert i != j;
        p, i := mem[p].ptr, if i + 1 < |ids| then i + 1 else 0;
        assert NextAt(mem, ids, i);
      }
    }
  
    /** The header writes of free: bp goes after p, joined on both sides where it touches. */
    method Join(p: nat, bp: nat)
      requires p in mem && bp in mem && p != bp && mem[p].ptr in mem
      modifies this`mem
      ensures mem == FreeMem(old(mem), p, bp, bp + old(mem)[bp].size == old(mem)[p].ptr, p + old(mem)[p].size == bp)
    {
      FreeMemIs(mem, p, bp);
      hide FreeMem;
      if bp + mem[bp].size == mem[p].ptr {
        var q := mem[p].ptr;
        mem := mem[bp := Header(mem[q].ptr, mem[bp].size + mem[q].size)];
      } else {
        mem := mem[bp := mem[bp].(ptr := mem[p].ptr)];
      }
      if p + mem[p].size == bp {
        mem := mem[p := Header(mem[bp].ptr, mem[p].size + mem[bp].size)];
      } else {
        mem := mem[p := mem[p].(ptr := bp)];
      }
    }

    /** free: the block goes back in address order and joins the free blocks it touches. */
    method Free(bp: nat)
      requires Ready() && bp in live
      modifies this`mem, this`freep, this`ids, this`live
      ensures Ready() && live == old(live) - {bp}
      ensures Regions() == Released(old(Regions()), bp, old(live)[bp])
    {
      hide Canonical, Above, Partition, Distinct, Around, RegionsOf, FreeMem, FreeIds, Apart, Place, Released, NextAt;
      ghost var l, n := Regions(), live[bp];
      ghost var j := Place(l, bp);
      FreePlace(mem, ids, heap, live, bp);
      var p := FindPlace(bp, j);
      ghost var up, down := bp + n == mem[p].ptr, p + mem[p].size == bp;
      FreeResult(mem, ids, heap, live, bp, j);
      Join(p, bp);
      freep := p;
      ids := FreeIds(ids, j, bp, up, down);
      live := live - {bp};
    }
  
    /** malloc's walk round the ring: from the block after freep up to freep itself. */
    method Scan(n: nat) returns (found: bool, prevp: nat, p: nat, ghost k: nat, ghost s: nat)
      requires Ring(mem, ids) && Distinct(ids) && freep in ids && n > 0
      ensures found <==> exists t :: 0 < t < |ids| && mem[ids[t]].size >= n
      ensures found ==> 0 < k < |ids| && p == ids[k] && prevp == ids[k - 1] && mem[p].size >= n
      ensures s < |ids| && freep == ids[s]
      ensures found ==> forall t :: 0 <= t < |ids| && Passed(s, k, t) ==> mem[ids[t]].size < n
    {
      s :| 0 <= s < |ids| && ids[s] == freep;
      assert NextAt(mem, ids, s);
      prevp, p, k := freep, mem[freep].ptr, if s + 1 < |ids| then s + 1 else 0;
      while true
        invariant k < |ids| && p == ids[k] && prevp == ids[if k == 0 then |ids| - 1 else k - 1]
        invariant forall t :: 0 <= t < |ids| && Passed(s, k, t) ==> mem[ids[t]].size < n
        decreases if k <= s then s - k else |ids| - k + s
      {
        assert NextAt(mem, ids, k);
        if mem[p].size >= n {
          return true, prevp, p, k, s;
        }
        if p == freep {
          forall t | 0 <= t < |ids|
            ensures mem[ids[t]].size < n
          {
            assert k == s && (t == s || Passed(s, k, t));
          }
          return false, prevp, p, k, s;
        }
        prevp, p, k := p, mem[p].ptr, if k + 1 < |ids| then k + 1 else 0;
      }
    }
  
    /** Take n units off the end of block k. */
    method Take(prevp: nat, p: nat, n: nat, ghost k: nat) returns (a: nat)
      requires Ready() && 0 < k < |ids| && p == ids[k] && prevp == ids[k - 1] && 0 < n <= mem[p].size
      modifies this`mem, this`freep, this`ids, this`live
      ensures Ready() && freep == prevp && a == p + old(mem)[p].size - n && a !in old(live) && live == old(live)[a := n]
      ensures Regions() == Mapped(old(Regions()), a, n)
    {
      hide Canonical, Above, Partition, RegionsOf, Mapped, NextAt;
      TakeResult(mem, ids, Regions(), heap, live, k, n, p + mem[p].size - n);
      ghost var mem0 := mem;
      if mem[p].size == n {
        a := p;
        mem := mem[prevp := mem[prevp].(ptr := mem[p].ptr)];
      } else {
        mem := mem[p := mem[p].(size := mem[p].size - n)];
        a := p + mem[p].size;
        mem := mem[a := mem[a].(size := n)];
      }
      assert mem == TakeMem(mem0, prevp, p, n);
      freep := prevp;
      ids := TakeIds(mem0, ids, k, n);
      live := live[a := n];
    }

    /** sbrk's new units, with one header over all of them. */
    method Grow(hp: nat, n: nat)
      requires Ready() && n > 0 && hp >= top
      modifies this`mem, this`heap, this`live, this`top
      ensures Ready() && heap == old(heap) + Units(hp, n) && hp !in old(live) && live == old(live)[hp := n]
      ensures Regions() == old(Regions()) && Apart(Regions(), hp, n)
    {
      hide Canonical, Above, Partition, NextAt, RegionsOf, Apart, Grown;
      GrowPartition(heap, Regions(), live, hp, n);
      LiveUnit(heap + Units(hp, n), Regions(), live[hp := n], hp);
      GrowRing(mem, ids, heap, live, hp, n);
      GrowSized(mem, heap, live, top, hp, n);
      mem := Grown(mem, hp, n);
      heap, top, live := heap + Units(hp, n), hp + n, live[hp := n];
    }

    /** morecore: at least 4096 new units, handed to free. */
    method Morecore(nu: nat, os: Grant) returns (ok: bool)
      requires Ready() && 0 < nu <= MAXUNITS && (os.At? ==> os.first >= top)
      modifies this
      ensures Ready() && live == old(live) && (ok <==> os.At?)
      ensures !ok ==> Regions() == old(Regions()) && heap == old(heap)
      ensures ok ==> var n := if nu < CHUNK then CHUNK else nu;
                     && heap == old(heap) + Units(os.first, n)
                     && Regions() == Released(old(Regions()), os.first, n) && Fits(Regions(), nu)
    {
      hide Canonical, Above, Partition, NextAt, RegionsOf, Released, Apart, Fits, Units, SizedIn;
      var n := if nu < CHUNK then CHUNK else nu;
      if os.Denied? {
        return false;
      }
      ghost var l := Regions();
      Grow(os.first, n);
      Free(os.first);
      FitsReleased(l, os.first, n, nu);
      return true;
    }
  
    /** A process before its first malloc, with its heap starting at top. */
    constructor (top: nat)
      requires top > BASE + 1
      ensures Valid() && freep == NULL && this.top == top
    {
      mem, freep := map[BASE := Header(NULL, 0)], NULL;
      ids, live, heap, this.top := [], map[], {}, top;
    }

    /** malloc's first call makes base the only header of the list. */
    method Begin()
      requires Valid() && freep == NULL
      modifies this`mem, this`freep, this`ids
      ensures Ready() && Regions() == []
    {
      mem := mem[BASE := Header(BASE, 0)];
      freep := BASE;
      ids := [BASE];
      EmptyRing(mem);
    }

    /** malloc: some block of the units asked for, and their header, turns live. It fails exactly
        when no free block fits and sbrk fails, and it asks sbrk at most once. */
    method Malloc(nbytes: nat, os: Grant) returns (r: nat, ghost calls: nat, ghost n: nat)
      requires Valid() && nbytes <= (MAXUNITS - 1) * HEADER && (os.At? ==> os.first >= top)
      modifies this
      ensures Ready() && calls <= 1 && n > 0 && nbytes <= (n - 1) * HEADER < nbytes + HEADER
      ensures calls == 1 <==> !Fits(if old(freep) == NULL then [] else old(Regions()), n)
      ensures r == NULL <==> calls == 1 && os.Denied?
      ensures r == NULL ==> live == old(live) && heap == old(heap)
      ensures r != NULL ==> r - 1 !in old(live) && live == old(live)[r - 1 := n]
      ensures r != NULL ==> nbytes <= (live[r - 1] - 1) * HEADER < nbytes + HEADER
      ensures r != NULL ==>
                heap == if calls == 0 then old(heap) else old(heap) + Units(os.first, if n < CHUNK then CHUNK else n)
      ensures Regions() == Left(if old(freep) == NULL then [] else old(Regions()), n, os, calls, r)
    {
      hide Canonical, Above, Partition, NextAt, RegionsOf, Released, Fits, Units, SizedIn, Mapped, Distinct, UnitsFor;
      var nunits := UnitsFor(nbytes);
      n, calls := nunits, 0;
      if freep == NULL {
        Begin();
      }
      ghost var l := Regions();
      while true
        invariant Ready() && calls <= 1 && live == old(live) && (os.At? && calls == 0 ==> os.first >= top)
        invariant calls == 0 ==> Regions() == l && heap == old(heap)
        invariant calls == 1 ==> !Fits(l, n) && os.At? && Fits(Regions(), n)
        invariant calls == 1 ==>
                  Regions() == Released(l, os.first, Request(n)) && heap == old(heap) + Units(os.first, Request(n))
        decreases 1 - calls
      {
        RingDistinct(mem, ids);
        var found, prevp, p;
        ghost var k, s;
        found, prevp, p, k, s := Scan(nunits);
        FitsRing(mem, ids, n);
        if found {
          var a := Take(prevp, p, nunits, k);
          return a + 1, calls, n;
        }
        calls := 1;
        var ok := Morecore(nunits, os);
        if !ok {
          return NULL, calls, n;
        }
      }
    }

    /** A program's own writes inside a live block disturb nothing. */
    method UserWrite(b: nat, u: nat, h: Header)
      requires Ready() && b in live && b < u < b + live[b]
      modifies this`mem
      ensures Ready() && Regions() == old(Regions()) && mem == old(mem)[u := h]
    {
      hide Canonical, Above, NextAt, RegionsOf;
      BodyOutside(mem, ids, heap, live, b, u);
      OtherRing(mem, ids, u, h);
      mem := mem[u := h];
    }
  }
}
