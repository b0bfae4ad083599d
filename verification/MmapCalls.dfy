/** sys_mmap and sys_munmap: the free list together with the pages that are mapped. */
module MmapCalls {
  import opened FreeRegions
  import opened MmapList

  /** The pages below VA_MAX. */
  const VA_PAGES := 0x400_0000

  /** The pages of a range. */
  function Pages(b: nat, n: nat): (r: set<nat>)
    ensures forall pg :: pg in r <==> Within(b, n, pg)
  {
    if n == 0 then {} else Pages(b, n - 1) + {b + n - 1}
  }

  ghost predicate Held(l: seq<Region>, b: nat, n: nat) {
    exists k :: 0 <= k < |l| && l[k].Holds(b, n)
  }

  /** The free list is in order, and nothing on it is mapped. */
  ghost predicate Sound(l: seq<Region>, mapped: set<nat>) {
    Canonical(l) && forall pg: nat :: Covers(l, pg) ==> pg !in mapped
  }

  /** Regions that are not apart from a range share a page with it. */
  lemma Overlap(l: seq<Region>, b: nat, n: nat)
    requires Canonical(l) && n > 0
    ensures Apart(l, b, n) <==> forall pg: nat :: Covers(l, pg) ==> !Within(b, n, pg)
  {
    if forall pg: nat :: Covers(l, pg) ==> !Within(b, n, pg) {
      forall k | 0 <= k < |l|
        ensures l[k].End() <= b || b + n <= l[k].begin
      {
        var pg := if l[k].begin < b then b else l[k].begin;
        assert l[k].Has(l[k].begin) && l[k].count > 0;
        assert Covers(l, pg) <== l[k].Has(pg);
      }
    }
  }

  /** Mapping a range keeps the list sound exactly when one region holds it all or none has any of it. */
  lemma MmapSoundIff(l: seq<Region>, mapped: set<nat>, b: nat, n: nat)
    requires Sound(l, mapped) && n > 0
    ensures Sound(Mapped(l, b, n), mapped + Pages(b, n)) <==> Held(l, b, n) || Apart(l, b, n)
  {
    hide Canonical, Covers, Mapped, Apart, Region.Holds;
    MappedMeans(l, b, n);
    Overlap(l, b, n);
  }

  /** Releasing mapped pages is always sound: they were on no list. */
  lemma MunmapSound(l: seq<Region>, mapped: set<nat>, b: nat, n: nat)
    requires Sound(l, mapped) && n > 0 && Pages(b, n) <= mapped
    ensures Apart(l, b, n) && Sound(Released(l, b, n), mapped - Pages(b, n))
    ensures forall pg: nat :: Covers(Released(l, b, n), pg) || pg in mapped - Pages(b, n) <==>
              Covers(l, pg) || pg in mapped
  {
    hide Canonical, Covers, Released, Apart;
    Overlap(l, b, n);
    ReleasedMeans(l, b, n);
  }

  /** The first region of at least n pages. */
  function FirstFit(l: seq<Region>, k: nat, n: nat): (r: nat)
    requires k <= |l|
    ensures k <= r <= |l| && (r < |l| ==> l[r].count >= n) && forall j :: k <= j < r ==> l[j].count < n
    decreases |l| - k
  {
    if k == |l| || l[k].count >= n then k else FirstFit(l, k + 1, n)
  }

  /** Region k is the first, in address order, of at least n pages. */
  ghost predicate IsFirstFit(l: seq<Region>, n: nat, k: nat) {
    k < |l| && l[k].count >= n && forall j :: 0 <= j < k ==> l[j].count < n
  }

  /** No region has n pages, or the first that does begins at address 0. */
  ghost predicate NothingFits(l: seq<Region>, n: nat) {
    (forall k :: 0 <= k < |l| ==> l[k].count < n) || (exists k: nat :: IsFirstFit(l, n, k) && l[k].begin == 0)
  }

  /** r is the address of the first region of at least n pages. */
  ghost predicate IsFirstAddress(l: seq<Region>, n: nat, r: int) {
    exists k: nat :: IsFirstFit(l, n, k) && r == l[k].begin * PGSIZE
  }

  /** The address sys_mmap settles on; 0 if it finds none. */
  function Chosen(l: seq<Region>, start: nat, n: nat): (r: nat) {
    if start != 0 then start
    else
      var k := FirstFit(l, 0, n);
      if k < |l| then l[k].begin * PGSIZE else 0
  }

  /** A length both calls turn down. */
  predicate BadLength(len: nat)
    ensures !BadLength(len) <==> Page(len) * PGSIZE == len > 0
  {
    len == 0 || !OnPage(len)
  }

  /** A range the kernel chooses is held by the region it was chosen from. */
  lemma ChosenHeld(l: seq<Region>, n: nat)
    requires Chosen(l, 0, n) != 0
    ensures OnPage(Chosen(l, 0, n)) && Held(l, Page(Chosen(l, 0, n)), n)
  {
    var k := FirstFit(l, 0, n);
    PageOf(l[k].begin);
    assert l[k].Holds(l[k].begin, n);
  }

  /** With no address given it is the start of the first region of at least n pages. It is 0 exactly when
      there is no such region, or the first begins at 0. */
  lemma ChosenFirst(l: seq<Region>, n: nat)
    ensures Chosen(l, 0, n) == 0 <==> NothingFits(l, n)
    ensures Chosen(l, 0, n) != 0 ==> IsFirstAddress(l, n, Chosen(l, 0, n))
  {
    var k := FirstFit(l, 0, n);
    assert k < |l| ==> IsFirstFit(l, n, k);
    forall j: nat | IsFirstFit(l, n, j)
      ensures j == k
    {
    }
  }

  lemma PageOf(b: nat)
    ensures OnPage(b * PGSIZE) && Page(b * PGSIZE) == b
  {
  }

  /** A length in 32 bits has fewer than 2^20 pages: uvm_mmap and uvm_munmap never see more. */
  lemma PagesOf(len: nat)
    requires len < TWO32 && !BadLength(len)
    ensures 0 < Page(len) < MAXPAGES
  {
  }

  /** A process's free list and the pages its page table maps. */
  class Area {
    const regions: RegionList
    var mapped: set<nat>

    /** A new process: no free region, no page of the mapping area mapped. */
    constructor ()
      ensures fresh(regions) && regions.Valid() && regions.list == [] && |regions.free| == N_MMAP - 1 && mapped == {}
    {
      regions := new RegionList();
      mapped := {};
    }

    /** sys_mmap's search for a region that is large enough. */
    method Search(npages: nat) returns (start: nat)
      requires regions.Linked()
      ensures start == Chosen(regions.Regions(), 0, npages)
    {
      hide Pool, Disjoint, Page;
      start := 0;
      var curr := regions.head;
      ghost var k := 0;
      while curr != 0
        invariant start == 0 && k <= |regions.list| && curr == IdAt(regions.list, k)
        invariant FirstFit(regions.Regions(), 0, npages) == FirstFit(regions.Regions(), k, npages)
        decreases |regions.list| - k
      {
        SearchAt(regions.nodes, regions.head, regions.list, k);
        if regions.nodes[curr].npages >= npages {
          start := regions.nodes[curr].begin;
          return;
        }
        curr, k := regions.nodes[curr].next, k + 1;
      }
      SearchEnds(regions.nodes, regions.head, regions.list, k);
    }

    /** uvm_mmap's second half: each page of the range is mapped anew. `frames` is how many pages the
        allocator has to give. */
    method MapAll(b: nat, n: nat, frames: nat) returns (panicked: bool)
      modifies this`mapped
      ensures panicked <==> frames < n || (n > 0 && b + n > VA_PAGES)
      ensures !panicked ==> mapped == old(mapped) + Pages(b, n)
    {
      for i := 0 to n
        invariant i <= frames && (i > 0 ==> b + i <= VA_PAGES) && mapped == old(mapped) + Pages(b, i)
      {
        if i == frames || b + i >= VA_PAGES {
          return true;
        }
        mapped := mapped + {b + i};
      }
      panicked := false;
    }

    /** vm_unmappages: every page of the range must be mapped. */
    method UnmapAll(b: nat, n: nat) returns (panicked: bool)
      modifies this`mapped
      ensures panicked <==> !(Pages(b, n) <= old(mapped))
      ensures !panicked ==> mapped == old(mapped) - Pages(b, n)
    {
      for i := 0 to n
        invariant Pages(b, i) <= old(mapped) && mapped == old(mapped) - Pages(b, i)
      {
        if b + i !in mapped {
          assert b + i in Pages(b, n);
          return true;
        }
        mapped := mapped - {b + i};
      }
      panicked := false;
    }

    /** sys_mmap. A sound list stays sound exactly when the range was free as a whole within one region, or
        not at all; so it always does where the kernel chooses. */
    method SysMmap(start: nat, len: nat, frames: nat) returns (panicked: bool, r: int)
      requires regions.Linked() && Small(regions.Regions()) && len < TWO32
      modifies this, regions
      ensures var l, n := old(regions.Regions()), Page(len);
              var b := Page(Chosen(l, start, n));
              if BadLength(len) || !OnPage(start) || Chosen(l, start, n) == 0 then
                !panicked && r == -1 && regions.Linked() && regions.Regions() == l && mapped == old(mapped)
              else
                && (panicked <==> (old(regions.free) == [] && Splits(l, b, n)) || frames < n || b + n > VA_PAGES)
                && (!panicked ==> regions.Linked() && r == Chosen(l, start, n)
                                  && regions.Regions() == Mapped(l, b, n) && mapped == old(mapped) + Pages(b, n))
      ensures start == 0 && !BadLength(len) ==>
                var l, n := old(regions.Regions()), Page(len);
                && (!panicked && r == -1 <==> NothingFits(l, n)) && (!panicked && r != -1 ==> IsFirstAddress(l, n, r))
      ensures !panicked ==> regions.Linked() && Small(regions.Regions()) && regions.Bag() == old(regions.Bag())
      ensures !panicked && old(Sound(regions.Regions(), mapped)) ==>
                (Sound(regions.Regions(), mapped) <==>
                 var l, n := old(regions.Regions()), Page(len);
                 var b := Page(Chosen(l, start, n));
                 r == -1 || start == 0 || Held(l, b, n) || Apart(l, b, n))
    {
      hide Chain, Pool, Disjoint, Aligned, Small, RegionsOf, Page, OnPage, Mapped, Splits, Canonical, Chosen, Sound,
           Held, Apart, NothingFits, IsFirstAddress;
      ghost var l, mapped0 := regions.Regions(), mapped;
      panicked, r := false, -1;
      if BadLength(len) {
        return;
      }
      PagesOf(len);
      var npages, at := Page(len), start;
      if start == 0 {
        ZeroOnPage();
        ChosenFirst(l, npages);
        at := Search(npages);
        if at == 0 {
          return;
        }
        ChosenHeld(regions.Regions(), npages);
      } else {
        ChosenGiven(regions.Regions(), start, npages);
        if !OnPage(start) {
          return;
        }
      }
      panicked := regions.Mmap(at, npages);
      if panicked {
        return;
      }
      panicked := MapAll(Page(at), npages, frames);
      r := at;
      if Sound(l, mapped0) {
        MmapSoundIff(l, mapped0, Page(at), npages);
      }
    }

    /** sys_munmap. It stops the machine unless the whole range is mapped, and keeps a sound list sound. */
    method SysMunmap(start: nat, len: nat) returns (panicked: bool, r: int)
      requires regions.Linked() && Small(regions.Regions()) && len < TWO32
      modifies this, regions
      ensures var l, b, n := old(regions.Regions()), Page(start), Page(len);
              if BadLength(len) || !OnPage(start) then
                !panicked && r == -1 && regions.Linked() && regions.Regions() == l && mapped == old(mapped)
              else
                && (panicked <==> old(regions.free) == [] || !(Pages(b, n) <= old(mapped)))
                && (!panicked ==> regions.Linked() && r == 0
                                  && regions.Regions() == Released(l, b, n) && mapped == old(mapped) - Pages(b, n))
      ensures !panicked ==> regions.Linked() && regions.Bag() == old(regions.Bag())
      ensures !panicked ==>
                (Small(regions.Regions()) <==>
                 r == -1 || Joint(old(regions.Regions()), Page(start), Page(len)) < MAXPAGES)
      ensures !panicked && old(Sound(regions.Regions(), mapped)) ==> Sound(regions.Regions(), mapped)
    {
      hide Chain, Pool, Disjoint, Aligned, Small, RegionsOf, Page, OnPage, Released, Canonical, Apart, Sound, Joint;
      ghost var l, mapped0 := regions.Regions(), mapped;
      panicked, r := false, -1;
      if !OnPage(start) || BadLength(len) {
        return;
      }
      PagesOf(len);
      var npages := Page(len);
      ReleasedSmall(l, Page(start), npages);
      panicked := regions.Munmap(start, npages);
      if panicked {
        return;
      }
      panicked := UnmapAll(Page(start), npages);
      r := 0;
      if !panicked && Sound(l, mapped0) {
        MunmapSound(l, mapped0, Page(start), npages);
      }
    }
  }

  lemma ZeroOnPage()
    ensures OnPage(0)
  {
  }

  lemma ChosenGiven(l: seq<Region>, start: nat, n: nat)
    requires start != 0
    ensures Chosen(l, start, n) == start
  {
  }

  lemma SearchAt(nodes: seq<Node>, head: nat, ids: seq<nat>, k: nat)
    requires Chain(nodes, head, ids) && InRange(nodes, ids) && Aligned(nodes, ids) && k <= |ids| && IdAt(ids, k) != 0
    ensures k < |ids| && ids[k] < |nodes| && nodes[ids[k]].next == IdAt(ids, k + 1)
    ensures var c, g := nodes[ids[k]], RegionsOf(nodes, ids)[k]; g.count == c.npages && g.begin * PGSIZE == c.begin
  {
    assert NextAt(nodes, ids, k);
  }

  lemma SearchEnds(nodes: seq<Node>, head: nat, ids: seq<nat>, k: nat)
    requires Chain(nodes, head, ids) && InRange(nodes, ids) && k <= |ids| && IdAt(ids, k) == 0
    ensures k == |ids|
  {
    assert k < |ids| ==> NextAt(nodes, ids, k);
  }

  // ----- Runs of calls -----

  datatype Call = Mmap(start: nat, len: nat, frames: nat) | Munmap(start: nat, len: nat)

  /** A process's free list and its mapped pages. */
  datatype Space = Space(l: seq<Region>, mapped: set<nat>)

  /** The kernel turns the call down. */
  predicate Refused(s: Space, call: Call) {
    BadLength(call.len) || !OnPage(call.start) || (call.Mmap? && Chosen(s.l, call.start, Page(call.len)) == 0)
  }

  /** What a call that returns leaves. */
  function After(s: Space, call: Call): (s': Space) {
    var n := Page(call.len);
    if Refused(s, call) then s
    else if call.Mmap? then
      var b := Page(Chosen(s.l, call.start, n));
      Space(Mapped(s.l, b, n), s.mapped + Pages(b, n))
    else Space(Released(s.l, Page(call.start), n), s.mapped - Pages(Page(call.start), n))
  }

  /** What a caller must see to: a range it asks for by address lies in [lo, hi), and is on the free list as a
      whole within one region, or not at all. */
  ghost predicate Fair(l: seq<Region>, call: Call, lo: nat, hi: nat) {
    call.Mmap? && call.start != 0 ==>
      var b, n := Page(call.start), Page(call.len);
      lo <= b && b + n <= hi && (Held(l, b, n) || Apart(l, b, n))
  }

  /** A range to be released is mapped; otherwise the machine stops. */
  predicate Passes(s: Space, call: Call) {
    call.Munmap? && !Refused(s, call) ==> Pages(Page(call.start), Page(call.len)) <= s.mapped
  }

  ghost predicate FairRun(s: Space, calls: seq<Call>, lo: nat, hi: nat)
    decreases |calls|
  {
    calls != [] ==>
      && Fair(s.l, calls[0], lo, hi) && calls[0].len < TWO32
      && (Passes(s, calls[0]) ==> FairRun(After(s, calls[0]), calls[1..], lo, hi))
  }

  /** The list is sound, and all of it and of what is mapped lies in [lo, hi). */
  ghost predicate Kept(s: Space, lo: nat, hi: nat) {
    Sound(s.l, s.mapped) && forall pg: nat :: Covers(s.l, pg) || pg in s.mapped ==> lo <= pg < hi
  }

  /** In a window of fewer than 2^20 pages no merge makes a region too large for its 32 bits. */
  lemma KeptSmall(s: Space, lo: nat, hi: nat)
    requires Kept(s, lo, hi) && hi < lo + MAXPAGES
    ensures Small(s.l)
  {
    forall k | 0 <= k < |s.l|
      ensures s.l[k].count < MAXPAGES
    {
      var c := s.l[k];
      assert c.Has(c.begin) && c.Has(c.End() - 1);
      assert Covers(s.l, c.begin) && Covers(s.l, c.End() - 1);
    }
  }

  lemma HeldWithin(s: Space, b: nat, n: nat, lo: nat, hi: nat)
    requires Kept(s, lo, hi) && Held(s.l, b, n) && n > 0
    ensures lo <= b && b + n <= hi
  {
    var k :| 0 <= k < |s.l| && s.l[k].Holds(b, n);
    assert s.l[k].Has(b) && s.l[k].Has(b + n - 1);
    assert Covers(s.l, b) && Covers(s.l, b + n - 1);
  }

  lemma MmapKeeps(s: Space, b: nat, n: nat, lo: nat, hi: nat)
    requires Kept(s, lo, hi) && n > 0 && lo <= b && b + n <= hi && (Held(s.l, b, n) || Apart(s.l, b, n))
    ensures Kept(Space(Mapped(s.l, b, n), s.mapped + Pages(b, n)), lo, hi)
  {
    hide Canonical, Covers, Mapped, Apart, Region.Holds;
    MmapSoundIff(s.l, s.mapped, b, n);
    MappedMeans(s.l, b, n);
  }

  /** A fair call keeps the list sound and in the window. */
  lemma CallKeeps(s: Space, call: Call, lo: nat, hi: nat)
    requires Kept(s, lo, hi) && Fair(s.l, call, lo, hi) && Passes(s, call) && call.len < TWO32
    ensures Kept(After(s, call), lo, hi)
  {
    hide Kept, Sound, Mapped, Released, Held, Apart, Chosen, Page, OnPage, BadLength;
    var n := Page(call.len);
    if !Refused(s, call) {
      PagesOf(call.len);
      if call.Mmap? {
        if call.start == 0 {
          ChosenHeld(s.l, n);
          HeldWithin(s, Page(Chosen(s.l, 0, n)), n, lo, hi);
        } else {
          ChosenGiven(s.l, call.start, n);
        }
        MmapKeeps(s, Page(Chosen(s.l, call.start, n)), n, lo, hi);
      } else {
        MunmapKeeps(s, Page(call.start), n, lo, hi);
      }
    }
  }

  lemma MunmapKeeps(s: Space, b: nat, n: nat, lo: nat, hi: nat)
    requires Kept(s, lo, hi) && n > 0 && Pages(b, n) <= s.mapped
    ensures Kept(Space(Released(s.l, b, n), s.mapped - Pages(b, n)), lo, hi)
  {
    hide Sound, Covers, Released;
    MunmapSound(s.l, s.mapped, b, n);
  }

  /** One call. */
  method Serve(area: Area, call: Call) returns (panicked: bool)
    requires area.regions.Linked() && Small(area.regions.Regions()) && call.len < TWO32
    modifies area, area.regions
    ensures !panicked ==>
              && area.regions.Linked() && area.regions.Bag() == old(area.regions.Bag())
              && Passes(Space(old(area.regions.Regions()), old(area.mapped)), call)
              && Space(area.regions.Regions(), area.mapped) ==
                 After(Space(old(area.regions.Regions()), old(area.mapped)), call)
  {
    hide Chain, Pool, Disjoint, Aligned, Small, RegionsOf, Page, OnPage, BadLength, Released, Mapped, Splits, Sound,
         Held,
         Apart, Chosen, Joint;
    var r;
    match call {
      case Mmap(start, len, frames) => panicked, r := area.SysMmap(start, len, frames);
      case Munmap(start, len) => panicked, r := area.SysMunmap(start, len);
    }
  }

  /** Any run of fair calls in a window of fewer than 2^20 pages, as far as it gets: the list stays sound, no
      region becomes too large, and no node is lost. */
  method Session(area: Area, calls: seq<Call>, ghost lo: nat, ghost hi: nat) returns (panicked: bool)
    requires area.regions.Linked() && Kept(Space(area.regions.Regions(), area.mapped), lo, hi) && hi < lo + MAXPAGES
    requires FairRun(Space(area.regions.Regions(), area.mapped), calls, lo, hi)
    modifies area, area.regions
    ensures !panicked ==>
              && area.regions.Linked() && area.regions.Bag() == old(area.regions.Bag())
              && Kept(Space(area.regions.Regions(), area.mapped), lo, hi) && Small(area.regions.Regions())
  {
    hide Chain, Pool, Disjoint, Aligned, Small, RegionsOf, Kept, After, Fair, Passes;
    panicked := false;
    ghost var s := Space(area.regions.Regions(), area.mapped);
    KeptSmall(s, lo, hi);
    for k := 0 to |calls|
      invariant area.regions.Linked() && area.regions.Bag() == old(area.regions.Bag())
      invariant s == Space(area.regions.Regions(), area.mapped) && Kept(s, lo, hi) && Small(s.l) && !panicked
      invariant FairRun(s, calls[k..], lo, hi)
    {
      assert calls[k..][0] == calls[k] && calls[k..][1..] == calls[k + 1..];
      panicked := Serve(area, calls[k]);
      if panicked {
        return;
      }
      CallKeeps(s, calls[k], lo, hi);
      s := After(s, calls[k]);
      KeptSmall(s, lo, hi);
    }
  }

  // ----- A run that loses soundness -----

  /** The list with a region twice over one page, and what the two calls make of short lists. */
  lemma OverlapLists()
    ensures Mapped([], 10, 2) == [] && Released([], 10, 2) == [Region(10, 2)]
    ensures Mapped([Region(10, 2)], 11, 2) == [Region(10, 2)]
    ensures Released([Region(10, 2)], 11, 2) == [Region(10, 2), Region(11, 2)]
    ensures Mapped([Region(10, 2), Region(11, 2)], 10, 2) == [Region(11, 2)]
    ensures Mapped([Region(11, 2)], 11, 2) == [] && !Canonical([Region(10, 2), Region(11, 2)])
  {
    var one, two := [Region(10, 2)], [Region(10, 2), Region(11, 2)];
    assert Holder(one, 0, 11, 2) == 1;
    assert Place(one, 11) == 1 && Insert(one, 1, Region(11, 2)) == two;
    assert Holder(two, 0, 10, 2) == 0;
    assert two[0].End() > two[1].begin;
  }

  lemma ShortSums()
    ensures OnPage(10 * PGSIZE) && Page(10 * PGSIZE) == 10 && OnPage(11 * PGSIZE) && Page(11 * PGSIZE) == 11
    ensures !BadLength(2 * PGSIZE) && Page(2 * PGSIZE) == 2 && OnPage(0)
    ensures Chosen([Region(10, 2), Region(11, 2)], 0, 2) == 10 * PGSIZE && Chosen([Region(11, 2)], 0, 2) == 11 * PGSIZE
  {
  }

  /** Four calls of a new process, at addresses of its own choice, put page 11 on the free list twice:
      the third maps a range that is half free, and the fourth releases it. */
  method OverlapRun() returns (area: Area)
    ensures fresh(area) && fresh(area.regions) && area.regions.Linked() && area.mapped == {}
    ensures area.regions.Regions() == [Region(10, 2), Region(11, 2)] && !Canonical(area.regions.Regions())
    ensures |area.regions.Bag()| == N_MMAP - 1
  {
    hide Chain, Pool, Disjoint, Aligned, RegionsOf, Page, OnPage, Released, Mapped, Splits, Apart, Chosen, Held;
    OverlapLists();
    ShortSums();
    area := new Area();
    NoRegions(area.regions);
    ghost var bag := area.regions.Bag();
    var r;
    var panicked;
    ChosenGiven([], 10 * PGSIZE, 2);
    ChosenGiven([Region(10, 2)], 11 * PGSIZE, 2);
    panicked, r := area.SysMmap(10 * PGSIZE, 2 * PGSIZE, 2);
    panicked, r := area.SysMunmap(10 * PGSIZE, 2 * PGSIZE);
    panicked, r := area.SysMmap(11 * PGSIZE, 2 * PGSIZE, 2);
    panicked, r := area.SysMunmap(11 * PGSIZE, 2 * PGSIZE);
  }

  lemma NoRegions(regions: RegionList)
    requires regions.Linked() && regions.list == [] && |regions.free| == N_MMAP - 1
    ensures regions.Regions() == [] && |regions.Bag()| == N_MMAP - 1
  {
  }

  /** After that the kernel itself gives page 11 away twice. */
  method DoubleGrant() returns (area: Area, x: int, y: int)
    ensures x == 10 * PGSIZE && y == 11 * PGSIZE && area.regions.Linked() && area.regions.Regions() == []
    ensures 11 in Pages(Page(10 * PGSIZE), 2) && 11 in Pages(Page(11 * PGSIZE), 2) && area.mapped == {10, 11, 12}
  {
    hide Chain, Pool, Disjoint, Aligned, RegionsOf, Page, OnPage, Mapped, Splits, Chosen;
    OverlapLists();
    ShortSums();
    area := OverlapRun();
    var panicked;
    panicked, x := area.SysMmap(0, 2 * PGSIZE, 2);
    panicked, y := area.SysMmap(0, 2 * PGSIZE, 2);
  }
}
