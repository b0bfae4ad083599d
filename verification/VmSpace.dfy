/** Growing, shrinking, copying and freeing user memory. */
module VmSpace {
  import opened Collections
  import opened VmPages
  import opened VmTree
  import opened VmCode
  import opened VmMap
  import opened VmFree

  /** PGROUNDUP(sz) / PGSIZE. */
  function PageCount(sz: nat): (n: nat)
    ensures sz <= n * PGSIZE < sz + PGSIZE
  {
    (sz + PGSIZE - 1) / PGSIZE
  }

  /** No page was lost or used twice: the free pages, the tables of t and the pages us are together
      the same as before, and apart. */
  ghost predicate Balanced(free: seq<nat>, t: Tree, us: set<nat>, free': seq<nat>, t': Tree, us': set<nat>) {
    && Set(free') + Tables(t') + us' == Set(free) + Tables(t) + us
    && Set(free') !! Tables(t') && Set(free') !! us' && Tables(t') !! us'
  }

  lemma BalancedRefl(free: seq<nat>, t: Tree, us: set<nat>)
    requires Set(free) !! Tables(t) && Set(free) !! us && Tables(t) !! us
    ensures Balanced(free, t, us, free, t, us)
  {
  }

  /** Writing to a page that was just taken disturbs neither the tree nor the free list. */
  lemma FillKeeps(ram0: Ram, ram: Ram, freelist: nat, free0: seq<nat>, t: Tree, content: Page)
    requires TreeOk(ram0, t) && Tables(t) !! Set(free0) && free0 != [] && Distinct(free0) && free0[0] in ram0
    requires ram == ram0[free0[0] := Filled(5)] && FreeList(ram, freelist, free0[1..])
    ensures var ram' := ram[free0[0] := content];
            TreeOk(ram', t) && FreeList(ram', freelist, free0[1..]) && Tables(t) !! Set(free0[1..])
  {
    FrontSet(free0);
    TablesInRam(ram0, t);
    FreeInRam(ram, freelist, free0[1..]);
    hide TreeOk, FreeList, Tables;
    SameTree(ram0, ram[free0[0] := content], t);
    FreeKept(ram, ram[free0[0] := content], freelist, free0[1..]);
  }

  /** After MapOne with the page f in hand. */
  lemma GrowFacts(ram0: Ram, free0: seq<nat>, t: Tree, content: Page, t': Tree, free': seq<nat>, ram': Ram)
    requires free0 != [] && Distinct(free0) && free0[0] in ram0 && Tables(t) !! Set(free0)
    requires Evolved(t, free0[1..], ram0[free0[0] := content], t', free', ram') && Tables(t') !! Set(free')
    ensures t'.root == t.root && free0[0] in ram' && ram'[free0[0]] == content
    ensures free0[0] !in free' && free0[0] !in Tables(t')
    ensures Kept(ram0, ram', free0, Tables(t))
    ensures Balanced(free0, t, {}, free', t', {free0[0]})
  {
    var f, rest := free0[0], free0[1..];
    FrontSet(free0);
    TookSet(rest, free', Tables(t), Tables(t'));
    hide Tables;
    forall p | p in ram0 && p !in free0 && p !in Tables(t)
      ensures p in ram' && ram'[p] == ram0[p]
    {
      assert p != f && p !in rest;
    }
    assert f !in rest by {
      assert f in rest ==> f in Set(rest);
    }
    assert f in free' ==> f in Set(free');
  }

  lemma TookSet(free: seq<nat>, free': seq<nat>, ps: set<nat>, ps': set<nat>)
    requires Took(free, free', ps, ps')
    ensures Set(free') + ps' == Set(free) + ps
  {
    var n := |free| - |free'|;
    assert free == free[..n] + free';
  }

  lemma GiveBack(free0: seq<nat>, t: Tree, free: seq<nat>, t': Tree, f: nat)
    requires Balanced(free0, t, {}, free, t', {f})
    ensures Balanced(free0, t, {}, [f] + free, t', {})
  {
    SetPush(free, f);
  }

  /** One more page of user memory: a page of the allocator's, holding content, at page v. On
      failure nothing is mapped and the page has gone back. */
  method GrowOne(vm: Vm, ghost t: Tree, root: nat, v: nat, perm: nat, content: Page)
    returns (panicked: bool, ok: bool, f: nat, ghost t': Tree)
    requires vm.Valid() && vm.Holds(t) && root == t.root && perm < 1024
    modifies vm`ram, vm`freelist, vm`free
    ensures panicked <==> old(vm.free) != [] && (v >= MAXPAGE || v in t.m)
    ensures panicked ==> !ok
    ensures vm.Valid() && vm.Holds(t') && t'.root == t.root && Kept(old(vm.ram), vm.ram, old(vm.free), Tables(t))
    ensures !panicked && !ok ==>
              t'.m == t.m && Balanced(old(vm.free), t, {}, vm.free, t', {}) && |old(vm.free)| <= 2 && |vm.free| <= 1
    ensures ok ==>
              |vm.free| + 3 >= |old(vm.free)| && t'.m == t.m[v := Pte(f, WithV(perm))] && f in vm.ram
              && vm.ram[f] == content && 0 < f < MAXPPN
    ensures ok ==> f in old(vm.free) && f !in vm.free && Balanced(old(vm.free), t, {}, vm.free, t', {f})
  {
    hide TreeOk, FreeList, Tables, Grew, Kept, Set, Evolved, Balanced, Distinct;
    t' := t;
    ghost var ram0, free0 := vm.ram, vm.free;
    ListHead(ram0, vm.freelist, free0);
    f := vm.Kalloc();
    if f == 0 {
      KeptRefl(vm.ram, vm.free, Tables(t));
      BalancedRefl(vm.free, t, {});
      return false, false, 0, t;
    }
    FillKeeps(ram0, vm.ram, vm.freelist, free0, t, content);
    vm.ram := vm.ram[f := content];
    ghost var ram2, free2 := vm.ram, vm.free;
    assert ram2 == ram0[f := content];
    var r;
    r, t' := MapOne(vm, t, root, v, f, perm);
    GrowFacts(ram0, free0, t, content, t', vm.free, vm.ram);
    if !r.NoMemory? {
      return r.Panicked?, r.Done?, f, t';
    }
    ghost var ram3, free3 := vm.ram, vm.free;
    panicked := vm.Kfree(f * PGSIZE);
    GiveBack(free0, t, free3, t', f);
    KfreeKeeps(ram0, free0, t, ram3, vm.ram, t', free3, f);
    ok := false;
  }

  lemma KfreeKeeps(ram0: Ram, free0: seq<nat>, t: Tree, ram: Ram, ram': Ram, t': Tree, free: seq<nat>, f: nat)
    requires TreeOk(ram, t') && Tables(t') !! Set(free) && f !in Tables(t')
    requires f in free0 && Kept(ram0, ram, free0, Tables(t))
    requires ram'.Keys == ram.Keys && forall q :: q in ram' && q != f ==> ram'[q] == ram[q]
    ensures TreeOk(ram', t') && Tables(t') !! Set([f] + free) && Kept(ram0, ram', free0, Tables(t))
  {
    TablesInRam(ram, t');
    SameTree(ram, ram', t');
    SetPush(free, f);
  }

  // ----- growing by a range -----

  /** m is m0 with every page of the range mapped, with these flags. */
  ghost predicate Extended(m0: map<nat, nat>, m: map<nat, nat>, v: nat, n: nat, flags: nat) {
    && (forall u :: u in m <==> u in m0 || v <= u < v + n)
    && (forall u :: u in m0 && !(v <= u < v + n) ==> m[u] == m0[u])
    && (forall u :: v <= u < v + n ==> FlagsOf(m[u]) == flags)
  }

  /** Every mapped page of the range holds content. */
  ghost predicate Zeroed(ram: Ram, m: map<nat, nat>, v: nat, n: nat) {
    forall u :: v <= u < v + n && u in m ==> PpnOf(m[u]) in ram && ram[PpnOf(m[u])] == Filled(0)
  }

  /** n pages from v have been added to t0, on pages that were free. */
  ghost predicate Grown(t0: Tree, free0: seq<nat>, ram0: Ram, t: Tree, free: seq<nat>, ram: Ram, v: nat, n: nat,
                        flags: nat) {
    && t.root == t0.root && Extended(t0.m, t.m, v, n, flags) && Zeroed(ram, t.m, v, n)
    && Distinct(Frames(t.m, v, n)) && Balanced(free0, t0, {}, free, t, Set(Frames(t.m, v, n)))
    && Kept(ram0, ram, free0, Tables(t0))
  }

  lemma GrownNone(t: Tree, free: seq<nat>, ram: Ram, v: nat, flags: nat)
    requires Set(free) !! Tables(t)
    ensures Grown(t, free, ram, t, free, ram, v, 0, flags)
  {
    KeptRefl(ram, free, Tables(t));
  }

  lemma {:induction false} FramesSame(m: map<nat, nat>, m': map<nat, nat>, v: nat, n: nat)
    requires forall u :: v <= u < v + n ==> (u in m' <==> u in m) && (u in m ==> m'[u] == m[u])
    ensures Frames(m', v, n) == Frames(m, v, n)
  {
    if n > 0 {
      FramesSame(m, m', v, n - 1);
    }
  }

  lemma BalancedTrans(f0: seq<nat>, t0: Tree, us: set<nat>, f1: seq<nat>, t1: Tree, f2: seq<nat>, t2: Tree,
                      ws: set<nat>)
    requires Balanced(f0, t0, {}, f1, t1, us) && Balanced(f1, t1, {}, f2, t2, ws)
    ensures Balanced(f0, t0, {}, f2, t2, us + ws) && us !! ws
  {
    hide Tables, Set;
  }

  lemma KeptBalanced(r0: Ram, r1: Ram, r2: Ram, f0: seq<nat>, t0: Tree, f1: seq<nat>, t1: Tree, us: set<nat>)
    requires Kept(r0, r1, f0, Tables(t0)) && Kept(r1, r2, f1, Tables(t1)) && Balanced(f0, t0, {}, f1, t1, us)
    ensures Kept(r0, r2, f0, Tables(t0))
    ensures forall p :: p in us && p in r1 ==> p in r2 && r2[p] == r1[p]
  {
    hide Tables;
    forall p | p in r0 && p !in f0 && p !in Tables(t0)
      ensures p in r2 && r2[p] == r0[p]
    {
      assert p !in Set(f0) && p !in Set(f1) && p !in Tables(t1);
    }
    forall p | p in us && p in r1
      ensures p in r2 && r2[p] == r1[p]
    {
      assert p !in Set(f1) && p !in Tables(t1);
    }
  }

  lemma GrownFrames(t: Tree, t': Tree, v: nat, n: nat, e: nat)
    requires t'.m == t.m[v + n := e]
    ensures Frames(t'.m, v, n + 1) == Frames(t.m, v, n) + [PpnOf(e)]
    ensures Set(Frames(t'.m, v, n + 1)) == Set(Frames(t.m, v, n)) + {PpnOf(e)}
  {
    FramesSame(t.m, t'.m, v, n);
    hide Frames;
    FramesMore(t'.m, v, n);
  }

  lemma ZeroedMore(ram: Ram, ram': Ram, t: Tree, t': Tree, v: nat, n: nat, f: nat, perm: nat)
    requires Zeroed(ram, t.m, v, n) && perm < 1024
    requires t'.m == t.m[v + n := Pte(f, WithV(perm))] && f in ram' && ram'[f] == Filled(0)
    requires forall p :: p in Set(Frames(t.m, v, n)) && p in ram ==> p in ram' && ram'[p] == ram[p]
    ensures Zeroed(ram', t'.m, v, n + 1)
  {
    VBit(perm);
    PteParts(f, WithV(perm));
    hide Frames, Pte, PpnOf, WithV;
    forall u | v <= u < v + n + 1 && u in t'.m
      ensures PpnOf(t'.m[u]) in ram' && ram'[PpnOf(t'.m[u])] == Filled(0)
    {
      if u < v + n {
        FramesHas(t.m, v, n, u);
      }
    }
  }

  lemma ExtendedMore(m0: map<nat, nat>, m: map<nat, nat>, v: nat, n: nat, e: nat, flags: nat)
    requires Extended(m0, m, v, n, flags) && FlagsOf(e) == flags && v + n !in m
    ensures Extended(m0, m[v + n := e], v, n + 1, flags)
  {
    hide FlagsOf;
  }

  lemma DistinctMore(fs: seq<nat>, f: nat)
    requires Distinct(fs) && Set(fs) !! {f}
    ensures Distinct(fs + [f])
  {
    assert f in fs ==> f in Set(fs);
  }

  lemma GrownMore(t0: Tree, free0: seq<nat>, ram0: Ram, t: Tree, free: seq<nat>, ram: Ram, t': Tree, free': seq<nat>,
                  ram': Ram,
                  v: nat, n: nat, f: nat, perm: nat)
    requires perm < 1024 && Grown(t0, free0, ram0, t, free, ram, v, n, WithV(perm)) && t'.root == t.root
    requires t'.m == t.m[v + n := Pte(f, WithV(perm))] && f in ram' && ram'[f] == Filled(0)
    requires Kept(ram, ram', free, Tables(t)) && Balanced(free, t, {}, free', t', {f}) && v + n !in t.m
    ensures Grown(t0, free0, ram0, t', free', ram', v, n + 1, WithV(perm))
  {
    VBit(perm);
    PteParts(f, WithV(perm));
    GrownFrames(t, t', v, n, Pte(f, WithV(perm)));
    var fs := Frames(t.m, v, n);
    hide Frames, Tables, Balanced, Kept, Zeroed, Pte, PpnOf, FlagsOf, WithV, Extended, Distinct;
    ExtendedMore(t0.m, t.m, v, n, Pte(f, WithV(perm)), WithV(perm));
    BalancedTrans(free0, t0, Set(fs), free, t, free', t', {f});
    KeptBalanced(ram0, ram, ram', free0, t0, free, t, Set(fs));
    ZeroedMore(ram, ram', t, t', v, n, f, perm);
    DistinctMore(fs, f);
  }

  // ----- uvmdealloc and uvmalloc -----

  /** After unmapping pages that were in use: they are free again. */
  lemma BalancedFreed(free0: seq<nat>, t0: Tree, free: seq<nat>, t: Tree, fs: seq<nat>, m: map<nat, nat>)
    requires Balanced(free0, t0, {}, free, t, Set(fs))
    ensures Balanced(free0, t0, {}, Pushed(free, fs), t.(m := m), {})
  {
    PushedSet(free, fs);
    SameTables(t, m);
    hide Tables, Pushed, Set;
  }

  lemma PageCountUp(n: nat)
    ensures PageCount(n * PGSIZE) == n && n * PGSIZE / PGSIZE == n && n * PGSIZE % PGSIZE == 0
  {
  }

  lemma PageCountMono(x: nat, y: nat)
    requires x <= y
    ensures PageCount(x) <= PageCount(y)
  {
  }

  /** uvmdealloc: the pages between the two sizes, rounded up, are unmapped and freed. */
  method UvmDealloc(vm: Vm, ghost t: Tree, root: nat, oldsz: nat,
                    newsz: nat) returns (panicked: bool, r: nat, ghost t': Tree)
    requires vm.Valid() && vm.Holds(t) && root == t.root
    requires newsz < oldsz ==>
              PageCount(oldsz) <= MAXPAGE && Owned(vm, t, PageCount(newsz), PageCount(oldsz) - PageCount(newsz))
    modifies vm`ram, vm`freelist, vm`free
    ensures !panicked && vm.Valid() && vm.Holds(t') && r == if newsz >= oldsz then oldsz else newsz
    ensures var n := if newsz >= oldsz then 0 else PageCount(oldsz) - PageCount(newsz);
            && t' == t.(m := Removed(t.m, PageCount(newsz), n))
            && vm.free == Pushed(old(vm.free), Frames(t.m, PageCount(newsz), n))
            && Spared(old(vm.ram), vm.ram, Tables(t), Frames(t.m, PageCount(newsz), n))
  {
    hide TreeOk, FreeList, Tables, Frames, Pushed, Removed, Distinct, PageCount;
    t', panicked := t, false;
    RemovedNone(t.m, PageCount(newsz));
    NoFrames(t.m, PageCount(newsz), vm.free);
    if newsz >= oldsz {
      return false, oldsz, t;
    }
    PageCountMono(newsz, oldsz);
    if PageCount(newsz) < PageCount(oldsz) {
      PageCountUp(PageCount(newsz));
      panicked, t' := UvmUnmap(vm, t, root, PageCount(newsz) * PGSIZE, PageCount(oldsz) - PageCount(newsz), true);
    }
    return panicked, newsz, t';
  }

  lemma GrownOwned(vm: Vm, t0: Tree, free0: seq<nat>, ram0: Ram, t: Tree, v: nat, n: nat, flags: nat)
    requires vm.Valid() && Grown(t0, free0, ram0, t, vm.free, vm.ram, v, n, flags)
    ensures Owned(vm, t, v, n)
  {
    var fs := Frames(t.m, v, n);
    FramesIn(vm.ram, t.m, v, n);
    forall k | 0 <= k < |fs|
      ensures vm.lo <= fs[k] < vm.hi && fs[k] !in vm.free && fs[k] !in Tables(t)
    {
      assert fs[k] in Set(fs);
    }
  }

  lemma {:induction false} FramesIn(ram: Ram, m: map<nat, nat>, v: nat, n: nat)
    requires Zeroed(ram, m, v, n)
    ensures forall k :: 0 <= k < |Frames(m, v, n)| ==> Frames(m, v, n)[k] in ram
  {
    if n > 0 {
      FramesIn(ram, m, v, n - 1);
    }
  }

  lemma ExtendedBack(m0: map<nat, nat>, m: map<nat, nat>, v: nat, n: nat, flags: nat)
    requires Extended(m0, m, v, n, flags) && Unmapped(m0, v, n)
    ensures Removed(m, v, n) == m0
  {
  }

  /** A turn that failed has at most made tables. */
  lemma GrownStill(t0: Tree, free0: seq<nat>, ram0: Ram, t: Tree, free: seq<nat>, ram: Ram, t': Tree, free': seq<nat>,
                   ram': Ram,
                   v: nat, n: nat, flags: nat)
    requires Grown(t0, free0, ram0, t, free, ram, v, n, flags) && t'.m == t.m && t'.root == t.root
    requires Kept(ram, ram', free, Tables(t)) && Balanced(free, t, {}, free', t', {})
    ensures Grown(t0, free0, ram0, t', free', ram', v, n, flags)
  {
    var fs := Frames(t.m, v, n);
    hide Frames, Tables, Balanced, Kept, Extended, Distinct;
    BalancedTrans(free0, t0, Set(fs), free, t, free', t', {});
    assert Set(fs) + {} == Set(fs);
    KeptBalanced(ram0, ram, ram', free0, t0, free, t, Set(fs));
    forall u | v <= u < v + n && u in t.m
      ensures PpnOf(t.m[u]) in ram' && ram'[PpnOf(t.m[u])] == Filled(0)
    {
      FramesHas(t.m, v, n, u);
    }
  }

  predicate Xperm(perm: nat) {
    perm == 0 || perm == W || perm == X || perm == W + X
  }

  /** uvmalloc: on success the new pages are mapped, zeroed, on pages that were free; on failure the
      mappings are those it began with. Either way no page is lost. */
  method UvmAlloc(vm: Vm, ghost t: Tree, root: nat, oldsz: nat, newsz: nat, xperm: nat)
    returns (panicked: bool, r: nat, ghost t': Tree)
    requires vm.Valid() && vm.Holds(t) && root == t.root && Xperm(xperm)
    modifies vm`ram, vm`freelist, vm`free
    ensures panicked ==> newsz > oldsz && !Clear(t.m, PageCount(oldsz), PageCount(newsz))
    ensures !panicked ==> vm.Valid() && vm.Holds(t') && (r == (if newsz < oldsz then oldsz else newsz) || r == 0)
    ensures newsz < oldsz ==> r == oldsz && t' == t && vm.ram == old(vm.ram) && vm.free == old(vm.free)
    ensures !panicked && oldsz <= newsz == r ==>
              Clear(t.m, PageCount(oldsz), PageCount(newsz)) &&
              Grown(t, old(vm.free), old(vm.ram), t', vm.free, vm.ram,
                    PageCount(oldsz), PageCount(newsz) - PageCount(oldsz), WithV(R + U + xperm))
    ensures !panicked && oldsz <= newsz && r != newsz ==>
              |old(vm.free)| < 3 * (PageCount(newsz) - PageCount(oldsz)) && t'.m == t.m && t'.root == t.root
              && Balanced(old(vm.free), t, {}, vm.free, t', {})
              && Kept(old(vm.ram), vm.ram, old(vm.free), Tables(t))
  {
    hide TreeOk, FreeList, Tables, Frames, Pushed, Removed, Distinct, PageCount, Balanced, Kept, Grown, Set, WithV;
    panicked, t' := false, t;
    if newsz < oldsz {
      return false, oldsz, t;
    }
    ghost var free0, ram0 := vm.free, vm.ram;
    var v0, v, perm := PageCount(oldsz), PageCount(oldsz), R + U + xperm;
    PageCountMono(oldsz, newsz);
    GrownNone(t, free0, ram0, v0, WithV(perm));
    while v < PageCount(newsz)
      invariant v0 <= v <= PageCount(newsz) && vm.Valid() && vm.Holds(t') && t'.root == root && Clear(t.m, v0, v)
      invariant Grown(t, free0, ram0, t', vm.free, vm.ram, v0, v - v0, WithV(perm))
      invariant |vm.free| + 3 * (v - v0) >= |free0| && (newsz == oldsz ==> v == PageCount(newsz))
    {
      ghost var t1, ram1, free1 := t', vm.ram, vm.free;
      GrownNext(t, free0, ram0, t1, free1, ram1, v0, v, WithV(perm));
      var ok, f;
      panicked, ok, f, t' := GrowOne(vm, t1, root, v, perm, Filled(0));
      if panicked {
        return true, 0, t';
      }
      if !ok {
        GrownStill(t, free0, ram0, t1, free1, ram1, t', vm.free, vm.ram, v0, v - v0, WithV(perm));
        t' := RollBack(vm, t, free0, ram0, t', root, v0, v, WithV(perm));
        return false, 0, t';
      }
      GrownMore(t, free0, ram0, t1, free1, ram1, t', vm.free, vm.ram, v0, v - v0, f, perm);
      v := v + 1;
    }
    return false, newsz, t';
  }

  /** The pages from v up to w are free to be mapped. */
  ghost predicate Clear(m: map<nat, nat>, v: nat, w: nat) {
    forall u :: v <= u < w ==> u < MAXPAGE && u !in m
  }

  lemma GrownNext(t0: Tree, free0: seq<nat>, ram0: Ram, t: Tree, free: seq<nat>, ram: Ram, v0: nat, v: nat, flags: nat)
    requires v0 <= v && Grown(t0, free0, ram0, t, free, ram, v0, v - v0, flags)
    ensures v in t.m <==> v in t0.m
  {
  }

  /** The error exit of uvmalloc: give back what was added. */
  method RollBack(vm: Vm, ghost t0: Tree, ghost free0: seq<nat>, ghost ram0: Ram, ghost t: Tree, root: nat, v0: nat,
                  v: nat, ghost flags: nat)
    returns (ghost t': Tree)
    requires vm.Valid() && vm.Holds(t) && root == t.root && v0 <= v && Clear(t0.m, v0, v)
    requires Grown(t0, free0, ram0, t, vm.free, vm.ram, v0, v - v0, flags)
    modifies vm`ram, vm`freelist, vm`free
    ensures vm.Valid() && vm.Holds(t') && t'.m == t0.m && t'.root == t0.root
    ensures Balanced(free0, t0, {}, vm.free, t', {}) && Kept(ram0, vm.ram, free0, Tables(t0))
  {
    hide TreeOk, FreeList, Tables, Frames, Pushed, Removed, Distinct, PageCount, Balanced, Kept, Set;
    ghost var free1, ram1, fs := vm.free, vm.ram, Frames(t.m, v0, v - v0);
    PageCountUp(v0);
    PageCountUp(v);
    assert v0 < v ==> v0 * PGSIZE < v * PGSIZE;
    assert v0 < v ==> v - 1 !in t0.m;
    GrownOwned(vm, t0, free0, ram0, t, v0, v - v0, flags);
    ExtendedBack(t0.m, t.m, v0, v - v0, flags);
    var panicked, r;
    panicked, r, t' := UvmDealloc(vm, t, root, v * PGSIZE, v0 * PGSIZE);
    BalancedFreed(free0, t0, free1, t, fs, t0.m);
    SparedKept(ram0, free0, t0, ram1, vm.ram, free1, t, fs);
  }

  lemma SparedKept(ram0: Ram, free0: seq<nat>, t0: Tree, ram: Ram, ram': Ram, free: seq<nat>, t: Tree, fs: seq<nat>)
    requires Kept(ram0, ram, free0, Tables(t0)) && Spared(ram, ram', Tables(t), fs)
    requires Balanced(free0, t0, {}, free, t, Set(fs))
    ensures Kept(ram0, ram', free0, Tables(t0))
  {
    forall p | p in ram0 && p !in free0 && p !in Tables(t0)
      ensures p in ram' && ram'[p] == ram0[p]
    {
      assert p !in Set(free0) && p !in Tables(t) && p !in Set(fs);
    }
  }
}
