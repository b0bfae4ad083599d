/** uvmcopy: a child's copy of its parent's memory. */
module VmCopy {
  import opened Collections
  import opened VmPages
  import opened VmTree
  import opened VmCode
  import opened VmMap
  import opened VmSpace

  /** walk without allocation, and the entry it leads to; 0 if there is none. */
  method Lookup(vm: Vm, ghost t: Tree, root: nat, v: nat) returns (e: nat)
    requires vm.Valid() && vm.Holds(t) && root == t.root && v < MAXPAGE
    modifies vm`ram, vm`freelist, vm`free
    ensures vm.Valid() && vm.Holds(t) && vm.ram == old(vm.ram) && vm.free == old(vm.free)
    ensures e == Leaf(t.m, v) && (Valid(e) <==> v in t.m)
  {
    hide TreeOk, FreeList, Tables, Entry, Grew, Kept, Valid;
    TableOf(vm.ram, t, v);
    MapValid(vm.ram, t, v);
    var panicked, table;
    ghost var t1;
    panicked, table, t1 := vm.Walk(t, root, v, false);
    if table == 0 {
      return 0;
    }
    LeafRead(vm.ram, t, v);
    return Entry(vm.ram[table], Px0(v));
  }

  /** m has, of the first n pages, those that src has, with the same flags, and m0's others. */
  ghost predicate SameShape(m0: map<nat, nat>, m: map<nat, nat>, src: map<nat, nat>, n: nat) {
    && (forall u :: u in m <==> u in m0 || (u < n && u in src))
    && (forall u :: u in m0 ==> m[u] == m0[u])
    && (forall u :: u < n && u in src ==> u in m && FlagsOf(m[u]) == FlagsOf(src[u]))
  }

  /** The first n pages of m hold the same bytes as those of src. */
  ghost predicate SameBytes(ram0: Ram, ram: Ram, m: map<nat, nat>, src: map<nat, nat>, n: nat) {
    forall u :: u < n && u in src ==> SamePage(ram0, ram, m, src, u)
  }

  ghost predicate SamePage(ram0: Ram, ram: Ram, m: map<nat, nat>, src: map<nat, nat>, u: nat)
    requires u in src
  {
    u in m && PpnOf(src[u]) in ram0 && PpnOf(m[u]) in ram && ram[PpnOf(m[u])] == ram0[PpnOf(src[u])]
  }

  /** The first n pages of src have been copied into t0, on pages that were free. */
  ghost predicate Cloned(src: map<nat, nat>, t0: Tree, free0: seq<nat>, ram0: Ram, t: Tree, free: seq<nat>, ram: Ram,
                         n: nat) {
    && t.root == t0.root && SameShape(t0.m, t.m, src, n) && SameBytes(ram0, ram, t.m, src, n)
    && Distinct(Frames(t.m, 0, n)) && Balanced(free0, t0, {}, free, t, Set(Frames(t.m, 0, n)))
    && Kept(ram0, ram, free0, Tables(t0))
  }

  /** The parent's pages are in use, and none of them is a table of the child. */
  ghost predicate Safe(src: map<nat, nat>, n: nat, ram: Ram, free: seq<nat>, ps: set<nat>) {
    forall u :: u < n && u in src ==>
      PpnOf(src[u]) in ram && PpnOf(src[u]) !in free && PpnOf(src[u]) !in ps && Valid(src[u])
  }

  lemma ClonedNone(src: map<nat, nat>, t: Tree, free: seq<nat>, ram: Ram)
    requires Set(free) !! Tables(t)
    ensures Cloned(src, t, free, ram, t, free, ram, 0)
  {
    KeptRefl(ram, free, Tables(t));
  }

  lemma FlagsKept(e: nat, f: nat)
    requires Valid(e)
    ensures WithV(FlagsOf(e)) == FlagsOf(e) && FlagsOf(Pte(f, FlagsOf(e))) == FlagsOf(e)
    ensures PpnOf(Pte(f, FlagsOf(e))) == f
  {
    PteParts(f, FlagsOf(e));
  }

  lemma BytesMore(ram0: Ram, ram: Ram, ram': Ram, t: Tree, t': Tree, src: map<nat, nat>, n: nat, f: nat)
    requires SameBytes(ram0, ram, t.m, src, n) && n in src && Valid(src[n]) && PpnOf(src[n]) in ram0
    requires t'.m == t.m[n := Pte(f, FlagsOf(src[n]))] && f in ram' && ram'[f] == ram0[PpnOf(src[n])]
    requires forall p :: p in Set(Frames(t.m, 0, n)) && p in ram ==> p in ram' && ram'[p] == ram[p]
    ensures SameBytes(ram0, ram', t'.m, src, n + 1)
  {
    hide Frames, Pte, PpnOf, FlagsOf, Valid, Filled;
    FlagsKept(src[n], f);
    forall u | u < n + 1 && u in src
      ensures SamePage(ram0, ram', t'.m, src, u)
    {
      if u < n {
        assert SamePage(ram0, ram, t.m, src, u);
        FramesHas(t.m, 0, n, u);
        var p := PpnOf(t.m[u]);
        assert p in Set(Frames(t.m, 0, n));
      }
    }
  }

  lemma ShapeMore(m0: map<nat, nat>, m: map<nat, nat>, src: map<nat, nat>, n: nat, f: nat)
    requires SameShape(m0, m, src, n) && n in src && Valid(src[n]) && n !in m0
    ensures SameShape(m0, m[n := Pte(f, FlagsOf(src[n]))], src, n + 1)
  {
    hide Pte, FlagsOf, Valid;
    FlagsKept(src[n], f);
  }

  lemma ClonedMore(src: map<nat, nat>, t0: Tree, free0: seq<nat>, ram0: Ram, t: Tree, free: seq<nat>, ram: Ram,
                   t': Tree, free': seq<nat>, ram': Ram, n: nat, f: nat)
    requires Cloned(src, t0, free0, ram0, t, free, ram, n) && n in src
    requires Valid(src[n]) && n !in t0.m && t'.root == t.root
    requires PpnOf(src[n]) in ram0 && t'.m == t.m[n := Pte(f, FlagsOf(src[n]))]
    requires f in ram' && ram'[f] == ram0[PpnOf(src[n])]
    requires Kept(ram, ram', free, Tables(t)) && Balanced(free, t, {}, free', t', {f})
    ensures Cloned(src, t0, free0, ram0, t', free', ram', n + 1)
  {
    var fs := Frames(t.m, 0, n);
    FlagsKept(src[n], f);
    GrownFrames(t, t', 0, n, Pte(f, FlagsOf(src[n])));
    hide Frames, Tables, Balanced, Kept, SameBytes, SameShape, Pte, PpnOf, FlagsOf, Valid, Distinct;
    ShapeMore(t0.m, t.m, src, n, f);
    BalancedTrans(free0, t0, Set(fs), free, t, free', t', {f});
    KeptBalanced(ram0, ram, ram', free0, t0, free, t, Set(fs));
    BytesMore(ram0, ram, ram', t, t', src, n, f);
    DistinctMore(fs, f);
  }

  /** A hole in the parent stays a hole in the child. */
  lemma ClonedHole(src: map<nat, nat>, t0: Tree, free0: seq<nat>, ram0: Ram, t: Tree, free: seq<nat>, ram: Ram, n: nat)
    requires Cloned(src, t0, free0, ram0, t, free, ram, n) && n !in src && n !in t0.m
    ensures Cloned(src, t0, free0, ram0, t, free, ram, n + 1)
  {
    hide Frames, Tables, Balanced, Kept, Distinct, SameShape, SameBytes, PpnOf;
    FramesMore(t.m, 0, n);
    HoleShape(t0.m, t.m, src, n);
    HoleBytes(ram0, ram, t.m, src, n);
    assert Frames(t.m, 0, n + 1) == Frames(t.m, 0, n);
  }

  lemma HoleShape(m0: map<nat, nat>, m: map<nat, nat>, src: map<nat, nat>, n: nat)
    requires SameShape(m0, m, src, n) && n !in src && n !in m0
    ensures SameShape(m0, m, src, n + 1) && 0 + n !in m
  {
    hide FlagsOf;
  }

  lemma HoleBytes(ram0: Ram, ram: Ram, m: map<nat, nat>, src: map<nat, nat>, n: nat)
    requires SameBytes(ram0, ram, m, src, n) && n !in src
    ensures SameBytes(ram0, ram, m, src, n + 1)
  {
    hide SamePage;
  }

  lemma ClonedStill(src: map<nat, nat>, t0: Tree, free0: seq<nat>, ram0: Ram, t: Tree, free: seq<nat>, ram: Ram,
                    t': Tree, free': seq<nat>, ram': Ram, n: nat)
    requires Cloned(src, t0, free0, ram0, t, free, ram, n) && t'.m == t.m && t'.root == t.root
    requires Kept(ram, ram', free, Tables(t)) && Balanced(free, t, {}, free', t', {})
    ensures Cloned(src, t0, free0, ram0, t', free', ram', n)
  {
    var fs := Frames(t.m, 0, n);
    hide Frames, Tables, Balanced, Kept, SameShape, Distinct, PpnOf;
    BalancedTrans(free0, t0, Set(fs), free, t, free', t', {});
    assert Set(fs) + {} == Set(fs);
    KeptBalanced(ram0, ram, ram', free0, t0, free, t, Set(fs));
    forall u | u < n && u in src
      ensures SamePage(ram0, ram', t.m, src, u)
    {
      assert SamePage(ram0, ram, t.m, src, u);
      FramesHas(t.m, 0, n, u);
    }
  }

  lemma ClonedOwned(vm: Vm, src: map<nat, nat>, t0: Tree, free0: seq<nat>, ram0: Ram, t: Tree, n: nat)
    requires vm.Valid() && Cloned(src, t0, free0, ram0, t, vm.free, vm.ram, n) && Unmapped(t0.m, 0, n)
    ensures Owned(vm, t, 0, n) && Removed(t.m, 0, n) == t0.m
  {
    var fs := Frames(t.m, 0, n);
    forall u | u < n && u in t.m
      ensures PpnOf(t.m[u]) in vm.ram
    {
      assert SamePage(ram0, vm.ram, t.m, src, u);
    }
    CloneFramesIn(vm.ram, t.m, n);
    forall k | 0 <= k < |fs|
      ensures vm.lo <= fs[k] < vm.hi && fs[k] !in vm.free && fs[k] !in Tables(t)
    {
      assert fs[k] in Set(fs);
    }
  }

  lemma {:induction false} CloneFramesIn(ram: Ram, m: map<nat, nat>, n: nat)
    requires forall u :: u < n && u in m ==> PpnOf(m[u]) in ram
    ensures forall k :: 0 <= k < |Frames(m, 0, n)| ==> Frames(m, 0, n)[k] in ram
  {
    if n > 0 {
      CloneFramesIn(ram, m, n - 1);
    }
  }

  /** The parent's tables are not disturbed by what happens to the child. */
  lemma ParentKept(ram0: Ram, ram: Ram, free0: seq<nat>, t: Tree, t0: Tree, free: seq<nat>, t1: Tree, us: set<nat>)
    requires TreeOk(ram0, t) && Kept(ram0, ram, free0, Tables(t0)) && Tables(t) !! Set(free0) && Tables(t) !! Tables(t0)
    requires Balanced(free0, t0, {}, free, t1, us)
    ensures TreeOk(ram, t) && Tables(t) !! Set(free)
  {
    TablesInRam(ram0, t);
    hide TreeOk, Tables;
    forall p | p in Tables(t)
      ensures p in ram0 && p in ram && ram[p] == ram0[p]
    {
      assert p !in Set(free0);
    }
    SameTree(ram0, ram, t);
  }

  /** uvmcopy: on success the child has the parent's bytes, flags and holes below the size, on pages
      of its own; on failure its mappings are those it began with. Either way no page is lost and the
      parent's table is as it was. */
  method UvmCopy(vm: Vm, ghost told: Tree, oldRoot: nat, ghost tnew: Tree, newRoot: nat,
                 sz: nat) returns (ok: bool, ghost t': Tree)
    requires vm.Valid() && vm.Holds(told) && vm.Holds(tnew) && oldRoot == told.root && newRoot == tnew.root
    requires Tables(told) !! Tables(tnew) && PageCount(sz) <= MAXPAGE && Unmapped(tnew.m, 0, PageCount(sz))
    requires Safe(told.m, PageCount(sz), vm.ram, vm.free, Tables(tnew))
    modifies vm`ram, vm`freelist, vm`free
    ensures vm.Valid() && vm.Holds(told) && vm.Holds(t') && Kept(old(vm.ram), vm.ram, old(vm.free), Tables(tnew))
    ensures ok ==> Cloned(told.m, tnew, old(vm.free), old(vm.ram), t', vm.free, vm.ram, PageCount(sz))
    ensures !ok ==>
              |old(vm.free)| < 3 * PageCount(sz) && t'.m == tnew.m && t'.root == tnew.root
              && Balanced(old(vm.free), tnew, {}, vm.free, t', {})
  {
    hide TreeOk, FreeList, Tables, Frames, Pushed, Removed, Distinct, PageCount, Balanced, Kept, Cloned, Set, WithV,
         Valid, FlagsOf, PpnOf, Safe;
    ghost var free0, ram0, n := vm.free, vm.ram, PageCount(sz);
    t' := tnew;
    ClonedNone(told.m, tnew, free0, ram0);
    var v := 0;
    while v < PageCount(sz)
      invariant v <= n && vm.Valid() && vm.Holds(told) && vm.Holds(t') && t'.root == newRoot
      invariant Cloned(told.m, tnew, free0, ram0, t', vm.free, vm.ram, v)
      invariant |vm.free| + 3 * v >= |free0|
    {
      var e := Lookup(vm, told, oldRoot, v);
      if Valid(e) {
        ghost var t1, ram1, free1 := t', vm.ram, vm.free;
        Source(told.m, v, n, tnew, free0, ram0, t1, free1, ram1);
        FlagsKept(e, 0);
        var panicked, f;
        panicked, ok, f, t' := GrowOne(vm, t1, newRoot, v, FlagsOf(e), vm.ram[PpnOf(e)]);
        if !ok {
          ClonedStill(told.m, tnew, free0, ram0, t1, free1, ram1, t', vm.free, vm.ram, v);
          t' := UndoCopy(vm, told, tnew, free0, ram0, t', newRoot, v);
          return false, t';
        }
        ClonedMore(told.m, tnew, free0, ram0, t1, free1, ram1, t', vm.free, vm.ram, v, f);
      } else {
        ClonedHole(told.m, tnew, free0, ram0, t', vm.free, vm.ram, v);
      }
      ClonedParent(ram0, vm.ram, free0, told, tnew, vm.free, t', told.m, v + 1);
      v := v + 1;
    }
    ClonedParent(ram0, vm.ram, free0, told, tnew, vm.free, t', told.m, n);
    return true, t';
  }

  lemma ClonedParent(ram0: Ram, ram: Ram, free0: seq<nat>, told: Tree, t0: Tree, free: seq<nat>, t: Tree,
                     src: map<nat, nat>, n: nat)
    requires TreeOk(ram0, told) && Tables(told) !! Set(free0) && Tables(told) !! Tables(t0)
    requires Cloned(src, t0, free0, ram0, t, free, ram, n)
    ensures TreeOk(ram, told) && Tables(told) !! Set(free) && Kept(ram0, ram, free0, Tables(t0)) && t.root == t0.root
  {
    ParentKept(ram0, ram, free0, told, t0, free, t, Set(Frames(t.m, 0, n)));
  }

  /** The page to copy still holds what it held, and the child has nothing there. */
  lemma Source(src: map<nat, nat>, v: nat, n: nat, t0: Tree, free0: seq<nat>, ram0: Ram, t: Tree, free: seq<nat>,
               ram: Ram)
    requires v < n && v in src && Safe(src, n, ram0, free0, Tables(t0)) && Cloned(src, t0, free0, ram0, t, free, ram, v)
    requires Unmapped(t0.m, 0, n)
    ensures v !in t.m && v !in t0.m && PpnOf(src[v]) in ram0 && PpnOf(src[v]) in ram
    ensures ram[PpnOf(src[v])] == ram0[PpnOf(src[v])] && Valid(src[v])
  {
  }

  /** The error exit of uvmcopy. */
  method UndoCopy(vm: Vm, ghost told: Tree, ghost t0: Tree, ghost free0: seq<nat>, ghost ram0: Ram, ghost t: Tree,
                  root: nat, v: nat)
    returns (ghost t': Tree)
    requires vm.Valid() && vm.Holds(t) && root == t.root && v <= MAXPAGE && Unmapped(t0.m, 0, v)
    requires Cloned(told.m, t0, free0, ram0, t, vm.free, vm.ram, v)
    requires TreeOk(ram0, told) && Tables(told) !! Set(free0) && Tables(told) !! Tables(t0)
    modifies vm`ram, vm`freelist, vm`free
    ensures vm.Valid() && vm.Holds(t') && vm.Holds(told) && t'.m == t0.m && t'.root == t0.root
    ensures Balanced(free0, t0, {}, vm.free, t', {}) && Kept(ram0, vm.ram, free0, Tables(t0))
  {
    hide TreeOk, FreeList, Tables, Frames, Pushed, Removed, Distinct, Balanced, Kept, Set;
    ghost var free1, ram1, fs := vm.free, vm.ram, Frames(t.m, 0, v);
    ClonedOwned(vm, told.m, t0, free0, ram0, t, v);
    var panicked;
    panicked, t' := UvmUnmap(vm, t, root, 0, v, true);
    BalancedFreed(free0, t0, free1, t, fs, t0.m);
    SparedKept(ram0, free0, t0, ram1, vm.ram, free1, t, fs);
    ParentKept(ram0, vm.ram, free0, told, t0, vm.free, t', {});
  }
}
