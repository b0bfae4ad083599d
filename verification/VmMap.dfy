/** mappages, uvmunmap and the operations on whole address spaces built from them. */
module VmMap {
  import opened Collections
  import opened VmPages
  import opened VmTree
  import opened VmCode

  datatype Outcome = Done | NoMemory | Panicked

  /** No page of the range is mapped. */
  ghost predicate Unmapped(m: map<nat, nat>, v: nat, n: nat) {
    forall u :: v <= u < v + n ==> u !in m
  }

  /** From t to t' only tables were added and mappings changed; memory outside them is as it was. */
  ghost predicate Evolved(t: Tree, free: seq<nat>, ram: Ram, t': Tree, free': seq<nat>, ram': Ram) {
    Grew(t, free, t', free') && Kept(ram, ram', free, Tables(t))
  }

  lemma EvolvedRefl(t: Tree, free: seq<nat>, ram: Ram)
    ensures Evolved(t, free, ram, t, free, ram)
  {
    GrewRefl(t, free);
    KeptRefl(ram, free, Tables(t));
  }

  lemma EvolvedTrans(t0: Tree, f0: seq<nat>, r0: Ram, t1: Tree, f1: seq<nat>, r1: Ram, t2: Tree, f2: seq<nat>, r2: Ram)
    requires Evolved(t0, f0, r0, t1, f1, r1) && Evolved(t1, f1, r1, t2, f2, r2)
    ensures Evolved(t0, f0, r0, t2, f2, r2)
  {
    GrewTrans(t0, f0, t1, f1, t2, f2);
    GrewTook(t0, f0, t1, f1);
    KeptTrans(r0, r1, r2, f0, f1, Tables(t0), Tables(t1));
  }

  /** One turn of mappages: page v to physical page p. */
  method MapOne(vm: Vm, ghost t: Tree, root: nat, v: nat, p: nat, perm: nat) returns (r: Outcome, ghost t': Tree)
    requires vm.Valid() && vm.Holds(t) && root == t.root && perm < 1024 && p < MAXPPN
    modifies vm`ram, vm`freelist, vm`free
    ensures vm.Valid() && vm.Holds(t') && Evolved(t, old(vm.free), old(vm.ram), t', vm.free, vm.ram)
    ensures t'.m == if r.Done? then t.m[v := Pte(p, WithV(perm))] else t.m
    ensures r.NoMemory? ==> vm.free == [] && |old(vm.free)| <= 1 && v < MAXPAGE && v / ENTRIES !in t.low
    ensures |vm.free| + 2 >= |old(vm.free)|
    ensures r.Panicked? <==> v >= MAXPAGE || v in t.m
  {
    hide TreeOk, FreeList, Grew, Kept, Tables, Entry;
    TableOf(vm.ram, t, v);
    var panicked, table;
    panicked, table, t' := vm.Walk(t, root, v, true);
    if panicked {
      return Panicked, t';
    }
    if table == 0 {
      return NoMemory, t';
    }
    LeafRead(vm.ram, t', v);
    MapValid(vm.ram, t', v);
    if Valid(Entry(vm.ram[table], Px0(v))) {
      return Panicked, t';
    }
    VBit(perm);
    PteParts(p, WithV(perm));
    ghost var t1, ram1, free1 := t', vm.ram, vm.free;
    vm.WritePte(t1, table, v, Pte(p, WithV(perm)));
    t' := Leaved(t1, v, Pte(p, WithV(perm)));
    EvolvedTrans(t, old(vm.free), old(vm.ram), t1, free1, ram1, t', vm.free, vm.ram);
    r := Done;
  }

  lemma TableOf(ram: Ram, t: Tree, v: nat)
    requires TreeOk(ram, t)
    ensures v in t.m ==> v / ENTRIES in t.low
  {
  }

  lemma MapValid(ram: Ram, t: Tree, v: nat)
    requires TreeOk(ram, t)
    ensures Valid(Leaf(t.m, v)) <==> v in t.m
  {
  }

  /** mappages. Whatever the outcome, the first done pages of the range are mapped and nothing else
      has changed; all are on success, and memory has run out otherwise. The machine stops for a
      range that is not made of whole pages, and at a page that is mapped already or too high. */
  method MapPages(vm: Vm, ghost t: Tree, root: nat, va: nat, size: nat, pa: nat, perm: nat)
    returns (r: Outcome, ghost t': Tree, ghost done: nat)
    requires vm.Valid() && vm.Holds(t) && root == t.root && perm < 1024 && pa / PGSIZE + size / PGSIZE <= MAXPPN
    modifies vm`ram, vm`freelist, vm`free
    ensures vm.Valid() && vm.Holds(t') && Evolved(t, old(vm.free), old(vm.ram), t', vm.free, vm.ram)
    ensures t'.m == Inserted(t.m, va / PGSIZE, done, pa / PGSIZE, perm)
    ensures done <= size / PGSIZE && Unmapped(t.m, va / PGSIZE, done)
    ensures r.Done? ==> va % PGSIZE == 0 && size % PGSIZE == 0 && done == size / PGSIZE > 0
    ensures |vm.free| + 2 * (if r.Done? then done else done + 1) >= |old(vm.free)|
    ensures r.NoMemory? ==> va % PGSIZE == 0 && size % PGSIZE == 0 && vm.free == []
    ensures r.NoMemory? ==> done < size / PGSIZE && va / PGSIZE + done < MAXPAGE && va / PGSIZE + done !in t.m
    ensures r.Panicked? ==> va % PGSIZE != 0 || size % PGSIZE != 0 || size == 0
                            || (done < size / PGSIZE && (va / PGSIZE + done >= MAXPAGE || va / PGSIZE + done in t.m))
  {
    hide TreeOk, FreeList, Grew, Kept, Tables, Evolved;
    t', done := t, 0;
    EvolvedRefl(t, vm.free, vm.ram);
    if va % PGSIZE != 0 || size % PGSIZE != 0 || size == 0 {
      return Panicked, t', done;
    }
    r, t', done := MapRange(vm, t, root, va / PGSIZE, size / PGSIZE, pa / PGSIZE, perm);
  }

  /** mappages' loop: n pages from v0 on, to the physical pages from p0 on. */
  method MapRange(vm: Vm, ghost t: Tree, root: nat, v0: nat, n: nat, p0: nat, perm: nat)
    returns (r: Outcome, ghost t': Tree, ghost done: nat)
    requires vm.Valid() && vm.Holds(t) && root == t.root && perm < 1024 && p0 + n <= MAXPPN && n > 0
    modifies vm`ram, vm`freelist, vm`free
    ensures vm.Valid() && vm.Holds(t') && Evolved(t, old(vm.free), old(vm.ram), t', vm.free, vm.ram)
    ensures t'.m == Inserted(t.m, v0, done, p0, perm) && done <= n && Unmapped(t.m, v0, done)
    ensures r.Done? ==> done == n
    ensures |vm.free| + 2 * (if r.Done? then done else done + 1) >= |old(vm.free)|
    ensures r.NoMemory? ==> vm.free == [] && done < n && v0 + done < MAXPAGE && v0 + done !in t.m
    ensures r.Panicked? ==> done < n && (v0 + done >= MAXPAGE || v0 + done in t.m)
  {
    hide TreeOk, FreeList, Evolved, Inserted, Unmapped, Pte, WithV, MappedSoFar;
    t', done := t, 0;
    ghost var free0, ram0 := vm.free, vm.ram;
    MapsNone(t, free0, ram0, v0, p0, perm);
    var v, p, last := v0, p0, v0 + n - 1;
    while true
      invariant v == v0 + done <= last && p == p0 + done && vm.Valid() && vm.Holds(t')
      invariant MappedSoFar(t, free0, ram0, t', vm.free, vm.ram, v0, done, p0, perm)
      decreases last - v
    {
      ghost var t1, ram1, free1 := t', vm.ram, vm.free;
      SoFarParts(t, free0, ram0, t1, free1, ram1, v0, done, p0, perm);
      r, t' := MapOne(vm, t1, root, v, p, perm);
      MapsMore(t, free0, ram0, t1, free1, ram1, t', vm.free, vm.ram, v0, done, p0, perm, r.Done?);
      if !r.Done? {
        return;
      }
      done := done + 1;
      SoFarParts(t, free0, ram0, t', vm.free, vm.ram, v0, done, p0, perm);
      if v == last {
        return;
      }
      v, p := v + 1, p + 1;
    }
  }

  /** The first `done` pages from v0 on have been mapped, for at most two new tables each. */
  ghost predicate MappedSoFar(t: Tree, free: seq<nat>, ram: Ram, t': Tree, free': seq<nat>, ram': Ram, v0: nat,
                              done: nat, p0: nat, perm: nat)
  {
    && Evolved(t, free, ram, t', free', ram') && t'.m == Inserted(t.m, v0, done, p0, perm) && Unmapped(t.m, v0, done)
    && |free'| + 2 * done >= |free|
  }

  lemma MapsNone(t: Tree, free: seq<nat>, ram: Ram, v0: nat, p0: nat, perm: nat)
    ensures MappedSoFar(t, free, ram, t, free, ram, v0, 0, p0, perm)
  {
    hide Evolved;
    EvolvedRefl(t, free, ram);
    InsertNone(t.m, v0, p0, perm);
  }

  lemma SoFarParts(t: Tree, free: seq<nat>, ram: Ram, t': Tree, free': seq<nat>, ram': Ram, v0: nat, done: nat, p0: nat,
                   perm: nat)
    requires MappedSoFar(t, free, ram, t', free', ram', v0, done, p0, perm)
    ensures Evolved(t, free, ram, t', free', ram') && t'.m == Inserted(t.m, v0, done, p0, perm) && t'.root == t.root
    ensures Unmapped(t.m, v0, done) && |free'| + 2 * done >= |free| && (v0 + done in t'.m <==> v0 + done in t.m)
  {
    hide Evolved;
    EvolvedRoot(t, free, ram, t', free', ram');
    InsertMore(t.m, v0, done, p0, perm);
  }

  /** One turn of the loop, done or not. */
  lemma MapsMore(t: Tree, free: seq<nat>, ram: Ram, t1: Tree, free1: seq<nat>, ram1: Ram, t2: Tree, free2: seq<nat>,
                 ram2: Ram, v0: nat, done: nat, p0: nat, perm: nat, mapped: bool)
    requires MappedSoFar(t, free, ram, t1, free1, ram1, v0, done, p0, perm) && Evolved(t1, free1, ram1, t2, free2, ram2)
    requires t2.m == if mapped then t1.m[v0 + done := Pte(p0 + done, WithV(perm))] else t1.m
    requires |free2| + 2 >= |free1| && (mapped ==> v0 + done !in t.m)
    ensures mapped ==> MappedSoFar(t, free, ram, t2, free2, ram2, v0, done + 1, p0, perm)
    ensures !mapped ==> Evolved(t, free, ram, t2, free2, ram2) && t2.m == Inserted(t.m, v0, done, p0, perm)
                        && Unmapped(t.m, v0, done) && |free2| + 2 * (done + 1) >= |free|
  {
    hide Evolved, Inserted, Unmapped, Pte, WithV;
    EvolvedTrans(t, free, ram, t1, free1, ram1, t2, free2, ram2);
    InsertMore(t.m, v0, done, p0, perm);
  }

  lemma InsertNone(m: map<nat, nat>, v: nat, p: nat, perm: nat)
    ensures Inserted(m, v, 0, p, perm) == m && Unmapped(m, v, 0)
  {
  }

  lemma InsertMore(m: map<nat, nat>, v: nat, n: nat, p: nat, perm: nat)
    requires Unmapped(m, v, n)
    ensures v + n in Inserted(m, v, n, p, perm) <==> v + n in m
    ensures Inserted(m, v, n + 1, p, perm) == Inserted(m, v, n, p, perm)[v + n := Pte(p + n, WithV(perm))]
    ensures v + n !in m ==> Unmapped(m, v, n + 1)
  {
    hide Pte, WithV;
    InsertedAt(m, v, n, p, perm, v + n);
  }

  lemma EvolvedRoot(t: Tree, free: seq<nat>, ram: Ram, t': Tree, free': seq<nat>, ram': Ram)
    requires Evolved(t, free, ram, t', free', ram')
    ensures t'.root == t.root && ram'.Keys == ram.Keys && Took(free, free', Tables(t), Tables(t'))
  {
  }

  // ----- unmapping -----

  /** free after the pages fs were pushed one by one. */
  function Pushed(free: seq<nat>, fs: seq<nat>): (r: seq<nat>) {
    if fs == [] then free else [fs[|fs| - 1]] + Pushed(free, fs[..|fs| - 1])
  }

  lemma {:induction false} PushedSet(free: seq<nat>, fs: seq<nat>)
    ensures Set(Pushed(free, fs)) == Set(free) + Set(fs) && |Pushed(free, fs)| == |free| + |fs|
  {
    if fs != [] {
      var rest := fs[..|fs| - 1];
      PushedSet(free, rest);
      assert fs == rest + [fs[|fs| - 1]];
      assert Pushed(free, fs) == [fs[|fs| - 1]] + Pushed(free, rest);
      forall x | x in Set(free) + Set(fs)
        ensures x in Pushed(free, fs)
      {
        assert x != fs[|fs| - 1] ==> x in Set(Pushed(free, rest));
      }
      forall x | x in Set(Pushed(free, fs))
        ensures x in Set(free) + Set(fs)
      {
        assert x != fs[|fs| - 1] ==> x in Set(Pushed(free, rest));
      }
    }
  }

  /** The pages mapped in the range are the allocator's, in use, and each mapped once. */
  ghost predicate Owned(vm: Vm, t: Tree, v: nat, n: nat)
    reads vm
  {
    var fs := Frames(t.m, v, n);
    Distinct(fs) && forall k :: 0 <= k < |fs| ==> vm.lo <= fs[k] < vm.hi && fs[k] !in vm.free && fs[k] !in Tables(t)
  }

  /** Outside the tables and the pages fs memory is as it was. */
  ghost predicate Spared(ram: Ram, ram': Ram, ps: set<nat>, fs: seq<nat>) {
    ram'.Keys == ram.Keys && forall p :: p in ram && p !in ps && p !in fs ==> ram'[p] == ram[p]
  }

  lemma SparedTrans(r0: Ram, r1: Ram, r2: Ram, ps: set<nat>, f0: seq<nat>, f1: seq<nat>)
    requires Spared(r0, r1, ps, f0) && Spared(r1, r2, ps, f1)
    ensures Spared(r0, r2, ps, f0 + f1)
  {
  }

  /** *pte = 0 in the lowest-level table. */
  method ClearPte(vm: Vm, ghost t: Tree, table: nat, v: nat)
    requires vm.Valid() && vm.Holds(t) && v / ENTRIES in t.low && table == t.low[v / ENTRIES]
    modifies vm`ram
    ensures vm.Valid() && vm.Holds(t.(m := t.m - {v})) && Spared(old(vm.ram), vm.ram, Tables(t), [])
  {
    hide TreeOk, FreeList, Grew, Tables, Kept;
    vm.WritePte(t, table, v, 0);
  }

  /** One turn of uvmunmap. */
  method UnmapOne(vm: Vm, ghost t: Tree, root: nat, v: nat, doFree: bool) returns (panicked: bool)
    requires vm.Valid() && vm.Holds(t) && root == t.root
    requires doFree && v in t.m ==> var f := PpnOf(t.m[v]); vm.lo <= f < vm.hi && f !in vm.free && f !in Tables(t)
    modifies vm`ram, vm`freelist, vm`free
    ensures panicked <==> v >= MAXPAGE
    ensures !panicked ==> vm.Valid() && vm.Holds(t.(m := t.m - {v}))
    ensures !panicked ==> vm.free == if doFree && v in t.m then [PpnOf(t.m[v])] + old(vm.free) else old(vm.free)
    ensures !panicked ==> Spared(old(vm.ram), vm.ram, Tables(t), if doFree && v in t.m then [PpnOf(t.m[v])] else [])
  {
    hide TreeOk, FreeList, Tables, Entry, Grew, Kept, Valid;
    TableOf(vm.ram, t, v);
    var table;
    ghost var t1;
    panicked, table, t1 := vm.Walk(t, root, v, false);
    if panicked || table == 0 {
      assert !panicked ==> v !in t.m && t.(m := t.m - {v}) == t;
      return;
    }
    LeafRead(vm.ram, t, v);
    MapValid(vm.ram, t, v);
    var e := Entry(vm.ram[table], Px0(v));
    if !Valid(e) {
      assert t.(m := t.m - {v}) == t;
      return;
    }
    if doFree {
      var f := PpnOf(e);
      ghost var ram0, free0 := vm.ram, vm.free;
      TablesInRam(vm.ram, t);
      panicked := vm.Kfree(f * PGSIZE);
      SameTree(ram0, vm.ram, t);
      PushedOne(free0, f, t);
    }
    ClearPte(vm, t, table, v);
  }

  lemma PushedOne(free: seq<nat>, f: nat, t: Tree)
    requires Tables(t) !! Set(free) && f !in Tables(t)
    ensures Tables(t) !! Set([f] + free)
  {
  }

  lemma RemovedOne(m: map<nat, nat>, v: nat, k: nat)
    ensures Removed(m, v, k) - {v + k} == Removed(m, v, k + 1)
    ensures v + k in Removed(m, v, k) <==> v + k in m
    ensures v + k in m ==> Removed(m, v, k)[v + k] == m[v + k]
  {
  }

  lemma RemovedNone(m: map<nat, nat>, v: nat)
    ensures Removed(m, v, 0) == m
  {
  }

  /** The next page to free is in use still. */
  lemma NextOwned(m: map<nat, nat>, free: seq<nat>, v: nat, k: nat, n: nat)
    requires k < n && v + k in m && Distinct(Frames(m, v, n)) && forall f :: f in Frames(m, v, n) ==> f !in free
    ensures var f := PpnOf(m[v + k]); f in Frames(m, v, n) && f !in Pushed(free, Frames(m, v, k))
  {
    var fs, f := Frames(m, v, k), PpnOf(m[v + k]);
    FramesPrefix(m, v, k, n);
    FramesPrefix(m, v, k + 1, n);
    var all := Frames(m, v, n);
    assert Frames(m, v, k + 1) == fs + [f] && all[|fs|] == f;
    forall j | 0 <= j < |fs|
      ensures fs[j] != f
    {
      assert all[j] == fs[j];
    }
    PushedSet(free, fs);
    assert f in Pushed(free, fs) <==> f in Set(Pushed(free, fs));
    assert f !in Set(free) && f !in Set(fs);
  }

  lemma FramesStep(m: map<nat, nat>, v: nat, k: nat, free: seq<nat>)
    ensures Pushed(free, Frames(m, v, k + 1))
         == if v + k in m then [PpnOf(m[v + k])] + Pushed(free, Frames(m, v, k)) else Pushed(free, Frames(m, v, k))
  {
    var fs := Frames(m, v, k);
    if v + k in m {
      var more := Frames(m, v, k + 1);
      assert more == fs + [PpnOf(m[v + k])] && more[..|more| - 1] == fs;
    } else {
      assert Frames(m, v, k + 1) == fs;
    }
  }

  /** uvmunmap: the range is no longer mapped, and with doFree exactly the pages it was mapped to go
      back to the allocator, each once. The machine stops for an address inside a page and at the
      first page that is too high. */
  method UvmUnmap(vm: Vm, ghost t: Tree, root: nat, va: nat, npages: nat,
                  doFree: bool) returns (panicked: bool, ghost t': Tree)
    requires vm.Valid() && vm.Holds(t) && root == t.root && (doFree ==> Owned(vm, t, va / PGSIZE, npages))
    modifies vm`ram, vm`freelist, vm`free
    ensures panicked <==> va % PGSIZE != 0 || (npages > 0 && va / PGSIZE + npages > MAXPAGE)
    ensures !panicked ==> vm.Valid() && vm.Holds(t') && t' == t.(m := Removed(t.m, va / PGSIZE, npages))
    ensures !panicked ==>
              vm.free == if doFree then Pushed(old(vm.free), Frames(t.m, va / PGSIZE, npages)) else old(vm.free)
    ensures !panicked ==>
              Spared(old(vm.ram), vm.ram, Tables(t), if doFree then Frames(t.m, va / PGSIZE, npages) else [])
  {
    hide TreeOk, FreeList, Tables, Frames, Pushed, Removed, Distinct;
    t' := t;
    if va % PGSIZE != 0 {
      return true, t;
    }
    ghost var v0, free0, ram0 := va / PGSIZE, vm.free, vm.ram;
    var v, k := va / PGSIZE, 0;
    RemovedNone(t.m, v0);
    NoFrames(t.m, v0, free0);
    panicked := false;
    while k < npages
      invariant k <= npages && v == v0 + k && vm.Valid() && vm.Holds(t') && t' == t.(m := Removed(t.m, v0, k))
      invariant vm.free == if doFree then Pushed(free0, Frames(t.m, v0, k)) else free0
      invariant Spared(ram0, vm.ram, Tables(t), if doFree then Frames(t.m, v0, k) else [])
      invariant k > 0 ==> v <= MAXPAGE
    {
      RemovedOne(t.m, v0, k);
      if doFree && v in t.m {
        NextOwned(t.m, free0, v0, k, npages);
        SameTables(t, Removed(t.m, v0, k));
      }
      ghost var ram1 := vm.ram;
      panicked := UnmapOne(vm, t', root, v, doFree);
      if panicked {
        return;
      }
      SameTables(t, Removed(t.m, v0, k));
      FramesStep(t.m, v0, k, free0);
      FramesMore(t.m, v0, k);
      SparedTrans(ram0, ram1, vm.ram, Tables(t), if doFree then Frames(t.m, v0, k) else [],
                  if doFree && v in t.m then [PpnOf(t.m[v])] else []);
      t' := t.(m := Removed(t.m, v0, k + 1));
      v, k := v + 1, k + 1;
    }
  }

  lemma NoFrames(m: map<nat, nat>, v: nat, free: seq<nat>)
    ensures Frames(m, v, 0) == [] && Pushed(free, []) == free
  {
  }

  lemma FramesMore(m: map<nat, nat>, v: nat, k: nat)
    ensures Frames(m, v, k + 1) == Frames(m, v, k) + if v + k in m then [PpnOf(m[v + k])] else []
  {
  }

  lemma SameTables(t: Tree, m: map<nat, nat>)
    ensures Tables(t.(m := m)) == Tables(t)
  {
  }
}
