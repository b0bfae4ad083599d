/** Making and freeing a process's page table. */
module VmProcess {
  import opened Collections
  import opened VmPages
  import opened VmTree
  import opened VmCode
  import opened VmMap
  import opened VmFree
  import opened VmSpace

  /** The virtual pages of the trampoline and of the trap frame. */
  const TRAMPOLINE := MAXPAGE - 1
  const TRAPFRAME := MAXPAGE - 2

  /** uvmcreate. */
  method UvmCreate(vm: Vm) returns (root: nat)
    requires vm.Valid()
    modifies vm`ram, vm`freelist, vm`free
    ensures vm.Valid() && (root == 0 <==> old(vm.free) == [])
    ensures root == 0 ==> vm.ram == old(vm.ram) && vm.free == old(vm.free)
    ensures root != 0 ==>
              vm.Holds(EmptyTree(root)) && root !in vm.free && Set(vm.free) + {root} == Set(old(vm.free))
              && |vm.free| + 1 == |old(vm.free)|
    ensures Kept(old(vm.ram), vm.ram, old(vm.free), {})
  {
    hide TreeOk, FreeList, Set, Distinct;
    ghost var ram0, free0 := vm.ram, vm.free;
    ListHead(ram0, vm.freelist, free0);
    root := vm.Kalloc();
    if root == 0 {
      return;
    }
    FrontSet(free0);
    SetIn(vm.free, root);
    FreeInRam(vm.ram, vm.freelist, vm.free);
    ghost var ram1 := vm.ram;
    vm.ram := vm.ram[root := Filled(0)];
    EmptyOk(vm.ram, root);
    EmptyTables(root);
    FreeApart(ram1, vm.ram, vm.free, root);
    FreeKept(ram1, vm.ram, vm.freelist, vm.free);
  }

  lemma EmptyTables(root: nat)
    ensures Tables(EmptyTree(root)) == {root}
  {
  }

  lemma FreeApart(ram: Ram, ram': Ram, free: seq<nat>, p: nat)
    requires p in ram && p in ram' && ram' == ram[p := ram'[p]] && p !in Set(free) && forall q :: q in Set(free) ==>
              q in ram
    ensures Same(ram, ram', Set(free))
  {
  }

  /** Nothing is mapped at or above page n. */
  ghost predicate Below(m: map<nat, nat>, n: nat) {
    forall v :: v in m ==> v < n
  }

  lemma UnmapAll(m: map<nat, nat>, n: nat)
    ensures (exists v :: v in Removed(m, 0, n) && Under(2, 0, v)) <==> !Below(m, n)
  {
    if v :| v in m && v >= n {
      assert v in Removed(m, 0, n) && Under(2, 0, v);
    }
  }

  lemma TreeSub(ram: Ram, t: Tree)
    requires TreeOk(ram, t)
    ensures Rooted(t) && Unshared(t) && Here(t, 2, 0) && SubOk(ram, t, 2, 0)
    ensures Sub(t, 2, 0) == Tables(t) && TableAt(t, 2, 0) == t.root
    ensures forall x :: x in Sub(t, 2, 0) ==> x in ram
  {
    TablesInRam(ram, t);
  }

  lemma LeafyRemoved(t: Tree, v: nat, n: nat)
    requires Leafy(t)
    ensures Leafy(t.(m := Removed(t.m, v, n)))
  {
  }

  /** uvmfree: user memory below the size and every table page go back. It stops the machine exactly
      when something is mapped above the rounded size. */
  method UvmFree(vm: Vm, ghost t: Tree, root: nat, sz: nat) returns (panicked: bool)
    requires vm.Valid() && vm.Holds(t) && root == t.root && Leafy(t)
    requires PageCount(sz) <= MAXPAGE && Owned(vm, t, 0, PageCount(sz))
    modifies vm`ram, vm`freelist, vm`free
    ensures panicked <==> !Below(t.m, PageCount(sz))
    ensures !panicked ==>
              vm.Valid() && Set(vm.free) == Set(old(vm.free)) + Tables(t) + Set(Frames(t.m, 0, PageCount(sz)))
    ensures !panicked ==> Outside(old(vm.ram), vm.ram, Tables(t) + Set(Frames(t.m, 0, PageCount(sz))))
  {
    hide TreeOk, FreeList, Tables, Frames, Pushed, Removed, Distinct, PageCount, Rooted, Unshared, SubOk, Sub, Here,
         TableAt, Leafy, Below, Set;
    ghost var n, free0, ram0 := PageCount(sz), vm.free, vm.ram;
    ghost var t1 := t;
    RemovedNone(t.m, 0);
    NoFrames(t.m, 0, free0);
    SpareNone(vm.ram, Tables(t));
    if sz > 0 {
      panicked, t1 := UvmUnmap(vm, t, root, 0, PageCount(sz), true);
    } else {
      NoPages();
    }
    PushedSet(free0, Frames(t.m, 0, n));
    SameTables(t, Removed(t.m, 0, n));
    LeafyRemoved(t, 0, n);
    TreeSub(vm.ram, t1);
    UnmapAll(t.m, n);
    ghost var ram1 := vm.ram;
    panicked := FreeWalk(vm, t1, 2, 0, root);
    if !panicked {
      SparedOutside(ram0, ram1, Tables(t), Frames(t.m, 0, n));
      OutsideMore(ram0, ram1, vm.ram, Tables(t) + Set(Frames(t.m, 0, n)), Tables(t));
      OutsideIn(ram0, vm.ram, Tables(t) + Set(Frames(t.m, 0, n)) + Tables(t), Tables(t) + Set(Frames(t.m, 0, n)));
    }
  }

  lemma NoPages()
    ensures PageCount(0) == 0
  {
  }

  lemma SpareNone(ram: Ram, ps: set<nat>)
    ensures Spared(ram, ram, ps, [])
  {
  }

  lemma SparedOutside(ram: Ram, ram': Ram, ps: set<nat>, fs: seq<nat>)
    requires Spared(ram, ram', ps, fs)
    ensures Outside(ram, ram', ps + Set(fs))
  {
  }

  /** Tables taken from the free list are the only change. */
  lemma EvolvedSet(t: Tree, free: seq<nat>, ram: Ram, t': Tree, free': seq<nat>, ram': Ram)
    requires Evolved(t, free, ram, t', free', ram')
    ensures Set(free') + Tables(t') == Set(free) + Tables(t) && t'.root == t.root
    ensures Outside(ram, ram', Set(free) + Tables(t))
  {
    TookSet(free, free', Tables(t), Tables(t'));
  }

  /** mappages of a single page. */
  method MapPage(vm: Vm, ghost t: Tree, root: nat, v: nat, p: nat, perm: nat) returns (ok: bool, ghost t': Tree)
    requires vm.Valid() && vm.Holds(t) && root == t.root && perm < 1024 && p < MAXPPN && v < MAXPAGE && v !in t.m
    modifies vm`ram, vm`freelist, vm`free
    ensures vm.Valid() && vm.Holds(t') && t'.root == root && Set(vm.free) + Tables(t') == Set(old(vm.free)) + Tables(t)
    ensures t'.m == if ok then t.m[v := Pte(p, WithV(perm))] else t.m
    ensures |vm.free| + 2 >= |old(vm.free)| && (!ok ==> |old(vm.free)| <= 2)
    ensures Outside(old(vm.ram), vm.ram, Set(old(vm.free)) + Tables(t))
  {
    hide TreeOk, FreeList, Tables, Evolved, Set, Inserted, WithV, Outside;
    PageCountUp(v);
    PageCountUp(p);
    PageCountUp(1);
    var r;
    ghost var done;
    r, t', done := MapPages(vm, t, root, v * PGSIZE, PGSIZE, p * PGSIZE, perm);
    EvolvedSet(t, old(vm.free), old(vm.ram), t', vm.free, vm.ram);
    InsertedOne(t.m, v, p, perm);
    return r.Done?, t';
  }

  lemma InsertedOne(m: map<nat, nat>, v: nat, p: nat, perm: nat)
    ensures Inserted(m, v, 0, p, perm) == m && Inserted(m, v, 1, p, perm) == m[v := Pte(p, WithV(perm))]
  {
  }

  /** uvmfree(pagetable, 0), when nothing is mapped. */
  method FreeEmpty(vm: Vm, ghost t: Tree, root: nat)
    requires vm.Valid() && vm.Holds(t) && root == t.root && t.m == map[]
    modifies vm`ram, vm`freelist, vm`free
    ensures vm.Valid() && Set(vm.free) == Set(old(vm.free)) + Tables(t)
    ensures Outside(old(vm.ram), vm.ram, Tables(t))
  {
    hide TreeOk, FreeList, Tables, Set, PageCount, Outside;
    NoPages();
    NoFrames(t.m, 0, vm.free);
    EmptySet();
    assert Frames(t.m, 0, 0) == [];
    var panicked := UvmFree(vm, t, root, 0);
    assert Tables(t) + {} == Tables(t);
  }

  lemma EmptySet()
    ensures Set([]) == {}
  {
  }

  /** proc_pagetable: a table with the trampoline and the trap frame mapped and nothing else; if
      memory runs out on the way, every page taken is free again. */
  method ProcPagetable(vm: Vm, trampoline: nat, trapframe: nat) returns (root: nat, ghost t: Tree)
    requires vm.Valid() && trampoline < MAXPPN && trapframe < MAXPPN
    modifies vm`ram, vm`freelist, vm`free
    ensures vm.Valid() && (root == 0 ==> Set(vm.free) == Set(old(vm.free)) && |old(vm.free)| <= 5)
    ensures root != 0 ==> vm.Holds(t) && t.root == root && Set(vm.free) + Tables(t) == Set(old(vm.free))
    ensures root != 0 ==> t.m == map[TRAMPOLINE := Pte(trampoline, V + R + X), TRAPFRAME := Pte(trapframe, V + R + W)]
    ensures Outside(old(vm.ram), vm.ram, Set(old(vm.free)))
  {
    hide TreeOk, FreeList, Tables, Set, Kept, Removed, Outside, Spared;
    ghost var ram0, all := vm.ram, Set(vm.free);
    root := UvmCreate(vm);
    KeptOutside(ram0, vm.ram, old(vm.free));
    t := EmptyTree(root);
    if root == 0 {
      return;
    }
    EmptyTables(root);
    var ok;
    ghost var ram1 := vm.ram;
    ok, t := MapPage(vm, t, root, TRAMPOLINE, trampoline, R + X);
    StillOutside(ram0, ram1, vm.ram, all, all);
    ghost var ram2 := vm.ram;
    if !ok {
      FreeEmpty(vm, t, root);
      StillOutside(ram0, ram2, vm.ram, Tables(t), all);
      return 0, t;
    }
    ok, t := MapPage(vm, t, root, TRAPFRAME, trapframe, R + W);
    StillOutside(ram0, ram2, vm.ram, all, all);
    if !ok {
      PageCountUp(TRAMPOLINE);
      ghost var m, ram3 := t.m, vm.ram;
      var panicked;
      panicked, t := UvmUnmap(vm, t, root, TRAMPOLINE * PGSIZE, 1, false);
      SameTables(t, m);
      SpareNone(vm.ram, Tables(t));
      UnmapTwice(ram3, vm.ram, vm.ram, Tables(t));
      StillOutside(ram0, ram3, vm.ram, Tables(t), all);
      RemovedOnly(m, TRAMPOLINE);
      ghost var ram4 := vm.ram;
      FreeEmpty(vm, t, root);
      StillOutside(ram0, ram4, vm.ram, Tables(t), all);
      return 0, t;
    }
  }

  lemma KeptOutside(ram: Ram, ram': Ram, free: seq<nat>)
    requires Kept(ram, ram', free, {})
    ensures Outside(ram, ram', Set(free))
  {
  }

  lemma StillOutside(r0: Ram, r1: Ram, r2: Ram, ps: set<nat>, all: set<nat>)
    requires Outside(r0, r1, all) && Outside(r1, r2, ps) && ps <= all
    ensures Outside(r0, r2, all)
  {
  }

  lemma RemovedOnly(m: map<nat, nat>, v: nat)
    requires forall u :: u in m ==> u == v
    ensures Removed(m, v, 1) == map[]
  {
  }

  /** The user's mappings: all below the size, apart from the trampoline and the trap frame. */
  ghost predicate UserOnly(m: map<nat, nat>, n: nat) {
    forall v :: v in m ==> v < n || v == TRAMPOLINE || v == TRAPFRAME
  }

  lemma FixedGone(m: map<nat, nat>, n: nat)
    requires n <= TRAPFRAME
    ensures var m2 := Removed(Removed(m, TRAMPOLINE, 1), TRAPFRAME, 1);
            && (Below(m2, n) <==> UserOnly(m, n)) && Frames(m2, 0, n) == Frames(m, 0, n)
  {
    var m2 := Removed(Removed(m, TRAMPOLINE, 1), TRAPFRAME, 1);
    FramesSame(m, m2, 0, n);
    if !UserOnly(m, n) {
      var v :| v in m && !(v < n || v == TRAMPOLINE || v == TRAPFRAME);
      assert v in m2;
    }
  }

  lemma UnmapTwice(ram0: Ram, ram1: Ram, ram2: Ram, ps: set<nat>)
    requires Spared(ram0, ram1, ps, []) && Spared(ram1, ram2, ps, [])
    ensures Outside(ram0, ram2, ps)
  {
  }

  /** proc_freepagetable: user memory below the size and the tables are freed, the trampoline and the
      trap frame are not. It stops the machine exactly when other mappings lie above the size. */
  method ProcFreePagetable(vm: Vm, ghost t: Tree, root: nat, sz: nat) returns (panicked: bool)
    requires vm.Valid() && vm.Holds(t) && root == t.root && Leafy(t)
    requires PageCount(sz) <= TRAPFRAME && Owned(vm, t, 0, PageCount(sz))
    modifies vm`ram, vm`freelist, vm`free
    ensures panicked <==> !UserOnly(t.m, PageCount(sz))
    ensures !panicked ==>
              vm.Valid() && Set(vm.free) == Set(old(vm.free)) + Tables(t) + Set(Frames(t.m, 0, PageCount(sz)))
    ensures !panicked ==> Outside(old(vm.ram), vm.ram, Tables(t) + Set(Frames(t.m, 0, PageCount(sz))))
  {
    hide TreeOk, FreeList, Tables, Set, Kept, Removed, PageCount, Outside, Spared, Leafy, Below, UserOnly, Frames,
         Distinct;
    ghost var n := PageCount(sz);
    PageCountUp(TRAMPOLINE);
    PageCountUp(TRAPFRAME);
    FixedGone(t.m, n);
    LeafyRemoved(t, TRAMPOLINE, 1);
    LeafyRemoved(t.(m := Removed(t.m, TRAMPOLINE, 1)), TRAPFRAME, 1);
    SameTables(t, Removed(t.m, TRAMPOLINE, 1));
    SameTables(t, Removed(Removed(t.m, TRAMPOLINE, 1), TRAPFRAME, 1));
    ghost var t1, t2;
    panicked, t1 := UvmUnmap(vm, t, root, TRAMPOLINE * PGSIZE, 1, false);
    ghost var ram1 := vm.ram;
    panicked, t2 := UvmUnmap(vm, t1, root, TRAPFRAME * PGSIZE, 1, false);
    UnmapTwice(old(vm.ram), ram1, vm.ram, Tables(t));
    ghost var ram2 := vm.ram;
    panicked := UvmFree(vm, t2, root, sz);
    if !panicked {
      OutsideMore(old(vm.ram), ram2, vm.ram, Tables(t), Tables(t) + Set(Frames(t.m, 0, n)));
      OutsideIn(old(vm.ram), vm.ram, Tables(t) + (Tables(t) + Set(Frames(t.m, 0, n))),
                Tables(t) + Set(Frames(t.m, 0, n)));
    }
  }
}
