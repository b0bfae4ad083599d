/** freewalk: taking a page table apart. */
module VmFree {
  import opened Collections
  import opened VmPages
  import opened VmTree
  import opened VmCode

  /** The table pages below block key of a level, that table included. */
  ghost function Sub(t: Tree, level: nat, key: nat): (r: set<nat>)
    requires Here(t, level, key)
  {
    if level == 0 then {t.low[key]}
    else if level == 1 then {t.mid[key]} + LowsUnder(t, key)
    else Tables(t)
  }

  ghost function LowsUnder(t: Tree, key: nat): (r: set<nat>) {
    set k | k in t.low && k / ENTRIES == key :: t.low[k]
  }

  predicate Here(t: Tree, level: nat, key: nat) {
    if level == 0 then key in t.low else if level == 1 then key in t.mid else level == 2
  }

  function TableAt(t: Tree, level: nat, key: nat): (p: nat)
    requires Here(t, level, key)
  {
    if level == 0 then t.low[key] else if level == 1 then t.mid[key] else t.root
  }

  ghost predicate SubOk(ram: Ram, t: Tree, level: nat, key: nat)
    requires Here(t, level, key)
  {
    if level == 0 then LowTable(ram, t, key)
    else if level == 1 then MidTable(ram, t, key) && forall k :: k in t.low && k / ENTRIES == key ==>
                              LowTable(ram, t, k)
    else RootOk(ram, t) && MidOk(ram, t) && LowOk(ram, t)
  }

  /** The block of the table that entry i of a table leads to. */
  function ChildKey(level: nat, key: nat, i: nat): (k: nat) {
    if level == 2 then i else key * ENTRIES + i
  }

  predicate HasChild(t: Tree, level: nat, key: nat, i: nat) {
    1 <= level <= 2 && Here(t, level - 1, ChildKey(level, key, i))
  }

  /** Page v is mapped through this table. */
  predicate Under(level: nat, key: nat, v: nat) {
    if level == 0 then v / ENTRIES == key else if level == 1 then v / ENTRIES / ENTRIES == key else true
  }

  /** Lowest-level entries can be told from pointers to tables. */
  ghost predicate Leafy(t: Tree) {
    forall v :: v in t.m ==> FlagsOf(t.m[v]) / 2 % 8 != 0
  }

  lemma SubFrame(ram: Ram, ram': Ram, t: Tree, level: nat, key: nat)
    requires Here(t, level, key) && SubOk(ram, t, level, key) && Same(ram, ram', Sub(t, level, key))
    ensures SubOk(ram', t, level, key)
  {
    if level == 2 {
      assert t.root in Tables(t);
      forall i | i in t.mid
        ensures MidTable(ram', t, i)
      {
        assert MidTable(ram, t, i) && t.mid[i] in t.mid.Values && t.mid[i] in Tables(t);
      }
      forall k | k in t.low
        ensures LowTable(ram', t, k)
      {
        assert LowTable(ram, t, k) && t.low[k] in t.low.Values && t.low[k] in Tables(t);
      }
    } else if level == 1 {
      assert t.mid[key] in Sub(t, level, key);
      forall k | k in t.low && k / ENTRIES == key
        ensures LowTable(ram', t, k)
      {
        assert LowTable(ram, t, k) && t.low[k] in LowsUnder(t, key);
      }
    }
  }

  lemma ChildOk(ram: Ram, t: Tree, level: nat, key: nat, i: nat)
    requires Rooted(t) && Unshared(t) && Here(t, level, key)
    requires SubOk(ram, t, level, key) && i < ENTRIES && HasChild(t, level, key, i)
    ensures SubOk(ram, t, level - 1, ChildKey(level, key, i))
    ensures Sub(t, level - 1, ChildKey(level, key, i)) <= Sub(t, level, key)
    ensures TableAt(t, level, key) !in Sub(t, level - 1, ChildKey(level, key, i))
    ensures TableAt(t, level - 1, ChildKey(level, key, i)) in Sub(t, level - 1, ChildKey(level, key, i))
  {
    KeySplit(key, i);
    var c := ChildKey(level, key, i);
    if level == 2 {
      assert MidTable(ram, t, c) && t.mid[c] in t.mid.Values;
      forall k | k in t.low && k / ENTRIES == c
        ensures LowTable(ram, t, k) && t.low[k] in t.low.Values
      {
      }
    } else {
      assert t.low[c] in LowsUnder(t, key) && t.low[c] in t.low.Values && t.mid[key] in t.mid.Values;
    }
  }

  lemma ChildrenApart(t: Tree, level: nat, key: nat, i: nat, j: nat)
    requires Rooted(t) && Unshared(t) && Here(t, level, key) && i < ENTRIES && j < ENTRIES && i != j
    requires HasChild(t, level, key, i) && HasChild(t, level, key, j)
    ensures Sub(t, level - 1, ChildKey(level, key, i)) !! Sub(t, level - 1, ChildKey(level, key, j))
  {
    KeySplit(key, i);
    KeySplit(key, j);
    if level == 2 {
      LowsApart(t, i, j);
      assert t.mid[i] in t.mid.Values && t.mid[j] in t.mid.Values;
      LowsAreLows(t, i);
      LowsAreLows(t, j);
    }
  }

  lemma LowsApart(t: Tree, i: nat, j: nat)
    requires Unshared(t) && i != j
    ensures LowsUnder(t, i) !! LowsUnder(t, j)
  {
  }

  lemma LowsAreLows(t: Tree, i: nat)
    ensures LowsUnder(t, i) <= t.low.Values
  {
  }

  /** The pages below the first n entries. */
  ghost function Kids(t: Tree, level: nat, key: nat, n: nat): (r: set<nat>)
    requires n <= ENTRIES
  {
    if n == 0 then {}
    else Kids(t, level, key, n - 1) + if HasChild(t, level, key, n - 1) then Sub(t, level - 1,
                                                                                 ChildKey(level, key, n - 1)) else {}
  }

  lemma {:induction false} KidsHas(t: Tree, level: nat, key: nat, n: nat, i: nat)
    requires i < n <= ENTRIES && HasChild(t, level, key, i)
    ensures Sub(t, level - 1, ChildKey(level, key, i)) <= Kids(t, level, key, n)
  {
    if i < n - 1 {
      KidsHas(t, level, key, n - 1, i);
    }
  }

  lemma {:induction false} KidsInside(ram: Ram, t: Tree, level: nat, key: nat, n: nat)
    requires Rooted(t) && Unshared(t) && Here(t, level, key) && SubOk(ram, t, level, key) && n <= ENTRIES
    ensures Kids(t, level, key, n) <= Sub(t, level, key) && TableAt(t, level, key) !in Kids(t, level, key, n)
  {
    if n > 0 {
      KidsInside(ram, t, level, key, n - 1);
      if HasChild(t, level, key, n - 1) {
        ChildOk(ram, t, level, key, n - 1);
      }
    }
  }

  lemma {:induction false} KidsApart(t: Tree, level: nat, key: nat, n: nat, i: nat)
    requires Rooted(t) && Unshared(t) && Here(t, level, key) && n <= i < ENTRIES && HasChild(t, level, key, i)
    ensures Kids(t, level, key, n) !! Sub(t, level - 1, ChildKey(level, key, i))
  {
    if n > 0 {
      KidsApart(t, level, key, n - 1, i);
      if HasChild(t, level, key, n - 1) {
        ChildrenApart(t, level, key, n - 1, i);
      }
    }
  }

  /** A table and all that hangs from its entries is all there is below it. */
  lemma KidsAll(ram: Ram, t: Tree, level: nat, key: nat)
    requires Rooted(t) && Unshared(t) && Here(t, level, key) && SubOk(ram, t, level, key)
    ensures Kids(t, level, key, ENTRIES) + {TableAt(t, level, key)} == Sub(t, level, key)
  {
    KidsInside(ram, t, level, key, ENTRIES);
    assert TableAt(t, level, key) in Sub(t, level, key);
    forall p | p in Sub(t, level, key) && p != TableAt(t, level, key)
      ensures p in Kids(t, level, key, ENTRIES)
    {
      KidOf(t, level, key, p);
    }
  }

  lemma KidOf(t: Tree, level: nat, key: nat, p: nat)
    requires Rooted(t) && Here(t, level, key) && p in Sub(t, level, key) && p != TableAt(t, level, key)
    ensures p in Kids(t, level, key, ENTRIES)
  {
    if level == 1 {
      var k: nat :| k in t.low && k / ENTRIES == key && t.low[k] == p;
      KeyJoin(k);
      KidsHas(t, level, key, ENTRIES, k % ENTRIES);
    } else if p in t.mid.Values {
      var i: nat :| i in t.mid && t.mid[i] == p;
      KidsHas(t, level, key, ENTRIES, i);
    } else {
      var k: nat :| k in t.low && t.low[k] == p;
      assert t.low[k] in LowsUnder(t, k / ENTRIES);
      KidsHas(t, level, key, ENTRIES, k / ENTRIES);
    }
  }

  /** Outside ps memory is as it was. */
  ghost predicate Outside(ram: Ram, ram': Ram, ps: set<nat>) {
    ram'.Keys == ram.Keys && forall p :: p in ram && p !in ps ==> ram'[p] == ram[p]
  }

  predicate Rwx(e: nat) {
    FlagsOf(e) / 2 % 8 != 0
  }

  /** Which entry of the table page v goes through. */
  function IndexOf(level: nat, v: nat): (i: nat) {
    if level == 0 then v % ENTRIES else if level == 1 then v / ENTRIES % ENTRIES else v / ENTRIES / ENTRIES
  }

  /** What freewalk can tell from an entry: a table below, a mapping left over, or nothing. */
  lemma EntryTells(ram: Ram, t: Tree, level: nat, key: nat, i: nat)
    requires Rooted(t) && Leafy(t) && Here(t, level, key) && SubOk(ram, t, level, key) && i < ENTRIES
    ensures TableAt(t, level, key) in ram
    ensures var e := Entry(ram[TableAt(t, level, key)], i);
            && (Valid(e) && !Rwx(e) <==> HasChild(t, level, key, i))
            && (HasChild(t, level, key, i) ==> PpnOf(e) == TableAt(t, level - 1, ChildKey(level, key, i)))
            && (Valid(e) && Rwx(e) <==> level == 0 && key * ENTRIES + i in t.m)
  {
    hide Entry;
    var p := TableAt(t, level, key);
    if level == 0 {
      LeafTells(t, key * ENTRIES + i);
    } else if level == 1 {
      assert Entry(ram[p], i) == Down(t.low, key * ENTRIES + i);
      DownTells(t.low, key * ENTRIES + i);
    } else {
      assert Entry(ram[p], i) == Down(t.mid, i);
      DownTells(t.mid, i);
    }
  }

  lemma DownTells(tables: map<nat, nat>, k: nat)
    ensures Valid(Down(tables, k)) <==> k in tables
    ensures !Rwx(Down(tables, k)) && (k in tables ==> PpnOf(Down(tables, k)) == tables[k])
  {
    if k in tables {
      PteParts(tables[k], V);
    }
  }

  lemma LeafTells(t: Tree, v: nat)
    requires Rooted(t) && Leafy(t)
    ensures Valid(Leaf(t.m, v)) <==> v in t.m
    ensures v in t.m ==> Rwx(Leaf(t.m, v))
  {
  }

  /** A page mapped through this table goes through one of its entries. */
  lemma ThroughChild(t: Tree, level: nat, key: nat, v: nat)
    requires Rooted(t) && v in t.m && Under(level, key, v) && level <= 2
    ensures IndexOf(level, v) < ENTRIES
    ensures level == 0 ==> v == key * ENTRIES + IndexOf(0, v)
    ensures level > 0 ==>
              HasChild(t, level, key, IndexOf(level, v)) && Under(level - 1, ChildKey(level, key, IndexOf(level, v)), v)
  {
    KeyJoin(v);
    KeyJoin(v / ENTRIES);
  }

  lemma UnderChild(t: Tree, level: nat, key: nat, i: nat, v: nat)
    requires 1 <= level <= 2 && i < ENTRIES && Under(level - 1, ChildKey(level, key, i), v)
    ensures Under(level, key, v)
  {
    KeySplit(key, i);
  }

  /** Nothing is mapped through the first n entries. */
  ghost predicate NoneBefore(t: Tree, level: nat, key: nat, n: nat) {
    forall v :: v in t.m && Under(level, key, v) ==> n <= IndexOf(level, v)
  }

  lemma NoneHere(t: Tree, level: nat, key: nat, i: nat)
    requires Rooted(t) && level <= 2 && i < ENTRIES && NoneBefore(t, level, key, i)
    requires level == 0 ==> key * ENTRIES + i !in t.m
    requires level > 0 && HasChild(t, level, key, i) ==> forall v :: v in t.m ==> !Under(level - 1,
                                                                                         ChildKey(level, key, i), v)
    ensures NoneBefore(t, level, key, i + 1)
  {
    forall v | v in t.m && Under(level, key, v)
      ensures i + 1 <= IndexOf(level, v)
    {
      ThroughChild(t, level, key, v);
    }
  }

  /** The rest of the table, and the tables below it, are still in place. */
  ghost predicate Intact(ram0: Ram, ram: Ram, p: nat, i: nat) {
    p in ram0 && p in ram && forall j :: i <= j < ENTRIES ==> Entry(ram[p], j) == Entry(ram0[p], j)
  }

  /** pagetable[i] = 0. */
  method ClearEntry(vm: Vm, p: nat, i: nat, ghost ram0: Ram)
    requires vm.Valid() && p in vm.ram && p !in vm.free && i < ENTRIES && Intact(ram0, vm.ram, p, i)
    modifies vm`ram
    ensures vm.Valid() && Outside(old(vm.ram), vm.ram, {p}) && Intact(ram0, vm.ram, p, i + 1)
  {
    hide FreeList, Entry, SetEntry;
    ghost var ram1 := vm.ram;
    FreeInRam(vm.ram, vm.freelist, vm.free);
    vm.ram := vm.ram[p := SetEntry(vm.ram[p], i, 0)];
    forall j | i + 1 <= j < ENTRIES
      ensures Entry(vm.ram[p], j) == Entry(ram0[p], j)
    {
      EntrySetEntry(ram1[p], i, 0, j);
    }
    FreeKept(ram1, vm.ram, vm.freelist, vm.free);
  }

  /** The child at entry i is whole when freewalk gets to it. */
  lemma ChildReady(ram0: Ram, ram: Ram, free0: seq<nat>, free: seq<nat>, t: Tree, level: nat, key: nat, i: nat)
    requires Rooted(t) && Unshared(t) && Here(t, level, key)
    requires SubOk(ram0, t, level, key) && i < ENTRIES && HasChild(t, level, key, i)
    requires Outside(ram0, ram, Kids(t, level, key, i) + {TableAt(t, level, key)})
    requires Sub(t, level, key) !! Set(free0) && Set(free) == Set(free0) + Kids(t, level, key, i)
    requires forall p :: p in Sub(t, level, key) ==> p in ram0
    ensures SubOk(ram, t, level - 1, ChildKey(level, key, i))
    ensures Sub(t, level - 1, ChildKey(level, key, i)) !! Set(free)
    ensures Sub(t, level - 1, ChildKey(level, key, i)) <= Sub(t, level, key)
  {
    ChildOk(ram0, t, level, key, i);
    KidsApart(t, level, key, i, i);
    hide Rooted, Unshared, SubOk, Sub, Kids;
    SubFrame(ram0, ram, t, level - 1, ChildKey(level, key, i));
  }

  lemma OutsideMore(r0: Ram, r1: Ram, r2: Ram, ps: set<nat>, qs: set<nat>)
    requires Outside(r0, r1, ps) && Outside(r1, r2, qs)
    ensures Outside(r0, r2, ps + qs)
  {
  }

  lemma OutsideIn(r0: Ram, r1: Ram, ps: set<nat>, qs: set<nat>)
    requires Outside(r0, r1, ps) && ps <= qs
    ensures Outside(r0, r1, qs)
  {
  }

  lemma IntactStill(ram0: Ram, r1: Ram, r2: Ram, p: nat, i: nat, ps: set<nat>)
    requires Intact(ram0, r1, p, i) && Outside(r1, r2, ps) && p !in ps
    ensures Intact(ram0, r2, p, i)
  {
  }

  /** freewalk, on the table p of block key: every table page below it goes back to the allocator.
      It stops the machine exactly when some page is still mapped below. */
  method FreeWalk(vm: Vm, ghost t: Tree, ghost level: nat, ghost key: nat, p: nat) returns (panicked: bool)
    requires vm.Valid() && Rooted(t) && Unshared(t) && Leafy(t) && Here(t, level, key) && p == TableAt(t, level, key)
    requires SubOk(vm.ram, t, level, key) && Sub(t, level, key) !! Set(vm.free)
    requires forall x :: x in Sub(t, level, key) ==> x in vm.ram
    modifies vm`ram, vm`freelist, vm`free
    ensures panicked <==> exists v :: v in t.m && Under(level, key, v)
    ensures !panicked ==> vm.Valid() && Set(vm.free) == Set(old(vm.free)) + Sub(t, level, key)
    ensures !panicked ==> Outside(old(vm.ram), vm.ram, Sub(t, level, key))
    decreases level
  {
    hide Rooted, Unshared, Leafy, SubOk, Sub, Kids, Entry, FreeList, HasChild, Here, TableAt, Under, IndexOf, Set,
         PpnOf, Rwx, Valid, ChildKey;
    ghost var ram0, free0 := vm.ram, vm.free;
    WalkStart(ram0, free0, t, level, key);
    var i := 0;
    while i < ENTRIES
      invariant i <= ENTRIES && vm.Valid() && vm.ram.Keys == ram0.Keys
      invariant Set(vm.free) == Set(free0) + Kids(t, level, key, i)
      invariant Outside(ram0, vm.ram, Kids(t, level, key, i) + {p}) && Intact(ram0, vm.ram, p, i)
      invariant NoneBefore(t, level, key, i) && p !in Set(vm.free)
    {
      EntryTells(ram0, t, level, key, i);
      KidsStep(t, level, key, i);
      var e := Entry(vm.ram[p], i);
      if Valid(e) && !Rwx(e) {
        ghost var c, ram1, free1 := ChildKey(level, key, i), vm.ram, vm.free;
        ChildReady(ram0, vm.ram, free0, vm.free, t, level, key, i);
        ChildAt(ram0, t, level, key, i);
        panicked := FreeWalk(vm, t, level - 1, c, PpnOf(e));
        if panicked {
          LeafBelow(t, level, key, i);
          return;
        }
        SetIn(vm.free, p);
        IntactStill(ram0, ram1, vm.ram, p, i, Sub(t, level - 1, c));
        OutsideMore(ram0, ram1, vm.ram, Kids(t, level, key, i) + {p}, Sub(t, level - 1, c));
        ghost var ram2 := vm.ram;
        ClearEntry(vm, p, i, ram0);
        OutsideMore(ram0, ram2, vm.ram, Kids(t, level, key, i) + {p} + Sub(t, level - 1, c), {p});
        OutsideIn(ram0, vm.ram, Kids(t, level, key, i) + {p} + Sub(t, level - 1, c) + {p},
                  Kids(t, level, key, i + 1) + {p});
      } else if Valid(e) {
        LeafHere(t, level, key, i);
        return true;
      }
      NoneHere(t, level, key, i);
      i := i + 1;
    }
    NoneLeft(t, level, key);
    KidsAll(ram0, t, level, key);
    SetIn(vm.free, p);
    ghost var ram1, free1 := vm.ram, vm.free;
    panicked := vm.Kfree(p * PGSIZE);
    SetPush(free1, p);
    OutsideMore(ram0, ram1, vm.ram, Kids(t, level, key, ENTRIES) + {p}, {p});
    OutsideIn(ram0, vm.ram, Kids(t, level, key, ENTRIES) + {p} + {p}, Sub(t, level, key));
  }

  lemma SetIn(free: seq<nat>, p: nat)
    ensures p in Set(free) <==> p in free
  {
  }

  lemma SetPush(free: seq<nat>, p: nat)
    ensures Set([p] + free) == Set(free) + {p}
  {
  }

  lemma WalkStart(ram: Ram, free: seq<nat>, t: Tree, level: nat, key: nat)
    requires Here(t, level, key) && Sub(t, level, key) !! Set(free) && forall x :: x in Sub(t, level, key) ==> x in ram
    ensures Kids(t, level, key, 0) == {} && level <= 2 && NoneBefore(t, level, key, 0)
    ensures TableAt(t, level, key) in Sub(t, level, key)
    ensures TableAt(t, level, key) in ram && TableAt(t, level, key) !in Set(free)
    ensures Intact(ram, ram, TableAt(t, level, key), 0)
  {
  }

  lemma KidsStep(t: Tree, level: nat, key: nat, i: nat)
    requires i < ENTRIES
    ensures Kids(t, level, key, i + 1)
         == Kids(t, level, key, i) + if HasChild(t, level, key, i) then Sub(t, level - 1,
                                                                            ChildKey(level, key, i)) else {}
    ensures HasChild(t, level, key, i) ==> 1 <= level <= 2 && Here(t, level - 1, ChildKey(level, key, i))
  {
  }

  lemma ChildAt(ram: Ram, t: Tree, level: nat, key: nat, i: nat)
    requires Rooted(t) && Unshared(t) && Here(t, level, key)
    requires SubOk(ram, t, level, key) && i < ENTRIES && HasChild(t, level, key, i)
    ensures TableAt(t, level, key) !in Sub(t, level - 1, ChildKey(level, key, i))
  {
    ChildOk(ram, t, level, key, i);
  }

  lemma LeafBelow(t: Tree, level: nat, key: nat, i: nat)
    requires 1 <= level <= 2 && i < ENTRIES && exists v :: v in t.m && Under(level - 1, ChildKey(level, key, i), v)
    ensures exists v :: v in t.m && Under(level, key, v)
  {
    var v :| v in t.m && Under(level - 1, ChildKey(level, key, i), v);
    UnderChild(t, level, key, i, v);
  }

  lemma LeafHere(t: Tree, level: nat, key: nat, i: nat)
    requires level == 0 && i < ENTRIES && key * ENTRIES + i in t.m
    ensures exists v :: v in t.m && Under(level, key, v)
  {
    KeySplit(key, i);
    assert Under(0, key, key * ENTRIES + i);
  }

  lemma NoneLeft(t: Tree, level: nat, key: nat)
    requires Rooted(t) && level <= 2 && NoneBefore(t, level, key, ENTRIES)
    ensures !exists v :: v in t.m && Under(level, key, v)
  {
    forall v | v in t.m
      ensures !Under(level, key, v)
    {
      if Under(level, key, v) {
        ThroughChild(t, level, key, v);
      }
    }
  }
}
