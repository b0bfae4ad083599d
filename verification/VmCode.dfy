/** The page allocator, and the page-table code that works on entries in memory. */
module VmCode {
  import opened Collections
  import opened Bytes
  import opened VmPages
  import opened VmTree

  /** The address of page free[k], or the null pointer at the end. */
  function Addr(free: seq<nat>, k: nat): (a: nat) {
    if k < |free| then free[k] * PGSIZE else 0
  }

  ghost predicate FreeAt(ram: Ram, free: seq<nat>, k: nat)
    requires k < |free|
  {
    && 0 < free[k] < MAXPPN && free[k] in ram
    && Get(ram[free[k]], 0, 8) == Addr(free, k + 1)
  }

  /** The free pages hang together from freelist through their first words. */
  ghost predicate FreeList(ram: Ram, freelist: nat, free: seq<nat>) {
    freelist == Addr(free, 0) && Distinct(free) && forall k :: 0 <= k < |free| ==> FreeAt(ram, free, k)
  }

  lemma FreeInRam(ram: Ram, freelist: nat, free: seq<nat>)
    requires FreeList(ram, freelist, free)
    ensures Distinct(free) && forall p :: p in Set(free) ==> p in ram
  {
    forall p | p in Set(free)
      ensures p in ram
    {
      var k :| 0 <= k < |free| && free[k] == p;
      assert FreeAt(ram, free, k);
    }
  }

  lemma ListHead(ram: Ram, freelist: nat, free: seq<nat>)
    requires FreeList(ram, freelist, free)
    ensures freelist == 0 <==> free == []
    ensures free != [] ==>
              freelist / PGSIZE == free[0] && free[0] in ram && 0 < free[0] < MAXPPN
              && Get(ram[free[0]], 0, 8) == Addr(free, 1)
    ensures Distinct(free) && freelist == Addr(free, 0)
  {
    assert free != [] ==> FreeAt(ram, free, 0);
  }

  lemma FreeTail(ram: Ram, ram': Ram, freelist: nat, free: seq<nat>)
    requires FreeList(ram, freelist, free) && free != [] && Same(ram, ram', Set(free[1..]))
    ensures FreeList(ram', Addr(free, 1), free[1..])
  {
    var rest := free[1..];
    forall k | 0 <= k < |rest|
      ensures FreeAt(ram', rest, k)
    {
      assert FreeAt(ram, free, k + 1) && rest[k] in Set(rest);
    }
  }

  lemma FreeHead(ram: Ram, ram': Ram, freelist: nat, free: seq<nat>, p: nat)
    requires FreeList(ram, freelist, free) && p !in free && 0 < p < MAXPPN && p in ram'
    requires ram'[p] == Put(Filled(1), 0, 8, freelist) && Same(ram, ram', Set(free))
    ensures FreeList(ram', p * PGSIZE, [p] + free)
  {
    var more := [p] + free;
    EightBytes();
    assert freelist < Pow256(8) by {
      assert free != [] ==> FreeAt(ram, free, 0);
    }
    GetPutSame(Filled(1), 0, 8, freelist);
    forall k | 0 <= k < |more|
      ensures FreeAt(ram', more, k)
    {
      if k > 0 {
        assert FreeAt(ram, free, k - 1) && free[k - 1] in Set(free);
      }
    }
  }

  /** Writes outside the free pages do not disturb the list. */
  lemma FreeKept(ram: Ram, ram': Ram, freelist: nat, free: seq<nat>)
    requires FreeList(ram, freelist, free) && Same(ram, ram', Set(free))
    ensures FreeList(ram', freelist, free)
  {
    forall k | 0 <= k < |free|
      ensures FreeAt(ram', free, k)
    {
      assert FreeAt(ram, free, k) && free[k] in Set(free);
    }
  }

  // ----- growing a table -----

  /** From t to t' tables were taken off the front of the free list; none was dropped. */
  ghost predicate Grew(t: Tree, free: seq<nat>, t': Tree, free': seq<nat>) {
    && t'.root == t.root
    && (forall i :: i in t.mid ==> i in t'.mid && t'.mid[i] == t.mid[i])
    && (forall k :: k in t.low ==> k in t'.low && t'.low[k] == t.low[k])
    && Took(free, free', Tables(t), Tables(t'))
  }

  /** free' is free without its front, which went to ps. */
  ghost predicate Took(free: seq<nat>, free': seq<nat>, ps: set<nat>, ps': set<nat>) {
    && |free'| <= |free| && free' == free[|free| - |free'|..]
    && ps' == ps + Set(free[..|free| - |free'|])
  }

  lemma TookTrans(f0: seq<nat>, f1: seq<nat>, f2: seq<nat>, p0: set<nat>, p1: set<nat>, p2: set<nat>)
    requires Took(f0, f1, p0, p1) && Took(f1, f2, p1, p2)
    ensures Took(f0, f2, p0, p2)
  {
    var a, b := |f0| - |f1|, |f1| - |f2|;
    assert f0[..a + b] == f0[..a] + f1[..b];
  }

  lemma GrewTrans(t0: Tree, f0: seq<nat>, t1: Tree, f1: seq<nat>, t2: Tree, f2: seq<nat>)
    requires Grew(t0, f0, t1, f1) && Grew(t1, f1, t2, f2)
    ensures Grew(t0, f0, t2, f2)
  {
    hide Tables, Took;
    TookTrans(f0, f1, f2, Tables(t0), Tables(t1), Tables(t2));
  }

  /** Pages that are neither free nor tables stay as they are. */
  ghost predicate Kept(ram: Ram, ram': Ram, free: seq<nat>, ps: set<nat>) {
    ram'.Keys == ram.Keys && forall p :: p in ram && p !in free && p !in ps ==> p in ram' && ram'[p] == ram[p]
  }

  lemma KeptTrans(r0: Ram, r1: Ram, r2: Ram, f0: seq<nat>, f1: seq<nat>, p0: set<nat>, p1: set<nat>)
    requires Kept(r0, r1, f0, p0) && Kept(r1, r2, f1, p1) && Took(f0, f1, p0, p1)
    ensures Kept(r0, r2, f0, p0)
  {
    forall p | p in r0 && p !in f0 && p !in p0
      ensures p in r2 && r2[p] == r0[p]
    {
      assert p !in f1 && p !in Set(f0[..|f0| - |f1|]);
    }
  }

  /** The table one level below on the way to page v. */
  predicate HasNext(t: Tree, level: nat, v: nat) {
    if level == 2 then Px2(v) in t.mid else v / ENTRIES in t.low
  }

  function Next(t: Tree, level: nat, v: nat): (p: nat)
    requires HasNext(t, level, v)
  {
    if level == 2 then t.mid[Px2(v)] else t.low[v / ENTRIES]
  }

  /** p is the table of this level on the way to page v. */
  predicate At(t: Tree, level: nat, v: nat, p: nat) {
    match level
    case 2 => p == t.root
    case 1 => Px2(v) in t.mid && p == t.mid[Px2(v)]
    case 0 => v / ENTRIES in t.low && p == t.low[v / ENTRIES]
    case _ => false
  }

  function Px(level: nat, v: nat): (i: nat) {
    if level == 2 then Px2(v) else if level == 1 then Px1(v) else Px0(v)
  }

  function WithNext(t: Tree, level: nat, v: nat, p: nat): (t': Tree) {
    if level == 2 then t.(mid := t.mid[Px2(v) := p]) else t.(low := t.low[v / ENTRIES := p])
  }

  lemma LevelRead(ram: Ram, t: Tree, level: nat, v: nat, p: nat)
    requires TreeOk(ram, t) && v < MAXPAGE && 1 <= level <= 2 && At(t, level, v, p)
    ensures p in ram && p in Tables(t) && Px(level, v) < ENTRIES
    ensures var e := Entry(ram[p], Px(level, v));
            (Valid(e) <==> HasNext(t, level, v)) && (HasNext(t, level, v) ==> PpnOf(e) == Next(t, level, v) > 0)
  {
    IndexSplit(v);
    if level == 2 {
      RootRead(ram, t, Px2(v));
    } else {
      MidRead(ram, t, v / ENTRIES);
    }
  }

  lemma LevelAdd(ram: Ram, t: Tree, level: nat, v: nat, p: nat, q: nat)
    requires TreeOk(ram, t) && v < MAXPAGE && 1 <= level <= 2 && At(t, level, v, p) && !HasNext(t, level, v)
    requires q !in Tables(t) && 0 < q < MAXPPN && q in ram && ram[q] == Filled(0)
    ensures p in ram && Px(level, v) < ENTRIES
    ensures TreeOk(ram[p := SetEntry(ram[p], Px(level, v), Pte(q, V))], WithNext(t, level, v, q))
    ensures Tables(WithNext(t, level, v, q)) == Tables(t) + {q}
  {
    IndexSplit(v);
    if level == 2 {
      AddMidOk(ram, t, Px2(v), q);
      AddMidUnshared(t, Px2(v), q);
    } else {
      AddLowOk(ram, t, v / ENTRIES, q);
      AddLowUnshared(t, v / ENTRIES, q);
    }
  }

  lemma FrontSet(free: seq<nat>)
    requires free != []
    ensures Set(free[..1]) == {free[0]} && free[0] in Set(free) && Set(free) == {free[0]} + Set(free[1..])
    ensures Distinct(free) ==> free[0] !in Set(free[1..])
  {
    assert free == [free[0]] + free[1..];
  }

  lemma GrewRefl(t: Tree, free: seq<nat>)
    ensures Grew(t, free, t, free)
  {
    assert free[..0] == [];
  }

  lemma KeptRefl(ram: Ram, free: seq<nat>, ps: set<nat>)
    ensures Kept(ram, ram, free, ps)
  {
  }

  /** The rest of the free list is not touched by the new table. */
  lemma TableFree(ram: Ram, ram': Ram, free: seq<nat>, q: nat, p: nat, ps: set<nat>)
    requires free != [] && q == free[0] && Distinct(free) && p in ps && ps !! Set(free) && ram'.Keys == ram.Keys
    requires forall x :: x in ram && x != q && x != p ==> ram'[x] == ram[x]
    requires forall x :: x in Set(free) ==> x in ram
    ensures Same(ram, ram', Set(free[1..]))
  {
    FrontSet(free);
  }

  /** Memory in which page q is a zeroed table below table p. */
  function Tabled(ram: Ram, p: nat, i: nat, q: nat): (ram': Ram)
    requires p in ram && p != q && i < ENTRIES
  {
    ram[q := Filled(0)][p := SetEntry(ram[p], i, Pte(q, V))]
  }

  lemma AddTree(ram: Ram, t: Tree, level: nat, v: nat, p: nat, q: nat)
    requires TreeOk(ram, t) && v < MAXPAGE && 1 <= level <= 2 && At(t, level, v, p) && !HasNext(t, level, v)
    requires 0 < q < MAXPPN && q in ram && q !in Tables(t)
    ensures p in ram && p in Tables(t) && Px(level, v) < ENTRIES
    ensures TreeOk(Tabled(ram, p, Px(level, v), q), WithNext(t, level, v, q))
    ensures Tables(WithNext(t, level, v, q)) == Tables(t) + {q}
  {
    LevelRead(ram, t, level, v, p);
    TablesInRam(ram, t);
    hide TreeOk, SetEntry, Entry, Tables;
    var ram1 := ram[q := Filled(0)];
    SameTree(ram, ram1, t);
    LevelAdd(ram1, t, level, v, p, q);
  }

  lemma AddGrew(free: seq<nat>, t: Tree, level: nat, v: nat)
    requires !HasNext(t, level, v) && free != [] && 1 <= level <= 2 && v < MAXPAGE
    requires Tables(WithNext(t, level, v, free[0])) == Tables(t) + {free[0]}
    ensures Grew(t, free, WithNext(t, level, v, free[0]), free[1..])
    ensures At(WithNext(t, level, v, free[0]), level - 1, v, free[0]) && WithNext(t, level, v, free[0]).m == t.m
  {
    hide Tables, Px2;
    FrontSet(free);
    assert |free| - |free[1..]| == 1;
  }

  /** The first free page becomes the table below p on the way to page v. */
  lemma AddTable(ram: Ram, free: seq<nat>, t: Tree, level: nat, v: nat, p: nat)
    requires TreeOk(ram, t) && v < MAXPAGE && 1 <= level <= 2 && At(t, level, v, p) && !HasNext(t, level, v)
    requires free != [] && Distinct(free) && 0 < free[0] < MAXPPN && free[0] in ram && Tables(t) !! Set(free)
    ensures p in ram && p in Tables(t) && p != free[0] && Px(level, v) < ENTRIES
    ensures var ram', t' := Tabled(ram, p, Px(level, v), free[0]), WithNext(t, level, v, free[0]);
            && TreeOk(ram', t') && Tables(t') !! Set(free[1..]) && Grew(t, free, t', free[1..])
            && Kept(ram, ram', free, Tables(t)) && At(t', level - 1, v, free[0]) && t'.m == t.m
  {
    hide TreeOk, SetEntry, Tables, At, HasNext, WithNext, Grew;
    FrontSet(free);
    AddTree(ram, t, level, v, p, free[0]);
    AddGrew(free, t, level, v);
  }

  lemma GrewTook(t: Tree, free: seq<nat>, t': Tree, free': seq<nat>)
    requires Grew(t, free, t', free')
    ensures Took(free, free', Tables(t), Tables(t'))
  {
  }

  lemma GrewMore(t0: Tree, f0: seq<nat>, r0: Ram, t1: Tree, f1: seq<nat>, r1: Ram, t2: Tree, f2: seq<nat>, r2: Ram)
    requires Grew(t0, f0, t1, f1) && Kept(r0, r1, f0, Tables(t0))
    requires Grew(t1, f1, t2, f2) && Kept(r1, r2, f1, Tables(t1))
    ensures Grew(t0, f0, t2, f2) && Kept(r0, r2, f0, Tables(t0))
  {
    hide Grew, Kept, Tables, Took;
    GrewTrans(t0, f0, t1, f1, t2, f2);
    GrewTook(t0, f0, t1, f1);
    KeptTrans(r0, r1, r2, f0, f1, Tables(t0), Tables(t1));
  }

  lemma AtRoot(t: Tree, v: nat)
    ensures At(t, 2, v, t.root)
  {
  }

  lemma NoLeafTable(ram: Ram, t: Tree, free: seq<nat>, t': Tree, free': seq<nat>, level: nat, v: nat)
    requires Grew(t, free, t', free') && TreeOk(ram, t') && 1 <= level <= 2 && !HasNext(t', level, v)
    ensures v / ENTRIES !in t.low
  {
    IndexSplit(v);
  }

  lemma AtLowest(ram: Ram, t: Tree, v: nat, p: nat)
    requires TreeOk(ram, t) && At(t, 0, v, p)
    ensures v / ENTRIES in t.low && p == t.low[v / ENTRIES] && p != 0
  {
  }

  lemma LeafTables(t: Tree, v: nat, e: nat)
    ensures Tables(Leaved(t, v, e)) == Tables(t)
    ensures v / ENTRIES in t.low ==> t.low[v / ENTRIES] in Tables(t)
  {
  }

  lemma LeafGrew(t: Tree, v: nat, e: nat, free: seq<nat>)
    ensures Grew(t, free, Leaved(t, v, e), free)
  {
    assert free[..0] == [];
  }

  lemma LeafKept(ram: Ram, ram': Ram, free: seq<nat>, t: Tree, p: nat)
    requires p in ram && p in ram' && p in Tables(t) && ram' == ram[p := ram'[p]]
    ensures Kept(ram, ram', free, Tables(t))
  {
  }

  // ----- ranges of mappings -----

  /** m with n pages from v mapped to the pages from p. */
  function Inserted(m: map<nat, nat>, v: nat, n: nat, p: nat, flags: nat): (m': map<nat, nat>) {
    if n == 0 then m else Inserted(m, v, n - 1, p, flags)[v + n - 1 := Pte(p + n - 1, WithV(flags))]
  }

  lemma {:induction false} InsertedAt(m: map<nat, nat>, v: nat, n: nat, p: nat, flags: nat, u: nat)
    ensures u in Inserted(m, v, n, p, flags) <==> u in m || v <= u < v + n
    ensures u in Inserted(m, v, n, p, flags) ==>
              Inserted(m, v, n, p, flags)[u] == if v <= u < v + n then Pte(p + (u - v), WithV(flags)) else m[u]
  {
    if n > 0 {
      InsertedAt(m, v, n - 1, p, flags, u);
    }
  }

  /** m without the n pages from v. */
  function Removed(m: map<nat, nat>, v: nat, n: nat): (m': map<nat, nat>) {
    map u | u in m && !(v <= u < v + n) :: m[u]
  }

  /** The physical pages mapped in the range, in address order. */
  function Frames(m: map<nat, nat>, v: nat, n: nat): (f: seq<nat>) {
    if n == 0 then [] else Frames(m, v, n - 1) + (if v + n - 1 in m then [PpnOf(m[v + n - 1])] else [])
  }

  lemma {:induction false} FramesHas(m: map<nat, nat>, v: nat, n: nat, u: nat)
    requires v <= u < v + n && u in m
    ensures PpnOf(m[u]) in Frames(m, v, n)
  {
    if u < v + n - 1 {
      FramesHas(m, v, n - 1, u);
    }
  }

  lemma {:induction false} FramesPrefix(m: map<nat, nat>, v: nat, k: nat, n: nat)
    requires k <= n
    ensures Frames(m, v, k) <= Frames(m, v, n)
  {
    if k < n {
      FramesPrefix(m, v, k, n - 1);
    }
  }

  class Vm {
    var ram: Ram
    var freelist: nat
    ghost var free: seq<nat>
    /** The pages from the end of the kernel to PHYSTOP. */
    const lo: nat
    const hi: nat

    ghost predicate Valid()
      reads this
    {
      0 < lo <= hi <= MAXPPN && (forall p :: p in ram <==> lo <= p < hi) && FreeList(ram, freelist, free)
    }

    /** kalloc. The null pointer is page 0. */
    method Kalloc() returns (p: nat)
      requires Valid()
      modifies this`ram, this`freelist, this`free
      ensures Valid() && (p == 0 <==> old(free) == [])
      ensures p == 0 ==> ram == old(ram) && free == old(free)
      ensures p != 0 ==> p == old(free)[0] && free == old(free)[1..] && ram == old(ram)[p := Filled(5)] && lo <= p < hi
    {
      hide FreeList, Get;
      ListHead(ram, freelist, free);
      if freelist == 0 {
        return 0;
      }
      FrontSet(free);
      p := freelist / PGSIZE;
      ghost var was := ram;
      freelist := Get(ram[p], 0, 8);
      ram := ram[p := Filled(5)];
      FreeInRam(was, Addr(free, 0), free);
      FreeTail(was, ram, Addr(free, 0), free);
      free := free[1..];
    }

    /** kfree: stops the machine for an address that is no page of the allocator's. */
    method Kfree(pa: nat) returns (panicked: bool)
      requires Valid() && pa / PGSIZE !in free
      modifies this`ram, this`freelist, this`free
      ensures panicked <==> pa % PGSIZE != 0 || !(lo <= pa / PGSIZE < hi)
      ensures panicked ==> ram == old(ram) && free == old(free) && freelist == old(freelist)
      ensures !panicked ==> Valid() && free == [pa / PGSIZE] + old(free) && pa / PGSIZE in ram
      ensures !panicked ==> forall k :: 8 <= k < PGSIZE ==> ram[pa / PGSIZE][k] == 1
      ensures !panicked ==> ram.Keys == old(ram).Keys && forall q :: q in ram && q != pa / PGSIZE ==>
                ram[q] == old(ram)[q]
    {
      if pa % PGSIZE != 0 || pa / PGSIZE < lo || pa / PGSIZE >= hi {
        return true;
      }
      var p := pa / PGSIZE;
      ghost var was := ram;
      ram := ram[p := Put(Filled(1), 0, 8, freelist)];
      FreeInRam(was, freelist, free);
      FreeHead(was, ram, freelist, free, p);
      freelist := pa;
      free := [p] + free;
      return false;
    }

    /** The machine's memory holds tree t, apart from the free pages. */
    ghost predicate Holds(t: Tree)
      reads this
    {
      TreeOk(ram, t) && Tables(t) !! Set(free)
    }

    /** One turn of walk's loop: from the table p of a level to the one below, made if need be. */
    method Descend(ghost t: Tree, level: nat, v: nat, p: nat, alloc: bool) returns (q: nat, ghost t': Tree)
      requires Valid() && Holds(t) && v < MAXPAGE && 1 <= level <= 2 && At(t, level, v, p)
      modifies this`ram, this`freelist, this`free
      ensures Valid() && Holds(t') && Grew(t, old(free), t', free) && Kept(old(ram), ram, old(free), Tables(t))
      ensures t'.m == t.m && (q != 0 ==> At(t', level - 1, v, q))
      ensures q == 0 ==> !HasNext(t, level, v) && t' == t && (alloc ==> old(free) == free == [])
      ensures |free| + 1 >= |old(free)|
      ensures !alloc ==> ram == old(ram) && free == old(free) && t' == t
    {
      LevelRead(ram, t, level, v, p);
      IndexSplit(v);
      hide TreeOk, FreeList;
      var e := Entry(ram[p], Px(level, v));
      t' := t;
      if VmPages.Valid(e) {
        q := PpnOf(e);
        return;
      }
      if !alloc {
        q := 0;
        return;
      }
      q, t' := NewTable(t, level, v, p);
    }

    method NewTable(ghost t: Tree, level: nat, v: nat, p: nat) returns (q: nat, ghost t': Tree)
      requires Valid() && Holds(t) && v < MAXPAGE && 1 <= level <= 2 && At(t, level, v, p) && !HasNext(t, level, v)
      modifies this`ram, this`freelist, this`free
      ensures Valid() && Holds(t') && Grew(t, old(free), t', free) && Kept(old(ram), ram, old(free), Tables(t))
      ensures t'.m == t.m && (q != 0 ==> At(t', level - 1, v, q))
      ensures q == 0 ==> t' == t && free == [] && old(free) == []
      ensures |free| + 1 >= |old(free)|
    {
      hide TreeOk, FreeList, SetEntry, Entry, At, HasNext, WithNext, Grew, Kept, Pte, Same;
      LevelRead(ram, t, level, v, p);
      ghost var ram0, free0 := ram, free;
      FreeInRam(ram, freelist, free);
      q := Kalloc();
      t' := t;
      if q == 0 {
        GrewRefl(t, free);
        KeptRefl(ram, free, Tables(t));
        return;
      }
      AddTable(ram0, free0, t, level, v, p);
      ghost var ram1 := ram;
      ram := ram[q := Filled(0)];
      ram := ram[p := SetEntry(ram[p], Px(level, v), Pte(q, V))];
      assert ram == Tabled(ram0, p, Px(level, v), q);
      t' := WithNext(t, level, v, q);
      TableFree(ram1, ram, free0, q, p, Tables(t));
      FreeKept(ram1, ram, freelist, free);
    }

    /** walk: the page that holds the lowest-level entry of page v, or 0. */
    method Walk(ghost t: Tree, root: nat, v: nat, alloc: bool) returns (panicked: bool, p: nat, ghost t': Tree)
      requires Valid() && Holds(t) && root == t.root
      modifies this`ram, this`freelist, this`free
      ensures Valid() && Holds(t') && (panicked <==> v >= MAXPAGE)
      ensures Grew(t, old(free), t', free) && Kept(old(ram), ram, old(free), Tables(t)) && t'.m == t.m
      ensures !alloc || panicked ==> ram == old(ram) && free == old(free) && t' == t
      ensures !panicked ==> if p != 0 then v / ENTRIES in t'.low && p == t'.low[v / ENTRIES] else v / ENTRIES !in t.low
      ensures !panicked && p == 0 && alloc ==> free == [] && |old(free)| <= 1
      ensures |free| + 2 >= |old(free)|
    {
      hide TreeOk, FreeList, Grew, Kept, Tables, At, HasNext;
      t', p := t, root;
      AtRoot(t, v);
      GrewRefl(t, free);
      KeptRefl(ram, free, Tables(t));
      if v >= MAXPAGE {
        return true, 0, t;
      }
      panicked := false;
      var level := 2;
      while level > 0
        invariant level <= 2 && Valid() && Holds(t') && At(t', level, v, p) && t'.m == t.m
        invariant Grew(t, old(free), t', free) && Kept(old(ram), ram, old(free), Tables(t))
        invariant !alloc ==> ram == old(ram) && free == old(free) && t' == t
        invariant |free| + (2 - level) >= |old(free)|
      {
        ghost var t1, ram1, free1 := t', ram, free;
        p, t' := Descend(t1, level, v, p, alloc);
        GrewMore(t, old(free), old(ram), t1, free1, ram1, t', free, ram);
        if p == 0 {
          NoLeafTable(ram1, t, old(free), t1, free1, level, v);
          return;
        }
        level := level - 1;
      }
      AtLowest(ram, t', v, p);
    }

    /** *pte = e, for the entry of page v in the lowest-level table p. */
    method WritePte(ghost t: Tree, p: nat, v: nat, e: nat)
      requires Valid() && Holds(t) && v / ENTRIES in t.low && p == t.low[v / ENTRIES]
      requires e < TWO64 && (e == 0 || VmPages.Valid(e))
      modifies this`ram
      ensures Valid() && Holds(Leaved(t, v, e)) && Grew(t, free, Leaved(t, v, e), free)
      ensures Kept(old(ram), ram, free, Tables(t))
      ensures p in Tables(t) && p in old(ram) && p in ram && ram == old(ram)[p := ram[p]]
    {
      hide TreeOk, FreeList, SetEntry, Grew, Kept;
      LeafWriteOk(ram, t, v, e);
      ghost var ram0 := ram;
      FreeInRam(ram, freelist, free);
      ram := ram[p := SetEntry(ram[p], Px0(v), e)];
      assert ram == LeafWrite(ram0, t, v, e);
      LeafTables(t, v, e);
      FreeKept(ram0, ram, freelist, free);
      LeafGrew(t, v, e, free);
      LeafKept(ram0, ram, free, t, p);
    }

    /** kinit, on memory with any contents: freerange puts every page on the list. */
    constructor (ram: Ram, lo: nat, hi: nat)
      requires 0 < lo <= hi <= MAXPPN && forall p :: p in ram <==> lo <= p < hi
      ensures Valid() && this.lo == lo && this.hi == hi && forall q :: q in free <==> lo <= q < hi
    {
      this.lo, this.hi, this.ram := lo, hi, ram;
      freelist, free := 0, [];
      new;
      var p := lo;
      while p < hi
        invariant lo <= p <= hi && Valid() && forall q :: q in free <==> lo <= q < p
      {
        var panicked := Kfree(p * PGSIZE);
        assert !panicked;
        p := p + 1;
      }
    }
  }
}
