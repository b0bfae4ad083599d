/** A three-level page table in physical memory, and the map from virtual pages to entries that it
    stands for. */
module VmTree {
  import opened VmPages

  /** root, and the tables below it: mid by the index in the root, low by the number of the block of
      512 virtual pages they serve. m holds the valid entries of the lowest level. */
  datatype Tree = Tree(root: nat, mid: map<nat, nat>, low: map<nat, nat>, m: map<nat, nat>)

  /** The entry of an interior table that points to table p, or nothing. */
  function Down(tables: map<nat, nat>, k: nat): (e: nat) {
    if k in tables then Pte(tables[k], V) else 0
  }

  function Leaf(m: map<nat, nat>, v: nat): (e: nat) {
    if v in m then m[v] else 0
  }

  ghost predicate RootOk(ram: Ram, t: Tree) {
    t.root in ram && forall i :: 0 <= i < ENTRIES ==> Entry(ram[t.root], i) == Down(t.mid, i)
  }

  ghost predicate MidTable(ram: Ram, t: Tree, i: nat)
    requires i in t.mid
  {
    t.mid[i] in ram && forall j :: 0 <= j < ENTRIES ==> Entry(ram[t.mid[i]], j) == Down(t.low, i * ENTRIES + j)
  }

  ghost predicate LowTable(ram: Ram, t: Tree, k: nat)
    requires k in t.low
  {
    t.low[k] in ram && forall j :: 0 <= j < ENTRIES ==> Entry(ram[t.low[k]], j) == Leaf(t.m, k * ENTRIES + j)
  }

  ghost predicate MidOk(ram: Ram, t: Tree) {
    forall i :: i in t.mid ==> MidTable(ram, t, i)
  }

  ghost predicate LowOk(ram: Ram, t: Tree) {
    forall k :: k in t.low ==> LowTable(ram, t, k)
  }

  /** Entries hang below tables, and mean something. */
  ghost predicate Rooted(t: Tree) {
    && (forall i :: i in t.mid ==> i < 256)
    && (forall k :: k in t.low ==> k / ENTRIES in t.mid)
    && (forall v :: v in t.m ==> v / ENTRIES in t.low && Valid(t.m[v]) && t.m[v] < TWO64)
  }

  /** No table page is used twice. */
  ghost predicate Unshared(t: Tree) {
    && t.root !in t.mid.Values && t.root !in t.low.Values && t.mid.Values !! t.low.Values
    && (forall i, j :: i in t.mid && j in t.mid && i != j ==> t.mid[i] != t.mid[j])
    && (forall i, j :: i in t.low && j in t.low && i != j ==> t.low[i] != t.low[j])
    && 0 < t.root < MAXPPN && (forall i :: i in t.mid ==> 0 < t.mid[i] < MAXPPN)
    && (forall k :: k in t.low ==> 0 < t.low[k] < MAXPPN)
  }

  ghost predicate TreeOk(ram: Ram, t: Tree) {
    RootOk(ram, t) && MidOk(ram, t) && LowOk(ram, t) && Rooted(t) && Unshared(t)
  }

  ghost function Tables(t: Tree): (r: set<nat>) {
    {t.root} + t.mid.Values + t.low.Values
  }

  lemma KeySplit(i: nat, j: nat)
    requires j < ENTRIES
    ensures (i * ENTRIES + j) / ENTRIES == i && (i * ENTRIES + j) % ENTRIES == j
  {
  }

  lemma KeyJoin(v: nat)
    ensures v / ENTRIES * ENTRIES + v % ENTRIES == v
  {
  }

  /** The pages ps hold the same in both memories. */
  ghost predicate Same(ram: Ram, ram': Ram, ps: set<nat>) {
    forall p :: p in ps ==> p in ram && p in ram' && ram'[p] == ram[p]
  }

  /** Only the contents of the table pages matter. */
  lemma SameTree(ram: Ram, ram': Ram, t: Tree)
    requires TreeOk(ram, t) && Same(ram, ram', Tables(t))
    ensures TreeOk(ram', t)
  {
    assert t.root in Tables(t);
    forall i | i in t.mid
      ensures MidTable(ram', t, i)
    {
      assert MidTable(ram, t, i) && t.mid[i] in t.mid.Values && t.mid[i] in Tables(t);
    }
    forall k | k in t.low
      ensures LowTable(ram', t, k)
    {
      assert LowTable(ram, t, k) && t.low[k] in t.low.Values && t.low[k] in Tables(t);
    }
  }

  lemma TablesInRam(ram: Ram, t: Tree)
    requires TreeOk(ram, t)
    ensures forall p :: p in Tables(t) ==> p in ram && 0 < p < MAXPPN
  {
    forall p | p in Tables(t)
      ensures p in ram && 0 < p < MAXPPN
    {
      if p in t.mid.Values {
        var i :| i in t.mid && t.mid[i] == p;
        assert MidTable(ram, t, i);
      } else if p in t.low.Values {
        var k :| k in t.low && t.low[k] == p;
        assert LowTable(ram, t, k);
      }
    }
  }

  // ----- an empty table -----

  function EmptyTree(root: nat): (t: Tree) {
    Tree(root, map[], map[], map[])
  }

  lemma EmptyOk(ram: Ram, root: nat)
    requires 0 < root < MAXPPN && root in ram && ram[root] == Filled(0)
    ensures TreeOk(ram, EmptyTree(root))
  {
    forall i | 0 <= i < ENTRIES
      ensures Entry(ram[root], i) == 0
    {
      ZeroEntry(i);
    }
  }

  // ----- writing an entry of the lowest level -----

  function Leaved(t: Tree, v: nat, e: nat): (t': Tree) {
    t.(m := if e == 0 then t.m - {v} else t.m[v := e])
  }

  function LeafWrite(ram: Ram, t: Tree, v: nat, e: nat): (ram': Ram)
    requires v / ENTRIES in t.low && t.low[v / ENTRIES] in ram
  {
    var p := t.low[v / ENTRIES];
    ram[p := SetEntry(ram[p], v % ENTRIES, e)]
  }

  lemma LeafLow(ram: Ram, t: Tree, v: nat, e: nat, k: nat)
    requires TreeOk(ram, t) && v / ENTRIES in t.low && t.low[v / ENTRIES] in ram && e < TWO64 && k in t.low
    ensures LowTable(LeafWrite(ram, t, v, e), Leaved(t, v, e), k)
  {
    hide RootOk, MidOk, Rooted, SetEntry, Entry;
    var ram', t', p := LeafWrite(ram, t, v, e), Leaved(t, v, e), t.low[v / ENTRIES];
    assert LowTable(ram, t, k);
    forall j | 0 <= j < ENTRIES
      ensures Entry(ram'[t.low[k]], j) == Leaf(t'.m, k * ENTRIES + j)
    {
      KeySplit(k, j);
      KeyJoin(v);
      if k == v / ENTRIES {
        EntrySetEntry(ram[p], v % ENTRIES, e, j);
      }
    }
  }

  lemma LeafMid(ram: Ram, t: Tree, v: nat, e: nat, i: nat)
    requires TreeOk(ram, t) && v / ENTRIES in t.low && t.low[v / ENTRIES] in ram && i in t.mid
    ensures MidTable(LeafWrite(ram, t, v, e), Leaved(t, v, e), i) && RootOk(LeafWrite(ram, t, v, e), Leaved(t, v, e))
  {
    hide SetEntry, Entry;
    assert MidTable(ram, t, i) && t.low[v / ENTRIES] in t.low.Values && t.mid[i] in t.mid.Values;
  }

  lemma LeafWriteOk(ram: Ram, t: Tree, v: nat, e: nat)
    requires TreeOk(ram, t) && v / ENTRIES in t.low && e < TWO64 && (e == 0 || Valid(e))
    ensures t.low[v / ENTRIES] in ram && TreeOk(LeafWrite(ram, t, v, e), Leaved(t, v, e))
  {
    LeafRead(ram, t, v);
    assert v / ENTRIES / ENTRIES in t.mid;
    LeavedKeeps(t, v, e);
    hide LowTable, MidTable, SetEntry, RootOk, Rooted, Unshared, LeafWrite, Leaved, Valid;
    var ram', t' := LeafWrite(ram, t, v, e), Leaved(t, v, e);
    forall k | k in t.low
      ensures LowTable(ram', t', k)
    {
      LeafLow(ram, t, v, e, k);
    }
    forall i | i in t.mid
      ensures MidTable(ram', t', i)
    {
      LeafMid(ram, t, v, e, i);
    }
    LeafMid(ram, t, v, e, v / ENTRIES / ENTRIES);
  }

  lemma LeavedKeeps(t: Tree, v: nat, e: nat)
    requires Rooted(t) && Unshared(t) && v / ENTRIES in t.low && e < TWO64 && (e == 0 || Valid(e))
    ensures Rooted(Leaved(t, v, e)) && Unshared(Leaved(t, v, e))
    ensures Leaved(t, v, e).mid == t.mid && Leaved(t, v, e).low == t.low
  {
    hide Valid, Unshared;
    SameUnshared(t, Leaved(t, v, e));
  }

  lemma SameUnshared(t: Tree, t': Tree)
    requires Unshared(t) && t'.root == t.root && t'.mid == t.mid && t'.low == t.low
    ensures Unshared(t')
  {
  }

  /** What a walk to the lowest level finds. */
  lemma LeafRead(ram: Ram, t: Tree, v: nat)
    requires TreeOk(ram, t) && v / ENTRIES in t.low
    ensures t.low[v / ENTRIES] in ram && Entry(ram[t.low[v / ENTRIES]], v % ENTRIES) == Leaf(t.m, v)
  {
    hide RootOk, MidOk, Rooted, Unshared, Entry, Leaf;
    var k := v / ENTRIES;
    assert LowTable(ram, t, k);
    KeyJoin(v);
  }

  // ----- adding a table -----

  function RootWrite(ram: Ram, t: Tree, i: nat, p: nat): (ram': Ram)
    requires t.root in ram && i < ENTRIES
  {
    ram[t.root := SetEntry(ram[t.root], i, Pte(p, V))]
  }

  lemma AddMidOk(ram: Ram, t: Tree, i: nat, p: nat)
    requires TreeOk(ram, t) && i < 256 && i !in t.mid && p !in Tables(t)
    requires 0 < p < MAXPPN && p in ram && ram[p] == Filled(0)
    ensures TreeOk(RootWrite(ram, t, i, p), t.(mid := t.mid[i := p]))
  {
    hide RootOk, Unshared, MidTable, LowTable, RootWrite, Valid, Tables;
    RootKnown(ram, t);
    var ram', t' := RootWrite(ram, t, i, p), t.(mid := t.mid[i := p]);
    AddMidUnshared(t, i, p);
    AddMidRoot(ram, t, i, p);
    forall x | x in t'.mid
      ensures MidTable(ram', t', x)
    {
      AddMidTable(ram, t, i, p, x);
    }
    forall k | k in t.low
      ensures LowTable(ram', t', k)
    {
      AddMidLow(ram, t, i, p, k);
    }
  }

  lemma RootKnown(ram: Ram, t: Tree)
    requires RootOk(ram, t)
    ensures t.root in ram
  {
  }

  lemma AddMidRoot(ram: Ram, t: Tree, i: nat, p: nat)
    requires RootOk(ram, t) && i < 256 && i !in t.mid && 0 < p < MAXPPN
    ensures RootOk(RootWrite(ram, t, i, p), t.(mid := t.mid[i := p]))
  {
    hide SetEntry, Entry;
    PteParts(p, V);
    forall j | 0 <= j < ENTRIES
      ensures Entry(RootWrite(ram, t, i, p)[t.root], j) == Down(t.mid[i := p], j)
    {
      EntrySetEntry(ram[t.root], i, Pte(p, V), j);
    }
  }

  lemma AddMidLow(ram: Ram, t: Tree, i: nat, p: nat, k: nat)
    requires t.root in ram && i < ENTRIES && Unshared(t) && k in t.low && LowTable(ram, t, k)
    ensures LowTable(RootWrite(ram, t, i, p), t.(mid := t.mid[i := p]), k)
  {
    hide SetEntry, Entry, Unshared;
    assert t.low[k] in t.low.Values;
    NotRoot(t, t.low[k]);
  }

  lemma NotRoot(t: Tree, p: nat)
    requires Unshared(t) && (p in t.mid.Values || p in t.low.Values)
    ensures p != t.root
  {
  }

  lemma AddMidTable(ram: Ram, t: Tree, i: nat, p: nat, x: nat)
    requires TreeOk(ram, t) && i < 256 && i !in t.mid && p !in Tables(t) && p in ram && ram[p] == Filled(0)
    requires x == i || x in t.mid
    ensures MidTable(RootWrite(ram, t, i, p), t.(mid := t.mid[i := p]), x)
  {
    hide SetEntry;
    if x != i {
      assert MidTable(ram, t, x) && t.mid[x] in t.mid.Values;
      NotRoot(t, t.mid[x]);
    } else {
      forall j | 0 <= j < ENTRIES
        ensures Entry(ram[p], j) == Down(t.low, i * ENTRIES + j)
      {
        ZeroEntry(j);
        KeySplit(i, j);
      }
    }
  }

  lemma AddMidUnshared(t: Tree, i: nat, p: nat)
    requires Unshared(t) && i !in t.mid && p !in Tables(t) && 0 < p < MAXPPN
    ensures Unshared(t.(mid := t.mid[i := p])) && Tables(t.(mid := t.mid[i := p])) == Tables(t) + {p}
  {
    var mid' := t.mid[i := p];
    assert mid'.Values == t.mid.Values + {p} by {
      assert forall x :: x in t.mid ==> x in mid' && mid'[x] == t.mid[x];
      assert i in mid';
    }
  }

  function MidWrite(ram: Ram, t: Tree, k: nat, p: nat): (ram': Ram)
    requires k / ENTRIES in t.mid && t.mid[k / ENTRIES] in ram
  {
    var q := t.mid[k / ENTRIES];
    ram[q := SetEntry(ram[q], k % ENTRIES, Pte(p, V))]
  }

  lemma AddLowUnshared(t: Tree, k: nat, p: nat)
    requires Unshared(t) && k !in t.low && p !in Tables(t) && 0 < p < MAXPPN
    ensures Unshared(t.(low := t.low[k := p])) && Tables(t.(low := t.low[k := p])) == Tables(t) + {p}
  {
    var low' := t.low[k := p];
    assert low'.Values == t.low.Values + {p} by {
      assert forall x :: x in t.low ==> x in low' && low'[x] == t.low[x];
      assert k in low';
    }
  }

  lemma AddLowMid(ram: Ram, t: Tree, k: nat, p: nat, i: nat)
    requires TreeOk(ram, t) && k / ENTRIES in t.mid && t.mid[k / ENTRIES] in ram
    requires k !in t.low && 0 < p < MAXPPN && i in t.mid
    ensures MidTable(MidWrite(ram, t, k, p), t.(low := t.low[k := p]), i)
  {
    var ram', t' := MidWrite(ram, t, k, p), t.(low := t.low[k := p]);
    assert MidTable(ram, t, i) && (i != k / ENTRIES ==> t.mid[i] != t.mid[k / ENTRIES]);
    hide TreeOk, SetEntry, Entry, Down, MidWrite;
    forall j | 0 <= j < ENTRIES
      ensures Entry(ram'[t.mid[i]], j) == Down(t'.low, i * ENTRIES + j)
    {
      AddLowEntry(ram, t, k, p, i, j);
    }
    MidWriteKeys(ram, t, k, p);
  }

  lemma MidWriteKeys(ram: Ram, t: Tree, k: nat, p: nat)
    requires k / ENTRIES in t.mid && t.mid[k / ENTRIES] in ram
    ensures MidWrite(ram, t, k, p).Keys == ram.Keys
  {
  }

  lemma AddLowEntry(ram: Ram, t: Tree, k: nat, p: nat, i: nat, j: nat)
    requires k / ENTRIES in t.mid && t.mid[k / ENTRIES] in ram && 0 < p < MAXPPN && i in t.mid && t.mid[i] in ram
    requires j < ENTRIES && Entry(ram[t.mid[i]], j) == Down(t.low, i * ENTRIES + j)
    requires i != k / ENTRIES ==> t.mid[i] != t.mid[k / ENTRIES]
    ensures t.mid[i] in MidWrite(ram, t, k, p)
    ensures Entry(MidWrite(ram, t, k, p)[t.mid[i]], j) == Down(t.low[k := p], i * ENTRIES + j)
  {
    hide SetEntry, Entry;
    PteParts(p, V);
    KeySplit(i, j);
    KeyJoin(k);
    if i == k / ENTRIES {
      EntrySetEntry(ram[t.mid[i]], k % ENTRIES, Pte(p, V), j);
    }
  }

  lemma AddLowLow(ram: Ram, t: Tree, k: nat, p: nat, x: nat)
    requires TreeOk(ram, t) && k / ENTRIES in t.mid && t.mid[k / ENTRIES] in ram && k !in t.low && p !in Tables(t)
    requires p in ram && ram[p] == Filled(0) && (x == k || x in t.low)
    ensures LowTable(MidWrite(ram, t, k, p), t.(low := t.low[k := p]), x)
  {
    hide SetEntry;
    var q := t.mid[k / ENTRIES];
    assert q in t.mid.Values && q in Tables(t);
    if x != k {
      assert LowTable(ram, t, x) && t.low[x] in t.low.Values;
    } else {
      forall j | 0 <= j < ENTRIES
        ensures Entry(ram[p], j) == Leaf(t.m, k * ENTRIES + j)
      {
        ZeroEntry(j);
        KeySplit(k, j);
      }
    }
  }

  lemma AddLowOk(ram: Ram, t: Tree, k: nat, p: nat)
    requires TreeOk(ram, t) && k / ENTRIES in t.mid && k !in t.low && p !in Tables(t) && 0 < p < MAXPPN
    requires p in ram && ram[p] == Filled(0)
    ensures t.mid[k / ENTRIES] in ram && TreeOk(MidWrite(ram, t, k, p), t.(low := t.low[k := p]))
  {
    assert MidTable(ram, t, k / ENTRIES);
    var ram', t', q := MidWrite(ram, t, k, p), t.(low := t.low[k := p]), t.mid[k / ENTRIES];
    assert q in t.mid.Values;
    NotRoot(t, q);
    AddLowUnshared(t, k, p);
    hide SetEntry, Unshared, MidTable, LowTable, Tables;
    forall i | i in t.mid
      ensures MidTable(ram', t', i)
    {
      AddLowMid(ram, t, k, p, i);
    }
    forall x | x in t'.low
      ensures LowTable(ram', t', x)
    {
      AddLowLow(ram, t, k, p, x);
    }
  }

  /** What a walk finds at the upper levels. */
  lemma RootRead(ram: Ram, t: Tree, i: nat)
    requires TreeOk(ram, t) && i < ENTRIES
    ensures t.root in ram && Entry(ram[t.root], i) == Down(t.mid, i)
    ensures i in t.mid ==> Valid(Down(t.mid, i)) && PpnOf(Down(t.mid, i)) == t.mid[i]
  {
    hide MidOk, LowOk, Rooted, Unshared, Entry, Pte, PpnOf, VmPages.Valid;
    if i in t.mid {
      PteParts(t.mid[i], V);
    }
  }

  lemma MidRead(ram: Ram, t: Tree, k: nat)
    requires TreeOk(ram, t) && k / ENTRIES in t.mid
    ensures t.mid[k / ENTRIES] in ram && Entry(ram[t.mid[k / ENTRIES]], k % ENTRIES) == Down(t.low, k)
    ensures k in t.low ==> Valid(Down(t.low, k)) && PpnOf(Down(t.low, k)) == t.low[k]
  {
    hide RootOk, LowOk, Rooted, Unshared, Entry, Pte, PpnOf, VmPages.Valid;
    var i := k / ENTRIES;
    assert MidTable(ram, t, i);
    KeyJoin(k);
    if k in t.low {
      PteParts(t.low[k], V);
    }
  }
}
