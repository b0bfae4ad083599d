/** vmfault, copyout and copyin: user memory as a string of bytes. A page below the process's size
    that is not mapped yet reads as zeros. */
module VmUser {
  import opened Collections
  import opened Bytes
  import opened VmPages
  import opened VmTree
  import opened VmCode
  import opened VmMap
  import opened VmSpace
  import opened VmCopy

  /** The byte a process sees at address a. */
  function View(ram: Ram, m: map<nat, nat>, a: nat): (x: byte) {
    if a / PGSIZE in m && PpnOf(m[a / PGSIZE]) in ram then ram[PpnOf(m[a / PGSIZE])][a % PGSIZE] else 0
  }

  /** The first n pages are mapped to pages of their own; only they are the user's. */
  ghost predicate UserOk(ram: Ram, free: seq<nat>, t: Tree, n: nat) {
    && (forall u :: u < n && u in t.m ==> PageOk(ram, free, t, u))
    && (forall u, w :: u < n && w < n && u in t.m && w in t.m && u != w ==> PpnOf(t.m[u]) != PpnOf(t.m[w]))
    && (forall u :: u in t.m && Has(FlagsOf(t.m[u]), U) ==> u < n)
  }

  ghost predicate PageOk(ram: Ram, free: seq<nat>, t: Tree, u: nat)
    requires u in t.m
  {
    PpnOf(t.m[u]) in ram && PpnOf(t.m[u]) !in free && PpnOf(t.m[u]) !in Tables(t)
  }

  /** The pages of user memory. */
  ghost function UserPages(m: map<nat, nat>, n: nat): (r: set<nat>) {
    set u | u in m && u < n :: PpnOf(m[u])
  }

  /** Both memories look the same to the user. */
  ghost predicate Alike(ram: Ram, m: map<nat, nat>, ram': Ram, m': map<nat, nat>, n: nat) {
    forall a: nat :: a / PGSIZE < n ==> View(ram', m', a) == View(ram, m, a)
  }

  /** walkaddr: the physical page of a user page, or 0. */
  method WalkAddr(vm: Vm, ghost t: Tree, root: nat, v: nat) returns (f: nat)
    requires vm.Valid() && vm.Holds(t) && root == t.root
    modifies vm`ram, vm`freelist, vm`free
    ensures vm.Valid() && vm.Holds(t) && vm.ram == old(vm.ram) && vm.free == old(vm.free)
    ensures f == if v < MAXPAGE && v in t.m && Has(FlagsOf(t.m[v]), U) then PpnOf(t.m[v]) else 0
  {
    hide TreeOk, FreeList, Tables, Valid, FlagsOf, PpnOf, Has;
    if v >= MAXPAGE {
      return 0;
    }
    var e := Lookup(vm, t, root, v);
    if !Valid(e) || !Has(FlagsOf(e), U) {
      return 0;
    }
    return PpnOf(e);
  }

  /** One more page of zeros, where the user saw zeros. */
  lemma FaultAlike(ram: Ram, ram': Ram, m: map<nat, nat>, v: nat, f: nat, flags: nat, n: nat)
    requires v !in m && flags < 1024 && f in ram' && ram'[f] == Filled(0)
    requires forall u :: u < n && u in m ==>
               PpnOf(m[u]) in ram && PpnOf(m[u]) in ram' && ram'[PpnOf(m[u])] == ram[PpnOf(m[u])]
    ensures Alike(ram, m, ram', m[v := Pte(f, flags)], n)
  {
    PteParts(f, flags);
    hide Pte, PpnOf;
    forall a: nat | a / PGSIZE < n
      ensures View(ram', m[v := Pte(f, flags)], a) == View(ram, m, a)
    {
    }
  }

  lemma FaultUser(ram: Ram, free: seq<nat>, t: Tree, ram': Ram, free': seq<nat>, t': Tree, v: nat, f: nat, flags: nat,
                  n: nat)
    requires UserOk(ram, free, t, n) && v < n && flags < 1024
    requires t'.m == t.m[v := Pte(f, flags)] && f in ram' && f in free && f !in free'
    requires Kept(ram, ram', free, Tables(t)) && Balanced(free, t, {}, free', t', {f})
    ensures UserOk(ram', free', t', n)
    ensures forall u :: u < n && u in t.m ==>
              PpnOf(t.m[u]) in ram && PpnOf(t.m[u]) in ram' && ram'[PpnOf(t.m[u])] == ram[PpnOf(t.m[u])]
  {
    PteParts(f, flags);
    hide Pte, PpnOf, FlagsOf, Has, Tables;
    forall u | u < n && u in t.m
      ensures PpnOf(t.m[u]) in ram && PpnOf(t.m[u]) in ram' && ram'[PpnOf(t.m[u])] == ram[PpnOf(t.m[u])]
      ensures PpnOf(t.m[u]) !in free' && PpnOf(t.m[u]) !in Tables(t') && PpnOf(t.m[u]) != f
    {
      assert PageOk(ram, free, t, u);
      var p := PpnOf(t.m[u]);
      assert p !in Set(free) && p !in Set(free');
    }
    forall u | u < n && u in t'.m
      ensures PageOk(ram', free', t', u)
    {
      assert u == v || u in t.m;
    }
  }

  /** Free pages, tables and user pages are together the same as before, and apart. */
  ghost predicate Conserved(free: seq<nat>, t: Tree, free': seq<nat>, t': Tree, n: nat) {
    Balanced(free, t, UserPages(t.m, n), free', t', UserPages(t'.m, n))
  }

  lemma UserApart(ram: Ram, free: seq<nat>, t: Tree, n: nat)
    requires UserOk(ram, free, t, n) && Tables(t) !! Set(free)
    ensures UserPages(t.m, n) !! Set(free) && UserPages(t.m, n) !! Tables(t)
    ensures Conserved(free, t, free, t, n)
  {
    hide Tables, PpnOf, Has;
    forall p | p in UserPages(t.m, n)
      ensures p !in Set(free) && p !in Tables(t)
    {
      var u :| u in t.m && u < n && PpnOf(t.m[u]) == p;
      assert PageOk(ram, free, t, u);
    }
  }

  lemma FaultConserved(ram: Ram, free: seq<nat>, t: Tree, ram': Ram, free': seq<nat>, t': Tree, v: nat, f: nat,
                       flags: nat, n: nat)
    requires UserOk(ram, free, t, n) && UserOk(ram', free', t', n) && Tables(t) !! Set(free) && Tables(t') !! Set(free')
    requires v < n && v !in t.m && flags < 1024 && t'.m == t.m[v := Pte(f, flags)]
    requires Balanced(free, t, {}, free', t', {f})
    ensures Conserved(free, t, free', t', n)
  {
    PteParts(f, flags);
    UserApart(ram, free, t, n);
    UserApart(ram', free', t', n);
    UserPagesMore(t.m, v, Pte(f, flags), n);
    hide Tables, PpnOf, Has, UserPages, Pte, UserOk, Set;
  }

  lemma UserPagesMore(m: map<nat, nat>, v: nat, e: nat, n: nat)
    requires v !in m && v < n
    ensures UserPages(m[v := e], n) == UserPages(m, n) + {PpnOf(e)}
  {
    var m' := m[v := e];
    forall p | p in UserPages(m, n) + {PpnOf(e)}
      ensures p in UserPages(m', n)
    {
      if p in UserPages(m, n) {
        var u :| u in m && u < n && PpnOf(m[u]) == p;
        assert u in m' && m'[u] == m[u];
      } else {
        assert v in m';
      }
    }
  }

  lemma StillConserved(ram: Ram, free: seq<nat>, t: Tree, ram': Ram, free': seq<nat>, t': Tree, n: nat)
    requires UserOk(ram, free, t, n) && Tables(t) !! Set(free) && t'.m == t.m
    requires Kept(ram, ram', free, Tables(t)) && Balanced(free, t, {}, free', t', {})
    ensures UserOk(ram', free', t', n) && Conserved(free, t, free', t', n) && Alike(ram, t.m, ram', t'.m, n)
  {
    UserApart(ram, free, t, n);
    hide Tables, PpnOf, Has, FlagsOf;
    forall u | u < n && u in t.m
      ensures PageOk(ram', free', t', u) && ram'[PpnOf(t.m[u])] == ram[PpnOf(t.m[u])] && PpnOf(t.m[u]) in ram
    {
      assert PageOk(ram, free, t, u);
      var p := PpnOf(t.m[u]);
      assert p !in Set(free) && p !in Set(free');
    }
  }

  /** vmfault at a page address: a page of zeros for a page below the size that has none yet. */
  method VmFault(vm: Vm, ghost t: Tree, root: nat, sz: nat, v: nat) returns (f: nat, ghost t': Tree)
    requires vm.Valid() && vm.Holds(t) && root == t.root && PageCount(sz) <= MAXPAGE
    requires UserOk(vm.ram, vm.free, t, PageCount(sz))
    modifies vm`ram, vm`freelist, vm`free
    ensures vm.Valid() && vm.Holds(t') && t'.root == root && UserOk(vm.ram, vm.free, t', PageCount(sz))
    ensures Conserved(old(vm.free), t, vm.free, t', PageCount(sz))
    ensures Alike(old(vm.ram), t.m, vm.ram, t'.m, PageCount(sz))
    ensures f != 0 ==> v < PageCount(sz) && v !in t.m && t'.m == t.m[v := Pte(f, V + R + W + U)] && f < MAXPPN
    ensures f == 0 ==> t'.m == t.m && (v >= PageCount(sz) || v in t.m || (|old(vm.free)| <= 2 && |vm.free| <= 1))
  {
    hide TreeOk, FreeList, Tables, UserOk, Balanced, Kept, Conserved, Alike, PageCount, Valid, PpnOf, FlagsOf, Has, Pte;
    UserApart(vm.ram, vm.free, t, PageCount(sz));
    AlikeRefl(vm.ram, t.m, PageCount(sz));
    t' := t;
    if v >= PageCount(sz) {
      return 0, t;
    }
    var e := Lookup(vm, t, root, v);
    if Valid(e) {
      return 0, t;
    }
    ghost var ram0, free0 := vm.ram, vm.free;
    var panicked, ok;
    panicked, ok, f, t' := GrowOne(vm, t, root, v, W + U + R, Filled(0));
    if !ok {
      StillConserved(ram0, free0, t, vm.ram, vm.free, t', PageCount(sz));
      return 0, t';
    }
    FaultUser(ram0, free0, t, vm.ram, vm.free, t', v, f, V + R + W + U, PageCount(sz));
    FaultConserved(ram0, free0, t, vm.ram, vm.free, t', v, f, V + R + W + U, PageCount(sz));
    FaultAlike(ram0, vm.ram, t.m, v, f, V + R + W + U, PageCount(sz));
  }

  lemma AlikeRefl(ram: Ram, m: map<nat, nat>, n: nat)
    ensures Alike(ram, m, ram, m, n)
  {
  }

  lemma AlikeTrans(r0: Ram, m0: map<nat, nat>, r1: Ram, m1: map<nat, nat>, r2: Ram, m2: map<nat, nat>, n: nat)
    requires Alike(r0, m0, r1, m1, n) && Alike(r1, m1, r2, m2, n)
    ensures Alike(r0, m0, r2, m2, n)
  {
    hide View;
  }

  lemma ConservedTrans(f0: seq<nat>, t0: Tree, f1: seq<nat>, t1: Tree, f2: seq<nat>, t2: Tree, n: nat)
    requires Conserved(f0, t0, f1, t1, n) && Conserved(f1, t1, f2, t2, n)
    ensures Conserved(f0, t0, f2, t2, n)
  {
  }

  /** Why a page cannot be had: the user may not touch it, it lies above the size, or memory has run
      out. */
  ghost predicate Refused(m: map<nat, nat>, v: nat, n: nat, left: nat) {
    if v in m then !Has(FlagsOf(m[v]), U) else v >= n || left <= 1
  }

  lemma AboveRefused(ram: Ram, free: seq<nat>, t: Tree, n: nat, v: nat, left: nat)
    requires UserOk(ram, free, t, n) && v >= n
    ensures Refused(t.m, v, n, left)
  {
  }

  /** A user page has a physical page, which is not page 0. */
  lemma UserHas(vm: Vm, t: Tree, n: nat, v: nat)
    requires vm.Valid() && UserOk(vm.ram, vm.free, t, n) && v in t.m && Has(FlagsOf(t.m[v]), U)
    ensures v < n && PpnOf(t.m[v]) != 0
  {
    hide PpnOf, FlagsOf, Has;
    assert PageOk(vm.ram, vm.free, t, v);
  }

  /** The page to read or write: mapped for the user, or faulted in. */
  method Resolve(vm: Vm, ghost t: Tree, root: nat, sz: nat, v: nat) returns (f: nat, ghost t': Tree)
    requires vm.Valid() && vm.Holds(t) && root == t.root && PageCount(sz) <= MAXPAGE
    requires UserOk(vm.ram, vm.free, t, PageCount(sz))
    modifies vm`ram, vm`freelist, vm`free
    ensures vm.Valid() && vm.Holds(t') && t'.root == root && UserOk(vm.ram, vm.free, t', PageCount(sz))
    ensures Conserved(old(vm.free), t, vm.free, t', PageCount(sz))
    ensures Alike(old(vm.ram), t.m, vm.ram, t'.m, PageCount(sz))
    ensures f != 0 ==> v < PageCount(sz) && v in t'.m && f == PpnOf(t'.m[v]) && Has(FlagsOf(t'.m[v]), U)
    ensures f != 0 ==> if v in t.m then t'.m == t.m else t'.m == t.m[v := Pte(f, V + R + W + U)]
    ensures f == 0 ==> t'.m == t.m && Refused(t.m, v, PageCount(sz), |vm.free|)
  {
    hide TreeOk, FreeList, Tables, Conserved, Alike, PageCount, Valid, PpnOf, FlagsOf, Has, Pte, Set, PageOk;
    UserApart(vm.ram, vm.free, t, PageCount(sz));
    AlikeRefl(vm.ram, t.m, PageCount(sz));
    t' := t;
    if v in t.m && Has(FlagsOf(t.m[v]), U) {
      UserHas(vm, t, PageCount(sz), v);
    }
    f := WalkAddr(vm, t, root, v);
    if f == 0 {
      f, t' := VmFault(vm, t, root, sz, v);
      if f != 0 {
        FaultFlags(f);
      }
    }
  }

  lemma FaultFlags(f: nat)
    ensures PpnOf(Pte(f, V + R + W + U)) == f && Has(FlagsOf(Pte(f, V + R + W + U)), U)
    ensures Has(FlagsOf(Pte(f, V + R + W + U)), W)
  {
    PteParts(f, V + R + W + U);
  }

  // ----- writing user memory -----

  /** User memory is as before but for the bytes bs at address a. */
  ghost predicate Wrote(ram0: Ram, m0: map<nat, nat>, ram: Ram, m: map<nat, nat>, n: nat, a: nat, bs: seq<byte>) {
    forall x: nat :: x / PGSIZE < n ==> View(ram, m, x) == if a <= x < a + |bs| then bs[x - a] else View(ram0, m0, x)
  }

  lemma WroteNothing(ram0: Ram, m0: map<nat, nat>, ram: Ram, m: map<nat, nat>, n: nat, a: nat)
    requires Alike(ram0, m0, ram, m, n)
    ensures Wrote(ram0, m0, ram, m, n, a, [])
  {
    hide View;
  }

  lemma WroteMore(ram0: Ram, m0: map<nat, nat>, ram: Ram, m: map<nat, nat>, ram': Ram, m': map<nat, nat>, n: nat,
                  a: nat, bs: seq<byte>, cs: seq<byte>)
    requires Wrote(ram0, m0, ram, m, n, a, bs) && Wrote(ram, m, ram', m', n, a + |bs|, cs)
    ensures Wrote(ram0, m0, ram', m', n, a, bs + cs)
  {
    hide View;
  }

  lemma AddrSplit(v: nat, off: nat)
    requires off < PGSIZE
    ensures (v * PGSIZE + off) / PGSIZE == v && (v * PGSIZE + off) % PGSIZE == off
  {
  }

  /** A write inside page v is seen there and nowhere else. */
  lemma PageWritten(ram: Ram, free: seq<nat>, t: Tree, n: nat, a: nat, bs: seq<byte>)
    requires UserOk(ram, free, t, n) && a / PGSIZE < n && a / PGSIZE in t.m && a % PGSIZE + |bs| <= PGSIZE
    ensures PpnOf(t.m[a / PGSIZE]) in ram
    ensures var f := PpnOf(t.m[a / PGSIZE]);
            var ram' := ram[f := Overlay(ram[f], a % PGSIZE, bs)];
            UserOk(ram', free, t, n) && Wrote(ram, t.m, ram', t.m, n, a, bs)
  {
    var v := a / PGSIZE;
    assert PageOk(ram, free, t, v);
    var f := PpnOf(t.m[v]);
    var ram' := ram[f := Overlay(ram[f], a % PGSIZE, bs)];
    hide PpnOf, FlagsOf, Has, Tables;
    forall u | u < n && u in t.m
      ensures PageOk(ram', free, t, u)
    {
      assert PageOk(ram, free, t, u);
    }
    forall x: nat | x / PGSIZE < n
      ensures View(ram', t.m, x) == if a <= x < a + |bs| then bs[x - a] else View(ram, t.m, x)
    {
      WrittenByte(ram, ram', t.m, n, a, bs, x);
    }
  }

  lemma WrittenByte(ram: Ram, ram': Ram, m: map<nat, nat>, n: nat, a: nat, bs: seq<byte>, x: nat)
    requires a / PGSIZE < n && a / PGSIZE in m && a % PGSIZE + |bs| <= PGSIZE
    requires PpnOf(m[a / PGSIZE]) in ram && x / PGSIZE < n
    requires forall u, w :: u < n && w < n && u in m && w in m && u != w ==> PpnOf(m[u]) != PpnOf(m[w])
    requires var f := PpnOf(m[a / PGSIZE]); ram' == ram[f := Overlay(ram[f], a % PGSIZE, bs)]
    ensures View(ram', m, x) == if a <= x < a + |bs| then bs[x - a] else View(ram, m, x)
  {
    hide PpnOf;
    var v, o, w, y := a / PGSIZE, a % PGSIZE, x / PGSIZE, x % PGSIZE;
    assert a == v * PGSIZE + o && x == w * PGSIZE + y;
    if w == v {
      var p := Overlay(ram[PpnOf(m[v])], o, bs);
      assert p[y] == if o <= y < o + |bs| then bs[y - o] else ram[PpnOf(m[v])][y];
    }
  }

  /** What the user sees from address a on. */
  function Seen(ram: Ram, m: map<nat, nat>, a: nat, len: nat): (s: seq<byte>)
    ensures |s| == len
  {
    seq<byte>(len, (i: nat) requires i < len => View(ram, m, a + i))
  }

  lemma PageRead(ram: Ram, free: seq<nat>, t: Tree, n: nat, a: nat, len: nat)
    requires UserOk(ram, free, t, n) && a / PGSIZE < n && a / PGSIZE in t.m && a % PGSIZE + len <= PGSIZE
    ensures var f := PpnOf(t.m[a / PGSIZE]);
            f in ram && ram[f][a % PGSIZE..a % PGSIZE + len] == Seen(ram, t.m, a, len)
  {
    var v, o := a / PGSIZE, a % PGSIZE;
    assert PageOk(ram, free, t, v);
    var f := PpnOf(t.m[v]);
    var x, y := ram[f][o..o + len], Seen(ram, t.m, a, len);
    forall i | 0 <= i < len
      ensures x[i] == y[i]
    {
      assert a == v * PGSIZE + o && a + i == v * PGSIZE + (o + i);
      AddrSplit(v, o + i);
      var b := a + i;
      assert b / PGSIZE == v && b % PGSIZE == o + i;
      assert y[i] == View(ram, t.m, b);
    }
  }

  /** How much of a transfer at address a goes to one page. */
  function Chunk(a: nat, left: nat): (k: nat)
    ensures k <= left && a % PGSIZE + k <= PGSIZE && (left > 0 ==> k > 0)
  {
    if PGSIZE - a % PGSIZE < left then PGSIZE - a % PGSIZE else left
  }

  /** The mappings are kept, and pages below n may have been added as vmfault adds them. */
  ghost predicate OnlyFaults(m: map<nat, nat>, m': map<nat, nat>, n: nat) {
    && (forall v :: v in m ==> v in m' && m'[v] == m[v])
    && (forall v :: v in m' && v !in m ==> v < n && FlagsOf(m'[v]) == V + R + W + U)
  }

  lemma OnlyFaultsTrans(m: map<nat, nat>, m1: map<nat, nat>, m2: map<nat, nat>, n: nat)
    requires OnlyFaults(m, m1, n) && OnlyFaults(m1, m2, n)
    ensures OnlyFaults(m, m2, n)
  {
    hide FlagsOf;
  }

  lemma OneFault(m: map<nat, nat>, v: nat, f: nat, n: nat)
    ensures OnlyFaults(m, m, n) && (v !in m && v < n ==> OnlyFaults(m, m[v := Pte(f, V + R + W + U)], n))
  {
    PteParts(f, V + R + W + U);
  }

  /** The user may read, or write, the k bytes from address a on. */
  ghost predicate Touchable(m: map<nat, nat>, a: nat, k: nat, write: bool) {
    forall v: nat :: a / PGSIZE <= v && v * PGSIZE < a + k && k > 0 ==>
      v in m && Has(FlagsOf(m[v]), U) && (write ==> Has(FlagsOf(m[v]), W))
  }

  lemma TouchMore(m: map<nat, nat>, m': map<nat, nat>, n: nat, a: nat, i: nat, k: nat, write: bool)
    requires Touchable(m, a, i, write) && OnlyFaults(m, m', n) && (a + i) % PGSIZE + k <= PGSIZE
    requires var v := (a + i) / PGSIZE; v in m' && Has(FlagsOf(m'[v]), U) && (write ==> Has(FlagsOf(m'[v]), W))
    ensures Touchable(m', a, i + k, write)
  {
    hide FlagsOf, Has;
    forall v: nat | a / PGSIZE <= v && v * PGSIZE < a + (i + k) && i + k > 0
      ensures v in m' && Has(FlagsOf(m'[v]), U) && (write ==> Has(FlagsOf(m'[v]), W))
    {
      if v * PGSIZE >= a + i {
        OnePage(a + i, k, v);
      } else if i == 0 {
        OnePage(a, k, v);
      }
    }
  }

  lemma OnePage(a: nat, k: nat, v: nat)
    requires a % PGSIZE + k <= PGSIZE && v * PGSIZE < a + k && v * PGSIZE + PGSIZE > a
    ensures v == a / PGSIZE
  {
  }

  lemma TouchKept(m: map<nat, nat>, m': map<nat, nat>, n: nat, a: nat, k: nat, write: bool)
    requires Touchable(m, a, k, write) && OnlyFaults(m, m', n)
    ensures Touchable(m', a, k, write)
  {
    hide FlagsOf, Has;
  }

  lemma TouchNone(m: map<nat, nat>, a: nat, write: bool)
    ensures Touchable(m, a, 0, write)
  {
  }

  predicate ReadOnly(m: map<nat, nat>, v: nat) {
    v in m && !Has(FlagsOf(m[v]), W)
  }

  /** One turn of copyout. */
  method CopyOutPage(vm: Vm, ghost t: Tree, root: nat, sz: nat, a: nat,
                     bs: seq<byte>) returns (ok: bool, ghost t': Tree)
    requires vm.Valid() && vm.Holds(t) && root == t.root && PageCount(sz) <= MAXPAGE
    requires UserOk(vm.ram, vm.free, t, PageCount(sz))
    requires a % PGSIZE + |bs| <= PGSIZE
    modifies vm`ram, vm`freelist, vm`free
    ensures vm.Valid() && vm.Holds(t') && t'.root == root && UserOk(vm.ram, vm.free, t', PageCount(sz))
    ensures Conserved(old(vm.free), t, vm.free, t', PageCount(sz))
    ensures Wrote(old(vm.ram), t.m, vm.ram, t'.m, PageCount(sz), a, if ok then bs else [])
    ensures OnlyFaults(t.m, t'.m, PageCount(sz))
    ensures ok ==> a / PGSIZE < PageCount(sz) && a / PGSIZE in t'.m
                   && Has(FlagsOf(t'.m[a / PGSIZE]), W) && Has(FlagsOf(t'.m[a / PGSIZE]), U)
    ensures !ok ==> ReadOnly(t'.m, a / PGSIZE) || Refused(t'.m, a / PGSIZE, PageCount(sz), |vm.free|)
  {
    hide TreeOk, FreeList, Tables, Conserved, Alike, PageCount, Valid, PpnOf, FlagsOf, Has, Pte, Set, UserOk, Wrote,
         Distinct, OnlyFaults;
    ghost var n := PageCount(sz);
    t' := t;
    UserApart(vm.ram, vm.free, t, n);
    AlikeRefl(vm.ram, t.m, n);
    WroteNothing(vm.ram, t.m, vm.ram, t.m, n, a);
    OneFault(t.m, a / PGSIZE, 0, n);
    if a / PGSIZE >= MAXPAGE {
      AboveRefused(vm.ram, vm.free, t, n, a / PGSIZE, |vm.free|);
      return false, t;
    }
    var f;
    f, t' := Resolve(vm, t, root, sz, a / PGSIZE);
    OneFault(t.m, a / PGSIZE, f, n);
    WroteNothing(old(vm.ram), t.m, vm.ram, t'.m, n, a);
    if f == 0 {
      return false, t';
    }
    var e := Lookup(vm, t', root, a / PGSIZE);
    if !Has(FlagsOf(e), W) {
      return false, t';
    }
    ghost var ram1 := vm.ram;
    PageWritten(vm.ram, vm.free, t', n, a, bs);
    UserWriteKeeps(vm.ram, vm.freelist, vm.free, t', n, a / PGSIZE, Overlay(vm.ram[f], a % PGSIZE, bs));
    vm.ram := vm.ram[f := Overlay(vm.ram[f], a % PGSIZE, bs)];
    WroteMore(old(vm.ram), t.m, ram1, t'.m, vm.ram, t'.m, n, a, [], bs);
    assert [] + bs == bs;
    return true, t';
  }

  /** A write to a user page disturbs neither tables nor the free list. */
  lemma UserWriteKeeps(ram: Ram, freelist: nat, free: seq<nat>, t: Tree, n: nat, v: nat, p: Page)
    requires UserOk(ram, free, t, n) && TreeOk(ram, t) && FreeList(ram, freelist, free) && v < n && v in t.m
    ensures var ram' := ram[PpnOf(t.m[v]) := p];
            PpnOf(t.m[v]) in ram && TreeOk(ram', t) && FreeList(ram', freelist, free)
  {
    assert PageOk(ram, free, t, v);
    var ram' := ram[PpnOf(t.m[v]) := p];
    TablesInRam(ram, t);
    FreeInRam(ram, freelist, free);
    hide TreeOk, FreeList, Tables, PpnOf;
    SameTree(ram, ram', t);
    FreeKept(ram, ram', freelist, free);
  }

  /** copyout: the first done bytes have been written, all of them on success; the rest of user
      memory is as it was. */
  method CopyOut(vm: Vm, ghost t: Tree, root: nat, sz: nat, dstva: nat,
                 src: seq<byte>) returns (ok: bool, ghost t': Tree, ghost done: nat)
    requires vm.Valid() && vm.Holds(t) && root == t.root && PageCount(sz) <= MAXPAGE
    requires UserOk(vm.ram, vm.free, t, PageCount(sz))
    modifies vm`ram, vm`freelist, vm`free
    ensures vm.Valid() && vm.Holds(t') && t'.root == root && UserOk(vm.ram, vm.free, t', PageCount(sz))
    ensures Conserved(old(vm.free), t, vm.free, t', PageCount(sz)) && done <= |src| && (ok <==> done == |src|)
    ensures Wrote(old(vm.ram), t.m, vm.ram, t'.m, PageCount(sz), dstva, src[..done])
    ensures done > 0 ==> (dstva + done - 1) / PGSIZE < PageCount(sz)
    ensures OnlyFaults(t.m, t'.m, PageCount(sz)) && Touchable(t'.m, dstva, done, true)
    ensures !ok ==> var v := (dstva + done) / PGSIZE; ReadOnly(t'.m, v) || Refused(t'.m, v, PageCount(sz), |vm.free|)
  {
    hide TreeOk, FreeList, Tables, Conserved, Alike, PageCount, FlagsOf, Has, UserOk, Wrote, Set, OnlyFaults, Touchable;
    ghost var n, free0, ram0 := PageCount(sz), vm.free, vm.ram;
    UserApart(vm.ram, vm.free, t, n);
    AlikeRefl(vm.ram, t.m, n);
    WroteNothing(vm.ram, t.m, vm.ram, t.m, n, dstva);
    OneFault(t.m, 0, 0, n);
    TouchNone(t.m, dstva, true);
    t', done := t, 0;
    var i := 0;
    while i < |src|
      invariant i == done <= |src| && vm.Valid() && vm.Holds(t') && t'.root == root && UserOk(vm.ram, vm.free, t', n)
      invariant Conserved(free0, t, vm.free, t', n) && Wrote(ram0, t.m, vm.ram, t'.m, n, dstva, src[..i])
      invariant done > 0 ==> (dstva + done - 1) / PGSIZE < n
      invariant OnlyFaults(t.m, t'.m, n) && Touchable(t'.m, dstva, done, true)
    {
      var a := dstva + i;
      var k := Chunk(a, |src| - i);
      ghost var t1, ram1, free1 := t', vm.ram, vm.free;
      ok, t' := CopyOutPage(vm, t1, root, sz, a, src[i..i + k]);
      OnlyFaultsTrans(t.m, t1.m, t'.m, n);
      ConservedTrans(free0, t, free1, t1, vm.free, t', n);
      if !ok {
        WroteMore(ram0, t.m, ram1, t1.m, vm.ram, t'.m, n, dstva, src[..i], []);
        assert src[..i] + [] == src[..i];
        TouchKept(t1.m, t'.m, n, dstva, i, true);
        return;
      }
      TouchMore(t1.m, t'.m, n, dstva, i, k, true);
      WroteMore(ram0, t.m, ram1, t1.m, vm.ram, t'.m, n, dstva, src[..i], src[i..i + k]);
      assert src[..i] + src[i..i + k] == src[..i + k];
      SamePageOf(a, k);
      i := i + k;
      done := i;
    }
    return true, t', done;
  }

  lemma SamePageOf(a: nat, k: nat)
    requires k > 0 && a % PGSIZE + k <= PGSIZE
    ensures (a + k - 1) / PGSIZE == a / PGSIZE
  {
  }

  lemma SeenAlike(ram: Ram, m: map<nat, nat>, ram': Ram, m': map<nat, nat>, n: nat, a: nat, len: nat)
    requires Alike(ram, m, ram', m', n) && (len > 0 ==> (a + len - 1) / PGSIZE < n)
    ensures Seen(ram', m', a, len) == Seen(ram, m, a, len)
  {
    var x, y := Seen(ram', m', a, len), Seen(ram, m, a, len);
    forall i | 0 <= i < len
      ensures x[i] == y[i]
    {
      DivUp(a + i, a + len - 1);
    }
  }

  lemma DivUp(x: nat, y: nat)
    requires x <= y
    ensures x / PGSIZE <= y / PGSIZE
  {
  }

  lemma SeenMore(ram: Ram, m: map<nat, nat>, a: nat, i: nat, k: nat)
    ensures Seen(ram, m, a, i) + Seen(ram, m, a + i, k) == Seen(ram, m, a, i + k)
  {
  }

  /** copyin: on success dst holds what the user sees at srcva; user memory looks the same after. */
  method CopyIn(vm: Vm, ghost t: Tree, root: nat, sz: nat, srcva: nat,
                len: nat) returns (ok: bool, dst: seq<byte>, ghost t': Tree)
    requires vm.Valid() && vm.Holds(t) && root == t.root && PageCount(sz) <= MAXPAGE
    requires UserOk(vm.ram, vm.free, t, PageCount(sz))
    modifies vm`ram, vm`freelist, vm`free
    ensures vm.Valid() && vm.Holds(t') && t'.root == root && UserOk(vm.ram, vm.free, t', PageCount(sz))
    ensures Conserved(old(vm.free), t, vm.free, t', PageCount(sz))
    ensures Alike(old(vm.ram), t.m, vm.ram, t'.m, PageCount(sz))
    ensures |dst| <= len && (ok <==> |dst| == len) && dst == Seen(old(vm.ram), t.m, srcva, |dst|)
    ensures dst != [] ==> (srcva + |dst| - 1) / PGSIZE < PageCount(sz)
    ensures OnlyFaults(t.m, t'.m, PageCount(sz)) && Touchable(t'.m, srcva, |dst|, false)
    ensures !ok ==> Refused(t'.m, (srcva + |dst|) / PGSIZE, PageCount(sz), |vm.free|)
  {
    hide TreeOk, FreeList, Tables, Conserved, Alike, PageCount, FlagsOf, Has, UserOk, Set, Seen, PpnOf, Pte, OnlyFaults,
         Touchable;
    ghost var n, free0, ram0 := PageCount(sz), vm.free, vm.ram;
    UserApart(vm.ram, vm.free, t, n);
    AlikeRefl(vm.ram, t.m, n);
    t', dst := t, [];
    SeenNone(ram0, t.m, srcva);
    OneFault(t.m, 0, 0, n);
    TouchNone(t.m, srcva, false);
    while |dst| < len
      invariant |dst| <= len && vm.Valid() && vm.Holds(t') && t'.root == root && UserOk(vm.ram, vm.free, t', n)
      invariant Conserved(free0, t, vm.free, t', n) && Alike(ram0, t.m, vm.ram, t'.m, n)
      invariant dst == Seen(ram0, t.m, srcva, |dst|) && (dst != [] ==> (srcva + |dst| - 1) / PGSIZE < n)
      invariant OnlyFaults(t.m, t'.m, n) && Touchable(t'.m, srcva, |dst|, false)
      decreases len - |dst|
    {
      var a := srcva + |dst|;
      var k := Chunk(a, len - |dst|);
      ghost var t1, ram1, free1 := t', vm.ram, vm.free;
      var f;
      f, t' := Resolve(vm, t1, root, sz, a / PGSIZE);
      OneFault(t1.m, a / PGSIZE, f, n);
      OnlyFaultsTrans(t.m, t1.m, t'.m, n);
      ConservedTrans(free0, t, free1, t1, vm.free, t', n);
      AlikeTrans(ram0, t.m, ram1, t1.m, vm.ram, t'.m, n);
      if f == 0 {
        return false, dst, t';
      }
      TouchMore(t1.m, t'.m, n, srcva, |dst|, k, false);
      PageRead(vm.ram, vm.free, t', n, a, k);
      SamePageOf(a, k);
      SeenAlike(ram0, t.m, vm.ram, t'.m, n, a, k);
      SeenMore(ram0, t.m, srcva, |dst|, k);
      dst := dst + vm.ram[f][a % PGSIZE..a % PGSIZE + k];
    }
    return true, dst, t';
  }

  lemma SeenNone(ram: Ram, m: map<nat, nat>, a: nat)
    ensures Seen(ram, m, a, 0) == []
  {
  }

  /** What was copied out is what a later copy in finds, and other user bytes are untouched. */
  lemma CopyOutSeen(ram0: Ram, m0: map<nat, nat>, ram: Ram, m: map<nat, nat>, n: nat, a: nat, bs: seq<byte>, x: nat,
                    len: nat)
    requires Wrote(ram0, m0, ram, m, n, a, bs) && (bs != [] ==> (a + |bs| - 1) / PGSIZE < n)
    requires x + len <= a || a + |bs| <= x
    requires len > 0 ==> (x + len - 1) / PGSIZE < n
    ensures Seen(ram, m, a, |bs|) == bs && Seen(ram, m, x, len) == Seen(ram0, m0, x, len)
  {
    var p := Seen(ram, m, a, |bs|);
    forall i | 0 <= i < |bs|
      ensures p[i] == bs[i]
    {
      DivUp(a + i, a + |bs| - 1);
    }
    var q, r := Seen(ram, m, x, len), Seen(ram0, m0, x, len);
    forall i | 0 <= i < len
      ensures q[i] == r[i]
    {
      DivUp(x + i, x + len - 1);
    }
  }

  lemma {:induction false} FramesFrom(m: map<nat, nat>, n: nat, k: nat)
    requires k < |Frames(m, 0, n)|
    ensures exists u :: u < n && u in m && PpnOf(m[u]) == Frames(m, 0, n)[k]
  {
    if n - 1 in m && k == |Frames(m, 0, n)| - 1 {
      assert PpnOf(m[n - 1]) == Frames(m, 0, n)[k];
    } else {
      FramesFrom(m, n - 1, k);
    }
  }

  lemma {:induction false} FramesDistinct(m: map<nat, nat>, n: nat)
    requires forall u, w :: u < n && w < n && u in m && w in m && u != w ==> PpnOf(m[u]) != PpnOf(m[w])
    ensures Distinct(Frames(m, 0, n))
  {
    if n > 0 {
      FramesDistinct(m, n - 1);
      var fs := Frames(m, 0, n - 1);
      forall k | 0 <= k < |fs|
        ensures n - 1 in m ==> fs[k] != PpnOf(m[n - 1])
      {
        FramesFrom(m, n - 1, k);
      }
    }
  }

  /** User memory that copyout and vmfault keep sound can be unmapped and freed. */
  lemma UserOwned(vm: Vm, t: Tree, n: nat)
    requires vm.Valid() && UserOk(vm.ram, vm.free, t, n)
    ensures Owned(vm, t, 0, n)
  {
    var fs := Frames(t.m, 0, n);
    FramesDistinct(t.m, n);
    forall k | 0 <= k < |fs|
      ensures vm.lo <= fs[k] < vm.hi && fs[k] !in vm.free && fs[k] !in Tables(t)
    {
      FramesFrom(t.m, n, k);
      var u :| u < n && u in t.m && PpnOf(t.m[u]) == fs[k];
      assert PageOk(vm.ram, vm.free, t, u);
    }
  }
}
