/** Every step of the queue keeps its invariant. */
module VirtioProofs {
  import opened Virtio

  // ----- counting -----

  lemma {:induction false} SetBound(u: set<nat>, n: nat)
    requires forall x :: x in u ==> x < n
    ensures |u| <= n
  {
    if n == 0 {
      assert u == {};
    } else {
      SetBound(u - {n - 1}, n - 1);
      assert u <= (u - {n - 1}) + {n - 1};
    }
  }

  ghost function Chains(reqs: map<nat, Request>): (u: set<nat>) {
    set r, i | r in reqs && i in Chain(reqs[r]) :: i
  }

  ghost predicate Triple(q: Request) {
    q.i0 < NUM && q.i1 < NUM && q.i2 < NUM && q.i0 != q.i1 && q.i0 != q.i2 && q.i1 != q.i2
  }

  lemma ChainsLess(reqs: map<nat, Request>, r: nat)
    requires Disjoint(reqs) && r in reqs
    ensures Chains(reqs) == Chains(reqs - {r}) + Chain(reqs[r]) && Chains(reqs - {r}) !! Chain(reqs[r])
  {
    hide Chain;
    var rest := reqs - {r};
    forall i | i in Chains(reqs)
      ensures i in Chains(rest) + Chain(reqs[r])
    {
      var q :| q in reqs && i in Chain(reqs[q]);
      assert q != r ==> q in rest && rest[q] == reqs[q];
    }
  }

  lemma DisjointLess(reqs: map<nat, Request>, r: nat)
    requires Disjoint(reqs)
    ensures Disjoint(reqs - {r})
  {
    hide Chain;
  }

  lemma {:induction false} ChainsSize(reqs: map<nat, Request>)
    requires Disjoint(reqs) && forall r :: r in reqs ==> Triple(reqs[r])
    ensures |Chains(reqs)| == 3 * |reqs| && forall i :: i in Chains(reqs) ==> i < NUM
    decreases |reqs|
  {
    hide Chain, Disjoint, Triple;
    if reqs.Keys != {} {
      var r :| r in reqs.Keys;
      var rest := reqs - {r};
      assert rest.Keys == reqs.Keys - {r};
      DisjointLess(reqs, r);
      ChainsSize(rest);
      ChainsLess(reqs, r);
      ChainSize(reqs[r]);
    } else {
      assert Chains(reqs) == {};
    }
  }

  lemma ChainSize(q: Request)
    requires Triple(q)
    ensures |Chain(q)| == 3 && forall i :: i in Chain(q) ==> i < NUM
  {
    assert Chain(q) == {q.i0} + {q.i1} + {q.i2};
  }

  lemma {:induction false} QueuedBound(reqs: map<nat, Request>, lo: nat, hi: nat)
    requires lo <= hi && forall n :: lo <= n < hi ==> IsQueued(reqs, n)
    ensures hi - lo <= |reqs|
    decreases hi - lo
  {
    if lo < hi {
      assert IsQueued(reqs, hi - 1);
      var r :| r in reqs && reqs[r].phase == Queued(hi - 1);
      var rest := reqs - {r};
      forall n | lo <= n < hi - 1
        ensures IsQueued(rest, n)
      {
        assert IsQueued(reqs, n);
        var q :| q in reqs && reqs[q].phase == Queued(n);
        assert q in rest;
      }
      assert rest.Keys == reqs.Keys - {r};
      QueuedBound(rest, lo, hi - 1);
    }
  }

  lemma {:induction false} UsedBound(reqs: map<nat, Request>, lo: nat, hi: nat)
    requires lo <= hi && forall m :: lo <= m < hi ==> IsUsed(reqs, m)
    ensures hi - lo <= |reqs|
    decreases hi - lo
  {
    if lo < hi {
      assert IsUsed(reqs, hi - 1);
      var r :| r in reqs && reqs[r].phase == Used(hi - 1);
      var rest := reqs - {r};
      forall m | lo <= m < hi - 1
        ensures IsUsed(rest, m)
      {
        assert IsUsed(reqs, m);
        var q :| q in reqs && reqs[q].phase == Used(m);
        assert q in rest;
      }
      assert rest.Keys == reqs.Keys - {r};
      UsedBound(rest, lo, hi - 1);
    }
  }

  /** At most two requests are under way, so neither ring is ever near full. */
  lemma Windows(s: State, g: Track)
    requires Inv(s, g)
    ensures |g.reqs| <= 2 && g.availN - g.takenN <= 2 && g.usedN - g.seenN <= 2
  {
    hide InPhase, Counted, Accounted, Indexed, Locked, History, Chain;
    forall r | r in g.reqs
      ensures Triple(g.reqs[r])
    {
      assert ReqOk(s, g, r);
    }
    ChainsSize(g.reqs);
    SetBound(Chains(g.reqs), NUM);
    QueuedBound(g.reqs, g.takenN, g.availN);
    UsedBound(g.reqs, g.seenN, g.usedN);
  }

  // ----- indices that wrap -----

  lemma Wraps(n: nat)
    ensures n % TWO16 % NUM == n % NUM && (n % TWO16 + 1) % TWO16 == (n + 1) % TWO16
  {
    var q, x := n / TWO16, n % TWO16;
    assert n == NUM * (0x2000 * q) + x;
    if x + 1 == TWO16 {
      assert n + 1 == TWO16 * (q + 1);
    } else {
      assert n + 1 == TWO16 * q + (x + 1);
    }
  }

  lemma SameIndex(lo: nat, hi: nat)
    requires lo <= hi <= lo + NUM
    ensures lo % TWO16 == hi % TWO16 <==> lo == hi
  {
  }

  lemma OtherSlot(lo: nat, hi: nat)
    requires lo < hi < lo + NUM
    ensures lo % NUM != hi % NUM
  {
  }

  // ----- frames -----

  /** What Formed looks at, apart from the request itself. */
  ghost predicate SameChain(s: State, s': State, q: Request)
    requires Shape(s) && Shape(s')
  {
    && (forall i :: i in Chain(q) && i < NUM ==> s'.free[i] == s.free[i] && s'.desc[i] == s.desc[i]
                                                 && s'.ops[i] == s.ops[i] && s'.info[i].b == s.info[i].b)
    && (q.block in s.disk ==> q.block in s'.disk)
  }

  lemma FormedFrame(s: State, s': State, q: Request, q': Request)
    requires Shape(s) && Shape(s') && Formed(s, q) && SameChain(s, s', q)
    requires q' == q.(v := q'.v, phase := q'.phase) && q.b in s'.contents && s'.contents[q.b] == q'.v
    ensures Formed(s', q')
  {
    assert q.i0 in Chain(q) && q.i1 in Chain(q) && q.i2 in Chain(q);
  }

  /** Every position on the rings keeps its request if only r changes phase. */
  lemma PhaseBacked(s: State, g: Track, g': Track, r: nat)
    requires Backed(s, g) && r in g.reqs && g'.takenN <= g'.availN && g'.seenN <= g'.usedN
    requires forall q :: q in g.reqs && q != r ==> q in g'.reqs && g'.reqs[q] == g.reqs[q]
    requires forall n :: g'.takenN <= n < g'.availN ==>
               (g.takenN <= n < g.availN && g.reqs[r].phase != Queued(n)) || IsQueued(g'.reqs, n)
    requires forall m :: g'.seenN <= m < g'.usedN ==>
               (g.seenN <= m < g.usedN && g.reqs[r].phase != Used(m)) || IsUsed(g'.reqs, m)
    ensures forall n :: g'.takenN <= n < g'.availN ==> IsQueued(g'.reqs, n)
    ensures forall m :: g'.seenN <= m < g'.usedN ==> IsUsed(g'.reqs, m)
    ensures forall h :: h in s.inflight && h != g.reqs[r].i0 ==> IsTaken(g'.reqs, h)
  {
    forall n | g'.takenN <= n < g'.availN
      ensures IsQueued(g'.reqs, n)
    {
      if g.takenN <= n < g.availN && g.reqs[r].phase != Queued(n) {
        assert IsQueued(g.reqs, n);
        var q :| q in g.reqs && g.reqs[q].phase == Queued(n);
        assert q in g'.reqs && g'.reqs[q].phase == Queued(n);
      }
    }
    forall m | g'.seenN <= m < g'.usedN
      ensures IsUsed(g'.reqs, m)
    {
      if g.seenN <= m < g.usedN && g.reqs[r].phase != Used(m) {
        assert IsUsed(g.reqs, m);
        var q :| q in g.reqs && g.reqs[q].phase == Used(m);
        assert q in g'.reqs && g'.reqs[q].phase == Used(m);
      }
    }
    forall h | h in s.inflight && h != g.reqs[r].i0
      ensures IsTaken(g'.reqs, h)
    {
      assert IsTaken(g.reqs, h);
      var q :| q in g.reqs && g.reqs[q].phase.Taken? && g.reqs[q].i0 == h;
      assert q in g'.reqs && g'.reqs[q].phase.Taken? && g'.reqs[q].i0 == h;
    }
  }

  lemma MoreBacked(s: State, s': State, g: Track, g': Track)
    requires Backed(s, g) && s'.inflight == s.inflight
    requires g'.availN == g.availN && g'.takenN == g.takenN && g'.usedN == g.usedN && g'.seenN == g.seenN
    requires forall q :: q in g.reqs ==> q in g'.reqs && g'.reqs[q] == g.reqs[q]
    ensures Backed(s', g')
  {
    forall n | g.takenN <= n < g.availN
      ensures IsQueued(g'.reqs, n)
    {
      assert IsQueued(g.reqs, n);
      var q :| q in g.reqs && g.reqs[q].phase == Queued(n);
      assert q in g'.reqs;
    }
    forall m | g.seenN <= m < g.usedN
      ensures IsUsed(g'.reqs, m)
    {
      assert IsUsed(g.reqs, m);
      var q :| q in g.reqs && g.reqs[q].phase == Used(m);
      assert q in g'.reqs;
    }
    forall h | h in s.inflight
      ensures IsTaken(g'.reqs, h)
    {
      assert IsTaken(g.reqs, h);
      var q :| q in g.reqs && g.reqs[q].phase.Taken? && g.reqs[q].i0 == h;
      assert q in g'.reqs;
    }
  }

  /** Free descriptors are in no chain, and their numbers not with the device. */
  lemma FreeUnused(s: State, g: Track, i: nat)
    requires Shape(s) && Reqs(s, g) && Backed(s, g) && i < NUM && s.free[i]
    ensures i !in s.inflight && forall p :: p in g.reqs ==> i !in Chain(g.reqs[p])
  {
    forall p | p in g.reqs
      ensures i !in Chain(g.reqs[p])
    {
      assert ReqOk(s, g, p);
    }
    hide ReqOk;
    assert i in s.inflight ==> IsTaken(g.reqs, i);
    assert forall p :: p in g.reqs ==> g.reqs[p].i0 in Chain(g.reqs[p]);
  }

  lemma FormatNew(s: State, q: Request)
    requires Shape(s) && Triple(q) && q.b in s.contents && q.v == s.contents[q.b]
    requires q.block in s.disk && q.phase.Formatted? && s.info[q.i1].b == NoBuf && s.info[q.i2].b == NoBuf
    ensures Formed(Format(s, q.b, q.write, q.block, q.i0, q.i1, q.i2), q)
  {
  }

  lemma FormatOld(s: State, q: Request, p: Request)
    requires Shape(s) && Triple(q) && Formed(s, p) && p.b != q.b && Chain(q) !! Chain(p)
    ensures Formed(Format(s, q.b, q.write, q.block, q.i0, q.i1, q.i2), p)
  {
    assert p.i0 in Chain(p) && p.i1 in Chain(p) && p.i2 in Chain(p);
    assert q.i0 in Chain(q) && q.i1 in Chain(q) && q.i2 in Chain(q);
    FormedFrame(s, Format(s, q.b, q.write, q.block, q.i0, q.i1, q.i2), p, p);
  }

  /** A new request r = q, with three free descriptors and a buffer of its own. */
  ghost predicate Entering(s: State, g: Track, r: nat, q: Request)
    requires Shape(s)
  {
    && s.lock.Unlocked? && r !in g.reqs && r !in g.returned && r !in g.completed && r !in g.reported
    && Triple(q) && q.b in s.contents && q.v == s.contents[q.b] && q.block in s.disk && q.phase.Formatted?
    && (forall p :: p in g.reqs ==> g.reqs[p].b != q.b && Chain(q) !! Chain(g.reqs[p]))
    && q.i0 !in s.inflight && s.info[q.i1].b == NoBuf && s.info[q.i2].b == NoBuf
  }

  function Entered(s: State, r: nat, q: Request): (s': State)
    requires Shape(s) && q.i0 < NUM && q.i1 < NUM && q.i2 < NUM
    ensures Shape(s')
  {
    Format(s, q.b, q.write, q.block, q.i0, q.i1, q.i2).(lock := HeldBy(r))
  }

  lemma EnterReq(s: State, g: Track, r: nat, q: Request, p: nat)
    requires Shape(s) && Entering(s, g, r, q) && (p == r || (p in g.reqs && ReqOk(s, g, p)))
    ensures ReqOk(Entered(s, r, q), g.(reqs := g.reqs[r := q]), p)
  {
    var s' := Entered(s, r, q);
    if p == r {
      FormatNew(s, q);
      FormedFrame(Format(s, q.b, q.write, q.block, q.i0, q.i1, q.i2), s', q, q);
    } else {
      FormatOld(s, q, g.reqs[p]);
      FormedFrame(Format(s, q.b, q.write, q.block, q.i0, q.i1, q.i2), s', g.reqs[p], g.reqs[p]);
    }
  }

  lemma EnterAccounted(s: State, g: Track, r: nat, q: Request)
    requires Shape(s) && Entering(s, g, r, q) && Accounted(s, g)
    ensures Accounted(Entered(s, r, q), g.(reqs := g.reqs[r := q]))
  {
    var s', reqs' := Entered(s, r, q), g.reqs[r := q];
    forall i | 0 <= i < NUM && !s'.free[i]
      ensures InChain(reqs', i)
    {
      if i in Chain(q) {
        assert r in reqs';
      } else {
        assert InChain(g.reqs, i);
        var p :| p in g.reqs && i in Chain(g.reqs[p]);
        assert p in reqs' && reqs'[p] == g.reqs[p];
      }
    }
  }

  lemma EnterDisjoint(s: State, g: Track, r: nat, q: Request)
    requires Shape(s) && Entering(s, g, r, q) && Disjoint(g.reqs)
    ensures Disjoint(g.reqs[r := q])
  {
    hide Chain;
  }

  lemma SubmitEnters(s: State, g: Track, step: Step)
    requires Inv(s, g) && step.Submit? && Enabled(s, g, step)
    ensures var q := Request(step.i0, step.i1, step.i2, step.b, step.write, step.block, s.contents[step.b], Formatted);
            Entering(s, g, step.r, q)
  {
    hide ReqOk, Accounted, Disjoint;
    FreeUnused(s, g, step.i0);
    FreeUnused(s, g, step.i1);
    FreeUnused(s, g, step.i2);
  }

  lemma EnterKeeps(s: State, g: Track, r: nat, q: Request)
    requires Inv(s, g) && Entering(s, g, r, q)
    ensures Inv(Entered(s, r, q), g.(reqs := g.reqs[r := q]))
  {
    hide ReqOk, Accounted, Disjoint, Backed, Chain;
    var s', g' := Entered(s, r, q), g.(reqs := g.reqs[r := q]);
    forall p | p in g'.reqs
      ensures ReqOk(s', g', p)
    {
      EnterReq(s, g, r, q, p);
    }
    EnterAccounted(s, g, r, q);
    EnterDisjoint(s, g, r, q);
    MoreBacked(s, s', g, g');
  }

  lemma SubmitKeeps(s: State, g: Track, step: Step)
    requires Inv(s, g) && step.Submit? && Enabled(s, g, step)
    ensures Inv(Apply(s, g, step), Follow(s, g, step))
  {
    hide Inv;
    SubmitEnters(s, g, step);
    EnterKeeps(s, g, step.r,
               Request(step.i0, step.i1, step.i2, step.b, step.write, step.block, s.contents[step.b], Formatted));
  }

  // ----- steps that move one request along -----

  /** g' is g with request r in another phase, perhaps with another value and other counters. */
  ghost predicate Moved(g: Track, g': Track, r: nat) {
    && r in g.reqs && g'.reqs.Keys == g.reqs.Keys && g'.returned == g.returned
    && (forall q :: q in g.reqs && q != r ==> g'.reqs[q] == g.reqs[q])
    && g'.reqs[r] == g.reqs[r].(v := g'.reqs[r].v, phase := g'.reqs[r].phase)
  }

  lemma MovedChains(s: State, s': State, g: Track, g': Track, r: nat)
    requires Shape(s) && Shape(s') && s'.free == s.free && Moved(g, g', r) && Disjoint(g.reqs) && Accounted(s, g)
    ensures Disjoint(g'.reqs) && Accounted(s', g')
  {
    assert forall q :: q in g.reqs ==> Chain(g'.reqs[q]) == Chain(g.reqs[q]) && g'.reqs[q].b == g.reqs[q].b;
    hide Chain;
    forall i | 0 <= i < NUM && !s'.free[i]
      ensures InChain(g'.reqs, i)
    {
      assert InChain(g.reqs, i);
      var q :| q in g.reqs && i in Chain(g.reqs[q]);
      assert q in g'.reqs;
    }
  }

  function Ring(s: State, n: nat, head: nat): (s': State)
    requires Shape(s)
    ensures Shape(s')
  {
    s.(avail := s.avail[n % NUM := head])
  }

  lemma RingPhase(s: State, g: Track, r: nat, p: nat)
    requires Shape(s) && r in g.reqs && p in g.reqs && g.reqs[r].phase.Formatted? && s.lock == HeldBy(r)
    requires g.takenN <= g.availN <= g.takenN + 2 && InPhase(s, g, p, g.reqs[p])
    ensures var g' := g.(reqs := WithPhase(g.reqs, r, Ringed)); InPhase(Ring(s, g.availN, g.reqs[r].i0), g', p,
                                                                        g'.reqs[p])
  {
    if p != r && g.reqs[p].phase.Queued? {
      OtherSlot(g.reqs[p].phase.n, g.availN);
    }
  }

  /** A step that moves one request keeps the invariant if it keeps these parts of it. */
  lemma MovedInv(s: State, s': State, g: Track, g': Track, r: nat)
    requires Inv(s, g) && Shape(s') && s'.free == s.free && s'.desc == s.desc && Moved(g, g', r)
    requires forall i :: 0 <= i < NUM ==> s'.info[i].b == s.info[i].b
    requires Reqs(s', g') && Backed(s', g') && Indexed(s', g') && Locked(s', g') && History(g')
    ensures Inv(s', g')
  {
    hide Disjoint, Accounted, Reqs;
    MovedChains(s, s', g, g', r);
  }

  /** The parts of one request's soundness. */
  lemma ReqParts(s: State, g: Track, p: nat)
    requires Inv(s, g) && p in g.reqs
    ensures Formed(s, g.reqs[p]) && InPhase(s, g, p, g.reqs[p]) && Counted(g, p)
  {
    assert ReqOk(s, g, p);
  }

  lemma ReqIs(s: State, g: Track, p: nat)
    requires Shape(s) && p in g.reqs && Formed(s, g.reqs[p]) && InPhase(s, g, p, g.reqs[p]) && Counted(g, p)
    ensures ReqOk(s, g, p)
  {
  }

  lemma RingReqs(s: State, g: Track, r: nat)
    requires Inv(s, g) && r in g.reqs && g.reqs[r].phase.Formatted? && s.lock == HeldBy(r)
    ensures Reqs(Ring(s, g.availN, g.reqs[r].i0), g.(reqs := WithPhase(g.reqs, r, Ringed)))
  {
    hide ReqOk, Indexed, Locked, History, Disjoint, Accounted, Blanked, Formed, InPhase, SameChain;
    var s', g' := Ring(s, g.availN, g.reqs[r].i0), g.(reqs := WithPhase(g.reqs, r, Ringed));
    Windows(s, g);
    forall p | p in g.reqs
      ensures ReqOk(s', g', p)
    {
      ReqParts(s, g, p);
      RingChain(s, g.availN, g.reqs[r].i0, g.reqs[p], g'.reqs[p]);
      RingPhase(s, g, r, p);
      ReqIs(s', g', p);
    }
  }

  lemma RingKeeps(s: State, g: Track, r: nat)
    requires Inv(s, g) && r in g.reqs && g.reqs[r].phase.Formatted? && s.lock == HeldBy(r)
    ensures Inv(Ring(s, g.availN, g.reqs[r].i0), g.(reqs := WithPhase(g.reqs, r, Ringed)))
  {
    hide Reqs, Disjoint, Accounted, Blanked, Formed, InPhase, SameChain;
    var s', g' := Ring(s, g.availN, g.reqs[r].i0), g.(reqs := WithPhase(g.reqs, r, Ringed));
    RingReqs(s, g, r);
    PhaseBacked(s, g, g', r);
    RootTaken(s, g, r);
    MovedInv(s, s', g, g', r);
  }

  lemma RingChain(s: State, n: nat, head: nat, q: Request, q': Request)
    requires Shape(s) && Formed(s, q) && q' == q.(phase := q'.phase)
    ensures Formed(Ring(s, n, head), q')
  {
    FormedFrame(s, Ring(s, n, head), q, q');
  }

  /** A request that is not with the device is not in flight. */
  lemma RootTaken(s: State, g: Track, r: nat)
    requires Inv(s, g) && r in g.reqs && !g.reqs[r].phase.Taken?
    ensures g.reqs[r].i0 !in s.inflight
  {
    assert ReqOk(s, g, r);
  }

  /** Steps that leave descriptors, buffers and disk alone. */
  lemma QuietChain(s: State, s': State, q: Request, q': Request)
    requires Shape(s) && Shape(s') && Formed(s, q) && q' == q.(phase := q'.phase)
    requires s'.free == s.free && s'.desc == s.desc && s'.ops == s.ops && s'.info == s.info
    requires s'.contents == s.contents && s'.disk == s.disk
    ensures Formed(s', q')
  {
    FormedFrame(s, s', q, q');
  }

  function Bumped(s: State): (s': State)
    requires Shape(s)
    ensures Shape(s')
  {
    s.(availIdx := (s.availIdx + 1) % TWO16, lock := Unlocked)
  }

  lemma BumpReqs(s: State, g: Track, r: nat)
    requires Inv(s, g) && r in g.reqs && g.reqs[r].phase.Ringed? && s.lock == HeldBy(r)
    ensures Reqs(Bumped(s), g.(reqs := WithPhase(g.reqs, r, Queued(g.availN)), availN := g.availN + 1))
  {
    hide ReqOk, Indexed, Locked, History, Disjoint, Accounted, Blanked, Formed, InPhase, SameChain;
    var s', g' := Bumped(s), g.(reqs := WithPhase(g.reqs, r, Queued(g.availN)), availN := g.availN + 1);
    forall p | p in g.reqs
      ensures ReqOk(s', g', p)
    {
      ReqParts(s, g, p);
      QuietChain(s, s', g.reqs[p], g'.reqs[p]);
      BumpPhase(s, g, r, p);
      ReqIs(s', g', p);
    }
  }

  lemma BumpKeeps(s: State, g: Track, r: nat)
    requires Inv(s, g) && r in g.reqs && g.reqs[r].phase.Ringed? && s.lock == HeldBy(r)
    ensures Inv(Bumped(s), g.(reqs := WithPhase(g.reqs, r, Queued(g.availN)), availN := g.availN + 1))
  {
    hide Reqs, Disjoint, Accounted, Blanked, Formed, InPhase, SameChain;
    var s', g' := Bumped(s), g.(reqs := WithPhase(g.reqs, r, Queued(g.availN)), availN := g.availN + 1);
    BumpReqs(s, g, r);
    assert r in g'.reqs && IsQueued(g'.reqs, g.availN);
    PhaseBacked(s, g, g', r);
    RootTaken(s, g, r);
    Wraps(g.availN);
    MovedInv(s, s', g, g', r);
  }

  lemma BumpPhase(s: State, g: Track, r: nat, p: nat)
    requires Shape(s) && r in g.reqs && p in g.reqs && g.reqs[r].phase.Ringed? && s.lock == HeldBy(r)
    requires g.takenN <= g.availN && InPhase(s, g, p, g.reqs[p])
    ensures var g' := g.(reqs := WithPhase(g.reqs, r, Queued(g.availN)), availN := g.availN + 1);
            InPhase(Bumped(s), g', p, g'.reqs[p])
  {
  }

  /** The chain that starts at a head belongs to one request. */
  lemma OwnerIs(reqs: map<nat, Request>, r: nat)
    requires Disjoint(reqs) && r in reqs
    ensures Owned(reqs, reqs[r].i0) && Owner(reqs, reqs[r].i0) == r
    ensures forall p :: p in reqs && p != r ==> reqs[p].i0 != reqs[r].i0 && reqs[p].b != reqs[r].b
  {
    assert forall p :: p in reqs ==> reqs[p].i0 in Chain(reqs[p]);
    hide Chain;
  }

  function TakenBy(s: State, head: nat): (s': State)
    requires Shape(s)
    ensures Shape(s')
  {
    s.(inflight := s.inflight + {head}, takenIdx := (s.takenIdx + 1) % TWO16)
  }

  ghost function TakeTrack(g: Track, r: nat): (g': Track)
    requires r in g.reqs
  {
    g.(reqs := WithPhase(g.reqs, r, Taken), takenN := g.takenN + 1)
  }

  lemma TakePhase(s: State, g: Track, r: nat, p: nat)
    requires Shape(s) && r in g.reqs && p in g.reqs && g.reqs[r].phase == Queued(g.takenN)
    requires InPhase(s, g, r, g.reqs[r]) && InPhase(s, g, p, g.reqs[p]) && (p != r ==> g.reqs[p].i0 != g.reqs[r].i0)
    ensures var g' := TakeTrack(g, r); InPhase(TakenBy(s, g.reqs[r].i0), g', p, g'.reqs[p])
  {
  }

  lemma TakeReqs(s: State, g: Track, r: nat)
    requires Inv(s, g) && r in g.reqs && g.reqs[r].phase == Queued(g.takenN) && g.takenN < g.availN
    ensures Reqs(TakenBy(s, g.reqs[r].i0), TakeTrack(g, r))
  {
    hide ReqOk, Indexed, Locked, History, Disjoint, Accounted, Blanked, Formed, InPhase, SameChain;
    var s', g' := TakenBy(s, g.reqs[r].i0), TakeTrack(g, r);
    ReqParts(s, g, r);
    OwnerIs(g.reqs, r);
    forall p | p in g.reqs
      ensures ReqOk(s', g', p)
    {
      ReqParts(s, g, p);
      QuietChain(s, s', g.reqs[p], g'.reqs[p]);
      TakePhase(s, g, r, p);
      ReqIs(s', g', p);
    }
  }

  lemma TakeMoves(s: State, g: Track, r: nat)
    requires Inv(s, g) && r in g.reqs && g.reqs[r].phase == Queued(g.takenN) && g.takenN < g.availN
    ensures Inv(TakenBy(s, g.reqs[r].i0), TakeTrack(g, r))
  {
    hide Reqs, Disjoint, Accounted, Blanked, Formed, InPhase, SameChain;
    var s', g' := TakenBy(s, g.reqs[r].i0), TakeTrack(g, r);
    TakeReqs(s, g, r);
    PhaseBacked(s, g, g', r);
    assert r in g'.reqs && IsTaken(g'.reqs, g.reqs[r].i0);
    Wraps(g.takenN);
    MovedInv(s, s', g, g', r);
  }

  /** The entry the device takes is the oldest queued request. */
  lemma TakeFinds(s: State, g: Track) returns (r: nat)
    requires Inv(s, g) && s.takenIdx != s.availIdx
    ensures g.takenN < g.availN && r in g.reqs && g.reqs[r].phase == Queued(g.takenN) && Head(s) == g.reqs[r].i0
  {
    hide Reqs, Disjoint, Accounted, Formed;
    Windows(s, g);
    SameIndex(g.takenN, g.availN);
    assert IsQueued(g.reqs, g.takenN);
    r :| r in g.reqs && g.reqs[r].phase == Queued(g.takenN);
    ReqParts(s, g, r);
    Wraps(g.takenN);
  }

  function Acked(s: State, b: nat): (s': State)
    requires Shape(s)
    ensures Shape(s')
  {
    s.(busy := s.busy - {b}, seenIdx := (s.seenIdx + 1) % TWO16)
  }

  ghost function AckTrack(g: Track, r: nat): (g': Track)
    requires r in g.reqs
  {
    g.(reqs := WithPhase(g.reqs, r, Seen), seenN := g.seenN + 1, reported := g.reported[r := Count(g.reported, r) + 1])
  }

  lemma AckPhase(s: State, g: Track, r: nat, p: nat)
    requires Shape(s) && r in g.reqs && p in g.reqs && g.reqs[r].phase == Used(g.seenN)
    requires InPhase(s, g, r, g.reqs[r]) && InPhase(s, g, p, g.reqs[p])
    requires p != r ==> g.reqs[p].i0 != g.reqs[r].i0 && g.reqs[p].b != g.reqs[r].b
    ensures var g' := AckTrack(g, r); InPhase(Acked(s, g.reqs[r].b), g', p, g'.reqs[p])
  {
  }

  lemma AckReqs(s: State, g: Track, r: nat)
    requires Inv(s, g) && r in g.reqs && g.reqs[r].phase == Used(g.seenN) && g.seenN < g.usedN
    ensures Reqs(Acked(s, g.reqs[r].b), AckTrack(g, r))
  {
    hide ReqOk, Indexed, Locked, History, Disjoint, Accounted, Blanked, Formed, InPhase, SameChain;
    var s', g' := Acked(s, g.reqs[r].b), AckTrack(g, r);
    ReqParts(s, g, r);
    OwnerIs(g.reqs, r);
    forall p | p in g.reqs
      ensures ReqOk(s', g', p)
    {
      ReqParts(s, g, p);
      QuietChain(s, s', g.reqs[p], g'.reqs[p]);
      AckPhase(s, g, r, p);
      ReqIs(s', g', p);
    }
  }

  lemma AckMoves(s: State, g: Track, r: nat)
    requires Inv(s, g) && r in g.reqs && g.reqs[r].phase == Used(g.seenN) && g.seenN < g.usedN
    ensures Inv(Acked(s, g.reqs[r].b), AckTrack(g, r))
  {
    hide Reqs, Disjoint, Accounted, Blanked, Formed, InPhase, SameChain;
    var s', g' := Acked(s, g.reqs[r].b), AckTrack(g, r);
    ReqParts(s, g, r);
    AckReqs(s, g, r);
    PhaseBacked(s, g, g', r);
    RootTaken(s, g, r);
    Wraps(g.seenN);
    MovedInv(s, s', g, g', r);
  }

  /** The entry the handler sees is the oldest completed request. */
  lemma AckFinds(s: State, g: Track) returns (r: nat)
    requires Inv(s, g) && s.seenIdx != s.usedIdx
    ensures g.seenN < g.usedN && r in g.reqs && g.reqs[r].phase == Used(g.seenN) && Reported(s) == g.reqs[r].i0
    ensures Reported(s) < NUM && s.info[Reported(s)].b == Buf(g.reqs[r].b)
  {
    hide Reqs, Disjoint, Accounted;
    Windows(s, g);
    SameIndex(g.seenN, g.usedN);
    assert IsUsed(g.reqs, g.seenN);
    r :| r in g.reqs && g.reqs[r].phase == Used(g.seenN);
    ReqParts(s, g, r);
    Wraps(g.seenN);
  }

  // ----- completion -----

  /** What the device reads from a request's chain is what the request asked for. */
  lemma FormedReads(s: State, q: Request)
    requires Shape(s) && Formed(s, q)
    ensures Readable(s, q.i0) && Second(s, q.i0) == q.i1 && Third(s, q.i0) == q.i2
    ensures s.desc[q.i1].addr == Data(q.b) && s.desc[q.i2].addr == Status(q.i0)
    ensures s.ops[q.i0] == Command(q.write, q.block)
  {
  }

  /** The transfer of request q: a write stores the buffer, a read fills it, nothing else moves. */
  lemma TransferMeans(s: State, q: Request, status: nat)
    requires Shape(s) && Formed(s, q)
    ensures Readable(s, q.i0)
    ensures var s' := Transferred(s, q.i0, status);
            && s'.disk == (if q.write then s.disk[q.block := q.v] else s.disk)
            && s'.contents == (if q.write then s.contents else s.contents[q.b := s.disk[q.block]])
            && s'.info == s.info[q.i0 := s.info[q.i0].(status := status)]
            && s' == s.(info := s'.info, used := s.used[s.usedIdx % NUM := q.i0], usedIdx := (s.usedIdx + 1) % TWO16,
                        inflight := s.inflight - {q.i0}, disk := s'.disk, contents := s'.contents)
  {
    FormedReads(s, q);
  }

  ghost function CompleteTrack(s: State, g: Track, r: nat): (g': Track)
    requires r in g.reqs
  {
    g.(reqs := g.reqs[r := Served(s, g.reqs[r]).(phase := Used(g.usedN))], usedN := g.usedN + 1,
       completed := g.completed[r := Count(g.completed, r) + 1])
  }

  lemma CompleteChain(s: State, q: Request, status: nat, p: Request, p': Request)
    requires Shape(s) && Formed(s, q) && Formed(s, p) && Readable(s, q.i0)
    requires (p == q && p' == Served(s, q).(phase := p'.phase)) || (p.b != q.b && p' == p)
    ensures Formed(Transferred(s, q.i0, status), p')
  {
    TransferMeans(s, q, status);
    hide Transferred;
    var s' := Transferred(s, q.i0, status);
    assert SameChain(s, s', p);
    hide SameChain, Chained;
    FormedFrame(s, s', p, p');
  }

  lemma CompletePhase(s: State, g: Track, r: nat, status: nat, p: nat)
    requires Shape(s) && r in g.reqs && p in g.reqs && g.reqs[r].phase.Taken? && Formed(s, g.reqs[r])
    requires s.usedIdx == g.usedN % TWO16 && g.seenN <= g.usedN <= g.seenN + 2
    requires InPhase(s, g, r, g.reqs[r]) && InPhase(s, g, p, g.reqs[p]) && (p != r ==> g.reqs[p].i0 != g.reqs[r].i0)
    ensures Readable(s, g.reqs[r].i0)
    ensures var g' := CompleteTrack(s, g, r); InPhase(Transferred(s, g.reqs[r].i0, status), g', p, g'.reqs[p])
  {
    TransferMeans(s, g.reqs[r], status);
    hide Transferred, Formed, Readable;
    Wraps(g.usedN);
    if g.reqs[p].phase.Used? {
      OtherSlot(g.reqs[p].phase.m, g.usedN);
    }
  }

  lemma CompleteReqs(s: State, g: Track, r: nat, status: nat)
    requires Inv(s, g) && r in g.reqs && g.reqs[r].phase.Taken? && Readable(s, g.reqs[r].i0)
    ensures Reqs(Transferred(s, g.reqs[r].i0, status), CompleteTrack(s, g, r))
  {
    hide ReqOk, Locked, History, Disjoint, Accounted, Blanked, Formed, InPhase, Transferred, Readable;
    var q, s', g' := g.reqs[r], Transferred(s, g.reqs[r].i0, status), CompleteTrack(s, g, r);
    ReqParts(s, g, r);
    TransferMeans(s, q, status);
    OwnerIs(g.reqs, r);
    Windows(s, g);
    forall p | p in g.reqs
      ensures ReqOk(s', g', p)
    {
      ReqParts(s, g, p);
      CompleteChain(s, q, status, g.reqs[p], g'.reqs[p]);
      CompletePhase(s, g, r, status, p);
      ReqIs(s', g', p);
    }
  }

  lemma CompleteMoves(s: State, g: Track, r: nat, status: nat)
    requires Inv(s, g) && r in g.reqs && g.reqs[r].phase.Taken? && Readable(s, g.reqs[r].i0)
    ensures Inv(Transferred(s, g.reqs[r].i0, status), CompleteTrack(s, g, r))
  {
    hide Reqs, Disjoint, Accounted, Blanked, Formed, InPhase, Transferred, Readable;
    var q, s', g' := g.reqs[r], Transferred(s, g.reqs[r].i0, status), CompleteTrack(s, g, r);
    ReqParts(s, g, r);
    TransferMeans(s, q, status);
    CompleteReqs(s, g, r, status);
    CompleteBacked(s, s', g, g', r);
    Wraps(g.usedN);
    MovedInv(s, s', g, g', r);
  }

  lemma CompleteBacked(s: State, s': State, g: Track, g': Track, r: nat)
    requires Backed(s, g) && r in g.reqs && g' == CompleteTrack(s, g, r) && s'.inflight == s.inflight - {g.reqs[r].i0}
    requires g.reqs[r].phase.Taken?
    ensures Backed(s', g')
  {
    assert r in g'.reqs && IsUsed(g'.reqs, g.usedN);
    PhaseBacked(s, g, g', r);
  }

  /** What the device works on is a request that was taken. */
  lemma CompleteFinds(s: State, g: Track, head: nat) returns (r: nat)
    requires Inv(s, g) && head in s.inflight
    ensures r in g.reqs && g.reqs[r].phase.Taken? && g.reqs[r].i0 == head && Readable(s, head)
  {
    hide Reqs, Disjoint, Accounted, Readable;
    assert IsTaken(g.reqs, head);
    r :| r in g.reqs && g.reqs[r].phase.Taken? && g.reqs[r].i0 == head;
    ReqParts(s, g, r);
    FormedReads(s, g.reqs[r]);
  }

  // ----- the end of a request -----

  /** The chain that free_chain walks is the request's own, and none of it is free. */
  lemma FinishFinds(s: State, g: Track, r: nat)
    requires Inv(s, g) && r in g.reqs && g.reqs[r].b !in s.busy
    ensures g.reqs[r].phase.Seen? && Chained(s, g.reqs[r].i0)
    ensures var q := g.reqs[r];
            && Second(s, q.i0) == q.i1 && Third(s, q.i0) == q.i2
            && !s.free[q.i0] && !s.free[q.i1] && !s.free[q.i2] && q.i0 != q.i1 && q.i0 != q.i2 && q.i1 != q.i2
  {
    hide Reqs, Disjoint, Accounted;
    ReqParts(s, g, r);
    FormedReads(s, g.reqs[r]);
  }

  ghost function FinishTrack(g: Track, r: nat): (g': Track) {
    g.(reqs := g.reqs - {r}, returned := g.returned + {r})
  }

  lemma FreedChain(s: State, q: Request, p: Request)
    requires Shape(s) && Formed(s, q) && Formed(s, p) && Chain(q) !! Chain(p) && Chained(s, q.i0)
    ensures Formed(Freed(s, q.i0), p)
  {
    FormedReads(s, q);
    assert q.i0 in Chain(q) && q.i1 in Chain(q) && q.i2 in Chain(q);
    FormedFrame(s, Freed(s, q.i0), p, p);
  }

  lemma FinishBacked(s: State, s': State, g: Track, r: nat)
    requires Backed(s, g) && r in g.reqs && g.reqs[r].phase.Seen?
    requires s'.inflight == s.inflight && g.reqs[r].i0 !in s.inflight
    ensures Backed(s', FinishTrack(g, r))
  {
    PhaseBacked(s, g, FinishTrack(g, r), r);
  }

  lemma FinishAccounted(s: State, g: Track, r: nat)
    requires Shape(s) && Accounted(s, g) && r in g.reqs && Formed(s, g.reqs[r]) && Chained(s, g.reqs[r].i0)
    ensures Accounted(Freed(s, g.reqs[r].i0), FinishTrack(g, r))
  {
    var q, s', reqs' := g.reqs[r], Freed(s, g.reqs[r].i0), g.reqs - {r};
    FormedReads(s, q);
    forall i | 0 <= i < NUM && !s'.free[i]
      ensures InChain(reqs', i)
    {
      assert InChain(g.reqs, i);
      var p :| p in g.reqs && i in Chain(g.reqs[p]);
      assert i !in Chain(q);
      assert p in reqs' && reqs'[p] == g.reqs[p];
    }
  }

  lemma FinishMoves(s: State, g: Track, r: nat)
    requires Inv(s, g) && r in g.reqs && g.reqs[r].b !in s.busy && Chained(s, g.reqs[r].i0)
    ensures Inv(Freed(s, g.reqs[r].i0), FinishTrack(g, r))
  {
    hide Reqs, Disjoint, Accounted, Formed, InPhase, Chained, Chain;
    var q, s', g' := g.reqs[r], Freed(s, g.reqs[r].i0), FinishTrack(g, r);
    FinishFinds(s, g, r);
    ReqParts(s, g, r);
    RootTaken(s, g, r);
    DisjointLess(g.reqs, r);
    forall p | p in g'.reqs
      ensures ReqOk(s', g', p)
    {
      ReqParts(s, g, p);
      ApartFrom(g.reqs, r, p);
      FreedChain(s, q, g.reqs[p]);
      FinishPhase(s, g, r, p);
    }
    ReqsFrom(s', g');
    FinishBacked(s, s', g, r);
    FinishAccounted(s, g, r);
  }

  lemma ReqsFrom(s: State, g: Track)
    requires Shape(s) && forall p :: p in g.reqs ==> ReqOk(s, g, p)
    ensures Reqs(s, g)
  {
  }

  lemma ApartFrom(reqs: map<nat, Request>, r: nat, p: nat)
    requires Disjoint(reqs) && r in reqs && p in reqs && p != r
    ensures Chain(reqs[r]) !! Chain(reqs[p])
  {
  }

  lemma FinishPhase(s: State, g: Track, r: nat, p: nat)
    requires Shape(s) && r in g.reqs && Chained(s, g.reqs[r].i0) && p in g.reqs && InPhase(s, g, p, g.reqs[p])
    ensures InPhase(Freed(s, g.reqs[r].i0), FinishTrack(g, r), p, g.reqs[p])
  {
  }

  lemma StoreKeeps(s: State, g: Track, b: nat, v: int)
    requires Inv(s, g) && b in s.contents && forall q :: q in g.reqs ==> g.reqs[q].b != b
    ensures Inv(s.(contents := s.contents[b := v]), g)
  {
    hide Disjoint, Accounted, Formed, InPhase;
    var s' := s.(contents := s.contents[b := v]);
    forall p | p in g.reqs
      ensures ReqOk(s', g, p)
    {
      ReqParts(s, g, p);
      StoreReq(s, g, b, v, p);
    }
    StoreAccounted(s, s', g);
  }

  lemma StoreAccounted(s: State, s': State, g: Track)
    requires Shape(s) && Shape(s') && s'.free == s.free && Accounted(s, g)
    ensures Accounted(s', g)
  {
  }

  lemma StoreReq(s: State, g: Track, b: nat, v: int, p: nat)
    requires Shape(s) && p in g.reqs && Formed(s, g.reqs[p]) && InPhase(s, g, p, g.reqs[p]) && g.reqs[p].b != b
    ensures var s' := s.(contents := s.contents[b := v]); Formed(s', g.reqs[p]) && InPhase(s', g, p, g.reqs[p])
  {
    FormedFrame(s, s.(contents := s.contents[b := v]), g.reqs[p], g.reqs[p]);
  }
}
