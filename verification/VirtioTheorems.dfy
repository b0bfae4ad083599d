/** What holds in every run of the queue. */
module VirtioTheorems {
  import opened Virtio
  import opened VirtioProofs

  lemma InvParts(s: State, g: Track)
    requires Inv(s, g)
    ensures Shape(s) && Indexed(s, g) && Disjoint(g.reqs)
  {
  }

  lemma WriteRingIs(s: State, g: Track, r: nat)
    requires Shape(s) && Enabled(s, g, WriteRing(r)) && s.availIdx % NUM == g.availN % NUM
    ensures Apply(s, g, WriteRing(r)) == Ring(s, g.availN, g.reqs[r].i0)
    ensures Follow(s, g, WriteRing(r)) == g.(reqs := WithPhase(g.reqs, r, Ringed))
  {
  }

  lemma WriteRingKeeps(s: State, g: Track, r: nat)
    requires Inv(s, g) && Enabled(s, g, WriteRing(r))
    ensures Inv(Apply(s, g, WriteRing(r)), Follow(s, g, WriteRing(r)))
  {
    hide Inv, Apply, Follow;
    InvParts(s, g);
    Wraps(g.availN);
    WriteRingIs(s, g, r);
    RingKeeps(s, g, r);
  }

  lemma BumpStepKeeps(s: State, g: Track, r: nat)
    requires Inv(s, g) && Enabled(s, g, Bump(r))
    ensures Inv(Apply(s, g, Bump(r)), Follow(s, g, Bump(r)))
  {
    hide Inv;
    InvParts(s, g);
    BumpKeeps(s, g, r);
  }

  lemma TakeIs(s: State, g: Track, r: nat)
    requires Shape(s) && Enabled(s, g, Take) && r in g.reqs && Head(s) == g.reqs[r].i0
    requires Owned(g.reqs, g.reqs[r].i0) && Owner(g.reqs, g.reqs[r].i0) == r
    ensures Apply(s, g, Take) == TakenBy(s, g.reqs[r].i0) && Follow(s, g, Take) == TakeTrack(g, r)
  {
  }

  lemma TakeKeeps(s: State, g: Track)
    requires Inv(s, g) && Enabled(s, g, Take)
    ensures Inv(Apply(s, g, Take), Follow(s, g, Take))
  {
    hide Inv, Disjoint, Apply, Follow;
    InvParts(s, g);
    var r := TakeFinds(s, g);
    OwnerIs(g.reqs, r);
    TakeIs(s, g, r);
    TakeMoves(s, g, r);
  }

  lemma CompleteIs(s: State, g: Track, r: nat, status: nat)
    requires Shape(s) && r in g.reqs && Enabled(s, g, Complete(g.reqs[r].i0, status))
    requires Owned(g.reqs, g.reqs[r].i0) && Owner(g.reqs, g.reqs[r].i0) == r
    ensures Apply(s, g, Complete(g.reqs[r].i0, status)) == Transferred(s, g.reqs[r].i0, status)
    ensures Follow(s, g, Complete(g.reqs[r].i0, status)) == CompleteTrack(s, g, r)
  {
    hide Transferred;
  }

  lemma CompleteKeeps(s: State, g: Track, head: nat, status: nat)
    requires Inv(s, g) && Enabled(s, g, Complete(head, status))
    ensures Inv(Apply(s, g, Complete(head, status)), Follow(s, g, Complete(head, status)))
  {
    hide Inv, Disjoint, Apply, Follow, Transferred;
    InvParts(s, g);
    var r := CompleteFinds(s, g, head);
    OwnerIs(g.reqs, r);
    CompleteIs(s, g, r, status);
    CompleteMoves(s, g, r, status);
  }

  lemma InterruptIs(s: State, g: Track, r: nat)
    requires Shape(s) && r in g.reqs && Enabled(s, g, Interrupt) && Reported(s) == g.reqs[r].i0
    requires s.info[Reported(s)].b == Buf(g.reqs[r].b)
    requires Owned(g.reqs, g.reqs[r].i0) && Owner(g.reqs, g.reqs[r].i0) == r
    ensures Apply(s, g, Interrupt) == Acked(s, g.reqs[r].b) && Follow(s, g, Interrupt) == AckTrack(g, r)
  {
  }

  lemma InterruptKeeps(s: State, g: Track)
    requires Inv(s, g) && Enabled(s, g, Interrupt)
    ensures Inv(Apply(s, g, Interrupt), Follow(s, g, Interrupt))
  {
    hide Inv, Disjoint, Apply, Follow;
    InvParts(s, g);
    var r := AckFinds(s, g);
    OwnerIs(g.reqs, r);
    InterruptIs(s, g, r);
    AckMoves(s, g, r);
  }

  /** Every step of every participant keeps the invariant. */
  lemma StepKeeps(s: State, g: Track, step: Step)
    requires Inv(s, g) && Enabled(s, g, step)
    ensures Inv(Apply(s, g, step), Follow(s, g, step))
  {
    hide Inv, Format, Freed, Transferred;
    match step {
      case Submit(_, _, _, _, _, _, _) => SubmitKeeps(s, g, step);
      case WriteRing(r) => WriteRingKeeps(s, g, r);
      case Bump(r) => BumpStepKeeps(s, g, r);
      case Take => TakeKeeps(s, g);
      case Complete(head, status) => CompleteKeeps(s, g, head, status);
      case Interrupt => InterruptKeeps(s, g);
      case Finish(r) => FinishMoves(s, g, r);
      case Store(b, v) => StoreKeeps(s, g, b, v);
    }
  }

  /** A run: states from a start, one step after the other. */
  ghost predicate Runs(ss: seq<State>, gs: seq<Track>, steps: seq<Step>) {
    && |ss| == |gs| == |steps| + 1 && Initial(ss[0], gs[0])
    && forall i :: 0 <= i < |steps| ==> Stepped(ss[i], gs[i], steps[i], ss[i + 1], gs[i + 1])
  }

  ghost predicate Stepped(s: State, g: Track, step: Step, s': State, g': Track) {
    Shape(s) && Enabled(s, g, step) && s' == Apply(s, g, step) && g' == Follow(s, g, step)
  }

  lemma InitialInv(s: State, g: Track)
    requires Initial(s, g)
    ensures Inv(s, g)
  {
  }

  lemma {:induction false} RunKeeps(ss: seq<State>, gs: seq<Track>, steps: seq<Step>, n: nat)
    requires Runs(ss, gs, steps) && n <= |steps|
    ensures Inv(ss[n], gs[n])
  {
    if n == 0 {
      InitialInv(ss[0], gs[0]);
    } else {
      RunKeeps(ss, gs, steps, n - 1);
      assert Stepped(ss[n - 1], gs[n - 1], steps[n - 1], ss[n], gs[n]);
      hide Inv, Apply, Follow, Enabled;
      StepKeeps(ss[n - 1], gs[n - 1], steps[n - 1]);
    }
  }

  /** At every moment of every run a descriptor is free, or lies in the chain of exactly one
      request under way, which has three distinct descriptors. */
  lemma DescriptorOwnership(ss: seq<State>, gs: seq<Track>, steps: seq<Step>, n: nat, i: nat)
    requires Runs(ss, gs, steps) && n <= |steps| && i < NUM
    ensures Shape(ss[n]) && (ss[n].free[i] <==> !InChain(gs[n].reqs, i))
    ensures forall p, q ::
              p in gs[n].reqs && q in gs[n].reqs && i in Chain(gs[n].reqs[p]) && i in Chain(gs[n].reqs[q]) ==> p == q
    ensures forall p :: p in gs[n].reqs ==> Triple(gs[n].reqs[p])
    ensures ss[n].free[i] ==> ss[n].desc[i] == BLANK && ss[n].info[i].b == NoBuf
  {
    hide Inv;
    RunKeeps(ss, gs, steps, n);
    InvOwnership(ss[n], gs[n], i);
    InvBlank(ss[n], gs[n], i);
  }

  lemma InvBlank(s: State, g: Track, i: nat)
    requires Inv(s, g) && i < NUM
    ensures s.free[i] ==> s.desc[i] == BLANK && s.info[i].b == NoBuf
  {
    hide Reqs, Disjoint, Accounted, Backed, Indexed, Locked, History;
  }

  /** Whatever the device has taken it can carry out: the chain is whole, and each part of it is open to the device
      in the direction the command needs. */
  lemma DeviceCanServe(ss: seq<State>, gs: seq<Track>, steps: seq<Step>, n: nat, head: nat, status: nat)
    requires Runs(ss, gs, steps) && n <= |steps| && head in ss[n].inflight
    ensures Shape(ss[n]) && Enabled(ss[n], gs[n], Complete(head, status))
  {
    hide Inv;
    RunKeeps(ss, gs, steps, n);
    InvParts(ss[n], gs[n]);
    var r := CompleteFinds(ss[n], gs[n], head);
    ReqParts(ss[n], gs[n], r);
    FormedReads(ss[n], gs[n].reqs[r]);
  }

  lemma InvOwnership(s: State, g: Track, i: nat)
    requires Inv(s, g) && i < NUM
    ensures Shape(s) && (s.free[i] <==> !InChain(g.reqs, i))
    ensures forall p, q :: p in g.reqs && q in g.reqs && i in Chain(g.reqs[p]) && i in Chain(g.reqs[q]) ==> p == q
    ensures forall p :: p in g.reqs ==> Triple(g.reqs[p])
  {
    hide Reqs, Disjoint, Backed, Indexed, Locked, History, Chain, Triple;
    forall p | p in g.reqs
      ensures Triple(g.reqs[p]) && (s.free[i] ==> i !in Chain(g.reqs[p]))
    {
      ReqChain(s, g, p, i);
    }
    DisjointChains(g.reqs, i);
  }

  lemma ReqChain(s: State, g: Track, p: nat, i: nat)
    requires Shape(s) && Reqs(s, g) && p in g.reqs && i < NUM
    ensures Triple(g.reqs[p]) && (s.free[i] ==> i !in Chain(g.reqs[p]))
  {
    hide InPhase, Counted;
    assert ReqOk(s, g, p);
  }

  lemma DisjointChains(reqs: map<nat, Request>, i: nat)
    requires Disjoint(reqs)
    ensures forall p, q :: p in reqs && q in reqs && i in Chain(reqs[p]) && i in Chain(reqs[q]) ==> p == q
  {
  }

  /** The slot the driver or the device is about to write never holds an entry the other side
      has still to read, however often the 16-bit indices have wrapped. */
  lemma RingsNeverOverwritten(ss: seq<State>, gs: seq<Track>, steps: seq<Step>, n: nat)
    requires Runs(ss, gs, steps) && n <= |steps|
    ensures var s, g := ss[n], gs[n];
            && (s.availIdx - s.takenIdx) % TWO16 == g.availN - g.takenN <= 2
            && (s.usedIdx - s.seenIdx) % TWO16 == g.usedN - g.seenN <= 2
            && (forall k :: g.takenN <= k < g.availN ==> k % NUM != s.availIdx % NUM)
            && (forall k :: g.seenN <= k < g.usedN ==> k % NUM != s.usedIdx % NUM)
  {
    hide Inv, Indexed;
    RunKeeps(ss, gs, steps, n);
    InvRings(ss[n], gs[n]);
  }

  lemma InvRings(s: State, g: Track)
    requires Inv(s, g)
    ensures (s.availIdx - s.takenIdx) % TWO16 == g.availN - g.takenN <= 2
    ensures (s.usedIdx - s.seenIdx) % TWO16 == g.usedN - g.seenN <= 2
    ensures forall k :: g.takenN <= k < g.availN ==> k % NUM != s.availIdx % NUM
    ensures forall k :: g.seenN <= k < g.usedN ==> k % NUM != s.usedIdx % NUM
  {
    hide Inv;
    Windows(s, g);
    InvIndices(s, g);
    WindowSlots(g.takenN, g.availN);
    WindowSlots(g.seenN, g.usedN);
  }

  lemma InvIndices(s: State, g: Track)
    requires Inv(s, g)
    ensures g.takenN <= g.availN && g.seenN <= g.usedN
    ensures s.availIdx == g.availN % TWO16 && s.takenIdx == g.takenN % TWO16
    ensures s.usedIdx == g.usedN % TWO16 && s.seenIdx == g.seenN % TWO16
  {
    hide Reqs, Disjoint, Accounted, Blanked, IsQueued, IsUsed, IsTaken;
  }

  /** What a window of at most two entries means for the wrapped indices. */
  lemma WindowSlots(lo: nat, hi: nat)
    requires lo <= hi <= lo + 2
    ensures (hi % TWO16 - lo % TWO16) % TWO16 == hi - lo
    ensures forall k :: lo <= k < hi ==> k % NUM != hi % TWO16 % NUM
  {
    Difference(lo, hi);
    Wraps(hi);
    forall k | lo <= k < hi
      ensures k % NUM != hi % TWO16 % NUM
    {
      OtherSlot(k, hi);
    }
  }

  lemma Difference(lo: nat, hi: nat)
    requires lo <= hi <= lo + 2
    ensures (hi % TWO16 - lo % TWO16) % TWO16 == hi - lo
  {
    var q, x := lo / TWO16, lo % TWO16;
    assert lo == TWO16 * q + x;
    if x + (hi - lo) < TWO16 {
      assert hi == TWO16 * q + (x + (hi - lo));
    } else {
      assert hi == TWO16 * (q + 1) + (x + (hi - lo) - TWO16);
    }
  }

  /** A request is completed by the device, and reported by the handler, at most once, and its
      caller returns only after both. */
  lemma ExactlyOnce(ss: seq<State>, gs: seq<Track>, steps: seq<Step>, n: nat, r: nat)
    requires Runs(ss, gs, steps) && n <= |steps|
    ensures Count(gs[n].completed, r) <= 1 && Count(gs[n].reported, r) <= Count(gs[n].completed, r)
    ensures r in gs[n].returned ==> Count(gs[n].completed, r) == 1 && Count(gs[n].reported, r) == 1
  {
    RunKeeps(ss, gs, steps, n);
    if r in gs[n].reqs {
      assert ReqOk(ss[n], gs[n], r);
    }
  }

  /** free_chain never meets a free descriptor: "free_desc 2" and "free_desc 1" are unreachable. */
  lemma FreeNeverPanics(ss: seq<State>, gs: seq<Track>, steps: seq<Step>, n: nat, r: nat)
    requires Runs(ss, gs, steps) && n <= |steps| && r in gs[n].reqs && gs[n].reqs[r].b !in ss[n].busy
    ensures var s, q := ss[n], gs[n].reqs[r];
            && Shape(s) && Chained(s, q.i0) && Second(s, q.i0) == q.i1 && Third(s, q.i0) == q.i2
            && !s.free[q.i0] && !s.free[q.i1] && !s.free[q.i2] && q.i0 != q.i1 && q.i0 != q.i2 && q.i1 != q.i2
  {
    RunKeeps(ss, gs, steps, n);
    FinishFinds(ss[n], gs[n], r);
  }

  /** The handler stops the machine exactly when the device reports a failed request; it never
      meets a completion that nobody waits for. */
  lemma InterruptPanicsOnlyOnError(ss: seq<State>, gs: seq<Track>, steps: seq<Step>, n: nat)
    requires Runs(ss, gs, steps) && n <= |steps| && ss[n].seenIdx != ss[n].usedIdx
    ensures var s, g := ss[n], gs[n];
            && Shape(s) && Reported(s) < NUM && (InterruptPanics(s) <==> s.info[Reported(s)].status != 0)
            && exists r :: r in g.reqs && g.reqs[r].phase.Used? && g.reqs[r].i0 == Reported(s)
                           && s.info[Reported(s)].b == Buf(g.reqs[r].b)
  {
    hide Inv;
    RunKeeps(ss, gs, steps, n);
    InvParts(ss[n], gs[n]);
    var r := AckFinds(ss[n], gs[n]);
  }

  /** The device carries out, once, the command its request was made with: a write stores what the
      buffer held at submission, a read fills the caller's buffer and no other. */
  lemma CompletionMeans(ss: seq<State>, gs: seq<Track>, steps: seq<Step>, n: nat, head: nat)
    requires Runs(ss, gs, steps) && n < |steps| && steps[n].Complete? && steps[n].head == head
    ensures exists r :: r in gs[n].reqs && gs[n].reqs[r].i0 == head && gs[n].reqs[r].phase.Taken?
                        && Carried(ss[n], ss[n + 1], gs[n].reqs[r])
  {
    RunKeeps(ss, gs, steps, n);
    assert Stepped(ss[n], gs[n], steps[n], ss[n + 1], gs[n + 1]);
    var r := CompleteFinds(ss[n], gs[n], head);
    ReqParts(ss[n], gs[n], r);
    hide Inv;
    TransferMeans(ss[n], gs[n].reqs[r], steps[n].status);
  }

  ghost predicate Carried(s: State, s': State, q: Request) {
    && q.block in s.disk
    && s'.disk == (if q.write then s.disk[q.block := q.v] else s.disk)
    && s'.contents == (if q.write then s.contents else s.contents[q.b := s.disk[q.block]])
  }

  /** From submission to return a request keeps its command, and its buffer holds v: for a write
      the data submitted, for a completed read the data the device brought. */
  lemma BufferHeld(ss: seq<State>, gs: seq<Track>, steps: seq<Step>, n: nat, r: nat)
    requires Runs(ss, gs, steps) && n < |steps| && r in gs[n].reqs && r in gs[n + 1].reqs
    ensures var q, q' := gs[n].reqs[r], gs[n + 1].reqs[r];
            && q' == q.(v := q'.v, phase := q'.phase) && (q'.v != q.v ==> steps[n].Complete? && !q.write)
            && q.b in ss[n].contents && ss[n].contents[q.b] == q.v
            && q.b in ss[n + 1].contents && ss[n + 1].contents[q.b] == q'.v
  {
    hide Inv, Apply, Follow, Enabled, InPhase, Counted;
    RunKeeps(ss, gs, steps, n);
    RunKeeps(ss, gs, steps, n + 1);
    assert Stepped(ss[n], gs[n], steps[n], ss[n + 1], gs[n + 1]);
    ReqParts(ss[n], gs[n], r);
    ReqParts(ss[n + 1], gs[n + 1], r);
    FollowKeeps(ss[n], gs[n], steps[n], r);
  }

  lemma FollowKeeps(s: State, g: Track, step: Step, r: nat)
    requires Shape(s) && Enabled(s, g, step) && r in g.reqs && r in Follow(s, g, step).reqs
    ensures var q, q' := g.reqs[r], Follow(s, g, step).reqs[r];
            q' == q.(v := q'.v, phase := q'.phase) && (q'.v != q.v ==> step.Complete? && !q.write)
  {
  }
}
