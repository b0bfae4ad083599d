/** Which buffer bget recycles, and whose buffer it stays, over whole runs. Nothing here looks at the
    recency list: idle times are read off the reference counts alone. */
module BufCacheOrder {
  import opened BufCache
  import opened BufCacheProofs

  /** A run, with every state it passes through. */
  ghost predicate Trace(ss: seq<State>, steps: seq<Step>) {
    && |ss| == |steps| + 1 && Initial(ss[0])
    && forall n :: 0 <= n < |steps| ==> Stepped(ss[n], steps[n], ss[n + 1])
  }

  ghost predicate Stepped(s: State, step: Step, s': State) {
    Enabled(s, step) && s' == Apply(s, step)
  }

  lemma {:induction false} TraceInv(ss: seq<State>, steps: seq<Step>, n: nat)
    requires Trace(ss, steps) && n <= |steps|
    ensures Inv(ss[n])
  {
    hide Inv, Apply, Enabled;
    if n == 0 {
      InitialInv(ss[0]);
    } else {
      TraceInv(ss, steps, n - 1);
      assert Stepped(ss[n - 1], steps[n - 1], ss[n]);
      StepKeeps(ss[n - 1], steps[n - 1]);
    }
  }

  // ----- when a buffer fell idle -----

  /** Nobody refers to buffer i. */
  predicate Idle(s: State, i: nat) {
    i < |s.bufs| && s.bufs[i].refcnt == 0
  }

  /** The number of the last of the first n steps at which buffer i fell idle; 0 if there was none. */
  function IdleSince(ss: seq<State>, n: nat, i: nat): (t: nat)
    requires n < |ss|
    ensures t <= n
  {
    if n == 0 then 0
    else if Idle(ss[n], i) && !Idle(ss[n - 1], i) then n
    else IdleSince(ss, n - 1, i)
  }

  /** x comes before y in s. */
  ghost predicate Before(s: seq<nat>, x: nat, y: nat) {
    exists a: nat, b: nat :: a < b < |s| && s[a] == x && s[b] == y
  }

  /** After n steps, i fell idle later than j. Buffers that never did have the order that binit gave them. */
  ghost predicate Later(ss: seq<State>, n: nat, i: nat, j: nat)
    requires n < |ss|
  {
    var ti, tj := IdleSince(ss, n, i), IdleSince(ss, n, j);
    ti > tj || (ti == tj == 0 && Before(ss[0].lru, i, j))
  }

  ghost predicate InOrder(ss: seq<State>, n: nat)
    requires n < |ss|
  {
    forall p, q :: 0 <= p < q < |ss[n].lru| ==> Later(ss, n, ss[n].lru[p], ss[n].lru[q])
  }

  /** Only brelse makes a buffer idle: a buffer that is unpinned is still held. */
  lemma FallsIdle(s: State, step: Step, i: nat)
    requires Inv(s) && Enabled(s, step) && i < NBUF
    ensures var s' := Apply(s, step);
            Idle(s', i) && !Idle(s, i) <==> step.Drop? && s.refs[step.r].buf == i && s.bufs[i].refcnt == 1
  {
    hide Hit, Victim, MoveToFront, IndexOf, Unique, Permutation, Cached;
    if step.Unpin? {
      var k := s.refs[step.r].buf;
      assert BufOk(s, k) && RefOk(s, step.r);
      assert s.users[k] != {};
    }
  }

  lemma ListMoves(s: State, step: Step)
    requires Inv(s) && Enabled(s, step)
    ensures var s' := Apply(s, step);
            if step.Drop? && s.bufs[s.refs[step.r].buf].refcnt == 1 then IsMoved(s.lru, s'.lru, s.refs[step.r].buf)
            else s'.lru == s.lru
  {
    hide Hit, Victim, Unique, Cached;
    if step.Drop? && s.bufs[s.refs[step.r].buf].refcnt == 1 {
      var p := IndexOf(s.lru, s.refs[step.r].buf);
      MovedToFront(s.lru, p);
    }
  }

  /** m is s with x taken to the front. */
  ghost predicate IsMoved(s: seq<nat>, m: seq<nat>, x: nat) {
    && |m| == |s| > 0 && m[0] == x
    && (forall p, q :: 0 < p < q < |m| ==> m[p] != x && m[q] != x && Before(s, m[p], m[q]))
    && (forall q :: 0 < q < |m| ==> m[q] != x)
  }

  lemma MovedToFront(s: seq<nat>, p: nat)
    requires Permutation(s) && p < NBUF
    ensures IsMoved(s, MoveToFront(s, p), s[p])
  {
    var m := MoveToFront(s, p);
    forall k | 0 < k < |m|
      ensures m[k] == s[Back(p, k)] && Back(p, k) != p
    {
    }
    forall a, b | 0 < a < b < |m|
      ensures Before(s, m[a], m[b])
    {
      assert Back(p, a) < Back(p, b) < |s| && s[Back(p, a)] == m[a] && s[Back(p, b)] == m[b];
    }
  }

  /** Where position k > 0 of the list came from when position p was moved to the front. */
  function Back(p: nat, k: nat): (r: nat)
    requires k > 0
  {
    if k <= p then k - 1 else k
  }

  lemma LaterKept(ss: seq<State>, n: nat, i: nat, j: nat)
    requires 0 < n < |ss| && Later(ss, n - 1, i, j)
    requires IdleSince(ss, n, i) == IdleSince(ss, n - 1, i) && IdleSince(ss, n, j) == IdleSince(ss, n - 1, j)
    ensures Later(ss, n, i, j)
  {
  }

  lemma TimeBound(ss: seq<State>, n: nat, i: nat)
    requires n < |ss|
    ensures IdleSince(ss, n, i) <= n
  {
  }

  lemma OrderAt(ss: seq<State>, n: nat, x: nat, y: nat)
    requires n < |ss| && InOrder(ss, n) && Before(ss[n].lru, x, y)
    ensures Later(ss, n, x, y)
  {
    hide Later;
  }

  /** Step n is the last at which i fell idle if it is the brelse of the last reference to i. */
  ghost predicate FellAt(ss: seq<State>, step: Step, n: nat, i: nat)
    requires 0 < n < |ss| && Shape(ss[n - 1]) && i < NBUF && (step.Drop? ==> step.r in ss[n - 1].refs)
  {
    var s := ss[n - 1];
    IdleSince(ss, n, i) ==
    if step.Drop? && s.refs[step.r].buf == i && s.bufs[i].refcnt == 1 then n else IdleSince(ss, n - 1, i)
  }

  lemma OrderNext(ss: seq<State>, steps: seq<Step>, n: nat)
    requires Trace(ss, steps) && 0 < n <= |steps| && InOrder(ss, n - 1) && Inv(ss[n - 1])
    ensures InOrder(ss, n)
  {
    var s, step, s' := ss[n - 1], steps[n - 1], ss[n];
    assert Stepped(s, step, s');
    ListMoves(s, step);
    StepKeeps(s, step);
    hide Apply, Enabled, Later, BufOk, RefOk, Unique, Cached;
    forall i | 0 <= i < NBUF
      ensures FellAt(ss, step, n, i)
    {
      FallsIdle(s, step, i);
    }
    forall p, q | 0 <= p < q < |s'.lru|
      ensures Later(ss, n, s'.lru[p], s'.lru[q])
    {
      OrderPair(ss, steps, n, p, q);
    }
  }

  lemma OrderPair(ss: seq<State>, steps: seq<Step>, n: nat, p: nat, q: nat)
    requires 0 < n < |ss| && n <= |steps| && InOrder(ss, n - 1) && Shape(ss[n - 1]) && Shape(ss[n])
    requires p < q < |ss[n].lru| && (steps[n - 1].Drop? ==> steps[n - 1].r in ss[n - 1].refs)
    requires var s, step, s' := ss[n - 1], steps[n - 1], ss[n];
             && (if step.Drop? && s.bufs[s.refs[step.r].buf].refcnt == 1
                 then IsMoved(s.lru, s'.lru, s.refs[step.r].buf) else s'.lru == s.lru)
             && forall i :: 0 <= i < NBUF ==> FellAt(ss, step, n, i)
    ensures Later(ss, n, ss[n].lru[p], ss[n].lru[q])
  {
    hide IdleSince;
    var s, step, s' := ss[n - 1], steps[n - 1], ss[n];
    var i, j := s'.lru[p], s'.lru[q];
    assert FellAt(ss, step, n, i) && FellAt(ss, step, n, j);
    TimeBound(ss, n - 1, j);
    if step.Drop? && s.bufs[s.refs[step.r].buf].refcnt == 1 {
      if p > 0 {
        OrderAt(ss, n - 1, i, j);
        LaterKept(ss, n, i, j);
      }
    } else {
      assert Before(s.lru, i, j);
      OrderAt(ss, n - 1, i, j);
      LaterKept(ss, n, i, j);
    }
  }

  /** In every run the list is in the order in which the buffers last fell idle. */
  lemma {:induction false} ListInOrder(ss: seq<State>, steps: seq<Step>, n: nat)
    requires Trace(ss, steps) && n <= |steps|
    ensures InOrder(ss, n)
  {
    if n == 0 {
      hide Initial;
      forall p, q | 0 <= p < q < |ss[0].lru|
        ensures Later(ss, 0, ss[0].lru[p], ss[0].lru[q])
      {
        assert Before(ss[0].lru, ss[0].lru[p], ss[0].lru[q]);
      }
    } else {
      hide Inv, Trace, InOrder;
      ListInOrder(ss, steps, n - 1);
      TraceInv(ss, steps, n - 1);
      OrderNext(ss, steps, n);
    }
  }

  /** Least recently used: for a block that is not cached, bget recycles the idle buffer that fell idle
      longest ago. */
  lemma RecyclesOldest(ss: seq<State>, steps: seq<Step>, n: nat, r: RefId, key: Key)
    requires Trace(ss, steps) && n < |steps| && steps[n] == Get(r, key) && !Cached(ss[n].bufs, key)
    ensures r in ss[n + 1].refs && Idle(ss[n], ss[n + 1].refs[r].buf)
    ensures forall j :: 0 <= j < NBUF && Idle(ss[n], j) && j != ss[n + 1].refs[r].buf ==>
              Later(ss, n, j, ss[n + 1].refs[r].buf)
  {
    var s := ss[n];
    TraceInv(ss, steps, n);
    ListInOrder(ss, steps, n);
    assert Stepped(s, steps[n], ss[n + 1]);
    MissIsRecycled(s, r, key);
    var i := ss[n + 1].refs[r].buf;
    var p: nat :| LastIdleAt(s.bufs, s.lru, i, p);
    assert Permutation(s.lru);
    hide Inv, Trace, Stepped, Later, IdleSince;
    forall j | 0 <= j < NBUF && Idle(s, j) && j != i
      ensures Later(ss, n, j, i)
    {
      assert j in s.lru;
      var q :| 0 <= q < |s.lru| && s.lru[q] == j;
      assert Before(s.lru, j, i);
      OrderAt(ss, n, j, i);
    }
  }

  lemma MissIsRecycled(s: State, r: RefId, key: Key)
    requires Shape(s) && Enabled(s, Get(r, key)) && !Cached(s.bufs, key)
    ensures var s' := Apply(s, Get(r, key)); r in s'.refs && LastIdle(s.bufs, s.lru, s'.refs[r].buf)
  {
    hide Victim;
    VictimIsLast(s.bufs, s.lru);
  }

  // ----- whose buffer it is -----

  /** bget gives the buffer of the block asked for, and until brelse it stays that block's buffer. */
  lemma BufferOfBlock(ss: seq<State>, steps: seq<Step>, n: nat, r: RefId)
    requires Trace(ss, steps) && n < |steps| && r in ss[n + 1].refs
    ensures Shape(ss[n]) && Shape(ss[n + 1])
    ensures if r in ss[n].refs
            then ss[n + 1].refs[r].buf == ss[n].refs[r].buf
                 && ss[n + 1].bufs[ss[n].refs[r].buf].key == ss[n].bufs[ss[n].refs[r].buf].key
            else steps[n].Get? && steps[n].r == r && ss[n + 1].bufs[ss[n + 1].refs[r].buf].key == steps[n].key
  {
    TraceInv(ss, steps, n);
    TraceInv(ss, steps, n + 1);
    assert Stepped(ss[n], steps[n], ss[n + 1]);
    if r in ss[n].refs {
      DropNeverUnderflows(ss[n], r);
    }
    hide Trace, Inv, MoveToFront, IndexOf;
  }

  // ----- a thread's way through a buffer -----

  function StageOf(s: State, r: RefId): (st: Option<Stage>) {
    if r in s.refs then Some(s.refs[r].stage) else None
  }

  /** A reference waits from bget on, holds the sleep-lock from its Lock to its Unlock, and is gone after its Drop.
      No other step moves it. */
  lemma StageLaw(ss: seq<State>, steps: seq<Step>, n: nat, r: RefId)
    requires Trace(ss, steps) && n < |steps|
    ensures var s, step, s' := ss[n], steps[n], ss[n + 1];
            StageOf(s', r) ==
            if step.r != r then StageOf(s, r)
            else match step
              case Get(_, _) => Some(Waiting)
              case Lock(_) => Some(Holding)
              case Unlock(_) => Some(Dropping)
              case Drop(_) => None
              case _ => Some(Holding)
    ensures steps[n].r == r ==>
              StageOf(ss[n], r) ==
              match steps[n]
              case Get(_, _) => None
              case Lock(_) => Some(Waiting)
              case Drop(_) => Some(Dropping)
              case _ => Some(Holding)
  {
    assert Stepped(ss[n], steps[n], ss[n + 1]);
    hide Hit, Victim, MoveToFront, IndexOf;
  }

  /** What a step does to buffer i: its count, its data and its sleep-lock. */
  lemma BufferLaw(ss: seq<State>, steps: seq<Step>, n: nat, i: nat)
    requires Trace(ss, steps) && n < |steps| && i < NBUF && !steps[n].Get?
    ensures Shape(ss[n]) && Shape(ss[n + 1]) && steps[n].r in ss[n].refs
    ensures var s, step, b, b' := ss[n], steps[n], ss[n].bufs[i], ss[n + 1].bufs[i];
            var mine := s.refs[step.r].buf == i;
            && b'.key == b.key
            && b'.data == (if mine && step.Fill? then Lookup(s.disk, b.key)
                           else if mine && step.Modify? then step.v else b.data)
            && b'.valid == (b.valid || (mine && step.Fill?))
            && b'.lock == (if mine && step.Lock? then Some(step.r) else if mine && step.Unlock? then None else b.lock)
            && b'.refcnt == (if mine && step.Pin? then b.refcnt + 1
                             else if mine && (step.Unpin? || step.Drop?) then b.refcnt - 1 else b.refcnt)
  {
    TraceInv(ss, steps, n);
    TraceInv(ss, steps, n + 1);
    assert Stepped(ss[n], steps[n], ss[n + 1]);
    DropNeverUnderflows(ss[n], steps[n].r);
    hide Inv, Hit, Victim, MoveToFront, IndexOf;
  }

  /** The disk changes only where a thread writes the buffer it holds. */
  lemma DiskLaw(ss: seq<State>, steps: seq<Step>, n: nat)
    requires Trace(ss, steps) && n < |steps|
    ensures var s, step := ss[n], steps[n];
            if step.WriteDisk? then
              step.r in s.refs && s.refs[step.r].buf < |s.bufs|
              && ss[n + 1].disk == s.disk[s.bufs[s.refs[step.r].buf].key := s.bufs[s.refs[step.r].buf].data]
            else ss[n + 1].disk == s.disk
  {
    assert Stepped(ss[n], steps[n], ss[n + 1]);
    hide Hit, Victim, MoveToFront, IndexOf;
  }
}
