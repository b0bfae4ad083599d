/** Whole runs of the log protocol. */
module LogTheorems {
  import opened Collections
  import opened Blocks
  import opened LogFormat
  import opened LogProtocol
  import opened LogInvariant

  // ----- One step keeps the invariant -----

  lemma BeginControl(g: Geometry, s: State, id: OpId)
    requires Control(s) && Enabled(g, s, Begin(id))
    ensures Control(Apply(g, s, Begin(id)))
  {
  }

  lemma WriteControl(g: Geometry, s: State, id: OpId, b: nat, v: Block)
    requires Control(s) && Enabled(g, s, Write(id, b, v))
    ensures Control(Apply(g, s, Write(id, b, v)))
  {
  }

  lemma EndControl(g: Geometry, s: State, id: OpId)
    requires Control(s) && Enabled(g, s, End(id))
    ensures Control(Apply(g, s, End(id)))
  {
    var s' := Apply(g, s, End(id));
    assert s'.core.outstanding == |s'.active|;
    if s'.core.outstanding != 0 {
      assert s'.active != {};
    }
  }

  lemma CommitControl(g: Geometry, s: State, id: OpId)
    requires Control(s) && Enabled(g, s, CommitIO(id))
    requires s.committers[id] == Finish ==> s.core.lh == []
    ensures Control(Apply(g, s, CommitIO(id)))
  {
    hide EncodeHead;
    var s' := Apply(g, s, CommitIO(id));
    if s.committers[id] == Finish {
      assert s'.committers == map[];
    }
  }

  lemma RecoverControl(g: Geometry, s: State)
    requires Control(s) && Enabled(g, s, RecoverIO)
    ensures Control(Apply(g, s, RecoverIO))
  {
    hide EncodeHead, HeadList;
  }

  lemma BeginHistories(h: History, active: set<OpId>, begun: set<OpId>, id: OpId)
    requires Histories(h, active, begun) && id !in begun
    ensures Histories(h, active + {id}, begun + {id})
  {
    ByNone(h.durable, id);
    ByNone(h.issued, id);
    ByNone(h.current, id);
    forall i
      ensures Whole(h, active + {id}, i)
    {
      assert Whole(h, active, i);
    }
  }

  lemma WriteHistories(h: History, active: set<OpId>, begun: set<OpId>, u: Update)
    requires Histories(h, active, begun) && u.op in active && u.op in begun
    ensures Histories(h.(current := h.current + [u], issued := h.issued + [u]), active, begun)
  {
    var h' := h.(current := h.current + [u], issued := h.issued + [u]);
    forall i
      ensures Whole(h', active, i)
    {
      assert Whole(h, active, i);
      ByConcat(h.current, [u], i);
      ByConcat(h.issued, [u], i);
      assert [u][..0] == [];
      assert By([u], i) == if u.op == i then [u] else [];
    }
  }

  /** The commit point makes whole operations durable: none is still active. */
  lemma CommitHistories(h: History, begun: set<OpId>)
    requires Histories(h, {}, begun)
    ensures Histories(h.(durable := h.durable + h.current, current := []), {}, begun)
  {
    var h' := h.(durable := h.durable + h.current, current := []);
    forall i
      ensures Whole(h', {}, i)
    {
      assert Whole(h, {}, i);
      ByConcat(h.durable, h.current, i);
    }
  }

  lemma ShrinkHistories(h: History, active: set<OpId>, active': set<OpId>, begun: set<OpId>)
    requires Histories(h, active, begun) && active' <= active
    ensures Histories(h, active', begun)
  {
    forall i
      ensures Whole(h, active', i)
    {
      assert Whole(h, active, i);
    }
  }

  lemma CrashHistories(h: History, active: set<OpId>, begun: set<OpId>)
    requires Histories(h, active, begun)
    ensures Histories(h.(current := []), {}, begun)
  {
    var h' := h.(current := []);
    forall i
      ensures Whole(h', {}, i)
    {
      assert Whole(h, active, i);
    }
  }

  // ----- The data -----

  /** Open says nothing about the counters. */
  lemma OpenFrame(g: Geometry, c: Core, c': Core, stable: seq<Block>, current: seq<Update>)
    requires Open(g, c, stable, current)
    requires c' == c.(outstanding := c'.outstanding, committing := c'.committing)
    ensures Open(g, c', stable, current)
  {
  }

  lemma BeginKeeps(g: Geometry, s: State, id: OpId)
    requires Inv(g, s) && Enabled(g, s, Begin(id))
    ensures Inv(g, Apply(g, s, Begin(id)))
  {
    BeginControl(g, s, id);
    hide Control, Histories, Open, CommitData;
    var s' := Apply(g, s, Begin(id));
    if HasRoom(s.core) {
      assert s.committers == map[];
      OpenFrame(g, s.core, s'.core, s.hist.Stable(), s.hist.current);
      BeginHistories(s.hist, s.active, s.begun, id);
    }
  }

  lemma WriteKeeps(g: Geometry, s: State, id: OpId, b: nat, v: Block)
    requires Inv(g, s) && Enabled(g, s, Write(id, b, v))
    ensures Inv(g, Apply(g, s, Write(id, b, v)))
  {
    hide Histories, Open, CommitData, LogWrite, Replay;
    var u := Update(id, b, v);
    var stable := s.hist.Stable();
    assert s.committers == map[];
    WriteControl(g, s, id, b, v);
    LogWriteKeepsOpen(g, s.core, stable, s.hist.current, u);
    OpenShape(g, LogWrite(s.core, b, v), stable, s.hist.current + [u]);
    WriteHistories(s.hist, s.active, s.begun, u);
    hide Control;
  }

  lemma OpenShape(g: Geometry, c: Core, stable: seq<Block>, current: seq<Update>)
    requires Open(g, c, stable, current)
    ensures c.Shape(g)
  {
  }

  lemma EndKeeps(g: Geometry, s: State, id: OpId)
    requires Inv(g, s) && Enabled(g, s, End(id))
    ensures Inv(g, Apply(g, s, End(id)))
  {
    EndControl(g, s, id);
    assert s.committers == map[];
    var s' := Apply(g, s, End(id));
    OpenFrame(g, s.core, s'.core, s.hist.Stable(), s.hist.current);
    ShrinkHistories(s.hist, s.active, s.active - {id}, s.begun);
    hide Control, Histories, Open, CommitData;
    if s'.core.outstanding == 0 {
      assert s'.committers == map[id := StartCommit(s.core)];
      StartCommitData(g, s'.core, s.hist.Stable(), s.hist.current);
    }
  }

  lemma StartCommitData(g: Geometry, c: Core, stable: seq<Block>, current: seq<Update>)
    requires Open(g, c, stable, current)
    ensures CommitData(g, c, stable, current, StartCommit(c))
  {
    hide Open;
    OpenShape(g, c, stable, current);
  }

  lemma CommitKeeps(g: Geometry, s: State, id: OpId)
    requires Inv(g, s) && Enabled(g, s, CommitIO(id))
    ensures Inv(g, Apply(g, s, CommitIO(id)))
  {
    hide Histories, Open, Committed, Replay, CommitStep;
    var pc := s.committers[id];
    var s' := Apply(g, s, CommitIO(id));
    var stable := s.hist.Stable();
    CommitControl(g, s, id);
    if pc == Finish {
      FinishOpens(g, s.core, stable, s.hist.current);
    } else if pc == WriteHead {
      WriteHeadData(g, s.core, stable, s.hist.current);
      ReplayConcat(s.hist.init, s.hist.durable, s.hist.current);
      CommitHistories(s.hist, s.begun);
    } else {
      CommitStepData(g, s.core, stable, s.hist.current, pc);
      CommitDataShape(g, s'.core, stable, s.hist.current, s'.committers[id]);
    }
    hide Control, CommitData;
  }

  lemma FinishOpens(g: Geometry, c: Core, stable: seq<Block>, current: seq<Update>)
    requires CommitData(g, c, stable, current, Finish)
    ensures CommitReady(g, c, Finish)
    ensures Open(g, CommitStep(g, c, Finish), stable, current)
    ensures CommitStep(g, c, Finish).Shape(g)
  {
    OpenFrame(g, c, CommitStep(g, c, Finish), stable, current);
  }

  lemma WriteHeadData(g: Geometry, c: Core, stable: seq<Block>, current: seq<Update>)
    requires CommitData(g, c, stable, current, WriteHead)
    ensures CommitReady(g, c, WriteHead)
    ensures forall u :: u in current ==> u.block < |stable|
    ensures CommitData(g, CommitStep(g, c, WriteHead), Replay(stable, current), [], CommitNext(|c.lh|, WriteHead))
    ensures CommitStep(g, c, WriteHead).Shape(g)
  {
    WriteHeadCommits(g, c, stable, current);
    hide EncodeHead, Committed;
  }

  lemma CommitDataShape(g: Geometry, c: Core, stable: seq<Block>, current: seq<Update>, pc: CommitPc)
    requires CommitData(g, c, stable, current, pc)
    ensures c.Shape(g)
  {
  }

  lemma CrashKeeps(g: Geometry, s: State)
    requires Inv(g, s)
    ensures Inv(g, Apply(g, s, Crash))
    ensures Apply(g, s, Crash).hist.Stable() == s.hist.Stable()
  {
    hide Histories, DiskOk, Replay, Open, CommitData, RecoverData;
    InvDiskOk(g, s);
    CrashHistories(s.hist, s.active, s.begun);
    BootData(g, s.core, s.hist.Stable());
  }

  lemma BootData(g: Geometry, c: Core, stable: seq<Block>)
    requires c.Shape(g) && DiskOk(g, c.disk, stable)
    ensures RecoverData(g, Reboot(c), stable, ReadHead)
  {
  }

  lemma RecoverKeeps(g: Geometry, s: State)
    requires Inv(g, s) && Enabled(g, s, RecoverIO)
    ensures Inv(g, Apply(g, s, RecoverIO))
  {
    hide Histories, Open, Replay, EncodeHead;
    RecoverControl(g, s);
    if s.mode.pc == ClearLog {
      ClearLogOpens(g, s.core, s.hist.Stable());
      OpenShape(g, ClearStep(g, s.core), s.hist.Stable(), []);
    } else {
      RecoverStepData(g, s.core, s.hist.Stable(), s.mode.pc);
    }
    hide Control, RecoverData, DiskOk;
  }

  lemma StepKeeps(g: Geometry, s: State, step: Step)
    requires Inv(g, s) && Enabled(g, s, step)
    ensures Inv(g, Apply(g, s, step))
  {
    match step
    case Begin(id) => BeginKeeps(g, s, id);
    case Write(id, b, v) => WriteKeeps(g, s, id, b, v);
    case End(id) => EndKeeps(g, s, id);
    case CommitIO(id) => CommitKeeps(g, s, id);
    case Crash => CrashKeeps(g, s);
    case RecoverIO => RecoverKeeps(g, s);
  }

  lemma InitialInv(g: Geometry, s: State)
    requires Initial(g, s)
    ensures Inv(g, s)
  {
    assert s.core.mem == s.core.disk && s.core.lh == [];
    assert s.hist.Stable() == s.core.disk;
    assert DiskOk(g, s.core.disk, s.core.disk);
  }

  lemma {:induction false} RunKeeps(g: Geometry, s: State, steps: seq<Step>, s': State)
    requires Inv(g, s) && Runs(g, s, steps, s')
    ensures Inv(g, s')
    decreases |steps|
  {
    hide Inv;
    if steps != [] {
      StepKeeps(g, s, steps[0]);
      RunKeeps(g, Apply(g, s, steps[0]), steps[1..], s');
    }
  }

  // ----- Theorems over runs -----

  /** In every run, whatever image the disk holds when power fails, a complete
      recovery from it yields the initial contents with the durable operations'
      updates replayed in order; and every operation is durable whole or not at all. */
  lemma CrashAtomicity(g: Geometry, s0: State, steps: seq<Step>, s: State)
    requires Initial(g, s0) && Runs(g, s0, steps, s)
    ensures |s.core.disk| == g.size && g.Valid() && HeadOk(g, s.core.disk)
    ensures s.hist.Fits() && |s.hist.init| == g.size
    ensures forall b :: 0 <= b < g.size && g.Home(b) ==>
              Recovered(g, s.core.disk, b) == Replay(s.hist.init, s.hist.durable)[b]
    ensures forall id :: By(s.hist.durable, id) == [] || By(s.hist.durable, id) == By(s.hist.issued, id)
  {
    InitialInv(g, s0);
    RunKeeps(g, s0, steps, s);
    InvDiskOk(g, s);
    forall id
      ensures By(s.hist.durable, id) == [] || By(s.hist.durable, id) == By(s.hist.issued, id)
    {
      assert Whole(s.hist, s.active, id);
    }
  }

  ghost predicate OnlyRecovers(steps: seq<Step>) {
    forall i :: 0 <= i < |steps| ==> steps[i].Crash? || steps[i].RecoverIO?
  }

  /** No operation has written anything since the last commit or boot. */
  ghost predicate Resting(s: State) {
    s.active == {} && s.committers == map[] && s.hist.current == []
  }

  lemma {:induction false} RecoveryKeepsDurable(g: Geometry, s: State, steps: seq<Step>, s': State)
    requires Resting(s) && Runs(g, s, steps, s') && OnlyRecovers(steps)
    ensures Resting(s')
    ensures s'.hist == s.hist
    decreases |steps|
  {
    hide RecoverStep;
    if steps != [] {
      RecoveryKeepsDurable(g, Apply(g, s, steps[0]), steps[1..], s');
    }
  }

  /** A crash at any point of any run, followed by any number of further crashes
      during recovery: once a recovery completes, the home blocks, on disk and in
      the cache, are exactly what was durable at the first crash. */
  lemma RepeatedCrashes(g: Geometry, s0: State, steps: seq<Step>, s: State, more: seq<Step>, s': State)
    requires Initial(g, s0) && Runs(g, s0, steps, s)
    requires OnlyRecovers(more) && Runs(g, Apply(g, s, Crash), more, s')
    requires s'.mode.Running?
    ensures s.hist.Fits()
    ensures SameHome(g, s'.core.disk, Replay(s.hist.init, s.hist.durable))
    ensures SameHome(g, s'.core.mem, Replay(s.hist.init, s.hist.durable))
    ensures s'.core.lh == [] && HeadCount(s'.core.disk[g.start]) == 0
  {
    hide Runs, Replay;
    InitialInv(g, s0);
    RunKeeps(g, s0, steps, s);
    CrashKeeps(g, s);
    RunKeeps(g, Apply(g, s, Crash), more, s');
    RecoveryKeepsDurable(g, Apply(g, s, Crash), more, s');
    ReplayNone(s'.hist.Stable());
  }

  lemma ReplayNone(x: seq<Block>)
    ensures Replay(x, []) == x
  {
  }

  // ----- Crash points inside one commit -----

  /** Where commit() of n blocks stands after k of its disk writes. */
  function PcAt(n: nat, k: nat): (pc: CommitPc)
    requires n > 0
  {
    if k < n then WriteLog(k)
    else if k == n then WriteHead
    else if k <= 2 * n then Install(k - n - 1)
    else if k == 2 * n + 1 then ClearHead
    else Finish
  }

  /** The first k disk writes of commit() by operation id. */
  function Commits(id: OpId, k: nat): (steps: seq<Step>) {
    seq(k, _ => CommitIO(id))
  }

  lemma {:induction false} CommitPoint(g: Geometry, s: State, id: OpId, n: nat, j: nat, k: nat, s': State)
    requires Inv(g, s) && s.mode.Running? && id in s.committers
    requires n > 0 && j <= 2 * n + 2
    requires s.committers[id] == PcAt(n, j) && (j <= 2 * n + 1 ==> |s.core.lh| == n)
    requires j + k <= 2 * n + 2
    requires Runs(g, s, Commits(id, k), s')
    ensures s'.hist.init == s.hist.init
    ensures s'.hist.durable == if j <= n < j + k then s.hist.durable + s.hist.current else s.hist.durable
    decreases k
  {
    hide CommitStep, Control, Data, Histories;
    if k > 0 {
      assert Commits(id, k)[1..] == Commits(id, k - 1);
      var s1 := Apply(g, s, CommitIO(id));
      CommitKeeps(g, s, id);
      LhKept(g, s.core, PcAt(n, j));
      CommitPoint(g, s1, id, n, j + 1, k - 1, s');
    }
  }

  lemma LhKept(g: Geometry, c: Core, pc: CommitPc)
    requires CommitReady(g, c, pc)
    ensures pc != ClearHead ==> CommitStep(g, c, pc).lh == c.lh
  {
  }

  lemma {:induction false} RunsCompose(g: Geometry, s: State, a: seq<Step>, s1: State, b: seq<Step>, s2: State)
    requires Runs(g, s, a, s1) && Runs(g, s1, b, s2)
    ensures Runs(g, s, a + b, s2)
    decreases |a|
  {
    hide Apply;
    if a == [] {
      assert a + b == b;
    } else {
      assert (a + b)[0] == a[0] && (a + b)[1..] == a[1..] + b;
      RunsCompose(g, Apply(g, s, a[0]), a[1..], s1, b, s2);
    }
  }

  /** commit() of n blocks interrupted after k of its 2n + 2 disk writes: a completed
      recovery finds all-old contents if the header write (write n) had not landed,
      and all-new contents if it had. */
  lemma CommitAllOrNothing(g: Geometry, s0: State, steps: seq<Step>, s: State, id: OpId, n: nat, k: nat,
                           s1: State, more: seq<Step>, s2: State)
    requires Initial(g, s0) && Runs(g, s0, steps, s)
    requires s.mode.Running? && id in s.committers
    requires n == |s.core.lh| > 0 && s.committers[id] == WriteLog(0)
    requires k <= 2 * n + 2 && Runs(g, s, Commits(id, k), s1)
    requires OnlyRecovers(more) && Runs(g, Apply(g, s1, Crash), more, s2) && s2.mode.Running?
    ensures s.hist.Fits()
    ensures SameHome(g, s2.core.disk,
              if k <= n then Replay(s.hist.init, s.hist.durable)
              else Replay(Replay(s.hist.init, s.hist.durable), s.hist.current))
  {
    hide Runs, Replay, Apply;
    InitialInv(g, s0);
    RunKeeps(g, s0, steps, s);
    CommitPoint(g, s, id, n, 0, k, s1);
    RunsCompose(g, s0, steps, s, Commits(id, k), s1);
    RepeatedCrashes(g, s0, steps + Commits(id, k), s1, more, s2);
    if k > n {
      ReplayConcat(s.hist.init, s.hist.durable, s.hist.current);
    }
  }

  /** Group commit: while any operation is active nobody commits, at most one thread
      commits, the panics of end_op and "log_write outside of trans" are out of reach,
      and nobody sleeps in begin_op unless some thread is still to wake it. */
  lemma GroupCommit(g: Geometry, s0: State, steps: seq<Step>, s: State)
    requires Initial(g, s0) && Runs(g, s0, steps, s)
    ensures s.core.committing ==> s.active == {} && s.core.outstanding == 0
    ensures forall i, j :: i in s.committers && j in s.committers ==> i == j
    ensures forall id :: id in s.active ==> !s.core.committing && s.core.outstanding >= 1
    ensures s.waiting != {} ==> s.active != {} || s.committers != map[]
  {
    hide Runs;
    InitialInv(g, s0);
    RunKeeps(g, s0, steps, s);
  }

  /** Once nobody is between begin_op and end_op and no commit runs, all that was written since the last crash is
      durable: what recovery would bring back is what the cache holds. */
  lemma QuietIsDurable(g: Geometry, s0: State, steps: seq<Step>, s: State)
    requires Initial(g, s0) && Runs(g, s0, steps, s) && s.mode.Running? && s.active == {} && s.committers == map[]
    ensures s.hist.current == [] && s.hist.Fits() && SameHome(g, s.core.mem, s.hist.Stable())
    ensures SameHome(g, s.core.disk, s.hist.Stable())
  {
    hide Runs;
    InitialInv(g, s0);
    RunKeeps(g, s0, steps, s);
    FirstOf(s.hist.current);
  }

  lemma FirstOf(us: seq<Update>)
    ensures us == [] || exists u :: u in us
  {
    assert us == [] || us[0] in us;
  }

  /** A cached block that differs from the disk is pinned exactly once, so the buffer
      cache never drops it; no block is logged twice. */
  lemma DirtyIsPinned(g: Geometry, s0: State, steps: seq<Step>, s: State)
    requires Initial(g, s0) && Runs(g, s0, steps, s)
    ensures Distinct(s.core.lh) || s.mode.Recovering?
    ensures s.core.Shape(g)
    ensures forall b :: 0 <= b < g.size && s.core.mem[b] != s.core.disk[b] ==> s.core.pins[b] == 1
  {
    hide Runs, Replay, HeadIs;
    InitialInv(g, s0);
    RunKeeps(g, s0, steps, s);
    var c := s.core;
    if s.mode.Running? {
      if s.committers == map[] {
        OpenPinned(g, c, s.hist.Stable(), s.hist.current);
      } else {
        var id :| id in s.committers;
        CommitDataPinned(g, c, s.hist.Stable(), s.hist.current, s.committers[id]);
      }
    }
  }

  lemma OpenPinned(g: Geometry, c: Core, stable: seq<Block>, current: seq<Update>)
    requires Open(g, c, stable, current)
    ensures Distinct(c.lh)
    ensures forall b :: 0 <= b < g.size && c.mem[b] != c.disk[b] ==> c.pins[b] == 1
  {
    assert c.lh[0..] == c.lh;
    CleanPinned(g, c, 0);
  }

  lemma CountOne(s: seq<nat>, j: nat)
    requires Distinct(s) && j < |s|
    ensures multiset(s)[s[j]] == 1
  {
    assert s == s[..j] + [s[j]] + s[j + 1..];
    assert s[j] !in s[..j] && s[j] !in s[j + 1..];
  }

  lemma CleanPinned(g: Geometry, c: Core, t: nat)
    requires LogMirrored(g, c) && t <= |c.lh| && Clean(g, c, t) && c.pins == multiset(c.lh[t..])
    ensures forall b :: 0 <= b < g.size && c.mem[b] != c.disk[b] ==> c.pins[b] == 1
  {
    forall b | 0 <= b < g.size && c.mem[b] != c.disk[b]
      ensures c.pins[b] == 1
    {
      assert Pending(c.lh, t, b);
      var j :| t <= j < |c.lh| && c.lh[j] == b;
      CountOne(c.lh[t..], j - t);
    }
  }

  lemma CommitDataPinned(g: Geometry, c: Core, stable: seq<Block>, current: seq<Update>, pc: CommitPc)
    requires CommitData(g, c, stable, current, pc)
    ensures Distinct(c.lh)
    ensures c.Shape(g)
    ensures forall b :: 0 <= b < g.size && c.mem[b] != c.disk[b] ==> c.pins[b] == 1
  {
    match pc
    case Install(tail) => CleanPinned(g, c, tail);
    case ClearHead => CleanPinned(g, c, |c.lh|);
    case _ => OpenPinned(g, c, stable, current);
  }
}
