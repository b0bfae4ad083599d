/** Log space: what begin_op's reservation guarantees to operations that log at
    most MAXOPBLOCKS distinct blocks, and the one case it does not cover. */
module LogReservation {
  import opened Blocks
  import opened LogFormat
  import opened LogProtocol
  import opened LogInvariant
  import opened LogTheorems

  /** The operation stays within MAXOPBLOCKS distinct blocks. */
  ghost predicate Within(s: State, id: OpId, b: nat) {
    id in s.wrote && |s.wrote[id] + {b}| <= MAXOPBLOCKS
  }

  ghost predicate Disciplined(g: Geometry, s: State, steps: seq<Step>, s': State)
    decreases |steps|
  {
    if steps == [] then s' == s
    else
      && Enabled(g, s, steps[0])
      && (steps[0].Write? ==> Within(s, steps[0].id, steps[0].b))
      && Disciplined(g, Apply(g, s, steps[0]), steps[1..], s')
  }

  ghost predicate Reserved(s: State) {
    if s.mode.Running? then Books(s.core.lh, s.reserve, s.active, s.wrote)
    else s.reserve == multiset{} && s.active == {} && s.core.outstanding == 0
  }

  ghost predicate Books(lh: seq<nat>, reserve: multiset<OpId>, active: set<OpId>, wrote: map<OpId, set<nat>>) {
    && |lh| + |reserve| <= LOGBLOCKS
    && (forall id :: reserve[id] <= MAXOPBLOCKS && (reserve[id] > 0 ==> id in active))
    && (forall id :: id in active && id in wrote ==> Paid(reserve[id], wrote[id], lh))
  }

  /** Every block the operation logged is in the list, and appending it cost at most one reservation. */
  ghost predicate Paid(left: nat, wrote: set<nat>, lh: seq<nat>) {
    left + |wrote| >= MAXOPBLOCKS && forall b :: b in wrote ==> b in lh
  }

  lemma PaidMore(left: nat, left': nat, wrote: set<nat>, lh: seq<nat>, b: nat)
    requires Paid(left, wrote, lh) && |wrote + {b}| <= MAXOPBLOCKS
    ensures b !in lh ==> left > 0
    ensures left' >= left ==> Paid(left', wrote, lh + [b])
    ensures b in lh && left' >= left ==> Paid(left', wrote + {b}, lh)
    ensures b !in lh && left' + 1 >= left ==> Paid(left', wrote + {b}, lh + [b])
  {
    assert wrote <= wrote + {b};
    if b !in wrote {
      assert |wrote + {b}| == |wrote| + 1;
    } else {
      assert wrote + {b} == wrote;
    }
  }

  lemma {:induction false} SumBound(m: multiset<OpId>, a: set<OpId>)
    requires forall id :: m[id] <= MAXOPBLOCKS && (m[id] > 0 ==> id in a)
    ensures |m| <= MAXOPBLOCKS * |a|
    decreases |a|
  {
    if a == {} {
      assert m == multiset{};
    } else {
      var x :| x in a;
      SumBound(m[x := 0], a - {x});
    }
  }

  lemma BeginBooks(lh: seq<nat>, reserve: multiset<OpId>, active: set<OpId>, wrote: map<OpId, set<nat>>, id: OpId)
    requires Books(lh, reserve, active, wrote) && id !in active
    requires |lh| + (|active| + 1) * MAXOPBLOCKS <= LOGBLOCKS
    ensures Books(lh, reserve[id := MAXOPBLOCKS], active + {id}, wrote[id := {}])
  {
    SumBound(reserve, active);
    assert reserve[id] == 0;
    assert Paid(MAXOPBLOCKS, {}, lh);
    hide Paid;
  }

  lemma WriteBooks(lh: seq<nat>, reserve: multiset<OpId>, active: set<OpId>, wrote: map<OpId, set<nat>>,
                   id: OpId, b: nat)
    requires Books(lh, reserve, active, wrote)
    requires id in active && id in wrote && |wrote[id] + {b}| <= MAXOPBLOCKS
    ensures b in lh ==> Books(lh, reserve, active, wrote[id := wrote[id] + {b}])
    ensures b !in lh ==> Books(lh + [b], reserve - multiset{id}, active, wrote[id := wrote[id] + {b}])
  {
    var wrote' := wrote[id := wrote[id] + {b}];
    PaidMore(reserve[id], reserve[id], wrote[id], lh, b);
    PaidMore(reserve[id], (reserve - multiset{id})[id], wrote[id], lh, b);
    hide Paid;
    if b !in lh {
      forall i | i in active && i in wrote'
        ensures Paid((reserve - multiset{id})[i], wrote'[i], lh + [b])
      {
        if i != id {
          PaidOther(reserve[i], wrote[i], lh, b);
        }
      }
    }
  }

  lemma PaidOther(left: nat, wrote: set<nat>, lh: seq<nat>, b: nat)
    requires Paid(left, wrote, lh)
    ensures Paid(left, wrote, lh + [b])
  {
  }

  lemma EndBooks(lh: seq<nat>, reserve: multiset<OpId>, active: set<OpId>, wrote: map<OpId, set<nat>>, id: OpId)
    requires Books(lh, reserve, active, wrote)
    ensures Books(lh, reserve[id := 0], active - {id}, wrote - {id})
  {
  }

  lemma IdleBooks(lh: seq<nat>, wrote: map<OpId, set<nat>>)
    requires |lh| <= LOGBLOCKS
    ensures Books(lh, multiset{}, {}, wrote)
  {
  }

  lemma StepReserved(g: Geometry, s: State, step: Step)
    requires Inv(g, s) && Reserved(s) && Enabled(g, s, step)
    requires step.Write? ==> Within(s, step.id, step.b)
    ensures Reserved(Apply(g, s, step))
  {
    hide Books, Data, Histories, EncodeHead, HeadList;
    var s' := Apply(g, s, step);
    match step
    case Begin(id) =>
      if HasRoom(s.core) {
        BeginBooks(s.core.lh, s.reserve, s.active, s.wrote, id);
      }
    case Write(id, b, v) => WriteBooks(s.core.lh, s.reserve, s.active, s.wrote, id, b);
    case End(id) => EndBooks(s.core.lh, s.reserve, s.active, s.wrote, id);
    case CommitIO(id) =>
      assert s'.core.lh == s.core.lh || s'.core.lh == [];
      NoReserve(s.core.lh, s.reserve, s.active, s.wrote);
      IdleBooks(s'.core.lh, s.wrote);
    case Crash =>
    case RecoverIO =>
      if s'.mode.Running? {
        IdleBooks([], s.wrote);
      }
  }

  lemma NoReserve(lh: seq<nat>, reserve: multiset<OpId>, active: set<OpId>, wrote: map<OpId, set<nat>>)
    requires Books(lh, reserve, active, wrote) && active == {}
    ensures reserve == multiset{}
  {
    assert forall id :: reserve[id] == 0;
  }

  lemma {:induction false} DisciplinedRun(g: Geometry, s: State, steps: seq<Step>, s': State)
    requires Inv(g, s) && Reserved(s) && Disciplined(g, s, steps, s')
    ensures Inv(g, s') && Reserved(s')
    ensures Runs(g, s, steps, s')
    decreases |steps|
  {
    hide Data, Histories, Reserved, Control, Apply;
    if steps != [] {
      var step := steps[0];
      StepKeeps(g, s, step);
      StepReserved(g, s, step);
      DisciplinedRun(g, Apply(g, s, step), steps[1..], s');
    }
  }

  /** In every run whose operations log at most MAXOPBLOCKS distinct blocks each:
      the log never holds more than LOGBLOCKS blocks less the unused reservations,
      and a log_write panics if and only if the log is full; then the block is
      already logged, and no active operation has any reservation left. */
  lemma ReservationHolds(g: Geometry, s0: State, steps: seq<Step>, s: State)
    requires Initial(g, s0) && Disciplined(g, s0, steps, s)
    ensures s.mode.Running? ==> |s.core.lh| + |s.reserve| <= LOGBLOCKS
    ensures forall id, b :: s.mode.Running? && id in s.active && Within(s, id, b) ==>
              && (LogWritePanics(s.core) <==> |s.core.lh| == LOGBLOCKS)
              && (LogWritePanics(s.core) ==> b in s.core.lh && s.reserve == multiset{})
  {
    InitialInv(g, s0);
    assert Reserved(s0);
    DisciplinedRun(g, s0, steps, s);
    hide Data, Histories, Disciplined, Paid;
    forall id, b | s.mode.Running? && id in s.active && Within(s, id, b)
      ensures LogWritePanics(s.core) <==> |s.core.lh| == LOGBLOCKS
      ensures LogWritePanics(s.core) ==> b in s.core.lh && s.reserve == multiset{}
    {
      PaidMore(s.reserve[id], 0, s.wrote[id], s.core.lh, b);
      assert id in s.reserve ==> |s.reserve| > 0;
    }
  }

  // ----- The reservation does not cover absorbed writes -----

  /** How many of the first k blocks of the run below fall to operation id. */
  function Share(id: OpId, k: nat): (n: nat) {
    if k <= 10 * id then 0 else if k <= 10 * id + 10 then k - 10 * id else 10
  }

  /** Three operations are active and between them have logged k distinct blocks, ten each. */
  ghost predicate Filling(g: Geometry, s: State, k: nat) {
    && g == Geometry(100, 2) && k <= LOGBLOCKS
    && s.mode.Running? && (forall id: OpId :: id < 3 ==> id in s.active && id in s.wrote)
    && |s.core.mem| == 100 && s.core.outstanding == 3
    && |s.core.lh| == k && (forall i :: 0 <= i < k ==> s.core.lh[i] == 40 + i)
    && (forall id: OpId :: id < 3 ==> |s.wrote[id]| <= Share(id, k))
    && (k > 0 ==> 40 in s.wrote[0])
  }

  lemma FillEnabled(g: Geometry, s: State, k: nat, id: OpId, v: Block)
    requires Filling(g, s, k) && 10 * id <= k < 10 * id + 10 && id < 3
    ensures Enabled(g, s, Write(id, 40 + k, v))
    ensures Within(s, id, 40 + k) && 40 + k !in s.core.lh
  {
  }

  lemma FillOne(g: Geometry, s: State, k: nat, id: OpId, v: Block)
    requires Filling(g, s, k) && 10 * id <= k < 10 * id + 10 && id < 3
    requires Enabled(g, s, Write(id, 40 + k, v)) && 40 + k !in s.core.lh
    ensures Filling(g, Apply(g, s, Write(id, 40 + k, v)), k + 1)
  {
    var s' := Apply(g, s, Write(id, 40 + k, v));
    assert s'.core.lh == s.core.lh + [40 + k];
    assert s'.wrote == s.wrote[id := s.wrote[id] + {40 + k}];
    hide Apply, Enabled;
  }

  lemma {:induction false} Fill(g: Geometry, s: State, k: nat, v: Block) returns (steps: seq<Step>, s': State)
    requires Filling(g, s, k)
    ensures Disciplined(g, s, steps, s') && Filling(g, s', LOGBLOCKS)
    decreases LOGBLOCKS - k
  {
    if k == LOGBLOCKS {
      steps, s' := [], s;
    } else {
      var id := if k < 10 then 0 else if k < 20 then 1 else 2;
      FillEnabled(g, s, k, id, v);
      FillOne(g, s, k, id, v);
      hide Filling, Enabled, Apply, Within;
      var step := Write(id, 40 + k, v);
      steps, s' := Fill(g, Apply(g, s, step), k + 1, v);
      steps := [step] + steps;
    }
  }

  lemma DisciplinedCons(g: Geometry, s: State, step: Step, steps: seq<Step>, s': State)
    requires Enabled(g, s, step) && !step.Write? && Disciplined(g, Apply(g, s, step), steps, s')
    ensures Disciplined(g, s, [step] + steps, s')
  {
    assert ([step] + steps)[1..] == steps;
  }

  lemma Boot(s: State) returns (steps: seq<Step>, s': State)
    requires Initial(Geometry(100, 2), s)
    ensures Disciplined(Geometry(100, 2), s, steps, s')
    ensures s'.core == s.core.(disk := s'.core.disk, mem := s'.core.mem) && |s'.core.mem| == 100
    ensures s' == s.(core := s'.core, mode := Running)
  {
    var g := Geometry(100, 2);
    InitialInv(g, s);
    StepKeeps(g, s, RecoverIO);
    var s1 := Apply(g, s, RecoverIO);
    assert s1 == s.(mode := Recovering(ClearLog));
    hide HeadList, EncodeHead, Inv, Disciplined;
    DisciplinedNil(g, Apply(g, s1, RecoverIO));
    s' := Apply(g, s1, RecoverIO);
    DisciplinedCons(g, s1, RecoverIO, [], s');
    DisciplinedCons(g, s, RecoverIO, [RecoverIO] + [], s');
    steps := [RecoverIO] + ([RecoverIO] + []);
  }

  lemma ThreeBegin(s: State) returns (steps: seq<Step>, s': State)
    requires s.mode.Running? && s.active == {} && s.waiting == {} && s.begun == {} && s.wrote == map[]
    requires s.core.lh == [] && s.core.outstanding == 0 && !s.core.committing && |s.core.mem| == 100
    ensures Disciplined(Geometry(100, 2), s, steps, s') && Filling(Geometry(100, 2), s', 0)
  {
    var g := Geometry(100, 2);
    var s1 := Apply(g, s, Begin(0));
    var s2 := Apply(g, s1, Begin(1));
    s' := Apply(g, s2, Begin(2));
    assert s'.wrote == map[0 := {}, 1 := {}, 2 := {}];
    assert s'.active == {0, 1, 2} && s'.core.outstanding == 3 && s'.mode == Running;
    assert s'.core.lh == [] && s'.core.mem == s.core.mem;
    hide Disciplined;
    forall id: OpId | id < 3
      ensures id in s'.active && id in s'.wrote && |s'.wrote[id]| <= Share(id, 0)
    {
      assert id == 0 || id == 1 || id == 2;
    }
    assert Disciplined(g, s', [], s') by { DisciplinedNil(g, s'); }
    DisciplinedCons(g, s2, Begin(2), [], s');
    DisciplinedCons(g, s1, Begin(1), [Begin(2)] + [], s');
    DisciplinedCons(g, s, Begin(0), [Begin(1)] + ([Begin(2)] + []), s');
    steps := [Begin(0)] + ([Begin(1)] + ([Begin(2)] + []));
  }

  lemma DisciplinedNil(g: Geometry, s: State)
    ensures Disciplined(g, s, [], s)
  {
  }

  lemma {:induction false} DisciplinedCompose(g: Geometry, s: State, a: seq<Step>, s1: State, b: seq<Step>, s2: State)
    requires Disciplined(g, s, a, s1) && Disciplined(g, s1, b, s2)
    ensures Disciplined(g, s, a + b, s2)
    decreases |a|
  {
    hide Apply, Within, Enabled;
    if a == [] {
      assert a + b == b;
    } else {
      assert (a + b)[0] == a[0] && (a + b)[1..] == a[1..] + b;
      DisciplinedCompose(g, Apply(g, s, a[0]), a[1..], s1, b, s2);
    }
  }

  /** A disciplined run in which rewriting a block the operation itself already logged,
      a write that would be absorbed, panics with "too big a transaction". */
  lemma AbsorbedWriteCanPanic(s0: State) returns (steps: seq<Step>, s: State)
    requires Initial(Geometry(100, 2), s0)
    ensures Disciplined(Geometry(100, 2), s0, steps, s)
    ensures s.mode.Running? && 0 in s.active && 0 in s.wrote && 40 in s.wrote[0] && 40 in s.core.lh
    ensures Within(s, 0, 40) && LogWritePanics(s.core)
  {
    var g := Geometry(100, 2);
    hide Disciplined, Filling, LogWritePanics, Within;
    var a, s1 := Boot(s0);
    var b, s2 := ThreeBegin(s1);
    var c, s3 := Fill(g, s2, 0, ZeroBlock());
    DisciplinedCompose(g, s0, a, s1, b, s2);
    DisciplinedCompose(g, s0, a + b, s2, c, s3);
    steps, s := a + b + c, s3;
    FullPanics(g, s);
  }

  lemma FullPanics(g: Geometry, s: State)
    requires Filling(g, s, LOGBLOCKS)
    ensures s.mode.Running? && 0 in s.active && 0 in s.wrote && 40 in s.wrote[0] && 40 in s.core.lh
    ensures Within(s, 0, 40) && LogWritePanics(s.core)
  {
    assert s.core.lh[0] == 40 && 0 in s.active && |s.wrote[0]| <= Share(0, LOGBLOCKS);
    assert s.wrote[0] + {40} == s.wrote[0];
  }
}
