/** The life of an operation in the log, and that commit and recovery come to an end. */
module LogLife {
  import opened Blocks
  import opened LogFormat
  import opened LogProtocol
  import opened LogInvariant
  import opened LogTheorems

  // ----- one operation -----

  /** An operation is active from the begin_op that lets it in until its own end_op or a crash. */
  lemma ActiveLaw(g: Geometry, s: State, step: Step, id: OpId)
    requires Inv(g, s) && Enabled(g, s, step)
    ensures var s' := Apply(g, s, step);
            id in s'.active <==>
            (id in s.active && step != End(id) && step != Crash) || (step == Begin(id) && HasRoom(s.core))
  {
    hide Inv, CommitStep, RecoverStep, CommitReady, RecoverReady, LogWrite;
  }

  /** log_write: the block shows what was written and is listed; nothing else changes in the cache, and the disk
      not at all. */
  lemma WriteLaw(g: Geometry, s: State, id: OpId, b: nat, v: Block)
    requires Inv(g, s) && Enabled(g, s, Write(id, b, v))
    ensures var s' := Apply(g, s, Write(id, b, v));
            && b in s'.core.lh && s'.core.mem == s.core.mem[b := v] && s'.core.disk == s.core.disk
            && s'.hist.current == s.hist.current + [Update(id, b, v)] && s'.hist.durable == s.hist.durable
  {
    hide Data, Histories;
  }

  /** The last end_op starts a commit; any other leaves the transaction open and wakes those who wait for room. */
  lemma EndLaw(g: Geometry, s: State, id: OpId)
    requires Inv(g, s) && Enabled(g, s, End(id))
    ensures var s' := Apply(g, s, End(id));
            && s'.core.outstanding == |s.active| - 1 && s'.core.mem == s.core.mem && s'.core.lh == s.core.lh
            && (s.active == {id} <==> s'.core.committing) && (s.active == {id} <==> id in s'.committers)
            && (s.active != {id} ==> s'.waiting == {})
  {
    hide Data, Histories;
    assert |s.active| == 1 <==> s.active == {id} by {
      assert s.active == (s.active - {id}) + {id};
      assert |s.active| == |s.active - {id}| + 1;
    }
  }

  // ----- commit comes to an end -----

  /** How many disk writes, and the last step, are left of a commit of n blocks. */
  function Left(n: nat, pc: CommitPc): (k: nat) {
    match pc
    case WriteLog(t) => (if t < n then n - t else 0) + n + 3
    case WriteHead => n + 3
    case Install(t) => (if t < n then n - t else 0) + 2
    case ClearHead => 2
    case Finish => 1
  }

  /** Steps of the committer alone. */
  ghost predicate OnlyCommits(steps: seq<Step>, id: OpId) {
    forall k :: 0 <= k < |steps| ==> steps[k] == CommitIO(id)
  }

  lemma CommitterOf(g: Geometry, s: State, id: OpId)
    requires Inv(g, s) && s.mode.Running? && id in s.committers
    ensures s.committers == map[id := s.committers[id]] && s.core.committing && s.active == {}
    ensures CommitReady(g, s.core, s.committers[id])
    ensures CommitData(g, s.core, s.hist.Stable(), s.hist.current, s.committers[id])
  {
    hide Histories, Replay, EncodeHead;
    assert s.committers.Keys == {id};
  }

  /** Nothing is current once the list is empty, or the header is written. */
  lemma CurrentGone(g: Geometry, c: Core, stable: seq<Block>, current: seq<Update>, pc: CommitPc)
    requires CommitData(g, c, stable, current, pc) && (pc.Install? || pc.ClearHead? || pc.Finish?)
    ensures current == []
  {
    FirstOf(current);
    hide Replay, HeadIs, SameHome, Clean;
  }

  /** What a step of the committer does to the commit. */
  lemma CommitShrinks(g: Geometry, s: State, id: OpId)
    requires s.mode.Running? && id in s.committers && CommitReady(g, s.core, s.committers[id])
    requires s.committers == map[id := s.committers[id]]
    ensures Enabled(g, s, CommitIO(id))
    ensures var s', pc := Apply(g, s, CommitIO(id)), s.committers[id];
            && s'.mode.Running? && s'.active == s.active
            && (pc == Finish ==> s'.committers == map[] && !s'.core.committing && s'.waiting == {})
            && (pc == Finish ==> s'.core.lh == s.core.lh && s'.hist == s.hist)
            && (pc != Finish ==> id in s'.committers && Left(|s'.core.lh|, s'.committers[id]) < Left(|s.core.lh|, pc))
  {
    hide CommitStep, CommitReady, Left, CommitNext;
    StepShrinks(g, s.core, s.committers[id]);
  }

  lemma StepShrinks(g: Geometry, c: Core, pc: CommitPc)
    requires CommitReady(g, c, pc)
    ensures var c' := CommitStep(g, c, pc);
            && (pc == Finish ==> c' == c.(committing := false))
            && (pc != Finish ==> Left(|c'.lh|, CommitNext(|c.lh|, pc)) < Left(|c.lh|, pc))
  {
    hide EncodeHead;
  }

  lemma CommitSum(g: Geometry, s: State, id: OpId)
    requires Enabled(g, s, CommitIO(id))
    ensures var h, h' := s.hist, Apply(g, s, CommitIO(id)).hist;
            h'.durable + h'.current == h.durable + h.current
  {
    hide EncodeHead, CommitStep;
    var h := s.hist;
    assert h.durable + h.current + [] == h.durable + h.current;
  }

  /** One step of the committer. */
  lemma CommitOne(g: Geometry, s: State, id: OpId)
    requires Inv(g, s) && s.mode.Running? && id in s.committers
    ensures Enabled(g, s, CommitIO(id))
    ensures var s', pc := Apply(g, s, CommitIO(id)), s.committers[id];
            && Inv(g, s') && s'.mode.Running?
            && s'.hist.durable + s'.hist.current == s.hist.durable + s.hist.current
            && (pc == Finish ==> s'.committers == map[] && !s'.core.committing && s'.waiting == {})
            && (pc == Finish ==> s'.core.lh == [] && s'.hist.current == [])
            && (pc != Finish ==> id in s'.committers && Left(|s'.core.lh|, s'.committers[id]) < Left(|s.core.lh|, pc))
  {
    CommitterOf(g, s, id);
    var pc := s.committers[id];
    if pc == Finish {
      CurrentGone(g, s.core, s.hist.Stable(), s.hist.current, pc);
    }
    hide Inv, Apply, Enabled, Left, CommitReady;
    CommitShrinks(g, s, id);
    CommitSum(g, s, id);
    StepKeeps(g, s, CommitIO(id));
  }

  lemma OnlyCons(rest: seq<Step>, id: OpId)
    ensures OnlyCommits([], id) && (OnlyCommits(rest, id) ==> OnlyCommits([CommitIO(id)] + rest, id))
  {
  }

  lemma RunsNil(g: Geometry, s: State)
    ensures Runs(g, s, [], s)
  {
  }

  lemma RunsCons(g: Geometry, s: State, step: Step, rest: seq<Step>, s': State)
    requires Enabled(g, s, step) && Runs(g, Apply(g, s, step), rest, s')
    ensures Runs(g, s, [step] + rest, s')
  {
    hide Enabled, Apply;
    assert ([step] + rest)[1..] == rest;
  }

  /** From any point of a commit of n blocks, at most 2 n + 3 steps of the committer end it. Then all that was
      written is durable, the list is empty, and everybody who waited is awake. */
  lemma {:induction false} CommitFinishes(g: Geometry, s: State, id: OpId) returns (steps: seq<Step>, s': State)
    requires Inv(g, s) && s.mode.Running? && id in s.committers
    ensures Runs(g, s, steps, s') && OnlyCommits(steps, id) && |steps| <= Left(|s.core.lh|, s.committers[id])
    ensures s'.committers == map[] && !s'.core.committing && s'.core.lh == [] && s'.waiting == {}
    ensures s'.hist.durable == s.hist.durable + s.hist.current && s'.hist.current == []
    decreases Left(|s.core.lh|, s.committers[id])
  {
    CommitOne(g, s, id);
    hide Inv, Apply, Enabled, Left, Runs, OnlyCommits;
    var step := CommitIO(id);
    var s1 := Apply(g, s, step);
    if s.committers[id] == Finish {
      RunsNil(g, s1);
      OnlyCons([], id);
      RunsCons(g, s, step, [], s1);
      steps, s' := [step] + [], s1;
      assert s1.hist.durable + [] == s1.hist.durable;
    } else {
      var rest;
      rest, s' := CommitFinishes(g, s1, id);
      OnlyCons(rest, id);
      RunsCons(g, s, step, rest, s');
      steps := [step] + rest;
    }
  }

  // ----- recovery comes to an end -----

  function RecoverLeft(n: nat, pc: RecoverPc): (k: nat) {
    match pc
    case ReadHead => LOGBLOCKS + 2
    case Reinstall(t) => (if t < n then n - t else 0) + 1
    case ClearLog => 1
  }

  lemma RecoverOne(g: Geometry, s: State)
    requires Inv(g, s) && s.mode.Recovering?
    ensures Enabled(g, s, RecoverIO)
    ensures var s' := Apply(g, s, RecoverIO);
            && Inv(g, s') && s'.hist == s.hist
            && (s'.mode.Recovering? ==>
                  RecoverLeft(|s'.core.lh|, s'.mode.pc) < RecoverLeft(|s.core.lh|, s.mode.pc))
            && (s'.mode.Running? ==> s'.core.lh == [])
  {
    hide Histories, Replay, EncodeHead;
    assert Enabled(g, s, RecoverIO);
    StepKeeps(g, s, RecoverIO);
    RecoverShape(g, s);
    hide Inv, Data, DiskOk;
  }

  lemma RecoverShape(g: Geometry, s: State)
    requires Inv(g, s) && Enabled(g, s, RecoverIO)
    ensures Apply(g, s, RecoverIO).core.Shape(g)
  {
    hide Histories, Replay;
    StepKeeps(g, s, RecoverIO);
    hide Data;
  }

  /** Recovery ends after at most LOGBLOCKS + 2 steps if it is not interrupted, with an empty log. */
  lemma {:induction false} RecoveryFinishes(g: Geometry, s: State) returns (steps: seq<Step>, s': State)
    requires Inv(g, s) && s.mode.Recovering?
    ensures Runs(g, s, steps, s') && OnlyRecoverIO(steps)
    ensures |steps| <= RecoverLeft(|s.core.lh|, s.mode.pc) <= LOGBLOCKS + 2
    ensures s'.mode.Running? && s'.core.lh == [] && s'.hist == s.hist
    decreases RecoverLeft(|s.core.lh|, s.mode.pc)
  {
    RecoverOne(g, s);
    LeftBound(g, s);
    hide Inv, Apply, Enabled, RecoverLeft, Runs, OnlyRecoverIO;
    var s1 := Apply(g, s, RecoverIO);
    if s1.mode.Running? {
      RunsNil(g, s1);
      RunsCons(g, s, RecoverIO, [], s1);
      OnlyRecoverCons([]);
      steps, s' := [RecoverIO] + [], s1;
    } else {
      var rest;
      rest, s' := RecoveryFinishes(g, s1);
      RunsCons(g, s, RecoverIO, rest, s');
      OnlyRecoverCons(rest);
      steps := [RecoverIO] + rest;
    }
  }

  /** Steps of recovery alone. */
  ghost predicate OnlyRecoverIO(steps: seq<Step>) {
    forall k :: 0 <= k < |steps| ==> steps[k] == RecoverIO
  }

  lemma OnlyRecoverCons(rest: seq<Step>)
    ensures OnlyRecoverIO([]) && (OnlyRecoverIO(rest) ==> OnlyRecoverIO([RecoverIO] + rest))
  {
  }

  lemma LeftBound(g: Geometry, s: State)
    requires Inv(g, s) && s.mode.Recovering?
    ensures 0 < RecoverLeft(|s.core.lh|, s.mode.pc) <= LOGBLOCKS + 2
  {
    hide Data, Histories, Control;
  }
}
