/** The file system on the log: transactions of filewrite, and those that free a file, keep within what
    begin_op reserves. */
module FsLog {
  import opened Collections
  import opened Blocks
  import opened LogFormat
  import opened LogProtocol
  import opened LogReservation
  import FsWrite
  import FsTrunc

  /** What each operation is going to log. */
  type Plan = map<OpId, set<nat>>

  /** It is one transaction of filewrite, or the freeing of a file that fits in one. */
  ghost predicate FileLog(w: set<nat>) {
    FsWrite.ChunkLog(w) || FsTrunc.TruncLog(w)
  }

  lemma FileLogFits(w: set<nat>)
    requires FileLog(w)
    ensures |w| <= MAXOPBLOCKS
  {
    hide FsWrite.ChunkLog, FsTrunc.TruncLog;
    if FsWrite.ChunkLog(w) {
      FsWrite.ChunkLogFits(w);
    } else {
      FsTrunc.TruncLogFits(w);
    }
  }

  ghost predicate FromFiles(plan: Plan) {
    forall id :: id in plan ==> FileLog(plan[id])
  }

  /** Every log_write of the run is of a block its operation was going to log. */
  ghost predicate Follows(steps: seq<Step>, plan: Plan) {
    forall k :: 0 <= k < |steps| && steps[k].Write? ==> steps[k].id in plan && steps[k].b in plan[steps[k].id]
  }

  ghost predicate Planned(s: State, plan: Plan) {
    forall id :: id in s.wrote && id in plan ==> s.wrote[id] <= plan[id]
  }

  lemma PlannedNext(g: Geometry, s: State, step: Step, plan: Plan)
    requires Enabled(g, s, step) && Planned(s, plan)
    requires step.Write? ==> step.id in plan && step.b in plan[step.id]
    ensures Planned(Apply(g, s, step), plan)
  {
  }

  /** A run of the log in which the operations are such transactions keeps the discipline that the
      reservation needs. */
  lemma {:induction false} FilesDisciplined(g: Geometry, s: State, steps: seq<Step>, s': State, plan: Plan)
    requires Runs(g, s, steps, s') && FromFiles(plan) && Follows(steps, plan) && Planned(s, plan)
    ensures Disciplined(g, s, steps, s') && Planned(s', plan)
    decreases |steps|
  {
    hide Apply, FileLog;
    if steps != [] {
      var step := steps[0];
      PlannedNext(g, s, step, plan);
      if step.Write? {
        assert step == steps[0] && step.id in plan;
        WithinPlan(g, s, step, plan);
      }
      assert Follows(steps[1..], plan) by {
        assert forall k :: 0 <= k < |steps[1..]| ==> steps[1..][k] == steps[k + 1];
      }
      FilesDisciplined(g, Apply(g, s, step), steps[1..], s', plan);
    }
  }

  lemma WithinPlan(g: Geometry, s: State, step: Step, plan: Plan)
    requires Enabled(g, s, step) && step.Write? && Planned(s, plan) && FromFiles(plan)
    requires step.id in plan && step.b in plan[step.id]
    ensures Within(s, step.id, step.b)
  {
    hide FileLog;
    FileLogFits(plan[step.id]);
    SubsetSize(s.wrote[step.id] + {step.b}, plan[step.id]);
  }

  /** So in every interleaving of these, crashes included, the log has room: log_write panics if and
      only if the log is full, and then the block is listed already. */
  lemma FilesHaveRoom(g: Geometry, s0: State, steps: seq<Step>, s: State, plan: Plan, id: OpId, b: nat)
    requires Initial(g, s0) && Runs(g, s0, steps, s) && FromFiles(plan) && Follows(steps, plan)
    requires s.mode.Running? && id in s.active && id in s.wrote && id in plan && b in plan[id]
    ensures |s.core.lh| + |s.reserve| <= LOGBLOCKS
    ensures LogWritePanics(s.core) <==> |s.core.lh| == LOGBLOCKS
    ensures LogWritePanics(s.core) ==> b in s.core.lh && s.reserve == multiset{}
  {
    FilesDisciplined(g, s0, steps, s, plan);
    hide Runs, Disciplined, FileLog, Initial;
    FileLogFits(plan[id]);
    SubsetSize(s.wrote[id] + {b}, plan[id]);
    assert Within(s, id, b);
    ReservationHolds(g, s0, steps, s);
  }
}
