/** Whom begin_op lets in: exactly those for whom the log has room in the worst case. */
module LogAdmission {
  import opened Collections
  import opened Blocks
  import opened LogFormat
  import opened LogProtocol
  import opened LogInvariant
  import opened LogTheorems

  /** What each of some operations is still going to log. */
  type Writes = map<OpId, set<nat>>

  ghost function All(w: Writes): (r: set<nat>) {
    set id, b | id in w && b in w[id] :: b
  }

  /** At most MAXOPBLOCKS blocks each. */
  ghost predicate Modest(w: Writes) {
    forall id :: id in w ==> |w[id]| <= MAXOPBLOCKS
  }

  /** Whatever the operations ids log from now on, up to MAXOPBLOCKS blocks each, the list stays within the log. */
  ghost predicate RoomFor(lh: seq<nat>, ids: set<OpId>) {
    forall w: Writes :: w.Keys == ids && Modest(w) ==> |Set(lh) + All(w)| <= LOGBLOCKS
  }

  /** What log_write does to the list: it has the block then, once. */
  lemma LogWriteLists(c: Core, b: nat, v: Block)
    requires b < |c.mem| && Distinct(c.lh)
    ensures var c' := LogWrite(c, b, v); Distinct(c'.lh) && Set(c'.lh) == Set(c.lh) + {b}
  {
    var c' := LogWrite(c, b, v);
    if b !in c.lh {
      assert forall x :: x in c'.lh <==> x in c.lh || x == b;
    }
  }

  lemma {:induction false} ListSize(lh: seq<nat>)
    requires Distinct(lh)
    ensures |Set(lh)| == |lh|
  {
    if lh != [] {
      var k := |lh| - 1;
      ListSize(lh[..k]);
      assert Set(lh) == Set(lh[..k]) + {lh[k]};
    } else {
      assert Set(lh) == {};
    }
  }

  lemma AllMore(w: Writes, id: OpId, bs: set<nat>)
    requires id !in w
    ensures All(w[id := bs]) == All(w) + bs
  {
    var w' := w[id := bs];
    forall b
      ensures b in All(w') <==> b in All(w) + bs
    {
      if b in All(w) {
        var i :| i in w && b in w[i];
        assert i in w' && b in w'[i];
      } else if b in bs {
        assert id in w' && b in w'[id];
      }
    }
  }

  lemma {:induction false} AllSize(w: Writes)
    requires Modest(w)
    ensures |All(w)| <= MAXOPBLOCKS * |w|
    decreases |w|
  {
    if w.Keys != {} {
      var id :| id in w.Keys;
      var rest := w - {id};
      assert rest.Keys == w.Keys - {id};
      AllSize(rest);
      assert w == rest[id := w[id]];
      AllMore(rest, id, w[id]);
      UnionSize(All(rest), w[id]);
    } else {
      assert All(w) == {};
    }
  }

  /** Operations that log MAXOPBLOCKS blocks each, no two the same, from block number `from` on. */
  lemma {:induction false} Worst(ids: set<OpId>, from: nat) returns (w: Writes)
    ensures w.Keys == ids && Modest(w) && All(w) == Range(from, from + MAXOPBLOCKS * |ids|)
    decreases |ids|
  {
    if ids == {} {
      w := map[];
      assert All(w) == {};
    } else {
      hide All;
      var id :| id in ids;
      var next := from + MAXOPBLOCKS;
      var rest := Worst(ids - {id}, next);
      RangeSize(from, next);
      AllMore(rest, id, Range(from, next));
      w := rest[id := Range(from, next)];
      assert next + MAXOPBLOCKS * |ids - {id}| == from + MAXOPBLOCKS * |ids|;
    }
  }

  /** A number above all in the list. */
  ghost function Above(lh: seq<nat>): (n: nat)
    ensures forall k :: 0 <= k < |lh| ==> lh[k] < n
  {
    if lh == [] then 0
    else
      var n, last := Above(lh[..|lh| - 1]), lh[|lh| - 1];
      if last < n then n else last + 1
  }

  /** The worst case in numbers. */
  lemma RoomIs(lh: seq<nat>, ids: set<OpId>)
    requires Distinct(lh)
    ensures RoomFor(lh, ids) <==> |lh| + MAXOPBLOCKS * |ids| <= LOGBLOCKS
  {
    ListSize(lh);
    if |lh| + MAXOPBLOCKS * |ids| <= LOGBLOCKS {
      forall w: Writes | w.Keys == ids && Modest(w)
        ensures |Set(lh) + All(w)| <= LOGBLOCKS
      {
        AllSize(w);
        assert |w| == |w.Keys|;
        UnionSize(Set(lh), All(w));
      }
    } else {
      var from := Above(lh);
      var w := Worst(ids, from);
      RangeSize(from, from + MAXOPBLOCKS * |ids|);
      assert Set(lh) !! All(w);
      assert |Set(lh) + All(w)| == |Set(lh)| + |All(w)|;
    }
  }

  /** In every run, begin_op lets an operation in if and only if no commit is under way and the log has room for
      MAXOPBLOCKS further blocks of it and of each active operation. Otherwise the caller sleeps. */
  lemma AdmissionExact(g: Geometry, s0: State, steps: seq<Step>, s: State, id: OpId)
    requires Initial(g, s0) && Runs(g, s0, steps, s) && Enabled(g, s, Begin(id))
    ensures var s' := Apply(g, s, Begin(id));
            && (id in s'.active <==> !s.core.committing && RoomFor(s.core.lh, s.active + {id}))
            && (id in s'.waiting <==> id !in s'.active)
  {
    hide Runs, RoomFor;
    InitialInv(g, s0);
    RunKeeps(g, s0, steps, s);
    ListDistinct(g, s);
    RoomIs(s.core.lh, s.active + {id});
  }

  lemma ListDistinct(g: Geometry, s: State)
    requires Inv(g, s) && s.mode.Running?
    ensures Distinct(s.core.lh)
  {
    hide Replay, HeadIs, Histories;
  }

  /** Outside a commit it refuses exactly if the operations could take the list past the log. */
  lemma RefusalExact(g: Geometry, s0: State, steps: seq<Step>, s: State, id: OpId)
    requires Initial(g, s0) && Runs(g, s0, steps, s) && Enabled(g, s, Begin(id)) && !s.core.committing
    ensures id in Apply(g, s, Begin(id)).waiting <==>
            exists w: Writes :: w.Keys == s.active + {id} && Modest(w) && |Set(s.core.lh) + All(w)| > LOGBLOCKS
  {
    hide Runs, Apply, All, Modest;
    AdmissionExact(g, s0, steps, s, id);
  }

  // ----- sleepers -----

  /** Nobody sleeps in begin_op while it would be let in. */
  ghost predicate Awake(s: State) {
    s.mode.Running? && s.waiting != {} ==> !HasRoom(s.core)
  }

  lemma AwakeStep(g: Geometry, s: State, step: Step)
    requires Inv(g, s) && Enabled(g, s, step) && Awake(s)
    ensures Awake(Apply(g, s, step))
  {
    hide Data, Histories, EncodeHead, HeadList;
  }

  lemma {:induction false} RunAwake(g: Geometry, s: State, steps: seq<Step>, s': State)
    requires Inv(g, s) && Awake(s) && Runs(g, s, steps, s')
    ensures Awake(s')
    decreases |steps|
  {
    hide Inv, Awake, Apply, Enabled;
    if steps != [] {
      StepKeeps(g, s, steps[0]);
      AwakeStep(g, s, steps[0]);
      RunAwake(g, Apply(g, s, steps[0]), steps[1..], s');
    }
  }

  /** No wakeup is lost: in every run, while somebody sleeps in begin_op, a commit is under way or one more
      operation could take the list past the log. */
  lemma NobodySleepsWithRoom(g: Geometry, s0: State, steps: seq<Step>, s: State, id: OpId)
    requires Initial(g, s0) && Runs(g, s0, steps, s) && s.mode.Running? && s.waiting != {} && id !in s.active
    ensures s.core.committing || !RoomFor(s.core.lh, s.active + {id})
  {
    hide Runs, RoomFor;
    InitialInv(g, s0);
    RunKeeps(g, s0, steps, s);
    RunAwake(g, s0, steps, s);
    ListDistinct(g, s);
    RoomIs(s.core.lh, s.active + {id});
  }

  /** commit and recovery are never stuck: whoever is inside can take the next disk write. */
  lemma NeverStuck(g: Geometry, s0: State, steps: seq<Step>, s: State)
    requires Initial(g, s0) && Runs(g, s0, steps, s)
    ensures forall id :: id in s.committers ==> Enabled(g, s, CommitIO(id))
    ensures s.mode.Recovering? ==> Enabled(g, s, RecoverIO)
  {
    hide Runs, Histories, Replay;
    InitialInv(g, s0);
    RunKeeps(g, s0, steps, s);
  }
}
