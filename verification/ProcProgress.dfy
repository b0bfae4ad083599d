/** The locks of the process machine never block each other: wait_lock comes before every p->lock, and whoever
    holds a p->lock can go on. */
module ProcProgress {
  import opened Proc
  import opened ProcInvariant
  import opened ProcProofs
  import opened ProcLaws
  import opened ProcTheorems

  /** A lock that a thread has to take before it can go on. */
  datatype Need = Nothing | OfProc(x: nat) | OfWait

  function Needs(s: State, c: nat): (r: Need)
    requires InThread(s, c)
  {
    var p := Me(s, c);
    match MyPc(s, c)
    case User => OfProc(p)
    case ForkAdopting(_) => OfWait
    case ForkStarting(np) => OfProc(np)
    case ReparentWake(_, j) => if j < NPROC && j != p then OfProc(j) else Nothing
    case WakeParent(j) => if j < NPROC && j != p then OfProc(j) else Nothing
    case Zombify => OfProc(p)
    case WaitLocking => OfWait
    case WaitScan(i, _) =>
      if i >= NPROC then OfProc(p) else if s.procs[i].parent == Some(p) then OfProc(i) else Nothing
    case WaitSleep => OfProc(p)
    case _ => Nothing
  }

  /** The step takes CPU c on with what it is at. */
  ghost predicate TakesOn(s: State, c: nat, step: Step)
    requires Shape(s)
  {
    step.c == c && Enabled(s, step) && (step.Release? || (InThread(s, c) && (MovesOn(step) || step.SwitchOut?)))
  }

  ghost predicate GoesOn(s: State, c: nat)
    requires Shape(s)
  {
    exists step: Step :: TakesOn(s, c, step)
  }

  predicate Held(s: State, need: Need)
    requires Shape(s)
  {
    match need
    case Nothing => false
    case OfProc(x) => x < NPROC && s.locks[x].Some?
    case OfWait => s.wait.Some?
  }

  /** The step a thread takes when nothing holds it up. */
  function NextStep(s: State, c: nat): (step: Step)
    requires InThread(s, c)
  {
    match MyPc(s, c)
    case Nowhere => SwitchOut(c)
    case Fresh => Resume(c)
    case User => YieldUp(c)
    case AtSched(_) => SwitchOut(c)
    case Resumed(_) => Resume(c)
    case ForkHeld(_) => ForkRelease(c)
    case ForkAdopting(_) => ForkAdopt(c)
    case ForkStarting(_) => ForkStart(c)
    case Reparent(_) => ReparentStep(c)
    case ReparentWake(_, _) => WakeStep(c)
    case WakeParent(_) => WakeParentStep(c)
    case Zombify => BecomeZombie(c)
    case ExitUnlocking => ExitUnlock(c)
    case WaitLocking => WaitBegin(c)
    case WaitScan(_, _) => ScanStep(c, false)
    case WaitSleep => SleepLock(c)
    case WaitDoze => Doze(c)
  }

  /** A thread goes on unless somebody holds the lock it needs. */
  lemma UnheldGoesOn(s: State, c: nat)
    requires Inv(s) && InThread(s, c) && !Held(s, Needs(s, c))
    ensures GoesOn(s, c)
  {
    ThreadOk(s, c);
    ShapeOf(s);
    ChildInTable(s, c);
    hide Inv, Enabled;
    if OwnLocked(MyPc(s, c)) || Child(MyPc(s, c)).Some? {
      NextOfFork(s, c);
    } else {
      NextOfLoop(s, c);
    }
    assert TakesOn(s, c, NextStep(s, c));
  }

  lemma NextOfFork(s: State, c: nat)
    requires InThread(s, c) && !Held(s, Needs(s, c)) && (OwnLocked(MyPc(s, c)) || Child(MyPc(s, c)).Some?)
    requires Child(MyPc(s, c)).Some? ==> Child(MyPc(s, c)).v < NPROC
    ensures Enabled(s, NextStep(s, c))
  {
  }

  lemma NextOfLoop(s: State, c: nat)
    requires InThread(s, c) && !Held(s, Needs(s, c)) && !OwnLocked(MyPc(s, c)) && Child(MyPc(s, c)).None?
    requires !MyPc(s, c).Nowhere?
    ensures Enabled(s, NextStep(s, c))
  {
  }

  lemma ChildInTable(s: State, c: nat)
    requires Inv(s) && InThread(s, c)
    ensures Child(MyPc(s, c)).Some? ==> Child(MyPc(s, c)).v < NPROC
  {
    assert ForksOk(s);
    hide Inv;
  }

  /** In user space a thread can yield and sleep at any time, and exit and wait whenever wait_lock is free. */
  lemma UserCalls(s: State, c: nat, k: nat)
    requires Inv(s) && InThread(s, c) && MyPc(s, c).User?
    ensures Enabled(s, YieldUp(c)) && Enabled(s, SleepOn(c, k))
    ensures s.wait.None? ==> Enabled(s, WaitBegin(c)) && (Me(s, c) != INIT ==> Enabled(s, ExitBegin(c)))
  {
    OwnFree(s, c);
    ShapeOf(s);
    hide Inv;
  }

  /** Nobody else holds the lock of a process that runs in user space. */
  lemma OwnFree(s: State, c: nat)
    requires Inv(s) && InThread(s, c) && MyPc(s, c).User?
    ensures s.locks[Me(s, c)].None?
  {
    var p := Me(s, c);
    ThreadOk(s, c);
    NotInMaking(s, p);
    hide ProcsOk, ForksOk, NoMissedChild, ParentAwake, ScanOk, Pids, ProcOk, OnCpu;
    forall d | 0 <= d < NCPU
      ensures s.locks[p] != Some(d)
    {
      assert s.locks[p] == Some(d) <==> HoldsLock(s, d, p);
    }
  }

  lemma NotInMaking(s: State, p: nat)
    requires Inv(s) && p < NPROC && s.procs[p].state == RUNNING
    ensures forall q :: 0 <= q < NPROC ==> s.procs[q].pc != ForkHeld(p)
  {
    assert ForksOk(s);
    hide Core, ProcsOk, NoMissedChild, ParentAwake, ScanOk, Pids;
    forall q | 0 <= q < NPROC
      ensures s.procs[q].pc != ForkHeld(p)
    {
      assert Child(s.procs[q].pc).Some? ==> Unborn(s, Child(s.procs[q].pc).v);
    }
  }

  /** Whoever holds a p->lock goes on: nothing is waited for under it. */
  lemma HolderGoesOn(s: State, c: nat, x: nat)
    requires Inv(s) && x < NPROC && s.locks[x] == Some(c)
    ensures c < NCPU && GoesOn(s, c)
  {
    ShapeOf(s);
    HolderIs(s, c, x);
    if s.cpus[c].ctx.After? {
      assert TakesOn(s, c, Release(c));
    } else {
      UnheldGoesOn(s, c);
    }
  }

  lemma HolderIs(s: State, c: nat, x: nat)
    requires Inv(s) && x < NPROC && s.locks[x] == Some(c)
    ensures c < NCPU
    ensures (s.cpus[c].ctx.After? && s.cpus[c].ctx.p < NPROC) || (InThread(s, c) && Needs(s, c) == Nothing)
  {
    hide ProcsOk, ForksOk, NoMissedChild, ParentAwake, ScanOk, Pids;
    assert HoldsLock(s, c, x);
  }

  /** Whoever holds wait_lock goes on, or waits for a p->lock whose holder goes on. */
  lemma WaiterGoesOn(s: State, c: nat)
    requires Inv(s) && s.wait == Some(c)
    ensures c < NCPU && InThread(s, c)
    ensures GoesOn(s, c) ||
            (Needs(s, c).OfProc? && Needs(s, c).x < NPROC && s.locks[Needs(s, c).x].Some?
             && GoesOn(s, s.locks[Needs(s, c).x].v))
  {
    WaitHolder(s, c);
    if Held(s, Needs(s, c)) {
      var x := Needs(s, c).x;
      HolderGoesOn(s, s.locks[x].v, x);
    } else {
      UnheldGoesOn(s, c);
    }
  }

  lemma WaitHolder(s: State, c: nat)
    requires Inv(s) && s.wait == Some(c)
    ensures c < NCPU && InThread(s, c) && !Needs(s, c).OfWait?
  {
    hide ProcsOk, ForksOk, NoMissedChild, ParentAwake, ScanOk, Pids;
    assert HoldsWait(s, c);
  }

  /** No deadlock: in every state of every run, a CPU that is not idle in its scheduler goes on, or some other
      does. */
  lemma NoDeadlock(ss: seq<State>, steps: seq<Step>, n: nat, c: nat)
    requires ProcTheorems.Runs(ss, steps) && n <= |steps| && c < NCPU && Shape(ss[n]) && !ss[n].cpus[c].ctx.Scheduler?
    ensures exists d: nat :: d < NCPU && GoesOn(ss[n], d)
  {
    var s := ss[n];
    RunKeeps(ss, steps, n);
    hide GoesOn;
    if s.cpus[c].ctx.After? {
      AfterHolds(s, c);
      HolderGoesOn(s, c, s.cpus[c].ctx.p);
    } else {
      RunsInThread(s, c);
      if !Held(s, Needs(s, c)) {
        UnheldGoesOn(s, c);
      } else if Needs(s, c).OfProc? {
        HolderGoesOn(s, s.locks[Needs(s, c).x].v, Needs(s, c).x);
      } else {
        WaiterGoesOn(s, s.wait.v);
        GoesOnCpu(s, s.wait.v);
      }
    }
  }

  lemma AfterHolds(s: State, c: nat)
    requires Inv(s) && c < NCPU && s.cpus[c].ctx.After?
    ensures s.cpus[c].ctx.p < NPROC && s.locks[s.cpus[c].ctx.p] == Some(c)
  {
    hide ProcsOk, ForksOk, NoMissedChild, ParentAwake, ScanOk, Pids;
    assert HoldsLock(s, c, s.cpus[c].ctx.p);
  }

  lemma RunsInThread(s: State, c: nat)
    requires Inv(s) && c < NCPU && s.cpus[c].ctx.Runs?
    ensures InThread(s, c)
  {
    hide ProcsOk, ForksOk, NoMissedChild, ParentAwake, ScanOk, Pids;
  }

  lemma GoesOnCpu(s: State, c: nat)
    requires Inv(s) && s.wait == Some(c) && InThread(s, c)
    ensures Needs(s, c).OfProc? && Needs(s, c).x < NPROC && s.locks[Needs(s, c).x].Some? ==>
              s.locks[Needs(s, c).x].v < NCPU
  {
    hide ProcsOk, ForksOk, NoMissedChild, ParentAwake, ScanOk, Pids;
  }
}
