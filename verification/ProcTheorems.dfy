/** What holds in every run of the process machine. */
module ProcTheorems {
  import opened Proc
  import opened ProcInvariant
  import opened ProcProofs
  import opened ProcSched

  /** Every step of every CPU keeps the invariant. */
  lemma StepKeeps(s: State, step: Step)
    requires Inv(s) && Enabled(s, step)
    ensures Inv(Apply(s, step))
  {
    hide Inv, Enabled;
    match step {
      case Dispatch(c, p) => DispatchKeeps(s, c, p);
      case Release(c) => ReleaseKeeps(s, c);
      case SwitchOut(c) => SwitchOutKeeps(s, c);
      case Resume(c) => ResumeKeeps(s, c);
      case YieldUp(c) => YieldKeeps(s, c);
      case SleepOn(c, k) => SleepOnKeeps(s, c, k);
      case WakeOther(c, q) => WakeOtherKeeps(s, c, q);
      case Kill(c, q) => KillKeeps(s, c, q);
      case ForkAlloc(c, np) => ForkAllocKeeps(s, c, np);
      case ForkFail(c) => ForkFailKeeps(s, c);
      case ForkRelease(c) => ForkReleaseKeeps(s, c);
      case ForkAdopt(c) => ForkAdoptKeeps(s, c);
      case ForkStart(c) => ForkStartKeeps(s, c);
      case ExitBegin(c) => ExitBeginKeeps(s, c);
      case ReparentStep(c) => ReparentKeeps(s, c);
      case WakeStep(c) => WakeStepKeeps(s, c);
      case WakeParentStep(c) => WakeParentKeeps(s, c);
      case BecomeZombie(c) => ZombieKeeps(s, c);
      case ExitUnlock(c) => ExitUnlockKeeps(s, c);
      case WaitBegin(c) => WaitBeginKeeps(s, c);
      case ScanStep(c, copyFails) => ScanKeeps(s, c, copyFails);
      case SleepLock(c) => SleepLockKeeps(s, c);
      case Doze(c) => DozeKeeps(s, c);
    }
  }

  lemma InitialInv(s: State)
    requires Initial(s)
    ensures Inv(s)
  {
    forall c, p | 0 <= c < NCPU && 0 <= p < NPROC
      ensures s.locks[p] == Some(c) <==> HoldsLock(s, c, p)
    {
    }
    assert forall p :: 0 <= p < NPROC ==> ProcOk(s, p);
  }

  /** A run: one state after the other, by enabled steps. */
  ghost predicate Runs(ss: seq<State>, steps: seq<Step>) {
    && |ss| == |steps| + 1 && Initial(ss[0])
    && forall i :: 0 <= i < |steps| ==> Stepped(ss[i], steps[i], ss[i + 1])
  }

  ghost predicate Stepped(s: State, step: Step, s': State) {
    Shape(s) && Enabled(s, step) && s' == Apply(s, step)
  }

  lemma {:induction false} RunKeeps(ss: seq<State>, steps: seq<Step>, n: nat)
    requires Runs(ss, steps) && n <= |steps|
    ensures Inv(ss[n])
  {
    if n == 0 {
      InitialInv(ss[0]);
    } else {
      hide Inv, Apply, Enabled;
      RunKeeps(ss, steps, n - 1);
      assert Stepped(ss[n - 1], steps[n - 1], ss[n]);
      StepKeeps(ss[n - 1], steps[n - 1]);
    }
  }

  /** Wait and exit: while wait_lock is free, no process asleep in kwait has a zombie child; a child
      that was handed to init counts as init's. */
  lemma NoMissedZombie(ss: seq<State>, steps: seq<Step>, n: nat, p: nat, q: nat)
    requires Runs(ss, steps) && n <= |steps| && ss[n].wait.None? && p < NPROC && q < NPROC
    ensures Shape(ss[n])
    ensures var s := ss[n];
            s.procs[p].state == SLEEPING && s.procs[p].chan == OnProc(p) && s.procs[q].parent == Some(p) ==>
              s.procs[q].state != ZOMBIE
  {
    var s := ss[n];
    RunKeeps(ss, steps, n);
    NobodyHanding(s);
    assert NoMissedChild(s);
    hide Inv;
    assert s.procs[p].state == SLEEPING && s.procs[p].chan == OnProc(p) ==> Dozes(s.procs[p]);
    assert ZombieOf(s.procs[q], p) <==> s.procs[q].state == ZOMBIE && s.procs[q].parent == Some(p);
  }

  lemma NobodyHanding(s: State)
    requires Inv(s) && s.wait.None?
    ensures !Handing(s)
  {
    forall c | 0 <= c < NCPU && InThread(s, c)
      ensures !MyPc(s, c).ReparentWake?
    {
      assert s.wait == Some(c) <==> HoldsWait(s, c);
    }
  }

  /** Each exited process is reaped at most once, and only after it has exited. */
  lemma ReapedOnce(ss: seq<State>, steps: seq<Step>, n: nat)
    requires Runs(ss, steps) && n <= |steps|
    ensures forall j, k :: 0 <= j < k < |ss[n].reaped| ==> ss[n].reaped[j] != ss[n].reaped[k]
    ensures forall k :: 0 <= k < |ss[n].reaped| ==> ss[n].reaped[k] in ss[n].exited
  {
    RunKeeps(ss, steps, n);
  }

  /** Scheduler hand-off: while p->lock is free, p is RUNNING exactly when some CPU has it as its
      process, and then exactly one has. */
  lemma HandOff(ss: seq<State>, steps: seq<Step>, n: nat, p: nat)
    requires Runs(ss, steps) && n <= |steps| && p < NPROC && Shape(ss[n]) && ss[n].locks[p].None?
    ensures ss[n].procs[p].state == RUNNING <==> exists c :: 0 <= c < NCPU && ss[n].cpus[c].proc == Some(p)
    ensures forall c, d ::
              0 <= c < NCPU && 0 <= d < NCPU && ss[n].cpus[c].proc == Some(p) && ss[n].cpus[d].proc == Some(p) ==>
                c == d
  {
    var s := ss[n];
    RunKeeps(ss, steps, n);
    FreeUnlocked(s, p);
    hide ForksOk, NoMissedChild, ParentAwake, ScanOk, Pids, ProcsOk;
    forall c | 0 <= c < NCPU
      ensures s.cpus[c].proc == Some(p) <==> s.cpus[c].ctx == Proc.Runs(p)
    {
      assert s.locks[p] == Some(c) <==> HoldsLock(s, c, p);
    }
    if c :| 0 <= c < NCPU && s.cpus[c].proc == Some(p) {
      assert OnCpu(s, p);
    }
    if OnCpu(s, p) {
      var c :| 0 <= c < NCPU && s.cpus[c].ctx == Proc.Runs(p);
      assert s.cpus[c].proc == Some(p);
    }
  }

  /** The lock crosses swtch: the thread that calls sched holds its own lock and no other, is not
      RUNNING, and the scheduler that follows it holds that same lock until it lets go. */
  lemma SchedChecks(ss: seq<State>, steps: seq<Step>, n: nat, c: nat)
    requires Runs(ss, steps) && n <= |steps| && c < NCPU && Shape(ss[n])
    ensures var s := ss[n];
            InThread(s, c) && MyPc(s, c).AtSched? ==>
              && s.procs[Me(s, c)].state != RUNNING && s.wait != Some(c)
              && forall x :: 0 <= x < NPROC ==> (s.locks[x] == Some(c) <==> x == Me(s, c))
    ensures var s := ss[n];
            s.cpus[c].ctx.After? ==>
              && s.wait != Some(c)
              && forall x :: 0 <= x < NPROC ==> (s.locks[x] == Some(c) <==> x == s.cpus[c].ctx.p)
  {
    var s := ss[n];
    RunKeeps(ss, steps, n);
    if InThread(s, c) {
      ThreadOk(s, c);
    }
    hide ForksOk, NoMissedChild, ParentAwake, ScanOk, Pids, ProcsOk;
    assert s.wait == Some(c) <==> HoldsWait(s, c);
    forall x | 0 <= x < NPROC
      ensures s.locks[x] == Some(c) <==> HoldsLock(s, c, x)
    {
    }
  }

  /** kwait frees a child only when it has left its kernel stack for good: no CPU runs it, and no
      scheduler has yet to release it. "zombie exit" is unreachable for the same reason. */
  lemma ReapsOnlyGone(ss: seq<State>, steps: seq<Step>, n: nat)
    requires Runs(ss, steps) && n < |steps| && steps[n].ScanStep? && |ss[n + 1].reaped| > |ss[n].reaped|
    ensures exists i :: 0 <= i < NPROC && Gone(ss[n], i) && ss[n + 1].reaped == ss[n].reaped + [ss[n].procs[i].pid]
  {
    var s, c := ss[n], steps[n].c;
    RunKeeps(ss, steps, n);
    assert Stepped(ss[n], steps[n], ss[n + 1]);
    var i := MyPc(s, c).i;
    hide Inv;
    ZombieGone(s, i);
    assert Gone(s, i);
  }

  ghost predicate Gone(s: State, i: nat) {
    && Shape(s) && i < NPROC && s.procs[i].state == ZOMBIE && s.procs[i].pc == AtSched(Exiting)
    && forall c :: 0 <= c < NCPU ==> s.cpus[c].proc != Some(i)
  }
}
