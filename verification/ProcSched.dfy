/** The steps of fork and of the scheduler keep the invariant of the process machine. */
module ProcSched {
  import opened Proc
  import opened ProcInvariant
  import opened ProcProofs

  // ----- fork -----

  predicate ForkPc(pc: Pc, np: nat) {
    pc == User || pc == ForkHeld(np) || pc == ForkAdopting(np) || pc == ForkStarting(np)
  }

  /** One step of fork: the maker's pc, the child's slot and the child's lock. */
  function Forked(s: State, c: nat, pc: Pc, np: nat, b: Process, lk: Opt): (s': State)
    requires InThread(s, c) && np < NPROC
    ensures Shape(s')
  {
    s.(procs := s.procs[np := b][Me(s, c) := s.procs[Me(s, c)].(pc := pc)], locks := s.locks[np := lk])
  }

  /** What such a step must respect. */
  ghost predicate Forking(s: State, c: nat, pc: Pc, np: nat, b: Process, lk: Opt)
    requires InThread(s, c) && np < NPROC
  {
    && ForkPc(MyPc(s, c), np) && ForkPc(pc, np) && np != Me(s, c) && !OnCpu(s, np)
    && Parked(b) && !b.chan.OnProc? && (b.pc.Fresh? || b.pc.Nowhere?)
    && (lk == s.locks[np] || (s.locks[np] in {None, Some(c)} && lk in {None, Some(c)}))
    && (lk == Some(c) <==> pc == ForkHeld(np))
  }

  lemma ForkThread(s: State, c: nat, pc: Pc, np: nat, b: Process, lk: Opt)
    requires Core(s) && ProcsOk(s) && InThread(s, c) && np < NPROC && Forking(s, c, pc, np, b, lk)
    ensures ByThread(s, Forked(s, c, pc, np, b, lk), c)
  {
    var s', p := Forked(s, c, pc, np, b, lk), Me(s, c);
    forall d | 0 <= d < NCPU && d != c && InThread(s, d)
      ensures MyPc(s', d) == MyPc(s, d)
    {
      Alone(s, c, d);
      ThreadOnCpu(s, d);
    }
    forall x | 0 <= x < NPROC
      ensures s'.locks[x] == Some(c) <==> HoldsLock(s', c, x)
    {
      assert s.locks[x] == Some(c) <==> HoldsLock(s, c, x);
    }
    assert s.wait == Some(c) <==> HoldsWait(s, c);
  }

  lemma ForkProcs(s: State, c: nat, pc: Pc, np: nat, b: Process, lk: Opt)
    requires Core(s) && ProcsOk(s) && InThread(s, c) && np < NPROC && Forking(s, c, pc, np, b, lk)
    ensures var s' := Forked(s, c, pc, np, b, lk);
            ProcOk(s', Me(s, c)) && ProcOk(s', np) && Only(s, s', Me(s, c), np) && Calm(s, s')
  {
    var s', p := Forked(s, c, pc, np, b, lk), Me(s, c);
    assert ProcOk(s, p);
    ThreadOnCpu(s, c);
    ThreadOnCpu(s', c);
    assert OnCpu(s', np) <==> OnCpu(s, np);
    assert !Dozes(b) && b.state != ZOMBIE && !PastParent(b) && !PastParent(s'.procs[p]) && !Dozes(s'.procs[p]);
    assert s'.procs[p].state == RUNNING;
  }

  lemma ForkInv(s: State, c: nat, pc: Pc, np: nat, b: Process, lk: Opt, pid: nat)
    requires Inv(s) && InThread(s, c) && np < NPROC && Forking(s, c, pc, np, b, lk)
    requires var s' := Forked(s, c, pc, np, b, lk).(nextPid := pid); Pids(s') && ForksOk(s')
    ensures Inv(Forked(s, c, pc, np, b, lk).(nextPid := pid))
  {
    hide Calm, ProcsOk, NoMissedChild, ParentAwake, ScanOk, Pids, ForksOk, Handing, Core, ByThread, Only, Forked;
    var s1 := Forked(s, c, pc, np, b, lk);
    var s' := s1.(nextPid := pid);
    CoreShape(s);
    ForkThread(s, c, pc, np, b, lk);
    ForkProcs(s, c, pc, np, b, lk);
    RenumberThread(s, s1, c, np, pid);
    ThreadHanding(s, s', c);
    CalmWait(s, s');
    Assemble(s, s', c, np);
  }

  /** The next pid does not matter to locks and threads. */
  lemma RenumberThread(s: State, s1: State, c: nat, np: nat, pid: nat)
    requires ByThread(s, s1, c) && Only(s, s1, Me(s, c), np) && np < NPROC && Calm(s, s1)
    requires ProcOk(s1, Me(s, c)) && ProcOk(s1, np)
    ensures var s' := s1.(nextPid := pid);
            ByThread(s, s', c) && Only(s, s', Me(s, c), np) && ProcOk(s', Me(s, c)) && ProcOk(s', np) && Calm(s, s')
  {
    var s' := s1.(nextPid := pid);
    forall x | 0 <= x < NPROC
      ensures HoldsLock(s', c, x) <==> HoldsLock(s1, c, x)
    {
    }
    assert OnCpu(s', Me(s, c)) <==> OnCpu(s1, Me(s, c));
    assert OnCpu(s', np) <==> OnCpu(s1, np);
  }

  lemma ThreadHanding(s: State, s': State, c: nat)
    requires Shape(s) && ByThread(s, s', c) && !MyPc(s, c).ReparentWake?
    ensures Handing(s) ==> Handing(s')
  {
    HandingOn(s, s', c);
  }

  /** An unborn child is on no CPU. */
  lemma UnbornParked(s: State, np: nat)
    requires Inv(s) && np < NPROC && (s.procs[np].state == USED || s.procs[np].state == UNUSED)
    ensures !OnCpu(s, np) && Parked(s.procs[np]) && !s.procs[np].chan.OnProc?
  {
    assert ProcOk(s, np);
  }

  lemma ForkAllocKeeps(s: State, c: nat, np: nat)
    requires Inv(s) && Enabled(s, ForkAlloc(c, np))
    ensures Inv(Apply(s, ForkAlloc(c, np)))
  {
    hide Inv, Pids, ForksOk, OnCpu, ProcOk;
    InvParts(s);
    var p, b := Me(s, c), s.procs[np].(state := USED, pid := s.nextPid, pc := Fresh);
    ThreadOk(s, c);
    UnbornParked(s, np);
    AllocPids(s, c, np, b);
    AllocForks(s, c, np, b);
    ForkInv(s, c, ForkHeld(np), np, b, Some(c), s.nextPid + 1);
  }

  lemma AllocPids(s: State, c: nat, np: nat, b: Process)
    requires Shape(s) && Pids(s) && InThread(s, c) && np < NPROC && np != Me(s, c)
    requires b.state == USED && b.pid == s.nextPid
    ensures Pids(Forked(s, c, ForkHeld(np), np, b, Some(c)).(nextPid := s.nextPid + 1))
  {
  }

  lemma AllocForks(s: State, c: nat, np: nat, b: Process)
    requires Shape(s) && ForksOk(s) && InThread(s, c) && np < NPROC && np != Me(s, c) && s.procs[np].state == UNUSED
    requires b.state == USED && b.pc == Fresh && MyPc(s, c).User?
    requires s.procs[Me(s, c)].state == RUNNING && s.procs[np].pc.Nowhere?
    ensures ForksOk(Forked(s, c, ForkHeld(np), np, b, Some(c)).(nextPid := s.nextPid + 1))
  {
    var s', p := Forked(s, c, ForkHeld(np), np, b, Some(c)).(nextPid := s.nextPid + 1), Me(s, c);
    forall q | 0 <= q < NPROC && q != p
      ensures Child(s'.procs[q].pc) == Child(s.procs[q].pc) && Child(s.procs[q].pc) != Some(np)
      ensures Child(s.procs[q].pc).Some? ==> Unborn(s', Child(s.procs[q].pc).v)
    {
      assert Child(s.procs[q].pc).Some? ==> Unborn(s, Child(s.procs[q].pc).v);
    }
  }

  /** Later steps of fork, which end or go on with a child that has this maker alone. */
  lemma LaterForks(s: State, c: nat, pc: Pc, np: nat, b: Process, lk: Opt)
    requires Shape(s) && ForksOk(s) && InThread(s, c) && np < NPROC && np != Me(s, c) && Child(MyPc(s, c)) == Some(np)
    requires Child(s.procs[np].pc).None? && Child(b.pc).None? && s.procs[Me(s, c)].state == RUNNING
    requires Child(pc).None? || (Child(pc) == Some(np) && b.state == USED && b.pc == Fresh)
    ensures ForksOk(Forked(s, c, pc, np, b, lk))
  {
    var s', p := Forked(s, c, pc, np, b, lk), Me(s, c);
    forall q | 0 <= q < NPROC && q != p
      ensures Child(s'.procs[q].pc) == Child(s.procs[q].pc) && Child(s.procs[q].pc) != Some(np)
      ensures Child(s.procs[q].pc).Some? ==> Unborn(s', Child(s.procs[q].pc).v)
    {
      assert Child(s.procs[q].pc).Some? ==> Unborn(s, Child(s.procs[q].pc).v);
    }
  }

  lemma LaterPids(s: State, c: nat, pc: Pc, np: nat, b: Process, lk: Opt)
    requires Shape(s) && Pids(s) && InThread(s, c) && np < NPROC && np != Me(s, c) && s.procs[np].state != UNUSED
    requires b.state == UNUSED || (b.pid == s.procs[np].pid && b.state != ZOMBIE)
    ensures Pids(Forked(s, c, pc, np, b, lk))
  {
    KeepPids(s, Forked(s, c, pc, np, b, lk));
  }

  /** The maker's child and its lock. */
  lemma MakerFacts(s: State, c: nat, np: nat)
    requires Inv(s) && InThread(s, c) && MyPc(s, c) in {ForkHeld(np), ForkAdopting(np), ForkStarting(np)}
    ensures np < NPROC && np != Me(s, c) && Unborn(s, np) && s.procs[Me(s, c)].state == RUNNING
    ensures s.locks[np] == Some(c) <==> MyPc(s, c) == ForkHeld(np)
  {
    ThreadOk(s, c);
    assert Unborn(s, np);
    assert s.locks[np] == Some(c) <==> HoldsLock(s, c, np);
  }

  lemma LaterKeeps(s: State, c: nat, pc: Pc, np: nat, b: Process, lk: Opt)
    requires Inv(s) && InThread(s, c) && MyPc(s, c) in {ForkHeld(np), ForkAdopting(np), ForkStarting(np)} && np < NPROC
    requires Forking(s, c, pc, np, b, lk) && (b.state == UNUSED || (b.pid == s.procs[np].pid && b.state != ZOMBIE))
    requires Child(pc).None? || (Child(pc) == Some(np) && b.state == USED && b.pc == Fresh)
    ensures Inv(Forked(s, c, pc, np, b, lk))
  {
    MakerFacts(s, c, np);
    hide Inv, OnCpu, ProcOk;
    InvParts(s);
    LaterForks(s, c, pc, np, b, lk);
    LaterPids(s, c, pc, np, b, lk);
    hide Pids, ForksOk, Forked;
    var s' := Forked(s, c, pc, np, b, lk);
    assert s'.(nextPid := s'.nextPid) == s';
    ForkInv(s, c, pc, np, b, lk, s'.nextPid);
  }

  lemma InvParts(s: State)
    requires Inv(s)
    ensures Shape(s) && ForksOk(s) && Pids(s)
  {
  }

  lemma ForkFailKeeps(s: State, c: nat)
    requires Inv(s) && Enabled(s, ForkFail(c))
    ensures Inv(Apply(s, ForkFail(c)))
  {
    hide Inv;
    var np := MyPc(s, c).np;
    MakerFacts(s, c, np);
    UnbornParked(s, np);
    LaterKeeps(s, c, User, np, FREED, None);
  }

  lemma ForkReleaseKeeps(s: State, c: nat)
    requires Inv(s) && Enabled(s, ForkRelease(c))
    ensures Inv(Apply(s, ForkRelease(c)))
  {
    hide Inv;
    var np := MyPc(s, c).np;
    MakerFacts(s, c, np);
    UnbornParked(s, np);
    LaterKeeps(s, c, ForkAdopting(np), np, s.procs[np], None);
    assert s.procs[np := s.procs[np]] == s.procs;
  }

  lemma ForkAdoptKeeps(s: State, c: nat)
    requires Inv(s) && Enabled(s, ForkAdopt(c))
    ensures Inv(Apply(s, ForkAdopt(c)))
  {
    hide Inv;
    var np := MyPc(s, c).np;
    MakerFacts(s, c, np);
    UnbornParked(s, np);
    LaterKeeps(s, c, ForkStarting(np), np, s.procs[np].(parent := Some(Me(s, c))), s.locks[np]);
    assert s.locks[np := s.locks[np]] == s.locks;
  }

  lemma ForkStartKeeps(s: State, c: nat)
    requires Inv(s) && Enabled(s, ForkStart(c))
    ensures Inv(Apply(s, ForkStart(c)))
  {
    hide Inv;
    var np := MyPc(s, c).np;
    MakerFacts(s, c, np);
    UnbornParked(s, np);
    LaterKeeps(s, c, User, np, s.procs[np].(state := RUNNABLE), s.locks[np]);
    assert s.locks[np := s.locks[np]] == s.locks;
  }

  // ----- the scheduler and swtch -----

  function Switched(s: State, c: nat, cpu: Cpu): (s': State)
    requires Shape(s) && c < NCPU
    ensures Shape(s')
  {
    s.(cpus := s.cpus[c := cpu])
  }

  lemma SwitchOutCore(s: State, c: nat)
    requires Core(s) && InThread(s, c) && MyPc(s, c).AtSched?
    ensures Core(Switched(s, c, s.cpus[c].(ctx := After(Me(s, c)))))
  {
    var s' := Switched(s, c, s.cpus[c].(ctx := After(Me(s, c))));
    forall d, x | 0 <= d < NCPU && 0 <= x < NPROC
      ensures s'.locks[x] == Some(d) <==> HoldsLock(s', d, x)
    {
      assert s.locks[x] == Some(d) <==> HoldsLock(s, d, x);
      assert HoldsLock(s', d, x) <==> HoldsLock(s, d, x);
    }
    forall d | 0 <= d < NCPU
      ensures s'.wait == Some(d) <==> HoldsWait(s', d)
    {
      assert s.wait == Some(d) <==> HoldsWait(s, d);
    }
  }

  lemma SwitchOutProcs(s: State, c: nat)
    requires Core(s) && ProcsOk(s) && InThread(s, c) && MyPc(s, c).AtSched?
    ensures ProcsOk(Switched(s, c, s.cpus[c].(ctx := After(Me(s, c)))))
  {
    var s', p := Switched(s, c, s.cpus[c].(ctx := After(Me(s, c)))), Me(s, c);
    ThreadOnCpu(s, c);
    forall x | 0 <= x < NPROC
      ensures ProcOk(s', x)
    {
      assert ProcOk(s, x);
      if x != p {
        SameOnCpu(s, s', c, x);
      } else {
        assert forall d :: 0 <= d < NCPU && d != c ==> s.cpus[d].ctx != Runs(p);
      }
    }
  }

  lemma SameOnCpu(s: State, s': State, c: nat, x: nat)
    requires Shape(s) && Shape(s') && c < NCPU && s.cpus[c].ctx != Runs(x) && s'.cpus[c].ctx != Runs(x)
    requires forall d :: 0 <= d < NCPU && d != c ==> s'.cpus[d] == s.cpus[d]
    ensures OnCpu(s, x) <==> OnCpu(s', x)
  {
    if OnCpu(s, x) {
      var d :| 0 <= d < NCPU && s.cpus[d].ctx == Runs(x);
      assert s'.cpus[d].ctx == Runs(x);
    }
    if OnCpu(s', x) {
      var d :| 0 <= d < NCPU && s'.cpus[d].ctx == Runs(x);
      assert s.cpus[d].ctx == Runs(x);
    }
  }

  lemma CpuHanding(s: State, s': State, c: nat)
    requires Shape(s) && Shape(s') && c < NCPU && !(InThread(s, c) && MyPc(s, c).ReparentWake?)
    requires forall d :: 0 <= d < NCPU && d != c ==> s'.cpus[d] == s.cpus[d]
    requires forall d :: 0 <= d < NCPU && d != c && InThread(s, d) ==> s'.procs[Me(s, d)].pc == MyPc(s, d)
    ensures Handing(s) ==> Handing(s')
  {
    if Handing(s) {
      var d :| 0 <= d < NCPU && InThread(s, d) && MyPc(s, d).ReparentWake? && MyPc(s, d).j <= INIT;
      assert InThread(s', d) && MyPc(s', d) == MyPc(s, d);
    }
  }

  lemma SameProcsRest(s: State, s': State)
    requires Shape(s) && Shape(s') && s'.procs == s.procs && s'.nextPid == s.nextPid
    requires s'.reaped == s.reaped && s'.exited == s.exited
    requires ForksOk(s) && Pids(s) && NoMissedChild(s) && ParentAwake(s) && ScanOk(s) && (Handing(s) ==> Handing(s'))
    ensures ForksOk(s') && Pids(s') && NoMissedChild(s') && ParentAwake(s') && ScanOk(s')
  {
    hide Handing, Dozes, PastParent, Looked;
    CalmWait(s, s');
    assert SameForks(s, s');
    KeepForks(s, s');
    KeepPids(s, s');
  }

  /** swtch into the scheduler: the lock the thread took goes with it. */
  lemma SwitchOutKeeps(s: State, c: nat)
    requires Inv(s) && Enabled(s, SwitchOut(c))
    ensures Inv(Apply(s, SwitchOut(c)))
  {
    hide ProcsOk, NoMissedChild, ParentAwake, ScanOk, Pids, ForksOk, Handing, Core;
    var s' := Switched(s, c, s.cpus[c].(ctx := After(Me(s, c))));
    CoreShape(s);
    SwitchOutCore(s, c);
    SwitchOutProcs(s, c);
    CpuHanding(s, s', c);
    SameProcsRest(s, s');
  }

  function Released(s: State, c: nat, p: nat): (s': State)
    requires Shape(s) && c < NCPU && p < NPROC
    ensures Shape(s')
  {
    Unlock(s, p).(cpus := s.cpus[c := Cpu(None, Scheduler)])
  }

  lemma ReleaseCore(s: State, c: nat, p: nat)
    requires Core(s) && c < NCPU && s.cpus[c].ctx == After(p) && p < NPROC
    ensures Core(Released(s, c, p))
  {
    var s' := Released(s, c, p);
    assert s.locks[p] == Some(c) <==> HoldsLock(s, c, p);
    forall d, x | 0 <= d < NCPU && 0 <= x < NPROC
      ensures s'.locks[x] == Some(d) <==> HoldsLock(s', d, x)
    {
      assert s.locks[x] == Some(d) <==> HoldsLock(s, d, x);
      assert d != c ==> (HoldsLock(s', d, x) <==> HoldsLock(s, d, x));
    }
    forall d | 0 <= d < NCPU
      ensures s'.wait == Some(d) <==> HoldsWait(s', d)
    {
      assert s.wait == Some(d) <==> HoldsWait(s, d);
    }
  }

  lemma ReleaseProcs(s: State, c: nat, p: nat)
    requires Shape(s) && ProcsOk(s) && c < NCPU && s.cpus[c].ctx == After(p) && p < NPROC
    ensures ProcsOk(Released(s, c, p))
  {
    forall x | 0 <= x < NPROC
      ensures ProcOk(Released(s, c, p), x)
    {
      assert ProcOk(s, x);
      SameOnCpu(s, Released(s, c, p), c, x);
    }
  }

  /** The scheduler releases the lock that the process took before swtch. */
  lemma ReleaseKeeps(s: State, c: nat)
    requires Inv(s) && Enabled(s, Release(c))
    ensures Inv(Apply(s, Release(c)))
  {
    hide ProcsOk, NoMissedChild, ParentAwake, ScanOk, Pids, ForksOk, Handing, Core;
    CoreShape(s);
    var p := s.cpus[c].ctx.p;
    ReleaseCore(s, c, p);
    ReleaseProcs(s, c, p);
    CpuHanding(s, Released(s, c, p), c);
    SameProcsRest(s, Released(s, c, p));
  }

  /** A runnable process whose lock is free is nowhere on a CPU. */
  lemma RunnableParked(s: State, p: nat)
    requires Inv(s) && p < NPROC && Free(s, p) && s.procs[p].state == RUNNABLE
    ensures !OnCpu(s, p) && Parked(s.procs[p]) && ProcOk(s, p)
    ensures forall d :: 0 <= d < NCPU ==> s.cpus[d].proc != Some(p)
  {
    FreeUnlocked(s, p);
    hide ForksOk, NoMissedChild, ParentAwake, ScanOk, Pids, ProcsOk;
    forall d | 0 <= d < NCPU
      ensures s.cpus[d].proc != Some(p)
    {
      assert s.locks[p] == Some(d) <==> HoldsLock(s, d, p);
    }
  }

  function Dispatched(s: State, c: nat, p: nat): (s': State)
    requires Shape(s) && c < NCPU && p < NPROC
    ensures Shape(s')
  {
    var s1 := SetProc(Lock(s, p, c), p, s.procs[p].(state := RUNNING, pc := ResumedPc(s.procs[p].pc)));
    s1.(cpus := s.cpus[c := Cpu(Some(p), Runs(p))])
  }

  lemma DispatchCore(s: State, c: nat, p: nat)
    requires Core(s) && c < NCPU && s.cpus[c].ctx.Scheduler? && p < NPROC && Free(s, p)
    requires (forall d :: 0 <= d < NCPU ==> s.cpus[d].proc != Some(p))
    requires (s.procs[p].pc.Fresh? || s.procs[p].pc.AtSched?)
    ensures Core(Dispatched(s, c, p))
  {
    var s' := Dispatched(s, c, p);
    forall d, x | 0 <= d < NCPU && 0 <= x < NPROC
      ensures s'.locks[x] == Some(d) <==> HoldsLock(s', d, x)
    {
      assert s.locks[x] == Some(d) <==> HoldsLock(s, d, x);
      assert d != c ==> (HoldsLock(s', d, x) <==> HoldsLock(s, d, x));
    }
    forall d | 0 <= d < NCPU
      ensures s'.wait == Some(d) <==> HoldsWait(s', d)
    {
      assert s.wait == Some(d) <==> HoldsWait(s, d);
      assert InThread(s, d) ==> Me(s, d) != p;
    }
  }

  lemma DispatchProcs(s: State, c: nat, p: nat)
    requires Shape(s) && ProcsOk(s) && c < NCPU && s.cpus[c].ctx.Scheduler? && p < NPROC && s.procs[p].state == RUNNABLE
    requires !OnCpu(s, p) && Parked(s.procs[p])
    ensures ProcsOk(Dispatched(s, c, p))
  {
    var s' := Dispatched(s, c, p);
    forall x | 0 <= x < NPROC
      ensures ProcOk(s', x)
    {
      assert ProcOk(s, x);
      if x != p {
        SameOnCpu(s, s', c, x);
      } else {
        ThreadOnCpu(s', c);
      }
    }
  }

  lemma DispatchCalm(s: State, c: nat, p: nat)
    requires Shape(s) && ForksOk(s) && c < NCPU && p < NPROC && s.procs[p].state == RUNNABLE && Parked(s.procs[p])
    ensures var s' := Dispatched(s, c, p); Calm(s, s') && SamePids(s, s') && SameForks(s, s')
  {
    var s' := Dispatched(s, c, p);
    forall q | 0 <= q < NPROC && Child(s'.procs[q].pc).Some?
      ensures Child(s'.procs[q].pc) == Child(s.procs[q].pc)
      ensures Unborn(s, Child(s.procs[q].pc).v) ==> Unborn(s', Child(s.procs[q].pc).v)
    {
      assert q == p ==> s.procs[p].pc.AtSched?;
    }
  }

  lemma DispatchKeeps(s: State, c: nat, p: nat)
    requires Inv(s) && Enabled(s, Dispatch(c, p))
    ensures Inv(Apply(s, Dispatch(c, p)))
  {
    RunnableParked(s, p);
    hide ProcsOk, NoMissedChild, ParentAwake, ScanOk, Pids, ForksOk, Handing, Calm, SamePids, SameForks, OnCpu;
    var s' := Dispatched(s, c, p);
    CoreShape(s);
    DispatchCore(s, c, p);
    DispatchProcs(s, c, p);
    DispatchCalm(s, c, p);
    forall d | 0 <= d < NCPU && d != c && InThread(s, d)
      ensures s'.procs[Me(s, d)].pc == MyPc(s, d)
    {
      assert Me(s, d) != p;
    }
    CpuHanding(s, s', c);
    CalmWait(s, s');
    KeepPids(s, s');
    KeepForks(s, s');
  }
}
