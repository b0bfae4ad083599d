/** Every step keeps the invariant of the process machine. */
module ProcProofs {
  import opened Proc
  import opened ProcInvariant

  // ----- steps of a thread leave the CPUs alone -----

  /** Between s and s' only the locks and pcs that CPU c's thread accounts for have changed. */
  ghost predicate ByThread(s: State, s': State, c: nat) {
    && InThread(s, c) && Shape(s') && s'.cpus == s.cpus
    && (forall d :: 0 <= d < NCPU && d != c && InThread(s, d) ==> MyPc(s', d) == MyPc(s, d))
    && (forall x :: 0 <= x < NPROC ==> (s'.locks[x] == Some(c) <==> HoldsLock(s', c, x)))
    && (forall x :: 0 <= x < NPROC && s'.locks[x] != s.locks[x] ==>
          s.locks[x] in {None, Some(c)} && s'.locks[x] in {None, Some(c)})
    && (s'.wait == Some(c) <==> HoldsWait(s', c))
    && (s'.wait != s.wait ==> s.wait in {None, Some(c)} && s'.wait in {None, Some(c)})
  }

  lemma ThreadCore(s: State, s': State, c: nat)
    requires Core(s) && ByThread(s, s', c)
    ensures Core(s')
  {
    forall d, x | 0 <= d < NCPU && 0 <= x < NPROC
      ensures s'.locks[x] == Some(d) <==> HoldsLock(s', d, x)
    {
      assert s.locks[x] == Some(d) <==> HoldsLock(s, d, x);
      if d != c {
        assert HoldsLock(s', d, x) <==> HoldsLock(s, d, x);
      }
    }
    forall d | 0 <= d < NCPU
      ensures s'.wait == Some(d) <==> HoldsWait(s', d)
    {
      assert s.wait == Some(d) <==> HoldsWait(s, d);
    }
  }

  /** The thread on a CPU is on no other. */
  lemma Alone(s: State, c: nat, d: nat)
    requires Core(s) && InThread(s, c) && InThread(s, d) && c != d
    ensures Me(s, c) != Me(s, d)
  {
  }

  lemma ThreadOnCpu(s: State, c: nat)
    requires InThread(s, c)
    ensures OnCpu(s, Me(s, c))
  {
  }

  /** Two CPUs never both hold wait_lock. */
  lemma OneWaiter(s: State, p: nat, q: nat)
    requires Core(s) && ProcsOk(s) && p < NPROC && q < NPROC
    requires WaitLocked(s.procs[p].pc) && WaitLocked(s.procs[q].pc)
    ensures p == q
  {
    assert ProcOk(s, p) && ProcOk(s, q);
    var c :| 0 <= c < NCPU && s.cpus[c].ctx == Runs(p);
    var d :| 0 <= d < NCPU && s.cpus[d].ctx == Runs(q);
    assert HoldsWait(s, c) && HoldsWait(s, d);
    assert s.wait == Some(c) && s.wait == Some(d);
  }

  // ----- steps that do not matter to wait and exit -----

  ghost predicate Calm(s: State, s': State)
    requires Shape(s) && Shape(s')
  {
    && (forall x :: 0 <= x < NPROC && Dozes(s'.procs[x]) ==> Dozes(s.procs[x]))
    && (forall x, y :: 0 <= x < NPROC && 0 <= y < NPROC && ZombieOf(s'.procs[x], y) ==> ZombieOf(s.procs[x], y))
    && (forall e :: 0 <= e < NPROC && PastParent(s'.procs[e]) ==>
          PastParent(s.procs[e]) && s'.procs[e].parent == s.procs[e].parent)
    && (forall x, y :: 0 <= x < NPROC && 0 <= y < NPROC && Looked(s'.procs[x].pc, y) ==> Looked(s.procs[x].pc, y))
  }

  lemma CalmWait(s: State, s': State)
    requires Shape(s) && Shape(s') && Calm(s, s') && (Handing(s) ==> Handing(s'))
    requires NoMissedChild(s) && ParentAwake(s) && ScanOk(s)
    ensures NoMissedChild(s') && ParentAwake(s') && ScanOk(s')
  {
    hide Handing, Dozes, PastParent, Looked;
  }

  /** Handing over goes on while other threads act. */
  lemma HandingOn(s: State, s': State, c: nat)
    requires Shape(s) && Shape(s') && InThread(s, c) && s'.cpus == s.cpus && !MyPc(s, c).ReparentWake?
    requires forall d :: 0 <= d < NCPU && d != c && InThread(s, d) ==> MyPc(s', d) == MyPc(s, d)
    ensures Handing(s) ==> Handing(s')
  {
    if Handing(s) {
      var d :| 0 <= d < NCPU && InThread(s, d) && MyPc(s, d).ReparentWake? && MyPc(s, d).j <= INIT;
      assert InThread(s', d) && MyPc(s', d) == MyPc(s, d);
    }
  }

  // ----- process identifiers -----

  ghost predicate SamePids(s: State, s': State)
    requires Shape(s) && Shape(s')
  {
    && s'.nextPid == s.nextPid && s'.reaped == s.reaped && s.exited <= s'.exited
    && (forall x :: 0 <= x < NPROC && s'.procs[x].state != UNUSED ==>
          s.procs[x].state != UNUSED && s'.procs[x].pid == s.procs[x].pid)
    && (forall x :: 0 <= x < NPROC && s'.procs[x].state == ZOMBIE ==>
          s.procs[x].state == ZOMBIE || s'.procs[x].pid in s'.exited)
  }

  lemma KeepPids(s: State, s': State)
    requires Shape(s) && Shape(s') && Pids(s) && SamePids(s, s')
    ensures Pids(s')
  {
  }

  // ----- makers and their children -----

  ghost predicate SameForks(s: State, s': State)
    requires Shape(s) && Shape(s')
  {
    forall q :: 0 <= q < NPROC && Child(s'.procs[q].pc).Some? ==>
      Child(s'.procs[q].pc) == Child(s.procs[q].pc) && (Unborn(s, Child(s.procs[q].pc).v) ==>
        Unborn(s', Child(s.procs[q].pc).v))
  }

  lemma KeepForks(s: State, s': State)
    requires Shape(s) && Shape(s') && ForksOk(s) && SameForks(s, s')
    ensures ForksOk(s')
  {
    hide Unborn, Child;
  }

  /** All but slots p and q are the same, and the CPUs are. */
  ghost predicate Only(s: State, s': State, p: nat, q: nat) {
    Shape(s) && Shape(s') && s'.cpus == s.cpus && forall x :: 0 <= x < NPROC && x != p && x != q ==>
      s'.procs[x] == s.procs[x]
  }

  lemma KeepProcs(s: State, s': State, p: nat, q: nat)
    requires ProcsOk'(s) && Only(s, s', p, q) && p < NPROC && q < NPROC && ProcOk(s', p) && ProcOk(s', q)
    ensures ProcsOk(s')
  {
    forall x | 0 <= x < NPROC
      ensures ProcOk(s', x)
    {
      assert x != p && x != q ==> ProcOk(s, x) && (OnCpu(s', x) <==> OnCpu(s, x));
    }
  }

  ghost predicate ProcsOk'(s: State) {
    Shape(s) && ProcsOk(s)
  }

  /** Assembling the invariant after a step of CPU c's thread. */
  lemma Assemble(s: State, s': State, c: nat, q: nat)
    requires Inv(s) && ByThread(s, s', c) && q < NPROC && Only(s, s', Me(s, c), q)
    requires ProcOk(s', Me(s, c)) && ProcOk(s', q) && Pids(s') && ForksOk(s')
    requires NoMissedChild(s') && ParentAwake(s') && ScanOk(s')
    ensures Inv(s')
  {
    hide ProcsOk, NoMissedChild, ParentAwake, ScanOk, Pids, ForksOk, ProcOk, Core;
    ThreadCore(s, s', c);
    KeepProcs(s, s', Me(s, c), q);
  }

  /** The same for a step that matters to nobody in wait or exit. */
  lemma ThreadInv(s: State, s': State, c: nat, q: nat)
    requires Inv(s) && ByThread(s, s', c) && q < NPROC && Only(s, s', Me(s, c), q)
    requires ProcOk(s', Me(s, c)) && ProcOk(s', q)
    requires Calm(s, s') && !MyPc(s, c).ReparentWake? && SamePids(s, s') && SameForks(s, s')
    ensures Inv(s')
  {
    hide Calm, SamePids, SameForks, ProcsOk, NoMissedChild, ParentAwake, ScanOk, Pids, ForksOk, Handing, ProcOk, Core;
    HandingOn(s, s', c);
    CoreShape(s);
    CalmWait(s, s');
    KeepPids(s, s');
    KeepForks(s, s');
    Assemble(s, s', c, q);
  }

  lemma CoreShape(s: State)
    requires Core(s)
    ensures Shape(s)
  {
  }

  // ----- steps that change nothing but the thread's own slot and locks -----

  /** Slot p of the thread on CPU c becomes v, and the locks follow its pc. */
  function Local(s: State, c: nat, v: Process): (s': State)
    requires InThread(s, c)
    ensures Shape(s')
  {
    var p := Me(s, c);
    var u := s.procs[p];
    s.(procs := s.procs[p := v],
       locks := if OwnLocked(v.pc) then s.locks[p := Some(c)] else if OwnLocked(u.pc) then s.locks[p := None]
         else s.locks,
       wait := if WaitLocked(v.pc) then Some(c) else if WaitLocked(u.pc) then None else s.wait)
  }

  /** The thread may go from u to v: it takes only free locks, and v is a sound running process. */
  predicate Moves(s: State, c: nat, v: Process)
    requires InThread(s, c)
  {
    var p := Me(s, c);
    var u := s.procs[p];
    && Child(v.pc) == Child(u.pc) && !u.pc.ForkHeld? && !v.pc.ForkHeld?
    && (OwnLocked(v.pc) && !OwnLocked(u.pc) ==> s.locks[p].None?)
    && (WaitLocked(v.pc) && !WaitLocked(u.pc) ==> s.wait.None?)
    && v.state == RunState(v.pc) && !v.pc.Nowhere? && v.pc != Resumed(Exiting)
    && (v.chan.OnProc? <==> InSleep(v.pc)) && (v.chan.OnProc? ==> v.chan.q == p)
    && (ExitPc(v.pc) ==> p != INIT)
    && v.pid == u.pid && v.parent == u.parent
  }

  lemma LocalThread(s: State, c: nat, v: Process)
    requires Core(s) && InThread(s, c) && Moves(s, c, v)
    ensures ByThread(s, Local(s, c, v), c)
  {
    var s', p := Local(s, c, v), Me(s, c);
    forall d | 0 <= d < NCPU && d != c && InThread(s, d)
      ensures MyPc(s', d) == MyPc(s, d)
    {
      Alone(s, c, d);
    }
    forall x | 0 <= x < NPROC
      ensures s'.locks[x] == Some(c) <==> HoldsLock(s', c, x)
    {
      assert s.locks[x] == Some(c) <==> HoldsLock(s, c, x);
    }
    assert s.wait == Some(c) <==> HoldsWait(s, c);
    assert s.locks[p] == Some(c) <==> HoldsLock(s, c, p);
  }

  lemma LocalProc(s: State, c: nat, v: Process)
    requires Core(s) && ProcsOk(s) && InThread(s, c) && Moves(s, c, v)
    ensures ProcOk(Local(s, c, v), Me(s, c)) && Only(s, Local(s, c, v), Me(s, c), Me(s, c))
  {
    ThreadOnCpu(Local(s, c, v), c);
  }

  lemma LocalForks(s: State, c: nat, v: Process)
    requires Core(s) && ProcsOk(s) && ForksOk(s) && InThread(s, c) && Moves(s, c, v)
    ensures SameForks(s, Local(s, c, v))
  {
    var s', p := Local(s, c, v), Me(s, c);
    assert ProcOk(s, p);
    ThreadOnCpu(s, c);
    forall q | 0 <= q < NPROC && Child(s'.procs[q].pc).Some?
      ensures Child(s'.procs[q].pc) == Child(s.procs[q].pc)
      ensures Unborn(s, Child(s.procs[q].pc).v) ==> Unborn(s', Child(s.procs[q].pc).v)
    {
      assert s.procs[p].state != USED;
    }
  }

  /** A move that matters to nobody in wait or exit. */
  predicate Mild(u: Process, v: Process) {
    && (Dozes(v) ==> Dozes(u)) && (v.state == ZOMBIE ==> u.state == ZOMBIE) && !PastParent(v)
    && !(v.pc.WaitScan? && v.pc.i > 0) && !v.pc.WaitSleep? && !u.pc.ReparentWake? && u.state != UNUSED
  }

  lemma LocalCalm(s: State, c: nat, v: Process)
    requires Core(s) && InThread(s, c) && Moves(s, c, v) && Mild(s.procs[Me(s, c)], v)
    ensures Calm(s, Local(s, c, v)) && SamePids(s, Local(s, c, v))
  {
    hide Core, Dozes, PastParent, InSleep, ExitPc, RunState;
    var s', p := Local(s, c, v), Me(s, c);
    forall x, y | 0 <= x < NPROC && 0 <= y < NPROC && ZombieOf(s'.procs[x], y)
      ensures ZombieOf(s.procs[x], y)
    {
      assert x == p ==> s.procs[p].parent == v.parent;
    }
    forall x, y | 0 <= x < NPROC && 0 <= y < NPROC && Looked(s'.procs[x].pc, y)
      ensures Looked(s.procs[x].pc, y)
    {
      assert x != p;
    }
  }

  lemma LocalInv(s: State, c: nat, v: Process)
    requires Inv(s) && InThread(s, c) && Moves(s, c, v) && Mild(s.procs[Me(s, c)], v)
    ensures Inv(Local(s, c, v))
  {
    hide Calm, SamePids, SameForks, ProcsOk, NoMissedChild, ParentAwake, ScanOk, Pids, ForksOk, ProcOk, Core, ByThread,
         Local, Only;
    LocalThread(s, c, v);
    LocalProc(s, c, v);
    LocalForks(s, c, v);
    LocalCalm(s, c, v);
    ThreadInv(s, Local(s, c, v), c, Me(s, c));
  }

  /** A running process is in use, and its state fits its pc. */
  lemma ThreadOk(s: State, c: nat)
    requires Inv(s) && InThread(s, c)
    ensures ProcOk(s, Me(s, c)) && OnCpu(s, Me(s, c)) && s.procs[Me(s, c)].state == RunState(MyPc(s, c)) != UNUSED
  {
    ThreadOnCpu(s, c);
    assert ProcOk(s, Me(s, c));
  }

  lemma ThreadLocks(s: State, c: nat)
    requires Inv(s) && InThread(s, c)
    ensures OwnLocked(MyPc(s, c)) ==> s.locks[Me(s, c)] == Some(c) && s.locks[Me(s, c) := Some(c)] == s.locks
    ensures WaitLocked(MyPc(s, c)) ==> s.wait == Some(c)
  {
    hide ProcsOk, ForksOk, NoMissedChild, ParentAwake, ScanOk, Pids;
    assert s.locks[Me(s, c)] == Some(c) <==> HoldsLock(s, c, Me(s, c));
    assert s.wait == Some(c) <==> HoldsWait(s, c);
  }

  lemma YieldKeeps(s: State, c: nat)
    requires Inv(s) && Enabled(s, YieldUp(c))
    ensures Inv(Apply(s, YieldUp(c)))
  {
    hide Inv;
    ThreadOk(s, c);
    LocalInv(s, c, s.procs[Me(s, c)].(state := RUNNABLE, pc := AtSched(Yielding(BackFrom(MyPc(s, c))))));
  }

  lemma SleepOnKeeps(s: State, c: nat, k: nat)
    requires Inv(s) && Enabled(s, SleepOn(c, k))
    ensures Inv(Apply(s, SleepOn(c, k)))
  {
    hide Inv;
    ThreadOk(s, c);
    LocalInv(s, c, s.procs[Me(s, c)].(state := SLEEPING, chan := OnOther(k), pc := AtSched(Dozing)));
  }

  lemma ResumeKeeps(s: State, c: nat)
    requires Inv(s) && Enabled(s, Resume(c))
    ensures Inv(Apply(s, Resume(c)))
  {
    hide Inv;
    ThreadOk(s, c);
    LocalInv(s, c, AfterResume(s.procs[Me(s, c)]));
  }

  lemma ExitBeginKeeps(s: State, c: nat)
    requires Inv(s) && Enabled(s, ExitBegin(c))
    ensures Inv(Apply(s, ExitBegin(c)))
  {
    hide Inv;
    ThreadOk(s, c);
    LocalInv(s, c, s.procs[Me(s, c)].(pc := Reparent(0)));
  }

  lemma ExitUnlockKeeps(s: State, c: nat)
    requires Inv(s) && Enabled(s, ExitUnlock(c))
    ensures Inv(Apply(s, ExitUnlock(c)))
  {
    hide Inv;
    ThreadOk(s, c);
    ThreadLocks(s, c);
    LocalInv(s, c, s.procs[Me(s, c)].(pc := AtSched(Exiting)));
  }

  lemma WaitBeginKeeps(s: State, c: nat)
    requires Inv(s) && Enabled(s, WaitBegin(c))
    ensures Inv(Apply(s, WaitBegin(c)))
  {
    hide Inv;
    ThreadOk(s, c);
    LocalInv(s, c, s.procs[Me(s, c)].(pc := WaitScan(0, false)));
  }

  lemma DozeKeeps(s: State, c: nat)
    requires Inv(s) && Enabled(s, Doze(c))
    ensures Inv(Apply(s, Doze(c)))
  {
    hide Inv;
    ThreadOk(s, c);
    ThreadLocks(s, c);
    LocalInv(s, c, s.procs[Me(s, c)].(state := SLEEPING, chan := OnProc(Me(s, c)), pc := AtSched(Waiting)));
  }

  // ----- local steps that do matter -----

  /** The invariant after a local step, but for what it means to wait and exit. */
  lemma LocalRest(s: State, c: nat, v: Process)
    requires Inv(s) && InThread(s, c) && Moves(s, c, v) && v.state != ZOMBIE && s.procs[Me(s, c)].state != UNUSED
    requires NoMissedChild(Local(s, c, v)) && ParentAwake(Local(s, c, v)) && ScanOk(Local(s, c, v))
    ensures Inv(Local(s, c, v))
  {
    hide SamePids, SameForks, ProcsOk, NoMissedChild, ParentAwake, ScanOk, Pids, ForksOk, ProcOk, Core, ByThread,
         Local, Only;
    LocalThread(s, c, v);
    LocalProc(s, c, v);
    LocalForks(s, c, v);
    LocalPids(s, c, v);
    CoreShape(s);
    KeepPids(s, Local(s, c, v));
    KeepForks(s, Local(s, c, v));
    Assemble(s, Local(s, c, v), c, Me(s, c));
  }

  lemma LocalPids(s: State, c: nat, v: Process)
    requires Core(s) && InThread(s, c) && Moves(s, c, v) && v.state != ZOMBIE && s.procs[Me(s, c)].state != UNUSED
    ensures SamePids(s, Local(s, c, v))
  {
  }

  /** One more slot looked at, or all of them. */
  lemma ScanAhead(s: State, c: nat, v: Process)
    requires Inv(s) && InThread(s, c) && MyPc(s, c).WaitScan? && v == s.procs[Me(s, c)].(pc := v.pc)
    requires (v.pc.WaitScan? && v.pc.i == MyPc(s, c).i + 1) || (v.pc.WaitSleep? && MyPc(s, c).i >= NPROC)
    requires MyPc(s, c).i < NPROC ==> !ZombieOf(s.procs[MyPc(s, c).i], Me(s, c))
    ensures Inv(Local(s, c, v))
  {
    ThreadOk(s, c);
    hide ProcsOk, ForksOk, Pids, ProcOk, CpusOk, LocksOk, WaitOk;
    var s', p := Local(s, c, v), Me(s, c);
    HandingOnLocal(s, c, v);
    assert NoMissedChild(s') && ParentAwake(s');
    forall x, q | 0 <= x < NPROC && 0 <= q < NPROC && Looked(s'.procs[x].pc, q)
      ensures !ZombieOf(s'.procs[q], x)
    {
      assert x == p && q != MyPc(s, c).i ==> Looked(s.procs[p].pc, q);
    }
    LocalRest(s, c, v);
  }

  lemma HandingOnLocal(s: State, c: nat, v: Process)
    requires Core(s) && InThread(s, c) && !MyPc(s, c).ReparentWake?
    ensures Handing(s) ==> Handing(Local(s, c, v))
  {
    forall d | 0 <= d < NCPU && d != c && InThread(s, d)
      ensures MyPc(Local(s, c, v), d) == MyPc(s, d)
    {
      Alone(s, c, d);
    }
    HandingOn(s, Local(s, c, v), c);
  }

  /** kwait lets go of wait_lock: it has seen that no child of its own is a zombie. */
  lemma SleepLockWaits(s: State, c: nat, v: Process)
    requires Inv(s) && InThread(s, c) && MyPc(s, c).WaitSleep? && v == s.procs[Me(s, c)].(pc := WaitDoze)
    ensures NoMissedChild(Local(s, c, v)) && ParentAwake(Local(s, c, v)) && ScanOk(Local(s, c, v))
  {
    hide ForksOk, Pids, CpusOk, LocksOk, WaitOk, Handing, ProcsOk;
    var s', p := Local(s, c, v), Me(s, c);
    HandingOnLocal(s, c, v);
    forall x, q | 0 <= x < NPROC && 0 <= q < NPROC && Dozes(s'.procs[x]) && ZombieOf(s'.procs[q], x)
      ensures x == INIT && Handing(s')
    {
      assert Looked(s.procs[p].pc, q);
    }
    forall e, x | 0 <= e < NPROC && 0 <= x < NPROC && PastParent(s'.procs[e]) && s'.procs[e].parent == Some(x)
      ensures !Dozes(s'.procs[x])
    {
      if x == p {
        OneWaiter(s, e, p);
      }
    }
  }

  lemma SleepLockKeeps(s: State, c: nat)
    requires Inv(s) && Enabled(s, SleepLock(c))
    ensures Inv(Apply(s, SleepLock(c)))
  {
    hide Inv, NoMissedChild, ParentAwake, ScanOk;
    ThreadOk(s, c);
    SleepLockWaits(s, c, s.procs[Me(s, c)].(pc := WaitDoze));
    LocalRest(s, c, s.procs[Me(s, c)].(pc := WaitDoze));
  }

  /** wakeup(p->parent) may leave slot j behind: it is the process's own, or nobody dozes there; or
      the table is at its end. */
  predicate WakePassed(s: State, c: nat, pc: Pc)
    requires InThread(s, c) && MyPc(s, c).WakeParent?
  {
    var j := MyPc(s, c).j;
    if j >= NPROC then pc.Zombify? else pc == WakeParent(j + 1) && (j == Me(s, c) || !Dozes(s.procs[j]))
  }

  lemma WakeAheadWaits(s: State, c: nat, v: Process)
    requires Inv(s) && InThread(s, c) && MyPc(s, c).WakeParent? && v == s.procs[Me(s, c)].(pc := v.pc)
    requires WakePassed(s, c, v.pc)
    ensures NoMissedChild(Local(s, c, v)) && ParentAwake(Local(s, c, v)) && ScanOk(Local(s, c, v))
  {
    ThreadOk(s, c);
    hide ForksOk, Pids, CpusOk, LocksOk, WaitOk, Handing, ProcsOk;
    var s', p := Local(s, c, v), Me(s, c);
    HandingOnLocal(s, c, v);
    assert !Dozes(s.procs[p]) && !Dozes(v);
    forall e, x | 0 <= e < NPROC && 0 <= x < NPROC && PastParent(s'.procs[e]) && s'.procs[e].parent == Some(x)
      ensures !Dozes(s'.procs[x])
    {
      assert x != p && e == p && !PastParent(s.procs[e]) ==> x == MyPc(s, c).j;
    }
  }

  lemma WakeAhead(s: State, c: nat, v: Process)
    requires Inv(s) && InThread(s, c) && MyPc(s, c).WakeParent? && v == s.procs[Me(s, c)].(pc := v.pc)
    requires WakePassed(s, c, v.pc)
    ensures Inv(Local(s, c, v))
  {
    hide Inv, NoMissedChild, ParentAwake, ScanOk;
    ThreadOk(s, c);
    WakeAheadWaits(s, c, v);
    LocalRest(s, c, v);
  }

  // ----- becoming a zombie -----

  function Zombied(s: State, c: nat): (s': State)
    requires InThread(s, c)
    ensures Shape(s')
  {
    var u := s.procs[Me(s, c)];
    Local(s, c, u.(state := ZOMBIE, pc := ExitUnlocking)).(exited := s.exited + {u.pid})
  }

  /** When a process turns zombie its parent is awake, and nobody is scanning. */
  lemma ZombieWaits(s: State, c: nat)
    requires Inv(s) && InThread(s, c) && MyPc(s, c).Zombify?
    ensures NoMissedChild(Zombied(s, c)) && ParentAwake(Zombied(s, c)) && ScanOk(Zombied(s, c))
  {
    ThreadOk(s, c);
    var s', p := Zombied(s, c), Me(s, c);
    var v := s.procs[p].(state := ZOMBIE, pc := ExitUnlocking);
    HandingOnLocal(s, c, v);
    assert Handing(Local(s, c, v)) ==> Handing(s') by {
      SameHanding(Local(s, c, v), s');
    }
    hide ForksOk, Pids, CpusOk, LocksOk, WaitOk, Handing, ProcsOk;
    assert s.procs[p].parent.Some? ==> PastParent(s.procs[p]);
    forall x | 0 <= x < NPROC && x != p
      ensures !WaitLocked(s.procs[x].pc)
    {
      if WaitLocked(s.procs[x].pc) {
        OneWaiter(s, x, p);
      }
    }
  }

  lemma SameHanding(s: State, s': State)
    requires Shape(s) && Shape(s') && s'.cpus == s.cpus && s'.procs == s.procs
    ensures Handing(s) ==> Handing(s')
  {
    if Handing(s) {
      var d :| 0 <= d < NCPU && InThread(s, d) && MyPc(s, d).ReparentWake? && MyPc(s, d).j <= INIT;
      assert InThread(s', d) && MyPc(s', d) == MyPc(s, d);
    }
  }

  lemma ZombieRest(s: State, c: nat, v: Process)
    requires Core(s) && ProcsOk(s) && ForksOk(s) && InThread(s, c) && Moves(s, c, v)
    requires v == s.procs[Me(s, c)].(state := ZOMBIE, pc := ExitUnlocking) && s.procs[Me(s, c)].state != UNUSED
    ensures ByThread(s, Zombied(s, c), c) && ProcOk(Zombied(s, c), Me(s, c))
    ensures Only(s, Zombied(s, c), Me(s, c), Me(s, c))
    ensures SameForks(s, Zombied(s, c)) && SamePids(s, Zombied(s, c))
  {
    LocalThread(s, c, v);
    LocalForks(s, c, v);
    ThreadOnCpu(Zombied(s, c), c);
  }

  lemma ZombieIs(s: State, c: nat)
    requires Shape(s) && Enabled(s, BecomeZombie(c)) && s.wait == Some(c)
    ensures Apply(s, BecomeZombie(c)) == Zombied(s, c)
    ensures Moves(s, c, s.procs[Me(s, c)].(state := ZOMBIE, pc := ExitUnlocking)) <==>
            Me(s, c) != INIT && s.procs[Me(s, c)].chan.OnProc? == false
  {
  }

  lemma ZombieKeeps(s: State, c: nat)
    requires Inv(s) && Enabled(s, BecomeZombie(c))
    ensures Inv(Apply(s, BecomeZombie(c)))
  {
    hide SamePids, SameForks, ProcsOk, NoMissedChild, ParentAwake, ScanOk, Pids, ForksOk, Core, ByThread, Only,
         Zombied, Apply, Moves;
    ThreadOk(s, c);
    ThreadLocks(s, c);
    ZombieIs(s, c);
    ZombieWaits(s, c);
    ZombieRest(s, c, s.procs[Me(s, c)].(state := ZOMBIE, pc := ExitUnlocking));
    KeepPids(s, Zombied(s, c));
    KeepForks(s, Zombied(s, c));
    Assemble(s, Zombied(s, c), c, Me(s, c));
  }

  // ----- writes to another process's slot -----

  /** A write under q's lock that leaves its thread where it is, and at most wakes it. */
  predicate Poke(a: Process, b: Process) {
    b.pc == a.pc && b.chan == a.chan && b.pid == a.pid && (b.state == a.state || (a.state == SLEEPING
    && b.state == RUNNABLE))
  }

  lemma PokeCore(s: State, q: nat, b: Process)
    requires Core(s) && q < NPROC && b.pc == s.procs[q].pc
    ensures Core(SetProc(s, q, b))
  {
    var s' := SetProc(s, q, b);
    forall c, x | 0 <= c < NCPU && 0 <= x < NPROC
      ensures s'.locks[x] == Some(c) <==> HoldsLock(s', c, x)
    {
      assert s.locks[x] == Some(c) <==> HoldsLock(s, c, x);
      assert HoldsLock(s', c, x) <==> HoldsLock(s, c, x);
    }
    forall c | 0 <= c < NCPU
      ensures s'.wait == Some(c) <==> HoldsWait(s', c)
    {
      assert s.wait == Some(c) <==> HoldsWait(s, c);
    }
  }

  lemma PokeProcs(s: State, q: nat, b: Process)
    requires Shape(s) && ProcsOk(s) && q < NPROC && Poke(s.procs[q], b)
    requires (b.state != s.procs[q].state ==> !OnCpu(s, q))
    ensures ProcsOk(SetProc(s, q, b))
  {
    var s' := SetProc(s, q, b);
    forall x | 0 <= x < NPROC
      ensures ProcOk(s', x)
    {
      assert ProcOk(s, x) && (OnCpu(s', x) <==> OnCpu(s, x));
    }
  }

  lemma PokeForks(s: State, q: nat, b: Process)
    requires Shape(s) && ForksOk(s) && q < NPROC && Poke(s.procs[q], b)
    ensures ForksOk(SetProc(s, q, b))
  {
    var s' := SetProc(s, q, b);
    forall x | 0 <= x < NPROC && Child(s'.procs[x].pc).Some?
      ensures Child(s'.procs[x].pc) == Child(s.procs[x].pc)
      ensures Unborn(s, Child(s.procs[x].pc).v) ==> Unborn(s', Child(s.procs[x].pc).v)
    {
    }
    KeepForks(s, s');
  }

  lemma PokeHanding(s: State, q: nat, b: Process)
    requires Shape(s) && q < NPROC && b.pc == s.procs[q].pc
    ensures Handing(s) ==> Handing(SetProc(s, q, b))
  {
    if Handing(s) {
      var d :| 0 <= d < NCPU && InThread(s, d) && MyPc(s, d).ReparentWake? && MyPc(s, d).j <= INIT;
      assert InThread(SetProc(s, q, b), d) && MyPc(SetProc(s, q, b), d) == MyPc(s, d);
    }
  }

  lemma PokeCalm(s: State, q: nat, b: Process)
    requires Shape(s) && q < NPROC && Poke(s.procs[q], b) && b.parent == s.procs[q].parent
    ensures Calm(s, SetProc(s, q, b)) && SamePids(s, SetProc(s, q, b))
  {
  }

  lemma PokeInv(s: State, q: nat, b: Process)
    requires Inv(s) && q < NPROC && Poke(s.procs[q], b) && b.parent == s.procs[q].parent
    requires b.state != s.procs[q].state ==> !OnCpu(s, q)
    ensures Inv(SetProc(s, q, b))
  {
    hide Calm, SamePids, ProcsOk, NoMissedChild, ParentAwake, ScanOk, Pids, ForksOk, Handing, Core, OnCpu;
    CoreShape(s);
    PokeCore(s, q, b);
    PokeProcs(s, q, b);
    PokeForks(s, q, b);
    PokeHanding(s, q, b);
    PokeCalm(s, q, b);
    CalmWait(s, SetProc(s, q, b));
    KeepPids(s, SetProc(s, q, b));
  }

  /** A running process whose lock is free is not at a point where it holds it. */
  lemma FreeUnlocked(s: State, q: nat)
    requires Inv(s) && q < NPROC && Free(s, q)
    ensures ProcOk(s, q) && (OnCpu(s, q) ==> !OwnLocked(s.procs[q].pc))
  {
    hide ForksOk, NoMissedChild, ParentAwake, ScanOk, Pids;
    forall c | 0 <= c < NCPU && s.cpus[c].ctx == Runs(q)
      ensures !OwnLocked(s.procs[q].pc)
    {
      assert s.locks[q] == Some(c) <==> HoldsLock(s, c, q);
    }
  }

  /** A sleeper whose lock is free has left its CPU. */
  lemma SleeperParked(s: State, q: nat)
    requires Inv(s) && q < NPROC && Free(s, q) && s.procs[q].state == SLEEPING
    ensures !OnCpu(s, q)
  {
    FreeUnlocked(s, q);
  }

  lemma WokenInv(s: State, q: nat, chan: Chan, killed: bool)
    requires Inv(s) && q < NPROC && Free(s, q)
    ensures Inv(SetProc(s, q, Woken(s.procs[q], chan).(killed := killed)))
  {
    hide Inv;
    ShapeOf(s);
    if s.procs[q].state == SLEEPING {
      SleeperParked(s, q);
    }
    PokeInv(s, q, Woken(s.procs[q], chan).(killed := killed));
  }

  lemma ShapeOf(s: State)
    requires Inv(s)
    ensures Shape(s)
  {
  }

  lemma WakeOtherKeeps(s: State, c: nat, q: nat)
    requires Inv(s) && Enabled(s, WakeOther(c, q))
    ensures Inv(Apply(s, WakeOther(c, q)))
  {
    hide Inv;
    ShapeOf(s);
    WokenInv(s, q, s.procs[q].chan, s.procs[q].killed);
  }

  lemma KillKeeps(s: State, c: nat, q: nat)
    requires Inv(s) && Enabled(s, Kill(c, q))
    ensures Inv(Apply(s, Kill(c, q)))
  {
    hide Inv;
    WokenInv(s, q, s.procs[q].chan, true);
  }

  /** After wakeup has been at slot j, nobody in slot j dozes on that channel. */
  lemma WokenAwake(s: State, j: nat, chan: Chan)
    requires Inv(s) && j < NPROC && Free(s, j) && chan == OnProc(j)
    ensures !Dozes(Woken(s.procs[j], chan))
  {
    FreeUnlocked(s, j);
  }

  lemma WakeParentKeeps(s: State, c: nat)
    requires Inv(s) && Enabled(s, WakeParentStep(c))
    ensures Inv(Apply(s, WakeParentStep(c)))
  {
    hide Inv, LocksOk;
    ThreadOk(s, c);
    ThreadLocks(s, c);
    var p, j := Me(s, c), MyPc(s, c).j;
    if j >= NPROC {
      WakeAhead(s, c, s.procs[p].(pc := Zombify));
    } else if j == p {
      WakeAhead(s, c, s.procs[p].(pc := WakeParent(j + 1)));
    } else {
      var chan := ParentChan(s.procs[p]);
      var s1 := Wake(s, j, chan);
      WokenInv(s, j, chan, s.procs[j].killed);
      if chan == OnProc(j) {
        WokenAwake(s, j, chan);
      }
      WakeOn(s1, c, j);
    }
  }

  /** The next slot, when it is the parent's and the parent is awake, or another's. */
  lemma WakeOn(s: State, c: nat, j: nat)
    requires Inv(s) && InThread(s, c) && MyPc(s, c) == WakeParent(j) && j < NPROC
    requires ParentChan(s.procs[Me(s, c)]) == OnProc(j) ==> !Dozes(s.procs[j])
    ensures Inv(SetPc(s, Me(s, c), WakeParent(j + 1)))
  {
    var p := Me(s, c);
    var v := s.procs[p].(pc := WakeParent(j + 1));
    ThreadOk(s, c);
    ThreadLocks(s, c);
    assert Local(s, c, v) == SetPc(s, p, WakeParent(j + 1));
    if ParentChan(s.procs[p]) == OnProc(j) {
      WakeAhead(s, c, v);
    } else {
      hide Inv, NoMissedChild, ParentAwake, ScanOk;
      WakeOtherSlot(s, c, v);
      LocalRest(s, c, v);
    }
  }

  lemma WakeOtherSlot(s: State, c: nat, v: Process)
    requires Inv(s) && InThread(s, c) && MyPc(s, c).WakeParent?
    requires v == s.procs[Me(s, c)].(pc := WakeParent(MyPc(s, c).j + 1))
    requires ParentChan(s.procs[Me(s, c)]) != OnProc(MyPc(s, c).j)
    ensures NoMissedChild(Local(s, c, v)) && ParentAwake(Local(s, c, v)) && ScanOk(Local(s, c, v))
  {
    ThreadOk(s, c);
    hide ForksOk, Pids, CpusOk, LocksOk, WaitOk, Handing, ProcsOk;
    HandingOnLocal(s, c, v);
    var p := Me(s, c);
    assert !Dozes(s.procs[p]) && !Dozes(v) && (PastParent(v) ==> PastParent(s.procs[p]));
  }

  // ----- handing children to init -----

  /** Only the thread that holds wait_lock hands children over. */
  lemma OnlyHander(s: State, c: nat)
    requires Core(s) && ProcsOk(s) && InThread(s, c) && MyPc(s, c).ReparentWake?
    ensures Handing(s) <==> MyPc(s, c).j <= INIT
  {
    if Handing(s) {
      var d :| 0 <= d < NCPU && InThread(s, d) && MyPc(s, d).ReparentWake? && MyPc(s, d).j <= INIT;
      OneWaiter(s, Me(s, c), Me(s, d));
      assert MyPc(s, d) == MyPc(s, c);
    }
  }

  lemma HandAheadWaits(s: State, c: nat, v: Process)
    requires Inv(s) && InThread(s, c) && MyPc(s, c).ReparentWake? && v == s.procs[Me(s, c)].(pc := v.pc)
    requires v.pc == Reparent(MyPc(s, c).i + 1) || v.pc == ReparentWake(MyPc(s, c).i, MyPc(s, c).j + 1)
    requires MyPc(s, c).j <= INIT ==> !Dozes(s.procs[INIT])
    ensures NoMissedChild(Local(s, c, v)) && ParentAwake(Local(s, c, v)) && ScanOk(Local(s, c, v))
  {
    ThreadOk(s, c);
    OnlyHander(s, c);
    hide ForksOk, Pids, CpusOk, LocksOk, WaitOk, Handing, ProcsOk;
    var p := Me(s, c);
    assert !Dozes(s.procs[p]) && !Dozes(v) && !PastParent(v);
  }

  lemma HandAhead(s: State, c: nat, v: Process)
    requires Inv(s) && InThread(s, c) && MyPc(s, c).ReparentWake? && v == s.procs[Me(s, c)].(pc := v.pc)
    requires v.pc == Reparent(MyPc(s, c).i + 1) || v.pc == ReparentWake(MyPc(s, c).i, MyPc(s, c).j + 1)
    requires MyPc(s, c).j <= INIT ==> !Dozes(s.procs[INIT])
    ensures Inv(SetPc(s, Me(s, c), v.pc))
  {
    hide Inv, NoMissedChild, ParentAwake, ScanOk;
    ThreadOk(s, c);
    ThreadLocks(s, c);
    HandAheadWaits(s, c, v);
    assert SetPc(s, Me(s, c), v.pc) == Local(s, c, v);
    LocalRest(s, c, v);
  }

  lemma WakeStepKeeps(s: State, c: nat)
    requires Inv(s) && Enabled(s, WakeStep(c))
    ensures Inv(Apply(s, WakeStep(c)))
  {
    hide Inv;
    ThreadOk(s, c);
    var p, i, j := Me(s, c), MyPc(s, c).i, MyPc(s, c).j;
    if j >= NPROC {
      HandAhead(s, c, s.procs[p].(pc := Reparent(i + 1)));
    } else if j == p {
      HandAhead(s, c, s.procs[p].(pc := ReparentWake(i, j + 1)));
    } else {
      WokenInv(s, j, OnProc(INIT), s.procs[j].killed);
      if j == INIT {
        WokenAwake(s, j, OnProc(INIT));
      }
      var s1 := Wake(s, j, OnProc(INIT));
      HandAhead(s1, c, s1.procs[p].(pc := ReparentWake(i, j + 1)));
    }
  }

  lemma AdoptWaits(s: State, c: nat, i: nat, b: Process)
    requires Inv(s) && InThread(s, c) && MyPc(s, c) == ReparentWake(i, 0) && i < NPROC
    requires b == s.procs[i].(parent := Some(INIT))
    ensures NoMissedChild(SetProc(s, i, b)) && ParentAwake(SetProc(s, i, b)) && ScanOk(SetProc(s, i, b))
  {
    var s', p := SetProc(s, i, b), Me(s, c);
    OnlyHander(s, c);
    PokeHanding(s, i, b);
    forall x | 0 <= x < NPROC && x != p
      ensures !WaitLocked(s.procs[x].pc)
    {
      if WaitLocked(s.procs[x].pc) {
        OneWaiter(s, x, p);
      }
    }
    hide ForksOk, Pids, CpusOk, LocksOk, WaitOk, Handing, ProcsOk;
    forall e | 0 <= e < NPROC
      ensures !PastParent(s'.procs[e])
    {
      assert PastParent(s'.procs[e]) ==> WaitLocked(s.procs[e].pc);
    }
    forall x, q | 0 <= x < NPROC && 0 <= q < NPROC && Dozes(s'.procs[x]) && ZombieOf(s'.procs[q], x)
      ensures x == INIT && Handing(s')
    {
      assert Dozes(s.procs[x]) && (q != i ==> ZombieOf(s.procs[q], x));
    }
  }

  lemma AdoptInv(s: State, c: nat, i: nat)
    requires Inv(s) && InThread(s, c) && MyPc(s, c) == ReparentWake(i, 0) && i < NPROC
    ensures Inv(SetProc(s, i, s.procs[i].(parent := Some(INIT))))
  {
    hide SamePids, ProcsOk, NoMissedChild, ParentAwake, ScanOk, Pids, ForksOk, Core;
    var b := s.procs[i].(parent := Some(INIT));
    CoreShape(s);
    PokeCore(s, i, b);
    PokeProcs(s, i, b);
    PokeForks(s, i, b);
    AdoptWaits(s, c, i, b);
    PokePids(s, i, b);
    KeepPids(s, SetProc(s, i, b));
  }

  lemma PokePids(s: State, q: nat, b: Process)
    requires Shape(s) && q < NPROC && Poke(s.procs[q], b)
    ensures SamePids(s, SetProc(s, q, b))
  {
  }

  lemma ReparentKeeps(s: State, c: nat)
    requires Inv(s) && Enabled(s, ReparentStep(c))
    ensures Inv(Apply(s, ReparentStep(c)))
  {
    hide Inv;
    ThreadOk(s, c);
    ThreadLocks(s, c);
    var p, i := Me(s, c), MyPc(s, c).i;
    var u := s.procs[p];
    var v := u.(pc := if i >= NPROC then WakeParent(0)
                      else if s.procs[i].parent == Some(p) then ReparentWake(i, 0) else Reparent(i + 1));
    LocalInv(s, c, v);
    assert Local(s, c, v) == SetPc(s, p, v.pc);
    if i < NPROC && s.procs[i].parent == Some(p) {
      AdoptInv(SetPc(s, p, v.pc), c, i);
      assert Apply(s, ReparentStep(c)) == SetProc(SetPc(s, p, v.pc), i,
                                                  SetPc(s, p, v.pc).procs[i].(parent := Some(INIT)));
    }
  }

  // ----- kwait's scan -----

  /** Reaping: slot i, a zombie child of the scanner, becomes unused. */
  function Reaped(s: State, i: nat): (s': State)
    requires Shape(s) && i < NPROC
    ensures Shape(s')
  {
    SetProc(s, i, FREED).(reaped := s.reaped + [s.procs[i].pid])
  }

  /** A zombie whose lock is free has left its kernel stack: no CPU runs it, and no scheduler is
      still to release it. */
  lemma ZombieGone(s: State, i: nat)
    requires Inv(s) && i < NPROC && Free(s, i) && s.procs[i].state == ZOMBIE
    ensures s.procs[i].pc == AtSched(Exiting) && forall c :: 0 <= c < NCPU ==> s.cpus[c].proc != Some(i)
  {
    FreeUnlocked(s, i);
    hide ForksOk, NoMissedChild, ParentAwake, ScanOk, Pids, ProcsOk;
    forall c | 0 <= c < NCPU
      ensures s.cpus[c].proc != Some(i)
    {
      assert s.locks[i] == Some(c) <==> HoldsLock(s, c, i);
    }
  }

  lemma ReapCore(s: State, i: nat)
    requires Core(s) && i < NPROC && forall c :: 0 <= c < NCPU ==> s.cpus[c].proc != Some(i)
    ensures Core(Reaped(s, i))
  {
    var s' := Reaped(s, i);
    forall c | 0 <= c < NCPU && InThread(s, c)
      ensures Me(s, c) != i
    {
    }
    forall c, x | 0 <= c < NCPU && 0 <= x < NPROC
      ensures s'.locks[x] == Some(c) <==> HoldsLock(s', c, x)
    {
      assert s.locks[x] == Some(c) <==> HoldsLock(s, c, x);
      assert HoldsLock(s', c, x) <==> HoldsLock(s, c, x);
    }
    forall c | 0 <= c < NCPU
      ensures s'.wait == Some(c) <==> HoldsWait(s', c)
    {
      assert s.wait == Some(c) <==> HoldsWait(s, c);
    }
  }

  lemma ReapRest(s: State, i: nat)
    requires Core(s) && ProcsOk(s) && ForksOk(s) && i < NPROC && s.procs[i].state == ZOMBIE && !OnCpu(s, i)
    ensures ProcsOk(Reaped(s, i)) && ForksOk(Reaped(s, i)) && Calm(s, Reaped(s, i))
  {
    var s' := Reaped(s, i);
    forall x | 0 <= x < NPROC
      ensures ProcOk(s', x)
    {
      assert ProcOk(s, x) && (OnCpu(s', x) <==> OnCpu(s, x));
    }
    assert SameForks(s, s');
    KeepForks(s, s');
  }

  lemma ReapPids(s: State, i: nat)
    requires Shape(s) && Pids(s) && i < NPROC && s.procs[i].state == ZOMBIE
    ensures Pids(Reaped(s, i))
  {
    var s', x := Reaped(s, i), s.procs[i].pid;
    forall p | 0 <= p < NPROC && s'.procs[p].state != UNUSED
      ensures s'.procs[p].pid !in s'.reaped
    {
      assert p != i && s.procs[p].pid != x;
    }
    assert x !in s.reaped;
  }

  lemma ReapInv(s: State, i: nat)
    requires Inv(s) && i < NPROC && Free(s, i) && s.procs[i].state == ZOMBIE
    ensures Inv(Reaped(s, i))
  {
    hide Calm, ProcsOk, NoMissedChild, ParentAwake, ScanOk, Pids, ForksOk, Handing, Core, Reaped;
    CoreShape(s);
    ZombieGone(s, i);
    ReapCore(s, i);
    GoneParked(s, i);
    ReapRest(s, i);
    ReapPids(s, i);
    ReapHanding(s, i);
    CalmWait(s, Reaped(s, i));
  }

  lemma GoneParked(s: State, i: nat)
    requires Core(s) && i < NPROC && forall c :: 0 <= c < NCPU ==> s.cpus[c].proc != Some(i)
    ensures !OnCpu(s, i)
  {
  }

  lemma ReapHanding(s: State, i: nat)
    requires Core(s) && i < NPROC && forall c :: 0 <= c < NCPU ==> s.cpus[c].proc != Some(i)
    ensures Handing(s) ==> Handing(Reaped(s, i))
  {
    if Handing(s) {
      var d :| 0 <= d < NCPU && InThread(s, d) && MyPc(s, d).ReparentWake? && MyPc(s, d).j <= INIT;
      assert Me(s, d) != i;
      assert InThread(Reaped(s, i), d) && MyPc(Reaped(s, i), d) == MyPc(s, d);
    }
  }

  lemma ScanKeeps(s: State, c: nat, copyFails: bool)
    requires Inv(s) && Enabled(s, ScanStep(c, copyFails))
    ensures Inv(Scanned(s, c, copyFails))
  {
    hide Inv;
    ThreadOk(s, c);
    ThreadLocks(s, c);
    var p, i, kids := Me(s, c), MyPc(s, c).i, MyPc(s, c).kids;
    var u := s.procs[p];
    if i >= NPROC && kids && !u.killed {
      ScanAhead(s, c, u.(pc := WaitSleep));
    } else if i < NPROC && u.pc.i == i && !ZombieOf(s.procs[i], p) {
      ScanAhead(s, c, u.(pc := WaitScan(i + 1, kids || s.procs[i].parent == Some(p))));
    } else {
      LocalInv(s, c, u.(pc := User));
      if i < NPROC && !copyFails {
        ReapInv(Local(s, c, u.(pc := User)), i);
        assert i != p;
      }
    }
  }
}
