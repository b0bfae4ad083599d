/** What every step of the process machine keeps. */
module ProcInvariant {
  import opened Proc

  // ----- who holds which lock -----

  /** A running thread at these points holds its own lock. */
  predicate OwnLocked(pc: Pc) {
    pc.Fresh? || pc.AtSched? || pc.Resumed? || pc.ExitUnlocking? || pc.WaitDoze?
  }

  predicate WaitLocked(pc: Pc) {
    pc.Reparent? || pc.ReparentWake? || pc.WakeParent? || pc.Zombify? || pc.ExitUnlocking? || pc.WaitScan?
    || pc.WaitSleep?
  }

  /** CPU c ought to hold p->lock. */
  predicate HoldsLock(s: State, c: nat, p: nat)
    requires Shape(s) && c < NCPU
  {
    match s.cpus[c].ctx
    case Scheduler => false
    case After(q) => p == q
    case Runs(q) => q < NPROC && ((p == q && OwnLocked(s.procs[q].pc)) || s.procs[q].pc == ForkHeld(p))
  }

  predicate HoldsWait(s: State, c: nat)
    requires Shape(s) && c < NCPU
  {
    InThread(s, c) && WaitLocked(MyPc(s, c))
  }

  ghost predicate CpusOk(s: State)
    requires Shape(s)
  {
    && (forall c :: 0 <= c < NCPU ==>
          match s.cpus[c].ctx
          case Scheduler => s.cpus[c].proc == None
          case After(q) => q < NPROC && s.cpus[c].proc == Some(q)
          case Runs(q) => q < NPROC && s.cpus[c].proc == Some(q))
    && (forall c, d :: 0 <= c < d < NCPU && s.cpus[c].proc.Some? ==> s.cpus[c].proc != s.cpus[d].proc)
  }

  ghost predicate LocksOk(s: State)
    requires Shape(s)
  {
    && (forall p :: 0 <= p < NPROC && s.locks[p].Some? ==> s.locks[p].v < NCPU)
    && (forall c, p :: 0 <= c < NCPU && 0 <= p < NPROC ==> (s.locks[p] == Some(c) <==> HoldsLock(s, c, p)))
  }

  ghost predicate WaitOk(s: State)
    requires Shape(s)
  {
    && (s.wait.Some? ==> s.wait.v < NCPU)
    && (forall c :: 0 <= c < NCPU ==> (s.wait == Some(c) <==> HoldsWait(s, c)))
  }

  // ----- a process and its thread -----

  ghost predicate OnCpu(s: State, p: nat)
    requires Shape(s)
  {
    exists c :: 0 <= c < NCPU && s.cpus[c].ctx == Runs(p)
  }

  function SchedState(k: Cont): (st: PState) {
    match k
    case Yielding(_) => RUNNABLE
    case Dozing => SLEEPING
    case Waiting => SLEEPING
    case Exiting => ZOMBIE
  }

  function RunState(pc: Pc): (st: PState) {
    match pc
    case AtSched(k) => SchedState(k)
    case ExitUnlocking => ZOMBIE
    case _ => RUNNING
  }

  predicate Parked(v: Process) {
    match v.pc
    case Nowhere => v.state == UNUSED
    case Fresh => v.state == USED || v.state == RUNNABLE
    case AtSched(k) => v.state == SchedState(k) || (v.state == RUNNABLE && (k.Dozing? || k.Waiting?))
    case _ => false
  }

  predicate InSleep(pc: Pc) {
    pc == AtSched(Waiting) || pc == Resumed(Waiting)
  }

  predicate ExitPc(pc: Pc) {
    pc.Reparent? || pc.ReparentWake? || pc.WakeParent? || pc.Zombify? || pc.ExitUnlocking? || pc == AtSched(Exiting)
  }

  ghost predicate ProcOk(s: State, p: nat)
    requires Shape(s) && p < NPROC
  {
    var v := s.procs[p];
    && (if OnCpu(s, p) then v.state == RunState(v.pc) && !v.pc.Nowhere? && v.pc != Resumed(Exiting) else Parked(v))
    && (v.chan.OnProc? <==> InSleep(v.pc)) && (v.chan.OnProc? ==> v.chan.q == p)
    && (ExitPc(v.pc) ==> p != INIT)
  }

  ghost predicate ProcsOk(s: State)
    requires Shape(s)
  {
    forall p :: 0 <= p < NPROC ==> ProcOk(s, p)
  }

  /** The child a thread was making when it was preempted. */
  function LaterChild(k: Cont): (np: Opt) {
    match k
    case Yielding(ToAdopt(np)) => Some(np)
    case Yielding(ToStart(np)) => Some(np)
    case _ => None
  }

  /** The child a thread is making. */
  function Child(pc: Pc): (np: Opt) {
    match pc
    case ForkHeld(np) => Some(np)
    case ForkAdopting(np) => Some(np)
    case ForkStarting(np) => Some(np)
    case AtSched(k) => LaterChild(k)
    case Resumed(k) => LaterChild(k)
    case _ => None
  }

  predicate Unborn(s: State, np: nat)
    requires Shape(s)
  {
    np < NPROC && s.procs[np].state == USED && s.procs[np].pc == Fresh
  }

  /** A child being made is in use, has not run, and has one maker. */
  ghost predicate ForksOk(s: State)
    requires Shape(s)
  {
    && (forall q :: 0 <= q < NPROC && Child(s.procs[q].pc).Some? ==> Unborn(s, Child(s.procs[q].pc).v))
    && (forall p,
        q :: 0 <= p < q < NPROC && Child(s.procs[p].pc).Some? ==> Child(s.procs[p].pc) != Child(s.procs[q].pc))
  }

  // ----- wait and exit -----

  /** p sleeps in kwait, or is on its way to: it has let go of wait_lock. */
  predicate Dozes(v: Process) {
    (v.state == SLEEPING && v.chan.OnProc?) || v.pc.WaitDoze?
  }

  predicate ZombieOf(v: Process, p: nat) {
    v.state == ZOMBIE && v.parent == Some(p)
  }

  /** Somebody has just handed a child to init and has yet to wake it. */
  ghost predicate Handing(s: State)
    requires Shape(s)
  {
    exists c :: 0 <= c < NCPU && InThread(s, c) && MyPc(s, c).ReparentWake? && MyPc(s, c).j <= INIT
  }

  ghost predicate NoMissedChild(s: State)
    requires Shape(s)
  {
    forall p, q :: 0 <= p < NPROC && 0 <= q < NPROC && Dozes(s.procs[p]) && ZombieOf(s.procs[q], p) ==>
      p == INIT && Handing(s)
  }

  /** An exiting process that has passed its parent's slot in wakeup has an awake parent. */
  predicate PastParent(v: Process) {
    v.parent.Some? && (v.pc.Zombify? || (v.pc.WakeParent? && v.parent.v < v.pc.j))
  }

  ghost predicate ParentAwake(s: State)
    requires Shape(s)
  {
    forall e, p :: 0 <= e < NPROC && 0 <= p < NPROC && PastParent(s.procs[e]) && s.procs[e].parent == Some(p) ==>
      !Dozes(s.procs[p])
  }

  /** The part of the table kwait has looked at holds no zombie child. */
  predicate Looked(pc: Pc, q: nat) {
    (pc.WaitScan? && q < pc.i) || pc.WaitSleep?
  }

  ghost predicate ScanOk(s: State)
    requires Shape(s)
  {
    forall p, q :: 0 <= p < NPROC && 0 <= q < NPROC && Looked(s.procs[p].pc, q) ==> !ZombieOf(s.procs[q], p)
  }

  // ----- process identifiers -----

  ghost predicate Pids(s: State)
    requires Shape(s)
  {
    && (forall p :: 0 <= p < NPROC && s.procs[p].state != UNUSED ==>
          s.procs[p].pid < s.nextPid && s.procs[p].pid !in s.reaped)
    && (forall p, q :: 0 <= p < q < NPROC && s.procs[p].state != UNUSED && s.procs[q].state != UNUSED ==>
          s.procs[p].pid != s.procs[q].pid)
    && (forall p :: 0 <= p < NPROC && s.procs[p].state == ZOMBIE ==> s.procs[p].pid in s.exited)
    && (forall k :: 0 <= k < |s.reaped| ==> s.reaped[k] < s.nextPid && s.reaped[k] in s.exited)
    && (forall j, k :: 0 <= j < k < |s.reaped| ==> s.reaped[j] != s.reaped[k])
  }

  ghost predicate Core(s: State) {
    Shape(s) && CpusOk(s) && LocksOk(s) && WaitOk(s)
  }

  ghost predicate Inv(s: State) {
    Core(s) && ProcsOk(s) && ForksOk(s) && NoMissedChild(s) && ParentAwake(s) && ScanOk(s) && Pids(s)
  }
}
