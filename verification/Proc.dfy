/** Processes, CPUs and the locks between them, as a state machine. A step is one action under the
    lock that protects it; a CPU runs either its scheduler or a process's kernel thread. */
module Proc {
  const NPROC := 64
  const NCPU := 8
  const INIT := 0

  datatype PState = UNUSED | USED | SLEEPING | RUNNABLE | RUNNING | ZOMBIE

  datatype Opt = None | Some(v: nat)

  datatype Chan = NoChan | OnProc(q: nat) | OnOther(k: nat)

  /** Where a preempted thread goes on: at any point where it holds no lock. */
  datatype Back = ToUser | ToAdopt(np: nat) | ToStart(np: nat) | ToWait

  /** Why a thread called sched. */
  datatype Cont = Yielding(back: Back) | Dozing | Waiting | Exiting

  /** Where a process's kernel thread is. */
  datatype Pc =
    | Nowhere
    | Fresh
    | User
    | AtSched(k: Cont)
    | Resumed(k: Cont)
    | ForkHeld(np: nat)
    | ForkAdopting(np: nat)
    | ForkStarting(np: nat)
    | Reparent(i: nat)
    | ReparentWake(i: nat, j: nat)
    | WakeParent(j: nat)
    | Zombify
    | ExitUnlocking
    | WaitLocking
    | WaitScan(i: nat, kids: bool)
    | WaitSleep
    | WaitDoze

  datatype Process = Process(state: PState, chan: Chan, parent: Opt, killed: bool, pid: nat, pc: Pc)

  /** What a CPU executes: its scheduler loop, the scheduler just after a process switched back to
      it, or a process. */
  datatype Ctx = Scheduler | After(p: nat) | Runs(p: nat)

  datatype Cpu = Cpu(proc: Opt, ctx: Ctx)

  /** locks and wait name the CPU that holds each p->lock, and wait_lock. */
  datatype State = State(
    procs: seq<Process>, cpus: seq<Cpu>, locks: seq<Opt>, wait: Opt, nextPid: nat, exited: set<nat>, reaped: seq<nat>)

  datatype Step =
    | Dispatch(c: nat, p: nat) | Release(c: nat) | SwitchOut(c: nat) | Resume(c: nat)
    | YieldUp(c: nat) | SleepOn(c: nat, k: nat) | WakeOther(c: nat, q: nat) | Kill(c: nat, q: nat)
    | ForkAlloc(c: nat, np: nat) | ForkFail(c: nat) | ForkRelease(c: nat) | ForkAdopt(c: nat) | ForkStart(c: nat)
    | ExitBegin(c: nat) | ReparentStep(c: nat) | WakeStep(c: nat) | WakeParentStep(c: nat)
    | BecomeZombie(c: nat) | ExitUnlock(c: nat)
    | WaitBegin(c: nat) | ScanStep(c: nat, copyFails: bool) | SleepLock(c: nat) | Doze(c: nat)

  predicate Preemptible(pc: Pc) {
    pc.User? || pc.ForkAdopting? || pc.ForkStarting? || pc.WaitLocking?
  }

  function BackFrom(pc: Pc): (b: Back)
    requires Preemptible(pc)
    ensures GoOn(b) == pc
  {
    match pc
    case ForkAdopting(np) => ToAdopt(np)
    case ForkStarting(np) => ToStart(np)
    case WaitLocking => ToWait
    case _ => ToUser
  }

  function GoOn(b: Back): (pc: Pc) {
    match b
    case ToUser => User
    case ToAdopt(np) => ForkAdopting(np)
    case ToStart(np) => ForkStarting(np)
    case ToWait => WaitLocking
  }

  const FREED := Process(UNUSED, NoChan, None, false, 0, Nowhere)

  predicate Shape(s: State) {
    |s.procs| == NPROC && |s.locks| == NPROC && |s.cpus| == NCPU
  }

  /** CPU c executes the thread of a process. */
  predicate InThread(s: State, c: nat) {
    Shape(s) && c < NCPU && s.cpus[c].ctx.Runs? && s.cpus[c].ctx.p < NPROC
  }

  function Me(s: State, c: nat): (p: nat)
    requires InThread(s, c)
    ensures p < NPROC
  {
    s.cpus[c].ctx.p
  }

  function MyPc(s: State, c: nat): (pc: Pc)
    requires InThread(s, c)
  {
    s.procs[Me(s, c)].pc
  }

  predicate Free(s: State, p: nat)
    requires Shape(s)
  {
    p < NPROC && s.locks[p].None?
  }

  predicate Enabled(s: State, step: Step)
    requires Shape(s)
  {
    match step
    case Dispatch(c, p) =>
      c < NCPU && s.cpus[c].ctx.Scheduler? && p < NPROC && Free(s, p) && s.procs[p].state == RUNNABLE
    case Release(c) => c < NCPU && s.cpus[c].ctx.After? && s.cpus[c].ctx.p < NPROC
    case SwitchOut(c) => InThread(s, c) && MyPc(s, c).AtSched?
    case Resume(c) => InThread(s, c) && (MyPc(s, c).Fresh? || MyPc(s, c).Resumed?)
    case YieldUp(c) => InThread(s, c) && Preemptible(MyPc(s, c)) && Free(s, Me(s, c))
    case SleepOn(c, k) => InThread(s, c) && MyPc(s, c).User? && Free(s, Me(s, c))
    case WakeOther(c, q) => c < NCPU && Free(s, q) && s.cpus[c].ctx != Runs(q)
    case Kill(c, q) => InThread(s, c) && MyPc(s, c).User? && Free(s, q)
    case ForkAlloc(c, np) =>
      InThread(s, c) && MyPc(s, c).User? && Free(s, np) && s.procs[np].state == UNUSED
    case ForkFail(c) => InThread(s, c) && MyPc(s, c).ForkHeld? && MyPc(s, c).np < NPROC
    case ForkRelease(c) => InThread(s, c) && MyPc(s, c).ForkHeld? && MyPc(s, c).np < NPROC
    case ForkAdopt(c) => InThread(s, c) && MyPc(s, c).ForkAdopting? && MyPc(s, c).np < NPROC && s.wait.None?
    case ForkStart(c) => InThread(s, c) && MyPc(s, c).ForkStarting? && Free(s, MyPc(s, c).np)
    case ExitBegin(c) => InThread(s, c) && MyPc(s, c).User? && Me(s, c) != INIT && s.wait.None?
    case ReparentStep(c) => InThread(s, c) && MyPc(s, c).Reparent?
    case WakeStep(c) =>
      InThread(s, c) && MyPc(s, c).ReparentWake?
      && (var j := MyPc(s, c).j; j >= NPROC || j == Me(s, c) || Free(s, j))
    case WakeParentStep(c) =>
      InThread(s, c) && MyPc(s, c).WakeParent?
      && (var j := MyPc(s, c).j; j >= NPROC || j == Me(s, c) || Free(s, j))
    case BecomeZombie(c) => InThread(s, c) && MyPc(s, c).Zombify? && Free(s, Me(s, c))
    case ExitUnlock(c) => InThread(s, c) && MyPc(s, c).ExitUnlocking?
    case WaitBegin(c) => InThread(s, c) && (MyPc(s, c).User? || MyPc(s, c).WaitLocking?) && s.wait.None?
    case ScanStep(c, copyFails) =>
      InThread(s, c) && MyPc(s, c).WaitScan?
      && (var i := MyPc(s, c).i;
          if i >= NPROC then Free(s, Me(s, c)) else s.procs[i].parent == Some(Me(s, c)) ==> Free(s, i))
    case SleepLock(c) => InThread(s, c) && MyPc(s, c).WaitSleep? && Free(s, Me(s, c))
    case Doze(c) => InThread(s, c) && MyPc(s, c).WaitDoze?
  }

  function SetProc(s: State, p: nat, v: Process): (s': State)
    requires Shape(s) && p < NPROC
    ensures Shape(s')
  {
    s.(procs := s.procs[p := v])
  }

  function SetPc(s: State, p: nat, pc: Pc): (s': State)
    requires Shape(s) && p < NPROC
    ensures Shape(s')
  {
    SetProc(s, p, s.procs[p].(pc := pc))
  }

  function Lock(s: State, p: nat, c: nat): (s': State)
    requires Shape(s) && p < NPROC
    ensures Shape(s')
  {
    s.(locks := s.locks[p := Some(c)])
  }

  function Unlock(s: State, p: nat): (s': State)
    requires Shape(s) && p < NPROC
    ensures Shape(s')
  {
    s.(locks := s.locks[p := None])
  }

  /** One turn of wakeup's loop, at slot j. */
  function Woken(v: Process, chan: Chan): (v': Process) {
    if v.state == SLEEPING && v.chan == chan then v.(state := RUNNABLE) else v
  }

  function Wake(s: State, j: nat, chan: Chan): (s': State)
    requires Shape(s) && j < NPROC
    ensures Shape(s')
  {
    SetProc(s, j, Woken(s.procs[j], chan))
  }

  /** What a thread does when sched returns: tidy up and release its own lock. */
  function AfterResume(v: Process): (v': Process) {
    match v.pc
    case Resumed(k) =>
      (match k
       case Yielding(back) => v.(pc := GoOn(back))
       case Dozing => v.(chan := NoChan, pc := User)
       case Waiting => v.(chan := NoChan, pc := WaitLocking)
       case Exiting => v)
    case _ => v.(pc := User)
  }

  function ResumedPc(pc: Pc): (pc': Pc) {
    if pc.AtSched? then Resumed(pc.k) else pc
  }

  function ParentChan(v: Process): (c: Chan) {
    if v.parent.Some? then OnProc(v.parent.v) else NoChan
  }

  function Scanned(s: State, c: nat, copyFails: bool): (s': State)
    requires InThread(s, c) && MyPc(s, c).WaitScan?
    ensures Shape(s')
  {
    var p, i, kids := Me(s, c), MyPc(s, c).i, MyPc(s, c).kids;
    if i >= NPROC then
      if !kids || s.procs[p].killed then SetPc(s, p, User).(wait := None) else SetPc(s, p, WaitSleep)
    else if s.procs[i].parent != Some(p) then SetPc(s, p, WaitScan(i + 1, kids))
    else if s.procs[i].state != ZOMBIE then SetPc(s, p, WaitScan(i + 1, true))
    else if copyFails then SetPc(s, p, User).(wait := None)
    else SetProc(SetPc(s, p, User), i, FREED).(wait := None, reaped := s.reaped + [s.procs[i].pid])
  }

  /** One turn of reparent's loop. */
  function Reparented(s: State, c: nat): (s': State)
    requires InThread(s, c) && MyPc(s, c).Reparent?
    ensures Shape(s')
  {
    var p, i := Me(s, c), MyPc(s, c).i;
    if i >= NPROC then SetPc(s, p, WakeParent(0))
    else if s.procs[i].parent == Some(p) then
      SetPc(SetProc(s, i, s.procs[i].(parent := Some(INIT))), p, ReparentWake(i, 0))
    else SetPc(s, p, Reparent(i + 1))
  }

  /** One turn of the wakeup of init inside it. */
  function WokenInit(s: State, c: nat): (s': State)
    requires InThread(s, c) && MyPc(s, c).ReparentWake?
    ensures Shape(s')
  {
    var p, i, j := Me(s, c), MyPc(s, c).i, MyPc(s, c).j;
    if j >= NPROC then SetPc(s, p, Reparent(i + 1))
    else if j == p then SetPc(s, p, ReparentWake(i, j + 1))
    else SetPc(Wake(s, j, OnProc(INIT)), p, ReparentWake(i, j + 1))
  }

  /** One turn of kexit's wakeup of the parent. */
  function WokenParent(s: State, c: nat): (s': State)
    requires InThread(s, c) && MyPc(s, c).WakeParent?
    ensures Shape(s')
  {
    var p, j := Me(s, c), MyPc(s, c).j;
    if j >= NPROC then SetPc(s, p, Zombify)
    else if j == p then SetPc(s, p, WakeParent(j + 1))
    else SetPc(Wake(s, j, ParentChan(s.procs[p])), p, WakeParent(j + 1))
  }

  function Apply(s: State, step: Step): (s': State)
    requires Shape(s) && Enabled(s, step)
    ensures Shape(s')
  {
    match step
    case Dispatch(c, p) =>
      var s1 := SetProc(Lock(s, p, c), p, s.procs[p].(state := RUNNING, pc := ResumedPc(s.procs[p].pc)));
      s1.(cpus := s.cpus[c := Cpu(Some(p), Runs(p))])
    case Release(c) => Unlock(s, s.cpus[c].ctx.p).(cpus := s.cpus[c := Cpu(None, Scheduler)])
    case SwitchOut(c) => s.(cpus := s.cpus[c := s.cpus[c].(ctx := After(Me(s, c)))])
    case Resume(c) => var p := Me(s, c); SetProc(Unlock(s, p), p, AfterResume(s.procs[p]))
    case YieldUp(c) =>
      var p := Me(s, c);
      SetProc(Lock(s, p, c), p, s.procs[p].(state := RUNNABLE, pc := AtSched(Yielding(BackFrom(s.procs[p].pc)))))
    case SleepOn(c, k) =>
      var p := Me(s, c);
      SetProc(Lock(s, p, c), p, s.procs[p].(state := SLEEPING, chan := OnOther(k), pc := AtSched(Dozing)))
    case WakeOther(c, q) =>
      if s.procs[q].chan.OnOther? then Wake(s, q, s.procs[q].chan) else s
    case Kill(c, q) => SetProc(s, q, Woken(s.procs[q], s.procs[q].chan).(killed := true))
    case ForkAlloc(c, np) =>
      var p := Me(s, c);
      var s1 := SetProc(Lock(s, np, c), np, s.procs[np].(state := USED, pid := s.nextPid, pc := Fresh));
      SetPc(s1, p, ForkHeld(np)).(nextPid := s.nextPid + 1)
    case ForkFail(c) => var p, np := Me(s, c), MyPc(s, c).np; SetPc(SetProc(Unlock(s, np), np, FREED), p, User)
    case ForkRelease(c) => var p, np := Me(s, c), MyPc(s, c).np; SetPc(Unlock(s, np), p, ForkAdopting(np))
    case ForkAdopt(c) =>
      var p, np := Me(s, c), MyPc(s, c).np;
      SetPc(SetProc(s, np, s.procs[np].(parent := Some(p))), p, ForkStarting(np))
    case ForkStart(c) =>
      var p, np := Me(s, c), MyPc(s, c).np;
      SetPc(SetProc(s, np, s.procs[np].(state := RUNNABLE)), p, User)
    case ExitBegin(c) => SetPc(s, Me(s, c), Reparent(0)).(wait := Some(c))
    case ReparentStep(c) => Reparented(s, c)
    case WakeStep(c) => WokenInit(s, c)
    case WakeParentStep(c) => WokenParent(s, c)
    case BecomeZombie(c) =>
      var p := Me(s, c);
      SetProc(Lock(s, p, c), p,
              s.procs[p].(state := ZOMBIE, pc := ExitUnlocking)).(exited := s.exited + {s.procs[p].pid})
    case ExitUnlock(c) => SetPc(s, Me(s, c), AtSched(Exiting)).(wait := None)
    case WaitBegin(c) => SetPc(s, Me(s, c), WaitScan(0, false)).(wait := Some(c))
    case ScanStep(c, copyFails) => Scanned(s, c, copyFails)
    case SleepLock(c) => var p := Me(s, c); SetPc(Lock(s, p, c), p, WaitDoze).(wait := None)
    case Doze(c) =>
      var p := Me(s, c); SetProc(s, p, s.procs[p].(state := SLEEPING, chan := OnProc(p), pc := AtSched(Waiting)))
  }

  predicate Initial(s: State) {
    && Shape(s) && (forall c :: 0 <= c < NCPU ==> s.cpus[c] == Cpu(None, Scheduler))
    && (forall p :: 0 <= p < NPROC ==> s.locks[p].None?) && s.wait.None?
    && (forall p :: 0 <= p < NPROC && p != INIT ==> s.procs[p] == FREED)
    && s.procs[INIT] == Process(RUNNABLE, NoChan, None, false, 1, Fresh)
    && s.nextPid == 2 && s.exited == {} && s.reaped == []
  }
}
