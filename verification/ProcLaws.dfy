/** What one step of the machine does to one process, told from that process: how its thread moves on, and
    when its state, its parent, its mark and its number change. */
module ProcLaws {
  import opened Proc
  import opened ProcInvariant
  import opened ProcProofs
  import opened ProcSched

  /** The step is taken by the thread of process q. */
  predicate By(s: State, step: Step, q: nat)
    requires Shape(s)
  {
    InThread(s, step.c) && Me(s, step.c) == q
  }

  /** kfork's thread of p has q as its new child in hand. */
  predicate Makes(s: State, step: Step, q: nat)
    requires Shape(s)
  {
    InThread(s, step.c) && Child(MyPc(s, step.c)) == Some(q)
  }

  /** kwait finds q, a zombie child of its caller, and the copy of the exit status does not fail. */
  predicate Reaps(s: State, step: Step, q: nat)
    requires Shape(s) && q < NPROC
  {
    && step.ScanStep? && !step.copyFails && InThread(s, step.c) && MyPc(s, step.c).WaitScan? && MyPc(s, step.c).i == q
    && s.procs[q].state == ZOMBIE && s.procs[q].parent == Some(Me(s, step.c))
  }

  /** kfork gives up its new child q. */
  predicate Abandons(s: State, step: Step, q: nat)
    requires Shape(s)
  {
    step.ForkFail? && InThread(s, step.c) && MyPc(s, step.c) == ForkHeld(q)
  }

  /** reparent comes to q, a child of the process that exits. */
  predicate HandsOn(s: State, step: Step, q: nat)
    requires Shape(s) && q < NPROC
  {
    && step.ReparentStep? && InThread(s, step.c) && MyPc(s, step.c) == Reparent(q)
    && s.procs[q].parent == Some(Me(s, step.c))
  }

  /** Somebody wakes q: kkill, wakeup on the channel it sleeps on, or kexit or reparent on the channel kwait uses. */
  predicate Wakes(s: State, step: Step, q: nat)
    requires Shape(s) && q < NPROC
  {
    && s.procs[q].state == SLEEPING
    && (|| (step.Kill? && step.q == q)
        || (step.WakeOther? && step.q == q && s.procs[q].chan.OnOther?)
        || (step.WakeStep? && InThread(s, step.c) && MyPc(s, step.c).ReparentWake? && MyPc(s, step.c).j == q
            && Me(s, step.c) != q && s.procs[q].chan == OnProc(INIT))
        || (step.WakeParentStep? && InThread(s, step.c) && MyPc(s, step.c) == WakeParent(q) && Me(s, step.c) != q
            && s.procs[q].chan == ParentChan(s.procs[Me(s, step.c)])))
  }

  // ----- facts the laws need -----

  lemma Distinct(s: State, step: Step)
    requires Inv(s) && Enabled(s, step)
    ensures InThread(s, step.c) ==>
              && s.procs[Me(s, step.c)].state == RunState(MyPc(s, step.c)) != UNUSED
              && !MyPc(s, step.c).Nowhere? && MyPc(s, step.c) != Resumed(Exiting)
              && (Child(MyPc(s, step.c)).Some? ==>
                    var np := Child(MyPc(s, step.c)).v; np < NPROC && np != Me(s, step.c) && Unborn(s, np))
  {
    if InThread(s, step.c) {
      ThreadOk(s, step.c);
      hide Core, NoMissedChild, ParentAwake, ScanOk, Pids;
      assert Child(MyPc(s, step.c)).Some? ==> Unborn(s, Child(MyPc(s, step.c)).v);
    }
  }

  lemma PickParked(s: State, c: nat, p: nat)
    requires Inv(s) && Enabled(s, Dispatch(c, p))
    ensures s.procs[p].pc.Fresh? || (s.procs[p].pc.AtSched? && s.procs[p].pc != AtSched(Exiting))
  {
    RunnableParked(s, p);
  }

  // ----- one slot of the table -----

  /** Slot q after a step that the thread of p takes, where the step is not one of kfork. */
  function NextPlain(s: State, step: Step, q: nat): (v': Process)
    requires Shape(s) && q < NPROC && Enabled(s, step) && !Forks(step) && !Loops(step)
  {
    var v := s.procs[q];
    match step
    case Dispatch(c, p) => if p == q then v.(state := RUNNING, pc := ResumedPc(v.pc)) else v
    case Resume(c) => if Me(s, c) == q then AfterResume(v) else v
    case YieldUp(c) => if Me(s, c) == q then v.(state := RUNNABLE, pc := AtSched(Yielding(BackFrom(v.pc)))) else v
    case SleepOn(c, k) => if Me(s, c) == q then v.(state := SLEEPING, chan := OnOther(k), pc := AtSched(Dozing)) else v
    case WakeOther(c, x) => if x == q && v.chan.OnOther? then Woken(v, v.chan) else v
    case Kill(c, x) => if x == q then Woken(v, v.chan).(killed := true) else v
    case ExitBegin(c) => if Me(s, c) == q then v.(pc := Reparent(0)) else v
    case BecomeZombie(c) => if Me(s, c) == q then v.(state := ZOMBIE, pc := ExitUnlocking) else v
    case ExitUnlock(c) => if Me(s, c) == q then v.(pc := AtSched(Exiting)) else v
    case WaitBegin(c) => if Me(s, c) == q then v.(pc := WaitScan(0, false)) else v
    case SleepLock(c) => if Me(s, c) == q then v.(pc := WaitDoze) else v
    case Doze(c) => if Me(s, c) == q then v.(state := SLEEPING, chan := OnProc(q), pc := AtSched(Waiting)) else v
    case _ => v
  }

  lemma NextPlainIs(s: State, step: Step, q: nat)
    requires Shape(s) && q < NPROC && Enabled(s, step) && !Forks(step) && !Loops(step)
    ensures Apply(s, step).procs[q] == NextPlain(s, step, q)
  {
  }

  /** Slot q after a step of kfork. */
  function NextFork(s: State, step: Step, q: nat): (v': Process)
    requires Shape(s) && q < NPROC && Enabled(s, step) && Forks(step)
  {
    var v := s.procs[q];
    match step
    case ForkAlloc(c, np) =>
      if np == q then v.(state := USED, pid := s.nextPid, pc := Fresh)
      else if Me(s, c) == q then v.(pc := ForkHeld(np)) else v
    case ForkFail(c) => if MyPc(s, c).np == q then FREED else if Me(s, c) == q then v.(pc := User) else v
    case ForkRelease(c) => if Me(s, c) == q then v.(pc := ForkAdopting(MyPc(s, c).np)) else v
    case ForkAdopt(c) =>
      if MyPc(s, c).np == q then v.(parent := Some(Me(s, c)))
      else if Me(s, c) == q then v.(pc := ForkStarting(MyPc(s, c).np)) else v
    case ForkStart(c) =>
      if MyPc(s, c).np == q then v.(state := RUNNABLE) else if Me(s, c) == q then v.(pc := User) else v
    case _ => v
  }

  predicate Forks(step: Step) {
    step.ForkAlloc? || step.ForkFail? || step.ForkRelease? || step.ForkAdopt? || step.ForkStart?
  }

  lemma NextForkIs(s: State, step: Step, q: nat)
    requires Inv(s) && q < NPROC && Enabled(s, step) && Forks(step)
    ensures Apply(s, step).procs[q] == NextFork(s, step, q)
  {
    Distinct(s, step);
    hide Inv;
  }

  predicate Loops(step: Step) {
    step.ReparentStep? || step.WakeStep? || step.WakeParentStep? || step.ScanStep?
  }

  /** Slot q after a turn of one of the loops over the table. */
  function NextLoop(s: State, step: Step, q: nat): (v': Process)
    requires Shape(s) && q < NPROC && Enabled(s, step) && Loops(step)
  {
    var p, pc, v := Me(s, step.c), MyPc(s, step.c), s.procs[q];
    match step
    case ReparentStep(_) =>
      var v1 := if pc.i == q && v.parent == Some(p) then v.(parent := Some(INIT)) else v;
      if p != q then v1
      else if pc.i >= NPROC then v1.(pc := WakeParent(0))
      else v1.(pc := if s.procs[pc.i].parent == Some(p) then ReparentWake(pc.i, 0) else Reparent(pc.i + 1))
    case WakeStep(_) =>
      if p == q then v.(pc := if pc.j >= NPROC then Reparent(pc.i + 1) else ReparentWake(pc.i, pc.j + 1))
      else if pc.j == q then Woken(v, OnProc(INIT)) else v
    case WakeParentStep(_) =>
      if p == q then v.(pc := if pc.j >= NPROC then Zombify else WakeParent(pc.j + 1))
      else if pc.j == q then Woken(v, ParentChan(s.procs[p])) else v
    case ScanStep(_, copyFails) =>
      if pc.i == q && ZombieOf(v, p) && !copyFails then FREED
      else if p != q then v
      else if pc.i >= NPROC then v.(pc := if pc.kids && !v.killed then WaitSleep else User)
      else if ZombieOf(s.procs[pc.i], p) then v.(pc := User)
      else v.(pc := WaitScan(pc.i + 1, pc.kids || s.procs[pc.i].parent == Some(p)))
    case _ => v
  }

  lemma NextLoopIs(s: State, step: Step, q: nat)
    requires Shape(s) && q < NPROC && Enabled(s, step) && Loops(step)
    ensures Apply(s, step).procs[q] == NextLoop(s, step, q)
  {
  }

  /** Slot q after any step. */
  function Next(s: State, step: Step, q: nat): (v': Process)
    requires Shape(s) && q < NPROC && Enabled(s, step)
  {
    if Forks(step) then NextFork(s, step, q) else if Loops(step) then NextLoop(s, step, q) else NextPlain(s, step, q)
  }

  lemma NextIs(s: State, step: Step, q: nat)
    requires Inv(s) && q < NPROC && Enabled(s, step)
    ensures Apply(s, step).procs[q] == Next(s, step, q)
  {
    hide Apply, NextFork, NextLoop, NextPlain;
    if Forks(step) {
      NextForkIs(s, step, q);
    } else if Loops(step) {
      ShapeOf(s);
      NextLoopIs(s, step, q);
    } else {
      ShapeOf(s);
      NextPlainIs(s, step, q);
    }
  }

  // ----- the laws -----

  /** A process runs when the scheduler picks it, sleeps, yields and exits by itself, is runnable again when it
      is woken or when kfork has made it, and goes back to unused when it is reaped or given up. */
  predicate StateRule(s: State, step: Step, q: nat, v': Process)
    requires Shape(s) && q < NPROC
  {
    var st, st' := s.procs[q].state, v'.state;
    && (st' != st && st' == RUNNING <==> step.Dispatch? && step.p == q)
    && (st' != st && st' == SLEEPING <==> (step.SleepOn? || step.Doze?) && By(s, step, q))
    && (st' != st && st' == ZOMBIE <==> step.BecomeZombie? && By(s, step, q))
    && (st' != st && st' == RUNNABLE <==>
        (step.YieldUp? && By(s, step, q)) || (step.ForkStart? && Makes(s, step, q)) || Wakes(s, step, q))
    && (st' != st && st' == USED <==> step.ForkAlloc? && step.np == q)
    && (st' != st && st' == UNUSED <==> Reaps(s, step, q) || Abandons(s, step, q))
  }

  /** Where a sleeper waits: what it asked for, or itself in kwait. It stays there while it sleeps, and has left
      when it goes on. */
  predicate ChannelRule(s: State, step: Step, q: nat, v': Process)
    requires Shape(s) && q < NPROC
  {
    var v := s.procs[q];
    && (step.SleepOn? && By(s, step, q) ==> v'.chan == OnOther(step.k))
    && (step.Doze? && By(s, step, q) ==> v'.chan == OnProc(q))
    && (v.state == SLEEPING && v'.state == SLEEPING ==> v'.chan == v.chan)
    && (step.Resume? && By(s, step, q) && (v.pc == Resumed(Dozing) || v.pc == Resumed(Waiting)) ==> v'.chan == NoChan)
  }

  /** A process gets its maker as parent from kfork, init when that parent exits, and none when it is freed. */
  predicate ParentRule(s: State, step: Step, q: nat, v': Process)
    requires Shape(s) && q < NPROC
  {
    if step.ForkAdopt? && Makes(s, step, q) then v'.parent == Some(Me(s, step.c))
    else if HandsOn(s, step, q) then v'.parent == Some(INIT)
    else if Reaps(s, step, q) || Abandons(s, step, q) then v'.parent == None
    else v'.parent == s.procs[q].parent
  }

  /** kkill marks a process and kfork numbers it until it is freed, and then nothing is left of it. */
  predicate MarkRule(s: State, step: Step, q: nat, v': Process)
    requires Shape(s) && q < NPROC
  {
    var v, freed := s.procs[q], Reaps(s, step, q) || Abandons(s, step, q);
    && v'.killed == (if step.Kill? && step.q == q then true else if freed then false else v.killed)
    && v'.pid == (if step.ForkAlloc? && step.np == q then s.nextPid else if freed then 0 else v.pid)
    && (freed ==> v' == FREED)
  }

  /** The step moves on the thread that takes it. */
  predicate MovesOn(step: Step) {
    !(step.Dispatch? || step.Release? || step.SwitchOut? || step.WakeOther? || step.Kill?)
  }

  /** Where the thread of q goes from its present point, with the process table procs before it. */
  ghost predicate Flow(procs: seq<Process>, q: nat, step: Step, pc: Pc)
    requires |procs| == NPROC && q < NPROC
  {
    match procs[q].pc
    case Nowhere => false
    case Fresh => pc == User
    case User =>
      (match step
       case YieldUp(_) => pc == AtSched(Yielding(ToUser))
       case SleepOn(_, _) => pc == AtSched(Dozing)
       case ForkAlloc(_, np) => pc == ForkHeld(np)
       case ExitBegin(_) => pc == Reparent(0)
       case WaitBegin(_) => pc == WaitScan(0, false)
       case _ => false)
    case AtSched(_) => false
    case Resumed(k) =>
      (match k
       case Yielding(back) => Preemptible(pc) && BackFrom(pc) == back
       case Dozing => pc == User
       case Waiting => pc == WaitLocking
       case Exiting => false)
    case ForkHeld(np) => pc == if step.ForkFail? then User else ForkAdopting(np)
    case ForkAdopting(np) => pc == if step.YieldUp? then AtSched(Yielding(ToAdopt(np))) else ForkStarting(np)
    case ForkStarting(np) => pc == if step.YieldUp? then AtSched(Yielding(ToStart(np))) else User
    case Reparent(i) =>
      if i >= NPROC then pc == WakeParent(0)
      else pc == if procs[i].parent == Some(q) then ReparentWake(i, 0) else Reparent(i + 1)
    case ReparentWake(i, j) => pc == if j < NPROC then ReparentWake(i, j + 1) else Reparent(i + 1)
    case WakeParent(j) => pc == if j < NPROC then WakeParent(j + 1) else Zombify
    case Zombify => pc == ExitUnlocking
    case ExitUnlocking => pc == AtSched(Exiting)
    case WaitLocking => pc == if step.YieldUp? then AtSched(Yielding(ToWait)) else WaitScan(0, false)
    case WaitScan(i, kids) =>
      if i >= NPROC then pc == if kids && !procs[q].killed then WaitSleep else User
      else if ZombieOf(procs[i], q) then pc == User
      else pc == WaitScan(i + 1, kids || procs[i].parent == Some(q))
    case WaitSleep => pc == WaitDoze
    case WaitDoze => pc == AtSched(Waiting)
  }

  /** A thread goes on from where it was, whoever runs in between: only its own steps move it, apart from the
      scheduler's switch to it, and the making and freeing of its process. */
  ghost predicate ThreadRule(s: State, step: Step, q: nat, v': Process)
    requires Shape(s) && q < NPROC
  {
    var v := s.procs[q];
    if By(s, step, q) && MovesOn(step) then Flow(s.procs, q, step, v'.pc)
    else if step.Dispatch? && step.p == q then
      (v.pc.Fresh? && v'.pc == Fresh) || (v.pc.AtSched? && v.pc.k != Exiting && v'.pc == Resumed(v.pc.k))
    else if step.ForkAlloc? && step.np == q then v.pc == Nowhere && v'.pc == Fresh
    else if Abandons(s, step, q) then v.pc == Fresh && v'.pc == Nowhere
    else if Reaps(s, step, q) then v.pc == AtSched(Exiting) && v'.pc == Nowhere
    else v'.pc == v.pc
  }

  lemma StatePlain(s: State, step: Step, q: nat)
    requires Inv(s) && Enabled(s, step) && q < NPROC && !Forks(step) && !Loops(step)
    ensures StateRule(s, step, q, NextPlain(s, step, q))
  {
    hide Inv;
    Distinct(s, step);
  }

  lemma StateFork(s: State, step: Step, q: nat)
    requires Inv(s) && Enabled(s, step) && q < NPROC && Forks(step)
    ensures StateRule(s, step, q, NextFork(s, step, q))
  {
    hide Inv;
    Distinct(s, step);
  }

  lemma StateLoop(s: State, step: Step, q: nat)
    requires Inv(s) && Enabled(s, step) && q < NPROC && Loops(step)
    ensures StateRule(s, step, q, NextLoop(s, step, q))
  {
    hide Inv;
    Distinct(s, step);
  }

  lemma ChannelPlain(s: State, step: Step, q: nat)
    requires Inv(s) && Enabled(s, step) && q < NPROC && !Forks(step) && !Loops(step)
    ensures ChannelRule(s, step, q, NextPlain(s, step, q))
  {
    hide Inv;
    Distinct(s, step);
  }

  lemma ChannelFork(s: State, step: Step, q: nat)
    requires Inv(s) && Enabled(s, step) && q < NPROC && Forks(step)
    ensures ChannelRule(s, step, q, NextFork(s, step, q))
  {
    hide Inv;
    Distinct(s, step);
  }

  lemma ChannelLoop(s: State, step: Step, q: nat)
    requires Inv(s) && Enabled(s, step) && q < NPROC && Loops(step)
    ensures ChannelRule(s, step, q, NextLoop(s, step, q))
  {
    hide Inv;
    Distinct(s, step);
  }

  lemma ParentPlain(s: State, step: Step, q: nat)
    requires Inv(s) && Enabled(s, step) && q < NPROC && !Forks(step) && !Loops(step)
    ensures ParentRule(s, step, q, NextPlain(s, step, q))
  {
    hide Inv;
    Distinct(s, step);
  }

  lemma ParentFork(s: State, step: Step, q: nat)
    requires Inv(s) && Enabled(s, step) && q < NPROC && Forks(step)
    ensures ParentRule(s, step, q, NextFork(s, step, q))
  {
    hide Inv;
    Distinct(s, step);
  }

  lemma ParentLoop(s: State, step: Step, q: nat)
    requires Inv(s) && Enabled(s, step) && q < NPROC && Loops(step)
    ensures ParentRule(s, step, q, NextLoop(s, step, q))
  {
    hide Inv;
    Distinct(s, step);
  }

  lemma MarkPlain(s: State, step: Step, q: nat)
    requires Inv(s) && Enabled(s, step) && q < NPROC && !Forks(step) && !Loops(step)
    ensures MarkRule(s, step, q, NextPlain(s, step, q))
  {
    hide Inv;
    Distinct(s, step);
  }

  lemma MarkFork(s: State, step: Step, q: nat)
    requires Inv(s) && Enabled(s, step) && q < NPROC && Forks(step)
    ensures MarkRule(s, step, q, NextFork(s, step, q))
  {
    hide Inv;
    Distinct(s, step);
  }

  lemma MarkLoop(s: State, step: Step, q: nat)
    requires Inv(s) && Enabled(s, step) && q < NPROC && Loops(step)
    ensures MarkRule(s, step, q, NextLoop(s, step, q))
  {
    hide Inv;
    Distinct(s, step);
  }

  lemma ThreadPlain(s: State, step: Step, q: nat)
    requires Inv(s) && Enabled(s, step) && q < NPROC && !Forks(step) && !Loops(step)
    ensures ThreadRule(s, step, q, NextPlain(s, step, q))
  {
    hide Inv;
    Distinct(s, step);
    if step.Dispatch? {
      PickParked(s, step.c, step.p);
    }
  }

  lemma ThreadFork(s: State, step: Step, q: nat)
    requires Inv(s) && Enabled(s, step) && q < NPROC && Forks(step)
    ensures ThreadRule(s, step, q, NextFork(s, step, q))
  {
    hide Inv;
    Distinct(s, step);
    if step.ForkAlloc? {
      UnusedNowhere(s, step.np);
    }
  }

  lemma ThreadLoop(s: State, step: Step, q: nat)
    requires Inv(s) && Enabled(s, step) && q < NPROC && Loops(step)
    ensures ThreadRule(s, step, q, NextLoop(s, step, q))
  {
    hide Inv;
    Distinct(s, step);
    if Reaps(s, step, q) {
      ZombieGone(s, q);
    }
  }

  /** What every step does to every process. */
  lemma StepLaws(s: State, step: Step, q: nat)
    requires Inv(s) && Enabled(s, step) && q < NPROC
    ensures var v' := Apply(s, step).procs[q];
            && StateRule(s, step, q, v') && ChannelRule(s, step, q, v') && ParentRule(s, step, q, v')
            && MarkRule(s, step, q, v') && ThreadRule(s, step, q, v')
  {
    hide Inv, Apply, Enabled, NextFork, NextLoop, NextPlain, StateRule, ChannelRule, ParentRule, MarkRule, ThreadRule;
    ShapeOf(s);
    NextIs(s, step, q);
    if Forks(step) {
      StateFork(s, step, q);
      ChannelFork(s, step, q);
      ParentFork(s, step, q);
      MarkFork(s, step, q);
      ThreadFork(s, step, q);
    } else if Loops(step) {
      StateLoop(s, step, q);
      ChannelLoop(s, step, q);
      ParentLoop(s, step, q);
      MarkLoop(s, step, q);
      ThreadLoop(s, step, q);
    } else {
      StatePlain(s, step, q);
      ChannelPlain(s, step, q);
      ParentPlain(s, step, q);
      MarkPlain(s, step, q);
      ThreadPlain(s, step, q);
    }
  }

  /** The tallies: new numbers, exits and reaped children. */
  lemma TallyLaw(s: State, step: Step, q: nat)
    requires Inv(s) && Enabled(s, step) && q < NPROC
    ensures var s' := Apply(s, step);
            && s'.nextPid == (if step.ForkAlloc? then s.nextPid + 1 else s.nextPid)
            && s'.exited == (if step.BecomeZombie? then s.exited + {s.procs[Me(s, step.c)].pid} else s.exited)
            && (Reaps(s, step, q) ==> s'.reaped == s.reaped + [s.procs[q].pid])
            && (s'.reaped != s.reaped ==> exists x :: 0 <= x < NPROC && Reaps(s, step, x))
  {
    hide Inv, Enabled, Apply;
    ShapeOf(s);
    if step.ScanStep? {
      ScanTally(s, step.c, step.copyFails, q);
    } else {
      OtherTally(s, step);
    }
  }

  lemma OtherTally(s: State, step: Step)
    requires Shape(s) && Enabled(s, step) && !step.ScanStep?
    ensures var s' := Apply(s, step);
            && s'.nextPid == (if step.ForkAlloc? then s.nextPid + 1 else s.nextPid)
            && s'.exited == (if step.BecomeZombie? then s.exited + {s.procs[Me(s, step.c)].pid} else s.exited)
            && s'.reaped == s.reaped
  {
  }

  lemma ScanTally(s: State, c: nat, copyFails: bool, q: nat)
    requires Shape(s) && Enabled(s, ScanStep(c, copyFails)) && q < NPROC
    ensures var step := ScanStep(c, copyFails);
            var s' := Apply(s, step);
            && s'.nextPid == s.nextPid && s'.exited == s.exited
            && (Reaps(s, step, q) ==> s'.reaped == s.reaped + [s.procs[q].pid])
            && (s'.reaped != s.reaped ==> MyPc(s, c).i < NPROC && Reaps(s, step, MyPc(s, c).i))
  {
  }

  lemma UnusedNowhere(s: State, q: nat)
    requires Inv(s) && q < NPROC && s.procs[q].state == UNUSED
    ensures s.procs[q].pc == Nowhere
  {
    UnbornParked(s, q);
  }
}
