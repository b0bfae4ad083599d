/** Parents and children over whole runs: who they are, what kwait makes of them, and what exit leaves. */
module ProcFamily {
  import opened Proc
  import opened ProcInvariant
  import opened ProcProofs
  import opened ProcLaws
  import opened ProcTheorems

  /** One of the slots below i has p as its parent. */
  ghost predicate HasKid(procs: seq<Process>, p: nat, i: nat) {
    exists q :: 0 <= q < i && q < |procs| && procs[q].parent == Some(p)
  }

  // ----- the invariant -----

  /** The child that kfork has not given its parent yet. */
  function Unadopted(pc: Pc): (np: Opt) {
    match pc
    case ForkHeld(np) => Some(np)
    case ForkAdopting(np) => Some(np)
    case AtSched(Yielding(ToAdopt(np))) => Some(np)
    case Resumed(Yielding(ToAdopt(np))) => Some(np)
    case _ => None
  }

  /** The child that has its parent, and is yet to start. */
  function Adopted(pc: Pc): (np: Opt) {
    match pc
    case ForkStarting(np) => Some(np)
    case AtSched(Yielding(ToStart(np))) => Some(np)
    case Resumed(Yielding(ToStart(np))) => Some(np)
    case _ => None
  }

  ghost predicate ForkKin(procs: seq<Process>, p: nat)
    requires p < |procs|
  {
    && (Unadopted(procs[p].pc).Some? ==>
          Unadopted(procs[p].pc).v < |procs| && procs[Unadopted(procs[p].pc).v].parent == None)
    && (Adopted(procs[p].pc).Some? ==>
          Adopted(procs[p].pc).v < |procs| && procs[Adopted(procs[p].pc).v].parent == Some(p))
  }

  /** kwait's flag says whether it has come across a child. */
  ghost predicate ScanKin(procs: seq<Process>, p: nat)
    requires p < |procs|
  {
    && (procs[p].pc.WaitScan? ==> (procs[p].pc.kids <==> HasKid(procs, p, procs[p].pc.i)))
    && (procs[p].pc.WaitSleep? ==> HasKid(procs, p, NPROC))
  }

  /** The slots below this have been seen to when a process exits: none is its child. Nor has a process
      children that has not run yet. */
  function Rid(pc: Pc): (n: nat) {
    match pc
    case Reparent(i) => i
    case ReparentWake(i, _) => i + 1
    case WakeParent(_) => NPROC
    case Zombify => NPROC
    case ExitUnlocking => NPROC
    case AtSched(Exiting) => NPROC
    case Nowhere => NPROC
    case Fresh => NPROC
    case _ => 0
  }

  ghost predicate ExitKin(procs: seq<Process>, p: nat)
    requires p < |procs|
  {
    p != INIT ==> !HasKid(procs, p, Rid(procs[p].pc))
  }

  predicate Started(st: PState) {
    st != UNUSED && st != USED
  }

  /** A free slot has no parent; a process that has started has one, unless it is init; a parent is a slot. */
  ghost predicate OwnKin(procs: seq<Process>, p: nat)
    requires p < |procs|
  {
    && (procs[p].pc == Nowhere ==> procs[p].parent == None) && (procs[p].parent.Some? ==> procs[p].parent.v < NPROC)
    && (p != INIT && Started(procs[p].state) ==> procs[p].parent.Some?)
  }

  ghost predicate Family(s: State) {
    forall p :: 0 <= p < |s.procs| ==>
      ForkKin(s.procs, p) && ScanKin(s.procs, p) && ExitKin(s.procs, p) && OwnKin(s.procs, p)
  }

  // ----- what a step does to it -----

  /** The step obeys the laws for slot q. */
  ghost predicate Lawful(s: State, step: Step, s': State, q: nat)
    requires Shape(s) && Shape(s') && q < NPROC
  {
    StateRule(s, step, q, s'.procs[q]) && ParentRule(s, step, q, s'.procs[q]) && ThreadRule(s, step, q, s'.procs[q])
  }

  /** A lawful step from a state where all is well. */
  ghost predicate Goes(s: State, step: Step, s': State) {
    && Inv(s) && Enabled(s, step) && Shape(s') && Family(s)
    && forall q :: 0 <= q < NPROC ==> Lawful(s, step, s', q)
  }

  predicate Moves(s: State, step: Step, p: nat)
    requires Shape(s)
  {
    By(s, step, p) && MovesOn(step)
  }

  lemma GoesAt(s: State, step: Step, s': State, q: nat)
    requires Goes(s, step, s') && q < NPROC
    ensures Shape(s) && ForkKin(s.procs, q) && ScanKin(s.procs, q) && ExitKin(s.procs, q) && OwnKin(s.procs, q)
    ensures ParentRule(s, step, q, s'.procs[q]) && StateRule(s, step, q, s'.procs[q])
    ensures ThreadRule(s, step, q, s'.procs[q])
    ensures InThread(s, step.c) ==>
              && s.procs[Me(s, step.c)].state == RunState(MyPc(s, step.c)) != UNUSED
              && (Child(MyPc(s, step.c)).Some? ==>
                    var np := Child(MyPc(s, step.c)).v; np < NPROC && np != Me(s, step.c) && Unborn(s, np))
  {
    ShapeOf(s);
    Distinct(s, step);
    hide Inv, Enabled;
    assert Lawful(s, step, s', q);
  }

  lemma GoesEnabled(s: State, step: Step, s': State)
    requires Goes(s, step, s')
    ensures Shape(s) && Enabled(s, step)
  {
    ShapeOf(s);
  }

  /** No child has two makers. */
  lemma OneMaker(s: State, step: Step, s': State, p: nat, np: nat)
    requires Goes(s, step, s') && p < NPROC && Child(s.procs[p].pc) == Some(np)
    ensures Shape(s) && (Makes(s, step, np) ==> By(s, step, p)) && Unborn(s, np)
  {
    ShapeOf(s);
    assert ForksOk(s);
    hide Inv, Enabled, Family, Lawful, Child, Unborn;
  }

  /** Only the thread that moves on changes who is whose child, and it gives children to none but init. */
  lemma SameChild(s: State, step: Step, s': State, p: nat, q: nat)
    requires Goes(s, step, s') && p < NPROC && q < NPROC && Shape(s)
    requires !Moves(s, step, p) && (p == INIT ==> !step.ReparentStep?)
    ensures s'.procs[q].parent == Some(p) <==> s.procs[q].parent == Some(p)
  {
    hide Goes, StateRule, ThreadRule, ScanKin, ExitKin, OwnKin;
    GoesAt(s, step, s', q);
    GoesEnabled(s, step, s');
    if InThread(s, step.c) {
      GoesAt(s, step, s', Me(s, step.c));
    }
    hide Enabled, ForkKin;
    if step.ForkAdopt? && Makes(s, step, q) {
      AdoptsNone(s, step, s', q);
    } else if Abandons(s, step, q) {
      AbandonsNone(s, step, s', q);
    }
  }

  lemma AdoptsNone(s: State, step: Step, s': State, q: nat)
    requires Goes(s, step, s') && Shape(s) && step.ForkAdopt? && Makes(s, step, q)
    ensures q < NPROC && s.procs[q].parent == None
  {
    hide Goes, StateRule, ThreadRule, ParentRule, ScanKin, ExitKin, OwnKin;
    GoesEnabled(s, step, s');
    GoesAt(s, step, s', Me(s, step.c));
  }

  lemma AbandonsNone(s: State, step: Step, s': State, q: nat)
    requires Goes(s, step, s') && Shape(s) && Abandons(s, step, q)
    ensures q < NPROC && s.procs[q].parent == None
  {
    hide Goes, StateRule, ThreadRule, ParentRule, ScanKin, ExitKin, OwnKin;
    GoesAt(s, step, s', Me(s, step.c));
  }

  lemma SameKids(s: State, step: Step, s': State, p: nat, i: nat)
    requires Goes(s, step, s') && p < NPROC && Shape(s)
    requires !Moves(s, step, p) && (p == INIT ==> !step.ReparentStep?)
    ensures HasKid(s'.procs, p, i) <==> HasKid(s.procs, p, i)
  {
    SameLength(s, step, s');
    hide Goes, Moves;
    forall q | 0 <= q < NPROC
      ensures s'.procs[q].parent == Some(p) <==> s.procs[q].parent == Some(p)
    {
      SameChild(s, step, s', p, q);
    }
  }

  lemma SameLength(s: State, step: Step, s': State)
    requires Goes(s, step, s')
    ensures Shape(s) && Shape(s') && |s.procs| == |s'.procs| == NPROC
  {
    ShapeOf(s);
  }

  // ----- a thread that does not move -----

  /** To a thread that does not move on, its point means what it did. */
  lemma QuietPc(s: State, step: Step, s': State, p: nat)
    requires Goes(s, step, s') && p < NPROC && Shape(s) && !Moves(s, step, p)
    ensures var pc, pc' := s.procs[p].pc, s'.procs[p].pc;
            && Unadopted(pc') == Unadopted(pc) && Adopted(pc') == Adopted(pc) && Rid(pc') == Rid(pc)
            && (pc'.WaitScan? || pc'.WaitSleep? ==> pc' == pc)
  {
    hide Goes, StateRule, ParentRule, ForkKin, ScanKin, ExitKin, OwnKin, Flow;
    GoesAt(s, step, s', p);
  }

  lemma QuietFork(s: State, step: Step, s': State, p: nat)
    requires Goes(s, step, s') && p < NPROC && Shape(s) && !Moves(s, step, p)
    ensures ForkKin(s'.procs, p)
  {
    SameLength(s, step, s');
    QuietPc(s, step, s', p);
    var pc := s.procs[p].pc;
    if Unadopted(pc).Some? || Adopted(pc).Some? {
      assert Child(pc) == if Unadopted(pc).Some? then Unadopted(pc) else Adopted(pc);
      ChildKept(s, step, s', p, Child(pc).v);
    }
    hide Goes, StateRule, ThreadRule, ParentRule, ScanKin, ExitKin, OwnKin;
    GoesAt(s, step, s', p);
  }

  lemma ChildKept(s: State, step: Step, s': State, p: nat, np: nat)
    requires Goes(s, step, s') && p < NPROC && Shape(s) && !Moves(s, step, p) && Child(s.procs[p].pc) == Some(np)
    ensures np < NPROC
    ensures s.procs[np].parent == None || s.procs[np].parent == Some(p) ==> s'.procs[np].parent == s.procs[np].parent
  {
    hide Goes, StateRule, ThreadRule, ForkKin, ScanKin, ExitKin, OwnKin;
    OneMaker(s, step, s', p, np);
    GoesAt(s, step, s', np);
    GoesEnabled(s, step, s');
  }

  lemma QuietScan(s: State, step: Step, s': State, p: nat)
    requires Goes(s, step, s') && p < NPROC && Shape(s) && !Moves(s, step, p)
    ensures ScanKin(s'.procs, p)
  {
    QuietPc(s, step, s', p);
    SameLength(s, step, s');
    var pc := s.procs[p].pc;
    if s'.procs[p].pc.WaitScan? || s'.procs[p].pc.WaitSleep? {
      ScannerAlone(s, step, s', p);
      SameKids(s, step, s', p, if pc.WaitScan? then pc.i else NPROC);
    }
    hide Goes, StateRule, ThreadRule, ParentRule, ForkKin, ExitKin, OwnKin, HasKid;
    GoesAt(s, step, s', p);
  }

  /** While one thread scans for children no other reparents. */
  lemma ScannerAlone(s: State, step: Step, s': State, p: nat)
    requires Goes(s, step, s') && p < NPROC && Shape(s) && !Moves(s, step, p)
    requires s.procs[p].pc.WaitScan? || s.procs[p].pc.WaitSleep?
    ensures !step.ReparentStep?
  {
    hide Family, Lawful;
    if step.ReparentStep? {
      OneWaiter(s, p, Me(s, step.c));
    }
  }

  lemma QuietExit(s: State, step: Step, s': State, p: nat)
    requires Goes(s, step, s') && p < NPROC && Shape(s) && !Moves(s, step, p)
    ensures ExitKin(s'.procs, p)
  {
    QuietPc(s, step, s', p);
    SameLength(s, step, s');
    if p != INIT {
      SameKids(s, step, s', p, Rid(s.procs[p].pc));
    }
    hide Goes, StateRule, ThreadRule, ParentRule, ForkKin, ScanKin, OwnKin, HasKid;
    GoesAt(s, step, s', p);
  }

  // ----- a thread that moves -----

  /** Where a child in the making comes from. */
  lemma FlowFork(procs: seq<Process>, q: nat, step: Step, pc': Pc)
    requires |procs| == NPROC && q < NPROC && Flow(procs, q, step, pc')
    ensures var pc := procs[q].pc;
            && (Unadopted(pc').Some? ==>
                  (pc.User? && step.ForkAlloc? && Unadopted(pc') == Some(step.np))
                  || (Unadopted(pc') == Unadopted(pc) && pc != pc' && Child(pc) == Unadopted(pc)))
            && (Adopted(pc').Some? ==>
                  Child(pc) == Adopted(pc')
                  && (Adopted(pc) == Adopted(pc') || (pc == ForkAdopting(Adopted(pc').v) && pc'.ForkStarting?)))
  {
  }

  lemma MovingFork(s: State, step: Step, s': State, p: nat)
    requires Goes(s, step, s') && p < NPROC && Shape(s) && Moves(s, step, p)
    ensures ForkKin(s'.procs, p)
  {
    SameLength(s, step, s');
    hide Goes, StateRule, ParentRule, ScanKin, ExitKin, OwnKin, Flow;
    GoesAt(s, step, s', p);
    var pc, pc' := s.procs[p].pc, s'.procs[p].pc;
    FlowFork(s.procs, p, step, pc');
    if Unadopted(pc').Some? {
      if pc.User? {
        AllocKin(s, step, s', p);
      } else {
        HeldKin(s, step, s', p, Unadopted(pc').v);
      }
    } else if Adopted(pc').Some? {
      HeldKin(s, step, s', p, Adopted(pc').v);
    }
  }

  lemma AllocKin(s: State, step: Step, s': State, p: nat)
    requires Goes(s, step, s') && p < NPROC && Shape(s) && Moves(s, step, p) && step.ForkAlloc?
    ensures step.np < NPROC && s'.procs[step.np].parent == None
  {
    GoesEnabled(s, step, s');
    hide Goes, StateRule, ScanKin, ExitKin, ForkKin, Flow;
    GoesAt(s, step, s', step.np);
    GoesAt(s, step, s', p);
  }

  /** kfork's child, as its maker moves on. */
  lemma HeldKin(s: State, step: Step, s': State, p: nat, np: nat)
    requires Goes(s, step, s') && p < NPROC && Shape(s) && Moves(s, step, p) && Child(s.procs[p].pc) == Some(np)
    ensures np < NPROC
    ensures Unadopted(s'.procs[p].pc).Some? && Unadopted(s.procs[p].pc) == Some(np) ==> s'.procs[np].parent == None
    ensures Adopted(s'.procs[p].pc).Some? ==> s'.procs[np].parent == Some(p)
  {
    hide Goes, StateRule, ParentRule, ScanKin, ExitKin, OwnKin, Enabled, Unborn;
    GoesAt(s, step, s', p);
    HeldParent(s, step, s', p, np);
  }

  lemma HeldParent(s: State, step: Step, s': State, p: nat, np: nat)
    requires Goes(s, step, s') && p < NPROC && Shape(s) && Moves(s, step, p) && Child(s.procs[p].pc) == Some(np)
    ensures np < NPROC && (step.ForkFail? ==> s.procs[p].pc.ForkHeld?)
    ensures s.procs[p].pc == ForkAdopting(np) && !step.YieldUp? ==> s'.procs[np].parent == Some(p)
    ensures !(s.procs[p].pc == ForkAdopting(np) && !step.YieldUp?) && !step.ForkFail? ==>
              s'.procs[np].parent == s.procs[np].parent
  {
    GoesEnabled(s, step, s');
    hide Goes, StateRule, ThreadRule, ForkKin, ScanKin, ExitKin, OwnKin;
    GoesAt(s, step, s', np);
  }

  /** Where a scan comes from. */
  lemma FlowScan(procs: seq<Process>, q: nat, step: Step, pc': Pc)
    requires |procs| == NPROC && q < NPROC && Flow(procs, q, step, pc')
    ensures pc'.WaitSleep? ==> procs[q].pc.WaitScan? && procs[q].pc.i >= NPROC && procs[q].pc.kids
    ensures pc'.WaitScan? ==>
              || pc' == WaitScan(0, false)
              || (procs[q].pc.WaitScan? && procs[q].pc.i < NPROC
                  && pc' == WaitScan(procs[q].pc.i + 1, procs[q].pc.kids || procs[procs[q].pc.i].parent == Some(q)))
  {
  }

  lemma MovingScan(s: State, step: Step, s': State, p: nat)
    requires Goes(s, step, s') && p < NPROC && Shape(s) && Moves(s, step, p)
    ensures ScanKin(s'.procs, p)
  {
    SameLength(s, step, s');
    hide Goes, StateRule, ParentRule, ForkKin, ExitKin, OwnKin, HasKid, Flow;
    GoesAt(s, step, s', p);
    var pc, pc' := s.procs[p].pc, s'.procs[p].pc;
    FlowScan(s.procs, p, step, pc');
    NoneBelow(s'.procs, p);
    if pc.WaitScan? && !pc'.User? {
      ScanParents(s, step, s', p);
      KidsMore(s.procs, s'.procs, p, pc.i);
    }
  }

  lemma NoneBelow(procs: seq<Process>, p: nat)
    ensures !HasKid(procs, p, 0)
  {
  }

  /** A turn of kwait's loop that finds no zombie changes no parent. */
  lemma ScanParents(s: State, step: Step, s': State, p: nat)
    requires Goes(s, step, s') && p < NPROC && Shape(s) && Moves(s, step, p)
    requires s.procs[p].pc.WaitScan? && !s'.procs[p].pc.User?
    ensures |s'.procs| == NPROC && forall q :: 0 <= q < NPROC ==> s'.procs[q].parent == s.procs[q].parent
  {
    SameLength(s, step, s');
    GoesEnabled(s, step, s');
    hide Goes, StateRule, ForkKin, ScanKin, ExitKin, OwnKin;
    GoesAt(s, step, s', p);
    forall q | 0 <= q < NPROC
      ensures s'.procs[q].parent == s.procs[q].parent
    {
      GoesAt(s, step, s', q);
    }
  }

  lemma KidsMore(procs: seq<Process>, procs': seq<Process>, p: nat, i: nat)
    requires |procs| == |procs'| == NPROC && forall q :: 0 <= q < NPROC ==> procs'[q].parent == procs[q].parent
    ensures i < NPROC ==> (HasKid(procs', p, i + 1) <==> HasKid(procs, p, i) || procs[i].parent == Some(p))
    ensures i >= NPROC ==> (HasKid(procs', p, NPROC) <==> HasKid(procs, p, i))
  {
  }

  /** How many slots an exiting thread has seen to. */
  lemma FlowRid(procs: seq<Process>, q: nat, step: Step, pc': Pc)
    requires |procs| == NPROC && q < NPROC && Flow(procs, q, step, pc')
    ensures var pc := procs[q].pc;
            || Rid(pc') == 0
            || (pc.Reparent? && pc.i < NPROC && Rid(pc') == pc.i + 1)
            || Rid(pc') == Rid(pc)
            || (pc.Reparent? && pc.i >= NPROC && Rid(pc') == NPROC)
  {
  }

  lemma MovingExit(s: State, step: Step, s': State, p: nat)
    requires Goes(s, step, s') && p < NPROC && Shape(s) && Moves(s, step, p)
    ensures ExitKin(s'.procs, p)
  {
    SameLength(s, step, s');
    hide Goes, StateRule, ParentRule, ForkKin, ScanKin, OwnKin, Flow, HasKid;
    GoesAt(s, step, s', p);
    var pc, pc' := s.procs[p].pc, s'.procs[p].pc;
    FlowRid(s.procs, p, step, pc');
    NoneBelow(s'.procs, p);
    if p != INIT && Rid(pc') > 0 {
      FewerKids(s, step, s', p);
      RidKids(s.procs, s'.procs, p, Rid(pc), Rid(pc'));
    }
  }

  /** An exiting thread loses children and gains none, and loses the one at hand. */
  lemma FewerKids(s: State, step: Step, s': State, p: nat)
    requires Goes(s, step, s') && p < NPROC && Shape(s) && Moves(s, step, p) && p != INIT && Rid(s'.procs[p].pc) > 0
    ensures |s'.procs| == NPROC && forall q :: 0 <= q < NPROC && s'.procs[q].parent == Some(p) ==>
              s.procs[q].parent == Some(p) && s.procs[p].pc != Reparent(q)
  {
    SameLength(s, step, s');
    hide Goes, StateRule, ForkKin, ScanKin, ExitKin, OwnKin;
    GoesEnabled(s, step, s');
    GoesAt(s, step, s', p);
    forall q | 0 <= q < NPROC && s'.procs[q].parent == Some(p)
      ensures s.procs[q].parent == Some(p) && s.procs[p].pc != Reparent(q)
    {
      ExitingChild(s, step, s', p, q);
    }
  }

  lemma ExitingChild(s: State, step: Step, s': State, p: nat, q: nat)
    requires Goes(s, step, s') && p < NPROC && q < NPROC && Shape(s) && Moves(s, step, p) && p != INIT
    requires Rid(s'.procs[p].pc) > 0 && s'.procs[q].parent == Some(p)
    ensures s.procs[q].parent == Some(p) && s.procs[p].pc != Reparent(q)
  {
    hide Goes, StateRule, ForkKin, ScanKin, ExitKin, OwnKin;
    GoesEnabled(s, step, s');
    GoesAt(s, step, s', p);
    GoesAt(s, step, s', q);
  }

  lemma RidKids(procs: seq<Process>, procs': seq<Process>, p: nat, r: nat, r': nat)
    requires |procs| == |procs'| == NPROC && p < NPROC && !HasKid(procs, p, r) && r == Rid(procs[p].pc)
    requires forall q :: 0 <= q < NPROC && procs'[q].parent == Some(p) ==>
               procs[q].parent == Some(p) && procs[p].pc != Reparent(q)
    requires || r' == r || (procs[p].pc.Reparent? && r < NPROC && r' == r + 1)
             || (procs[p].pc.Reparent? && r >= NPROC && r' == NPROC)
    ensures !HasKid(procs', p, r')
  {
  }

  // ----- every slot -----

  lemma OwnKept(s: State, step: Step, s': State, p: nat)
    requires Goes(s, step, s') && p < NPROC && Shape(s)
    ensures |s'.procs| == NPROC && OwnKin(s'.procs, p)
  {
    SameLength(s, step, s');
    hide Goes;
    SlotKept(s, step, s', p);
    if s'.procs[p].pc == Nowhere {
      FreeKept(s, step, s', p);
    }
    if p != INIT && Started(s'.procs[p].state) {
      StartedKept(s, step, s', p);
    }
  }

  lemma SlotKept(s: State, step: Step, s': State, p: nat)
    requires Goes(s, step, s') && p < NPROC && Shape(s) && |s'.procs| == NPROC
    ensures s'.procs[p].parent.Some? ==> s'.procs[p].parent.v < NPROC
  {
    hide Goes, StateRule, ThreadRule, ScanKin, ExitKin, ForkKin, Enabled;
    GoesAt(s, step, s', p);
  }

  lemma FlowSomewhere(procs: seq<Process>, q: nat, step: Step, pc': Pc)
    requires |procs| == NPROC && q < NPROC && Flow(procs, q, step, pc')
    ensures pc' != Nowhere
  {
  }

  lemma FreeKept(s: State, step: Step, s': State, p: nat)
    requires Goes(s, step, s') && p < NPROC && Shape(s) && |s'.procs| == NPROC && s'.procs[p].pc == Nowhere
    ensures s'.procs[p].parent == None
  {
    hide Goes, StateRule, ScanKin, ExitKin, ForkKin, Flow, Enabled;
    GoesAt(s, step, s', p);
    if Moves(s, step, p) {
      FlowSomewhere(s.procs, p, step, s'.procs[p].pc);
    }
    if Makes(s, step, p) {
      MakerKin(s, step, s', p);
    }
  }

  lemma StartedKept(s: State, step: Step, s': State, p: nat)
    requires Goes(s, step, s') && p < NPROC && Shape(s) && |s'.procs| == NPROC
    requires p != INIT && Started(s'.procs[p].state)
    ensures s'.procs[p].parent.Some?
  {
    hide Goes, ThreadRule, ScanKin, ExitKin, ForkKin, Enabled;
    GoesAt(s, step, s', p);
    PickStarted(s, step, s');
    if Makes(s, step, p) {
      MakerKin(s, step, s', p);
    }
  }

  lemma PickStarted(s: State, step: Step, s': State)
    requires Goes(s, step, s')
    ensures Shape(s) && (step.Dispatch? ==> step.p < NPROC && s.procs[step.p].state == RUNNABLE)
  {
    ShapeOf(s);
    hide Inv, Family, Lawful;
  }

  lemma MakerKin(s: State, step: Step, s': State, np: nat)
    requires Goes(s, step, s') && Shape(s) && Makes(s, step, np)
    ensures np < NPROC && Unborn(s, np) && (step.ForkStart? ==> s.procs[np].parent.Some?)
  {
    GoesEnabled(s, step, s');
    hide Goes, StateRule, ParentRule, ThreadRule, ScanKin, ExitKin, OwnKin;
    GoesAt(s, step, s', Me(s, step.c));
  }

  lemma FamilyGoes(s: State, step: Step, s': State)
    requires Goes(s, step, s')
    ensures Family(s')
  {
    SameLength(s, step, s');
    hide Goes, Moves, ForkKin, ScanKin, ExitKin, OwnKin;
    forall p | 0 <= p < NPROC
      ensures ForkKin(s'.procs, p) && ScanKin(s'.procs, p) && ExitKin(s'.procs, p) && OwnKin(s'.procs, p)
    {
      OwnKept(s, step, s', p);
      if Moves(s, step, p) {
        MovingFork(s, step, s', p);
        MovingScan(s, step, s', p);
        MovingExit(s, step, s', p);
      } else {
        QuietFork(s, step, s', p);
        QuietScan(s, step, s', p);
        QuietExit(s, step, s', p);
      }
    }
  }

  lemma FamilyStep(s: State, step: Step)
    requires Inv(s) && Enabled(s, step) && Family(s)
    ensures Family(Apply(s, step))
  {
    hide Inv, Enabled, Apply, Family, StateRule, ParentRule, ThreadRule, ChannelRule, MarkRule;
    ShapeOf(s);
    forall q | 0 <= q < NPROC
      ensures Lawful(s, step, Apply(s, step), q)
    {
      StepLaws(s, step, q);
    }
    FamilyGoes(s, step, Apply(s, step));
  }

  lemma InitialFamily(s: State)
    requires Initial(s)
    ensures Family(s)
  {
    forall p | 0 <= p < NPROC
      ensures ForkKin(s.procs, p) && ScanKin(s.procs, p) && ExitKin(s.procs, p) && OwnKin(s.procs, p)
    {
      assert forall q :: 0 <= q < NPROC ==> s.procs[q].parent == None;
    }
  }

  lemma {:induction false} RunFamily(ss: seq<State>, steps: seq<Step>, n: nat)
    requires ProcTheorems.Runs(ss, steps) && n <= |steps|
    ensures Inv(ss[n]) && Family(ss[n])
  {
    RunKeeps(ss, steps, n);
    if n == 0 {
      InitialFamily(ss[0]);
    } else {
      hide Inv, Family, Apply, Enabled;
      RunFamily(ss, steps, n - 1);
      assert Stepped(ss[n - 1], steps[n - 1], ss[n]);
      FamilyStep(ss[n - 1], steps[n - 1]);
    }
  }

  // ----- what follows for every run -----

  /** Step n of a run obeys the laws for process q. */
  lemma RunLaws(ss: seq<State>, steps: seq<Step>, n: nat, q: nat)
    requires ProcTheorems.Runs(ss, steps) && n < |steps| && q < NPROC
    ensures var s, step, v' := ss[n], steps[n], ss[n + 1].procs[q];
            && Shape(s) && Shape(ss[n + 1]) && Enabled(s, step)
            && StateRule(s, step, q, v') && ChannelRule(s, step, q, v')
            && ParentRule(s, step, q, v') && MarkRule(s, step, q, v') && ThreadRule(s, step, q, v')
  {
    hide Inv, Apply, Enabled, StateRule, ChannelRule, ParentRule, MarkRule, ThreadRule;
    RunKeeps(ss, steps, n);
    assert Stepped(ss[n], steps[n], ss[n + 1]);
    StepLaws(ss[n], steps[n], q);
  }

  lemma FamilyAt(s: State, p: nat)
    requires Inv(s) && Family(s) && p < NPROC
    ensures Shape(s) && ForkKin(s.procs, p) && ScanKin(s.procs, p) && ExitKin(s.procs, p) && OwnKin(s.procs, p)
  {
    ShapeOf(s);
  }

  ghost predicate Childless(s: State, p: nat) {
    forall q :: 0 <= q < |s.procs| ==> s.procs[q].parent != Some(p)
  }

  /** kwait at the end of the table: it returns -1 if and only if its caller is killed or has no child, and
      otherwise goes on to sleep. */
  lemma KwaitDecides(ss: seq<State>, steps: seq<Step>, n: nat)
    requires ProcTheorems.Runs(ss, steps) && n < |steps| && steps[n].ScanStep?
    requires InThread(ss[n], steps[n].c) && MyPc(ss[n], steps[n].c).WaitScan?
    requires MyPc(ss[n], steps[n].c).i >= NPROC
    ensures var p, s' := Me(ss[n], steps[n].c), ss[n + 1];
            && Shape(s') && s'.reaped == ss[n].reaped
            && (s'.procs[p].pc == User <==> ss[n].procs[p].killed || Childless(ss[n], p))
            && (s'.procs[p].pc == WaitSleep <==> !(ss[n].procs[p].killed || Childless(ss[n], p)))
  {
    var s, c := ss[n], steps[n].c;
    var p := Me(s, c);
    RunFamily(ss, steps, n);
    RunLaws(ss, steps, n, p);
    FamilyAt(s, p);
    assert Stepped(s, steps[n], ss[n + 1]);
    hide Inv, Family, Apply, Enabled, StateRule, ChannelRule, ParentRule, MarkRule, ForkKin, ExitKin, OwnKin;
    TallyLaw(s, steps[n], p);
    assert HasKid(s.procs, p, MyPc(s, c).i) <==> !Childless(s, p);
  }

  /** kwait inside the table: it returns at the first zombie child, which it frees unless the status cannot be
      copied out, and otherwise looks at the next slot. */
  lemma KwaitReaps(ss: seq<State>, steps: seq<Step>, n: nat)
    requires ProcTheorems.Runs(ss, steps) && n < |steps| && steps[n].ScanStep?
    requires InThread(ss[n], steps[n].c) && MyPc(ss[n], steps[n].c).WaitScan?
    requires MyPc(ss[n], steps[n].c).i < NPROC
    ensures var s, s', p, i := ss[n], ss[n + 1], Me(ss[n], steps[n].c), MyPc(ss[n], steps[n].c).i;
            && Shape(s')
            && (if ZombieOf(s.procs[i], p) then s'.procs[p].pc == User
                else s'.procs[p].pc.WaitScan? && s'.procs[p].pc.i == i + 1)
            && (if ZombieOf(s.procs[i], p) && !steps[n].copyFails
                then s'.procs[i] == FREED && s'.reaped == s.reaped + [s.procs[i].pid]
                else s'.procs[i].state == s.procs[i].state && s'.reaped == s.reaped)
  {
    var s, c := ss[n], steps[n].c;
    var p, i := Me(s, c), MyPc(s, c).i;
    RunKeeps(ss, steps, n);
    RunLaws(ss, steps, n, p);
    RunLaws(ss, steps, n, i);
    assert Stepped(s, steps[n], ss[n + 1]);
    ZombieElse(s, c);
    hide Inv, Apply, Enabled, ChannelRule, ParentRule;
    TallyLaw(s, steps[n], i);
  }

  lemma ZombieElse(s: State, c: nat)
    requires Inv(s) && InThread(s, c) && MyPc(s, c).WaitScan? && MyPc(s, c).i < NPROC
    ensures ZombieOf(s.procs[MyPc(s, c).i], Me(s, c)) ==> MyPc(s, c).i != Me(s, c)
  {
    ThreadOk(s, c);
  }

  /** From there it goes to sleep on its own slot. */
  lemma KwaitSleeps(ss: seq<State>, steps: seq<Step>, n: nat, p: nat)
    requires ProcTheorems.Runs(ss, steps) && n < |steps| && p < NPROC
    ensures Shape(ss[n]) && Shape(ss[n + 1])
    ensures var v, v' := ss[n].procs[p], ss[n + 1].procs[p];
            && (v.pc == WaitSleep ==> v'.pc == WaitSleep || v'.pc == WaitDoze)
            && (v.pc == WaitDoze ==>
                  v'.pc == WaitDoze || (v'.pc == AtSched(Waiting) && v'.state == SLEEPING && v'.chan == OnProc(p)))
  {
    hide StateRule, ChannelRule, ParentRule, MarkRule;
    RunLaws(ss, steps, n, p);
    if ss[n].procs[p].pc == WaitDoze && ss[n + 1].procs[p].pc != WaitDoze {
      DozeSleeps(ss, steps, n, p);
    }
  }

  lemma DozeSleeps(ss: seq<State>, steps: seq<Step>, n: nat, p: nat)
    requires ProcTheorems.Runs(ss, steps) && n < |steps| && p < NPROC && Shape(ss[n]) && Shape(ss[n + 1])
    requires ss[n].procs[p].pc == WaitDoze && ss[n + 1].procs[p].pc != WaitDoze
    ensures ss[n + 1].procs[p].state == SLEEPING && ss[n + 1].procs[p].chan == OnProc(p)
  {
    hide ParentRule, MarkRule;
    RunLaws(ss, steps, n, p);
  }

  /** It sleeps there until somebody wakes it, and then looks again from the start of the table. */
  lemma KwaitWakes(ss: seq<State>, steps: seq<Step>, n: nat, p: nat)
    requires ProcTheorems.Runs(ss, steps) && n < |steps| && p < NPROC
    ensures Shape(ss[n]) && Shape(ss[n + 1])
    ensures var v, v' := ss[n].procs[p], ss[n + 1].procs[p];
            && (v.pc == AtSched(Waiting) && v.state == SLEEPING && v'.state != SLEEPING ==> Wakes(ss[n], steps[n], p))
            && (v.pc == AtSched(Waiting) ==> v'.pc == AtSched(Waiting) || v'.pc == Resumed(Waiting))
            && (v.pc == Resumed(Waiting) ==> v'.pc == Resumed(Waiting) || v'.pc == WaitLocking)
            && (v.pc == WaitLocking ==> v'.pc in {WaitLocking, AtSched(Yielding(ToWait)), WaitScan(0, false)})
  {
    RunKeeps(ss, steps, n);
    hide Inv, Enabled, StateRule, ChannelRule, ParentRule, MarkRule;
    RunLaws(ss, steps, n, p);
    NotFreed(ss[n], steps[n], p);
    if ss[n].procs[p].state == SLEEPING && ss[n + 1].procs[p].state != SLEEPING {
      LeavesSleep(ss, steps, n, p);
    }
  }

  /** A process that can still go on is not freed, and moves only by its own steps. */
  lemma NotFreed(s: State, step: Step, p: nat)
    requires Inv(s) && Enabled(s, step) && p < NPROC
    ensures s.procs[p].pc == AtSched(Waiting) ==> !(By(s, step, p) && MovesOn(step))
    ensures s.procs[p].pc != Fresh ==> !Abandons(s, step, p)
    ensures s.procs[p].pc != Nowhere ==> !(step.ForkAlloc? && step.np == p)
    ensures s.procs[p].pc != AtSched(Exiting) ==> !Reaps(s, step, p)
    ensures step.Dispatch? ==> s.procs[step.p].pc.Fresh? || s.procs[step.p].pc.AtSched?
  {
    ShapeOf(s);
    hide Inv;
    if s.procs[p].pc.AtSched? {
      WaiterStays(s, step, p);
    }
    hide MovesOn;
    if Reaps(s, step, p) {
      ZombieGone(s, p);
    }
    if step.ForkAlloc? {
      UnusedNowhere(s, step.np);
    }
    if step.Dispatch? {
      PickParked(s, step.c, step.p);
    }
    if Abandons(s, step, p) {
      Distinct(s, step);
    }
  }

  lemma WaiterStays(s: State, step: Step, p: nat)
    requires Shape(s) && Enabled(s, step) && p < NPROC && s.procs[p].pc.AtSched?
    ensures !(By(s, step, p) && MovesOn(step))
  {
  }

  lemma LeavesSleep(ss: seq<State>, steps: seq<Step>, n: nat, p: nat)
    requires ProcTheorems.Runs(ss, steps) && n < |steps| && p < NPROC && Shape(ss[n]) && Shape(ss[n + 1])
    requires ss[n].procs[p].state == SLEEPING && ss[n + 1].procs[p].state != SLEEPING
    ensures Wakes(ss[n], steps[n], p)
  {
    RunKeeps(ss, steps, n);
    hide ChannelRule, ParentRule, MarkRule, ThreadRule;
    RunLaws(ss, steps, n, p);
    Distinct(ss[n], steps[n]);
    hide Inv;
  }

  // ----- exit -----

  /** Every parent is alive: exit hands on the last child before the process is a zombie, and a slot that is
      used again starts without children. Every process that has started, but for init, has a parent. */
  lemma ParentAlive(ss: seq<State>, steps: seq<Step>, n: nat, q: nat)
    requires ProcTheorems.Runs(ss, steps) && n <= |steps| && q < NPROC
    ensures var s := ss[n];
            && Shape(s)
            && (q != INIT && Started(s.procs[q].state) ==> s.procs[q].parent.Some?)
            && (s.procs[q].parent.Some? ==>
                  var p := s.procs[q].parent.v;
                  p < NPROC && (p == INIT || s.procs[p].state in {RUNNABLE, RUNNING, SLEEPING}))
  {
    RunFamily(ss, steps, n);
    var s := ss[n];
    FamilyAt(s, q);
    if s.procs[q].parent.Some? {
      var p := s.procs[q].parent.v;
      FamilyAt(s, p);
      assert ProcOk(s, p);
      hide Inv, Family, ForkKin, ScanKin;
      assert HasKid(s.procs, p, NPROC);
    }
  }

  /** The thread of p is between the start of reparent and the wakeup after it. */
  predicate Reparenting(pc: Pc) {
    pc.Reparent? || pc.ReparentWake? || pc.WakeParent?
  }

  function ParentOf(s: State, q: nat): (r: Opt) {
    if q < |s.procs| then s.procs[q].parent else None
  }

  function PcOf(s: State, p: nat): (pc: Pc) {
    if p < |s.procs| then s.procs[p].pc else Nowhere
  }

  lemma {:induction false} StaysInFamily(ss: seq<State>, steps: seq<Step>, a: nat, b: nat, p: nat, q: nat)
    requires ProcTheorems.Runs(ss, steps) && a <= b <= |steps| && p < NPROC && q < NPROC
    requires forall m :: a <= m <= b ==> Reparenting(PcOf(ss[m], p))
    requires ParentOf(ss[a], q) == Some(p)
    ensures ParentOf(ss[b], q) == Some(p) || ParentOf(ss[b], q) == Some(INIT)
    decreases b
  {
    hide ProcTheorems.Runs, Reparenting, PcOf, ParentOf;
    if a < b {
      StaysInFamily(ss, steps, a, b - 1, p, q);
      StillHanded(ss, steps, b - 1, p, q);
    }
  }

  /** reparent: whatever else goes on meanwhile, a child of the process that exits ends up with init. */
  lemma HandedOver(ss: seq<State>, steps: seq<Step>, a: nat, b: nat, p: nat, q: nat)
    requires ProcTheorems.Runs(ss, steps) && a <= b <= |steps| && p < NPROC && q < NPROC
    requires forall m :: a <= m <= b ==> Reparenting(PcOf(ss[m], p))
    requires ParentOf(ss[a], q) == Some(p) && PcOf(ss[b], p).WakeParent?
    ensures ParentOf(ss[b], q) == Some(INIT)
  {
    StaysInFamily(ss, steps, a, b, p, q);
    RunFamily(ss, steps, b);
    FamilyAt(ss[b], p);
    hide Inv, Family, ForkKin, ScanKin, OwnKin;
    assert ParentOf(ss[b], q) == Some(p) ==> HasKid(ss[b].procs, p, NPROC);
  }

  lemma StillHanded(ss: seq<State>, steps: seq<Step>, n: nat, p: nat, q: nat)
    requires ProcTheorems.Runs(ss, steps) && n < |steps| && p < NPROC && q < NPROC
    requires Reparenting(PcOf(ss[n], p)) && (ParentOf(ss[n], q) == Some(p) || ParentOf(ss[n], q) == Some(INIT))
    ensures ParentOf(ss[n + 1], q) == Some(p) || ParentOf(ss[n + 1], q) == Some(INIT)
  {
    RunFamily(ss, steps, n);
    hide StateRule, ChannelRule, MarkRule, ThreadRule, Family;
    RunLaws(ss, steps, n, q);
    var s, step := ss[n], steps[n];
    if step.ForkAdopt? && Makes(s, step, q) {
      MakesOrphan(s, step, q);
    } else if Reaps(s, step, q) {
      OneWaiter(s, p, Me(s, step.c));
    } else if Abandons(s, step, q) {
      MakesOrphan(s, step, q);
    }
  }

  /** kfork's child has no parent until kfork gives it one. */
  lemma MakesOrphan(s: State, step: Step, q: nat)
    requires Inv(s) && Family(s) && Enabled(s, step) && q < NPROC
    requires (step.ForkAdopt? && Makes(s, step, q)) || Abandons(s, step, q)
    ensures s.procs[q].parent == None
  {
    FamilyAt(s, Me(s, step.c));
    hide Inv, Family;
  }

  // ----- fork -----

  /** When kfork returns, its child is runnable and its caller is the child's parent. */
  lemma ForkMeans(ss: seq<State>, steps: seq<Step>, n: nat, np: nat)
    requires ProcTheorems.Runs(ss, steps) && n < |steps| && np < NPROC && Shape(ss[n])
    requires steps[n].ForkStart? && Makes(ss[n], steps[n], np)
    ensures Shape(ss[n + 1]) && ss[n + 1].procs[np].state == RUNNABLE
    ensures ss[n + 1].procs[np].parent == Some(Me(ss[n], steps[n].c))
    ensures ss[n + 1].procs[np].pc == Fresh && ss[n + 1].procs[np].pid == ss[n].procs[np].pid
  {
    var s, step := ss[n], steps[n];
    RunFamily(ss, steps, n);
    FamilyAt(s, Me(s, step.c));
    hide Family, ChannelRule, ScanKin, ExitKin, OwnKin;
    RunLaws(ss, steps, n, np);
    Distinct(s, step);
    hide Inv;
  }

  /** p is not just handing q on to init, and q is not reaped. */
  ghost predicate Keeps(s: State, step: Step, p: nat, q: nat) {
    Shape(s) && q < NPROC && PcOf(s, p) != Reparent(q) && !Reaps(s, step, q)
  }

  /** From then on it stays the child of its maker until that process exits, or reaps it. */
  lemma {:induction false} StaysChild(ss: seq<State>, steps: seq<Step>, a: nat, b: nat, p: nat, q: nat)
    requires ProcTheorems.Runs(ss, steps) && a <= b <= |steps| && p < NPROC && q < NPROC
    requires forall m :: a <= m < b ==> Keeps(ss[m], steps[m], p, q)
    requires ParentOf(ss[a], q) == Some(p)
    ensures ParentOf(ss[b], q) == Some(p)
    decreases b
  {
    hide ProcTheorems.Runs, Keeps, ParentOf;
    if a < b {
      StaysChild(ss, steps, a, b - 1, p, q);
      KeptChild(ss, steps, b - 1, p, q);
    }
  }

  lemma KeptChild(ss: seq<State>, steps: seq<Step>, n: nat, p: nat, q: nat)
    requires ProcTheorems.Runs(ss, steps) && n < |steps| && p < NPROC && q < NPROC
    requires Keeps(ss[n], steps[n], p, q)
    requires ParentOf(ss[n], q) == Some(p)
    ensures ParentOf(ss[n + 1], q) == Some(p)
  {
    hide StateRule, ChannelRule, MarkRule, ThreadRule, Family, Inv;
    var s, step := ss[n], steps[n];
    RunFamily(ss, steps, n);
    RunLaws(ss, steps, n, q);
    if (step.ForkAdopt? && Makes(s, step, q)) || Abandons(s, step, q) {
      MakesOrphan(s, step, q);
    }
    hide Enabled;
  }

  // ----- kill -----

  /** kkill marks its target and leaves it awake, and the mark stays until the process is freed. */
  lemma KillMeans(ss: seq<State>, steps: seq<Step>, n: nat, q: nat)
    requires ProcTheorems.Runs(ss, steps) && n < |steps| && q < NPROC
    ensures Shape(ss[n]) && Shape(ss[n + 1])
    ensures steps[n].Kill? && steps[n].q == q ==> ss[n + 1].procs[q].killed && ss[n + 1].procs[q].state != SLEEPING
    ensures ss[n].procs[q].killed && ss[n + 1].procs[q].state != UNUSED ==> ss[n + 1].procs[q].killed
  {
    hide ChannelRule, ParentRule, ThreadRule, Enabled;
    RunLaws(ss, steps, n, q);
    assert Reaps(ss[n], steps[n], q) || Abandons(ss[n], steps[n], q) ==> ss[n + 1].procs[q] == FREED;
  }

  // ----- sleep and preemption -----

  /** sleep on a channel of its own choice. */
  lemma SleepMeans(ss: seq<State>, steps: seq<Step>, n: nat)
    requires ProcTheorems.Runs(ss, steps) && n < |steps| && steps[n].SleepOn?
    requires InThread(ss[n], steps[n].c)
    ensures var v' := ss[n + 1].procs[Me(ss[n], steps[n].c)];
            v'.state == SLEEPING && v'.chan == OnOther(steps[n].k) && v'.pc == AtSched(Dozing)
  {
    hide ParentRule, MarkRule;
    RunLaws(ss, steps, n, Me(ss[n], steps[n].c));
  }

  /** It lasts until somebody wakes that process on its channel, or kills it, and no longer. */
  lemma SleepLasts(ss: seq<State>, steps: seq<Step>, n: nat, p: nat, k: nat)
    requires ProcTheorems.Runs(ss, steps) && n < |steps| && p < NPROC && Shape(ss[n])
    requires ss[n].procs[p].state == SLEEPING && ss[n].procs[p].chan == OnOther(k)
    ensures Shape(ss[n + 1])
    ensures var v' := ss[n + 1].procs[p];
            if (steps[n].WakeOther? || steps[n].Kill?) && steps[n].q == p then v'.state == RUNNABLE
            else v'.state == SLEEPING && v'.chan == OnOther(k)
  {
    hide ParentRule, MarkRule, ThreadRule;
    RunLaws(ss, steps, n, p);
    if ss[n + 1].procs[p].state != SLEEPING {
      hide StateRule;
      LeavesSleep(ss, steps, n, p);
      WokenRuns(ss, steps, n, p);
    }
  }

  lemma WokenRuns(ss: seq<State>, steps: seq<Step>, n: nat, p: nat)
    requires ProcTheorems.Runs(ss, steps) && n < |steps| && p < NPROC && Shape(ss[n]) && Wakes(ss[n], steps[n], p)
    ensures Shape(ss[n + 1]) && ss[n + 1].procs[p].state == RUNNABLE
  {
    hide ChannelRule, ParentRule, MarkRule, ThreadRule;
    RunLaws(ss, steps, n, p);
  }

  /** The thread of p is switched out at the point pc. */
  predicate OutAt(pc: Pc, at: Pc) {
    Preemptible(at) && (pc == AtSched(Yielding(BackFrom(at))) || pc == Resumed(Yielding(BackFrom(at))))
  }

  /** Preemption is not noticed: a thread that yields goes on at the point where it was. */
  lemma {:induction false} Preempted(ss: seq<State>, steps: seq<Step>, a: nat, b: nat, p: nat)
    requires ProcTheorems.Runs(ss, steps) && a < b <= |steps| && p < NPROC
    requires steps[a].YieldUp? && InThread(ss[a], steps[a].c) && Me(ss[a], steps[a].c) == p
    requires forall m :: a < m < b ==> PcOf(ss[m], p).AtSched? || PcOf(ss[m], p).Resumed?
    ensures OutAt(PcOf(ss[b], p), PcOf(ss[a], p)) || PcOf(ss[b], p) == PcOf(ss[a], p)
    decreases b
  {
    YieldsOut(ss, steps, a, p);
    if b > a + 1 {
      Preempted(ss, steps, a, b - 1, p);
      StaysOut(ss, steps, b - 1, p, PcOf(ss[a], p));
    }
  }

  lemma YieldsOut(ss: seq<State>, steps: seq<Step>, n: nat, p: nat)
    requires ProcTheorems.Runs(ss, steps) && n < |steps| && p < NPROC
    requires steps[n].YieldUp? && InThread(ss[n], steps[n].c) && Me(ss[n], steps[n].c) == p
    ensures OutAt(PcOf(ss[n + 1], p), PcOf(ss[n], p))
  {
    hide StateRule, ChannelRule, ParentRule, MarkRule;
    RunLaws(ss, steps, n, p);
  }

  lemma StaysOut(ss: seq<State>, steps: seq<Step>, n: nat, p: nat, at: Pc)
    requires ProcTheorems.Runs(ss, steps) && n < |steps| && p < NPROC && OutAt(PcOf(ss[n], p), at)
    ensures OutAt(PcOf(ss[n + 1], p), at) || PcOf(ss[n + 1], p) == at
  {
    RunKeeps(ss, steps, n);
    hide Inv, Enabled, StateRule, ChannelRule, ParentRule, MarkRule;
    RunLaws(ss, steps, n, p);
    NotFreed(ss[n], steps[n], p);
    if PcOf(ss[n + 1], p) != PcOf(ss[n], p) && PcOf(ss[n], p).Resumed? {
      SameBack(PcOf(ss[n + 1], p), at);
    }
  }

  lemma SameBack(x: Pc, y: Pc)
    requires Preemptible(x) && Preemptible(y) && BackFrom(x) == BackFrom(y)
    ensures x == y
  {
  }
}
