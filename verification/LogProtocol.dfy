/** The write-ahead log as a protocol: any number of file system operations,
    one disk block write at a time, a crash between any two of them. */
module LogProtocol {
  import opened Blocks
  import opened LogFormat

  type OpId = nat

  /** The log's own state. `mem` is the block store the buffer cache presents:
      the cached copy of a block where there is one, the disk's otherwise.
      `lh` is log.lh.block[0..n), `pins` counts the bpin references. */
  datatype Core = Core(disk: seq<Block>, mem: seq<Block>,
                       outstanding: int, committing: bool,
                       lh: seq<nat>, pins: multiset<nat>)
  {
    ghost predicate Shape(g: Geometry) {
      && g.Valid()
      && |disk| == |mem| == g.size
      && |lh| <= LOGBLOCKS
      && (forall i :: 0 <= i < |lh| ==> g.Home(lh[i]))
    }

    /** bwrite: block b goes to the disk, through the cache. */
    function Store(b: nat, v: Block): (c: Core)
      requires b < |disk| && |disk| == |mem|
    {
      this.(disk := disk[b := v], mem := mem[b := v])
    }
  }

  /** The next disk block write of commit(). */
  datatype CommitPc = WriteLog(tail: nat) | WriteHead | Install(tail: nat) | ClearHead | Finish

  /** The next disk block write of recover_from_log(). */
  datatype RecoverPc = ReadHead | Reinstall(tail: nat) | ClearLog

  // ----- The atomic sections of log.c -----

  predicate HasRoom(c: Core) {
    !c.committing && |c.lh| + (c.outstanding + 1) * MAXOPBLOCKS <= LOGBLOCKS
  }

  /** The two panics of log_write. */
  predicate LogWritePanics(c: Core) {
    |c.lh| >= LOGBLOCKS || c.outstanding < 1
  }

  function LogWrite(c: Core, b: nat, v: Block): (r: Core)
    requires b < |c.mem|
  {
    if b in c.lh then c.(mem := c.mem[b := v])
    else c.(mem := c.mem[b := v], lh := c.lh + [b], pins := c.pins + multiset{b})
  }

  function StartCommit(c: Core): (pc: CommitPc) {
    if |c.lh| > 0 then WriteLog(0) else Finish
  }

  ghost predicate CommitReady(g: Geometry, c: Core, pc: CommitPc) {
    && c.Shape(g)
    && match pc
       case WriteLog(tail) => tail < |c.lh|
       case Install(tail) => tail < |c.lh|
       case _ => true
  }

  /** One disk write of commit(); Finish only clears log.committing. */
  function CommitStep(g: Geometry, c: Core, pc: CommitPc): (r: Core)
    requires CommitReady(g, c, pc)
  {
    match pc
    case WriteLog(tail) => c.Store(g.Slot(tail), c.mem[c.lh[tail]])
    case WriteHead => c.Store(g.start, EncodeHead(c.mem[g.start], c.lh))
    case Install(tail) => c.Store(c.lh[tail], c.mem[g.Slot(tail)]).(pins := c.pins - multiset{c.lh[tail]})
    case ClearHead => ClearStep(g, c)
    case Finish => c.(committing := false)
  }

  function CommitNext(n: nat, pc: CommitPc): (r: CommitPc) {
    match pc
    case WriteLog(tail) => if tail + 1 < n then WriteLog(tail + 1) else WriteHead
    case WriteHead => if n > 0 then Install(0) else ClearHead
    case Install(tail) => if tail + 1 < n then Install(tail + 1) else ClearHead
    case ClearHead => Finish
    case Finish => Finish
  }

  /** log.lh.n = 0, and the empty header goes to disk. */
  function ClearStep(g: Geometry, c: Core): (r: Core)
    requires c.Shape(g)
  {
    c.(lh := []).Store(g.start, EncodeHead(c.mem[g.start], []))
  }

  /** What a crash leaves: the disk, and a freshly booted kernel. */
  function Reboot(c: Core): (r: Core) {
    Core(c.disk, c.disk, 0, false, [], multiset{})
  }

  ghost predicate RecoverReady(g: Geometry, c: Core, pc: RecoverPc) {
    && c.Shape(g)
    && match pc
       case ReadHead => HeadCount(c.mem[g.start]) <= LOGBLOCKS
       case Reinstall(tail) => tail < |c.lh|
       case ClearLog => true
  }

  /** One step of recover_from_log(): the header is read, or one block is written. */
  function RecoverStep(g: Geometry, c: Core, pc: RecoverPc): (r: Core)
    requires RecoverReady(g, c, pc)
  {
    match pc
    case ReadHead => c.(lh := HeadList(c.mem[g.start]))
    case Reinstall(tail) => c.Store(c.lh[tail], c.mem[g.Slot(tail)])
    case ClearLog => ClearStep(g, c)
  }

  /** n is the length of the list once the header is read. */
  function RecoverNext(n: nat, pc: RecoverPc): (r: RecoverPc) {
    match pc
    case ReadHead => if n > 0 then Reinstall(0) else ClearLog
    case Reinstall(tail) => if tail + 1 < n then Reinstall(tail + 1) else ClearLog
    case ClearLog => ClearLog
  }

  // ----- History: what each operation asked to be written -----

  datatype Update = Update(op: OpId, block: nat, data: Block)

  function Replay(x: seq<Block>, us: seq<Update>): (r: seq<Block>)
    requires forall u :: u in us ==> u.block < |x|
    ensures |r| == |x|
  {
    if us == [] then x
    else
      var last := us[|us| - 1];
      Replay(x, us[..|us| - 1])[last.block := last.data]
  }

  /** The updates in us made by operation id, in order. */
  function By(us: seq<Update>, id: OpId): (r: seq<Update>)
  {
    if us == [] then []
    else
      var last := us[|us| - 1];
      By(us[..|us| - 1], id) + if last.op == id then [last] else []
  }

  /** `issued` is every log_write since the disk was made, `durable` the ones a
      recovery is to bring back, `current` those of the open transaction. */
  datatype History = History(init: seq<Block>, durable: seq<Update>,
                             current: seq<Update>, issued: seq<Update>)
  {
    ghost predicate Fits() {
      && (forall u :: u in durable ==> u.block < |init|)
      && (forall u :: u in current ==> u.block < |init|)
    }

    function Stable(): (r: seq<Block>)
      requires forall u :: u in durable ==> u.block < |init|
      ensures |r| == |init|
    {
      Replay(init, durable)
    }
  }

  lemma {:induction false} ReplayConcat(x: seq<Block>, us: seq<Update>, vs: seq<Update>)
    requires forall u :: u in us + vs ==> u.block < |x|
    ensures (forall u :: u in us ==> u.block < |x|) && (forall u :: u in vs ==> u.block < |x|)
    ensures Replay(x, us + vs) == Replay(Replay(x, us), vs)
  {
    assert forall u :: u in us ==> u in us + vs;
    assert forall u :: u in vs ==> u in us + vs;
    if vs == [] {
      assert us + vs == us;
    } else {
      var vs' := vs[..|vs| - 1];
      assert forall u :: u in us + vs' ==> u in us + vs;
      ReplayConcat(x, us, vs');
      assert (us + vs)[..|us + vs| - 1] == us + vs';
    }
  }

  lemma {:induction false} ByConcat(us: seq<Update>, vs: seq<Update>, id: OpId)
    ensures By(us + vs, id) == By(us, id) + By(vs, id)
  {
    if vs == [] {
      assert us + vs == us;
    } else {
      var vs' := vs[..|vs| - 1];
      ByConcat(us, vs', id);
      assert (us + vs)[..|us + vs| - 1] == us + vs';
    }
  }

  lemma {:induction false} ByNone(us: seq<Update>, id: OpId)
    requires forall u :: u in us ==> u.op != id
    ensures By(us, id) == []
  {
    if us != [] {
      assert us[|us| - 1] in us;
      ByNone(us[..|us| - 1], id);
    }
  }

  // ----- The machine -----

  datatype Mode = Running | Recovering(pc: RecoverPc)

  /** `active` operations are between begin_op and end_op, `waiting` ones sleep in
      begin_op, `committers` are inside commit(). `wrote` and `reserve` record, per
      active operation, the distinct blocks it logged and its unused reservation. */
  datatype State = State(core: Core, mode: Mode,
                         active: set<OpId>, waiting: set<OpId>,
                         committers: map<OpId, CommitPc>,
                         begun: set<OpId>,
                         wrote: map<OpId, set<nat>>, reserve: multiset<OpId>,
                         hist: History)

  datatype Step =
    | Begin(id: OpId)
    | Write(id: OpId, b: nat, v: Block)
    | End(id: OpId)
    | CommitIO(id: OpId)
    | Crash
    | RecoverIO

  /** Steps the kernel can take. A log_write or end_op that panics stops the run,
      so it is not a step; the theorems below say when that can happen. */
  ghost predicate Enabled(g: Geometry, s: State, step: Step) {
    match step
    case Begin(id) => s.mode.Running? && id !in s.begun && id !in s.waiting
    case Write(id, b, v) => s.mode.Running? && id in s.active && g.Home(b) && !LogWritePanics(s.core)
                            && b < |s.core.mem| && id in s.wrote
    case End(id) => s.mode.Running? && id in s.active && !s.core.committing
    case CommitIO(id) => s.mode.Running? && id in s.committers && CommitReady(g, s.core, s.committers[id])
    case Crash => true
    case RecoverIO => s.mode.Recovering? && RecoverReady(g, s.core, s.mode.pc)
  }

  function Apply(g: Geometry, s: State, step: Step): (r: State)
    requires Enabled(g, s, step)
  {
    match step
    case Begin(id) =>
      if HasRoom(s.core) then
        s.(core := s.core.(outstanding := s.core.outstanding + 1),
           active := s.active + {id}, begun := s.begun + {id},
           wrote := s.wrote[id := {}], reserve := s.reserve[id := MAXOPBLOCKS])
      else s.(waiting := s.waiting + {id})
    case Write(id, b, v) =>
      var u := Update(id, b, v);
      s.(core := LogWrite(s.core, b, v),
         wrote := s.wrote[id := s.wrote[id] + {b}],
         reserve := if b in s.core.lh then s.reserve else s.reserve - multiset{id},
         hist := s.hist.(current := s.hist.current + [u], issued := s.hist.issued + [u]))
    case End(id) =>
      var s' := s.(core := s.core.(outstanding := s.core.outstanding - 1),
                   active := s.active - {id}, wrote := s.wrote - {id}, reserve := s.reserve[id := 0]);
      if s'.core.outstanding == 0 then
        s'.(core := s'.core.(committing := true),
            committers := s.committers[id := StartCommit(s.core)])
      else s'.(waiting := {})
    case CommitIO(id) =>
      var pc := s.committers[id];
      var c := CommitStep(g, s.core, pc);
      var pc' := CommitNext(|s.core.lh|, pc);
      if pc == Finish then
        s.(core := c, committers := s.committers - {id}, waiting := {})
      else if pc == WriteHead then
        s.(core := c, committers := s.committers[id := pc'],
           hist := s.hist.(durable := s.hist.durable + s.hist.current, current := []))
      else
        s.(core := c, committers := s.committers[id := pc'])
    case Crash =>
      s.(core := Reboot(s.core), mode := Recovering(ReadHead),
         active := {}, waiting := {}, committers := map[], wrote := map[], reserve := multiset{},
         hist := s.hist.(current := []))
    case RecoverIO =>
      var c := RecoverStep(g, s.core, s.mode.pc);
      if s.mode.pc == ClearLog then s.(core := c, mode := Running)
      else s.(core := c, mode := Recovering(RecoverNext(|c.lh|, s.mode.pc)))
  }

  /** A disk as mkfs leaves it (the log empty), just booted. */
  ghost predicate Initial(g: Geometry, s: State) {
    && s.core == Reboot(s.core) && s.core.Shape(g)
    && HeadCount(s.core.disk[g.start]) == 0
    && s == State(s.core, Recovering(ReadHead), {}, {}, map[], {}, map[], multiset{},
                  History(s.core.disk, [], [], []))
  }

  /** s' is reached from s by the given steps. */
  ghost predicate Runs(g: Geometry, s: State, steps: seq<Step>, s': State)
    decreases |steps|
  {
    if steps == [] then s' == s
    else Enabled(g, s, steps[0]) && Runs(g, Apply(g, s, steps[0]), steps[1..], s')
  }
}
