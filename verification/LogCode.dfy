/** log.c as code: the methods below update the log in place, and each is tied to
    the steps of the protocol, including every disk image a crash could find. */
module LogCode {
  import opened Bytes
  import opened Blocks
  import opened LogFormat
  import opened LogProtocol
  import opened LogInvariant
  import opened LogTheorems

  /** Disk writes commit() still has to make for n logged blocks. */
  function CommitLeft(n: nat, pc: CommitPc): (k: int) {
    match pc
    case WriteLog(tail) => n - tail + n + 3
    case WriteHead => n + 3
    case Install(tail) => n - tail + 1
    case ClearHead => 1
    case Finish => 0
  }

  /** The disk images after each remaining write of commit(). */
  ghost function CommitTrace(g: Geometry, c: Core, pc: CommitPc): (r: seq<seq<Block>>)
    requires CommitReady(g, c, pc)
    decreases CommitLeft(|c.lh|, pc)
  {
    if pc == Finish then []
    else
      var c' := CommitStep(g, c, pc);
      [c'.disk] + CommitTrace(g, c', CommitNext(|c.lh|, pc))
  }

  /** The state when commit() returns. */
  ghost function CommitEnd(g: Geometry, c: Core, pc: CommitPc): (r: Core)
    requires CommitReady(g, c, pc)
    decreases CommitLeft(|c.lh|, pc)
  {
    if pc == Finish then c
    else CommitEnd(g, CommitStep(g, c, pc), CommitNext(|c.lh|, pc))
  }

  ghost function RecoverTrace(g: Geometry, c: Core, tail: nat): (r: seq<seq<Block>>)
    requires c.Shape(g) && tail <= |c.lh|
    decreases |c.lh| - tail
  {
    if tail == |c.lh| then [ClearStep(g, c).disk]
    else
      var c' := RecoverStep(g, c, Reinstall(tail));
      [c'.disk] + RecoverTrace(g, c', tail + 1)
  }

  ghost function RecoverEnd(g: Geometry, c: Core, tail: nat): (r: Core)
    requires c.Shape(g) && tail <= |c.lh|
    decreases |c.lh| - tail
  {
    if tail == |c.lh| then ClearStep(g, c)
    else RecoverEnd(g, RecoverStep(g, c, Reinstall(tail)), tail + 1)
  }

  /** Images t and state c lie on the way from t0 and c0 to the end of commit(). */
  ghost predicate CommitPath(g: Geometry, t0: seq<seq<Block>>, c0: Core, pc0: CommitPc,
                             t: seq<seq<Block>>, c: Core, pc: CommitPc)
  {
    && CommitReady(g, c0, pc0) && CommitReady(g, c, pc)
    && t + CommitTrace(g, c, pc) == t0 + CommitTrace(g, c0, pc0)
    && CommitEnd(g, c, pc) == CommitEnd(g, c0, pc0)
  }

  lemma CommitPathStep(g: Geometry, t0: seq<seq<Block>>, c0: Core, pc0: CommitPc,
                       t: seq<seq<Block>>, c: Core, pc: CommitPc)
    requires CommitPath(g, t0, c0, pc0, t, c, pc) && pc != Finish
    ensures var c' := CommitStep(g, c, pc);
            CommitPath(g, t0, c0, pc0, t + [c'.disk], c', CommitNext(|c.lh|, pc))
  {
    NextReady(g, c, pc);
    hide CommitStep;
    var c' := CommitStep(g, c, pc);
    TraceCons(t, c'.disk, CommitTrace(g, c', CommitNext(|c.lh|, pc)));
  }

  ghost predicate RecoverPath(g: Geometry, t0: seq<seq<Block>>, c0: Core, t: seq<seq<Block>>, c: Core, tail: nat) {
    && c0.Shape(g) && c.Shape(g) && tail <= |c.lh|
    && t + RecoverTrace(g, c, tail) == t0 + RecoverTrace(g, c0, 0)
    && RecoverEnd(g, c, tail) == RecoverEnd(g, c0, 0)
  }

  lemma RecoverPathStep(g: Geometry, t0: seq<seq<Block>>, c0: Core, t: seq<seq<Block>>, c: Core, tail: nat)
    requires RecoverPath(g, t0, c0, t, c, tail) && tail < |c.lh|
    ensures var c' := RecoverStep(g, c, Reinstall(tail));
            RecoverPath(g, t0, c0, t + [c'.disk], c', tail + 1)
  {
    var c' := RecoverStep(g, c, Reinstall(tail));
    TraceCons(t, c'.disk, RecoverTrace(g, c', tail + 1));
  }

  class Log {
    const g: Geometry
    /** The device, and the block store presented by the buffer cache. */
    var disk: seq<Block>
    var mem: seq<Block>
    var outstanding: int
    var committing: bool
    var n: nat
    var block: array<nat>
    ghost var pins: multiset<nat>
    /** Every image the device has held, in order. */
    ghost var trace: seq<seq<Block>>

    ghost predicate Valid()
      reads this, block
    {
      block.Length == LOGBLOCKS && n <= LOGBLOCKS && View().Shape(g)
    }

    ghost function View(): (c: Core)
      reads this, block
      requires n <= block.Length
    {
      Core(disk, mem, outstanding, committing, block[..n], pins)
    }

    /** bwrite: one atomic block write. */
    method Bwrite(b: nat, v: Block)
      requires Valid() && b < g.size
      modifies this`disk, this`mem, this`trace
      ensures Valid() && View() == old(View()).Store(b, v)
      ensures trace == old(trace) + [disk]
    {
      mem := mem[b := v];
      disk := disk[b := v];
      trace := trace + [disk];
    }

    /** One pass of begin_op's loop: false means the caller sleeps and tries again. */
    method BeginOp() returns (entered: bool)
      requires Valid()
      modifies this`outstanding
      ensures Valid() && entered == HasRoom(old(View()))
      ensures entered <==> !old(committing) && old(n) + (old(outstanding) + 1) * MAXOPBLOCKS <= LOGBLOCKS
      ensures View() == if entered then old(View()).(outstanding := old(outstanding) + 1) else old(View())
    {
      if committing {
        entered := false;
      } else if n + (outstanding + 1) * MAXOPBLOCKS > LOGBLOCKS {
        entered := false;
      } else {
        outstanding := outstanding + 1;
        entered := true;
      }
    }

    /** The first critical section of end_op. */
    method EndOp() returns (panicked: bool, doCommit: bool)
      requires Valid()
      modifies this`outstanding, this`committing
      ensures Valid() && panicked == old(committing)
      ensures !panicked ==> doCommit == (old(outstanding) == 1)
      ensures !panicked ==>
                View() == old(View()).(outstanding := old(outstanding) - 1, committing := doCommit)
    {
      doCommit := false;
      outstanding := outstanding - 1;
      if committing {
        return true, false;
      }
      if outstanding == 0 {
        doCommit := true;
        committing := true;
      }
      panicked := false;
    }

    /** log_write(b), where v is what the caller has put in b's buffer. */
    method LogWriteBlock(b: nat, v: Block) returns (panicked: bool)
      requires Valid() && g.Home(b)
      modifies this`mem, this`n, this`pins, block
      ensures Valid() && panicked == LogWritePanics(old(View()))
      ensures panicked <==> old(n) >= LOGBLOCKS || old(outstanding) < 1
      ensures !panicked ==> View() == LogWrite(old(View()), b, v)
      ensures disk == old(disk) && trace == old(trace)
    {
      if n >= LOGBLOCKS || outstanding < 1 {
        return true;
      }
      mem := mem[b := v];
      var i := 0;
      while i < n && block[i] != b
        invariant i <= n
        invariant b !in block[..i]
      {
        i := i + 1;
      }
      block[i] := b;
      if i == n {
        pins := pins + multiset{b};
        n := n + 1;
        assert block[..n] == old(block[..n]) + [b];
      } else {
        assert old(block[..])[i] == b && block[..n] == old(block[..n]);
        assert old(block[..n])[i] == b;
      }
      panicked := false;
    }

    /** write_head: the in-memory list, laid over the header block word by word. */
    method WriteHeader()
      requires Valid()
      modifies this`disk, this`mem, this`trace
      ensures Valid()
      ensures View() == old(View()).Store(g.start, EncodeHead(old(mem)[g.start], block[..n]))
      ensures trace == old(trace) + [disk]
    {
      var hb: Block := SetWord(mem[g.start], 0, n);
      ghost var hb0 := hb;
      for i := 0 to n
        invariant hb == PutEntries(hb0, block[..n], i)
      {
        hb := SetWord(hb, i + 1, block[i]);
      }
      Bwrite(g.start, hb);
    }

    /** read_head: the list of the header block, word by word. */
    method ReadHeader()
      requires Valid() && HeadOk(g, mem)
      modifies this`n, block
      ensures Valid() && View() == old(View()).(lh := HeadList(mem[g.start]))
    {
      n := Word(mem[g.start], 0);
      for i := 0 to n
        invariant n == HeadCount(mem[g.start]) && n <= block.Length == LOGBLOCKS
        invariant forall j :: 0 <= j < i ==> block[j] == Word(mem[g.start], j + 1)
      {
        block[i] := Word(mem[g.start], i + 1);
      }
      assert block[..n] == HeadList(mem[g.start]);
    }

    /** write_log: the images passed through are those of the protocol's WriteLog steps. */
    method CopyToLog()
      requires Valid() && n > 0
      modifies this`disk, this`mem, this`trace
      ensures Valid() && n == old(n) && block[..n] == old(block[..n])
      ensures CommitPath(g, old(trace), old(View()), WriteLog(0), trace, View(), WriteHead)
    {
      hide CommitPath;
      var tail := 0;
      PathStart(g, trace, View(), WriteLog(0));
      while tail < n
        invariant tail <= n && Valid()
        invariant CommitPath(g, old(trace), old(View()), WriteLog(0), trace, View(),
                             if tail < n then WriteLog(tail) else WriteHead)
      {
        CommitPathStep(g, old(trace), old(View()), WriteLog(0), trace, View(), WriteLog(tail));
        var from := mem[block[tail]];
        Bwrite(g.start + tail + 1, from);
        tail := tail + 1;
      }
    }

    /** The body of install_trans's loop. */
    method InstallBlock(tail: nat, recovering: bool)
      requires Valid() && tail < n
      modifies this`disk, this`mem, this`trace, this`pins
      ensures Valid() && trace == old(trace) + [disk]
      ensures View() == if recovering then RecoverStep(g, old(View()), Reinstall(tail))
                        else CommitStep(g, old(View()), Install(tail))
    {
      hide EncodeHead, HeadList, ClearStep;
      var lbuf, dst := mem[g.start + tail + 1], block[tail];
      assert dst == View().lh[tail];
      Bwrite(dst, lbuf);
      assert View() == old(View()).Store(dst, lbuf);
      if !recovering {
        pins := pins - multiset{dst};
      }
    }

    /** install_trans: with recovering == false each block is also unpinned. */
    method InstallTrans(recovering: bool)
      requires Valid() && (n > 0 || recovering)
      modifies this`disk, this`mem, this`trace, this`pins
      ensures Valid() && n == old(n) && block[..n] == old(block[..n])
      ensures !recovering ==> CommitPath(g, old(trace), old(View()), Install(0), trace, View(), ClearHead)
      ensures recovering ==> RecoverPath(g, old(trace), old(View()), trace, View(), n)
    {
      hide CommitPath, RecoverPath, CommitStep, RecoverStep;
      var tail := 0;
      if recovering {
        RecoverStart(g, trace, View());
      } else {
        PathStart(g, trace, View(), Install(0));
      }
      while tail < n
        invariant tail <= n && Valid()
        invariant !recovering ==> CommitPath(g, old(trace), old(View()), Install(0), trace, View(),
                                             if tail < n then Install(tail) else ClearHead)
        invariant recovering ==> RecoverPath(g, old(trace), old(View()), trace, View(), tail)
      {
        if recovering {
          RecoverPathStep(g, old(trace), old(View()), trace, View(), tail);
        } else {
          CommitPathStep(g, old(trace), old(View()), Install(0), trace, View(), Install(tail));
        }
        InstallBlock(tail, recovering);
        tail := tail + 1;
      }
    }

    /** commit(): the images it leaves behind are exactly the protocol's, in order. */
    method Commit()
      requires Valid()
      modifies this`disk, this`mem, this`trace, this`pins, this`n
      ensures Valid()
      ensures trace == old(trace) + CommitTrace(g, old(View()), StartCommit(old(View())))
      ensures View() == CommitEnd(g, old(View()), StartCommit(old(View())))
    {
      hide CommitPath, EncodeHead;
      if n > 0 {
        CopyToLog();
        CommitPathStep(g, old(trace), old(View()), WriteLog(0), trace, View(), WriteHead);
        WriteHeader();
        ghost var t1, c1 := trace, View();
        InstallTrans(false);
        CommitPathStep(g, t1, c1, Install(0), trace, View(), ClearHead);
        ClearHeader();
        PathEnd(g, old(trace), old(View()), WriteLog(0), t1, c1, Install(0), trace, View());
      }
    }

    /** log.lh.n = 0; write_head(). */
    method ClearHeader()
      requires Valid()
      modifies this`disk, this`mem, this`trace, this`n
      ensures Valid() && View() == ClearStep(g, old(View()))
      ensures trace == old(trace) + [disk]
    {
      n := 0;
      WriteHeader();
    }

    /** The second critical section of end_op, after commit() returns. */
    method EndCommit()
      requires Valid()
      modifies this`committing
      ensures Valid() && View() == CommitStep(g, old(View()), Finish)
    {
      committing := false;
    }

    /** recover_from_log, run on the image a crash left. */
    method RecoverFromLog()
      requires Valid() && HeadOk(g, mem)
      modifies this`disk, this`mem, this`trace, this`pins, this`n, block
      ensures Valid()
      ensures var c := old(View()).(lh := HeadList(old(mem)[g.start]));
              && trace == old(trace) + RecoverTrace(g, c, 0)
              && View() == RecoverEnd(g, c, 0)
    {
      ReadHeader();
      InstallTrans(true);
      ClearHeader();
    }
  }

  lemma PathStart(g: Geometry, t: seq<seq<Block>>, c: Core, pc: CommitPc)
    requires CommitReady(g, c, pc)
    ensures CommitPath(g, t, c, pc, t, c, pc)
  {
  }

  lemma PathEnd(g: Geometry, t0: seq<seq<Block>>, c0: Core, pc0: CommitPc,
                t1: seq<seq<Block>>, c1: Core, pc1: CommitPc, t: seq<seq<Block>>, c: Core)
    requires CommitPath(g, t0, c0, pc0, t1, c1, pc1) && CommitPath(g, t1, c1, pc1, t, c, Finish)
    ensures t == t0 + CommitTrace(g, c0, pc0)
    ensures c == CommitEnd(g, c0, pc0)
  {
    hide CommitStep;
  }

  lemma RecoverStart(g: Geometry, t: seq<seq<Block>>, c: Core)
    requires c.Shape(g)
    ensures RecoverPath(g, t, c, t, c, 0)
  {
  }

  lemma TraceCons(t: seq<seq<Block>>, d: seq<Block>, rest: seq<seq<Block>>)
    ensures t + ([d] + rest) == (t + [d]) + rest
  {
  }

  // ----- The code's images are the protocol's crash points -----

  /** In any run, after k disk writes of commit() the disk holds the k-th image of the
      code's trace, so the crash theorems speak about the code's own images. */
  lemma {:induction false} TraceIsRun(g: Geometry, s: State, id: OpId, k: nat, s': State)
    requires Inv(g, s) && s.mode.Running? && id in s.committers
    requires CommitReady(g, s.core, s.committers[id])
    requires k <= |CommitTrace(g, s.core, s.committers[id])|
    requires Runs(g, s, Commits(id, k), s')
    ensures s'.core.disk == if k == 0 then s.core.disk else CommitTrace(g, s.core, s.committers[id])[k - 1]
    decreases k
  {
    hide CommitStep, Inv;
    if k > 0 {
      assert Commits(id, k)[1..] == Commits(id, k - 1);
      CommitKeeps(g, s, id);
      var s1 := Apply(g, s, CommitIO(id));
      NextReady(g, s.core, s.committers[id]);
      TraceIsRun(g, s1, id, k - 1, s');
    }
  }

  lemma NextReady(g: Geometry, c: Core, pc: CommitPc)
    requires CommitReady(g, c, pc)
    ensures CommitReady(g, CommitStep(g, c, pc), CommitNext(|c.lh|, pc))
  {
  }

  /** Writes commit() makes before the header write that commits. */
  function BeforeHeader(n: nat, pc: CommitPc): (k: nat) {
    match pc
    case WriteLog(tail) => if tail < n then n - tail else 0
    case _ => 0
  }

  /** Every image commit() leaves recovers to the old contents before the header
      write has landed, and to the new contents from then on. */
  lemma {:induction false} CommitImagesRecover(g: Geometry, c: Core, stable: seq<Block>, current: seq<Update>,
                                               pc: CommitPc, i: nat)
    requires CommitData(g, c, stable, current, pc) && CommitReady(g, c, pc)
    requires i < |CommitTrace(g, c, pc)|
    requires forall u :: u in current ==> u.block < |stable|
    ensures DiskOk(g, CommitTrace(g, c, pc)[i],
                   if i < BeforeHeader(|c.lh|, pc) then stable else Replay(stable, current))
    decreases i
  {
    hide DiskOk, CommitStep, Replay, CommitData, CommitReady;
    var c', pc' := CommitStep(g, c, pc), CommitNext(|c.lh|, pc);
    NextReady(g, c, pc);
    if pc == WriteHead {
      WriteHeadData(g, c, stable, current);
      CommitDataDiskOk(g, c', Replay(stable, current), [], pc');
      ReplayNone(Replay(stable, current));
      if i > 0 {
        CommitImagesRecover(g, c', Replay(stable, current), [], pc', i - 1);
      }
    } else {
      CommitStepData(g, c, stable, current, pc);
      CommitDataDiskOk(g, c', stable, current, pc');
      LhKept(g, c, pc);
      if !pc.WriteLog? {
        CommittedNone(g, c, stable, current, pc);
        ReplayNone(stable);
      }
      if i > 0 {
        CommitImagesRecover(g, c', stable, current, pc', i - 1);
      }
    }
  }

  lemma CommittedNone(g: Geometry, c: Core, stable: seq<Block>, current: seq<Update>, pc: CommitPc)
    requires CommitData(g, c, stable, current, pc) && (pc.Install? || pc.ClearHead?)
    ensures current == []
  {
  }

  /** recover_from_log on any image that means `stable`: every image it passes through
      still means `stable`, and in the end the home blocks are `stable` and the log empty. */
  lemma {:induction false} RecoverImagesRecover(g: Geometry, c: Core, stable: seq<Block>, tail: nat)
    requires Reinstalled(g, c, stable, tail) && c.pins == multiset{}
    ensures forall i :: 0 <= i < |RecoverTrace(g, c, tail)| ==> DiskOk(g, RecoverTrace(g, c, tail)[i], stable)
    ensures Open(g, RecoverEnd(g, c, tail), stable, [])
    decreases |c.lh| - tail
  {
    hide DiskOk, Open;
    if tail == |c.lh| {
      ClearLogOpens(g, c, stable);
      OpenDiskOk(g, ClearStep(g, c), stable, []);
    } else {
      ReinstallKeeps(g, c, stable, tail);
      RecoverImagesRecover(g, RecoverStep(g, c, Reinstall(tail)), stable, tail + 1);
    }
  }
}
