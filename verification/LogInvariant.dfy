/** What every step of the log protocol keeps, and what follows for whole runs:
    crash atomicity, group commit, and the space reservation. */
module LogInvariant {
  import opened Collections
  import opened Blocks
  import opened LogFormat
  import opened LogProtocol

  // ----- The invariant -----

  /** Who is where: at most one committer, and never beside an active operation. */
  ghost predicate Control(s: State) {
    && s.core.outstanding == |s.active|
    && (forall i, j :: i in s.committers && j in s.committers ==> i == j)
    && (s.core.committing <==> s.committers != map[])
    && (s.core.committing ==> s.active == {})
    && (s.mode.Recovering? ==> s.active == {} && s.committers == map[] && s.waiting == {})
    && s.active <= s.begun
    && s.wrote.Keys == s.active
    && (s.waiting != {} ==> s.active != {} || s.committers != map[])
    && (s.mode.Running? && s.active == {} && s.committers == map[] ==> s.core.lh == [])
  }

  /** The disk image is the stable state, seen through its log header. */
  ghost predicate DiskOk(g: Geometry, disk: seq<Block>, stable: seq<Block>) {
    && g.Valid() && |disk| == |stable| == g.size
    && HeadOk(g, disk)
    && Distinct(HeadList(disk[g.start]))
    && forall b :: 0 <= b < g.size && g.Home(b) ==> Recovered(g, disk, b) == stable[b]
  }

  ghost predicate LogMirrored(g: Geometry, c: Core) {
    && c.Shape(g) && Distinct(c.lh)
    && forall b :: 0 <= b < g.size && g.InLog(b) ==> c.mem[b] == c.disk[b]
  }

  /** b is one of the logged blocks from index t on. */
  ghost predicate Pending(lh: seq<nat>, t: nat, b: nat) {
    exists j :: t <= j < |lh| && lh[j] == b
  }

  /** Home blocks that are not logged at index t or later are the same in cache and on disk. */
  ghost predicate Clean(g: Geometry, c: Core, t: nat)
    requires c.Shape(g)
  {
    forall b {:trigger c.disk[b]} :: 0 <= b < g.size && g.Home(b) ==> c.mem[b] == c.disk[b] || Pending(c.lh, t, b)
  }

  ghost predicate Listed(lh: seq<nat>, us: seq<Update>) {
    forall u :: u in us ==> Pending(lh, 0, u.block)
  }

  ghost predicate HeadIs(b: Block, lh: seq<nat>) {
    |lh| <= LOGBLOCKS && HeadCount(b) == |lh| && HeadList(b) == lh
  }

  /** Only blocks of the open transaction differ between cache and disk, and they are pinned. */
  ghost predicate Open(g: Geometry, c: Core, stable: seq<Block>, current: seq<Update>) {
    && LogMirrored(g, c)
    && HeadCount(c.disk[g.start]) == 0
    && SameHome(g, c.disk, stable)
    && Clean(g, c, 0)
    && Listed(c.lh, current)
    && (forall u :: u in current ==> u.block < |stable|)
    && SameHome(g, c.mem, Replay(stable, current))
    && c.pins == multiset(c.lh)
  }

  /** The first n logged blocks are copied to the log. */
  ghost predicate Copied(g: Geometry, c: Core, n: nat)
    requires c.Shape(g) && n <= |c.lh|
  {
    forall j :: 0 <= j < n ==> c.disk[g.Slot(j)] == c.mem[c.lh[j]]
  }

  /** The transaction is committed and its first t blocks are home. */
  ghost predicate Committed(g: Geometry, c: Core, stable: seq<Block>, current: seq<Update>, t: nat) {
    && LogMirrored(g, c) && t <= |c.lh|
    && current == []
    && HeadIs(c.disk[g.start], c.lh)
    && SameHome(g, c.mem, stable)
    && Copied(g, c, |c.lh|)
    && Clean(g, c, t)
    && c.pins == multiset(c.lh[t..])
  }

  ghost predicate CommitData(g: Geometry, c: Core, stable: seq<Block>, current: seq<Update>, pc: CommitPc) {
    match pc
    case WriteLog(tail) => Open(g, c, stable, current) && tail < |c.lh| && Copied(g, c, tail)
    case WriteHead => Open(g, c, stable, current) && |c.lh| > 0 && Copied(g, c, |c.lh|)
    case Install(tail) => tail < |c.lh| && Committed(g, c, stable, current, tail)
    case ClearHead => Committed(g, c, stable, current, |c.lh|)
    case Finish => Open(g, c, stable, current) && c.lh == []
  }

  ghost predicate Reinstalled(g: Geometry, c: Core, stable: seq<Block>, t: nat) {
    && DiskOk(g, c.disk, stable) && c.Shape(g)
    && c.mem == c.disk && c.lh == HeadList(c.disk[g.start]) && t <= |c.lh|
    && forall j :: 0 <= j < t ==> c.disk[c.lh[j]] == c.disk[g.Slot(j)]
  }

  ghost predicate RecoverData(g: Geometry, c: Core, stable: seq<Block>, pc: RecoverPc) {
    && c.pins == multiset{}
    && match pc
       case ReadHead => DiskOk(g, c.disk, stable) && c.mem == c.disk && c.lh == []
       case Reinstall(tail) => Reinstalled(g, c, stable, tail) && tail < |c.lh|
       case ClearLog => Reinstalled(g, c, stable, |c.lh|)
  }

  ghost predicate Data(g: Geometry, s: State)
    requires s.hist.Fits()
  {
    var stable := s.hist.Stable();
    if s.mode.Recovering? then
      s.hist.current == [] && RecoverData(g, s.core, stable, s.mode.pc)
    else
      && (s.committers == map[] ==> Open(g, s.core, stable, s.hist.current))
      && forall id :: id in s.committers ==> CommitData(g, s.core, stable, s.hist.current, s.committers[id])
  }

  /** Every operation is durable as a whole or not at all. */
  ghost predicate Whole(h: History, active: set<OpId>, id: OpId) {
    && (id in active || By(h.current, id) != [] ==>
          By(h.durable, id) == [] && By(h.issued, id) == By(h.current, id))
    && (By(h.durable, id) != [] ==> By(h.issued, id) == By(h.durable, id))
  }

  ghost predicate Histories(h: History, active: set<OpId>, begun: set<OpId>) {
    && (forall u :: u in h.issued ==> u.op in begun)
    && (forall u :: u in h.durable ==> u.op in begun)
    && (forall u :: u in h.current ==> u.op in begun)
    && forall id :: Whole(h, active, id)
  }

  ghost predicate Inv(g: Geometry, s: State) {
    && g.Valid() && s.core.Shape(g) && |s.hist.init| == g.size
    && s.hist.Fits()
    && Control(s)
    && Data(g, s)
    && Histories(s.hist, s.active, s.begun)
  }

  // ----- Every crash point recovers to the stable state -----

  lemma OpenDiskOk(g: Geometry, c: Core, stable: seq<Block>, current: seq<Update>)
    requires Open(g, c, stable, current)
    ensures DiskOk(g, c.disk, stable)
  {
  }

  lemma CommittedDiskOk(g: Geometry, c: Core, stable: seq<Block>, current: seq<Update>, t: nat)
    requires Committed(g, c, stable, current, t)
    ensures DiskOk(g, c.disk, stable)
  {
    forall b | 0 <= b < g.size && g.Home(b)
      ensures Recovered(g, c.disk, b) == stable[b]
    {
      if b in c.lh {
        var i :| 0 <= i < |c.lh| && c.lh[i] == b;
        LoggedAt(g, c.disk, c.lh, |c.lh|, i);
      } else {
        assert c.lh[..|c.lh|] == c.lh;
        LoggedOutside(g, c.disk, c.lh, |c.lh|, b);
        assert !Pending(c.lh, t, b);
      }
    }
  }

  lemma CommitDataDiskOk(g: Geometry, c: Core, stable: seq<Block>, current: seq<Update>, pc: CommitPc)
    requires CommitData(g, c, stable, current, pc)
    ensures DiskOk(g, c.disk, stable)
  {
    match pc
    case Install(tail) => CommittedDiskOk(g, c, stable, current, tail);
    case ClearHead => CommittedDiskOk(g, c, stable, current, |c.lh|);
    case _ => OpenDiskOk(g, c, stable, current);
  }

  lemma InvDiskOk(g: Geometry, s: State)
    requires Inv(g, s)
    ensures DiskOk(g, s.core.disk, s.hist.Stable())
  {
    var stable := s.hist.Stable();
    if s.mode.Running? {
      if s.committers == map[] {
        OpenDiskOk(g, s.core, stable, s.hist.current);
      } else {
        var id :| id in s.committers;
        CommitDataDiskOk(g, s.core, stable, s.hist.current, s.committers[id]);
      }
    }
  }

  // ----- The data side of each step -----

  lemma LogWriteLists(c: Core, b: nat, v: Block, x: nat)
    requires b < |c.mem|
    ensures Pending(LogWrite(c, b, v).lh, 0, x) <==> Pending(c.lh, 0, x) || x == b
  {
    var lh' := LogWrite(c, b, v).lh;
    assert forall i :: 0 <= i < |c.lh| ==> lh'[i] == c.lh[i];
    if x == b {
      var j :| 0 <= j < |lh'| && lh'[j] == b;
    }
  }

  lemma LogWriteCleans(g: Geometry, c: Core, u: Update)
    requires c.Shape(g) && g.Home(u.block) && |c.lh| < LOGBLOCKS
    requires Clean(g, c, 0)
    ensures Clean(g, LogWrite(c, u.block, u.data), 0)
  {
    var c' := LogWrite(c, u.block, u.data);
    forall b | 0 <= b < g.size && g.Home(b)
      ensures c'.mem[b] == c'.disk[b] || Pending(c'.lh, 0, b)
    {
      LogWriteLists(c, u.block, u.data, b);
      assert c'.disk[b] == c.disk[b];
    }
  }

  lemma LogWriteListed(c: Core, us: seq<Update>, u: Update)
    requires u.block < |c.mem|
    requires Listed(c.lh, us)
    ensures Listed(LogWrite(c, u.block, u.data).lh, us + [u])
  {
    forall w | w in us + [u]
      ensures Pending(LogWrite(c, u.block, u.data).lh, 0, w.block)
    {
      LogWriteLists(c, u.block, u.data, w.block);
      assert w in us || w == u;
    }
  }

  lemma ReplayOne(x: seq<Block>, us: seq<Update>, u: Update)
    requires u.block < |x| && forall w :: w in us ==> w.block < |x|
    ensures forall w :: w in us + [u] ==> w.block < |x|
    ensures Replay(x, us + [u]) == Replay(x, us)[u.block := u.data]
  {
    assert (us + [u])[..|us + [u]| - 1] == us;
  }

  lemma LogWriteMirrors(g: Geometry, c: Core, b: nat, v: Block)
    requires LogMirrored(g, c) && c.pins == multiset(c.lh)
    requires g.Home(b) && |c.lh| < LOGBLOCKS
    ensures LogMirrored(g, LogWrite(c, b, v))
    ensures LogWrite(c, b, v).pins == multiset(LogWrite(c, b, v).lh)
  {
    if b !in c.lh {
      assert Distinct(c.lh + [b]);
    }
  }

  lemma LogWriteKeepsOpen(g: Geometry, c: Core, stable: seq<Block>, current: seq<Update>, u: Update)
    requires Open(g, c, stable, current)
    requires g.Home(u.block) && |c.lh| < LOGBLOCKS
    ensures Open(g, LogWrite(c, u.block, u.data), stable, current + [u])
  {
    hide HeadCount, Clean, Listed, Replay, Distinct;
    LogWriteMirrors(g, c, u.block, u.data);
    LogWriteCleans(g, c, u);
    LogWriteListed(c, current, u);
    ReplayOne(stable, current, u);
  }

  lemma WriteLogKeepsOpen(g: Geometry, c: Core, stable: seq<Block>, current: seq<Update>, t: nat)
    requires Open(g, c, stable, current) && t < |c.lh| && Copied(g, c, t)
    ensures Open(g, CommitStep(g, c, WriteLog(t)), stable, current)
    ensures Copied(g, CommitStep(g, c, WriteLog(t)), t + 1)
  {
    hide Clean, LogMirrored, SameHome, HeadCount, Listed, Copied;
    MirroredShape(g, c);
    assert g.InLog(g.Slot(t)) && g.Slot(t) < g.size;
    LogStoreKeeps(g, c, g.Slot(t), c.mem[c.lh[t]]);
    MoreCopies(g, c, t);
  }

  lemma MirroredShape(g: Geometry, c: Core)
    requires LogMirrored(g, c)
    ensures c.Shape(g)
  {
  }

  lemma MoreCopies(g: Geometry, c: Core, t: nat)
    requires LogMirrored(g, c) && t < |c.lh| && Copied(g, c, t)
    ensures var c' := c.Store(g.Slot(t), c.mem[c.lh[t]]);
            c'.Shape(g) && c'.disk[g.start] == c.disk[g.start] && Copied(g, c', t + 1)
  {
  }

  /** Writing the header is the commit point: stable becomes the whole transaction. */
  lemma WriteHeadCommits(g: Geometry, c: Core, stable: seq<Block>, current: seq<Update>)
    requires Open(g, c, stable, current) && |c.lh| > 0 && Copied(g, c, |c.lh|)
    ensures Committed(g, CommitStep(g, c, WriteHead), Replay(stable, current), [], 0)
  {
    hide Clean, Copied, LogMirrored, SameHome, EncodeHead, HeadCount, HeadList, Listed;
    MirroredShape(g, c);
    HeadRoundTrip(c.mem[g.start], c.lh);
    LogStoreKeeps(g, c, g.start, EncodeHead(c.mem[g.start], c.lh));
    HeadKeepsCopies(g, c, EncodeHead(c.mem[g.start], c.lh));
    assert c.lh[0..] == c.lh;
  }

  /** Writing a block of the log leaves the home blocks alone. */
  lemma LogStoreKeeps(g: Geometry, c: Core, b: nat, v: Block)
    requires LogMirrored(g, c) && b < g.size && g.InLog(b)
    ensures var c' := c.Store(b, v);
            && LogMirrored(g, c') && c'.lh == c.lh && c'.pins == c.pins && c'.disk[b] == c'.mem[b] == v
            && (Clean(g, c, 0) ==> Clean(g, c', 0))
            && (forall x :: SameHome(g, c.mem, x) ==> SameHome(g, c'.mem, x))
            && (forall x :: SameHome(g, c.disk, x) ==> SameHome(g, c'.disk, x))
  {
  }

  /** The header is not one of the copies. */
  lemma HeadKeepsCopies(g: Geometry, c: Core, v: Block)
    requires LogMirrored(g, c) && Copied(g, c, |c.lh|)
    ensures var c' := c.Store(g.start, v); c'.Shape(g) && Copied(g, c', |c'.lh|)
  {
  }

  lemma SuffixSplit(lh: seq<nat>, t: nat)
    requires t < |lh|
    ensures multiset(lh[t..]) - multiset{lh[t]} == multiset(lh[t + 1..])
  {
    assert lh[t..] == [lh[t]] + lh[t + 1..];
  }

  lemma InstallCleans(g: Geometry, c: Core, c': Core, t: nat)
    requires c.Shape(g) && c'.Shape(g) && t < |c.lh|
    requires Clean(g, c, t)
    requires c'.lh == c.lh && c'.mem == c.mem && c'.disk == c.disk[c.lh[t] := c.mem[c.lh[t]]]
    ensures Clean(g, c', t + 1)
  {
  }

  lemma InstallKeepsCommitted(g: Geometry, c: Core, stable: seq<Block>, t: nat)
    requires Committed(g, c, stable, [], t) && t < |c.lh|
    ensures Committed(g, CommitStep(g, c, Install(t)), stable, [], t + 1)
  {
    hide HeadIs, SameHome, Clean, EncodeHead;
    var c' := CommitStep(g, c, Install(t));
    var b0 := c.lh[t];
    assert c.mem[g.Slot(t)] == c.mem[b0] by {
      assert g.InLog(g.Slot(t));
    }
    assert c'.mem == c.mem;
    assert c'.disk == c.disk[b0 := c.mem[b0]];
    SuffixSplit(c.lh, t);
    InstallCleans(g, c, c', t);
    hide CommitStep, Copied, LogMirrored;
    InstallKeepsLog(g, c, t);
  }

  /** Installing a home block leaves the log area alone. */
  lemma InstallKeepsLog(g: Geometry, c: Core, t: nat)
    requires LogMirrored(g, c) && Copied(g, c, |c.lh|) && t < |c.lh|
    ensures var c' := CommitStep(g, c, Install(t));
            LogMirrored(g, c') && Copied(g, c', |c'.lh|) && c'.disk[g.start] == c.disk[g.start]
  {
  }

  lemma ClearHeadOpens(g: Geometry, c: Core, stable: seq<Block>)
    requires Committed(g, c, stable, [], |c.lh|)
    ensures Open(g, CommitStep(g, c, ClearHead), stable, [])
  {
    HeadRoundTrip(c.mem[g.start], []);
    assert c.lh[|c.lh|..] == [];
  }

  lemma WriteLogData(g: Geometry, c: Core, stable: seq<Block>, current: seq<Update>, t: nat)
    requires CommitData(g, c, stable, current, WriteLog(t))
    ensures CommitReady(g, c, WriteLog(t))
    ensures CommitData(g, CommitStep(g, c, WriteLog(t)), stable, current, CommitNext(|c.lh|, WriteLog(t)))
  {
    hide HeadIs, Clean, SameHome, Distinct;
    WriteLogKeepsOpen(g, c, stable, current, t);
    assert CommitStep(g, c, WriteLog(t)).lh == c.lh;
    hide Open, Copied, CommitStep;
  }

  lemma InstallData(g: Geometry, c: Core, stable: seq<Block>, current: seq<Update>, t: nat)
    requires CommitData(g, c, stable, current, Install(t))
    ensures CommitReady(g, c, Install(t))
    ensures CommitData(g, CommitStep(g, c, Install(t)), stable, current, CommitNext(|c.lh|, Install(t)))
  {
    hide HeadIs, Clean, SameHome, Copied, Distinct;
    InstallKeepsCommitted(g, c, stable, t);
    assert CommitStep(g, c, Install(t)).lh == c.lh;
    hide Committed, CommitStep;
  }

  lemma CommitStepData(g: Geometry, c: Core, stable: seq<Block>, current: seq<Update>, pc: CommitPc)
    requires CommitData(g, c, stable, current, pc) && pc != Finish && pc != WriteHead
    ensures CommitReady(g, c, pc)
    ensures CommitData(g, CommitStep(g, c, pc), stable, current, CommitNext(|c.lh|, pc))
  {
    match pc
    case WriteLog(tail) => WriteLogData(g, c, stable, current, tail);
    case Install(tail) => InstallData(g, c, stable, current, tail);
    case ClearHead => ClearHeadOpens(g, c, stable);
  }

  /** Installing a logged block again does not change what the image recovers to. */
  lemma ReinstallKeeps(g: Geometry, c: Core, stable: seq<Block>, t: nat)
    requires Reinstalled(g, c, stable, t) && t < |c.lh|
    ensures Reinstalled(g, RecoverStep(g, c, Reinstall(t)), stable, t + 1)
  {
    var c' := RecoverStep(g, c, Reinstall(t));
    assert c'.disk == c.disk[c.lh[t] := c.disk[g.Slot(t)]];
    assert c'.disk[g.start] == c.disk[g.start];
    forall b | 0 <= b < g.size && g.Home(b)
      ensures Recovered(g, c'.disk, b) == stable[b]
    {
      if b in c.lh {
        var i :| 0 <= i < |c.lh| && c.lh[i] == b;
        LoggedAt(g, c.disk, c.lh, |c.lh|, i);
        LoggedAt(g, c'.disk, c.lh, |c.lh|, i);
        assert g.InLog(g.Slot(i));
      } else {
        assert c.lh[..|c.lh|] == c.lh;
        LoggedOutside(g, c.disk, c.lh, |c.lh|, b);
        LoggedOutside(g, c'.disk, c.lh, |c.lh|, b);
      }
    }
  }

  /** With every logged block installed, the stable state is home. */
  lemma ReinstalledHome(g: Geometry, c: Core, stable: seq<Block>, b: nat)
    requires Reinstalled(g, c, stable, |c.lh|) && b < g.size && g.Home(b)
    ensures c.disk[b] == stable[b]
  {
    assert Recovered(g, c.disk, b) == stable[b];
    if b in c.lh {
      var i :| 0 <= i < |c.lh| && c.lh[i] == b;
      LoggedAt(g, c.disk, c.lh, |c.lh|, i);
    } else {
      assert c.lh[..|c.lh|] == c.lh;
      LoggedOutside(g, c.disk, c.lh, |c.lh|, b);
    }
  }

  /** A completed recovery leaves the stable state home and the log empty. */
  lemma ClearLogOpens(g: Geometry, c: Core, stable: seq<Block>)
    requires Reinstalled(g, c, stable, |c.lh|) && c.pins == multiset{}
    ensures Open(g, ClearStep(g, c), stable, [])
  {
    hide Recovered, HeadOk, Distinct, HeadList, EncodeHead, Logged;
    HeadRoundTrip(c.mem[g.start], []);
    var c' := ClearStep(g, c);
    assert Distinct([]) by {
      NoneTwice();
    }
    forall b | 0 <= b < g.size && g.Home(b)
      ensures c'.disk[b] == stable[b]
    {
      ReinstalledHome(g, c, stable, b);
    }
  }

  lemma NoneTwice()
    ensures Distinct([])
  {
  }

  lemma RecoverStepData(g: Geometry, c: Core, stable: seq<Block>, pc: RecoverPc)
    requires RecoverData(g, c, stable, pc) && pc != ClearLog && c.Shape(g)
    ensures RecoverReady(g, c, pc)
    ensures RecoverData(g, RecoverStep(g, c, pc), stable, RecoverNext(|RecoverStep(g, c, pc).lh|, pc))
  {
    if pc.Reinstall? {
      ReinstallKeeps(g, c, stable, pc.tail);
    }
  }
}
