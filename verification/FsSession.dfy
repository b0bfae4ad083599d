/** Block ownership in terms of the disk image alone, after every run of calls. */
module FsSession {
  import opened Bytes
  import opened FsLayout
  import opened FsImage
  import opened FsFile
  import opened FsBytes
  import opened FsCode
  import opened FsIo
  import opened FsRead
  import opened FsTrunc

  /** Slot k of inode i points to block a. */
  ghost predicate PointsTo(m: Image, i: nat, k: nat, a: nat)
    requires m.Shape()
  {
    i < |m.itab| && k < SLOTS && SlotAddr(m, i, k) == a
  }

  /** A data block is marked in use exactly when some slot points to it, and then one slot does. */
  ghost predicate OneSlotEach(m: Image)
    requires m.Shape()
  {
    && (forall a :: m.sb.data <= a < m.sb.size ==>
          m.sb.BBlock(a) < |m.blocks| && (Bit(m.sb, m.blocks, a) <==> exists i: nat, k: nat :: PointsTo(m, i, k, a)))
    && (forall i: nat, k: nat, j: nat, l: nat, a: nat ::
          a != 0 && PointsTo(m, i, k, a) && PointsTo(m, j, l, a) ==> i == j && k == l)
  }

  lemma SlotOwned(m: Image, own: Owners, i: nat, k: nat, a: nat)
    requires Inv(m, own) && a != 0 && PointsTo(m, i, k, a)
    ensures a in own && own[a] == InSlot(Slot(i, k))
  {
    assert SlotOk(m, own, i, k);
  }

  lemma OwnerHolds(m: Image, own: Owners, a: nat)
    requires Inv(m, own) && Settled(own) && m.sb.data <= a < m.sb.size
    ensures m.sb.BBlock(a) < |m.blocks| && (Bit(m.sb, m.blocks, a) <==> exists i: nat, k: nat :: PointsTo(m, i, k, a))
  {
    hide SlotsOk, InodesOk, Bit, Super.BBlock;
    if a in own {
      assert PointsTo(m, own[a].slot.inum, own[a].slot.k, a);
    }
    forall i: nat, k: nat | PointsTo(m, i, k, a)
      ensures a in own
    {
      SlotOwned(m, own, i, k, a);
    }
  }

  /** The invariant that every call keeps says just this of the disk. */
  lemma Ownership(m: Image, own: Owners)
    requires Inv(m, own) && Settled(own)
    ensures OneSlotEach(m)
  {
    hide SlotsOk, OwnersOk, BitsOk, InodesOk, Bit, Super.BBlock;
    forall a | m.sb.data <= a < m.sb.size
      ensures m.sb.BBlock(a) < |m.blocks| && (Bit(m.sb, m.blocks, a) <==> exists i: nat, k: nat :: PointsTo(m, i, k, a))
    {
      OwnerHolds(m, own, a);
    }
    forall i: nat, k: nat, j: nat, l: nat, a: nat | a != 0 && PointsTo(m, i, k, a) && PointsTo(m, j, l, a)
      ensures i == j && k == l
    {
      SlotOwned(m, own, i, k, a);
      SlotOwned(m, own, j, l, a);
    }
  }

  datatype Call =
    | Create(typ: nat)
    | Write(i: nat, src: seq<byte>, readable: nat, off: nat)
    | Read(i: nat, writable: nat, off: nat, n: nat)
    | Truncate(i: nat)
    | Put(i: nat, ref: nat, valid: bool)

  /** What callers see to: a file that is open and lengths that fit 32 bits. */
  predicate Allowed(itab: seq<Inode>, call: Call) {
    match call
    case Create(typ) => typ < 0x1_0000
    case Write(i, src, _, off) => i < |itab| && itab[i].typ != 0 && off < UINT_MAX && |src| < UINT_MAX
    case Read(i, _, off, n) => i < |itab| && itab[i].typ != 0 && off < UINT_MAX && n < UINT_MAX
    case Truncate(i) => i < |itab|
    case Put(i, ref, _) => i < |itab| && ref > 0
  }

  /** One call. "freeing free block" is unreachable. */
  method Serve(fs: FileSystem, call: Call) returns (panicked: bool)
    requires fs.Valid() && Synced(fs.View()) && Allowed(fs.itab, call)
    modifies fs
    ensures !panicked && fs.Valid() && Synced(fs.View()) && OneSlotEach(fs.View())
  {
    hide SlotsOk, OwnersOk, BitsOk, InodesOk, Synced, Contents, OneSlotEach, Wrote, Account, Truncated;
    panicked := false;
    match call {
      case Create(typ) =>
        var _ := Ialloc(fs, typ);
      case Write(i, src, readable, off) =>
        var _, _, _ := Writei(fs, i, src, readable, off);
      case Read(i, writable, off, n) =>
        var _, _ := Readi(fs, i, writable, off, n);
      case Truncate(i) =>
        panicked := Itrunc(fs, i);
      case Put(i, ref, valid) =>
        var refs;
        panicked, refs := Iput(fs, i, ref, valid);
    }
    Ownership(fs.View(), fs.own);
  }

  /** Any run of calls leaves every data block with its one slot, or free. */
  method Session(fs: FileSystem, calls: seq<Call>) returns (panicked: bool)
    requires fs.Valid() && Synced(fs.View())
    modifies fs
    ensures !panicked && fs.Valid() && Synced(fs.View()) && OneSlotEach(fs.View())
  {
    hide SlotsOk, OwnersOk, BitsOk, InodesOk, Synced, OneSlotEach;
    Ownership(fs.View(), fs.own);
    panicked := false;
    for k := 0 to |calls|
      invariant !panicked && fs.Valid() && Synced(fs.View()) && OneSlotEach(fs.View())
    {
      if Allowed(fs.itab, calls[k]) {
        panicked := Serve(fs, calls[k]);
      }
    }
  }
}
