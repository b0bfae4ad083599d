/** The buffer cache is a plain block store, in every interleaving. */
module BufCacheProofs {
  import opened Blocks
  import opened BufCache

  lemma InitialInv(s: State)
    requires Initial(s)
    ensures Inv(s)
  {
  }

  lemma SameKeys(bufs: seq<Buf>, bufs': seq<Buf>, key: Key)
    requires |bufs| == |bufs'| && forall i :: 0 <= i < |bufs| ==> bufs'[i].key == bufs[i].key
    ensures Cached(bufs, key) <==> Cached(bufs', key)
  {
  }

  /** s' differs from s only in buffer i, the progress of references to it, and its block. */
  ghost predicate Local(s: State, s': State, i: nat)
    requires Shape(s) && Shape(s') && i < NBUF
  {
    && (forall j :: 0 <= j < NBUF && j != i ==>
          s'.bufs[j] == s.bufs[j] && s'.users[j] == s.users[j] && s'.pins[j] == s.pins[j])
    && s'.bufs[i].key == s.bufs[i].key && s'.users == s.users
    && s'.refs.Keys == s.refs.Keys
    && (forall q :: q in s.refs ==> s'.refs[q].buf == s.refs[q].buf && (s.refs[q].buf != i ==> s'.refs[q] == s.refs[q]))
    && (forall k: Key :: k != s.bufs[i].key ==>
          Lookup(s'.disk, k) == Lookup(s.disk, k) && Lookup(s'.store, k) == Lookup(s.store, k))
    && s'.lru == s.lru
  }

  /** Only the buffer at hand needs looking at. */
  lemma LocalKeeps(s: State, s': State, i: nat)
    requires Inv(s) && Shape(s') && i < NBUF && Local(s, s', i)
    requires BufOk(s', i)
    requires forall q :: q in s.refs && s.refs[q].buf == i ==> RefOk(s', q)
    ensures Inv(s')
  {
    forall j | 0 <= j < NBUF
      ensures BufOk(s', j)
    {
      assert BufOk(s, j);
      if j != i && s.bufs[j].key.dev >= 1 {
        assert s.bufs[j].key != s.bufs[i].key;
      }
    }
    forall q | q in s'.refs ensures RefOk(s', q) { assert RefOk(s, q); }
    forall key: Key | key.dev >= 1 && !Cached(s'.bufs, key)
      ensures Lookup(s'.disk, key) == Lookup(s'.store, key)
    {
      SameKeys(s.bufs, s'.bufs, key);
      assert key != s.bufs[i].key;
    }
  }

  lemma LockKeeps(s: State, r: RefId)
    requires Inv(s) && Enabled(s, Lock(r))
    ensures Inv(Apply(s, Lock(r)))
  {
    hide Hit, Victim, MoveToFront, IndexOf, Unique, Permutation, Cached;
    var i := s.refs[r].buf;
    assert BufOk(s, i) && RefOk(s, r);
    var s' := Apply(s, Lock(r));
    forall q | q in s.refs && s.refs[q].buf == i
      ensures RefOk(s', q)
    {
      assert RefOk(s, q);
    }
    hide Inv, RefOk;
    assert Local(s, s', i);
    LocalKeeps(s, s', i);
  }

  lemma FillKeeps(s: State, r: RefId)
    requires Inv(s) && Enabled(s, Fill(r))
    ensures Inv(Apply(s, Fill(r)))
  {
    hide Hit, Victim, MoveToFront, IndexOf, Unique, Permutation, Cached;
    var i := s.refs[r].buf;
    assert BufOk(s, i) && RefOk(s, r);
    assert forall q :: q in s.refs && s.refs[q].buf == i ==> RefOk(s, q);
    hide Inv;
    LocalKeeps(s, Apply(s, Fill(r)), i);
  }

  lemma WriteDiskKeeps(s: State, r: RefId)
    requires Inv(s) && Enabled(s, WriteDisk(r))
    ensures Inv(Apply(s, WriteDisk(r)))
  {
    hide Hit, Victim, MoveToFront, IndexOf, Unique, Permutation, Cached;
    var i := s.refs[r].buf;
    assert BufOk(s, i) && RefOk(s, r);
    assert forall q :: q in s.refs && s.refs[q].buf == i ==> RefOk(s, q);
    hide Inv;
    LocalKeeps(s, Apply(s, WriteDisk(r)), i);
  }

  lemma PinKeeps(s: State, r: RefId)
    requires Inv(s) && Enabled(s, Pin(r))
    ensures Inv(Apply(s, Pin(r)))
  {
    hide Hit, Victim, MoveToFront, IndexOf, Unique, Permutation, Cached;
    var i := s.refs[r].buf;
    assert BufOk(s, i) && RefOk(s, r);
    assert forall q :: q in s.refs && s.refs[q].buf == i ==> RefOk(s, q);
    hide Inv;
    LocalKeeps(s, Apply(s, Pin(r)), i);
  }

  lemma UnpinKeeps(s: State, r: RefId)
    requires Inv(s) && Enabled(s, Unpin(r))
    ensures Inv(Apply(s, Unpin(r)))
  {
    hide Hit, Victim, MoveToFront, IndexOf, Unique, Permutation, Cached;
    var i := s.refs[r].buf;
    assert BufOk(s, i) && RefOk(s, r);
    assert forall q :: q in s.refs && s.refs[q].buf == i ==> RefOk(s, q);
    hide Inv;
    LocalKeeps(s, Apply(s, Unpin(r)), i);
  }

  lemma UnlockKeeps(s: State, r: RefId)
    requires Inv(s) && Enabled(s, Unlock(r))
    ensures Inv(Apply(s, Unlock(r)))
  {
    hide Hit, Victim, MoveToFront, IndexOf, Unique, Permutation, Cached;
    var i := s.refs[r].buf;
    assert BufOk(s, i) && RefOk(s, r);
    var s' := Apply(s, Unlock(r));
    forall q | q in s.refs && s.refs[q].buf == i
      ensures RefOk(s', q)
    {
      assert RefOk(s, q);
    }
    hide Inv, RefOk;
    assert Local(s, s', i);
    LocalKeeps(s, s', i);
  }

  lemma ModifyKeeps(s: State, r: RefId, v: Block)
    requires Inv(s) && Enabled(s, Modify(r, v))
    ensures Inv(Apply(s, Modify(r, v)))
  {
    hide Hit, Victim, MoveToFront, IndexOf, Unique, Permutation, Cached;
    var i := s.refs[r].buf;
    assert BufOk(s, i) && RefOk(s, r);
    assert forall q :: q in s.refs && s.refs[q].buf == i ==> RefOk(s, q);
    hide Inv;
    var s' := Apply(s, Modify(r, v));
    assert forall q :: q in s.refs && s.refs[q].buf == i ==> RefOk(s', q);
    hide RefOk;
    assert Local(s, s', i);
    LocalKeeps(s, s', i);
  }

  lemma {:induction false} VictimIsLast(bufs: seq<Buf>, lru: seq<nat>)
    requires forall i :: 0 <= i < |lru| ==> lru[i] < |bufs|
    ensures Victim(bufs, lru).Some? ==> LastIdle(bufs, lru, Victim(bufs, lru).value)
  {
    if lru != [] {
      var k := |lru| - 1;
      if bufs[lru[k]].refcnt == 0 {
        assert LastIdleAt(bufs, lru, lru[k], k);
      } else {
        VictimIsLast(bufs, lru[..k]);
        if Victim(bufs, lru).Some? {
          var p: nat :| LastIdleAt(bufs, lru[..k], Victim(bufs, lru).value, p);
          assert LastIdleAt(bufs, lru, Victim(bufs, lru).value, p);
        }
      }
    }
  }

  // ----- Taking and dropping references -----

  /** A buffer nobody refers to is unlocked, and its block is safely on disk. */
  lemma IdleIsClean(s: State, i: nat)
    requires Inv(s) && i < NBUF && s.bufs[i].refcnt == 0
    ensures s.users[i] == {} && s.pins[i] == 0 && s.bufs[i].lock == None
    ensures s.bufs[i].key.dev >= 1 ==> Lookup(s.disk, s.bufs[i].key) == Lookup(s.store, s.bufs[i].key)
  {
    assert BufOk(s, i);
    assert s.bufs[i].lock.Some? ==> RefOk(s, s.bufs[i].lock.value);
  }

  /** s' differs from s in buffer i and in the reference r to it, and not in what is stored. */
  ghost predicate Referenced(s: State, s': State, i: nat, r: RefId)
    requires Shape(s) && Shape(s') && i < NBUF
  {
    && (forall j :: 0 <= j < NBUF && j != i ==>
          s'.bufs[j] == s.bufs[j] && s'.users[j] == s.users[j] && s'.pins[j] == s.pins[j])
    && s'.disk == s.disk && s'.store == s.store
    && (forall q :: q != r ==> (q in s'.refs <==> q in s.refs))
    && (forall q :: q in s.refs && q != r ==> s'.refs[q] == s.refs[q])
  }

  lemma OthersKept(s: State, s': State, i: nat, r: RefId, j: nat)
    requires Inv(s) && Shape(s') && i < NBUF && Referenced(s, s', i, r)
    requires r in s.refs ==> s.refs[r].buf == i
    requires j < NBUF && j != i
    ensures BufOk(s', j)
  {
    hide Permutation, Unique, Cached;
    assert BufOk(s, j);
    assert forall q :: q in s.users[j] ==> q != r;
  }

  lemma RefsKept(s: State, s': State, i: nat, r: RefId, q: RefId)
    requires Inv(s) && Shape(s') && i < NBUF && Referenced(s, s', i, r)
    requires s'.users[i] == s.users[i] + {r} || s'.users[i] == s.users[i] - {r}
    requires s'.bufs[i].lock == s.bufs[i].lock
    requires q in s.refs && q != r
    ensures RefOk(s', q)
  {
    hide Permutation, Unique, Cached;
    assert RefOk(s, q);
  }

  lemma ReferencedKeeps(s: State, s': State, i: nat, r: RefId)
    requires Inv(s) && Shape(s') && i < NBUF && Referenced(s, s', i, r)
    requires r in s.refs ==> s.refs[r].buf == i
    requires s'.users[i] == s.users[i] + {r} || s'.users[i] == s.users[i] - {r}
    requires s'.bufs[i].lock == s.bufs[i].lock
    requires BufOk(s', i) && (r in s'.refs ==> RefOk(s', r))
    requires Permutation(s'.lru) && Unique(s'.bufs)
    requires forall k: Key :: k.dev >= 1 && !Cached(s'.bufs, k) ==> Lookup(s'.disk, k) == Lookup(s'.store, k)
    ensures Inv(s')
  {
    hide Permutation, Unique, Cached, BufOk, RefOk;
    forall j | 0 <= j < NBUF && j != i { OthersKept(s, s', i, r, j); }
    forall q | q in s'.refs && q != r { RefsKept(s, s', i, r, q); }
  }

  lemma SameKeysUnique(bufs: seq<Buf>, bufs': seq<Buf>)
    requires |bufs| == |bufs'| && forall i :: 0 <= i < |bufs| ==> bufs'[i].key == bufs[i].key
    requires Unique(bufs)
    ensures Unique(bufs')
  {
  }

  lemma TakenKeeps(s: State, r: RefId, i: nat, b: Buf)
    requires Inv(s) && r !in s.refs && i < NBUF
    requires b.lock == s.bufs[i].lock && Unique(s.bufs[i := b])
    requires BufOk(Taken(s, r, i, b), i)
    requires forall k: Key :: k.dev >= 1 && !Cached(s.bufs[i := b], k) ==> Lookup(s.disk, k) == Lookup(s.store, k)
    ensures Inv(Taken(s, r, i, b))
  {
    hide BufOk, Cached, Unique, Permutation;
    ReferencedKeeps(s, Taken(s, r, i, b), i, r);
  }

  lemma TakenOk(s: State, r: RefId, i: nat, b: Buf)
    requires Inv(s) && r !in s.refs && i < NBUF
    requires b == s.bufs[i].(refcnt := s.bufs[i].refcnt + 1)
    ensures BufOk(Taken(s, r, i, b), i)
  {
    hide Cached, Unique, Permutation;
    assert BufOk(s, i) && r !in s.users[i];
  }

  lemma GetHitKeeps(s: State, r: RefId, key: Key)
    requires Inv(s) && Enabled(s, Get(r, key)) && Hit(s.bufs, s.lru, key).Some?
    ensures Inv(Apply(s, Get(r, key)))
  {
    var (b, i) := Grab(s.bufs, s.lru, key);
    hide BufOk, RefOk, Cached, Permutation, Unique, Victim;
    TakenOk(s, r, i, b);
    forall k: Key { SameKeys(s.bufs, s.bufs[i := b], k); }
    SameKeysUnique(s.bufs, s.bufs[i := b]);
    TakenKeeps(s, r, i, b);
  }

  lemma MissIsUncached(bufs: seq<Buf>, lru: seq<nat>, key: Key)
    requires |bufs| == NBUF && Permutation(lru) && Hit(bufs, lru, key) == None
    ensures !Cached(bufs, key)
  {
    forall i | 0 <= i < |bufs|
      ensures bufs[i].key != key
    {
      assert i in lru;
    }
  }

  /** Giving buffer i to an uncached block uncaches its old block and no other. */
  lemma RecycledKeys(bufs: seq<Buf>, i: nat, b: Buf, k: Key)
    requires i < |bufs| && !Cached(bufs[i := b], k)
    ensures k != b.key
    ensures k != bufs[i].key ==> !Cached(bufs, k)
  {
    assert bufs[i := b][i] == b;
    assert forall j :: 0 <= j < |bufs| && j != i ==> bufs[i := b][j] == bufs[j];
  }

  lemma RecycledOk(s: State, r: RefId, i: nat, key: Key)
    requires Inv(s) && r !in s.refs && i < NBUF && s.bufs[i].refcnt == 0 && !Cached(s.bufs, key)
    ensures BufOk(Taken(s, r, i, s.bufs[i].(key := key, valid := false, refcnt := 1)), i)
  {
    IdleIsClean(s, i);
    hide Cached, Unique, Permutation, BufOk, RefOk;
  }

  lemma GetMissKeeps(s: State, r: RefId, key: Key)
    requires Inv(s) && Enabled(s, Get(r, key)) && Hit(s.bufs, s.lru, key) == None
    ensures Inv(Apply(s, Get(r, key)))
  {
    var (b, i) := Grab(s.bufs, s.lru, key);
    MissIsUncached(s.bufs, s.lru, key);
    hide BufOk, RefOk, Cached, Permutation, Unique;
    RecycledUnique(s.bufs, i, b);
    RecycledOk(s, r, i, key);
    IdleIsClean(s, i);
    forall k: Key | k.dev >= 1 && !Cached(s.bufs[i := b], k)
      ensures Lookup(s.disk, k) == Lookup(s.store, k)
    {
      RecycledKeys(s.bufs, i, b, k);
    }
    TakenKeeps(s, r, i, b);
  }

  lemma RecycledUnique(bufs: seq<Buf>, i: nat, b: Buf)
    requires i < |bufs| && Unique(bufs) && !Cached(bufs, b.key)
    ensures Unique(bufs[i := b])
  {
  }

  lemma MoveToFrontPermutes(lru: seq<nat>, p: nat)
    requires Permutation(lru) && p < NBUF
    ensures Permutation(MoveToFront(lru, p))
  {
    var m := MoveToFront(lru, p);
    assert forall i :: 0 <= i < NBUF ==> m[i] == if i == 0 then lru[p] else if i <= p then lru[i - 1] else lru[i];
    forall x | 0 <= x < NBUF
      ensures x in m
    {
      assert x in lru;
      var k :| 0 <= k < |lru| && lru[k] == x;
      assert m[if k == p then 0 else if k < p then k + 1 else k] == x;
    }
  }

  lemma DroppedKeeps(s: State, r: RefId, i: nat, lru: seq<nat>)
    requires Inv(s) && r in s.refs && s.refs[r] == Ref(i, Dropping) && s.bufs[i].refcnt > 0 && Permutation(lru)
    ensures Inv(Dropped(s, r, i, lru))
  {
    var s' := Dropped(s, r, i, lru);
    hide Permutation, Cached, Unique;
    assert BufOk(s, i) && RefOk(s, r);
    assert BufOk(s', i);
    hide BufOk, RefOk;
    forall k: Key { SameKeys(s.bufs, s'.bufs, k); }
    SameKeysUnique(s.bufs, s'.bufs);
    ReferencedKeeps(s, s', i, r);
  }

  lemma DropKeeps(s: State, r: RefId)
    requires Inv(s) && Enabled(s, Drop(r))
    ensures Inv(Apply(s, Drop(r)))
  {
    hide BufOk, RefOk, Cached, Unique, MoveToFront;
    var i := s.refs[r].buf;
    MoveToFrontPermutes(s.lru, IndexOf(s.lru, i));
    DroppedKeeps(s, r, i, if s.bufs[i].refcnt == 1 then MoveToFront(s.lru, IndexOf(s.lru, i)) else s.lru);
  }

  /** brelse always finds a positive count: refcnt never underflows. */
  lemma DropNeverUnderflows(s: State, r: RefId)
    requires Inv(s) && r in s.refs
    ensures s.bufs[s.refs[r].buf].refcnt > 0 && s.refs[r].buf in s.lru
  {
    assert RefOk(s, r) && BufOk(s, s.refs[r].buf);
    assert s.users[s.refs[r].buf] != {};
  }

  // ----- Whole runs -----

  lemma StepKeeps(s: State, step: Step)
    requires Inv(s) && Enabled(s, step)
    ensures Inv(Apply(s, step))
  {
    match step
    case Get(r, key) =>
      if Hit(s.bufs, s.lru, key).Some? {
        GetHitKeeps(s, r, key);
      } else {
        GetMissKeeps(s, r, key);
      }
    case Lock(r) => LockKeeps(s, r);
    case Fill(r) => FillKeeps(s, r);
    case Modify(r, v) => ModifyKeeps(s, r, v);
    case WriteDisk(r) => WriteDiskKeeps(s, r);
    case Pin(r) => PinKeeps(s, r);
    case Unpin(r) => UnpinKeeps(s, r);
    case Unlock(r) => UnlockKeeps(s, r);
    case Drop(r) => DropKeeps(s, r);
  }

  lemma {:induction false} RunKeeps(s: State, steps: seq<Step>, s': State)
    requires Inv(s) && Runs(s, steps, s')
    ensures Inv(s')
    decreases |steps|
  {
    hide Inv;
    if steps != [] {
      StepKeeps(s, steps[0]);
      RunKeeps(Apply(s, steps[0]), steps[1..], s');
    }
  }

  /** In every interleaving: every buffer stays on the list exactly once, no block of a
      device numbered at least 1 is cached twice, two threads never hold one buffer, and
      a thread that holds a buffer sees what was last stored in its block. A block that is
      not cached has that value on disk. */
  lemma CacheIsBlockStore(s0: State, steps: seq<Step>, s: State)
    requires Initial(s0) && Runs(s0, steps, s)
    ensures Shape(s) && Permutation(s.lru) && Unique(s.bufs)
    ensures forall r :: InUse(s, r) && s.bufs[s.refs[r].buf].key.dev >= 1 ==>
              s.bufs[s.refs[r].buf].data == Lookup(s.store, s.bufs[s.refs[r].buf].key)
    ensures forall r, q :: InUse(s, r) && InUse(s, q) && s.refs[r].buf == s.refs[q].buf ==> r == q
    ensures forall k: Key :: k.dev >= 1 && !Cached(s.bufs, k) ==> Lookup(s.disk, k) == Lookup(s.store, k)
    ensures forall r :: r in s.refs ==> s.bufs[s.refs[r].buf].refcnt > 0 && s.refs[r].buf in s.lru
  {
    hide Runs;
    InitialInv(s0);
    RunKeeps(s0, steps, s);
    forall r | r in s.refs
      ensures s.bufs[s.refs[r].buf].refcnt > 0 && s.refs[r].buf in s.lru
    {
      DropNeverUnderflows(s, r);
    }
    forall r, q | InUse(s, r) && InUse(s, q) && s.refs[r].buf == s.refs[q].buf
      ensures r == q
    {
      assert RefOk(s, r) && RefOk(s, q);
    }
    forall r | InUse(s, r) && s.bufs[s.refs[r].buf].key.dev >= 1
      ensures s.bufs[s.refs[r].buf].data == Lookup(s.store, s.bufs[s.refs[r].buf].key)
    {
      assert BufOk(s, s.refs[r].buf);
    }
  }
}
