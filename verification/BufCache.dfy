/** The buffer cache of bio.c as a protocol: threads look blocks up, lock, fill,
    change, write, pin and release buffers in any interleaving. */
module BufCache {
  import opened Blocks

  const NBUF := 30

  datatype Option<+T> = None | Some(value: T)

  /** A block of a device. */
  datatype Key = Key(dev: nat, blockno: nat)

  /** One bread..brelse of one thread. */
  type RefId = nat

  /** A buffer; `lock` is the sleep-lock's holder. */
  datatype Buf = Buf(key: Key, valid: bool, refcnt: nat, data: Block, lock: Option<RefId>)

  datatype Stage = Waiting | Holding | Dropping

  /** Which buffer a reference is for, and how far it has got. */
  datatype Ref = Ref(buf: nat, stage: Stage)

  /** `lru` lists the buffers from most to least recently used. `users` and `pins`
      account for every count in refcnt; `store` is what was last put in each block. */
  datatype State = State(bufs: seq<Buf>, lru: seq<nat>, refs: map<RefId, Ref>,
                         users: seq<set<RefId>>, pins: seq<nat>,
                         disk: map<Key, Block>, store: map<Key, Block>)

  function Lookup(m: map<Key, Block>, k: Key): (b: Block) {
    if k in m then m[k] else ZeroBlock()
  }

  // ----- What the scans of bget find -----

  /** The first buffer in list order that holds key. */
  function Hit(bufs: seq<Buf>, lru: seq<nat>, key: Key): (r: Option<nat>)
    requires forall i :: 0 <= i < |lru| ==> lru[i] < |bufs|
    ensures r.Some? ==> r.value in lru && r.value < |bufs| && bufs[r.value].key == key
    ensures r.None? ==> forall i :: 0 <= i < |lru| ==> bufs[lru[i]].key != key
  {
    if lru == [] then None
    else if bufs[lru[0]].key == key then Some(lru[0])
    else Hit(bufs, lru[1..], key)
  }

  /** Buffer i is at position p of the list, nobody refers to it, and all after it are in use. */
  ghost predicate LastIdleAt(bufs: seq<Buf>, lru: seq<nat>, i: nat, p: nat)
    requires forall k :: 0 <= k < |lru| ==> lru[k] < |bufs|
  {
    p < |lru| && lru[p] == i && bufs[i].refcnt == 0 && forall q :: p < q < |lru| ==> bufs[lru[q]].refcnt > 0
  }

  ghost predicate LastIdle(bufs: seq<Buf>, lru: seq<nat>, i: nat)
    requires forall k :: 0 <= k < |lru| ==> lru[k] < |bufs|
  {
    exists p: nat :: LastIdleAt(bufs, lru, i, p)
  }

  /** The last buffer in list order that nobody refers to. */
  function Victim(bufs: seq<Buf>, lru: seq<nat>): (r: Option<nat>)
    requires forall i :: 0 <= i < |lru| ==> lru[i] < |bufs|
    ensures r.Some? ==> r.value in lru && r.value < |bufs| && bufs[r.value].refcnt == 0
    ensures r.None? ==> forall i :: 0 <= i < |lru| ==> bufs[lru[i]].refcnt != 0
  {
    if lru == [] then None
    else
      var last := lru[|lru| - 1];
      if bufs[last].refcnt == 0 then Some(last) else Victim(bufs, lru[..|lru| - 1])
  }

  /** lru with the element at position p moved to the front. */
  function MoveToFront(lru: seq<nat>, p: nat): (r: seq<nat>)
    requires p < |lru|
  {
    [lru[p]] + lru[..p] + lru[p + 1..]
  }

  function IndexOf(s: seq<nat>, x: nat): (i: nat)
    requires x in s
    ensures i < |s| && s[i] == x
  {
    if s[0] == x then 0 else 1 + IndexOf(s[1..], x)
  }

  // ----- Steps -----

  datatype Step =
    | Get(r: RefId, key: Key)
    | Lock(r: RefId)
    | Fill(r: RefId)
    | Modify(r: RefId, v: Block)
    | WriteDisk(r: RefId)
    | Pin(r: RefId)
    | Unpin(r: RefId)
    | Unlock(r: RefId)
    | Drop(r: RefId)

  ghost predicate Shape(s: State) {
    && |s.bufs| == |s.users| == |s.pins| == |s.lru| == NBUF
    && (forall i :: 0 <= i < NBUF ==> s.lru[i] < NBUF)
    && (forall r :: r in s.refs ==> s.refs[r].buf < NBUF)
  }

  /** r's thread holds the sleep-lock and bread has returned. */
  ghost predicate InUse(s: State, r: RefId)
    requires Shape(s)
  {
    r in s.refs && s.refs[r].stage == Holding && s.bufs[s.refs[r].buf].valid
  }

  /** The steps threads take. The rule callers of brelse and bunpin keep is the last
      conjunct of Unlock and Unpin: changed data is written or pinned before it is let go. */
  ghost predicate Enabled(s: State, step: Step) {
    && Shape(s)
    && match step
       case Get(r, key) => r !in s.refs && (Hit(s.bufs, s.lru, key).Some? || Victim(s.bufs, s.lru).Some?)
       case Lock(r) => r in s.refs && s.refs[r].stage == Waiting && s.bufs[s.refs[r].buf].lock == None
       case Fill(r) => r in s.refs && s.refs[r].stage == Holding && !s.bufs[s.refs[r].buf].valid
       case Modify(r, v) => InUse(s, r)
       case WriteDisk(r) => InUse(s, r)
       case Pin(r) => InUse(s, r)
       case Unpin(r) => InUse(s, r) && s.pins[s.refs[r].buf] > 0 && Synced(s, s.refs[r].buf)
       case Unlock(r) => InUse(s, r) && (Synced(s, s.refs[r].buf) || s.pins[s.refs[r].buf] > 0)
       case Drop(r) => r in s.refs && s.refs[r].stage == Dropping
                       && s.bufs[s.refs[r].buf].refcnt > 0 && s.refs[r].buf in s.lru
  }

  ghost predicate Synced(s: State, i: nat)
    requires i < |s.bufs|
  {
    s.bufs[i].data == Lookup(s.disk, s.bufs[i].key)
  }

  /** The buffer the critical section of bget settles on, as it leaves it. */
  function Grab(bufs: seq<Buf>, lru: seq<nat>, key: Key): (r: (Buf, nat))
    requires forall i :: 0 <= i < |lru| ==> lru[i] < |bufs|
    requires Hit(bufs, lru, key).Some? || Victim(bufs, lru).Some?
    ensures r.1 < |bufs|
  {
    var hit := Hit(bufs, lru, key);
    if hit.Some? then
      (bufs[hit.value].(refcnt := bufs[hit.value].refcnt + 1), hit.value)
    else
      var i := Victim(bufs, lru).value;
      (bufs[i].(key := key, valid := false, refcnt := 1), i)
  }

  /** Reference r now waits for buffer i, which has become b. */
  function Taken(s: State, r: RefId, i: nat, b: Buf): (s': State)
    requires i < |s.bufs| == |s.users|
  {
    s.(bufs := s.bufs[i := b], refs := s.refs[r := Ref(i, Waiting)], users := s.users[i := s.users[i] + {r}])
  }

  /** Reference r to buffer i is gone. */
  function Dropped(s: State, r: RefId, i: nat, lru: seq<nat>): (s': State)
    requires i < |s.bufs| == |s.users| && s.bufs[i].refcnt > 0
  {
    s.(bufs := s.bufs[i := s.bufs[i].(refcnt := s.bufs[i].refcnt - 1)], lru := lru,
       refs := s.refs - {r}, users := s.users[i := s.users[i] - {r}])
  }

  ghost function Apply(s: State, step: Step): (s': State)
    requires Enabled(s, step)
  {
    match step
    case Get(r, key) =>
      var (b, i) := Grab(s.bufs, s.lru, key);
      Taken(s, r, i, b)
    case Lock(r) =>
      var i := s.refs[r].buf;
      s.(bufs := s.bufs[i := s.bufs[i].(lock := Some(r))], refs := s.refs[r := Ref(i, Holding)])
    case Fill(r) =>
      var i := s.refs[r].buf;
      s.(bufs := s.bufs[i := s.bufs[i].(data := Lookup(s.disk, s.bufs[i].key), valid := true)])
    case Modify(r, v) =>
      var i := s.refs[r].buf;
      s.(bufs := s.bufs[i := s.bufs[i].(data := v)], store := s.store[s.bufs[i].key := v])
    case WriteDisk(r) =>
      var i := s.refs[r].buf;
      s.(disk := s.disk[s.bufs[i].key := s.bufs[i].data])
    case Pin(r) =>
      var i := s.refs[r].buf;
      s.(bufs := s.bufs[i := s.bufs[i].(refcnt := s.bufs[i].refcnt + 1)], pins := s.pins[i := s.pins[i] + 1])
    case Unpin(r) =>
      var i := s.refs[r].buf;
      s.(bufs := s.bufs[i := s.bufs[i].(refcnt := if s.bufs[i].refcnt > 0 then s.bufs[i].refcnt - 1 else 0)],
         pins := s.pins[i := s.pins[i] - 1])
    case Unlock(r) =>
      var i := s.refs[r].buf;
      s.(bufs := s.bufs[i := s.bufs[i].(lock := None)], refs := s.refs[r := Ref(i, Dropping)])
    case Drop(r) =>
      var i := s.refs[r].buf;
      Dropped(s, r, i, if s.bufs[i].refcnt == 1 then MoveToFront(s.lru, IndexOf(s.lru, i)) else s.lru)
  }

  /** binit's buffers are zeroed static storage: device 0, not valid, unlocked. */
  ghost predicate Initial(s: State) {
    && Shape(s)
    && (forall i :: 0 <= i < NBUF ==>
          var b := s.bufs[i]; b.key == Key(0, 0) && !b.valid && b.refcnt == 0 && b.lock == None)
    && (forall i :: 0 <= i < NBUF ==> s.users[i] == {} && s.pins[i] == 0)
    && s.refs == map[] && Permutation(s.lru)
    && s.store == s.disk
  }

  ghost predicate Permutation(lru: seq<nat>) {
    && |lru| == NBUF
    && (forall i :: 0 <= i < NBUF ==> lru[i] < NBUF)
    && (forall x :: 0 <= x < NBUF ==> x in lru)
    && (forall i, j :: 0 <= i < j < NBUF ==> lru[i] != lru[j])
  }

  ghost predicate Runs(s: State, steps: seq<Step>, s': State)
    decreases |steps|
  {
    if steps == [] then s' == s
    else Enabled(s, steps[0]) && Runs(Apply(s, steps[0]), steps[1..], s')
  }

  // ----- The invariant -----

  /** Everything known about buffer i. */
  ghost predicate BufOk(s: State, i: nat)
    requires Shape(s) && i < NBUF
  {
    var b := s.bufs[i];
    && b.refcnt == |s.users[i]| + s.pins[i]
    && (forall r :: r in s.users[i] ==> r in s.refs && s.refs[r].buf == i)
    && (b.lock.Some? ==> b.lock.value in s.refs && s.refs[b.lock.value] == Ref(i, Holding))
    && (b.key.dev >= 1 && b.valid ==> b.data == Lookup(s.store, b.key))
    && (b.key.dev >= 1 && !b.valid ==> Lookup(s.disk, b.key) == Lookup(s.store, b.key))
    && (b.valid && !Synced(s, i) && b.key.dev >= 1 ==> b.lock.Some? || s.pins[i] > 0)
  }

  ghost predicate RefOk(s: State, r: RefId)
    requires Shape(s) && r in s.refs
  {
    var i := s.refs[r].buf;
    && r in s.users[i]
    && (s.refs[r].stage == Holding ==> s.bufs[i].lock == Some(r))
  }

  ghost predicate Unique(bufs: seq<Buf>) {
    forall i, j :: 0 <= i < j < |bufs| && bufs[i].key.dev >= 1 ==> bufs[i].key != bufs[j].key
  }

  ghost predicate Cached(bufs: seq<Buf>, key: Key) {
    exists i :: 0 <= i < |bufs| && bufs[i].key == key
  }

  ghost predicate Inv(s: State) {
    && Shape(s) && Permutation(s.lru)
    && (forall i :: 0 <= i < NBUF ==> BufOk(s, i))
    && (forall r :: r in s.refs ==> RefOk(s, r))
    && Unique(s.bufs)
    && (forall key: Key :: key.dev >= 1 && !Cached(s.bufs, key) ==> Lookup(s.disk, key) == Lookup(s.store, key))
  }
}
