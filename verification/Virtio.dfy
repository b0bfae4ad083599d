/** The virtio block queue shared by submitting processes, the device and the interrupt handler,
    as a state machine. Every index that wraps is kept in its 16 bits; the record Track follows
    each request from the outside and no step looks at it to decide what to do. */
module Virtio {
  const NUM := 8
  const TWO16 := 0x1_0000
  const PENDING := 0xff

  datatype Buf = NoBuf | Buf(b: nat)

  /** Where a descriptor points: a command header, a buffer's data, a status byte. */
  datatype Target = Nowhere | Header(i: nat) | Data(b: nat) | Status(i: nat)

  datatype Desc = Desc(addr: Target, hasNext: bool, writes: bool, next: nat)

  datatype Command = Command(write: bool, block: nat)

  datatype Info = Info(b: Buf, status: nat)

  datatype Lock = Unlocked | HeldBy(r: nat)

  /** Driver and device. contents and disk are the buffers' data and the device's blocks. */
  datatype State = State(
    free: seq<bool>, desc: seq<Desc>, ops: seq<Command>, info: seq<Info>,
    avail: seq<nat>, availIdx: nat, used: seq<nat>, usedIdx: nat, seenIdx: nat,
    takenIdx: nat, inflight: set<nat>, busy: set<nat>, lock: Lock,
    contents: map<nat, int>, disk: map<nat, int>)

  /** How far a request has come. */
  datatype Phase = Formatted | Ringed | Queued(n: nat) | Taken | Used(m: nat) | Seen

  /** v is what the buffer holds: what a write is to store, later what a read has brought. */
  datatype Request = Request(i0: nat, i1: nat, i2: nat, b: nat, write: bool, block: nat, v: int, phase: Phase)

  /** The requests under way, the indices without wrap-around, how often the device has completed
      and the handler has reported each request, and the requests whose caller has returned. */
  datatype Track = Track(
    reqs: map<nat, Request>, availN: nat, takenN: nat, usedN: nat, seenN: nat,
    completed: map<nat, nat>, reported: map<nat, nat>, returned: set<nat>)

  datatype Step =
    | Submit(r: nat, b: nat, write: bool, block: nat, i0: nat, i1: nat, i2: nat)
    | WriteRing(r: nat)
    | Bump(r: nat)
    | Take
    | Complete(head: nat, status: nat)
    | Interrupt
    | Finish(r: nat)
    | Store(b: nat, v: int)

  function Count(m: map<nat, nat>, r: nat): (n: nat) {
    if r in m then m[r] else 0
  }

  function Head(s: State): (h: nat)
    requires |s.avail| == NUM
  {
    s.avail[s.takenIdx % NUM]
  }

  function Reported(s: State): (h: nat)
    requires |s.used| == NUM
  {
    s.used[s.seenIdx % NUM]
  }

  predicate Shape(s: State) {
    |s.free| == |s.desc| == |s.ops| == |s.info| == |s.avail| == |s.used| == NUM
  }

  /** The two descriptors after head, as the device and free_chain find them. */
  predicate Chained(s: State, head: nat)
    requires Shape(s)
  {
    && head < NUM && s.desc[head].hasNext && s.desc[head].next < NUM
    && s.desc[s.desc[head].next].hasNext && s.desc[s.desc[head].next].next < NUM
    && !s.desc[s.desc[s.desc[head].next].next].hasNext
  }

  function Second(s: State, head: nat): (i: nat)
    requires Shape(s) && Chained(s, head)
    ensures i < NUM
  {
    s.desc[head].next
  }

  function Third(s: State, head: nat): (i: nat)
    requires Shape(s) && Chained(s, head)
    ensures i < NUM
  {
    s.desc[s.desc[head].next].next
  }

  /** The device can make sense of the chain at head: a header and, for a write, data that it may read, and a
      status byte and, for a read, data that it may write. */
  predicate Readable(s: State, head: nat)
    requires Shape(s)
  {
    && Chained(s, head)
    && s.desc[head].addr == Header(head) && s.desc[Second(s, head)].addr.Data?
    && s.desc[Third(s, head)].addr.Status? && s.desc[Third(s, head)].addr.i < NUM
    && !s.desc[head].writes && s.desc[Second(s, head)].writes == !s.ops[head].write && s.desc[Third(s, head)].writes
  }

  predicate Enabled(s: State, g: Track, step: Step)
    requires Shape(s)
  {
    match step
    case Submit(r, b, write, block, i0, i1, i2) =>
      // a caller holds its buffer's lock, so no two requests share a buffer
      && s.lock.Unlocked? && r !in g.reqs && r !in g.returned && b in s.contents && block in s.disk
      && (forall q :: q in g.reqs ==> g.reqs[q].b != b)
      && i0 < NUM && i1 < NUM && i2 < NUM && i0 != i1 && i0 != i2 && i1 != i2 && s.free[i0] && s.free[i1] && s.free[i2]
    case WriteRing(r) => s.lock == HeldBy(r) && r in g.reqs && g.reqs[r].phase.Formatted?
    case Bump(r) => s.lock == HeldBy(r) && r in g.reqs && g.reqs[r].phase.Ringed?
    case Take => s.takenIdx != s.availIdx
    case Complete(head, status) => head in s.inflight && Readable(s, head)
    case Interrupt => s.lock.Unlocked? && s.seenIdx != s.usedIdx && !InterruptPanics(s)
    case Finish(r) => s.lock.Unlocked? && r in g.reqs && g.reqs[r].b !in s.busy && Chained(s, g.reqs[r].i0)
    case Store(b, v) => b in s.contents && forall q :: q in g.reqs ==> g.reqs[q].b != b
  }

  /** virtio_disk_rw's formatting of the three descriptors. */
  function Format(s: State, b: nat, write: bool, block: nat, i0: nat, i1: nat, i2: nat): (s': State)
    requires Shape(s) && i0 < NUM && i1 < NUM && i2 < NUM
    ensures Shape(s')
  {
    s.(free := s.free[i0 := false][i1 := false][i2 := false],
       ops := s.ops[i0 := Command(write, block)],
       desc := s.desc[i0 := Desc(Header(i0), true, false, i1)]
                     [i1 := Desc(Data(b), true, !write, i2)]
                     [i2 := Desc(Status(i0), false, true, 0)],
       info := s.info[i0 := Info(Buf(b), PENDING)],
       busy := s.busy + {b})
  }

  const BLANK := Desc(Nowhere, false, false, 0)

  /** The end of virtio_disk_rw: the chain from head is free again. */
  function Freed(s: State, head: nat): (s': State)
    requires Shape(s) && Chained(s, head)
    ensures Shape(s')
  {
    var i1, i2 := Second(s, head), Third(s, head);
    s.(info := s.info[head := s.info[head].(b := NoBuf)],
       free := s.free[head := true][i1 := true][i2 := true],
       desc := s.desc[head := BLANK][i1 := BLANK][i2 := BLANK])
  }

  /** The device's transfer for the chain at head. */
  function Transferred(s: State, head: nat, status: nat): (s': State)
    requires Shape(s) && Readable(s, head)
    ensures Shape(s')
  {
    var b, cmd := s.desc[Second(s, head)].addr.b, s.ops[head];
    var i := s.desc[Third(s, head)].addr.i;
    var s1 := s.(info := s.info[i := s.info[i].(status := status)],
                 used := s.used[s.usedIdx % NUM := head], usedIdx := (s.usedIdx + 1) % TWO16,
                 inflight := s.inflight - {head});
    if b !in s.contents || cmd.block !in s.disk then s1
    else if cmd.write then s1.(disk := s.disk[cmd.block := s.contents[b]])
    else s1.(contents := s.contents[b := s.disk[cmd.block]])
  }

  function Apply(s: State, g: Track, step: Step): (s': State)
    requires Shape(s) && Enabled(s, g, step)
    ensures Shape(s')
  {
    match step
    case Submit(r, b, write, block, i0, i1, i2) => Format(s, b, write, block, i0, i1, i2).(lock := HeldBy(r))
    case WriteRing(r) => s.(avail := s.avail[s.availIdx % NUM := g.reqs[r].i0])
    case Bump(r) => s.(availIdx := (s.availIdx + 1) % TWO16, lock := Unlocked)
    case Take => s.(inflight := s.inflight + {Head(s)}, takenIdx := (s.takenIdx + 1) % TWO16)
    case Complete(head, status) => Transferred(s, head, status)
    case Interrupt =>
      var done := s.info[Reported(s)].b;
      s.(busy := if done.Buf? then s.busy - {done.b} else s.busy, seenIdx := (s.seenIdx + 1) % TWO16)
    case Finish(r) => Freed(s, g.reqs[r].i0)
    case Store(b, v) => s.(contents := s.contents[b := v])
  }

  /** The handler's panics: a status other than zero, and a completion nobody asked for. */
  predicate InterruptPanics(s: State)
    requires Shape(s)
  {
    s.seenIdx != s.usedIdx && (Reported(s) >= NUM || s.info[Reported(s)].status != 0 || s.info[Reported(s)].b.NoBuf?)
  }

  // ----- the outside view -----

  function WithPhase(reqs: map<nat, Request>, r: nat, p: Phase): (m: map<nat, Request>)
    requires r in reqs
  {
    reqs[r := reqs[r].(phase := p)]
  }

  /** The request whose chain starts at head. */
  ghost function Owner(reqs: map<nat, Request>, head: nat): (r: nat)
    requires exists q :: q in reqs && reqs[q].i0 == head
    ensures r in reqs && reqs[r].i0 == head
  {
    var q :| q in reqs && reqs[q].i0 == head;
    q
  }

  ghost predicate Owned(reqs: map<nat, Request>, head: nat) {
    exists q :: q in reqs && reqs[q].i0 == head
  }

  /** A read brings what the block holds at the moment of the transfer. */
  function Served(s: State, q: Request): (q': Request) {
    if q.write || q.block !in s.disk then q else q.(v := s.disk[q.block])
  }

  ghost function Follow(s: State, g: Track, step: Step): (g': Track)
    requires Shape(s) && Enabled(s, g, step)
  {
    match step
    case Submit(r, b, write, block, i0, i1, i2) =>
      g.(reqs := g.reqs[r := Request(i0, i1, i2, b, write, block, s.contents[b], Formatted)])
    case WriteRing(r) => g.(reqs := WithPhase(g.reqs, r, Ringed))
    case Bump(r) => g.(reqs := WithPhase(g.reqs, r, Queued(g.availN)), availN := g.availN + 1)
    case Take =>
      if Owned(g.reqs, Head(s)) then g.(reqs := WithPhase(g.reqs, Owner(g.reqs, Head(s)), Taken),
                                        takenN := g.takenN + 1)
      else g.(takenN := g.takenN + 1)
    case Complete(head, status) =>
      if Owned(g.reqs, head) then
        var r := Owner(g.reqs, head);
        g.(reqs := g.reqs[r := Served(s, g.reqs[r]).(phase := Used(g.usedN))], usedN := g.usedN + 1,
           completed := g.completed[r := Count(g.completed, r) + 1])
      else g.(usedN := g.usedN + 1)
    case Interrupt =>
      if Owned(g.reqs, Reported(s)) then
        var r := Owner(g.reqs, Reported(s));
        g.(reqs := WithPhase(g.reqs, r, Seen), seenN := g.seenN + 1,
           reported := g.reported[r := Count(g.reported, r) + 1])
      else g.(seenN := g.seenN + 1)
    case Finish(r) => g.(reqs := g.reqs - {r}, returned := g.returned + {r})
    case Store(b, v) => g
  }

  predicate Initial(s: State, g: Track) {
    && Shape(s) && (forall i :: 0 <= i < NUM ==> s.free[i] && s.desc[i] == BLANK && s.info[i].b == NoBuf)
    && s.availIdx == s.usedIdx == s.seenIdx == s.takenIdx == 0 && s.inflight == {} && s.busy == {} && s.lock.Unlocked?
    && g == Track(map[], 0, 0, 0, 0, map[], map[], {})
  }

  // ----- the invariant -----

  function Chain(q: Request): (c: set<nat>) {
    {q.i0, q.i1, q.i2}
  }

  ghost predicate Formed(s: State, q: Request)
    requires Shape(s)
  {
    && q.i0 < NUM && q.i1 < NUM && q.i2 < NUM && q.i0 != q.i1 && q.i0 != q.i2 && q.i1 != q.i2
    && !s.free[q.i0] && !s.free[q.i1] && !s.free[q.i2]
    && s.desc[q.i0] == Desc(Header(q.i0), true, false, q.i1)
    && s.desc[q.i1] == Desc(Data(q.b), true, !q.write, q.i2)
    && s.desc[q.i2] == Desc(Status(q.i0), false, true, 0)
    && s.ops[q.i0] == Command(q.write, q.block) && s.info[q.i0].b == Buf(q.b)
    && s.info[q.i1].b == NoBuf && s.info[q.i2].b == NoBuf
    && q.b in s.contents && s.contents[q.b] == q.v && q.block in s.disk
  }

  ghost predicate InPhase(s: State, g: Track, r: nat, q: Request)
    requires Shape(s)
  {
    && (q.i0 in s.inflight <==> q.phase.Taken?) && (q.b in s.busy <==> !q.phase.Seen?)
    && match q.phase
       case Formatted => s.lock == HeldBy(r)
       case Ringed => s.lock == HeldBy(r) && s.avail[g.availN % NUM] == q.i0
       case Queued(n) => g.takenN <= n < g.availN && s.avail[n % NUM] == q.i0
       case Taken => true
       case Used(m) => g.seenN <= m < g.usedN && s.used[m % NUM] == q.i0
       case Seen => true
  }

  ghost predicate Counted(g: Track, r: nat)
    requires r in g.reqs
  {
    && r !in g.returned
    && Count(g.completed, r) == (if g.reqs[r].phase.Used? || g.reqs[r].phase.Seen? then 1 else 0)
    && Count(g.reported, r) == if g.reqs[r].phase.Seen? then 1 else 0
  }

  ghost predicate ReqOk(s: State, g: Track, r: nat)
    requires Shape(s) && r in g.reqs
  {
    Formed(s, g.reqs[r]) && InPhase(s, g, r, g.reqs[r]) && Counted(g, r)
  }

  ghost predicate Reqs(s: State, g: Track)
    requires Shape(s)
  {
    forall r :: r in g.reqs ==> ReqOk(s, g, r)
  }

  /** Requests under way share no descriptor and no buffer. */
  ghost predicate Disjoint(reqs: map<nat, Request>) {
    forall p, q :: p in reqs && q in reqs && p != q ==> Chain(reqs[p]) !! Chain(reqs[q]) && reqs[p].b != reqs[q].b
  }

  ghost predicate InChain(reqs: map<nat, Request>, i: nat) {
    exists r :: r in reqs && i in Chain(reqs[r])
  }

  /** A descriptor that is not free is in a chain. */
  ghost predicate Accounted(s: State, g: Track)
    requires Shape(s)
  {
    forall i :: 0 <= i < NUM && !s.free[i] ==> InChain(g.reqs, i)
  }

  ghost predicate IsQueued(reqs: map<nat, Request>, n: nat) {
    exists r :: r in reqs && reqs[r].phase == Queued(n)
  }

  ghost predicate IsUsed(reqs: map<nat, Request>, m: nat) {
    exists r :: r in reqs && reqs[r].phase == Used(m)
  }

  ghost predicate IsTaken(reqs: map<nat, Request>, h: nat) {
    exists r :: r in reqs && reqs[r].phase.Taken? && reqs[r].i0 == h
  }

  /** Ring entries not yet consumed, and the device's work, belong to requests. */
  ghost predicate Backed(s: State, g: Track) {
    && g.takenN <= g.availN && g.seenN <= g.usedN
    && (forall n :: g.takenN <= n < g.availN ==> IsQueued(g.reqs, n))
    && (forall m :: g.seenN <= m < g.usedN ==> IsUsed(g.reqs, m))
    && (forall h :: h in s.inflight ==> IsTaken(g.reqs, h))
  }

  ghost predicate Indexed(s: State, g: Track) {
    && s.availIdx == g.availN % TWO16 && s.takenIdx == g.takenN % TWO16
    && s.usedIdx == g.usedN % TWO16 && s.seenIdx == g.seenN % TWO16
  }

  ghost predicate Locked(s: State, g: Track) {
    s.lock.HeldBy? ==> s.lock.r in g.reqs && (g.reqs[s.lock.r].phase.Formatted? || g.reqs[s.lock.r].phase.Ringed?)
  }

  ghost predicate History(g: Track) {
    && (forall r :: r in g.returned ==> Count(g.completed, r) == 1 && Count(g.reported, r) == 1)
    && (forall r :: r in g.completed || r in g.reported ==> r in g.reqs || r in g.returned)
  }

  /** A free descriptor is blank, and records no buffer. */
  ghost predicate Blanked(s: State)
    requires Shape(s)
  {
    forall i :: 0 <= i < NUM && s.free[i] ==> s.desc[i] == BLANK && s.info[i].b == NoBuf
  }

  ghost predicate Inv(s: State, g: Track) {
    && Shape(s) && Reqs(s, g) && Disjoint(g.reqs) && Accounted(s, g) && Blanked(s) && Backed(s, g) && Indexed(s, g)
    && Locked(s, g) && History(g)
  }
}
