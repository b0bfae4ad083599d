/** The driver's code for the queue, step by step. Its critical sections are the driver's steps of
    the state machine. */
module VirtioCode {
  import opened Virtio
  import opened VirtioProofs

  /** The number of free descriptors from i on. */
  function FreeFrom(free: seq<bool>, i: nat): (n: nat)
    requires i <= |free|
    ensures n <= |free| - i
    decreases |free| - i
  {
    if i == |free| then 0 else (if free[i] then 1 else 0) + FreeFrom(free, i + 1)
  }

  /** The free descriptors from i on. */
  function FreeSet(free: seq<bool>, i: nat): (r: set<nat>)
    ensures forall j :: j in r <==> i <= j < |free| && free[j]
  {
    set j | i <= j < |free| && free[j]
  }

  lemma {:induction false} FreeFromCounts(free: seq<bool>, i: nat)
    requires i <= |free|
    ensures FreeFrom(free, i) == |FreeSet(free, i)|
    decreases |free| - i
  {
    hide FreeSet;
    if i < |free| {
      FreeFromCounts(free, i + 1);
      var more := FreeSet(free, i + 1);
      assert FreeSet(free, i) == if free[i] then more + {i} else more;
    } else {
      assert FreeSet(free, i) == {};
    }
  }

  /** The first free descriptor from i on, or |free|. */
  function FirstFree(free: seq<bool>, i: nat): (k: nat)
    requires i <= |free|
    ensures i <= k <= |free| && (k < |free| ==> free[k]) && forall j :: i <= j < k ==> !free[j]
    decreases |free| - i
  {
    if i == |free| || free[i] then i else FirstFree(free, i + 1)
  }

  lemma {:induction false} FreeSkips(free: seq<bool>, i: nat, k: nat)
    requires i <= k <= |free| && forall j :: i <= j < k ==> !free[j]
    ensures FreeFrom(free, i) == FreeFrom(free, k)
    decreases k - i
  {
    if i < k {
      FreeSkips(free, i + 1, k);
    }
  }

  lemma {:induction false} FreeSame(x: seq<bool>, y: seq<bool>, i: nat)
    requires |x| == |y| && i <= |x| && forall j :: i <= j < |x| ==> x[j] == y[j]
    ensures FreeFrom(x, i) == FreeFrom(y, i)
    decreases |x| - i
  {
    if i < |x| {
      FreeSame(x, y, i + 1);
    }
  }

  /** Taking the first free descriptor leaves one fewer. */
  lemma TakeFirst(free: seq<bool>, k: nat)
    requires k == FirstFree(free, 0) < |free|
    ensures FreeFrom(free, 0) == FreeFrom(free[k := false], 0) + 1
  {
    FreeSkips(free, 0, k);
    FreeSkips(free[k := false], 0, k);
    FreeSame(free, free[k := false], k + 1);
  }

  lemma NoneFree(free: seq<bool>)
    requires FirstFree(free, 0) == |free|
    ensures FreeFrom(free, 0) == 0
  {
    FreeSkips(free, 0, |free|);
  }

  /** What the handler makes of everything the device has reported: it goes on until it has seen
      all, or must stop. */
  function Handled(s: State): (s': State)
    requires Shape(s) && s.usedIdx < TWO16 && s.seenIdx < TWO16
    ensures Shape(s')
    decreases (s.usedIdx - s.seenIdx) % TWO16
  {
    if s.seenIdx == s.usedIdx || InterruptPanics(s) then s
    else
      Closer(s.seenIdx, s.usedIdx);
      Handled(s.(busy := s.busy - {s.info[Reported(s)].b.b}, seenIdx := (s.seenIdx + 1) % TWO16))
  }

  lemma Closer(x: nat, y: nat)
    requires x < TWO16 && y < TWO16 && x != y
    ensures (y - (x + 1) % TWO16) % TWO16 < (y - x) % TWO16
  {
    if x + 1 == TWO16 {
      assert (x + 1) % TWO16 == 0 && y - x == y + 1 - TWO16 && (y + 1 - TWO16) % TWO16 == y + 1;
    } else if y > x {
      assert (y - x) % TWO16 == y - x;
    } else {
      assert (y - x) % TWO16 == y - x + TWO16;
      assert (y - (x + 1)) % TWO16 == y - x - 1 + TWO16;
    }
  }

  /** now is was with the free descriptors idx, the lowest ones, in use. */
  ghost predicate Took(was: seq<bool>, now: seq<bool>, idx: seq<nat>) {
    && |was| == |now| == NUM
    && (forall k :: 0 <= k < |idx| ==> idx[k] < NUM && was[idx[k]])
    && (forall j, k :: 0 <= j < k < |idx| ==> idx[j] < idx[k])
    && (forall i :: 0 <= i < NUM ==> (now[i] <==> was[i] && i !in idx))
    && (forall i, k :: 0 <= k < |idx| && 0 <= i <= idx[k] ==> !now[i])
  }

  lemma TookThree(was: seq<bool>, now: seq<bool>, i0: nat, i1: nat, i2: nat)
    requires Took(was, now, [i0, i1, i2])
    ensures i0 < i1 < i2 < NUM && now == was[i0 := false][i1 := false][i2 := false]
  {
    var idx := [i0, i1, i2];
    assert idx[0] < idx[1] < idx[2];
    assert forall i :: i in idx <==> i == i0 || i == i1 || i == i2;
  }

  /** The state machine's Submit, WriteRing and Bump, one after the other. */
  function Published(s: State, b: nat, write: bool, block: nat, i0: nat, i1: nat, i2: nat): (s': State)
    requires Shape(s) && i0 < NUM && i1 < NUM && i2 < NUM
    ensures Shape(s')
  {
    Ring(Format(s, b, write, block, i0, i1, i2), s.availIdx, i0).(availIdx := (s.availIdx + 1) % TWO16)
  }

  /** The same with the three descriptors marked beforehand. */
  lemma PublishedMarks(s: State, s1: State, b: nat, write: bool, block: nat, i0: nat, i1: nat, i2: nat)
    requires Shape(s) && i0 < NUM && i1 < NUM && i2 < NUM
    requires s1 == s.(free := s.free[i0 := false][i1 := false][i2 := false])
    ensures Published(s1, b, write, block, i0, i1, i2).(free := s1.free) == Published(s, b, write, block, i0, i1, i2)
  {
  }

  lemma TookMore(was: seq<bool>, now: seq<bool>, idx: seq<nat>, d: nat)
    requires Took(was, now, idx) && d == FirstFree(now, 0) < NUM
    ensures Took(was, now[d := false], idx + [d])
  {
    var more, next := idx + [d], now[d := false];
    forall k | 0 <= k < |more|
      ensures more[k] < NUM && was[more[k]] && (k < |idx| ==> more[k] < d)
    {
      assert now[d] && (k < |idx| ==> more[k] == idx[k] && !now[idx[k]]);
    }
  }

  /** A submission is the machine's Submit, WriteRing and Bump steps in a row. */
  lemma PublishedIsSteps(s: State, g: Track, r: nat, b: nat, write: bool, block: nat, i0: nat, i1: nat, i2: nat)
    requires Shape(s) && Enabled(s, g, Submit(r, b, write, block, i0, i1, i2))
    ensures var step := Submit(r, b, write, block, i0, i1, i2);
            var s1, g1 := Apply(s, g, step), Follow(s, g, step);
            && Enabled(s1, g1, WriteRing(r))
            && var s2, g2 := Apply(s1, g1, WriteRing(r)), Follow(s1, g1, WriteRing(r));
            && Enabled(s2, g2, Bump(r)) && Apply(s2, g2, Bump(r)) == Published(s, b, write, block, i0, i1, i2)
  {
    hide Format;
    FormatKeeps(s, b, write, block, i0, i1, i2);
  }

  lemma FormatKeeps(s: State, b: nat, write: bool, block: nat, i0: nat, i1: nat, i2: nat)
    requires Shape(s) && i0 < NUM && i1 < NUM && i2 < NUM
    ensures var s' := Format(s, b, write, block, i0, i1,
                             i2); s'.availIdx == s.availIdx && s'.avail == s.avail && s'.lock == s.lock
  {
  }

  /** The descriptors after an allocation that failed. */
  ghost predicate Tidied(s: State, desc: seq<Desc>)
    requires Shape(s)
  {
    |desc| == NUM && forall i :: 0 <= i < NUM ==> desc[i] == s.desc[i] || (s.free[i] && desc[i] == BLANK)
  }

  /** So a submission that is refused is no step at all: a free descriptor is blank already. */
  lemma RefusedIsNothing(s: State, g: Track, desc: seq<Desc>)
    requires Inv(s, g) && Tidied(s, desc)
    ensures s.(desc := desc) == s
  {
    hide Reqs, Disjoint, Accounted, Backed, Indexed, Locked, History;
    forall i | 0 <= i < NUM
      ensures desc[i] == s.desc[i]
    {
    }
    assert desc == s.desc;
  }

  /** One turn of the handler's loop is the machine's Interrupt step. */
  lemma HandledIsStep(s: State, g: Track)
    requires Shape(s) && s.usedIdx < TWO16 && s.seenIdx < TWO16 && s.lock.Unlocked?
    ensures Enabled(s, g, Interrupt) ==> Handled(s) == Handled(Apply(s, g, Interrupt))
    ensures !Enabled(s, g, Interrupt) ==> Handled(s) == s
  {
  }

  class Disk {
    var free: seq<bool>
    var desc: seq<Desc>
    var ops: seq<Command>
    var info: seq<Info>
    var avail: seq<nat>
    var availIdx: nat
    var used: seq<nat>
    var usedIdx: nat
    var seenIdx: nat
    var busy: set<nat>
    ghost var device: State

    /** The whole machine; what only the device knows is taken from device. */
    ghost function View(): (s: State)
      reads this
    {
      device.(free := free, desc := desc, ops := ops, info := info, avail := avail, availIdx := availIdx,
              used := used, usedIdx := usedIdx, seenIdx := seenIdx, busy := busy)
    }

    ghost predicate Valid()
      reads this
    {
      Shape(View()) && availIdx < TWO16 && usedIdx < TWO16 && seenIdx < TWO16
    }

    /** alloc_desc. */
    method AllocDesc() returns (i: int)
      requires |free| == NUM
      modifies this`free
      ensures var k := FirstFree(old(free), 0);
              if k == NUM then i == -1 && free == old(free) else i == k && free == old(free)[k := false]
    {
      var k := 0;
      while k < NUM
        invariant k <= NUM && |free| == NUM && free == old(free) && FirstFree(free, 0) == FirstFree(free, k)
      {
        if free[k] {
          free := free[k := false];
          return k;
        }
        k := k + 1;
      }
      return -1;
    }

    /** free_desc: stops the machine for a number out of range or a descriptor already free. */
    method FreeDesc(i: nat) returns (panicked: bool)
      requires |free| == |desc| == NUM
      modifies this`free, this`desc
      ensures panicked <==> i >= NUM || old(free)[i]
      ensures panicked ==> free == old(free) && desc == old(desc)
      ensures !panicked ==> free == old(free)[i := true] && desc == old(desc)[i := BLANK]
    {
      if i >= NUM || free[i] {
        return true;
      }
      desc := desc[i := BLANK];
      free := free[i := true];
      return false;
    }

    /** free_chain, for a chain of three: it stops the machine exactly when a descriptor of it is free. */
    method FreeChain(head: nat) returns (panicked: bool)
      requires Shape(View()) && Chained(View(), head)
      modifies this`free, this`desc
      ensures var i1, i2 := Second(old(View()), head), Third(old(View()), head);
              && (panicked <==> old(free)[head] || old(free)[i1] || old(free)[i2])
              && (!panicked ==> free == old(free)[head := true][i1 := true][i2 := true]
                                && desc == old(desc)[head := BLANK][i1 := BLANK][i2 := BLANK])
    {
      ghost var i1, i2 := Second(View(), head), Third(View(), head);
      ghost var free0, desc0 := free, desc;
      var i := head;
      ghost var k := 0;
      while true
        invariant k <= 2 && i == (if k == 0 then head else if k == 1 then i1 else i2)
        invariant (k > 0 ==> !free0[head]) && (k > 1 ==> !free0[i1])
        invariant free == (if k == 0 then free0 else if k == 1 then free0[head := true]
                    else free0[head := true][i1 := true])
        invariant desc == (if k == 0 then desc0 else if k == 1 then desc0[head := BLANK]
                    else desc0[head := BLANK][i1 := BLANK])
        decreases 2 - k
      {
        var more, next := desc[i].hasNext, desc[i].next;
        panicked := FreeDesc(i);
        if panicked {
          return;
        }
        if more {
          i, k := next, k + 1;
        } else {
          return;
        }
      }
    }

    /** alloc3_desc: the three lowest free descriptors, or none at all. A failure gives back what it
        took, blank. */
    method Alloc3Desc() returns (ok: bool, idx: seq<nat>)
      requires Shape(View())
      modifies this`free, this`desc
      ensures ok <==> FreeFrom(old(free), 0) >= 3
      ensures ok <==> |FreeSet(old(free), 0)| >= 3
      ensures Shape(View())
      ensures ok ==> |idx| == 3 && desc == old(desc) && Took(old(free), free, idx)
      ensures !ok ==> free == old(free) && Tidied(old(View()), desc)
    {
      hide FreeFrom, FirstFree;
      FreeFromCounts(free, 0);
      idx := [];
      var i := 0;
      while i < 3
        invariant i == |idx| <= 3 && |free| == NUM && desc == old(desc) && Took(old(free), free, idx)
        invariant FreeFrom(old(free), 0) == FreeFrom(free, 0) + i
      {
        ghost var was := free;
        var d := AllocDesc();
        if d < 0 {
          NoneFree(free);
          GiveBack(idx);
          return false, idx;
        }
        TakeFirst(was, d);
        TookMore(old(free), was, idx, d);
        idx := idx + [d];
        i := i + 1;
      }
      return true, idx;
    }

    /** alloc3_desc's inner loop. */
    method GiveBack(idx: seq<nat>)
      requires |free| == |desc| == NUM && forall k :: 0 <= k < |idx| ==> idx[k] < NUM && !free[idx[k]]
      requires forall j, k :: 0 <= j < k < |idx| ==> idx[j] < idx[k]
      modifies this`free, this`desc
      ensures |free| == |desc| == NUM
      ensures forall i :: 0 <= i < NUM ==> (free[i] <==> old(free)[i] || i in idx)
      ensures forall i :: 0 <= i < NUM ==> desc[i] == if i in idx then BLANK else old(desc)[i]
    {
      var j := 0;
      while j < |idx|
        invariant j <= |idx| && |free| == |desc| == NUM
        invariant forall i :: 0 <= i < NUM ==> (free[i] <==> old(free)[i] || i in idx[..j])
        invariant forall i :: 0 <= i < NUM ==> desc[i] == if i in idx[..j] then BLANK else old(desc)[i]
      {
        assert idx[..j + 1] == idx[..j] + [idx[j]];
        var panicked := FreeDesc(idx[j]);
        assert !panicked;
        j := j + 1;
      }
      assert idx[..j] == idx;
    }

    /** The first half of virtio_disk_rw: if three descriptors are free, the request is formatted
        and published; otherwise the caller goes to sleep. */
    method Submit(b: nat, write: bool, block: nat) returns (ok: bool, idx: seq<nat>)
      requires Valid()
      modifies this
      ensures Valid() && (ok <==> FreeFrom(old(free), 0) >= 3)
      ensures ok <==> |FreeSet(old(free), 0)| >= 3
      ensures !ok ==> View() == old(View()).(desc := desc) && Tidied(old(View()), desc)
      ensures ok ==> |idx| == 3 && Took(old(free), free, idx)
      ensures ok ==> View() == Published(old(View()), b, write, block, idx[0], idx[1], idx[2])
    {
      hide FreeFrom, Took, Published, Tidied;
      ok, idx := Alloc3Desc();
      if !ok {
        return;
      }
      assert idx == [idx[0], idx[1], idx[2]];
      TookThree(old(free), free, idx[0], idx[1], idx[2]);
      ghost var s1 := View();
      Fill(b, write, block, idx[0], idx[1], idx[2]);
      PublishedMarks(old(View()), s1, b, write, block, idx[0], idx[1], idx[2]);
    }

    /** Format the three descriptors and tell the device. */
    method Fill(b: nat, write: bool, block: nat, i0: nat, i1: nat, i2: nat)
      requires Valid() && i0 < NUM && i1 < NUM && i2 < NUM
      modifies this`ops, this`desc, this`busy, this`info, this`avail, this`availIdx
      ensures Valid() && View() == Published(old(View()), b, write, block, i0, i1, i2).(free := free)
    {
      ops := ops[i0 := Command(write, block)];
      desc := desc[i0 := Desc(Header(i0), true, false, i1)];
      desc := desc[i1 := Desc(Data(b), true, !write, i2)];
      desc := desc[i2 := Desc(Status(i0), false, true, 0)];
      busy := busy + {b};
      info := info[i0 := Info(Buf(b), PENDING)];
      avail := avail[availIdx % NUM := i0];
      availIdx := (availIdx + 1) % TWO16;
    }

    /** The end of virtio_disk_rw, once the handler has cleared the buffer's flag. */
    method Finish(head: nat) returns (panicked: bool)
      requires Valid() && Chained(View(), head)
      requires var i1, i2 := Second(View(), head), Third(View(), head);
               head != i1 && head != i2 && i1 != i2 && !free[head] && !free[i1] && !free[i2]
      modifies this
      ensures !panicked && Valid() && View() == Freed(old(View()), head)
    {
      info := info[head := info[head].(b := NoBuf)];
      panicked := FreeChain(head);
    }

    /** virtio_disk_intr. */
    method Interrupt() returns (panicked: bool)
      requires Valid()
      modifies this`busy, this`seenIdx
      ensures Valid() && View() == Handled(old(View())) && (panicked <==> InterruptPanics(View()))
      ensures !panicked ==> seenIdx == usedIdx
    {
      while seenIdx != usedIdx
        invariant Valid() && Handled(View()) == Handled(old(View()))
        decreases (usedIdx - seenIdx) % TWO16
      {
        var id := used[seenIdx % NUM];
        if id >= NUM || info[id].status != 0 || info[id].b.NoBuf? {
          return true;
        }
        Closer(seenIdx, usedIdx);
        busy := busy - {info[id].b.b};
        seenIdx := (seenIdx + 1) % TWO16;
      }
      return false;
    }
  }
}
