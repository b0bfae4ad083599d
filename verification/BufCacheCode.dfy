/** bio.c's linked list as code: prev/next links through a head node, kept equal to
    the recency list of the protocol by every operation. */
module BufCacheCode {
  import opened Collections
  import opened Blocks
  import opened BufCache
  import opened BufCacheProofs

  /** The index of bcache.head among the list nodes; buffers are 0..NBUF. */
  const HEAD: nat := NBUF

  /** Node k of the ring: the head, then the buffers in order, then the head again. */
  function Node(order: seq<nat>, k: nat): (n: nat) {
    if 1 <= k <= |order| then order[k - 1] else HEAD
  }

  ghost predicate Order(order: seq<nat>) {
    && (forall i :: 0 <= i < |order| ==> order[i] < NBUF)
    && (forall i, j :: 0 <= i < j < |order| ==> order[i] != order[j])
  }

  /** Nodes k and k + 1 of the ring point at each other. */
  ghost predicate LinkedAt(next: seq<nat>, prev: seq<nat>, order: seq<nat>, k: nat)
    requires |next| == |prev| == NBUF + 1 && Order(order)
  {
    next[Node(order, k)] == Node(order, k + 1) && prev[Node(order, k + 1)] == Node(order, k)
  }

  /** The links form one cycle through the head and order, forwards and backwards. */
  ghost predicate Ring(next: seq<nat>, prev: seq<nat>, order: seq<nat>) {
    && |next| == |prev| == NBUF + 1 && Order(order)
    && forall k :: 0 <= k <= |order| ==> LinkedAt(next, prev, order, k)
  }

  lemma NodesDiffer(order: seq<nat>, i: nat, j: nat)
    requires Order(order) && i <= |order| && j <= |order| && i != j
    ensures Node(order, i) != Node(order, j)
  {
  }

  /** Splicing b in behind the head. */
  lemma InsertRing(next: seq<nat>, prev: seq<nat>, order: seq<nat>, b: nat)
    requires Ring(next, prev, order) && b < NBUF && b !in order
    ensures next[HEAD] <= NBUF
    ensures Ring(next[b := next[HEAD]][HEAD := b], prev[b := HEAD][next[HEAD] := b], [b] + order)
  {
    assert LinkedAt(next, prev, order, 0);
    var first := Node(order, 1);
    var next', prev', order' := next[b := first][HEAD := b], prev[b := HEAD][first := b], [b] + order;
    forall k | 0 <= k <= |order'|
      ensures LinkedAt(next', prev', order', k)
    {
      if k >= 2 {
        assert LinkedAt(next, prev, order, k - 1);
        NodesDiffer(order, k - 1, 0);
        if k <= |order| {
          NodesDiffer(order, k, 1);
        }
      }
    }
  }

  /** Unlinking the element at position p. */
  lemma UnlinkRing(next: seq<nat>, prev: seq<nat>, order: seq<nat>, p: nat)
    requires Ring(next, prev, order) && p < |order|
    ensures var b := order[p];
            && next[b] <= NBUF && prev[b] <= NBUF
            && Ring(next[prev[b] := next[b]], prev[next[b] := prev[b]], Without(order, p))
  {
    var b := order[p];
    assert LinkedAt(next, prev, order, p) && LinkedAt(next, prev, order, p + 1);
    var before, after := Node(order, p), Node(order, p + 2);
    var next', prev', order' := next[before := after], prev[after := before], Without(order, p);
    forall k | 0 <= k <= |order'|
      ensures LinkedAt(next', prev', order', k)
    {
      if k < p {
        assert LinkedAt(next, prev, order, k);
        NodesDiffer(order, k, p);
        if p + 2 <= |order| {
          NodesDiffer(order, k + 1, p + 2);
        }
      } else if k > p {
        assert LinkedAt(next, prev, order, k + 1);
        NodesDiffer(order, k + 1, p);
        if k + 2 <= |order| {
          NodesDiffer(order, k + 2, p + 2);
        }
      }
    }
  }

  lemma {:induction false} VictimDrop(bufs: seq<Buf>, lru: seq<nat>, k: nat)
    requires forall i :: 0 <= i < |lru| ==> lru[i] < |bufs|
    requires 0 < k <= |lru| && bufs[lru[k - 1]].refcnt != 0
    ensures Victim(bufs, lru[..k]) == Victim(bufs, lru[..k - 1])
  {
    assert lru[..k][..k - 1] == lru[..k - 1];
  }

  lemma HitIffCached(bufs: seq<Buf>, lru: seq<nat>, key: Key)
    requires |bufs| == NBUF && Permutation(lru)
    ensures Hit(bufs, lru, key).None? <==> !Cached(bufs, key)
  {
    hide Hit;
    if Hit(bufs, lru, key).None? {
      MissIsUncached(bufs, lru, key);
    }
  }

  lemma NoVictim(bufs: seq<Buf>, lru: seq<nat>)
    requires |bufs| == NBUF && Permutation(lru)
    ensures Victim(bufs, lru).None? <==> forall i :: 0 <= i < NBUF ==> bufs[i].refcnt > 0
  {
    hide Victim;
    if Victim(bufs, lru).None? {
      forall i | 0 <= i < NBUF
        ensures bufs[i].refcnt > 0
      {
        assert i in lru;
      }
    }
  }

  class Cache {
    var bufs: array<Buf>
    var next: array<nat>
    var prev: array<nat>
    /** The buffers in list order. */
    ghost var lru: seq<nat>

    ghost predicate Valid()
      reads this, bufs, next, prev
    {
      && bufs.Length == NBUF && next.Length == prev.Length == NBUF + 1 && next != prev
      && Ring(next[..], prev[..], lru) && Permutation(lru)
    }

    /** b->next = head.next; b->prev = &head; head.next->prev = b; head.next = b. */
    method InsertFront(b: nat)
      requires next.Length == prev.Length == NBUF + 1 && next != prev
      requires Ring(next[..], prev[..], lru) && b < NBUF && b !in lru
      modifies next, prev, this`lru
      ensures Ring(next[..], prev[..], lru) && lru == [b] + old(lru)
    {
      InsertRing(next[..], prev[..], lru, b);
      ghost var n0: seq<nat>, p0: seq<nat> := next[..], prev[..];
      var first := next[HEAD];
      next[b] := first;
      prev[b] := HEAD;
      prev[first] := b;
      next[HEAD] := b;
      lru := [b] + lru;
      assert next[..] == n0[b := first][HEAD := b] && prev[..] == p0[b := HEAD][first := b];
    }

    /** b->next->prev = b->prev; b->prev->next = b->next. */
    method Unlink(b: nat, ghost p: nat)
      requires next.Length == prev.Length == NBUF + 1 && next != prev
      requires Ring(next[..], prev[..], lru) && p < |lru| && lru[p] == b
      modifies next, prev, this`lru
      ensures Ring(next[..], prev[..], lru) && lru == Without(old(lru), p)
    {
      UnlinkRing(next[..], prev[..], lru, p);
      ghost var n0: seq<nat>, p0: seq<nat> := next[..], prev[..];
      var after, before := next[b], prev[b];
      prev[after] := before;
      next[before] := after;
      lru := Without(lru, p);
      assert next[..] == n0[before := after] && prev[..] == p0[after := before];
    }

    /** binit: static storage is zero, and the loop strings every buffer behind the head. */
    constructor (data: Block)
      ensures Valid() && fresh(bufs) && fresh(next) && fresh(prev)
      ensures forall i :: 0 <= i < NBUF ==> bufs[i] == Buf(Key(0, 0), false, 0, data, None)
      ensures |lru| == NBUF && forall i :: 0 <= i < NBUF ==> lru[i] == NBUF - 1 - i
    {
      bufs := new Buf[NBUF](i => Buf(Key(0, 0), false, 0, data, None));
      next := new nat[NBUF + 1](i => HEAD);
      prev := new nat[NBUF + 1](i => HEAD);
      lru := [];
      new;
      for b := 0 to NBUF
        invariant fresh(next) && fresh(prev) && next != prev && next.Length == prev.Length == NBUF + 1
        invariant bufs.Length == NBUF && fresh(bufs)
        invariant forall i :: 0 <= i < NBUF ==> bufs[i] == Buf(Key(0, 0), false, 0, data, None)
        invariant Ring(next[..], prev[..], lru)
        invariant |lru| == b && forall i :: 0 <= i < b ==> lru[i] == b - 1 - i
      {
        InsertFront(b);
      }
      forall x | 0 <= x < NBUF
        ensures x in lru
      {
        assert lru[NBUF - 1 - x] == x;
      }
    }

    /** bget's first scan, forwards from the most recently used buffer. */
    method FindBlock(key: Key) returns (r: Option<nat>)
      requires Valid()
      ensures r == Hit(bufs[..], lru, key)
      ensures r.None? <==> !Cached(bufs[..], key)
    {
      HitIffCached(bufs[..], lru, key);
      var i := next[HEAD];
      ghost var k := 1;
      assert LinkedAt(next[..], prev[..], lru, 0);
      assert lru[0..] == lru;
      while i != HEAD
        invariant 1 <= k <= NBUF + 1 && i == Node(lru, k)
        invariant Hit(bufs[..], lru, key) == Hit(bufs[..], lru[k - 1..], key)
        decreases NBUF + 1 - k
      {
        if bufs[i].key == key {
          return Some(i);
        }
        assert LinkedAt(next[..], prev[..], lru, k);
        assert lru[k - 1..][1..] == lru[k..];
        i := next[i];
        k := k + 1;
      }
      r := None;
    }

    /** bget's second scan, backwards from the least recently used buffer. */
    method FindUnused() returns (r: Option<nat>)
      requires Valid()
      ensures r == Victim(bufs[..], lru)
      ensures r.None? <==> forall i :: 0 <= i < NBUF ==> bufs[i].refcnt > 0
      ensures r.Some? ==> LastIdle(bufs[..], lru, r.value)
    {
      hide LastIdle;
      VictimIsLast(bufs[..], lru);
      NoVictim(bufs[..], lru);
      var i := prev[HEAD];
      ghost var k := NBUF;
      assert LinkedAt(next[..], prev[..], lru, NBUF);
      assert lru[..NBUF] == lru;
      while i != HEAD
        invariant 0 <= k <= NBUF && i == Node(lru, k)
        invariant Victim(bufs[..], lru) == Victim(bufs[..], lru[..k])
        decreases k
      {
        if bufs[i].refcnt == 0 {
          return Some(i);
        }
        VictimDrop(bufs[..], lru, k);
        assert LinkedAt(next[..], prev[..], lru, k - 1);
        i := prev[i];
        k := k - 1;
      }
      r := None;
    }

    /** bget's critical section; None is the "no buffers" panic. */
    method Bget(key: Key) returns (r: Option<nat>)
      requires Valid()
      modifies bufs
      ensures Valid() && lru == old(lru)
      ensures r.None? <==> Hit(old(bufs[..]), lru, key).None? && Victim(old(bufs[..]), lru).None?
      ensures r.None? ==> bufs[..] == old(bufs[..])
      ensures r.None? <==> !Cached(old(bufs[..]), key) && forall i :: 0 <= i < NBUF ==> old(bufs[..])[i].refcnt > 0
      ensures r.Some? && Cached(old(bufs[..]), key) ==>
                && r.value < NBUF && old(bufs[..])[r.value].key == key
                && bufs[..] == old(bufs[..])[r.value :=
                                 old(bufs[..])[r.value].(refcnt := old(bufs[..])[r.value].refcnt + 1)]
      ensures r.Some? && !Cached(old(bufs[..]), key) ==>
                && LastIdle(old(bufs[..]), lru, r.value) && r.value < NBUF
                && bufs[..] == old(bufs[..])[r.value :=
                                 old(bufs[..])[r.value].(key := key, valid := false, refcnt := 1)]
      ensures r.Some? ==> var (b, i) := Grab(old(bufs[..]), lru, key);
                          r == Some(i) && bufs[..] == old(bufs[..])[i := b]
    {
      r := FindBlock(key);
      if r.Some? {
        bufs[r.value] := bufs[r.value].(refcnt := bufs[r.value].refcnt + 1);
        return;
      }
      r := FindUnused();
      if r.Some? {
        bufs[r.value] := bufs[r.value].(key := key, valid := false, refcnt := 1);
      }
    }

    /** brelse's critical section. */
    method Brelse(b: nat)
      requires Valid() && b < NBUF && bufs[b].refcnt > 0
      modifies this, bufs, next, prev
      ensures Valid() && bufs == old(bufs) && next == old(next) && prev == old(prev)
      ensures bufs[..] == old(bufs[..])[b := old(bufs[b]).(refcnt := old(bufs[b]).refcnt - 1)]
      ensures b in old(lru)
      ensures old(bufs[b]).refcnt == 1 ==>
                exists p: nat :: p < NBUF && old(lru)[p] == b && lru == [b] + old(lru)[..p] + old(lru)[p + 1..]
      ensures lru == if old(bufs[b]).refcnt == 1 then MoveToFront(old(lru), IndexOf(old(lru), b)) else old(lru)
    {
      assert b in lru;
      bufs[b] := bufs[b].(refcnt := bufs[b].refcnt - 1);
      if bufs[b].refcnt == 0 {
        ghost var p, order := IndexOf(lru, b), lru;
        Unlink(b, p);
        assert b !in Without(order, p);
        InsertFront(b);
        assert lru == MoveToFront(order, p);
        MoveToFrontPermutes(order, p);
      }
    }

    method Bpin(b: nat)
      requires Valid() && b < NBUF
      modifies bufs
      ensures Valid()
      ensures bufs[..] == old(bufs[..])[b := old(bufs[b]).(refcnt := old(bufs[b]).refcnt + 1)]
    {
      bufs[b] := bufs[b].(refcnt := bufs[b].refcnt + 1);
    }

    method Bunpin(b: nat)
      requires Valid() && b < NBUF && bufs[b].refcnt > 0
      modifies bufs
      ensures Valid()
      ensures bufs[..] == old(bufs[..])[b := old(bufs[b]).(refcnt := old(bufs[b]).refcnt - 1)]
    {
      bufs[b] := bufs[b].(refcnt := bufs[b].refcnt - 1);
    }
  }
}
