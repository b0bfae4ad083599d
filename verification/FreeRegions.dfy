/** Lists of free regions, as values: what taking a range out and releasing one do to a list,
    and what that means for the units it covers. The units are the pages of a mapping area in
    MmapList, and the headers of a heap in Umalloc. */
module FreeRegions {
  datatype Region = Region(begin: nat, count: nat) {
    function End(): (e: nat) {
      begin + count
    }

    predicate Has(pg: nat) {
      begin <= pg < End()
    }

    /** [b, b + n) lies inside this region. */
    predicate Holds(b: nat, n: nat) {
      begin <= b && b + n <= End()
    }
  }

  ghost predicate Covers(l: seq<Region>, pg: nat) {
    exists k :: 0 <= k < |l| && l[k].Has(pg)
  }

  /** Sorted, disjoint, no empty region, and no two regions that touch. */
  ghost predicate Canonical(l: seq<Region>) {
    && (forall k :: 0 <= k < |l| ==> l[k].count > 0)
    && (forall j, k :: 0 <= j < k < |l| ==> l[j].End() < l[k].begin)
  }

  lemma {:induction false} CanonicalUnique(x: seq<Region>, y: seq<Region>)
    requires Canonical(x) && Canonical(y) && forall pg: nat :: Covers(x, pg) <==> Covers(y, pg)
    ensures x == y
  {
    if x == [] || y == [] {
      NonemptyCovers(x);
      NonemptyCovers(y);
    } else {
      HeadBelow(x, y);
      HeadBelow(y, x);
      assert x[0] == y[0];
      forall pg: nat
        ensures Covers(x[1..], pg) <==> Covers(y[1..], pg)
      {
        CoversTail(x, pg);
        CoversTail(y, pg);
      }
      TailCanonical(x);
      TailCanonical(y);
      CanonicalUnique(x[1..], y[1..]);
    }
  }

  lemma NonemptyCovers(l: seq<Region>)
    requires Canonical(l)
    ensures l == [] || Covers(l, l[0].begin)
  {
    if l != [] {
      assert l[0].Has(l[0].begin);
    }
  }

  /** The first region of x is not above, and ends not below, the first of y. */
  lemma HeadBelow(x: seq<Region>, y: seq<Region>)
    requires Canonical(x) && Canonical(y) && x != [] && y != []
    requires forall pg: nat :: Covers(x, pg) <==> Covers(y, pg)
    ensures x[0].begin <= y[0].begin
    ensures x[0].begin >= y[0].begin ==> x[0].End() >= y[0].End()
  {
    NonemptyCovers(y);
    GapAfterHead(x);
    var k :| 0 <= k < |x| && x[k].Has(y[0].begin);
    var head, end := y[0], x[0].End();
    assert head.Has(end) ==> Covers(y, end);
  }

  lemma GapAfterHead(l: seq<Region>)
    requires Canonical(l) && l != []
    ensures !Covers(l, l[0].End())
  {
  }

  lemma CoversTail(l: seq<Region>, pg: nat)
    requires Canonical(l) && l != []
    ensures Covers(l[1..], pg) <==> Covers(l, pg) && pg >= l[0].End()
  {
    if Covers(l[1..], pg) {
      var k :| 0 <= k < |l| - 1 && l[1..][k].Has(pg);
      assert l[k + 1].Has(pg);
    }
    if Covers(l, pg) && pg >= l[0].End() {
      var k :| 0 <= k < |l| && l[k].Has(pg);
      assert l[1..][k - 1].Has(pg);
    }
  }

  lemma TailCanonical(l: seq<Region>)
    requires Canonical(l) && l != []
    ensures Canonical(l[1..])
  {
  }

  /** The first region from k on that holds the range, or |l|. */
  function Holder(l: seq<Region>, k: nat, b: nat, n: nat): (r: nat)
    requires k <= |l|
    ensures k <= r <= |l| && (r < |l| ==> l[r].Holds(b, n)) && forall j :: k <= j < r ==> !l[j].Holds(b, n)
    decreases |l| - k
  {
    if k == |l| || l[k].Holds(b, n) then k else Holder(l, k + 1, b, n)
  }

  /** What is left of c on both sides of the range. */
  function Pieces(c: Region, b: nat, n: nat): (r: seq<Region>)
    requires c.Holds(b, n)
  {
    (if b == c.begin then [] else [Region(c.begin, (b - c.begin))]) +
    (if b + n == c.End() then [] else [Region(b + n, (c.End() - b - n))])
  }

  /** Take the range out of the region that holds it; no change if none does. */
  function Mapped(l: seq<Region>, b: nat, n: nat): (r: seq<Region>) {
    var k := Holder(l, 0, b, n);
    if k == |l| then l else l[..k] + Pieces(l[k], b, n) + l[k + 1..]
  }

  /** Where a released range goes: after the head unless below it, then past smaller regions. */
  function PlaceFrom(l: seq<Region>, k: nat, b: nat): (r: nat)
    requires k <= |l|
    ensures k <= r <= |l| && (forall j :: k <= j < r ==> l[j].begin < b) && (r < |l| ==> l[r].begin >= b)
    decreases |l| - k
  {
    if k < |l| && l[k].begin < b then PlaceFrom(l, k + 1, b) else k
  }

  function Place(l: seq<Region>, b: nat): (r: nat)
    ensures r <= |l|
  {
    if l == [] || b < l[0].begin then 0 else PlaceFrom(l, 1, b)
  }

  function Insert(l: seq<Region>, k: nat, c: Region): (r: seq<Region>)
    requires k <= |l|
    ensures |r| == |l| + 1
  {
    l[..k] + [c] + l[k..]
  }

  predicate Touch(l: seq<Region>, k: nat) {
    k + 1 < |l| && l[k].End() == l[k + 1].begin
  }

  /** Join regions k and k + 1 if they touch. */
  function Joined(l: seq<Region>, k: nat): (r: seq<Region>) {
    if Touch(l, k) then l[..k] + [Region(l[k].begin, l[k].count + l[k + 1].count)] + l[k + 2..] else l
  }

  /** Insert in order, join with the successor, then with the predecessor. */
  function Released(l: seq<Region>, b: nat, n: nat): (r: seq<Region>) {
    var k := Place(l, b);
    var l1 := Joined(Insert(l, k, Region(b, n)), k);
    if k > 0 then Joined(l1, k - 1) else l1
  }

  predicate Within(b: nat, n: nat, pg: nat) {
    b <= pg < b + n
  }

  /** No unit of the range is free. */
  ghost predicate Apart(l: seq<Region>, b: nat, n: nat) {
    forall k :: 0 <= k < |l| ==> l[k].End() <= b || b + n <= l[k].begin
  }

  lemma PiecesCover(c: Region, b: nat, n: nat)
    requires c.count > 0 && n > 0 && c.Holds(b, n)
    ensures var p := Pieces(c, b, n);
            && Canonical(p) && |p| <= 2
            && (forall j :: 0 <= j < |p| ==> c.begin <= p[j].begin && p[j].End() <= c.End())
            && (forall pg: nat :: Covers(p, pg) <==> c.Has(pg) && !Within(b, n, pg))
  {
    var p := Pieces(c, b, n);
    forall pg: nat
      ensures Covers(p, pg) <==> c.Has(pg) && !Within(b, n, pg)
    {
      if c.Has(pg) && !Within(b, n, pg) {
        assert if pg < b then p[0].Has(pg) else p[|p| - 1].Has(pg);
      }
    }
  }

  /** Replacing region k by pieces inside it. */
  lemma SpliceCovers(l: seq<Region>, k: nat, p: seq<Region>, pg: nat)
    requires k < |l|
    ensures Covers(l[..k] + p + l[k + 1..], pg) <==> Covers(p, pg) || exists j :: 0 <= j < |l| && j != k && l[j].Has(pg)
  {
    var r := l[..k] + p + l[k + 1..];
    if Covers(r, pg) {
      var j :| 0 <= j < |r| && r[j].Has(pg);
      if j < k {
        assert l[j].Has(pg);
      } else if j < k + |p| {
        assert p[j - k].Has(pg);
      } else {
        assert l[j - |p| + 1].Has(pg);
      }
    }
    if Covers(p, pg) {
      var j :| 0 <= j < |p| && p[j].Has(pg);
      assert r[k + j].Has(pg);
    }
    if j :| 0 <= j < |l| && j != k && l[j].Has(pg) {
      assert if j < k then r[j].Has(pg) else r[j + |p| - 1].Has(pg);
    }
  }

  lemma SpliceCanonical(l: seq<Region>, k: nat, p: seq<Region>)
    requires Canonical(l) && Canonical(p) && k < |l|
    requires forall j :: 0 <= j < |p| ==> l[k].begin <= p[j].begin && p[j].End() <= l[k].End()
    ensures Canonical(l[..k] + p + l[k + 1..])
  {
    var r := l[..k] + p + l[k + 1..];
    forall i, j | 0 <= i < j < |r|
      ensures r[i].End() < r[j].begin
    {
      SplicePair(l, k, p, i, j);
    }
    assert forall j :: 0 <= j < |r| ==> r[j] in l[..k] || r[j] in p || r[j] in l[k + 1..];
  }

  lemma SplicePair(l: seq<Region>, k: nat, p: seq<Region>, i: nat, j: nat)
    requires Canonical(l) && Canonical(p) && k < |l| && i < j < |l| + |p| - 1
    requires forall x :: 0 <= x < |p| ==> l[k].begin <= p[x].begin && p[x].End() <= l[k].End()
    ensures var r := l[..k] + p + l[k + 1..]; r[i].End() < r[j].begin
  {
    hide Region.End;
    var r := l[..k] + p + l[k + 1..];
    assert r[i] == if i < k then l[i] else if i < k + |p| then p[i - k] else l[i - |p| + 1];
    assert r[j] == if j < k then l[j] else if j < k + |p| then p[j - k] else l[j - |p| + 1];
    if i < k && j >= k {
      assert l[i].End() < l[k].begin;
    } else if k <= i < k + |p| <= j {
      assert l[k].End() < l[j - |p| + 1].begin;
    }
  }

  lemma MappedCovers(l: seq<Region>, b: nat, n: nat, pg: nat)
    requires Canonical(l) && n > 0 && Holder(l, 0, b, n) < |l|
    ensures Covers(Mapped(l, b, n), pg) <==> Covers(l, pg) && !Within(b, n, pg)
  {
    var k := Holder(l, 0, b, n);
    PiecesCover(l[k], b, n);
    SpliceCovers(l, k, Pieces(l[k], b, n), pg);
    hide Pieces;
    if j :| 0 <= j < |l| && j != k && l[j].Has(pg) {
      assert !l[k].Has(pg) && !Within(b, n, pg);
    } else if Covers(l, pg) {
      assert l[k].Has(pg);
    }
  }

  lemma MappedCanonical(l: seq<Region>, b: nat, n: nat)
    requires Canonical(l) && n > 0
    ensures Canonical(Mapped(l, b, n))
    ensures Holder(l, 0, b, n) == |l| ==> Mapped(l, b, n) == l
  {
    var k := Holder(l, 0, b, n);
    if k < |l| {
      PiecesCover(l[k], b, n);
      hide Pieces;
      SpliceCanonical(l, k, Pieces(l[k], b, n));
    }
  }

  /** Mapping takes exactly the range out of the free units, if one region holds it. */
  lemma MappedMeans(l: seq<Region>, b: nat, n: nat)
    requires Canonical(l) && n > 0
    ensures Canonical(Mapped(l, b, n))
    ensures if exists k :: 0 <= k < |l| && l[k].Holds(b, n)
            then forall pg: nat :: Covers(Mapped(l, b, n), pg) <==> Covers(l, pg) && !Within(b, n, pg)
            else Mapped(l, b, n) == l
  {
    hide Covers, Mapped, Canonical, Region.Holds;
    MappedCanonical(l, b, n);
    if Holder(l, 0, b, n) < |l| {
      forall pg: nat
        ensures Covers(Mapped(l, b, n), pg) <==> Covers(l, pg) && !Within(b, n, pg)
      {
        MappedCovers(l, b, n, pg);
      }
    }
  }

  lemma PlaceSplits(l: seq<Region>, b: nat)
    requires Canonical(l)
    ensures var k := Place(l, b);
            (forall j :: 0 <= j < k ==> l[j].begin <= b) && (forall j :: k <= j < |l| ==> l[j].begin >= b)
  {
    var k := Place(l, b);
    if k < |l| {
      assert l[k].begin >= b;
    }
  }

  lemma JoinedCovers(l: seq<Region>, k: nat, pg: nat)
    ensures Covers(Joined(l, k), pg) <==> Covers(l, pg)
  {
    if Touch(l, k) {
      var r := Joined(l, k);
      if Covers(r, pg) {
        var j :| 0 <= j < |r| && r[j].Has(pg);
        assert if j < k then l[j].Has(pg) else if j > k then l[j + 1].Has(pg) else l[k].Has(pg) || l[k + 1].Has(pg);
      }
      if Covers(l, pg) {
        var j :| 0 <= j < |l| && l[j].Has(pg);
        assert if j < k then r[j].Has(pg) else if j > k + 1 then r[j - 1].Has(pg) else r[k].Has(pg);
      }
    }
  }

  lemma InsertCovers(l: seq<Region>, k: nat, c: Region, pg: nat)
    requires k <= |l|
    ensures Covers(Insert(l, k, c), pg) <==> Covers(l, pg) || c.Has(pg)
  {
    var r := Insert(l, k, c);
    if Covers(r, pg) {
      var j :| 0 <= j < |r| && r[j].Has(pg);
      assert if j < k then l[j].Has(pg) else if j > k then l[j - 1].Has(pg) else c.Has(pg);
    }
    if Covers(l, pg) {
      var j :| 0 <= j < |l| && l[j].Has(pg);
      assert if j < k then r[j].Has(pg) else r[j + 1].Has(pg);
    }
    assert r[k] == c;
  }

  /** Canonical but for regions j and j + 1 that may touch, for j from lo to below hi. */
  ghost predicate Almost(l: seq<Region>, lo: nat, hi: nat) {
    && (forall k :: 0 <= k < |l| ==> l[k].count > 0)
    && (forall j, k :: 0 <= j < k < |l| ==> l[j].End() <= l[k].begin)
    && (forall j, k :: 0 <= j < k < |l| && !(k == j + 1 && lo <= j < hi) ==> l[j].End() < l[k].begin)
  }

  lemma JoinedAlmost(l: seq<Region>, k: nat, lo: nat)
    requires Almost(l, lo, k + 1) && lo <= k
    ensures Almost(Joined(l, k), lo, k)
  {
    var r := Joined(l, k);
    if Touch(l, k) {
      var c := Region(l[k].begin, l[k].count + l[k + 1].count);
      forall j | 0 <= j < |r|
        ensures r[j].count > 0
      {
        assert r[j] == if j < k then l[j] else if j > k then l[j + 1] else c;
      }
      forall i, j | 0 <= i < j < |r|
        ensures r[i].End() <= r[j].begin && (!(j == i + 1 && lo <= i < k) ==> r[i].End() < r[j].begin)
      {
        JoinedPair(l, k, lo, c, i, j);
      }
    }
  }

  lemma JoinedPair(l: seq<Region>, k: nat, lo: nat, c: Region, i: nat, j: nat)
    requires Almost(l, lo, k + 1) && lo <= k && Touch(l, k)
    requires c == Region(l[k].begin, l[k].count + l[k + 1].count)
    requires i < j < |l| - 1
    ensures var r := l[..k] + [c] + l[k + 2..];
            r[i].End() <= r[j].begin && (!(j == i + 1 && lo <= i < k) ==> r[i].End() < r[j].begin)
  {
    assert c.End() == l[k + 1].End();
    hide Region.End;
    var r := l[..k] + [c] + l[k + 2..];
    assert r[i] == if i < k then l[i] else if i > k then l[i + 1] else c;
    assert r[j] == if j < k then l[j] else if j > k then l[j + 1] else c;
    if i >= k {
      assert l[i + 1].End() < l[j + 1].begin;
    } else if j > k {
      assert l[i].End() < l[j + 1].begin;
    } else {
      assert l[i].End() <= l[j].begin;
    }
  }

  lemma InsertPair(l: seq<Region>, k: nat, c: Region, i: nat, j: nat)
    requires Canonical(l) && k <= |l| && i < j <= |l|
    requires (forall x :: 0 <= x < k ==> l[x].begin <= c.begin && l[x].End() <= c.begin)
    requires (forall x :: k <= x < |l| ==> c.End() <= l[x].begin && l[x].begin < l[x].End())
    ensures var r := Insert(l, k, c);
            r[i].End() <= r[j].begin && (j != i + 1 || (i != k && j != k) ==> r[i].End() < r[j].begin)
  {
    hide Region.End;
    var r := Insert(l, k, c);
    assert r[i] == if i < k then l[i] else if i > k then l[i - 1] else c;
    assert r[j] == if j < k then l[j] else if j > k then l[j - 1] else c;
    if i == k && j > k + 1 {
      assert l[k].End() < l[j - 1].begin;
    } else if j == k && i < k - 1 {
      assert l[i].End() < l[k - 1].begin;
    }
  }

  lemma InsertSides(l: seq<Region>, b: nat, n: nat)
    requires Canonical(l) && n > 0 && Apart(l, b, n)
    ensures forall x :: 0 <= x < Place(l, b) ==> l[x].begin <= b && l[x].End() <= b
    ensures forall x :: Place(l, b) <= x < |l| ==> Region(b, n).End() <= l[x].begin && l[x].begin < l[x].End()
  {
    PlaceSplits(l, b);
    hide Place;
  }

  lemma InsertAlmost(l: seq<Region>, b: nat, n: nat)
    requires Canonical(l) && n > 0 && Apart(l, b, n)
    ensures var k := Place(l, b);
            Almost(Insert(l, k, Region(b, n)), if k > 0 then k - 1 else 0, k + 1)
  {
    var k, c := Place(l, b), Region(b, n);
    var r := Insert(l, k, c);
    InsertSides(l, b, n);
    hide Region.End, Apart, Place;
    forall j | 0 <= j < |r|
      ensures r[j].count > 0
    {
      assert r[j] == if j < k then l[j] else if j > k then l[j - 1] else c;
    }
    forall i, j | 0 <= i < j < |r|
      ensures r[i].End() <= r[j].begin && (j != i + 1 || (i != k && j != k) ==> r[i].End() < r[j].begin)
    {
      InsertPair(l, k, c, i, j);
    }
  }

  lemma AlmostCanonical(l: seq<Region>, lo: nat)
    requires Almost(l, lo, lo)
    ensures Canonical(l)
  {
  }

  lemma ReleasedCanonical(l: seq<Region>, b: nat, n: nat)
    requires Canonical(l) && n > 0 && Apart(l, b, n)
    ensures Canonical(Released(l, b, n))
  {
    hide Canonical, Apart, Almost, Insert, Joined;
    var k := Place(l, b);
    var l0 := Insert(l, k, Region(b, n));
    InsertAlmost(l, b, n);
    if k == 0 {
      JoinedAlmost(l0, 0, 0);
    } else {
      JoinedAlmost(l0, k, k - 1);
      JoinedAlmost(Joined(l0, k), k - 1, k - 1);
    }
    AlmostCanonical(Released(l, b, n), if k == 0 then 0 else k - 1);
  }

  lemma ReleasedCovers(l: seq<Region>, b: nat, n: nat, pg: nat)
    ensures Covers(Released(l, b, n), pg) <==> Covers(l, pg) || Within(b, n, pg)
  {
    hide Covers, Insert, Joined;
    var k := Place(l, b);
    var l0 := Insert(l, k, Region(b, n));
    InsertCovers(l, k, Region(b, n), pg);
    JoinedCovers(l0, k, pg);
    if k > 0 {
      JoinedCovers(Joined(l0, k), k - 1, pg);
    }
  }

  /** Releasing a range apart from the list adds exactly its units. */
  lemma ReleasedMeans(l: seq<Region>, b: nat, n: nat)
    requires Canonical(l) && n > 0 && Apart(l, b, n)
    ensures Canonical(Released(l, b, n))
    ensures forall pg: nat :: Covers(Released(l, b, n), pg) <==> Covers(l, pg) || Within(b, n, pg)
  {
    hide Canonical, Covers, Released, Apart;
    ReleasedCanonical(l, b, n);
    forall pg: nat
      ensures Covers(Released(l, b, n), pg) <==> Covers(l, pg) || Within(b, n, pg)
    {
      ReleasedCovers(l, b, n, pg);
    }
  }

  /** Non-empty regions in address order, without overlap. */
  ghost predicate Ordered(l: seq<Region>) {
    && (forall k :: 0 <= k < |l| ==> l[k].count > 0)
    && (forall j, k :: 0 <= j < k < |l| ==> l[j].End() <= l[k].begin)
  }

  lemma JoinedOrdered(l: seq<Region>, k: nat)
    requires Ordered(Joined(l, k)) && forall j :: 0 <= j < |l| ==> l[j].count > 0
    ensures Ordered(l)
  {
    var r := Joined(l, k);
    if Touch(l, k) {
      forall i, j | 0 <= i < j < |l|
        ensures l[i].End() <= l[j].begin
      {
        var i', j' := if i <= k then i else i - 1, if j <= k then j else j - 1;
        assert l[i].End() <= r[i'].End() && r[j'].begin <= l[j].begin;
        assert i' < j' ==> r[i'].End() <= r[j'].begin;
      }
    }
  }

  lemma InsertOrdered(l: seq<Region>, k: nat, c: Region)
    requires k <= |l| && Ordered(Insert(l, k, c))
    ensures Apart(l, c.begin, c.count)
  {
    var r := Insert(l, k, c);
    forall j | 0 <= j < |l|
      ensures l[j].End() <= c.begin || c.End() <= l[j].begin
    {
      assert r[k] == c && l[j] == if j < k then r[j] else r[j + 1];
    }
  }

  /** A release keeps the list canonical exactly when it is apart from the list. */
  lemma ReleaseCanonicalIff(l: seq<Region>, b: nat, n: nat)
    requires Canonical(l) && n > 0
    ensures Canonical(Released(l, b, n)) <==> Apart(l, b, n)
  {
    if Apart(l, b, n) {
      ReleasedCanonical(l, b, n);
    }
    var k, c := Place(l, b), Region(b, n);
    var l0 := Insert(l, k, c);
    var l1 := Joined(l0, k);
    if Canonical(Released(l, b, n)) {
      assert Ordered(Released(l, b, n));
      InsertSolid(l, k, c);
      if k > 0 {
        JoinedSolid(l0, k);
        JoinedOrdered(l1, k - 1);
      }
      JoinedOrdered(l0, k);
      InsertOrdered(l, k, c);
    }
  }

  lemma InsertSolid(l: seq<Region>, k: nat, c: Region)
    requires k <= |l| && c.count > 0 && forall j :: 0 <= j < |l| ==> l[j].count > 0
    ensures forall j :: 0 <= j < |Insert(l, k, c)| ==> Insert(l, k, c)[j].count > 0
  {
  }

  lemma JoinedSolid(l: seq<Region>, k: nat)
    requires forall j :: 0 <= j < |l| ==> l[j].count > 0
    ensures forall j :: 0 <= j < |Joined(l, k)| ==> Joined(l, k)[j].count > 0
  {
  }

  /** Mapping a range out of one region and releasing it again restores the list. */
  lemma MapThenRelease(l: seq<Region>, b: nat, n: nat)
    requires Canonical(l) && n > 0 && exists k :: 0 <= k < |l| && l[k].Holds(b, n)
    ensures Released(Mapped(l, b, n), b, n) == l
  {
    var m := Mapped(l, b, n);
    MappedMeans(l, b, n);
    hide Mapped, Released;
    HeldCovered(l, b, n);
    UncoveredApart(m, b, n);
    ReleasedMeans(m, b, n);
    hide Canonical, Covers;
    CanonicalUnique(Released(m, b, n), l);
  }

  /** Releasing a range and mapping it again restores the list. */
  lemma ReleaseThenMap(l: seq<Region>, b: nat, n: nat)
    requires Canonical(l) && n > 0 && Apart(l, b, n)
    ensures Mapped(Released(l, b, n), b, n) == l
  {
    var r := Released(l, b, n);
    ReleasedMeans(l, b, n);
    hide Mapped, Released;
    CoveredHeld(r, b, n, n);
    MappedMeans(r, b, n);
    ApartUncovered(l, b, n);
    hide Canonical, Covers;
    CanonicalUnique(Mapped(r, b, n), l);
  }

  lemma HeldCovered(l: seq<Region>, b: nat, n: nat)
    requires exists k :: 0 <= k < |l| && l[k].Holds(b, n)
    ensures forall pg: nat :: Within(b, n, pg) ==> Covers(l, pg)
  {
    var k :| 0 <= k < |l| && l[k].Holds(b, n);
    assert forall pg: nat :: Within(b, n, pg) ==> l[k].Has(pg);
  }

  lemma UncoveredApart(l: seq<Region>, b: nat, n: nat)
    requires Canonical(l) && n > 0 && forall pg: nat :: Within(b, n, pg) ==> !Covers(l, pg)
    ensures Apart(l, b, n)
  {
    forall k | 0 <= k < |l|
      ensures l[k].End() <= b || b + n <= l[k].begin
    {
      assert b <= l[k].begin < b + n ==> l[k].Has(l[k].begin) && Covers(l, l[k].begin) && Within(b, n, l[k].begin);
      assert l[k].begin < b < l[k].End() ==> l[k].Has(b) && Covers(l, b) && Within(b, n, b);
    }
  }

  lemma ApartUncovered(l: seq<Region>, b: nat, n: nat)
    requires Apart(l, b, n)
    ensures forall pg: nat :: Within(b, n, pg) ==> !Covers(l, pg)
  {
  }

  /** A covered range lies in one region of a canonical list. */
  lemma {:induction false} CoveredHeld(l: seq<Region>, b: nat, n: nat, m: nat)
    requires Canonical(l) && 0 < m <= n && forall pg: nat :: Within(b, n, pg) ==> Covers(l, pg)
    ensures exists k :: 0 <= k < |l| && l[k].Holds(b, m)
  {
    if m == 1 {
      assert Within(b, n, b);
      var k :| 0 <= k < |l| && l[k].Has(b);
      assert l[k].Holds(b, 1);
    } else {
      CoveredHeld(l, b, n, m - 1);
      var k :| 0 <= k < |l| && l[k].Holds(b, m - 1);
      assert Within(b, n, b + m - 1) && Within(b, n, b + m - 2);
      var j :| 0 <= j < |l| && l[j].Has(b + m - 1);
      assert l[k].Has(b + m - 2);
      assert j == k;
      assert l[k].Holds(b, m);
    }
  }
}
