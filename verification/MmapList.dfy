/** The linked list of free regions and the pool of its nodes. Nodes are numbered in the static
    array; number 0 is the reserved pool head, so 0 also stands for the null pointer. */
module MmapList {
  import opened Collections
  import opened FreeRegions

  const N_MMAP := 256
  const PGSIZE := 4096
  const TWO32 := 0x1_0000_0000
  const MAXPAGES := 0x10_0000

  datatype Node = Node(begin: nat, npages: nat, next: nat)

  /** npages * PGSIZE in the 32-bit arithmetic of its operands. */
  function Bytes(npages: nat): (r: nat) {
    npages * PGSIZE % TWO32
  }

  lemma BytesExact(npages: nat)
    ensures Bytes(npages) == npages * PGSIZE <==> npages < MAXPAGES
  {
  }

  /** The number of the page that holds address a. */
  function Page(a: nat): (r: nat)
    ensures r * PGSIZE <= a < r * PGSIZE + PGSIZE
  {
    a / PGSIZE
  }

  predicate OnPage(a: nat)
    ensures OnPage(a) <==> Page(a) * PGSIZE == a
  {
    a % PGSIZE == 0
  }

  function IdAt(ids: seq<nat>, k: nat): (r: nat) {
    if k < |ids| then ids[k] else 0
  }

  ghost predicate NextAt(nodes: seq<Node>, ids: seq<nat>, k: nat)
    requires k < |ids|
  {
    0 < ids[k] < |nodes| && nodes[ids[k]].next == IdAt(ids, k + 1)
  }

  /** The nodes ids hang together from first, in this order, and end with null. */
  ghost predicate Chain(nodes: seq<Node>, first: nat, ids: seq<nat>) {
    first == IdAt(ids, 0) && Distinct(ids) && forall k :: 0 <= k < |ids| ==> NextAt(nodes, ids, k)
  }

  ghost predicate Pool(links: seq<nat>, ids: seq<nat>) {
    && |links| > 0 && links[0] == IdAt(ids, 0) && Distinct(ids)
    && forall k :: 0 <= k < |ids| ==> 0 < ids[k] < |links| && links[ids[k]] == IdAt(ids, k + 1)
  }

  ghost predicate InRange(nodes: seq<Node>, ids: seq<nat>) {
    forall k :: 0 <= k < |ids| ==> ids[k] < |nodes|
  }

  function RegionOf(n: Node): (r: Region) {
    Region(Page(n.begin), n.npages)
  }

  function RegionsOf(nodes: seq<Node>, ids: seq<nat>): (r: seq<Region>)
    requires InRange(nodes, ids)
    ensures |r| == |ids|
  {
    seq(|ids|, k requires 0 <= k < |ids| => RegionOf(nodes[ids[k]]))
  }

  ghost predicate Aligned(nodes: seq<Node>, ids: seq<nat>)
    requires InRange(nodes, ids)
  {
    forall k :: 0 <= k < |ids| ==> OnPage(nodes[ids[k]].begin)
  }

  /** Every region has fewer pages than its byte count in 32 bits can hold. */
  ghost predicate Small(l: seq<Region>) {
    forall k :: 0 <= k < |l| ==> l[k].count < MAXPAGES
  }

  function With(ids: seq<nat>, k: nat, id: nat): (r: seq<nat>)
    requires k <= |ids|
  {
    ids[..k] + [id] + ids[k..]
  }

  /** The node before position k, or the head pointer, is made to point to next. */
  function Point(nodes: seq<Node>, ids: seq<nat>, k: nat, next: nat): (r: seq<Node>)
    requires k <= |ids| && InRange(nodes, ids)
    ensures |r| == |nodes|
  {
    if k == 0 then nodes else nodes[ids[k - 1] := nodes[ids[k - 1]].(next := next)]
  }

  lemma PointRegions(nodes: seq<Node>, ids: seq<nat>, k: nat, next: nat, i: nat)
    requires k <= |ids| && InRange(nodes, ids) && i < |nodes|
    ensures Point(nodes, ids, k, next)[i].begin == nodes[i].begin
    ensures Point(nodes, ids, k, next)[i].npages == nodes[i].npages
    ensures k == 0 || i != ids[k - 1] ==> Point(nodes, ids, k, next)[i] == nodes[i]
  {
  }

  lemma ChainInRange(nodes: seq<Node>, first: nat, ids: seq<nat>)
    requires Chain(nodes, first, ids)
    ensures InRange(nodes, ids)
  {
    forall k | 0 <= k < |ids|
      ensures ids[k] < |nodes|
    {
      assert NextAt(nodes, ids, k);
    }
  }

  lemma ListNode(nodes: seq<Node>, first: nat, ids: seq<nat>, k: nat)
    requires Chain(nodes, first, ids) && InRange(nodes, ids) && Aligned(nodes, ids) && k < |ids|
    ensures 0 < ids[k] < |nodes| && RegionsOf(nodes, ids)[k] == RegionOf(nodes[ids[k]])
    ensures nodes[ids[k]].next == IdAt(ids, k + 1) && OnPage(nodes[ids[k]].begin)
  {
    assert NextAt(nodes, ids, k);
  }

  /** Taking node k out of the list. */
  lemma UnlinkChain(nodes: seq<Node>, first: nat, ids: seq<nat>, k: nat)
    requires Chain(nodes, first, ids) && k < |ids|
    ensures InRange(nodes, ids)
    ensures var next := nodes[ids[k]].next;
            Chain(Point(nodes, ids, k, next), if k == 0 then next else first, Without(ids, k))
  {
    ChainInRange(nodes, first, ids);
    assert NextAt(nodes, ids, k);
    var next := nodes[ids[k]].next;
    var nodes', ids' := Point(nodes, ids, k, next), Without(ids, k);
    forall j | 0 <= j < |ids'|
      ensures NextAt(nodes', ids', j)
    {
      assert NextAt(nodes, ids, if j < k then j else j + 1);
    }
  }

  lemma UnlinkRegions(nodes: seq<Node>, ids: seq<nat>, k: nat, next: nat)
    requires InRange(nodes, ids) && k < |ids|
    ensures var nodes' := Point(nodes, ids, k, next);
            && InRange(nodes', Without(ids, k))
            && var l := RegionsOf(nodes, ids); RegionsOf(nodes', Without(ids, k)) == l[..k] + l[k + 1..]
    ensures Aligned(nodes, ids) ==> Aligned(Point(nodes, ids, k, next), Without(ids, k))
  {
    var nodes' := Point(nodes, ids, k, next);
    forall i | 0 <= i < |nodes|
      ensures nodes'[i].begin == nodes[i].begin && nodes'[i].npages == nodes[i].npages
    {
      PointRegions(nodes, ids, k, next, i);
    }
  }

  /** Putting node id at position k. */
  lemma LinkChain(nodes: seq<Node>, first: nat, ids: seq<nat>, k: nat, id: nat)
    requires Chain(nodes, first, ids) && k <= |ids| && 0 < id < |nodes| && id !in ids && nodes[id].next == IdAt(ids, k)
    ensures InRange(nodes, ids) && Chain(Point(nodes, ids, k, id), if k == 0 then id else first, With(ids, k, id))
  {
    ChainInRange(nodes, first, ids);
    var nodes', ids' := Point(nodes, ids, k, id), With(ids, k, id);
    forall j | 0 <= j < |ids'|
      ensures NextAt(nodes', ids', j)
    {
      assert j != k ==> NextAt(nodes, ids, if j < k then j else j - 1);
    }
  }

  lemma LinkRegions(nodes: seq<Node>, ids: seq<nat>, k: nat, id: nat)
    requires InRange(nodes, ids) && k <= |ids| && id < |nodes|
    ensures var nodes' := Point(nodes, ids, k, id);
            && InRange(nodes', With(ids, k, id))
            && RegionsOf(nodes', With(ids, k, id)) == Insert(RegionsOf(nodes, ids), k, RegionOf(nodes[id]))
    ensures Aligned(nodes, ids) && OnPage(nodes[id].begin) ==> Aligned(Point(nodes, ids, k, id), With(ids, k, id))
  {
    var nodes' := Point(nodes, ids, k, id);
    forall i | 0 <= i < |nodes|
      ensures nodes'[i].begin == nodes[i].begin && nodes'[i].npages == nodes[i].npages
    {
      PointRegions(nodes, ids, k, id, i);
    }
  }

  /** Changing the extent of node k. */
  lemma ResizeChain(nodes: seq<Node>, first: nat, ids: seq<nat>, k: nat, n: Node)
    requires Chain(nodes, first, ids) && k < |ids| && ids[k] < |nodes| && n.next == nodes[ids[k]].next
    ensures Chain(nodes[ids[k] := n], first, ids)
    ensures InRange(nodes, ids) && InRange(nodes[ids[k] := n], ids)
    ensures RegionsOf(nodes[ids[k] := n], ids) == RegionsOf(nodes, ids)[k := RegionOf(n)]
    ensures Aligned(nodes, ids) && OnPage(n.begin) ==> Aligned(nodes[ids[k] := n], ids)
  {
    ChainInRange(nodes, first, ids);
    var nodes' := nodes[ids[k] := n];
    forall j | 0 <= j < |ids|
      ensures NextAt(nodes', ids, j)
    {
      assert NextAt(nodes, ids, j);
    }
  }

  /** Changing a node outside the list. */
  lemma OtherChain(nodes: seq<Node>, first: nat, ids: seq<nat>, id: nat, n: Node)
    requires Chain(nodes, first, ids) && id < |nodes| && id !in ids
    ensures Chain(nodes[id := n], first, ids)
    ensures InRange(nodes, ids) && InRange(nodes[id := n], ids)
    ensures RegionsOf(nodes[id := n], ids) == RegionsOf(nodes, ids)
    ensures Aligned(nodes, ids) ==> Aligned(nodes[id := n], ids)
  {
    ChainInRange(nodes, first, ids);
    var nodes' := nodes[id := n];
    forall j | 0 <= j < |ids|
      ensures NextAt(nodes', ids, j)
    {
      assert NextAt(nodes, ids, j);
    }
  }

  lemma WithoutBag(ids: seq<nat>, k: nat)
    requires k < |ids|
    ensures multiset(ids) == multiset(Without(ids, k)) + multiset{ids[k]}
    ensures Distinct(ids) ==> ids[k] !in Without(ids, k)
    ensures forall x :: x in Without(ids, k) ==> x in ids
  {
    assert ids == ids[..k] + [ids[k]] + ids[k + 1..];
  }

  lemma WithBag(ids: seq<nat>, k: nat, id: nat)
    requires k <= |ids|
    ensures multiset(With(ids, k, id)) == multiset(ids) + multiset{id}
    ensures forall x :: x in With(ids, k, id) ==> x in ids || x == id
  {
    assert ids == ids[..k] + ids[k..];
  }

  lemma FirstBag(ids: seq<nat>)
    requires ids != []
    ensures multiset(ids) == multiset(ids[1..]) + multiset{ids[0]}
  {
    assert ids == [ids[0]] + ids[1..];
  }

  ghost predicate Disjoint(x: seq<nat>, y: seq<nat>) {
    forall j, k :: 0 <= j < |x| && 0 <= k < |y| ==> x[j] != y[k]
  }

  /** Byte arithmetic on a node agrees with page arithmetic on its region. */
  lemma NodePages(c: Node, b: nat, n: nat)
    requires OnPage(c.begin) && OnPage(b) && c.npages < MAXPAGES && n < MAXPAGES
    ensures var r := RegionOf(c);
            && r.begin * PGSIZE == c.begin && r.End() * PGSIZE == c.begin + Bytes(c.npages)
            && Page(b) * PGSIZE == b && (Page(b) + n) * PGSIZE == b + Bytes(n)
            && OnPage(b + Bytes(n))
  {
    BytesExact(c.npages);
    BytesExact(n);
    hide Bytes;
  }

  lemma NodeHolds(c: Node, b: nat, n: nat)
    requires OnPage(c.begin) && OnPage(b) && c.npages < MAXPAGES && n < MAXPAGES
    ensures RegionOf(c).Holds(Page(b), n) <==> b >= c.begin && b + Bytes(n) <= c.begin + Bytes(c.npages)
    ensures b == c.begin <==> Page(b) == RegionOf(c).begin
    ensures b + Bytes(n) == c.begin + Bytes(c.npages) <==> Page(b) + n == RegionOf(c).End()
    ensures b == c.begin ==> (Bytes(n) == Bytes(c.npages) <==> n == c.npages)
  {
    NodePages(c, b, n);
    hide Bytes;
  }

  /** The range falls strictly inside the first region that holds it, which must then become two. */
  predicate Splits(l: seq<Region>, b: nat, n: nat) {
    var k := Holder(l, 0, b, n);
    k < |l| && l[k].begin < b && b + n < l[k].End()
  }

  lemma SplitsHere(l: seq<Region>, k: nat, b: nat, n: nat)
    requires k < |l| && l[k].Holds(b, n) && forall j :: 0 <= j < k ==> !l[j].Holds(b, n)
    ensures Splits(l, b, n) <==> l[k].begin < b && b + n < l[k].End()
  {
    HolderIs(l, k, b, n);
  }

  /** Mapping makes no region larger. */
  lemma MappedSmall(l: seq<Region>, b: nat, n: nat)
    requires Small(l)
    ensures Small(Mapped(l, b, n))
  {
    var k := Holder(l, 0, b, n);
    if k < |l| {
      var p := Pieces(l[k], b, n);
      assert forall j :: 0 <= j < |p| ==> p[j].count <= l[k].count;
    }
  }

  /** The pages of the region that a released range ends up in. */
  function Joint(l: seq<Region>, b: nat, n: nat): (r: nat) {
    var k := Place(l, b);
    n + (if k < |l| && l[k].begin == b + n then l[k].count else 0)
      + (if k > 0 && l[k - 1].End() == b then l[k - 1].count else 0)
  }

  /** Region k has c pages, and all the others are small. */
  ghost predicate SmallBut(l: seq<Region>, k: nat, c: nat) {
    k < |l| && l[k].count == c && forall j :: 0 <= j < |l| && j != k ==> l[j].count < MAXPAGES
  }

  lemma SmallButIs(l: seq<Region>, k: nat, c: nat)
    requires SmallBut(l, k, c)
    ensures Small(l) <==> c < MAXPAGES
  {
  }

  lemma InsertSmall(l: seq<Region>, k: nat, c: Region)
    requires Small(l) && k <= |l|
    ensures SmallBut(Insert(l, k, c), k, c.count)
  {
    var r := Insert(l, k, c);
    assert forall j :: 0 <= j < |r| && j != k ==> r[j] == if j < k then l[j] else l[j - 1];
  }

  lemma JoinUpSmall(l: seq<Region>, k: nat, c: nat)
    requires SmallBut(l, k, c)
    ensures SmallBut(Joined(l, k), k, c + if Touch(l, k) then l[k + 1].count else 0)
    ensures Joined(l, k)[k].begin == l[k].begin && Joined(l, k)[..k] == l[..k]
  {
    var r := Joined(l, k);
    assert Touch(l, k) ==> forall j :: 0 <= j < |r| && j != k ==> r[j] == if j < k then l[j] else l[j + 1];
  }

  lemma JoinDownSmall(l: seq<Region>, k: nat, c: nat)
    requires SmallBut(l, k, c) && k > 0
    ensures if Touch(l, k - 1) then SmallBut(Joined(l, k - 1), k - 1, c + l[k - 1].count)
            else SmallBut(Joined(l, k - 1), k, c)
  {
    var r := Joined(l, k - 1);
    assert Touch(l, k - 1) ==> forall j :: 0 <= j < |r| && j != k - 1 ==> r[j] == if j < k then l[j] else l[j + 1];
  }

  /** Releasing a range keeps every region small exactly if the one it makes is. */
  lemma ReleasedSmall(l: seq<Region>, b: nat, n: nat)
    requires Small(l)
    ensures Small(Released(l, b, n)) <==> Joint(l, b, n) < MAXPAGES
  {
    hide Place, Insert, Joined, SmallBut, Small;
    var k := Place(l, b);
    var l0 := Insert(l, k, Region(b, n));
    InsertSmall(l, k, Region(b, n));
    InsertTouches(l, k, Region(b, n));
    JoinUpSmall(l0, k, n);
    var l1 := Joined(l0, k);
    var c := n + if Touch(l0, k) then l0[k + 1].count else 0;
    if k > 0 {
      assert l1[..k][k - 1] == l0[..k][k - 1] == l[k - 1];
      JoinDownSmall(l1, k, c);
      SmallButIs(Joined(l1, k - 1), if Touch(l1, k - 1) then k - 1 else k, Joint(l, b, n));
    } else {
      SmallButIs(l1, k, c);
    }
  }

  lemma InsertTouches(l: seq<Region>, k: nat, c: Region)
    requires k <= |l|
    ensures var r := Insert(l, k, c);
            && r[k] == c && r[..k] == l[..k] && (Touch(r, k) <==> k < |l| && l[k].begin == c.End())
            && (k < |l| ==> r[k + 1] == l[k])
  {
  }

  lemma HolderIs(l: seq<Region>, k: nat, b: nat, n: nat)
    requires k <= |l| && (k < |l| ==> l[k].Holds(b, n)) && forall j :: 0 <= j < k ==> !l[j].Holds(b, n)
    ensures Holder(l, 0, b, n) == k
  {
  }

  function Halved(l: seq<Region>, k: nat, x: Region, y: Region): (r: seq<Region>)
    requires k < |l|
  {
    Insert(l[k := x], k + 1, y)
  }

  lemma HeadIs(nodes: seq<Node>, head: nat, ids: seq<nat>)
    requires Chain(nodes, head, ids)
    ensures head == IdAt(ids, 0)
  {
  }

  /** What uvm_mmap's loop sees at node k. */
  lemma AtNode(nodes: seq<Node>, head: nat, ids: seq<nat>, k: nat, b: nat, n: nat)
    requires Chain(nodes, head, ids) && InRange(nodes, ids) && Aligned(nodes, ids) && k <= |ids| && IdAt(ids, k) != 0
    requires Small(RegionsOf(nodes, ids)) && OnPage(b) && n < MAXPAGES
    ensures k < |ids| && ids[k] < |nodes| && nodes[ids[k]].next == IdAt(ids, k + 1)
    ensures var c := nodes[ids[k]];
            RegionsOf(nodes, ids)[k].Holds(Page(b), n) <==> b >= c.begin && b + Bytes(n) <= c.begin + Bytes(c.npages)
  {
    assert NextAt(nodes, ids, k);
    assert RegionsOf(nodes, ids)[k].count < MAXPAGES;
    NodeHolds(nodes[ids[k]], b, n);
  }

  lemma NoneHolds(l: seq<Region>, b: nat, n: nat)
    requires forall j :: 0 <= j < |l| ==> !l[j].Holds(b, n)
    ensures !Splits(l, b, n) && Mapped(l, b, n) == l
  {
    HolderIs(l, |l|, b, n);
  }

  lemma ShapedUnique(l: seq<Region>, k: nat, b: nat, n: nat, x: seq<Region>, y: seq<Region>)
    requires k < |l| && l[k].Holds(b, n) && Shaped(l, k, b, n, x) && Shaped(l, k, b, n, y)
    ensures x == y
  {
  }

  /** The four shapes of a mapped list. */
  ghost predicate Shaped(l: seq<Region>, k: nat, b: nat, n: nat, m: seq<Region>)
    requires k < |l| && l[k].Holds(b, n)
  {
    var c := l[k];
    if b == c.begin && n == c.count then m == l[..k] + l[k + 1..]
    else if b == c.begin then m == l[k := Region(b + n, c.count - n)]
    else if b + n == c.End() then m == l[k := Region(c.begin, c.count - n)]
    else m == Halved(l, k, Region(c.begin, b - c.begin), Region(b + n, c.End() - b - n))
  }

  lemma ShapedLower(l: seq<Region>, k: nat, b: nat, n: nat)
    requires k < |l| && l[k].Holds(b, n) && l[k].count >= n
    ensures b == l[k].begin && n == l[k].count ==> Shaped(l, k, b, n, l[..k] + l[k + 1..])
    ensures b == l[k].begin && n != l[k].count ==> Shaped(l, k, b, n, l[k := Region(b + n, l[k].count - n)])
  {
  }

  lemma ShapedUpper(l: seq<Region>, k: nat, b: nat, n: nat)
    requires k < |l| && l[k].Holds(b, n) && l[k].count >= n
    ensures b != l[k].begin && b + n == l[k].End() ==> Shaped(l, k, b, n, l[k := Region(l[k].begin, l[k].count - n)])
    ensures b != l[k].begin && b + n != l[k].End() ==>
              Shaped(l, k, b, n, Halved(l, k, Region(l[k].begin, b - l[k].begin), Region(b + n, l[k].End() - b - n)))
  {
  }

  lemma PiecesShaped(l: seq<Region>, k: nat, b: nat, n: nat)
    requires k < |l| && l[k].Holds(b, n)
    ensures Shaped(l, k, b, n, l[..k] + Pieces(l[k], b, n) + l[k + 1..])
  {
    PiecesOf(l[k], b, n);
    hide Pieces, Halved;
    var c := l[k];
    assert l[..k] + [] + l[k + 1..] == l[..k] + l[k + 1..];
    OneInstead(l, k, Region(b + n, c.count - n));
    if b + n == c.End() {
      OneInstead(l, k, Region(c.begin, c.count - n));
    }
    TwoInstead(l, k, Region(c.begin, b - c.begin), Region(b + n, c.End() - b - n));
  }

  lemma MappedShaped(l: seq<Region>, k: nat, b: nat, n: nat)
    requires k < |l| && l[k].Holds(b, n) && forall j :: 0 <= j < k ==> !l[j].Holds(b, n)
    ensures Shaped(l, k, b, n, Mapped(l, b, n))
  {
    HolderIs(l, k, b, n);
    PiecesShaped(l, k, b, n);
    hide Pieces, Shaped;
  }

  lemma OneInstead(l: seq<Region>, k: nat, x: Region)
    requires k < |l|
    ensures l[..k] + [x] + l[k + 1..] == l[k := x]
  {
  }

  lemma TwoInstead(l: seq<Region>, k: nat, x: Region, y: Region)
    requires k < |l|
    ensures l[..k] + [x, y] + l[k + 1..] == Halved(l, k, x, y)
  {
  }

  lemma PiecesOf(c: Region, b: nat, n: nat)
    requires c.Holds(b, n)
    ensures b == c.begin && n == c.count ==> Pieces(c, b, n) == []
    ensures b == c.begin && n != c.count ==> Pieces(c, b, n) == [Region(b + n, c.count - n)]
    ensures b != c.begin && b + n == c.End() ==> Pieces(c, b, n) == [Region(c.begin, c.count - n)]
    ensures b != c.begin && b + n != c.End() ==>
              Pieces(c, b, n) == [Region(c.begin, b - c.begin), Region(b + n, c.End() - b - n)]
  {
  }

  /** The byte tests and sums of uvm_mmap on the node c that holds the range, in pages of its region. */
  ghost predicate CarveSums(c: Node, r: Region, b: nat, n: nat) {
    var len, end := Bytes(n), c.begin + Bytes(c.npages);
    && (b == c.begin <==> Page(b) == r.begin)
    && (b == c.begin ==> (len == Bytes(c.npages) <==> n == r.count))
    && (b + len == end <==> Page(b) + n == r.End())
    && n <= c.npages == r.count && Page(c.begin) == r.begin && OnPage(c.begin)
    && OnPage(b + len) && Page(b + len) == Page(b) + n
    && c.begin <= b && b + len <= end
    && Page(b - c.begin) == Page(b) - r.begin
    && Page(end - b - len) == r.End() - Page(b) - n
  }

  lemma CarveCase(c: Node, b: nat, n: nat)
    requires OnPage(c.begin) && OnPage(b) && c.npages < MAXPAGES && n < MAXPAGES
    requires RegionOf(c).Holds(Page(b), n)
    ensures CarveSums(c, RegionOf(c), b, n)
  {
    NodePages(c, b, n);
    NodeHolds(c, b, n);
    hide Bytes;
  }

  lemma CarveNode(nodes: seq<Node>, ids: seq<nat>, k: nat, b: nat, n: nat)
    requires InRange(nodes, ids) && Aligned(nodes, ids) && k < |ids| && OnPage(b) && n < MAXPAGES
    requires Small(RegionsOf(nodes, ids)) && RegionsOf(nodes, ids)[k].Holds(Page(b), n)
    ensures CarveSums(nodes[ids[k]], RegionsOf(nodes, ids)[k], b, n)
  {
    assert RegionsOf(nodes, ids)[k].count < MAXPAGES;
    CarveCase(nodes[ids[k]], b, n);
  }

  lemma PageOrder(x: nat, y: nat)
    requires OnPage(x) && OnPage(y)
    ensures x < y <==> Page(x) < Page(y)
  {
  }

  lemma EmptyRegions(nodes: seq<Node>)
    ensures InRange(nodes, []) && RegionsOf(nodes, []) == []
  {
  }

  lemma BeginAt(nodes: seq<Node>, head: nat, ids: seq<nat>, k: nat, b: nat)
    requires Chain(nodes, head, ids) && InRange(nodes, ids) && Aligned(nodes, ids) && k < |ids| && OnPage(b)
    ensures 0 < ids[k] < |nodes| && (nodes[ids[k]].begin < b <==> RegionsOf(nodes, ids)[k].begin < Page(b))
    ensures b < nodes[ids[k]].begin <==> Page(b) < RegionsOf(nodes, ids)[k].begin
  {
    assert NextAt(nodes, ids, k);
    PageOrder(nodes[ids[k]].begin, b);
    PageOrder(b, nodes[ids[k]].begin);
  }

  lemma NextIs(nodes: seq<Node>, head: nat, ids: seq<nat>, k: nat, b: nat)
    requires Chain(nodes, head, ids) && InRange(nodes, ids) && Aligned(nodes, ids) && k < |ids| && OnPage(b)
    ensures ids[k] < |nodes| && nodes[ids[k]].next == IdAt(ids, k + 1) && nodes[ids[k]].next < |nodes|
    ensures nodes[ids[k]].next != 0 <==> k + 1 < |ids|
    ensures k + 1 < |ids| ==>
              (nodes[nodes[ids[k]].next].begin < b <==> RegionsOf(nodes, ids)[k + 1].begin < Page(b))
  {
    assert NextAt(nodes, ids, k);
    if k + 1 < |ids| {
      BeginAt(nodes, head, ids, k + 1, b);
    }
  }

  /** The test of uvm_munmap for regions that touch. */
  lemma TouchNode(nodes: seq<Node>, head: nat, ids: seq<nat>, k: nat)
    requires Chain(nodes, head, ids) && InRange(nodes, ids) && Aligned(nodes, ids) && k < |ids|
    requires RegionsOf(nodes, ids)[k].count < MAXPAGES
    ensures var c, l := nodes[ids[k]], RegionsOf(nodes, ids);
            && c.next == IdAt(ids, k + 1) && c.next < |nodes| && (c.next != 0 <==> k + 1 < |ids|)
            && OnPage(c.begin) && Page(c.begin) == l[k].begin && c.npages == l[k].count
            && (k + 1 < |ids| ==> nodes[c.next].npages == l[k + 1].count)
            && (c.next != 0 && c.begin + Bytes(c.npages) == nodes[c.next].begin <==> Touch(l, k))
  {
    assert NextAt(nodes, ids, k);
    var c := nodes[ids[k]];
    if k + 1 < |ids| {
      assert NextAt(nodes, ids, k + 1);
      NodePages(c, c.begin, 0);
      NodePages(nodes[c.next].(npages := 0), c.begin, 0);
    }
  }

  lemma JoinedIs(l: seq<Region>, k: nat)
    requires Touch(l, k)
    ensures var m := l[k := Region(l[k].begin, l[k].count + l[k + 1].count)];
            Joined(l, k) == m[..k + 1] + m[k + 2..]
  {
  }

  lemma AfterPrev(nodes: seq<Node>, head: nat, ids: seq<nat>, k: nat)
    requires Chain(nodes, head, ids) && k <= |ids|
    ensures k == 0 ==> head == IdAt(ids, 0)
    ensures k > 0 ==> 0 < ids[k - 1] < |nodes| && nodes[ids[k - 1]].next == IdAt(ids, k)
  {
    assert k > 0 ==> NextAt(nodes, ids, k - 1);
  }

  lemma InsertBefore(l: seq<Region>, k: nat, c: Region)
    requires k <= |l| && Small(l)
    ensures Insert(l, k, c)[k] == c
    ensures k > 0 ==> Insert(l, k, c)[k - 1] == l[k - 1] && l[k - 1].count < MAXPAGES
  {
  }

  lemma JoinedBefore(l: seq<Region>, k: nat)
    ensures k < |l| ==> k < |Joined(l, k)|
    ensures 0 < k < |l| ==> Joined(l, k)[k - 1] == l[k - 1]
  {
  }

  lemma WithoutBefore(ids: seq<nat>, k: nat)
    requires k + 1 < |ids|
    ensures k < |Without(ids, k + 1)| && Without(ids, k + 1)[k] == ids[k]
    ensures k > 0 ==> Without(ids, k + 1)[k - 1] == ids[k - 1]
  {
  }

  /** A process's free regions, with the pool that all lists draw on. */
  class RegionList {
    var nodes: seq<Node>
    var links: seq<nat>
    var head: nat
    /** The list and the pool in order. */
    ghost var list: seq<nat>
    ghost var free: seq<nat>

    ghost predicate Linked()
      reads this
    {
      && |nodes| == |links| == N_MMAP
      && Chain(nodes, head, list) && Pool(links, free) && Disjoint(list, free)
      && InRange(nodes, list) && Aligned(nodes, list)
    }

    ghost function Regions(): (l: seq<Region>)
      reads this
      requires InRange(nodes, list)
    {
      RegionsOf(nodes, list)
    }

    ghost predicate Valid()
      reads this
    {
      Linked() && Canonical(Regions()) && Small(Regions())
    }

    /** mmap_init, with an empty list: every node but the reserved one is in the pool. */
    constructor ()
      ensures Valid() && list == [] && |free| == N_MMAP - 1
    {
      nodes := seq(N_MMAP, _ => Node(0, 0, 0));
      head := 0;
      list := [];
      var chain := seq(N_MMAP, _ => 0);
      ghost var ids: seq<nat> := [];
      var i := 1;
      while i < N_MMAP
        invariant 1 <= i <= N_MMAP && |chain| == N_MMAP && |ids| == i - 1
        invariant forall k :: 0 <= k < |ids| ==> ids[k] == i - 1 - k
        invariant chain[0] == i - 1
        invariant forall k :: 1 <= k < i ==> chain[k] == k - 1
      {
        chain := chain[i := chain[0]][0 := i];
        ids := [i] + ids;
        i := i + 1;
      }
      links, free := chain, ids;
    }

    /** mmap_region_alloc: stops the machine exactly when the pool is empty. */
    method RegionAlloc() returns (panicked: bool, id: nat)
      requires Linked()
      modifies this`nodes, this`links, this`free
      ensures panicked <==> old(free) == []
      ensures panicked ==> nodes == old(nodes) && links == old(links) && free == old(free)
      ensures !panicked ==> id == old(free)[0] && free == old(free)[1..] && 0 < id < N_MMAP
                            && id !in free && id !in list && nodes == old(nodes)[id := Node(0, 0, 0)]
      ensures Linked() && Regions() == old(Regions()) && head == old(head)
    {
      id := links[0];
      if id == 0 {
        return true, 0;
      }
      OtherChain(nodes, head, list, id, Node(0, 0, 0));
      hide Chain, RegionsOf;
      links := links[0 := links[id]];
      free := free[1..];
      nodes := nodes[id := Node(0, 0, 0)];
      return false, id;
    }

    /** mmap_region_free. */
    method RegionFree(id: nat)
      requires Linked() && 0 < id < N_MMAP && id !in list && id !in free
      modifies this`links, this`free
      ensures Linked() && free == [id] + old(free)
    {
      hide Chain, RegionsOf;
      links := links[id := links[0]][0 := id];
      free := [id] + free;
    }
  
    /** Node list[k] = id, whose predecessor is prev, leaves the list. */
    method Unlink(prev: nat, id: nat, ghost k: nat)
      requires Linked() && k < |list| && id == list[k] && prev == if k == 0 then 0 else list[k - 1]
      modifies this`nodes, this`head, this`list
      ensures Linked() && list == Without(old(list), k)
      ensures Regions() == old(Regions())[..k] + old(Regions())[k + 1..]
      ensures |nodes| == |old(nodes)| && forall i :: 0 <= i < |nodes| ==> nodes[i].npages == old(nodes)[i].npages
    {
      UnlinkChain(nodes, head, list, k);
      UnlinkRegions(nodes, list, k, nodes[id].next);
      WithoutBag(list, k);
      assert k > 0 ==> NextAt(nodes, list, k - 1);
      hide Chain, RegionsOf;
      if prev == 0 {
        head := nodes[id].next;
      } else {
        nodes := nodes[prev := nodes[prev].(next := nodes[id].next)];
      }
      list := Without(list, k);
    }

    /** Node id enters the list at position k, after prev. */
    method Link(prev: nat, id: nat, ghost k: nat)
      requires Linked() && k <= |list| && prev == (if k == 0 then 0 else list[k - 1])
      requires 0 < id < N_MMAP && id !in list && id !in free && OnPage(nodes[id].begin)
      requires nodes[id].next == IdAt(list, k)
      modifies this`nodes, this`head, this`list
      ensures Linked() && list == With(old(list), k, id)
      ensures Regions() == Insert(old(Regions()), k, RegionOf(old(nodes)[id]))
    {
      LinkChain(nodes, head, list, k, id);
      LinkRegions(nodes, list, k, id);
      WithBag(list, k, id);
      assert k > 0 ==> NextAt(nodes, list, k - 1);
      hide Chain, RegionsOf;
      if prev == 0 {
        head := id;
      } else {
        nodes := nodes[prev := nodes[prev].(next := id)];
      }
      list := With(list, k, id);
    }

    /** Node list[k] = id gets a new extent. */
    method Resize(id: nat, begin: nat, npages: nat, ghost k: nat)
      requires Linked() && k < |list| && id == list[k] && OnPage(begin)
      modifies this`nodes
      ensures Linked() && Regions() == old(Regions())[k := Region(Page(begin), npages)]
      ensures nodes == old(nodes)[id := old(nodes)[id].(begin := begin, npages := npages)]
    {
      ResizeChain(nodes, head, list, k, nodes[id].(begin := begin, npages := npages));
      hide Chain, RegionsOf;
      nodes := nodes[id := nodes[id].(begin := begin, npages := npages)];
    }
  
    ghost function Bag(): (r: multiset<nat>)
      reads this
    {
      multiset(list) + multiset(free)
    }

    /** The middle case of uvm_mmap: a new node takes the upper part. */
    method Halve(curr: nat, low: nat, begin: nat, npages: nat, ghost k: nat) returns (panicked: bool)
      requires Linked() && k < |list| && curr == list[k] && OnPage(begin)
      modifies this
      ensures panicked <==> old(free) == []
      ensures !panicked ==> Linked() && Bag() == old(Bag())
      ensures !panicked ==>
                Regions() == Halved(old(Regions()), k, Region(old(Regions())[k].begin, low),
                                    Region(Page(begin), npages))
    {
      hide Chain, Pool, Disjoint, Aligned, RegionsOf, Without, With, Page, OnPage, Insert, IdAt;
      ListNode(nodes, head, list, k);
      var id;
      ghost var list0, free0 := list, free;
      panicked, id := RegionAlloc();
      if panicked {
        return;
      }
      var upper := Node(begin, npages, nodes[curr].next);
      OtherChain(nodes, head, list, id, upper);
      nodes := nodes[id := upper];
      Resize(curr, nodes[curr].begin, low, k);
      Link(curr, id, k + 1);
      WithBag(list0, k + 1, id);
      FirstBag(free0);
    }

    /** The whole of node list[k] leaves the list for the pool. */
    method Drop(prev: nat, id: nat, ghost k: nat)
      requires Linked() && k < |list| && id == list[k] && prev == if k == 0 then 0 else list[k - 1]
      modifies this
      ensures Linked() && Bag() == old(Bag()) && list == Without(old(list), k)
      ensures Regions() == old(Regions())[..k] + old(Regions())[k + 1..]
      ensures |nodes| == |old(nodes)| && forall i :: 0 <= i < |nodes| ==> nodes[i].npages == old(nodes)[i].npages
    {
      WithoutBag(list, k);
      assert NextAt(nodes, list, k) && id !in free && id !in Without(list, k);
      hide Chain, Pool, Disjoint, Aligned, RegionsOf, Without;
      Unlink(prev, id, k);
      RegionFree(id);
    }

    /** The four ways uvm_mmap takes the range out of the region that holds it. */
    method Carve(prev: nat, curr: nat, begin: nat, npages: nat, ghost k: nat) returns (panicked: bool)
      requires Linked() && Small(Regions()) && 0 < npages < MAXPAGES && OnPage(begin)
      requires k < |list| && curr == list[k] && prev == if k == 0 then 0 else list[k - 1]
      requires Regions()[k].Holds(Page(begin), npages)
      modifies this
      ensures panicked <==> old(free) == [] && old(Regions())[k].begin < Page(begin)
                            && Page(begin) + npages < old(Regions())[k].End()
      ensures !panicked ==> Linked() && Shaped(old(Regions()), k, Page(begin), npages, Regions()) && Bag() == old(Bag())
    {
      hide Canonical, Chain, Pool, Disjoint, Aligned, Small, RegionsOf, Bytes, RegionOf, Halved, Page, OnPage, Shaped;
      ghost var l := Regions();
      CarveNode(nodes, list, k, begin, npages);
      ShapedLower(l, k, Page(begin), npages);
      ShapedUpper(l, k, Page(begin), npages);
      var len, regionEnd := Bytes(npages), nodes[curr].begin + Bytes(nodes[curr].npages);
      panicked := false;
      if begin == nodes[curr].begin && len == Bytes(nodes[curr].npages) {
        Drop(prev, curr, k);
      } else if begin == nodes[curr].begin {
        Resize(curr, begin + len, nodes[curr].npages - npages, k);
      } else if begin + len == regionEnd {
        Resize(curr, nodes[curr].begin, nodes[curr].npages - npages, k);
      } else {
        panicked := Halve(curr, Page(begin - nodes[curr].begin), begin + len, Page(regionEnd - begin - len), k);
      }
    }

    /** uvm_mmap, the list part, on any list: the range leaves the first region that holds it, if one
        does. The machine stops when begin is not a page address, and when a region must be split and
        the pool is empty. */
    method Mmap(begin: nat, npages: nat) returns (panicked: bool)
      requires Linked() && Small(Regions()) && npages < MAXPAGES
      modifies this
      ensures panicked <==>
              npages > 0 && (!OnPage(begin) || (old(free) == [] && Splits(old(Regions()), Page(begin), npages)))
      ensures !panicked ==> Linked() && Small(Regions()) && Bag() == old(Bag())
      ensures !panicked ==>
                Regions() == if npages == 0 then old(Regions()) else Mapped(old(Regions()), Page(begin), npages)
      ensures !panicked && old(Valid()) ==> Valid()
    {
      hide Canonical, Chain, Pool, Disjoint, Aligned, Small, RegionsOf, Bytes, Page, OnPage, Mapped, Splits, Shaped;
      if npages == 0 {
        return false;
      }
      if !OnPage(begin) {
        return true;
      }
      ghost var l := Regions();
      MappedSmall(l, Page(begin), npages);
      if Canonical(l) {
        MappedMeans(l, Page(begin), npages);
      }
      ghost var k;
      var prev, curr;
      prev, curr, k := Find(begin, npages);
      if curr == 0 {
        NoneHolds(l, Page(begin), npages);
        return false;
      }
      MappedShaped(l, k, Page(begin), npages);
      SplitsHere(l, k, Page(begin), npages);
      panicked := Carve(prev, curr, begin, npages, k);
      if !panicked {
        ShapedUnique(l, k, Page(begin), npages, Regions(), Mapped(l, Page(begin), npages));
      }
    }

    /** uvm_mmap's search for the region that holds the range. */
    method Find(begin: nat, npages: nat) returns (prev: nat, curr: nat, ghost k: nat)
      requires Linked() && Small(Regions()) && npages < MAXPAGES && OnPage(begin)
      ensures k <= |list| && curr == IdAt(list, k) && (curr == 0 ==> k == |list|) && (curr != 0 ==> k < |list|)
      ensures prev == if k == 0 then 0 else list[k - 1]
      ensures k <= |Regions()| && forall j :: 0 <= j < k ==> !Regions()[j].Holds(Page(begin), npages)
      ensures curr != 0 ==> Regions()[k].Holds(Page(begin), npages)
    {
      hide Pool, Disjoint, Aligned, Small, RegionsOf, Bytes, Page, OnPage, Region.Holds;
      prev, curr, k := 0, head, 0;
      while curr != 0
        invariant k <= |list| && curr == IdAt(list, k) && prev == if k == 0 then 0 else list[k - 1]
        invariant forall j :: 0 <= j < k ==> !Regions()[j].Holds(Page(begin), npages)
        decreases |list| - k
      {
        AtNode(nodes, head, list, k, begin, npages);
        var regionEnd := nodes[curr].begin + Bytes(nodes[curr].npages);
        if begin >= nodes[curr].begin && begin + Bytes(npages) <= regionEnd {
          return;
        }
        prev, curr, k := curr, nodes[curr].next, k + 1;
      }
      assert k < |list| ==> NextAt(nodes, list, k);
    }
  
    /** Join node list[k] = id with its successor if they touch, as mmap_merge does. */
    method JoinAt(id: nat, ghost k: nat)
      requires Linked() && k < |list| && id == list[k] && Regions()[k].count < MAXPAGES
      modifies this
      ensures Linked() && Regions() == Joined(old(Regions()), k) && Bag() == old(Bag())
      ensures list == if Touch(old(Regions()), k) then Without(old(list), k + 1) else old(list)
    {
      hide Chain, Pool, Disjoint, Aligned, RegionsOf, Bytes, RegionOf, Page, OnPage, Without;
      ghost var l := Regions();
      TouchNode(nodes, head, list, k);
      var next := nodes[id].next;
      if next != 0 && nodes[id].begin + Bytes(nodes[id].npages) == nodes[next].begin {
        JoinedIs(l, k);
        Resize(id, nodes[id].begin, nodes[id].npages + nodes[next].npages, k);
        Drop(id, next, k + 1);
      }
    }

    /** uvm_munmap's search for the place to insert. */
    method FindPlace(begin: nat) returns (prev: nat, ghost k: nat)
      requires Linked() && OnPage(begin)
      ensures k == Place(Regions(), Page(begin)) <= |list| && prev == if k == 0 then 0 else list[k - 1]
    {
      hide Chain, Pool, Disjoint, Aligned, RegionsOf, Page, OnPage;
      ghost var l, b := Regions(), Page(begin);
      HeadIs(nodes, head, list);
      if list != [] {
        BeginAt(nodes, head, list, 0, begin);
      } else {
        EmptyRegions(nodes);
      }
      if head == 0 || begin < nodes[head].begin {
        return 0, 0;
      }
      prev, k := head, 1;
      NextIs(nodes, head, list, k - 1, begin);
      while nodes[prev].next != 0 && nodes[nodes[prev].next].begin < begin
        invariant 1 <= k <= |list| == |l| && prev == list[k - 1] && prev < |nodes|
        invariant PlaceFrom(l, 1, b) == PlaceFrom(l, k, b)
        invariant nodes[prev].next == IdAt(list, k) && nodes[prev].next < |nodes|
        invariant nodes[prev].next != 0 <==> k < |list|
        invariant k < |list| ==> (nodes[nodes[prev].next].begin < begin <==> l[k].begin < b)
        decreases |list| - k
      {
        prev, k := nodes[prev].next, k + 1;
        NextIs(nodes, head, list, k - 1, begin);
      }
    }
  
    /** uvm_munmap's search for the node before id. */
    method FindPrev(id: nat, ghost k: nat) returns (prev: nat)
      requires Linked() && k < |list| && id == list[k]
      ensures prev == (if k == 0 then 0 else list[k - 1]) && (prev != 0 <==> k > 0)
    {
      ghost var j := 0;
      var curr := head;
      prev := 0;
      while curr != id && curr != 0
        invariant j <= k && curr == list[j] && prev == if j == 0 then 0 else list[j - 1]
        decreases k - j
      {
        assert NextAt(nodes, list, j);
        prev, curr, j := curr, nodes[curr].next, j + 1;
      }
      assert NextAt(nodes, list, j) && (k > 0 ==> NextAt(nodes, list, k - 1));
    }

    /** A node for the range goes in at its place in the order. */
    method InsertNew(begin: nat, npages: nat) returns (panicked: bool, id: nat, ghost k: nat)
      requires Linked() && OnPage(begin)
      modifies this
      ensures panicked <==> old(free) == []
      ensures !panicked ==> Linked() && k == Place(old(Regions()), Page(begin)) && k < |list| && id == list[k]
      ensures !panicked ==> Regions() == Insert(old(Regions()), k, Region(Page(begin), npages)) && Bag() == old(Bag())
    {
      hide Chain, Pool, Disjoint, Aligned, RegionsOf, Page, OnPage, Place, Insert;
      ghost var list0, free0 := list, free;
      k := 0;
      panicked, id := RegionAlloc();
      if panicked {
        return;
      }
      OtherChain(nodes, head, list, id, Node(begin, npages, 0));
      nodes := nodes[id := Node(begin, npages, 0)];
      var prev;
      prev, k := FindPlace(begin);
      AfterPrev(nodes, head, list, k);
      var next := if prev == 0 then head else nodes[prev].next;
      OtherChain(nodes, head, list, id, Node(begin, npages, next));
      nodes := nodes[id := Node(begin, npages, next)];
      Link(prev, id, k);
      WithBag(list0, k, id);
      FirstBag(free0);
    }

    /** uvm_munmap, the list part, on any list and any range: the range is inserted in order and joined
        on both sides where it touches. A canonical list stays canonical exactly when the range
        was apart from it. The machine stops when begin is not a page address or the pool is empty. */
    method Munmap(begin: nat, npages: nat) returns (panicked: bool)
      requires Linked() && Small(Regions()) && npages < MAXPAGES
      modifies this
      ensures panicked <==> npages > 0 && (!OnPage(begin) || old(free) == [])
      ensures !panicked ==> Linked() && Bag() == old(Bag())
      ensures !panicked ==>
                Regions() == if npages == 0 then old(Regions()) else Released(old(Regions()), Page(begin), npages)
      ensures !panicked && old(Valid()) && npages > 0 ==>
                (Canonical(Regions()) <==> Apart(old(Regions()), Page(begin), npages))
    {
      hide Canonical, Chain, Pool, Disjoint, Aligned, Small, Apart, RegionsOf, Page, OnPage, Place, Insert, Joined,
           Without;
      if npages == 0 {
        return false;
      }
      if !OnPage(begin) {
        return true;
      }
      ghost var l, c := Regions(), Region(Page(begin), npages);
      if Canonical(l) {
        ReleaseCanonicalIff(l, Page(begin), npages);
      }
      var id;
      ghost var k;
      panicked, id, k := InsertNew(begin, npages);
      if panicked {
        return;
      }
      InsertBefore(l, k, c);
      if Touch(Regions(), k) {
        WithoutBefore(list, k);
      }
      JoinAt(id, k);
      JoinedBefore(Insert(l, k, c), k);
      var prev := FindPrev(id, k);
      if prev != 0 {
        JoinAt(prev, k - 1);
      }
    }
  }
}
