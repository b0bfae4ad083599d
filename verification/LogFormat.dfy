/** The on-disk log: one header block followed by LOGBLOCKS data blocks, and
    the meaning of a disk image to a kernel that recovers from it. */
module LogFormat {
  import opened Collections
  import opened Bytes
  import opened Blocks

  const LOGBLOCKS := MAXOPBLOCKS * 3

  /** Device size in blocks and log.start. */
  datatype Geometry = Geometry(size: nat, start: nat) {
    ghost predicate Valid() {
      start + LOGBLOCKS < size < UINT_MAX
    }

    predicate InLog(b: nat) {
      start <= b <= start + LOGBLOCKS
    }

    /** A block the file system may log: anything outside the log itself. */
    predicate Home(b: nat) {
      b < size && !InLog(b)
    }

    /** Where the tail-th logged block is kept. */
    function Slot(tail: nat): (b: nat) {
      start + tail + 1
    }
  }

  // ----- The header block -----

  function HeadCount(b: Block): (n: nat) {
    Word(b, 0)
  }

  /** The header's list of home block numbers. */
  function HeadList(b: Block): (s: seq<nat>)
    requires HeadCount(b) <= LOGBLOCKS
  {
    seq(HeadCount(b), i requires 0 <= i < HeadCount(b) => Word(b, i + 1))
  }

  /** The words 1..k of the header block overwritten by the first k entries of lh. */
  function PutEntries(b: Block, lh: seq<nat>, k: nat): (r: Block)
    requires k <= |lh| <= LOGBLOCKS
  {
    if k == 0 then b else SetWord(PutEntries(b, lh, k - 1), k, lh[k - 1])
  }

  function EncodeHead(b: Block, lh: seq<nat>): (r: Block)
    requires |lh| <= LOGBLOCKS
  {
    PutEntries(SetWord(b, 0, |lh|), lh, |lh|)
  }

  lemma {:induction false} PutEntriesWords(b: Block, lh: seq<nat>, k: nat, j: nat)
    requires k <= |lh| <= LOGBLOCKS && j <= LOGBLOCKS
    requires forall i :: 0 <= i < |lh| ==> lh[i] < UINT_MAX
    ensures Word(PutEntries(b, lh, k), j) == if 1 <= j <= k then lh[j - 1] else Word(b, j)
  {
    if k > 0 {
      PutEntriesWords(b, lh, k - 1, j);
      WordPutWord(PutEntries(b, lh, k - 1), k, lh[k - 1], j);
    }
  }

  lemma HeadListIs(h: Block, lh: seq<nat>)
    requires |lh| <= LOGBLOCKS
    requires HeadCount(h) == |lh|
    requires forall i :: 0 <= i < |lh| ==> Word(h, i + 1) == lh[i]
    ensures HeadList(h) == lh
  {
    assert forall i :: 0 <= i < |lh| ==> HeadList(h)[i] == Word(h, i + 1);
  }

  /** A header read back after write_head is the list that was written,
      whatever the header block held before. */
  lemma HeadRoundTrip(b: Block, lh: seq<nat>)
    requires |lh| <= LOGBLOCKS
    requires forall i :: 0 <= i < |lh| ==> lh[i] < UINT_MAX
    ensures HeadCount(EncodeHead(b, lh)) == |lh|
    ensures HeadList(EncodeHead(b, lh)) == lh
  {
    hide Word, PutEntries, HeadList;
    var b0 := SetWord(b, 0, |lh|);
    PutEntriesWords(b0, lh, |lh|, 0);
    WordPutWord(b, 0, |lh|, 0);
    var h := EncodeHead(b, lh);
    forall i | 0 <= i < |lh|
      ensures Word(h, i + 1) == lh[i]
    {
      PutEntriesWords(b0, lh, |lh|, i + 1);
    }
    HeadListIs(h, lh);
  }

  // ----- What a disk image means -----

  /** Contents of home block b once the first n logged blocks are installed over disk. */
  function Logged(g: Geometry, disk: seq<Block>, lh: seq<nat>, n: nat, b: nat): (r: Block)
    requires g.Valid() && |disk| == g.size
    requires n <= |lh| <= LOGBLOCKS
    requires b < g.size
  {
    if n == 0 then disk[b]
    else if lh[n - 1] == b then disk[g.Slot(n - 1)]
    else Logged(g, disk, lh, n - 1, b)
  }

  ghost predicate HeadOk(g: Geometry, disk: seq<Block>)
    requires g.Valid() && |disk| == g.size
  {
    && HeadCount(disk[g.start]) <= LOGBLOCKS
    && forall i :: 0 <= i < HeadCount(disk[g.start]) ==> g.Home(HeadList(disk[g.start])[i])
  }

  /** Contents of home block b after a complete recovery from this disk image. */
  function Recovered(g: Geometry, disk: seq<Block>, b: nat): (r: Block)
    requires g.Valid() && |disk| == g.size && HeadOk(g, disk)
    requires b < g.size
  {
    var lh := HeadList(disk[g.start]);
    Logged(g, disk, lh, |lh|, b)
  }

  lemma {:induction false} LoggedOutside(g: Geometry, disk: seq<Block>, lh: seq<nat>, n: nat, b: nat)
    requires g.Valid() && |disk| == g.size
    requires n <= |lh| <= LOGBLOCKS
    requires b < g.size && b !in lh[..n]
    ensures Logged(g, disk, lh, n, b) == disk[b]
  {
    if n > 0 {
      assert lh[n - 1] == lh[..n][n - 1];
      assert forall i :: 0 <= i < n - 1 ==> lh[..n - 1][i] == lh[..n][i];
      LoggedOutside(g, disk, lh, n - 1, b);
    }
  }

  lemma {:induction false} LoggedAt(g: Geometry, disk: seq<Block>, lh: seq<nat>, n: nat, i: nat)
    requires g.Valid() && |disk| == g.size
    requires i < n <= |lh| <= LOGBLOCKS
    requires Distinct(lh) && lh[i] < g.size
    ensures Logged(g, disk, lh, n, lh[i]) == disk[g.Slot(i)]
  {
    if i < n - 1 {
      LoggedAt(g, disk, lh, n - 1, i);
    }
  }

  /** x and y agree on every home block. */
  ghost predicate SameHome(g: Geometry, x: seq<Block>, y: seq<Block>)
  {
    |x| == |y| == g.size && forall b :: 0 <= b < g.size && g.Home(b) ==> x[b] == y[b]
  }
}
