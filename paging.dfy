/** Page arithmetic and the batcher: how many pages a request asks for, and how
    a list of video ids is cut into lookup requests of at most `BatchSize` ids. */
module Paging {
  import opened Types
  import opened Text

  /** Go's `a / b` for `b > 0`: truncates toward zero. */
  function GoQuo(a: int, b: int): int
    requires b > 0
  {
    if a >= 0 then a / b else -((-a) / b)
  }

  /** Go's `a % b` for `b > 0`: takes the sign of `a`. */
  function GoRem(a: int, b: int): int
    requires b > 0
  {
    a - b * GoQuo(a, b)
  }

  /** `calculateNumPages`: the number of 50-item pages needed for `numItems` items. */
  function CalculateNumPages(numItems: int): (numPages: int)
    ensures numItems >= 0 ==> numPages >= 0 && 50 * numPages >= numItems && 50 * (numPages - 1) < numItems
    ensures numItems < 0 ==> numPages <= 0
  {
    var numPages := GoQuo(numItems, 50);
    if GoRem(numItems, 50) > 0 then numPages + 1 else numPages
  }

  /** How many times `for i := 0; i < n; i++` runs. */
  function Budget(n: int): (b: nat)
    ensures n >= 0 ==> b == n
    ensures n < 0 ==> b == 0
  {
    if n < 0 then 0 else n
  }

  /** The page count `SearchAndRetrieveTags` passes on, from its optional
      variadic argument (`[]` when the caller gave none). */
  function EffectivePages(pages: seq<int>): (numPages: int)
    ensures 1 <= numPages <= 5
    ensures (|pages| == 0 || pages[0] <= 1) ==> numPages == 1
    ensures |pages| > 0 && 1 < pages[0] < 5 ==> numPages == pages[0]
    ensures |pages| > 0 && pages[0] >= 5 ==> numPages == 5
  {
    var numPages := 1;
    if |pages| > 0 && pages[0] > numPages then
      (if pages[0] >= 5 then 5 else pages[0])
    else
      numPages
  }

  /** Only the first requested page count matters. */
  lemma EffectivePagesFirstOnly(pages: seq<int>, more: seq<int>)
    requires |pages| > 0
    ensures EffectivePages(pages + more) == EffectivePages(pages[..1])
  {
  }

  /** The inner page bound of `GetVideos`: `ceil(batchCount / 10)` in integers. */
  function PagesPerBatch(batchCount: nat): (bound: nat)
    ensures 10 * bound >= batchCount && 10 * (bound - 1) < batchCount
  {
    (batchCount + 9) / 10
  }

  /** Up to ten batches, every batch gets exactly one page request. */
  lemma PagesPerBatchSmall(batchCount: nat)
    requires 1 <= batchCount <= 10
    ensures PagesPerBatch(batchCount) == 1
  {
  }

  /** The id lists of the consecutive lookup requests: 50 ids each, the last possibly fewer. */
  function Chunks(ids: seq<string>): seq<seq<string>>
    decreases |ids|
  {
    if |ids| == 0 then []
    else
      var n := if |ids| < BatchSize then |ids| else BatchSize;
      [ids[..n]] + Chunks(ids[n..])
  }

  function Flatten(chunks: seq<seq<string>>): seq<string>
    decreases |chunks|
  {
    if |chunks| == 0 then [] else chunks[0] + Flatten(chunks[1..])
  }

  /** Each chunk joined with "," into the `id` parameter of one lookup request. */
  function JoinEach(chunks: seq<seq<string>>): seq<string>
    decreases |chunks|
  {
    if |chunks| == 0 then [] else [Join(chunks[0], ",")] + JoinEach(chunks[1..])
  }

  /** The batches `batchIteration` produces for `ids`. */
  function Batches(ids: seq<string>): seq<string> {
    JoinEach(Chunks(ids))
  }

  lemma {:induction false} JoinEachLength(chunks: seq<seq<string>>)
    ensures |JoinEach(chunks)| == |chunks|
    ensures forall k :: 0 <= k < |chunks| ==> JoinEach(chunks)[k] == Join(chunks[k], ",")
    decreases |chunks|
  {
    if |chunks| > 0 {
      JoinEachLength(chunks[1..]);
    }
  }

  /** No id is dropped, duplicated or moved: the chunks read back the input in order. */
  lemma {:induction false} ChunksFlatten(ids: seq<string>)
    ensures Flatten(Chunks(ids)) == ids
    decreases |ids|
  {
    if |ids| > 0 {
      var n := if |ids| < BatchSize then |ids| else BatchSize;
      ChunksFlatten(ids[n..]);
      assert Chunks(ids)[1..] == Chunks(ids[n..]);
      assert ids == ids[..n] + ids[n..];
    }
  }

  /** Every chunk holds between 1 and 50 ids. */
  lemma {:induction false} ChunkSizes(ids: seq<string>)
    ensures forall k :: 0 <= k < |Chunks(ids)| ==> 1 <= |Chunks(ids)[k]| <= BatchSize
    decreases |ids|
  {
    if |ids| > 0 {
      var n := if |ids| < BatchSize then |ids| else BatchSize;
      ChunkSizes(ids[n..]);
      assert Chunks(ids)[1..] == Chunks(ids[n..]);
      forall k | 1 <= k < |Chunks(ids)|
        ensures 1 <= |Chunks(ids)[k]| <= BatchSize
      {
        assert Chunks(ids)[k] == Chunks(ids[n..])[k - 1];
      }
    }
  }

  /** There are ceil(|ids| / 50) chunks, none for an empty list. */
  lemma {:induction false} ChunkCount(ids: seq<string>)
    ensures |Chunks(ids)| == CalculateNumPages(|ids|)
    ensures |ids| == 0 <==> Chunks(ids) == []
    decreases |ids|
  {
    if |ids| > 0 {
      var n := if |ids| < BatchSize then |ids| else BatchSize;
      ChunkCount(ids[n..]);
      var r, r' := CalculateNumPages(|ids|), CalculateNumPages(|ids| - n);
      if |ids| > BatchSize {
        assert 50 * (r' + 1) >= |ids| && 50 * r' < |ids|;
      }
    }
  }

  /** The first batch of a non-empty list is its first (up to) 50 ids. */
  lemma BatchesFirst(ids: seq<string>, end: nat)
    requires 0 < |ids| && end == (if |ids| < BatchSize then |ids| else BatchSize)
    ensures Batches(ids) == [Join(ids[..end], ",")] + Batches(ids[end..])
  {
    assert Chunks(ids) == [ids[..end]] + Chunks(ids[end..]);
    assert Chunks(ids)[1..] == Chunks(ids[end..]);
  }

  /** `batchIteration`: walks the list 50 ids at a time and joins each window with ",". */
  method BatchIteration(input: seq<string>) returns (results: seq<string>)
    ensures results == Batches(input)
    ensures |results| == CalculateNumPages(|input|)
  {
    results := [];
    var i := 0;
    while i < |input|
      invariant 0 <= i
      invariant i <= |input| ==> results + Batches(input[i..]) == Batches(input)
      invariant i > |input| ==> results == Batches(input)
      decreases |input| - i
    {
      var end := i + 50;
      if end > |input| {
        end := |input|;
      }
      BatchesFirst(input[i..], end - i);
      assert input[i..][..end - i] == input[i..end];
      assert input[i..][end - i..] == input[end..];
      results := results + [Join(input[i..end], ",")];
      i := i + 50;
      if end == |input| {
        assert input[end..] == [];
      }
    }
    assert input[|input|..] == [];
    JoinEachLength(Chunks(input));
    ChunkCount(input);
  }
}
