/**
 * The batching loop of `parse_jelly_batches`. Reading the Jelly file into a
 * dataset is left to rdflib; what remains is a walk over the graphs
 * `ds.contexts()` yields, in the order it yields them, given here as the
 * sequence of their sizes `len(g)`. Unlike the TREE-profile
 * parser, every graph's quads are added to the batch the graph belongs to.
 *
 * The clock is read at most twice per graph: reading `2 * i` when graph `i`
 * arrives (used only if it opens a batch) and reading `2 * i + 1` after it
 * was counted (used only if it fills the batch); reading `2 * n` is taken
 * after the last of `n` graphs, for the final partial batch.
 */
module JellyBatches {
  import opened Wrappers
  import opened Batches
  import opened Sums

  /** The record put first, carrying the one-off load time. */
  function LoadRecord(loadTime: real): BatchStat {
    BatchStat(-1, 0, 0, loadTime)
  }

  /**
   * The record of the batch that graph `i` fills: the graphs from the
   * first one of the open batch up to `i`, timed from the arrival of that
   * first graph to the moment graph `i` was counted.
   */
  function FullRecord(sizes: seq<nat>, b: int, clock: nat -> real, i: nat): BatchStat
    requires i < |sizes|
  {
    var f := FirstOpen(i, b);
    BatchStat(Full(i, b), i + 1 - f, SumOf(sizes[f..i + 1]), clock(2 * i + 1) - clock(2 * f))
  }

  /** The record of the partial batch left at the end: the graphs after the last full batch. */
  function LastRecord(sizes: seq<nat>, b: int, clock: nat -> real): BatchStat {
    var n := |sizes|;
    var f := FirstOpen(n, b);
    BatchStat(Full(n, b), n - f, SumOf(sizes[f..n]), clock(2 * n) - clock(2 * f))
  }

  /** The batches closed while the first `h` graphs are counted: one each time the open batch reaches `b` graphs. */
  function ClosedGraphs(sizes: seq<nat>, b: int, clock: nat -> real, h: nat): seq<BatchStat>
    requires h <= |sizes|
  {
    if h == 0 then []
    else
      ClosedGraphs(sizes, b, clock, h - 1) +
      (if h - FirstOpen(h - 1, b) == b then [FullRecord(sizes, b, clock, h - 1)] else [])
  }

  /** The batch records of all graphs: the full batches, then the partial one if it holds any graph. */
  function GraphBatches(sizes: seq<nat>, b: int, clock: nat -> real): seq<BatchStat> {
    var n := |sizes|;
    ClosedGraphs(sizes, b, clock, n) + (if FirstOpen(n, b) < n then [LastRecord(sizes, b, clock)] else [])
  }

  /** What `parse_jelly_batches` returns: the load record, then the batch records. */
  function JellyBatchesOf(sizes: seq<nat>, b: int, loadTime: real, clock: nat -> real): seq<BatchStat> {
    [LoadRecord(loadTime)] + GraphBatches(sizes, b, clock)
  }

  /** The batching loop of `parse_jelly_batches`, then the load record put in front. */
  method ParseJellyBatches(sizes: seq<nat>, batchSize: int, loadTime: real, clock: nat -> real)
    returns (stats: seq<BatchStat>)
    ensures stats == JellyBatchesOf(sizes, batchSize, loadTime, clock)
  {
    stats := [];
    var batchIndex := 0;
    var currentMembers: nat := 0;
    var currentQuads: nat := 0;
    var t0Batch: Option<real> := None;
    for i := 0 to |sizes|
      invariant stats == ClosedGraphs(sizes, batchSize, clock, i)
      invariant batchIndex == Full(i, batchSize)
      invariant currentMembers == i - FirstOpen(i, batchSize)
      invariant currentQuads == SumOf(sizes[FirstOpen(i, batchSize)..i])
      invariant t0Batch == if currentMembers == 0 then None else Some(clock(2 * FirstOpen(i, batchSize)))
    {
      GraphStep(sizes, batchSize, clock, i);
      if t0Batch.None? {
        t0Batch := Some(clock(2 * i));
      }
      var q := sizes[i];
      currentMembers := currentMembers + 1;
      currentQuads := currentQuads + q;
      if currentMembers == batchSize {
        var dt := clock(2 * i + 1) - t0Batch.value;
        var record := BatchStat(batchIndex, currentMembers, currentQuads, dt);
        assert record == FullRecord(sizes, batchSize, clock, i);
        stats := stats + [record];
        batchIndex := batchIndex + 1;
        currentMembers := 0;
        currentQuads := 0;
        t0Batch := None;
      }
    }
    if currentMembers > 0 {
      var dt := clock(2 * |sizes|) - t0Batch.value;
      var record := BatchStat(batchIndex, currentMembers, currentQuads, dt);
      assert record == LastRecord(sizes, batchSize, clock);
      stats := stats + [record];
    }
    stats := [LoadRecord(loadTime)] + stats;
  }

  /** Counting graph `i` either fills the open batch, which is then closed, or leaves it open with one more graph. */
  lemma GraphStep(sizes: seq<nat>, b: int, clock: nat -> real, i: nat)
    requires i < |sizes|
    ensures var f := FirstOpen(i, b);
            && SumOf(sizes[f..i + 1]) == SumOf(sizes[f..i]) + sizes[i]
            && (i + 1 - f == b ==>
                  && Full(i + 1, b) == Full(i, b) + 1 && FirstOpen(i + 1, b) == i + 1
                  && ClosedGraphs(sizes, b, clock, i + 1) == ClosedGraphs(sizes, b, clock, i) + [FullRecord(sizes, b, clock, i)])
            && (i + 1 - f != b ==>
                  && Full(i + 1, b) == Full(i, b) && FirstOpen(i + 1, b) == f
                  && ClosedGraphs(sizes, b, clock, i + 1) == ClosedGraphs(sizes, b, clock, i))
  {
    FullStep(i, b);
    SumOfStep(sizes, FirstOpen(i, b), i);
    var f := FirstOpen(i, b);
    if i + 1 - f != b {
      assert ClosedGraphs(sizes, b, clock, i + 1) == ClosedGraphs(sizes, b, clock, i) + [];
    }
  }

  lemma {:induction false} SumOfSplit(s: seq<nat>, a: nat, c: nat)
    requires a <= c <= |s|
    ensures SumOf(s[..c]) == SumOf(s[..a]) + SumOf(s[a..c])
  {
    if c == a {
      assert s[a..c] == [];
    } else {
      SumOfSplit(s, a, c - 1);
      SumOfStep(s, a, c - 1);
      SumOfStep(s, 0, c - 1);
      assert s[..c] == s[0..c] && s[..c - 1] == s[0..c - 1];
    }
  }

  /**
   * The batches closed after `h` graphs: `Full(h, b)` of them, numbered
   * from 0, each of `b` graphs, together covering the first
   * `FirstOpen(h, b)` graphs.
   */
  lemma {:induction false} ClosedGraphsShape(sizes: seq<nat>, b: int, clock: nat -> real, h: nat)
    requires h <= |sizes|
    ensures var r := ClosedGraphs(sizes, b, clock, h);
            && |r| == Full(h, b)
            && SumMembers(r) == FirstOpen(h, b)
            && FullRun(r, b)
  {
    if h > 0 {
      ClosedGraphsShape(sizes, b, clock, h - 1);
      GraphStep(sizes, b, clock, h - 1);
      var front := ClosedGraphs(sizes, b, clock, h - 1);
      var first := FirstOpen(h - 1, b);
      if h - first == b {
        SumAppend(front, FullRecord(sizes, b, clock, h - 1));
        FullRunSnoc(front, FullRecord(sizes, b, clock, h - 1), b);
      }
    }
  }

  /** Each batch closed after `h` graphs reports the quads of its own graphs. */
  lemma {:induction false} ClosedGraphsReport(sizes: seq<nat>, b: int, clock: nat -> real, h: nat)
    requires h <= |sizes|
    ensures RecordsReport(sizes, ClosedGraphs(sizes, b, clock, h))
  {
    if h > 0 {
      ClosedGraphsReport(sizes, b, clock, h - 1);
      var front := ClosedGraphs(sizes, b, clock, h - 1);
      var first := FirstOpen(h - 1, b);
      assert SumMembers(front) == first by {
        ClosedGraphsShape(sizes, b, clock, h - 1);
      }
      var ends := ClosedGraphs(sizes, b, clock, h);
      if h - first == b {
        var x := FullRecord(sizes, b, clock, h - 1);
        assert ends == front + [x] by {
          GraphStep(sizes, b, clock, h - 1);
        }
        RecordsSnoc(sizes, front, x);
      } else {
        assert ends == front by {
          GraphStep(sizes, b, clock, h - 1);
        }
      }
    }
  }

  /** Closing a batch of the graphs from `first` to `h` extends a quad total over the graphs before `first` to those before `h`. */
  lemma QuadsAfterClose(sizes: seq<nat>, front: seq<BatchStat>, x: BatchStat, first: nat, h: nat)
    requires first <= h <= |sizes|
    requires SumQuads(front) == SumOf(sizes[..first]) && x.quadsInBatch == SumOf(sizes[first..h])
    ensures SumQuads(front + [x]) == SumOf(sizes[..h])
  {
    SumAppend(front, x);
    SumOfSplit(sizes, first, h);
  }

  /** A graph that fills the open batch adds that batch's quads to the total of the closed batches. */
  lemma ClosedGraphsQuadsFill(sizes: seq<nat>, b: int, clock: nat -> real, h: nat)
    requires 0 < h <= |sizes| && h - FirstOpen(h - 1, b) == b
    requires SumQuads(ClosedGraphs(sizes, b, clock, h - 1)) == SumOf(sizes[..FirstOpen(h - 1, b)])
    ensures SumQuads(ClosedGraphs(sizes, b, clock, h)) == SumOf(sizes[..FirstOpen(h, b)])
  {
    var front := ClosedGraphs(sizes, b, clock, h - 1);
    var first := FirstOpen(h - 1, b);
    var x := FullRecord(sizes, b, clock, h - 1);
    assert x.quadsInBatch == SumOf(sizes[first..h]);
    assert ClosedGraphs(sizes, b, clock, h) == front + [x] && FirstOpen(h, b) == h by {
      GraphStep(sizes, b, clock, h - 1);
    }
    QuadsAfterClose(sizes, front, x, first, h);
  }

  /** A graph that leaves the batch open changes neither the closed batches nor the graphs they cover. */
  lemma ClosedGraphsQuadsKeep(sizes: seq<nat>, b: int, clock: nat -> real, h: nat)
    requires 0 < h <= |sizes| && h - FirstOpen(h - 1, b) != b
    requires SumQuads(ClosedGraphs(sizes, b, clock, h - 1)) == SumOf(sizes[..FirstOpen(h - 1, b)])
    ensures SumQuads(ClosedGraphs(sizes, b, clock, h)) == SumOf(sizes[..FirstOpen(h, b)])
  {
    assert ClosedGraphs(sizes, b, clock, h) == ClosedGraphs(sizes, b, clock, h - 1) && FirstOpen(h, b) == FirstOpen(h - 1, b) by {
      GraphStep(sizes, b, clock, h - 1);
    }
  }

  /** The batches closed after `h` graphs report the quads of the first `FirstOpen(h, b)` graphs in all. */
  lemma {:induction false} ClosedGraphsQuads(sizes: seq<nat>, b: int, clock: nat -> real, h: nat)
    requires h <= |sizes|
    ensures SumQuads(ClosedGraphs(sizes, b, clock, h)) == SumOf(sizes[..FirstOpen(h, b)])
  {
    if h > 0 {
      ClosedGraphsQuads(sizes, b, clock, h - 1);
      if h - FirstOpen(h - 1, b) == b {
        ClosedGraphsQuadsFill(sizes, b, clock, h);
      } else {
        ClosedGraphsQuadsKeep(sizes, b, clock, h);
      }
    }
  }

  /** The partial batch, if any: the graphs after the last full batch. */
  lemma GraphBatchesSplit(sizes: seq<nat>, b: int, clock: nat -> real)
    ensures var n := |sizes|;
            var f := FirstOpen(n, b);
            var closed := ClosedGraphs(sizes, b, clock, n);
            GraphBatches(sizes, b, clock) == if f < n then closed + [LastRecord(sizes, b, clock)] else closed
  {
    var n := |sizes|;
    if FirstOpen(n, b) >= n {
      assert ClosedGraphs(sizes, b, clock, n) + [] == ClosedGraphs(sizes, b, clock, n);
    }
  }

  /** The batch records are numbered from 0, none is empty, and all but the last have `b` graphs. */
  lemma GraphNumbering(sizes: seq<nat>, b: int, clock: nat -> real)
    ensures var r := GraphBatches(sizes, b, clock);
            && (forall k :: 0 <= k < |r| ==> r[k].batchIndex == k && r[k].membersInBatch >= 1)
            && (forall k :: 0 <= k < |r| - 1 ==> r[k].membersInBatch == b)
  {
    var n := |sizes|;
    ClosedGraphsShape(sizes, b, clock, n);
    GraphBatchesSplit(sizes, b, clock);
    assert b < 1 ==> Full(n, b) == 0;
  }

  /** Each batch record reports the quads of its own graphs. */
  lemma GraphRecords(sizes: seq<nat>, b: int, clock: nat -> real)
    ensures RecordsReport(sizes, GraphBatches(sizes, b, clock))
  {
    var n := |sizes|;
    var closed := ClosedGraphs(sizes, b, clock, n);
    ClosedGraphsReport(sizes, b, clock, n);
    GraphBatchesSplit(sizes, b, clock);
    if FirstOpen(n, b) < n {
      assert SumMembers(closed) == FirstOpen(n, b) by {
        ClosedGraphsShape(sizes, b, clock, n);
      }
      RecordsSnoc(sizes, closed, LastRecord(sizes, b, clock));
    }
  }

  /** Together the batch records cover every graph and every quad. */
  lemma GraphSums(sizes: seq<nat>, b: int, clock: nat -> real)
    ensures var r := GraphBatches(sizes, b, clock);
            SumMembers(r) == |sizes| && SumQuads(r) == SumOf(sizes)
  {
    var n := |sizes|;
    var f := FirstOpen(n, b);
    var closed := ClosedGraphs(sizes, b, clock, n);
    assert SumMembers(closed) == f by {
      ClosedGraphsShape(sizes, b, clock, n);
    }
    assert SumQuads(closed) == SumOf(sizes[..f]) by {
      ClosedGraphsQuads(sizes, b, clock, n);
    }
    GraphBatchesSplit(sizes, b, clock);
    assert sizes[..n] == sizes;
    if f < n {
      var x := LastRecord(sizes, b, clock);
      assert SumMembers(closed + [x]) == f + x.membersInBatch && SumQuads(closed + [x]) == SumQuads(closed) + x.quadsInBatch by {
        SumAppend(closed, x);
      }
      assert SumOf(sizes[..n]) == SumOf(sizes[..f]) + SumOf(sizes[f..n]) by {
        SumOfSplit(sizes, f, n);
      }
    }
  }

  /**
   * What `parse_jelly_batches` returns for graphs of sizes `sizes`: first the
   * load record `(-1, 0, 0, load_time)`; then batches numbered 0, 1, ...,
   * none empty, every one but the last of exactly `b` graphs, each
   * reporting exactly the quads of its own graphs; together they cover
   * every graph and every quad.
   */
  lemma JellyLaws(sizes: seq<nat>, b: int, loadTime: real, clock: nat -> real)
    ensures var r := JellyBatchesOf(sizes, b, loadTime, clock);
            var rest := r[1..];
            && r[0] == BatchStat(-1, 0, 0, loadTime)
            && (forall k :: 0 <= k < |rest| ==> rest[k].batchIndex == k && rest[k].membersInBatch >= 1)
            && (forall k :: 0 <= k < |rest| - 1 ==> rest[k].membersInBatch == b)
            && RecordsReport(sizes, rest)
            && SumMembers(rest) == |sizes|
            && SumQuads(rest) == SumOf(sizes)
  {
    assert JellyBatchesOf(sizes, b, loadTime, clock)[1..] == GraphBatches(sizes, b, clock);
    GraphNumbering(sizes, b, clock);
    GraphRecords(sizes, b, clock);
    GraphSums(sizes, b, clock);
  }

  /** With a batch size of at least 1 there are ⌈n/b⌉ batch records after the load record; below 1, one batch takes every graph. */
  lemma JellyBatchCount(sizes: seq<nat>, b: int, loadTime: real, clock: nat -> real)
    ensures var rest := JellyBatchesOf(sizes, b, loadTime, clock)[1..];
            && (b >= 1 ==> |rest| == (|sizes| + b - 1) / b)
            && (b < 1 ==> |rest| == if sizes == [] then 0 else 1)
  {
    var n := |sizes|;
    var rest := JellyBatchesOf(sizes, b, loadTime, clock)[1..];
    assert rest == GraphBatches(sizes, b, clock);
    ClosedGraphsShape(sizes, b, clock, n);
    GraphBatchesSplit(sizes, b, clock);
    if b >= 1 {
      BatchCount(n, b);
    }
  }
}
