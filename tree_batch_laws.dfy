/**
 * What the batches `parse_tree_profile_batches` returns satisfy: how many
 * there are, their indices and sizes, and which quad lines they report.
 * Every law is stated on the reference `BatchesOf`, which the parser's loop
 * is proved to compute.
 */
module TreeBatchLaws {
  import opened Batches
  import opened ProfileParser

  /** Counting quad lines distributes over concatenation. */
  lemma {:induction false} CountQuadsConcat(a: seq<LineKind>, c: seq<LineKind>)
    ensures CountQuads(a + c) == CountQuads(a) + CountQuads(c)
  {
    if c == [] {
      assert a + c == a;
    } else {
      var n := |c| - 1;
      CountQuadsConcat(a, c[..n]);
      assert (a + c)[..|a| + n] == a + c[..n];
    }
  }

  /** A line that is not a quad line splits a range into the lines before it and after it. */
  lemma SplitAtNonQuad(ks: seq<LineKind>, lo: nat, m: nat, hi: nat)
    requires lo <= m < hi <= |ks| && ks[m] != QuadLine
    ensures CountQuads(ks[lo..hi]) == CountQuads(ks[lo..m]) + CountQuads(ks[m + 1..hi])
  {
    assert ks[lo..hi] == ks[lo..m] + ([ks[m]] + ks[m + 1..hi]);
    CountQuadsConcat(ks[lo..m], [ks[m]] + ks[m + 1..hi]);
    CountQuadsConcat([ks[m]], ks[m + 1..hi]);
    assert [ks[m]][..0] == [];
  }

  /** Marker `h` either fills the open batch, which is then closed, or joins it. */
  lemma ClosedUpToStep(ks: seq<LineKind>, p: seq<nat>, b: int, clock: nat -> real, h: nat)
    requires PositionsIn(|ks|, p) && h < |p|
    ensures var first := FirstOpen(h, b);
            && (h + 1 - first == b ==>
                  && b >= 1 && Full(h + 1, b) == Full(h, b) + 1 && FirstOpen(h + 1, b) == h + 1
                  && ClosedUpTo(ks, p, b, clock, h + 1) ==
                     ClosedUpTo(ks, p, b, clock, h) + [ClosedBatch(ks, p, b, clock, Full(h, b), first)])
            && (h + 1 - first != b ==>
                  && Full(h + 1, b) == Full(h, b) && FirstOpen(h + 1, b) == first
                  && ClosedUpTo(ks, p, b, clock, h + 1) == ClosedUpTo(ks, p, b, clock, h))
  {
    FullStep(h, b);
    if h + 1 - FirstOpen(h, b) != b {
      assert ClosedUpTo(ks, p, b, clock, h + 1) == ClosedUpTo(ks, p, b, clock, h) + [];
    }
  }

  /**
   * The batches closed while the first `h` markers are read: as many as
   * `Full(h, b)`, numbered from 0, each of exactly `b` members, together
   * covering the first `FirstOpen(h, b)` members.
   */
  lemma {:induction false} ClosedShape(ks: seq<LineKind>, p: seq<nat>, b: int, clock: nat -> real, h: nat)
    requires PositionsIn(|ks|, p) && h <= |p|
    ensures var r := ClosedUpTo(ks, p, b, clock, h);
            && |r| == Full(h, b)
            && SumMembers(r) == FirstOpen(h, b)
            && FullRun(r, b)
  {
    if h > 0 {
      var front := ClosedUpTo(ks, p, b, clock, h - 1);
      assert |front| == Full(h - 1, b) && SumMembers(front) == FirstOpen(h - 1, b) && FullRun(front, b) by {
        ClosedShape(ks, p, b, clock, h - 1);
      }
      ClosedUpToStep(ks, p, b, clock, h - 1);
      var first := FirstOpen(h - 1, b);
      if h - first == b {
        var x := ClosedBatch(ks, p, b, clock, Full(h - 1, b), first);
        assert x.batchIndex == |front| && x.membersInBatch == b;
        SumAppend(front, x);
        FullRunSnoc(front, x, b);
      }
    }
  }

  /** No listed position is a quad line. */
  ghost predicate NoQuadAt(ks: seq<LineKind>, p: seq<nat>)
    requires PositionsIn(|ks|, p)
  {
    forall i :: 0 <= i < |p| ==> ks[p[i]] != QuadLine
  }

  lemma MarkersAreNoQuads(ks: seq<LineKind>)
    ensures NoQuadAt(ks, MarkerPositions(ks))
  {
    forall i | 0 <= i < |MarkerPositions(ks)|
      ensures ks[MarkerPositions(ks)[i]] != QuadLine
    {
      MarkerPositionsAreMarkers(ks, i);
    }
  }

  /** The quad lines from the first marker up to (not including) marker `f - 1`. */
  ghost function QuadsBefore(ks: seq<LineKind>, p: seq<nat>, f: nat): nat
    requires PositionsIn(|ks|, p) && f <= |p|
  {
    if f == 0 then 0 else CountQuads(ks[p[0]..p[f - 1]])
  }

  /** A batch closed by marker `h - 1` extends the quad lines counted by the batches before it. */
  lemma CloseAddsQuads(ks: seq<LineKind>, p: seq<nat>, b: int, clock: nat -> real, k: nat, first: nat)
    requires PositionsIn(|ks|, p) && NoQuadAt(ks, p) && b >= 1 && first + b <= |p|
    ensures QuadsBefore(ks, p, first) + ClosedBatch(ks, p, b, clock, k, first).quadsInBatch ==
            QuadsBefore(ks, p, first + b)
  {
    if first > 0 {
      SplitAtNonQuad(ks, p[0], p[first - 1], p[first + b - 1]);
    }
  }

  /**
   * The closed batches report exactly the quad lines from the first marker
   * up to the marker that closed the last of them: the quad lines of a batch
   * are those after the marker that closed the one before it.
   */
  lemma {:induction false} ClosedQuads(ks: seq<LineKind>, p: seq<nat>, b: int, clock: nat -> real, h: nat)
    requires PositionsIn(|ks|, p) && NoQuadAt(ks, p) && h <= |p|
    ensures SumQuads(ClosedUpTo(ks, p, b, clock, h)) == QuadsBefore(ks, p, FirstOpen(h, b))
  {
    if h > 0 {
      var front := ClosedUpTo(ks, p, b, clock, h - 1);
      var first := FirstOpen(h - 1, b);
      ClosedQuads(ks, p, b, clock, h - 1);
      if h - first == b {
        var x := ClosedBatch(ks, p, b, clock, Full(h - 1, b), first);
        ClosedUpToFill(ks, p, b, clock, h - 1);
        CloseAddsQuads(ks, p, b, clock, Full(h - 1, b), first);
        SumQuadsSnoc(front, x, QuadsBefore(ks, p, first), QuadsBefore(ks, p, first + b));
      } else {
        ClosedUpToStep(ks, p, b, clock, h - 1);
      }
    }
  }

  lemma SumQuadsSnoc(front: seq<BatchStat>, x: BatchStat, before: nat, after: nat)
    requires SumQuads(front) == before && before + x.quadsInBatch == after
    ensures SumQuads(front + [x]) == after
  {
    SumAppend(front, x);
  }

  /** Marker `h` fills the open batch and closes it. */
  lemma ClosedUpToFill(ks: seq<LineKind>, p: seq<nat>, b: int, clock: nat -> real, h: nat)
    requires PositionsIn(|ks|, p) && h < |p| && h + 1 - FirstOpen(h, b) == b
    ensures b >= 1 && FirstOpen(h + 1, b) == h + 1
    ensures ClosedUpTo(ks, p, b, clock, h + 1) ==
            ClosedUpTo(ks, p, b, clock, h) + [ClosedBatch(ks, p, b, clock, Full(h, b), FirstOpen(h, b))]
  {
    FullStep(h, b);
  }

  /**
   * The batches are numbered 0, 1, 2, ... in order, none is empty, and
   * together they cover every member: the member counts sum to the number
   * of marker lines.
   */
  lemma IndicesAndMembers(ks: seq<LineKind>, b: int, clock: nat -> real)
    ensures var r := BatchesOf(ks, b, clock);
            && SumMembers(r) == MemberCount(ks)
            && forall k :: 0 <= k < |r| ==> r[k].batchIndex == k && r[k].membersInBatch >= 1
  {
    var p := MarkerPositions(ks);
    var g := |p|;
    var closed := ClosedUpTo(ks, p, b, clock, g);
    ClosedShape(ks, p, b, clock, g);
    if b < 1 {
      assert Full(g, b) == 0;
    }
    if FirstOpen(g, b) < g {
      var last := BatchesOf(ks, b, clock)[|closed|];
      SumAppend(closed, last);
    } else {
      assert BatchesOf(ks, b, clock) == closed;
    }
  }

  /**
   * With a batch size of at least 1, every batch but the last has exactly
   * `b` members, the last at most `b`, and there are ⌈G/b⌉ batches for G
   * marker lines.
   */
  lemma BatchSizes(ks: seq<LineKind>, b: int, clock: nat -> real)
    requires b >= 1
    ensures var r := BatchesOf(ks, b, clock);
            && |r| == (MemberCount(ks) + b - 1) / b
            && (forall k :: 0 <= k < |r| - 1 ==> r[k].membersInBatch == b)
            && (|r| > 0 ==> r[|r| - 1].membersInBatch <= b)
  {
    var p := MarkerPositions(ks);
    var g := |p|;
    var closed := ClosedUpTo(ks, p, b, clock, g);
    var r := BatchesOf(ks, b, clock);
    assert |closed| == Full(g, b) && FullRun(closed, b) by {
      ClosedShape(ks, p, b, clock, g);
    }
    BatchCount(g, b);
    if FirstOpen(g, b) >= g {
      assert r == closed + [];
    }
    assert r[..|closed|] == closed;
    forall k | 0 <= k < |r| - 1
      ensures r[k].membersInBatch == b
    {
      assert r[k] == closed[k];
    }
  }

  /** When `b` divides the number of marker lines, every batch is full: `G/b` batches of `b` members. */
  lemma EvenBatches(ks: seq<LineKind>, b: int, clock: nat -> real)
    requires b >= 1 && MemberCount(ks) % b == 0
    ensures var r := BatchesOf(ks, b, clock);
            |r| == MemberCount(ks) / b && FullRun(r, b)
  {
    var p := MarkerPositions(ks);
    var g := |p|;
    ClosedShape(ks, p, b, clock, g);
    FullDivides(g, b);
    FullIsQuotient(g, b);
    assert BatchesOf(ks, b, clock) == ClosedUpTo(ks, p, b, clock, g) + [];
  }

  /** A batch size below 1 never fills a batch, so all the members end up in one final batch. */
  lemma NoFullBatches(ks: seq<LineKind>, b: int, clock: nat -> real)
    requires b < 1
    ensures var r := BatchesOf(ks, b, clock);
            && |r| == (if MemberCount(ks) == 0 then 0 else 1)
            && (|r| == 1 ==> r[0].batchIndex == 0 && r[0].membersInBatch == MemberCount(ks))
  {
    ClosedShape(ks, MarkerPositions(ks), b, clock, MemberCount(ks));
  }

  /** A stream with no marker line yields no batch, and one with a marker line yields at least one. */
  lemma EmptyIffNoMarkers(ks: seq<LineKind>, b: int, clock: nat -> real)
    ensures BatchesOf(ks, b, clock) == [] <==> MemberCount(ks) == 0
  {
    IndicesAndMembers(ks, b, clock);
  }

  /** The open batch's quad lines complete those of the closed batches to all quad lines from the first marker on. */
  lemma OpenAddsQuads(ks: seq<LineKind>, p: seq<nat>, f: nat)
    requires PositionsIn(|ks|, p) && NoQuadAt(ks, p) && f < |p|
    ensures QuadsBefore(ks, p, f) + CountQuads(ks[BatchStart(p, f)..]) == CountQuads(ks[p[0]..])
  {
    if f > 0 {
      SplitAtNonQuad(ks, p[0], p[f - 1], |ks|);
      assert ks[p[0]..|ks|] == ks[p[0]..];
      assert ks[p[f - 1] + 1..|ks|] == ks[p[f - 1] + 1..];
    }
  }

  /** When every member is in a closed batch, only the quad lines after the last marker are missing. */
  lemma AfterLastMarker(ks: seq<LineKind>, p: seq<nat>)
    requires PositionsIn(|ks|, p) && |p| > 0
    ensures QuadsBefore(ks, p, |p|) + CountQuads(ks[p[|p| - 1]..]) == CountQuads(ks[p[0]..])
  {
    var m := p[|p| - 1];
    assert ks[p[0]..] == ks[p[0]..m] + ks[m..];
    CountQuadsConcat(ks[p[0]..m], ks[m..]);
  }

  /**
   * The quad lines the batches report: every quad line after the first
   * marker, except that when the last batch was closed by the last marker
   * (G a multiple of b) the quad lines after that marker are dropped.
   * Quad lines before the first marker (the page's preamble) never count.
   */
  lemma ReportedQuads(ks: seq<LineKind>, b: int, clock: nat -> real)
    ensures var p := MarkerPositions(ks);
            var g := |p|;
            var r := BatchesOf(ks, b, clock);
            && (g == 0 ==> SumQuads(r) == 0)
            && (g > 0 ==>
                  SumQuads(r) + (if b >= 1 && g % b == 0 then CountQuads(ks[p[g - 1]..]) else 0)
                  == CountQuads(ks[p[0]..]))
  {
    var p := MarkerPositions(ks);
    var g := |p|;
    var f := FirstOpen(g, b);
    var closed := ClosedUpTo(ks, p, b, clock, g);
    MarkersAreNoQuads(ks);
    ClosedQuads(ks, p, b, clock, g);
    assert g > 0 ==> ((b >= 1 && g % b == 0) <==> f == g) by {
      if b >= 1 {
        FullDivides(g, b);
      }
    }
    if f < g {
      var last := BatchesOf(ks, b, clock)[|closed|];
      SumAppend(closed, last);
      OpenAddsQuads(ks, p, f);
    } else {
      assert BatchesOf(ks, b, clock) == closed;
      if g > 0 {
        AfterLastMarker(ks, p);
      }
    }
  }
}
