/**
 * Which member's quads each batch reports when the parser reads a page laid
 * out as the page writer lays it out: `pre` preamble quad lines, then for
 * each member a marker line followed by one quad line per quad of that
 * member (`counts[j]` of them for member `j`).
 *
 * As written, a batch is closed by the marker of its last member, before
 * that member's quad lines are read: each batch reports the quads of the
 * members before its own last one, starting with the last member of the
 * batch before it. Read as a list, the reported counts are those of
 * `[0] + counts`. The intended behaviour, closing a full batch when the
 * next batch's first marker arrives or at the end of the stream, makes each
 * batch report its own members' quads.
 */
module QuadAttribution {
  import opened Wrappers
  import opened Batches
  import opened Sums
  import opened ProfileParser

  function Repeat(k: LineKind, n: nat): (r: seq<LineKind>)
    ensures |r| == n
  {
    if n == 0 then [] else Repeat(k, n - 1) + [k]
  }

  lemma {:induction false} RepeatAt(k: LineKind, n: nat, i: nat)
    requires i < n
    ensures Repeat(k, n)[i] == k
  {
    if i < n - 1 {
      RepeatAt(k, n - 1, i);
    }
  }

  /** The line kinds of the member blocks: a marker, then one quad line per quad. */
  function Blocks(counts: seq<nat>): seq<LineKind> {
    if counts == [] then []
    else Blocks(counts[..|counts| - 1]) + ([Marker] + Repeat(QuadLine, counts[|counts| - 1]))
  }

  /** The line kinds of a written page: the preamble's quad lines, then the member blocks. */
  function PageKinds(pre: nat, counts: seq<nat>): seq<LineKind> {
    Repeat(QuadLine, pre) + Blocks(counts)
  }

  // ----- Running the loop body over a page -----

  /** Quad lines are counted once a member has been seen, and change nothing else. */
  lemma {:induction false} RunQuadLines(ks: seq<LineKind>, n: nat, b: int, clock: nat -> real)
    ensures var s := Run(ks, b, clock);
            Run(ks + Repeat(QuadLine, n), b, clock) == if s.seen then s.(quads := s.quads + n) else s
  {
    if n == 0 {
      assert ks + Repeat(QuadLine, 0) == ks;
    } else {
      var s := Run(ks, b, clock);
      var m := ks + Repeat(QuadLine, n - 1);
      assert Run(m, b, clock) == if s.seen then s.(quads := s.quads + (n - 1)) else s by {
        RunQuadLines(ks, n - 1, b, clock);
      }
      assert ks + Repeat(QuadLine, n) == m + [QuadLine];
      RunSnoc(m, QuadLine, b, clock);
    }
  }

  /** The page up to the end of member `j`'s block. */
  function PagePrefix(pre: nat, counts: seq<nat>, j: nat): seq<LineKind>
    requires j <= |counts|
  {
    PageKinds(pre, counts[..j])
  }

  lemma PagePrefixStep(pre: nat, counts: seq<nat>, j: nat)
    requires j < |counts|
    ensures PagePrefix(pre, counts, j + 1) == (PagePrefix(pre, counts, j) + [Marker]) + Repeat(QuadLine, counts[j])
  {
    assert counts[..j + 1][..j] == counts[..j];
  }

  /**
   * The variables after the blocks of the first `j` members, as written:
   * the batches closed so far cover the first `FirstOpen(j, b)` members and
   * each reports the shifted counts of its members, and the open batch
   * holds the quads read since the marker that closed the last batch.
   */
  ghost predicate AsWrittenAfter(counts: seq<nat>, j: nat, b: int, st: Snapshot)
    requires j <= |counts|
  {
    var s := [0] + counts;
    var f := FirstOpen(j, b);
    && SumMembers(st.stats) == f
    && st.members == j - f
    && st.index == |st.stats| == Full(j, b)
    && RecordsReport(s, st.stats)
    && st.quads == SumOf(s[f..j + 1])
    && st.seen == (j > 0)
    && SumQuads(st.stats) + st.quads == SumOf(s[..j + 1])
  }

  /** A marker that fills the open batch closes it; the member's quad lines then open the next one. */
  lemma AsWrittenClose(counts: seq<nat>, j: nat, b: int, st: Snapshot, secs: real)
    requires j < |counts| && AsWrittenAfter(counts, j, b, st) && st.members + 1 == b
    ensures AsWrittenAfter(counts, j + 1, b,
                           Snapshot(st.stats + [BatchStat(st.index, b, st.quads, secs)], st.index + 1, 0, counts[j], None, true))
  {
    var s := [0] + counts;
    var x := BatchStat(st.index, b, st.quads, secs);
    FullStep(j, b);
    assert s[j + 1] == counts[j];
    assert RecordsReport(s, st.stats + [x]) by {
      RecordsSnoc(s, st.stats, x);
    }
    assert SumMembers(st.stats + [x]) == j + 1 && SumQuads(st.stats + [x]) == SumQuads(st.stats) + st.quads by {
      SumAppend(st.stats, x);
    }
    assert SumOf(s[j + 1..j + 2]) == counts[j] by {
      SumOfStep(s, j + 1, j + 1);
    }
    assert SumOf(s[..j + 2]) == SumOf(s[..j + 1]) + counts[j] by {
      SumOfStep(s, 0, j + 1);
    }
  }

  /** A marker that does not fill the open batch joins it, followed by the member's quad lines. */
  lemma AsWrittenJoin(counts: seq<nat>, j: nat, b: int, st: Snapshot, t0: Option<real>)
    requires j < |counts| && AsWrittenAfter(counts, j, b, st) && st.members + 1 != b
    ensures AsWrittenAfter(counts, j + 1, b,
                           st.(members := st.members + 1, quads := st.quads + counts[j], t0 := t0, seen := true))
  {
    var s := [0] + counts;
    FullStep(j, b);
    assert s[j + 1] == counts[j];
    assert SumOf(s[FirstOpen(j, b)..j + 2]) == st.quads + counts[j] by {
      SumOfStep(s, FirstOpen(j, b), j + 1);
    }
    assert SumOf(s[..j + 2]) == SumOf(s[..j + 1]) + counts[j] by {
      SumOfStep(s, 0, j + 1);
    }
  }

  /** A member's marker and quad lines, as written. */
  lemma AsWrittenMember(counts: seq<nat>, j: nat, b: int, st: Snapshot, start: real, flush: real)
    requires j < |counts| && AsWrittenAfter(counts, j, b, st)
    ensures var st1 := Step(st, Marker, b, start, flush);
            AsWrittenAfter(counts, j + 1, b, st1.(quads := st1.quads + counts[j]))
  {
    if st.members + 1 == b {
      AsWrittenMemberClose(counts, j, b, st, start, flush);
    } else {
      AsWrittenMemberJoin(counts, j, b, st, start, flush);
    }
  }

  lemma AsWrittenMemberClose(counts: seq<nat>, j: nat, b: int, st: Snapshot, start: real, flush: real)
    requires j < |counts| && AsWrittenAfter(counts, j, b, st) && st.members + 1 == b
    ensures var st1 := Step(st, Marker, b, start, flush);
            AsWrittenAfter(counts, j + 1, b, st1.(quads := st1.quads + counts[j]))
  {
    var t0 := if st.t0.None? then Some(start) else st.t0;
    var secs := flush - t0.value;
    var st1 := Step(st, Marker, b, start, flush);
    assert st1.(quads := st1.quads + counts[j]) ==
           Snapshot(st.stats + [BatchStat(st.index, b, st.quads, secs)], st.index + 1, 0, counts[j], None, true);
    AsWrittenClose(counts, j, b, st, secs);
  }

  lemma AsWrittenMemberJoin(counts: seq<nat>, j: nat, b: int, st: Snapshot, start: real, flush: real)
    requires j < |counts| && AsWrittenAfter(counts, j, b, st) && st.members + 1 != b
    ensures var st1 := Step(st, Marker, b, start, flush);
            AsWrittenAfter(counts, j + 1, b, st1.(quads := st1.quads + counts[j]))
  {
    var t0 := if st.t0.None? then Some(start) else st.t0;
    var st1 := Step(st, Marker, b, start, flush);
    assert st1.(quads := st1.quads + counts[j]) ==
           st.(members := st.members + 1, quads := st.quads + counts[j], t0 := t0, seen := true);
    AsWrittenJoin(counts, j, b, st, t0);
  }

  /** Member `j`'s block, as written: the variables go from those for `j` members to those for `j + 1`. */
  lemma AsWrittenBlock(pre: nat, counts: seq<nat>, b: int, clock: nat -> real, j: nat)
    requires j < |counts|
    requires AsWrittenAfter(counts, j, b, Run(PagePrefix(pre, counts, j), b, clock))
    ensures AsWrittenAfter(counts, j + 1, b, Run(PagePrefix(pre, counts, j + 1), b, clock))
  {
    var ks := PagePrefix(pre, counts, j);
    var st := Run(ks, b, clock);
    var st1 := Step(st, Marker, b, clock(2 * |ks|), clock(2 * |ks| + 1));
    assert Run(ks + [Marker], b, clock) == st1 by {
      RunSnoc(ks, Marker, b, clock);
    }
    assert Run(PagePrefix(pre, counts, j + 1), b, clock) == st1.(quads := st1.quads + counts[j]) by {
      PagePrefixStep(pre, counts, j);
      RunQuadLines(ks + [Marker], counts[j], b, clock);
    }
    AsWrittenMember(counts, j, b, st, clock(2 * |ks|), clock(2 * |ks| + 1));
  }

  lemma {:induction false} AsWrittenRun(pre: nat, counts: seq<nat>, b: int, clock: nat -> real, j: nat)
    requires j <= |counts|
    ensures AsWrittenAfter(counts, j, b, Run(PagePrefix(pre, counts, j), b, clock))
  {
    if j == 0 {
      assert PagePrefix(pre, counts, 0) == [] + Repeat(QuadLine, pre);
      RunQuadLines([], pre, b, clock);
      assert ([0] + counts)[0..1] == [0];
    } else {
      AsWrittenRun(pre, counts, b, clock, j - 1);
      AsWrittenBlock(pre, counts, b, clock, j - 1);
    }
  }

  lemma SumOfOne(c: nat)
    ensures SumOf([c]) == c
  {
    assert [c][..0] == [];
  }

  /** When no member is left open (G a multiple of b, or no member), the flush emits nothing and the last member's quads are lost. */
  lemma AsWrittenFlushNone(counts: seq<nat>, b: int, st: Snapshot)
    requires AsWrittenAfter(counts, |counts|, b, st) && st.members == 0
    ensures var g := |counts|;
            && (g > 0 ==> b >= 1 && g % b == 0)
            && SumMembers(st.stats) == g
            && RecordsReport([0] + counts, st.stats)
            && SumQuads(st.stats) + (if g > 0 then counts[g - 1] else 0) == SumOf(counts)
  {
    var g := |counts|;
    var s := [0] + counts;
    assert s[..g + 1] == s;
    ShiftedSum(counts);
    if g > 0 {
      assert b >= 1 && g % b == 0 by {
        FullStep(g - 1, b);
        FullDivides(g, b);
      }
      assert s[g..g + 1] == [counts[g - 1]];
      SumOfOne(counts[g - 1]);
    }
  }

  /** When members are left open, the flush emits them, with the quads read since the marker that closed the batch before. */
  lemma AsWrittenFlushEmit(counts: seq<nat>, b: int, st: Snapshot, now: real)
    requires AsWrittenAfter(counts, |counts|, b, st) && st.members > 0 && st.t0.Some?
    ensures var g := |counts|;
            var f := FirstOpen(g, b);
            var x := BatchStat(st.index, st.members, st.quads, now - st.t0.value);
            && g > 0 && !(b >= 1 && g % b == 0)
            && SumMembers(st.stats) == f && f + x.membersInBatch == g
            && x.quadsInBatch == SumOf(([0] + counts)[f..])
            && SumMembers(st.stats + [x]) == g
            && SumQuads(st.stats + [x]) == SumOf(counts)
  {
    var g := |counts|;
    var s := [0] + counts;
    var f := FirstOpen(g, b);
    var x := BatchStat(st.index, st.members, st.quads, now - st.t0.value);
    assert s[..g + 1] == s && s[f..g + 1] == s[f..];
    ShiftedSum(counts);
    if b >= 1 {
      FullDivides(g, b);
    }
    SumAppend(st.stats, x);
  }

  /** The final flush after the last member, as written. */
  lemma AsWrittenFlush(counts: seq<nat>, b: int, st: Snapshot, now: real)
    requires AsWrittenAfter(counts, |counts|, b, st) && (st.t0.None? <==> st.members == 0)
    ensures var r := Flush(st, now);
            var s := [0] + counts;
            var g := |counts|;
            var emitted := g > 0 && !(b >= 1 && g % b == 0);
            && SumMembers(r) == g
            && (!emitted ==> RecordsReport(s, r))
            && (emitted ==>
                  && RecordsReport(s, r[..|r| - 1])
                  && StartOf(r, |r| - 1) + r[|r| - 1].membersInBatch == g
                  && r[|r| - 1].quadsInBatch == SumOf(s[StartOf(r, |r| - 1)..]))
            && SumQuads(r) + (if g > 0 && !emitted then counts[g - 1] else 0) == SumOf(counts)
  {
    if st.members == 0 {
      AsWrittenFlushIdle(counts, b, st, now);
    } else {
      AsWrittenFlushLast(counts, b, st, now);
    }
  }

  lemma AsWrittenFlushIdle(counts: seq<nat>, b: int, st: Snapshot, now: real)
    requires AsWrittenAfter(counts, |counts|, b, st) && st.members == 0 && st.t0.None?
    ensures var r := Flush(st, now);
            var s := [0] + counts;
            var g := |counts|;
            var emitted := g > 0 && !(b >= 1 && g % b == 0);
            && SumMembers(r) == g
            && (!emitted ==> RecordsReport(s, r))
            && (emitted ==>
                  && RecordsReport(s, r[..|r| - 1])
                  && StartOf(r, |r| - 1) + r[|r| - 1].membersInBatch == g
                  && r[|r| - 1].quadsInBatch == SumOf(s[StartOf(r, |r| - 1)..]))
            && SumQuads(r) + (if g > 0 && !emitted then counts[g - 1] else 0) == SumOf(counts)
  {
    AsWrittenFlushNone(counts, b, st);
    assert Flush(st, now) == st.stats;
  }

  lemma AsWrittenFlushLast(counts: seq<nat>, b: int, st: Snapshot, now: real)
    requires AsWrittenAfter(counts, |counts|, b, st) && st.members > 0 && st.t0.Some?
    ensures var r := Flush(st, now);
            var s := [0] + counts;
            var g := |counts|;
            var emitted := g > 0 && !(b >= 1 && g % b == 0);
            && SumMembers(r) == g
            && (!emitted ==> RecordsReport(s, r))
            && (emitted ==>
                  && RecordsReport(s, r[..|r| - 1])
                  && StartOf(r, |r| - 1) + r[|r| - 1].membersInBatch == g
                  && r[|r| - 1].quadsInBatch == SumOf(s[StartOf(r, |r| - 1)..]))
            && SumQuads(r) + (if g > 0 && !emitted then counts[g - 1] else 0) == SumOf(counts)
  {
    AsWrittenFlushEmit(counts, b, st, now);
    var x := BatchStat(st.index, st.members, st.quads, now - st.t0.value);
    var r := Flush(st, now);
    assert r == st.stats + [x];
    assert r[..|r| - 1] == st.stats;
    assert r[|r| - 1] == x;
  }

  /**
   * What the parser reports for a written page, as written: every batch
   * closed by a marker reports the quads of the members before its last
   * one, from the last member of the previous batch on (the counts of
   * `[0] + counts` over its positions); the batch the final flush emits
   * also gets its last member's quads. When the number of members is a
   * multiple of `b`, no final flush emits anything and the last member's
   * quads are reported nowhere.
   */
  lemma AsWrittenAttribution(pre: nat, counts: seq<nat>, b: int, clock: nat -> real)
    ensures var r := BatchesOf(PageKinds(pre, counts), b, clock);
            var s := [0] + counts;
            var g := |counts|;
            var emitted := g > 0 && !(b >= 1 && g % b == 0);
            && SumMembers(r) == g
            && (!emitted ==> RecordsReport(s, r))
            && (emitted ==>
                  && RecordsReport(s, r[..|r| - 1])
                  && StartOf(r, |r| - 1) + r[|r| - 1].membersInBatch == g
                  && r[|r| - 1].quadsInBatch == SumOf(s[StartOf(r, |r| - 1)..]))
            && SumQuads(r) + (if g > 0 && !emitted then counts[g - 1] else 0) == SumOf(counts)
  {
    var ks := PageKinds(pre, counts);
    assert PagePrefix(pre, counts, |counts|) == ks by {
      assert counts[..|counts|] == counts;
    }
    AsWrittenRun(pre, counts, b, clock, |counts|);
    RunThenFlush(ks, b, clock);
    AsWrittenFlush(counts, b, Run(ks, b, clock), clock(2 * |ks|));
  }

  lemma {:induction false} ShiftedSum(counts: seq<nat>)
    ensures SumOf([0] + counts) == SumOf(counts)
  {
    if counts != [] {
      var n := |counts| - 1;
      ShiftedSum(counts[..n]);
      assert ([0] + counts)[..n + 1] == [0] + counts[..n];
    }
  }

  /** The final flush for the example `[3, 5, 2]` with batches of 2. */
  lemma AsWrittenExampleFlush(st: Snapshot, now: real)
    requires AsWrittenAfter([3, 5, 2], 3, 2, st) && (st.t0.None? <==> st.members == 0)
    ensures var r := Flush(st, now);
            && |r| == 2
            && r[0].membersInBatch == 2 && r[0].quadsInBatch == 3
            && r[1].membersInBatch == 1 && r[1].quadsInBatch == 7
  {
    assert Full(3, 2) == 1 && FirstOpen(3, 2) == 2;
    var y := st.stats[0];
    assert st.stats == [y];
    assert ReportsAt([0] + [3, 5, 2], st.stats, 0);
    assert st.stats[..0] == [];
    assert SumMembers(st.stats) == y.membersInBatch;
    var s := [0] + [3, 5, 2];
    assert s == [0, 3, 5, 2];
    assert s[0..2] == [0, 3] && s[2..4] == [5, 2];
    assert SumOf([0, 3]) == 3 && SumOf([5, 2]) == 7 by {
      assert [0, 3][..1] == [0] && [5, 2][..1] == [5];
      SumOfOne(0);
      SumOfOne(5);
    }
  }

  /** The example `[3, 5, 2]` with batches of 2: batches of (2 members, 3 quads) and (1 member, 7 quads). */
  lemma AsWrittenExample(pre: nat, clock: nat -> real)
    ensures var r := BatchesOf(PageKinds(pre, [3, 5, 2]), 2, clock);
            && |r| == 2
            && r[0].membersInBatch == 2 && r[0].quadsInBatch == 3
            && r[1].membersInBatch == 1 && r[1].quadsInBatch == 7
  {
    var counts := [3, 5, 2];
    var ks := PageKinds(pre, counts);
    assert PagePrefix(pre, counts, 3) == ks by {
      assert counts[..3] == counts;
    }
    AsWrittenRun(pre, counts, 2, clock, 3);
    RunThenFlush(ks, 2, clock);
    AsWrittenExampleFlush(Run(ks, 2, clock), clock(2 * |ks|));
  }

  /** The state after the example `[3, 5]` with batches of 2: one closed batch of 2 members and 3 quads, and an empty open batch. */
  lemma AsWrittenDropState(st: Snapshot)
    requires AsWrittenAfter([3, 5], 2, 2, st)
    ensures st.members == 0 && |st.stats| == 1
    ensures st.stats[0].membersInBatch == 2 && st.stats[0].quadsInBatch == 3
  {
    assert Full(2, 2) == 1 && FirstOpen(2, 2) == 2;
    var y := st.stats[0];
    assert st.stats == [y];
    assert ReportsAt([0] + [3, 5], st.stats, 0);
    assert st.stats[..0] == [];
    assert SumMembers(st.stats) == y.membersInBatch;
    assert ([0] + [3, 5])[0..2] == [0, 3];
    assert SumOf([0, 3]) == 3 by {
      assert [0, 3][..1] == [0];
      SumOfOne(0);
    }
  }

  /**
   * The example `[3, 5]` with batches of 2: one batch of 2 members reporting
   * 3 quads; the second member's 5 quads are reported nowhere.
   */
  lemma AsWrittenDropExample(pre: nat, clock: nat -> real)
    ensures var r := BatchesOf(PageKinds(pre, [3, 5]), 2, clock);
            && |r| == 1
            && r[0].membersInBatch == 2 && r[0].quadsInBatch == 3
            && SumQuads(r) + 5 == SumOf([3, 5])
  {
    var counts := [3, 5];
    var ks := PageKinds(pre, counts);
    assert PagePrefix(pre, counts, 2) == ks by {
      assert counts[..2] == counts;
    }
    AsWrittenRun(pre, counts, 2, clock, 2);
    RunThenFlush(ks, 2, clock);
    var st := Run(ks, 2, clock);
    AsWrittenDropState(st);
    assert Flush(st, clock(2 * |ks|)) == st.stats;
    assert SumOf([3, 5]) == 8 by {
      assert [3, 5][..1] == [3];
      SumOfOne(3);
    }
    assert st.stats[..0] == [];
  }

  // ----- The intended behaviour: flush a full batch at the next marker -----

  /**
   * The loop body with the flush moved to where it was evidently meant to
   * be: a marker first closes the open batch if it already has `b`
   * members, then joins a batch of its own; a batch's quads are therefore
   * read before it is closed. As in `Step`, `start` is the reading that
   * starts a timer and `flush` the one the flush takes.
   */
  function IntendedStep(s: Snapshot, k: LineKind, b: int, start: real, flush: real): (r: Snapshot)
    requires s.t0.None? <==> s.members == 0
    ensures r.t0.None? <==> r.members == 0
  {
    match k
    case Marker =>
      var s1 :=
        if s.members > 0 && s.members == b
        then Snapshot(s.stats + [BatchStat(s.index, s.members, s.quads, flush - s.t0.value)], s.index + 1, 0, 0, None, s.seen)
        else s;
      s1.(members := s1.members + 1, t0 := if s1.t0.None? then Some(start) else s1.t0, seen := true)
    case QuadLine => if s.seen then s.(quads := s.quads + 1) else s
    case _ => s
  }

  function IntendedRun(ks: seq<LineKind>, b: int, clock: nat -> real): (r: Snapshot)
    ensures r.t0.None? <==> r.members == 0
  {
    if ks == [] then Start
    else var n := |ks| - 1; IntendedStep(IntendedRun(ks[..n], b, clock), ks[n], b, clock(2 * n), clock(2 * n + 1))
  }

  /** The batches the intended parser reports: the loop, then the final flush. */
  function IntendedBatches(ks: seq<LineKind>, b: int, clock: nat -> real): seq<BatchStat> {
    Flush(IntendedRun(ks, b, clock), clock(2 * |ks|))
  }

  lemma IntendedRunSnoc(ks: seq<LineKind>, x: LineKind, b: int, clock: nat -> real)
    ensures IntendedRun(ks + [x], b, clock) == IntendedStep(IntendedRun(ks, b, clock), x, b, clock(2 * |ks|), clock(2 * |ks| + 1))
  {
    assert (ks + [x])[..|ks|] == ks;
  }

  lemma {:induction false} IntendedQuadLines(ks: seq<LineKind>, n: nat, b: int, clock: nat -> real)
    ensures var s := IntendedRun(ks, b, clock);
            IntendedRun(ks + Repeat(QuadLine, n), b, clock) == if s.seen then s.(quads := s.quads + n) else s
  {
    if n == 0 {
      assert ks + Repeat(QuadLine, 0) == ks;
    } else {
      IntendedQuadLines(ks, n - 1, b, clock);
      assert ks + Repeat(QuadLine, n) == (ks + Repeat(QuadLine, n - 1)) + [QuadLine];
      IntendedRunSnoc(ks + Repeat(QuadLine, n - 1), QuadLine, b, clock);
    }
  }

  /** How many batches the intended parser has closed after `j` members. */
  function ClosedCount(j: nat, b: int): nat {
    if j == 0 then 0 else Full(j - 1, b)
  }

  /** Members of the batches the intended parser has closed after `j` members. */
  function ClosedMembers(j: nat, b: int): nat {
    if j == 0 then 0 else FirstOpen(j - 1, b)
  }

  /**
   * The variables after the blocks of the first `j` members, intended
   * behaviour: every closed batch reports its own members' quads, and the
   * open batch holds those of its members.
   */
  ghost predicate IntendedAfter(counts: seq<nat>, j: nat, b: int, st: Snapshot)
    requires j <= |counts|
  {
    var c := ClosedMembers(j, b);
    && c <= j
    && SumMembers(st.stats) == c
    && st.members == j - c
    && st.index == |st.stats| == ClosedCount(j, b)
    && FullRun(st.stats, b)
    && RecordsReport(counts, st.stats)
    && st.quads == SumOf(counts[c..j])
    && st.seen == (j > 0)
    && SumQuads(st.stats) + st.quads == SumOf(counts[..j])
  }

  /** A marker arriving at a full batch closes it and opens the next one with this member. */
  lemma IntendedClose(counts: seq<nat>, j: nat, b: int, st: Snapshot, secs: real, now: real)
    requires j < |counts| && IntendedAfter(counts, j, b, st) && st.members > 0 && st.members == b
    ensures IntendedAfter(counts, j + 1, b,
                          Snapshot(st.stats + [BatchStat(st.index, st.members, st.quads, secs)], st.index + 1,
                                   1, counts[j], Some(now), true))
  {
    var x := BatchStat(st.index, st.members, st.quads, secs);
    FullStep(j - 1, b);
    assert RecordsReport(counts, st.stats + [x]) by {
      RecordsSnoc(counts, st.stats, x);
    }
    assert FullRun(st.stats + [x], b) by {
      FullRunSnoc(st.stats, x, b);
    }
    assert SumMembers(st.stats + [x]) == j && SumQuads(st.stats + [x]) == SumQuads(st.stats) + st.quads by {
      SumAppend(st.stats, x);
    }
    assert SumOf(counts[..j + 1]) == SumOf(counts[..j]) + counts[j] by {
      SumOfStep(counts, 0, j);
    }
    assert SumOf(counts[j..j + 1]) == counts[j] by {
      SumOfStep(counts, j, j);
    }
  }

  /** A marker arriving at a batch that is not full joins it. */
  lemma IntendedJoin(counts: seq<nat>, j: nat, b: int, st: Snapshot, t0: Option<real>)
    requires j < |counts| && IntendedAfter(counts, j, b, st) && !(st.members > 0 && st.members == b)
    ensures IntendedAfter(counts, j + 1, b,
                          st.(members := st.members + 1, quads := st.quads + counts[j], t0 := t0, seen := true))
  {
    if j > 0 {
      FullStep(j - 1, b);
    }
    SumOfStep(counts, ClosedMembers(j, b), j);
    SumOfStep(counts, 0, j);
  }

  lemma IntendedMember(counts: seq<nat>, j: nat, b: int, st: Snapshot, start: real, flush: real)
    requires j < |counts| && IntendedAfter(counts, j, b, st)
    requires st.t0.None? <==> st.members == 0
    ensures var st1 := IntendedStep(st, Marker, b, start, flush);
            IntendedAfter(counts, j + 1, b, st1.(quads := st1.quads + counts[j]))
  {
    if st.members > 0 && st.members == b {
      IntendedClose(counts, j, b, st, flush - st.t0.value, start);
    } else {
      IntendedJoin(counts, j, b, st, if st.t0.None? then Some(start) else st.t0);
    }
  }

  /** Member `j`'s block, intended behaviour: the variables go from those for `j` members to those for `j + 1`. */
  lemma IntendedBlock(pre: nat, counts: seq<nat>, b: int, clock: nat -> real, j: nat)
    requires j < |counts|
    requires IntendedAfter(counts, j, b, IntendedRun(PagePrefix(pre, counts, j), b, clock))
    ensures IntendedAfter(counts, j + 1, b, IntendedRun(PagePrefix(pre, counts, j + 1), b, clock))
  {
    var ks := PagePrefix(pre, counts, j);
    var st := IntendedRun(ks, b, clock);
    var st1 := IntendedStep(st, Marker, b, clock(2 * |ks|), clock(2 * |ks| + 1));
    assert IntendedRun(ks + [Marker], b, clock) == st1 by {
      IntendedRunSnoc(ks, Marker, b, clock);
    }
    assert IntendedRun(PagePrefix(pre, counts, j + 1), b, clock) == st1.(quads := st1.quads + counts[j]) by {
      PagePrefixStep(pre, counts, j);
      IntendedQuadLines(ks + [Marker], counts[j], b, clock);
    }
    IntendedMember(counts, j, b, st, clock(2 * |ks|), clock(2 * |ks| + 1));
  }

  lemma {:induction false} IntendedRunHolds(pre: nat, counts: seq<nat>, b: int, clock: nat -> real, j: nat)
    requires j <= |counts|
    ensures IntendedAfter(counts, j, b, IntendedRun(PagePrefix(pre, counts, j), b, clock))
  {
    if j == 0 {
      assert PagePrefix(pre, counts, 0) == [] + Repeat(QuadLine, pre);
      IntendedQuadLines([], pre, b, clock);
    } else {
      IntendedRunHolds(pre, counts, b, clock, j - 1);
      IntendedBlock(pre, counts, b, clock, j - 1);
    }
  }

  /** The final flush after the last member, intended behaviour. */
  lemma IntendedFlush(counts: seq<nat>, b: int, st: Snapshot, now: real)
    requires IntendedAfter(counts, |counts|, b, st) && (st.t0.None? <==> st.members == 0)
    ensures var r := Flush(st, now);
            && SumMembers(r) == |counts|
            && (forall k :: 0 <= k < |r| - 1 ==> r[k].membersInBatch == b)
            && RecordsReport(counts, r)
            && SumQuads(r) == SumOf(counts)
  {
    var g := |counts|;
    assert counts[..g] == counts;
    if st.members > 0 {
      var x := BatchStat(st.index, st.members, st.quads, now - st.t0.value);
      assert Flush(st, now) == st.stats + [x];
      assert RecordsReport(counts, st.stats + [x]) by {
        RecordsSnoc(counts, st.stats, x);
      }
      assert SumMembers(st.stats + [x]) == g && SumQuads(st.stats + [x]) == SumOf(counts) by {
        SumAppend(st.stats, x);
      }
    }
  }

  /**
   * What the intended parser reports for a written page: every member
   * belongs to exactly one batch, every batch reports exactly the quads of
   * its own members, and every quad is reported.
   */
  lemma IntendedAttribution(pre: nat, counts: seq<nat>, b: int, clock: nat -> real)
    ensures var r := IntendedBatches(PageKinds(pre, counts), b, clock);
            && SumMembers(r) == |counts|
            && (forall k :: 0 <= k < |r| - 1 ==> r[k].membersInBatch == b)
            && RecordsReport(counts, r)
            && SumQuads(r) == SumOf(counts)
  {
    var g := |counts|;
    var ks := PageKinds(pre, counts);
    assert PagePrefix(pre, counts, g) == ks by {
      assert counts[..g] == counts;
    }
    IntendedRunHolds(pre, counts, b, clock, g);
    IntendedFlush(counts, b, IntendedRun(ks, b, clock), clock(2 * |ks|));
  }

  /** The intended parser on the example `[3, 5, 2]` with batches of 2: (2 members, 8 quads) and (1 member, 2 quads). */
  lemma IntendedExample(pre: nat, clock: nat -> real)
    ensures var r := IntendedBatches(PageKinds(pre, [3, 5, 2]), 2, clock);
            && |r| == 2
            && r[0].membersInBatch == 2 && r[0].quadsInBatch == 8
            && r[1].membersInBatch == 1 && r[1].quadsInBatch == 2
  {
    var counts := [3, 5, 2];
    var ks := PageKinds(pre, counts);
    assert PagePrefix(pre, counts, 3) == ks by {
      assert counts[..3] == counts;
    }
    IntendedRunHolds(pre, counts, 2, clock, 3);
    var st := IntendedRun(ks, 2, clock);
    assert Full(2, 2) == 1 && FirstOpen(2, 2) == 2;
    var y := st.stats[0];
    assert st.stats == [y];
    assert ReportsAt(counts, st.stats, 0);
    assert st.stats[..0] == [];
    assert SumMembers(st.stats) == y.membersInBatch by {
      assert st.stats[..0] == [];
    }
    assert counts[0..2] == [3, 5] && counts[2..3] == [2];
    assert SumOf([3, 5]) == 8 && SumOf([2]) == 2 by {
      assert [3, 5][..1] == [3];
      SumOfOne(3);
      SumOfOne(2);
    }
    assert IntendedBatches(ks, 2, clock) == [y, BatchStat(st.index, st.members, st.quads, clock(2 * |ks|) - st.t0.value)];
  }
}
