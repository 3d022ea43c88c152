/**
 * The figures `summarize` reports for a list of batch records: the load
 * time, when the list starts with the `-1` load record, then totals over
 * the records after it, the throughputs when the summed time is positive,
 * and the first three batch records as a sample. Printing and the
 * four-decimal formatting are not modelled; the figures are.
 */
module Summary {
  import opened Wrappers
  import opened Batches
  import opened Sums
  import opened ProfileParser
  import opened TreeBatchLaws
  import opened QuadAttribution
  import opened ProfileWriter
  import opened PageReading
  import opened JellyBatches
  import opened LineStream
  import opened Vocabulary

  datatype Totals = Totals(members: nat, quads: nat, seconds: real)

  /** Members and quads per second, present only when the summed time is positive. */
  datatype Throughput = Throughput(membersPerSecond: real, quadsPerSecond: real)

  datatype Report = Report(
    loadTime: Option<real>,
    totals: Option<Totals>,
    throughput: Option<Throughput>,
    sample: seq<BatchStat>)

  function SumSeconds(s: seq<BatchStat>): real {
    if s == [] then 0.0 else SumSeconds(s[..|s| - 1]) + s[|s| - 1].seconds
  }

  /** 1 when the first record is the load record, which is then left out of the totals. */
  function Skip(stats: seq<BatchStat>): (k: nat)
    ensures k <= |stats|
    ensures k == 1 <==> |stats| > 0 && stats[0].batchIndex == -1
  {
    if |stats| > 0 && stats[0].batchIndex == -1 then 1 else 0
  }

  function Min(a: nat, b: nat): nat {
    if a <= b then a else b
  }

  /** `summarize`: every figure it prints. */
  function Summarize(stats: seq<BatchStat>): (r: Report)
    ensures r.loadTime.Some? <==> |stats| > 0 && stats[0].batchIndex == -1
    ensures r.loadTime.Some? ==> r.loadTime.value == stats[0].seconds
    ensures r.totals.Some? <==> |stats| > Skip(stats)
    ensures r.totals.Some? ==>
              var rest := stats[Skip(stats)..];
              r.totals.value == Totals(SumMembers(rest), SumQuads(rest), SumSeconds(rest))
    ensures r.throughput.Some? <==> r.totals.Some? && r.totals.value.seconds > 0.0
    ensures r.throughput.Some? ==>
              && r.throughput.value.membersPerSecond == r.totals.value.members as real / r.totals.value.seconds
              && r.throughput.value.quadsPerSecond == r.totals.value.quads as real / r.totals.value.seconds
    ensures |r.sample| == Min(3, |stats| - Skip(stats))
    ensures forall k :: 0 <= k < |r.sample| ==> r.sample[k] == stats[Skip(stats) + k]
  {
    var offset := Skip(stats);
    var rest := stats[offset..];
    var totals :=
      if |stats| > offset then Some(Totals(SumMembers(rest), SumQuads(rest), SumSeconds(rest))) else None;
    Report(
      if offset == 1 then Some(stats[0].seconds) else None,
      totals,
      if totals.Some? && totals.value.seconds > 0.0
      then Some(Throughput(totals.value.members as real / totals.value.seconds,
                           totals.value.quads as real / totals.value.seconds))
      else None,
      stats[offset..offset + Min(3, |stats| - offset)])
  }

  /**
   * The Jelly report: the load time is shown on its own, and the totals
   * count every graph and every quad, or are absent when there was no graph.
   * The time total, and so the throughput, leaves the load time out.
   */
  lemma JellySummary(sizes: seq<nat>, b: int, loadTime: real, clock: nat -> real)
    ensures var r := Summarize(JellyBatchesOf(sizes, b, loadTime, clock));
            && r.loadTime == Some(loadTime)
            && (r.totals.Some? <==> |sizes| > 0)
            && (r.totals.Some? ==> r.totals.value.members == |sizes| && r.totals.value.quads == SumOf(sizes))
            && (r.totals.Some? ==> r.totals.value.seconds == SumSeconds(GraphBatches(sizes, b, clock)))
  {
    var stats := JellyBatchesOf(sizes, b, loadTime, clock);
    JellyLaws(sizes, b, loadTime, clock);
    assert stats[1..] == GraphBatches(sizes, b, clock);
  }

  /** A TREE-profile batch list has no load record: nothing is skipped, and the totals are there exactly when a member was read. */
  lemma TreeSummary(ks: seq<LineKind>, b: int, clock: nat -> real)
    ensures var r := Summarize(BatchesOf(ks, b, clock));
            && r.loadTime.None?
            && (r.totals.Some? <==> MemberCount(ks) > 0)
            && (r.totals.Some? ==> r.totals.value.members == MemberCount(ks))
  {
    var stats := BatchesOf(ks, b, clock);
    IndicesAndMembers(ks, b, clock);
    EmptyIffNoMarkers(ks, b, clock);
    assert stats[0..] == stats;
  }

  /**
   * The TREE-profile report for a written page: every member is counted,
   * but the quad total misses the last member's quads when the number of
   * members is a multiple of the batch size.
   */
  lemma PageSummary(ms: seq<Member>, b: int, clock: nat -> real)
    requires ProfilePage(ms).Ok? && MemberSubjects(ms) && NoLineBreaks(ms)
    ensures var r := Summarize(TreeBatches(ReadLines(WrittenText(ProfilePage(ms).value)), b, clock));
            var g := |ms|;
            var dropped := if g > 0 && b >= 1 && g % b == 0 then |ms[g - 1].1| else 0;
            && r.loadTime.None?
            && (r.totals.Some? <==> g > 0)
            && (r.totals.Some? ==> r.totals.value.members == g && r.totals.value.quads + dropped == SumOf(QuadCounts(ms)))
  {
    var ks := Kinds(ProfilePage(ms).value);
    PageLinesNoBreak(ms);
    ReadBack(ProfilePage(ms).value, b, clock);
    PageKindsOfPage(ms);
    PageRoundTrip(ms, b, clock);
    TreeSummary(ks, b, clock);
    IndicesAndMembers(ks, b, clock);
    assert BatchesOf(ks, b, clock)[0..] == BatchesOf(ks, b, clock);
  }

  /**
   * The benchmark's own run: `NUM_MEMBERS` generated members, each with
   * between `TRIPLES_PER_MEMBER_MIN` and `TRIPLES_PER_MEMBER_MAX` quads,
   * read back in batches of `BATCH_SIZE`. Since 10 000 is a multiple of 100
   * there are 100 full batches, every member is counted, and the quad total
   * falls short by the last member's quads.
   */
  lemma BenchmarkRun(ms: seq<Member>, clock: nat -> real)
    requires ProfilePage(ms).Ok? && MemberSubjects(ms) && NoLineBreaks(ms)
    requires |ms| == NUM_MEMBERS
    requires TRIPLES_PER_MEMBER_MIN <= |ms[NUM_MEMBERS - 1].1| <= TRIPLES_PER_MEMBER_MAX
    ensures var stats := TreeBatches(ReadLines(WrittenText(ProfilePage(ms).value)), BATCH_SIZE, clock);
            var r := Summarize(stats);
            && |stats| == NUM_MEMBERS / BATCH_SIZE
            && (forall k :: 0 <= k < |stats| ==> stats[k].membersInBatch == BATCH_SIZE)
            && r.totals.Some? && r.totals.value.members == NUM_MEMBERS
            && TRIPLES_PER_MEMBER_MIN <= SumOf(QuadCounts(ms)) - r.totals.value.quads <= TRIPLES_PER_MEMBER_MAX
  {
    var ls := ProfilePage(ms).value;
    var ks := Kinds(ls);
    var stats := BatchesOf(ks, BATCH_SIZE, clock);
    PageLinesNoBreak(ms);
    ReadBack(ls, BATCH_SIZE, clock);
    PageSummary(ms, BATCH_SIZE, clock);
    assert MemberCount(ks) == NUM_MEMBERS by {
      PageRoundTrip(ms, BATCH_SIZE, clock);
      IndicesAndMembers(ks, BATCH_SIZE, clock);
    }
    EvenBatches(ks, BATCH_SIZE, clock);
  }
}
