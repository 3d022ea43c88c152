/** Sums of sizes, and batch records that each report the sum over their own members' sizes. */
module Sums {
  import opened Batches

  function SumOf(s: seq<nat>): nat {
    if s == [] then 0 else SumOf(s[..|s| - 1]) + s[|s| - 1]
  }

  lemma SumOfStep(s: seq<nat>, a: nat, c: nat)
    requires a <= c < |s|
    ensures SumOf(s[a..c + 1]) == SumOf(s[a..c]) + s[c]
  {
    assert s[a..c + 1][..c - a] == s[a..c];
  }

  /** Where batch `k` of `r` starts: the number of members in the batches before it. */
  function StartOf(r: seq<BatchStat>, k: nat): nat
    requires k <= |r|
  {
    SumMembers(r[..k])
  }

  /** Record `k` of `r` reports the sum of `s` over its own members' positions. */
  ghost predicate ReportsAt(s: seq<nat>, r: seq<BatchStat>, k: nat)
    requires k < |r|
  {
    var a := StartOf(r, k);
    a + r[k].membersInBatch <= |s| && r[k].quadsInBatch == SumOf(s[a..a + r[k].membersInBatch])
  }

  /** Every record reports the sum of `s` over its own members' positions. */
  ghost predicate RecordsReport(s: seq<nat>, r: seq<BatchStat>) {
    forall k :: 0 <= k < |r| ==> ReportsAt(s, r, k)
  }

  lemma RecordsSnoc(s: seq<nat>, r: seq<BatchStat>, x: BatchStat)
    requires RecordsReport(s, r)
    requires SumMembers(r) + x.membersInBatch <= |s|
    requires x.quadsInBatch == SumOf(s[SumMembers(r)..SumMembers(r) + x.membersInBatch])
    ensures RecordsReport(s, r + [x])
  {
    var r' := r + [x];
    forall k | 0 <= k < |r'|
      ensures ReportsAt(s, r', k)
    {
      if k < |r| {
        assert r'[..k] == r[..k];
        assert ReportsAt(s, r, k);
      } else {
        assert r'[..k] == r;
      }
    }
  }
}
