/** `BatchStat`, the record both parsers produce, and the sums `summarize` takes over them. */
module Batches {

  /**
   * One batch: its index (-1 for the one-off load record), how many members
   * and quads it covered, and the time it took. Seconds are differences of
   * clock readings, kept exact here.
   */
  datatype BatchStat = BatchStat(batchIndex: int, membersInBatch: nat, quadsInBatch: nat, seconds: real)

  function SumMembers(s: seq<BatchStat>): nat {
    if s == [] then 0 else SumMembers(s[..|s| - 1]) + s[|s| - 1].membersInBatch
  }

  function SumQuads(s: seq<BatchStat>): nat {
    if s == [] then 0 else SumQuads(s[..|s| - 1]) + s[|s| - 1].quadsInBatch
  }

  /**
   * How many full batches `g` members make. `current_members == batch_size`
   * is never true for a batch size below 1, so then no batch ever fills.
   */
  function Full(g: nat, b: int): nat {
    if b >= 1 && g >= b then Full(g - b, b) + 1 else 0
  }

  /** Index of the first member of the batch still open after `g` members; that batch has fewer than `b` members. */
  function FirstOpen(g: nat, b: int): (r: nat)
    ensures r <= g
    ensures b >= 1 ==> g - r < b
  {
    if b >= 1 && g >= b then FirstOpen(g - b, b) + b else 0
  }

  lemma MulAtLeast(k: nat, b: nat)
    requires k >= 1
    ensures k * b >= b
  {
  }

  /** `x / b` is the `q` with `q * b <= x < q * b + b`. */
  lemma DivUnique(x: nat, b: nat, q: nat)
    requires b >= 1 && q * b <= x < q * b + b
    ensures x / b == q
  {
    var r := x / b;
    assert x == r * b + x % b && 0 <= x % b < b;
    if r > q {
      MulAtLeast(r - q, b);
    } else if r < q {
      MulAtLeast(q - r, b);
    }
  }

  /** The full batches are `g / b` of `b` members each. */
  lemma {:induction false} FullIsQuotient(g: nat, b: int)
    requires b >= 1
    ensures FirstOpen(g, b) == Full(g, b) * b
    ensures Full(g, b) == g / b
  {
    if g >= b {
      FullIsQuotient(g - b, b);
      assert Full(g, b) * b == Full(g - b, b) * b + b;
    }
    DivUnique(g, b, Full(g, b));
  }

  /** The open batch is empty exactly when `b` divides `g`. */
  lemma FullDivides(g: nat, b: int)
    requires b >= 1
    ensures g % b == 0 <==> FirstOpen(g, b) == g
  {
    FullIsQuotient(g, b);
    assert g == (g / b) * b + g % b;
  }

  /** The full batches and the open one, if it has a member, are ⌈g/b⌉ batches. */
  lemma BatchCount(g: nat, b: int)
    requires b >= 1
    ensures Full(g, b) + (if FirstOpen(g, b) < g then 1 else 0) == (g + b - 1) / b
  {
    var full := Full(g, b);
    FullIsQuotient(g, b);
    if FirstOpen(g, b) < g {
      assert (full + 1) * b == full * b + b;
      DivUnique(g + b - 1, b, full + 1);
    } else {
      DivUnique(g + b - 1, b, full);
    }
  }

  /**
   * One more member either fills the open batch (when it brings the open
   * count to `b`) or leaves the number of full batches as it was.
   */
  lemma {:induction false} FullStep(g: nat, b: int)
    ensures g + 1 - FirstOpen(g, b) == b ==> b >= 1 && Full(g + 1, b) == Full(g, b) + 1 && FirstOpen(g + 1, b) == g + 1
    ensures g + 1 - FirstOpen(g, b) != b ==> Full(g + 1, b) == Full(g, b) && FirstOpen(g + 1, b) == FirstOpen(g, b)
  {
    if b >= 1 && g >= b {
      FullStep(g - b, b);
      assert g + 1 - b >= b ==> Full(g + 1, b) == Full(g + 1 - b, b) + 1;
    }
  }

  /** Records numbered 0, 1, 2, ... in order, each of exactly `b` members. */
  ghost predicate FullRun(r: seq<BatchStat>, b: int) {
    forall k :: 0 <= k < |r| ==> r[k].batchIndex == k && r[k].membersInBatch == b
  }

  lemma FullRunSnoc(r: seq<BatchStat>, x: BatchStat, b: int)
    requires FullRun(r, b) && x.batchIndex == |r| && x.membersInBatch == b
    ensures FullRun(r + [x], b)
  {
  }

  lemma SumAppend(s: seq<BatchStat>, x: BatchStat)
    ensures SumMembers(s + [x]) == SumMembers(s) + x.membersInBatch
    ensures SumQuads(s + [x]) == SumQuads(s) + x.quadsInBatch
  {
    assert (s + [x])[..|s|] == s;
  }

  lemma {:induction false} SumConcat(s: seq<BatchStat>, t: seq<BatchStat>)
    ensures SumMembers(s + t) == SumMembers(s) + SumMembers(t)
    ensures SumQuads(s + t) == SumQuads(s) + SumQuads(t)
  {
    if t != [] {
      var n := |t| - 1;
      SumConcat(s, t[..n]);
      assert (s + t)[..|s| + n] == s + t[..n];
    } else {
      assert s + t == s;
    }
  }
}
