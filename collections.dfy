/** Generic sequence helpers: collecting results in order, and flattening blocks of lines. */
module Collections {
  import opened Wrappers

  /** All values if every result succeeded, otherwise the first failure in order. */
  function Collect<T, E>(rs: seq<Result<T, E>>): (r: Result<seq<T>, E>)
    ensures r.Ok? <==> forall i :: 0 <= i < |rs| ==> rs[i].Ok?
    ensures r.Ok? ==> |r.value| == |rs| && forall i :: 0 <= i < |rs| ==> r.value[i] == rs[i].value
  {
    if rs == [] then Ok([])
    else
      match Collect(rs[..|rs| - 1])
      case Err(e) => Err(e)
      case Ok(vs) =>
        match rs[|rs| - 1]
        case Err(e) => Err(e)
        case Ok(v) => Ok(vs + [v])
  }

  /** The failure `Collect` reports is the first one in order. */
  lemma {:induction false} CollectFirstError<T, E>(rs: seq<Result<T, E>>, j: nat)
    requires j < |rs| && rs[j].Err?
    requires forall i :: 0 <= i < j ==> rs[i].Ok?
    ensures Collect(rs) == Err(rs[j].error)
  {
    if j < |rs| - 1 {
      CollectFirstError(rs[..|rs| - 1], j);
    } else {
      var front := rs[..|rs| - 1];
      assert forall i :: 0 <= i < |front| ==> front[i].Ok?;
    }
  }

  /** Collecting one more success extends the collected values by it. */
  lemma CollectSnoc<T, E>(rs: seq<Result<T, E>>, v: T)
    requires Collect(rs).Ok?
    ensures Collect(rs + [Ok(v)]) == Ok(Collect(rs).value + [v])
  {
    assert (rs + [Ok(v)])[..|rs|] == rs;
  }

  /** The blocks written one after the other. */
  function Flatten<T>(bs: seq<seq<T>>): (r: seq<T>)
    ensures |r| == TotalLength(bs)
  {
    if bs == [] then [] else Flatten(bs[..|bs| - 1]) + bs[|bs| - 1]
  }

  lemma FlattenSnoc<T>(bs: seq<seq<T>>, b: seq<T>)
    ensures Flatten(bs + [b]) == Flatten(bs) + b
  {
    assert (bs + [b])[..|bs|] == bs;
  }

  lemma ConcatAssoc<T>(a: seq<T>, b: seq<T>, c: seq<T>)
    ensures a + b + c == a + (b + c)
  {
  }

  lemma PrefixOfConcat<T>(a: seq<T>, b: seq<T>)
    ensures (a + b)[..|a|] == a
  {
  }

  lemma SliceAfterPrefix<T>(a: seq<T>, b: seq<T>, lo: nat, hi: nat)
    requires lo <= hi <= |b|
    ensures (a + b)[|a| + lo..|a| + hi] == b[lo..hi]
  {
  }

  lemma SliceIndex<T>(s: seq<T>, lo: nat, hi: nat, k: nat)
    requires lo <= hi <= |s| && k < hi - lo
    ensures s[lo..hi][k] == s[lo + k]
  {
  }

  function TotalLength<T>(bs: seq<seq<T>>): nat {
    if bs == [] then 0 else TotalLength(bs[..|bs| - 1]) + |bs[|bs| - 1]|
  }

  /** Element `t` of block `j` sits after the blocks before it. */
  lemma {:induction false} FlattenAt<T>(bs: seq<seq<T>>, j: nat, t: nat)
    requires j < |bs| && t < |bs[j]|
    ensures TotalLength(bs[..j]) + t < |Flatten(bs)|
    ensures Flatten(bs)[TotalLength(bs[..j]) + t] == bs[j][t]
  {
    var n := |bs| - 1;
    assert bs[..n] == bs[..n][..n];
    if j < n {
      FlattenAt(bs[..n], j, t);
      assert bs[..n][..j] == bs[..j];
      TotalLengthPrefix(bs[..n], j);
    } else {
      assert bs[..j] == bs[..n];
    }
  }

  /** A property of every element of every block holds of every element of the flattened sequence. */
  lemma {:induction false} FlattenAll<T>(bs: seq<seq<T>>, P: T -> bool)
    requires forall j, t :: 0 <= j < |bs| && 0 <= t < |bs[j]| ==> P(bs[j][t])
    ensures forall k :: 0 <= k < |Flatten(bs)| ==> P(Flatten(bs)[k])
  {
    if bs != [] {
      var n := |bs| - 1;
      FlattenAll(bs[..n], P);
    }
  }

  /** Block `j` occupies a contiguous slice of the flattened sequence. */
  lemma {:induction false} FlattenSlice<T>(bs: seq<seq<T>>, j: nat)
    requires j < |bs|
    ensures TotalLength(bs[..j]) + |bs[j]| <= |Flatten(bs)|
    ensures Flatten(bs)[TotalLength(bs[..j])..TotalLength(bs[..j]) + |bs[j]|] == bs[j]
  {
    var n := |bs| - 1;
    var front := Flatten(bs[..n]);
    assert Flatten(bs) == front + bs[n];
    if j < n {
      FlattenSlice(bs[..n], j);
      assert bs[..n][..j] == bs[..j];
      assert bs[..n][j] == bs[j];
      var lo := TotalLength(bs[..j]);
      assert (front + bs[n])[lo..lo + |bs[j]|] == front[lo..lo + |bs[j]|];
    } else {
      assert bs[..j] == bs[..n];
    }
  }

  /** Behind a prefix `a`, block `j` occupies the slice from `lo`, after `a` and the blocks before it, to `hi`. */
  lemma BlockAfterPrefix<T>(a: seq<T>, bs: seq<seq<T>>, j: nat, lo: nat, hi: nat)
    requires j < |bs| && lo == |a| + TotalLength(bs[..j]) && hi == lo + |bs[j]|
    ensures hi <= |a + Flatten(bs)| && (a + Flatten(bs))[lo..hi] == bs[j]
  {
    var o := TotalLength(bs[..j]);
    FlattenSlice(bs, j);
    SliceAfterPrefix(a, Flatten(bs), o, o + |bs[j]|);
  }

  lemma {:induction false} TotalLengthPrefix<T>(bs: seq<seq<T>>, j: nat)
    requires j <= |bs|
    ensures TotalLength(bs[..j]) <= TotalLength(bs)
  {
    if j < |bs| {
      var n := |bs| - 1;
      assert bs[..n][..j] == bs[..j];
      TotalLengthPrefix(bs[..n], j);
    } else {
      assert bs[..j] == bs;
    }
  }
}
