/**
 * The streaming TREE-profile batch parser (`parse_tree_profile_batches`).
 *
 * The file is modelled as its sequence of lines. Clock readings are a
 * function `clock` of the moment at which `time.perf_counter()` is called:
 * while line `i` is handled, starting a batch's timer reads `clock(2 * i)`
 * and a flush reads `clock(2 * i + 1)`, so a marker that both opens and
 * closes a batch takes two distinct readings; the final flush after the
 * last line reads `clock(2 * |lines|)`.
 *
 * The reference description works on the kind of each line (`Classify`),
 * since that is all the batching looks at.
 */
module ProfileParser {
  import opened Wrappers
  import opened Text
  import opened Vocabulary
  import opened Batches

  // ----- How a line is classified, on its stripped text -----

  /**
   * What the loop body does with a line: skip it (blank or `#` comment),
   * count a member (it starts with `<COLL> <tree:member> <`), count a quad
   * once a member has been seen (any other line ending with ` .`), or
   * ignore it.
   */
  datatype LineKind = Skipped | Marker | QuadLine | OtherLine

  function Classify(line: string): LineKind {
    var s := Strip(line);
    if s == [] || s[0] == '#' then Skipped
    else if StartsWith(s, MarkerPrefix) then Marker
    else if EndsWith(s, " .") then QuadLine
    else OtherLine
  }

  /** Only the stripped text decides: white space around a line does not change its kind. */
  lemma ClassifyPadded(pad: string, line: string, pad': string)
    requires AllSpace(pad) && AllSpace(pad')
    ensures Classify(pad + line + pad') == Classify(line)
  {
    StripPadded(pad, line, pad');
  }

  /**
   * A member marker is recognised by its prefix alone: a line is a marker
   * exactly when its stripped text starts with `<COLL> <tree:member> <`,
   * although such a line is neither blank nor a comment and also ends with ` .`.
   */
  lemma ClassifyMarker(line: string)
    ensures Classify(line) == Marker <==> StartsWith(Strip(line), MarkerPrefix)
  {
    if StartsWith(Strip(line), MarkerPrefix) {
      assert Strip(line)[0] == MarkerPrefix[0] == '<';
    }
  }

  /** A quad line is counted exactly when its stripped text ends with ` .` and it is neither a comment nor a marker. */
  lemma ClassifyQuadLine(line: string)
    ensures var s := Strip(line);
            Classify(line) == QuadLine <==> EndsWith(s, " .") && s[0] != '#' && !StartsWith(s, MarkerPrefix)
  {
  }

  /** The kinds of the lines, in order. */
  function Kinds(lines: seq<string>): (ks: seq<LineKind>)
    ensures |ks| == |lines|
  {
    if lines == [] then [] else Kinds(lines[..|lines| - 1]) + [Classify(lines[|lines| - 1])]
  }

  lemma KindsSnoc(lines: seq<string>, x: string)
    ensures Kinds(lines + [x]) == Kinds(lines) + [Classify(x)]
  {
    assert (lines + [x])[..|lines|] == lines;
  }

  /** `Kinds` classifies each line on its own. */
  lemma {:induction false} KindsAt(lines: seq<string>, i: nat)
    requires i < |lines|
    ensures Kinds(lines)[i] == Classify(lines[i])
  {
    var n := |lines| - 1;
    if i < n {
      KindsAt(lines[..n], i);
    }
  }

  // ----- The reference description of the batches -----

  /** `p` lists increasing positions below `n`. */
  ghost predicate PositionsIn(n: nat, p: seq<nat>) {
    && (forall k :: 0 <= k < |p| ==> p[k] < n)
    && (forall k, k' :: 0 <= k < k' < |p| ==> p[k] < p[k'])
  }

  /** The positions of the marker lines, in order. */
  function MarkerPositions(ks: seq<LineKind>): (p: seq<nat>)
    ensures PositionsIn(|ks|, p)
  {
    if ks == [] then []
    else
      var front := MarkerPositions(ks[..|ks| - 1]);
      front + (if ks[|ks| - 1] == Marker then [|ks| - 1] else [])
  }

  /** Every listed position is a marker line. */
  lemma {:induction false} MarkerPositionsAreMarkers(ks: seq<LineKind>, k: nat)
    requires k < |MarkerPositions(ks)|
    ensures ks[MarkerPositions(ks)[k]] == Marker
  {
    var n := |ks| - 1;
    var front := ks[..n];
    var fp := MarkerPositions(front);
    if k < |fp| {
      MarkerPositionsAreMarkers(front, k);
      assert MarkerPositions(ks)[k] == fp[k];
      assert front[fp[k]] == ks[fp[k]];
    }
  }

  /** Every marker line is listed. */
  lemma {:induction false} MarkersAreListed(ks: seq<LineKind>, i: nat)
    requires i < |ks| && ks[i] == Marker
    ensures i in MarkerPositions(ks)
  {
    var n := |ks| - 1;
    var front := ks[..n];
    if i < n {
      assert front[i] == ks[i];
      MarkersAreListed(front, i);
    } else {
      assert MarkerPositions(ks) == MarkerPositions(front) + [n];
    }
  }

  /** How many of the lines are quad lines. */
  function CountQuads(ks: seq<LineKind>): (n: nat)
    ensures n <= |ks|
  {
    if ks == [] then 0 else CountQuads(ks[..|ks| - 1]) + (if ks[|ks| - 1] == QuadLine then 1 else 0)
  }

  /**
   * The first line whose quads count toward the batch whose first member is
   * marker number `first`: the first marker itself for the first batch, and
   * otherwise the line after the marker that closed the previous batch.
   */
  function BatchStart(p: seq<nat>, first: nat): nat
    requires first <= |p| && (first == 0 ==> |p| > 0)
  {
    if first == 0 then p[0] else p[first - 1] + 1
  }

  /**
   * Full batch `k`, whose members are markers `first` to `first + b - 1`. It
   * is closed when the marker of its last member is read, so its quads are
   * the quad lines from `BatchStart` up to that marker, and its time runs
   * from the timer reading at its first marker to the flush reading at its last.
   */
  ghost function ClosedBatch(ks: seq<LineKind>, p: seq<nat>, b: int, clock: nat -> real, k: nat, first: nat): BatchStat
    requires PositionsIn(|ks|, p) && b >= 1 && first + b <= |p|
  {
    var last := first + b - 1;
    BatchStat(k, b, CountQuads(ks[BatchStart(p, first)..p[last]]), clock(2 * p[last] + 1) - clock(2 * p[first]))
  }

  /**
   * The batches closed while the first `g` markers are read: marker `g - 1`
   * closes one when it brings the open batch to `b` members.
   */
  ghost function ClosedUpTo(ks: seq<LineKind>, p: seq<nat>, b: int, clock: nat -> real, g: nat): seq<BatchStat>
    requires PositionsIn(|ks|, p) && g <= |p|
  {
    if g == 0 then []
    else
      var first := FirstOpen(g - 1, b);
      ClosedUpTo(ks, p, b, clock, g - 1) +
      (if g - first == b then [ClosedBatch(ks, p, b, clock, Full(g - 1, b), first)] else [])
  }

  /**
   * What `parse_tree_profile_batches` returns for lines of kinds `ks`: every
   * full batch, then the open batch if it has a member. The open batch's
   * quads run to the end of the stream and its time to the final reading.
   */
  ghost function BatchesOf(ks: seq<LineKind>, b: int, clock: nat -> real): seq<BatchStat> {
    var p := MarkerPositions(ks);
    var g := |p|;
    var first := FirstOpen(g, b);
    ClosedUpTo(ks, p, b, clock, g) +
    (if first < g
     then [BatchStat(Full(g, b), g - first, CountQuads(ks[BatchStart(p, first)..]), clock(2 * |ks|) - clock(2 * p[first]))]
     else [])
  }

  ghost function TreeBatches(lines: seq<string>, b: int, clock: nat -> real): seq<BatchStat> {
    BatchesOf(Kinds(lines), b, clock)
  }

  // ----- Facts the streaming proof uses -----

  lemma MarkerPositionsSnoc(ks: seq<LineKind>, x: LineKind)
    ensures MarkerPositions(ks + [x]) == MarkerPositions(ks) + (if x == Marker then [|ks|] else [])
  {
    assert (ks + [x])[..|ks|] == ks;
  }

  lemma CountQuadsSnoc(ks: seq<LineKind>, a: nat, x: LineKind)
    requires a <= |ks|
    ensures CountQuads((ks + [x])[a..]) == CountQuads(ks[a..]) + (if x == QuadLine then 1 else 0)
  {
    assert (ks + [x])[a..] == ks[a..] + [x];
    assert (ks[a..] + [x])[..|ks| - a] == ks[a..];
  }

  lemma ClosedBatchStable(ks: seq<LineKind>, ext: seq<LineKind>, p: seq<nat>, q: seq<nat>,
                          b: int, clock: nat -> real, k: nat, first: nat)
    requires PositionsIn(|ks|, p) && PositionsIn(|ks + ext|, p + q)
    requires b >= 1 && first + b <= |p|
    ensures ClosedBatch(ks + ext, p + q, b, clock, k, first) == ClosedBatch(ks, p, b, clock, k, first)
  {
    var last := first + b - 1;
    var start := BatchStart(p, first);
    assert BatchStart(p + q, first) == start;
    assert (p + q)[last] == p[last] && (p + q)[first] == p[first];
    assert (ks + ext)[start..p[last]] == ks[start..p[last]];
  }

  /** Closed batches only look at lines and markers already read. */
  lemma {:induction false} ClosedUpToStable(ks: seq<LineKind>, ext: seq<LineKind>, p: seq<nat>, q: seq<nat>,
                                            b: int, clock: nat -> real, g: nat)
    requires PositionsIn(|ks|, p) && PositionsIn(|ks + ext|, p + q) && g <= |p|
    ensures ClosedUpTo(ks + ext, p + q, b, clock, g) == ClosedUpTo(ks, p, b, clock, g)
  {
    if g > 0 {
      ClosedUpToStable(ks, ext, p, q, b, clock, g - 1);
      var first := FirstOpen(g - 1, b);
      if g - first == b {
        ClosedBatchStable(ks, ext, p, q, b, clock, Full(g - 1, b), first);
      }
    }
  }

  // ----- What the parser's variables hold after a prefix of the stream -----

  /** How many members (markers) have been read. */
  function MemberCount(ks: seq<LineKind>): nat {
    |MarkerPositions(ks)|
  }

  /** `batch_stats` so far: the batches already closed. */
  ghost function ClosedAfter(ks: seq<LineKind>, b: int, clock: nat -> real): seq<BatchStat> {
    var p := MarkerPositions(ks);
    ClosedUpTo(ks, p, b, clock, |p|)
  }

  /** `current_members`: members of the open batch. */
  function OpenMembers(ks: seq<LineKind>, b: int): nat {
    var g := MemberCount(ks);
    g - FirstOpen(g, b)
  }

  /** `current_quads`: quad lines since the open batch's start (none before the first member). */
  function OpenQuads(ks: seq<LineKind>, b: int): nat {
    var p := MarkerPositions(ks);
    var g := |p|;
    if g == 0 then 0 else CountQuads(ks[BatchStart(p, FirstOpen(g, b))..])
  }

  /** `t0_batch`: the reading at the open batch's first marker, while it has one. */
  ghost function OpenTimer(ks: seq<LineKind>, b: int, clock: nat -> real): Option<real> {
    var p := MarkerPositions(ks);
    var first := FirstOpen(|p|, b);
    if first < |p| then Some(clock(2 * p[first])) else None
  }

  /** The open batch's start reading after a marker at position `|ks|` joins it. */
  ghost function JoinTime(ks: seq<LineKind>, b: int, clock: nat -> real): real {
    var t := OpenTimer(ks, b, clock);
    if t.None? then clock(2 * |ks|) else t.value
  }

  lemma TimerSet(ks: seq<LineKind>, b: int, clock: nat -> real)
    ensures OpenTimer(ks, b, clock).None? <==> OpenMembers(ks, b) == 0
  {
  }

  /** The final `flush_batch` turns the state after the last line into the reference result. */
  lemma FinalFlush(ks: seq<LineKind>, b: int, clock: nat -> real)
    ensures BatchesOf(ks, b, clock) ==
            ClosedAfter(ks, b, clock) +
            (if OpenMembers(ks, b) == 0 then []
             else [BatchStat(Full(MemberCount(ks), b), OpenMembers(ks, b), OpenQuads(ks, b), clock(2 * |ks|) - OpenTimer(ks, b, clock).value)])
  {
  }

  /** A line that is not a marker leaves the markers, and so the closed batches and the timer, as they were. */
  lemma OtherKeeps(ks: seq<LineKind>, x: LineKind, b: int, clock: nat -> real)
    requires x != Marker
    ensures MarkerPositions(ks + [x]) == MarkerPositions(ks)
    ensures ClosedAfter(ks + [x], b, clock) == ClosedAfter(ks, b, clock)
    ensures OpenTimer(ks + [x], b, clock) == OpenTimer(ks, b, clock)
  {
    var p := MarkerPositions(ks);
    MarkerPositionsSnoc(ks, x);
    assert p + [] == p;
    ClosedUpToStable(ks, [x], p, [], b, clock, |p|);
  }

  /** A line that is not a marker adds a quad to the open batch when it is a quad line and a member has been seen. */
  lemma OtherQuads(ks: seq<LineKind>, x: LineKind, b: int)
    requires x != Marker
    ensures OpenQuads(ks + [x], b) == OpenQuads(ks, b) + if MemberCount(ks) > 0 && x == QuadLine then 1 else 0
  {
    var p := MarkerPositions(ks);
    assert MarkerPositions(ks + [x]) == p by {
      MarkerPositionsSnoc(ks, x);
      assert p + [] == p;
    }
    if |p| > 0 {
      CountQuadsSnoc(ks, BatchStart(p, FirstOpen(|p|, b)), x);
    }
  }

  /**
   * The batch a filling marker closes: its quads are those counted before
   * this marker, and its time runs from the batch's first marker (this one,
   * if it is the only member) to this one.
   */
  lemma FilledBatch(ks: seq<LineKind>, p: seq<nat>, b: int, clock: nat -> real)
    requires PositionsIn(|ks|, p) && b >= 1 && |p| - FirstOpen(|p|, b) + 1 == b
    ensures var g := |p|;
            var first := FirstOpen(g, b);
            var p' := p + [|ks|];
            && PositionsIn(|ks| + 1, p') && first + b <= |p'|
            && ClosedBatch(ks + [Marker], p', b, clock, Full(g, b), first) ==
               BatchStat(Full(g, b), b,
                         if g == 0 then 0 else CountQuads(ks[BatchStart(p, first)..]),
                         clock(2 * |ks| + 1) - if first == g then clock(2 * |ks|) else clock(2 * p[first]))
  {
    var g := |p|;
    var first := FirstOpen(g, b);
    var ks' := ks + [Marker];
    var p' := p + [|ks|];
    var a := BatchStart(p', first);
    assert a == if g == 0 then |ks| else BatchStart(p, first);
    assert first + b - 1 == g && p'[g] == |ks|;
    assert ks'[a..p'[g]] == ks[a..];
    assert first < g ==> p'[first] == p[first];
  }

  /** A marker line either closes the open batch (when it brings it to `b` members) or adds to it. */
  lemma MarkerCloses(ks: seq<LineKind>, b: int, clock: nat -> real)
    ensures MemberCount(ks + [Marker]) == MemberCount(ks) + 1
    ensures ClosedAfter(ks + [Marker], b, clock) ==
            ClosedAfter(ks, b, clock) +
            (if OpenMembers(ks, b) + 1 == b
             then [BatchStat(Full(MemberCount(ks), b), b, OpenQuads(ks, b), clock(2 * |ks| + 1) - JoinTime(ks, b, clock))]
             else [])
  {
    var p := MarkerPositions(ks);
    var g := |p|;
    var p' := p + [|ks|];
    var ks' := ks + [Marker];
    assert MarkerPositions(ks') == p' by {
      MarkerPositionsSnoc(ks, Marker);
    }
    assert ClosedUpTo(ks', p', b, clock, g) == ClosedAfter(ks, b, clock) by {
      ClosedUpToStable(ks, [Marker], p, [|ks|], b, clock, g);
    }
    if OpenMembers(ks, b) + 1 == b {
      FilledBatch(ks, p, b, clock);
    }
  }

  /** After a marker the open batch is empty if the marker closed it, and otherwise it has gained one quad-free line. */
  lemma MarkerOpenQuads(ks: seq<LineKind>, b: int)
    ensures OpenQuads(ks + [Marker], b) == if OpenMembers(ks, b) + 1 == b then 0 else OpenQuads(ks, b)
  {
    var p := MarkerPositions(ks);
    var g := |p|;
    var first := FirstOpen(g, b);
    var ks' := ks + [Marker];
    var p' := p + [|ks|];
    assert MarkerPositions(ks') == p' by {
      MarkerPositionsSnoc(ks, Marker);
    }
    FullStep(g, b);
    if OpenMembers(ks, b) + 1 == b {
      assert ks'[BatchStart(p', g + 1)..] == [];
    } else if g == 0 {
      assert ks'[|ks|..] == [Marker];
      assert [Marker][..0] == [];
    } else {
      assert BatchStart(p', first) == BatchStart(p, first);
      CountQuadsSnoc(ks, BatchStart(p, first), Marker);
    }
  }

  /** After a marker the timer is cleared if the marker closed the batch, and otherwise holds the batch's start reading. */
  lemma MarkerTimer(ks: seq<LineKind>, b: int, clock: nat -> real)
    ensures OpenMembers(ks + [Marker], b) == if OpenMembers(ks, b) + 1 == b then 0 else OpenMembers(ks, b) + 1
    ensures Full(MemberCount(ks + [Marker]), b) == Full(MemberCount(ks), b) + if OpenMembers(ks, b) + 1 == b then 1 else 0
    ensures OpenTimer(ks + [Marker], b, clock) == if OpenMembers(ks, b) + 1 == b then None else Some(JoinTime(ks, b, clock))
  {
    var p := MarkerPositions(ks);
    var g := |p|;
    var first := FirstOpen(g, b);
    var p' := p + [|ks|];
    assert MarkerPositions(ks + [Marker]) == p' by {
      MarkerPositionsSnoc(ks, Marker);
    }
    FullStep(g, b);
    assert p'[g] == |ks|;
    assert first < g ==> p'[first] == p[first];
  }

  // ----- The loop body as a step on the parser's variables -----

  /** The values of the parser's variables: `batch_stats`, `batch_index`, `current_members`, `current_quads`, `t0_batch`, `in_members`. */
  datatype Snapshot = Snapshot(stats: seq<BatchStat>, index: int, members: nat, quads: nat, t0: Option<real>, seen: bool)

  const Start := Snapshot([], 0, 0, 0, None, false)

  /**
   * One pass of the loop body on a line of kind `k`: a marker starts the
   * timer, reading `start`, if the batch is new, counts the member and
   * closes the batch when it is full, `flush_batch` then reading `flush`; a
   * quad line after the first member is counted; anything else changes
   * nothing.
   */
  function Step(s: Snapshot, k: LineKind, b: int, start: real, flush: real): Snapshot {
    match k
    case Marker =>
      var t0 := if s.t0.None? then Some(start) else s.t0;
      var m := s.members + 1;
      if m == b then Snapshot(s.stats + [BatchStat(s.index, m, s.quads, flush - t0.value)], s.index + 1, 0, 0, None, true)
      else s.(members := m, t0 := t0, seen := true)
    case QuadLine => if s.seen then s.(quads := s.quads + 1) else s
    case _ => s
  }

  /** The variables after the loop has run over lines of kinds `ks`. */
  function Run(ks: seq<LineKind>, b: int, clock: nat -> real): Snapshot {
    if ks == [] then Start
    else
      var n := |ks| - 1;
      Step(Run(ks[..n], b, clock), ks[n], b, clock(2 * n), clock(2 * n + 1))
  }

  lemma RunSnoc(ks: seq<LineKind>, x: LineKind, b: int, clock: nat -> real)
    ensures Run(ks + [x], b, clock) == Step(Run(ks, b, clock), x, b, clock(2 * |ks|), clock(2 * |ks| + 1))
  {
    assert (ks + [x])[..|ks|] == ks;
  }

  /**
   * What one pass of the loop body does to the batch records: they are only
   * ever appended, one at a time, and only by a marker that brings the open
   * batch to `b` members, which the new record numbers and counts; the timer
   * is unset exactly when the open batch is empty, before and after.
   */
  lemma StepShape(s: Snapshot, k: LineKind, b: int, start: real, flush: real)
    ensures var r := Step(s, k, b, start, flush);
            && s.stats <= r.stats && |r.stats| <= |s.stats| + 1
            && (|r.stats| == |s.stats| + 1 <==> k == Marker && s.members + 1 == b)
            && (|r.stats| == |s.stats| + 1 ==>
                  && r.stats[|s.stats|].batchIndex == s.index && r.stats[|s.stats|].membersInBatch == b
                  && r.index == s.index + 1 && r.members == 0 && r.quads == 0)
            && (k == Marker && |r.stats| == |s.stats| ==> r.members == s.members + 1 && r.index == s.index)
            && (k != Marker ==> r.members == s.members && r.index == s.index && r.t0 == s.t0)
            && ((s.t0.None? <==> s.members == 0) ==> (r.t0.None? <==> r.members == 0))
  {
  }

  /**
   * The variables after the loop, whatever the lines: the timer is unset
   * exactly when the open batch is empty, record `i` is batch number `i`
   * and has exactly `b` members, and the open batch holds fewer than `b`
   * members. With `b < 1` no marker ever closes a batch.
   */
  lemma {:induction false} RunShape(ks: seq<LineKind>, b: int, clock: nat -> real)
    ensures var r := Run(ks, b, clock);
            && (r.t0.None? <==> r.members == 0)
            && r.index == |r.stats|
            && (forall i :: 0 <= i < |r.stats| ==> r.stats[i].batchIndex == i && r.stats[i].membersInBatch == b)
            && (b >= 1 ==> r.members < b)
            && (b < 1 ==> r.stats == [])
  {
    if ks != [] {
      var n := |ks| - 1;
      RunShape(ks[..n], b, clock);
      StepShape(Run(ks[..n], b, clock), ks[n], b, clock(2 * n), clock(2 * n + 1));
    }
  }

  /** The final `flush_batch`. */
  function Flush(s: Snapshot, now: real): seq<BatchStat>
    requires s.t0.None? <==> s.members == 0
  {
    if s.members == 0 then s.stats else s.stats + [BatchStat(s.index, s.members, s.quads, now - s.t0.value)]
  }

  /** The variables hold the reference state for lines of kinds `ks`. */
  ghost predicate HoldsState(ks: seq<LineKind>, b: int, clock: nat -> real, s: Snapshot) {
    && s.stats == ClosedAfter(ks, b, clock)
    && s.index == Full(MemberCount(ks), b)
    && s.members == OpenMembers(ks, b)
    && s.quads == OpenQuads(ks, b)
    && s.t0 == OpenTimer(ks, b, clock)
    && s.seen == (MemberCount(ks) > 0)
  }

  /** A marker line takes the reference state for `ks` to the one for `ks + [Marker]`. */
  lemma MarkerUpdate(ks: seq<LineKind>, b: int, clock: nat -> real, s: Snapshot)
    requires HoldsState(ks, b, clock, s)
    ensures HoldsState(ks + [Marker], b, clock, Step(s, Marker, b, clock(2 * |ks|), clock(2 * |ks| + 1)))
  {
    if OpenMembers(ks, b) + 1 == b {
      MarkerFillUpdate(ks, b, clock, s);
    } else {
      MarkerJoinUpdate(ks, b, clock, s);
    }
  }

  /** A marker that brings the open batch to `b` members closes it. */
  lemma MarkerFillUpdate(ks: seq<LineKind>, b: int, clock: nat -> real, s: Snapshot)
    requires HoldsState(ks, b, clock, s) && OpenMembers(ks, b) + 1 == b
    ensures HoldsState(ks + [Marker], b, clock, Step(s, Marker, b, clock(2 * |ks|), clock(2 * |ks| + 1)))
  {
    var x := BatchStat(s.index, b, s.quads, clock(2 * |ks| + 1) - JoinTime(ks, b, clock));
    assert Step(s, Marker, b, clock(2 * |ks|), clock(2 * |ks| + 1)) == Snapshot(s.stats + [x], s.index + 1, 0, 0, None, true);
    MarkerCloses(ks, b, clock);
    MarkerOpenQuads(ks, b);
    MarkerTimer(ks, b, clock);
  }

  /** A marker that leaves the open batch short of `b` members joins it. */
  lemma MarkerJoinUpdate(ks: seq<LineKind>, b: int, clock: nat -> real, s: Snapshot)
    requires HoldsState(ks, b, clock, s) && OpenMembers(ks, b) + 1 != b
    ensures HoldsState(ks + [Marker], b, clock, Step(s, Marker, b, clock(2 * |ks|), clock(2 * |ks| + 1)))
  {
    assert Step(s, Marker, b, clock(2 * |ks|), clock(2 * |ks| + 1)) ==
           s.(members := s.members + 1, t0 := Some(JoinTime(ks, b, clock)), seen := true);
    MarkerCloses(ks, b, clock);
    MarkerOpenQuads(ks, b);
    MarkerTimer(ks, b, clock);
  }

  /** Any other line takes the reference state for `ks` to the one for `ks + [x]`. */
  lemma OtherUpdate(ks: seq<LineKind>, x: LineKind, b: int, clock: nat -> real, s: Snapshot)
    requires x != Marker
    requires HoldsState(ks, b, clock, s)
    ensures HoldsState(ks + [x], b, clock, Step(s, x, b, clock(2 * |ks|), clock(2 * |ks| + 1)))
  {
    OtherKeeps(ks, x, b, clock);
    OtherQuads(ks, x, b);
  }

  /** Running the loop body over the lines yields the reference state. */
  lemma {:induction false} RunHolds(ks: seq<LineKind>, b: int, clock: nat -> real)
    ensures HoldsState(ks, b, clock, Run(ks, b, clock))
  {
    if ks != [] {
      var n := |ks| - 1;
      RunHolds(ks[..n], b, clock);
      assert ks[..n] + [ks[n]] == ks;
      if ks[n] == Marker {
        MarkerUpdate(ks[..n], b, clock, Run(ks[..n], b, clock));
      } else {
        OtherUpdate(ks[..n], ks[n], b, clock, Run(ks[..n], b, clock));
      }
    }
  }

  /** The loop followed by the final flush yields the reference batches. */
  lemma RunThenFlush(ks: seq<LineKind>, b: int, clock: nat -> real)
    ensures var s := Run(ks, b, clock);
            && (s.t0.None? <==> s.members == 0)
            && Flush(s, clock(2 * |ks|)) == BatchesOf(ks, b, clock)
  {
    RunHolds(ks, b, clock);
    TimerSet(ks, b, clock);
    FinalFlush(ks, b, clock);
  }

  // ----- The parser's state, as the closure of `parse_tree_profile_batches` holds it -----

  /**
   * The local variables `parse_tree_profile_batches` and its nested
   * `flush_batch` share: the batch records so far, the batch index, the open
   * batch's member and quad counts, its start time and whether a member has
   * been seen. `kinds` is the ghost record of the kinds of the lines read so
   * far.
   */
  class ParserState {
    const batchSize: int
    ghost const clock: nat -> real
    var batchStats: seq<BatchStat>
    var batchIndex: int
    var currentMembers: nat
    var currentQuads: nat
    var t0Batch: Option<real>
    var inMembers: bool
    ghost var kinds: seq<LineKind>

    /** The batch timer is set exactly while the open batch has a member. */
    ghost predicate TimerCoherent()
      reads this
    {
      t0Batch.None? <==> currentMembers == 0
    }

    /** The parser's variables, as one value. */
    ghost function Vars(): Snapshot
      reads this
    {
      Snapshot(batchStats, batchIndex, currentMembers, currentQuads, t0Batch, inMembers)
    }

    /** After any prefix of the stream, the variables hold what the loop body computes over that prefix. */
    ghost predicate Valid()
      reads this
    {
      TimerCoherent() && Vars() == Run(kinds, batchSize, clock)
    }

    constructor (batchSize: int, ghost clock: nat -> real)
      ensures Valid() && kinds == []
      ensures this.batchSize == batchSize && this.clock == clock
    {
      this.batchSize := batchSize;
      this.clock := clock;
      batchStats := [];
      batchIndex := 0;
      currentMembers := 0;
      currentQuads := 0;
      t0Batch := None;
      inMembers := false;
      kinds := [];
    }

    /**
     * `flush_batch`: with no member in the open batch it does nothing;
     * otherwise it appends the open batch's record, timed up to `now`, and
     * opens a fresh batch with the next index.
     */
    method FlushBatch(now: real)
      requires TimerCoherent()
      modifies this
      ensures old(currentMembers) == 0 ==> unchanged(this)
      ensures old(currentMembers) != 0 ==>
                && batchStats == old(batchStats) + [BatchStat(old(batchIndex), old(currentMembers), old(currentQuads), now - old(t0Batch).value)]
                && batchIndex == old(batchIndex) + 1
                && currentMembers == 0 && currentQuads == 0 && t0Batch == None
      ensures inMembers == old(inMembers) && kinds == old(kinds)
      ensures TimerCoherent()
    {
      if currentMembers == 0 {
        return;
      }
      var dt := now - t0Batch.value;
      batchStats := batchStats + [BatchStat(batchIndex, currentMembers, currentQuads, dt)];
      batchIndex := batchIndex + 1;
      currentMembers := 0;
      currentQuads := 0;
      t0Batch := None;
    }

    /** The final `flush_batch` and the return of `batch_stats`, once every line is read. */
    method Finish(now: real) returns (stats: seq<BatchStat>)
      requires Valid() && now == clock(2 * |kinds|)
      modifies this
      ensures stats == BatchesOf(old(kinds), batchSize, clock)
    {
      RunThenFlush(kinds, batchSize, clock);
      FlushBatch(now);
      stats := batchStats;
    }

    /**
     * The marker branch of the loop body: start the timer, reading `start`,
     * if the batch is new, count the member, and flush, reading `flush`,
     * when the batch is full.
     */
    method CountMember(start: real, flush: real)
      requires TimerCoherent()
      modifies this
      ensures Vars() == Step(old(Vars()), Marker, batchSize, start, flush)
      ensures kinds == old(kinds) && TimerCoherent()
    {
      if t0Batch.None? {
        t0Batch := Some(start);
      }
      inMembers := true;
      currentMembers := currentMembers + 1;
      if currentMembers == batchSize {
        FlushBatch(flush);
      }
    }

    /**
     * One iteration of the `for line in f` loop: skip blank and comment
     * lines; on a marker start the timer if the batch is new, count the
     * member and flush when the batch is full; otherwise count a line
     * ending with ` .` once a member has been seen. `start` and `flush` are
     * what `time.perf_counter()` returns when it is called to start the
     * timer and inside `flush_batch`.
     */
    method ReadLine(line: string, start: real, flush: real)
      requires Valid() && start == clock(2 * |kinds|) && flush == clock(2 * |kinds| + 1)
      modifies this
      ensures Valid() && kinds == old(kinds) + [Classify(line)]
    {
      ghost var k := Classify(line);
      assert Run(kinds + [k], batchSize, clock) == Step(Vars(), k, batchSize, start, flush) by {
        RunSnoc(kinds, k, batchSize, clock);
      }
      kinds := kinds + [k];
      var s := Strip(line);
      if s == [] || s[0] == '#' {
        return;
      }
      if StartsWith(s, MarkerPrefix) {
        CountMember(start, flush);
        return;
      }
      if inMembers && EndsWith(s, " .") {
        currentQuads := currentQuads + 1;
      }
    }
  }

  /**
   * `parse_tree_profile_batches` on a stream of lines, reading the clock at
   * `clock(2 * i)` to start a batch's timer and at `clock(2 * i + 1)` to
   * flush while line `i` is handled, and at `clock(2 * |lines|)` for the
   * final flush: it returns exactly the reference batches.
   */
  method ParseTreeProfileBatches(lines: seq<string>, batchSize: int, clock: nat -> real) returns (stats: seq<BatchStat>)
    ensures stats == TreeBatches(lines, batchSize, clock)
  {
    var st := new ParserState(batchSize, clock);
    for i := 0 to |lines|
      invariant st.Valid() && st.kinds == Kinds(lines[..i])
    {
      assert |st.kinds| == i;
      st.ReadLine(lines[i], clock(2 * i), clock(2 * i + 1));
      assert lines[..i + 1] == lines[..i] + [lines[i]];
      KindsSnoc(lines[..i], lines[i]);
    }
    assert lines[..|lines|] == lines;
    assert |st.kinds| == |lines|;
    stats := st.Finish(clock(2 * |lines|));
  }
}
