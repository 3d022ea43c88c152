/**
 * The TREE-profile page writer (`write_tree_profile_page_gz`): a fixed
 * hypermedia preamble, then for each member a marker line followed by that
 * member's quads. The gzip stream is modelled as the sequence of lines
 * written to it, each without its trailing newline.
 */
module ProfileWriter {
  import opened Wrappers
  import opened Text
  import opened Vocabulary
  import opened Terms
  import opened Collections

  /** One entry of `quads_by_member`: the member IRI and its quads, in insertion order. */
  type Member = (string, seq<Quad>)

  /** The eight hypermedia lines written before any member. */
  const Preamble: seq<string> := [
    "<> <" + RDF_TYPE + "> <" + TREE + "Node> .",
    "<" + COLL + "> <" + RDF_TYPE + "> <" + TREE + "Collection> .",
    "<" + COLL + "> <" + TREE + "view> <> .",
    "<> <" + TREE + "relation> _:r1 .",
    "_:r1 <" + RDF_TYPE + "> <" + TREE + "GreaterThanOrEqualToRelation> .",
    "_:r1 <" + TREE + "node> <" + BASE + "page/1> .",
    "_:r1 <" + TREE + "value> \"0\"^^<" + XSD_INTEGER + "> .",
    "_:r1 <" + TREE + "path> <" + EX + "value> ."
  ]

  /** `<COLL> <tree:member> <m> .`, announcing member `m`. */
  function MarkerLine(m: string): (r: string)
    ensures StartsWith(r, MarkerPrefix) && EndsWith(r, " .")
  {
    MarkerPrefix + m + "> ."
  }

  /** Number of lines the member blocks take: one marker and one line per quad each. */
  function LineCount(ms: seq<Member>): nat {
    if ms == [] then 0 else LineCount(ms[..|ms| - 1]) + 1 + |ms[|ms| - 1].1|
  }

  /** Line index at which member `j`'s marker is written. */
  function Offset(ms: seq<Member>, j: nat): nat
    requires j <= |ms|
  {
    |Preamble| + LineCount(ms[..j])
  }

  /** Each quad rendered on its own, in order. */
  function RenderAll(qs: seq<Quad>): seq<Result<string, TermError>> {
    seq(|qs|, t requires 0 <= t < |qs| => RenderQuad(qs[t]))
  }

  /** The block written for one member: its marker, then its quad lines. */
  function MemberLines(m: Member): Result<seq<string>, TermError> {
    match Collect(RenderAll(m.1))
    case Err(e) => Err(e)
    case Ok(ls) => Ok([MarkerLine(m.0)] + ls)
  }

  function MemberBlocks(ms: seq<Member>): seq<Result<seq<string>, TermError>> {
    seq(|ms|, j requires 0 <= j < |ms| => MemberLines(ms[j]))
  }

  /**
   * The whole page: what `write_tree_profile_page_gz` writes, or the error
   * raised by the first quad, in member and quad order, that cannot be rendered.
   */
  function ProfilePage(ms: seq<Member>): Result<seq<string>, TermError> {
    match Collect(MemberBlocks(ms))
    case Err(e) => Err(e)
    case Ok(bs) => Ok(Preamble + Flatten(bs))
  }

  lemma MemberBlocksSnoc(ms: seq<Member>, i: nat)
    requires i < |ms|
    ensures MemberBlocks(ms[..i + 1]) == MemberBlocks(ms[..i]) + [MemberLines(ms[i])]
  {
  }

  /** The inner loop of the writer: the quad lines of one member, or the first rendering failure. */
  method WriteMemberQuads(quads: seq<Quad>) returns (r: Result<seq<string>, TermError>)
    ensures r == Collect(RenderAll(quads))
  {
    var lines: seq<string> := [];
    var j := 0;
    while j < |quads|
      invariant 0 <= j <= |quads|
      invariant Collect(RenderAll(quads[..j])) == Ok(lines)
    {
      var line := RenderQuad(quads[j]);
      if line.Err? {
        assert forall t :: 0 <= t < j ==> RenderAll(quads[..j])[t] == RenderAll(quads)[t];
        CollectFirstError(RenderAll(quads), j);
        return Err(line.error);
      }
      assert RenderAll(quads[..j + 1]) == RenderAll(quads[..j]) + [Ok(line.value)];
      CollectSnoc(RenderAll(quads[..j]), line.value);
      lines := lines + [line.value];
      j := j + 1;
    }
    assert quads[..j] == quads;
    return Ok(lines);
  }

  /**
   * `write_tree_profile_page_gz`: writes the preamble, then for each member
   * its marker and its rendered quads, stopping at the first term that cannot
   * be rendered.
   */
  method WriteProfilePage(members: seq<Member>) returns (r: Result<seq<string>, TermError>)
    ensures r == ProfilePage(members)
  {
    var out := Preamble;
    ghost var done: seq<seq<string>> := [];
    var i := 0;
    while i < |members|
      invariant 0 <= i <= |members|
      invariant Collect(MemberBlocks(members[..i])) == Ok(done)
      invariant out == Preamble + Flatten(done)
    {
      var (m, quads) := members[i];
      var lines := WriteMemberQuads(quads);
      if lines.Err? {
        assert MemberBlocks(members)[i] == Err(lines.error);
        assert forall t :: 0 <= t < i ==> MemberBlocks(members[..i])[t] == MemberBlocks(members)[t];
        CollectFirstError(MemberBlocks(members), i);
        return Err(lines.error);
      }
      var block := [MarkerLine(m)] + lines.value;
      MemberBlocksSnoc(members, i);
      CollectSnoc(MemberBlocks(members[..i]), block);
      FlattenSnoc(done, block);
      ConcatAssoc(Preamble, Flatten(done), block);
      done := done + [block];
      out := out + block;
      i := i + 1;
    }
    assert members[..i] == members;
    return Ok(out);
  }

  lemma {:induction false} BlockLengths(ms: seq<Member>, bs: seq<seq<string>>, j: nat)
    requires |bs| == |ms| && j <= |ms|
    requires forall i :: 0 <= i < |ms| ==> |bs[i]| == 1 + |ms[i].1|
    ensures TotalLength(bs[..j]) == LineCount(ms[..j])
  {
    if j > 0 {
      BlockLengths(ms, bs, j - 1);
      assert bs[..j][..j - 1] == bs[..j - 1];
      assert ms[..j][..j - 1] == ms[..j - 1];
    }
  }

  /** The next member's marker follows the current member's quads. */
  lemma OffsetStep(ms: seq<Member>, j: nat)
    requires j < |ms|
    ensures Offset(ms, j + 1) == Offset(ms, j) + 1 + |ms[j].1|
  {
    assert ms[..j + 1][..j] == ms[..j];
  }

  /** The page is written exactly when every term of every member quad can be rendered. */
  lemma PageOkIff(ms: seq<Member>)
    ensures ProfilePage(ms).Ok? <==>
            forall j, t :: 0 <= j < |ms| && 0 <= t < |ms[j].1| ==> QuadRenderable(ms[j].1[t])
  {
    if !ProfilePage(ms).Ok? {
      var j :| 0 <= j < |ms| && !MemberBlocks(ms)[j].Ok?;
      assert MemberBlocks(ms)[j] == MemberLines(ms[j]);
      var t :| 0 <= t < |ms[j].1| && !RenderAll(ms[j].1)[t].Ok?;
      assert !QuadRenderable(ms[j].1[t]);
    } else {
      forall j, t | 0 <= j < |ms| && 0 <= t < |ms[j].1|
        ensures QuadRenderable(ms[j].1[t])
      {
        PageBlockAt(ms, j);
        MemberLinesAt(ms[j]);
      }
    }
  }

  /** A member block is its marker followed by one rendered line per quad. */
  lemma MemberLinesAt(m: Member)
    requires MemberLines(m).Ok?
    ensures |MemberLines(m).value| == 1 + |m.1| && MemberLines(m).value[0] == MarkerLine(m.0)
    ensures forall t :: 0 <= t < |m.1| ==>
              RenderQuad(m.1[t]).Ok? && MemberLines(m).value[1 + t] == RenderQuad(m.1[t]).value
  {
    var rs := RenderAll(m.1);
    assert forall t :: 0 <= t < |m.1| ==> rs[t] == RenderQuad(m.1[t]);
  }

  lemma PageBlockAt(ms: seq<Member>, j: nat)
    requires ProfilePage(ms).Ok? && j < |ms|
    ensures MemberLines(ms[j]).Ok? && Collect(MemberBlocks(ms)).value[j] == MemberLines(ms[j]).value
  {
    assert MemberBlocks(ms)[j] == MemberLines(ms[j]);
  }

  lemma PageBlockLengths(ms: seq<Member>, j: nat)
    requires ProfilePage(ms).Ok? && j <= |ms|
    ensures TotalLength(Collect(MemberBlocks(ms)).value[..j]) == LineCount(ms[..j])
  {
    var bs := Collect(MemberBlocks(ms)).value;
    forall i | 0 <= i < |ms|
      ensures |bs[i]| == 1 + |ms[i].1|
    {
      PageBlockAt(ms, i);
      MemberLinesAt(ms[i]);
    }
    BlockLengths(ms, bs, j);
  }

  /** Member `j`'s block is written between `Offset(ms, j)` and `Offset(ms, j + 1)`. */
  lemma MemberAt(ms: seq<Member>, j: nat)
    requires ProfilePage(ms).Ok? && j < |ms|
    ensures Offset(ms, j + 1) == Offset(ms, j) + 1 + |ms[j].1|
    ensures Offset(ms, j + 1) <= |ProfilePage(ms).value|
    ensures MemberLines(ms[j]).Ok?
    ensures ProfilePage(ms).value[Offset(ms, j)..Offset(ms, j + 1)] == MemberLines(ms[j]).value
  {
    var bs := Collect(MemberBlocks(ms)).value;
    PageBlockLengths(ms, j);
    PageBlockAt(ms, j);
    MemberLinesAt(ms[j]);
    OffsetStep(ms, j);
    BlockAfterPrefix(Preamble, bs, j, Offset(ms, j), Offset(ms, j + 1));
  }

  /** Quad `t` of member `j` is written, rendered, right after the marker and the quads before it. */
  ghost predicate QuadLineAt(ms: seq<Member>, j: nat, t: nat)
    requires ProfilePage(ms).Ok? && j < |ms| && t < |ms[j].1|
  {
    && Offset(ms, j) + 1 + t < |ProfilePage(ms).value|
    && RenderQuad(ms[j].1[t]).Ok?
    && ProfilePage(ms).value[Offset(ms, j) + 1 + t] == RenderQuad(ms[j].1[t]).value
  }

  /** Member `j`'s marker is written at `Offset(ms, j)`. */
  ghost predicate MarkerAt(ms: seq<Member>, j: nat)
    requires ProfilePage(ms).Ok? && j < |ms|
  {
    Offset(ms, j) < |ProfilePage(ms).value| && ProfilePage(ms).value[Offset(ms, j)] == MarkerLine(ms[j].0)
  }

  lemma MarkerWritten(ms: seq<Member>, j: nat)
    requires ProfilePage(ms).Ok? && j < |ms|
    ensures MarkerAt(ms, j)
  {
    MemberAt(ms, j);
    MemberLinesAt(ms[j]);
    SliceIndex(ProfilePage(ms).value, Offset(ms, j), Offset(ms, j + 1), 0);
  }

  lemma QuadWritten(ms: seq<Member>, j: nat, t: nat)
    requires ProfilePage(ms).Ok? && j < |ms| && t < |ms[j].1|
    ensures QuadLineAt(ms, j, t)
  {
    MemberAt(ms, j);
    MemberLinesAt(ms[j]);
    SliceIndex(ProfilePage(ms).value, Offset(ms, j), Offset(ms, j + 1), 1 + t);
  }

  /** The page starts with the preamble and has one line per marker and quad after it. */
  lemma PageFrame(ms: seq<Member>)
    requires ProfilePage(ms).Ok?
    ensures |ProfilePage(ms).value| == Offset(ms, |ms|)
    ensures ProfilePage(ms).value[..|Preamble|] == Preamble
  {
    var bs := Collect(MemberBlocks(ms)).value;
    PrefixOfConcat(Preamble, Flatten(bs));
    PageBlockLengths(ms, |ms|);
    assert ms[..|ms|] == ms;
    assert bs[..|ms|] == bs;
  }

  /**
   * Layout of a written page: the eight preamble lines, then for each member,
   * in key order, its marker at `Offset(ms, j)` followed by its rendered
   * quads, and nothing else: the page has 8 + (1 + |quads|) summed over the
   * members lines.
   */
  lemma PageLayout(ms: seq<Member>)
    requires ProfilePage(ms).Ok?
    ensures |ProfilePage(ms).value| == Offset(ms, |ms|)
    ensures ProfilePage(ms).value[..|Preamble|] == Preamble
    ensures forall j :: 0 <= j < |ms| ==> MarkerAt(ms, j)
    ensures forall j, t :: 0 <= j < |ms| && 0 <= t < |ms[j].1| ==> QuadLineAt(ms, j, t)
  {
    PageFrame(ms);
    forall j | 0 <= j < |ms|
      ensures MarkerAt(ms, j)
    {
      MarkerWritten(ms, j);
    }
    forall j, t | 0 <= j < |ms| && 0 <= t < |ms[j].1|
      ensures QuadLineAt(ms, j, t)
    {
      QuadWritten(ms, j, t);
    }
  }

  lemma PreambleEndsWithDot()
    ensures forall k :: 0 <= k < |Preamble| ==> EndsWith(Preamble[k], " .")
  {
  }

  /** Every written line, preamble, markers and quads alike, ends with ` .`. */
  lemma PageLinesEndWithDot(ms: seq<Member>)
    requires ProfilePage(ms).Ok?
    ensures forall k :: 0 <= k < |ProfilePage(ms).value| ==> EndsWith(ProfilePage(ms).value[k], " .")
  {
    var bs := Collect(MemberBlocks(ms)).value;
    forall j, t | 0 <= j < |bs| && 0 <= t < |bs[j]|
      ensures EndsWith(bs[j][t], " .")
    {
      PageBlockAt(ms, j);
      MemberLinesAt(ms[j]);
      if t > 0 {
        assert bs[j][t] == MemberLines(ms[j]).value[1 + (t - 1)];
      }
    }
    FlattenAll(bs, l => EndsWith(l, " ."));
    PreambleEndsWithDot();
  }
}
