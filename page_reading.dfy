/**
 * Reading back a page the writer laid out: how the parser classifies each
 * written line, and which batches it therefore reports for the page.
 * The preamble's eight lines all end in ` .` without being member markers,
 * so the parser takes them for quad lines (before the first marker, where
 * they are counted by no batch); each member contributes a marker line and
 * one quad line per quad.
 */
module PageReading {
  import opened Text
  import opened Vocabulary
  import opened Terms
  import opened Collections
  import opened Batches
  import opened Sums
  import opened ProfileWriter
  import opened ProfileParser
  import opened QuadAttribution
  import opened TreeBatchLaws
  import opened LineStream

  lemma RdfTypeColon()
    ensures RDF_TYPE[4] == ':'
  {
  }

  lemma TreeLetters()
    ensures |COLL| == 35 && |TREE| == 22 && TREE[4] == 's'
  {
  }

  /** A line that starts and ends with no white space, ends in ` .` and differs from the marker prefix at `k` is a quad line. */
  lemma QuadLineIf(l: string, k: nat)
    requires |l| >= 2 && !IsSpace(l[0]) && EndsWith(l, " .")
    requires k < |l| && k < |MarkerPrefix| && l[k] != MarkerPrefix[k]
    requires l[0] != '#'
    ensures Classify(l) == QuadLine
  {
    assert l[|l| - 1] == " ."[1];
    StripUnchanged(l);
    NotStartsWithAt(l, MarkerPrefix, k);
  }

  lemma PreambleLine1()
    ensures Classify(Preamble[1]) == QuadLine
  {
    TreeLetters();
    RdfTypeColon();
    assert Preamble[1][43] == ':';
    assert MarkerPrefix[43] == 's';
    QuadLineIf(Preamble[1], 43);
  }

  lemma PreambleLine2()
    ensures Classify(Preamble[2]) == QuadLine
  {
    TreeLetters();
    assert Preamble[2][61] == 'v';
    assert MarkerPrefix[61] == 'm';
    QuadLineIf(Preamble[2], 61);
  }

  lemma PreambleLine(i: nat)
    requires i < |Preamble|
    ensures Classify(Preamble[i]) == QuadLine
  {
    if i == 0 || i == 3 {
      QuadLineIf(Preamble[i], 1);
    } else if i == 1 {
      PreambleLine1();
    } else if i == 2 {
      PreambleLine2();
    } else {
      QuadLineIf(Preamble[i], 0);
    }
  }

  /** Every preamble line is read as a quad line. */
  lemma PreambleKinds()
    ensures Kinds(Preamble) == Repeat(QuadLine, |Preamble|)
  {
    forall i | 0 <= i < |Preamble|
      ensures Kinds(Preamble)[i] == Repeat(QuadLine, |Preamble|)[i]
    {
      KindsAt(Preamble, i);
      RepeatAt(QuadLine, |Preamble|, i);
      PreambleLine(i);
    }
  }

  /** Every marker the writer emits is read as a marker. */
  lemma MarkerKind(m: string)
    ensures Classify(MarkerLine(m)) == Marker
  {
    var l := MarkerLine(m);
    assert l[0] == '<';
    assert l[|l| - 1] == '.';
    StripUnchanged(l);
  }

  /** The generator's quads: each one's subject is a member IRI. */
  ghost predicate MemberSubject(q: Quad) {
    q.0.Iri? && StartsWith(q.0.iri, MEM_BASE)
  }

  ghost predicate MemberSubjects(ms: seq<Member>) {
    forall j, t :: 0 <= j < |ms| && 0 <= t < |ms[j].1| ==> MemberSubject(ms[j].1[t])
  }

  /** A written quad whose subject is a member IRI is read as a quad line: its IRI has `member/` where the marker prefix has `collection`. */
  lemma QuadKind(q: Quad)
    requires RenderQuad(q).Ok? && MemberSubject(q)
    ensures Classify(RenderQuad(q).value) == QuadLine
  {
    var l := RenderQuad(q).value;
    var s := RenderTerm(q.0).value;
    assert s == "<" + q.0.iri + ">";
    var k := |BASE| + 1;
    assert l[..|s| + 1] == s + " ";
    assert l[k] == s[k] == q.0.iri[|BASE|] == MEM_BASE[|BASE|] == 'm';
    assert MarkerPrefix[k] == COLL[|BASE|] == 'c';
    QuadLineIf(l, k);
  }

  lemma {:induction false} KindsConcat(a: seq<string>, c: seq<string>)
    ensures Kinds(a + c) == Kinds(a) + Kinds(c)
  {
    if c == [] {
      assert a + c == a;
    } else {
      var n := |c| - 1;
      assert Kinds(a + c[..n]) == Kinds(a) + Kinds(c[..n]) by {
        KindsConcat(a, c[..n]);
      }
      assert a + c == (a + c[..n]) + [c[n]];
      assert c == c[..n] + [c[n]];
      KindsSnoc(a + c[..n], c[n]);
      KindsSnoc(c[..n], c[n]);
    }
  }

  lemma BlockLineKind(m: Member, i: nat)
    requires MemberLines(m).Ok? && i < 1 + |m.1|
    requires forall t :: 0 <= t < |m.1| ==> MemberSubject(m.1[t])
    ensures |MemberLines(m).value| == 1 + |m.1|
    ensures Classify(MemberLines(m).value[i]) == if i == 0 then Marker else QuadLine
  {
    MemberLinesAt(m);
    if i == 0 {
      MarkerKind(m.0);
    } else {
      QuadKind(m.1[i - 1]);
    }
  }

  lemma KindsOfBlock(ls: seq<string>, n: nat)
    requires |ls| == 1 + n && Classify(ls[0]) == Marker
    requires forall i :: 1 <= i < |ls| ==> Classify(ls[i]) == QuadLine
    ensures Kinds(ls) == [Marker] + Repeat(QuadLine, n)
  {
    forall i | 0 <= i < |ls|
      ensures Kinds(ls)[i] == ([Marker] + Repeat(QuadLine, n))[i]
    {
      KindsAt(ls, i);
      if i > 0 {
        RepeatAt(QuadLine, n, i - 1);
      }
    }
  }

  /** A member's block is read as a marker followed by one quad line per quad. */
  lemma BlockKinds(m: Member)
    requires MemberLines(m).Ok?
    requires forall t :: 0 <= t < |m.1| ==> MemberSubject(m.1[t])
    ensures Kinds(MemberLines(m).value) == [Marker] + Repeat(QuadLine, |m.1|)
  {
    var ls := MemberLines(m).value;
    BlockLineKind(m, 0);
    forall i | 1 <= i < |ls|
      ensures Classify(ls[i]) == QuadLine
    {
      BlockLineKind(m, i);
    }
    KindsOfBlock(ls, |m.1|);
  }

  /** Number of quads of each member, in key order. */
  function QuadCounts(ms: seq<Member>): (c: seq<nat>)
    ensures |c| == |ms| && forall j :: 0 <= j < |ms| ==> c[j] == |ms[j].1|
  {
    seq(|ms|, j requires 0 <= j < |ms| => |ms[j].1|)
  }

  lemma {:induction false} FlattenKinds(bs: seq<seq<string>>, counts: seq<nat>)
    requires |bs| == |counts|
    requires forall j :: 0 <= j < |bs| ==> Kinds(bs[j]) == [Marker] + Repeat(QuadLine, counts[j])
    ensures Kinds(Flatten(bs)) == Blocks(counts)
  {
    if bs != [] {
      var n := |bs| - 1;
      FlattenKinds(bs[..n], counts[..n]);
      KindsConcat(Flatten(bs[..n]), bs[n]);
    }
  }

  /**
   * The kinds of a written page are those `PageKinds` describes: the eight
   * preamble lines as quad lines, then per member a marker and its quads.
   */
  lemma PageKindsOfPage(ms: seq<Member>)
    requires ProfilePage(ms).Ok? && MemberSubjects(ms)
    ensures Kinds(ProfilePage(ms).value) == PageKinds(|Preamble|, QuadCounts(ms))
  {
    var bs := Collect(MemberBlocks(ms)).value;
    forall j | 0 <= j < |bs|
      ensures Kinds(bs[j]) == [Marker] + Repeat(QuadLine, QuadCounts(ms)[j])
    {
      PageBlockAt(ms, j);
      BlockKinds(ms[j]);
    }
    FlattenKinds(bs, QuadCounts(ms));
    PreambleKinds();
    KindsConcat(Preamble, Flatten(bs));
  }

  // ----- The page as a text stream -----

  /**
   * No member IRI and no string a member's terms contribute holds a line
   * break. The generator guarantees it: member IRIs are `MEM_BASE` followed
   * by digits, and every other string is made of ASCII letters and digits.
   */
  ghost predicate NoLineBreaks(ms: seq<Member>) {
    forall j :: 0 <= j < |ms| ==> NoBreak(ms[j].0) && forall t :: 0 <= t < |ms[j].1| ==> QuadNoBreak(ms[j].1[t])
  }

  lemma AllNoBreakConcat(a: seq<string>, c: seq<string>)
    requires AllNoBreak(a) && AllNoBreak(c)
    ensures AllNoBreak(a + c)
  {
    forall i | 0 <= i < |a + c|
      ensures NoBreak((a + c)[i])
    {
      if i >= |a| {
        assert (a + c)[i] == c[i - |a|];
      }
    }
  }

  // One string literal per lemma: a proof that sees several of them at once runs out of resource.

  lemma BaseNoBreak()
    ensures NoBreak(BASE) && NoBreak(EX)
  {
  }

  lemma TreeNoBreak()
    ensures NoBreak(TREE)
  {
  }

  lemma W3NoBreak()
    ensures NoBreak(W3)
  {
  }

  lemma RdfTypeNoBreak()
    ensures NoBreak(RDF_TYPE)
  {
    W3NoBreak();
  }

  lemma XsdIntegerNoBreak()
    ensures NoBreak(XSD_INTEGER)
  {
    W3NoBreak();
  }

  /** The vocabulary IRIs, and the collection IRI and marker prefix built from them, hold no line break. */
  lemma VocabularyNoBreak()
    ensures NoBreak(BASE) && NoBreak(TREE) && NoBreak(EX) && NoBreak(RDF_TYPE) && NoBreak(XSD_INTEGER)
    ensures NoBreak(COLL) && NoBreak(MarkerPrefix)
  {
    BaseNoBreak();
    TreeNoBreak();
    RdfTypeNoBreak();
    XsdIntegerNoBreak();
  }

  lemma PreambleHead()
    ensures NoBreak(Preamble[0]) && NoBreak(Preamble[1]) && NoBreak(Preamble[2]) && NoBreak(Preamble[3])
  {
    VocabularyNoBreak();
  }

  lemma PreambleRelation()
    ensures NoBreak(Preamble[4])
  {
    VocabularyNoBreak();
  }

  lemma PreambleTail()
    ensures NoBreak(Preamble[5]) && NoBreak(Preamble[6]) && NoBreak(Preamble[7])
  {
    VocabularyNoBreak();
  }

  /** The preamble's lines hold no line break. */
  lemma PreambleNoBreak()
    ensures AllNoBreak(Preamble)
  {
    PreambleHead();
    PreambleRelation();
    PreambleTail();
  }

  /** A member's block holds no line break when its IRI and its terms' strings hold none. */
  lemma MemberLinesNoBreak(m: Member)
    requires MemberLines(m).Ok? && NoBreak(m.0)
    requires forall t :: 0 <= t < |m.1| ==> QuadNoBreak(m.1[t])
    ensures AllNoBreak(MemberLines(m).value)
  {
    var ls := MemberLines(m).value;
    MemberLinesAt(m);
    VocabularyNoBreak();
    forall i | 0 <= i < |ls|
      ensures NoBreak(ls[i])
    {
      if i > 0 {
        RenderQuadNoBreak(m.1[i - 1]);
      }
    }
  }

  lemma {:induction false} FlattenNoBreak(bs: seq<seq<string>>)
    requires forall j :: 0 <= j < |bs| ==> AllNoBreak(bs[j])
    ensures AllNoBreak(Flatten(bs))
  {
    if bs != [] {
      var n := |bs| - 1;
      FlattenNoBreak(bs[..n]);
      AllNoBreakConcat(Flatten(bs[..n]), bs[n]);
    }
  }

  /** No line of a written page holds a line break of its own. */
  lemma PageLinesNoBreak(ms: seq<Member>)
    requires ProfilePage(ms).Ok? && NoLineBreaks(ms)
    ensures AllNoBreak(ProfilePage(ms).value)
  {
    var bs := Collect(MemberBlocks(ms)).value;
    forall j | 0 <= j < |bs|
      ensures AllNoBreak(bs[j])
    {
      PageBlockAt(ms, j);
      MemberLinesNoBreak(ms[j]);
    }
    FlattenNoBreak(bs);
    PreambleNoBreak();
    AllNoBreakConcat(Preamble, Flatten(bs));
  }

  /**
   * Reading a written page back with `parse_tree_profile_batches`, from the
   * text the writer put in the stream: the batches cover every written
   * member, numbered from 0, but their quads add up to all written quads
   * only when the number of members is not a multiple of the batch size;
   * otherwise the last member's quads are missing.
   */
  lemma PageRoundTrip(ms: seq<Member>, b: int, clock: nat -> real)
    requires ProfilePage(ms).Ok? && MemberSubjects(ms) && NoLineBreaks(ms)
    ensures var r := TreeBatches(ReadLines(WrittenText(ProfilePage(ms).value)), b, clock);
            var g := |ms|;
            var dropped := if g > 0 && b >= 1 && g % b == 0 then |ms[g - 1].1| else 0;
            && SumMembers(r) == g
            && (forall k :: 0 <= k < |r| ==> r[k].batchIndex == k)
            && SumQuads(r) + dropped == SumOf(QuadCounts(ms))
  {
    var ks := Kinds(ProfilePage(ms).value);
    PageLinesNoBreak(ms);
    ReadBack(ProfilePage(ms).value, b, clock);
    PageKindsOfPage(ms);
    AsWrittenAttribution(|Preamble|, QuadCounts(ms), b, clock);
    IndicesAndMembers(ks, b, clock);
  }
}
