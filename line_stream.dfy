/**
 * The text stream between the writer and the parser. The writer opens the
 * gzip file with `newline="\n"` and writes every line followed by `"\n"`;
 * the parser opens it in text mode with the default universal newlines,
 * so `for line in f` ends a line at `"\n"`, at `"\r"` and at `"\r\n"`, and
 * yields each line with its terminator translated to `"\n"`. A line that
 * holds no `"\n"` and no `"\r"` of its own is read back as written.
 */
module LineStream {
  import opened Text
  import opened Batches
  import opened ProfileParser

  predicate IsLineBreak(c: char) {
    c == '\n' || c == '\r'
  }

  /** What the writer's `f.write(line + "\n")` calls put in the stream, in order. */
  function WrittenText(ls: seq<string>): (t: string)
    ensures ls == [] ==> t == []
  {
    if ls == [] then [] else ls[0] + "\n" + WrittenText(ls[1..])
  }

  /** Position of the first line break at or after `k`, or `|t|`. */
  function NextBreak(t: string, k: nat): (i: nat)
    requires k <= |t|
    ensures k <= i <= |t| && (i < |t| ==> IsLineBreak(t[i]))
    ensures forall j :: k <= j < i ==> !IsLineBreak(t[j])
    decreases |t| - k
  {
    if k == |t| || IsLineBreak(t[k]) then k else NextBreak(t, k + 1)
  }

  /** Length of the first line of `t` in the stream, its terminator included (`"\r\n"` is one terminator). */
  function LineLength(t: string): (n: nat)
    requires t != []
    ensures 0 < n <= |t|
  {
    var i := NextBreak(t, 0);
    if i == |t| then |t|
    else if t[i] == '\r' && i + 1 < |t| && t[i + 1] == '\n' then i + 2
    else i + 1
  }

  /** The first line as `for line in f` yields it: its terminator, if it has one, becomes `"\n"`. */
  function FirstLineRead(t: string): (l: string)
    requires t != []
  {
    var i := NextBreak(t, 0);
    if i == |t| then t else t[..i] + "\n"
  }

  /** The lines `for line in f` yields from a text-mode stream, each with its terminator as `"\n"`. */
  function ReadLines(t: string): (ls: seq<string>)
    ensures t == [] <==> ls == []
    decreases |t|
  {
    if t == [] then [] else [FirstLineRead(t)] + ReadLines(t[LineLength(t)..])
  }

  /** Each written line, followed by the `"\n"` the writer adds. */
  function Terminated(ls: seq<string>): (r: seq<string>)
    ensures |r| == |ls| && forall i :: 0 <= i < |ls| ==> r[i] == ls[i] + "\n"
  {
    seq(|ls|, i requires 0 <= i < |ls| => ls[i] + "\n")
  }

  /** No line holds a line break of its own. */
  ghost predicate AllNoBreak(ls: seq<string>) {
    forall i :: 0 <= i < |ls| ==> NoBreak(ls[i])
  }

  /** A line without breaks, followed by `"\n"`, is read as one line. */
  lemma FirstLine(l: string, rest: string)
    requires NoBreak(l)
    ensures var t := l + "\n" + rest;
            t != [] && LineLength(t) == |l| + 1 && FirstLineRead(t) == l + "\n" && t[|l| + 1..] == rest
  {
    var t := l + "\n" + rest;
    assert t[|l|] == '\n';
    assert t[..|l|] == l;
    assert t[..|l| + 1] == l + "\n";
    assert t[|l| + 1..] == rest;
  }

  /** Reading the stream back yields the written lines, each with its `"\n"`, when no line holds a break. */
  lemma {:induction false} ReadWritten(ls: seq<string>)
    requires AllNoBreak(ls)
    ensures ReadLines(WrittenText(ls)) == Terminated(ls)
  {
    if ls != [] {
      var rest := WrittenText(ls[1..]);
      assert AllNoBreak(ls[1..]) by {
        forall i | 0 <= i < |ls| - 1
          ensures NoBreak(ls[1..][i])
        {
          assert ls[1..][i] == ls[i + 1];
        }
      }
      ReadWritten(ls[1..]);
      assert NoBreak(ls[0]);
      FirstLine(ls[0], rest);
      assert Terminated(ls) == [ls[0] + "\n"] + Terminated(ls[1..]);
    }
  }

  /** The terminator `strip()` removes does not change a line's kind. */
  lemma {:induction false} KindsTerminated(ls: seq<string>)
    ensures Kinds(Terminated(ls)) == Kinds(ls)
  {
    var ts := Terminated(ls);
    forall i | 0 <= i < |ls|
      ensures Kinds(ts)[i] == Kinds(ls)[i]
    {
      KindsAt(ts, i);
      KindsAt(ls, i);
      assert AllSpace("\n") by {
        assert "\n"[0] == '\n';
      }
      assert AllSpace([]);
      assert [] + ls[i] + "\n" == ts[i];
      ClassifyPadded([], ls[i], "\n");
    }
  }

  /** The parser run on the stream the writer produced reports the batches of the written lines. */
  lemma ReadBack(ls: seq<string>, b: int, clock: nat -> real)
    requires AllNoBreak(ls)
    ensures TreeBatches(ReadLines(WrittenText(ls)), b, clock) == TreeBatches(ls, b, clock)
  {
    ReadWritten(ls);
    KindsTerminated(ls);
  }

  /** A `"\n"` inside a written line splits it: the parser reads two lines where one was written. */
  lemma EmbeddedBreakSplits()
    ensures ReadLines(WrittenText(["a\nb"])) == ["a\n", "b\n"]
  {
    var t := WrittenText(["a\nb"]);
    assert t == "a\nb\n" by {
      assert WrittenText(["a\nb"][1..]) == [];
    }
    assert NextBreak(t, 0) == 1 by {
      assert NextBreak(t, 1) == 1;
    }
    assert FirstLineRead(t) == "a\n" by {
      assert t[..1] == "a";
    }
    assert t[2..] == "b\n";
    assert NextBreak("b\n", 0) == 1 by {
      assert NextBreak("b\n", 1) == 1;
    }
    assert FirstLineRead("b\n") == "b\n" by {
      assert "b\n"[..1] == "b";
    }
    assert "b\n"[2..] == [];
    assert ReadLines("b\n") == ["b\n"] + ReadLines([]);
    assert ReadLines(t) == [FirstLineRead(t)] + ReadLines(t[2..]);
  }

  /** A `"\r\n"` pair ends a single line, and the line is yielded ending in `"\n"`. */
  lemma CarriageReturnLineFeed()
    ensures ReadLines("a\r\nb") == ["a\n", "b"]
  {
    var t := "a\r\nb";
    assert NextBreak(t, 0) == 1 by {
      assert NextBreak(t, 1) == 1;
    }
    assert LineLength(t) == 3;
    assert FirstLineRead(t) == "a\n" by {
      assert t[..1] == "a";
    }
    LastLine("b");
    assert t[3..] == "b";
    assert ReadLines(t) == [FirstLineRead(t)] + ReadLines(t[3..]);
  }

  /** A lone `"\r"` ends a line too, and the line is yielded ending in `"\n"`. */
  lemma CarriageReturn()
    ensures ReadLines("a\rb") == ["a\n", "b"]
  {
    var t := "a\rb";
    assert NextBreak(t, 0) == 1 by {
      assert NextBreak(t, 1) == 1;
    }
    assert LineLength(t) == 2;
    assert FirstLineRead(t) == "a\n" by {
      assert t[..1] == "a";
    }
    LastLine("b");
    assert t[2..] == "b";
    assert ReadLines(t) == [FirstLineRead(t)] + ReadLines(t[2..]);
  }

  /** Text without a line break is read as one last line, as it stands. */
  lemma LastLine(t: string)
    requires t != [] && NoBreak(t)
    ensures ReadLines(t) == [t]
  {
    assert NextBreak(t, 0) == |t|;
    assert t[|t|..] == [];
    assert ReadLines(t) == [t] + ReadLines([]);
  }
}
