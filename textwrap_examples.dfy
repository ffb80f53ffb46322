/** Dedent on the inputs of textwrap_test.go, and on the inputs that show
    where the code departs from its documentation. Each margin is traced
    line by line with MarginStep; the output then follows from DedentLines. */
module TextwrapExamples {
  import opened Wrappers
  import opened Strings
  import opened Textwrap

  /** TestZip: zip("1234", "ab") pairs the first two characters and stops
      when "ab" is used up. */
  method ZipStopsAtShorter() returns (got: seq<Zipped>)
    ensures got == [Zipped('1', 'a'), Zipped('2', 'b')]
  {
    got := Zip("1234", "ab");
  }

  /** The register after one more line. */
  lemma MarginAfterPush(rows: seq<string>, row: string)
    ensures MarginAfter(rows + [row]) == MarginStep(MarginAfter(rows), row)
  {
    assert (rows + [row])[..|rows|] == rows;
  }

  lemma MarginOfOne(r0: string)
    ensures MarginAfter([r0]) == MarginStep("", r0)
  {
    MarginAfterPush([], r0);
    assert [] + [r0] == [r0];
  }

  lemma MarginOfTwo(r0: string, r1: string)
    ensures MarginAfter([r0, r1]) == MarginStep(MarginStep("", r0), r1)
  {
    MarginOfOne(r0);
    MarginAfterPush([r0], r1);
    assert [r0] + [r1] == [r0, r1];
  }

  lemma MarginOfThree(r0: string, r1: string, r2: string)
    ensures MarginAfter([r0, r1, r2]) == MarginStep(MarginStep(MarginStep("", r0), r1), r2)
  {
    MarginOfTwo(r0, r1);
    MarginAfterPush([r0, r1], r2);
    assert [r0, r1] + [r2] == [r0, r1, r2];
  }

  lemma MarginOfFour(r0: string, r1: string, r2: string, r3: string)
    ensures MarginAfter([r0, r1, r2, r3])
         == MarginStep(MarginStep(MarginStep(MarginStep("", r0), r1), r2), r3)
  {
    MarginOfThree(r0, r1, r2);
    MarginAfterPush([r0, r1, r2], r3);
    assert [r0, r1, r2] + [r3] == [r0, r1, r2, r3];
  }

  lemma MarginOfFive(r0: string, r1: string, r2: string, r3: string, r4: string)
    ensures MarginAfter([r0, r1, r2, r3, r4])
         == MarginStep(MarginStep(MarginStep(MarginStep(MarginStep("", r0), r1), r2), r3), r4)
  {
    MarginOfFour(r0, r1, r2, r3);
    MarginAfterPush([r0, r1, r2, r3], r4);
    assert [r0, r1, r2, r3] + [r4] == [r0, r1, r2, r3, r4];
  }

  /** The first matching line sets the register to its candidate. */
  lemma StepFirst(row: string, candidate: string)
    requires IsCandidate(candidate) && candidate <= row
    ensures MarginStep("", row) == candidate
  {
    LeadMatchIsTheCandidate(row, candidate);
  }

  /** A later matching line sets the register to the longest common prefix
      of the register and the line. */
  lemma StepCommon(margin: string, row: string, candidate: string, common: string)
    requires margin != "" && IsCandidate(candidate) && candidate <= row
    requires IsLongestCommonPrefix(common, margin, row)
    ensures MarginStep(margin, row) == common
  {
    LeadMatchIsTheCandidate(row, candidate);
    LongestCommonPrefixUnique(common, MarginStep(margin, row), margin, row);
  }

  /** A line of only spaces and tabs leaves the register alone. */
  lemma StepBlank(margin: string, row: string)
    requires AllSpace(row) && NoNewline(row)
    ensures MarginStep(margin, row) == margin
  {
  }

  /** Dedent with an empty margin returns the text as it is. */
  lemma UnchangedByLines(rows: seq<string>)
    requires Lines(rows) && MarginAfter(rows) == ""
    ensures Dedented(Join(rows)) == Join(rows)
  {
    SplitJoin(rows);
  }

  /** What Dedent makes of `row` under a non-empty `margin`, in terms that
      can be checked character by character: a line with text that starts
      with the margin loses it, a line of only spaces and tabs comes out
      empty, and a line with text that does not start with the margin is
      kept. */
  predicate DedentsTo(margin: string, row: string, out: string) {
    || (row == margin + out && !AllSpace(row))
    || (AllSpace(row) && out == "")
    || (!(margin <= row) && !AllSpace(row) && out == row)
  }

  /** Dedent with a non-empty margin, line by line. */
  lemma DedentedByLines(rows: seq<string>, out: seq<string>)
    requires Lines(rows) && MarginAfter(rows) != ""
    requires |out| == |rows|
    requires forall i :: 0 <= i < |rows| ==> DedentsTo(MarginAfter(rows), rows[i], out[i])
    ensures Dedented(Join(rows)) == Join(out)
  {
    var text := Join(rows);
    var margin := MarginAfter(rows);
    SplitJoin(rows);
    DedentLines(text);
    var d := Split(Dedented(text));
    forall i | 0 <= i < |rows|
      ensures d[i] == out[i]
    {
      if rows[i] == margin + out[i] && !AllSpace(rows[i]) {
        assert margin + d[i] == rows[i];
        assert d[i] == rows[i][|margin|..];
      }
    }
    assert d == out;
    JoinSplit(Dedented(text));
  }

  lemma UnchangedOne(r0: string)
    requires NoNewline(r0)
    requires MarginAfter([r0]) == ""
    ensures Dedented(Join([r0])) == Join([r0])
  {
    UnchangedByLines([r0]);
  }

  lemma DedentedOne(margin: string, r0: string,
      o0: string)
    requires NoNewline(r0)
    requires margin != "" && MarginAfter([r0]) == margin
    requires DedentsTo(margin, r0, o0)
    ensures Dedented(Join([r0])) == Join([o0])
  {
    var rows, out := [r0], [o0];
    DedentedByLines(rows, out);
  }

  lemma UnchangedTwo(r0: string, r1: string)
    requires NoNewline(r0) && NoNewline(r1)
    requires MarginAfter([r0, r1]) == ""
    ensures Dedented(Join([r0, r1])) == Join([r0, r1])
  {
    forall i | 0 <= i < 2
      ensures NoNewline([r0, r1][i])
    {
      if i == 0 { }
    }
    UnchangedByLines([r0, r1]);
  }

  lemma DedentedTwo(margin: string, r0: string, r1: string,
      o0: string, o1: string)
    requires NoNewline(r0) && NoNewline(r1)
    requires margin != "" && MarginAfter([r0, r1]) == margin
    requires DedentsTo(margin, r0, o0)
    requires DedentsTo(margin, r1, o1)
    ensures Dedented(Join([r0, r1])) == Join([o0, o1])
  {
    var rows, out := [r0, r1], [o0, o1];
    forall i | 0 <= i < 2
      ensures NoNewline(rows[i]) && DedentsTo(margin, rows[i], out[i])
    {
      if i == 0 { }
    }
    DedentedByLines(rows, out);
  }

  lemma UnchangedThree(r0: string, r1: string, r2: string)
    requires NoNewline(r0) && NoNewline(r1) && NoNewline(r2)
    requires MarginAfter([r0, r1, r2]) == ""
    ensures Dedented(Join([r0, r1, r2])) == Join([r0, r1, r2])
  {
    forall i | 0 <= i < 3
      ensures NoNewline([r0, r1, r2][i])
    {
      if i == 0 { } else if i == 1 { }
    }
    UnchangedByLines([r0, r1, r2]);
  }

  lemma DedentedThree(margin: string, r0: string, r1: string, r2: string,
      o0: string, o1: string, o2: string)
    requires NoNewline(r0) && NoNewline(r1) && NoNewline(r2)
    requires margin != "" && MarginAfter([r0, r1, r2]) == margin
    requires DedentsTo(margin, r0, o0)
    requires DedentsTo(margin, r1, o1)
    requires DedentsTo(margin, r2, o2)
    ensures Dedented(Join([r0, r1, r2])) == Join([o0, o1, o2])
  {
    var rows, out := [r0, r1, r2], [o0, o1, o2];
    forall i | 0 <= i < 3
      ensures NoNewline(rows[i]) && DedentsTo(margin, rows[i], out[i])
    {
      if i == 0 { } else if i == 1 { }
    }
    DedentedByLines(rows, out);
  }

  lemma UnchangedFour(r0: string, r1: string, r2: string, r3: string)
    requires NoNewline(r0) && NoNewline(r1) && NoNewline(r2) && NoNewline(r3)
    requires MarginAfter([r0, r1, r2, r3]) == ""
    ensures Dedented(Join([r0, r1, r2, r3])) == Join([r0, r1, r2, r3])
  {
    forall i | 0 <= i < 4
      ensures NoNewline([r0, r1, r2, r3][i])
    {
      if i == 0 { } else if i == 1 { } else if i == 2 { }
    }
    UnchangedByLines([r0, r1, r2, r3]);
  }

  lemma DedentedFour(margin: string, r0: string, r1: string, r2: string, r3: string,
      o0: string, o1: string, o2: string, o3: string)
    requires NoNewline(r0) && NoNewline(r1) && NoNewline(r2) && NoNewline(r3)
    requires margin != "" && MarginAfter([r0, r1, r2, r3]) == margin
    requires DedentsTo(margin, r0, o0)
    requires DedentsTo(margin, r1, o1)
    requires DedentsTo(margin, r2, o2)
    requires DedentsTo(margin, r3, o3)
    ensures Dedented(Join([r0, r1, r2, r3])) == Join([o0, o1, o2, o3])
  {
    var rows, out := [r0, r1, r2, r3], [o0, o1, o2, o3];
    forall i | 0 <= i < 4
      ensures NoNewline(rows[i]) && DedentsTo(margin, rows[i], out[i])
    {
      if i == 0 { } else if i == 1 { } else if i == 2 { }
    }
    DedentedByLines(rows, out);
  }

  lemma UnchangedFive(r0: string, r1: string, r2: string, r3: string, r4: string)
    requires NoNewline(r0) && NoNewline(r1) && NoNewline(r2) && NoNewline(r3) && NoNewline(r4)
    requires MarginAfter([r0, r1, r2, r3, r4]) == ""
    ensures Dedented(Join([r0, r1, r2, r3, r4])) == Join([r0, r1, r2, r3, r4])
  {
    forall i | 0 <= i < 5
      ensures NoNewline([r0, r1, r2, r3, r4][i])
    {
      if i == 0 { } else if i == 1 { } else if i == 2 { } else if i == 3 { }
    }
    UnchangedByLines([r0, r1, r2, r3, r4]);
  }

  lemma DedentedFive(margin: string, r0: string, r1: string, r2: string, r3: string, r4: string,
      o0: string, o1: string, o2: string, o3: string, o4: string)
    requires NoNewline(r0) && NoNewline(r1) && NoNewline(r2) && NoNewline(r3) && NoNewline(r4)
    requires margin != "" && MarginAfter([r0, r1, r2, r3, r4]) == margin
    requires DedentsTo(margin, r0, o0)
    requires DedentsTo(margin, r1, o1)
    requires DedentsTo(margin, r2, o2)
    requires DedentsTo(margin, r3, o3)
    requires DedentsTo(margin, r4, o4)
    ensures Dedented(Join([r0, r1, r2, r3, r4])) == Join([o0, o1, o2, o3, o4])
  {
    var rows, out := [r0, r1, r2, r3, r4], [o0, o1, o2, o3, o4];
    forall i | 0 <= i < 5
      ensures NoNewline(rows[i]) && DedentsTo(margin, rows[i], out[i])
    {
      if i == 0 { } else if i == 1 { } else if i == 2 { } else if i == 3 { }
    }
    DedentedByLines(rows, out);
  }

  // ---------------------------------------------------------------------
  // TestDedentUnchanged (textwrap_test.go)
  // ---------------------------------------------------------------------

  lemma DedentUnchangedFlushMargin(r0: string, r1: string, r2: string)
    requires r0 == "Hello there."
    requires r1 == "How are you?"
    requires r2 == "Oh good, I'm glad."
    ensures MarginAfter([r0, r1, r2]) == ""
  {
    MarginOfThree(r0, r1, r2);
    StepFirst(r0, "H");
    StepCommon("H", r1, "H", "H");
    StepCommon("H", r2, "O", "");
  }

  lemma DedentUnchangedFlushLines(r0: string, r1: string, r2: string)
    requires r0 == "Hello there."
    requires r1 == "How are you?"
    requires r2 == "Oh good, I'm glad."
    ensures Dedented(Join([r0, r1, r2])) == Join([r0, r1, r2])
  {
    assert NoNewline(r0) && NoNewline(r1) && NoNewline(r2);
    DedentUnchangedFlushMargin(r0, r1, r2);
    UnchangedThree(r0, r1, r2);
  }

  /** No line indented. */
  lemma DedentUnchangedFlush()
    ensures Dedented(Join(["Hello there.", "How are you?", "Oh good, I'm glad."])) == Join(["Hello there.", "How are you?", "Oh good, I'm glad."])
  {
    DedentUnchangedFlushLines("Hello there.", "How are you?", "Oh good, I'm glad.");
  }

  lemma DedentUnchangedBlankMargin(r0: string, r1: string, r2: string)
    requires r0 == "Hello there."
    requires r1 == ""
    requires r2 == "Boo!"
    ensures MarginAfter([r0, r1, r2]) == ""
  {
    MarginOfThree(r0, r1, r2);
    StepFirst(r0, "H");
    StepBlank("H", r1);
    StepCommon("H", r2, "B", "");
  }

  lemma DedentUnchangedBlankLines(r0: string, r1: string, r2: string)
    requires r0 == "Hello there."
    requires r1 == ""
    requires r2 == "Boo!"
    ensures Dedented(Join([r0, r1, r2])) == Join([r0, r1, r2])
  {
    assert NoNewline(r0) && NoNewline(r1) && NoNewline(r2);
    DedentUnchangedBlankMargin(r0, r1, r2);
    UnchangedThree(r0, r1, r2);
  }

  /** Similar, with a blank line. */
  lemma DedentUnchangedBlank()
    ensures Dedented(Join(["Hello there.", "", "Boo!"])) == Join(["Hello there.", "", "Boo!"])
  {
    DedentUnchangedBlankLines("Hello there.", "", "Boo!");
  }

  lemma DedentUnchangedIndentedMargin(r0: string, r1: string)
    requires r0 == "Hello there."
    requires r1 == "  This is indented."
    ensures MarginAfter([r0, r1]) == ""
  {
    MarginOfTwo(r0, r1);
    StepFirst(r0, "H");
    StepCommon("H", r1, "  T", "");
  }

  lemma DedentUnchangedIndentedLines(r0: string, r1: string)
    requires r0 == "Hello there."
    requires r1 == "  This is indented."
    ensures Dedented(Join([r0, r1])) == Join([r0, r1])
  {
    assert NoNewline(r0) && NoNewline(r1);
    DedentUnchangedIndentedMargin(r0, r1);
    UnchangedTwo(r0, r1);
  }

  /** Some lines indented, but the overall margin is still empty. */
  lemma DedentUnchangedIndented()
    ensures Dedented(Join(["Hello there.", "  This is indented."])) == Join(["Hello there.", "  This is indented."])
  {
    DedentUnchangedIndentedLines("Hello there.", "  This is indented.");
  }

  lemma DedentUnchangedIndentedBlankMargin(r0: string, r1: string, r2: string, r3: string)
    requires r0 == "Hello there."
    requires r1 == ""
    requires r2 == "  Boo!"
    requires r3 == ""
    ensures MarginAfter([r0, r1, r2, r3]) == ""
  {
    MarginOfFour(r0, r1, r2, r3);
    StepFirst(r0, "H");
    StepBlank("H", r1);
    StepCommon("H", r2, "  B", "");
    StepBlank("", r3);
  }

  lemma DedentUnchangedIndentedBlankLines(r0: string, r1: string, r2: string, r3: string)
    requires r0 == "Hello there."
    requires r1 == ""
    requires r2 == "  Boo!"
    requires r3 == ""
    ensures Dedented(Join([r0, r1, r2, r3])) == Join([r0, r1, r2, r3])
  {
    assert NoNewline(r0) && NoNewline(r1) && NoNewline(r2) && NoNewline(r3);
    DedentUnchangedIndentedBlankMargin(r0, r1, r2, r3);
    UnchangedFour(r0, r1, r2, r3);
  }

  /** Again, with a blank line. */
  lemma DedentUnchangedIndentedBlank()
    ensures Dedented(Join(["Hello there.", "", "  Boo!", ""])) == Join(["Hello there.", "", "  Boo!", ""])
  {
    DedentUnchangedIndentedBlankLines("Hello there.", "", "  Boo!", "");
  }

  // ---------------------------------------------------------------------
  // TestDedentEven (textwrap_test.go)
  // ---------------------------------------------------------------------

  lemma DedentEvenMargin(r0: string, r1: string, r2: string)
    requires r0 == "  Hello there."
    requires r1 == "  How are ya?"
    requires r2 == "  Oh good."
    ensures MarginAfter([r0, r1, r2]) == "  "
  {
    MarginOfThree(r0, r1, r2);
    StepFirst(r0, "  H");
    StepCommon("  H", r1, "  H", "  H");
    StepCommon("  H", r2, "  O", "  ");
  }

  lemma DedentEvenFirst(row: string, out: string)
    requires row == "  Hello there." && out == "Hello there."
    ensures NoNewline(row) && DedentsTo("  ", row, out)
  {
    assert !IsSpace(row[2]);
  }

  lemma DedentEvenSecond(row: string, out: string)
    requires row == "  How are ya?" && out == "How are ya?"
    ensures NoNewline(row) && DedentsTo("  ", row, out)
  {
    assert !IsSpace(row[2]);
  }

  lemma DedentEvenThird(row: string, out: string)
    requires row == "  Oh good." && out == "Oh good."
    ensures NoNewline(row) && DedentsTo("  ", row, out)
  {
    assert !IsSpace(row[2]);
  }

  lemma DedentEvenLines(r0: string, r1: string, r2: string,
      o0: string, o1: string, o2: string)
    requires r0 == "  Hello there." && o0 == "Hello there."
    requires r1 == "  How are ya?" && o1 == "How are ya?"
    requires r2 == "  Oh good." && o2 == "Oh good."
    ensures Dedented(Join([r0, r1, r2])) == Join([o0, o1, o2])
  {
    DedentEvenFirst(r0, o0);
    DedentEvenSecond(r1, o1);
    DedentEvenThird(r2, o2);
    DedentEvenMargin(r0, r1, r2);
    DedentedThree("  ", r0, r1, r2,
      o0, o1, o2);
  }

  /** All lines indented by two spaces. */
  lemma DedentEven()
    ensures Dedented(Join(["  Hello there.", "  How are ya?", "  Oh good."]))
         == Join(["Hello there.", "How are ya?", "Oh good."])
  {
    DedentEvenLines("  Hello there.", "  How are ya?", "  Oh good.",
      "Hello there.", "How are ya?", "Oh good.");
  }

  lemma DedentEvenBlankMargin(r0: string, r1: string, r2: string, r3: string, r4: string)
    requires r0 == "  Hello there."
    requires r1 == ""
    requires r2 == "  How are ya?"
    requires r3 == "  Oh good."
    requires r4 == ""
    ensures MarginAfter([r0, r1, r2, r3, r4]) == "  "
  {
    MarginOfFive(r0, r1, r2, r3, r4);
    StepFirst(r0, "  H");
    StepBlank("  H", r1);
    StepCommon("  H", r2, "  H", "  H");
    StepCommon("  H", r3, "  O", "  ");
    StepBlank("  ", r4);
  }

  lemma DedentEvenBlankFirst(row: string, out: string)
    requires row == "  Hello there." && out == "Hello there."
    ensures NoNewline(row) && DedentsTo("  ", row, out)
  {
    assert !IsSpace(row[2]);
  }

  lemma DedentEvenBlankSecond(row: string, out: string)
    requires row == "" && out == ""
    ensures NoNewline(row) && DedentsTo("  ", row, out)
  {
  }

  lemma DedentEvenBlankThird(row: string, out: string)
    requires row == "  How are ya?" && out == "How are ya?"
    ensures NoNewline(row) && DedentsTo("  ", row, out)
  {
    assert !IsSpace(row[2]);
  }

  lemma DedentEvenBlankFourth(row: string, out: string)
    requires row == "  Oh good." && out == "Oh good."
    ensures NoNewline(row) && DedentsTo("  ", row, out)
  {
    assert !IsSpace(row[2]);
  }

  lemma DedentEvenBlankFifth(row: string, out: string)
    requires row == "" && out == ""
    ensures NoNewline(row) && DedentsTo("  ", row, out)
  {
  }

  lemma DedentEvenBlankLines(r0: string, r1: string, r2: string, r3: string, r4: string,
      o0: string, o1: string, o2: string, o3: string, o4: string)
    requires r0 == "  Hello there." && o0 == "Hello there."
    requires r1 == "" && o1 == ""
    requires r2 == "  How are ya?" && o2 == "How are ya?"
    requires r3 == "  Oh good." && o3 == "Oh good."
    requires r4 == "" && o4 == ""
    ensures Dedented(Join([r0, r1, r2, r3, r4])) == Join([o0, o1, o2, o3, o4])
  {
    DedentEvenBlankFirst(r0, o0);
    DedentEvenBlankSecond(r1, o1);
    DedentEvenBlankThird(r2, o2);
    DedentEvenBlankFourth(r3, o3);
    DedentEvenBlankFifth(r4, o4);
    DedentEvenBlankMargin(r0, r1, r2, r3, r4);
    DedentedFive("  ", r0, r1, r2, r3, r4,
      o0, o1, o2, o3, o4);
  }

  /** Same, with blank lines. */
  lemma DedentEvenBlank()
    ensures Dedented(Join(["  Hello there.", "", "  How are ya?", "  Oh good.", ""]))
         == Join(["Hello there.", "", "How are ya?", "Oh good.", ""])
  {
    DedentEvenBlankLines("  Hello there.", "", "  How are ya?", "  Oh good.", "",
      "Hello there.", "", "How are ya?", "Oh good.", "");
  }

  lemma DedentEvenIndentedBlankMargin(r0: string, r1: string, r2: string, r3: string, r4: string)
    requires r0 == "  Hello there."
    requires r1 == "  "
    requires r2 == "  How are ya?"
    requires r3 == "  Oh good."
    requires r4 == ""
    ensures MarginAfter([r0, r1, r2, r3, r4]) == "  "
  {
    MarginOfFive(r0, r1, r2, r3, r4);
    StepFirst(r0, "  H");
    StepBlank("  H", r1);
    StepCommon("  H", r2, "  H", "  H");
    StepCommon("  H", r3, "  O", "  ");
    StepBlank("  ", r4);
  }

  lemma DedentEvenIndentedBlankFirst(row: string, out: string)
    requires row == "  Hello there." && out == "Hello there."
    ensures NoNewline(row) && DedentsTo("  ", row, out)
  {
    assert !IsSpace(row[2]);
  }

  lemma DedentEvenIndentedBlankSecond(row: string, out: string)
    requires row == "  " && out == ""
    ensures NoNewline(row) && DedentsTo("  ", row, out)
  {
  }

  lemma DedentEvenIndentedBlankThird(row: string, out: string)
    requires row == "  How are ya?" && out == "How are ya?"
    ensures NoNewline(row) && DedentsTo("  ", row, out)
  {
    assert !IsSpace(row[2]);
  }

  lemma DedentEvenIndentedBlankFourth(row: string, out: string)
    requires row == "  Oh good." && out == "Oh good."
    ensures NoNewline(row) && DedentsTo("  ", row, out)
  {
    assert !IsSpace(row[2]);
  }

  lemma DedentEvenIndentedBlankFifth(row: string, out: string)
    requires row == "" && out == ""
    ensures NoNewline(row) && DedentsTo("  ", row, out)
  {
  }

  lemma DedentEvenIndentedBlankLines(r0: string, r1: string, r2: string, r3: string, r4: string,
      o0: string, o1: string, o2: string, o3: string, o4: string)
    requires r0 == "  Hello there." && o0 == "Hello there."
    requires r1 == "  " && o1 == ""
    requires r2 == "  How are ya?" && o2 == "How are ya?"
    requires r3 == "  Oh good." && o3 == "Oh good."
    requires r4 == "" && o4 == ""
    ensures Dedented(Join([r0, r1, r2, r3, r4])) == Join([o0, o1, o2, o3, o4])
  {
    DedentEvenIndentedBlankFirst(r0, o0);
    DedentEvenIndentedBlankSecond(r1, o1);
    DedentEvenIndentedBlankThird(r2, o2);
    DedentEvenIndentedBlankFourth(r3, o3);
    DedentEvenIndentedBlankFifth(r4, o4);
    DedentEvenIndentedBlankMargin(r0, r1, r2, r3, r4);
    DedentedFive("  ", r0, r1, r2, r3, r4,
      o0, o1, o2, o3, o4);
  }

  /** Same, with one of the blank lines indented: it comes out empty. */
  lemma DedentEvenIndentedBlank()
    ensures Dedented(Join(["  Hello there.", "  ", "  How are ya?", "  Oh good.", ""]))
         == Join(["Hello there.", "", "How are ya?", "Oh good.", ""])
  {
    DedentEvenIndentedBlankLines("  Hello there.", "  ", "  How are ya?", "  Oh good.", "",
      "Hello there.", "", "How are ya?", "Oh good.", "");
  }

  // ---------------------------------------------------------------------
  // Tabs and spaces are different characters
  // ---------------------------------------------------------------------

  lemma DedentTabSpaceMargin(r0: string, r1: string)
    requires r0 == "  hello"
    requires r1 == "\thello"
    ensures MarginAfter([r0, r1]) == ""
  {
    MarginOfTwo(r0, r1);
    StepFirst(r0, "  h");
    StepCommon("  h", r1, "\th", "");
  }

  lemma DedentTabSpaceLines(r0: string, r1: string)
    requires r0 == "  hello"
    requires r1 == "\thello"
    ensures Dedented(Join([r0, r1])) == Join([r0, r1])
  {
    assert NoNewline(r0) && NoNewline(r1);
    DedentTabSpaceMargin(r0, r1);
    UnchangedTwo(r0, r1);
  }

  /** Two spaces and a tab share no margin. */
  lemma DedentTabSpace()
    ensures Dedented(Join(["  hello", "\thello"])) == Join(["  hello", "\thello"])
  {
    DedentTabSpaceLines("  hello", "\thello");
  }

  // ---------------------------------------------------------------------
  // Where the code departs from its documentation
  // ---------------------------------------------------------------------

  lemma DedentDropsFirstLetterMargin(r0: string)
    requires r0 == "Hello"
    ensures MarginAfter([r0]) == "H"
  {
    MarginOfOne(r0);
    StepFirst(r0, "H");
  }

  lemma DedentDropsFirstLetterFirst(row: string, out: string)
    requires row == "Hello" && out == "ello"
    ensures NoNewline(row) && DedentsTo("H", row, out)
  {
    assert !IsSpace(row[0]);
  }

  lemma DedentDropsFirstLetterLines(r0: string,
      o0: string)
    requires r0 == "Hello" && o0 == "ello"
    ensures Dedented(Join([r0])) == Join([o0])
  {
    DedentDropsFirstLetterFirst(r0, o0);
    DedentDropsFirstLetterMargin(r0);
    DedentedOne("H", r0,
      o0);
  }

  /** A single line's margin includes its first letter, which Dedent then
      removes: "Hello" becomes "ello". */
  lemma DedentDropsFirstLetter()
    ensures Dedented("Hello") == "ello"
  {
    DedentDropsFirstLetterLines("Hello",
      "ello");
  }

  lemma DedentDropsSecondLetterMargin(r0: string)
    requires r0 == "ello"
    ensures MarginAfter([r0]) == "e"
  {
    MarginOfOne(r0);
    StepFirst(r0, "e");
  }

  lemma DedentDropsSecondLetterFirst(row: string, out: string)
    requires row == "ello" && out == "llo"
    ensures NoNewline(row) && DedentsTo("e", row, out)
  {
    assert !IsSpace(row[0]);
  }

  lemma DedentDropsSecondLetterLines(r0: string,
      o0: string)
    requires r0 == "ello" && o0 == "llo"
    ensures Dedented(Join([r0])) == Join([o0])
  {
    DedentDropsSecondLetterFirst(r0, o0);
    DedentDropsSecondLetterMargin(r0);
    DedentedOne("e", r0,
      o0);
  }

  /** And "ello" becomes "llo". */
  lemma DedentDropsSecondLetter()
    ensures Dedented("ello") == "llo"
  {
    DedentDropsSecondLetterLines("ello",
      "llo");
  }

  /** Applying Dedent twice removes one more letter, so Dedent is not
      idempotent. */
  lemma DedentNotIdempotent()
    ensures Dedented(Dedented("Hello")) == "llo"
  {
    DedentDropsFirstLetter();
    DedentDropsSecondLetter();
  }

  lemma DedentRestartsMarginMargin(r0: string, r1: string, r2: string)
    requires r0 == "  a"
    requires r1 == "\tb"
    requires r2 == "  c"
    ensures MarginAfter([r0, r1, r2]) == "  c"
  {
    MarginOfThree(r0, r1, r2);
    StepFirst(r0, "  a");
    StepCommon("  a", r1, "\tb", "");
    StepFirst(r2, "  c");
  }

  lemma DedentRestartsMarginFirst(row: string, out: string)
    requires row == "  a" && out == "  a"
    ensures NoNewline(row) && DedentsTo("  c", row, out)
  {
    assert !IsSpace(row[2]);
  }

  lemma DedentRestartsMarginSecond(row: string, out: string)
    requires row == "\tb" && out == "\tb"
    ensures NoNewline(row) && DedentsTo("  c", row, out)
  {
    assert !IsSpace(row[1]);
  }

  lemma DedentRestartsMarginThird(row: string, out: string)
    requires row == "  c" && out == ""
    ensures NoNewline(row) && DedentsTo("  c", row, out)
  {
    assert !IsSpace(row[2]);
  }

  lemma DedentRestartsMarginLines(r0: string, r1: string, r2: string,
      o0: string, o1: string, o2: string)
    requires r0 == "  a" && o0 == "  a"
    requires r1 == "\tb" && o1 == "\tb"
    requires r2 == "  c" && o2 == ""
    ensures Dedented(Join([r0, r1, r2])) == Join([o0, o1, o2])
  {
    DedentRestartsMarginFirst(r0, o0);
    DedentRestartsMarginSecond(r1, o1);
    DedentRestartsMarginThird(r2, o2);
    DedentRestartsMarginMargin(r0, r1, r2);
    DedentedThree("  c", r0, r1, r2,
      o0, o1, o2);
  }

  /** After a tab clashes with a space the register is "", and the next
      line starts a margin afresh: the last line loses its indentation and
      its text although the lines share no margin. */
  lemma DedentRestartsMargin()
    ensures Dedented(Join(["  a", "\tb", "  c"]))
         == Join(["  a", "\tb", ""])
  {
    DedentRestartsMarginLines("  a", "\tb", "  c",
      "  a", "\tb", "");
  }
}
