/** Indent on the inputs of indent_test.go, with the expected outputs
    written there. Each example fixes the lines of the input, checks the
    predicate on each of them, and reads the output off IndentedByLines. */
module IndentExamples {
  import opened Wrappers
  import opened Strings
  import opened Indentation

  /** The isEmpty closure of TestIndentEmptyLines: nothing is left after
      strings.TrimSpace. */
  predicate IsBlank(s: string) {
    TrimSpace(s) == ""
  }

  /** A lone carriage return is white space for IsNotEmpty, while text
      before it is not. */
  lemma CarriageReturnIsEmpty()
    ensures !IsNotEmpty("\r") && IsBlank("\r")
    ensures IsNotEmpty("Hi.\r") && !IsBlank("Hi.\r")
  {
    assert !IsWhiteSpace("Hi.\r"[0]);
  }

  /** Indent, line by line: the output lines are the input lines with the
      prefix in front of the accepted ones. */
  lemma IndentedByLines(rows: seq<string>, prefix: string, pred: Option<PredicateFunc>, out: seq<string>)
    requires Lines(rows) && |out| == |rows|
    requires forall i :: 0 <= i < |rows| ==> out[i] == PrefixLine(prefix, Effective(pred), rows[i])
    ensures Indented(Join(rows), prefix, pred) == Join(out)
  {
    SplitJoin(rows);
    assert IndentedRows(Join(rows), prefix, pred) == out;
  }

  lemma PrefixedThree(prefix: string, pred: Option<PredicateFunc>,
      r0: string, r1: string, r2: string,
      o0: string, o1: string, o2: string)
    requires NoNewline(r0) && NoNewline(r1) && NoNewline(r2)
    requires o0 == PrefixLine(prefix, Effective(pred), r0)
    requires o1 == PrefixLine(prefix, Effective(pred), r1)
    requires o2 == PrefixLine(prefix, Effective(pred), r2)
    ensures Lines([r0, r1, r2]) && |[o0, o1, o2]| == |[r0, r1, r2]|
    ensures forall i :: 0 <= i < |[r0, r1, r2]| ==> [o0, o1, o2][i] == PrefixLine(prefix, Effective(pred), [r0, r1, r2][i])
  {
    var rows, out := [r0, r1, r2], [o0, o1, o2];
    forall i | 0 <= i < 3
      ensures NoNewline(rows[i]) && out[i] == PrefixLine(prefix, Effective(pred), rows[i])
    {
      if i == 0 { } else if i == 1 { }
    }
  }

  lemma IndentedThree(prefix: string, pred: Option<PredicateFunc>,
      r0: string, r1: string, r2: string,
      o0: string, o1: string, o2: string)
    requires NoNewline(r0) && NoNewline(r1) && NoNewline(r2)
    requires o0 == PrefixLine(prefix, Effective(pred), r0)
    requires o1 == PrefixLine(prefix, Effective(pred), r1)
    requires o2 == PrefixLine(prefix, Effective(pred), r2)
    ensures Indented(Join([r0, r1, r2]), prefix, pred) == Join([o0, o1, o2])
  {
    PrefixedThree(prefix, pred, r0, r1, r2, o0, o1, o2);
    IndentedByLines([r0, r1, r2], prefix, pred, [o0, o1, o2]);
  }

  lemma PrefixedFour(prefix: string, pred: Option<PredicateFunc>,
      r0: string, r1: string, r2: string, r3: string,
      o0: string, o1: string, o2: string, o3: string)
    requires NoNewline(r0) && NoNewline(r1) && NoNewline(r2) && NoNewline(r3)
    requires o0 == PrefixLine(prefix, Effective(pred), r0)
    requires o1 == PrefixLine(prefix, Effective(pred), r1)
    requires o2 == PrefixLine(prefix, Effective(pred), r2)
    requires o3 == PrefixLine(prefix, Effective(pred), r3)
    ensures Lines([r0, r1, r2, r3]) && |[o0, o1, o2, o3]| == |[r0, r1, r2, r3]|
    ensures forall i :: 0 <= i < |[r0, r1, r2, r3]| ==> [o0, o1, o2, o3][i] == PrefixLine(prefix, Effective(pred), [r0, r1, r2, r3][i])
  {
    var rows, out := [r0, r1, r2, r3], [o0, o1, o2, o3];
    forall i | 0 <= i < 4
      ensures NoNewline(rows[i]) && out[i] == PrefixLine(prefix, Effective(pred), rows[i])
    {
      if i == 0 { } else if i == 1 { } else if i == 2 { }
    }
  }

  lemma IndentedFour(prefix: string, pred: Option<PredicateFunc>,
      r0: string, r1: string, r2: string, r3: string,
      o0: string, o1: string, o2: string, o3: string)
    requires NoNewline(r0) && NoNewline(r1) && NoNewline(r2) && NoNewline(r3)
    requires o0 == PrefixLine(prefix, Effective(pred), r0)
    requires o1 == PrefixLine(prefix, Effective(pred), r1)
    requires o2 == PrefixLine(prefix, Effective(pred), r2)
    requires o3 == PrefixLine(prefix, Effective(pred), r3)
    ensures Indented(Join([r0, r1, r2, r3]), prefix, pred) == Join([o0, o1, o2, o3])
  {
    PrefixedFour(prefix, pred, r0, r1, r2, r3, o0, o1, o2, o3);
    IndentedByLines([r0, r1, r2, r3], prefix, pred, [o0, o1, o2, o3]);
  }

  lemma PrefixedFive(prefix: string, pred: Option<PredicateFunc>,
      r0: string, r1: string, r2: string, r3: string, r4: string,
      o0: string, o1: string, o2: string, o3: string, o4: string)
    requires NoNewline(r0) && NoNewline(r1) && NoNewline(r2) && NoNewline(r3) && NoNewline(r4)
    requires o0 == PrefixLine(prefix, Effective(pred), r0)
    requires o1 == PrefixLine(prefix, Effective(pred), r1)
    requires o2 == PrefixLine(prefix, Effective(pred), r2)
    requires o3 == PrefixLine(prefix, Effective(pred), r3)
    requires o4 == PrefixLine(prefix, Effective(pred), r4)
    ensures Lines([r0, r1, r2, r3, r4]) && |[o0, o1, o2, o3, o4]| == |[r0, r1, r2, r3, r4]|
    ensures forall i :: 0 <= i < |[r0, r1, r2, r3, r4]| ==> [o0, o1, o2, o3, o4][i] == PrefixLine(prefix, Effective(pred), [r0, r1, r2, r3, r4][i])
  {
    var rows, out := [r0, r1, r2, r3, r4], [o0, o1, o2, o3, o4];
    forall i | 0 <= i < 5
      ensures NoNewline(rows[i]) && out[i] == PrefixLine(prefix, Effective(pred), rows[i])
    {
      if i == 0 { } else if i == 1 { } else if i == 2 { } else if i == 3 { }
    }
  }

  lemma IndentedFive(prefix: string, pred: Option<PredicateFunc>,
      r0: string, r1: string, r2: string, r3: string, r4: string,
      o0: string, o1: string, o2: string, o3: string, o4: string)
    requires NoNewline(r0) && NoNewline(r1) && NoNewline(r2) && NoNewline(r3) && NoNewline(r4)
    requires o0 == PrefixLine(prefix, Effective(pred), r0)
    requires o1 == PrefixLine(prefix, Effective(pred), r1)
    requires o2 == PrefixLine(prefix, Effective(pred), r2)
    requires o3 == PrefixLine(prefix, Effective(pred), r3)
    requires o4 == PrefixLine(prefix, Effective(pred), r4)
    ensures Indented(Join([r0, r1, r2, r3, r4]), prefix, pred) == Join([o0, o1, o2, o3, o4])
  {
    PrefixedFive(prefix, pred, r0, r1, r2, r3, r4, o0, o1, o2, o3, o4);
    IndentedByLines([r0, r1, r2, r3, r4], prefix, pred, [o0, o1, o2, o3, o4]);
  }

  lemma PrefixedSeven(prefix: string, pred: Option<PredicateFunc>,
      r0: string, r1: string, r2: string, r3: string, r4: string, r5: string, r6: string,
      o0: string, o1: string, o2: string, o3: string, o4: string, o5: string, o6: string)
    requires NoNewline(r0) && NoNewline(r1) && NoNewline(r2) && NoNewline(r3) && NoNewline(r4) && NoNewline(r5) && NoNewline(r6)
    requires o0 == PrefixLine(prefix, Effective(pred), r0)
    requires o1 == PrefixLine(prefix, Effective(pred), r1)
    requires o2 == PrefixLine(prefix, Effective(pred), r2)
    requires o3 == PrefixLine(prefix, Effective(pred), r3)
    requires o4 == PrefixLine(prefix, Effective(pred), r4)
    requires o5 == PrefixLine(prefix, Effective(pred), r5)
    requires o6 == PrefixLine(prefix, Effective(pred), r6)
    ensures Lines([r0, r1, r2, r3, r4, r5, r6]) && |[o0, o1, o2, o3, o4, o5, o6]| == |[r0, r1, r2, r3, r4, r5, r6]|
    ensures forall i :: 0 <= i < |[r0, r1, r2, r3, r4, r5, r6]| ==> [o0, o1, o2, o3, o4, o5, o6][i] == PrefixLine(prefix, Effective(pred), [r0, r1, r2, r3, r4, r5, r6][i])
  {
    var rows, out := [r0, r1, r2, r3, r4, r5, r6], [o0, o1, o2, o3, o4, o5, o6];
    forall i | 0 <= i < 7
      ensures NoNewline(rows[i]) && out[i] == PrefixLine(prefix, Effective(pred), rows[i])
    {
      if i == 0 { } else if i == 1 { } else if i == 2 { } else if i == 3 { } else if i == 4 { } else if i == 5 { }
    }
  }

  lemma IndentedSeven(prefix: string, pred: Option<PredicateFunc>,
      r0: string, r1: string, r2: string, r3: string, r4: string, r5: string, r6: string,
      o0: string, o1: string, o2: string, o3: string, o4: string, o5: string, o6: string)
    requires NoNewline(r0) && NoNewline(r1) && NoNewline(r2) && NoNewline(r3) && NoNewline(r4) && NoNewline(r5) && NoNewline(r6)
    requires o0 == PrefixLine(prefix, Effective(pred), r0)
    requires o1 == PrefixLine(prefix, Effective(pred), r1)
    requires o2 == PrefixLine(prefix, Effective(pred), r2)
    requires o3 == PrefixLine(prefix, Effective(pred), r3)
    requires o4 == PrefixLine(prefix, Effective(pred), r4)
    requires o5 == PrefixLine(prefix, Effective(pred), r5)
    requires o6 == PrefixLine(prefix, Effective(pred), r6)
    ensures Indented(Join([r0, r1, r2, r3, r4, r5, r6]), prefix, pred) == Join([o0, o1, o2, o3, o4, o5, o6])
  {
    PrefixedSeven(prefix, pred, r0, r1, r2, r3, r4, r5, r6, o0, o1, o2, o3, o4, o5, o6);
    IndentedByLines([r0, r1, r2, r3, r4, r5, r6], prefix, pred, [o0, o1, o2, o3, o4, o5, o6]);
  }

  // ---------------------------------------------------------------------
  // TestIndentAllLines (indent_test.go): Any prefixes every line
  // ---------------------------------------------------------------------

  lemma IndentAnyBasicFirst(row: string, out: string)
    requires row == "Hi." && out == "  Hi."
    ensures NoNewline(row) && out == PrefixLine("  ", Effective(Some(Any)), row)
  {
  }

  lemma IndentAnyBasicSecond(row: string, out: string)
    requires row == "This is a test." && out == "  This is a test."
    ensures NoNewline(row) && out == PrefixLine("  ", Effective(Some(Any)), row)
  {
  }

  lemma IndentAnyBasicThird(row: string, out: string)
    requires row == "Testing." && out == "  Testing."
    ensures NoNewline(row) && out == PrefixLine("  ", Effective(Some(Any)), row)
  {
  }

  lemma IndentAnyBasicLines(r0: string, r1: string, r2: string,
      o0: string, o1: string, o2: string)
    requires r0 == "Hi." && o0 == "  Hi."
    requires r1 == "This is a test." && o1 == "  This is a test."
    requires r2 == "Testing." && o2 == "  Testing."
    ensures Indented(Join([r0, r1, r2]), "  ", Some(Any)) == Join([o0, o1, o2])
  {
    IndentAnyBasicFirst(r0, o0);
    IndentAnyBasicSecond(r1, o1);
    IndentAnyBasicThird(r2, o2);
    IndentedThree("  ", Some(Any), r0, r1, r2,
      o0, o1, o2);
  }

  /** Any, the basic case: "Hi.\nThis is a test.\nTesting." becomes "  Hi.\n  This is a test.\n  Testing.". */
  lemma IndentAnyBasic()
    ensures Indented(Join(["Hi.", "This is a test.", "Testing."]), "  ", Some(Any))
         == Join(["  Hi.", "  This is a test.", "  Testing."])
  {
    IndentAnyBasicLines("Hi.", "This is a test.", "Testing.",
      "  Hi.", "  This is a test.", "  Testing.");
  }

  lemma IndentAnyBlankFirst(row: string, out: string)
    requires row == "Hi." && out == "  Hi."
    ensures NoNewline(row) && out == PrefixLine("  ", Effective(Some(Any)), row)
  {
  }

  lemma IndentAnyBlankSecond(row: string, out: string)
    requires row == "This is a test." && out == "  This is a test."
    ensures NoNewline(row) && out == PrefixLine("  ", Effective(Some(Any)), row)
  {
  }

  lemma IndentAnyBlankThird(row: string, out: string)
    requires row == "" && out == "  "
    ensures NoNewline(row) && out == PrefixLine("  ", Effective(Some(Any)), row)
  {
  }

  lemma IndentAnyBlankFourth(row: string, out: string)
    requires row == "Testing." && out == "  Testing."
    ensures NoNewline(row) && out == PrefixLine("  ", Effective(Some(Any)), row)
  {
  }

  lemma IndentAnyBlankLines(r0: string, r1: string, r2: string, r3: string,
      o0: string, o1: string, o2: string, o3: string)
    requires r0 == "Hi." && o0 == "  Hi."
    requires r1 == "This is a test." && o1 == "  This is a test."
    requires r2 == "" && o2 == "  "
    requires r3 == "Testing." && o3 == "  Testing."
    ensures Indented(Join([r0, r1, r2, r3]), "  ", Some(Any)) == Join([o0, o1, o2, o3])
  {
    IndentAnyBlankFirst(r0, o0);
    IndentAnyBlankSecond(r1, o1);
    IndentAnyBlankThird(r2, o2);
    IndentAnyBlankFourth(r3, o3);
    IndentedFour("  ", Some(Any), r0, r1, r2, r3,
      o0, o1, o2, o3);
  }

  /** Any, with a blank line: "Hi.\nThis is a test.\n\nTesting." becomes "  Hi.\n  This is a test.\n  \n  Testing.". */
  lemma IndentAnyBlank()
    ensures Indented(Join(["Hi.", "This is a test.", "", "Testing."]), "  ", Some(Any))
         == Join(["  Hi.", "  This is a test.", "  ", "  Testing."])
  {
    IndentAnyBlankLines("Hi.", "This is a test.", "", "Testing.",
      "  Hi.", "  This is a test.", "  ", "  Testing.");
  }

  lemma IndentAnyEdgesFirst(row: string, out: string)
    requires row == "" && out == "  "
    ensures NoNewline(row) && out == PrefixLine("  ", Effective(Some(Any)), row)
  {
  }

  lemma IndentAnyEdgesSecond(row: string, out: string)
    requires row == "Hi." && out == "  Hi."
    ensures NoNewline(row) && out == PrefixLine("  ", Effective(Some(Any)), row)
  {
  }

  lemma IndentAnyEdgesThird(row: string, out: string)
    requires row == "This is a test." && out == "  This is a test."
    ensures NoNewline(row) && out == PrefixLine("  ", Effective(Some(Any)), row)
  {
  }

  lemma IndentAnyEdgesFourth(row: string, out: string)
    requires row == "Testing." && out == "  Testing."
    ensures NoNewline(row) && out == PrefixLine("  ", Effective(Some(Any)), row)
  {
  }

  lemma IndentAnyEdgesFifth(row: string, out: string)
    requires row == "" && out == "  "
    ensures NoNewline(row) && out == PrefixLine("  ", Effective(Some(Any)), row)
  {
  }

  lemma IndentAnyEdgesLines(r0: string, r1: string, r2: string, r3: string, r4: string,
      o0: string, o1: string, o2: string, o3: string, o4: string)
    requires r0 == "" && o0 == "  "
    requires r1 == "Hi." && o1 == "  Hi."
    requires r2 == "This is a test." && o2 == "  This is a test."
    requires r3 == "Testing." && o3 == "  Testing."
    requires r4 == "" && o4 == "  "
    ensures Indented(Join([r0, r1, r2, r3, r4]), "  ", Some(Any)) == Join([o0, o1, o2, o3, o4])
  {
    IndentAnyEdgesFirst(r0, o0);
    IndentAnyEdgesSecond(r1, o1);
    IndentAnyEdgesThird(r2, o2);
    IndentAnyEdgesFourth(r3, o3);
    IndentAnyEdgesFifth(r4, o4);
    IndentedFive("  ", Some(Any), r0, r1, r2, r3, r4,
      o0, o1, o2, o3, o4);
  }

  /** Any, with leading and trailing blank lines: "\nHi.\nThis is a test.\nTesting.\n" becomes "  \n  Hi.\n  This is a test.\n  Testing.\n  ". */
  lemma IndentAnyEdges()
    ensures Indented(Join(["", "Hi.", "This is a test.", "Testing.", ""]), "  ", Some(Any))
         == Join(["  ", "  Hi.", "  This is a test.", "  Testing.", "  "])
  {
    IndentAnyEdgesLines("", "Hi.", "This is a test.", "Testing.", "",
      "  ", "  Hi.", "  This is a test.", "  Testing.", "  ");
  }

  lemma IndentAnyWindowsFirst(row: string, out: string)
    requires row == "Hi.\r" && out == "  Hi.\r"
    ensures NoNewline(row) && out == PrefixLine("  ", Effective(Some(Any)), row)
  {
  }

  lemma IndentAnyWindowsSecond(row: string, out: string)
    requires row == "This is a test.\r" && out == "  This is a test.\r"
    ensures NoNewline(row) && out == PrefixLine("  ", Effective(Some(Any)), row)
  {
  }

  lemma IndentAnyWindowsThird(row: string, out: string)
    requires row == "Testing.\r" && out == "  Testing.\r"
    ensures NoNewline(row) && out == PrefixLine("  ", Effective(Some(Any)), row)
  {
  }

  lemma IndentAnyWindowsFourth(row: string, out: string)
    requires row == "" && out == "  "
    ensures NoNewline(row) && out == PrefixLine("  ", Effective(Some(Any)), row)
  {
  }

  lemma IndentAnyWindowsLines(r0: string, r1: string, r2: string, r3: string,
      o0: string, o1: string, o2: string, o3: string)
    requires r0 == "Hi.\r" && o0 == "  Hi.\r"
    requires r1 == "This is a test.\r" && o1 == "  This is a test.\r"
    requires r2 == "Testing.\r" && o2 == "  Testing.\r"
    requires r3 == "" && o3 == "  "
    ensures Indented(Join([r0, r1, r2, r3]), "  ", Some(Any)) == Join([o0, o1, o2, o3])
  {
    IndentAnyWindowsFirst(r0, o0);
    IndentAnyWindowsSecond(r1, o1);
    IndentAnyWindowsThird(r2, o2);
    IndentAnyWindowsFourth(r3, o3);
    IndentedFour("  ", Some(Any), r0, r1, r2, r3,
      o0, o1, o2, o3);
  }

  /** Any, with Windows line endings: "Hi.\r\nThis is a test.\r\nTesting.\r\n" becomes "  Hi.\r\n  This is a test.\r\n  Testing.\r\n  ". */
  lemma IndentAnyWindows()
    ensures Indented(Join(["Hi.\r", "This is a test.\r", "Testing.\r", ""]), "  ", Some(Any))
         == Join(["  Hi.\r", "  This is a test.\r", "  Testing.\r", "  "])
  {
    IndentAnyWindowsLines("Hi.\r", "This is a test.\r", "Testing.\r", "",
      "  Hi.\r", "  This is a test.\r", "  Testing.\r", "  ");
  }

  lemma IndentAnyPathologicalFirst(row: string, out: string)
    requires row == "" && out == "  "
    ensures NoNewline(row) && out == PrefixLine("  ", Effective(Some(Any)), row)
  {
  }

  lemma IndentAnyPathologicalSecond(row: string, out: string)
    requires row == "Hi.\r" && out == "  Hi.\r"
    ensures NoNewline(row) && out == PrefixLine("  ", Effective(Some(Any)), row)
  {
  }

  lemma IndentAnyPathologicalThird(row: string, out: string)
    requires row == "This is a test." && out == "  This is a test."
    ensures NoNewline(row) && out == PrefixLine("  ", Effective(Some(Any)), row)
  {
  }

  lemma IndentAnyPathologicalFourth(row: string, out: string)
    requires row == "\r" && out == "  \r"
    ensures NoNewline(row) && out == PrefixLine("  ", Effective(Some(Any)), row)
  {
  }

  lemma IndentAnyPathologicalFifth(row: string, out: string)
    requires row == "Testing.\r" && out == "  Testing.\r"
    ensures NoNewline(row) && out == PrefixLine("  ", Effective(Some(Any)), row)
  {
  }

  lemma IndentAnyPathologicalSixth(row: string, out: string)
    requires row == "" && out == "  "
    ensures NoNewline(row) && out == PrefixLine("  ", Effective(Some(Any)), row)
  {
  }

  lemma IndentAnyPathologicalSeventh(row: string, out: string)
    requires row == "" && out == "  "
    ensures NoNewline(row) && out == PrefixLine("  ", Effective(Some(Any)), row)
  {
  }

  lemma IndentAnyPathologicalLines(r0: string, r1: string, r2: string, r3: string, r4: string, r5: string, r6: string,
      o0: string, o1: string, o2: string, o3: string, o4: string, o5: string, o6: string)
    requires r0 == "" && o0 == "  "
    requires r1 == "Hi.\r" && o1 == "  Hi.\r"
    requires r2 == "This is a test." && o2 == "  This is a test."
    requires r3 == "\r" && o3 == "  \r"
    requires r4 == "Testing.\r" && o4 == "  Testing.\r"
    requires r5 == "" && o5 == "  "
    requires r6 == "" && o6 == "  "
    ensures Indented(Join([r0, r1, r2, r3, r4, r5, r6]), "  ", Some(Any)) == Join([o0, o1, o2, o3, o4, o5, o6])
  {
    IndentAnyPathologicalFirst(r0, o0);
    IndentAnyPathologicalSecond(r1, o1);
    IndentAnyPathologicalThird(r2, o2);
    IndentAnyPathologicalFourth(r3, o3);
    IndentAnyPathologicalFifth(r4, o4);
    IndentAnyPathologicalSixth(r5, o5);
    IndentAnyPathologicalSeventh(r6, o6);
    IndentedSeven("  ", Some(Any), r0, r1, r2, r3, r4, r5, r6,
      o0, o1, o2, o3, o4, o5, o6);
  }

  /** Any, the pathological case: "\nHi.\r\nThis is a test.\n\r\nTesting.\r\n\n" becomes "  \n  Hi.\r\n  This is a test.\n  \r\n  Testing.\r\n  \n  ". */
  lemma IndentAnyPathological()
    ensures Indented(Join(["", "Hi.\r", "This is a test.", "\r", "Testing.\r", "", ""]), "  ", Some(Any))
         == Join(["  ", "  Hi.\r", "  This is a test.", "  \r", "  Testing.\r", "  ", "  "])
  {
    IndentAnyPathologicalLines("", "Hi.\r", "This is a test.", "\r", "Testing.\r", "", "",
      "  ", "  Hi.\r", "  This is a test.", "  \r", "  Testing.\r", "  ", "  ");
  }

  // ---------------------------------------------------------------------
  // TestIndentEmptyLines (indent_test.go): only the white-space lines
  // ---------------------------------------------------------------------

  lemma IndentBlankBasicFirst(row: string, out: string)
    requires row == "Hi." && out == "Hi."
    ensures NoNewline(row) && out == PrefixLine("  ", Effective(Some(IsBlank)), row)
  {
    assert !IsWhiteSpace(row[0]);
  }

  lemma IndentBlankBasicSecond(row: string, out: string)
    requires row == "This is a test." && out == "This is a test."
    ensures NoNewline(row) && out == PrefixLine("  ", Effective(Some(IsBlank)), row)
  {
    assert !IsWhiteSpace(row[0]);
  }

  lemma IndentBlankBasicThird(row: string, out: string)
    requires row == "Testing." && out == "Testing."
    ensures NoNewline(row) && out == PrefixLine("  ", Effective(Some(IsBlank)), row)
  {
    assert !IsWhiteSpace(row[0]);
  }

  lemma IndentBlankBasicLines(r0: string, r1: string, r2: string,
      o0: string, o1: string, o2: string)
    requires r0 == "Hi." && o0 == "Hi."
    requires r1 == "This is a test." && o1 == "This is a test."
    requires r2 == "Testing." && o2 == "Testing."
    ensures Indented(Join([r0, r1, r2]), "  ", Some(IsBlank)) == Join([o0, o1, o2])
  {
    IndentBlankBasicFirst(r0, o0);
    IndentBlankBasicSecond(r1, o1);
    IndentBlankBasicThird(r2, o2);
    IndentedThree("  ", Some(IsBlank), r0, r1, r2,
      o0, o1, o2);
  }

  /** IsBlank, the basic case: "Hi.\nThis is a test.\nTesting." becomes "Hi.\nThis is a test.\nTesting.". */
  lemma IndentBlankBasic()
    ensures Indented(Join(["Hi.", "This is a test.", "Testing."]), "  ", Some(IsBlank))
         == Join(["Hi.", "This is a test.", "Testing."])
  {
    IndentBlankBasicLines("Hi.", "This is a test.", "Testing.",
      "Hi.", "This is a test.", "Testing.");
  }

  lemma IndentBlankBlankFirst(row: string, out: string)
    requires row == "Hi." && out == "Hi."
    ensures NoNewline(row) && out == PrefixLine("  ", Effective(Some(IsBlank)), row)
  {
    assert !IsWhiteSpace(row[0]);
  }

  lemma IndentBlankBlankSecond(row: string, out: string)
    requires row == "This is a test." && out == "This is a test."
    ensures NoNewline(row) && out == PrefixLine("  ", Effective(Some(IsBlank)), row)
  {
    assert !IsWhiteSpace(row[0]);
  }

  lemma IndentBlankBlankThird(row: string, out: string)
    requires row == "" && out == "  "
    ensures NoNewline(row) && out == PrefixLine("  ", Effective(Some(IsBlank)), row)
  {
  }

  lemma IndentBlankBlankFourth(row: string, out: string)
    requires row == "Testing." && out == "Testing."
    ensures NoNewline(row) && out == PrefixLine("  ", Effective(Some(IsBlank)), row)
  {
    assert !IsWhiteSpace(row[0]);
  }

  lemma IndentBlankBlankLines(r0: string, r1: string, r2: string, r3: string,
      o0: string, o1: string, o2: string, o3: string)
    requires r0 == "Hi." && o0 == "Hi."
    requires r1 == "This is a test." && o1 == "This is a test."
    requires r2 == "" && o2 == "  "
    requires r3 == "Testing." && o3 == "Testing."
    ensures Indented(Join([r0, r1, r2, r3]), "  ", Some(IsBlank)) == Join([o0, o1, o2, o3])
  {
    IndentBlankBlankFirst(r0, o0);
    IndentBlankBlankSecond(r1, o1);
    IndentBlankBlankThird(r2, o2);
    IndentBlankBlankFourth(r3, o3);
    IndentedFour("  ", Some(IsBlank), r0, r1, r2, r3,
      o0, o1, o2, o3);
  }

  /** IsBlank, with a blank line: "Hi.\nThis is a test.\n\nTesting." becomes "Hi.\nThis is a test.\n  \nTesting.". */
  lemma IndentBlankBlank()
    ensures Indented(Join(["Hi.", "This is a test.", "", "Testing."]), "  ", Some(IsBlank))
         == Join(["Hi.", "This is a test.", "  ", "Testing."])
  {
    IndentBlankBlankLines("Hi.", "This is a test.", "", "Testing.",
      "Hi.", "This is a test.", "  ", "Testing.");
  }

  lemma IndentBlankEdgesFirst(row: string, out: string)
    requires row == "" && out == "  "
    ensures NoNewline(row) && out == PrefixLine("  ", Effective(Some(IsBlank)), row)
  {
  }

  lemma IndentBlankEdgesSecond(row: string, out: string)
    requires row == "Hi." && out == "Hi."
    ensures NoNewline(row) && out == PrefixLine("  ", Effective(Some(IsBlank)), row)
  {
    assert !IsWhiteSpace(row[0]);
  }

  lemma IndentBlankEdgesThird(row: string, out: string)
    requires row == "This is a test." && out == "This is a test."
    ensures NoNewline(row) && out == PrefixLine("  ", Effective(Some(IsBlank)), row)
  {
    assert !IsWhiteSpace(row[0]);
  }

  lemma IndentBlankEdgesFourth(row: string, out: string)
    requires row == "Testing." && out == "Testing."
    ensures NoNewline(row) && out == PrefixLine("  ", Effective(Some(IsBlank)), row)
  {
    assert !IsWhiteSpace(row[0]);
  }

  lemma IndentBlankEdgesFifth(row: string, out: string)
    requires row == "" && out == "  "
    ensures NoNewline(row) && out == PrefixLine("  ", Effective(Some(IsBlank)), row)
  {
  }

  lemma IndentBlankEdgesLines(r0: string, r1: string, r2: string, r3: string, r4: string,
      o0: string, o1: string, o2: string, o3: string, o4: string)
    requires r0 == "" && o0 == "  "
    requires r1 == "Hi." && o1 == "Hi."
    requires r2 == "This is a test." && o2 == "This is a test."
    requires r3 == "Testing." && o3 == "Testing."
    requires r4 == "" && o4 == "  "
    ensures Indented(Join([r0, r1, r2, r3, r4]), "  ", Some(IsBlank)) == Join([o0, o1, o2, o3, o4])
  {
    IndentBlankEdgesFirst(r0, o0);
    IndentBlankEdgesSecond(r1, o1);
    IndentBlankEdgesThird(r2, o2);
    IndentBlankEdgesFourth(r3, o3);
    IndentBlankEdgesFifth(r4, o4);
    IndentedFive("  ", Some(IsBlank), r0, r1, r2, r3, r4,
      o0, o1, o2, o3, o4);
  }

  /** IsBlank, with leading and trailing blank lines: "\nHi.\nThis is a test.\nTesting.\n" becomes "  \nHi.\nThis is a test.\nTesting.\n  ". */
  lemma IndentBlankEdges()
    ensures Indented(Join(["", "Hi.", "This is a test.", "Testing.", ""]), "  ", Some(IsBlank))
         == Join(["  ", "Hi.", "This is a test.", "Testing.", "  "])
  {
    IndentBlankEdgesLines("", "Hi.", "This is a test.", "Testing.", "",
      "  ", "Hi.", "This is a test.", "Testing.", "  ");
  }

  lemma IndentBlankWindowsFirst(row: string, out: string)
    requires row == "Hi.\r" && out == "Hi.\r"
    ensures NoNewline(row) && out == PrefixLine("  ", Effective(Some(IsBlank)), row)
  {
    assert !IsWhiteSpace(row[0]);
  }

  lemma IndentBlankWindowsSecond(row: string, out: string)
    requires row == "This is a test.\r" && out == "This is a test.\r"
    ensures NoNewline(row) && out == PrefixLine("  ", Effective(Some(IsBlank)), row)
  {
    assert !IsWhiteSpace(row[0]);
  }

  lemma IndentBlankWindowsThird(row: string, out: string)
    requires row == "Testing.\r" && out == "Testing.\r"
    ensures NoNewline(row) && out == PrefixLine("  ", Effective(Some(IsBlank)), row)
  {
    assert !IsWhiteSpace(row[0]);
  }

  lemma IndentBlankWindowsFourth(row: string, out: string)
    requires row == "" && out == "  "
    ensures NoNewline(row) && out == PrefixLine("  ", Effective(Some(IsBlank)), row)
  {
  }

  lemma IndentBlankWindowsLines(r0: string, r1: string, r2: string, r3: string,
      o0: string, o1: string, o2: string, o3: string)
    requires r0 == "Hi.\r" && o0 == "Hi.\r"
    requires r1 == "This is a test.\r" && o1 == "This is a test.\r"
    requires r2 == "Testing.\r" && o2 == "Testing.\r"
    requires r3 == "" && o3 == "  "
    ensures Indented(Join([r0, r1, r2, r3]), "  ", Some(IsBlank)) == Join([o0, o1, o2, o3])
  {
    IndentBlankWindowsFirst(r0, o0);
    IndentBlankWindowsSecond(r1, o1);
    IndentBlankWindowsThird(r2, o2);
    IndentBlankWindowsFourth(r3, o3);
    IndentedFour("  ", Some(IsBlank), r0, r1, r2, r3,
      o0, o1, o2, o3);
  }

  /** IsBlank, with Windows line endings: "Hi.\r\nThis is a test.\r\nTesting.\r\n" becomes "Hi.\r\nThis is a test.\r\nTesting.\r\n  ". */
  lemma IndentBlankWindows()
    ensures Indented(Join(["Hi.\r", "This is a test.\r", "Testing.\r", ""]), "  ", Some(IsBlank))
         == Join(["Hi.\r", "This is a test.\r", "Testing.\r", "  "])
  {
    IndentBlankWindowsLines("Hi.\r", "This is a test.\r", "Testing.\r", "",
      "Hi.\r", "This is a test.\r", "Testing.\r", "  ");
  }

  lemma IndentBlankPathologicalFirst(row: string, out: string)
    requires row == "" && out == "  "
    ensures NoNewline(row) && out == PrefixLine("  ", Effective(Some(IsBlank)), row)
  {
  }

  lemma IndentBlankPathologicalSecond(row: string, out: string)
    requires row == "Hi.\r" && out == "Hi.\r"
    ensures NoNewline(row) && out == PrefixLine("  ", Effective(Some(IsBlank)), row)
  {
    assert !IsWhiteSpace(row[0]);
  }

  lemma IndentBlankPathologicalThird(row: string, out: string)
    requires row == "This is a test." && out == "This is a test."
    ensures NoNewline(row) && out == PrefixLine("  ", Effective(Some(IsBlank)), row)
  {
    assert !IsWhiteSpace(row[0]);
  }

  lemma IndentBlankPathologicalFourth(row: string, out: string)
    requires row == "\r" && out == "  \r"
    ensures NoNewline(row) && out == PrefixLine("  ", Effective(Some(IsBlank)), row)
  {
  }

  lemma IndentBlankPathologicalFifth(row: string, out: string)
    requires row == "Testing.\r" && out == "Testing.\r"
    ensures NoNewline(row) && out == PrefixLine("  ", Effective(Some(IsBlank)), row)
  {
    assert !IsWhiteSpace(row[0]);
  }

  lemma IndentBlankPathologicalSixth(row: string, out: string)
    requires row == "" && out == "  "
    ensures NoNewline(row) && out == PrefixLine("  ", Effective(Some(IsBlank)), row)
  {
  }

  lemma IndentBlankPathologicalSeventh(row: string, out: string)
    requires row == "" && out == "  "
    ensures NoNewline(row) && out == PrefixLine("  ", Effective(Some(IsBlank)), row)
  {
  }

  lemma IndentBlankPathologicalLines(r0: string, r1: string, r2: string, r3: string, r4: string, r5: string, r6: string,
      o0: string, o1: string, o2: string, o3: string, o4: string, o5: string, o6: string)
    requires r0 == "" && o0 == "  "
    requires r1 == "Hi.\r" && o1 == "Hi.\r"
    requires r2 == "This is a test." && o2 == "This is a test."
    requires r3 == "\r" && o3 == "  \r"
    requires r4 == "Testing.\r" && o4 == "Testing.\r"
    requires r5 == "" && o5 == "  "
    requires r6 == "" && o6 == "  "
    ensures Indented(Join([r0, r1, r2, r3, r4, r5, r6]), "  ", Some(IsBlank)) == Join([o0, o1, o2, o3, o4, o5, o6])
  {
    IndentBlankPathologicalFirst(r0, o0);
    IndentBlankPathologicalSecond(r1, o1);
    IndentBlankPathologicalThird(r2, o2);
    IndentBlankPathologicalFourth(r3, o3);
    IndentBlankPathologicalFifth(r4, o4);
    IndentBlankPathologicalSixth(r5, o5);
    IndentBlankPathologicalSeventh(r6, o6);
    IndentedSeven("  ", Some(IsBlank), r0, r1, r2, r3, r4, r5, r6,
      o0, o1, o2, o3, o4, o5, o6);
  }

  /** IsBlank, the pathological case: "\nHi.\r\nThis is a test.\n\r\nTesting.\r\n\n" becomes "  \nHi.\r\nThis is a test.\n  \r\nTesting.\r\n  \n  ". */
  lemma IndentBlankPathological()
    ensures Indented(Join(["", "Hi.\r", "This is a test.", "\r", "Testing.\r", "", ""]), "  ", Some(IsBlank))
         == Join(["  ", "Hi.\r", "This is a test.", "  \r", "Testing.\r", "  ", "  "])
  {
    IndentBlankPathologicalLines("", "Hi.\r", "This is a test.", "\r", "Testing.\r", "", "",
      "  ", "Hi.\r", "This is a test.", "  \r", "Testing.\r", "  ", "  ");
  }

  // ---------------------------------------------------------------------
  // The nil predicate skips blank lines
  // ---------------------------------------------------------------------

  lemma IndentNilSkipsBlankFirst(row: string, out: string)
    requires row == "A" && out == "  A"
    ensures NoNewline(row) && out == PrefixLine("  ", Effective(Nil), row)
  {
    assert !IsWhiteSpace(row[0]);
  }

  lemma IndentNilSkipsBlankSecond(row: string, out: string)
    requires row == "" && out == ""
    ensures NoNewline(row) && out == PrefixLine("  ", Effective(Nil), row)
  {
  }

  lemma IndentNilSkipsBlankThird(row: string, out: string)
    requires row == "B" && out == "  B"
    ensures NoNewline(row) && out == PrefixLine("  ", Effective(Nil), row)
  {
    assert !IsWhiteSpace(row[0]);
  }

  lemma IndentNilSkipsBlankLines(r0: string, r1: string, r2: string,
      o0: string, o1: string, o2: string)
    requires r0 == "A" && o0 == "  A"
    requires r1 == "" && o1 == ""
    requires r2 == "B" && o2 == "  B"
    ensures Indented(Join([r0, r1, r2]), "  ", Nil) == Join([o0, o1, o2])
  {
    IndentNilSkipsBlankFirst(r0, o0);
    IndentNilSkipsBlankSecond(r1, o1);
    IndentNilSkipsBlankThird(r2, o2);
    IndentedThree("  ", Nil, r0, r1, r2,
      o0, o1, o2);
  }

  /** The nil predicate leaves the empty line alone: "A\n\nB" becomes
      "  A\n\n  B". */
  lemma IndentNilSkipsBlank()
    ensures Indented(Join(["A", "", "B"]), "  ", Nil)
         == Join(["  A", "", "  B"])
  {
    IndentNilSkipsBlankLines("A", "", "B",
      "  A", "", "  B");
  }
}
