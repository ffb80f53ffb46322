/** The round trips of indent_test.go: Dedent(Indent(text, prefix, nil))
    gives each of the three round-trip texts back, for the prefixes "    ",
    "\t\t" and " \t  \t ". Each text is written as the lines it joins. */
module RoundTripExamples {
  import opened Wrappers
  import opened Strings
  import opened Textwrap
  import opened Indentation
  import opened RoundTrip

  /** A single row that is empty or starts with a character other than
      white space. */
  predicate FlushRow(row: string) {
    FlushLeft([row])
  }

  /** The shape DedentUndoesIndent asks of a text, from its lines. */
  lemma RoundTripByLines(rows: seq<string>, prefix: string)
    requires prefix != "" && AllSpace(prefix)
    requires Lines(rows) && FlushLeft(rows) && MixedStarts(rows)
    ensures Dedented(Indented(Join(rows), prefix, Nil)) == Join(rows)
  {
    SplitJoin(rows);
    DedentUndoesIndent(Join(rows), prefix);
  }

  lemma BasicRows(r0: string, r1: string, r2: string)
    requires r0 == "Hi." && r1 == "This is a test." && r2 == "Testing."
    ensures Lines([r0, r1, r2]) && FlushLeft([r0, r1, r2]) && MixedStarts([r0, r1, r2])
  {
    var rows := [r0, r1, r2];
    assert NoNewline(r0) && NoNewline(r1) && NoNewline(r2);
    assert FlushRow(r0) && FlushRow(r1) && FlushRow(r2);
    forall i | 0 <= i < 3
      ensures NoNewline(rows[i]) && FlushRow(rows[i])
    {
      if i == 0 { } else if i == 1 { }
    }
    assert rows[0][0] != rows[1][0];
  }

  lemma WithBlankLineRows(r0: string, r1: string, r2: string, r3: string)
    requires r0 == "Hi." && r1 == "This is a test." && r2 == "" && r3 == "Testing."
    ensures Lines([r0, r1, r2, r3]) && FlushLeft([r0, r1, r2, r3])
    ensures MixedStarts([r0, r1, r2, r3])
  {
    var rows := [r0, r1, r2, r3];
    assert NoNewline(r0) && NoNewline(r1) && NoNewline(r3);
    assert FlushRow(r0) && FlushRow(r1) && FlushRow(r3);
    forall i | 0 <= i < 4
      ensures NoNewline(rows[i]) && FlushRow(rows[i])
    {
      if i == 0 { } else if i == 1 { } else if i == 2 { }
    }
    assert rows[0][0] != rows[1][0];
  }

  lemma EdgesRows(r0: string, r1: string, r2: string, r3: string, r4: string)
    requires r0 == "" && r1 == "Hi." && r2 == "This is a test." && r3 == "Testing." && r4 == ""
    ensures Lines([r0, r1, r2, r3, r4]) && FlushLeft([r0, r1, r2, r3, r4])
    ensures MixedStarts([r0, r1, r2, r3, r4])
  {
    var rows := [r0, r1, r2, r3, r4];
    assert NoNewline(r1) && NoNewline(r2) && NoNewline(r3);
    assert FlushRow(r1) && FlushRow(r2) && FlushRow(r3);
    forall i | 0 <= i < 5
      ensures NoNewline(rows[i]) && FlushRow(rows[i])
    {
      if i == 0 { } else if i == 1 { } else if i == 2 { } else if i == 3 { }
    }
    assert rows[1][0] != rows[2][0];
  }

  /** Dedent undoes Indent on the three round-trip texts, for any prefix of
      spaces and tabs. */
  lemma RoundTripCases(prefix: string)
    requires prefix != "" && AllSpace(prefix)
    ensures Dedented(Indented(Join(["Hi.", "This is a test.", "Testing."]), prefix, Nil))
         == Join(["Hi.", "This is a test.", "Testing."])
    ensures Dedented(Indented(Join(["Hi.", "This is a test.", "", "Testing."]), prefix, Nil))
         == Join(["Hi.", "This is a test.", "", "Testing."])
    ensures Dedented(Indented(Join(["", "Hi.", "This is a test.", "Testing.", ""]), prefix, Nil))
         == Join(["", "Hi.", "This is a test.", "Testing.", ""])
  {
    BasicRows("Hi.", "This is a test.", "Testing.");
    RoundTripByLines(["Hi.", "This is a test.", "Testing."], prefix);
    WithBlankLineRows("Hi.", "This is a test.", "", "Testing.");
    RoundTripByLines(["Hi.", "This is a test.", "", "Testing."], prefix);
    EdgesRows("", "Hi.", "This is a test.", "Testing.", "");
    RoundTripByLines(["", "Hi.", "This is a test.", "Testing.", ""], prefix);
  }

  /** TestIndentRoundtripSpaces: the prefix "    ". */
  lemma IndentRoundtripSpaces()
    ensures Dedented(Indented(Join(["Hi.", "This is a test.", "Testing."]), "    ", Nil))
         == Join(["Hi.", "This is a test.", "Testing."])
    ensures Dedented(Indented(Join(["Hi.", "This is a test.", "", "Testing."]), "    ", Nil))
         == Join(["Hi.", "This is a test.", "", "Testing."])
    ensures Dedented(Indented(Join(["", "Hi.", "This is a test.", "Testing.", ""]), "    ", Nil))
         == Join(["", "Hi.", "This is a test.", "Testing.", ""])
  {
    RoundTripCases("    ");
  }

  /** TestIndentRoundtripTabs: the prefix "\t\t". */
  lemma IndentRoundtripTabs()
    ensures Dedented(Indented(Join(["Hi.", "This is a test.", "Testing."]), "\t\t", Nil))
         == Join(["Hi.", "This is a test.", "Testing."])
    ensures Dedented(Indented(Join(["Hi.", "This is a test.", "", "Testing."]), "\t\t", Nil))
         == Join(["Hi.", "This is a test.", "", "Testing."])
    ensures Dedented(Indented(Join(["", "Hi.", "This is a test.", "Testing.", ""]), "\t\t", Nil))
         == Join(["", "Hi.", "This is a test.", "Testing.", ""])
  {
    RoundTripCases("\t\t");
  }

  /** TestIndentRoundtripMixed: the prefix " \t  \t ". */
  lemma IndentRoundtripMixed()
    ensures Dedented(Indented(Join(["Hi.", "This is a test.", "Testing."]), " \t  \t ", Nil))
         == Join(["Hi.", "This is a test.", "Testing."])
    ensures Dedented(Indented(Join(["Hi.", "This is a test.", "", "Testing."]), " \t  \t ", Nil))
         == Join(["Hi.", "This is a test.", "", "Testing."])
    ensures Dedented(Indented(Join(["", "Hi.", "This is a test.", "Testing.", ""]), " \t  \t ", Nil))
         == Join(["", "Hi.", "This is a test.", "Testing.", ""])
  {
    RoundTripCases(" \t  \t ");
  }
}
