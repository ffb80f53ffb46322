/** The inputs that show where Dedent departs from its documentation, run
    through the corrected Dedent: each comes back as it was. */
module DedentIntendedExamples {
  import opened Wrappers
  import opened Strings
  import opened Textwrap
  import opened Indentation
  import opened RoundTrip
  import opened DedentIntended

  lemma HelloIsFlushLeft(t: string)
    requires t == "Hello"
    ensures FlushLeft(Split(t))
  {
    assert NoNewline(t);
    SplitLine(t);
    assert !IsWhiteSpace(t[0]);
  }

  /** A single line keeps its first letter: "Hello" stays "Hello". */
  lemma IntendedKeepsHello()
    ensures IntendedDedented("Hello") == "Hello"
  {
    HelloIsFlushLeft("Hello");
    IntendedKeepsFlushLeft("Hello");
  }

  lemma UnsharedRows(r0: string, r1: string, r2: string)
    requires r0 == "  a" && r1 == "\tb" && r2 == "  c"
    ensures Lines([r0, r1, r2])
    ensures HasText(r0) && HasText(r1) && r0[0] != r1[0]
  {
    var rows := [r0, r1, r2];
    assert NoNewline(r0) && NoNewline(r1) && NoNewline(r2);
    forall i | 0 <= i < 3
      ensures NoNewline(rows[i])
    {
      if i == 0 { } else if i == 1 { }
    }
    assert !IsSpace(r0[2]) && !IsSpace(r1[1]);
    HasTextOfLine(r0);
    HasTextOfLine(r1);
  }

  /** Lines indented by spaces and by a tab share no margin, and the last
      line keeps its indentation and its text. */
  lemma IntendedKeepsUnsharedLines()
    ensures IntendedDedented(Join(["  a", "\tb", "  c"])) == Join(["  a", "\tb", "  c"])
  {
    var rows := ["  a", "\tb", "  c"];
    UnsharedRows(rows[0], rows[1], rows[2]);
    SplitJoin(rows);
    IntendedKeepsUnsharedStart(Join(rows), 0, 1);
  }

  lemma SameStartRows(r0: string, r1: string)
    requires r0 == "Hi." && r1 == "Hello."
    ensures Lines([r0, r1]) && FlushLeft([r0, r1])
    ensures AllStartWith([r0, r1], 2, 'H')
  {
    var rows := [r0, r1];
    assert NoNewline(r0) && NoNewline(r1);
    assert !IsWhiteSpace(r0[0]) && !IsWhiteSpace(r1[0]);
    forall i | 0 <= i < 2
      ensures NoNewline(rows[i]) && (rows[i] == "" || !IsWhiteSpace(rows[i][0]))
    {
      if i == 0 { }
    }
  }

  /** Two lines that both start with "H": indented by four spaces, Dedent as
      written loses the "H" of each, while the corrected Dedent gives the
      text back. */
  lemma SameStartRoundTrip()
    ensures Dedented(Indented(Join(["Hi.", "Hello."]), "    ", Nil)) != Join(["Hi.", "Hello."])
    ensures IntendedDedented(Indented(Join(["Hi.", "Hello."]), "    ", Nil)) == Join(["Hi.", "Hello."])
  {
    var rows := ["Hi.", "Hello."];
    SameStartRows(rows[0], rows[1]);
    SplitJoin(rows);
    assert Split(Join(rows))[0] != "";
    SameStartBreaksRoundTrip(Join(rows), "    ", 'H');
    IntendedUndoesIndent(Join(rows), "    ");
  }
}
