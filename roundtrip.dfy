/** Dedent after Indent with the nil predicate and a prefix of spaces and
    tabs, on texts whose non-empty lines are flush left. The round trip
    gives the text back when two non-empty lines start with different
    characters, and fails when there is a non-empty line and all of them
    start with the same character: because the margin candidate includes
    the first character after the indentation, such a text loses that
    character too. Both are sufficient conditions; texts that are not flush
    left are not covered. */
module RoundTrip {
  import opened Wrappers
  import opened Strings
  import opened Textwrap
  import opened Indentation

  /** Every line is empty or starts with a character that is not white
      space. */
  predicate FlushLeft(rows: seq<string>) {
    forall i :: 0 <= i < |rows| && rows[i] != "" ==> !IsWhiteSpace(rows[i][0])
  }

  /** Two non-empty lines among the first `n` start with different
      characters. */
  predicate MixedStartsBefore(rows: seq<string>, n: int)
    requires n <= |rows|
  {
    exists i, j :: 0 <= i < n && 0 <= j < n && rows[i] != "" && rows[j] != ""
      && rows[i][0] != rows[j][0]
  }

  /** Two non-empty lines start with different characters. */
  predicate MixedStarts(rows: seq<string>) {
    MixedStartsBefore(rows, |rows|)
  }

  /** Every non-empty line starts with `c`. */
  predicate AllStartWith(rows: seq<string>, n: int, c: char)
    requires n <= |rows|
  {
    forall i :: 0 <= i < n && rows[i] != "" ==> rows[i][0] == c
  }

  /** The lines with `prefix` put in front of the non-empty ones. */
  function Shifted(rows: seq<string>, prefix: string): seq<string> {
    seq(|rows|, i requires 0 <= i < |rows| => if rows[i] == "" then "" else prefix + rows[i])
  }

  /** What the margin register can hold after `n` shifted lines: nothing yet
      (all lines so far empty), the prefix, or the prefix plus the first
      character that all non-empty lines so far share. */
  predicate RegisterAfterShift(rows: seq<string>, prefix: string, n: int, m: string)
    requires n <= |rows|
  {
    || (m == "" && forall i :: 0 <= i < n ==> rows[i] == "")
    || (m == prefix && MixedStartsBefore(rows, n))
    || (&& |m| == |prefix| + 1 && m[..|prefix|] == prefix && AllStartWith(rows, n, m[|prefix|])
        && exists k :: 0 <= k < n && rows[k] != "")
  }

  /** The match of leadSpaceRe in a flush-left line behind the prefix: the
      prefix and the line's first character. */
  lemma ShiftedMatch(prefix: string, line: string)
    requires AllSpace(prefix) && line != "" && !IsWhiteSpace(line[0])
    ensures LeadMatch(prefix + line) == Some(prefix + [line[0]])
  {
    var cand := prefix + [line[0]];
    assert cand[..|prefix|] == prefix;
    assert cand <= prefix + line;
    LeadMatchIsTheCandidate(prefix + line, cand);
  }

  /** A set register meets a shifted line: it stays the prefix plus a
      character when the line starts with that character, and falls back to
      the prefix otherwise. */
  lemma StepOnRegister(prefix: string, m: string, line: string)
    requires AllSpace(prefix) && line != "" && !IsWhiteSpace(line[0])
    requires m != "" && (m == prefix || (|m| == |prefix| + 1 && m[..|prefix|] == prefix))
    ensures MarginStep(m, prefix + line) == if m != prefix && m[|prefix|] == line[0] then m else prefix
  {
    var row := prefix + line;
    ShiftedMatch(prefix, line);
    assert row[|prefix|] == line[0];
    var next := MarginStep(m, row);
    if m != prefix && m[|prefix|] == line[0] {
      assert m == prefix + [line[0]];
      LongestCommonPrefixUnique(next, m, m, row);
    } else {
      assert prefix <= m by {
        if m != prefix {
          assert m[..|prefix|] == prefix;
        }
      }
      LongestCommonPrefixUnique(next, prefix, m, row);
    }
  }

  /** The effect of one shifted line on the register. */
  lemma StepOverShifted(rows: seq<string>, prefix: string, n: nat, m: string)
    requires prefix != "" && AllSpace(prefix)
    requires FlushLeft(rows) && n < |rows|
    requires RegisterAfterShift(rows, prefix, n, m)
    ensures RegisterAfterShift(rows, prefix, n + 1, MarginStep(m, Shifted(rows, prefix)[n]))
  {
    var row := Shifted(rows, prefix)[n];
    var next := MarginStep(m, row);
    if rows[n] == "" {
      assert LeadMatch(row).Nil?;
    } else {
      var c := rows[n][0];
      ShiftedMatch(prefix, rows[n]);
      if m == "" {
        assert next == prefix + [c];
        assert next[..|prefix|] == prefix;
      } else {
        StepOnRegister(prefix, m, rows[n]);
        if m == prefix {
          var i, j :| 0 <= i < n && 0 <= j < n && rows[i] != "" && rows[j] != ""
            && rows[i][0] != rows[j][0];
          assert MixedStartsBefore(rows, n + 1);
        } else if m[|prefix|] != c {
          var k :| 0 <= k < n && rows[k] != "";
          assert rows[k][0] == m[|prefix|];
          assert MixedStartsBefore(rows, n + 1);
        }
      }
    }
  }

  /** The register over the first `n` shifted lines. */
  lemma {:induction false} FoldOverShifted(rows: seq<string>, prefix: string, n: nat)
    requires prefix != "" && AllSpace(prefix)
    requires FlushLeft(rows) && n <= |rows|
    ensures RegisterAfterShift(rows, prefix, n, MarginAfter(Shifted(rows, prefix)[..n]))
  {
    if n > 0 {
      var shifted := Shifted(rows, prefix);
      FoldOverShifted(rows, prefix, n - 1);
      assert shifted[..n][..n - 1] == shifted[..n - 1];
      StepOverShifted(rows, prefix, n - 1, MarginAfter(shifted[..n - 1]));
    }
  }

  /** With the nil predicate, Indent shifts exactly the non-empty lines of a
      flush-left text. */
  lemma IndentShifts(text: string, prefix: string)
    requires AllSpace(prefix) && FlushLeft(Split(text))
    ensures IndentedRows(text, prefix, Nil) == Shifted(Split(text), prefix)
  {
    var rows := Split(text);
    forall i | 0 <= i < |rows|
      ensures IsNotEmpty(rows[i]) <==> rows[i] != ""
    {
      if rows[i] != "" {
        assert !IsWhiteSpace(rows[i][0]);
      }
    }
  }

  /** Shifting separator-free lines by spaces and tabs keeps them free of
      separators. */
  lemma ShiftedLines(rows: seq<string>, prefix: string)
    requires AllSpace(prefix) && Lines(rows)
    ensures Lines(Shifted(rows, prefix))
  {
    var shifted := Shifted(rows, prefix);
    forall i | 0 <= i < |shifted|
      ensures NoNewline(shifted[i])
    {
      if rows[i] != "" {
        assert shifted[i] == prefix + rows[i];
        assert forall k :: 0 <= k < |prefix| ==> shifted[i][k] == prefix[k];
        assert forall k :: |prefix| <= k < |shifted[i]| ==> shifted[i][k] == rows[i][k - |prefix|];
      }
    }
  }

  /** The margin Dedent finds in an indented flush-left text. */
  lemma MarginOfIndented(text: string, prefix: string)
    requires prefix != "" && AllSpace(prefix) && FlushLeft(Split(text))
    ensures Split(Indented(text, prefix, Nil)) == Shifted(Split(text), prefix)
    ensures RegisterAfterShift(Split(text), prefix, |Split(text)|,
      MarginAfter(Split(Indented(text, prefix, Nil))))
  {
    var rows := Split(text);
    var shifted := Shifted(rows, prefix);
    IndentShifts(text, prefix);
    ShiftedLines(rows, prefix);
    SplitJoin(shifted);
    FoldOverShifted(rows, prefix, |rows|);
    assert shifted[..|rows|] == shifted;
  }

  /** The lines of an indented flush-left text: an empty line stays empty,
      and any other line is the prefix followed by the line, which starts
      with a character that is not a space or a tab. */
  lemma ShiftedRows(rows: seq<string>, prefix: string)
    requires AllSpace(prefix) && FlushLeft(rows)
    ensures var shifted := Shifted(rows, prefix);
      forall i :: 0 <= i < |rows| ==>
        && (rows[i] == "" ==> shifted[i] == "")
        && (rows[i] != "" ==> shifted[i] == prefix + rows[i] && !IsSpace(rows[i][0]))
        && (rows[i] != "" ==> !AllSpace(shifted[i]))
  {
    var shifted := Shifted(rows, prefix);
    forall i | 0 <= i < |rows| && rows[i] != ""
      ensures !AllSpace(shifted[i])
    {
      assert shifted[i][|prefix|] == rows[i][0];
    }
  }

  /** Stripping the prefix from the shifted lines, and emptying the blank
      ones, gives back the lines. */
  lemma StrippedRows(rows: seq<string>, out: seq<string>, prefix: string)
    requires AllSpace(prefix) && FlushLeft(rows) && |out| == |rows|
    requires forall i :: 0 <= i < |rows| && AllSpace(Shifted(rows, prefix)[i]) ==> out[i] == ""
    requires forall i :: 0 <= i < |rows| && !AllSpace(Shifted(rows, prefix)[i]) && prefix <= Shifted(rows, prefix)[i] ==>
      prefix + out[i] == Shifted(rows, prefix)[i]
    ensures out == rows
  {
    ShiftedRows(rows, prefix);
    forall k | 0 <= k < |rows|
      ensures out[k] == rows[k]
    {
      if rows[k] != "" {
        assert prefix + out[k] == prefix + rows[k];
        assert out[k] == (prefix + out[k])[|prefix|..];
      }
    }
  }

  /** When Dedent settles on the prefix itself, it strips exactly what
      Indent added. */
  lemma StripsShift(text: string, prefix: string)
    requires prefix != "" && AllSpace(prefix) && FlushLeft(Split(text))
    requires Split(Indented(text, prefix, Nil)) == Shifted(Split(text), prefix)
    requires MarginAfter(Split(Indented(text, prefix, Nil))) == prefix
    ensures Dedented(Indented(text, prefix, Nil)) == text
  {
    var indented := Indented(text, prefix, Nil);
    DedentLines(indented);
    StrippedRows(Split(text), Split(Dedented(indented)), prefix);
    JoinSplit(Dedented(indented));
    JoinSplit(text);
  }

  /** Dedent undoes Indent with the nil predicate and a prefix of spaces and
      tabs, when the text's non-empty lines are flush left and do not all
      start with the same character. */
  lemma DedentUndoesIndent(text: string, prefix: string)
    requires prefix != "" && AllSpace(prefix)
    requires FlushLeft(Split(text)) && MixedStarts(Split(text))
    ensures Dedented(Indented(text, prefix, Nil)) == text
  {
    var rows := Split(text);
    MarginOfIndented(text, prefix);
    var m := MarginAfter(Split(Indented(text, prefix, Nil)));
    var i, j :| 0 <= i < |rows| && 0 <= j < |rows| && rows[i] != "" && rows[j] != ""
      && rows[i][0] != rows[j][0];
    assert m == prefix;
    StripsShift(text, prefix);
  }

  /** When every non-empty line starts with `c` and one is non-empty, the
      register settles on the prefix followed by `c`. */
  lemma SameStartMargin(rows: seq<string>, prefix: string, c: char, m: string, i: nat)
    requires RegisterAfterShift(rows, prefix, |rows|, m)
    requires AllStartWith(rows, |rows|, c)
    requires i < |rows| && rows[i] != ""
    ensures m == prefix + [c]
  {
    assert m[|prefix|] == rows[i][0];
    assert m == m[..|prefix|] + [m[|prefix|]];
  }

  /** A line with text that starts with the margin is shortened by the
      margin's length. */
  lemma DedentShortensLine(text: string, i: nat)
    requires i < |Split(text)| && MarginAfter(Split(text)) != ""
    requires MarginAfter(Split(text)) <= Split(text)[i] && !AllSpace(Split(text)[i])
    ensures |Split(Dedented(text))| == |Split(text)|
    ensures |Split(Dedented(text))[i]| == |Split(text)[i]| - |MarginAfter(Split(text))|
  {
    DedentLines(text);
  }

  /** A line that starts with `c` behind the prefix starts with the prefix
      plus `c`, and has text. */
  lemma SameStartLine(prefix: string, line: string, c: char)
    requires AllSpace(prefix) && line != "" && line[0] == c && !IsSpace(c)
    ensures prefix + [c] <= prefix + line
    ensures !AllSpace(prefix + line)
  {
    var row := prefix + line;
    assert row[|prefix|] == c;
    assert forall k :: 0 <= k < |prefix| ==> row[k] == prefix[k];
  }

  /** Under the margin `prefix + [c]`, a shifted line that starts with `c`
      comes out one character shorter than it went in. */
  lemma ShiftedLineShortened(indented: string, prefix: string, line: string, c: char, i: nat)
    requires AllSpace(prefix) && line != "" && line[0] == c && !IsSpace(c)
    requires i < |Split(indented)| && Split(indented)[i] == prefix + line
    requires MarginAfter(Split(indented)) == prefix + [c]
    ensures i < |Split(Dedented(indented))|
    ensures |Split(Dedented(indented))[i]| == |line| - 1
  {
    SameStartLine(prefix, line, c);
    DedentShortensLine(indented, i);
  }

  /** The round trip fails when all non-empty lines start with the same
      character: Dedent then removes that character as well. */
  lemma SameStartBreaksRoundTrip(text: string, prefix: string, c: char)
    requires prefix != "" && AllSpace(prefix)
    requires FlushLeft(Split(text)) && AllStartWith(Split(text), |Split(text)|, c)
    requires exists i :: 0 <= i < |Split(text)| && Split(text)[i] != ""
    ensures Dedented(Indented(text, prefix, Nil)) != text
  {
    var rows := Split(text);
    var indented := Indented(text, prefix, Nil);
    MarginOfIndented(text, prefix);
    var i :| 0 <= i < |rows| && rows[i] != "";
    SameStartMargin(rows, prefix, c, MarginAfter(Split(indented)), i);
    assert Split(indented)[i] == prefix + rows[i];
    ShiftedLineShortened(indented, prefix, rows[i], c, i);
    assert |Split(Dedented(indented))[i]| != |rows[i]|;
  }
}
