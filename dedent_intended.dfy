/** Dedent as its documentation describes it (and as Python's
    textwrap.dedent, which it follows, behaves): the margin is the longest
    run of spaces and tabs common to every line that has text. Two things
    differ from the code as written, which Textwrap models: the margin is
    taken from the indentation alone, without the first character after it,
    and "no line seen yet" is kept apart from "no common indentation", so an
    empty margin stays empty. Everything else (the three branches of the
    loop, the two replacements, returning the text as it is when the margin
    is empty) is unchanged. */
module DedentIntended {
  import opened Wrappers
  import opened Strings
  import opened Textwrap
  import opened Indentation
  import opened RoundTrip

  /** A line with text: one that leadSpaceRe matches. */
  predicate HasText(row: string) {
    LeadMatch(row).Some?
  }

  /** The indentation of a line: its leading spaces and tabs. */
  function LeadIndent(row: string): (indent: string)
    ensures AllSpace(indent) && indent <= row
    ensures |indent| < |row| ==> !IsSpace(row[|indent|])
  {
    row[..LeadRun(row)]
  }

  /** Spaces and tabs that start a line are part of its indentation. */
  lemma WithinIndent(p: string, row: string)
    requires AllSpace(p) && p <= row
    ensures p <= LeadIndent(row)
  {
    assert |p| <= LeadRun(row);
  }

  /** A common prefix of two strings is a prefix of their longest common
      prefix. */
  lemma WithinCommonPrefix(p: string, q: string, a: string, b: string)
    requires IsLongestCommonPrefix(q, a, b) && p <= a && p <= b
    ensures p <= q
  {
    assert |p| <= |q|;
  }

  /** One turn of the corrected loop. A line without text is skipped. The
      first line with text sets the margin to its indentation; each later one
      keeps the margin, replaces it with its shorter indentation, or cuts it
      at the first difference, as the code does, but with the indentation in
      place of the line. */
  function IntendedStep(margin: Option<string>, row: string): (next: Option<string>)
    ensures !HasText(row) ==> next == margin
    ensures HasText(row) && margin.Nil? ==> next == Some(LeadIndent(row))
    ensures HasText(row) && margin.Some? ==>
      next.Some? && IsLongestCommonPrefix(next.value, margin.value, LeadIndent(row))
  {
    if !HasText(row) then margin
    else
      var indent := LeadIndent(row);
      match margin
      case Nil => Some(indent)
      case Some(m) =>
        if m <= indent then margin
        else if indent <= m then Some(indent)
        else Some(CommonPrefix(m, indent))
  }

  /** The corrected margin after `rows`: Nil while no line had text. */
  function IntendedMargin(rows: seq<string>): Option<string> {
    if rows == [] then Nil
    else IntendedStep(IntendedMargin(rows[..|rows| - 1]), rows[|rows| - 1])
  }

  /** `p` is spaces and tabs that start every line with text. */
  predicate IsCommonIndent(p: string, rows: seq<string>) {
    && AllSpace(p)
    && forall i :: 0 <= i < |rows| && HasText(rows[i]) ==> p <= rows[i]
  }

  /** `margin` is Nil exactly when no line has text, and otherwise the
      longest indentation common to every line with text. */
  ghost predicate IsIntendedMargin(margin: Option<string>, rows: seq<string>) {
    && (margin.Nil? <==> forall i :: 0 <= i < |rows| ==> !HasText(rows[i]))
    && (margin.Some? ==> IsCommonIndent(margin.value, rows))
    && (margin.Some? ==> forall p :: IsCommonIndent(p, rows) ==> p <= margin.value)
  }

  /** One turn of the corrected loop keeps the margin the longest common
      indentation of the lines seen so far. */
  lemma IntendedStepKeepsMargin(init: seq<string>, row: string, before: Option<string>)
    requires IsIntendedMargin(before, init)
    ensures IsIntendedMargin(IntendedStep(before, row), init + [row])
  {
    var rows := init + [row];
    var n := |init|;
    var next := IntendedStep(before, row);
    assert forall i :: 0 <= i < n ==> rows[i] == init[i];
    assert rows[n] == row;
    forall p | IsCommonIndent(p, rows)
      ensures IsCommonIndent(p, init)
      ensures HasText(row) ==> p <= LeadIndent(row)
    {
      if HasText(row) {
        WithinIndent(p, row);
      }
    }
    if !HasText(row) {
      forall p | IsCommonIndent(p, init)
        ensures IsCommonIndent(p, rows)
      {
      }
    } else if before.Some? {
      var m, q := before.value, next.value;
      forall i | 0 <= i < |rows| && HasText(rows[i])
        ensures q <= rows[i]
      {
        if i < n {
          assert m <= rows[i];
        }
      }
      assert AllSpace(q) by {
        assert forall k :: 0 <= k < |q| ==> q[k] == m[k];
      }
      forall p | IsCommonIndent(p, rows)
        ensures p <= q
      {
        WithinCommonPrefix(p, q, m, LeadIndent(row));
      }
    }
  }

  /** The corrected margin is Nil exactly when no line has text, and
      otherwise it is the longest indentation common to every line with
      text. */
  lemma {:induction false} IntendedMarginIsLongestCommonIndent(rows: seq<string>)
    ensures IsIntendedMargin(IntendedMargin(rows), rows)
  {
    if rows != [] {
      var n := |rows| - 1;
      IntendedMarginIsLongestCommonIndent(rows[..n]);
      IntendedStepKeepsMargin(rows[..n], rows[n], IntendedMargin(rows[..n]));
      assert rows[..n] + [rows[n]] == rows;
    }
  }

  /** What the corrected Dedent returns. */
  function IntendedDedented(text: string): string {
    match IntendedMargin(Split(text))
    case Nil => text
    case Some(margin) => if margin != "" then DeleteLead(margin, BlankRows(text)) else text
  }

  /** A line of a split text has text exactly when it is not all spaces and
      tabs. */
  lemma HasTextOfLine(row: string)
    requires NoNewline(row)
    ensures HasText(row) <==> !AllSpace(row)
  {
  }

  /** The corrected Dedent, line by line: with a non-empty margin every line
      with text starts with the margin and loses it, and every other line
      comes out empty. */
  lemma IntendedLines(text: string)
    requires IntendedMargin(Split(text)).Some? && IntendedMargin(Split(text)).value != ""
    ensures var rows, out, margin := Split(text), Split(IntendedDedented(text)), IntendedMargin(Split(text)).value;
      && |out| == |rows|
      && (forall i :: 0 <= i < |rows| && HasText(rows[i]) ==> margin + out[i] == rows[i])
      && (forall i :: 0 <= i < |rows| && !HasText(rows[i]) ==> out[i] == "")
  {
    var rows := Split(text);
    var margin := IntendedMargin(rows).value;
    IntendedMarginIsLongestCommonIndent(rows);
    var blanked := Split(BlankRows(text));
    var out := Split(IntendedDedented(text));
    assert |blanked| == |rows| && |out| == |rows|;
    forall i | 0 <= i < |rows|
      ensures HasText(rows[i]) ==> margin + out[i] == rows[i]
      ensures !HasText(rows[i]) ==> out[i] == ""
    {
      HasTextOfLine(rows[i]);
      assert out[i] == StripMargin(margin, blanked[i]);
      if HasText(rows[i]) {
        assert blanked[i] == rows[i];
      } else {
        assert blanked[i] == "";
      }
    }
  }

  /** Stripping the margin keeps which lines have text: a line with text
      keeps the character that is not a space or a tab. */
  lemma StrippedKeepsText(m: string, row: string, out: string)
    requires AllSpace(m) && NoNewline(row) && NoNewline(out)
    requires m + out == row
    ensures HasText(out) <==> HasText(row)
  {
    HasTextOfLine(row);
    HasTextOfLine(out);
    if HasText(row) {
      var j :| 0 <= j < |row| && !IsSpace(row[j]);
      assert j >= |m|;
      assert out[j - |m|] == row[j];
    } else {
      assert forall k :: 0 <= k < |out| ==> out[k] == row[|m| + k];
    }
  }

  /** Two runs of spaces and tabs make one. */
  lemma AllSpaceAppend(m: string, p: string)
    requires AllSpace(m) && AllSpace(p)
    ensures AllSpace(m + p)
  {
    assert forall k :: 0 <= k < |m| ==> (m + p)[k] == m[k];
    assert forall k :: |m| <= k < |m + p| ==> (m + p)[k] == p[k - |m|];
  }

  /** A line that starts with `m` and then `p` starts with `m + p`. */
  lemma PrefixAppend(m: string, p: string, row: string, out: string)
    requires m + out == row && p <= out
    ensures m + p <= row
  {
    assert out == p + out[|p|..];
    assert row == (m + p) + out[|p|..];
  }

  /** After the margin is stripped, the lines with text have no indentation
      in common: any common indentation they had would extend the margin,
      which is already the longest. */
  lemma NothingLeftToStrip(rows: seq<string>, out: seq<string>, m: string)
    requires IsIntendedMargin(Some(m), rows) && |out| == |rows|
    requires forall i :: 0 <= i < |rows| ==> (HasText(out[i]) <==> HasText(rows[i]))
    requires forall i :: 0 <= i < |rows| && HasText(rows[i]) ==> m + out[i] == rows[i]
    ensures forall p :: IsCommonIndent(p, out) ==> p == ""
  {
    forall p | IsCommonIndent(p, out)
      ensures p == ""
    {
      AllSpaceAppend(m, p);
      forall i | 0 <= i < |rows| && HasText(rows[i])
        ensures m + p <= rows[i]
      {
        PrefixAppend(m, p, rows[i], out[i]);
      }
      assert IsCommonIndent(m + p, rows);
    }
  }

  /** The corrected Dedent is idempotent: once the common indentation is
      gone, the lines with text share none. */
  lemma IntendedIdempotent(text: string)
    ensures IntendedDedented(IntendedDedented(text)) == IntendedDedented(text)
  {
    var rows := Split(text);
    IntendedMarginIsLongestCommonIndent(rows);
    if IntendedMargin(rows).Some? && IntendedMargin(rows).value != "" {
      var m := IntendedMargin(rows).value;
      var out := Split(IntendedDedented(text));
      IntendedLines(text);
      forall i | 0 <= i < |rows|
        ensures HasText(out[i]) <==> HasText(rows[i])
      {
        if HasText(rows[i]) {
          StrippedKeepsText(m, rows[i], out[i]);
        } else {
          HasTextOfLine(out[i]);
        }
      }
      NothingLeftToStrip(rows, out, m);
      IntendedMarginIsLongestCommonIndent(out);
      assert IntendedMargin(out).Some? ==> IntendedMargin(out).value == "";
    }
  }

  /** On a text whose lines start flush left, the corrected Dedent changes
      nothing: a line with text has no indentation, so neither has the
      margin. */
  lemma IntendedKeepsFlushLeft(text: string)
    requires FlushLeft(Split(text))
    ensures IntendedDedented(text) == text
  {
    var rows := Split(text);
    IntendedMarginIsLongestCommonIndent(rows);
    if IntendedMargin(rows).Some? {
      var m := IntendedMargin(rows).value;
      var i :| 0 <= i < |rows| && HasText(rows[i]);
      assert rows[i] != "" && !IsSpace(rows[i][0]);
      assert m <= rows[i];
    }
  }

  /** When two lines with text start with different characters (a tab and a
      space, say), the corrected margin is empty and the text comes back as
      it is. */
  lemma IntendedKeepsUnsharedStart(text: string, i: nat, j: nat)
    requires i < |Split(text)| && j < |Split(text)|
    requires HasText(Split(text)[i]) && HasText(Split(text)[j])
    requires Split(text)[i][0] != Split(text)[j][0]
    ensures IntendedDedented(text) == text
  {
    IntendedMarginIsLongestCommonIndent(Split(text));
  }

  /** The lines of an indented flush-left text: a line has text exactly when
      the original line is not empty, and the prefix is then followed by the
      original line, whose first character is not a space or a tab. */
  lemma ShiftedText(rows: seq<string>, prefix: string)
    requires AllSpace(prefix) && FlushLeft(rows) && Lines(rows)
    ensures var shifted := Shifted(rows, prefix);
      forall i :: 0 <= i < |rows| ==>
        && (HasText(shifted[i]) <==> rows[i] != "")
        && (rows[i] != "" ==> shifted[i] == prefix + rows[i] && !IsSpace(rows[i][0]))
  {
    var shifted := Shifted(rows, prefix);
    forall i | 0 <= i < |rows|
      ensures HasText(shifted[i]) <==> rows[i] != ""
    {
      if rows[i] != "" {
        assert NoNewline(shifted[i]) by {
          assert forall k :: 0 <= k < |prefix| ==> shifted[i][k] == prefix[k];
          assert forall k :: |prefix| <= k < |shifted[i]| ==> shifted[i][k] == rows[i][k - |prefix|];
        }
        HasTextOfLine(shifted[i]);
        assert shifted[i][|prefix|] == rows[i][0];
      }
    }
  }

  /** The corrected margin of lines that are the prefix followed by a line
      that does not start with a space or a tab, or lines without text, is the
      prefix as soon as one line has text. */
  lemma IntendedMarginOfShifted(shifted: seq<string>, rows: seq<string>, prefix: string)
    requires AllSpace(prefix) && |shifted| == |rows|
    requires forall i :: 0 <= i < |rows| ==> (HasText(shifted[i]) <==> rows[i] != "")
    requires forall i :: 0 <= i < |rows| && rows[i] != "" ==>
      shifted[i] == prefix + rows[i] && !IsSpace(rows[i][0])
    requires IntendedMargin(shifted).Some?
    ensures IntendedMargin(shifted) == Some(prefix)
  {
    var margin := IntendedMargin(shifted);
    IntendedMarginIsLongestCommonIndent(shifted);
    var i :| 0 <= i < |shifted| && HasText(shifted[i]);
    assert IsCommonIndent(prefix, shifted) by {
      forall k | 0 <= k < |shifted| && HasText(shifted[k])
        ensures prefix <= shifted[k]
      {
        assert shifted[k] == prefix + rows[k];
      }
    }
    var m := margin.value;
    assert prefix <= m;
    assert m <= shifted[i] && shifted[i] == prefix + rows[i];
    NoDeeperThanPrefix(m, prefix, rows[i]);
    assert m == prefix;
  }

  /** Spaces and tabs that start `prefix + line`, where `line` does not
      start with a space or a tab, are no longer than `prefix`. */
  lemma NoDeeperThanPrefix(m: string, prefix: string, line: string)
    requires AllSpace(m) && m <= prefix + line
    requires line != "" && !IsSpace(line[0])
    ensures |m| <= |prefix|
  {
    assert forall k :: |prefix| <= k < |m| ==> m[k] == (prefix + line)[k];
    assert (prefix + line)[|prefix|] == line[0];
  }

  /** When the corrected margin of an indented flush-left text is the
      prefix, the corrected Dedent strips exactly what Indent added. */
  lemma IntendedStripsShift(text: string, prefix: string)
    requires prefix != "" && AllSpace(prefix) && FlushLeft(Split(text))
    requires Split(Indented(text, prefix, Nil)) == Shifted(Split(text), prefix)
    requires IntendedMargin(Split(Indented(text, prefix, Nil))) == Some(prefix)
    ensures IntendedDedented(Indented(text, prefix, Nil)) == text
  {
    var rows := Split(text);
    var indented := Indented(text, prefix, Nil);
    ShiftedText(rows, prefix);
    IntendedLines(indented);
    var out := Split(IntendedDedented(indented));
    forall k | 0 <= k < |rows|
      ensures out[k] == rows[k]
    {
      if rows[k] != "" {
        assert prefix + out[k] == prefix + rows[k];
        assert out[k] == (prefix + out[k])[|prefix|..];
      }
    }
    assert out == rows;
    JoinSplit(IntendedDedented(indented));
    JoinSplit(text);
  }

  /** An indented text none of whose lines has text is the text itself. */
  lemma NoTextNoShift(text: string, prefix: string)
    requires prefix != "" && AllSpace(prefix) && FlushLeft(Split(text))
    requires Split(Indented(text, prefix, Nil)) == Shifted(Split(text), prefix)
    requires IntendedMargin(Split(Indented(text, prefix, Nil))).Nil?
    ensures Indented(text, prefix, Nil) == text
  {
    var rows := Split(text);
    var indented := Indented(text, prefix, Nil);
    ShiftedText(rows, prefix);
    IntendedMarginIsLongestCommonIndent(Split(indented));
    assert Split(indented) == rows;
    JoinSplit(indented);
    JoinSplit(text);
  }

  /** The corrected Dedent undoes Indent with the nil predicate and any
      prefix of spaces and tabs on every text whose lines start flush left,
      including those whose lines all start with the same character. */
  lemma IntendedUndoesIndent(text: string, prefix: string)
    requires AllSpace(prefix) && FlushLeft(Split(text))
    ensures IntendedDedented(Indented(text, prefix, Nil)) == text
  {
    var rows := Split(text);
    if prefix == "" {
      EmptyPrefixIsIdentity(text, Nil);
      IntendedKeepsFlushLeft(text);
    } else {
      var shifted := Split(Indented(text, prefix, Nil));
      MarginOfIndented(text, prefix);
      if IntendedMargin(shifted).Nil? {
        NoTextNoShift(text, prefix);
      } else {
        ShiftedText(rows, prefix);
        IntendedMarginOfShifted(shifted, rows, prefix);
        IntendedStripsShift(text, prefix);
      }
    }
  }
}
