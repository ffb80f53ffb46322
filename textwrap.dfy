/** Dedent from textwrap.go: find the margin shared by the lines of a text
    and strip it.

    The margin is found by a fold over the lines with one string register,
    where "" means "no margin yet". A line's margin candidate is the whole
    match of `(^[ \t]*)([^ \t\n])`: its run of spaces and tabs AND the first
    character after it. The register is then rewritten by the code's three
    branches. Once the lines are seen, a non-empty margin is removed from the
    start of every line, after lines of only spaces and tabs were emptied. */
module Textwrap {
  import opened Wrappers
  import opened Strings

  /** isSpace: the two characters that Dedent treats as indentation; both
      are white space for unicode.IsSpace, and neither separates lines. */
  predicate IsSpace(c: char)
    ensures IsSpace(c) ==> IsWhiteSpace(c) && c != '\n'
  {
    c == '\t' || c == ' '
  }

  /** Every character of `s` is a space or a tab. */
  predicate AllSpace(s: string) {
    forall i :: 0 <= i < |s| ==> IsSpace(s[i])
  }

  // ---------------------------------------------------------------------
  // zip
  // ---------------------------------------------------------------------

  /** The pair of characters found at one index of two strings. */
  datatype Zipped = Zipped(s1: char, s2: char)

  /** zip: pairs the characters of `s1` and `s2` index by index and stops
      when the shorter string is used up. */
  method Zip(s1: string, s2: string) returns (res: seq<Zipped>)
    ensures |res| == if |s1| <= |s2| then |s1| else |s2|
    ensures forall i :: 0 <= i < |res| ==> res[i] == Zipped(s1[i], s2[i])
  {
    res := [];
    var i := 0;
    while i < |s1| && i < |s2|
      invariant i <= |s1| && i <= |s2|
      invariant |res| == i
      invariant forall k :: 0 <= k < i ==> res[k] == Zipped(s1[k], s2[k])
    {
      res := res + [Zipped(s1[i], s2[i])];
      i := i + 1;
    }
  }

  // ---------------------------------------------------------------------
  // The margin candidate of one line
  // ---------------------------------------------------------------------

  /** Length of the run of spaces and tabs that starts `s`. */
  function LeadRun(s: string): (k: nat)
    ensures k <= |s|
    ensures AllSpace(s[..k])
    ensures k < |s| ==> !IsSpace(s[k])
  {
    if s != [] && IsSpace(s[0]) then
      var k := 1 + LeadRun(s[1..]);
      assert s[..k] == [s[0]] + s[1..][..k - 1];
      k
    else 0
  }

  /** The shape of a match of `(^[ \t]*)([^ \t\n])`: spaces and tabs, then
      one character that is neither a space, a tab nor a newline. */
  predicate IsCandidate(c: string) {
    && |c| >= 1
    && AllSpace(c[..|c| - 1])
    && !IsSpace(c[|c| - 1])
    && c[|c| - 1] != '\n'
  }

  /** leadSpaceRe.FindAllString(row, 1): the first match of
      `(^[ \t]*)([^ \t\n])` in `row`, or Nil when there is none. */
  function LeadMatch(row: string): (r: Option<string>)
    ensures r.Some? ==> IsCandidate(r.value) && r.value <= row
    ensures NoNewline(row) ==> (r.Nil? <==> AllSpace(row))
  {
    var k := LeadRun(row);
    if k < |row| && row[k] != '\n' then
      assert row[..k + 1][..k] == row[..k];
      Some(row[..k + 1])
    else
      assert k == |row| ==> row == row[..k];
      Nil
  }

  /** The match is the only candidate-shaped prefix of the line: the regex
      has no other way to match at the start of the line. */
  lemma LeadMatchIsTheCandidate(row: string, c: string)
    requires IsCandidate(c) && c <= row
    ensures LeadMatch(row) == Some(c)
  {
    var k := LeadRun(row);
    var n := |c| - 1;
    assert k == n;
    assert row[..k + 1] == c;
  }

  // ---------------------------------------------------------------------
  // The margin register
  // ---------------------------------------------------------------------

  /** `p` is the longest common prefix of `a` and `b`. */
  predicate IsLongestCommonPrefix(p: string, a: string, b: string) {
    && p <= a
    && p <= b
    && (|p| == |a| || |p| == |b| || a[|p|] != b[|p|])
  }

  /** The longest common prefix of two strings. */
  function CommonPrefix(a: string, b: string): (p: string)
    ensures IsLongestCommonPrefix(p, a, b)
  {
    if a != [] && b != [] && a[0] == b[0] then
      var p := [a[0]] + CommonPrefix(a[1..], b[1..]);
      assert a == [a[0]] + a[1..] && b == [b[0]] + b[1..];
      p
    else []
  }

  /** Two strings have only one longest common prefix. */
  lemma LongestCommonPrefixUnique(p: string, q: string, a: string, b: string)
    requires IsLongestCommonPrefix(p, a, b) && IsLongestCommonPrefix(q, a, b)
    ensures p == q
  {
  }

  /** The inner loop of the third branch: scan `zip(margin, row)` and cut the
      margin at the first index where the two strings differ. When no index
      differs, the margin is left as it is. */
  method TruncateAtMismatch(margin: string, row: string) returns (m: string)
    ensures m <= margin
    ensures !(margin <= row) && !(row <= margin) ==> IsLongestCommonPrefix(m, margin, row)
    ensures margin <= row || row <= margin ==> m == margin
  {
    m := margin;
    var pairs := Zip(margin, row);
    var i := 0;
    while i < |pairs|
      invariant i <= |pairs|
      invariant m == margin
      invariant forall k :: 0 <= k < i ==> margin[k] == row[k]
    {
      if pairs[i].s1 != pairs[i].s2 {
        m := margin[..i];
        break;
      }
      i := i + 1;
    }
    if m == margin && |margin| <= |row| {
      assert margin == row[..|margin|];
    } else if m == margin {
      assert row == margin[..|row|];
    }
  }

  /** One turn of the margin loop. A line without a match leaves the margin
      alone. The first matching line, or the first one after the margin was
      cut down to "", sets the margin to its candidate. Otherwise the three
      branches of the code (the line starts with the margin; the margin
      starts with the line; cut at the first difference) together set the
      margin to the longest common prefix of the margin and the whole line. */
  function MarginStep(margin: string, row: string): (next: string)
    ensures LeadMatch(row).Nil? ==> next == margin
    ensures LeadMatch(row).Some? && margin == "" ==> next == LeadMatch(row).value
    ensures LeadMatch(row).Some? && margin != "" ==> IsLongestCommonPrefix(next, margin, row)
  {
    match LeadMatch(row)
    case Nil => margin
    case Some(candidate) =>
      if margin == "" then candidate
      else if margin <= row then margin
      else if row <= margin then row
      else CommonPrefix(margin, row)
  }

  /** The margin register after the loop has seen `rows`. */
  function MarginAfter(rows: seq<string>): string {
    if rows == [] then ""
    else MarginStep(MarginAfter(rows[..|rows| - 1]), rows[|rows| - 1])
  }

  /** A non-empty register is a prefix of one of the lines seen. */
  lemma {:induction false} MarginIsPrefixOfALine(rows: seq<string>)
    requires MarginAfter(rows) != ""
    ensures exists i :: 0 <= i < |rows| && MarginAfter(rows) <= rows[i]
  {
    var init := rows[..|rows| - 1];
    var before := MarginAfter(init);
    var row := rows[|rows| - 1];
    if MarginAfter(rows) == before {
      MarginIsPrefixOfALine(init);
      var i :| 0 <= i < |init| && before <= init[i];
      assert init[i] == rows[i];
    } else {
      assert MarginAfter(rows) <= row;
    }
  }

  /** A margin is a prefix of some candidate: spaces and tabs, except maybe
      for its last character, and no newline. */
  predicate IsMarginShaped(m: string) {
    && NoNewline(m)
    && forall i :: 0 <= i < |m| - 1 ==> IsSpace(m[i])
  }

  /** The register only ever holds prefixes of candidates, so it may end in
      one character that is not a space or a tab. */
  lemma {:induction false} MarginShape(rows: seq<string>)
    ensures IsMarginShaped(MarginAfter(rows))
  {
    if rows != [] {
      var before := MarginAfter(rows[..|rows| - 1]);
      var row := rows[|rows| - 1];
      MarginShape(rows[..|rows| - 1]);
      var next := MarginAfter(rows);
      assert next == MarginStep(before, row);
      match LeadMatch(row)
      case Nil =>
      case Some(c) =>
        if before == "" {
          assert next == c;
          assert forall i :: 0 <= i < |c| - 1 ==> c[i] == c[..|c| - 1][i];
        } else {
          assert next <= before;
          assert forall i :: 0 <= i < |next| ==> next[i] == before[i];
        }
    }
  }

  /** Lines without a match, such as lines of only spaces and tabs, leave
      the register "". */
  lemma {:induction false} NoMatchNoMargin(rows: seq<string>)
    requires forall i :: 0 <= i < |rows| ==> LeadMatch(rows[i]).Nil?
    ensures MarginAfter(rows) == ""
  {
    if rows != [] {
      var init := rows[..|rows| - 1];
      assert forall i :: 0 <= i < |init| ==> init[i] == rows[i];
      NoMatchNoMargin(init);
    }
  }

  /** Prefix of `rows` of length `n`, as a named term for quantifiers. */
  function MarginAt(rows: seq<string>, n: nat): string
    requires n <= |rows|
  {
    MarginAfter(rows[..n])
  }

  /** While the register stays set, each line keeps it or replaces it with a
      shorter prefix of it: between two points where it is never "", it only
      shrinks. */
  lemma {:induction false} MarginShrinksWhileSet(rows: seq<string>, i: nat, j: nat)
    requires i <= j <= |rows|
    requires forall k :: i <= k < j ==> MarginAt(rows, k) != ""
    ensures MarginAt(rows, j) <= MarginAt(rows, i)
    decreases j - i
  {
    if i < j {
      MarginShrinksWhileSet(rows, i, j - 1);
      assert rows[..j][..j - 1] == rows[..j - 1];
      assert MarginAt(rows, j) == MarginStep(MarginAt(rows, j - 1), rows[j - 1]);
    }
  }

  /** A line whose first character differs from the register's first
      character (a tab against a space, say) resets the register to "". */
  lemma FirstCharClashResets(margin: string, row: string)
    requires margin != "" && row != ""
    requires LeadMatch(row).Some?
    requires margin[0] != row[0]
    ensures MarginStep(margin, row) == ""
  {
  }

  // ---------------------------------------------------------------------
  // The final rewrite
  // ---------------------------------------------------------------------

  /** blankRowsRe on one line: a line of only spaces and tabs becomes "",
      any other line is kept, and what comes out is never a non-empty line
      of spaces and tabs. */
  function BlankToEmpty(line: string): (r: string)
    ensures r == line || (AllSpace(line) && r == "")
    ensures AllSpace(r) ==> r == ""
  {
    if AllSpace(line) then "" else line
  }

  /** deleteLeadRe on one line: one leading copy of `margin` is removed. */
  function StripMargin(margin: string, line: string): (r: string)
    ensures margin <= line ==> margin + r == line
    ensures !(margin <= line) ==> r == line
    ensures NoNewline(line) ==> NoNewline(r)
  {
    if margin <= line then
      assert line == margin + line[|margin|..];
      line[|margin|..]
    else line
  }

  /** blankRowsRe.ReplaceAllLiteralString(text, ""): the lines stay the
      same in number, lines of only spaces and tabs become empty, and the
      other lines are kept. */
  function BlankRows(text: string): (r: string)
    ensures |Split(r)| == |Split(text)|
    ensures forall i :: 0 <= i < |Split(text)| && AllSpace(Split(text)[i]) ==> Split(r)[i] == ""
    ensures forall i :: 0 <= i < |Split(text)| && !AllSpace(Split(text)[i]) ==> Split(r)[i] == Split(text)[i]
  {
    MapLines(text, BlankToEmpty)
  }

  /** deleteLeadRe.ReplaceAllLiteralString(text, ""), with the margin taken
      literally: the lines stay the same in number, a line that starts with
      the margin loses one copy of it, and the other lines are kept. */
  function DeleteLead(margin: string, text: string): (r: string)
    ensures |Split(r)| == |Split(text)|
    ensures forall i :: 0 <= i < |Split(text)| && margin <= Split(text)[i] ==> margin + Split(r)[i] == Split(text)[i]
    ensures forall i :: 0 <= i < |Split(text)| && !(margin <= Split(text)[i]) ==> Split(r)[i] == Split(text)[i]
  {
    MapLines(text, line => StripMargin(margin, line))
  }

  /** What Dedent returns for `text`: never longer than the text, line by
      line and as a whole. */
  function Dedented(text: string): (r: string)
    ensures |Split(r)| == |Split(text)|
    ensures forall i :: 0 <= i < |Split(text)| ==> |Split(r)[i]| <= |Split(text)[i]|
    ensures |r| <= |text|
  {
    var margin := MarginAfter(Split(text));
    if margin != "" then
      var r := DeleteLead(margin, BlankRows(text));
      JoinSplit(r);
      JoinSplit(text);
      TotalLengthAtMost(Split(r), Split(text));
      r
    else text
  }

  /** Dedent: the margin loop over the lines, then the two replacements. */
  method Dedent(text: string) returns (out: string)
    ensures out == Dedented(text)
  {
    var margin := "";
    var rows := Split(text);
    var idx := 0;
    while idx < |rows|
      invariant idx <= |rows|
      invariant margin == MarginAfter(rows[..idx])
    {
      var row := rows[idx];
      assert rows[..idx + 1][..idx] == rows[..idx];
      var leadSpaces := LeadMatch(row);
      if leadSpaces.Some? {
        if margin == "" {
          margin := leadSpaces.value;
        } else if margin <= row {
          // The line is indented at least as deeply: nothing changes.
        } else if row <= margin {
          margin := row;
        } else {
          var cut := TruncateAtMismatch(margin, row);
          LongestCommonPrefixUnique(cut, CommonPrefix(margin, row), margin, row);
          margin := cut;
        }
      }
      idx := idx + 1;
    }
    assert rows[..idx] == rows;
    if margin != "" {
      out := DeleteLead(margin, BlankRows(text));
    } else {
      out := text;
    }
  }

  /** What Dedent does to each line. With no margin the text comes back as
      it was, blank lines included. With a margin, the lines stay the same in
      number, lines of only spaces and tabs become empty, every other line
      that starts with the margin loses one copy of it, and the rest are
      unchanged. */
  lemma DedentLines(text: string)
    ensures MarginAfter(Split(text)) == "" ==> Dedented(text) == text
    ensures MarginAfter(Split(text)) != "" ==>
      var rows, out, margin := Split(text), Split(Dedented(text)), MarginAfter(Split(text));
      && |out| == |rows|
      && (forall i :: 0 <= i < |rows| && AllSpace(rows[i]) ==> out[i] == "")
      && (forall i :: 0 <= i < |rows| && !AllSpace(rows[i]) && margin <= rows[i] ==>
            margin + out[i] == rows[i])
      && (forall i :: 0 <= i < |rows| && !AllSpace(rows[i]) && !(margin <= rows[i]) ==>
            out[i] == rows[i])
  {
    var margin := MarginAfter(Split(text));
    if margin != "" {
      var rows := Split(text);
      var blanked := Split(BlankRows(text));
      var out := Split(Dedented(text));
      assert |blanked| == |rows|;
      forall i | 0 <= i < |rows| && AllSpace(rows[i])
        ensures out[i] == ""
      {
        assert blanked[i] == "";
      }
    }
  }
}
