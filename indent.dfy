/** Indent from indent.go: add a prefix to the lines a predicate selects. */
module Indentation {
  import opened Wrappers
  import opened Strings

  /** PredicateFunc: decides whether a line gets the prefix. */
  type PredicateFunc = string -> bool

  /** IsNotEmpty: the line has something left after strings.TrimSpace, that
      is, at least one character that is not Unicode white space. A lone
      "\r" is white space here. */
  predicate IsNotEmpty(s: string)
    ensures IsNotEmpty(s) <==> exists i :: 0 <= i < |s| && !IsWhiteSpace(s[i])
  {
    TrimSpace(s) != ""
  }

  /** Any accepts every line. */
  predicate Any(s: string)
    ensures Any(s)
  {
    true
  }

  /** None accepts no line. */
  predicate None(s: string)
    ensures !None(s)
  {
    false
  }

  /** The predicate Indent applies: the one given, or IsNotEmpty for nil. */
  function Effective(pred: Option<PredicateFunc>): (keep: PredicateFunc)
    ensures pred.Some? ==> keep == pred.value
    ensures pred.Nil? ==> keep == IsNotEmpty
  {
    match pred
    case Nil => IsNotEmpty
    case Some(f) => f
  }

  /** One line of the result: `line` with `prefix` before it when `keep`
      accepts it. */
  function PrefixLine(prefix: string, keep: PredicateFunc, line: string): string {
    if keep(line) then prefix + line else line
  }

  /** The lines Indent joins for `text`: one for each line of the text,
      with the prefix in front when the predicate accepts the line. */
  function IndentedRows(text: string, prefix: string, pred: Option<PredicateFunc>): (out: seq<string>)
    ensures |out| == |Split(text)|
    ensures forall i :: 0 <= i < |out| && Effective(pred)(Split(text)[i]) ==> out[i] == prefix + Split(text)[i]
    ensures forall i :: 0 <= i < |out| && !Effective(pred)(Split(text)[i]) ==> out[i] == Split(text)[i]
  {
    var rows := Split(text);
    seq(|rows|, i requires 0 <= i < |rows| => PrefixLine(prefix, Effective(pred), rows[i]))
  }

  /** What Indent returns: never shorter than the text. */
  function Indented(text: string, prefix: string, pred: Option<PredicateFunc>): (r: string)
    ensures |r| >= |text|
  {
    var out := IndentedRows(text, prefix, pred);
    JoinSplit(text);
    TotalLengthAtMost(Split(text), out);
    Join(out)
  }

  /** Indent: split on "\n", prefix the accepted lines one by one, join. */
  method Indent(text: string, prefix: string, pred: Option<PredicateFunc>) returns (out: string)
    ensures out == Indented(text, prefix, pred)
  {
    var prefixed: seq<string> := [];
    var keep: PredicateFunc := if pred.Nil? then IsNotEmpty else pred.value;
    var rows := Split(text);
    var i := 0;
    while i < |rows|
      invariant i <= |rows|
      invariant |prefixed| == i
      invariant forall k :: 0 <= k < i ==> prefixed[k] == PrefixLine(prefix, keep, rows[k])
    {
      var row := rows[i];
      if keep(row) {
        row := prefix + row;
      }
      prefixed := prefixed + [row];
      i := i + 1;
    }
    assert prefixed == IndentedRows(text, prefix, pred);
    out := Join(prefixed);
  }

  /** With a prefix free of "\n", Indent keeps the lines: the result has as
      many lines as the text, an accepted line gets the prefix in front, and
      any other line is left as it was. */
  lemma IndentLines(text: string, prefix: string, pred: Option<PredicateFunc>)
    requires NoNewline(prefix)
    ensures var rows, out := Split(text), Split(Indented(text, prefix, pred));
      && |out| == |rows|
      && (forall i :: 0 <= i < |rows| && Effective(pred)(rows[i]) ==> out[i] == prefix + rows[i])
      && (forall i :: 0 <= i < |rows| && !Effective(pred)(rows[i]) ==> out[i] == rows[i])
  {
    var lines := IndentedRows(text, prefix, pred);
    forall i | 0 <= i < |lines|
      ensures NoNewline(lines[i])
    {
      assert lines[i] == prefix + Split(text)[i] || lines[i] == Split(text)[i];
    }
    SplitJoin(lines);
  }

  /** A nil predicate behaves exactly as IsNotEmpty. */
  lemma NilIsIsNotEmpty(text: string, prefix: string)
    ensures Indented(text, prefix, Nil) == Indented(text, prefix, Some(IsNotEmpty))
  {
  }

  /** With the nil predicate, a line gets the prefix exactly when it holds a
      character that is not white space. */
  lemma NilPrefixesNonWhiteLines(text: string, prefix: string)
    requires NoNewline(prefix)
    ensures var rows, out := Split(text), Split(Indented(text, prefix, Nil));
      && |out| == |rows|
      && (forall i, j :: 0 <= i < |rows| && 0 <= j < |rows[i]| && !IsWhiteSpace(rows[i][j]) ==>
            out[i] == prefix + rows[i])
      && (forall i :: 0 <= i < |rows| && (forall j :: 0 <= j < |rows[i]| ==> IsWhiteSpace(rows[i][j])) ==>
            out[i] == rows[i])
  {
    IndentLines(text, prefix, Nil);
  }

  /** When every line is left as it was, Indent gives back its input. */
  lemma UnchangedRows(text: string, prefix: string, pred: Option<PredicateFunc>)
    requires forall i :: 0 <= i < |Split(text)| ==> PrefixLine(prefix, Effective(pred), Split(text)[i]) == Split(text)[i]
    ensures Indented(text, prefix, pred) == text
  {
    assert IndentedRows(text, prefix, pred) == Split(text);
    JoinSplit(text);
  }

  /** With None, Indent is the identity, whatever the prefix. */
  lemma NoneIsIdentity(text: string, prefix: string)
    ensures Indented(text, prefix, Some(None)) == text
  {
    UnchangedRows(text, prefix, Some(None));
  }

  /** With an empty prefix, Indent is the identity, whatever the predicate. */
  lemma EmptyPrefixIsIdentity(text: string, pred: Option<PredicateFunc>)
    ensures Indented(text, "", pred) == text
  {
    forall i | 0 <= i < |Split(text)|
      ensures PrefixLine("", Effective(pred), Split(text)[i]) == Split(text)[i]
    {
      assert "" + Split(text)[i] == Split(text)[i];
    }
    UnchangedRows(text, "", pred);
  }

  /** With Any, every line gets the prefix, empty and white-space lines
      included. */
  lemma AnyPrefixesEveryLine(text: string, prefix: string)
    requires NoNewline(prefix)
    ensures var rows, out := Split(text), Split(Indented(text, prefix, Some(Any)));
      && |out| == |rows|
      && forall i :: 0 <= i < |rows| ==> out[i] == prefix + rows[i]
  {
    IndentLines(text, prefix, Some(Any));
  }
}
