/** The parts of Go's `strings` and `unicode` packages that Dedent and Indent
    rely on: splitting on and joining with "\n", and TrimSpace. Strings are
    sequences of Unicode scalar values. */
module Strings {

  /** True when `s` holds no line separator. */
  predicate NoNewline(s: string) {
    '\n' !in s
  }

  /** Separator-free lines, at least one: the shape of what Split returns. */
  predicate Lines(rows: seq<string>) {
    |rows| >= 1 && forall i :: 0 <= i < |rows| ==> NoNewline(rows[i])
  }

  /** strings.Split(s, "\n"): the pieces between separators. An empty string
      gives one empty piece, and a trailing separator gives a trailing empty
      piece. */
  function Split(s: string): (lines: seq<string>)
    ensures |lines| >= 1
    ensures forall i :: 0 <= i < |lines| ==> NoNewline(lines[i])
  {
    if s == [] then [""]
    else if s[0] == '\n' then [""] + Split(s[1..])
    else
      var rest := Split(s[1..]);
      [[s[0]] + rest[0]] + rest[1..]
  }

  /** The number of characters in `lines`, separators not counted. */
  function TotalLength(lines: seq<string>): nat {
    if lines == [] then 0 else |lines[0]| + TotalLength(lines[1..])
  }

  /** strings.Join(lines, "\n"): the lines in order with one separator
      between each two, so the first line starts the result. */
  function Join(lines: seq<string>): (r: string)
    ensures lines != [] ==> |r| == TotalLength(lines) + |lines| - 1
    ensures lines != [] ==> lines[0] <= r
  {
    if lines == [] then ""
    else if |lines| == 1 then lines[0]
    else lines[0] + "\n" + Join(lines[1..])
  }

  /** Lines that are each no longer than their partners add up to no more
      characters. */
  lemma {:induction false} TotalLengthAtMost(a: seq<string>, b: seq<string>)
    requires |a| == |b|
    requires forall i :: 0 <= i < |a| ==> |a[i]| <= |b[i]|
    ensures TotalLength(a) <= TotalLength(b)
  {
    if a != [] {
      assert forall i :: 0 <= i < |a| - 1 ==> a[1..][i] == a[i + 1] && b[1..][i] == b[i + 1];
      TotalLengthAtMost(a[1..], b[1..]);
    }
  }

  /** Joining the pieces of a split gives back the text. */
  lemma {:induction false} JoinSplit(s: string)
    ensures Join(Split(s)) == s
  {
    if s == [] {
    } else if s[0] == '\n' {
      JoinSplit(s[1..]);
      assert Split(s) == [""] + Split(s[1..]);
      assert ([""] + Split(s[1..]))[1..] == Split(s[1..]);
      assert s == "" + "\n" + s[1..];
    } else {
      var rest := Split(s[1..]);
      JoinSplit(s[1..]);
      var lines := [[s[0]] + rest[0]] + rest[1..];
      assert Split(s) == lines;
      if |rest| == 1 {
        assert s == [s[0]] + s[1..];
      } else {
        assert lines[1..] == rest[1..];
        assert Join(rest) == rest[0] + "\n" + Join(rest[1..]);
        assert s == [s[0]] + s[1..];
      }
    }
  }

  /** A line without separator splits into itself. */
  lemma {:induction false} SplitLine(a: string)
    requires NoNewline(a)
    ensures Split(a) == [a]
  {
    if a != [] {
      SplitLine(a[1..]);
      assert [a[0]] + a[1..] == a;
    }
  }

  /** Splitting `a + "\n" + b` where `a` is a single line. */
  lemma {:induction false} SplitAfterLine(a: string, b: string)
    requires NoNewline(a)
    ensures Split(a + "\n" + b) == [a] + Split(b)
  {
    var s := a + "\n" + b;
    if a == [] {
      assert s == "\n" + b;
      assert s[1..] == b;
    } else {
      assert s[0] == a[0];
      assert s[1..] == a[1..] + "\n" + b;
      SplitAfterLine(a[1..], b);
      var rest := Split(s[1..]);
      assert rest == [a[1..]] + Split(b);
      assert [a[0]] + a[1..] == a;
    }
  }

  /** Splitting a join of separator-free lines gives back those lines. */
  lemma {:induction false} SplitJoin(lines: seq<string>)
    requires Lines(lines)
    ensures Split(Join(lines)) == lines
  {
    if |lines| == 1 {
      SplitLine(lines[0]);
    } else {
      SplitJoin(lines[1..]);
      SplitAfterLine(lines[0], Join(lines[1..]));
      assert [lines[0]] + lines[1..] == lines;
    }
  }

  /** Applies `f` to every line of `text` and joins the results again; `f`
      must not introduce line separators. */
  function MapLines(text: string, f: string -> string): (r: string)
    requires forall line :: NoNewline(line) ==> NoNewline(f(line))
    ensures |Split(r)| == |Split(text)|
    ensures forall i :: 0 <= i < |Split(text)| ==> Split(r)[i] == f(Split(text)[i])
  {
    var lines := Split(text);
    var mapped := seq(|lines|, i requires 0 <= i < |lines| => f(lines[i]));
    SplitJoin(mapped);
    Join(mapped)
  }

  /** unicode.IsSpace: the characters with the Unicode White_Space property.
      Tab, newline, carriage return and space are among them. */
  predicate IsWhiteSpace(c: char)
    ensures c == '\t' || c == '\n' || c == '\r' || c == ' ' ==> IsWhiteSpace(c)
  {
    var n := c as int;
    (0x09 <= n <= 0x0D) || n == 0x20 || n == 0x85 || n == 0xA0 || n == 0x1680
    || (0x2000 <= n <= 0x200A) || n == 0x2028 || n == 0x2029 || n == 0x202F
    || n == 0x205F || n == 0x3000
  }

  /** Number of white-space characters at the start of `s`. */
  function LeadingWhite(s: string): (k: nat)
    ensures k <= |s|
    ensures forall i :: 0 <= i < k ==> IsWhiteSpace(s[i])
    ensures k < |s| ==> !IsWhiteSpace(s[k])
  {
    if s != [] && IsWhiteSpace(s[0]) then 1 + LeadingWhite(s[1..]) else 0
  }

  /** Number of white-space characters at the end of `s`. */
  function TrailingWhite(s: string): (k: nat)
    ensures k <= |s|
    ensures forall i :: |s| - k <= i < |s| ==> IsWhiteSpace(s[i])
    ensures k < |s| ==> !IsWhiteSpace(s[|s| - 1 - k])
  {
    if s != [] && IsWhiteSpace(s[|s| - 1]) then 1 + TrailingWhite(s[..|s| - 1]) else 0
  }

  /** `r` sits in `s` at index `lo`, with only white space around it. */
  predicate TrimmedAt(s: string, r: string, lo: int) {
    && 0 <= lo <= |s| - |r|
    && r == s[lo..lo + |r|]
    && (forall i :: 0 <= i < lo ==> IsWhiteSpace(s[i]))
    && (forall i :: lo + |r| <= i < |s| ==> IsWhiteSpace(s[i]))
  }

  /** The middle part of `s` between its leading and trailing white space
      is empty exactly when `s` is all white space. */
  lemma TrimmedEmpty(s: string, lo: nat, r: string)
    requires lo == LeadingWhite(s)
    requires r == s[lo..][..|s[lo..]| - TrailingWhite(s[lo..])]
    ensures r == [] <==> forall i :: 0 <= i < |s| ==> IsWhiteSpace(s[i])
  {
    if lo < |s| {
      assert !IsWhiteSpace(s[lo..][0]);
      assert TrailingWhite(s[lo..]) < |s[lo..]|;
    }
  }

  /** Everything after the middle part of `s` is white space. */
  lemma TrimmedTail(s: string, lo: nat, r: string)
    requires lo == LeadingWhite(s)
    requires r == s[lo..][..|s[lo..]| - TrailingWhite(s[lo..])]
    ensures forall i :: lo + |r| <= i < |s| ==> IsWhiteSpace(s[i])
  {
    var tail := s[lo..];
    forall i | lo + |r| <= i < |s|
      ensures IsWhiteSpace(s[i])
    {
      assert s[i] == tail[i - lo];
    }
  }

  /** The middle part of `s` sits at `lo` with only white space around
      it. */
  lemma TrimmedPlace(s: string, lo: nat, r: string)
    requires lo == LeadingWhite(s)
    requires r == s[lo..][..|s[lo..]| - TrailingWhite(s[lo..])]
    ensures TrimmedAt(s, r, lo)
  {
    assert r == s[lo..lo + |r|];
    TrimmedTail(s, lo, r);
  }

  /** The middle part of `s` starts and ends with a character that is not
      white space. */
  lemma TrimmedEnds(s: string, lo: nat, r: string)
    requires lo == LeadingWhite(s)
    requires r == s[lo..][..|s[lo..]| - TrailingWhite(s[lo..])]
    ensures r != [] ==> !IsWhiteSpace(r[0]) && !IsWhiteSpace(r[|r| - 1])
  {
    var tail := s[lo..];
    if r != [] {
      assert r[0] == s[lo];
      assert r[|r| - 1] == tail[|tail| - 1 - TrailingWhite(tail)];
    }
  }

  /** strings.TrimSpace: `s` without its leading and trailing white space. */
  function TrimSpace(s: string): (r: string)
    ensures r == [] <==> forall i :: 0 <= i < |s| ==> IsWhiteSpace(s[i])
    ensures r != [] ==> !IsWhiteSpace(r[0]) && !IsWhiteSpace(r[|r| - 1])
    ensures exists lo :: TrimmedAt(s, r, lo)
  {
    var lo := LeadingWhite(s);
    var r := s[lo..][..|s[lo..]| - TrailingWhite(s[lo..])];
    TrimmedEmpty(s, lo, r);
    TrimmedPlace(s, lo, r);
    TrimmedEnds(s, lo, r);
    r
  }
}
