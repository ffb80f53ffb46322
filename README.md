# go-textwrap: Dedent and Indent in Dafny

A model of the two text transforms of the Go package `textwrap`. Both were ported from Python's `textwrap` module.

- **`Dedent(text)`** (textwrap.go) finds the margin shared by the lines of a text and strips it.
  - It walks the `"\n"`-separated lines with one string register, `margin`, where `""` stands for "no margin yet".
  - A line's margin candidate is the whole match of `(^[ \t]*)([^ \t\n])`: the run of spaces and tabs that starts the line, together with the first character after it.
  - Each line with a match either sets the register or rewrites it by one of three branches: the line starts with the margin, the margin starts with the line, or the margin is cut where it first differs from the line (found with `zip`).
  - When the register ends non-empty, lines of only spaces and tabs are emptied, and one leading copy of the margin is removed from every line. Otherwise the text is returned as it was.
- **`Indent(text, prefix, pred)`** (indent.go) splits the text on `"\n"`, puts `prefix` in front of every line the predicate accepts, and joins the lines again.
  - A nil predicate means `IsNotEmpty`: something is left after `strings.TrimSpace`.
  - `Any` accepts every line and `None` accepts none.

The modules:

- **`Strings`** (strings.dfy): `strings.Split` and `strings.Join` on `"\n"` and the laws linking them; a per-line rewrite `MapLines`; `strings.TrimSpace` over the `unicode.IsSpace` table.
- **`Textwrap`** (textwrap.go):
  - `isSpace`;
  - `zip` as a method with a loop;
  - the regex match as `LeadMatch`;
  - one turn of the margin loop as the function `MarginStep`, with its inner truncation loop as the method `TruncateAtMismatch`;
  - the final rewrite as `BlankRows` and `DeleteLead`;
  - `Dedent` as a method with the same loop and branches, proved to return `Dedented(text)`, the function the properties are stated about.
- **`Indentation`** (indent.go): the predicates, and `Indent` as a method with the same loop, proved to return the function `Indented(text, prefix, pred)`.
- **`RoundTrip`**: sufficient conditions under which `Dedent(Indent(text, prefix, nil))` gives the text back, and sufficient conditions under which it does not.
- **`DedentIntended`**: the Dedent that the doc comment describes, with the two departures listed under "## Findings" corrected, and its properties proved.
- **`TextwrapExamples`, `IndentExamples`, `RoundTripExamples`, `DedentIntendedExamples`**: the inputs and expected outputs of textwrap_test.go and indent_test.go, and the inputs behind the findings. A multi-line text is written as the `Join` of its lines.

Dedent follows the code rather than its doc comment in two places:

- The doc comment says entirely blank lines are normalised. The code does this only when the margin is non-empty; `DedentLines` states both cases.
- The margin candidate includes one character of text, so the margin can hold a letter. The consequences are under "## Findings".

## Model

| member | source | states |
|---|---|---|
| Strings.Split | textwrap.go:65 | `strings.Split(s, "\n")` gives at least one piece, and no piece holds a `"\n"` |
| Strings.JoinSplit | indent.go:46-59 | joining the pieces of a split with `"\n"` gives back the text |
| Strings.SplitJoin | indent.go:46-59 | splitting the join of separator-free lines gives back the same lines |
| Strings.Join | indent.go:59 | `strings.Join(lines, "\n")` starts with the first line and is as long as the lines together plus one separator between each two |
| Strings.MapLines | textwrap.go:109-112 | a per-line rewrite that adds no separator keeps the number of lines, and output line i is the rewrite of input line i |
| Strings.TrimSpace | indent.go:13 | the result is empty exactly when every character is white space; otherwise it starts and ends with a character that is not white space and sits inside the input with only white space around it |
| Strings.IsWhiteSpace | indent.go:13 | the white space of `unicode.IsSpace` behind `strings.TrimSpace` includes tab, newline, carriage return and space |
| Textwrap.Zip | textwrap.go:22-37 | the pairs are as many as the shorter string is long, and pair i holds character i of each string |
| Textwrap.IsSpace | textwrap.go:10-12 | a space or a tab; both are white space for `unicode.IsSpace` and neither is a newline |
| Textwrap.LeadMatch | textwrap.go:40 | a match is a prefix of the line made of spaces and tabs and one character that is not a space, tab or newline; a single line has no match exactly when it is all spaces and tabs |
| Textwrap.LeadMatchIsTheCandidate | textwrap.go:66 | every prefix of that shape is the match, so the match is unique |
| Textwrap.CommonPrefix | textwrap.go:88-95 | the result is a prefix of both strings and cannot be extended |
| Textwrap.LongestCommonPrefixUnique | textwrap.go:88-95 | two strings have exactly one longest common prefix |
| Textwrap.TruncateAtMismatch | textwrap.go:90-95 | the cut margin is a prefix of the margin; it is the longest common prefix with the line when neither starts with the other, and the whole margin otherwise |
| Textwrap.MarginStep | textwrap.go:66-96 | a line without a match keeps the register; the first match sets it to the candidate; later ones set it to the longest common prefix of the register and the whole line |
| Textwrap.MarginShape | textwrap.go:62-97 | the register never holds a newline, and every character but its last is a space or a tab |
| Textwrap.MarginShrinksWhileSet | textwrap.go:74-95 | while the register stays non-empty it only ever becomes a prefix of itself, never longer |
| Textwrap.FirstCharClashResets | textwrap.go:87-95 | a line whose first character differs from the register's resets the register to "" |
| Textwrap.MarginIsPrefixOfALine | textwrap.go:65-97 | a non-empty register after the loop is a prefix of one of the lines |
| Textwrap.NoMatchNoMargin | textwrap.go:66-72 | when no line has a match (every line is only spaces and tabs), the register stays "" |
| Textwrap.StripMargin | textwrap.go:109-112 | a line that starts with the margin loses exactly one copy of it; any other line is unchanged; no separator is added |
| Textwrap.BlankToEmpty | textwrap.go:41 | a line is kept or, when it is only spaces and tabs, emptied; the result is never a non-empty line of spaces and tabs |
| Textwrap.BlankRows | textwrap.go:111 | the lines stay the same in number, lines of only spaces and tabs become empty, and the other lines are kept |
| Textwrap.DeleteLead | textwrap.go:109-112 | the lines stay the same in number, a line that starts with the margin loses one copy of it, and the other lines are kept |
| Textwrap.Dedented | textwrap.go:108-114 | the result has as many lines as the text, no line longer than before, and is no longer than the text |
| Textwrap.Dedent | textwrap.go:60-115 | the loop and its three branches compute the margin of the lines, and the result is the text with that margin removed (or the text itself when the margin is empty) |
| Textwrap.DedentLines | textwrap.go:108-114 | with an empty margin the text comes back unchanged; otherwise the line count is kept, lines of only spaces and tabs become empty, other lines that start with the margin lose one copy of it, and the rest are unchanged |
| Indentation.IsNotEmpty | indent.go:12-14 | true exactly when the line holds a character that is not white space |
| Indentation.Any | indent.go:17-19 | true for every line |
| Indentation.None | indent.go:22-24 | false for every line |
| Indentation.Effective | indent.go:41-44 | a given predicate is used as it is, and nil becomes IsNotEmpty |
| Indentation.IndentedRows | indent.go:46-57 | one output line per line of the text: the prefix plus the line when the predicate accepts it, the line itself otherwise |
| Indentation.Indented | indent.go:37-60 | the result is never shorter than the text |
| Indentation.Indent | indent.go:37-60 | the loop returns the join of the lines, with the prefix in front of each line the predicate (IsNotEmpty when nil) accepts |
| Indentation.IndentLines | indent.go:46-59 | the result has as many lines as the text; an accepted line gets the prefix and any other line is unchanged |
| Indentation.NilIsIsNotEmpty | indent.go:41-44 | a nil predicate gives the same result as IsNotEmpty |
| Indentation.NilPrefixesNonWhiteLines | indent.go:41-52 | with a nil predicate a line is prefixed exactly when it holds a character that is not white space; white-space-only lines are kept |
| Indentation.UnchangedRows | indent.go:50-59 | when no line is changed, Indent returns its input |
| Indentation.NoneIsIdentity | indent.go:22-24 | with None, Indent returns its input for every prefix |
| Indentation.EmptyPrefixIsIdentity | indent_test.go:30-59 | with the empty prefix, Indent returns its input for every predicate |
| Indentation.AnyPrefixesEveryLine | indent.go:17-19 | with Any, every line gets the prefix, empty lines included |
| RoundTrip.IndentShifts | indent.go:41-52 | on a text whose lines start with text or are empty, a nil-predicate Indent prefixes exactly the non-empty lines |
| RoundTrip.MarginOfIndented | textwrap.go:62-97 | after such an Indent, the register is "" while only empty lines were seen, the prefix plus the shared first character while every non-empty line starts alike, and the prefix alone once two start differently |
| RoundTrip.DedentShortensLine | textwrap.go:108-112 | under a non-empty margin, a line with text that starts with the margin comes out shorter by the margin's length |
| RoundTrip.DedentUndoesIndent | indent_test.go:61-86 | Dedent gives back a text indented by a non-empty prefix of spaces and tabs, provided its non-empty lines start with text and two of them start with different characters (a sufficient condition, not a necessary one) |
| RoundTrip.SameStartBreaksRoundTrip | textwrap.go:74-75 | for a text whose non-empty lines start with text, with at least one non-empty line, and all non-empty lines starting with the same character: Dedent does not give back a text indented by a non-empty prefix of spaces and tabs |
| TextwrapExamples.ZipStopsAtShorter | textwrap_test.go:28-38 | zip("1234", "ab") is [('1','a'), ('2','b')] |
| TextwrapExamples.StepBlank | textwrap.go:66-72 | a line of only spaces and tabs leaves the register unchanged |
| TextwrapExamples.DedentUnchangedFlush | textwrap_test.go:11 | no line indented: the text is returned unchanged |
| TextwrapExamples.DedentUnchangedBlank | textwrap_test.go:13 | the same, with a blank line |
| TextwrapExamples.DedentUnchangedIndented | textwrap_test.go:15 | an indented line after a flush one: unchanged |
| TextwrapExamples.DedentUnchangedIndentedBlank | textwrap_test.go:17 | the same, with a blank line and a trailing newline |
| TextwrapExamples.DedentEven | textwrap_test.go:46-49 | all lines indented by two spaces lose them |
| TextwrapExamples.DedentEvenBlank | textwrap_test.go:51-54 | the same, with an empty line |
| TextwrapExamples.DedentEvenIndentedBlank | textwrap_test.go:56-59 | the same, and a line of two spaces comes out empty |
| TextwrapExamples.DedentTabSpace | textwrap.go:50-52 | "  hello\n\thello" is returned unchanged |
| TextwrapExamples.DedentDropsFirstLetter | textwrap.go:74-75 | Dedent("Hello") is "ello" |
| TextwrapExamples.DedentDropsSecondLetter | textwrap.go:74-75 | Dedent("ello") is "llo" |
| TextwrapExamples.DedentNotIdempotent | textwrap.go:40 | Dedent(Dedent("Hello")) is "llo", not Dedent("Hello") |
| TextwrapExamples.DedentRestartsMargin | textwrap.go:87-95 | the lines "  a", "\tb", "  c" come out as "  a", "\tb", "" |
| IndentExamples.CarriageReturnIsEmpty | indent.go:13 | a lone "\r" is empty for IsNotEmpty and for isEmpty, while "Hi.\r" is not |
| IndentExamples.IndentAnyBasic | indent_test.go:94 | Any with "  ", the basic case |
| IndentExamples.IndentAnyBlank | indent_test.go:96 | Any, with a blank line |
| IndentExamples.IndentAnyEdges | indent_test.go:98 | Any, with leading and trailing blank lines |
| IndentExamples.IndentAnyWindows | indent_test.go:100 | Any, with Windows line endings |
| IndentExamples.IndentAnyPathological | indent_test.go:102 | Any, the pathological case |
| IndentExamples.IndentBlankBasic | indent_test.go:120 | isEmpty, the basic case: unchanged |
| IndentExamples.IndentBlankBlank | indent_test.go:122 | isEmpty, only the blank line is prefixed |
| IndentExamples.IndentBlankEdges | indent_test.go:124 | isEmpty, only the leading and trailing blank lines |
| IndentExamples.IndentBlankWindows | indent_test.go:126 | isEmpty, only the last line, after the final "\r\n" |
| IndentExamples.IndentBlankPathological | indent_test.go:128 | isEmpty, the empty lines and the lone "\r" line |
| IndentExamples.IndentNilSkipsBlank | indent.go:41-44 | nil predicate: "A\n\nB" becomes "  A\n\n  B" |
| RoundTripExamples.RoundTripCases | indent_test.go:10-17 | the three round-trip texts come back from Dedent(Indent(text, prefix, nil)) for every non-empty prefix of spaces and tabs |
| RoundTripExamples.IndentRoundtripSpaces | indent_test.go:61-68 | the same for the prefix "    " |
| RoundTripExamples.IndentRoundtripTabs | indent_test.go:70-77 | the same for "\t\t" |
| RoundTripExamples.IndentRoundtripMixed | indent_test.go:79-86 | the same for " \t  \t " |
| DedentIntended.LeadIndent | textwrap.go:40 | the first group of the match: the spaces and tabs that start the line, followed by no further space or tab |
| DedentIntended.HasTextOfLine | textwrap.go:66-72 | a single line has a match exactly when it is not all spaces and tabs |
| DedentIntended.IntendedStep | textwrap.go:74-95 | the three branches applied to the line's indentation give the longest common prefix of margin and indentation; "no margin yet" is a separate state |
| DedentIntended.IntendedStepKeepsMargin | textwrap.go:65-97 | one more line keeps the margin the longest indentation common to the lines with text |
| DedentIntended.IntendedMarginIsLongestCommonIndent | textwrap.go:44-52 | the margin is unset exactly when no line has text; otherwise it is the longest run of spaces and tabs that starts every line with text |
| DedentIntended.IntendedLines | textwrap.go:108-113 | lines with text lose the margin and lines without text become empty |
| DedentIntended.IntendedIdempotent | textwrap.go:44-48 | the corrected Dedent, applied twice, gives the same as applied once |
| DedentIntended.IntendedKeepsFlushLeft | textwrap.go:44-48 | a text whose lines start with text or are empty is returned unchanged |
| DedentIntended.IntendedKeepsUnsharedStart | textwrap.go:50-52 | two lines with text that start with different characters share no margin, and the text is returned unchanged |
| DedentIntended.IntendedUndoesIndent | indent_test.go:61-86 | the corrected Dedent undoes a nil-predicate Indent by any prefix of spaces and tabs, for every text whose lines start with text or are empty |
| DedentIntendedExamples.IntendedKeepsHello | textwrap.go:74-75 | the corrected Dedent returns "Hello" unchanged |
| DedentIntendedExamples.IntendedKeepsUnsharedLines | textwrap.go:87-95 | the corrected Dedent returns "  a", "\tb", "  c" unchanged |
| DedentIntendedExamples.SameStartRoundTrip | indent_test.go:61-68 | indenting "Hi.", "Hello." by four spaces: Dedent as written does not give the text back, and the corrected Dedent does |

## Left out

- Debug logging: the `log.Printf` calls and the `debug` switches (textwrap.go:63, 68-70, 79-81, 99-106; indent.go:47-55) only write to the log.
- The regex engine: the three regexes are modelled as sequence functions (`LeadMatch`, `BlankToEmpty`, `StripMargin`).
- The margin taken literally: `deleteLeadRe` is built from the margin without escaping. A margin ending in a metacharacter such as `(` or `.` would panic or match other text; the model strips the margin literally.
- UTF-8: strings are sequences of Unicode scalar values, and invalid UTF-8 is not modelled. `zip` counts runes while `margin[:i]` counts bytes. The two agree here because every character before the cut is a space or a tab (`MarginShape`).
- `Textwrap.Zip`: the rune readers and their end-of-input errors are replaced by indexing.
- `Strings.IsWhiteSpace`: this is the table of `unicode.IsSpace` (the Latin-1 white space and the Unicode White_Space property), written out. It is assumed to match the Go runtime's table.
- `Indentation.IndentLines`: the line-count statement assumes a prefix without `"\n"`. `Indented` itself is defined for every prefix.
- The Windows and pathological inputs of indent_test.go are round-tripped by no test, and no example states them with the nil predicate.
- Go's nil function value is modelled as `Option<PredicateFunc>`, with `Nil` for nil.

## Findings

| source | as written | input that shows it | evidently intended | confidence | as-written member | corrected member |
|---|---|---|---|---|---|---|
| textwrap.go:40 | the margin candidate is the whole match of `(^[ \t]*)([^ \t\n])`, so it includes the first character of text, which is then stripped with the margin | `Dedent("Hello")` is `"ello"` and `Dedent` of that is `"llo"`; `Dedent(Indent("Hi.\nHello.", "    ", nil))` is `"i.\nello."` | only the leading spaces and tabs form the margin: "Hello" is returned unchanged, Dedent is idempotent, and it undoes Indent | not executed | TextwrapExamples.DedentNotIdempotent | DedentIntended.IntendedIdempotent |
| textwrap.go:74-95 | after the third branch cuts the margin to "", the next line with text is taken as a fresh first line (`margin == ""` means "unset") | `Dedent("  a\n\tb\n  c")` is `"  a\n\tb\n"`: the last line loses its indentation and its text, although no margin is shared | a margin cut to "" stays "": lines indented by spaces and by a tab share no margin, and the text is returned unchanged | not executed | TextwrapExamples.DedentRestartsMargin | DedentIntended.IntendedMarginIsLongestCommonIndent |

More members, on both sides, for the first row:

- As written: `TextwrapExamples.DedentDropsFirstLetter`, `RoundTrip.SameStartBreaksRoundTrip` and `DedentIntendedExamples.SameStartRoundTrip`.
- Corrected: `DedentIntended.IntendedUndoesIndent` and `DedentIntendedExamples.IntendedKeepsHello`.

For the second row:

- As written: `Textwrap.FirstCharClashResets`.
- Corrected: `DedentIntended.IntendedKeepsUnsharedStart` and `DedentIntendedExamples.IntendedKeepsUnsharedLines`.

In the corrected model, the margin is `Nil` until a line with text is seen, and a line contributes only its indentation (`LeadIndent`).
