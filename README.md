# hsdeckdiff core in Dafny

hsdeckdiff compares two Hearthstone deck lists. This project models and proves properties of its two components that contain logic:

- **The deck-text parser** (`parser.parse` in parse.go). It reads a deck export line by line:
  - a name line (`### <name>`), a `# Class: <class>` line and a `# Format: <format>` line;
  - one separator line, whose text is never looked at;
  - any number of card lines `# <count>x (<cost>) <name>`;
  - a terminator line that trims to `#`;
  - a non-empty line holding the deck code.

  The counts of the card lines must add up to 30. The parser returns a whole `deck` or an error, never part of a deck. Its five regular expressions are fixed. Here they are hand-written matchers (module `Patterns`) with Go's semantics for these patterns:
  - the patterns are unanchored and the leftmost match wins;
  - `.` is any character except a newline;
  - `\d` is an ASCII digit.
- **The deck differ** (`diff`, `deckDiff.String` and the `diffCardCount` sort methods in diff.go). It keys a map by card identity `(name, cost)` and holds the pair of counts `(from, to)`. It puts every card whose count grew into `Added` and every card whose count shrank into `Removed`, each with the size of the change. It sorts both lists by cost, then by name, and renders a `from -> to` header, one `+n name` line per added entry and one `-n name` line per removed entry, with the result trimmed.

The modules are:

- `Wrappers`: `Option` and `Result`.
- `Text`: the parts of `strings`, `strconv` and `fmt` that the code uses:
  - `TrimSpace`, with the whole `unicode.IsSpace` set;
  - `Atoi` on digit strings, with 64-bit overflow;
  - `%v` of an int;
  - Go's byte-wise string `<=`.
- `Patterns`: the five patterns and `FindStringSubmatch`.
- `Parse`: the parser.
  - The methods `ReadHeader`, `ReadCards` and `Parse` follow the Go control flow. `ReadCards` is a loop over a line index with a running total and early returns; `ReadHeader` and `Parse` are straight-line steps with early returns.
  - Each method is proved equal to a reference function. `ReadHeader` equals `HeaderSpec`. `ReadCards` equals `CardsSpec`, a recursion over the card steps. `Parse` equals `ParseSpec`, which composes the two with the code line.
- `ParseFacts`: what `ParseSpec` accepts, stated as a declarative grammar (`Accepted`), and how it fails.
- `Diff`: the differ.
  - `TallyDecks`, `Partition` and `Sort` are methods with loops, as in the Go code. `Sort` works on an `array` and moves entries with `Swap`; its inner loop is the method `Sink`.
  - `Diff` is a method that calls them in the order `diff` runs them.
  - `String` is a method that fills a buffer.
  - The reference is the predicate `IsDiff` and the function `Rendering`.
- `DiffScenarios`: worked comparisons.

Strings are sequences of Unicode code points, which assumes valid UTF-8. On valid UTF-8, code-point order and Go's byte order agree. The parser's input is the sequence of lines a `bufio.Scanner` would yield.

Three behaviours of the code that are easy to miss:

- A card count of 0 is accepted, because `\d` matches `0`.
- The separator line is only required to exist. Its content is not checked.
- Duplicate card lines are kept as separate entries, not merged. The differ then uses the count of the last entry for that card (`Diff.LastEntryWins`, `Diff.DuplicateNotSummed`).

## Model

| member | source | states |
|---|---|---|
| Parse.Parse | parse.go:30-128 | the parser returns exactly `ParseSpec(lines)` (header, then cards, then the code line, stopping at the first error), and every deck it returns has a card total of 30 |
| Parse.ReadHeader | parse.go:63-86 | the name, class, format and separator steps return the reference header result, including which line is missing or fails its pattern |
| Parse.ReadCards | parse.go:88-118 | the card loop with its running total returns exactly the reference card section; on success the total is 30 |
| Parse.CardLoop | parse.go:88-118 | the card section from a position succeeds only with a total of 30, extending the cards already read, and ends before the last line |
| Parse.CardsSpec | parse.go:88-118 | a successful card section has a total of 30 and leaves the terminator inside the input after the cards |
| Parse.ParseLine | parse.go:45-61 | a line step succeeds only when the line exists; a pattern step then has one string per group plus the whole match, and card groups are one digit, a digit run and a non-empty name |
| Parse.AssignCard | parse.go:90-108 | a card match converts exactly when the cost fits a 64-bit int, giving count = the digit, cost = the digit run's value and name = the third group |
| Parse.ParseSpec | parse.go:30-128 | the reference parse: a deck it returns has a card total of exactly 30 and was read from at least six lines plus one per card |
| Parse.CardAt | parse.go:90-108 | one iteration of the card loop: a card it reads comes from an existing line, with a count of 0 to 9, a non-negative cost and a non-empty name |
| Parse.Message | parse.go:37-114 | the error texts: the first letter tells a missing line (`M`), an unexpected card line (`U`) and a wrong total (`D`) apart; a pattern failure ends with the raw line text and an unexpected card line starts with `Unexpected card line: ` followed by the line's text |
| Parse.AssignMessage | parse.go:93-97 | a conversion failure names which number failed, its matched text and then strconv's message; a cost failure and a count failure are told apart at one fixed letter |
| Parse.ScannerText | parse.go:110-111 | `scanner.Text()` after the card step: a non-empty text is the line at that position; past the end of the input it is empty |
| Parse.TerminatorNeedsLine | parse.go:110 | a text that trims to `#` comes from an existing line, never from exhausted input |
| Parse.TotalCountBounds | parse.go:88-107 | `deckCardCount` (`TotalCount`): with non-negative counts, the total is at least every single entry's count |
| Parse.HeaderSpec | parse.go:63-86 | a successful header has consumed four lines |
| ParseFacts.ParseAccepted | parse.go:30-128 | the parser returns deck d exactly when the lines form the declarative grammar for d: name, class and format groups, card lines for d's cards in order, a line trimming to `#`, a total of 30 and the code line's group |
| ParseFacts.ParseSound | parse.go:30-128 | a successful header, card section and code line give the declarative grammar |
| ParseFacts.ParseComplete | parse.go:30-128 | lines of the declarative grammar make the header and the card section succeed with that deck's fields |
| ParseFacts.ParseSpecParts | parse.go:63-127 | the parse succeeds with d exactly when the header gives d's name, class and format, the card section gives d's cards, and the next line's code group is d's code |
| ParseFacts.ParseSpecSteps | parse.go:120-127 | the same split with the code step written as the line step itself |
| ParseFacts.HeaderAccepted | parse.go:63-86 | the header succeeds with h exactly when there are four lines and the first three lines' groups are h's fields |
| ParseFacts.CodeLineGroup | parse.go:120-125 | the code step succeeds exactly when the line exists and the code pattern matches it, capturing its group |
| ParseFacts.HeaderFailures | parse.go:34-86 | the parse fails with `Missing expected <X> line` at the first absent header line and with `Failed to parse <X> line: <text>` at the first header line its pattern rejects |
| ParseFacts.LaterFailures | parse.go:109-125 | a failing card section is the parse's error; a missing code line gives `Missing expected code line` and an unmatched one gives `Failed to parse code line` |
| ParseFacts.CardsSpecFramed | parse.go:88-118 | whatever card lines precede the first non-card line, that line decides: `Unexpected card line` with its text (empty once the input is exhausted) unless it trims to `#`, then `Deck does not contain 30 cards` unless the total is 30, else those cards in order |
| ParseFacts.CardsSplit | parse.go:89-118 | every input has a run of card lines from line 4 ending at a non-card position |
| ParseFacts.LoopThroughCards | parse.go:89-109 | running the loop over successful card steps reaches the end of the run with all their cards appended in order |
| ParseFacts.RunEnd | parse.go:89-118 | the loop always reaches a step that is not a card |
| ParseFacts.StepCards | parse.go:106 | the cards of a run of successful steps, one per step, in order |
| ParseFacts.StepsAreCards | parse.go:90-108 | successful steps are card lines at their positions |
| ParseFacts.CardEntry | parse.go:90-108 | a card line gives one entry exactly when the card pattern matches and the cost fits a 64-bit int: its count is the single digit (0 to 9), its cost the digit run's value and its name the non-empty third group, which `Patterns.CardNameIsRest` shows is the rest of the line |
| ParseFacts.TerminatorNotCard | parse.go:109-116 | a line that trims to `#` never matches the card pattern |
| ParseFacts.TerminatorShape | parse.go:110 | a line that trims to `#` is a `#` with only white space around it |
| ParseFacts.HashAmidSpaceNoCardAt | parse.go:142 | the card pattern cannot start anywhere in such a line |
| ParseFacts.TerminatorStopsCards | parse.go:90-116 | the card loop stops at a terminator line without reading a card from it |
| ParseFacts.NoMatchNoCard | parse.go:52-55 | a line the card pattern rejects gives `Failed to parse card line` with that line's text |
| ParseFacts.AcceptedThirty | parse.go:113-114 | every accepted deck has a card total of exactly 30 and at least six lines plus one per card |
| ParseFacts.AcceptedCode | parse.go:120-127 | the code is the whole line after the terminator, and it is not empty |
| ParseFacts.TrailingLinesIgnored | parse.go:120-127 | lines after the code line are never read: appending lines to an accepted input keeps the same deck |
| Patterns.FindStringSubmatch | parse.go:52-53 | a match has one string per group plus the whole match, so the length check of parseLine never fails; card groups are well formed |
| Patterns.MatchAt | parse.go:139-143 | a match at a fixed start has the pattern's group count, and card groups are well formed |
| Patterns.MatchCardAt | parse.go:142 | a card match at a position has a single-digit count, a non-empty digit run and a non-empty name |
| Patterns.FirstFound | parse.go:52 | the leftmost search returns one of the attempts |
| Patterns.FirstNone | parse.go:52 | the search finds nothing exactly when no attempt from k on matched |
| Patterns.FirstSkip | parse.go:52 | attempts that found nothing before i are passed over |
| Patterns.LeftmostNone | parse.go:52 | `FindStringSubmatch` fails exactly when the pattern matches at no start position |
| Patterns.LeftmostAt | parse.go:52 | when the pattern first matches at i, `FindStringSubmatch` returns that match |
| Patterns.PrefixPatternSemantics | parse.go:139-141 | for a line without newlines, `### (.+)`, `# Class: (.+)` and `# Format: (.+)` capture the rest of the line after the leftmost occurrence of their literal that has a character after it |
| Patterns.PrefixPatternFails | parse.go:139-141 | such a pattern fails exactly when its literal never occurs with a character after it |
| Patterns.MatchRestAtMeaning | parse.go:139-143 | `lit(.+)` matches at k exactly when lit occurs there with a character after it, and captures to the end of the line |
| Patterns.MatchRestAt | parse.go:139-143 | one attempt of `lit(.+)` at a start: a match has two groups, the whole match is lit followed by a non-empty capture with no newline, and it is a prefix of the line from that start |
| Patterns.CodePatternSemantics | parse.go:143 | `(.+)` rejects the empty line and captures any other line whole |
| Patterns.CardMatchShape | parse.go:142 | where the card pattern matches, the text has the shape `# <d>x (<digits>) <name>` and the groups are d, digits and name |
| Patterns.CardShapeParts | parse.go:142 | the characters of a card-shaped text, position by position |
| Patterns.CardShapeMatches | parse.go:142 | conversely, text of that shape is matched with exactly those groups |
| Patterns.CardNameIsRest | parse.go:142 | on a line without newlines, a match of `# (\d)x \((\d+)\) (.+)` runs to the end of the line, so the name group is the rest of the line |
| Patterns.DotRunEnd | parse.go:139-143 | `.*` runs to the first newline or the end of the line |
| Patterns.DigitRunEnd | parse.go:142 | `\d+` runs to the first non-digit or the end of the line |
| Patterns.DotRunToEnd | parse.go:139-143 | without newlines, `.*` runs to the end of the line |
| Patterns.DigitRunOver | parse.go:142 | the digit run ends at the first non-digit |
| Text.TrimSpace | parse.go:110 | `strings.TrimSpace` returns a string no longer than its input that neither starts nor ends with white space |
| Text.SpaceEndStops | parse.go:110 | the front cut stops at the end or at a non-space |
| Text.SpaceStartStops | parse.go:110 | the back cut stops at the start or just after a non-space |
| Text.TrimSpaceIsSlice | parse.go:110 | `strings.TrimSpace` keeps a slice with only white space around it, and that slice neither starts nor ends with white space |
| Text.SpaceEndMeaning | parse.go:110 | the front cut skips white space only and stops at a non-space |
| Text.SpaceStartMeaning | parse.go:110 | the back cut skips white space only and stops after a non-space |
| Text.TrimSpaceIgnoresTrailing | diff.go:65 | white space appended to a string, such as the buffer's final newline, is trimmed again |
| Text.TrimSpaceKeepsTrimmed | diff.go:65 | a string that neither starts nor ends with white space is unchanged |
| Text.TrimSpaceKeepsPrefix | diff.go:65 | a string that begins with a part neither starting nor ending with white space keeps that part |
| Text.Atoi | parse.go:91-98 | `strconv.Atoi` on a digit string succeeds exactly when its value fits a 64-bit int, and then gives that value; otherwise a range error naming the input |
| Text.NatToString | diff.go:58 | `%v` of a natural number is a non-empty digit string without a leading zero |
| Text.IntToString | diff.go:58 | `%v` of an int is digits, after a minus sign when negative |
| Text.NatToStringRoundTrip | diff.go:58 | reading the printed digits back gives the number |
| Text.StringLe | diff.go:86-87 | `sort.StringsAreSorted` on two names: a name is ordered before any name it is a prefix of (itself included), and an ordered pair compares its first characters in order |
| Text.StringLeTotal | diff.go:86-87 | any two names are ordered by `sort.StringsAreSorted` one way or the other |
| Text.StringLeAntisymmetric | diff.go:86-87 | names ordered both ways are equal |
| Text.StringLeTransitive | diff.go:86-87 | the name order is transitive |
| Diff.Less | diff.go:78-88 | `diffCardCount.Less`: an entry is ordered before any entry for the same card (the name comparison is `<=`), and never before a cheaper card |
| Diff.LessTotal | diff.go:78-88 | `Less` orders any two entries one way or the other |
| Diff.LessTransitive | diff.go:78-88 | `Less` is transitive |
| Diff.LessAntisymmetric | diff.go:78-88 | entries ordered both ways by `Less` are for the same card |
| Diff.Swap | diff.go:74-76 | the entries at i and j are exchanged and nothing else changes |
| Diff.SwapDown | diff.go:43-44 | one swap of the inner loop exchanges the sinking entry with its left neighbour and changes nothing else, keeping the loop's state and the multiset of entries |
| Diff.Sink | diff.go:43-44 | the inner loop of the insertion sort extends the sorted prefix by one entry, keeps the multiset of entries and leaves the entries after position i untouched |
| Diff.SinkStep | diff.go:43-44 | one swap of the insertion sort keeps its inner-loop state and the multiset of entries |
| Diff.SinkDone | diff.go:43-44 | when the inner loop stops, the prefix up to i is sorted |
| Diff.Sort | diff.go:43-44 | `sort.Sort` leaves the array a permutation of its old contents with each entry `Less` than or equal to the next |
| Diff.SortedAscending | diff.go:43-44 | a list sorted step by step with no card twice is strictly ascending by cost, then name |
| Diff.AscendingUnique | diff.go:43-44 | two strictly ascending lists with the same entries are equal, so the sorted lists do not depend on the map's iteration order |
| Diff.SameEntriesEmpty | diff.go:43-44 | lists with the same entries are empty together |
| Diff.DistinctOnce | diff.go:32-42 | in a list with no card twice, no entry occurs twice |
| Diff.Twice | diff.go:43-44 | an entry at two positions occurs at least twice |
| Diff.PermutationDistinct | diff.go:43-44 | sorting a list with no card twice keeps it free of repeated cards |
| Diff.SortList | diff.go:43-44 | a sorted list holds the same entries, strictly ascending |
| Diff.AbsentCountsZero | diff.go:22-28 | a card a deck does not list counts 0 there |
| Diff.LastEntryWins | diff.go:19-28 | the count of a card is that of its last entry in the deck |
| Diff.DuplicateNotSummed | diff.go:19-28 | two entries of 2 and 1 for one card give count 1, not 3 |
| Diff.IdsPush | diff.go:19-28 | the cards of a list grown by one entry |
| Diff.TallyPushFrom | diff.go:19-21 | an entry of `from` sets its card to (its count, 0) |
| Diff.TallyPushTo | diff.go:22-29 | an entry of `to` sets its card's second count, keeping the first or starting it at 0 |
| Diff.Tally | diff.go:18-29 | the reference map: every card of either deck is a key, and the last entry of each deck sets its card's count on its side |
| Diff.LastCountFromEntry | diff.go:19-28 | `LastCount`, the count the map holds for a card on one side: a non-zero count is the count of an entry for that card in the deck |
| Diff.TallyDecks | diff.go:18-29 | the map holds each card of either deck with its last count in `from` and in `to` |
| Diff.GrownMember | diff.go:39-41 | membership in the grown entries, card by card |
| Diff.ShrunkMember | diff.go:36-38 | membership in the shrunk entries, card by card |
| Diff.Partition | diff.go:30-42 | whatever order the map is walked in, `Added` holds exactly the cards whose count grew, with the growth, `Removed` exactly those that shrank, with the loss, and no card twice in either |
| Diff.Diff | diff.go:17-51 | the result keeps both decks, and each list holds exactly its entries in strictly ascending order |
| Diff.DiffEntries | diff.go:18-42 | an entry is in `Added` exactly when its card's count grows, with the growth as count, and in `Removed` exactly when it shrinks, with the loss, a card a deck does not list counting 0 |
| Diff.DiffPositive | diff.go:33-41 | every entry of either list has a positive count |
| Diff.DiffOmitsEqual | diff.go:33-35 | a card with equal counts in both decks is in neither list |
| Diff.DiffDisjoint | diff.go:32-42 | no card is in both lists |
| Diff.DiffDeterministic | diff.go:32-44 | the diff of two decks is unique, whatever the map's iteration order |
| Diff.DiffSelf | diff.go:17-51 | a deck compared with itself gives two empty lists |
| Diff.DiffSwap | diff.go:17-51 | comparing the decks the other way round exchanges `Added` and `Removed` |
| Diff.Rendering | diff.go:53-66 | the reference text: no longer than the buffer, and it neither starts nor ends with white space |
| Diff.HeaderLineShape | diff.go:55 | `HeaderLine`, the first line, starts with the `from` name and ` -> ` and ends with the `to` name |
| Diff.EntryLineShape | diff.go:58-62 | `EntryLine`: an entry line starts with its sign and ends with a space and the card's name |
| Diff.EntryLinesShape | diff.go:57-64 | `EntryLines`: the lines of a list are empty exactly when the list is, and otherwise end with a newline |
| Diff.WrittenShape | diff.go:54-64 | `Written`, the buffer, starts with the header line and its newline, and ends with a newline |
| Diff.String | diff.go:53-66 | the buffer loops produce exactly the trimmed rendering: header, `+` lines, `-` lines |
| Diff.EntryLinesPush | diff.go:57-64 | writing one more entry's line extends the buffer by exactly that line |
| Diff.WrittenIsJoin | diff.go:54-64 | the buffer is the header and the entry lines joined by newlines, plus a final newline |
| Diff.JoinEntries | diff.go:57-64 | the lines of a list joined after earlier lines are those lines each followed by a newline |
| Diff.RenderingIsJoin | diff.go:53-66 | when the text does not start or end with white space, the rendering is exactly the lines joined by newlines (only the final newline is trimmed) |
| Diff.RenderingStartsWithNames | diff.go:55-65 | a rendering starts with the `from` deck's name and ` ->` when that name starts with a non-space |
| Diff.Lines | diff.go:53-66 | one line for the header and one per entry |
| DiffScenarios.SortOrderExample | diff.go:78-88 | Alpha (cost 1), Zeta (cost 1), Beta (cost 2) is the only ascending order of those three cards |
| DiffScenarios.BurnCounts | diff.go:19-28 | the card counts of the two example decks |
| DiffScenarios.FireballLists | diff.go:17-51 | the example comparison adds one Frostbolt and removes one Fireball, and does not mention the 28 Wisps both decks hold |
| DiffScenarios.FireballRendering | diff.go:17-66 | the example comparison renders as `Burn -> Burn 2`, `+1 Frostbolt`, `-1 Fireball` |
| DiffScenarios.RenderOneEach | diff.go:53-66 | a diff with one entry in each list renders as three lines |

## Left out

- serve.go is not part of this model: the HTTP handler, form reading and the server are I/O around `parse` and `diff`.
- `bufio.Scanner` is not modelled. The parser receives the lines it would yield. Read errors (`Failed to read expected <X> line`), the token-size limit and the splitting of lines are not modelled. After the last line, the scanner's text is taken to be empty, as the Go scanner leaves it.
- `newParser` and `regexp.Compile` are not modelled. The five patterns are constants that always compile. The patterns themselves are hand-written matchers, not a regular-expression engine.
- `diffCardCount.Len` is the array's length, `a.Length`. It has no member of its own.
- Diff.Sort: `sort.Sort` is modelled as Go's insertion sort, which is what Go 1.19 and later run for lists of up to 12 entries (earlier Go versions first make a gap-6 Shell-sort pass over lists of 7 to 12 entries; the result is the same). For longer lists Go uses pattern-defeating quicksort and takes a different sequence of swaps. The contract (a permutation, each entry ordered before the next) is what both promise. Because the lists never hold a card twice, `Diff.AscendingUnique` shows that any sort meeting that contract yields the same list.
- Diff.Partition: Go's randomised map iteration order is modelled by choosing any remaining key (`:|`). The order in which entries are appended therefore stays unspecified, as it is in Go.
- Diff.Diff: the Go slices are sequences copied into an array for sorting. Aliasing between the returned lists and the decks is not modelled. Nothing in the core writes to `from` or `to`, and decks are values here, so `diff` cannot change them.
- Parse.ReadCards: requires four lines, because it is the segment of `parse` that runs after the header has read them. `Parse.Parse` calls it only then.
- `fmt.Sprintf` is modelled only for the `%v` of strings and ints used in the messages and lines. Error messages are the `Parse.Message` text.
- Go's `int` is unbounded here. The only place its width shows is `Atoi`'s range error, which is modelled.
