/**
 * The deck-text parser of parse.go. The input is the sequence of lines a line scanner
 * yields. The grammar is positional: a name, a class and a format line, one separator line
 * whose text is never looked at, any number of card lines, a terminator that trims to `#`,
 * and a non-empty code line. The parser returns a whole deck or an error, never part of one.
 */
module Parse {
  import opened Wrappers
  import opened Text
  import opened Patterns

  datatype Card = Card(name: string, cost: int)

  datatype CardCount = CardCount(card: Card, count: int)

  /** `deck`; the Go field `Class` is called deckClass here because `class` is a Dafny keyword. */
  datatype Deck = Deck(name: string, deckClass: string, format: string, cards: seq<CardCount>, code: string)

  /** The grammar positions, named in error messages as the Go code names them. */
  datatype LineKind = NameLine | ClassLine | FormatLine | EmptyLine | CardLine | CodeLine

  function LineName(k: LineKind): string {
    match k
    case NameLine => "name"
    case ClassLine => "class"
    case FormatLine => "format"
    case EmptyLine => "empty"
    case CardLine => "card"
    case CodeLine => "code"
  }

  datatype ParseError =
    | MissingLine(line: LineKind)                          // the input ended where a line was expected
    | LineFormat(line: LineKind, text: string)             // a line is there but its pattern fails
    | AssignFailed(line: LineKind, detail: AssignError)    // a matched number does not convert
    | UnexpectedCardLine(text: string, cause: ParseError)   // the card section ended on a non-`#` line
    | NotThirtyCards                                       // the terminator came with a total other than 30

  /** Which number of a card line failed to convert, its text and the conversion error. */
  datatype AssignError = CostError(text: string, cause: NumError) | CountError(text: string, cause: NumError)

  /** The text of a conversion failure: which number, the matched text, and strconv's message. */
  function AssignMessage(e: AssignError): (m: string)
    ensures e.CostError? ==> "Failed to parse cost value: " + e.text + " " <= m
    ensures e.CountError? ==> "Failed to parse count value: " + e.text + " " <= m
    ensures |m| > 18 && (m[18] == 's' <==> e.CostError?)
  {
    match e
    case CostError(text, cause) => "Failed to parse cost value: " + text + " " + NumErrorMessage(cause)
    case CountError(text, cause) => "Failed to parse count value: " + text + " " + NumErrorMessage(cause)
  }

  /** The text of the error, as the Go code formats it. */
  function Message(e: ParseError): (m: string)
    ensures m != []
    ensures m[0] == 'M' <==> e.MissingLine?
    ensures m[0] == 'U' <==> e.UnexpectedCardLine?
    ensures m[0] == 'D' <==> e.NotThirtyCards?
    ensures e.LineFormat? ==> |m| >= |e.text| && m[|m| - |e.text|..] == e.text
    ensures e.UnexpectedCardLine? ==> "Unexpected card line: " + e.text <= m
  {
    match e
    case MissingLine(k) => "Missing expected " + LineName(k) + " line"
    case LineFormat(k, text) => "Failed to parse " + LineName(k) + " line: " + text
    case AssignFailed(k, detail) => "Failed to assign " + LineName(k) + " line values: " + AssignMessage(detail)
    case UnexpectedCardLine(text, cause) =>
      var head := "Unexpected card line: " + text;
      StartsWith(head, " " + Message(cause));
      head + (" " + Message(cause))
    case NotThirtyCards => "Deck does not contain 30 cards"
  }

  /** The sum of the counts of a card list. */
  function TotalCount(cards: seq<CardCount>): int {
    if cards == [] then 0 else TotalCount(cards[..|cards| - 1]) + cards[|cards| - 1].count
  }

  /** With no negative count, the total is at least the count of every single entry. */
  lemma {:induction false} TotalCountBounds(cards: seq<CardCount>)
    requires forall i :: 0 <= i < |cards| ==> cards[i].count >= 0
    ensures forall i :: 0 <= i < |cards| ==> 0 <= cards[i].count <= TotalCount(cards)
  {
    if cards != [] {
      var init := cards[..|cards| - 1];
      TotalCountBounds(init);
      assert forall i :: 0 <= i < |init| ==> init[i] == cards[i];
    }
  }

  /**
   * The `parseLine` closure: take the line at position pos (the `nextLine` step fails when the
   * input is exhausted) and, unless there is no pattern (the separator line), match it.
   */
  function ParseLine(lines: seq<string>, pos: nat, kind: LineKind, pat: Option<Pattern>): (r: Result<seq<string>, ParseError>)
    ensures r.Success? ==> pos < |lines|
    ensures r.Success? && pat.Some? ==> |r.value| == NumSubexp(pat.value) + 1
    ensures r.Success? && pat == Some(CardPattern) ==> CardGroups(r.value)
  {
    if pos >= |lines| then Failure(MissingLine(kind))
    else if pat.None? then Success([])
    else match FindStringSubmatch(pat.value, lines[pos])
      case None => Failure(LineFormat(kind, lines[pos]))
      case Some(m) => Success(m)
  }

  /** The assignment closure of a card line: cost and count converted with Atoi, the name kept. */
  function AssignCard(m: seq<string>): (r: Result<CardCount, ParseError>)
    requires CardGroups(m)
    ensures r.Success? <==> DigitsValue(m[2]) <= MaxInt
    ensures r.Success? ==> r.value == CardCount(Card(m[3], DigitsValue(m[2])), DigitValue(m[1][0]))
  {
    assert m[1][..0] == [] && DigitsValue(m[1]) == DigitValue(m[1][0]);
    match Atoi(m[2])
    case Failure(err) => Failure(AssignFailed(CardLine, CostError(m[2], err)))
    case Success(cost) =>
      // a single digit always converts
      var count := Atoi(m[1]).value;
      Success(CardCount(Card(m[3], cost), count))
  }

  /** One iteration of the card loop: the card read from position pos, or why there is none. */
  function CardAt(lines: seq<string>, pos: nat): (r: Result<CardCount, ParseError>)
    ensures r.Success? ==> pos < |lines|
    ensures r.Success? ==> 0 <= r.value.count <= 9 && r.value.card.cost >= 0 && r.value.card.name != []
  {
    var m :- ParseLine(lines, pos, CardLine, Some(CardPattern));
    AssignCard(m)
  }

  /** The text the scanner holds at position pos: the line, or nothing once the input is exhausted. */
  function ScannerText(lines: seq<string>, pos: nat): (r: string)
    ensures r != [] ==> pos < |lines| && r == lines[pos]
  {
    if pos < |lines| then lines[pos] else ""
  }

  /** The terminator is only ever seen on an existing line: the empty text of exhausted input is not `#`. */
  lemma TerminatorNeedsLine(lines: seq<string>, pos: nat)
    requires TrimSpace(ScannerText(lines, pos)) == "#"
    ensures pos < |lines|
  {
  }

  /** The three captured header fields. */
  datatype Header = Header(name: string, deckClass: string, format: string)

  /** Lines 0 to 3: the name, class and format lines, and the separator, which is only taken. */
  function HeaderSpec(lines: seq<string>): (r: Result<Header, ParseError>)
    ensures r.Success? ==> |lines| >= 4
  {
    var name :- ParseLine(lines, 0, NameLine, Some(NamePattern));
    var deckClass :- ParseLine(lines, 1, ClassLine, Some(ClassPattern));
    var format :- ParseLine(lines, 2, FormatLine, Some(FormatPattern));
    var separator :- ParseLine(lines, 3, EmptyLine, None);
    Success(Header(name[1], deckClass[1], format[1]))
  }

  /** The outcome of the card step at every position up to |lines|, where no line is left. */
  function CardSteps(lines: seq<string>): (steps: seq<Result<CardCount, ParseError>>)
    ensures |steps| == |lines| + 1 && steps[|lines|].Failure?
  {
    seq(|lines| + 1, pos requires 0 <= pos <= |lines| => CardAt(lines, pos))
  }

  /**
   * The card section from position pos, given the outcome of the card step at each position
   * and the cards read before pos: cards are taken up to the first line that is not a card
   * line, which has to trim to `#`, and the total that comes with it has to be 30.
   */
  function CardLoop(lines: seq<string>, steps: seq<Result<CardCount, ParseError>>, pos: nat, cards: seq<CardCount>)
    : (r: Result<seq<CardCount>, ParseError>)
    requires |steps| == |lines| + 1 && steps[|lines|].Failure? && pos <= |lines|
    ensures r.Success? ==> TotalCount(r.value) == 30
    ensures r.Success? ==> cards <= r.value && pos + |r.value| - |cards| < |lines|
    decreases |lines| - pos
  {
    match steps[pos]
    case Success(c) => CardLoop(lines, steps, pos + 1, cards + [c])
    case Failure(e) =>
      var text := ScannerText(lines, pos);
      if TrimSpace(text) != "#" then Failure(UnexpectedCardLine(text, e))
      else if TotalCount(cards) != 30 then Failure(NotThirtyCards)
      else Success(cards)
  }

  /** The card section of a deck, which starts at line 4. */
  function CardsSpec(lines: seq<string>): (r: Result<seq<CardCount>, ParseError>)
    requires |lines| >= 4
    ensures r.Success? ==> 5 + |r.value| <= |lines|
    ensures r.Success? ==> TotalCount(r.value) == 30
  {
    CardLoop(lines, CardSteps(lines), 4, [])
  }

  /** The whole grammar, stated without the loop: the reference the parser is proved against. */
  function ParseSpec(lines: seq<string>): (r: Result<Deck, ParseError>)
    ensures r.Success? ==> TotalCount(r.value.cards) == 30 && 6 + |r.value.cards| <= |lines|
  {
    var header :- HeaderSpec(lines);
    var cards :- CardsSpec(lines);
    var code :- ParseLine(lines, 5 + |cards|, CodeLine, Some(CodePattern));
    Success(Deck(header.name, header.deckClass, header.format, cards, code[1]))
  }

  /** The name, class, format and separator steps of `parser.parse`. */
  method ReadHeader(lines: seq<string>) returns (r: Result<Header, ParseError>)
    ensures r == HeaderSpec(lines)
  {
    var m := ParseLine(lines, 0, NameLine, Some(NamePattern));
    if m.Failure? {
      return Failure(m.error);
    }
    var name := m.value[1];
    m := ParseLine(lines, 1, ClassLine, Some(ClassPattern));
    if m.Failure? {
      return Failure(m.error);
    }
    var deckClass := m.value[1];
    m := ParseLine(lines, 2, FormatLine, Some(FormatPattern));
    if m.Failure? {
      return Failure(m.error);
    }
    var format := m.value[1];
    m := ParseLine(lines, 3, EmptyLine, None);
    if m.Failure? {
      return Failure(m.error);
    }
    return Success(Header(name, deckClass, format));
  }

  /**
   * The card loop of `parser.parse`: append each card and add its count to the running total
   * until a line is not a card line; that line must be the terminator and the total 30.
   */
  method ReadCards(lines: seq<string>) returns (r: Result<seq<CardCount>, ParseError>)
    requires |lines| >= 4
    ensures r == CardsSpec(lines)
    ensures r.Success? ==> TotalCount(r.value) == 30
  {
    var pos := 4;
    var cards: seq<CardCount> := [];
    var deckCardCount := 0;
    ghost var steps := CardSteps(lines);
    while true
      invariant pos <= |lines|
      invariant CardLoop(lines, steps, pos, cards) == CardsSpec(lines)
      invariant deckCardCount == TotalCount(cards)
      decreases |lines| - pos
    {
      var c := CardAt(lines, pos);
      assert c == steps[pos];
      if c.Failure? {
        var text := ScannerText(lines, pos);
        if TrimSpace(text) != "#" {
          return Failure(UnexpectedCardLine(text, c.error));
        }
        if deckCardCount != 30 {
          return Failure(NotThirtyCards);
        }
        return Success(cards);
      }
      assert TotalCount(cards + [c.value]) == TotalCount(cards) + c.value.count;
      cards := cards + [c.value];
      deckCardCount := deckCardCount + c.value.count;
      pos := pos + 1;
    }
  }

  /**
   * `parser.parse`: the header, the card loop and the code line, in that order, returning at
   * the first error.
   */
  method Parse(lines: seq<string>) returns (r: Result<Deck, ParseError>)
    ensures r == ParseSpec(lines)
    ensures r.Success? ==> TotalCount(r.value.cards) == 30
  {
    var header := ReadHeader(lines);
    if header.Failure? {
      return Failure(header.error);
    }
    var cards := ReadCards(lines);
    if cards.Failure? {
      return Failure(cards.error);
    }
    var m := ParseLine(lines, 5 + |cards.value|, CodeLine, Some(CodePattern));
    if m.Failure? {
      return Failure(m.error);
    }
    return Success(Deck(header.value.name, header.value.deckClass, header.value.format, cards.value, m.value[1]));
  }
}
