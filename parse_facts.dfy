/**
 * What the deck parser of parse.go accepts and how it fails, stated without the step
 * sequence the module Parse uses: a deck is accepted exactly when its lines are, in order,
 * a name, a class and a format line, any separator line, the card lines, a line that trims
 * to `#` and a non-empty code line, and the card counts add up to 30.
 */
module ParseFacts {
  import opened Wrappers
  import opened Text
  import opened Patterns
  import opened Parse

  /** The first group of the leftmost match of p, if p matches. */
  function Group(p: Pattern, line: string): Option<string> {
    match FindStringSubmatch(p, line)
    case None => None
    case Some(m) => if |m| >= 2 then Some(m[1]) else None
  }

  /** The lines from position 4 on start with one card line for each entry of cards, in order. */
  ghost predicate CardLines(lines: seq<string>, cards: seq<CardCount>) {
    forall i :: 4 <= i < 4 + |cards| ==> CardAt(lines, i) == Success(cards[i - 4])
  }

  /** The declarative grammar of an accepted deck. */
  ghost predicate Accepted(lines: seq<string>, d: Deck) {
    var k := |d.cards|;
    6 + k <= |lines|
    && Group(NamePattern, lines[0]) == Some(d.name)
    && Group(ClassPattern, lines[1]) == Some(d.deckClass)
    && Group(FormatPattern, lines[2]) == Some(d.format)
    && CardLines(lines, d.cards)
    && TrimSpace(lines[4 + k]) == "#"
    && TotalCount(d.cards) == 30
    && Group(CodePattern, lines[5 + k]) == Some(d.code)
  }

  // ---- the card section without the step sequence ----

  /** Reading the cards of successful steps from entry i on brings the loop past the last of them. */
  lemma {:induction false} LoopThroughCards(lines: seq<string>, steps: seq<Result<CardCount, ParseError>>,
                                            cards: seq<CardCount>, i: nat)
    requires |steps| == |lines| + 1 && steps[|lines|].Failure? && 4 + |cards| <= |lines|
    requires forall j :: 0 <= j < |cards| ==> steps[4 + j] == Success(cards[j])
    requires i <= |cards|
    ensures CardLoop(lines, steps, 4 + i, cards[..i]) == CardLoop(lines, steps, 4 + |cards|, cards)
    decreases |cards| - i
  {
    if i < |cards| {
      assert steps[4 + i] == Success(cards[i]);
      assert cards[..i] + [cards[i]] == cards[..i + 1];
      LoopThroughCards(lines, steps, cards, i + 1);
    } else {
      assert cards[..i] == cards;
    }
  }

  /**
   * Whatever cards precede the first line that is not a card line decide the card section:
   * the outcome is the one parse.go takes at that line.
   */
  lemma CardsSpecFramed(lines: seq<string>, cards: seq<CardCount>)
    requires |lines| >= 4 && CardLines(lines, cards) && CardAt(lines, 4 + |cards|).Failure?
    ensures var text := ScannerText(lines, 4 + |cards|);
            CardsSpec(lines) == if TrimSpace(text) != "#" then Failure(UnexpectedCardLine(text, CardAt(lines, 4 + |cards|).error))
                                else if TotalCount(cards) != 30 then Failure(NotThirtyCards)
                                else Success(cards)
  {
    var steps := CardSteps(lines);
    if cards != [] {
      assert CardAt(lines, 3 + |cards|).Success?;
    }
    forall j | 0 <= j < |cards|
      ensures steps[4 + j] == Success(cards[j])
    {
      assert CardAt(lines, 4 + j) == Success(cards[j]);
    }
    LoopThroughCards(lines, steps, cards, 0);
    assert cards[..0] == [];
    assert steps[4 + |cards|] == CardAt(lines, 4 + |cards|);
  }

  /** The card loop stops somewhere: the successful steps from pos on end at a failed one. */
  lemma {:induction false} RunEnd(lines: seq<string>, steps: seq<Result<CardCount, ParseError>>, pos: nat) returns (end: nat)
    requires |steps| == |lines| + 1 && steps[|lines|].Failure? && 4 <= pos <= |lines|
    requires forall j :: 4 <= j < pos ==> steps[j].Success?
    ensures pos <= end <= |lines| && steps[end].Failure?
    ensures forall j :: 4 <= j < end ==> steps[j].Success?
    decreases |lines| - pos
  {
    if steps[pos].Success? {
      end := RunEnd(lines, steps, pos + 1);
    } else {
      end := pos;
    }
  }

  /** The cards of the successful steps from position 4 to end. */
  lemma StepCards(steps: seq<Result<CardCount, ParseError>>, end: nat) returns (cards: seq<CardCount>)
    requires 4 <= end <= |steps| && forall j :: 4 <= j < end ==> steps[j].Success?
    ensures |cards| == end - 4 && forall j :: 0 <= j < |cards| ==> steps[4 + j] == Success(cards[j])
  {
    cards := seq(end - 4, j requires 0 <= j < end - 4 => steps[4 + j].value);
  }

  /** The card step read off CardSteps is CardAt. */
  lemma StepsAreCards(lines: seq<string>, cards: seq<CardCount>)
    requires 4 + |cards| <= |lines|
    requires forall j :: 0 <= j < |cards| ==> CardSteps(lines)[4 + j] == Success(cards[j])
    ensures CardLines(lines, cards)
  {
    forall i | 4 <= i < 4 + |cards|
      ensures CardAt(lines, i) == Success(cards[i - 4])
    {
      assert CardSteps(lines)[4 + (i - 4)] == Success(cards[i - 4]);
    }
  }

  /** The card lines that precede the first non-card line always exist. */
  lemma CardsSplit(lines: seq<string>) returns (cards: seq<CardCount>)
    requires |lines| >= 4
    ensures CardLines(lines, cards) && CardAt(lines, 4 + |cards|).Failure?
  {
    var steps := CardSteps(lines);
    var end := RunEnd(lines, steps, 4);
    cards := StepCards(steps, end);
    StepsAreCards(lines, cards);
    assert steps[end] == CardAt(lines, end);
  }

  /** A line that trims to `#` is never a card line, so the card loop always stops at it. */
  lemma TerminatorNotCard(line: string)
    requires TrimSpace(line) == "#"
    ensures FindStringSubmatch(CardPattern, line).None?
  {
    var i := TerminatorShape(line);
    forall k | 0 <= k <= |line|
      ensures MatchAt(CardPattern, line, k).None?
    {
      HashAmidSpaceNoCardAt(line, i, k);
    }
    LeftmostNone(CardPattern, line);
  }

  /** A line that trims to `#` is a `#` with white space only around it. */
  lemma TerminatorShape(line: string) returns (i: nat)
    requires TrimSpace(line) == "#"
    ensures i < |line| && line[i] == '#' && AllSpace(line[..i]) && AllSpace(line[i + 1..])
  {
    TrimSpaceIsSlice(line);
    i :| 0 <= i <= |line| - 1 && "#" == line[i..i + 1] && AllSpace(line[..i]) && AllSpace(line[i + 1..]);
    assert line[i] == '#';
  }

  /** A `#` with only white space around it leaves no place for the card pattern to start. */
  lemma HashAmidSpaceNoCardAt(line: string, i: nat, k: nat)
    requires i < |line| && line[i] == '#' && AllSpace(line[..i]) && AllSpace(line[i + 1..])
    requires k <= |line|
    ensures MatchCardAt(line, k).None?
  {
    if k + 6 <= |line| {
      if k < i {
        assert IsSpace(line[..i][k]);
      } else if k > i {
        assert IsSpace(line[i + 1..][k - i - 1]);
      } else {
        assert IsSpace(line[i + 1..][1]);
      }
    }
  }

  /** A terminator line ends the card section: the card loop fails there with no card read. */
  lemma TerminatorStopsCards(lines: seq<string>, pos: nat)
    requires pos < |lines| && TrimSpace(lines[pos]) == "#"
    ensures CardAt(lines, pos).Failure?
  {
    TerminatorNotCard(lines[pos]);
    NoMatchNoCard(lines, pos);
  }

  /** A line the card pattern does not match gives no card. */
  lemma NoMatchNoCard(lines: seq<string>, pos: nat)
    requires pos < |lines| && FindStringSubmatch(CardPattern, lines[pos]).None?
    ensures CardAt(lines, pos) == Failure(LineFormat(CardLine, lines[pos]))
  {
  }

  // ---- the header ----

  lemma HeaderAccepted(lines: seq<string>, h: Header)
    ensures HeaderSpec(lines) == Success(h) <==>
            |lines| >= 4 && Group(NamePattern, lines[0]) == Some(h.name)
            && Group(ClassPattern, lines[1]) == Some(h.deckClass)
            && Group(FormatPattern, lines[2]) == Some(h.format)
  {
  }

  // ---- the whole parser ----

  /**
   * parse.go returns a deck exactly for the inputs of the declarative grammar, and the deck
   * it returns is the one that grammar describes.
   */
  lemma ParseAccepted(lines: seq<string>, d: Deck)
    ensures ParseSpec(lines) == Success(d) <==> Accepted(lines, d)
  {
    ParseSpecParts(lines, d);
    if ParseSpec(lines) == Success(d) {
      ParseSound(lines, d);
    }
    if Accepted(lines, d) {
      ParseComplete(lines, d);
    }
  }

  /** ParseSpec succeeds exactly when its three parts do. */
  lemma ParseSpecParts(lines: seq<string>, d: Deck)
    ensures ParseSpec(lines) == Success(d) <==>
            HeaderSpec(lines) == Success(Header(d.name, d.deckClass, d.format))
            && CardsSpec(lines) == Success(d.cards)
            && 5 + |d.cards| < |lines| && Group(CodePattern, lines[5 + |d.cards|]) == Some(d.code)
  {
    ParseSpecSteps(lines, d);
    CodeLineGroup(lines, 5 + |d.cards|);
  }

  lemma ParseSpecSteps(lines: seq<string>, d: Deck)
    ensures ParseSpec(lines) == Success(d) <==>
            HeaderSpec(lines) == Success(Header(d.name, d.deckClass, d.format))
            && CardsSpec(lines) == Success(d.cards)
            && ParseLine(lines, 5 + |d.cards|, CodeLine, Some(CodePattern)).Success?
            && ParseLine(lines, 5 + |d.cards|, CodeLine, Some(CodePattern)).value[1] == d.code
  {
    var h := HeaderSpec(lines);
    if h.Failure? {
      assert ParseSpec(lines) == Failure(h.error);
    } else {
      var c := CardsSpec(lines);
      if c.Failure? {
        assert ParseSpec(lines) == Failure(c.error);
      } else {
        var m := ParseLine(lines, 5 + |c.value|, CodeLine, Some(CodePattern));
        if m.Failure? {
          assert ParseSpec(lines) == Failure(m.error);
        } else {
          assert ParseSpec(lines) == Success(Deck(h.value.name, h.value.deckClass, h.value.format, c.value, m.value[1]));
        }
      }
    }
  }

  /** The code step succeeds exactly when there is a line and the code pattern matches it. */
  lemma CodeLineGroup(lines: seq<string>, pos: nat)
    ensures var r := ParseLine(lines, pos, CodeLine, Some(CodePattern));
            r.Success? <==> pos < |lines| && Group(CodePattern, lines[pos]).Some?
    ensures var r := ParseLine(lines, pos, CodeLine, Some(CodePattern));
            r.Success? ==> Group(CodePattern, lines[pos]) == Some(r.value[1])
  {
  }

  lemma ParseSound(lines: seq<string>, d: Deck)
    requires HeaderSpec(lines) == Success(Header(d.name, d.deckClass, d.format))
    requires CardsSpec(lines) == Success(d.cards)
    requires 5 + |d.cards| < |lines| && Group(CodePattern, lines[5 + |d.cards|]) == Some(d.code)
    ensures Accepted(lines, d)
  {
    HeaderAccepted(lines, Header(d.name, d.deckClass, d.format));
    var cards := CardsSplit(lines);
    CardsSpecFramed(lines, cards);
    assert CardsSpec(lines) == Success(cards);
  }

  lemma ParseComplete(lines: seq<string>, d: Deck)
    requires Accepted(lines, d)
    ensures HeaderSpec(lines) == Success(Header(d.name, d.deckClass, d.format))
    ensures CardsSpec(lines) == Success(d.cards)
  {
    HeaderAccepted(lines, Header(d.name, d.deckClass, d.format));
    TerminatorStopsCards(lines, 4 + |d.cards|);
    CardsSpecFramed(lines, d.cards);
  }

  /** Every accepted deck holds exactly 30 cards, counted with their counts. */
  lemma AcceptedThirty(lines: seq<string>, d: Deck)
    requires ParseSpec(lines) == Success(d)
    ensures TotalCount(d.cards) == 30 && 6 + |d.cards| <= |lines|
  {
    ParseAccepted(lines, d);
  }

  // ---- how it fails ----

  /** The pattern of header line i (0 to 2). */
  function HeaderPattern(i: nat): Pattern {
    if i == 0 then NamePattern else if i == 1 then ClassPattern else FormatPattern
  }

  /** The name of header line i (0 to 3) in error messages. */
  function HeaderKind(i: nat): LineKind {
    if i == 0 then NameLine else if i == 1 then ClassLine else if i == 2 then FormatLine else EmptyLine
  }

  /** The first n lines are there and, among the name, class and format lines, match their patterns. */
  ghost predicate HeaderUpTo(lines: seq<string>, n: nat) {
    n <= |lines| && forall i :: 0 <= i < n && i < 3 ==> Group(HeaderPattern(i), lines[i]).Some?
  }

  /**
   * The parse fails at the first header line that is missing (`Missing expected <X> line`) or
   * that its pattern rejects (`Failed to parse <X> line: <text>`); the separator is only missing.
   */
  lemma HeaderFailures(lines: seq<string>, n: nat)
    requires n < 4 && HeaderUpTo(lines, n)
    ensures n == |lines| ==> ParseSpec(lines) == Failure(MissingLine(HeaderKind(n)))
    ensures n < |lines| && n < 3 && Group(HeaderPattern(n), lines[n]).None?
            ==> ParseSpec(lines) == Failure(LineFormat(HeaderKind(n), lines[n]))
  {
    if n > 0 {
      assert Group(NamePattern, lines[0]).Some?;
    }
    if n > 1 {
      assert Group(ClassPattern, lines[1]).Some?;
    }
    if n > 2 {
      assert Group(FormatPattern, lines[2]).Some?;
    }
  }

  /**
   * After the header, a failing card section is the parse's failure; after the cards, a
   * missing code line or an empty one fails the parse.
   */
  lemma LaterFailures(lines: seq<string>)
    requires HeaderSpec(lines).Success?
    ensures CardsSpec(lines).Failure? ==> ParseSpec(lines) == Failure(CardsSpec(lines).error)
    ensures CardsSpec(lines).Success? && 5 + |CardsSpec(lines).value| == |lines|
            ==> ParseSpec(lines) == Failure(MissingLine(CodeLine))
    ensures var cards := CardsSpec(lines);
            cards.Success? && 5 + |cards.value| < |lines| && Group(CodePattern, lines[5 + |cards.value|]).None?
            ==> ParseSpec(lines) == Failure(LineFormat(CodeLine, lines[5 + |cards.value|]))
  {
  }

  /**
   * A card line gives one entry: the count is its single digit, the cost the value of its
   * digit run, the name the rest of the line; it fails only when the cost exceeds a 64-bit int.
   */
  lemma CardEntry(lines: seq<string>, pos: nat)
    requires pos < |lines|
    ensures var m := FindStringSubmatch(CardPattern, lines[pos]);
            CardAt(lines, pos).Success? <==> m.Some? && DigitsValue(m.value[2]) <= MaxInt
    ensures var m := FindStringSubmatch(CardPattern, lines[pos]);
            CardAt(lines, pos).Success? ==>
              var c := CardAt(lines, pos).value;
              c == CardCount(Card(m.value[3], DigitsValue(m.value[2])), DigitValue(m.value[1][0]))
              && 0 <= c.count <= 9 && c.card.name != []
  {
  }

  /** Lines after the code line are never read: appending lines keeps an accepted deck. */
  lemma TrailingLinesIgnored(lines: seq<string>, extra: seq<string>, d: Deck)
    requires ParseSpec(lines) == Success(d)
    ensures ParseSpec(lines + extra) == Success(d)
  {
    var all := lines + extra;
    ParseAccepted(lines, d);
    forall i | 4 <= i < 4 + |d.cards|
      ensures CardAt(all, i) == Success(d.cards[i - 4])
    {
      assert all[i] == lines[i];
      assert CardAt(all, i) == CardAt(lines, i);
    }
    assert all[..6 + |d.cards|] == lines[..6 + |d.cards|];
    assert Accepted(all, d);
    ParseAccepted(all, d);
  }

  /** The code is the whole line after the terminator, which is not empty. */
  lemma AcceptedCode(lines: seq<string>, d: Deck)
    requires ParseSpec(lines) == Success(d) && forall line :: line in lines ==> '\n' !in line
    ensures 6 + |d.cards| <= |lines| && d.code == lines[5 + |d.cards|] && d.code != []
  {
    ParseAccepted(lines, d);
    CodePatternSemantics(lines[5 + |d.cards|]);
  }
}
