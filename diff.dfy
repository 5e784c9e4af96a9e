/**
 * The deck differ of diff.go. Two decks are compared card identity by card identity, an
 * identity being the pair (name, cost). Each deck gives a card the count of its LAST entry
 * for that card (or 0 when it has none); cards whose count grew go to Added and cards whose
 * count shrank to Removed, each with the size of the change, and both lists are sorted by
 * cost and then by name.
 */
module Diff {
  import opened Text
  import opened Parse

  /** `deckDiff`: the two decks compared and the entries to add and to remove. */
  datatype DeckDiff = DeckDiff(from: Deck, to: Deck, added: seq<CardCount>, removed: seq<CardCount>)

  // ---- the count a deck gives a card ----

  /** The card identities a card list mentions. */
  function Ids(cards: seq<CardCount>): set<Card> {
    set e | e in cards :: e.card
  }

  /** The count of the last entry for c, or 0 when there is none: later entries overwrite earlier ones. */
  function LastCount(cards: seq<CardCount>, c: Card): int {
    if cards == [] then 0
    else if cards[|cards| - 1].card == c then cards[|cards| - 1].count
    else LastCount(cards[..|cards| - 1], c)
  }

  /** A non-zero count is the count of some entry for that card. */
  lemma {:induction false} LastCountFromEntry(cards: seq<CardCount>, c: Card)
    requires LastCount(cards, c) != 0
    ensures exists i :: 0 <= i < |cards| && cards[i] == CardCount(c, LastCount(cards, c))
  {
    if cards[|cards| - 1].card == c {
      assert cards[|cards| - 1] == CardCount(c, LastCount(cards, c));
    } else {
      var init := cards[..|cards| - 1];
      LastCountFromEntry(init, c);
      var i :| 0 <= i < |init| && init[i] == CardCount(c, LastCount(init, c));
      assert cards[i] == init[i];
    }
  }

  /** A card a list does not mention counts 0 there. */
  lemma {:induction false} AbsentCountsZero(cards: seq<CardCount>, c: Card)
    requires c !in Ids(cards)
    ensures LastCount(cards, c) == 0
  {
    if cards != [] {
      assert cards[|cards| - 1] in cards;
      assert Ids(cards[..|cards| - 1]) <= Ids(cards) by {
        forall e | e in cards[..|cards| - 1] ensures e in cards { }
      }
      AbsentCountsZero(cards[..|cards| - 1], c);
    }
  }

  /** The entry at position i decides the count of its card when no later entry names that card. */
  lemma {:induction false} LastEntryWins(cards: seq<CardCount>, i: nat)
    requires i < |cards|
    requires forall j :: i < j < |cards| ==> cards[j].card != cards[i].card
    ensures LastCount(cards, cards[i].card) == cards[i].count
  {
    if i < |cards| - 1 {
      var init := cards[..|cards| - 1];
      assert init[i] == cards[i];
      LastEntryWins(init, i);
    }
  }

  /** Two entries for one card: the count is the second one's, not their sum. */
  lemma DuplicateNotSummed(c: Card)
    ensures LastCount([CardCount(c, 2), CardCount(c, 1)], c) == 1
  {
    LastEntryWins([CardCount(c, 2), CardCount(c, 1)], 1);
  }

  /**
   * The map diff.go builds: each card of either list to the pair (count in from, count in to).
   */
  function Tally(from: seq<CardCount>, to: seq<CardCount>): (t: map<Card, (int, int)>)
    ensures forall e :: e in from ==> e.card in t
    ensures forall e :: e in to ==> e.card in t
    ensures from != [] ==> t[from[|from| - 1].card].0 == from[|from| - 1].count
    ensures to != [] ==> t[to[|to| - 1].card].1 == to[|to| - 1].count
  {
    map c | c in Ids(from) + Ids(to) :: (LastCount(from, c), LastCount(to, c))
  }

  /** Ids of a list grown by one entry. */
  lemma IdsPush(cards: seq<CardCount>, e: CardCount)
    ensures Ids(cards + [e]) == Ids(cards) + {e.card}
  {
    assert forall x :: x in cards + [e] <==> x in cards || x == e;
  }

  /** The first loop of diff: an entry of from overwrites its card with (its count, 0). */
  lemma TallyPushFrom(from: seq<CardCount>, e: CardCount)
    ensures Tally(from + [e], []) == Tally(from, [])[e.card := (e.count, 0)]
  {
    IdsPush(from, e);
    var s := from + [e];
    assert s[..|s| - 1] == from;
  }

  /**
   * The second loop of diff: an entry of to sets the second count of its card, which keeps
   * its first count, or is added with first count 0.
   */
  lemma TallyPushTo(from: seq<CardCount>, to: seq<CardCount>, e: CardCount)
    ensures var t := Tally(from, to);
            Tally(from, to + [e]) == t[e.card := (if e.card in t then t[e.card].0 else 0, e.count)]
  {
    IdsPush(to, e);
    var s := to + [e];
    assert s[..|s| - 1] == to;
    if e.card !in Tally(from, to) {
      AbsentCountsZero(from, e.card);
    }
  }

  // ---- which entries the lists hold ----

  /** The entries for the cards of keys whose second count exceeds the first, with the excess. */
  function Grown(t: map<Card, (int, int)>, keys: set<Card>): set<CardCount> {
    set c | c in keys && c in t && t[c].1 > t[c].0 :: CardCount(c, t[c].1 - t[c].0)
  }

  /** The entries for the cards of keys whose first count exceeds the second, with the excess. */
  function Shrunk(t: map<Card, (int, int)>, keys: set<Card>): set<CardCount> {
    set c | c in keys && c in t && t[c].0 > t[c].1 :: CardCount(c, t[c].0 - t[c].1)
  }

  /** The entries of Added: every card whose count grows from `from` to `to`, with the growth. */
  function AddedSet(from: Deck, to: Deck): set<CardCount> {
    var t := Tally(from.cards, to.cards);
    Grown(t, t.Keys)
  }

  /** The entries of Removed: every card whose count shrinks from `from` to `to`, with the loss. */
  function RemovedSet(from: Deck, to: Deck): set<CardCount> {
    var t := Tally(from.cards, to.cards);
    Shrunk(t, t.Keys)
  }

  /** Membership in Grown, entry by entry. */
  lemma GrownMember(t: map<Card, (int, int)>, keys: set<Card>, e: CardCount)
    ensures e in Grown(t, keys) <==> e.card in keys && e.card in t && t[e.card].1 > t[e.card].0
                                     && e.count == t[e.card].1 - t[e.card].0
  {
    if e.card in keys && e.card in t && t[e.card].1 > t[e.card].0 && e.count == t[e.card].1 - t[e.card].0 {
      assert e == CardCount(e.card, t[e.card].1 - t[e.card].0);
    }
  }

  /** Membership in Shrunk, entry by entry. */
  lemma ShrunkMember(t: map<Card, (int, int)>, keys: set<Card>, e: CardCount)
    ensures e in Shrunk(t, keys) <==> e.card in keys && e.card in t && t[e.card].0 > t[e.card].1
                                      && e.count == t[e.card].0 - t[e.card].1
  {
    if e.card in keys && e.card in t && t[e.card].0 > t[e.card].1 && e.count == t[e.card].0 - t[e.card].1 {
      assert e == CardCount(e.card, t[e.card].0 - t[e.card].1);
    }
  }

  // ---- the order of the lists ----

  /** diffCardCount.Less: cheaper first, and for one cost `sort.StringsAreSorted` on the two names. */
  predicate Less(x: CardCount, y: CardCount)
    ensures x.card == y.card ==> Less(x, y)
    ensures Less(x, y) ==> x.card.cost <= y.card.cost
  {
    if x.card.cost != y.card.cost then x.card.cost < y.card.cost else StringLe(x.card.name, y.card.name)
  }

  /** Any two entries are ordered one way or the other. */
  lemma LessTotal(x: CardCount, y: CardCount)
    ensures Less(x, y) || Less(y, x)
  {
    StringLeTotal(x.card.name, y.card.name);
  }

  lemma LessTransitive(x: CardCount, y: CardCount, z: CardCount)
    requires Less(x, y) && Less(y, z)
    ensures Less(x, z)
  {
    if x.card.cost == y.card.cost == z.card.cost {
      StringLeTransitive(x.card.name, y.card.name, z.card.name);
    }
  }

  /** Entries ordered both ways are for the same card: Less orders card identities totally. */
  lemma LessAntisymmetric(x: CardCount, y: CardCount)
    requires Less(x, y) && Less(y, x)
    ensures x.card == y.card
  {
    StringLeAntisymmetric(x.card.name, y.card.name);
  }

  /** Each entry is ordered before the next one: what sort.Sort establishes with Less. */
  predicate AdjacentSorted(s: seq<CardCount>) {
    forall p :: 0 < p < |s| ==> Less(s[p - 1], s[p])
  }

  /** No two entries are for the same card. */
  predicate DistinctCards(s: seq<CardCount>) {
    forall p, q :: 0 <= p < q < |s| ==> s[p].card != s[q].card
  }

  /** Strictly ascending by cost, then by name: every entry comes before every later one. */
  predicate Ascending(s: seq<CardCount>) {
    DistinctCards(s) && forall p, q :: 0 <= p < q < |s| ==> Less(s[p], s[q])
  }

  /** A list sorted step by step, with no card twice, is strictly ascending. */
  lemma {:induction false} SortedAscending(s: seq<CardCount>)
    requires AdjacentSorted(s) && DistinctCards(s)
    ensures Ascending(s)
  {
    if |s| > 1 {
      var init := s[..|s| - 1];
      assert AdjacentSorted(init) && DistinctCards(init);
      SortedAscending(init);
      forall p, q | 0 <= p < q < |s|
        ensures Less(s[p], s[q])
      {
        if q == |s| - 1 && p < q - 1 {
          assert Less(init[p], init[q - 1]);
          LessTransitive(s[p], s[q - 1], s[q]);
        } else if q < |s| - 1 {
          assert Less(init[p], init[q]);
        }
      }
    }
  }

  /**
   * Only one order is strictly ascending: two such lists holding the same entries are equal.
   * So the sorted lists do not depend on the order in which the map was walked.
   */
  lemma {:induction false} AscendingUnique(s: seq<CardCount>, t: seq<CardCount>)
    requires Ascending(s) && Ascending(t)
    requires forall e :: e in s <==> e in t
    ensures s == t
  {
    SameEntriesEmpty(s, t);
    if s != [] {
      assert s[0] in t && t[0] in s;
      var k :| 0 <= k < |t| && t[k] == s[0];
      var m :| 0 <= m < |s| && s[m] == t[0];
      if k != 0 {
        assert m != 0;
        LessAntisymmetric(s[0], t[0]);
        assert false;
      }
      forall e
        ensures e in s[1..] <==> e in t[1..]
      {
        if e in s[1..] {
          var p :| 1 <= p < |s| && s[p] == e;
          assert e in t;
          var q :| 0 <= q < |t| && t[q] == e;
          assert q != 0 && t[1..][q - 1] == e;
        }
        if e in t[1..] {
          var q :| 1 <= q < |t| && t[q] == e;
          assert e in s;
          var p :| 0 <= p < |s| && s[p] == e;
          assert p != 0 && s[1..][p - 1] == e;
        }
      }
      AscendingUnique(s[1..], t[1..]);
    }
  }

  /** Lists holding the same entries are empty together. */
  lemma SameEntriesEmpty(s: seq<CardCount>, t: seq<CardCount>)
    requires forall e :: e in s <==> e in t
    ensures s == [] <==> t == []
  {
    if s != [] {
      assert s[0] in t;
    }
    if t != [] {
      assert t[0] in s;
    }
  }

  // ---- the computation ----

  /** What `diff(from, to)` returns: both decks, and each list holding exactly its entries, ascending. */
  ghost predicate IsDiff(from: Deck, to: Deck, d: DeckDiff) {
    d.from == from && d.to == to
    && Ascending(d.added) && (forall e :: e in d.added <==> e in AddedSet(from, to))
    && Ascending(d.removed) && (forall e :: e in d.removed <==> e in RemovedSet(from, to))
  }

  /** diffCardCount.Swap: exchange the entries at positions i and j. */
  method Swap(a: array<CardCount>, i: nat, j: nat)
    requires i < a.Length && j < a.Length
    modifies a
    ensures a[..] == old(a[..])[i := old(a[j])][j := old(a[i])]
  {
    a[i], a[j] := a[j], a[i];
  }

  /**
   * The state of the inner loop of the insertion sort while the entry taken from position i
   * sits at position j: ordered up to j and from j to i, and j's neighbours ordered with
   * each other.
   */
  predicate Sinking(s: seq<CardCount>, j: nat, i: nat) {
    j <= i < |s|
    && (forall p :: 0 < p < j ==> Less(s[p - 1], s[p]))
    && (forall p :: j < p <= i ==> Less(s[p - 1], s[p]))
    && (0 < j < i ==> Less(s[j - 1], s[j + 1]))
  }

  /** Swapping the entry one place down keeps the inner loop's state. */
  lemma SinkStep(s: seq<CardCount>, j: nat, i: nat)
    requires Sinking(s, j, i) && 0 < j && Less(s[j], s[j - 1])
    ensures Sinking(s[j := s[j - 1]][j - 1 := s[j]], j - 1, i)
    ensures multiset(s[j := s[j - 1]][j - 1 := s[j]]) == multiset(s)
  {
    var t := s[j := s[j - 1]][j - 1 := s[j]];
    forall p | j - 1 < p <= i
      ensures Less(t[p - 1], t[p])
    {
      if p == j {
        LessTotal(s[j], s[j - 1]);
      } else if p == j + 1 {
        assert t[p - 1] == s[j - 1] && t[p] == s[j + 1];
      }
    }
    if 0 < j - 1 {
      assert Less(s[j - 2], s[j - 1]);
    }
  }

  /** Once the entry stops, the list is ordered up to i. */
  lemma SinkDone(s: seq<CardCount>, j: nat, i: nat)
    requires Sinking(s, j, i) && (j == 0 || !Less(s[j], s[j - 1]))
    ensures forall p :: 0 < p <= i ==> Less(s[p - 1], s[p])
  {
    if j > 0 {
      LessTotal(s[j], s[j - 1]);
    }
  }

  /** The entries before position n are each ordered after their left neighbour. */
  predicate SortedBelow(s: seq<CardCount>, n: nat) {
    forall p :: 0 < p < n && p < |s| ==> Less(s[p - 1], s[p])
  }

  /** One step of the inner loop: the sinking entry changes places with its left neighbour. */
  method SwapDown(a: array<CardCount>, j: nat, i: nat)
    requires Sinking(a[..], j, i) && 0 < j && Less(a[j], a[j - 1])
    modifies a
    ensures a[..] == old(a[..])[j := old(a[j - 1])][j - 1 := old(a[j])]
    ensures Sinking(a[..], j - 1, i)
    ensures multiset(a[..]) == multiset(old(a[..]))
  {
    ghost var s := a[..];
    SinkStep(s, j, i);
    Swap(a, j, j - 1);
    assert a[..] == s[j := s[j - 1]][j - 1 := s[j]];
  }

  /**
   * The inner loop of Go's insertion sort: the entry at position i is moved down by Swap while
   * Less says it belongs before its left neighbour.
   */
  method Sink(a: array<CardCount>, i: nat)
    requires i < a.Length && SortedBelow(a[..], i)
    modifies a
    ensures SortedBelow(a[..], i + 1)
    ensures multiset(a[..]) == multiset(old(a[..]))
    ensures a[i + 1..] == old(a[i + 1..])
  {
    var j: nat := i;
    while j > 0 && Less(a[j], a[j - 1])
      invariant Sinking(a[..], j, i)
      invariant multiset(a[..]) == multiset(old(a[..]))
      invariant a[i + 1..] == old(a[i + 1..])
    {
      SwapDown(a, j, i);
      j := j - 1;
    }
    SinkDone(a[..], j, i);
  }

  /** sort.Sort on a diffCardCount, as Go's insertion sort runs it: each entry in turn is sunk into place. */
  method Sort(a: array<CardCount>)
    modifies a
    ensures AdjacentSorted(a[..])
    ensures multiset(a[..]) == multiset(old(a[..]))
  {
    var i := 1;
    while i < a.Length
      invariant 1 <= i && (i <= a.Length || a.Length == 0)
      invariant SortedBelow(a[..], i)
      invariant multiset(a[..]) == multiset(old(a[..]))
    {
      Sink(a, i);
      i := i + 1;
    }
  }

  // ---- permutations ----

  /** In a list with no card twice, no entry occurs twice. */
  lemma {:induction false} DistinctOnce(s: seq<CardCount>, x: CardCount)
    requires DistinctCards(s)
    ensures multiset(s)[x] <= 1
  {
    if s != [] {
      var init := s[..|s| - 1];
      assert s == init + [s[|s| - 1]];
      assert DistinctCards(init);
      DistinctOnce(init, x);
      if x == s[|s| - 1] {
        assert x !in init by {
          forall p | 0 <= p < |init| ensures init[p] != x {
            assert s[p].card != s[|s| - 1].card;
          }
        }
      }
    }
  }

  /** An entry at two positions occurs at least twice. */
  lemma Twice(t: seq<CardCount>, p: nat, q: nat)
    requires p < q < |t| && t[p] == t[q]
    ensures multiset(t)[t[p]] >= 2
  {
    assert t == t[..q] + t[q..];
    assert t[p] in t[..q] && t[q] in t[q..];
  }

  /** A permutation of a list with no card twice has no card twice. */
  lemma PermutationDistinct(s: seq<CardCount>, t: seq<CardCount>)
    requires multiset(s) == multiset(t) && DistinctCards(s)
    ensures DistinctCards(t)
  {
    forall p, q | 0 <= p < q < |t|
      ensures t[p].card != t[q].card
    {
      if t[p] == t[q] {
        Twice(t, p, q);
        DistinctOnce(s, t[p]);
      } else {
        assert t[p] in multiset(s) && t[q] in multiset(s);
        var p' :| 0 <= p' < |s| && s[p'] == t[p];
        var q' :| 0 <= q' < |s| && s[q'] == t[q];
        assert p' != q';
      }
    }
  }

  // ---- diff ----

  /**
   * The first two loops of `diff`: every entry of from sets its card to (count, 0), then every
   * entry of to sets the second count of its card, adding the card with first count 0 if new.
   */
  method TallyDecks(from: Deck, to: Deck) returns (cards: map<Card, (int, int)>)
    ensures cards == Tally(from.cards, to.cards)
  {
    cards := map[];
    var i := 0;
    while i < |from.cards|
      invariant i <= |from.cards|
      invariant cards == Tally(from.cards[..i], [])
    {
      var c := from.cards[i];
      assert from.cards[..i + 1] == from.cards[..i] + [c];
      TallyPushFrom(from.cards[..i], c);
      cards := cards[c.card := (c.count, 0)];
      i := i + 1;
    }
    assert from.cards[..i] == from.cards;
    i := 0;
    while i < |to.cards|
      invariant i <= |to.cards|
      invariant cards == Tally(from.cards, to.cards[..i])
    {
      var c := to.cards[i];
      assert to.cards[..i + 1] == to.cards[..i] + [c];
      TallyPushTo(from.cards, to.cards[..i], c);
      if c.card in cards {
        cards := cards[c.card := (cards[c.card].0, c.count)];
      } else {
        cards := cards[c.card := (0, c.count)];
      }
      i := i + 1;
    }
    assert to.cards[..i] == to.cards;
  }

  /**
   * The third loop of `diff`: walk the map in any order (Go leaves it unspecified), skip the
   * cards with equal counts and collect the others in Removed or Added with the difference.
   */
  method Partition(cards: map<Card, (int, int)>) returns (added: seq<CardCount>, removed: seq<CardCount>)
    ensures forall e :: e in added <==> e in Grown(cards, cards.Keys)
    ensures forall e :: e in removed <==> e in Shrunk(cards, cards.Keys)
    ensures DistinctCards(added) && DistinctCards(removed)
  {
    added := [];
    removed := [];
    var todo := cards.Keys;
    while todo != {}
      invariant todo <= cards.Keys
      invariant forall e :: e in added <==> e.card in cards && e.card !in todo
                                            && cards[e.card].1 > cards[e.card].0
                                            && e.count == cards[e.card].1 - cards[e.card].0
      invariant forall e :: e in removed <==> e.card in cards && e.card !in todo
                                              && cards[e.card].0 > cards[e.card].1
                                              && e.count == cards[e.card].0 - cards[e.card].1
      invariant DistinctCards(added) && DistinctCards(removed)
      decreases todo
    {
      var c :| c in todo;
      var counts := cards[c];
      todo := todo - {c};
      if counts.0 == counts.1 {
        continue;
      }
      if counts.0 > counts.1 {
        removed := removed + [CardCount(c, counts.0 - counts.1)];
      }
      if counts.1 > counts.0 {
        added := added + [CardCount(c, counts.1 - counts.0)];
      }
    }
    forall e
      ensures e in added <==> e in Grown(cards, cards.Keys)
      ensures e in removed <==> e in Shrunk(cards, cards.Keys)
    {
      GrownMember(cards, cards.Keys, e);
      ShrunkMember(cards, cards.Keys, e);
    }
  }

  /** `sort.Sort` on one of the lists: the same entries, strictly ascending. */
  method SortList(s: seq<CardCount>) returns (t: seq<CardCount>)
    requires DistinctCards(s)
    ensures Ascending(t) && multiset(t) == multiset(s)
  {
    var a := new CardCount[|s|](k requires 0 <= k < |s| => s[k]);
    assert a[..] == s;
    Sort(a);
    t := a[..];
    PermutationDistinct(s, t);
    SortedAscending(t);
  }

  /**
   * `diff(from, to)`: tally both decks in a map, split the cards whose counts differ into
   * Added and Removed, and sort both lists.
   */
  method Diff(from: Deck, to: Deck) returns (d: DeckDiff)
    ensures IsDiff(from, to, d)
  {
    var cards := TallyDecks(from, to);
    var added, removed := Partition(cards);
    added := SortList(added);
    removed := SortList(removed);
    forall e
      ensures e in added <==> e in AddedSet(from, to)
      ensures e in removed <==> e in RemovedSet(from, to)
    {
      assert e in added <==> e in multiset(added);
      assert e in removed <==> e in multiset(removed);
    }
    d := DeckDiff(from, to, added, removed);
  }

  // ---- what a diff says ----

  /**
   * Card by card: c is in Added exactly when its count grows, with the growth as the entry's
   * count, and in Removed exactly when it shrinks, with the loss; a card a deck does not list
   * counts 0 there and otherwise the count of its last entry.
   */
  lemma DiffEntries(from: Deck, to: Deck, d: DeckDiff, e: CardCount)
    requires IsDiff(from, to, d)
    ensures e in d.added <==> LastCount(to.cards, e.card) > LastCount(from.cards, e.card)
                              && e.count == LastCount(to.cards, e.card) - LastCount(from.cards, e.card)
    ensures e in d.removed <==> LastCount(from.cards, e.card) > LastCount(to.cards, e.card)
                                && e.count == LastCount(from.cards, e.card) - LastCount(to.cards, e.card)
  {
    var t := Tally(from.cards, to.cards);
    GrownMember(t, t.Keys, e);
    ShrunkMember(t, t.Keys, e);
    if e.card !in Ids(from.cards) + Ids(to.cards) {
      AbsentCountsZero(from.cards, e.card);
      AbsentCountsZero(to.cards, e.card);
    }
  }

  /** Every entry of either list has a positive count. */
  lemma DiffPositive(from: Deck, to: Deck, d: DeckDiff)
    requires IsDiff(from, to, d)
    ensures forall e :: e in d.added ==> e.count > 0
    ensures forall e :: e in d.removed ==> e.count > 0
  {
    forall e | e in d.added || e in d.removed
      ensures e.count > 0
    {
      DiffEntries(from, to, d, e);
    }
  }

  /** A card with the same count in both decks is in neither list. */
  lemma DiffOmitsEqual(from: Deck, to: Deck, d: DeckDiff, c: Card)
    requires IsDiff(from, to, d) && LastCount(from.cards, c) == LastCount(to.cards, c)
    ensures forall e :: e in d.added ==> e.card != c
    ensures forall e :: e in d.removed ==> e.card != c
  {
    forall e | e in d.added || e in d.removed
      ensures e.card != c
    {
      DiffEntries(from, to, d, e);
    }
  }

  /** No card is in both lists. */
  lemma DiffDisjoint(from: Deck, to: Deck, d: DeckDiff)
    requires IsDiff(from, to, d)
    ensures forall e, f :: e in d.added && f in d.removed ==> e.card != f.card
  {
    forall e, f | e in d.added && f in d.removed
      ensures e.card != f.card
    {
      DiffEntries(from, to, d, e);
      DiffEntries(from, to, d, f);
    }
  }

  /** The result is determined by the two decks: the map's iteration order does not show. */
  lemma DiffDeterministic(from: Deck, to: Deck, d1: DeckDiff, d2: DeckDiff)
    requires IsDiff(from, to, d1) && IsDiff(from, to, d2)
    ensures d1 == d2
  {
    AscendingUnique(d1.added, d2.added);
    AscendingUnique(d1.removed, d2.removed);
  }

  /** A deck compared with itself needs nothing added and nothing removed. */
  lemma DiffSelf(a: Deck, d: DeckDiff)
    requires IsDiff(a, a, d)
    ensures d.added == [] && d.removed == []
  {
    if d.added != [] {
      DiffEntries(a, a, d, d.added[0]);
    }
    if d.removed != [] {
      DiffEntries(a, a, d, d.removed[0]);
    }
  }

  /** Comparing the decks the other way round exchanges Added and Removed. */
  lemma DiffSwap(a: Deck, b: Deck, d: DeckDiff, r: DeckDiff)
    requires IsDiff(a, b, d) && IsDiff(b, a, r)
    ensures r.added == d.removed && r.removed == d.added
  {
    forall e
      ensures e in r.added <==> e in d.removed
      ensures e in r.removed <==> e in d.added
    {
      DiffEntries(a, b, d, e);
      DiffEntries(b, a, r, e);
    }
    AscendingUnique(r.added, d.removed);
    AscendingUnique(r.removed, d.added);
  }

  // ---- rendering ----

  /** The first line: the two deck names around an arrow. */
  function HeaderLine(d: DeckDiff): string {
    d.from.name + " -> " + d.to.name
  }

  /** The line of one entry: the sign, the count, a space and the card's name (the cost is not shown). */
  function EntryLine(sign: char, e: CardCount): string {
    [sign] + IntToString(e.count) + " " + e.card.name
  }

  /** The lines of a list of entries, each followed by a newline. */
  function EntryLines(sign: char, s: seq<CardCount>): string {
    if s == [] then "" else EntryLines(sign, s[..|s| - 1]) + EntryLine(sign, s[|s| - 1]) + "\n"
  }

  /** What `String` writes to its buffer before trimming. */
  function Written(d: DeckDiff): string {
    HeaderLine(d) + "\n" + EntryLines('+', d.added) + EntryLines('-', d.removed)
  }

  /** The header line starts with the `from` name and ` -> ` and ends with the `to` name. */
  lemma HeaderLineShape(d: DeckDiff)
    ensures d.from.name + " -> " <= HeaderLine(d)
    ensures |HeaderLine(d)| == |d.from.name| + 4 + |d.to.name|
    ensures HeaderLine(d)[|HeaderLine(d)| - |d.to.name|..] == d.to.name
  {
    StartsWith(d.from.name + " -> ", d.to.name);
  }

  /** An entry line starts with its sign and ends with a space and the card's name. */
  lemma EntryLineShape(sign: char, e: CardCount)
    ensures var r := EntryLine(sign, e);
            |r| > |e.card.name| + 1 && r[0] == sign && r[|r| - |e.card.name|..] == e.card.name
            && r[|r| - |e.card.name| - 1] == ' '
  {
  }

  /** The lines of a list are empty exactly when the list is, and otherwise end with a newline. */
  lemma EntryLinesShape(sign: char, s: seq<CardCount>)
    ensures EntryLines(sign, s) == [] <==> s == []
    ensures s != [] ==> EntryLines(sign, s)[|EntryLines(sign, s)| - 1] == '\n'
  {
  }

  /** The buffer starts with the header line and its newline, and ends with a newline. */
  lemma WrittenShape(d: DeckDiff)
    ensures HeaderLine(d) + "\n" <= Written(d)
    ensures Written(d)[|Written(d)| - 1] == '\n'
  {
    var head := HeaderLine(d) + "\n";
    var tail := EntryLines('+', d.added) + EntryLines('-', d.removed);
    StartsWith(head, tail);
    assert Written(d) == head + tail;
    EntryLinesShape('-', d.removed);
    EntryLinesShape('+', d.added);
  }

  /** The text `String` returns. */
  function Rendering(d: DeckDiff): (r: string)
    ensures |r| <= |Written(d)|
    ensures r == [] || (!IsSpace(r[0]) && !IsSpace(r[|r| - 1]))
  {
    TrimSpace(Written(d))
  }

  /**
   * `deckDiff.String`: write the header, a `+` line per Added entry and a `-` line per Removed
   * entry into a buffer, in list order, and trim the result.
   */
  method String(d: DeckDiff) returns (s: string)
    ensures s == Rendering(d)
  {
    var buffer := HeaderLine(d) + "\n";
    var i := 0;
    while i < |d.added|
      invariant i <= |d.added|
      invariant buffer == HeaderLine(d) + "\n" + EntryLines('+', d.added[..i])
    {
      var line := EntryLine('+', d.added[i]) + "\n";
      EntryLinesPush('+', d.added, i, HeaderLine(d) + "\n");
      buffer := buffer + line;
      i := i + 1;
    }
    assert d.added[..i] == d.added;
    var written := buffer;
    i := 0;
    while i < |d.removed|
      invariant i <= |d.removed|
      invariant buffer == written + EntryLines('-', d.removed[..i])
    {
      var line := EntryLine('-', d.removed[i]) + "\n";
      EntryLinesPush('-', d.removed, i, written);
      buffer := buffer + line;
      i := i + 1;
    }
    assert d.removed[..i] == d.removed;
    s := TrimSpace(buffer);
  }

  /** Writing one more entry's line after the lines of the entries before it. */
  lemma EntryLinesPush(sign: char, s: seq<CardCount>, i: nat, before: string)
    requires i < |s|
    ensures before + EntryLines(sign, s[..i + 1]) == before + EntryLines(sign, s[..i]) + (EntryLine(sign, s[i]) + "\n")
  {
    assert s[..i + 1][..i] == s[..i];
  }

  /** The lines of a rendering, one by one: the header, the `+` lines, then the `-` lines. */
  function Lines(d: DeckDiff): (ls: seq<string>)
    ensures |ls| == 1 + |d.added| + |d.removed|
  {
    [HeaderLine(d)] + EntryLineSeq('+', d.added) + EntryLineSeq('-', d.removed)
  }

  function EntryLineSeq(sign: char, s: seq<CardCount>): (ls: seq<string>)
    ensures |ls| == |s|
  {
    seq(|s|, k requires 0 <= k < |s| => EntryLine(sign, s[k]))
  }

  /** Lines joined with a newline between each two. */
  function Join(ls: seq<string>): string
    requires ls != []
  {
    if |ls| == 1 then ls[0] else Join(ls[..|ls| - 1]) + "\n" + ls[|ls| - 1]
  }

  lemma {:induction false} JoinEntries(ls: seq<string>, sign: char, s: seq<CardCount>)
    requires ls != []
    ensures Join(ls + EntryLineSeq(sign, s)) + "\n" == Join(ls) + "\n" + EntryLines(sign, s)
  {
    if s != [] {
      var init := s[..|s| - 1];
      var line := EntryLine(sign, s[|s| - 1]);
      var before := ls + EntryLineSeq(sign, init);
      JoinEntries(ls, sign, init);
      EntryLineSeqPush(ls, sign, s);
      JoinPush(before, line);
      AppendLine(Join(before), Join(ls) + "\n", EntryLines(sign, init), line);
    } else {
      assert ls + EntryLineSeq(sign, s) == ls;
    }
  }

  /** The line sequence of a list grows by the line of its last entry. */
  lemma EntryLineSeqPush(ls: seq<string>, sign: char, s: seq<CardCount>)
    requires s != []
    ensures ls + EntryLineSeq(sign, s) == ls + EntryLineSeq(sign, s[..|s| - 1]) + [EntryLine(sign, s[|s| - 1])]
  {
    assert EntryLineSeq(sign, s) == EntryLineSeq(sign, s[..|s| - 1]) + [EntryLine(sign, s[|s| - 1])];
  }

  /** The inductive step of JoinEntries, on plain strings. */
  lemma AppendLine(joined: string, head: string, lines: string, line: string)
    requires joined + "\n" == head + lines
    ensures joined + "\n" + line + "\n" == head + (lines + line + "\n")
  {
  }

  /** One more line is joined after a newline. */
  lemma JoinPush(ls: seq<string>, line: string)
    requires ls != []
    ensures Join(ls + [line]) == Join(ls) + "\n" + line
  {
    assert (ls + [line])[..|ls|] == ls;
  }

  /** The buffer holds the lines joined by newlines, with one newline more at the end. */
  lemma WrittenIsJoin(d: DeckDiff)
    ensures Written(d) == Join(Lines(d)) + "\n"
  {
    var head := [HeaderLine(d)];
    JoinEntries(head, '+', d.added);
    JoinEntries(head + EntryLineSeq('+', d.added), '-', d.removed);
  }

  /** The last character of joined lines is that of the last line, when it has one. */
  lemma JoinEnds(ls: seq<string>)
    requires ls != [] && ls[|ls| - 1] != []
    ensures var j := Join(ls); j != [] && j[|j| - 1] == ls[|ls| - 1][|ls[|ls| - 1]| - 1]
  {
  }

  /** Joined lines start with the first line. */
  lemma {:induction false} JoinStarts(ls: seq<string>)
    requires ls != []
    ensures |Join(ls)| >= |ls[0]| && Join(ls)[..|ls[0]|] == ls[0]
  {
    if |ls| > 1 {
      JoinStarts(ls[..|ls| - 1]);
    }
  }

  /**
   * When the first line does not start and the last line does not end with white space, the
   * rendering is exactly the lines joined by newlines: only the final newline is trimmed.
   */
  lemma RenderingIsJoin(d: DeckDiff)
    requires d.from.name != [] && !IsSpace(d.from.name[0])
    requires var last := Lines(d)[|Lines(d)| - 1]; last != [] && !IsSpace(last[|last| - 1])
    ensures Rendering(d) == Join(Lines(d))
  {
    JoinShape(d);
    TrimmedLine(Written(d), Join(Lines(d)));
  }

  /** The joined lines, at their two ends. */
  lemma JoinShape(d: DeckDiff)
    requires d.from.name != []
    requires var last := Lines(d)[|Lines(d)| - 1]; last != []
    ensures var j := Join(Lines(d)); var last := Lines(d)[|Lines(d)| - 1];
            Written(d) == j + "\n" && j != [] && j[0] == d.from.name[0] && j[|j| - 1] == last[|last| - 1]
  {
    var ls := Lines(d);
    WrittenIsJoin(d);
    JoinEnds(ls);
    LinesHead(d);
    JoinFirst(ls);
  }

  /** The first line is the header, which starts with the `from` deck's name. */
  lemma LinesHead(d: DeckDiff)
    requires d.from.name != []
    ensures Lines(d)[0] != [] && Lines(d)[0][0] == d.from.name[0]
  {
    assert Lines(d)[0] == HeaderLine(d);
  }

  /** Joined lines start with the first character of the first line. */
  lemma JoinFirst(ls: seq<string>)
    requires ls != [] && ls[0] != []
    ensures Join(ls) != [] && Join(ls)[0] == ls[0][0]
  {
    JoinStarts(ls);
    assert Join(ls)[..|ls[0]|][0] == ls[0][0];
  }

  /** A text that neither starts nor ends with white space, followed by a newline, trims to itself. */
  lemma TrimmedLine(w: string, j: string)
    requires w == j + "\n" && j != [] && !IsSpace(j[0]) && !IsSpace(j[|j| - 1])
    ensures TrimSpace(w) == j
  {
    TrimSpaceIgnoresTrailing(j, "\n");
    TrimSpaceKeepsTrimmed(j);
  }

  /** A rendering starts with the `from` deck's name and the arrow when that name starts with a non-space. */
  lemma RenderingStartsWithNames(d: DeckDiff)
    requires d.from.name != [] && !IsSpace(d.from.name[0])
    ensures var p := d.from.name + " ->"; |Rendering(d)| >= |p| && Rendering(d)[..|p|] == p
  {
    var p := d.from.name + " ->";
    var rest := " " + d.to.name + "\n" + EntryLines('+', d.added) + EntryLines('-', d.removed);
    Regroup(d.from.name, d.to.name, EntryLines('+', d.added), EntryLines('-', d.removed));
    TrimSpaceKeepsPrefix(p, rest);
  }

  /** Written(d) regrouped after the arrow. */
  lemma Regroup(a: string, b: string, x: string, y: string)
    ensures a + " -> " + b + "\n" + x + y == (a + " ->") + (" " + b + "\n" + x + y)
  {
  }
}
