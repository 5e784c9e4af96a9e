/**
 * Worked cases of the differ: the order of a sorted list and a whole comparison of two
 * thirty-card decks that differ in one card's count and one new card.
 */
module DiffScenarios {
  import opened Text
  import opened Parse
  import opened Diff

  /** Cost first, then name: Alpha (1), Zeta (1), Beta (2) is the only ascending order of the three. */
  lemma SortOrderExample(s: seq<CardCount>)
    requires Ascending(s)
    requires forall e :: e in s <==> e in {CardCount(Card("Zeta", 1), 1), CardCount(Card("Alpha", 1), 1),
                                            CardCount(Card("Beta", 2), 1)}
    ensures s == [CardCount(Card("Alpha", 1), 1), CardCount(Card("Zeta", 1), 1), CardCount(Card("Beta", 2), 1)]
  {
    var t := [CardCount(Card("Alpha", 1), 1), CardCount(Card("Zeta", 1), 1), CardCount(Card("Beta", 2), 1)];
    assert StringLe("Alpha", "Zeta");
    assert Ascending(t);
    AscendingUnique(s, t);
  }

  const Fireball := Card("Fireball", 4)
  const Wisp := Card("Wisp", 0)
  const Frostbolt := Card("Frostbolt", 2)

  /** Two copies of Fireball and the same 28 Wisps. */
  const Burn := Deck("Burn", "Mage", "Standard", [CardCount(Fireball, 2), CardCount(Wisp, 28)], "AAE")

  /** One Fireball fewer and one Frostbolt more, with the same 28 Wisps. */
  const BurnTwo := Deck("Burn 2", "Mage", "Standard",
                        [CardCount(Fireball, 1), CardCount(Wisp, 28), CardCount(Frostbolt, 1)], "AAF")

  lemma BurnCounts(c: Card)
    ensures LastCount(Burn.cards, c) == if c == Fireball then 2 else if c == Wisp then 28 else 0
    ensures LastCount(BurnTwo.cards, c) == if c == Fireball then 1 else if c == Wisp then 28
                                          else if c == Frostbolt then 1 else 0
  {
    var a := Burn.cards;
    assert a[..1][..0] == [];
    assert LastCount(a[..1], c) == if c == Fireball then 2 else 0;
    assert Fireball != Wisp by { assert Fireball.name[0] != Wisp.name[0]; }
    var b := BurnTwo.cards;
    assert b[..2][..1][..0] == [];
    assert LastCount(b[..2][..1], c) == if c == Fireball then 1 else 0;
    assert LastCount(b[..2], c) == if c == Wisp then 28 else LastCount(b[..2][..1], c);
    assert Frostbolt != Fireball && Frostbolt != Wisp by {
      assert Frostbolt.cost != Fireball.cost && Frostbolt.cost != Wisp.cost;
    }
  }

  /** Comparing the two: one Frostbolt to add, one Fireball to remove, nothing about the Wisps. */
  lemma FireballLists(d: DeckDiff)
    requires IsDiff(Burn, BurnTwo, d)
    ensures d.added == [CardCount(Frostbolt, 1)] && d.removed == [CardCount(Fireball, 1)]
  {
    forall e
      ensures e in d.added <==> e == CardCount(Frostbolt, 1)
      ensures e in d.removed <==> e == CardCount(Fireball, 1)
    {
      DiffEntries(Burn, BurnTwo, d, e);
      BurnCounts(e.card);
    }
    AscendingUnique(d.added, [CardCount(Frostbolt, 1)]);
    AscendingUnique(d.removed, [CardCount(Fireball, 1)]);
  }

  /** The lines of a diff from a deck named Burn to one named Burn 2 that adds a Frostbolt and removes a Fireball. */
  lemma FireballLines(d: DeckDiff)
    requires d.from.name == "Burn" && d.to.name == "Burn 2"
    requires d.added == [CardCount(Frostbolt, 1)] && d.removed == [CardCount(Fireball, 1)]
    ensures Lines(d) == ["Burn -> Burn 2", "+1 Frostbolt", "-1 Fireball"]
  {
    assert IntToString(1) == "1" by {
      assert NatToString(1) == [Digit(1)];
    }
    var add := EntryLine('+', CardCount(Frostbolt, 1));
    var rem := EntryLine('-', CardCount(Fireball, 1));
    assert add == "+1 Frostbolt";
    assert rem == "-1 Fireball";
    assert EntryLineSeq('+', d.added) == [add];
    assert EntryLineSeq('-', d.removed) == [rem];
    assert HeaderLine(d) == "Burn -> Burn 2";
  }

  lemma JoinThree(a: string, b: string, c: string)
    ensures Join([a, b, c]) == a + "\n" + b + "\n" + c
  {
    JoinPush([a], b);
    JoinPush([a, b], c);
    assert [a] + [b] == [a, b] && [a, b] + [c] == [a, b, c];
  }

  /**
   * The text of that comparison: the header, a `+1 Frostbolt` and a `-1 Fireball` line, and
   * nothing about the Wisps both decks hold.
   */
  lemma FireballRendering(d: DeckDiff)
    requires IsDiff(Burn, BurnTwo, d)
    ensures Rendering(d) == "Burn -> Burn 2" + "\n" + "+1 Frostbolt" + "\n" + "-1 Fireball"
  {
    FireballLists(d);
    BurnDiffRendering(d);
  }

  lemma BurnDiffRendering(d: DeckDiff)
    requires d.from.name == "Burn" && d.to.name == "Burn 2"
    requires d.added == [CardCount(Frostbolt, 1)] && d.removed == [CardCount(Fireball, 1)]
    ensures Rendering(d) == "Burn -> Burn 2" + "\n" + "+1 Frostbolt" + "\n" + "-1 Fireball"
  {
    FireballLines(d);
    var ls := Lines(d);
    assert ls[2][|ls[2]| - 1] == 'l';
    RenderOneEach(d);
  }

  /** A diff with one entry in each list renders as three lines. */
  lemma RenderOneEach(d: DeckDiff)
    requires |d.added| == 1 && |d.removed| == 1
    requires d.from.name != [] && !IsSpace(d.from.name[0])
    requires var last := Lines(d)[2]; last != [] && !IsSpace(last[|last| - 1])
    ensures Rendering(d) == HeaderLine(d) + "\n" + Lines(d)[1] + "\n" + Lines(d)[2]
  {
    var ls := Lines(d);
    RenderingIsJoin(d);
    assert ls == [ls[0], ls[1], ls[2]];
    JoinThree(ls[0], ls[1], ls[2]);
  }
}
