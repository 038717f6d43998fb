/**
 The hand evaluator: the Blackjack value of one zone's hand. Every Ace first
 counts 11; while the total is over 21 and some Ace still counts 11, one Ace
 is demoted to 1.
 */
module Evaluator {
  import opened Wrappers
  import opened Cards

  // ---------------------------------------------------------------------------
  // Specification

  /** The sum of `f` over the cards of a hand. */
  function Sum<T>(s: seq<T>, f: T -> nat): nat {
    if |s| == 0 then 0 else Sum(s[..|s| - 1], f) + f(s[|s| - 1])
  }

  /** What a card adds in the first pass: ten for a face card, eleven for an Ace, the number otherwise. */
  function SoftPoints(c: Card): nat {
    if IsFace(c.rank) then 10 else if c.rank == Ace then 11 else PipValue(c.rank)
  }

  /** A non-empty string of the digits 0..9. */
  predicate IsDigits(t: string) {
    |t| > 0 && forall i :: 0 <= i < |t| ==> '0' <= t[i] <= '9'
  }

  /**
   The first pass of the evaluator on one identifier's text: the rank is all but
   the last character; "K", "Q" and "J" add 10, "A" adds 11, anything else is
   read as a decimal number, and a rank that is not one is an error (None).
   */
  function StringPoints(card: string): Option<int> {
    var rank := if |card| == 0 then "" else card[..|card| - 1];
    if rank == "K" || rank == "Q" || rank == "J" then Some(10)
    else if rank == "A" then Some(11)
    else if IsDigits(rank) then Some(DecimalValue(rank))
    else None
  }

  /** What a card is worth once every Ace counts one. */
  function HardPoints(c: Card): nat {
    if c.rank == Ace then 1 else SoftPoints(c)
  }

  function AcePoints(c: Card): nat {
    if c.rank == Ace then 1 else 0
  }

  /** The total with every Ace counted as 11. */
  function SoftTotal(hand: seq<Card>): nat {
    Sum(hand, SoftPoints)
  }

  /** The total with every Ace counted as 1. */
  function HardTotal(hand: seq<Card>): nat {
    Sum(hand, HardPoints)
  }

  function AceCount(hand: seq<Card>): nat {
    Sum(hand, AcePoints)
  }

  /** Demote one soft Ace at a time while the total is over 21. */
  function Demote(total: int, softAces: nat): int {
    if total > 21 && softAces > 0 then Demote(total - 10, softAces - 1) else total
  }

  /** The value of a hand, as the evaluator computes it. */
  function HandValue(hand: seq<Card>): int {
    Demote(SoftTotal(hand), AceCount(hand))
  }

  /** A hand is bust when its value is over 21. */
  predicate IsBust(value: int) {
    value > 21
  }

  /** On a card's identifier the text tests add what SoftPoints gives the card. */
  lemma StringPointsOfName(c: Card)
    ensures StringPoints(CardName(c)) == Some(SoftPoints(c))
  {
    RankPrefix(c);
    if IsPip(c.rank) {
      var v := PipValue(c.rank);
    }
  }

  /** Every entry of the class table adds what SoftPoints gives its class's card. */
  lemma StringPointsOfTable(cls: int)
    requires 0 <= cls < ClassCount
    ensures StringPoints(ClassNames[cls]) == Some(SoftPoints(ClassCard(cls)))
  {
    TableSpelled(cls);
    StringPointsOfName(ClassCard(cls));
  }

  // ---------------------------------------------------------------------------
  // The evaluator

  /** Totals the hand with Aces at 11, then demotes Aces while the total is over 21. */
  method CalculateBlackjackValue(hand: seq<Card>) returns (value: int)
    ensures value == HandValue(hand)
    ensures HardTotal(hand) <= value <= SoftTotal(hand)
    ensures IsBust(value) ==> value == HardTotal(hand)
  {
    value := 0;
    var aces := 0;
    for i := 0 to |hand|
      invariant value == SoftTotal(hand[..i])
      invariant aces == AceCount(hand[..i])
    {
      var card := hand[i];
      assert hand[..i + 1][..i] == hand[..i];
      if IsFace(card.rank) {
        value := value + 10;
      } else if card.rank == Ace {
        aces := aces + 1;
        value := value + 11;
      } else {
        value := value + PipValue(card.rank);
      }
    }
    assert hand[..|hand|] == hand;
    while value > 21 && aces > 0
      invariant 0 <= aces
      invariant Demote(value, aces) == HandValue(hand)
      decreases aces
    {
      value := value - 10;
      aces := aces - 1;
    }
    HandValueBounds(hand);
  }

  // ---------------------------------------------------------------------------
  // Properties of the demotion loop

  /**
   Demoting takes away a multiple of ten, at most ten per Ace; it leaves a total
   of 21 or less alone; a result over 21 means every Ace was demoted; and a
   total that was demoted at all ends at 12 or more.
   */
  lemma {:induction false} DemoteBounds(total: int, softAces: nat)
    ensures (total - Demote(total, softAces)) % 10 == 0
    ensures 0 <= total - Demote(total, softAces) <= 10 * softAces
    ensures total <= 21 ==> Demote(total, softAces) == total
    ensures Demote(total, softAces) > 21 ==> Demote(total, softAces) == total - 10 * softAces
    ensures Demote(total, softAces) < total ==> Demote(total, softAces) >= 12
  {
    DemoteSteps(total, softAces);
    if total > 21 && softAces > 0 {
      DemoteBounds(total - 10, softAces - 1);
    }
  }

  /** The number of Aces the demotion loop turns from 11 into 1. */
  function Demoted(total: int, softAces: nat): nat {
    if total > 21 && softAces > 0 then Demoted(total - 10, softAces - 1) + 1 else 0
  }

  /** Demoting takes ten off the total for each demoted Ace. */
  lemma {:induction false} DemoteSteps(total: int, softAces: nat)
    ensures Demoted(total, softAces) <= softAces
    ensures Demote(total, softAces) == total - 10 * Demoted(total, softAces)
    ensures (total - Demote(total, softAces)) % 10 == 0
  {
    if total > 21 && softAces > 0 {
      DemoteSteps(total - 10, softAces - 1);
    }
    var k := Demoted(total, softAces);
    assert total - Demote(total, softAces) == 10 * k;
    assert (10 * k) % 10 == 0;
  }

  /**
   Demoting stops at the best total: any way of demoting k of the Aces that does
   not bust is no better than the result.
   */
  lemma {:induction false} DemoteIsBest(total: int, softAces: nat, k: nat)
    requires k <= softAces
    requires total - 10 * k <= 21
    ensures total - 10 * k <= Demote(total, softAces) <= 21
  {
    if total > 21 {
      DemoteIsBest(total - 10, softAces - 1, k - 1);
    }
  }

  // ---------------------------------------------------------------------------
  // Properties of the hand value

  lemma {:induction false} SoftIsHardPlusAces(hand: seq<Card>)
    ensures SoftTotal(hand) == HardTotal(hand) + 10 * AceCount(hand)
  {
    if |hand| > 0 {
      SoftIsHardPlusAces(hand[..|hand| - 1]);
    }
  }

  /** The empty hand is worth 0 and is not bust. */
  lemma EmptyHand()
    ensures HandValue([]) == 0 && !IsBust(HandValue([]))
  {
  }

  /** Without Aces the value is the plain sum: ten per face card, the number per numbered card. */
  lemma {:induction false} NoAceHand(hand: seq<Card>)
    requires forall i :: 0 <= i < |hand| ==> hand[i].rank != Ace
    ensures AceCount(hand) == 0
    ensures HandValue(hand) == SoftTotal(hand) == HardTotal(hand)
  {
    if |hand| > 0 {
      NoAceHand(hand[..|hand| - 1]);
    }
    SoftIsHardPlusAces(hand);
  }

  /**
   The value is the soft total less ten for each of some of the Aces, so it lies
   between the hard and the soft total; a value over 21 is the hard total; a hand
   whose value is below its soft total is worth at least 12.
   */
  lemma HandValueBounds(hand: seq<Card>)
    ensures (SoftTotal(hand) - HandValue(hand)) % 10 == 0
    ensures 0 <= SoftTotal(hand) - HandValue(hand) <= 10 * AceCount(hand)
    ensures HardTotal(hand) <= HandValue(hand) <= SoftTotal(hand)
    ensures SoftTotal(hand) <= 21 ==> HandValue(hand) == SoftTotal(hand)
    ensures IsBust(HandValue(hand)) ==> HandValue(hand) == HardTotal(hand)
    ensures HandValue(hand) < SoftTotal(hand) ==> HandValue(hand) >= 12
  {
    DemoteBounds(SoftTotal(hand), AceCount(hand));
    SoftIsHardPlusAces(hand);
  }

  /** Counting k of the Aces as 1 never gives a better total that does not bust. */
  lemma HandValueIsBest(hand: seq<Card>, k: nat)
    requires k <= AceCount(hand)
    requires SoftTotal(hand) - 10 * k <= 21
    ensures SoftTotal(hand) - 10 * k <= HandValue(hand) <= 21
  {
    DemoteIsBest(SoftTotal(hand), AceCount(hand), k);
  }

  // ---------------------------------------------------------------------------
  // Order independence

  lemma {:induction false} SumConcat<T>(a: seq<T>, b: seq<T>, f: T -> nat)
    ensures Sum(a + b, f) == Sum(a, f) + Sum(b, f)
  {
    if |b| > 0 {
      assert (a + b)[..|a + b| - 1] == a + b[..|b| - 1];
      SumConcat(a, b[..|b| - 1], f);
    } else {
      assert a + b == a;
    }
  }

  /** A sum depends only on the multiset of its elements. */
  lemma {:induction false} SumPermutation<T>(a: seq<T>, b: seq<T>, f: T -> nat)
    requires multiset(a) == multiset(b)
    ensures Sum(a, f) == Sum(b, f)
    decreases |a|
  {
    if |a| > 0 {
      var x := a[|a| - 1];
      var rest := a[..|a| - 1];
      assert a == rest + [x];
      assert x in multiset(b);
      var i :| 0 <= i < |b| && b[i] == x;
      var others := b[..i] + b[i + 1..];
      assert b == b[..i] + [x] + b[i + 1..];
      assert multiset(a) == multiset(rest) + multiset{x};
      assert multiset(b) == multiset(b[..i]) + multiset{x} + multiset(b[i + 1..]);
      assert multiset(others) == multiset(b[..i]) + multiset(b[i + 1..]);
      assert multiset(rest) + multiset{x} == multiset(others) + multiset{x};
      assert multiset(rest) == multiset(rest) + multiset{x} - multiset{x};
      assert multiset(others) == multiset(others) + multiset{x} - multiset{x};
      SumPermutation(rest, others, f);
      SumConcat(b[..i] + [x], b[i + 1..], f);
      SumConcat(b[..i], [x], f);
      SumConcat(b[..i], b[i + 1..], f);
      assert Sum([x], f) == f(x) by {
        assert [x][..0] == [];
      }
    } else {
      assert b == [];
    }
  }

  /** The value of a hand does not depend on the order its cards are listed in. */
  lemma HandValueOrderIndependent(a: seq<Card>, b: seq<Card>)
    requires multiset(a) == multiset(b)
    ensures HandValue(a) == HandValue(b)
  {
    SumPermutation(a, b, SoftPoints);
    SumPermutation(a, b, AcePoints);
  }

  lemma SumAppend<T>(s: seq<T>, x: T, f: T -> nat)
    ensures Sum(s + [x], f) == Sum(s, f) + f(x)
  {
  }

  /** Adding a card to a hand adds its soft points and its Ace to the totals. */
  lemma AddCard(hand: seq<Card>, c: Card)
    ensures SoftTotal(hand + [c]) == SoftTotal(hand) + SoftPoints(c)
    ensures AceCount(hand + [c]) == AceCount(hand) + AcePoints(c)
  {
    SumAppend(hand, c, SoftPoints);
    SumAppend(hand, c, AcePoints);
  }

  /** The totals of a single card's hand. */
  lemma OneCard(c: Card)
    ensures SoftTotal([c]) == SoftPoints(c) && AceCount([c]) == AcePoints(c)
  {
    AddCard([], c);
    assert [] + [c] == [c];
  }

  /** Hands with one Ace, two Aces, and two Aces and a nine. */
  lemma AceExamples()
    ensures HandValue([Card(Ace, Hearts)]) == 11
    ensures HandValue([Card(Ace, Hearts), Card(Ace, Diamonds)]) == 12
    ensures HandValue([Card(Ace, Hearts), Card(Ace, Diamonds), Card(Nine, Clubs)]) == 21
  {
    var h1 := [Card(Ace, Hearts)];
    var h2 := h1 + [Card(Ace, Diamonds)];
    var h3 := h2 + [Card(Nine, Clubs)];
    OneCard(Card(Ace, Hearts));
    AddCard(h1, Card(Ace, Diamonds));
    AddCard(h2, Card(Nine, Clubs));
    assert SoftTotal(h1) == 11 && AceCount(h1) == 1;
    assert SoftTotal(h2) == 22 && AceCount(h2) == 2;
    assert SoftTotal(h3) == 31 && AceCount(h3) == 2;
    assert h2 == [Card(Ace, Hearts), Card(Ace, Diamonds)];
    assert h3 == [Card(Ace, Hearts), Card(Ace, Diamonds), Card(Nine, Clubs)];
    assert Demote(31, 2) == 21;
  }

  /** Two face cards and a two make 22: bust. */
  lemma BustExample()
    ensures IsBust(HandValue([Card(King, Spades), Card(Queen, Hearts), Card(Two, Clubs)]))
  {
    var k1 := [Card(King, Spades)];
    var k2 := k1 + [Card(Queen, Hearts)];
    var k3 := k2 + [Card(Two, Clubs)];
    OneCard(Card(King, Spades));
    AddCard(k1, Card(Queen, Hearts));
    AddCard(k2, Card(Two, Clubs));
    assert SoftTotal(k3) == 22 && AceCount(k3) == 0;
    assert k3 == [Card(King, Spades), Card(Queen, Hearts), Card(Two, Clubs)];
  }
}
