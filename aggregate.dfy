/**
 The frame aggregator: each detection of a frame is looked up in the class
 table and appended to the hand of its zone; then each zone's hand is reduced
 to its distinct cards, so that a card seen in two overlapping boxes counts once.
 */
module Aggregate {
  import opened Wrappers
  import opened Cards
  import opened Zones
  import opened Evaluator

  /** One detected box: the class index the detector reports and the top edge of the box. */
  datatype Detection = Detection(cls: int, y1: int)

  /** Every class index is one the table has. */
  predicate ValidDetections(ds: seq<Detection>) {
    forall i :: 0 <= i < |ds| ==> 0 <= ds[i].cls < ClassCount
  }

  /** The cards of all detections, in detection order. */
  function DetectedCards(ds: seq<Detection>): seq<Card>
    requires ValidDetections(ds)
  {
    if |ds| == 0 then [] else DetectedCards(ds[..|ds| - 1]) + [ClassCard(ds[|ds| - 1].cls)]
  }

  /** The cards detected in zone `z`, in detection order, repeats kept. */
  function ZoneHand(ds: seq<Detection>, height: int, z: Zone): seq<Card>
    requires ValidDetections(ds)
  {
    if |ds| == 0 then []
    else
      var d := ds[|ds| - 1];
      ZoneHand(ds[..|ds| - 1], height, z)
        + if ClassifyZone(d.y1, height) == Some(z) then [ClassCard(d.cls)] else []
  }

  /** Detection `d` is card `c` in zone `z`. */
  predicate Shows(d: Detection, height: int, z: Zone, c: Card)
    requires 0 <= d.cls < ClassCount
  {
    ClassCard(d.cls) == c && ClassifyZone(d.y1, height) == Some(z)
  }

  /** Some detection of the frame is card `c` and lies in zone `z`. */
  ghost predicate DetectedIn(ds: seq<Detection>, height: int, z: Zone, c: Card)
    requires ValidDetections(ds)
  {
    exists i :: 0 <= i < |ds| && Shows(ds[i], height, z, c)
  }

  /** Builds both zones' hands in one pass over the detections. */
  method SplitByZone(ds: seq<Detection>, height: int) returns (dealerHand: seq<Card>, playerHand: seq<Card>)
    requires ValidDetections(ds)
    ensures dealerHand == ZoneHand(ds, height, Dealer)
    ensures playerHand == ZoneHand(ds, height, Player)
  {
    dealerHand, playerHand := [], [];
    var dealerBottom := Half(height);
    var playerTop := Half(height);
    for i := 0 to |ds|
      invariant dealerHand == ZoneHand(ds[..i], height, Dealer)
      invariant playerHand == ZoneHand(ds[..i], height, Player)
    {
      assert ds[..i + 1][..i] == ds[..i];
      var card := ClassCard(ds[i].cls);
      if ds[i].y1 < dealerBottom {
        dealerHand := dealerHand + [card];
      } else if ds[i].y1 >= playerTop {
        playerHand := playerHand + [card];
      }
    }
    assert ds[..|ds|] == ds;
  }

  /** Every detection lands in exactly one of the two hands. */
  lemma {:induction false} ZonesPartition(ds: seq<Detection>, height: int)
    requires ValidDetections(ds)
    ensures multiset(ZoneHand(ds, height, Dealer)) + multiset(ZoneHand(ds, height, Player))
         == multiset(DetectedCards(ds))
  {
    if |ds| > 0 {
      ZonesPartition(ds[..|ds| - 1], height);
    }
  }

  /** A zone's hand holds exactly the cards detected in that zone. */
  lemma {:induction false} ZoneHandMembers(ds: seq<Detection>, height: int, z: Zone, c: Card)
    requires ValidDetections(ds)
    ensures c in ZoneHand(ds, height, z) <==> DetectedIn(ds, height, z, c)
  {
    if |ds| > 0 {
      var prefix := ds[..|ds| - 1];
      var last := ds[|ds| - 1];
      var added := if ClassifyZone(last.y1, height) == Some(z) then [ClassCard(last.cls)] else [];
      assert ZoneHand(ds, height, z) == ZoneHand(prefix, height, z) + added;
      assert c in added <==> Shows(last, height, z, c);
      ZoneHandMembers(prefix, height, z, c);
      if DetectedIn(prefix, height, z, c) {
        var i :| 0 <= i < |prefix| && Shows(prefix[i], height, z, c);
        assert ds[i] == prefix[i];
      }
      if DetectedIn(ds, height, z, c) {
        var i :| 0 <= i < |ds| && Shows(ds[i], height, z, c);
        if i < |prefix| {
          assert prefix[i] == ds[i];
        }
      }
    }
  }

  // ---------------------------------------------------------------------------
  // Removing repeats

  predicate NoDuplicates(s: seq<Card>) {
    forall i, j :: 0 <= i < j < |s| ==> s[i] != s[j]
  }

  /**
   The distinct cards of a hand, each where it first occurs. (Python's
   `list(set(hand))` lists them in hash order; DistinctListingsAgree shows the
   order cannot change the hand's value.)
   */
  function Dedup(hand: seq<Card>): (r: seq<Card>)
    ensures NoDuplicates(r)
    ensures forall c :: c in r <==> c in hand
    ensures |r| <= |hand|
  {
    if |hand| == 0 then []
    else
      var rest := Dedup(hand[..|hand| - 1]);
      var c := hand[|hand| - 1];
      assert forall x :: x in hand <==> x in hand[..|hand| - 1] || x == c;
      if c in rest then rest else rest + [c]
  }

  /** A hand without repeats is left as it is; so removing repeats twice is removing them once. */
  lemma {:induction false} DedupOfDistinct(hand: seq<Card>)
    requires NoDuplicates(hand)
    ensures Dedup(hand) == hand
  {
    if |hand| > 0 {
      var prefix := hand[..|hand| - 1];
      DedupOfDistinct(prefix);
      assert hand[|hand| - 1] !in prefix;
      assert prefix + [hand[|hand| - 1]] == hand;
    }
  }

  lemma DedupIdempotent(hand: seq<Card>)
    ensures Dedup(Dedup(hand)) == Dedup(hand)
  {
    DedupOfDistinct(Dedup(hand));
  }

  /** A card detected one or more times in a zone is in its hand exactly once. */
  lemma {:induction false} DedupRepeated(c: Card, n: nat)
    requires n >= 1
    ensures Dedup(seq(n, _ => c)) == [c]
  {
    var s := seq(n, _ => c);
    if n == 1 {
      assert s[..0] == [];
    } else {
      assert s[..n - 1] == seq(n - 1, _ => c);
      DedupRepeated(c, n - 1);
    }
  }

  /** In a list without repeats every member occurs once. */
  lemma {:induction false} DistinctMultiplicity(s: seq<Card>, x: Card)
    requires NoDuplicates(s)
    ensures multiset(s)[x] == if x in s then 1 else 0
  {
    if |s| > 0 {
      var prefix := s[..|s| - 1];
      assert s == prefix + [s[|s| - 1]];
      DistinctMultiplicity(prefix, x);
    }
  }

  /**
   Any two listings of the same distinct cards have the same value. Whatever
   order `list(set(hand))` produces, the value is that of Dedup(hand).
   */
  lemma DistinctListingsAgree(hand: seq<Card>, listing: seq<Card>)
    requires NoDuplicates(listing)
    requires forall c :: c in listing <==> c in hand
    ensures multiset(listing) == multiset(Dedup(hand))
    ensures HandValue(listing) == HandValue(Dedup(hand))
  {
    forall x: Card
      ensures multiset(listing)[x] == multiset(Dedup(hand))[x]
    {
      DistinctMultiplicity(listing, x);
      DistinctMultiplicity(Dedup(hand), x);
    }
    assert multiset(listing) == multiset(Dedup(hand));
    HandValueOrderIndependent(listing, Dedup(hand));
  }

  // ---------------------------------------------------------------------------
  // A frame's hands

  /**
   The hand of zone `z` in this frame: no repeats, and exactly the cards detected
   in that zone. Each zone's hand depends only on that zone's detections.
   */
  function FrameHand(ds: seq<Detection>, height: int, z: Zone): (hand: seq<Card>)
    requires ValidDetections(ds)
    ensures NoDuplicates(hand)
    ensures forall c :: c in hand <==> DetectedIn(ds, height, z, c)
  {
    var h := Dedup(ZoneHand(ds, height, z));
    assert forall c :: c in h <==> DetectedIn(ds, height, z, c) by {
      forall c: Card ensures c in h <==> DetectedIn(ds, height, z, c) {
        ZoneHandMembers(ds, height, z, c);
      }
    }
    h
  }
}
