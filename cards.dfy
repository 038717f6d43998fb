/**
 The card model: the 52 card identifiers the detector can report, each a rank
 prefix ("2".."10", "J", "Q", "K", "A") followed by one suit letter
 ("C", "D", "H", "S"), and the table that maps a detector class index to its
 identifier.
 */
module Cards {
  import opened Wrappers

  datatype Suit = Clubs | Diamonds | Hearts | Spades

  datatype Rank = Two | Three | Four | Five | Six | Seven | Eight | Nine | Ten
                | Jack | Queen | King | Ace

  datatype Card = Card(rank: Rank, suit: Suit)

  /** Jack, Queen and King. */
  predicate IsFace(r: Rank) {
    r == Jack || r == Queen || r == King
  }

  /** The numbered ranks 2..10. */
  predicate IsPip(r: Rank) {
    !IsFace(r) && r != Ace
  }

  /** The rank prefix of an identifier. */
  function RankText(r: Rank): (t: string)
    ensures 1 <= |t| <= 2
  {
    match r
    case Two => "2"
    case Three => "3"
    case Four => "4"
    case Five => "5"
    case Six => "6"
    case Seven => "7"
    case Eight => "8"
    case Nine => "9"
    case Ten => "10"
    case Jack => "J"
    case Queen => "Q"
    case King => "K"
    case Ace => "A"
  }

  /** The suit letter that ends an identifier. */
  function SuitLetter(s: Suit): char {
    match s
    case Clubs => 'C'
    case Diamonds => 'D'
    case Hearts => 'H'
    case Spades => 'S'
  }

  /** The identifier of a card, e.g. "10H" or "AD". */
  function CardName(c: Card): string {
    RankText(c.rank) + [SuitLetter(c.suit)]
  }

  function ParseRank(t: string): Option<Rank> {
    if t == "2" then Some(Two)
    else if t == "3" then Some(Three)
    else if t == "4" then Some(Four)
    else if t == "5" then Some(Five)
    else if t == "6" then Some(Six)
    else if t == "7" then Some(Seven)
    else if t == "8" then Some(Eight)
    else if t == "9" then Some(Nine)
    else if t == "10" then Some(Ten)
    else if t == "J" then Some(Jack)
    else if t == "Q" then Some(Queen)
    else if t == "K" then Some(King)
    else if t == "A" then Some(Ace)
    else None
  }

  function ParseSuit(ch: char): Option<Suit> {
    if ch == 'C' then Some(Clubs)
    else if ch == 'D' then Some(Diamonds)
    else if ch == 'H' then Some(Hearts)
    else if ch == 'S' then Some(Spades)
    else None
  }

  /**
   Reads an identifier the way the evaluator does: everything but the last
   character is the rank (`card[:-1]`), the last character is the suit.
   */
  function ParseCard(s: string): Option<Card> {
    if |s| == 0 then None
    else
      match (ParseRank(s[..|s| - 1]), ParseSuit(s[|s| - 1]))
      case (Some(r), Some(u)) => Some(Card(r, u))
      case _ => None
  }

  /** The value of a string of decimal digits. */
  function DecimalValue(t: string): int {
    if |t| == 0 then 0
    else DecimalValue(t[..|t| - 1]) * 10 + (t[|t| - 1] as int - '0' as int)
  }

  /** A numbered card is worth its face value: the number its rank prefix spells. */
  function PipValue(r: Rank): (v: nat)
    requires IsPip(r)
    ensures 2 <= v <= 10
    ensures v == DecimalValue(RankText(r))
  {
    match r
    case Two => 2
    case Three => 3
    case Four => 4
    case Five => 5
    case Six => 6
    case Seven => 7
    case Eight => 8
    case Nine => 9
    case Ten => assert "10"[..1] == "1"; 10
  }

  /**
   The detector's class names, indexed by class number: four suits per rank,
   the ranks in the order of their identifiers sorted as strings. Written as
   thirteen rows of four joined together.
   */
  const ClassNames: seq<string> :=
    ["10C", "10D", "10H", "10S"] +
    ["2C", "2D", "2H", "2S"] +
    ["3C", "3D", "3H", "3S"] +
    ["4C", "4D", "4H", "4S"] +
    ["5C", "5D", "5H", "5S"] +
    ["6C", "6D", "6H", "6S"] +
    ["7C", "7D", "7H", "7S"] +
    ["8C", "8D", "8H", "8S"] +
    ["9C", "9D", "9H", "9S"] +
    ["AC", "AD", "AH", "AS"] +
    ["JC", "JD", "JH", "JS"] +
    ["KC", "KD", "KH", "KS"] +
    ["QC", "QD", "QH", "QS"]

  const ClassCount := 52

  /** Ranks in the order the class table lists them (the identifiers sorted as strings). */
  const RankOrder: seq<Rank> :=
    [Ten, Two, Three, Four, Five, Six, Seven, Eight, Nine, Ace, Jack, King, Queen]

  const SuitOrder: seq<Suit> := [Clubs, Diamonds, Hearts, Spades]

  /**
   The card a class index stands for: four suits per rank, ranks in RankOrder.
   TableSpelled shows that its name is the table's entry.
   */
  function ClassCard(cls: int): Card
    requires 0 <= cls < ClassCount
  {
    Card(RankOrder[cls / 4], SuitOrder[cls % 4])
  }

  /** The class index of a card: the inverse of ClassCard. */
  function ClassIndex(c: Card): (cls: int)
    ensures 0 <= cls < ClassCount
    ensures ClassCard(cls) == c
  {
    var r := match c.rank
      case Ten => 0  case Two => 1  case Three => 2  case Four => 3
      case Five => 4  case Six => 5  case Seven => 6  case Eight => 7
      case Nine => 8  case Ace => 9  case Jack => 10  case King => 11
      case Queen => 12;
    var s := match c.suit
      case Clubs => 0  case Diamonds => 1  case Hearts => 2  case Spades => 3;
    4 * r + s
  }

  // ---------------------------------------------------------------------------
  // The class table

  /** Entry `cls` of the class table is the name of the card ClassCard gives. */
  lemma TableSpelled(cls: int)
    requires 0 <= cls < ClassCount
    ensures CardName(Card(RankOrder[cls / 4], SuitOrder[cls % 4])) == ClassNames[cls]
  {
    if cls < 12 {
      TableSpelledTens(cls);
    } else if cls < 24 {
      TableSpelledLow(cls);
    } else if cls < 36 {
      TableSpelledHigh(cls);
    } else {
      TableSpelledLetters(cls);
    }
  }

  /** The rows of 10, 2 and 3. */
  lemma TableSpelledTens(cls: int)
    requires 0 <= cls < 12
    ensures CardName(Card(RankOrder[cls / 4], SuitOrder[cls % 4])) == ClassNames[cls]
  {
    match cls
    case 0 =>
    case 1 =>
    case 2 =>
    case 3 =>
    case 4 =>
    case 5 =>
    case 6 =>
    case 7 =>
    case 8 =>
    case 9 =>
    case 10 =>
    case 11 =>
  }

  /** The rows of 4, 5 and 6. */
  lemma TableSpelledLow(cls: int)
    requires 12 <= cls < 24
    ensures CardName(Card(RankOrder[cls / 4], SuitOrder[cls % 4])) == ClassNames[cls]
  {
    match cls
    case 12 =>
    case 13 =>
    case 14 =>
    case 15 =>
    case 16 =>
    case 17 =>
    case 18 =>
    case 19 =>
    case 20 =>
    case 21 =>
    case 22 =>
    case 23 =>
  }

  /** The rows of 7, 8 and 9. */
  lemma TableSpelledHigh(cls: int)
    requires 24 <= cls < 36
    ensures CardName(Card(RankOrder[cls / 4], SuitOrder[cls % 4])) == ClassNames[cls]
  {
    match cls
    case 24 =>
    case 25 =>
    case 26 =>
    case 27 =>
    case 28 =>
    case 29 =>
    case 30 =>
    case 31 =>
    case 32 =>
    case 33 =>
    case 34 =>
    case 35 =>
  }

  /** The rows of A, J, K and Q. */
  lemma TableSpelledLetters(cls: int)
    requires 36 <= cls < 52
    ensures CardName(Card(RankOrder[cls / 4], SuitOrder[cls % 4])) == ClassNames[cls]
  {
    match cls
    case 36 =>
    case 37 =>
    case 38 =>
    case 39 =>
    case 40 =>
    case 41 =>
    case 42 =>
    case 43 =>
    case 44 =>
    case 45 =>
    case 46 =>
    case 47 =>
    case 48 =>
    case 49 =>
    case 50 =>
    case 51 =>
  }

  /** Reading a class's card back to an index gives the class: the table lists each card once. */
  lemma ClassIndexOfCard(cls: int)
    requires 0 <= cls < ClassCount
    ensures ClassIndex(ClassCard(cls)) == cls
  {
  }

  /** Distinct class indices stand for distinct cards. */
  lemma ClassTableInjective(i: int, j: int)
    requires 0 <= i < ClassCount && 0 <= j < ClassCount
    requires i != j
    ensures ClassCard(i) != ClassCard(j)
  {
    ClassIndexOfCard(i);
    ClassIndexOfCard(j);
  }

  // ---------------------------------------------------------------------------
  // Names

  /** The rank an identifier's prefix names is the card's rank: `card[:-1]` reads the rank text. */
  lemma RankPrefix(c: Card)
    ensures |CardName(c)| >= 2
    ensures CardName(c)[..|CardName(c)| - 1] == RankText(c.rank)
    ensures CardName(c)[|CardName(c)| - 1] == SuitLetter(c.suit)
  {
  }

  /** Reading a card's identifier gives back the card. */
  lemma NameRoundTrip(c: Card)
    ensures ParseCard(CardName(c)) == Some(c)
  {
  }

  /** An identifier that reads as a card is exactly that card's name. */
  lemma ParseRoundTrip(s: string)
    requires ParseCard(s).Some?
    ensures CardName(ParseCard(s).value) == s
  {
  }

  /** Every class name is a valid identifier, and it reads as the class's card. */
  lemma ClassNamesParse(cls: int)
    requires 0 <= cls < ClassCount
    ensures ParseCard(ClassNames[cls]) == Some(ClassCard(cls))
  {
    TableSpelled(cls);
    NameRoundTrip(ClassCard(cls));
  }
}
