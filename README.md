# Blackjack hand detector: hand evaluation and game state

This project models the logic of a Blackjack table watcher. A card detector reports boxes,
each with a card class and a position. The logic puts each box's card into the dealer's zone
(upper half of the frame) or the player's zone (lower half). It removes repeated cards within
each zone and values each hand by the Blackjack rules. On the End key it announces a
winner; on the Reset key it starts over.

Modules (one file each):

- `Cards` (`cards.dfy`): ranks, suits, cards and their identifiers ("10H", "AD").
  Also the detector's 52-entry class table and reading an identifier back as a card
  (the rank is everything but the last character).
- `Evaluator` (`evaluator.dfy`): the evaluator `CalculateBlackjackValue` with its two loops,
  proved against `HandValue`. `HandValue` is the soft total (every Ace 11) with Aces demoted
  one at a time while the total is over 21. The lemmas cover the bounds, the best-total
  property and order independence.
- `Zones` (`zones.dfy`): the floor division `height // 2` and the zone test.
- `Aggregate` (`aggregate.dfy`): splitting one frame's detections by zone, and the deduplication
  `list(set(hand))` applied to each zone separately.
- `Game` (`game.dfy`): the six verdicts with their first-match precedence, and the
  `GameState` class holding `gameOver` and `winnerMessage`. Its methods are End, Reset and
  one whole frame.
- `Wrappers` (`wrappers.dfy`): `Option`.

Points where the model had to choose:

- The class table is written as thirteen rows of four identifiers joined together, in
  the source's order.
- Python's `list(set(hand))` lists a zone's cards in hash order. `Dedup` keeps each card where
  it first occurs. `DistinctListingsAgree` shows every duplicate-free listing of the same
  cards has the same value, so the order does not matter.
- Dafny's `/` is Euclidean. With divisor 2 this is floor division, the same as Python's `//`
  for every integer, negative heights included (`Zones.Half`).
- The zone test is `y1 < height // 2`, then `elif y1 >= height // 2`, with no else. The model
  keeps the empty third case as `None` and proves it can never happen.
- The code has no case that leaves a detection without a zone, and raises no coordinate
  or card error: every detection gets a zone (`ClassifyZone`).
- A second End once the game is over finds both hand values at their frame default of 0,
  because they are not recomputed then, so the message becomes "It's a draw!"
  (`GameState.Frame`, last postcondition).
- Python integers are unbounded, so the model's `int` needs no wrap-around.

## Model

| member | source | states |
|---|---|---|
| Cards.TableSpelled | main.py:16-28 | entry `cls` of the class table is the identifier of the card with rank `RankOrder[cls / 4]` and suit `SuitOrder[cls % 4]` |
| Cards.ClassNamesParse | main.py:16-28 | every class name is a valid identifier and reads back as the card `ClassCard(cls)` |
| Cards.ClassIndex | main.py:16-28 | every card has a class index in 0..51 that maps back to that card (the table covers all 52 cards) |
| Cards.ClassIndexOfCard | main.py:16-28 | mapping a class to its card and back gives the same class |
| Cards.ClassTableInjective | main.py:16-28 | distinct class indices stand for distinct cards (no card is listed twice) |
| Cards.RankPrefix | main.py:39 | dropping an identifier's last character (`card[:-1]`) leaves exactly the rank text; the last character is the suit letter |
| Cards.NameRoundTrip | main.py:39 | reading a card's identifier gives back that card |
| Cards.ParseRoundTrip | main.py:39 | an identifier that reads as a card is exactly that card's identifier |
| Cards.PipValue | main.py:45-46 | a numbered card is worth 2..10, and that is the decimal value `int(rank)` of its rank text |
| Evaluator.StringPointsOfName | main.py:39-46 | on a card's identifier, the text tests (`card[:-1]` in K/Q/J, `== 'A'`, else `int(rank)`) add exactly `SoftPoints` of the card |
| Evaluator.StringPointsOfTable | main.py:16-46 | every class table entry, tested as text, adds exactly `SoftPoints` of its class's card, so valuing `Card`s is valuing the identifiers |
| Evaluator.CalculateBlackjackValue | main.py:33-53 | the loops compute `HandValue(hand)`, the soft total with Aces demoted one at a time while the total is over 21; the result lies between the hard and the soft total, and a bust result is the hard total |
| Evaluator.DemoteBounds | main.py:49-51 | demoting removes a multiple of 10, at most 10 per Ace; leaves a total of 21 or less unchanged; a result over 21 means every Ace was demoted; any demotion ends at 12 or more |
| Evaluator.DemoteSteps | main.py:49-51 | the loop demotes at most as many Aces as there are, and takes exactly 10 off the total for each one it demotes |
| Evaluator.DemoteIsBest | main.py:49-51 | for any k no greater than the Ace count with `total - 10k <= 21`, the result is at least `total - 10k` and at most 21 |
| Evaluator.SoftIsHardPlusAces | main.py:38-46 | the soft total is the hard total plus 10 per Ace |
| Evaluator.EmptyHand | main.py:34-35 | the empty hand is worth 0 and is not bust |
| Evaluator.NoAceHand | main.py:38-46 | a hand without Aces is worth the plain sum (10 per J/Q/K, face value per number card), equal to its soft and hard totals |
| Evaluator.HandValueBounds | main.py:38-51 | the value is the soft total minus 10·k with 0 ≤ k ≤ Aces; so hard ≤ value ≤ soft; value = soft when soft ≤ 21; a bust value is the hard total; a value below soft is at least 12 |
| Evaluator.HandValueIsBest | main.py:49-51 | no choice of demoted Aces gives a better non-bust total than the value |
| Evaluator.SumPermutation | main.py:38-46 | the totals summed by the first loop depend only on the multiset of cards |
| Evaluator.HandValueOrderIndependent | main.py:38-51 | two hands with the same multiset of cards have the same value |
| Evaluator.AceExamples | main.py:33-53 | {AH} is 11, {AH, AD} is 12, {AH, AD, 9C} is 21 |
| Evaluator.BustExample | main.py:33-53 | {KS, QH, 2C} is 22 and therefore bust |
| Zones.Half | main.py:74-75 | `height // 2` is the floor of half the height: `2m <= height < 2m + 2` |
| Zones.ClassifyZone | main.py:105-108 | every detection gets a zone; it is the dealer's iff `y1 < height // 2` and the player's iff `y1 >= height // 2` |
| Aggregate.SplitByZone | main.py:98-108 | the loop appends each detection's table card to its zone's hand, in detection order (`ZoneHand` for each zone) |
| Aggregate.ZonesPartition | main.py:105-108 | the two hands together hold every detected card exactly as often as it was detected |
| Aggregate.ZoneHandMembers | main.py:105-108 | a card is in a zone's hand iff some detection of that card lies in that zone |
| Aggregate.Dedup | main.py:121-122 | the result has no repeats and holds exactly the cards of the hand |
| Aggregate.DedupOfDistinct | main.py:121-122 | a hand without repeats is unchanged |
| Aggregate.DedupIdempotent | main.py:121-122 | removing repeats twice is the same as once |
| Aggregate.DedupRepeated | main.py:121-122 | a card seen n ≥ 1 times gives a hand of exactly that one card |
| Aggregate.DistinctMultiplicity | main.py:121-122 | in a list without repeats, each member occurs once |
| Aggregate.DistinctListingsAgree | main.py:121-122 | any duplicate-free listing of a hand's cards has the multiset and value of `Dedup(hand)`, so the order of `list(set(...))` does not matter |
| Aggregate.FrameHand | main.py:121-122 | a zone's hand for the frame has no repeats and holds exactly the cards detected in that zone, independently of the other zone |
| Game.Verdict | main.py:159-170 | exactly one verdict applies: both bust, dealer bust only, player bust only, or neither bust with dealer higher, player higher or equal |
| Game.VerdictSymmetric | main.py:159-170 | swapping the two values swaps the dealer and player verdicts (`Mirror`); both-bust and draw stay the same |
| Game.MessagesDistinct | main.py:160-170 | the six messages are non-empty and pairwise distinct |
| Game.VerdictExamples | main.py:159-170 | 22/18 is the dealer's bust, 20/20 and 0/0 are draws, 17/19 is the player's win |
| Game.GameState.constructor | main.py:56-57 | the game starts running with an empty message |
| Game.GameState.End | main.py:156-170 | End sets `gameOver` and the message of the verdict on the two values |
| Game.GameState.Reset | main.py:172-174 | Reset clears `gameOver` and the message, and nothing else changes |
| Game.GameState.Frame | main.py:65-174 | from empty hands and values 0: the zones' hands are valued only while the game runs, an empty hand stays 0. Then End or Reset applies, and End after the game is over yields "It's a draw!"; `Valid` (no message while running, a verdict message once over) is kept |

## Left out

- Webcam capture, the YOLO model and inference: a foreign library and I/O. Detections are an input sequence of (class index, top edge `y1`), and the frame height is a parameter.
- The float-to-int conversion of box coordinates: `y1` and `height` are integers already.
- All drawing and text: the dividing line, boxes, labels, the hand and winner captions, and the window. This is display only; the "BUST" caption is `IsBust(value)`.
- Reading keys with `cv2.waitKey` and the 'q' exit. A frame receives at most one key: no key, End ('S') or Reset ('D').
- The endless frame loop itself: `GameState.Frame` is one iteration, and the state carries over between calls.
- `StringPoints` reads a non-digit rank as an error (`None`, Python's `ValueError`); Python's `int()` would also accept signs, spaces and underscores, which no identifier contains.
- Class indices outside 0..51: Python would raise `IndexError` or wrap around for negative indices. The model, like the detector, requires indices in range (`ValidDetections`).
