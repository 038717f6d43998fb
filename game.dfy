/**
 The game state machine: whether the game is over and the message announcing
 its winner. The End key freezes the game and picks the verdict from the two
 hand values of the frame; the Reset key starts over.
 */
module Game {
  import opened Evaluator
  import opened Zones
  import opened Aggregate

  /** The six verdicts, in the order they are tried. */
  datatype Outcome = BothBust | DealerBust | PlayerBust | DealerWins | PlayerWins | Draw

  function Message(o: Outcome): string {
    match o
    case BothBust => "Both players busted! No winner."
    case DealerBust => "Dealer busted! Player wins!"
    case PlayerBust => "Player busted! Dealer wins!"
    case DealerWins => "Dealer wins!"
    case PlayerWins => "Player wins!"
    case Draw => "It's a draw!"
  }

  /**
   The first verdict that applies: both bust, dealer bust, player bust, dealer
   higher, player higher, otherwise a draw. Each verdict holds exactly when its
   condition holds with the earlier ones false, so exactly one applies.
   */
  function Verdict(dealerValue: int, playerValue: int): (o: Outcome)
    ensures o == BothBust <==> IsBust(dealerValue) && IsBust(playerValue)
    ensures o == DealerBust <==> IsBust(dealerValue) && !IsBust(playerValue)
    ensures o == PlayerBust <==> !IsBust(dealerValue) && IsBust(playerValue)
    ensures o == DealerWins <==> !IsBust(dealerValue) && !IsBust(playerValue) && dealerValue > playerValue
    ensures o == PlayerWins <==> !IsBust(dealerValue) && !IsBust(playerValue) && playerValue > dealerValue
    ensures o == Draw <==> !IsBust(dealerValue) && !IsBust(playerValue) && dealerValue == playerValue
  {
    if IsBust(dealerValue) && IsBust(playerValue) then BothBust
    else if IsBust(dealerValue) then DealerBust
    else if IsBust(playerValue) then PlayerBust
    else if dealerValue > playerValue then DealerWins
    else if playerValue > dealerValue then PlayerWins
    else Draw
  }

  /** The verdict with the dealer's and the player's parts exchanged. */
  function Mirror(o: Outcome): Outcome {
    match o
    case BothBust => BothBust
    case DealerBust => PlayerBust
    case PlayerBust => DealerBust
    case DealerWins => PlayerWins
    case PlayerWins => DealerWins
    case Draw => Draw
  }

  /** Exchanging the two hand values exchanges the dealer's and the player's verdicts. */
  lemma VerdictSymmetric(dealerValue: int, playerValue: int)
    ensures Verdict(playerValue, dealerValue) == Mirror(Verdict(dealerValue, playerValue))
  {
  }

  /** The six messages are distinct and none is empty, so the message tells the verdict. */
  lemma MessagesDistinct(o1: Outcome, o2: Outcome)
    ensures Message(o1) != ""
    ensures Message(o1) == Message(o2) ==> o1 == o2
  {
    if o1 != o2 {
      assert Message(o1)[0] != Message(o2)[0] || |Message(o1)| != |Message(o2)|;
    }
  }

  /** Sample verdicts: a dealer bust, two draws, a player win. */
  lemma VerdictExamples()
    ensures Verdict(22, 18) == DealerBust
    ensures Verdict(20, 20) == Draw
    ensures Verdict(17, 19) == PlayerWins
    ensures Verdict(0, 0) == Draw
  {
  }

  /** The keys the game reacts to: 'S' ends the game, 'D' resets it. */
  datatype Key = NoKey | EndKey | ResetKey

  const AllMessages: set<string> :=
    {Message(BothBust), Message(DealerBust), Message(PlayerBust),
     Message(DealerWins), Message(PlayerWins), Message(Draw)}

  class GameState {
    var gameOver: bool
    var winnerMessage: string

    /** While the game runs there is no message; once it is over the message is a verdict. */
    ghost predicate Valid()
      reads this
    {
      if gameOver then winnerMessage in AllMessages else winnerMessage == ""
    }

    constructor ()
      ensures Valid()
      ensures !gameOver && winnerMessage == ""
    {
      gameOver := false;
      winnerMessage := "";
    }

    /** The End key: the game is over and the message announces the verdict on the two values. */
    method End(dealerValue: int, playerValue: int)
      modifies this
      ensures Valid()
      ensures gameOver
      ensures winnerMessage == Message(Verdict(dealerValue, playerValue))
    {
      gameOver := true;
      var o := Verdict(dealerValue, playerValue);
      winnerMessage := Message(o);
    }

    /** The Reset key: back to a running game with no message, whatever the verdict was. */
    method Reset()
      modifies this
      ensures Valid()
      ensures !gameOver && winnerMessage == ""
    {
      gameOver := false;
      winnerMessage := "";
    }

    /**
     One frame: split the detections by zone, drop repeats, value each non-empty
     hand while the game runs (both values stay 0 once it is over), then react to
     the key. The values are returned for display.
     */
    method Frame(ds: seq<Detection>, height: int, key: Key) returns (dealerValue: int, playerValue: int)
      requires Valid()
      requires ValidDetections(ds)
      modifies this
      ensures Valid()
      ensures dealerValue == if old(gameOver) then 0 else HandValue(FrameHand(ds, height, Dealer))
      ensures playerValue == if old(gameOver) then 0 else HandValue(FrameHand(ds, height, Player))
      ensures key == NoKey ==> gameOver == old(gameOver) && winnerMessage == old(winnerMessage)
      ensures key == EndKey ==> gameOver && winnerMessage == Message(Verdict(dealerValue, playerValue))
      ensures key == ResetKey ==> !gameOver && winnerMessage == ""
      ensures key == EndKey && old(gameOver) ==> winnerMessage == Message(Draw)
    {
      var dealerHand, playerHand := SplitByZone(ds, height);
      dealerHand := Dedup(dealerHand);
      playerHand := Dedup(playerHand);
      dealerValue, playerValue := 0, 0;
      if !gameOver {
        if dealerHand != [] {
          dealerValue := CalculateBlackjackValue(dealerHand);
        }
        if playerHand != [] {
          playerValue := CalculateBlackjackValue(playerHand);
        }
      }
      if key == EndKey {
        End(dealerValue, playerValue);
      }
      if key == ResetKey {
        Reset();
      }
    }
  }
}
