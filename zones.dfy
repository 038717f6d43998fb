/**
 The zone classifier: the upper half of the frame is the dealer's, the lower
 half the player's, judged by the top edge of a detection's box.
 */
module Zones {
  import opened Wrappers

  datatype Zone = Dealer | Player

  /** Python's `height // 2`: the floor of half the height, also for negative heights. */
  function Half(height: int): (m: int)
    ensures 2 * m <= height < 2 * m + 2
  {
    height / 2
  }

  /**
   The zone of a detection whose box's top edge is at `y1`: the dealer's when it
   is above the dividing line, otherwise, by the second test, the player's. No
   detection is left without a zone.
   */
  function ClassifyZone(y1: int, height: int): (z: Option<Zone>)
    ensures z.Some?
    ensures z == Some(Dealer) <==> y1 < Half(height)
    ensures z == Some(Player) <==> y1 >= Half(height)
  {
    var dealerBottom := Half(height);
    var playerTop := Half(height);
    if y1 < dealerBottom then Some(Dealer)
    else if y1 >= playerTop then Some(Player)
    else None
  }
}
