/**
 * The player of game/player.go: position and eat-box, the (unused here)
 * jump tuning constants, the ground/velocity state the movement engine
 * updates, and the gold, keys and inventory the interactions change.
 */
module Players {
  import opened Tiles

  /** An inventory item: a name and a description. */
  datatype Object = Object(name: string, description: string)

  /** The only item the inventory ever receives. */
  const KeyObject: Object := Object("Key", "Into the unknown.")

  /**
   * The eat-box `initPlayer` gives the player: an axis-aligned rectangle
   * 0.6 tiles wide and 0.9 tiles tall, reaching 0.4 above and 0.5 below the
   * position and 0.3 to either side.
   */
  function InitialEatBox(): (box: EatBox)
    ensures IsRectangle(box)
    ensures box.upLeft.dy == box.upRight.dy == -0.4 && box.downLeft.dy == box.downRight.dy == 0.5
    ensures box.upLeft.dx == box.downLeft.dx == -0.3 && box.upRight.dx == box.downRight.dx == 0.3
  {
    EatBox(Offset(-0.3, -0.4), Offset(0.3, -0.4), Offset(0.3, 0.5), Offset(-0.3, 0.5))
  }

  /** A purchase attempt: whether it went through, and the gold left afterwards. */
  datatype Purchase = Purchase(canBuy: bool, gold: int)

  /**
   * `Buy` as the source writes it: the purchase goes through when the
   * balance covers the cost, and then the balance becomes `-cost`.  A refused
   * purchase leaves the balance alone.
   */
  function BuyAsWritten(gold: int, cost: int): (p: Purchase)
    ensures p.canBuy <==> cost <= gold
    ensures !p.canBuy ==> p.gold == gold
  {
    if gold - cost >= 0 then Purchase(true, -cost) else Purchase(false, gold)
  }

  /**
   * The discrepancy: whenever the player holds some gold and buys something
   * they can afford, the balance the source leaves is not the old balance
   * minus the cost (for instance, 10 gold and a cost of 3 leave -3, not 7),
   * and a positive cost leaves a negative balance.
   */
  lemma BuyAsWrittenDiscardsBalance(gold: int, cost: int)
    requires 0 < gold && 0 <= cost <= gold
    ensures BuyAsWritten(gold, cost).canBuy
    ensures BuyAsWritten(gold, cost).gold != gold - cost
    ensures 0 < cost ==> BuyAsWritten(gold, cost).gold < 0
  {
  }

  /** The example of the discrepancy, worked out. */
  lemma BuyAsWrittenExample()
    ensures BuyAsWritten(10, 3) == Purchase(true, -3)
  {
  }

  /**
   * `Buy` as its comment describes it: a purchase the balance covers
   * decreases the balance by exactly the cost and never makes it negative;
   * any other purchase is refused and changes nothing.
   */
  function BuyAsIntended(gold: int, cost: int): (p: Purchase)
    ensures p.canBuy <==> cost <= gold
    ensures p.canBuy ==> p.gold == gold - cost && p.gold >= 0
    ensures !p.canBuy ==> p.gold == gold
  {
    if gold - cost >= 0 then Purchase(true, gold - cost) else Purchase(false, gold)
  }

  /** With the corrected rule a non-negative balance stays non-negative over any run of purchases. */
  lemma {:induction false} BuyAsIntendedKeepsBalance(gold: int, costs: seq<int>)
    requires gold >= 0
    ensures Spend(gold, costs) >= 0
    ensures Spend(gold, costs) <= gold || exists i | 0 <= i < |costs| :: costs[i] < 0
    decreases |costs|
  {
    if |costs| > 0 {
      var next := BuyAsIntended(gold, costs[0]).gold;
      BuyAsIntendedKeepsBalance(next, costs[1..]);
      if Spend(gold, costs) > gold {
        if costs[0] >= 0 {
          assert next <= gold;
          var i :| 0 <= i < |costs[1..]| && costs[1..][i] < 0;
          assert costs[i + 1] < 0;
        } else {
          assert costs[0] < 0;
        }
      }
    }
  }

  /** The balance after attempting each purchase in turn with the corrected rule. */
  function Spend(gold: int, costs: seq<int>): int
    decreases |costs|
  {
    if |costs| == 0 then gold else Spend(BuyAsIntended(gold, costs[0]).gold, costs[1..])
  }

  class Player {
    // Position and eat-box
    var position: Position
    var eatBox: EatBox

    // Speed and velocities for moving
    var speed: real
    var velocityShortJump: real
    var velocityDiffLongJump: real

    // State
    var direction: char
    var touchingGround: bool
    var verticalVelocity: real
    var walking: bool

    // Stuff
    var gold: int
    var keys: int
    var inventory: seq<Object>

    /** `initPlayer`: the player starts 6.5 tiles right of the fixed screen column, two rows down. */
    constructor (xPlayerFixed: int)
      ensures position == Position(xPlayerFixed as real + 6.5, 2.0)
      ensures eatBox == InitialEatBox()
      ensures speed == 0.09 && velocityShortJump == -17.0 && velocityDiffLongJump == -5.9
      ensures direction == 'r' && !touchingGround && verticalVelocity == 0.0 && !walking
      ensures gold == 0 && keys == 0 && inventory == []
    {
      position := Position(xPlayerFixed as real + 6.5, 2.0);
      eatBox := InitialEatBox();
      speed := 0.09;
      velocityShortJump := -17.0;
      velocityDiffLongJump := -5.9;
      direction := 'r';
      touchingGround := false;
      verticalVelocity := 0.0;
      walking := false;
      gold := 0;
      keys := 0;
      inventory := [];
    }

    /** Shifts the position by (x, y) without any check; nothing else changes. */
    method Move(x: real, y: real)
      modifies this`position
      ensures position == Position(old(position.x) + x, old(position.y) + y)
    {
      position := Position(position.x + x, position.y + y);
    }

    /** Adds `number` to the gold; nothing else changes. */
    method CollectGold(number: int)
      modifies this`gold
      ensures gold == old(gold) + number
    {
      gold := gold + number;
    }

    /**
     * `Buy`, with the balance update its comment describes (see
     * BuyAsWritten for the code as written): an affordable purchase lowers
     * the gold by exactly the cost; nothing but the gold changes.
     */
    method Buy(cost: int) returns (canBuy: bool)
      modifies this`gold
      ensures Purchase(canBuy, gold) == BuyAsIntended(old(gold), cost)
      ensures canBuy <==> old(gold) - cost >= 0
      ensures canBuy ==> gold == old(gold) - cost
      ensures !canBuy ==> gold == old(gold)
    {
      canBuy := false;
      if gold - cost >= 0 {
        gold := gold - cost;
        canBuy := true;
      }
    }

    /** A key rune adds exactly one key object; any other rune leaves the inventory as it is. */
    method AddInventory(short: char)
      modifies this`inventory
      ensures short == 'k' ==> inventory == old(inventory) + [KeyObject]
      ensures short != 'k' ==> inventory == old(inventory)
    {
      if short == 'k' {
        inventory := inventory + [KeyObject];
      }
    }
  }
}
