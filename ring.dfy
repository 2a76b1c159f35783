/** The three-slot carousel of a column: `currentOrder` lists card indices by visual
    position, so `order[0]` is left, `order[1]` is active and `order[2]` is right. */
module Ring {

  /** The position classes `updateCardPositions` puts on a card. */
  datatype Position = Unplaced | Left | Active | Right

  /** The two ways a click can turn the ring. */
  datatype Turn = TurnLeft | TurnRight

  /** `order` is a permutation of the three ring indices 0, 1 and 2. */
  predicate IsRingOrder(order: seq<nat>)
  {
    |order| == 3 && order[0] < 3 && order[1] < 3 && order[2] < 3
    && order[0] != order[1] && order[0] != order[2] && order[1] != order[2]
  }

  /** The order every fresh stack starts from. */
  const Home: seq<nat> := [0, 1, 2]

  /** `rotateLeft`: shift the front index and push it at the back. The old active card
      becomes left, the old right card becomes active and the old left card wraps to the right. */
  function RotatedLeft(order: seq<nat>): (r: seq<nat>)
    requires |order| > 0
    ensures |r| == |order|
    ensures IsRingOrder(order) ==>
      IsRingOrder(r) && r[0] == order[1] && r[1] == order[2] && r[2] == order[0]
  {
    order[1..] + [order[0]]
  }

  /** `rotateRight`: pop the back index and unshift it at the front. The old left card
      becomes active, the old active card becomes right and the old right card wraps to the left. */
  function RotatedRight(order: seq<nat>): (r: seq<nat>)
    requires |order| > 0
    ensures |r| == |order|
    ensures IsRingOrder(order) ==>
      IsRingOrder(r) && r[0] == order[2] && r[1] == order[0] && r[2] == order[1]
  {
    [order[|order| - 1]] + order[..|order| - 1]
  }

  function Rotated(order: seq<nat>, t: Turn): (r: seq<nat>)
    requires |order| > 0
    ensures |r| == |order|
  {
    match t
    case TurnLeft => RotatedLeft(order)
    case TurnRight => RotatedRight(order)
  }

  lemma LeftThenRight(order: seq<nat>)
    requires |order| > 0
    ensures RotatedRight(RotatedLeft(order)) == order
  {
  }

  lemma RightThenLeft(order: seq<nat>)
    requires |order| > 0
    ensures RotatedLeft(RotatedRight(order)) == order
  {
  }

  /** The ring after a sequence of clicks' rotations; it stays a permutation of {0, 1, 2}. */
  function Rotations(order: seq<nat>, turns: seq<Turn>): (r: seq<nat>)
    requires IsRingOrder(order)
    ensures IsRingOrder(r)
    decreases |turns|
  {
    if turns == [] then order else Rotations(Rotated(order, turns[0]), turns[1..])
  }

  /** The ring turned left `k` times from `order`. */
  function TurnedBy(order: seq<nat>, k: int): seq<nat>
    requires |order| == 3
  {
    [order[k % 3], order[(k + 1) % 3], order[(k + 2) % 3]]
  }

  /** Left turns minus right turns. */
  function Net(turns: seq<Turn>): int
  {
    if turns == [] then 0 else (if turns[0] == TurnLeft then 1 else -1) + Net(turns[1..])
  }

  lemma TurnedTwice(order: seq<nat>, a: int, b: int)
    requires |order| == 3
    ensures TurnedBy(TurnedBy(order, a), b) == TurnedBy(order, a + b)
  {
  }

  /** The ring reached by any sequence of rotations depends only on the number of left
      turns minus right turns, taken modulo 3. */
  lemma {:induction false} RotationsNet(order: seq<nat>, turns: seq<Turn>)
    requires IsRingOrder(order)
    ensures Rotations(order, turns) == TurnedBy(order, Net(turns))
    decreases |turns|
  {
    if turns == [] {
      assert TurnedBy(order, 0) == order;
    } else {
      var next := Rotated(order, turns[0]);
      var d := if turns[0] == TurnLeft then 1 else -1;
      assert next == TurnedBy(order, d);
      RotationsNet(next, turns[1..]);
      TurnedTwice(order, d, Net(turns[1..]));
    }
  }

  /** Three turns in the same direction restore the ring. */
  lemma ThreeTurns(order: seq<nat>, t: Turn)
    requires IsRingOrder(order)
    ensures Rotations(order, [t, t, t]) == order
  {
    RotationsNet(order, [t, t, t]);
    var d := if t == TurnLeft then 1 else -1;
    assert [t, t, t][1..] == [t, t] && [t, t][1..] == [t] && [t][1..] == [];
    assert Net([t]) == d;
    assert Net([t, t]) == 2 * d;
    assert Net([t, t, t]) == 3 * d;
  }

  /** `currentOrder.indexOf(x)`: the first position holding `x`, or -1. */
  function IndexOf(order: seq<nat>, x: nat): (k: int)
    ensures -1 <= k < |order|
    ensures 0 <= k ==> order[k] == x && x !in order[..k]
    ensures k == -1 <==> x !in order
    decreases |order|
  {
    if order == [] then -1
    else if order[0] == x then 0
    else
      var k := IndexOf(order[1..], x);
      if k == -1 then -1 else k + 1
  }

  /** `handleCardClick`: a click on the left card turns the ring right, a click on the right
      card turns it left, and a click on the active card changes nothing. The clicked card
      ends up active. */
  function ClickedOrder(order: seq<nat>, clicked: nat): (r: seq<nat>)
    requires IsRingOrder(order)
    ensures IsRingOrder(r)
    ensures clicked in order ==> r[1] == clicked
    ensures clicked !in order || order[1] == clicked ==> r == order
    ensures r == order || r == RotatedLeft(order) || r == RotatedRight(order)
  {
    var position := IndexOf(order, clicked);
    if position == 0 then RotatedRight(order)
    else if position == 2 then RotatedLeft(order)
    else order
  }

  /** The position `updateCardPositions(cards, order)` gives card `i`. */
  function PositionIn(order: seq<nat>, i: nat): (p: Position)
    requires IsRingOrder(order)
    ensures p == Active <==> order[1] == i
    ensures p == Unplaced <==> i !in order
  {
    if order[0] == i then Left
    else if order[1] == i then Active
    else if order[2] == i then Right
    else Unplaced
  }

  /** The left and right classes go to the cards at `order[0]` and `order[2]`, and to no
      other card. */
  lemma PositionSides(order: seq<nat>, i: nat)
    requires IsRingOrder(order)
    ensures PositionIn(order, i) == Left <==> order[0] == i
    ensures PositionIn(order, i) == Right <==> order[2] == i
  {
  }
}
