/**
 * Coordinates of the tile world and the pure helpers of game/game.go:
 * positions in tile units, the player's eat-box, the conversion of a
 * continuous coordinate to a cell index (Go's int(float64), which truncates
 * toward zero), the four corner cells of the eat-box, and the longest-line
 * scan used to size the map.
 */
module Tiles {

  /** A continuous position, in tile units (game/game.go `Position`). */
  datatype Position = Position(x: real, y: real)

  /** One corner of the eat-box, as an offset from the player's position. */
  datatype Offset = Offset(dx: real, dy: real)

  /** The four corners of the eat-box, in the order the source stores them. */
  datatype EatBox = EatBox(upLeft: Offset, upRight: Offset, downRight: Offset, downLeft: Offset)

  /** A cell index: column then row, as `GameMap[col][row]` is indexed. */
  datatype Cell = Cell(col: int, row: int)

  /** The cells under the four corners of the eat-box. */
  datatype Corners = Corners(upLeft: Cell, upRight: Cell, downRight: Cell, downLeft: Cell)

  /** Go's `int(v)` on a float: the integer part, truncated toward zero. */
  function Trunc(r: real): (n: int)
    ensures 0.0 <= r ==> n as real <= r < n as real + 1.0
    ensures r < 0.0 ==> n as real - 1.0 < r <= n as real
  {
    if r >= 0.0 then r.Floor else -((-r).Floor)
  }

  /** A coordinate strictly between -1 and 1 lands in cell 0: a corner at
      -0.3 is inside column 0, not column -1. */
  lemma TruncNearZero(r: real)
    requires -1.0 < r < 1.0
    ensures Trunc(r) == 0
  {
  }

  /** A truncated coordinate is negative exactly when the coordinate is at
      most -1, so a bounds test `v < 0` on a truncated corner fires only there. */
  lemma TruncNegativeIff(r: real)
    ensures Trunc(r) < 0 <==> r <= -1.0
  {
    if r <= -1.0 {
      assert Trunc(r) as real <= r + 1.0 <= 0.0;
      assert Trunc(r) as real < r + 1.0 || r == Trunc(r) as real;
    }
  }

  /** Truncation never reverses the order of two coordinates. */
  lemma TruncMonotone(a: real, b: real)
    requires a <= b
    ensures Trunc(a) <= Trunc(b)
  {
  }

  /** An eat-box whose corners form an axis-aligned rectangle. */
  predicate IsRectangle(box: EatBox)
  {
    box.upLeft.dx == box.downLeft.dx && box.upRight.dx == box.downRight.dx &&
    box.upLeft.dy == box.upRight.dy && box.downLeft.dy == box.downRight.dy &&
    box.upLeft.dx <= box.upRight.dx && box.upLeft.dy <= box.downLeft.dy
  }

  /**
   * The cells under the four corners of the eat-box once the displacement
   * (dx, dy) is applied to the position; with no displacement these are the
   * points `GetEatBoxPoints` reports.  For a rectangular eat-box the corner
   * cells share their columns and rows pairwise and keep their left/right and
   * top/bottom order.
   */
  function CornerCells(pos: Position, box: EatBox, dx: real, dy: real): (c: Corners)
    ensures IsRectangle(box) ==>
      c.upLeft.col == c.downLeft.col && c.upRight.col == c.downRight.col &&
      c.upLeft.row == c.upRight.row && c.downLeft.row == c.downRight.row &&
      c.upLeft.col <= c.upRight.col && c.upLeft.row <= c.downLeft.row
  {
    var c := Corners(
      Cell(Trunc(pos.x + box.upLeft.dx + dx), Trunc(pos.y + box.upLeft.dy + dy)),
      Cell(Trunc(pos.x + box.upRight.dx + dx), Trunc(pos.y + box.upRight.dy + dy)),
      Cell(Trunc(pos.x + box.downRight.dx + dx), Trunc(pos.y + box.downRight.dy + dy)),
      Cell(Trunc(pos.x + box.downLeft.dx + dx), Trunc(pos.y + box.downLeft.dy + dy)));
    if IsRectangle(box) then
      TruncMonotone(pos.x + box.upLeft.dx + dx, pos.x + box.upRight.dx + dx);
      TruncMonotone(pos.y + box.upLeft.dy + dy, pos.y + box.downLeft.dy + dy);
      c
    else
      c
  }

  /** A cell lies outside a map of `width` columns and `height` rows. */
  predicate Outside(width: int, height: int, col: int, row: int)
  {
    col < 0 || col >= width || row < 0 || row >= height
  }

  /** The length of the longest line, 0 when there are none. */
  function MaxLen(lines: seq<string>): (m: nat)
    ensures forall i | 0 <= i < |lines| :: |lines[i]| <= m
    ensures |lines| == 0 ==> m == 0
    ensures |lines| > 0 ==> exists i | 0 <= i < |lines| :: |lines[i]| == m
  {
    if |lines| == 0 then 0
    else
      var rest := MaxLen(lines[..|lines| - 1]);
      var last := |lines[|lines| - 1]|;
      if last > rest then last else rest
  }

  /**
   * `longestStr`: a running maximum over the line lengths, starting at 0.
   * The result bounds every length and is one of them (0 for no lines).
   */
  method LongestStr(arr: seq<string>) returns (max: nat)
    ensures max == MaxLen(arr)
    ensures forall i | 0 <= i < |arr| :: |arr[i]| <= max
    ensures |arr| > 0 ==> exists i | 0 <= i < |arr| :: |arr[i]| == max
  {
    max := 0;
    var k := 0;
    while k < |arr|
      invariant 0 <= k <= |arr|
      invariant max == MaxLen(arr[..k])
    {
      assert arr[..k + 1][..k] == arr[..k];
      if |arr[k]| > max {
        max := |arr[k]|;
      }
      k := k + 1;
    }
    assert arr[..k] == arr;
  }
}
