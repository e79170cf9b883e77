/**
 * The grid construction of game/map.go.  The map text, already split at
 * newlines, becomes a column-major grid `grid[col][row]`: one column per
 * character position of the longest line, one cell per line, air (' ')
 * wherever a line is too short or holds a space.
 */
module Maps {

  /** The character of `line` at column `col`, or air past its end. */
  function PaddedAt(line: string, col: nat): char
  {
    if col < |line| then line[col] else ' '
  }

  /**
   * `grid` is the map of `lines` with `width` columns: exactly `width`
   * columns of `|lines|` cells each, cell [col][row] holding the character
   * at column `col` of line `row`, or air when that line is shorter.
   */
  predicate IsGridOf(grid: seq<seq<char>>, lines: seq<string>, width: nat)
  {
    |grid| == width &&
    (forall col | 0 <= col < width :: |grid[col]| == |lines|) &&
    forall col, row {:trigger grid[col][row]} | 0 <= col < width && 0 <= row < |lines| :: grid[col][row] == PaddedAt(lines[row], col)
  }

  /**
   * The two nested loop pairs of `createMap`: first `width` columns of
   * `height` air cells are appended, then every non-space character of line
   * `x` at position `y` is written to cell [y][x].  The caller passes the
   * line count as `height` and a width no shorter than any line (the source
   * passes the longest line's length).
   */
  method BuildGrid(lines: seq<string>, width: nat, height: nat) returns (grid: seq<seq<char>>)
    requires height == |lines|
    requires forall row | 0 <= row < |lines| :: |lines[row]| <= width
    ensures IsGridOf(grid, lines, width)
  {
    // Generate the empty map.
    grid := [];
    var w := 0;
    while w < width
      invariant 0 <= w <= width && |grid| == w
      invariant forall col | 0 <= col < w :: |grid[col]| == height
      invariant forall col, row | 0 <= col < w && 0 <= row < height :: grid[col][row] == ' '
    {
      grid := grid + [[]];
      var h := 0;
      while h < height
        invariant 0 <= h <= height && |grid| == w + 1 && |grid[w]| == h
        invariant forall col | 0 <= col < w :: |grid[col]| == height
        invariant forall col, row | 0 <= col < w && 0 <= row < height :: grid[col][row] == ' '
        invariant forall row | 0 <= row < h :: grid[w][row] == ' '
      {
        grid := grid[w := grid[w] + [' ']];
        h := h + 1;
      }
      w := w + 1;
    }

    // Fill the map.
    var x := 0;
    while x < |lines|
      invariant 0 <= x <= |lines|
      invariant |grid| == width && forall col | 0 <= col < width :: |grid[col]| == height
      invariant forall col, row {:trigger grid[col][row]} | 0 <= col < width && 0 <= row < height ::
        grid[col][row] == if row < x then PaddedAt(lines[row], col) else ' '
    {
      var l := lines[x];
      var y := 0;
      while y < |l|
        invariant 0 <= y <= |l|
        invariant |grid| == width && forall col | 0 <= col < width :: |grid[col]| == height
        invariant forall col, row {:trigger grid[col][row]} | 0 <= col < width && 0 <= row < height ::
          grid[col][row] == if row < x || (row == x && col < y) then PaddedAt(lines[row], col) else ' '
      {
        if l[y] != ' ' {
          grid := grid[y := grid[y][x := l[y]]];
        }
        y := y + 1;
      }
      assert forall col | y <= col < width :: PaddedAt(lines[x], col) == ' ';
      x := x + 1;
    }
  }

  /** Every non-space character of the text sits in the grid at its transposed place. */
  lemma GridKeepsGlyphs(grid: seq<seq<char>>, lines: seq<string>, width: nat, row: nat, col: nat)
    requires IsGridOf(grid, lines, width)
    requires row < |lines| && col < |lines[row]| && col < width
    ensures grid[col][row] == lines[row][col]
  {
  }

  /** Cells past the end of a short line are air: rows are right-padded. */
  lemma GridPadsShortRows(grid: seq<seq<char>>, lines: seq<string>, width: nat, row: nat, col: nat)
    requires IsGridOf(grid, lines, width)
    requires row < |lines| && |lines[row]| <= col < width
    ensures grid[col][row] == ' '
  {
  }

  /** No cell holds a character that the text does not contain, apart from air. */
  lemma GridAddsNoGlyphs(grid: seq<seq<char>>, lines: seq<string>, width: nat, col: nat, row: nat)
    requires IsGridOf(grid, lines, width)
    requires col < width && row < |lines|
    ensures grid[col][row] == ' ' || grid[col][row] in lines[row]
  {
    if col < |lines[row]| {
      assert grid[col][row] == lines[row][col];
    }
  }
}
