/**
 * The rules of game/game.go's `Collect`, `Action` and `Move`, stated on a
 * value `Scene` holding everything those operations read or write: the map
 * size, the block registry, the grid, and the player's position, eat-box,
 * ground flag, vertical velocity, gold and keys.  The `Game` class carries
 * out these rules in place; the lemmas here are what the rules guarantee.
 */
module Rules {
  import opened Tiles
  import opened Blocks

  datatype Scene = Scene(
    width: int, height: int, blocks: map<char, Block>, grid: seq<seq<char>>,
    pos: Position, box: EatBox, touchingGround: bool, verticalVelocity: real,
    gold: int, keys: int)

  /**
   * The shape every scene keeps: `width` columns of `height` cells, every
   * block filed under its own rune, and no negative key count.
   */
  predicate WellFormed(s: Scene)
  {
    0 <= s.height && |s.grid| == s.width &&
    (forall col | 0 <= col < |s.grid| :: |s.grid[col]| == s.height) &&
    Keyed(s.blocks) && 0 <= s.keys
  }

  /**
   * The block under a cell: the registry's entry for the cell's rune, or the
   * entry for air when the cell is off the map (the map is never indexed out
   * of range).
   */
  function BlockAt(s: Scene, c: Cell): Block
    requires WellFormed(s)
  {
    if Outside(s.width, s.height, c.col, c.row) then Lookup(s.blocks, ' ')
    else Lookup(s.blocks, s.grid[c.col][c.row])
  }

  /** The scene with one in-map cell replaced. */
  function SetCell(s: Scene, col: int, row: int, r: char): (t: Scene)
    requires WellFormed(s) && !Outside(s.width, s.height, col, row)
    ensures WellFormed(t) && t == s.(grid := t.grid)
    ensures t.grid[col][row] == r
    ensures forall c, w | 0 <= c < s.width && 0 <= w < s.height && (c != col || w != row) ::
      t.grid[c][w] == s.grid[c][w]
  {
    s.(grid := s.grid[col := s.grid[col][row := r]])
  }

  // ---------------------------------------------------------------- Collect

  /** The cell under the player's (truncated) position. */
  function Under(s: Scene): Cell
  {
    Cell(Trunc(s.pos.x), Trunc(s.pos.y))
  }

  /** The player stands on an in-map cell whose block is collectable. */
  predicate CollectsAt(s: Scene)
    requires WellFormed(s)
  {
    var c := Under(s);
    !Outside(s.width, s.height, c.col, c.row) && Lookup(s.blocks, s.grid[c.col][c.row]).collectable
  }

  /**
   * `Collect`: a collectable item under the player is removed (its cell
   * becomes air) and a coin adds one gold, a key one key.  Nothing else in
   * the scene changes, and without a collectable item nothing changes at all.
   */
  function Collected(s: Scene): (t: Scene)
    requires WellFormed(s)
    ensures WellFormed(t) && t == s.(grid := t.grid, gold := t.gold, keys := t.keys)
    ensures !CollectsAt(s) ==> t == s
    ensures CollectsAt(s) ==>
      var c := Under(s);
      var short := Lookup(s.blocks, s.grid[c.col][c.row]).short;
      t.grid[c.col][c.row] == ' ' &&
      t.gold == s.gold + (if short == 'c' then 1 else 0) &&
      t.keys == s.keys + (if short == 'k' then 1 else 0) &&
      forall col, row | 0 <= col < s.width && 0 <= row < s.height && (col != c.col || row != c.row) ::
        t.grid[col][row] == s.grid[col][row]
  {
    var c := Under(s);
    if !CollectsAt(s) then s
    else
      var b := Lookup(s.blocks, s.grid[c.col][c.row]);
      var cleared := SetCell(s, c.col, c.row, ' ');
      if b.short == 'c' then cleared.(gold := s.gold + 1)
      else if b.short == 'k' then cleared.(keys := s.keys + 1)
      else cleared
  }

  /**
   * Collecting twice in a row is collecting once: the second pass finds air
   * under the player, provided air itself is not registered as collectable.
   */
  lemma CollectIdempotent(s: Scene)
    requires WellFormed(s)
    requires !Lookup(s.blocks, ' ').collectable
    ensures Collected(Collected(s)) == Collected(s)
  {
    var t := Collected(s);
    if CollectsAt(s) {
      var c := Under(s);
      assert Under(t) == c;
      assert t.grid[c.col][c.row] == ' ';
      assert !CollectsAt(t);
    } else {
      assert t == s;
    }
  }

  // ----------------------------------------------------------------- Action

  /** The cell is on the map and its rune reads as a block filed under the closed-door rune 'C'. */
  predicate ClosedDoorAt(s: Scene, col: int, row: int)
    requires WellFormed(s)
  {
    !Outside(s.width, s.height, col, row) && Lookup(s.blocks, s.grid[col][row]).short == 'C'
  }

  /**
   * One side of `Action`: a closed door at an in-map cell, with a key left,
   * becomes an open door 'O' and costs exactly one key; no other cell
   * changes.  Otherwise nothing changes at all.
   */
  function OpenDoorAt(s: Scene, col: int, row: int): (t: Scene)
    requires WellFormed(s)
    ensures WellFormed(t) && t == s.(grid := t.grid, keys := t.keys)
    ensures ClosedDoorAt(s, col, row) && s.keys > 0 ==>
      t.grid[col][row] == 'O' && t.keys == s.keys - 1 &&
      forall c, w | 0 <= c < s.width && 0 <= w < s.height && (c != col || w != row) ::
        t.grid[c][w] == s.grid[c][w]
    ensures !(ClosedDoorAt(s, col, row) && s.keys > 0) ==> t == s
  {
    if ClosedDoorAt(s, col, row) && s.keys > 0
    then SetCell(s, col, row, 'O').(keys := s.keys - 1)
    else s
  }

  /** `Action`: the cell left of the player is tried first, then the cell to its right. */
  function Acted(s: Scene): (t: Scene)
    requires WellFormed(s)
    ensures WellFormed(t) && t == s.(grid := t.grid, keys := t.keys)
    ensures 0 <= t.keys <= s.keys
  {
    var c := Under(s);
    OpenDoorAt(OpenDoorAt(s, c.col - 1, c.row), c.col + 1, c.row)
  }

  /** 1 when the in-map cell (col, row) differs between the two scenes, else 0. */
  function Changed(s: Scene, t: Scene, col: int, row: int): int
    requires WellFormed(s) && WellFormed(t) && s.width == t.width && s.height == t.height
  {
    if !Outside(s.width, s.height, col, row) && t.grid[col][row] != s.grid[col][row] then 1 else 0
  }

  /**
   * Every key `Action` spends opens one door: the key count drops by exactly
   * the number of neighbouring cells that changed, each changed cell held a
   * closed door 'C' and now holds an open door 'O', and every other cell is
   * as it was.
   */
  lemma ActionSpendsOneKeyPerDoor(s: Scene)
    requires WellFormed(s)
    ensures var t := Acted(s); var c := Under(s);
      t.keys == s.keys - Changed(s, t, c.col - 1, c.row) - Changed(s, t, c.col + 1, c.row) &&
      (Changed(s, t, c.col - 1, c.row) == 1 ==> s.grid[c.col - 1][c.row] == 'C' && t.grid[c.col - 1][c.row] == 'O') &&
      (Changed(s, t, c.col + 1, c.row) == 1 ==> s.grid[c.col + 1][c.row] == 'C' && t.grid[c.col + 1][c.row] == 'O') &&
      forall col, row | 0 <= col < s.width && 0 <= row < s.height && row != c.row ::
        t.grid[col][row] == s.grid[col][row]
  {
    var c := Under(s);
    var m := OpenDoorAt(s, c.col - 1, c.row);
    var t := OpenDoorAt(m, c.col + 1, c.row);
    assert Lookup(s.blocks, 'O').short == 'C' ==> false by {
      if 'O' in s.blocks { assert s.blocks['O'].short == 'O'; }
    }
    if m != s {
      assert s.blocks[s.grid[c.col - 1][c.row]].short == s.grid[c.col - 1][c.row];
    }
    if t != m {
      assert m.blocks[m.grid[c.col + 1][c.row]].short == m.grid[c.col + 1][c.row];
    }
  }

  /**
   * What `Action` does, for every scene: the door on the left opens when it is
   * a closed door and a key is left; then the door on the right opens when it
   * is a closed door and a key is still left.  Each opened door costs exactly
   * one key, and every cell other than the opened doors is unchanged.
   */
  lemma ActionOpensDoors(s: Scene)
    requires WellFormed(s)
    ensures var c := Under(s); var t := Acted(s);
      var left := ClosedDoorAt(s, c.col - 1, c.row) && s.keys > 0;
      var right := ClosedDoorAt(s, c.col + 1, c.row) && s.keys - (if left then 1 else 0) > 0;
      (left ==> t.grid[c.col - 1][c.row] == 'O') &&
      (right ==> t.grid[c.col + 1][c.row] == 'O') &&
      t.keys == s.keys - (if left then 1 else 0) - (if right then 1 else 0) &&
      forall col, row | 0 <= col < s.width && 0 <= row < s.height &&
        !(row == c.row && ((col == c.col - 1 && left) || (col == c.col + 1 && right))) ::
        t.grid[col][row] == s.grid[col][row]
  {
    var c := Under(s);
    var m := OpenDoorAt(s, c.col - 1, c.row);
    if !Outside(s.width, s.height, c.col + 1, c.row) {
      assert m.grid[c.col + 1][c.row] == s.grid[c.col + 1][c.row];
    }
    assert ClosedDoorAt(m, c.col + 1, c.row) == ClosedDoorAt(s, c.col + 1, c.row);
  }

  /** Without a key, `Action` changes nothing: an opened door stays open and keys stay at 0. */
  lemma ActionWithoutKeysIsNoop(s: Scene)
    requires WellFormed(s) && s.keys == 0
    ensures Acted(s) == s
  {
  }

  /**
   * With one key and closed doors on both sides, only the left door opens
   * and the key count reaches 0.
   */
  lemma ActionOneKeyTwoDoors(s: Scene)
    requires WellFormed(s) && s.keys == 1
    requires Lookup(s.blocks, 'C').short == 'C'
    requires var c := Under(s);
      !Outside(s.width, s.height, c.col - 1, c.row) && !Outside(s.width, s.height, c.col + 1, c.row) &&
      s.grid[c.col - 1][c.row] == 'C' && s.grid[c.col + 1][c.row] == 'C'
    ensures var t := Acted(s); var c := Under(s);
      t.keys == 0 && t.grid[c.col - 1][c.row] == 'O' && t.grid[c.col + 1][c.row] == 'C'
  {
    var c := Under(s);
    var m := OpenDoorAt(s, c.col - 1, c.row);
    assert m.keys == 0 && m.grid[c.col + 1][c.row] == 'C';
  }

  /** With two keys and closed doors on both sides, both doors open and no key is left. */
  lemma ActionTwoKeysTwoDoors(s: Scene)
    requires WellFormed(s) && s.keys == 2
    requires Lookup(s.blocks, 'C').short == 'C'
    requires var c := Under(s);
      !Outside(s.width, s.height, c.col - 1, c.row) && !Outside(s.width, s.height, c.col + 1, c.row) &&
      s.grid[c.col - 1][c.row] == 'C' && s.grid[c.col + 1][c.row] == 'C'
    ensures var t := Acted(s); var c := Under(s);
      t.keys == 0 && t.grid[c.col - 1][c.row] == 'O' && t.grid[c.col + 1][c.row] == 'O'
  {
    ActionOpensDoors(s);
  }

  /** With one key and a closed door on the right only, the right door opens and the key is spent. */
  lemma ActionRightDoorOnly(s: Scene)
    requires WellFormed(s) && s.keys == 1
    requires Lookup(s.blocks, 'C').short == 'C'
    requires var c := Under(s);
      !ClosedDoorAt(s, c.col - 1, c.row) &&
      !Outside(s.width, s.height, c.col + 1, c.row) && s.grid[c.col + 1][c.row] == 'C'
    ensures var t := Acted(s); var c := Under(s);
      t.keys == 0 && t.grid[c.col + 1][c.row] == 'O'
  {
    ActionOpensDoors(s);
  }
  /**
   * With the catalogue `loadResources` registers no block carries the
   * closed-door or key rune, so `Action` never opens a door and `Collect`
   * never adds a key.
   */
  lemma StandardRegistryHasNoDoorsOrKeys(s: Scene, ss: int)
    requires WellFormed(s) && s.blocks == Registry(ss)
    ensures Acted(s) == s
    ensures Collected(s).keys == s.keys
  {
    var c := Under(s);
    RegistryHasNoDoorsOrKeys(ss, if Outside(s.width, s.height, c.col - 1, c.row) then ' ' else s.grid[c.col - 1][c.row]);
    RegistryHasNoDoorsOrKeys(ss, if Outside(s.width, s.height, c.col + 1, c.row) then ' ' else s.grid[c.col + 1][c.row]);
    RegistryHasNoDoorsOrKeys(ss, if Outside(s.width, s.height, c.col, c.row) then ' ' else s.grid[c.col][c.row]);
  }

  // ------------------------------------------------------------------- Move

  /** The four corner cells of a move and the blocks under them, read once before anything changes. */
  datatype Sample = Sample(cells: Corners, upLeft: Block, upRight: Block, downRight: Block, downLeft: Block)

  /** The sample `Move(dx, dy)` takes of the scene. */
  function Sampled(s: Scene, dx: real, dy: real): (k: Sample)
    requires WellFormed(s)
  {
    var c := CornerCells(s.pos, s.box, dx, dy);
    Sample(c, BlockAt(s, c.upLeft), BlockAt(s, c.upRight), BlockAt(s, c.downRight), BlockAt(s, c.downLeft))
  }

  /**
   * Whether the horizontal step `dx` is approved: to the right, both
   * left-corner columns must be inside the width and both right corners free
   * of solid blocks; to the left, both right-corner columns must be
   * non-negative and both left corners free.
   */
  predicate HorizontalOk(width: int, dx: real, k: Sample)
  {
    if dx > 0.0 then
      k.cells.upLeft.col < width && k.cells.downLeft.col < width && !k.upRight.solid && !k.downRight.solid
    else if dx < 0.0 then
      k.cells.upRight.col >= 0 && k.cells.downRight.col >= 0 && !k.upLeft.solid && !k.downLeft.solid
    else false
  }

  /**
   * The row guard of the vertical step: descending needs both top-corner
   * rows above the bottom of the map, ascending both bottom-corner rows at or
   * below its top.
   */
  predicate VerticalInRange(height: int, dy: real, k: Sample)
  {
    if dy > 0.0 then k.cells.upLeft.row < height && k.cells.upRight.row < height
    else if dy < 0.0 then k.cells.downRight.row >= 0 && k.cells.downLeft.row >= 0
    else false
  }

  /** The leading edge of the vertical step is free: bottom corners when descending, top corners when ascending. */
  predicate VerticalClear(dy: real, k: Sample)
  {
    if dy > 0.0 then !k.downLeft.solid && !k.downRight.solid
    else !k.upLeft.solid && !k.upRight.solid
  }

  datatype Moved = Moved(scene: Scene, moving: bool)

  /**
   * `Move(dx, dy)`: the corners are sampled once, on the scene as it is;
   * then `Collect` and `Action` run; then the horizontal and the vertical
   * step are applied if approved.  A refused descent in range is the ground
   * event (ground flag set, velocity reset); a refused ascent in range is the
   * ceiling event (velocity reset only).  `moving` reports an approved
   * horizontal step taken on the ground, or any approved vertical step.
   */
  function Stepped(s: Scene, dx: real, dy: real): (m: Moved)
    requires WellFormed(s)
    ensures WellFormed(m.scene)
    ensures m.scene.width == s.width && m.scene.height == s.height && m.scene.blocks == s.blocks
    ensures m.scene.box == s.box && m.scene.gold >= s.gold
  {
    Advanced(Acted(Collected(s)), Sampled(s, dx, dy), dx, dy)
  }

  /**
   * The stepping half of `Move`, on the scene `t` left by `Collect` and
   * `Action` and the sample `k` taken before them: only the position, the
   * ground flag and the vertical velocity change.
   */
  function Advanced(t: Scene, k: Sample, dx: real, dy: real): (m: Moved)
    ensures m.scene == t.(pos := m.scene.pos, touchingGround := m.scene.touchingGround,
                          verticalVelocity := m.scene.verticalVelocity)
    ensures WellFormed(t) ==> WellFormed(m.scene)
  {
    var h := HorizontalOk(t.width, dx, k);
    var v := VerticalInRange(t.height, dy, k);
    var free := VerticalClear(dy, k);
    var x := if h then t.pos.x + dx else t.pos.x;
    var y := if v && free then t.pos.y + dy else t.pos.y;
    Moved(
      t.(pos := Position(x, y),
         touchingGround := t.touchingGround || (v && !free && dy > 0.0),
         verticalVelocity := if v && !free then 0.0 else t.verticalVelocity),
      (h && t.touchingGround) || (v && free))
  }

  /**
   * The horizontal rule: stepping right, X grows by exactly dx when both
   * left-corner columns are inside the width and both right corners are not
   * solid, and is unchanged otherwise; stepping left mirrors this with the
   * right-corner columns and the left corners.
   */
  lemma HorizontalRule(s: Scene, dx: real, dy: real)
    requires WellFormed(s)
    ensures var c := CornerCells(s.pos, s.box, dx, dy); var x := Stepped(s, dx, dy).scene.pos.x;
      (dx > 0.0 ==>
        (x == s.pos.x + dx <==>
          c.upLeft.col < s.width && c.downLeft.col < s.width &&
          !BlockAt(s, c.upRight).solid && !BlockAt(s, c.downRight).solid)) &&
      (dx < 0.0 ==>
        (x == s.pos.x + dx <==>
          c.upRight.col >= 0 && c.downRight.col >= 0 &&
          !BlockAt(s, c.upLeft).solid && !BlockAt(s, c.downLeft).solid)) &&
      (x == s.pos.x || x == s.pos.x + dx)
  {
  }

  /**
   * Solid blocks cannot be entered sideways: when both corners on the
   * leading side sit on in-map cells holding solid blocks, X does not change.
   */
  lemma SolidBlocksStopHorizontal(s: Scene, dx: real, dy: real)
    requires WellFormed(s) && dx != 0.0
    requires var c := CornerCells(s.pos, s.box, dx, dy);
      var a := if dx > 0.0 then c.upRight else c.upLeft;
      var b := if dx > 0.0 then c.downRight else c.downLeft;
      !Outside(s.width, s.height, a.col, a.row) && Lookup(s.blocks, s.grid[a.col][a.row]).solid &&
      !Outside(s.width, s.height, b.col, b.row) && Lookup(s.blocks, s.grid[b.col][b.row]).solid
    ensures Stepped(s, dx, dy).scene.pos.x == s.pos.x
  {
  }

  /**
   * `moving` is set by a horizontal step only when the player was already on
   * the ground, and by every approved vertical step.
   */
  lemma MovingFlag(s: Scene, dx: real, dy: real)
    requires WellFormed(s)
    ensures !(VerticalInRange(s.height, dy, Sampled(s, dx, dy)) && VerticalClear(dy, Sampled(s, dx, dy))) ==>
      (Stepped(s, dx, dy).moving <==> HorizontalOk(s.width, dx, Sampled(s, dx, dy)) && s.touchingGround)
    ensures VerticalInRange(s.height, dy, Sampled(s, dx, dy)) && VerticalClear(dy, Sampled(s, dx, dy)) ==>
      Stepped(s, dx, dy).moving
  {
  }

  /**
   * Descending with both top-corner rows inside the map: if both bottom
   * corners are free, Y grows by dy; otherwise Y stays, the ground flag is
   * set and the vertical velocity is reset to 0.
   */
  lemma DescentRule(s: Scene, dx: real, dy: real)
    requires WellFormed(s) && dy > 0.0
    requires var c := CornerCells(s.pos, s.box, dx, dy); c.upLeft.row < s.height && c.upRight.row < s.height
    ensures var c := CornerCells(s.pos, s.box, dx, dy); var t := Stepped(s, dx, dy).scene;
      if !BlockAt(s, c.downLeft).solid && !BlockAt(s, c.downRight).solid then
        t.pos.y == s.pos.y + dy && t.touchingGround == s.touchingGround &&
        t.verticalVelocity == s.verticalVelocity
      else
        t.pos.y == s.pos.y && t.touchingGround && t.verticalVelocity == 0.0
  {
  }

  /** Descending once a top-corner row is at or past the bottom of the map changes no vertical state. */
  lemma DescentPastBottomIsIgnored(s: Scene, dx: real, dy: real)
    requires WellFormed(s) && dy > 0.0
    requires var c := CornerCells(s.pos, s.box, dx, dy); c.upLeft.row >= s.height || c.upRight.row >= s.height
    ensures var t := Stepped(s, dx, dy).scene;
      t.pos.y == s.pos.y && t.touchingGround == s.touchingGround && t.verticalVelocity == s.verticalVelocity
  {
  }

  /**
   * Ascending with both bottom-corner rows inside the map and both top
   * corners free: Y moves by dy and the ground flag and velocity are kept.
   */
  lemma AscentRule(s: Scene, dx: real, dy: real)
    requires WellFormed(s) && dy < 0.0
    requires var c := CornerCells(s.pos, s.box, dx, dy);
      c.downRight.row >= 0 && c.downLeft.row >= 0 &&
      !BlockAt(s, c.upLeft).solid && !BlockAt(s, c.upRight).solid
    ensures var t := Stepped(s, dx, dy);
      t.scene.pos.y == s.pos.y + dy && t.scene.touchingGround == s.touchingGround &&
      t.scene.verticalVelocity == s.verticalVelocity && t.moving
  {
  }

  /** Ascending once a bottom-corner row is above the top of the map changes no vertical state. */
  lemma AscentPastTopIsIgnored(s: Scene, dx: real, dy: real)
    requires WellFormed(s) && dy < 0.0
    requires var c := CornerCells(s.pos, s.box, dx, dy); c.downRight.row < 0 || c.downLeft.row < 0
    ensures var t := Stepped(s, dx, dy).scene;
      t.pos.y == s.pos.y && t.touchingGround == s.touchingGround && t.verticalVelocity == s.verticalVelocity
  {
  }

  /**
   * Ascending with both bottom-corner rows inside the map: when a top corner
   * is solid (the ceiling event) Y stays and the velocity is reset to 0, but
   * the ground flag is left as it was.
   */
  lemma CeilingRule(s: Scene, dx: real, dy: real)
    requires WellFormed(s) && dy < 0.0
    requires var c := CornerCells(s.pos, s.box, dx, dy);
      c.downRight.row >= 0 && c.downLeft.row >= 0 &&
      (BlockAt(s, c.upLeft).solid || BlockAt(s, c.upRight).solid)
    ensures var t := Stepped(s, dx, dy).scene;
      t.pos.y == s.pos.y && t.verticalVelocity == 0.0 && t.touchingGround == s.touchingGround
  {
  }

  /**
   * The position is not kept inside the map.  On a one-cell map of air, a
   * player with the initial eat-box at x = 0.9 stepping 0.3 to the right is
   * let through, because only the left corners are checked against the
   * width and the right corners, off the map, read as air: X becomes 1.2,
   * past the width of 1.
   */
  lemma RightEdgeOverrun(ss: int)
    ensures var box := EatBox(Offset(-0.3, -0.4), Offset(0.3, -0.4), Offset(0.3, 0.5), Offset(-0.3, 0.5));
      var s := Scene(1, 1, Registry(ss), [[' ']], Position(0.9, 0.5), box, true, 0.0, 0, 0);
      WellFormed(s) && Stepped(s, 0.3, 0.0).scene.pos.x == 1.2 && 1.2 >= s.width as real
  {
    var box := EatBox(Offset(-0.3, -0.4), Offset(0.3, -0.4), Offset(0.3, 0.5), Offset(-0.3, 0.5));
    var s := Scene(1, 1, Registry(ss), [[' ']], Position(0.9, 0.5), box, true, 0.0, 0, 0);
    var c := CornerCells(s.pos, s.box, 0.3, 0.0);
    TruncNearZero(0.9);
    TruncNearZero(0.1);
    assert Trunc(0.9 + 0.3 + 0.3) == 1;
    assert c.upLeft.col == 0 && c.downLeft.col == 0;
    assert c.upRight.col == 1 && c.downRight.col == 1;
    RegistryAirIsZero(ss);
    assert HorizontalOk(s.width, 0.3, Sampled(s, 0.3, 0.0));
    StandardRegistryHasNoDoorsOrKeys(s, ss);
    assert Collected(s) == s by {
      assert Under(s) == Cell(0, 0);
    }
  }

  /**
   * The left edge is open the same way: on a one-cell map of air, a player
   * with the initial eat-box at x = 0.1 stepping 0.3 to the left is let
   * through, because only the right corners are checked against 0 and a left
   * corner at -0.5 truncates to column 0: X becomes -0.2, left of the map.
   */
  lemma LeftEdgeOverrun(ss: int)
    ensures var box := EatBox(Offset(-0.3, -0.4), Offset(0.3, -0.4), Offset(0.3, 0.5), Offset(-0.3, 0.5));
      var s := Scene(1, 1, Registry(ss), [[' ']], Position(0.1, 0.5), box, true, 0.0, 0, 0);
      WellFormed(s) && Stepped(s, -0.3, 0.0).scene.pos.x == -0.2 && -0.2 < 0.0
  {
    var box := EatBox(Offset(-0.3, -0.4), Offset(0.3, -0.4), Offset(0.3, 0.5), Offset(-0.3, 0.5));
    var s := Scene(1, 1, Registry(ss), [[' ']], Position(0.1, 0.5), box, true, 0.0, 0, 0);
    var c := CornerCells(s.pos, s.box, -0.3, 0.0);
    TruncNearZero(-0.5);
    TruncNearZero(0.1);
    assert c.upLeft.col == 0 && c.downLeft.col == 0;
    assert c.upRight.col == 0 && c.downRight.col == 0;
    RegistryAirIsZero(ss);
    assert HorizontalOk(s.width, -0.3, Sampled(s, -0.3, 0.0));
    StandardRegistryHasNoDoorsOrKeys(s, ss);
    assert Collected(s) == s by {
      assert Under(s) == Cell(0, 0);
    }
  }

  /**
   * The bottom edge is open too: a descent checks only the top-corner rows
   * against the height.  On a one-cell map of air, a player with the initial
   * eat-box at y = 0.5 falling 0.5 reaches y = 1.0, the bottom of the map,
   * with both bottom corners already off the map and read as air.
   */
  lemma BottomEdgeOverrun(ss: int)
    ensures var box := EatBox(Offset(-0.3, -0.4), Offset(0.3, -0.4), Offset(0.3, 0.5), Offset(-0.3, 0.5));
      var s := Scene(1, 1, Registry(ss), [[' ']], Position(0.5, 0.5), box, false, 0.0, 0, 0);
      WellFormed(s) && Stepped(s, 0.0, 0.5).scene.pos.y == 1.0 && 1.0 >= s.height as real
  {
    var box := EatBox(Offset(-0.3, -0.4), Offset(0.3, -0.4), Offset(0.3, 0.5), Offset(-0.3, 0.5));
    var s := Scene(1, 1, Registry(ss), [[' ']], Position(0.5, 0.5), box, false, 0.0, 0, 0);
    var c := CornerCells(s.pos, s.box, 0.0, 0.5);
    TruncNearZero(0.2);
    TruncNearZero(0.6);
    TruncNearZero(0.8);
    assert Trunc(1.5) == 1;
    assert c.upLeft.row == 0 && c.upRight.row == 0;
    assert c.downLeft.row == 1 && c.downRight.row == 1;
    RegistryAirIsZero(ss);
    assert VerticalInRange(s.height, 0.5, Sampled(s, 0.0, 0.5));
    assert VerticalClear(0.5, Sampled(s, 0.0, 0.5));
    StandardRegistryHasNoDoorsOrKeys(s, ss);
    assert Collected(s) == s by {
      assert Under(s) == Cell(0, 0);
    }
  }

  /**
   * The top edge is open as well: an ascent checks only the bottom-corner
   * rows against 0, and a top corner between -1 and 0 truncates to row 0.
   * On a one-cell map of air, a player with the initial eat-box at y = 0.3
   * jumping 0.5 reaches y = -0.2, above the top of the map.
   */
  lemma TopEdgeOverrun(ss: int)
    ensures var box := EatBox(Offset(-0.3, -0.4), Offset(0.3, -0.4), Offset(0.3, 0.5), Offset(-0.3, 0.5));
      var s := Scene(1, 1, Registry(ss), [[' ']], Position(0.5, 0.3), box, false, 0.0, 0, 0);
      WellFormed(s) && Stepped(s, 0.0, -0.5).scene.pos.y == -0.2 && -0.2 < 0.0
  {
    var box := EatBox(Offset(-0.3, -0.4), Offset(0.3, -0.4), Offset(0.3, 0.5), Offset(-0.3, 0.5));
    var s := Scene(1, 1, Registry(ss), [[' ']], Position(0.5, 0.3), box, false, 0.0, 0, 0);
    var c := CornerCells(s.pos, s.box, 0.0, -0.5);
    TruncNearZero(0.2);
    TruncNearZero(0.8);
    TruncNearZero(-0.6);
    TruncNearZero(0.3);
    assert c.upLeft.row == 0 && c.upRight.row == 0;
    assert c.downLeft.row == 0 && c.downRight.row == 0;
    RegistryAirIsZero(ss);
    assert VerticalInRange(s.height, -0.5, Sampled(s, 0.0, -0.5));
    assert VerticalClear(-0.5, Sampled(s, 0.0, -0.5));
    StandardRegistryHasNoDoorsOrKeys(s, ss);
    assert Collected(s) == s by {
      assert Under(s) == Cell(0, 0);
    }
  }
}
