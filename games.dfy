/**
 * The `Game` object of game/game.go, game/block.go and game/map.go: it owns
 * the block registry, the map grid and the player, and updates them in
 * place.  Each state-changing method is proved to carry out the matching
 * rule of module Rules on the snapshot of its state.
 */
module Games {
  import opened Tiles
  import opened Blocks
  import opened Maps
  import opened Players
  import opened Rules

  class Game {
    var ss: int                       // square size of blocks, in pixels
    var width: int                    // number of columns
    var height: int                   // number of rows
    var allBlocks: map<char, Block>   // the block registry
    var gameMap: seq<seq<char>>       // the grid, gameMap[col][row]
    var player: Player
    var jump: int                     // long-press indicator, unused by this core

    /** Everything `Move`, `Collect` and `Action` read or write, as one value. */
    function Snapshot(): Scene
      reads this, player
    {
      Scene(width, height, allBlocks, gameMap, player.position, player.eatBox,
            player.touchingGround, player.verticalVelocity, player.gold, player.keys)
    }

    /** The object invariant: the snapshot is well formed. */
    predicate Valid()
      reads this, player
    {
      WellFormed(Snapshot())
    }

    /**
     * `InitGame`, with the map text already read and split into lines: a
     * square size of 64, the standard block catalogue, the grid built from the
     * lines, and a freshly initialised player.
     */
    constructor (xPlayerFixed: int, lines: seq<string>)
      ensures Valid() && fresh(player)
      ensures ss == 64 && jump == 0 && allBlocks == Registry(ss)
      ensures height == |lines| && width == MaxLen(lines) && IsGridOf(gameMap, lines, width)
      ensures player.position == Position(xPlayerFixed as real + 6.5, 2.0) && player.eatBox == InitialEatBox()
      ensures player.speed == 0.09 && player.velocityShortJump == -17.0 && player.velocityDiffLongJump == -5.9
      ensures player.direction == 'r' && !player.touchingGround && player.verticalVelocity == 0.0 && !player.walking
      ensures player.gold == 0 && player.keys == 0 && player.inventory == []
    {
      ss := 64;
      width := 0;
      height := 0;
      allBlocks := map[];
      gameMap := [];
      player := new Player(xPlayerFixed);
      jump := 0;
      new;
      LoadResources();
      LoadAllOnEmpty(ss);
      CreateMap(lines);
    }

    /**
     * `outOfMap`: true exactly when some column is outside [0, width) or
     * some row outside [0, height); false for two empty lists.
     */
    method OutOfMap(x: seq<int>, y: seq<int>) returns (out: bool)
      ensures out <==>
        (exists i | 0 <= i < |x| :: x[i] < 0 || x[i] >= width) ||
        (exists j | 0 <= j < |y| :: y[j] < 0 || y[j] >= height)
    {
      var i := 0;
      while i < |x|
        invariant 0 <= i <= |x|
        invariant forall k | 0 <= k < i :: 0 <= x[k] < width
      {
        if x[i] < 0 {
          return true;
        }
        if x[i] >= width {
          return true;
        }
        i := i + 1;
      }
      var j := 0;
      while j < |y|
        invariant 0 <= j <= |y|
        invariant forall k | 0 <= k < j :: 0 <= y[k] < height
      {
        if y[j] < 0 {
          return true;
        }
        if y[j] >= height {
          return true;
        }
        j := j + 1;
      }
      return false;
    }

    /** The four corner cells of the player's eat-box where the player stands. */
    function GetEatBoxPoints(): (c: Corners)
      reads this, player
      ensures IsRectangle(player.eatBox) ==>
        c.upLeft.col == c.downLeft.col && c.upRight.col == c.downRight.col &&
        c.upLeft.row == c.upRight.row && c.downLeft.row == c.downRight.row
    {
      CornerCells(player.position, player.eatBox, 0.0, 0.0)
    }

    /** The block under one corner: air when the corner is off the map. */
    method SampleCorner(c: Cell) returns (b: Block)
      requires Valid()
      ensures b == BlockAt(Snapshot(), c)
    {
      var out := OutOfMap([c.col], [c.row]);
      assert [c.col][0] == c.col && [c.row][0] == c.row;
      if out {
        b := Lookup(allBlocks, ' ');
      } else {
        b := Lookup(allBlocks, gameMap[c.col][c.row]);
      }
    }

    /**
     * `Move`: samples the four displaced corners, runs `Collect` and
     * `Action`, then takes the approved horizontal and vertical steps and
     * fires the ground or ceiling event on a refused vertical step.
     */
    method Move(x: real, y: real) returns (moving: bool)
      requires Valid()
      modifies this`gameMap, player`position, player`touchingGround, player`verticalVelocity,
        player`gold, player`keys
      ensures Valid()
      ensures Snapshot() == Stepped(old(Snapshot()), x, y).scene
      ensures moving == Stepped(old(Snapshot()), x, y).moving
    {
      var k := SampleCorners(x, y);
      Collect(); // Collect items if the player is on a collectable item
      Action();  // Do actions, like opening a door with a key
      moving := Advance(x, y, k);
    }

    /** The steps of `Move` after the interaction passes, on the sample taken before them. */
    method Advance(x: real, y: real, k: Sample) returns (moving: bool)
      requires Valid()
      modifies player`position, player`touchingGround, player`verticalVelocity
      ensures Valid()
      ensures Snapshot() == Advanced(old(Snapshot()), k, x, y).scene
      ensures moving == Advanced(old(Snapshot()), k, x, y).moving
    {
      var movedX := StepHorizontally(x, k);
      var movedY := StepVertically(y, k);
      moving := movedX || movedY;
    }

    /** The four corners of the eat-box displaced by (x, y), and the block under each. */
    method SampleCorners(x: real, y: real) returns (k: Sample)
      requires Valid()
      ensures k == Sampled(Snapshot(), x, y)
    {
      var c := CornerCells(player.position, player.eatBox, x, y);
      var bUpLeft := SampleCorner(c.upLeft);
      var bUpRight := SampleCorner(c.upRight);
      var bDownRight := SampleCorner(c.downRight);
      var bDownLeft := SampleCorner(c.downLeft);
      k := Sample(c, bUpLeft, bUpRight, bDownRight, bDownLeft);
    }

    /** The horizontal half of `Move`, on the corners sampled before the interaction passes. */
    method StepHorizontally(x: real, k: Sample) returns (moving: bool)
      modifies player`position
      ensures player.position == if HorizontalOk(width, x, k)
        then Position(old(player.position.x) + x, old(player.position.y)) else old(player.position)
      ensures moving <==> HorizontalOk(width, x, k) && player.touchingGround
    {
      moving := false;
      if x > 0.0 {
        if k.cells.upLeft.col < width && k.cells.downLeft.col < width {
          if !k.upRight.solid && !k.downRight.solid {
            player.Move(x, 0.0);
            if player.touchingGround {
              moving := true;
            }
          }
        }
      } else if x < 0.0 {
        if k.cells.upRight.col >= 0 && k.cells.downRight.col >= 0 {
          if !k.upLeft.solid && !k.downLeft.solid {
            player.Move(x, 0.0);
            if player.touchingGround {
              moving := true;
            }
          }
        }
      }
    }

    /**
     * The vertical half of `Move`: an approved step moves Y; a refused
     * descent sets the ground flag and resets the velocity; a refused ascent
     * resets the velocity only.
     */
    method StepVertically(y: real, k: Sample) returns (moving: bool)
      modifies player`position, player`touchingGround, player`verticalVelocity
      ensures var v := VerticalInRange(height, y, k); var free := VerticalClear(y, k);
        player.position == (if v && free then Position(old(player.position.x), old(player.position.y) + y)
                            else old(player.position)) &&
        player.touchingGround == (old(player.touchingGround) || (v && !free && y > 0.0)) &&
        player.verticalVelocity == (if v && !free then 0.0 else old(player.verticalVelocity)) &&
        moving == (v && free)
    {
      moving := false;
      if y > 0.0 {
        if k.cells.upLeft.row < height && k.cells.upRight.row < height {
          if !k.downLeft.solid && !k.downRight.solid {
            player.Move(0.0, y);
            moving := true;
          } else {
            // The player hits the ground.
            player.touchingGround := true;
            player.verticalVelocity := 0.0;
          }
        }
      } else if y < 0.0 {
        if k.cells.downRight.row >= 0 && k.cells.downLeft.row >= 0 {
          if !k.upLeft.solid && !k.upRight.solid {
            player.Move(0.0, y);
            moving := true;
          } else {
            // The player hits a ceiling.
            player.verticalVelocity := 0.0;
          }
        }
      }
    }

    /** `Collect`: picks up the collectable item under the player, if any. */
    method Collect()
      requires Valid()
      modifies this`gameMap, player`gold, player`keys
      ensures Valid()
      ensures Snapshot() == Collected(old(Snapshot()))
    {
      var x := Trunc(player.position.x);
      var y := Trunc(player.position.y);
      var out := OutOfMap([x], [y]);
      assert [x][0] == x && [y][0] == y;
      if !out {
        var b := Lookup(allBlocks, gameMap[x][y]);
        if b.collectable {
          gameMap := gameMap[x := gameMap[x][y := ' ']];
          if b.short == 'c' {
            player.CollectGold(1);
          } else if b.short == 'k' {
            player.keys := player.keys + 1;
          }
        }
      }
    }

    /** `Action`: opens a closed door directly left, then directly right, of the player while keys last. */
    method Action()
      requires Valid()
      modifies this`gameMap, player`keys
      ensures Valid()
      ensures Snapshot() == Acted(old(Snapshot()))
    {
      var x := Trunc(player.position.x);
      var y := Trunc(player.position.y);
      OpenDoor(x - 1, y); // Block directly at the left of the player
      OpenDoor(x + 1, y); // Block directly at the right of the player
    }

    /** One side of `Action`: a closed door at an in-map cell opens when a key is left, spending it. */
    method OpenDoor(col: int, row: int)
      requires Valid()
      modifies this`gameMap, player`keys
      ensures Valid()
      ensures Snapshot() == OpenDoorAt(old(Snapshot()), col, row)
    {
      var out := OutOfMap([col], [row]);
      assert [col][0] == col && [row][0] == row;
      if !out {
        var b := Lookup(allBlocks, gameMap[col][row]);
        if b.short == 'C' && player.keys > 0 {
          gameMap := gameMap[col := gameMap[col][row := 'O']];
          player.keys := player.keys - 1;
        }
      }
    }

    /**
     * `loadRessource`: files a block under `short`, its frames scaled by the
     * square size; every other rune keeps its block.
     */
    method LoadRessource(name: string, short: char, solid: bool, collectable: bool, images: seq<ImagePosition>)
      modifies this`allBlocks
      ensures allBlocks == Register(old(allBlocks), Entry(ss, name, short, solid, collectable, images))
    {
      var imagePos := ScaleImages(ss, images);
      allBlocks := allBlocks[short := Block(name, short, solid, collectable, imagePos)];
    }

    /** `loadResources`: registers the eleven blocks of the standard catalogue over the current registry. */
    method LoadResources()
      modifies this`allBlocks
      ensures allBlocks == LoadAll(old(allBlocks), ss)
    {
      LoadRessource("stone", 's', true, false, [ImagePosition(0, 1, 0, 1)]);
      LoadRessource("dirt", 'd', true, false, [ImagePosition(1, 2, 0, 1)]);
      LoadRessource("grass", 'g', true, false, [ImagePosition(2, 3, 0, 1)]);
      LoadRessource("brick", 'b', true, false, [ImagePosition(3, 4, 0, 1)]);

      LoadRessource("pillar_up_down", '0', false, false, [ImagePosition(0, 1, 4, 5)]);
      LoadRessource("pillar_down", '1', false, false, [ImagePosition(1, 2, 4, 5)]);
      LoadRessource("pillar_up", '2', false, false, [ImagePosition(2, 3, 4, 5)]);
      LoadRessource("pillar_central", '3', false, false, [ImagePosition(3, 4, 4, 5)]);

      LoadRessource("herb", 'h', false, false, HerbFrames);
      LoadRessource("coin", 'c', false, true, CoinFrames);
      LoadRessource("player", 'p', false, false, PlayerFrames);
      LoadAllInOrder(old(allBlocks), ss);
    }

    /**
     * `createMap`, from the lines of the map text: the height is the number
     * of lines, the width the length of the longest one, and the grid is the
     * lines transposed and right-padded with air.
     */
    method CreateMap(lines: seq<string>)
      requires Valid() && gameMap == []
      modifies this`width, this`height, this`gameMap
      ensures Valid()
      ensures height == |lines| && width == MaxLen(lines)
      ensures IsGridOf(gameMap, lines, width)
    {
      height := |lines|;
      width := LongestStr(lines);
      gameMap := BuildGrid(lines, width, height);
    }
  }
}
