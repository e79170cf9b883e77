# gopherLand tile engine, modelled in Dafny

This project models the tile-grid engine of the `game` package of gopherLand, a
2D side-scrolling tile platformer written in Go. It covers four parts:

- **Block registry** (`Blocks`, game/block.go): a tile rune maps to a block with a
  name, a solidity flag, a collectability flag and animation frames. Frames are
  scaled by the square size. `loadResources` registers a standard catalogue of
  eleven blocks. Reading an unregistered rune gives Go's zero block, which acts
  as air.
- **Map construction** (`Maps`, game/map.go): the lines of the map text become
  a column-major grid `GameMap[col][row]`. Short lines are padded with air.
- **Player** (`Players`, game/player.go): a class with the player's fields, and
  `Move`, `CollectGold`, `Buy` and `AddInventory` updating them in place.
- **Game** (`Games`, game/game.go): a class owning the registry, the grid and
  the player. It implements `Move`, `Collect`, `Action`, `outOfMap`,
  `GetEatBoxPoints`, `loadRessource`, `loadResources` and `createMap`.
  `InitGame` is its constructor.

`Tiles` holds the geometry the others share:
- positions and eat-box offsets, as exact reals;
- Go's `int(float64)`, which truncates toward zero (`Trunc`);
- the four corner cells of the eat-box;
- the longest-line scan `longestStr`.

`Rules` restates `Collect`, `Action` and `Move` as pure functions on a value
`Scene`. A `Scene` holds everything those operations read or write. The lemmas
about the rules live in `Rules`. Each state-changing method of `Game` is proved
to produce, on the snapshot of its state, exactly what the matching rule
function computes.

Some behaviour a reader may expect of a tile platformer does not hold of this
code, and the model states what the code does:
- **No platform class.** Blocks carry a plain `Solid` flag, and `Move` tests
  only "not solid" (game/game.go:112). There is no platform class that blocks
  only descent.
- **Corners are sampled once.** `Move` reads all four corner cells once, with
  both displacements applied together and before `Collect` and `Action` run
  (game/game.go:70-108). The axes are not resolved one after the other, and
  the interaction passes use the tile under the position before the move.
- **The position can leave the map.** A step to the right checks only the
  left-corner columns against the width (game/game.go:111), and a step to the
  left only the right-corner columns against 0 (game/game.go:120). Off-map
  corners read as air, and a corner between -1 and 0 truncates to column 0.
  A descent checks only the top-corner rows against the height
  (game/game.go:131), so off-map bottom corners read as air as well, and an
  ascent checks only the bottom-corner rows against 0 (game/game.go:142), so
  a top corner between -1 and 0 truncates to row 0. The player can walk past
  either side edge, fall out through the bottom and jump out through the top:
  `Rules.RightEdgeOverrun`, `Rules.LeftEdgeOverrun`,
  `Rules.BottomEdgeOverrun` and `Rules.TopEdgeOverrun` give concrete cases.
- **Doors and keys never appear.** No registered block carries the closed-door
  rune `'C'` or the key rune `'k'` (game/block.go:13-28). With the standard
  catalogue, `Action` never opens a door and `Collect` never adds a key
  (`Rules.StandardRegistryHasNoDoorsOrKeys`). The door and key rules are still
  modelled and proved for any registry.

## Model

| member | source | states |
|---|---|---|
| Tiles.Trunc | game/game.go:70-71 | Go's float-to-int conversion truncates toward zero: the result is the integer part, below or equal to a non-negative input and above or equal to a negative one, within 1 |
| Tiles.TruncNearZero | game/game.go:70-73 | a corner coordinate strictly between -1 and 1 (e.g. -0.3) lands in cell 0, not in cell -1 |
| Tiles.TruncNegativeIff | game/game.go:203-207 | a truncated coordinate fails the `v < 0` test of `outOfMap` exactly when the coordinate is at most -1 |
| Tiles.TruncMonotone | game/game.go:52-62 | truncation keeps the order of coordinates, so corner cells keep the left/right and top/bottom order of the corners |
| Tiles.CornerCells | game/game.go:70-98 | for an axis-aligned rectangular eat-box, the left corners share a column, the right corners share a column, the top corners share a row, the bottom corners share a row, and left ≤ right, top ≤ bottom |
| Tiles.MaxLen | game/game.go:228-235 | the longest-line length bounds every line length, is 0 for no lines, and is the length of some line otherwise |
| Tiles.LongestStr | game/game.go:228-235 | the running maximum of `longestStr` equals MaxLen: it bounds every line and is one of the line lengths (0 for an empty input) |
| Blocks.UnregisteredIsAir | game/game.go:74 | reading a rune nobody registered gives a block that is neither solid nor collectable and has no frames |
| Blocks.ScaleImages | game/block.go:33-42 | the scaled frame list has the input's length and order, and every coordinate is multiplied by the square size |
| Blocks.Register | game/block.go:44-50 | after registering a block, looking up its rune gives that block, every other rune reads as before, and every block stays filed under its own rune |
| Blocks.RegisterOverwrites | game/block.go:44 | registering the same rune twice keeps only the later block |
| Blocks.StandardBlock | game/block.go:13-28 | each standard block is filed under its rune; solid exactly for stone, dirt, grass and brick; collectable exactly for the coin; 4 frames for herb, 6 for coin, 8 for player, 1 otherwise |
| Blocks.Registry | game/block.go:12-28 | the catalogue has exactly the eleven standard runes and no entry for air; every block is filed under its own rune; solid exactly for `s d g b`; collectable only for `c`; frame counts 4/6/8/1 |
| Blocks.LoadAll | game/block.go:12-28 | loading the catalogue over an existing registry adds exactly the standard runes, gives each its standard block, keeps every other rune's block, and keeps every block filed under its own rune |
| Blocks.LoadAllOnEmpty | game/game.go:35-40 | loading the catalogue into the empty registry of `InitGame` yields exactly the standard catalogue |
| Blocks.LoadAllInOrder | game/block.go:13-28 | the eleven `loadRessource` calls, applied in source order, yield LoadAll: no later registration undoes an earlier one |
| Blocks.RegistryAirIsZero | game/game.go:74 | in the standard catalogue, air reads as the zero block |
| Blocks.RegistryHasNoDoorsOrKeys | game/block.go:13-28 | no block of the standard catalogue carries the closed-door rune `'C'` or the key rune `'k'` |
| Maps.BuildGrid | game/map.go:26-40 | the two loop nests build a grid of `width` columns of `height` cells; cell [col][row] holds character `col` of line `row`, or air when the line is shorter |
| Maps.GridKeepsGlyphs | game/map.go:34-40 | every character of the text sits in the grid at its transposed place |
| Maps.GridPadsShortRows | game/map.go:26-40 | cells past the end of a short line are air |
| Maps.GridAddsNoGlyphs | game/map.go:34-40 | every cell is air or a character of its own line: the grid adds nothing to the text |
| Players.InitialEatBox | game/player.go:29-34 | the initial eat-box is an axis-aligned rectangle: top corners at -0.4, bottom corners at 0.5, left corners at -0.3, right corners at 0.3 |
| Players.BuyAsWritten | game/player.go:63-69 | a purchase goes through exactly when the balance covers the cost; a refused one leaves the balance unchanged |
| Players.BuyAsWrittenDiscardsBalance | game/player.go:64-66 | with some gold and an affordable cost, the purchase goes through but the balance left is not old balance minus cost; a positive cost leaves a negative balance |
| Players.BuyAsWrittenExample | game/player.go:64-66 | 10 gold and a cost of 3 leave -3 gold |
| Players.BuyAsIntended | game/player.go:62-69 | as the comment says: an affordable purchase lowers the balance by exactly the cost and never makes it negative; any other purchase is refused and changes nothing |
| Players.BuyAsIntendedKeepsBalance | game/player.go:62-69 | with the corrected rule, a non-negative balance stays non-negative over any run of purchases, and it only grows when some cost was negative |
| Players.Player.constructor | game/player.go:26-49 | `initPlayer`: position (xPlayerFixed + 6.5, 2), the initial eat-box, the speed and jump constants, facing right, in the air with no velocity, no gold, no keys and an empty inventory |
| Players.Player.Move | game/player.go:52-55 | adds x to X and y to Y; nothing else changes |
| Players.Player.CollectGold | game/player.go:58-60 | adds exactly the given number to the gold; nothing else changes |
| Players.Player.Buy | game/player.go:62-69 | succeeds exactly when `gold - cost >= 0` and then lowers the gold by exactly the cost, as the comment describes (see Findings); a refused purchase leaves the gold unchanged; nothing but the gold changes |
| Players.Player.AddInventory | game/player.go:71-76 | the key rune appends exactly one key object; any other rune leaves the inventory unchanged |
| Rules.SetCell | game/game.go:163 | replacing one in-map cell changes that cell only and keeps the scene well formed |
| Rules.Collected | game/game.go:157-172 | `Collect`: with no collectable item under the player nothing changes; otherwise that cell becomes air, a coin adds one gold, a key adds one key, and no other cell or field changes |
| Rules.CollectIdempotent | game/game.go:157-172 | collecting twice in a row equals collecting once, provided air itself is not collectable |
| Rules.OpenDoorAt | game/game.go:180-188 | one side of `Action`: an in-map closed door with a key left becomes `'O'` and costs exactly one key, every other cell unchanged; otherwise nothing changes |
| Rules.Acted | game/game.go:175-200 | `Action` changes only the grid and the keys, never raises the key count, and never makes it negative |
| Rules.ActionSpendsOneKeyPerDoor | game/game.go:175-200 | the key count drops by exactly the number of neighbouring cells that changed; each changed cell went from `'C'` to `'O'`; cells on other rows are untouched |
| Rules.ActionOpensDoors | game/game.go:175-200 | for every scene: the left neighbour opens if it is a closed door and a key is left, then the right neighbour opens if it is a closed door and a key is still left; keys drop by the number of doors opened; every other cell is unchanged |
| Rules.ActionTwoKeysTwoDoors | game/game.go:180-199 | with two keys and closed doors on both sides, both doors open and no key is left |
| Rules.ActionRightDoorOnly | game/game.go:191-199 | with one key and a closed door on the right only, the right door opens and the key is spent |
| Rules.ActionWithoutKeysIsNoop | game/game.go:175-200 | with no keys, `Action` changes nothing |
| Rules.ActionOneKeyTwoDoors | game/game.go:180-199 | with one key and closed doors on both sides, only the left door opens and the key count reaches 0 |
| Rules.StandardRegistryHasNoDoorsOrKeys | game/game.go:164-168 | with the standard catalogue, `Action` changes nothing and `Collect` never changes the key count |
| Rules.Stepped | game/game.go:68-154 | `Move` keeps the scene well formed, never changes the map size, registry or eat-box, and never lowers the gold |
| Rules.Advanced | game/game.go:110-151 | the stepping half of `Move` changes only the position, the ground flag and the vertical velocity, and keeps the scene well formed |
| Rules.HorizontalRule | game/game.go:110-128 | stepping right, X grows by exactly dx iff both left-corner columns are below the width and both right corners are not solid; stepping left mirrors this; otherwise X is unchanged |
| Rules.SolidBlocksStopHorizontal | game/game.go:110-128 | when both leading corners sit on in-map solid blocks, X does not change |
| Rules.MovingFlag | game/game.go:110-151 | whenever no vertical step is taken, `moving` holds exactly when the horizontal step was approved and the player was already on the ground; every approved vertical step sets it |
| Rules.DescentRule | game/game.go:130-140 | descending with both top rows inside the map: free bottom corners let Y grow by dy; otherwise Y stays, the ground flag is set and the velocity becomes 0 |
| Rules.DescentPastBottomIsIgnored | game/game.go:131 | descending with a top row at or past the bottom of the map changes no vertical state |
| Rules.AscentRule | game/game.go:141-145 | an ascent with both bottom rows inside the map and both top corners free moves Y by dy, keeps the ground flag and velocity, and sets `moving` |
| Rules.AscentPastTopIsIgnored | game/game.go:142 | ascending with a bottom row above the top of the map changes no vertical state |
| Rules.CeilingRule | game/game.go:141-150 | a refused ascent with both bottom rows inside the map keeps Y, resets the velocity and leaves the ground flag alone |
| Rules.RightEdgeOverrun | game/game.go:110-118 | the position is not kept inside the map: on a 1×1 map of air, x = 0.9 stepping 0.3 right reaches x = 1.2 |
| Rules.LeftEdgeOverrun | game/game.go:119-127 | nor at the left edge: on a 1×1 map of air, x = 0.1 stepping 0.3 left reaches x = -0.2 |
| Rules.BottomEdgeOverrun | game/game.go:130-134 | nor at the bottom: on a 1×1 map of air, y = 0.5 falling 0.5 reaches y = 1.0 |
| Rules.TopEdgeOverrun | game/game.go:141-145 | nor at the top: on a 1×1 map of air, y = 0.3 jumping 0.5 reaches y = -0.2 |
| Games.Game.constructor | game/game.go:29-43 | `InitGame`: square size 64, the standard catalogue, the grid of the given lines with height = line count and width = longest line, and a fresh player with every field as `initPlayer` sets it (position, eat-box, speed and jump constants, facing right, not walking, in the air with no velocity, no gold, keys or inventory); the game state is well formed |
| Games.Game.OutOfMap | game/game.go:203-221 | true exactly when some column is outside [0, width) or some row is outside [0, height); false for two empty lists |
| Games.Game.GetEatBoxPoints | game/game.go:50-65 | the corner cells under the player; for a rectangular eat-box they are pairwise aligned |
| Games.Game.SampleCorner | game/game.go:73-77 | the corner lookup is total: an off-map corner reads the air entry, and an in-map corner reads its cell's entry |
| Games.Game.SampleCorners | game/game.go:70-104 | the four corners of the displaced eat-box and their blocks, as the rule samples them, with nothing changed |
| Games.Game.Move | game/game.go:68-154 | the new state and `moving` are exactly those of `Rules.Stepped` applied to the old state; the state stays well formed |
| Games.Game.Advance | game/game.go:110-151 | the steps after the interaction passes carry out `Rules.Advanced` on the sample taken before them |
| Games.Game.StepHorizontally | game/game.go:110-128 | an approved horizontal step moves X by x and nothing else; `moving` is set only on the ground |
| Games.Game.StepVertically | game/game.go:130-151 | an approved vertical step moves Y by y; a refused descent in range sets the ground flag and zeroes the velocity; a refused ascent in range zeroes the velocity only |
| Games.Game.Collect | game/game.go:157-172 | the new state is exactly `Rules.Collected` of the old one |
| Games.Game.Action | game/game.go:175-200 | the new state is exactly `Rules.Acted` of the old one |
| Games.Game.OpenDoor | game/game.go:180-188 | one side of `Action` carries out `Rules.OpenDoorAt` |
| Games.Game.LoadRessource | game/block.go:32-51 | the registry becomes `Blocks.Register` of the old one with the given block, its frames scaled: the new rune reads as that block and every other rune keeps its block |
| Games.Game.LoadResources | game/block.go:12-29 | the registry becomes LoadAll of the old one |
| Games.Game.CreateMap | game/map.go:19-40 | height is the line count, width is the longest line's length, and the grid is the lines transposed and padded with air; the state stays well formed |

## Left out

- Integer width: Go's `int` is 64 bits and wraps on overflow; the model's `int` is unbounded. Gold, Keys, the `p.Gold-cost` test in `Buy` (game/player.go:64), `CollectGold` (game/player.go:59), `Keys++` (game/game.go:168) and the `Ss *` frame scaling (game/block.go:37-40) have no wrap-around. For example, Go refuses `Buy(-1)` at Gold = MaxInt64 because `Gold - cost` wraps to MinInt64, while `Players.BuyAsWritten` accepts it; and a wrapped key count would be negative, which `Rules.WellFormed` rules out. No value the core produces comes near these limits.
- The solidity test: game/game.go:112, 121, 132 and 143 compare a `Solidity` field of the block with a `NotSolid` constant, but game/block.go defines neither (its `Block` has only `Solid bool`, game/block.go:6). The model reads each such test as "the block's `solid` flag is false".
- Reading the map file and `log.Fatal` on a read error (game/map.go:14-16) are left out. `createMap` and `InitGame` take the already-split lines as a parameter.
- Strings are sequences of characters. Go's `len` and `range` over a string count bytes, while runes may span several bytes. The model assumes every map character is one byte.
- `float64` rounding is left out. Positions and offsets are exact reals, and only truncation toward zero is modelled.
- Gravity, the short and long jump, and the `Jump` counter are left out. Their fields exist, but no code in these files uses them. `Player.speed`, `velocityShortJump` and `velocityDiffLongJump` are set by the constructor and are never read.
- The `Object` type is not part of this model's sources. It is modelled as a (name, description) pair.
- Players.Player.Buy follows the corrected balance update of the Findings table (old gold minus cost), not the `-cost` of game/player.go:65; the code as written is Players.BuyAsWritten.
- Games.Game.GetEatBoxPoints returns the eight coordinates grouped as four corner cells, not as eight separate integers.
- Games.Game.LoadRessource and Games.Game.LoadResources do not require the game invariant. They are proved on the registry alone, and the constructor re-establishes the invariant from `Blocks.LoadAll`.
- Games.Game.SampleCorner, SampleCorners, Advance, StepHorizontally, StepVertically and OpenDoor are parts of `Move` and `Action` split into their own methods. Each is a contiguous stretch of the source method.
- Aliasing is left out. Go's `Game` is passed by value in `GetEatBoxPoints` and by reference elsewhere; in the model the game is a single object that owns its player.
- Rendering, input polling, the animation tick and text drawing (graphic/window.go, graphic/textManagement.go) are not part of this model.

## Findings

| source | as written | input that shows it | evidently intended | confidence | as-written member | corrected member |
|---|---|---|---|---|---|---|
| game/player.go:64-66 | an affordable purchase sets the gold to `-cost` | gold 10, cost 3: the purchase succeeds and leaves -3 gold | the comment at game/player.go:62 says the gold decreases by the cost, leaving 7 | high (not executed) | Players.BuyAsWritten, Players.BuyAsWrittenDiscardsBalance | Players.BuyAsIntended, Players.BuyAsIntendedKeepsBalance |
