/**
 * The block registry of game/block.go: what a tile rune means (name,
 * solidity, collectability, animation frames), how frames are scaled from
 * sprite-sheet cells to pixels, and the catalogue `loadResources` registers.
 * A lookup of an unregistered rune yields the zero block, as a Go map does.
 */
module Blocks {

  /** A rectangle of the sprite sheet (game/game.go `ImagePosition`). */
  datatype ImagePosition = ImagePosition(x1: int, x2: int, y1: int, y2: int)

  /** One registered kind of tile. */
  datatype Block = Block(name: string, short: char, solid: bool, collectable: bool, images: seq<ImagePosition>)

  /** The value a Go map read returns for a missing key. */
  const ZeroBlock: Block := Block("", '\0', false, false, [])

  /** `AllBlocks[r]`, with the zero block for a rune nobody registered. */
  function Lookup(blocks: map<char, Block>, r: char): Block
  {
    if r in blocks then blocks[r] else ZeroBlock
  }

  /** An unregistered rune behaves as air: not solid, not collectable, no frames. */
  lemma UnregisteredIsAir(blocks: map<char, Block>, r: char)
    requires r !in blocks
    ensures !Lookup(blocks, r).solid && !Lookup(blocks, r).collectable
    ensures Lookup(blocks, r).images == []
  {
  }

  /** Every block is filed under its own short rune, as `loadRessource` files it. */
  predicate Keyed(blocks: map<char, Block>)
  {
    forall r | r in blocks :: blocks[r].short == r
  }

  /** One sprite-sheet cell scaled to pixels by the square size `ss`. */
  function Scale(ss: int, v: ImagePosition): ImagePosition
  {
    ImagePosition(ss * v.x1, ss * v.x2, ss * v.y1, ss * v.y2)
  }

  /** A frame list scaled element by element. */
  function Scaled(ss: int, images: seq<ImagePosition>): seq<ImagePosition>
  {
    seq(|images|, i requires 0 <= i < |images| => Scale(ss, images[i]))
  }

  /**
   * The loop of `loadRessource`: appends each frame, scaled by `ss`, to an
   * initially empty list.  The result keeps the length and order of the
   * input and multiplies every coordinate by `ss`.
   */
  method ScaleImages(ss: int, images: seq<ImagePosition>) returns (imagePos: seq<ImagePosition>)
    ensures |imagePos| == |images|
    ensures forall i | 0 <= i < |images| ::
      imagePos[i].x1 == ss * images[i].x1 && imagePos[i].x2 == ss * images[i].x2 &&
      imagePos[i].y1 == ss * images[i].y1 && imagePos[i].y2 == ss * images[i].y2
    ensures imagePos == Scaled(ss, images)
  {
    imagePos := [];
    var k := 0;
    while k < |images|
      invariant 0 <= k <= |images|
      invariant imagePos == Scaled(ss, images[..k])
    {
      imagePos := imagePos + [Scale(ss, images[k])];
      k := k + 1;
    }
    assert images[..k] == images;
  }

  /** The block `loadRessource` stores for its arguments. */
  function Entry(ss: int, name: string, short: char, solid: bool, collectable: bool, images: seq<ImagePosition>): Block
  {
    Block(name, short, solid, collectable, Scaled(ss, images))
  }

  /**
   * Registering a block files it under its own rune and touches no other
   * key; registering the same rune again replaces the earlier block.
   */
  function Register(blocks: map<char, Block>, b: Block): (r: map<char, Block>)
    ensures Lookup(r, b.short) == b
    ensures forall k | k != b.short :: Lookup(r, k) == Lookup(blocks, k)
    ensures Keyed(blocks) ==> Keyed(r)
  {
    blocks[b.short := b]
  }

  /** A later registration of the same rune wins. */
  lemma RegisterOverwrites(blocks: map<char, Block>, b1: Block, b2: Block)
    requires b1.short == b2.short
    ensures Register(Register(blocks, b1), b2) == Register(blocks, b2)
  {
  }

  /** The runes `loadResources` registers. */
  const StandardRunes: set<char> := {'s', 'd', 'g', 'b', '0', '1', '2', '3', 'h', 'c', 'p'}

  /**
   * The catalogue of `loadResources` on an empty registry: eleven runes;
   * stone, dirt, grass and brick are the only solid blocks, the coin the only
   * collectable one; herb, coin and player animate over 4, 6 and 8 frames and
   * every other block has one frame.  Air (' ') is not registered.
   */
  function Registry(ss: int): (r: map<char, Block>)
    ensures r.Keys == StandardRunes
    ensures ' ' !in r
    ensures Keyed(r)
    ensures forall k | k in r :: r[k].solid <==> k in {'s', 'd', 'g', 'b'}
    ensures forall k | k in r :: r[k].collectable <==> k == 'c'
    ensures forall k | k in r ::
      |r[k].images| == (if k == 'h' then 4 else if k == 'c' then 6 else if k == 'p' then 8 else 1)
  {
    map k | k in StandardRunes :: StandardBlock(ss, k)
  }

  /**
   * `loadResources` on top of the registry `m`: the standard runes get their
   * standard blocks and every other rune keeps what it had.
   */
  function LoadAll(m: map<char, Block>, ss: int): (r: map<char, Block>)
    ensures r.Keys == m.Keys + StandardRunes
    ensures forall k | k in StandardRunes :: r[k] == StandardBlock(ss, k)
    ensures forall k | k in m && k !in StandardRunes :: r[k] == m[k]
    ensures Keyed(m) ==> Keyed(r)
  {
    m + Registry(ss)
  }

  /** On an empty registry `loadResources` yields exactly the standard catalogue. */
  lemma LoadAllOnEmpty(ss: int)
    ensures LoadAll(map[], ss) == Registry(ss)
  {
    assert LoadAll(map[], ss).Keys == Registry(ss).Keys;
  }

  /**
   * The eleven `loadRessource` calls of `loadResources`, one after the other
   * in source order, give LoadAll: no registration undoes another.
   */
  lemma LoadAllInOrder(m: map<char, Block>, ss: int)
    ensures LoadAll(m, ss) == m
      ['s' := Entry(ss, "stone", 's', true, false, [ImagePosition(0, 1, 0, 1)])]
      ['d' := Entry(ss, "dirt", 'd', true, false, [ImagePosition(1, 2, 0, 1)])]
      ['g' := Entry(ss, "grass", 'g', true, false, [ImagePosition(2, 3, 0, 1)])]
      ['b' := Entry(ss, "brick", 'b', true, false, [ImagePosition(3, 4, 0, 1)])]
      ['0' := Entry(ss, "pillar_up_down", '0', false, false, [ImagePosition(0, 1, 4, 5)])]
      ['1' := Entry(ss, "pillar_down", '1', false, false, [ImagePosition(1, 2, 4, 5)])]
      ['2' := Entry(ss, "pillar_up", '2', false, false, [ImagePosition(2, 3, 4, 5)])]
      ['3' := Entry(ss, "pillar_central", '3', false, false, [ImagePosition(3, 4, 4, 5)])]
      ['h' := Entry(ss, "herb", 'h', false, false, HerbFrames)]
      ['c' := Entry(ss, "coin", 'c', false, true, CoinFrames)]
      ['p' := Entry(ss, "player", 'p', false, false, PlayerFrames)]
  {
    var std := Registry(ss);
    assert std['s'] == Entry(ss, "stone", 's', true, false, [ImagePosition(0, 1, 0, 1)]);
    assert std['d'] == Entry(ss, "dirt", 'd', true, false, [ImagePosition(1, 2, 0, 1)]);
    assert std['g'] == Entry(ss, "grass", 'g', true, false, [ImagePosition(2, 3, 0, 1)]);
    assert std['b'] == Entry(ss, "brick", 'b', true, false, [ImagePosition(3, 4, 0, 1)]);
    assert std['0'] == Entry(ss, "pillar_up_down", '0', false, false, [ImagePosition(0, 1, 4, 5)]);
    assert std['1'] == Entry(ss, "pillar_down", '1', false, false, [ImagePosition(1, 2, 4, 5)]);
    assert std['2'] == Entry(ss, "pillar_up", '2', false, false, [ImagePosition(2, 3, 4, 5)]);
    assert std['3'] == Entry(ss, "pillar_central", '3', false, false, [ImagePosition(3, 4, 4, 5)]);
    assert std['h'] == Entry(ss, "herb", 'h', false, false, HerbFrames);
    assert std['c'] == Entry(ss, "coin", 'c', false, true, CoinFrames);
    assert std['p'] == Entry(ss, "player", 'p', false, false, PlayerFrames);
    MergeInOrder(m, std);
  }

  /** Merging a map keyed by the standard runes is the same as storing its entries one by one. */
  lemma MergeInOrder(m: map<char, Block>, std: map<char, Block>)
    requires std.Keys == StandardRunes
    ensures m + std == m['s' := std['s']]['d' := std['d']]['g' := std['g']]['b' := std['b']]
      ['0' := std['0']]['1' := std['1']]['2' := std['2']]['3' := std['3']]
      ['h' := std['h']]['c' := std['c']]['p' := std['p']]
  {
    var r := m['s' := std['s']]['d' := std['d']]['g' := std['g']]['b' := std['b']]
      ['0' := std['0']]['1' := std['1']]['2' := std['2']]['3' := std['3']]
      ['h' := std['h']]['c' := std['c']]['p' := std['p']];
    assert (m + std).Keys == r.Keys;
    forall k | k in r ensures (m + std)[k] == r[k] {
      if k == 's' {} else if k == 'd' {} else if k == 'g' {} else if k == 'b' {}
      else if k == '0' {} else if k == '1' {} else if k == '2' {} else if k == '3' {}
      else if k == 'h' {} else if k == 'c' {} else if k == 'p' {}
      else { assert k !in std; }
    }
  }

  /** The block `loadResources` registers under rune `k`. */
  function StandardBlock(ss: int, k: char): (b: Block)
    requires k in StandardRunes
    ensures b.short == k
    ensures b.solid <==> k in {'s', 'd', 'g', 'b'}
    ensures b.collectable <==> k == 'c'
    ensures |b.images| == (if k == 'h' then 4 else if k == 'c' then 6 else if k == 'p' then 8 else 1)
  {
    match k
    case 's' => Entry(ss, "stone", 's', true, false, [ImagePosition(0, 1, 0, 1)])
    case 'd' => Entry(ss, "dirt", 'd', true, false, [ImagePosition(1, 2, 0, 1)])
    case 'g' => Entry(ss, "grass", 'g', true, false, [ImagePosition(2, 3, 0, 1)])
    case 'b' => Entry(ss, "brick", 'b', true, false, [ImagePosition(3, 4, 0, 1)])
    case '0' => Entry(ss, "pillar_up_down", '0', false, false, [ImagePosition(0, 1, 4, 5)])
    case '1' => Entry(ss, "pillar_down", '1', false, false, [ImagePosition(1, 2, 4, 5)])
    case '2' => Entry(ss, "pillar_up", '2', false, false, [ImagePosition(2, 3, 4, 5)])
    case '3' => Entry(ss, "pillar_central", '3', false, false, [ImagePosition(3, 4, 4, 5)])
    case 'h' => Entry(ss, "herb", 'h', false, false, HerbFrames)
    case 'c' => Entry(ss, "coin", 'c', false, true, CoinFrames)
    case 'p' => Entry(ss, "player", 'p', false, false, PlayerFrames)
  }

  const HerbFrames: seq<ImagePosition> :=
    [ImagePosition(0, 1, 1, 2), ImagePosition(1, 2, 1, 2), ImagePosition(2, 3, 1, 2), ImagePosition(3, 4, 1, 2)]

  const CoinFrames: seq<ImagePosition> :=
    [ImagePosition(0, 1, 2, 3), ImagePosition(1, 2, 2, 3), ImagePosition(2, 3, 2, 3),
     ImagePosition(3, 4, 2, 3), ImagePosition(4, 5, 2, 3), ImagePosition(5, 6, 2, 3)]

  const PlayerFrames: seq<ImagePosition> :=
    [ImagePosition(0, 1, 3, 4), ImagePosition(1, 2, 3, 4), ImagePosition(2, 3, 3, 4), ImagePosition(3, 4, 3, 4),
     ImagePosition(4, 5, 3, 4), ImagePosition(5, 6, 3, 4), ImagePosition(6, 7, 3, 4), ImagePosition(7, 8, 3, 4)]

  /** In the standard catalogue air is the zero block: never solid, never collectable. */
  lemma RegistryAirIsZero(ss: int)
    ensures Lookup(Registry(ss), ' ') == ZeroBlock
  {
  }

  /** No block of the standard catalogue carries the closed-door or key rune. */
  lemma RegistryHasNoDoorsOrKeys(ss: int, r: char)
    ensures Lookup(Registry(ss), r).short != 'C' && Lookup(Registry(ss), r).short != 'k'
  {
    var reg := Registry(ss);
    if r in reg {
      assert reg[r].short == r && r in StandardRunes;
    }
  }
}
