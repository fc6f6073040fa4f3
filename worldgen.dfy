/** Deterministic terrain generation and the voxel query `getBlock`:
    a sparse overlay of edited blocks first, then the world floor, village
    plots, layered terrain, forest vegetation and trees. Simplex noise is a
    parameter; the `Math.sin` hashes are computed from the abstract `Sin`. */
module WorldGen {
  import opened Common
  import opened Config
  import opened Blocks

  /** `noise.noise(x, z)` of one world seed. */
  type Noise = (real, real) -> real

  /** The overlay of edited blocks, `modifiedBlocks`, keyed by block coordinate. */
  class Overlay {
    var blocks: map<Coord, int>

    constructor(initial: map<Coord, int>)
      ensures blocks == initial
    {
      blocks := initial;
    }
  }

  // ---------------------------------------------------------------- height

  /** `getBlockHeight`: surface height of column (x, z). */
  function BlockHeight(noise: Noise, x: int, z: int): (h: int)
    ensures -1.0 <= noise(x as real * NOISE_SCALE, z as real * NOISE_SCALE) <= 1.0 ==> 0 <= h <= 8
  {
    Round((noise(x as real * NOISE_SCALE, z as real * NOISE_SCALE) + 1.0) * 4.0)
  }

  /** `getTreeRandom`: a per-column pseudo-random value in [0, 1). */
  function TreeRandom(x: int, z: int): (r: real)
    ensures 0.0 <= r < 1.0
  {
    Frac(Sin(x as real * 12.9898 + z as real * 78.233) * 43758.5453)
  }

  datatype Biome = Forest | Desert | SnowBiome

  /** `getBiome`: thresholds on a second, coarser noise sample. */
  function BiomeAt(noise: Noise, x: int, z: int): (b: Biome)
    ensures var v := noise((x + 10000) as real * 0.01, (z + 10000) as real * 0.01);
      && (b == SnowBiome <==> v < -0.3)
      && (b == Desert <==> v > 0.3)
      && (b == Forest <==> -0.3 <= v <= 0.3)
  {
    var v := noise((x + 10000) as real * 0.01, (z + 10000) as real * 0.01);
    if v < -0.3 then SnowBiome
    else if v > 0.3 then Desert
    else Forest
  }

  // --------------------------------------------------------------- villages

  const PLOT_SIZE := 32

  /** Whether plot (plotX, plotZ) holds a village: `plotHash % 1 > 0.4`. */
  predicate HasVillage(plotX: int, plotZ: int)
  {
    Frac(AbsR(Sin(plotX as real * 12.989 + plotZ as real * 78.233) * 43758.5453)) > 0.4
  }

  /** The building type 0..9 of the quadrant whose building centre is (bcx, bcz). */
  function BuildType(bcx: int, bcz: int): (t: int)
    ensures 0 <= t <= 9
  {
    var hash := AbsR(Sin(bcx as real * 34.12 + bcz as real * 98.65) * 12345.67);
    Floor(Frac(hash) * 10.0)
  }

  /** The road through a plot centre: gravel at road height, three cells of air above. */
  function RoadBlock(noise: Noise, x: int, y: int, z: int): Option<int>
  {
    var roadY := BlockHeight(noise, x, z);
    if y == roadY then Some(GRAVEL)
    else if y > roadY && y <= roadY + 3 then Some(AIR)
    else None
  }

  /** Building type 8: a wooden post topped with glass. */
  function WatchtowerBlock(y: int, bdx: int, bdz: int, bGround: int): Option<int>
  {
    if Abs(bdx) == 0 && Abs(bdz) == 0 then
      if y > bGround && y <= bGround + 3 then Some(WOOD)
      else if y == bGround + 4 then Some(GLASS)
      else None
    else None
  }

  /** Building types 5 and 6: a 7x7 field with a water centre and a wooden rim. */
  function FarmBlock(y: int, bdx: int, bdz: int, bGround: int): Option<int>
  {
    var size := 3;
    if Abs(bdx) <= size && Abs(bdz) <= size then
      if y < bGround then Some(DIRT)
      else if y == bGround then
        if bdx == 0 && bdz == 0 then Some(WATER)
        else if Abs(bdx) == size || Abs(bdz) == size then Some(WOOD)
        else Some(FARMLAND)
      else if y == bGround + 1 then
        if bdx == 0 && bdz == 0 then Some(AIR)
        else if Abs(bdx) == size || Abs(bdz) == size then Some(AIR)
        else Some(WHEAT)
      else None
    else None
  }

  /** The gabled roof of a house, `roofY` cells above the top of its walls. */
  function RoofBlock(roofY: int, bdx: int, bdz: int, size: int): Option<int>
  {
    var ridgeHeight := size / 2 + 1;
    if roofY >= 1 && roofY <= ridgeHeight then
      var width := size - (roofY - 1);
      if Abs(bdz) == size && Abs(bdx) <= width && Abs(bdx) != width then Some(PLANK)
      else if Abs(bdz) <= size && Abs(bdx) == width then
        Some(if bdx > 0 then STAIR_WEST else STAIR_EAST)
      else if Abs(bdz) <= size && roofY == ridgeHeight && Abs(bdx) < width then Some(PLANK)
      else None
    else None
  }

  /** Every other building type: a house; type 7 is the large one. */
  function HouseBlock(noise: Noise, x: int, y: int, z: int, bdx: int, bdz: int, bGround: int, large: bool): Option<int>
  {
    var size := if large then 4 else 3;
    var height := if large then 4 else 3;
    if Abs(bdx) <= size && Abs(bdz) <= size then
      var localGround := BlockHeight(noise, x, z);
      if y <= bGround && y >= localGround then Some(COBBLESTONE)
      else if y == bGround + 1 then Some(PLANK)
      else if y > bGround + 1 && y <= bGround + 1 + height && (Abs(bdx) == size || Abs(bdz) == size) then
        if bdz == -size && bdx == 0 && y <= bGround + 3 then
          if y == bGround + 2 then Some(DOOR_BOTTOM)
          else if y == bGround + 3 then Some(DOOR_TOP)
          else Some(AIR)
        else if y == bGround + 3 && Abs(bdx) == size && bdz == 0 then Some(GLASS)
        else if Abs(bdx) == size && Abs(bdz) == size then Some(WOOD)
        else Some(PLANK)
      else if y > bGround + 1 && y <= bGround + 1 + height && Abs(bdx) < size && Abs(bdz) < size then Some(AIR)
      else RoofBlock(y - (bGround + 1 + height), bdx, bdz, size)
    else None
  }

  /** `getVillageBlock`: the block a village claims at (x, y, z), or `None` for -1. */
  function VillageBlock(noise: Noise, x: int, y: int, z: int): (r: Option<int>)
    ensures r.Some? ==> HasVillage(FloorDiv(x, PLOT_SIZE), FloorDiv(z, PLOT_SIZE))
  {
    var plotX := FloorDiv(x, PLOT_SIZE);
    var plotZ := FloorDiv(z, PLOT_SIZE);
    if !HasVillage(plotX, plotZ) then None
    else
      var centerX := plotX * PLOT_SIZE + 16;
      var centerZ := plotZ * PLOT_SIZE + 16;
      if BiomeAt(noise, centerX, centerZ) == Desert || BlockHeight(noise, centerX, centerZ) < WATER_LEVEL then None
      else
        var dx := x - centerX;
        var dz := z - centerZ;
        if Abs(dx) <= 1 || Abs(dz) <= 1 then RoadBlock(noise, x, y, z)
        else
          var bCenterX := centerX + (if dx > 0 then 1 else -1) * 8;
          var bCenterZ := centerZ + (if dz > 0 then 1 else -1) * 8;
          var buildType := BuildType(bCenterX, bCenterZ);
          var bdx := x - bCenterX;
          var bdz := z - bCenterZ;
          var bGround := BlockHeight(noise, bCenterX, bCenterZ);
          if buildType == 9 then None
          else if buildType == 8 then WatchtowerBlock(y, bdx, bdz, bGround)
          else if buildType == 5 || buildType == 6 then FarmBlock(y, bdx, bdz, bGround)
          else HouseBlock(noise, x, y, z, bdx, bdz, bGround, buildType == 7)
  }

  // ----------------------------------------------------- natural terrain

  /** The layered column below and at the surface height h. */
  function Layer(y: int, h: int, biome: Biome): int
  {
    if y == h then
      if y < WATER_LEVEL then SAND
      else if biome == Desert then SAND
      else if biome == SnowBiome then SNOW
      else GRASS
    else if y > h - 3 then
      if y < WATER_LEVEL || biome == Desert then SAND else DIRT
    else STONE
  }

  /** Forest ground cover one above the surface: tall grass or a flower. */
  function Vegetation(noise: Noise, x: int, y: int, z: int): (r: Option<int>)
    ensures r.Some? ==>
      var h := BlockHeight(noise, x, z);
      y == h + 1 && h >= WATER_LEVEL && BiomeAt(noise, x, z) == Forest
    ensures var v := Frac(AbsR(Sin(x as real * 43.12 + z as real * 21.32) * 521.21));
      r.Some? ==>
        && (r.value == TALL_GRASS <== v > 0.85)
        && (r.value == RED_FLOWER <== 0.83 < v <= 0.85)
        && (r.value == YELLOW_FLOWER <== 0.81 < v <= 0.83)
        && (v <= 0.81 ==> false)
    ensures var h := BlockHeight(noise, x, z);
      var v := Frac(AbsR(Sin(x as real * 43.12 + z as real * 21.32) * 521.21));
      y == h + 1 && h >= WATER_LEVEL && BiomeAt(noise, x, z) == Forest && v > 0.81 ==> r.Some?
  {
    var h := BlockHeight(noise, x, z);
    if y == h + 1 && h >= WATER_LEVEL && BiomeAt(noise, x, z) == Forest then
      var v := Frac(AbsR(Sin(x as real * 43.12 + z as real * 21.32) * 521.21));
      if v > 0.85 then Some(TALL_GRASS)
      else if v > 0.83 && v <= 0.85 then Some(RED_FLOWER)
      else if v > 0.81 && v <= 0.83 then Some(YELLOW_FLOWER)
      else None
    else None
  }

  /** The tree offset tried at step i of the 5x5 scan: lx outer, lz inner, both -2..2. */
  function Offset(i: int): (int, int)
  {
    (i / 5 - 2, i % 5 - 2)
  }

  /** Whether (cx, cz) roots a tree: no village claim at the queried column's
      ground height, tree random above 0.97, and ground at or above water level. */
  predicate IsTreeRoot(noise: Noise, cx: int, cz: int, groundHeight: int)
  {
    && VillageBlock(noise, cx, groundHeight, cz).None?
    && TreeRandom(cx, cz) > 0.97
    && BlockHeight(noise, cx, cz) >= WATER_LEVEL
  }

  /** The block a tree of `biome` rooted at ground height `base` puts at
      height y, at offset (lx, lz) from its root, if any. */
  function TreeShape(biome: Biome, base: int, y: int, lx: int, lz: int): Option<int>
  {
    match biome
    case Desert =>
      if lx == 0 && lz == 0 && y > base && y <= base + 3 then Some(CACTUS) else None
    case SnowBiome =>
      if lx == 0 && lz == 0 && y > base && y <= base + 5 then Some(WOOD)
      else if y >= base + 2 && y <= base + 6 then
        var layer := y - base;
        var radius := if layer == 6 then 0 else if layer <= 3 then 2 else 1;
        if Abs(lx) <= radius && Abs(lz) <= radius then
          if lx == 0 && lz == 0 && y <= base + 5 then None else Some(PINE_LEAF)
        else None
      else None
    case Forest =>
      if lx == 0 && lz == 0 && y > base && y <= base + 4 then Some(WOOD)
      else if y >= base + 3 && y <= base + 6 then
        if y == base + 6 then
          if lx == 0 && lz == 0 then Some(LEAF) else None
        else if Abs(lx) <= 1 && Abs(lz) <= 1 && !(y == base + 5 && Abs(lx) == 1 && Abs(lz) == 1) then
          Some(LEAF)
        else None
      else None
  }

  /** What a tree rooted at (x+lx, z+lz) puts at (x, y, z), if anything. */
  function TreeAt(noise: Noise, x: int, y: int, z: int, groundHeight: int, lx: int, lz: int): Option<int>
  {
    var cx := x + lx;
    var cz := z + lz;
    if IsTreeRoot(noise, cx, cz, groundHeight) then
      TreeShape(BiomeAt(noise, cx, cz), BlockHeight(noise, cx, cz), y, lx, lz)
    else None
  }

  /** The 5x5 root scan from step i on: the first tree that claims the cell. */
  function TreeScan(noise: Noise, x: int, y: int, z: int, groundHeight: int, i: nat): (r: Option<int>)
    requires i <= 25
    ensures r.Some? ==> exists k :: (i <= k < 25 && TreeAt(noise, x, y, z, groundHeight, Offset(k).0, Offset(k).1) == r
      && (forall j :: i <= j < k ==> TreeAt(noise, x, y, z, groundHeight, Offset(j).0, Offset(j).1).None?))
    ensures r.None? <==> forall k :: i <= k < 25 ==> TreeAt(noise, x, y, z, groundHeight, Offset(k).0, Offset(k).1).None?
    decreases 25 - i
  {
    if i == 25 then None
    else
      var here := TreeAt(noise, x, y, z, groundHeight, Offset(i).0, Offset(i).1);
      if here.Some? then here else TreeScan(noise, x, y, z, groundHeight, i + 1)
  }

  /** Natural terrain at an integer cell with no overlay entry and no village claim. */
  function Natural(noise: Noise, x: int, y: int, z: int): int
  {
    var groundHeight := BlockHeight(noise, x, z);
    if y > groundHeight && y <= WATER_LEVEL then WATER
    else if y <= groundHeight then Layer(y, groundHeight, BiomeAt(noise, x, z))
    else match Vegetation(noise, x, y, z)
      case Some(b) => b
      case None =>
        match TreeScan(noise, x, y, z, groundHeight, 0)
        case Some(b) => b
        case None => AIR
  }

  /** Generated terrain at an integer cell: floor, then village, then nature. */
  function Generated(noise: Noise, x: int, y: int, z: int): int
  {
    if y < WORLD_HEIGHT_MIN then STONE
    else match VillageBlock(noise, x, y, z)
      case Some(b) => b
      case None => Natural(noise, x, y, z)
  }

  /** An overlay value as read back: a stored 0 reads as AIR (`get(key) || AIR`). */
  function Stored(v: int): int
  {
    if v == 0 then AIR else v
  }

  /** The generated world as a function of the cell: what `getBlock` falls
      back to when the overlay has no entry. */
  type Terrain = Coord -> int

  function TerrainOf(noise: Noise): Terrain
  {
    (c: Coord) => Generated(noise, c.0, c.1, c.2)
  }

  /** `getBlock` at an integer cell of an overlay over any terrain. */
  function Read(overlay: map<Coord, int>, terrain: Terrain, x: int, y: int, z: int): int
  {
    if (x, y, z) in overlay then Stored(overlay[(x, y, z)]) else terrain((x, y, z))
  }

  /** `getBlock` at an integer cell. */
  function BlockAt(noise: Noise, overlay: map<Coord, int>, x: int, y: int, z: int): int
  {
    Read(overlay, TerrainOf(noise), x, y, z)
  }

  /** `getBlock` at any point: the block of the cell the point rounds into. */
  function GetBlock(noise: Noise, overlay: map<Coord, int>, x: real, y: real, z: real): int
  {
    BlockAt(noise, overlay, Round(x), Round(y), Round(z))
  }

  // ---------------------------------------------------------- properties

  /** An overlay entry wins over everything generated, even below the world floor. */
  lemma OverlayWins(noise: Noise, overlay: map<Coord, int>, x: real, y: real, z: real)
    requires (Round(x), Round(y), Round(z)) in overlay
    ensures var v := overlay[(Round(x), Round(y), Round(z))];
      GetBlock(noise, overlay, x, y, z) == (if v == 0 then AIR else v)
  {
  }

  /** The query depends only on the rounded coordinates. */
  lemma OnlyRoundedCoordinatesMatter(noise: Noise, overlay: map<Coord, int>, x: real, y: real, z: real)
    ensures GetBlock(noise, overlay, x, y, z)
         == GetBlock(noise, overlay, Round(x) as real, Round(y) as real, Round(z) as real)
  {
    RoundOfInt(Round(x));
    RoundOfInt(Round(y));
    RoundOfInt(Round(z));
  }

  /** Without an overlay entry, everything below the world floor is stone. */
  lemma BelowFloorIsStone(noise: Noise, overlay: map<Coord, int>, x: int, y: int, z: int)
    requires (x, y, z) !in overlay && y < WORLD_HEIGHT_MIN
    ensures BlockAt(noise, overlay, x, y, z) == STONE
  {
  }

  /** A village claim overrides natural terrain. */
  lemma VillageOverridesTerrain(noise: Noise, overlay: map<Coord, int>, x: int, y: int, z: int)
    requires (x, y, z) !in overlay && y >= WORLD_HEIGHT_MIN
    requires VillageBlock(noise, x, y, z).Some?
    ensures BlockAt(noise, overlay, x, y, z) == VillageBlock(noise, x, y, z).value
  {
  }

  /** The column layering of unedited, unclaimed terrain; nothing at or below
      the surface is air. */
  lemma ColumnLayering(noise: Noise, overlay: map<Coord, int>, x: int, y: int, z: int)
    requires TerrainIdsDistinct()
    requires (x, y, z) !in overlay && y >= WORLD_HEIGHT_MIN
    requires VillageBlock(noise, x, y, z).None?
    ensures var h := BlockHeight(noise, x, z);
      var biome := BiomeAt(noise, x, z);
      var b := BlockAt(noise, overlay, x, y, z);
      && (y == h ==> b == (if y < WATER_LEVEL || biome == Desert then SAND
                            else if biome == SnowBiome then SNOW else GRASS))
      && (h - 2 <= y < h ==> b == (if y < WATER_LEVEL || biome == Desert then SAND else DIRT))
      && (y <= h - 3 ==> b == STONE)
      && (h < y <= WATER_LEVEL ==> b == WATER)
      && (y <= h ==> b != AIR)
  {
  }

  /** A village claims nothing on a plot without a village, a desert plot, a
      plot whose centre lies below water level, or in a type-9 quadrant. */
  lemma VillageDeclines(noise: Noise, x: int, y: int, z: int)
    ensures var plotX := FloorDiv(x, PLOT_SIZE);
      var plotZ := FloorDiv(z, PLOT_SIZE);
      var centerX := plotX * PLOT_SIZE + 16;
      var centerZ := plotZ * PLOT_SIZE + 16;
      var dx := x - centerX;
      var dz := z - centerZ;
      (|| !HasVillage(plotX, plotZ)
       || BiomeAt(noise, centerX, centerZ) == Desert
       || BlockHeight(noise, centerX, centerZ) < WATER_LEVEL
       || (Abs(dx) > 1 && Abs(dz) > 1
           && BuildType(centerX + (if dx > 0 then 8 else -8), centerZ + (if dz > 0 then 8 else -8)) == 9))
      ==> VillageBlock(noise, x, y, z).None?
  {
  }

  /** On a village plot the road cells are gravel at road height with three cells of air above. */
  lemma VillageRoad(noise: Noise, x: int, y: int, z: int)
    requires var plotX := FloorDiv(x, PLOT_SIZE);
      var plotZ := FloorDiv(z, PLOT_SIZE);
      && HasVillage(plotX, plotZ)
      && BiomeAt(noise, plotX * PLOT_SIZE + 16, plotZ * PLOT_SIZE + 16) != Desert
      && BlockHeight(noise, plotX * PLOT_SIZE + 16, plotZ * PLOT_SIZE + 16) >= WATER_LEVEL
      && (Abs(x - (plotX * PLOT_SIZE + 16)) <= 1 || Abs(z - (plotZ * PLOT_SIZE + 16)) <= 1)
    ensures var roadY := BlockHeight(noise, x, z);
      && (y == roadY ==> VillageBlock(noise, x, y, z) == Some(GRAVEL))
      && (roadY < y <= roadY + 3 ==> VillageBlock(noise, x, y, z) == Some(AIR))
      && (y < roadY || y > roadY + 3 ==> VillageBlock(noise, x, y, z).None?)
  {
  }

  /** A tree needs a root with tree random above 0.97, not claimed by a village, at or above water level. */
  lemma TreeRootRequirements(noise: Noise, x: int, y: int, z: int, groundHeight: int, lx: int, lz: int)
    requires TreeAt(noise, x, y, z, groundHeight, lx, lz).Some?
    ensures TreeRandom(x + lx, z + lz) > 0.97
    ensures BlockHeight(noise, x + lx, z + lz) >= WATER_LEVEL
    ensures VillageBlock(noise, x + lx, groundHeight, z + lz).None?
  {
  }

  /** Desert roots grow a three-high cactus in the root column only. */
  lemma CactusShape(base: int, y: int, lx: int, lz: int)
    ensures TreeShape(Desert, base, y, lx, lz).Some? <==> lx == 0 && lz == 0 && base < y <= base + 3
    ensures TreeShape(Desert, base, y, lx, lz).Some? ==> TreeShape(Desert, base, y, lx, lz) == Some(CACTUS)
  {
  }

  /** Only desert roots grow cacti. */
  lemma CactusOnlyInDesert(biome: Biome, base: int, y: int, lx: int, lz: int)
    requires TerrainIdsDistinct()
    requires TreeShape(biome, base, y, lx, lz) == Some(CACTUS)
    ensures biome == Desert
  {
  }

  /** A forest tree's trunk fills base+1..base+4 of its root column, and its
      single-leaf cap at base+6 sits only above the root. */
  lemma ForestTreeShape(base: int, y: int, lx: int, lz: int)
    ensures var t := TreeShape(Forest, base, y, lx, lz);
      && (lx == 0 && lz == 0 && base < y <= base + 4 ==> t == Some(WOOD))
      && (y == base + 6 ==> (t.Some? <==> lx == 0 && lz == 0))
      && (y == base + 6 ==> (t.Some? ==> t == Some(LEAF)))
      && (y > base + 6 || y <= base ==> t.None?)
  {
  }
}
