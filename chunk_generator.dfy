/**
 * The chunk generator's own decisions: the rock type by depth and crust, the surface layers of a
 * column, the clamped base height, the base column of blocks, and the loops that write blocks into
 * a chunk. A chunk's contents are a map from local block positions to blocks.
 */
module ChunkGeneration {
  import opened JavaMath
  import opened Foreign
  import opened CrustTypeEnum
  import opened PlateDataRecord
  import opened PlateSystemModel
  import opened TectonicDensity

  /** The block states the generator places. */
  datatype Block = Air | Stone | Basalt | Tuff | Andesite | Gravel | GrassBlock

  /** A block position (x, y, z); the chunk-writing loops use chunk-local x and z in [0, 16). */
  type Pos = (int, int, int)

  /** `getMinY` and `getGenDepth`. */
  const MIN_Y: int := -64
  const GEN_DEPTH: int := 384

  /** The surface level and height scale the generator builds its density function with. */
  function GeneratorSettings(seed: Long64): Settings {
    Settings(seed, 64.0, 1.0)
  }

  // ---------------------------------------------------------------- rock by depth and crust

  /** `getBlockStateForLocation` once the crust is known: two depth bands depend on the crust, the top band does not. */
  function RockFor(crust: CrustType, y: int): (b: Block)
    ensures b != Air
  {
    if y < 0 then (if crust == Oceanic then Basalt else Stone)
    else if y < 32 then (if crust == Oceanic then Tuff else Andesite)
    else Stone
  }

  /** From y = 32 upwards every crust gives stone. */
  lemma RockCrustIndependentFrom32(y: int)
    requires 32 <= y
    ensures RockFor(Oceanic, y) == Stone && RockFor(Continental, y) == Stone
  {
  }

  /** Below y = 32 the rock tells the crust apart. */
  lemma RockRevealsCrustBelow32(c1: CrustType, c2: CrustType, y: int)
    requires y < 32 && RockFor(c1, y) == RockFor(c2, y)
    ensures c1 == c2
  {
  }

  /** The rock at block (x, y, z) of the world. */
  function RockAt(p: Primitives, seed: Long64, x: int, y: int, z: int): Block {
    RockFor(PlateAt(p, seed, x as real, z as real).crustType, y)
  }

  // ---------------------------------------------------------------- surface layers of a column

  /** The (surface, subsurface) pair of a crust. */
  function SurfaceBlocks(crust: CrustType): (Block, Block) {
    match crust
    case Oceanic => (Gravel, Basalt)
    case Continental => (GrassBlock, Stone)
  }

  /** Neither layer is air, and the surface block alone tells the crust apart. */
  lemma SurfaceBlocksDistinct(c1: CrustType, c2: CrustType)
    ensures SurfaceBlocks(c1).0 != Air && SurfaceBlocks(c1).1 != Air
    ensures SurfaceBlocks(c1).0 == SurfaceBlocks(c2).0 ==> c1 == c2
  {
  }

  /** Surface layers at heights lo..topY of column (x, z): the surface block on top, the subsurface below. */
  function Layers(x: int, z: int, lo: int, topY: int, surface: Block, subsurface: Block): map<Pos, Block>
    decreases topY - lo
  {
    if lo > topY then map[]
    else Layers(x, z, lo + 1, topY, surface, subsurface)[(x, lo, z) := if lo == topY then surface else subsurface]
  }

  /** The layers hold exactly the cells (x, y, z) with lo <= y <= topY: the surface at topY, the subsurface below. */
  lemma {:induction false} LayersPointwise(x: int, z: int, lo: int, topY: int, surface: Block, subsurface: Block, pos: Pos)
    decreases topY - lo
    ensures var w := Layers(x, z, lo, topY, surface, subsurface);
      (pos in w <==> pos.0 == x && pos.2 == z && lo <= pos.1 <= topY)
      && (pos in w ==> w[pos] == if pos.1 == topY then surface else subsurface)
  {
    if lo <= topY {
      LayersPointwise(x, z, lo + 1, topY, surface, subsurface, pos);
    }
  }

  /** The lowest layer written: three below the top, but never below the minimum build height. */
  function LowestLayer(topY: int, minBuildHeight: int): int {
    if topY - 3 >= minBuildHeight then topY - 3 else minBuildHeight
  }

  /** The blocks `applySurfaceForColumn` writes into column (x, z) whose top block is at topY. */
  function ColumnSurface(x: int, z: int, topY: int, minBuildHeight: int, crust: CrustType): map<Pos, Block> {
    Layers(x, z, LowestLayer(topY, minBuildHeight), topY, SurfaceBlocks(crust).0, SurfaceBlocks(crust).1)
  }

  /**
   * Nothing is written unless the top is at or above the minimum build height; then the surface
   * block goes at topY, the subsurface at topY-1..topY-3 while at or above the minimum, and
   * nothing is written outside those cells.
   */
  lemma ColumnSurfaceShape(x: int, z: int, topY: int, minBuildHeight: int, crust: CrustType)
    ensures var w := ColumnSurface(x, z, topY, minBuildHeight, crust);
      (topY < minBuildHeight ==> w == map[]) &&
      (topY >= minBuildHeight ==> (x, topY, z) in w && w[(x, topY, z)] == SurfaceBlocks(crust).0) &&
      (forall y :: topY - 3 <= y < topY && minBuildHeight <= y ==>
        (x, y, z) in w && w[(x, y, z)] == SurfaceBlocks(crust).1) &&
      (forall pos :: pos in w ==>
        pos.0 == x && pos.2 == z && minBuildHeight <= pos.1 <= topY && topY - 3 <= pos.1)
  {
    var lo := LowestLayer(topY, minBuildHeight);
    forall pos: Pos
      ensures var w := Layers(x, z, lo, topY, SurfaceBlocks(crust).0, SurfaceBlocks(crust).1);
        (pos in w <==> pos.0 == x && pos.2 == z && lo <= pos.1 <= topY)
        && (pos in w ==> w[pos] == if pos.1 == topY then SurfaceBlocks(crust).0 else SurfaceBlocks(crust).1)
    {
      LayersPointwise(x, z, lo, topY, SurfaceBlocks(crust).0, SurfaceBlocks(crust).1, pos);
    }
  }

  /** Writing one more layer below extends the layers by that cell. */
  lemma LayersGrowDown(x: int, z: int, lo: int, topY: int, surface: Block, subsurface: Block)
    requires lo <= topY + 1
    ensures Layers(x, z, lo - 1, topY, surface, subsurface)
         == Layers(x, z, lo, topY, surface, subsurface)[(x, lo - 1, z) := if lo - 1 == topY then surface else subsurface]
  {
  }

  /** Updating a union at one key is the union with the updated right-hand side. */
  lemma UnionUpdate(m: map<Pos, Block>, w: map<Pos, Block>, k: Pos, v: Block)
    ensures (m + w)[k := v] == m + w[k := v]
  {
  }

  /** The union with no writes changes nothing. */
  lemma UnionEmpty(m: map<Pos, Block>)
    ensures m + map[] == m
  {
  }

  /** Union of maps is associative. */
  lemma UnionAssociative(a: map<Pos, Block>, b: map<Pos, Block>, c: map<Pos, Block>)
    ensures (a + b) + c == a + (b + c)
  {
  }

  // ---------------------------------------------------------------- the chunk

  /** The part of `ChunkAccess` the generator uses: its position, build heights, heightmap and blocks. */
  class Chunk {
    const chunkX: int
    const chunkZ: int
    const minBuildHeight: int
    const maxBuildHeight: int
    /** The `WORLD_SURFACE_WG` heightmap: the top block's y of local column (x, z) at index x + 16 z. */
    const heights: seq<int>
    var blocks: map<Pos, Block>

    ghost predicate Valid() {
      InInt32(chunkX) && InInt32(chunkZ) && InInt32(minBuildHeight) && InInt32(maxBuildHeight)
      && minBuildHeight <= maxBuildHeight && |heights| == 256
      && forall i :: 0 <= i < 256 ==> minBuildHeight - 1 <= heights[i] < maxBuildHeight
    }

    constructor (chunkX: int, chunkZ: int, minBuildHeight: int, maxBuildHeight: int, heights: seq<int>,
                 blocks: map<Pos, Block>)
      ensures this.chunkX == chunkX && this.chunkZ == chunkZ
      ensures this.minBuildHeight == minBuildHeight && this.maxBuildHeight == maxBuildHeight
      ensures this.heights == heights && this.blocks == blocks
    {
      this.chunkX := chunkX;
      this.chunkZ := chunkZ;
      this.minBuildHeight := minBuildHeight;
      this.maxBuildHeight := maxBuildHeight;
      this.heights := heights;
      this.blocks := blocks;
    }

    /** `getHeight(WORLD_SURFACE_WG, x, z)`. */
    function GetHeight(x: int, z: int): int
      requires |heights| == 256 && 0 <= x < 16 && 0 <= z < 16
    {
      heights[x + 16 * z]
    }

    /** `setBlockState(pos, state, false)`. */
    method SetBlockState(pos: Pos, b: Block)
      modifies this
      ensures blocks == old(blocks)[pos := b]
    {
      blocks := blocks[pos := b];
    }
  }

  /** One layer write of `applySurfaceForColumn`: the cell just below the layers written so far. */
  method WriteLayer(chunk: Chunk, ghost before: map<Pos, Block>, x: int, z: int, lo: int, topY: int,
                    b: Block, surfaceBlock: Block, subsurfaceBlock: Block)
    requires lo <= topY + 1 && b == (if lo - 1 == topY then surfaceBlock else subsurfaceBlock)
    requires chunk.blocks == before + Layers(x, z, lo, topY, surfaceBlock, subsurfaceBlock)
    modifies chunk
    ensures chunk.blocks == before + Layers(x, z, lo - 1, topY, surfaceBlock, subsurfaceBlock)
  {
    ghost var written := Layers(x, z, lo, topY, surfaceBlock, subsurfaceBlock);
    LayersGrowDown(x, z, lo, topY, surfaceBlock, subsurfaceBlock);
    UnionUpdate(before, written, (x, lo - 1, z), b);
    chunk.SetBlockState((x, lo - 1, z), b);
  }

  /** `applySurfaceForColumn`: the surface block at the column's top, then up to three subsurface blocks below it. */
  method ApplySurfaceForColumn(chunk: Chunk, x: int, z: int, plateData: PlateData)
    requires chunk.Valid() && 0 <= x < 16 && 0 <= z < 16
    modifies chunk
    ensures chunk.blocks == old(chunk.blocks)
      + ColumnSurface(x, z, chunk.GetHeight(x, z), chunk.minBuildHeight, plateData.crustType)
  {
    var topY := chunk.GetHeight(x, z);
    var surfaceBlock, subsurfaceBlock;
    match plateData.crustType {
      case Oceanic =>
        surfaceBlock, subsurfaceBlock := Gravel, Basalt;
      case Continental =>
        surfaceBlock, subsurfaceBlock := GrassBlock, Stone;
    }
    ghost var before := chunk.blocks;
    if topY >= chunk.minBuildHeight {
      WriteLayer(chunk, before, x, z, topY + 1, topY, surfaceBlock, surfaceBlock, subsurfaceBlock);
      WriteSubsurface(chunk, before, x, z, topY, surfaceBlock, subsurfaceBlock);
    } else {
      assert ColumnSurface(x, z, topY, chunk.minBuildHeight, plateData.crustType) == map[];
    }
  }

  /** The loop of `applySurfaceForColumn`: subsurface blocks at topY-1..topY-3, stopping at the minimum build height. */
  method WriteSubsurface(chunk: Chunk, ghost before: map<Pos, Block>, x: int, z: int, topY: int,
                         surfaceBlock: Block, subsurfaceBlock: Block)
    requires topY >= chunk.minBuildHeight
    requires chunk.blocks == before + Layers(x, z, topY, topY, surfaceBlock, subsurfaceBlock)
    modifies chunk
    ensures chunk.blocks == before + Layers(x, z, LowestLayer(topY, chunk.minBuildHeight), topY, surfaceBlock, subsurfaceBlock)
  {
    var i := 1;
    while i <= 3 && topY - i >= chunk.minBuildHeight
      invariant 1 <= i <= 4 && topY - i + 1 >= chunk.minBuildHeight
      invariant chunk.blocks == before + Layers(x, z, topY - i + 1, topY, surfaceBlock, subsurfaceBlock)
    {
      WriteLayer(chunk, before, x, z, topY - i + 1, topY, subsurfaceBlock, surfaceBlock, subsurfaceBlock);
      i := i + 1;
    }
  }

  // ---------------------------------------------------------------- the columns of a chunk

  /** `chunkX * 16 + localX` in Java `int` arithmetic. */
  function WorldCoord(chunkCoord: int, local: int): (r: int)
    ensures InInt32(r)
  {
    Wrap32(chunkCoord * 16 + local)
  }

  /** Both chunk loops run local x outermost and local z innermost: column (a, b) comes before (lx, lz). */
  predicate VisitedBefore(a: int, b: int, lx: int, lz: int) {
    0 <= a && 0 <= b < 16 && (a < lx || (a == lx && b < lz))
  }

  /** A position of a chunk's 16 x 16 columns within [0, 16, 0) .. (16, 16). */
  predicate InsideChunk(a: int, b: int) {
    0 <= a < 16 && 0 <= b < 16
  }

  /** The crust of the plate under world column (x, z). */
  function CrustAt(p: Primitives, seed: Long64, x: int, z: int): CrustType {
    PlateAt(p, seed, x as real, z as real).crustType
  }

  /** The crust lookup of the whole world as one function of the column. */
  function CrustLookup(p: Primitives, seed: Long64): (int, int) -> CrustType {
    (x, z) => CrustAt(p, seed, x, z)
  }

  /** `crustOf` is the generator's crust lookup: it agrees with the plate under every column. */
  ghost predicate IsCrustLookup(crustOf: (int, int) -> CrustType, p: Primitives, seed: Long64) {
    forall x, z {:trigger CrustAt(p, seed, x, z)} :: crustOf(x, z) == CrustAt(p, seed, x, z)
  }

  lemma CrustLookupIsCrustLookup(p: Primitives, seed: Long64)
    ensures IsCrustLookup(CrustLookup(p, seed), p, seed)
  {
  }

  /** The surface writes of local column (lx, lz) of the chunk at (chunkX, chunkZ), with `crustOf` giving each world column's crust. */
  function SurfaceColumn(crustOf: (int, int) -> CrustType, chunkX: int, chunkZ: int, heights: seq<int>,
                         minBuildHeight: int, lx: int, lz: int): map<Pos, Block>
    requires InsideChunk(lx, lz) && |heights| == 256
  {
    ColumnSurface(lx, lz, heights[lx + 16 * lz], minBuildHeight, crustOf(WorldCoord(chunkX, lx), WorldCoord(chunkZ, lz)))
  }

  /** The surface writes of every column `buildSurface` visits before (lx, lz), in visiting order. */
  function SurfaceOverlay(crustOf: (int, int) -> CrustType, chunkX: int, chunkZ: int, heights: seq<int>,
                          minBuildHeight: int, lx: int, lz: int): map<Pos, Block>
    requires 0 <= lx <= 16 && 0 <= lz <= 16 && (lx == 16 ==> lz == 0) && |heights| == 256
    decreases lx, lz
  {
    if lz == 0 then
      if lx == 0 then map[] else SurfaceOverlay(crustOf, chunkX, chunkZ, heights, minBuildHeight, lx - 1, 16)
    else
      SurfaceOverlay(crustOf, chunkX, chunkZ, heights, minBuildHeight, lx, lz - 1)
      + SurfaceColumn(crustOf, chunkX, chunkZ, heights, minBuildHeight, lx, lz - 1)
  }

  /**
   * The surface writes so far touch only the columns already visited, and each of them exactly as
   * `applySurfaceForColumn` writes it for its height and crust: no column is overwritten by another.
   */
  lemma {:induction false} SurfaceOverlayPointwise(crustOf: (int, int) -> CrustType, chunkX: int, chunkZ: int,
                                                   heights: seq<int>, minBuildHeight: int, lx: int, lz: int,
                                                   a: int, y: int, b: int)
    requires 0 <= lx <= 16 && 0 <= lz <= 16 && (lx == 16 ==> lz == 0) && |heights| == 256
    decreases lx, lz
    ensures (a, y, b) in SurfaceOverlay(crustOf, chunkX, chunkZ, heights, minBuildHeight, lx, lz) ==> VisitedBefore(a, b, lx, lz)
    ensures VisitedBefore(a, b, lx, lz) ==>
      var w := SurfaceOverlay(crustOf, chunkX, chunkZ, heights, minBuildHeight, lx, lz);
      var c := ColumnSurface(a, b, heights[a + 16 * b], minBuildHeight, crustOf(WorldCoord(chunkX, a), WorldCoord(chunkZ, b)));
      ((a, y, b) in w <==> (a, y, b) in c) && ((a, y, b) in c ==> w[(a, y, b)] == c[(a, y, b)])
  {
    if lz == 0 {
      if lx > 0 {
        SurfaceOverlayPointwise(crustOf, chunkX, chunkZ, heights, minBuildHeight, lx - 1, 16, a, y, b);
      }
    } else {
      SurfaceOverlayPointwise(crustOf, chunkX, chunkZ, heights, minBuildHeight, lx, lz - 1, a, y, b);
      SurfaceColumnOwnCells(crustOf, chunkX, chunkZ, heights, minBuildHeight, lx, lz - 1, a, y, b);
      var before := SurfaceOverlay(crustOf, chunkX, chunkZ, heights, minBuildHeight, lx, lz - 1);
      var column := SurfaceColumn(crustOf, chunkX, chunkZ, heights, minBuildHeight, lx, lz - 1);
      if a == lx && b == lz - 1 {
        assert (a, y, b) !in before;
      } else {
        assert (a, y, b) !in column;
      }
    }
  }

  /** The surface writes of one column lie in that column only. */
  lemma SurfaceColumnOwnCells(crustOf: (int, int) -> CrustType, chunkX: int, chunkZ: int, heights: seq<int>,
                              minBuildHeight: int, lx: int, lz: int, a: int, y: int, b: int)
    requires InsideChunk(lx, lz) && |heights| == 256
    ensures (a, y, b) in SurfaceColumn(crustOf, chunkX, chunkZ, heights, minBuildHeight, lx, lz) ==> a == lx && b == lz
  {
    var topY := heights[lx + 16 * lz];
    var crust := crustOf(WorldCoord(chunkX, lx), WorldCoord(chunkZ, lz));
    LayersPointwise(lx, lz, LowestLayer(topY, minBuildHeight), topY, SurfaceBlocks(crust).0, SurfaceBlocks(crust).1, (a, y, b));
  }

  /**
   * After the whole pass (every column visited) the surface writes lie inside the chunk, and each
   * column holds exactly its own surface layers.
   */
  lemma SurfacePassPointwise(crustOf: (int, int) -> CrustType, chunkX: int, chunkZ: int, heights: seq<int>,
                             minBuildHeight: int, a: int, y: int, b: int)
    requires |heights| == 256
    ensures (a, y, b) in SurfaceOverlay(crustOf, chunkX, chunkZ, heights, minBuildHeight, 16, 0) ==> InsideChunk(a, b)
    ensures InsideChunk(a, b) ==>
      var w := SurfaceOverlay(crustOf, chunkX, chunkZ, heights, minBuildHeight, 16, 0);
      var c := ColumnSurface(a, b, heights[a + 16 * b], minBuildHeight, crustOf(WorldCoord(chunkX, a), WorldCoord(chunkZ, b)));
      ((a, y, b) in w <==> (a, y, b) in c) && ((a, y, b) in c ==> w[(a, y, b)] == c[(a, y, b)])
  {
    SurfaceOverlayPointwise(crustOf, chunkX, chunkZ, heights, minBuildHeight, 16, 0, a, y, b);
  }

  /** The block `getBaseColumn` holds at height y of column (x, z): rock where the density is positive, air elsewhere. */
  function ColumnBlock(p: Primitives, seed: Long64, x: int, y: int, z: int): Block {
    if DensityAt(p, GeneratorSettings(seed), x, y, z) > 0.0 then RockAt(p, seed, x, y, z) else Air
  }

  /** A base-column entry is air exactly where the density is not positive. */
  lemma ColumnBlockAirIff(p: Primitives, seed: Long64, x: int, y: int, z: int)
    ensures ColumnBlock(p, seed, x, y, z) == Air <==> DensityAt(p, GeneratorSettings(seed), x, y, z) <= 0.0
  {
  }

  /** A column is solid up to some height and air above it: below a solid block every block is solid. */
  lemma ColumnSolidBelow(p: Primitives, seed: Long64, x: int, y1: int, y2: int, z: int)
    requires y1 < y2 && ColumnBlock(p, seed, x, y2, z) != Air
    ensures ColumnBlock(p, seed, x, y1, z) != Air
  {
    var s := GeneratorSettings(seed);
    var h := HeightAt(p, seed, s.surfaceLevel, x as real, z as real);
    DensityDecreasingInY(h, y1, y2, PlateAt(p, seed, x as real, z as real).crustType, 1.0);
  }

  /** The base columns of the whole world as one function of the block position. */
  function BaseWorld(p: Primitives, seed: Long64): (int, int, int) -> Block {
    (x, y, z) => ColumnBlock(p, seed, x, y, z)
  }

  /** `world` is the generator's world: it agrees with the base columns at every block. */
  ghost predicate IsBaseWorld(world: (int, int, int) -> Block, p: Primitives, seed: Long64) {
    forall x, y, z {:trigger ColumnBlock(p, seed, x, y, z)} :: world(x, y, z) == ColumnBlock(p, seed, x, y, z)
  }

  lemma BaseWorldIsBaseWorld(p: Primitives, seed: Long64)
    ensures IsBaseWorld(BaseWorld(p, seed), p, seed)
  {
  }

  /** The writes into local column (lx, lz), world column (x, z), for heights minY..yEnd-1: the non-air blocks of `world` there. */
  function SolidWrites(world: (int, int, int) -> Block, lx: int, lz: int, x: int, z: int, minY: int, yEnd: int): map<Pos, Block>
    decreases yEnd - minY
  {
    if yEnd <= minY then map[]
    else
      var y := yEnd - 1;
      var below := SolidWrites(world, lx, lz, x, z, minY, y);
      if world(x, y, z) != Air then below[(lx, y, lz) := world(x, y, z)] else below
  }

  /** The writes hold exactly the non-air blocks of the column between minY and yEnd, and nothing else. */
  lemma {:induction false} SolidWritesPointwise(world: (int, int, int) -> Block, lx: int, lz: int, x: int, z: int,
                                                minY: int, yEnd: int, pos: Pos)
    decreases yEnd - minY
    ensures var w := SolidWrites(world, lx, lz, x, z, minY, yEnd);
      (pos in w <==> pos.0 == lx && pos.2 == lz && minY <= pos.1 < yEnd && world(x, pos.1, z) != Air)
      && (pos in w ==> w[pos] == world(x, pos.1, z))
  {
    if yEnd > minY {
      SolidWritesPointwise(world, lx, lz, x, z, minY, yEnd - 1, pos);
    }
  }

  /** The terrain writes of local column (lx, lz) of the chunk at (chunkX, chunkZ) for heights minY..maxY-1. */
  function TerrainColumn(world: (int, int, int) -> Block, chunkX: int, chunkZ: int, minY: int, maxY: int, lx: int, lz: int): map<Pos, Block> {
    SolidWrites(world, lx, lz, WorldCoord(chunkX, lx), WorldCoord(chunkZ, lz), minY, maxY)
  }

  /** The terrain writes of every column `fillChunkWithTectonicTerrain` visits before (lx, lz), in visiting order. */
  function TerrainOverlay(world: (int, int, int) -> Block, chunkX: int, chunkZ: int, minY: int, maxY: int,
                          lx: int, lz: int): map<Pos, Block>
    requires 0 <= lx && 0 <= lz <= 16
    decreases lx, lz
  {
    if lz == 0 then
      if lx == 0 then map[] else TerrainOverlay(world, chunkX, chunkZ, minY, maxY, lx - 1, 16)
    else
      TerrainOverlay(world, chunkX, chunkZ, minY, maxY, lx, lz - 1) + TerrainColumn(world, chunkX, chunkZ, minY, maxY, lx, lz - 1)
  }

  /**
   * The terrain writes so far hold (a, y, b) exactly when column (a, b) was visited already,
   * minY <= y < maxY and the world block there is not air, and then that block; every other
   * position keeps its block (nothing is set to air).
   */
  lemma {:induction false} TerrainOverlayPointwise(world: (int, int, int) -> Block, chunkX: int, chunkZ: int,
                                                   minY: int, maxY: int, lx: int, lz: int, a: int, y: int, b: int)
    requires 0 <= lx && 0 <= lz <= 16
    decreases lx, lz
    ensures var w := TerrainOverlay(world, chunkX, chunkZ, minY, maxY, lx, lz);
      var x, z := WorldCoord(chunkX, a), WorldCoord(chunkZ, b);
      ((a, y, b) in w <==> VisitedBefore(a, b, lx, lz) && minY <= y < maxY && world(x, y, z) != Air)
      && ((a, y, b) in w ==> w[(a, y, b)] == world(x, y, z))
  {
    if lz == 0 {
      if lx > 0 {
        TerrainOverlayPointwise(world, chunkX, chunkZ, minY, maxY, lx - 1, 16, a, y, b);
      }
    } else {
      TerrainOverlayPointwise(world, chunkX, chunkZ, minY, maxY, lx, lz - 1, a, y, b);
      SolidWritesPointwise(world, lx, lz - 1, WorldCoord(chunkX, lx), WorldCoord(chunkZ, lz - 1), minY, maxY, (a, y, b));
    }
  }

  /**
   * After the whole pass the chunk holds, at (a, y, b) inside it and in the build range, the world
   * block where that is not air, and everything else is left as it was.
   */
  lemma TerrainPassPointwise(world: (int, int, int) -> Block, chunkX: int, chunkZ: int, minY: int, maxY: int,
                             a: int, y: int, b: int)
    ensures var w := TerrainOverlay(world, chunkX, chunkZ, minY, maxY, 16, 0);
      var x, z := WorldCoord(chunkX, a), WorldCoord(chunkZ, b);
      ((a, y, b) in w <==> InsideChunk(a, b) && minY <= y < maxY && world(x, y, z) != Air)
      && ((a, y, b) in w ==> w[(a, y, b)] == world(x, y, z))
  {
    TerrainOverlayPointwise(world, chunkX, chunkZ, minY, maxY, 16, 0, a, y, b);
  }

  /**
   * Over the generator's own world a block is written exactly where the density is positive, and
   * it is the rock for the block's depth and crust.
   */
  lemma BaseWorldSolidIff(p: Primitives, seed: Long64, x: int, y: int, z: int)
    ensures BaseWorld(p, seed)(x, y, z) != Air <==> DensityAt(p, GeneratorSettings(seed), x, y, z) > 0.0
    ensures BaseWorld(p, seed)(x, y, z) != Air ==> BaseWorld(p, seed)(x, y, z) == RockAt(p, seed, x, y, z)
  {
  }

  // ---------------------------------------------------------------- base height

  /** `getBaseHeight` before the clamp: the terrain height at surface level 64 without the boundary uplift. */
  function BaseHeightRaw(p: Primitives, plate: PlateData, x: real, z: real): real {
    64.0 + plate.baseElevation * 32.0 + CrustLift(plate.crustType)
    + CenterEffect(p, DistanceToCenter(p, plate, x, z), plate.age)
  }

  /** `getBaseHeight`: the raw height clamped to [minBuildHeight, maxBuildHeight - 1] and cast to `int`. */
  function BaseHeight(p: Primitives, seed: Long64, x: int, z: int, minBuildHeight: int, maxBuildHeight: int): int {
    var raw := BaseHeightRaw(p, PlateAt(p, seed, x as real, z as real), x as real, z as real);
    DoubleToInt(Max(minBuildHeight as real, Min(Wrap32(maxBuildHeight - 1) as real, raw)))
  }

  /** In a non-empty build range the base height is a buildable y. */
  lemma BaseHeightWithinBuildRange(p: Primitives, seed: Long64, x: int, z: int, minBuildHeight: int, maxBuildHeight: int)
    requires InInt32(minBuildHeight) && InInt32(maxBuildHeight) && minBuildHeight < maxBuildHeight
    ensures minBuildHeight <= BaseHeight(p, seed, x, z, minBuildHeight, maxBuildHeight) <= maxBuildHeight - 1
  {
    var raw := BaseHeightRaw(p, PlateAt(p, seed, x as real, z as real), x as real, z as real);
    var v := Max(minBuildHeight as real, Min(Wrap32(maxBuildHeight - 1) as real, raw));
    assert Wrap32(maxBuildHeight - 1) == maxBuildHeight - 1;
    DoubleToIntWithin(v, minBuildHeight, maxBuildHeight - 1);
  }

  /**
   * The base height leaves out the boundary uplift the density function adds: the density's
   * height exceeds the unclamped base height by exactly the uplift, so the two agree exactly
   * where the nearest boundary is at least 256 away.
   */
  lemma BaseHeightOmitsBoundaryUplift(p: Primitives, seed: Long64, x: int, z: int)
    ensures var raw := BaseHeightRaw(p, PlateAt(p, seed, x as real, z as real), x as real, z as real);
      HeightAt(p, seed, 64.0, x as real, z as real) == raw + BoundaryEffect(BoundaryDistance(p, seed, x as real, z as real))
    ensures var raw := BaseHeightRaw(p, PlateAt(p, seed, x as real, z as real), x as real, z as real);
      HeightAt(p, seed, 64.0, x as real, z as real) == raw <==> UPLIFT_RANGE <= BoundaryDistance(p, seed, x as real, z as real)
  {
  }

  /** For a generated plate the unclamped base height lies in [27.2, 107.2]. */
  lemma BaseHeightRawBounds(p: Primitives, plate: PlateData, x: real, z: real)
    requires SqrtIsExact(p.sqrt) && ExpBounds(p.exp)
    requires -1.0 <= plate.baseElevation <= 1.0 && 0.0 <= plate.age <= 1.0
    ensures 27.2 <= BaseHeightRaw(p, plate, x, z) <= 107.2
  {
    CenterEffectBounds(p, DistanceToCenter(p, plate, x, z), plate.age);
  }

  /** In the generator's own build range [-64, 320) the clamp never acts and the base height lies in [27, 107]. */
  lemma OverworldBaseHeight(p: Primitives, seed: Long64, x: int, z: int)
    requires p.Valid()
    ensures var raw := BaseHeightRaw(p, PlateAt(p, seed, x as real, z as real), x as real, z as real);
      BaseHeight(p, seed, x, z, MIN_Y, MIN_Y + GEN_DEPTH) == raw.Floor
    ensures 27 <= BaseHeight(p, seed, x, z, MIN_Y, MIN_Y + GEN_DEPTH) <= 107
  {
    var plate := PlateAt(p, seed, x as real, z as real);
    GeneratedPlateRanges(p, seed, plate.plateId);
    BaseHeightRawBounds(p, plate, x as real, z as real);
  }

  // ---------------------------------------------------------------- the generator

  /** The generator: its own plate system for surfaces, rock types and base heights, and a density function with another. */
  class GeoGenChunkGenerator {
    const seed: Long64
    const plateSystem: PlateSystem
    const densityFunction: TectonicDensityFunction

    ghost predicate Valid()
      reads this, plateSystem, densityFunction, densityFunction.plateSystem
    {
      plateSystem.Valid() && plateSystem.seed == seed
      && densityFunction.Valid() && densityFunction.CurrentSettings() == GeneratorSettings(seed)
      && densityFunction.plateSystem.prims == plateSystem.prims
      && densityFunction.plateSystem != plateSystem
    }

    /** A generator for a world seed: a plate system and a density function at surface level 64 and height scale 1. */
    constructor (seed: Long64, prims: Primitives)
      ensures this.seed == seed && plateSystem.prims == prims && Valid()
      ensures fresh(plateSystem) && fresh(densityFunction) && fresh(densityFunction.plateSystem)
      ensures plateSystem.plateCache == map[] && densityFunction.plateSystem.plateCache == map[]
    {
      this.seed := seed;
      plateSystem := new PlateSystem(seed, prims);
      densityFunction := new TectonicDensityFunction(seed, 64.0, 1.0, prims);
    }

    /** `getBlockStateForLocation`: the rock for the depth and the crust of the plate under (x, z). */
    method GetBlockStateForLocation(x: int, y: int, z: int) returns (b: Block)
      requires Valid()
      modifies plateSystem
      ensures Valid()
      ensures b == RockAt(plateSystem.prims, seed, x, y, z)
    {
      var plateData := plateSystem.GetPlateAt(x as real, z as real);
      if y < 0 {
        b := if plateData.crustType == Oceanic then Basalt else Stone;
      } else if y < 32 {
        b := if plateData.crustType == Oceanic then Tuff else Andesite;
      } else {
        b := Stone;
      }
    }

    /** `buildSurface`: every column of the chunk gets the surface layers of the plate under it. */
    method BuildSurface(chunk: Chunk)
      requires Valid() && chunk.Valid()
      modifies plateSystem, chunk
      ensures Valid()
      ensures chunk.blocks == old(chunk.blocks) + SurfaceOverlay(CrustLookup(plateSystem.prims, seed),
        chunk.chunkX, chunk.chunkZ, chunk.heights, chunk.minBuildHeight, 16, 0)
    {
      var chunkX, chunkZ := chunk.chunkX, chunk.chunkZ;
      ghost var before := chunk.blocks;
      CrustLookupIsCrustLookup(plateSystem.prims, seed);
      ghost var crustOf :| IsCrustLookup(crustOf, plateSystem.prims, seed);
      var localX := 0;
      while localX < 16
        invariant 0 <= localX <= 16 && Valid()
        invariant chunk.blocks == before + SurfaceOverlay(crustOf, chunkX, chunkZ, chunk.heights, chunk.minBuildHeight, localX, 0)
      {
        var localZ := 0;
        while localZ < 16
          invariant 0 <= localZ <= 16 && Valid()
          invariant chunk.blocks == before + SurfaceOverlay(crustOf, chunkX, chunkZ, chunk.heights, chunk.minBuildHeight, localX, localZ)
        {
          VisitSurfaceColumn(chunk, crustOf, before, chunkX, chunkZ, localX, localZ);
          localZ := localZ + 1;
        }
        localX := localX + 1;
      }
      CrustLookupsAgree(crustOf, CrustLookup(plateSystem.prims, seed), plateSystem.prims, seed);
      SurfaceOverlayCongruent(crustOf, CrustLookup(plateSystem.prims, seed), chunkX, chunkZ, chunk.heights, chunk.minBuildHeight, 16, 0);
    }

    /** One iteration of `buildSurface`: the plate under the column, then its surface layers. */
    method VisitSurfaceColumn(chunk: Chunk, ghost crustOf: (int, int) -> CrustType, ghost before: map<Pos, Block>,
                              chunkX: int, chunkZ: int, localX: int, localZ: int)
      requires Valid() && chunk.Valid() && chunkX == chunk.chunkX && chunkZ == chunk.chunkZ
      requires IsCrustLookup(crustOf, plateSystem.prims, seed)
      requires 0 <= localX < 16 && 0 <= localZ < 16
      requires chunk.blocks == before + SurfaceOverlay(crustOf, chunkX, chunkZ, chunk.heights, chunk.minBuildHeight, localX, localZ)
      modifies plateSystem, chunk
      ensures Valid()
      ensures chunk.blocks == before + SurfaceOverlay(crustOf, chunkX, chunkZ, chunk.heights, chunk.minBuildHeight, localX, localZ + 1)
    {
      var worldX := WorldCoord(chunkX, localX);
      var worldZ := WorldCoord(chunkZ, localZ);
      var plateData := plateSystem.GetPlateAt(worldX as real, worldZ as real);
      ghost var done := SurfaceOverlay(crustOf, chunkX, chunkZ, chunk.heights, chunk.minBuildHeight, localX, localZ);
      ghost var column := ColumnSurface(localX, localZ, chunk.GetHeight(localX, localZ), chunk.minBuildHeight, plateData.crustType);
      CrustLookupAt(plateSystem.prims, seed, worldX, worldZ, plateData);
      SurfaceOverlayStep(crustOf, chunkX, chunkZ, chunk.heights, chunk.minBuildHeight, localX, localZ, worldX, worldZ, plateData.crustType);
      ApplySurfaceForColumn(chunk, localX, localZ, plateData);
      UnionAssociative(before, done, column);
    }

    /** `fillChunkWithTectonicTerrain`: every block of the chunk where the density is positive becomes rock. */
    method FillChunkWithTectonicTerrain(chunk: Chunk)
      requires Valid() && chunk.Valid()
      modifies plateSystem, densityFunction.plateSystem, chunk
      ensures Valid()
      ensures chunk.blocks == old(chunk.blocks) + TerrainOverlay(BaseWorld(plateSystem.prims, seed),
        chunk.chunkX, chunk.chunkZ, chunk.minBuildHeight, chunk.maxBuildHeight, 16, 0)
    {
      var minY, maxY := chunk.minBuildHeight, chunk.maxBuildHeight;
      ghost var before := chunk.blocks;
      ghost var world := BaseWorld(plateSystem.prims, seed);
      BaseWorldIsBaseWorld(plateSystem.prims, seed);
      var localX := 0;
      while localX < 16
        invariant 0 <= localX <= 16 && Valid()
        invariant chunk.blocks == before + TerrainOverlay(world, chunk.chunkX, chunk.chunkZ, minY, maxY, localX, 0)
      {
        var localZ := 0;
        while localZ < 16
          invariant 0 <= localZ <= 16 && Valid()
          invariant chunk.blocks == before + TerrainOverlay(world, chunk.chunkX, chunk.chunkZ, minY, maxY, localX, localZ)
        {
          FillColumn(chunk, world, before, localX, localZ, minY, maxY);
          localZ := localZ + 1;
        }
        localX := localX + 1;
      }
    }

    /** One column of `fillChunkWithTectonicTerrain`: the blocks from minY up to maxY - 1. */
    method FillColumn(chunk: Chunk, ghost world: (int, int, int) -> Block, ghost before: map<Pos, Block>,
                      localX: int, localZ: int, minY: int, maxY: int)
      requires Valid() && chunk.Valid() && minY == chunk.minBuildHeight && maxY == chunk.maxBuildHeight
      requires IsBaseWorld(world, plateSystem.prims, seed)
      requires 0 <= localX < 16 && 0 <= localZ < 16
      requires chunk.blocks == before + TerrainOverlay(world, chunk.chunkX, chunk.chunkZ, minY, maxY, localX, localZ)
      modifies plateSystem, densityFunction.plateSystem, chunk
      ensures Valid()
      ensures chunk.blocks == before + TerrainOverlay(world, chunk.chunkX, chunk.chunkZ, minY, maxY, localX, localZ + 1)
    {
      var worldX := WorldCoord(chunk.chunkX, localX);
      var worldZ := WorldCoord(chunk.chunkZ, localZ);
      ghost var done := TerrainOverlay(world, chunk.chunkX, chunk.chunkZ, minY, maxY, localX, localZ);
      ghost var base := before + done;
      UnionEmpty(base);
      assert SolidWrites(world, localX, localZ, worldX, worldZ, minY, minY) == map[];
      var y := minY;
      while y < maxY
        invariant minY <= y <= maxY && Valid()
        invariant chunk.blocks == base + SolidWrites(world, localX, localZ, worldX, worldZ, minY, y)
      {
        FillBlock(chunk, world, base, localX, localZ, worldX, worldZ, minY, y);
        y := y + 1;
      }
      UnionAssociative(before, done, SolidWrites(world, localX, localZ, worldX, worldZ, minY, maxY));
      TerrainOverlayStep(world, chunk.chunkX, chunk.chunkZ, minY, maxY, localX, localZ, worldX, worldZ);
    }

    /** One block of `fillChunkWithTectonicTerrain`: rock is written where the density is positive, nothing elsewhere. */
    method FillBlock(chunk: Chunk, ghost world: (int, int, int) -> Block, ghost base: map<Pos, Block>,
                     localX: int, localZ: int, worldX: int, worldZ: int, minY: int, y: int)
      requires Valid() && minY <= y && IsBaseWorld(world, plateSystem.prims, seed)
      requires chunk.blocks == base + SolidWrites(world, localX, localZ, worldX, worldZ, minY, y)
      modifies plateSystem, densityFunction.plateSystem, chunk
      ensures Valid()
      ensures chunk.blocks == base + SolidWrites(world, localX, localZ, worldX, worldZ, minY, y + 1)
    {
      ghost var below := SolidWrites(world, localX, localZ, worldX, worldZ, minY, y);
      var density := densityFunction.Compute(worldX, y, worldZ);
      if density > 0.0 {
        var blockState := GetBlockStateForLocation(worldX, y, worldZ);
        ColumnBlockAt(plateSystem.prims, seed, worldX, y, worldZ, density, blockState);
        UnionUpdate(base, below, (localX, y, localZ), blockState);
        chunk.SetBlockState((localX, y, localZ), blockState);
      } else {
        ColumnBlockAt(plateSystem.prims, seed, worldX, y, worldZ, density, Air);
      }
    }

    /** `getBaseHeight`: the height of the plate terrain at (x, z) without boundary uplift, clamped to the build range. */
    method GetBaseHeight(x: int, z: int, minBuildHeight: int, maxBuildHeight: int) returns (height: int)
      requires Valid()
      modifies plateSystem
      ensures Valid()
      ensures height == BaseHeight(plateSystem.prims, seed, x, z, minBuildHeight, maxBuildHeight)
    {
      var plateData := plateSystem.GetPlateAt(x as real, z as real);
      var baseHeight := 64.0 + plateData.baseElevation * 32.0;
      baseHeight := baseHeight + plateData.crustType.ElevationModifier() * 16.0;
      var distanceToCenter := DistanceToCenter(plateSystem.prims, plateData, x as real, z as real);
      var centerEffect := CenterEffect(plateSystem.prims, distanceToCenter, plateData.age);
      baseHeight := baseHeight + centerEffect;
      height := DoubleToInt(Max(minBuildHeight as real, Min(Wrap32(maxBuildHeight - 1) as real, baseHeight)));
    }

    /** `getBaseColumn`: the blocks of column (x, z) from minBuildHeight up to maxBuildHeight - 1. */
    method GetBaseColumn(x: int, z: int, minBuildHeight: int, maxBuildHeight: int) returns (states: array<Block>)
      requires Valid() && minBuildHeight <= maxBuildHeight && maxBuildHeight - minBuildHeight <= INT_MAX
      modifies plateSystem, densityFunction.plateSystem
      ensures Valid() && fresh(states) && states.Length == maxBuildHeight - minBuildHeight
      ensures forall i :: 0 <= i < states.Length ==> states[i] == ColumnBlock(plateSystem.prims, seed, x, minBuildHeight + i, z)
    {
      BaseWorldIsBaseWorld(plateSystem.prims, seed);
      ghost var world :| IsBaseWorld(world, plateSystem.prims, seed);
      states := new Block[maxBuildHeight - minBuildHeight];
      var y := minBuildHeight;
      while y < maxBuildHeight
        invariant minBuildHeight <= y <= maxBuildHeight && Valid()
        invariant forall i :: 0 <= i < y - minBuildHeight ==> states[i] == world(x, minBuildHeight + i, z)
      {
        var b := SampleColumnBlock(world, x, y, z);
        states[y - minBuildHeight] := b;
        y := y + 1;
      }
      WorldColumnIsBaseColumn(world, plateSystem.prims, seed, x, z, minBuildHeight, states[..]);
    }

    /** The loop body of `getBaseColumn`: rock where the density is positive, air elsewhere. */
    method SampleColumnBlock(ghost world: (int, int, int) -> Block, x: int, y: int, z: int) returns (b: Block)
      requires Valid() && IsBaseWorld(world, plateSystem.prims, seed)
      modifies plateSystem, densityFunction.plateSystem
      ensures Valid() && b == world(x, y, z)
    {
      var density := densityFunction.Compute(x, y, z);
      if density > 0.0 {
        b := GetBlockStateForLocation(x, y, z);
      } else {
        b := Air;
      }
      ColumnBlockAt(plateSystem.prims, seed, x, y, z, density, b);
    }
  }

  /** Two crust lookups of the same world agree at every column. */
  lemma CrustLookupsAgree(c1: (int, int) -> CrustType, c2: (int, int) -> CrustType, p: Primitives, seed: Long64)
    requires IsCrustLookup(c1, p, seed) && IsCrustLookup(c2, p, seed)
    ensures forall x, z :: c1(x, z) == c2(x, z)
  {
    forall x, z
      ensures c1(x, z) == c2(x, z)
    {
      assert c1(x, z) == CrustAt(p, seed, x, z);
    }
  }

  /** Two crust lookups that agree at every column give the same surface writes. */
  lemma {:induction false} SurfaceOverlayCongruent(c1: (int, int) -> CrustType, c2: (int, int) -> CrustType,
                                                   chunkX: int, chunkZ: int, heights: seq<int>, minBuildHeight: int,
                                                   lx: int, lz: int)
    requires forall x, z :: c1(x, z) == c2(x, z)
    requires 0 <= lx <= 16 && 0 <= lz <= 16 && (lx == 16 ==> lz == 0) && |heights| == 256
    decreases lx, lz
    ensures SurfaceOverlay(c1, chunkX, chunkZ, heights, minBuildHeight, lx, lz)
         == SurfaceOverlay(c2, chunkX, chunkZ, heights, minBuildHeight, lx, lz)
  {
    if lz == 0 {
      if lx > 0 {
        SurfaceOverlayCongruent(c1, c2, chunkX, chunkZ, heights, minBuildHeight, lx - 1, 16);
      }
    } else {
      SurfaceOverlayCongruent(c1, c2, chunkX, chunkZ, heights, minBuildHeight, lx, lz - 1);
    }
  }

  /** The surface writes after column (lx, lz) are those before it and that column's layers for its crust. */
  lemma SurfaceOverlayStep(crustOf: (int, int) -> CrustType, chunkX: int, chunkZ: int, heights: seq<int>,
                           minBuildHeight: int, lx: int, lz: int, x: int, z: int, crust: CrustType)
    requires |heights| == 256 && InsideChunk(lx, lz)
    requires x == WorldCoord(chunkX, lx) && z == WorldCoord(chunkZ, lz) && crust == crustOf(x, z)
    ensures SurfaceOverlay(crustOf, chunkX, chunkZ, heights, minBuildHeight, lx, lz + 1)
         == SurfaceOverlay(crustOf, chunkX, chunkZ, heights, minBuildHeight, lx, lz)
            + ColumnSurface(lx, lz, heights[lx + 16 * lz], minBuildHeight, crust)
  {
  }

  /** The terrain writes after column (lx, lz) are those before it and that column's solid blocks. */
  lemma TerrainOverlayStep(world: (int, int, int) -> Block, chunkX: int, chunkZ: int, minY: int, maxY: int,
                           lx: int, lz: int, x: int, z: int)
    requires InsideChunk(lx, lz) && x == WorldCoord(chunkX, lx) && z == WorldCoord(chunkZ, lz)
    ensures TerrainOverlay(world, chunkX, chunkZ, minY, maxY, lx, lz + 1)
         == TerrainOverlay(world, chunkX, chunkZ, minY, maxY, lx, lz) + SolidWrites(world, lx, lz, x, z, minY, maxY)
  {
  }

  /** The crust lookup at a world column is the crust of the plate found there. */
  lemma CrustLookupAt(p: Primitives, seed: Long64, x: int, z: int, plate: PlateData)
    requires plate == PlateAt(p, seed, x as real, z as real)
    ensures CrustAt(p, seed, x, z) == plate.crustType
  {
  }

  /** A block whose density and rock are known is the rock or air accordingly. */
  lemma ColumnBlockAt(p: Primitives, seed: Long64, x: int, y: int, z: int, density: real, b: Block)
    requires density == DensityAt(p, GeneratorSettings(seed), x, y, z)
    requires density > 0.0 ==> b == RockAt(p, seed, x, y, z)
    requires density <= 0.0 ==> b == Air
    ensures ColumnBlock(p, seed, x, y, z) == b
  {
  }

  /** A column read off the generator's world is the base column. */
  lemma WorldColumnIsBaseColumn(world: (int, int, int) -> Block, p: Primitives, seed: Long64, x: int, z: int,
                                minBuildHeight: int, column: seq<Block>)
    requires IsBaseWorld(world, p, seed)
    requires forall i :: 0 <= i < |column| ==> column[i] == world(x, minBuildHeight + i, z)
    ensures forall i :: 0 <= i < |column| ==> column[i] == ColumnBlock(p, seed, x, minBuildHeight + i, z)
  {
  }
}
