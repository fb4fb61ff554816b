/**
 * World constants and the material table (include/GlobalDefinition.h and
 * include/core/ResourceHelper.h). Block positions are whole block
 * coordinates: with BLOCK_SIZE * 2 == 1 a world position and a block centre
 * coincide, so the engine's `round(world - offset)` is the identity on them.
 */
module Definitions {

  /** Blocks along x and z of one chunk. */
  const ChunkSize: int := 16
  /** Blocks along y of one chunk. */
  const ChunkHeight: int := 48
  /** Layers below this height are always solid (bedrock). */
  const ChunkMinHeight: int := 2
  /** Upper bound of the 3D noise band: CHUNK_HEIGHT / 3. */
  const ChunkMaxHeight: int := 16
  /** Lowest layer the grass pass looks at. */
  const ChunkSurfaceHeight: int := 10
  /** Chunks along x and z of the map. */
  const MapSize: int := 16
  /** Number of blocks in one chunk. */
  const Volume: int := 12288

  /** A whole-block position in world or chunk-local coordinates. */
  datatype Pos = Pos(x: int, y: int, z: int)
  {
    function Plus(d: Pos): Pos { Pos(x + d.x, y + d.y, z + d.z) }
    function Minus(d: Pos): Pos { Pos(x - d.x, y - d.y, z - d.z) }
  }

  /**
   * The material of a block: its id, one texture layer per face (front,
   * back, right, left, top, bottom) and whether it hides faces touching it.
   * Names and texture paths are left out.
   */
  datatype BlockData = BlockData(id: int, textureIds: seq<nat>, shouldCullFace: bool)

  /** A default-constructed BlockData: "air", id -1, no textures, culling. */
  const DefaultData: BlockData := BlockData(-1, [], true)

  /** Material ids of the shipped block list. */
  const Bedrock: int := 0
  const Stone: int := 1
  const Sandstone: int := 2
  const Sand: int := 3
  const Dirt: int := 4
  const Grass: int := 5
  const Log: int := 6
  const Leaves: int := 7
  const Water: int := 8

  /** The loaded block table, keyed by material id. */
  type MaterialTable = map<int, BlockData>

  /**
   * What the loader guarantees: every entry is stored under its own id and
   * carries at least six texture layers (short lists are padded by repeating
   * the last layer).
   */
  ghost predicate ValidTable(table: MaterialTable)
  {
    forall id :: id in table ==> table[id].id == id && |table[id].textureIds| >= 6
  }

  /** The materials world generation looks up with `blockData.at(..)`. */
  ghost predicate HasWorldMaterials(table: MaterialTable)
  {
    {Bedrock, Stone, Sandstone, Dirt, Grass, Log, Leaves} <= table.Keys
  }
}
