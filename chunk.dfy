/**
 * One chunk of the voxel world (src/core/world/Chunk.cpp): a 16 x 48 x 16
 * grid of blocks stored flat, its world offset, its four neighbour links,
 * its mesh and its `dirty` flag, with the lookups and bounds queries on it.
 * Neighbour links are indices into the arena of all chunks (see Arena).
 */
module Chunks {
  import opened Wrappers
  import opened Definitions
  import opened Blocks

  /** World offset of a chunk's block (0, 0, 0) along x and z. */
  datatype Offset = Offset(x: int, z: int)

  /** The four non-owning neighbour links, as arena indices. */
  datatype Links = Links(front: Option<nat>, back: Option<nat>, left: Option<nat>, right: Option<nat>)

  const NoLinks: Links := Links(None, None, None, None)

  /**
   * A mesh vertex: its position in half-block units (twice the world
   * coordinate, so that block corners are whole numbers), its face normal,
   * its texture coordinate (u, v), its ambient-occlusion factor and its
   * texture layer.
   */
  datatype Vertex = Vertex(position: Pos, normal: Pos, u: nat, v: nat, occlusion: real, textureIndex: nat)

  /** A mesh: its vertex list and its triangle index list. */
  datatype Mesh = Mesh(vertices: seq<Vertex>, indices: seq<nat>)

  datatype Chunk = Chunk(blocks: seq<Block>, mesh: Option<Mesh>, offset: Offset, links: Links, dirty: bool)

  /** The exceptions chunk operations throw. */
  datatype ChunkError = OutOfBounds | NoiseSizeMismatch | NeighbourCountMismatch | MeshExists

  ghost predicate WellFormed(ch: Chunk)
  {
    |ch.blocks| == Volume
  }

  /** A local index inside the 16 x 48 x 16 grid. */
  predicate InBounds(l: Pos)
  {
    0 <= l.x < ChunkSize && 0 <= l.y < ChunkHeight && 0 <= l.z < ChunkSize
  }

  /** Flat position of local index `l`: x * SIZE * HEIGHT + y * SIZE + z. */
  function Index(l: Pos): (i: nat)
    requires InBounds(l)
    ensures i < Volume
  {
    l.x * (ChunkSize * ChunkHeight) + l.y * ChunkSize + l.z
  }

  /** The local index stored at flat position `i`. */
  function LocalOf(i: int): (l: Pos)
    requires 0 <= i < Volume
    ensures InBounds(l) && Index(l) == i
  {
    Pos(i / (ChunkSize * ChunkHeight), (i / ChunkSize) % ChunkHeight, i % ChunkSize)
  }

  /** Index is a bijection from in-bounds local indices onto [0, Volume). */
  lemma IndexBijection(l: Pos)
    requires InBounds(l)
    ensures LocalOf(Index(l)) == l
  {
    var i := Index(l);
    assert i / 768 == l.x;
    assert i % 768 == l.y * 16 + l.z;
    assert i / 16 == l.x * 48 + l.y;
  }

  /** The default constructor: Volume inactive default blocks, no mesh, offset 0, no links. */
  function NewChunk(): (ch: Chunk)
    ensures WellFormed(ch)
    ensures forall i :: 0 <= i < Volume ==> !ch.blocks[i].IsActive() && ch.blocks[i].GetData() == DefaultData
    ensures ch.mesh == None && ch.offset == Offset(0, 0) && ch.links == NoLinks && !ch.dirty
  {
    Chunk(seq(Volume, _ => Air), None, Offset(0, 0), NoLinks, false)
  }

  /** The world position of local index `l`. */
  function WorldPos(ch: Chunk, l: Pos): Pos
  {
    Pos(l.x + ch.offset.x, l.y, l.z + ch.offset.z)
  }

  /** `GetBlockIndex`: world position to local index (round is the identity on whole blocks). */
  function GetBlockIndex(ch: Chunk, p: Pos): (l: Pos)
    ensures WorldPos(ch, l) == p
  {
    Pos(p.x - ch.offset.x, p.y, p.z - ch.offset.z)
  }

  /** World position and local index are inverse to each other. */
  lemma LocalWorldInverse(ch: Chunk, l: Pos)
    ensures GetBlockIndex(ch, WorldPos(ch, l)) == l
  {
  }

  /** `operator()` / `GetBlock`: the block at an in-bounds local index. */
  function GetBlock(ch: Chunk, l: Pos): (b: Block)
    requires WellFormed(ch) && InBounds(l)
    ensures b == ch.blocks[Index(l)]
  {
    ch.blocks[Index(l)]
  }

  /** `GetBlockActual`: the block at a world position, or "Block out of bounds". */
  function GetBlockActual(ch: Chunk, p: Pos): (r: Result<Block, ChunkError>)
    requires WellFormed(ch)
    ensures r.Err? <==> !InBounds(GetBlockIndex(ch, p))
    ensures r.Err? ==> r.error == OutOfBounds
    ensures r.Ok? ==> r.value == ch.blocks[Index(GetBlockIndex(ch, p))]
  {
    var l := GetBlockIndex(ch, p);
    if !InBounds(l) then Err(OutOfBounds) else Ok(GetBlock(ch, l))
  }

  /** The answer of `CheckBlockExists` with both out-parameters. */
  datatype Existence = Existence(found: bool, blockPos: Pos, outOfBounds: bool)

  /**
   * `CheckBlockExists(x, y, z, blockPos, outOfBounds)`: whether an active
   * block sits at `p`, the snapped block centre, and whether `p` is outside
   * this chunk.
   */
  function CheckBlockExists(ch: Chunk, p: Pos): (r: Existence)
    requires WellFormed(ch)
    ensures r.found <==> InBounds(GetBlockIndex(ch, p)) && ch.blocks[Index(GetBlockIndex(ch, p))].IsActive()
    ensures r.outOfBounds <==> !InBounds(GetBlockIndex(ch, p))
    ensures r.blockPos == p
  {
    var l := GetBlockIndex(ch, p);
    var centre := WorldPos(ch, l);
    if InBounds(l) then Existence(GetBlock(ch, l).IsActive(), centre, false)
    else Existence(false, centre, true)
  }

  /** `CheckBlockIsInChunk`: whether world position `p` falls inside this chunk. */
  function CheckBlockIsInChunk(ch: Chunk, p: Pos): (r: bool)
    ensures r <==> exists l :: InBounds(l) && WorldPos(ch, l) == p
  {
    var l := GetBlockIndex(ch, p);
    assert InBounds(l) ==> WorldPos(ch, l) == p;
    InBounds(l)
  }

  /** `CheckBlockExistsByIndex`: whether local index `l` holds an active block. */
  function CheckBlockExistsByIndex(ch: Chunk, l: Pos): (r: bool)
    requires WellFormed(ch)
    ensures r <==> InBounds(l) && ch.blocks[Index(l)].IsActive()
  {
    InBounds(l) && GetBlock(ch, l).IsActive()
  }
}
