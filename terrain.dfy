/**
 * Terrain generation inside one chunk (Chunk::InitTerrain, InitBlocks and
 * the grass pass of InitEnvironment in src/core/world/Chunk.cpp): carving
 * the block grid from a noise column layout and choosing materials by
 * height.
 */
module Terrain {
  import opened Wrappers
  import opened Definitions
  import opened Blocks
  import opened Chunks

  /**
   * Position of local index `l` in a chunk's noise slice: x * SIZE * HEIGHT
   * + z * HEIGHT + y. It differs from the block layout (y and z swapped) and
   * is the order in which InitTerrain visits the blocks.
   */
  function NoiseIndex(l: Pos): (i: nat)
    requires InBounds(l)
    ensures i < Volume
  {
    l.x * (ChunkSize * ChunkHeight) + l.z * ChunkHeight + l.y
  }

  /** The local index whose noise sits at slice position `i`. */
  function NoiseLocal(i: int): (l: Pos)
    requires 0 <= i < Volume
    ensures InBounds(l) && NoiseIndex(l) == i
  {
    Pos(i / (ChunkSize * ChunkHeight), i % ChunkHeight, (i / ChunkHeight) % ChunkSize)
  }

  /** NoiseIndex is a bijection from in-bounds local indices onto [0, Volume). */
  lemma NoiseIndexBijection(l: Pos)
    requires InBounds(l)
    ensures NoiseLocal(NoiseIndex(l)) == l
  {
    var i := NoiseIndex(l);
    assert i / 768 == l.x;
    assert i % 768 == l.z * 48 + l.y;
    assert i / 48 == l.x * 16 + l.z;
  }

  /** The material id InitBlocks gives a block at height `y`. */
  function Band(y: int): (id: int)
    ensures id == Bedrock || id == Stone || id == Sandstone || id == Dirt
    ensures id == Bedrock <==> y <= ChunkMinHeight
    ensures id == Stone <==> ChunkMinHeight < y <= 5
    ensures id == Sandstone <==> 5 < y <= ChunkSurfaceHeight
    ensures id == Dirt <==> y > ChunkSurfaceHeight
  {
    if y <= ChunkMinHeight then Bedrock
    else if y <= 5 then Stone
    else if y <= ChunkSurfaceHeight then Sandstone
    else Dirt
  }

  /** InitBlocks: give `b` the material of its height band; the flag is kept. */
  function InitBlocks(y: int, b: Block, table: MaterialTable): (r: Block)
    requires HasWorldMaterials(table)
    ensures r.IsActive() == b.IsActive() && r.GetData() == table[Band(y)]
  {
    b.SetData(table[Band(y)])
  }

  /** The noise test above the bedrock: strictly positive (3D) or non-zero (2D). */
  predicate Accepts(n: real, is3D: bool)
  {
    if is3D then n > 0.0 else n != 0.0
  }

  /**
   * One block of InitTerrain: bedrock layers and accepted noise activate the
   * block with its band's material; otherwise the block is left as it was.
   */
  function Carve(b: Block, y: int, n: real, is3D: bool, table: MaterialTable): (r: Block)
    requires HasWorldMaterials(table)
    ensures b.IsActive() ==> r.IsActive()
    ensures r.IsActive() <==> b.IsActive() || y < ChunkMinHeight || Accepts(n, is3D)
    ensures y < ChunkMinHeight || Accepts(n, is3D) ==> r == Block(table[Band(y)], true)
    ensures !(y < ChunkMinHeight || Accepts(n, is3D)) ==> r == b
  {
    if y < ChunkMinHeight || Accepts(n, is3D) then InitBlocks(y, b.SetActive(true), table) else b
  }

  /** The block grid InitTerrain leaves: every block carved with the noise at its slice position. */
  function TerrainBlocks(blocks: seq<Block>, noise: seq<real>, is3D: bool, table: MaterialTable): (r: seq<Block>)
    requires |blocks| == Volume && |noise| == Volume && HasWorldMaterials(table)
    ensures |r| == Volume
  {
    seq(Volume, i requires 0 <= i < Volume =>
      Carve(blocks[i], LocalOf(i).y, noise[NoiseIndex(LocalOf(i))], is3D, table))
  }

  /**
   * What InitTerrain promises about every block: it is never deactivated,
   * the two bottom layers are always active, above them a block becomes
   * active iff the noise at its slice position passes the test, and every
   * block it activates gets the material of its height band.
   */
  lemma TerrainLayout(blocks: seq<Block>, noise: seq<real>, is3D: bool, table: MaterialTable, l: Pos)
    requires |blocks| == Volume && |noise| == Volume && HasWorldMaterials(table) && InBounds(l)
    ensures var before := blocks[Index(l)];
      var after := TerrainBlocks(blocks, noise, is3D, table)[Index(l)];
      (before.IsActive() ==> after.IsActive()) &&
      (l.y < ChunkMinHeight ==> after.IsActive()) &&
      (l.y >= ChunkMinHeight && !before.IsActive() ==> (after.IsActive() <==> Accepts(noise[NoiseIndex(l)], is3D))) &&
      (after != before ==> after == Block(table[Band(l.y)], true))
  {
    IndexBijection(l);
  }

  /**
   * The blocks a column-by-column pass has reached so far: those whose slice
   * position is below `k` already hold their `target` value, the rest still
   * hold their `orig` value.
   */
  ghost predicate DoneUpTo(r: seq<Block>, orig: seq<Block>, target: seq<Block>, k: int)
    requires |r| == Volume && |orig| == Volume && |target| == Volume
  {
    forall j :: 0 <= j < Volume ==> r[j] == if NoiseIndex(LocalOf(j)) < k then target[j] else orig[j]
  }

  /** Visiting the block at slice position `k` advances the pass by one. */
  lemma DoneStep(r: seq<Block>, orig: seq<Block>, target: seq<Block>, l: Pos)
    requires |r| == Volume && |orig| == Volume && |target| == Volume && InBounds(l)
    requires DoneUpTo(r, orig, target, NoiseIndex(l))
    ensures r[Index(l)] == orig[Index(l)] && LocalOf(Index(l)) == l
    ensures DoneUpTo(r[Index(l) := target[Index(l)]], orig, target, NoiseIndex(l) + 1)
  {
    IndexBijection(l);
    forall j | 0 <= j < Volume && NoiseIndex(LocalOf(j)) == NoiseIndex(l)
      ensures j == Index(l)
    {
      NoiseIndexBijection(LocalOf(j));
      NoiseIndexBijection(l);
    }
  }

  /** A pass that has reached the end of the slice has produced its target. */
  lemma DoneAll(r: seq<Block>, orig: seq<Block>, target: seq<Block>)
    requires |r| == Volume && |orig| == Volume && |target| == Volume
    requires DoneUpTo(r, orig, target, Volume)
    ensures r == target
  {
  }

  /**
   * Chunk::InitTerrain: check the noise slice and the neighbour list, store
   * the neighbours (front, back, left, right) and the offset, then carve
   * every column.
   */
  method InitTerrain(world: array<Chunk>, c: nat, offset: Offset, noise: seq<real>, nbs: seq<Option<nat>>,
                     is3D: bool, table: MaterialTable) returns (r: Outcome<ChunkError>)
    requires c < world.Length && WellFormed(world[c]) && HasWorldMaterials(table)
    modifies world
    ensures |noise| != Volume ==> r == Fail(NoiseSizeMismatch) && world[..] == old(world[..])
    ensures |noise| == Volume && |nbs| != 4 ==> r == Fail(NeighbourCountMismatch) && world[..] == old(world[..])
    ensures |noise| == Volume && |nbs| == 4 ==>
      r == Pass &&
      world[..] == old(world[..])[c := old(world[c]).(
        links := Links(nbs[0], nbs[1], nbs[2], nbs[3]),
        offset := offset,
        blocks := TerrainBlocks(old(world[c].blocks), noise, is3D, table))]
  {
    if |noise| != Volume {
      return Fail(NoiseSizeMismatch);
    }
    if |nbs| != 4 {
      return Fail(NeighbourCountMismatch);
    }
    var ch := world[c].(links := Links(nbs[0], nbs[1], nbs[2], nbs[3]), offset := offset);
    var blocks := ch.blocks;
    ghost var target := TerrainBlocks(blocks, noise, is3D, table);
    var x := 0;
    while x < ChunkSize
      invariant 0 <= x <= ChunkSize && |blocks| == Volume
      invariant DoneUpTo(blocks, ch.blocks, target, x * 768)
      invariant world[..] == old(world[..])
    {
      var z := 0;
      while z < ChunkSize
        invariant 0 <= z <= ChunkSize && |blocks| == Volume
        invariant DoneUpTo(blocks, ch.blocks, target, x * 768 + z * 48)
        invariant world[..] == old(world[..])
      {
        blocks := CarveColumn(blocks, x, z, noise, is3D, table, ch.blocks);
        z := z + 1;
      }
      x := x + 1;
    }
    DoneAll(blocks, ch.blocks, target);
    world[c] := ch.(blocks := blocks);
    r := Pass;
  }

  /** The innermost loop of InitTerrain: carve column (x, z) from y = 0 upwards. */
  method CarveColumn(blocks: seq<Block>, x: int, z: int, noise: seq<real>, is3D: bool, table: MaterialTable,
                     ghost orig: seq<Block>) returns (r: seq<Block>)
    requires 0 <= x < ChunkSize && 0 <= z < ChunkSize
    requires |blocks| == Volume && |orig| == Volume && |noise| == Volume && HasWorldMaterials(table)
    requires DoneUpTo(blocks, orig, TerrainBlocks(orig, noise, is3D, table), x * 768 + z * 48)
    ensures |r| == Volume
    ensures DoneUpTo(r, orig, TerrainBlocks(orig, noise, is3D, table), x * 768 + z * 48 + 48)
  {
    ghost var target := TerrainBlocks(orig, noise, is3D, table);
    r := blocks;
    var y := 0;
    while y < ChunkHeight
      invariant 0 <= y <= ChunkHeight && |r| == Volume
      invariant DoneUpTo(r, orig, target, x * 768 + z * 48 + y)
    {
      var n := noise[x * (ChunkSize * ChunkHeight) + z * ChunkHeight + y];
      var l := Pos(x, y, z);
      var i := Index(l);
      DoneStep(r, orig, target, l);
      ghost var next := r[i := target[i]];
      if y < ChunkMinHeight {
        r := r[i := InitBlocks(y, r[i].SetActive(true), table)];
      } else if is3D {
        if n > 0.0 {
          r := r[i := InitBlocks(y, r[i].SetActive(true), table)];
        }
      } else {
        if n != 0.0 {
          r := r[i := InitBlocks(y, r[i].SetActive(true), table)];
        }
      }
      assert r == next;
      y := y + 1;
    }
  }

  /** Slice positions x * 768 + z * 48 + y' with y' below `y` all lie in column (x, z), under height `y`. */
  lemma InColumn(l: Pos, x: int, z: int, y: int)
    requires InBounds(l) && 0 <= x < ChunkSize && 0 <= z < ChunkSize && 0 <= y <= ChunkHeight
    requires x * 768 + z * 48 <= NoiseIndex(l) < x * 768 + z * 48 + y
    ensures l == Pos(x, NoiseIndex(l) - x * 768 - z * 48, z) && l.y < y
  {
    NoiseIndexBijection(l);
    NoiseIndexBijection(Pos(x, NoiseIndex(l) - x * 768 - z * 48, z));
  }

  /**
   * The grass rule for one block: an active dirt block at or above the
   * surface height whose upper neighbour is inactive, or which sits in the
   * top layer, takes the grass material.
   */
  predicate TurnsToGrass(blocks: seq<Block>, l: Pos)
    requires |blocks| == Volume && InBounds(l)
  {
    var b := blocks[Index(l)];
    l.y >= ChunkSurfaceHeight && b.GetData().id == Dirt && b.IsActive() &&
    (l.y + 1 == ChunkHeight || !blocks[Index(Pos(l.x, l.y + 1, l.z))].IsActive())
  }

  /** The block grid after the grass pass of InitEnvironment. */
  function GrassBlocks(blocks: seq<Block>, table: MaterialTable): (r: seq<Block>)
    requires |blocks| == Volume && HasWorldMaterials(table)
    ensures |r| == Volume
  {
    seq(Volume, i requires 0 <= i < Volume =>
      if TurnsToGrass(blocks, LocalOf(i)) then blocks[i].SetData(table[Grass]) else blocks[i])
  }

  /**
   * The grass pass changes only materials, only of blocks the rule selects,
   * and only to grass: every activity flag is kept, and every block is
   * either unchanged or an active block now holding the grass material.
   */
  lemma GrassOnlyRetextures(blocks: seq<Block>, table: MaterialTable, l: Pos)
    requires |blocks| == Volume && HasWorldMaterials(table) && InBounds(l)
    ensures var after := GrassBlocks(blocks, table)[Index(l)];
      after.IsActive() == blocks[Index(l)].IsActive() &&
      (after != blocks[Index(l)] <==> TurnsToGrass(blocks, l) && blocks[Index(l)].GetData() != table[Grass]) &&
      (TurnsToGrass(blocks, l) ==> after.GetData() == table[Grass])
  {
    IndexBijection(l);
  }

  /**
   * The grass pass of InitEnvironment: every column from the surface height
   * up, replacing exposed dirt with grass.
   */
  method GrowGrass(world: array<Chunk>, c: nat, table: MaterialTable)
    requires c < world.Length && WellFormed(world[c]) && HasWorldMaterials(table)
    modifies world
    ensures world[..] == old(world[..])[c := old(world[c]).(blocks := GrassBlocks(old(world[c].blocks), table))]
  {
    var blocks := world[c].blocks;
    ghost var orig := blocks;
    ghost var target := GrassBlocks(blocks, table);
    var x := 0;
    while x < ChunkSize
      invariant 0 <= x <= ChunkSize && |blocks| == Volume
      invariant DoneUpTo(blocks, orig, target, x * 768)
      invariant world[..] == old(world[..])
    {
      var z := 0;
      while z < ChunkSize
        invariant 0 <= z <= ChunkSize && |blocks| == Volume
        invariant DoneUpTo(blocks, orig, target, x * 768 + z * 48)
        invariant world[..] == old(world[..])
      {
        blocks := GrassColumn(blocks, x, z, table, orig);
        z := z + 1;
      }
      x := x + 1;
    }
    DoneAll(blocks, orig, target);
    world[c] := world[c].(blocks := blocks);
  }

  /** The innermost loop of the grass pass: column (x, z) from the surface height upwards. */
  method GrassColumn(blocks: seq<Block>, x: int, z: int, table: MaterialTable, ghost orig: seq<Block>)
    returns (r: seq<Block>)
    requires 0 <= x < ChunkSize && 0 <= z < ChunkSize
    requires |blocks| == Volume && |orig| == Volume && HasWorldMaterials(table)
    requires DoneUpTo(blocks, orig, GrassBlocks(orig, table), x * 768 + z * 48)
    ensures |r| == Volume
    ensures DoneUpTo(r, orig, GrassBlocks(orig, table), x * 768 + z * 48 + 48)
  {
    ghost var target := GrassBlocks(orig, table);
    r := blocks;
    forall j | 0 <= j < Volume && x * 768 + z * 48 <= NoiseIndex(LocalOf(j)) < x * 768 + z * 48 + ChunkSurfaceHeight
      ensures target[j] == orig[j]
    {
      InColumn(LocalOf(j), x, z, ChunkSurfaceHeight);
    }
    var y := ChunkSurfaceHeight;
    while y < ChunkHeight
      invariant ChunkSurfaceHeight <= y <= ChunkHeight && |r| == Volume
      invariant DoneUpTo(r, orig, target, x * 768 + z * 48 + y)
    {
      var l := Pos(x, y, z);
      var i := Index(l);
      DoneStep(r, orig, target, l);
      ghost var next := r[i := target[i]];
      if y + 1 < ChunkHeight {
        var above := Pos(x, y + 1, z);
        IndexBijection(above);
        assert NoiseIndex(above) == NoiseIndex(l) + 1;
        assert r[Index(above)] == orig[Index(above)];
      }
      var block := r[i];
      if block.GetData().id == Dirt {
        if block.IsActive() && y + 1 <= ChunkHeight {
          if y + 1 == ChunkHeight {
            r := r[i := block.SetData(table[Grass])];
          } else if !r[Index(Pos(x, y + 1, z))].IsActive() {
            r := r[i := block.SetData(table[Grass])];
          }
        }
      }
      assert r == next;
      y := y + 1;
    }
  }
}
