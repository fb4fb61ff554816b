/**
 * Where block materials come from: world generation only ever gives an
 * active block a material looked up in the block table (InitBlocks, the
 * grass pass, AddBlock with a table id). With a loaded table that gives
 * every material six texture layers, every active block can then be drawn
 * by CreateBlockData.
 */
module Stock {
  import opened Definitions
  import opened Blocks
  import opened Chunks
  import opened Arena
  import opened Edits
  import opened Terrain
  import opened Trees
  import opened Meshing

  /** A material the table holds under its own id. */
  predicate FromTable(d: BlockData, table: MaterialTable)
  {
    d.id in table && table[d.id] == d
  }

  /** Every active block carries a material of the table. */
  ghost predicate StockedBlocks(blocks: seq<Block>, table: MaterialTable)
  {
    forall i :: 0 <= i < |blocks| && blocks[i].IsActive() ==> FromTable(blocks[i].GetData(), table)
  }

  ghost predicate Stocked(world: seq<Chunk>, table: MaterialTable)
  {
    forall j :: 0 <= j < |world| ==> StockedBlocks(world[j].blocks, table)
  }

  /** A chunk of table materials can be meshed: every active block has its six texture layers. */
  lemma StockedIsTextured(ch: Chunk, table: MaterialTable)
    requires ValidTable(table) && StockedBlocks(ch.blocks, table)
    ensures Textured(ch)
  {
    forall i | 0 <= i < |ch.blocks| && ch.blocks[i].IsActive()
      ensures |ch.blocks[i].GetData().textureIds| >= 6
    {
      assert FromTable(ch.blocks[i].GetData(), table);
    }
  }

  /** A default-constructed chunk has no active block, so it holds only table materials. */
  lemma NewChunkStocked(table: MaterialTable)
    ensures StockedBlocks(NewChunk().blocks, table)
  {
    var ch := NewChunk();
    forall i | 0 <= i < |ch.blocks|
      ensures !ch.blocks[i].IsActive()
    {
    }
  }

  /** InitTerrain activates blocks only with the material of their height band. */
  lemma TerrainStocked(blocks: seq<Block>, noise: seq<real>, is3D: bool, table: MaterialTable)
    requires |blocks| == Volume && |noise| == Volume && HasWorldMaterials(table) && ValidTable(table)
    requires StockedBlocks(blocks, table)
    ensures StockedBlocks(TerrainBlocks(blocks, noise, is3D, table), table)
  {
    var r := TerrainBlocks(blocks, noise, is3D, table);
    forall i | 0 <= i < Volume && r[i].IsActive()
      ensures FromTable(r[i].GetData(), table)
    {
      var l := LocalOf(i);
      IndexBijection(l);
      TerrainLayout(blocks, noise, is3D, table, l);
      if r[i] != blocks[i] {
        assert r[i].GetData() == table[Band(l.y)];
      }
    }
  }

  /** The grass pass gives blocks only the grass material of the table. */
  lemma GrassStocked(blocks: seq<Block>, table: MaterialTable)
    requires |blocks| == Volume && HasWorldMaterials(table) && ValidTable(table)
    requires StockedBlocks(blocks, table)
    ensures StockedBlocks(GrassBlocks(blocks, table), table)
  {
    var r := GrassBlocks(blocks, table);
    forall i | 0 <= i < Volume && r[i].IsActive()
      ensures FromTable(r[i].GetData(), table)
    {
      var l := LocalOf(i);
      IndexBijection(l);
      GrassOnlyRetextures(blocks, table, l);
    }
  }

  /** AddBlock places only the table material of the id it is given, in whichever chunk it lands. */
  lemma AddBlockStocked(world: seq<Chunk>, k: nat, p: Pos, id: int, table: MaterialTable)
    requires WorldOk(world) && k < |world| && id in table && ValidTable(table)
    requires Stocked(world, table)
    ensures Stocked(AddBlockSpec(world, k, p, id, table).1, table)
  {
    var w := AddBlockSpec(world, k, p, id, table).1;
    AddBlockEffect(world, k, p, id, table);
    var r := Resolve(world, k, p);
    assert FromTable(table[id], table);
    forall j | 0 <= j < |w|
      ensures StockedBlocks(w[j].blocks, table)
    {
      assert StockedBlocks(world[j].blocks, table);
    }
  }

  /** AddBlocks with table ids keeps every active block a table material. */
  lemma {:induction false} AddBlocksStocked(world: seq<Chunk>, k: nat, ps: seq<Pos>, ids: seq<int>, table: MaterialTable)
    requires WorldOk(world) && k < |world| && |ps| == |ids| && ValidTable(table)
    requires forall i :: 0 <= i < |ids| ==> ids[i] in table
    requires Stocked(world, table)
    ensures Stocked(AddBlocksSpec(world, k, ps, ids, table).1, table)
    decreases |ps|
  {
    if |ps| > 0 {
      var n := |ps| - 1;
      var before := AddBlocksSpec(world, k, ps[..n], ids[..n], table);
      AddBlocksStocked(world, k, ps[..n], ids[..n], table);
      SameLayoutKeepsOk(world, before.1);
      AddBlockStocked(before.1, k, ps[n], ids[n], table);
    }
  }

  /** Planting a tree adds only logs and leaves from the table. */
  lemma PlantStocked(world: seq<Chunk>, k: nat, s: Sample, table: MaterialTable)
    requires WorldOk(world) && k < |world| && InRegion(s) && HasWorldMaterials(table) && ValidTable(table)
    requires Stocked(world, table)
    ensures Stocked(PlantSpec(world, k, s, table), table)
  {
    match FirstSite(world[k], s, 10)
    case None =>
    case Some(y) =>
      var root := RootAt(world[k], s, y);
      TreeIdsInTable(root, s.trunkHeight, table);
      AddBlocksStocked(world, k, TreePositions(root, s.trunkHeight), TreeIds(root, s.trunkHeight), table);
  }

  /** SpawnTrees keeps every active block, in every chunk, a table material. */
  lemma {:induction false} SpawnStocked(world: seq<Chunk>, k: nat, samples: seq<Sample>, table: MaterialTable)
    requires WorldOk(world) && k < |world| && HasWorldMaterials(table) && ValidTable(table)
    requires forall i :: 0 <= i < |samples| ==> InRegion(samples[i])
    requires Stocked(world, table)
    ensures Stocked(SpawnSpec(world, k, samples, table), table)
    decreases |samples|
  {
    if |samples| > 0 {
      var n := |samples| - 1;
      var before := SpawnSpec(world, k, samples[..n], table);
      SpawnStocked(world, k, samples[..n], table);
      SameLayoutKeepsOk(world, before);
      PlantStocked(before, k, samples[n], table);
    }
  }

  /** InitEnvironment (grass, then trees, then clean) keeps every active block a table material. */
  lemma EnvironmentStocked(world: seq<Chunk>, k: nat, samples: seq<Sample>, table: MaterialTable)
    requires WorldOk(world) && k < |world| && HasWorldMaterials(table) && ValidTable(table)
    requires forall i :: 0 <= i < |samples| ==> InRegion(samples[i])
    requires Stocked(world, table)
    ensures Stocked(EnvironmentSpec(world, k, samples, table), table)
  {
    var grassed := world[k := world[k].(blocks := GrassBlocks(world[k].blocks, table))];
    assert SameLayout(world, grassed);
    SameLayoutKeepsOk(world, grassed);
    GrassStocked(world[k].blocks, table);
    assert Stocked(grassed, table);
    SpawnStocked(grassed, k, samples, table);
  }
}
