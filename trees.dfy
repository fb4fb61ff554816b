/**
 * Trees (Chunk::CreateTree and Chunk::SpawnTrees in
 * src/core/world/Chunk.cpp): a trunk of log blocks under a four-layer leaf
 * canopy that narrows towards the top, planted through AddBlocks at the
 * lowest free spot above sampled columns.
 */
module Trees {
  import opened Wrappers
  import opened Definitions
  import opened Blocks
  import opened Chunks
  import opened Arena
  import opened Edits
  import opened Terrain

  function Abs(v: int): nat
  {
    if v < 0 then -v else v
  }

  /** Half-width of canopy layer `j`, counted from the layer at trunk height - 1. */
  function Width(j: int): int
  {
    if j <= 1 then 3 else if j == 2 then 2 else 1
  }

  /** A leaf of a layer of half-width `w`: inside the square, but not on one of its four corners. */
  predicate KeepLeaf(dx: int, dz: int, w: int)
  {
    Abs(dx) <= w && Abs(dz) <= w && !(Abs(dx) == w && Abs(dz) == w)
  }

  /** The leaves of row `x` of a canopy layer at height offset `dy`: cells z = -3 .. m - 4 of the 7 x 7 grid. */
  function RowCells(root: Pos, dy: int, w: int, x: int, m: nat): seq<Pos>
    requires m <= 7
  {
    if m == 0 then []
    else RowCells(root, dy, w, x, m - 1) + (if KeepLeaf(x, m - 4, w) then [root.Plus(Pos(x, dy, m - 4))] else [])
  }

  /** The leaves of rows x = -3 .. r - 4 of a canopy layer, x-major as the loops visit them. */
  function LayerCells(root: Pos, dy: int, w: int, r: nat): seq<Pos>
    requires r <= 7
  {
    if r == 0 then [] else LayerCells(root, dy, w, r - 1) + RowCells(root, dy, w, r - 4, 7)
  }

  /** The first `m` canopy layers of a tree with trunk height `th`, from trunk height - 1 up. */
  function Canopy(root: Pos, th: int, m: nat): seq<Pos>
    requires m <= 4
  {
    if m == 0 then [] else Canopy(root, th, m - 1) + LayerCells(root, th - 1 + (m - 1), Width(m - 1), 7)
  }

  /** The trunk: `th` blocks straight up from the root, cut off above the chunk height. */
  function Trunk(root: Pos, th: int): seq<Pos>
  {
    var n := if th <= 0 || root.y > ChunkHeight then 0
             else if th <= ChunkHeight + 1 - root.y then th else ChunkHeight + 1 - root.y;
    seq(n, i => root.Plus(Pos(0, i, 0)))
  }

  /** The positions CreateTree hands to AddBlocks: the trunk, then the canopy layer by layer. */
  function TreePositions(root: Pos, th: int): seq<Pos>
  {
    Trunk(root, th) + Canopy(root, th, 4)
  }

  /** The matching material ids: logs for the trunk, leaves for the canopy. */
  function TreeIds(root: Pos, th: int): (ids: seq<int>)
    ensures |ids| == |TreePositions(root, th)|
    ensures forall i :: 0 <= i < |ids| ==> ids[i] == if i < |Trunk(root, th)| then Log else Leaves
  {
    seq(|TreePositions(root, th)|, i => if i < |Trunk(root, th)| then Log else Leaves)
  }

  /** A leaf position of the canopy, described directly by its offsets from the root. */
  predicate CanopyCell(root: Pos, th: int, p: Pos)
  {
    var j := p.y - root.y - (th - 1);
    0 <= j < 4 && KeepLeaf(p.x - root.x, p.z - root.z, Width(j))
  }

  /** The trunk is the column above the root: `th` blocks high, none above the chunk height. */
  lemma TrunkShape(root: Pos, th: int, p: Pos)
    ensures p in Trunk(root, th) <==>
      p.x == root.x && p.z == root.z && root.y <= p.y < root.y + th && p.y <= ChunkHeight
  {
    if p.x == root.x && p.z == root.z && root.y <= p.y < root.y + th && p.y <= ChunkHeight {
      assert Trunk(root, th)[p.y - root.y] == p;
    }
  }

  lemma {:induction false} RowShape(root: Pos, dy: int, w: int, x: int, m: nat, p: Pos)
    requires m <= 7
    ensures p in RowCells(root, dy, w, x, m) <==>
      p.y == root.y + dy && p.x - root.x == x && -3 <= p.z - root.z < m - 3 && KeepLeaf(x, p.z - root.z, w)
  {
    if m > 0 {
      RowShape(root, dy, w, x, m - 1, p);
    }
  }

  lemma {:induction false} LayerShape(root: Pos, dy: int, w: int, r: nat, p: Pos)
    requires r <= 7
    ensures p in LayerCells(root, dy, w, r) <==>
      p.y == root.y + dy && -3 <= p.x - root.x < r - 3 && -3 <= p.z - root.z <= 3 &&
      KeepLeaf(p.x - root.x, p.z - root.z, w)
  {
    if r > 0 {
      LayerShape(root, dy, w, r - 1, p);
      RowShape(root, dy, w, r - 4, 7, p);
    }
  }

  lemma {:induction false} CanopyLayers(root: Pos, th: int, m: nat, p: Pos)
    requires m <= 4
    ensures p in Canopy(root, th, m) <==> CanopyCell(root, th, p) && p.y - root.y - (th - 1) < m
  {
    if m > 0 {
      CanopyLayers(root, th, m - 1, p);
      CanopyStep(root, th, m, p);
    }
  }

  /** Layer m - 1 adds exactly the kept cells at its own height. */
  lemma CanopyStep(root: Pos, th: int, m: nat, p: Pos)
    requires 1 <= m <= 4
    ensures p in Canopy(root, th, m) <==>
      p in Canopy(root, th, m - 1) || (p.y - root.y - (th - 1) == m - 1 && KeepLeaf(p.x - root.x, p.z - root.z, Width(m - 1)))
  {
    var dy, w := th - 1 + (m - 1), Width(m - 1);
    var layer := LayerCells(root, dy, w, 7);
    assert Canopy(root, th, m) == Canopy(root, th, m - 1) + layer;
    LayerShape(root, dy, w, 7, p);
    KeepLeafInGrid(p.x - root.x, p.z - root.z, w);
    assert p in layer <==> p.y - root.y - (th - 1) == m - 1 && KeepLeaf(p.x - root.x, p.z - root.z, w);
  }

  /** A kept cell of a layer no wider than the grid lies in the 7 x 7 grid. */
  lemma KeepLeafInGrid(dx: int, dz: int, w: int)
    requires w <= 3
    ensures KeepLeaf(dx, dz, w) ==> -3 <= dx <= 3 && -3 <= dz <= 3
  {
  }

  /**
   * The canopy CreateTree builds is exactly the four layers from trunk
   * height - 1 up: squares of half-width 3, 3, 2 and 1 around the trunk,
   * each without its four corners.
   */
  lemma CanopyShape(root: Pos, th: int, p: Pos)
    ensures p in Canopy(root, th, 4) <==> CanopyCell(root, th, p)
  {
    CanopyLayers(root, th, 4, p);
  }

  /**
   * Chunk::CreateTree: collect the trunk and canopy positions with their
   * ids and place them with AddBlocks. The trunk height (drawn at random in
   * 5..7 by SpawnTrees) is a parameter.
   */
  method CreateTree(world: array<Chunk>, k: nat, root: Pos, trunkHeight: int, table: MaterialTable)
    returns (ok: bool)
    requires WorldOk(world[..]) && k < world.Length && HasWorldMaterials(table)
    modifies world
    ensures (ok, world[..]) == AddBlocksSpec(old(world[..]), k, TreePositions(root, trunkHeight), TreeIds(root, trunkHeight), table)
  {
    var positions, ids := CollectTrunk(root, trunkHeight);
    positions, ids := CollectCanopy(positions, ids, root, trunkHeight);
    assert ids == TreeIds(root, trunkHeight);
    ok := AddBlocks(world, k, positions, ids, table);
  }

  /** The first loop of CreateTree: one log per trunk block that lies below the chunk top. */
  method CollectTrunk(root: Pos, trunkHeight: int) returns (positions: seq<Pos>, ids: seq<int>)
    ensures positions == Trunk(root, trunkHeight)
    ensures |ids| == |positions| && forall j :: 0 <= j < |ids| ==> ids[j] == Log
  {
    positions, ids := [], [];
    var i := 0;
    while i < trunkHeight
      invariant 0 <= i && (i <= trunkHeight || i == 0)
      invariant positions == Trunk(root, i)
      invariant |ids| == |positions| && forall j :: 0 <= j < |ids| ==> ids[j] == Log
    {
      if root.y + i <= ChunkHeight {
        positions := positions + [root.Plus(Pos(0, i, 0))];
        ids := ids + [Log];
      }
      i := i + 1;
    }
    assert positions == Trunk(root, trunkHeight);
  }

  /** The second loop of CreateTree: the four leaf layers from the trunk top up, trimmed as they rise. */
  method CollectCanopy(trunk: seq<Pos>, logs: seq<int>, root: Pos, trunkHeight: int)
    returns (positions: seq<Pos>, ids: seq<int>)
    requires |logs| == |trunk| && forall j :: 0 <= j < |logs| ==> logs[j] == Log
    ensures positions == trunk + Canopy(root, trunkHeight, 4)
    ensures |ids| == |positions| && forall j :: 0 <= j < |ids| ==> ids[j] == if j < |trunk| then Log else Leaves
  {
    positions, ids := trunk, logs;
    var canopySize := 3;
    var leafStart := trunkHeight - 1;
    var leafStop := trunkHeight + 2;
    var trim := canopySize;
    var trimStart := trunkHeight;
    var y := leafStart;
    while y <= leafStop
      invariant leafStart <= y <= leafStop + 1
      invariant y <= leafStop ==> trim == Width(y - leafStart)
      invariant positions == trunk + Canopy(root, trunkHeight, y - leafStart)
      invariant |ids| == |positions| && forall j :: 0 <= j < |ids| ==> ids[j] == if j < |trunk| then Log else Leaves
    {
      ghost var before := ids;
      positions, ids := LeafLayer(positions, ids, root, y, trim, y >= trimStart);
      assert forall j :: 0 <= j < |ids| ==> ids[j] == if j < |before| then before[j] else Leaves;
      trim := if y >= trimStart then trim - 1 else trim;
      y := y + 1;
    }
  }

  /** `ids` followed by leaf ids only. */
  ghost predicate LeavesAfter(leafIds: seq<int>, ids: seq<int>)
  {
    |leafIds| >= |ids| && forall j :: 0 <= j < |leafIds| ==> leafIds[j] == if j < |ids| then ids[j] else Leaves
  }

  /**
   * The two skip tests of CreateTree for cell (x, z): outside the square
   * once trimming has started (from the trunk top up), or a corner cell.
   * They skip exactly the cells KeepLeaf rejects, since below the trunk top
   * the square spans the whole grid.
   */
  method SkipLeaf(x: int, z: int, trim: int, trimmed: bool) returns (skip: bool)
    requires -3 <= x <= 3 && -3 <= z <= 3 && 1 <= trim <= 3 && (!trimmed ==> trim == 3)
    ensures skip <==> !KeepLeaf(x, z, trim)
  {
    var xAbs := Abs(x);
    var zAbs := Abs(z);
    if trimmed {
      if xAbs > trim || zAbs > trim {
        return true;
      }
    }
    if x != 0 && z != 0 && (xAbs == trim || zAbs == trim) {
      if x == z {
        return true;
      }
      if Abs(xAbs - zAbs) == 0 {
        return true;
      }
    }
    return false;
  }

  /**
   * One canopy layer of CreateTree: the 7 x 7 grid around the trunk at
   * height offset `dy`, skipping cells outside the trimmed square (only
   * from the trunk top up) and its corner cells.
   */
  method LeafLayer(positions: seq<Pos>, ids: seq<int>, root: Pos, dy: int, trim: int, trimmed: bool)
    returns (ps: seq<Pos>, leafIds: seq<int>)
    requires 1 <= trim <= 3 && (!trimmed ==> trim == 3) && |ids| == |positions|
    ensures ps == positions + LayerCells(root, dy, trim, 7)
    ensures |leafIds| == |ps| && LeavesAfter(leafIds, ids)
  {
    ps, leafIds := positions, ids;
    var x := -3;
    while x <= 3
      invariant -3 <= x <= 4
      invariant ps == positions + LayerCells(root, dy, trim, x + 3)
      invariant |leafIds| == |ps| && LeavesAfter(leafIds, ids)
    {
      ghost var before := ps;
      var row, rowIds := LeafRow(root, dy, x, trim, trimmed);
      ps, leafIds := ps + row, leafIds + rowIds;
      AppendRow(positions, LayerCells(root, dy, trim, x + 3), row);
      x := x + 1;
    }
  }

  lemma AppendRow<T>(a: seq<T>, b: seq<T>, c: seq<T>)
    ensures (a + b) + c == a + (b + c)
  {
  }

  /** The z loop of LeafLayer: the kept cells of row x, from z = -3 to 3, each a leaf. */
  method LeafRow(root: Pos, dy: int, x: int, trim: int, trimmed: bool) returns (row: seq<Pos>, rowIds: seq<int>)
    requires -3 <= x <= 3 && 1 <= trim <= 3 && (!trimmed ==> trim == 3)
    ensures row == RowCells(root, dy, trim, x, 7)
    ensures |rowIds| == |row| && forall j :: 0 <= j < |rowIds| ==> rowIds[j] == Leaves
  {
    row, rowIds := [], [];
    var z := -3;
    while z <= 3
      invariant -3 <= z <= 4
      invariant row == RowCells(root, dy, trim, x, z + 3)
      invariant |rowIds| == |row| && forall j :: 0 <= j < |rowIds| ==> rowIds[j] == Leaves
    {
      var skip := SkipLeaf(x, z, trim, trimmed);
      if !skip {
        row := row + [root.Plus(Pos(x, dy, z))];
        rowIds := rowIds + [Leaves];
      }
      z := z + 1;
    }
  }

  /**
   * One point of the Poisson disc sampling SpawnTrees draws over the chunk
   * (x and z in block units), with the trunk height CreateTree would draw
   * for it.
   */
  datatype Sample = Sample(x: real, z: real, trunkHeight: int)

  /** The sampler only returns points inside its 15 x 15 region. */
  predicate InRegion(s: Sample)
  {
    0.0 <= s.x < 15.0 && 0.0 <= s.z < 15.0
  }

  /** Conversion of a non-negative float to int: truncation. */
  function Trunc(v: real): (r: int)
    requires v >= 0.0
    ensures 0 <= r && r as real <= v < r as real + 1.0
  {
    v.Floor
  }

  /** `round` of a non-negative float: halves go up. */
  function Round(v: real): (r: int)
    requires v >= 0.0
    ensures r == Trunc(v) || r == Trunc(v) + 1
    ensures r == Trunc(v) + 1 <==> v - Trunc(v) as real >= 0.5
  {
    (v + 0.5).Floor
  }

  /**
   * The column SpawnTrees probes for head room (the sample truncated to
   * whole blocks), and the world position it hands to CheckBlockExists at
   * height `y` (the sample's world position, which CheckBlockExists rounds).
   */
  function ScanColumn(s: Sample, y: int): (l: Pos)
    requires InRegion(s) && 10 <= y < ChunkMaxHeight
    ensures InBounds(l)
  {
    Pos(Trunc(s.x), y, Trunc(s.z))
  }

  function RootAt(ch: Chunk, s: Sample, y: int): (p: Pos)
    requires InRegion(s)
    ensures InBounds(GetBlockIndex(ch, p)) <==> 0 <= y < ChunkHeight
  {
    Pos(Round(s.x) + ch.offset.x, y, Round(s.z) + ch.offset.z)
  }

  /** The head-room test at height `y`: the blocks 1, 5 and 7 above it in the scanned column are empty. */
  predicate HeadRoom(ch: Chunk, s: Sample, y: int)
    requires WellFormed(ch) && InRegion(s) && 10 <= y < ChunkMaxHeight
  {
    var c := ScanColumn(s, y);
    y + 5 <= ChunkHeight &&
    !GetBlock(ch, Pos(c.x, y + 7, c.z)).IsActive() &&
    !GetBlock(ch, Pos(c.x, y + 5, c.z)).IsActive() &&
    !GetBlock(ch, Pos(c.x, y + 1, c.z)).IsActive()
  }

  /** A height where SpawnTrees plants: head room, and an active block at the rounded position. */
  predicate Site(ch: Chunk, s: Sample, y: int)
    requires WellFormed(ch) && InRegion(s) && 10 <= y < ChunkMaxHeight
  {
    HeadRoom(ch, s, y) && CheckBlockExists(ch, RootAt(ch, s, y)).found
  }

  /** The height SpawnTrees plants a sample's tree at: the lowest site from `y` up, if any. */
  function FirstSite(ch: Chunk, s: Sample, y: int): (r: Option<int>)
    requires WellFormed(ch) && InRegion(s) && 10 <= y <= ChunkMaxHeight
    ensures r.Some? ==> y <= r.value < ChunkMaxHeight && Site(ch, s, r.value)
    ensures forall y' :: y <= y' < ChunkMaxHeight && (r.None? || y' < r.value) ==> !Site(ch, s, y')
    decreases ChunkMaxHeight - y
  {
    if y == ChunkMaxHeight then None
    else if Site(ch, s, y) then Some(y)
    else FirstSite(ch, s, y + 1)
  }

  lemma TreeIdsInTable(root: Pos, th: int, table: MaterialTable)
    requires HasWorldMaterials(table)
    ensures forall i :: 0 <= i < |TreeIds(root, th)| ==> TreeIds(root, th)[i] in table
  {
  }

  /** What SpawnTrees does for one sample: plant a tree at its first site, or nothing. */
  function PlantSpec(world: seq<Chunk>, k: nat, s: Sample, table: MaterialTable): (r: seq<Chunk>)
    requires WorldOk(world) && k < |world| && InRegion(s) && HasWorldMaterials(table)
    ensures SameLayout(world, r)
  {
    match FirstSite(world[k], s, 10)
    case None => world
    case Some(y) =>
      var root := RootAt(world[k], s, y);
      TreeIdsInTable(root, s.trunkHeight, table);
      AddBlocksSpec(world, k, TreePositions(root, s.trunkHeight), TreeIds(root, s.trunkHeight), table).1
  }

  /** SpawnTrees: every sample in turn, each seeing the trees planted before it. */
  function SpawnSpec(world: seq<Chunk>, k: nat, samples: seq<Sample>, table: MaterialTable): (r: seq<Chunk>)
    requires WorldOk(world) && k < |world| && HasWorldMaterials(table)
    requires forall i :: 0 <= i < |samples| ==> InRegion(samples[i])
    ensures SameLayout(world, r)
    decreases |samples|
  {
    if |samples| == 0 then world
    else
      var n := |samples| - 1;
      var before := SpawnSpec(world, k, samples[..n], table);
      SameLayoutKeepsOk(world, before);
      var after := PlantSpec(before, k, samples[n], table);
      SameLayoutTransitive(world, before, after);
      after
  }

  /** Planting never deactivates a block, in any chunk. */
  lemma PlantNeverClears(world: seq<Chunk>, k: nat, s: Sample, table: MaterialTable)
    requires WorldOk(world) && k < |world| && InRegion(s) && HasWorldMaterials(table)
    ensures var r := PlantSpec(world, k, s, table);
      forall j, i :: 0 <= j < |world| && 0 <= i < Volume && world[j].blocks[i].IsActive() ==> r[j].blocks[i].IsActive()
  {
    match FirstSite(world[k], s, 10)
    case None =>
    case Some(y) =>
      var root := RootAt(world[k], s, y);
      TreeIdsInTable(root, s.trunkHeight, table);
      AddBlocksSuccess(world, k, TreePositions(root, s.trunkHeight), TreeIds(root, s.trunkHeight), table);
  }

  /** SpawnTrees never deactivates a block, in any chunk. */
  lemma {:induction false} SpawnNeverClears(world: seq<Chunk>, k: nat, samples: seq<Sample>, table: MaterialTable)
    requires WorldOk(world) && k < |world| && HasWorldMaterials(table)
    requires forall i :: 0 <= i < |samples| ==> InRegion(samples[i])
    ensures var r := SpawnSpec(world, k, samples, table);
      forall j, i :: 0 <= j < |world| && 0 <= i < Volume && world[j].blocks[i].IsActive() ==> r[j].blocks[i].IsActive()
    decreases |samples|
  {
    if |samples| > 0 {
      var n := |samples| - 1;
      var before := SpawnSpec(world, k, samples[..n], table);
      SpawnNeverClears(world, k, samples[..n], table);
      SameLayoutKeepsOk(world, before);
      PlantNeverClears(before, k, samples[n], table);
    }
  }

  /** One more sample of SpawnTrees is one more planting on the arena reached so far. */
  lemma SpawnSpecStep(world: seq<Chunk>, k: nat, samples: seq<Sample>, table: MaterialTable, i: nat)
    requires WorldOk(world) && k < |world| && HasWorldMaterials(table) && i < |samples|
    requires forall j :: 0 <= j < |samples| ==> InRegion(samples[j])
    ensures var before := SpawnSpec(world, k, samples[..i], table);
      WorldOk(before) && SpawnSpec(world, k, samples[..i + 1], table) == PlantSpec(before, k, samples[i], table)
  {
    assert samples[..i + 1][..i] == samples[..i];
    SameLayoutKeepsOk(world, SpawnSpec(world, k, samples[..i], table));
  }

  /**
   * Chunk::SpawnTrees: for every sample, scan the heights 10..15 of its
   * column and plant a tree at the first site.
   */
  method SpawnTrees(world: array<Chunk>, k: nat, samples: seq<Sample>, table: MaterialTable)
    requires WorldOk(world[..]) && k < world.Length && HasWorldMaterials(table)
    requires forall i :: 0 <= i < |samples| ==> InRegion(samples[i])
    modifies world
    ensures world[..] == SpawnSpec(old(world[..]), k, samples, table)
  {
    ghost var w0 := world[..];
    var i := 0;
    while i < |samples|
      invariant 0 <= i <= |samples|
      invariant world[..] == SpawnSpec(w0, k, samples[..i], table)
      invariant WorldOk(world[..])
    {
      SpawnSpecStep(w0, k, samples, table, i);
      PlantTree(world, k, samples[i], table);
      SameLayoutKeepsOk(w0, world[..]);
      i := i + 1;
    }
    assert samples[..i] == samples;
  }

  /** The height loop of SpawnTrees for one sample: plant at the first site, if there is one. */
  method PlantTree(world: array<Chunk>, k: nat, s: Sample, table: MaterialTable)
    requires WorldOk(world[..]) && k < world.Length && InRegion(s) && HasWorldMaterials(table)
    modifies world
    ensures world[..] == PlantSpec(old(world[..]), k, s, table)
  {
    var site, root := FindSite(world[k], s);
    if site.Some? {
      TreeIdsInTable(root, s.trunkHeight, table);
      var planted := CreateTree(world, k, root, s.trunkHeight, table);
    }
  }

  /**
   * The tests of the height loop, from y = 10 up: the first height with
   * head-room whose root block exists, and that root.
   */
  method FindSite(ch: Chunk, s: Sample) returns (site: Option<int>, root: Pos)
    requires WellFormed(ch) && InRegion(s)
    ensures site == FirstSite(ch, s, 10)
    ensures site.Some? ==> root == RootAt(ch, s, site.value)
  {
    var y := 10;
    while y < ChunkMaxHeight
      invariant 10 <= y <= ChunkMaxHeight
      invariant FirstSite(ch, s, 10) == FirstSite(ch, s, y)
    {
      var c := ScanColumn(s, y);
      if y + 5 <= ChunkHeight &&
         !GetBlock(ch, Pos(c.x, y + 7, c.z)).IsActive() &&
         !GetBlock(ch, Pos(c.x, y + 5, c.z)).IsActive() &&
         !GetBlock(ch, Pos(c.x, y + 1, c.z)).IsActive()
      {
        var e := CheckBlockExists(ch, RootAt(ch, s, y));
        if e.found {
          return Some(y), e.blockPos;
        }
      }
      y := y + 1;
    }
    return None, Pos(0, 0, 0);
  }

  /**
   * What InitEnvironment leaves: the grass pass on chunk `k`, then the
   * trees, then chunk `k` marked clean.
   */
  function EnvironmentSpec(world: seq<Chunk>, k: nat, samples: seq<Sample>, table: MaterialTable): (r: seq<Chunk>)
    requires WorldOk(world) && k < |world| && HasWorldMaterials(table)
    requires forall i :: 0 <= i < |samples| ==> InRegion(samples[i])
    ensures SameLayout(world, r) && !r[k].dirty
  {
    var grassed := world[k := world[k].(blocks := GrassBlocks(world[k].blocks, table))];
    assert SameLayout(world, grassed);
    SameLayoutKeepsOk(world, grassed);
    var planted := SpawnSpec(grassed, k, samples, table);
    SameLayoutTransitive(world, grassed, planted);
    planted[k := planted[k].(dirty := false)]
  }

  /**
   * InitEnvironment never removes a block: every block active before is
   * active after, in every chunk, and chunk `k` ends clean.
   */
  lemma EnvironmentOnlyAdds(world: seq<Chunk>, k: nat, samples: seq<Sample>, table: MaterialTable)
    requires WorldOk(world) && k < |world| && HasWorldMaterials(table)
    requires forall i :: 0 <= i < |samples| ==> InRegion(samples[i])
    ensures var r := EnvironmentSpec(world, k, samples, table);
      !r[k].dirty &&
      forall j, i :: 0 <= j < |world| && 0 <= i < Volume && world[j].blocks[i].IsActive() ==> r[j].blocks[i].IsActive()
  {
    var grassed := world[k := world[k].(blocks := GrassBlocks(world[k].blocks, table))];
    assert SameLayout(world, grassed);
    SameLayoutKeepsOk(world, grassed);
    forall i | 0 <= i < Volume && world[k].blocks[i].IsActive()
      ensures grassed[k].blocks[i].IsActive()
    {
      GrassOnlyRetextures(world[k].blocks, table, LocalOf(i));
    }
    SpawnNeverClears(grassed, k, samples, table);
  }

  /**
   * Chunk::InitEnvironment: turn exposed dirt into grass, spawn the trees,
   * and mark the chunk clean. The samples stand for the Poisson disc
   * sampling with spacing 8.5.
   */
  method InitEnvironment(world: array<Chunk>, k: nat, samples: seq<Sample>, table: MaterialTable)
    requires WorldOk(world[..]) && k < world.Length && HasWorldMaterials(table)
    requires forall i :: 0 <= i < |samples| ==> InRegion(samples[i])
    modifies world
    ensures world[..] == EnvironmentSpec(old(world[..]), k, samples, table)
  {
    GrowGrass(world, k, table);
    assert SameLayout(old(world[..]), world[..]);
    SameLayoutKeepsOk(old(world[..]), world[..]);
    SpawnTrees(world, k, samples, table);
    world[k] := world[k].(dirty := false);
  }
}
