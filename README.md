# VoxECS core in Dafny

A verified model of the core of VoxECS ("Voxel Wasteland"). It covers three parts:

- **The voxel chunk.** This is `Chunk` and `Block`:
  - a chunk is a flat grid of 16 x 48 x 16 blocks;
  - it offers existence and bounds queries;
  - it places and removes blocks, forwarding positions across the four neighbour links and marking chunks dirty;
  - it carves terrain from noise and grows grass over exposed dirt;
  - it plants trees at sampled columns;
  - it builds meshes with face culling and per-vertex ambient occlusion.
- **World assembly.** This is `ChunkManager`:
  - the map-wide noise maps and their blend;
  - the per-chunk noise slice that feeds `InitTerrain`;
  - the 16 x 16 chunk grid and its neighbour links;
  - the sequential generation pass: terrain, then environment, then meshes.
- **ECS storage.** These are the fixed-capacity `SparseSet`, the per-type `ComponentPool`, and the `GameScene` entity bookkeeping.

How the model is laid out:

- **Chunks form an arena.** The world is an `array<Chunk>` indexed by grid position (`seq<Chunk>` in specifications). A neighbour pointer is an arena index (`Option<nat>`).
  - The recursion of `AddBlock` and `GetOcclusionValue` into neighbours terminates on a distance measure (`Arena.Reach`).
  - Termination holds in any *coherent* arena, where linked chunks lie 16 blocks apart on the matching axis. `ProcessNoiseMap` establishes that layout.
- **Imperative methods are proved against specification functions.** Every imperative operation is a method that changes the arena in place, and its `ensures` ties the new state to a specification function:
  - `AddBlockSpec` and `RemoveBlockSpec` for block edits;
  - `TerrainBlocks` for carving, and `GrassBlocks` and `EnvironmentSpec` for the environment pass;
  - `MeshUpTo` for meshing;
  - `ColumnMap` and `Smoothed` for the noise maps;
  - `Generated` for the whole world.

  Lemmas state what the source promises about those functions.
- **Blocks are values.** `Block` is stored by value in the chunk's vector, so it is a datatype, and its setters return an updated copy.
- **Positions are whole block coordinates.** `BLOCK_SIZE * 2 == 1`, so a world position and a block centre coincide. The engine's `round(world - offset)` is then the identity on block centres, and positions are `int`.
- **The ECS parts are classes.**
  - `SparseSet` keeps its `sparse` and `dense` arrays.
  - `ComponentPool` keeps a `components` sequence aligned with the set's dense order. A ghost map records the component object made for each entity.
  - `GameScene` keeps its ten pools in declaration order. Component types are the enum `Kind`; `Other` stands for a type without a pool.

## Model

| member | source | states |
|---|---|---|
| Blocks.NewBlock | src/core/world/Block.cpp:5-8 | a new block holds exactly the given material and activity flag (active defaults to true) |
| Blocks.Block.SetActive | src/core/world/Block.cpp:18-30 | afterwards `IsActive()` is the given flag and the material is unchanged |
| Blocks.Block.SetData | src/core/world/Block.cpp:36-52 | afterwards `GetData()` is the given material and the flag is unchanged |
| Chunks.Index | src/core/world/Chunk.cpp:45-52 | an in-bounds local position maps into [0, 16*48*16) |
| Chunks.LocalOf | src/core/world/Chunk.cpp:45-52 | every flat index in range comes from exactly one in-bounds position |
| Chunks.IndexBijection | src/core/world/Chunk.cpp:45-52 | decoding the flat index of an in-bounds position gives the position back |
| Chunks.NewChunk | src/core/world/Chunk.cpp:8-11 | a new chunk holds 12288 inactive default blocks, has no mesh, offset (0, 0), no neighbours and is clean |
| Chunks.GetBlockIndex | src/core/world/Chunk.cpp:1109-1116 | the local index of a world position is the position minus the chunk offset |
| Chunks.LocalWorldInverse | src/core/world/Chunk.cpp:1109-1116 | local and world coordinates convert into each other exactly |
| Chunks.GetBlock | src/core/world/Chunk.cpp:381-388 | the block at an in-bounds local position is the flat-grid entry at its index |
| Chunks.GetBlockActual | src/core/world/Chunk.cpp:397-430 | fails with OutOfBounds exactly when the local index is outside the chunk; otherwise it returns that block |
| Chunks.CheckBlockExists | src/core/world/Chunk.cpp:458-486 | found iff the local index is in bounds and that block is active; outOfBounds iff the index is outside; the snapped position is reported |
| Chunks.CheckBlockIsInChunk | src/core/world/Chunk.cpp:495-511 | true iff some in-bounds local position lies at the world position |
| Chunks.CheckBlockExistsByIndex | src/core/world/Chunk.cpp:520-530 | true iff the index is in bounds and that block is active |
| Arena.Forward | src/core/world/Chunk.cpp:174-184 | a position is handed on (left, right, back, front, in that order) only when it is outside the chunk |
| Arena.ForwardCloser | src/core/world/Chunk.cpp:174-184 | in a coherent arena each hand-on reaches a chunk of the arena strictly closer to the position |
| Arena.Resolve | src/core/world/Chunk.cpp:174-184 | the chunk where the forwarding chain stops: it forwards no further and is no farther away |
| Arena.Touch | src/core/world/Chunk.cpp:190-202 | an edit at a local index marks its chunk dirty, and each other chunk dirty exactly when it is the neighbour across the touched border face |
| Edits.AddBlock | src/core/world/Chunk.cpp:156-206 | the result and the new arena are those of `AddBlockSpec` |
| Edits.AddBlockInChunk | src/core/world/Chunk.cpp:163-202 | inside the chunk: succeeds iff the block is inactive; then it sets the block active with the table material and marks the chunk and the touched neighbours dirty; otherwise nothing changes |
| Edits.AddBlockFollowsChain | src/core/world/Chunk.cpp:174-184 | AddBlock on a chunk behaves as AddBlock on the chunk its forwarding chain ends in |
| Edits.AddBlockEffect | src/core/world/Chunk.cpp:156-206 | succeeds iff the position lies in the chunk where forwarding stops and is empty there; places exactly that block; no other chunk's blocks change; a refusal changes nothing |
| Edits.AddBlockNeverClears | src/core/world/Chunk.cpp:156-206 | no block anywhere is deactivated |
| Edits.ForwardedKeepsOwnBlocks | src/core/world/Chunk.cpp:174-184 | a request that leaves the chunk never changes the chunk's own blocks |
| Edits.AddBlocks | src/core/world/Chunk.cpp:214-278 | mismatched lengths give false and no change; otherwise the result and arena are those of `AddBlocksSpec` |
| Edits.AddBlocksSuccess | src/core/world/Chunk.cpp:214-278 | the batch keeps the arena coherent, never deactivates a block, and reports true iff some block of this chunk itself went from inactive to active |
| Edits.RemoveBlock | src/core/world/Chunk.cpp:285-313 | the result and arena are those of `RemoveBlockSpec` |
| Edits.RemoveBlockEffect | src/core/world/Chunk.cpp:285-313 | succeeds iff an active block sits at the position in this chunk; it then clears only the flag (the material stays) and marks the chunk and touched neighbours dirty; no forwarding; a refusal changes nothing |
| Edits.RemoveBlocks | src/core/world/Chunk.cpp:320-358 | the result and arena are those of `RemoveBlocksSpec`: each position handled like RemoveBlock, in order |
| Edits.RemoveBlocksSuccess | src/core/world/Chunk.cpp:320-358 | never activates a block, changes no other chunk's blocks, and reports true iff some block of the chunk was cleared |
| Terrain.NoiseIndex | src/core/world/Chunk.cpp:553-560 | the slice index `x*16*48 + z*48 + y` of an in-bounds block is in range |
| Terrain.NoiseLocal | src/core/world/Chunk.cpp:553-560 | every slice index in range comes from exactly one in-bounds block |
| Terrain.NoiseIndexBijection | src/core/world/Chunk.cpp:553-560 | decoding a block's slice index gives the block back |
| Terrain.Band | src/core/world/Chunk.cpp:727-748 | the material id by height: bedrock iff y <= 2, stone iff 2 < y <= 5, sandstone iff 5 < y <= 10, dirt iff y > 10 |
| Terrain.InitBlocks | src/core/world/Chunk.cpp:727-748 | keeps the flag and gives the block the table material of its height band |
| Terrain.Carve | src/core/world/Chunk.cpp:562-587 | one block of the carve: activated with its band material iff y < 2 or the noise passes (> 0 in 3D, != 0 in 2D); otherwise unchanged; never deactivated |
| Terrain.TerrainLayout | src/core/world/Chunk.cpp:537-591 | no block is deactivated; the two bottom layers end active; above them an inactive block becomes active iff its noise passes; every changed block holds its band material |
| Terrain.InitTerrain | src/core/world/Chunk.cpp:537-591 | a wrong noise length or neighbour count fails with no change; otherwise it stores the links (front, back, left, right) and the offset, and the blocks become `TerrainBlocks` |
| Terrain.GrowGrass | src/core/world/Chunk.cpp:601-622 | the chunk's blocks become `GrassBlocks`; nothing else changes |
| Terrain.GrassOnlyRetextures | src/core/world/Chunk.cpp:601-622 | no flag changes; a block changes iff it is active dirt at y >= 10 under an empty block (or in the top layer) and not already grass; such blocks become grass |
| Trees.TrunkShape | src/core/world/Chunk.cpp:1200-1208 | the trunk is the column above the root, `trunkHeight` blocks high, cut at the chunk height |
| Trees.RowShape | src/core/world/Chunk.cpp:1221-1245 | row x of a canopy layer holds exactly the cells of that row, at the layer's height, that the trimming rule keeps |
| Trees.LayerShape | src/core/world/Chunk.cpp:1219-1246 | the rows x = -3 .. r - 4 of a canopy layer hold exactly the cells of those rows of the 7 x 7 square that the trimming rule keeps |
| Trees.CanopyStep | src/core/world/Chunk.cpp:1217-1249 | layer m - 1 adds exactly the kept cells at its own height, trunkHeight - 1 + (m - 1) |
| Trees.CanopyLayers | src/core/world/Chunk.cpp:1211-1249 | the first m canopy layers hold exactly the canopy cells below layer m |
| Trees.CanopyShape | src/core/world/Chunk.cpp:1211-1249 | the canopy is exactly four layers from trunkHeight-1 up with half-widths 3, 3, 2, 1, each without its four corners |
| Trees.SkipLeaf | src/core/world/Chunk.cpp:1222-1238 | a leaf cell is skipped iff the trimming rule drops it |
| Trees.TreeIds | src/core/world/Chunk.cpp:1200-1246 | one id per collected position: a log for each trunk position, a leaf for each canopy position |
| Trees.TreeIdsInTable | src/core/world/Chunk.cpp:1206-1246 | every tree id (log 6, leaves 7) is a material of the table |
| Trees.CreateTree | src/core/world/Chunk.cpp:1193-1252 | the result and arena are those of AddBlocks on the trunk and canopy positions with their ids |
| Trees.CollectTrunk | src/core/world/Chunk.cpp:1200-1208 | the trunk loop collects exactly `Trunk(root, trunkHeight)`, every id a log |
| Trees.CollectCanopy | src/core/world/Chunk.cpp:1211-1249 | the canopy loops append exactly the four canopy layers to the trunk, logs first, then one leaf id per cell |
| Trees.LeafLayer | src/core/world/Chunk.cpp:1219-1246 | one pass of the x loop appends exactly that layer's kept cells, x-major, each a leaf |
| Trees.LeafRow | src/core/world/Chunk.cpp:1221-1245 | one pass of the z loop collects exactly the row's kept cells, each a leaf |
| Trees.Trunc | src/core/world/Chunk.cpp:1265-1268 | the int conversion of a non-negative coordinate is the whole part |
| Trees.Round | src/core/world/Chunk.cpp:1109-1116 | rounding gives the whole part, plus one iff the fraction is at least one half |
| Trees.ScanColumn | src/core/world/Chunk.cpp:1265-1268 | the probed column of a sample inside the sampling region is inside the chunk |
| Trees.RootAt | src/core/world/Chunk.cpp:1270-1274 | the tree root handed to CheckBlockExists lies in the chunk iff its height is in range |
| Trees.FirstSite | src/core/world/Chunk.cpp:1262-1282 | the height SpawnTrees plants at is the lowest site from y = 10 up (head room, and an active block there), or none |
| Trees.FindSite | src/core/world/Chunk.cpp:1264-1276 | the height loop stops at the first site from y = 10 up and returns its root, or finds none |
| Trees.PlantTree | src/core/world/Chunk.cpp:1262-1282 | the arena becomes `PlantSpec`: the tree at the first site, or no change |
| Trees.PlantNeverClears | src/core/world/Chunk.cpp:1262-1282 | planting never deactivates a block, in any chunk |
| Trees.SpawnTrees | src/core/world/Chunk.cpp:1258-1285 | the arena becomes `SpawnSpec`: one planting per sample, in order |
| Trees.SpawnNeverClears | src/core/world/Chunk.cpp:1258-1285 | spawning never deactivates a block, in any chunk |
| Trees.EnvironmentSpec | src/core/world/Chunk.cpp:596-628 | the environment pass keeps the arena layout and leaves the chunk clean |
| Trees.EnvironmentOnlyAdds | src/core/world/Chunk.cpp:596-628 | every block active before is active after, in every chunk, and the chunk ends clean |
| Trees.InitEnvironment | src/core/world/Chunk.cpp:596-628 | the arena becomes `EnvironmentSpec`: the grass pass, then the trees, then the chunk marked clean |
| Meshing.Slot | src/core/world/Chunk.cpp:806-1099 | each face uses its own texture slot 0..5 (front, back, right, left, top, bottom) |
| Meshing.CullFaces | src/core/world/Chunk.cpp:1125-1147 | the top face is never culled in the top layer, nor the bottom face in layer 0 |
| Meshing.CullExactlyHidden | src/core/world/Chunk.cpp:1125-1147 | a face is culled iff it is hidden: by an active culling block inside the chunk, or by any active block in the linked neighbour across the border |
| Meshing.CullFront | src/core/world/Chunk.cpp:1125-1147 | the front flag is set iff the front face is hidden |
| Meshing.CullBack | src/core/world/Chunk.cpp:1125-1147 | the back flag is set iff the back face is hidden |
| Meshing.CullRight | src/core/world/Chunk.cpp:1125-1147 | the right flag is set iff the right face is hidden |
| Meshing.CullLeft | src/core/world/Chunk.cpp:1125-1147 | the left flag is set iff the left face is hidden |
| Meshing.CullTop | src/core/world/Chunk.cpp:1125-1147 | the top flag is set iff the top face is hidden |
| Meshing.CullBottom | src/core/world/Chunk.cpp:1125-1147 | the bottom flag is set iff the bottom face is hidden |
| Meshing.GetOcclusionValue | src/core/world/Chunk.cpp:1157-1184 | every probe is 0.75 or 1.0 |
| Meshing.OcclusionAtResolve | src/core/world/Chunk.cpp:1157-1184 | a probe is 0.75 iff the chunk at the end of the forwarding chain holds an active block at the probed position |
| Meshing.FaceGeometry | src/core/world/Chunk.cpp:787-815 | the corners lie on the face plane and go round it edge by edge; the probes lie in the layer in front of the face; the diagonal probe points at the corner |
| Meshing.OcclusionLevels | src/core/world/Chunk.cpp:809-815 | a vertex factor is 1, 0.75, 0.5625 or 0.421875, and it is 1 iff none of its three probes finds a block |
| Meshing.FaceOnItsPlane | src/core/world/Chunk.cpp:817-831 | each of a face's four vertices sits at its corner of the face, carries the face normal and texture layer, and carries its own occlusion factor |
| Meshing.QuadSplit | src/core/world/Chunk.cpp:835-853 | six indices naming exactly the four new vertices, as two triangles with the quad's winding that share the diagonal with the larger occlusion sum (3-1 on a tie) |
| Meshing.AddQuadOk | src/core/world/Chunk.cpp:817-853 | appending a face adds four vertices and six indices after the old mesh, and keeps the mesh well formed: every index names an existing vertex |
| Meshing.BlockFacesShape | src/core/world/Chunk.cpp:778-1100 | a block adds 4 vertices and 6 indices per visible face, keeps the earlier mesh as a prefix, and keeps it well formed |
| Meshing.EmitFace | src/core/world/Chunk.cpp:806-854 | one visible face appends its quad with the face's texture layer and occlusion factors |
| Meshing.Shade | src/core/world/Chunk.cpp:809-815 | the occlusion factor of one vertex is the product of its three probes |
| Meshing.FaceUnlessCulled | src/core/world/Chunk.cpp:806-1099 | the n-th face is appended iff the culling leaves it visible |
| Meshing.CreateBlockData | src/core/world/Chunk.cpp:778-1100 | the lists become `BlockFaces` over the six faces in order |
| Meshing.MeshUpTo | src/core/world/Chunk.cpp:647-668 | the mesh of the first n blocks is well formed |
| Meshing.EnclosedBlockDrawsNothing | src/core/world/Chunk.cpp:647-668 | a culling block hidden on all six sides adds nothing to the mesh |
| Meshing.MeshBlock | src/core/world/Chunk.cpp:653-665 | one loop step adds block n's faces: the mesh of n blocks becomes the mesh of n + 1 |
| Meshing.BuildRow | src/core/world/Chunk.cpp:651-666 | the inner z loop adds the faces of the next 16 blocks |
| Meshing.BuildMesh | src/core/world/Chunk.cpp:647-668 | the three loops build `MeshUpTo` over all blocks, and the result is well formed |
| Meshing.Rebuild | src/core/render/Mesh.cpp:61-69 | the new lists replace the old ones unless either is empty |
| Meshing.CreateMesh | src/core/world/Chunk.cpp:637-674 | fails with MeshExists and no change if a mesh exists; otherwise the chunk gets the mesh of its blocks and nothing else changes |
| Meshing.UpdateMesh | src/core/world/Chunk.cpp:679-711 | the chunk's mesh is rebuilt from its current blocks |
| Meshing.Update | src/core/world/Chunk.cpp:21-28 | a dirty chunk rebuilds its mesh and ends clean; a clean chunk is left alone |
| Stock.StockedIsTextured | include/core/ResourceHelper.h:319-322 | with a loaded table, a chunk of table materials has six texture layers on every active block |
| Stock.NewChunkStocked | src/core/world/Chunk.cpp:8-11 | a new chunk has no active block |
| Stock.TerrainStocked | src/core/world/Chunk.cpp:727-748 | carving activates blocks only with table materials |
| Stock.GrassStocked | src/core/world/Chunk.cpp:601-622 | the grass pass gives blocks only the table's grass material |
| Stock.AddBlockStocked | src/core/world/Chunk.cpp:186-189 | AddBlock places only the table material of its id |
| Stock.AddBlocksStocked | src/core/world/Chunk.cpp:214-278 | a batch with table ids keeps every active block a table material |
| Stock.PlantStocked | src/core/world/Chunk.cpp:1193-1252 | a tree adds only logs and leaves from the table |
| Stock.SpawnStocked | src/core/world/Chunk.cpp:1258-1285 | spawning keeps every active block a table material |
| Stock.EnvironmentStocked | src/core/world/Chunk.cpp:596-628 | the environment pass keeps every active block a table material |
| ChunkManager.GridBijection | src/core/world/ChunkManager.cpp:116-119 | the map index `x*256*48 + z*48 + y` of a map block is in range, and x, z and y decode back from it |
| ChunkManager.GridDecompose | src/core/world/ChunkManager.cpp:116-119 | every map index comes from one map block |
| ChunkManager.TruncateToZero | src/core/world/ChunkManager.cpp:108 | the C++ float-to-int conversion rounds toward zero, for both signs |
| ChunkManager.ColumnHeight | src/core/world/ChunkManager.cpp:106-114 | the column height `2 + (int)(n*46)`, clamped, lies in [0, 48] |
| ChunkManager.NearZeroColumn | src/core/world/ChunkManager.cpp:106-114 | a noise value with abs(n*46) < 1 gives height 2: truncation, not floor |
| ChunkManager.ColumnHeightMonotone | src/core/world/ChunkManager.cpp:106-114 | higher noise never gives a lower column |
| ChunkManager.ColumnExpansion | src/core/world/ChunkManager.cpp:101-124 | each map column holds its scaled noise value below its height and 0 from there up |
| ChunkManager.GetNoiseMap | src/core/world/ChunkManager.cpp:83-125 | returns a fresh 256*256*48 map equal to the column expansion of the field |
| ChunkManager.FlattenField | src/core/world/ChunkManager.cpp:91-98 | the first map holds the scaled field value of every column, x-major |
| ChunkManager.ExpandRow | src/core/world/ChunkManager.cpp:102-121 | after row x every entry up to the end of that row equals the column expansion, and the rest stay zero |
| ChunkManager.ColumnValues | src/core/world/ChunkManager.cpp:104-121 | the 48 entries of column (x, z) hold the column's noise below its height and 0 from there up |
| ChunkManager.ExpandColumn | src/core/world/ChunkManager.cpp:104-121 | one (x, z) step makes exactly that column's 48 entries those of the target map and leaves the rest |
| ChunkManager.SolidBand | src/core/world/ChunkManager.cpp:136-149 | the 3D map holds the scaled field below y = 16 and 0 at every y >= 16 |
| ChunkManager.GetNoiseMap3D | src/core/world/ChunkManager.cpp:131-152 | returns a fresh map equal to the band-limited field |
| ChunkManager.SolidValues | src/core/world/ChunkManager.cpp:140-149 | the 48 entries of column (x, z) hold the scaled field below y = 16 and 0 from there up |
| ChunkManager.FillBand | src/core/world/ChunkManager.cpp:140-149 | one (x, z) step makes exactly that column's entries those of the target map and leaves the rest |
| ChunkManager.Smoothstep | src/core/world/ChunkManager.cpp:209-210 | the blend weight lies in [0, 1] |
| ChunkManager.MixBetween | src/core/world/ChunkManager.cpp:211 | a weighted mix lies between its two inputs |
| ChunkManager.SmoothedShape | src/core/world/ChunkManager.cpp:202-213 | only the first min(len) entries change, each to a value between the two maps' entries; entry 0 keeps the first map's value |
| ChunkManager.SmoothNoiseMap | src/core/world/ChunkManager.cpp:202-213 | the first map becomes `Smoothed` of both old maps (the second map is read only) |
| ChunkManager.BlendedShape | src/core/world/ChunkManager.cpp:220-235 | different sizes change nothing; an entry whose height-map value is 0 is untouched; every entry ends between the two maps' entries |
| ChunkManager.HeightMapBlend | src/core/world/ChunkManager.cpp:220-235 | the first map becomes `Blended` of the old maps |
| ChunkManager.ChunkCoords | src/core/world/ChunkManager.cpp:159-162 | chunk (x, z) has index x*16 + z and decodes back |
| ChunkManager.ChunkDecompose | src/core/world/ChunkManager.cpp:159-162 | every chunk index is x*16 + z for one grid cell |
| ChunkManager.MapNeighbours | src/core/world/ChunkManager.cpp:186-193 | the neighbour list always has the four entries InitTerrain requires |
| ChunkManager.FrontBackSymmetric | src/core/world/ChunkManager.cpp:188-189 | A's front is B iff B's back is A |
| ChunkManager.RightLeftSymmetric | src/core/world/ChunkManager.cpp:190-191 | A's right is B iff B's left is A |
| ChunkManager.LinkOffsets | src/core/world/ChunkManager.cpp:164-193 | each link leads to a grid chunk whose offset differs by 16 on the matching axis, the direction AddBlock forwards in |
| ChunkManager.MapLayoutCoherent | src/core/world/ChunkManager.cpp:159-194 | an arena laid out with the grid offsets and links is coherent |
| ChunkManager.SliceIndexInMap | src/core/world/ChunkManager.cpp:176-184 | every slice index lies inside the map |
| ChunkManager.Slice | src/core/world/ChunkManager.cpp:171-184 | the slice has exactly InitTerrain's length 16*16*48 |
| ChunkManager.SliceMatchesWorld | src/core/world/ChunkManager.cpp:176-184 | the noise InitTerrain reads for a block is the map noise at that block's world position shifted by half the map: the slicing inverts InitTerrain's layout |
| ChunkManager.CutSlice | src/core/world/ChunkManager.cpp:171-184 | the flattened loop collects exactly the chunk's slice |
| ChunkManager.ProcessNoiseMap | src/core/world/ChunkManager.cpp:157-195 | every grid chunk gets its links, its offset and its carved terrain; entries past the grid are untouched |
| ChunkManager.ProcessChunk | src/core/world/ChunkManager.cpp:161-194 | one iteration gives chunk `index` its links, offset and carved terrain and changes no other chunk |
| ChunkManager.GetChunks | src/core/world/ChunkManager.cpp:242-255 | exactly `size` new chunks |
| ChunkManager.GenerationNoise | src/core/world/ChunkManager.cpp:23-59 | the map the terrain pass reads has one entry per map block |
| ChunkManager.TerrainChunk | src/core/world/ChunkManager.cpp:52-61 | after the terrain pass, chunk j has the grid offset and links, no mesh, and new blocks carved with its slice |
| ChunkManager.TerrainWorldOk | src/core/world/ChunkManager.cpp:52-61 | the terrain pass yields a coherent arena of table materials without meshes |
| ChunkManager.Environments | src/core/world/ChunkManager.cpp:67-70 | InitEnvironment on every chunk keeps the layout and coherence, and keeps every active block a table material |
| ChunkManager.EnvironmentOn | src/core/world/ChunkManager.cpp:67-70 | InitEnvironment on one chunk of an arena laid out like the original keeps that layout and the table materials |
| ChunkManager.EnvironmentKeepsOk | src/core/world/ChunkManager.cpp:67-70 | one InitEnvironment on such an arena keeps it well-formed and coherent, its layout and its table materials |
| ChunkManager.InitEnvironments | src/core/world/ChunkManager.cpp:67-70 | the loop applies InitEnvironment to every chunk in order |
| ChunkManager.OnlyMeshesKeepsOk | src/core/world/ChunkManager.cpp:73-76 | changing only meshes keeps the arena coherent and stocked |
| ChunkManager.Meshes | src/core/world/ChunkManager.cpp:73-76 | CreateMesh on the first n chunks: only meshes change, those n chunks end with a mesh (one that already had a mesh keeps it, as CreateMesh refuses it without a change), and the rest are untouched |
| ChunkManager.MeshesWellFormed | src/core/world/ChunkManager.cpp:73-76 | starting without meshes, every mesh built is well formed |
| ChunkManager.CreateMeshes | src/core/world/ChunkManager.cpp:73-76 | CreateMesh on the chunks in order, stopping with MeshExists at the first chunk that already has a mesh and keeping the meshes built before it; Pass iff no chunk has a mesh |
| ChunkManager.MeshStop | src/core/world/ChunkManager.cpp:73-76 | where the CreateMesh loop stops: no chunk before it has a mesh, the chunk there has one, and it is the world length when no chunk has one |
| ChunkManager.MeshStopAt | src/core/world/ChunkManager.cpp:73-76 | at a position not past the stop, a chunk with a mesh is the stop and a chunk without one lies before it |
| ChunkManager.MeshNext | src/core/world/Chunk.cpp:637-640 | one iteration: Pass iff chunk k has no mesh, and then the world is the mesh prefix one longer; otherwise MeshExists with no change |
| ChunkManager.LayoutKeepsMeshless | src/core/world/ChunkManager.cpp:67-76 | the environment pass keeps the layout, so a world without meshes keeps none and the mesh loop runs to the end |
| ChunkManager.Generated | src/core/world/ChunkManager.cpp:20-77 | generation yields 256 chunks |
| ChunkManager.GeneratedWorld | src/core/world/ChunkManager.cpp:20-77 | the world is 16 x 16 chunks with the grid offsets and links, and every chunk ends with a well-formed mesh |
| ChunkManager.Populated | src/core/world/ChunkManager.cpp:60-76 | the three passes over the chunks, from the final noise map, give 16*16 chunks |
| ChunkManager.TerrainPass | src/core/world/ChunkManager.cpp:60 | ProcessNoiseMap over fresh chunks yields the terrain world of the noise |
| ChunkManager.PopulateWorld | src/core/world/ChunkManager.cpp:60-76 | terrain, then environments, then meshes turn fresh chunks into `Populated` of the noise map |
| ChunkManager.GenerateChunks | src/core/world/ChunkManager.cpp:20-77 | the sequential path returns a fresh arena of 16*16 chunks equal to `Generated`: terrain for all, then environments for all, then meshes for all |
| SparseSets.SwapRemoveMembers | src/core/utility/SparseSet.cpp:61-75 | swap-with-last removes exactly the deleted value, keeps every other member, and keeps members distinct |
| SparseSets.Common | src/core/utility/SparseSet.cpp:116-141 | the intersection in walk order holds exactly the values in both sets |
| SparseSets.CommonDistinct | src/core/utility/SparseSet.cpp:116-141 | the intersection of a duplicate-free walk is duplicate-free |
| SparseSets.DistinctSubLength | src/core/utility/SparseSet.cpp:116-141 | the intersection never outgrows the smaller capacity, so every insert of Intersect succeeds |
| SparseSets.SparseSet.ElementsDistinct | src/core/utility/SparseSet.cpp:49-51 | the invariant `sparse[dense[i]] == i` makes the members distinct |
| SparseSets.SparseSet.constructor | src/core/utility/SparseSet.cpp:10-18 | an empty set with the given maxValue and capacity |
| SparseSets.SparseSet.Search | src/core/utility/SparseSet.cpp:82-95 | −1 iff the value is absent (including values above maxValue), otherwise its dense slot; correct whatever the uninitialised sparse slots hold |
| SparseSets.SparseSet.Insert | src/core/utility/SparseSet.cpp:35-54 | succeeds iff val <= maxValue, count < capacity and val is absent; then val is appended and Search finds it at the old count |
| SparseSets.SparseSet.Delete | src/core/utility/SparseSet.cpp:61-75 | succeeds iff val is present; members become the swap-with-last removal; afterwards Search finds nothing |
| SparseSets.SparseSet.Get | src/core/utility/SparseSet.cpp:102-109 | the member at a slot below count, −1 past it |
| SparseSets.SparseSet.Count | src/core/utility/SparseSet.cpp:147-150 | the number of members |
| SparseSets.SparseSet.Clear | src/core/utility/SparseSet.cpp:155-158 | no members remain and Search finds nothing |
| SparseSets.SparseSet.Intersect | src/core/utility/SparseSet.cpp:116-141 | a fresh set with capacity min and maxValue max of the two, holding exactly the common values, in the order of the smaller set (of `other` on a tie) |
| SparseSets.IntersectInto | src/core/utility/SparseSet.cpp:123-138 | the loop inserts each walked member the other set holds |
| Components.AlignedSwapRemove | include/core/ECS/Component.inl:83-92 | swap-with-last on both the members and the components keeps them aligned |
| Components.SlotOf | include/core/ECS/Component.inl:77 | the first dense slot holding the entity, which is the slot Search reports |
| Components.Removed | include/core/ECS/Component.inl:75-99 | the member list after RemoveComponent: one entry shorter when the entity is present, unchanged otherwise |
| Components.RemovedAt | include/core/ECS/Component.inl:77-92 | in a duplicate-free list, the removal is the swap-with-last at the entity's slot |
| Components.RemovedMembers | include/core/ECS/Component.inl:75-99 | the removal stays duplicate-free and holds exactly the old members other than the entity |
| Components.ComponentPool.DropComponent | include/core/ECS/Component.inl:84-91 | the last component moves into the deleted slot and is popped; the pool stays valid and only the entity loses its component |
| Components.ComponentPool.constructor | include/core/ECS/Component.inl:6-18 | an empty pool; the default capacity is 1000, and the set's maxValue and capacity are the pool capacity |
| Components.ComponentPool.AddComponent | include/core/ECS/Component.inl:36-51 | returns a new component iff count < capacity and the set accepts the entity; then the entity and component are appended; otherwise nothing changes |
| Components.ComponentPool.GetComponent | include/core/ECS/Component.inl:59-68 | null iff the entity has no component, otherwise the component made for it |
| Components.ComponentPool.RemoveComponent | include/core/ECS/Component.inl:75-99 | false iff absent; the members become `Removed` (swap-with-last at the entity's slot, unchanged when absent) and the components shrink the same way; only the entity loses its component, so every other entity's lookup is unchanged |
| Scenes.EraseAt | src/game_client/GameScene.cpp:52 | erasing position k shifts the tail down by one |
| Scenes.EraseAtRemovesOne | src/game_client/GameScene.cpp:52 | erasing a position removes exactly one copy of the id stored there |
| Scenes.EraseAtRemovesWrongEntity | src/game_client/GameScene.cpp:40-52 | for every list holding the id, at a position other than the id itself, erasing at position id keeps the id listed and leaves other entries than erasing the id (see Findings) |
| Scenes.EraseEntity | src/game_client/GameScene.cpp:40-53 | erasing an id that is present removes one entry; only existing ids remain |
| Scenes.EraseEntityRemovesOne | src/game_client/GameScene.cpp:40-53 | erasing an id removes exactly one occurrence of it and keeps every other id |
| Scenes.Ordinal | include/game_client/GameScene.inl:28-104 | every kind but Other has its own pool |
| Scenes.GameScene.constructor | src/game_client/GameScene.cpp:5-12 | entityCount 0, no entities, worldEntity 0, ten empty pools of capacity 1000 |
| Scenes.GameScene.CreateEntity | src/game_client/GameScene.cpp:24-31 | fails with TooManyEntities at the limit; otherwise the old count is the new id, appended, and the count advances; ids issued below the counter stay unique |
| Scenes.GameScene.AddComponentToEntity | include/game_client/GameScene.inl:28-105 | an unknown kind fails; otherwise it succeeds iff the kind's pool accepts the entity (else PoolFull), and only that pool changes |
| Scenes.GameScene.NewPools | include/game_client/GameScene.h:74-84 | ten empty, valid pools with disjoint footprints, one per kind in declaration order, capacity 1000 |
| Scenes.GameScene.AddComponents | include/game_client/GameScene.inl:15-18 | the add loop succeeds iff the kinds are distinct and every pool accepts the id; on success exactly those pools gain it; on failure some kind is refused after the kinds before it were added, and every other pool is unchanged; an unknown kind fails with UnknownComponentType |
| Scenes.GameScene.CreateEntityWith | include/game_client/GameScene.inl:9-22 | at the limit it fails with the list, the counter and every pool unchanged; otherwise the count advances before any add; it succeeds iff every kind has a pool that accepts the new id; only then is the id listed; on failure the pools of some prefix of the kinds hold the new id and the rest are unchanged; ids stay unique |
| Scenes.GameScene.DestroyEntity | src/game_client/GameScene.cpp:38-59 | corrected: false with no change for an absent id; otherwise the id leaves nine pools (not the chunk pool), every other entity keeps its components there, and exactly one copy of the id itself leaves the entities; the counter is kept, so ids stay unique (see Findings) |
| Scenes.GameScene.DestroyEntityAsWritten | src/game_client/GameScene.cpp:38-59 | as written: false with no change for an absent id; otherwise the id leaves nine pools while every other entity keeps its components, then the entry at position `entity` is erased and the count drops, or, past the end of the list, EraseOutOfRange with the list and count kept |
| Scenes.GameScene.RemoveFromPools | src/game_client/GameScene.cpp:42-50 | the entity leaves the first nine pools, each keeping every other member and every other entity's component; the chunk pool, the list and the counter are untouched |
| Scenes.GameScene.RemoveFromPool | src/game_client/GameScene.cpp:42 | RemoveComponent on one pool: that pool's members become `Removed` and only the entity loses its component; every other pool, the list and the counter are unchanged |
| Scenes.GameScene.RemoveFromLeadingPools | src/game_client/GameScene.cpp:42-50 | from pool position i up to the chunk pool each pool loses the entity as in RemoveFromPool; the other pools are unchanged |
| Scenes.GameScene.EraseEntry | src/game_client/GameScene.cpp:52 | corrected erase: exactly one copy of the id leaves the list, the counter and every pool are unchanged, and ids stay unique |
| Scenes.GameScene.EraseEntryAt | src/game_client/GameScene.cpp:52-53 | as written: the entry at position k is erased and the counter drops by one; every pool is unchanged |
| Scenes.GameScene.GetEntities | src/game_client/GameScene.cpp:65-68 | the listed ids are below the limit and no more than the count |
| Scenes.GameScene.SetWorld | src/game_client/GameScene.cpp:74-86 | GetWorld returns the stored entity |
| Scenes.GameScene.SetPlayer | src/game_client/GameScene.cpp:92-104 | GetPlayer returns the stored entity |
| Scenes.GameScene.GetComponent | include/game_client/GameScene.inl:112-157 | null iff the kind has no pool or the entity has no component there; otherwise the very component made for this entity in that kind's pool |
| Scenes.ThreeEntities | src/game_client/GameScene.cpp:24-31 | a new scene after three CreateEntity calls lists [0, 1, 2] with counter 3 and unique ids |
| Scenes.DestroyFirstAsWritten | src/game_client/GameScene.cpp:38-59 | destroying 0 as written then leaves [1, 2] with counter 2 |
| Scenes.WrongEraseAsWritten | src/game_client/GameScene.cpp:52 | destroying 1 next reports success yet leaves [1]: the id 2 was erased in its place (see Findings) |
| Scenes.EraseOutOfRangeAsWritten | src/game_client/GameScene.cpp:52 | destroying 2 next finds it listed and reaches the erase at position 2 of a two-entry list (see Findings) |
| Scenes.ReissueAsWritten | src/game_client/GameScene.cpp:53 | CreateEntity next issues 2 again: [1, 2, 2], so ids are no longer unique (see Findings) |
| Scenes.ReissueCorrected | src/game_client/GameScene.cpp:38-59 | with the corrected DestroyEntity the same run gives [1, 2, 3] and ids stay unique |

## Left out

- Float arithmetic.
  - Noise values, weights and occlusion factors are exact reals.
  - Occlusion factors are products of 0.75 and 1.0, so they are exact.
  - The float rounding of the noise maps and of `smoothstep` is not modelled.
- Noise sampling.
  - The FastNoiseLite Perlin fields are given functions: `flat1`/`flat2` for 2D and `solid1`/`solid2` for 3D, built with seeds 1337 and 9658.
  - Their values are not modelled.
- Random draws.
  - The Poisson disc sampling of `SpawnTrees` and `RandomRange` in `CreateTree` are inputs: a list of samples per chunk, each with its trunk height.
  - The sampler's spacing is not claimed.
- Asynchronous generation. The `isAsync` branch of `GenerateChunks` (threads and futures) is concurrency; only the sequential path is modelled.
- Rendering and resources.
  - `GetChunkTexture`, texture loading, `Mesh` GPU buffers, `Draw`, shaders and the renderer are left out.
  - The material table is a given map. The loader's guarantees are a precondition (`ValidTable`): entries are stored under their own id and have six texture layers.
- Vertex attributes. Vertex positions are kept in half-block units and UVs as 0/1 corners. Float normals are integer directions.
- `TryAddBlock`/`TryAddBlocks`: the float ray-hit normalisation is not modelled.
- `DebugBlock`, `Print` and the destructors: console output and memory management.
- `GenerateChunks` and `ProcessNoiseMap` take a `playerPos` parameter. Neither uses it, so the model has none.
- ChunkManager.GetChunks: takes `size` as `nat`. A negative `int` size returns no chunks in the source; no caller passes one.
- Scenes.GameScene.GetEntities: states only the bounds on the returned list, because it returns the field itself.
- Exceptions are result values.
  - `GetBlockActual`, `InitTerrain` and `CreateMesh` return `Err`/`Fail` where the source throws.
  - `CreateEntity`, `AddComponentToEntity` and `CreateEntityWith` return `Err`/`Fail` where the source throws.
  - A throw in the middle of `CreateEntityWith` leaves earlier pool adds in place, as in the source.
  - `DestroyEntityAsWritten` returns `Err(EraseOutOfRange)` where the source's `erase` past the end of the list is undefined behaviour.
- Scenes.GameScene.DestroyEntity: models the corrected removal (the id itself is erased, the counter is kept). The source erases at position `entity` and decrements the counter; that behaviour is `Scenes.GameScene.DestroyEntityAsWritten`.
- Meshing.Update: requires a mesh on a dirty chunk. Without one, the source's `UpdateMesh` dereferences a null mesh. Every chunk that `GenerateChunks` returns has a mesh (`GeneratedWorld`), so the case is not reached after generation.
- Component contents. Components are default-constructed objects. Only their type and identity are modelled.
- ChunkManager.Environments: gives no per-chunk closed form for the environment pass over all chunks. It states layout, coherence and material facts. Each step is `Trees.EnvironmentSpec`.

## Findings

| source | as written | input that shows it | evidently intended | confidence | as-written member | corrected member |
|---|---|---|---|---|---|---|
| src/game_client/GameScene.cpp:52 | `entities.erase(entities.begin() + entity)` erases the element at position `entity`, after finding `entity` by value | entities [0, 1, 2]: DestroyEntity(0) leaves [1, 2]; DestroyEntity(1) then erases the id 2 and keeps 1; DestroyEntity(2) instead finds 2 and erases past the end of the list, which is undefined behaviour | erase the id `entity` itself | high (not executed) | Scenes.EraseAtRemovesWrongEntity | Scenes.EraseEntityRemovesOne |
| src/game_client/GameScene.cpp:53 | `entityCount--` lowers the counter that CreateEntity uses as the next id (include/game_client/GameScene.inl:15) | entities [0, 1, 2]: DestroyEntity(0) leaves [1, 2] with counter 2; CreateEntity then issues 2 again, giving [1, 2, 2] | a live id is never issued again | medium (not executed) | Scenes.ReissueAsWritten | Scenes.GameScene.DestroyEntity |
