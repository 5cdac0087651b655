# bevy-craft core in Dafny

A model of the discrete core of bevy-craft, a Minecraft-style voxel game written in Rust with
the Bevy engine, with proofs about it. The model covers:

- **Blocks** (`block.dfy`): the block types and their solid and transparent predicates.
- **Chunks** (`chunk.dfy`): chunk coordinates, the flat 16 x 128 x 16 voxel vector with
  bounds-guarded reads and writes, per-column biome data, world-to-local conversion and the chunk
  manager's load and unload radius tests.
- **Meshing** (`chunk_mesh.dfy`): face culling against neighbouring cells and chunks, and the mesh
  buffers that receive one quad per visible face.
- **Texture atlas** (`texture_atlas.dfy`): the 4 x 2 grid of block textures.
- **Terrain** (`world_gen.dfy`): noise value to column height, column layering with bedrock,
  stone, dirt, grass, sand and exposed stone, and the two-chunks-per-frame generation system.
- **Noise cache** (`world_noise_cache.dfy`): the regional noise cache that samples 3 x 3 chunks
  at once.
- **Inventory** (`inventory.dfy`): 36 slots of stacks capped at 64, with a hotbar cursor.
- **Crafting** (`crafting.dfy`): the recipe book and the crafting request handler with its
  all-or-nothing ingredient removal and refund.
- **Block interaction** (`block_interaction.dfy`): breaking blocks over time and placing blocks
  next to the targeted face.
- **Biome textures** (`biome_textures.dfy`): the biome parameters per block type and height, and
  the cache key.
- **Caches** (`lru.dfy`, `texture_cache.dfy`, `material_cache.dfy`): the LRU caches of biome
  textures and biome materials, with their count and memory budgets.
- **GPU buffers** (`alkyd_buffers.dfy`): the Alkyd GPU buffer manager's memory accounting.
- **Weather** (`weather.dfy`): the weather state machine and the lightning timer.

Stateful Rust structs whose methods mutate them are Dafny classes, except `ItemStack`, a value type whose
`add` and `remove` return the new stack and the amount. Pure helpers are functions,
and the promised properties are lemmas over them. The noise function, the random number
generator and the asset server are parameters of the operations that use them.

## Model

| member | source | states |
|---|---|---|
| Blocks.SolidExactly | src/block.rs:49-54 | a block is non-solid exactly when it is Air or Water |
| Blocks.TransparentExactly | src/block.rs:57-62 | a block is transparent exactly when it is Air, Water or Leaves |
| Blocks.SolidTransparentRelation | src/block.rs:49-62 | every non-solid block is transparent, and Leaves is the only block that is both solid and transparent |
| Blocks.NameShape | src/block.rs:19-31 | every display name is non-empty and contains no '-', so it can be a key component |
| Blocks.NameInjective | src/block.rs:19-31 | two block types have the same name exactly when they are the same type |
| Blocks.AllBlockTypesComplete | src/block.rs:5-15 | the list of nine block types contains every variant |
| Blocks.Name | src/block.rs:19-31 | the display name of each block type, as the table gives it; its properties are stated by NameShape and NameInjective |
| Blocks.IsSolid | src/block.rs:49-54 | is_solid, false for Air and Water only; stated by SolidExactly |
| Blocks.IsTransparent | src/block.rs:57-62 | is_transparent, true for Air, Water and Leaves; stated by TransparentExactly |
| Common.IndexOf | src/biome_texture_cache.rs:224 | first position of an element: None exactly when absent, otherwise an index holding it with no earlier occurrence |
| Chunks.FromBlockPosition | src/chunk.rs:28-32 | the chunk of a block position is the one whose 16-wide x and z ranges contain the block |
| Chunks.MinBlockPosition | src/chunk.rs:35-41 | a chunk's lowest corner is at y 0, aligned to 16, and maps back to the same chunk |
| Chunks.BlockInsideItsChunk | src/chunk.rs:28-41 | a block lies between its chunk's minimum corner and that corner plus 16, on x and on z |
| Chunks.Neighbors | src/chunk.rs:44-51 | four distinct edge neighbours, each at Manhattan distance 1 |
| Chunks.AllNeighbors | src/chunk.rs:54-65 | eight distinct neighbours at Chebyshev distance 1, the first four being the edge neighbours |
| Chunks.AllNeighborsComplete | src/chunk.rs:54-65 | every chunk at Chebyshev distance 1 is among the eight neighbours |
| Chunks.LocalToIndex | src/chunk.rs:102-104 | the flat index of an in-chunk cell is below the chunk volume |
| Chunks.IndexToLocal | src/chunk.rs:107-113 | the coordinates recovered from an index below the volume lie inside the chunk |
| Chunks.LocalIndexRoundTrip | src/chunk.rs:102-113 | index_to_local undoes local_to_index for every in-chunk cell |
| Chunks.IndexLocalRoundTrip | src/chunk.rs:102-113 | local_to_index undoes index_to_local for every index below the volume |
| Chunks.LocalToIndexInjective | src/chunk.rs:102-104 | distinct in-chunk cells have distinct indices |
| Chunks.BlockAt | src/chunk.rs:82-89 | a cell read gives nothing outside the chunk and the stored entry inside it |
| Chunks.ChunkData.constructor | src/chunk.rs:75-79 | a new chunk data holds nothing in every one of its 32768 cells |
| Chunks.ChunkData.GetBlock | src/chunk.rs:82-89 | get_block answers None out of bounds and the cell's content inside |
| Chunks.ChunkData.SetBlock | src/chunk.rs:92-99 | set_block writes exactly the addressed in-bounds cell, reads back the written type there, and changes nothing when out of bounds |
| Chunks.ChunkBiomeData.constructor | src/chunk.rs:131-135 | new biome data holds the default entry for each of the 256 columns |
| Chunks.ChunkBiomeData.GetBiomeData | src/chunk.rs:150-157 | get_biome_data answers the column's entry exactly when its flat index is inside the table, and None otherwise |
| Chunks.ChunkBiomeData.SetBiomeData | src/chunk.rs:138-147 | set_biome_data writes exactly the addressed column, keeps every other entry, and changes nothing out of bounds |
| Chunks.WorldToLocal | src/chunk.rs:195-201 | x and z are reduced into 0..15 congruent to the world coordinate, y is clamped into 0..127 |
| Chunks.WorldToLocalInside | src/chunk.rs:195-211 | for a contained position, the local coordinates are the world position minus the chunk's minimum corner |
| Chunks.ContainsExactly | src/chunk.rs:204-211 | contains holds exactly when the position's chunk is this chunk and its height is within 0..127 |
| Chunks.Contains | src/chunk.rs:204-211 | contains: the position lies in the box from the chunk's minimum block position, 16 x 128 x 16 blocks; characterised by ContainsExactly |
| Chunks.Chunk.constructor | src/chunk.rs:171-179 | a new chunk is empty, at its position, not generated and in need of a mesh |
| Chunks.Chunk.GetBlockWorld | src/chunk.rs:182-185 | reading by world position reads the cell at the position's local coordinates |
| Chunks.Chunk.SetBlockWorld | src/chunk.rs:188-192 | writing by world position stores the block at its local cell, keeps every cell with other local coordinates, and flags a mesh update |
| Chunks.ShouldLoadChunk | src/chunk.rs:230-234 | load exactly when the Chebyshev distance to the player's chunk is within the render distance |
| Chunks.ShouldUnloadChunk | src/chunk.rs:237-241 | unload exactly when the Chebyshev distance to the player's chunk exceeds the render distance |
| Chunks.LoadUnloadComplement | src/chunk.rs:230-241 | unload holds exactly when load does not |
| Chunks.GetNeighborBlock | src/chunk.rs:283-306 | the neighbour's block is read at the mirrored edge coordinate, and nothing is read when the neighbour is not loaded |
| Chunks.NeighborLocal | src/chunk.rs:289-299 | the edge coordinate on the neighbour's side is 0, 15 or unchanged, by direction |
| ChunkMeshing.FacesUpToExactly | src/chunk_mesh.rs:273-347 | among the first k faces of the emission order, exactly the visible ones are emitted, each once |
| ChunkMeshing.VisibleFacesExactly | src/chunk_mesh.rs:82-84 | the emitted faces are exactly the visible ones, at most six and each once, and some face is emitted exactly when `any` holds |
| ChunkMeshing.VisibilityAlongNormal | src/chunk_mesh.rs:100-168 | each face's visibility is decided by the cell one step along that face's normal |
| ChunkMeshing.CheckFaceVisibility | src/chunk_mesh.rs:88-171 | the record built face by face equals the reference visibility; top and bottom faces always show at the height limits, and edge faces show when the neighbour chunk is not loaded |
| ChunkMeshing.ShouldRenderFace | src/chunk_mesh.rs:101 | a face shows when the cell across it holds nothing, Air or a transparent block |
| ChunkMeshing.Visibility | src/chunk_mesh.rs:88-171 | the reference visibility record: each face shows exactly when ShouldRenderFace holds of the cell across it, read from this chunk, a loaded neighbour, or nothing; related to the face normals by VisibilityAlongNormal and to the code by CheckFaceVisibility |
| ChunkMeshing.CheckZFaces | src/chunk_mesh.rs:104-126 | front and back visibility equal the reference, and show at an edge without a loaded neighbour |
| ChunkMeshing.CheckXFaces | src/chunk_mesh.rs:128-150 | right and left visibility equal the reference, and show at an edge without a loaded neighbour |
| ChunkMeshing.GetBlockUv | src/chunk_mesh.rs:351-365 | every block type uses the whole texture |
| ChunkMeshing.FaceNormal | src/chunk_mesh.rs:273-347 | a face's normal is the offset to the cell across that face |
| ChunkMeshing.FaceQuadOnPlane | src/chunk_mesh.rs:273-347 | each quad has four distinct corners of the cell's unit cube, all on the face's plane |
| ChunkMeshing.Quads | src/chunk_mesh.rs:257-348 | a block contributes four positions per visible face |
| ChunkMeshing.QuadNormals | src/chunk_mesh.rs:184-188 | a block contributes four normals per visible face |
| ChunkMeshing.RepeatUvs | src/chunk_mesh.rs:189-192 | a block contributes four UVs per visible face |
| ChunkMeshing.QuadsOnCube | src/chunk_mesh.rs:273-347 | every vertex a block contributes lies on that block's unit cube |
| ChunkMeshing.MeshBuffers.constructor | src/chunk_mesh.rs:209-212 | the buffers start empty and whole |
| ChunkMeshing.MeshBuffers.IndicesInRange | src/chunk_mesh.rs:194 | in whole buffers every index names an existing vertex |
| ChunkMeshing.MeshBuffers.AddFace | src/chunk_mesh.rs:174-195 | add_face appends the 4 vertices, 4 normals, 4 UVs and the two triangles' 6 indices from the base, and keeps the buffers whole when the base is the vertex count |
| ChunkMeshing.MeshBuffers.AddBlockMesh | src/chunk_mesh.rs:257-348 | add_block_mesh appends exactly the quads, normals and UVs of the visible faces in emission order, 6 indices per face, and keeps the buffers whole |
| ChunkMeshing.MeshBuffers.AddFaceIf | src/chunk_mesh.rs:273-283 | one step of the block mesher adds the k-th face's quad exactly when it is visible and advances the running index by 4 |
| ChunkMeshing.Step | src/chunk_mesh.rs:184-194 | emitting one more face extends the buffers by that face's quad, normals and UVs |
| ChunkMeshing.Append | src/chunk_mesh.rs:184-194 | appending a face to the list appends its quad, its normals and its UVs |
| ChunkMeshing.CellFaces | src/chunk_mesh.rs:218-238 | a cell contributes at most six faces: none when empty or Air |
| ChunkMeshing.QuadsInChunkBox | src/chunk_mesh.rs:273-347 | the quads of a chunk cell keep every vertex inside the chunk's box |
| ChunkMeshing.MeshCell | src/chunk_mesh.rs:218-238 | the cell loop body appends four vertices per visible face of a non-Air cell and keeps every vertex in the chunk's box |
| ChunkMeshing.GenerateChunkMesh | src/chunk_mesh.rs:198-254 | the mesh has 4 vertices, normals and UVs and 6 indices per visible face of every non-Air cell, every index names a vertex, every vertex is in the chunk's box, and attributes are set exactly when some face was emitted |
| Atlas.Cell | src/texture_atlas.rs:51-58 | each textured block type has a cell in the 4 x 2 grid |
| Atlas.BlockRectTable | src/texture_atlas.rs:47-58 | the rectangle of each of the eight block types, in the grid's constants |
| Atlas.CellTableHasCells | src/texture_atlas.rs:51-58 | inserting the eight entries gives every textured block type its cell's rectangle |
| Atlas.CellTableKeys | src/texture_atlas.rs:51-58 | the insertions add exactly the eight textured types as keys and keep any Air entry |
| Atlas.CellInjective | src/texture_atlas.rs:51-58 | distinct textured block types have distinct cells |
| Atlas.BlockRectIsCell | src/texture_atlas.rs:47-58 | each rectangle is 0.25 wide and 0.5 high and lies in the unit square |
| Atlas.CellsApart | src/texture_atlas.rs:47-58 | distinct grid cells do not overlap |
| Atlas.BlockRectsApart | src/texture_atlas.rs:47-58 | distinct textured block types get distinct, non-overlapping rectangles |
| Atlas.TextureAtlas.constructor | src/texture_atlas.rs:20-28 | the default atlas has no entries and is not loaded |
| Atlas.TextureAtlas.Initialize | src/texture_atlas.rs:32-64 | initialize inserts the eight entries over the old table, records the handle and leaves the atlas loaded with every textured type at its cell |
| Atlas.TextureAtlas.GetUv | src/texture_atlas.rs:67-71 | get_uv answers the stored rectangle, or the whole image without an entry |
| Atlas.InitializedLookups | src/texture_atlas.rs:32-71 | after initialize, get_uv gives each textured type its own cell and Air the whole image |
| Atlas.InitializedUvsApart | src/texture_atlas.rs:32-71 | after initialize, two distinct textured types never have overlapping rectangles |
| Atlas.EmptyAtlasFallsBack | src/texture_atlas.rs:20-28 | a default atlas answers every lookup with the whole image |
| WorldGen.CalculateHeight | src/world_gen.rs:170-183 | the height is in [2, 127]: 2 when the raw height is at most 2, 127 when it is at least 127, and the raw height rounded down in between |
| WorldGen.LayersBeforeFeatures | src/world_gen.rs:197-216 | before the features, stone fills [1, stone height) and dirt fills [stone height, eh), with 2 <= stone height < eh |
| WorldGen.StoneHeight | src/world_gen.rs:197-206 | the stone top is 90%, 80% or 60% of the effective height by band, truncated; LayersBeforeFeatures states that it lies in [2, eh) above the minimum height |
| WorldGen.ColumnShape | src/world_gen.rs:186-225 | a finished column has bedrock at 0, grass at the top, only stone, dirt or sand between, and nothing above |
| WorldGen.FeaturesPlacement | src/world_gen.rs:228-248 | sand lands exactly at y 3..6 below the top in columns 6..11 high, exposed stone exactly in the three cells below the top of columns above 30, and neither at the top |
| WorldGen.AddEnvironmentalFeatures | src/world_gen.rs:228-248 | the features write exactly their cells of this column and nothing in other columns |
| WorldGen.GenerateTerrainColumn | src/world_gen.rs:186-225 | the column holds its layered terrain with the features over it, for height max(h, 3); other columns are unchanged |
| WorldGen.FillNextColumn | src/world_gen.rs:51-75 | one step of the heightmap loop fills column (x, z) from its noise, so one more column is done |
| WorldGen.RowDone | src/world_gen.rs:51-52 | finishing the last column of a row is starting the next row |
| WorldGen.GenerateChunkHeightmap | src/world_gen.rs:39-87 | every column holds the terrain for its noise, the chunk is marked generated and in need of a mesh, and the statistics cover 256 heights within [2, 127] |
| WorldGen.StatsStep | src/world_gen.rs:67-71 | adding a height keeps the running minimum, maximum and total consistent |
| WorldGen.PendingCount | src/world_gen.rs:260-269 | the number of pending chunks among the first n is at most n |
| WorldGen.PendingMonotone | src/world_gen.rs:260-269 | the pending count never decreases along the list |
| WorldGen.GenerateChunksSystem | src/world_gen.rs:252-271 | exactly the first min(2, pending) pending chunks are generated, with their terrain filled in, and flagged for a mesh update; every other chunk is left as it was |
| WorldGen.FrameOutcome | src/world_gen.rs:252-271 | what one frame leaves in a chunk: a picked chunk is generated with its terrain filled in and flagged for a mesh update, any other keeps its flags and blocks |
| WorldGen.GenerateIfPending | src/world_gen.rs:261-263 | a chunk is generated exactly when it was pending, otherwise left unchanged |
| WorldGen.Separate | src/world_gen.rs:252-260 | in a list of distinct chunks, no chunk shares itself or its storage with another |
| NoiseCache.CenterAsWritten | src/world_noise_cache.rs:45-50 | the centre as written, floor(coord / 48) * 3 + 1, is always 1 modulo 3 |
| NoiseCache.CenterOf | src/world_noise_cache.rs:45-50 | the corrected centre, floor(coord / 3) * 3 + 1, is 1 modulo 3 and at most one chunk away from the coordinate |
| NoiseCache.AsWrittenSlotInRange | src/world_noise_cache.rs:45-50 | with the centre as written, the chunk's slot lies inside the 3-chunk region exactly for coordinates -3..2 |
| NoiseCache.AsWrittenChunkThreeOutOfRange | src/world_noise_cache.rs:97-103 | chunk 3 gets centre 1 and slot 3, past the 48-row region, while the corrected centre gives 4 and slot 0 |
| NoiseCache.ExtractAsWritten | src/world_noise_cache.rs:89-108 | the slice as written is defined exactly for chunk coordinates -3..2 on both axes, and indexes out of the array otherwise |
| NoiseCache.ExtractChunkFromRegion | src/world_noise_cache.rs:89-108 | extraction with the corrected centre yields a 16 x 16 array whose sample (x, z) is the region's cell at the chunk's slot plus (x, z) |
| NoiseCache.SliceOfSampledRegion | src/world_noise_cache.rs:60-105 | slicing a region sampled around a chunk's centre gives the noise at that chunk's own world columns |
| NoiseCache.WorldNoiseCache.constructor | src/world_noise_cache.rs:9-17 | the cache starts with no regions and no users |
| NoiseCache.WorldNoiseCache.GenerateAndCacheRegion | src/world_noise_cache.rs:53-86 | the returned region is the 48 x 48 noise grid starting one chunk before the centre, it is stored under the centre, and the requesting chunk is appended to that centre's users |
| NoiseCache.WorldNoiseCache.GetChunkNoise | src/world_noise_cache.rs:21-42 | afterwards the chunk's region is cached; a hit changes nothing; and while every cached region came from the same noise, the result is the noise at the chunk's own world columns on a hit and on a miss alike; uses the corrected region centre (see Findings) |
| NoiseCache.WorldNoiseCache.ClearUnusedCache | src/world_noise_cache.rs:111-121 | both maps keep exactly the entries whose centre is the centre of some active chunk; uses the corrected region centre (see Findings) |
| NoiseCache.ActiveCenters | src/world_noise_cache.rs:112-117 | a centre is active exactly when some active chunk maps to it; uses the corrected region centre (see Findings) |
| Inventories.ItemName | src/inventory.rs:20-29 | an item's name is the name of the block, tool, resource or food it wraps, and is never empty |
| Inventories.KindNamesInjective | src/inventory.rs:40-95 | within tools, resources and foods, distinct variants have distinct names |
| Inventories.ItemStack.Add | src/inventory.rs:145-150 | add keeps the item type, loses nothing (new quantity plus leftover equals old quantity plus amount), stays within the cap, leaves a leftover only when the stack is full, and leaves none exactly when can_add holds or the amount is 0 |
| Inventories.ItemStack.Remove | src/inventory.rs:152-156 | remove takes out at most the amount and at most the quantity, lowers the quantity by what it reports, and either takes the whole amount or empties the stack |
| Inventories.ItemStack.IsEmpty | src/inventory.rs:137-139 | is_empty: a stack of quantity 0 is an empty slot |
| Inventories.ToolName | src/inventory.rs:40-47 | the display name of each tool type |
| Inventories.ResourceName | src/inventory.rs:61-69 | the display name of each resource type |
| Inventories.FoodName | src/inventory.rs:85-95 | the display name of each food type |
| Inventories.ItemStack.CanAdd | src/inventory.rs:141-143 | can_add: the amount fits when quantity plus amount is within the stack size |
| Inventories.CountAppend | src/inventory.rs:309-327 | the count of an item over two rows is the sum of the two counts |
| Inventories.CountUpdate | src/inventory.rs:309-327 | overwriting one slot changes the count by the difference between the old and new stacks' contributions |
| Inventories.FirstWhere | src/inventory.rs:235-273 | the first index satisfying a predicate: None exactly when no slot does, otherwise a satisfying slot with none before it |
| Inventories.FindFirst | src/inventory.rs:235-273 | the scan in index order finds exactly the first satisfying slot |
| Inventories.AddToRows | src/inventory.rs:233-276 | the four scans of add_item compute exactly the specification, with empty slots capped |
| Inventories.FillEmptySlot | src/inventory.rs:256-275 | when no slot can be topped up, the last two scans compute exactly the specification |
| Inventories.AddTarget | src/inventory.rs:233-276 | the chosen slot, if any, is an index of its row |
| Inventories.AddItemSpec | src/inventory.rs:233-276 | add_item keeps the row lengths and changes nothing when no slot is found |
| Inventories.AddItemAsWritten | src/inventory.rs:233-276 | the code as written, where an empty slot takes any quantity, keeps the row lengths |
| Inventories.AddItemAsWrittenOverfills | src/inventory.rs:256-264 | adding 100 stone to an empty default inventory puts 100 in the first hotbar slot, over the cap of 64 |
| Inventories.PutCount | src/inventory.rs:258-272 | putting q of an item into a slot of that item or an empty slot raises its count by q and leaves other counts alone |
| Inventories.TargetCompatible | src/inventory.rs:233-276 | the slot add_item fills always holds the same item or is empty |
| Inventories.AddItemCount | src/inventory.rs:233-276 | a successful add_item raises the count of the item by exactly q, and no other item's count changes; a failed one changes nothing |
| Inventories.AddItemKeepsCap | src/inventory.rs:233-276 | with the cap applied to empty slots, add_item keeps every stack within the cap |
| Inventories.TakeFrom | src/inventory.rs:283-301 | taking from a row keeps its length and never wants more than asked |
| Inventories.TakeFromZero | src/inventory.rs:283-301 | taking nothing changes nothing |
| Inventories.TakeFromAppend | src/inventory.rs:283-301 | taking from a row is taking from its first part and then, with what is still wanted, from the rest |
| Inventories.TakeFromRemoved | src/inventory.rs:283-301 | taking from a row removes min(want, count) of the item |
| Inventories.TakeFromCount | src/inventory.rs:283-301 | taking lowers the item's count by the number removed and leaves other items' counts alone |
| Inventories.RemoveItemRemoved | src/inventory.rs:279-305 | remove_item removes and reports min(q, count over both rows) |
| Inventories.RemoveItemSpec | src/inventory.rs:279-305 | the corrected remove_item: take from the hotbar first and the rest from the main grid; RemoveItemRemoved and RemoveItemCount state what it removes |
| Inventories.RemoveItemCount | src/inventory.rs:279-305 | remove_item lowers the item's count by the number it reports and leaves every other count alone |
| Inventories.TakeAsWritten | src/inventory.rs:283-301 | the as-written scan keeps the row length and never wants more than asked |
| Inventories.RemoveItemAsWrittenMiscounts | src/inventory.rs:279-305 | as written, removing 3 stone from two stacks of 10 takes 3 from each and reports 0 removed |
| Inventories.RemoveItemAsWritten | src/inventory.rs:279-305 | remove_item as written: every matching stack loses the amount still wanted, the removed amount is stored as the amount still wanted, the scan stops when a stack gives nothing; shown by RemoveItemAsWrittenMiscounts |
| Inventories.Swapped | src/inventory.rs:347-396 | exchanging two slots puts each stack in the other's place, keeps every other slot, and is a permutation |
| Inventories.SwapWithinAsWrittenBehaviour | src/inventory.rs:349-370 | the split-based swap equals the plain exchange for distinct slots, and indexes out of range for a slot with itself |
| Inventories.SwapWithinAsWritten | src/inventory.rs:349-357 | swap_slots within one row as written: the row split at the larger index, None where the indexing panics; SwapWithinAsWrittenBehaviour states when |
| Inventories.NextSlot | src/inventory.rs:219-221 | the next cursor is inside the hotbar |
| Inventories.PreviousSlot | src/inventory.rs:224-230 | the previous cursor of an in-range cursor is inside the hotbar |
| Inventories.CursorRoundTrip | src/inventory.rs:219-230 | next and previous undo each other on in-range cursors |
| Inventories.Inventory.constructor | src/inventory.rs:189-198 | new sets the sizes and cap, empties every slot and selects slot 0 |
| Inventories.Inventory.Default | src/inventory.rs:170-185 | the default inventory has 27 empty main slots, 9 empty hotbar slots, a cap of 64 and slot 0 selected |
| Inventories.Inventory.GetSelectedItem | src/inventory.rs:201-203 | a stack is returned exactly when the cursor is inside the hotbar, and it is a hotbar stack |
| Inventories.Inventory.SelectHotbarSlot | src/inventory.rs:212-216 | an in-range slot is selected, an out-of-range one is ignored, and nothing else changes |
| Inventories.Inventory.NextHotbarSlot | src/inventory.rs:219-221 | the cursor moves to the next slot, wrapping to 0 |
| Inventories.Inventory.PreviousHotbarSlot | src/inventory.rs:224-230 | the cursor moves to the previous slot, wrapping from 0 to the last |
| Inventories.Inventory.AddItem | src/inventory.rs:233-276 | add_item changes the rows exactly as the specification with capped empty slots, so the count lemmas apply |
| Inventories.Inventory.TakeFromRow | src/inventory.rs:283-301 | the loop over one row computes exactly TakeFrom |
| Inventories.Inventory.RemoveItem | src/inventory.rs:279-305 | remove_item changes the rows and reports exactly as the corrected specification |
| Inventories.Inventory.GetItemCount | src/inventory.rs:309-327 | the loop's count is the total quantity of the item over both rows |
| Inventories.Inventory.HasItem | src/inventory.rs:331-333 | has_item holds exactly when the count reaches the quantity |
| Inventories.Inventory.ClearSlot | src/inventory.rs:337-343 | exactly the addressed in-range slot becomes empty; an out-of-range index changes nothing |
| Inventories.Inventory.SwapSlots | src/inventory.rs:347-396 | the addressed slots are exchanged, within a row or across rows; an out-of-range index changes nothing |
| Crafting.Size | src/crafting.rs:51-57 | a grid has the square of its side as cell count: 1, 4 or 9 |
| Crafting.FirstOf | src/crafting.rs:91-95 | the first entry of the available list for an item: None exactly when the list has none, otherwise that entry with none before it |
| Crafting.CanCraft | src/crafting.rs:89-105 | can_craft holds exactly when, for every ingredient, the first listed entry of its item has at least the required quantity |
| Crafting.Satisfied | src/crafting.rs:91-100 | an ingredient is available when the first listed entry of its item has at least its quantity |
| Crafting.Craftable | src/crafting.rs:89-105 | can_craft as a predicate: every ingredient satisfied; CanCraft is proved against it |
| Crafting.CanCraftExamples | src/crafting.rs:435-471 | the stone pickaxe recipe is craftable from 3 stone and a pickaxe and not from 2 stone alone |
| Crafting.CanCraftFromInventory | src/crafting.rs:406-413 | holds exactly when the inventory has, in total, each ingredient's quantity |
| Crafting.CraftableRecipes | src/crafting.rs:134-142 | the craftable recipes are exactly the book's recipes that can_craft accepts |
| Crafting.CraftableRecipesSnoc | src/crafting.rs:136-141 | one more book recipe extends the result by that recipe when it is craftable and by nothing otherwise, so the book order is kept |
| Crafting.CraftableRecipesCounts | src/crafting.rs:136-141 | duplicates are kept: each craftable recipe occurs in the result as often as in the book, every other recipe not at all |
| Crafting.CraftableRecipesAppend | src/crafting.rs:136-141 | filtering two books joined is joining their filtered lists, in the same order |
| Crafting.CraftableRecipesSingle | src/crafting.rs:136-141 | a one-recipe book gives that recipe when it is craftable and nothing otherwise |
| Crafting.FindRecipe | src/crafting.rs:125-127 | the first recipe with an id: None exactly when no recipe has it, otherwise one with that id and none before it |
| Crafting.LookupRecipe | src/crafting.rs:125-127 | the looked-up recipe is the FIRST book recipe with the id (no earlier recipe has it), and None means no recipe has it |
| Crafting.RecipeBook.constructor | src/crafting.rs:115-119 | a new book has no recipes |
| Crafting.RecipeBook.AddRecipe | src/crafting.rs:121-123 | add_recipe appends the recipe |
| Crafting.RecipeBook.GetRecipe | src/crafting.rs:125-127 | get_recipe returns the first recipe with the id (every earlier recipe has another id), and None exactly when no recipe has it |
| Crafting.RecipeBook.FindCraftableRecipes | src/crafting.rs:134-142 | the result is CraftableRecipes of the book: exactly the recipes craftable from the available items, in book order, each as often as in the book |
| Crafting.InitializeRecipeBook | src/crafting.rs:146-205 | the default book holds the five default recipes in order |
| Crafting.DefaultRecipes | src/crafting.rs:146-205 | the five default recipes, ingredients and outputs as the source lists them; DefaultRecipeIdsDistinct and DefaultIngredientsDistinct state their shape |
| Crafting.DefaultRecipeIdsDistinct | src/crafting.rs:146-205 | the default book has five recipes with pairwise distinct ids |
| Crafting.DefaultRecipesFound | src/crafting.rs:125-127 | looking up each default recipe's id finds that recipe |
| Crafting.DefaultIngredientsDistinct | src/crafting.rs:146-205 | no default recipe lists the same item twice |
| Crafting.Shortfalls | src/crafting.rs:261-274 | there is no shortfall exactly when every ingredient's total count covers quantity times n, and every shortfall has less than required |
| Crafting.CraftSpec | src/crafting.rs:253-331 | a request fails with "recipe not found" exactly when the id is unknown, fails with missing ingredients exactly when some ingredient falls short, and in both cases leaves the inventory untouched, with the corrected remove_item/add_item (see Findings) |
| Crafting.RemoveAllCount | src/crafting.rs:277-279 | removing each ingredient in turn removes, of every item, min(count, total need), with the corrected remove_item/add_item (see Findings) |
| Crafting.RemoveAll | src/crafting.rs:277-279 | the removal loop with the corrected remove_item: each ingredient removed in turn; RemoveAllCount states the counts |
| Crafting.RemoveAllAsWritten | src/crafting.rs:277-279 | the removal loop with remove_item as written: the hotbar and main rows keep their lengths |
| Crafting.StickCraftAsWrittenOverdraws | src/crafting.rs:276-279 | crafting sticks (2 wood) from wood stacks of 64 and 10 with remove_item as written passes the availability check yet takes 4 wood, leaving 70 of 74, where the corrected removal leaves 72 |
| Crafting.RemoveStep | src/crafting.rs:278 | one remove_item takes min(q, total) of its item and keeps every other item's total, with the corrected remove_item/add_item (see Findings) |
| Crafting.AddStep | src/crafting.rs:284-306 | one successful add_item adds q of its item and keeps every other item's total |
| Crafting.MinStep | src/crafting.rs:277-279 | taking min(have, q) after min(have, need) is taking min(have, need + q) at once |
| Crafting.AddAllCount | src/crafting.rs:305-307 | when every refund add succeeds, every item's count rises by its total need, with the corrected remove_item/add_item (see Findings) |
| Crafting.AddAll | src/crafting.rs:305-307 | the refund loop with the cap-respecting add_item: each ingredient added back in turn, and whether every add succeeded; AddAllCount states the counts |
| Crafting.NeedOfDistinct | src/crafting.rs:261-279 | with distinct ingredient items, an item's total need is that of its one ingredient, or nothing |
| Crafting.NeedAbsent | src/crafting.rs:261-279 | an item no ingredient names is not needed |
| Crafting.EnoughOfEverything | src/crafting.rs:261-276 | with no shortfall and distinct ingredient items, the inventory holds at least the need of every item |
| Crafting.CraftedCounts | src/crafting.rs:276-298 | a successful craft consumes exactly quantity times n of each ingredient and adds output quantity times n of the output; no other count changes, with the corrected remove_item/add_item (see Findings) |
| Crafting.RefundRestores | src/crafting.rs:299-310 | when the output does not fit and every refund succeeds, every item's count is back where it started, with the corrected remove_item/add_item (see Findings) |
| Crafting.FindShortfalls | src/crafting.rs:261-274 | the availability loop computes exactly the shortfalls, before anything is removed |
| Crafting.RemoveIngredients | src/crafting.rs:277-279 | the removal loop changes the rows exactly as removing each ingredient in turn, with the corrected remove_item/add_item (see Findings) |
| Crafting.RefundIngredients | src/crafting.rs:305-307 | the refund loop changes the rows exactly as adding each ingredient back in turn, with the corrected remove_item/add_item (see Findings) |
| Crafting.Craft | src/crafting.rs:254-330 | one request changes the inventory and sends the event exactly as CraftSpec says, with the corrected remove_item/add_item (see Findings) |
| Crafting.CraftAll | src/crafting.rs:253-331 | a run of requests gives one outcome per request |
| Crafting.Successes | src/crafting.rs:285-290 | the success events are at most one per outcome |
| Crafting.Failures | src/crafting.rs:300-327 | each outcome is a success or a failure, never both |
| Crafting.CraftAllStep | src/crafting.rs:253 | handling one more request extends the run by that request's CraftSpec step |
| Crafting.OutcomesStep | src/crafting.rs:285-327 | one more outcome adds its event to exactly one of the two lists |
| Crafting.HandleCraftingRequests | src/crafting.rs:246-332 | the requests are handled in order as CraftAll says, and each sends exactly one success or one failure event, with the corrected remove_item/add_item (see Findings) |
| BlockInteraction.DominantAxis | src/block_interaction.rs:319-349 | the chosen axis has the largest absolute component, ties going to x and then to y |
| BlockInteraction.FindAdjacentBlockPosition | src/block_interaction.rs:309-350 | the result is one step from the target along the dominant axis only, towards positive exactly when that component is positive |
| BlockInteraction.AdjacentIgnoresOrigin | src/block_interaction.rs:309-313 | the adjacent cell does not depend on the ray origin |
| BlockInteraction.BreakStep | src/block_interaction.rs:49-112 | without the button or without a hit the progress resets and nothing breaks; a break happens only on a hit of a loaded, non-Air block and leaves the progress reset |
| BlockInteraction.BreakStepKeepsWellFormed | src/block_interaction.rs:49-112 | every frame with non-negative time keeps a target exactly while breaking, no damage without one, and damage below one unit |
| BlockInteraction.NewTargetStartsAfresh | src/block_interaction.rs:69-80 | aiming at a new cell starts its damage from zero, so one frame's damage is all it has |
| BlockInteraction.SameTargetAccumulates | src/block_interaction.rs:76-92 | on the same cell the damage of successive frames adds up until the block breaks |
| BlockInteraction.BlockBreakingProgress.constructor | src/block_interaction.rs:101-112 | breaking progress starts with no target, no damage and not breaking |
| BlockInteraction.BlockBreakingProgress.BlockBreakingSystem | src/block_interaction.rs:20-113 | one frame updates the progress as BreakStep says; on a break exactly the hit cell becomes Air, every other cell is kept, the chunk is marked for a mesh update and one item of the block is added to the inventory; otherwise the chunk and the inventory are untouched |
| BlockInteraction.BlockBreakingProgress.Damage | src/block_interaction.rs:65-95 | the frame on a breakable block follows BreakStep; a break writes Air into the hit cell only, keeps every other cell, sets needs_mesh_update and adds the item |
| BlockInteraction.PlaceableBlock | src/block_interaction.rs:147-155 | a block is placed exactly when the selected stack is a non-empty stack of a non-Air block, and it is that block |
| BlockInteraction.Written | src/chunk.rs:188-192 | writing a block at a world position changes exactly the cell of its local coordinates and keeps the other cells |
| BlockInteraction.CountCoversStack | src/inventory.rs:309-327 | a stack counts towards its row's total of its item |
| BlockInteraction.PlacementRemovesOne | src/block_interaction.rs:186-187 | placing from a non-empty selected stack removes exactly one item of the placed block, with the corrected remove_item/add_item (see Findings) |
| BlockInteraction.PlacementAsWrittenRemovesTwo | src/block_interaction.rs:184-187 | placing stone from stacks of 5 and 3 with remove_item as written takes one from each stack |
| BlockInteraction.BlockPlacementSystem | src/block_interaction.rs:116-203 | with a placeable selected block and a hit, the cell next to the hit receives the block if it was Air (every other cell kept, needs_mesh_update set) and one item is removed from the inventory with the corrected remove_item; in every other case nothing changes |
| BiomeTextures.DetermineBiomeType | src/biome_textures.rs:151-181 | the biome is one of the ten names; a mountain biome exactly above height 60, snowy exactly when also colder than 0.3, desert exactly at or below 60 when hotter than 0.7 and drier than 0.4 |
| BiomeTextures.BiomeNamesHaveNoDash | src/biome_textures.rs:151-181 | no biome name is empty or contains the '-' that separates key fields |
| BiomeTextures.GetBiomeTextureParams | src/biome_textures.rs:185-201 | the parameters carry the decided biome, the inputs, and a relative height that times the maximum height gives the height |
| BiomeTextures.ForBlockType | src/biome_textures.rs:41-107 | every effect of the table lies strictly between 0 and 1, the base noise has positive scale, persistence and octaves, and block types outside the five textured ones get the default noise with effects 0.5 |
| BiomeTextures.TruncateToNat | src/biome_textures.rs:126 | the saturating cast truncates toward zero and sends negatives to 0 |
| BiomeTextures.ApplyBiomeParameters | src/biome_textures.rs:111-135 | only scale, octaves and persistence change, each only when its effect is positive; the scale is then at least 0.01 and the persistence at least 0.1 |
| BiomeTextures.ApplyForBlockTypeClamps | src/biome_textures.rs:41-135 | with the table's effects both clamps always apply: scale at least 0.01 and persistence at least 0.1 |
| BiomeTextures.Round | src/biome_textures.rs:143-145 | rounding lands within one half of the value, and non-negative values round to non-negative integers |
| BiomeTextures.NatToString | src/biome_textures.rs:139-146 | the decimal rendering is non-empty and all digits |
| BiomeTextures.IntToString | src/biome_textures.rs:139-146 | the rendering is non-empty and starts with '-' exactly for negative numbers |
| BiomeTextures.TextureCacheKey | src/biome_textures.rs:138-147 | the key starts with the block's name and '-', followed by the biome name and '-' |
| BiomeTextures.DashPrefixNotLonger | src/biome_textures.rs:138-147 | a dash-free prefix followed by '-' is no longer than another such prefix of the same string |
| BiomeTextures.SplitAtFirstDash | src/biome_textures.rs:138-147 | two equal strings split at their first '-' agree on both halves |
| BiomeTextures.CacheKeyDeterminesBlockAndBiome | src/biome_textures.rs:138-147 | with dash-free biome names, equal keys have the same block type and the same biome |
| BiomeTextures.ParamsKeyDeterminesBlockAndBiome | src/biome_textures.rs:138-147 | keys of parameters built by get_biome_texture_params identify the block type and the biome |
| Lru.RemoveFirst | src/biome_texture_cache.rs:224-226 | removing a key that is not queued changes nothing, and removing a queued key shortens the queue by one |
| Lru.RemoveFirstSplit | src/biome_texture_cache.rs:224-226 | removing a queued key leaves what came before its first position followed by what came after |
| Lru.Touch | src/biome_texture_cache.rs:222-229 | after update_lru the key is at the front |
| Lru.PopBack | src/biome_texture_cache.rs:313 | pop_back drops exactly the last key |
| Lru.Restrict | src/biome_texture_cache.rs:312-324 | the entries kept are exactly those whose keys are still queued, unchanged |
| Lru.RemoveFirstAt | src/biome_texture_cache.rs:224-226 | each position of the shortened queue holds the key at the same or the next position of the original |
| Lru.RemoveFirstDistinct | src/biome_texture_cache.rs:224-226 | removing a key from a duplicate-free queue keeps it duplicate-free |
| Lru.RemoveFirstMembers | src/biome_texture_cache.rs:224-226 | removing a key from a duplicate-free queue drops exactly that key |
| Lru.RemoveFirstKeys | src/biome_texture_cache.rs:224-226 | both facts together, for every key |
| Lru.SplitAt | src/biome_texture_cache.rs:224-226 | a queue is its part before a position, the key there, and its part after |
| Lru.TouchKeepsMirror | src/biome_texture_cache.rs:222-236 | touching a cached key keeps the queue a duplicate-free list of exactly the cached keys, of the same length |
| Lru.PopBackKeepsMirror | src/biome_texture_cache.rs:312-324 | evicting the back key leaves a queue of exactly the remaining cached keys |
| Lru.PushFrontKeepsMirror | src/biome_texture_cache.rs:207-209 | inserting a fresh key at the front keeps queue and map in step |
| Lru.RestrictPopBack | src/biome_texture_cache.rs:300-308 | evicting from the back of a queue prefix drops exactly the last key's entry |
| Lru.DistinctCount | src/biome_texture_cache.rs:214-216 | a duplicate-free queue has as many keys as the set it lists |
| Lru.MirrorCount | src/biome_texture_cache.rs:214-216 | the cache holds as many entries as the queue holds keys |
| TextureCache.Accessed | src/biome_texture_cache.rs:232-235 | one more use adds one to the access count and changes nothing else that is modelled |
| TextureCache.QueueBytesAppend | src/biome_texture_cache.rs:212 | the byte total of two queue parts is the sum of their totals |
| TextureCache.QueueBytesFrame | src/biome_texture_cache.rs:212 | the byte total depends only on the sizes of the queued entries |
| TextureCache.QueueBytesPopBack | src/biome_texture_cache.rs:312-318 | evicting the back key lowers the byte total by exactly that entry's size, which the total covers |
| TextureCache.QueueBytesPushFront | src/biome_texture_cache.rs:207-212 | inserting a fresh entry adds its size to the byte total |
| TextureCache.QueueBytesMoveToFront | src/biome_texture_cache.rs:222-229 | moving a key to the front keeps the byte total |
| TextureCache.QueueBytesTouch | src/biome_texture_cache.rs:222-236 | update_lru keeps the byte total |
| TextureCache.ConsistentPopBack | src/biome_texture_cache.rs:312-324 | eviction keeps the queue, map, count and byte figures consistent |
| TextureCache.ConsistentPushFront | src/biome_texture_cache.rs:207-215 | insertion keeps them consistent, with one more entry and its size added |
| TextureCache.ConsistentTouch | src/biome_texture_cache.rs:222-236 | update_lru keeps them consistent with unchanged count and bytes |
| TextureCache.SingleEntryBytes | src/biome_texture_cache.rs:212 | with one cached entry, the memory figure is that entry's size |
| TextureCache.KeptBytes | src/biome_texture_cache.rs:305-308 | after evicting from the back, the memory figure is the byte total of the kept prefix under the original entries |
| TextureCache.OverBudgetPrefix | src/biome_texture_cache.rs:305-308 | a kept prefix over the byte budget is over it under the original entries too, and holds more than the front entry when that entry alone fits |
| TextureCache.PrefixBytesMonotone | src/biome_texture_cache.rs:305-308 | a longer prefix of the queue never holds fewer bytes |
| TextureCache.LongestPrefixWithinBudget | src/biome_texture_cache.rs:294-309 | when the prefix one entry longer than the kept one is over budget, so is every longer prefix up to the count cap, so the kept prefix is the longest within both limits |
| TextureCache.BiomeTextureCache.constructor | src/biome_texture_cache.rs:77-84 | a new cache is empty, with the given configuration and every statistic zero |
| TextureCache.BiomeTextureCache.EvictLruTexture | src/biome_texture_cache.rs:312-324 | on an empty queue nothing changes; otherwise the back key and its entry go, memory drops by its size and the eviction count rises by one |
| TextureCache.BiomeTextureCache.CheckAndEvict | src/biome_texture_cache.rs:294-309 | without eviction nothing changes; with it, entries are evicted only from the back until count and bytes are within budget and no further: at most max_textures remain, and when fewer remain, the prefix one entry longer is over the byte budget; the front entry survives when it fits both limits alone |
| TextureCache.BiomeTextureCache.EvictToCount | src/biome_texture_cache.rs:300-302 | the first loop evicts from the back until the count is within max_textures and stops there: the count ends at the smaller of its old value and max_textures |
| TextureCache.BiomeTextureCache.EvictToMemory | src/biome_texture_cache.rs:305-308 | the second loop evicts from the back until the bytes are within the budget and stops there: when it evicted anything, the prefix one entry longer than the kept one is over the budget |
| TextureCache.BiomeTextureCache.EvictOverBudget | src/biome_texture_cache.rs:305-308 | one round of the second loop: the back entry goes, and the prefix it leaves plus that entry was over the byte budget |
| TextureCache.BiomeTextureCache.AddToCache | src/biome_texture_cache.rs:192-219 | the entry is inserted at the front with one access, peaks are updated, the result is the back-evicted remainder, and with eviction both budgets hold, the kept prefix is the longest within them, and a fitting new entry survives |
| TextureCache.BiomeTextureCache.UpdateLru | src/biome_texture_cache.rs:222-236 | the key moves to the front and its access count rises by one; memory and counts stay |
| TextureCache.BiomeTextureCache.GetOrGenerate | src/biome_texture_cache.rs:87-189 | every request is counted; a hit touches the entry and returns its handle; a similar texture is touched, counted as a hit and returned; otherwise a miss generates, inserts and returns a new texture built with the biome-adjusted settings, keeping after eviction the longest prefix within both limits |
| TextureCache.BiomeTextureCache.Generate | src/biome_texture_cache.rs:172-188 | the miss path inserts a 65536-byte texture with the adjusted settings, counts one generation and, with eviction, keeps the longest prefix within both limits |
| TextureCache.BiomeTextureCache.Clear | src/biome_texture_cache.rs:355-364 | map and queue empty, current memory and count zero, totals and peaks kept |
| TextureCache.CurrentCountsEntries | src/biome_texture_cache.rs:214-216 | current_textures is the number of cached entries |
| TextureCache.NewDefaultCache | src/biome_texture_cache.rs:48-59 | the default cache keys by the texture cache key, allows 1024 textures and 1024 MiB, and has eviction and similarity reuse on |
| MaterialCache.BasePropertiesInUnitRange | src/biome_material.rs:126-173 | every block type's base roughness, metallic, reflectance, normal intensity and ambient occlusion lie in [0, 1] |
| MaterialCache.BaseProperties | src/biome_material.rs:126-173 | the base material properties per block type, defaults for the others; BasePropertiesInUnitRange bounds them |
| MaterialCache.NewMaterialConfig | src/biome_material.rs:125-180 | a new configuration has no biome effects, so every biome gets the adjusted base properties of its block type |
| MaterialCache.AddBiomeEffect | src/biome_material.rs:184-186 | the block type and base properties are kept and the biome joins the set of biomes with an override |
| MaterialCache.Clamp | src/biome_material.rs:199-207 | the result lies in [lo, hi] and a value already inside is unchanged |
| MaterialCache.AdjustForBiome | src/biome_material.rs:195-209 | roughness, ambient occlusion and normal intensity end in [0.1, 1], reflectance in [0, 1]; metallic, emissive colour and height variation are kept |
| MaterialCache.PropertiesForBiome | src/biome_material.rs:189-210 | a biome override, when present, is returned as is; otherwise the base properties adjusted for the biome |
| MaterialCache.AddedEffectOverrides | src/biome_material.rs:184-193 | after adding an effect for a biome that biome gets exactly that effect and every other biome is unaffected |
| MaterialCache.MakeMaterial | src/biome_material.rs:324-336 | the material has a white base colour, the generated texture, each property copied from the biome properties, and moisture and temperature copied from the parameters |
| MaterialCache.FitsBudget | src/biome_material.rs:398-401 | n materials fit a byte budget exactly when n is at most the budget divided by 65536 |
| MaterialCache.Touched | src/biome_material.rs:380-383 | a touched entry has one more access and the same handles and parameters |
| MaterialCache.ConsistentPopBack | src/biome_material.rs:405-417 | removing the queue's last key and its entry keeps queue, map, count and memory in agreement |
| MaterialCache.ConsistentPushFront | src/biome_material.rs:364-368 | inserting a fresh key at the front with its entry, one more material and 65536 more bytes keeps them in agreement |
| MaterialCache.ConsistentTouch | src/biome_material.rs:374-384 | moving a cached key to the front and touching its entry keeps them in agreement |
| MaterialCache.BiomeMaterialCache.constructor | src/biome_material.rs:265-272 | an empty cache with the given limits and key function, all counters zero |
| MaterialCache.BiomeMaterialCache.EvictLruMaterial | src/biome_material.rs:405-417 | an empty queue changes nothing; otherwise the oldest key and its entry go, memory drops by 65536 and one eviction is counted |
| MaterialCache.BiomeMaterialCache.CheckAndEvict | src/biome_material.rs:387-402 | with eviction on, count and memory end within their limits by evicting from the back only, each eviction counted, and exactly KeptCount entries remain (the smallest of the old count, max_materials and the budget divided by 65536); with it off nothing is evicted |
| MaterialCache.BiomeMaterialCache.KeptCountLongest | src/biome_material.rs:387-402 | KeptCount entries fit both limits and no longer prefix of the queue does |
| MaterialCache.BiomeMaterialCache.EvictToCount | src/biome_material.rs:393-395 | evicts from the back until the count is within the limit and stops there: the count ends at the smaller of its old value and max_materials, so at least one entry stays when the limit is positive |
| MaterialCache.BiomeMaterialCache.EvictToMemory | src/biome_material.rs:398-401 | evicts from the back until memory is within the budget and stops there: the count ends at the smaller of its old value and the budget divided by 65536, so at least one entry stays when one material fits |
| MaterialCache.BiomeMaterialCache.AddToCache | src/biome_material.rs:349-371 | the new entry is put at the front with one access and then the back is evicted to the limits, leaving exactly KeptCount of the grown queue; the new entry survives whenever the limits admit one material |
| MaterialCache.BiomeMaterialCache.UpdateLru | src/biome_material.rs:374-384 | the key moves to the front, its access count grows by one, memory and evictions are unchanged |
| MaterialCache.BiomeMaterialCache.GetOrGenerate | src/biome_material.rs:287-346 | every request is counted; a hit returns the cached handle and touches the entry; a miss builds the material from the generated texture and properties, caches it, counts one generation and, with eviction, leaves exactly KeptCount of the grown queue |
| MaterialCache.BiomeMaterialCache.Clear | src/biome_material.rs:443-452 | map and queue empty, memory and count zero, request and eviction totals kept |
| MaterialCache.MemoryPerMaterial | src/biome_material.rs:367-368 | the current count is the number of cached materials and memory is 65536 bytes per material |
| MaterialCache.EvictionCountsRemovals | src/biome_material.rs:405-417 | the eviction counter grows by exactly the number of entries removed |
| MaterialCache.NewDefaultCache | src/biome_material.rs:242-251 | the default cache allows 512 materials and 512 MiB, has eviction on and keys materials by the texture cache key |
| AlkydBuffers.TotalRemove | src/alkyd_buffer_management.rs:124-127 | the sum of a size table is one entry plus the sum of the rest |
| AlkydBuffers.TotalStore | src/alkyd_buffer_management.rs:54 | storing a size makes the table's sum the sum without that key plus the new size |
| AlkydBuffers.TotalGet | src/alkyd_buffer_management.rs:101 | the sum without a key plus that key's size (zero when absent) is the whole sum |
| AlkydBuffers.TotalUpdate | src/alkyd_buffer_management.rs:101-112 | replacing a size moves the sum by the new size minus the old one, and the old size never exceeds the sum |
| AlkydBuffers.TotalZero | src/alkyd_buffer_management.rs:143-150 | a size table sums to zero exactly when every recorded size is zero |
| AlkydBuffers.Zeros | src/alkyd_buffer_management.rs:218-224 | the placeholder buffer has exactly the requested number of bytes |
| AlkydBuffers.SharedCreateTexture | src/alkyd_buffer_management.rs:53-55 | storing a texture buffer and its size and adding the size to usage keeps the shared table covering the usage |
| AlkydBuffers.SharedCreateConfig | src/alkyd_buffer_management.rs:79-81 | the same for a config buffer |
| AlkydBuffers.SharedUpdate | src/alkyd_buffer_management.rs:100-112 | replacing a texture buffer subtracts a recorded size that usage covers, so the unsigned usage never underflows |
| AlkydBuffers.SharedCleanup | src/alkyd_buffer_management.rs:123-129 | removing a block's buffers and its recorded size subtracts a covered amount |
| AlkydBuffers.AlkydBufferManagerAsWritten.constructor | src/alkyd_buffer_management.rs:26-34 | no buffers, zero usage and a budget of max_memory_mb MiB |
| AlkydBuffers.AlkydBufferManagerAsWritten.CreateTextureBuffer | src/alkyd_buffer_management.rs:37-60 | refused, changing nothing, exactly when usage plus the data would pass the budget; otherwise the buffer with storage and copy flags is stored, its size recorded and added; usage within budget stays within budget |
| AlkydBuffers.AlkydBufferManagerAsWritten.CreateConfigBuffer | src/alkyd_buffer_management.rs:63-86 | the same with uniform and copy-destination flags, and the size recorded in the one shared table |
| AlkydBuffers.AlkydBufferManagerAsWritten.UpdateTextureBuffer | src/alkyd_buffer_management.rs:99-120 | true exactly when a texture buffer exists; then its data is replaced keeping its flags and usage moves by the new size minus the recorded one |
| AlkydBuffers.AlkydBufferManagerAsWritten.CleanupBlockBuffers | src/alkyd_buffer_management.rs:123-130 | with a recorded size, both of the block's buffers go and only that one size is subtracted; without one nothing changes |
| AlkydBuffers.AlkydBufferManagerAsWritten.CleanupAllBuffers | src/alkyd_buffer_management.rs:143-154 | all buffers and sizes gone and usage zero |
| AlkydBuffers.DriftScenario | src/alkyd_buffer_management.rs:53-129 | a 65536-byte texture buffer, a 128-byte config buffer for the same block and its cleanup leave no buffers but 65536 bytes of usage |
| AlkydBuffers.SizesStore | src/alkyd_buffer_management.rs:110-112 | storing a buffer and its size keeps a per-kind table exact and moves its sum by new minus old size |
| AlkydBuffers.SizesDrop | src/alkyd_buffer_management.rs:124-127 | dropping a buffer and its size keeps a per-kind table exact and lowers its sum by the recorded size |
| AlkydBuffers.AlkydBufferManager.constructor | src/alkyd_buffer_management.rs:26-34 | no buffers, zero usage and a budget of max_memory_mb MiB |
| AlkydBuffers.AlkydBufferManager.CreateTextureBuffer | src/alkyd_buffer_management.rs:37-60 | refusal exactly past the budget; otherwise the buffer is stored and usage grows by its size less the size of a texture buffer it replaces (the source adds without releasing the replaced one; see Findings), so usage stays the sum of live buffer bytes |
| AlkydBuffers.AlkydBufferManager.CreateConfigBuffer | src/alkyd_buffer_management.rs:63-86 | the same for config buffers, with their own size table |
| AlkydBuffers.AlkydBufferManager.UpdateTextureBuffer | src/alkyd_buffer_management.rs:99-120 | true exactly when a texture buffer exists; usage moves by the new data size minus the old buffer's size |
| AlkydBuffers.AlkydBufferManager.CleanupBlockBuffers | src/alkyd_buffer_management.rs:123-130 | both of the block's buffers go and usage drops by the bytes of each one that existed |
| AlkydBuffers.AlkydBufferManager.CleanupAllBuffers | src/alkyd_buffer_management.rs:143-154 | all buffers gone and usage zero |
| AlkydBuffers.AlkydBufferManager.BufferCount | src/alkyd_buffer_management.rs:138 | zero exactly when there are no texture buffers; config buffers are not counted |
| AlkydBuffers.NoBuffersNoUsage | src/alkyd_buffer_management.rs:123-130 | a manager with no buffers uses no memory |
| AlkydBuffers.UsageZeroIffEmptyBuffers | src/alkyd_buffer_management.rs:21 | usage is zero exactly when every live buffer is empty |
| AlkydBuffers.CorrectedScenario | src/alkyd_buffer_management.rs:53-129 | the same three calls on the corrected manager end with zero usage |
| Weather.DisplayName | src/weather.rs:98-112 | every weather type has a non-empty display name |
| Weather.DisplayNameInjective | src/weather.rs:98-112 | two weather types share a display name exactly when they are the same type |
| Weather.StormHasPrecipitation | src/weather.rs:116-133 | every storm has precipitation, and the types without precipitation are exactly clear, partly cloudy, cloudy, overcast, fog and sandstorm |
| Weather.HasPrecipitation | src/weather.rs:116-126 | has_precipitation: rain, heavy rain, thunderstorm, snow and heavy snow |
| Weather.IsStorm | src/weather.rs:128-133 | is_storm: thunderstorm, heavy rain and heavy snow |
| Weather.Successors | src/weather.rs:500-565 | every weather type has three to five possible successors and can stay as it is |
| Weather.PickSuccessor | src/weather.rs:568-569 | the random choice is always one of the listed successors of the weather |
| Weather.ClearSuccessorsAreDry | src/weather.rs:501-505 | from clear weather the next target is clear, partly cloudy or cloudy, never one with precipitation |
| Weather.PrecipitationBase | src/weather.rs:462-469 | the base intensity lies in [0, 0.9], is positive exactly for weather with precipitation, is at least 0.7 for storms and at most 0.5 for other precipitation |
| Weather.AdvanceProgress | src/weather.rs:442-444 | a transition in progress advances by the step and is capped at 1; a finished one is left alone |
| Weather.WeatherSystem.constructor | src/weather.rs:45-63 | clear current and target weather, progress 1, speed 0.01, no precipitation, a minimum duration of 300 seconds |
| Weather.WeatherSystem.ChangeWeatherRandomly | src/weather.rs:496-576 | the target becomes the chosen successor of the current weather, progress and the change timer restart at zero, and the current weather is left as it was |
| Weather.WeatherSystem.ChangeWeatherCorrected | src/weather.rs:496-576 | the previous target becomes the current weather and the new target is one of its successors |
| Weather.WeatherSystem.UpdateWeather | src/weather.rs:436-486 | the transition advances with precipitation following the target's base intensity; the weather changes exactly when the minimum duration has passed, the transition is done, the target is no storm and the roll is under 0.001 per second |
| Weather.MayChange | src/weather.rs:476-478 | the gate for a weather change: the minimum duration passed, the transition done and the target not a storm; UpdateWeather changes only when it holds, and then exactly when the roll is under 0.001 × delta |
| Weather.NearClearNeverPrecipitates | src/weather.rs:496-576 | a system whose current weather is clear and whose target is a successor of clear has no precipitation and no thunderstorm |
| Weather.TargetAfterAsWritten | src/weather.rs:496-576 | after any positive number of changes the target is a successor of the unchanged current weather |
| Weather.NoRainFromDefaultAsWritten | src/weather.rs:496-576 | from the default weather no sequence of changes ever targets rain |
| Weather.ChangeCorrected | src/weather.rs:496-576 | the corrected change moves the old target into the current weather and picks a successor of it |
| Weather.TargetAfterCorrected | src/weather.rs:496-576 | with no changes the target is unchanged |
| Weather.RainReachableCorrected | src/weather.rs:501-517 | with the corrected change, rain is reached from the default in two changes |
| Weather.ThunderstormReachableCorrected | src/weather.rs:501-524 | with the corrected change, a thunderstorm is reached from the default in three changes |
| Weather.WeatherEffects.constructor | src/weather.rs:303-317 | lightning every 10 seconds at most, timer at zero |
| Weather.WeatherEffects.TriggerLightning | src/weather.rs:1024-1027 | the lightning timer restarts at zero |
| Weather.WeatherEffects.UpdateLightning | src/weather.rs:1000-1021 | lightning strikes exactly when the target is a thunderstorm, the timer has reached the frequency and the roll is under 0.3; outside thunderstorms the timer does not move |

## Left out

- Integer widths: `i32`, `u32`, `usize` and `u64` are unbounded integers. Overflow panics and wrap-around are not modelled; the unsigned subtractions the code makes are shown never to underflow instead.
- `f32` values are exact reals. Rounding, NaN and infinities are not modelled. The `i32` saturation of a float-to-int cast is not modelled either.
- Logging (`println!`), the Bevy ECS plumbing (`Commands`, `Res`, `Query`, events, keyboard input) and rendering setup are not modelled. Each system is modelled by the state change it makes.
- Noise: `generate_fractal_noise` and `cpu_perlin_noise` are replaced by a noise function parameter.
- Randomness: `rand::random` values are parameters (`pick`, `roll`).
- Time: `Time::delta_secs` and `Instant` are parameters. The `last_used` timestamps of the caches are not modelled.
- Raycasting is not part of this model; the hit it produces is an input. Block hardness is passed in as a function.
- Chunks: the chunk manager's `get_neighbor_chunk`, `get_neighboring_chunks`, `get_all_neighboring_chunks` and `has_neighbor` are not modelled. They are entity lookups over the ECS; the coordinate arithmetic they rest on is `Chunks.Neighbors` and `Chunks.AllNeighbors`.
- Meshing: `ChunkMesh::new` and the `ChunkMeshMaterials` resource are not modelled. They only create Bevy handles.
- Blocks: `BlockType::color` and `Block::new` are not modelled. They are colour tables and a plain constructor.
- Texture atlas: the asset load is not modelled; the atlas handle is a parameter. The `texture_handle` and `is_loaded` accessors and the `initialize_texture_atlas` system are not modelled.
- WorldGen.GenerateChunksSystem: requires the chunks it is given to be distinct objects, as distinct ECS entities are.
- WorldGen: the average of the height statistics is a float division and is not modelled. Counts, minimum, maximum and total are modelled.
- Block interaction: `block_targeting_feedback_system` is not modelled. It only draws the highlight.
- Inventory: the food and drink restore effects, `inventory_update_system`, the display code and `initialize_inventory` are not modelled.
- Inventories.Inventory.GetSelectedItem: states that the result is a hotbar stack rather than naming the exact slot.
- Crafting: keyboard input and the event reader systems are not modelled. The request handler's messages are data, not printed text.
- Weather: cloud coverage and density interpolation, wind, temperature and humidity (`update_wind_for_weather`, `update_environmental_conditions`) and `typical_cloud_coverage`/`typical_cloud_density` are not modelled.
- Weather: the lightning fields other than the timer and the frequency (flash intensity and duration, particle counts and speeds) are not modelled.
- Caches: the similarity search of the texture cache is not modelled. Its outcome is passed to `GetOrGenerate` as `similar`.
- Caches: the hit-rate and usage percentages of `get_stats` and `print_stats` are floats and are not modelled. `get_texture` is not modelled.
- TextureCache.BiomeTextureCache.AddToCache and MaterialCache.BiomeMaterialCache.AddToCache: require a key that is not yet cached, which is how `GetOrGenerate`, their only caller, uses them.
- TextureCache.BiomeTextureCache.UpdateLru and MaterialCache.BiomeMaterialCache.UpdateLru: require a cached key, which is how `GetOrGenerate` uses them.
- Caches: the key function is a class parameter. The material cache builds its key in the same format as the texture cache key (src/biome_material.rs:275-284), so the default cache uses `BiomeTextures.TextureCacheKey`.
- BiomeTextures.GetBiomeTextureParams: relates relative height to height only for a non-zero maximum height. A zero maximum gives relative height 0 in the model, where the source's `f32` division gives an infinity or NaN.
- The `Shared*` `Arc<Mutex<…>>` wrappers of the caches are not modelled. They add locking only.
- GPU buffers: `get_memory_stats().used_percentage` is a float and is not modelled; `buffer_count` is `AlkydBuffers.AlkydBufferManager.BufferCount`. `update_texture_buffer` makes no budget check in the source, so the model makes none either. The `initialize_alkyd_buffer_manager`, `monitor_alkyd_memory_usage`, `create_alkyd_gpu_buffers` and `cleanup_alkyd_buffers` systems are not modelled beyond the calls they make.
- Crafting.CraftSpec, Crafting.RemoveAll, Crafting.AddAll, Crafting.RemoveStep, Crafting.RemoveAllCount, Crafting.AddAllCount, Crafting.CraftedCounts, Crafting.RefundRestores, Crafting.RemoveIngredients, Crafting.RefundIngredients, Crafting.Craft, Crafting.HandleCraftingRequests: model the request handler over the corrected `remove_item` and the cap-respecting `add_item` (see Findings), not over the as-written ones it calls (src/crafting.rs:278, src/crafting.rs:284, src/crafting.rs:306); with the as-written removal a craft can take more than it needs, as Crafting.StickCraftAsWrittenOverdraws shows.
- BlockInteraction.BlockPlacementSystem, BlockInteraction.PlacementRemovesOne: remove the placed item with the corrected `remove_item`; the as-written one (src/block_interaction.rs:187) takes one item from every matching stack, as BlockInteraction.PlacementAsWrittenRemovesTwo shows.
- NoiseCache.WorldNoiseCache.GetChunkNoise, NoiseCache.WorldNoiseCache.ClearUnusedCache, NoiseCache.ActiveCenters: use the corrected region centre, floor(coord / 3) * 3 + 1. With the source's `chunk_to_center_chunk` (src/world_noise_cache.rs:45-50) `get_chunk_noise` indexes past the region outside chunks -3..2 and `clear_unused_cache` keeps different keys; the as-written centre is NoiseCache.CenterAsWritten.
- AlkydBuffers.AlkydBufferManager.CreateTextureBuffer, AlkydBuffers.AlkydBufferManager.CreateConfigBuffer: release the bytes of a buffer they replace; the source adds the new size without subtracting the old one (src/alkyd_buffer_management.rs:53-55), so creating a 100-byte texture buffer twice for one block gives usage 200 there and 100 here. AlkydBuffers.AlkydBufferManagerAsWritten keeps the source's accounting.
- Inventories.NextSlot, Inventories.PreviousSlot, Inventories.Inventory.NextHotbarSlot, Inventories.Inventory.PreviousHotbarSlot: require a non-empty hotbar; with `hotbar_size` 0 the source divides by zero or underflows (src/inventory.rs:219-230).

## Findings

| source | as written | input that shows it | evidently intended | confidence | as-written member | corrected member |
|---|---|---|---|---|---|---|
| src/world_noise_cache.rs:45-98 | the region centre divides the chunk coordinate by the region size in blocks (48), not by 3 chunks, so the slot inside the 48 x 48 region can be 3 or more | chunk 3: its centre is computed as 1, so its samples would be read from rows 48 to 63 of a 48-row array | centre at floor(coord / 3) * 3 + 1, so the slot is 0, 1 or 2 and the slice holds the chunk's own samples | high, not executed | NoiseCache.AsWrittenChunkThreeOutOfRange | NoiseCache.SliceOfSampledRegion |
| src/inventory.rs:283-301 | `remove_item` stores what `ItemStack::remove` returns, the amount removed, as the amount still to remove | two hotbar stacks of 10 stone, remove 3: both stacks drop to 7 and the call reports 0 removed | remove 3 from the first stack only and report 3 removed | high, not executed | Inventories.RemoveItemAsWrittenMiscounts | Inventories.RemoveItemRemoved |
| src/inventory.rs:256-273 | an empty slot takes the whole remaining quantity, with no stack-size check | adding 100 stone to an empty inventory puts a stack of 100 in the first hotbar slot, over the cap of 64 | an empty slot takes only a quantity within the stack size, so no stack exceeds the cap | high, not executed | Inventories.AddItemAsWrittenOverfills | Inventories.AddItemKeepsCap |
| src/inventory.rs:349-357 | swapping two hotbar slots splits the array at the larger index and takes `right[0]` and `left[slot2]`, which is out of bounds when both indices are equal | `swap_slots(2, true, 2, true)` | swapping a slot with itself leaves the inventory unchanged | high, not executed | Inventories.SwapWithinAsWrittenBehaviour | Inventories.Inventory.SwapSlots |
| src/alkyd_buffer_management.rs:53-127 | texture and config buffers share one size table, so a config buffer's size replaces the texture buffer's and cleanup subtracts only the last size; and a buffer created again for the same block adds its size without releasing the replaced buffer's | a 65536-byte texture buffer and a 128-byte config buffer for one block, then cleanup: no buffers remain but usage stays at 65536 bytes | usage equals the bytes of the live buffers and is zero once every buffer is gone; so the corrected manager keeps one size table per kind and subtracts a replaced buffer's size | high, not executed | AlkydBuffers.DriftScenario | AlkydBuffers.NoBuffersNoUsage |
| src/weather.rs:572-573 | a weather change assigns the current weather to itself, so the current weather never moves and successors are always drawn from the initial clear weather | the default weather system under any sequence of changes never targets rain | the reached target becomes the current weather before the next target is drawn | medium, not executed | Weather.NoRainFromDefaultAsWritten | Weather.RainReachableCorrected |
| src/crafting.rs:276-279 | the crafting handler removes each ingredient with `remove_item` as written, which takes the amount still wanted from every matching stack | crafting sticks (2 wood) with wood stacks of 64 and 10: the availability test passes, and 4 wood are removed instead of 2 | each ingredient's quantity times n removed, no more | high, not executed | Crafting.StickCraftAsWrittenOverdraws | Crafting.CraftedCounts |
| src/block_interaction.rs:184-187 | placing a block removes one item with `remove_item` as written, which takes one from every matching stack | placing stone with hotbar stacks of 5 and 3 stone leaves 4 and 2 | exactly one item removed | high, not executed | BlockInteraction.PlacementAsWrittenRemovesTwo | BlockInteraction.PlacementRemovesOne |
