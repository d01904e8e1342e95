# Voxel chunk world core in Dafny

This project models the world core of a small Minecraft-style voxel engine
written in C++ for Metal (`GameEngine.h` and `Buffer.h`). The world is a set of
chunks. Each chunk is a 16 x 16 x 256 grid of block bytes, and its terrain is
filled once, when the chunk is constructed:

- stone up to sea level - 4;
- dirt in the three layers below sea level;
- grass at sea level 62;
- air above.

A chunk turns its blocks into a triangle mesh. For every non-air block it emits
one quad (two triangles, six vertices) per visible face. A face is visible when
the block is on that face's edge of the chunk or the neighbour across the face
is air. Each block's quads are translated to the block's world position and
appended to a growable vertex `Buffer`. The result is copied into a
device-side `NativeBuffer`. That copy is cached until the chunk's dirty flag is
set again. A `World` caches chunks by their location. The `GameEngine` creates
a fixed 6 x 6 block of chunks around the origin. Each render hands the list of
chunk buffers, in order, to a draw callback.

Modules, one per part of the source:

- `Buffers` (`buffer.dfy`): vertices, `Buffer` and `NativeBuffer`.
- `Blocks` (`block.dfy`): block types, face sets, the texture atlas lookup and the mesh of one block.
- `Chunks` (`chunk.dfy`): the terrain fill, face culling, the chunk mesh and the cached `getBuffer`.
- `Worlds` (`world.dfy`): the chunk cache.
- `Engine` (`engine.dfy`): the engine's chunk set and render step.

Units:

- A position coordinate is kept in half-block units. The float `c` is the integer `2c`, so the block corners +-0.5 become +-1, and a block offset `o` becomes `2o`.
- A texture coordinate is kept as its numerator over the atlas size 16. The coordinate `i/16` is the integer `i`.
- Texture coordinates are exact. Positions are exact while every offset `location * 16 + x` (and likewise for y) is below 2^23 in magnitude; beyond that the source's floats round (see "Left out").

Behaviour of the modelled code:

- Face culling looks only inside the chunk. A face on the chunk's edge is always emitted, even where the neighbouring chunk would cover it (`Chunks.TerrainSides`).
- The terrain is a fixed column profile, the same in every chunk.
- A chunk's mesh is built synchronously, on the first `getBuffer` call after it was marked modified.
- The engine always holds the same 36 chunks, and every render draws all of them.
- `getChunk` raises an error for a location that was never generated; only `generateChunk` creates chunks.
- The location hash combines the two coordinate hashes with exclusive or, so it cannot tell (a, b) from (b, a).

The main results:

- The mesh that `getBuffer` builds equals a recursive specification (`ChunkMesh`) that follows its x, y and z loops.
- A chunk holds exactly six vertices per visible face of a non-air block.
- Every vertex lies on a corner of its own block's cube, inside the chunk's footprint.
- A freshly generated chunk shows 4544 faces, so every buffer the engine renders holds 27264 vertices.

## Model

| member | source | states |
|---|---|---|
| Buffers.Translated | Buffer.h:50-56 | the translated list has the length of the original |
| Buffers.TranslatedPointwise | Buffer.h:50-56 | translation keeps order and texture coordinates and adds the offset to each vertex position |
| Buffers.TranslatedAppend | Buffer.h:50-56 | translating a concatenation is the concatenation of the translated parts |
| Buffers.TranslatedZero | Buffer.h:50-56 | translating by (0, 0, 0) leaves the vertex list unchanged |
| Buffers.Buffer.constructor | Buffer.h:8-10 | a new buffer holds no vertices |
| Buffers.Buffer.AddTriangle | Buffer.h:13-17 | appends exactly its three arguments in order and changes nothing before them |
| Buffers.Buffer.AddQuad | Buffer.h:19-26 | appends exactly a, b, d, b, c, d: the triangles (a, b, d) and (b, c, d) sharing the b-d diagonal |
| Buffers.Buffer.Size | Buffer.h:42-44 | the size is the number of stored vertices |
| Buffers.Buffer.Append | Buffer.h:46-48 | the other buffer's vertices follow the existing ones in order; the new size is the sum |
| Buffers.Buffer.Translate | Buffer.h:50-56 | the loop leaves exactly `Translated(old contents, offset)` |
| Buffers.NativeBuffer.constructor | Buffer.h:64-68 | a default native buffer has size 0 and capacity 0 |
| Buffers.NativeBuffer.Sized | Buffer.h:69-73 | the sized constructor sets the capacity to the requested vertex count, with nothing written yet |
| Buffers.NativeBuffer.Fill | Buffer.h:87-91 | requires the source to fit the capacity; the size becomes the source's size, the contents its vertices, and the capacity is unchanged |
| Blocks.GetTexture | GameEngine.h:19-31 | every type and side selects a cell inside the 16 x 16 atlas |
| Blocks.TextureSides | GameEngine.h:19-31 | only grass depends on the side; its top and bottom cells differ from every other side's |
| Blocks.EmittedCount | GameEngine.h:42-101 | the first k faces of the emission order give six vertices per set bit among them |
| Blocks.FaceCountBits | GameEngine.h:33-38 | the face count is the sum of the six face bits |
| Blocks.BlockVertexCount | GameEngine.h:42-101 | a block emits 6 vertices per face bit set and none for unset bits; at most 36, and none exactly when no face bit is set |
| Blocks.FaceOnCube | GameEngine.h:46-100 | each face's vertices are corners of the block's unit cube on that face's side |
| Blocks.EmittedOnCube | GameEngine.h:46-100 | every vertex of the first k emitted faces is a corner of the unit cube |
| Blocks.BlockOnCube | GameEngine.h:42-101 | every vertex of a block's mesh is a corner of the unit cube centred on the block |
| Blocks.FaceTexture | GameEngine.h:47-51 | the set of a face's texture coordinates is exactly the four corners of the atlas cell `getTexture` selects for that side |
| Blocks.AddFaceIfSet | GameEngine.h:46-53 | one branch of the block constructor appends the face's quad exactly when its bit is set |
| Blocks.NewBlock | GameEngine.h:42-101 | the block buffer holds the set faces' quads in the order Top, Bottom, Left, Right, Back, Front |
| Chunks.TerrainLayers | GameEngine.h:128-134 | the column profile: solid exactly up to sea level, grass exactly at sea level, dirt in the three layers below it, stone from sea level - 4 down |
| Chunks.NeighbourTests | GameEngine.h:148-153 | each of the six tests in `getBuffer` is exactly "the neighbour across that face is outside the chunk or air" |
| Chunks.VisibleSidesBits | GameEngine.h:147-153 | the visible face set is the OR of each face's bit, set when that face is exposed |
| Chunks.VisibleSidesExposed | GameEngine.h:147-153 | a face bit is set if and only if the face is exposed, and the two spare bits stay clear |
| Chunks.CellVertexCount | GameEngine.h:146-156 | a cell adds six vertices per visible face; an air cell adds none |
| Chunks.ColumnVertexCount | GameEngine.h:145-157 | a column's mesh holds six vertices per visible face of its cells |
| Chunks.SliceVertexCount | GameEngine.h:144-158 | a slice's mesh holds six vertices per visible face of its cells |
| Chunks.ChunkVertexCountUpTo | GameEngine.h:143-159 | the first x slices hold six vertices per visible face of their cells |
| Chunks.ChunkVertexCount | GameEngine.h:143-159 | the chunk buffer holds six vertices per visible face of every non-air block |
| Chunks.TerrainSides | GameEngine.h:123-153 | in a freshly filled chunk a block shows its top only at sea level, its bottom only at z = 0, and a side only on the chunk's edge |
| Chunks.TerrainCellFaces | GameEngine.h:123-153 | the number of faces each terrain cell shows |
| Chunks.TerrainColumnFaces | GameEngine.h:123-157 | the number of faces a terrain column shows up to height z |
| Chunks.TerrainSliceFaces | GameEngine.h:123-158 | the number of faces a terrain slice shows up to column y |
| Chunks.TerrainChunkFacesUpTo | GameEngine.h:123-159 | the number of faces the first x terrain slices show |
| Chunks.TerrainChunkMesh | GameEngine.h:123-159 | a freshly filled chunk shows 4544 faces, so its mesh holds 27264 vertices |
| Chunks.CellOnCube | GameEngine.h:154-155 | every vertex a cell adds is a corner of the unit cube centred on the cell's world position (location * 16 + x, location * 16 + y, z) |
| Chunks.CellInFootprint | GameEngine.h:154-155 | every vertex a cell adds lies within the chunk's box |
| Chunks.ColumnInFootprint | GameEngine.h:145-157 | every vertex of a column's mesh lies within the chunk's box |
| Chunks.SliceInFootprint | GameEngine.h:144-158 | every vertex of a slice's mesh lies within the chunk's box |
| Chunks.ChunkInFootprintUpTo | GameEngine.h:143-159 | every vertex of the first x slices lies within the chunk's box |
| Chunks.ChunkInFootprint | GameEngine.h:143-159 | every vertex of a chunk's mesh lies within that chunk's 16 x 16 x 256 box |
| Chunks.Chunk.constructor | GameEngine.h:116-138 | the blocks start as air and the triple loop leaves every column with the terrain profile; the chunk starts modified with an empty buffer of size and capacity 0 |
| Chunks.Chunk.ComputeVisibleSides | GameEngine.h:147-153 | the six tests build exactly the visible face set of the cell |
| Chunks.Chunk.AppendCell | GameEngine.h:146-156 | an air cell adds nothing; any other cell adds its block's visible faces translated to the cell's position |
| Chunks.Chunk.AppendColumn | GameEngine.h:145-157 | the z loop appends the column's mesh after the existing contents |
| Chunks.Chunk.AppendSlice | GameEngine.h:144-158 | the y loop appends the slice's mesh after the existing contents |
| Chunks.Chunk.BuildMesh | GameEngine.h:142-159 | the x loop builds a new buffer holding exactly the chunk mesh |
| Chunks.Chunk.GetBuffer | GameEngine.h:140-165 | rebuilds into a new buffer of exactly the mesh's size only while modified, then clears the flag; otherwise returns the cached buffer unchanged; the result always holds the current mesh |
| Worlds.HashSymmetric | GameEngine.h:171-177 | (a, b) and (b, a) hash equal, and every diagonal location hashes to 0, whatever the coordinate hash |
| Worlds.World.constructor | GameEngine.h:179 | a new world holds no chunks |
| Worlds.World.IsChunkGenerated | GameEngine.h:183-186 | true exactly when `getChunk` succeeds for the location |
| Worlds.World.GetChunk | GameEngine.h:193-198 | the stored chunk when there is one, else the error "error: chunk has not been generated yet" |
| Worlds.World.GenerateChunk | GameEngine.h:188-191 | afterwards the location is generated and `getChunk` returns the result; an existing chunk is never replaced; otherwise exactly one new, modified chunk is added, at that location and filled with the terrain profile |
| Engine.GridLocations | GameEngine.h:214-219 | the 36 chunk indices cover each location (i, j) with -3 <= i, j < 3 exactly once |
| Engine.GameEngine.constructor | GameEngine.h:211-220 | 36 distinct new chunks, modified and filled with terrain, at the locations in row-major order |
| Engine.GameEngine.Render | GameEngine.h:224-231 | one buffer per chunk, in the chunks' order; each holds its chunk's current mesh, of 27264 vertices; a chunk that was not modified hands back its cached buffer; no chunk is left modified |

## Left out

- The Metal device, `newBufferWithLength`, `memcpy` into the allocation and the `NativeDevice` parameters of `getBuffer` and the engine (Buffer.h:60-73, 90). The native buffer's contents are modelled as a copy of the vertex sequence.
- The `draw` callback (GameEngine.h:207, 229). `Render` returns the list of buffers the callback would receive.
- `update` (GameEngine.h:222) has an empty body.
- `Buffer::begin`, `end` and `data` and `NativeBuffer::data`, `size` and `capacity` (Buffer.h:30-40, 75-85) only expose fields. The model reads those fields directly.
- Float arithmetic is not modelled: positions are integers in half-block units and texture coordinates are integer numerators over 16.
- `std::hash<int>` is a parameter of `Worlds.Hash`. The map is modelled by key equality, which is what the hash table provides whatever the hash is.
- Chunks.Chunk.AppendCell: does not model the float rounding of positions. `translate` adds the float `location * 16 + x` to +-0.5, which is exact only while that offset is below 2^23 in magnitude (a 24-bit significand); beyond it the source's corners round and the model's exact integers differ. The 32-bit `int` overflow of `location * WIDTH + x`, which comes later, is not modelled either.
- Buffers.Buffer.Append: appending a buffer to itself doubles its contents in the model, whereas in the source `buffer += buffer` inserts a vector's own range into it, which `std::vector::insert` leaves undefined.
- `Chunk` and `NativeBuffer` are copied by value in the source: `std::vector<Chunk>`, `emplace`, and the `std::vector<NativeBuffer>` handed to `draw`. They are modelled as shared references. The model does not follow a copy's independent dirty flag, so it captures the state of the stored chunk only.
- The `assert(size_ <= capacity_)` in `fill` is a precondition of `Buffers.NativeBuffer.Fill`. Every call in `getBuffer` meets it, because the capacity is exactly the mesh's size.
- `gui.h`, `gui.cpp`, `PlayerCamera.h` and `ShaderTypes.h` are not part of this model. They hold the UI toolkit, float camera maths and shader declarations.
