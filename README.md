# Voxel terrain mesher: Marching Cubes and chunk slicing

This project models the sequential core of a Unity voxel-terrain mesher in
Dafny and proves properties of that model. The core has two parts.

- **The Marching Cubes triangulator** (`MarchingCubes.cs`). It takes an
  integer density tensor and returns a flat vertex list plus an index list.
  It walks every unit cube of the tensor, x outermost, then y, then z. For
  each cube it:
  - reads the eight corner samples in a fixed order;
  - builds the 8-bit configuration index, where bit *i* is set exactly when
    corner *i* is negative;
  - skips the cube when the index is 0 (all outside) or 255 (all inside);
  - otherwise moves each edge flagged in `edgeTable` to the zero crossing of
    the linear interpolation between its two corners;
  - emits one vertex per `triTable` entry before the `-1` sentinel, offset
    by the cube's grid coordinate.

  The vertices go to a linked list. The list is then drained, front first,
  into the vertex array, and the index array is filled with 0, 1, 2, ….
- **Chunk slicing of the world grid** (`TerrainManager.cs`). The world is
  `worldChunkSize` chunks per axis. Each chunk holds `chunkSize` samples per
  axis, and neighbouring chunks share one boundary layer. So the world grid
  has `worldChunkSize * (chunkSize - 1) + 1` samples per axis. The manager
  fills the world tensor with a density per sample. Chunk `(x, y, z)` copies
  the window of the world grid that starts at `(x, y, z) * (chunkSize - 1)`,
  and that copy is stored at `chunks[x, y, z]`.

Layout:

| file | module | contents |
|---|---|---|
| `vectors.dfy` | `Vectors` | `Vector3` and `Vector3Int` as exact `real` / `int` triples |
| `bits.dfy` | `Bits` | `1 << n` and bit tests on integers |
| `mesh_types.dfy` | `MeshTypes` | `MapData` and `MeshData` |
| `lookup_tables.dfy` | `LookupTables` | the lookup tables, as a parameter, and the properties assumed of them |
| `marching_cubes.dfy` | `MarchingCubes` | the triangulator and the functions that specify it |
| `marching_cubes_proofs.dfy` | `MarchingCubesProofs` | lemmas about the whole mesh |
| `terrain.dfy` | `Terrain` | the `TerrainManager` and `Chunk` classes, and the window arithmetic |
| `terrain_proofs.dfy` | `TerrainProofs` | seam sharing and coverage over a regenerated manager |

How the specification is organised:

- `CreateMesh` is imperative, as in the source. It has the cube walk, the
  vertex list as a sequence that grows at the back, and the drain loop. It
  is proved to produce exactly `MeshVertices(tables, mapData)`.
  - `MeshVertices` is a recursive function that concatenates the cubes'
    vertex lists in loop order. Each cube's list is given by `CubeVertices`.
  - The lemmas in `MarchingCubesProofs` state what that sequence is: empty
    for uniform tensors, whole triangles, every vertex on a crossing edge,
    and every vertex inside the walked box.
- The lookup tables are not part of the model. The tables are a parameter
  of type `Tables`, and every property the proofs rely on is a named
  predicate over them:
  - `ValidTables`: shapes, a sentinel in every row, and edge masks that flag
    only edges whose corners lie on different sides;
  - `RowsAreTriangles`;
  - `UnitCubePositions`;
  - `EdgeGeometry`, and the direction-free `EdgesAdjacent`.

  Each lemma requires exactly the predicates it uses.
- `TerrainManager` is a class whose methods update its fields, as in the
  source.
  - `RegenerateTerrain` ensures `Regenerated()`. That predicate says the
    world extents are `worldChunkSize * (chunkSize - 1) + 1`, the world
    tensor has exactly those extents, and every slot of `chunks` holds the
    chunk for its coordinate. Each chunk's tensor is an exact copy of its
    window.
  - The seam and coverage lemmas are stated over that state.

## Model

| member | source | states |
|---|---|---|
| `Bits.Pow2` | Assets/Scripts/Terrain/MarchingCubes.cs:29 | `1 << i` is a positive power of two |
| `Bits.Bit` | Assets/Scripts/Terrain/MarchingCubes.cs:81 | `1 << i & v` is non-zero: bit i of v in two's complement (Euclidean halving, so negative v works too) |
| `Bits.BitAboveWidth` | Assets/Scripts/Terrain/MarchingCubes.cs:81 | a number below 2^n has no bit set at or above position n |
| `Bits.BitOfAddPow2` | Assets/Scripts/Terrain/MarchingCubes.cs:26-30 | adding `1 << n` to a number below 2^n sets bit n and keeps every lower bit |
| `LookupTables.FirstSentinel` | Assets/Scripts/Terrain/MarchingCubes.cs:37 | the emission loop stops at the first `-1` of the row, and no earlier entry is `-1` |
| `LookupTables.Corner0` | Assets/Scripts/Terrain/MarchingCubes.cs:84 | the first corner of an edge is one of the cube's 8 corners |
| `LookupTables.Corner1` | Assets/Scripts/Terrain/MarchingCubes.cs:85 | the second corner of an edge is one of the cube's 8 corners |
| `LookupTables.TriRow` | Assets/Scripts/Terrain/MarchingCubes.cs:37-41 | every edge index a configuration emits indexes the 12 adjusted positions |
| `LookupTables.CornerOffset` | Assets/Scripts/Terrain/MarchingCubes.cs:109-116 | every corner offset lies in {0,1}^3 |
| `MarchingCubes.GetCube` | Assets/Scripts/Terrain/MarchingCubes.cs:104-120 | reads in bounds when the cube's far corner is inside the tensor; returns 8 samples, and sample k is the tensor at `(x, y, z)` plus corner k's offset (order 0:(0,0,0) 1:(1,0,0) 2:(1,0,1) 3:(0,0,1), then the same at y+1) |
| `MarchingCubes.PartialIndex` | Assets/Scripts/Terrain/MarchingCubes.cs:24-30 | the index after the first n corners of the accumulation loop: the sum of `1 << i` over the negative corners i < n, an n-bit number |
| `MarchingCubes.ConfigIndex` | Assets/Scripts/Terrain/MarchingCubes.cs:24-30 | the cube's configuration index, the accumulation over all 8 corners, in [0,255] |
| `MarchingCubes.PartialIndexBits` | Assets/Scripts/Terrain/MarchingCubes.cs:26-30 | after n corners the index is an n-bit number; bit i is set iff corner i is negative; it is 0 iff no corner so far is negative, and all ones iff all are |
| `MarchingCubes.ConfigIndexSpec` | Assets/Scripts/Terrain/MarchingCubes.cs:24-32 | the configuration index is in [0,255]; bit i is set iff corner i is negative; it is 0 iff every corner is non-negative, and 255 iff every corner is negative (the two skipped cases) |
| `MarchingCubes.ComputeCubeIndex` | Assets/Scripts/Terrain/MarchingCubes.cs:24-30 | the accumulation loop yields the configuration index: in [0,255], bit i set iff corner i is negative |
| `MarchingCubes.EdgeFraction` | Assets/Scripts/Terrain/MarchingCubes.cs:84-88 | `-v0/(v1-v0)` is where the interpolation of the two corner values is zero; when the corners differ in sign it lies in [0,1] |
| `MarchingCubes.AtLevel` | Assets/Scripts/Terrain/MarchingCubes.cs:90-95 | each coordinate of a default position that equals 0.5 is replaced by the fraction, the others are kept |
| `MarchingCubes.AdjustedEdgePosition` | Assets/Scripts/Terrain/MarchingCubes.cs:79-96 | slot i of the surface levels: the table's default position when bit i of the edge mask is clear, otherwise that position moved by `AtLevel` to `-v0/(v1-v0)` of the edge's two corner values |
| `MarchingCubes.CalculateSurfaceLevels` | Assets/Scripts/Terrain/MarchingCubes.cs:73-102 | returns a fresh array of 12 positions; unflagged edges keep the table's default position; a flagged edge has exactly its 0.5 coordinates replaced by the edge fraction |
| `MarchingCubes.FlaggedEdgesCross` | Assets/Scripts/Terrain/MarchingCubes.cs:32-35 | for a cube that is not skipped, every edge its mask flags has one corner negative and one not, so every interpolation is defined |
| `MarchingCubes.CubeVertices` | Assets/Scripts/Terrain/MarchingCubes.cs:32-48 | the vertices one cube with these corner samples adds at `(x, y, z)`: none for index 0 or 255, otherwise its triTable row's emission |
| `MarchingCubes.RowVertices` | Assets/Scripts/Terrain/MarchingCubes.cs:37-48 | one vertex per row entry, in row order; vertex j is entry j's adjusted edge position plus `(x, y, z)` componentwise |
| `MarchingCubes.CubeVerticesRow` | Assets/Scripts/Terrain/MarchingCubes.cs:35-48 | for a cube that is not skipped, it emits one vertex per triTable entry before the `-1`, and vertex j is entry j's adjusted edge position offset by `(x, y, z)` |
| `MarchingCubes.CubeVerticesAt` | Assets/Scripts/Terrain/MarchingCubes.cs:23-48 | the vertices of the cube whose lowest corner is tensor sample `(x, y, z)` |
| `MarchingCubes.ColumnVertices` | Assets/Scripts/Terrain/MarchingCubes.cs:20-51 | the vertices of cubes `(x, y, 0)` to `(x, y, zEnd-1)`, concatenated in increasing z |
| `MarchingCubes.SliceVertices` | Assets/Scripts/Terrain/MarchingCubes.cs:18-52 | the columns `(x, 0)` to `(x, yEnd-1)` of `nz` cubes each, concatenated in increasing y |
| `MarchingCubes.GridVertices` | Assets/Scripts/Terrain/MarchingCubes.cs:16-53 | the slices 0 to `xEnd-1`, concatenated in increasing x |
| `MarchingCubes.MeshVertices` | Assets/Scripts/Terrain/MarchingCubes.cs:14-53 | the vertex list of the whole walk: every cube with `x < size.x-1`, `y < size.y-1`, `z < size.z-1`, in x, y, z loop order |
| `MarchingCubes.AppendCube` | Assets/Scripts/Terrain/MarchingCubes.cs:23-50 | one cube of the walk appends exactly that cube's vertices at the back of the list, and the counter stays equal to the list length |
| `MarchingCubes.MarchColumn` | Assets/Scripts/Terrain/MarchingCubes.cs:20-51 | the z loop appends the cubes of one column in increasing z |
| `MarchingCubes.MarchSlice` | Assets/Scripts/Terrain/MarchingCubes.cs:18-52 | the y loop appends the columns of one slice in increasing y |
| `MarchingCubes.DrainVertices` | Assets/Scripts/Terrain/MarchingCubes.cs:55-65 | the drain loop puts the list, front first, into a fresh vertex array of the same length, and fills a fresh index array of that length with `triangles[i] == i` |
| `MarchingCubes.CreateMesh` | Assets/Scripts/Terrain/MarchingCubes.cs:9-71 | the vertex array is exactly the cubes' vertices in x, y, z loop order (drained front first); the index array has the same length and `triangles[i] == i`; both arrays are fresh |
| `MarchingCubesProofs.ColumnHolds` | Assets/Scripts/Terrain/MarchingCubes.cs:20-51 | a property kept by concatenation that every cube of a column has, the column's vertex list has |
| `MarchingCubesProofs.SliceHolds` | Assets/Scripts/Terrain/MarchingCubes.cs:18-52 | the same for a slice of columns |
| `MarchingCubesProofs.GridHolds` | Assets/Scripts/Terrain/MarchingCubes.cs:16-53 | the same for the whole grid of cubes |
| `MarchingCubesProofs.MeshHolds` | Assets/Scripts/Terrain/MarchingCubes.cs:16-53 | the mesh's vertex list has a concatenation-closed property when every walked cube's list has it |
| `MarchingCubesProofs.CubeVertexCount` | Assets/Scripts/Terrain/MarchingCubes.cs:32-48 | a cube emits no vertex when all corners are on one side, and otherwise exactly as many as its triTable row has entries before the `-1` |
| `MarchingCubesProofs.MeshEmptyCases` | Assets/Scripts/Terrain/MarchingCubes.cs:16-32 | a tensor with every sample `>= 0`, one with every sample `< 0`, and a size below 2 on any axis each give an empty mesh |
| `MarchingCubesProofs.CubeTriangles` | Assets/Scripts/Terrain/MarchingCubes.cs:32-48 | with whole-triangle rows, a cube emits a multiple of 3 vertices |
| `MarchingCubesProofs.MeshIsTriangles` | Assets/Scripts/Terrain/MarchingCubes.cs:55-65 | with whole-triangle rows, the vertex and index arrays hold a whole number of triangles |
| `MarchingCubesProofs.AtLevelOnEdge` | Assets/Scripts/Terrain/MarchingCubes.cs:90-95 | on a unit edge running from its lower to its upper corner, replacing the midpoint's 0.5 coordinate by t gives the point at fraction t from the lower corner |
| `MarchingCubesProofs.AtLevelReversed` | Assets/Scripts/Terrain/MarchingCubes.cs:90-95 | on a unit edge running from its upper to its lower corner, the same replacement gives the point at fraction 1 - t from the first corner |
| `MarchingCubesProofs.LerpReversed` | Assets/Scripts/Terrain/MarchingCubes.cs:84-95 | interpolating from b to a by t is interpolating from a to b by 1 - t |
| `MarchingCubesProofs.ComplementDensity` | Assets/Scripts/Terrain/MarchingCubes.cs:84-88 | where the interpolated density between v0 and v1 is zero at t, it is v0 + v1 at 1 - t |
| `MarchingCubesProofs.AdjustedPositionAsWritten` | Assets/Scripts/Terrain/MarchingCubes.cs:84-95 | with tables whose edges join adjacent corners in either order (`EdgesAdjacent`), a flagged edge listed lower corner first moves to the zero crossing `Lerp(a, b, t)`; one listed upper corner first moves to `Lerp(a, b, 1 - t)`, where the interpolated density is v0 + v1, not zero |
| `MarchingCubesProofs.AsWrittenUpward` | Assets/Scripts/Terrain/MarchingCubes.cs:84-95 | the lower-corner-first case of `AdjustedPositionAsWritten` |
| `MarchingCubesProofs.AsWrittenDownward` | Assets/Scripts/Terrain/MarchingCubes.cs:84-95 | the upper-corner-first case of `AdjustedPositionAsWritten` |
| `MarchingCubesProofs.AdjustedPositionOnEdge` | Assets/Scripts/Terrain/MarchingCubes.cs:79-96 | with tables that list every edge from its lower to its upper corner (`EdgeGeometry`), a flagged edge's adjusted position is the linear interpolation of its two corners at `-v0/(v1-v0)` |
| `MarchingCubesProofs.CubeVertexOnEdge` | Assets/Scripts/Terrain/MarchingCubes.cs:35-44 | with tables that list every edge from its lower to its upper corner (`EdgeGeometry`), every vertex a cube emits lies on one of its edges whose corners differ in sign, at the fraction in [0,1] where the interpolated density is zero, offset by `(x, y, z)` |
| `MarchingCubesProofs.CubeVerticesInCube` | Assets/Scripts/Terrain/MarchingCubes.cs:41-44 | with default positions in the unit cube, every vertex of cube `(x, y, z)` lies in `[x, x+1] × [y, y+1] × [z, z+1]` |
| `MarchingCubesProofs.MeshVerticesInGrid` | Assets/Scripts/Terrain/MarchingCubes.cs:16-46 | every vertex of the mesh lies inside the box of the walked cubes |
| `Terrain.WindowStart` | Assets/Scripts/Terrain/TerrainManager.cs:64 | the first world index on an axis of chunk x's window: `x * (chunkSize - 1)` |
| `Terrain.GridExtent` | Assets/Scripts/Terrain/TerrainManager.cs:41-42 | the world grid's sample count on an axis of w chunks of c samples: `w * (c - 1) + 1` |
| `Terrain.LastWindowReachesEnd` | Assets/Scripts/Terrain/TerrainManager.cs:41-64 | with at least one chunk, the last chunk's window ends exactly at the world grid's last sample, so the chunks leave no sample of the axis uncovered at the far end |
| `Terrain.WindowFits` | Assets/Scripts/Terrain/TerrainManager.cs:62-75 | for `0 <= x < worldChunkSize` and any sizes the allocations accept, window x starts at or after 0 and ends within the world extent, so every read of the copy loops is in bounds |
| `Terrain.SeamAligned` | Assets/Scripts/Terrain/TerrainManager.cs:64 | the last layer of window x is the first layer of window x+1 |
| `Terrain.Cover` | Assets/Scripts/Terrain/TerrainManager.cs:41-72 | on an axis with at least one chunk, every world index g is `x*(c-1)+i` for some chunk x and some local index i in the chunk |
| `Terrain.CopyWindow` | Assets/Scripts/Terrain/TerrainManager.cs:62-75 | returns a fresh tensor of extents `chunkSize` with `chunkDensity[i,j,k] == densityTensor[i+ox, j+oy, k+oz]` |
| `Terrain.Chunk.constructor` | Assets/Scripts/Terrain/TerrainManager.cs:77-79 | a chunk keeps the map data it is given and its chunk coordinate |
| `Terrain.TerrainManager.constructor` | Assets/Scripts/Terrain/TerrainManager.cs:9-15 | the configured sizes, before any tensor or chunk exists |
| `Terrain.TerrainManager.RegenerateTerrain` | Assets/Scripts/Terrain/TerrainManager.cs:26-48 | the world grid size is `worldChunkSize*(chunkSize-1)+1` per axis; the world tensor is fresh, has exactly those extents, and holds the density of every sample; the chunk array is fresh with extents `worldChunkSize`, and every chunk is sliced |
| `Terrain.TerrainManager.GenerateTerrainMesh` | Assets/Scripts/Terrain/TerrainManager.cs:52-87 | every coordinate in `[0, worldChunkSize)` gets, at `chunks[x,y,z]`, a chunk with that coordinate, size `chunkSize`, and an exact copy of its window (the loops keep this for every chunk before the current one in x, y, z order) |
| `Terrain.TerrainManager.BuildChunk` | Assets/Scripts/Terrain/TerrainManager.cs:62-79 | a fresh chunk with a fresh tensor that is the exact window of chunk `(x, y, z)` |
| `Terrain.TerrainManager.GenerateTerrainDensity` | Assets/Scripts/Terrain/TerrainManager.cs:89-126 | the world tensor is fresh, has exactly the extents `worldGridSize`, and holds `density(x, y, z)` at every sample; no other field changes |
| `TerrainProofs.SeamSharedX` | Assets/Scripts/Terrain/TerrainManager.cs:64-72 | the last x-layer of chunk `(x, y, z)` equals, sample by sample, the first x-layer of chunk `(x+1, y, z)` |
| `TerrainProofs.SeamSharedY` | Assets/Scripts/Terrain/TerrainManager.cs:64-72 | the same along y |
| `TerrainProofs.SeamSharedZ` | Assets/Scripts/Terrain/TerrainManager.cs:64-72 | the same along z |
| `TerrainProofs.SampleInSomeChunk` | Assets/Scripts/Terrain/TerrainManager.cs:41-75 | with at least one chunk per axis, every world sample lies in some chunk's window, and that chunk holds the sample's value |
| `TerrainProofs.EmptyAxisUncovered` | Assets/Scripts/Terrain/TerrainManager.cs:41-43 | with no chunk on some axis, the world grid still has one sample on that axis but the chunk array is empty, so coverage needs at least one chunk per axis |

## Left out

- Floating point. `Vector3` coordinates and the interpolation
  `-value1 / (value2 - value1)` are exact rationals (`real`). The source
  computes them in IEEE single precision, so the model shows neither the
  rounding nor the precision lost when large integer samples are converted
  to `float`. The `== 0.5f` tests are exact comparisons.
- `MarchingCubes.CalculateSurfaceLevels`: requires `CrossingsDefined`, i.e.
  the two corner values of every flagged edge differ. In the source, equal
  values give a zero denominator, and the float division gives an infinity or
  NaN, not an error. `CreateMesh` meets this requirement under
  `ValidTables`, whose edge masks flag only edges whose corners lie on
  different sides (`FlaggedEdgesCross`).
- The contents of `LookupTables` are not part of this model. The tables are
  a parameter.
  - What the triangulator needs of their shape and edge masks is the
    requirement `ValidTables` of `CreateMesh`.
  - What the geometry lemmas need is a named requirement of each lemma:
    whole-triangle rows, default positions in the unit cube, edges between
    adjacent corners with midpoint defaults, and emitted edges flagged in
    the mask.
  - `CubeVertexOnEdge` and `AdjustedPositionOnEdge` assume that every
    edge is listed from its lower corner to its upper one (`EdgeGeometry`
    through `UnitStep`). The code
    replaces the 0.5 coordinate by `t = -v0/(v1-v0)`, and that always
    measures from the lower end. Without the assumption,
    `AdjustedPositionAsWritten` (under the weaker `EdgesAdjacent`) gives
    what the code does. An edge listed upper corner first gets its vertex
    at fraction `1 - t` from its first corner. There the interpolated
    density is `v0 + v1` (`ComplementDensity`), not zero, and the vertex
    is mirrored across the edge's midpoint. `LookupTables.cs` is not part
    of this model. The common Marching Cubes edge-to-corner table, with
    the corner order of `GetCube`, lists edges 2, 3, 6 and 7 upper corner
    first.
  - So no property that depends on particular table rows is stated, such as
    the triangles of a single-corner configuration.
- 32-bit integer overflow. Sizes, counters, the world extent
  `worldChunkSize * (chunkSize - 1) + 1` and the grid offsets are unbounded
  integers.
- Exceptions.
  - A negative array extent throws in the source. `RegenerateTerrain`
    requires `SizesValid`: per axis, the chunk count and the world extent
    `worldChunkSize * (chunkSize - 1) + 1` are non-negative. That holds
    exactly when every allocation it makes has non-negative extents: the
    world tensor, the chunk array and, when every axis has a chunk, each
    chunk's tensor. On such an axis a non-negative world extent forces
    `chunkSize >= 0` (`WindowFits`). With no chunk on some axis no chunk
    tensor is allocated, so a negative `chunkSize` is then accepted, as in
    the source.
  - An out-of-range read also throws. `CreateMesh` requires `SizeFits`: the
    `size` it walks fits in the tensor whenever any cube is read. The
    source always builds `MapData` with `size` equal to the tensor's
    extents.
- The linked list of `CreateMesh` is a sequence that grows at the back and
  is drained from the front. The mesh is the pair of arrays; Unity's `Mesh`
  construction (`MeshData.CreateMesh`) and normals are not modelled.
- The density values of `GenerateTerrainDensity` (Perlin noise, float sums,
  the plateau transform and the float-to-int cast) are the parameter
  `density`. Only the tensor's shape and fill order are modelled.
- The Unity calls in `RegenerateTerrain` (destroying children,
  `FindObjectOfType`, material settings) and `Awake`.
- `Chunk.cs` is not part of this model, except as the object stored in the
  chunk array. Its game object, renderer, collider, position and mesh
  request are left out; the model's `Chunk` keeps only the map data and
  the coordinate it is built with.
- `MeshGenerator.cs` is not part of this model: its worker threads and
  lock-guarded result queue are concurrency. Its per-tick drain compares the
  loop index against a count that shrinks while it dequeues, so it delivers
  only about half of the pending results per tick.
