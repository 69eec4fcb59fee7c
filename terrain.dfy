/** Chunk slicing of the world density grid (TerrainManager.cs). The world
    is `worldChunkSize` chunks per axis; each chunk holds `chunkSize` samples
    per axis, and neighbouring chunks share one boundary layer, so the world
    grid has `worldChunkSize * (chunkSize - 1) + 1` samples per axis. Chunk
    `(x, y, z)` copies the window of the world grid that starts at
    `(x, y, z) * (chunkSize - 1)`. */
module Terrain {
  import opened Vectors
  import opened MeshTypes

  // ---------------------------------------------------------------------
  // Index arithmetic on one axis

  /** First world-grid index of the window of chunk `x` on an axis whose
      chunks hold `c` samples. */
  function WindowStart(x: int, c: int): int {
    x * (c - 1)
  }

  /** Number of world-grid samples on an axis of `w` chunks of `c` samples. */
  function GridExtent(w: int, c: int): int {
    w * (c - 1) + 1
  }

  /** The array allocations of one axis succeed: the chunk count and the
      world extent are non-negative. A chunk tensor is allocated only when
      every axis has a chunk, and then the world extent already forces the
      chunk extent to be non-negative (WindowFits). */
  predicate AxisSizesValid(w: int, c: int) {
    w >= 0 && GridExtent(w, c) >= 0
  }

  predicate SizesValid(worldChunkSize: Vec3Int, chunkSize: Vec3Int) {
    && AxisSizesValid(worldChunkSize.x, chunkSize.x)
    && AxisSizesValid(worldChunkSize.y, chunkSize.y)
    && AxisSizesValid(worldChunkSize.z, chunkSize.z)
  }

  /** On an axis with at least one chunk, the last chunk's window ends
      exactly at the last world sample: the windows reach the whole grid and
      no further. */
  lemma LastWindowReachesEnd(w: int, c: int)
    requires w >= 1
    ensures WindowStart(w - 1, c) + c == GridExtent(w, c)
  {
    assert w * (c - 1) == (w - 1) * (c - 1) + (c - 1);
  }

  /** The window of every chunk lies inside the world grid, so every read of
      the copy loops is in bounds. */
  lemma WindowFits(w: int, c: int, x: int)
    requires AxisSizesValid(w, c) && 0 <= x < w
    ensures c >= 0
    ensures 0 <= WindowStart(x, c)
    ensures WindowStart(x, c) + c <= GridExtent(w, c)
  {
    if c < 0 {
      // w * (c - 1) + 1 <= 1 - 2 * w < 0
      assert false;
    } else if c == 0 {
      // 1 - w >= 0 leaves only the single chunk 0
      assert w <= 1 && x == 0;
    } else {
      var d := w - 1 - x;
      assert d * (c - 1) >= 0;
      assert w * (c - 1) == x * (c - 1) + (c - 1) + d * (c - 1);
    }
  }

  /** The last layer of chunk `x` is the first layer of chunk `x + 1`. */
  lemma SeamAligned(x: int, c: int)
    ensures WindowStart(x, c) + (c - 1) == WindowStart(x + 1, c)
  {
    assert (x + 1) * (c - 1) == x * (c - 1) + (c - 1);
  }

  /** Every world-grid index on an axis with at least one chunk lies in the
      window of some chunk. */
  lemma {:induction false} Cover(w: int, c: int, g: int) returns (x: int, i: int)
    requires AxisSizesValid(w, c) && w >= 1 && 0 <= g < GridExtent(w, c)
    ensures 0 <= x < w && 0 <= i < c
    ensures WindowStart(x, c) + i == g
    decreases w
  {
    if g < c {
      x, i := 0, g;
    } else {
      // here c >= 2 and w >= 2
      assert GridExtent(w - 1, c) == GridExtent(w, c) - (c - 1) by {
        assert (w - 1) * (c - 1) == w * (c - 1) - (c - 1);
      }
      var x', i' := Cover(w - 1, c, g - (c - 1));
      SeamAligned(x', c);
      x, i := x' + 1, i';
    }
  }

  // ---------------------------------------------------------------------
  // Chunks

  /** A chunk of terrain: the density window it was built from and its
      coordinate in the chunk grid. */
  class Chunk {
    const mapData: MapData
    const coord: Vec3Int

    constructor (mapData: MapData, coord: Vec3Int)
      ensures this.mapData == mapData && this.coord == coord
    {
      this.mapData := mapData;
      this.coord := coord;
    }
  }

  /** `ch` is chunk `coord`: its tensor has extents `size` and is an exact
      copy of the window of `world` that starts at `coord * (size - 1)`. */
  ghost predicate ChunkIsWindow(ch: Chunk?, world: array3<int>, size: Vec3Int, coord: Vec3Int)
    reads world, if ch == null then {} else {ch.mapData.densityTensor}
  {
    && ch != null && ch.coord == coord && ch.mapData.size == size
    && var t := ch.mapData.densityTensor;
    && t.Length0 == size.x && t.Length1 == size.y && t.Length2 == size.z
    && 0 <= WindowStart(coord.x, size.x) && WindowStart(coord.x, size.x) + size.x <= world.Length0
    && 0 <= WindowStart(coord.y, size.y) && WindowStart(coord.y, size.y) + size.y <= world.Length1
    && 0 <= WindowStart(coord.z, size.z) && WindowStart(coord.z, size.z) + size.z <= world.Length2
    && forall i, j, k | 0 <= i < size.x && 0 <= j < size.y && 0 <= k < size.z ::
         t[i, j, k] == world[WindowStart(coord.x, size.x) + i,
                             WindowStart(coord.y, size.y) + j,
                             WindowStart(coord.z, size.z) + k]
  }

  /** Index `(a, b, c)` comes before index `(x, y, z)` in an x, y, z loop
      nest (x outermost). */
  predicate VisitedBefore(a: int, b: int, c: int, x: int, y: int, z: int) {
    a < x || (a == x && (b < y || (b == y && c < z)))
  }

  /** Copies the `size` window of `world` starting at `origin` into a fresh
      tensor (the i/j/k loops of GenerateTerrainMesh). */
  method CopyWindow(world: array3<int>, size: Vec3Int, origin: Vec3Int) returns (chunkDensity: array3<int>)
    requires size.x >= 0 && size.y >= 0 && size.z >= 0
    requires 0 <= origin.x && origin.x + size.x <= world.Length0
    requires 0 <= origin.y && origin.y + size.y <= world.Length1
    requires 0 <= origin.z && origin.z + size.z <= world.Length2
    ensures fresh(chunkDensity)
    ensures chunkDensity.Length0 == size.x && chunkDensity.Length1 == size.y && chunkDensity.Length2 == size.z
    ensures forall i, j, k | 0 <= i < size.x && 0 <= j < size.y && 0 <= k < size.z ::
      chunkDensity[i, j, k] == world[origin.x + i, origin.y + j, origin.z + k]
  {
    chunkDensity := new int[size.x, size.y, size.z];
    var i := 0;
    while i < size.x
      invariant 0 <= i <= size.x
      invariant forall a, b, c | 0 <= a < size.x && 0 <= b < size.y && 0 <= c < size.z && VisitedBefore(a, b, c, i, 0, 0) ::
        chunkDensity[a, b, c] == world[origin.x + a, origin.y + b, origin.z + c]
      modifies chunkDensity
    {
      var j := 0;
      while j < size.y
        invariant 0 <= j <= size.y
        invariant forall a, b, c | 0 <= a < size.x && 0 <= b < size.y && 0 <= c < size.z && VisitedBefore(a, b, c, i, j, 0) ::
          chunkDensity[a, b, c] == world[origin.x + a, origin.y + b, origin.z + c]
        modifies chunkDensity
      {
        var k := 0;
        while k < size.z
          invariant 0 <= k <= size.z
          invariant forall a, b, c | 0 <= a < size.x && 0 <= b < size.y && 0 <= c < size.z && VisitedBefore(a, b, c, i, j, k) ::
            chunkDensity[a, b, c] == world[origin.x + a, origin.y + b, origin.z + c]
          modifies chunkDensity
        {
          chunkDensity[i, j, k] := world[i + origin.x, j + origin.y, k + origin.z];
          k := k + 1;
        }
        j := j + 1;
      }
      i := i + 1;
    }
  }

  // ---------------------------------------------------------------------
  // The terrain manager

  class TerrainManager {
    var worldChunkSize: Vec3Int
    var chunkSize: Vec3Int
    var worldGridSize: Vec3Int
    var densityTensor: array3?<int>
    var chunks: array3?<Chunk?>

    /** A manager before its first RegenerateTerrain: no tensor, no chunks. */
    constructor (worldChunkSize: Vec3Int, chunkSize: Vec3Int)
      ensures this.worldChunkSize == worldChunkSize && this.chunkSize == chunkSize
      ensures worldGridSize == Vec3Int(0, 0, 0)
      ensures densityTensor == null && chunks == null
    {
      this.worldChunkSize := worldChunkSize;
      this.chunkSize := chunkSize;
      worldGridSize := Vec3Int(0, 0, 0);
      densityTensor := null;
      chunks := null;
    }

    /** The objects the chunk predicate reads: the world tensor and every
        stored chunk's tensor. */
    ghost function ChunkTensors(): set<object>
      reads this, chunks
    {
      if chunks == null then {}
      else set a, b, c | 0 <= a < chunks.Length0 && 0 <= b < chunks.Length1 && 0 <= c < chunks.Length2
                         && chunks[a, b, c] != null :: chunks[a, b, c].mapData.densityTensor
    }

    /** Every slot of the chunk array holds the chunk for its coordinate,
        whose tensor is the exact window of the world tensor. */
    ghost predicate ChunksSliced()
      reads this, chunks, densityTensor, ChunkTensors()
    {
      && densityTensor != null && chunks != null
      && chunks.Length0 == worldChunkSize.x && chunks.Length1 == worldChunkSize.y
      && chunks.Length2 == worldChunkSize.z
      && forall a, b, c | 0 <= a < chunks.Length0 && 0 <= b < chunks.Length1 && 0 <= c < chunks.Length2 ::
           ChunkIsWindow(chunks[a, b, c], densityTensor, chunkSize, Vec3Int(a, b, c))
    }

    /** The state RegenerateTerrain leaves: valid sizes, the world tensor
        with the world grid's extents, and every chunk slot sliced. */
    ghost predicate Regenerated()
      reads this, chunks, densityTensor, ChunkTensors()
    {
      && SizesValid(worldChunkSize, chunkSize)
      && worldGridSize == Vec3Int(GridExtent(worldChunkSize.x, chunkSize.x),
                                  GridExtent(worldChunkSize.y, chunkSize.y),
                                  GridExtent(worldChunkSize.z, chunkSize.z))
      && densityTensor != null
      && densityTensor.Length0 == worldGridSize.x && densityTensor.Length1 == worldGridSize.y
      && densityTensor.Length2 == worldGridSize.z
      && ChunksSliced()
    }

    /** Computes the world grid, samples the density into it and slices it
        into chunks. Noise is the parameter `density`. */
    method RegenerateTerrain(density: (int, int, int) -> int)
      requires SizesValid(worldChunkSize, chunkSize)
      modifies this
      ensures worldChunkSize == old(worldChunkSize) && chunkSize == old(chunkSize)
      ensures worldGridSize == Vec3Int(GridExtent(worldChunkSize.x, chunkSize.x),
                                       GridExtent(worldChunkSize.y, chunkSize.y),
                                       GridExtent(worldChunkSize.z, chunkSize.z))
      ensures densityTensor != null && fresh(densityTensor)
      ensures densityTensor.Length0 == worldGridSize.x && densityTensor.Length1 == worldGridSize.y
      ensures densityTensor.Length2 == worldGridSize.z
      ensures forall a, b, c | 0 <= a < worldGridSize.x && 0 <= b < worldGridSize.y && 0 <= c < worldGridSize.z ::
        densityTensor[a, b, c] == density(a, b, c)
      ensures chunks != null && fresh(chunks)
      ensures Regenerated()
    {
      worldGridSize := Scale(worldChunkSize, Sub(chunkSize, One));
      worldGridSize := Add(worldGridSize, One);
      chunks := new Chunk?[worldChunkSize.x, worldChunkSize.y, worldChunkSize.z];

      GenerateTerrainDensity(density);
      GenerateTerrainMesh();
    }

    /** Slices the world tensor into chunks, in x, y, z loop order. */
    method GenerateTerrainMesh()
      requires SizesValid(worldChunkSize, chunkSize)
      requires densityTensor != null && chunks != null
      requires densityTensor.Length0 == GridExtent(worldChunkSize.x, chunkSize.x)
      requires densityTensor.Length1 == GridExtent(worldChunkSize.y, chunkSize.y)
      requires densityTensor.Length2 == GridExtent(worldChunkSize.z, chunkSize.z)
      requires chunks.Length0 == worldChunkSize.x && chunks.Length1 == worldChunkSize.y
      requires chunks.Length2 == worldChunkSize.z
      modifies chunks
      ensures ChunksSliced()
    {
      var world, cs, n := densityTensor, chunks, worldChunkSize;
      var x := 0;
      while x < n.x
        invariant 0 <= x <= n.x
        invariant forall a, b, c | 0 <= a < n.x && 0 <= b < n.y && 0 <= c < n.z && VisitedBefore(a, b, c, x, 0, 0) ::
          ChunkIsWindow(cs[a, b, c], world, chunkSize, Vec3Int(a, b, c))
      {
        var y := 0;
        while y < n.y
          invariant 0 <= y <= n.y
          invariant forall a, b, c | 0 <= a < n.x && 0 <= b < n.y && 0 <= c < n.z && VisitedBefore(a, b, c, x, y, 0) ::
            ChunkIsWindow(cs[a, b, c], world, chunkSize, Vec3Int(a, b, c))
        {
          var z := 0;
          while z < n.z
            invariant 0 <= z <= n.z
            invariant forall a, b, c | 0 <= a < n.x && 0 <= b < n.y && 0 <= c < n.z && VisitedBefore(a, b, c, x, y, z) ::
              ChunkIsWindow(cs[a, b, c], world, chunkSize, Vec3Int(a, b, c))
          {
            var chunk := BuildChunk(x, y, z);
            cs[x, y, z] := chunk;
            z := z + 1;
          }
          y := y + 1;
        }
        x := x + 1;
      }
    }

    /** The body of the chunk loop: copies the window of chunk `(x, y, z)`
        and wraps it with size `chunkSize` in a new chunk. */
    method BuildChunk(x: int, y: int, z: int) returns (chunk: Chunk)
      requires SizesValid(worldChunkSize, chunkSize) && densityTensor != null
      requires densityTensor.Length0 == GridExtent(worldChunkSize.x, chunkSize.x)
      requires densityTensor.Length1 == GridExtent(worldChunkSize.y, chunkSize.y)
      requires densityTensor.Length2 == GridExtent(worldChunkSize.z, chunkSize.z)
      requires 0 <= x < worldChunkSize.x && 0 <= y < worldChunkSize.y && 0 <= z < worldChunkSize.z
      ensures fresh(chunk) && fresh(chunk.mapData.densityTensor)
      ensures ChunkIsWindow(chunk, densityTensor, chunkSize, Vec3Int(x, y, z))
    {
      var chunkPositionInGrid := Scale(Vec3Int(x, y, z), Sub(chunkSize, One));
      WindowFits(worldChunkSize.x, chunkSize.x, x);
      WindowFits(worldChunkSize.y, chunkSize.y, y);
      WindowFits(worldChunkSize.z, chunkSize.z, z);
      var chunkDensity := CopyWindow(densityTensor, chunkSize, chunkPositionInGrid);
      var chunkData := MapData(chunkDensity, chunkSize);
      chunk := new Chunk(chunkData, Vec3Int(x, y, z));
    }

    /** Allocates the world tensor with the world grid's extents and fills it
        with the density of every sample. */
    method GenerateTerrainDensity(density: (int, int, int) -> int)
      requires worldGridSize.x >= 0 && worldGridSize.y >= 0 && worldGridSize.z >= 0
      modifies this
      ensures worldChunkSize == old(worldChunkSize) && chunkSize == old(chunkSize)
      ensures worldGridSize == old(worldGridSize) && chunks == old(chunks)
      ensures densityTensor != null && fresh(densityTensor)
      ensures densityTensor.Length0 == worldGridSize.x && densityTensor.Length1 == worldGridSize.y
      ensures densityTensor.Length2 == worldGridSize.z
      ensures forall a, b, c | 0 <= a < worldGridSize.x && 0 <= b < worldGridSize.y && 0 <= c < worldGridSize.z ::
        densityTensor[a, b, c] == density(a, b, c)
    {
      var t := new int[worldGridSize.x, worldGridSize.y, worldGridSize.z];
      densityTensor := t;
      var n := worldGridSize;
      var x := 0;
      while x < n.x
        invariant 0 <= x <= n.x
        invariant forall a, b, c | 0 <= a < n.x && 0 <= b < n.y && 0 <= c < n.z && VisitedBefore(a, b, c, x, 0, 0) ::
          t[a, b, c] == density(a, b, c)
        modifies t
      {
        var y := 0;
        while y < n.y
          invariant 0 <= y <= n.y
          invariant forall a, b, c | 0 <= a < n.x && 0 <= b < n.y && 0 <= c < n.z && VisitedBefore(a, b, c, x, y, 0) ::
            t[a, b, c] == density(a, b, c)
          modifies t
        {
          var z := 0;
          while z < n.z
            invariant 0 <= z <= n.z
            invariant forall a, b, c | 0 <= a < n.x && 0 <= b < n.y && 0 <= c < n.z && VisitedBefore(a, b, c, x, y, z) ::
              t[a, b, c] == density(a, b, c)
            modifies t
          {
            t[x, y, z] := density(x, y, z);
            z := z + 1;
          }
          y := y + 1;
        }
        x := x + 1;
      }
    }
  }
}
