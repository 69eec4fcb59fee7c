/** Properties of the chunk slicing, stated over the state a terrain manager
    is in after RegenerateTerrain. */
module TerrainProofs {
  import opened Vectors
  import opened MeshTypes
  import opened Terrain

  /** Neighbouring chunks along x share one boundary layer: the last x-layer
      of chunk `(x, y, z)` equals, sample by sample, the first x-layer of
      chunk `(x + 1, y, z)`. */
  lemma SeamSharedX(m: TerrainManager, x: int, y: int, z: int, j: int, k: int)
    requires m.Regenerated()
    requires 0 <= x < m.worldChunkSize.x - 1 && 0 <= y < m.worldChunkSize.y && 0 <= z < m.worldChunkSize.z
    requires 0 <= j < m.chunkSize.y && 0 <= k < m.chunkSize.z
    ensures m.chunks[x, y, z] != null && m.chunks[x + 1, y, z] != null && m.chunkSize.x >= 1
    ensures m.chunks[x, y, z].mapData.densityTensor[m.chunkSize.x - 1, j, k]
            == m.chunks[x + 1, y, z].mapData.densityTensor[0, j, k]
  {
    SeamAligned(x, m.chunkSize.x);
    assert ChunkIsWindow(m.chunks[x, y, z], m.densityTensor, m.chunkSize, Vec3Int(x, y, z));
    assert ChunkIsWindow(m.chunks[x + 1, y, z], m.densityTensor, m.chunkSize, Vec3Int(x + 1, y, z));
  }

  /** The same along y. */
  lemma SeamSharedY(m: TerrainManager, x: int, y: int, z: int, i: int, k: int)
    requires m.Regenerated()
    requires 0 <= x < m.worldChunkSize.x && 0 <= y < m.worldChunkSize.y - 1 && 0 <= z < m.worldChunkSize.z
    requires 0 <= i < m.chunkSize.x && 0 <= k < m.chunkSize.z
    ensures m.chunks[x, y, z] != null && m.chunks[x, y + 1, z] != null && m.chunkSize.y >= 1
    ensures m.chunks[x, y, z].mapData.densityTensor[i, m.chunkSize.y - 1, k]
            == m.chunks[x, y + 1, z].mapData.densityTensor[i, 0, k]
  {
    SeamAligned(y, m.chunkSize.y);
    assert ChunkIsWindow(m.chunks[x, y, z], m.densityTensor, m.chunkSize, Vec3Int(x, y, z));
    assert ChunkIsWindow(m.chunks[x, y + 1, z], m.densityTensor, m.chunkSize, Vec3Int(x, y + 1, z));
  }

  /** The same along z. */
  lemma SeamSharedZ(m: TerrainManager, x: int, y: int, z: int, i: int, j: int)
    requires m.Regenerated()
    requires 0 <= x < m.worldChunkSize.x && 0 <= y < m.worldChunkSize.y && 0 <= z < m.worldChunkSize.z - 1
    requires 0 <= i < m.chunkSize.x && 0 <= j < m.chunkSize.y
    ensures m.chunks[x, y, z] != null && m.chunks[x, y, z + 1] != null && m.chunkSize.z >= 1
    ensures m.chunks[x, y, z].mapData.densityTensor[i, j, m.chunkSize.z - 1]
            == m.chunks[x, y, z + 1].mapData.densityTensor[i, j, 0]
  {
    SeamAligned(z, m.chunkSize.z);
    assert ChunkIsWindow(m.chunks[x, y, z], m.densityTensor, m.chunkSize, Vec3Int(x, y, z));
    assert ChunkIsWindow(m.chunks[x, y, z + 1], m.densityTensor, m.chunkSize, Vec3Int(x, y, z + 1));
  }

  /** With at least one chunk per axis, every world sample lies in some
      chunk's window, and that chunk holds the sample's value. */
  lemma SampleInSomeChunk(m: TerrainManager, a: int, b: int, c: int) returns (coord: Vec3Int, local: Vec3Int)
    requires m.Regenerated()
    requires m.worldChunkSize.x >= 1 && m.worldChunkSize.y >= 1 && m.worldChunkSize.z >= 1
    requires 0 <= a < m.worldGridSize.x && 0 <= b < m.worldGridSize.y && 0 <= c < m.worldGridSize.z
    ensures 0 <= coord.x < m.worldChunkSize.x && 0 <= coord.y < m.worldChunkSize.y
    ensures 0 <= coord.z < m.worldChunkSize.z
    ensures 0 <= local.x < m.chunkSize.x && 0 <= local.y < m.chunkSize.y && 0 <= local.z < m.chunkSize.z
    ensures Add(Scale(coord, Sub(m.chunkSize, One)), local) == Vec3Int(a, b, c)
    ensures m.chunks[coord.x, coord.y, coord.z] != null
    ensures m.chunks[coord.x, coord.y, coord.z].mapData.densityTensor[local.x, local.y, local.z]
            == m.densityTensor[a, b, c]
  {
    var n, s := m.worldChunkSize, m.chunkSize;
    var x, i := Cover(n.x, s.x, a);
    var y, j := Cover(n.y, s.y, b);
    var z, k := Cover(n.z, s.z, c);
    coord, local := Vec3Int(x, y, z), Vec3Int(i, j, k);
    assert ChunkIsWindow(m.chunks[x, y, z], m.densityTensor, s, coord);
  }

  /** With no chunk on some axis, the world grid still has one sample on that
      axis but the chunk array is empty, so no chunk covers it. */
  lemma EmptyAxisUncovered(m: TerrainManager)
    requires m.Regenerated()
    requires m.worldChunkSize.x == 0 || m.worldChunkSize.y == 0 || m.worldChunkSize.z == 0
    ensures m.chunks != null
    ensures m.chunks.Length0 == 0 || m.chunks.Length1 == 0 || m.chunks.Length2 == 0
    ensures m.worldChunkSize.x == 0 ==> m.worldGridSize.x == 1
    ensures m.worldChunkSize.y == 0 ==> m.worldGridSize.y == 1
    ensures m.worldChunkSize.z == 0 ==> m.worldGridSize.z == 1
  {
  }
}
