/** The value types exchanged between the terrain manager, the mesh
    generator and the triangulator (the MapData and MeshData structs). */
module MeshTypes {
  import opened Vectors

  /** A density tensor together with the extents the triangulator walks. */
  datatype MapData = MapData(densityTensor: array3<int>, size: Vec3Int)

  /** Triangulator output: a vertex buffer and an index buffer. */
  datatype MeshData = MeshData(vertices: array<Vec3>, triangles: array<int>)
}
