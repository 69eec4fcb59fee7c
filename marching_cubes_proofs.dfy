/** Properties of the triangulator's output, stated over the specification
    functions that CreateMesh is proved to compute. */
module MarchingCubesProofs {
  import opened Vectors
  import opened Bits
  import opened LookupTables
  import opened MeshTypes
  import opened MarchingCubes

  /** A property of vertex lists that holds of the empty list and is kept by
      concatenation. */
  ghost predicate ConcatClosed(Q: seq<Vec3> -> bool) {
    Q([]) && forall a, b | Q(a) && Q(b) :: Q(a + b)
  }

  // ---------------------------------------------------------------------
  // From cubes to the whole walk

  /** A concatenation-closed property that every cube of a column has, the
      column's vertex list has. */
  lemma {:induction false} ColumnHolds(tables: Tables, t: array3<int>, x: nat, y: nat, zEnd: nat,
                                       Q: seq<Vec3> -> bool)
    requires ValidTables(tables) && ConcatClosed(Q)
    requires zEnd == 0 || (x + 1 < t.Length0 && y + 1 < t.Length1 && zEnd < t.Length2)
    requires forall z: nat | z < zEnd :: Q(CubeVerticesAt(tables, t, x, y, z))
    ensures Q(ColumnVertices(tables, t, x, y, zEnd))
  {
    if zEnd > 0 {
      ColumnHolds(tables, t, x, y, zEnd - 1, Q);
      assert Q(CubeVerticesAt(tables, t, x, y, zEnd - 1));
    }
  }

  /** The same for a slice of columns. */
  lemma {:induction false} SliceHolds(tables: Tables, t: array3<int>, x: nat, yEnd: nat, nz: nat,
                                      Q: seq<Vec3> -> bool)
    requires ValidTables(tables) && ConcatClosed(Q)
    requires yEnd == 0 || nz == 0 || (x + 1 < t.Length0 && yEnd < t.Length1 && nz < t.Length2)
    requires forall y: nat, z: nat | y < yEnd && z < nz :: Q(CubeVerticesAt(tables, t, x, y, z))
    ensures Q(SliceVertices(tables, t, x, yEnd, nz))
  {
    if yEnd > 0 {
      SliceHolds(tables, t, x, yEnd - 1, nz, Q);
      ColumnHolds(tables, t, x, yEnd - 1, nz, Q);
    }
  }

  /** The same for the whole grid of cubes. */
  lemma {:induction false} GridHolds(tables: Tables, t: array3<int>, xEnd: nat, ny: nat, nz: nat,
                                     Q: seq<Vec3> -> bool)
    requires ValidTables(tables) && ConcatClosed(Q)
    requires xEnd == 0 || ny == 0 || nz == 0 || (xEnd < t.Length0 && ny < t.Length1 && nz < t.Length2)
    requires forall x: nat, y: nat, z: nat | x < xEnd && y < ny && z < nz ::
      Q(CubeVerticesAt(tables, t, x, y, z))
    ensures Q(GridVertices(tables, t, xEnd, ny, nz))
  {
    if xEnd > 0 {
      GridHolds(tables, t, xEnd - 1, ny, nz, Q);
      SliceHolds(tables, t, xEnd - 1, ny, nz, Q);
    }
  }

  /** The mesh has a concatenation-closed property when every cube's vertex
      list has it. */
  lemma MeshHolds(tables: Tables, mapData: MapData, Q: seq<Vec3> -> bool)
    requires ValidTables(tables) && SizeFits(mapData) && ConcatClosed(Q)
    requires var s := mapData.size;
      forall x: nat, y: nat, z: nat | x < CubeCount(s.x) && y < CubeCount(s.y) && z < CubeCount(s.z) ::
        Q(CubeVerticesAt(tables, mapData.densityTensor, x, y, z))
    ensures Q(MeshVertices(tables, mapData))
  {
    var s := mapData.size;
    GridHolds(tables, mapData.densityTensor, CubeCount(s.x), CubeCount(s.y), CubeCount(s.z), Q);
  }

  // ---------------------------------------------------------------------
  // Cubes that emit nothing; empty meshes

  /** A cube emits nothing when all its corners are on the same side, and
      otherwise exactly as many vertices as its triTable row has entries
      before the sentinel. */
  lemma CubeVertexCount(tables: Tables, cube: seq<int>, x: int, y: int, z: int)
    requires ValidTables(tables) && |cube| == 8
    ensures 0 <= ConfigIndex(cube) < 256
    ensures |CubeVertices(tables, cube, x, y, z)| ==
      if (forall k | 0 <= k < 8 :: cube[k] >= 0) || (forall k | 0 <= k < 8 :: cube[k] < 0) then 0
      else FirstSentinel(tables.triTable[ConfigIndex(cube)])
  {
    ConfigIndexSpec(cube);
  }

  /** A tensor with no negative sample, a tensor with only negative samples,
      and extents below 2 on some axis all give an empty mesh. */
  lemma MeshEmptyCases(tables: Tables, mapData: MapData)
    requires ValidTables(tables) && SizeFits(mapData)
    ensures var t := mapData.densityTensor;
      (forall a, b, c | 0 <= a < t.Length0 && 0 <= b < t.Length1 && 0 <= c < t.Length2 :: t[a, b, c] >= 0)
      ==> MeshVertices(tables, mapData) == []
    ensures var t := mapData.densityTensor;
      (forall a, b, c | 0 <= a < t.Length0 && 0 <= b < t.Length1 && 0 <= c < t.Length2 :: t[a, b, c] < 0)
      ==> MeshVertices(tables, mapData) == []
    ensures mapData.size.x < 2 || mapData.size.y < 2 || mapData.size.z < 2 ==> MeshVertices(tables, mapData) == []
  {
    var t := mapData.densityTensor;
    var s := mapData.size;
    var nx, ny, nz := CubeCount(s.x), CubeCount(s.y), CubeCount(s.z);
    var Empty: seq<Vec3> -> bool := vs => vs == [];
    if || (forall a, b, c | 0 <= a < t.Length0 && 0 <= b < t.Length1 && 0 <= c < t.Length2 :: t[a, b, c] >= 0)
       || (forall a, b, c | 0 <= a < t.Length0 && 0 <= b < t.Length1 && 0 <= c < t.Length2 :: t[a, b, c] < 0)
       || nx == 0 || ny == 0 || nz == 0
    {
      forall x: nat, y: nat, z: nat | x < nx && y < ny && z < nz
        ensures Empty(CubeVerticesAt(tables, t, x, y, z))
      {
        CubeVertexCount(tables, GetCube(x, y, z, t), x, y, z);
      }
      MeshHolds(tables, mapData, Empty);
    }
  }

  // ---------------------------------------------------------------------
  // Whole triangles

  /** With whole-triangle rows, a cube emits a multiple of 3 vertices. */
  lemma CubeTriangles(tables: Tables, cube: seq<int>, x: int, y: int, z: int)
    requires ValidTables(tables) && RowsAreTriangles(tables) && |cube| == 8
    ensures |CubeVertices(tables, cube, x, y, z)| % 3 == 0
  {
    ConfigIndexSpec(cube);
  }

  /** When every triTable row lists whole triangles, the vertex buffer (and
      so the index buffer) holds a whole number of triangles. */
  lemma MeshIsTriangles(tables: Tables, mapData: MapData)
    requires ValidTables(tables) && RowsAreTriangles(tables) && SizeFits(mapData)
    ensures |MeshVertices(tables, mapData)| % 3 == 0
  {
    var t := mapData.densityTensor;
    var s := mapData.size;
    var Whole: seq<Vec3> -> bool := vs => |vs| % 3 == 0;
    forall x: nat, y: nat, z: nat | x < CubeCount(s.x) && y < CubeCount(s.y) && z < CubeCount(s.z)
      ensures Whole(CubeVerticesAt(tables, t, x, y, z))
    {
      CubeTriangles(tables, GetCube(x, y, z, t), x, y, z);
    }
    MeshHolds(tables, mapData, Whole);
  }

  // ---------------------------------------------------------------------
  // Where the vertices lie

  /** Moving the 0.5 coordinate of a unit edge's midpoint to t gives the
      point the fraction t of the way along the edge. */
  lemma AtLevelOnEdge(a: Vec3Int, b: Vec3Int, t: real)
    requires UnitStep(a, b)
    requires 0 <= a.x <= 1 && 0 <= a.y <= 1 && 0 <= a.z <= 1
    ensures AtLevel(Midpoint(ToVec3(a), ToVec3(b)), t) == Lerp(ToVec3(a), ToVec3(b), t)
  {
    var p := Midpoint(ToVec3(a), ToVec3(b));
    if b == Vec3Int(a.x + 1, a.y, a.z) && a.x == 0 {
      assert p == Vec3(0.5, a.y as real, a.z as real);
    } else if b == Vec3Int(a.x, a.y + 1, a.z) && a.y == 0 {
      assert p == Vec3(a.x as real, 0.5, a.z as real);
    } else {
      assert p == Vec3(a.x as real, a.y as real, 0.5);
    }
  }

  /** With tables that match the cube's geometry, a flagged edge's adjusted
      position is the point the fraction t = -v0/(v1-v0) of the way from its
      first corner to its second. */
  lemma AdjustedPositionOnEdge(tables: Tables, edges: int, cube: seq<int>, i: nat)
    requires ValidTables(tables) && EdgeGeometry(tables) && |cube| == 8 && i < 12
    requires CrossingsDefined(tables, edges, cube) && Bit(edges, i)
    ensures AdjustedEdgePosition(tables, edges, cube, i) ==
      Lerp(ToVec3(CornerOffset(Corner0(tables, i))), ToVec3(CornerOffset(Corner1(tables, i))),
           EdgeFraction(cube[Corner0(tables, i)], cube[Corner1(tables, i)]))
  {
    var a, b := CornerOffset(Corner0(tables, i)), CornerOffset(Corner1(tables, i));
    AtLevelOnEdge(a, b, EdgeFraction(cube[Corner0(tables, i)], cube[Corner1(tables, i)]));
  }

  /** What the code does on an edge listed in either direction. Replacing
      the midpoint's 0.5 coordinate by t = -v0/(v1-v0) always measures t from
      the edge's lower corner. On an edge listed lower corner first that is
      the zero crossing. On an edge listed upper corner first the vertex
      lands at the fraction 1 - t from the first corner, where the
      interpolated density is v0 + v1 rather than zero (ComplementDensity). */
  lemma AdjustedPositionAsWritten(tables: Tables, edges: int, cube: seq<int>, i: nat)
    requires ValidTables(tables) && EdgesAdjacent(tables) && |cube| == 8 && i < 12
    requires CrossingsDefined(tables, edges, cube) && Bit(edges, i)
    ensures var a, b := CornerOffset(Corner0(tables, i)), CornerOffset(Corner1(tables, i));
      var t := EdgeFraction(cube[Corner0(tables, i)], cube[Corner1(tables, i)]);
      && (UnitStep(a, b) ==>
            AdjustedEdgePosition(tables, edges, cube, i) == Lerp(ToVec3(a), ToVec3(b), t))
      && (UnitStep(b, a) ==>
            AdjustedEdgePosition(tables, edges, cube, i) == Lerp(ToVec3(a), ToVec3(b), 1.0 - t))
  {
    var a, b := CornerOffset(Corner0(tables, i)), CornerOffset(Corner1(tables, i));
    if UnitStep(a, b) {
      AsWrittenUpward(tables, edges, cube, i);
    }
    if UnitStep(b, a) {
      AsWrittenDownward(tables, edges, cube, i);
    }
  }

  /** AdjustedPositionAsWritten on an edge listed lower corner first. */
  lemma AsWrittenUpward(tables: Tables, edges: int, cube: seq<int>, i: nat)
    requires ValidTables(tables) && EdgesAdjacent(tables) && |cube| == 8 && i < 12
    requires CrossingsDefined(tables, edges, cube) && Bit(edges, i)
    requires UnitStep(CornerOffset(Corner0(tables, i)), CornerOffset(Corner1(tables, i)))
    ensures AdjustedEdgePosition(tables, edges, cube, i) ==
      Lerp(ToVec3(CornerOffset(Corner0(tables, i))), ToVec3(CornerOffset(Corner1(tables, i))),
           EdgeFraction(cube[Corner0(tables, i)], cube[Corner1(tables, i)]))
  {
    var a, b := CornerOffset(Corner0(tables, i)), CornerOffset(Corner1(tables, i));
    assert tables.edgeIndexToPositionTable[i] == Midpoint(ToVec3(a), ToVec3(b));
    AtLevelOnEdge(a, b, EdgeFraction(cube[Corner0(tables, i)], cube[Corner1(tables, i)]));
  }

  /** AdjustedPositionAsWritten on an edge listed upper corner first. */
  lemma AsWrittenDownward(tables: Tables, edges: int, cube: seq<int>, i: nat)
    requires ValidTables(tables) && EdgesAdjacent(tables) && |cube| == 8 && i < 12
    requires CrossingsDefined(tables, edges, cube) && Bit(edges, i)
    requires UnitStep(CornerOffset(Corner1(tables, i)), CornerOffset(Corner0(tables, i)))
    ensures AdjustedEdgePosition(tables, edges, cube, i) ==
      Lerp(ToVec3(CornerOffset(Corner0(tables, i))), ToVec3(CornerOffset(Corner1(tables, i))),
           1.0 - EdgeFraction(cube[Corner0(tables, i)], cube[Corner1(tables, i)]))
  {
    var a, b := CornerOffset(Corner0(tables, i)), CornerOffset(Corner1(tables, i));
    assert tables.edgeIndexToPositionTable[i] == Midpoint(ToVec3(a), ToVec3(b));
    AtLevelReversed(a, b, EdgeFraction(cube[Corner0(tables, i)], cube[Corner1(tables, i)]));
  }

  /** On an edge listed upper corner first, moving the midpoint's 0.5
      coordinate to t gives the point the fraction 1 - t of the way along. */
  lemma AtLevelReversed(a: Vec3Int, b: Vec3Int, t: real)
    requires UnitStep(b, a)
    requires 0 <= b.x <= 1 && 0 <= b.y <= 1 && 0 <= b.z <= 1
    ensures AtLevel(Midpoint(ToVec3(a), ToVec3(b)), t) == Lerp(ToVec3(a), ToVec3(b), 1.0 - t)
  {
    AtLevelOnEdge(b, a, t);
    LerpReversed(ToVec3(a), ToVec3(b), 0.5);
    LerpReversed(ToVec3(a), ToVec3(b), t);
  }

  /** Walking from b to a by t is walking from a to b by 1 - t. */
  lemma LerpReversed(a: Vec3, b: Vec3, t: real)
    ensures Lerp(b, a, t) == Lerp(a, b, 1.0 - t)
  {
    assert (1.0 - t) * (b.x - a.x) == (b.x - a.x) - t * (b.x - a.x);
    assert (1.0 - t) * (b.y - a.y) == (b.y - a.y) - t * (b.y - a.y);
    assert (1.0 - t) * (b.z - a.z) == (b.z - a.z) - t * (b.z - a.z);
  }

  /** Where the interpolated density along v0..v1 is zero at t, as it is at
      t = EdgeFraction(v0, v1), it is v0 + v1 at 1 - t. */
  lemma ComplementDensity(v0: int, v1: int, t: real)
    requires v0 as real + t * (v1 - v0) as real == 0.0
    ensures v0 as real + (1.0 - t) * (v1 - v0) as real == (v0 + v1) as real
  {
    assert (1.0 - t) * (v1 - v0) as real == (v1 - v0) as real - t * (v1 - v0) as real;
  }

  /** Each vertex a cube emits lies on the cube edge its triTable entry
      names, between corners on opposite sides, at the point where the
      linear interpolation of the two corner samples is zero. */
  lemma CubeVertexOnEdge(tables: Tables, cube: seq<int>, x: int, y: int, z: int, j: nat)
    requires ValidTables(tables) && EdgeGeometry(tables) && |cube| == 8
    requires j < |CubeVertices(tables, cube, x, y, z)|
    ensures 0 < ConfigIndex(cube) < 255
    ensures var e := TriRow(tables, ConfigIndex(cube))[j];
      var v0, v1 := cube[Corner0(tables, e)], cube[Corner1(tables, e)];
      && (v0 < 0) != (v1 < 0)
      && 0.0 <= EdgeFraction(v0, v1) <= 1.0
      && CubeVertices(tables, cube, x, y, z)[j] ==
           Translate(Lerp(ToVec3(CornerOffset(Corner0(tables, e))), ToVec3(CornerOffset(Corner1(tables, e))),
                          EdgeFraction(v0, v1)), x, y, z)
  {
    var c := ConfigIndex(cube);
    ConfigIndexSpec(cube);
    FlaggedEdgesCross(tables, cube);
    var e := TriRow(tables, c)[j];
    AdjustedPositionOnEdge(tables, tables.edgeTable[c], cube, e);
  }

  /** A vertex lies in the box [0, nx] x [0, ny] x [0, nz]. */
  ghost predicate InBox(v: Vec3, nx: nat, ny: nat, nz: nat) {
    0.0 <= v.x <= nx as real && 0.0 <= v.y <= ny as real && 0.0 <= v.z <= nz as real
  }

  /** With default edge positions inside the unit cube, every vertex of the
      cube at (x, y, z) lies inside that cube. */
  lemma CubeVerticesInCube(tables: Tables, cube: seq<int>, x: int, y: int, z: int, j: nat)
    requires ValidTables(tables) && UnitCubePositions(tables) && |cube| == 8
    requires j < |CubeVertices(tables, cube, x, y, z)|
    ensures var v := CubeVertices(tables, cube, x, y, z)[j];
      && x as real <= v.x <= x as real + 1.0
      && y as real <= v.y <= y as real + 1.0
      && z as real <= v.z <= z as real + 1.0
  {
    var c := ConfigIndex(cube);
    ConfigIndexSpec(cube);
    FlaggedEdgesCross(tables, cube);
    var e := TriRow(tables, c)[j];
    assert 0 <= e < 12;
  }

  /** With default edge positions inside the unit cube, every vertex of the
      mesh lies inside the box spanned by the cubes walked. */
  lemma MeshVerticesInGrid(tables: Tables, mapData: MapData)
    requires ValidTables(tables) && UnitCubePositions(tables) && SizeFits(mapData)
    ensures var s := mapData.size;
      forall v | v in MeshVertices(tables, mapData) :: InBox(v, CubeCount(s.x), CubeCount(s.y), CubeCount(s.z))
  {
    var t := mapData.densityTensor;
    var s := mapData.size;
    var nx, ny, nz := CubeCount(s.x), CubeCount(s.y), CubeCount(s.z);
    var Inside: seq<Vec3> -> bool := vs => forall j | 0 <= j < |vs| :: InBox(vs[j], nx, ny, nz);
    forall x: nat, y: nat, z: nat | x < nx && y < ny && z < nz
      ensures Inside(CubeVerticesAt(tables, t, x, y, z))
    {
      var cube := GetCube(x, y, z, t);
      forall j | 0 <= j < |CubeVertices(tables, cube, x, y, z)|
        ensures InBox(CubeVertices(tables, cube, x, y, z)[j], nx, ny, nz)
      {
        CubeVerticesInCube(tables, cube, x, y, z, j);
      }
    }
    MeshHolds(tables, mapData, Inside);
  }
}
