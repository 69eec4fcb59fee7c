/** The Marching Cubes triangulator: density tensor in, vertex buffer and
    index buffer out. Positions are exact rationals; the lookup tables are a
    parameter (see LookupTables). */
module MarchingCubes {
  import opened Vectors
  import opened Bits
  import opened LookupTables
  import opened MeshTypes

  // ---------------------------------------------------------------------
  // Reading one cube

  /** The eight corner samples of the cube whose lowest corner is (x, y, z),
      in the fixed corner order that CornerOffset names. */
  function GetCube(x: int, y: int, z: int, densityTensor: array3<int>): (cube: seq<int>)
    reads densityTensor
    requires 0 <= x && x + 1 < densityTensor.Length0
    requires 0 <= y && y + 1 < densityTensor.Length1
    requires 0 <= z && z + 1 < densityTensor.Length2
    ensures |cube| == 8
    ensures forall k | 0 <= k < 8 ::
      cube[k] == densityTensor[x + CornerOffset(k).x, y + CornerOffset(k).y, z + CornerOffset(k).z]
  {
    [ densityTensor[x, y, z],
      densityTensor[x + 1, y, z],
      densityTensor[x + 1, y, z + 1],
      densityTensor[x, y, z + 1],
      densityTensor[x, y + 1, z],
      densityTensor[x + 1, y + 1, z],
      densityTensor[x + 1, y + 1, z + 1],
      densityTensor[x, y + 1, z + 1] ]
  }

  // ---------------------------------------------------------------------
  // Cube configuration index

  /** The configuration index accumulated over the first n corners: 2^i for
      every corner i < n whose sample is negative. */
  function PartialIndex(cube: seq<int>, n: nat): (r: int)
    requires n <= |cube|
    ensures 0 <= r < Pow2(n)
  {
    if n == 0 then 0
    else PartialIndex(cube, n - 1) + (if cube[n - 1] < 0 then Pow2(n - 1) else 0)
  }

  /** The 8-bit configuration index of a cube. */
  function ConfigIndex(cube: seq<int>): (r: int)
    requires |cube| == 8
    ensures 0 <= r < 256
  {
    PartialIndex(cube, 8)
  }

  /** The partial index is an n-bit number whose bit i says whether corner i
      is inside; it is 0 exactly when no corner is inside and all ones
      exactly when every corner is. */
  lemma {:induction false} PartialIndexBits(cube: seq<int>, n: nat)
    requires n <= |cube|
    ensures 0 <= PartialIndex(cube, n) < Pow2(n)
    ensures forall i: nat | i < n :: Bit(PartialIndex(cube, n), i) <==> cube[i] < 0
    ensures PartialIndex(cube, n) == 0 <==> forall i | 0 <= i < n :: cube[i] >= 0
    ensures PartialIndex(cube, n) == Pow2(n) - 1 <==> forall i | 0 <= i < n :: cube[i] < 0
  {
    if n > 0 {
      var a := PartialIndex(cube, n - 1);
      PartialIndexBits(cube, n - 1);
      forall i: nat | i < n
        ensures Bit(PartialIndex(cube, n), i) <==> cube[i] < 0
      {
        if cube[n - 1] < 0 {
          BitOfAddPow2(a, n - 1, i);
        } else if i == n - 1 {
          BitAboveWidth(a, n - 1, i);
        }
      }
    }
  }

  /** Bit i of the configuration index is set exactly when corner i is
      negative; the index is a byte, 0 only when every corner is non-negative
      and 255 only when every corner is negative. */
  lemma ConfigIndexSpec(cube: seq<int>)
    requires |cube| == 8
    ensures 0 <= ConfigIndex(cube) < 256
    ensures forall i: nat | i < 8 :: Bit(ConfigIndex(cube), i) <==> cube[i] < 0
    ensures ConfigIndex(cube) == 0 <==> forall i | 0 <= i < 8 :: cube[i] >= 0
    ensures ConfigIndex(cube) == 255 <==> forall i | 0 <= i < 8 :: cube[i] < 0
  {
    PartialIndexBits(cube, 8);
    assert Pow2(8) == 256;
  }

  /** The loop that builds the configuration index, adding `1 << i` for each
      negative corner i. */
  method ComputeCubeIndex(cubeValues: seq<int>) returns (cubeIndex: int)
    requires |cubeValues| == 8
    ensures cubeIndex == ConfigIndex(cubeValues)
    ensures 0 <= cubeIndex < 256
    ensures forall i: nat | i < 8 :: Bit(cubeIndex, i) <==> cubeValues[i] < 0
  {
    cubeIndex := 0;
    for i := 0 to 8
      invariant cubeIndex == PartialIndex(cubeValues, i)
    {
      if cubeValues[i] < 0 {
        cubeIndex := cubeIndex + Pow2(i);
      }
    }
    ConfigIndexSpec(cubeValues);
  }

  // ---------------------------------------------------------------------
  // Edge interpolation

  /** The fraction -v0/(v1-v0) of the way along an edge from the corner with
      value v0 to the corner with value v1: where the linear interpolation of
      the two values is zero. */
  function EdgeFraction(v0: int, v1: int): (t: real)
    requires v0 != v1
    ensures v0 as real + t * (v1 - v0) as real == 0.0
    ensures (v0 < 0) != (v1 < 0) ==> 0.0 <= t <= 1.0
  {
    -(v0 as real) / ((v1 - v0) as real)
  }

  /** An edge position with every coordinate equal to 0.5 replaced by t. */
  function AtLevel(p: Vec3, t: real): Vec3 {
    Vec3(if p.x == 0.5 then t else p.x,
         if p.y == 0.5 then t else p.y,
         if p.z == 0.5 then t else p.z)
  }

  /** Every edge flagged in `edges` has corners with different sample values,
      so its interpolation is defined. */
  predicate CrossingsDefined(tables: Tables, edges: int, cube: seq<int>)
    requires ValidTables(tables) && |cube| == 8
  {
    forall i: nat | i < 12 && Bit(edges, i) :: cube[Corner0(tables, i)] != cube[Corner1(tables, i)]
  }

  /** Position of edge i after interpolation: the table's default when the
      edge is not flagged, otherwise the default with its 0.5 coordinates
      moved to the zero crossing. */
  function AdjustedEdgePosition(tables: Tables, edges: int, cube: seq<int>, i: nat): Vec3
    requires ValidTables(tables) && |cube| == 8 && i < 12
    requires CrossingsDefined(tables, edges, cube)
  {
    var p := tables.edgeIndexToPositionTable[i];
    if Bit(edges, i) then AtLevel(p, EdgeFraction(cube[Corner0(tables, i)], cube[Corner1(tables, i)]))
    else p
  }

  /** Copies the default edge positions and moves each flagged edge's
      position to its zero crossing. */
  method CalculateSurfaceLevels(tables: Tables, edges: int, cubeValues: seq<int>)
    returns (surfaceLevels: array<Vec3>)
    requires ValidTables(tables) && |cubeValues| == 8
    requires CrossingsDefined(tables, edges, cubeValues)
    ensures fresh(surfaceLevels) && surfaceLevels.Length == 12
    ensures forall i: nat | i < 12 :: !Bit(edges, i) ==> surfaceLevels[i] == tables.edgeIndexToPositionTable[i]
    ensures forall i: nat | i < 12 :: surfaceLevels[i] == AdjustedEdgePosition(tables, edges, cubeValues, i)
  {
    surfaceLevels := new Vec3[12](i requires 0 <= i < 12 => tables.edgeIndexToPositionTable[i]);
    for i := 0 to 12
      invariant forall k: nat | i <= k < 12 :: surfaceLevels[k] == tables.edgeIndexToPositionTable[k]
      invariant forall k: nat | k < i :: surfaceLevels[k] == AdjustedEdgePosition(tables, edges, cubeValues, k)
    {
      if Bit(edges, i) {
        var value1 := cubeValues[Corner0(tables, i)] as real;
        var value2 := cubeValues[Corner1(tables, i)] as real - value1;
        var surfaceLevel := -value1;
        surfaceLevel := surfaceLevel / value2;
        if surfaceLevels[i].x == 0.5 {
          surfaceLevels[i] := surfaceLevels[i].(x := surfaceLevel);
        }
        if surfaceLevels[i].y == 0.5 {
          surfaceLevels[i] := surfaceLevels[i].(y := surfaceLevel);
        }
        if surfaceLevels[i].z == 0.5 {
          surfaceLevels[i] := surfaceLevels[i].(z := surfaceLevel);
        }
      }
    }
  }

  /** For a cube that is neither all outside nor all inside, every edge its
      edge mask flags has one corner inside and one outside. */
  lemma FlaggedEdgesCross(tables: Tables, cube: seq<int>)
    requires ValidTables(tables) && |cube| == 8
    requires 0 < ConfigIndex(cube) < 255
    ensures forall i: nat | i < 12 && Bit(tables.edgeTable[ConfigIndex(cube)], i) ::
      (cube[Corner0(tables, i)] < 0) != (cube[Corner1(tables, i)] < 0)
    ensures CrossingsDefined(tables, tables.edgeTable[ConfigIndex(cube)], cube)
  {
    ConfigIndexSpec(cube);
  }

  // ---------------------------------------------------------------------
  // Vertices of one cube and of the whole tensor

  /** The vertices for a list of edge indices: vertex j is edge row[j]'s
      adjusted position offset by the cube's grid coordinate (x, y, z). */
  function RowVertices(tables: Tables, edges: int, cube: seq<int>, row: seq<int>,
                       x: int, y: int, z: int): (vs: seq<Vec3>)
    requires ValidTables(tables) && |cube| == 8
    requires CrossingsDefined(tables, edges, cube)
    requires forall j | 0 <= j < |row| :: 0 <= row[j] < 12
    ensures |vs| == |row|
    ensures forall j | 0 <= j < |row| ::
      vs[j] == Translate(AdjustedEdgePosition(tables, edges, cube, row[j]), x, y, z)
  {
    if row == [] then []
    else
      RowVertices(tables, edges, cube, row[..|row| - 1], x, y, z) +
      [Translate(AdjustedEdgePosition(tables, edges, cube, row[|row| - 1]), x, y, z)]
  }

  /** The vertices one cube emits: none when its configuration is 0 or 255,
      otherwise one per entry of its triTable row. */
  function CubeVertices(tables: Tables, cube: seq<int>, x: int, y: int, z: int): seq<Vec3>
    requires ValidTables(tables) && |cube| == 8
  {
    var c := ConfigIndex(cube);
    ConfigIndexSpec(cube);
    if c == 0 || c == 255 then []
    else
      FlaggedEdgesCross(tables, cube);
      RowVertices(tables, tables.edgeTable[c], cube, TriRow(tables, c), x, y, z)
  }

  /** For a cube that is not skipped, vertex j of the cube is entry j of its
      triTable row, moved to its crossing and offset by (x, y, z), and there
      is one vertex per entry before the sentinel. */
  lemma CubeVerticesRow(tables: Tables, cube: seq<int>, x: int, y: int, z: int)
    requires ValidTables(tables) && |cube| == 8 && 0 < ConfigIndex(cube) < 255
    ensures CrossingsDefined(tables, tables.edgeTable[ConfigIndex(cube)], cube)
    ensures var c := ConfigIndex(cube);
      var row, vs := tables.triTable[c], CubeVertices(tables, cube, x, y, z);
      && |vs| == FirstSentinel(row)
      && forall j | 0 <= j < |vs| ::
           0 <= row[j] < 12 &&
           vs[j] == Translate(AdjustedEdgePosition(tables, tables.edgeTable[c], cube, row[j]), x, y, z)
  {
    ConfigIndexSpec(cube);
    FlaggedEdgesCross(tables, cube);
  }

  /** The vertices of the cube at (x, y, z) of a tensor. */
  function CubeVerticesAt(tables: Tables, t: array3<int>, x: nat, y: nat, z: nat): seq<Vec3>
    reads t
    requires ValidTables(tables)
    requires x + 1 < t.Length0 && y + 1 < t.Length1 && z + 1 < t.Length2
  {
    CubeVertices(tables, GetCube(x, y, z, t), x, y, z)
  }

  /** Cubes (x, y, 0) .. (x, y, zEnd-1), in that order. */
  function ColumnVertices(tables: Tables, t: array3<int>, x: nat, y: nat, zEnd: nat): seq<Vec3>
    reads t
    requires ValidTables(tables)
    requires zEnd == 0 || (x + 1 < t.Length0 && y + 1 < t.Length1 && zEnd < t.Length2)
  {
    if zEnd == 0 then []
    else ColumnVertices(tables, t, x, y, zEnd - 1) + CubeVerticesAt(tables, t, x, y, zEnd - 1)
  }

  /** Columns (x, 0) .. (x, yEnd-1) of nz cubes each, in that order. */
  function SliceVertices(tables: Tables, t: array3<int>, x: nat, yEnd: nat, nz: nat): seq<Vec3>
    reads t
    requires ValidTables(tables)
    requires yEnd == 0 || nz == 0 || (x + 1 < t.Length0 && yEnd < t.Length1 && nz < t.Length2)
  {
    if yEnd == 0 then []
    else SliceVertices(tables, t, x, yEnd - 1, nz) + ColumnVertices(tables, t, x, yEnd - 1, nz)
  }

  /** Slices 0 .. xEnd-1 of ny by nz cubes each, in that order. */
  function GridVertices(tables: Tables, t: array3<int>, xEnd: nat, ny: nat, nz: nat): seq<Vec3>
    reads t
    requires ValidTables(tables)
    requires xEnd == 0 || ny == 0 || nz == 0 || (xEnd < t.Length0 && ny < t.Length1 && nz < t.Length2)
  {
    if xEnd == 0 then []
    else GridVertices(tables, t, xEnd - 1, ny, nz) + SliceVertices(tables, t, xEnd - 1, ny, nz)
  }

  /** Number of unit cubes along an axis with `s` samples. */
  function CubeCount(s: int): nat {
    if s > 1 then s - 1 else 0
  }

  /** The extents the triangulator walks fit in the tensor whenever it reads
      any cube at all. */
  predicate SizeFits(mapData: MapData) {
    var s := mapData.size;
    var t := mapData.densityTensor;
    CubeCount(s.x) == 0 || CubeCount(s.y) == 0 || CubeCount(s.z) == 0 ||
    (s.x <= t.Length0 && s.y <= t.Length1 && s.z <= t.Length2)
  }

  /** The whole vertex buffer: every cube, x outermost, then y, then z. */
  function MeshVertices(tables: Tables, mapData: MapData): seq<Vec3>
    reads mapData.densityTensor
    requires ValidTables(tables) && SizeFits(mapData)
  {
    var s := mapData.size;
    GridVertices(tables, mapData.densityTensor, CubeCount(s.x), CubeCount(s.y), CubeCount(s.z))
  }

  // ---------------------------------------------------------------------
  // The triangulator

  /** One step of the triangulator's cube walk: classifies the cube at
      (x, y, z) and, unless it is all outside or all inside, appends one
      vertex per triTable entry to the vertex list and counts it. */
  method AppendCube(tables: Tables, t: array3<int>, x: nat, y: nat, z: nat,
                    vertices: seq<Vec3>, numberOfVertices: nat)
    returns (vertices': seq<Vec3>, numberOfVertices': nat)
    requires ValidTables(tables)
    requires x + 1 < t.Length0 && y + 1 < t.Length1 && z + 1 < t.Length2
    requires numberOfVertices == |vertices|
    ensures vertices' == vertices + CubeVerticesAt(tables, t, x, y, z)
    ensures numberOfVertices' == |vertices'|
  {
    vertices', numberOfVertices' := vertices, numberOfVertices;
    var cubeValues := GetCube(x, y, z, t);
    var cubeIndex := ComputeCubeIndex(cubeValues);

    if !(cubeIndex == 0 || cubeIndex == 255) {
      CubeVerticesRow(tables, cubeValues, x, y, z);
      var adjustedEdgePositions :=
        CalculateSurfaceLevels(tables, tables.edgeTable[cubeIndex], cubeValues);
      ghost var emitted := CubeVertices(tables, cubeValues, x, y, z);
      var row := tables.triTable[cubeIndex];
      var i := 0;
      while row[i] != -1
        invariant 0 <= i <= FirstSentinel(row)
        invariant vertices' == vertices + emitted[..i]
        invariant numberOfVertices' == |vertices'|
        decreases FirstSentinel(row) - i
      {
        var localPosition := adjustedEdgePositions[row[i]];
        localPosition := localPosition.(x := localPosition.x + x as real);
        localPosition := localPosition.(y := localPosition.y + y as real);
        localPosition := localPosition.(z := localPosition.z + z as real);
        assert localPosition == emitted[i];
        assert emitted[..i + 1] == emitted[..i] + [emitted[i]];
        vertices' := vertices' + [localPosition];
        numberOfVertices' := numberOfVertices' + 1;
        i := i + 1;
      }
      assert emitted[..i] == emitted;
    }
  }

  /** The innermost loop of the cube walk: cubes (x, y, 0) .. (x, y, nz-1). */
  method MarchColumn(tables: Tables, t: array3<int>, x: nat, y: nat, nz: nat,
                     vertices: seq<Vec3>, numberOfVertices: nat)
    returns (vertices': seq<Vec3>, numberOfVertices': nat)
    requires ValidTables(tables)
    requires nz == 0 || (x + 1 < t.Length0 && y + 1 < t.Length1 && nz < t.Length2)
    requires numberOfVertices == |vertices|
    ensures vertices' == vertices + ColumnVertices(tables, t, x, y, nz)
    ensures numberOfVertices' == |vertices'|
  {
    vertices', numberOfVertices' := vertices, numberOfVertices;
    var z := 0;
    while z < nz
      invariant 0 <= z <= nz
      invariant vertices' == vertices + ColumnVertices(tables, t, x, y, z)
      invariant numberOfVertices' == |vertices'|
    {
      ghost var column, cube := ColumnVertices(tables, t, x, y, z), CubeVerticesAt(tables, t, x, y, z);
      assert ColumnVertices(tables, t, x, y, z + 1) == column + cube;
      vertices', numberOfVertices' := AppendCube(tables, t, x, y, z, vertices', numberOfVertices');
      assert vertices' == vertices + (column + cube);
      z := z + 1;
    }
  }

  /** The middle loop of the cube walk: columns (x, 0) .. (x, ny-1). */
  method MarchSlice(tables: Tables, t: array3<int>, x: nat, ny: nat, nz: nat,
                    vertices: seq<Vec3>, numberOfVertices: nat)
    returns (vertices': seq<Vec3>, numberOfVertices': nat)
    requires ValidTables(tables)
    requires ny == 0 || nz == 0 || (x + 1 < t.Length0 && ny < t.Length1 && nz < t.Length2)
    requires numberOfVertices == |vertices|
    ensures vertices' == vertices + SliceVertices(tables, t, x, ny, nz)
    ensures numberOfVertices' == |vertices'|
  {
    vertices', numberOfVertices' := vertices, numberOfVertices;
    var y := 0;
    while y < ny
      invariant 0 <= y <= ny
      invariant vertices' == vertices + SliceVertices(tables, t, x, y, nz)
      invariant numberOfVertices' == |vertices'|
    {
      vertices', numberOfVertices' := MarchColumn(tables, t, x, y, nz, vertices', numberOfVertices');
      y := y + 1;
    }
  }

  /** The end of the triangulator: drains the vertex list front first into a
      fresh vertex array and numbers the vertices 0, 1, 2, ... in a fresh
      index array. */
  method DrainVertices(vertices: seq<Vec3>, numberOfVertices: nat)
    returns (verticesArray: array<Vec3>, triangles: array<int>)
    requires numberOfVertices == |vertices|
    ensures fresh(verticesArray) && fresh(triangles)
    ensures verticesArray[..] == vertices
    ensures triangles.Length == verticesArray.Length
    ensures forall i | 0 <= i < triangles.Length :: triangles[i] == i
  {
    verticesArray := new Vec3[numberOfVertices];
    triangles := new int[numberOfVertices];
    var rest := vertices;
    var i := 0;
    while i < numberOfVertices
      invariant 0 <= i <= numberOfVertices
      invariant rest == vertices[i..]
      invariant verticesArray[..i] == vertices[..i]
      invariant forall k | 0 <= k < i :: triangles[k] == k
    {
      verticesArray[i] := rest[0];
      rest := rest[1..];
      triangles[i] := i;
      i := i + 1;
    }
  }

  /** Walks every cube (x outermost, then y, then z), appending each cube's
      vertices to a list, then drains the list front first into a vertex
      array and fills the index array with 0, 1, 2, ... */
  method CreateMesh(tables: Tables, mapData: MapData) returns (mesh: MeshData)
    requires ValidTables(tables) && SizeFits(mapData)
    ensures fresh(mesh.vertices) && fresh(mesh.triangles)
    ensures mesh.vertices[..] == MeshVertices(tables, mapData)
    ensures mesh.triangles.Length == mesh.vertices.Length
    ensures forall i | 0 <= i < mesh.triangles.Length :: mesh.triangles[i] == i
  {
    var vertices: seq<Vec3> := [];
    var numberOfVertices := 0;
    var gridSize := mapData.size;
    var t := mapData.densityTensor;
    ghost var nx, ny, nz := CubeCount(gridSize.x), CubeCount(gridSize.y), CubeCount(gridSize.z);

    var x := 0;
    while x < gridSize.x - 1
      invariant 0 <= x <= nx
      invariant vertices == GridVertices(tables, t, x, ny, nz)
      invariant numberOfVertices == |vertices|
    {
      assert GridVertices(tables, t, x + 1, ny, nz)
          == GridVertices(tables, t, x, ny, nz) + SliceVertices(tables, t, x, ny, nz);
      vertices, numberOfVertices := MarchSlice(tables, t, x, CubeCount(gridSize.y), CubeCount(gridSize.z), vertices, numberOfVertices);
      x := x + 1;
    }

    var verticesArray, triangles := DrainVertices(vertices, numberOfVertices);
    mesh := MeshData(verticesArray, triangles);
  }
}
