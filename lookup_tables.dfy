/** The Marching Cubes lookup tables. Their contents are not part of this
    model: the tables are a parameter, and every property the model relies on
    is stated here as a predicate over them and required where it is used. */
module LookupTables {
  import opened Vectors
  import opened Bits

  /** edgeTable: crossing-edge mask per cube configuration;
      triTable: per configuration, edge indices in triangle order, ended by -1;
      edgeToCornerTable: the two cube corners of each of the 12 edges;
      edgeIndexToPositionTable: the default (midpoint) position of each edge. */
  datatype Tables = Tables(
    edgeTable: seq<int>,
    triTable: seq<seq<int>>,
    edgeToCornerTable: seq<seq<int>>,
    edgeIndexToPositionTable: seq<Vec3>)

  /** Index of the first -1 sentinel of a triTable row. */
  function FirstSentinel(row: seq<int>): (k: nat)
    requires -1 in row
    ensures k < |row| && row[k] == -1
    ensures forall j | 0 <= j < k :: row[j] != -1
  {
    if row[0] == -1 then 0 else 1 + FirstSentinel(row[1..])
  }

  /** The shape the mesher's indexing relies on, plus the one content
      property that keeps every interpolation denominator non-zero: an edge is
      flagged for a configuration only when its two corners lie on different
      sides (the configurations 0 and 255 are never looked up). */
  predicate ValidTables(tables: Tables) {
    && |tables.edgeTable| == 256
    && |tables.triTable| == 256
    && (forall c | 0 <= c < 256 :: -1 in tables.triTable[c])
    && (forall c, j | 0 <= c < 256 && 0 <= j < FirstSentinel(tables.triTable[c]) ::
          0 <= tables.triTable[c][j] < 12)
    && |tables.edgeToCornerTable| == 12
    && (forall i | 0 <= i < 12 ::
          && |tables.edgeToCornerTable[i]| == 2
          && 0 <= tables.edgeToCornerTable[i][0] < 8
          && 0 <= tables.edgeToCornerTable[i][1] < 8)
    && |tables.edgeIndexToPositionTable| == 12
    && (forall c, i | 0 < c < 255 && 0 <= i < 12 && Bit(tables.edgeTable[c], i) ::
          Bit(c, tables.edgeToCornerTable[i][0]) != Bit(c, tables.edgeToCornerTable[i][1]))
  }

  /** First corner of edge `i`. */
  function Corner0(tables: Tables, i: nat): (k: nat)
    requires ValidTables(tables) && i < 12
    ensures k < 8
  {
    tables.edgeToCornerTable[i][0]
  }

  /** Second corner of edge `i`. */
  function Corner1(tables: Tables, i: nat): (k: nat)
    requires ValidTables(tables) && i < 12
    ensures k < 8
  {
    tables.edgeToCornerTable[i][1]
  }

  /** The edge indices emitted for configuration `c`: its triTable row up to
      the sentinel. */
  function TriRow(tables: Tables, c: nat): (row: seq<int>)
    requires ValidTables(tables) && c < 256
    ensures forall j | 0 <= j < |row| :: 0 <= row[j] < 12
  {
    tables.triTable[c][..FirstSentinel(tables.triTable[c])]
  }

  /** Offset of cube corner `k` from the cube's origin, in the order the
      mesher reads the corners: 0..3 go round the lower face (x, then z),
      4..7 are the same corners one step up in y. */
  function CornerOffset(k: nat): (p: Vec3Int)
    requires k < 8
    ensures 0 <= p.x <= 1 && 0 <= p.y <= 1 && 0 <= p.z <= 1
  {
    match k
    case 0 => Vec3Int(0, 0, 0)
    case 1 => Vec3Int(1, 0, 0)
    case 2 => Vec3Int(1, 0, 1)
    case 3 => Vec3Int(0, 0, 1)
    case 4 => Vec3Int(0, 1, 0)
    case 5 => Vec3Int(1, 1, 0)
    case 6 => Vec3Int(1, 1, 1)
    case _ => Vec3Int(0, 1, 1)
  }

  /** Every configuration that produces geometry lists whole triangles. */
  predicate RowsAreTriangles(tables: Tables)
    requires ValidTables(tables)
  {
    forall c | 0 < c < 255 :: |TriRow(tables, c)| % 3 == 0
  }

  /** Every default edge position lies in the unit cube. */
  predicate UnitCubePositions(tables: Tables)
    requires ValidTables(tables)
  {
    forall i | 0 <= i < 12 ::
      var p := tables.edgeIndexToPositionTable[i];
      0.0 <= p.x <= 1.0 && 0.0 <= p.y <= 1.0 && 0.0 <= p.z <= 1.0
  }

  /** `b` is `a` moved one unit along exactly one axis, in the positive
      direction. */
  predicate UnitStep(a: Vec3Int, b: Vec3Int) {
    || (b == Vec3Int(a.x + 1, a.y, a.z) && a.x == 0)
    || (b == Vec3Int(a.x, a.y + 1, a.z) && a.y == 0)
    || (b == Vec3Int(a.x, a.y, a.z + 1) && a.z == 0)
  }

  /** The tables agree with the cube's geometry up to edge direction: each
      edge joins two corners one unit apart, listed in either order, and its
      default position is their midpoint. */
  predicate EdgesAdjacent(tables: Tables)
    requires ValidTables(tables)
  {
    forall i | 0 <= i < 12 ::
      && (|| UnitStep(CornerOffset(Corner0(tables, i)), CornerOffset(Corner1(tables, i)))
          || UnitStep(CornerOffset(Corner1(tables, i)), CornerOffset(Corner0(tables, i))))
      && tables.edgeIndexToPositionTable[i] ==
           Midpoint(ToVec3(CornerOffset(Corner0(tables, i))), ToVec3(CornerOffset(Corner1(tables, i))))
  }

  /** The tables agree with the cube's geometry and with the direction the
      interpolation assumes: each edge joins two corners one unit apart,
      listed from the LOWER corner to the UPPER one; its default position is
      their midpoint; and every edge a configuration emits is flagged in that
      configuration's edge mask. */
  predicate EdgeGeometry(tables: Tables)
    requires ValidTables(tables)
  {
    && (forall i | 0 <= i < 12 ::
          && UnitStep(CornerOffset(Corner0(tables, i)), CornerOffset(Corner1(tables, i)))
          && tables.edgeIndexToPositionTable[i] ==
               Midpoint(ToVec3(CornerOffset(Corner0(tables, i))), ToVec3(CornerOffset(Corner1(tables, i)))))
    && (forall c, j | 0 < c < 255 && 0 <= j < |TriRow(tables, c)| ::
          Bit(tables.edgeTable[c], TriRow(tables, c)[j]))
  }
}
