/** World <-> grid-cell conversions and the two bounds tests of the planner. */
module CoordinateMapper {
  import opened Messages

  /** World coordinate to grid-cell coordinate: offset from the origin,
      divided by the cell size. Converting back gives the input again. */
  function WorldToGrid(p: real, origin: real, cellSize: real): (c: real)
    requires cellSize != 0.0
    ensures GridToWorld(c, origin, cellSize) == p
  {
    (p - origin) / cellSize
  }

  /** Grid-cell coordinate to world coordinate. */
  function GridToWorld(c: real, origin: real, cellSize: real): real
  {
    origin + c * cellSize
  }

  /** Converting a grid coordinate to the world and back gives it again. */
  lemma GridToWorldInverse(c: real, origin: real, cellSize: real)
    requires cellSize != 0.0
    ensures WorldToGrid(GridToWorld(c, origin, cellSize), origin, cellSize) == c
  {
    var p := GridToWorld(c, origin, cellSize);
    assert (p - origin) == c * cellSize;
  }

  /** The test applied to start and goal messages: the offset from the map
      origin lies in the closed box [0, width*cellSize] x [0, height*cellSize]. */
  predicate InGridBox(x: real, y: real, g: OccupancyGrid, cellSize: real)
  {
    var dx := x - g.originX;
    var dy := y - g.originY;
    dx <= (g.width as real) * cellSize && dx >= 0.0 &&
    dy <= (g.height as real) * cellSize && dy >= 0.0
  }

  /** For a positive cell size, a point passes the box test exactly when its
      grid coordinates lie in [0, width] x [0, height] (both ends included). */
  lemma InGridBoxIffCellInRange(x: real, y: real, g: OccupancyGrid, cellSize: real)
    requires cellSize > 0.0
    ensures InGridBox(x, y, g, cellSize) <==>
              (0.0 <= WorldToGrid(x, g.originX, cellSize) <= g.width as real &&
               0.0 <= WorldToGrid(y, g.originY, cellSize) <= g.height as real)
  {
    ScaledRange(x - g.originX, g.width as real, cellSize);
    ScaledRange(y - g.originY, g.height as real, cellSize);
  }

  lemma ScaledRange(d: real, n: real, s: real)
    requires s > 0.0
    ensures (0.0 <= d <= n * s) <==> (0.0 <= d / s <= n)
  {
    var q := d / s;
    assert d == q * s;
    if q > n {
      assert q * s > n * s;
    }
    if q < 0.0 {
      assert q * s < 0.0;
    }
  }

  /** The test applied to a start derived from the vehicle transform when a
      map arrives: the raw position against the raw cell counts, with no
      origin offset and no cell size. */
  predicate InRawCellBounds(x: real, y: real, g: OccupancyGrid)
  {
    (g.height as real) >= y && y >= 0.0 && (g.width as real) >= x && x >= 0.0
  }

  /** The two tests agree only in the special case of an origin at (0, 0)
      and a unit cell size. */
  lemma RawBoundsMatchBoxAtUnitOrigin(x: real, y: real, g: OccupancyGrid)
    requires g.originX == 0.0 && g.originY == 0.0
    ensures InRawCellBounds(x, y, g) <==> InGridBox(x, y, g, 1.0)
  {
  }

  /** Whenever the map origin lies at negative x, the origin corner itself is
      accepted as a start message but rejected as a transform-derived start. */
  lemma RawBoundsRejectOriginCorner(g: OccupancyGrid, cellSize: real)
    requires cellSize >= 0.0 && g.originX < 0.0
    ensures InGridBox(g.originX, g.originY, g, cellSize)
    ensures !InRawCellBounds(g.originX, g.originY, g)
  {
  }

  /** The conversion of the search result back to world units, node by node:
      the converted path has the same length, keeps each heading and maps back
      to the grid node it came from. */
  function PathToWorld(nodes: seq<Node3D>, originX: real, originY: real, cellSize: real): (r: seq<Node3D>)
    requires cellSize != 0.0
    ensures |r| == |nodes|
    ensures forall i :: 0 <= i < |r| ==>
              r[i].t == nodes[i].t &&
              WorldToGrid(r[i].x, originX, cellSize) == nodes[i].x &&
              WorldToGrid(r[i].y, originY, cellSize) == nodes[i].y
  {
    seq(|nodes|, i requires 0 <= i < |nodes| =>
      WorldNode(nodes[i], originX, originY, cellSize))
  }

  function WorldNode(n: Node3D, originX: real, originY: real, cellSize: real): (w: Node3D)
    requires cellSize != 0.0
    ensures w.t == n.t
    ensures WorldToGrid(w.x, originX, cellSize) == n.x && WorldToGrid(w.y, originY, cellSize) == n.y
  {
    GridToWorldInverse(n.x, originX, cellSize);
    GridToWorldInverse(n.y, originY, cellSize);
    n.(x := GridToWorld(n.x, originX, cellSize), y := GridToWorld(n.y, originY, cellSize))
  }

  /** The loop that rewrites every node of the search result in place from
      grid units to world units. */
  method ConvertPathToWorld(nodes: seq<Node3D>, originX: real, originY: real, cellSize: real)
    returns (r: seq<Node3D>)
    requires cellSize != 0.0
    ensures r == PathToWorld(nodes, originX, originY, cellSize)
  {
    r := nodes;
    var i := 0;
    while i < |r|
      invariant 0 <= i <= |r| == |nodes|
      invariant forall k :: 0 <= k < i ==> r[k] == WorldNode(nodes[k], originX, originY, cellSize)
      invariant forall k :: i <= k < |r| ==> r[k] == nodes[k]
    {
      r := r[i := r[i].(x := originX + r[i].x * cellSize)];
      r := r[i := r[i].(y := originY + r[i].y * cellSize)];
      assert r[i] == WorldNode(nodes[i], originX, originY, cellSize);
      i := i + 1;
    }
  }
}
