/** The binary obstacle grid built when a map arrives: a column-indexed copy
    of the row-major occupancy data, true where a cell is occupied. */
module BinaryGrid {
  import opened Messages

  /** How often a cell has been written so far. */
  function WriteCount(writes: map<(int, int), nat>, cell: (int, int)): nat
  {
    if cell in writes then writes[cell] else 0
  }

  /** Fills a width x height boolean grid with nested loops, x outer and y
      inner, so that binMap[x, y] holds whether data[y * width + x] is
      non-zero. The ghost map `writes` counts the assignments to each cell:
      every cell of the grid, and no other, is written exactly once. */
  method BuildBinMap(grid: OccupancyGrid) returns (binMap: array2<bool>, ghost writes: map<(int, int), nat>)
    requires WellFormed(grid)
    ensures fresh(binMap)
    ensures binMap.Length0 == grid.width && binMap.Length1 == grid.height
    ensures forall x, y :: 0 <= x < grid.width && 0 <= y < grid.height ==>
              binMap[x, y] == Occupied(grid, x, y)
    ensures forall x: int, y: int :: (x, y) in writes <==> 0 <= x < grid.width && 0 <= y < grid.height
    ensures forall c :: c in writes ==> writes[c] == 1
  {
    var height := grid.height;
    var width := grid.width;
    binMap := new bool[width, height];
    writes := map[];
    var x := 0;
    while x < width
      invariant 0 <= x <= width
      invariant forall i, j :: 0 <= i < x && 0 <= j < height ==> binMap[i, j] == Occupied(grid, i, j)
      invariant forall i: int, j: int :: (i, j) in writes <==> 0 <= i < x && 0 <= j < height
      invariant forall c :: c in writes ==> writes[c] == 1
    {
      var y := 0;
      while y < height
        invariant 0 <= y <= height
        invariant forall i, j :: 0 <= i < x && 0 <= j < height ==> binMap[i, j] == Occupied(grid, i, j)
        invariant forall j :: 0 <= j < y ==> binMap[x, j] == Occupied(grid, x, j)
        invariant forall i: int, j: int :: (i, j) in writes <==> (0 <= i < x && 0 <= j < height) || (i == x && 0 <= j < y)
        invariant forall c :: c in writes ==> writes[c] == 1
      {
        binMap[x, y] := grid.data[CellIndex(grid, x, y)] != 0;
        writes := writes[(x, y) := WriteCount(writes, (x, y)) + 1];
        y := y + 1;
      }
      x := x + 1;
    }
  }
}
