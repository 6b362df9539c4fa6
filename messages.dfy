/** Message shapes the planner node consumes and produces, reduced to the
    fields its core reads or writes. */
module Messages {

  datatype Option<T> = None | Some(value: T)

  /** An orientation quaternion as carried by a pose message. */
  datatype Quaternion = Quaternion(x: real, y: real, z: real, w: real)

  /** A world-frame pose (position and orientation). Covariance and header
      are carried by the messages but never read by the planner. */
  datatype Pose = Pose(x: real, y: real, z: real, orientation: Quaternion)

  /** An occupancy grid: cell counts, the world-frame position of cell (0, 0)
      and the cell values in row-major order (non-zero means occupied). */
  datatype OccupancyGrid = OccupancyGrid(width: nat, height: nat, originX: real, originY: real, data: seq<int>)

  /** The message format's own invariant: one value per cell. */
  predicate WellFormed(g: OccupancyGrid)
  {
    |g.data| == g.width * g.height
  }

  /** A search node in grid-cell units (cost and parent link are not modelled). */
  datatype Node3D = Node3D(x: real, y: real, t: real)

  /** A traced path as the node returns it; its length fits the signed
      32-bit counters that walk it. */
  type NodePath = s: seq<Node3D> | |s| <= 0x7fff_ffff

  /** What the planner hands to the search engine: the two end nodes, the
      grid dimensions and the lengths of the two node buffers it allocated. */
  datatype SearchRequest = SearchRequest(start: Node3D, goal: Node3D, width: nat, height: nat,
                                         nodes3D: nat, nodes2D: nat)

  lemma MulMonotone(a: nat, b: nat, w: nat)
    requires a <= b
    ensures a * w <= b * w
  {
  }

  /** Position of cell (x, y) in the row-major data array. */
  function CellIndex(g: OccupancyGrid, x: nat, y: nat): (k: nat)
    requires WellFormed(g) && x < g.width && y < g.height
    ensures k < |g.data|
  {
    MulMonotone(y + 1, g.height, g.width);
    y * g.width + x
  }

  /** Distinct cells read distinct entries of the data array, so the
      column-indexed copy is a transposition and not a mixing of cells. */
  lemma CellIndexInjective(g: OccupancyGrid, x1: nat, y1: nat, x2: nat, y2: nat)
    requires WellFormed(g) && x1 < g.width && y1 < g.height && x2 < g.width && y2 < g.height
    requires CellIndex(g, x1, y1) == CellIndex(g, x2, y2)
    ensures x1 == x2 && y1 == y2
  {
    if y1 < y2 {
      MulMonotone(y1 + 1, y2, g.width);
    } else if y2 < y1 {
      MulMonotone(y2 + 1, y1, g.width);
    }
  }

  /** Whether cell (x, y) is occupied: its value is non-zero. */
  predicate Occupied(g: OccupancyGrid, x: nat, y: nat)
    requires WellFormed(g) && x < g.width && y < g.height
  {
    g.data[CellIndex(g, x, y)] != 0
  }
}
