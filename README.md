# Hybrid A* planner node: session, bounds checks and waypoint synthesis

This project models the `Planner` class of a ROS hybrid-A* path-planning node
(`src/planner.cpp`). The node receives an occupancy map, a start pose and a
goal pose. It keeps them in a small session, validates each pose against the
map, and, when both are valid, runs a plan step. The plan step converts the
poses to grid cells, hands them to the search engine, converts the returned
path back to world coordinates, and publishes it as one lane of waypoints.

The model is split into five modules and one module of scenarios:

- `Messages` (messages.dfy): the message shapes the core reads (pose,
  quaternion, occupancy grid, search node, search request), the row-major
  cell index and the occupancy test.
- `CoordinateMapper` (coordinates.dfy): world to grid `(p - origin) / cellSize`,
  grid to world `origin + c * cellSize`, the inclusive box test used for start
  and goal messages, the raw cell-count test used for a transform-derived
  start, and the loop that converts a traced path back to world units.
- `BinaryGrid` (binary_grid.dfy): the nested loops of `setMap` that transpose
  the row-major data into a column-indexed boolean grid (`array2<bool>`). A
  ghost map counts the writes to each cell.
- `WaypointBuilder` (waypoints.dfy): `kmph2mps` and `createWayPoint`. The
  method fills an array, reverses it in place and sets the headings in an
  index loop. The size_t arithmetic of `last = count - 1` and `i - 1` is
  written out modulo 2^64, so a one-node path ends in `std::out_of_range`
  from `vector::at`, as the code does. `LaneFor` is the reference definition
  (reverse, then orient pair by pair), and lemmas give its closed form.
- `PlanningSession` (planner.dfy): the class `Planner` with the fields
  `grid`, `start`, `goal`, `validStart` and `validGoal`, and the handlers
  `SetMap`, `SetStart`, `SetGoal` and `Plan`. What the node publishes is
  recorded in the ghost field `published` as a sequence of events: the start
  echo, each search invocation and each published lane array.
  `PlanOutcome` is the reference definition of one plan step.
- `Scenarios` (scenarios.dfy): two client sessions on a 10 x 10 map, proved
  from the handlers' contracts and the lane lemmas.

Collaborators whose code is not shown are function-valued fields of
`Collaborators`: `tf::getYaw`, `Helper::normalizeHeadingRad`, `atan2`, and the
search engine followed by tracing and smoothing. The search is given the
cached map together with the request, since the configuration space it
searches is updated from that map in `setMap`. `tf::createQuaternionMsgFromYaw`
is kept symbolic as `Orientation.FromYaw(yaw)`. The compile-time settings
`Constants::manual`, `Constants::cellSize` and `Constants::headings` are the
fields of `Config`. Their values live in a header that is not part of this
model. The vehicle transform looked up in `setMap` is an optional pose
argument: `None` when no transform is available.

Behaviour of the code worth knowing, modelled as the code does it:

- The start derived from the transform in `setMap` is tested differently
  from a start message. The code compares the raw position with the raw cell
  counts. It uses neither the origin nor the cell size, and a failed test
  clears `validStart` (`InRawCellBounds`, `RawBoundsRejectOriginCorner`).
- A traced path of exactly one node makes `createWayPoint` read index
  `0 - 1` in size_t, which `vector::at` rejects with `std::out_of_range`.
  The model returns `OutOfRange`. The plan step then records the search but
  publishes no lane. `setStart` ends before its echo.
- All conversions use `Constants::cellSize`. The map's own resolution field
  is never read.

## Model

| member | source | states |
|---|---|---|
| `Messages.CellIndex` | src/planner.cpp:65 | the row-major index `y*width + x` of a cell inside the map lies inside the data array |
| `Messages.CellIndexInjective` | src/planner.cpp:63-67 | distinct cells read distinct data entries, so the boolean grid is a transposition of the data |
| `CoordinateMapper.WorldToGrid` | src/planner.cpp:177-178 | `(p - origin)/cellSize` is undone exactly by `origin + c*cellSize` |
| `CoordinateMapper.GridToWorldInverse` | src/planner.cpp:220-221 | `origin + c*cellSize` converted back to the grid gives `c` again, for any non-zero cell size |
| `CoordinateMapper.InGridBoxIffCellInRange` | src/planner.cpp:114-118 | a pose passes the inclusive box test exactly when its grid coordinates lie in [0, width] x [0, height] |
| `CoordinateMapper.RawBoundsMatchBoxAtUnitOrigin` | src/planner.cpp:86-87 | the transform-derived start test agrees with the box test when the origin is (0, 0) and cells are unit-sized |
| `CoordinateMapper.RawBoundsRejectOriginCorner` | src/planner.cpp:86-87 | for a map origin at negative x, the origin corner passes the box test but fails the raw cell-count test |
| `CoordinateMapper.PathToWorld` | src/planner.cpp:219-223 | the converted path has one node per search node, keeps each heading, and each node maps back to its grid node |
| `CoordinateMapper.ConvertPathToWorld` | src/planner.cpp:219-223 | the in-place loop over the search result yields exactly the converted path |
| `BinaryGrid.BuildBinMap` | src/planner.cpp:56-67 | the grid is a newly allocated width x height array, `binMap[x, y]` is true iff `data[y*width + x]` is non-zero, and every cell, and no other, is written exactly once |
| `WaypointBuilder.ToSizeT` | src/planner.cpp:271 | converting `-1` to size_t gives 2^64 - 1, and other values in range are unchanged |
| `WaypointBuilder.Kmph2Mps` | src/planner.cpp:246-248 | the m/s value times 3.6 is the km/h value, and a positive speed gets smaller |
| `WaypointBuilder.NewWaypoints` | src/planner.cpp:256-269 | one new waypoint per path node |
| `WaypointBuilder.Rev` | src/planner.cpp:270 | reversal keeps the length |
| `WaypointBuilder.RevAt` | src/planner.cpp:270 | element k of the reversal is element n-1-k of the input |
| `WaypointBuilder.Orient` | src/planner.cpp:271-282 | the heading pass keeps the number of waypoints |
| `WaypointBuilder.OrientAt` | src/planner.cpp:271-282 | after the heading pass, waypoint i differs from its input only in orientation: the bearing to waypoint i+1, or for the last one the bearing from its predecessor |
| `WaypointBuilder.OrientHeadings` | src/planner.cpp:271-282 | in the oriented sequence every waypoint but the last faces its successor, and the last has its predecessor's orientation |
| `WaypointBuilder.LaneForShape` | src/planner.cpp:250-289 | the lane is built iff the path does not have exactly one node; then one lane in frame "map" holds one waypoint per node in reverse node order, each with the sentinel z -3893.38, speed `kmph2mps(10)` = 25/9 and all five flags zero |
| `WaypointBuilder.LaneForHeadings` | src/planner.cpp:271-282 | for two or more nodes, waypoint i < N-1 has heading `atan2(y[i+1]-y[i], x[i+1]-x[i])` and waypoint N-1 copies the orientation of waypoint N-2 |
| `WaypointBuilder.ReverseInPlace` | src/planner.cpp:270 | `std::reverse` leaves the array holding the reversal of its old contents |
| `WaypointBuilder.OrientInPlace` | src/planner.cpp:271-282 | the index loop throws exactly for one waypoint; otherwise the array holds the reference headings (none touched for an empty vector) |
| `WaypointBuilder.CreateWayPoint` | src/planner.cpp:250-289 | building, reversing and orienting in place yields the reference lane `LaneFor`, including `OutOfRange` for a one-node path |
| `PlanningSession.GridNode` | src/planner.cpp:175-196 | the search node of a pose converts back to the pose's position, and lies in [0, width] x [0, height] iff the pose passes the box test |
| `PlanningSession.PlanPublishesReversedWorldPath` | src/planner.cpp:165-236 | a plan step runs the search once with buffers of width*height*headings and width*height nodes and end nodes that convert back to the cached poses; it throws iff the search returns one node, and otherwise publishes one lane whose waypoints are the search nodes, last to first, in world units |
| `PlanningSession.Planner.constructor` | src/planner.cpp:7-30 | a new planner has no map, no valid start or goal, and has published nothing |
| `PlanningSession.Planner.Plan` | src/planner.cpp:159-244 | without a valid start and goal nothing happens; otherwise the events of `PlanOutcome` are appended; the session fields never change |
| `PlanningSession.Planner.SetStart` | src/planner.cpp:101-129 | `validStart` becomes true and `start` the new pose iff the pose passes the box test; on rejection nothing changes; on acceptance a plan step runs in manual mode only, and the echo is published after it unless it threw; the goal is untouched |
| `PlanningSession.Planner.SetGoal` | src/planner.cpp:134-154 | `validGoal` becomes true and `goal` the new pose iff the pose passes the box test; on rejection nothing changes; on acceptance a plan step runs in manual mode only; the start is untouched and no echo is published |
| `PlanningSession.Planner.SetMap` | src/planner.cpp:46-96 | the map is cached and its binary grid built in a newly allocated array; outside manual mode with a transform, the start position and orientation are overwritten, `validStart` becomes exactly the raw cell-count test, and a plan step always follows; otherwise the start, its flag and the published events are unchanged |

## Left out

- ROS publishers, subscribers and topic names (src/planner.cpp:17-29) are not modelled. What is published is the ghost event log `published`. Message headers, frame ids of the start echo, time stamps and console logging are not modelled.
- The transform listener (`canTransform`, `lookupTransform`, quaternion conversion) is a foreign call. The model takes the resulting pose as an optional argument of `SetMap`.
- `configurationSpace.updateGrid`, the Voronoi diagram calls and the lookup-table builders are collaborators whose code is not shown. The binary grid is returned from `SetMap` instead of being handed to them.
- The hybrid A* search, path tracing and smoothing, and the visualization and path clear, update and publish calls are external. The search-and-trace result is an arbitrary node sequence given by `Collaborators.search` as a function of the cached map and the request. The configuration-space, Voronoi and lookup-table state the search really reads is represented by that map. How the smoother treats a null solution is not modelled.
- `tf::getYaw`, `Helper::normalizeHeadingRad`, `atan2` and `tf::createQuaternionMsgFromYaw` are floating-point library math. They are uninterpreted. Orientations are symbolic (`Unset` is the all-zero quaternion of a fresh message).
- IEEE `float`/`double` rounding is not modelled. All coordinates, speeds and bounds tests use exact reals.
- Integer widths in `setMap` and `plan` are not modelled. The map's `uint32` width and height are narrowed to `int` (src/planner.cpp:56-57), the row-major index `y * width + x` is an `int` (src/planner.cpp:65), and the buffer sizes `width * height * depth` and `width * height` are `int` products (src/planner.cpp:168-171). Each may overflow for very large maps. The model uses unbounded naturals for the dimensions, the index and the buffer sizes.
- `new`/`delete` of the node buffers and of `binMap` are not modelled, so the leak of both node buffers when `createWayPoint` throws is not shown. Only the buffer lengths are recorded, in the search request.
- What happens to the node after an exception leaves a handler is outside this model. The handlers report it with their `threw` result.
- `PlanningSession.Planner.SetStart`: requires a cached map. The code dereferences the grid pointer without a check, which is undefined behaviour before the first map arrives.
- `PlanningSession.Planner.SetGoal`: requires a cached map, for the same reason as `SetStart`.
- `WaypointBuilder.CreateWayPoint`: requires at most 2^31 - 1 nodes, since the code counts them in a signed 32-bit `int`. The search result type `NodePath` carries this bound.
- Node cost values and parent links, and the covariance of the start message, are never read by the core and are not modelled.
- The initial values of the validity flags come from a class header that is not part of this model. The constructor sets them to false.
