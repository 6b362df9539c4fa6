/** The planner node's session: the cached map, start and goal, the two
    validity flags, the three event handlers that update them and the plan
    step they trigger. */
module PlanningSession {
  import opened Messages
  import opened CoordinateMapper
  import opened BinaryGrid
  import opened WaypointBuilder

  /** Compile-time settings: whether planning is triggered by start and goal
      messages (manual) or by map updates with a transform-derived start; the
      cell size used for all conversions; the number of discrete headings. */
  datatype Config = Config(manual: bool, cellSize: real, headings: nat)

  /** Library math and collaborators whose code is not part of this model. */
  datatype Collaborators = Collaborators(
    getYaw: Quaternion -> real,           // tf::getYaw
    normalizeHeading: real -> real,       // Helper::normalizeHeadingRad
    atan2: (real, real) -> real,          // atan2 from the C library
    search: (OccupancyGrid, SearchRequest) -> NodePath)  // hybrid A* search on the cached map, then tracing and smoothing

  /** Externally visible effects, in the order they happen. */
  datatype Event =
    | StartEcho(pose: Pose)              // the accepted start, republished for visualisation
    | SearchRun(request: SearchRequest)  // the search engine is invoked
    | LanePublished(lanes: LaneArray)    // the lane array is published

  /** The effects of one plan step and whether it ended in an exception. */
  datatype PlanRun = PlanRun(events: seq<Event>, threw: bool)

  /** A world pose as a search node: grid-cell position and normalised yaw. */
  function GridNode(p: Pose, g: OccupancyGrid, cfg: Config, env: Collaborators): (n: Node3D)
    requires cfg.cellSize > 0.0
    ensures GridToWorld(n.x, g.originX, cfg.cellSize) == p.x
    ensures GridToWorld(n.y, g.originY, cfg.cellSize) == p.y
    ensures InGridBox(p.x, p.y, g, cfg.cellSize) <==>
              0.0 <= n.x <= g.width as real && 0.0 <= n.y <= g.height as real
  {
    InGridBoxIffCellInRange(p.x, p.y, g, cfg.cellSize);
    Node3D(WorldToGrid(p.x, g.originX, cfg.cellSize), WorldToGrid(p.y, g.originY, cfg.cellSize),
           env.normalizeHeading(env.getYaw(p.orientation)))
  }

  /** The request the plan step hands to the search engine. */
  function Request(g: OccupancyGrid, start: Pose, goal: Pose, cfg: Config, env: Collaborators): SearchRequest
    requires cfg.cellSize > 0.0
  {
    SearchRequest(GridNode(start, g, cfg, env), GridNode(goal, g, cfg, env), g.width, g.height,
                  g.width * g.height * cfg.headings, g.width * g.height)
  }

  /** Reference definition of a plan step with a valid start and goal: the
      search runs on the cached map (standing for the configuration space
      that setMap updates from it), its path is converted to world units and
      built into a lane, which is published unless building it threw. */
  function PlanOutcome(g: OccupancyGrid, start: Pose, goal: Pose, cfg: Config, env: Collaborators): PlanRun
    requires cfg.cellSize > 0.0
  {
    var req := Request(g, start, goal, cfg, env);
    var path := PathToWorld(env.search(g, req), g.originX, g.originY, cfg.cellSize);
    match LaneFor(path, env.atan2)
    case Built(lanes) => PlanRun([SearchRun(req), LanePublished(lanes)], false)
    case OutOfRange => PlanRun([SearchRun(req)], true)
  }

  /** End to end: a plan step always runs the search once, with buffers of
      width*height*headings and width*height nodes and end nodes that convert
      back to the cached poses; it throws exactly when the search returns one
      node; otherwise it publishes one lane whose waypoints are the search
      nodes, last to first, at their world positions. */
  lemma PlanPublishesReversedWorldPath(g: OccupancyGrid, start: Pose, goal: Pose, cfg: Config, env: Collaborators)
    requires cfg.cellSize > 0.0
    ensures var run := PlanOutcome(g, start, goal, cfg, env);
            var req := Request(g, start, goal, cfg, env);
            var nodes := env.search(g, req);
            && |run.events| >= 1 && run.events[0] == SearchRun(req)
            && req.nodes3D == g.width * g.height * cfg.headings && req.nodes2D == g.width * g.height
            && GridToWorld(req.start.x, g.originX, cfg.cellSize) == start.x
            && GridToWorld(req.start.y, g.originY, cfg.cellSize) == start.y
            && GridToWorld(req.goal.x, g.originX, cfg.cellSize) == goal.x
            && GridToWorld(req.goal.y, g.originY, cfg.cellSize) == goal.y
            && (run.threw <==> |nodes| == 1)
            && (run.threw ==> |run.events| == 1)
            && (!run.threw ==>
                  |run.events| == 2 && run.events[1].LanePublished? &&
                  var lanes := run.events[1].lanes.lanes;
                  |lanes| == 1 && |lanes[0].waypoints| == |nodes| &&
                  forall i :: 0 <= i < |nodes| ==>
                    lanes[0].waypoints[i].x == GridToWorld(nodes[|nodes| - 1 - i].x, g.originX, cfg.cellSize) &&
                    lanes[0].waypoints[i].y == GridToWorld(nodes[|nodes| - 1 - i].y, g.originY, cfg.cellSize))
  {
    var req := Request(g, start, goal, cfg, env);
    var nodes := env.search(g, req);
    var path := PathToWorld(nodes, g.originX, g.originY, cfg.cellSize);
    LaneForShape(path, env.atan2);
    forall i | 0 <= i < |path|
      ensures path[i].x == GridToWorld(nodes[i].x, g.originX, cfg.cellSize)
      ensures path[i].y == GridToWorld(nodes[i].y, g.originY, cfg.cellSize)
    {
      GridToWorldInverse(nodes[i].x, g.originX, cfg.cellSize);
      GridToWorldInverse(nodes[i].y, g.originY, cfg.cellSize);
    }
  }

  class Planner {
    const config: Config
    const env: Collaborators
    var grid: Option<OccupancyGrid>
    var start: Pose
    var goal: Pose
    var validStart: bool
    var validGoal: bool
    /** Everything published or searched so far. */
    ghost var published: seq<Event>

    /** A flag can only be set once a map has arrived, the cached map is
        well formed and the cell size is positive. */
    ghost predicate Valid()
      reads this
    {
      config.cellSize > 0.0 &&
      (grid.Some? ==> WellFormed(grid.value)) &&
      (validStart || validGoal ==> grid.Some?)
    }

    /** What a plan step does in the current state: nothing unless both the
        start and the goal are valid. */
    ghost function PlanEffect(): PlanRun
      reads this
      requires Valid()
    {
      if validStart && validGoal then PlanOutcome(grid.value, start, goal, config, env)
      else PlanRun([], false)
    }

    constructor (config: Config, env: Collaborators)
      requires config.cellSize > 0.0
      ensures Valid() && this.config == config && this.env == env
      ensures grid == None && !validStart && !validGoal && published == []
    {
      this.config := config;
      this.env := env;
      grid := None;
      start := Pose(0.0, 0.0, 0.0, Quaternion(0.0, 0.0, 0.0, 0.0));
      goal := Pose(0.0, 0.0, 0.0, Quaternion(0.0, 0.0, 0.0, 0.0));
      validStart := false;
      validGoal := false;
      published := [];
    }

    /** plan(): with a valid start and goal, search, convert and publish the
        lane; otherwise do nothing. The session state is left unchanged. */
    method Plan() returns (threw: bool)
      requires Valid()
      modifies this`published
      ensures Valid()
      ensures published == old(published) + PlanEffect().events
      ensures threw == PlanEffect().threw
    {
      if validStart && validGoal {
        var g := grid.value;
        var width := g.width;
        var height := g.height;
        var depth := config.headings;
        var length := width * height * depth;
        var x := WorldToGrid(goal.x, g.originX, config.cellSize);
        var y := WorldToGrid(goal.y, g.originY, config.cellSize);
        var t := env.normalizeHeading(env.getYaw(goal.orientation));
        var nGoal := Node3D(x, y, t);
        x := WorldToGrid(start.x, g.originX, config.cellSize);
        y := WorldToGrid(start.y, g.originY, config.cellSize);
        t := env.normalizeHeading(env.getYaw(start.orientation));
        var nStart := Node3D(x, y, t);
        var request := SearchRequest(nStart, nGoal, width, height, length, width * height);
        published := published + [SearchRun(request)];
        var nodes := env.search(g, request);
        nodes := ConvertPathToWorld(nodes, g.originX, g.originY, config.cellSize);
        var outcome := CreateWayPoint(nodes, env.atan2);
        match outcome
        case Built(lanes) =>
          published := published + [LanePublished(lanes)];
          threw := false;
        case OutOfRange =>
          threw := true;
      } else {
        threw := false;
      }
    }

    /** setStart: a start inside the map box is cached and marks the start
        valid, triggers a plan step in manual mode and is then echoed; one
        outside leaves everything as it was, a valid earlier start included.
        An exception from the plan step ends the handler before the echo. */
    method SetStart(initial: Pose) returns (threw: bool)
      requires Valid() && grid.Some?
      modifies this`validStart, this`start, this`published
      ensures Valid()
      ensures var accepted := InGridBox(initial.x, initial.y, grid.value, config.cellSize);
              && validStart == (old(validStart) || accepted)
              && start == (if accepted then initial else old(start))
              && (!accepted ==> published == old(published) && !threw)
              && (accepted ==>
                    var run := if config.manual then PlanEffect() else PlanRun([], false);
                    threw == run.threw &&
                    published == old(published) + run.events + (if run.threw then [] else [StartEcho(initial)]))
    {
      var g := grid.value;
      if InGridBox(initial.x, initial.y, g, config.cellSize) {
        validStart := true;
        start := initial;
        threw := false;
        if config.manual {
          threw := Plan();
          if threw {
            return;
          }
        }
        published := published + [StartEcho(initial)];
      } else {
        threw := false;
      }
    }

    /** setGoal: a goal inside the map box is cached, marks the goal valid and
        triggers a plan step in manual mode; one outside changes nothing. The
        start is never touched and nothing is echoed. */
    method SetGoal(end: Pose) returns (threw: bool)
      requires Valid() && grid.Some?
      modifies this`validGoal, this`goal, this`published
      ensures Valid()
      ensures var accepted := InGridBox(end.x, end.y, grid.value, config.cellSize);
              && validGoal == (old(validGoal) || accepted)
              && goal == (if accepted then end else old(goal))
              && (!accepted ==> published == old(published) && !threw)
              && (accepted ==>
                    var run := if config.manual then PlanEffect() else PlanRun([], false);
                    threw == run.threw && published == old(published) + run.events)
    {
      var g := grid.value;
      if InGridBox(end.x, end.y, g, config.cellSize) {
        validGoal := true;
        goal := end;
        threw := false;
        if config.manual {
          threw := Plan();
        }
      } else {
        threw := false;
      }
    }

    /** setMap: caches the map and builds its binary obstacle grid. Outside
        manual mode, when the vehicle's pose in the map frame is available,
        its position and orientation overwrite the start, the start flag is
        set to the raw cell-count test (cleared when it fails) and a plan step
        follows unconditionally. */
    method SetMap(newMap: OccupancyGrid, transform: Option<Pose>) returns (binMap: array2<bool>, threw: bool)
      requires Valid() && WellFormed(newMap)
      modifies this`grid, this`start, this`validStart, this`published
      ensures Valid() && grid == Some(newMap)
      ensures fresh(binMap)
      ensures binMap.Length0 == newMap.width && binMap.Length1 == newMap.height
      ensures forall x, y :: 0 <= x < newMap.width && 0 <= y < newMap.height ==>
                binMap[x, y] == Occupied(newMap, x, y)
      ensures config.manual || transform.None? ==>
                start == old(start) && validStart == old(validStart) &&
                published == old(published) && !threw
      ensures !config.manual && transform.Some? ==>
                var pose := transform.value;
                start == old(start).(x := pose.x, y := pose.y, orientation := pose.orientation) &&
                validStart == InRawCellBounds(pose.x, pose.y, newMap) &&
                published == old(published) + PlanEffect().events &&
                threw == PlanEffect().threw
    {
      grid := Some(newMap);
      ghost var writes;
      binMap, writes := BuildBinMap(newMap);
      threw := false;
      if !config.manual && transform.Some? {
        var pose := transform.value;
        start := start.(x := pose.x, y := pose.y, orientation := pose.orientation);
        if InRawCellBounds(start.x, start.y, newMap) {
          validStart := true;
        } else {
          validStart := false;
        }
        threw := Plan();
      }
    }
  }
}
