/** Two end-to-end sessions on a 10 x 10 map with unit cells at the origin,
    driven only through the contracts of the planner's handlers. */
module Scenarios {
  import opened Messages
  import opened CoordinateMapper
  import opened WaypointBuilder
  import opened PlanningSession

  function EmptyMap(): OccupancyGrid
  {
    OccupancyGrid(10, 10, 0.0, 0.0, seq(100, _ => 0))
  }

  /** Manual mode; the search returns the chain (8, 8) -> (1, 1), goal first.
      Accepting the start and then the goal publishes a lane of two waypoints,
      (1, 1) then (8, 8), both heading atan2(7, 7). */
  method ManualStartThenGoal(getYaw: Quaternion -> real, normalize: real -> real, atan2: (real, real) -> real)
  {
    var chain: NodePath := [Node3D(8.0, 8.0, 0.0), Node3D(1.0, 1.0, 0.0)];
    var env := Collaborators(getYaw, normalize, atan2, (_, _) => chain);
    var p := new Planner(Config(true, 1.0, 72), env);
    var binMap, threw := p.SetMap(EmptyMap(), None);
    assert !binMap[3, 4];
    var q := Quaternion(0.0, 0.0, 0.0, 1.0);
    threw := p.SetStart(Pose(1.0, 1.0, 0.0, q));
    assert p.published == [StartEcho(Pose(1.0, 1.0, 0.0, q))];
    threw := p.SetGoal(Pose(8.0, 8.0, 0.0, q));
    assert !threw && |p.published| == 3 && p.published[2].LanePublished?;
    var wps := p.published[2].lanes.lanes[0].waypoints;
    LaneForHeadings(PathToWorld(chain, 0.0, 0.0, 1.0), atan2);
    PlanPublishesReversedWorldPath(EmptyMap(), p.start, p.goal, p.config, env);
    assert |wps| == 2;
    assert wps[0].x == 1.0 && wps[0].y == 1.0 && wps[1].x == 8.0 && wps[1].y == 8.0;
    assert wps[0].orientation == FromYaw(atan2(7.0, 7.0)) == wps[1].orientation;
  }

  /** A goal outside the map box is rejected: no flag, no plan, no lane. */
  method GoalOutsideMap(env: Collaborators)
  {
    var p := new Planner(Config(true, 1.0, 72), env);
    var binMap, threw := p.SetMap(EmptyMap(), None);
    threw := p.SetGoal(Pose(100.0, 100.0, 0.0, Quaternion(0.0, 0.0, 0.0, 1.0)));
    assert !p.validGoal && p.published == [] && !threw;
  }
}
