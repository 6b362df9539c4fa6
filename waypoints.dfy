/** The waypoint builder: turns the world-frame path produced by tracing
    (goal first, start last) into a single lane of directed waypoints, start
    first. */
module WaypointBuilder {
  import opened Messages

  /** A waypoint's orientation: the all-zero quaternion of a freshly built
      message, or the quaternion built from a yaw angle. */
  datatype Orientation = Unset | FromYaw(yaw: real)

  datatype Waypoint = Waypoint(x: real, y: real, z: real, orientation: Orientation, speed: real,
                               changeFlag: int, steeringState: int, accelState: int,
                               stopState: int, eventState: int)

  datatype Lane = Lane(frameId: string, waypoints: seq<Waypoint>)

  datatype LaneArray = LaneArray(lanes: seq<Lane>)

  /** What building the lane ends in: the lane array, or the std::out_of_range
      that vector::at throws for an index past the end. */
  datatype Outcome = Built(lanes: LaneArray) | OutOfRange

  /** Out-of-plane marker expected by the downstream safety check. */
  const SentinelZ: real := -3893.38

  /** Cruise speed of every waypoint, in km/h. */
  const CruiseKmph: real := 10.0

  /** size_t arithmetic wraps modulo 2^64. */
  const SizeModulus: int := 0x1_0000_0000_0000_0000

  /** Largest value of the signed 32-bit counter `count`. */
  const IntMax: int := 0x7fff_ffff

  /** Conversion of a signed value to size_t, for the values the index
      arithmetic produces (at least -1 and below 2^64). */
  function ToSizeT(v: int): (r: int)
    requires -1 <= v < SizeModulus
    ensures 0 <= r < SizeModulus
    ensures r == if v < 0 then SizeModulus - 1 else v
  {
    v % SizeModulus
  }

  /** km/h to m/s; multiplying back by 3.6 recovers the speed in km/h. */
  function Kmph2Mps(v: real): (r: real)
    ensures r * 3.6 == v
    ensures v > 0.0 ==> 0.0 < r < v
  {
    (v * 1000.0) / (60.0 * 60.0)
  }

  /** The waypoint built for one path node before any orientation is set. */
  function NewWaypoint(n: Node3D): Waypoint
  {
    Waypoint(n.x, n.y, SentinelZ, Unset, Kmph2Mps(CruiseKmph), 0, 0, 0, 0, 0)
  }

  /** One new waypoint per node, in node order. */
  function NewWaypoints(nodes: seq<Node3D>): (ws: seq<Waypoint>)
    ensures |ws| == |nodes|
  {
    seq(|nodes|, i requires 0 <= i < |nodes| => NewWaypoint(nodes[i]))
  }

  /** The sequence in reverse order. */
  function Rev<T>(s: seq<T>): (r: seq<T>)
    ensures |r| == |s|
  {
    if s == [] then [] else [s[|s| - 1]] + Rev(s[..|s| - 1])
  }

  lemma {:induction false} RevAt<T>(s: seq<T>, k: nat)
    requires k < |s|
    ensures Rev(s)[k] == s[|s| - 1 - k]
  {
    if k > 0 {
      RevAt(s[..|s| - 1], k - 1);
    }
  }

  /** Bearing from one waypoint to the next. */
  function Bearing(from: Waypoint, to: Waypoint, atan2: (real, real) -> real): real
  {
    atan2(to.y - from.y, to.x - from.x)
  }

  /** Reference definition of the heading pass, pair by pair from the front:
      each waypoint faces its successor, and the last two share the bearing
      from the second-to-last to the last. */
  function Orient(ws: seq<Waypoint>, atan2: (real, real) -> real): (r: seq<Waypoint>)
    requires |ws| != 1
    ensures |r| == |ws|
    decreases |ws|
  {
    if |ws| == 0 then []
    else if |ws| == 2 then
      var h := FromYaw(Bearing(ws[0], ws[1], atan2));
      [ws[0].(orientation := h), ws[1].(orientation := h)]
    else
      [ws[0].(orientation := FromYaw(Bearing(ws[0], ws[1], atan2)))] + Orient(ws[1..], atan2)
  }

  /** Waypoint i of a sequence of at least two with its heading set: toward
      waypoint i + 1, or for the last one, the bearing of its predecessor. */
  function OrientedAt(ws: seq<Waypoint>, atan2: (real, real) -> real, i: nat): Waypoint
    requires |ws| >= 2 && i < |ws|
  {
    ws[i].(orientation := FromYaw(if i < |ws| - 1 then Bearing(ws[i], ws[i + 1], atan2)
                                  else Bearing(ws[i - 1], ws[i], atan2)))
  }

  /** Closed form of the heading pass: only orientations change; waypoint i
      below the last faces waypoint i + 1, and the last one has the bearing
      of its predecessor. */
  lemma {:induction false} OrientAt(ws: seq<Waypoint>, atan2: (real, real) -> real, i: nat)
    requires |ws| >= 2 && i < |ws|
    ensures Orient(ws, atan2)[i] == OrientedAt(ws, atan2, i)
  {
    if |ws| > 2 && i > 0 {
      OrientAt(ws[1..], atan2, i - 1);
    }
  }

  /** Reference definition of the lane built from a traced path: one lane in
      frame "map" holding the reversed, oriented waypoints, or std::out_of_range
      when the path has exactly one node. */
  function LaneFor(nodes: seq<Node3D>, atan2: (real, real) -> real): Outcome
  {
    if |nodes| == 1 then OutOfRange
    else Built(LaneArray([Lane("map", Orient(Rev(NewWaypoints(nodes)), atan2))]))
  }

  /** Shape of the result: it is built exactly when the path does not have one
      node; then there is a single lane in frame "map" with one waypoint per
      node, in reverse node order, each at the node's position with the
      sentinel z, the cruise speed and all flags zero. */
  lemma LaneForShape(nodes: seq<Node3D>, atan2: (real, real) -> real)
    ensures LaneFor(nodes, atan2).Built? <==> |nodes| != 1
    ensures LaneFor(nodes, atan2).Built? ==>
              var lanes := LaneFor(nodes, atan2).lanes.lanes;
              |lanes| == 1 && lanes[0].frameId == "map" &&
              |lanes[0].waypoints| == |nodes| &&
              forall i :: 0 <= i < |nodes| ==>
                var w := lanes[0].waypoints[i];
                var n := nodes[|nodes| - 1 - i];
                w.x == n.x && w.y == n.y && w.z == SentinelZ &&
                w.speed == Kmph2Mps(CruiseKmph) && w.speed == 25.0 / 9.0 &&
                w.changeFlag == 0 && w.steeringState == 0 && w.accelState == 0 &&
                w.stopState == 0 && w.eventState == 0
  {
    if |nodes| != 1 {
      var ws := NewWaypoints(nodes);
      var wps := Orient(Rev(ws), atan2);
      forall i | 0 <= i < |nodes|
        ensures wps[i].x == nodes[|nodes| - 1 - i].x && wps[i].y == nodes[|nodes| - 1 - i].y
        ensures wps[i].z == SentinelZ && wps[i].speed == Kmph2Mps(CruiseKmph)
        ensures wps[i].changeFlag == 0 && wps[i].steeringState == 0 && wps[i].accelState == 0
        ensures wps[i].stopState == 0 && wps[i].eventState == 0
      {
        RevAt(ws, i);
        OrientAt(Rev(ws), atan2, i);
      }
    }
  }

  /** Headings of a built lane of at least two waypoints: every waypoint but
      the last faces its successor, and the last copies its predecessor's
      orientation. */
  lemma LaneForHeadings(nodes: seq<Node3D>, atan2: (real, real) -> real)
    requires |nodes| >= 2
    ensures LaneFor(nodes, atan2).Built?
    ensures var wps := LaneFor(nodes, atan2).lanes.lanes[0].waypoints;
            |wps| == |nodes| &&
            (forall i :: 0 <= i < |wps| - 1 ==>
               wps[i].orientation == FromYaw(atan2(wps[i + 1].y - wps[i].y, wps[i + 1].x - wps[i].x))) &&
            wps[|wps| - 1].orientation == wps[|wps| - 2].orientation
  {
    var rev := Rev(NewWaypoints(nodes));
    assert LaneFor(nodes, atan2).lanes.lanes[0].waypoints == Orient(rev, atan2);
    OrientHeadings(rev, atan2);
  }

  lemma {:induction false} OrientHeadings(ws: seq<Waypoint>, atan2: (real, real) -> real)
    requires |ws| >= 2
    ensures var wps := Orient(ws, atan2);
            (forall i :: 0 <= i < |wps| - 1 ==>
               wps[i].orientation == FromYaw(atan2(wps[i + 1].y - wps[i].y, wps[i + 1].x - wps[i].x))) &&
            wps[|wps| - 1].orientation == wps[|wps| - 2].orientation
  {
    var wps := Orient(ws, atan2);
    forall k | 0 <= k < |ws|
      ensures wps[k] == OrientedAt(ws, atan2, k)
    {
      OrientAt(ws, atan2, k);
    }
    HeadingsOfClosedForm(ws, wps, atan2);
  }

  lemma HeadingsOfClosedForm(ws: seq<Waypoint>, wps: seq<Waypoint>, atan2: (real, real) -> real)
    requires |ws| >= 2 && |wps| == |ws|
    requires forall k :: 0 <= k < |ws| ==> wps[k] == OrientedAt(ws, atan2, k)
    ensures forall i :: 0 <= i < |wps| - 1 ==>
              wps[i].orientation == FromYaw(atan2(wps[i + 1].y - wps[i].y, wps[i + 1].x - wps[i].x))
    ensures wps[|wps| - 1].orientation == wps[|wps| - 2].orientation
  {
    forall i | 0 <= i < |wps| - 1
      ensures wps[i].orientation == FromYaw(atan2(wps[i + 1].y - wps[i].y, wps[i + 1].x - wps[i].x))
    {
      assert wps[i] == OrientedAt(ws, atan2, i) && wps[i + 1] == OrientedAt(ws, atan2, i + 1);
    }
    var n := |wps|;
    assert wps[n - 1] == OrientedAt(ws, atan2, n - 1) && wps[n - 2] == OrientedAt(ws, atan2, n - 2);
  }

  /** std::reverse on the waypoint vector. */
  method ReverseInPlace<T>(a: array<T>)
    modifies a
    ensures a[..] == Rev(old(a[..]))
  {
    ghost var orig := a[..];
    var lo, hi := 0, a.Length;
    while lo + 1 < hi
      invariant 0 <= lo && lo + hi == a.Length && (lo <= hi || lo == hi + 1)
      invariant forall k :: 0 <= k < lo ==> a[k] == orig[a.Length - 1 - k] && a[a.Length - 1 - k] == orig[k]
      invariant forall k :: lo <= k < hi ==> a[k] == orig[k]
    {
      a[lo], a[hi - 1] := a[hi - 1], a[lo];
      lo, hi := lo + 1, hi - 1;
    }
    forall k | 0 <= k < a.Length
      ensures a[k] == Rev(orig)[k]
    {
      RevAt(orig, k);
    }
  }

  /** The heading pass of createWayPoint over the reversed vector: index i
      below `last` faces index i + 1, index `last` copies index i - 1. `last`
      is `count - 1` converted to size_t, and the predecessor of index 0 is
      0 - 1 in size_t, which vector::at rejects. Reports whether that throw
      happened; otherwise the vector holds the reference headings. */
  method OrientInPlace(wps: array<Waypoint>, count: int, atan2: (real, real) -> real) returns (threw: bool)
    requires count == wps.Length <= IntMax
    modifies wps
    ensures threw <==> wps.Length == 1
    ensures !threw ==> wps[..] == Orient(old(wps[..]), atan2)
  {
    ghost var orig := wps[..];
    var n := wps.Length;
    var last := ToSizeT(count - 1);
    var i := 0;
    while i < n
      invariant 0 <= i <= n == |orig|
      invariant n == 1 ==> i == 0
      invariant forall k :: 0 <= k < i ==> wps[k] == OrientedAt(orig, atan2, k)
      invariant forall k :: i <= k < n ==> wps[k] == orig[k]
    {
      if i != last {
        var yaw := atan2(wps[i + 1].y - wps[i].y, wps[i + 1].x - wps[i].x);
        wps[i] := wps[i].(orientation := FromYaw(yaw));
      } else {
        var prev := ToSizeT(i - 1);
        if prev >= n {
          return true;
        }
        wps[i] := wps[i].(orientation := wps[prev].orientation);
      }
      i := i + 1;
    }
    forall k | 0 <= k < n
      ensures wps[k] == Orient(orig, atan2)[k]
    {
      OrientAt(orig, atan2, k);
    }
    threw := false;
  }

  /** createWayPoint: one waypoint per node, the vector reversed in place,
      then the heading pass; the result is the reference lane. */
  method CreateWayPoint(nodes: seq<Node3D>, atan2: (real, real) -> real) returns (r: Outcome)
    requires |nodes| <= IntMax
    ensures r == LaneFor(nodes, atan2)
  {
    var wps := new Waypoint[|nodes|];
    var count := 0;
    var i := 0;
    while i < |nodes|
      invariant 0 <= i <= |nodes| && count == i
      invariant forall k :: 0 <= k < i ==> wps[k] == NewWaypoint(nodes[k])
    {
      count := count + 1;
      wps[i] := NewWaypoint(nodes[i]);
      i := i + 1;
    }
    assert wps[..] == NewWaypoints(nodes);
    ReverseInPlace(wps);
    var threw := OrientInPlace(wps, count, atan2);
    if threw {
      return OutOfRange;
    }
    r := Built(LaneArray([Lane("map", wps[..])]));
  }
}
