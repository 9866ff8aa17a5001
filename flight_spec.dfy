/**
 * The mission logic of the backyard flyer as pure functions: the flight states,
 * the telemetry a callback reads, the vehicle commands it issues, the waypoint
 * planner, the three threshold predicates, and one function per transition and
 * per telemetry callback. The class in backyard_flyer.dfy is proved against
 * these functions; mission_properties.dfy proves what they guarantee.
 */
module FlightSpec {

  /** The six mission phases (`States` in the source). */
  datatype FlightState = Manual | Arming | Takeoff | Waypoint | Landing | Disarming

  /**
   * Three real coordinates, indexed 0, 1, 2 in the source. The frame depends on
   * the use: local position is (north, east, down), a target or waypoint is
   * (north, east, altitude), global position is (longitude, latitude, altitude).
   */
  datatype Vec3 = Vec3(x: real, y: real, z: real)

  /** The telemetry fields a callback reads: the latest values the connection delivered. */
  datatype Telemetry = Telemetry(localPosition: Vec3, localVelocity: Vec3, globalPosition: Vec3)

  /** One call into the vehicle-command interface, recorded in the command log. */
  datatype Command =
    | TakeControl
    | ReleaseControl
    | Arm
    | Disarm
    | SetHomePosition(longitude: real, latitude: real, altitude: real)
    | TakeoffTo(altitude: real)
    | CmdPosition(north: real, east: real, altitude: real, heading: real)
    | Land
    | Stop

  /** Cruise altitude of the mission. */
  const TargetAltitude: real := 3.0

  /** Side length of the box. */
  const BoxSide: real := 10.0

  function Abs(v: real): (r: real)
    ensures r >= 0.0 && (r == v || r == -v)
  {
    if v < 0.0 then -v else v
  }

  /** Squared distance between the north/east parts of two positions. */
  function HorizontalDistanceSquared(a: Vec3, b: Vec3): (d: real)
    ensures d >= 0.0
  {
    (a.x - b.x) * (a.x - b.x) + (a.y - b.y) * (a.y - b.y)
  }

  /** Squaring keeps the order of absolute values against a non-negative bound. */
  lemma SquareCompare(v: real, bound: real)
    requires bound >= 0.0
    ensures Abs(v) < bound ==> v * v < bound * bound
    ensures Abs(v) >= bound ==> v * v >= bound * bound
  {
    var a := Abs(v);
    assert v * v == a * a;
    if a < bound {
      calc {
        v * v;
      ==
        a * a;
      <= { assert a >= 0.0; }
        a * bound;
      < { assert bound > 0.0; }
        bound * bound;
      }
    } else {
      calc {
        v * v;
      ==
        a * a;
      >= { assert a - bound >= 0.0; assert a * (a - bound) >= 0.0; }
        a * bound;
      >= { assert (a - bound) * bound >= 0.0; }
        bound * bound;
      }
    }
  }

  /**
   * The horizontal distance to the target is below 0.2. The source compares the
   * Euclidean norm; comparing its square with 0.04 is the same test
   * (MissionProperties.TargetCloseMatchesNorm).
   */
  predicate IsTargetClose(local: Vec3, target: Vec3)
    ensures IsTargetClose(local, target) ==>
      Abs(local.x - target.x) < 0.2 && Abs(local.y - target.y) < 0.2
    ensures Abs(local.x - target.x) < 0.1 && Abs(local.y - target.y) < 0.1 ==>
      IsTargetClose(local, target)
  {
    var dn, de := local.x - target.x, local.y - target.y;
    SquareCompare(dn, 0.1); SquareCompare(de, 0.1);
    SquareCompare(dn, 0.2); SquareCompare(de, 0.2);
    HorizontalDistanceSquared(local, target) < 0.04
  }

  /** The altitude (minus the local down coordinate) reaches 95% of the target altitude. */
  predicate IsTargetAltitudeClose(local: Vec3, target: Vec3)
    ensures target.z == TargetAltitude ==> (IsTargetAltitudeClose(local, target) <==> local.z <= -2.85)
  {
    -1.0 * local.z >= target.z * 0.95
  }

  /** The vehicle is within 0.1 of the ground. */
  predicate IsAltitudeGroundLevel(local: Vec3)
    ensures IsAltitudeGroundLevel(local) <==> -0.1 < local.z < 0.1
  {
    Abs(local.z) < 0.1
  }

  /** The arming guard: no component of the global position is zero. */
  predicate HomeKnown(global: Vec3)
    ensures !HomeKnown(global) <==> 0.0 in {global.x, global.y, global.z}
  {
    global.x != 0.0 && global.y != 0.0 && global.z != 0.0
  }

  /** Two corners one box side apart along exactly one horizontal axis. */
  predicate OneSideApart(a: Vec3, b: Vec3)
  {
    (a.x == b.x && Abs(a.y - b.y) == BoxSide) || (a.y == b.y && Abs(a.x - b.x) == BoxSide)
  }

  /**
   * A tour of the square with corners at 0 and BoxSide on both axes, at cruise
   * altitude: four distinct corners, each one side from the next, leaving home
   * northward and ending above home.
   */
  predicate IsBoxTour(s: seq<Vec3>)
  {
    && |s| == 4
    && (forall i :: 0 <= i < |s| ==> s[i].z == TargetAltitude)
    && (forall i :: 0 <= i < |s| ==> (s[i].x == 0.0 || s[i].x == BoxSide) && (s[i].y == 0.0 || s[i].y == BoxSide))
    && (forall i, j :: 0 <= i < j < |s| ==> s[i] != s[j])
    && (forall i :: 0 <= i < |s| - 1 ==> OneSideApart(s[i], s[i + 1]))
    && s[0].x == BoxSide && s[0].y == 0.0
    && s[3].x == 0.0 && s[3].y == 0.0
  }

  /** The waypoint planner: the four corners of the box, in flying order. */
  function CalculateBox(): (box: seq<Vec3>)
    ensures IsBoxTour(box)
  {
    [ Vec3(10.0, 0.0, TargetAltitude),
      Vec3(10.0, 10.0, TargetAltitude),
      Vec3(0.0, 10.0, TargetAltitude),
      Vec3(0.0, 0.0, TargetAltitude) ]
  }

  /** The command that flies to a waypoint with heading 0. */
  function FlyTo(p: Vec3): (c: Command)
  {
    CmdPosition(p.x, p.y, p.z, 0.0)
  }

  /** The fields the callbacks read and write, plus the log of issued commands. */
  datatype Mission = Mission(
    flightState: FlightState,
    targetPosition: Vec3,
    allWaypoints: seq<Vec3>,
    inMission: bool,
    commands: seq<Command>)

  /** The mission as the constructor leaves it. */
  function Initial(): (m: Mission)
  {
    Mission(Manual, Vec3(0.0, 0.0, 0.0), [], true, [])
  }

  // ---------------------------------------------------------------------------
  // Transitions

  function ArmingTransition(m: Mission, global: Vec3): (r: Mission)
  {
    if !HomeKnown(global) then m
    else m.(commands := m.commands + [TakeControl, Arm, SetHomePosition(global.x, global.y, global.z)],
            flightState := Arming)
  }

  /** Only the altitude component of the target is written. */
  function TakeoffTransition(m: Mission): (r: Mission)
  {
    m.(targetPosition := m.targetPosition.(z := TargetAltitude),
       commands := m.commands + [TakeoffTo(TargetAltitude)],
       flightState := Takeoff)
  }

  function WaypointTransition(m: Mission): (r: Mission)
  {
    m.(commands := m.commands + [FlyTo(m.targetPosition)], flightState := Waypoint)
  }

  function LandingTransition(m: Mission): (r: Mission)
  {
    m.(commands := m.commands + [Land], flightState := Landing)
  }

  function DisarmingTransition(m: Mission): (r: Mission)
  {
    m.(commands := m.commands + [Disarm], inMission := false, flightState := Disarming)
  }

  function ManualTransition(m: Mission): (r: Mission)
  {
    m.(commands := m.commands + [ReleaseControl, Stop], inMission := false, flightState := Manual)
  }

  // ---------------------------------------------------------------------------
  // Callbacks. Each runs its guarded steps in sequence; a later step sees the
  // state an earlier step of the same call left behind.

  /** First half of the local-position callback: takeoff altitude reached. */
  function TakeoffStep(m: Mission, local: Vec3): (r: Mission)
  {
    if m.flightState == Takeoff && IsTargetAltitudeClose(local, m.targetPosition) then
      var box := CalculateBox();
      WaypointTransition(m.(allWaypoints := box[1..], targetPosition := box[0]))
    else m
  }

  /** Second half of the local-position callback: current waypoint reached. */
  function WaypointStep(m: Mission, local: Vec3): (r: Mission)
  {
    if m.flightState == Waypoint && IsTargetClose(local, m.targetPosition) then
      if |m.allWaypoints| > 0 then
        WaypointTransition(m.(targetPosition := m.allWaypoints[0], allWaypoints := m.allWaypoints[1..]))
      else LandingTransition(m)
    else m
  }

  function OnLocalPosition(m: Mission, t: Telemetry): (r: Mission)
  {
    WaypointStep(TakeoffStep(m, t.localPosition), t.localPosition)
  }

  function OnVelocity(m: Mission, t: Telemetry): (r: Mission)
  {
    if m.flightState == Landing && t.localVelocity.z == 0.0 && IsAltitudeGroundLevel(t.localPosition)
    then DisarmingTransition(m)
    else m
  }

  function OnState(m: Mission, t: Telemetry): (r: Mission)
  {
    var armed := if m.flightState == Manual then ArmingTransition(m, t.globalPosition) else m;
    if armed.flightState == Arming then TakeoffTransition(armed) else armed
  }

  // ---------------------------------------------------------------------------
  // Sequences of telemetry events

  /** A telemetry message: which callback it triggers, and the telemetry at that moment. */
  datatype Event =
    | StateEvent(telemetry: Telemetry)
    | LocalPositionEvent(telemetry: Telemetry)
    | VelocityEvent(telemetry: Telemetry)

  function Dispatch(m: Mission, e: Event): (r: Mission)
  {
    match e
    case StateEvent(t) => OnState(m, t)
    case LocalPositionEvent(t) => OnLocalPosition(m, t)
    case VelocityEvent(t) => OnVelocity(m, t)
  }

  /** The mission after the events, handled one at a time in order. */
  function Run(m: Mission, events: seq<Event>): (r: Mission)
    decreases |events|
  {
    if events == [] then m else Run(Dispatch(m, events[0]), events[1..])
  }
}
