/**
 * What the mission logic guarantees: the planner's box and the distance test,
 * the effect of one telemetry event in each state, and, over any sequence of
 * events starting from a freshly constructed controller, that the commands
 * issued follow one fixed script (arm, take off, the four corners in order,
 * land once, disarm).
 */
module MissionProperties {
  import opened FlightSpec

  // ---------------------------------------------------------------------------
  // Planner and thresholds

  /** Comparing the squared distance with 0.04 is comparing the norm with 0.2. */
  lemma TargetCloseMatchesNorm(local: Vec3, target: Vec3, norm: real)
    requires norm >= 0.0 && norm * norm == HorizontalDistanceSquared(local, target)
    ensures IsTargetClose(local, target) <==> norm < 0.2
  {
    if norm < 0.2 {
      assert norm * norm <= norm * 0.2;
    } else {
      assert norm * norm >= 0.2 * norm;
    }
  }

  /** The planner's tour is the only one: the box and its order are fixed. */
  lemma BoxTourIsUnique(s: seq<Vec3>)
    requires IsBoxTour(s)
    ensures s == CalculateBox()
  {
  }

  // ---------------------------------------------------------------------------
  // One state event

  /** Without a home position the state event does nothing, however often it comes. */
  lemma StateEventWithoutHomeIsNoOp(m: Mission, t: Telemetry)
    requires m.flightState == Manual && !HomeKnown(t.globalPosition)
    ensures OnState(m, t) == m
    ensures OnState(OnState(m, t), t) == OnState(m, t)
  {
  }

  /** In Manual with a home position one state event arms AND takes off. */
  lemma StateEventArmsAndTakesOff(m: Mission, t: Telemetry)
    requires m.flightState == Manual && HomeKnown(t.globalPosition)
    ensures var r := OnState(m, t);
      var g := t.globalPosition;
      && r.flightState == Takeoff
      && r.commands == m.commands + [TakeControl, Arm, SetHomePosition(g.x, g.y, g.z), TakeoffTo(TargetAltitude)]
      && r.targetPosition == Vec3(m.targetPosition.x, m.targetPosition.y, TargetAltitude)
      && r.allWaypoints == m.allWaypoints
      && r.inMission == m.inMission
  {
  }

  /** In Arming a state event takes off. */
  lemma StateEventInArmingTakesOff(m: Mission, t: Telemetry)
    requires m.flightState == Arming
    ensures var r := OnState(m, t);
      && r.flightState == Takeoff
      && r.commands == m.commands + [TakeoffTo(TargetAltitude)]
      && r.targetPosition == Vec3(m.targetPosition.x, m.targetPosition.y, TargetAltitude)
      && r.allWaypoints == m.allWaypoints
      && r.inMission == m.inMission
  {
  }

  lemma StateEventAfterTakeoffIsNoOp(m: Mission, t: Telemetry)
    requires m.flightState in {Takeoff, Waypoint, Landing, Disarming}
    ensures OnState(m, t) == m
  {
  }

  // ---------------------------------------------------------------------------
  // One local-position event

  /** Below 95% of the target altitude, a local-position event in Takeoff does nothing. */
  lemma TakeoffAltitudeNotReached(m: Mission, t: Telemetry)
    requires m.flightState == Takeoff && !IsTargetAltitudeClose(t.localPosition, m.targetPosition)
    ensures OnLocalPosition(m, t) == m
  {
  }

  /**
   * Reaching the altitude queues the box, flies to its first corner and leaves
   * the last three queued. The waypoint check runs again in the same call, so a
   * vehicle already within 0.2 of the first corner goes straight on to the second.
   */
  lemma TakeoffAltitudeReached(m: Mission, t: Telemetry)
    requires m.flightState == Takeoff && IsTargetAltitudeClose(t.localPosition, m.targetPosition)
    ensures var r := OnLocalPosition(m, t);
      && r.flightState == Waypoint
      && r.inMission == m.inMission
      && (!IsTargetClose(t.localPosition, Vec3(10.0, 0.0, 3.0)) ==>
            && r.targetPosition == Vec3(10.0, 0.0, 3.0)
            && r.allWaypoints == [Vec3(10.0, 10.0, 3.0), Vec3(0.0, 10.0, 3.0), Vec3(0.0, 0.0, 3.0)]
            && r.commands == m.commands + [CmdPosition(10.0, 0.0, 3.0, 0.0)])
      && (IsTargetClose(t.localPosition, Vec3(10.0, 0.0, 3.0)) ==>
            && r.targetPosition == Vec3(10.0, 10.0, 3.0)
            && r.allWaypoints == [Vec3(0.0, 10.0, 3.0), Vec3(0.0, 0.0, 3.0)]
            && r.commands == m.commands + [CmdPosition(10.0, 0.0, 3.0, 0.0), CmdPosition(10.0, 10.0, 3.0, 0.0)])
  {
  }

  lemma WaypointNotReached(m: Mission, t: Telemetry)
    requires m.flightState == Waypoint && !IsTargetClose(t.localPosition, m.targetPosition)
    ensures OnLocalPosition(m, t) == m
  {
  }

  /** At the target with corners left: the next corner is popped and flown to. */
  lemma WaypointReachedFliesToNext(m: Mission, t: Telemetry)
    requires m.flightState == Waypoint && IsTargetClose(t.localPosition, m.targetPosition)
    requires m.allWaypoints != []
    ensures var r := OnLocalPosition(m, t);
      && r.flightState == Waypoint
      && r.targetPosition == m.allWaypoints[0]
      && r.allWaypoints == m.allWaypoints[1..]
      && |r.allWaypoints| == |m.allWaypoints| - 1
      && r.commands == m.commands + [FlyTo(m.allWaypoints[0])]
      && r.inMission == m.inMission
  {
  }

  /** At the target with no corner left: land. */
  lemma WaypointReachedLastLands(m: Mission, t: Telemetry)
    requires m.flightState == Waypoint && IsTargetClose(t.localPosition, m.targetPosition)
    requires m.allWaypoints == []
    ensures var r := OnLocalPosition(m, t);
      && r == m.(flightState := Landing, commands := m.commands + [Land])
  {
  }

  /** In particular, local-position events never land again once landing has begun. */
  lemma LocalPositionOutsideFlightIsNoOp(m: Mission, t: Telemetry)
    requires m.flightState in {Manual, Arming, Landing, Disarming}
    ensures OnLocalPosition(m, t) == m
  {
  }

  // ---------------------------------------------------------------------------
  // One velocity event, and the forced reset

  lemma VelocityOutsideLandingIsNoOp(m: Mission, t: Telemetry)
    requires m.flightState != Landing
    ensures OnVelocity(m, t) == m
  {
  }

  /** In Landing, a velocity event disarms exactly when the vehicle is still and on the ground. */
  lemma DisarmsIffStillOnGround(m: Mission, t: Telemetry)
    requires m.flightState == Landing
    ensures var r := OnVelocity(m, t);
      && (r != m <==> t.localVelocity.z == 0.0 && Abs(t.localPosition.z) < 0.1)
      && (r != m ==> r == m.(commands := m.commands + [Disarm], inMission := false, flightState := Disarming))
  {
    var r := OnVelocity(m, t);
    if t.localVelocity.z == 0.0 && Abs(t.localPosition.z) < 0.1 {
      assert |r.commands| == |m.commands| + 1;
    }
  }

  /**
   * The forced reset releases control and stops, leaves the mission and returns
   * to Manual. It keeps the target and any queued corners.
   */
  lemma ManualTransitionResets(m: Mission)
    ensures var r := ManualTransition(m);
      && r.flightState == Manual
      && !r.inMission
      && r.commands == m.commands + [ReleaseControl, Stop]
      && r.targetPosition == m.targetPosition
      && r.allWaypoints == m.allWaypoints
  {
  }

  /**
   * After the reset, a state event with a home position takes off again. The
   * mission flag stays cleared and the target keeps its north/east components.
   */
  lemma StateEventAfterResetTakesOff(m: Mission, t: Telemetry)
    requires HomeKnown(t.globalPosition)
    ensures var r := OnState(ManualTransition(m), t);
      && r.flightState == Takeoff
      && !r.inMission
      && r.targetPosition == Vec3(m.targetPosition.x, m.targetPosition.y, TargetAltitude)
  {
  }

  // ---------------------------------------------------------------------------
  // Whole runs

  /** The complete command sequence of one mission, given the set-home command. */
  function Script(home: Command): (s: seq<Command>)
  {
    var b := CalculateBox();
    [TakeControl, Arm, home, TakeoffTo(TargetAltitude),
     FlyTo(b[0]), FlyTo(b[1]), FlyTo(b[2]), FlyTo(b[3]),
     Land, Disarm]
  }

  /** A set-home command the arming guard lets through. */
  predicate IsHomeCommand(c: Command)
  {
    c.SetHomePosition? && c.longitude != 0.0 && c.latitude != 0.0 && c.altitude != 0.0
  }

  /** The first n commands of the script, from the take-off command on. */
  predicate ScriptPrefix(log: seq<Command>, n: nat)
  {
    4 <= n <= 10 && |log| == n && IsHomeCommand(log[2]) && log == Script(log[2])[..n]
  }

  /**
   * The missions reachable from the constructor's state by telemetry events:
   * the phase fixes how much of the script has been issued, the target and the
   * queue.
   */
  predicate Reachable(m: Mission)
  {
    match m.flightState
    case Manual => m == Initial()
    case Arming => false
    case Takeoff =>
      ScriptPrefix(m.commands, 4) && m.targetPosition == Vec3(0.0, 0.0, TargetAltitude)
      && m.allWaypoints == [] && m.inMission
    case Waypoint =>
      5 <= |m.commands| <= 8 && ScriptPrefix(m.commands, |m.commands|)
      && m.targetPosition == CalculateBox()[|m.commands| - 5]
      && m.allWaypoints == CalculateBox()[|m.commands| - 4..] && m.inMission
    case Landing => ScriptPrefix(m.commands, 9) && m.allWaypoints == [] && m.inMission
    case Disarming => ScriptPrefix(m.commands, 10) && m.allWaypoints == [] && !m.inMission
  }

  /** The phase changes allowed in one event. */
  predicate Edge(a: FlightState, b: FlightState)
  {
    a == b || (a == Manual && b == Takeoff) || (a == Takeoff && b == Waypoint)
    || (a == Waypoint && b == Landing) || (a == Landing && b == Disarming)
  }

  lemma ScriptExtend(log: seq<Command>, n: nat, c: Command)
    requires ScriptPrefix(log, n) && n < 10 && c == Script(log[2])[n]
    ensures ScriptPrefix(log + [c], n + 1) && (log + [c])[2] == log[2]
  {
    var s := Script(log[2]);
    assert s[..n + 1] == s[..n] + [s[n]];
  }

  lemma StateEventPreservesReachable(m: Mission, t: Telemetry)
    requires Reachable(m)
    ensures var r := OnState(m, t);
      Reachable(r) && m.commands <= r.commands && Edge(m.flightState, r.flightState)
  {
    var r := OnState(m, t);
    if m.flightState == Manual && HomeKnown(t.globalPosition) {
      var g := t.globalPosition;
      assert r.commands == [TakeControl, Arm, SetHomePosition(g.x, g.y, g.z), TakeoffTo(TargetAltitude)];
      assert ScriptPrefix(r.commands, 4);
    }
  }

  lemma TakeoffStepPreservesReachable(m: Mission, local: Vec3)
    requires Reachable(m)
    ensures var r := TakeoffStep(m, local);
      Reachable(r) && m.commands <= r.commands && (r == m || (m.flightState == Takeoff && r.flightState == Waypoint))
  {
    var r := TakeoffStep(m, local);
    if m.flightState == Takeoff && IsTargetAltitudeClose(local, m.targetPosition) {
      ScriptExtend(m.commands, 4, FlyTo(CalculateBox()[0]));
      assert r.commands == m.commands + [FlyTo(CalculateBox()[0])];
    }
  }

  lemma WaypointStepPreservesReachable(m: Mission, local: Vec3)
    requires Reachable(m)
    ensures var r := WaypointStep(m, local);
      Reachable(r) && m.commands <= r.commands && (r == m || (m.flightState == Waypoint && r.flightState in {Waypoint, Landing}))
  {
    var r := WaypointStep(m, local);
    if m.flightState == Waypoint && IsTargetClose(local, m.targetPosition) {
      var n := |m.commands|;
      var b := CalculateBox();
      if |m.allWaypoints| > 0 {
        assert m.allWaypoints[0] == b[n - 4];
        ScriptExtend(m.commands, n, FlyTo(b[n - 4]));
        assert r.commands == m.commands + [FlyTo(b[n - 4])];
        assert r.allWaypoints == b[n - 3..];
      } else {
        assert n == 8;
        ScriptExtend(m.commands, n, Land);
        assert r.commands == m.commands + [Land];
      }
    }
  }

  lemma LocalPositionEventPreservesReachable(m: Mission, t: Telemetry)
    requires Reachable(m)
    ensures var r := OnLocalPosition(m, t);
      Reachable(r) && m.commands <= r.commands && Edge(m.flightState, r.flightState)
  {
    var mid := TakeoffStep(m, t.localPosition);
    TakeoffStepPreservesReachable(m, t.localPosition);
    WaypointStepPreservesReachable(mid, t.localPosition);
    if mid != m {
      // Right after take-off three corners are queued, so the same call cannot land.
      assert |mid.allWaypoints| == 3;
    }
  }

  lemma VelocityEventPreservesReachable(m: Mission, t: Telemetry)
    requires Reachable(m)
    ensures var r := OnVelocity(m, t);
      Reachable(r) && m.commands <= r.commands && Edge(m.flightState, r.flightState)
  {
    var r := OnVelocity(m, t);
    if r != m {
      ScriptExtend(m.commands, 9, Disarm);
      assert r.commands == m.commands + [Disarm];
    }
  }

  lemma {:induction false} RunPreservesReachable(m: Mission, events: seq<Event>)
    requires Reachable(m)
    ensures Reachable(Run(m, events)) && m.commands <= Run(m, events).commands
    decreases |events|
  {
    if events != [] {
      var next := Dispatch(m, events[0]);
      DispatchPreservesReachable(m, events[0]);
      RunPreservesReachable(next, events[1..]);
      assert Run(m, events) == Run(next, events[1..]);
    }
  }

  lemma DispatchPreservesReachable(m: Mission, e: Event)
    requires Reachable(m)
    ensures var r := Dispatch(m, e);
      Reachable(r) && m.commands <= r.commands && Edge(m.flightState, r.flightState)
  {
    match e
    case StateEvent(t) => StateEventPreservesReachable(m, t);
    case LocalPositionEvent(t) => LocalPositionEventPreservesReachable(m, t);
    case VelocityEvent(t) => VelocityEventPreservesReachable(m, t);
  }

  /** Every step of every run from the constructed state follows an edge of the mission. */
  lemma EdgeAlongRun(events: seq<Event>, k: nat)
    requires k < |events|
    ensures Edge(Run(Initial(), events[..k]).flightState, Run(Initial(), events[..k + 1]).flightState)
  {
    var before := Run(Initial(), events[..k]);
    assert events[..k + 1] == events[..k] + [events[k]];
    RunAppend(Initial(), events[..k], [events[k]]);
    assert Run(before, [events[k]]) == Dispatch(before, events[k]);
    RunPreservesReachable(Initial(), events[..k]);
    DispatchPreservesReachable(before, events[k]);
  }

  /** From the constructed state, the command log is always a prefix of the script. */
  lemma CommandsFollowScript(events: seq<Event>)
    ensures var log := Run(Initial(), events).commands;
      log == [] || (4 <= |log| <= 10 && IsHomeCommand(log[2]) && log == Script(log[2])[..|log|])
  {
    RunPreservesReachable(Initial(), events);
  }

  /** Every fly-to command targets the box corner its position in the script calls for. */
  lemma FlyToTargetsAreBoxCorners(events: seq<Event>)
    ensures var log := Run(Initial(), events).commands;
      forall i :: 0 <= i < |log| && log[i].CmdPosition? ==> 4 <= i < 8 && log[i] == FlyTo(CalculateBox()[i - 4])
  {
    CommandsFollowScript(events);
    var log := Run(Initial(), events).commands;
    forall i | 0 <= i < |log| && log[i].CmdPosition?
      ensures 4 <= i < 8 && log[i] == FlyTo(CalculateBox()[i - 4])
    {
      assert log[i] == Script(log[2])[i];
    }
  }

  /** `land` is issued at most once: only as the ninth command. */
  lemma LandIssuedAtMostOnce(events: seq<Event>)
    ensures var log := Run(Initial(), events).commands;
      forall i :: 0 <= i < |log| && log[i] == Land ==> i == 8
  {
    CommandsFollowScript(events);
    var log := Run(Initial(), events).commands;
    forall i | 0 <= i < |log| && log[i] == Land
      ensures i == 8
    {
      assert log[i] == Script(log[2])[i];
    }
  }

  /** The waypoint queue is non-empty only in the Waypoint phase. */
  lemma WaypointsQueuedOnlyInWaypoint(events: seq<Event>)
    ensures var r := Run(Initial(), events);
      r.allWaypoints != [] ==> r.flightState == Waypoint
  {
    RunPreservesReachable(Initial(), events);
  }

  lemma {:induction false} RunAppend(m: Mission, first: seq<Event>, second: seq<Event>)
    ensures Run(m, first + second) == Run(Run(m, first), second)
    decreases |first|
  {
    if first != [] {
      assert (first + second)[1..] == first[1..] + second;
      RunAppend(Dispatch(m, first[0]), first[1..], second);
    } else {
      assert first + second == second;
    }
  }

  lemma RunFrom(m: Mission, events: seq<Event>, k: nat)
    requires k < |events|
    ensures Run(m, events[k..]) == Run(Dispatch(m, events[k]), events[k + 1..])
  {
    assert events[k..][1..] == events[k + 1..];
  }

  /** The example flight, part one: no home yet, then arm and climb to 2.0 and 2.9. */
  function ExampleClimb(home: Vec3): (events: seq<Event>)
  {
    var still := Vec3(0.0, 0.0, 0.0);
    [ StateEvent(Telemetry(still, still, Vec3(0.0, 0.0, 0.0))),
      StateEvent(Telemetry(still, still, home)),
      LocalPositionEvent(Telemetry(Vec3(0.0, 0.0, -2.0), Vec3(0.0, 0.0, -1.0), home)),
      LocalPositionEvent(Telemetry(Vec3(0.0, 0.0, -2.9), Vec3(0.0, 0.0, -0.5), home)) ]
  }

  /** Part two: arrive within 0.2 of each corner in turn. */
  function ExampleBox(home: Vec3): (events: seq<Event>)
  {
    var still := Vec3(0.0, 0.0, 0.0);
    [ LocalPositionEvent(Telemetry(Vec3(10.0, 0.1, -3.0), still, home)),
      LocalPositionEvent(Telemetry(Vec3(9.9, 10.0, -3.0), still, home)),
      LocalPositionEvent(Telemetry(Vec3(0.0, 10.0, -3.0), still, home)),
      LocalPositionEvent(Telemetry(Vec3(0.1, 0.1, -3.0), still, home)) ]
  }

  /** Part three: settle on the ground. */
  function ExampleTouchdown(home: Vec3): (events: seq<Event>)
  {
    [VelocityEvent(Telemetry(Vec3(0.0, 0.0, -0.05), Vec3(0.0, 0.0, 0.0), home))]
  }

  function ExampleFlight(home: Vec3): (events: seq<Event>)
  {
    ExampleClimb(home) + ExampleBox(home) + ExampleTouchdown(home)
  }

  const ExampleHome: Vec3 := Vec3(-122.1, 37.4, 100.0)

  /** The script the example flight issues: set home to ExampleHome. */
  function ExampleScript(): (s: seq<Command>)
  {
    Script(SetHomePosition(ExampleHome.x, ExampleHome.y, ExampleHome.z))
  }

  lemma ExampleClimbReachesFirstCorner()
    ensures Run(Initial(), ExampleClimb(ExampleHome))
         == Mission(Waypoint, CalculateBox()[0], CalculateBox()[1..], true, ExampleScript()[..5])
  {
    var evs := ExampleClimb(ExampleHome);
    var m1 := Dispatch(Initial(), evs[0]);
    assert m1 == Initial();
    var m2 := Dispatch(m1, evs[1]);
    assert m2 == Mission(Takeoff, Vec3(0.0, 0.0, 3.0), [], true, ExampleScript()[..4]);
    var m3 := Dispatch(m2, evs[2]);
    assert m3 == m2;
    var m4 := Dispatch(m3, evs[3]);
    assert m4 == Mission(Waypoint, CalculateBox()[0], CalculateBox()[1..], true, ExampleScript()[..5]);
    RunFrom(Initial(), evs, 0);
    RunFrom(m1, evs, 1);
    RunFrom(m2, evs, 2);
    RunFrom(m3, evs, 3);
    assert evs[0..] == evs && evs[4..] == [];
  }

  lemma ExampleBoxLands()
    ensures Run(Mission(Waypoint, CalculateBox()[0], CalculateBox()[1..], true, ExampleScript()[..5]), ExampleBox(ExampleHome))
         == Mission(Landing, CalculateBox()[3], [], true, ExampleScript()[..9])
  {
    var evs := ExampleBox(ExampleHome);
    var b := CalculateBox();
    var m0 := Mission(Waypoint, b[0], b[1..], true, ExampleScript()[..5]);
    var m1 := Dispatch(m0, evs[0]);
    assert m1 == Mission(Waypoint, b[1], b[2..], true, ExampleScript()[..6]);
    var m2 := Dispatch(m1, evs[1]);
    assert m2 == Mission(Waypoint, b[2], b[3..], true, ExampleScript()[..7]);
    var m3 := Dispatch(m2, evs[2]);
    assert m3 == Mission(Waypoint, b[3], [], true, ExampleScript()[..8]);
    var m4 := Dispatch(m3, evs[3]);
    assert m4 == Mission(Landing, b[3], [], true, ExampleScript()[..9]);
    RunFrom(m0, evs, 0);
    RunFrom(m1, evs, 1);
    RunFrom(m2, evs, 2);
    RunFrom(m3, evs, 3);
    assert evs[0..] == evs && evs[4..] == [];
  }

  /**
   * A full mission: a state event before the home position is known changes
   * nothing, the next one arms and takes off, a climb to 2.0 is not enough, 2.9
   * is, and the box is flown, landed and disarmed with the whole script issued.
   */
  lemma CompleteMission()
    ensures var r := Run(Initial(), ExampleFlight(ExampleHome));
      && r.flightState == Disarming && !r.inMission
      && r.commands == Script(SetHomePosition(ExampleHome.x, ExampleHome.y, ExampleHome.z))
  {
    var climb, box, touchdown := ExampleClimb(ExampleHome), ExampleBox(ExampleHome), ExampleTouchdown(ExampleHome);
    var b := CalculateBox();
    var landed := Mission(Landing, b[3], [], true, ExampleScript()[..9]);
    assert Run(Initial(), climb + box) == landed by {
      RunAppend(Initial(), climb, box);
      ExampleClimbReachesFirstCorner();
      ExampleBoxLands();
    }
    assert Run(landed, touchdown) == landed.(commands := ExampleScript(), inMission := false, flightState := Disarming) by {
      assert ExampleScript()[..9] + [Disarm] == ExampleScript();
    }
    RunAppend(Initial(), climb + box, touchdown);
  }
}
