/**
 * The controller object: the four mission fields the callbacks update in place,
 * and a log standing for the vehicle commands they issue. Each transition and
 * each callback is a method proved to leave the object exactly as the matching
 * FlightSpec function says.
 */
module Flyer {
  import opened FlightSpec

  class BackyardFlyer {
    var flightState: FlightState
    var targetPosition: Vec3
    var allWaypoints: seq<Vec3>
    var inMission: bool
    /** The commands issued so far, oldest first. */
    var commands: seq<Command>

    /** The object's fields as a FlightSpec mission value. */
    function Snapshot(): (m: Mission)
      reads this
    {
      Mission(flightState, targetPosition, allWaypoints, inMission, commands)
    }

    constructor ()
      ensures Snapshot() == Initial()
    {
      targetPosition := Vec3(0.0, 0.0, 0.0);
      allWaypoints := [];
      inMission := true;
      flightState := Manual;
      commands := [];
    }

    // -------------------------------------------------------------------------
    // Transitions

    method ArmingTransition(global: Vec3)
      modifies this
      ensures Snapshot() == FlightSpec.ArmingTransition(old(Snapshot()), global)
    {
      if global.x == 0.0 || global.y == 0.0 || global.z == 0.0 {
        return;
      }
      commands := commands + [TakeControl];
      commands := commands + [Arm];
      commands := commands + [SetHomePosition(global.x, global.y, global.z)];
      flightState := Arming;
    }

    method TakeoffTransition()
      modifies this
      ensures Snapshot() == FlightSpec.TakeoffTransition(old(Snapshot()))
    {
      targetPosition := targetPosition.(z := TargetAltitude);
      commands := commands + [TakeoffTo(targetPosition.z)];
      flightState := Takeoff;
    }

    method WaypointTransition()
      modifies this
      ensures Snapshot() == FlightSpec.WaypointTransition(old(Snapshot()))
    {
      var waypoint := targetPosition;
      commands := commands + [CmdPosition(waypoint.x, waypoint.y, waypoint.z, 0.0)];
      flightState := Waypoint;
    }

    method LandingTransition()
      modifies this
      ensures Snapshot() == FlightSpec.LandingTransition(old(Snapshot()))
    {
      commands := commands + [Land];
      flightState := Landing;
    }

    method DisarmingTransition()
      modifies this
      ensures Snapshot() == FlightSpec.DisarmingTransition(old(Snapshot()))
    {
      commands := commands + [Disarm];
      inMission := false;
      flightState := Disarming;
    }

    method ManualTransition()
      modifies this
      ensures Snapshot() == FlightSpec.ManualTransition(old(Snapshot()))
    {
      commands := commands + [ReleaseControl];
      commands := commands + [Stop];
      inMission := false;
      flightState := Manual;
    }

    // -------------------------------------------------------------------------
    // Telemetry callbacks

    method LocalPositionCallback(t: Telemetry)
      modifies this
      ensures Snapshot() == OnLocalPosition(old(Snapshot()), t)
    {
      if flightState == Takeoff {
        if IsTargetAltitudeClose(t.localPosition, targetPosition) {
          allWaypoints := CalculateBox();
          targetPosition := allWaypoints[0];
          allWaypoints := allWaypoints[1..];
          WaypointTransition();
        }
      }
      assert Snapshot() == TakeoffStep(old(Snapshot()), t.localPosition);
      if flightState == Waypoint {
        if IsTargetClose(t.localPosition, targetPosition) {
          if |allWaypoints| > 0 {
            targetPosition := allWaypoints[0];
            allWaypoints := allWaypoints[1..];
            WaypointTransition();
          } else {
            LandingTransition();
          }
        }
      }
    }

    method VelocityCallback(t: Telemetry)
      modifies this
      ensures Snapshot() == OnVelocity(old(Snapshot()), t)
    {
      if flightState == Landing {
        if t.localVelocity.z == 0.0 && IsAltitudeGroundLevel(t.localPosition) {
          DisarmingTransition();
        }
      }
    }

    method StateCallback(t: Telemetry)
      modifies this
      ensures Snapshot() == OnState(old(Snapshot()), t)
    {
      if flightState == Manual {
        ArmingTransition(t.globalPosition);
      }
      if flightState == Arming {
        TakeoffTransition();
      }
    }
  }
}
