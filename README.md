# Backyard flyer mission state machine in Dafny

This project models the mission logic of `BackyardFlyer` in `backyard_flyer.py`. The
controller flies one fixed box. It arms, takes off to 3.0, visits four corners, lands
and disarms. Three telemetry callbacks drive it: state, local position and local
velocity. Each callback looks at the current flight state, may pop the waypoint queue
from the front, and calls a transition method. That method issues vehicle commands and
updates the mission fields.

Files:

- `flight_spec.dfy` (module `FlightSpec`) holds the data model: `FlightState`, `Vec3`,
  `Telemetry`, `Command` and `Mission`. It also holds the waypoint planner
  `CalculateBox`, the three threshold predicates and the arming guard, and one pure
  function per transition and per callback. `Run` folds a sequence of telemetry events
  over the mission.
- `backyard_flyer.dfy` (module `Flyer`) holds class `BackyardFlyer`. Its fields are
  `flightState`, `targetPosition`, `allWaypoints` and `inMission`, plus a `commands`
  log. The log stands for the calls into the vehicle-command interface (`take_control`,
  `arm`, `set_home_position`, `takeoff`, `cmd_position`, `land`, `disarm`,
  `release_control`, `stop`). Each method updates the fields in place. Each is proved to
  leave `Snapshot()` equal to the matching `FlightSpec` function of the old snapshot.
- `mission_properties.dfy` (module `MissionProperties`) proves what one event does in
  each state. It also proves an invariant over all reachable missions: the command log
  is always a prefix of one fixed script. The script is take control, arm, set home,
  take off to 3.0, fly to the four corners in order, land and disarm.

Telemetry is a parameter of each callback, not a field read from the base class.
`is_target_close` compares the Euclidean norm with 0.2. The model compares the squared
horizontal distance with 0.04, and `TargetCloseMatchesNorm` proves the two tests agree.

Two behaviours of the callbacks are easy to miss:

- `state_callback`'s two `if`s (backyard_flyer.py:79-82) are not exclusive. So one state
  event in Manual, with a known home position, arms AND takes off
  (`StateEventArmsAndTakesOff`).
- After the take-off branch, the local-position callback checks the waypoint branch
  again in the same call. A vehicle already within 0.2 of the first corner goes straight
  on to the second (`TakeoffAltitudeReached`).

## Model

| member | source | states |
|---|---|---|
| FlightSpec.CalculateBox | backyard_flyer.py:84-91 | the planner returns a tour of the 10 by 10 square at altitude 3.0: four distinct corners, one side apart in turn, starting north of home and ending above home |
| MissionProperties.BoxTourIsUnique | backyard_flyer.py:84-91 | any such tour equals the planner's list, so the corners and their order are fixed |
| MissionProperties.TargetCloseMatchesNorm | backyard_flyer.py:38-39 | for the non-negative root of the squared horizontal distance, the squared test `< 0.04` holds iff the norm is `< 0.2` |
| FlightSpec.IsTargetClose | backyard_flyer.py:38-39 | the horizontal (north/east) distance to the target is below 0.2; as a consequence each axis differs by less than 0.2, and differing by less than 0.1 on both axes is close enough |
| FlightSpec.IsTargetAltitudeClose | backyard_flyer.py:41-42 | the altitude (minus down) is at least 95% of the target altitude; at the cruise altitude 3.0 this is down <= -2.85 |
| FlightSpec.IsAltitudeGroundLevel | backyard_flyer.py:44-45 | the down coordinate lies strictly between -0.1 and 0.1 |
| FlightSpec.HomeKnown | backyard_flyer.py:94 | the arming guard fails iff any one of the three global components is exactly 0 |
| Flyer.BackyardFlyer.constructor | backyard_flyer.py:23-31 | a new controller is in Manual, with target (0,0,0), an empty queue, in_mission true and no command issued |
| Flyer.BackyardFlyer.ArmingTransition | backyard_flyer.py:93-101 | if any global component is zero, nothing changes; otherwise it issues take_control, arm and set_home_position(global), in that order, and enters Arming |
| Flyer.BackyardFlyer.TakeoffTransition | backyard_flyer.py:103-107 | it writes only the altitude of the target (3.0), issues takeoff(3.0) and enters Takeoff |
| Flyer.BackyardFlyer.WaypointTransition | backyard_flyer.py:109-114 | it issues cmd_position(target north, east, altitude, heading 0) and enters Waypoint |
| Flyer.BackyardFlyer.LandingTransition | backyard_flyer.py:116-119 | it issues land and enters Landing |
| Flyer.BackyardFlyer.DisarmingTransition | backyard_flyer.py:121-125 | it issues disarm, clears in_mission and enters Disarming |
| Flyer.BackyardFlyer.ManualTransition | backyard_flyer.py:127-132 | it issues release_control then stop, clears in_mission and enters Manual |
| Flyer.BackyardFlyer.LocalPositionCallback | backyard_flyer.py:47-65 | it runs the take-off check and then the waypoint check, in one call; the new fields and log equal FlightSpec.OnLocalPosition of the old ones |
| Flyer.BackyardFlyer.VelocityCallback | backyard_flyer.py:67-73 | the new fields and log equal FlightSpec.OnVelocity of the old ones |
| Flyer.BackyardFlyer.StateCallback | backyard_flyer.py:75-82 | it runs the Manual check and then the Arming check, in one call; the new fields and log equal FlightSpec.OnState of the old ones |
| MissionProperties.StateEventWithoutHomeIsNoOp | backyard_flyer.py:93-95 | in Manual, a state event with any zero global component changes nothing, and repeating it is idempotent |
| MissionProperties.StateEventArmsAndTakesOff | backyard_flyer.py:75-107 | in Manual with a known home, one state event issues take_control, arm, set_home_position(global) and takeoff(3.0), ends in Takeoff with target altitude 3.0, and keeps target north/east, the queue and in_mission |
| MissionProperties.StateEventInArmingTakesOff | backyard_flyer.py:81-82 | in Arming, a state event issues takeoff(3.0) and enters Takeoff with target altitude 3.0 |
| MissionProperties.StateEventAfterTakeoffIsNoOp | backyard_flyer.py:79-82 | state events in Takeoff, Waypoint, Landing or Disarming change nothing |
| MissionProperties.TakeoffAltitudeNotReached | backyard_flyer.py:51-52 | in Takeoff below 95% of the target altitude, a local-position event changes nothing |
| MissionProperties.TakeoffAltitudeReached | backyard_flyer.py:51-63 | in Takeoff at the altitude the state becomes Waypoint; away from (10,0) the target becomes (10,0,3), the other three corners stay queued and cmd_position(10,0,3,0) is issued; within 0.2 of (10,0) the same call also pops the second corner, issuing two cmd_position commands and targeting (10,10,3) |
| MissionProperties.WaypointNotReached | backyard_flyer.py:58-59 | in Waypoint, away from the target, a local-position event changes nothing |
| MissionProperties.WaypointReachedFliesToNext | backyard_flyer.py:58-63 | in Waypoint, close to the target with corners queued: the head is popped into the target, the queue shrinks by one, and exactly one cmd_position to it is issued |
| MissionProperties.WaypointReachedLastLands | backyard_flyer.py:58-65 | in Waypoint, close to the target with an empty queue: land is issued and the state is Landing; nothing else changes |
| MissionProperties.LocalPositionOutsideFlightIsNoOp | backyard_flyer.py:51-58 | local-position events in Manual, Arming, Landing or Disarming change nothing, so land is never re-issued |
| MissionProperties.VelocityOutsideLandingIsNoOp | backyard_flyer.py:71 | velocity events outside Landing change nothing |
| MissionProperties.DisarmsIffStillOnGround | backyard_flyer.py:71-73 | in Landing, a velocity event changes the mission iff the vertical rate is 0 and the down coordinate is within 0.1 of 0; then it issues disarm, clears in_mission and enters Disarming |
| MissionProperties.ManualTransitionResets | backyard_flyer.py:127-132 | the reset issues release_control then stop, clears in_mission and enters Manual; it keeps the target and any queued corners |
| MissionProperties.StateEventAfterResetTakesOff | backyard_flyer.py:75-107 | after the reset, a state event with a known home takes off again; in_mission stays false and the target keeps its north/east components |
| MissionProperties.StateEventPreservesReachable | backyard_flyer.py:75-82 | from a reachable mission, a state event gives a reachable mission, only extends the log, and moves only along the mission's edges |
| MissionProperties.TakeoffStepPreservesReachable | backyard_flyer.py:51-56 | the take-off half of the local-position callback keeps the mission reachable and only extends the log |
| MissionProperties.WaypointStepPreservesReachable | backyard_flyer.py:58-65 | the waypoint half of the local-position callback keeps the mission reachable and only extends the log |
| MissionProperties.LocalPositionEventPreservesReachable | backyard_flyer.py:47-65 | a local-position event keeps the mission reachable, only extends the log, and moves only along the mission's edges |
| MissionProperties.VelocityEventPreservesReachable | backyard_flyer.py:67-73 | a velocity event keeps the mission reachable, only extends the log, and moves only along the mission's edges |
| MissionProperties.DispatchPreservesReachable | backyard_flyer.py:34-36 | whichever callback an event triggers, the mission stays reachable, the log only grows, and the state moves only along an edge |
| MissionProperties.RunPreservesReachable | backyard_flyer.py:47-82 | over any sequence of events, a reachable mission stays reachable and its log only grows |
| MissionProperties.EdgeAlongRun | backyard_flyer.py:47-82 | in any run from a new controller, each event moves the state only along an edge: stay, Manual to Takeoff, Takeoff to Waypoint, Waypoint to Landing or Landing to Disarming |
| MissionProperties.CommandsFollowScript | backyard_flyer.py:47-132 | from a new controller, after any events, the log is empty or a prefix of the script: take control, arm, set home (no zero component), take off to 3.0, the four corners, land, disarm |
| MissionProperties.FlyToTargetsAreBoxCorners | backyard_flyer.py:51-65 | every cmd_position ever issued is the 5th to 8th command and targets the box corner of that rank, in order |
| MissionProperties.LandIssuedAtMostOnce | backyard_flyer.py:58-65 | land appears in the log at most once, as the 9th command |
| MissionProperties.WaypointsQueuedOnlyInWaypoint | backyard_flyer.py:51-65 | after any events from a new controller, the waypoint queue is non-empty only in Waypoint |
| MissionProperties.ExampleClimbReachesFirstCorner | backyard_flyer.py:51-56 | example: a state event without home, one with home, a climb to 2.0 (too low) and to 2.9 leave the mission flying to (10,0,3) with three corners queued |
| MissionProperties.ExampleBoxLands | backyard_flyer.py:58-65 | example: arriving within 0.2 of each corner in turn pops the queue corner by corner and then lands |
| MissionProperties.CompleteMission | backyard_flyer.py:47-132 | example: the whole example flight ends in Disarming with in_mission false and the complete script issued |

## Left out

- `start()` is not modelled (backyard_flyer.py:134-140). It opens and closes the log file and blocks in the connection's event loop; that is I/O.
- The `__main__` block is not modelled (argument parsing, connection construction, `time.sleep`). That is CLI and transport code.
- `register_callback` wiring and the `Drone` base class are not modelled. `Dispatch` picks the callback for each event kind instead.
- Vehicle commands are entries in the `commands` log. Their effect on the vehicle is not modelled.
- Telemetry (`local_position`, `local_velocity`, `global_position`) is passed to each callback as a `Telemetry` value, not read from base-class fields.
- `print` output is left out. So is `check_state`, which is never used.
- Coordinates are `real`. IEEE rounding is not modelled, and neither are NumPy array semantics.
- After `self.target_position = self.all_waypoints[0]`, the target and the popped list are one Python object. That object has left the queue, so nothing can observe the aliasing. The model stores the target as a value.
- MissionProperties.Reachable covers only missions reached by callbacks from a new controller. `manual_transition` is never triggered by a callback. Called mid-flight, it would leave corners queued in Manual. `ManualTransitionResets` states what it does.
- `in_mission` is never set back to true after a disarm or a reset. The model keeps that behaviour.
