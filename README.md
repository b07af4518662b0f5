# follow.cpp: start-up sequencer, frame alignment and waypoint gate

A Dafny model of the ROS node `src/follow.cpp`. The node flies a drone through a fixed start-up sequence and then to waypoints inside a bounded arena. The sequence is: wait for the autopilot link, wait for GUIDED mode, arm, take off to 3 m, then stream position setpoints. The arena frame is rotated against the vehicle's world frame by `GYM_OFFSET` degrees. Each proposed waypoint passes an open-box admissibility gate before it reaches the target pose.

Modules:

- `FrameAlign` (`frame_align.dfy`): the arena-to-world position rotation of `setDestination`, and the heading-to-quaternion conversion of `setHeading`. `cos` and `sin` are uninterpreted. A `Trig` value carries them as arbitrary functions over the reals. The only assumption the structural facts use is `FixesZero` (cos 0 = 1, sin 0 = 0). The norm, unit-quaternion and round-trip lemmas also assume the unit-circle and parity identities, but only at the one angle they use.
- `WaypointGate` (`waypoint_gate.dfy`): the bounds test of `waypoint_update`, and what it does to the target.
- `Sequencer` (`sequencer.dfy`): `main` as functions of its inputs, and the lemmas about them. The inputs are: the state and waypoint messages each `spinOnce` delivers, the value of `ros::ok()`, and the replies of the arming and takeoff services. Every wait in `main` may last forever. So a run is taken over a finite prefix of the environment, with one input stream per loop. A loop whose stream runs out before its exit condition holds leaves the run waiting in that phase.
- `Follow` (`follow_node.dfy`): the class `FollowNode`. Its fields are the globals `current_state`, `waypoint` and `GYM_OFFSET`. Its methods are the setters, the callbacks, `spinOnce`, and one method per loop of `main`. Each method is proved against the functions above.

The model follows the code as written, including these behaviours a reader might not expect:

- The arm loop exits on `armed || response.success`. No `spinOnce` runs inside it, so `armed` keeps the value it had when the loop began. A successful arm reply ends the loop even if telemetry never reports armed, and takeoff follows (`ArmedNeverReported`).
- The connection wait is also guarded by `ros::ok()`. A shutdown ends it without a connection (`ShutdownEndsConnectionWait`). The mode wait has no such guard.
- `waypoint_update` replaces only the position. The orientation stays as `setHeading(0)` left it.
- `GYM_OFFSET` is read at line 131, before any callback has run. As written, it therefore holds the zero-initialised `current_heading`. The model takes it as a parameter (`initialHeading`), captured once and never written again.

## Model

| member | source | states |
|---|---|---|
| FrameAlign.ToWorldPosition | src/follow.cpp:71-79 | the world-frame position keeps z; with offset 0 (and cos 0 = 1, sin 0 = 0) x and y are unchanged too |
| FrameAlign.RotateRoundTrip | src/follow.cpp:74-75 | rotating (x, y) by an angle and back by its negative returns the point |
| FrameAlign.RotatePreservesNorm | src/follow.cpp:74-75 | the rotation keeps x² + y² |
| FrameAlign.ToWorldPositionRoundTrip | src/follow.cpp:73-76 | rotating back by GYM_OFFSET inverts the arena-to-world conversion |
| FrameAlign.ToWorldOrientation | src/follow.cpp:45-62 | with roll = pitch = 0 the quaternion has qx = qy = 0, qw = cos(yaw/2), qz = sin(yaw/2), yaw = (-heading + 90 - GYM_OFFSET)·π/180 |
| FrameAlign.ToWorldOrientationIsUnit | src/follow.cpp:52-62 | the level orientation is a unit quaternion when cos² + sin² = 1 at the half yaw |
| FrameAlign.NorthWithoutOffset | src/follow.cpp:47-48 | heading 0 with offset 0 is a yaw of 90°: the quaternion (cos π/4, 0, 0, sin π/4) |
| WaypointGate.GateUpdate | src/follow.cpp:95-111 | an admitted candidate replaces only the position, with its world-frame image; a rejected one leaves the target unchanged; the orientation never changes |
| WaypointGate.GateBoundaries | src/follow.cpp:103 | (0,0,0) and (3.5,3.5,2.9) are admitted; (3.6,0,0), (-0.6,0,0), (0,0,3), (0,3.6,0), (0,-0.6,0) are rejected |
| Sequencer.AwaitConnectionExit | src/follow.cpp:136-140 | the connection wait spins exactly while ros::ok() holds and the vehicle is not connected, and exits at the first test where either fails |
| Sequencer.AwaitGuidedModeExit | src/follow.cpp:144-148 | the mode wait spins exactly while the mode is not "GUIDED"; it exits only once the mode is "GUIDED" |
| Sequencer.RetryUntilSuccessExit | src/follow.cpp:166-170 | the retry loop stops at the first successful reply, after one call per reply up to it; without one it never exits |
| Sequencer.ArmLoopExit | src/follow.cpp:152-158 | the arm loop exits iff telemetry said armed on entry (no call made) or some arm reply succeeded |
| Sequencer.NoPhaseSkipped | src/follow.cpp:130-175 | a run is in a phase only after every earlier loop has exited on its own condition |
| Sequencer.CommandsInOrder | src/follow.cpp:151-170 | no command before the mode wait exits; every arm request asks to arm; every takeoff request is for 3 m and comes after every arm request |
| Sequencer.NavigationAfterTakeoffSuccess | src/follow.cpp:163-175 | navigation starts only after a takeoff reply succeeded; every earlier takeoff reply failed; the last command sent is that takeoff |
| Sequencer.SpinOnceKeepsTarget | src/follow.cpp:95-111 | callbacks never change the orientation and only write the start position or the image of an admitted waypoint |
| Sequencer.SpinOnceRejectedUnchanged | src/follow.cpp:103-110 | a spin that brings no admitted waypoint leaves the target exactly as it was |
| Sequencer.NavigateKeepsTarget | src/follow.cpp:176-181 | one setpoint is published per spin; each keeps the start orientation and an admitted position |
| Sequencer.NavigateFirstPublished | src/follow.cpp:176-180 | one setpoint is published per spin, and the first is the target held when streaming starts |
| Sequencer.NavigateRepublishesRejected | src/follow.cpp:176-181 | after a spin with no admitted waypoint, the next setpoint equals the previous one |
| Sequencer.NavigationSetpoints | src/follow.cpp:173-181 | navigation starts from (0,0,3) with heading 0, a point the gate would reject; every published setpoint has that orientation and an admitted position |
| Sequencer.ArmedNeverReported | src/follow.cpp:154 | a run reaches navigation although telemetry never reports armed |
| Sequencer.ShutdownEndsConnectionWait | src/follow.cpp:136 | a shutdown moves the run to the mode wait without a connection |
| Sequencer.ShutdownNeverNavigates | src/follow.cpp:136-170 | after the connection wait ends on a shutdown, with no more messages and only failed service calls, the run never navigates: it hangs in the unguarded mode wait unless the mode already was "GUIDED", and otherwise stays in the arm or takeoff loop |
| Follow.FollowNode.constructor | src/follow.cpp:21-25 | the globals start zero-initialised |
| Follow.FollowNode.SetDestination | src/follow.cpp:71-81 | writes only the position, as the world-frame image of (x, y, z); Z = z; the orientation is unchanged |
| Follow.FollowNode.SetHeading | src/follow.cpp:45-69 | writes only the orientation, as the level quaternion for the heading; the position is unchanged |
| Follow.FollowNode.WaypointUpdate | src/follow.cpp:95-111 | the target becomes GateUpdate of the old target; a rejected candidate changes nothing; the orientation is unchanged |
| Follow.FollowNode.StateCallback | src/follow.cpp:28-31 | the last state message replaces current_state |
| Follow.FollowNode.SpinOnce | src/follow.cpp:120-125 | the queued state and waypoint messages are dispatched in arrival order, as Sequencer.SpinOnce states |
| Follow.FollowNode.AwaitConnection | src/follow.cpp:136-140 | the loop leaves the globals and exit flag that Sequencer.AwaitConnection gives |
| Follow.FollowNode.AwaitGuidedMode | src/follow.cpp:144-148 | the loop leaves the globals and exit flag that Sequencer.AwaitGuidedMode gives |
| Follow.FollowNode.Arm | src/follow.cpp:152-158 | sends one arm request per iteration; the requests and the exit agree with Sequencer.ArmLoop |
| Follow.FollowNode.Takeoff | src/follow.cpp:163-170 | sends one 3 m takeoff request per iteration; the requests and the exit agree with Sequencer.RetryUntilSuccess |
| Follow.FollowNode.StreamSetpoints | src/follow.cpp:176-181 | publishes the current target, then spins, once per iteration, as Sequencer.Navigate states |
| Follow.FollowNode.Startup | src/follow.cpp:130-183 | captures GYM_OFFSET once, runs the loops in order, and returns the run of Sequencer.Startup |

## Left out

- ROS node setup, publishers, subscribers and service clients (lines 115-128) are plumbing. The messages they deliver are the model's inputs.
- `init_ros` (lines 84-92) is never called. Timing (`rate.sleep`, `ros::Duration(...).sleep`, `sleep(10)`) has no logical content beyond waiting.
- `pose_cb`, `heading_cb`, `set_vel_pub`, `ROS_INFO` and `cout` are logging or unused telemetry. `current_heading` is read at line 131, which is the `initialHeading` parameter, and printed at line 133.
- Publishing is I/O. It is modelled as the sequence of setpoints published.
- Every wait in `main` can last forever. The model covers every finite prefix of a run, not infinite runs.
- A failed service call leaves the response's success flag false. The model treats it as a reply without success.
- All arithmetic is on reals. The source uses 32-bit `float` and `M_PI` is a `double` constant. Rounding is not modelled.
- `cos` and `sin` are uninterpreted, so no floating-point tolerance on |q| is stated. `ToWorldOrientationIsUnit` proves |q|² = 1 exactly, under the unit-circle identity at the half yaw.
- InArena: compares exact reals. The source copies the message's double coordinates into `float` variables, then compares them with the double constants 3.6 and -0.6. So a message coordinate of exactly 3.6 becomes 3.5999999 as a float and passes the upper bound. The rejection of 3.6 holds only for the real-number reading.
- Shutdown: `Environment` does not itself tie later inputs to `ros::ok()`. A run may still receive messages and successful replies after a shutdown, and the streaming loop is never ended by the publisher becoming invalid (line 176). `ShutdownNeverNavigates` states what happens when the inputs do respect a shutdown.
