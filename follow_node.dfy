/**
 * The node of follow.cpp as it runs: its globals `current_state`, `waypoint`
 * and `GYM_OFFSET` become the fields of one object, updated in place by the
 * callbacks and by `main`. Each method is proved against the functions of
 * FrameAlign, WaypointGate and Sequencer.
 */
module Follow {
  import opened FrameAlign
  import opened WaypointGate
  import opened Sequencer

  class FollowNode {
    const trig: Trig
    var currentState: VehicleState
    var waypoint: Pose
    var gymOffset: real

    /** Process start: every global is zero-initialised. */
    constructor (trig: Trig)
      ensures this.trig == trig && gymOffset == 0.0
      ensures Snapshot() == INITIAL_NODE
    {
      this.trig := trig;
      currentState := INITIAL_NODE.vehicle;
      waypoint := INITIAL_NODE.target;
      gymOffset := 0.0;
    }

    function CurrentFrame(): Frame
      reads this
    {
      Frame(trig, gymOffset)
    }

    function Snapshot(): NodeState
      reads this
    {
      NodeState(currentState, waypoint)
    }

    /** `setDestination`: only the position is written, as the world-frame image of (x, y, z). */
    method SetDestination(x: real, y: real, z: real)
      modifies this`waypoint
      ensures waypoint.position == ToWorldPosition(CurrentFrame(), Point(x, y, z))
      ensures waypoint.position.z == z
      ensures waypoint.orientation == old(waypoint.orientation)
    {
      var angle := DegToRad(-gymOffset);
      var px := x * trig.cos(angle) - y * trig.sin(angle);
      var py := x * trig.sin(angle) + y * trig.cos(angle);
      waypoint := waypoint.(position := Point(px, py, z));
    }

    /** `setHeading`: only the orientation is written, as the level quaternion for the heading. */
    method SetHeading(heading: real)
      modifies this`waypoint
      ensures waypoint.orientation == ToWorldOrientation(CurrentFrame(), heading)
      ensures FixesZero(trig) ==> waypoint.orientation.x == 0.0 && waypoint.orientation.y == 0.0
      ensures waypoint.position == old(waypoint.position)
    {
      var yaw := DegToRad(YawDegrees(gymOffset, heading));
      var q := EulerToQuaternion(trig, 0.0, 0.0, yaw);
      waypoint := waypoint.(orientation := q);
    }

    /** `waypoint_update`: the candidate reaches `setDestination` only through the gate. */
    method WaypointUpdate(candidate: Point)
      modifies this`waypoint
      ensures waypoint == GateUpdate(CurrentFrame(), old(waypoint), candidate)
      ensures !InArena(candidate) ==> waypoint == old(waypoint)
      ensures waypoint.orientation == old(waypoint.orientation)
    {
      if InArena(candidate) {
        SetDestination(candidate.x, candidate.y, candidate.z);
      }
    }

    /** `state_cb`: the last state message wins. */
    method StateCallback(state: VehicleState)
      modifies this`currentState
      ensures currentState == state
    {
      currentState := state;
    }

    /** `ros::spinOnce()`: the queued callbacks run in arrival order. */
    method SpinOnce(batch: seq<Message>)
      modifies this`currentState, this`waypoint
      ensures Snapshot() == Sequencer.SpinOnce(CurrentFrame(), old(Snapshot()), batch)
    {
      var i := 0;
      while i < |batch|
        invariant 0 <= i <= |batch|
        invariant Sequencer.SpinOnce(CurrentFrame(), Snapshot(), batch[i..])
               == Sequencer.SpinOnce(CurrentFrame(), old(Snapshot()), batch)
      {
        assert batch[i..][1..] == batch[i + 1..];
        match batch[i] {
          case StateMsg(v) => StateCallback(v);
          case WaypointMsg(p) => WaypointUpdate(p);
        }
        i := i + 1;
      }
    }

    /** `while (ros::ok() && !current_state.connected) { spinOnce; sleep }` */
    method AwaitConnection(ticks: seq<Tick>) returns (exited: bool)
      modifies this`currentState, this`waypoint
      ensures var w := Sequencer.AwaitConnection(CurrentFrame(), old(Snapshot()), ticks);
        exited == w.exited && Snapshot() == w.node
    {
      ghost var s0 := Snapshot();
      var i := 0;
      while i < |ticks| && ticks[i].ok && !currentState.connected
        invariant 0 <= i <= |ticks|
        invariant var w := Sequencer.AwaitConnection(CurrentFrame(), Snapshot(), ticks[i..]);
          Sequencer.AwaitConnection(CurrentFrame(), s0, ticks) == w.(spins := w.spins + i)
      {
        assert ticks[i..][1..] == ticks[i + 1..];
        SpinOnce(ticks[i].batch);
        i := i + 1;
      }
      exited := i < |ticks|;
    }

    /** `while (current_state.mode != "GUIDED") { spinOnce; sleep }`: no `ros::ok()` guard here. */
    method AwaitGuidedMode(batches: seq<seq<Message>>) returns (exited: bool)
      modifies this`currentState, this`waypoint
      ensures var w := Sequencer.AwaitGuidedMode(CurrentFrame(), old(Snapshot()), batches);
        exited == w.exited && Snapshot() == w.node
    {
      ghost var s0 := Snapshot();
      var i := 0;
      while currentState.mode != GUIDED && i < |batches|
        invariant 0 <= i <= |batches|
        invariant var w := Sequencer.AwaitGuidedMode(CurrentFrame(), Snapshot(), batches[i..]);
          Sequencer.AwaitGuidedMode(CurrentFrame(), s0, batches) == w.(spins := w.spins + i)
      {
        assert batches[i..][1..] == batches[i + 1..];
        SpinOnce(batches[i]);
        i := i + 1;
      }
      exited := currentState.mode == GUIDED;
    }

    /**
     * The arming loop: call the arming service while neither the telemetry
     * (read once, as no `spinOnce` runs here) nor the last reply says armed.
     */
    method Arm(replies: seq<bool>) returns (sent: seq<Command>, exited: bool)
      ensures var r := ArmLoop(currentState.armed, replies);
        exited == r.exited && sent == Repeat(Command.Arm(true), r.calls)
    {
      sent := [];
      var success := false;
      var i := 0;
      while !currentState.armed && !success && i < |replies|
        invariant 0 <= i <= |replies|
        invariant sent == Repeat(Command.Arm(true), i)
        invariant success ==> i > 0 && ArmLoop(currentState.armed, replies) == Retry(i, true)
        invariant !success ==> var r := ArmLoop(currentState.armed, replies[i..]);
          ArmLoop(currentState.armed, replies) == r.(calls := r.calls + i)
      {
        assert replies[i..][1..] == replies[i + 1..];
        sent := sent + [Command.Arm(true)];
        success := replies[i];
        i := i + 1;
      }
      exited := currentState.armed || success;
    }

    /** The takeoff loop: request a takeoff to 3 m until a reply reports success. */
    method Takeoff(replies: seq<bool>) returns (sent: seq<Command>, exited: bool)
      ensures var r := RetryUntilSuccess(replies);
        exited == r.exited && sent == Repeat(Command.Takeoff(TAKEOFF_ALTITUDE), r.calls)
    {
      sent := [];
      var success := false;
      var i := 0;
      while !success && i < |replies|
        invariant 0 <= i <= |replies|
        invariant sent == Repeat(Command.Takeoff(TAKEOFF_ALTITUDE), i)
        invariant success ==> i > 0 && RetryUntilSuccess(replies) == Retry(i, true)
        invariant !success ==> var r := RetryUntilSuccess(replies[i..]);
          RetryUntilSuccess(replies) == r.(calls := r.calls + i)
      {
        assert replies[i..][1..] == replies[i + 1..];
        sent := sent + [Command.Takeoff(TAKEOFF_ALTITUDE)];
        success := replies[i];
        i := i + 1;
      }
      exited := success;
    }

    /** `while (local_pos_pub) { publish(waypoint); spinOnce; sleep }` */
    method StreamSetpoints(batches: seq<seq<Message>>) returns (published: seq<Pose>)
      modifies this`currentState, this`waypoint
      ensures Navigate(CurrentFrame(), old(Snapshot()), batches) == Stream(Snapshot(), published)
    {
      ghost var s0 := Snapshot();
      published := [];
      var i := 0;
      while i < |batches|
        invariant 0 <= i <= |batches|
        invariant var st := Navigate(CurrentFrame(), Snapshot(), batches[i..]);
          Navigate(CurrentFrame(), s0, batches) == Stream(st.node, published + st.published)
      {
        assert batches[i..][1..] == batches[i + 1..];
        published := published + [waypoint];
        SpinOnce(batches[i]);
        i := i + 1;
      }
    }

    /**
     * `main` from line 131 on, over a finite prefix of its environment:
     * capture GYM_OFFSET, wait for the connection, wait for guided mode, arm,
     * take off, set the hover target and stream setpoints. The run it returns
     * and the globals it leaves are those of `Sequencer.Startup`.
     */
    method Startup(initialHeading: real, env: Environment) returns (run: Run)
      modifies this
      ensures run == Sequencer.Startup(trig, initialHeading, old(Snapshot()), env)
      ensures Snapshot() == run.node
      ensures gymOffset == initialHeading
    {
      gymOffset := initialHeading;
      var connected := AwaitConnection(env.connection);
      if !connected {
        return Run(AwaitingConnection, Snapshot(), [], []);
      }
      var guided := AwaitGuidedMode(env.mode);
      if !guided {
        return Run(AwaitingGuidedMode, Snapshot(), [], []);
      }
      var armCommands, armed := Arm(env.armReplies);
      if !armed {
        return Run(Arming, Snapshot(), armCommands, []);
      }
      var takeoffCommands, airborne := Takeoff(env.takeoffReplies);
      if !airborne {
        return Run(TakingOff, Snapshot(), armCommands + takeoffCommands, []);
      }
      SetDestination(START_POINT.x, START_POINT.y, START_POINT.z);
      SetHeading(START_HEADING);
      var published := StreamSetpoints(env.navigation);
      run := Run(Navigating, Snapshot(), armCommands + takeoffCommands, published);
    }
  }
}
