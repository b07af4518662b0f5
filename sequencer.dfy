/**
 * The start-up sequence of follow.cpp's `main`, as functions of the inputs the
 * node receives: telemetry and proposed waypoints delivered by `spinOnce`, the
 * value of `ros::ok()` and the replies of the arming and takeoff services.
 *
 * Every wait in `main` may last forever, so a run is taken over a finite prefix
 * of its environment: each loop reads its own input stream, and a loop whose
 * stream runs out before its exit condition holds leaves the run waiting in
 * that phase.
 */
module Sequencer {
  import opened FrameAlign
  import opened WaypointGate

  const GUIDED: string := "GUIDED"
  const TAKEOFF_ALTITUDE: real := 3.0
  /** The hover point set after takeoff, in arena coordinates. */
  const START_POINT: Point := Point(0.0, 0.0, 3.0)
  const START_HEADING: real := 0.0

  /** The fields of the autopilot state message that `main` reads. */
  datatype VehicleState = VehicleState(connected: bool, armed: bool, mode: string)

  /** A message taken from the callback queue by `spinOnce`. */
  datatype Message =
    | StateMsg(state: VehicleState)   // mavros/state, handled by state_cb
    | WaypointMsg(candidate: Point)   // roombaPose, handled by waypoint_update

  /** The node's globals that the core reads or writes: current_state and waypoint. */
  datatype NodeState = NodeState(vehicle: VehicleState, target: Pose)

  /** The zero-initialised globals at process start. */
  const INITIAL_NODE: NodeState :=
    NodeState(VehicleState(false, false, ""), Pose(Point(0.0, 0.0, 0.0), Quaternion(0.0, 0.0, 0.0, 0.0)))

  /** One callback: state_cb replaces the telemetry, waypoint_update goes through the gate. */
  function Dispatch(f: Frame, s: NodeState, m: Message): NodeState {
    match m
    case StateMsg(v) => s.(vehicle := v)
    case WaypointMsg(p) => s.(target := GateUpdate(f, s.target, p))
  }

  /** One `ros::spinOnce()`: the queued messages are dispatched in arrival order. */
  function SpinOnce(f: Frame, s: NodeState, batch: seq<Message>): NodeState
    decreases |batch|
  {
    if |batch| == 0 then s else SpinOnce(f, Dispatch(f, s, batch[0]), batch[1..])
  }

  /** Successive `spinOnce` calls. */
  function SpinAll(f: Frame, s: NodeState, batches: seq<seq<Message>>): NodeState
    decreases |batches|
  {
    if |batches| == 0 then s else SpinAll(f, SpinOnce(f, s, batches[0]), batches[1..])
  }

  /** One test of the connection loop: the value of `ros::ok()`, and what `spinOnce` delivers if the loop goes on. */
  datatype Tick = Tick(ok: bool, batch: seq<Message>)

  function SpinTicks(f: Frame, s: NodeState, ticks: seq<Tick>): NodeState
    decreases |ticks|
  {
    if |ticks| == 0 then s else SpinTicks(f, SpinOnce(f, s, ticks[0].batch), ticks[1..])
  }

  /** The outcome of a polling loop: the node afterwards, the number of spins, and whether the loop left. */
  datatype Wait = Wait(node: NodeState, spins: nat, exited: bool)

  /** `while (ros::ok() && !current_state.connected) { spinOnce; sleep }` */
  function AwaitConnection(f: Frame, s: NodeState, ticks: seq<Tick>): Wait
    decreases |ticks|
  {
    if |ticks| == 0 then Wait(s, 0, false)
    else if ticks[0].ok && !s.vehicle.connected then
      var w := AwaitConnection(f, SpinOnce(f, s, ticks[0].batch), ticks[1..]);
      w.(spins := w.spins + 1)
    else Wait(s, 0, true)
  }

  /** `while (current_state.mode != "GUIDED") { spinOnce; sleep }` */
  function AwaitGuidedMode(f: Frame, s: NodeState, batches: seq<seq<Message>>): Wait
    decreases |batches|
  {
    if s.vehicle.mode == GUIDED then Wait(s, 0, true)
    else if |batches| == 0 then Wait(s, 0, false)
    else
      var w := AwaitGuidedMode(f, SpinOnce(f, s, batches[0]), batches[1..]);
      w.(spins := w.spins + 1)
  }

  /** The outcome of a service retry loop: the number of calls made and whether the loop left. */
  datatype Retry = Retry(calls: nat, exited: bool)

  /** Call the service until a reply reports success. */
  function RetryUntilSuccess(replies: seq<bool>): Retry
    decreases |replies|
  {
    if |replies| == 0 then Retry(0, false)
    else if replies[0] then Retry(1, true)
    else
      var r := RetryUntilSuccess(replies[1..]);
      r.(calls := r.calls + 1)
  }

  /**
   * `while (!current_state.armed && !arm_request.response.success)`: no
   * `spinOnce` runs inside the loop, so `armed` keeps the value it had when the
   * loop was entered.
   */
  function ArmLoop(armed: bool, replies: seq<bool>): Retry {
    if armed then Retry(0, true) else RetryUntilSuccess(replies)
  }

  datatype Command = Arm(value: bool) | Takeoff(altitude: real)

  function Repeat(c: Command, n: nat): seq<Command> {
    seq(n, _ => c)
  }

  datatype Phase = AwaitingConnection | AwaitingGuidedMode | Arming | TakingOff | Navigating

  /** Position of a phase in the start-up order. */
  function Rank(p: Phase): nat {
    match p
    case AwaitingConnection => 0
    case AwaitingGuidedMode => 1
    case Arming => 2
    case TakingOff => 3
    case Navigating => 4
  }

  /** The inputs of each loop of `main`, in the order the loops run. */
  datatype Environment = Environment(
    connection: seq<Tick>,
    mode: seq<seq<Message>>,
    armReplies: seq<bool>,
    takeoffReplies: seq<bool>,
    navigation: seq<seq<Message>>)

  /**
   * A run of `main`: the phase it is in, the node's globals, the service
   * commands sent, and the setpoints published.
   */
  datatype Run = Run(reached: Phase, node: NodeState, commands: seq<Command>, published: seq<Pose>)

  /** `setDestination(0,0,3); setHeading(0)`: the initial target, bypassing the gate. */
  function NavigationStart(f: Frame, s: NodeState): NodeState {
    s.(target := Pose(ToWorldPosition(f, START_POINT), ToWorldOrientation(f, START_HEADING)))
  }

  datatype Stream = Stream(node: NodeState, published: seq<Pose>)

  /** `while (local_pos_pub) { publish(waypoint); spinOnce; sleep }` */
  function Navigate(f: Frame, s: NodeState, batches: seq<seq<Message>>): Stream
    decreases |batches|
  {
    if |batches| == 0 then Stream(s, [])
    else
      var rest := Navigate(f, SpinOnce(f, s, batches[0]), batches[1..]);
      Stream(rest.node, [s.target] + rest.published)
  }

  /**
   * `main` from line 131 on: GYM_OFFSET is captured once from `heading`, then
   * the loops run in order, each on its own inputs.
   */
  function Startup(trig: Trig, heading: real, s0: NodeState, env: Environment): Run {
    var f := Frame(trig, heading);
    var c := AwaitConnection(f, s0, env.connection);
    if !c.exited then Run(AwaitingConnection, c.node, [], []) else
    var m := AwaitGuidedMode(f, c.node, env.mode);
    if !m.exited then Run(AwaitingGuidedMode, m.node, [], []) else
    var a := ArmLoop(m.node.vehicle.armed, env.armReplies);
    var arms := Repeat(Arm(true), a.calls);
    if !a.exited then Run(Arming, m.node, arms, []) else
    var t := RetryUntilSuccess(env.takeoffReplies);
    var commands := arms + Repeat(Takeoff(TAKEOFF_ALTITUDE), t.calls);
    if !t.exited then Run(TakingOff, m.node, commands, []) else
    var nav := Navigate(f, NavigationStart(f, m.node), env.navigation);
    Run(Navigating, nav.node, commands, nav.published)
  }

  // ---------------------------------------------------------------------------
  // Exit conditions of the loops

  /**
   * The connection loop spins exactly while `ros::ok()` holds and the vehicle
   * is not connected, and leaves at the first test where either fails: a
   * shutdown ends the wait without a connection.
   */
  lemma {:induction false} AwaitConnectionExit(f: Frame, s: NodeState, ticks: seq<Tick>)
    ensures var w := AwaitConnection(f, s, ticks);
      && w.spins <= |ticks|
      && w.node == SpinTicks(f, s, ticks[..w.spins])
      && (forall j :: 0 <= j < w.spins ==> ticks[j].ok && !SpinTicks(f, s, ticks[..j]).vehicle.connected)
      && (w.exited <==> w.spins < |ticks|)
      && (w.exited ==> !ticks[w.spins].ok || w.node.vehicle.connected)
    decreases |ticks|
  {
    var w := AwaitConnection(f, s, ticks);
    if |ticks| == 0 {
    } else if ticks[0].ok && !s.vehicle.connected {
      var s1 := SpinOnce(f, s, ticks[0].batch);
      var rest := ticks[1..];
      AwaitConnectionExit(f, s1, rest);
      var w1 := AwaitConnection(f, s1, rest);
      assert ticks[..w.spins][1..] == rest[..w1.spins];
      forall j | 0 <= j < w.spins
        ensures ticks[j].ok && !SpinTicks(f, s, ticks[..j]).vehicle.connected
      {
        if j > 0 {
          assert ticks[..j][1..] == rest[..j - 1];
          assert rest[j - 1] == ticks[j];
        }
      }
    } else {
    }
  }

  /** The mode loop spins exactly while the mode is not "GUIDED" and leaves as soon as it is. */
  lemma {:induction false} AwaitGuidedModeExit(f: Frame, s: NodeState, batches: seq<seq<Message>>)
    ensures var w := AwaitGuidedMode(f, s, batches);
      && w.spins <= |batches|
      && w.node == SpinAll(f, s, batches[..w.spins])
      && (forall j :: 0 <= j < w.spins ==> SpinAll(f, s, batches[..j]).vehicle.mode != GUIDED)
      && (w.exited <==> w.node.vehicle.mode == GUIDED)
      && (!w.exited ==> w.spins == |batches|)
    decreases |batches|
  {
    var w := AwaitGuidedMode(f, s, batches);
    if s.vehicle.mode == GUIDED {
      assert batches[..0] == [];
    } else if |batches| == 0 {
    } else {
      var s1 := SpinOnce(f, s, batches[0]);
      var rest := batches[1..];
      AwaitGuidedModeExit(f, s1, rest);
      var w1 := AwaitGuidedMode(f, s1, rest);
      assert batches[..w.spins][1..] == rest[..w1.spins];
      forall j | 0 <= j < w.spins
        ensures SpinAll(f, s, batches[..j]).vehicle.mode != GUIDED
      {
        if j > 0 {
          assert batches[..j][1..] == rest[..j - 1];
        }
      }
    }
  }

  /**
   * A retry loop stops at the first successful reply, after one call per reply
   * up to and including it; without a success it uses every reply.
   */
  lemma {:induction false} RetryUntilSuccessExit(replies: seq<bool>)
    ensures var r := RetryUntilSuccess(replies);
      && r.calls <= |replies|
      && (r.exited <==> exists k :: 0 <= k < |replies| && replies[k])
      && (r.exited ==> r.calls >= 1 && replies[r.calls - 1])
      && (forall j :: 0 <= j < r.calls && (j < r.calls - 1 || !r.exited) ==> !replies[j])
      && (!r.exited ==> r.calls == |replies|)
    decreases |replies|
  {
    if |replies| == 0 {
    } else if replies[0] {
    } else {
      var rest := replies[1..];
      RetryUntilSuccessExit(rest);
      var r1 := RetryUntilSuccess(rest);
      forall j | 0 <= j < r1.calls + 1 && (j < r1.calls || !r1.exited)
        ensures !replies[j]
      {
        if j > 0 { assert replies[j] == rest[j - 1]; }
      }
      if r1.exited {
        var k :| 0 <= k < |rest| && rest[k];
        assert replies[k + 1];
      } else {
        forall k | 0 <= k < |replies| ensures !replies[k] {
          if k > 0 { assert replies[k] == rest[k - 1]; }
        }
      }
    }
  }

  /**
   * The arm loop leaves when the telemetry said "armed" on entry (then without
   * a single call) or when an arm call reports success, whatever the telemetry says.
   */
  lemma ArmLoopExit(armed: bool, replies: seq<bool>)
    ensures var r := ArmLoop(armed, replies);
      && (r.exited <==> armed || exists k :: 0 <= k < |replies| && replies[k])
      && (armed ==> r.calls == 0)
      && (!armed && r.exited ==> 1 <= r.calls <= |replies| && replies[r.calls - 1])
  {
    RetryUntilSuccessExit(replies);
  }

  // ---------------------------------------------------------------------------
  // The order of the phases

  /**
   * No phase is skipped: a run is in a phase only after every earlier loop has
   * left, and each left on its own exit condition.
   */
  lemma NoPhaseSkipped(trig: Trig, heading: real, s0: NodeState, env: Environment)
    ensures var f := Frame(trig, heading);
      var run := Startup(trig, heading, s0, env);
      var c := AwaitConnection(f, s0, env.connection);
      var m := AwaitGuidedMode(f, c.node, env.mode);
      var armed := m.node.vehicle.armed;
      && (Rank(run.reached) >= 1 <==> c.exited)
      && (Rank(run.reached) >= 1 ==>
            c.spins < |env.connection| && (!env.connection[c.spins].ok || c.node.vehicle.connected))
      && (Rank(run.reached) >= 2 <==> c.exited && m.exited)
      && (Rank(run.reached) >= 2 ==> m.node.vehicle.mode == GUIDED)
      && (Rank(run.reached) >= 3 <==>
            Rank(run.reached) >= 2 && (armed || exists k :: 0 <= k < |env.armReplies| && env.armReplies[k]))
      && (Rank(run.reached) >= 4 <==>
            Rank(run.reached) >= 3 && exists k :: 0 <= k < |env.takeoffReplies| && env.takeoffReplies[k])
  {
    var f := Frame(trig, heading);
    var c := AwaitConnection(f, s0, env.connection);
    AwaitConnectionExit(f, s0, env.connection);
    var m := AwaitGuidedMode(f, c.node, env.mode);
    AwaitGuidedModeExit(f, c.node, env.mode);
    ArmLoopExit(m.node.vehicle.armed, env.armReplies);
    RetryUntilSuccessExit(env.takeoffReplies);
  }

  /**
   * Commands go out in order: only arm requests (each asking to arm) until the
   * arm loop has left, then only takeoff requests, each for 3 m; none before
   * the guided-mode wait has left.
   */
  lemma CommandsInOrder(trig: Trig, heading: real, s0: NodeState, env: Environment)
    ensures var run := Startup(trig, heading, s0, env);
      && (|run.commands| > 0 ==> Rank(run.reached) >= 2)
      && (forall i :: 0 <= i < |run.commands| && run.commands[i].Arm? ==> run.commands[i].value)
      && (forall i :: 0 <= i < |run.commands| && run.commands[i].Takeoff? ==>
            run.commands[i].altitude == TAKEOFF_ALTITUDE && Rank(run.reached) >= 3)
      && (forall i, j :: 0 <= i < j < |run.commands| && run.commands[i].Takeoff? ==> run.commands[j].Takeoff?)
  {
  }

  /**
   * Navigation begins only after a takeoff call has reported success: the last
   * command sent is then a takeoff request answered with success, and every
   * earlier takeoff request failed.
   */
  lemma NavigationAfterTakeoffSuccess(trig: Trig, heading: real, s0: NodeState, env: Environment)
    requires Startup(trig, heading, s0, env).reached == Navigating
    ensures var run := Startup(trig, heading, s0, env);
      var t := RetryUntilSuccess(env.takeoffReplies);
      && 1 <= t.calls <= |env.takeoffReplies|
      && env.takeoffReplies[t.calls - 1]
      && (forall j :: 0 <= j < t.calls - 1 ==> !env.takeoffReplies[j])
      && |run.commands| >= t.calls
      && run.commands[|run.commands| - 1] == Takeoff(TAKEOFF_ALTITUDE)
  {
    RetryUntilSuccessExit(env.takeoffReplies);
  }

  // ---------------------------------------------------------------------------
  // The published setpoint

  /** The start position, or the world-frame image of a position the gate admits. */
  ghost predicate Admitted(f: Frame, pos: Point) {
    pos == ToWorldPosition(f, START_POINT) || exists p :: InArena(p) && ToWorldPosition(f, p) == pos
  }

  /** Callbacks never touch the orientation and only ever write admitted positions. */
  lemma {:induction false} SpinOnceKeepsTarget(f: Frame, s: NodeState, batch: seq<Message>)
    requires Admitted(f, s.target.position)
    ensures SpinOnce(f, s, batch).target.orientation == s.target.orientation
    ensures Admitted(f, SpinOnce(f, s, batch).target.position)
    decreases |batch|
  {
    if |batch| > 0 {
      var s1 := Dispatch(f, s, batch[0]);
      if batch[0].WaypointMsg? && InArena(batch[0].candidate) {
        assert ToWorldPosition(f, batch[0].candidate) == s1.target.position;
      }
      SpinOnceKeepsTarget(f, s1, batch[1..]);
    }
  }

  /** A spin that brings no admitted waypoint leaves the target exactly as it was. */
  lemma {:induction false} SpinOnceRejectedUnchanged(f: Frame, s: NodeState, batch: seq<Message>)
    requires forall i :: 0 <= i < |batch| && batch[i].WaypointMsg? ==> !InArena(batch[i].candidate)
    ensures SpinOnce(f, s, batch).target == s.target
    decreases |batch|
  {
    if |batch| > 0 {
      SpinOnceRejectedUnchanged(f, Dispatch(f, s, batch[0]), batch[1..]);
    }
  }

  /**
   * While navigating the node publishes one setpoint per spin, each with the
   * orientation it started with and an admitted position.
   */
  lemma {:induction false} NavigateKeepsTarget(f: Frame, s: NodeState, batches: seq<seq<Message>>)
    requires Admitted(f, s.target.position)
    ensures var st := Navigate(f, s, batches);
      && |st.published| == |batches|
      && (forall i :: 0 <= i < |st.published| ==>
            st.published[i].orientation == s.target.orientation && Admitted(f, st.published[i].position))
    decreases |batches|
  {
    if |batches| > 0 {
      var s1 := SpinOnce(f, s, batches[0]);
      SpinOnceKeepsTarget(f, s, batches[0]);
      NavigateKeepsTarget(f, s1, batches[1..]);
    }
  }

  /** A setpoint is republished unchanged after a spin that brought no admitted waypoint. */
  lemma {:induction false} NavigateRepublishesRejected(f: Frame, s: NodeState, batches: seq<seq<Message>>, i: nat)
    requires i + 1 < |batches|
    requires forall k :: 0 <= k < |batches[i]| && batches[i][k].WaypointMsg? ==> !InArena(batches[i][k].candidate)
    ensures |Navigate(f, s, batches).published| == |batches|
    ensures Navigate(f, s, batches).published[i + 1] == Navigate(f, s, batches).published[i]
    decreases i
  {
    var s1 := SpinOnce(f, s, batches[0]);
    var rest := batches[1..];
    NavigateFirstPublished(f, s1, rest);
    if i == 0 {
      SpinOnceRejectedUnchanged(f, s, batches[0]);
    } else {
      assert rest[i - 1] == batches[i];
      NavigateRepublishesRejected(f, s1, rest, i - 1);
    }
  }

  /** One setpoint is published per spin, and the first is the target held when streaming starts. */
  lemma {:induction false} NavigateFirstPublished(f: Frame, s: NodeState, batches: seq<seq<Message>>)
    ensures |Navigate(f, s, batches).published| == |batches|
    ensures |batches| > 0 ==> Navigate(f, s, batches).published[0] == s.target
    decreases |batches|
  {
    if |batches| > 0 {
      NavigateFirstPublished(f, SpinOnce(f, s, batches[0]), batches[1..]);
    }
  }

  /**
   * Navigation starts from the hover point (0, 0, 3) with heading 0, a target
   * the gate itself would reject, and every setpoint it publishes keeps that
   * orientation and an admitted position.
   */
  lemma NavigationSetpoints(trig: Trig, heading: real, s0: NodeState, env: Environment)
    requires Startup(trig, heading, s0, env).reached == Navigating
    ensures var f := Frame(trig, heading);
      var run := Startup(trig, heading, s0, env);
      && !InArena(START_POINT)
      && |run.published| == |env.navigation|
      && (|run.published| > 0 ==>
            run.published[0] == Pose(ToWorldPosition(f, START_POINT), ToWorldOrientation(f, START_HEADING)))
      && (forall i :: 0 <= i < |run.published| ==>
            run.published[i].orientation == ToWorldOrientation(f, START_HEADING)
            && Admitted(f, run.published[i].position))
  {
    var f := Frame(trig, heading);
    var c := AwaitConnection(f, s0, env.connection);
    var m := AwaitGuidedMode(f, c.node, env.mode);
    var start := NavigationStart(f, m.node);
    NavigateFirstPublished(f, start, env.navigation);
    NavigateKeepsTarget(f, start, env.navigation);
  }

  // ---------------------------------------------------------------------------
  // Behaviours of the exit conditions as written

  /** The arm loop can be left on the service's reply alone: the vehicle never reports armed, yet takeoff and navigation follow. */
  lemma ArmedNeverReported(trig: Trig)
    ensures var connected := VehicleState(true, false, "");
      var guided := VehicleState(true, false, GUIDED);
      var env := Environment([Tick(true, [StateMsg(connected)]), Tick(true, [])],
                             [[StateMsg(guided)]], [false, true], [true], []);
      var run := Startup(trig, 0.0, INITIAL_NODE, env);
      && run.reached == Navigating
      && !run.node.vehicle.armed
      && run.commands == [Arm(true), Arm(true), Takeoff(TAKEOFF_ALTITUDE)]
  {
    var connected := VehicleState(true, false, "");
    var guided := VehicleState(true, false, GUIDED);
    var f := Frame(trig, 0.0);
    var ticks := [Tick(true, [StateMsg(connected)]), Tick(true, [])];
    assert ticks[1..][1..] == [];
    var s1 := SpinOnce(f, INITIAL_NODE, [StateMsg(connected)]);
    assert [StateMsg(connected)][1..] == [];
    assert s1 == SpinOnce(f, Dispatch(f, INITIAL_NODE, StateMsg(connected)), []);
    assert s1.vehicle == connected;
    assert AwaitConnection(f, s1, ticks[1..]) == Wait(s1, 0, true);
    var s2 := SpinOnce(f, s1, [StateMsg(guided)]);
    assert [StateMsg(guided)][1..] == [];
    assert s2 == SpinOnce(f, Dispatch(f, s1, StateMsg(guided)), []);
    assert s2.vehicle == guided;
    assert AwaitGuidedMode(f, s2, []) == Wait(s2, 0, true);
    assert AwaitConnection(f, INITIAL_NODE, ticks) == Wait(s1, 1, true);
    assert AwaitGuidedMode(f, s1, [[StateMsg(guided)]]) == Wait(s2, 1, true);
    assert RetryUntilSuccess([false, true]) == Retry(2, true);
    assert RetryUntilSuccess([true]) == Retry(1, true);
    assert Repeat(Arm(true), 2) + Repeat(Takeoff(TAKEOFF_ALTITUDE), 1) == [Arm(true), Arm(true), Takeoff(TAKEOFF_ALTITUDE)];
  }

  /** A shutdown ends the connection wait although the vehicle never connected. */
  lemma ShutdownEndsConnectionWait(trig: Trig)
    ensures var env := Environment([Tick(false, [])], [], [], [], []);
      var run := Startup(trig, 0.0, INITIAL_NODE, env);
      && run.reached == AwaitingGuidedMode
      && !run.node.vehicle.connected
  {
  }

  /**
   * After a shutdown `spinOnce` delivers nothing and service calls fail. An
   * environment that respects this brings no messages to the mode wait and
   * only failed replies to the arm and takeoff loops.
   */
  predicate SilencedAfterShutdown(env: Environment) {
    && (forall i :: 0 <= i < |env.mode| ==> env.mode[i] == [])
    && (forall i :: 0 <= i < |env.armReplies| ==> !env.armReplies[i])
    && (forall i :: 0 <= i < |env.takeoffReplies| ==> !env.takeoffReplies[i])
  }

  /** Spins that deliver nothing leave the node as it was. */
  lemma {:induction false} SpinAllSilent(f: Frame, s: NodeState, batches: seq<seq<Message>>)
    requires forall i :: 0 <= i < |batches| ==> batches[i] == []
    ensures SpinAll(f, s, batches) == s
    decreases |batches|
  {
    if |batches| > 0 {
      assert SpinOnce(f, s, batches[0]) == s;
      SpinAllSilent(f, s, batches[1..]);
    }
  }

  /**
   * When the connection wait ends on a shutdown, the node never navigates: the
   * mode wait, which has no `ros::ok()` guard, hangs unless the mode already was
   * "GUIDED", and otherwise the failing takeoff calls hold it in the takeoff loop
   * (or the arm loop, if telemetry did not already say armed).
   */
  lemma ShutdownNeverNavigates(trig: Trig, heading: real, s0: NodeState, env: Environment)
    requires var c := AwaitConnection(Frame(trig, heading), s0, env.connection);
      c.spins < |env.connection| && !env.connection[c.spins].ok
    requires SilencedAfterShutdown(env)
    ensures var c := AwaitConnection(Frame(trig, heading), s0, env.connection);
      var run := Startup(trig, heading, s0, env);
      && run.reached != Navigating
      && (c.node.vehicle.mode != GUIDED ==> run.reached == AwaitingGuidedMode)
      && (c.node.vehicle.mode == GUIDED && !c.node.vehicle.armed ==> run.reached == Arming)
      && (c.node.vehicle.mode == GUIDED && c.node.vehicle.armed ==> run.reached == TakingOff)
  {
    var f := Frame(trig, heading);
    var c := AwaitConnection(f, s0, env.connection);
    AwaitConnectionExit(f, s0, env.connection);
    AwaitGuidedModeExit(f, c.node, env.mode);
    var m := AwaitGuidedMode(f, c.node, env.mode);
    forall i | 0 <= i < m.spins ensures env.mode[..m.spins][i] == [] {
      assert env.mode[..m.spins][i] == env.mode[i];
    }
    SpinAllSilent(f, c.node, env.mode[..m.spins]);
    RetryUntilSuccessExit(env.armReplies);
    RetryUntilSuccessExit(env.takeoffReplies);
  }
}
