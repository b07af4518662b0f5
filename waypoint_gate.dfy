/**
 * The admissibility gate of `waypoint_update`: a proposed arena position is
 * written into the target only when it lies strictly inside the arena box.
 */
module WaypointGate {
  import opened FrameAlign

  /** The open box the gate admits: below 3 m, and strictly between -0.6 and 3.6 on x and y. */
  predicate InArena(p: Point) {
    p.z < 3.0 && p.x < 3.6 && p.x > -0.6 && p.y < 3.6 && p.y > -0.6
  }

  /**
   * The target after `waypoint_update` receives `candidate`: an admitted
   * candidate replaces the position by its world-frame image, a rejected one
   * changes nothing, and the orientation is never touched.
   */
  function GateUpdate(f: Frame, target: Pose, candidate: Point): (r: Pose)
    ensures r.orientation == target.orientation
    ensures InArena(candidate) ==> r.position == ToWorldPosition(f, candidate)
    ensures !InArena(candidate) ==> r == target
  {
    if InArena(candidate) then target.(position := ToWorldPosition(f, candidate)) else target
  }

  /** The boundary values: every bound is strict. */
  lemma GateBoundaries()
    ensures InArena(Point(0.0, 0.0, 0.0)) && InArena(Point(3.5, 3.5, 2.9))
    ensures !InArena(Point(3.6, 0.0, 0.0)) && !InArena(Point(-0.6, 0.0, 0.0)) && !InArena(Point(0.0, 0.0, 3.0))
    ensures !InArena(Point(0.0, 3.6, 0.0)) && !InArena(Point(0.0, -0.6, 0.0))
  {
  }
}
