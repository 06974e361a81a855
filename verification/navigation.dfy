/** Types shared by the task pool and the cost calculator: ROS time, poses,
    and the route a path planner answers with. */
module Navigation {

  datatype Option<+T> = None | Some(value: T)

  /** A ros::Time (or ros::Duration) as a whole number of nanoseconds. */
  type Time = int

  const NanosPerSecond: int := 1_000_000_000

  /** `toSec()`: the time as a real number of seconds. */
  function Seconds(t: Time): real
  {
    t as real / NanosPerSecond as real
  }

  /** The `sec` field of a ros::Duration holding `d` nanoseconds: ROS keeps the
      nanosecond part in [0, 1e9), so `sec` is the floor of the seconds. */
  function WholeSeconds(d: Time): (s: int)
    ensures s * NanosPerSecond <= d < (s + 1) * NanosPerSecond
    ensures s < 0 <==> d < 0
  {
    d / NanosPerSecond
  }

  /** The C++ conversion of a double to an int: truncation toward zero. */
  function TruncateToInt(x: real): (n: int)
    ensures 0.0 <= x ==> n as real <= x < n as real + 1.0
    ensures x < 0.0 ==> n as real - 1.0 < x <= n as real
  {
    if x >= 0.0 then x.Floor else -((-x).Floor)
  }

  /** geometry_msgs::Pose: position and orientation quaternion. */
  datatype Pose = Pose(x: real, y: real, z: real, qx: real, qy: real, qz: real, qw: real)

  /** geometry_msgs::PoseStamped: a pose and the stamp of its header. */
  datatype Goal = Goal(pose: Pose, stamp: Time)

  /** One point of a planned route. For every point after the first,
      `stepLength` is the Euclidean distance from the previous point and
      `orientationAngle` is the rotation 2·acos(w) of the point's own
      orientation in the map frame (not a change of heading); the
      first point's fields are never used. */
  datatype Waypoint = Waypoint(stepLength: real, orientationAngle: real)

  type Route = seq<Waypoint>

  /** The answer of the make_plan service: None when the call fails. */
  type PlanReply = Option<Route>

  /** The make_plan service, from a start pose to a goal pose. */
  type Planner = (Pose, Pose) -> PlanReply

  /** The route's length: the sum of the steps between consecutive points. */
  function RouteLength(r: Route): real
  {
    if |r| <= 1 then 0.0 else RouteLength(r[..|r| - 1]) + r[|r| - 1].stepLength
  }

  /** Every step of the route has a non-negative length. */
  predicate StepsNonNegative(r: Route)
  {
    forall i :: 1 <= i < |r| ==> 0.0 <= r[i].stepLength
  }

  lemma {:induction false} RouteLengthNonNegative(r: Route)
    requires StepsNonNegative(r)
    ensures 0.0 <= RouteLength(r)
    decreases |r|
  {
    if |r| > 1 {
      var p := r[..|r| - 1];
      assert StepsNonNegative(p) by {
        forall i | 1 <= i < |p| ensures 0.0 <= p[i].stepLength {
          assert p[i] == r[i];
        }
      }
      RouteLengthNonNegative(p);
    }
  }
}
