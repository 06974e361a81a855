/** The cost calculator: a battery estimate over a planned route, its chaining
    over the stops of a compound task, and the weighted sums that score a
    compound task, a door and a charging station. */
module Costs {
  import opened Navigation

  /** Weights of the compound-task cost. */
  datatype TaskWeight = TaskWeight(wtBtr: real, wtWait: real, wtPsb: real, wtPri: real)

  /** Weights of the door cost. */
  datatype DoorWeight = DoorWeight(wtBtr: real, wtUpdate: real, wtPsb: real)

  /** Weights of the charging-station cost. */
  datatype ChargingWeight = ChargingWeight(wtRemain: real, wtBtr: real)

  /** What the battery estimate answers when there is no usable plan. */
  const PlanFailure: real := -1.0

  /** Battery used per unit of distance and per radian of a waypoint's
      orientation angle. */
  const LinearRate: real := 0.01
  const AngularRate: real := 0.001

  /** The battery a route consumes: every point after the first costs 0.01
      per unit of the step that reaches it plus 0.001 per radian of its own
      orientation angle 2·acos(w) (a rotation in the map frame, not a change
      of heading: a straight route still pays for its heading). */
  function RouteBattery(r: Route): real
  {
    if |r| <= 1 then 0.0
    else RouteBattery(r[..|r| - 1]) + LinearRate * r[|r| - 1].stepLength + AngularRate * r[|r| - 1].orientationAngle
  }

  /** The sum of the orientation angles of a route's points after the first. */
  function RouteOrientation(r: Route): real
  {
    if |r| <= 1 then 0.0 else RouteOrientation(r[..|r| - 1]) + r[|r| - 1].orientationAngle
  }

  /** The battery estimate for one plan reply: the failure value when the call
      failed or the route is empty. */
  function BatteryEstimate(reply: PlanReply): real
  {
    match reply
    case None => PlanFailure
    case Some(r) => if |r| == 0 then PlanFailure else RouteBattery(r)
  }

  /** The estimate of one leg, from `start` to `end`. */
  function Leg(planner: Planner, start: Pose, end: Pose): real
  {
    BatteryEstimate(planner(start, end))
  }

  /** The battery is linear in the route: 0.01 times its length plus 0.001
      times the sum of its orientation angles. */
  lemma {:induction false} RouteBatteryIsLinear(r: Route)
    ensures RouteBattery(r) == LinearRate * RouteLength(r) + AngularRate * RouteOrientation(r)
    decreases |r|
  {
    if |r| > 1 {
      RouteBatteryIsLinear(r[..|r| - 1]);
    }
  }

  /** A stop of a compound task. */
  datatype SmallExecuteTask = SmallExecuteTask(goal: Goal)

  /** One entry of the compound task's map from stop key to stop. */
  datatype StopEntry = StopEntry(key: int, stop: SmallExecuteTask)

  /** Where the leg that ends at stop `i` starts: the robot for the first
      stop, the previous stop otherwise. */
  function LegStart(robot: Pose, stops: seq<StopEntry>, i: nat): Pose
    requires i < |stops|
  {
    if i == 0 then robot else stops[i - 1].stop.goal.pose
  }

  /** The estimate of the leg that ends at stop `i`. */
  function LegTo(planner: Planner, robot: Pose, stops: seq<StopEntry>, i: nat): real
    requires i < |stops|
  {
    Leg(planner, LegStart(robot, stops, i), stops[i].stop.goal.pose)
  }

  /** The battery of the trip robot → stop₀ → stop₁ → …, leg by leg. A leg
      that fails contributes its failure value to the sum. */
  function ChainBattery(planner: Planner, robot: Pose, stops: seq<StopEntry>): real
  {
    if |stops| == 0 then 0.0
    else if |stops| == 1 then Leg(planner, robot, stops[0].stop.goal.pose)
    else ChainBattery(planner, robot, stops[..|stops| - 1])
           + Leg(planner, stops[|stops| - 2].stop.goal.pose, stops[|stops| - 1].stop.goal.pose)
  }

  /** The chain is its first leg followed by the chain that starts at the
      first stop. */
  lemma {:induction false} ChainBatteryFirstLeg(planner: Planner, robot: Pose, stops: seq<StopEntry>)
    requires |stops| >= 1
    ensures ChainBattery(planner, robot, stops)
         == Leg(planner, robot, stops[0].stop.goal.pose) + ChainBattery(planner, stops[0].stop.goal.pose, stops[1..])
    decreases |stops|
  {
    var n := |stops|;
    if n > 1 {
      var front := stops[..n - 1];
      ChainBatteryFirstLeg(planner, robot, front);
      assert front[1..] == stops[1..][..n - 2];
      assert stops[1..][n - 3 + 1] == stops[n - 1];
      if n > 2 {
        assert stops[1..][n - 3] == stops[n - 2];
      }
    }
  }

  /** When every leg has the same estimate `b`, the chain is `b` per stop. */
  lemma {:induction false} ChainBatteryUniform(planner: Planner, robot: Pose, stops: seq<StopEntry>, b: real)
    requires forall i :: 0 <= i < |stops| ==> LegTo(planner, robot, stops, i) == b
    ensures ChainBattery(planner, robot, stops) == |stops| as real * b
    decreases |stops|
  {
    var n := |stops|;
    if n > 1 {
      var front := stops[..n - 1];
      forall i | 0 <= i < |front|
        ensures LegTo(planner, robot, front, i) == b
      {
        assert front[i] == stops[i];
        assert LegStart(robot, front, i) == LegStart(robot, stops, i);
        assert LegTo(planner, robot, stops, i) == b;
      }
      ChainBatteryUniform(planner, robot, front, b);
      assert LegTo(planner, robot, stops, n - 1) == b;
      assert ChainBattery(planner, robot, stops) == ChainBattery(planner, robot, front) + b;
    } else if n == 1 {
      assert LegTo(planner, robot, stops, 0) == b;
    }
  }

  /** When every leg's plan fails, each stop adds −1 to the chain unchecked. */
  lemma ChainBatteryAllLegsFail(planner: Planner, robot: Pose, stops: seq<StopEntry>)
    requires forall i :: 0 <= i < |stops| ==> planner(LegStart(robot, stops, i), stops[i].stop.goal.pose).None?
    ensures ChainBattery(planner, robot, stops) == -(|stops| as real)
  {
    ChainBatteryUniform(planner, robot, stops, PlanFailure);
  }

  /** The compound-task cost. */
  function LargeTaskCost(tw: TaskWeight, stopCount: nat, battery: real, waitingSeconds: real,
                         openPossibility: real, priority: int): real
    requires stopCount > 0
  {
    tw.wtBtr / stopCount as real * battery
      + tw.wtWait * waitingSeconds
      + tw.wtPsb * openPossibility
      + tw.wtPri * priority as real
  }

  /** The battery term of the compound-task cost is the battery weight times
      the mean leg when every leg has the same estimate. */
  lemma LargeTaskBatteryTermIsPerStop(tw: TaskWeight, planner: Planner, robot: Pose, stops: seq<StopEntry>, b: real)
    requires |stops| > 0
    requires forall i :: 0 <= i < |stops| ==> LegTo(planner, robot, stops, i) == b
    ensures tw.wtBtr / |stops| as real * ChainBattery(planner, robot, stops) == tw.wtBtr * b
  {
    ChainBatteryUniform(planner, robot, stops, b);
    var n := |stops| as real;
    calc {
      tw.wtBtr / n * (n * b);
      (tw.wtBtr / n * n) * b;
      { assert tw.wtBtr / n * n == tw.wtBtr; }
      tw.wtBtr * b;
    }
  }

  /** The door cost. */
  function DoorCost(dw: DoorWeight, battery: real, productPsb: real, secondsSinceUpdate: real): real
  {
    dw.wtBtr * battery + dw.wtPsb * productPsb + dw.wtUpdate * secondsSinceUpdate
  }

  /** The charging-station cost. */
  function ChargingCost(cw: ChargingWeight, remainingTime: real, battery: real): real
  {
    cw.wtRemain * remainingTime + cw.wtBtr * battery
  }

  /** A charging station; the calculator writes its `cost`. */
  class ChargingStation {
    var stationId: int
    var pose: Pose
    var remainingTime: real
    var cost: real
  }

  /** A door to be checked; the calculator writes its `cost`. */
  class Door {
    var doorId: int
    var pose: Pose
    var lastUpdate: Time
    var productPsb: real
    var cost: real
  }

  /** A compound task. `smallTasks` is the std::map from stop key to stop,
      held as its entries in iteration order. */
  class LargeExecuteTask {
    var taskId: int
    var smallTasks: seq<StopEntry>
    var battery: real
    var waitingTime: Time
    var openPossibility: real
    var priority: int
    var cost: real

    /** A std::map iterates its entries by strictly ascending key. */
    predicate Valid()
      reads this
    {
      forall i, j :: 0 <= i < j < |smallTasks| ==> smallTasks[i].key < smallTasks[j].key
    }
  }

  class CostCalculator {
    /** The make_plan service client. */
    const planner: Planner
    var taskWeight: TaskWeight
    var doorWeight: DoorWeight
    var chargingWeight: ChargingWeight

    constructor (planner: Planner, taskWeight: TaskWeight, doorWeight: DoorWeight, chargingWeight: ChargingWeight)
      ensures this.planner == planner && this.taskWeight == taskWeight
      ensures this.doorWeight == doorWeight && this.chargingWeight == chargingWeight
    {
      this.planner := planner;
      this.taskWeight := taskWeight;
      this.doorWeight := doorWeight;
      this.chargingWeight := chargingWeight;
    }

    /** Replaces the task weights with `tw`; nothing else changes. */
    method LoadTaskWeight(tw: TaskWeight)
      modifies this`taskWeight
      ensures taskWeight == tw
    {
      taskWeight := tw;
    }

    /** Replaces the door weights with `dw`; nothing else changes. */
    method LoadDoorWeight(dw: DoorWeight)
      modifies this`doorWeight
      ensures doorWeight == dw
    {
      doorWeight := dw;
    }

    /** Plans from `start` to `end` and sums the battery of the route's steps. */
    method CalculateSimpleBatteryConsumption(start: Pose, end: Pose) returns (b: real)
      ensures planner(start, end).None? ==> b == PlanFailure
      ensures planner(start, end).Some? && |planner(start, end).value| == 0 ==> b == PlanFailure
      ensures planner(start, end).Some? && |planner(start, end).value| > 0 ==>
                b == LinearRate * RouteLength(planner(start, end).value)
                   + AngularRate * RouteOrientation(planner(start, end).value)
      ensures b == Leg(planner, start, end)
    {
      var reply := planner(start, end);
      if reply.None? {
        return PlanFailure;
      }
      var dists := reply.value;
      if |dists| == 0 {
        return PlanFailure;
      }
      b := 0.0;
      var i := 1;
      while i < |dists|
        invariant 1 <= i <= |dists|
        invariant b == RouteBattery(dists[..i])
      {
        var distance := dists[i].stepLength;
        var angle := dists[i].orientationAngle;
        assert dists[..i + 1][..i] == dists[..i];
        b := b + LinearRate * distance + AngularRate * angle;
        i := i + 1;
      }
      assert dists[..i] == dists;
      RouteBatteryIsLinear(dists);
    }

    /** Scores a charging station; only its `cost` is written. A failed plan
        enters the sum as a battery of −1. */
    method CalculateChargingStationCost(cs: ChargingStation, robotPose: Pose)
      modifies cs`cost
      ensures cs.cost == ChargingCost(chargingWeight, cs.remainingTime, Leg(planner, robotPose, cs.pose))
      ensures planner(robotPose, cs.pose).None? ==>
                cs.cost == chargingWeight.wtRemain * cs.remainingTime - chargingWeight.wtBtr
    {
      var battery := CalculateSimpleBatteryConsumption(robotPose, cs.pose);
      cs.cost := ChargingCost(chargingWeight, cs.remainingTime, battery);
    }

    /** Scores a door from the battery to reach it, its possibility product
        and the seconds since it was last observed; only its `cost` is
        written. */
    method CalculateDoorCost(now: Time, door: Door, robotPose: Pose)
      modifies door`cost
      ensures door.cost == DoorCost(doorWeight, Leg(planner, robotPose, door.pose), door.productPsb,
                                    Seconds(now) - Seconds(door.lastUpdate))
      ensures planner(robotPose, door.pose).None? ==>
                door.cost == -doorWeight.wtBtr + doorWeight.wtPsb * door.productPsb
                             + doorWeight.wtUpdate * (Seconds(now) - Seconds(door.lastUpdate))
    {
      var battery := CalculateSimpleBatteryConsumption(robotPose, door.pose);
      var timeSinceLastUpdate := Seconds(now) - Seconds(door.lastUpdate);
      door.cost := DoorCost(doorWeight, battery, door.productPsb, timeSinceLastUpdate);
    }

    /** Chains the legs robot → first stop → next stop → … in key order and
        stores the sum in `lt.battery`; nothing else is written. */
    method CalculateComplexTrajectoryBatteryConsumption(robotPose: Pose, lt: LargeExecuteTask)
      requires lt.Valid() && |lt.smallTasks| > 0
      modifies lt`battery
      ensures lt.battery == ChainBattery(planner, robotPose, lt.smallTasks)
    {
      var stops := lt.smallTasks;
      var battery := 0.0;
      var b := CalculateSimpleBatteryConsumption(robotPose, stops[0].stop.goal.pose);
      battery := battery + b;
      var start := stops[0].stop.goal.pose;
      var i := 1;
      while i < |stops|
        invariant 1 <= i <= |stops|
        invariant start == stops[i - 1].stop.goal.pose
        invariant battery == ChainBattery(planner, robotPose, stops[..i])
      {
        b := CalculateSimpleBatteryConsumption(start, stops[i].stop.goal.pose);
        assert stops[..i + 1][..i] == stops[..i];
        battery := battery + b;
        start := stops[i].stop.goal.pose;
        i := i + 1;
      }
      assert stops[..i] == stops;
      lt.battery := battery;
    }

    /** Scores a compound task: the chained battery spread over its stops, the
        waiting time to the first stop's deadline (negative once it has
        passed: nothing is rejected), its possibility and its priority. Writes
        `battery`, `waitingTime` and `cost` only. */
    method CalculateLargeTasksCost(now: Time, t: LargeExecuteTask, robotPose: Pose)
      requires t.Valid() && |t.smallTasks| > 0
      modifies t`battery, t`waitingTime, t`cost
      ensures t.battery == ChainBattery(planner, robotPose, t.smallTasks)
      ensures t.waitingTime == t.smallTasks[0].stop.goal.stamp - now
      ensures t.cost == LargeTaskCost(taskWeight, |t.smallTasks|, t.battery, Seconds(t.waitingTime),
                                      t.openPossibility, t.priority)
    {
      CalculateComplexTrajectoryBatteryConsumption(robotPose, t);
      t.waitingTime := t.smallTasks[0].stop.goal.stamp - now;
      t.cost := LargeTaskCost(taskWeight, |t.smallTasks|, t.battery, Seconds(t.waitingTime),
                              t.openPossibility, t.priority);
    }
  }
}
