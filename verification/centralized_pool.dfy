/** The centralized task pool: it scores every pending room task for the robot
    that asks, hands out the cheapest one and removes it from the pool. */
module Pool {
  import opened Navigation

  type RoomId = char

  /** A pending task: enter a room by the deadline stamped on its goal. */
  datatype EnterRoomTask = EnterRoomTask(taskId: int, roomId: RoomId, goal: Goal)

  /** One slot of the pool: a task and the cost it was last given. */
  datatype Entry = Entry(task: EnterRoomTask, cost: real)

  /** The task message exchanged with a robot. */
  datatype TaskMsg = TaskMsg(goal: Goal, isCompleted: bool, roomId: RoomId, doorStatus: int)

  /** A robot's request: the outcome of its last task, its battery level and
      its pose. */
  datatype Request = Request(lastTask: TaskMsg, batteryLevel: real, pose: Pose)

  /** One update sent to the door-possibility table. */
  datatype DoorObservation = DoorObservation(roomId: RoomId, time: Time, doorStatus: int)

  /** The possibility table: the open possibility it reports for a room at a
      time, given the updates it has received so far. */
  type PossibilityTable = (seq<DoorObservation>, RoomId, Time) -> real

  /** The cost given to a task that is expired or cannot be planned. */
  const Sentinel: real := -1.0

  /** The terms of one task's cost. Priority and battery level keep their
      default 0: they are never assigned. */
  datatype CostFunction = CostFunction(distance: real, secDiff: real, priority: int,
                                       openPossibility: int, batteryLevel: real)

  /** The weighted sum of the terms. */
  function Combine(f: CostFunction): real
  {
    f.distance + 0.2 * f.secDiff + 100.0 - f.openPossibility as real
      + (f.priority * 5) as real + 100.0 - f.batteryLevel
  }

  /** The cost of a task due at `deadline`, at time `now`, for the plan the
      planner answered and the possibility the table reported. */
  function TaskCost(deadline: Time, now: Time, reply: PlanReply, possibility: real): real
  {
    var secDiff := WholeSeconds(deadline - now);
    if secDiff < 0 then Sentinel
    else match reply
      case None => Sentinel
      case Some(route) =>
        if |route| == 0 then Sentinel
        else Combine(CostFunction(RouteLength(route), secDiff as real, 0, TruncateToInt(possibility), 0.0))
  }

  /** The cost of `task` for a robot at `robot`, asking at `now`, with the
      table in the state reached after the updates in `log`. */
  function Score(task: EnterRoomTask, now: Time, robot: Pose, planner: Planner,
                 table: PossibilityTable, log: seq<DoorObservation>): real
  {
    TaskCost(task.goal.stamp, now, planner(robot, task.goal.pose), table(log, task.roomId, now))
  }

  /** Every entry keeps its task and takes a fresh cost. */
  function Rescore(cv: seq<Entry>, now: Time, robot: Pose, planner: Planner,
                   table: PossibilityTable, log: seq<DoorObservation>): (r: seq<Entry>)
    ensures |r| == |cv|
    ensures forall k :: 0 <= k < |cv| ==> r[k] == Entry(cv[k].task, Score(cv[k].task, now, robot, planner, table, log))
  {
    if cv == [] then []
    else [Entry(cv[0].task, Score(cv[0].task, now, robot, planner, table, log))] + Rescore(cv[1..], now, robot, planner, table, log)
  }

  /** A task whose deadline is already past (by whole seconds, so by any
      amount of time) costs the sentinel, whatever the planner and the table
      would answer. */
  lemma ExpiredTaskCost(deadline: Time, now: Time, reply1: PlanReply, reply2: PlanReply, p1: real, p2: real)
    requires deadline < now
    ensures TaskCost(deadline, now, reply1, p1) == Sentinel
    ensures TaskCost(deadline, now, reply1, p1) == TaskCost(deadline, now, reply2, p2)
  {
  }

  /** A failed or empty plan costs the sentinel. */
  lemma PlanFailureCost(deadline: Time, now: Time, reply: PlanReply, possibility: real)
    requires reply.None? || reply.value == []
    ensures TaskCost(deadline, now, reply, possibility) == Sentinel
  {
  }

  /** A task that is not expired and has a route costs its length plus 0.2
      per whole second of slack plus 200 minus the possibility truncated to
      an integer. */
  lemma ValidTaskCost(deadline: Time, now: Time, route: Route, possibility: real)
    requires now <= deadline && |route| > 0
    ensures TaskCost(deadline, now, Some(route), possibility)
         == RouteLength(route) + 0.2 * WholeSeconds(deadline - now) as real + 200.0 - TruncateToInt(possibility) as real
  {
  }

  /** A valid cost is at least 100 when the steps are lengths and the
      possibility is at most 100, so it can never be the sentinel. */
  lemma CostIsSentinelOrAtLeast100(deadline: Time, now: Time, reply: PlanReply, possibility: real)
    requires reply.Some? ==> StepsNonNegative(reply.value)
    requires possibility <= 100.0
    ensures TaskCost(deadline, now, reply, possibility) == Sentinel
         || TaskCost(deadline, now, reply, possibility) >= 100.0
  {
    if reply.Some? {
      RouteLengthNonNegative(reply.value);
    }
  }

  /** Costs never increase from front to back. */
  predicate Descending(s: seq<Entry>)
  {
    forall i, j :: 0 <= i < j < |s| ==> s[i].cost >= s[j].cost
  }

  /** Every entry of a descending sequence costs at most its first. */
  lemma HeadIsMaximum(s: seq<Entry>, y: Entry)
    requires Descending(s) && y in s
    ensures s[0].cost >= y.cost
  {
  }

  /** An entry that costs at least every entry of a descending sequence can
      go in front of it. */
  lemma DescendingCons(x: Entry, s: seq<Entry>)
    requires Descending(s)
    requires forall y :: y in s ==> y.cost <= x.cost
    ensures Descending([x] + s)
  {
  }

  /** Inserts `e` into a descending sequence. */
  function InsertDescending(e: Entry, s: seq<Entry>): (r: seq<Entry>)
    requires Descending(s)
    ensures Descending(r)
    ensures multiset(r) == multiset(s) + multiset{e}
    ensures forall x :: x in r ==> x == e || x in s
  {
    if s == [] || s[0].cost < e.cost then
      assert forall y :: y in s ==> y.cost <= e.cost by {
        forall y | y in s ensures y.cost <= e.cost {
          HeadIsMaximum(s, y);
        }
      }
      DescendingCons(e, s);
      [e] + s
    else
      var rest := InsertDescending(e, s[1..]);
      assert s == [s[0]] + s[1..];
      assert forall y :: y in rest ==> y.cost <= s[0].cost by {
        forall y | y in rest ensures y.cost <= s[0].cost {
          if y != e {
            HeadIsMaximum(s, y);
          }
        }
      }
      DescendingCons(s[0], rest);
      [s[0]] + rest
  }

  /** The pool sorted by descending cost, as std::sort with the comparator
      `p1.second > p2.second` leaves it (this definition fixes one order among
      equal costs; the pool only relies on it being descending and a
      permutation). */
  function SortDescending(s: seq<Entry>): (r: seq<Entry>)
    ensures Descending(r)
    ensures multiset(r) == multiset(s)
  {
    if s == [] then []
    else
      assert s == [s[0]] + s[1..];
      InsertDescending(s[0], SortDescending(s[1..]))
  }

  /** The task ids held by a pool. */
  function Ids(cv: seq<Entry>): multiset<int>
  {
    if cv == [] then multiset{} else multiset{cv[0].task.taskId} + Ids(cv[1..])
  }

  lemma {:induction false} IdsAppend(a: seq<Entry>, b: seq<Entry>)
    ensures Ids(a + b) == Ids(a) + Ids(b)
    decreases |a|
  {
    if a == [] {
      assert a + b == b;
    } else {
      assert (a + b)[0] == a[0];
      assert (a + b)[1..] == a[1..] + b;
      IdsAppend(a[1..], b);
    }
  }

  /** Taking entry `j` out of a pool takes out its entry and its id. */
  lemma {:induction false} RemoveAt(b: seq<Entry>, j: nat)
    requires j < |b|
    ensures multiset(b) == multiset(b[..j] + b[j + 1..]) + multiset{b[j]}
    ensures Ids(b) == Ids(b[..j] + b[j + 1..]) + multiset{b[j].task.taskId}
  {
    var front, back := b[..j], b[j + 1..];
    assert b == front + [b[j]] + back;
    RemoveEntry(front, b[j], back);
    RemoveId(front, b[j], back);
  }

  lemma {:induction false} RemoveEntry(front: seq<Entry>, x: Entry, back: seq<Entry>)
    ensures multiset(front + [x] + back) == multiset(front + back) + multiset{x}
  {
  }

  lemma {:induction false} RemoveId(front: seq<Entry>, x: Entry, back: seq<Entry>)
    ensures Ids(front + [x] + back) == Ids(front + back) + multiset{x.task.taskId}
  {
    assert front + [x] + back == front + ([x] + back);
    IdsAppend(front, [x] + back);
    IdsAppend([x], back);
    assert [x][1..] == [];
    IdsAppend(front, back);
  }

  lemma {:induction false} Cancel(p: multiset<Entry>, q: multiset<Entry>, x: Entry)
    requires p + multiset{x} == q + multiset{x}
    ensures p == q
  {
    forall y ensures p[y] == q[y] {
      assert (p + multiset{x})[y] == (q + multiset{x})[y];
    }
  }

  /** An entry held by a pool sits at some index of it. */
  lemma {:induction false} IndexOf(b: seq<Entry>, x: Entry) returns (j: nat)
    requires x in multiset(b)
    ensures j < |b| && b[j] == x
  {
    assert x in b;
    j :| 0 <= j < |b| && b[j] == x;
  }

  /** Pools holding the same entries hold the same ids. */
  lemma {:induction false} IdsOfPermutation(a: seq<Entry>, b: seq<Entry>)
    requires multiset(a) == multiset(b)
    ensures Ids(a) == Ids(b)
    decreases |a|
  {
    if a != [] {
      var x, tail := a[0], a[1..];
      var j := IndexOf(b, x);
      var b' := b[..j] + b[j + 1..];
      RemoveAt(b, j);
      assert a == [x] + tail;
      assert multiset(a) == multiset(tail) + multiset{x};
      Cancel(multiset(tail), multiset(b'), x);
      IdsOfPermutation(tail, b');
      assert Ids(a) == multiset{x.task.taskId} + Ids(tail);
    }
  }

  /** Rescoring changes costs only, so the ids stay the same. */
  lemma {:induction false} RescoreKeepsIds(cv: seq<Entry>, now: Time, robot: Pose, planner: Planner,
                                           table: PossibilityTable, log: seq<DoorObservation>)
    ensures Ids(Rescore(cv, now, robot, planner, table, log)) == Ids(cv)
    decreases |cv|
  {
    if cv != [] {
      var r := Rescore(cv, now, robot, planner, table, log);
      assert r[1..] == Rescore(cv[1..], now, robot, planner, table, log);
      RescoreKeepsIds(cv[1..], now, robot, planner, table, log);
    }
  }

  /** After a descending sort, the back entry costs no more than any entry;
      popping it leaves the others, still descending, with their ids. */
  lemma {:induction false} PopBackOfDescending(rescored: seq<Entry>, sorted: seq<Entry>)
    requires |sorted| > 0 && Descending(sorted) && multiset(sorted) == multiset(rescored)
    ensures multiset(sorted[..|sorted| - 1]) + multiset{sorted[|sorted| - 1]} == multiset(rescored)
    ensures forall e :: e in rescored ==> sorted[|sorted| - 1].cost <= e.cost
    ensures Descending(sorted[..|sorted| - 1])
    ensures Ids(sorted[..|sorted| - 1]) + multiset{sorted[|sorted| - 1].task.taskId} == Ids(rescored)
  {
    var n := |sorted|;
    var last := sorted[n - 1];
    assert sorted == sorted[..n - 1] + [last];
    forall e | e in rescored ensures last.cost <= e.cost {
      assert e in multiset(sorted);
      var k :| 0 <= k < n && sorted[k] == e;
      if k < n - 1 {
        assert sorted[k].cost >= sorted[n - 1].cost;
      }
    }
    IdsAppend(sorted[..n - 1], [last]);
    IdsOfPermutation(sorted, rescored);
  }

  /** No two entries of the pool share a task id. */
  ghost predicate DistinctIds(cv: seq<Entry>)
  {
    forall id :: Ids(cv)[id] <= 1
  }

  /** A task handed out of a pool with distinct ids is no longer in it, so it
      can never be handed out again, and the ids stay distinct. */
  lemma {:induction false} HandedOutTaskIsGone(before: seq<Entry>, after: seq<Entry>, id: int)
    requires DistinctIds(before)
    requires Ids(after) + multiset{id} == Ids(before)
    ensures id !in Ids(after)
    ensures DistinctIds(after)
  {
    assert Ids(before)[id] == Ids(after)[id] + 1;
    forall other ensures Ids(after)[other] <= 1 {
      assert Ids(after)[other] <= Ids(before)[other];
    }
  }

  /** As written, the selection does not skip sentinel costs: when some entry
      of the rescored pool is expired or unplannable and every other cost is
      a valid one (at least 100), the entry handed out is a sentinel one. */
  lemma SentinelIsHandedOutFirst(rescored: seq<Entry>, winner: Entry, invalid: Entry)
    requires winner in rescored && invalid in rescored && invalid.cost == Sentinel
    requires forall e :: e in rescored ==> e.cost == Sentinel || e.cost >= 100.0
    requires forall e :: e in rescored ==> winner.cost <= e.cost
    ensures winner.cost == Sentinel
  {
  }

  /** A robot at `Origin` asks at second 5: task 1 is due at second 10 and has a
      route of length 5, task 2 was due at second 0. */
  const Origin: Pose := Pose(0.0, 0.0, 0.0, 0.0, 0.0, 0.0, 1.0)
  const OnTime: EnterRoomTask := EnterRoomTask(1, 'A', Goal(Origin, 10 * NanosPerSecond))
  const Overdue: EnterRoomTask := EnterRoomTask(2, 'B', Goal(Origin, 0))
  const ExamplePool: seq<Entry> := [Entry(OnTime, 0.0), Entry(Overdue, 0.0)]
  const ExampleNow: Time := 5 * NanosPerSecond

  /** Every plan is a single step of length 5. */
  function FiveMetres(start: Pose, goal: Pose): PlanReply
  {
    Some([Waypoint(0.0, 0.0), Waypoint(5.0, 0.0)])
  }

  /** Every room is open with possibility 80. */
  function OftenOpen(log: seq<DoorObservation>, room: RoomId, time: Time): real
  {
    80.0
  }

  /** On that pool, the entry the request hands out (in the rescored pool,
      and no dearer than any of its entries) is the overdue task. */
  lemma OverdueTaskIsHandedOut(winner: Entry)
    requires winner in Rescore(ExamplePool, ExampleNow, Origin, FiveMetres, OftenOpen, [])
    requires forall e :: e in Rescore(ExamplePool, ExampleNow, Origin, FiveMetres, OftenOpen, []) ==> winner.cost <= e.cost
    ensures winner == Entry(Overdue, Sentinel)
  {
  }

  /** The selection the sentinel evidently asks for: the cheapest entry whose
      cost is not the sentinel, or None when every entry is expired or
      unplannable. Among equal costs the earliest entry is chosen. */
  function CheapestEligible(cv: seq<Entry>): (r: Option<Entry>)
    ensures r.None? <==> forall e :: e in cv ==> e.cost == Sentinel
    ensures r.Some? ==> r.value in cv && r.value.cost != Sentinel
    ensures r.Some? ==> forall e :: e in cv && e.cost != Sentinel ==> r.value.cost <= e.cost
  {
    if cv == [] then None
    else
      var rest := CheapestEligible(cv[1..]);
      assert cv == [cv[0]] + cv[1..];
      if cv[0].cost == Sentinel then rest
      else if rest.None? || cv[0].cost <= rest.value.cost then Some(cv[0])
      else rest
  }

  /** When no entry is a sentinel, the corrected selection hands out an entry
      of the same cost as the selection as written. */
  lemma CheapestEligibleAgreesWithoutSentinels(rescored: seq<Entry>, winner: Entry)
    requires winner in rescored
    requires forall e :: e in rescored ==> e.cost != Sentinel
    requires forall e :: e in rescored ==> winner.cost <= e.cost
    ensures CheapestEligible(rescored).Some?
    ensures CheapestEligible(rescored).value.cost == winner.cost
  {
  }

  /** The update the request sends to the table, if any: one for a completed
      last task. */
  function DoorUpdate(req: Request, now: Time): seq<DoorObservation>
  {
    if req.lastTask.isCompleted
    then [DoorObservation(req.lastTask.roomId, now, req.lastTask.doorStatus)]
    else []
  }

  class CentralizedPool {
    /** The make_plan service client. */
    const planner: Planner
    /** The door-possibility table. */
    const table: PossibilityTable
    /** The pool: every pending task with its last cost. */
    var costVector: seq<Entry>
    /** The updates sent to the possibility table, oldest first. */
    var doorLog: seq<DoorObservation>

    constructor (planner: Planner, table: PossibilityTable, tasks: seq<Entry>)
      ensures this.planner == planner && this.table == table
      ensures costVector == tasks && doorLog == []
    {
      this.planner := planner;
      this.table := table;
      costVector := tasks;
      doorLog := [];
    }

    /** Scores one task for a robot at `robotPos`: the sentinel when it is
        expired or has no route, otherwise the weighted sum of its route's
        length, its slack and its open possibility. */
    method CalculateCost(task: EnterRoomTask, curTime: Time, robotPos: Pose) returns (c: real)
      ensures c == TaskCost(task.goal.stamp, curTime, planner(robotPos, task.goal.pose),
                            table(doorLog, task.roomId, curTime))
      ensures curTime > task.goal.stamp ==> c == Sentinel
    {
      var secDiff := WholeSeconds(task.goal.stamp - curTime);
      if secDiff < 0 {
        return Sentinel;
      }
      var possibility := TruncateToInt(table(doorLog, task.roomId, curTime));
      var reply := planner(robotPos, task.goal.pose);
      if reply.None? {
        return Sentinel;
      }
      var dists := reply.value;
      if |dists| == 0 {
        return Sentinel;
      }
      var distance := 0.0;
      var i := 1;
      while i < |dists|
        invariant 1 <= i <= |dists|
        invariant distance == RouteLength(dists[..i])
      {
        assert dists[..i + 1][..i] == dists[..i];
        distance := distance + dists[i].stepLength;
        i := i + 1;
      }
      assert dists[..i] == dists;
      c := Combine(CostFunction(distance, secDiff as real, 0, possibility, 0.0));
    }

    /** Overwrites every entry's cost with a fresh score (the tasks and their
        order stay as they were). */
    method RescoreAll(now: Time, robotPos: Pose)
      modifies this`costVector
      ensures costVector == Rescore(old(costVector), now, robotPos, planner, table, doorLog)
    {
      ghost var rescored := Rescore(costVector, now, robotPos, planner, table, doorLog);
      var i := 0;
      while i < |costVector|
        invariant 0 <= i <= |costVector| == |old(costVector)|
        invariant forall k :: 0 <= k < i ==> costVector[k] == rescored[k]
        invariant forall k :: i <= k < |costVector| ==> costVector[k] == old(costVector)[k]
      {
        var c := CalculateCost(costVector[i].task, now, robotPos);
        assert c == Score(costVector[i].task, now, robotPos, planner, table, doorLog);
        costVector := costVector[i := Entry(costVector[i].task, c)];
        i := i + 1;
      }
    }

    /** Sorts the pool by descending cost and pops its back entry, one of
        minimum cost. */
    method PopCheapest() returns (best: Entry)
      requires costVector != []
      modifies this`costVector
      ensures multiset(costVector) + multiset{best} == multiset(old(costVector))
      ensures |costVector| == |old(costVector)| - 1
      ensures forall e :: e in old(costVector) ==> best.cost <= e.cost
      ensures Descending(costVector)
      ensures Ids(costVector) + multiset{best.task.taskId} == Ids(old(costVector))
      ensures DistinctIds(old(costVector)) ==> DistinctIds(costVector) && best.task.taskId !in Ids(costVector)
    {
      var sorted := SortDescending(costVector);
      PopBackOfDescending(costVector, sorted);
      var n := |sorted|;
      assert n == |multiset(sorted)| == |multiset(costVector)| == |costVector|;
      best := sorted[n - 1];
      costVector := sorted[..n - 1];
      if DistinctIds(old(costVector)) {
        HandedOutTaskIsGone(old(costVector), costVector, best.task.taskId);
      }
    }

    /** Serves one robot request. The door outcome of a completed last task is
        sent to the table first. An empty pool answers None and is left as it
        was. Otherwise every entry is rescored, the pool is sorted by
        descending cost, and the back entry, one of minimum cost, is handed
        out and removed; sentinel costs take part like any other. In a pool
        with distinct ids the handed-out task is gone for good. */
    method ProcessRobotRequest(req: Request, now: Time) returns (res: Option<TaskMsg>, ghost winner: Entry)
      modifies this
      ensures doorLog == old(doorLog) + DoorUpdate(req, now)
      ensures res.None? <==> old(costVector) == []
      ensures res.None? ==> costVector == old(costVector)
      ensures res.Some? ==>
                var rescored := Rescore(old(costVector), now, req.pose, planner, table, doorLog);
                && multiset(costVector) + multiset{winner} == multiset(rescored)
                && |costVector| == |old(costVector)| - 1
                && (forall e :: e in rescored ==> winner.cost <= e.cost)
                && Descending(costVector)
                && res.value == TaskMsg(winner.task.goal, false, winner.task.roomId, 0)
                && Ids(costVector) + multiset{winner.task.taskId} == Ids(old(costVector))
      ensures res.Some? && DistinctIds(old(costVector)) ==>
                DistinctIds(costVector) && winner.task.taskId !in Ids(costVector)
    {
      if req.lastTask.isCompleted {
        doorLog := doorLog + [DoorObservation(req.lastTask.roomId, now, req.lastTask.doorStatus)];
      }
      if |costVector| == 0 {
        winner := Entry(EnterRoomTask(0, 'a', Goal(req.pose, now)), 0.0);
        return None, winner;
      }
      RescoreAll(now, req.pose);
      RescoreKeepsIds(old(costVector), now, req.pose, planner, table, doorLog);
      ghost var rescored := costVector;
      assert Ids(rescored) == Ids(old(costVector));
      var best := PopCheapest();
      res := Some(TaskMsg(best.task.goal, false, best.task.roomId, 0));
      winner := best;
    }
  }
}
