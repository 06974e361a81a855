# Robot task scheduling: the centralized pool and the cost calculator

This project models two parts of a fleet task scheduler in Dafny and proves properties about them.

**The centralized task pool.** Robots ask the pool for their next task. The pool holds a vector of (task, cost) pairs. On each request it does the following, in order:

1. If the robot reports that its last task is completed, it sends that door outcome to the door-possibility table.
2. It refuses the request if the pool is empty.
3. It rescores every task for the asking robot:
   - the cost is −1 when the task is past its deadline or the planner gives no route;
   - otherwise the cost is a weighted sum of the route length, the slack to the deadline and the room's open possibility.
4. It sorts the vector by descending cost and hands out the back entry, which is a cheapest one.
5. It removes that entry from the pool.

**The cost calculator.** It holds task, door and charging weights. It estimates the battery a route consumes: 0.01 per unit of step length plus 0.001 per radian of each waypoint's orientation angle 2·acos(w). That angle is the waypoint's own rotation in the map frame, not a change of heading, so a straight route still pays for its heading. It chains that estimate over the stops of a compound task. It scores compound tasks, doors and charging stations with weighted sums. Each score is written into the scored object's own fields.

Modules:
- `navigation.dfy` (module `Navigation`): the shared types. Time is a count of nanoseconds. A planned route is a sequence of waypoints, each carrying the length of the step that reaches it and its orientation angle 2·acos(w). A plan reply is `Option<Route>`, where `None` is a failed service call. The module also has the route length.
- `cost_function.dfy` (module `Costs`): the class `CostCalculator`, with the classes whose fields it writes: `ChargingStation`, `Door` and `LargeExecuteTask`.
- `centralized_pool.dfy` (module `Pool`): the class `CentralizedPool`. It also holds the task-cost specification, the descending sort, and the multiset of task ids that shows a handed-out task has left the pool.

Each loop of the source is a method with a `while` loop. That method is proved equal to a recursive specification function, and lemmas state the properties of that function. `std::sort` is a library call, not code of the system. It is modelled by a verified insertion-sort function. The pool's contract relies only on what `std::sort` promises: the result is in descending order and is a permutation of the input.

What the code does, and the model with it:
- The pool hands out the MINIMUM cost. It sorts with `p1.second > p2.second` and takes `back()`. It does not take the maximum.
- Entries with cost −1 (expired or unplannable) are not excluded. They take part in the sort and are handed out first (see Findings).
- There is no "no eligible task" failure. The request fails only on an empty pool.
- In the pool's cost formula, priority and battery level are never assigned, so they stay 0. The robot's reported battery level is not used. The possibility is truncated to an integer.
- The compound-task cost takes possibility and priority from the task object itself. It applies no expiry rejection, so its waiting time can be negative.

## Model

| member | source | states |
|---|---|---|
| `Navigation.WholeSeconds` | src/centralized_pool.cpp:71 | the `sec` of a duration is the floor of its seconds; it is negative exactly when the duration is negative |
| `Navigation.TruncateToInt` | src/centralized_pool.cpp:78 | storing the possibility in an int truncates toward zero: the result is within 1 of the value, on the side of zero |
| `Navigation.RouteLengthNonNegative` | src/centralized_pool.cpp:100-103 | the distance summed over consecutive route points is non-negative when every step is a length |
| `Pool.ExpiredTaskCost` | src/centralized_pool.cpp:71-75 | a task whose deadline is before now costs −1, and the cost is the same whatever the planner or the possibility table answers (neither is consulted) |
| `Pool.PlanFailureCost` | src/centralized_pool.cpp:88-98 | a failed plan call or an empty route gives cost −1 |
| `Pool.ValidTaskCost` | src/centralized_pool.cpp:105-108 | a non-expired task with a route costs distance + 0.2·slack + 200 − truncated possibility (priority and battery level keep their default 0 from lines 12-19) |
| `Pool.CostIsSentinelOrAtLeast100` | src/centralized_pool.cpp:100-108 | with non-negative steps and a possibility of at most 100, a cost is either −1 or at least 100, so a valid cost can never be mistaken for −1 |
| `Pool.CentralizedPool.CalculateCost` | src/centralized_pool.cpp:68-118 | the loop's distance sum gives exactly the specified task cost; a task past its deadline gets −1 |
| `Pool.InsertDescending` | src/centralized_pool.cpp:150-154 | inserting into a descending pool keeps it descending and adds exactly that entry |
| `Pool.SortDescending` | src/centralized_pool.cpp:150-154 | the sorted pool is in descending cost order and is a permutation of the input |
| `Pool.Rescore` | src/centralized_pool.cpp:144-147 | rescoring keeps every entry's task and position and gives it the fresh cost of that task |
| `Pool.RescoreKeepsIds` | src/centralized_pool.cpp:144-147 | rescoring leaves the multiset of task ids unchanged |
| `Pool.IdsOfPermutation` | src/centralized_pool.cpp:150-154 | sorting, like any permutation, leaves the multiset of task ids unchanged |
| `Pool.PopBackOfDescending` | src/centralized_pool.cpp:157-165 | after the descending sort, the back entry costs no more than any entry; popping it leaves the other entries, still descending, and removes exactly its id |
| `Pool.HandedOutTaskIsGone` | src/centralized_pool.cpp:163-165 | in a pool with distinct ids, the handed-out task's id is no longer in the pool, so no task is handed out twice, and the ids stay distinct |
| `Pool.CentralizedPool.constructor` | src/centralized_pool.cpp:24-29 | the pool starts with the given entries and no table updates |
| `Pool.CentralizedPool.RescoreAll` | src/centralized_pool.cpp:144-147 | every entry's cost is overwritten by its fresh `calculate_cost`; the tasks and their order are unchanged |
| `Pool.CentralizedPool.PopCheapest` | src/centralized_pool.cpp:150-165 | exactly one entry is removed; it costs no more than any entry; the rest are the other entries as a multiset, in descending order |
| `Pool.CentralizedPool.ProcessRobotRequest` | src/centralized_pool.cpp:120-168 | the door update of a completed last task is sent before anything else; an empty pool answers None (false) and is left unchanged; otherwise the answer carries the goal and room of a minimum-cost entry of the rescored pool, with `is_completed` false, and that entry alone leaves the pool; in a pool with distinct ids the handed-out id is gone and the ids stay distinct |
| `Pool.SentinelIsHandedOutFirst` | src/centralized_pool.cpp:150-159 | as written: when the rescored pool holds a −1 entry and the other costs are valid, the entry handed out has cost −1 |
| `Pool.OverdueTaskIsHandedOut` | src/centralized_pool.cpp:71-75 | as written, on a concrete pool: an on-time task with cost 126 and an overdue task, the overdue task is the one handed out |
| `Pool.CheapestEligible` | src/centralized_pool.cpp:150-159 | corrected selection: the cheapest entry whose cost is not −1, or None exactly when every entry is −1 |
| `Pool.CheapestEligibleAgreesWithoutSentinels` | src/centralized_pool.cpp:150-159 | when no entry costs −1, the corrected selection picks an entry with the same cost as the selection as written |
| `Costs.RouteBatteryIsLinear` | src/cost_function.cpp:79-87 | the summed battery of a route is 0.01 × its length + 0.001 × the sum of its waypoints' orientation angles 2·acos(w) |
| `Costs.ChainBatteryFirstLeg` | src/cost_function.cpp:43-54 | the chained battery is the leg robot→first stop plus the chain that starts at the first stop |
| `Costs.ChainBatteryUniform` | src/cost_function.cpp:43-54 | when every leg has the same estimate b, the chain is b times the number of stops |
| `Costs.ChainBatteryAllLegsFail` | src/cost_function.cpp:47-52 | failed legs are not checked: when every leg's plan fails, the chain adds up to −1 per stop |
| `Costs.LargeTaskBatteryTermIsPerStop` | src/cost_function.cpp:27-30 | the battery term wt_btr / n · battery equals wt_btr times the per-leg estimate when all n legs agree (the division by the stop count gives the mean leg) |
| `Costs.CostCalculator.constructor` | src/cost_function.cpp:3-5 | the calculator keeps the given planner and weights |
| `Costs.CostCalculator.LoadTaskWeight` | src/cost_function.cpp:7-10 | the task weights become exactly the given record; nothing else changes |
| `Costs.CostCalculator.LoadDoorWeight` | src/cost_function.cpp:12-15 | the door weights become exactly the given record; nothing else changes |
| `Costs.CostCalculator.CalculateSimpleBatteryConsumption` | src/cost_function.cpp:56-90 | −1 when the plan call fails or the route is empty; otherwise 0.01 × route length + 0.001 × the sum of the waypoints' orientation angles 2·acos(w) (0 for a one-point route) |
| `Costs.CostCalculator.CalculateChargingStationCost` | src/cost_function.cpp:18-22 | only `cs.cost` changes; it is wt_remain · remainingTime + wt_btr · battery; a failed plan enters as battery −1, undetected |
| `Costs.CostCalculator.CalculateDoorCost` | src/cost_function.cpp:35-40 | only `door.cost` changes; it is wt_btr · battery + wt_psb · product_psb + wt_update · (now − lastUpdate) in seconds; a failed plan enters as battery −1 |
| `Costs.CostCalculator.CalculateComplexTrajectoryBatteryConsumption` | src/cost_function.cpp:43-54 | only `lt.battery` changes; it is the sum of the legs robot→stop₁→stop₂→… in ascending key order |
| `Costs.CostCalculator.CalculateLargeTasksCost` | src/cost_function.cpp:24-33 | only `battery`, `waitingTime` and `cost` change; the waiting time is the first stop's deadline minus now, possibly negative; the cost is wt_btr/n · battery + wt_wait · waiting seconds + wt_psb · openPossibility + wt_pri · priority |

## Left out

- ROS node setup, service advertising, the service clients and `ros::spin`: these are transport. The planner is a function `Planner` given to each class. A request is a call of `ProcessRobotRequest`.
- SQL queries and room/station loading: these are external store I/O. Loading stops the program with `exit(1)` on failure, and that is not modelled either.
  - The possibility table is a function of the updates sent to it (`PossibilityTable`), so the model shows only that the update comes before scoring.
  - Whether an update succeeds is not modelled; the source ignores it too.
- Office-time conversion (`TimeTransfer`) is not part of this model. Table updates and reads carry the raw time.
- Numerics of the real planner: `sqrt`, `pow` and `acos` are not computed. Step lengths and orientation angles are given reals. All costs are exact `real`s, not IEEE doubles.
- Logging, and the `delete` of the handed-out task; the model removes the entry from the sequence instead.
- Task generation (`create_random_tasks`) is not part of this model. The pool's constructor takes its initial entries.
- Locking and concurrency: requests are served one at a time under `ros::spin`.
- `cost_function.h` is not part of this model. The field types of the task, door and station records are inferred from how the code uses them. The charging weights `_cw` are never loaded in the shown code, so they are a constructor argument. The constructor at src/cost_function.cpp:3-5 sets neither `_tw` nor `_dw` either; they get values only from `load_task_weight` and `load_door_weight`, so the constructor's task and door weights are arbitrary values standing for the weights before they are loaded.
- Integer widths: the 32-bit `sec` of a ROS duration and the int conversion of the possibility cannot overflow in the model.
- The frame id, the tolerance 1 and the start header of the plan request are dropped. They only parametrise the external call.
- `Costs.CostCalculator.CalculateComplexTrajectoryBatteryConsumption` and `Costs.CostCalculator.CalculateLargeTasksCost` require a non-empty stop map. On an empty map the source dereferences `begin()` (src/cost_function.cpp:46-47) and divides by `size()` (src/cost_function.cpp:27), which is undefined behaviour, so that case is not modelled.
- `Pool.CentralizedPool.PopCheapest` and `Pool.CentralizedPool.ProcessRobotRequest` do not say which of several equal-cost entries is handed out. `std::sort` leaves that order unspecified.

## Findings

| source | as written | input that shows it | evidently intended | confidence | as-written member | corrected member |
|---|---|---|---|---|---|---|
| src/centralized_pool.cpp:150-165 | expired or unplannable tasks get cost −1 and take part in the minimum-cost selection; every valid cost is at least 100, so a −1 task is handed out before any valid one | a robot asks at second 5. Task 1 is due at second 10 with a 5-unit route and possibility 80, so its cost is 126. Task 2 was due at second 0, so its cost is −1. Task 2 is handed out | −1 marks a task that cannot be served now, so the selection should take the cheapest entry whose cost is not −1, and hand out nothing when every entry is −1 | medium; not executed | `Pool.OverdueTaskIsHandedOut` | `Pool.CheapestEligible` |

`Pool.CentralizedPool` models the selection as the source writes it. The corrected selection is the function `Pool.CheapestEligible`, and its properties are proved. `Pool.CheapestEligibleAgreesWithoutSentinels` shows that the two selections agree whenever no entry costs −1.
