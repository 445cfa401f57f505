# Verification of the robot middleware's control kernels

A Dafny model of the parts of the middleware that decide: the process supervisor, the costmap
and its planner, the telemetry ring buffer, the tracking filter, the scan clustering, the A/B
update coordinator and the task scheduler. Each component is given twice: as functions on
values, about which the theorems are stated, and, where the C++ works in place, as classes and
methods over fields and arrays that are proved equal to those functions. `dafny verify
dfyconfig.toml` checks everything.

## What is modelled

**Supervisor** (`SupervisorPolicy`, `TopoOrder`, `SupervisorModel`, `SupervisorSafety`,
`SupervisorCascade`, `SupervisorRuns`, `SupervisorBringUp`, `SupervisorRounds`,
`SupervisorPacing`, `SupervisorOneshots`, `SupervisorConfirmation`, `SupervisorRecovery`,
`SupervisorWindow`, `SupervisorNode`, `HealthFeed`).
`World` holds the child table and the set of live operating-system processes. The environment
is three arbitrary answer streams: clock readings (not even monotone), waitpid results and spawn
results. A run is activation followed by any sequence of timer ticks and health reports. The
invariant of `SupervisorRuns.RunKeeps` is the heart: ownership of processes, restart budget,
dependency order and health gate, over the whole dependency graph at once.

**Planner** (`Grids`, `GridPaths`, `AStarPlanner`, `OpenField`, `OccupancyGrids`, `GridUpdater`,
`ScanToGrid`). The search invariant says that every legal move out of a closed cell is closed or
on offer, and that every closed node is within max(1, w) of the cheapest path; the second half
survives without reopening because the octile estimate is consistent.

**Ring buffer** (`RingBuffer`). Each thread's call is split at its atomic loads and stores, and
the two threads interleave arbitrarily. Every interleaving refines a bounded queue that knows
neither slots nor cursors.

**Tracking filter** (`Matrices`, `KalmanCovariance`, `KalmanGain`, `KalmanFilter`,
`KalmanFirstUpdate`, `KalmanEstimate`). Matrix algebra over the reals, and the buffers and nested
loops that carry it out, for both measurement models.

**Clustering** (`ClusterDetector`). A correct labelling is defined without reference to the
algorithm; a *strong* core has at least min_pts neighbours other than itself.

**Update coordinator** (`OtaCoordinator`). The coordinator runs against a device with image slots
and a boot marker. The device records every state it passes through, so crash safety is a
statement about every instant, the middle of a write included. Every operation may fail.

**Scheduler** (`TaskScheduler`). Submissions carry ghost tickets; `All()` lists everything ever
submitted in the order in which it ran or would run, and completion leaves that list unchanged.

## Where the code differs from what it promises

- A wait of zero or less makes `feed` spawn while the phase is BACKOFF, so a child can own a
  process there and later a second one. Policies that allow no such wait are called paced. All
  runs are sound iff every policy is paced (`PacedIff`); `CrashSoundIff` is the exact condition of
  one step; theorems that speak of process ownership or
  health require paced policies.
- Backoff step 0 is not capped by the maximum: `CappedIff` and `DelayIff` are exact.
- A child is brought up only while its dependencies are RUNNING, and a oneshot that has completed
  is not. A dependent that was not started before waits as long as everything the oneshot depends
  on stays up (`NextWaits`, `DependentWaits`; for one report also `MarkKeptIff`), for good if that
  is nothing (`WaitsForGood`, with `PairWaits` as an instance). When something the oneshot depends
  on dies, the oneshot loses its completion mark (`MarkGoes`) and the tree comes up again level by
  level (`Recovers`): `WaitingEnds` is a run in which the dependent starts after all. Dependency
  safety counts completed oneshots among the dependencies a child may rely on.
- Only flips are reported, so a gated child that is started while its health is OK already is not
  confirmed. `ConfirmedIff` says exactly when a child is, `NeverConfirmed` what follows for a
  health that stays OK, `HealthyButStarting` is a run in which it happens, and on that run the
  healthy child is killed until it is FATAL (`HealthyEndsFatal`).
- A health node listed by two children reports only for the last one, and the other child never
  counts as alive: `AggregateIff` is the exact condition, `SharedNeverAlive` the consequence.
- `full()` of the ring buffer is never true (`RingBuffer.RingBuffer.IsFull`).
- The first Kalman update clears the accumulator of H P inside its innermost loop, so it divides by
  the noise alone and may increase a variance. `FirstUpdateIff` is the exact condition for the
  whole call, refusals included, for both measurement models; `FreshFirstUpdateIff` is it for a
  position filter fresh from reset, `FreshJump` an instance. Definiteness survives.
- The seed test of the clustering counts the point itself, the expansion test does not: cores with
  exactly min_pts-1 neighbours are expanded only as seeds. `StandardIff` says exactly on which
  inputs the result is nevertheless that of standard DBSCAN, `WeakCoresBreakStandard` gives one on
  which it is not. It speaks of complete results; when the cap on the number of clusters stops
  the search, `StandardWithIsolatedWeakCores` still gives a sufficient condition.
- The clearance of inflation is min(inscribed, inflation), not the inscribed radius alone.
- A coordinator that can switch but has no `rollback_marker`, or whose rollback fails, reports
  ROLLED_BACK while the marker stays on the candidate slot (`MarkerExactIff`,
  `MarkerNeedsRollback`).
- The update check compares with the security counter only, so an active version above the
  counter can be replaced by an older one (`NoDowngradeIff`).
- After a failed marker switch inside `run_update` the coordinator stays in SWITCHING
  (`RefusalsTouchNothing`), where `run_update` is refused and only `switch_boot_target` goes on
  (`OnlySwitchGoesOn`).

## Model

| member | source | states |
|---|---|---|
| `SupervisorRuns.RunKeeps` | src/infrastructure/supervisor_node.cpp:192-288 | after activation and any sequence of ticks and health reports, in any environment (clock, spawn and wait answers), process ownership, restart budget, dependency order and health gate all hold |
| `SupervisorRuns.ProcessOwnership` | src/infrastructure/supervisor_node.cpp:161-288 | between inputs a child has a process exactly in STARTING or RUNNING, and never two at once |
| `SupervisorRuns.DependencySafety` | src/infrastructure/supervisor_node.cpp:182-288 | a child in STARTING, RUNNING or BACKOFF has every dependency RUNNING; a oneshot dependency may have completed instead |
| `SupervisorRuns.BudgetHolds` | include/ros2_robot_middleware/domain/monitoring/supervisor_policy.hpp:101-113 | after every run, for every policy: FATAL iff the restarts exceed max_restarts; otherwise the backoff step equals the restarts spent, and a child in BACKOFF waits exactly the delay of its last restart |
| `SupervisorRuns.BackoffWaits` | include/ros2_robot_middleware/domain/monitoring/supervisor_policy.hpp:85-113 | after every run a child in BACKOFF that has spent k restarts since its last reset waits min(base * 2^(k-1), max), if base <= max |
| `SupervisorRuns.NeverConfirmed` | src/infrastructure/supervisor_node.cpp:261-266 | a gated child that is not RUNNING while its aggregate stays OK never becomes RUNNING, on any continuation: there is no flip to report |
| `SupervisorConfirmation.ConfirmedIff` | src/infrastructure/supervisor_node.cpp:261-266 | over one input of any run a gated child that is not RUNNING becomes RUNNING iff it is STARTING, the input is a report that flips its aggregate to alive, and no RUNNING child it depends on is lost by that report |
| `SupervisorConfirmation.DeliverConfirms` | src/infrastructure/supervisor_node.cpp:316-321 | whatever the order of the signals of a report, a child ends RUNNING iff it was, or was STARTING and is signalled alive, and no RUNNING child it depends on is signalled lost |
| `SupervisorConfirmation.HealthyButStarting` | src/infrastructure/supervisor_node.cpp:261-279 | a run in which the flip is spent while the child waits: it ends STARTING with a process and its aggregate OK |
| `SupervisorConfirmation.HealthyEndsFatal` | src/infrastructure/supervisor_node.cpp:277-282 | on that run, although the process never exits and the health stays OK from the first report on, the start timeout kills the child every second tick, and after two ticks for every restart allowed it is FATAL for good |
| `SupervisorRuns.GateHolds` | src/infrastructure/supervisor_node.cpp:261-266 | a health-gated child in RUNNING has OK as the latest verdict on every one of its health nodes, each of which reports for it |
| `SupervisorRuns.FatalStays` | include/ros2_robot_middleware/domain/monitoring/supervisor_policy.hpp:193-194 | FATAL is final over every continuation of every run |
| `SupervisorRuns.FatalBlocks` | src/infrastructure/supervisor_node.cpp:182-231 | once a child is FATAL no transitive dependent ever has a process again |
| `SupervisorWindow.VisitFate` | src/infrastructure/supervisor_node.cpp:247-284 | what a tick does to a child in STARTING or RUNNING, by the answer of waitpid and the clock alone: reaped (completed, one restart more, or over budget), confirmed, timed out, left alone, or, RUNNING for window_ns, its restarts set to 0 |
| `SupervisorWindow.VisitTooEarly` | src/infrastructure/supervisor_node.cpp:274-276 | a child in BACKOFF is not touched before its time |
| `SupervisorWindow.TickForgivesIff` | src/infrastructure/supervisor_node.cpp:266-268 | a child RUNNING before and after a tick keeps its start time, and its restarts unless it has been RUNNING for window_ns; then they are 0, waitpid failures apart |
| `SupervisorWindow.RunForgivesIff` | src/infrastructure/supervisor_node.cpp:247-323 | the same over one input of any run; a health report never forgives a restart |
| `SupervisorWindow.TickSpends` | include/ros2_robot_middleware/domain/monitoring/supervisor_policy.hpp:98-197 | a tick that does not find the child RUNNING for window_ns forgets no restart, and a death spends one |
| `SupervisorWindow.DeathsAddUp` | include/ros2_robot_middleware/domain/monitoring/supervisor_policy.hpp:98-197 | over any continuation in which no tick finds the child RUNNING for window_ns, its restarts grow by at least the deaths it suffers |
| `SupervisorWindow.CrashLoopEndsFatal` | include/ros2_robot_middleware/domain/monitoring/supervisor_policy.hpp:101-113 | more than max_restarts deaths of a child that is no oneshot, with no such tick between them, end in FATAL, on every run and for every policy |
| `SupervisorRuns.CrashSoundIff` | src/infrastructure/supervisor_node.cpp:217-222 | feeding the crash of a reaped child keeps the invariant exactly if the child is over budget, its delay is positive, or the premature spawn fails |
| `SupervisorRuns.SecondProcess` | src/infrastructure/supervisor_node.cpp:217-222 | a child left in BACKOFF with a process gets a second one at the due restart |
| `SupervisorRuns.UnpacedActivation` | include/ros2_robot_middleware/domain/monitoring/supervisor_policy.hpp:85-113 | with a backoff base of zero or less for the first child, gated or not, activation itself breaks ownership in some environment |
| `SupervisorPacing.PacedIff` | src/infrastructure/supervisor_node.cpp:192-288 | with or without health gates, as long as no health node is shared, all runs in all environments keep process ownership, budgets and dependency order exactly if every policy is paced |
| `SupervisorPacing.BaseBreaks` | src/infrastructure/supervisor_node.cpp:214-222 | a base of zero or less breaks some run as soon as a restart is allowed: the failed first start of the child is followed by a process in BACKOFF |
| `SupervisorPacing.MaxBreaks` | src/infrastructure/supervisor_node.cpp:214-222 | a positive base with a maximum of zero or less breaks some run as soon as two restarts are allowed |
| `SupervisorPacing.RunLocal` | src/infrastructure/supervisor_node.cpp:192-288 | a run depends on the spawn results it has used up and on no later one |
| `SupervisorOneshots.NextWaits` | src/infrastructure/supervisor_node.cpp:182-190 | over one input a stopped dependent of a completed oneshot stays stopped, and the oneshot keeps its completion mark iff everything it depends on is still up |
| `SupervisorOneshots.DependentWaits` | src/infrastructure/supervisor_node.cpp:237-245 | a stopped dependent of a completed oneshot stays stopped on every continuation through which everything the oneshot depends on stays up |
| `SupervisorOneshots.WaitsForGood` | src/infrastructure/supervisor_node.cpp:237-245 | for good, if the oneshot depends on nothing |
| `SupervisorOneshots.PairWaits` | src/infrastructure/supervisor_node.cpp:237-288 | a run in which a dependent waits: the oneshot exits before it was seen alive |
| `SupervisorOneshots.MarkGoes` | src/infrastructure/supervisor_node.cpp:182-190 | when a child dies, every oneshot that depends on it loses its completion mark |
| `SupervisorOneshots.ReadyStarts` | src/infrastructure/supervisor_node.cpp:237-245 | a stopped child without a mark is started by the scan that finds its dependencies RUNNING |
| `SupervisorConfirmation.MarkKeptIff` | src/infrastructure/supervisor_node.cpp:182-190 | over one report of any run a completed oneshot keeps its completion mark iff no RUNNING child it depends on is lost by the report |
| `SupervisorRecovery.WaitingEnds` | src/infrastructure/supervisor_node.cpp:182-288 | a run in which a waiting dependent starts after all: the child under the oneshot crashes and restarts, the oneshot runs again, the dependent follows |
| `SupervisorRecovery.Recovers` | src/infrastructure/supervisor_node.cpp:237-288 | after any run of an ungated tree that left nothing FATAL or completed and no wait ahead: if nothing fails from there on, 2k ticks bring up every child of dependency depth below k |
| `SupervisorRecovery.TickMends` | src/infrastructure/supervisor_node.cpp:247-288 | a tick in which nothing fails confirms what was started, starts what waited, and starts what was stopped with all its dependencies RUNNING |
| `SupervisorRuns.NextKeeps` | src/infrastructure/supervisor_node.cpp:247-323 | one tick or one health report keeps the whole system invariant |
| `SupervisorRuns.SignalKeeps` | src/infrastructure/supervisor_node.cpp:316-321 | one health callback keeps the table sound |
| `SupervisorRuns.DeliverKeeps` | src/infrastructure/supervisor_node.cpp:316-321 | delivering all flips of a report leaves every gated running child alive |
| `SupervisorSafety.CascadeSafe` | src/infrastructure/supervisor_node.cpp:182-190 | after a death and its cascade nobody relies on the dead child, and nobody else lost track of its process |
| `SupervisorSafety.DeathKeeps` | src/infrastructure/supervisor_node.cpp:192-235 | exit, crash, start timeout and health loss, fed in a live phase, leave the whole table sound |
| `SupervisorSafety.SpawnKeeps` | src/infrastructure/supervisor_node.cpp:237-245 | a bring-up whose spawn succeeds or fails keeps the invariant |
| `SupervisorSafety.RestartKeeps` | src/infrastructure/supervisor_node.cpp:274-276 | a due BACKOFF restart keeps the invariant although dependencies are not checked again |
| `SupervisorSafety.ConfirmKeeps` | src/infrastructure/supervisor_node.cpp:261-269 | the RUNNING, HEALTH_OK and RUNNING_STABLE confirmations keep the invariant |
| `SupervisorSafety.TickKeeps` | src/infrastructure/supervisor_node.cpp:247-288 | one whole tick keeps the invariant |
| `SupervisorSafety.ActivationKeeps` | src/infrastructure/supervisor_node.cpp:327-333 | the first bring-up establishes the invariant |
| `SupervisorCascade.DependentsExact` | src/infrastructure/supervisor_node.cpp:119-131 | the one-pass scan returns exactly the children that depend on the name, directly or through others |
| `SupervisorCascade.ScanSorted` | src/infrastructure/supervisor_node.cpp:119-131 | the result is in dependency order |
| `SupervisorCascade.DownstreamFirst` | src/infrastructure/supervisor_node.cpp:182-190 | when the cascade comes to a dependent, everything that needs that child has already stepped aside |
| `SupervisorBringUp.BoundedBringUp` | src/infrastructure/supervisor_node.cpp:237-245 | if spawns succeed, nothing exits and no child is gated, after activation and k ticks exactly the children of dependency depth below k are RUNNING, and all of them after as many ticks as there are children |
| `SupervisorRounds.GatedBringUp` | src/infrastructure/supervisor_node.cpp:237-288 | with health gates: if spawns succeed, nothing exits and each round reports the health of the children started last, after k rounds exactly the children of depth below k are RUNNING |
| `SupervisorRounds.AggregateReported` | include/ros2_robot_middleware/infrastructure/health_feed.hpp:72-110 | of these reports exactly the children of depth below k come alive in the first k rounds |
| `SupervisorBringUp.TickRaisesLevel` | src/infrastructure/supervisor_node.cpp:247-288 | one calm tick raises the tree by exactly one dependency level |
| `SupervisorPolicy.BackoffNs` | include/ros2_robot_middleware/domain/monitoring/supervisor_policy.hpp:85-93 | the loop equals the closed form of the delay, for every policy and step, non-positive ones included |
| `SupervisorPolicy.DelayIff` | include/ros2_robot_middleware/domain/monitoring/supervisor_policy.hpp:85-93 | every delay is min(base * 2^k, max) iff base <= max, for policies of every sign |
| `SupervisorPolicy.CappedIff` | include/ros2_robot_middleware/domain/monitoring/supervisor_policy.hpp:85-93 | no delay exceeds the maximum iff the base does not |
| `SupervisorPolicy.EnterBackoff` | include/ros2_robot_middleware/domain/monitoring/supervisor_policy.hpp:101-113 | the new state and action are those of the death table |
| `SupervisorPolicy.Transition` | include/ros2_robot_middleware/domain/monitoring/supervisor_policy.hpp:98-197 | state and action are those of the transition table, for every phase and event |
| `SupervisorPolicy.Step` | include/ros2_robot_middleware/domain/monitoring/supervisor_policy.hpp:98-197 | a SPAWN action comes only from a due restart or from a death that leads to BACKOFF |
| `SupervisorPolicy.BudgetKept` | include/ros2_robot_middleware/domain/monitoring/supervisor_policy.hpp:98-197 | every event keeps the budget relation |
| `SupervisorPolicy.PacedDelay` | include/ros2_robot_middleware/domain/monitoring/supervisor_policy.hpp:85-113 | under a paced policy every reachable delay is positive |
| `SupervisorPolicy.UnpacedDelay` | include/ros2_robot_middleware/domain/monitoring/supervisor_policy.hpp:85-113 | every other policy has a step within its budget whose delay is over at once |
| `TopoOrder.Topo` | include/ros2_robot_middleware/domain/monitoring/supervisor_policy.hpp:200-233 | returns a dependency order of all names exactly when names are unique, dependencies known and the graph acyclic; otherwise nothing; a child comes after one declared later only if a dependency of its own held it back |
| `TopoOrder.Pass` | include/ros2_robot_middleware/domain/monitoring/supervisor_policy.hpp:219-229 | one pass over the declarations places what is ready, in the order of declaration, and reports no progress only if nothing was |
| `TopoOrder.PlaceStable` | include/ros2_robot_middleware/domain/monitoring/supervisor_policy.hpp:219-229 | placing the child the pass has come to keeps the order of declaration among children that were not held back |
| `TopoOrder.OrderMeansAcyclic` | include/ros2_robot_middleware/domain/monitoring/supervisor_policy.hpp:200-233 | an order exists only for an acyclic graph |
| `TopoOrder.StuckIsCyclic` | include/ros2_robot_middleware/domain/monitoring/supervisor_policy.hpp:232 | a non-empty set in which everyone waits for someone contains a cycle |
| `TopoOrder.BarrenIsCyclic` | include/ros2_robot_middleware/domain/monitoring/supervisor_policy.hpp:217-232 | a pass without progress before all are placed means a cycle |
| `TopoOrder.NamesUnique` | include/ros2_robot_middleware/domain/monitoring/supervisor_policy.hpp:201-206 | detects a repeated name |
| `TopoOrder.DepsKnown` | include/ros2_robot_middleware/domain/monitoring/supervisor_policy.hpp:207-211 | detects an unknown dependency |
| `SupervisorNode.LoadChildren` | src/infrastructure/supervisor_node.cpp:68-108 | accepts a declaration exactly when no command line is empty and it is well formed, and then yields a dependency order |
| `SupervisorNode.LoadedIsValid` | src/infrastructure/supervisor_node.cpp:99-108 | an accepted declaration is a valid configuration for all results above |
| `SupervisorNode.SupervisorNode.SpawnChild` | src/infrastructure/supervisor_node.cpp:133-159 | success gives the child a process number never used before; failure changes nothing but the count of attempts |
| `SupervisorNode.SupervisorNode.KillChild` | src/infrastructure/supervisor_node.cpp:161-180 | the process is gone from the table and from the child |
| `SupervisorNode.SupervisorNode.DepsAllRunning` | src/infrastructure/supervisor_node.cpp:110-117 | true iff every dependency is RUNNING |
| `SupervisorNode.SupervisorNode.TransitiveDependents` | src/infrastructure/supervisor_node.cpp:119-131 | equals the one-pass scan |
| `SupervisorNode.SupervisorNode.CascadeYield` | src/infrastructure/supervisor_node.cpp:182-190 | the loop from the last dependent to the first equals the specified cascade |
| `SupervisorNode.SupervisorNode.Feed` | src/infrastructure/supervisor_node.cpp:192-235 | the mutually recursive methods leave exactly the specified world |
| `SupervisorNode.SupervisorNode.TryBringUp` | src/infrastructure/supervisor_node.cpp:237-245 | the loop equals the specified bring-up over the dependency order |
| `SupervisorNode.SupervisorNode.OnTick` | src/infrastructure/supervisor_node.cpp:247-288 | the loop over the children and the bring-up equal the specified tick |
| `SupervisorNode.SupervisorNode.OnHealth` | src/infrastructure/supervisor_node.cpp:316-321 | a callback feeds HEALTH_OK or HEALTH_LOST, and an unknown child is ignored |
| `SupervisorNode.SupervisorNode.OnReport` | src/infrastructure/supervisor_node.cpp:316-321 | a report, dispatched and delivered, is one step of the run |
| `SupervisorNode.SupervisorNode.OnActivate` | src/infrastructure/supervisor_node.cpp:327-335 | activation is the first state of every run |
| `HealthFeed.DispatchExact` | include/ros2_robot_middleware/infrastructure/health_feed.hpp:72-110 | the callbacks of a report are exactly the children whose aggregate changed, each once, with the new value |
| `HealthFeed.EvaluateExact` | include/ros2_robot_middleware/infrastructure/health_feed.hpp:92-110 | re-evaluating the touched children signals each flip exactly once |
| `HealthFeed.AbsorbTracks` | include/ros2_robot_middleware/infrastructure/health_feed.hpp:75-91 | the status maps hold exactly the latest OK/ERROR/FATAL verdicts; WARN and STALE change nothing |
| `HealthFeed.LatestExact` | include/ros2_robot_middleware/infrastructure/health_feed.hpp:75-91 | a node counts as good iff the last report on it other than WARN, STALE and unknown words was OK, and as bad iff it was ERROR or FATAL |
| `HealthFeed.AllOkExact` | include/ros2_robot_middleware/infrastructure/health_feed.hpp:96-105 | every node of a child counts as good iff the last word on each was OK |
| `HealthFeed.AbsorbedInOrder` | include/ros2_robot_middleware/infrastructure/health_feed.hpp:75-91 | children are touched by just the items that change what is known of their nodes, in the order of these items |
| `HealthFeed.EvaluatedInOrder` | include/ros2_robot_middleware/infrastructure/health_feed.hpp:92-110 | signals come in the order in which their children were first touched, and exactly the touched children get their conclusion renewed |
| `HealthFeed.AllOkIsAggregate` | include/ros2_robot_middleware/infrastructure/health_feed.hpp:96-105 | the conclusion is true iff the latest verdict on every node of the child is OK and every one of these nodes reports for this child |
| `HealthFeed.AggregateIff` | include/ros2_robot_middleware/infrastructure/health_feed.hpp:49-53 | alive means that the latest verdict on every node is OK, on every history, iff no other child took over one of the nodes |
| `HealthFeed.SharedNeverAlive` | include/ros2_robot_middleware/infrastructure/health_feed.hpp:49-53 | a child that lost a node to another never counts as alive |
| `HealthFeed.FreshTracks` | include/ros2_robot_middleware/infrastructure/health_feed.hpp:45-61 | before the first report every child with nodes is not alive |
| `HealthFeed.HealthFeed.constructor` | include/ros2_robot_middleware/infrastructure/health_feed.hpp:49-53 | a health node reports for the last child that lists it |
| `HealthFeed.HealthFeed.Dispatch` | include/ros2_robot_middleware/infrastructure/health_feed.hpp:72-93 | the method equals the specified fold and emits its signals in order |
| `HealthFeed.HealthFeed.Evaluate` | include/ros2_robot_middleware/infrastructure/health_feed.hpp:96-110 | flips exactly when the conclusion differs from the one reported last |
| `AStarPlanner.Plan` | include/ros2_robot_middleware/domain/planning/astar_planner.hpp:74-81 | a returned path joins snapped start and goal, is legal, repeats no cell, stays traversable and costs at most max(1, w) times the cheapest legal path between them, makes every move to a neighbour and past no blocked corner, and has no more cells than iterations; no path means that an endpoint cannot be snapped, the goal is unreachable, or all max_iterations go by in a search that has not come to the goal, which cannot be with a cap of 8*W*H+1 or more |
| `AStarPlanner.Search` | include/ros2_robot_middleware/domain/planning/astar_planner.hpp:138-179 | the same bound for any consistent estimate and any w >= 0, without ever reopening a closed cell; without a path, the goal is unreachable or max_iterations iterations, each taking out a cheapest entry, were spent |
| `AStarPlanner.PoppedWithinFactor` | include/ros2_robot_middleware/domain/planning/astar_planner.hpp:145-152 | a popped unvisited node costs at most max(1, w) times any legal path to its cell |
| `AStarPlanner.ExpandKeepsInv` | include/ros2_robot_middleware/domain/planning/astar_planner.hpp:151-175 | closing a node and pushing its moves keeps the search invariant |
| `AStarPlanner.SkipKeepsInv` | include/ros2_robot_middleware/domain/planning/astar_planner.hpp:149-150 | dropping a stale entry keeps the search invariant |
| `AStarPlanner.Expand` | include/ros2_robot_middleware/domain/planning/astar_planner.hpp:156-175 | the pushed entries are exactly the legal moves to unvisited cells |
| `AStarPlanner.PopMin` | include/ros2_robot_middleware/domain/planning/astar_planner.hpp:147-148 | the popped entry has least f |
| `AStarPlanner.EntriesScored` | include/ros2_robot_middleware/domain/planning/astar_planner.hpp:156-175 | every entry on offer is ranked by its price plus the weight times the estimate |
| `AStarPlanner.ExhaustedMeansUnreachable` | include/ros2_robot_middleware/domain/planning/astar_planner.hpp:145-178 | an empty queue means no legal path reaches the goal |
| `AStarPlanner.ClosedInGrid` | include/ros2_robot_middleware/domain/planning/astar_planner.hpp:138-154 | no cell is closed twice, so at most W*H nodes are ever closed |
| `AStarPlanner.GoalClosed` | include/ros2_robot_middleware/domain/planning/astar_planner.hpp:156 | the path read back at the goal is legal, without repetition and within the factor |
| `AStarPlanner.TraceIsPath` | include/ros2_robot_middleware/domain/planning/astar_planner.hpp:181-192 | the parent chain is a legal path whose price is the node's g |
| `AStarPlanner.TraceRepeatsNothing` | include/ros2_robot_middleware/domain/planning/astar_planner.hpp:181-192 | the parent chain repeats no cell |
| `AStarPlanner.Reconstruct` | include/ros2_robot_middleware/domain/planning/astar_planner.hpp:181-192 | the loop over parents terminates and yields the parent chain in order |
| `AStarPlanner.TraceShort` | include/ros2_robot_middleware/domain/planning/astar_planner.hpp:138-192 | a path read back after k closed nodes has at most k cells |
| `AStarPlanner.SnapEndpoint` | include/ros2_robot_middleware/domain/planning/astar_planner.hpp:116-136 | yields the cell itself or the nearest traversable cell of the disc, the first one in the scan among equals, or nothing exactly when there is none |
| `AStarPlanner.DiscInWindow` | include/ros2_robot_middleware/domain/planning/astar_planner.hpp:123-125 | the square window scanned covers the whole disc |
| `GridPaths.HeuristicConsistent` | include/ros2_robot_middleware/domain/planning/astar_planner.hpp:102-107 | the octile estimate never drops by more than the price of a legal move |
| `GridPaths.OctileMove` | include/ros2_robot_middleware/domain/planning/astar_planner.hpp:102-107 | one step on one or both axes changes the octile distance by at most the straight or diagonal price |
| `GridPaths.EstimateAlong` | include/ros2_robot_middleware/domain/planning/astar_planner.hpp:102-107 | along a path the estimate never exceeds the price still to pay |
| `OpenField.PathCostExact` | include/ros2_robot_middleware/domain/planning/astar_planner.hpp:157-170 | a path costs its straight moves, 1.41421356 times its diagonal ones, and for every cell but the first its cell cost over 253 |
| `OpenField.CheapestExact` | include/ros2_robot_middleware/domain/planning/astar_planner.hpp:102-107 | where every cell costs the same, the cheapest legal path costs exactly the octile distance plus the price of one cell for every move |
| `OpenField.DirectConsistent` | include/ros2_robot_middleware/domain/planning/astar_planner.hpp:102-107 | that price never drops by more than the price of a legal move |
| `OpenField.PlanOpenField` | include/ros2_robot_middleware/domain/planning/astar_planner.hpp:74-179 | on such a field, with 0 <= w <= 1 and iterations enough, the planner returns a path of exactly that price |
| `Grids.PutAt` | include/ros2_robot_middleware/domain/planning/grid_updater.hpp:72-75 | a write changes one cell inside the grid and nothing outside |
| `GridUpdater.BatchIsMaximum` | include/ros2_robot_middleware/domain/planning/grid_updater.hpp:48-67 | after any list of obstacles each cell holds the largest of its old cost and the offers, and that value is one of them |
| `GridUpdater.BatchOrderIrrelevant` | include/ros2_robot_middleware/domain/planning/grid_updater.hpp:38-67 | order and repetition of the obstacles do not matter |
| `GridUpdater.ClearanceExact` | include/ros2_robot_middleware/domain/planning/grid_updater.hpp:48-67 | a cell is traversable iff it was and no obstacle blocks it, i.e. it is no obstacle cell and farther than min(inscribed, inflation) from all |
| `GridUpdater.GradientExact` | include/ros2_robot_middleware/domain/planning/grid_updater.hpp:60-64 | after any list of obstacles a cell that none blocks costs at least its old cost and the decay at its distance to every obstacle within the inflation radius, and equals one of these |
| `GridUpdater.BlockedExact` | include/ros2_robot_middleware/domain/planning/grid_updater.hpp:60-64 | a blocked cell that was traversable ends LETHAL if an obstacle stands there, else INSCRIBED |
| `GridUpdater.FarUnchanged` | include/ros2_robot_middleware/domain/planning/grid_updater.hpp:55-64 | a cell farther than the inflation radius from every obstacle keeps its cost |
| `GridUpdater.OfferUnblocked` | include/ros2_robot_middleware/domain/planning/grid_updater.hpp:60-64 | an obstacle that does not block a cell offers it the decay at its distance if within the inflation radius, else nothing |
| `GridUpdater.PathKeepsClear` | include/ros2_robot_middleware/domain/planning/astar_planner.hpp:116-179 | every cell of a legal path over the inflated field, start included, keeps that clearance |
| `GridUpdater.WindowCovers` | include/ros2_robot_middleware/domain/planning/grid_updater.hpp:53-59 | the window of ceil(inflation / resolution) cells covers the inflation radius |
| `GridUpdater.Inflate` | include/ros2_robot_middleware/domain/planning/grid_updater.hpp:48-67 | the nested loops over the buffer equal one pointwise maximum with the kernel |
| `GridUpdater.MarkObstacles` | include/ros2_robot_middleware/domain/planning/grid_updater.hpp:38-45 | inflates all obstacles but the skipped one |
| `OccupancyGrids.OccupancyGrid.SetCost` | include/ros2_robot_middleware/domain/planning/grid_updater.hpp:72-75 | writes one cell, ignores cells outside |
| `OccupancyGrids.OccupancyGrid.SetCostMax` | include/ros2_robot_middleware/domain/planning/grid_updater.hpp:76-80 | raises one cell to the maximum |
| `OccupancyGrids.OccupancyGrid.SetFreeIfNotLethal` | include/ros2_robot_middleware/domain/planning/scan_to_grid.hpp:87-95 | clears everything but LETHAL |
| `ScanToGrid.Bresenham` | include/ros2_robot_middleware/domain/planning/scan_to_grid.hpp:61-82 | the loop terminates, clears the closed-form segment cell by cell and marks its end LETHAL |
| `ScanToGrid.LineEnds` | include/ros2_robot_middleware/domain/planning/scan_to_grid.hpp:61-82 | the segment starts at the origin and reaches the hit cell after max(abs dx, abs dy) steps |
| `ScanToGrid.LineDistinct` | include/ros2_robot_middleware/domain/planning/scan_to_grid.hpp:61-82 | no cell is visited twice |
| `ScanToGrid.LineConnected` | include/ros2_robot_middleware/domain/planning/scan_to_grid.hpp:61-82 | consecutive cells touch at a side or a corner |
| `ScanToGrid.LineStaysClose` | include/ros2_robot_middleware/domain/planning/scan_to_grid.hpp:78-80 | every cell is within half a cell of the ideal segment along the shorter axis: twice abs(i*dy - j*dx) <= max(dx, dy) |
| `ScanToGrid.LineStep` | include/ros2_robot_middleware/domain/planning/scan_to_grid.hpp:78-80 | the two tests on the error decide exactly the next cell of the closed form |
| `ScanToGrid.ErrStep` | include/ros2_robot_middleware/domain/planning/scan_to_grid.hpp:78-80 | the running error equals the closed form after every step |
| `ScanToGrid.Raytrace` | include/ros2_robot_middleware/domain/planning/scan_to_grid.hpp:39-51 | a scan is its valid rays in order |
| `ScanToGrid.ScanAt` | include/ros2_robot_middleware/domain/planning/scan_to_grid.hpp:39-82 | a cell ends LETHAL if it was or any ray hits it, else FREE if any ray crosses it, else unchanged |
| `ScanToGrid.ScanOrderIrrelevant` | include/ros2_robot_middleware/domain/planning/scan_to_grid.hpp:39-82 | order and repetition of the rays do not matter |
| `ScanToGrid.LethalExact` | include/ros2_robot_middleware/domain/planning/scan_to_grid.hpp:84-95 | over any mix of scans and inflations a cell is LETHAL iff it was or some update put an obstacle there, so the LETHAL set only grows |
| `RingBuffer.StepKeeps` | include/ros2_robot_middleware/observability/ring_buffer.hpp:34-57 | every atomic step of either thread keeps the buffer invariant |
| `RingBuffer.Run` | include/ros2_robot_middleware/observability/ring_buffer.hpp:34-57 | the invariant holds after any interleaving |
| `RingBuffer.FirstInFirstOut` | include/ros2_robot_middleware/observability/ring_buffer.hpp:34-57 | popped items are a prefix of accepted ones, at most Capacity-1 outstanding |
| `RingBuffer.RunRefines` | include/ros2_robot_middleware/observability/ring_buffer.hpp:34-57 | after any interleaving the buffer is the bounded queue that the steps and the capacity alone determine: what was accepted, popped and refused, and the item each call has in hand |
| `RingBuffer.StepRefines` | include/ros2_robot_middleware/observability/ring_buffer.hpp:34-57 | every atomic step of either thread is one step of that queue |
| `RingBuffer.AcceptedWerePushed` | include/ros2_robot_middleware/observability/ring_buffer.hpp:34-44 | what was accepted or is in flight are arguments of pushes, of different ones and in their order |
| `RingBuffer.PoppedWerePushed` | include/ros2_robot_middleware/observability/ring_buffer.hpp:34-57 | what comes out of the buffer was pushed, in that order |
| `RingBuffer.WritesNeverRace` | include/ros2_robot_middleware/observability/ring_buffer.hpp:41 | the slot being written holds no outstanding item and is not the one being read |
| `RingBuffer.FullTestExact` | include/ros2_robot_middleware/observability/ring_buffer.hpp:38 | the masked full test holds iff Capacity-1 items are outstanding, the empty test iff none are |
| `RingBuffer.VerdictsExact` | include/ros2_robot_middleware/observability/ring_buffer.hpp:34-52 | a push is refused only with Capacity-1 items outstanding at its test, a pop is empty only with none |
| `RingBuffer.MaskWraps` | include/ros2_robot_middleware/observability/ring_buffer.hpp:36 | masking with a power of two is the wrap to slot 0, on 64-bit words |
| `RingBuffer.SlotNext` | include/ros2_robot_middleware/observability/ring_buffer.hpp:36 | the masked cursor follows the unbounded counter |
| `RingBuffer.SizeExact` | include/ros2_robot_middleware/observability/ring_buffer.hpp:60-64 | size is the number outstanding when the cursors stand still |
| `RingBuffer.WholeCalls` | include/ros2_robot_middleware/observability/ring_buffer.hpp:34-57 | an undisturbed call is its atomic steps back to back |
| `RingBuffer.RingBuffer.TryPush` | include/ros2_robot_middleware/observability/ring_buffer.hpp:34-44 | accepts the item iff fewer than Capacity-1 are outstanding; what was accepted grows by that item, or not at all |
| `RingBuffer.RingBuffer.Pop` | include/ros2_robot_middleware/observability/ring_buffer.hpp:48-57 | returns the oldest outstanding item, or nothing iff none is |
| `RingBuffer.RingBuffer.Size` | include/ros2_robot_middleware/observability/ring_buffer.hpp:60-64 | the number outstanding |
| `RingBuffer.RingBuffer.IsFull` | include/ros2_robot_middleware/observability/ring_buffer.hpp:67 | never true, not even when pushes are refused |
| `KalmanCovariance.PredictKeepsDefinite` | include/ros2_robot_middleware/domain/perception/kalman_filter.hpp:120-138 | F P F' + Q is symmetric positive definite for every dt |
| `KalmanEstimate.PredictedEntry` | include/ros2_robot_middleware/domain/perception/kalman_filter.hpp:126-139 | every entry of the predicted covariance in numbers: velocity entries weighted by dt, and the process noise on the diagonal |
| `KalmanCovariance.JosephKeepsDefinite` | include/ros2_robot_middleware/domain/perception/kalman_filter.hpp:290-319 | the Joseph form is symmetric positive definite for every gain, Jacobian and positive noise |
| `KalmanCovariance.ReachableIsDefinite` | include/ros2_robot_middleware/domain/perception/kalman_filter.hpp:79 | every covariance reachable by predicts, corrections with any gain, and rejections is symmetric positive definite |
| `KalmanCovariance.VarianceChange` | include/ros2_robot_middleware/domain/perception/kalman_filter.hpp:290-319 | exact change of the variance in any direction, for any gain |
| `KalmanCovariance.OptimalContracts` | include/ros2_robot_middleware/domain/perception/kalman_filter.hpp:208-232 | a gain that solves with the true innovation covariance never increases a variance |
| `KalmanGain.UpdateContracts` | include/ros2_robot_middleware/domain/perception/kalman_filter.hpp:150-240 | an accepted update of an initialised filter increases no variance, for any Jacobian |
| `KalmanGain.InverseSolves` | include/ros2_robot_middleware/domain/perception/kalman_filter.hpp:219-226 | the closed-form 2x2 inverse solves the system |
| `KalmanEstimate.CorrectionExact` | include/ros2_robot_middleware/domain/perception/kalman_filter.hpp:155-237 | for any model and any accepted measurement the correction is P H' w, where S w is the measurement less the prediction |
| `KalmanEstimate.PositionInnovation` | include/ros2_robot_middleware/domain/perception/kalman_filter.hpp:163-179 | for positions S is the position block of P plus the noise |
| `KalmanEstimate.PositionAcceptedIff` | include/ros2_robot_middleware/domain/perception/kalman_filter.hpp:205-221 | a position is accepted iff each coordinate is within three standard deviations of the estimate and abs det S is at least 1e-12 |
| `KalmanEstimate.GateExact` | include/ros2_robot_middleware/domain/perception/kalman_filter.hpp:281-287 | the gate refuses just what lies farther out than three times a positive standard deviation |
| `KalmanEstimate.PositionEstimate` | include/ros2_robot_middleware/domain/perception/kalman_filter.hpp:208-237 | an accepted position satisfies x+ = x + P H' R^-1 (z - H x+) |
| `KalmanEstimate.PositionCloser` | include/ros2_robot_middleware/domain/perception/kalman_filter.hpp:208-237 | it brings the estimate closer: the noise-weighted squared residual shrinks strictly unless it was zero |
| `KalmanEstimate.UncorrelatedShrinks` | include/ros2_robot_middleware/domain/perception/kalman_filter.hpp:208-237 | where x and y are uncorrelated the residual shrinks by the factor r / (P_ii + r) |
| `KalmanEstimate.MeasurePosition` | include/ros2_robot_middleware/domain/perception/kalman_filter.hpp:150-243 | all this of an initialised filter and its update: when it accepts, what the new estimate satisfies, and that a refusal changes nothing |
| `KalmanEstimate.MeasureFirstPosition` | include/ros2_robot_middleware/domain/perception/kalman_filter.hpp:184-242 | the first position puts the estimate where it was measured, accepted or not |
| `KalmanEstimate.BearingExact` | include/ros2_robot_middleware/domain/perception/kalman_filter.hpp:43-56 | the range-bearing Jacobian turns a move along the line of sight into range alone, and a move across it into bearing alone |
| `KalmanEstimate.StartMeasures` | include/ros2_robot_middleware/domain/perception/kalman_filter.hpp:265-278 | a first range and bearing start the filter iff the range is positive, and, beyond a range of 1e-9, at a state whose predicted measurement is the one made |
| `KalmanFirstUpdate.RangeBearingIsPlanar` | include/ros2_robot_middleware/domain/perception/kalman_filter.hpp:32-58 | the range-bearing Jacobian measures nothing through the last state entry and sees the position along two independent directions, or not at all next to the origin |
| `KalmanFirstUpdate.FirstIsNoise` | include/ros2_robot_middleware/domain/perception/kalman_filter.hpp:191-202 | the recomputed first innovation covariance is the bare noise R, for every Jacobian whose last column is zero |
| `KalmanFirstUpdate.FirstChange` | include/ros2_robot_middleware/domain/perception/kalman_filter.hpp:184-203 | exact change of the variance in any direction by the first gain |
| `KalmanFirstUpdate.FirstAccepted` | include/ros2_robot_middleware/domain/perception/kalman_filter.hpp:184-227 | a first measurement is accepted iff the model can start from it, its innovation passes the gate set by the noise alone, and r0 * r1 is at least 1e-12 |
| `KalmanFirstUpdate.FirstUpdateIff` | include/ros2_robot_middleware/domain/perception/kalman_filter.hpp:150-243 | for both measurement models the first call increases no variance iff it is refused or H P H' is at most R |
| `KalmanFirstUpdate.PositionsAccepted` | include/ros2_robot_middleware/domain/perception/kalman_filter.hpp:184-221 | a first position is refused iff r0 * r1 is below 1e-12 |
| `KalmanFirstUpdate.FirstPositionIff` | include/ros2_robot_middleware/domain/perception/kalman_filter.hpp:150-243 | the first position update increases no variance iff r0 * r1 is below 1e-12 or the position covariance is at most R |
| `KalmanFirstUpdate.FreshFirstUpdateIff` | include/ros2_robot_middleware/domain/perception/kalman_filter.hpp:150-243 | fresh from reset: iff r0 * r1 is below 1e-12 or the noise is at least 100 on both axes |
| `KalmanFirstUpdate.FreshJump` | include/ros2_robot_middleware/domain/perception/kalman_filter.hpp:246-251 | with the default noise 0.1 the first position is accepted and takes the position variance from 100 to 99 900 100 |
| `KalmanFirstUpdate.FirstDefaultUpdate` | include/ros2_robot_middleware/domain/perception/kalman_filter.hpp:246-251 | the same of a fresh filter object and its convenience update |
| `KalmanFirstUpdate.FirstTinyUpdate` | include/ros2_robot_middleware/domain/perception/kalman_filter.hpp:219-221 | a first update with noise too small to divide by is refused and leaves the covariance alone |
| `KalmanFilter.Multiply` | include/ros2_robot_middleware/domain/perception/kalman_filter.hpp:155-165 | the triple loop over row-major buffers is the matrix product |
| `KalmanFilter.MultiplyT` | include/ros2_robot_middleware/domain/perception/kalman_filter.hpp:167-174 | the same with the second factor transposed |
| `KalmanFilter.LastProducts` | include/ros2_robot_middleware/domain/perception/kalman_filter.hpp:191-196 | the loop that clears its accumulator keeps only the last product |
| `KalmanFilter.KalmanFilter.constructor` | include/ros2_robot_middleware/domain/perception/kalman_filter.hpp:88-100 | the initial covariance is diag(100, 100, 1, 1) |
| `KalmanFilter.KalmanFilter.Reset` | include/ros2_robot_middleware/domain/perception/kalman_filter.hpp:90-100 | state and covariance are those of a fresh filter |
| `KalmanFilter.KalmanFilter.Predict` | include/ros2_robot_middleware/domain/perception/kalman_filter.hpp:104-141 | covariance F P F' + Q, state moved by the constant-acceleration law, definiteness kept |
| `KalmanFilter.KalmanFilter.GainOf` | include/ros2_robot_middleware/domain/perception/kalman_filter.hpp:208-227 | K = P H' S^-1, refused exactly when abs det S < 1e-12 |
| `KalmanFilter.KalmanFilter.JosephUpdate` | include/ros2_robot_middleware/domain/perception/kalman_filter.hpp:290-319 | the nested loops leave the Joseph form |
| `KalmanFilter.KalmanFilter.Update` | include/ros2_robot_middleware/domain/perception/kalman_filter.hpp:150-243 | verdict, state and covariance are those of the specified outcome, first update and rejections included; definiteness kept |
| `ClusterDetector.Label` | include/ros2_robot_middleware/domain/perception/cluster_detector.hpp:79-110 | terminates; the labelling is correct (seeds are cores, noise is no core, expanded neighbourhoods covered, adjacent strong cores together, every member chained to its seed through strong cores), at most max(1, max_objects) clusters, complete unless that cap stops it, and then standard DBSCAN iff the input is well connected |
| `ClusterDetector.Expand` | include/ros2_robot_middleware/domain/perception/cluster_detector.hpp:94-107 | the growing worklist is used up and one more cluster is correct |
| `ClusterDetector.FinishExpanding` | include/ros2_robot_middleware/domain/perception/cluster_detector.hpp:94-108 | a used-up worklist completes the labelling by one cluster |
| `ClusterDetector.TakeStrong` | include/ros2_robot_middleware/domain/perception/cluster_detector.hpp:98-106 | an unvisited strong core joins and its neighbourhood is appended |
| `ClusterDetector.TakeWeak` | include/ros2_robot_middleware/domain/perception/cluster_detector.hpp:97-100 | noise and weak points join without being expanded |
| `ClusterDetector.StrongPathShares` | include/ros2_robot_middleware/domain/perception/cluster_detector.hpp:94-107 | strong cores joined by a path of strong cores share the label once the first has one |
| `ClusterDetector.NoiseIsFar` | include/ros2_robot_middleware/domain/perception/cluster_detector.hpp:89-107 | a point left as noise is within eps of no expanded point |
| `ClusterDetector.StandardIff` | include/ros2_robot_middleware/domain/perception/cluster_detector.hpp:79-110 | a complete result is a standard DBSCAN one iff in the input strong cores lead from the first core of each joined group to its every other core and whatever else is near a core is near a strong or first one |
| `ClusterDetector.StandardWithIsolatedWeakCores` | include/ros2_robot_middleware/domain/perception/cluster_detector.hpp:87-103 | on every result, complete or not, standard DBSCAN is met where no core with exactly min_pts-1 neighbours is near another core |
| `ClusterDetector.ExpandKeepsOrder` | include/ros2_robot_middleware/domain/perception/cluster_detector.hpp:83-108 | seeds are found in index order, no core precedes the seed of its cluster, and expanded points have no neighbour in a later cluster |
| `ClusterDetector.WeakCoresBreakStandard` | include/ros2_robot_middleware/domain/perception/cluster_detector.hpp:87-103 | on four points in a row no complete labelling meets it |
| `ClusterDetector.RegionQuery` | include/ros2_robot_middleware/domain/perception/cluster_detector.hpp:142-154 | the points within eps, the point itself excepted, in index order |
| `ClusterDetector.NeighboursExact` | include/ros2_robot_middleware/domain/perception/cluster_detector.hpp:142-154 | a neighbourhood holds exactly the other points at a squared distance of at most eps squared |
| `ClusterDetector.RegionAscends` | include/ros2_robot_middleware/domain/perception/cluster_detector.hpp:142-154 | in index order |
| `ClusterDetector.Accumulate` | include/ros2_robot_middleware/domain/perception/cluster_detector.hpp:118-125 | per cluster the coordinate sums and the size |
| `ClusterDetector.MemberAdds` | include/ros2_robot_middleware/domain/perception/cluster_detector.hpp:118-125 | each member adds its coordinates to the sums of its cluster and counts once |
| `ClusterDetector.MeanInHull` | include/ros2_robot_middleware/domain/perception/cluster_detector.hpp:126-137 | a reported mean lies in every half-plane that holds all members of its cluster |
| `ClusterDetector.Detect` | include/ros2_robot_middleware/domain/perception/cluster_detector.hpp:79-137 | the reports are those of a correct labelling, complete unless the cap stopped it: one per cluster, non-empty, with its size and the mean of its members |
| `OtaCoordinator.CrashSafe` | include/ros2_robot_middleware/domain/ota/ota_coordinator.hpp:81-168 | at every instant of every run the boot marker names a completely written image and the originally active slot holds what it held |
| `OtaCoordinator.OnlyInactiveWritten` | include/ros2_robot_middleware/domain/ota/ota_coordinator.hpp:114-124 | at every instant of every call all slots but the non-active one are as before |
| `OtaCoordinator.InstallExact` | include/ros2_robot_middleware/domain/ota/ota_coordinator.hpp:114-124 | an install touches the other slot only, is accepted iff the write succeeds, passes through a torn image whenever the write starts, and ends with one if it breaks |
| `OtaCoordinator.RunKeeps` | include/ros2_robot_middleware/domain/ota/ota_coordinator.hpp:81-168 | every call sequence with every outcome keeps the coordinator/device invariant |
| `OtaCoordinator.ActiveIsInstalled` | include/ros2_robot_middleware/domain/ota/ota_coordinator.hpp:146-155 | the active slot holds the active version, after every run |
| `OtaCoordinator.MarkerExactIff` | include/ros2_robot_middleware/domain/ota/ota_coordinator.hpp:134-168 | after a run the marker differs from the active slot iff the state is HEALTH_GATE, exactly if no rollback slipped |
| `OtaCoordinator.MarkerNeedsRollback` | include/ros2_robot_middleware/domain/ota/ota_coordinator.hpp:157-165 | all runs with working rollbacks keep the marker exact iff rollback_marker is provided or an update cannot get as far as the marker |
| `OtaCoordinator.RefusalsTouchNothing` | include/ros2_robot_middleware/domain/ota/ota_coordinator.hpp:81-104 | a refusal changes nothing at all; an abort changes neither marker, active slot, version nor counter, and ends in IDLE or, at the marker, in SWITCHING |
| `OtaCoordinator.TerminalStates` | include/ros2_robot_middleware/domain/ota/ota_coordinator.hpp:146-168 | COMMITTED and ROLLED_BACK refuse every call |
| `OtaCoordinator.OutOfTurnIff` | include/ros2_robot_middleware/domain/ota/ota_coordinator.hpp:81-168 | a call is refused for its state iff it is not the one state the interface names for it, and an accepted call leads to the next |
| `OtaCoordinator.FailureRollsBack` | include/ros2_robot_middleware/domain/ota/ota_coordinator.hpp:146-168 | a failed health report or a forced rollback in HEALTH_GATE ends in ROLLED_BACK with slot, version and counter as they were, the marker at home exactly if the rollback is provided and works |
| `OtaCoordinator.HealthCommits` | include/ros2_robot_middleware/domain/ota/ota_coordinator.hpp:146-155 | a healthy report in HEALTH_GATE makes the candidate the active version where it stands, and the counter the larger of the two |
| `OtaCoordinator.CommittedIffHealthy` | include/ros2_robot_middleware/domain/ota/ota_coordinator.hpp:146-168 | a run ends COMMITTED iff some call of it was a healthy report in HEALTH_GATE |
| `OtaCoordinator.OnlySwitchGoesOn` | include/ros2_robot_middleware/domain/ota/ota_coordinator.hpp:81-143 | in SWITCHING every call but switch_boot_target is refused, run_update included |
| `OtaCoordinator.CounterMonotone` | include/ros2_robot_middleware/domain/ota/ota_coordinator.hpp:146-155 | the security counter never decreases, and a committed version equals the new counter |
| `OtaCoordinator.NoDowngradeIff` | include/ros2_robot_middleware/domain/ota/ota_coordinator.hpp:96-102 | no run lowers the active version iff it did not exceed the security counter at construction, or the write or the switch operation is missing |
| `OtaCoordinator.FacadeOutcome` | include/ros2_robot_middleware/domain/ota/ota_coordinator.hpp:81-93 | run_update reaches HEALTH_GATE iff every check and every operation succeeds, and what it then leaves |
| `OtaCoordinator.UpgradeReachesGate` | include/ros2_robot_middleware/domain/ota/ota_coordinator.hpp:76-93 | the facade and the five separate calls leave the same world |
| `OtaCoordinator.OtaCoordinator.RunUpdate` | include/ros2_robot_middleware/domain/ota/ota_coordinator.hpp:81-93 | equals the specified facade |
| `OtaCoordinator.OtaCoordinator.RequestUpdate` | include/ros2_robot_middleware/domain/ota/ota_coordinator.hpp:96-104 | equals the specified request |
| `OtaCoordinator.OtaCoordinator.BeginInstall` | include/ros2_robot_middleware/domain/ota/ota_coordinator.hpp:114-124 | equals the specified install, torn writes included |
| `OtaCoordinator.OtaCoordinator.SwitchBootTarget` | include/ros2_robot_middleware/domain/ota/ota_coordinator.hpp:134-143 | equals the specified switch; a failure stays in SWITCHING |
| `OtaCoordinator.OtaCoordinator.OnHealth` | include/ros2_robot_middleware/domain/ota/ota_coordinator.hpp:146-159 | equals the specified verdict |
| `OtaCoordinator.OtaCoordinator.ForceRollback` | include/ros2_robot_middleware/domain/ota/ota_coordinator.hpp:162-168 | equals the specified rollback |
| `TaskScheduler.RunKeeps` | include/ros2_robot_middleware/domain/scheduling/task_scheduler.hpp:34-79 | over every run: sorted queue, submission order among equals, and what was submitted is what is completed, running or queued |
| `TaskScheduler.Conservation` | include/ros2_robot_middleware/domain/scheduling/task_scheduler.hpp:34-54 | submitted = completed + running + queued as multisets |
| `TaskScheduler.NoNeedlessWait` | include/ros2_robot_middleware/domain/scheduling/task_scheduler.hpp:36-43 | a non-empty queue means something runs; a waiting task outranks it only if it may not be preempted |
| `TaskScheduler.NextIsBest` | include/ros2_robot_middleware/domain/scheduling/task_scheduler.hpp:72-78 | after a completion the next task has the highest priority waiting and is the oldest of its equals |
| `TaskScheduler.EqualsCompleteInOrder` | include/ros2_robot_middleware/domain/scheduling/task_scheduler.hpp:66-71 | of two tasks of equal priority the one submitted first completes first, preemption notwithstanding |
| `TaskScheduler.PreemptionUndone` | include/ros2_robot_middleware/domain/scheduling/task_scheduler.hpp:36-40 | completing the preempting task restores runner and queue |
| `TaskScheduler.RunsAtOnceIff` | include/ros2_robot_middleware/domain/scheduling/task_scheduler.hpp:34-44 | a submitted task runs at once iff nothing runs, or what runs has lower priority and may be preempted; otherwise the running task goes on |
| `TaskScheduler.HoldsUntilCompleted` | include/ros2_robot_middleware/domain/scheduling/task_scheduler.hpp:34-54 | a task that may not be preempted runs until it is completed, whatever is submitted |
| `TaskScheduler.CompletesOnlyRunning` | include/ros2_robot_middleware/domain/scheduling/task_scheduler.hpp:47-54 | completing the running task moves it to the completed ones; completing anything else changes nothing |
| `TaskScheduler.DrainCompletesAll` | include/ros2_robot_middleware/domain/scheduling/task_scheduler.hpp:47-54 | without further submissions every pending task completes, in the order in which it stood |
| `TaskScheduler.SubmitKeeps` | include/ros2_robot_middleware/domain/scheduling/task_scheduler.hpp:34-44 | a submission adds one task and keeps the invariant |
| `TaskScheduler.CompleteKeeps` | include/ros2_robot_middleware/domain/scheduling/task_scheduler.hpp:47-54 | a completion moves one task from running to done and nothing else |
| `TaskScheduler.TaskScheduler.Submit` | include/ros2_robot_middleware/domain/scheduling/task_scheduler.hpp:34-44 | equals the specified submission; true iff it preempts |
| `TaskScheduler.TaskScheduler.Complete` | include/ros2_robot_middleware/domain/scheduling/task_scheduler.hpp:47-54 | equals the specified completion; a wrong id changes nothing |
| `TaskScheduler.TaskScheduler.InsertByPriority` | include/ros2_robot_middleware/domain/scheduling/task_scheduler.hpp:66-71 | the scan inserts behind every task ranked at least as high |

## Left out

- ROS wiring, lifecycle transitions, TF, launch files, metrics server: plumbing around the kernels.
- posix_spawn, waitpid and signals: only their outcomes are modelled.
- Deactivation and `teardown_children`, which clears process numbers but leaves phases: the ownership statement covers the node while it stays active.
- The parameter conversions from seconds and milliseconds.
- SupervisorRuns.RunKeeps: requires paced policies; that this is also necessary (`PacedIff`) is stated for trees in which no two children share a health node, because a child that lost a node is never confirmed and what depends on it never starts.
- SupervisorNode.SupervisorNode.KillChild: counts a process not reaped within 200 ms of SIGKILL as gone, as the books of the code do.
- SupervisorBringUp.BoundedBringUp: covers trees without health gates, whose children need ticks alone; `GatedBringUp` covers the others, with the reports they need.
- SupervisorRecovery.Recovers: covers trees without health gates, because a gated child whose health never flips is not confirmed again.
- Names of children, health nodes and log texts: names are numbers, only told apart; log output is not modelled.
- Floating-point rounding: costs, radii, covariances and centroids are reals.
- Trigonometry: rays are given by the cell they end in, measurement models by their prediction, Jacobian and start functions (the range-bearing one over any square root and any angle functions), scan points by their Cartesian coordinates; `num_points` and the range filters go with it.
- `world_to_grid` and `grid_to_world`: everything starts and ends with cells. The cast truncates toward zero, so points just outside alias to cell 0.
- The exponential inflation kernel is any function that stays below 253 beyond the inscribed radius.
- The byte 255 as a cell value; none of the modelled operations writes it.
- AStarPlanner.Plan: requires a heuristic weight of at least 0 (the default is 1); whether a search stopped by its iteration cap would have come to the goal in time is left to the order among equal f.
- The order in which the priority queue yields entries of equal f is left open, and the packing of coordinates into a hash key is not modelled.
- Overflow of int and int64: all integers are unbounded.
- Weak memory: the interleaving of the ring buffer's threads is sequentially consistent, which the acquire/release pairs on the cursors are there to provide. `MaskWraps` covers the mask on 64-bit words, the rest uses natural numbers.
- `size()` read by a third thread while the cursors move.
- Scalar measurements (kMeas = 1) of the filter.
- ClusterDetector.Accumulate: models the sums only for the clusters found; the label text and z coordinate of a report are not modelled.
- The OTA agent node, which rebuilds the coordinator on every new target, package signing, and the download itself.
- OtaCoordinator.MarkerExactIff: a failed `set_boot_target` leaves the marker untouched, as the interface promises an atomic switch.
- The scheduler's diagnostic snapshot, and the device registry, velocity smoother, collision guard and other small policies beside it.
