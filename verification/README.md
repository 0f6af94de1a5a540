# Convergence of the k8 control plane

A Dafny model of a small orchestrator: a controller that reconciles services and
jobs, a greedy scheduler, a store with an in-memory and an SQL implementation,
and on every node an agent that syncs a container runtime to the list the
controller hands out. Reports can be lost, late or repeated; agents, nodes and
the controller can stop and come back; the store can be put back to any earlier
state. The theorems say what holds anyway.

`dafny verify dfyconfig.toml` checks the project.

## How it is built

State that the program updates in place is a class; what an operation does to it
is stated with functions and relations on values, and the hard properties are
proved about those.

| file | what it holds |
|---|---|
| Order.dfy | string order, sorted listings (a listing is fixed by the set it lists), sorting, filtering |
| Api.dfy, Load.dfy | the entities; the demand on a node and when a node can carry it |
| State.dfy, Discipline.dfy | the store as a value with its eleven operations; the guard each must meet and the invariant this keeps |
| Scheduler.dfy | `Scheduler.ChooseNode`, its declarative rule, order independence, monotonicity |
| MemoryStore.dfy, SqliteStore.dfy | the two stores, each proved against State.dfy, then against one another |
| Handlers.dfy, Interference.dfy | the API handlers; what they may do between two steps of the reconcile loop, and what survives that |
| Reconcile.dfy, Outcomes.dfy, FixedPoint.dfy | one uninterrupted reconcile as a relation; what it achieves; that repeating it settles |
| Requirements.dfy | what is owed, said of stored fields, sets and times only: which nodes count as up, which can take what, what a replica or a run is, what calls for a save; and that the model's own terms amount to this |
| LoopFacts.dfy, Controller.dfy | the `Controller` class, with handlers interleaved between any two store operations |
| Promises.dfy | what an undisturbed reconcile does, told a second time in those terms |
| Runtime.dfy, Agent.dfy | the simulated runtime and the agent's sync |
| Cluster.dfy, Safety.dfy, Convergence.dfy | the whole cluster as a state machine, what holds over every run, and that it converges |
| Backup.dfy | dates, snapshot names, retention and restore |
| Limits.dfy | claims that fail, each with an input or run that breaks it and the exact condition under which it holds |

The controller's methods call `Others()` wherever another request can be served.
`Mode` says who runs there: nobody (`Quiet`), handlers but no admin deletes
(`NoDeletes`), or any handler (`Any`). `Ready()` says that the invariant holds
now, that every operation so far was guarded where it happened, that every
operation of the present tick was the loop's own or what an admitted request led
to, and that every assignment it saved was called for by what was stored
(`SavesDue`). In `Quiet` mode `Reconcile` is exactly the relation `Tick`. Its trace is a run
of the cluster machine (`ClusterSafety.TraceRuns`).

The cluster machine's `Operate` step is one guarded operation of the reconcile
loop, an administrator or a heartbeat, so a reconcile may be cut anywhere.
`archive` holds every state the store was ever in: what a backup may contain and
a restore may bring back. A controller restart changes nothing in this state; it
shows in `Ctx.started`.

## What is relied on

- Resources and retries are not negative; a node does not come back with less capacity, nor a job with fewer retries (`Reasonable`, `Enabled`).
- Clocks do not run back. Scheduler and controller share one timeout (`cmd/controller/main.go:71-72`).
- An assignment ID is never drawn twice. The code checks the present store only and adds a random suffix; `born`, every assignment ever saved, stands for the suffix.
- Integers are mathematical; times are nanoseconds since the Unix epoch.

## Model

| member | source | states |
|---|---|---|
| Order.ListingIs | internal/store/assignments.go:65-80 | a sorted list is determined by the set it lists, however it was built |
| Order.SortLists | internal/store/assignments.go:65-80 | sorting distinct, comparable items lists exactly them in strictly increasing order |
| Order.StrLessExactly | internal/store/assignments.go:74-79 | one string is less than another exactly if the first difference says so |
| Order.FilterLists | internal/store/assignments.go:82-102 | filtering a sorted list gives the sorted list of what passes, so filtering and sorting commute |
| Load.SafeWithin | internal/scheduler/scheduler.go:36-73 | taking workloads off a node keeps its CPU, memory and ports safe |
| Load.RoomWithin | internal/scheduler/scheduler.go:36-73 | room found on a larger load is still there on a smaller one |
| Scheduling.Scheduler.ChooseNode | internal/scheduler/scheduler.go:23-77 | returns the least ID among live nodes that match the labels, have the request free and no port in common; none exactly if there is no such node (in fields: ChoiceMeans) |
| Scheduling.Scheduler.TakenOn | internal/scheduler/scheduler.go:36-56 | the one accumulating pass yields, per live node, the sum of its active assignments and all their ports |
| Scheduling.ChoiceIgnoresOrder | internal/scheduler/scheduler.go:23-77 | the choice does not depend on the order of nodes or assignments |
| Scheduling.EligibleIsFits | internal/scheduler/scheduler.go:36-73 | the rule on the lists read equals the rule on the stored tables: total demand plus request within capacity, ports apart |
| Requirements.ChoiceMeans | internal/scheduler/scheduler.go:23-95 | on the lists given, in fields only: the least ID among nodes heard from within the timeout, labelled as required, with CPU and memory free on top of the pending and running work listed for them and none of the ports taken; none exactly if no node is like that |
| Scheduling.FitsIsAntitone | internal/scheduler/scheduler.go:58-74 | a node that fits with more active assignments fits with fewer |
| MemoryStores.MemoryStore.UpdateAssignmentStatus | internal/store/assignments.go:33-63 | the stored assignment takes phase and message unless it had finished, a start time only on its first Running, a finish exactly when it finishes, and nothing else changes; returns it as it now is |
| StoreState.StatusExactly | internal/store/assignments.go:50-63 | field by field, the one result a status update has |
| StoreState.ApplyDoes | internal/store/store.go:13-38 | for every operation, field by field, what it changes and that nothing else changes; no other outcome fits |
| MemoryStores.MemoryStore.DeleteService | internal/store/services.go:40-54 | removes the service and exactly its assignments |
| MemoryStores.MemoryStore.DeleteJob | internal/store/jobs.go:40-54 | removes the job and exactly its assignments |
| MemoryStores.MemoryStore.DeleteOwned | internal/store/services.go:48-52 | the deletion loop leaves every assignment of another kind or name |
| MemoryStores.MemoryStore.ListNodes | internal/store/nodes.go:29-39 | the nodes sorted by ID, each once |
| MemoryStores.MemoryStore.ListAssignments | internal/store/assignments.go:65-80 | exactly the stored assignments, each once, by creation time and then ID |
| MemoryStores.MemoryStore.ListNodeAssignments | internal/store/assignments.go:82-91 | one node's assignments in that order |
| MemoryStores.MemoryStore.ListAssignmentsForOwner | internal/store/assignments.go:93-102 | one owner's assignments in that order |
| SqliteStores.MatchingData | internal/store/sqlite.go:182-191 | filtering rows by a column that agrees with the data is filtering the data |
| SqliteStores.DecodedListing | internal/store/sqlite.go:177-191 | rows ordered by the columns decode to the assignments in store order |
| SqliteStores.SQLiteStore.UpdateAssignmentStatus | internal/store/sqlite.go:167-174 | same effect, field by field, and same result as the in-memory store |
| SqliteStores.SQLiteStore.SaveAssignment | internal/store/sqlite.go:148-159 | same effect as the in-memory store, columns written with the data |
| SqliteStores.SQLiteStore.DeleteService | internal/store/sqlite.go:121-123 | same effect and result as the in-memory store |
| SqliteStores.SQLiteStore.ListAssignmentsForOwner | internal/store/sqlite.go:187-191 | same list in the same order as the in-memory store |
| StoreAgreement.InStep | internal/store/store.go:13-38 | for any sequence of operations and queries both stores give the same answers in the same order and hold the same |
| Handlers.HTTPServer.ActiveAssignments | internal/controller/handlers.go:159-166 | the list handed to an agent: exactly the node's active assignments, in store order |
| Handlers.HTTPServer.OwnsAssignment | internal/controller/handlers.go:206-213 | true exactly if the assignment exists and is on the caller's node |
| Handlers.HTTPServer.Handle | internal/controller/handlers.go:11-232 | every request, field by field: what is stored, what is sent back, and every refusal; a posted service is stored as posted, but for a replica count of at least 1 shown as desired; lists are exact and in order |
| Handlers.AnsweredAsServed | internal/controller/handlers.go:11-232 | the answers and effects the handlers are composed of meet that account for every request on every store |
| Handlers.ReportServedInTwo | internal/controller/handlers.go:194-203 | a report's ownership check and its update, with anything in between, act as the whole report served at the time of the update |
| Handlers.EffectIsGuarded | internal/controller/handlers.go:11-204 | no request adds work, moves it, or sets Pending |
| Handlers.NodeActsAsItself | internal/controller/handlers.go:101-204 | what a node sends changes only its own entry and the status of its own assignments, never to Pending or Lost |
| Discipline.KeepsWorldInv | internal/controller/controller.go:37-48 | every guarded operation keeps the invariant: placements fit, nodes known, times match phases, job counts, and owners and attempt numbers when no admin delete falls inside a reconcile |
| Discipline.KeepsPlacement | internal/controller/services.go:41-63 | the sums and ports of every node stay safe over every guarded operation |
| Discipline.KeepsJobCounts | internal/controller/jobs.go:17-86 | active and successful runs of a job together stay at most one, failed plus active at most retries plus one |
| Discipline.KeepsAttempts | internal/controller/jobs.go:17-86 | failed runs stay numbered apart and below the run under way |
| Interference.CheckStays | internal/controller/services.go:41-61 | the scheduler's check on lists read earlier still holds at the save, whatever handlers did between |
| Interference.RelyStep | internal/controller/handlers.go:11-204 | any admitted request only lets the store drift: no new work, no lost node, no lost budget |
| Interference.DisciplineKeepsInv | internal/controller/controller.go:37-48 | along a run of guarded operations the invariant holds after each single one |
| Outcomes.ServiceOutcome | internal/controller/services.go:10-87 | an uninterrupted reconcile of a service ends with exactly its replicas on live nodes, or fewer and no node for one more; other owners untouched; its status is that of what it leaves |
| Outcomes.StatusIsExact | internal/controller/services.go:65-86 | the status lists exactly the replicas, sorted, and pending plus running is their number |
| Outcomes.VictimsAreRight | internal/controller/controller.go:92-109 | no Running replica goes while a Pending one stays; among equals newer ones, then larger IDs, go first |
| Outcomes.JobOutcome | internal/controller/jobs.go:9-86 | an uninterrupted reconcile of a job starts a run exactly if none is under way or has succeeded, retries remain and a node fits; it is numbered after the failures; the status is that of what it leaves |
| Outcomes.JobStatusIsExact | internal/controller/jobs.go:13-57 | the status reports success exactly if a run succeeded, else the live run and exactly the failed runs |
| Outcomes.NewRunStatus | internal/controller/jobs.go:68-85 | the status written after starting a run is the status the new store calls for |
| Controllers.PickAssignmentsToRemove | internal/controller/controller.go:92-109 | min(count, n) of the input, without duplication, none of the rest before any of them in removal order |
| Controllers.LiveNodeSet | internal/controller/controller.go:82-90 | exactly the IDs of nodes within the timeout |
| Controllers.CountReplicas | internal/controller/services.go:65-86 | the loop over the final listing adds up to the declared status |
| Controllers.Controller.Nodes | internal/controller/controller.go:72-80 | the stored nodes, heartbeats before the controller's start raised to it, no more and no less (LiveExactly) |
| Requirements.LiveExactly | internal/controller/controller.go:67-90 | a node counts as live exactly if it is known and the timeout has not passed since its last heartbeat, or not since the controller's start |
| Controllers.Controller.MarkLostAssignments | internal/controller/controller.go:53-65 | afterwards, handlers in between or not, all pending and running work is on known nodes not silent past the timeout, from heartbeat or controller start; only work on nodes dead when read became Lost; undisturbed, exactly MarkedLost |
| Promises.MarkedExactly | internal/controller/controller.go:53-65 | undisturbed, work becomes Lost exactly if it is under way on a node unknown or silent past both bounds, with that node named and the tick's time; the rest stays |
| Controllers.Controller.ScaleUp | internal/controller/services.go:41-63 | undisturbed, greedy placements until full or no node fits; always, every save is a replica of a service stored in this tick, on the first node that could take it |
| Controllers.Controller.ScaleDown | internal/controller/services.go:25-39 | undisturbed, removes exactly the first replicas in removal order and recounts |
| Controllers.Controller.ReconcileService | internal/controller/services.go:10-87 | every operation guarded and every save called for under interference; undisturbed exactly ServiceRun, which is told in fields by ServiceRunMeans |
| Promises.ServiceRunMeans | internal/controller/services.go:10-87 | in fields: exactly the excess goes, Pending first, then the youngest; the missing are started one by one with the service's template, resources and ports, each on the first node in touch that is labelled and has CPU, memory and ports free; short only if no node can take one more; the status counts pending and running and lists the IDs |
| Controllers.Controller.ScanRuns | internal/controller/jobs.go:17-43 | the pass finds the first success, the failures before it, the last live run and the latest finished one |
| Controllers.Controller.JudgeJob | internal/controller/jobs.go:13-60 | the status and the decision whether to start a run |
| Controllers.Controller.StartRun | internal/controller/jobs.go:62-82 | a run is saved only where it is still allowed at the save and where a job stored in this tick needed it, with its number, on the first node that could take it |
| Controllers.Controller.ReconcileJob | internal/controller/jobs.go:9-86 | every operation guarded and every save called for under interference; undisturbed exactly JobRun, which is told in fields by JobRunMeans |
| Promises.JobRunMeans | internal/controller/jobs.go:9-86 | in fields: a run is started exactly if none has succeeded, none is under way on a node in touch, retries are left and some node can take it; it has the job's template and resources, no ports, the number after the failed ones, and the first such node |
| Promises.JobStatusTells | internal/controller/jobs.go:13-57 | in fields, in any store: the first success with the failures before it; else the last run under way or the last one finished, all failures, and the message of the last |
| LoopFacts.NeedExactly | internal/controller/jobs.go:17-60 | the pass leaves the job to the scheduler exactly if it needs a run |
| Controllers.Controller.Reconcile | internal/controller/controller.go:37-48 | every store operation of a tick is guarded, and is the loop's own or what an admitted request led to, so the invariant holds after each; every save is of a replica or run that a service or job stored in this tick called for, field by field, on the first node that could take it by what was read; only work on nodes dead when read becomes Lost; all work under way ends on nodes in touch; undisturbed it is exactly a Tick |
| Requirements.EverySaveDue | internal/controller/services.go:41-63 | read out for one save: the stored service or job it is for, its fields, and the states of the store in which the node was the first that could take it and the job needed a run of that number |
| Promises.TickMeans | internal/controller/controller.go:37-65 | an undisturbed tick accounts for every assignment in fields: Lost exactly if it was, or was under way on a node silent past both bounds; kept untouched, or dropped as an excess replica; new ones are what their service or job asks for, on nodes in touch |
| LoopFacts.LostMeansSilent | internal/controller/controller.go:67-90 | what became Lost in a tick, handlers in between or not, was on a registered node silent longer than the timeout, from its heartbeat and from the controller's start |
| FixedPoint.TickOutcome | internal/controller/controller.go:37-48 | after a reconcile no service is above its count and all statuses are current; if none was above before, nothing more can be placed |
| FixedPoint.ReconcileSettles | internal/controller/controller.go:37-48 | at one time the third reconcile changes nothing, and already the second if no service started above its count |
| Runtimes.SimExecutor.Start | internal/runtime/sim.go:38-61 | a known ID keeps its task and only changes reporter; an unknown one gets one task; reports the task's phase |
| Runtimes.SimExecutor.RunJob | internal/runtime/sim.go:63-80 | an unfinished job task ends Failed exactly if four letters in a row of a word of its command spell "fail" in any case, else Succeeded, with its message, and its reporter hears of it |
| Runtimes.ShouldFailExactly | internal/runtime/sim.go:109-116 | the search for "fail" in the lowered words, letter by letter |
| Runtimes.SimExecutor.Stop | internal/runtime/sim.go:82-96 | the task is gone; Stopped is reported exactly if it had not finished |
| Runtimes.SimExecutor.List | internal/runtime/sim.go:98-107 | the IDs held, sorted, each once |
| Agents.Agent.SyncAssignments | internal/agent/sync.go:15-58 | held becomes exactly what was handed out, surviving tasks the same objects, all stops before any start, tracked exactly the unfinished tasks, and the exact set of reports |
| Agents.SyncComes | internal/agent/sync.go:15-58 | in whatever order a sync goes over its stops and starts: what it leaves held and tracked, the set of reports it sends, and all stops first |
| Agents.Agent.RestartAndSync | internal/agent/sync.go:43-58 | the first sync of a new process creates nothing that survived a second time and reports everything wanted, survivors in the phase they are in |
| Agents.ReportedExactly | internal/agent/sync.go:32-57 | a sync reports exactly unfinished work it stops and wanted work not yet tracked; a tracked task is not reported again |
| Agents.SyncExactly | internal/agent/sync.go:15-58 | report by report, with phase and message: which are sent and which are not; and what is held afterwards, in fields |
| Agents.DesiredExactly | internal/agent/sync.go:21-26 | of every ID the list's last pending or running entry is wanted |
| Clusters.StepKeeps | internal/agent/sync.go:21-55 | every step of the cluster keeps its invariant, mid-sync and across restores |
| ClusterSafety.RuntimeSafety | internal/agent/sync.go:21-55 | in every reachable state what a machine holds fits its CPU and memory and shares no port |
| ClusterSafety.HeldWherePlaced | README.md:40-40 | an assignment is only ever held by the node it was placed on |
| ClusterSafety.StoreAlwaysSound | internal/controller/services.go:41-63 | placements, known nodes, job budget and, without deletes inside a reconcile, owners and attempts, in every state the store was ever in |
| ClusterSafety.HandedOutList | internal/controller/handlers.go:159-166 | the handler's list, read the agent's way, is the table of the node's active assignments |
| Interference.QuietTrace | internal/controller/controller.go:37-48 | undisturbed, the trace of a reconcile holds the loop's own operations only |
| ClusterSafety.TraceRuns | internal/controller/controller.go:37-48 | the trace of a reconcile, whatever handlers ran in between, is a run of the cluster to the same store: loop operations as they are, registrations as joins, reports as deliveries of letters that were sent |
| ClusterSafety.LoopRuns | internal/controller/controller.go:37-48 | the trace of an undisturbed reconcile is a run of the cluster, operation by operation, with no further condition |
| ClusterSafety.TerminalAbsorbs | internal/store/assignments.go:47-62 | without a restore a finished assignment never changes, never returns and is never handed out again |
| ClusterSafety.FirstStartStands | internal/store/assignments.go:50-63 | the first start time stands, and start and finish times match the phase, over every such run |
| ClusterSafety.EveryTimeWasTold | internal/store/assignments.go:50-63 | in every run, restores included, a start time was told by a Running report that arrived then, and a finish by a report or verdict of the present phase |
| ClusterSafety.LateReportsAreHarmless | internal/agent/sync.go:32-41 | without a restore a Stopped report never changes the store, and no assignment is ever Stopped |
| ClusterSafety.TakenDownExactly | internal/controller/handlers.go:190-198 | without a restore a report takes active work down exactly if it says Succeeded or Failed; on a service only Failed, and that from a start on the same node that failed |
| ClusterSafety.AttemptCountsEarlierFailures | internal/controller/jobs.go:39-80 | a run's number is one plus the failed runs created before it, for as long as it exists |
| ClusterSafety.AttemptCountsFailuresBelow | internal/controller/jobs.go:39-80 | in any sound store a run's number is one plus the failed runs numbered below it |
| ClusterSafety.SuccessIsLast | internal/controller/jobs.go:18-25 | once a run succeeded it is the only one, none is under way and none can be added |
| ClusterSafety.LostCostsNoRetry | internal/controller/jobs.go:35-43 | a Lost run frees its place and uses no retry |
| ClusterSafety.DeleteTakesExactly | internal/store/services.go:40-54 | deleting an owner takes exactly that kind's and name's assignments |
| ClusterSafety.RestartIsNoOutage | internal/controller/controller.go:67-80 | after any history work becomes Lost only if its node is registered and silent longer than the timeout, from its heartbeat and from the controller's start |
| ClusterSafety.ResultIsReportedAgain | internal/agent/sync.go:65-70 | while the controller has a finished job's assignment active it is handed out, the agent does not track it and reports it when it comes to it, and the report, once there, is accepted |
| ClusterSafety.EverySyncReports | internal/agent/sync.go:65-70 | over runs: a sync begun while the controller has a finished job's assignment active has sent its result anew when it ends, whatever else goes on, unless agent or machine went down or the look at the task failed |
| ClusterSafety.SyncIsRun | internal/agent/sync.go:15-58 | one sync, in any order of its stops and starts, is the run Fetch, StopNext.., BeginStarts, StartNext.., EndSync of that machine, with the same books and the same reports in the same order |
| ClusterSafety.SyncInCluster | internal/agent/sync.go:15-58 | the agent's call and the cluster's run go together: where machine and agent agree and the list is the machine's, they agree again afterwards and the letters sent are the reports sent |
| ClusterSafety.JobEndsInCluster | internal/runtime/sim.go:63-80 | the end of a job's task is the JobEnds step of that machine, with the same books and the same report |
| ClusterSafety.RestartInCluster | internal/agent/agent.go:21-40 | a new agent process, which tracks nothing yet, is the RestartAgent step |
| Convergence.ReconcileTwice | internal/controller/controller.go:37-48 | two undisturbed calls of Reconcile at one time, from any sound store, are the two reconciles that convergence starts from |
| Convergence.ClusterConverges | README.md:113-113 | from any reachable cluster, two reconciles and one sync per node leave exactly the controller's active services running, each on its node, at most its replicas, fewer only without a host; meanwhile heartbeats, registrations and ends of jobs go on, and reports arrive: any of a sync begun since, and of older ones those that take no active service away |
| Convergence.RecentIsBenign | internal/agent/sync.go:32-57 | no report of a sync begun in the calm takes an active service away, whenever it arrives |
| Convergence.ConvergenceIsReached | README.md:113-113 | after any history and any two reconciles at one time there is a calm run in which every agent fetches and finishes a sync, so the premises of convergence hold together and exactly the active services run |
| Convergence.NodeConverges | internal/agent/sync.go:15-58 | a node that fetched and finished a sync holds exactly the services active on it |
| Convergence.SyncFinishes | internal/agent/sync.go:15-58 | an idle agent can always finish a sync, and then holds what was handed out |
| Convergence.EveryAgentCanSync | internal/agent/sync.go:15-58 | from any reachable cluster, with agents anywhere in a sync, every agent can finish, fetch and sync: the calm run that convergence asks for exists |
| Convergence.ServicesSettle | internal/controller/services.go:25-63 | two reconciles at one time leave each service with its replicas on live nodes, or fewer and no host |
| Calendar.CivilOf | internal/store/backup.go:24-24 | a UTC date that is valid and denotes that very second |
| Calendar.DatesInOrder | internal/store/backup.go:92-93 | dates order exactly as times |
| Calendar.DaysAreGregorian | internal/store/backup.go:24-24 | the day count agrees with a closed formula of the Gregorian calendar that uses no month table |
| Backups.NamesInOrder | internal/store/backup.go:92-93 | snapshot names order lexicographically exactly as their times |
| Backups.NameReadsBack | internal/store/backup.go:24-24 | the time can be read back from the digits of the name, state-YYYYMMDDTHHMMSSZ.db, with the calendar formula alone |
| Backups.BackupDir.Prune | internal/store/backup.go:96-111 | removes exactly the oldest names beyond keep, nothing if keep is not positive; in fields: what goes matches the pattern and is older by name than all that stays, and as many stay as are to be kept |
| Backups.BackupDir.Backup | internal/store/backup.go:20-44 | publishes under the timestamped name and prunes |
| Backups.BackupDir.RestoreIfMissing | internal/store/backup.go:58-84 | an existing database is kept; a missing one becomes the newest snapshot, or stays missing without one |
| Backups.BackupStep | internal/store/backup.go:20-53 | one later backup takes the newest keep of the past to the newest keep of now |
| Backups.BackupsOverTime | internal/store/backup.go:20-111 | backups at increasing times leave exactly the newest keep, and a restore brings back the last one taken |
| Limits.MatchMeansPresent | internal/scheduler/scheduler.go:88-95 | a node with all required labels matches; a match implies the labels are present exactly if no required value is empty |
| Limits.FinishBeforeStart | internal/controller/controller.go:62-63 | a run ends with an assignment Lost five units before it started |
| Limits.TimesInOrderExactly | internal/store/assignments.go:50-63 | finishes stay after starts exactly if no operation finishes an assignment with a time before its start |
| Limits.RunsButPending | internal/agent/sync.go:43-46 | a run ends with a replica running, a whole further sync behind it that sent nothing, and the controller showing it Pending |
| Limits.OwnerlessIsReachable | internal/controller/services.go:61-61 | a delete inside a reconcile can leave an assignment without owner |
| Limits.OwnersKeptExactly | internal/controller/services.go:61-61 | owners stay in place exactly if no save is of an assignment whose owner is gone |
| Limits.MisnumberedIsReachable | internal/controller/jobs.go:68-82 | a job deleted and applied again inside a reconcile can get a run with a wrong number |
| Limits.NumbersKeptExactly | internal/controller/jobs.go:68-82 | runs stay numbered exactly if no save is of a run with another number than the one due |
| Limits.ReportBites | internal/controller/handlers.go:190-198 | when a report changes the store, and when it finishes an assignment: for each phase, exactly |
| Limits.FailedWhileRunning | internal/agent/sync.go:49-54 | with no restore, a late report of a failed start can take down the replica a later sync started |
| Limits.SucceededWhileRunning | internal/runtime/sim.go:63-80 | a late result can end a job whose run was started over after a crash |
| Limits.StoppedAfterRestore | internal/store/backup.go:55-84 | after a restore a late Stopped report can stop a replica |
| Limits.FreshnessNeededExactly | internal/controller/controller.go:111-123 | machines hold only what was placed on them exactly if a saved ID is held nowhere as anything else; an ID never used before never is |
| Limits.ReusedIdRunsTwice | internal/controller/controller.go:111-123 | after a restore an ID that passes the program's check can come to run on two nodes |

## Where the documentation promises more than the code keeps

- `internal/store/assignments.go:47-49` promises that a late report brings no finished assignment back; that is kept (`ClusterSafety.TerminalAbsorbs`). It does not keep a late report from finishing an assignment that is alive. Without a restore exactly `Succeeded` and `Failed` reports do, where the store has the assignment active on the sender; `Running` and `Stopped` ones never do (`ClusterSafety.TakenDownExactly`, `ClusterSafety.LateReportsAreHarmless`). The failed start such a report tells of may have succeeded since (`Limits.FailedWhileRunning`), the ended run may have been started over (`Limits.SucceededWhileRunning`). After a restore a `Stopped` report can do it too (`Limits.StoppedAfterRestore`). `Limits.ReportBites` says for every phase when.
- `internal/controller/controller.go:111-114`: the random suffix keeps IDs unique across restores. The check in line 119 sees the present store only, so this rests on the suffix never repeating; if it does, a restore lets one ID run on two nodes (`Limits.ReusedIdRunsTwice`). `Limits.FreshnessNeededExactly` gives what is exactly needed, in terms of what machines hold, which the controller cannot see. What could be checked is the sufficient half: that the ID is not among those ever created (`born`), a list that would have to outlive a restore.
- `internal/agent/sync.go:65-67`: a lost final report is sent again. A lost `Running` report is not, while the agent tracks the ID (`Agents.ReportedExactly`), so a replica can run while the controller shows it as Pending (`Limits.RunsButPending`).

## Left out

- TLS, certificates, join tokens: `caller` is the authenticated node ID.
- HTTP routing, methods, JSON: a request is a value; unknown paths, methods and undecodable bodies have no counterpart.
- The containerd executor: asynchronous container creation is foreign code; the runtime is the simulated one. A start that fails is a step of the cluster (`StartFails`), not of the `Agent` class.
- Stop errors: the simulated runtime's Stop always succeeds, and runtime safety relies on it.
- SQLite itself (WAL, pragmas, fsync, VACUUM, integrity check) and fail-stop on errors: tables hold committed rows, and a crash restarts from them.
- File system errors, temporary names, renames and file modes of backups: a directory is a map from names to contents.
- Mutexes and goroutines: store methods and agent steps are atomic; interleaving is by `Others()` and by the cluster's steps.
- The agent's register, heartbeat and poll tickers, the CLI, main functions and deployment scripts.
- Integer overflow, and `time.Duration` saturation for times more than 292 years apart.
- Assignment ID text (`<owner>-<attempt>-<suffix>`) and the retry loop around it: any ID never used before.
- Clone functions: values are immutable here.
- Runtimes.SimExecutor.RunJob: the delay and the stop channel are the choice of when it is called; lower case is modelled for the letters of "fail" only.
- Convergence.ClusterConverges: jobs are not part of it; a job may end at any moment, so what runs and what is recorded agree only on services.
