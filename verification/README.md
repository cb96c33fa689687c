# Netbula control plane: model and proofs

Netbula is a small container orchestrator: one manager, any number of workers that dial in, Docker on every
worker.  This project models the control plane in two layers and proves what it is supposed to guarantee.

**Components.**  Each object of the source that updates its fields is a class whose methods are proved to do to
an abstract value exactly what a specification function says.

| file | what it models |
|---|---|
| `Tasks.dfy` | tasks, events, the table of state transitions |
| `Stores.dfy` | the key-value store: in memory (hands out the stored objects) or persistent (copies, may fail to write) |
| `StateModel.dfy`, `MappingStorage.dfy` | the manager's four stores and the three indexes derived from them |
| `Schedulers.dfy` | E-PVM and round robin |
| `Cluster.dfy` | connections, polling, the node log, synchronisation of task records |
| `ManagerModel.dfy`, `Manager.dfy` | the event queue, worker selection, one SendWork call and its steps |
| `WorkerModel.dfy`, `Worker.dfy` | a worker: its queue, its records, its calls to Docker |

**System.**  `System.dfy` puts them together as a step relation: events arrive, workers register and connect, the
sending loop takes an event, issues a request, receives a reply or gives up, requests are delivered, workers run
queued tasks, check health and restart, task records are fetched and applied, the manager crashes (also between
the two Puts of an assignment) and rebuilds.  The steps of one SendWork call interleave with everything else.
Requests and fetched records stay on the network for ever and may be delivered or applied any number of times,
late, or never, so lost replies, duplicates and stale reports are all covered.  `Guarantees.dfy` and `Truth.dfy`
state what holds in every reachable world and over every run; `Histories.dfy` says what stores, worker queues,
connections and requests are at any moment, from the steps taken so far alone; `Lifecycle.dfy` shows that these worlds include a
task that is submitted, run and stopped on any worker, and also the unwelcome ones named below.  Every
stretch of steps from an initial world is a run (`Guarantees.LeadsIsRun`).

The main results:

- **Single start.** In every run at most one container start is ever issued for a task, across all workers; an
  assignment never changes once made (`Guarantees.SingleStart`, `Guarantees.AssignmentsArePermanent`).
- **What a shown state means.** A task the manager shows as Running was asked of Docker to be started, and one
  shown as Completed was also asked to be stopped, on the worker it is assigned to, at the times shown.  The container id shown is that
  of the one container Docker reported to have started for it, and it is empty exactly when Docker reported an error
  (`Truth.ShownTasksWereStarted`).  A container of a Completed task was reported stopped exactly when Docker said so
  in the step that asked (`Truth.CompletedTasksWereStopped`); nothing stored by the manager or a worker tells the two
  cases apart (`Lifecycle.FailedStopLooksTheSame`), and neither failure is ever made good (`Truth.OutcomesAreFinal`).
  A task shown as Failed is one the sending loop gave up on, or one whose own worker's health check found its
  running container failed (`Truth.FailedTasksHaveACause`).
- **Drift law.** The active counter of a worker is short of the true number by exactly the number of steps that
  touched one of its finished tasks since the last rebuild; it never counts too many (`Guarantees.CounterDriftLaw`).
- **Nothing stored is lost.** At any moment, also after restarts, each of the manager's four stores is what the
  registrations, logged events, assignments, reports and failures so far have made it
  (`Histories.StoresAreTheirHistory`, `Histories.NothingStoredIsLost`).
- **No request is lost.** What was delivered to a worker since its last restart is what it has run followed by its
  queue, in order (`Histories.DeliveriesAreConserved`), as for the manager's events (`Guarantees.EventsAreConserved`).
- **Incremental equals rebuild**, and a restart is possible wherever the manager stops
  (`Guarantees.IncrementalEqualsRebuild`, `Guarantees.RestartNeverFails`).
- **Synchronisation** agrees with the workers, leaves all else alone, does not depend on the order of arrival and
  is idempotent, with every worker read at a moment of its own (`Guarantees.SyncInReach`); no report is ever
  refused, however late (`Guarantees.NoReportIsRefused`).
- **Docker trace safety**, with the exact condition on the start bodies a worker accepts
  (`WorkerModel.DockerTraceSafety`), and exactly which lost writes break it (`WorkerModel.SafeIffRecordsKept`).
- **Outcome of SendWork**: exactly when a call fails and what it has sent (`ManagerModel.SendWorkSends`), what a failure
  leaves in the store, with the exact exception to "absent or Failed" (`ManagerModel.FailedSendRecord`,
  `ManagerModel.FailedSendLeavesOrphans`).
- **Scheduling**: a first start that succeeds goes to a worker that answered the poll, has the disk and costs no more
  than any other that has (`Guarantees.FirstStartGoesToCheapest`).  E-PVM is greedily optimal for the cluster's
  potential and never picks a beaten node, for powers given by the laws of exponents and, with no law assumed, for
  repeated multiplication on a grid of loads, which exists for all fractions; round robin is fair
  (`Schedulers.PickMinimisesPotential`, `Schedulers.BeatenNodeIsNotPicked`,
  `Schedulers.BeatenNodeIsNotPickedByFractions`, `Schedulers.RotationIsFair`).

**Where the code differs from what one might expect.**  The model follows the code.

- After an error SendWork leaves the task absent or Failed, except for an *orphan*: a record stored without an
  assignment, which a crash between the two Puts (or a failed second Put) leaves behind.  An orphan that is
  stopped, or that no worker can take, stays as it is, because marking it Failed needs its worker
  (`Lifecycle.CrashLeavesOrphan`, `ManagerModel.OrphanCannotBeStopped`).
- The counter is not always the true number: a finished task that is resubmitted, reported active again, or
  flipped between Completed and Failed makes it drift until the next restart (`Lifecycle.ResubmissionDrifts`).
- Over the persistent store a worker's health check records a failure exactly when Docker shows it no container:
  the container is gone, or the inspection itself failed, so that an unreachable daemon makes every running task
  Failed.  A container that merely exited is noticed on a copy of the record that is never written back, so the
  task stays Running, although the state diagram in docs/architecture.md has it Failed (`WorkerModel.CheckDetects`).
- A failed start is recorded as Running, a failed stop as Completed; the diagram has the former as Failed.  So a task
  can be shown as Completed although no container was reported started for it (`Lifecycle.CompletedWithoutRunning`),
  or although its container was never reported stopped (`Lifecycle.FailedStopLooksTheSame`).
- A stop that fails writes the five worker-owned fields of the queued event over those of the record, so that a stop
  event without the container id wipes it out (`ManagerModel.FailedSendRecord`).
- A task can be shown as Failed while its container runs and nobody has asked to stop it: the manager gives up on a
  start whose reply is bad, and the worker gets the request all the same (`Lifecycle.FailedWhileRunning`).
- The transition table is the documented diagram plus the self-loops of Scheduled and Running.
- The disk filter of E-PVM lets through what the documented comparison does, and a little more on a node whose disk
  is more than full: truncation is towards zero.  That needs a reported disk usage above one hundred per cent, which
  the manager does not rule out but an ordinary machine does not report (`Schedulers.OverfullDiskIsAccepted`).

**Assumptions.**  Store reads succeed; manager writes may fail, each by an argument of its own.  Of the writes of a
worker only the one that follows a call to Docker must succeed in the system layer; `WorkerModel.SafeIffRecordsKept`
shows that exactly these are needed.  Bodies under a mutex, HTTP handlers, queue operations and a worker's health
check are atomic.  Calls of UpdateWorkerNodes, which the sending loop, new connections and the nodes API make, do not
overlap.  Choosing the worker, assigning the task and putting the request on the connection are one step of the
system, except that a crash may come between the two Puts.  An error of Docker counts as nothing done: the client
also reports one when it cannot read a started container's logs or remove a stopped container.  The manager restarts
over persistent stores, and so does a worker, under the name it had: the name picks the bucket of its records, and
`WorkerModel.ForgottenRecordsStartTwice` shows exactly which starts break single start under another name.  Worker
ids are distinct, ids are opaque, floats are reals.

## Model

| member | source | states |
|---|---|---|
| Tasks.TransitionsAreTheDiagramWithTwoLoops | internal/task/task.go:86-105 | a transition is valid iff it is an edge of the documented diagram or a self-loop of Scheduled or Running; none leaves a terminal state, every other one raises the rank |
| Tasks.HistoriesAreShort | docs/architecture.md:96-107 | in any legal history a task changes state at most three times and nothing follows Completed or Failed |
| Stores.Store.Get | internal/store/in_memory_task_store.go:18-25 | null iff the key is missing; the stored object itself in memory, a fresh copy from disk |
| Stores.Store.Put | internal/store/in_memory_task_store.go:13-16 | the map of values is updated at one key, or not at all when the write fails; no two keys come to share an object |
| Stores.Store.List | internal/store/in_memory_task_store.go:27-35 | every record once, in an arbitrary order |
| Stores.Store.ChangedThroughPointer | internal/app/manager/state.go:229-237 | changing one record through its pointer is an update of the map of values at its key alone |
| MappingStorages.MappingStorage.Rehydrate | internal/app/manager/state.go:59-134 | succeeds iff every assigned task has a record; then, for any listing order, the indexes agree with the stores and every counter is exact |
| MappingStorages.MappingStorage.RebuildLists | internal/app/manager/state.go:72-112 | worker list and task lists are the duplicate-free inverse of the assignments, registered workers included |
| MappingStorages.MappingStorage.RebuildCounts | internal/app/manager/state.go:114-131 | the counters become the true numbers of active tasks, or an error when a record is missing |
| MappingStorages.MappingStorage.GetWorkerMetadata | internal/app/manager/state.go:137-150 | the registered name or "unknown", and the counter or zero |
| MappingStorages.MappingStorage.RegisterWorker | internal/app/manager/state.go:163-188 | new abstract value; nothing changes when the write fails |
| MappingStorages.MappingStorage.UpdateTask | internal/app/manager/state.go:191-243 | the same new abstract value over the store of shared pointers and the store of copies, and exactly when it reports an error |
| MappingStorages.MappingStorage.AssignTaskToWorker | internal/app/manager/state.go:248-268 | new abstract value for each outcome of its two writes; returns the Scheduled copy iff both succeed |
| MappingStorages.MappingStorage.UpdateTaskEvent | internal/app/manager/state.go:291-296 | the event is logged under its id, or an error |
| MappingStorages.ServeAll | internal/app/manager/state.go:163-296 | any sequence of calls, reading or writing, over the store of shared pointers or the store of copies ends with the storage and the replies of the same calls on a map of values |
| StateModel.StoreKindLeavesNoTrace | internal/app/manager/state.go:229-237 | while writes succeed both stores end with the same storage and admit the same replies to every call |
| StateModel.AgreeIsRebuild | internal/app/manager/state.go:59-134 | indexes that agree with the stores hold the same workers and the same tasks per worker as any rebuild; counters differ by the drift |
| StateModel.RebuildExists | internal/app/manager/state.go:59-134 | stores in which every assigned task has a record have a rebuilt state |
| StateModel.RegisterKeepsAgree | internal/app/manager/state.go:163-188 | registration keeps the agreement iff the worker is registered or wholly unknown |
| StateModel.NameIsTheLastStored | internal/app/manager/state.go:163-188 | after any sequence of calls the name answered for a worker is that of its last stored registration |
| StateModel.AssignKeepsAgree | internal/app/manager/state.go:248-268 | assignment keeps the agreement iff the worker is known and the task is not moved from another worker |
| StateModel.UpdateKeepsAgree | internal/app/manager/state.go:191-243 | a report never disturbs the list indexes |
| StateModel.ReportIsTakenOver | internal/app/manager/state.go:191-243 | exactly which reports are taken over, field by field; a refused one leaves the whole storage as it is |
| StateModel.UpdateDriftLaw | internal/app/manager/state.go:211-227 | for all inputs, what one report adds to (true active number minus counter) of every worker |
| StateModel.AssignDriftLaw | internal/app/manager/state.go:252-265 | for every storage whose lists agree with the assignments, what one assignment adds to the drift of every worker, whatever its writes do |
| StateModel.SyncIsConfluent | internal/app/manager/cluster.go:184-197 | reports with distinct ids give the same storage in every order, even when some writes fail |
| StateModel.UpdateIdempotent | internal/app/manager/state.go:191-243 | a report applied twice is the report applied once iff it is not a lowering report whose write was lost |
| StateModel.SyncIsIdempotent | internal/app/manager/cluster.go:184-197 | the same reports in any order a second time change nothing |
| StateModel.SyncAgrees | internal/app/manager/state.go:229-237 | reported records end equal to their reports in the five worker-owned fields, identity fields and all other tasks are untouched |
| Schedulers.FilterAgainstDocument | docs/adr/0003-epvm-scheduling-algorithm.md:27 | the filter accepts all the document does, and beyond it exactly a requirement less than one above a negative available disk |
| Schedulers.FilterIsDocumentedOnNode | internal/scheduler/epvm.go:20-32 | filter and document agree on every task iff the node's available disk is not negative or is a whole number |
| Schedulers.OverfullDiskIsAccepted | internal/scheduler/epvm.go:30-32 | they agree up to one hundred per cent of disk usage; at 100.5 per cent of a disk of 100 a task without demand is let through |
| Schedulers.FilterByPercent | internal/scheduler/epvm.go:20-32 | for a whole percentage p up to 100 the filter is 100 * requirement <= (100 - p) * disk |
| Schedulers.SelectCandidateNodes | internal/scheduler/epvm.go:25-38 | the order-preserving sublist of the nodes with enough disk |
| Schedulers.Score | internal/scheduler/epvm.go:43-61 | under each id the marginal cost of the last node that carries it, and no other keys |
| Schedulers.Pick | internal/scheduler/epvm.go:64-82 | nothing iff there is no candidate, else the first candidate with the lowest score |
| Schedulers.CostIsPotentialGrowth | internal/scheduler/epvm.go:48-57 | the score is the growth of the node's potential when the task is placed on it |
| Schedulers.PickMinimisesPotential | internal/scheduler/epvm.go:64-82 | no other candidate leaves the whole cluster with a lower potential |
| Schedulers.CostsTelescope | internal/scheduler/epvm.go:48-57 | the total cost of any run of placements is the potential at its end minus that at its start |
| Schedulers.EqualNodesCostTheSame | internal/scheduler/epvm.go:48-57 | nothing of a node but its cores, load, memory and memory usage goes into its cost, whatever the power function |
| Schedulers.ExponentialIsRepeatedProduct | internal/scheduler/epvm.go:54-55 | under the laws of exponents the power function is, on every grid of loads, repeated multiplication by its value at the first grid point, which is above one and the root of its value at one |
| Schedulers.IncrementsRise | docs/adr/0003-epvm-scheduling-algorithm.md:46 | under the laws of exponents the same positive demand costs strictly more from a higher load |
| Schedulers.BeatenNodeIsNotPicked | docs/adr/0003-epvm-scheduling-algorithm.md:46-50 | under the laws of exponents, for a task with no negative demand, a node that another candidate of equal hardware beats in its raw load and memory figures is never picked |
| Schedulers.PowerIncrementsRise | internal/scheduler/epvm.go:54-55 | with powers built by repeated multiplication of any base above one, the same positive demand costs strictly more from a higher load |
| Schedulers.BeatenNodeIsNotPickedOnGrid | docs/adr/0003-epvm-scheduling-algorithm.md:46-50 | with such powers, for any base above one and loads on any grid, a beaten node is never picked; nothing is assumed of the power function |
| Schedulers.BeatenNodeIsNotPickedByFractions | internal/scheduler/epvm.go:43-82 | whatever fractions the loads and demands are, they lie on a common grid, on which no beaten node is picked for any base above one |
| Schedulers.BeatenNodeIsNotPickedAtLieb | internal/scheduler/epvm.go:11-15 | the same at the constant of the source: its root for the grid gives its powers at whole loads |
| Schedulers.RoundRobin.Score | internal/scheduler/round_robin.go:18-33 | the index moves on by one modulo the number of nodes, and that node alone gets the low score |
| Schedulers.RemainderTruncates | internal/scheduler/round_robin.go:21-22 | the remainder is nearer to zero than n and on the side of zero its dividend is on |
| Schedulers.RoundRobin.Next | internal/scheduler/round_robin.go:18-51 | score then pick selects the next node in rotation; the index is in range whatever the list's length was before |
| Schedulers.TimesSelectedFormula | internal/scheduler/round_robin.go:21-22 | closed form of how often a node is selected in a window |
| Schedulers.RotationIsFair | internal/scheduler/round_robin.go:18-51 | in every window of m selections each of n nodes is chosen floor(m/n) or ceil(m/n) times |
| Cluster.PolledMembers | internal/app/manager/cluster.go:57-78 | the poll holds exactly the workers with a connection that answered, each with its registered name, its counter, and every figure as it answered it |
| Cluster.PolledDistinct | internal/app/manager/cluster.go:57-78 | workers listed once give nodes with distinct ids |
| Cluster.ChoiceOverAnswers | internal/node/node.go:31-50 | the best choice stated over the answers themselves: none iff no answering worker has room on its disk, otherwise one that has and whose potential grows least |
| Cluster.HttpClientCluster.UpdateWorkerNodes | internal/app/manager/cluster.go:44-97 | for every set of failed fetches and order of arrival the node list becomes the poll, ids distinct, the log keeps telling who is up and gains exactly one entry per worker that appeared or disappeared |
| Cluster.LogDifference | internal/app/manager/cluster.go:99-125 | after the new entries each worker's entries still alternate from Appeared, the last one says whether it is in the new list, and exactly one entry is added per changed worker |
| Cluster.LogSnoc | internal/app/manager/cluster.go:112-124 | an entry that contradicts the last one of its worker keeps the alternation |
| Cluster.HttpClientCluster.AddClient | internal/app/manager/cluster.go:322-327 | the connection is known from now on |
| Cluster.HttpClientCluster.SendTask | internal/app/manager/cluster.go:219-234 | a request goes out iff there is a connection; an error otherwise or when the reply is bad |
| Cluster.HttpClientCluster.StopTask | internal/app/manager/cluster.go:271-286 | likewise for a stop |
| Cluster.HttpClientCluster.SyncTasks | internal/app/manager/cluster.go:147-198 | applies the reports of the workers reached in some order of arrival; the order leaves no trace when ids are distinct |
| ManagerModel.SendWorkTakesHead | internal/app/manager/manager.go:212-230 | each call takes exactly the head of the queue and logs the event as it was queued |
| ManagerModel.HandedBackIs | internal/app/manager/manager.go:206-273 | a call that stored the assignment hands back the event with the Scheduled copy, every other call the queued event unchanged |
| ManagerModel.SendWorkSends | internal/app/manager/manager.go:225-273 | exactly when a call fails, and exactly which request it has sent by then |
| ManagerModel.SuccessfulStart | internal/app/manager/manager.go:245-273 | on success the task is stored Scheduled and assigned to its target, and the one request sent goes to that worker with the Scheduled copy |
| ManagerModel.SuccessfulStop | internal/app/manager/manager.go:232-243 | on success one stop request goes to the assigned worker and only the event log changes |
| ManagerModel.FailedSendOutcome | internal/app/manager/manager.go:216-223 | for all outcomes of all writes, exactly when a failed call leaves the task absent or Failed |
| ManagerModel.FailedSendRecord | internal/app/manager/manager.go:216-223 | after a failed call the record has the worker-owned fields of the queued task, marked Failed, its own identity fields, and no other task has changed |
| ManagerModel.FailedSendLeavesOrphans | internal/app/manager/manager.go:216-223 | with working stores a failed call leaves the task absent or Failed iff it is not an orphan that was stopped or could not be placed |
| ManagerModel.OrphanCannotBeStopped | internal/app/manager/manager.go:296-312 | whatever the writes do, stopping an orphan is an error and leaves the task records as they are |
| ManagerModel.UnansweredStart | internal/app/manager/manager.go:262-268 | an assigned but unanswered start is recorded as the queued task marked Failed, and a first start leaves every counter where it was |
| ManagerModel.SendWorkIsSticky | internal/app/manager/manager.go:279-289 | no call changes an existing assignment |
| Managers.Manager.AddTaskEvent | internal/app/manager/manager.go:292-294 | the event joins the end of the queue |
| Managers.Manager.AddWorkerAndClient | internal/app/manager/manager.go:159-172 | the connection is recorded iff the registration was stored |
| Managers.Manager.SelectWorker | internal/app/manager/manager.go:180-195 | fails iff no polled node has enough disk; otherwise a registered, connected worker whose node has enough disk at the lowest marginal cost |
| Managers.Manager.DetermineWorker | internal/app/manager/manager.go:279-289 | the assigned worker, or the scheduler's choice for an unassigned task |
| Managers.Manager.SendWork | internal/app/manager/manager.go:206-273 | the object, with its captured original and its aliased event, does what the abstract call does, hands back the right event, reports an error exactly when it fails, and takes the best choice over the poll for a task without a worker |
| Managers.Manager.SendTasksRound | internal/app/manager/manager.go:326-350 | with events arriving between calls no call finds the queue empty; the queue afterwards is the unprocessed rest followed by the arrivals |
| WorkerModel.CheckDetects | internal/app/worker/worker.go:208-244 | exactly which Docker answers turn a running record into Failed over each kind of store, what else changes, and that no other record does |
| WorkerModel.HeadIsRun | internal/app/worker/worker.go:67-160 | on any machine, from the states alone: which call the head of the queue leads to, what is recorded of it for each outcome of the Puts, and that nothing else changes |
| WorkerModel.RecordsNeedACause | internal/app/worker/worker.go:84-86 | on any machine a stored record changes only in a step that calls Docker for it or checks its container |
| WorkerModel.EveryRecordIsChecked | internal/app/worker/worker.go:208-244 | a check looks at every record and changes nothing but the state and ports of running ones |
| WorkerModel.RequestsAreConserved | internal/app/worker/worker.go:100-168 | over any run of a worker what was asked since its last restart is what it ran followed by its queue, in order |
| WorkerModel.StepFails | internal/app/worker/worker.go:208-244 | on any machine a record is Failed after a step iff it was before, or a health check finds its running container so, or it is the first record of an entry that says Failed |
| WorkerModel.FailuresHaveACause | internal/app/worker/worker.go:208-244 | over every run of any worker each record that became Failed did so in such a step; over the persistent store that means an inspection that showed no container |
| WorkerModel.StartThenStop | internal/app/worker/worker.go:100-160 | what an undisturbed start and stop record whatever Docker answers, and that the stop names the container id the start left |
| WorkerModel.DockerTraceSafety | internal/app/worker/worker.go:67-160 | every run that loses no record of a Docker call makes, per task, no call, a start, or a start and a stop of the id it left, iff the start bodies are Scheduled or Failed |
| WorkerModel.RunKeepsSound | internal/app/worker/worker.go:67-244 | queue, records and Docker calls, with the times they were made, stay matched over every run whose start bodies are Scheduled or Failed and that loses no record of a Docker call |
| WorkerModel.RunsOnlyAdvance | internal/app/worker/worker.go:84-96 | over every run of any worker records never disappear, never fall in rank, and a terminal record never changes |
| WorkerModel.AtMostTwoCallsPerRecord | internal/app/worker/worker.go:84-96 | with n task records a worker has made at most 2n Docker calls |
| WorkerModel.SafeIffRecordsKept | internal/app/worker/worker.go:79-159 | a run stays in states from which no continuation makes ill-formed calls iff it loses no Put that follows a Docker call; losing a new record or a health check's Put is harmless |
| WorkerModel.LostRecordStartsTwice | internal/app/worker/worker.go:117-132 | from any sound worker, a start whose record is lost is made again by the next request for the task |
| WorkerModel.LostRecordStopsTwice | internal/app/worker/worker.go:140-159 | from any sound worker, a stop whose record is lost is made again by the next stop request |
| WorkerModel.ForgottenRecordsStartTwice | internal/app/worker/worker.go:50 | a worker that restarts with an empty bucket breaks the well-formedness of its calls by the next start of a task iff it had made a call for that task |
| Workers.Worker.StartTaskHandler | internal/app/worker/handler.go:43-59 | the body's task joins the queue as it is |
| Workers.Worker.StopTaskHandler | internal/app/worker/handler.go:78-106 | a copy of the stored record with desired state Completed joins the queue, or not found |
| Workers.Worker.TransitionTask | internal/app/worker/worker.go:67-96 | new abstract value over either kind of store for each outcome of its two Puts and each answer of Docker, and exactly when it makes no call to Docker |
| Workers.Worker.RunTask | internal/app/worker/worker.go:100-111 | the head of the queue is taken and its transition made, for each outcome of the two Puts |
| Workers.Worker.UpdateTasks | internal/app/worker/worker.go:208-244 | new abstract value over either kind of store, each Put with its own outcome: the change made through the handed-out record lasts only in memory |
| System.StepKeepsInv | internal/app/manager/manager.go:206-289 | every step of the system keeps the whole invariant and every assignment |
| System.RunsKeepInv | internal/app/manager/manager.go:206-350 | every world of every run satisfies it |
| System.IssueKeepsInv | internal/app/manager/manager.go:245-273 | assigning before sending keeps every request addressed to the task's own worker |
| System.RestartKeepsInv | internal/app/manager/state.go:44-56 | a crash, also between the two Puts of an assignment, and any rebuild keep it (Guarantees.RestartNeverFails gives the rebuild) |
| System.WorkerStepsKeepInv | internal/app/worker/worker.go:67-244 | deliveries in any number and order, task runs, health checks with any writes lost but those of Docker calls, and restarts of workers keep it |
| Guarantees.AssignmentsArePermanent | internal/app/manager/manager.go:279-289 | over every run an assignment once made never changes |
| Guarantees.TasksStayHome | internal/app/manager/manager.go:255-262 | a task in any worker's queue or records is on exactly the worker it is assigned to |
| Guarantees.SingleStart | internal/app/worker/worker.go:84-92 | at most one container start is issued per task across all workers in every run |
| Guarantees.DockerCallsInReach | internal/app/worker/worker.go:67-160 | in every reachable world every worker's Docker calls are well-formed and at most twice its records |
| Guarantees.MovesAreTouches | internal/app/manager/state.go:211-227 | the drift accumulated in a run is the number of touches of finished tasks since the last rebuild |
| Guarantees.CounterDriftLaw | internal/app/manager/state.go:211-227 | true active number equals counter plus touches, so the counter never counts too many |
| Guarantees.IncrementalEqualsRebuild | internal/app/manager/state.go:59-134 | in every reachable world a rebuild gives the same workers and lists, and counters higher by the touches; the workers are the registered ones |
| Guarantees.RestartNeverFails | internal/app/manager/state.go:123-124 | wherever the manager stops, every assigned task has a record, a rebuilt storage exists and restarting with it is an enabled step |
| Guarantees.EventsAreConserved | internal/app/manager/manager.go:292-350 | events submitted since the last restart are those taken followed by those pending, in order |
| Guarantees.SenderNeverStarves | internal/app/manager/manager.go:326-350 | in no run does the sending loop find the queue empty |
| Guarantees.SyncInReach | internal/app/manager/cluster.go:147-198 | over every run, for any workers reached, each read at any moment, and any arrival order: agreement with what was read, frame, confluence and idempotence |
| Guarantees.NoReportIsRefused | internal/app/manager/state.go:195-223 | in every step of every run that applies a report, stale or not, UpdateTask accepts it |
| Guarantees.PollsAreDistinct | internal/app/manager/cluster.go:44-97 | in every reachable world the ids of a poll are distinct, whoever answers |
| Guarantees.FirstStartGoesToCheapest | internal/app/manager/manager.go:180-195 | in every reachable world a first start that succeeds is assigned to a registered, connected worker whose answer to the poll leaves room on its disk and whose potential grows by no more than that of any other such worker |
| Guarantees.NoChoiceMeansNoRoom | internal/app/manager/manager.go:184-190 | a first start fails for want of a worker iff no worker that answered has room on its disk |
| Guarantees.SendWorkIsSteps | internal/app/manager/manager.go:206-273 | an uninterrupted SendWork call is one of the interleavings of the step relation |
| Guarantees.SyncIsSteps | internal/app/manager/cluster.go:147-198 | a SyncTasks call, for any workers reached, order of arrival and failed writes, is one of the interleavings of the step relation |
| Guarantees.ManagerCallsAreSteps | internal/app/manager/manager.go:159-172 | at any time an event can be added, and a worker can register and connect, or fail to |
| Guarantees.WorkerActsAreSteps | internal/app/worker/worker.go:100-244 | whatever a worker can do on its own is a step of the system at any time, with the same effect |
| Guarantees.DeliveriesAreSteps | internal/app/worker/handler.go:43-106 | a request sent can reach its worker at any later time, any number of times |
| Truth.StepKeepsTruth | internal/app/manager/state.go:229-237 | no step makes the manager show a Running or Completed task whose start, or stop, was not asked of Docker by its worker with the id and at the times shown |
| Truth.CallsComeFromSteps | internal/app/worker/worker.go:100-160 | every call in a worker's log was made in one step of the run, for the head of its queue, with Docker's answer in that step |
| Truth.ShownTasksWereStarted | internal/app/worker/worker.go:117-130 | for a task shown as Running or Completed: the step that asked Docker to start it on its worker, at the start time shown; the id shown is that of the only container reported started for it anywhere, empty iff Docker reported an error |
| Truth.CompletedTasksWereStopped | internal/app/worker/worker.go:140-152 | for a task shown as Completed: the step that asked Docker to stop the id shown, at the finish time shown; a container was reported stopped for it anywhere iff Docker said so in that step |
| Truth.FailedTasksHaveACause | internal/app/manager/manager.go:216-223 | over every run a task shown as Failed is one the sending loop gave up on, or one whose own worker's health check found its running container failed |
| Truth.OutcomesAreFinal | internal/app/worker/worker.go:84-92 | once shown, a failed start or stop is not made good by any later step of any run |
| Histories.StoresAreTheirHistory | internal/app/manager/state.go:44-56 | at every moment of every run, also after restarts, each of the four stores is a function of the steps so far: last stored name, last logged event, first assignment, last record |
| Histories.NothingStoredIsLost | internal/app/manager/state.go:44-56 | no name, event, assignment or task record ever loses its key, across restarts |
| Histories.WorkersAreTheRegistered | internal/app/manager/state.go:90-112 | the workers polled are those ever registered; after a restart they are the registered workers of the world before it |
| Histories.DeliveriesAreConserved | internal/app/worker/handler.go:56-103 | over every run what was delivered to a worker since its last restart is what it ran followed by its queue, in order |
| Histories.NetworkIsItsHistory | internal/app/manager/cluster.go:219-327 | the connections are those made since the manager started, the requests sent those that each sending step was due to send |
| Histories.RoundIsASnapshot | internal/app/manager/manager.go:326-350 | a round of the sending loop makes as many calls as there were events in the queue when it began |
| Lifecycle.TasksCanRunAndStop | docs/architecture.md:96-107 | from the initial world, whatever Docker answers, any task can be brought to be shown as Completed on any worker with the two calls made; a container was reported started, or stopped, iff Docker said so |
| Lifecycle.FailedStopLooksTheSame | internal/app/worker/worker.go:140-152 | two reachable worlds in which all that the manager and the workers store is equal, with the container reported stopped in one and not in the other |
| Lifecycle.CompletedWithoutRunning | internal/app/worker/worker.go:119-130 | a reachable world that shows a task as Completed for which no container was ever reported started |
| Lifecycle.FailedWhileRunning | internal/app/manager/manager.go:216-223 | a reachable world that shows a task as Failed whose container was reported started and was never asked to stop |
| Lifecycle.ResubmissionDrifts | internal/app/manager/state.go:262-265 | a completed task submitted again leaves its worker's counter one short of the true number |
| Lifecycle.CrashLeavesOrphan | internal/app/manager/state.go:254-260 | from the initial world, a crash between the two Puts of an assignment and the restart leave the task stored without a worker |

## Left out

- HTTP, TLS, yamux, routing and JSON: a request is delivered or not, a reply is good or not.
- The manager's REST handlers: they only queue events, and the model queues arbitrary ones.
- The Docker client: its answers to starts, stops and inspections are arbitrary; a container it reports has a non-empty id.
- The bbolt encoding: a map of values whose writes succeed or fail as a whole.
- Races outside the mutexes (health check, queue, reads in handlers, two goroutines on the manager's queue): taken as atomic steps.
- A worker process that stops in the middle of a transition, and Worker.StoreTask, which nothing but tests calls.
- Restarts over in-memory stores: nothing survives them, so single start cannot hold across them.
- Floating-point rounding, division by zero cores or zero memory (a machine has at least one of each), and NaN.
- Wall-clock sleeps and liveness of the endless loops; the command line, configuration, loggers other than the node log, and machine statistics.
- The store interface has one class with a flag for its two implementations; event, assignment and name stores, whose values are never changed through a pointer, are plain maps.
- Schedulers.Pick: stands for the Pick of both schedulers, which are the same loop.
- Schedulers.RotationIsFair: is about a fixed number of nodes in a fixed order; the polled order may vary.
- Schedulers.BeatenNodeIsNotPicked: is for tasks with non-negative demand and takes the laws of exponents for math.Pow.
- Schedulers.BeatenNodeIsNotPickedOnGrid: is for loads and demands that are multiples of one fraction; Schedulers.BeatenNodeIsNotPickedByFractions finds it.
- Schedulers.BeatenNodeIsNotPickedAtLieb: takes the root of the constant that belongs to the grid; its existence is a fact of the reals that is not proved, except for whole loads (`Schedulers.WholeLoadsNeedNoRoot`).
- Managers.Manager.SelectWorker: uses E-PVM, the production scheduler; round robin is proved on its own.
