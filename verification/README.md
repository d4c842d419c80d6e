# Verification of the agent runtime

A Dafny model of the parts of Gokin whose correctness is hardest to see: the task coordinator and its
priority queue, the stream-json connection loop, the detached worker and its durable inbox, plan-tree
search and its checkpoints, history compaction, the turn loop, automatic recovery, the fix cache, and
the policy of resumed sessions.

Each source file has one or two modules. Where the source updates fields step by step, a class (or a
method with loops) does the same, and its contract ties the new state to a function of the old one;
where it computes a value, there is a function. What the source promises is then proved about those
functions, for every input, every run or every reachable state.

| file | modules | source |
|---|---|---|
| `HeapOrder.dfy` | `SortedEntries`, `HeapOrder` | `internal/agent/priority_queue.go`: sorted lists and heaps |
| `TaskQueue.dfy` | `TaskQueues` | `internal/agent/priority_queue.go` |
| `Coordinator.dfy` | `TaskGraph`, `GraphInvariant` | `internal/agent/coordinator.go` |
| `GraphTheorems.dfy` | `GraphTheorems` | the same: deadlock, cascades |
| `CoordinatorRuns.dfy` | `CoordinatorRuns` | the same: whole runs, any interleaving |
| `CoordinatorEffects.dfy` | `CoordinatorEffects` | the same: what each section does to the tasks |
| `Delivery.dfy` | `Delivery` | the same: the callback protocol |
| `CoordinatorClass.dfy` | `Coordinators` | the same: the fields and methods |
| `StreamLoop.dfy` | `StreamLoop` | `cmd/gokin/headless_control.go` |
| `StreamHearing.dfy` | `StreamHearing` | the same: what the connection owes to what it hears |
| `Inbox.dfy` | `Inbox` | `internal/background/store.go` |
| `BackgroundWorker.dfy` | `BackgroundWorkers` | `cmd/gokin/background.go` |
| `PlanTree.dfy` | `PlanTrees` | `internal/agent/plan_node.go` |
| `MctsSearch.dfy` | `MctsSpec`, `Mcts` | `internal/agent/plan_search.go` |
| `AStarSearch.dfy` | `AStarSpec`, `AStar` | `internal/agent/plan_search.go` |
| `AStarOutcome.dfy` | `AStarOutcomes` | the same: which goals the search can return |
| `Checkpoint.dfy` | `Checkpoint` | `internal/agent/checkpoint.go` |
| `ToolPairs.dfy` | `ToolPairs` | `internal/agent/agent.go`: tool call pairs |
| `Compaction.dfy` | `Compaction` | `internal/agent/agent.go`: compaction |
| `AgentLoop.dfy` | `AgentLoop` | `internal/agent/agent.go`: the turn loop |
| `RecoverySpec.dfy`, `Recovery.dfy` | `RecoverySpec`, `Recovery` | `internal/agent/recovery.go` |
| `RecoveryRaces.dfy` | `RecoveryRaces` | the same: calls that interleave |
| `FixCache.dfy` | `FixCaches` | `internal/agent/fix_cache.go` |
| `ToolRules.dfy` | `ToolRules` | `internal/permission/tool_grants.go`: the normal form of one rule |
| `RunPolicy.dfy` | `RunPolicies` | `cmd/gokin/run_policy.go`, the deny lists of `internal/permission/tool_grants.go`, and what `cmd/gokin/main.go` saves |
| `Wrappers.dfy` | `Wrappers` | a value that may be missing, the set of what a list holds |

Concurrent code is a state machine: each section that holds a lock, each arm of a `select` and each
step of a goroutine beside it is one atomic step, and runs are arbitrary sequences of enabled steps.
What the environment decides (agent results, answers of the runner, failures of writes, the model's
calls) is a parameter of the step. What reaches the agent, and what a connection has heard, is told by
an observer from the steps and the fields, not by the loop that is modelled.
`dafny verify dfyconfig.toml` checks the project.

## What does not hold

Places where the code does less than its documentation or its evident intent. In each the model
follows the code, and the exact condition under which the intent is met is proved.

- `astarSearch` is documented to find the optimal path (`internal/agent/plan_search.go:392`). Its
  heuristic can overestimate, and on one tree the dearer of two goals is always returned (`NotOptimal`,
  `DearerReturned`). A goal beats another when, below the fork of the ways to the two, its greatest
  estimate is the smaller one. Whatever the choice among equal estimates, the search can return exactly
  the reachable goals that have no goal above them and are beaten by none (`WhatReturns`), so it always
  returns a cheapest goal exactly when each reachable goal with none above it that is not cheapest is
  beaten by some other (`CheapestExactly`). A heuristic that never overestimates is enough
  (`AdmissibleIsOptimal`).
- A saved session cannot always be resumed with the policy it was saved with: exactly when it has more
  than 32 deny rules, since the limit of 64 is applied to the two lists together before duplicates are
  dropped (`KeptResumes`, `CannotRepeatThirtyThree`). Whatever the program has saved can be resumed
  without denies of its own (`SavedIsKept`, `KeptResumes`).
- The canonical form of a deny rule need not be a canonical form. The limit of 512 bytes is applied
  before underscores come into the name, and a capital that has no small form takes its underscore only
  the second time; otherwise it is one (`CanonicalAgain`, `Outgrows`, `CapitalUnsettles`). The form after
  that is final (`CanonicalSettles`). The program makes its rules canonical before it looks at the saved
  ones and again when it installs them, so that it never saves a rule that has not settled. To
  `effectiveSessionRunPolicy` alone it matters: a policy is accepted with itself exactly when its
  canonical list has at most 32 rules and can be given again (`ResumeWithSame`, `OverlongSticks`), and a
  saved rule that has not settled is reported as narrowing a request that denies the same
  (`EffectiveSessionRunPolicy`, `NarrowedUnsettled`).
- `ensureToolPairConsistency` looks for orphans once. When a part that it drops carried both a call and
  a response, the partner of its other half is left behind; calls and responses match afterwards, and a
  second pass changes nothing, exactly when no kept part is stranded in this way
  (`PairedUnlessStranded`, `Idempotent`, `StrandsACall`). Messages without parts and nil messages are
  dropped when there is an orphan anywhere, and kept when there is none.
- `checkAndSummarize` reads the length and the snapshot under two lock acquisitions. Messages appended
  in between are in the rebuilt history twice, and when the history was cut in between, those that come
  after are missing from it (`ResummarizedKeepsTail`); cut below three messages, a slice is out of range
  (`CheckAndSummarize`).
- `forceCompactViaSummary` counts its kept tail from the later end, so messages appended while the
  summary is made push as many others out unsummarized (`ForceResummarizedLoses`).
- The eight-step cap of `AttemptAutoFix` can end the loop before the budget is spent: for calls that come
  one after another exactly from six attempts on (`CapIsSlack`, `CapCanBind`), and whatever the maximum
  for a call whose state other calls clear meanwhile (`CapBindsRaced`). The refill of an exhausted budget
  is never taken by calls that come one after another (`NeverRefilled`). When calls on one key interleave,
  the budget is still conserved with a maximum of two or more (`NeverOverspent`); with a maximum of one,
  which quick thoroughness sets (`internal/agent/agent.go:981`), the refill is reached and two acts are
  carried out in the life of one state (`LoneBudgetOverspent`).
- The inbox is first in, first out exactly as long as no message sorts before one already there; equal
  creation times are ordered by random ID (`ArrivalOrder`, `TieOvertakes`). The worker delivers each
  message once whatever the clocks of the senders say, and in order as long as that condition held for
  every message accepted (`DeliveredOnce`, `ReturnsClean`).
- After `mctsSelect`, `mctsExpand` never finds a child to return (`Select`, `Expand`). The skips of
  closed nodes in `astarSearch` are never taken (`NeverClosed`), nor are the underflow guard of
  `pendingCallbacks` (`Delivery.NextSound`) and the report of an inbox that changed while closing
  (`OnlyRealFailures`).
- A checkpoint keeps neither depth, success probability, goal progress, visit counts and rewards nor
  prerequisites, nor a result whose output and error are both empty (`Survives`).

## Model

| member | source | states |
|---|---|---|
| `SortedEntries.InsertKeepsSorted` | `internal/agent/priority_queue.go:67-72` | Inserting an entry with a new arrival number into a list strictly sorted by priority and arrival leaves such a list. |
| `SortedEntries.HeadIsTheOnlyFirst` | `internal/agent/priority_queue.go:67-72` | The head of the sorted list is the one entry that comes before every other. |
| `SortedEntries.HeadIsBest` | `internal/agent/priority_queue.go:67-72` | The head has the highest priority, and of those with that priority it came first. |
| `SortedEntries.SortedUnique` | `internal/agent/priority_queue.go:67-72` | A strictly sorted list is determined by the multiset of its entries, so the list a heap stands for is unique. |
| `SortedEntries.WithoutRemovesOne` | `internal/agent/priority_queue.go:162-172` | Removing by ID takes exactly one entry out of a list with distinct IDs. |
| `HeapOrder.LiftedIsHeap` | `internal/agent/priority_queue.go:103-116` | Sifting up repairs a heap that is wrong only between one position and its parent. |
| `HeapOrder.SunkIsHeap` | `internal/agent/priority_queue.go:119-127` | Sifting down repairs a heap that is wrong around one position, and says when nothing moved. |
| `HeapOrder.RepairedIsHeap` | `internal/agent/priority_queue.go:142-159` | Sifting down, then up when nothing moved, restores heap order after any one entry has been replaced. |
| `HeapOrder.RepairedPermutes` | `internal/agent/priority_queue.go:142-159` | The repair neither loses nor duplicates an entry. |
| `HeapOrder.TakenIsHeap` | `internal/agent/priority_queue.go:92-100` | Moving the last entry into a hole and repairing it leaves a heap of exactly the other entries. |
| `HeapOrder.RootHeadsTheList` | `internal/agent/priority_queue.go:119-127` | The root of a heap is the head of the sorted list of its entries. |
| `TaskQueues.PushStands` | `internal/agent/priority_queue.go:103-116` | Append and sift up correspond to insertion into the sorted list. |
| `TaskQueues.PopStands` | `internal/agent/priority_queue.go:119-127` | Taking the root corresponds to dropping the head of the sorted list. |
| `TaskQueues.UpdateStands` | `internal/agent/priority_queue.go:142-159` | Changing a priority in place and repairing corresponds to removing the entry from the sorted list and inserting it anew with its old arrival number. |
| `TaskQueues.RemoveStands` | `internal/agent/priority_queue.go:162-172` | Removing at any heap position corresponds to removing that ID from the sorted list. |
| `TaskQueues.TaskQueue.Less` | `internal/agent/priority_queue.go:67-72` | Compares by priority, higher first, and then by arrival. |
| `TaskQueues.TaskQueue.Swap` | `internal/agent/priority_queue.go:75-79` | Exchanges two items and keeps each index field equal to its position. |
| `TaskQueues.TaskQueue.IndexIsList` | `internal/agent/priority_queue.go:52-59` | byID holds exactly the queued IDs, each listed once with its own entry. |
| `TaskQueues.TaskQueue.PushTask` | `internal/agent/priority_queue.go:103-116` | The queue refines the sorted list: a push inserts in order of priority and arrival; an empty or already queued ID changes nothing. |
| `TaskQueues.TaskQueue.PopTask` | `internal/agent/priority_queue.go:119-127` | A pop returns the head of the sorted list, a task of highest priority and of those the earliest pushed, and leaves the rest; nil exactly when empty. |
| `TaskQueues.TaskQueue.UpdatePriority` | `internal/agent/priority_queue.go:142-159` | Succeeds exactly when the task is queued, and moves it to its new place without changing its arrival number. |
| `TaskQueues.TaskQueue.RemoveTask` | `internal/agent/priority_queue.go:162-172` | Returns and removes the task of that ID and leaves the order of the others. |
| `TaskGraph.FailedDependency` | `internal/agent/coordinator.go:635-643` | Finds a dependency that is unknown or failed exactly when there is one. |
| `TaskGraph.Resolve` | `internal/agent/coordinator.go:692-734` | The growing worklist terminates (by the number of Blocked tasks, then by the unread worklist) and adds or drops no task. |
| `GraphInvariant.ResolveKeepsInv` | `internal/agent/coordinator.go:692-734` | From any state where every decided task is still on the worklist, the loop ends in a state that satisfies the full invariant: queue exactly the Ready tasks, running a bijection with the Running ones, records exactly the terminal ones, dependencies of started tasks completed, nothing decided left Blocked. |
| `GraphInvariant.FinishKeepsInv` | `internal/agent/coordinator.go:751-799` | A task reaching a terminal state, with its dependents resolved, keeps the invariant. |
| `GraphInvariant.AddTaskKeepsInv` | `internal/agent/coordinator.go:115-175` | Adding a task keeps the invariant, whichever of failed, ready and blocked it starts as. |
| `GraphInvariant.StartOneKeepsInv` | `internal/agent/coordinator.go:418-456` | Starting one queued task keeps the invariant, whether the runner accepts it or not. |
| `GraphInvariant.StartReadyKeepsInv` | `internal/agent/coordinator.go:418-456` | A whole round of starts keeps the invariant, start failures and their cascades included. |
| `GraphInvariant.AgentDoneKeepsInv` | `internal/agent/coordinator.go:751-799` | An agent result keeps the invariant; a result of an unknown agent changes nothing that matters. |
| `GraphInvariant.WithdrawKeepsInv` | `internal/agent/coordinator.go:1146-1224` | Cancelling a queued or blocked task keeps the invariant. |
| `GraphTheorems.NoDeadlock` | `internal/agent/coordinator.go:820-832` | With nothing queued and nothing running, every task is terminal. |
| `GraphTheorems.ResolveSettles` | `internal/agent/coordinator.go:692-734` | Followed through reverse edges, the worklist does exactly what the recursive definition over forward edges says: doomed tasks fail, tasks with all dependencies completed become ready, all others stay as they were. |
| `GraphTheorems.FailureCascade` | `internal/agent/coordinator.go:692-734` | A failed or cancelled task fails exactly its not yet failed transitive dependents; nothing else changes and nothing becomes ready. |
| `GraphTheorems.SuccessUnlocks` | `internal/agent/coordinator.go:692-734` | A successful task readies exactly the Blocked tasks that waited for it alone. |
| `CoordinatorRuns.StepKeepsInv` | `internal/agent/coordinator.go:115-226` | Every lock-held section keeps the invariant. |
| `CoordinatorRuns.RunKeepsInv` | `internal/agent/coordinator.go:115-226` | So does every interleaving of them. |
| `CoordinatorRuns.RunEvolves` | `internal/agent/coordinator.go:526-601` | Over any run terminal states are absorbing, statuses only advance, histories only grow, and a sealed graph gains no task. |
| `CoordinatorRuns.CompleteRun` | `internal/agent/coordinator.go:692-734` | With outcomes fixed and no cancellation, a complete run ends with a task Completed exactly when its own agent succeeds and all its dependencies exist and complete. |
| `CoordinatorRuns.ScheduleDoesNotMatter` | `internal/agent/coordinator.go:418-456` | Two complete runs over the same tasks with the same outcomes end with the same statuses, whatever the interleaving, priorities, concurrency limits and order of additions. |
| `CoordinatorRuns.LimitKept` | `internal/agent/coordinator.go:418-456` | A round of starts never takes the number of running agents past the limit, except for those already running when it was lowered. |
| `CoordinatorEffects.RoundFills` | `internal/agent/coordinator.go:418-456` | A scheduling round takes queued tasks from the front, in order, each started under the agent answered or failed for want of one, until none is queued or every slot is in use, and no longer. |
| `CoordinatorEffects.DoneEffect` | `internal/agent/coordinator.go:751-799` | The result of an agent ends its own task with just that verdict, fails or readies just the tasks that depend on it, and touches no other agent; the result of an unknown agent changes nothing. |
| `CoordinatorEffects.CancelEffect` | `internal/agent/coordinator.go:1146-1224` | A waiting task that is cancelled ends as cancelled with its dependents, leaves the queue and touches no agent; any other task is left alone. |
| `CoordinatorEffects.AddEffect` | `internal/agent/coordinator.go:115-175` | Before Start a new task has the dependencies and priority given and is failed, ready or blocked as its dependencies say, and no other task changes; after Start nothing is added. |
| `CoordinatorEffects.ReasonsTrue` | `internal/agent/coordinator.go:648-684` | Over any run the dependency that a failed task names is its own, never existed, was cancelled or failed just as said, and its completion was recorded before. |
| `CoordinatorEffects.FirstFailed` | `internal/agent/coordinator.go:635-643` | The dependency named is the first that can no longer be satisfied. |
| `CoordinatorRuns.Progress` | `internal/agent/coordinator.go:240-287` | A sealed unfinished graph can always move: an agent result or, with none running, a scheduling round strictly lowers a potential. |
| `CoordinatorRuns.MoveLowers` | `internal/agent/coordinator.go:240-287` | In a sealed graph every section lowers the potential by at least one if it moves a task, and raises it never. |
| `CoordinatorRuns.MovesBounded` | `internal/agent/coordinator.go:240-287` | So over any run of a sealed graph the sections that move a task are at most the initial potential. |
| `CoordinatorRuns.StuckIsDone` | `internal/agent/coordinator.go:820-832` | Every task is terminal exactly when no agent runs and the scheduler has nothing to move. |
| `Delivery.FinishedStays` | `internal/agent/coordinator.go:820-832` | Once every task of a sealed graph has ended, no section changes that or records a completion. |
| `Delivery.FinishingIsRecorded` | `internal/agent/coordinator.go:526-601` | A sealed graph can only become finished in a section that records a completion, so somebody will look again. |
| `Delivery.NextSound` | `internal/agent/coordinator.go:355-383` | Every step keeps pendingCallbacks equal to what outstanding batches owe and every record in one place; the underflow guard never fires. |
| `Delivery.PlaySound` | `internal/agent/coordinator.go:355-383` | So does every run. |
| `Delivery.ExactlyOnce` | `internal/agent/coordinator.go:355-383` | Over any run each callback is called at most once and only for an ended task, and once for every ended task when no batch is outstanding. |
| `Delivery.ToldOnce` | `internal/agent/coordinator.go:837-881` | Wait is released only when the sealed graph has ended, and stays so; the observer of the whole run is told at most once, after every task callback has returned, and no record is made after that. |
| `Delivery.NotLost` | `internal/agent/coordinator.go:849-881` | When all is done and a batch has drained after Start, the observer has been told or a caller of notifyAllComplete is on its way, and that call tells. |
| `Delivery.DrainDue` | `internal/agent/coordinator.go:355-383` | A drained batch is due to call notifyAllComplete exactly when it was the last one and the sealed graph has ended. |
| `Delivery.Released` | `internal/agent/coordinator.go:837-845` | Whoever waits for a run that was not finished when it started is released once the graph has ended and every batch has been published. |
| `Coordinators.Coordinator.constructor` | `internal/agent/coordinator.go:70-98` | A new coordinator satisfies the invariant; a limit that is not positive becomes 3. |
| `Coordinators.Coordinator.AreDependenciesMet` | `internal/agent/coordinator.go:180-188` | True exactly when every dependency exists and is completed. |
| `Coordinators.Coordinator.FailedDependencyOf` | `internal/agent/coordinator.go:635-643` | The first dependency that can no longer be satisfied, if any. |
| `Coordinators.Coordinator.FailForDependency` | `internal/agent/coordinator.go:648-684` | Fails the task with the reason missing, cancelled or failed, and records it. |
| `Coordinators.Coordinator.ResolveDependents` | `internal/agent/coordinator.go:692-734` | The loop over the growing slice does what the graph function says and returns the records it made. |
| `Coordinators.Coordinator.StartTask` | `internal/agent/coordinator.go:461-523` | Leaves the task Running with its agent, or failed with its dependents resolved when the runner answers nothing. |
| `Coordinators.Coordinator.StartReadyTasks` | `internal/agent/coordinator.go:418-456` | Pops and starts in queue order while slots and queue last; afterwards the queue is empty or every slot is in use. pendingCallbacks grows by the failures reported. |
| `Coordinators.Coordinator.HandleAgentCompletion` | `internal/agent/coordinator.go:751-799` | Ends the task of an agent whose result is out; without a result or for an unknown agent nothing changes. |
| `Coordinators.Coordinator.CheckCompletedAgents` | `internal/agent/coordinator.go:526-601` | Handles exactly the running agents whose result is out, as one section. |
| `Coordinators.Coordinator.CancelTask` | `internal/agent/coordinator.go:1146-1224` | Unknown and finished tasks are refused; a running one is asked to stop unless its result is already out, which is then taken; any other is withdrawn with its dependents. |
| `Coordinators.Coordinator.AddTask` | `internal/agent/coordinator.go:115-175` | Refused exactly after Start; otherwise failed at once, ready at once or blocked as its dependencies say. |
| `Coordinators.Coordinator.Start` | `internal/agent/coordinator.go:191-207` | Seals the graph and changes nothing else. |
| `Coordinators.Coordinator.SetMaxParallel` | `internal/agent/coordinator.go:213-226` | A limit that is not positive is ignored. |
| `Coordinators.Coordinator.AllTasksTerminal` | `internal/agent/coordinator.go:820-832` | True exactly when no agent runs and every task is terminal. |
| `Coordinators.Coordinator.PublishCompletion` | `internal/agent/coordinator.go:837-845` | The publish step of the delivery protocol. |
| `Coordinators.Coordinator.FinishBatch` | `internal/agent/coordinator.go:355-383` | The drain step of the delivery protocol; tells whether notifyAllComplete is due. |
| `Coordinators.Coordinator.NotifyAllComplete` | `internal/agent/coordinator.go:849-881` | The notify step of the delivery protocol; true exactly for the one call that tells the observer. |
| `Coordinators.SectionShows` | `internal/agent/coordinator.go:526-601` | A section that counts the records it returns is a step of the delivery protocol. |
| `StreamLoop.AdmitControls` | `cmd/gokin/headless_control.go:258-291` | Every in-flight request is in exactly one of results, worker and channel, so an admitted one finds room: the send never blocks. |
| `StreamLoop.NextSound` | `cmd/gokin/headless_control.go:199-313` | Every step keeps the invariant: cached byte counts equal the sums they cache and stay within limits, requests are replied to or in flight once, turns run one at a time in order. |
| `StreamLoop.PlaySound` | `cmd/gokin/headless_control.go:199-313` | So does every schedule. |
| `StreamLoop.RepliedOnce` | `cmd/gokin/headless_control.go:227-233` | Unless a reply cannot be written, each well-formed control request has been replied to once under its own ID or is in flight once; when the loop ends for want of input all have been replied to and every accepted prompt has run. |
| `StreamLoop.TurnsInOrder` | `cmd/gokin/headless_control.go:199-216` | A turn starts only with no other turn and no control pending, in the order prompts were accepted; however the loop ends, every started turn has ended and written its result before any failure envelope. |
| `StreamHearing.NextFollows` | `cmd/gokin/headless_control.go:199-313` | Every step leaves the connection as what it has heard says, told from the schedule: requests, admissions, prompts, cancellations, interrupts, the error of the turn and the outcome owed. |
| `StreamHearing.AlwaysFollows` | `cmd/gokin/headless_control.go:199-313` | So does every schedule. |
| `StreamHearing.InterruptIsLocal` | `cmd/gokin/headless_control.go:234-239` | The error of a turn ends the connection exactly when no interrupt came while that very turn ran. |
| `StreamHearing.InterruptCancels` | `cmd/gokin/headless_control.go:270-280` | An interrupt while a turn runs cancels it, is answered at once and leaves the turn to end. |
| `StreamHearing.RequestGoes` | `cmd/gokin/headless_control.go:281-291` | Any other request goes to the worker while there is room for it, and is answered at once when there is none. |
| `StreamHearing.EndsAsItOwes` | `cmd/gokin/headless_control.go:188-239` | The connection ends by cancellation, by a reply that cannot be written or by the error of a turn not interrupted, exactly when that happens first; else when all is drained, with an error exactly if a record was rejected or none came. |
| `StreamHearing.HeardIsServed` | `cmd/gokin/headless_control.go:199-313` | Every proper request heard has its one reply or is in flight once, the prompts heard have started or wait in their order, and the pending requests marked are those that were to be cancelled. |
| `StreamLoop.Drains` | `cmd/gokin/headless_control.go:208-216` | After the input has ended every step ends the loop or lowers a measure over queue, pending requests and the active turn. |
| `StreamLoop.DrainMoves` | `cmd/gokin/headless_control.go:159-178` | Until the end some step of the loop, the worker or the turn is possible. |
| `StreamLoop.Connection.StartOrLeave` | `cmd/gokin/headless_control.go:199-216` | The top of the loop. |
| `StreamLoop.Connection.HandleResult` | `cmd/gokin/headless_control.go:227-233` | Retires a request and writes its reply, or returns when the reply cannot be written. |
| `StreamLoop.Connection.HandleTurnDone` | `cmd/gokin/headless_control.go:234-239` | Ends the turn; returns its error unless it was interrupted. |
| `StreamLoop.Connection.HandleControl` | `cmd/gokin/headless_control.go:258-291` | Refuses a malformed or duplicate ID, answers an interrupt or an overflow at once, and admits the rest. |
| `StreamLoop.Connection.HandleUser` | `cmd/gokin/headless_control.go:298-310` | Queues a prompt within 64 records and 16 MiB, and stops reading otherwise. |
| `StreamLoop.Connection.HandleFrame` | `cmd/gokin/headless_control.go:240-313` | Dispatches a frame by type. |
| `StreamLoop.Connection.Leave` | `cmd/gokin/headless_control.go:188-198` | Returning cancels and joins a running turn. |
| `StreamLoop.Connection.Serve` | `cmd/gokin/headless_control.go:199-313` | The loop with its mutable fields refines the state machine under any schedule. |
| `Inbox.ArrivalOrder` | `internal/background/store.go:528-533` | A new message goes to the end of the inbox exactly when it does not sort before one already there. |
| `Inbox.InsertedSomewhere` | `internal/background/store.go:528-533` | A new message comes in at one place and leaves the others in their order. |
| `Inbox.ClaimTakesOldest` | `internal/background/store.go:397-434` | With no claim open a claim takes the oldest pending message, and answers empty exactly when there is none. |
| `Inbox.CompleteCommits` | `internal/background/store.go:469-498` | The one open claim can be completed, which leaves the pending messages as they were. |
| `Inbox.NothingOpen` | `internal/background/store.go:440-467` | Admission can close exactly when nothing is pending or claimed. |
| `Inbox.OldestFirst` | `internal/background/store.go:397-434` | The inbox stays in order of creation, and the message claimed is one of the oldest not yet delivered. |
| `Inbox.EnqueueAdmits` | `internal/background/store.go:345-392` | A message is accepted exactly when it has 1 to 65536 characters, the job starts or runs and fewer than twenty messages are pending or claimed; then it alone is added. |
| `Inbox.InboxBounded` | `internal/background/store.go:345-392` | So no more than twenty are ever open. |
| `Inbox.ClosesWhenDone` | `internal/background/store.go:440-467` | Admission closes exactly when the job runs and nothing is pending or claimed, and is refused exactly when it does not run. |
| `Inbox.TieOvertakes` | `internal/background/store.go:528-533` | Two messages of one clock instant are ordered by ID, so the later may be claimed first. |
| `Inbox.JobStore.EnqueueControl` | `internal/background/store.go:345-392` | Accepts a bounded message while the job starts or runs and fewer than 20 are open. |
| `Inbox.JobStore.ClaimNextControl` | `internal/background/store.go:397-434` | Claims the first open record, or refuses when that one is already claimed. |
| `Inbox.JobStore.CloseAdmission` | `internal/background/store.go:440-467` | Moves a running job with an empty inbox to finishing, and nothing else. |
| `Inbox.JobStore.CompleteControl` | `internal/background/store.go:469-498` | Commits a claimed record, removed or left as delivered. |
| `BackgroundWorkers.NextSound` | `cmd/gokin/background.go:147-271` | Every step keeps at most one claim outstanding, the one claimed record of the store, whatever the clock says. |
| `BackgroundWorkers.DeliveredOnce` | `cmd/gokin/background.go:147-271` | Over any run, as an observer of the steps sees it, each accepted message reaches the agent exactly once, is held or is pending: steered into the turn it was claimed in or the prompt of the very next turn, never two in one turn; in arrival order as long as no message was accepted ahead of one present. |
| `BackgroundWorkers.ReturnsClean` | `cmd/gokin/background.go:246-271` | No return leaves a turn running; a return without error means that no turn failed, admission is closed, nothing is pending or claimed and every accepted message reached the agent once, in arrival order under the same condition. |
| `BackgroundWorkers.TextsArrive` | `cmd/gokin/background.go:148-200` | Every message reaches the agent with the text that was sent. |
| `BackgroundWorkers.TickClaims` | `cmd/gokin/background.go:176-200` | While a turn runs a tick claims the oldest pending message exactly when nothing is outstanding and there is one; what the turn takes is steered, what it refuses is kept for the next. |
| `BackgroundWorkers.WhatFollows` | `cmd/gokin/background.go:212-271` | After a turn the claims are committed and the loop fails if the turn did, goes on with the message deferred or else the oldest pending, or closes the job when there is none. |
| `BackgroundWorkers.FailureIsLast` | `cmd/gokin/background.go:232-234` | A turn that fails is the last one, and the loop can only return an error. |
| `BackgroundWorkers.OnlyRealFailures` | `cmd/gokin/background.go:176-271` | With a reachable store the loop fails only for a failed turn or a job that no longer runs: no claim is ambiguous, and the report of an inbox changed while closing is unreachable. |
| `BackgroundWorkers.HeadlessLoop.PollInbox` | `cmd/gokin/background.go:176-200` | A tick claims only when nothing is outstanding, and steers or defers what it claimed. |
| `BackgroundWorkers.HeadlessLoop.StartTurn` | `cmd/gokin/background.go:148-161` | The claimed message becomes the prompt of this turn. |
| `BackgroundWorkers.HeadlessLoop.AfterTurn` | `cmd/gokin/background.go:212-242` | Commits prompt and steer, then fails, continues with the deferred message or drains. |
| `BackgroundWorkers.HeadlessLoop.ClaimForNextTurn` | `cmd/gokin/background.go:246-254` | The post-turn claim. |
| `BackgroundWorkers.HeadlessLoop.CloseInbox` | `cmd/gokin/background.go:255-261` | Closes admission or goes back to claim what overtook it. |
| `BackgroundWorkers.HeadlessLoop.Serve` | `cmd/gokin/background.go:130-272` | The loop refines the state machine under any schedule. |
| `PlanTrees.GrownWellFormed` | `internal/agent/plan_node.go:174-212` | A new last child with a fresh ID keeps the tree well formed. |
| `PlanTrees.PathIsChain` | `internal/agent/plan_node.go:381-394` | The parent links of any node lead through children to the root. |
| `PlanTrees.OnlyOneToward` | `internal/agent/plan_node.go:381-394` | Below a proper ancestor exactly one child leads to a node. |
| `PlanTrees.BelowAll` | `internal/agent/plan_node.go:224-241` | The subtree of a node is the node and the subtrees of its children. |
| `PlanTrees.PlanTree.constructor` | `internal/agent/plan_node.go:124-151` | A new tree holds its root alone: started, at depth 0, without action, visits or reward. |
| `PlanTrees.PlanTree.Assembled` | `internal/agent/checkpoint.go:233-294` | A valid tree from an index of linked nodes. |
| `PlanTrees.PlanTree.AddNode` | `internal/agent/plan_node.go:174-212` | Adds a fresh last child under a known parent and updates the counters; an unknown parent changes nothing. |
| `PlanTrees.PlanTree.PruneSubtree` | `internal/agent/plan_node.go:224-241` | Marks exactly the node and its descendants as pruned. |
| `PlanTrees.PlanTree.ReconstructPath` | `internal/agent/plan_node.go:381-394` | Returns the chain from the root to the node; empty for an unknown ID. |
| `MctsSpec.SumBumped` | `internal/agent/plan_search.go:340-355` | A backpropagation adds one to the visits of at most one child of a node, and one exactly when the simulated node lies below a child. |
| `MctsSpec.BumpedKeeps` | `internal/agent/plan_search.go:340-355` | Backpropagation keeps child visits together at most the parent's and rewards between 0 and visits; the root gains one visit. |
| `MctsSpec.OwnVisits` | `internal/agent/plan_search.go:340-355` | The visits a node has beyond those of its children grow by one at the simulated node and nowhere else. |
| `MctsSpec.GrownConserved` | `internal/agent/plan_node.go:174-212` | Adding a node keeps the counts conserved. |
| `MctsSpec.PlantedConserved` | `internal/agent/plan_node.go:124-151` | A new tree has its counts conserved. |
| `MctsSpec.VisitedParent` | `internal/agent/plan_search.go:210-219` | A visited child has a visited parent, so the logarithm is never taken of zero. |
| `MctsSpec.PickedIsBest` | `internal/agent/plan_search.go:186-201` | Of the child that selection picks: no live sibling is unvisited unless it is too, and none has a higher sum of mean reward and exploration. |
| `MctsSpec.BumpedNodes` | `internal/agent/plan_search.go:340-355` | The nodes on the way to the root count the visit and its reward, and no others. |
| `Mcts.Planner.Ucb1Score` | `internal/agent/plan_search.go:210-219` | Infinite for an unvisited child, otherwise mean reward plus exploration at positive counts. |
| `Mcts.Planner.BestChild` | `internal/agent/plan_search.go:186-201` | The first live child of greatest score; nil exactly when no child is live. |
| `Mcts.Planner.Select` | `internal/agent/plan_search.go:179-206` | Descends by best children to a terminal node or one without live children. |
| `Mcts.Planner.Expand` | `internal/agent/plan_search.go:222-241` | The first live unvisited child of a node that is not terminal, else the node; after a selection always the node. |
| `Mcts.Planner.Backpropagate` | `internal/agent/plan_search.go:340-355` | Visits exactly the ancestors of the simulated node, and terminates at the root. |
| `Mcts.Planner.Iterate` | `internal/agent/plan_search.go:363-386` | One iteration adds one visit along the path to the node that selection reached. |
| `Mcts.Planner.RunMCTS` | `internal/agent/plan_search.go:358-390` | Over all iterations the counts stay conserved, nothing but counts and rewards changes, and the root gains one visit and the clamped reward of each; the result follows visit counts. |
| `Mcts.Planner.SelectBestPath` | `internal/agent/plan_search.go:140-176` | From the root, always the first of the most visited live children, down to a node without live children. |
| `AStarSpec.SomeOpen` | `internal/agent/plan_search.go:437-460` | On the way to any reachable node that is not closed there is an open one. |
| `AStarSpec.NoGoal` | `internal/agent/plan_search.go:462-465` | With the open set empty no goal can be reached. |
| `AStarSpec.LeastIsBelow` | `internal/agent/plan_search.go:419-422` | An open node of least estimate is within the bottleneck of every reachable goal. |
| `AStarSpec.NeverClosed` | `internal/agent/plan_search.go:426-440` | No popped node and none of its children has been closed before, so both skips are never taken and each node is opened at most once. |
| `AStarSpec.Expands` | `internal/agent/plan_search.go:426-460` | Closing a least open node that is no goal and opening its live children keeps the search invariant. |
| `AStarSpec.FirstGoal` | `internal/agent/plan_search.go:432-435` | The first goal popped is reachable without pruned nodes and has the least bottleneck estimate of all reachable goals. |
| `AStarSpec.AdmissibleIsOptimal` | `internal/agent/plan_search.go:393-476` | A condition that is enough for a least-cost result: a heuristic that never overestimates. |
| `AStarSpec.NotOptimal` | `internal/agent/plan_search.go:479-499` | The heuristic can overestimate: on one tree only the dearer of two goals has least bottleneck. |
| `AStarOutcomes.ReturnedIsReturnable` | `internal/agent/plan_search.go:426-460` | Whatever course the search takes, the goal it returns has no goal above it and is beaten by none, where a goal is beaten when another has the smaller greatest estimate below the fork of their ways. |
| `AStarOutcomes.ReturnableIsReturned` | `internal/agent/plan_search.go:426-460` | Every such goal is returned on some course of the search. |
| `AStarOutcomes.WhatReturns` | `internal/agent/plan_search.go:393-476` | So the goals the search can return are exactly those. |
| `AStarOutcomes.CheapestExactly` | `internal/agent/plan_search.go:391-393` | The search always returns a cheapest goal exactly when each reachable goal with none above it that is not cheapest is beaten by some other. |
| `AStarOutcomes.DearerReturned` | `internal/agent/plan_search.go:479-499` | On that tree the dearer goal is what the search returns on every course. |
| `AStarSpec.FallbackIsLeaf` | `internal/agent/plan_search.go:110-112` | With scores in [0, 1], the fallback returns the root alone only when no leaf can be reached. |
| `AStar.Planner.NodeHeuristic` | `internal/agent/plan_search.go:479-499` | The estimate, never negative. |
| `AStar.Planner.IsGoalNode` | `internal/agent/plan_search.go:502-523` | The goal test. |
| `AStar.Planner.Search` | `internal/agent/plan_search.go:393-476` | Terminates with the chain to a goal that the search can return, one of least bottleneck, when a goal is reachable, and otherwise with the best-leaf path. |
| `AStar.Planner.HighestScoringPath` | `internal/agent/plan_search.go:85-137` | The chain to a reachable leaf of greatest total score. |
| `AStar.Planner.FindBest` | `internal/agent/plan_search.go:90-106` | The recursive closure keeps the best leaf over everything below the node. |
| `Checkpoint.Survives` | `internal/agent/checkpoint.go:198-230` | The exact condition under which a node comes back as it was. |
| `Checkpoint.SavedAgain` | `internal/agent/checkpoint.go:175-294` | Serializing a restored tree gives the same table, and restoring again changes nothing. |
| `Checkpoint.Checkpointer.SerializeNode` | `internal/agent/checkpoint.go:198-230` | Adds exactly the rows of the subtree. |
| `Checkpoint.Checkpointer.Serialize` | `internal/agent/checkpoint.go:175-195` | The table has one row for each node of the tree, with the path as IDs. |
| `Checkpoint.Restorer.Deserialize` | `internal/agent/checkpoint.go:233-294` | nil exactly for an empty root ID; otherwise each row is rebuilt and every listed child that has a row is linked both ways, in order. |
| `Checkpoint.Restorer.RoundTripAt` | `internal/agent/checkpoint.go:233-294` | Restoring the table of a well-formed tree gives every node its parent, children in order, status, score, saved action fields and result back. |
| `Checkpoint.Restorer.RoundTrip` | `internal/agent/checkpoint.go:175-294` | Serialize and then deserialize restores root, nodes, links, best path and count, as a valid tree; the other fields are reset. |
| `Checkpoint.Restorer.SaveTwice` | `internal/agent/checkpoint.go:175-294` | The checkpoint of a restored tree is the checkpoint it was restored from. |
| `ToolPairs.KeepsTheRest` | `internal/agent/agent.go:4862-4948` | The parts that remain are exactly the non-nil parts without an orphaned call or response, in order. |
| `ToolPairs.MessagesInOrder` | `internal/agent/agent.go:4906-4947` | The messages that remain are exactly those with a part to keep, in order and under their own roles. |
| `ToolPairs.PairedUnlessStranded` | `internal/agent/agent.go:4862-4948` | Afterwards calls and responses match exactly when no kept part has lost all its partners to orphans on their other side. |
| `ToolPairs.OneIdEach` | `internal/agent/agent.go:4862-4948` | In particular whenever no part carries both a call and a response. |
| `ToolPairs.PairedHasNoOrphans` | `internal/agent/agent.go:4883-4904` | The quick check finds no orphan exactly when calls and responses match. |
| `ToolPairs.Idempotent` | `internal/agent/agent.go:4862-4948` | A second pass changes nothing exactly when the first left calls and responses matched. |
| `ToolPairs.StrandsACall` | `internal/agent/agent.go:4862-4948` | A part that answers one call and makes an unanswered one strands the first call. |
| `Compaction.CollectIds` | `internal/agent/agent.go:4864-4881` | Collects exactly the non-empty call and response IDs. |
| `Compaction.CountOrphans` | `internal/agent/agent.go:4883-4900` | Counts the orphaned calls and responses. |
| `Compaction.EnsureToolPairConsistency` | `internal/agent/agent.go:4862-4948` | The three passes compute the cleaned history. |
| `Compaction.ResummarizedKeepsTail` | `internal/agent/agent.go:4616-4622` | The rebuilt history is the first three messages, the summary and everything from the protected tail on, each once, exactly when the length noted is that of the snapshot; otherwise the messages in between come twice or not at all. |
| `Compaction.CheckAndSummarize` | `internal/agent/agent.go:4575-4640` | Short snapshots and a shrunken history are left alone; otherwise the rebuilt history is cleaned, or a slice is out of range, never as long as messages are only appended. |
| `Compaction.ProtectedIsMost` | `internal/agent/agent.go:4587-4590` | As many recent messages are protected as are configured, as long as at least one besides the first three is left to be summarized. |
| `Compaction.ForceResummarizedLoses` | `internal/agent/agent.go:4701-4747` | As many messages as were appended during the summary are neither summarized nor kept; none is lost exactly when none was appended. |
| `Compaction.ForceCompactViaSummary` | `internal/agent/agent.go:4701-4747` | Guards and rebuild of the forced summary. |
| `Compaction.SelectTop` | `internal/agent/agent.go:4791-4799` | After the partial selection sort the first four outscore the rest, and scores stay with their messages. |
| `Compaction.SortTop` | `internal/agent/agent.go:4801-4808` | The four are put back into message order without changing which they are. |
| `Compaction.LeadersAreTop` | `internal/agent/agent.go:4791-4808` | So no dropped middle message scores higher than a kept one. |
| `Compaction.Truncate` | `internal/agent/agent.go:4750-4833` | Keeps head, notice, four middle messages in order of which no dropped one scores higher, and tail, cleaned; short histories are left alone. |
| `Compaction.PickedAt` | `internal/agent/agent.go:4818-4822` | The four kept places that are not nil are there, each behind those before it, and nothing else. |
| `RecoverySpec.NextFixBalanced` | `internal/agent/recovery.go:426-458` | A fix that is handed out has not run before and costs one attempt; else nothing is spent and the chain gives way to the alternative. |
| `RecoverySpec.TurnBalanced` | `internal/agent/recovery.go:93-143` | Every turn keeps remaining budget, fixes tried and alternative used adding up to the maximum, never returns to classification and comes closer to the end. |
| `RecoverySpec.LoopEnds` | `internal/agent/recovery.go:92-145` | The loop keeps that balance and ends by itself within budget plus three turns. |
| `RecoverySpec.LoopAccounted` | `internal/agent/recovery.go:92-145` | Within one call no act comes twice and each costs one of the budget. |
| `RecoverySpec.CapIsSlack` | `internal/agent/recovery.go:92-145` | With at most five attempts the eight-step cap never ends the loop of a call that runs alone. |
| `RecoverySpec.LoopTruthful` | `internal/agent/recovery.go:92-145` | A call answers that it recovered exactly when its last act succeeded, that it is reported exactly when that was handled and did not succeed; no act follows one that succeeded or was handled; and it gives up only with the alternative used or nothing left to spend. |
| `RecoverySpec.LoopIsPlanned` | `internal/agent/recovery.go:92-145` | With turns enough, a call carries out and answers just what a plain account says: each fix still to be tried, in order, while the budget lasts and none succeeds or is handled, then the alternative, then giving up. |
| `RecoverySpec.ErrorsCounted` | `internal/agent/recovery.go:223-244` | The count kept of repeated errors is that of the last fingerprint in a row, those without one left aside. |
| `RecoverySpec.CapCanBind` | `internal/agent/recovery.go:92-145` | With six or more it can. |
| `Recovery.NeverRefilled` | `internal/agent/recovery.go:267-269` | The refill of an exhausted budget is never taken. |
| `Recovery.LifeAccounted` | `internal/agent/recovery.go:67-145` | Over all calls that find one state no fix runs twice, the alternative runs at most once and each act has cost one of the budget. |
| `Recovery.AtMostMaxActs` | `internal/agent/recovery.go:67-145` | So a state sees at most the maximum of acts in its whole life, all different. |
| `Recovery.TooOften` | `internal/agent/recovery.go:86-88` | With too many attempts, or the same error for the third time in a row, no fix is tried any more; otherwise the state is entered as it is. |
| `Recovery.RecoveryExecutor.EnsureState` | `internal/agent/recovery.go:246-272` | Returns the state of that key and category, new when there was none or of another category. |
| `Recovery.RecoveryExecutor.UpdateErrorRepeat` | `internal/agent/recovery.go:223-244` | Counts consecutive equal fingerprints. |
| `Recovery.RecoveryExecutor.NextFixAction` | `internal/agent/recovery.go:426-458` | The scan refines the recursive choice of the next fix. |
| `Recovery.RecoveryExecutor.Chain` | `internal/agent/recovery.go:373-424` | The offered fixes without blank or repeated keys, and without argument retries once the error repeats. |
| `Recovery.RecoveryExecutor.Step` | `internal/agent/recovery.go:93-143` | One turn of the machine on the stored state; recovery clears it. |
| `Recovery.RecoveryExecutor.AttemptAutoFix` | `internal/agent/recovery.go:67-145` | Enters at the alternative for too many attempts or repeats, then loops; returns the acts carried out, answers what the last of them came to, clears the state exactly on recovery and leaves every other state alone. |
| `RecoveryRaces.NeverOverspent` | `internal/agent/recovery.go:67-145` | With a maximum of two or more, calls on one key may interleave between any two helpers: no act is carried out twice in the life of a state, and never more of them than the maximum. |
| `RecoveryRaces.LoneBudgetOverspent` | `internal/agent/recovery.go:246-272` | With a maximum of one, three interleaved calls reach the refill of the budget and carry out two acts in the life of one state. |
| `RecoveryRaces.CapBindsRaced` | `internal/agent/recovery.go:92-145` | Whatever the maximum, a call whose state other calls clear can be ended by the cap with nothing tried and the whole budget left. |
| `AgentLoop.TurnBudget` | `internal/agent/agent.go:3230-3238` | Turns never exceed the absolute limit, the agent's limit plus three, or the definition's own, whatever recoveries ask for. |
| `AgentLoop.ToolsGuarded` | `internal/agent/agent.go:3700-3746` | The counters read off the history of tool turns, and a third or later repetition is skipped. |
| `AgentLoop.RunGuarded` | `internal/agent/agent.go:3700-3746` | Over a whole run no plan is executed in three consecutive tool turns. |
| `AgentLoop.FifthStalls` | `internal/agent/agent.go:3713-3746` | A fifth consecutive repetition always ends the run. |
| `AgentLoop.ToolTurnIs` | `internal/agent/agent.go:3700-4034` | A tool turn is executed exactly when its plan does not repeat the two before it and no unanswered detector trips; it ends the run exactly at a repetition after two recoveries, or at a third execution without progress after two. |
| `AgentLoop.RecoveriesCount` | `internal/agent/agent.go:3713-3746` | Recoveries are counted where they happen, and turns without progress only where calls are executed. |
| `AgentLoop.TurnsGranted` | `internal/agent/agent.go:3729-3732` | Every recovery is granted one more turn, up to three times and a hundred turns. |
| `AgentLoop.WarningLasts` | `internal/agent/agent.go:3853-3868` | A detector that trips warns the agent, and the warning lasts for three executed tool turns. |
| `AgentLoop.CutTurnIs` | `internal/agent/agent.go:3900-3990` | A tool turn that is cut off is one that would be executed, and counts as executed exactly when it has been. |
| `AgentLoop.CompactionClears` | `internal/agent/agent.go:1927-1936` | A compaction clears the warning. |
| `AgentLoop.EndsHonestly` | `internal/agent/agent.go:4132-4147` | The loop reports exhaustion exactly when a limit was reached, and otherwise just what its last turn was: a finishing one, a stall or an abort. |
| `AgentLoop.ToolBranch` | `internal/agent/agent.go:3700-4034` | The tool branch statement by statement: plan guard, loop intervention and cooldown, execution, watchdog, and where the run may be cut off. |
| `AgentLoop.ExecuteLoop` | `internal/agent/agent.go:3230-4147` | The for loop meets the turn budget, the plan guard and the honest ending together, whatever the agent has been through, whenever the history is compacted and wherever a tool turn is cut off. |
| `FixCaches.JaccardIsSimilarity` | `internal/agent/fix_cache.go:368-404` | The similarity is symmetric, within [0, 1] and 1 exactly for equal token sets. |
| `FixCaches.JaccardSimilarity` | `internal/agent/fix_cache.go:368-404` | The loops compute the size of the intersection over that of the union of the token sets. |
| `FixCaches.KeyTells` | `internal/agent/fix_cache.go:19-21` | The key tells signatures of different category or tool apart, wherever neither has a colon in it. |
| `FixCaches.FixCache.Lookup` | `internal/agent/fix_cache.go:92-117` | Returns a fix of the same category that is at least half alike, of greatest similarity, and none only when there is no such. |
| `FixCaches.FixCache.RecordError` | `internal/agent/fix_cache.go:120-161` | Charges one matching fix, if any, and appends a pending error with an empty buffer, the oldest of ten making room. |
| `FixCaches.FixCache.RecordSuccess` | `internal/agent/fix_cache.go:165-191` | Every pending buffer is exactly the successes since its error; those with a full window are the oldest, graduate in order and leave; the others stay. |
| `FixCaches.FixCache.Graduate` | `internal/agent/fix_cache.go:249-271` | Updates the calls of a known fix and keeps its counts, or adds a new one without counts, evicting a least used one when 50 are held; the others stay. |
| `FixCaches.FixCache.EvictLeastUsed` | `internal/agent/fix_cache.go:275-290` | Removes one record of least hits plus successes. |
| `FixCaches.FixCache.RemoveAll` | `internal/agent/fix_cache.go:186-190` | Deleting the graduated positions from the last to the first removes exactly the graduates. |
| `RunPolicies.UnitedDenies` | `cmd/gokin/run_policy.go:61-64` | The united denies are the union of the canonical texts of both lists, accepted exactly when the two lengths together are at most 64, the union is at most 8192 bytes and no rule is refused; for any lists and any normal form. |
| `RunPolicies.CanonicalizeIs` | `internal/permission/tool_grants.go:102-125` | A canonical list is exactly the canonical texts of the rules that are not blank, each once, in the order of their first coming, within the limits and with no rule refused. |
| `RunPolicies.CanonicalMeans` | `internal/permission/tool_grants.go:102-125` | A canonical list denies what the list it comes from denies. |
| `ToolRules.CanonicalAgain` | `internal/permission/tool_grants.go:131-176` | The canonical text of a rule is its own canonical form exactly when it keeps to 512 bytes and no capital without a small form follows a small letter or a digit in its name. |
| `ToolRules.CanonicalSettles` | `internal/permission/tool_grants.go:131-176` | The canonical form of a canonical text, if accepted, is its own, unless it has outgrown the limit. |
| `ToolRules.CapitalUnsettles` | `internal/permission/tool_grants.go:188-199` | A capital without a small form takes its underscore only the second time. |
| `ToolRules.Outgrows` | `internal/permission/tool_grants.go:131-176` | A rule of 512 bytes whose canonical text has 513 and is refused. |
| `ToolRules.NameIsItsName` | `internal/permission/tool_grants.go:182-212` | The canonical name of a tool is its own canonical name exactly when no such capital is in it; the second form always is. |
| `ToolRules.SpellName` | `internal/permission/tool_grants.go:182-212` | The loop over the characters refines the recursive spelling, for any letter classes. |
| `ToolRules.LetterIs` | `internal/permission/tool_grants.go:188-203` | An underscore comes in just where a capital follows a small letter or a digit, and every letter takes its small form. |
| `ToolRules.AcceptedExactly` | `internal/permission/tool_grants.go:131-176` | A rule is blank when only space is given, and accepted exactly when it is one line of at most 512 bytes that gives a name alone, or a name without wildcard and a pattern in parentheses that the tool takes. |
| `RunPolicies.DenyCanonSettles` | `internal/permission/tool_grants.go:131-176` | So with the real normal form, over all of Unicode, a canonical text changes at most once more, or is refused. |
| `RunPolicies.Succeeds` | `cmd/gokin/run_policy.go:14-75` | The exact condition for a resume to be accepted, for any saved and requested policies and any normal form. |
| `RunPolicies.EffectiveIsMeet` | `cmd/gokin/run_policy.go:14-75` | An accepted resume gets the meet: tools intersected (no ceiling as top), denies united, the lower mode in plan, dontAsk, default, acceptEdits, bypassPermissions. |
| `RunPolicies.MeetLaws` | `cmd/gokin/run_policy.go:14-75` | The meet is idempotent, commutative, associative and the greatest lower bound. |
| `RunPolicies.FreshMeans` | `cmd/gokin/run_policy.go:14-30` | Without a saved policy, or with a reset, the request is accepted exactly when its denies can be made canonical and its mode is known, and stands just as it means. |
| `RunPolicies.ResumeWithSame` | `cmd/gokin/run_policy.go:14-75` | Resuming with the saved policy keeps its meaning, and is accepted exactly when its canonical list has at most 32 rules and can be given again. |
| `RunPolicies.CannotRepeatThirtyThree` | `cmd/gokin/run_policy.go:14-75` | Thirty-three denies, of wildcards, are accepted and saved by the program, and a start that repeats them is refused. |
| `RunPolicies.OverlongSticks` | `cmd/gokin/run_policy.go:14-75` | To the function alone, a deny of 512 bytes whose canonical text is longer is accepted, and then every resume with it is refused; the program refuses it at every start. |
| `RunPolicies.NarrowedUnsettled` | `cmd/gokin/run_policy.go:56-60` | A saved rule that has not settled counts as narrowing, though the request denies the same. |
| `RunPolicies.SavedIsKept` | `cmd/gokin/main.go:656-686` | Whatever the program saves, over any sequence of starts with or without reset, its deny rules are their own canonical forms and can be given again as they stand. |
| `RunPolicies.KeptResumes` | `cmd/gokin/main.go:656-686` | So a saved session can always be resumed by a request without denies, which keeps its rules, and by one that repeats them exactly when they are at most 32. |
| `RunPolicies.Descends` | `cmd/gokin/main.go:657-682` | Along any chain of starts without reset the saved policy, whatever it was, only descends, below the flags of every start accepted. |
| `RunPolicies.StartedIsMeet` | `cmd/gokin/main.go:656-686` | A start that is accepted saves the meet of the saved policy and what its flags mean. |
| `RunPolicies.StartedAfresh` | `cmd/gokin/main.go:656-686` | The first start, or one with a reset, saves what its flags mean. |
| `RunPolicies.FreshStarts` | `cmd/gokin/main.go:656-686` | When such a start is accepted; tools and mode are then saved as asked. |
| `RunPolicies.SavedMeans` | `cmd/gokin/main.go:656-686` | Over any sequence of starts, with resets and refusals, the saved policy means exactly the meet of the requests accepted since the last reset. |
| `RunPolicies.CanonicalizeDenies` | `internal/permission/tool_grants.go:102-125` | The loop with its running total refines the canonical list. |
| `RunPolicies.EffectiveSessionRunPolicy` | `cmd/gokin/run_policy.go:14-75` | Computes the effective policy, which without a saved one or with a reset means just the request; narrowed whenever its meaning differs from the request, and only then once the canonical rules of both lists have settled. |

## Left out

- Coordinator: `Stop` and context cancellation, `Wait` with timeouts, status snapshots, UI broadcasts, reflection feedback, result texts and task start callbacks.
- Coordinator: liveness of the ticker and signals of the process loop; a step that can be taken may be taken at any time, and `Progress` says what each achieves.
- Coordinator: task and agent IDs are assumed fresh, since the source draws them at random.
- TaskQueues.TaskQueue.PushTask: the arrival number is unbounded, where the source counts in 64 bits; the defensive `heap.Init` on an empty queue and `PeekTask`, `GetReadyTasks` would only add easy members.
- Coordinators.Coordinator.CheckCompletedAgents: a panic in the runner or a callback is an outcome like any other; recovering from it is not modelled.
- Delivery.NotLost: speaks of batches drained after `Start`; a graph whose tasks all ended before `Start` is announced by the process loop's next look, which is the last clause of the lemma.
- StreamLoop.Connection.HandleFrame: the scanner, JSON decoding and `parseHeadlessStreamInput` are a classification of frames; a record is malformed when the environment says so.
- StreamLoop.Connection.HandleControl: sizes are those of the request bodies; lengths of IDs and prompts are counted in characters.
- StreamLoop.Connection.Leave: the teardown of reader and worker goroutines and the contents of envelopes; a failure envelope is a flag of the log.
- Inbox.JobStore.EnqueueControl: of the checks on a message only those for an empty and an overlong one; the lease, file reads and writes always succeed or the step does not happen.
- Inbox.JobStore.ClaimNextControl: the limit of 80 files in an inbox directory, which counts delivered records whose removal failed, and records of invalid state.
- BackgroundWorkers.HeadlessLoop.AfterTurn: the word that is stored with a committed message, such as `steered` or `turn_failed`.
- BackgroundWorkers.HeadlessLoop.PollInbox: a cancelled worker context is a turn that returns; ticks come at any moment rather than every 150 milliseconds.
- PlanTrees.PlanTree.AddNode: children are held as IDs and followed through the index rather than as pointers, so a child shared by two parents or missing from the index cannot be written; a nil index and its rebuilding are not modelled, nor the mutation of the caller's action, which is copied with its node ID.
- PlanTree: `GetReadyNodes`, `GetBlockedNodes`, `GetPendingNodes` and `GetSucceededPath` would only add easy members; timestamps and the replan counter are dropped.
- Mcts.Planner.Ucb1Score: scores are reals and the exploration term is an arbitrary function of two positive counts, so rounding, infinities other than that of an unvisited child, and NaN are not modelled.
- Mcts.Planner.Iterate: the value of a simulation or rollout is arbitrary before clamping; how it is weighed is not modelled.
- AStar.Planner.Search: arithmetic is over reals; the sort of the open set is a choice of any entry of least estimate; `beamSearch` is left out.
- Checkpoint.Restorer.RoundTrip: the goal, IDs and timestamps of the tree itself, and JSON encoding; maps are traversed in arbitrary order.
- Compaction.CheckAndSummarize: token counting, thresholds, the summarizer, `ReattachInvocations`, `injectContinuationHint` and the pruning of tool outputs; messages are values, so identity of pointers is not modelled. A slice past the length is an error even where the capacity of the backing array would let it pass.
- Compaction.Truncate: relevance scores are an input, one for each middle message, as the scorer returns them.
- Recovery.RecoveryExecutor.AttemptAutoFix: one call after another; calls that interleave are those of `RecoveryRaces`. Carrying out a fix is an outcome; the fixes offered, the normalized category, the key and the error's fingerprint are inputs; which old states are pruned is a given set rather than an order by age; nil arguments are left out.
- RecoveryRaces.NeverOverspent: the calls share one key and one category.
- AgentLoop.ExecuteLoop: a model response is an arbitrary turn; the per-call loop detectors are one flag, truncated answers, planned steps and nudges are turns without calls, and cancellation, token budgets, hooks and stream errors are aborts, before, during or after a tool turn.
- FixCaches.FixCache.RecordError: category counters, timestamps, `RecordHit` and the extraction of tokens from messages; two signatures with one key share a record, as in the source.
- RunPolicies.EffectiveSessionRunPolicy: nil and empty deny lists are not told apart. That a rule settles by its second form is an assumption of the meaning, proved of the real normal form (`DenyCanonSettles`); what a settled rule matches is not modelled.
- ToolRules.SpellName: text is valid UTF-8 and a character is a code point; the Unicode tables are any that meet `Lawful`, as those of package unicode do; which argument patterns a tool accepts (`validateScopedToolRule`) is an arbitrary predicate.
- RunPolicies.SavedIsKept: splitting the flags into rules, the check of tool names (a flag of the start), loading and writing the session file, and the check of the mode against the startup policy in `cmd/gokin/main.go`; a session edited by hand is any policy, of which `Succeeds` and `Descends` speak.
