# Directorius: a verified model of the merge queue

Directorius keeps one merge queue per base branch. Webhook handlers, HTTP handlers and
the single worker of a work pool drive a queue at the same time; the first active pull
request of a queue is brought up to date with its base branch, labeled, gets its CI jobs
triggered and is reported as successful, so that GitHub merges it.

This project models that core in Dafny and proves what it is for: that at most one pull
request per branch can be merged at a time, that cancelling and pausing take effect in
every interleaving, that no work is lost, that the decision to report success is made on
the right grounds, and that a restart rebuilds the queues with the same heads.

`dafny verify dfyconfig.toml` checks everything.

## The parts

- **The work pool** (`Pool.dfy`): scheduler, workers, notification channel with one slot and
  `Wait`, as a transition system with a program counter per goroutine. The invariants give
  FIFO, exactly-once execution and the absence of a lost wakeup; a decreasing measure gives
  termination. With one worker it is a queue with one server, which is how the next part
  uses it.
- **The queue under concurrency** (`QueueProtocol.dfy`, `QueueSafety.dfy`): steps are sections
  under the queue mutex, atomic loads and stores, taking and releasing a status mutex, and
  the start and end of API calls, those under a background context included. One inductive
  invariant of nine parts carries the cancel handshake, the pause handshake, "the head is
  scheduled or owed" (and the debt is paid), conservation, disjointness and the gauges, each
  stated over all runs.
- **What operations get done** (`QueueDuties.dfy`): over all runs, that a removal which is to report
  does; and for each operation what comes of it when nobody disturbs it, whatever its calls answer,
  so that the steps are pinned from below as well as from above.
- **The head label** (`QueueLabels.dfy`): who has it in every interleaving, under the mutex that
  orders its calls: exactly when a pull request keeps it that is not first, and a run in which
  that happens. With this mutex, no removal is ever stuck.
- **Several queues** (`QueueSystem.dfy`): a pull request that changes its base branch takes its
  status mutex and its last reported state along. The queues of a system share these; each of
  them sees a run of the protocol above, and the cancel handshake holds across them.
- **The queue, a method at a time** (`MergeQueue.dfy`, `PullRequests.dfy`): a class whose methods
  are taken as one step each, with the pull request objects they update.
- **The structures under it** (`LinkedList.dfy`, `OrderedMap.dfy`): the pointer ring with its
  sentinel, including a list that is pushed onto itself, and the map with a hash index into
  such a list. Both are heap classes that are proved to refine a sequence and a map.
- **The order** (`PullRequestOrder.dfy`): what the comparison guarantees although it is not
  transitive, exactly when it is, and what sorting by it gives.
- **Deciding and acting** (`Retry.dfy`, `CIStatus.dfy`, `ProcessPR.dfy`, `ListPRs.dfy`): the
  retry loop over arbitrary traces of events, the aggregation of CI statuses, one run of
  `processPR` with everything it may meet, and the paginating iterator.
- **All queues and the start-up** (`Coordinator.dfy`, `Sync.dfy`, `Repository.dfy`): creating and
  removing queues, moving a pull request to another base branch, the synchronisation that
  rebuilds the queues from GitHub's listing, and runs of a whole repository: from what the
  synchronisation leaves, after any sequence of events, every queue has at most one pull
  request that GitHub may merge.

## Assumptions

- A pool has at least one worker, and work functions return.
- An API call that is made with a context that is already cancelled fails.
- There is one pull request object per number while tasks for it are pending.
- For "one winner per queue" the reports of the pending status succeed. Every other call may
  succeed or fail, each for itself. `MergeQueue.Queue.Suspend` and
  `Coordinator.Coordinator.ChangeBaseBranch` say exactly what is lost when a pending report fails.
- The pool work that a synchronisation schedules runs after it: a worker that suspends the head of
  a queue while the listing is still being worked through is not part of `Sync.Synchronise`.
- One call of a queue method sees one time.
- `Enqueue` gets a pull request that is new, or one that `Dequeue` has returned for another queue
  (`QueueSystem.DequeuedIsFree`).

## Where the code and its documentation disagree

- `queue.Stop` says that it empties the active and the suspend queue. It replaces the suspended
  map before it loops over it, and it removes list elements while it walks the list, which ends
  the walk after the first one. `MergeQueue.Queue.Stop` and `OrderedMap.Map.DequeueWhileWalking`
  say what it does instead, and exactly when it meets its comment.
- `ReadyForMerge` says that the CI status is failure when a required check failed. A rollup that
  is pending or expected hides the failure: `CIStatus.FailureCanBeHidden` gives an input and
  `CIStatus.OverallExactly` the condition.
- `processPR` says that it posts a comment when updating fails for a merge conflict or another
  error. It comments exactly for a merge conflict (`ProcessPR.ConflictExactly`).
- `orderBefore` reads as an order but is not transitive: `PullRequestOrder.NotTransitive` gives
  three kinds of circles and `PullRequestOrder.CircleExactly` says which three pull requests go
  round in one. Where none do it is a strict total order (`PullRequestOrder.TotalExactly`), and
  there alone re-sorting has a result that can be called sorted (`ActiveQueueOrder.SortIsDetermined`).
- The ordered map keeps its tail sorted under insertion for a strict weak order. For an order
  that is only antisymmetric, insertion keeps neighbours in order but removal does not:
  `ActiveQueueOrder.RemoveBreaksSteps` and `OrderedMap.RemoveKeepsStepsIff`.
- `Dequeue` adds the head label to the new first one after it has released the queue mutex, and its
  own comment asks whether it should. That pull request may have left the queue by then and keeps
  the label: `QueueLabels.LabelledBehindExactly` says exactly when, `QueueLabels.LabelStays` gives a
  run.

## Model

| member | source | states |
|---|---|---|
| `Pool.FifoExactlyOnce` | `internal/routines/pool.go:45-136` | in every reachable state, for any step: what was started is a prefix of what was queued, the rest is waiting in order (channel, scheduler, work queue), each item is finished or in progress as often as it was started, and nothing is sent on a closed channel |
| `Pool.ReachableInv` | `internal/routines/pool.go:45-136` | every reachable state keeps the invariant: no item lost or doubled, channels closed in order, and no lost wakeup (whenever there is work or termination to see, a token, the scheduler, an item or somebody who owes a notification is on the way) |
| `Pool.NoDeadlock` | `internal/routines/pool.go:45-136` | with a worker, a pool that cannot move by itself has run everything that was queued, and a `Wait` that was called has returned |
| `Pool.InternalStepDecreases` | `internal/routines/pool.go:45-136` | every step the pool takes by itself decreases a measure |
| `Pool.QueuedWorkRuns` | `internal/routines/pool.go:107-119` | from any reachable state, in any scheduling, the pool stops after boundedly many steps of its own with all queued work run |
| `Pool.WaitTerminates` | `internal/routines/pool.go:121-136` | after `Wait` was called every run is bounded, cannot get stuck before `Wait` returns, and `Wait` returns only after all queued work has run |
| `Pool.QueueAccepted` | `internal/routines/pool.go:104-119` | in every reachable state, until the critical section of `Wait`, that of `Queue` can be entered, at once or after the caller in it has left, and its work is then the last to wait; afterwards it cannot |
| `Pool.RefinesServer` | `internal/routines/pool.go:45-136` | with one worker every step is a step of a queue with one server, or invisible |
| `Pool.SerialExecution` | `internal/routines/pool.go:81-94` | with one worker an item starts only when all before it have finished |
| `QueueSafety.NextInv` | `internal/mergequeue/queue.go:202-487` | every step of every agent, and every step of another queue that shares its pull requests, keeps the invariant of nine parts |
| `QueueDuties.AskedToReport` | `internal/mergequeue/queue.go:336-345` | over all runs: a removal that is to report the pending status (a `suspend`, or a `Dequeue` that is asked to) does not end before its report succeeded, was skipped because that state had been reported, or was given up, with the status mutex in hands |
| `QueueDuties.NotAskedToReport` | `internal/mergequeue/queue.go:336-345` | over all runs: one that is not asked to takes no step of a report |
| `QueueDuties.EndedRemovalHandshake` | `internal/mergequeue/queue.go:305-402` | over all runs: once a `Dequeue` or `suspend` that is to report has ended, without giving the report up, a success report for its pull request succeeds only if that was first again in between |
| `QueueDuties.PendingReported` | `internal/mergequeue/queue.go:305-355` | a run in which the pending report of a removal succeeds |
| `QueueDuties.SuspendIsAtomic` | `internal/mergequeue/queue.go:360-402` | over all runs: while a suspend is under way nobody else enters a section under the queue mutex, and the active queue stays |
| `QueueDuties.RunActsForFirst` | `internal/mergequeue/queue.go:525-655` | over all runs: what a run removes, labels or reports is the pull request that was first when it passed its last check |
| `QueueDuties.RemovalAlone` | `internal/mergequeue/queue.go:305-402` | what a removal does that nobody disturbs, however its calls end: the pull request goes, the context of its run is cancelled and no other, its flag is cleared, the pending state is reported as asked, the new first one is labelled by `Dequeue` and scheduled by both |
| `QueueDuties.RunAlone` | `internal/mergequeue/queue.go:525-655` | a run for the first one that nobody disturbs gets through its checks, can label it and report success, and ends |
| `QueueDuties.Gates` | `internal/mergequeue/queue.go:525-546` | the checks let a run in exactly if the queue is not paused, its context is not cancelled and its pull request is first |
| `QueueDuties.IdleRunAlone` | `internal/mergequeue/queue.go:525-575` | a run of a paused queue, under a cancelled context, or for another than the first one comes to nothing |
| `QueueDuties.TraceContexts` | `internal/mergequeue/queue.go:479-523` | over all runs: the context of the next task has not been cancelled, whatever was cancelled or expired before |
| `QueueDuties.ResumeAlone` | `internal/mergequeue/queue.go:430-451` | a suspended pull request that is resumed is taken out and put behind the first one, and scheduled if the queue was empty |
| `QueueDuties.PauseAlone` | `internal/mergequeue/queue.go:1106-1113` | `Pause` stops the queue and cancels the context of just the task that is executed |
| `QueueDuties.UnpauseAlone` | `internal/mergequeue/queue.go:1123-1135` | `Resume` clears the pause and schedules the first one |
| `QueueDuties.CheckAlone` | `internal/mergequeue/queue.go:1016-1041` | a status check is taken with its own context, may make its calls, and ends |
| `QueueDuties.CallReturns` | `internal/mergequeue/queue.go:541-655` | after a call that fails, as after one that succeeds, the worker goes on where it was |
| `QueueDuties.SkipsWhatIsThere` | `internal/mergequeue/queue.go:774-923` | a call is skipped only where it would change nothing |
| `QueueSafety.CancelHandshake` | `internal/mergequeue/queue.go:305-355` | over all runs: when a removal of n has reported its pending status successfully, a later success report for n succeeds only if n was first in the active queue in between |
| `QueueSafety.PauseHandshake` | `internal/mergequeue/queue.go:1106-1113` | over all runs: after `Pause` has returned and until `paused` is cleared, no API call that a `processPR` run starts under its own context succeeds |
| `QueueSafety.CallsUnderPause` | `internal/mergequeue/queue.go:305-355` | which calls survive: while the queue is quiet a call that a run starts is dead, a call of another task succeeds unless its own context is cancelled, and the calls of a removal under a background context (removing the label, the pending report, the label of the new first one) can still succeed, also when a run removes |
| `QueueSafety.NextServed` | `internal/routines/pool.go:70-119` | every step of the protocol takes the tasks, the one in work and those ended as a queue with one server takes its items, or leaves them alone |
| `QueueSafety.QueuedStays` | `internal/routines/pool.go:70-119` | over all runs: a task that was queued keeps its place in the order in which tasks are taken, and is waiting, in work or ended ever after |
| `QueueSafety.HeadScheduledOrOwed` | `internal/mergequeue/queue.go:202-402` | over all runs: `processPR` was queued for the first active pull request while it was first, and that task waits in its place, is what the worker is at, or has ended; or a removal past its section owes that schedule |
| `QueueSafety.DebtIsPaid` | `internal/mergequeue/queue.go:305-402` | over all runs: a removal that owes a schedule for the new first one has paid it after at most ten steps of its own, when its pending report is not retried |
| `QueueSafety.Conservation` | `internal/mergequeue/queue.go:360-451` | over all runs: the numbers a queue knows change only by a successful `Enqueue` of that number or a `Dequeue` of it; suspending, resuming and sorting change none |
| `QueueSafety.SetDiscipline` | `internal/mergequeue/queue.go:202-299` | over all runs, at every step of every agent: no pull request is both active and suspended or active twice, and both gauges are the sizes of their sets |
| `QueueSafety.TraceInv` | `internal/mergequeue/queue.go:525-544` | the invariant holds in every state of every run |
| `QueueSafety.BarredCannotSucceed` | `internal/mergequeue/queue.go:886-920` | a success report for a removed pull request whose pending status is reported cannot be one that succeeds |
| `QueueSafety.PauseReturns` | `internal/mergequeue/queue.go:1106-1113` | in every state that keeps the invariant, when `Pause` returns and nobody has resumed since its store, the queue is paused and the context of a run past its check is cancelled |
| `QueueLabels.LabelledBehindExactly` | `internal/mergequeue/queue.go:336-351` | over all runs: a pull request that is not first, and that no removal is about to take the label from, has the flag of the head label exactly when a `Dequeue` labelled it as the new first one after it had left the front and nobody has begun to take the label away since |
| `QueueLabels.LabelStays` | `internal/mergequeue/queue.go:336-351` | this happens: a run with two crossing calls of `Dequeue` after which the queue is empty, nobody is in the middle of anything, and a removed pull request has the flag |
| `QueueLabels.TraceLabelsInv` | `internal/mergequeue/queue.go:774-840` | in every state of every run: those in a section under a label mutex are those that have it; a run with a good context is for the first one or about to be cancelled; who has the flag is first, about to lose it, or was labelled late |
| `QueueLabels.RemovalNeverStuck` | `internal/mergequeue/queue.go:305-402` | over all runs: a removal past its section can step, or it waits for a status mutex that can be given back within two steps, or for a label mutex whose holder can give it back at once |
| `QueueSystem.ViewIsTrace` | `internal/mergequeue/queue.go:886-920` | several queues over one map of status mutexes and last reported states: what any of them sees of a run of all is a run of the protocol, so that what holds over the runs of one queue holds for every queue among others |
| `QueueSystem.CancelHandshake` | `internal/mergequeue/queue.go:305-355` | the cancel handshake across queues, over all runs: when a removal of n from one queue has reported its pending status successfully, a later success report for n from any queue succeeds only if n was first in the active queue of that one in between |
| `QueueSystem.EndedRemovalHandshake` | `internal/mergequeue/queue.go:305-402` | the same for whole calls: once a removal from one queue that is to report has ended without giving up, a later success report for n from any queue succeeds only if n was first there in between |
| `QueueSystem.TraceExclusive` | `internal/mergequeue/coordinator.go:1084-1099` | over all runs: no two queues have the same pull request, not even one that is between the two sections of a resume or of a removal that has not cancelled yet |
| `QueueSystem.DequeuedIsFree` | `internal/mergequeue/coordinator.go:1084-1099` | over all runs: when the `Dequeue` of a move has returned and nobody enqueued the number meanwhile, no queue has it, so the `Enqueue` of the move meets what a step of the system asks of it |
| `LinkedList.List.constructor` | `internal/linkedlist/list.go:51-70` | a new list is empty and its ring is well-formed |
| `LinkedList.List.LazyInit` | `internal/linkedlist/list.go:93-97` | initialises a zero list, and changes nothing else |
| `LinkedList.List.Attach` | `internal/linkedlist/list.go:100-108` | linking an element in behind the k-th stop inserts it at k in the sequence |
| `LinkedList.List.Insert` | `internal/linkedlist/list.go:100-113` | insertion behind the k-th stop, with ownership and length |
| `LinkedList.List.Detach` | `internal/linkedlist/list.go:116-123` | unlinking the k-th element removes it from the sequence |
| `LinkedList.List.Unlink` | `internal/linkedlist/list.go:116-123` | removal clears the pointers of the element and leaves the rest in order |
| `LinkedList.List.Move` | `internal/linkedlist/list.go:126-137` | moving takes the k-th element out and puts it in behind another stop; next to itself it changes nothing |
| `LinkedList.List.Remove` | `internal/linkedlist/list.go:142-149` | removes just an element of this list, and returns its value in any case |
| `LinkedList.List.PushFront` | `internal/linkedlist/list.go:152-155` | puts a new element first |
| `LinkedList.List.PushBack` | `internal/linkedlist/list.go:158-161` | puts a new element last |
| `LinkedList.List.InsertBefore` | `internal/linkedlist/list.go:166-172` | inserts before the mark, or nothing when the mark is of another list |
| `LinkedList.List.InsertAfter` | `internal/linkedlist/list.go:177-183` | inserts after the mark, or nothing when the mark is of another list |
| `LinkedList.List.MoveToFront` | `internal/linkedlist/list.go:188-194` | the element becomes the first, the others keep their order |
| `LinkedList.List.MoveToBack` | `internal/linkedlist/list.go:199-205` | the element becomes the last, the others keep their order |
| `LinkedList.List.MoveBefore` | `internal/linkedlist/list.go:210-215` | the element comes right before the mark, the others keep their order |
| `LinkedList.List.MoveAfter` | `internal/linkedlist/list.go:220-225` | the element comes right after the mark, the others keep their order |
| `LinkedList.List.PushBackList` | `internal/linkedlist/list.go:229-234` | appends a copy of the other list; pushed onto itself it terminates and yields s + s |
| `LinkedList.List.PushFrontList` | `internal/linkedlist/list.go:238-243` | prepends a copy of the other list; pushed onto itself it terminates and yields s + s |
| `LinkedList.Element.Next` | `internal/linkedlist/list.go:28-33` | the next element of the list, nil at the end and for an element of no list |
| `LinkedList.Element.Prev` | `internal/linkedlist/list.go:36-41` | the previous element of the list, nil at the front and for an element of no list |
| `OrderedMap.InsertKeepsHead` | `internal/orderedmap/orderedmap.go:45-59` | insertion never moves the first entry, for any comparison |
| `OrderedMap.InsertKeepsSteps` | `internal/orderedmap/orderedmap.go:45-59` | for an antisymmetric comparison, insertion keeps every two neighbours of the tail in order |
| `OrderedMap.InsertKeepsSorted` | `internal/orderedmap/orderedmap.go:45-59` | for a strict weak order, insertion keeps the tail sorted |
| `OrderedMap.RemoveKeepsSorted` | `internal/orderedmap/orderedmap.go:73-81` | removal keeps a sorted tail sorted, also when the head goes |
| `ActiveQueueOrder.RemoveBreaksSteps` | `internal/mergequeue/queue.go:286-299` | removal from the middle can leave neighbours the wrong way round, with the comparison the queue uses and four active pull requests |
| `OrderedMap.RemoveKeepsStepsIff` | `internal/orderedmap/orderedmap.go:73-81` | it does not exactly when the two entries that become neighbours are in order |
| `OrderedMap.Map.InsertList` | `internal/orderedmap/orderedmap.go:45-59` | the walk over the list finds the place and inserts there |
| `OrderedMap.Map.InsertIfNotExist` | `internal/orderedmap/orderedmap.go:34-43` | adds a new key at its place, refuses a known one; index and list stay in bijection |
| `OrderedMap.Map.Get` | `internal/orderedmap/orderedmap.go:62-69` | the value of the key, or the zero value |
| `OrderedMap.Map.Dequeue` | `internal/orderedmap/orderedmap.go:73-81` | removes the entry of the key from index and list and returns its value; an unknown key changes nothing |
| `OrderedMap.Map.First` | `internal/orderedmap/orderedmap.go:85-91` | the first value, or the zero value |
| `OrderedMap.Map.AsSlice` | `internal/orderedmap/orderedmap.go:105-113` | the values in list order |
| `OrderedMap.Map.SortByKey` | `internal/orderedmap/orderedmap.go:115-126` | the keys end up in an order the library's sort may give, the list in exactly that order, the index as it was |
| `OrderedMap.Map.MoveAllToBack` | `internal/orderedmap/orderedmap.go:115-126` | moving the keys to the back one after the other yields their order |
| `OrderedMap.Map.DequeueWhileWalking` | `internal/mergequeue/queue.go:142-166` | dequeuing from inside the iteration removes the first entry only |
| `OrderedMap.SortedFunc` | `internal/orderedmap/orderedmap.go:119-121` | some order of the keys for any comparison: no key lost or doubled, a key that precedes all others first, sorted where the comparison is a strict total order, and for up to twelve keys and a consistent comparison no neighbours the wrong way round |
| `OrderedMap.SortedUnique` | `internal/orderedmap/orderedmap.go:115-126` | for a strict total order the sorted listing of a set is unique |
| `PullRequestOrder.Decisive` | `internal/mergequeue/queue.go:1156-1190` | at one time the comparison is antisymmetric and never 0 for different numbers |
| `PullRequestOrder.SpreadIsLexicographic` | `internal/mergequeue/queue.go:1156-1190` | among pull requests that became active more than a minute apart it is a lexicographic order |
| `PullRequestOrder.SpreadIsTotal` | `internal/mergequeue/queue.go:1156-1190` | hence a strict total order there |
| `PullRequestOrder.BatchIsLexicographic` | `internal/mergequeue/queue.go:1156-1190` | among pull requests active for less than four hours and within a minute of each other it is a lexicographic order |
| `PullRequestOrder.BatchIsTotal` | `internal/mergequeue/queue.go:1156-1190` | hence a strict total order there |
| `PullRequestOrder.NoStarvation` | `internal/mergequeue/queue.go:1156-1190` | after four hours an active pull request precedes every one of equal priority that is more than a minute newer |
| `PullRequestOrder.NotTransitive` | `internal/mergequeue/queue.go:1156-1190` | the comparison is not transitive: a circle by the one-minute tolerance, one at the four-hour boundary, one with a pull request that is not active yet |
| `PullRequestOrder.CircleExactly` | `internal/mergequeue/queue.go:1156-1190` | for any three pull requests: they go round in a circle exactly when their priorities are equal and, from one of them on, they form one of those three gaps |
| `PullRequestOrder.TotalExactly` | `internal/mergequeue/queue.go:1156-1190` | on pull requests with different numbers the comparison is a strict total order exactly when no three go round in a circle |
| `ActiveQueueOrder.SortKeepsFirst` | `internal/mergequeue/queue.go:234-257` | every order the library may give permutes the active pull requests and has the first one first; no neighbours behind it are the wrong way round if there are at most twelve or no circles behind it |
| `ActiveQueueOrder.CompareIsTotal` | `internal/mergequeue/queue.go:234-257` | where the order is strict and total on the others, the comparison used for sorting is so on all |
| `ActiveQueueOrder.WhereOrderly` | `internal/mergequeue/queue.go:234-257` | there are no circles behind the first one when the others became active more than a minute apart, or form a young batch |
| `ActiveQueueOrder.SortIsDetermined` | `internal/mergequeue/queue.go:234-257` | a listing of the active pull requests is sorted exactly when there are no circles behind the first one and it is the one the library gives |
| `MergeQueue.Queue.EnqueueActive` | `internal/mergequeue/queue.go:202-226` | inserts at the place the order gives behind the first, refuses a known number, counts, and schedules a queue that was empty |
| `MergeQueue.Queue.Enqueue` | `internal/mergequeue/queue.go:262-269` | fails exactly for a known number; otherwise the pull request stands at its place, with the time it became active, and the queue knows one number more |
| `MergeQueue.Queue.DequeueSuspended` | `internal/mergequeue/queue.go:273-282` | takes a suspended pull request out and counts |
| `MergeQueue.Queue.DequeueActive` | `internal/mergequeue/queue.go:286-299` | takes an active pull request out, counts, and tells which one became first |
| `MergeQueue.Queue.Dequeue` | `internal/mergequeue/queue.go:305-355` | the queue forgets just this number; the removed one loses its label and is reported pending on request; a new first is labelled, if it was not and the call succeeds, and scheduled; no other pull request changes its label or its reported state; one winner is kept |
| `MergeQueue.Queue.Suspend` | `internal/mergequeue/queue.go:360-402` | the pull request becomes a suspended one without trigger memory and label; no other pull request changes, nothing is lost; one winner is kept exactly unless it had been reported successful and the pending report fails |
| `MergeQueue.Queue.ResumePR` | `internal/mergequeue/queue.go:430-451` | a suspended pull request becomes an active one at its place, with a new time since when; the other suspended ones do not change, no number comes or goes |
| `MergeQueue.Queue.ResumeAllPRs` | `internal/mergequeue/queue.go:406-425` | afterwards nothing is suspended: in some order each suspended one came in at its place at that moment, with a new time since when; a first one stays first; the first one is scheduled exactly if the queue was empty |
| `MergeQueue.Queue.SortActiveQueue` | `internal/mergequeue/queue.go:234-257` | permutes the active pull requests, keeps the first, and changes nothing else; behind the first no neighbours are the wrong way round if there are at most twelve or no circles |
| `MergeQueue.Queue.SetPriority` | `internal/mergequeue/queue.go:1077-1101` | sets the priority of the pull request with the number, active or suspended, and of no other; fails exactly for an unknown number |
| `MergeQueue.Queue.Resume` | `internal/mergequeue/queue.go:1123-1135` | clears the pause and schedules the first pull request with CI, if there is one |
| `MergeQueue.Queue.RunTask` | `internal/mergequeue/queue.go:479-487` | the worker runs the next task, each call with an outcome of its own: `processPR` does nothing unless its pull request is first, and what it does to the queue is suspend or dequeue the first one at most once, at the end; then the new first one is scheduled, with CI after a suspend and without after a dequeue; label, reported state, trigger memory and number of suspends of the first follow from the effects and the outcomes of their calls, those of the others stay, but for the label of a new first one after a dequeue; one winner is kept |
| `MergeQueue.Queue.Step` | `internal/mergequeue/queue.go:202-655` | every step but Enqueue and Dequeue keeps the sets, gauges and one winner, and brings no pull request in; for each kind of step, what becomes of the active and suspended pull requests, the pause and the queued tasks |
| `MergeQueue.Queue.Stop` | `internal/mergequeue/queue.go:142-166` | what Stop leaves behind: all but the first active pull request, and a wrong suspended gauge exactly when some were suspended |
| `MergeQueue.SortedBehindFirst` | `internal/mergequeue/queue.go:234-257` | the same pull requests with the first pinned; the others in order if they are at most twelve in all or go round in no circle |
| `PullRequests.PullRequest.AddHeadLabel` | `internal/mergequeue/queue.go:774-810` | the call is made exactly when the label is not there; the flag is set only by a call that succeeds and never cleared |
| `PullRequests.PullRequest.Report` | `internal/mergequeue/queue.go:857-923` | a state that was already reported is not reported again, and only a successful call is remembered |
| `Retry.Run` | `internal/retry/retryer.go:53-138` | the loop returns the answer of the first call that does not ask for a retry, and has called the action for all events up to it |
| `Retry.SuccessMeaning` | `internal/retry/retryer.go:53-138` | it succeeds exactly when a call succeeds after calls that were all retryable failures |
| `Retry.FailureMeaning` | `internal/retry/retryer.go:53-138` | it fails with an answer exactly when a call gives that answer after calls that were all retryable failures |
| `Retry.StoppedMeaning` | `internal/retry/retryer.go:53-138` | it ends as stopped exactly when the retryer shuts down after calls that were all retryable failures |
| `Retry.ContextEndedMeaning` | `internal/retry/retryer.go:53-138` | it ends with its context exactly when that ends after such calls |
| `CIStatus.ToJobStatuses` | `internal/githubclt/readyformergestatus.go:123-187` | succeeds exactly when required contexts are unique and all values known; then every name has what its last writer said (commit statuses after check runs), and required names without a report are expected; what GitHub's values convert to is in the three rows below |
| `CIStatus.RequiredStatus` | `internal/githubclt/readyformergestatus.go:99-121` | the loop over the list computes: failed, else expected, else pending, else success, over the required ones |
| `CIStatus.OverallStatus` | `internal/githubclt/readyformergestatus.go:79-97` | the overall status from the rollup and the required ones |
| `CIStatus.OrderIrrelevant` | `internal/githubclt/readyformergestatus.go:79-187` | two listings of the same hash map have the same overall status |
| `CIStatus.ConvertExactly` | `internal/githubclt/readyformergestatus.go:189-230` | the values convert exactly when no check run has an unknown state or a completed one an unknown conclusion, and no commit status an unknown state (lines 351-369) |
| `CIStatus.OverallExactly` | `internal/githubclt/readyformergestatus.go:79-97` | on the values GitHub gives, for each of the four: the overall status is failure exactly when a required context failed, success exactly when all of them succeeded, expected and pending exactly when that is said of one and not outweighed, and what a pending or expected rollup makes of it; a context says what its last commit status says, or else its last check run |
| `CIStatus.StatusesExactly` | `internal/githubclt/readyformergestatus.go:123-187` | on those values: one status per required or reported name, with what its last report says and where it links to |
| `CIStatus.ReadyForMerge` | `internal/githubclt/readyformergestatus.go:61-77` | the whole computation: it fails exactly for a required context named twice or an unknown value, otherwise its statuses and its overall status are the ones these two laws give |
| `CIStatus.FailureCanBeHidden` | `internal/githubclt/readyformergestatus.go:50-61` | a required check can have failed without the overall status being failure |
| `ListPRs.SortPage` | `internal/githubclt/listprs.go:120-122` | a page sorted by number |
| `ListPRs.Iterator.Query` | `internal/githubclt/listprs.go:106-123` | a failed query changes nothing but the count; a successful one appends the next page, sorted, to what is to be delivered |
| `ListPRs.Iterator.Next` | `internal/githubclt/listprs.go:89-126` | one pull: the next pull request, an error, or the end |
| `ListPRs.Iterator.Pull` | `internal/mergequeue/sync.go:66-81` | a pull through the retry loop delivers an element, the end or a final error, whatever finite pattern of retryable failures occurs |
| `ListPRs.ListAll` | `internal/githubclt/listprs.go:83-127` | a complete listing delivers the concatenation of the sorted pages, so every pull request once; retryable failures cannot prevent it |
| `ProcessPR.UpdateWithBase` | `internal/mergequeue/queue.go:664-707` | the closure over the attempts computes: changed when any attempt was scheduled or changed, with the head of the last |
| `ProcessPR.FailedRequired` | `internal/mergequeue/queue_processpr.go:236-249` | the loop collects the failed required statuses |
| `ProcessPR.FailedRequiredMembers` | `internal/mergequeue/queue_processpr.go:236-249` | just those, in any order of the statuses |
| `ProcessPR.ExpectedJobs` | `internal/mergequeue/queue_processpr.go:281-288` | the loop collects the names of the expected statuses |
| `ProcessPR.AreObsolete` | `internal/mergequeue/queue_processpr.go:251-279` | the loop stops at the first status that decides |
| `ProcessPR.ObsoleteExactly` | `internal/mergequeue/queue_processpr.go:251-279` | failed statuses are obsolete exactly when for each a later build of its job was started |
| `ProcessPR.EvalPRAction` | `internal/mergequeue/queue_processpr.go:68-234` | the branches over the fetched answers compute the decision whose consequences the exact laws of this module state |
| `ProcessPR.Process` | `internal/mergequeue/queue.go:525-655` | one run on a pull request has exactly the effects and leaves exactly the memory that the laws below are about |
| `ProcessPR.SuspendExactly` | `internal/mergequeue/queue_processpr.go:68-234` | over all responses, in terms of the answers alone: a run suspends exactly when it was first and neither paused nor cancelled, and the review does not approve, the update of an approved pull request meets a conflict, it is stale, CI failed with no required failure or with one that no later build superseded, the CI status is unknown, or fetching or updating ended with an error that is no cancellation |
| `ProcessPR.SuccessGating` | `internal/mergequeue/queue_processpr.go:82-234` | over all responses: a run reports success for c exactly when it was not paused, first and approved, no update attempt was scheduled, the last one returned unchanged with head c, it was not stale, CI had not failed, and a trigger that was needed succeeded |
| `ProcessPR.HeadLabelExactly` | `internal/mergequeue/queue_processpr.go:161-189` | a run adds the head label exactly to such a pull request whose CI is pending or expected |
| `ProcessPR.CITriggerExactly` | `internal/mergequeue/queue.go:630-662` | a run triggers CI exactly for such a pull request whose CI is expected, when its head is known and not the one triggered last, or unknown and the task asks for CI; for that head and the jobs that are expected |
| `ProcessPR.ChangeExactly` | `internal/mergequeue/queue_processpr.go:97-134` | a run takes the branch as changed exactly when an update of the approved pull request changed it, or one was scheduled before it was found up to date |
| `ProcessPR.LabelThenCIThenReport` | `internal/mergequeue/queue.go:579-640` | in every run the label is asked for first, CI at most once, and the report of success comes last |
| `ProcessPR.NothingAfterCancel` | `internal/mergequeue/queue.go:541-655` | over all responses: nothing follows a suspend or a dequeue in a run |
| `ProcessPR.DequeueExactly` | `internal/mergequeue/queue_processpr.go:97-106` | a run tries to dequeue exactly when the update of an approved pull request ends with the answer that it is closed |
| `ProcessPR.ConflictExactly` | `internal/mergequeue/queue_processpr.go:97-118` | a run comments exactly when that update ends in a merge conflict, then it suspends and does nothing else |
| `ProcessPR.CIOncePerHead` | `internal/mergequeue/queue.go:630-662` | over all sequences of runs: between two successful triggers for the same known head there is a suspend or a trigger for another head |
| `ProcessPR.RunMemory` | `internal/mergequeue/queue.go:630-645` | what a run remembers of CI triggers is what it did: a suspend forgets the commit, a successful trigger remembers its own, which is a new one if it is known, and the started builds are remembered exactly when CI was tried |
| `ProcessPR.StatusOrderIrrelevant` | `internal/mergequeue/queue_processpr.go:189-234` | whether a pull request is suspended and which jobs are triggered does not depend on the order of the statuses |
| `Coordinator.Coordinator.Enqueue` | `internal/mergequeue/coordinator.go:906-937` | creates the queue when needed; fails exactly for a number that queue has; otherwise the pull request joins behind the first one and is scheduled exactly if there was none; no other queue changes; a queue gets a second winner exactly when a winner comes behind another one |
| `Coordinator.Coordinator.Dequeue` | `internal/mergequeue/coordinator.go:944-976` | takes the number out or fails with not found; the one that becomes first is scheduled; a queue is removed exactly when it is empty afterwards; no other queue changes; one winner per queue is kept, and the removed one is a winner only if it was reported successful and not reported pending |
| `Coordinator.Coordinator.ChangeBaseBranch` | `internal/mergequeue/coordinator.go:1084-1099` | as one step: which error comes when, which queue has which numbers, that in every outcome the repository tracks the numbers it tracked, which tasks each queue has (for whoever becomes first behind the one that leaves, and for that one where it finds nobody), and that every queue keeps one winner exactly unless the pull request was reported successful, the pending report fails and it comes behind another one |
| `Coordinator.Coordinator.Turn` | `internal/mergequeue/coordinator.go:1105-1232` | a step of one queue does to it what that step is to do, tasks included, and leaves the other queues and the winners of all as they are to be |
| `Coordinator.Coordinator.PeriodicTrigger` | `internal/mergequeue/coordinator.go:169-181` | the periodic trigger removes an empty queue and schedules the first pull request of another one |
| `Coordinator.BaseChanged` | `internal/mergequeue/coordinator.go:1084-1099` | moving a number between two queues keeps what the repository tracks, also when the other queue had it |
| `Sync.EvaluateActions` | `internal/mergequeue/sync.go:225-248` | the loops yield an enqueue exactly for a trigger label other than the head label or for auto-merge when that triggers, an unlabel exactly for the head label, a reset exactly for a status under the own name that is not pending |
| `Sync.SortIsPartition` | `internal/mergequeue/sync.go:94-105` | the stable sort puts the queued heads first and keeps the order among heads and among the others |
| `Sync.SortKeepsHeads` | `internal/mergequeue/sync.go:94-105` | it changes no branch's list of queued heads |
| `Sync.Perform` | `internal/mergequeue/sync.go:125-195` | the loop over the actions of one item: flag, label calls, status reset and queue, also when the base branch has no name or the number is queued already |
| `Sync.SyncItem` | `internal/mergequeue/sync.go:109-196` | one item: a pull request without number or branch ends the synchronisation; otherwise its label is kept exactly when it is a queued head and none was kept for its branch; as long as heads come first no queue gets a second winner |
| `Sync.Advance` | `internal/mergequeue/sync.go:107-196` | one more item keeps the queues what the items so far call for, and one winner per queue |
| `Sync.Synchronise` | `internal/mergequeue/sync.go:55-205` | for any listing, from no queues: every queue has at most one winner, its first, for which alone `processPR` is queued, with CI; it succeeds exactly when each pull request out of sync has a number and a branch; for different numbers and named base branches each queue holds just the triggering pull requests, the earliest listed queue head is first with its flag set and keeps its label, every other head label is removed, and just the own statuses that are not pending are reset |
| `Sync.LeadsIffEarliest` | `internal/mergequeue/sync.go:107-121` | the one whose label is kept is the earliest listed queue head of its branch |
| `Repository.Handle` | `internal/mergequeue/coordinator.go:906-1232` | any event of a repository (an arrival, a removal, a change of the base branch, a step of a queue or of its worker, the periodic trigger) takes effect: which branch has which numbers afterwards, which tasks are queued, and what the step does; every queue keeps one winner, where its reports of the pending status succeed |
| `Repository.Run` | `internal/mergequeue/coordinator.go:103-193` | from start-up on, for any listing and any sequence of events, stated field by field: in every queue no number is there twice, both gauges are the sizes of their sets, and no pull request but the first active one was last reported successful or has the flag of the head label; reports of the pending status succeed |

## Left out

- `MergeQueue.Queue`: its active queue is a sequence, not an object of `OrderedMap.Map`; that class is proved to implement the sequence operations used here, with the comparison taken on a copy of the fields it reads at the time of the call.
- `OrderedMap.SortedFunc`: promises of `slices.SortedFunc` what the library's sort gives for a comparison that need not be transitive, not which order that is: for more than twelve keys that go round in circles only that it permutes them and puts a key that precedes all others first. `OrderedMap.InsertionSort` also stands for `slices.SortStableFunc`, whose result is unique.
- `MergeQueue.Queue.Dequeue`: cancelling the task that runs for the removed pull request is in `QueueProtocol`; resetting its unchanged-since time is not modelled, because whether a pull request is stale is an input of a run.
- `MergeQueue.Queue.Resume`: does not reset the unchanged-since times of the active pull requests, for the same reason.
- `MergeQueue.Queue.Stop`: what it does to the sets; cancelling the running task and waiting for the pool are in `QueueProtocol` and `Pool`.
- `MergeQueue.Queue.RunTask`: takes a run as one step in which no other agent removes its pull request; what happens in between is in `QueueProtocol`.
- `Coordinator.Coordinator.Dequeue`: leaves out that it waits for the pool of a queue before removing it; a queue that a run empties stays until the next periodic trigger or `Dequeue`.
- `PullRequestOrder.NoStarvation`: is about one comparison at one time, not about a bound on the waiting time.
- `QueueSafety.HeadScheduledOrOwed`: does not cover `Stop`, which leaves the queue unusable.
- `Coordinator.Coordinator.ChangeBaseBranch`: is one step; between its two critical sections the number is tracked by no queue.
- `Sync.Synchronise`: takes the pull requests the paginated listing delivers as a sequence (`ListPRs.ListAll` proves that this is each listed one once); a failed listing ends the synchronisation before any queue is touched.
- "Work is never queued on a terminated pool" and "a dequeued pull request never comes back" do not hold in every interleaving, because `ResumePR` has two critical sections; `QueueSafety.Conservation` counts what is between the two as tracked.
- `resumeIfPRMergeStatusPositive` reads the review decision without the queue lock; in `QueueProtocol` it is the worker resuming any pull request at any time.
- `QueueSafety.CallsUnderPause`: calls under a background context are not cancelled by anything.
- `QueueLabels.LabelledBehindExactly`: is about the flag `hasHeadLabel`. The flag is cleared before the call that removes the label at GitHub, which may fail.
- `QueueSystem.ViewIsTrace`: the flags and mutexes of the head label stay with a queue; only the statuses are shared. For the statuses a label call that is skipped because another queue has set the flag is like one that fails.
- `QueueSystem.DequeuedIsFree`: asks that nobody else had the number in hands when it was dequeued; with one pull request object per number nobody has.
- Whether a pull request is stale is an input of a run, not computed from its timestamps.
- The exact backoff times of the retry loop: the timer fires, the context ends or the retryer shuts down, in any order.
- `reviewAndCIStatus`, which pages through check runs and may mix those of two commits: the model starts from its result.
- `prsByBranch` and the updates by branch, which skip active pull requests of a branch found among the suspended ones.
- `SetPRStaleSinceIfNewer`, assignees and the other accessors: one-line updates of fields no property here depends on.
- The GitHub REST and GraphQL clients, the Jenkins client and its build URLs (parsing is an arbitrary partial function), the job templates, the event loop's dispatch of webhooks, the web interface, configuration, logging and the metrics registry (the two gauges of a queue are plain counters).
- Element ownership is checked by the list itself as far as `list` pointers tell; passing an element with a forged `list` pointer is excluded by `LinkedList.List.Honest`.
