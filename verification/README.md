# Log streaming, task execution, rate limiting and log reading, verified

RunRun executes configured tasks in a pool of workers, streams their output to browsers over WebSockets,
keeps a log file per execution, and limits requests per address. This project models the parts of it
whose behaviour depends on many steps taken together, and proves what they keep over every run.

| files | what they hold |
|---|---|
| `StreamBuffer.dfy` | one execution's line buffer: two limits, two overflow policies, delivery goroutines, `Stop` |
| `HubState.dfy`, `HubRun.dfy`, `HubCounts.dfy`, `HubStream.dfy`, `HubWitness.dfy`, `Hub.dfy` | the WebSocket hub: its three linked structures on values, its runs, its connection counts, what one client sees, the runs that go wrong, and the code on mutable objects |
| `Broadcaster.dfy`, `Pipeline.dfy`, `Message.dfy` | the broadcaster, and the whole path of a line from the task to every client's queue |
| `Executor.dfy`, `ExecutorRun.dfy`, `ExecutorProgress.dfy`, `TaskExecutor.dfy` | the worker pool, its runs, what becomes of every execution, and the code on mutable fields |
| `RateLimit.dfy` | the per-address limiter |
| `LogFile.dfy`, `LogPages.dfy`, `LogStream.dfy` | reading a log file: splitters, segments, pages, and the batched stream |
| `EnvExpand.dfy` | expansion of environment references in the configuration |
| `LogLevel.dfy`, `Text.dfy`, `Option.dfy` | level detection and filters, text helpers, optional values |

**How concurrency is modelled.** Each critical section, channel operation and goroutine step is one event
of a state machine. `Next` is the effect of an event and `Enabled` says when it is possible; a run is any
sequence of enabled events, so a theorem about `Run` holds in every interleaving. The classes
(`StreamBuffer`, `Hub`, `Broadcaster`, `TaskExecutor`, `Limiter`) hold the source's fields and update them
in place, with its loops; their methods end in exactly the state the machine's events give, some of them
together with the schedule of events they performed, which is how the theorems reach the code. Histories (accepted and dropped lines, places of executions, what a client
was sent) are ghost state or machine fields that no decision depends on.

**Clocks, inputs, outcomes.** Times are integers, one reading per operation. Step outcomes, evicted idle
clients, failing connections and the scheduler's choices are parameters or free events. A file is its bytes
as a string, or `None` when it cannot be opened. Characters stand for bytes.

**Where the code and its comments differ**, the code is modelled and the difference is a theorem:

- The limiter is called sliding but counts fixed windows, so one window can hold `2 * rate - 1` requests, and
  `2 * rate` when a visitor is made by `GetRetryAfter` or by the first of an `Allow`'s two clock readings
  (`RateLimits.BoundsAreReached`, `RateLimits.TwoReadings`). Cleanup is invisible with the same proviso.
- The Retry-After header truncates (`RateLimits.HeaderSufficesIff`).
- Block mode flushes instead of blocking, and a batch of several lines passes every level filter
  (`Pipelines.BatchPassesIff`).
- Batches are delivered in the order their goroutines run (`StreamBuffers.DeliveryKeepsOrderIff`).
- A repeated `Stop` does not wait (`StreamBuffers.SecondStopDoesNotDrain`, and exactly when it would not have
  had to: `StreamBuffers.RepeatedStopIsDoneIff`).
- An execution can stay queued after `Shutdown` (`ExecutorRuns.SubmitRacesClose`, exactly when:
  `ExecutorRuns.ShutdownLeavesExactly`).
- The connection limit is checked in `handleMessage` only. The server's one WebSocket route
  (internal/server/routes.go:26) leads to `wsLogsRealtime`, which subscribes without a check, and never to
  `ServeWS` and `handleMessage`: no client of the routed path meets `HubCounts.AllGuarded`, so
  `HubCounts.LimitHolds` says nothing about it. `HubWitnesses.UncheckedIgnoresTheLimit` is its run, and
  `HubCounts.LimitHoldsIff` the exact condition on every run, checked or not. Checks fail as well once an
  evicted client's deferred `Unsubscribe` has taken another client's count
  (`HubWitnesses.LimitNeedsClosesOnce`, exactly when: `HubCounts.CheckedSubscribeOverfillsIff`).
- A value containing `$` is expanded again (`EnvExpansion.ValuesAreRescanned`).

## Model

| member | source | states |
|---|---|---|
| StreamBuffers.Configured | internal/websocket/buffer.go:32-44 | the mode and the positive settings are the ones a buffer uses; a setting that is not positive becomes 50 lines or 1 MiB |
| StreamBuffers.RunKeepsInv | internal/websocket/buffer.go:62-181 | over every interleaving of adds, flushes, timer ticks, deliveries and stops: the byte counter is the sum of the buffered lines, both limits hold strictly between operations, every accepted line is in exactly one place in order, every dispatched batch is delivered, in flight or held by Stop, and every batch is non-empty and within the limits of its mode |
| StreamBuffers.NextKeepsInv | internal/websocket/buffer.go:62-181 | each single event keeps that invariant |
| StreamBuffers.ExactlyOnceAtStop | internal/websocket/buffer.go:99-130 | when the first Stop has returned, the delivered lines and the dropped lines together are the accepted lines as multisets, nothing is in flight or buffered, and Stop's own batch was delivered last |
| StreamBuffers.NothingAfterStop | internal/websocket/buffer.go:105-171 | whatever is called after Stop has returned, nothing changes any more |
| StreamBuffers.StopDrains | internal/websocket/buffer.go:105-130 | once stopped nothing is dispatched or accepted, each delivery lowers the in-flight count by one and nothing raises it, and some step is possible until Stop returns: the wait ends |
| StreamBuffers.StopDelivers | internal/websocket/buffer.go:105-130 | the steps of one Stop call only append to what was delivered, drop nothing, and account for every accepted line |
| StreamBuffers.SecondStopDoesNotDrain | internal/websocket/buffer.go:107-110 | a run in which a second Stop has returned while a batch is still in flight |
| StreamBuffers.RepeatedStopIsDoneIff | internal/websocket/buffer.go:105-130 | a call of Stop after the first changes nothing; everything accepted and not dropped is delivered then if and only if no goroutine is in flight and the first call holds no final batch |
| StreamBuffers.DropsExactlyWhen | internal/websocket/buffer.go:72-88 | Add drops a line exactly when drop-oldest mode is on, the buffer is not empty and the new line would exceed the byte limit; then it drops the oldest line only, so the line-count test never fires |
| StreamBuffers.ShortLinesNeverDropped | internal/websocket/buffer.go:62-90 | no run drops a line when all lines have at most L bytes and maxLines * L is at most maxBytes |
| StreamBuffers.BlockModeKeepsAll | internal/websocket/buffer.go:75-80 | in block mode the dispatched batches followed by the buffer are the accepted lines in order |
| StreamBuffers.DispatchedIsSubsequence | internal/websocket/buffer.go:62-90 | in either mode the dispatched lines are a subsequence of the accepted ones, with the positions given |
| StreamBuffers.DeliveryKeepsOrderIff | internal/websocket/buffer.go:164-170 | deliveries so far in dispatch order stay so if and only if the next goroutine to finish carries the batch dispatched next, which is the oldest in flight while goroutines finish in starting order |
| StreamBuffers.ScheduleStaysIff | internal/websocket/buffer.go:164-170 | what is delivered, then in flight in starting order, then held by Stop stays the same sequence under a delivery iff every earlier goroutine in flight carries an equal batch |
| StreamBuffers.OrderedDelivery | internal/websocket/buffer.go:164-170 | if goroutines finish in the order they started, batches are delivered in dispatch order |
| StreamBuffers.PermutedFlatten | internal/websocket/buffer.go:164-170 | delivering the same batches in any order delivers the same multiset of lines |
| StreamBuffers.StreamBuffer.FlushLocked | internal/websocket/buffer.go:153-171 | the mutable buffer ends in the machine's flushed state |
| StreamBuffers.StreamBuffer.DropOldestLocked | internal/websocket/buffer.go:174-181 | the oldest line leaves, with its bytes, and nothing else |
| StreamBuffers.StreamBuffer.Add | internal/websocket/buffer.go:62-90 | the mutable buffer takes exactly the machine's Add step |
| StreamBuffers.StreamBuffer.Flush | internal/websocket/buffer.go:93-97 | exactly the machine's Flush step |
| StreamBuffers.StreamBuffer.TimerFlush | internal/websocket/buffer.go:140-150 | exactly the machine's timer step, a no-op once stopped |
| StreamBuffers.StreamBuffer.WaitForFlushes | internal/websocket/buffer.go:123-125 | ends with nothing in flight, having performed deliveries only |
| StreamBuffers.StreamBuffer.Stop | internal/websocket/buffer.go:105-130 | performs a schedule of enter, deliveries and leave that is a run of the machine ending in Returned; a repeated call changes nothing |
| StreamBuffers.AddExactly | internal/websocket/buffer.go:62-90 | what Add leaves waiting, and what it dispatches and drops, said on the waiting lines alone: a line that does not fit beside them pushes out all of them in block mode and the oldest otherwise, and the result goes at once exactly if it has maxLines lines or maxBytes bytes |
| StreamBuffers.AddKeepsLine | internal/websocket/buffer.go:86-89 | an Add that leaves the buffer below both limits keeps the line behind the waiting ones, and dispatches and drops nothing |
| StreamBuffers.AddsDispatchOnlyWhenDue | internal/websocket/buffer.go:72-89 | over every run each batch dispatched by an Add has maxLines lines, or at least maxBytes bytes, or in block mode would have exceeded maxBytes with the line that pushed it out |
| StreamBuffers.FlushEmpties | internal/websocket/buffer.go:93-97 | a flush, and a timer tick before Stop, leaves no line waiting: the waiting lines are one more batch in flight, and an empty buffer dispatches none |
| HubStates.UnregisterOneMore | internal/websocket/hub.go:88-118 | unregistering one more client equals unregistering the larger set, truncated count decrements and removal of empty subscriber sets included |
| HubStates.UnregisterOrderIrrelevant | internal/websocket/hub.go:181-183 | unregistering distinct clients one by one has the same result in every order |
| HubRuns.Run | internal/websocket/hub.go:46-76 | in every reachable state a client in a subscriber set has the execution in its own set, no empty subscriber set is stored, and the converse holds for clients never unregistered |
| HubRuns.NextKeepsIndex | internal/websocket/hub.go:79-273 | each operation keeps that agreement |
| HubRuns.ChannelSafety | internal/websocket/hub.go:88-184 | if each client registers once and never subscribes after its unregistration, no Send channel is closed twice and no broadcast sends on a closed one |
| HubRuns.SecondUnregister | internal/websocket/hub.go:88-118 | a second unregisterClient changes no hub structure except the counts |
| HubRuns.AfterUnregister | internal/websocket/hub.go:98-114 | exactly the leaving clients leave a subscriber set, and the count falls by their number, not below zero |
| HubCounts.StepEffect | internal/websocket/hub.go:79-273 | what any operation does to one execution: one subscriber and one count more, or its closing clients less and the count lower by their number, not below zero |
| HubCounts.CountBalance | internal/websocket/hub.go:88-273 | in every run an execution's count is its number of subscribers, plus the repeated subscribes, minus the decrements that took no subscriber |
| HubCounts.CountIsSubscribersPlusRepeats | internal/websocket/hub.go:223-273 | in runs that close each subscription once, an execution's count exceeds its number of subscribers by exactly the number of repeated subscribes |
| HubCounts.LimitHolds | internal/websocket/client.go:107-111 | with atomic check-then-subscribe and subscriptions closed once, no execution ever has more subscribers than the limit |
| HubCounts.CountsStayBelow | internal/websocket/hub.go:287-294 | with all subscribes checked, counts never exceed the limit |
| HubCounts.CountStaysExactIff | internal/websocket/hub.go:88-273 | any operation, evictions and broadcasts included, keeps an exact count exact iff it is not a repeated subscribe and the clients that close the execution are all subscribers or include all of them |
| HubCounts.UnregisterStaysExactIff | internal/websocket/hub.go:98-114 | unregistering a set of clients keeps an exact count exact iff those that list the execution are all subscribers or include all of them |
| HubCounts.StepExceedsIff | internal/websocket/hub.go:223-243 | subscribers within the limit exceed it after an operation iff that is a subscribe by a client that is no subscriber, with the limit just reached |
| HubCounts.LimitHoldsIff | internal/websocket/hub.go:223-243 | over every run, checked or not, an execution stays within the limit throughout iff no such subscribe occurs |
| HubCounts.CheckedSubscribeOverfillsIff | internal/websocket/client.go:107-111 | the check of handleMessage lets a client exceed the limit iff the client is no subscriber, the limit is reached, and more decrements took no subscriber than there were repeated subscribes |
| HubStreams.BroadcastEffect | internal/websocket/hub.go:121-184 | a passing subscriber with room gains the message as its last item, a passing full one is unregistered everywhere, every other client is unchanged |
| HubStreams.FollowsWish | internal/websocket/hub.go:121-184 | while a client is not unregistered it has been sent exactly the broadcasts that its own subscribe, unsubscribe and filter requests ask for, in order |
| HubStreams.NoGaps | internal/websocket/hub.go:121-184 | a client that does not subscribe after its unregistration was sent exactly those broadcasts up to it, and none afterwards |
| HubStreams.SendIsFifo | internal/websocket/hub.go:159-172 | what a client has received, then what waits in Send, are the broadcasts sent to it in processing order |
| HubStreams.FilteredStream | internal/websocket/loglevel.go:70-100 | a client that has set the filter of a parameter listing some of the four levels, and makes no further request, is sent from then on exactly the broadcasts of its executions that have no level or a listed one |
| HubStreams.ReplyEffect | internal/websocket/client.go:168-180 | a reply becomes the last item of a queue with room and open channel, and nothing else changes |
| HubWitnesses.BroadcastCrashesIff | internal/websocket/hub.go:144-183 | a broadcast panics if and only if a subscriber passing the filter has a closed channel; evictions add no other way |
| HubWitnesses.LateSubscribeCrashes | internal/websocket/hub.go:223-243 | a run in which a subscribe after unregistration makes the next broadcast panic |
| HubWitnesses.HandlerTakesACount | internal/server/handlers.go:683-697 | for every channel capacity, a run of registered clients as the routed handler makes it: a slow client is evicted, another subscribes, and the deferred Unsubscribe and UnregisterClient leave a count of zero beside one subscriber |
| HubWitnesses.LimitNeedsClosesOnce | internal/server/handlers.go:690-697 | such a run, with the clients unchecked or all checked as one likes, in which a further check then lets a second subscriber through under a limit of one |
| HubWitnesses.UncheckedIgnoresTheLimit | internal/server/handlers.go:690-691 | the routed handler subscribes a second client although the limit of one reads as reached, even when every subscription is closed once |
| Hubs.OneMoreSent | internal/websocket/hub.go:144-175 | sender goroutines of different clients do not interfere: one more of them equals the larger set |
| Hubs.HandlingIsARun | internal/websocket/client.go:93-135 | handling any request extends a run by at most one guarded subscription change and one reply |
| Hubs.HandlingEffect | internal/websocket/client.go:93-135 | for every execution: the requester joins it exactly by a subscribe request below the limit and leaves it exactly by an unsubscribe request, with the count one up or down; no other client changes, and every request but a pong is answered if there is room |
| Hubs.Hub.RegisterClient | internal/websocket/hub.go:79-85 | exactly the machine's Register step |
| Hubs.Hub.CloseSend | internal/websocket/hub.go:88-94 | a registered client leaves the set and its channel is closed; an unregistered one is left alone |
| Hubs.Hub.LeaveAll | internal/websocket/hub.go:96-115 | the loop over the client's own subscriptions removes it from all of them and decrements their counts, in any order |
| Hubs.Hub.LeaveOne | internal/websocket/hub.go:99-113 | one execution: the client leaves its subscribers, an emptied set is deleted, and a positive count falls by one, a zero count being deleted |
| Hubs.Hub.JoinOne | internal/websocket/hub.go:229-240 | one execution: the client joins its subscribers, a missing set being created, and the count grows by one |
| Hubs.Hub.UnregisterClient | internal/websocket/hub.go:88-118 | the machine's unregistered state |
| Hubs.Hub.Evict | internal/websocket/hub.go:181-183 | the loop's result is the order-free unregistration of the whole set |
| Hubs.Hub.Send | internal/websocket/hub.go:149-172 | one goroutine: filter, non-blocking send, report of a full channel |
| Hubs.Hub.SendToAll | internal/websocket/hub.go:144-175 | all goroutines, in any order: who has the message and who is to be evicted |
| Hubs.Hub.BroadcastMessage | internal/websocket/hub.go:121-184 | exactly the machine's Broadcast step |
| Hubs.Hub.EvictIdleClients | internal/websocket/hub.go:188-208 | exactly the clients idle beyond the cutoff are unregistered; nothing when the timeout is off |
| Hubs.Hub.Subscribe | internal/websocket/hub.go:223-243 | both indexes gain the pair and the count grows by one, always |
| Hubs.Hub.Unsubscribe | internal/websocket/hub.go:246-273 | both indexes lose the pair and the count falls by one if positive, always |
| Hubs.Hub.ConnectionLimitReached | internal/websocket/hub.go:287-294 | true iff a positive limit is reached by the count |
| Hubs.Hub.SendMessage | internal/websocket/client.go:168-180 | a reply is queued if there is room and dropped otherwise |
| Hubs.Hub.HandleMessage | internal/websocket/client.go:93-135 | requests are checked, applied and answered as in the source |
| Broadcasters.Broadcaster.EnableBuffering | internal/websocket/broadcaster.go:34-46 | adds a fresh buffer of its own, with the configured limits and mode, for an execution without one, changes no other, and marks where the execution's messages on the channel begin |
| Broadcasters.Broadcaster.DeliverBatch | internal/websocket/broadcaster.go:42-44 | a delivery goroutine puts its batch on the channel; with Valid, each buffer's execution has on the channel since then exactly the batches its buffer has delivered |
| Broadcasters.Broadcaster.BroadcastLog | internal/websocket/broadcaster.go:65-80 | a line without a level goes into its buffer, or as an info message onto the channel |
| Broadcasters.Broadcaster.BroadcastLogWithLevel | internal/websocket/broadcaster.go:84-99 | a line of a buffered execution goes into its buffer only, any other line onto the channel only |
| Broadcasters.Broadcaster.FlushBuffer | internal/websocket/broadcaster.go:50-61 | removes the buffer; since EnableBuffering the channel holds of the execution exactly the batches delivered before and during the call, and in them every line accepted and not dropped |
| Broadcasters.Broadcaster.BroadcastComplete | internal/websocket/broadcaster.go:103-126 | the same, with the complete message behind all of it |
| Pipelines.BatchPassesIff | internal/websocket/buffer.go:190-231 | a batch of several lines passes every filter; a line that travels alone passes exactly if the client has no filter or its level, info for none, is a member of it |
| Pipelines.BatchMakes | internal/websocket/buffer.go:190-231 | a batch makes one message of its execution with its lines in order, a plain log message for a single line, and an empty batch none |
| Pipelines.CompletePasses | internal/websocket/broadcaster.go:103-126 | no filter holds back the complete message, which names the execution and its status |
| Pipelines.PipeKeepsInv | internal/executor/step.go:94-132 | in every interleaving of task goroutine, readers, timer, deliveries, other executions and hub, the execution's messages so far are those of its delivered batches, and no line is sent past its buffer |
| Pipelines.LoggedIsAccepted | internal/executor/step.go:94-132 | in every interleaving, every line logged so far is among the lines the buffer accepted or still in the hands of the task goroutine or a reader, each as often as it was logged; joining the readers before the buffer is removed is what makes it so |
| Pipelines.NeverBlocked | internal/websocket/broadcaster.go:50-126 | until the complete message is sent, the execution's goroutines or the hub have a step to take in every reachable state: neither the full channel nor the wait for deliveries blocks for good |
| Pipelines.OneLineArrives | internal/websocket/broadcaster.go:65-126 | a run in which a step's one line arrives as a message of its own with its level, and the complete message behind it |
| Pipelines.CompleteIsLast | internal/websocket/broadcaster.go:103-126 | the execution's messages are log messages until BroadcastComplete, then end in one complete message and carry every line logged in the run that was not dropped, as often as it was logged |
| Pipelines.SentCompleteLast | internal/executor/executor.go:150-156 | no message of the execution is put on the hub's channel after its complete message |
| Pipelines.ClientCompleteLast | internal/websocket/hub.go:121-184 | a client's stream consists of processed messages and keeps the complete message last |
| Pipelines.EveryClientSeesCompleteLast | internal/websocket/hub.go:46-76 | in every client's received and queued broadcasts no message of the execution follows its complete message |
| Pipelines.ListenerSeesWholeExecution | internal/websocket/hub.go:121-184 | a client that listens unfiltered throughout and is not unregistered was sent every line logged in the run that was not dropped, then the complete message |
| Executors.RunKeepsInv | internal/executor/executor.go:48-125 | in every reachable state the queue holds at most 2 * maxWorkers distinct executions, and queue, workers, drain and histories agree on where each execution is and on its status and steps |
| ExecutorRuns.OnePlace | internal/executor/executor.go:48-125 | a non-terminal execution is in exactly one place, a terminal one in none |
| ExecutorRuns.RunKeepsCounts | internal/executor/executor.go:39-57 | the wait-group counter is the number of live workers even across panic restarts, and at most maxWorkers run the loop |
| ExecutorRuns.RunningBounded | internal/executor/executor.go:48-81 | at most maxWorkers executions are running, besides those whose worker panicked |
| ExecutorRuns.NoOrphansWithoutPanics | internal/executor/executor.go:50-57 | without panics there are no such executions |
| ExecutorRuns.PanicOrphans | internal/executor/executor.go:50-57 | a panic in the middle of a task leaves its execution running |
| ExecutorRuns.OrphansStay | internal/executor/executor.go:50-57 | nothing ever ends such an execution |
| ExecutorRuns.StatusesFollowLegalPaths | internal/executor/state.go:103-110 | over every run an execution's statuses follow queued, running, success or failed; queued, failed; or queued, cancelled; and end in its current status |
| ExecutorRuns.CancelledOnlyByShutdown | internal/executor/executor.go:265-269 | an execution is cancelled only after shutdown has begun |
| ExecutorRuns.FewLateStarts | internal/executor/executor.go:71-78 | at most maxWorkers executions start after the context is cancelled |
| ExecutorRuns.StepsExplainStatus | internal/executor/executor.go:165-227 | recorded steps are a prefix of the task, all but possibly the last successful, and determine the final status; queued and cancelled executions have none |
| ExecutorRuns.StuckByEvents | internal/executor/executor.go:50-124 | an execution is with its submitter iff its record has no send after it, lost iff it was sent after the queue was closed, and orphaned iff a worker panicked while executing it |
| ExecutorRuns.ShutdownLeavesExactly | internal/executor/executor.go:230-261 | when Shutdown has returned nil an execution is terminal iff it was sent, not after the queue was closed, and no worker panicked on it; it is running iff one did |
| ExecutorRuns.AtomicSubmitsLoseNothing | internal/executor/executor.go:84-125 | when SubmitTask runs as one step, none is left between record and send or on the closed queue |
| ExecutorRuns.CleanShutdown | internal/executor/executor.go:230-261 | with SubmitTask as one step and no panics, Shutdown returning nil leaves every execution terminal |
| ExecutorRuns.SubmitRacesClose | internal/executor/executor.go:84-125 | a run without panics in which Shutdown returns nil and an execution stays queued for ever |
| ExecutorProgress.QueueIsFifo | internal/executor/executor.go:115-124 | over every run, the executions taken by workers and by the drain loop, followed by those in the queue, are in order those whose send found the queue open with fewer than 2 * maxWorkers in it |
| ExecutorProgress.StatusesByEvents | internal/executor/executor.go:48-160 | over every run, an execution has failed without steps iff its send found 2 * maxWorkers queued, is cancelled iff a worker or the drain loop called it off after the cancel, running iff a worker started and has not finished it, finished iff a worker did, and queued iff none of this has happened |
| ExecutorProgress.FullyStaffed | internal/executor/executor.go:39-57 | until the context is cancelled exactly maxWorkers goroutines run the worker loop, panics or not |
| ExecutorProgress.NeverStuck | internal/executor/executor.go:60-81 | with at least one worker, while an execution is sent and not final, and no worker panicked on it, a worker or Shutdown has a step to take, at any point of a shutdown |
| ExecutorProgress.RemainingFalls | internal/executor/executor.go:60-160 | every step on an execution's way through the pool lowers the number of steps it has left at the most, and no other step raises it |
| ExecutorProgress.FewSteps | internal/executor/executor.go:60-160 | in every run at most one step for each step of its task and six more concern an execution |
| TaskExecutors.RunStepsRecords | internal/executor/executor.go:165-198 | running steps until the first failure records exactly the prefix up to it |
| TaskExecutors.RecordsAllOk | internal/executor/executor.go:165-198 | the record succeeds as a whole iff every outcome does |
| TaskExecutors.SchedulesExtendRuns | internal/executor/executor.go:48-125 | the steps a call performs in a reachable state extend its run, so that the state after the call is reachable |
| TaskExecutors.TaskExecutor.UpdateExecutionStatus | internal/executor/state.go:103-110 | overwrites the status of a known execution and nothing else |
| TaskExecutors.TaskExecutor.AddStepExecution | internal/executor/state.go:147-154 | appends one step to a known execution and nothing else |
| TaskExecutors.TaskExecutor.SubmitTask | internal/executor/executor.go:84-125 | an accepted execution is recorded as queued and is the last one in the queue; a queue of 2 * maxWorkers leaves the queue alone and the execution failed, a closed one leaves it queued in name only, a cancelled context changes nothing; all of it is the machine's Submit step |
| TaskExecutors.TaskExecutor.RunTaskSteps | internal/executor/executor.go:165-198 | the loop performs one RecordStep of the machine for every step up to the first failure, changes only that execution's steps, and reports whether one failed |
| TaskExecutors.TaskExecutor.FinalizeExecution | internal/executor/executor.go:202-227 | the machine's Finalize step |
| TaskExecutors.TaskExecutor.ExecuteTask | internal/executor/executor.go:128-160 | a whole task performs exactly the steps Begin, a RecordStep for each step up to the first failure, and Finalize; it leaves the records of its outcomes, and success iff all succeed |
| TaskExecutors.TaskExecutor.DrainQueue | internal/executor/executor.go:242-244 | the loop performs DrainTake and DrainCancel steps only and ends with an empty queue |
| TaskExecutors.TaskExecutor.ShutdownQueue | internal/executor/executor.go:230-244 | shutdown up to the wait performs CancelContext, CloseQueue, drain steps and DrainEnd |
| RateLimits.WindowBound | internal/ratelimit/ratelimit.go:51-73 | any closed interval of one window holds at most 2 * rate allowed requests of an address in every trace with a monotone clock, and at most 2 * rate - 1 when every Retry of the trace finds its visitor, so that only counted requests make one |
| RateLimits.NeverDeniedEarly | internal/ratelimit/ratelimit.go:51-73 | in every trace with a monotone clock a request is allowed whenever fewer than rate were allowed within the window before it |
| RateLimits.TwoReadings | internal/ratelimit/ratelimit.go:51-73 | an Allow whose getVisitor reads the clock before Allow does is a Retry at the first reading and a Request at the second; with equal readings it is the Request alone |
| RateLimits.BoundsAreReached | internal/ratelimit/ratelimit.go:51-87 | traces that reach both bounds |
| RateLimits.VisitorStays | internal/ratelimit/ratelimit.go:140-158 | a visitor seen at a time is still there within two windows, whatever other requests and cleanups come between |
| RateLimits.FollowingRequestsIsEnough | internal/ratelimit/ratelimit.go:90-96 | when every GetRetryAfter comes within two windows of an Allow for the same address, as the middleware calls it, it finds that address's visitor |
| RateLimits.CleanupIsInvisible | internal/ratelimit/ratelimit.go:140-158 | every answer of Allow, and every delay reported for a visitor that is found, is the one a limiter that never cleans up gives |
| RateLimits.OnlyRecentVisitorsStay | internal/ratelimit/ratelimit.go:145-154 | a cleanup leaves exactly the visitors last seen within two windows, each of which has made a call within them |
| RateLimits.RetryDelayIsExact | internal/ratelimit/ratelimit.go:76-87 | after a denial the address is allowed strictly after the reported delay and denied until then, whatever the others do |
| RateLimits.HeaderSeconds | internal/ratelimit/ratelimit.go:178-181 | the header is the delay in whole seconds rounded down, and one for a delay below a second |
| RateLimits.HeaderSufficesIff | internal/ratelimit/ratelimit.go:178-181 | waiting exactly the Retry-After seconds suffices iff the delay was below one second |
| RateLimits.RunIsTimely | internal/ratelimit/ratelimit.go:51-73 | in every run a visitor's reset time is at most one window after its last request |
| RateLimits.VisitorRecord.CountRequest | internal/ratelimit/ratelimit.go:54-72 | the locked part of Allow on the visitor's fields |
| RateLimits.Limiter.GetVisitor | internal/ratelimit/ratelimit.go:122-137 | finds the address's record or makes a fresh one, and keeps records distinct |
| RateLimits.Limiter.Allow | internal/ratelimit/ratelimit.go:51-73 | with its two clock readings: the answer and the new state of the model, other visitors untouched |
| RateLimits.Limiter.GetRetryAfter | internal/ratelimit/ratelimit.go:76-87 | with its three clock readings: the delay until the reset, zero once it is past; may create a visitor |
| RateLimits.Limiter.CleanupVisitors | internal/ratelimit/ratelimit.go:145-154 | with a clock reading for each visitor: a visitor stays iff its reading is at most two windows past its last request |
| LogFiles.ScannerAgrees | internal/executor/logs.go:117-122 | the scanner yields the split lines without trailing carriage return, and stops with an error exactly at the first line that reaches its limit |
| LogFiles.ScannerStripsOne | internal/executor/logs.go:117-122 | a scanned line is the file's line without one carriage return at its end, and otherwise the line as it stands |
| LogFiles.PiecesAgree | internal/server/handlers.go:845-861 | reading to the line feed yields one piece per split line, all but an unterminated last one with its line feed |
| LogFiles.PiecesAreAll | internal/server/handlers.go:845-861 | the pieces concatenate to the file |
| LogFiles.SplittersCountAlike | internal/executor/logs.go:105-190 | split and read-to-newline always count alike, and the scanner does iff every line is below its limit |
| LogFiles.LevelsAgree | internal/server/handlers.go:811-812 | the level of a streamed line is the level of the same line in a segment, despite line feed and carriage return |
| LogFiles.CountFileLines | internal/executor/logs.go:105-129 | the number of lines the scanner yields, and an error iff the file cannot be opened or scanned |
| LogFiles.ReadLogSegment | internal/executor/logs.go:133-167 | the requested range of scanned lines as far as it exists, the total, and the error |
| LogFiles.TailLogFile | internal/executor/logs.go:170-190 | a suffix of the lines of the requested length, all of them if there are fewer, and a panic iff the number is negative |
| LogFiles.ParseSegmentParams | internal/server/handlers.go:428-447 | a count from 1 to 5000 is kept, a smaller one becomes 500 and a larger one 5000; a negative start becomes 0; an empty mode becomes head |
| LogFiles.BuildSegmentLineEntries | internal/server/handlers.go:459-469 | entry i is line i with its level and the number start + i |
| LogFiles.SegmentLogs | internal/server/handlers.go:488-520 | the handler serves the window of the file's lines that Served describes, or an error |
| LogFiles.ServedAsHeadOrTail | internal/server/handlers.go:428-498 | a request with any mode but tail is served as head, a negative start as 0, and tail mode takes no notice of the start |
| LogPages.PaginationTilesTheFile | internal/server/handlers.go:500-507 | on a file the scanner can read, following has_more from the start shows every line once, in order, numbered from 0, with the least number of requests the page size allows |
| LogPages.TailModeIsTail | internal/server/handlers.go:490-498 | tail mode shows the lines TailLogFile returns up to a trailing carriage return, with their numbers, and nothing follows |
| LogStreams.StreamCarriesWanted | internal/server/handlers.go:827-864 | every message of a stream but the last is full and none is empty, a message is a plain log message iff it has one line, and together they carry the filtered lines in order |
| LogStreams.StreamShows | internal/server/handlers.go:806-864 | the streamed lines stand at increasing positions of the file; position i is among them iff i >= startLine and there is no filter or the line's level is a member of it; each is shown with its level |
| LogStreams.StreamLogFileLines | internal/server/handlers.go:827-864 | the one-pass code with its reused batch sends exactly the filtered lines cut into batches, one by one for a batch size of zero, and exactly a prefix of them when a send fails |
| LogStreams.PendingBatch.Append | internal/server/handlers.go:851-854 | a line joins the reused batch, and a full batch is sent and cleared |
| LogStreams.SendLogBatch | internal/server/handlers.go:132-158 | one message per non-empty batch, a plain log message for a single line |
| LogStreams.SegmentsThenStream | internal/server/handlers.go:806-809 | the first k lines from segments and a stream from startLine k show every line of the file once, with the same level |
| LogStreams.ChunksCut | internal/server/handlers.go:830-863 | batches are non-empty, at most batchSize long, and full except the last |
| LogStreams.ChunksConcat | internal/server/handlers.go:830-863 | batches concatenate to the lines they were cut from |
| EnvExpansion.TemplatesExpand | internal/config/envexpand.go:67-104 | for every template of literals and references with dollar-free values whose simple names end where the tokens do, the two passes replace each reference by its variable's value, or by the default, nothing, or its own text when the variable is unset or empty, and change nothing else |
| EnvExpansion.ReferencesExpand | internal/config/envexpand.go:79-101 | a reference on its own: the value of a variable that is set and not empty; otherwise the default of a braced reference, nothing without a default, and a simple reference as it stands |
| EnvExpansion.MatchIsBraced | internal/config/envexpand.go:12-14 | the first pattern matches nothing but a name in braces, with or without a default free of closing braces |
| EnvExpansion.BracedPassIsHalf | internal/config/envexpand.go:68-86 | the first pass replaces exactly the braced references, whatever their values and defaults contain |
| EnvExpansion.ExpandRescans | internal/config/envexpand.go:88-101 | without conditions on values, expansion is each token's value scanned once more |
| EnvExpansion.SimplePassSplits | internal/config/envexpand.go:89-101 | wherever no name can run across the border of two texts, the second pass treats them separately |
| EnvExpansion.SimpleTakesMore | internal/config/envexpand.go:14-16 | a simple reference takes every name character that follows it after the first pass |
| EnvExpansion.InertTextIsKept | internal/config/envexpand.go:12-16 | text in which no dollar sign is followed by a brace or a name character is kept, as is a dollar sign at its end |
| EnvExpansion.ValuesAreRescanned | internal/config/envexpand.go:85-104 | a braced reference to a value with a reference in it expands twice |
| EnvExpansion.NamesRunOn | internal/config/envexpand.go:67-104 | a simple reference followed by a braced one grows into its value |
| EnvExpansion.ExpandEnvironment | internal/config/envexpand.go:49-55 | every value is expanded and the keys are kept |
| EnvExpansion.ExpandTask | internal/config/envexpand.go:42-62 | name, description and working directory of a task, the values of its environment, and name and command of each step are expanded; tags, timeout, keys and the number of steps are kept |
| EnvExpansion.ExpandEnvVars | internal/config/envexpand.go:34-64 | exactly the listed configuration fields change, in place |
| LogLevels.ParseLevelFilter | internal/websocket/loglevel.go:70-88 | the filter is the set of recognised comma-separated levels, and none when there is no such level or the parameter is all |
| LogLevels.FilterIsListed | internal/websocket/loglevel.go:70-88 | a filter contains a level iff it is one of the four and the parameter lists it in any case, and there is none iff the parameter is all or lists no such level |
| LogLevels.LevelByMarks | internal/websocket/loglevel.go:30-66 | the level of a line is decided by the marks that stand in it in any case: bracketed ones first, then level= fields, then single words, errors before warnings before info before debug, and info without a mark |
| LogLevels.ContainsIff | internal/websocket/loglevel.go:57-63 | a text contains another iff that stands somewhere in it |
| LogLevels.TrimSpaceTakes | internal/websocket/loglevel.go:71-76 | trimming takes blank characters from both ends and nothing else |
| LogLevels.EveryLineHasALevel | internal/websocket/loglevel.go:30-66 | every line gets one of the four levels, so a filter naming all four hides nothing |
| Text.SplitJoin | internal/executor/logs.go:177-177 | splitting is the only way to write a text as separator-free parts |

## Left out

- StreamBuffers.OrderedDelivery: assumes that goroutines finish in starting order; the source does not enforce it, and `DeliveryKeepsOrderIff` says exactly when one delivery keeps the order.
- Hubs.Hub.Subscribe: one atomic step, where the source takes three locks in turn; the gaps between them are not modelled.
- Hubs.Hub.Unsubscribe: one atomic step, where the source takes three locks in turn.
- HubStreams.BroadcastEffect: a client has room when its queue is shorter than its capacity; a channel of capacity zero, on which the source's send succeeds while a receiver waits, is not modelled (the configured capacity is 256).
- RateLimits.CleanupIsInvisible: an operation of a trace reads the clock once; a visitor made anew with two different readings has a period that starts at the first one.
- RateLimits.RetryDelayIsExact: the delay is read with one clock reading.
- TaskExecutors.TaskExecutor.DrainQueue: no worker step comes between the iterations; those interleavings are runs of the machine.
- TaskExecutors.TaskExecutor.ShutdownQueue: no worker step comes between cancel, close and drain; those interleavings are runs of the machine.
- Broadcasters.Broadcaster.FlushBuffer: the messages of batches delivered while Stop waits are put on the channel when it has returned; other executions' messages come between them in the machine of `Pipelines` only.
- HubCounts.LimitHolds: takes the check and the subscription of `handleMessage` as one step, and `wsLogsRealtime`, which subscribes without a check, is outside its premise.
- Hubs.Hub.SendMessage: a reply to a client whose channel is closed panics in the source and is recovered by its read pump; the model drops the reply.
- HubRuns.ChannelSafety: a broadcast is one step, so a subscription made between its snapshot and its sends counts as made after it.
- Executors.RunKeepsInv: worker panics are modelled while a task runs or its completion is broadcast, the only places where the source calls code that may panic; a second call of `Shutdown` panics in the source and is not modelled.
- TaskExecutors.TaskExecutor.SubmitTask: the class performs all of it at once; its separate steps are events of the machine only.
- Pipelines.CompleteIsLast: one execution in full; other executions appear as arbitrary messages on the shared channel.
- RateLimits.HeaderSufficesIff: the delay is an integer number of nanoseconds; the floating-point conversion in `formatDuration` is taken as exact.
- LogFiles.ReadLogSegment: takes a count that is not negative, as `make` does; the only caller passes 1 to 5000.
- EnvExpansion.TemplatesExpand: conditions on values and followers are sufficient; what happens without them is `ExpandRescans` and `SimpleTakesMore`. A literal contains no dollar sign before a brace, so text such as an unclosed reference is covered by `MatchIsBraced` only.
- ExecutorProgress.NeverStuck: a step is possible and, by `FewSteps`, an execution takes finitely many; that the scheduler does take them is not claimed.
- Pipelines.NeverBlocked: a step is possible; that the scheduler takes it is not claimed.
- LogLevels.ParseLevelFilter: lower-casing and trimming know ASCII only.
- JSON encoding, message timestamps and execution timestamps: messages are datatypes.
- Sockets, pings, write deadlines, the read and write pumps beyond what they take from and put on Send.
- Process execution and pipes: a step's outcome is given; its two readers appear as loggers.
- Writing of log files and the directory listing of `ListTaskLogs` and `GetLogFilePath`.
- `GetStats`, `GetLatestExecution`, `ListExecutions` and `copyExecution`: reads over one map with easy claims.
- Hub `Shutdown` and `Stop`: a sequence of Unregister events, covered as such.
- HTTP routing, authentication, sessions, CSRF, audit logging, templates and assets.
