# A verified model of BreadMind's stateful cores

BreadMind runs long coding jobs, schedules agents and plugins, and pushes events
to browsers through a relay written in Go. This project models the parts whose
correctness depends on whole runs and interleavings, and proves what they keep.
Every section of the original that runs without suspending, or under one lock, is
one atomic step. Code that updates objects in place is a class whose methods are
proved against a function on values, and the theorems over runs are about that
function.

| modules | what they model |
|---|---|
| `JobModels`, `JobStore`, `JobDbWriter`, `JobTracker`, `WriteBehind`, `JobHistory`, `JobHealth` | the coding-job pipeline: the tracker's in-memory jobs, the bounded write queue with its worker, and the rows with their "NULL / empty keeps the old value" updates; what jobs and rows say, read off the calls; why writes are lost, and that a healthy run loses none |
| `LogBuffer`, `LogDrain`, `JobLogStream`, `JobLogOrder` | log batching with a cap, a wake event, forced keys and a background drain; which lines a drain hands over, read off the events; line numbering and its wait behind the write queue; the order in which lines arrive |
| `Subscription`, `Registry`, `AclCache`, `Invalidation`, `Relay`, `RelayDelivery`, `RelayHistory`, `RelayServer` | the relay: the two-way subscription index, the connection registry, the per-connection ACL cache, invalidation names; the transition system of read loops, dispatches and the ACL goroutine with one output log per connection; when a live event can reach a connection; what caches, subscriptions and replays are, read off the steps; and the handlers, tied to runs of that system |
| `PluginLoader`, `DagExecutor`, `TaskBoard`, `TaskHistory` | depth-first plugin order, batched graph execution, claiming under dependencies |
| `CircuitBreaker` | the timed breaker with calls in flight across its state changes |
| `SessionFork`, `Checkpoints` | branch-tree search and truncating history |
| `Prelude` | options, insertion-ordered dictionaries, two-level sets, stable sorting |

The update rules are stated as functions that the methods are proved against, and what
these functions amount to is stated apart from them: the `History` modules and `LogDrain`
read the state off the events of a run, by the last call or step that decided it.

`dafny verify dfyconfig.toml` checks the whole project.

## What the proofs found

Where a promised or expected property fails, three things are proved: a run from the
initial state in which it fails, the exact condition under which it holds, and what
still holds without the condition.

- **Log lines can enter the buffer out of numeric order**: a call made once the write
  queue has drained enters at once, past calls that are still to be resumed
  (`JobLogOrder.NumbersCanArriveOutOfOrder`). A run keeps a key's lines in call order
  if and only if no call overtakes (`JobLogOrder.ArrivalInOrderIff`), and the next
  call can overtake if and only if an earlier one for the key has not returned
  (`JobLogOrder.NextCallCanOvertakeIff`); calling `append` for a key one at a time is
  therefore enough (`JobLogOrder.OneAtATimeArrives`).
- **"history, then ack, then live" is not what the relay does.** The comment at
  `rt-relay/internal/transport/ws.go:175-180` promises that order, but registration
  precedes the ack, so a live event can come first (`RelayDelivery.LiveCanPrecedeAck`).
  The ack does come first when no dispatch of the channel starts between the two
  (`RelayDelivery.AckBeforeLive`), and from any reachable state a live event can still
  get ahead if and only if there is no ack yet and the connection is already
  subscribed or about to be delivered to (`RelayDelivery.EarlyLiveIff`). History
  before live always holds (`Relay.BackfillBeforeLive`).
- **A revocation does not stop delivery**: it changes the cache, and whether a live
  event can still reach a connection does not depend on the cache
  (`RelayDelivery.LiveReachesIff`, `RelayDelivery.RevokedStillReached`).
- **A failed dependency, or a loop cancelled with a task in hand, blocks a board for
  good.** With one more `start` it can be finished if and only if there is neither
  (`TaskBoard.FinishableIff`). The loops there are can finish it if and only if, besides,
  no task is pending or the team is running with a loop that has not ended
  (`TaskBoard.FinishableAsStaffedIff`). Loops end for good when they find the board all
  done, as an empty one is, so a task added later can be stranded
  (`TaskBoard.LateTaskStranded`).
- **The default breaker cannot recover by itself.** With one probe per half-open
  episode and a success threshold of two, five failed calls open a circuit that never
  closes without a reset (`CircuitBreaker.DefaultGetsStuck`), and after one more probe,
  even one that succeeds, it never admits a call again (`CircuitBreaker.DefaultShutsOut`).
  For every configuration, `CircuitBreaker.RecoverableIff` says when a circuit can still
  close, and `CircuitBreaker.AdmitsAgainIff` when it can still admit a call.
- **An empty text never overwrites a stored one.** A second `complete_job` without
  a session id or error, or a second `complete_phase` without output, leaves the
  old text in the row while the tracker holds the empty one
  (`WriteBehind.SessionCanDiverge`, `WriteBehind.OutputCanDiverge`), exactly when the
  new text is empty and the stored one is not, given a row (`WriteBehind.SessionMirrorsIff`,
  `WriteBehind.OutputMirrorsIff`).
- **Re-created ids and re-set phases keep their old rows**
  (`WriteBehind.CreateCanDiverge`, `WriteBehind.SetPhasesCanDiverge`). The status in
  the row agrees afterwards exactly when every old row was still pending and, for phases,
  the job itself has its row
  (`WriteBehind.CreateMirrorsIff`, `WriteBehind.SetPhasesMirrorsIff`).
- **Re-adding a connection id for another user makes the old user's lookup return that
  user's connection** (`Registry.TakeoverMisleads`). Lookups are right all along a run if
  and only if it never re-adds an id that is registered for somebody else (`Registry.RunLooksUpIff`). The index
  entry so left over outlives the connection and misleads again when the id is added
  later (`Registry.LeftoverMisleads`); from any table whose lookups are right, one addition
  keeps them right if and only if the id stands under no other user in the index
  (`Registry.AddedLooksUpIff`).
- **`on_drop` over-reports for a negative cap**, and is exact otherwise (`LogBuffer.DropTotals`).

## Model

| member | source | states |
|---|---|---|
| `WriteBehind.Simulation` | src/breadmind/coding/job_tracker.py:69-212 | In every state of every proper run, for every tracked job none of whose own writes was lost, applying the write in flight and then the queued ones to the current rows gives rows agreeing with the tracker on that job and its phases: status, total, times, duration, files, and every non-empty text, whatever was lost of other jobs. A run without any loss agrees on every job. |
| `WriteBehind.Drained` | src/breadmind/coding/job_db_writer.py:106-114 | As soon as a job's own writes are all in the rows, the stored rows themselves mirror it, whatever else is queued or lost; with an empty queue, an idle worker and no loss they mirror the whole tracker. |
| `WriteBehind.StepMirrors` | src/breadmind/coding/job_tracker.py:69-212 | One lifecycle call, followed by its writes, keeps the mirror for the touched job and for all others, eviction included. |
| `WriteBehind.RunMirrors` | src/breadmind/coding/job_tracker.py:69-212 | Over every proper interleaving of calls and worker steps, replaying everything scheduled onto the initial rows mirrors the tracker. |
| `WriteBehind.SetPhasesMirrors` | src/breadmind/coding/job_tracker.py:104-118 | The two writes of `set_phases` bring row and tracked job into agreement, first occurrence of each step included, and touch no other job. |
| `WriteBehind.PhaseCallMirrors` | src/breadmind/coding/job_tracker.py:120-166 | Starting and completing a phase keep the mirror, also when the step is unknown. |
| `WriteBehind.JobCallMirrors` | src/breadmind/coding/job_tracker.py:168-212 | Status-only and terminal job calls keep the mirror through the patch rules of the store. |
| `WriteBehind.FreshCallsAreProper` | src/breadmind/coding/job_tracker.py:69-118 | A condition on the calls alone suffices: ids created once and not in the initial rows, and at most one `set_phases` per job. |
| `WriteBehind.CreateMirrorsIff` | src/breadmind/coding/job_store.py:29-59 | After creating a job its row status agrees if and only if the id had no row or a pending one. |
| `WriteBehind.SetPhasesMirrorsIff` | src/breadmind/coding/job_store.py:139-162 | After setting phases of a tracked job the statuses agree if and only if the job has its row and every row already there for those steps was pending. |
| `WriteBehind.SessionMirrorsIff` | src/breadmind/coding/job_store.py:61-98 | After completing a job, session id (and likewise error) agree if and only if the job has its row and the new text is non-empty or the stored one was empty. |
| `WriteBehind.OutputMirrorsIff` | src/breadmind/coding/job_store.py:164-198 | After completing a phase its output agrees if and only if the phase has its row and the new text is non-empty or the stored one was empty. |
| `WriteBehind.SessionCanDiverge` | src/breadmind/coding/job_tracker.py:168-198 | A proper run from the empty tracker and store, two completions of one job, after which the session ids differ. |
| `WriteBehind.OutputCanDiverge` | src/breadmind/coding/job_tracker.py:139-166 | A run from the empty state, two completions of one phase, after which the outputs differ. |
| `WriteBehind.CreateCanDiverge` | src/breadmind/coding/job_tracker.py:69-94 | A run from the empty state that re-creates an id and leaves the old status in the row. |
| `WriteBehind.SetPhasesCanDiverge` | src/breadmind/coding/job_tracker.py:104-118 | A run from the empty state that sets phases again after one has started and leaves the old status in the row. |
| `JobHistory.TrackedAsTold` | src/breadmind/coding/job_tracker.py:69-212 | In every run a tracked job is what the calls since its creation tell. Status: completed or failed if the last call that sets it was a completion, with or without success; else cancelled if a cancellation came after it; else running, decomposing or pending by that call. Finish time and duration: the last call that ended it. Session id and error: the last completion. Phases: those last set, each first of its step with the times, status, files and the first 500 characters of output of the last start and the last completion of the step. |
| `JobHistory.RowsAsTold` | src/breadmind/coding/job_db_writer.py:106-114 | In every proper run, once a tracked job's own writes are in, its row and the rows of its phases are what the calls tell: status, times, total, files, and every non-empty text. |
| `JobHistory.LiveJobsTracked` | src/breadmind/coding/job_tracker.py:307-322 | In every run a job that was created and has not been ended since is tracked, however many others were evicted. |
| `JobHistory.HistoryBounded` | src/breadmind/coding/job_tracker.py:307-322 | Completing a job leaves of the completed, failed and cancelled ones tracked, this one included, exactly fifty, or all if they are fewer. |
| `JobHistory.PhaseEndDrains` | src/breadmind/coding/job_tracker.py:161-166 | When the forces a completed phase sends have reached the log buffer, the next snapshot hands over everything buffered for the phase. |
| `JobHealth.HealthyRunsMirror` | src/breadmind/coding/job_db_writer.py:64-104 | If callers respect what they must, the database always answers and every call finds room in the queue, no write is ever lost or refused, so at every moment the outstanding writes over the rows mirror the whole tracker, and the rows alone do when none is left. |
| `JobHealth.EndedIff` | src/breadmind/coding/job_db_writer.py:92-102 | In every run a statement has returned if and only if the database answered while it was in flight and did not refuse it, and raised if and only if the database failed or refused it for inserting phases of a job without a row. |
| `JobStore.InsertRowsAt` | src/breadmind/coding/job_store.py:139-162 | Bulk insertion keeps every existing row and adds, for each new step, a pending row titled by the first occurrence of the step, and nothing else. |
| `JobStore.ApplyIdempotent` | src/breadmind/coding/job_store.py:29-198 | Re-running any committed statement changes nothing. |
| `JobStore.ForeignKeyKept` | src/breadmind/storage/migrations/versions/007_coding_jobs.py:40-51 | No statement leaves a phase row without its job row, and none removes a job row. |
| `JobStore.SliceReplay` | src/breadmind/coding/job_store.py:29-198 | One job's rows after any sequence of statements are what its own statements make of its own rows. |
| `JobStore.Store.Execute` | src/breadmind/coding/job_store.py:29-198 | Executing a statement on the rows is the specified update; it raises exactly for phases of a job without a row. |
| `JobStore.Store.InsertAll` | src/breadmind/coding/job_store.py:139-162 | The row-by-row loop computes the bulk insertion and touches only phases. |
| `JobDbWriter.OneFate` | src/breadmind/coding/job_db_writer.py:64-104 | In every run each scheduled write is exactly one of queued, in flight, executed, failed, dropped, and nothing unscheduled is any of them. |
| `JobDbWriter.RunRows` | src/breadmind/coding/job_db_writer.py:89-104 | In every run the rows are the initial rows with the successful writes applied in schedule order. |
| `JobDbWriter.OutstandingCompletes` | src/breadmind/coding/job_db_writer.py:64-104 | Without losses, applying the outstanding writes to the current rows equals applying everything scheduled to the initial rows, even between a commit and its acknowledgement. |
| `JobDbWriter.OwnCompletes` | src/breadmind/coding/job_db_writer.py:64-104 | The same for the rows of one job when only that job's writes are known not to be lost. |
| `JobDbWriter.OwnInRows` | src/breadmind/coding/job_db_writer.py:89-104 | Once all of a job's writes have run, its rows are those of running everything scheduled. |
| `JobDbWriter.RunAccounted` | src/breadmind/coding/job_db_writer.py:64-104 | Over every run, accepted writes (finished, in flight, queued) stay in schedule order, are disjoint from the dropped ones, and together with them are all that was scheduled. |
| `JobDbWriter.QueueBounded` | src/breadmind/coding/job_db_writer.py:64-78 | In every run a positive bound on the queue is never exceeded, and the next write is lost if and only if no loop is running or the queue holds as many as the bound. |
| `JobDbWriter.JobRowIff` | src/breadmind/coding/job_store.py:29-59 | At every step a job has a row if and only if it had one initially or an insertion of it has run. |
| `JobDbWriter.DbWriter.Schedule` | src/breadmind/coding/job_db_writer.py:64-78 | Drops exactly without a running loop or on a full queue, otherwise enqueues at the end. |
| `JobDbWriter.DbWriter.Get` | src/breadmind/coding/job_db_writer.py:89-91 | The worker takes the oldest queued write. |
| `JobDbWriter.DbWriter.Await` | src/breadmind/coding/job_db_writer.py:92-102 | Running the write changes the rows as the statement says; a raise changes nothing. |
| `JobDbWriter.DbWriter.TaskDone` | src/breadmind/coding/job_db_writer.py:103-104 | The write is recorded as finished whether it succeeded or raised. |
| `JobTracker.CleanupKeepsNewest` | src/breadmind/coding/job_tracker.py:307-322 | Eviction removes only terminal jobs, leaves the rest untouched, leaves exactly the lesser of the limit and the number of terminal jobs, and every evicted job finished no later than every kept terminal one. |
| `JobTracker.VictimsOldest` | src/breadmind/coding/job_tracker.py:307-322 | Each victim finished no later than every terminal job that is not a victim. |
| `JobTracker.Tracker.Create` | src/breadmind/coding/job_tracker.py:69-94 | Stores a pending job and schedules its insertion. |
| `JobTracker.Tracker.Decomposing` | src/breadmind/coding/job_tracker.py:96-102 | Sets the status and schedules it; unknown ids change nothing. |
| `JobTracker.Tracker.Phases` | src/breadmind/coding/job_tracker.py:104-118 | Replaces the phases and schedules the rows and the total, in that order. |
| `JobTracker.Tracker.Start` | src/breadmind/coding/job_tracker.py:120-137 | Updates the first phase with that step and the current-phase field, restarts the step's line numbers, and schedules the phase write only if the step exists. |
| `JobTracker.Tracker.Complete` | src/breadmind/coding/job_tracker.py:139-166 | Finishes the first phase with that step with a truncated output, schedules the write, and forces a log flush for the step, known or not. |
| `JobTracker.Tracker.CompleteJob` | src/breadmind/coding/job_tracker.py:168-198 | Ends the job whatever its status, schedules the terminal write, then evicts jobs and their line counters. |
| `JobTracker.CountersLeaveWithJobs` | src/breadmind/coding/job_tracker.py:307-322 | Completing a job keeps exactly the line counters of the jobs it does not evict. |
| `JobTracker.CountersAreStreamed` | src/breadmind/coding/job_tracker.py:120-137 | Starting a phase of a tracked job restarts its line numbers at 1, evicting a job removes its counters, and no other call touches a counter: the effect is a run of the log stream's own steps. |
| `JobTracker.DecimalIs` | src/breadmind/coding/job_tracker.py:109-112 | The number in a default phase title is written in decimal digits without a leading zero. |
| `JobTracker.Tracker.Cancel` | src/breadmind/coding/job_tracker.py:200-212 | Cancels unless already completed or failed. |
| `JobTracker.Tracker.CleanupHistory` | src/breadmind/coding/job_tracker.py:307-322 | The loops compute the specified eviction, of jobs and of their line counters. |
| `LogBuffer.Conservation` | src/breadmind/coding/log_buffer.py:83-156 | For every key and every interleaving, the appended lines are the lines that left, each flushed or dropped once and oldest first, followed by exactly the buffer. |
| `LogBuffer.FlushOrder` | src/breadmind/coding/log_buffer.py:83-117 | The batches handed to `flush_fn`, concatenated, are exactly the flushed lines in append order. |
| `LogBuffer.DropTotals` | src/breadmind/coding/log_buffer.py:142-156 | The `on_drop` total is never below the number of lines lost to the cap, and equals it if and only if the cap is not negative or nothing was appended. |
| `LogBuffer.NoLostWakeUp` | src/breadmind/coding/log_buffer.py:69-117 | In every run no buffer exceeds the cap, a non-empty buffer at the size threshold has the wake event set or the worker between clearing it and its snapshot, and a worker told to stop is not left asleep. |
| `LogBuffer.FinalDrain` | src/breadmind/coding/log_buffer.py:57-117 | In every run in which the worker ran and has ended there was a last snapshot, after stop: every line appended before it, for every key, has been flushed or dropped, and nothing is handed over after it. |
| `LogBuffer.StopLeadsToFinalDrain` | src/breadmind/coding/log_buffer.py:57-82 | From any reachable state with stop signalled, whatever happens short of a new start, the worker takes at most five more steps of its own, and until it has ended one is always possible without waiting for a timeout. |
| `LogDrain.HandedOverIff` | src/breadmind/coding/log_buffer.py:83-117 | In every run a snapshot hands over the whole buffer of a key if it is not empty and the worker is stopping, the key was forced since its last hand-over, that hand-over (or the first line, if there was none) lies at least the time threshold back, or the buffer has reached the size threshold; and nothing of the key otherwise. |
| `LogDrain.OnlySnapshotsHandOver` | src/breadmind/coding/log_buffer.py:83-117 | Only a snapshot of the draining worker hands anything over. |
| `LogDrain.ForcedIsPressing` | src/breadmind/coding/log_buffer.py:158-162 | In every run, from forcing a key with buffered lines until they are handed over, a wake-up is pending or the worker is on its way to a snapshot, and the buffer is not empty. |
| `LogDrain.WakeIff` | src/breadmind/coding/log_buffer.py:69-82 | In every run the wake event is set if and only if a force, a stop or an append reaching the size threshold has come since the worker last woke up. |
| `LogDrain.CanHandOver` | src/breadmind/coding/log_buffer.py:51-117 | From every state with lines buffered for a key, forcing the key and at most four steps of the worker, a start among them if it has ended, lead to a snapshot that hands over all of them. |
| `LogDrain.StopIff` | src/breadmind/coding/log_buffer.py:51-67 | In every run the worker is told to stop if and only if a stop came after it was last started anew. |
| `LogBuffer.Buffer.Append` | src/breadmind/coding/log_buffer.py:142-156 | Appends, drops the oldest lines above the cap, reports the count and sets the wake event at the threshold. |
| `LogBuffer.Buffer.ForceFlush` | src/breadmind/coding/log_buffer.py:158-162 | Marks the key and wakes the worker. |
| `LogBuffer.Buffer.CollectDue` | src/breadmind/coding/log_buffer.py:83-103 | The due keys are exactly the non-empty ones that are stopping, aged, large or forced. |
| `LogBuffer.Buffer.TakeBatches` | src/breadmind/coding/log_buffer.py:83-117 | Empties exactly the due buffers into batches and stamps only their flush times. |
| `LogBuffer.Buffer.SnapshotLocked` | src/breadmind/coding/log_buffer.py:83-117 | The lock-held half of a drain is the specified step. |
| `JobLogStream.LinesFollowWrites` | src/breadmind/coding/job_log_stream.py:48-62 | In every run a line is in the buffer only after every write scheduled before its `append` call has finished or been dropped. |
| `JobLogStream.LinesHaveJobRow` | src/breadmind/storage/migrations/versions/007_coding_jobs.py:54-61 | In every run, from a line's arrival in the buffer on, the job row that its log row will refer to exists, provided an insertion of the job was scheduled before the `append` call and was neither dropped nor raised. |
| `JobLogStream.NumbersConsecutive` | src/breadmind/coding/job_log_stream.py:39-54 | Between resets the numbers drawn for a key are 1, 2, 3, ... in call order. |
| `JobLogOrder.ArrivalInOrderIff` | src/breadmind/coding/job_log_stream.py:48-62 | In every run a key's lines in the buffer, followed by those waiting, are its calls in call order if and only if no call went straight into the buffer while an earlier one was still to be resumed; in any case each call is there exactly once. |
| `JobLogOrder.NextCallCanOvertakeIff` | src/breadmind/coding/job_log_stream.py:48-62 | After a run in order, one more call for the key can reach the buffer out of order if and only if an earlier call for it has not returned. |
| `JobLogOrder.OneAtATimeArrives` | src/breadmind/coding/job_log_stream.py:48-62 | Calls for a key made one after the other's return arrive in call order, at most one waiting. |
| `JobLogOrder.NumbersArriveInOrder` | src/breadmind/coding/job_log_stream.py:48-62 | Without overtaking the buffer receives a prefix of the key's calls, and those since the last reset as lines 1, 2, 3, ... |
| `JobLogOrder.NumbersCanArriveOutOfOrder` | src/breadmind/coding/job_log_stream.py:48-62 | A run in which line 2 enters the buffer before line 1. |
| `JobLogStream.LogStream.ForceFlushPhase` | src/breadmind/coding/job_log_stream.py:66-79 | Starts one force-flush task, and none without a buffer or a running loop. |
| `JobLogStream.LogStream.Number` | src/breadmind/coding/job_log_stream.py:48-54 | A call draws the next number of its key and touches no other counter. |
| `JobLogStream.LogStream.ResetPhaseCounter` | src/breadmind/coding/job_log_stream.py:39-40 | Resets one counter only. |
| `JobLogStream.LogStream.EvictJobCounters` | src/breadmind/coding/job_log_stream.py:42-46 | Removes exactly the counters of the job. |
| `Relay.BackfillBeforeLive` | rt-relay/internal/transport/ws.go:170-226 | In every interleaving, on every connection, each event replayed for the first acceptance of a channel precedes every live event of that channel. |
| `RelayDelivery.AckBeforeLive` | rt-relay/internal/transport/ws.go:170-226 | In every run in which each dispatch of a channel starts while the connection is not subscribed to it or has been acknowledged, every live event of the channel follows an acknowledgement naming it. |
| `RelayDelivery.EarlyLiveIff` | rt-relay/internal/transport/ws.go:219-226 | From every reachable state in order so far, a live event can get ahead of every acknowledgement, without steps of the connection's own read loop, if and only if none naming the channel was sent, the channel id is not empty, and the connection is subscribed or a fan-out can still deliver to it. |
| `RelayDelivery.LiveCanPrecedeAck` | rt-relay/internal/transport/ws.go:219-226 | For any connection, non-empty channel id and event, a run in which the live event reaches the client before the acknowledgement. |
| `RelayDelivery.LiveReachesIff` | rt-relay/internal/dispatch/dispatch.go:20-42 | From every reachable state, while its read loop stands still, another live event of a channel can reach a connection if and only if the channel id is not empty and the connection is subscribed to it or a fan-out under way can still deliver to it; the ACL cache plays no part. |
| `RelayDelivery.RevokedStillReached` | rt-relay/internal/acl/subscriber.go:158-192 | For any connection, non-empty channel id and event, a run in which the client is told of a revocation and then receives a live event of the channel. |
| `Relay.AckExact` | rt-relay/internal/transport/ws.go:186-226 | The acknowledgement lists exactly the requested channels that passed the gate, in request order; the refusals sent for that message are exactly the others, in request order. |
| `Relay.NoDanglingSubscription` | rt-relay/internal/transport/ws.go:123-152 | In every interleaving, subscribed ids are registered, and a torn-down id is in neither the index nor the registry. |
| `Relay.ClientMirror` | rt-relay/internal/acl/subscriber.go:158-192 | Whenever no envelope is still owed, folding the client's grants and revocations over its initial visible set gives its cache, and none was redundant. |
| `Relay.RefreshFolds` | rt-relay/internal/acl/subscriber.go:158-192 | The envelopes of one invalidation turn the old cache into the new one without waste. |
| `RelayHistory.RefreshLeaves` | rt-relay/internal/acl/subscriber.go:158-192 | After a refresh a channel is visible if it was added by name or fetched, hidden if it was removed by name or missing from the answer, and as before if the event does not speak of it or was not answered. |
| `RelayHistory.RefreshSends` | rt-relay/internal/acl/subscriber.go:158-192 | A refresh sends exactly one grant for each channel that became visible, exactly one revocation for each that ceased to be, and nothing else. |
| `RelayHistory.CacheAsDecided` | rt-relay/internal/acl/subscriber.go:158-192 | In every run a channel is in a connection's cache as the last refresh that spoke of it said, otherwise as at connect time. |
| `RelayHistory.LastWordHolds` | rt-relay/internal/acl/subscriber.go:158-192 | Between events, a channel added or removed by name is in the cache of a connection that was registered for the user then exactly if it was added, when no later event of the user has spoken of it. |
| `RelayHistory.ConcernedIsFound` | rt-relay/internal/session/registry.go:102-116 | In every run an invalidation concerns exactly the connections that a lookup of its user in the registry, after the same connects and disconnects, finds. |
| `RelayHistory.SubscribedAsDecided` | rt-relay/internal/transport/ws.go:123-152 | In every run a connection is subscribed to a channel if and only if the last step about the two registered it, rather than dropping it or hanging up. |
| `RelayHistory.UnsubscribeDone` | rt-relay/internal/transport/ws.go:227-234 | When an unsubscribe message has been worked through, whatever else happened meanwhile, the connection is subscribed to none of its channels. |
| `RelayHistory.ReplayedAreMissed` | rt-relay/internal/transport/ws.go:186-219 | From passing the gate for a channel to registering for it, the client is replayed exactly the fetched events in order if it gave a positive cursor for that channel, and none otherwise or without an answer. |
| `RelayHistory.PongsAnswerPings` | rt-relay/internal/transport/ws.go:235-237 | In every run a connection has been sent as many pongs as it sent pings. |
| `Relay.LiveOnlyIfVisible` | rt-relay/internal/transport/ws.go:186-219 | In every interleaving a live event reaches a connection only for a channel visible at connect time or granted to it. |
| `RelayDelivery.InvalidationKeepsSubscriptions` | rt-relay/internal/acl/subscriber.go:158-192 | No step of an invalidation changes subscriptions, registrations, or who can still be delivered to. |
| `RelayServer.ServeItemIsSteps` | rt-relay/internal/transport/ws.go:187-221 | One pass of the subscribe loop is the steps gate, replay sends, registration (only the gate for a refused channel), each enabled in turn; it leaves the specified connection and puts exactly an admitted channel into the index. |
| `RelayServer.SubscribeIsSteps` | rt-relay/internal/transport/ws.go:170-226 | The whole subscribe branch, undisturbed, is a run of enabled steps from any state in which the connection is reading, ending in the connection and index the handler leaves. |
| `RelayServer.EventIsSteps` | rt-relay/internal/acl/subscriber.go:158-192 | An invalidation handled without interruption is a run of enabled steps that refreshes exactly the user's registered connections. |
| `RelayServer.DispatchIsSteps` | rt-relay/internal/dispatch/dispatch.go:20-42 | From every reachable state a dispatch carried through is a run of enabled steps that sends the event once to exactly the subscribed connections, and to nobody when the channel id is empty. |
| `RelayServer.HandleSubscribe` | rt-relay/internal/transport/ws.go:170-226 | The subscribe branch leaves exactly the connection the passes and the acknowledgement specify, and adds exactly the accepted pairs to the index. |
| `RelayServer.HandleEvent` | rt-relay/internal/acl/subscriber.go:158-192 | Looks the user's connections up in the registry and refreshes each once, with a true difference for a user-wide event; a failed fetch changes nothing, and no other connection is touched. |
| `RelayServer.UpdateConn` | rt-relay/internal/acl/subscriber.go:158-192 | One connection's cache and output change as the refresh says. |
| `RelayServer.ToSubscribers` | rt-relay/internal/dispatch/dispatch.go:20-42 | Every registered subscriber of the channel gets the event exactly once, nobody else gets anything, and an empty channel id is ignored. |
| `Subscription.Apply` | rt-relay/internal/session/subscription.go:22-76 | After any sequence of operations the two maps are exact inverses without empty inner sets and hold exactly the plain relation of (connection, channel) pairs. |
| `Subscription.Index.Subscribe` | rt-relay/internal/session/subscription.go:22-34 | Adds one pair to both directions. |
| `Subscription.Index.Unsubscribe` | rt-relay/internal/session/subscription.go:36-52 | Removes one pair from both directions and prunes empty sets. |
| `Subscription.Index.Subscribers` | rt-relay/internal/session/subscription.go:54-63 | Lists exactly the subscribers, each once. |
| `Subscription.Index.RemoveAll` | rt-relay/internal/session/subscription.go:65-76 | Removes exactly the connection's pairs; neither map mentions it afterwards. |
| `Registry.RunExact` | rt-relay/internal/session/registry.go:46-116 | After any operations that never re-add an id for a different user, the user index is exact and a lookup finds exactly the user's registered connections. |
| `Registry.AddedExactIff` | rt-relay/internal/session/registry.go:46-62 | From an exact index, adding keeps it exact, and every per-user lookup right, if and only if the id was not taken over from a different indexed user; after a takeover the old user's lookup returns a connection that is not theirs. |
| `Registry.AddedLooksUpIff` | rt-relay/internal/session/registry.go:46-62 | From any table whose lookups are right, with or without leftovers of removed connections, adding keeps them right if and only if the id stands under no other user in the index. |
| `Registry.RunLooksUpIff` | rt-relay/internal/session/registry.go:46-116 | Every lookup is right after every operation of a run if and only if the run never re-adds an id that is registered for a different user. |
| `Registry.TakeoverMisleads` | rt-relay/internal/session/registry.go:46-116 | A run of two additions after which one user's lookup returns exactly another user's connection. |
| `Registry.LeftoverMisleads` | rt-relay/internal/session/registry.go:46-116 | A run of four operations: after the third every lookup is right and the id is free, and adding it again for the same user gives the old user's lookup a connection that is not theirs. |
| `Registry.RemovedExact` | rt-relay/internal/session/registry.go:64-81 | Removing keeps the index exact and erases the id from both maps. |
| `Registry.FoundIsOwned` | rt-relay/internal/session/registry.go:102-116 | With an exact index, lookup equals ownership for every non-empty user. |
| `Registry.ConnRegistry.Add` | rt-relay/internal/session/registry.go:46-62 | The in-place update is the specified one. |
| `Registry.ConnRegistry.Remove` | rt-relay/internal/session/registry.go:64-81 | The in-place removal is the specified one. |
| `Registry.ConnRegistry.ConnsByUser` | rt-relay/internal/session/registry.go:102-116 | Returns each found connection once. |
| `AclCache.Cache.constructor` | rt-relay/internal/acl/cache.go:17-24 | The cache holds exactly the listed ids. |
| `AclCache.Cache.Add` | rt-relay/internal/acl/cache.go:34-43 | Adds the id and reports whether it was new. |
| `AclCache.Cache.Remove` | rt-relay/internal/acl/cache.go:45-54 | Removes the id and reports whether it was there. |
| `AclCache.Cache.Replace` | rt-relay/internal/acl/cache.go:58-77 | Swaps the set and returns the true difference, each id once. |
| `Invalidation.PrintParse` | rt-relay/internal/acl/subscriber.go:46-68 | Printing any parsed event gives the name back, and its ids are non-empty and colon-free. |
| `Invalidation.RoundTripIff` | rt-relay/internal/acl/subscriber.go:46-68 | An event survives printing and parsing if and only if its ids are non-empty and colon-free. |
| `Invalidation.AcceptedIff` | rt-relay/internal/acl/subscriber.go:46-68 | A name is accepted if and only if it is the printed form of such an event. |
| `Invalidation.Names` | rt-relay/internal/acl/subscriber.go:39-68 | The three kinds of names, written out, parse to a user-wide event, an addition and a removal with the ids in them. |
| `Invalidation.EmptyIdIff` | rt-relay/internal/acl/subscriber.go:46-68 | A name is rejected for an empty id exactly when it is otherwise the printed form of an event and an id in it is empty. |
| `Invalidation.BadPrefixIff` | rt-relay/internal/acl/subscriber.go:46-51 | A name is rejected for its prefix exactly when it does not begin with `acl:invalidate:user:`. |
| `Invalidation.BadOpNames` | rt-relay/internal/acl/subscriber.go:58-61 | A name of the long form is rejected for its operation when that is neither `add` nor `remove`, whatever its ids. |
| `PluginLoader.Loader.ResolveOrder` | src/breadmind/core/plugin.py:58-90 | For any dependency graph, terminates with every registered plugin exactly once, and a provider follows its dependent only if it transitively depends on that dependent. |
| `PluginLoader.Resolver.Visit` | src/breadmind/core/plugin.py:72-86 | The recursive visit terminates on cycles and keeps that guarantee, with the plugins under visit as the only ones visited but unlisted. |
| `PluginLoader.AcyclicOrder` | src/breadmind/core/plugin.py:58-90 | Without a cycle every provider precedes each of its dependents. |
| `PluginLoader.ProvidesLast` | src/breadmind/core/plugin.py:64-66 | A capability maps to the plugin that was registered last among those offering it, and to none if nobody offers it. |
| `PluginLoader.EdgeIff` | src/breadmind/core/plugin.py:76-84 | A plugin depends on another if and only if one of its dependency names is a capability which that one offered last, or the name of a registered plugin while nobody offers it. |
| `PluginLoader.Loader.BuildProvides` | src/breadmind/core/plugin.py:58-70 | The capability map, later registrations winning. |
| `PluginLoader.Loader.Register` | src/breadmind/core/plugin.py:32-36 | Refuses a taken name and changes nothing then; otherwise appends. |
| `DagExecutor.Executor.Execute` | src/breadmind/core/dag_executor.py:42-94 | Terminates on every graph; exactly one result per node; a node is spawned if and only if all its dependencies completed; the completed set is the least closed set; unspawned nodes get the skip result; each batch is exactly the ready nodes, all given one context built by earlier batches. If every subagent answers with more than spaces and without the failure prefix, exactly the nodes from which no dependency chain reaches an unknown id or a cycle complete, each with an answer of its subagent. |
| `DagExecutor.Fixpoint` | src/breadmind/core/dag_executor.py:42-94 | At the end of a sound trace the completed set is the least closed set and the spawned nodes are those whose dependencies completed. |
| `DagExecutor.SpawnedOnce` | src/breadmind/core/dag_executor.py:50-73 | Different batches never share a node. |
| `DagExecutor.AllAnswered` | src/breadmind/core/dag_executor.py:42-94 | When all answer well, exactly the resolvable nodes are spawned and complete, each with the answer given for the context of its batch. |
| `DagExecutor.ContextGiven` | src/breadmind/core/dag_executor.py:84-92 | The context given to a node holds the output of each of its dependencies, and everything not yet spawned as at the start. |
| `DagExecutor.Executor.RunBatch` | src/breadmind/core/dag_executor.py:67-92 | Every node of the batch sees the same context; only normal outputs are published, after the batch. |
| `DagExecutor.Executor.Rounds` | src/breadmind/core/dag_executor.py:50-94 | The loop ends with a sound trace in which no unspawned node is ready. |
| `DagExecutor.VerdictIff` | src/breadmind/core/result_evaluator.py:18-31 | An output is normal if and only if stripping it at both ends leaves something and it does not begin with the failure prefix. |
| `DagExecutor.FailuresAreAbnormal` | src/breadmind/core/result_evaluator.py:18-31 | Timeout, exception and skip results are recorded as unsuccessful, begin with the failure prefix, and are never evaluated as normal. |
| `DagExecutor.TimeoutTexts` | src/breadmind/core/dag_executor.py:17-21 | A timeout is recorded with 60, 180 or 600 seconds by difficulty, and 180 for an unknown one. |
| `TaskBoard.RunOrderly` | src/breadmind/core/agent_team.py:79-116 | Over every run of the agent loops each task is claimed at most once, claimed is the same as no longer pending, every on-board dependency of a claimed task is completed, and live loops hold different tasks, in progress under their agent's name. |
| `TaskBoard.NoFailedAncestor` | src/breadmind/core/agent_team.py:79-91 | In every run no task with a failed ancestor on the board has been claimed. |
| `TaskBoard.RunAdvances` | src/breadmind/core/agent_team.py:93-108 | Claims are never withdrawn, completed and failed are final, and dependencies never change. |
| `TaskHistory.StatusAsTold` | src/breadmind/core/agent_team.py:93-108 | In every run a task is failed if and only if a loop crashed with it in hand, completed if and only if one succeeded with it, in progress if it was claimed and neither happened, pending if never claimed; its result is the text handed back. |
| `TaskHistory.HolderTook` | src/breadmind/core/agent_team.py:233-251 | In every run the loop that holds a task is one that claimed it. |
| `TaskHistory.CrashBlocks` | src/breadmind/core/agent_team.py:79-108 | After a loop crashed with a task, no continuation ever claims a task that waits for it, directly or through others, and the board is never all done. |
| `TaskHistory.StopEnds` | src/breadmind/core/agent_team.py:209-221 | When the wait ends, each live loop without a task ends, except one whose agent has been started again since. |
| `TaskHistory.CancelledStaysEnded` | src/breadmind/core/agent_team.py:217-221 | In every run a loop that was cancelled is never live again. |
| `TaskBoard.FailureBlocksForever` | src/breadmind/core/agent_team.py:131-133 | After a failure every descendant stays pending in all later states, and the board is never all done. |
| `TaskBoard.FinishableIff` | src/breadmind/core/agent_team.py:198-251 | After any run some longer run ends with every task completed or failed if and only if no on-board task depends on a failed one and no loop was cancelled with a task in hand; and then one that adds nothing but one `start` of any one teammate does. |
| `TaskBoard.FinishableAsStaffedIff` | src/breadmind/core/agent_team.py:209-251 | Without a further `start`, some longer run does so if and only if, besides, no task is pending or the team is running with a loop that has not ended; and then one without new tasks does. |
| `TaskBoard.LateTaskStranded` | src/breadmind/core/agent_team.py:233-251 | A run in which the only loop ends on the empty board and a task added then is claimed in no continuation without another `start`. |
| `TaskBoard.BlightedIffAncestor` | src/breadmind/core/agent_team.py:79-91 | A failed ancestor at any distance exists exactly when some task has a failed direct dependency. |
| `TaskBoard.RunOrphans` | src/breadmind/core/agent_team.py:233-251 | In every run the tasks in progress in nobody's hands are exactly those whose loop was cancelled, and every on-board dependency stands before its dependent. |
| `TaskBoard.CompletionUnblocks` | src/breadmind/core/agent_team.py:93-116 | On any board, completing a task makes pending exactly the blocked tasks whose on-board dependencies are then all completed, and changes no other. |
| `TaskBoard.Board.ClaimTask` | src/breadmind/core/agent_team.py:79-91 | Claims the first pending task whose on-board dependencies are completed, or nothing if there is none. |
| `TaskBoard.Board.CompleteTask` | src/breadmind/core/agent_team.py:93-101 | Completes the task and unblocks what is now unblocked. |
| `TaskBoard.Board.FailTask` | src/breadmind/core/agent_team.py:103-108 | Fails the task with its message. |
| `TaskBoard.Board.CheckUnblock` | src/breadmind/core/agent_team.py:110-116 | The in-place loop unblocks exactly the blocked tasks whose dependencies are done. |
| `CircuitBreaker.EpisodeBounds` | src/breadmind/core/circuit_breaker.py:97-129 | In every interleaving one half-open episode admits at most the configured calls, and a success closes the circuit only if that number plus the calls in flight at its start reaches the threshold. |
| `CircuitBreaker.RecoverableIff` | src/breadmind/core/circuit_breaker.py:165-229 | An open circuit with given calls in flight has a reset-free continuation that closes it if and only if an episode admits two or more probes, or probes plus calls in flight reach the success threshold. |
| `CircuitBreaker.DefaultNeedsReset` | src/breadmind/core/circuit_breaker.py:42-48 | With the default configuration and nothing in flight, no reset-free run closes an open circuit. |
| `CircuitBreaker.DefaultGetsStuck` | src/breadmind/core/circuit_breaker.py:42-48 | Five failed calls from the start reach such a circuit, so no reset-free continuation closes it. |
| `CircuitBreaker.AdmitsAgainIff` | src/breadmind/core/circuit_breaker.py:97-129 | For every configuration and reachable state, some reset-free continuation admits a call if and only if the circuit is closed, or open with a probe to give or enough calls in flight to close it, or half-open with a probe left or a call in flight that can still end the episode. |
| `CircuitBreaker.DefaultShutsOut` | src/breadmind/core/circuit_breaker.py:42-48 | A run with the default configuration that ends in a successful probe, after which no reset-free continuation ever admits a call. |
| `CircuitBreaker.OpensAtThreshold` | src/breadmind/core/circuit_breaker.py:180-216 | While closed the failure count is the trailing run of failures, and the next failure opens the circuit exactly when it completes a run of the threshold length. |
| `CircuitBreaker.AdmissionIff` | src/breadmind/core/circuit_breaker.py:104-117 | In every run the next call is admitted if and only if the circuit is closed, or open with its timeout over and probes allowed, or half-open with fewer calls admitted in the episode than it may. |
| `CircuitBreaker.OpenedByFailure` | src/breadmind/core/circuit_breaker.py:218-222 | In every run the opening time of an open circuit is the time of the failure that opened it, since when it has been open. |
| `CircuitBreaker.RunTidy` | src/breadmind/core/circuit_breaker.py:218-229 | In every run a closed circuit remembers neither an episode nor an opening, an open one no episode, and the last failure time is that of the last failure recorded. |
| `CircuitBreaker.Embargo` | src/breadmind/core/circuit_breaker.py:104-117 | From an open circuit, until the timeout is over and whatever happens short of a reset, it stays open and admits nothing. |
| `CircuitBreaker.SeenIsPromoted` | src/breadmind/core/circuit_breaker.py:76-87 | The read-only state equals what the locked promotion computes at that instant. |
| `CircuitBreaker.RunSane` | src/breadmind/core/circuit_breaker.py:165-229 | Over every run: half-open successes and calls in flight are covered by calls admitted or inherited, and counters and opening time fit the state. |
| `CircuitBreaker.Circuit.State` | src/breadmind/core/circuit_breaker.py:76-87 | Returns the promoted mode without changing anything. |
| `CircuitBreaker.Circuit.EffectiveState` | src/breadmind/core/circuit_breaker.py:165-178 | Promotes in place. |
| `CircuitBreaker.Circuit.Enter` | src/breadmind/core/circuit_breaker.py:104-117 | The admission section is the specified one. |
| `CircuitBreaker.Circuit.RecordFailure` | src/breadmind/core/circuit_breaker.py:180-201 | The failure section is the specified one. |
| `CircuitBreaker.Circuit.RecordSuccess` | src/breadmind/core/circuit_breaker.py:203-216 | The success section is the specified one. |
| `CircuitBreaker.Circuit.TransitionToOpen` | src/breadmind/core/circuit_breaker.py:218-222 | Opens, stamps the time and clears the episode. |
| `CircuitBreaker.Circuit.TransitionToClosed` | src/breadmind/core/circuit_breaker.py:224-229 | Closes and clears every counter. |
| `SessionFork.Forker.BranchTree` | src/breadmind/cli/session_fork.py:68-82 | Terminates on any parent relation and returns exactly the sessions reachable from the root by one or more child edges, each once, ordered by creation time. |
| `SessionFork.Forker.Search` | src/breadmind/cli/session_fork.py:68-81 | The breadth-first loop finds exactly the reachable sessions, each once. |
| `SessionFork.ReachedAtEnd` | src/breadmind/cli/session_fork.py:68-81 | When the queue is empty every descent from the root ends in a collected session. |
| `SessionFork.Forker.Fork` | src/breadmind/cli/session_fork.py:37-62 | The new branch carries its id, parent, label and time, and its branch point is clamped to the message list at both ends. |
| `Checkpoints.RunConsistent` | src/breadmind/core/checkpoints.py:47-164 | Over every run with fresh ids the current index stays in range, ids stay unique, and every parent is a strictly earlier checkpoint. |
| `Checkpoints.RewindThenCreate` | src/breadmind/core/checkpoints.py:47-89 | In every reachable history, creating after a rewind keeps exactly the prefix up to the rewound checkpoint and makes it the parent. |
| `Checkpoints.ForkAppends` | src/breadmind/core/checkpoints.py:139-164 | In every reachable history a fork keeps the whole list and appends, as the current checkpoint, a copy of the source's snapshots and message index with the source as parent. |
| `Checkpoints.SnapshotsAsGiven` | src/breadmind/core/checkpoints.py:47-164 | In every run every checkpoint in the list holds exactly the snapshots given at its creation, or those of its source when it was forked, and those added to it since. |
| `Checkpoints.CreateCarries` | src/breadmind/core/checkpoints.py:47-89 | A created checkpoint comes last, is current, and carries its id, time, snapshots, message index and caption, or the default one. |
| `Checkpoints.RestoredContent` | src/breadmind/core/checkpoints.py:126-137 | After a restore each snapshotted path holds its last snapshot and no other path changes. |
| `Checkpoints.Manager.CreateCheckpoint` | src/breadmind/core/checkpoints.py:47-89 | Truncates, appends and keeps the history consistent. |
| `Checkpoints.Manager.RewindTo` | src/breadmind/core/checkpoints.py:110-124 | Moves to a known checkpoint and returns its snapshots; an unknown id changes nothing. |
| `Checkpoints.Manager.Restore` | src/breadmind/core/checkpoints.py:126-137 | Writes the snapshots in order, returns their paths, and moves there. |
| `Checkpoints.Manager.ForkFrom` | src/breadmind/core/checkpoints.py:139-164 | Appends a copy whose parent is the source, without truncating. |
| `Checkpoints.Manager.FindIndex` | src/breadmind/core/checkpoints.py:231-236 | Finds the first checkpoint with the id. |

## Left out

- WriteBehind.Simulation: mirrors only the first phase of each step when a phase list repeats a step, because the row key is (job, step) and every update goes to the first; with distinct steps that is every phase.
- WriteBehind.Simulation: assumes clock readings above zero (a zero time means "not set" in the tracker), proper callers as in `FreshCallsAreProper`, one event loop, and the store bound before the first call.
- WriteBehind.Simulation: a write counts as lost when it raises; a statement that committed and then raised on its way back is not modelled.
- TaskBoard.FinishableIff: says that some continuation finishes the board, not that every fair one does; a handler may return, raise, or end by cancellation, and may also answer a cancellation by returning.
- JobLogOrder.ArrivalInOrderIff: an `append` call cancelled while it waits is not modelled; its number would be drawn and its line never arrive.
- RelayServer.HandleEvent: the refresh of one connection is not interrupted by other goroutines in the method; interleavings are the transition system's part.
- Relay.ClientMirror, Relay.BackfillBeforeLive: sends are taken as delivered, connection ids as never reused, and invalidation events as handled one after the other.
- Relay.LiveOnlyIfVisible: says "granted to it" over the whole output, because a client can subscribe between the cache update and the sending of the grant.
- DagExecutor.Executor.Execute: nodes are keyed by their own id; a subagent is an outcome that depends on the node and its context; cancellation of a node, the concurrency limit and the notification hooks are not modelled.
- PluginLoader.Loader.ResolveOrder: the dependency-text parser is an arbitrary total function, and version validation, which only logs, is ignored; teardown order is registration reversed and not related to setup order.
- Checkpoints.Manager.CreateCheckpoint: takes the snapshots already read; reading, saving and loading files is not modelled.
- Cancellation of the write worker at loop teardown, and several event loops writing one job: the queue's order is promised per loop only.
- Listing, retention and log-row statements of the job store, `progress_pct`, and the default queue size taken from the environment.
- Retry and failure inside a log flush: a batch counts as flushed when it is handed to `flush_fn`.
- Redis, HTTP, WebSocket, token verification and Postgres themselves: their answers are parameters of a step or appends to an output log; typing messages and malformed envelopes change nothing modelled.
- Metrics, tracing, logging and listener callbacks.
- The mailbox of the agent team, its list of teammates, and the polling intervals of its loops.
- Rounding of clock values and of durations: times are real numbers.
- Job executor, supervisors, decomposer, command line, scanners and user interface: plumbing around these cores.
