# Verified models of avplumber's protocols, schedulers and state machines

Frame handling in avplumber is FFmpeg and CUDA plumbing; underneath it are several small concurrent
protocols, schedulers and state machines written without libraries. This project models each of
them in Dafny and proves what it is for. `dafny verify dfyconfig.toml` checks everything.

Concurrent protocols are state machines: a datatype for the state, one step per atomic operation, a
program counter per thread, `Apply` for what a step does and `Enabled` for when it may be taken. What
is proved of them holds in every state some interleaving leads to (`Reachable`), of any length.
Objects the source updates in place are classes; their methods are proved against functions of the
old state, and what the source promises is proved about those functions.

| file | what it models |
|---|---|
| Options.dfy | a value or none |
| EventFd.dfy | the event threads sleep on: an eventfd, plain, or with repeated writes coalesced |
| EdgeData.dfy | the bounded queue of an edge, its counters and flags, as a sequential object |
| EdgeProtocol.dfy | the blocking edge between a producer, a consumer and finish requests, step by step |
| EdgeCalls.dfy | what the calls on that edge hand over, discard and wait for |
| EdgeLiveness.dfy | infinite fair runs of the same: nobody who has something to wake for sleeps for good |
| EdgeDrain.dfy | the same with a thread that waits for the queue to run empty |
| SeekProgram.dfy | the actions of a team's seek, phase by phase over chains of any length |
| SeekProtocol.dfy | that seek against the threads of the nodes |
| SeekLiveness.dfy | infinite fair runs of the same: the seek does not wait for ever |
| Timers.dfy, EventLoop.dfy | the event loop: ordered timers, the posted queue and its trailing count, wake-ups only where needed |
| EventLoopLiveness.dfy | infinite fair runs of the same: the loop does not sleep on work, and due timers run |
| EventQueue.dfy | the loop's queues as the object they are |
| GroupRequests.dfy | how a group serves start, stop, restart and shutdown requests |
| GroupThread.dfy | the management thread left to itself serves what was asked |
| GroupRestarts.dfy | what a restart renews, and when it does not |
| GroupSort.dfy | the depth-first sort that orders the nodes of a group |
| PlaylistPolicy.dfy | what plays next and for how long |
| PlaylistCommands.dfy | the playlist controller as functions from state to state |
| PlaylistLaws.dfy | the laws of the controller, and what keeps them |
| PlaylistSafety.dfy | what holds over every run of commands, edits and backend events |
| PlaylistPaused.dfy | when a pause lasts |
| PlaylistController.dfy | the controller as the object it is |
| PlaylistGapless.dfy | the in-memory backend, and gapless playback of the two together |
| PlaylistModes.dfy | what each playlist mode comes to over whole runs |
| DecoderParking.dfy | the ledger of decoder pools and the parking lot of decoders |
| SurfaceExhaustion.dfy | episodes without a free decoder surface |
| RingBuffer.dfy, RingBufferThreads.dfy | the ring buffer as a FIFO, alone and between two threads |
| SpeedControl.dfy | timestamps across changes of speed and direction |
| Allocation.dfy, SourceCounts.dfy | largest-remainder shares, and the capped shares of the mixer's sources |
| Rtcp.dfy | building and reading RTCP datagrams |
| TimeString.dfy | seek times as text |

## Findings

Where the code does not do what one might expect of it, the model follows the code:

- `RingBuffer::fill` publishes its second segment with the length of the first (src/RingBuffer.hpp:172).
  `Ring.Fill` proves when it still appends what it was asked for: exactly without a wrap, or with one
  into equal halves; `FillMayGoWrong` gives an input for which it does not.
- The cycle error of the group sort cannot be reached: only unmarked nodes are visited recursively
  (src/graph_mgmt.cpp:817-847). `Sort` never fails; on a cyclic graph, such as `TwoNodeCycle`, it returns a
  permutation that is not ordered.
- Edits made while the playlist is paused arm the next element at the old end (demos/playlist/playlist.py:282-295),
  or cue the element on air again when that is edited (demos/playlist/playlist.py:480-482), and the answer to either
  ends the pause: `RearmingEndsThePause`, `EditingEndsThePause`, with `PausedExample` for a run that leads there.
  `PausedUntilCued` says exactly when a pause lasts while nobody cues, resumes or stops: nothing was pending when it
  began, no edit re-armed (insert, remove, reorder, enable, mode, transition, or replacing an armed clip) with another
  element to follow a known end, and no accepted edit of the element on air left it enabled.
- Replacing a clip re-arms only for the element on air or the armed one (demos/playlist/playlist.py:480-484), but
  the control verb `edit` may switch the clip on or off in passing (demos/playlist/control.py:34, 92). Then what is
  armed need no longer be what plays next (`EnablingByEditSkips`), nor a live request name an enabled element
  (`ReplacingThePending`). `ReplaceExact` says exactly which edits do that; nothing else breaks the exact laws
  (`ExactlyKept`), and the other laws hold in every run.
- A decoder that opens may take live and parked decoders above the bound until the next park;
  `OpeningExceeds` says exactly when.
- Parking reserves its pool without a budget (src/decoder_surfaces.hpp:358), and a decoder that closes parks before it
  releases its own pool (src/nodes/decoders.cpp:828-842), so that the total may pass the budget: `ClosingOverbooks`.
  `TotalWithinBudget` says exactly when it does not, over every run; `ClosedAddsNothing` that the excess goes with the
  release, and `LiveWithinBudget` that the live decoders' own pools always stay within it.
- `waitEmpty()` (src/graph_core.hpp:662-676, reached from queue.drain, src/avplumber.cpp:498, and from
  waitSinksEmpty(), src/graph_base.hpp:294-304) sleeps on the event that tells the producer of room, and may take a
  wake-up meant for that: `BothSleepForGood` is a run after which both sides of an edge sleep for good.
  `ExactlyStolen` and `WakesUnlessStolen` say exactly which steps lose a wake-up; nobody else's are lost.
- The event loop's own work goes first, so that a handler that hands it another task each time keeps it from posted
  work and timers (src/EventLoop.hpp:65-82): `LocalWorkStarves`.
- `source_counts()` refuses some totals that the caps would carry (demos/mixer/setup_runtime.py:91-102): when the two
  raw kinds hold the whole total at too high a cost and among themselves would share it at a lower one, they keep all
  of it, and the allocation of nothing to the rest raises (`Cornered`, `CorneredExample`). With at most one raw kind
  in the mix `Counts` says exactly when there is a result.
- A stop accepted after a group's start was read but before its snapshot is taken does not cancel that
  start; it stays pending and is served next (src/graph_mgmt.cpp:728, 901): `StopBeforeSnapshotWaits`, and
  `StopBeforeSnapshotHappens` for a run that leads there. `ExplicitRequestCancels` gives the exact rule.
- A restart whose stopping fails is tried again as a start (src/graph_mgmt.cpp:904-908, 927-940), which leaves nodes
  that are still up alone: `FailedStopSkips` says exactly when a restart can end with a node it never touched,
  `FailedStopHappens` gives a run that leads there, and `RestartRestartsAll` that otherwise every node is new.
- Printed times beyond the 32-bit limit overflow when they are parsed (src/graph_interfaces.hpp:206);
  `HmsRoundTrip` is exact on both sides of the limit.

## Model

| member | source | states |
|---|---|---|
| EventFd.SignalsCoalesce | src/Event.hpp:65-68 | a coalescing signal that finds the last write unread adds nothing, yet after any number of signals the counter is readable, and one read and clear undoes them all |
| EventFd.Event.Signal | src/Event.hpp:65-68 | an undisturbed signal(): a plain event writes every time; a coalescing one exchanges its flag and writes only when that was clear |
| EventFd.Event.Wait | src/Event.hpp:45-64 | an undisturbed wait() with a readable descriptor returns the counter and leaves counter and flag clear |
| EdgeData.EmptiedFromPopOne | src/graph_core.hpp:446-459 | emptying an edge is the same from any number of single pops on |
| EdgeData.CallsKeepIdle | src/graph_core.hpp:435-472 | with nobody inside a call, every call keeps occupied and the totals equal to the queue; an enqueue succeeds exactly below capacity, a pop exactly on a non-empty queue |
| EdgeData.Edge.TryEnqueue | src/graph_core.hpp:566-588 | while flushing the item is dropped and the call succeeds; otherwise it is appended, counted and signalled, or refused at capacity |
| EdgeData.Edge.PopInternal | src/graph_core.hpp:435-445 | the oldest item leaves, is counted, and the producer is told; nothing happens on an empty queue |
| EdgeData.Edge.TryDequeue | src/graph_core.hpp:460-472 | the same, returning the item that was oldest |
| EdgeData.Edge.MaybeFlush | src/graph_core.hpp:446-459 | while flushing, everything leaves and flushed is set; true exactly when something left |
| EdgeData.Edge.Pop | src/graph_core.hpp:650-653 | flush, then one pop; true exactly when the queue held something |
| EdgeData.Edge.Clear | src/graph_core.hpp:595-597 | the loop ends with an empty queue, whatever the flags, and counts every item that left |
| EdgeProtocol.InvKept | src/graph_core.hpp:423-472 | the laws of the queue, the counters, the flags and the wake-ups are kept by every atomic step of the producer, the consumer and any number of finish requests |
| EdgeProtocol.FlagTellsTheTruth | src/Event.hpp:45-68 | in every interleaving a set flag means a readable counter, a writer past its exchange, or a waiter between its read and consumed() |
| EdgeProtocol.NoWakeupLost | src/graph_core.hpp:423-433 | a side asleep with an unreadable event has nothing to wake for, or a signaller is in the middle of its signal, for both sides and for finish requests |
| EdgeProtocol.NeverBothAsleep | src/graph_core.hpp:626-657 | with both sides asleep and both events unreadable a finish request is still signalling: the consumer's event when something is queued, the producer's when there is room |
| EdgeProtocol.SomebodyAwake | src/graph_core.hpp:626-657 | with no finish request under way, producer and consumer are never both asleep |
| EdgeProtocol.DeliveredInOrder | src/graph_core.hpp:435-472 | delivered items are a subsequence of the accepted ones, in order, each at its own place; accepted items are exactly those that left and those queued |
| EdgeProtocol.DeliveredEmbeds | src/graph_core.hpp:460-472 | dropping the items that pops and flushes discarded keeps the order of the delivered ones |
| EdgeProtocol.CountersLagInFlight | src/graph_core.hpp:566-588 | at any time occupied and the difference of the totals are within one of the queue length, and the queue within its capacity |
| EdgeProtocol.CountersExactWhenIdle | src/graph_core.hpp:566-588 | with both sides idle the counters are exact |
| EdgeProtocol.SoloTryEnqueue | src/graph_core.hpp:566-588 | the atomic steps of one uninterrupted try_enqueue() add up to what the method promises |
| EdgeCalls.LeavesExactly | src/graph_core.hpp:435-472 | over every step: the oldest item leaves, counted as delivered, exactly when the consumer was at its take in a dequeue, and as discarded exactly in a pop or a flush; nothing else takes an item, a peek least of all |
| EdgeCalls.EntersExactly | src/graph_core.hpp:566-588 | over every step: an item enters only by the producer's try on a queue with room, at the end, and is the one enqueue() was given |
| EdgeCalls.FlagsExactly | src/graph_core.hpp:300-321 | over every step: who raises and lowers the flushing, flushed and finish flags, and that a finish request stays up until it is reset |
| EdgeCalls.ProducerReturns | src/graph_core.hpp:423-433 | over every step: an enqueue comes back if and only if it has signalled, was refused without waiting, or the producer was told to stop; after a wait it looks at the flushing flag anew |
| EdgeCalls.ConsumerReturns | src/graph_core.hpp:626-657 | over every step: a consumer's call comes back if and only if it has taken and signalled, a pop found nothing, a peek something, or the consumer was told to stop |
| EdgeCalls.FinishEnds | src/graph_core.hpp:423-433 | a finish request ends the call of a side that finds the queue not ready, with nothing taken or put |
| EdgeCalls.SoloDequeue | src/graph_core.hpp:654-657 | an undisturbed dequeue on an edge that holds something and is not flushing does what one pop does to the edge and hands out exactly the oldest item |
| EdgeCalls.SoloDequeueWaits | src/graph_core.hpp:654-657 | on a flushing or empty edge it discards what is flushed, hands out nothing, and waits or ends as it was told |
| EdgeCalls.SoloPop | src/graph_core.hpp:650-653 | an undisturbed pop does what the sequential method does, and every item it or its flush takes is discarded |
| EdgeCalls.SoloPeek | src/graph_core.hpp:626-649 | an undisturbed peek takes nothing but what is flushed, and waits where there is nothing |
| EdgeDrain.LawKept | src/graph_core.hpp:662-676 | with a thread in waitEmpty() as well, items stay in order and counters exact, and the consumer's events keep their laws |
| EdgeDrain.ConsumerStillWakes | src/graph_core.hpp:662-676 | so the consumer loses no wake-up, drained or not |
| EdgeDrain.ExactlyStolen | src/graph_core.hpp:662-676 | a step leaves the producer with reason to wake and nobody to wake it if and only if it is the drain's read of the last signal, or a signal held back because the flag still tells of the one the drain has just read |
| EdgeDrain.StealingDrains | src/Event.hpp:45-68 | either needs a drain between its poll and the clearing of the flag |
| EdgeDrain.WakesUnlessStolen | src/graph_core.hpp:662-676 | over every run the producer is notified whenever it has reason to wake, if and only if no step was one of those |
| EdgeDrain.UndrainedIsEdge | src/graph_core.hpp:662-676 | while nobody drains the edge is in a state of the protocol without drains |
| EdgeDrain.BothSleepForGood | src/graph_core.hpp:662-676 | a run after which the producer sleeps though there is room, the consumer sleeps, nobody signals or drains, and neither can move |
| EdgeLiveness.SignalArrives | src/Event.hpp:65-68 | in every fair infinite run a signal on its way ends with a readable counter, although the write may be left to another thread |
| EdgeLiveness.ReadableWakes | src/graph_core.hpp:423-433 | in every fair run a polling side with a readable counter moves on |
| EdgeLiveness.SleeperWakes | src/graph_core.hpp:423-472 | in every fair run a side inside poll() whose queue condition or stop flag holds leaves poll() |
| SeekProgram.ExecuteUpstream | src/graph_base.hpp:32-43 | the loop visits exactly the chain of edges and nodes above a node, nearest first |
| SeekProgram.ChainShape | src/graph_base.hpp:32-43 | the chain is finite, strictly upstream and without repeats, and its edges are those of its nodes that have a source |
| SeekProgram.RunPhase | src/RealTimeTeam.hpp:275-286 | one loop of the team: the same phase for every target, in order |
| SeekProgram.FlushAndSeek | src/RealTimeTeam.hpp:254-287 | the four loops: every target's part of a phase precedes any part of the next phase |
| SeekProgram.MembersClosed | src/graph_base.hpp:84-171 | whatever lies above a node of the seek belongs to the seek |
| SeekProgram.FlushedEdgeOps | src/graph_base.hpp:84-117 | every edge of the seek is flushed and stopped in the first phase, and cleared and let go in the third |
| SeekProgram.PairedProgram | src/graph_base.hpp:101-117 | in the whole program each lock is followed at once by its unlock and each clearing of an edge by the end of its flushing |
| SeekProgram.MemberOps | src/graph_base.hpp:84-171 | every node of the seek is paused first, waited for, and resumed last |
| SeekProgram.CompleteOrder | src/graph_base.hpp:118-171 | in the last phase a node is resumed only after every input above it was seeked, and an input met again was resumed before |
| SeekProgram.ProgramOrder | src/RealTimeTeam.hpp:254-287 | the same for the whole seek of any number of targets with shared inputs |
| SeekProtocol.ThreadKeeps | src/graph_mgmt.cpp:307-321 | no step of a node thread breaks the laws of the seek |
| SeekProtocol.ControlKeeps | src/graph_base.hpp:84-171 | no action of the seeking thread breaks them |
| SeekProtocol.NobodyProcessesAfterWait | src/graph_base.hpp:84-110 | once the wait phase has ended no node of the seek is inside process() until it is resumed |
| SeekProtocol.ClearedEdgesStayEmpty | src/graph_base.hpp:111-117 | after the clear phase each flushed edge is empty and stays so until its producer is resumed |
| SeekProtocol.NoOldFrameSurvives | src/graph_base.hpp:84-171 | no frame put on a flushed edge before the last phase survives the clear phase |
| SeekProtocol.ProcessesOnlyAfterSeek | src/graph_base.hpp:118-171 | a node that processes again has every input above it seeked, once |
| SeekProtocol.SeekedExactlyOnce | src/RealTimeTeam.hpp:275-286 | at the end every input of the seek was seeked exactly once however many targets share it, no other node was, and no node is left paused |
| SeekProtocol.NothingLeftBehind | src/graph_base.hpp:111-117 | from the end of the clear phase on no edge of the seek flushes or asks anybody to stop, and after the seek no node is paused and no lock held, in every interleaving |
| SeekProtocol.WorksAgain | src/graph_core.hpp:304-311 | so that after the seek a put on such an edge goes through, a get waits for a frame, a put waits for room, and every node thread may enter and process |
| SeekProtocol.OthersUntouched | src/graph_base.hpp:32-43 | no action of the seek changes a flag, a frame, a pause or a position of a node or edge outside it |
| SeekProtocol.FramesComeAndGo | src/graph_core.hpp:435-472 | over every step: a frame gets on an edge only by its producer's put, at the end; the oldest leaves by a get, a drop while flushing or the clearing, and nothing else changes an edge |
| SeekProtocol.SoloPut | src/graph_core.hpp:566-588 | an undisturbed put adds its frame and changes nothing else |
| SeekProtocol.SoloGet | src/graph_core.hpp:460-472 | an undisturbed get takes the oldest frame and changes nothing else |
| SeekProtocol.SoloTurn | src/graph_mgmt.cpp:307-321 | an undisturbed turn of a node thread processes exactly if the node is not paused, and ends where it began |
| SeekProtocol.WaitingGetsEnd | src/graph_core.hpp:316-321 | while the seek waits, a get on its edges can always end |
| SeekProtocol.WaitingPutsEnd | src/graph_core.hpp:300-321 | ... and so can a put |
| SeekProtocol.OnlyLocksDelay | src/graph_base.hpp:99-110 | the seeking thread waits for nothing but the lock of a node that works |
| SeekLiveness.MemberComesOut | src/graph_base.hpp:99-110 | in every fair run, while the seek waits, the thread of each of its nodes whose process() only an edge of the seek could keep comes out of the node |
| SeekLiveness.WaitPhaseEnds | src/graph_base.hpp:99-110 | in every such run the wait phase ends, however many nodes there are |
| Timers.InsertPlace | src/EventLoop.hpp:242-256 | a timer goes after all of its time or earlier, before all later ones |
| Timers.InsertSorted | src/EventLoop.hpp:242-256 | setting a timer keeps the order by time, first set first among equals |
| Timers.DueExactly | src/EventLoop.hpp:127-142 | the leading timers collected are exactly those due |
| Timers.CollectDue | src/EventLoop.hpp:127-142 | the loop moves exactly the due prefix out, in order |
| EventQueue.LoopQueues.Execute | src/EventLoop.hpp:207-215 | from the loop's own thread the work is kept local, from another it is enqueued, counted and signalled |
| EventQueue.LoopQueues.Schedule | src/EventLoop.hpp:242-256 | the timer is set, and only a new first timer from another thread signals |
| EventQueue.LoopQueues.ExecuteSingle | src/EventLoop.hpp:65-82 | the loop's own work first, posted work only when some is counted |
| EventQueue.LoopQueues.ExecuteAll | src/EventLoop.hpp:156-164 | the loop at the end of a pass runs all of its own work, then all posted work, in order |
| EventQueue.LoopQueues.TakeDue | src/EventLoop.hpp:127-142 | exactly the due timers leave, in order |
| EventQueue.KeepsRest | src/EventLoop.hpp:61-82 | undisturbed, every operation keeps the count equal to the posted queue, and a pass ends exactly when nothing is left |
| EventQueue.SoloSingle | src/EventLoop.hpp:65-82 | the atomic steps of one undisturbed executeSingleFromToDo() add up to what the method does |
| EventQueue.SoloPost | src/EventLoop.hpp:207-215 | the atomic steps of execute() from another thread, undisturbed, add up to what the method does, its wake-up included |
| EventQueue.OnLoopThread | src/EventLoop.hpp:207-254 | execute() and schedule() from a handler do what the methods do on the loop's own thread, without a wake-up |
| EventQueue.SoloSchedule | src/EventLoop.hpp:242-256 | the atomic steps of schedule() add up to what the method does, and leave lock and threads as they were |
| EventQueue.SoloFast | src/EventLoop.hpp:216-222 | fastExecute() with the lock enqueues and counts its task without a wake-up and goes on to drain |
| EventQueue.ScheduledExactly | src/EventLoop.hpp:242-256 | the timer set has the time asked for, behind those of the same or an earlier time; the others stay; the wake-up is given exactly for a new earliest timer from another thread |
| EventLoop.InvKept | src/EventLoop.hpp:61-166 | the laws of locks, count, wake-ups, deadline, timers and queue are kept by every step of the loop, of posters, of fastExecute() and of timer setters |
| EventLoop.NoWorkForgotten | src/EventLoop.hpp:94-166 | whenever the loop sleeps with no unread wake-up its local queue is empty, and posted work means that some thread has yet to count, signal or drain it |
| EventLoop.WakesForTheFirstTimer | src/EventLoop.hpp:98-113 | asleep with no unread wake-up and no timer being set, the deadline is no later than the time asked of schedule() for any timer that has not run, but for the time between computing the timeout and sleeping |
| EventLoop.SleepsToTheFirstTimer | src/EventLoop.hpp:98-113 | and it is exactly that time for the earliest timer, and none without a timer |
| EventLoop.RecordsExactly | src/EventLoop.hpp:207-254 | over every step: times asked for, work posted and work handed out by handlers are recorded as they come, and nothing else is |
| EventLoop.NoTimerLost | src/EventLoop.hpp:127-164 | every timer ever asked for is scheduled, due or has run, with the time that was asked for it |
| EventLoop.LeavesSleep | src/EventLoop.hpp:114-126 | what ends the loop's sleep, and where it goes on: after a signal it computes its timeout anew |
| EventLoop.IdlePass | src/EventLoop.hpp:96-164 | a wake-up with nothing to do costs one pass: it is read, and the loop sleeps again, to its first timer |
| EventLoop.OtherPass | src/EventLoop.hpp:142-158 | a pass for another descriptor leaves a wake-up that came meanwhile unread |
| EventLoop.TimersRunOnceInOrder | src/EventLoop.hpp:127-164 | no timer runs twice, and a batch runs by time, first set first on ties |
| EventLoop.NeverEarly | src/EventLoop.hpp:127-164 | no timer, the last one run included, runs before the time asked for it |
| EventLoop.RanTimersAreGone | src/EventLoop.hpp:127-164 | a timer that ran is neither scheduled nor due |
| EventLoop.CountNeverWraps | src/EventLoop.hpp:61-82 | the count trails the queue by what is enqueued and not counted, and is never lowered below zero |
| EventLoop.TasksTakenInOrder | src/EventLoop.hpp:61-82 | posted tasks are taken in the order enqueued, each once, and the rest is still queued; and so is what handlers give the loop |
| EventLoopLiveness.WorkWakes | src/EventLoop.hpp:58-64 | in every fair infinite run a loop asleep while work is posted leaves its sleep, or another thread takes the oldest task |
| EventLoopLiveness.DeadlineWakes | src/EventLoop.hpp:100-113 | in every fair run a loop asleep past its deadline, or with an unread wake-up, leaves its sleep |
| EventLoopLiveness.DueTimersRun | src/EventLoop.hpp:125-164 | in every fair run in which locks are had in the end and fastExecute() calls end, every timer asked for a time that has come by when the loop is awake runs |
| EventLoopLiveness.LocalWorkStarves | src/EventLoop.hpp:65-82 | a handler that hands the loop another task each time leads back to the same state but for the records, with posted work and timers untouched |
| GroupRequests.RequestBox.GoToState | src/graph_mgmt.cpp:643-662 | refused while a shutdown is pending, or automatic against a pending stop, or a restart already pending; otherwise stored, the attempt number raised unless a restart meets a start under way, and signalled |
| GroupRequests.RequestBox.TakeRequest | src/graph_mgmt.cpp:900-910 | the request is read, a restart consumed into a start, and whether a start is under way recorded |
| GroupRequests.MailKept | src/graph_mgmt.cpp:888-951 | every step keeps a wake-up behind every accepted request that was not read, and what was read is what is served |
| GroupRequests.AttemptKept | src/graph_mgmt.cpp:725-762 | every step keeps the attempt number equal to its snapshot exactly while no explicit request came after it |
| GroupRequests.NodesKept | src/graph_mgmt.cpp:715-762 | every step keeps the nodes already worked on as the request wants them, and the rest of the thread's bookkeeping |
| GroupRequests.NoRequestLost | src/graph_mgmt.cpp:888-951 | asleep with no unread wake-up and nobody mid-request, the last accepted request has been read and carried out on every node, save nodes that ended by themselves or are optional |
| GroupRequests.ExitLeavesNothingUp | src/graph_mgmt.cpp:915-925 | the thread ends only for a shutdown, with every node down |
| GroupRequests.PendingRestartWillBeRead | src/graph_mgmt.cpp:650-652 | a pending restart has a wake-up behind it, and another restart changes nothing |
| GroupRequests.RestartKeepsTheStart | src/graph_mgmt.cpp:653-661 | a restart raised while nodes are started neither cancels that start nor is dropped |
| GroupRequests.ThreadKeepsRequest | src/graph_mgmt.cpp:899-908 | the management thread changes the pending request only by turning a restart it reads into a start |
| GroupRequests.OnlyExplicitReplacesRestart | src/graph_mgmt.cpp:643-662 | a pending restart is replaced by an explicit request only, or is read and served |
| GroupRequests.ExplicitRequestCancels | src/graph_mgmt.cpp:725-755 | an attempt is aborted at its next check exactly if an explicit request came after its snapshot, and at most the one node already checked is still worked on |
| GroupRequests.StopBeforeSnapshotWaits | src/graph_mgmt.cpp:728 | a stop accepted after a start was read and before its snapshot does not cancel that start, and stays pending |
| GroupRequests.StopBeforeSnapshotHappens | src/graph_mgmt.cpp:899-910 | a run that leads to that very moment |
| GroupRequests.FinishIsFinal | src/graph_mgmt.cpp:643-649 | nothing overrides a shutdown request |
| GroupRequests.AutomaticNeverReplacesStop | src/graph_mgmt.cpp:646-649 | no automatic restart replaces a pending stop |
| GroupRequests.ServedStopIsDown | src/graph_mgmt.cpp:888-951 | asleep with nothing left to read, a stop that was accepted last has been served and no start is under way |
| GroupRequests.AutomaticNeverOverridesStop | src/graph_mgmt.cpp:646-649 | from every reachable state in which a stop was accepted, with automatic restarts only: the stop stays, the group is down as soon as the thread sleeps again, and stays down |
| GroupThread.RequestsAreServed | src/graph_mgmt.cpp:888-951 | from every reachable state the thread left to itself carries the last request out and sleeps with nothing unread, or ends after a shutdown with every node down |
| GroupThread.AllNodes | src/graph_mgmt.cpp:725-755 | an attempt, wherever it is, comes to its end or is cancelled; nobody cancelling, every node is up, and what was up is left alone |
| GroupThread.AbortStopsAll | src/graph_mgmt.cpp:746-755 | a start that was given up stops every node before it is tried again |
| GroupThread.LeftAlone | src/graph_mgmt.cpp:911-912 | a group that already is as asked is left alone |
| GroupThread.EndedNodeComesBack | src/graph_mgmt.cpp:725-745 | a start brings every node up, also one that has ended by itself |
| GroupRestarts.RestartStopsFirst | src/graph_mgmt.cpp:757-762 | a restart that is about to start the nodes has stopped them all, and none comes up while they are created |
| GroupRestarts.RestartRestartsAll | src/graph_mgmt.cpp:888-951 | once a restart accepted last has been served, it was read after it was accepted, and every node that is up came up since it was read, unless stopping failed in it with a node up |
| GroupRestarts.FailedStopSkips | src/graph_mgmt.cpp:715-762 | where stopping a node fails in a restart with nothing newer asked, the restart can end with a node up that it did not touch if and only if a node was still up |
| GroupRestarts.FailedStopHappens | src/graph_mgmt.cpp:927-940 | a run to such a moment |
| GroupSort.HasEdge | src/graph_mgmt.cpp:829-839 | the loop finds an edge exactly if one is offered and needed |
| GroupSort.SortVisit | src/graph_mgmt.cpp:817-847 | terminates on any graph, fails exactly on a node being visited, marks only unmarked nodes, and in an acyclic graph keeps producers before consumers |
| GroupSort.VisitConsumers | src/graph_mgmt.cpp:825-842 | the loop over all nodes visits every unmarked consumer |
| GroupSort.Sort | src/graph_mgmt.cpp:848-857 | never fails, returns every node exactly once, and puts every producer before its consumers exactly if the graph has no cycle |
| GroupSort.PathGoesRight | src/graph_mgmt.cpp:817-857 | along any path of edges positions in an ordered list grow |
| GroupSort.OrderedIsAcyclic | src/graph_mgmt.cpp:817-857 | an ordered permutation exists only for an acyclic graph |
| GroupSort.TwoNodeCycle | src/graph_mgmt.cpp:817-847 | a graph of two nodes with no ordered permutation, on which the sort therefore succeeds with a list that is not ordered |
| PlaylistPolicy.Rounded | demos/playlist/playlist.py:97-102 | rounding to the nearest integer, ties to even |
| PlaylistPolicy.MediaSpan | demos/playlist/playlist.py:97-102 | one pass takes what its media takes at its speed, to half a millisecond, and is unknown exactly without an end behind the cue-in |
| PlaylistPolicy.Span | demos/playlist/playlist.py:104-110 | a span is never negative and unknown for a self-looping element |
| PlaylistPolicy.FindEnabled | demos/playlist/playlist.py:144-154 | the loop of _step_enabled() computes the specified step |
| PlaylistPolicy.ForwardIsNearest | demos/playlist/playlist.py:144-154 | without wrapping, a step forward finds the nearest enabled element after the current one, or none if there is none |
| PlaylistPolicy.BackwardIsNearest | demos/playlist/playlist.py:144-154 | ... and a step backward the nearest enabled one before it |
| PlaylistPolicy.WrappingFinds | demos/playlist/playlist.py:144-154 | with wrapping, in either direction, some element is found whenever one is enabled, with only disabled ones on the way to it |
| PlaylistPolicy.StepIsNearest | demos/playlist/playlist.py:144-154 | a step finds another element exactly if that is enabled, ahead or reached by wrapping, and only disabled ones stand in between |
| PlaylistPolicy.FirstEnabled | demos/playlist/playlist.py:157-158 | the first enabled element, None exactly when all are disabled |
| PlaylistPolicy.ResolveAutomatic | demos/playlist/playlist.py:161-169 | the successor is an element of the playlist, enabled unless it is the current one |
| PlaylistPolicy.PlayAllNext | demos/playlist/playlist.py:161-169 | under PlayAll playback goes to the nearest enabled element after the current one, unless that loops |
| PlaylistPolicy.CurrentOnlyNext | demos/playlist/playlist.py:161-169 | a self-loop stays, PlayCurrent ends with its element, LoopCurrent repeats it |
| PlaylistPolicy.LoopAllNext | demos/playlist/playlist.py:161-169 | under LoopAll the next element is the enabled one reached forward, around the end where need be; the same element only where no other is enabled |
| PlaylistPolicy.ResolveSameShape | demos/playlist/playlist.py:161-169 | the successor depends on nothing but which elements are enabled and how the current one ends |
| PlaylistPolicy.ManualEscapes | demos/playlist/playlist.py:172-185 | manual navigation, either way, leaves current-only playlists and self-looping elements, for the nearest enabled element |
| PlaylistPolicy.ManualOtherwise | demos/playlist/playlist.py:172-186 | with nowhere to go manual navigation stays; with nothing current it goes to the first or the last enabled element |
| PlaylistCommands.StopParks | demos/playlist/playlist.py:422-433 | stop() parks what is on air, pending or armed, all of it and nothing else, and asks for nothing more; with nothing in use it does nothing |
| PlaylistCommands.StopForgets | demos/playlist/playlist.py:422-433 | after stop() nothing is left to come, and the element that was on air is the one to play again |
| PlaylistCommands.PauseHolds | demos/playlist/playlist.py:413-420 | pause() holds the element on air where it is and parks what was to follow it, and does nothing unless something plays |
| PlaylistCommands.PlayTakes | demos/playlist/playlist.py:397-411 | play() does nothing while playing or loading, resumes what is paused, and otherwise takes the element that was on air or the first enabled one |
| PlaylistCommands.ElementCommands | demos/playlist/playlist.py:438-452 | a command for one element selects it, and leaves what is on air alone unless it is that element |
| PlaylistCommands.ElementStopParks | demos/playlist/playlist.py:454-463 | stopping an element stops playback if it plays or is to come, and otherwise parks that element alone |
| PlaylistCommands.FailureForgets | demos/playlist/playlist.py:345-355 | a failed cue is forgotten; playback goes on, and only a first element that fails leaves the transport Stopped |
| PlaylistCommands.CutsOver | demos/playlist/playlist.py:385-395 | at the end of an element whose successor failed to be armed playback cuts over to it |
| PlaylistCommands.Reorders | demos/playlist/playlist.py:515-519 | the element ends at the place it was sent to and the others keep their order |
| PlaylistCommands.Inserts | demos/playlist/playlist.py:486-494 | an element is inserted at its place, unless its ID is known or sixteen are in |
| PlaylistCommands.Removes | demos/playlist/playlist.py:496-499 | an element is removed and the others keep their order, unless it is the last |
| PlaylistCommands.RemovalSelects | demos/playlist/playlist.py:507-511 | what is selected instead of a removed element: the one that moves up, or the last, or else the first enabled one |
| PlaylistCommands.DisablingSelects | demos/playlist/playlist.py:530-532 | what is selected instead of a disabled element: the next enabled one, around the end if need be |
| PlaylistCommands.NavigatesToNearest | demos/playlist/playlist.py:468-478 | next() takes the nearest enabled element after the one on air, or else the selected one, and prev() the nearest before, around the end in the looping modes |
| PlaylistCommands.NavigatesNowhere | demos/playlist/playlist.py:468-478 | and where there is none they do nothing |
| PlaylistController.Controller.constructor | demos/playlist/playlist.py:203-230 | a controller starts stopped with the first enabled element selected, and all laws hold |
| PlaylistController.Controller.DisarmNow | demos/playlist/playlist.py:276-280 | the armed element is parked and forgotten |
| PlaylistController.Controller.ArmTheNext | demos/playlist/playlist.py:282-295 | what is armed afterwards is the successor, cued for the current end, or nothing when playback ends or repeats |
| PlaylistController.Controller.GoOnAir | demos/playlist/playlist.py:297-314 | the element is on air from the given time, the one before it parked, the next one armed |
| PlaylistController.Controller.TakeElement | demos/playlist/playlist.py:316-336 | an enabled element is cued at once, and the request withdrawn if the backend raises |
| PlaylistController.Controller.NotifyOnAir | demos/playlist/playlist.py:339-343 | an answer counts exactly when its request is live, and then its element is on air from the reported time; one that names what was cued was pending or armed, and keeps the laws |
| PlaylistController.Controller.NotifyFailed | demos/playlist/playlist.py:345-355 | a failure withdraws the request it answers, and nothing else |
| PlaylistController.Controller.DrainEvents | demos/playlist/playlist.py:357-364 | the loop takes the reported events in, in order |
| PlaylistController.Controller.CompleteNow | demos/playlist/playlist.py:369-390 | stops, repeats or cuts over, or leaves it to the armed element |
| PlaylistController.Controller.PollAt | demos/playlist/playlist.py:366-390 | events first, then stop, repeat or cut over once the active element has reached its end; only enabled elements are cued, and honest reports keep the laws |
| PlaylistController.Controller.Plays | demos/playlist/playlist.py:397-411 | resumes the element on air with times shifted by the pause, or takes the active or first enabled element; the laws are kept |
| PlaylistController.Controller.Pauses | demos/playlist/playlist.py:413-420 | a playing element is paused at the current time with nothing left armed; the laws are kept |
| PlaylistController.Controller.StopNow | demos/playlist/playlist.py:422-433 | afterwards the controller is stopped with no time known and no request live, and everything in use was parked; the laws are kept |
| PlaylistController.Controller.ElementPlays | demos/playlist/playlist.py:438-445 | selects, then resumes, takes or leaves the element alone; the laws are kept |
| PlaylistController.Controller.ElementPauses | demos/playlist/playlist.py:447-452 | selects, then pauses playback or that element alone; the laws are kept |
| PlaylistController.Controller.ElementStops | demos/playlist/playlist.py:454-463 | selects, then stops, disarms or parks; the laws are kept |
| PlaylistController.Controller.Navigates | demos/playlist/playlist.py:465-477 | takes the manual successor, if it is another; the laws are kept |
| PlaylistController.Controller.InsertClip | demos/playlist/playlist.py:486-494 | refused for a known ID or a full playlist; otherwise inserted and re-armed; the laws are kept |
| PlaylistController.Controller.RemoveClip | demos/playlist/playlist.py:496-513 | the last element is refused; playback of a removed element stops, its requests go, another is selected, and the next is re-armed; the laws are kept |
| PlaylistController.Controller.ReorderClip | demos/playlist/playlist.py:515-519 | the element moves and the next is re-armed; the laws are kept |
| PlaylistController.Controller.DisableClip | demos/playlist/playlist.py:521-533 | disabling stops or disarms what used the element, selects past it, and re-arms; the laws are kept |
| PlaylistController.Controller.ReplaceClip | demos/playlist/playlist.py:544-550 | an edit keeps the ID, and the element on air is taken again, the armed one re-armed; the exact laws are kept if and only if ReplaceKeeps says so, the others always |
| PlaylistController.Controller.ChangeMode | demos/playlist/playlist.py:560-562 | the mode changes and the next is re-armed; the laws are kept |
| PlaylistController.Controller.ChangeTransition | demos/playlist/playlist.py:564-570 | re-arms, whatever the transport; the laws are kept |
| PlaylistLaws.InvKept | demos/playlist/playlist.py:276-570 | the laws of requests, times, selection, what is armed and the log are kept by every command, edit, poll and honest answer; the exact ones too, but for some edits of clips |
| PlaylistLaws.ReplaceExact | demos/playlist/playlist.py:480-484 | an edit of a clip keeps the exact laws if and only if the clip, where it is on air or pending, stays enabled, and is disabled where it stands between the active and the armed element |
| PlaylistLaws.ReplaceKeepsDisabled | demos/playlist/playlist.py:535-558 | so every edit that leaves `disabled` alone keeps them |
| PlaylistLaws.ExactlyKept | demos/playlist/playlist.py:276-570 | whatever is done, the exact laws survive if and only if it is no such edit |
| PlaylistLaws.ArmNextArms | demos/playlist/playlist.py:282-295 | re-arming arms exactly what there is to arm, for the current end, and touches nothing else of playback |
| PlaylistSafety.LiveRequestsInPlaylist | demos/playlist/playlist.py:316-355 | in every run, edits of any kind included, live requests were cued as recorded and name elements of the playlist, as does what is on air; what is armed is not the active element and was cued for the current end |
| PlaylistSafety.LiveRequestsNameElements | demos/playlist/playlist.py:316-355 | in every run in which the edits of clips keep the exact laws, those elements are enabled |
| PlaylistSafety.ArmedIsTheSuccessor | demos/playlist/playlist.py:282-295 | in every such run an armed element is exactly the automatic successor of the active one, cued for the current end |
| PlaylistSafety.EnablingByEditSkips | demos/playlist/control.py:92 | with the first of three elements on air, the second disabled and the third armed, enabling the second by an edit leaves the third armed though the second is to play next |
| PlaylistSafety.AnswersNameTheirElement | demos/playlist/playlist.py:339-343 | an accepted answer puts on air the element its cue named; any other changes nothing |
| PlaylistSafety.OnlyEnabledAreCued | demos/playlist/playlist.py:282-336 | whatever is done, the log only grows and every new cue names an enabled element of the playlist |
| PlaylistSafety.StopIsSilent | demos/playlist/playlist.py:422-433 | after stop() no request is live |
| PlaylistSafety.SilentUntilCued | demos/playlist/playlist.py:339-433 | over any run after a stop, commands, edits and late answers put nothing on air until the next cue |
| PlaylistSafety.ReplacingThePending | demos/playlist/playlist.py:480-484 | replacing the pending element leaves its request live, naming an enabled element exactly if the new clip is enabled, and its answer puts the element on air either way |
| PlaylistSafety.PauseShiftsTheEnd | demos/playlist/playlist.py:397-420 | pausing and resuming leaves exactly as much to play, and re-arms the same element for the new end |
| PlaylistPaused.AnswerableWhenLive | demos/playlist/playlist.py:339-343 | while paused the backend can put an element on air if and only if something is pending or armed |
| PlaylistPaused.RearmingArms | demos/playlist/playlist.py:486-570 | each edit that re-arms and is followed by another element before a known end arms it, paused or not |
| PlaylistPaused.PausedUntilCued | demos/playlist/playlist.py:413-420 | over every run from a pause on in which nobody cues, resumes or stops, the pause lasts and no answer can end it if and only if nothing was pending when it began, no edit re-armed, and no accepted edit of the element on air left it enabled |
| PlaylistPaused.RearmingEndsThePause | demos/playlist/playlist.py:564-570 | re-arming while paused cues the next element for the old end, and the honest answer to that puts it on air, playing |
| PlaylistPaused.EditingEndsThePause | demos/playlist/playlist.py:480-484 | an accepted edit of the element on air while paused cues it again though nothing re-arms, and the honest answer puts it on air, playing |
| PlaylistPaused.QuietReplace | demos/playlist/playlist.py:480-484 | an edit of the element on air that is refused, disables it or fails in the backend leaves the pause alone |
| PlaylistPaused.PausedExample | demos/playlist/playlist.py:413-420 | a run of two elements to such a pause, for either kind of edit |
| PlaylistGapless.InMemoryBackend.CueItem | demos/playlist/playlist.py:639-644 | a cue is reported at once, or scheduled for its time |
| PlaylistGapless.InMemoryBackend.ParkItem | demos/playlist/playlist.py:652-654 | parking drops what is scheduled for the item |
| PlaylistGapless.InMemoryBackend.PollEvents | demos/playlist/playlist.py:662-667 | reports what is ready and due, keeps what is not due |
| PlaylistGapless.PollKept | demos/playlist/playlist.py:366-390 | a poll at any time keeps the chain of what was on air and the phase of the run, and moves on once the end is reached |
| PlaylistGapless.Gapless | demos/playlist/playlist.py:282-390 | whatever the polling times, the k-th start is the first start plus the spans in between, self-repeats included, and each element is the successor of the one before |
| PlaylistGapless.PlayAllPlaysEachOnce | demos/playlist/playlist.py:366-390 | under PlayAll the elements on air are a prefix of the enabled ones, in order, each once, and all of them once the transport is stopped |
| PlaylistGapless.PlayAllStops | demos/playlist/playlist.py:366-390 | with known spans one late poll per enabled element and one more stop the transport |
| PlaylistModes.PlayCurrentPlaysOne | demos/playlist/playlist.py:161-169 | over every polled run under PlayCurrent the first enabled element goes on air, once, and nothing else does |
| PlaylistModes.PlayCurrentStops | demos/playlist/playlist.py:366-378 | a poll leaves the transport Stopped if and only if the element's known end has come |
| PlaylistModes.LoopCurrentRepeats | demos/playlist/playlist.py:379-384 | over every polled run under LoopCurrent every start is of the first enabled element, the k-th at the first plus k spans |
| PlaylistModes.LoopCurrentGoesOn | demos/playlist/playlist.py:379-384 | and the transport never stops by itself: every poll at or after the end of a pass starts another |
| PlaylistModes.LoopAllGoesRound | demos/playlist/playlist.py:161-169 | over every polled run under LoopAll each element is followed by the enabled one reached forward with wrapping, none left out |
| PlaylistModes.LoopAllGoesOn | demos/playlist/playlist.py:366-395 | and the transport never stops by itself |
| DecoderParking.TotalWith | src/decoder_surfaces.hpp:210-228 | a reservation replaces its owner's and a release takes it out, in the total |
| DecoderParking.DecoderPoolLedger.Reserve | src/decoder_surfaces.hpp:210-218 | refused only over a budget; the total includes the pool either way |
| DecoderParking.DecoderPoolLedger.Sum | src/decoder_surfaces.hpp:223-228 | the loop adds up all pools |
| DecoderParking.ReservedWithinBudget | src/decoder_surfaces.hpp:210-222 | a reservation under a budget, and a release, keep the total within it |
| DecoderParking.FreedBytes | src/decoder_surfaces.hpp:317-335 | freeing the oldest takes exactly what they hold out of the total |
| DecoderParking.ParkReserves | src/decoder_surfaces.hpp:348-372 | after a park the total is what it was, the parked pool more and exactly what was freed less, whatever the budget |
| DecoderParking.TotalWithinBudget | src/decoder_surfaces.hpp:210-425 | over every run from a new show on whose live reservations are made under one budget, the total stays within it if and only if no park takes it beyond |
| DecoderParking.ClosingOverbooks | src/nodes/decoders.cpp:828-842 | a run in which a decoder that holds the whole budget closes: it parks before it releases, and the total is twice the budget |
| DecoderParking.ClosedAddsNothing | src/nodes/decoders.cpp:828-842 | once a closed decoder has released its own pool the total is no more than it was before |
| DecoderParking.LiveWithinBudget | src/decoder_surfaces.hpp:210-218 | over every such run, whatever is parked meanwhile, the live decoders' own pools stay within the budget |
| DecoderParking.ParkingKeepsLivePools | src/decoder_surfaces.hpp:348-425 | parking, freeing, making room and taking over do not touch the live decoders' pools |
| DecoderParking.Parking.ParkDecoder | src/decoder_surfaces.hpp:348-372 | the entry is added and booked, and as few of the oldest freed as the bounds need; a limit of zero does nothing; conservation is kept |
| DecoderParking.Parking.FreeOneDecoder | src/decoder_surfaces.hpp:385-394 | the oldest is freed and unbooked, true exactly when there was one; conservation is kept |
| DecoderParking.Parking.MakeRoomFor | src/decoder_surfaces.hpp:398-402 | the loop frees the oldest one by one while the request does not fit; conservation is kept |
| DecoderParking.Parking.TakeDecoder | src/decoder_surfaces.hpp:406-425 | takes out of lot and ledger the first of the smallest decoders of the same codec, size and format with enough surfaces, and none exactly when there is none; conservation is kept |
| DecoderParking.Parking.OpenSession | src/decoder_surfaces.hpp:375-378 | one more live decoder, and the peak with it where it is passed; conservation is kept |
| DecoderParking.Parking.CloseSession | src/decoder_surfaces.hpp:379-382 | one live decoder less, never below none; conservation is kept |
| DecoderParking.Choice | src/decoder_surfaces.hpp:406-417 | nothing smaller fits, nothing as small stands before it, and None means that nothing fits |
| DecoderParking.AlwaysConserved | src/decoder_surfaces.hpp:332-425 | every operation keeps parked_total = freed + reused + parked, the entries distinct, and each accounted pool in the ledger exactly once beside the live ones |
| DecoderParking.RunConserves | src/decoder_surfaces.hpp:332-425 | so it is in every run from a new show on |
| DecoderParking.ParkBounds | src/decoder_surfaces.hpp:348-372 | after every park live + parked is at most peak + limit, and something was freed only to reach a bound exactly |
| DecoderParking.OpeningExceeds | src/decoder_surfaces.hpp:375-378 | opening goes beyond that bound exactly when the lot is full and not all the peak runs |
| DecoderParking.OpeningMayExceed | src/decoder_surfaces.hpp:375-378 | a run that comes to that: under a limit of 1, two decoders come and go one after the other, and a third comes |
| DecoderParking.ChangingSourcesFreesNothing | src/decoder_surfaces.hpp:348-425 | any run of close-then-park and take-then-open that starts with no more than ever ran at once frees nothing |
| DecoderParking.MakeRoomFits | src/decoder_surfaces.hpp:398-402 | afterwards the request fits or nothing is parked |
| DecoderParking.MakeRoomFreesNoMore | src/decoder_surfaces.hpp:398-402 | the oldest were freed, and not one more than needed |
| SurfaceExhaustion.Exhaustion.FailedAt | src/decoder_surfaces.hpp:144-151 | begins an episode, and drops the packet exactly after it has waited give_up |
| SurfaceExhaustion.Exhaustion.LostAt | src/decoder_surfaces.hpp:153-157 | begins an episode and hides what follows |
| SurfaceExhaustion.Exhaustion.ShownAt | src/decoder_surfaces.hpp:164-177 | ends the episode and counts its whole picture periods |
| SurfaceExhaustion.Exhaustion.ShowPicture | src/decoder_surfaces.hpp:179-187 | shows everything until a loss, and only a keyframe after it |
| SurfaceExhaustion.EpisodePictures | src/decoder_surfaces.hpp:164-167 | whole periods since the episode began, none outside one |
| SurfaceExhaustion.EpisodesAddUp | src/decoder_surfaces.hpp:130-177 | over every trace with a clock that does not go back, exhaustions = recoveries + (1 if stuck), and packets dropped in an episode times give_up never exceed its time |
| SurfaceExhaustion.GivenUpExactly | src/decoder_surfaces.hpp:144-151 | in an episode a packet is given up if and only if give_up has passed since the one before it was, or since the episode began, whatever losses and pictures lie between |
| SurfaceExhaustion.EpisodeBegins | src/decoder_surfaces.hpp:144-151 | a failure or a loss outside an episode begins one, and its clock |
| SurfaceExhaustion.HiddenUntilKeyframe | src/decoder_surfaces.hpp:144-187 | after a lost or dropped picture, however long the trace, only a keyframe is shown, and everything after it |
| SurfaceExhaustion.NothingHiddenWithoutLoss | src/decoder_surfaces.hpp:144-187 | without a loss nothing is hidden |
| RingBuffer.FillCount | src/RingBuffer.hpp:80-83 | the count leads from the read to the write position |
| RingBuffer.CountsAddUp | src/RingBuffer.hpp:80-87 | the modular counts always make up all slots but one |
| RingBuffer.Grant | src/RingBuffer.hpp:96-112 | a grant is the least of what is available, what is left before the end and the maximum, none below the minimum |
| RingBuffer.SegmentIsFree | src/RingBuffer.hpp:96-112 | a granted write segment holds nothing unread |
| RingBuffer.Appended | src/RingBuffer.hpp:137-140 | publishing a written segment appends it to the contents |
| RingBuffer.Removed | src/RingBuffer.hpp:141-144 | publishing a read segment removes the oldest items |
| RingBuffer.Ring.WriteDone | src/RingBuffer.hpp:137-140 | the write position advances modulo the size |
| RingBuffer.Ring.ReadDone | src/RingBuffer.hpp:141-144 | the read position advances modulo the size |
| RingBuffer.Ring.WriteFrom | src/RingBuffer.hpp:145-160 | alone, appends all or nothing, in at most two segments; refuses an empty write |
| RingBuffer.Ring.ReadTo | src/RingBuffer.hpp:176-191 | alone, fills the destination with exactly the oldest items, or changes nothing |
| RingBuffer.Ring.Fill | src/RingBuffer.hpp:161-175 | appends the copies asked for exactly if they do not wrap or wrap into equal halves |
| RingBuffer.FillMayGoWrong | src/RingBuffer.hpp:161-175 | three copies from the last slot of an empty buffer of four leave two counted |
| RingBufferThreads.InvKept | src/RingBuffer.hpp:80-191 | every load, copied slot and published position of both threads keeps the contents a FIFO |
| RingBufferThreads.ReadsInOrder | src/RingBuffer.hpp:137-191 | in every interleaving what was read, and what is being copied out, are the oldest items written, in order |
| RingBufferThreads.NeverOverwritesUnread | src/RingBuffer.hpp:137-160 | no slot is written while it is unread or being copied out |
| RingBufferThreads.GrantsStayGood | src/RingBuffer.hpp:96-112 | a grant stays good whatever the other thread does |
| RingBufferThreads.SecondGrantSuffices | src/RingBuffer.hpp:153-158 | under any interleaving the second grant of a wrapped write is all that is left to write |
| RingBufferThreads.SecondReadSuffices | src/RingBuffer.hpp:184-188 | ... and of a wrapped read all that is left to read |
| RingBufferThreads.WritesAllOrNothing | src/RingBuffer.hpp:145-160 | under any interleaving what was sent is exactly the items of the writes not refused, but for the rest of the one in progress |
| RingBufferThreads.WriteRefused | src/RingBuffer.hpp:145-160 | a write is refused, without effect, exactly if it is empty or finds less room than it needs |
| RingBufferThreads.ReadsAllOrNothing | src/RingBuffer.hpp:176-191 | under any interleaving every read that was not refused returns as many items as asked for, and together they are what was received |
| RingBufferThreads.ReadRefused | src/RingBuffer.hpp:176-191 | a read is refused, without effect, exactly if it is for nothing or finds less unread than it wants |
| RingBufferThreads.WritesEnd | src/RingBuffer.hpp:145-160 | a write under way comes to its end in a number of its own steps that is known beforehand, whatever the reader does meanwhile |
| RingBufferThreads.ReadsEnd | src/RingBuffer.hpp:176-191 | and so does a read |
| RingBufferThreads.DirectGrants | src/RingBuffer.hpp:119-126 | a segment asked for directly is as long as what is there in one piece, up to the maximum, and empty below the minimum |
| SpeedControl.Rounded | src/SpeedControlTeam.hpp:21-35 | rounding to the nearest, ties away from zero |
| SpeedControl.SpeedTeam.SetSpeed | src/SpeedControlTeam.hpp:21-38 | the shift makes up for what the old speed did since the last synchronisation |
| SpeedControl.SpeedTeam.SetLastPts | src/SpeedControlTeam.hpp:99-105 | the last timestamp is kept, and synchronises when nothing did |
| SpeedControl.SpeedTeam.ScalePts | src/SpeedControlTeam.hpp:106-117 | scaled around the last synchronisation; discarded when asked to at another speed than 1 |
| SpeedControl.ContinuousAtChange | src/SpeedControlTeam.hpp:21-35 | the output does not jump at a change of speed or direction |
| SpeedControl.ContinuousAtStart | src/SpeedControlTeam.hpp:99-117 | nor at the first input |
| SpeedControl.NeverGoesBack | src/SpeedControlTeam.hpp:106-117 | while input moves in the playback direction output never goes back |
| SpeedControl.StaysOnTheClock | src/SpeedControlTeam.hpp:21-117 | over any sequence of inputs and changes the output never goes back, and after k changes is within (k + 1) / 2 ticks of the unrounded clock |
| Allocation.Allocate | demos/mixer/demo_recipe.py:28-44 | succeeds exactly for a positive total and non-negative weights not all zero, with the shares as specified |
| Allocation.AllocatesAll | demos/mixer/demo_recipe.py:28-44 | the counts add up to the total |
| Allocation.SharesAreRounded | demos/mixer/demo_recipe.py:28-44 | each entry gets its exact share rounded down, or up only when it is not whole |
| Allocation.LargestRemaindersFirst | demos/mixer/demo_recipe.py:41-43 | those rounded up have the largest remainders, ties in order |
| Allocation.ZeroWeightGetsNothing | demos/mixer/demo_recipe.py:28-44 | no count is negative, and an entry without weight gets nothing |
| SourceCounts.CappedGroup | demos/mixer/setup_runtime.py:91-97 | the loop finds the largest allocation within the group that its limit carries |
| SourceCounts.CapGroup | demos/mixer/setup_runtime.py:90-106 | a group over its limit is cut down, and the rest shared among the others; succeeds under the same condition as the whole |
| SourceCounts.CutToRoom | demos/mixer/setup_runtime.py:91-97 | a group that is cut down keeps exactly as many as its limit carries |
| SourceCounts.Counts | demos/mixer/setup_runtime.py:80-107 | terminates; a result gives out the whole total, nothing to entries without weight, and meets all four caps at once; when the plain allocation meets them it is returned; with at most one raw kind in the mix there is a result if and only if no limit is negative and the groups in the mix carry the total |
| SourceCounts.PromisedIsCarried | demos/mixer/setup_runtime.py:80-107 | whatever meets all caps was within what the groups in the mix carry |
| SourceCounts.CorneredExample | demos/mixer/setup_runtime.py:91-101 | an input with both raw kinds that is refused, though counts exist that meet all caps: the raw kinds keep the whole total and nothing is left to allocate |
| SourceCounts.PlacedMeets | demos/mixer/setup_runtime.py:101-102 | putting a capped group in keeps the other caps |
| Rtcp.Packets | pyplumber/rtcp_feedback.py:29-45 | the loop yields the specified packets |
| Rtcp.ParseUndoesEncode | pyplumber/rtcp_feedback.py:29-45 | for any list of well-formed packets in front of anything, parsing gives the list and then what follows |
| Rtcp.ParseExactly | pyplumber/rtcp_feedback.py:29-45 | the parser on the concatenation of well-formed packets returns exactly those |
| Rtcp.EncodeUndoesParse | pyplumber/rtcp_feedback.py:29-45 | what was parsed, built again, is the datagram from its start, but for padding bits, and no packet starts where it ends |
| Rtcp.KeyframeRequests | pyplumber/rtcp_feedback.py:48-58 | the loop lists the keyframe requests of the parsed packets |
| Rtcp.OneRequest | pyplumber/rtcp_feedback.py:48-58 | a packet asks for a keyframe if and only if it is one of the two feedback messages or the older intra request |
| Rtcp.RequestsOfCompound | pyplumber/rtcp_feedback.py:48-58 | the requests of a compound datagram are those of its parts, in order |
| Rtcp.PliRoundTrip | pyplumber/rtcp_feedback.py:61-69 | a built indication parses to one packet that is one request and names both sources modulo 2^32 |
| Rtcp.FirRoundTrip | pyplumber/rtcp_feedback.py:72-82 | a built intra request parses to one packet that is one request, with its sender, a zero, its media source and its sequence byte |
| Rtcp.SrFields | pyplumber/rtcp_feedback.py:85-97 | a built report says its source, the two halves of the clock and the stream's time, and counts nothing |
| Rtcp.SrAndSdes | pyplumber/rtcp_feedback.py:85-109 | a report followed by a description with a name of any length parses to exactly two packets with no byte left |
| Rtcp.SdesChunk | pyplumber/rtcp_feedback.py:104-109 | the description holds its source, the name with its length, an end and zeros to the next word |
| TimeString.PrintedValue | demos/playlist/engine.py:41-45 | a number printed with a width reads back |
| TimeString.Milliseconds | src/graph_interfaces.hpp:187-204 | the loops bring the fraction to three digits, and a digit string that fits an int to its value cut off after the milliseconds; beyond an int nothing is promised |
| TimeString.ReadsParts | src/graph_interfaces.hpp:172-213 | a text of hours, minutes, seconds and a fraction means what it says, as far as an int reaches |
| TimeString.ReadsClock | src/graph_interfaces.hpp:168-213 | a time with or without hours, with or without a fraction, plain or with a sign, means what it says: absolute, forward or backward, exactly as far as an int reaches |
| TimeString.PartsOfTime | src/graph_interfaces.hpp:206 | the numbers of a time add up to it, exactly as far as the sum fits an int |
| TimeString.SpacesSkipped | src/graph_interfaces.hpp:187 | white space in front of a number does not count |
| TimeString.HmsRoundTrip | demos/playlist/engine.py:41-45 | parsing a printed time gives it back for every time up to the int limit, and beyond it overflows |
| TimeString.PlainNumber | src/graph_interfaces.hpp:214-223 | a plain number is absolute, with a sign relative, exactly as far as 64 bits reach |

## Left out

- Memory order: every atomic operation, queue operation, eventfd read or write and locked section is one sequentially consistent step; the lock-free queues are atomic FIFOs.
- Edges: occupancy statistics, rates, wiretaps, queue growth, timeouts of the waiting calls (a poll may return for no reason instead), frame contents. What is proved in EdgeProtocol and EdgeLiveness holds while nobody is in `waitEmpty()`; EdgeDrain has one such thread, while the consumer exists (without one it discards the items).
- Seek: end-of-stream markers are consumed and forwarded outside the node lock (src/graph_mgmt.cpp:346), so they are not in the model; a flush by that probe is (`Evict`). Resets, discarding up to a timestamp, and linked teams are not. Nobody but the seek raises flags while it runs; what stood when it began is lowered with its own. The graph is fixed, a node has one source edge, and the seek target is not empty.
- SeekProtocol.OnlyLocksDelay: that a node's process() call returns, but for edges of the seek, is the node's own business, and assumed where SeekLiveness proves that the wait ends; an edge below the seek may hold it.
- Event loop: file descriptors other than the wake-up, shutdown, the time limit's value, truncation of the timeout to an int; the deadline is measured from where the timeout is computed.
- EventQueue.LoopQueues.ExecuteAll: only for tasks that hand out no further work; the interleaved loop of EventLoop has no such restriction.
- Group requests: the list of nodes is fixed, creation and start of a node are steps that succeed, skip an optional node or fail, and the sleep before a retry takes no time. Expired list items are not in the sort.
- Playlist: error texts, positions and status, transition kinds and lengths (carried through unchanged), and a backend whose scheduled cue raises. Times and spans are exact; a clip's speed is a positive rational.
- PlaylistSafety.AnswersNameTheirElement: an answer is assumed to name the element its cue named, as backends do; an answer for an element outside the playlist raises in the source.
- PlaylistController.Controller.PollAt: keeps the laws when every report names the element its cue named; for others it promises the new state alone.
- Decoder parking: each call is one step, one ledger per instance, no pauses between frees, no device destruction. The gate that counts held frames is not modelled.
- Ring buffer: views with another element type, moved-from buffers, and a size of zero.
- Speed control: one timebase, exact speeds other than zero (`1.0f/speed` is infinite for zero), no linked teams, and no setLastSync().
- Allocation: weights are integers over a common denominator; the float quotas of the source may round a tie differently.
- SourceCounts.Counts: with both raw kinds in the mix it says of `Cornered` inputs that there is no result, but not of all others whether there is one; the caps of a profile are parameters.
- RTCP: the listener's sockets and threads; the clock is a parameter; characters of a name are code points.
- Time strings: a number beyond an int (a part of a time) or beyond 64 bits (a plain number) has no defined value in C, and none here. Of wall-clock texts only the fraction loop, which is the same, is modelled.
- The TCP control server, REST interface, demo graph builders, media preparation and instance profiles, which would only add easy members.
