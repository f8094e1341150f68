# chaonet: a Dafny verification project

chaonet is a reactor-style network library: every event loop runs on one thread, and other threads hand it work through
a queue. This project models the parts of the library and of its examples whose correctness is not visible from any one
function, and proves what they promise. `dafny verify dfyconfig.toml` checks everything.

| file | what it models |
|---|---|
| `Sudoku.dfy` | the in-place backtracking solver of `examples/sudoku/Sudoku.h` |
| `EventLoop.dfy` | the cross-thread functor queue and its wake-ups, any number of producers interleaved with the loop |
| `TimerSpec.dfy`, `TimerQueue.dfy` | timers over whole runs; the two indexes of the queue, batches, callbacks that add and cancel, arming |
| `Buffer.dfy` | the byte buffer, an array with two indexes |
| `TcpConnection.dfy` | sending, partial writes, write interest, graceful close |
| `Tunnel.dfy` | the pause-and-resume protocol between two connections |
| `Channel.dfy`, `EPoller.dfy`, `Poller.dfy` | event dispatch and the two descriptor registries |
| `TcpServer.dfy` | the life of every connection across a base loop and any number of I/O loops |
| `Connector.dfy` | the connect-and-retry machine and its sockets |
| `HttpParser.dfy` | the request parser over the buffer, against a printer for sections 3 and 5 of RFC 9112 |

Most files have two modules. The first gives the meaning on values: a state, its steps, the invariant of every run and the
main theorems. The second is the object as the source writes it, a class whose methods assign to its fields; each method's
`ensures` ties the new state to the step function of the first module, so that the theorems hold of the object.

## What is assumed

* A byte is a `char`. Integers are unbounded: no `int`, `size_t` or `int64_t` overflows.
* The kernel, poll results, clocks, callbacks and the results of `write`, `readv`, `connect` and `getsockopt` are parameters.
  A callback is an arbitrary sequence of the operations that it may perform.
* Timestamps are nanoseconds since the epoch, and the clock that timerfd counts by advances with the system clock.
  `Timer.address` stands for the order of the shared pointers, by which equal expirations are ordered. Clock readings are not
  before the epoch, and a timer object is added once, with an expiration that only `restart` changes.
* Stores to `quit_` are atomic and the eventfd counter does not overflow.
* `ConnectorSpec.Careful`, which only `OneOutstanding` asks for: `start` and `restart` are called when nothing of an earlier
  attempt is left, and a retry delay outlasts the loop iteration that set it. The other results about the connector let every
  call come at any time.
* `Pollers`: a channel without interest is removed, as the source asserts, and is not registered again afterwards.

## What turned out not to hold

* `TimerQueue::getExpired` asserts that the first remaining entry is strictly later than now
  (`chaonet/src/TimerQueue.cpp:160`). `StrictCheckFailsOnTies` gives the exact condition: no timer is due at now itself.
* The requested delay is clamped to 100 microseconds and cut to whole microseconds, so the descriptor may fire a little after the
  expiration, or within a microsecond before it. `FiresInTimeExactly` says when it is in time, `FiresLateWitness` gives requests that
  are not, and `FiresForEarliest` bounds the delay for the whole queue.
* An idle timer queue is not disarmed: the epoch counts as a valid timestamp. `ArmNext` says so.
* In `cancelInLoop` the check after the erase (`chaonet/src/TimerQueue.cpp:128`) compares the position after the erased timer with the
  end. `EraseCheckExactly`: it holds exactly when some active timer has a higher address than the cancelled one.
* Functors that the loop's own thread queues outside `loop()` bring no wake-up, so a queue of nothing else waits for poll's timeout;
  that is the one exception in `NoLostWakeup`. `FirstPoll`: the first poll blocks with work pending exactly when functors have been
  queued and no other thread has queued one or asked to quit, with the run of `EarlyPushWitness`; `NextPoll` says the same of a
  later call of `loop()`. A quit request made before `loop()` is dropped.
* Calls from other threads can spoil a graceful close. `GracefulExactly` says over all runs when: a message or the second half of a
  shutdown reaches the loop after the write side has been shut, or a shutdown reaches it after a close that left bytes buffered.
  `LateSendSpoils` and `SecondShutdown` give the condition for a single functor, and `LateSendWitness`, `SecondShutdownWitness` and
  `EarlyShutdownWitness` a run for each case.
* A hang-up report can run both handlers that close a connection. `ClosesTwiceExactly` gives the reports that do.
* The checks in the connector fail for some calls. `ChecksExactly` lists the events that fail one in a reachable state; `StartSafe` and
  `RestartSafe` say when a start or a restart may run whatever `connect` answers. In particular a start during a retry delay
  makes the timer fail the check (`StartWhileWaiting`), and a start after a `stop` that came while connecting passes it exactly
  when that attempt failed (`StartAfterStop`, with a run in `StartAfterStopWitness`).
* A slot of the poll array that was disabled stays ignored when its channel asks for events again: `IgnoredExactly`, with the calls of
  `ReenableWitness`. A channel that is registered without interest and then removed fails the check in `removeChannel`:
  `RemovalCheckExactly`, with the calls of `RemovalCheckWitness`.
* `HttpContext::parseRequest` never returns when the headers are not all there or the context was not reset. `HeadersEnd` and
  `LoopMeetsOutcome` say exactly when it returns. After a refused line the check in `setMethod` fails on the next call exactly
  when that line began with a known method: `SecondCall`.

## Model

| member | source | states |
|---|---|---|
| SudokuSolver.Sudoku.SolveSudoku | examples/sudoku/Sudoku.h:68-80 | from unsolved, the flag ends true exactly when some full legal grid extends the givens; then the board is the row-major least such grid, otherwise it is unchanged |
| SudokuSolver.Sudoku.Traceback | examples/sudoku/Sudoku.h:128-160 | entered with tables that record exactly the board, it ends solved with the first completion, or unsolved with no completion in existence and board and all three tables as they were |
| SudokuSolver.Sudoku.IsValidSudoku | examples/sudoku/Sudoku.h:83-103 | accepts exactly the boards without two equal digits in a unit, and leaves tables that record exactly the givens; a rejected board has no completion |
| SudokuSolver.Sudoku.RecordGiven | examples/sudoku/Sudoku.h:87-98 | a cell is recorded unless its given clashes with one read before, and then the board has no completion |
| SudokuSolver.Sudoku.CurEleValid | examples/sudoku/Sudoku.h:104-111 | the three table look-ups say whether the digit occurs in the cell's row, column or block |
| SudokuSolver.Sudoku.UpdateRecord | examples/sudoku/Sudoku.h:113-119 | tables of a board become tables of the board with the digit placed |
| SudokuSolver.Sudoku.CancelRecord | examples/sudoku/Sudoku.h:121-127 | undoing a digit that was free gives back the tables of the board before it: no other cell's mark is erased |
| SudokuSolver.Sudoku.Update | examples/sudoku/Sudoku.h:31-46 | loads 81 cells row by row with '0' as blank and clears the flag; a shorter string changes nothing |
| SudokuSolver.Sudoku.constructor | examples/sudoku/Sudoku.h:19-29 | a solver loaded from a string holds that puzzle, unsolved |
| SudokuSolver.Sudoku.Result | examples/sudoku/Sudoku.h:48-61 | the solved board read row by row, or the empty string while unsolved |
| SudokuSpec.LeastDigitIsFirst | examples/sudoku/Sudoku.h:144-158 | if no completion has a smaller digit at the first blank cell, the first completion with the tried digit is the first of all |
| SudokuSpec.SkipFailed | examples/sudoku/Sudoku.h:149-157 | a digit whose search failed belongs to no completion |
| SudokuSpec.SkipTaken | examples/sudoku/Sudoku.h:145 | a digit already in the row, column or block belongs to no completion |
| SudokuSpec.UnmarkPlaced | examples/sudoku/Sudoku.h:121-127 | clearing the three marks of a digit that was free turns the tables back into those of the old board |
| SudokuSpec.MarkPlaced | examples/sudoku/Sudoku.h:113-119 | setting the three marks turns the tables of a board into those of the board with the digit placed |
| SudokuSpec.LookupIsTaken | examples/sudoku/Sudoku.h:104-111 | the three table entries consulted for a digit are set exactly when it is taken |
| SudokuSpec.ClashSeen | examples/sudoku/Sudoku.h:91-92 | a given already seen in one of its units rules out every completion |
| SudokuSpec.FirstCompletionIsTheAnswer | examples/sudoku/Sudoku.h:128-160 | there is at most one first completion, and a puzzle with a single solution has it as its first |
| EventLoopProtocol.NoLostWakeup | chaonet/src/EventLoop.cpp:67-110 | in every interleaving, before, between and during calls of loop(), a loop at poll with quit asked for, or with any functor pending beyond those its own thread queued outside loop(), has a readable eventfd or a producer that still owes its wake-up |
| EventLoopProtocol.FirstPoll | chaonet/src/EventLoop.cpp:67-110 | after any calls before loop(), the first poll has a wake-up if and only if another thread queued a functor or asked to quit, so it blocks with work pending if and only if only its own thread queued any; an earlier quit request is dropped |
| EventLoopProtocol.NextPoll | chaonet/src/EventLoop.cpp:67-110 | the same for every later call of loop(), where a wake-up left from before counts too |
| EventLoopProtocol.EarlyPushWitness | chaonet/src/EventLoop.cpp:107-109 | a run in which the loop polls with a functor pending and nothing to wake it |
| EventLoopProtocol.PushOrder | chaonet/src/EventLoop.cpp:101-110 | in every interleaving executed, rest of the batch and pending together are the push order, so each functor runs at most once and none is lost |
| EventLoopProtocol.OneRoundDrains | chaonet/src/EventLoop.cpp:73-80 | from any reachable poll with work and no producer under way one round executes everything pushed, and after a quit request the loop exits; poll returns at once unless everything pending was queued by the loop's own thread outside loop() |
| EventLoopProtocol.ServedByNextBatch | chaonet/src/EventLoop.cpp:170-182 | whatever every thread does meanwhile, a functor pushed before the swap has run when that batch is finished |
| EventLoopProtocol.StepKeepsInv | chaonet/src/EventLoop.cpp:67-182 | every atomic step of the loop or of a producer keeps conservation and the wake-up cover |
| EventLoopProtocol.StartedWorkGrows | chaonet/src/EventLoop.cpp:170-182 | what has been started or taken into a batch only ever grows at its end |
| EventLoopObject.EventLoop.QueueInLoop | chaonet/src/EventLoop.cpp:101-110 | pushes at the back and writes the eventfd exactly for a foreign thread or while functors are being called; the object stays in a reachable protocol state |
| EventLoopObject.EventLoop.Quit | chaonet/src/EventLoop.cpp:86-91 | sets the flag and wakes the loop exactly for a foreign thread |
| EventLoopObject.EventLoop.Wakeup | chaonet/src/EventLoop.cpp:148-157 | adds one to the eventfd counter |
| EventLoopObject.EventLoop.HandleRead | chaonet/src/EventLoop.cpp:159-168 | reads the counter down to zero |
| EventLoopObject.EventLoop.RunCallback | chaonet/src/EventLoop.cpp:86-110 | user code on the loop thread queues exactly its functors, in order, and sets quit if and only if it was set or is asked for |
| EventLoopObject.EventLoop.Dispatch | chaonet/src/EventLoop.cpp:73-78 | poll and the callbacks before and after the wake-up channel: all that they queue is pending, in order |
| EventLoopObject.EventLoop.DoPendingFunctors | chaonet/src/EventLoop.cpp:170-182 | executes exactly the functors pending on entry, in order; exactly what their bodies queue stays pending and leaves the eventfd readable, and quit is set if and only if it was or one of them asks for it |
| EventLoopObject.EventLoop.Turn | chaonet/src/EventLoop.cpp:74-79 | executed, pending and quit become what the reference fold says; everything pushed before the turn has been executed |
| EventLoopObject.EventLoop.Loop | chaonet/src/EventLoop.cpp:67-84 | over any script of poll results with arbitrary callbacks: executed, pending and quit are what a fold over the script and the bodies gives, turn by turn up to the first quit; one turn is enough to execute all that was pushed before the call; work left over has its wake-up unless all of it was queued by its own thread outside the loop |
| EventLoopObject.QuitEnds | chaonet/src/EventLoop.cpp:73 | once a turn has asked to quit, the rest of the script changes nothing |
| Timers.AddTimeBounds | chaonet/include/utils/Timestamp.h:87-91 | adding seconds to a timestamp adds 10^9 nanoseconds each, less than a microsecond being dropped and nothing for whole microseconds |
| Timers.Timer.Restart | chaonet/src/Timer.cpp:11-16 | a repeating timer is due one interval after now, less than a microsecond being dropped; any other gets the invalid timestamp 0 |
| TimerSpec.NeverEarly | chaonet/src/TimerQueue.cpp:136-175 | in every run, every execution of a timer lies after the instant for which an add or repetition last scheduled it |
| TimerSpec.OneShotRunsOnce | chaonet/src/TimerQueue.cpp:177-186 | in every run a one-shot timer runs in at most one batch |
| TimerSpec.CancelledNeverRunsLater | chaonet/src/TimerQueue.cpp:97-134 | once a cancel has been processed, outside a batch, by the timer itself or by a sibling in its batch, the timer runs in no later batch |
| TimerSpec.RepeatsAreSpaced | chaonet/src/TimerQueue.cpp:177-186 | two executions of a timer are more than its interval less a microsecond apart, in nanoseconds, and only a repeating timer has two |
| TimerSpec.RepeatsComeBack | chaonet/src/TimerQueue.cpp:177-187 | a timer that has run waits again if and only if it repeats and no callback of its batch has cancelled it, and is then due one interval after the batch, to the microsecond |
| TimerSpec.RunsExactly | chaonet/src/TimerQueue.cpp:136-162 | a firing runs exactly the timers that were waiting for an instant before it |
| TimerSpec.ScriptExactly | chaonet/src/TimerQueue.cpp:147-149 | the operations of a batch are exactly those of the callbacks of its timers |
| TimerSpec.LastOpDecides | chaonet/src/TimerQueue.cpp:89-134 | after any adds and cancels a timer is active, and due, as the last of them that names it says, and an unnamed one is as before |
| TimerSpec.DoneIsFinal | chaonet/src/TimerQueue.cpp:136-187 | a timer that has finished or been cancelled stays so and never runs again |
| TimerSpec.Projects | chaonet/src/TimerQueue.cpp:97-187 | seen from a single timer, every add, cancel and firing of the queue is a step of a three-state reference automaton |
| TimerLists.InsertKeepsSorted | chaonet/src/TimerQueue.cpp:206-209 | insertion keeps the order and adds exactly the new entry |
| TimerLists.EraseKeepsSorted | chaonet/src/TimerQueue.cpp:124 | erasure keeps the order and removes exactly one entry, so the erase count is 1 |
| TimerLists.TailIsLater | chaonet/src/TimerQueue.cpp:158-162 | what stays after lower_bound is exactly the entries not before now |
| TimerLists.StrictCheckFailsOnTies | chaonet/src/TimerQueue.cpp:160 | the debug check holds if and only if no timer is due at now itself |
| TimerLists.StrictCheckWitness | chaonet/src/TimerQueue.cpp:160 | a list on which the debug check fails |
| TimerLists.EraseCheckExactly | chaonet/src/TimerQueue.cpp:127-128 | the check after the erase holds if and only if some active timer has a higher address than the erased one |
| TimerLists.EraseCheckWitness | chaonet/src/TimerQueue.cpp:127-128 | it fails for the only active timer |
| TimerArming.HowMuchTimeFromNow | chaonet/src/TimerQueue.cpp:26-38 | an exact, normalised and never zero split of the requested delay into seconds and nanoseconds |
| TimerArming.FiresInTimeExactly | chaonet/src/TimerQueue.cpp:26-59 | when the request fires no later than the expiration, as an equivalence, and the error bounds in every case |
| TimerArming.FiresBy | chaonet/src/TimerQueue.cpp:26-59 | no request fires more than 100 microseconds after the later of its expiration and the clock reading |
| TimerArming.FiresLateWitness | chaonet/src/TimerQueue.cpp:26-38 | requests that fire after their expiration, for each of the two causes |
| TimerQueues.BatchIsBatch | chaonet/src/TimerQueue.cpp:155-175 | the entries before lower_bound are exactly the active timers due before now, earliest first |
| TimerQueues.TimerQueue.InsertTimer | chaonet/src/TimerQueue.cpp:197-219 | both indexes gain exactly the timer; the result says whether the list was empty or the timer is strictly the earliest |
| TimerQueues.TimerQueue.AddTimerInLoop | chaonet/src/TimerQueue.cpp:89-95 | the timer becomes active at its expiration, and every timer stays covered by a request for no later an instant, ties included |
| TimerQueues.TimerQueue.CancelInLoop | chaonet/src/TimerQueue.cpp:97-134 | an active timer leaves both indexes; one that is not active is remembered exactly while a batch is being called; arming survives |
| TimerQueues.TimerQueue.EraseTimer | chaonet/src/TimerQueue.cpp:122-127 | an active timer leaves both indexes, which stay in agreement, and nothing becomes uncovered |
| TimerQueues.TimerQueue.GetExpired | chaonet/src/TimerQueue.cpp:155-175 | splits off exactly the timers due before now from both indexes, in order |
| TimerQueues.TimerQueue.RunCallback | chaonet/src/TimerQueue.cpp:147-149 | an arbitrary callback's adds and cancels act on the active timers one by one, and the batch's cancelled timers are recorded exactly |
| TimerQueues.TimerQueue.RunExpired | chaonet/src/TimerQueue.cpp:142-150 | the callbacks of a batch act in order on the timers left, and the timers to re-arm are the repeating ones that no callback cancelled |
| TimerQueues.TimerQueue.FireBatch | chaonet/src/TimerQueue.cpp:142-152 | the active timers after the callbacks and the re-arming of a batch, and everything covered |
| TimerQueues.TimerQueue.Reset | chaonet/src/TimerQueue.cpp:177-195 | exactly the repeating, uncancelled timers come back, due one interval after now, and the descriptor covers the earliest timer of all |
| TimerQueues.TimerQueue.ArmNext | chaonet/src/TimerQueue.cpp:188-194 | afterwards every timer is covered; with an empty list the request is for the epoch |
| TimerQueues.TimerQueue.FiresForEarliest | chaonet/src/TimerQueue.cpp:49-219 | while timers are listed and covered the descriptor is set, and becomes readable within 100 microseconds of the later of the earliest expiration and the clock reading at which it was set |
| TimerQueues.TimerQueue.HandleRead | chaonet/src/TimerQueue.cpp:136-153 | for arbitrary callbacks: the timers run are exactly the batch, in order, the active timers afterwards are those of the reference semantics, the list is sorted and agrees with the active set, and everything is covered |
| TimerQueues.TimerQueue.ResetTimerfd | chaonet/src/TimerQueue.cpp:49-59 | the descriptor is set to the clock reading plus the delay computed for the expiration |
| TimerQueues.TimerQueue.SizesAgree | chaonet/src/TimerQueue.cpp:99-133 | the size checks of the source hold: the list and the active set have the same size |
| Buffers.Buffer.constructor | chaonet/include/Buffer.h:24-28 | an empty buffer within its capacity bound |
| Buffers.Buffer.SearchCRLF | chaonet/include/Buffer.h:61-64 | the first CRLF of the readable bytes, or none |
| Buffers.FirstCRLF | chaonet/include/Buffer.h:61-64 | a CRLF with none before it is the one that is found |
| Buffers.Buffer.Retrieve | chaonet/include/Buffer.h:66-75 | drops a prefix of the readable bytes |
| Buffers.Buffer.RetrieveAll | chaonet/include/Buffer.h:77-80 | empties the buffer |
| Buffers.Buffer.RetrieveAsString | chaonet/include/Buffer.h:82-86 | returns all readable bytes and empties the buffer |
| Buffers.Buffer.Append | chaonet/include/Buffer.h:88-100 | the readable bytes followed by the new ones; capacity never exceeds max(1032, 2P + 7) for the peak P of readable plus requested bytes |
| Buffers.Buffer.EnsureWritableBytes | chaonet/include/Buffer.h:107-112 | makes room without changing the contents |
| Buffers.Buffer.MakeSpace | chaonet/include/Buffer.h:149-160 | grows or slides the bytes down with overlap, keeps the contents and the capacity bound; its internal check always holds |
| Buffers.Buffer.Prepend | chaonet/include/Buffer.h:126-131 | the new bytes followed by the readable ones |
| Buffers.Buffer.ReadFd | chaonet/src/Buffer.cpp:18-36 | appends exactly what was read, whether or not it spills into the extra block; an error changes no contents and is reported |
| ConnectionSpec.StreamConserved | chaonet/src/TcpConnection.cpp:81-115 | in every run, bytes given to the kernel followed by the output buffer are the messages that sendInLoop was given; until the connection is closed write interest is on exactly when that buffer is not empty |
| ConnectionSpec.DeliveredExactly | chaonet/src/TcpConnection.cpp:54-115 | in every run, bytes given to the kernel followed by the output buffer are exactly the messages sent on the loop thread while connected and those sent from other threads while connected whose functor has run, computed from the events alone; messages from other threads arrive in the order sent |
| ConnectionSpec.NoteAgrees | chaonet/src/TcpConnection.cpp:54-229 | each event moves the connection state, the waiting functors and the accepted bytes as the event-only ledger says |
| ConnectionSpec.KernelGets | chaonet/src/TcpConnection.cpp:85-215 | every event appends to the bytes written exactly the front that write took of what was offered: a message when nothing is buffered, else the buffer |
| ConnectionSpec.CallbacksExactly | chaonet/src/TcpConnection.cpp:90-204 | the high-water callback is queued exactly when the buffer grows from below the mark to it or above, the write-complete callback exactly when the buffer empties or a message is taken whole |
| ConnectionSpec.GracefulClose | chaonet/src/TcpConnection.cpp:162-215 | with all calls on the loop thread the write side is shut down at most once, only after every accepted byte, with nothing written after it, and it is shut down once a closing connection has drained |
| ConnectionSpec.GracefulExactly | chaonet/src/TcpConnection.cpp:54-215 | over every run, calls from any thread included, the close is graceful if and only if no functor of the run finds one of the spoiling states; and a closing connection that has drained with no shutdown queued has been shut down |
| ConnectionSpec.EventAdvances | chaonet/src/TcpConnection.cpp:54-229 | every event keeps conservation, the interest rule and the closing rule, and spoils the close exactly in the listed states |
| ConnectionSpec.LateSendSpoils | chaonet/src/TcpConnection.cpp:69-115 | when a message from another thread reaches the loop, whatever write answers, order and completeness before the shutdown survive if and only if the write side is not yet shut |
| ConnectionSpec.SecondShutdown | chaonet/src/TcpConnection.cpp:162-176 | the queued half of a shutdown from another thread shuts the write side a second time if and only if it is shut already |
| ConnectionSpec.LateSendWitness | chaonet/src/TcpConnection.cpp:69-115 | a run in which a byte is left unwritten after the shutdown |
| ConnectionSpec.SecondShutdownWitness | chaonet/src/TcpConnection.cpp:162-205 | a run in which the write side is shut twice |
| ConnectionSpec.EarlyShutdownWitness | chaonet/src/TcpConnection.cpp:162-229 | a run in which the write side is shut with a byte unwritten |
| ConnectionSpec.SendConserves | chaonet/src/TcpConnection.cpp:81-115 | sendInLoop keeps conservation for every result of write |
| ConnectionSpec.SendDelivers | chaonet/src/TcpConnection.cpp:81-115 | whatever write answers, the message goes whole behind the bytes before it |
| ConnectionSpec.WritableDelivers | chaonet/src/TcpConnection.cpp:190-215 | what write took leaves the front of the buffer, and the stream stays the same |
| ConnectionSpec.SendKeepsInterest | chaonet/src/TcpConnection.cpp:81-115 | and the rule that write interest is on exactly when something is buffered |
| ConnectionSpec.WritableConserves | chaonet/src/TcpConnection.cpp:190-215 | so does handleWrite, including partial and failed writes |
| Connections.TcpConnection.Send | chaonet/src/TcpConnection.cpp:54-63 | on the loop thread: exactly while connected the message joins the bytes written or buffered, and otherwise they stay as they are |
| Connections.TcpConnection.SendFromOther | chaonet/src/TcpConnection.cpp:54-63 | from another thread: queued exactly while connected |
| Connections.TcpConnection.ShutdownFromOther | chaonet/src/TcpConnection.cpp:162-167 | from another thread: the state changes at once and the rest is queued, exactly while connected |
| Connections.TcpConnection.RunOldest | chaonet/src/EventLoop.cpp:179-181 | the loop runs the oldest of these functors as the step function that EventAdvances is about |
| Connections.TcpConnection.SendBuffer | chaonet/src/TcpConnection.cpp:69-79 | the caller's bytes move behind those written or buffered exactly while connected, and none is lost |
| Connections.TcpConnection.SendInLoop | chaonet/src/TcpConnection.cpp:81-115 | the message goes whole behind the bytes written or buffered; fields and queued callbacks move as the step function |
| Connections.TcpConnection.KeepRest | chaonet/src/TcpConnection.cpp:102-114 | buffers the rest, asks for writability, and queues the high-water callback exactly when the mark is crossed from below |
| Connections.TcpConnection.HandleWrite | chaonet/src/TcpConnection.cpp:190-215 | what write took leaves the buffer and nothing else moves in the stream; fields and queued callbacks move as the step function |
| Connections.TcpConnection.Shutdown | chaonet/src/TcpConnection.cpp:162-167 | only a connected connection starts closing, and it shuts the write side at once when nothing is buffered |
| Connections.TcpConnection.ShutdownInLoop | chaonet/src/TcpConnection.cpp:171-176 | shuts the write side exactly when no write is pending |
| Connections.TcpConnection.HandleClose | chaonet/src/TcpConnection.cpp:217-229 | disconnected with no interest left and the output untouched |
| Connections.TcpConnection.Establish | chaonet/src/TcpConnection.cpp:141-147 | connected and reading |
| Connections.TcpConnection.ConnectionDestroyed | chaonet/src/TcpConnection.cpp:149-160 | reports down exactly when it was still connected |
| Connections.TcpConnection.StartReadInLoop | chaonet/src/TcpConnection.cpp:121-127 | reading and read interest are on together |
| Connections.TcpConnection.StopReadInLoop | chaonet/src/TcpConnection.cpp:133-139 | reading and read interest are off together |
| TunnelSpec.NeverStuck | examples/socks4a/tunnel.h:90-137 | in every run with both ends up and any order of queued callbacks, a paused side has output pending on the other side with interest on and the resume callback installed, or the resume callback is already queued |
| TunnelSpec.DrainingResumes | examples/socks4a/tunnel.h:127-137 | from every reachable state, once both outputs are taken by the kernel and the queue has run from its oldest callback on, both sides read again |
| TunnelSpec.BackPressure | examples/socks4a/tunnel.h:90-115 | in every run that takes callbacks oldest first, with the high-water callback installed and a positive mark, a side whose output has reached its mark has its feeder paused or the high-water callback queued |
| TunnelSpec.RelayDelivers | examples/socks4a/tunnel.h:75-84 | in every run and any order of callbacks, each side has been given or has buffered exactly the bytes that came in on the other |
| TunnelSpec.JobEffect | examples/socks4a/tunnel.h:90-137 | high water with output pending pauses the feeder and installs the resume callback, write complete resumes it and removes the callback, and no other callback touches that feeder |
| TunnelSpec.EventHolds | examples/socks4a/tunnel.h:75-137 | every message, drain or oldest callback keeps the back-pressure invariant |
| TunnelSpec.EventKeeps | examples/socks4a/tunnel.h:75-137 | every message, drain or callback keeps the flow-control invariant |
| Tunnels.Tunnel.OnClientMessage | examples/socks4a/tunnel.h:75-84 | the bytes join the server side's stream and what that triggers is queued |
| Tunnels.Tunnel.OnHighWaterMark | examples/socks4a/tunnel.h:90-115 | with output pending the opposite side no longer reads and the resume callback is installed; otherwise nothing changes |
| Tunnels.Tunnel.OnWriteComplete | examples/socks4a/tunnel.h:127-137 | the opposite side reads again and the resume callback is removed |
| Channels.Channel.HandleEvent | chaonet/src/Channel.cpp:31-56 | runs the installed callbacks that the report triggers, in the order close, error, read, write |
| Channels.DispatchExactly | chaonet/src/Channel.cpp:37-55 | bit by bit: which report runs which installed callback, and the order close, error, read, write |
| Channels.ClosesTwiceExactly | chaonet/src/Channel.cpp:37-50 | close and read callbacks both run if and only if the report is a hang-up without POLLIN that carries POLLPRI or POLLRDHUP |
| Channels.ClosesTwiceWitness | chaonet/src/Channel.cpp:37-50 | POLLHUP with POLLRDHUP runs both |
| EPollers.EPoller.UpdateChannel | chaonet/src/EPoller.cpp:73-99 | every epoll_ctl call issued is legal; afterwards the kernel set mirrors the registered channels and differs from before at this channel only |
| EPollers.EPoller.AddChannel | chaonet/src/EPoller.cpp:78-87 | a new or deleted channel is registered and added by a legal call |
| EPollers.EPoller.RemoveChannel | chaonet/src/EPoller.cpp:101-116 | the channel leaves registry and kernel set, with a delete call only if it was there, and may be added anew |
| EPollers.EPoller.Update | chaonet/src/EPoller.cpp:118-126 | one epoll_ctl call, legal for the kernel set at hand |
| EPollers.EPoller.FillActiveChannels | chaonet/src/EPoller.cpp:59-71 | for any report of watched descriptors with the pointers the kernel holds: the registered channel of each, in the order of the report, with its mask |
| EPollers.EPoller.ReportsAreRegistered | chaonet/src/EPoller.cpp:65-67 | the look-up checks hold: a pointer that the kernel hands back is the registered channel of its descriptor |
| EPollers.EPoller.EnableReading | chaonet/include/Channel.h:36-39 | the read bits join the mask and the kernel watches for exactly that mask |
| EPollers.EPoller.DisableReading | chaonet/include/Channel.h:40-43 | the read bits leave the mask; with none left an added channel leaves the kernel set |
| EPollers.EPoller.EnableWriting | chaonet/include/Channel.h:44-47 | the write bits join the mask and the kernel watches for exactly that mask |
| EPollers.EPoller.DisableWriting | chaonet/include/Channel.h:48-51 | the write bits leave the mask; with none left an added channel leaves the kernel set |
| EPollers.EPoller.DisableAll | chaonet/include/Channel.h:52-55 | no interest is left, and an added channel leaves the kernel set |
| EPollers.EPoller.WatchedExactly | chaonet/src/EPoller.cpp:73-116 | the kernel watches a descriptor for a non-empty mask if and only if a registered channel asks for that mask |
| PollSlots.SwapRemoveKeeps | chaonet/src/Poller.cpp:92-102 | moving the last slot into the freed one keeps slots and back-pointers a bijection, whether or not the moved slot is a negated one |
| PollSlots.ReadySlotsExactly | chaonet/src/Poller.cpp:34-48 | the slots to report are those whose report is a positive short, each once, in order |
| Pollers.Poller.UpdateChannel | chaonet/src/Poller.cpp:50-76 | appends a new slot or rewrites its own, negating the descriptor of a channel without interest; slots, map, indexes and masks stay in agreement |
| Pollers.Poller.RemoveChannel | chaonet/src/Poller.cpp:78-103 | swap-remove of any registered channel without interest: slots, map, indexes and masks stay in agreement |
| Pollers.Poller.RemovalCheckExactly | chaonet/src/Poller.cpp:88 | the slot holds the channel's mask, and the check that it is negated holds if and only if an update has found the registered channel without interest; so it holds for every disabled channel that was registered with some |
| Pollers.RemovalCheckWitness | chaonet/src/Poller.cpp:53-88 | calls after which the check fails |
| Pollers.Poller.SwapWithLast | chaonet/src/Poller.cpp:95-99 | the two slots change places, and the descriptor of the moved one is recovered from its negation |
| Pollers.Poller.DropSlot | chaonet/src/Poller.cpp:92-102 | frees a slot by swap-remove and keeps slots, map and channel indexes in agreement |
| Pollers.Poller.FillActiveChannels | chaonet/src/Poller.cpp:34-48 | given the true count, every ready channel once in slot order with its report, in spite of the early stop |
| Pollers.Poller.Reenable | chaonet/src/Poller.cpp:68-74 | a slot keeps its descriptor, negated or not, when its channel asks for events again |
| Pollers.Poller.IgnoredExactly | chaonet/src/Poller.cpp:68-74 | a registered channel is ignored by poll, whatever it asks for, if and only if an update has once found it without interest |
| Pollers.ReenableWitness | chaonet/src/Poller.cpp:68-74 | calls after which a channel asks for events and is ignored |
| ServerSpec.Lifecycles | chaonet/src/TcpServer.cpp:53-89 | in every run over any loops names never collide, the map is exactly accepted minus removed, every erase reports 1, and each connection's life is a prefix of established, up, down, destroyed |
| ServerSpec.NothingForgotten | chaonet/src/TcpConnection.cpp:141-160 | a queued handler runs on its own loop and finds the state it checks for, and with empty queues every connection is up or has been taken to its destruction |
| ServerSpec.StepKeeps | chaonet/src/TcpServer.cpp:53-89 | accepting, closing, asking to shut down and running a queued task keep: one pending task per connection in transit, on the right loop |
| ServerSpec.NamesDiffer | chaonet/src/TcpServer.cpp:55-58 | the decimal connection number makes names injective |
| ServerSpec.DestroyReports | chaonet/src/TcpConnection.cpp:149-160 | a connection that is still up when it is destroyed reports down and is disconnected, and no other does |
| Servers.TcpServer.Accepted | chaonet/src/TcpServer.cpp:53-74 | numbers, names, registers and establishes a connection, inline on the base loop or through the I/O loop's queue |
| Servers.TcpServer.RemoveInLoop | chaonet/src/TcpServer.cpp:80-89 | erases exactly one entry and queues the destruction on the connection's loop |
| Servers.TcpServer.RunOrQueue | chaonet/src/EventLoop.cpp:93-99 | a task runs at once on its own loop and is queued from any other |
| Servers.TcpServer.Closed | chaonet/src/TcpConnection.cpp:217-229 | one down callback, then removal inline or through the base loop |
| Servers.TcpServer.Establish | chaonet/src/TcpConnection.cpp:141-147 | on its own loop a connecting connection is established and reports up |
| Servers.TcpServer.Destroyed | chaonet/src/TcpConnection.cpp:149-160 | the destroy handler, with the extra down callback for a connection that is still up |
| Servers.TcpServer.Turn | chaonet/src/EventLoop.cpp:170-182 | a loop runs its oldest queued task, which finds its connection there and keeps the invariant |
| ConnectorSpec.SocketsOwned | chaonet/src/Connector.cpp:39-168 | in every run, whenever start, stop and restart are called, each socket made is in flight, closed once or handed off once, and in exactly one of these ways |
| ConnectorSpec.FatesExactly | chaonet/src/Connector.cpp:49-168 | in every run a socket is handed off if and only if it became writable without error or self-connect while in flight and connecting with the flag set, and closed if and only if it met an error or itself, succeeded after stop, or was refused by connect |
| ConnectorSpec.FailureRetries | chaonet/src/Connector.cpp:120-168 | in every reachable state an error or self-connect closes the socket in flight and, exactly while the flag is set, arms one new timer for min(500 * 2^k, 30000) milliseconds |
| ConnectorSpec.EventExactly | chaonet/src/Connector.cpp:34-168 | for every event, told from the event and the state it finds, errno by errno: which socket is made, handed off, closed or in flight, which timers are armed and for what delay, and the next state |
| ConnectorSpec.QueuesExactly | chaonet/src/Connector.cpp:34-118 | for every event: what is left in the loop's queue, and when the connector gives up |
| ConnectorSpec.OneOutstanding | chaonet/src/Connector.cpp:34-168 | with a careful user no check ever fails, at most one attempt, retry timer or queued start is outstanding, and exactly one while it means to connect, is not connected and has not met an error that is not retried |
| ConnectorSpec.KeepsTrying | chaonet/src/Connector.cpp:34-168 | in every run a connector that means to connect, is not connected and has not met such an error has an attempt, a start or a timer that no cancel will remove |
| ConnectorSpec.DelaysDouble | chaonet/src/Connector.cpp:155-168 | the k-th delay since the last restart is min(500 * 2^k, 30000) milliseconds |
| ConnectorSpec.StopIsFinal | chaonet/src/Connector.cpp:96-99 | after stop no socket is made or handed off until the next start or restart |
| ConnectorSpec.ChecksExactly | chaonet/src/Connector.cpp:39-153 | in every reachable state an event fails a check of startInLoop, connecting, handleWrite or handleError if and only if it is one of those listed by a test of the state |
| ConnectorSpec.StartSafe | chaonet/src/Connector.cpp:39-108 | startInLoop passes its checks for every answer of connect if and only if the connector is disconnected and, if it is to connect, its old channel is gone |
| ConnectorSpec.RestartSafe | chaonet/src/Connector.cpp:88-108 | restart passes them for every answer if and only if the old channel is gone |
| ConnectorSpec.StartWhileWaiting | chaonet/src/Connector.cpp:34-47 | a start during a retry delay makes a second attempt, and the timer then fails the check in startInLoop |
| ConnectorSpec.StartAfterStop | chaonet/src/Connector.cpp:120-143 | after a stop that came while connecting, a second start passes its check for every answer of connect if and only if that attempt failed; restart always passes |
| ConnectorSpec.StartAfterStopWitness | chaonet/src/Connector.cpp:39-41 | a run after which the second start fails its check |
| ConnectorSpec.EventKeeps | chaonet/src/Connector.cpp:34-168 | every call, timer, functor and channel event that passes its checks keeps ownership, backoff and the next attempt |
| Connectors.Connector.Start | chaonet/src/Connector.cpp:34-37 | at any time: sets the flag and leaves startInLoop queued; on the loop's own thread it is simply the next thing to run |
| Connectors.Connector.StartInLoop | chaonet/src/Connector.cpp:39-47 | whenever its checks hold: attempts to connect exactly while the flag is set |
| Connectors.Connector.Connect | chaonet/src/Connector.cpp:49-60 | a new socket, resolved by errno |
| Connectors.Connector.Resolve | chaonet/src/Connector.cpp:53-85 | the socket goes under way, is closed for a retry, or is closed for good |
| Connectors.Connector.Restart | chaonet/src/Connector.cpp:88-94 | whenever its checks hold: back to the first delay and a new attempt |
| Connectors.Connector.Stop | chaonet/src/Connector.cpp:96-99 | clears the flag and cancels the timer, at once or through the queue |
| Connectors.Connector.BeginConnecting | chaonet/src/Connector.cpp:101-108 | a watched channel for the socket, where there was none |
| Connectors.Connector.RemoveAndResetChannel | chaonet/src/Connector.cpp:110-116 | the channel is unregistered and its destruction queued |
| Connectors.Connector.HandleWrite | chaonet/src/Connector.cpp:120-143 | while connecting: with the flag set and no error or self-connect the socket is handed off, otherwise it is closed, and an error or self-connect with the flag set arms one timer; a late report after an error does nothing |
| Connectors.Connector.HandleError | chaonet/src/Connector.cpp:145-153 | an error closes the socket and retries |
| Connectors.Connector.HandleErrorEvent | chaonet/src/Channel.cpp:41-55 | an error reported together with writability reaches both handlers and still closes the socket once |
| Connectors.Connector.Retry | chaonet/src/Connector.cpp:155-168 | closes the socket and, exactly while the flag is set, arms one new timer with the current delay and doubles it up to the maximum |
| HttpSpec.ParseUndoesPrint | examples/http/HttpContext.cpp:43-78 | from any number of complete printed requests followed by any tail, repeated parsing and resetting gives back each request in order and leaves exactly the tail |
| HttpSpec.OneParses | examples/http/HttpContext.cpp:43-78 | one printed request parses to its method, path, '?'-prefixed query, version and header map, and takes exactly its bytes |
| HttpSpec.AcceptedLines | examples/http/HttpContext.cpp:12-41 | a request line is accepted if and only if it is a known method, a target without spaces and HTTP/1.0 or HTTP/1.1, one space apart |
| HttpSpec.HeadersEnd | examples/http/HttpContext.cpp:61-72 | the header loop ends if and only if the buffer holds lines with a colon followed by a line without one |
| HttpSpec.HeadersEndWitness | examples/http/HttpContext.cpp:46-72 | a request line that arrives without its headers makes the call spin |
| HttpSpec.LoopMeetsOutcome | examples/http/HttpContext.cpp:46-77 | pass by pass, the loop stops with the outcome's result within one more pass than there are bytes, or never stops |
| HttpSpec.Refused | examples/http/HttpContext.cpp:47-60 | a call that does not complete a fresh request takes no bytes and fails exactly on a complete bad line; it leaves a method set exactly when that line began with a known one |
| HttpSpec.SecondCall | examples/http/HttpRequest.h:39 | the next call, on whatever the buffer then holds, fails the check in setMethod if and only if the first refused a line that begins with a known method |
| HttpSpec.SecondCallWitness | examples/http/HttpRequest.h:39 | a request line without a version does so |
| HttpSpec.LastWins | examples/http/HttpRequest.h:101 | the header map of a printed request has exactly the names sent, each with the value sent last |
| HttpSpec.FieldParses | examples/http/HttpRequest.h:91-102 | a field line gives its name and its value without the surrounding white space |
| HttpSpec.TargetSplits | examples/http/HttpContext.cpp:20-26 | the target splits at the first '?' into path and query |
| HttpParser.HttpRequest.SetMethod | examples/http/HttpRequest.h:38-55 | a fresh request takes exactly the five method names and refuses every other word |
| HttpParser.HttpRequest.AddHeader | examples/http/HttpRequest.h:91-102 | the two trimming loops store the value without leading and trailing white space |
| HttpParser.HttpRequest.Swap | examples/http/HttpRequest.h:115-122 | the two requests change places |
| HttpParser.HttpContext.Reset | examples/http/HttpContext.h:31-35 | a fresh context |
| HttpParser.HttpContext.ProcessRequestLine | examples/http/HttpContext.cpp:12-41 | fields and result of a line, including what a refused line leaves behind |
| HttpParser.HttpContext.ParseRequest | examples/http/HttpContext.cpp:43-78 | whenever the loop returns at all: context, bytes left and result of the reference semantics |

## Left out

* Sudoku: the server's text protocol, the default board of '0' cells, and cells other than '.' and '1' to '9'. `IsValidSudoku` reads a
  cell through `CurEleValid` and `UpdateRecord` where the source repeats their bodies.
* EventLoop: the poll timeout, thread identities beyond loop or foreign, and the functors' effects other than queueing and quitting.
* TimerQueue: the log line after the erase in `cancelInLoop`, which uses the iterator past the erased entry. `addTimer` and `cancel` from other threads only queue the two functors that are modelled.
* Buffer: `swap`, `peekInt32` and `appendInt32`; `shrink`, which moves the bytes but not the indexes.
* TcpConnection: the input path beyond `readFd`, `handleError`, and connection options. Start and stop of reading from another thread
  are events at the moment the loop runs them.
* Tunnel: set-up and tear-down. The claims are about the time while both ends are up.
* EPoller: the growth of the event array. Poller: the time stamps of poll.
* TcpServer: the destructor and the listening socket. I/O loops are chosen by the caller instead of round robin.
* Connector: the destructor.
* HTTP: `getFileType`, `getHeader`, the response side and request bodies, for which the parser has no code. White space is that of the C locale.
* `ProtobufCodecLite`, sockets, addresses, threads, logging and the demo programs.
