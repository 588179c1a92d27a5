# A verified model of nev

nev is a reactor library: an `EventLoop` per thread on top of a vendored libev, a functor queue for other
threads, TCP connections with buffered output, and a table-driven HTTP request parser. This project models
the parts whose correctness is spread over several functions or threads, and proves what they promise.

| file | models |
|---|---|
| `CrossThread.dfy` | libev's async wake-up protocol and nev's functor queue and `quit`, as steps of any number of threads |
| `Growth.dfy`, `Heap.dfy`, `Deadlines.dfy` | array growth; the 4-heap with cached keys and back-pointers, in place in an array |
| `Pending.dfy`, `History.dfy`, `Rounds.dfy` | the stacks of pending watchers, what every history of feeds, stops and invocations satisfies, and the order in which due timers run |
| `Timers.dfy`, `Grid.dfy`, `Periodics.dfy` | relative and absolute timers: start, stop, again, reify, reschedule |
| `Poll.dfy`, `Fds.dfy` | the poll backend's sparse table, the per-fd watcher lists, and the list of changed fds that connects them |
| `Clock.dfy`, `Loop.dfy` | the clocks and time jumps; `ev_invoke_pending` with callbacks that call back into the loop, the wait time, whole iterations |
| `Tcp.dfy`, `Server.dfy` | channel, connection and server objects |
| `Connections.dfy`, `ConnectionRuns.dfy` | many connections over many loops and threads, and what every run satisfies |
| `ConnectionPromises.dfy`, `ConnectionFunctors.dfy` | what each call leads to in a run: which bytes go out, that shutdown half-closes and a forced close closes, who is told; that no functor is lost or overtaken |
| `TimerOwner.dfy` | nev's timers: who owns one, when it fires, when it is destroyed |
| `Watched.dfy` | that libev's watchers do what the channels and timers of nev take for granted |
| `Network.dfy`, `Buffer.dfy` | network byte order; the byte buffer in its vector |
| `HttpTables.dfy`, `Http.dfy` | table lookup; the parser's loop and actions, and parsing in chunks |
| `HttpSlices.dfy`, `HttpTrace.dfy` | the bounds of what callbacks are given, and exactly which bytes |

Objects whose methods change fields are classes with the same fields; a method's contract gives its new state,
mostly as a function of the old one, and lemmas prove what the library promises about that function. A
history kept in ghost state records feeds, stops, invocations, writes and notifications, so that promises about
whole runs can be stated. Threads are modelled as interleaved steps over shared state.

Modelling choices:

- Times are reals, and what the clocks read is a parameter. Event masks are sets of flags. The bit `EV_ANFD_REIFY`
  shares its value with `EV_READ`, as in the source.
- Callbacks are arbitrary finite scripts of calls; what a read, a write, poll or another thread does is a
  parameter or an arbitrary step.
- Shared accesses of the wake-up protocol are sequentially consistent; the fences in the source are there for that.
  poll(2) reports a descriptor that was readable when it was called.
- HTTP tables are a parameter with a well-formedness condition; nothing is claimed about the grammar they encode.
  Char is signed, as the tables assume.

What the code does and its comments do not say, or say differently:

- A functor that the loop thread queues outside `loop()` can be slept on. `SleepsOnlyOnEarlyFunctors` shows that
  this is the only case.
- `shutdown()` does not wait for messages other threads have handed to `send()` (which is documented as thread
  safe) and that are still in the functor queue: they are given to the socket after the half-close.
  `ThreadSendBreaksHalfClose` is such a run; `SpoiledExactlyBy`, `HalfCloseIsLast` and `LoopThreadHalfClose` say
  exactly when it happens and when it cannot.
- The comment at src/nev/tcp_connection.cc:169 asks when connectDestroyed finds a connected connection: never,
  while the server lives (`ChecksHold`).
- The comment at include/nev/buffer.h:191 requires four readable bytes for an eight-byte read; the code checks for
  eight, and so does the model.
- The test for a fourth child at deps/libev/ev.c:2615 is always false on the slow path.

## Model

| member | source | states |
|---|---|---|
| `CrossThread.StepKeepsInv` | deps/libev/ev.c:2777-2890 | whatever one shared access a sender or the loop makes, a raised async_pending is on its way to pipecb, a raised `sent` on its way to its scan, a skipped write will be noticed before or instead of blocking |
| `CrossThread.RunInv` | deps/libev/ev.c:4088-4167 | the same in every state of every interleaving of any number of threads with the loop |
| `CrossThread.NoLostWakeup` | deps/libev/ev.c:2777-2890 | while poll blocks and no sender is about to write, an async watcher with `sent` set means the pipe is readable |
| `CrossThread.FunctorsRunInPushOrder` | src/nev/event_loop.cc:125-134 | executed, then the current batch, then the queue: all functors in push order, so each is run at most once and none is lost |
| `CrossThread.SleepsOnlyOnEarlyFunctors` | src/nev/event_loop.cc:125-134 | a loop can block on a queued functor, pipe empty and no thread going to write it, if and only if the loop thread pushed that functor outside loop(); senders that will not write may be anywhere |
| `CrossThread.EarlyFunctorStrands` | src/nev/event_loop.cc:125-134 | the run that shows it: pushed before loop(), no wake-up, blocked in poll |
| `CrossThread.IterationRunsWhatItFound` | src/nev/event_loop.cc:228-242 | every functor pushed before poll returned has run when that iteration ends |
| `CrossThread.QuitIsNotSleptOver` | src/nev/event_loop.cc:106-115 | with quit_ set after loop() started and nobody about to wake the loop, a blocked poll has a readable pipe |
| `CrossThread.ComingStays` | deps/libev/ev.c:4158-4167 | an async watcher on its way to its callback in this iteration stays so through every step of every thread, by the pipe or by pipe_write_skipped |
| `CrossThread.SentIsDelivered` | deps/libev/ev.c:4088-4167 | every async watcher with `sent` set and no sender about to write has had its callback run when the first iteration ends whose poll starts after that |
| `CrossThread.FoundIsDelivered` | deps/libev/ev.c:4158-4167 | ... already when the iteration ends whose poll has just returned with the pipe reported or pipe_write_skipped set |
| `CrossThread.QuitUnderWay` | src/nev/event_loop.cc:107-115 | from its call on, a quit() is being announced by its own thread, or its wake-up is set, fed, or has ended the loop |
| `CrossThread.QuitEndsTheLoop` | src/nev/event_loop.cc:106-115 | a quit() after loop() started is never lost: once its own thread has announced it and nobody is about to write, the first iteration whose poll starts after that is the last one, whichever path delivers it and whoever else is announcing |
| `CrossThread.QuitFoundEndsTheLoop` | src/nev/event_loop.cc:221-226 | ... or the one whose poll has just returned, with the pipe reported or pipe_write_skipped set |
| `CrossThread.OnlyQuitEndsTheLoop` | src/nev/event_loop.cc:221-226 | loop() does not end by itself: from its start on it is running, and not about to return, as long as nobody calls quit(), whatever wakes it |
| `CrossThread.NoSpuriousCallback` | deps/libev/ev.c:2846-2890 | in every run an async watcher is called back no more often than an ev_async_send set its `sent` |
| `Growth.ArrayNextsize` | deps/libev/ev.c:2246-2265 | terminates with at least cnt and at least 2*(cur+1) elements, page rounding included, and never a page too many |
| `Growth.RoundUp` | deps/libev/ev.c:2257-2262 | rounding up to whole pages less the malloc overhead strictly increases the count, by less than one page and one element |
| `Heap.HParentRange` | deps/libev/ev.c:2584-2587 | with the division of C the parent of a slot lies before it in the heap, except that the root is its own parent |
| `Heap.RootIsMin` | deps/libev/ev.c:2572-2587 | heap order between parents and children makes the root the least of all entries |
| `Heap.SiftUpOrders` | deps/libev/ev.c:2670-2689 | an entry that may be too small for its parent ends where the whole 4-heap is ordered, entries rearranged only |
| `Heap.Upheap` | deps/libev/ev.c:2670-2689 | the hole-moving loop does that sift in place, and every moved watcher's `active` is its slot |
| `Heap.SiftDownOrders` | deps/libev/ev.c:2590-2632 | an entry that may be too large for its children ends where the whole heap is ordered |
| `Heap.MinChild` | deps/libev/ev.c:2603-2618 | the fast and the slow path both pick the least of the children that exist |
| `Heap.Downheap` | deps/libev/ev.c:2590-2632 | the loop does that sift in place, back-pointers included |
| `Heap.AdjustedOrders` | deps/libev/ev.c:2692-2699 | after any change of one key one of the two sifts restores the order everywhere |
| `Heap.AdjustHeap` | deps/libev/ev.c:2692-2699 | ... and adjustheap makes the right choice |
| `Heap.Reheap` | deps/libev/ev.c:2702-2711 | from entries in any order: heap order, back-pointers, and the same entries |
| `Deadlines.DeadlineHeap.Insert` | deps/libev/ev.c:4394-4401 | the heap's watchers change by exactly the new one; verify_heap's assertions hold |
| `Deadlines.DeadlineHeap.Remove` | deps/libev/ev.c:4418-4434 | ... by exactly the removed one, whose slot the last entry takes |
| `Deadlines.DeadlineHeap.Reset` | deps/libev/ev.c:4446-4454 | a new deadline for an active watcher keeps the set, the order, the caches and the back-pointers |
| `Deadlines.DeadlineHeap.ResetRoot` | deps/libev/ev.c:3814-3827 | the same for the root, sinking it |
| `Deadlines.DeadlineHeap.Rebuild` | deps/libev/ev.c:2702-2711 | any caches that match their watchers become a verified heap of the same watchers |
| `Deadlines.DeadlineHeap.RootIsEarliest` | deps/libev/ev.c:3808-3834 | the cached key at the root is a lower bound of every active watcher's own `at` |
| `Pending.RefinesAfter` | deps/libev/ev.c:2312-2329 | changing one stack as the history says keeps the stacks, dummies aside, equal to what the history leaves pending |
| `Pending.Pendings.FeedEvent` | deps/libev/ev.c:2312-2329 | each pending watcher owns one slot, named by `pending`; feeding again only adds events; pendingpri is raised |
| `Pending.Pendings.ClearPending` | deps/libev/ev.c:4277-4285 | the slot goes to the dummy watcher, the watcher is no longer pending, all others keep their slots |
| `Pending.Pendings.Pop` | deps/libev/ev.c:3762-3772 | takes the top slot of the highest non-empty stack; the invocation entered in the history carries all its events |
| `History.NotInvokedUntilFed` | deps/libev/ev.c:4277-4302 | in every history a watcher that was stopped, or invoked, is not invoked before it is fed again |
| `History.InvokedWithGathered` | deps/libev/ev.c:2312-2329 | a callback receives exactly the OR of the events fed since the watcher was last cleared or invoked |
| `History.PendingUntilTaken` | deps/libev/ev.c:2312-2329 | a watcher once fed stays pending, holding those events, until it is cleared or invoked |
| `History.FedIsDelivered` | deps/libev/ev.c:3755-3775 | when nothing is pending any more, every feed of the history was followed by an invocation with its events, or by a clear |
| `History.LastFedFirstInvoked` | deps/libev/ev.c:3756-3775 | within a priority the watcher on top is invoked or cleared before the one below is invoked |
| `Rounds.ProgressStep` | deps/libev/ev.c:3803-3838 | expiring the earliest due watcher extends the round: each due watcher once, earliest deadline first |
| `Rounds.ProgressDone` | deps/libev/ev.c:3803-3838 | when nothing is due any more, exactly the watchers due at the start have expired |
| `Rounds.FedInReverse` | deps/libev/ev.c:2331-2344 | of two watchers of one priority fed by feed_reverse_done the earlier expired lies on top |
| `Rounds.FeedReverseDone` | deps/libev/ev.c:2338-2344 | feeds the gathered watchers once each, the last first |
| `Rounds.FedOnce` | deps/libev/ev.c:2338-2344 | every watcher of the round is fed, once, and no other |
| `Rounds.InvokedInDeadlineOrder` | deps/libev/ev.c:3756-3838 | of two timers of one priority expired together, the earlier deadline is invoked first, unless it is stopped, or was pending before and kept its place |
| `Rounds.RoundInOrder` | deps/libev/ev.c:3756-3838 | the same for all pairs of a round, over the rest of any history |
| `Timers.Timers.TimerStart` | deps/libev/ev.c:4384-4407 | adds exactly this watcher, its deadline made absolute; nothing if already active |
| `Timers.Timers.TimerStop` | deps/libev/ev.c:4409-4438 | takes away exactly this watcher, its deadline made relative again, and whatever was pending for it |
| `Timers.Timers.TimerAgain` | deps/libev/ev.c:4440-4465 | restarts at now + repeat, or stops when repeat is zero |
| `Timers.Timers.ExpireRoot` | deps/libev/ev.c:3810-3829 | the timer taken is a due one with the least deadline; it is rescheduled or stopped |
| `Timers.Timers.TimersReify` | deps/libev/ev.c:3803-3838 | terminates having taken every timer with `at < mn_now` exactly once, by deadline, and fed them in reverse; a repeating one comes next one period after its own deadline, or now if that has passed too; one-shots are stopped; all others keep their deadline |
| `Timers.NoDrift` | deps/libev/ev.c:3815-3823 | a repeating timer never a whole period late has, after any number of rounds, its first deadline and one period for each time it fired |
| `Timers.Timers.TimersReschedule` | deps/libev/ev.c:3936-3948 | every active timer moves by the same amount, in the cache too, and the heap stays one |
| `Grid.PeriodicRecalc` | deps/libev/ev.c:3843-3866 | the loop over reals computes Recalc and terminates for any positive interval |
| `Grid.RecalcIsSoon` | deps/libev/ev.c:3843-3866 | the result is after now, by at most one interval |
| `Grid.RecalcIsNextGridPoint` | deps/libev/ev.c:3843-3866 | above MIN_INTERVAL it is the least offset + k * interval after now |
| `Periodics.Periodics.PeriodicStart` | deps/libev/ev.c:4475-4509 | adds exactly this watcher at the time of its callback, of its grid, or of its offset |
| `Periodics.Periodics.PeriodicStop` | deps/libev/ev.c:4511-4538 | takes away exactly this watcher and what was pending for it |
| `Periodics.Periodics.PeriodicAgain` | deps/libev/ev.c:4540-4547 | active afterwards, at the newly computed time |
| `Periodics.Periodics.RenewedComes` | deps/libev/ev.c:3843-3866 | a periodic without callback comes next at a point of its own grid, after now, by at most its interval; one with a callback when that says |
| `Periodics.Periodics.PeriodicsReify` | deps/libev/ev.c:3868-3909 | terminates with nothing due: each due periodic once, by deadline, fed in reverse; each comes next when its own callback, or its own grid, says; all others keep their deadline |
| `Periodics.Periodics.PeriodicsReschedule` | deps/libev/ev.c:3912-3931 | every periodic gets its new key, whatever that is, and the heap is repaired with the same watchers |
| `Periodics.Periodics.JumpPostpones` | deps/libev/ev.c:3912-3931 | after a time jump no periodic with an interval or a callback is due; each comes next when it asks for itself |
| `Clock.JumpIsFar` | deps/libev/ev.c:3956-4014 | with a monotonic clock a jump is three pairs of readings in a row that moved apart by MIN_TIMEJUMP; otherwise the recorded difference moves by less |
| `Clock.JumpKeepsTimeLeft` | deps/libev/ev.c:4003-4016 | without one a jump is a clock that went back or too far ahead, and every relative timer keeps the time it has left |
| `Clock.UpdateReads` | deps/libev/ev.c:3956-3994 | with a monotonic clock mn_now is the last reading taken, so never before the first; ev_rt_now is mn_now plus the recorded difference unless there was a jump; after a comparison both come from one pair; which pair is the last |
| `Clock.WallClockRules` | deps/libev/ev.c:4001-4016 | without one mn_now and ev_rt_now are what the wall clock reads |
| `Clock.Clock.Read` | deps/libev/ev.c:3951-4017 | the loop over clock readings computes Updated, of which UpdateReads says what it means |
| `Poll.SlotReleased` | deps/libev/ev_poll.c:79-88 | removal by moving the last slot keeps polls and pollidxs mutually inverse and drops exactly one fd |
| `Poll.PollTable.PollModify` | deps/libev/ev_poll.c:42-89 | the table represents the old map with this fd set to the new mask, or removed, across growth |
| `Fds.Started` | deps/libev/ev.c:4332-4359 | the started watcher at the head makes a list of distinct active watchers of its fd, and no other fd is touched |
| `Fds.Stopped` | deps/libev/ev.c:4361-4381 | so does the list without the stopped one |
| `Fds.ListChanged` | deps/libev/ev.c:2471-2484 | with the fd marked as changed, once, the lists, the change list and every other recorded mask stay exact |
| `Fds.Reified` | deps/libev/ev.c:2392-2469 | recomputing one changed fd leaves its `events` the OR of its watchers' masks |
| `Fds.FdTable.IoStart` | deps/libev/ev.c:4332-4359 | the fd's list gains exactly this watcher at its head, the fd is among the changes, other lists keep |
| `Fds.FdTable.IoStop` | deps/libev/ev.c:4361-4381 | the fd's list loses exactly this watcher, its pending event goes, the fd is among the changes |
| `Fds.FdTable.FdReify` | deps/libev/ev.c:2392-2469 | no change is left, and the poll table is what the recorded masks ask for |
| `Fds.FdTable.BackendIsExact` | deps/libev/ev.c:2392-2469 | then poll(2) watches an fd for reading (writing) if and only if some active watcher of it wants that |
| `Fds.FdTable.FdEvent` | deps/libev/ev.c:2357-2383 | an event reaches exactly the watchers that asked for it, and none while the fd's changes are outstanding |
| `Loop.EvLoop.EvInvokePending` | deps/libev/ev.c:3755-3775 | whatever callbacks start, stop, feed, or invoke re-entrantly, every pop is at the highest non-empty priority, at return every stack is empty, and every event ever fed was delivered or its watcher cleared; without callbacks everything pending is invoked |
| `Loop.EvLoop.EvVerify` | deps/libev/ev.c:3609-3691 | ev_verify's assertions on timers, periodics, fds and pending watchers hold |
| `Loop.EvLoop.WaitTime` | deps/libev/ev.c:4079-4152 | sleep and wait together oversleep no active timer or periodic beyond the collect interval and the backend's resolution; 0 when one is due; and no shorter than they need be |
| `Loop.EvLoop.TimeUpdate` | deps/libev/ev.c:3951-4017 | the new times and, after a jump, all new deadlines; both heaps stay verified and keep their watchers |
| `Loop.EvLoop.TimeLeftKept` | deps/libev/ev.c:4003-4016 | without a monotonic clock a jump leaves every active timer the time it had left |
| `Loop.EvLoop.DueIs` | deps/libev/ev.c:4079-4194 | with a monotonic clock the time of an iteration is a reading taken after the wait, and no timer's deadline moves; without jumps no periodic's does |
| `Loop.EvLoop.ReportReaches` | deps/libev/ev.c:2357-2383 | the backend's report feeds each watcher in the descriptor's list what it asks for of it, and nobody else |
| `Loop.EvLoop.RunOnce` | deps/libev/ev.c:4021-4194 | what one iteration feeds and in which order; exactly the timers and periodics expire that are due at the new time, once time jumps before and after the wait have rescheduled them; with a monotonic clock exactly the timers due at one of the readings after the wait, so all due before the first; those run by deadline however callbacks interfere, and no event is lost |
| `Loop.EvLoop.Run` | deps/libev/ev.c:4021-4205 | the whole invariant, over any number of iterations with any clock readings, jumps included, any reports and callbacks |
| `Tcp.SentOk` | src/nev/tcp_connection.cc:259-309 | sendInLoop keeps taken ++ buffered == given, and write interest exactly while something is buffered, for any short or failed write |
| `Tcp.WroteOk` | src/nev/tcp_connection.cc:197-225 | so does handleWrite, with the half-close when the buffer drains |
| `Tcp.ShutDownOk` | src/nev/tcp_connection.cc:102-110 | shutdown half-closes only with nothing buffered |
| `Tcp.ClosingOk` | src/nev/tcp_connection.cc:227-247 | handleClose: down once, after up, no interest left |
| `Tcp.TcpConnection.SendInLoop` | src/nev/tcp_connection.cc:259-309 | direct or buffered write, high-water and write-complete functors, as Sent describes on values |
| `Tcp.TcpConnection.HandleWrite` | src/nev/tcp_connection.cc:197-225 | consumes what was taken; when drained stops asking for writability and half-closes if disconnecting |
| `Tcp.TcpConnection.Shutdown` | src/nev/tcp_connection.cc:102-110 | only a connected connection moves to disconnecting; half-close at once if nothing is buffered |
| `Tcp.TcpConnection.ForceClose` | src/nev/tcp_connection.cc:112-119 | queues the close, never closes at once |
| `Tcp.TcpConnection.ForceCloseInLoop` | src/nev/tcp_connection.cc:320-326 | closes an open connection, and does nothing to one that is closed already |
| `Tcp.TcpConnection.HandleRead` | src/nev/tcp_connection.cc:182-195 | message callback, close, or nothing |
| `Tcp.TcpConnection.ConnectEstablished` | src/nev/tcp_connection.cc:151-163 | connected, reading, up notified |
| `Tcp.TcpConnection.ConnectDestroyed` | src/nev/tcp_connection.cc:165-180 | the watcher is neither active nor pending |
| `Tcp.Channel.Update` | src/nev/event_loop.cc:180-198 | the watcher is active exactly if there is something to wait for, with that mask and nothing pending |
| `Watched.UpdateChannel` | src/nev/event_loop.cc:180-198 | libev's stop, set and start of the real watcher do to it what Channel.Update says |
| `Watched.RemoveChannel` | src/nev/event_loop.cc:200-206 | ... and its stop what Channel.Remove says |
| `Watched.ReportEvents` | deps/libev/ev.c:2357-2383 | ... and the backend's report what the step Poll of Connections says |
| `Watched.InvokedClears` | deps/libev/ev.c:3762-3772 | a callback gets exactly the pending events and leaves none |
| `Watched.StartTimer` | src/nev/timer.cc:43-47 | ev_timer_start does to the real watcher what TimerOwner's Start says |
| `Watched.DestroyTimer` | src/nev/timer.cc:35-41 | ... ev_timer_stop what its Destroy says: neither active nor pending |
| `Watched.ExpireTimers` | deps/libev/ev.c:3803-3838 | ... and timers_reify what its Expire says, to exactly the timers that expire |
| `Server.TcpServer.NewConnection` | src/nev/tcp_server.cc:75-99 | a fresh id and one more entry; the connection and what is queued are those of the step Accept of Connections, on the same loop or another |
| `Server.TcpServer.RemoveConnection` | src/nev/tcp_server.cc:101-104 | removal at once on the server's own loop, else queued, as the step for close_cb_ has it |
| `Server.TcpServer.RemoveConnectionInLoop` | src/nev/tcp_server.cc:106-120 | exactly one entry goes, and destruction is queued |
| `Connections.StepKeepsInv` | src/nev/tcp_server.cc:75-120 | every step of any loop, callback or thread keeps, for every connection, exactly one of: establish to come, open, close to come, removal to come, destruction to come or done |
| `ConnectionRuns.RunInv` | src/nev/tcp_server.cc:75-120 | the same in every state of every run, for any number of connections and loops |
| `ConnectionRuns.ChecksHold` | src/nev/tcp_connection.cc:112-180 | no DCHECK fails; removal finds its entry; connectDestroyed finds a disconnected connection, so its kConnected branch is dead while the server lives; no loop is stuck |
| `ConnectionRuns.StreamConserved` | src/nev/tcp_connection.cc:197-309 | in every run bytes taken ++ output buffer == all messages given to sendInLoop, in order, and write interest is on exactly while the buffer is not empty |
| `ConnectionRuns.HalfCloseIsLast` | src/nev/tcp_connection.cc:311-318 | every half-close finds all given bytes taken; it is the only one and the last use of the sending side if and only if no message is given after it |
| `ConnectionRuns.SpoiledExactlyBy` | src/nev/tcp_connection.cc:255-268 | a step writes to, or shuts down again, a half-closed connection if and only if it is a message of another thread, queued before, reaching sendInLoop while the connection is still open |
| `ConnectionRuns.LoopThreadHalfClose` | src/nev/tcp_connection.cc:66-127 | as long as no message of another thread waits or comes, a half-close is the only one and nothing is written after it |
| `ConnectionRuns.ThreadSendBreaksHalfClose` | src/nev/tcp_connection.cc:66-110 | a run in which a message that send() accepted from another thread before shutdown() is written after the half-close |
| `ConnectionRuns.NotifiedInOrder` | src/nev/tcp_connection.cc:151-247 | up once, then down at most once, then close at most once |
| `ConnectionRuns.RunLater` | src/nev/tcp_connection.cc:95-127 | the state never moves backwards and no note is lost |
| `ConnectionRuns.QuietOnceDown` | src/nev/event_loop.cc:180-206 | once disconnected, always; the I/O watcher is never active or pending again |
| `ConnectionRuns.MapIsExact` | src/nev/tcp_server.cc:101-120 | when no loop has anything left to do the map holds exactly the open connections |
| `ConnectionPromises.MessagesAreTaken` | src/nev/tcp_connection.cc:66-93 | what the socket took, write by write, and then the output buffer are exactly the messages sent while connected, in the order in which they reached sendInLoop |
| `ConnectionPromises.ShutdownHalfCloses` | src/nev/tcp_connection.cc:102-110 | after shutdown() of a connected connection, in every later state of the run that is open with nothing buffered the half-close has been done |
| `ConnectionPromises.StateMoves` | src/nev/tcp_connection.cc:102-326 | exactly which step moves the state, and to which: the end of file or a fault, a forced close carried out, a request to end, the establishment |
| `ConnectionPromises.MessageTells` | src/nev/tcp_connection.cc:259-309 | write-complete is queued exactly when a message was taken whole with nothing buffered, high-water exactly when the buffer crosses the mark, with the size it reaches |
| `ConnectionPromises.WritingTells` | src/nev/tcp_connection.cc:197-225 | handleWrite queues write-complete exactly when it empties the buffer |
| `ConnectionPromises.SettingsStay` | include/nev/tcp_connection.h:76-80 | setHighWaterMarkCallback sets the callback and the mark, and no other step of a loop or thread changes what is set |
| `ConnectionPromises.UserIsTold` | src/nev/tcp_connection.cc:151-247 | the user's code runs for every message, every change of state not of its own asking, and every queued callback |
| `ConnectionPromises.HandleDoes` | src/nev/channel.cc:71-99 | the pending events are taken once: handleWrite follows exactly when writability was reported, after reading; the close exactly at end of file or a fault |
| `ConnectionFunctors.FunctorsInOrder` | src/nev/event_loop.cc:228-242 | no functor is lost and none overtakes another, in every run: what a loop had to do was done in that order, one step each, or is still to come in that order |
| `ConnectionFunctors.JobIsDone` | src/nev/event_loop.cc:228-242 | a functor that was there and is gone has been run in between |
| `ConnectionFunctors.ForceCloseCloses` | src/nev/tcp_connection.cc:112-119 | after forceClose() of an open connection it is disconnected as soon as the functor is gone |
| `ConnectionFunctors.ThreadSendArrives` | src/nev/tcp_connection.cc:66-93 | a message another thread handed over reaches sendInLoop unless the connection is disconnected by then |
| `ConnectionFunctors.DestroyedOnce` | src/nev/tcp_server.cc:106-120 | connectDestroyed: done, to come, or still in the map: exactly one of these, exactly once |
| `TimerOwner.OwnedFire` | src/nev/timer.cc:12-19 | a timer in the map may fire without breaking: no firing after its cancel, one-shots once |
| `TimerOwner.OwnedPopAdd` | src/nev/event_loop.cc:244-251 | a timer added by functor is new, not cancelled yet and not fired |
| `TimerOwner.OwnedPopCancel` | src/nev/event_loop.cc:253-258 | after its cancel functor no timer of that id is in the map or on its way there |
| `TimerOwner.EventLoop.HandleTimerCb` | src/nev/timer.cc:12-19 | only an owned timer fires; whatever the callback cancels, itself included, it is still in the map on return, and a one-shot is then erased |
| `TimerOwner.EventLoop.DestroyTimer` | src/nev/event_loop.cc:208-214 | erases exactly one entry |
| `TimerOwner.EventLoop.CancelTimerInLoop` | src/nev/event_loop.cc:253-258 | the entry goes if there is one, and its watcher with it |
| `TimerOwner.EventLoop.RunFunctor` | src/nev/event_loop.cc:228-258 | a functor adds exactly its timer, started, or erases exactly the cancelled one, or leaves the map alone |
| `TimerOwner.EventLoop.DoPendingFunctors` | src/nev/event_loop.cc:228-242 | every cancel queued before the batch has taken effect after it, and every timer queued is in the map and started unless it was cancelled, whatever functors and other threads add meanwhile |
| `TimerOwner.Run` | src/nev/event_loop.cc:160-258 | in every run no timer fires once its cancel functor has run, and a one-shot fires at most once |
| `Network.RoundTrip` | include/nev/buffer.h:165-253 | a fixed-width integer written in network order reads back equal |
| `Network.RoundTripBack` | include/nev/buffer.h:220-253 | and every byte string is what its reading would be written as |
| `Network.NetworkOrder` | include/nev/buffer.h:165-183 | the most significant byte of the two's complement comes first |
| `Buffer.Buffer.MakeSpace` | include/nev/buffer.h:306-320 | growing or moving left loses no readable byte and always yields the room asked for; which of the two, and the new indices |
| `Buffer.Buffer.MoveToFront` | include/nev/buffer.h:310-319 | the overlapping forward copy moves the readable bytes intact |
| `Buffer.Buffer.EnsureWritableBytes` | include/nev/buffer.h:144-149 | the check before the move, kCheapPrepend < readerIndex_, always holds |
| `Buffer.Buffer.Append` | include/nev/buffer.h:134-138 | readable bytes become old ++ data |
| `Buffer.Buffer.Prepend` | include/nev/buffer.h:278-283 | readable bytes become data ++ old |
| `Buffer.Buffer.Retrieve` | include/nev/buffer.h:89-96 | readable bytes lose their first len, with the indices reset when nothing is left |
| `Buffer.Buffer.Shrink` | include/nev/buffer.h:285-291 | the same bytes in a fresh vector with the reserve |
| `Buffer.Buffer.ReadFd` | src/nev/buffer.cc:29-55 | whatever the split between tail and spill array, what was read is appended; nothing on error |
| `Buffer.IntRoundTrip` | include/nev/buffer.h:165-283 | integers appended and prepended around any contents read back, and leave the contents |
| `Buffer.AfterAllIsEffects` | include/nev/buffer.h:89-320 | in every layout a run of legal operations acts on the readable bytes as the sequence operations do |
| `Buffer.LegalAnywhere` | include/nev/buffer.h:89-320 | what is legal by the bytes alone is legal in every layout: up to kCheapPrepend bytes can always be prepended, however often the bytes moved, grew or shrank before |
| `Buffer.Run` | include/nev/buffer.h:89-320 | the object after any run of legal operations: the bytes as on a plain sequence, and the vector and its indices |
| `HttpTables.SearchSingle` | src/nev/http/http11_parser.cc:659-680 | on sorted keys the binary search finds the key a linear scan finds |
| `HttpTables.SearchRange` | src/nev/http/http11_parser.cc:682-702 | on disjoint ranges it finds the range a linear scan finds |
| `HttpTables.Widen` | src/nev/http/http11_parser.cc:623-654 | the character is widened exactly when a condition range holds it |
| `HttpTables.Lookup` | src/nev/http/http11_parser.cc:656-706 | the transition is the one a linear scan of both lists chooses |
| `HttpTables.WidenedIs` | src/nev/http/http11_parser.cc:623-654 | a character that a condition covers gets a code outside the plain alphabet, another one in relaxed mode; every other keeps its own |
| `HttpTables.TransitionIs` | src/nev/http/http11_parser.cc:656-706 | the entry of the single key it equals, else of the range it lies in, else the default behind both lists |
| `Http.ParseInTwo` | src/nev/http/http11_parser.cc:592-845 | parsing a prefix, then the whole from where that stopped, gives the state, marks and callbacks of one parse, unless the request ended in the prefix |
| `Http.ParseInside` | src/nev/http/http11_parser.cc:829-842 | the marks stay in the buffer, as the closing assertions say, and so does every slice made from `mark` |
| `Http.ParseInChunks` | src/nev/http/http11_parser.cc:592-845 | parsing chunk by chunk, wherever the boundaries are, is parsing at once, unless the request ended before the last one |
| `Http.ActAllLength` | src/nev/http/http11_parser.cc:711-816 | actions do not depend on the buffer's length until the request is done |
| `Http.HttpParser.DoActions` | src/nev/http/http11_parser.cc:711-816 | the action loop, up to the action that ends the request |
| `Http.HttpParser.Scan` | src/nev/http/http11_parser.cc:609-825 | the goto loop with binary searches stops where, and in the state in which, the linear-scan automaton stops |
| `Http.HttpParser.Execute` | src/nev/http/http11_parser.cc:592-845 | ... with nread advanced by what was consumed; an error state stays |
| `Http.ExecuteInChunks` | src/nev/http/http11_parser.cc:592-845 | any number of calls, at any chunk boundaries, leaves the object, nread included, as one call does |
| `HttpSlices.SlicesWithin` | src/nev/http/http11_parser.cc:715-803 | for tables that mark before they use, on every path, all slices of all callbacks lie in the buffer, field names and queries too |
| `HttpTrace.ParseStates` | src/nev/http/http11_parser.cc:609-825 | parsing takes one transition for each character, and stops at the first error, at the end of the request or at the end of the buffer, nowhere else |
| `HttpTrace.ParseIsItsTrace` | src/nev/http/http11_parser.cc:711-816 | the callbacks, in order, are those of the actions the tables name along the way; each slice runs from the last mark (the last query mark for a query) to where its action is, a name from its start to its end; body_start, content_len and header_done by whether XML or JSON was seen |
| `HttpTrace.FieldIs` | src/nev/http/http11_parser.cc:715-742 | a header field's name lies between the deeds that start and end it, its value between the deed that starts it and the one that reports it |
| `HttpTrace.ElementIs` | src/nev/http/http11_parser.cc:743-786 | any other element begins at the last mark, a query at the last query mark |

## Left out

- Kernel backends other than poll, and inotify, signalfd, timerfd, child, stat, fork, embed and signal watchers: their correctness rests on kernel behaviour. With timerfd the longest wait is a different constant.
- Prepare and idle watchers: queued like check watchers.
- Floating point: rounding, and the guard against a lost increment in periodic_recalc; times are exact reals.
- Suspending and resuming a loop.
- Integer overflow and failing allocation: array sizes and indices are unbounded.
- pendings, rfeeds and fdchanges are sequences, so their growth is not modelled; nor is the link field of a watcher list, whose order is kept.
- Changing a watcher's priority while it is pending, which libev forbids, and a watcher's priority outside the five levels.
- Nested ev_run in the wake-up protocol; Loop has nested invocation.
- Stopping an async watcher, which renumbers the others, and weak memory.
- Fds.FdTable.IoSet: changing the fd or mask of an active watcher is not a legal call and is excluded.
- Periodics.Periodics.PeriodicsReify: requires reschedule callbacks not to return a time in the past, as libev asserts.
- Growth.ArrayNextsize: no overflow, because sizes are unbounded.
- TcpServer's destructor, connectDestroyed on a disconnecting connection, and shutdown or forceClose from another thread: marked unsafe in the source.
- Tcp.TcpConnection.SendInLoop: the write's result is a parameter and stays unconstrained after a half-close, where a real socket would fail it.
- The input side of a connection beyond Buffer's ReadFd, send(Buffer*), direct use of outputBuffer() by user code, and context cleanup.
- Object lifetime by shared_ptr and tie, and memory: a connection or timer is alive while something refers to it.
- forceCloseWithDelay's timer is a later callback that calls forceClose; that it may come at any time is covered.
- Acceptor, connector, sockets, addresses, thread pool, logging: thin plumbing. A connection's loop is any loop.
- Deadlines.DeadlineHeap.Insert: the watcher must be inactive, which start tests first.
- TimerOwner.EventLoop.DoCalls: cancelling an id that was never given out is skipped.
- When a timer is due is the subject of Timers, not of TimerOwner, where an active timer may become due at any time.
- HttpContext::parseRequest, which drops consumed bytes but passes a cumulative offset, and http_parser_finish.
- HttpSlices.SlicesWithin: its condition on the tables is not evaluated for the generated ones, because the tables stay a parameter here.
- Http.ParseInside: slices of field names and queries are not claimed there; HttpSlices.SlicesWithin has them.
- query_start is not set by http_parser_init; the model starts it anywhere.
- Buffer's search functions (findCRLF, findEOL), swap and the Windows readFd.
- setWriteCompleteCallback by user code: a connection has the callback its server gave it.
