# Verification of leaf

A Dafny 4.11 model of leaf, a reactor-style network library with its threading and logging base, and
proofs about it. `dafny verify dfyconfig.toml` checks the whole project.

## How it is built

Most components come in two parts.

* A **step machine**: a `State` value, a `Step` datatype, `Enabled` and `Next`. A step is what the code
  does without interruption: one hold of a mutex, one event handler, one store, one system call. What the
  code cannot decide (how much `write` wrote, which sleeper `notify` wakes, which address `new` returns,
  when other threads run, what a user callback does) is an argument of the step. `IsRun(states, steps)`
  is any finite run, of any length and interleaving. The main results are lemmas about every state of
  every run, by way of an invariant that every step keeps.
* An **object** with the source's fields and methods, whose contracts equate the new field values with
  the step machine's. The source's `assert`s are `assert`s there, proved from the invariant. Where a
  method is a whole sequence of steps (`TimerQueue::handleRead`, `EventLoop::doPendingFunctors`), its
  contract is that it follows a path of the machine.

The **histories** tell each machine's state by the steps of the run alone: what was appended, put, read,
queued, cancelled or scheduled, and when. They fix what a step does without naming the function that does
it.

`Enabled` also holds the source's assumptions about its callers, written as conditions a caller can
check. Where the code falls short of what it sets out to do, the code is kept as it is and the exact
condition is proved.

| file | component |
|---|---|
| `Date.dfy` | base/Date.cc |
| `TimerQueue.dfy`, `TimerHistory.dfy`, `TimerQueueObject.dfy` | net/TimerQueue.cc, net/Timer.h, net/Timer.cc |
| `EventLoop.dfy`, `EventLoopHistory.dfy` | net/EventLoop.cc |
| `Buffer.dfy` | net/Buffer.h, net/Buffer.cc |
| `TcpConnection.dfy`, `HalfClose.dfy`, `TcpHistory.dfy` | net/TcpConnection.cc, with the dispatch of net/Channel.cc |
| `PollPoller.dfy`, `PollHistory.dfy` | net/poller/PollPoller.cc |
| `AsyncLogging.dfy`, `AsyncLogHistory.dfy` | base/AsyncLogging.cc |
| `BlockingQueue.dfy`, `MonitorHistory.dfy` | base/BoundedBlockingQueue.h, and condition variables for it and the pool |
| `ThreadPool.dfy`, `MonitorHistory.dfy` | base/ThreadPool.cc |
| `LogStream.dfy` | base/LogStream.cc, base/LogStream.h |
| `Connector.dfy`, `ConnectorHistory.dfy` | net/Connector.cc, with the dispatch of net/Channel.cc |
| `Common.dfy` | shared definitions |

## Main results

* **Timers.** With callbacks that add and cancel timers re-entrantly, both indexes always hold the same
  timers, every timer ever created is in exactly one place, none is used after it is freed or freed twice,
  a cancelled timer runs at most until its current batch ends, cancelling an id whose timer is gone (even
  if its address was reused) or not added yet is invisible to everything that follows, and the timerfd is
  always armed in time.
* **Event loop.** No wakeup is lost in any interleaving, except for functors the loop thread itself queues
  while `loop()` is not running, for which it is proved lost; no `quit()` is lost; functors run once, in
  queue order.
* **Connections.** Wire plus output buffer is the accepted byte stream, whatever `write` returns. For every
  reachable state, whatever other threads did, it is decided whether the loop thread can still spoil the
  half-close: `HalfClose.Safe` is sufficient, and from any other state a spoiling run is constructed. Calls
  in the loop thread are always safe; a `shutdown` from another thread is exactly if the output buffer is
  drained, a `send` exactly if it is empty. If only the loop thread sends, no byte ever follows SHUT_WR.
* **Poller, logger, monitors, connector.** Agreement under swap-removal; log conservation and refill
  safety; no missed signal with single-waiter `notify`; shutdown of the pool; descriptor
  ownership, and exactly when a new attempt meets the channel of the last one.
* **Arithmetic.** Julian day numbers are an order isomorphism with the Gregorian calendar; decimal
  conversion yields the one canonical numeral.

Places where the code does not do what it means to, each with its exact condition:

| where | result |
|---|---|
| net/Buffer.h:289-291 | compaction always fails its own assert: `BufferAsWritten.CompactionAlwaysFails`, `AppendExactly` |
| net/Buffer.h:219 | the 16-bit round trip holds for 0 and -1 only: `Buffers.Int16RoundTripExactly` |
| net/EventLoop.cc:157 | functors queued by the loop thread outside `loop()` are lost, exactly if the eventfd is empty and no thread owes a wakeup: `EventLoops.EarlyFunctorSleeps` |
| net/TcpConnection.cc:181-193 | `shutdown` from another thread may half-close twice, exactly if bytes wait in the output buffer: `HalfClose.CrossShutdownExactly` |
| net/TcpConnection.cc:104-115 | `send` from another thread may write after the half-close, exactly if it sends a byte: `HalfClose.CrossSendExactly` |
| net/Channel.cc:56-84 | handleClose's assert fails exactly if the connection went down since poll returned: `TcpMachine.CloseAssertExactly` |
| net/TcpConnection.cc:234-243 | destroying a connection fails its assert exactly in kDisconnecting: `TcpMachine.DestroyAssertExactly` |
| net/poller/PollPoller.cc:101-109 | a slot is ignored if it was ever disabled, not if it has no events: `PollMachine.IgnoredExactly` |
| base/BoundedBlockingQueue.h:24-46 | a queue of capacity 0 deadlocks: `BoundedQueues.ZeroCapacityGetsStuck` |
| net/TimerQueue.cc:153-171 | a cancel takes hold exactly if the timer's addition is not still queued: `TimerRuns.CancelTakesHoldExactly` |
| net/Connector.cc:106-128 | `start`, or `restart`, before the last reset has run meets the old channel: `ConnectorMachine.StartNeedsReset`, `RestartNeedsReset` |
| net/Connector.cc:166-178 | a retry timer that fires before the reset queued with it meets the old channel: `ConnectorMachine.TimerNeedsReset` |

## Model

| member | source | states |
|---|---|---|
| Dates.DateRoundTrip | base/Date.cc:9-30 | getYearMonthDay inverts getJulianDayNumber on every valid Gregorian date from 1 March -4800 on |
| Dates.JulianRoundTrip | base/Date.cc:17-30 | every day number from -32044 on is turned into a valid calendar date whose day number it is |
| Dates.SuccessorIsNextNumber | base/Date.cc:9-15 | the calendar's next day (month lengths and leap years of RFC 3339, section 5.7 and Appendix C) has the next day number |
| Dates.OrderIsomorphism | base/Date.cc:9-15 | an earlier date has a smaller day number, and conversely |
| Dates.ConversionFitsInt32 | base/Date.cc:17-30 | no intermediate of getYearMonthDay leaves a 32-bit int exactly up to day number 536838867 |
| TimerMachine.HowMuchTimeFromNow | net/TimerQueue.cc:40-54 | the timespec is normalised, never zero, and amounts to the time left but at least 100 microseconds |
| TimerMachine.Ordered | net/TimerQueue.cc:194-202 | lists a set of entries in strict (expiration, address) order |
| TimerMachine.SentrySplits | net/TimerQueue.cc:198-202 | the sentry separates the entries that expire by `now` from the later ones |
| TimerMachine.InvNext | net/TimerQueue.cc:142-272 | every add, cancel, alarm, callback and reset step keeps index agreement, the partition of live timers, unique sequence numbers and the armed alarm |
| TimerRuns.TimersAccountedFor | net/TimerQueue.cc:142-272 | in every state of every run the indexes agree and have equal size, in-flight timers are in neither, and each timer ever created is exactly one of queued, active, in flight, freed |
| TimerRuns.FreedForever | net/TimerQueue.cc:153-171 | a freed timer's sequence number never becomes live again |
| TimerRuns.RunsLiveTimers | net/TimerQueue.cc:184-188 | every callback runs on a timer that has not been deleted |
| TimerRuns.AlarmTakesExpired | net/TimerQueue.cc:194-214 | an alarm removes exactly the timers expired by `now` from both indexes, in (expiration, address) order, as a batch of that time |
| TimerRuns.CanceledTimerStops | net/TimerQueue.cc:153-192 | a cancelled timer is called back again only if cancelled during a batch, and then only before that batch ends |
| TimerRuns.CancelTakesHoldExactly | net/TimerQueue.cc:153-171 | a cancel frees its timer, or dooms it with the running batch, exactly if its addition is not still queued |
| TimerRuns.CanceledTooEarly | net/TimerQueue.cc:114-171 | a timer cancelled before it was added stays queued |
| TimerRuns.CancelingHasCause | net/TimerQueue.cc:166-182 | an id is in cancelingTimers_ only because of a cancel since the last alarm |
| TimerRuns.UncanceledTimerRepeats | net/TimerQueue.cc:216-235 | a repeating timer not cancelled during its batch is active again one interval after the batch's time; any other is freed |
| TimerRuns.StaleCancelIsInvisible | net/TimerQueue.cc:153-171 | after cancelling with a freed timer's id, even if the address is reused, or with the id of a timer still queued, the same steps can be taken as without the cancel, through states that differ at most in that id in cancelingTimers_ while it cannot matter |
| TimerRuns.AlarmNeverLost | net/TimerQueue.cc:142-151 | between handler calls a non-empty queue has the timerfd due by max(earliest expiration, setting time + 100 microseconds), also across the zero-timestamp test of reset |
| TimerHistories.CreatedTimer | net/Timer.h:30-36 | in every run a timer keeps the interval and repeat flag it was created with for good, and the expiration until the end of its first batch |
| TimerHistories.FirstCallback | net/TimerQueue.cc:114-188 | the first callback of a timer comes in a batch taken at or after the time it was created for |
| TimerHistories.FirstAlarm | net/TimerQueue.cc:142-214 | once added, a timer is taken by the first alarm at or after that time, and by no earlier one |
| TimerHistories.BatchRunsAll | net/TimerQueue.cc:173-192 | each timer of a batch has been called back when the batch ends |
| TimerHistories.RepeatsAfterAlarm | net/TimerQueue.cc:173-235 | a repeating timer not cancelled meanwhile is active again one interval after the time of the alarm; any other is freed |
| TimerHistories.CancelingExactly | net/TimerQueue.cc:153-182 | cancelingTimers_ holds exactly the ids cancelled since the last alarm while a batch ran and they were not active |
| TimerHistories.AlarmSetExactly | net/TimerQueue.cc:40-71 | the timerfd is set exactly by adding an earliest timer and by the end of a batch, for exactly max(expiration, clock + 100 microseconds) |
| TimerQueues.TimerQueue.NewTimer | net/TimerQueue.cc:114-122 | creation stores expiration, interval and repeat flag with a fresh sequence number, and is the Create step |
| TimerQueues.TimerQueue.Insert | net/TimerQueue.cc:248-272 | adds to both indexes, asserts hold, and reports whether the new timer is strictly earliest |
| TimerQueues.TimerQueue.AddTimerInLoop | net/TimerQueue.cc:142-151 | is the AddInLoop step |
| TimerQueues.TimerQueue.CancelInLoop | net/TimerQueue.cc:153-171 | is the Cancel step, with its size and erase asserts |
| TimerQueues.TimerQueue.GetExpired | net/TimerQueue.cc:194-214 | returns the due entries in order and removes them from both indexes, with its asserts |
| TimerQueues.TimerQueue.Reset | net/TimerQueue.cc:216-246 | restarts or deletes every expired timer and re-arms: the Finish step |
| TimerQueues.TimerQueue.HandleRead | net/TimerQueue.cc:173-192 | for any callbacks, follows a path from HandleAlarm to Finish with one RunNext per expired timer |
| EventLoops.InvNext | net/EventLoop.cc:98-160 | every step of every thread keeps functor accounting and wakeup coverage |
| EventLoops.NoLostWakeup | net/EventLoop.cc:105-160 | in poll with functors pending, no wakeup in the eventfd and none on its way after a push, all pending functors were queued by the loop thread outside loop() |
| EventLoops.EarlyComesFromLoopThread | net/EventLoop.cc:150-160 | if the loop thread queues nothing outside loop(), no wakeup is ever lost |
| EventLoops.EarlyFunctorSleeps | net/EventLoop.cc:98-160 | in every run outside loop(), a functor queued by the loop thread is lost on the next poll exactly if the eventfd is empty and no other thread owes a wakeup, after a push or after quit() |
| EventLoops.NoLostQuit | net/EventLoop.cc:132-140 | in poll with quit_ set, a wakeup is in the eventfd or on its way |
| EventLoops.QuitEndsLoop | net/EventLoop.cc:98-140 | after quit() the next test leaves the loop, unless loop() is called anew |
| EventLoops.FunctorsAccountedFor | net/EventLoop.cc:255-268 | functors started, then the rest of the batch, then the pending ones are all functors queued, in order |
| EventLoops.QueuedIsPushed | net/EventLoop.cc:150-160 | that history is exactly the run's pushes, in order |
| EventLoops.RoundRunsItsBatch | net/EventLoop.cc:255-268 | a round starts the functors queued before its swap, in order, and none queued later |
| EventLoopHistories.ReadableExactly | net/EventLoop.cc:239-253 | in every run the eventfd is readable exactly if a wakeup was written since handleRead last drained it |
| EventLoopHistories.DrainsOncePerReport | net/EventLoop.cc:105-124 | in each round handleRead runs once if the eventfd was reported, else not |
| EventLoopHistories.OwingIsOwed | net/EventLoop.cc:132-160 | a thread owes a wakeup exactly between its push or quit and its write |
| EventLoopHistories.LeavesExactly | net/EventLoop.cc:98-140 | quit_ is set exactly if quit() was called since loop() was entered, and a test leaves the loop exactly then |
| EventLoopHistories.GoesRound | net/EventLoop.cc:98-130 | test, poll, handlers, swap, functors, test, in this order, left only at a test |
| EventLoopObjects.EventLoop.QueueInLoop | net/EventLoop.cc:150-160 | in the loop thread: appends, and writes the eventfd exactly while functors are being called |
| EventLoopObjects.EventLoop.InterfereOnce | net/EventLoop.cc:132-160 | another thread's push, quit or wakeup is a step of the machine |
| EventLoopObjects.EventLoop.DoPendingFunctors | net/EventLoop.cc:255-268 | runs the functors queued before the swap once each in order; if any were queued meanwhile, by functors or threads, a wakeup is due |
| Buffers.NetworkOrder32 | net/Buffer.h:168-171 | the four bytes written for an int32 stand, most significant first, for it modulo 2^32 |
| Buffers.NetworkOrder16 | net/Buffer.h:173-176 | the same for the two bytes of an int16 |
| Buffers.NetworkOrder8 | net/Buffer.h:178-180 | the same for the byte of an int8 |
| Buffers.Int32RoundTrip | net/Buffer.h:168-213 | decoding the bytes of any int32 gives it back |
| Buffers.Int32Injective | net/Buffer.h:168-213 | encoding the int32 read from any four bytes gives the bytes back |
| Buffers.Int8RoundTrip | net/Buffer.h:178-226 | the 8-bit round trip |
| Buffers.Int16RoundTripExactly | net/Buffer.h:173-220 | as written on a little-endian host, the 16-bit round trip holds exactly for 0 and -1 |
| Buffers.Buffer.MakeSpace | net/Buffer.h:279-293 | keeps the readable bytes and makes the room; compacts exactly when the free bytes at both ends suffice, and then the reader index is past 8 |
| Buffers.Buffer.EnsureWritableBytes | net/Buffer.h:146-151 | at least len bytes writable, readable bytes unchanged |
| Buffers.Buffer.Append | net/Buffer.h:132-144 | readable bytes become old + data |
| Buffers.Buffer.Retrieve | net/Buffer.h:85-92 | drops exactly the first len readable bytes |
| Buffers.Buffer.RetrieveAll | net/Buffer.h:112-115 | no readable bytes, indices back at 8 |
| Buffers.Buffer.RetrieveAsString | net/Buffer.h:117-126 | result followed by what is left is what was readable |
| Buffers.Buffer.Prepend | net/Buffer.h:245-250 | readable bytes become data + old, using exactly that much room in front |
| Buffers.Buffer.ReadInt32 | net/Buffer.h:182-213 | removes four bytes and returns the int32 they stand for, most significant first |
| Buffers.Buffer.ReadInt8 | net/Buffer.h:198-226 | removes one byte and returns the value whose encoding it is |
| Buffers.Buffer.Shrind | net/Buffer.h:252-257 | the same readable bytes, with the reserve writable and 8 bytes in front |
| Buffers.Buffer.FindCRLF | net/Buffer.h:58-61 | the first CR LF among the readable bytes, or none |
| Buffers.Buffer.ReadFd | net/Buffer.cc:15-39 | readable bytes become old + the bytes read, however they are scattered over buffer and overflow area; nothing changes on error |
| BufferAsWritten.CompactionAlwaysFails | net/Buffer.h:279-293 | with line 290 as written makeSpace fails its assert exactly when it compacts |
| BufferAsWritten.AppendExactly | net/Buffer.h:136-151 | as written, append fails an assert exactly when it has to compact, and otherwise appends |
| TcpMachine.StreamConservation | net/TcpConnection.cc:137-179 | in every run, bytes written then the output buffer are the accepted messages in order |
| TcpHistories.WireIsWhatWasTaken | net/TcpConnection.cc:137-289 | the wire holds exactly as many of the accepted bytes as write(2) took, from the first on, and the output buffer the others |
| TcpHistories.LogIsArrivals | net/TcpConnection.cc:104-179 | the messages judged are exactly those sent in the loop while connected and those of the queued sends that ran, in order |
| TcpHistories.InboundStream | net/TcpConnection.cc:245-258 | the bytes the user has retrieved, as many as it asked for, then the input buffer, are all bytes read(2) delivered, in order |
| TcpHistories.TasksInOrder | net/TcpConnection.cc:104-201 | the connection's functors run in the order they were queued, each once |
| TcpHistories.ForcedCloseTakesHold | net/TcpConnection.cc:195-218 | a forced close has taken hold once the functors queued until then have run |
| TcpHistories.DelayedCloses | net/TcpConnection.cc:203-218 | each delayed forced close fires at most once, and leaves the connection down |
| TcpHistories.LinkStep | net/TcpConnection.cc:181-303 | which steps change the state of the connection, and to what |
| TcpHistories.CallbacksOncePerReport | net/Channel.cc:56-84 | since a report, callbacks made and still due are exactly those its events call for, once each; functors run only after them |
| TcpHistories.HandlingExactly | net/Channel.cc:56-84 | the dispatch is under way exactly between its first and last callback |
| TcpHistories.NoticesExactly | net/TcpConnection.cc:260-289 | handleWrite queues write-complete exactly when it empties the output buffer; but for arriving messages no other step queues a callback |
| TcpMachine.HandleWriteConserves | net/TcpConnection.cc:260-289 | draining by any short write keeps the byte stream |
| TcpMachine.DroppedWhole | net/TcpConnection.cc:137-179 | in every run each message that reached sendInLoop is accepted unless, in the step it arrived, the connection was closed or its direct write met EPIPE/ECONNRESET; that step then changed nothing else |
| TcpMachine.SendNotices | net/TcpConnection.cc:147-178 | the high-water callback is queued exactly on crossing the mark upwards, write-complete exactly when the message went out whole |
| TcpMachine.WritingMeansBuffered | net/TcpConnection.cc:147-178 | while up, write interest is on exactly if the output buffer is not empty |
| TcpMachine.CloseAssertExactly | net/Channel.cc:56-84 | in every run handleClose's assert holds for the hang-up callback, and for a read of 0 bytes, exactly if no forced-close timer or removal came since poll returned and the read does not follow the hang-up callback of the same report |
| TcpMachine.ClosedTwice | net/Channel.cc:59-79 | a report of POLLHUP and POLLPRI without POLLIN lets a read of 0 bytes call handleClose on a closed connection |
| TcpMachine.DestroyAssertExactly | net/TcpConnection.cc:234-243 | connectDestroyed leaves no event enabled exactly if the state was not kDisconnecting |
| TcpMachine.DestroyedWhileDisconnecting | net/TcpConnection.cc:181-243 | establishing and shutting down a connection leads to such a state |
| HalfClose.HalfCloseExactly | net/TcpConnection.cc:104-193 | in every reachable state, whatever other threads did: nothing can follow the half-close in any continuation by the loop thread exactly if the state is safe, a condition on the link, the queue, the write interest and the report being handled |
| HalfClose.CrossShutdownExactly | net/TcpConnection.cc:181-193 | shutdown from another thread keeps that exactly if the output buffer is drained or the connection is about to go down |
| HalfClose.CrossSendExactly | net/TcpConnection.cc:104-115 | send from another thread keeps that exactly if it sends nothing or the connection is about to go down |
| HalfClose.GracefulHalfClose | net/TcpConnection.cc:181-193 | in every run in which other threads send no byte and shut down only a drained connection: SHUT_WR comes at most once, with the output buffer empty, after every accepted byte, and nothing follows |
| HalfClose.NoByteAfterShutdown | net/TcpConnection.cc:188-281 | if only the loop thread sends bytes, then whoever shuts down: no byte follows a SHUT_WR, and while the connection is not down every accepted byte went out before it |
| HalfClose.CrossShutdownTwice | net/TcpConnection.cc:181-193 | from every reachable connected state with bytes to write and an empty queue, shutdown from another thread, a draining write and the queued functor half-close twice |
| HalfClose.CrossSendAfterShutdown | net/TcpConnection.cc:104-115 | from every reachable connected state with nothing to write and an empty queue, send from another thread, shutdown and the queued functor write after the half-close |
| TcpConnections.TcpConnection.SendInLoop | net/TcpConnection.cc:137-179 | over the Buffer object, is the machine's sendInLoop |
| TcpConnections.TcpConnection.HandleWrite | net/TcpConnection.cc:260-289 | is the HandleWrite step |
| TcpConnections.TcpConnection.HandleRead | net/TcpConnection.cc:245-258 | appends what was read to the input buffer; is the HandleRead step; reports whether handleClose's assert held |
| TcpConnections.TcpConnection.HandleClose | net/TcpConnection.cc:291-303 | goes down with all interest off; reports whether its assert held |
| TcpConnections.TcpConnection.HandleHangup | net/Channel.cc:59-64 | the close callback is the HandleHangup step |
| TcpConnections.TcpConnection.Send | net/TcpConnection.cc:104-115 | is the Send step |
| TcpConnections.TcpConnection.Shutdown | net/TcpConnection.cc:181-193 | is the Shutdown step |
| TcpConnections.TcpConnection.ForceClose | net/TcpConnection.cc:195-201 | is the ForceClose step |
| TcpConnections.TcpConnection.ForceCloseInLoop | net/TcpConnection.cc:212-218 | closes if still up |
| TcpConnections.TcpConnection.ConnectEstablished | net/TcpConnection.cc:224-232 | is the Establish step |
| TcpConnections.TcpConnection.ConnectDestroyed | net/TcpConnection.cc:234-243 | is the Destroy step, Channel::remove's assert proved |
| PollMachine.PollerAgreement | net/poller/PollPoller.cc:77-141 | after any registrations, updates and removals: equal sizes, indices in range and distinct, each slot holds fd or -fd-1 and the channel's events, and decodes to the channel whose index it is |
| PollHistories.RegisteredExactly | net/poller/PollPoller.cc:77-141 | exactly the descriptors registered and not removed since are in the map, each with the events of its last update |
| PollHistories.IndexExactly | net/poller/PollPoller.cc:77-141 | a new channel takes the last slot, an update moves none, a removal moves only the last channel, to the freed slot |
| PollHistories.ReventsAreClear | net/poller/PollPoller.cc:85-110 | no slot carries events over from an earlier poll |
| PollHistories.ActiveExactly | net/poller/PollPoller.cc:57-75 | the active descriptors are those of exactly the slots with events, each once, in slot order |
| PollMachine.IgnoredExactly | net/poller/PollPoller.cc:94-110 | poll ignores a registered channel exactly if it was updated with no events since it was registered |
| PollMachine.ReenabledStaysDeaf | net/poller/PollPoller.cc:94-110 | disabling and enabling a channel again leaves its slot ignored |
| PollMachine.RemoveAssertExactly | net/poller/PollPoller.cc:113-124 | for a channel without events, removeChannel's asserts hold exactly if it was disabled after registration |
| PollMachine.RegisteredMuteCannotLeave | net/poller/PollPoller.cc:85-124 | a channel registered without events fails them |
| PollPollers.PollPoller.UpdateChannel | net/poller/PollPoller.cc:77-111 | on channel objects, is the Register or Modify step, asserts proved |
| PollPollers.PollPoller.RemoveChannel | net/poller/PollPoller.cc:113-141 | on channel objects, is the Remove step, asserts proved |
| PollPollers.PollPoller.FillActiveChannels | net/poller/PollPoller.cc:57-75 | returns the channels with events in slot order, each with its slot's revents; the early exit misses none |
| AsyncLogMachine.LogConservation | base/AsyncLogging.cc:33-117 | in every interleaving, all buffers swapped out, then buffers_, then currentBuffer_ are the lines that fit, in order; the file holds every swapped buffer but those past the second of a batch over 25 |
| AsyncLogMachine.NothingLost | base/AsyncLogging.cc:33-117 | with no batch over 25, file, in-flight buffers, buffers_ and currentBuffer_ are the appended lines in order |
| AsyncLogHistories.WritesFirstBuffers | base/AsyncLogging.cc:83-97 | the buffers being written are a prefix of the last batch: all of it, or the first two of more than 25 |
| AsyncLogHistories.FileIsAllChunks | base/AsyncLogging.cc:83-97 | the file is, batch by batch, every buffer, or for more than 25 a notice of how many are dropped and the first two |
| AsyncLogHistories.LinesAreAppended | base/AsyncLogging.cc:33-48 | the lines spoken of are those of the append calls, in order |
| AsyncLogHistories.RotatesExactly | base/AsyncLogging.cc:33-79 | append rotates exactly if the line does not fit with a byte to spare; the spare is gone exactly after a rotation since the swap, newBuffer2 used exactly by a batch of two or more |
| AsyncLogHistories.RunningUntilStop | base/AsyncLogging.h:39-43 | running_ is set exactly until stop() |
| AsyncLogHistories.ExitsExactly | base/AsyncLogging.cc:65-120 | the back end leaves exactly at the first test after stop() |
| AsyncLogMachine.FileHoldsCollected | base/AsyncLogging.cc:65-117 | with no batch over 25, whenever no batch is being written the file is exactly the lines appended before the last swap, so exactly the later ones are left behind at exit |
| AsyncLogMachine.RefillSafety | base/AsyncLogging.cc:65-113 | both spares non-null and empty from the loop head to the swap, nextBuffer_ null or empty, newBuffer2 used only by a batch of two or more, both pop_backs succeed |
| AsyncLoggings.AsyncLogging.Append | base/AsyncLogging.cc:33-48 | is the Append step, also after the back end has left |
| AsyncLoggings.AsyncLogging.Test | base/AsyncLogging.cc:65-65 | enters the loop body exactly if running_ is set: the Test step |
| AsyncLoggings.AsyncLogging.Collect | base/AsyncLogging.cc:67-93 | swaps all buffers out, keeps the first two of more than 25 with a notice; is the Collect step, also when stop() came since the test |
| AsyncLoggings.AsyncLogging.Write | base/AsyncLogging.cc:95-97 | appends the batch's buffers to the file in order |
| AsyncLoggings.AsyncLogging.Recycle | base/AsyncLogging.cc:99-115 | refills both spares, asserts proved |
| Monitors.NotifyKeepsSignalled | base/BoundedBlockingQueue.h:30-33 | one more unit with one notify: every unit still has a notified thread while any sleeps |
| Monitors.NotifyWakesOne | base/BoundedBlockingQueue.h:30-33 | a notify moves exactly the picked sleeper, and is lost only if nobody sleeps |
| Monitors.NotifyAllWakesEveryone | base/ThreadPool.cc:39-44 | notifyAll moves every sleeper to those coming for the mutex |
| Monitors.SpuriousTakesNoSignal | base/BoundedBlockingQueue.h:26-40 | a spurious wakeup moves one sleeper and leaves the notified ones as they are |
| BoundedQueues.NoMissedSignal | base/BoundedBlockingQueue.h:24-46 | in every run, while a taker sleeps size <= notified takers, and while a putter sleeps free slots <= notified putters |
| BoundedQueues.NeverStuck | base/BoundedBlockingQueue.h:24-46 | for capacity >= 1, putters and takers are never asleep together with no notify pending |
| BoundedQueues.ZeroCapacityGetsStuck | base/BoundedBlockingQueue.h:24-46 | for capacity 0 they are |
| BoundedQueues.QueueIsFifo | base/BoundedBlockingQueue.h:24-46 | accepted items are taken items followed by the queue, which is never pushed into while full |
| BoundedQueues.SleepersAreBlocked | base/BoundedBlockingQueue.h:24-46 | with nobody notified, a sleeping taker means an empty queue and a sleeping putter a full one |
| QueueHistories.QueueIsPutsLessTakes | base/BoundedBlockingQueue.h:24-46 | the queue is what the puts that found room put, less one from the front for each take that found an item |
| QueueHistories.SleepsExactly | base/BoundedBlockingQueue.h:24-46 | a put that finds it full, or a take that finds it empty, falls asleep; others leave the monitor |
| BoundedBlockingQueues.BoundedBlockingQueue.PutSection | base/BoundedBlockingQueue.h:24-33 | one hold of the mutex in put: sleeps if full, else appends and notifies |
| BoundedBlockingQueues.BoundedBlockingQueue.TakeSection | base/BoundedBlockingQueue.h:35-46 | one hold of the mutex in take: sleeps if empty, else returns the front and notifies |
| ThreadPools.TasksAccountedFor | base/ThreadPool.cc:50-80 | submitted tasks are taken tasks followed by the queue, within a positive bound |
| ThreadPools.NoWorkerForgotten | base/ThreadPool.cc:39-80 | before stop no worker sleeps beside an unclaimed task and no producer beside an unclaimed place; after stop no worker sleeps |
| ThreadPools.StoppedWorkersFinish | base/ThreadPool.cc:87-96 | in every run, from stop on, a worker takes at most three steps of its own, and after the third it has exited |
| ThreadPools.StoppedWorkersCanStep | base/ThreadPool.cc:39-96 | after stop a worker that has not exited can step, unless its own task blocks in run |
| PoolHistories.QueueIsSubmitsLessTakes | base/ThreadPool.cc:50-80 | the queue is what the runs that found room submitted, less one from the front for each take that found a task |
| PoolHistories.SleepsExactly | base/ThreadPool.cc:50-80 | a producer sleeps exactly if it finds a bounded queue full, a worker exactly if it finds the queue empty before stop |
| PoolHistories.NobodyLeavesEarly | base/ThreadPool.cc:87-96 | no worker leaves before stop() |
| PoolHistories.ExecutesWhatItTook | base/ThreadPool.cc:66-96 | a worker executes the task it took from the front of the queue |
| PoolHistories.WorkerStep | base/ThreadPool.cc:66-96 | which steps change a worker, and to what |
| ThreadPoolObjects.ThreadPool.RunSection | base/ThreadPool.cc:50-64 | one hold of the mutex in run |
| ThreadPoolObjects.ThreadPool.TakeSection | base/ThreadPool.cc:66-80 | one hold of the mutex in take |
| ThreadPoolObjects.ThreadPool.StopSection | base/ThreadPool.cc:39-44 | stops and wakes every sleeping worker |
| Numerals.NumeralRoundTrip | base/LogStream.cc:37-61 | every integer's numeral is canonical and parses back to it |
| Numerals.NumeralIsUnique | base/LogStream.cc:37-61 | a canonical numeral is the numeral of the integer it parses to |
| Numerals.NumeralFits | base/LogStream.cc:100-115 | any fixed-width value, the most negative included, fits kMaxNumericSize with its terminator, as does any pointer |
| Numerals.Convert | base/LogStream.cc:37-61 | the remainder loop, sign and in-place reverse write exactly the numeral and its terminator |
| Numerals.ConvertHex | base/LogStream.cc:63-79 | the same for hexadecimal |
| Numerals.ReverseInPlace | base/LogStream.cc:58-58 | std::reverse on a range of the array, nothing else touched |
| LogStreams.LogStream.Append | base/LogStream.h:36-44 | appends the text if more than its length is available, else nothing |
| LogStreams.LogStream.Put | base/LogStream.cc:108-185 | appends the text, the character, the canonical numeral that parses to the integer, or 0x and the address, whole if it fits, else nothing |
| LogStreams.LogStream.PutAll | base/LogStream.cc:117-185 | a run of operators yields the specified contents |
| LogStreams.WholeTokensOnly | base/LogStream.cc:108-185 | those contents are the in-order concatenation of whole tokens, within the buffer |
| LogStreams.NothingDropped | base/LogStream.cc:108-185 | with 32 characters to spare no token is dropped |
| ConnectorMachine.TimerNeedsReset | net/Connector.cc:106-178 | in every run, when the retry timer may fire, connecting()'s assert holds exactly if no reset is queued; in rounds, exactly if it fires after the functors of the round a handler set it in, or of the round after a functor set it |
| ConnectorMachine.TimerSetInStep | net/Connector.cc:166-178 | that bound is the next round for a timer set by a handler and the one after for a timer set by a functor |
| ConnectorMachine.TimerOvertakesReset | net/Connector.cc:52-178 | stop, start and the queued stopInLoop lead to a state in which the timer may fire before the reset |
| ConnectorMachine.TimerFiresInSameRound | net/Connector.cc:156-178 | so does a failed attempt, if the timer fires in the same round |
| ConnectorMachine.RestartNeedsReset | net/Connector.cc:98-128 | for restart() of a connected connector, connecting()'s assert holds exactly if no reset is queued |
| ConnectorMachine.ConnectedWithChannel | net/Connector.cc:130-154 | right after success it does not |
| ConnectorMachine.StartFindsLinkDown | net/Connector.cc:37-45 | wherever startInLoop runs its own assert holds, and a start queued by another thread finds no channel |
| ConnectorMachine.ConnectFindsNoChannel | net/Connector.cc:37-128 | if start and restart are called with no reset queued and the timer outlasts the functors named above, connecting() always finds channel_ null |
| ConnectorMachine.StartNeedsReset | net/Connector.cc:106-128 | for start() in the loop thread, connecting()'s assert holds exactly if no reset is queued |
| ConnectorMachine.QuietWithChannel | net/Connector.cc:116-178 | a run that leaves a reset queued with the link down and nothing under way |
| ConnectorMachine.WriteFindsNoConnection | net/Connector.cc:130-154 | in every run handleWrite finds the link connecting, or down after handleError of the same report, and then does nothing |
| ConnectorMachine.DescriptorsOwned | net/Connector.cc:61-178 | every descriptor ever created is in exactly one of the connecting channel, the callback's hands, closed once |
| ConnectorHistories.WriteOutcome | net/Connector.cc:130-154 | handleWrite hands a successful descriptor to the callback if still wanted and closes it if not; it gives up one that failed or met itself |
| ConnectorHistories.HandedExactly | net/Connector.cc:130-154 | the callback has been given exactly the descriptors of attempts that succeeded while wanted |
| ConnectorHistories.AttemptOutcome | net/Connector.cc:37-114 | an attempt is made exactly if wanted, on a new descriptor: connecting on its channel, or closed at once, with a retry exactly for the errors that allow one |
| ConnectorHistories.GiveUpOutcome | net/Connector.cc:52-178 | handleError and stopInLoop give the connecting channel up: closed, reset queued, retry exactly if wanted; otherwise they do nothing |
| ConnectorHistories.ConnectIsWanted | net/Connector.cc:32-104 | connect_ is set exactly if the last of start, restart and stop was not stop |
| ConnectorHistories.TasksInOrder | net/Connector.cc:32-128 | the queued functors run in order, each once |
| ConnectorHistories.RoundRunsQueued | net/Connector.cc:116-128 | a round runs exactly the functors queued before its swap |
| ConnectorHistories.DelaysAreRetries | net/Connector.cc:98-178 | the delays listed are those of the retries since construction or restart, one each |
| ConnectorMachine.RetryDelays | net/Connector.cc:166-178 | the k-th retry since construction or restart waits min(500 * 2^k, 30000) ms |
| Connectors.Connector.Start | net/Connector.cc:32-45 | is the Start step |
| Connectors.Connector.Restart | net/Connector.cc:98-104 | is the Restart step |
| Connectors.Connector.TimerFires | net/Connector.cc:37-45 | startInLoop called by the timer is the TimerFires step |
| Connectors.Connector.Stop | net/Connector.cc:47-50 | is the Stop step |
| Connectors.Connector.StopInLoop | net/Connector.cc:52-59 | is the machine's stopInLoop |
| Connectors.Connector.Connect | net/Connector.cc:61-96 | the three outcomes of connect, connecting()'s assert proved |
| Connectors.Connector.HandleWrite | net/Connector.cc:130-154 | is the HandleWrite step, its assert proved from the invariant |
| Connectors.Connector.HandleError | net/Connector.cc:156-164 | is the HandleError step |
| Connectors.Connector.Retry | net/Connector.cc:166-178 | closes, and schedules the next attempt with doubled delay if still wanted |
| Connectors.Connector.RunTask | net/Connector.cc:37-128 | queued startInLoop, stopInLoop or resetChannel is the RunTask step |

## Left out

- Buffers.Buffer.MakeSpace: models compaction as intended, with the readable count saved first; the lines as written are BufferAsWritten.
- TimerQueues.TimerQueue.HandleRead: an addition whose address still holds a live timer is passed over instead of being impossible.
- Blocking methods (put, take, run, the logger's wait) are split at wait() into one call per hold of the mutex, so a blocked call is not a single method activation.
- Integer widths: timestamps, sizes and counters are unbounded, except in the byte encodings, the numeral lengths, the eventfd counter and Dates.ConversionFitsInt32.
- Timer intervals are whole microseconds with the repeat flag kept apart; the conversion from floating-point seconds is not modelled.
- The clock is positive and timerfd_settime succeeds.
- User callbacks other than their calls back into the component, and shared_ptr lifetimes.
- findEOL(start), the non-numeric stream operators, floating-point and Fmt output.
- Sockets, addresses, DNS, files and log rolling, and thread, mutex and latch wrappers: environment.
- EventLoopThread, EventLoopThreadPool, CountDownLatch, BlockingQueue, Acceptor, TcpServer, TcpClient: they would only add easy members.
- Producers blocked in ThreadPool::run when the pool stops: the code does not promise anything for them.
- The demonstration programs under example/.
