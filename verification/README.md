# Verified model of nanomsg's in-process core

nanomsg's in-process transport connects two sockets of one program. Each side has
a session (`sinproc`) with a one-message mailbox, a bounded message queue and a
pipe towards its socket; the two sessions talk by raising events to each other.
Around it stand the structures and lifecycles that everything else in the library
rests on: message chunks and their reference counts, the poll set, the hash table,
the timer set, intrusive lists and queues, timers and their worker thread, the
rendezvous of bound and connected endpoints, execution contexts, and the socket
itself. This project models these parts in Dafny 4.11 and proves what they promise.
Nothing of the library is executed.

`dafny verify dfyconfig.toml` verifies everything; no proof needs more than 1.6 million
resource units.

## How it is built

Code that changes objects in place is modelled by classes whose methods change the
same fields (`MsgQueue`, `Poller`, `Queue`, `List`, `Hash`, `TimerSet`, `Chunk`,
`ChunkRef`, `Memory`, `Sinproc`, `Pipebase`, `Timer`, `Worker`, `Registrar`, `Ctx`,
`Sock`); the contexts, the worker, the socket and the rendezvous stand on the same
queue, list and timer set. The protocols also have a value form: functions on plain
values, one for each function of the program, with `Abort(file, line)` wherever an `nn_assert`, an
`errnum_assert` or an `nn_fsm_bad_*` call would stop the process. The methods are
proved to do exactly what the value form does, failures included; the value form is
what the theorems about whole runs speak of.

| files | what they hold |
|---|---|
| `Outcome`, `Messages`, `Seqs`, `CInt` | results that may be fatal or missing, messages, sequences, C integer widths |
| `Session`, `SessionInvariant`, `SessionTheorems`, `SessionShutdown`, `SessionQueues`, `SessionHolding`, `SessionFaults`, `SessionRuns`, `Sinproc` | the session protocol |
| `MsgQueue`, `Poller`, `Queue`, `List`, `Hash`, `TimerSet` | data structures |
| `TimerWorker`, `TimerProofs`, `TimerDeadlines`, `WorkerObject`, `TimerObjects` | timers against the worker |
| `Wire`, `Chunk`, `RefCount`, `RefRuns`, `Memory`, `MsgMemory` | message memory |
| `Ins` | bind/connect rendezvous |
| `Ctx`, `CtxObject`, `CtxProofs`, `CtxTheorems`, `CtxOrder`, `CtxOvertaking`, `CtxExchange` | event draining |
| `Sock`, `SockObject`, `SockProofs`, `SockTheorems`, `Deadline` | the socket |

## What the proofs assume about the surroundings

- A mutex makes what it protects one step. Runs interleave such steps freely.
- What an event raises to its own owner or socket is processed before anything else
  happens to that end: the context is drained before it is left (src/aio/ctx.c:32-39),
  and `CtxTheorems.DrainedAndDelivered` proves that a context nobody is in has nothing
  of its own queued. So in `Session` and `TimerWorker` nothing gets in between.
- The events one session raises to the other are processed in the order of raising,
  except that SENT and RECEIVED may pass each other and DISCONNECT may pass RECEIVED.
  This is part of what `Session` calls careful and `SessionHolding` calls due;
  `SessionFaults.DueIsExact` proves that any other overtaking is fatal, and
  `CtxOvertaking.OrderlyIsExact` what a context has to do to keep a direction in order.
- Taking an event off a queue and entering the context of its owner are two steps
  (src/aio/ctx.c:55-60): so they are in `Ctx`, `TimerWorker` and `SessionHolding`.
  `Session` has one, and `SessionHolding.RunsAsSteps` relates the two.
- `nn_fsm_start`, `nn_fsm_stop`, `nn_fsm_raise`, `nn_fsm_raiseto` and `nn_fsm_stopped`
  are only declared in the repository (src/aio/fsm.h:53-71). Raising pushes the event
  object on a queue of the context (src/aio/ctx.c:74-84), an object already queued is
  fatal (src/utils/queue.c:23), a stop request is ignored unless the state machine is
  running, and a stopped state machine is idle.
- A session run begins after accept, with READY under way. A socket sends on a pipe
  only after OUT and before the pipe is stopped, and receives only after IN.
- The clock, what the protocol above a socket answers, what the system reports for a
  descriptor, and whether an endpoint can be initialised are inputs.
- An endpoint told to stop reports STOPPED once, after its pipes have stopped; a
  protocol told to stop reports once. An owner starts or drops a timer only when it
  is idle.
- An `onleave` callback raises nothing; the one of a socket only signals descriptors.

## Where the text of the code was read for its intent

- src/transports/inproc/sinproc.c:76-85 fuses two functions. Lines 78-81 are connect;
  accept sets the peer, raises READY to it and goes on with lines 83-84.
- src/utils/chunkref.c:99 assigns where it means to compare.
- src/utils/chunk.c:52 writes the tag one byte behind the offset word; the reader
  (src/utils/chunk.c:154) expects it four bytes before the data.
- src/aio/poller_poll.inc:49-55: only the `prev` update depends on a non-empty list.
  Lines 29-43 lack the step that makes the new slot part of the set.
- src/core/sock.c:830 erases from `eps` an endpoint that was moved to `sdeps` at lines
  485-486; src/core/sock.c:129 compares where it means to assign.
- src/aio/worker_posix.inc:175 and 180 pop from `tasks`; lines 52 and 57 mean `timerset`.
- src/utils/hash.c:134 returns 0; the table is proved for every hash function.

## What turned out not to hold

Each is stated with the exact condition under which it does hold.

- A stop in CONNECTING dereferences an unknown peer (src/transports/inproc/sinproc.c:168),
  and a pipe refused on ACCEPTED leaves an event object queued that the peer's stop pushes
  again, or an end whose next event is fatal (line 405).
- A stop in READY leads to the assert at line 236, unless a thread already holds the
  ACCEPTED it waits for: then it is harmless, as long as that ACCEPTED is processed before
  the peer's DISCONNECT.
- Events that two threads carry out of one context may be processed in either order.
  ACCEPTED and SENT do not stand that (`SessionRuns.SentPassesAccepted`, line 334), nor do
  SENT and DISCONNECT; SENT and RECEIVED do, and a DISCONNECT ahead of RECEIVED does.
- A RECEIVED that a thread has taken off its queue is not seen by the test before STOPPED
  (line 231). Reported over it, STOPPED is followed by a fatal check at line 415; a run
  from the start that gets there is `SessionRuns.ReceivedComesTooLate`.
- `SessionFaults.DueIsExact` takes these four together: wherever due moves have led, a
  possible move is due if and only if no due moves after it reach a fatal check.
- Delivery between contexts does not keep the order of sending, even with one thread:
  `CtxExchange.OneThreadOvertakes`. `CtxOvertaking.OrderlyIsExact`: leaving a context while
  no earlier batch of it carries events in a direction in which more go now is exactly what
  keeps that direction in order, for as long as the context goes on being left so.
- A trim of a shared chunk writes its header where the other holders keep their data or
  their own header, and shortens the size for all: `MessageMemory.Memory.Trim` says
  exactly when the memory stays sound, `Chunks.OtherHolder` when a sharer still leads back.
- A holder that releases the last hold before the stop lets nn_sock_term pass a later
  holder: `SockTheorems.OwedIsExact`.
- nn_sock_add_ep does not look at the state of the socket. An endpoint added once the
  socket is stopping leads to a fatal check: `SockTheorems.CarefulIsExact`.
- A wait of a blocking send or recv overruns the deadline exactly if time has passed
  since the last clock reading, or if that reading was past the deadline; readings stop
  while the timeout option is switched off: `Deadlines.OverrunIsExact`.
- A call entered with the timeout option off, and switched on later, waits for a time that
  depends on the clock alone, or without limit: `Deadlines.SwitchedOnLate`.
- The timer set's wait is wrong when the cast to int loses the difference:
  `TimerSets.WaitIsExact`.
- A bulk copy without a reservation breaks the counts: `RefCount.BulkCpKeeps`.

## Model

| member | source | states |
|---|---|---|
| SessionTheorems.RunIsSafe | src/transports/inproc/sinproc.c:89-418 | Every run of the pair made of careful steps, with sends, receives, deliveries and stops in any interleaving, ends without reaching any assert or nn_fsm_bad_* branch of the session, the pipe or the queue, and keeps the invariant. Careful includes the order of delivery: the events raised by one end arrive in the order of raising, but SENT and RECEIVED may pass each other and DISCONNECT may pass RECEIVED |
| SessionTheorems.StartIsGood | src/transports/inproc/sinproc.c:76-85 | The pair as connect and accept leave it, with READY under way, satisfies the invariant |
| SessionTheorems.StepIsGood | src/transports/inproc/sinproc.c:243-418 | One careful step by either end, the delivery of any event that is in turn included, keeps the invariant of the pair |
| SessionInvariant.StepKeeps | src/transports/inproc/sinproc.c:243-418 | The same step by step, seen from the end that takes it |
| SessionTheorems.MessagesAreConserved | src/transports/inproc/sinproc.c:89-155 | Per direction, against the messages as the callers gave them to send: while both ends are active, what was delivered, then what is in the receiver's queue, then what is in the mailbox are as many messages as were sent, and at any time those delivered are at most as many; the i-th of them has no headers of its own, and its body is the header bytes and then the body bytes of the i-th message sent |
| SessionTheorems.ParkedIsExact | src/transports/inproc/sinproc.c:348-366 | SENT leaves the message in the mailbox and the receiver RECEIVING if and only if the receiver's queue holds a message and the bytes of its protocol headers and bodies, with those of the new message, reach the bound; otherwise the message is at the end of the queue, the mailbox is empty and RECEIVED is raised |
| SessionTheorems.MovesUpIsExact | src/transports/inproc/sinproc.c:135-148 | A receive takes the parked message into the queue, empties the mailbox and raises RECEIVED if and only if the end is active and RECEIVING and the queue, the oldest message gone, is empty or its bytes with those of the message stay under the bound |
| SessionTheorems.SendingIsOneToken | src/transports/inproc/sinproc.c:100-117 | While both ends are active, SENDING is set if and only if exactly one of these holds: SENT is pending to the peer, the peer is RECEIVING, RECEIVED is pending back; no two of them hold together |
| SessionTheorems.PipeMirrorsSession | src/core/pipe.c:150-187 | On an active session instate is IDLE exactly when the queue has a message and ASYNC exactly when it has none, outstate is ASYNC exactly while SENDING, and RECEIVING implies a message in the queue |
| SessionTheorems.MailboxHasOneOwner | src/transports/inproc/sinproc.c:103-145 | Any careful step changes an end's own mailbox only by a send that sets SENDING, and the peer's mailbox only by moving the announced message to the back of its own queue and leaving the empty message |
| SessionTheorems.OwnerOfMailbox | src/transports/inproc/sinproc.c:351-357 | The same for one step of one end |
| SessionTheorems.SendGuardIsExact | src/core/pipe.c:150-167 | In every reachable state the asserts of nn_pipe_send and of the session below it hold if and only if the session is active and not sending |
| SessionTheorems.RecvGuardIsExact | src/core/pipe.c:169-187 | In every reachable state the asserts of nn_pipe_recv hold if and only if the session is active or disconnected and has a message, and then the oldest one is delivered |
| SessionTheorems.PeerFrame | src/transports/inproc/sinproc.c:89-155 | A step writes nothing of the peer but its event queue and its mailbox |
| SessionTheorems.ReceivesRelease | src/transports/inproc/sinproc.c:136-147 | While a message is parked in the peer's mailbox, some number of receives, no more than the queue is long, takes it into the queue and raises RECEIVED to the peer |
| SessionTheorems.DeliveriesRelease | src/transports/inproc/sinproc.c:368-372 | With RECEIVED under way, some number of deliveries, no more than there are events, ends SENDING and makes the pipe writable again, its socket told |
| SessionTheorems.BackPressureEnds | src/transports/inproc/sinproc.c:136-152 | From every reachable state with a parked message there is a run of receives followed by deliveries to the sender after which it is not sending, its pipe is idle and its socket has been told |
| SessionShutdown.StoppedIsQuiet | src/transports/inproc/sinproc.c:231-239 | A session that reported STOPPED reported once and has no event of its own still queued anywhere |
| SessionShutdown.PastLastEvent | src/transports/inproc/sinproc.c:190-203 | Once an end has heard the last word, no later careful step of either end raises an event to it, moves its mailbox or makes it report twice; all that can happen is that a passed RECEIVED arrives and STOPPED is reported then |
| SessionShutdown.StoppedStaysQuiet | src/transports/inproc/sinproc.c:231-239 | After STOPPED, in every continuation, the peer never raises an event to the session again |
| SessionShutdown.StopCompletes | src/transports/inproc/sinproc.c:157-241 | Every end that is stopping, whatever it is waiting for, reports STOPPED exactly once after what is under way to its peer is delivered and then what is under way back |
| SessionShutdown.NothingInFlight | src/transports/inproc/sinproc.c:217-241 | Whatever the schedule: in a reachable pair with nothing under way to either end, no end is still stopping, and every end that was told to stop has reported STOPPED once |
| SessionShutdown.DisconnectedStopReports | src/transports/inproc/sinproc.c:172-175 | Every stop of a disconnected session reports STOPPED, at once or as soon as the one RECEIVED that DISCONNECT has passed arrives |
| SessionHolding.HoldingIsSafe | src/aio/ctx.c:50-60 | A thread's taking an event off the queue and its processing it apart, with any number of events of either end held in between, and any other step before, after or between: no run of due moves reaches a fatal check. Due asks what careful asks, and not to report STOPPED while a RECEIVED is held; but an end may be stopped in READY while its ACCEPTED is held, if that is then processed before DISCONNECT |
| SessionHolding.SoundKept | src/transports/inproc/sinproc.c:157-418 | The same move by move: what is in flight, taken together with what threads hold, satisfies the invariant of the pair, but for an ACCEPTED still held for an end that was stopped early |
| SessionHolding.EarlyStopIs | src/transports/inproc/sinproc.c:163-171 | A stop in READY while ACCEPTED is held passes the check on event_connect and leaves a sound state |
| SessionHolding.LatePeer | src/transports/inproc/sinproc.c:243-418 | Whatever the peer of an end stopped early does, it does as if the held ACCEPTED were gone |
| SessionHolding.LateAccepted | src/transports/inproc/sinproc.c:190-203 | Once the held ACCEPTED is processed nothing is left of the early stop |
| SessionHolding.RunsAsSteps | src/transports/inproc/sinproc.c:157-418 | A run of due moves without an early stop makes of the pair, everything in flight taken together, exactly what the careful run of `Session` makes that delivers each event when it is processed |
| SessionHolding.ShowsReachable | src/transports/inproc/sinproc.c:76-418 | From the pair as connect and accept leave it every such run ends in a reachable state of `Session`, everything in flight taken together |
| SessionHolding.NothingHeld | src/transports/inproc/sinproc.c:217-241 | Wherever due moves have led, early stops included: once nothing is queued or held, no end is still stopping |
| SessionFaults.DueIsExact | src/transports/inproc/sinproc.c:157-418 | Wherever due moves from the start have led, a possible move is due if and only if no due moves after it reach a fatal check: each duty is needed, and together they suffice |
| SessionFaults.SoundFaults | src/transports/inproc/sinproc.c:157-418 | From every sound state, for every possible move that is not due, due moves that then reach a fatal check |
| SessionFaults.EarlyStopFaults | src/transports/inproc/sinproc.c:217-237 | After a stop in READY with ACCEPTED not held, whatever the peer is doing, due moves of the peer reach the check on event_connect |
| SessionFaults.RefusedPipeFaults | src/transports/inproc/sinproc.c:319-328 | A pipe refused by the socket on ACCEPTED is fatal at once or has due moves after it that reach a fatal check |
| SessionFaults.ConnectingFaults | src/transports/inproc/sinproc.c:164-170 | In CONNECTING a stop dereferences the unknown peer and a refused pipe is fatal at once |
| SessionFaults.DisconnectFaults | src/transports/inproc/sinproc.c:348-418 | A DISCONNECT processed too soon, which is ahead of SENT, ahead of the ACCEPTED of an end stopped early, or by a stopping end while its RECEIVED is held, is fatal at once or makes that event fatal |
| SessionFaults.StopFaults | src/transports/inproc/sinproc.c:228-239 | A stop of a disconnected end while its RECEIVED is held makes that RECEIVED fatal |
| SessionRuns.ReceivedComesTooLate | src/transports/inproc/sinproc.c:228-239 | A concrete run from the start in which all moves are due but the last stop: one message is sent and answered, the acceptor is stopped, the connector answers and is stopped while its RECEIVED is held, and RECEIVED then reaches the check at line 415 |
| SessionRuns.SentPassesAccepted | src/transports/inproc/sinproc.c:319-335 | A concrete run from the start: with ACCEPTED and SENT under way from the connecting end, processing SENT first is fatal |
| SessionRuns.SentReceivedCommute | src/transports/inproc/sinproc.c:348-373 | SENT and RECEIVED, delivered to an active session in either order and what they raise processed, lead to the same state of both ends |
| SessionRuns.AtOnce | src/aio/ctx.c:50-60 | A careful delivery of `Session` is its two moves made one right after the other |
| SessionQueues.EnterSame | src/transports/inproc/sinproc.c:243-418 | Processing a held event gives, but for what is held, the outcome of its delivery |
| SessionQueues.CallSame | src/transports/inproc/sinproc.c:87-155 | Every other step gives the same outcome whatever is held |
| Sinprocs.Sinproc.Connected | src/transports/inproc/sinproc.c:34-56 | A fresh connecting end has the initial value, its own pipe and an empty message queue with the given bound |
| Sinprocs.Sinproc.Accepted | src/transports/inproc/sinproc.c:76-85 | An end accepted from a connecting one knows its peer, raises READY to it, starts and is READY, with an empty message queue of the given bound |
| Sinprocs.Sinproc.RaiseTo | src/transports/inproc/sinproc.c:115-117 | Puts the event on the peer's queue, refused exactly if that event object is queued already |
| Sinprocs.Sinproc.RaiseOwn | src/transports/inproc/sinproc.c:381-382 | Raises event_disconnect to the owner, refused exactly if it is queued already |
| Sinprocs.Sinproc.Send | src/transports/inproc/sinproc.c:89-120 | -ECONNRESET when disconnected; otherwise the mailbox holds a message without headers whose body is the bytes of the protocol header and then those of the body, SENDING is set and SENT raised; or the failed assert |
| Sinprocs.Sinproc.PipeSend | src/core/pipe.c:150-167 | The whole pipe send with its re-entered out-state, equal to its value on both ends, with the same in the mailbox |
| Sinprocs.Sinproc.FinishSend | src/core/pipe.c:160-166 | The end of a pipe send: an early acknowledgement makes the pipe idle, otherwise it waits |
| Sinprocs.Sinproc.Recv | src/transports/inproc/sinproc.c:122-155 | The session receive: oldest message out, parked message in if there is room, RECEIVED raised, the pipe told if messages remain |
| Sinprocs.Sinproc.PipeRecv | src/core/pipe.c:169-187 | The whole pipe receive with its re-entered in-state |
| Sinprocs.Sinproc.FinishRecv | src/core/pipe.c:180-186 | The end of a pipe receive: a pipe that was told of a further message stays readable |
| Sinprocs.Sinproc.Unpark | src/transports/inproc/sinproc.c:135-148 | Takes the message parked at the peer into the queue exactly if the queue accepts it |
| Sinprocs.Sinproc.TakeFirst | src/transports/inproc/sinproc.c:132-133 | Takes the oldest message from the chunked queue |
| Sinprocs.Sinproc.OnReady | src/transports/inproc/sinproc.c:288-296 | READY in CONNECTING: the peer becomes known, the pipe starts, ACCEPTED goes back |
| Sinprocs.Sinproc.OnAccepted | src/transports/inproc/sinproc.c:319-331 | ACCEPTED in READY: active, or disconnected, the peer forgotten, the pipe idle and the owner told if the socket refuses the pipe |
| Sinprocs.Sinproc.OnSent | src/transports/inproc/sinproc.c:348-366 | SENT: the message moves into the queue and is acknowledged, or stays parked |
| Sinprocs.Sinproc.OnReceived | src/transports/inproc/sinproc.c:368-372 | RECEIVED: SENDING ends and the pipe is told |
| Sinprocs.Sinproc.OnDisconnect | src/transports/inproc/sinproc.c:374-383 | DISCONNECT: answered, the peer forgotten, the pipe idle, the owner told |
| Sinprocs.Sinproc.Handler | src/transports/inproc/sinproc.c:243-418 | The handler in every state and for every event, equal to its value on both ends, failing exactly where the value does |
| Sinprocs.Sinproc.ShutdownEvents | src/transports/inproc/sinproc.c:157-215 | The shutdown events, equal to their value on both ends |
| Sinprocs.Sinproc.Shutdown | src/transports/inproc/sinproc.c:217-241 | The shutdown step with its two waiting conditions and its asserts |
| Sinprocs.Sinproc.Stop | src/transports/inproc/sinproc.c:87-87 | A stop request, ignored unless the state machine is running |
| Sinprocs.Sinproc.Deliver | src/transports/inproc/sinproc.c:243-418 | Takes the event at any place of the queue off and feeds it to the handler or the shutdown |
| Sinprocs.Pipebase.Start | src/core/pipe.c:51-68 | Starts an idle pipe: active with OUT raised, or failed if the socket refuses it |
| Sinprocs.Pipebase.Received | src/core/pipe.c:78-87 | Tells the pipe of a message: recorded during a receive, otherwise IN raised; fails exactly in any other in-state |
| Sinprocs.Pipebase.Sent | src/core/pipe.c:89-98 | Tells the pipe that sending is possible: recorded during a send, otherwise OUT raised; fails exactly in any other out-state |
| MsgQueues.MsgQueue.constructor | src/transports/inproc/msgqueue.c:9-27 | A new queue is empty, with one chunk and the given memory bound |
| MsgQueues.MsgQueue.Empty | src/transports/inproc/msgqueue.c:51-54 | True exactly if nothing is queued |
| MsgQueues.MsgQueue.Send | src/transports/inproc/msgqueue.c:56-83 | Refused if and only if the queue holds something and the bytes of the protocol headers and bodies in it, with those of the message, reach the bound; otherwise appended; only new chunks are allocated |
| MsgQueues.MsgQueue.Put | src/transports/inproc/msgqueue.c:65-69 | The message lands in the next cell of the written chunk; count and memory stay those of the contents |
| MsgQueues.MsgQueue.Grow | src/transports/inproc/msgqueue.c:71-80 | A full written chunk is followed by the spare chunk, or a new one; the contents do not change, whatever the stale next of the spare chunk |
| MsgQueues.MsgQueue.Recv | src/transports/inproc/msgqueue.c:85-111 | The oldest message, in the order of sending, or none; no chunk is lost |
| MsgQueues.MsgQueue.Take | src/transports/inproc/msgqueue.c:93-108 | The cell read is the oldest message |
| MsgQueues.MsgQueue.Shrink | src/transports/inproc/msgqueue.c:96-105 | A used-up chunk becomes the spare one or is freed; the spare chunk is never one of the chain |
| MsgQueues.MsgQueue.Term | src/transports/inproc/msgqueue.c:29-49 | Releases each message once, in order, finds the read and the written chunk to be the same, and frees every chunk exactly once |
| MsgQueues.MsgQueue.LastChunk | src/transports/inproc/msgqueue.c:43-48 | An empty queue has one chunk in its chain and at most one spare, and no other |
| MsgQueues.WindowPut | src/transports/inproc/msgqueue.c:65-69 | Writing the cell at the out position appends to the sequence the cells stand for |
| MsgQueues.WindowGrow | src/transports/inproc/msgqueue.c:71-80 | Linking a chunk leaves that sequence alone |
| MsgQueues.WindowTake | src/transports/inproc/msgqueue.c:93-95 | The cell at the in position is the first of the sequence |
| MsgQueues.WindowShrink | src/transports/inproc/msgqueue.c:96-105 | Dropping a used-up chunk leaves the rest |
| MsgQueues.CellsLength | src/transports/inproc/msgqueue.c:56-111 | count is 126 times the full chunks plus the positions |
| Messages.JoinedPush | src/transports/inproc/msgqueue.c:60-69 | A message adds the bytes of its protocol header and its body to those of the queue; the memory count is kept equal to the number of those bytes |
| Messages.CarriedIs | src/transports/inproc/sinproc.c:103-108 | Each message crosses without headers of its own: header bytes first, body bytes behind them, no byte more |
| Pollers.Poller.Add | src/aio/poller_poll.inc:29-43 | A new handle with its own quiet pollfd joins the contents; all others keep theirs; the arrays double when full |
| Pollers.Poller.Rm | src/aio/poller_poll.inc:45-57 | The handle leaves the contents, its slot joins the free list, all others keep their slots and pollfds |
| Pollers.Poller.Detach | src/aio/poller_poll.inc:45-57 | The four writes of a removal, the guarded prev update included |
| Pollers.Poller.SetIn | src/aio/poller_poll.inc:59-63 | Only the handle's wish for IN changes |
| Pollers.Poller.ResetIn | src/aio/poller_poll.inc:65-70 | The wish for IN and a reported IN are cleared, nothing else |
| Pollers.Poller.SetOut | src/aio/poller_poll.inc:72-76 | Only the handle's wish for OUT changes |
| Pollers.Poller.ResetOut | src/aio/poller_poll.inc:78-83 | The wish for OUT and a reported OUT are cleared, nothing else |
| Pollers.Poller.CompactOne | src/aio/poller_poll.inc:90-117 | One round of the compaction shortens the free list and the poll set by one and keeps the contents, also when the last slot is itself free and with a stale prev at the head |
| Pollers.Poller.Compact | src/aio/poller_poll.inc:90-117 | The loop ends with exactly the live handles in slots 0 to size-1, each with its own pollfd and a correct index |
| Pollers.Poller.Wait | src/aio/poller_poll.inc:85-135 | The same after a wait, with the scan index reset; the reports go to the handles of their slots; an interrupted poll reports nothing |
| Pollers.Poller.NextEvent | src/aio/poller_poll.inc:137-168 | The event is that of the first handle from the scan index on with a report, IN before OUT before ERR; of its reports only the one returned is cleared, and the index passes the slot only after an ERR; no removed handle is ever returned, and none means none is left |
| Pollers.RoundKeepsList | src/aio/poller_poll.inc:90-117 | One round turns any well-formed free list into one shorter by one, reads and writes only inside the arrays, and moves the last handle into the hole |
| Pollers.RoundOnLast | src/aio/poller_poll.inc:91-116 | The same when the hole is the last slot |
| Pollers.RoundOnLive | src/aio/poller_poll.inc:91-104 | The same when the last slot holds a live handle |
| Pollers.RoundOnFree | src/aio/poller_poll.inc:91-116 | The same when the last slot is itself on the list |
| Pollers.PushFree | src/aio/poller_poll.inc:49-56 | Pushing a slot keeps the threaded list well formed |
| Pollers.PopLast | src/aio/poller_poll.inc:91-116 | Popping the last slot off its head does too |
| Pollers.PopLive | src/aio/poller_poll.inc:91-104 | So does filling the head from a live last slot |
| Pollers.PopFree | src/aio/poller_poll.inc:91-116 | So does relinking the neighbours of a free last slot |
| Queues.Queue.Empty | src/utils/queue.c:19-19 | True exactly if nothing is queued |
| Queues.Queue.Push | src/utils/queue.c:21-34 | Appends an item that is on no queue; its link then says it is queued |
| Queues.Queue.Pop | src/utils/queue.c:65-79 | Takes the oldest item, whose link then says it is on no queue, or none |
| Queues.Queue.Remove | src/utils/queue.c:36-63 | Takes out exactly the given item wherever it is, keeps the order of the others and the tail; nothing happens to an item that is not queued |
| Queues.Queue.Unlink | src/utils/queue.c:43-58 | The relinking at one position |
| Lists.List.Begin | src/utils/list.c:23-23 | The first item or none |
| Lists.List.Next | src/utils/list.c:36-40 | The following item or none |
| Lists.List.Prev | src/utils/list.c:27-34 | The preceding item or none, also from the end |
| Lists.List.Insert | src/utils/list.c:42-61 | The item joins the sequence right before the given place; prev, next, first and last agree with it |
| Lists.List.Erase | src/utils/list.c:63-87 | Exactly the item leaves the sequence, its links say it is on no list, and its successor is returned |
| Lists.List.Detach | src/utils/list.c:68-84 | The pointer work of an erasure: the neighbours are linked to each other, the item to none |
| Lists.List.Attach | src/utils/list.c:45-60 | The pointer work of an insertion: the item is linked to both neighbours and they to it |
| Hashes.Hash.constructor | src/utils/hash.c:12-25 | An empty table of 32 slots |
| Hashes.Hash.Get | src/utils/hash.c:107-125 | The item of the key, for any hash function, or none |
| Hashes.Hash.Insert | src/utils/hash.c:72-95 | Refused exactly if the key is present; otherwise the table gains the association, and the slots are 32 times a power of two with at most half as many items, or at the limit of 2^31 |
| Hashes.Hash.Append | src/utils/hash.c:86-88 | The association is added in the slot of its key |
| Hashes.Hash.Rehash | src/utils/hash.c:38-70 | Twice the slots; every association is kept and every item sits in the slot of its key |
| Hashes.Hash.Redistribute | src/utils/hash.c:55-65 | Moves every item of the old slots once and leaves them empty |
| Hashes.Hash.MoveFirst | src/utils/hash.c:57-62 | One item moves to the slot of its key |
| Hashes.Hash.Erase | src/utils/hash.c:97-105 | Exactly the item's association is gone |
| Hashes.Hash.NothingWraps | src/utils/hash.c:88-92 | Below 2^31 slots the item count is exact and neither doubling wraps in 32 bits |
| Hashes.DoubleSlots | src/utils/hash.c:46-53 | Doubling keeps the slot count 32 times a power of two |
| Hashes.BelowLimit | src/utils/hash.c:90-92 | A slot count below the limit is at most 2^30, so that it doubles without wrapping |
| TimerSets.TimerSet.Add | src/aio/timerset.c:20-41 | The handle enters behind every deadline not later than its own, which keeps the set sorted and first-in-first-out among equal deadlines; the result says whether it is now first |
| TimerSets.TimerSet.Rm | src/aio/timerset.c:43-53 | Exactly the handle leaves; the result says whether it was first; a handle not in the set changes nothing |
| TimerSets.TimerSet.Timeout | src/aio/timerset.c:54-68 | -1 exactly if the set is empty, otherwise the wait for the first deadline |
| TimerSets.TimerSet.Event | src/aio/timerset.c:70-87 | Hands out the first handle exactly if it is due |
| TimerSets.TimerSet.Expire | src/aio/worker_posix.inc:148-158 | Repeated calls hand out a prefix of the set in order: every handle due when they began, none before its deadline, and nothing due at the last call is left |
| TimerSets.InsertKeepsSorted | src/aio/timerset.c:30-37 | Insertion keeps the order of deadlines and, among equal ones, of arrival |
| TimerSets.DueIsPrefix | src/aio/timerset.c:70-87 | In a sorted set the due handles are exactly a prefix |
| TimerSets.WaitIsExact | src/aio/timerset.c:54-68 | The computed wait is the exact remaining time, or 0 when overdue, if and only if the difference survives the cast to int; it does within 2^31 ms either way |
| TimerSets.NeverPastDeadline | src/aio/timerset.c:54-68 | Waiting that long never sleeps past a deadline that is still ahead, at any distance |
| TimerProofs.RunIsSafe | src/aio/timer.c:49-146 | For every interleaving of starts, stops, expiries, worker steps and owner steps on any number of timers, the worker popping an item and entering the context of its owner being two steps, no assert and no nn_fsm_bad_* branch is reached |
| TimerProofs.StepKeeps | src/aio/timer.c:64-146 | One step keeps the agreement of every timer with the queued tasks, the batch taken from it, the task or expiry in hand, and the timer set |
| TimerProofs.StoppedIsClean | src/aio/timer.c:64-85 | When a timer has reported stopped, or is idle, neither of its tasks is queued, taken or in hand, its handle is not in the timer set, no expiry is in hand, and term passes its asserts |
| TimerProofs.NoTimeoutUntilRestart | src/aio/timer.c:64-146 | From a stop on, in every continuation without a restart, no timeout is raised |
| TimerProofs.NoLostWakeUp | src/aio/worker_posix.inc:113-119 | Whenever a task waits in the shared queue the worker has been signalled |
| TimerProofs.StopCompletes | src/aio/worker_posix.inc:167-193 | There are always steps of the worker and the owners after which a stopping timer has reported stopped |
| TimerProofs.NothingLeft | src/aio/worker_posix.inc:167-193 | Whatever the schedule: in a reachable system whose worker has nothing in hand and nothing queued, no timer is stopping |
| TimerProofs.IdleMayRestart | src/aio/timer.c:49-56 | An idle timer may be started again at any moment, whatever task or expiry the worker has in hand, and no continuation reaches a fatal check |
| TimerDeadlines.HandedOutOnTime | src/aio/timer.c:49-146 | A timer is started with a duration d and its start task is run at a clock reading t, with any steps but its stop before and after: it is in the timer set, the worker does not hand it out at a reading before t + d (of 64 bits), and at every reading from then on the worker, when it looks, hands out a timer that is due, this one if no other deadline is earlier |
| TimerDeadlines.StaysTimed | src/aio/timer.c:49-146 | Until its start task is run a running timer keeps the duration it was started with, whatever happens |
| TimerDeadlines.StaysSet | src/aio/timerset.c:20-87 | Once armed it keeps its deadline until it is stopped or handed out |
| TimerObjects.Timer.Start | src/aio/timer.c:49-56 | An idle timer with a non-negative timeout keeps that timeout, is running, and its start task is queued and the worker signalled; fails exactly where the value does |
| TimerObjects.Timer.Stop | src/aio/timer.c:58-62 | Ignored unless running; otherwise the timer is stopping, its stop task queued, the timeout and all deadlines as they were |
| TimerObjects.Timer.Term | src/aio/timer.c:35-45 | The checks made when a timer is dropped: they pass exactly if it is idle, not armed, and neither of its tasks is queued or taken |
| TimerObjects.Timer.Handler | src/aio/timer.c:91-146 | The handler in every state; an accepted start task arms exactly this timer, with the clock reading plus the timeout it was started with as deadline, and nothing else changes a deadline |
| TimerObjects.Timer.Shutdown | src/aio/timer.c:64-89 | The shutdown in every state; the stop task takes exactly this timer out of the timer set, and nothing else changes a deadline |
| TimerObjects.Timer.Feed | src/aio/timer.c:64-146 | Handler or shutdown, as the state machine says, with the same for the deadlines |
| TimerObjects.Timer.Raise | src/aio/timer.c:132-132 | Raises an event to the owner, refused exactly if it is queued |
| TimerObjects.RunTask | src/aio/worker_posix.inc:187-191 | Feeds the task in hand to its timer: the state after it is the value of the step, and the deadlines are as for Feed |
| TimerObjects.TellExpired | src/aio/worker_posix.inc:154-157 | Tells the timer of the expiry in hand, likewise; no deadline changes |
| WorkerObjects.Worker.Execute | src/aio/worker_posix.inc:113-119 | The item of a task is refused exactly if it is on the queue or in the batch; otherwise it joins the intrusive queue behind the others and the worker is signalled |
| WorkerObjects.Worker.AddTimer | src/aio/worker_posix.inc:49-53 | A handle is refused exactly if it is in the timer set; otherwise its timer is armed with the clock reading plus the timeout, and the other deadlines are as they were |
| WorkerObjects.Worker.RmTimer | src/aio/worker_posix.inc:55-58 | The handle leaves the timer set wherever it is in it; exactly its timer is no longer armed |
| WorkerObjects.Worker.TakeTasks | src/aio/worker_posix.inc:168-172 | Head and tail of the queue move to the batch with every task in order, and the signal is consumed |
| WorkerObjects.Worker.PopTask | src/aio/worker_posix.inc:174-187 | The oldest task of the batch is in hand, and its item is on no queue any more |
| WorkerObjects.Worker.PopExpired | src/aio/worker_posix.inc:148-154 | An armed handle with an earliest deadline is taken exactly if one is due; then it is in hand and no longer armed, and the other deadlines are as they were |
| Wire.RoundTrips | src/utils/wire.c:10-53 | For 16, 32 and 64 bits: what is put into a buffer is read back, and putting back what was read leaves the buffer as it was |
| Wire.WriteRead | src/utils/wire.c:10-53 | The base-256 bytes of a number, most significant first, give the number back |
| Wire.ReadWrite | src/utils/wire.c:10-53 | The bytes of the number of some bytes are those bytes |
| Wire.GetLIsNumber | src/utils/wire.c:21-25 | The shifted sum of four bytes is their base-256 number |
| Wire.GetLLIsNumber | src/utils/wire.c:35-41 | Eight bytes are two four-byte numbers |
| Wire.Halves | src/utils/wire.c:43-53 | The eight bytes of a number are those of its two halves |
| Wire.PutS | src/utils/wire.c:15-19 | Writes the two bytes of the value in network order and nothing else |
| Wire.PutL | src/utils/wire.c:27-33 | Writes the four bytes of the value in network order and nothing else |
| Wire.PutLL | src/utils/wire.c:43-53 | Writes the eight bytes of the value in network order and nothing else |
| Chunks.HeaderLeads | src/utils/chunk.c:27-56 | The header written in front of a data pointer leads back to the end of the chunk struct and leaves every other byte alone |
| Chunks.TrimOne | src/utils/chunk.c:129-148 | A trim fails exactly if it asks for more than there is, or if the offset would not fit 32 bits; otherwise the data loses its first n bytes and the pointer still leads back |
| Chunks.TrimsDrop | src/utils/chunk.c:129-163 | After any sequence of trims the header still leads back to the chunk and the data is the original with the total dropped; the sequence succeeds exactly if the total fits |
| Chunks.Chunk.constructor | src/utils/chunk.c:27-56 | A new chunk has count 1, the size asked for, and a header that leads back |
| Chunks.Chunk.GetPtr | src/utils/chunk.c:150-158 | The struct is found exactly from a tagged pointer |
| Chunks.Chunk.Trim | src/utils/chunk.c:129-148 | The trim in place, with both failing checks |
| Chunks.Chunk.Free | src/utils/chunk.c:112-125 | One reference less; the last one frees the chunk, and its pointer then fails every tag check; the data is not touched |
| Chunks.ChunkRef.constructor | src/utils/chunkref.c:15-30 | Up to 31 bytes inline, more in a chunk, of the size asked for |
| Chunks.ChunkRef.Size | src/utils/chunkref.c:97-102 | The size of the contents, in both forms |
| Chunks.OtherHolder | src/utils/chunk.c:129-158 | After a header is written for one holder, another holder of the chunk still leads back if and only if the two headers are at least eight bytes apart, in one place, or overlap in bytes that happen to agree |
| Chunks.SharedTrim | src/utils/chunk.c:129-148 | A trim by n through one of two references at the same place: the other one still leads back exactly for n = 0, for n of 8 or more, or where the new offset ends like a tag; it sees the contents it had exactly for n = 0 |
| Chunks.ChunkRef.Trim | src/utils/chunkref.c:104-118 | The inline and the heap form trim to the same contents: the old ones with n bytes dropped; what it writes in a chunk, for any other reference to find, is the trim of the chunk |
| RefCount.TermKeeps | src/utils/chunkref.c:42-51 | Dropping a reference keeps every count exact and frees its chunk if and only if nothing else holds it and no bulk copy is outstanding |
| RefCount.InitKeeps | src/utils/chunkref.c:15-30 | A new heap reference to a new chunk keeps every count exact |
| RefCount.CpKeeps | src/utils/chunkref.c:79-89 | A copy keeps every count equal to live references plus reserved copies |
| RefCount.MvKeeps | src/utils/chunkref.c:71-77 | So does a move, which changes no count |
| RefCount.BulkStartKeeps | src/utils/chunkref.c:120-129 | So does reserving copies |
| RefCount.BulkCpKeeps | src/utils/chunkref.c:131-135 | A bulk copy keeps the counts exact if and only if it was reserved (or is inline) |
| RefCount.CopyThenTerm | src/utils/chunkref.c:42-89 | Dropping a copy undoes the copy |
| RefCount.MsgTermKeeps | src/utils/msg.c:21-27 | Dropping a three-part message keeps every count exact and only adds to the freed chunks |
| RefCount.MsgMvKeeps | src/utils/msg.c:29-35 | So does moving one, which changes no count |
| RefCount.MsgCpKeeps | src/utils/msg.c:37-43 | So does copying one |
| RefCount.MsgBulkStartKeeps | src/utils/msg.c:45-51 | So does reserving copies of one |
| RefRuns.MsgBulkCpKeeps | src/utils/msg.c:53-59 | So does a reserved bulk copy of one |
| RefCount.BulkIsCopies | src/utils/msg.c:45-59 | Reserving n copies of a message and taking them leaves the same store as copying it n times, also when its parts share a chunk |
| RefRuns.RunKeeps | src/utils/msg.c:5-59 | After any run of message operations, each new part inline or in a chunk of its own, every chunk's count is its live references plus its reserved copies, and no chunk is freed twice |
| RefRuns.FreedAtLastRelease | src/utils/msg.c:21-27 | Whatever happens to a message after its creation, each of its chunks is freed, once, exactly when nothing holds it and no copy is outstanding |
| MessageMemory.Memory.Init | src/utils/chunkref.c:15-30 | A new live reference of the size asked for, inline or to a chunk of its own; the counters and references in memory are those of the operation on `RefCount.Store` |
| MessageMemory.Memory.Term | src/utils/chunkref.c:42-51 | The reference is gone, and its chunk with it exactly if it was the last; every other reference still leads to an allocated chunk and to the bytes it had; the counters and references in memory are those of the operation on `RefCount.Store` |
| MessageMemory.Memory.Cp | src/utils/chunkref.c:79-89 | The copy shows the bytes of its source, the counter in the chunk is one higher, and every other reference shows what it did; the counters and references in memory are those of the operation on `RefCount.Store` |
| MessageMemory.Memory.Mv | src/utils/chunkref.c:71-77 | The same bytes behind the new reference, the source none any more, and no counter changed; the counters and references in memory are those of the operation on `RefCount.Store` |
| MessageMemory.Memory.BulkStart | src/utils/chunkref.c:120-129 | The counter in the chunk rises by the copies reserved; the counters and references in memory are those of the operation on `RefCount.Store` |
| MessageMemory.Memory.BulkCp | src/utils/chunkref.c:131-135 | A reserved bitwise copy: no counter changes and the counting stays exact; the counters and references in memory are those of the operation on `RefCount.Store` |
| MessageMemory.Memory.Trim | src/utils/chunkref.c:104-118 | Inline or in a chunk, shared or not: the bytes behind the reference lose their first n, and references elsewhere keep theirs; it fails exactly on the two asserts; the memory stays sound exactly if n is 0 or nobody shares the chunk, and a sharer then still leads back to the chunk exactly if the headers are compatible; the counters stay exact |
| MsgMemory.Cp | src/utils/msg.c:37-43 | Copy of a message in memory: three reference operations come to the value RefCount gives for the message, the parts show the bytes they should and all other references keep theirs |
| MsgMemory.Mv | src/utils/msg.c:29-35 | Move of a message in memory: three reference operations come to the value RefCount gives for the message, the parts show the bytes they should and all other references keep theirs |
| MsgMemory.Term | src/utils/msg.c:21-27 | Drop of a message in memory: three reference operations come to the value RefCount gives for the message, the parts show the bytes they should and all other references keep theirs |
| MsgMemory.BulkStart | src/utils/msg.c:45-51 | Reservation for a message in memory: three reference operations come to the value RefCount gives for the message, the parts show the bytes they should and all other references keep theirs |
| MsgMemory.BulkCp | src/utils/msg.c:53-59 | Reserved bulk copy of a message in memory: three reference operations come to the value RefCount gives for the message, the parts show the bytes they should and all other references keep theirs |
| MessageMemory.CpIsGood | src/utils/chunkref.c:79-89 | A copy keeps this: every reference is inline or leads back to an allocated chunk, and every counter is exact; what each reference shows stays |
| MessageMemory.TermIsGood | src/utils/chunkref.c:42-51 | A drop keeps this: every reference is inline or leads back to an allocated chunk, and every counter is exact; what each reference shows stays |
| MessageMemory.MvIsGood | src/utils/chunkref.c:71-77 | A move keeps this: every reference is inline or leads back to an allocated chunk, and every counter is exact; what each reference shows stays |
| MessageMemory.BulkStartIsGood | src/utils/chunkref.c:120-129 | A reservation keeps this: every reference is inline or leads back to an allocated chunk, and every counter is exact; what each reference shows stays |
| MessageMemory.BulkCpIsGood | src/utils/chunkref.c:131-135 | A reserved bulk copy keeps this: every reference is inline or leads back to an allocated chunk, and every counter is exact; what each reference shows stays |
| MessageMemory.OnlyReference | src/utils/chunkref.c:104-118 | A chunk whose counter is 1 is led to by one reference only |
| MessageMemory.TrimIs | src/utils/chunk.c:129-148 | The same for all references of a memory at once: no counter changes, the trimmed reference shows the rest, those with other chunks show what they did, and those that share lead back and stay sound exactly in the cases above |
| MessageMemory.TrimmedBlock | src/utils/chunk.c:129-148 | What one chunk comes to: the way back from the new place, the data with n bytes dropped, and whether the way back from the old place is left |
| Ins.MetExactlyOnce | src/transports/inproc/ins.c:43-116 | After any run of bind, connect, unbind and disconnect: bound addresses are pairwise distinct; two registrations present together have had the callback exactly once if they have one address and compatible protocols, and never otherwise; no pair ever had it twice |
| Ins.RunKeeps | src/transports/inproc/ins.c:43-116 | The invariant behind it holds after any run |
| Ins.BindKeeps | src/transports/inproc/ins.c:43-78 | A bind keeps it |
| Ins.ConnectKeeps | src/transports/inproc/ins.c:80-102 | A connect keeps it, although it stops at the first bound address that matches |
| Ins.UnbindKeeps | src/transports/inproc/ins.c:111-116 | An unbind keeps it |
| Ins.DisconnectKeeps | src/transports/inproc/ins.c:104-109 | A disconnect keeps it |
| Ins.BindCallsExact | src/transports/inproc/ins.c:62-75 | A bind calls back once for each connected endpoint it meets, and for no other |
| Ins.ConnectCallsExact | src/transports/inproc/ins.c:87-100 | With distinct bound addresses a connect calls back once for each bound endpoint it meets, that is at most once |
| Ins.Registrar.Bind | src/transports/inproc/ins.c:43-78 | The two loops in place; -EADDRINUSE exactly if an item with the address is bound, and then nothing changes; otherwise the item is the last of the bound ones, and its registration is a new one, also if it was bound before |
| Ins.Registrar.Connect | src/transports/inproc/ins.c:80-102 | The search loop in place, with its break on incompatible protocols; the item is the last of the connected ones; one that was disconnected may come back |
| Ins.Registrar.Disconnect | src/transports/inproc/ins.c:104-109 | The item, and its registration, is taken out of the list of connected endpoints and the order of the others kept |
| Ins.Registrar.Unbind | src/transports/inproc/ins.c:111-116 | The same on the list of bound endpoints |
| CtxTheorems.DrainedAndDelivered | src/aio/ctx.c:26-67 | In every run of any number of threads and contexts: a context nobody is in has an empty local queue and has processed exactly what was raised in it, in the order of raising; no item is on two queues; once no delivery is under way every event sent from it was delivered exactly once. Taking an event off a batch and entering its context are two steps |
| CtxProofs.StepKeeps | src/aio/ctx.c:26-84 | Every step keeps this: one queue per item, links that tell the truth, drained free contexts |
| CtxProofs.StepKeepsOneQueue | src/aio/ctx.c:74-84 | No step puts an item on two queues |
| CtxTheorems.StepConserves | src/aio/ctx.c:50-63 | Every step keeps the multiset of sent events equal to delivered, under way and waiting ones |
| CtxTheorems.RunConserves | src/aio/ctx.c:50-63 | So does every run |
| CtxTheorems.TakeConserves | src/aio/ctx.c:53-59 | Taking an event off a batch loses none |
| CtxOrder.DeliveredInOrder | src/aio/ctx.c:50-63 | For any division of events into directions, such as from one session to the other, and each context and direction on its own: if the context, with events for that direction, is only left while no earlier batch of it carries any there, they arrive in the order they were sent, whatever happens elsewhere |
| CtxOrder.StepKeepsOrder | src/aio/ctx.c:50-63 | Each such step keeps that order |
| CtxOvertaking.OrderlyIsExact | src/aio/ctx.c:50-63 | In any state that has kept the order so far: a context is left while no earlier batch of it carries events in a direction in which more go now, if and only if no legal continuation that goes on leaving it so in that direction delivers out of order there |
| CtxOvertaking.OrderlyFromStart | src/aio/ctx.c:50-63 | In particular wherever a run from the start leads that has left the context so |
| CtxOvertaking.DisorderOvertakes | src/aio/ctx.c:50-63 | The continuation behind the other half: it delivers out of order and never leaves the context out of order again |
| CtxOvertaking.OvertakingIsFatal | src/aio/ctx.c:50-63 | From any state in which a later event of a direction is ahead of an earlier one, some continuation delivers it first |
| CtxExchange.OneThreadOvertakes | src/aio/ctx.c:26-67 | One thread and two contexts are enough: after a nested leave, an event is delivered before one that was sent earlier in the same direction |
| CtxObjects.DrainIsComplete | src/aio/ctx.c:26-44 | A drain processes everything raised before or during it once, in the order of raising, an event raised again by its own handler included, and hands over the events for others in the order of raising |
| CtxObjects.BatchHasEachOnce | src/aio/ctx.c:46-52 | What is handed over has no event twice |
| CtxObjects.DrainFaultsExactly | src/aio/ctx.c:26-44 | A drain comes to its end if and only if no handler that it reaches raises an item twice, or one that is on a queue at that moment: a foreign one, among the events still to process, or among those collected for others |
| CtxObjects.Ctx.Leave | src/aio/ctx.c:26-52 | The drain loop in place, on intrusive queues: it fails exactly at a push of an item whose link says that it is queued, here, elsewhere or in a batch under way; otherwise it gives up the mutex with an empty local queue and hands over the queue for others |
| CtxObjects.Ctx.React | src/aio/ctx.c:74-84 | A handler's raises succeed exactly if none of the items is queued anywhere and none is raised twice |
| CtxObjects.Ctx.Raise | src/aio/ctx.c:74-78 | Pushes at the back, refused exactly if the link of the item says that it is queued, on whatever queue |
| CtxObjects.Ctx.RaiseTo | src/aio/ctx.c:80-84 | The same on the queue for others |
| SockTheorems.RunIsSafe | src/core/sock.c:733-854 | In every run of careful callers, with endpoints and the protocol stopping in any order, no assert and no nn_fsm_bad_* branch of the socket is reached |
| SockProofs.StepKeeps | src/core/sock.c:733-854 | Every careful step keeps the invariant |
| SockTheorems.EverythingSeenOff | src/core/sock.c:433-795 | After any careful run every endpoint ever added is in exactly one of eps, sdeps and the freed ones; current_connections is the number of active pipes; destroy and the post of termsem happen at most once and exactly in FINI; STOPPING and FINI are entered only with both lists empty and no pipe attached |
| SockTheorems.StopIsFinal | src/core/sock.c:507-525 | From the stop on, whatever callers do, a hold is refused and the test made by send and recv fails |
| SockTheorems.StopCompletes | src/core/sock.c:733-790 | Every stop can be completed: the protocol destroyed and termsem posted once, the holders and relesem left alone |
| SockTheorems.LateAddFaults | src/core/sock.c:433-462 | An endpoint added to a stopping socket always has a continuation of careful steps into a fatal check |
| SockTheorems.CarefulIsExact | src/core/sock.c:433-462 | A step is careful (no endpoint added once stopping, only idle pipes started) if and only if no continuation of careful steps reaches a fatal check |
| SockTheorems.TermWaitsForAll | src/core/sock.c:142-171 | With balanced holders nn_sock_term gets past its two semaphores exactly when the protocol is destroyed and nobody holds the socket; that then stays so |
| SockTheorems.HoldsKeep | src/core/sock.c:948-969 | The count of holders and the posts of relesem agree in every balanced run |
| SockTheorems.OwedIsExact | src/core/sock.c:963-969 | A release, all others being balanced, leaves others to release or comes after the stop if and only if no legal balanced continuation lets nn_sock_term pass while somebody holds the socket |
| SockTheorems.EarlyReleasePasses | src/core/sock.c:963-969 | After the last release before the stop there is a legal balanced continuation with a new holder, the stop and its completion, in which nn_sock_term passes that holder |
| SockTheorems.CallsAreRefused | src/core/sock.c:515-525 | A send or recv whose turn comes after the stop, at once or after waiting, ends with -EBADF there, without another wait |
| SockProofs.AddEpKeeps | src/core/sock.c:433-462 | Adding an endpoint keeps identifiers unique |
| SockProofs.EmEpKeeps | src/core/sock.c:464-492 | Removing one keeps the invariant: every endpoint is in exactly one place |
| SockProofs.StopKeeps | src/core/sock.c:742-782 | The stop moves every endpoint and keeps the invariant |
| SockProofs.DispatchKeeps | src/core/sock.c:763-852 | So does every event |
| SockProofs.StopPipeKeeps | src/core/sock.c:657-661 | Stopping a pipe, also repeatedly or after a failed start, never takes current_connections below zero |
| SockProofs.StartPipeKeeps | src/core/sock.c:645-655 | Starting one, also if the protocol refuses it, keeps the count exact |
| SockObjects.Sock.constructor | src/core/sock.c:39-124 | The socket as init leaves it: active, held once, first identifier 1 |
| SockObjects.Sock.AddEp | src/core/sock.c:433-462 | The new endpoint is linked at the end of the intrusive list under the next identifier; the result is its identifier, or the error and nothing changes |
| SockObjects.Sock.EmEp | src/core/sock.c:464-492 | The walk along eps, the erasure and the insertion: exactly the endpoint asked for is taken out of eps, the others kept in their order, and is the last of sdeps; -EINVAL exactly if it is not in eps, and then nothing changes |
| SockObjects.Sock.Retire | src/core/sock.c:484-486 | One endpoint is erased from eps and linked at the end of sdeps; nothing else moves |
| SockObjects.Sock.Stop | src/core/sock.c:733-782 | The stop with its walk over eps in place: all of eps is behind what was in sdeps, in order; the socket waits for endpoints exactly if there are any, otherwise the protocol is asked to stop if it can, or destroyed and termsem posted; a second stop does nothing |
| SockObjects.Sock.FreeEp | src/core/sock.c:767-770 | Exactly this endpoint is taken out of sdeps, the order of the others kept, and freed; refused exactly if it is in no list |
| SockObjects.Sock.EpsGone | src/core/sock.c:771-782 | The part behind finish2: with both lists empty the protocol is asked to stop if it can, otherwise destroyed and termsem posted |
| SockObjects.Sock.Feed | src/core/sock.c:733-854 | Handler and shutdown in place, failing exactly where the value does |
| SockObjects.Sock.StartPipe | src/core/pipe.c:51-68 | Only an idle pipe starts: active with its event raised and counted, or failed and not counted if the protocol refuses it |
| SockObjects.Sock.StopPipe | src/core/pipe.c:70-76 | The pipe is idle afterwards, and the count one less exactly if it was active; the other pipes are as they were |
| Deadlines.EveryWaitMeetsDeadline | src/core/sock.c:494-567 | With a monotone clock and a non-negative timeout, however the option changes meanwhile, every wait is requested to end exactly at the deadline fixed on entry, counted from the clock reading before it; it ends no later than the deadline if and only if it begins at that reading and in time |
| Deadlines.WaitsRunToDeadline | src/core/sock.c:559-565 | The same from any turn of the loop on |
| Deadlines.CastIsExact | src/core/sock.c:559-562 | The cast of the remaining time loses nothing if and only if less than 2^31 ms are left |
| Deadlines.NeverEarly | src/core/sock.c:546-549 | -ETIMEDOUT is never returned before the deadline |
| Deadlines.OverrunIsExact | src/core/sock.c:546-565 | The i-th wait overruns the deadline if and only if time has passed since the last clock reading made with the timeout option on, or the deadline had passed by that reading |
| Deadlines.WaitsAreTimedFrom | src/core/sock.c:559-565 | The i-th wait belongs to the i-th turn and is computed from the last reading made with the option on |
| Deadlines.TimeoutIs | src/core/sock.c:559-562 | The timeout of the i-th wait is the cut remaining time at that reading, or the one fixed on entry if the option has been off since |
| Deadlines.SwitchedOnLate | src/core/sock.c:494-565 | A call entered with the option off: it waits without limit until the option is switched on; then each timeout is minus one minus the low half of the last clock reading, again without limit, while bit 31 of that reading is clear, and otherwise a bounded wait that has nothing to do with the option |
| Deadlines.Attempt | src/core/sock.c:569-643 | The loop of recv (and send) in place: result, waits and flag are those of its value, and end as LoopEnds says |
| Deadlines.LoopEnds | src/core/sock.c:507-567 | The turns before the one that ends the call all find the socket usable, the protocol not ready, a wait allowed and ended by a signal. That one ends it with -EBADF exactly if the socket is not usable, with success exactly if the protocol is done, with the protocol's error exactly if it has one, with -EAGAIN exactly if it is not ready and must not wait, and with -ETIMEDOUT, -EINTR or -EBADF after a wait exactly if the wait ended so; there was one wait for each turn that waited, and the flag is set exactly if it was or one of the earlier turns was signalled |

## Left out

- src/nn.c, src/core/global.c, src/core/symbol.c, src/aio/usock_*.inc: stubs that return constants.
- Protocols and transports of which only headers exist: nothing to model.
- src/transports/inproc/cinproc.c and binproc.c: read only for how sessions are created and owned.
- Option switches and error strings: single-branch facts.
- nn_chunk_realloc: growing in place returns the old pointer and copying ignores trimming, so no clean contract fits; nn_chunkref_getchunk and nn_msg_replace_body add nothing to the counting.
- The overflow of a 32-bit reference count, of `size_t` sums of message sizes, and of the `int` counters of the socket: taken as unreachable.
- Failing allocations: nn_sock_add_ep, for one, returns -ENOMEM without leaving its context.
- epoll, kqueue and Windows pollers, descriptors, semaphores, threads and the clock itself: system calls; a descriptor is a signal bit.
- nn_sock_onleae: the flags and signals of the two descriptors follow the protocol's mask; only their use in the blocking loops is modelled.
- nn_hash_term, nn_poller_term, nn_list_term and nn_timerset_term: the checks that a structure is empty.
- nn_worker_cancel and the stop item of a worker: the worker is modelled while it runs.
- SessionTheorems.RunIsSafe: the order in which events arrive is part of being careful, because the contexts do not provide it; taking an event off its queue and processing it is one step here and two in `SessionHolding`.
- Sinprocs.Sinproc.RaiseOwn: that event_disconnect waits in the queue of the owner is a flag of the session; the queue as such is the subject of `Ctx` and `CtxObject`.
- TimerObjects.Timer.Raise: the queue of the owner is the sequence of what this timer raised to it.
- SockObjects.Sock.StopPipe: as for StartPipe below.
- MsgQueues.Chunk: its 126 cells are one sequence field, and freed chunks are tracked by the set of allocated ones.
- Hashes.Hash.Insert: the items of a slot are a sequence; the linked list under it is the subject of `List`.
- TimerSets.TimerSet.Add: the clock reading is a parameter; a handle is the link of its deadline, so that two handles never share one.
- TimerProofs.RunIsSafe: a step that reads the clock carries the reading, and readings need not be monotone; of several timers with the same deadline any may be handed out first, and in which order is the subject of `TimerSet`.
- SockObjects.Sock.StartPipe: the pipes of a socket are a map of states; the pipe as an object is `Pipebase`.
- Ins.MetExactlyOnce: addresses compare as whole strings; the limit of 128 characters at src/core/ep.c:38 makes that the same as the bounded comparison. Compatibility is any symmetric relation.
- CtxObjects.Ctx.Leave: the part under the mutex; what happens to the events handed over is the subject of `Ctx` and its theorems.
- WorkerObjects.Worker.PopTask: what the thread has in hand is a field, so that other steps can be seen in between.
- SockObjects.Sock.FreeEp: the endpoint comes with the event and is in eps no more, as it was told to stop before it reports.
- Deadlines.Attempt: send and recv are one loop on two sets of fields; the message itself and the unsupported direction are left to the protocol.
- RefRuns.RunKeeps: trims are not among the operations of a run, as they change no count.
