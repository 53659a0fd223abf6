# BeetOS kernel, runtime and shell: a Dafny model

BeetOS is a Xous-based microkernel with a small async runtime and a shell in user space.  This project
models the parts of it whose correctness is hardest to see, and proves what they promise.

* **Inter-process communication.**  `ServerQueue` and `Fifo` are the message queue of one server: a fixed
  array of slots stamped with 8-bit generations.  `Requests` follows one message through its slot until it
  is answered.  `Servers` is the same queue updated in place.
  `KernelState` and `KernelSteps` are the kernel tables and the system calls as functions on one value;
  each call is one atomic step.  `KernelInv` says what holds between any two calls.  `KernelSched`,
  `KernelWakes`, `KernelIpc`, `KernelMessages`, `KernelActivate`, `KernelCalls`, `KernelTables`,
  `KernelDestroy` and `KernelExit` prove that every call keeps it.  `KernelRuns` puts the calls together
  into runs from start-up; `KernelTheorems`, `KernelEffects` and `KernelEndings` say what follows.
  `KernelOutcomes`, `KernelSends`, `KernelReplies`, `KernelOpenings` and `KernelClosings` say of each call
  what it has done to every thread, queue and table, errors included, in terms of the state before it and
  not of the functions that compute it; `KernelClients` follows an answer over runs until its client has it.
  `KernelFrames` and `KernelNames` say what any step, from any state, leaves alone, and
  `KernelConnections` and `KernelPlaces` follow one table and one ready thread over runs.  `KernelDerail`,
  `KernelMissed` and `KernelCrowd` are runs from start-up in which a promise fails.
  `Services` is the kernel as an object whose methods change its tables in place, with loops where the
  source has them, on top of the linked lists of `Scheduling`; each method is proved to do what the
  function of the same step does.
* **Scheduler.**  `Rings` is one sequence of ready threads per priority, `Links` the circular doubly linked
  lists that represent them, `Scheduling` the in-place operations, `Fairness` the bounded bypass.
* **Page allocator.**  `Memory`: owner table, dirty and zeroed bitmaps, the zeroer's two steps, the free
  counter and the low-memory flag with its hysteresis.
* **Connections.**  `Connections`: reference-counted slots over time.  Servers, connections and waiting
  threads carry a birth stamp, `born`, that no operation reads; it tells the incarnations of a reused
  server index apart.
* **Message permissions.**  `Permissions`.
* **Async runtime.**  `Reactors` and `ReactorInner`: server slots, timers, wakers.  `Executors`: the polling loop.
* **Shell.**  `Paths`: the path resolver.

## How the results are stated

A kernel state is `Sound` if all invariants of `KernelInv` hold and the running thread is ready and has no
unfinished call.  `Reachable` states are those that a run from `Boot` leads to, through any sequence of
calls, interrupts and thread returns that `Enabled` allows and of which none `Derails`.  `Enabled` lists
what the rest of the system guarantees (the idle thread does not park, a queue page holds 1 to 255 slots,
interrupts do not nest), and leaves out one thing that it does not: a new thread must have a free place in
the thread table (see below).  Table sizes are symbolic; a process has at most 64 threads, because a server
records parked threads in a 64-bit word.

An event `Derails` if it takes the running thread off the processor (`Leaving` is the kernel at that point)
while the first thread that need not wait is a receiver whose server has been closed.  Both can be read off
the state before the call.  From every sound state every event keeps all invariants, and it leaves a sound
state exactly if it does not derail (`StepKeeps`).  A run that closes servers only while no thread is parked
on them never derails (`OrderlyIsSound`); runs that close other servers are covered as well, up to an event
that derails.

Servers keep two histories that no operation reads, the bodies accepted and the bodies handed out so far.

The code falls short of what one might expect in these places.  Each is kept as it is, shown, and bounded:

* No two slots may name the same thread, or a reply would reach a thread that no longer waits for it.  The
  code breaks this: `TwoSlotsNameOneThread` is a run from start-up in which a server is closed while a
  thread is parked on it.  The next blocking send queues its message, fails with `ServerNotFound`, and
  leaves its sender suspended, named by a slot, and still running; when the sender tries again, two slots
  name it.  The law holds in every reachable state (`SlotsNameWaitingClients`).  From any state with the
  invariants, whichever thread runs, a step breaks it exactly if it is an accepted blocking send of a
  thread that a slot already names (`SharedNameExactly`).
* Closing a server leaves the threads parked on it waiting for a server that is gone: `DestroyServerKeeps`
  shows that this happens exactly when a thread is parked there, `ActivateLands` when it matters.
* A client that waits for a reply when its server is destroyed is made ready, but its call is never finished
  as long as its process lives (`ClientsAreStranded`, `ClientsStayStranded`).
* The scan for senders that wait for room leaves out the last thread of every process
  (`LastThreadIsMissed`: exactly that thread goes on waiting).  `WaitsAtRoom` is a run from start-up after
  which such a thread waits at a queue with room.
* Not every thread that waits for a process to end is told.  The kernel tells the first 64 of them, by
  process and thread number: a waiter is told exactly if fewer than 64 come before it (`ExitTellsWaiters`).
  Any other goes on waiting for a process that is gone (`UntoldIsAbandoned`), as long as the number of that
  process is not used again (`AbandonedForever`).  `SixtyFifthIsAbandoned` is a run from start-up that
  leads there.
* Register contexts are numbered from 1 and the thread table from 0, so that the last context has no place
  in the table.  A free context is always found, and it has a place exactly if one of the table's own
  entries is free (`NewThreadFits`); otherwise the source indexes past the end of the table.
* The generation assertion of a queue fails exactly when 255 messages are pending (`AssertionTrips`).  A
  16 KiB page holds 256 slots, and there it does fail: `AssertionTripsAt256` fills such a page with 255
  messages and finds room for another.  The order theorems need the bound of 255 slots.
* At start-up from a bootstrap table, pages beyond the scanned range are in no pool: the tables are sound
  exactly if all of those have an owner (`ScanIsSound`).
* With two slots for the same server, each task receives only part of the stream (`SecondSlotSplits`).  As
  long as a slot stays and nobody else registers its server, its stream is complete in every continuation
  exactly if it is complete now and no other live slot has that server (`CompleteIffAlone`).

## Model

| member | source | states |
|---|---|---|
| Links.RepresentsAppend | xous/kernel/src/scheduler.rs:126-148 | linking a new thread between the last one and the head of its circle represents the sequence with the thread at its tail, and no other circle changes |
| Links.RepresentsRemove | xous/kernel/src/scheduler.rs:159-188 | taking a thread out of its circle, wherever it sits, and joining its neighbours represents the sequence without it |
| Links.RepresentsRotate | xous/kernel/src/scheduler.rs:192-199 | moving the head to its successor represents the rotated sequence; the links do not change |
| Scheduling.Scheduler.constructor | xous/kernel/src/scheduler.rs:62-72 | an empty link table represents sixteen empty sequences |
| Scheduling.Scheduler.ReadyThread | xous/kernel/src/scheduler.rs:110-150 | a thread becomes the last of its priority; an interrupt thread only raises the flag; the link table stays a set of disjoint circles, the cached priority the highest non-empty one, and none of the panics is reached |
| Scheduling.Scheduler.ParkThread | xous/kernel/src/scheduler.rs:152-189 | the thread leaves its sequence wherever it sits and the others keep their order; head and cached priority are right again |
| Scheduling.Scheduler.YieldThread | xous/kernel/src/scheduler.rs:192-200 | the head goes to the tail; a thread that is not the head changes nothing |
| Scheduling.Scheduler.HighestHead | xous/kernel/src/scheduler.rs:163-168 | the search below a priority finds the highest non-empty queue, 0 if there is none |
| Fairness.DistanceStep | xous/kernel/src/scheduler.rs:127-148 | arrivals and departures of others never move a thread away from the head, and every yield of the head moves it one closer |
| Fairness.BoundedBypass | xous/kernel/src/scheduler.rs:170-200 | over every run of one ring, the yields of heads plus the remaining distance do not exceed the distance at the start: at most n - 1 yields pass before a thread of a ring of n is head |
| Fifo.QueueMessageFifo | xous/kernel/src/server.rs:764-827 | queueing appends to the delivery order with the message's own body; an error changes neither order nor slots; the generation assertion holds whenever at most 254 messages are pending |
| Fifo.TakeNextFifo | xous/kernel/src/server.rs:560-731 | receiving returns the front of the delivery order and removes it; it finds nothing iff nothing is pending, across generation wrap-around |
| Fifo.TakeWaitingFifo | xous/kernel/src/server.rs:502-549 | answering empties exactly the answered slot, adds one to the count of empty slots and never disturbs the delivery order |
| Fifo.QueueResponseFifo | xous/kernel/src/server.rs:830-856 | remembering a handed-over message takes an empty slot that is not pending and leaves the delivery order alone |
| Fifo.DiscardFifo | xous/kernel/src/server.rs:435-496 | discarding a dead process keeps the count of empty slots and every message's place in the order, and afterwards no slot names a thread of that process |
| Fifo.EmptySlotFound | xous/kernel/src/server.rs:746-757 | a slot is found iff the count of empty slots is not 0, and it is empty |
| Fifo.NewQueueOk | xous/kernel/src/server.rs:320-348 | the zeroed page satisfies the queue invariant, whatever its size |
| Fifo.GenerationsSuffice | xous/kernel/src/server.rs:820-826 | a queue of at most 255 slots with an empty one has at most 254 pending messages, so the next generation is free |
| Fifo.AssertionTrips | xous/kernel/src/server.rs:823-824 | for queues of any length the assertion fails exactly when 255 messages are pending |
| Fifo.AssertionTripsAt256 | xous/kernel/src/server.rs:746-827 | a page of 256 or more slots reaches 255 pending messages with a slot to spare; the next message is accepted, the generations are equal and the server finds nothing to receive |
| Fifo.StepOrder | xous/kernel/src/server.rs:435-856 | each operation takes from the front of the backlog what it receives and appends what it queues |
| Fifo.DeliveryOrder | xous/kernel/src/server.rs:435-856 | over every run of operations: what was received, followed by what still waits, is what waited at the start followed by what was queued, in that order |
| Requests.QueuedOwes | xous/kernel/src/server.rs:764-827 | a message is refused iff no slot is empty, its memory has no address or size, or lent memory comes without the lender's address, each with its own error; an accepted one is in one slot that was empty, with its body, its sender and what it waits for |
| Requests.HandedOwes | xous/kernel/src/server.rs:830-856 | the same for the slot of a message that is handed over at once |
| Requests.DebtStays | xous/kernel/src/server.rs:435-856 | over every run of operations a request stays in its slot, owed to the same thread for the same memory, until it is answered; if the sender's process dies only the server's side is left |
| Requests.ReceivedInTurn | xous/kernel/src/server.rs:560-731 | over every run a blocking message has been received iff more messages were fetched than were ahead of it |
| Requests.RequestIsAnswered | xous/kernel/src/server.rs:435-856 | queue, then any operations, then answer: before its turn an answer has no effect; after it, the answer names the sender and the address it lent from, fails iff the buffer is not the one the server was given, and after the sender's death names only the memory to forget |
| Servers.Server.constructor | xous/kernel/src/server.rs:302-348 | a new server on a page of any size is the empty queue of that many slots |
| Servers.Server.IsQueueFull | xous/kernel/src/server.rs:430-430 | the queue is reported full iff no slot is empty |
| Servers.Server.FindEmptySlot | xous/kernel/src/server.rs:746-757 | the two-part search from the hint does what the queue function says, in place |
| Servers.Server.QueueMessage | xous/kernel/src/server.rs:764-827 | given a free generation, which a queue of at most 255 slots always has, the in-place operation computes the queue function for which the order is proved, and the assertion holds |
| Servers.Server.QueueResponse | xous/kernel/src/server.rs:830-856 | the in-place operation computes the queue function |
| Servers.Server.TakeNextMessage | xous/kernel/src/server.rs:560-731 | the in-place operation computes the queue function |
| Servers.Server.TakeWaitingMessage | xous/kernel/src/server.rs:502-549 | the in-place operation computes the queue function |
| Servers.Server.DiscardMessagesForPid | xous/kernel/src/server.rs:435-496 | the in-place loop computes the queue function |
| Servers.Server.TakeAvailableThread | xous/kernel/src/server.rs:861-889 | the lowest parked thread is taken out of the mask; nothing iff no thread is parked |
| Servers.Server.ParkThread | xous/kernel/src/server.rs:899-904 | the thread is added to the mask and nothing else changes |
| Permissions.MessagePermissions.Add | xous/kernel/src/server.rs:250-280 | the in-place loops compute the permission function: mask, merging, first free slot, and both errors |
| Permissions.AddExact | xous/kernel/src/server.rs:250-292 | one add grants the ids of its range, or only those below 64 if there was no room, and nothing else |
| Permissions.AddFailsExactly | xous/kernel/src/server.rs:250-280 | an add is refused iff its range is empty, or goes beyond the mask and finds neither a slot that it touches nor an unused one; in the first case nothing changes, in the second the ranges do not |
| Permissions.FourFit | xous/kernel/src/server.rs:262-279 | whatever they are, the first four ranges added to a fresh record are never refused for want of room |
| Permissions.PermittedExactly | xous/kernel/src/server.rs:250-292 | after any history of non-empty adds an id is permitted iff some add covered it and succeeded, or covered it and it is below 64 |
| KernelSched.SetStateBase | xous/kernel/src/process.rs:204-213 | every state change keeps ready threads and links coupled: linked iff ready, once, in the ring of the priority; the interrupt flag is up iff an interrupt thread is ready |
| KernelSched.SetPriorityBase | xous/kernel/src/process.rs:216-226 | a priority change moves a ready thread to the ring of its new priority and keeps the coupling |
| KernelWakes.WakeRetryExact | xous/kernel/src/process.rs:410-423 | waking the senders that wait for room makes ready exactly the scanned ones, in every process, and changes nothing else |
| KernelWakes.PostBitsQuiet | xous/kernel/src/process.rs:395-408 | posting bits only makes a waiting thread ready; no call is finished and no connection changes |
| KernelMessages.SetQueueWakingRetry | xous/kernel/src/syscall.rs:263-267 | after a full queue has gained room no scanned sender still waits for room there |
| KernelMessages.TakeMessageOk | xous/kernel/src/kfuture.rs:162-190 | taking the next message keeps the invariants, and finds none iff the generations are equal |
| KernelMessages.TakeReplyOk | xous/kernel/src/syscall.rs:249-321 | an answer is for the thread the slot names, which waits for it; its slot is used up and no other slot names it |
| KernelMessages.WakeResultOk | xous/kernel/src/syscall.rs:44-67 | delivering a result to a suspended thread keeps the invariants, and disturbs nobody who waits for a reply unless it is one |
| KernelMessages.HandOverOk | xous/kernel/src/syscall.rs:204-231 | giving a message to a parked thread takes it off the server and keeps the invariants |
| KernelMessages.EnqueueOk | xous/kernel/src/syscall.rs:233-244 | queueing a blocking message leaves its sender named by a slot of that server, and by no other |
| KernelMessages.SendInnerOk | xous/kernel/src/syscall.rs:119-247 | sending keeps all invariants; an accepted blocking sender ends up named by a slot of that server and by no other, and by none if the send fails |
| KernelActivate.SkipDecreases | xous/kernel/src/scheduler.rs:227-263 | every thread that activation skips leaves one ready thread less: the loop terminates |
| KernelActivate.SettleOk | xous/kernel/src/scheduler.rs:227-263 | all skipped threads are parked again with their own future's mask, nothing else changes, and then the head of the highest ring need not wait |
| KernelActivate.ActivateOk | xous/kernel/src/scheduler.rs:209-292 | activation keeps the invariants; it runs the head of the highest non-empty ring without unfinished future, with the answer to its call and everybody else left alone; it fails, with `ServerNotFound`, only if that head's server is gone, and finds nobody only if nobody is ready |
| KernelActivate.ActivateRunsFirst | xous/kernel/src/scheduler.rs:209-292 | the thread that runs is the first, by priority and place, that need not wait: one whose call is finished, whose mailbox is filled or whose server has a message; it goes on with exactly that mail, emptied from the mailbox, or with the oldest message, its slot and its sender, and the slot then owes the answer; all ready threads before it are parked with the event that ends their wait |
| KernelActivate.ActivateThread | xous/kernel/src/scheduler.rs:209-292 | what activation can do to any one thread: nothing, ready if it waited for room, parked again if it must wait, run with the answer to its call, or its call taken away because its server is gone |
| KernelActivate.NeverDrained | xous/kernel/src/scheduler.rs:231-235 | with the idle thread ready somebody is always found |
| KernelActivate.NeverFails | xous/kernel/src/scheduler.rs:243-246 | while every receiver has its server, activation does not fail |
| KernelActivate.ActivateLands | xous/kernel/src/scheduler.rs:209-292 | a sound running thread is followed by a sound one; a thread that has left the processor stops running iff the first thread that need not wait is not a receiver whose server is gone |
| KernelActivate.PollDoneOk | xous/kernel/src/kfuture.rs:137-205 | a poll that does not have to wait takes future and mail off its thread and keeps the invariants; it is an error, `ServerNotFound`, iff the server is gone; otherwise a ready thread goes on with its mail or the oldest message and nobody else is touched but senders that waited for room |
| KernelCalls.SendKeeps | xous/kernel/src/syscall.rs:83-117 | a send keeps the invariants; exactly the sender of an accepted blocking message may now wait for a reply, and the kernel is sound afterwards iff choosing the next thread does not meet a receiver without its server |
| KernelCalls.SendInnerErrors | xous/kernel/src/syscall.rs:119-247 | a message is refused only because the queue is full, its pages could not be mapped, or its addresses make no sense, in that order |
| KernelCalls.SendFull | xous/kernel/src/syscall.rs:126-128 | a send is reported as meeting a full queue only if the queue is full, and then nothing has changed |
| KernelCalls.SendRetryingKeeps | xous/kernel/src/syscall.rs:732-745 | a sender that met a full queue waits at that queue, which is still full, and nothing else has happened; otherwise the call is the plain send |
| KernelCalls.ReceiveKeeps | xous/kernel/src/syscall.rs:339-383 | a receive keeps the invariants; a receiver parks only at a server with nothing pending; the kernel is sound afterwards iff choosing the next thread does not meet a receiver without its server |
| KernelTables.CreateServerKeeps | xous/kernel/src/services.rs:892-926 | a new server gets the first free index, belongs to the caller, has an empty backlog and nobody parked, and is referred to by no thread, slot or connection, whatever its index was used for before |
| KernelTables.ConnectKeeps | xous/kernel/src/services.rs:948-956 | a process has one connection per server and it leads to the present incarnation |
| KernelTables.CreateThreadKeeps | xous/kernel/src/services.rs:807-817 | a new thread is ready, without an unfinished call, and linked at its parent's priority; no other thread changes |
| KernelTables.CreateProcessKeeps | xous/kernel/src/services.rs:400-422 | a new process gets the first free number, is a child of the caller and has one ready thread linked at the default priority, clean free threads and free connections; no other thread changes |
| KernelTables.WaitForKeeps | xous/kernel/src/syscall.rs:942-959 | waiting for a process keeps the invariants; if the caller parks, the kernel is sound afterwards iff the first thread that need not wait still has its server |
| KernelTables.JoinKeeps | xous/kernel/src/services.rs:858-878 | joining keeps the invariants; if the caller parks, the kernel is sound afterwards iff the first thread that need not wait still has its server |
| KernelTables.ThreadExitedKeeps | xous/kernel/src/services.rs:824-854 | a thread that exits is free and unlinked afterwards and keeps nothing for the next thread with its index; interrupt mode is over |
| KernelTables.FutexWaitKeeps | xous/kernel/src/syscall.rs:570-591 | waiting on a futex keeps the invariants; if the caller parks, the kernel is sound afterwards iff the first thread that need not wait still has its server |
| KernelTables.AwaitEventKeeps | xous/kernel/src/syscall.rs:962-984 | waiting for an event keeps the invariants; if the caller parks, the kernel is sound afterwards iff the first thread that need not wait still has its server |
| KernelTables.EnterIrqKeeps | xous/kernel/src/scheduler.rs:112-116 | the interrupt thread is ready and runs in interrupt mode; the rings and all other threads are unchanged |
| KernelDestroy.SendEventOk | xous/kernel/src/services.rs:1168-1176 | an event message keeps the invariants and adds no name to any slot |
| KernelDestroy.DestroyOk | xous/kernel/src/services.rs:1152-1166 | destroying a server keeps the invariants for everything else; the threads parked on it are left waiting for it |
| KernelDestroy.DestroyServerKeeps | xous/kernel/src/services.rs:941-945 | from every sound state the end of a server keeps all invariants and a sound running thread; if every receiver had its server, they still have iff no thread was parked on the destroyed one |
| KernelExit.DiscardOk | xous/kernel/src/services.rs:1076-1082 | another process' server forgets who sent the messages of the dead one |
| KernelExit.TerminateKeeps | xous/kernel/src/services.rs:1046-1150 | the end of a process keeps all invariants, leaves a sound running thread and takes exactly that process out of the table |
| KernelExit.TerminateOtherKeeps | xous/kernel/src/services.rs:1190-1202 | ending another process keeps the invariants |
| KernelRuns.StepKeeps | xous/kernel/src/syscall.rs:505-1004 | from every sound state every event keeps all invariants, and leaves a sound state iff it does not take the running thread off the processor while the first thread that need not wait has lost its server; only the sender of an accepted blocking message starts to wait; stranded threads, and those that wait for a process that is gone, stay so and histories only grow; while every receiver has its server no event derails, and they keep them iff no server is closed on which a thread is parked |
| KernelRuns.LeavingChooses | xous/kernel/src/scheduler.rs:209-292 | a call that takes its caller off the processor has made it unready, and all that remains is to choose the next thread |
| KernelRuns.OrderlyIsSound | xous/kernel/src/services.rs:941-945 | a run that closes servers only while no thread is parked on them never derails |
| KernelRuns.BootGood | xous/kernel/src/services.rs:302-322 | the kernel is sound after start-up |
| KernelRuns.ReachableSound | xous/kernel/src/syscall.rs:505-1004 | all invariants hold in every state that any run reaches, the closing of servers with parked threads included |
| KernelTheorems.SlotsNameWaitingClients | xous/kernel/src/syscall.rs:83-117 | in every reachable state no two slots of any servers name the same thread, and each named thread is live, suspended in a blocking call and has an empty mailbox |
| KernelTheorems.ReplyEndsWait | xous/kernel/src/syscall.rs:249-336 | a reply goes to a thread that waits for one and ends its wait |
| KernelTheorems.RepliesBalance | xous/kernel/src/syscall.rs:83-336 | over any run, replies delivered to a thread plus its present wait do not exceed its accepted blocking messages plus its wait at the start |
| KernelTheorems.AtMostOneReplyPerSend | xous/kernel/src/syscall.rs:83-336 | over every run from start-up a thread gets at most one reply per blocking message of its that was accepted |
| KernelTheorems.StrandedForever | xous/kernel/src/kfuture.rs:193-205 | a thread that waits for a reply and is named by no slot stays so over every run during which its process lives |
| KernelTheorems.AbandonedForever | xous/kernel/src/services.rs:1097-1135 | a thread that waits for a process that is gone goes on waiting over every run during which its own process lives and no process gets that number |
| KernelTheorems.NewThreadFits | xous/kernel/src/arch/aarch64/process.rs:299-308 | a free register context is always found; the thread table has a place for it iff an entry other than the interrupt thread's is free, and otherwise it is the one context without a place |
| KernelTheorems.DeliveredInOrder | xous/kernel/src/syscall.rs:119-383 | over every run during which a server stands: what it was given by receive, polled future and direct hand-over, followed by what waits, is what waited at the start followed by what was accepted, in that order |
| KernelTheorems.SendFindsItsServer | xous/kernel/src/syscall.rs:85-90 | a connected slot leads to a present server, the incarnation it was opened to: the unwrap in the send path never fails |
| KernelTheorems.HandedOverOrQueued | xous/kernel/src/syscall.rs:200-247 | a sent message either goes to the lowest parked thread, when nothing is pending, or becomes the last pending one; never both; it arrives as it was sent, memory at the address it was mapped to with size, offset and valid unchanged; the slot remembers the sender and, for lent memory, the address at the sender; the server's process is notified; the histories record it |
| KernelTheorems.LinkedIffReady | xous/kernel/src/process.rs:172-226 | in every reachable state a thread is linked iff it is ready, once, in the ring of its priority; the interrupt flag is up iff an interrupt thread is ready |
| KernelTheorems.WaitsOnlyWhileFull | xous/kernel/src/process.rs:410-423 | in every reachable state a sender in the scanned range that waits for room waits at a queue without an empty slot |
| KernelTheorems.LastThreadIsMissed | xous/kernel/src/process.rs:414-414 | when a full queue gains room a waiting sender goes on waiting iff it is the last thread of its process |
| KernelTheorems.ReceiversHaveNothingPending | xous/kernel/src/syscall.rs:339-383 | in every reachable state a thread is marked as parked iff it holds the future for that server, and then nothing is pending there |
| KernelDerail.TwoSlotsNameOneThread | xous/kernel/src/syscall.rs:83-117 | a run from start-up that does not derail, then a blocking send that does: it fails although its message is queued, and leaves its sender suspended, named by a slot and running; a second send makes two slots name that thread |
| KernelMissed.WaitsAtRoom | xous/kernel/src/process.rs:410-423 | a run from start-up that does not derail leads to the last thread of a process waiting at a full queue; a message is received, the queue has room, and the thread still waits |
| KernelCrowd.SixtyFifthIsAbandoned | xous/kernel/src/services.rs:1097-1113 | a run from start-up that does not derail leads to 65 threads waiting for one process; it ends, and the last of them still waits for it |
| KernelNames.StepFrame | xous/kernel/src/syscall.rs:505-1004 | from any state at all: a step adds a name to a slot iff it is an accepted blocking send, and then one, that of the running thread; every connection table goes through the events of the step and nothing else |
| KernelNames.SharedNameExactly | xous/kernel/src/syscall.rs:83-117 | from any state with the invariants, whatever thread runs: two slots name one thread after a step iff the step is an accepted blocking send of a thread that a slot already names |
| KernelConnections.TableOverRun | xous/kernel/src/process.rs:425-469 | over every run of the kernel the table of a process that lives throughout changes only by its own connects and disconnects, connects on its behalf and the end of servers |
| KernelConnections.CidKeptOverRun | xous/kernel/src/process.rs:425-469 | over every run of the kernel, a connection id that is closed fewer times than it has references stands for the same server, or its tombstone |
| KernelConnections.ReferencesOverRun | xous/kernel/src/process.rs:438-455 | over every run of the kernel, the references of a slot are those at the start plus one per connect less one per disconnect |
| KernelPlaces.PlaceStep | xous/kernel/src/scheduler.rs:110-292 | no step moves a ready thread that is not running back in its ring, and a yield of the head moves it up one place |
| KernelPlaces.BypassOverRun | xous/kernel/src/scheduler.rs:110-292 | over every run of the kernel during which a thread is ready and not running, the heads of its ring yield at most as often as there were threads ahead of it, and after that many yields it is the head |
| KernelEffects.WakeAllDelivers | xous/kernel/src/syscall.rs:44-67 | exactly the listed threads get the result in their mailbox and become ready; no other thread changes |
| KernelEffects.FutexWakesFirst | xous/kernel/src/syscall.rs:593-614 | a futex wake reaches the first waiters on that address, as many as asked for |
| KernelEffects.JoinersAreTold | xous/kernel/src/services.rs:839-851 | the exit value reaches exactly the threads that wait for that thread |
| KernelEffects.AnswerReaches | xous/kernel/src/syscall.rs:262-312 | the value of an answer is in the mailbox of the thread that the slot named, and the slot is empty |
| KernelEffects.ReceiveTakesOldest | xous/kernel/src/syscall.rs:339-368 | a receive returns the oldest pending message of the caller's own server and leaves the others; without one it says so, or the caller is parked on that server with its bit set |
| KernelEffects.PollTakesOldest | xous/kernel/src/kfuture.rs:162-190 | a poll for a parked receiver takes the oldest pending message, waits iff there is none, and fails iff the server is gone |
| KernelEffects.DeniedExactly | xous/kernel/src/syscall.rs:84-100 | access is denied iff the connection leads to another process' server and does not allow the id, and then nothing has changed, or mapping the pages was denied |
| KernelEffects.PostWakesFirst | xous/kernel/src/process.rs:395-408 | posting wakes the lowest thread that waits for one of the pending bits, which alone consumes them; without one the bits stay |
| KernelOutcomes.JoinOutcome | xous/kernel/src/services.rs:858-878 | joining parks the caller with the future for that thread; itself is refused, a thread that is not there has ended; nobody else is affected but by the choice of the next thread |
| KernelOutcomes.WaitOutcome | xous/kernel/src/syscall.rs:942-959 | waiting for a process parks the caller with the future for it, or returns at once if it is not there |
| KernelOutcomes.FutexWaitOutcome | xous/kernel/src/syscall.rs:570-591 | the caller is parked with the future for the address iff the word has not changed, and otherwise told to try again |
| KernelOutcomes.FutexWakeOutcome | xous/kernel/src/syscall.rs:593-614 | exactly the first waiters of the caller's process on that address, as many as asked for, get mail and are ready; no other thread changes and the caller goes on |
| KernelOutcomes.EventOutcome | xous/kernel/src/syscall.rs:962-984 | events that have fired are returned and taken off the process; if none has, the caller waits for exactly the events it asked for; an empty mask is refused |
| KernelOutcomes.NotifyOutcome | xous/kernel/src/syscall.rs:987-1004 | bits are posted to the caller's own process only, and wake the first thread that waits for one |
| KernelOutcomes.YieldOutcome | xous/kernel/src/syscall.rs:615-622 | giving up the processor changes nothing of the caller but its result |
| KernelOutcomes.PriorityOutcome | xous/kernel/src/syscall.rs:623-633 | the caller has the priority it asked for and is in that ring; 0 is refused and changes nothing |
| KernelOutcomes.RegisterOutcome | xous/kernel/src/process.rs:313-324 | a handler is entered for its event and for no other, in the caller's process only; a second one is refused |
| KernelOutcomes.ReturnOutcome | xous/kernel/src/services.rs:824-854 | the value of a thread that returns reaches exactly the threads that join it; the thread is free and keeps nothing; all others are left as the choice of the next thread leaves them |
| KernelSends.RefusedExactly | xous/kernel/src/syscall.rs:119-247 | exactly when and with which error a server does not take a message, and then nothing has changed but the search hint |
| KernelSends.TrySendStep | xous/kernel/src/syscall.rs:83-117 | all outcomes of a send: no such connection, not permitted, refused, or on its way; then the caller waits for the answer if the message blocks and goes on otherwise, and the next thread is chosen |
| KernelSends.PatientSendStep | xous/kernel/src/syscall.rs:732-745 | a caller that finds the queue full waits for room at that queue and nothing else has happened; otherwise the send is the plain one |
| KernelSends.ReceiveStep | xous/kernel/src/syscall.rs:339-383 | a receive on the caller's own server returns the oldest message with its slot and sender, the slot then owes the answer, and no other server changes; without a message it says so or parks the caller on the server |
| KernelReplies.ScalarAnswerArrives | xous/kernel/src/syscall.rs:296-336 | an answer to a blocking scalar puts its value, and no other, into the mailbox of the client, which is ready or already running with it; no other empty mailbox is filled, and the server is told that all went well |
| KernelReplies.MemoryAnswerArrives | xous/kernel/src/syscall.rs:249-290 | the same for the return of lent memory |
| KernelReplies.ScalarAnswerExactly | xous/kernel/src/syscall.rs:296-336 | what a scalar answer does whatever the slot holds: whose server, which slot, a client that is dead, a slot that owes memory (used up and reported as a double free), a slot that owes nothing |
| KernelReplies.MemoryAnswerExactly | xous/kernel/src/syscall.rs:249-290 | what the return of memory does whatever the slot holds, the wrong buffer and a failed return included |
| KernelClients.MailStep | xous/kernel/src/kfuture.rs:193-205 | no step loses an answer or spends it on anybody else: the client still has it in its mailbox or now runs with it |
| KernelClients.AnswerReachesClient | xous/kernel/src/syscall.rs:249-336 | over every run during which its process lives, a client that has been answered still has that answer waiting or has gone on with exactly that value |
| KernelOpenings.OpenServerOutcome | xous/kernel/src/services.rs:892-926 | a server gets the first free index, the caller as owner, the permissions asked for and an empty queue; full table and missing memory are reported and change nothing |
| KernelOpenings.ConnectStep | xous/kernel/src/services.rs:948-956 | a connect adds a reference to the slot that has the server, or takes the first free slot with one reference and the permissions of the server; the id returned is that slot's; the errors change nothing |
| KernelOpenings.ConnectForStep | xous/kernel/src/services.rs:948-956 | the same on behalf of another process, which must exist |
| KernelOpenings.DisconnectStep | xous/kernel/src/services.rs:959-977 | a slot in use loses one reference and is free without any; everything else is refused |
| KernelOpenings.StartProcessOutcome | xous/kernel/src/services.rs:400-422 | a new process has the first free number, the caller as parent, nothing inherited and one ready thread; no other thread changes |
| KernelOpenings.StartThreadOutcome | xous/kernel/src/services.rs:807-817 | a new thread is ready in its parent's ring with nothing left over; nothing else changes |
| KernelClosings.EventSent | xous/kernel/src/services.rs:1168-1176 | an event reaches the server that a process has named for it, as a message with the id and argument it asked for, iff there is room; otherwise nothing happens |
| KernelClosings.WokenExact | xous/kernel/src/server.rs:350-410 | exactly the threads that wait for an answer or a message of the server are made ready and told that it is gone; no other thread changes |
| KernelClosings.CloseServerStep | xous/kernel/src/services.rs:1152-1166 | closing a server tells all who wait for its answer or its messages that it is gone and makes them ready; every connection to it, and no other, becomes a tombstone; every other server gets a notice, one, iff its process had a connection, listens there and has room; a server that is not the caller's is refused |
| KernelClosings.ExitStep | xous/kernel/src/services.rs:1046-1150 | the process is gone, its children have no parent, the first 64 waiters get the exit code and the others keep waiting, and a parent that listens gets one notice with the code |
| KernelClosings.KillStep | xous/kernel/src/services.rs:1190-1202 | the same for another process; the caller itself, a process that is not there and one that the kernel started are refused |
| KernelEndings.DestroyBuriesConnections | xous/kernel/src/services.rs:1158-1165 | the end of a server turns every connection to it, in every process, into a tombstone with the same references, and touches no other |
| KernelEndings.ConnectLeadsToServer | xous/kernel/src/services.rs:948-956 | a new connection leads to a server with the id asked for |
| KernelEndings.ClientsAreStranded | xous/kernel/src/server.rs:374-410 | a client of a destroyed server is made ready but its call stays unfinished, no slot names it any more, and activation parks it again |
| KernelEndings.ClientsStayStranded | xous/kernel/src/server.rs:374-410 | after the call that closes its server a client is stranded in every later state of every run, as long as its process lives |
| KernelEndings.ExitLeavesNothing | xous/kernel/src/services.rs:1046-1150 | after its end a process is in no table and no slot names one of its threads |
| KernelEndings.ExitWaitersComplete | xous/kernel/src/services.rs:1097-1113 | what is collected is what was found before followed by all threads that wait for the end of the process, in the order of process and thread numbers, cut off at 64 |
| KernelEndings.ExitTellsWaiters | xous/kernel/src/services.rs:1089-1135 | a thread of another process that waits for the end of this one gets the exit code in its mailbox and is ready iff fewer than 64 waiters have a lower process or thread number; otherwise it keeps its call and its mailbox |
| KernelEndings.UntoldIsAbandoned | xous/kernel/src/services.rs:1097-1113 | a waiter without mail that has 64 or more waiters before it goes on waiting, without mail, for the process that is gone |
| Services.SystemServices.constructor | xous/kernel/src/services.rs:302-322 | the tables after start-up: the kernel's process with its idle thread ready |
| Services.SystemServices.SetThreadState | xous/kernel/src/process.rs:204-213 | in place, with the linked lists: the state function, with the coupling kept |
| Services.SystemServices.SetThreadPriority | xous/kernel/src/process.rs:216-226 | in place: the priority function, with the coupling kept |
| Services.SystemServices.WakeThreadWithResult | xous/kernel/src/syscall.rs:44-67 | in place: through the mailbox if the thread has a future, directly otherwise |
| Services.SystemServices.SuspendWithFuture | xous/kernel/src/syscall.rs:76-80 | in place: the future is stored and its thread parked with the future's mask |
| Services.SystemServices.WakeThreadsWithState | xous/kernel/src/services.rs:880-882 | the nested loops compute the wake-up function |
| Services.SystemServices.PostNotificationBits | xous/kernel/src/process.rs:395-408 | the loop computes the posting function |
| Services.SystemServices.TakeNextMessage | xous/kernel/src/kfuture.rs:176-189 | in place: the next message is taken and senders are woken if the queue was full |
| Services.SystemServices.PollFuture | xous/kernel/src/kfuture.rs:137-205 | in place: the poll, of which `PollDoneOk` says what the thread is given |
| Services.SystemServices.ActivateCurrent | xous/kernel/src/scheduler.rs:209-292 | the loop terminates and computes the activation, of which `ActivateRunsFirst` says who runs and with what |
| Services.SystemServices.SendMessageInner | xous/kernel/src/syscall.rs:119-247 | in place: the sending, of which `HandedOverOrQueued` and `RefusedExactly` say what arrives and what is refused |
| Services.SystemServices.SendMessage | xous/kernel/src/syscall.rs:83-117 | in place: lookup, permission check, send, suspension and activation, as in `TrySendStep` |
| Services.SystemServices.SendMessageRetrying | xous/kernel/src/syscall.rs:732-745 | in place: a full queue parks the sender, as in `PatientSendStep` |
| Services.SystemServices.TakeWaitingMessage | xous/kernel/src/syscall.rs:257-267 | in place: the reply is taken and senders are woken if the queue was full |
| Services.SystemServices.ReturnResult | xous/kernel/src/syscall.rs:296-336 | in place: the scalar reply, all cases of `ScalarAnswerExactly` |
| Services.SystemServices.ReturnMemory | xous/kernel/src/syscall.rs:249-290 | in place: the memory reply, all cases of `MemoryAnswerExactly` |
| Services.SystemServices.ReceiveMessage | xous/kernel/src/syscall.rs:339-383 | in place: the receive, all cases of `ReceiveStep` |
| Services.SystemServices.AddConnection | xous/kernel/src/process.rs:438-455 | the two searches compute the connection function |
| Services.SystemServices.TombstoneConnectionBySidx | xous/kernel/src/process.rs:425-436 | the search computes the tombstone function |
| Services.SystemServices.ConnectToServer | xous/kernel/src/services.rs:948-956 | in place: the connecting function |
| Services.SystemServices.DisconnectFromServer | xous/kernel/src/services.rs:959-977 | in place: the disconnecting function |
| Services.SystemServices.CreateServerWithAddress | xous/kernel/src/services.rs:892-926 | the search for a free index computes the creating function |
| Services.SystemServices.DestroyServerAt | xous/kernel/src/services.rs:1152-1166 | the loops over slots, parked threads and processes compute the destroying function |
| Services.SystemServices.ExitThread | xous/kernel/src/services.rs:824-854 | the loop over joiners computes the exit function |
| Services.SystemServices.FutexWakeThreads | xous/kernel/src/syscall.rs:593-614 | the loop computes the futex function |
| Services.SystemServices.TerminateCurrentProcess | xous/kernel/src/services.rs:1046-1150 | the loops over servers, waiters and threads compute the termination function |
| Connections.CidNotReassigned | xous/kernel/src/process.rs:425-469 | while a connection id has been given back fewer times than it has references it stands for the same server, or its tombstone |
| Connections.HeldIsOpenedLessClosed | xous/kernel/src/process.rs:438-455 | the reference count is the number of times the slot was opened less the number of times it was given back |
| Memory.AddressRoundTrip | xous/kernel/src/mem.rs:854-880 | the address an allocation returns leads back to its page, through either view of main memory |
| Memory.RegionRoundTrip | xous/kernel/src/mem.rs:854-877 | an address in an extra region that no earlier region covers leads to its own place in the owner table: behind main memory and the pages of the regions before it |
| Memory.OffsetInside | xous/kernel/src/mem.rs:854-877 | every address that is found has a place in the owner table, in its main-memory part iff it lies in one of the two views of main memory |
| Memory.GiveOk | xous/kernel/src/mem.rs:355-370 | free pages that are given away have that owner and are in no pool; the counter goes down by their number and the flag up below the low mark; no other page changes, and the partition and the count hold |
| Memory.TakeBackOk | xous/kernel/src/mem.rs:823-837 | a page that is taken back has no owner and is dirty; the counter goes up and the flag down at the high mark; no other page changes, and the partition and the count hold |
| Memory.StartZeroingOk | xous/kernel/src/mem.rs:425-440 | exactly the dirty pages the zeroer takes leave the bitmap and are in flight; the partition still holds |
| Memory.FinishZeroingOk | xous/kernel/src/mem.rs:444-447 | exactly the pages the zeroer took come back zeroed and are no longer in flight; the partition still holds |
| Memory.ScanIsSound | xous/kernel/src/mem.rs:188-203 | a start-up scan of part of the pages makes sound tables iff every other page has an owner |
| Memory.NextOk | xous/kernel/src/mem.rs:918-938 | each event keeps the partition and the count, raises the low-memory flag only below the low mark and lowers it only at the high mark |
| Memory.HistoryOk | xous/kernel/src/mem.rs:318-447 | through every mix of allocation, claim, move, release and zeroing each page is in exactly one pool and the counter counts the pages without an owner |
| Memory.OwnedByLast | xous/kernel/src/mem.rs:318-447 | through every history a page belongs to whom it was last given or moved to, and to nobody once it was taken back |
| Memory.ZeroedSinceLastOwner | xous/kernel/src/mem.rs:425-447 | a page in the zeroed bitmap has had no owner since the zeroer last gave it back |
| Memory.EmptiedExactly | xous/kernel/src/mem.rs:888-901 | the end of a process frees exactly its own pages, and those of main memory become dirty |
| Memory.MemoryManager.constructor | xous/kernel/src/mem.rs:155-181 | pages without an owner are dirty, none is zeroed, and the counter counts them |
| Memory.MemoryManager.AddFreePages | xous/kernel/src/mem.rs:918-926 | the counter goes up and the flag down at the high mark; the assertion holds |
| Memory.MemoryManager.SubtractFreePages | xous/kernel/src/mem.rs:929-938 | the counter goes down and the flag up below the low mark; the event of low memory is due exactly when the flag goes up; the assertion holds |
| Memory.MemoryManager.AllocSinglePage | xous/kernel/src/mem.rs:318-371 | it fails iff no page is dirty or zeroed; a page reported zeroed was; a dirty page or the reserved end of memory is used only if nothing better is free; the double-allocation panic is not reached |
| Memory.MemoryManager.AllocRangeAligned | xous/kernel/src/mem.rs:375-418 | it fails iff there is no aligned run of free pages; the flag is true iff all pages of the block were zeroed; the block is the highest of its kind |
| Memory.MemoryManager.AllocRange | xous/kernel/src/mem.rs:309-315 | it fails iff there is no run of free pages of that length |
| Memory.MemoryManager.TakeDirtyPages | xous/kernel/src/mem.rs:425-440 | it finds a run iff a page is dirty; the run is dirty and as long as possible up to the limit |
| Memory.MemoryManager.SetPagesToZeroed | xous/kernel/src/mem.rs:444-447 | pages in flight become zeroed and free |
| Memory.MemoryManager.ClaimPage | xous/kernel/src/mem.rs:799-815 | for a place in the owner table: a page is refused iff it has an owner or is being zeroed |
| Memory.MemoryManager.MovePage | xous/kernel/src/mem.rs:816-822 | for a place in the owner table: a page changes hands only from the given or the same owner; the two errors |
| Memory.MemoryManager.ReleasePage | xous/kernel/src/mem.rs:823-837 | for a place in the owner table: a page becomes dirty and ownerless, only for its owner; the two errors |
| Memory.MemoryManager.ClaimReleaseMove | xous/kernel/src/mem.rs:769-840 | alignment, permission, shared peripherals and unknown addresses are decided in this order, and then the owner table decides; a refused request changes nothing |
| Memory.MemoryManager.ReleaseAllMemoryForProcess | xous/kernel/src/mem.rs:888-901 | the loop computes the emptying function |
| Reactors.TryRecvOk | xous/async-rt/src/reactor.rs:101-116 | a receive returns the oldest message that is buffered, or else the oldest in the kernel, and appends it to what its receiver got; it returns nothing only if both are empty |
| Reactors.PollRecvOk | xous/async-rt/src/server.rs:108-125 | a task that has to wait has nothing to receive and its waker is parked; an error iff the slot is gone |
| Reactors.RegisterOk | xous/async-rt/src/reactor.rs:71-90 | a new handle gets a slot that no live handle holds, and no live slot changes |
| Reactors.UnregisterOk | xous/async-rt/src/reactor.rs:92-98 | dropping a handle frees exactly its slot |
| Reactors.PollServersOk | xous/async-rt/src/reactor.rs:130-151 | draining keeps the streams in order and leaves nothing in the kernel for a live slot; a slot alone with its server gets all that waited, after what it has; a task parked at a slot that gets something is woken, and no flag goes down |
| Reactors.PollServersExact | xous/async-rt/src/reactor.rs:130-151 | from any state: the first live slot of each server gets all that waits for it and loses its waker if that is anything; no other slot changes; the tasks woken are exactly the wakers of those slots |
| Reactors.PollTimerOk | xous/async-rt/src/timer.rs:38-60 | a timer is done iff its deadline has come; otherwise its waker is parked and it is not due; a first poll gets a slot no live timer holds |
| Reactors.PollTimersOk | xous/async-rt/src/reactor.rs:194-206 | a tick advances time by one and wakes exactly the tasks parked at live timers that are due; those lose their wakers and no other timer or slot changes |
| Reactors.WakerKept | xous/async-rt/src/reactor.rs:92-151 | whatever happens, a task parked at a slot stays parked there or is ready, unless the slot is dropped or polled anew |
| Reactors.TimerWakerKept | xous/async-rt/src/reactor.rs:174-206 | the same for a task parked at a timer |
| Reactors.WakerKeptOverRun | xous/async-rt/src/reactor.rs:71-206 | over every run that leaves its slot alone, a parked task stays parked there or has been woken |
| Reactors.ParkedForNothing | xous/async-rt/src/reactor.rs:130-151 | after a tick a task is parked at a slot only if nothing is there for it, neither buffered nor in the kernel |
| Reactors.RunSound | xous/async-rt/src/reactor.rs:71-206 | every run keeps what holds of buffers, wakers, timers and streams |
| Reactors.DeliveredInOrder | xous/async-rt/src/reactor.rs:101-151 | in every run, what the holder of a slot that has been alone with its server since it was registered received, followed by what is buffered, is what the kernel handed out since registration, in order |
| Reactors.CompleteIffAlone | xous/async-rt/src/reactor.rs:71-151 | while a slot stays live and nobody else registers its server, its stream is complete in every continuation iff it is complete now and no other live slot has that server |
| Reactors.NothingLost | xous/async-rt/src/reactor.rs:130-151 | over every run, what the kernel handed out followed by what waits in it is what was sent |
| Reactors.TimerFiresOnTime | xous/async-rt/src/timer.rs:38-60 | whatever happens in between, a timer is done iff as many ticks have passed as it was asked to wait |
| Reactors.SecondSlotSplits | xous/async-rt/src/reactor.rs:71-90 | with a second slot for the same server the stream of a slot is not complete |
| ReactorInner.Reactor.RegisterServer | xous/async-rt/src/reactor.rs:71-90 | the search computes the registering function |
| ReactorInner.Reactor.UnregisterServer | xous/async-rt/src/reactor.rs:92-98 | in place: the unregistering function |
| ReactorInner.Reactor.TryRecv | xous/async-rt/src/reactor.rs:101-116 | in place: buffered first, then one from the kernel |
| ReactorInner.Reactor.PollNext | xous/async-rt/src/server.rs:108-125 | in place: the polling function |
| ReactorInner.Reactor.PollServers | xous/async-rt/src/reactor.rs:130-151 | the nested loops compute the draining of `PollServersExact` and report iff a waker was used |
| ReactorInner.Reactor.AddTimer | xous/async-rt/src/reactor.rs:155-172 | the search computes the timer function |
| ReactorInner.Reactor.PollTimers | xous/async-rt/src/reactor.rs:194-206 | the loop computes the tick function and reports iff a waker was used |
| ReactorInner.Timer.Poll | xous/async-rt/src/timer.rs:38-60 | in place: lazy registration, clean-up when done |
| Executors.TurnOfTurn | xous/async-rt/src/executor.rs:96-97 | the rotating start index gives every task exactly one turn per round |
| Executors.TurnComes | xous/async-rt/src/executor.rs:96-117 | a task ready at its turn is polled, a completed one is not, and any task that is not completed keeps the loop going |
| Executors.TurnCompletes | xous/async-rt/src/executor.rs:113-116 | a task is completed after the round iff it was or a poll of this round finished it |
| Executors.WakeKept | xous/async-rt/src/executor.rs:105-113 | the flag is cleared before the poll: a wake during the poll or later in the round leaves it up |
| Executors.RoundIsFair | xous/async-rt/src/executor.rs:82-122 | in a round the spawned tasks join the others; every task is polled at most once; every task that was spawned or whose flag is up is polled; no completed task is, nor one whose flag is down and that no poll wakes; a task is completed afterwards iff it was or a poll finished it |
| Executors.RoundFlags | xous/async-rt/src/executor.rs:96-117 | a task woken in the round and not polled after that has its flag up at the end; one polled and not woken since has it down; the tasks spawned are those the polls spawned, and there is progress iff a poll finished a task |
| Executors.TurnsInOrder | xous/async-rt/src/executor.rs:96-97 | the polls of a round come in the order of the turns |
| Executors.TurnsMoveOn | xous/async-rt/src/executor.rs:119-122 | the task with the first turn has the last one in the next round and all others move up by one |
| Executors.WakeLeadsToPoll | xous/async-rt/src/waker.rs:25-71 | a task that a poll wakes is polled after that in the same round, is completed when it ends, or is polled in the next, whatever is woken in between |
| Executors.RoundsEnd | xous/async-rt/src/executor.rs:78-149 | the loop comes to its end only when all tasks, spawned ones included, are completed, and at once if they are; polls are only added |
| Executors.RoundStops | xous/async-rt/src/executor.rs:124-126 | the loop ends iff all tasks, and all tasks they spawned, are completed |
| Executors.Executor.Spawn | xous/async-rt/src/executor.rs:51-57 | a new task starts ready |
| Executors.Executor.DrainSpawns | xous/async-rt/src/executor.rs:83-89 | the spawned tasks are appended, not completed and with their flags up; the others and their flags stay |
| Executors.Executor.PollRound | xous/async-rt/src/executor.rs:83-122 | the loop computes the round function |
| Executors.Executor.Run | xous/async-rt/src/executor.rs:78-149 | any number of rounds of the event loop, wakes of the reactor in between, is that many rounds of the round function, and the executor reports the end only when every task, spawned ones included, is completed |
| Paths.RenderRoundTrip | apps/shell/src/main.rs:180-198 | reading a rendered stack of names gives the stack back |
| Paths.ResolveLength | apps/shell/src/main.rs:180-198 | the result needs no more room than the joined path: no write is out of bounds |
| Paths.ResolveIdempotent | apps/shell/src/main.rs:161-201 | a resolved path is absolute, fits the buffer and resolves to itself from any directory |
| Paths.PieceLeads | apps/shell/src/main.rs:177-198 | for every input that fits, a further piece leads on from where the input led: nothing and `.` stay, `..` goes to the directory of which that was an entry, or stays at the root, and any other name goes to that entry |
| Paths.ResolveStarts | apps/shell/src/main.rs:161-176 | the root resolves to the root; an absolute input does not depend on the working directory, a relative one is the same as the two joined by a slash; nothing after the first 256 bytes counts |
| Paths.FallbackOnlyIfTruncated | apps/shell/src/main.rs:200-201 | the root replaces the resolved path only if the joined path was cut off at 256 bytes |
| Paths.TextIdempotent | apps/shell/src/main.rs:161-201 | what the caller is given resolves to itself from anywhere, the replacement by the root included |
| Paths.Anchor | apps/shell/src/main.rs:162-176 | the joined path, cut off at 256 bytes |
| Paths.Pop | apps/shell/src/main.rs:184-190 | going up removes the last name and its slash, and nothing at the root |
| Paths.Push | apps/shell/src/main.rs:191-196 | going down appends a slash, unless at the root, and the whole name |
| Paths.Normalise | apps/shell/src/main.rs:162-198 | the bytes are the rendering of the stack that the components of the joined path lead to; no index is out of bounds |
| Paths.ResolvePath | apps/shell/src/main.rs:161-201 | the result is the resolved path if that is UTF-8 text, and the root otherwise |

## Left out

- Page tables, cache maintenance, context switching and other architecture code; mapping, lending and returning memory appear only as the outcome that a call is given.
- Memory.MemoryManager.AllocRangeAligned: does not accept requests for 0 pages or for more pages than main memory has, because the source computes its search bound as `RAM_PAGES - num_pages + 1` in unsigned arithmetic and slices the bitmap with it (xous/kernel/src/mem.rs:380-383), which such requests make panic.
- Memory.MemoryManager.AllocRange: does not accept such requests either; it passes them on.
- Memory.MemoryManager.ClaimPage: takes the page's place in the owner table, because the checks on the address come before it; they are in `ClaimReleaseMove`.
- Memory.MemoryManager.MovePage: takes the page's place in the owner table, for the same reason.
- Memory.MemoryManager.ReleasePage: takes the page's place in the owner table, for the same reason.
- Memory.MemoryManager.SubtractFreePages: says when the event of low memory is due, but does not broadcast it, because the allocator has no view of the processes.
- KernelTables.CreateThreadKeeps: requires the id of the new thread to be a free entry of the thread table, which the source's search does not guarantee; `NewThreadFits` says exactly when it is. Register contexts are taken to be in use exactly while their threads are.
- `server_from_sidx` (xous/kernel/src/services.rs:985-1000) accepts the index one past the end of the table. The index comes from the caller's own sender word (xous/kernel/src/syscall.rs:296-300); the model looks servers up in a map, where that index is simply absent.
- What a process' hardware permissions say about an address is a parameter of `ClaimReleaseMove`.
- The kernel panic when a system process exits with a non-zero code.
- System calls that only read or only concern memory, devices, names or permissions (among them PollEvent, GetProcessId, MapMemory, AllowMessages, display and interrupt ownership), and the mask of calls that a process may make.
- The `RetryConnect` thread state and the wake-up for it: no call of this kernel parks a thread in it.
- Encoding of system calls, results and sender ids in registers.
- Liveness of notification bits: a post wakes one thread, which may be one suspended in another call.
- Executors.Executor.Run: does not model an unbounded loop, because termination depends on the futures; the number of rounds is a parameter, and the statement holds for every number. The effects of polls, and the wakes of the reactor between rounds, are arbitrary functions; the idle wait between rounds is not modelled.
- Services.SystemServices.TakeNextMessage: the queue of a server is a value in the server table, not the array of `Servers.Server`; both are tied to the same functions.
- The kernel steps for yielding, joining, waiting, thread and process creation and event registration are modelled on values only; the in-place parts they use (state, priority, future, activation) are methods.
- Reactor ticks and timer deadlines do not wrap around at 64 bits.
- The log server, loader, file systems, name server, ticktimer, network and the rest of the shell.
