# A verified model of the task selector

The repository implements a selector: a replacement for `FuturesUnordered` that polls a dynamic set of
tasks. It is built from an intrusive lock-free queue of woken tasks (`src/queue.rs`), an intrusive
circular list of all tasks (`src/list.rs`) whose nodes are the same as the queue's, and a poll loop that
ties the two together (`src/selector.rs`). This project models these three layers, the iterators, the
wakers and their reference counts, the stream strategies and the stream map of `examples/map.rs`, and
proves what the code and its documentation promise about them.

## How the model is built

* `Protocol` is the queue as a state machine: every access to an atomic is one step, any number of threads
  enqueue, one consumes, and the scheduler is free. `chain` is the history of the `head` cell, so
  `chain[pos..]` is the queue proper whatever the links say at the moment. `ProtocolInvariant`,
  `ProtocolHistory` and `ProtocolRuns` prove that `Inv` holds in every reachable state;
  `ProtocolTheorems` and `ProtocolWakeups` draw the promises from it, for states and for whole runs.
* `Queues.Receiver` is the consumer's code statement by statement, with the cells as fields. Before every
  access to an atomic the other threads take the steps that `schedule`, an arbitrary oracle, has for them.
  The state of the object is at all times the state that the protocol reaches by the run in `log`, and every
  method only extends `log`; so each theorem about runs holds from the start of a call to its end.
* `Lists`, `Cursors` and `Iterators` are the list and the iterators over nodes on the heap; `nodes` is the list
  as a sequence. A removed node is in the hands of a `Removed`, which ends with `IntoInner` or `Drop`. `out` and
  `spent` say where the values are that are no longer stored.
* `Tasks` describes a task by what its polls do, one after the other: the nodes it wakes, the outcome, the
  transformation that follows, and the nodes that its drop wakes. Polls and transformations may panic. Nothing else is
  assumed of tasks.
* `Selectors.Selector` is the selector over a `Receiver` and a `List`. `polls` is the log of all polls, `answers`
  that of all values returned. `Snapshots` and `Batches` hold the facts about one call of `poll_next`,
  `SoleThread` what a call does to the queue when no other thread enqueues; `SelectorTheorems` and `Lifetimes` are
  about whole runs.
* `Strategies`, `RoundRobins` and `StreamMaps` are clients: the stream strategies, the first example of the
  repository's README, and `examples/map.rs`. `TurnTaking` has the steps of that first example as a program over
  `Protocol`, and says when its streams take turns; `TurnOrders` says what that means. `MapItems` sorts what the map returns by key.
* `References` counts the references to the nodes and to the queue, as a state machine beside `Protocol`;
  `ReferenceSteps` and `ReferenceTheorems` are its proofs. `Wakers` is the waker's vtable, `Teardowns` the drop of
  the queue, in the step that drops the last reference to it.
* `RemovedTasks` are runs in which the code does not do what one might expect.

A pointer is the number of a node, or the stub, or null. A node's number is its place in the order of creation.

## Where comments and code differ

The comment at `src/queue.rs:86` says that an enqueue is in progress when the tail is not the head. That is not
so: the enqueue may have begun and ended between the load of the link (line 63 or 71) and the load of `head`
(line 85). `MissOnQuietQueue` is such a run; there `dequeue` returns None although two nodes wait, every link
is written and no thread is at work. `MissAtHead` says exactly when an enqueue is in progress at that point:
when the link that leaves the tail is still null. The selector is not harmed, because the enqueue came after
the waker was registered, and has signalled it (`ParkingIsSafe`).

`src/selector.rs:41-49` lists four conditions for the memory of a task to be freed. The fourth, that the selector
observes the removal, is needed only if the node is in the queue at that time: `FreedUnobserved` is a run in which
a removed task is freed without another poll, and `UnreferencedIsFreed` says when it is.

`src/selector/id.rs:26-27` says that a wake does nothing when the task is gone. In the run `RemovedIsEnqueued` the task
was removed and its value is gone, and a wake puts its node into the queue. `WakeEntersUnless` says when a wake does not:
if and only if the flag is set or the queue was dropped. The selector then drops the node from the queue, for good
(`RemovedIsDequeuedOnceMore`, `RetiredStaysOut`).

`src/selector.rs:64-65` promises round robin. Streams that are always ready take turns in every run if and only if there
is one of them, or no other thread, or no other thread that wakes one of them (`InTurnIff`). Otherwise, for any number
of streams and threads, there is a run like this (`OutOfTurn`): a slow thread wakes stream 0 while it is polled for the
first time, so that the Continue of stream 0 is in vain; the other streams have their turns, and stream 1 has a second
one before stream 0 has. `Flatten` is the example over the selector itself, for any number of threads that wake nothing.
What holds in every run is `RoundRobin`: who waits when a node is dequeued is dequeued before that node is dequeued again.

The stream map of `examples/map.rs` keeps the key of a stream that panicked: `KeepStaleKey` ends with such a map.
`StaleKey` says that this is the only way in which a key loses its task.

## Model

| member | source | states |
|---|---|---|
| `ProtocolRuns.InvInit` | src/queue.rs:119-143 | a new queue, with any number of threads outside, satisfies the invariant |
| `ProtocolRuns.InvStep` | src/queue.rs:34-116 | every step of every thread keeps the whole invariant: shape of the chain, links, owers of links, places of flagged nodes, program counters, order of delivery, gaps, signals, reasons |
| `ProtocolRuns.InvExec` | src/queue.rs:34-116 | the invariant holds throughout every run |
| `ProtocolTheorems.FirstInFirstOut` | src/queue.rs:57-116 | in every run of any number of threads, the nodes that `dequeue` returns are a prefix of the nodes swapped into `head`, in that order; the rest is what waits |
| `ProtocolTheorems.RunHistory` | src/queue.rs:193-204 | from any state on, a run appends to the history exactly what it swaps in, and to the deliveries exactly what it returns |
| `ProtocolTheorems.WaitingDistinct` | src/queue.rs:179-184 | no node is in the queue twice |
| `ProtocolTheorems.MarkerIsLast` | src/queue.rs:34-52 | at its load of `head`, `register_waker` returns null exactly when no node waits, and otherwise the last waiting node; `stub_predecessor` is right whenever it is returned |
| `ProtocolTheorems.MissAtLink` | src/queue.rs:65-105 | a None after the load of a link: no node waits, or the link that leaves the tail is owed by a thread that has not called `wake` yet |
| `ProtocolTheorems.MissAtHead` | src/queue.rs:85-88 | a None after the load of `head`: a node waits, some thread was between its swap and its link during the call, and one still owes the tail's link if and only if that link is still null |
| `ProtocolTheorems.MissOnQuietQueue` | src/queue.rs:85-88 | a run after which `dequeue` returns None although two nodes wait, all links are written and no thread is enqueueing |
| `ProtocolTheorems.UndisturbedMiss` | src/queue.rs:56-57 | a call during which no thread was between its swap and its link returns None only on an empty queue |
| `ProtocolWakeups.OneOwnerPerGap` | src/queue.rs:197-202 | inside the queue a link is null exactly when it is owed, by one thread, the one that swapped the next pointer in; otherwise it leads to that pointer; no pointer occurs twice |
| `ProtocolWakeups.StoresDoNotClobber` | src/queue.rs:197-202 | the link that a thread is about to reset is in nobody's use, and the one it is about to write is null and leaves a queued pointer |
| `ProtocolWakeups.ParkingIsSafe` | src/selector.rs:280-348 | when the consumer stops on a null marker, on a None or at the end of its snapshot, then no node waits, or the registered waker was signalled, or a thread past its swap has still to call `wake` |
| `ProtocolWakeups.NoLostWakeup` | src/queue.rs:28-36 | from then on, in every later state before the next registration: if a node waits, the waker was signalled once since its registration, or a thread has still to call `wake` |
| `ProtocolWakeups.OwedWakeupComes` | src/queue.rs:202-203 | the wakeup still to come takes at most two more steps of the thread that owes it |
| `ProtocolWakeups.FlaggedIsSomewhere` | src/queue.rs:179-184 | `is_enqueued` is true exactly for the nodes that are queued, on their way into the queue, just dequeued, or dropped with their flag set; and each is in one of these places only |
| `ProtocolWakeups.WakeIsServed` | src/queue.rs:345-348 | whenever a flag is set, in any later state it is still set, or the node was released by `into_inner` in between |
| `ProtocolWakeups.RetiredStaysOut` | src/selector.rs:292-299 | a node dropped with its flag set is never dequeued again, however often it is woken |
| `ProtocolWakeups.AtMostOnceMore` | src/selector.rs:292-299 | a node that is not released in a run is dequeued at most once in it |
| `ProtocolWakeups.DeliveredIsHandled` | src/selector.rs:289-301 | in every run the dequeued nodes are, with multiplicity, those released to be polled, those dropped, and the one at hand |
| `ProtocolWakeups.RoundRobin` | src/selector.rs:64-65 | between two deliveries of a node, every node that waited at the first is delivered, in the order in which it waited |
| `ProtocolWakeups.RoundRobinPolls` | src/selector.rs:64-65 | and by the second delivery each of them was released to be polled or dropped because its task was gone |
| `ProtocolWakeups.WaitingThenSwapped` | src/queue.rs:57-116 | what a run returns and leaves waiting is what waited before it, followed by what it swapped in |
| `ProtocolWakeups.ReleasedForAReason` | src/selector.rs:53-57 | in every run a node is released at most as often as somebody asked for it |
| `Queues.Receiver.constructor` | src/queue.rs:119-143 | head and tail at the stub, no node, nobody enqueueing: the initial state of the protocol |
| `Queues.Receiver.RegisterWaker` | src/queue.rs:34-52 | with other threads running before each access: the marker is null exactly when nothing waits at the load of `head`, otherwise the last waiting node; nothing is dequeued |
| `Queues.Receiver.Dequeue` | src/queue.rs:57-116 | returns the node that is appended to the deliveries, hence the next of the queue; None only if nothing waits, or a thread was between swap and link when the call began, or one has swapped since; the shared cells follow the protocol |
| `Queues.Receiver.CatchUp` | src/queue.rs:85-115 | the same for the part of the call that begins when no successor of the tail was seen |
| `Queues.Receiver.EnqueueStub` | src/queue.rs:90-100 | the stub goes behind the tail amid enqueues by others, without a change to the nodes that wait |
| `Queues.Receiver.IntoInner` | src/queue.rs:345-348 | the flag is clear afterwards, the node is released, and nothing else is |
| `Queues.Receiver.Discard` | src/selector.rs:292-299 | a `Dequeued` that is dropped leaves its flag set, for good |
| `Queues.Receiver.Create` | src/queue.rs:165-172 | a new node, not enqueued |
| `Queues.Receiver.Enqueue` | src/queue.rs:179-204 | afterwards the flag is set; alone, the node is at the end of the queue if its flag was clear and the queue is as before if not, and no other flag changes; with others, the queue only grows, and a consumer that may sleep may still sleep |
| `Queues.Receiver.Other` | src/queue.rs:193-204 | a step of another thread keeps the consumer's cells, and a consumer that may sleep may still sleep |
| `Lists.List.LinkBack` | src/list.rs:52-69 | the ring stays a ring and the node becomes its last |
| `Lists.List.RemoveUnchecked` | src/list.rs:187-209 | one node leaves, the others keep their order, also when it is the front or the only one; both its links are null afterwards, and it is in the hands of the `Removed` that is returned, with its value |
| `Lists.List.Linked` | src/list.rs:88-151 | for a node stored in this list or removed from it, the link is not null exactly when it is stored |
| `Lists.List.Remove` | src/list.rs:125-131 | succeeds exactly when the node is stored, takes it out at its place, and returns its owner |
| `Lists.RingWithout` | src/list.rs:188-196 | bypassing one node of a ring leaves a ring, for every position |
| `Lists.List.DropAll` | src/list.rs:221-239 | every value is dropped once, front to back, and logged so, also when one of them panics; it completes when no value panics, and aborts at a value that panics exactly when another one did before it, or while a panic unwinds already |
| `Lists.Removed.IntoInner` | src/list.rs:347-357 | the value is moved out, once: the slot is empty, the node is no longer out, the log has it |
| `Lists.Removed.Drop` | src/list.rs:360-367 | the same for the drop of a `Removed` |
| `Cursors.Cursor.constructor` | src/list.rs:153-185 | everything is ahead |
| `Cursors.Cursor.PopFront` | src/list.rs:432-441 | moves past the first node ahead; the list is unchanged |
| `Cursors.Cursor.PopBack` | src/list.rs:463-472 | moves past the last node ahead; the list is unchanged |
| `Cursors.Cursor.RemoveFront` | src/list.rs:452-461 | takes the first node ahead out of the list, while the cursor is live |
| `Cursors.Cursor.RemoveBack` | src/list.rs:483-493 | takes the last node ahead out of the list |
| `Cursors.Cursor.NextAhead` | src/list.rs:400-472 | the links that the cursor follows from either end lead to the next nodes ahead, never to a removed node, whatever was popped and removed before |
| `Cursors.Cursor.Len` | src/list.rs:392-394 | the length is the number of nodes ahead |
| `Cursors.Cursor.Visited` | src/list.rs:391-493 | after any mix of pops and removals: the nodes visited from the front, those ahead, and the reverse of those visited from the back are the original, without repetition; and the list is the original without the removed nodes |
| `Cursors.ListOfSession` | src/list.rs:391-493 | when they are, the list that is left is the original without the removed nodes, in order |
| `Iterators.ExtractIf.Next` | src/selector/iter.rs:104-113 | removes and yields the first node ahead that satisfies the predicate, with its value; the nodes skipped do not satisfy it and stay |
| `Iterators.ExtractIf.NextBack` | src/selector/iter.rs:124-133 | the same from the back |
| `Iterators.ExtractIf.Retains` | src/selector.rs:191-200 | stopped at any point, after any mix of the two, the list is the original without the visited nodes that satisfy the predicate; exhausted, it is the complementary filter of the original |
| `Iterators.Retain` | src/selector.rs:205-210 | leaves exactly the nodes that satisfy the predicate, in order, with their values; the others are unlinked and their values dropped |
| `Iterators.IntoIterNext` | src/selector/iter.rs:14-16 | takes the first node, with its value |
| `Iterators.IntoIterNextBack` | src/selector/iter.rs:31-33 | takes the last node, with its value |
| `Selectors.Selector.constructor` | src/selector.rs:82-88 | an empty selector satisfies the invariant of queue, list and log |
| `Selectors.Selector.Push` | src/selector.rs:95-97 | the task is stored last and its node is flagged, hence queued or on its way; nobody who was not stored is stored now |
| `Selectors.Selector.Contains` | src/selector.rs:116-138 | for an id of any selector: true exactly when the id was created here and its task is stored |
| `Selectors.Selector.Remove` | src/selector.rs:143-148 | succeeds exactly then, takes that one task out and returns its owner, with the value; the node may stay in the queue |
| `Selectors.Selector.TakeValue` | src/list.rs:347-357 | the owner of a removed task may take the value at any time; the selector stays valid |
| `Selectors.Selector.Retain` | src/selector.rs:205-210 | keeps the tasks that satisfy the predicate, in order, and the invariant of the selector |
| `Selectors.Selector.Wake` | src/selector/id.rs:28-30 | the nodes woken are flagged afterwards, and the invariant is kept |
| `Selectors.Selector.WakeAll` | src/selector.rs:213-215 | every stored task is flagged afterwards; when no other thread enqueues, those whose flag was clear are enqueued in the order of insertion, and nobody else is |
| `Selectors.Selector.PollTask` | src/selector.rs:301-336 | the next turn of the task is played once; afterwards the nodes woken in the poll are flagged, the task itself if it continues, those woken in the transformation, and those woken by the drop of the value if it is dropped; when no other thread enqueues, exactly those of them whose flag was clear are enqueued, in the order of poll, enqueue, transformation, drop; a task stays in the list if it waits, or continues without a panic; else its value is gone, unless the transformation keeps its `Removed` |
| `Selectors.Selector.Evict` | src/list.rs:520-537 | the guard takes the task out of the list and drops its value |
| `Selectors.Selector.PollNext` | src/selector.rs:277-348 | terminates whatever tasks and threads do; dequeues a prefix of the snapshot, which begins with what waited before; polls those of its nodes that are stored, in that order; the call unwinds exactly when its last poll panics, in whichever of the three calls, returns an output exactly when its last poll has one, goes on after every other poll, and otherwise says whether tasks are left; goes on to the end of the snapshot unless it answers or meets a None; whoever was flagged before is still flagged or was polled in the call; whoever was not stored is not polled; the only values that get into the hands of a `Removed` are those that a transformation keeps; when no other thread enqueues, the polls alone determine the queue; after Pending the consumer may sleep |
| `Selectors.Selector.PollUpTo` | src/selector.rs:289-341 | the loop, with the snapshot as its bound |
| `Batches.AnswerIsTold` | src/selector.rs:303-336 | the loop ends with the first poll that panics or has an output, and the answer is that panic or output: the decision of the loop is the same as this description by the outcomes of the polls |
| `SoleThread.OneMorePoll` | src/selector.rs:301-336 | what one more poll adds to the queue when no other thread enqueues, by its outcome and the wakes of its parts, in their order |
| `Selectors.Selector.Fetch` | src/selector.rs:289-290 | what is dequeued is the next node of the snapshot, although the queue goes on growing |
| `Batches.EachOnce` | src/selector.rs:280-341 | the polls of one call are of different tasks, each stored when the call began |
| `Batches.FlagsAreHeard` | src/queue.rs:281-300 | over any stretch of a run, a flag that was set is still set, or its task was polled in that stretch |
| `Batches.StillStored` | src/selector.rs:292-299 | in the middle of a call, a node not dequeued in it yet is stored exactly when it was at the start |
| `Snapshots.ProgressAdvances` | src/selector.rs:290 | the node dequeued after k nodes of the snapshot is number k of the snapshot |
| `Snapshots.ExhaustedSnapshot` | src/selector.rs:338-340 | when the snapshot is exhausted the consumer may sleep |
| `Selectors.StaysOutTransitive` | src/selector.rs:292-299 | over several calls: whoever is not stored is neither stored nor polled later; each operation of the selector promises it for itself |
| `SelectorTheorems.RemovedIsDequeuedOnceMore` | src/selector.rs:292-299 | from the removal of a task on, it is not polled, and its node is dequeued at most once more, however often it is woken |
| `SelectorTheorems.RoundRobinOnPolls` | src/selector.rs:64-65 | when a task is at hand again, every node that waited when it was at hand before was polled since, or was found removed |
| `SelectorTheorems.AnswersAreOutputs` | src/selector.rs:311-331 | over the whole run, the values that `poll_next` has returned are the outputs of the polls, and task by task they are what that task yielded |
| `Lifetimes.ValueOnce` | src/list.rs:347-367 | at any time each value pushed is stored, or with a `Removed`, or gone; it is gone exactly when it was dropped or moved out, which happens once |
| `Lifetimes.Run` | src/selector.rs:292-299 | any sequence of operations keeps the selector valid, and makes the tasks it pushes; the values out of the list are those with a `Removed` at hand or kept by a transformation, and no others; a task that is not stored before it is not polled in it, and its node is dequeued at most once |
| `Lifetimes.Life` | src/list.rs:221-239 | any sequence of operations, then the drop of the `Removed`s at hand and of the selector: unless a second panic aborts, each value pushed is dropped or moved out, once, if and only if no poll of its task ended with a transformation that kept its `Removed`; if one did, the value is not gone |
| `Lifetimes.DropSelector` | src/list.rs:221-239 | the drop of the selector drops each stored value once, unless two of them panic |
| `SelectorTheorems.PolledForAReason` | src/selector.rs:53-57 | at any time a task was polled at most once for its push, for each of its Continues and for each of its wakes |
| `SelectorTheorems.WakeLeadsToPoll` | src/selector.rs:289-301 | over any run: a task whose flag was set has been polled since, or is still queued, on its way, or just dequeued, or was dropped as removed |
| `SelectorTheorems.StoredIsQueued` | src/queue.rs:281-300 | between calls, a stored task whose flag is set is in the queue or on its way there |
| `Batches.AnswerIsOutput` | src/selector.rs:311-331 | a call returns the output of its polls, one at most, and loses none |
| `SelectorTheorems.OutputsOfTask` | src/selector.rs:311-331 | end to end: among all outputs, those of one task are what that task yielded, in its order |
| `Strategies.BasicEndToEnd` | src/task/strategy.rs:167-198 | under `StreamBasic` the outputs that come from one stream are its items, it is polled only until it ends, and each poll of the task wakes what the stream wakes, waits when it waits and panics when it panics |
| `Strategies.BasicIsPolledToTheEnd` | src/task/strategy.rs:167-198 | a task of `StreamBasic` ends when its stream ends or panics, and not before |
| `Strategies.ReclaimEndToEnd` | src/task/strategy.rs:307-338 | under `StreamReclaim` they are the items with the id, and then the stream, once, and each poll of the task wakes what the stream wakes, waits when it waits and panics when it panics |
| `Strategies.TryEndToEnd` | src/task/strategy.rs:377-409 | under `TryStreamBasic` they are the results of the stream up to the first error, that error included, and each poll of the task wakes what the stream wakes, waits when it waits and panics when it panics |
| `Strategies.TryYieldsUpToError` | src/task/strategy.rs:377-409 | however much longer the stream would go on |
| `Strategies.TryIsPolledToTheEnd` | src/task/strategy.rs:377-409 | a task of `TryStreamBasic` ends when its stream ends, fails or panics, and not before |
| `Strategies.TryReclaimEndToEnd` | src/task/strategy.rs:547-579 | under `TryStreamReclaim` they are the good results with the id, and then the stream with its outcome, once, and each poll of the task wakes what the stream wakes, waits when it waits and panics when it panics |
| `Strategies.ScriptPlays` | src/selector.rs:303-309 | poll number k of a task of a strategy is poll number k of its stream, with the same wakes |
| `Strategies.TryReclaimTurn` | src/task/strategy.rs:547-579 | a turn under `TryStreamReclaim`, by what the stream returns: a good result continues, an error or the end breaks and keeps the `Removed` |
| `RoundRobins.Flatten` | README.md:30-41 | for any number of streams that are always ready, whatever they wake while they are polled, and any number of other threads that wake none of them: output number i is the next item of stream i modulo their number |
| `TurnTaking.InTurnIff` | src/selector.rs:64-65 | for every number of streams that are always ready and of threads: in all runs of the example they take turns, if and only if there is one stream, or one thread, or no wake by another thread |
| `TurnTaking.OutOfTurn` | src/selector.rs:277-348 | for two streams or more and two threads or more, a run of pushes and calls of `poll_next` that dequeues 0, 1, .., n - 1 and then 1 |
| `TurnTaking.OrderlyRun` | src/selector.rs:311-316 | without such a wake, every run dequeues in turn, however the streams wake each other |
| `TurnTaking.Fetches` | src/queue.rs:57-116 | when some node waits and nobody is between a swap and its link, `dequeue` ends, and returns the first waiting node |
| `RoundRobins.TakeOne` | src/selector.rs:64-65 | one `next` on such a selector polls the task whose turn it is, and no other |
| `StreamMaps.NotifyEnd.PollNext` | examples/map.rs:124-140 | an item comes with the key, the end is the key alone, which is then taken, and a taken key means the end without a poll of the stream; the wakes are those of the stream, and none without a poll |
| `StreamMaps.NotifyItems` | examples/map.rs:124-140 | what such a task yields: the items of the stream with the key, and the key alone after the end |
| `StreamMaps.CallTakes` | examples/map.rs:135-138 | a call of the selector takes the key that it returns alone, and no other |
| `StreamMaps.StreamMap.Insert` | examples/map.rs:57-68 | the key leads to the new task, the task it led to is removed and returned with its value, and the index stays right |
| `StreamMaps.StreamMap.Get` | examples/map.rs:70-73 | finds the task of a key, unless that task panicked |
| `StreamMaps.StreamMap.Remove` | examples/map.rs:75-78 | the key and its task are gone, and the task is returned with its value |
| `StreamMaps.StreamMap.PollNext` | examples/map.rs:88-104 | terminates, with this waker registered; the answers of the selector in the call are ends of streams, whose keys and no others leave the index, and then the answer of the call: an item with a key that is in the index, the last output of that key's task; nothing else is answered, so no item is lost; it unwinds exactly when its last poll panics; after Pending tasks are left, after the end none; the index stays right |
| `StreamMaps.StreamMap.ReturnedItems` | examples/map.rs:88-104 | over the whole run, the items returned with a key are the items that the streams inserted with that key have given, one stream after the other |
| `MapItems.KeyByKey` | examples/map.rs:88-104 | outputs in which an item comes from the newest task of its key are, key by key, the outputs of the tasks one after the other |
| `StreamMaps.StreamMap.Bijection` | examples/map.rs:44-51 | without panics, the index is a bijection between its keys and the stored tasks whose key was not taken |
| `StreamMaps.StreamMap.StaleKey` | examples/map.rs:88-104 | a key has lost its task if and only if the task panicked |
| `StreamMaps.KeepStaleKey` | examples/map.rs:88-104 | an insertion and a poll that leave a key whose task is gone |
| `ReferenceTheorems.RunConserves` | src/selector/waker.rs:32-58 | in every run a strong count is the number of ids and owned wakers, plus one each for the list or `Removed`, for `poll_next`, and for the queue or the thread that enqueues; and the queue's own count is one for the receiver and one for each thread from its upgrade to the end of its enqueue |
| `ReferenceTheorems.RefInvStep` | src/queue.rs:281-300 | every step keeps the counts right: push, clones and drops, wakes by value and by reference that win or lose the flag, upgrades that succeed or fail, the clone of the node, each atomic of the enqueue, dequeue, release, retirement, removal, the drop of the receiver and of each reference to the queue |
| `ReferenceTheorems.QueueDropsAtRest` | src/queue.rs:207-255 | in every run the queue is dropped exactly when the count of its references gets to zero, and then no thread is in `enqueue_inner`, though some may be between the swap of a flag and an upgrade that will fail |
| `ReferenceSteps.LastOwnerIsAlone` | src/queue.rs:285-287 | that follows from the count |
| `ReferenceSteps.UpgradeFails` | src/queue.rs:281-300 | an upgrade after the drop of the queue leaves the flag set, drops the reference if it is the thread's own, and keeps the counts right |
| `ReferenceSteps.LetGoKeeps` | src/queue.rs:207-255 | with the last reference to the queue exactly the references of the waiting nodes go |
| `ReferenceTheorems.PointersAreLive` | src/queue.rs:193-204 | whatever raw pointer some thread is about to follow, the queue is there, and with it the stub, and if it leads to a node, that node has a reference left |
| `ReferenceTheorems.BorrowedIsLive` | src/queue.rs:293-300 | the node of a thread that is about to upgrade or to clone it has a reference left |
| `ReferenceTheorems.ReferencedIsLive` | src/queue.rs:193-204 | a node that is stored, or has an id or waker, or is in the queue, on its way or just dequeued while the queue is there, is not freed |
| `ReferenceTheorems.UnreferencedIsFreed` | src/selector.rs:41-49 | a removed node without ids and wakers is freed exactly when the queue and the enqueueing threads are done with it |
| `ReferenceTheorems.FreedStaysFreed` | src/selector.rs:41-49 | a freed node stays freed |
| `ReferenceTheorems.WakeEntersUnless` | src/selector/id.rs:26-30 | a wake, undisturbed, enqueues no node if and only if the flag is set or the queue was dropped, whether the task is stored or not |
| `RemovedTasks.RemovedIsEnqueued` | src/selector/id.rs:26-30 | a run in which a wake enqueues the node of a removed task |
| `RemovedTasks.FreedUnobserved` | src/selector.rs:41-49 | a run in which a removed task is freed and the selector is not polled again |
| `Wakers.Nodes.DoClone` | src/selector/waker.rs:32-38 | one reference more |
| `Wakers.Nodes.DoWake` | src/selector/waker.rs:40-44 | with other threads running between any two of its atomics: the flag was set; or the queue is gone at the upgrade; or the node is enqueued; and the thread's steps are those of that case, in that order |
| `Wakers.Nodes.DoWakeByRef` | src/selector/waker.rs:46-51 | the same, with the clone of the node after the upgrade |
| `Wakers.Nodes.DoDrop` | src/selector/waker.rs:53-58 | one reference less |
| `Teardowns.RestingIsLinked` | src/queue.rs:207-247 | with nobody in `enqueue_inner` the links lead from the tail through the whole queue to null |
| `Teardowns.WaitingIsShare` | src/queue.rs:207-247 | at the drop of the queue the references it holds are those of the waiting nodes, one each; the others are the owners' and those of threads whose upgrade will fail |
| `Teardowns.ReleaseAll` | src/queue.rs:213-243 | the loop ends, skips the stub wherever it lies, drops each reference once and follows no pointer afterwards, also when one drop panics |
| `Teardowns.DropQueue` | src/queue.rs:207-255 | in the step that drops the last reference to the queue, in whatever state it finds the threads: exactly the queue's references are released, in the order of the queue; it completes when no drop panics and aborts when two do |
| `Teardowns.ClosedConserves` | src/queue.rs:207-255 | what is left are the references of ids, wakers and the list, and of threads whose upgrade will fail |

## Left out

- Weak memory: all atomics are sequentially consistent, so the choice of Acquire and Release is not examined.
- `AtomicWaker`: a slot that `register` sets and `wake` empties and signals, each in one step.
- Threads: any number, but fixed for a run; a step of an enqueue that loses the flag ends the enqueue.
- Progress: nothing is claimed about when other threads take their steps, so there is no bound on when a wakeup comes.
- Tasks and the state of a strategy: a task is the function from the number of its poll to what that poll does, which covers every behaviour in one run; a strategy's own state is not a value in the model.
- Closures of `retain` and `extract_if`: a predicate of the node; changes a closure makes to a task are not modelled.
- `Contains`: stands for `contains`, `get` and `get_mut`, without the borrow they return.
- `Queues.Receiver.Enqueue`: the upgrade always succeeds, because the receiver is there; upgrades that fail are in `References` and `Wakers`.
- `ReferenceTheorems.RefInvStep`: the counts are kept beside the protocol's state, not in the classes: no member says that `Push`, `Remove`, `PollNext` and `Wake` of `Selector` take the reference steps they stand for; the drop of the queue is one step, and what a thread borrows is anonymous: a reference may be given up when nobody borrows the node or another one is left.
- `TurnTaking.InTurnIff`: the example is a program over `Protocol`; that `Selector` takes exactly these steps is read off its methods, not proved.
- `Selectors.Selector.DropValue`: the nodes that the drop of a value wakes, here, in `Retain` and in `DropSelector`, are not played; a `Wake` after it stands for them.
- Panics while the list or the queue is dropped: a second panic ends the run as an abort; panics of a task's own drop after it was polled are not modelled, but the nodes it wakes are.
- `Iter`, `IterMut`, `Extend`, `FromIterator`: repeated `PopFront`, `PopBack` and `Push`.
- `FutureBasic`, `FutureReclaim` and the strategies with ids: special cases of the stream strategies.
- `src/selector/wrappers.rs`, `Index`, `Debug`, `size_hint`, `with_strategy`: delegation.
- Pinning, `Send` and `Sync`, lifetimes, `MaybeUninit`, pointer tags: matters of types, with no effect when the code runs.
- `examples/custom.rs`, `examples/speed.rs`: network, timers and benchmarks.
