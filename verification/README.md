# A verified model of the gofederation worker

The worker takes events, to-device messages, device list changes, receipts, presence
and typing out of a homeserver and sends them to other servers, one transaction at a
time for each. What has to hold is not in any one function: it lies in how queues,
cursors, claims and tables move together while producers, transmission loops, catch-up
passes, failures and restarts interleave. This project states those properties and
proves them, in Dafny 4.11. `dafny verify dfyconfig.toml` checks all of it.

## How it is laid out

The delivery protocol, hardest first:

- `Protocol` is the manager with all its queues as one state machine: a critical section
  is an action, a send is a begin and an end, and any number of producers, loops, waits
  for a slot and catch-up sends interleave. `ProtocolSafety` has its inductive invariant
  and the conservation theorems; `Wakeups` says exactly when a wakeup is lost.
- `Marks`, `RoomOrder` and `Handover` put a second machine beside it: reads of an outbox
  with deletion by mark, for to-device messages and for device list pokes alike
  (`ToDevice` has the reads themselves), the room goroutines of the pickup loop, and the
  catch-up pass with the table it pages through. `OutageRun` and `HandoverRuns` have runs
  that show where a condition of theirs is needed.
- `QueueSpec` has each critical section of a queue as a function on a value.
  `DestinationQueue` is the class with the fields of the original, each method proved to
  move them as that function does. `TransmissionLoop` (`Run`, proved against the loop as
  a function of what it meets), `Paging` (catch-up), `Manager`, `EventRouting`
  (`handleEvent`) and `Devices` are the code that works on it.
- `Ephemeral` and `DurableUnits` are about what waits in a queue: how receipts and
  presence are merged, and that units standing for table rows never are.
- `Pickup` is the event pickup loop as a class, `PickupRuns` the same loop against
  everything that moves under it. `Grouping` is the split of a batch by room.

The machines around it: `DeviceList`, `HostCache`, `Backoff`, `Replication`, `TypingDiff`,
`HttpRetry`, `ResolveCache`, `Sharding`. `Units`, `Sorting`, `Mentions` and `Arithmetic`
are shared.

Tables are sequences and maps whose contents obey the cited queries. PDU and unit bodies
are opaque, with a flag for whether they encode. Clocks, jitter, answers of remote
servers, read and write failures and cancellation are parameters or actions, so every
theorem is about all of them. Where the original shares objects between goroutines the
machines work on values and the classes on fields, joined by the functions of `QueueSpec`.

## Where the code differs from what it says

- `Run` decides to stop and clears `running` in two critical sections. A call of `Wake` that
  finds the claim taken goes without another look if and only if the holder had already
  decided to stop (`Wakeups.LostWakeIff`), and the clear then strands it if and only if
  `newData` is set, which is what `releaseClaim` checks and the deferred clear does not
  (`Wakeups.ClearingStrandsIff`). `Wakeups.AWakeupCanBeLost` is such a run.
- `TakeCatchUpSkipped` and `FinishCatchUp` are two lock sections, and an event that arrives
  between them is dropped and never sent (`HandoverRuns.TwoSectionsLoseAnEvent`).
  `Handover.FinishLosesExactlyTheWindow` says which events those are, and
  `Handover.FinishLosesIff` that there are any if and only if the skipped mark is above the
  pass's cursor when the finish is made.
- A queue that has not yet read its cursor accepts events live. One delivered before the
  first catch-up pass moves the persisted cursor past rows that are owed
  (`HandoverRuns.LiveSendSkipsAnOwedRow`). A pass leaves such rows behind if and only if
  there are some between the cursor catch-up answered from and the persisted one
  (`Handover.StartPassesOverIff`), and those are exactly the rows catch-up never sends
  (`Handover.CaughtIffNotPassedOver`).
- The long-outage drop removes the waiting units that carry no mark, and no others
  (`ProtocolSafety.DropsTheUnmarked`). Of a read of several rows the mark is on the last
  alone and still authorises deleting them all: `OutageRun.AnUndeliveredMessageIsDeleted`
  ends with a row deleted that nobody was sent. Deleting a row is safe if and only if some
  unit of it that delivery has got past was not dropped (`Marks.DeletionIsSafeIff`).
- A page of device list pokes can end between two pokes of one stream id, and the cursor
  then skips the second: exactly when `Devices.CutsATie` (`Devices.PageIsCompleteIff`).
- The comment in `seed` says a failed read is not cached. It is: the destination is taken
  as clear and its row is not read again (`Backoff.FailedReadIsCached`). A success on such
  a destination also leaves the row as it was, for the next restart to find.
- `HandleRows` submits all starts before all stops, so a user who stops and starts again
  within one batch is left switched off. `TypingDiff.BatchReplaysIff` is the exact condition.
- `isMine` compares what follows the last colon, so with a port in the server name no user
  is ever ours (`TypingDiff.MineIff`).
- An owed event that has a row in `events` and none in `event_json` is put on a page by
  one query and left out by the next. A page of nothing else leaves the catch-up cursor
  where it was, so the pass reads that page until its context ends. A pass can finish if
  and only if, of the rows joined with `events` from its cursor on, the last has its body
  and no fifty in a row lack theirs (`Paging.CatchUp.Destination`, `Paging.PassableNext`);
  `Paging.OneBodilessEvent` is a table that fails.

## Model

| member | source | states |
|---|---|---|
| ProtocolSafety.RunningIsOneHolder | internal/queue/queue.go:325-377 | In every reachable state of producers, loops, cancelled waits and catch-up, a queue's running flag is set exactly when one goroutine holds its claim |
| ProtocolSafety.OneTransactionInFlight | internal/queue/manager.go:125-163 | Two sends in flight are to two different servers: one transaction at a time for each server name, whatever races to create its queue |
| ProtocolSafety.LoopsWithinCapacity | internal/queue/manager.go:200-220 | At most the semaphore's capacity of loops run, and giving a slot back never finds the semaphore empty |
| ProtocolSafety.PDUsConserved | internal/queue/queue.go:280-292 | PDUs accepted since catch-up last restarted are those delivered live since, followed by those waiting; between confirmation and dequeue the confirmed batch is the waiting prefix |
| ProtocolSafety.DequeueRemovesTheBatch | internal/queue/queue.go:717-722 | A dequeue finds the sent batch still in front and removes exactly it, whatever was queued, merged or clobbered during the send |
| ProtocolSafety.DurableUnitsConserved | internal/queue/queue.go:489-541 | Over every run, outages included, each durable unit ever queued has been delivered, waits, or was dropped, exactly one of these; the delivered and the waiting are those units in the order queued, content for content, and a mark is reported only for a delivered unit |
| ProtocolSafety.DropsTheUnmarked | internal/queue/queue.go:617-634 | A step drops a durable unit if and only if it is an outage's drop on that server and the unit waits there unmarked |
| ProtocolSafety.StepKeepsInv | internal/queue/queue.go:390-542 | Every action of the protocol keeps the invariant the results above follow from |
| Wakeups.LoopStopsEmpty | internal/queue/queue.go:477-487 | In every reachable state a loop that has taken nothing stops if and only if newData is clear, and then the queue is empty and no Wake has come since it looked |
| Wakeups.LostWakeIff | internal/queue/queue.go:325-334 | After a Wake that found the claim taken, some continuation has the holder stop for want of work without another look if and only if it had already decided to |
| Wakeups.ClearingStrandsIff | internal/queue/queue.go:391-395 | In every reachable state, when a loop that has looked clears running, a Wake is left with nobody running or about to wake if and only if one has come since the look, and then newData is set; once whatever was queued has been announced, newData alone decides |
| Wakeups.CatchUpHandsOn | internal/queue/queue.go:368-377 | The release after a catch-up send wakes the loop exactly when newData is set, and strands nothing |
| Wakeups.AWakeupCanBeLost | internal/queue/queue.go:391-395 | A reachable state in which an event waits, its wakeup was given, and no goroutine runs or is about to |
| DurableUnits.EnqueueAtCut | internal/queue/ephemeral.go:31-140 | Wherever the queue is cut, an enqueue of any kind leaves the durable units and the marks of both kinds before the cut alone, and adds its own durable unit after all others |
| DurableUnits.MaterialiseKeepsDurable | internal/queue/ephemeral.go:153-175 | What goes on the wire for the durable units of a batch is those units, unaltered and in order |
| DurableUnits.BatchMark | internal/queue/queue.go:596-601 | A mark that a batch reports is the mark of a durable unit in it |
| QueueSpec.MaxMarkIsAMark | internal/queue/queue.go:596-601 | Either mark of a batch is at least every such mark its units carry, and is carried by one of them |
| Marks.DeletionIsSafeIff | internal/sender/devices.go:122-232 | For messages and for device list pokes, with any number of concurrent reads, failures, outage drops, deletions and protocol steps: a row covered by a reported mark, or gone, was queued and delivery has got past it; it was delivered if and only if a unit of it so passed was not dropped, it was delivered or waits if and only if some unit of it was not dropped, and no drop touching it means it was delivered |
| Marks.MarkIsPassed | internal/queue/queue.go:521-528 | Delivery has got past a unit of every row above the startup cursor that a reported mark covers |
| Marks.ReadIsEnough | internal/store/devices.go:32-109 | Whatever a read of either table moves the cursor past is in its units or was queued before, with a full page and with a short one |
| Marks.DeliveredAsItself | internal/sender/devices.go:146-160 | A message's unit, once delivered, was on the wire as the message itself |
| Marks.RunsKeep | internal/sender/devices.go:122-232 | Every run keeps the invariant that ties cursors, marks, units and rows together |
| OutageRun.AnUndeliveredMessageIsDeleted | internal/queue/queue.go:617-634 | A run that ends with a message deleted that no transaction carried and that does not wait |
| RoomOrder.RoomsStayInOrder | internal/sender/sender.go:311-351 | In one process and while no batch fails, however room goroutines, loops and catch-up interleave, across batches, one room's PDUs are delivered live to each server in strictly ascending stream order, and what waits there continues it; catch-up's own sends are not in that line |
| Grouping.ByRoom | internal/sender/sender.go:312-319 | Each room once, in the order the batch first names it, with all of its events and nothing else, in batch order |
| Mentions.FirstNamedInOrder | internal/sender/sender.go:312-319 | In the order of first mention, a name stands before another exactly once and only if it was named before the other ever was |
| Grouping.InRoomAscending | internal/sender/sender.go:308-319 | The events of one room keep the ascending stream order of their batch |
| Grouping.InRoomComplete | internal/sender/sender.go:312-319 | No event of the batch is missing from its room's share |
| Handover.HandoverIsComplete | internal/sender/catchup.go:198-223 | Once catch-up has finished, over any number of cut-short passes, every recorded event above the cursor was sent, overtaken in its room or unsendable, or is on the live path, but for those dropped in the window of the two-section finish |
| Handover.FinishLosesExactlyTheWindow | internal/sender/catchup.go:216-219 | A finish loses a live, sendable, queued event if and only if it was dropped above the cursor since the skipped mark was taken |
| Handover.FinishLosesIff | internal/sender/catchup.go:211-219 | In every run, a finish leaves some queued event above its cursor with neither sender if and only if the queue's skipped mark is above the cursor of the pass at that moment |
| Handover.CaughtIffNotPassedOver | internal/sender/catchup.go:188-223 | In every finished run, from any cursor, a row above the one the process started from and up to the last that is still its room's newest and sendable was sent by catch-up if and only if no pass started above it, and reaches the server if and only if that or the live path has it |
| Handover.StartPassesOverIff | internal/sender/catchup.go:188-196 | In every run, the start of a pass leaves rows behind if and only if unsent, sendable rows are owed between the cursor catch-up answered from and the persisted one, and exactly those |
| Handover.NothingFallsBetween | internal/queue/queue.go:819-848 | From a known cursor, with the finish as one step, every event recorded above it is settled by catch-up or is with the live path, unless it was recorded and not queued |
| Handover.KnownCursorIsTheStart | internal/sender/catchup.go:188-196 | From a known cursor, what catch-up answers for starts at the cursor persisted at startup |
| Handover.AtomicRunsLoseNothing | internal/sender/catchup.go:211-223 | In runs that take the two sections of the finish as one step nothing is ever lost in the window |
| HandoverRuns.TwoSectionsLoseAnEvent | internal/sender/catchup.go:216-219 | A run of the code as it is that loses an event between the two sections |
| HandoverRuns.LiveSendSkipsAnOwedRow | internal/queue/queue.go:280-292 | A run in which a live send before the first pass moves the cursor past an owed row |
| Paging.CatchUp.Destination | internal/sender/catchup.go:173-271 | Whatever cuts a pass short, it delivered exactly the deliverable rows from its cursor to the persisted one; a finished pass left none; unhindered it finishes if and only if, of the joined rows from its cursor on, the last has its body and no page's worth in a row lack theirs. A pass past its gate with a cursor makes the queue know it, at the larger of the two; one that is not changes nothing; none touches what waits. It finishes only with a read for every page, and one more where the skipped mark was above all, each behind its own gate, and its status names what stopped it |
| Paging.CatchUp.Passes | internal/sender/catchup.go:173-271 | Over any sequence of passes with the queue rebuilt in between, what was delivered has no gap and no repeat |
| Paging.CatchUp.SendPage | internal/sender/catchup.go:229-268 | One page: unloadable rows are absent, unserialisable ones stepped over, the rest sent in order until one is busy or fails |
| Paging.DeliverableAscending | internal/sender/catchup.go:229-268 | What a range of rows delivers is exactly its loadable, serialisable events, once each, in ascending order |
| Paging.PassableNext | internal/sender/catchup.go:205-268 | That condition on the table is the same as every page the pass meets moving it on |
| Paging.BodilessTailBlocks | internal/store/events.go:117-152 | An event in events but not in event_json, when newest of those owed, keeps every pass from finishing |
| Paging.BodilessPageBlocks | internal/store/destinations.go:119-143 | So does a whole page of such events, wherever it lies |
| Paging.OneBodilessEvent | internal/store/events.go:117-152 | A table no pass gets through: one owed event that event_json lacks |
| Paging.LoadableIsPassable | internal/store/destinations.go:119-143 | With every joined row's body in event_json, no page can hold a pass up |
| Paging.LastLoadableIsLast | internal/sender/catchup.go:225-268 | The cursor gets exactly to the last row of a page that loads, and stays when none does |
| TransmissionLoop.Run | internal/queue/queue.go:390-542 | Moves the queue and sends what the loop as a function does, whatever the backoff gate, the remote and the producers do; so events and durable units leave only in a delivered transaction, and what was delivered then what waits is what waited then what arrived |
| TransmissionLoop.RunKeeps | internal/queue/queue.go:390-542 | Over every run each transaction is within the limits and made of queued units, with the largest marks among them; the cursor is that of what was delivered; a drained loop leaves nothing and no word, a long outage only marked units, and one that holds back has no PDU waiting and nothing but presence |
| TransmissionLoop.RunKeepsDurable | internal/queue/queue.go:489-541 | Over every run, durable units delivered then those waiting are those that waited then those that arrived, but that a long outage drops the unmarked of those waiting |
| TransmissionLoop.DeliveredAsQueued | internal/queue/queue.go:577-604 | What a run delivers of the durable units is on the wire unaltered and in order, and every mark it reports was carried by one of them |
| TransmissionLoop.ArriveAtCut | internal/queue/queue.go:280-305 | Arrivals during a send leave the durable units of the transaction in flight alone and line up behind the rest |
| TransmissionLoop.Attempt | internal/queue/queue.go:448-541 | One turn past the backoff gate, to the whole state of the queue: nothing is removed unless the send was confirmed |
| TransmissionLoop.Prepare | internal/queue/queue.go:448-475 | One critical section clears newData and copies exactly what takeLocked gives, or says which of the reasons there was not to: nothing waits, only a few states of presence do, or a unit does not encode |
| TransmissionLoop.TurnSendsIff | internal/queue/queue.go:448-528 | A turn delivers a transaction if and only if it is due, something waits, none of what the limits let go fails to encode, the answer is good, and it is not held back, which takes a queue of presence alone with fewer states than the batch; and then one, of as much as the limits allow |
| TransmissionLoop.TurnEndsBecause | internal/queue/queue.go:405-541 | Which of its endings a turn comes to, case by case, and that a good answer ends nothing |
| TransmissionLoop.TurnLeaves | internal/queue/queue.go:489-541 | Short of a long outage a turn leaves what waited, with what arrived enqueued on it, but for what it delivered, taken off the front |
| TransmissionLoop.MarksAreReported | internal/queue/queue.go:521-528 | The reports of a run are the marks of each delivered transaction that has one, and no others |
| TransmissionLoop.CursorIsGreatest | internal/queue/queue.go:489-520 | The cursor a run leaves is at least the last event of every transaction, and is one of these or where it started |
| DestinationQueue.Destination.EnqueuePDU | internal/queue/queue.go:280-292 | While catching up from a known cursor the event only raises the skipped mark; otherwise it is appended and announced |
| DestinationQueue.Destination.EnqueueMarkedEDU | internal/queue/queue.go:300-305 | Appended as it is, and announced |
| DestinationQueue.Destination.EnqueueKeyedEDU | internal/queue/ephemeral.go:31-43 | Replaces the first waiting unit of the same key and kind in place, or is appended |
| DestinationQueue.Destination.EnqueueReceipt | internal/queue/ephemeral.go:57-92 | Merges into the first receipt unit where the slot is free or holds the same thread, or starts a new one |
| DestinationQueue.Destination.EnqueuePresence | internal/queue/ephemeral.go:117-140 | Merges into the first presence unit that has the user or room for one, or starts a new one |
| DestinationQueue.Destination.TryStart | internal/queue/queue.go:325-334 | Wins the claim, or leaves newData set for the holder |
| DestinationQueue.Destination.Claim | internal/queue/queue.go:350-358 | Wins the claim, or changes nothing |
| DestinationQueue.Destination.ReleaseClaim | internal/queue/queue.go:368-377 | Gives the claim up and asks for a wakeup exactly when data arrived meanwhile |
| DestinationQueue.Destination.TakeLocked | internal/queue/queue.go:577-604 | Copies the prefix the limits allow with the maxima of its marks and removes nothing; fails whole when a unit does not encode |
| DestinationQueue.Destination.Dequeue | internal/queue/queue.go:717-722 | Removes a prefix of each list by count |
| DestinationQueue.Destination.DropEphemeralEDUs | internal/queue/queue.go:617-634 | Keeps exactly the marked units, in order, and counts the others |
| DestinationQueue.Destination.SetLastSuccessfulStreamOrdering | internal/queue/queue.go:802-809 | The cursor never moves back and is known from then on |
| DestinationQueue.Destination.RestartCatchUp | internal/queue/queue.go:833-838 | Catching up again, with the waiting PDUs given over to it |
| DestinationQueue.Destination.TakeCatchUpSkipped | internal/queue/queue.go:842-848 | Hands out the skipped mark and clears it |
| DestinationQueue.Destination.SendCatchUp | internal/queue/queue.go:856-886 | Busy without a send when claimed; otherwise the claim is held over one send, only a delivered one moves the cursor, and the claim is back |
| Manager.Manager.GetOrCreate | internal/queue/manager.go:133-162 | A queue that is there by the time of the second lock is the one returned; otherwise a new one that assumes it is behind |
| Manager.Manager.Get | internal/queue/manager.go:125-163 | Raced or not, the name ends with one queue, and no existing queue is replaced |
| Manager.Manager.Loop | internal/queue/manager.go:208-219 | The goroutine of a wakeup gives back claim and slot however it ends; cancelled while waiting it sends nothing and changes nothing else, and run, it leaves events and units as Run does |
| EventRouting.Router.HandleEvent | internal/sender/event.go:24-154 | Nothing is queued that is not recorded first; it errs exactly when a call it reaches fails, which leaves every queue as it was; an event not eligible or without a body changes nothing; otherwise the due destinations of our share, and no others, get the event, and it counts as sent if there was one |
| EventRouting.RecordedIsOwed | internal/state/state.go:232-257 | After recording, each destination's row for the room is the event's own ordering, or what it was if that was already as far; no other row changed and none appeared |
| EventRouting.RecordedNamesEvents | internal/state/state.go:232-257 | If every row named a recorded event before, every row does after, and none went back |
| EventRouting.HandedIs | internal/sender/event.go:141-146 | Handing an event over, field by field: appended, or given to catch-up by the skipped mark alone; the claim is held after it, and a holder that was there finds newData set |
| Ephemeral.EnqueueUpdatesReceipts | internal/queue/ephemeral.go:57-92 | An enqueue is one update of the map from room, type, user and thread to content, and other kinds leave it alone |
| Ephemeral.ReceiptEDUsAreMinimal | internal/queue/ephemeral.go:45-92 | The number of waiting receipt units is exactly the largest number of threads on one slot |
| Ephemeral.EnqueueKeepsReceiptShape | internal/queue/ephemeral.go:57-92 | Across waiting receipt units the threads of a slot stay distinct and the slot sets nested |
| Ephemeral.SuffixKeepsReceiptShape | internal/queue/queue.go:717-722 | A dequeue of a prefix keeps the receipt shape |
| Ephemeral.DequeueSplitsReceipts | internal/queue/queue.go:717-722 | Each receipt is in the prefix taken or in what is left, never both |
| Ephemeral.EnqueueUpdatesPresence | internal/queue/ephemeral.go:117-140 | An enqueue is one update of the map from user to latest state, and other kinds leave it alone |
| Ephemeral.PresenceIsPacked | internal/queue/ephemeral.go:117-140 | n users wait in exactly ceil(n / 50) presence units |
| Ephemeral.EnqueueKeepsPresenceShape | internal/queue/ephemeral.go:117-140 | Each user is in one presence unit and all but the last are full, whatever other kinds interleave |
| Ephemeral.MergingIsTight | internal/queue/ephemeral.go:57-140 | Over every run of enqueues, prefix dequeues and outage drops, receipts and presence occupy the fewest units |
| Ephemeral.StatesAreUsers | internal/queue/queue.go:654-664 | The states counted towards ending a hold are as many as the users whose presence waits |
| Ephemeral.KeyedReplacesFirst | internal/queue/ephemeral.go:31-43 | A keyed unit takes the place of the first with its key and kind, keeping all else there, or goes to the end |
| Ephemeral.ReceiptsOnTheWire | internal/queue/ephemeral.go:153-175 | A merged receipt unit goes out with the content of each room, type and user it holds and no other, whatever the thread |
| Ephemeral.OthersOnTheWire | internal/queue/ephemeral.go:153-175 | Presence goes out as the latest state of each user, and any other unit as it was queued |
| Ephemeral.EncodableIff | internal/queue/ephemeral.go:153-175 | A unit fails to encode if and only if some state, or some receipt's content, in it is not JSON |
| Pickup.PageIsAWindow | internal/store/events.go:29-61 | A page is exactly the rows from the cursor to where the next one resumes, at most the limit of them, and all there are when fewer |
| Pickup.Sender.NotifyNewEvents | internal/sender/sender.go:140-152 | The newest poke only rises, and a wakeup is pending after it |
| Pickup.Sender.ProcessBatch | internal/sender/sender.go:234-304 | A batch that fails anywhere has handled the held events up to the cursor it leaves, and some past it that it will meet again; it fails exactly when a call it reaches does; a good one moves the cursor, and reports more exactly below the poke; the position recorded is the cursor after a good page with rows, and nothing else writes it |
| Pickup.Sender.ProcessAll | internal/sender/sender.go:206-230 | Terminates for a fixed poke; when it succeeds the cursor is at the poke, the held events passed were handled, and nothing was handled more than once; failed or not, every event held from the first cursor to a position it recorded was handled |
| Pickup.WindowSplits | internal/store/events.go:29-61 | Consecutive windows neither overlap nor leave anything out |
| PickupRuns.NothingIsPassedOver | internal/sender/sender.go:234-304 | Against inserts, purges, pokes, failures and restarts at every point, an event still held between the first cursor and the saved one was handled, and exactly once when nothing failed |
| PickupRuns.RecordedWasHandled | internal/sender/sender.go:295-299 | Over the same runs, an event still held behind the position last recorded was handled, and that position is not past the cursor |
| PickupRuns.NothingIsHandledTwice | internal/sender/sender.go:234-304 | While nothing failed no event is handled twice, nor one outside what the cursor covered or the batch in hand is covering |
| PickupRuns.IdleHasCaughtUp | internal/sender/sender.go:140-173 | Idle after a good pass, no wakeup pending and no notifier halfway: the cursor has reached the newest poke and everything held up to it was handled |
| PickupRuns.RunsKeep | internal/state/state.go:187-204 | Over every run the saved cursor never moves back |
| DeviceList.BuildDeviceListEDUs | internal/sender/devicelist.go:30-165 | Each user's updates are a chain in stream order of exactly the user's plain pokes, key pokes are folded into one pair of units a user, the mark is the maximum of start and pokes; it fails whole, and only for a failed read or a body that does not encode |
| DeviceList.UpdatesAreChained | internal/sender/devicelist.go:94-142 | The first update names the last one delivered, each later one its predecessor |
| DeviceList.SignedIsFolded | internal/sender/devicelist.go:168-179 | A user has key units exactly when a key poke says so, and each field is the data of the newest such poke of its type, absent only when there is none |
| DeviceList.HighestIsMax | internal/sender/devicelist.go:75-141 | The mark is at least the start and every poke, and is one of them |
| DeviceList.SomethingToCarryTheMark | internal/sender/devicelist.go:97-161 | Any poke leaves at least one unit, so the mark is never lost |
| DeviceList.ByUser | internal/sender/devicelist.go:65-72 | Each user once, in the order the read first names them, with all of their pokes |
| DeviceList.ForUser | internal/sender/devicelist.go:81-143 | One user's pokes in stream order build the chain, the folded keys and the mark |
| DeviceList.BuildPairs | internal/sender/devicelist.go:150-162 | The pairs come in user order, stable unit then legacy one, with the same content |
| Sorting.SortedKeys | internal/sender/devicelist.go:183-190 | Every key once, strictly ascending |
| Sorting.AscendingIsUnique | internal/sender/devicelist.go:181-190 | The order of emission is determined by the keys alone |
| Sorting.BeforeIff | internal/sender/devicelist.go:183-190 | One name is before another if it is a proper prefix, or smaller where they first differ |
| Devices.Devices.ToDeviceFor | internal/sender/devices.go:122-168 | A read queues one unit a row with the mark on the last and moves this server's cursor to where the read resumes, never back, and no other; a failed read changes nothing, a failed cursor write has queued and will read again |
| Devices.Devices.DeviceListsFor | internal/sender/devices.go:201-232 | What is queued is what the page builds, the mark is its highest id, and this server's cursor moves just there, never back, and no other; an empty page moves it to the current id; with no fault it fails only for a body that does not encode |
| Devices.Devices.ToDevicePokes | internal/sender/devices.go:122-168 | One poke after another, whatever reads fail: what is queued is every row the cursor passes, in order and once, and no other cursor moves |
| ToDevice.ReadIsAWindow | internal/store/devices.go:32-67 | A read of messages is the rows of its range up to where it says to resume, at most the limit, and all of them when fewer |
| ToDevice.ReadListsIsAWindow | internal/store/devices.go:83-109 | So is a read of pokes, where no two share a stream id |
| ToDevice.ReadsTakeEachOnce | internal/store/devices.go:32-109 | Any sequence of reads, each from the cursor the last one left, takes every row the cursor passes, in order and once |
| Devices.PageIsCompleteIff | internal/store/devices.go:83-109 | No poke up to the page's highest id is outside the page if and only if the limit does not cut between two pokes of one stream id |
| Devices.MessagesArePlanned | internal/sender/devices.go:122-168 | What a read of messages queues is what the deletion theorem asks of a read |
| Devices.ListsArePlanned | internal/sender/devices.go:201-232 | What a read of device list pokes queues stands for all of the page's pokes with the mark on the last, as the deletion theorem asks |
| Devices.PageIsTheRead | internal/store/devices.go:83-109 | The page of pokes, and where the cursor goes after it, are the read that the deletion theorem is about, row for row |
| Devices.HighestIsNext | internal/sender/devices.go:222-232 | The mark of such a read is the id of the page's last row, where the cursor goes |
| Devices.MarkIsOnTheLast | internal/sender/devices.go:222-228 | Only the last unit of a read carries the mark, and a transaction with the whole read reports it |
| HostCache.CachedIsMostRecent | internal/destinations/hostcache.go:97-125 | Over any run of hits, misses and late puts, what is cached is exactly the most recently touched distinct groups that fit, in order of recency |
| HostCache.LastSeenIsDistinct | internal/destinations/hostcache.go:97-125 | The reference order of recency holds each touched group once |
| HostCache.CachedRoomHosts.JoinedHostsAtStateGroup | internal/destinations/hostcache.go:74-95 | Every answer is the direct lookup's, in storage that no cached entry holds; a failed read caches nothing |
| HostCache.CachedRoomHosts.Get | internal/destinations/hostcache.go:97-109 | A hit moves the group to the front and copies; a miss changes nothing; map and list stay in step |
| HostCache.CachedRoomHosts.Put | internal/destinations/hostcache.go:111-125 | The group is in front, and what no longer fits is gone from map and list alike |
| Backoff.IntervalsGrow | internal/retry/retry.go:294-329 | Consecutive failures give intervals that never shrink and stay between the bounds |
| Backoff.IntervalsBounded | internal/retry/retry.go:304-315 | The n-th interval is at most min * (1.4 * multiplier)^(n-1) |
| Backoff.ReachesMaxIff | internal/retry/retry.go:304-315 | Every run of failures reaches the longest interval if and only if the slowest first step is a whole millisecond |
| Backoff.ReachesMax | internal/retry/retry.go:304-315 | How many failures suffice, and that the interval stays there |
| Backoff.OutcomesDecide | internal/retry/retry.go:154-173 | Once a destination is known, its timings are what its outcomes alone make them: rate limits and late reads, wherever they fall, change nothing |
| Backoff.OutageKeepsItsStart | internal/retry/retry.go:303-322 | Through a run of failures the start of the outage stays, and the interval is the grown one |
| Backoff.CooldownDoubles | internal/retry/retry.go:158-172 | Unhinted rate limits wait five seconds, doubling up to five minutes |
| Backoff.BacksOffUntil | internal/retry/retry.go:185-213 | After a failure a destination is due if and only if its interval has gone by, and after a success at once; the start of an outage is the first failure's time |
| Backoff.HintIsTaken | internal/retry/retry.go:154-173 | A hinted wait is the hint up to five minutes, whatever went before, and the timings stay |
| Backoff.StepKeepsAgreement | internal/retry/retry.go:220-275 | Memory and row agree after each operation, except when an unread destination in backoff has a failed read or a success |
| Backoff.FailedReadIsCached | internal/retry/retry.go:222-237 | A failed read is cached as a clear destination, and a success leaves its old row |
| Backoff.Limiter.Fail | internal/retry/retry.go:294-329 | Grows this destination's interval from what is known, keeps the start of the outage, and touches no other destination |
| Backoff.Limiter.Success | internal/retry/retry.go:252-275 | Clears the destination, and writes and announces only one that was backing off |
| Backoff.Limiter.Recovered | internal/retry/retry.go:353-387 | Clears a destination that could not be reached; one that answers is kept, capped at an hour |
| Backoff.Limiter.RateLimited | internal/retry/retry.go:154-173 | Sets a capped cooldown and leaves the timings alone |
| Backoff.Limiter.Seed | internal/retry/retry.go:229-237 | A late read never replaces what is recorded |
| Backoff.Limiter.DueWithin | internal/retry/retry.go:185-213 | The row is read at most once; the slack stretches the backoff and never a cooldown |
| Replication.NothingLostInBatching | internal/replication/replication.go:328-382 | Between losses of the subscription, for every interleaving of streams, rows handed over then rows buffered are the accepted foreign rows in arrival order |
| Replication.OneBatchPerToken | internal/replication/replication.go:353-381 | Each numeric token makes exactly one batch, in order, all of whose rows carry its position and stream |
| Replication.PositionIsTheGreatest | internal/replication/replication.go:174-182 | A stream's position is the greatest of all seeds, tokens and positions, never falls, and survives a loss of the subscription |
| Replication.RDataRoundTrip | internal/replication/replication.go:309-340 | A row line is read back as it was written: only the JSON may hold spaces |
| Replication.PositionRoundTrip | internal/replication/replication.go:392-417 | A position line is read back as it was written, whatever the position before it |
| Replication.ServerUpRoundTrip | internal/replication/replication.go:309-325 | So is the news that a server is up |
| Replication.IntRoundTrip | internal/replication/replication.go:353-357 | A number in decimal is read back if and only if it fits 64 bits, either sign |
| Replication.EventsAreAnnounced | internal/replication/replication.go:264-417 | What each line, subscription and loss calls, exactly, and what the subscriber answers for live during and after it |
| Replication.Subscriber.HandleLine | internal/replication/replication.go:309-325 | A raw line moves the subscriber exactly as its parse does, malformed lines not at all |
| Replication.Subscriber.HandleRData | internal/replication/replication.go:328-382 | Buffers, or flushes the buffer and itself with the position on every row; our own echo and bad tokens are ignored |
| Replication.Subscriber.HandlePosition | internal/replication/replication.go:392-417 | Raises the position, never lowers it |
| Replication.Subscriber.Seed | internal/replication/replication.go:174-182 | Every seed is a lower bound, in whatever order they are met |
| Replication.Subscriber.SetLive | internal/replication/replication.go:288-303 | A loss empties every buffer and is announced once |
| Replication.Subscriber.Connected | internal/replication/replication.go:264-272 | Live from the subscription on, then announced |
| TypingDiff.ReplayIsTyping | internal/sender/typing.go:145-238 | With a row a room in a batch, each member's starts and stops alternate, beginning with a start, and who is shown as typing is exactly who the remembered sets have |
| TypingDiff.RoomsAreLatest | internal/sender/typing.go:198-216 | The remembered set of a room is that of its latest row since the writer last went backwards; no empty set is kept |
| TypingDiff.BatchReplaysIff | internal/sender/typing.go:145-153 | For any batch, what is shown is right for a member if and only if the member does not both stop in it and type at its end |
| TypingDiff.StopsIff | internal/sender/typing.go:198-230 | A member stops in a batch if and only if it is ours and some row of its room leaves it out while the rows before had it typing there |
| TypingDiff.TwoRowsLoseAStart | internal/sender/typing.go:145-153 | A batch of two rows that leaves a typing user switched off |
| TypingDiff.MineIff | internal/sender/typing.go:325-332 | A user is ours if and only if the id ends in a colon and the server name, and the name has no colon of its own |
| TypingDiff.IsMine | internal/sender/typing.go:325-332 | The backward search finds the last colon |
| TypingDiff.Typing.Diff | internal/sender/typing.go:190-238 | A backwards token starts from nothing; starts and stops are exactly the changes, sorted; who stops is no longer kept alive, and everybody else's time stays |
| TypingDiff.Typing.HandleRows | internal/sender/typing.go:145-184 | Every start is offered to the bounded queue before every stop, and what does not fit is dropped from the end |
| TypingDiff.SortMembers | internal/sender/typing.go:334-341 | Sorted by room and user, nothing lost or added |
| TypingDiff.MembersAreOrdered | internal/sender/typing.go:334-341 | Sorted is by room, and within a room by user |
| HttpRetry.BackoffIsCapped | internal/sink/http.go:336-347 | For every attempt number the delay before jitter is min(4^attempt seconds, cap) with no int64 overflow |
| HttpRetry.ShiftFitsIff | internal/sink/http.go:328-336 | The int64 shift and product give 4^attempt seconds if and only if the attempt is within the guard |
| HttpRetry.WaitBounds | internal/sink/http.go:338-347 | With jitter the wait is within 0.8 and 1.4 of that delay |
| HttpRetry.HTTP.Send | internal/sink/http.go:173-234 | At most retries + 1 attempts and two answered 429; it stops at the first final attempt, or one cancelled after, and no earlier; the error is that attempt's own or wraps it; each wait is the hint or the backoff, and there is one before each retry and no other; nothing is tried after a cancellation |
| HttpRetry.FinalIff | internal/sink/http.go:173-330 | An attempt is final if it is the last, the second answered 429, or came to anything but silence, a cut body, a 5xx or a 429; delivered is a 200 |
| HttpRetry.WaitAfterIs | internal/sink/http.go:338-379 | A wait is the hint of a 429 that gives one, and otherwise within the jitter of 4^attempt seconds or the cap |
| HttpRetry.UncutMeans | internal/sink/http.go:173-234 | What Send says of cancellation: none was seen after any earlier attempt or in any earlier wait |
| HttpRetry.HTTP.RateLimitDelay | internal/sink/http.go:367-379 | A second rate limit ends the retries, a hint replaces the backoff, anything else keeps it |
| HttpRetry.ErrorSays | internal/sink/http.go:398-425 | Wrapped or not, an error is answered or rate limited exactly as its attempt was |
| HttpRetry.RetryAfterIsCapped | internal/sink/http.go:454-472 | No hint waits more than a minute, and one that fits is taken as it is |
| ResolveCache.SweepingIsInvisible | internal/sink/resolvecache.go:99-171 | On a clock that does not go back a cache that sweeps answers every load of every run as one that never does |
| ResolveCache.SweepShowsIff | internal/sink/resolvecache.go:156-171 | A sweep is seen by somebody who asks at a given time if and only if it was due and something expired between then and the sweep |
| ResolveCache.LifetimeBounds | internal/sink/resolvecache.go:106-131 | What is stored expires within the policy for how it was reached, widened by the jitter |
| ResolveCache.LifetimeIs | internal/sink/resolvecache.go:99-131 | How long each resolution is kept, in seconds, by how it was reached and what the server did before |
| ResolveCache.SweepIsDue | internal/sink/resolvecache.go:156-171 | A sweep happens five minutes after the last or later, keeps what is live of both maps, and otherwise nothing changes |
| ResolveCache.ResolutionCache.StoreResolution | internal/sink/resolvecache.go:99-134 | Stores with the policy's lifetime, remembers a delegation, and sweeps when due |
| ResolveCache.ResolutionCache.LoadResolution | internal/sink/resolvecache.go:139-153 | Hands out nothing expired and forgets what is |
| ResolveCache.ResolutionCache.Sweep | internal/sink/resolvecache.go:156-171 | At most once a period, drops exactly what has expired from both maps |
| Sharding.ReversedIsLittleEndian | internal/sharding/sharding.go:70-76 | For any bytes, the reversed digest read big-endian is the digest read little-endian |
| Sharding.Config.GetInstance | internal/sharding/sharding.go:59-79 | The instance at the little-endian value modulo the number of instances; none configured is nobody |
| Sharding.Config.ShouldHandle | internal/sharding/sharding.go:41-46 | True exactly for the owner, and for nobody when none is configured |
| Sharding.ExactlyOneHandles | internal/sharding/sharding.go:41-79 | Each destination is handled by exactly one instance of the list |

## Left out

- SQL, pgx, Redis, TLS, server discovery, JSON, canonical JSON and signing: tables are values that obey the cited queries, bodies are opaque, and whether one encodes is a flag.
- Timers and liveness: how long a presence hold has left is an input of each turn; a hold, a flush timer or a rate-limit retry only ever adds a wakeup, which is an action here; that one comes is not claimed.
- Events that commit with an ordering below one already handed out: the pickup loop and catch-up take orderings as recorded in increasing order.
- Floating point: backoff and jitter are over the reals with a floor. Jitter on a delay so long that it would leave int64 is not treated.
- Persisting of backoff rows is one step with the change in memory. The original writes after unlocking, so two writes may land in either order.
- Strings compare by their characters, which is the order of sort.Strings for ASCII; spaces beyond Latin-1 do not separate fields.
- `KeepAlive`, the metrics, the observers, the capture files, configuration loading, the sweep over destinations and the command-line tools: plumbing, or members that follow from those here.
- A clock that goes back: the resolution cache reads a monotonic one. ResolveCache.SweepShowsIff says what it would take for a sweep to be seen.
- The host callbacks of typing pushes: which servers a push goes to is not part of this model.
- Handover.HandoverIsComplete: runs with RestartCatchUp after startup are not among its runs, orderings are recorded in increasing order, and no recorded event is purged or without its body. A catch-up send's cursor update, its persisting and its release are one step; a live send persists its cursor before the batch leaves the queue, where the code dequeues first.
- Marks.DeletionIsSafeIff: covers one process lifetime, since device cursors advance on the read and the queue is not kept; rows have ascending ids, so for pokes one stream id each (PageIsCompleteIff says what a tie does).
- RoomOrder.RoomsStayInOrder: runs start with empty queues and no batch in them fails, since a batch tried again after an error, or by the next process, queues its rooms' events again. It is about live deliveries. Catch-up sends a room's newest event and may be followed by an older one that still waited, so no order is claimed of the two together.
- ProtocolSafety.DurableUnitsConserved: content is followed for durable units only. Keyed, receipt and presence units may be changed in place while their old content is in flight and are then dequeued by position, so the same claim is false of them.
- HostCache.CachedRoomHosts.Get: the linked list is a sequence of the entry objects; its node pointers are not part of this model.
- TransmissionLoop.Run: producers act at the points where the loop has let go of its lock; every finer interleaving is in Protocol.
- Manager.Manager.Loop: waiting for a slot is stated as a precondition, since blocking is Protocol's GetSlot.
- DeviceList.BuildDeviceListEDUs: with equal stream ids the order is the sort's own choice, so the chain is stated for some ascending order of the pokes.
