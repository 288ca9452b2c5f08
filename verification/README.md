# The ARM side of the VCHIQ interface, in Dafny

The ARM host and the VideoCore exchange messages through 4 KiB slots of shared memory. Each side writes into its own
slots and publishes a byte position; the other side parses up to it. On top of that come services with ports, quotas
on the slots data messages may use, a message ring per service and one completion ring for all, and an event with the
flags "armed" and "fired" that tells a side that there is something to do. This project models all of it and proves
what it is for: messages arrive complete and in order, whatever the interleaving.

The project has two layers.

* **Specifications and theorems**, on values: one function per operation, one step function per system, and lemmas
  over every run.
  * The byte stream: `SlotMessage`, `Slots`, `Transport`, `RoundTrip`, `Variants`; set-up: `SlotZero`.
  * Services, sending and quotas: `Service`, `State`, `System`, `Lifecycle`, `Trace`, `Outgoing`, `LostOpen`, `Quota`,
    `QuotaWaits`; what each call comes to, told from the history: `Opening`, `Waits`, `Answers`, `Sending`.
  * The rings: `Rings`, `Worlds`, `MessageRings`, `Notifications`, `Announcements`.
  * Everything composed: `EndToEnd`, `Dispatching`, `HostRings`, `MissedFrame`.
  * The event, one memory access at a time: `Handshake`.
* **The code's own form**: classes with fields updated in place, loops and object tables, every method proved equal to
  the function of the first layer. `SlotObjects`, `ServiceObjects`, `StateObjects`, `ClientCalls`, `RingObjects`, and
  the classes of `SlotZero` and `Handshake`.

`dafny verify dfyconfig.toml` checks the whole project.

## Where the code departs from its comments

The code is modelled in both readings where they differ, `AsWritten` and `AsDocumented`. Writer and reader have a reading
each: the host's writer (`State.writer`), and both ends of the incoming direction (`Channel.writer`, `Channel.lookup`).
Services, quotas, grammar and both rings are proved for every combination. What depends on the reading is stated with
the exact condition under which the code as written is right, one that a caller could check.

* **Padding position.** src/vchiq/state.rs:149 says that `tx_data` is where the next message could be written, but
  line 1004 leaves it at the start of the last message, and lines 921-932 store padding there. As written, a padding
  overwrites the message before it: `Variants.PaddingHarmlessIff` gives the exact condition, and `LostOpen.OpenIsLost`
  a run of the host, from its first call on, in which the OPEN of a service is lost.
* **The reader's fresh slot.** src/vchiq/slothandler.rs:41-45 looks up the slot of the published position, the comment
  at src/vchiq/state.rs:156-158 speaks of the reader's own. `Variants.PollAsWrittenIff` says exactly when the code reads
  what was written, and `MissedFrame.FrameIsMissed` is a run of the host, from its first call on, in which a service is
  handed its second message twice instead of its first.
* **Full rings.** Where the comments at src/vchiq/instance/mod.rs:328-343 and src/vchiq/instance/completion.rs:60-69
  speak of waiting, the code writes over the oldest entry, and a reader that comes to the emptied cell panics on
  `.take().unwrap()` (src/vchiq/instance/mod.rs:237-244 and 278-306). That is what is modelled. Per run:
  `MessageRings.DequeuesSucceedIff` says that all later dequeues succeed if and only if no callback of the run met a
  full message ring, `MessageRings.MessagesInOrderIff` the same of the order of messages, and
  `Notifications.DrainsSucceedIff` that all later drains succeed if and only if no callback posted to a full completion
  ring. Over all runs: `Notifications.NeverOverflowsIff` has 128 services as the exact bound for the completion ring.
  `MessageRings.NeglectedLoses` and `Notifications.CrowdedLoses` are runs that fill a ring, lose an entry and panic.
* **The doorbell handler.** src/vchiq/doorbell.rs:49 has the call that would signal the events commented out.
  `Handshake` has a parameter for it: no wakeup is lost if and only if the handler signals the event. In the code as it
  is a lost wakeup lasts until the next poll only, because a pending poll wakes its own task
  (src/vchiq/shared/event.rs:128-131); it would last for ever if that were changed as the remark there proposes.
* **The number of slots.** Nothing checks that the local data slots fit the 64 entries of the slot queue;
  `SlotZero.SlotZeroAccessor.Initialize` succeeds exactly for 4 to 130 slots.

## How to read the model

A *step* is one poll of a future or one call, and runs without interruption; in `Handshake` a step is a single memory
access. A step function yields `None` where the code would panic, reach a `todo!()`, wait for ever, or where the
operation is not the client's turn: a client calls close only after its open has returned. Exactly when a step yields
`None` is stated by `Opening.ConnectDecides`, `Opening.CreateDecides`, `Sending.SendDecides`,
`Answers.CloseReturnsAtOnceIff`, `Dispatching.PollFailsIff`, `MessageRings.DequeuesSucceedIff` and
`Notifications.DrainsSucceedIff`. Theorems hold of every run of steps of any length. `Sent`, `log`, `accepted`, `posted` and similar fields are histories that no step reads.
Callers must keep message strides within 4096 bytes, since no code checks it. Both directions use the same memory;
`SlotZero.DirectionsAreSeparate` is why the end-to-end model may keep a memory for each. `SafeRun` says of a run that
no padding overwrites a message and no slot already full is entered; with both readings as documented it holds of
every run (`RoundTrip.DocumentedIsSafe`, `EndToEnd.DocumentedIsSafe`).

## Model

| member | source | states |
|---|---|---|
| SlotMessage.MsgIdRoundTrip | src/vchiq/shared/slotmessage.rs:122-138 | type, source and destination port are all recovered from a message id if and only if both ports are below 4096 |
| SlotMessage.TypeSurvives | src/vchiq/shared/slotmessage.rs:122-130 | the type is recovered even when the destination is the free port 0x1000, which spills into the source port only |
| SlotMessage.CalcMsgStride | src/vchiq/shared/slotmessage.rs:141-146 | the stride is a multiple of 8 at least as large as header and payload, by less than 8 |
| SlotMessage.StrideIsLeast | src/vchiq/state.rs:926-935 | no smaller multiple of 8 would do, and a padding of the space left minus 8 fills that space exactly |
| SlotMessage.IdLayout | src/vchiq/shared/slotmessage.rs:50-65 | a message id holds the number of the type, in the declared order, above 24 bits, the source port above 12, and the destination port |
| SlotMessage.HeaderLayout | src/vchiq/shared/slotmessage.rs:32-35 | a header in a slot is the id in its first four bytes and the size in the others, low bytes first |
| Slots.StoredReads | src/vchiq/shared/slot.rs:77-123 | a stored message reads back, id and payload, at any place of any slot but slot zero |
| Slots.StoredPaddingReads | src/vchiq/state.rs:926-932 | a stored padding header reads back as a padding of that size, whatever bytes follow it |
| Slots.MessageAtPrefix | src/vchiq/shared/slot.rs:102-121 | reading a message depends on no byte beyond its end |
| Transport.ReserveKeepsWriterOk | src/vchiq/state.rs:906-1012 | a reservation fails only when its start is the end of the side's own slots; otherwise it lies inside one own slot at the writer's position or the next boundary, `tx_data` is there whenever it is needed, and the bounds assertions of the store cannot fire |
| Transport.QueueEffect | src/vchiq/state.rs:808-874 | the whole effect of a queued message on slots and positions, in either reading of the padding position, and the only case in which there is none |
| Transport.QueueKeepsWriterOk | src/vchiq/state.rs:939-1004 | the writer's position stays aligned and within its own slots after every message, from the `!=` assertion alone |
| Transport.StoreKeepsBelow | src/vchiq/shared/slot.rs:77-100 | a store at or above a position leaves every frame below that position readable and unchanged |
| RoundTrip.QueueAddsFrame | src/vchiq/state.rs:911-1004 | in either reading, if no padding is needed or it goes to the writer's position, a queued message extends the framed stream by itself, after at most one padding, with 8-aligned frames that cross no slot, and changes no earlier frame |
| RoundTrip.ParseReadsFrames | src/vchiq/slothandler.rs:37-231 | in either reading, if no slot entered is already full or the slot is that of the reader's position, on a framed stream the `!=` loop ends, exactly at the published position, with its slot position in step or absent exactly at a boundary, having read exactly the frames |
| RoundTrip.PollKeepsInStep | src/vchiq/slothandler.rs:35-37 | under that condition a poll at any time never gets stuck and leaves nothing unread |
| RoundTrip.RoundTripHolds | src/vchiq/slothandler.rs:33-238 | in every safe interleaving of queued messages and polls, in any combination of readings, the messages parsed are, padding aside, a prefix of those queued, and all of them after a poll; such a run goes on if and only if the messages with their paddings fit the writer's slots, so that only capacity ends it, never the reader |
| RoundTrip.DocumentedIsSafe | src/vchiq/state.rs:149-158 | with padding and slot lookup as the comments have it, every interleaving is safe |
| Variants.PaddingHarmlessIff | src/vchiq/state.rs:918-936 | every message stays readable where it was put if and only if the padding goes where the comment says or no message needs padding; otherwise the one before a padding is lost for good |
| Variants.PaddingLosesMessage | src/vchiq/state.rs:1003-1004 | a concrete loss as the code is written, with the sizes of CONNECT, OPEN and data filling a slot: padding stands where the OPEN was put |
| LostOpen.OpenIsLost | src/vchiq/state.rs:918-936 | a run of the whole host as written, connect, create a service and send 4088 bytes, after which the OPEN can no longer be read in the slots |
| Variants.CapacityIff | src/vchiq/state.rs:939-941 | the assertion on the own slots stops the writer exactly when the messages with their padding would not fit, and until then the position is their end |
| Variants.FreshSlotRightIff | src/vchiq/slothandler.rs:40-47 | the slot chosen from the published position is the right one if and only if the other side has not filled it yet |
| Variants.PollAsWrittenIff | src/vchiq/slothandler.rs:37-53 | the loop as written reads exactly the frames up to the published position, whatever else the slots contain, if and only if it enters no slot that is already full |
| MissedFrame.FrameIsMissed | src/vchiq/slothandler.rs:41-45 | a run of the whole host with the slot handler as written: connect, create a service, and let the other side acknowledge it, fill a slot with one message and write the next before the poll; the service is handed the next one twice and the first never |
| Variants.FilledSlotMissed | src/vchiq/slothandler.rs:41-45 | after one message that fills a slot, the loop as written delivers it if and only if the following slot happens to start with the same message |
| Lifecycle.StepKeepsLife | src/vchiq/state.rs:375-726 | every client call and every message keeps the table dense, ports equal to entries, handles growing, and each service settled with its client |
| Lifecycle.NewSystem | src/vchiq/state.rs:255-304 | the state as built is one that all runs may start from |
| Lifecycle.OpenAndCloseSettle | src/vchiq/state.rs:489-657 | in every run the remove event is raised at most once, wakes an open only in OPEN or CLOSEWAIT and a close only in FREE, so that neither fails; a service has a remote port exactly while it is open or its CLOSE is under way |
| Waits.OpenWaitEndsIff | src/vchiq/state.rs:489-510 | over every run, a waiting open finds its event raised if and only if an OPENACK or a CLOSE for its port has been dispatched, and no open returns without |
| Opening.ConnectDecides | src/vchiq/state.rs:349-371 | in every run: the first poll of connect sends CONNECT and fails only if that does not fit, later ones send nothing; a poll connects if and only if a CONNECT has been dispatched, and takes one; once connected it is refused |
| Opening.CreateDecides | src/vchiq/state.rs:451-487 | creating a service is refused before the connection and when all ports have been used; otherwise there is one more service, under the next port and handle, and exactly one OPEN more, from that port and with the payload given; it fails only if that does not fit |
| Opening.PollOpenDecides | src/vchiq/state.rs:489-517 | in every run a poll of a waiting open returns without an error if and only if an OPENACK or CLOSE for the port has been dispatched, and changes nothing else |
| Opening.PollCloseDecides | src/vchiq/state.rs:625-657 | a poll of a waiting close returns without an error if and only if its event is raised, and changes nothing else |
| Answers.FirstAnswerDecides | src/vchiq/slothandler.rs:112-162 | in every run, until its client closes it, a service is open to the port that answered if its first answer was an OPENACK, waits to be closed if that was a CLOSE, and is opening before; it is closing exactly when a CLOSE has come, first or later; its peer's version is the last one given, low byte first |
| Answers.CloseReturnsAtOnceIff | src/vchiq/state.rs:526-623 | in every run, once the open has returned: a close returns at once, sending nothing, if and only if the first answer was a CLOSE; otherwise a CLOSE to the port that answered is the last message sent and the close waits, even if a CLOSE has come since; it fails only if that does not fit |
| Answers.CloseIsRefused | src/vchiq/state.rs:531-537 | once a close has returned, another one changes nothing |
| Waits.CloseBegins | src/vchiq/state.rs:526-623 | a close of a service in CLOSEWAIT returns at once, and of any other waits with its event at rest; which of them a service is in, Answers.FirstAnswerDecides says |
| Waits.CloseWaitEndsIff | src/vchiq/state.rs:625-657 | from then on, over every run, a waiting close finds its event raised if and only if a CLOSE for its port has been dispatched since, and no close returns without |
| Lifecycle.HandleFinds | src/vchiq/state.rs:1028-1047 | the handle of a service finds that service and no other |
| Lifecycle.ServicesStay | src/vchiq/state.rs:390-449 | over a run the table only grows, ports and handles stay with their service, different services have different handles, and FREE and closing are for ever |
| Trace.MovesKeepTrace | src/vchiq/state.rs:732-896 | whatever one step may send is in turn for its port |
| Trace.TraceConforms | src/vchiq/state.rs:349-371 | everything sent, in every run, is nothing, or one CONNECT followed by messages that are port by port a prefix of OPEN DATA* CLOSE |
| Trace.SendSends | src/vchiq/instance/mod.rs:164-180 | a client's send to a service that is not closing sends exactly one message, with its data, from the service's port to its remote port, and only while the service is open; otherwise nothing changes |
| Trace.NoDataOnceClosing | src/vchiq/state.rs:754-758 | once a service is closing, from either side, no data leaves its port in any later step |
| Outgoing.SlotsConform | src/vchiq/state.rs:808-876 | in every run and either reading, all messages sent stay readable in the slots if and only if the padding goes where the comment says or none was needed; then a reader ends exactly at the published position and finds, padding aside, just the messages of that grammar |
| Outgoing.RecordedWhereFramesLie | src/vchiq/state.rs:808-815 | in every run and either reading, the slot under which a message is counted is the one in which its frame starts and ends, one of the writer's own |
| Quota.PredictedSlotIsActual | src/vchiq/state.rs:765-815 | the slot predicted before the reservation is the slot the message ends in, padding or not |
| Quota.RecordKeepsQuota | src/vchiq/state.rs:834-854 | counting a message keeps both counters equal to the number of different slots with data, and within quota |
| Quota.CountersExactAndBounded | src/vchiq/state.rs:765-854 | in every run `data_use_count` is the number of slots holding data and each `slot_use_count` the number holding data of that port, and neither exceeds its quota |
| Sending.SendDecides | src/vchiq/state.rs:762-806 | in every run, for a service open and not closing: a data message is blocked if and only if the slot it would lie in holds no data yet and all slots but one of those owned do, or holds none of the service and half of those owned do; otherwise it is queued, unless it does not fit |
| QuotaWaits.WaitingIsForEver | src/vchiq/state.rs:768-803 | in every run a quota semaphore is raised only for a closing service, so that the loops decide as admission does, whatever the other semaphore counts: a data message that meets a used up quota waits for ever, and no wait ends in an error |
| QuotaWaits.AdmitIsTheLoopsIff | src/vchiq/state.rs:784-803 | in any state the loops with their semaphores decide as admission does, except for a waiting message of a service neither open nor closing whose semaphore is raised |
| Worlds.CallbackAnnounces | src/vchiq/instance/mod.rs:330-374 | a callback posts one completion and leaves its position with the service, or posts nothing because one of its service is queued or a dequeuer is released |
| Worlds.OtherReasons | src/vchiq/instance/completion.rs:95-97 | a callback with another reason is posted with that reason and its message, and not remembered as a notification |
| Announcements.WaitingIff | src/vchiq/instance/mod.rs:210-220 | after every run a vchi service's dequeuer is marked if and only if the service's last dequeue or callback was a dequeue that found nothing; messages handed over and not taken are counted exactly |
| Announcements.CallbackPostsIff | src/vchiq/instance/mod.rs:328-374 | after every run a callback of a vchi service posts no completion if and only if one of the service is queued or a dequeue stands open, which is then released; otherwise it posts one with its message, or without if the message ring is full; any other service gets one with its message |
| Announcements.OthersDelivered | src/vchiq/instance/mod.rs:366-374 | after every run that never posts to a full ring, completions drained for a service that is not vchi, followed by those in the ring, are one for each of its messages, with the message in it, in order |
| Announcements.EventsRaised | src/vchiq/instance/mod.rs:345-363 | after every run the semaphores of a service are what the operations left on them, the insert semaphore of a ring is raised while there is something in it, and nothing raises the completion ring's remove semaphore |
| Announcements.EmptyDrainWaits | src/vchiq/instance/mod.rs:265-275 | a drain of an empty ring returns nothing and takes one count of the insert semaphore if there is one |
| Notifications.DrainsSucceedIff | src/vchiq/instance/mod.rs:278-306 | after any run, of any number and kind of services, drains of every size meet no empty cell if and only if no callback of the run posted to a full ring |
| Notifications.AwaitReturnsOldest | src/vchiq/instance/mod.rs:278-306 | from a ring that holds what was posted, a drain returns the oldest completions, as many as asked for and there, and leaves such a ring |
| Notifications.CompletionsInOrder | src/vchiq/instance/completion.rs:71-104 | after every run that never posts to a full ring, of any number and kind of services, what was drained is what was posted, oldest first, and the rest is in the ring |
| Notifications.NoLostNotification | src/vchiq/instance/mod.rs:351-374 | after every such run a message was accepted before its service's last drained notification, or released a dequeuer, or has a notification of its service in the ring |
| Notifications.QueuedAtMostOnePerService | src/vchiq/instance/mod.rs:353-374 | of vchi services, no more completions are queued than there are services |
| Notifications.FewServicesNeverOverrun | src/vchiq/instance/completion.rs:58-100 | no run with at most 128 services, all vchi, posts to a full ring |
| Notifications.NeverOverflowsIff | src/vchiq/instance/completion.rs:58-100 | every run with at most n services, all vchi, keeps within the 128 entries if and only if n is at most 128; likewise it lets every later drain succeed, and likewise it loses no notification, if and only if n is at most 128 |
| Notifications.CrowdedLoses | src/vchiq/instance/completion.rs:58-76 | 129 services with a message each: draining all completions panics, and draining one leaves the first service with a message neither notified nor queued |
| MessageRings.DeliveryInOrderIff | src/vchiq/instance/mod.rs:328-349 | a callback keeps the messages in order, whatever its message, if and only if the ring is not full |
| MessageRings.TakeInOrder | src/vchiq/instance/mod.rs:210-246 | from a ring in order and within capacity, a dequeue returns the oldest message, one if there is one, and leaves such a ring |
| MessageRings.DequeuesSucceedIff | src/vchiq/instance/mod.rs:237-244 | after any run, of any number and kind of services, all dequeues of all vchi services meet no empty cell, however many, if and only if no callback of the run to a vchi service met a full ring |
| MessageRings.MessagesInOrder | src/vchiq/instance/mod.rs:237-246 | over every run that never meets a full ring, with any number and kind of services, a vchi service's returned messages followed by those in its ring are the accepted ones, in order, none lost or doubled |
| MessageRings.MessagesInOrderIff | src/vchiq/instance/mod.rs:328-349 | over every run, with any number and kind of services, where the messages of each vchi service differ: returned and ringed messages are the accepted ones, in order, for every vchi service, if and only if no callback of the run met a full ring |
| MessageRings.NeglectedLoses | src/vchiq/instance/mod.rs:330-349 | one service, 128 messages and no dequeue fill the ring in order; the 129th message loses the first, and 129 dequeues then panic |
| MessageRings.PendingMeansEmpty | src/vchiq/instance/mod.rs:210-236 | in every run, full rings or not, a dequeuer is marked as waiting only while its ring is empty, and accepted messages number those returned plus those pending |
| EndToEnd.CallbackIsForService | src/vchiq/slothandler.rs:164-195 | a callback is made exactly for data frames to an open service from its remote port, and it is that service's |
| EndToEnd.DeliveredEndToEnd | src/vchiq/slothandler.rs:33-238 | in every safe interleaving, the host's own padding in either reading and unconstrained, of peer writes, polls, client calls, dequeues and drains, with any number and kind of services: frames dispatched are those parsed, a prefix of those written and all of them after a poll; and for each vchi service, while no ring has been overrun, messages returned followed by those in the ring are exactly its data frames, in order |
| HostRings.RunLeads | src/vchiq/slothandler.rs:164-195 | every run of the whole host, safe or not, is a run of the rings, to which all theorems about those apply |
| HostRings.NotifiedEndToEnd | src/vchiq/instance/mod.rs:278-306 | in every run of the host with at most 128 services, all vchi, no drain fails and no notification is lost |
| HostRings.OthersEndToEnd | src/vchiq/slothandler.rs:173-195 | in every safe run the completions posted for a service that is not vchi are its data frames, in order, with the frames in them; as long as no completion was posted to a full ring, those drained followed by those in the ring are all of them |
| Dispatching.DispatchFailsIff | src/vchiq/slothandler.rs:59-215 | a message ends the run if and only if it is an answer, data or bulk message for a port without a service or with a free one, a CLOSE for port 0 from another port than the service's, or of a type not implemented |
| Dispatching.DispatchChanges | src/vchiq/slothandler.rs:110-215 | OPENACK and CLOSE change only the service at their port, a CLOSE also its quota semaphore, a CONNECT only the connection's semaphore, and any other message nothing |
| Dispatching.PollFailsIff | src/vchiq/slothandler.rs:33-238 | after every safe run, a safe poll reads just the frames written and not read before, and fails if and only if one of them ends the run in the table it meets |
| EndToEnd.DocumentedIsSafe | src/vchiq/state.rs:156-158 | with the incoming direction as the comments have it, every run is safe |
| EndToEnd.HandleAllIsTheLoop | src/vchiq/slothandler.rs:110-215 | the composed model handles a batch as the loop on the state kept in place does: same state, and one callback for each frame that is for a service |
| SlotZero.HalvesPartition | src/vchiq/shared/slotzero.rs:108-121 | for four slots or more, synchronous and data slots of both sides are disjoint, cover all slots behind slot zero and no other, and both sides have data slots |
| SlotZero.SlotZeroAccessor.Initialize | src/vchiq/shared/slotzero.rs:93-152 | succeeds exactly for 4 to 130 slots, then with that partition, half of the slots for the other side, the local data slots in the queue, each once, and version and sizes set; of the other side's state only its slots are written |
| SlotZero.InitializedIsReady | src/vchiq/state.rs:218-278 | initialised slots satisfy what every transport theorem assumes of the start |
| SlotZero.WriterStaysInOwnSlots | src/vchiq/state.rs:939-1004 | in every run, wherever padding goes, no byte outside the writer's own data slots changes |
| SlotZero.DirectionsAreSeparate | src/vchiq/slothandler.rs:41-57 | whatever one side writes, and in all readings, the reader of the other side's slots finds what it would have found without |
| Handshake.NeverLostIff | src/vchiq/shared/event.rs:88-163 | in every interleaving of single accesses a parked waiter that has been fired at has a doorbell rung, a handler at work or a raised semaphore, if and only if the doorbell's handler signals the event |
| Handshake.FiredStays | src/vchiq/shared/event.rs:143-146 | a fired event stays fired until a poll that returns ready clears it |
| Handshake.ReadyIsPaidFor | src/vchiq/shared/event.rs:107-147 | no poll is ready without a signal, and one signal makes at most two polls ready |
| Handshake.HoldsWhatWasWritten | src/vchiq/shared/event.rs:88-163 | in every interleaving `armed` and `fired` are what their last writer left, the doorbell is rung exactly when a check has found `armed` set and nobody has picked it up since, the semaphore is what the handler has raised less what polls have taken, one raise for each doorbell if it signals at all, and each ready poll has cleared `fired` or taken one count |
| Handshake.PollIsUninterrupted | src/vchiq/shared/event.rs:107-148 | a poll of the accessor, the first of a wait or a later one, is a sequence of the waiter's accesses with nothing in between |
| Handshake.EventAccessor.Poll | src/vchiq/shared/event.rs:107-148 | flags and semaphore afterwards, and ready exactly when fired or raised |
| Handshake.EventAccessor.SignalLocal | src/vchiq/shared/event.rs:90-95 | disarms and raises, and leaves fired alone |
| Handshake.EventAccessor.SignalRemote | src/vchiq/shared/event.rs:153-163 | fires, and rings exactly when armed |
| SlotObjects.SlotAccessor.StoreMessage | src/vchiq/shared/slot.rs:77-100 | header and payload go to the slot named and nothing else changes; refused exactly when an assertion fails |
| SlotObjects.SlotAccessor.ReadMessage | src/vchiq/shared/slot.rs:102-121 | the message the transport theorems read |
| SlotObjects.SlotState.ReserveSpace | src/vchiq/state.rs:906-1012 | on fields updated in place, the reservation of `Transport.Reserve` in either reading, slots included |
| SlotObjects.SlotState.StoreAndPublish | src/vchiq/state.rs:816-874 | the store, and the writer's position published with it |
| SlotObjects.SlotState.ReadNext | src/vchiq/slothandler.rs:40-57 | keeps a slot in hand, looks up a fresh one otherwise, and reads there |
| SlotObjects.SlotState.Advance | src/vchiq/slothandler.rs:217-228 | past the message, with no slot in hand exactly at a boundary |
| ServiceObjects.ServiceObject.Free | src/vchiq/state.rs:705-726 | frees and raises the event in five states, changes nothing in the others |
| ServiceObjects.ServiceObject.CloseComplete | src/vchiq/state.rs:660-703 | what completing a close does in each state, and that it raises the event at most once |
| ServiceObjects.ServiceObject.OpenAcked | src/vchiq/slothandler.rs:112-125 | opens a service that is opening and only that one, with its remote port and the peer's version |
| ServiceObjects.ServiceObject.CloseReceived | src/vchiq/slothandler.rs:138-162 | what a CLOSE does in each state |
| ServiceObjects.ServiceObject.TryRemoveEvent | src/vchiq/state.rs:489-499 | takes one count if there is one, and reports the state seen with it |
| ServiceObjects.SrvState.ByPort | src/vchiq/state.rs:1014-1026 | the service object at the port unless there is none or it is free |
| ServiceObjects.SrvState.FromHandle | src/vchiq/state.rs:1028-1047 | the first entry with the handle, none if there is none |
| ServiceObjects.SrvState.FreeEntry | src/vchiq/state.rs:388-419 | the first entry not taken, or the next unused one while there is one |
| StateObjects.StateObject.constructor | src/vchiq/state.rs:255-304 | the initial state all runs start from |
| StateObjects.QuotaState.Count | src/vchiq/state.rs:834-854 | each counter grows by one exactly when the slot differs from the last one it counted |
| StateObjects.StateObject.Admit | src/vchiq/state.rs:745-806 | refused when closing, blocked exactly when a quota is used up by another slot, admitted otherwise, with nothing changed |
| StateObjects.StateObject.QueueMessage | src/vchiq/state.rs:732-896 | slots, counters, table and position after a queued message, and nothing changed when it is refused |
| StateObjects.StateObject.HandleMessage | src/vchiq/slothandler.rs:59-215 | state and callback after each type of message |
| StateObjects.StateObject.SlotHandler | src/vchiq/slothandler.rs:33-238 | in either reading, for any contents of the slots: the loop ends with the reader where parsing ends, all messages dispatched in order and the callbacks made, or it fails exactly where a message cannot be read, has no handler, or takes the reader past the published position |
| ClientCalls.Connect | src/vchiq/instance/mod.rs:73-83 | CONNECT goes out once; refused when connected already, done exactly when the answer has been counted, which sets connected, and pending otherwise |
| ClientCalls.AddService | src/vchiq/state.rs:375-449 | the new service, its entry, handle, port and quota record, one fresh object in the table |
| ClientCalls.BeginClose | src/vchiq/state.rs:526-623 | refused when there is nothing to close; otherwise the CLOSE queued or the service freed, depending on its state, once it is marked as closing |
| RingObjects.Completion.AddCompletion | src/vchiq/instance/completion.rs:51-104 | the entry in its cell and its position with the service, room or not |
| RingObjects.Completion.AwaitCompletion | src/vchiq/instance/mod.rs:256-306 | refused without a change when not connected; otherwise the loop takes entry by entry what the theorems on drains say |
| RingObjects.ServiceUser.DequeueMessage | src/vchiq/instance/mod.rs:202-250 | one poll: pending with the flag set, or the oldest message |
| RingObjects.ServiceCallback | src/vchiq/instance/mod.rs:310-377 | both rings after a callback, whatever the reason and with or without message |

## Left out

- EndToEnd.DeliveredEndToEnd: says nothing about a service's order after a callback has met its full ring, because the code then writes over the oldest message (Notifications.MessagesInOrderIff), nor about an incoming direction that is not safe, because the code then reads the wrong slot (Variants.PollAsWrittenIff).
- Notifications.NoLostNotification: says nothing of runs that post to a full ring, where a completion is written over (Notifications.CrowdedLoses), nor of callbacks without a message.
- MessageRings.MessagesInOrderIff: takes the messages of a service to differ, since equal ones hide a loss; MessageRings.DequeuesSucceedIff, which finds it all the same, does not.
- Variants.PollAsWrittenIff: takes the published position to lie in one of the other side's slots; at their very end there is no slot to look up.
- StateObjects.StateObject.Admit: the loops with their semaphores are functions, QuotaWaits.AdmitByLoops; nothing else runs while a call waits in them, because it keeps the state it reads locked.
- StateObjects.StateObject.SlotHandler: a message that leaves its slot counts as one that cannot be read, where the code would read on into the next slot.
- SlotZero.SlotZeroAccessor.Initialize: magic, debug array and the other three events are not fields of the model, and a memory smaller than slot zero counts as too few slots instead of wrapping around.
- ClientCalls.BeginClose: stops at the first wait; the later polls are ServiceObjects.ServiceObject.TryRemoveEvent and System.PollCloseStep.
- Width of integers: positions and counters are unbounded; the 32-bit wrap of the published position needs more data than the slots hold, since slots are not recycled.
- Liveness: the theorems of `Waits` say when a wait can end, not that the executor polls it again.
- Slot recycling, slot infos, the slot availability semaphore and the message quota (`message_use_count` is never incremented): not implemented in the code.
- Completions with another reason than MESSAGE_AVAILABLE: no code posts them; Worlds.OtherReasons is all that is said of them.
- Bulk transfers, pause and resume, remote use, OPEN from the other side, messages to unknown ports, a second close while one is under way: `todo!()` or `unimplemented!()` in the code, and the end of a run here.
- Listening and hidden services: `add_service` is unreachable for them. No service is ever HIDDEN, LISTENING, OPENSYNC or CLOSERECVD, nor CLOSED between two calls; the branches for those states are modelled as they are, and nothing is proved of them.
- The conversion of a dequeued message into the caller's type.
- Dropping a pending dequeue, which would leave its flag set, and several dequeuers of one service.
- The executor, wakers and the interleaving of cores inside one poll; memory barriers are sequential consistency.
- Memory allocation, the MMU, mailbox, interrupts, fragments, physical addresses and console output.
- The vchi layer (src/vchi): forwarding calls.
- The stale copies outside the module tree (src/state copy.rs, src/instance.rs, src/completionhandler.rs).
