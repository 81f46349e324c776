# Meeting-room bookings: a verified model of the booking-to-notification pipeline

Two services share one promise: whoever books or cancels a meeting room is told about it. The booking service
writes the booking and an outbox row in one transaction; relays publish outbox rows to a key-hashed Kafka topic;
the notification service stores one notification per transition and pushes it to the user's open SSE streams.
This project models that path, the lazily filled slot table below it, the SSE hub and the one-time tokens, and
proves what must hold under crashes, retries, redeliveries and any interleaving of requests.

Run `dafny verify dfyconfig.toml` to check everything.

## How the model is built

- **Two levels.** `BookingDb`, `RelayLog`, `Delivery`, `Pipeline` and `HubDelivery` are state machines whose steps are
  single statements, commits, writes, sends or crashes. Theorems about them range over every run. `BookingService`,
  `SlotService`, `ScheduleService`, `RelayWorker`, `ConsumerWorker`, `Hub` and `Tokens` hold the code itself:
  classes with mutable fields, loops over arrays, methods proved against those machines or, for `Tokens`, against
  functions on values; `HubObjects` shows that the calls on the objects of `Hub` are steps of `HubDelivery`. `Fanout`
  puts the consumer and the hub back into the one process they are.
- **Interference.** Between two statements of a method anybody else may take any number of steps:
  `Database.Connection.Others` and `Anyone` for requests, `Clusters.Cluster.Others` and `Anyone` for relays,
  `ConsumerWorker.Consumer.Meanwhile` for growing logs, read marks and rebalances, `HubObjects.LiveHub.Others` for
  clients and other broadcasts. Each calls a method that promises nothing but
  "some steps of others" and then a lemma that says what those cannot undo. Contracts hold whatever they do; where
  a ghost parameter `alone` occurs, the contract also says what happens when they do nothing. Waiting for a lock is
  a bounded number of such pauses (`patience`, the request's deadline; `Connection.pauses` counts them).
- **Faults** are parameters: which statement fails, how far each partition got in a failed write, and whether what
  reports an error took effect nevertheless, be it a COMMIT, a single INSERT or UPDATE, or an offset commit
  (`CommitUnheard`, `LinkUnheard`, `Reply.FailedUnheard`).
- **Environment assumptions**, the first six each the guard or effect of a named step:
  - a transaction's begin time comes from a strictly increasing clock, so rows become visible out of `created_at`
    order (`Begin`, `Commit`);
  - generated identifiers are fresh: not stored, in flight, or asked to be cancelled by a transaction in flight
    (`InsertBooking`, `InsertOutbox`);
  - the partial unique index also blocks against uncommitted versions (`VerdictOf`);
  - a failed write appends a prefix of each partition's share, may be retried, and may still happen after the
    rollback (`Write`);
  - a restarted consumer resumes at the committed offsets (`Crash`), while a failed commit goes on from the reader's
    position (`CommitFails`), because the loop in `notification-service/cmd/main.go:92-103` keeps the reader;
  - a rebalance sends the reader of a living process back to the committed offsets, possibly with a message in hand
    (`Rebalance`); there is one consumer process per group;
  - an acknowledged message is never lost, although `booking-service/internal/outbox/relay.go:33` asks for one
    acknowledgement only, so this excludes the loss of a partition leader before replication;
  - logs are never truncated: a consumer is never away for longer than the seven days of `TASK_EXTENDED.md:190`;
  - for the order under one relay only: PostgreSQL has ended the transaction of every call that crashed or was aborted
    before the next call selects. A shutdown aborts the call in progress, whose rollback then runs on a cancelled
    context and only drops the connection (`booking-service/internal/repo/outbox/outbox.go:35`), and the drain selects
    at once (`booking-service/internal/outbox/relay.go:47-52`). Where the lock lingers, the two calls count as two
    relays, and `SelectKeepsOrderExactlyWhenSafe` says what still holds.
- **Values.** Identifiers are natural numbers, an empty Kafka key is `None`, slot times are minutes since
  1 January 1970, token times nanoseconds. A payload either decodes into an event or does not.

Where the code and its documentation differ, the code is modelled:

- On a processing error the consumer commits the offset and skips the message
  (`notification-service/internal/kafka/consumer.go:60-73`), although `TASK_EXTENDED.md:193` says it does not
  commit. The skips are recorded, and `PipelineTheorems.OnlyTheDatabaseSkips` shows what they can come from.
- A full channel drops the notification (`notification-service/internal/hub/hub.go:62-65`), although
  `TASK_EXTENDED.md:100-101` says the client is disconnected. `HubDelivery` records the drops.
- The relay's drain starts on the signal that also stops the HTTP server (`booking-service/cmd/main.go:81-91`), so
  bookings may still be committed after it. The drain is shown to empty the outbox when nothing new is committed;
  no claim is made about the outbox after a shutdown.

## What turned out false, and exactly when it holds

- **Order with several relays.** A cancellation can be logged before its creation: a second relay skips the locked
  created row and picks the cancelled one. `PipelineTheorems.SelectKeepsOrderExactlyWhenSafe` gives the exact
  condition on the rows and locks the SELECT sees, `UnsafeSelectMisorders` shows that the next write breaks the order
  whenever it fails, `Misordering.TwoRelaysMayMisorder` gives a complete run that ends there for every number of
  partitions and every balancer, and `CreationPrecedesCancellation` shows that one relay always meets the condition.
- **Order on a stream.** Even with one relay a stream can get a booking's cancellation before its creation
  (`Rereading.StreamMayGetTheCancellationFirst`, a complete run for every number of partitions and every balancer).
  It happens only if the creation had been skipped (`CausalStreams.CancellationFirstMeansSkipped`), and it can still
  happen exactly while the skipped creation is not stored and a message announcing it lies ahead of the reader or of
  a committed offset (`CausalStreams.LateCreationMayComeExactly`).
- **Committed offsets.** They can go down: after a rebalance the loop commits the message in hand and later an earlier
  one (`DeliveryProofs.RebalanceMayLowerAnOffset`), and only then (`DeliveryProofs.OffsetsOnlyAdvance`).
- **Cancelling an unknown id.** The diagnosing SELECT may return an active booking. In every state and for every caller
  that can happen exactly for the ids not committed before the call, in-flight ones included
  (`BookingTheorems.CancelMayAnswerActiveExactly`).
- **Hub order.** A broadcast that starts while a live stream of its user is still owed an earlier one can overtake it.
  That guard is exact (`HubOrder.SnapIsHarmlessExactlyWhenSafe`), the hub itself does not enforce it
  (`HubOrder.UnsafeSnapIsReachable`), and the consumer loop, which broadcasts the one row it has in hand, always
  meets it (`Fanout.ConsumerBroadcastsSafely`). Everything but the order holds however broadcasts overlap
  (`HubDelivery.HubDelivers`).

## Model

| member | source | states |
|---|---|---|
| SlotCalendar.IsoWeekdayIsWeekly | booking-service/internal/service/slot/slot.go:79-87 | the weekday of day 0, a Thursday, is 4, each next day's is the next, Sunday's 7 comes before Monday's 1; two days share one exactly when they are whole weeks apart; a day is scheduled exactly when its weekday is among the days |
| SlotCalendar.CheckSchedule | booking-service/internal/http/handlers/schedule.go:81-133 | accepts exactly the requests that make a schedule the slot generator can use, which then has the requested minutes; every rejection names the first defect in the order of the checks, and no two of these can hold at once |
| SlotCalendar.CheckDays | booking-service/internal/http/handlers/schedule.go:88-103 | the days pass exactly when all are 1 to 7 and pairwise different; otherwise the reported day is the first bad one and has the reported defect |
| SlotCalendar.AcceptableExactly | booking-service/internal/http/handlers/schedule.go:121-133 | a valid schedule is exactly: some days, all 1 to 7 and different, both minutes multiples of 30, the start before the end |
| ScheduleService.NarrowDays | booking-service/internal/repo/schedule/schedule.go:34-37 | the int32 column holds validated days unchanged |
| ScheduleService.Int32Wraps | booking-service/internal/repo/schedule/schedule.go:34-37 | the narrowed value is the one of 32 bits that differs by a multiple of 2^32, and the value itself if that fits |
| ScheduleService.RepoCreateSchedule | booking-service/internal/repo/schedule/schedule.go:25-64 | for any days and times of day: stores exactly when the table's constraints hold, the room exists and has no schedule yet, and the INSERT takes effect, heard of or not; says which constraint failed otherwise, and changes nothing else |
| ScheduleService.CreateSchedule | booking-service/internal/http/handlers/schedule.go:81-141 | a refusal names the first defect and leaves the database alone; otherwise room-missing, already-exists, stored or failed exactly as the database the INSERT met and its reply decide, a stored schedule is the requested one, and an existing one is never replaced, whatever ran between check and INSERT |
| SlotCalendar.GenerateSlots | booking-service/internal/service/slot/slot.go:91-120 | the k-th slot starts 30k minutes after the window start and lasts 30; none ends after the window, and one more would |
| SlotCalendar.GeneratedAreWindows | booking-service/internal/service/slot/slot.go:102-117 | a time is a generated start of a day if and only if it is one of that day's windows of the schedule |
| SlotCalendar.WindowsTileTheDay | booking-service/internal/service/slot/slot.go:102-117 | a valid schedule's slots tile its window from start to end inside one UTC day |
| SlotCalendar.WindowsDoNotOverlap | booking-service/internal/service/slot/slot.go:102-117 | two windows of one schedule, on any two days, coincide in start or do not overlap |
| BookingDbProofs.InsertAbsentIsLazyFill | booking-service/internal/repo/slot/slot.go:46-49 | inserting if absent changes no stored slot, adds only requested and missing ones, leaves every requested window stored and never duplicates a (room, start) |
| SlotService.ThroughColumns | booking-service/internal/repo/slot/slot.go:51-61 | the four column slices, unnested, are the slots again |
| SlotService.EnsureSlotRows | booking-service/internal/repo/slot/slot.go:41-68 | after the call every given slot's window is stored, and nothing but absent slots was added |
| SlotService.ListAvailableByRoomAndDate | booking-service/internal/repo/slot/slot.go:72-102 | the listing holds exactly the room's slots in the range without an active booking, strictly ascending |
| SlotService.LazyEqualsEager | booking-service/internal/service/slot/slot.go:34-37 | on a filled day the listing equals, as a sequence, the free windows computed from the schedule alone |
| SlotService.EagerExactly | booking-service/internal/service/slot/slot.go:53-77 | those windows written out: on a weekday of the schedule, the half hours from its start that end within it and whose slot no active booking holds |
| SlotService.ListAvailableSlots | booking-service/internal/service/slot/slot.go:38-77 | under any interleaving, the answer is what a table filled in advance would answer in the database its last SELECT saw; room-not-found exactly for unknown rooms; a failing statement lists nothing and takes nothing back |
| SlotService.FillDay | booking-service/internal/service/slot/slot.go:59-66 | afterwards every window of the day is stored, and stays so while others run |
| SlotService.SlotIdNeverChanges | booking-service/internal/repo/slot/slot.go:46-49 | over every run, the slot first stored for a (room, start) remains the only one, unchanged |
| BookingTheorems.SlotsNeverOverlap | booking-service/migrations/0003_create_schedules.up.sql:3 | in every reachable database two slots of one room never overlap, over all dates |
| BookingDbProofs.StepKeepsInv | booking-service/internal/repo/booking/booking.go:25-162 | every statement, commit and rollback of any transaction keeps the database invariant |
| BookingDbProofs.StepEvolves | booking-service/internal/repo/booking/booking.go:115-120 | no step takes back anything committed: a cancelled booking stays cancelled, owner, slot and rows stay, sent marks stay |
| BookingDbProofs.RunsKeep | booking-service/internal/repo/booking/booking.go:25-162 | the same two facts over every run |
| BookingDbProofs.CommitKeepsExact | booking-service/internal/repo/booking/booking.go:55-83 | a commit adds the one row its transition was missing and repeats none |
| BookingDbProofs.CommitKeepsOneActive | booking-service/migrations/0005_create_bookings.up.sql:10-11 | a commit never makes two active bookings of one slot |
| BookingDbProofs.UpdatedIsApart | booking-service/internal/repo/booking/booking.go:115-120 | the row lock keeps a second cancel of the same booking out while the first is uncommitted |
| Database.OthersAreSafe | booking-service/internal/repo/booking/booking.go:26-30 | whatever other transactions do, the database stays one a run leads to, one's own uncommitted state is untouched and nothing committed is undone |
| BookingTheorems.OutboxIsExact | booking-service/internal/repo/booking/booking.go:56-76 | one outbox row for each committed transition and no other; its payload matches the booking, slot and room rows |
| BookingTheorems.AnnouncementIsNeverEmpty | booking-service/internal/repo/booking/booking.go:56-76 | the INSERT ... SELECT, whose join could find nothing, yields for every transaction that has written a booking the row written out here: new id, type of the transition, begin time, booking, user, room and slot, unsent |
| BookingTheorems.CommitsAnnounce | booking-service/internal/repo/booking/booking.go:81-83 | so every COMMIT makes the booking version and its row visible together, though nothing in the statement sequence asks for a row |
| BookingTheorems.AtMostOneClaimPerSlot | booking-service/migrations/0005_create_bookings.up.sql:10-11 | at most one active booking per slot, counting uncommitted inserts |
| BookingTheorems.CancelFreesSlot | booking-service/migrations/0005_create_bookings.up.sql:10-11 | once a cancel has committed, no active booking and no version in flight holds the slot, and the next create request of any user inserts |
| BookingTheorems.OtherCancelsWriteNothing | booking-service/internal/repo/booking/booking.go:126-129 | a cancel by someone else, or a repeated one, changes no table with any of its steps |
| BookingTheorems.UnknownIdMayTurnUpActive | booking-service/internal/repo/booking/booking.go:126-175 | in every state, for every caller and every id not stored, be it in flight or unheard of: a run in which the UPDATE matches nothing and the diagnosing SELECT meets the caller's active booking |
| BookingTheorems.CancelMayAnswerActiveExactly | booking-service/internal/repo/booking/booking.go:107-175 | a cancel can answer with an active booking if and only if its id was not committed before the call |
| BookingService.InsertOutboxRow | booking-service/internal/repo/booking/booking.go:55-79 | the INSERT ... SELECT yields a row, while others run |
| BookingService.CommitTx | booking-service/internal/repo/booking/booking.go:81-83 | the booking version and its announcement become visible together |
| BookingService.AnnounceAndCommit | booking-service/internal/repo/booking/booking.go:131-159 | booking and announcement are both committed or neither is, also when the COMMIT's outcome goes unheard; success is reported exactly for a commit that was heard |
| BookingService.RepoCreateBooking | booking-service/internal/repo/booking/booking.go:25-86 | in the database the INSERT decided on, and unless a fault intervenes: already-booked if and only if an active booking holds the slot and no version in flight does, not-found if and only if the slot is missing, committed if and only if slot and user exist and nothing holds the slot; created is a commit that was heard; a version in flight is waited for until patience runs out |
| BookingService.UpdateConferenceLink | booking-service/internal/repo/booking/booking.go:238-246 | the link is stored exactly when no cancel's row lock outlasts patience and the UPDATE takes effect, heard of or not, and then changes nothing but the link of whatever the row is by then, or nothing for an unknown id; a racing cancel stays cancelled |
| BookingService.BookAndLink | booking-service/internal/service/booking/booking.go:48-69 | a failing conference service or link update never costs the booking; the requested link is stored unless the update fails or is locked out, and returned if that was heard |
| BookingService.CreateBooking | booking-service/internal/service/booking/booking.go:38-70 | not-found and in-past exactly by the slot read first; otherwise already-booked, created or failed exactly as the bookings, slots and users the INSERT met decide, whatever ran in between; the link as above |
| BookingService.UpdateAndCommit | booking-service/internal/repo/booking/booking.go:114-161 | a commit, which only a failing outbox insert or commit prevents, means cancelled and announced, and success is exactly a commit that was heard |
| BookingService.Diagnose | booking-service/internal/repo/booking/booking.go:164-175 | returns the booking exactly when it exists and belongs to the caller |
| BookingService.RollbackAndDiagnose | booking-service/internal/repo/booking/booking.go:126-129 | nothing is committed; then not-found, the booking, or an error exactly as the database after the rollback and whatever ran since, and the read's failure, decide |
| BookingService.CancelBooking | booking-service/internal/repo/booking/booking.go:107-162 | commits exactly when the UPDATE, not locked out until patience runs out, finds the caller's active booking and no fault intervenes; otherwise not-found exactly when the later SELECT finds no booking of the caller, so always for a known booking of somebody else; any success on an id committed before the call returns a cancelled, announced booking of the caller whatever ran in between |
| RelayLogProofs.SelectKeepsRelay | booking-service/internal/repo/outbox/outbox.go:37-45 | locking the oldest pending rows keeps open batches disjoint and unsent |
| RelayLogProofs.WriteKeepsRelay | booking-service/internal/outbox/relay.go:61-74 | appending any prefix of a partition's share, repeated or late, keeps every logged message backed by an outbox row |
| RelayLogProofs.ShareExactly | booking-service/internal/outbox/relay.go:28-34 | a partition's share is the payloads of exactly the rows whose booking hashes to it, once each and in their order |
| RelayLogProofs.FinishKeepsRelay | booking-service/internal/repo/outbox/outbox.go:72-85 | marking a batch sent keeps it true that every sent row is in its log |
| RelayLogProofs.WriteKeepsCausal | booking-service/internal/outbox/relay.go:31 | appending prefixes of causal batches keeps every log causal |
| RelayLogProofs.SelectedIsCausal | booking-service/internal/repo/outbox/outbox.go:37-45 | in a safe select each cancelled row comes after its created row or finds it logged, although rows become visible out of order |
| RelayWorker.OldestCount | booking-service/internal/repo/outbox/outbox.go:37-45 | a select takes all pending rows when there are fewer than 100, else exactly 100, and the others stay |
| RelayWorker.FetchPending | booking-service/internal/repo/outbox/outbox.go:37-62 | the records are the oldest unlocked unsent rows, in order, at most 100, and no older one is left out |
| RelayWorker.BuildMessages | booking-service/internal/outbox/relay.go:64-71 | message i carries the payload of record i unaltered, keyed by the booking it names, or without a key if it does not decode |
| RelayWorker.Distribute | booking-service/internal/outbox/relay.go:28-34 | dealing messages out by key hash gives each partition its share of the batch, in order |
| RelayWorker.RecordIds | booking-service/internal/repo/outbox/outbox.go:72-75 | the ids marked sent are those of the records |
| RelayWorker.WriteMessages | booking-service/internal/outbox/relay.go:73 | every partition that was to get its whole share has it in its log, whatever others append in between; alone, each log grows by the given prefix of its share and by nothing else |
| RelayWorker.PublishBatch | booking-service/internal/repo/outbox/outbox.go:68-85 | every record ends marked and in its partition's log, marked by one step that lowers the unsent rows by the batch; alone, every partition gets the whole share and nothing else changes |
| RelayWorker.AbortBatch | booking-service/internal/repo/outbox/outbox.go:26-35 | a failed batch marks nothing and leaves no lock, whatever others do; alone, the tables are as before and only prefixes may have reached the logs |
| RelayWorker.ProcessBatch | booking-service/internal/repo/outbox/outbox.go:30-86 | with anyone's steps between its statements: marks exactly the batch it selected, each payload then being unaltered in the log its booking hashes to, or fails, marks nothing and reports zero; a COMMIT whose answer is lost reports zero and marks all |
| RelayWorker.FinishLowersUnsent | booking-service/internal/repo/outbox/outbox.go:77-85 | whoever else holds locks, finishing a batch takes exactly its rows from unsent to sent |
| RelayWorker.FinishedIsSent | booking-service/internal/repo/outbox/outbox.go:68-85 | after the mark every record is sent and logged |
| RelayWorker.OneCall | booking-service/internal/outbox/relay.go:61-85 | reports zero only after a failure or when no unlocked unsent row is left; alone, it publishes up to 100 of the unlocked rows and lowers the unsent rows by as many, whoever holds locks |
| RelayWorker.Drain | booking-service/internal/outbox/relay.go:46-54 | with anyone's steps between and inside the calls: every call but the last published something, and the loop stops exactly on a failure, on time running out, or when no unlocked unsent row is left |
| RelayWorker.DrainAlone | booking-service/internal/outbox/relay.go:46-54 | with no new commits and no other relay it makes ceil(n/100)+1 calls and leaves no unsent row, unless time runs out or a call fails, at which it stops |
| RelayWorker.Run | booking-service/internal/outbox/relay.go:38-59 | one call a tick, then the drain, each call as above whatever runs in between |
| Clusters.OthersAreSafe | booking-service/internal/repo/outbox/outbox.go:30-35 | whatever everybody else does, a batch keeps its rows and its lock, and no part of the pipeline goes backwards |
| Pipeline.LoggedIsTrue | notification-service/migrations/0001_create_notifications.up.sql:4-8 | every logged message is keyed by its booking, decodes, has a known type and a positive length, and tells the truth about the tables |
| Pipeline.FinishMarksStoredRows | booking-service/internal/repo/outbox/outbox.go:77-80 | the rows a relay marks are still in the outbox |
| Pipeline.NextKeepsInv | booking-service/internal/repo/outbox/outbox.go:30-86 | every step of database, relay or consumer keeps the invariant of the whole pipeline |
| Pipeline.RunsKeepInv | notification-service/internal/kafka/consumer.go:36-84 | over every run the invariant holds and no part ever goes backwards |
| PipelineTheorems.NoSilentLoss | booking-service/internal/repo/booking/booking.go:55-83 | in every reachable state each committed transition is in an unsent row, in a log at or above the committed offset, in the notifications table, or recorded as skipped |
| PipelineTheorems.QuiescentRefinement | notification-service/internal/service/notification/notification.go:24-60 | a drained pipeline has exactly one truthful notification per committed transition, minus recorded skips |
| PipelineTheorems.EveryWayToRestSettles | notification-service/internal/service/notification/notification.go:24-60 | from any reachable state and by any run in which no insert into the notifications table fails, crashes, requests and failed publishes included: at rest exactly the committed transitions are notified, truthfully, but for what had been skipped before the run |
| PipelineTheorems.OrderlyRunsKeepOrder | booking-service/internal/repo/outbox/outbox.go:37-45 | with any number of relays: over every run whose selects are safe, each log keeps creations before cancellations and so does the table, up to recorded skips |
| PipelineTheorems.CreationPrecedesCancellation | booking-service/internal/outbox/relay.go:31 | with one relay, which selects only when no earlier call's transaction is open, and any number of partitions: every cancellation in a log follows its creation, and a cancelled notification implies the created one or its skip |
| PipelineTheorems.SelectKeepsOrderExactlyWhenSafe | booking-service/internal/repo/outbox/outbox.go:37-45 | with several relays a select keeps the order if and only if it picks no cancelled row whose created row is locked elsewhere and not yet logged |
| PipelineTheorems.UnsafeSelectMisorders | booking-service/internal/repo/outbox/outbox.go:43 | every other select lets the next write log a cancellation before its creation |
| Misordering.ContendedIsReachable | booking-service/internal/repo/outbox/outbox.go:43 | a run of two bookings' statements and one relay's select leads to a state in which the next select offends, for every configuration |
| Misordering.TwoRelaysMayMisorder | booking-service/internal/repo/outbox/outbox.go:43 | a complete run that logs a cancellation before its creation, for every number of partitions and every balancer |
| PipelineTheorems.OpenBatchesAreDisjoint | booking-service/internal/repo/outbox/outbox.go:37-45 | any number of in-flight batches are pairwise disjoint and unsent |
| PipelineTheorems.SentMeansLogged | booking-service/internal/repo/outbox/outbox.go:77-85 | over any run no outbox row disappears or changes content, a mark is never cleared, and a marked row is in its log |
| PipelineTheorems.LoggedIsStored | booking-service/internal/outbox/relay.go:64-71 | in every reachable state each logged value is, unaltered, the payload of a stored outbox row with that row's id, keyed by its booking and in the partition the key hashes to |
| PipelineTheorems.MarkedIsLogged | booking-service/internal/repo/outbox/outbox.go:77-85 | and the payload of each marked row is a value in a log |
| PipelineTheorems.CommittedIsHandled | notification-service/internal/kafka/consumer.go:46-82 | every offset below the committed one has been handled, and messages taken equal consumed plus errors |
| PipelineTheorems.OnlyTheDatabaseSkips | notification-service/internal/kafka/consumer.go:60-73 | with the database up, no message of a reachable log is skipped or counted as an error |
| PipelineTheorems.BroadcastAtMostOnce | notification-service/internal/service/notification/notification.go:50-57 | each transition is broadcast at most once per run, as the stored row |
| PipelineTheorems.NotificationsAreForever | notification-service/internal/repo/notification/notification.go:20-31 | over any run a notification keeps its id, content and creation time, and once read stays read |
| DeliveryProofs.StepKeepsSink | notification-service/internal/kafka/consumer.go:36-84 | fetches, inserts, broadcasts, commits, failed commits, crashes, rebalances and reads keep the consumer's invariant: whatever an offset, the reader or the loop has passed is stored or recorded as skipped |
| DeliveryProofs.StepSinkEvolves | notification-service/internal/repo/notification/notification.go:20-31 | no step removes or rewrites a notification, forgets a skip or takes back a broadcast |
| DeliveryProofs.ProcessExactly | notification-service/internal/kafka/consumer.go:46-82 | what a booking event does to table, skips and counters, written out: a row of its (booking, type) is stored, as the event says, unread and timed now, if and only if there is none, its length is positive and the insert takes effect; it counts as an error and a skip if and only if the insert errs |
| DeliveryProofs.OthersStoreNothing | notification-service/internal/kafka/consumer.go:46-57 | a payload that does not decode counts as an error, an event of another type as consumed, and neither touches anything else |
| DeliveryProofs.OffsetsOnlyAdvance | notification-service/internal/kafka/consumer.go:54-82 | as long as no rebalance catches a message in hand, no step lowers a committed offset |
| DeliveryProofs.RebalanceMayLowerAnOffset | notification-service/internal/kafka/consumer.go:54-82 | and otherwise a run of it does |
| DeliveryProofs.StepKeepsCausalTable | notification-service/internal/service/notification/notification.go:24-60 | over causal logs a cancelled notification always has its created one, or a recorded skip of it |
| DeliveryProofs.ReadTouchesOneOwnRow | notification-service/internal/repo/notification/notification.go:73-87 | marking one notification changes at most that row, and only for its owner |
| DeliveryProofs.InsertIsProcess | notification-service/internal/repo/notification/notification.go:20-31 | the replayed insert is what the loop body does to the table |
| DeliveryProofs.RedeliveryIsIdempotent | notification-service/internal/repo/notification/notification.go:20-31 | delivering any selection of delivered events again, in any order, leaves the table as the first delivery did |
| ConsumerWorker.Consumer.Create | notification-service/internal/repo/notification/notification.go:20-31 | the row is stored if and only if the INSERT takes effect, its length is positive and its (booking, type) is new; the flag says so, unless an error is reported, which may hide a stored row |
| ConsumerWorker.Consumer.CreateFromEvent | notification-service/internal/service/notification/notification.go:24-60 | other types do nothing; a fresh row, the event's data, unread, with the turn's id and time, is stored and then broadcast, a duplicate is neither, an error broadcasts nothing, whether or not the row is in; these are the machine's steps, whatever happens in between |
| ConsumerWorker.Consumer.MarkAsRead | notification-service/internal/repo/notification/notification.go:73-87 | exactly the rows with this id and user become read and nothing else changes; found exactly when there is one; it is the machine's read step |
| ConsumerWorker.Consumer.MarkAllAsRead | notification-service/internal/repo/notification/notification.go:89-98 | exactly the user's rows become read and nothing else changes; it is the machine's read-all step |
| ConsumerWorker.Consumer.HandleNext | notification-service/internal/kafka/consumer.go:46-82 | one pass is exactly the steps fetch, process, broadcast if a row was stored, and commit, on all three commit paths, whatever happens in between, including a commit that takes effect although it reports an error |
| ConsumerWorker.Consumer.Run | notification-service/internal/kafka/consumer.go:36-84 | from any state the group can be in, while logs grow, users read and partitions are handed out again: the loop's steps are those of its passes, in order; the consumer's invariant at the end, taken equals consumed plus errors; it ends with an error on the first fetch or commit that reports one and only then |
| ConsumerWorker.Consumer.Restart | notification-service/cmd/main.go:92-103 | a new process, whatever the old one was doing: the reader at the committed offsets, the table as it is, the counters at zero |
| ConsumerWorker.MovesKeepSink | notification-service/internal/kafka/consumer.go:36-84 | the consumer's own steps and everything that may happen in between keep its invariant |
| ConsumerWorker.ReadOnlyMarks | notification-service/internal/repo/notification/notification.go:73-98 | both UPDATEs do only what may happen in between |
| Settlement.FinishTurn | notification-service/internal/kafka/consumer.go:46-82 | from any reachable state the message in hand is finished and its offset committed, by steps none of which fails, and nothing but the consumer moves |
| Settlement.Settle | booking-service/internal/outbox/relay.go:46-54 | from every reachable state, crashes and all, a run of relay and consumer steps in which nothing crashes and no insert or offset commit fails brings the pipeline to rest with every log read and committed to its end; there exactly the committed transitions are notified, truthfully, but for what had been skipped before |
| Settlement.SmoothRunsProgress | booking-service/internal/outbox/relay.go:46-54 | no such run takes anything back |
| Hub.Registry.Append | notification-service/internal/hub/hub.go:30 | the list plus the new channel, in place while capacity lasts |
| Hub.Registry.Subscribe | notification-service/internal/hub/hub.go:23-53 | refuses exactly at ten; otherwise the user's list grows by one fresh empty channel and nobody else's changes |
| Hub.Registry.Unsubscribe | notification-service/internal/hub/hub.go:33-50 | removes exactly this channel from the user's set, is a no-op the second time, leaves no empty list, no nil and no duplicate |
| Hub.Registry.SwapOut | notification-service/internal/hub/hub.go:40-43 | the last entry fills the gap, its old place is nil, the slice is one shorter in the same array |
| Hub.SwapRemoves | notification-service/internal/hub/hub.go:38-45 | swap-removal takes one element out of the set and keeps the rest distinct and non-nil |
| Hub.SnapshotOutlivesRemoval | notification-service/internal/hub/hub.go:56-59 | a snapshot taken before a removal is not changed by it |
| Hub.Registry.Snapshot | notification-service/internal/hub/hub.go:56-59 | a fresh copy of the user's list |
| HubObjects.LiveHub.MembersAreLive | notification-service/internal/hub/hub.go:12-15 | the channels on a user's list are those of the machine's live subscriptions of the user |
| HubObjects.LiveHub.Subscribe | notification-service/internal/hub/hub.go:23-53 | the machine's join, refused exactly when the machine lets nobody join |
| HubObjects.LiveHub.Unsubscribe | notification-service/internal/hub/hub.go:33-50 | the machine's leave, the first time and every further time |
| HubObjects.LiveHub.Snapshot | notification-service/internal/hub/hub.go:56-59 | the machine's snapshot: the copied array holds the channels of exactly the user's live subscriptions, each once |
| HubObjects.LiveHub.TrySend | notification-service/internal/hub/hub.go:62-65 | the machine's send to the next channel of the snapshot, dropped exactly when 16 are waiting |
| HubObjects.LiveHub.Receive | notification-service/internal/http/handlers/sse.go:99-102 | the machine's receive: the stream gets the oldest notification waiting |
| HubObjects.LiveHub.Broadcast | notification-service/internal/hub/hub.go:55-67 | with anyone's steps between its sends, a run of the machine in which the broadcast's own steps are one snapshot, one send to each channel found, one landing |
| HubObjects.AloneOffersEachOnce | notification-service/internal/hub/hub.go:55-67 | undisturbed, a broadcast offers the notification once to each of the user's live streams and to no other |
| HubDelivery.HubStepKeepsInv | notification-service/internal/hub/hub.go:23-67 | subscribing, leaving, snapshots, sends and receives keep every stream's account, however broadcasts overlap |
| HubDelivery.HubDelivers | notification-service/internal/hub/hub.go:55-67 | over every run a stream has received or buffered only broadcasts of its own user since it began, none twice, at most 16 buffered on at most ten streams, and while it lives every broadcast is delivered, dropped or still owed, and only one of these |
| HubDelivery.DropsOnlyWhenFull | notification-service/internal/hub/hub.go:62-65 | over every run, each broadcast a stream lost was lost in a send that found 16 waiting in its buffer |
| HubDelivery.NothingLostEarly | notification-service/internal/hub/hub.go:29 | a stream that has seen at most 16 broadcasts has lost none, however slowly it reads |
| HubOrder.OrderIsSubsequence | notification-service/internal/hub/hub.go:59-66 | a stream is in order exactly when what it got is a subsequence of its user's broadcasts, none of which is repeated |
| HubOrder.UnsafeSnapMisorders | notification-service/internal/hub/hub.go:59-66 | from every state: a broadcast that starts while a live stream is owed an earlier one can reach it first, by sends and receives alone |
| HubOrder.SnapIsHarmlessExactlyWhenSafe | notification-service/internal/hub/hub.go:55-67 | as long as nothing under way can misorder a stream, a broadcast may start without harm if and only if its user's live streams are owed nothing |
| HubOrder.SafeRunsDeliverInOrder | notification-service/internal/hub/hub.go:55-67 | over every run whose broadcasts start under that guard, each stream gets an in-order subsequence |
| HubOrder.UnsafeSnapIsReachable | notification-service/internal/hub/hub.go:55-67 | the hub itself lets a broadcast start outside the guard |
| Fanout.ConsumerBroadcastsSafely | notification-service/internal/service/notification/notification.go:50-57 | over every run of the whole process, crashes included, the consumer loop broadcasts only under the guard |
| Fanout.StreamsTellTheTruthInOrder | notification-service/internal/service/notification/notification.go:50-57 | end to end: what a stream gets is an in-order subsequence without repeats of what the process broadcast to its user; each is that user's stored row and agrees with booking, slot and room |
| CausalStreams.CancellationFirstMeansSkipped | notification-service/internal/kafka/consumer.go:60-73 | end to end, over every run with safe selects: a stream that got a booking's cancellation before its creation got a creation that had been skipped |
| CausalStreams.OneRelayShowsCreationsFirst | booking-service/internal/outbox/relay.go:31 | the same for every run with a single relay |
| CausalStreams.LateCreationMayComeExactly | notification-service/internal/repo/notification/notification.go:20-31 | once the cancellation has been broadcast, an idle loop can still broadcast the creation, on the logs as they are, if and only if it has been skipped, is not stored and a message announcing it lies ahead |
| LateCreations.CreationMayComeExactly | notification-service/internal/repo/notification/notification.go:20-31 | from any idle state: a creation can still be broadcast if and only if it is not stored and lies ahead of the reader or of a committed offset |
| Rereading.StreamMayGetTheCancellationFirst | notification-service/internal/kafka/consumer.go:60-73 | a complete run with a single relay in which a stream gets a cancellation and then its creation, for every number of partitions and every balancer |
| Tokens.SweepsDoNotMatter | notification-service/internal/hub/token.go:29-47 | under a clock that does not run backwards, every run answers as if the sweeper had never run |
| Tokens.ConsumeSucceedsExactly | notification-service/internal/hub/token.go:58-70 | a token is accepted exactly when it was issued to that user, not consumed since, and at most 30 seconds ago |
| Tokens.AtMostOneSuccess | notification-service/internal/hub/token.go:60-65 | no second use of a token succeeds |
| Tokens.TokenStore.IssueToken | notification-service/internal/hub/token.go:50-56 | the token stands for the user until 30 seconds from now, no other token changes |
| Tokens.TokenStore.ConsumeToken | notification-service/internal/hub/token.go:60-70 | accepted exactly when stored and not past its expiry, for the user it was issued to, and gone afterwards even when refused |
| Tokens.TokenStore.Cleanup | notification-service/internal/hub/token.go:35-42 | the deleting loop removes exactly the expired entries and changes no other |

## Left out

- HTTP routing, request decoding, status mapping, authentication, rooms and users as services: plumbing around the modelled calls.
- SSE byte writing, flushing, deadlines and heartbeats: a stream is what receives from its channel and unsubscribes.
- The conference client: its result is the parameter `link`, absent when it fails or was not asked for.
- ListBookings, ListUserBookings and the notification listing: queries that change nothing.
- Parsing of HH:MM: a time that does not parse is `None`.
- Configuration, metrics export, migrations runner and load tests: no behaviour to prove.
- Wall-clock liveness: the poll interval, the ten-second drain timeout and the conference timeout appear as numbers of steps or as faults.
- PipelineTheorems.CreationPrecedesCancellation: takes the transaction of every crashed or aborted call to be over before the next call selects; if it is not, `SelectKeepsOrderExactlyWhenSafe` says what still holds.
- SlotService.EnsureSlotRows: takes slots made from the room's stored schedule, as its only caller does; the repository would insert others too.
- Hub.Channel: the channel's ring buffer is a sequence, and a receive that would block is one that has not happened yet.
- RelayWorker.WriteMessages: writes each partition once per call; the writer's internal retries are repeated `Write` steps of the others.
- PostgreSQL's planner, snapshots and lock queues: statements are atomic steps with the guards stated above.
