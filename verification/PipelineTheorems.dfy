/** What holds of every reachable state, and over every run, of the whole pipeline. */
module PipelineTheorems {
  import opened Domain
  import opened BookingDb
  import opened BookingTheorems
  import opened RelayLog
  import opened RelayLogProofs
  import opened Delivery
  import opened DeliveryProofs
  import opened Pipeline

  function TypeOfKind(kind: NotifType): EventType {
    if kind.NotifCreated? then BookingCreated else BookingCancelled
  }

  // ---------- no silent loss ----------

  // The transition still has to be published.
  ghost predicate Unsent(s: State, b: Uuid, ty: EventType) {
    exists id :: id in s.db.outbox && s.db.outbox[id].sentAt.None? && IsEventOf(s.db.outbox[id].payload, b, ty)
  }

  // The transition is in some log, where a restarted consumer will still meet it.
  ghost predicate Awaited(s: State, b: Uuid, ty: EventType)
    requires |s.sink.committed| == |s.relay.logs|
  {
    exists p, i :: 0 <= p < |s.relay.logs| && s.sink.committed[p] <= i < |s.relay.logs[p]|
                   && IsEventOf(s.relay.logs[p][i].value, b, ty)
  }

  // Whatever crashed, was rolled back, repeated or redelivered, no committed transition is lost.
  lemma NoSilentLoss(cfg: Config, s: State, b: Uuid, kind: NotifType)
    requires cfg.Valid() && ReachableState(cfg, s) && Happened(s.db.bookings, b, TypeOfKind(kind))
    ensures |s.sink.committed| == |s.relay.logs|
    ensures Unsent(s, b, TypeOfKind(kind)) || Awaited(s, b, TypeOfKind(kind)) || Settled(s.sink, (b, kind))
  {
    ReachableInv(cfg, s);
    var ty := TypeOfKind(kind);
    assert HasRow(s.db.outbox, b, ty);
    var id :| id in s.db.outbox && IsEventOf(s.db.outbox[id].payload, b, ty);
    if s.db.outbox[id].sentAt.Some? {
      SentIsAwaitedOrSettled(cfg, s, id, kind);
    }
  }

  lemma SentIsAwaitedOrSettled(cfg: Config, s: State, id: Uuid, kind: NotifType)
    requires cfg.Valid() && RelayInv(cfg, s.db.outbox, s.relay) && SinkInv(s.relay.logs, s.sink)
    requires id in s.db.outbox && s.db.outbox[id].sentAt.Some?
    requires s.db.outbox[id].payload.Json? && s.db.outbox[id].payload.event.eventType == TypeOfKind(kind)
    ensures var b := s.db.outbox[id].payload.event.bookingId;
            Awaited(s, b, TypeOfKind(kind)) || Settled(s.sink, (b, kind))
  {
    var row := s.db.outbox[id];
    var p := HomeOf(cfg, row);
    assert MessageOf(row) in s.relay.logs[p];
    var i :| 0 <= i < |s.relay.logs[p]| && s.relay.logs[p][i] == MessageOf(row);
    if i < s.sink.committed[p] {
      assert Handled(s.sink, s.relay.logs[p][i].value);
    }
  }

  // ---------- quiescence ----------

  // Outbox drained, every log read to its end, the loop idle. Requests may still be in flight.
  ghost predicate Drained(s: State) {
    && (forall id :: id in s.db.outbox ==> s.db.outbox[id].sentAt.Some?)
    && s.sink.worker.Idle?
    && |s.sink.position| == |s.relay.logs|
    && forall p :: 0 <= p < |s.relay.logs| ==> s.sink.position[p] == |s.relay.logs[p]|
  }

  // A drained pipeline refines the simple picture: one notification per committed transition, telling the
  // truth about it, and none besides; only recorded skips may be missing.
  lemma QuiescentRefinement(cfg: Config, s: State)
    requires cfg.Valid() && ReachableState(cfg, s) && Drained(s)
    ensures forall b, kind :: Happened(s.db.bookings, b, TypeOfKind(kind)) ==> Settled(s.sink, (b, kind))
    ensures NothingInvented(s.db, s.sink.notifs)
    ensures s.sink.skipped == {} ==>
              forall b: Uuid, kind :: (b, kind) in s.sink.notifs <==> Happened(s.db.bookings, b, TypeOfKind(kind))
  {
    ReachableInv(cfg, s);
    NotificationsAreReal(s.db, s.sink);
    forall b, kind | Happened(s.db.bookings, b, TypeOfKind(kind))
      ensures Settled(s.sink, (b, kind))
    {
      assert HasRow(s.db.outbox, b, TypeOfKind(kind));
      var id :| id in s.db.outbox && IsEventOf(s.db.outbox[id].payload, b, TypeOfKind(kind));
      DrainedIsSettled(cfg, s, id, kind);
    }
  }

  // Every notification is about a committed transition and tells the truth about it.
  ghost predicate NothingInvented(db: Db, notifs: map<Key, Notification>) {
    forall k :: k in notifs ==>
      && notifs[k].bookingId == k.0 && notifs[k].kind == k.1
      && Happened(db.bookings, k.0, TypeOfKind(k.1)) && TrueOf(db, notifs[k])
  }

  lemma NotificationsAreReal(db: Db, s: Sink)
    requires TableIsTrue(db, s.notifs) && TableOk(s)
    ensures NothingInvented(db, s.notifs)
  {
    forall k | k in s.notifs
      ensures Happened(db.bookings, k.0, TypeOfKind(k.1))
    {
      assert TrueOf(db, s.notifs[k]);
    }
  }

  lemma DrainedIsSettled(cfg: Config, s: State, id: Uuid, kind: NotifType)
    requires cfg.Valid() && RelayInv(cfg, s.db.outbox, s.relay) && SinkInv(s.relay.logs, s.sink) && Drained(s)
    requires id in s.db.outbox && s.db.outbox[id].payload.Json?
    requires s.db.outbox[id].payload.event.eventType == TypeOfKind(kind)
    ensures Settled(s.sink, (s.db.outbox[id].payload.event.bookingId, kind))
  {
    var p := HomeOf(cfg, s.db.outbox[id]);
    assert MessageOf(s.db.outbox[id]) in s.relay.logs[p];
    var i :| 0 <= i < |s.relay.logs[p]| && s.relay.logs[p][i] == MessageOf(s.db.outbox[id]);
    assert Handled(s.sink, s.relay.logs[p][i].value);
  }

  // The notifications table fails to take a row it should.
  predicate InsertFails(step: Step) {
    step.OnSink? && step.sinkStep.Process? && !step.sinkStep.reply.Answered?
  }

  ghost predicate NoInsertFails(steps: seq<Step>) {
    forall i :: 0 <= i < |steps| ==> !InsertFails(steps[i])
  }

  lemma StepSkipsNothing(cfg: Config, s: State, step: Step)
    requires cfg.Valid() && ReachableState(cfg, s) && CanStep(cfg, s, step) && !InsertFails(step)
    ensures Next(cfg, s, step).sink.skipped == s.sink.skipped
  {
    if step.OnSink? && step.sinkStep.Process? {
      OnlyTheDatabaseSkips(cfg, s, step.sinkStep.id, step.sinkStep.now);
    }
  }

  lemma {:induction false} RunSkipsNothing(cfg: Config, s: State, steps: seq<Step>, s': State)
    requires cfg.Valid() && ReachableState(cfg, s) && Traces(cfg, s, steps, s') && NoInsertFails(steps)
    ensures s'.sink.skipped == s.sink.skipped
    decreases |steps|
  {
    if steps != [] {
      assert !InsertFails(steps[0]);
      StepSkipsNothing(cfg, s, steps[0]);
      NextIsReachable(cfg, s, steps[0]);
      RunSkipsNothing(cfg, Next(cfg, s, steps[0]), steps[1..], s');
    }
  }

  /**
   Whatever state the pipeline is in and however it gets to rest, requests, crashes, failed publishes and failed
   commits included: as long as no insert into the notifications table fails on the way, exactly the committed
   transitions have their notification, but for what had been skipped before, and each tells the truth.
   */
  lemma EveryWayToRestSettles(cfg: Config, s: State, steps: seq<Step>, s': State)
    requires cfg.Valid() && ReachableState(cfg, s) && Traces(cfg, s, steps, s') && NoInsertFails(steps) && Drained(s')
    ensures s'.sink.skipped == s.sink.skipped && NothingInvented(s'.db, s'.sink.notifs)
    ensures forall b: Uuid, kind :: (b, kind) !in s.sink.skipped ==>
              ((b, kind) in s'.sink.notifs <==> Happened(s'.db.bookings, b, TypeOfKind(kind)))
  {
    RunSkipsNothing(cfg, s, steps, s');
    RunsStayReachable(cfg, s, steps, s');
    QuiescentRefinement(cfg, s');
  }

  // ---------- order ----------

  // A relay that selects picks no cancelled row while another holds its created row unpublished.
  predicate OrderlyStep(cfg: Config, s: State, step: Step)
    requires cfg.Valid()
  {
    step.OnRelay? && step.relayStep.Select? ==>
      |s.relay.logs| == cfg.partitions && SafeSelect(cfg, s.db.outbox, s.relay, step.relayStep.rows)
  }

  // A single relay selects only when no ProcessBatch transaction is open.
  predicate LoneStep(s: State, step: Step) {
    step.OnRelay? && step.relayStep.Select? ==> forall r :: r in s.relay.batches ==> !s.relay.batches[r].open
  }

  ghost predicate OrderlyRuns(cfg: Config, s: State, steps: seq<Step>, s': State)
    requires cfg.Valid()
    decreases |steps|
  {
    if steps == [] then s == s'
    else
      && CanStep(cfg, s, steps[0]) && OrderlyStep(cfg, s, steps[0])
      && OrderlyRuns(cfg, Next(cfg, s, steps[0]), steps[1..], s')
  }

  ghost predicate OneRelayRuns(cfg: Config, s: State, steps: seq<Step>, s': State)
    requires cfg.Valid()
    decreases |steps|
  {
    if steps == [] then s == s'
    else
      && CanStep(cfg, s, steps[0]) && LoneStep(s, steps[0])
      && OneRelayRuns(cfg, Next(cfg, s, steps[0]), steps[1..], s')
  }

  lemma LoneStepIsOrderly(cfg: Config, s: State, step: Step)
    requires cfg.Valid() && Inv(cfg, s) && CanStep(cfg, s, step) && LoneStep(s, step)
    ensures OrderlyStep(cfg, s, step)
  {
    if step.OnRelay? && step.relayStep.Select? {
      LoneSelectIsSafe(cfg, s.db.outbox, s.relay, step.relayStep.rows);
    }
  }

  lemma {:induction false} OneRelayIsOrderly(cfg: Config, s: State, steps: seq<Step>, s': State)
    requires cfg.Valid() && Inv(cfg, s) && OneRelayRuns(cfg, s, steps, s')
    ensures OrderlyRuns(cfg, s, steps, s')
    decreases |steps|
  {
    if steps != [] {
      LoneStepIsOrderly(cfg, s, steps[0]);
      NextKeepsInv(cfg, s, steps[0]);
      OneRelayIsOrderly(cfg, Next(cfg, s, steps[0]), steps[1..], s');
    }
  }

  lemma CreationIsOlder(db: Db)
    requires DbInv(db)
    ensures CreatedFirst(db.outbox)
  {
    forall c | c in db.outbox && db.outbox[c].payload.Json? && db.outbox[c].payload.event.eventType.BookingCancelled?
      ensures CreatedBefore(db.outbox, db.outbox[c].payload.event.bookingId, db.outbox[c].createdAt)
    {
      var b := db.outbox[c].payload.event.bookingId;
      assert RowOk(db, db.outbox[c]) && HasRow(db.outbox, b, BookingCreated);
      var id :| id in db.outbox && IsEventOf(db.outbox[id].payload, b, BookingCreated);
      assert RowOk(db, db.outbox[id]);
    }
  }

  lemma StepKeepsOrder(cfg: Config, s: State, step: Step)
    requires cfg.Valid() && Inv(cfg, s) && CanStep(cfg, s, step)
    requires CausalInv(cfg, s.relay) && CausalTable(s.sink)
    requires OrderlyStep(cfg, s, step)
    ensures CausalInv(cfg, Next(cfg, s, step).relay) && CausalTable(Next(cfg, s, step).sink)
  {
    match step
    case OnRelay(Select(r, rows)) =>
      CreationIsOlder(s.db);
      SafeSelectKeepsCausal(cfg, s.db.outbox, s.relay, r, rows);
    case OnRelay(Write(r, p, j)) => WriteKeepsCausal(cfg, s.relay, r, p, j);
    case OnSink(k) => StepKeepsCausalTable(s.relay.logs, s.sink, k);
    case _ =>
  }

  lemma {:induction false} OrderlyRunsKeepOrder(cfg: Config, s: State, steps: seq<Step>, s': State)
    requires cfg.Valid() && Inv(cfg, s) && CausalInv(cfg, s.relay) && CausalTable(s.sink)
    requires OrderlyRuns(cfg, s, steps, s')
    ensures CausalInv(cfg, s'.relay) && CausalTable(s'.sink)
    decreases |steps|
  {
    if steps != [] {
      NextKeepsInv(cfg, s, steps[0]);
      StepKeepsOrder(cfg, s, steps[0]);
      OrderlyRunsKeepOrder(cfg, Next(cfg, s, steps[0]), steps[1..], s');
    }
  }

  // With one relay, any number of partitions, crashes, repeated and late writes: in every log each
  // cancellation follows its creation, and a cancelled notification implies the created one or its skip.
  lemma CreationPrecedesCancellation(cfg: Config, steps: seq<Step>, s: State)
    requires cfg.Valid() && OneRelayRuns(cfg, Init(cfg), steps, s)
    ensures forall p :: 0 <= p < |s.relay.logs| ==> CausalLog(s.relay.logs[p])
    ensures CausalTable(s.sink)
  {
    OneRelayIsOrderly(cfg, Init(cfg), steps, s);
    OrderlyRunsKeepOrder(cfg, Init(cfg), steps, s);
  }

  // With several relays the condition is exact: a select keeps the order if and only if it is safe,
  lemma SelectKeepsOrderExactlyWhenSafe(cfg: Config, s: State, r: nat, rows: seq<OutboxRow>)
    requires cfg.Valid() && ReachableState(cfg, s) && CausalInv(cfg, s.relay)
    requires CanStep(cfg, s, OnRelay(Select(r, rows)))
    ensures |s.relay.logs| == cfg.partitions
    ensures CausalInv(cfg, RelayApply(cfg, s.relay, Select(r, rows))) <==> SafeSelect(cfg, s.db.outbox, s.relay, rows)
  {
    ReachableInv(cfg, s);
    CreationIsOlder(s.db);
    SelectKeepsOrderIff(cfg, s.db.outbox, s.relay, r, rows);
  }

  // and an unsafe one lets the next write log a cancellation before its creation.
  lemma UnsafeSelectMisorders(cfg: Config, s: State, r: nat, rows: seq<OutboxRow>, i: nat)
    requires cfg.Valid() && ReachableState(cfg, s) && CanStep(cfg, s, OnRelay(Select(r, rows)))
    requires |s.relay.logs| == cfg.partitions && i < |rows| && Offends(cfg, s.db.outbox, s.relay, rows[i])
    ensures var selected := RelayApply(cfg, s.relay, Select(r, rows));
            var write := Write(r, HomeOf(cfg, rows[i]), |rows|);
            && RelayEnabled(cfg, s.db.outbox, selected, write)
            && !CausalLog(RelayApply(cfg, selected, write).logs[HomeOf(cfg, rows[i])])
  {
    ReachableInv(cfg, s);
    UnsafeSelectBreaksOrder(cfg, s.db.outbox, s.relay, r, rows, i);
  }

  // ---------- concurrent relays ----------

  // Open batches never share a row and hold only rows still unsent.
  lemma OpenBatchesAreDisjoint(cfg: Config, s: State, r: nat, q: nat)
    requires cfg.Valid() && ReachableState(cfg, s)
    requires r in s.relay.batches && s.relay.batches[r].open
    requires q in s.relay.batches && s.relay.batches[q].open
    ensures r != q ==> BatchIds(s, r) !! BatchIds(s, q)
    ensures forall id :: id in BatchIds(s, r) ==> id in s.db.outbox && s.db.outbox[id].sentAt.None?
  {
    ReachableInv(cfg, s);
    assert r != q ==> Separate(s.relay.batches[r], s.relay.batches[q]);
    OpenBatchIsUnsent(cfg, s.db.outbox, s.relay.logs, s.relay.batches[r]);
  }

  lemma OpenBatchIsUnsent(cfg: Config, outbox: map<Uuid, OutboxRow>, logs: seq<seq<Message>>, b: Batch)
    requires cfg.Valid() && |logs| == cfg.partitions && BatchOk(cfg, outbox, logs, b) && b.open
    ensures forall id :: id in Ids(b.rows) ==> id in outbox && outbox[id].sentAt.None?
  {
    forall i | 0 <= i < |b.rows|
      ensures b.rows[i].id in outbox && outbox[b.rows[i].id].sentAt.None?
    {
      assert CapturedFrom(outbox, b.rows[i]);
    }
  }

  // Over any run: rows stay in the outbox, a mark once set stays set, and implies a logged message.
  lemma SentMeansLogged(cfg: Config, s: State, steps: seq<Step>, s': State, id: Uuid)
    requires cfg.Valid() && ReachableState(cfg, s) && Traces(cfg, s, steps, s') && id in s.db.outbox
    ensures |s'.relay.logs| == cfg.partitions
    ensures id in s'.db.outbox && s'.db.outbox[id] == s.db.outbox[id].(sentAt := s'.db.outbox[id].sentAt)
    ensures s.db.outbox[id].sentAt.Some? ==> s'.db.outbox[id].sentAt.Some?
    ensures s'.db.outbox[id].sentAt.Some? ==> MessageOf(s.db.outbox[id]) in s'.relay.logs[HomeOf(cfg, s.db.outbox[id])]
  {
    ReachableInv(cfg, s);
    RunsKeepInv(cfg, s, steps, s');
    SameRowSameMessage(cfg, s.db.outbox, s'.db.outbox, id);
  }

  lemma SameRowSameMessage(cfg: Config, outbox: map<Uuid, OutboxRow>, outbox': map<Uuid, OutboxRow>, id: Uuid)
    requires cfg.Valid() && OutboxEvolves(outbox, outbox') && id in outbox
    ensures id in outbox' && RowEvolves(outbox[id], outbox'[id])
    ensures MessageOf(outbox'[id]) == MessageOf(outbox[id]) && HomeOf(cfg, outbox'[id]) == HomeOf(cfg, outbox[id])
  {
  }

  // What is in a log is, unaltered, the payload of an outbox row, in the partition its booking hashes to.
  lemma LoggedIsStored(cfg: Config, s: State, p: nat, i: nat) returns (id: Uuid)
    requires cfg.Valid() && ReachableState(cfg, s) && p < |s.relay.logs| && i < |s.relay.logs[p]|
    ensures id in s.db.outbox && s.relay.logs[p][i].value == s.db.outbox[id].payload
    ensures s.db.outbox[id].payload.Json? && s.db.outbox[id].payload.event.eventId == id
    ensures s.relay.logs[p][i].key == Some(s.db.outbox[id].payload.event.bookingId)
    ensures cfg.hash(s.relay.logs[p][i].key) % cfg.partitions == p
  {
    ReachableInv(cfg, s);
    assert FromOutbox(cfg, s.db.outbox, p, s.relay.logs[p][i]);
    id :| id in s.db.outbox && HomeOf(cfg, s.db.outbox[id]) == p && MessageOf(s.db.outbox[id]) == s.relay.logs[p][i];
    assert RowOk(s.db, s.db.outbox[id]);
  }

  // And the payload of a marked row is in that log.
  lemma MarkedIsLogged(cfg: Config, s: State, id: Uuid) returns (p: nat, i: nat)
    requires cfg.Valid() && ReachableState(cfg, s) && id in s.db.outbox && s.db.outbox[id].sentAt.Some?
    ensures p < |s.relay.logs| && i < |s.relay.logs[p]| && s.relay.logs[p][i].value == s.db.outbox[id].payload
  {
    ReachableInv(cfg, s);
    p := HomeOf(cfg, s.db.outbox[id]);
    assert MessageOf(s.db.outbox[id]) in s.relay.logs[p];
    i :| 0 <= i < |s.relay.logs[p]| && s.relay.logs[p][i] == MessageOf(s.db.outbox[id]);
  }

  // ---------- the consumer ----------

  // Every offset below the committed one has been handled, and in one process messages are conserved.
  lemma CommittedIsHandled(cfg: Config, s: State, p: nat, i: nat)
    requires cfg.Valid() && ReachableState(cfg, s) && p < |s.relay.logs|
    ensures |s.sink.committed| == |s.relay.logs| && s.sink.committed[p] <= |s.relay.logs[p]|
    ensures i < s.sink.committed[p] ==> Handled(s.sink, s.relay.logs[p][i].value)
    ensures s.sink.worker.Idle? ==> s.sink.taken == s.sink.consumed + s.sink.errors
  {
    ReachableInv(cfg, s);
  }

  // With the database up, no message of a reachable log is ever skipped or counted as an error.
  lemma OnlyTheDatabaseSkips(cfg: Config, s: State, id: Uuid, now: Time)
    requires cfg.Valid() && ReachableState(cfg, s) && SinkEnabled(s.relay.logs, s.sink, Process(Answered, id, now))
    ensures var sink' := SinkApply(s.relay.logs, s.sink, Process(Answered, id, now));
            sink'.skipped == s.sink.skipped && sink'.errors == s.sink.errors
  {
    ReachableInv(cfg, s);
    LoggedIsTrue(cfg, s, s.sink.worker.p, s.sink.worker.off);
    WitnessedIsNotSkipped(s.db, s.sink, s.sink.worker.p, s.sink.worker.off,
                          s.relay.logs[s.sink.worker.p][s.sink.worker.off], id, now);
  }

  lemma WitnessedIsNotSkipped(db: Db, s: Sink, p: nat, off: nat, m: Message, id: Uuid, now: Time)
    requires Witnessed(db, m)
    ensures var s' := AfterMessage(s, p, off, m.value, Answered, id, now);
            s'.skipped == s.skipped && s'.errors == s.errors
  {
  }

  // Each transition is broadcast at most once, however often it is redelivered, and as the stored row.
  lemma BroadcastAtMostOnce(cfg: Config, s: State, i: nat, j: nat)
    requires cfg.Valid() && ReachableState(cfg, s) && i < |s.sink.broadcasts| && j < |s.sink.broadcasts|
    requires SameKey(s.sink.broadcasts[i], s.sink.broadcasts[j])
    ensures i == j && IsRowOf(s.sink, s.sink.broadcasts[i])
  {
    ReachableInv(cfg, s);
  }

  // Over any run a notification keeps its id, content and creation time, and is never unread again.
  lemma NotificationsAreForever(cfg: Config, s: State, steps: seq<Step>, s': State, k: Key)
    requires cfg.Valid() && ReachableState(cfg, s) && Traces(cfg, s, steps, s') && k in s.sink.notifs
    ensures k in s'.sink.notifs && s'.sink.notifs[k] == s.sink.notifs[k].(isRead := s'.sink.notifs[k].isRead)
    ensures s.sink.notifs[k].isRead ==> s'.sink.notifs[k].isRead
  {
    ReachableInv(cfg, s);
    RunsKeepInv(cfg, s, steps, s');
    assert RowKept(s.sink.notifs[k], s'.sink.notifs[k]);
  }
}
