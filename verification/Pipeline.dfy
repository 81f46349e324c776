/**
 The whole pipeline as one state machine: booking database, outbox relays, partition logs, consumer.
 Any interleaving of any number of requests, relays, crashes and redeliveries is a run of it.
 */
module Pipeline {
  import opened Domain
  import opened BookingDb
  import opened BookingDbProofs
  import opened RelayLog
  import opened RelayLogProofs
  import opened Delivery
  import opened DeliveryProofs

  datatype State = State(db: Db, relay: Relay, sink: Sink)

  datatype Step = OnDb(dbStep: DbStep) | OnRelay(relayStep: RelayStep) | OnSink(sinkStep: SinkStep)

  function Init(cfg: Config): State {
    State(EmptyDb(), Relay(map[], seq(cfg.partitions, _ => [])), InitSink(cfg.partitions))
  }

  function BatchIds(s: State, r: nat): set<Uuid>
    requires r in s.relay.batches
  {
    Ids(s.relay.batches[r].rows)
  }

  // Only a relay that finishes its batch marks rows sent.
  predicate CanStep(cfg: Config, s: State, step: Step)
    requires cfg.Valid()
  {
    match step
    case OnDb(d) => !d.MarkSent? && Enabled(s.db, d)
    case OnRelay(r) =>
      && RelayEnabled(cfg, s.db.outbox, s.relay, r)
      && (r.Finish? ==> Enabled(s.db, MarkSent(BatchIds(s, r.r))))
    case OnSink(k) => SinkEnabled(s.relay.logs, s.sink, k)
  }

  function Next(cfg: Config, s: State, step: Step): State
    requires cfg.Valid() && CanStep(cfg, s, step)
  {
    match step
    case OnDb(d) => s.(db := Apply(s.db, d))
    case OnRelay(r) =>
      var db := if r.Finish? then Apply(s.db, MarkSent(BatchIds(s, r.r))) else s.db;
      s.(db := db, relay := RelayApply(cfg, s.relay, r))
    case OnSink(k) => s.(sink := SinkApply(s.relay.logs, s.sink, k))
  }

  ghost predicate Traces(cfg: Config, s: State, steps: seq<Step>, s': State)
    requires cfg.Valid()
    decreases |steps|
  {
    if steps == [] then s == s'
    else CanStep(cfg, s, steps[0]) && Traces(cfg, Next(cfg, s, steps[0]), steps[1..], s')
  }

  ghost predicate ReachableState(cfg: Config, s: State)
    requires cfg.Valid()
  {
    exists steps :: Traces(cfg, Init(cfg), steps, s)
  }

  // ---------- the invariant ----------

  // A notification says what the booking, slot and room tables say.
  ghost predicate TrueOf(db: Db, n: Notification) {
    && n.bookingId in db.bookings
    && var b := db.bookings[n.bookingId];
    && (n.kind.NotifCancelled? ==> b.status.Cancelled?)
    && Joinable(db, b)
    && var slot := db.slots[b.slotId];
    && n.userId == b.userId && n.roomName == db.rooms[slot.roomId]
    && n.slotStart == slot.startAt && n.slotEnd == slot.endAt
  }

  ghost predicate TableIsTrue(db: Db, notifs: map<Key, Notification>) {
    forall k :: k in notifs ==> TrueOf(db, notifs[k])
  }

  ghost predicate Inv(cfg: Config, s: State)
    requires cfg.Valid()
  {
    && DbInv(s.db)
    && RelayInv(cfg, s.db.outbox, s.relay)
    && SinkInv(s.relay.logs, s.sink)
    && TableIsTrue(s.db, s.sink.notifs)
  }

  // What no step of any part ever undoes.
  ghost predicate Progress(s: State, s': State) {
    && Evolves(s.db, s'.db)
    && LogsGrow(s.relay.logs, s'.relay.logs)
    && SinkEvolves(s.sink, s'.sink)
  }

  // ---------- one step ----------

  lemma DbStepGrowsOutbox(db: Db, step: DbStep)
    requires TxsOk(db) && Enabled(db, step) && !step.MarkSent?
    ensures OutboxGrows(db.outbox, Apply(db, step).outbox)
  {
    match step
    case Commit(t) => assert TxOk(db, db.txs[t]);
    case _ =>
  }

  lemma TruthStays(db: Db, db': Db, notifs: map<Key, Notification>)
    requires TableIsTrue(db, notifs) && Evolves(db, db')
    ensures TableIsTrue(db', notifs)
  {
    forall k | k in notifs
      ensures TrueOf(db', notifs[k])
    {
      var b := notifs[k].bookingId;
      assert TrueOf(db, notifs[k]) && BookingEvolves(db.bookings[b], db'.bookings[b]);
    }
  }

  lemma DbStepKeepsInv(cfg: Config, s: State, d: DbStep)
    requires cfg.Valid() && Inv(cfg, s) && CanStep(cfg, s, OnDb(d))
    ensures Inv(cfg, Next(cfg, s, OnDb(d)))
  {
    StepKeepsInv(s.db, d);
    StepEvolves(s.db, d);
    DbStepGrowsOutbox(s.db, d);
    GrowthKeepsRelay(cfg, s.db.outbox, Apply(s.db, d).outbox, s.relay);
    TruthStays(s.db, Apply(s.db, d), s.sink.notifs);
  }

  lemma RelayStepKeepsInv(cfg: Config, s: State, r: RelayStep)
    requires cfg.Valid() && Inv(cfg, s) && CanStep(cfg, s, OnRelay(r))
    ensures Inv(cfg, Next(cfg, s, OnRelay(r)))
  {
    match r
    case Select(b, rows) => SelectKeepsRelay(cfg, s.db.outbox, s.relay, b, rows);
    case Write(b, p, j) =>
      WriteKeepsRelay(cfg, s.db.outbox, s.relay, b, p, j);
      WriteGrowsLogs(cfg, s.relay, b, p, j);
      GrowthKeepsSink(s.relay.logs, RelayApply(cfg, s.relay, r).logs, s.sink);
    case Finish(b) => FinishKeepsInv(cfg, s, b);
    case Release(b) => ReleaseKeepsRelay(cfg, s.db.outbox, s.relay, b);
  }

  lemma FinishKeepsInv(cfg: Config, s: State, b: nat)
    requires cfg.Valid() && Inv(cfg, s) && CanStep(cfg, s, OnRelay(Finish(b)))
    ensures Inv(cfg, Next(cfg, s, OnRelay(Finish(b))))
  {
    StepKeepsInv(s.db, MarkSent(BatchIds(s, b)));
    StepEvolves(s.db, MarkSent(BatchIds(s, b)));
    FinishKeepsRelay(cfg, s.db.outbox, s.relay, b, s.db.clock);
    TruthStays(s.db, Apply(s.db, MarkSent(BatchIds(s, b))), s.sink.notifs);
  }

  // The mark of a finishing relay always finds its rows.
  lemma FinishMarksStoredRows(cfg: Config, s: State, b: nat)
    requires cfg.Valid() && RelayInv(cfg, s.db.outbox, s.relay) && b in s.relay.batches
    ensures Enabled(s.db, MarkSent(BatchIds(s, b)))
  {
    assert BatchOk(cfg, s.db.outbox, s.relay.logs, s.relay.batches[b]);
    forall id | id in BatchIds(s, b)
      ensures id in s.db.outbox
    {
      var i :| 0 <= i < |s.relay.batches[b].rows| && s.relay.batches[b].rows[i].id == id;
      assert CapturedFrom(s.db.outbox, s.relay.batches[b].rows[i]);
    }
  }

  lemma SinkStepKeepsInv(cfg: Config, s: State, k: SinkStep)
    requires cfg.Valid() && Inv(cfg, s) && CanStep(cfg, s, OnSink(k))
    ensures Inv(cfg, Next(cfg, s, OnSink(k)))
  {
    StepKeepsSink(s.relay.logs, s.sink, k);
    SinkStepKeepsTruth(cfg, s, k);
  }

  lemma SinkStepKeepsTruth(cfg: Config, s: State, k: SinkStep)
    requires cfg.Valid() && DbInv(s.db) && RelayInv(cfg, s.db.outbox, s.relay) && TableIsTrue(s.db, s.sink.notifs)
    requires SinkEnabled(s.relay.logs, s.sink, k)
    ensures TableIsTrue(s.db, SinkApply(s.relay.logs, s.sink, k).notifs)
  {
    match k
    case Process(reply, id, now) =>
      LoggedIsTrue(cfg, s, s.sink.worker.p, s.sink.worker.off);
      ProcessKeepsTruth(s.db, s.relay.logs, s.sink, reply, id, now);
    case MarkAsRead(id, user) => ReadKeepsTruth(s.db, s.sink.notifs, Some(id), user);
    case MarkAllAsRead(user) => ReadKeepsTruth(s.db, s.sink.notifs, None, user);
    case _ =>
  }

  lemma ProcessKeepsTruth(db: Db, logs: seq<seq<Message>>, s: Sink, reply: Reply, id: Uuid, now: Time)
    requires TableIsTrue(db, s.notifs) && SinkEnabled(logs, s, Process(reply, id, now))
    requires Witnessed(db, logs[s.worker.p][s.worker.off])
    ensures TableIsTrue(db, SinkApply(logs, s, Process(reply, id, now)).notifs)
  {
    var notifs := SinkApply(logs, s, Process(reply, id, now)).notifs;
    forall key | key in notifs
      ensures TrueOf(db, notifs[key])
    {
      assert key in s.notifs ==> TrueOf(db, s.notifs[key]);
    }
  }

  lemma ReadKeepsTruth(db: Db, notifs: map<Key, Notification>, id: Option<Uuid>, user: Uuid)
    requires TableIsTrue(db, notifs)
    ensures TableIsTrue(db, Read(notifs, id, user))
  {
    forall key | key in notifs
      ensures TrueOf(db, Read(notifs, id, user)[key])
    {
      assert TrueOf(db, notifs[key]);
    }
  }

  // A message the notification service understands, and that the booking tables vouch for.
  ghost predicate Witnessed(db: Db, m: Message) {
    && m.value.Json?
    && var e := m.value.event;
    && m.key == Some(e.bookingId)
    && KindOf(e.eventType).Some?
    && e.slotStart < e.slotEnd
    && Describes(db, e)
    && (e.eventType.BookingCancelled? ==> db.bookings[e.bookingId].status.Cancelled?)
  }

  // Cross-service agreement: what is in a log is keyed by its booking, decodes, has a known type,
  // tells the truth, and passes the CHECK constraints of the notifications table.
  lemma LoggedIsTrue(cfg: Config, s: State, p: nat, i: nat)
    requires cfg.Valid() && DbInv(s.db) && RelayInv(cfg, s.db.outbox, s.relay)
    requires p < |s.relay.logs| && i < |s.relay.logs[p]|
    ensures Witnessed(s.db, s.relay.logs[p][i]) && PartitionOf(cfg, s.relay.logs[p][i].key) == p
  {
    assert FromOutbox(cfg, s.db.outbox, p, s.relay.logs[p][i]);
    var id :| id in s.db.outbox && HomeOf(cfg, s.db.outbox[id]) == p
              && MessageOf(s.db.outbox[id]) == s.relay.logs[p][i];
    assert RowOk(s.db, s.db.outbox[id]);
  }

  lemma NextKeepsInv(cfg: Config, s: State, step: Step)
    requires cfg.Valid() && Inv(cfg, s) && CanStep(cfg, s, step)
    ensures Inv(cfg, Next(cfg, s, step))
  {
    match step
    case OnDb(d) => DbStepKeepsInv(cfg, s, d);
    case OnRelay(r) => RelayStepKeepsInv(cfg, s, r);
    case OnSink(k) => SinkStepKeepsInv(cfg, s, k);
  }

  lemma ProgressReflexive(s: State)
    ensures Progress(s, s)
  {
  }

  lemma NextProgresses(cfg: Config, s: State, step: Step)
    requires cfg.Valid() && DbInv(s.db) && OffsetsOk(s.relay.logs, s.sink) && CanStep(cfg, s, step)
    ensures Progress(s, Next(cfg, s, step))
  {
    ProgressReflexive(s);
    match step
    case OnDb(d) => StepEvolves(s.db, d);
    case OnRelay(r) => RelayStepProgresses(cfg, s, r);
    case OnSink(k) => StepSinkEvolves(s.relay.logs, s.sink, k);
  }

  lemma RelayStepProgresses(cfg: Config, s: State, r: RelayStep)
    requires cfg.Valid() && DbInv(s.db) && CanStep(cfg, s, OnRelay(r))
    ensures Progress(s, Next(cfg, s, OnRelay(r)))
  {
    ProgressReflexive(s);
    match r
    case Finish(b) => StepEvolves(s.db, MarkSent(BatchIds(s, b)));
    case Write(b, p, j) => WriteGrowsLogs(cfg, s.relay, b, p, j);
    case _ =>
  }

  // ---------- all runs ----------

  lemma NotifsEvolveTransitive(a: map<Key, Notification>, b: map<Key, Notification>, c: map<Key, Notification>)
    requires NotifsEvolve(a, b) && NotifsEvolve(b, c)
    ensures NotifsEvolve(a, c)
  {
    forall k | k in a
      ensures k in c && RowKept(a[k], c[k])
    {
      assert RowKept(a[k], b[k]) && RowKept(b[k], c[k]);
    }
  }

  lemma ProgressTransitive(a: State, b: State, c: State)
    requires Progress(a, b) && Progress(b, c)
    ensures Progress(a, c)
  {
    EvolvesTransitive(a.db, b.db, c.db);
    NotifsEvolveTransitive(a.sink.notifs, b.sink.notifs, c.sink.notifs);
  }

  lemma {:induction false} RunsKeepInv(cfg: Config, s: State, steps: seq<Step>, s': State)
    requires cfg.Valid() && Inv(cfg, s) && Traces(cfg, s, steps, s')
    ensures Inv(cfg, s') && Progress(s, s')
    decreases |steps|
  {
    if steps == [] {
      ProgressReflexive(s);
    } else {
      NextKeepsInv(cfg, s, steps[0]);
      NextProgresses(cfg, s, steps[0]);
      RunsKeepInv(cfg, Next(cfg, s, steps[0]), steps[1..], s');
      ProgressTransitive(s, Next(cfg, s, steps[0]), s');
    }
  }

  lemma ReachableInv(cfg: Config, s: State)
    requires cfg.Valid() && ReachableState(cfg, s)
    ensures Inv(cfg, s)
  {
    var steps :| Traces(cfg, Init(cfg), steps, s);
    RunsKeepInv(cfg, Init(cfg), steps, s);
  }

  lemma {:induction false} TracesCompose(cfg: Config, s: State, steps: seq<Step>, mid: State,
                                         more: seq<Step>, s': State)
    requires cfg.Valid() && Traces(cfg, s, steps, mid) && Traces(cfg, mid, more, s')
    ensures Traces(cfg, s, steps + more, s')
    decreases |steps|
  {
    if steps == [] {
      assert steps + more == more;
    } else {
      TracesCompose(cfg, Next(cfg, s, steps[0]), steps[1..], mid, more, s');
      assert (steps + more)[1..] == steps[1..] + more;
    }
  }

  lemma RunsStayReachable(cfg: Config, s: State, more: seq<Step>, s': State)
    requires cfg.Valid() && ReachableState(cfg, s) && Traces(cfg, s, more, s')
    ensures ReachableState(cfg, s')
  {
    var steps :| Traces(cfg, Init(cfg), steps, s);
    TracesCompose(cfg, Init(cfg), steps, s, more, s');
  }

  lemma NextIsReachable(cfg: Config, s: State, step: Step)
    requires cfg.Valid() && ReachableState(cfg, s) && CanStep(cfg, s, step)
    ensures ReachableState(cfg, Next(cfg, s, step))
  {
    assert [step][1..] == [];
    assert Traces(cfg, s, [step], Next(cfg, s, step));
    RunsStayReachable(cfg, s, [step], Next(cfg, s, step));
  }
}
