/** A run in which a second relay picks a cancellation while the first still holds its creation. */
module Misordering {
  import opened Domain
  import opened SlotCalendar
  import opened BookingDb
  import opened RelayLog
  import opened Delivery
  import opened Pipeline
  import opened PipelineTheorems

  const MORNING := Slot(0, 0, 0, 30)
  const CREATE := Fresh(CreateOp(0, 0), 1)
  const CANCEL := Fresh(CancelOp(0, 0), 2)
  const BOOKED := Booking(0, 0, 0, Active, None, 1)
  const CREATED_ROW := RowSaying(0, BookingCreated, 1)
  const CANCELLED_ROW := RowSaying(1, BookingCancelled, 2)

  function RowSaying(id: Uuid, ty: EventType, at: Time): OutboxRow {
    OutboxRow(id, ty, Json(Event(id, ty, at, 0, 0, 0, "", 0, 30)), at, None)
  }

  // The database once user, room, schedule and slot are there.
  function Furnished(): Db {
    EmptyDb().(users := {0}, rooms := map[0 := ""], schedules := map[0 := ALWAYS], slots := map[0 := MORNING])
  }

  function AfterCreate(): Db {
    Furnished().(clock := 1, bookings := map[0 := BOOKED], outbox := map[0 := CREATED_ROW])
  }

  function AfterCancel(): Db {
    AfterCreate().(clock := 2, bookings := map[0 := BOOKED.(status := Cancelled)],
                   outbox := map[0 := CREATED_ROW, 1 := CANCELLED_ROW])
  }

  ghost predicate NoSinkSteps(steps: seq<Step>) {
    forall i :: 0 <= i < |steps| ==> !steps[i].OnSink?
  }

  // Reached with at most one relay at work, and before the consumer has moved.
  ghost predicate Upstream(cfg: Config, s: State)
    requires cfg.Valid()
  {
    exists steps :: OneRelayRuns(cfg, Init(cfg), steps, s) && NoSinkSteps(steps)
  }

  lemma {:induction false} OneRelayExtends(cfg: Config, s: State, steps: seq<Step>, mid: State, step: Step)
    requires cfg.Valid() && OneRelayRuns(cfg, s, steps, mid) && CanStep(cfg, mid, step) && LoneStep(mid, step)
    ensures OneRelayRuns(cfg, s, steps + [step], Next(cfg, mid, step))
    decreases |steps|
  {
    if steps == [] {
      assert ([] + [step])[1..] == [];
    } else {
      OneRelayExtends(cfg, Next(cfg, s, steps[0]), steps[1..], mid, step);
      assert (steps + [step])[1..] == steps[1..] + [step];
    }
  }

  lemma UpstreamOn(cfg: Config, s: State, step: Step)
    requires cfg.Valid() && Upstream(cfg, s) && CanStep(cfg, s, step) && LoneStep(s, step) && !step.OnSink?
    ensures Upstream(cfg, Next(cfg, s, step))
  {
    var steps :| OneRelayRuns(cfg, Init(cfg), steps, s) && NoSinkSteps(steps);
    OneRelayExtends(cfg, Init(cfg), steps, s, step);
    assert NoSinkSteps(steps + [step]);
  }

  lemma {:induction false} OneRelayRunsTrace(cfg: Config, s: State, steps: seq<Step>, s': State)
    requires cfg.Valid() && OneRelayRuns(cfg, s, steps, s')
    ensures Traces(cfg, s, steps, s')
    decreases |steps|
  {
    if steps != [] {
      OneRelayRunsTrace(cfg, Next(cfg, s, steps[0]), steps[1..], s');
    }
  }

  lemma UpstreamIsReachable(cfg: Config, s: State)
    requires cfg.Valid() && Upstream(cfg, s)
    ensures ReachableState(cfg, s)
  {
    var steps :| OneRelayRuns(cfg, Init(cfg), steps, s) && NoSinkSteps(steps);
    OneRelayRunsTrace(cfg, Init(cfg), steps, s);
  }

  lemma DbStepReaches(cfg: Config, s: State, d: DbStep, db': Db)
    requires cfg.Valid() && Upstream(cfg, s)
    requires !d.MarkSent? && Enabled(s.db, d) && Apply(s.db, d) == db'
    ensures Upstream(cfg, s.(db := db'))
  {
    UpstreamOn(cfg, s, OnDb(d));
  }

  lemma FurnishedIsReachable(cfg: Config)
    requires cfg.Valid()
    ensures Upstream(cfg, Init(cfg).(db := Furnished()))
  {
    var s := Init(cfg);
    assert OneRelayRuns(cfg, s, [], s) && NoSinkSteps([]);
    var d1 := EmptyDb().(users := {0});
    var d2 := d1.(rooms := map[0 := ""]);
    var d3 := d2.(schedules := map[0 := ALWAYS]);
    DbStepReaches(cfg, s, AddUser(0), d1);
    DbStepReaches(cfg, s.(db := d1), AddRoom(0, ""), d2);
    DbStepReaches(cfg, s.(db := d2), AddSchedule(0, ALWAYS), d3);
    MorningIsOffered(cfg, s.(db := d3));
  }

  lemma MorningIsOffered(cfg: Config, s: State)
    requires cfg.Valid() && Upstream(cfg, s) && s.db == Furnished().(slots := map[])
    ensures Upstream(cfg, s.(db := Furnished()))
  {
    assert IsWindow(ALWAYS, 0, 30);
    assert [MORNING][1..] == [];
    assert InsertAbsent(map[], [MORNING]) == map[0 := MORNING];
    DbStepReaches(cfg, s, EnsureSlots([MORNING]), Furnished());
  }

  // BEGIN, INSERT, INSERT INTO outbox, COMMIT.
  lemma CreateReaches(cfg: Config, s: State)
    requires cfg.Valid() && Upstream(cfg, s) && s.db == Furnished()
    ensures Upstream(cfg, s.(db := AfterCreate()))
  {
    var tx := CREATE.(change := Some(BOOKED));
    var d1 := Furnished().(clock := 1, txs := map[0 := CREATE]);
    var d2 := d1.(txs := map[0 := tx]);
    var d3 := d1.(txs := map[0 := tx.(announced := true, row := Some(CREATED_ROW))]);
    DbStepReaches(cfg, s, Begin(0, CreateOp(0, 0)), d1);
    DbStepReaches(cfg, s.(db := d1), InsertBooking(0, 0), d2);
    DbStepReaches(cfg, s.(db := d2), InsertOutbox(0, 0), d3);
    DbStepReaches(cfg, s.(db := d3), Commit(0), AfterCreate());
  }

  // BEGIN, UPDATE, INSERT INTO outbox, COMMIT.
  lemma CancelReaches(cfg: Config, s: State)
    requires cfg.Valid() && Upstream(cfg, s) && s.db == AfterCreate()
    ensures Upstream(cfg, s.(db := AfterCancel()))
  {
    var tx := CANCEL.(change := Some(BOOKED.(status := Cancelled)));
    var d1 := AfterCreate().(clock := 2, txs := map[0 := CANCEL]);
    var d2 := d1.(txs := map[0 := tx]);
    var d3 := d1.(txs := map[0 := tx.(announced := true, row := Some(CANCELLED_ROW))]);
    DbStepReaches(cfg, s, Begin(0, CancelOp(0, 0)), d1);
    DbStepReaches(cfg, s.(db := d1), UpdateBooking(0), d2);
    DbStepReaches(cfg, s.(db := d2), InsertOutbox(0, 1), d3);
    CancelCommits(cfg, s.(db := d3));
  }

  lemma CancelCommits(cfg: Config, s: State)
    requires cfg.Valid() && Upstream(cfg, s)
    requires s.db == AfterCreate().(clock := 2, txs := map[0 := CANCEL.(
                       change := Some(BOOKED.(status := Cancelled)), announced := true, row := Some(CANCELLED_ROW))])
    ensures Upstream(cfg, s.(db := AfterCancel()))
  {
    DbStepReaches(cfg, s, Commit(0), AfterCancel());
  }

  // The first relay holds the creation, not yet written; the cancellation is committed meanwhile.
  function Contended(cfg: Config): State {
    var s := Init(cfg);
    s.(db := AfterCancel(), relay := s.relay.(batches := map[0 := Batch([CREATED_ROW], {}, true)]))
  }

  lemma ContendedIsReachable(cfg: Config)
    requires cfg.Valid()
    ensures Upstream(cfg, Contended(cfg))
  {
    FurnishedIsReachable(cfg);
    CreateReaches(cfg, Init(cfg).(db := Furnished()));
    var s := Init(cfg).(db := AfterCreate());
    FirstSelect(cfg, s);
    UpstreamOn(cfg, s, OnRelay(Select(0, [CREATED_ROW])));
    CancelReaches(cfg, Next(cfg, s, OnRelay(Select(0, [CREATED_ROW]))));
  }

  lemma FirstSelect(cfg: Config, s: State)
    requires cfg.Valid() && s.db.outbox == map[0 := CREATED_ROW] && s.relay.batches == map[]
    ensures CanStep(cfg, s, OnRelay(Select(0, [CREATED_ROW])))
  {
    assert [CREATED_ROW][0].id in Ids([CREATED_ROW]);
  }

  // The second relay's select skips the locked creation and gets the cancellation.
  lemma SecondSelect(cfg: Config, s: State)
    requires cfg.Valid() && s == Contended(cfg)
    ensures CanStep(cfg, s, OnRelay(Select(1, [CANCELLED_ROW])))
    ensures |s.relay.logs| == cfg.partitions && Offends(cfg, s.db.outbox, s.relay, CANCELLED_ROW)
  {
    var locked := s.relay.batches[0];
    assert locked.rows[0].id in Ids(locked.rows) && Locked(s.relay.batches, 0);
    assert [CANCELLED_ROW][0].id in Ids([CANCELLED_ROW]);
    forall r | r in s.relay.batches
      ensures 1 !in Ids(s.relay.batches[r].rows)
    {
    }
    assert IsEventOf(s.db.outbox[0].payload, 0, BookingCreated);
  }

  // Whatever the partitions and the balancer, two relays can log a cancellation before its creation.
  lemma TwoRelaysMayMisorder(cfg: Config) returns (s: State, p: nat)
    requires cfg.Valid()
    ensures ReachableState(cfg, s) && p < |s.relay.logs| && !CausalLog(s.relay.logs[p])
  {
    var s0 := Contended(cfg);
    ContendedIsReachable(cfg);
    UpstreamIsReachable(cfg, s0);
    SecondSelect(cfg, s0);
    UnsafeSelectMisorders(cfg, s0, 1, [CANCELLED_ROW], 0);
    p := HomeOf(cfg, CANCELLED_ROW);
    var s1 := Next(cfg, s0, OnRelay(Select(1, [CANCELLED_ROW])));
    NextIsReachable(cfg, s0, OnRelay(Select(1, [CANCELLED_ROW])));
    NextIsReachable(cfg, s1, OnRelay(Write(1, p, 1)));
    s := Next(cfg, s1, OnRelay(Write(1, p, 1)));
  }
}
