/** From any reachable state, crashes and all, a relay and a consumer left alone bring the pipeline to rest. */
module Settlement {
  import opened Domain
  import opened BookingDb
  import opened BookingTheorems
  import opened Database
  import opened RelayLog
  import opened Delivery
  import opened DeliveryProofs
  import opened Pipeline
  import opened PipelineTheorems
  import opened Clusters
  import opened RelayWorker

  // ---------- runs in which nothing goes wrong ----------

  // Relays and consumer at work: no request, no failing insert or commit, no crash.
  predicate Smooth(step: Step) {
    match step
    case OnDb(_) => false
    case OnRelay(_) => true
    case OnSink(k) =>
      k.Fetch? || (k.Process? && k.reply.Answered?) || k.Broadcast? || k.CommitOffset? || k.Rebalance?
  }

  ghost predicate AllSmooth(steps: seq<Step>) {
    forall i :: 0 <= i < |steps| ==> Smooth(steps[i])
  }

  ghost predicate SmoothlyRan(cfg: Config, s: State, s': State)
    requires cfg.Valid()
  {
    exists steps :: Traces(cfg, s, steps, s') && AllSmooth(steps)
  }

  lemma SmoothNothing(cfg: Config, s: State)
    requires cfg.Valid()
    ensures SmoothlyRan(cfg, s, s)
  {
    assert Traces(cfg, s, [], s) && AllSmooth([]);
  }

  lemma SmoothOn(cfg: Config, s: State, mid: State, s': State)
    requires cfg.Valid() && SmoothlyRan(cfg, s, mid) && SmoothlyRan(cfg, mid, s')
    ensures SmoothlyRan(cfg, s, s')
  {
    var steps :| Traces(cfg, s, steps, mid) && AllSmooth(steps);
    var more :| Traces(cfg, mid, more, s') && AllSmooth(more);
    TracesCompose(cfg, s, steps, mid, more, s');
    assert AllSmooth(steps + more);
  }

  lemma RelaysRunSmoothly(cfg: Config, s: State, s': State)
    requires cfg.Valid() && Ran(cfg, s, s', true)
    ensures SmoothlyRan(cfg, s, s')
  {
    var steps :| Traces(cfg, s, steps, s') && OnlyRelays(steps);
    assert AllSmooth(steps);
  }

  // Nothing goes backwards on the way.
  lemma SmoothRunsProgress(cfg: Config, s: State, s': State)
    requires cfg.Valid() && ReachableState(cfg, s) && SmoothlyRan(cfg, s, s')
    ensures Progress(s, s')
  {
    var steps :| Traces(cfg, s, steps, s') && AllSmooth(steps);
    ReachableInv(cfg, s);
    RunsKeepInv(cfg, s, steps, s');
  }

  lemma SmoothRestSettles(cfg: Config, s: State, s': State)
    requires cfg.Valid() && ReachableState(cfg, s) && SmoothlyRan(cfg, s, s') && Drained(s')
    ensures s'.sink.skipped == s.sink.skipped && NothingInvented(s'.db, s'.sink.notifs)
    ensures forall b: Uuid, kind :: (b, kind) !in s.sink.skipped ==>
              ((b, kind) in s'.sink.notifs <==> Happened(s'.db.bookings, b, TypeOfKind(kind)))
  {
    var steps :| Traces(cfg, s, steps, s') && AllSmooth(steps);
    assert NoInsertFails(steps) by {
      assert forall i :: 0 <= i < |steps| ==> Smooth(steps[i]);
    }
    EveryWayToRestSettles(cfg, s, steps, s');
  }

  // One step of the consumer, smooth.
  method Consume(c: Cluster, k: SinkStep)
    requires c.Valid() && CanStep(c.cfg, c.s, OnSink(k)) && Smooth(OnSink(k))
    modifies c
    ensures c.Valid() && c.s == Next(c.cfg, old(c.s), OnSink(k)) && SmoothlyRan(c.cfg, old(c.s), c.s)
  {
    ghost var s0 := c.s;
    c.Do(OnSink(k));
    assert [OnSink(k)][1..] == [];
    assert Traces(c.cfg, s0, [OnSink(k)], c.s) && AllSmooth([OnSink(k)]);
  }

  // ---------- the relay's part ----------

  // Open transactions of relays that are gone are rolled back.
  method ReleaseAll(c: Cluster)
    requires c.Valid()
    modifies c
    ensures c.Valid() && NobodyElse(c.s) && SmoothlyRan(c.cfg, old(c.s), c.s)
    ensures c.s.db == old(c.s.db) && c.s.sink == old(c.s.sink)
  {
    ghost var s0 := c.s;
    SmoothNothing(c.cfg, s0);
    var open := set r | r in c.s.relay.batches && c.s.relay.batches[r].open;
    while open != {}
      invariant c.Valid() && c.s.db == s0.db && c.s.sink == s0.sink && SmoothlyRan(c.cfg, s0, c.s)
      invariant forall r :: r in c.s.relay.batches && c.s.relay.batches[r].open <==> r in open
      decreases open
    {
      var r :| r in open;
      ghost var before := c.s;
      RollbackBatch(c, r);
      RelaysRunSmoothly(c.cfg, before, c.s);
      SmoothOn(c.cfg, s0, before, c.s);
      open := open - {r};
    }
  }

  // The relay's drain with time enough and nothing going wrong.
  method DrainOutbox(c: Cluster)
    requires c.Valid() && NobodyElse(c.s)
    modifies c
    ensures c.Valid() && OnlyRelayed(old(c.s), c.s) && UnsentIds(c.s.db.outbox) == {}
    ensures SmoothlyRan(c.cfg, old(c.s), c.s)
  {
    var n := UnsentCount(c.s);
    ghost var s0 := c.s;
    var faults := seq(BatchesFor(n) + 2, _ => BatchDone);
    var calls; ghost var log;
    calls, log := Drain(c, faults, true);
    DrainAlone(c.cfg, s0, faults, log);
    EnoughTime(s0, c.s, faults, calls);
    CallsRan(c.cfg, s0, faults, log, true);
    RelaysRunSmoothly(c.cfg, s0, c.s);
  }

  lemma EnoughTime(s0: State, s: State, faults: seq<BatchFault>, calls: nat)
    requires DrainResult(s0, s, faults, calls) && |faults| > BatchesFor(UnsentCount(s0)) + 1
    requires forall i :: 0 <= i < |faults| ==> faults[i].BatchDone?
    ensures OnlyRelayed(s0, s) && NobodyElse(s) && UnsentIds(s.db.outbox) == {}
  {
  }

  // ---------- the consumer's part ----------

  // Only the consumer moves.
  ghost predicate OnlyDelivers(s: State, s': State) {
    s'.db == s.db && s'.relay == s.relay
  }

  lemma OffsetsHold(c: Config, s: State)
    requires c.Valid() && ReachableState(c, s)
    ensures OffsetsOk(s.relay.logs, s.sink)
  {
    ReachableInv(c, s);
  }

  method ProcessInHand(c: Cluster)
    requires c.Valid() && c.s.sink.worker.Fetched?
    modifies c
    ensures c.Valid() && OnlyDelivers(old(c.s), c.s) && SmoothlyRan(c.cfg, old(c.s), c.s)
    ensures c.s.sink.worker.Stored? || c.s.sink.worker.Finished?
    ensures c.s.sink.worker.p == old(c.s.sink.worker).p && c.s.sink.worker.off == old(c.s.sink.worker).off
    ensures c.s.sink.position == old(c.s.sink.position) && c.s.sink.committed == old(c.s.sink.committed)
  {
    OffsetsHold(c.cfg, c.s);
    ghost var unused := FreshId(c.s.sink.notifs);
    var id :| IdUnused(c.s.sink.notifs, id);
    Consume(c, Process(Answered, id, 0));
  }

  // Where the offsets are once the message in hand is committed.
  function CommittedAfter(s: Sink): seq<nat> {
    if !s.worker.Idle? && s.worker.p < |s.committed| then s.committed[s.worker.p := s.worker.off + 1] else s.committed
  }

  // Whatever the loop was doing, it finishes the message in hand and commits it.
  method FinishTurn(c: Cluster)
    requires c.Valid()
    modifies c
    ensures c.Valid() && OnlyDelivers(old(c.s), c.s) && SmoothlyRan(c.cfg, old(c.s), c.s)
    ensures c.s.sink.worker.Idle? && c.s.sink.position == old(c.s.sink.position)
    ensures c.s.sink.committed == CommittedAfter(old(c.s.sink))
  {
    ghost var s0 := c.s;
    SmoothNothing(c.cfg, s0);
    OffsetsHold(c.cfg, s0);
    if c.s.sink.worker.Fetched? {
      ProcessInHand(c);
    }
    if !c.s.sink.worker.Idle? {
      ghost var s1 := c.s;
      CommitInHand(c);
      SmoothOn(c.cfg, s0, s1, c.s);
    }
  }

  // A stored row goes to the hub.
  method BroadcastInHand(c: Cluster)
    requires c.Valid() && (c.s.sink.worker.Stored? || c.s.sink.worker.Finished?)
    modifies c
    ensures c.Valid() && OnlyDelivers(old(c.s), c.s) && SmoothlyRan(c.cfg, old(c.s), c.s)
    ensures c.s.sink.worker == Finished(old(c.s.sink.worker).p, old(c.s.sink.worker).off)
    ensures c.s.sink.position == old(c.s.sink.position) && c.s.sink.committed == old(c.s.sink.committed)
  {
    if c.s.sink.worker.Stored? {
      Consume(c, Broadcast);
    } else {
      SmoothNothing(c.cfg, c.s);
    }
  }

  method CommitInHand(c: Cluster)
    requires c.Valid() && (c.s.sink.worker.Stored? || c.s.sink.worker.Finished?)
    requires c.s.sink.worker.p < |c.s.sink.committed|
    modifies c
    ensures c.Valid() && OnlyDelivers(old(c.s), c.s) && SmoothlyRan(c.cfg, old(c.s), c.s)
    ensures c.s.sink.worker.Idle? && c.s.sink.position == old(c.s.sink.position)
    ensures c.s.sink.committed == CommittedAfter(old(c.s.sink))
  {
    ghost var s0 := c.s;
    BroadcastInHand(c);
    ghost var s1 := c.s;
    Consume(c, CommitOffset);
    SmoothOn(c.cfg, s0, s1, c.s);
  }

  // The reader starts over at the committed offsets.
  method HandOutAgain(c: Cluster)
    requires c.Valid() && c.s.sink.worker.Idle?
    modifies c
    ensures c.Valid() && c.s.sink.worker.Idle? && OnlyDelivers(old(c.s), c.s) && SmoothlyRan(c.cfg, old(c.s), c.s)
    ensures CaughtUp(c.s, 0)
  {
    OffsetsHold(c.cfg, c.s);
    Consume(c, Rebalance);
  }

  // Every log below `n` is read and committed to its end, and of the others what is read is committed.
  ghost predicate CaughtUp(s: State, n: nat) {
    && |s.sink.position| == |s.sink.committed| == |s.relay.logs| && s.sink.position == s.sink.committed
    && forall p :: 0 <= p < |s.relay.logs| ==>
         s.sink.position[p] <= |s.relay.logs[p]| && (p < n ==> s.sink.position[p] == |s.relay.logs[p]|)
  }

  // Partition by partition, message by message.
  method ConsumeAll(c: Cluster)
    requires c.Valid() && c.s.sink.worker.Idle? && CaughtUp(c.s, 0)
    modifies c
    ensures c.Valid() && c.s.sink.worker.Idle? && OnlyDelivers(old(c.s), c.s) && SmoothlyRan(c.cfg, old(c.s), c.s)
    ensures CaughtUp(c.s, |c.s.relay.logs|)
  {
    ghost var s0 := c.s;
    SmoothNothing(c.cfg, s0);
    for p := 0 to |c.s.relay.logs|
      invariant c.Valid() && c.s.sink.worker.Idle? && OnlyDelivers(s0, c.s) && SmoothlyRan(c.cfg, s0, c.s)
      invariant CaughtUp(c.s, p)
    {
      ghost var before := c.s;
      ConsumePartition(c, p);
      SmoothOn(c.cfg, s0, before, c.s);
    }
  }

  method ConsumePartition(c: Cluster, p: nat)
    requires c.Valid() && c.s.sink.worker.Idle? && CaughtUp(c.s, p) && p < |c.s.relay.logs|
    modifies c
    ensures c.Valid() && c.s.sink.worker.Idle? && OnlyDelivers(old(c.s), c.s) && SmoothlyRan(c.cfg, old(c.s), c.s)
    ensures CaughtUp(c.s, p + 1)
  {
    ghost var s0 := c.s;
    SmoothNothing(c.cfg, s0);
    while c.s.sink.position[p] < |c.s.relay.logs[p]|
      invariant c.Valid() && c.s.sink.worker.Idle? && OnlyDelivers(s0, c.s) && SmoothlyRan(c.cfg, s0, c.s)
      invariant CaughtUp(c.s, p)
      decreases |c.s.relay.logs[p]| - c.s.sink.position[p]
    {
      ghost var before := c.s;
      ConsumeOne(c, p);
      SmoothOn(c.cfg, s0, before, c.s);
    }
  }

  method ConsumeOne(c: Cluster, p: nat)
    requires c.Valid() && c.s.sink.worker.Idle? && CaughtUp(c.s, p) && p < |c.s.relay.logs|
    requires c.s.sink.position[p] < |c.s.relay.logs[p]|
    modifies c
    ensures c.Valid() && c.s.sink.worker.Idle? && OnlyDelivers(old(c.s), c.s) && SmoothlyRan(c.cfg, old(c.s), c.s)
    ensures CaughtUp(c.s, p) && c.s.sink.position[p] == old(c.s.sink.position)[p] + 1
  {
    ghost var s0 := c.s;
    Consume(c, Fetch(p));
    ghost var fetched := c.s;
    FinishTurn(c);
    SmoothOn(c.cfg, s0, fetched, c.s);
  }

  /**
   Rest is always within reach, by a run in which nothing goes wrong; there every log is read and committed to its
   end, and the notifications are exactly the committed transitions, but for what had been skipped before.
   */
  method Settle(c: Cluster)
    requires c.Valid()
    modifies c
    ensures c.Valid() && Drained(c.s) && SmoothlyRan(c.cfg, old(c.s), c.s)
    ensures CaughtUp(c.s, |c.s.relay.logs|)
    ensures c.s.db == old(c.s.db).(outbox := c.s.db.outbox) && c.s.sink.skipped == old(c.s.sink.skipped)
    ensures forall b: Uuid, kind :: (b, kind) !in old(c.s.sink.skipped) ==>
              ((b, kind) in c.s.sink.notifs <==> Happened(old(c.s.db.bookings), b, TypeOfKind(kind)))
    ensures NothingInvented(c.s.db, c.s.sink.notifs)
  {
    ghost var s0 := c.s;
    RelayPart(c);
    ghost var s1 := c.s;
    ConsumerPart(c);
    SmoothOn(c.cfg, s0, s1, c.s);
    StillDrained(s1.db.outbox);
    SmoothRestSettles(c.cfg, s0, c.s);
  }

  method RelayPart(c: Cluster)
    requires c.Valid()
    modifies c
    ensures c.Valid() && SmoothlyRan(c.cfg, old(c.s), c.s) && UnsentIds(c.s.db.outbox) == {}
    ensures c.s.db == old(c.s.db).(outbox := c.s.db.outbox) && c.s.sink == old(c.s.sink)
  {
    ghost var s0 := c.s;
    ReleaseAll(c);
    ghost var s1 := c.s;
    DrainOutbox(c);
    SmoothOn(c.cfg, s0, s1, c.s);
  }

  method ConsumerPart(c: Cluster)
    requires c.Valid()
    modifies c
    ensures c.Valid() && c.s.sink.worker.Idle? && OnlyDelivers(old(c.s), c.s) && SmoothlyRan(c.cfg, old(c.s), c.s)
    ensures CaughtUp(c.s, |c.s.relay.logs|)
  {
    ghost var s0 := c.s;
    FinishTurn(c);
    ghost var s1 := c.s;
    HandOutAgain(c);
    SmoothOn(c.cfg, s0, s1, c.s);
    ghost var s2 := c.s;
    ConsumeAll(c);
    SmoothOn(c.cfg, s0, s2, c.s);
  }

  lemma StillDrained(outbox: map<Uuid, OutboxRow>)
    requires UnsentIds(outbox) == {}
    ensures forall id :: id in outbox ==> outbox[id].sentAt.Some?
  {
    forall id | id in outbox
      ensures outbox[id].sentAt.Some?
    {
      assert id !in UnsentIds(outbox);
    }
  }
}
