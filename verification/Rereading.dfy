/** A run with a single relay in which a stream gets a cancellation and then, read again, its skipped creation. */
module Rereading {
  import opened Domain
  import opened BookingDb
  import opened RelayLog
  import opened Delivery
  import opened Pipeline
  import opened PipelineTheorems
  import opened Misordering
  import opened Hub
  import opened HubDelivery
  import opened Fanout
  import opened LateCreations
  import opened CausalStreams

  ghost predicate Reached(cfg: Config, s: Live)
    requires cfg.Valid()
  {
    exists steps :: OneRelayLive(cfg, Boot(cfg), steps, s)
  }

  lemma {:induction false} LiveExtends(cfg: Config, s: Live, steps: seq<LiveStep>, mid: Live, step: LiveStep)
    requires cfg.Valid() && OneRelayLive(cfg, s, steps, mid) && CanLive(cfg, mid, step)
    requires step.Elsewhere? ==> LoneStep(mid.pipe, step.step)
    ensures OneRelayLive(cfg, s, steps + [step], LiveNext(cfg, mid, step))
    decreases |steps|
  {
    if steps == [] {
      assert ([] + [step])[1..] == [];
    } else {
      LiveExtends(cfg, LiveNext(cfg, s, steps[0]), steps[1..], mid, step);
      assert (steps + [step])[1..] == steps[1..] + [step];
    }
  }

  lemma ReachedOn(cfg: Config, s: Live, step: LiveStep)
    requires cfg.Valid() && Reached(cfg, s) && CanLive(cfg, s, step)
    requires step.Elsewhere? ==> LoneStep(s.pipe, step.step)
    ensures Reached(cfg, LiveNext(cfg, s, step))
  {
    var steps :| OneRelayLive(cfg, Boot(cfg), steps, s);
    LiveExtends(cfg, Boot(cfg), steps, s, step);
  }

  // Before the consumer has moved, a run of the pipeline is a run of the process.
  lemma {:induction false} Lifts(cfg: Config, s: State, steps: seq<Step>, s': State)
    requires cfg.Valid() && OneRelayRuns(cfg, s, steps, s') && NoSinkSteps(steps)
    requires Reached(cfg, Live(s, InitHub(), None, 0))
    ensures Reached(cfg, Live(s', InitHub(), None, 0))
    decreases |steps|
  {
    if steps != [] {
      assert !steps[0].OnSink?;
      ReachedOn(cfg, Live(s, InitHub(), None, 0), Elsewhere(steps[0]));
      Lifts(cfg, Next(cfg, s, steps[0]), steps[1..], s');
    }
  }

  lemma UpstreamLifts(cfg: Config, s: State)
    requires cfg.Valid() && Upstream(cfg, s)
    ensures Reached(cfg, Live(s, InitHub(), None, 0))
  {
    assert OneRelayLive(cfg, Boot(cfg), [], Boot(cfg));
    var steps :| OneRelayRuns(cfg, Init(cfg), steps, s) && NoSinkSteps(steps);
    Lifts(cfg, Init(cfg), steps, s);
  }

  // ---------- the logs: the creation, then the cancellation ----------

  const ROWS := [CREATED_ROW, CANCELLED_ROW]

  function Home(cfg: Config): nat
    requires cfg.Valid()
  {
    HomeOf(cfg, CREATED_ROW)
  }

  lemma ShareOfBoth(cfg: Config)
    requires cfg.Valid()
    ensures Share(cfg, ROWS, Home(cfg)) == [MessageOf(CREATED_ROW), MessageOf(CANCELLED_ROW)]
  {
    assert ROWS[..1] == [CREATED_ROW] && [CREATED_ROW][..0] == [];
    assert Share(cfg, [CREATED_ROW], Home(cfg)) == [MessageOf(CREATED_ROW)];
  }

  lemma BothAreSelected(cfg: Config, s: State)
    requires cfg.Valid() && s.db.outbox == AfterCancel().outbox && s.relay.batches == map[]
    ensures CanStep(cfg, s, OnRelay(Select(0, ROWS)))
  {
    assert ROWS[0].id in Ids(ROWS) && ROWS[1].id in Ids(ROWS);
  }

  lemma LogsAreWritten(cfg: Config) returns (s: State)
    requires cfg.Valid()
    ensures Upstream(cfg, s) && s.sink == InitSink(cfg.partitions) && |s.relay.logs| == cfg.partitions
    ensures Home(cfg) < cfg.partitions
    ensures s.relay.logs[Home(cfg)] == [MessageOf(CREATED_ROW), MessageOf(CANCELLED_ROW)]
  {
    FurnishedIsReachable(cfg);
    CreateReaches(cfg, Init(cfg).(db := Furnished()));
    CancelReaches(cfg, Init(cfg).(db := AfterCreate()));
    var s0 := Init(cfg).(db := AfterCancel());
    BothAreSelected(cfg, s0);
    UpstreamOn(cfg, s0, OnRelay(Select(0, ROWS)));
    var s1 := Next(cfg, s0, OnRelay(Select(0, ROWS)));
    var write := OnRelay(Write(0, Home(cfg), 2));
    UpstreamOn(cfg, s1, write);
    s := Next(cfg, s1, write);
    ShareOfBoth(cfg);
    assert ROWS[..2] == ROWS;
  }

  // ---------- passes of the consumer, as seen by the one stream there is ----------

  // Between two passes: the loop is idle at message `i`, no broadcast is under way, stream 0 of user 0 has got `ns`.
  ghost predicate Between(cfg: Config, s: Live, i: nat, ns: seq<Notification>)
    requires cfg.Valid()
  {
    && Reached(cfg, s) && s.sending.None? && s.hub.flights == map[] && s.pipe.sink.worker.Idle?
    && s.hub.subs.Keys == {0} && s.hub.subs[0].live && s.hub.subs[0].user == 0 && s.hub.subs[0].received == []
    && s.hub.subs[0].buffer == ns
    && Home(cfg) < |s.pipe.relay.logs| == |s.pipe.sink.position| == |s.pipe.sink.committed|
    && s.pipe.relay.logs[Home(cfg)] == [MessageOf(CREATED_ROW), MessageOf(CANCELLED_ROW)]
    && s.pipe.sink.position[Home(cfg)] == i && s.pipe.sink.committed[Home(cfg)] == 0
  }

  lemma SinkOn(cfg: Config, s: Live, k: SinkStep)
    requires cfg.Valid() && Reached(cfg, s) && SinkEnabled(s.pipe.relay.logs, s.pipe.sink, k)
    requires !k.Broadcast? && !k.Crash?
    ensures Reached(cfg, s.(pipe := s.pipe.(sink := SinkApply(s.pipe.relay.logs, s.pipe.sink, k))))
  {
    ReachedOn(cfg, s, Elsewhere(OnSink(k)));
  }

  function WithSink(s: Live, sink: Sink): Live {
    s.(pipe := s.pipe.(sink := sink))
  }

  // The insert fails, and so does the commit.
  lemma CreationIsSkipped(cfg: Config, s: Live) returns (s': Live)
    requires cfg.Valid() && Between(cfg, s, 0, []) && s.pipe.sink.notifs == map[]
    ensures Between(cfg, s', 1, []) && s'.pipe.sink.notifs == map[]
  {
    var logs, k0 := s.pipe.relay.logs, s.pipe.sink;
    var k1 := SinkApply(logs, k0, Fetch(Home(cfg)));
    SinkOn(cfg, s, Fetch(Home(cfg)));
    var k2 := SinkApply(logs, k1, Process(Failed, 0, 0));
    SinkOn(cfg, WithSink(s, k1), Process(Failed, 0, 0));
    var k3 := SinkApply(logs, k2, CommitFails);
    SinkOn(cfg, WithSink(s, k2), CommitFails);
    s' := WithSink(s, k3);
  }

  // Message `i` is stored as `n` and broadcast, and the commit fails.
  lemma MessageIsShown(cfg: Config, s: Live, i: nat, ns: seq<Notification>, id: Uuid)
    returns (s': Live, n: Notification)
    requires cfg.Valid() && i < 2 && Between(cfg, s, i, ns) && |ns| < CHANNEL_CAPACITY
    requires IdUnused(s.pipe.sink.notifs, id) && (0, KindAt(i)) !in s.pipe.sink.notifs
    ensures Between(cfg, s', i + 1, ns + [n]) && n.bookingId == 0 && n.kind == KindAt(i) && n.id == id
    ensures s'.pipe.sink.notifs == s.pipe.sink.notifs[(0, KindAt(i)) := n]
  {
    var logs, k0 := s.pipe.relay.logs, s.pipe.sink;
    var k1 := SinkApply(logs, k0, Fetch(Home(cfg)));
    SinkOn(cfg, s, Fetch(Home(cfg)));
    var k2 := SinkApply(logs, k1, Process(Answered, id, 0));
    SinkOn(cfg, WithSink(s, k1), Process(Answered, id, 0));
    n := k2.worker.n;
    var shown := StoredIsShown(cfg, WithSink(s, k2), ns);
    SinkOn(cfg, shown, CommitFails);
    s' := WithSink(shown, SinkApply(logs, shown.pipe.sink, CommitFails));
  }

  function KindAt(i: nat): NotifType {
    if i == 0 then NotifCreated else NotifCancelled
  }

  // Snapshot, send, return.
  lemma StoredIsShown(cfg: Config, s: Live, ns: seq<Notification>) returns (s': Live)
    requires cfg.Valid() && Reached(cfg, s) && s.sending.None? && s.hub.flights == map[]
    requires s.pipe.sink.worker.Stored? && s.pipe.sink.worker.n.userId == 0 && |ns| < CHANNEL_CAPACITY
    requires s.hub.subs.Keys == {0} && s.hub.subs[0].live && s.hub.subs[0].user == 0 && s.hub.subs[0].buffer == ns
    ensures Reached(cfg, s') && s'.sending.None? && s'.hub.flights == map[]
    ensures s'.pipe == s.pipe.(sink := SinkApply(s.pipe.relay.logs, s.pipe.sink, Broadcast))
    ensures s'.hub.subs.Keys == {0} && s'.hub.subs[0].live && s'.hub.subs[0].user == 0
    ensures s'.hub.subs[0].received == s.hub.subs[0].received
    ensures s'.hub.subs[0].buffer == ns + [s.pipe.sink.worker.n]
  {
    var n := s.pipe.sink.worker.n;
    assert LiveSubs(s.hub, 0) == {0} == (set c | c in [0]);
    ReachedOn(cfg, s, TakeSnapshot(0, [0]));
    var s1 := LiveNext(cfg, s, TakeSnapshot(0, [0]));
    ReachedOn(cfg, s1, SendNext);
    var s2 := LiveNext(cfg, s1, SendNext);
    ReachedOn(cfg, s2, Return);
    s' := LiveNext(cfg, s2, Return);
  }

  lemma ReaderStartsOver(cfg: Config, s: Live, ns: seq<Notification>) returns (s': Live)
    requires cfg.Valid() && Between(cfg, s, 2, ns)
    ensures Between(cfg, s', 0, ns) && s'.pipe.sink.notifs == s.pipe.sink.notifs
  {
    SinkOn(cfg, s, Rebalance);
    s' := WithSink(s, SinkApply(s.pipe.relay.logs, s.pipe.sink, Rebalance));
  }

  lemma StreamOpens(cfg: Config) returns (s: Live)
    requires cfg.Valid()
    ensures Between(cfg, s, 0, []) && s.pipe.sink.notifs == map[]
  {
    var pipe := LogsAreWritten(cfg);
    UpstreamLifts(cfg, pipe);
    var start := Live(pipe, InitHub(), None, 0);
    assert LiveSubs(start.hub, 0) == {};
    ReachedOn(cfg, start, Client(Join(0, 0)));
    s := LiveNext(cfg, start, Client(Join(0, 0)));
  }

  /**
   For any number of partitions and any balancer, a run with a single relay: the stream gets the cancellation first
   and the creation second.
   */
  lemma StreamMayGetTheCancellationFirst(cfg: Config) returns (steps: seq<LiveStep>, s: Live)
    requires cfg.Valid()
    ensures OneRelayLive(cfg, Boot(cfg), steps, s) && 0 in s.hub.subs
    ensures var got := Delivered(s.hub.subs[0]); |got| == 2 && Late(got[0], got[1])
  {
    var s0 := StreamOpens(cfg);
    var s1 := CreationIsSkipped(cfg, s0);
    var s2, cancelled := MessageIsShown(cfg, s1, 1, [], 0);
    var s3 := ReaderStartsOver(cfg, s2, [] + [cancelled]);
    var created;
    s, created := MessageIsShown(cfg, s3, 0, [] + [cancelled], 1);
    steps :| OneRelayLive(cfg, Boot(cfg), steps, s);
    assert Delivered(s.hub.subs[0]) == [cancelled, created];
  }
}
