/**
 In which order a stream hears of one booking. With a single relay the cancellation comes before the creation only
 if the creation had been skipped; and then, after a redelivery, it may.
 */
module CausalStreams {
  import opened Domain
  import opened BookingDb
  import opened RelayLog
  import opened Delivery
  import opened Pipeline
  import opened PipelineTheorems
  import opened Misordering
  import opened HubDelivery
  import opened HubOrder
  import opened Fanout
  import opened LateCreations

  // Runs of the whole process in which every select is safe.
  ghost predicate OrderlyLive(cfg: Config, s: Live, steps: seq<LiveStep>, s': Live)
    requires cfg.Valid()
    decreases |steps|
  {
    if steps == [] then s == s'
    else
      && CanLive(cfg, s, steps[0]) && (steps[0].Elsewhere? ==> OrderlyStep(cfg, s.pipe, steps[0].step))
      && OrderlyLive(cfg, LiveNext(cfg, s, steps[0]), steps[1..], s')
  }

  // Runs of the whole process with a single relay.
  ghost predicate OneRelayLive(cfg: Config, s: Live, steps: seq<LiveStep>, s': Live)
    requires cfg.Valid()
    decreases |steps|
  {
    if steps == [] then s == s'
    else
      && CanLive(cfg, s, steps[0]) && (steps[0].Elsewhere? ==> LoneStep(s.pipe, steps[0].step))
      && OneRelayLive(cfg, LiveNext(cfg, s, steps[0]), steps[1..], s')
  }

  // ---------- only what was skipped comes late ----------

  ghost predicate CausalLive(cfg: Config, s: Live)
    requires cfg.Valid()
  {
    LiveInv(cfg, s) && CausalInv(cfg, s.pipe.relay) && CausalTable(s.pipe.sink) && LateWasSkipped(s.pipe.sink)
  }

  lemma PipeStepKeepsCausal(cfg: Config, s: State, step: Step)
    requires cfg.Valid() && ReachableState(cfg, s) && CanStep(cfg, s, step) && OrderlyStep(cfg, s, step)
    requires CausalInv(cfg, s.relay) && CausalTable(s.sink) && LateWasSkipped(s.sink)
    ensures var s' := Next(cfg, s, step);
            CausalInv(cfg, s'.relay) && CausalTable(s'.sink) && LateWasSkipped(s'.sink)
  {
    ReachableInv(cfg, s);
    PipelineTheorems.StepKeepsOrder(cfg, s, step);
    if step.OnSink? {
      StepKeepsLate(s.relay.logs, s.sink, step.sinkStep);
    }
  }

  lemma LiveStepKeepsCausal(cfg: Config, s: Live, step: LiveStep)
    requires cfg.Valid() && CausalLive(cfg, s) && CanLive(cfg, s, step)
    requires step.Elsewhere? ==> OrderlyStep(cfg, s.pipe, step.step)
    ensures CausalLive(cfg, LiveNext(cfg, s, step))
  {
    LiveStepKeepsInv(cfg, s, step);
    match step
    case Elsewhere(st) => PipeStepKeepsCausal(cfg, s.pipe, st);
    case Return => PipeStepKeepsCausal(cfg, s.pipe, OnSink(SinkStep.Broadcast));
    case ProcessDies => PipeStepKeepsCausal(cfg, s.pipe, OnSink(Crash));
    case _ =>
  }

  lemma {:induction false} OrderlyLiveKeepsCausal(cfg: Config, s: Live, steps: seq<LiveStep>, s': Live)
    requires cfg.Valid() && CausalLive(cfg, s) && OrderlyLive(cfg, s, steps, s')
    ensures CausalLive(cfg, s')
    decreases |steps|
  {
    if steps != [] {
      LiveStepKeepsCausal(cfg, s, steps[0]);
      OrderlyLiveKeepsCausal(cfg, LiveNext(cfg, s, steps[0]), steps[1..], s');
    }
  }

  lemma {:induction false} OneRelayLiveIsOrderly(cfg: Config, s: Live, steps: seq<LiveStep>, s': Live)
    requires cfg.Valid() && LiveInv(cfg, s) && OneRelayLive(cfg, s, steps, s')
    ensures OrderlyLive(cfg, s, steps, s')
    decreases |steps|
  {
    if steps != [] {
      if steps[0].Elsewhere? {
        ReachableInv(cfg, s.pipe);
        LoneStepIsOrderly(cfg, s.pipe, steps[0].step);
      }
      LiveStepKeepsInv(cfg, s, steps[0]);
      OneRelayLiveIsOrderly(cfg, LiveNext(cfg, s, steps[0]), steps[1..], s');
    }
  }

  // What a user's share of the broadcasts has in some order, the broadcasts have in that order.
  lemma {:induction false} OfUserOrder(ns: seq<Notification>, user: User, i: nat, j: nat) returns (k: nat, l: nat)
    requires i < j < |OfUser(ns, user)|
    ensures k < l < |ns| && ns[k] == OfUser(ns, user)[i] && ns[l] == OfUser(ns, user)[j]
    decreases |ns|
  {
    var last := |ns| - 1;
    if j < |OfUser(ns[..last], user)| {
      k, l := OfUserOrder(ns[..last], user, i, j);
    } else {
      k := OfUserMember(ns[..last], user, i);
      l := last;
    }
  }

  lemma SentLateWasSkipped(s: Live, k: nat, l: nat)
    requires s.base <= |s.pipe.sink.broadcasts| && LateWasSkipped(s.pipe.sink)
    requires k < l < |Sent(s)| && Late(Sent(s)[k], Sent(s)[l])
    ensures CreationSkipped(s.pipe.sink, Sent(s)[l].bookingId)
  {
    var all, base := s.pipe.sink.broadcasts, s.base;
    assert Sent(s)[k] == all[base + k];
    assert base + l < |all| ==> Sent(s)[l] == all[base + l];
  }

  lemma DeliveredLateWasSkipped(cfg: Config, s: Live, c: Conn, i: nat, j: nat)
    requires cfg.Valid() && CausalLive(cfg, s) && c in s.hub.subs
    requires i < j < |Delivered(s.hub.subs[c])| && Late(Delivered(s.hub.subs[c])[i], Delivered(s.hub.subs[c])[j])
    ensures CreationSkipped(s.pipe.sink, Delivered(s.hub.subs[c])[j].bookingId)
  {
    var sub := s.hub.subs[c];
    assert SubOk(s.hub, c) && StreamOk(s.hub, c);
    assert HistoryOf(s.hub, sub.user) == OfUser(Sent(s), sub.user);
    var k, l := OfUserOrder(Sent(s), sub.user, sub.taken[i], sub.taken[j]);
    SentLateWasSkipped(s, k, l);
  }

  lemma BootIsCausal(cfg: Config)
    requires cfg.Valid()
    ensures CausalLive(cfg, Boot(cfg))
  {
    InitIsOk(cfg);
  }

  /**
   End to end, over every run with safe selects: a stream that has got a booking's cancellation before its creation
   got the creation only after the notification service had skipped it.
   */
  lemma CancellationFirstMeansSkipped(cfg: Config, steps: seq<LiveStep>, s: Live, c: Conn, i: nat, j: nat)
    requires cfg.Valid() && OrderlyLive(cfg, Boot(cfg), steps, s) && c in s.hub.subs
    requires i < j < |Delivered(s.hub.subs[c])| && Late(Delivered(s.hub.subs[c])[i], Delivered(s.hub.subs[c])[j])
    ensures CreationSkipped(s.pipe.sink, Delivered(s.hub.subs[c])[j].bookingId)
  {
    BootIsCausal(cfg);
    OrderlyLiveKeepsCausal(cfg, Boot(cfg), steps, s);
    DeliveredLateWasSkipped(cfg, s, c, i, j);
  }

  // The same for any run with a single relay.
  lemma OneRelayShowsCreationsFirst(cfg: Config, steps: seq<LiveStep>, s: Live, c: Conn, i: nat, j: nat)
    requires cfg.Valid() && OneRelayLive(cfg, Boot(cfg), steps, s) && c in s.hub.subs
    requires i < j < |Delivered(s.hub.subs[c])| && Late(Delivered(s.hub.subs[c])[i], Delivered(s.hub.subs[c])[j])
    ensures CreationSkipped(s.pipe.sink, Delivered(s.hub.subs[c])[j].bookingId)
  {
    InitIsOk(cfg);
    OneRelayLiveIsOrderly(cfg, Boot(cfg), steps, s);
    CancellationFirstMeansSkipped(cfg, steps, s, c, i, j);
  }

  /**
   And once the cancellation has been broadcast, an idle loop can still broadcast the creation, on the logs as they
   are, if and only if it has been skipped, is not stored, and some message announcing it lies ahead.
   */
  lemma LateCreationMayComeExactly(cfg: Config, steps: seq<LiveStep>, s: Live, i: nat)
    requires cfg.Valid() && OrderlyLive(cfg, Boot(cfg), steps, s) && s.pipe.sink.worker.Idle?
    requires i < |s.pipe.sink.broadcasts| && s.pipe.sink.broadcasts[i].kind.NotifCancelled?
    ensures |s.pipe.sink.committed| == |s.pipe.sink.position| == |s.pipe.relay.logs|
    ensures var b := s.pipe.sink.broadcasts[i].bookingId;
            MayBroadcast(s.pipe.relay.logs, s.pipe.sink, b)
            <==> CreationSkipped(s.pipe.sink, b) && (b, NotifCreated) !in s.pipe.sink.notifs
                 && CreationAhead(s.pipe.relay.logs, s.pipe.sink, b)
  {
    BootIsCausal(cfg);
    OrderlyLiveKeepsCausal(cfg, Boot(cfg), steps, s);
    ReachableInv(cfg, s.pipe);
    var b := s.pipe.sink.broadcasts[i].bookingId;
    assert IsRowOf(s.pipe.sink, s.pipe.sink.broadcasts[i]);
    assert Settled(s.pipe.sink, (b, NotifCreated));
    CreationMayComeExactly(s.pipe.relay.logs, s.pipe.sink, b);
  }
}
