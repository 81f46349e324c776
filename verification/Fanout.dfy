/**
 The notification service as one process: the consumer loop of Delivery whose broadcast is a snapshot, sends and a
 return on the hub, while clients come, read and go. The loop handles one message at a time, and that is what keeps
 every stream in order.
 */
module Fanout {
  import opened Domain
  import opened RelayLog
  import opened Delivery
  import opened DeliveryProofs
  import opened Pipeline
  import opened Hub
  import opened HubDelivery
  import opened HubOrder

  // `sending` is the broadcast under way; `base` how many had been made when the process started.
  datatype Live = Live(pipe: State, hub: HubState, sending: Option<nat>, base: nat)

  datatype LiveStep =
    | Elsewhere(step: Step)
    | TakeSnapshot(f: nat, order: seq<Conn>)
    | SendNext
    | Return
    | ProcessDies
    | Client(hubStep: HubStep)

  function Boot(cfg: Config): Live {
    Live(Init(cfg), InitHub(), None, 0)
  }

  // The consumer's broadcast is made of the three steps below it; a crash takes the hub with it.
  predicate CanLive(cfg: Config, s: Live, step: LiveStep)
    requires cfg.Valid()
  {
    match step
    case Elsewhere(st) => CanStep(cfg, s.pipe, st) && (st.OnSink? ==> !st.sinkStep.Broadcast? && !st.sinkStep.Crash?)
    case TakeSnapshot(f, order) =>
      && s.sending.None? && s.pipe.sink.worker.Stored?
      && HubEnabled(s.hub, Snap(f, s.pipe.sink.worker.n.userId, s.pipe.sink.worker.n, order))
    case SendNext => s.sending.Some? && HubEnabled(s.hub, Send(s.sending.value))
    case Return => s.sending.Some? && HubEnabled(s.hub, Land(s.sending.value)) && s.pipe.sink.worker.Stored?
    case ProcessDies => true
    case Client(h) => (h.Join? || h.Leave? || h.Receive?) && HubEnabled(s.hub, h)
  }

  function LiveNext(cfg: Config, s: Live, step: LiveStep): Live
    requires cfg.Valid() && CanLive(cfg, s, step)
  {
    match step
    case Elsewhere(st) => s.(pipe := Next(cfg, s.pipe, st))
    case TakeSnapshot(f, order) =>
      var n := s.pipe.sink.worker.n;
      s.(hub := HubApply(s.hub, Snap(f, n.userId, n, order)), sending := Some(f))
    case SendNext => s.(hub := HubApply(s.hub, Send(s.sending.value)))
    case Return =>
      Live(Next(cfg, s.pipe, OnSink(SinkStep.Broadcast)), HubApply(s.hub, Land(s.sending.value)), None, s.base)
    case ProcessDies => Live(Next(cfg, s.pipe, OnSink(Crash)), InitHub(), None, |s.pipe.sink.broadcasts|)
    case Client(h) => s.(hub := HubApply(s.hub, h))
  }

  ghost predicate LiveRuns(cfg: Config, s: Live, steps: seq<LiveStep>, s': Live)
    requires cfg.Valid()
    decreases |steps|
  {
    if steps == [] then s == s'
    else CanLive(cfg, s, steps[0]) && LiveRuns(cfg, LiveNext(cfg, s, steps[0]), steps[1..], s')
  }

  // ---------- the invariant ----------

  function OfUser(ns: seq<Notification>, user: User): seq<Notification> {
    if ns == [] then []
    else
      var last := |ns| - 1;
      OfUser(ns[..last], user) + if ns[last].userId == user then [ns[last]] else []
  }

  // At most one broadcast is under way, and it is of the row the consumer has just stored.
  ghost predicate OneFlight(s: Live) {
    match s.sending
    case None => s.hub.flights == map[]
    case Some(f) =>
      && s.hub.flights.Keys == {f} && s.pipe.sink.worker.Stored?
      && s.hub.flights[f].n == s.pipe.sink.worker.n && s.hub.flights[f].user == s.pipe.sink.worker.n.userId
  }

  // What this process has broadcast so far, the one under way included.
  function Sent(s: Live): seq<Notification>
    requires s.base <= |s.pipe.sink.broadcasts|
  {
    s.pipe.sink.broadcasts[s.base..]
    + if s.sending.Some? && s.pipe.sink.worker.Stored? then [s.pipe.sink.worker.n] else []
  }

  ghost predicate HistoryIsSent(s: Live)
    requires s.base <= |s.pipe.sink.broadcasts|
  {
    forall u :: HistoryOf(s.hub, u) == OfUser(Sent(s), u)
  }

  ghost predicate LiveInv(cfg: Config, s: Live)
    requires cfg.Valid()
  {
    && ReachableState(cfg, s.pipe) && HubInv(s.hub) && OrderInv(s.hub)
    && OneFlight(s) && s.base <= |s.pipe.sink.broadcasts| && HistoryIsSent(s)
  }

  // The guard of the hub's order: when the consumer takes a snapshot, no stream is owed anything.
  lemma GuardHolds(s: Live, user: User)
    requires OneFlight(s) && s.sending.None?
    ensures SafeSnap(s.hub, user)
  {
  }

  lemma OfUserExtends(ns: seq<Notification>, n: Notification, user: User)
    ensures OfUser(ns + [n], user) == OfUser(ns, user) + if n.userId == user then [n] else []
  {
    assert (ns + [n])[..|ns|] == ns;
  }

  // ---------- one step ----------

  // Pipeline steps other than the broadcast and the crash leave the broadcasts and a stored row in hand alone.
  lemma ElsewhereLeaves(cfg: Config, s: Live, st: Step)
    requires cfg.Valid() && CanLive(cfg, s, Elsewhere(st))
    ensures var sink, sink' := s.pipe.sink, Next(cfg, s.pipe, st).sink;
            && sink'.broadcasts == sink.broadcasts
            && (sink.worker.Stored? ==> sink'.worker == sink.worker)
  {
  }

  lemma ElsewhereKeeps(cfg: Config, s: Live, st: Step)
    requires cfg.Valid() && CanLive(cfg, s, Elsewhere(st))
    requires OneFlight(s) && s.base <= |s.pipe.sink.broadcasts| && HistoryIsSent(s)
    ensures var s' := LiveNext(cfg, s, Elsewhere(st));
            OneFlight(s') && s'.base <= |s'.pipe.sink.broadcasts| && HistoryIsSent(s')
  {
    ElsewhereLeaves(cfg, s, st);
    var s' := LiveNext(cfg, s, Elsewhere(st));
    assert Sent(s') == Sent(s);
    forall u
      ensures HistoryOf(s'.hub, u) == OfUser(Sent(s'), u)
    {
      assert HistoryOf(s.hub, u) == OfUser(Sent(s), u);
    }
  }

  lemma SnapshotKeeps(cfg: Config, s: Live, f: nat, order: seq<Conn>)
    requires cfg.Valid() && CanLive(cfg, s, TakeSnapshot(f, order))
    requires OneFlight(s) && s.base <= |s.pipe.sink.broadcasts| && HistoryIsSent(s)
    ensures var s' := LiveNext(cfg, s, TakeSnapshot(f, order)); OneFlight(s') && HistoryIsSent(s')
  {
    var s', n := LiveNext(cfg, s, TakeSnapshot(f, order)), s.pipe.sink.worker.n;
    assert Sent(s') == Sent(s) + [n];
    forall u
      ensures HistoryOf(s'.hub, u) == OfUser(Sent(s'), u)
    {
      OfUserExtends(Sent(s), n, u);
      assert HistoryOf(s.hub, u) == OfUser(Sent(s), u);
    }
  }

  lemma ReturnKeeps(cfg: Config, s: Live)
    requires cfg.Valid() && CanLive(cfg, s, Return)
    requires OneFlight(s) && s.base <= |s.pipe.sink.broadcasts| && HistoryIsSent(s)
    ensures var s' := LiveNext(cfg, s, Return);
            OneFlight(s') && s'.base <= |s'.pipe.sink.broadcasts| && HistoryIsSent(s')
  {
    var s' := LiveNext(cfg, s, Return);
    assert Sent(s') == Sent(s);
    forall u
      ensures HistoryOf(s'.hub, u) == OfUser(Sent(s'), u)
    {
      assert HistoryOf(s.hub, u) == OfUser(Sent(s), u);
    }
  }

  // Sends and the clients' steps change neither the history nor which broadcast is under way.
  lemma HubStepKeeps(s: Live, h: HubStep)
    requires HubEnabled(s.hub, h) && (h.Send? || h.Join? || h.Leave? || h.Receive?)
    requires OneFlight(s) && s.base <= |s.pipe.sink.broadcasts| && HistoryIsSent(s)
    ensures var s' := s.(hub := HubApply(s.hub, h)); OneFlight(s') && HistoryIsSent(s')
  {
    var s' := s.(hub := HubApply(s.hub, h));
    forall u
      ensures HistoryOf(s'.hub, u) == OfUser(Sent(s'), u)
    {
      assert HistoryOf(s.hub, u) == OfUser(Sent(s), u);
    }
  }

  lemma BootIsOk(pipe: State)
    ensures var s := Live(pipe, InitHub(), None, |pipe.sink.broadcasts|);
            HubInv(s.hub) && OrderInv(s.hub) && OneFlight(s) && HistoryIsSent(s)
  {
    var s := Live(pipe, InitHub(), None, |pipe.sink.broadcasts|);
    assert Sent(s) == [];
    assert forall u :: LiveSubs(InitHub(), u) == {};
  }

  // The hub's part of a step is a step of the hub that meets the guard of its order.
  lemma HubPartIsSafe(cfg: Config, s: Live, step: LiveStep)
    requires cfg.Valid() && CanLive(cfg, s, step) && !step.ProcessDies?
    requires HubInv(s.hub) && OrderInv(s.hub) && OneFlight(s)
    ensures HubInv(LiveNext(cfg, s, step).hub) && OrderInv(LiveNext(cfg, s, step).hub)
  {
    match step
    case Elsewhere(_) =>
    case TakeSnapshot(f, order) =>
      GuardHolds(s, s.pipe.sink.worker.n.userId);
      StepKeepsOrder(s.hub, Snap(f, s.pipe.sink.worker.n.userId, s.pipe.sink.worker.n, order));
    case SendNext => StepKeepsOrder(s.hub, Send(s.sending.value));
    case Return => StepKeepsOrder(s.hub, Land(s.sending.value));
    case Client(h) => StepKeepsOrder(s.hub, h);
  }

  lemma PipePartStaysReachable(cfg: Config, s: Live, step: LiveStep)
    requires cfg.Valid() && CanLive(cfg, s, step) && ReachableState(cfg, s.pipe)
    ensures ReachableState(cfg, LiveNext(cfg, s, step).pipe)
  {
    match step
    case Elsewhere(st) => NextIsReachable(cfg, s.pipe, st);
    case Return => NextIsReachable(cfg, s.pipe, OnSink(SinkStep.Broadcast));
    case ProcessDies => NextIsReachable(cfg, s.pipe, OnSink(Crash));
    case _ =>
  }

  lemma BookkeepingStays(cfg: Config, s: Live, step: LiveStep)
    requires cfg.Valid() && CanLive(cfg, s, step) && !step.ProcessDies?
    requires OneFlight(s) && s.base <= |s.pipe.sink.broadcasts| && HistoryIsSent(s)
    ensures var s' := LiveNext(cfg, s, step);
            OneFlight(s') && s'.base <= |s'.pipe.sink.broadcasts| && HistoryIsSent(s')
  {
    match step
    case Elsewhere(st) => ElsewhereKeeps(cfg, s, st);
    case TakeSnapshot(f, order) => SnapshotKeeps(cfg, s, f, order);
    case SendNext => HubStepKeeps(s, Send(s.sending.value));
    case Return => ReturnKeeps(cfg, s);
    case Client(h) => HubStepKeeps(s, h);
  }

  lemma LiveStepKeepsInv(cfg: Config, s: Live, step: LiveStep)
    requires cfg.Valid() && LiveInv(cfg, s) && CanLive(cfg, s, step)
    ensures LiveInv(cfg, LiveNext(cfg, s, step))
  {
    PipePartStaysReachable(cfg, s, step);
    if step.ProcessDies? {
      BootIsOk(LiveNext(cfg, s, step).pipe);
    } else {
      HubPartIsSafe(cfg, s, step);
      BookkeepingStays(cfg, s, step);
    }
  }

  lemma {:induction false} LiveRunsKeepInv(cfg: Config, s: Live, steps: seq<LiveStep>, s': Live)
    requires cfg.Valid() && LiveInv(cfg, s) && LiveRuns(cfg, s, steps, s')
    ensures LiveInv(cfg, s')
    decreases |steps|
  {
    if steps != [] {
      LiveStepKeepsInv(cfg, s, steps[0]);
      LiveRunsKeepInv(cfg, LiveNext(cfg, s, steps[0]), steps[1..], s');
    }
  }

  lemma InitIsOk(cfg: Config)
    requires cfg.Valid()
    ensures LiveInv(cfg, Boot(cfg))
  {
    assert Traces(cfg, Init(cfg), [], Init(cfg));
    BootIsOk(Init(cfg));
  }

  // ---------- theorems ----------

  // The consumer loop always meets the guard of the hub's order.
  lemma ConsumerBroadcastsSafely(cfg: Config, steps: seq<LiveStep>, s: Live, f: nat, order: seq<Conn>)
    requires cfg.Valid() && LiveRuns(cfg, Boot(cfg), steps, s) && CanLive(cfg, s, TakeSnapshot(f, order))
    ensures SafeSnap(s.hub, s.pipe.sink.worker.n.userId)
  {
    InitIsOk(cfg);
    LiveRunsKeepInv(cfg, Boot(cfg), steps, s);
    GuardHolds(s, s.pipe.sink.worker.n.userId);
  }

  lemma {:induction false} OfUserMember(ns: seq<Notification>, user: User, i: nat) returns (j: nat)
    requires i < |OfUser(ns, user)|
    ensures j < |ns| && ns[j] == OfUser(ns, user)[i] && ns[j].userId == user
    decreases |ns|
  {
    var last := |ns| - 1;
    if i < |OfUser(ns[..last], user)| {
      j := OfUserMember(ns[..last], user, i);
    } else {
      j := last;
    }
  }

  lemma {:induction false} OfUserNoRepeats(ns: seq<Notification>, user: User)
    requires NoRepeats(ns)
    ensures NoRepeats(OfUser(ns, user))
    decreases |ns|
  {
    if ns != [] {
      var last := |ns| - 1;
      OfUserNoRepeats(ns[..last], user);
      forall i | 0 <= i < |OfUser(ns[..last], user)|
        ensures OfUser(ns[..last], user)[i] != ns[last]
      {
        var j := OfUserMember(ns[..last], user, i);
      }
    }
  }

  // Everything this process sends is a stored row, and nothing is sent twice.
  lemma SentAreRows(s: Live)
    requires BroadcastsOk(s.pipe.sink) && s.base <= |s.pipe.sink.broadcasts|
    ensures NoRepeats(Sent(s)) && forall i :: 0 <= i < |Sent(s)| ==> IsRowOf(s.pipe.sink, Sent(s)[i])
  {
    var sent, all, base := Sent(s), s.pipe.sink.broadcasts, s.base;
    forall i, j | 0 <= i < j < |sent|
      ensures sent[i] != sent[j]
    {
      assert sent[i] == all[base + i];
      if base + j < |all| {
        assert !SameKey(all[base + i], all[base + j]);
      } else {
        assert !SameKey(all[base + i], s.pipe.sink.worker.n);
      }
    }
  }

  lemma ReachableSink(cfg: Config, s: State)
    requires cfg.Valid() && ReachableState(cfg, s)
    ensures BroadcastsOk(s.sink) && TableIsTrue(s.db, s.sink.notifs)
  {
    ReachableInv(cfg, s);
  }

  /**
   End to end, over every run: what a stream has received and buffered is an in-order subsequence, without repeats,
   of what the process has broadcast to its user; each of it is that user's row in the notifications table and
   says what the booking, slot and room tables say.
   */
  lemma StreamsTellTheTruthInOrder(cfg: Config, steps: seq<LiveStep>, s: Live, c: Conn)
    requires cfg.Valid() && LiveRuns(cfg, Boot(cfg), steps, s) && c in s.hub.subs
    ensures s.base <= |s.pipe.sink.broadcasts|
    ensures IsSubsequence(Delivered(s.hub.subs[c]), OfUser(Sent(s), s.hub.subs[c].user))
    ensures NoRepeats(Delivered(s.hub.subs[c]))
    ensures forall n :: n in Delivered(s.hub.subs[c]) ==>
              n.userId == s.hub.subs[c].user && IsRowOf(s.pipe.sink, n) && TrueOf(s.pipe.db, n)
  {
    InitIsOk(cfg);
    LiveRunsKeepInv(cfg, Boot(cfg), steps, s);
    var sub := s.hub.subs[c];
    assert StreamOk(s.hub, c);
    OrderIsSubsequence(s.hub, c);
    ReachableSink(cfg, s.pipe);
    SentAreRows(s);
    OfUserNoRepeats(Sent(s), sub.user);
    DeliveredAreDistinct(s.hub, c);
    assert HistoryOf(s.hub, sub.user) == OfUser(Sent(s), sub.user);
    forall n | n in Delivered(sub)
      ensures n.userId == sub.user && IsRowOf(s.pipe.sink, n) && TrueOf(s.pipe.db, n)
    {
      DeliveredIsTrue(cfg, s, c, n);
    }
  }

  lemma DeliveredAreDistinct(s: HubState, c: Conn)
    requires HubInv(s) && c in s.subs && NoRepeats(HistoryOf(s, s.subs[c].user))
    ensures NoRepeats(Delivered(s.subs[c]))
  {
    assert SubOk(s, c);
    var sub := s.subs[c];
    forall i, j | 0 <= i < j < |Delivered(sub)|
      ensures Delivered(sub)[i] != Delivered(sub)[j]
    {
      assert sub.taken[i] != sub.taken[j];
    }
  }

  lemma DeliveredIsTrue(cfg: Config, s: Live, c: Conn, n: Notification)
    requires cfg.Valid() && LiveInv(cfg, s) && c in s.hub.subs && n in Delivered(s.hub.subs[c])
    ensures n.userId == s.hub.subs[c].user && IsRowOf(s.pipe.sink, n) && TrueOf(s.pipe.db, n)
  {
    var sub := s.hub.subs[c];
    assert SubOk(s.hub, c);
    var i :| 0 <= i < |Delivered(sub)| && Delivered(sub)[i] == n;
    assert HistoryOf(s.hub, sub.user) == OfUser(Sent(s), sub.user);
    var j := OfUserMember(Sent(s), sub.user, sub.taken[i]);
    ReachableSink(cfg, s.pipe);
    SentAreRows(s);
    assert TrueOf(s.pipe.db, s.pipe.sink.notifs[(n.bookingId, n.kind)]);
  }
}
