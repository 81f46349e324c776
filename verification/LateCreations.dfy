/** A booking's creation broadcast after its cancellation: only if it had been skipped, and exactly when it can be. */
module LateCreations {
  import opened Domain
  import opened RelayLog
  import opened Delivery
  import opened DeliveryProofs

  // `m` announces the creation of the booking whose cancellation `n` announces.
  predicate Late(n: Notification, m: Notification) {
    n.kind.NotifCancelled? && m.kind.NotifCreated? && n.bookingId == m.bookingId
  }

  predicate CreationSkipped(s: Sink, b: Uuid) {
    (b, NotifCreated) in s.skipped
  }

  // Whatever went out late, or is about to, had been skipped.
  ghost predicate LateWasSkipped(s: Sink) {
    && (forall i, j :: 0 <= i < j < |s.broadcasts| && Late(s.broadcasts[i], s.broadcasts[j]) ==>
          CreationSkipped(s, s.broadcasts[j].bookingId))
    && (s.worker.Stored? ==> forall i :: 0 <= i < |s.broadcasts| && Late(s.broadcasts[i], s.worker.n) ==>
          CreationSkipped(s, s.worker.n.bookingId))
  }

  // A creation is stored only once; if its cancellation is in the table already, it must have been skipped.
  lemma StepKeepsLate(logs: seq<seq<Message>>, s: Sink, step: SinkStep)
    requires BroadcastsOk(s) && CausalTable(s) && LateWasSkipped(s) && SinkEnabled(logs, s, step)
    ensures LateWasSkipped(SinkApply(logs, s, step))
  {
    var s' := SinkApply(logs, s, step);
    if step.Process? && s'.worker.Stored? {
      forall i | 0 <= i < |s.broadcasts| && Late(s.broadcasts[i], s'.worker.n)
        ensures CreationSkipped(s', s'.worker.n.bookingId)
      {
        assert IsRowOf(s, s.broadcasts[i]);
        assert Settled(s, (s'.worker.n.bookingId, NotifCreated));
      }
    }
  }

  // ---------- when a creation can still be broadcast ----------

  // The creation of `b`, in a form the notifications table takes.
  predicate IsCreationOf(m: Message, b: Uuid) {
    IsEventOf(m.value, b, BookingCreated) && m.value.event.slotStart < m.value.event.slotEnd
  }

  // The reader has this message before it, or will have once it starts over at the committed offsets.
  predicate Ahead(s: Sink, p: nat, i: nat)
    requires p < |s.committed| == |s.position|
  {
    s.committed[p] <= i || s.position[p] <= i
  }

  predicate InHand(s: Sink, p: nat, i: nat) {
    && !s.worker.Idle? && s.worker.p == p
    && if s.worker.Fetched? then s.worker.off <= i else s.worker.off < i
  }

  ghost predicate CreationAhead(logs: seq<seq<Message>>, s: Sink, b: Uuid)
    requires |s.committed| == |s.position| == |logs|
  {
    exists p, i :: 0 <= p < |logs| && 0 <= i < |logs[p]| && IsCreationOf(logs[p][i], b) && Ahead(s, p, i)
  }

  // The creation of `b` will not be broadcast: it has been stored, or is never met again.
  ghost predicate Past(logs: seq<seq<Message>>, s: Sink, b: Uuid)
    requires OffsetsOk(logs, s)
  {
    && !(s.worker.Stored? && (s.worker.n.bookingId, s.worker.n.kind) == (b, NotifCreated))
    && ((b, NotifCreated) in s.notifs
        || forall p, i :: 0 <= p < |logs| && 0 <= i < |logs[p]| && IsCreationOf(logs[p][i], b) ==>
             !Ahead(s, p, i) && !InHand(s, p, i))
  }

  predicate AnnouncesCreation(n: Notification, b: Uuid) {
    n.bookingId == b && n.kind.NotifCreated?
  }

  ghost predicate BroadcastSince(s: Sink, s': Sink, b: Uuid) {
    exists j :: |s.broadcasts| <= j < |s'.broadcasts| && AnnouncesCreation(s'.broadcasts[j], b)
  }

  lemma PastStays(logs: seq<seq<Message>>, s: Sink, step: SinkStep, b: Uuid)
    requires OffsetsOk(logs, s) && Past(logs, s, b) && SinkEnabled(logs, s, step)
    ensures var s' := SinkApply(logs, s, step); OffsetsOk(logs, s') && Past(logs, s', b)
    ensures step.Broadcast? ==> !AnnouncesCreation(s.worker.n, b)
  {
    StepKeepsOffsets(logs, s, step);
    if step.Process? {
      var p, i := s.worker.p, s.worker.off;
      assert InHand(s, p, i);
      assert IsCreationOf(logs[p][i], b) ==> (b, NotifCreated) in s.notifs;
    }
  }

  lemma {:induction false} PastIsSilent(logs: seq<seq<Message>>, s: Sink, steps: seq<SinkStep>, s': Sink, b: Uuid)
    requires OffsetsOk(logs, s) && Past(logs, s, b) && SinkRuns(logs, s, steps, s')
    ensures !BroadcastSince(s, s', b) && |s.broadcasts| <= |s'.broadcasts|
    decreases |steps|
  {
    if steps != [] {
      PastStays(logs, s, steps[0], b);
      var next := SinkApply(logs, s, steps[0]);
      PastIsSilent(logs, next, steps[1..], s', b);
      BroadcastsGrow(logs, next, steps[1..], s');
      forall j | |s.broadcasts| <= j < |s'.broadcasts|
        ensures !AnnouncesCreation(s'.broadcasts[j], b)
      {
        assert j < |next.broadcasts| ==> s'.broadcasts[j] == next.broadcasts[j];
      }
    }
  }

  lemma {:induction false} BroadcastsGrow(logs: seq<seq<Message>>, s: Sink, steps: seq<SinkStep>, s': Sink)
    requires SinkRuns(logs, s, steps, s')
    ensures s.broadcasts <= s'.broadcasts
    decreases |steps|
  {
    if steps != [] {
      BroadcastsGrow(logs, SinkApply(logs, s, steps[0]), steps[1..], s');
    }
  }

  lemma {:induction false} SinkRunsCompose(logs: seq<seq<Message>>, s: Sink, steps: seq<SinkStep>, mid: Sink,
                                           more: seq<SinkStep>, s': Sink)
    requires SinkRuns(logs, s, steps, mid) && SinkRuns(logs, mid, more, s')
    ensures SinkRuns(logs, s, steps + more, s')
    decreases |steps|
  {
    if steps == [] {
      assert steps + more == more;
    } else {
      SinkRunsCompose(logs, SinkApply(logs, s, steps[0]), steps[1..], mid, more, s');
      assert (steps + more)[1..] == steps[1..] + more;
    }
  }

  // The loop reads on to message `i` of the partition, the database being down and no offset committed.
  lemma {:induction false} ReadUpTo(logs: seq<seq<Message>>, s: Sink, p: nat, i: nat)
    returns (steps: seq<SinkStep>, s': Sink)
    requires OffsetsOk(logs, s) && s.worker.Idle? && p < |logs| && s.position[p] <= i < |logs[p]|
    ensures SinkRuns(logs, s, steps, s') && OffsetsOk(logs, s') && s'.worker.Idle? && s'.position[p] == i
    ensures s'.notifs == s.notifs && s'.broadcasts == s.broadcasts
    decreases i - s.position[p]
  {
    if s.position[p] == i {
      return [], s;
    }
    var id := FreshId(s.notifs);
    var s1 := SinkApply(logs, s, Fetch(p));
    var s2 := SinkApply(logs, s1, Process(Failed, id, 0));
    var s3 := SinkApply(logs, s2, CommitFails);
    ThreeSteps(logs, s, Fetch(p), s1, Process(Failed, id, 0), s2, CommitFails, s3);
    var rest;
    rest, s' := ReadUpTo(logs, s3, p, i);
    steps := [Fetch(p), Process(Failed, id, 0), CommitFails] + rest;
    SinkRunsCompose(logs, s, [Fetch(p), Process(Failed, id, 0), CommitFails], s3, rest, s');
  }

  // Once the reader is at the creation and its row is not there, the next pass broadcasts it.
  lemma NextPassBroadcasts(logs: seq<seq<Message>>, s: Sink, p: nat, b: Uuid) returns (steps: seq<SinkStep>, s': Sink)
    requires OffsetsOk(logs, s) && s.worker.Idle? && p < |logs| && s.position[p] < |logs[p]|
    requires IsCreationOf(logs[p][s.position[p]], b) && (b, NotifCreated) !in s.notifs
    ensures SinkRuns(logs, s, steps, s') && BroadcastSince(s, s', b)
  {
    var id := FreshId(s.notifs);
    var s1 := SinkApply(logs, s, Fetch(p));
    var s2 := SinkApply(logs, s1, Process(Answered, id, 0));
    s' := SinkApply(logs, s2, Broadcast);
    ThreeSteps(logs, s, Fetch(p), s1, Process(Answered, id, 0), s2, Broadcast, s');
    steps := [Fetch(p), Process(Answered, id, 0), Broadcast];
    assert AnnouncesCreation(s'.broadcasts[|s.broadcasts|], b);
  }

  lemma AheadIsReached(logs: seq<seq<Message>>, s: Sink, p: nat, i: nat) returns (steps: seq<SinkStep>, s': Sink)
    requires OffsetsOk(logs, s) && s.worker.Idle? && p < |logs| && i < |logs[p]| && Ahead(s, p, i)
    ensures SinkRuns(logs, s, steps, s') && OffsetsOk(logs, s') && s'.worker.Idle? && s'.position[p] == i
    ensures s'.notifs == s.notifs && s'.broadcasts == s.broadcasts
  {
    if s.position[p] <= i {
      steps, s' := ReadUpTo(logs, s, p, i);
    } else {
      var back := SinkApply(logs, s, Rebalance);
      var rest;
      rest, s' := ReadUpTo(logs, back, p, i);
      assert [Rebalance][1..] == [] && SinkRuns(logs, s, [Rebalance], back);
      SinkRunsCompose(logs, s, [Rebalance], back, rest, s');
      steps := [Rebalance] + rest;
    }
  }

  ghost predicate MayBroadcast(logs: seq<seq<Message>>, s: Sink, b: Uuid) {
    exists steps, s' :: SinkRuns(logs, s, steps, s') && BroadcastSince(s, s', b)
  }

  /**
   From any idle state, on the logs as they are, the loop can still broadcast the creation of `b`, however late, if
   and only if its row is not stored and some message announcing it lies ahead.
   */
  lemma CreationMayComeExactly(logs: seq<seq<Message>>, s: Sink, b: Uuid)
    requires OffsetsOk(logs, s) && s.worker.Idle?
    ensures MayBroadcast(logs, s, b) <==> (b, NotifCreated) !in s.notifs && CreationAhead(logs, s, b)
  {
    if (b, NotifCreated) !in s.notifs && CreationAhead(logs, s, b) {
      var p, i :| 0 <= p < |logs| && 0 <= i < |logs[p]| && IsCreationOf(logs[p][i], b) && Ahead(s, p, i);
      var first, mid := AheadIsReached(logs, s, p, i);
      var last, s' := NextPassBroadcasts(logs, mid, p, b);
      SinkRunsCompose(logs, s, first, mid, last, s');
      var j :| |mid.broadcasts| <= j < |s'.broadcasts| && AnnouncesCreation(s'.broadcasts[j], b);
      assert BroadcastSince(s, s', b);
    } else {
      assert Past(logs, s, b);
      forall steps, s' | SinkRuns(logs, s, steps, s')
        ensures !BroadcastSince(s, s', b)
      {
        PastIsSilent(logs, s, steps, s', b);
      }
    }
  }
}
