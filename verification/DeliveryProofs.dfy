/** What the consumer keeps across crashes, failed commits and redeliveries. */
module DeliveryProofs {
  import opened Domain
  import opened RelayLog
  import opened RelayLogProofs
  import opened Delivery

  lemma StepKeepsOffsets(logs: seq<seq<Message>>, s: Sink, step: SinkStep)
    requires OffsetsOk(logs, s) && SinkEnabled(logs, s, step)
    ensures OffsetsOk(logs, SinkApply(logs, s, step))
  {
  }

  lemma StepKeepsCounters(logs: seq<seq<Message>>, s: Sink, step: SinkStep)
    requires CountersOk(s) && SinkEnabled(logs, s, step)
    ensures CountersOk(SinkApply(logs, s, step))
  {
  }

  lemma StepSinkEvolves(logs: seq<seq<Message>>, s: Sink, step: SinkStep)
    requires OffsetsOk(logs, s) && SinkEnabled(logs, s, step)
    ensures SinkEvolves(s, SinkApply(logs, s, step))
  {
  }

  lemma HandledStay(s: Sink, s': Sink)
    requires SinkEvolves(s, s')
    ensures forall value :: Handled(s, value) ==> Handled(s', value)
  {
  }

  // One pass over the loop body handles the message, whatever branch it takes.
  lemma ProcessHandles(logs: seq<seq<Message>>, s: Sink, reply: Reply, id: Uuid, now: Time)
    requires SinkEnabled(logs, s, Process(reply, id, now))
    ensures Handled(SinkApply(logs, s, Process(reply, id, now)), logs[s.worker.p][s.worker.off].value)
  {
  }

  // What one message does, written out: only a booking event of positive length whose insert takes effect and whose
  // (booking, type) has no row yet stores one, as it says, unread and timed now; what cannot be decoded or is not
  // answered counts as an error; a booking event that errs is recorded as skipped; everything else counts as consumed,
  // a stored row once it is broadcast.
  lemma ProcessExactly(logs: seq<seq<Message>>, s: Sink, reply: Reply, id: Uuid, now: Time, e: Event, kind: NotifType)
    requires SinkEnabled(logs, s, Process(reply, id, now)) && logs[s.worker.p][s.worker.off].value == Json(e)
    requires e.eventType == if kind.NotifCreated? then BookingCreated else BookingCancelled
    ensures var s', key := SinkApply(logs, s, Process(reply, id, now)), (e.bookingId, kind);
            var n := Notification(id, e.userId, kind, e.bookingId, e.roomName, e.slotStart, e.slotEnd, false, now);
            var errs := !reply.Answered? || e.slotEnd <= e.slotStart;
            var stores := !reply.Failed? && e.slotStart < e.slotEnd && key !in s.notifs;
            && s'.notifs == (if stores then s.notifs[key := n] else s.notifs)
            && s'.worker == (if stores && !errs then Stored(s.worker.p, s.worker.off, n)
                             else Finished(s.worker.p, s.worker.off))
            && s'.errors == s.errors + (if errs then 1 else 0)
            && s'.consumed == s.consumed + (if errs || stores then 0 else 1)
            && s'.skipped == s.skipped + (if errs then {key} else {})
  {
  }

  lemma OthersStoreNothing(logs: seq<seq<Message>>, s: Sink, reply: Reply, id: Uuid, now: Time, value: Payload)
    requires SinkEnabled(logs, s, Process(reply, id, now)) && logs[s.worker.p][s.worker.off].value == value
    requires value.Malformed? || value.event.eventType.OtherEvent?
    ensures SinkApply(logs, s, Process(reply, id, now))
            == s.(worker := Finished(s.worker.p, s.worker.off),
                  errors := s.errors + (if value.Malformed? then 1 else 0),
                  consumed := s.consumed + (if value.Malformed? then 0 else 1))
  {
  }

  // Only processing passes a message.
  lemma StepPasses(logs: seq<seq<Message>>, s: Sink, step: SinkStep, p: nat, i: nat)
    requires OffsetsOk(logs, s) && SinkEnabled(logs, s, step) && p < |logs|
    ensures OffsetsOk(logs, SinkApply(logs, s, step))
    ensures Passed(SinkApply(logs, s, step), p, i) ==> Passed(s, p, i) || (step.Process? && s.worker == Fetched(p, i))
  {
  }

  lemma StepKeepsHandled(logs: seq<seq<Message>>, s: Sink, step: SinkStep)
    requires OffsetsOk(logs, s) && PassedIsHandled(logs, s) && SinkEnabled(logs, s, step)
    ensures OffsetsOk(logs, SinkApply(logs, s, step)) && PassedIsHandled(logs, SinkApply(logs, s, step))
  {
    var s' := SinkApply(logs, s, step);
    StepKeepsOffsets(logs, s, step);
    StepSinkEvolves(logs, s, step);
    HandledStay(s, s');
    forall p, i | 0 <= p < |logs| && 0 <= i < |logs[p]| && Passed(s', p, i)
      ensures Handled(s', logs[p][i].value)
    {
      StepPasses(logs, s, step, p, i);
      if Passed(s, p, i) {
        assert Handled(s, logs[p][i].value);
      } else {
        ProcessHandles(logs, s, step.reply, step.id, step.now);
      }
    }
  }

  // A committed offset goes down only after a rebalance has caught a message in hand.
  lemma OffsetsOnlyAdvance(logs: seq<seq<Message>>, s: Sink, step: SinkStep)
    requires OffsetsOk(logs, s) && Forward(s) && SinkEnabled(logs, s, step)
    requires step.Rebalance? ==> s.worker.Idle?
    ensures Forward(SinkApply(logs, s, step))
    ensures forall p :: 0 <= p < |s.committed| ==> s.committed[p] <= SinkApply(logs, s, step).committed[p]
  {
  }

  ghost predicate SinkRuns(logs: seq<seq<Message>>, s: Sink, steps: seq<SinkStep>, s': Sink)
    decreases |steps|
  {
    if steps == [] then s == s'
    else SinkEnabled(logs, s, steps[0]) && SinkRuns(logs, SinkApply(logs, s, steps[0]), steps[1..], s')
  }

  lemma ThreeSteps(logs: seq<seq<Message>>, s: Sink, a: SinkStep, s1: Sink, b: SinkStep, s2: Sink,
                   c: SinkStep, s3: Sink)
    requires SinkEnabled(logs, s, a) && s1 == SinkApply(logs, s, a)
    requires SinkEnabled(logs, s1, b) && s2 == SinkApply(logs, s1, b)
    requires SinkEnabled(logs, s2, c) && s3 == SinkApply(logs, s2, c)
    ensures SinkRuns(logs, s, [a, b, c], s3)
  {
    assert [a, b, c][1..] == [b, c] && [b, c][1..] == [c] && [c][1..] == [];
    assert SinkRuns(logs, s2, [c], s3);
    assert SinkRuns(logs, s1, [b, c], s3);
  }

  // And then it may: the loop commits the message in hand, and afterwards an earlier one it is given again.
  lemma RebalanceMayLowerAnOffset() returns (logs: seq<seq<Message>>, s: Sink, mid: Sink, s': Sink)
    ensures SinkInv(logs, s) && Forward(s) && |s.committed| == |mid.committed| == |s'.committed| == 1
    ensures SinkRuns(logs, s, [Rebalance, Process(Answered, 0, 0), CommitOffset], mid)
    ensures SinkRuns(logs, mid, [Fetch(0), Process(Answered, 0, 0), CommitOffset], s')
    ensures s'.committed[0] < mid.committed[0]
  {
    logs := [[Message(None, Malformed), Message(None, Malformed)]];
    s := Passing([0], [2], Fetched(0, 1), 2, 1);
    mid := Passing([2], [0], Idle, 2, 2);
    s' := Passing([1], [1], Idle, 3, 3);
    CommitsInHand(logs);
    CommitsAgain(logs);
  }

  // A consumer that has only met payloads it cannot decode.
  function Passing(committed: seq<nat>, position: seq<nat>, worker: Worker, taken: nat, errors: nat): Sink {
    Sink(committed, position, worker, map[], {}, [], taken, 0, errors)
  }

  lemma CommitsInHand(logs: seq<seq<Message>>)
    requires logs == [[Message(None, Malformed), Message(None, Malformed)]]
    ensures SinkRuns(logs, Passing([0], [2], Fetched(0, 1), 2, 1), [Rebalance, Process(Answered, 0, 0), CommitOffset],
                     Passing([2], [0], Idle, 2, 2))
  {
    ThreeSteps(logs, Passing([0], [2], Fetched(0, 1), 2, 1), Rebalance, Passing([0], [0], Fetched(0, 1), 2, 1),
               Process(Answered, 0, 0), Passing([0], [0], Finished(0, 1), 2, 2),
               CommitOffset, Passing([2], [0], Idle, 2, 2));
  }

  lemma CommitsAgain(logs: seq<seq<Message>>)
    requires logs == [[Message(None, Malformed), Message(None, Malformed)]]
    ensures SinkRuns(logs, Passing([2], [0], Idle, 2, 2), [Fetch(0), Process(Answered, 0, 0), CommitOffset],
                     Passing([1], [1], Idle, 3, 3))
  {
    ThreeSteps(logs, Passing([2], [0], Idle, 2, 2), Fetch(0), Passing([2], [1], Fetched(0, 0), 3, 2),
               Process(Answered, 0, 0), Passing([2], [1], Finished(0, 0), 3, 3),
               CommitOffset, Passing([1], [1], Idle, 3, 3));
  }

  // There is always an id to generate.
  lemma FreshId(notifs: map<Key, Notification>) returns (id: Uuid)
    ensures IdUnused(notifs, id)
  {
    var ids := set k | k in notifs :: notifs[k].id;
    id := SomethingIsAbove(ids);
    assert forall k :: k in notifs ==> notifs[k].id in ids;
  }

  lemma StepKeepsTable(logs: seq<seq<Message>>, s: Sink, step: SinkStep)
    requires TableOk(s) && SinkEnabled(logs, s, step)
    ensures TableOk(SinkApply(logs, s, step))
  {
  }

  lemma IsRowStays(s: Sink, s': Sink, n: Notification)
    requires NotifsEvolve(s.notifs, s'.notifs) && IsRowOf(s, n)
    ensures IsRowOf(s', n)
  {
    assert RowKept(s.notifs[(n.bookingId, n.kind)], s'.notifs[(n.bookingId, n.kind)]);
  }

  lemma StepKeepsBroadcasts(logs: seq<seq<Message>>, s: Sink, step: SinkStep)
    requires OffsetsOk(logs, s) && BroadcastsOk(s) && SinkEnabled(logs, s, step)
    ensures BroadcastsOk(SinkApply(logs, s, step))
  {
    var s' := SinkApply(logs, s, step);
    StepSinkEvolves(logs, s, step);
    forall n | IsRowOf(s, n)
      ensures IsRowOf(s', n)
    {
      IsRowStays(s, s', n);
    }
  }

  lemma StepKeepsSink(logs: seq<seq<Message>>, s: Sink, step: SinkStep)
    requires SinkInv(logs, s) && SinkEnabled(logs, s, step)
    ensures SinkInv(logs, SinkApply(logs, s, step))
  {
    StepKeepsHandled(logs, s, step);
    StepKeepsTable(logs, s, step);
    StepKeepsBroadcasts(logs, s, step);
    StepKeepsCounters(logs, s, step);
  }

  lemma GrowthKeepsSink(logs: seq<seq<Message>>, logs': seq<seq<Message>>, s: Sink)
    requires SinkInv(logs, s) && LogsGrow(logs, logs')
    ensures SinkInv(logs', s)
  {
    assert forall p, i :: 0 <= p < |logs| && 0 <= i < |logs[p]| ==> logs'[p][i] == logs[p][i];
  }

  // The logs being causal, the notifications table stays causal.
  lemma StepKeepsCausalTable(logs: seq<seq<Message>>, s: Sink, step: SinkStep)
    requires SinkInv(logs, s) && CausalTable(s) && SinkEnabled(logs, s, step)
    requires forall p :: 0 <= p < |logs| ==> CausalLog(logs[p])
    ensures CausalTable(SinkApply(logs, s, step))
  {
    var s' := SinkApply(logs, s, step);
    StepSinkEvolves(logs, s, step);
    forall k | k in s'.notifs && k.1.NotifCancelled?
      ensures Settled(s', (k.0, NotifCreated))
    {
      if k !in s.notifs {
        var Fetched(p, off) := s.worker;
        assert CausalAt(logs[p], off);
        var m :| 0 <= m < off && IsEventOf(logs[p][..off][m].value, k.0, BookingCreated);
        assert Handled(s, logs[p][m].value);
      }
    }
  }

  // Marking one notification touches at most that one row, and only for its owner.
  lemma ReadTouchesOneOwnRow(s: Sink, id: Uuid, user: Uuid, k: Key, l: Key)
    requires TableOk(s) && k in s.notifs && l in s.notifs
    requires Read(s.notifs, Some(id), user)[k] != s.notifs[k]
    ensures s.notifs[k].userId == user && s.notifs[k].id == id && !s.notifs[k].isRead
    ensures l != k ==> Read(s.notifs, Some(id), user)[l] == s.notifs[l]
  {
  }

  // ---------- redelivery ----------

  // The table after processing events one by one without failures, ids and times as handed out.
  ghost function Replay(notifs: map<Key, Notification>, es: seq<Event>, ids: seq<Uuid>, now: Time)
    : map<Key, Notification>
    requires |ids| == |es|
    decreases |es|
  {
    if es == [] then notifs else Replay(Insert(notifs, es[0], ids[0], now), es[1..], ids[1..], now)
  }

  function Insert(notifs: map<Key, Notification>, e: Event, id: Uuid, now: Time): map<Key, Notification> {
    if KindOf(e.eventType).None? then notifs
    else
      var n := NotificationOf(e, KindOf(e.eventType).value, id, now);
      if InsertOutcome(notifs, Answered, n).Inserted? then notifs[(n.bookingId, n.kind) := n] else notifs
  }

  // `Insert` is what the loop body does to the table when the database is up.
  lemma InsertIsProcess(s: Sink, p: nat, off: nat, e: Event, id: Uuid, now: Time)
    ensures AfterMessage(s, p, off, Json(e), Answered, id, now).notifs == Insert(s.notifs, e, id, now)
  {
  }

  // The event would add nothing to the table.
  ghost predicate Absorbed(notifs: map<Key, Notification>, e: Event) {
    KindOf(e.eventType).Some? && e.slotStart < e.slotEnd ==> KeyOf(e, KindOf(e.eventType).value) in notifs
  }

  lemma {:induction false} ReplayAbsorbs(notifs: map<Key, Notification>, es: seq<Event>, ids: seq<Uuid>, now: Time)
    requires |ids| == |es|
    ensures forall k :: k in notifs ==>
              k in Replay(notifs, es, ids, now) && Replay(notifs, es, ids, now)[k] == notifs[k]
    ensures forall i :: 0 <= i < |es| ==> Absorbed(Replay(notifs, es, ids, now), es[i])
    decreases |es|
  {
    if es != [] {
      var next := Insert(notifs, es[0], ids[0], now);
      ReplayAbsorbs(next, es[1..], ids[1..], now);
      assert Absorbed(next, es[0]);
      forall i | 0 <= i < |es|
        ensures Absorbed(Replay(notifs, es, ids, now), es[i])
      {
        assert i > 0 ==> es[i] == es[1..][i - 1];
      }
    }
  }

  lemma {:induction false} AbsorbedReplayIsIdle(notifs: map<Key, Notification>, es: seq<Event>, ids: seq<Uuid>,
                                                now: Time)
    requires |ids| == |es| && forall i :: 0 <= i < |es| ==> Absorbed(notifs, es[i])
    ensures Replay(notifs, es, ids, now) == notifs
    decreases |es|
  {
    if es != [] {
      assert Absorbed(notifs, es[0]) && Insert(notifs, es[0], ids[0], now) == notifs;
      assert forall i :: 0 <= i < |es[1..]| ==> es[1..][i] == es[i + 1];
      AbsorbedReplayIsIdle(notifs, es[1..], ids[1..], now);
    }
  }

  // Delivering any selection of already delivered events again, in any order and any number of times,
  // with other ids and at another time, leaves every row as the first delivery wrote it.
  lemma RedeliveryIsIdempotent(notifs: map<Key, Notification>, es: seq<Event>, ids: seq<Uuid>, now: Time,
                               again: seq<Event>, ids': seq<Uuid>, later: Time)
    requires |ids| == |es| && |ids'| == |again|
    requires forall i :: 0 <= i < |again| ==> again[i] in es
    ensures Replay(Replay(notifs, es, ids, now), again, ids', later) == Replay(notifs, es, ids, now)
  {
    ReplayAbsorbs(notifs, es, ids, now);
    AbsorbedReplayIsIdle(Replay(notifs, es, ids, now), again, ids', later);
  }
}
