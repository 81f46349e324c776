/** What relays keep: no sent row is missing from the logs, batches are disjoint, creations precede cancellations. */
module RelayLogProofs {
  import opened Domain
  import opened BookingDb
  import opened RelayLog

  // ---------- shares ----------

  lemma {:induction false} ShareContains(cfg: Config, rows: seq<OutboxRow>, p: nat, i: nat)
    requires cfg.Valid() && i < |rows| && HomeOf(cfg, rows[i]) == p
    ensures MessageOf(rows[i]) in Share(cfg, rows, p)
    decreases |rows|
  {
    if i < |rows| - 1 {
      ShareContains(cfg, rows[..|rows| - 1], p, i);
    }
  }

  // The `n`-th message of a share comes from some row, and the share's earlier rows come before it.
  lemma {:induction false} ShareOrigin(cfg: Config, rows: seq<OutboxRow>, p: nat, n: nat) returns (i: nat)
    requires cfg.Valid() && n < |Share(cfg, rows, p)|
    ensures i < |rows| && HomeOf(cfg, rows[i]) == p && Share(cfg, rows, p)[n] == MessageOf(rows[i])
    ensures forall k :: 0 <= k < i && HomeOf(cfg, rows[k]) == p ==> MessageOf(rows[k]) in Share(cfg, rows, p)[..n]
    decreases |rows|
  {
    var init := rows[..|rows| - 1];
    var share := Share(cfg, init, p);
    if n < |share| {
      i := ShareOrigin(cfg, init, p, n);
      assert Share(cfg, rows, p)[..n] == share[..n];
    } else {
      i := |rows| - 1;
      assert Share(cfg, rows, p)[..n] == share;
      forall k | 0 <= k < i && HomeOf(cfg, rows[k]) == p
        ensures MessageOf(rows[k]) in share
      {
        ShareContains(cfg, init, p, k);
      }
    }
  }

  // ---------- the outbox moves on ----------

  // New rows appear unsent; nothing else changes.
  ghost predicate OutboxGrows(outbox: map<Uuid, OutboxRow>, outbox': map<Uuid, OutboxRow>) {
    && (forall id :: id in outbox ==> id in outbox' && outbox'[id] == outbox[id])
    && (forall id :: id in outbox' && id !in outbox ==> outbox'[id].sentAt.None?)
  }

  lemma GrowthKeepsRelay(cfg: Config, outbox: map<Uuid, OutboxRow>, outbox': map<Uuid, OutboxRow>, relay: Relay)
    requires cfg.Valid() && RelayInv(cfg, outbox, relay) && OutboxGrows(outbox, outbox')
    ensures RelayInv(cfg, outbox', relay)
  {
    forall r | r in relay.batches
      ensures BatchOk(cfg, outbox', relay.logs, relay.batches[r])
    {
      assert BatchOk(cfg, outbox, relay.logs, relay.batches[r]);
    }
    forall p, i | 0 <= p < |relay.logs| && 0 <= i < |relay.logs[p]|
      ensures FromOutbox(cfg, outbox', p, relay.logs[p][i])
    {
      assert FromOutbox(cfg, outbox, p, relay.logs[p][i]);
    }
  }

  // ---------- relay steps ----------

  lemma SelectKeepsRelay(cfg: Config, outbox: map<Uuid, OutboxRow>, relay: Relay, r: nat, rows: seq<OutboxRow>)
    requires cfg.Valid() && RelayInv(cfg, outbox, relay)
    requires RelayEnabled(cfg, outbox, relay, Select(r, rows))
    ensures RelayInv(cfg, outbox, RelayApply(cfg, relay, Select(r, rows)))
  {
    var relay' := RelayApply(cfg, relay, Select(r, rows));
    forall q | q in relay.batches && relay.batches[q].open
      ensures Ids(rows) !! Ids(relay.batches[q].rows)
    {
      forall id | id in Ids(rows)
        ensures id !in Ids(relay.batches[q].rows)
      {
        assert !Locked(relay.batches, id);
      }
    }
    assert BatchOk(cfg, outbox, relay.logs, relay'.batches[r]);
    assert forall q :: q in relay.batches ==> BatchOk(cfg, outbox, relay.logs, relay.batches[q]);
  }

  // Appending to one log keeps every logged message logged.
  ghost predicate LogsGrow(logs: seq<seq<Message>>, logs': seq<seq<Message>>) {
    |logs| == |logs'| && forall p :: 0 <= p < |logs| ==> logs[p] <= logs'[p]
  }

  lemma WriteGrowsLogs(cfg: Config, relay: Relay, r: nat, p: nat, j: nat)
    requires cfg.Valid() && r in relay.batches && p < |relay.logs| && j <= |relay.batches[r].rows|
    ensures LogsGrow(relay.logs, RelayApply(cfg, relay, Write(r, p, j)).logs)
  {
  }

  lemma BatchOkGrows(cfg: Config, outbox: map<Uuid, OutboxRow>, logs: seq<seq<Message>>, logs': seq<seq<Message>>,
                     b: Batch)
    requires cfg.Valid() && |logs| == cfg.partitions && BatchOk(cfg, outbox, logs, b) && LogsGrow(logs, logs')
    ensures BatchOk(cfg, outbox, logs', b)
  {
    forall i | 0 <= i < |b.rows| && HomeOf(cfg, b.rows[i]) in b.written
      ensures MessageOf(b.rows[i]) in logs'[HomeOf(cfg, b.rows[i])]
    {
      InGrownLog(logs, logs', HomeOf(cfg, b.rows[i]), MessageOf(b.rows[i]));
    }
  }

  lemma InGrownLog(logs: seq<seq<Message>>, logs': seq<seq<Message>>, p: nat, m: Message)
    requires LogsGrow(logs, logs') && p < |logs| && m in logs[p]
    ensures m in logs'[p]
  {
    var i :| 0 <= i < |logs[p]| && logs[p][i] == m;
    assert logs'[p][i] == m;
  }

  lemma WriteKeepsBatches(cfg: Config, outbox: map<Uuid, OutboxRow>, relay: Relay, r: nat, p: nat, j: nat)
    requires cfg.Valid() && RelayInv(cfg, outbox, relay)
    requires RelayEnabled(cfg, outbox, relay, Write(r, p, j))
    ensures var relay' := RelayApply(cfg, relay, Write(r, p, j));
            forall q :: q in relay'.batches ==> BatchOk(cfg, outbox, relay'.logs, relay'.batches[q])
  {
    var relay' := RelayApply(cfg, relay, Write(r, p, j));
    WriteGrowsLogs(cfg, relay, r, p, j);
    forall q | q in relay'.batches
      ensures BatchOk(cfg, outbox, relay'.logs, relay'.batches[q])
    {
      BatchOkGrows(cfg, outbox, relay.logs, relay'.logs, relay.batches[q]);
      if q == r && j == |relay.batches[r].rows| {
        var rows := relay.batches[r].rows;
        assert rows[..j] == rows;
        forall i | 0 <= i < |rows| && HomeOf(cfg, rows[i]) == p
          ensures MessageOf(rows[i]) in relay'.logs[p]
        {
          ShareContains(cfg, rows, p, i);
        }
      }
    }
  }

  lemma WriteKeepsOrigin(cfg: Config, outbox: map<Uuid, OutboxRow>, relay: Relay, r: nat, p: nat, j: nat,
                         q: nat, i: nat)
    requires cfg.Valid() && RelayInv(cfg, outbox, relay)
    requires RelayEnabled(cfg, outbox, relay, Write(r, p, j))
    requires var logs' := RelayApply(cfg, relay, Write(r, p, j)).logs; q < |logs'| && i < |logs'[q]|
    ensures FromOutbox(cfg, outbox, q, RelayApply(cfg, relay, Write(r, p, j)).logs[q][i])
  {
    if q == p && i >= |relay.logs[p]| {
      var rows := relay.batches[r].rows[..j];
      var k := ShareOrigin(cfg, rows, p, i - |relay.logs[p]|);
      assert BatchOk(cfg, outbox, relay.logs, relay.batches[r]);
      assert CapturedFrom(outbox, relay.batches[r].rows[k]);
      assert rows[k].id in outbox && HomeOf(cfg, outbox[rows[k].id]) == p;
    } else {
      assert FromOutbox(cfg, outbox, q, relay.logs[q][i]);
    }
  }

  lemma WriteKeepsRelay(cfg: Config, outbox: map<Uuid, OutboxRow>, relay: Relay, r: nat, p: nat, j: nat)
    requires cfg.Valid() && RelayInv(cfg, outbox, relay)
    requires RelayEnabled(cfg, outbox, relay, Write(r, p, j))
    ensures RelayInv(cfg, outbox, RelayApply(cfg, relay, Write(r, p, j)))
  {
    var relay' := RelayApply(cfg, relay, Write(r, p, j));
    WriteGrowsLogs(cfg, relay, r, p, j);
    WriteKeepsBatches(cfg, outbox, relay, r, p, j);
    forall id | id in outbox && outbox[id].sentAt.Some?
      ensures MessageOf(outbox[id]) in relay'.logs[HomeOf(cfg, outbox[id])]
    {
      InGrownLog(relay.logs, relay'.logs, HomeOf(cfg, outbox[id]), MessageOf(outbox[id]));
    }
    forall q, i | 0 <= q < |relay'.logs| && 0 <= i < |relay'.logs[q]|
      ensures FromOutbox(cfg, outbox, q, relay'.logs[q][i])
    {
      WriteKeepsOrigin(cfg, outbox, relay, r, p, j, q, i);
    }
    forall a, b | a in relay'.batches && b in relay'.batches && a != b
      ensures Separate(relay'.batches[a], relay'.batches[b])
    {
      assert Separate(relay.batches[a], relay.batches[b]);
    }
  }

  lemma ReleaseKeepsRelay(cfg: Config, outbox: map<Uuid, OutboxRow>, relay: Relay, r: nat)
    requires cfg.Valid() && RelayInv(cfg, outbox, relay) && r in relay.batches
    ensures RelayInv(cfg, outbox, RelayApply(cfg, relay, Release(r)))
  {
    var relay' := RelayApply(cfg, relay, Release(r));
    assert forall q :: q in relay.batches ==> BatchOk(cfg, outbox, relay.logs, relay.batches[q]);
    forall a, b | a in relay'.batches && b in relay'.batches && a != b
      ensures Separate(relay'.batches[a], relay'.batches[b])
    {
      assert Separate(relay.batches[a], relay.batches[b]);
    }
  }

  // Marking the batch sent: its rows are all logged, and no other open batch holds any of them.
  lemma FinishKeepsRelay(cfg: Config, outbox: map<Uuid, OutboxRow>, relay: Relay, r: nat, at: Time)
    requires cfg.Valid() && RelayInv(cfg, outbox, relay)
    requires RelayEnabled(cfg, outbox, relay, Finish(r))
    ensures RelayInv(cfg, MarkedSent(outbox, Ids(relay.batches[r].rows), at), RelayApply(cfg, relay, Finish(r)))
  {
    var rows := relay.batches[r].rows;
    var outbox', relay' := MarkedSent(outbox, Ids(rows), at), RelayApply(cfg, relay, Finish(r));
    assert BatchOk(cfg, outbox, relay.logs, relay.batches[r]);
    forall q | q in relay'.batches
      ensures BatchOk(cfg, outbox', relay'.logs, relay'.batches[q])
    {
      assert BatchOk(cfg, outbox, relay.logs, relay.batches[q]);
      assert q != r ==> Separate(relay.batches[q], relay.batches[r]);
      assert forall i :: 0 <= i < |relay.batches[q].rows| ==> relay.batches[q].rows[i].id in Ids(relay.batches[q].rows);
    }
    forall a, b | a in relay'.batches && b in relay'.batches && a != b
      ensures Separate(relay'.batches[a], relay'.batches[b])
    {
      assert Separate(relay.batches[a], relay.batches[b]);
    }
    forall p, i | 0 <= p < |relay.logs| && 0 <= i < |relay.logs[p]|
      ensures FromOutbox(cfg, outbox', p, relay.logs[p][i])
    {
      assert FromOutbox(cfg, outbox, p, relay.logs[p][i]);
      var id :| id in outbox && HomeOf(cfg, outbox[id]) == p && MessageOf(outbox[id]) == relay.logs[p][i];
      assert id in outbox' && HomeOf(cfg, outbox'[id]) == p && MessageOf(outbox'[id]) == relay.logs[p][i];
    }
    forall id | id in outbox' && outbox'[id].sentAt.Some?
      ensures MessageOf(outbox'[id]) in relay.logs[HomeOf(cfg, outbox'[id])]
    {
      if id in Ids(rows) {
        var i :| 0 <= i < |rows| && rows[i].id == id;
        assert CapturedFrom(outbox, rows[i]);
      }
    }
  }

  // ---------- order ----------

  lemma EventInGrownLog(log: seq<Message>, log': seq<Message>, b: Uuid, ty: EventType)
    requires log <= log' && HasEvent(log, b, ty)
    ensures HasEvent(log', b, ty)
  {
    var i :| 0 <= i < |log| && IsEventOf(log[i].value, b, ty);
    assert log'[i] == log[i];
  }

  lemma LoggedEvent(log: seq<Message>, m: Message, b: Uuid, ty: EventType)
    requires m in log && IsEventOf(m.value, b, ty)
    ensures HasEvent(log, b, ty)
  {
    var i :| 0 <= i < |log| && log[i] == m;
  }

  // A cancelled row appended from a causal batch finds its creation before it.
  lemma AppendedIsCausal(cfg: Config, logs: seq<seq<Message>>, rows: seq<OutboxRow>, p: nat, n: nat)
    requires cfg.Valid() && |logs| == cfg.partitions && p < |logs|
    requires forall i :: 0 <= i < |rows| ==> CausalInBatch(cfg, logs, rows, i)
    requires n < |Share(cfg, rows, p)|
    ensures CausalAt(logs[p] + Share(cfg, rows, p), |logs[p]| + n)
  {
    var share := Share(cfg, rows, p);
    var log := logs[p] + share;
    var before := log[..|logs[p]| + n];
    var i := ShareOrigin(cfg, rows, p, n);
    assert log[|logs[p]| + n] == share[n] == MessageOf(rows[i]);
    if rows[i].payload.Json? && rows[i].payload.event.eventType.BookingCancelled? {
      var b := rows[i].payload.event.bookingId;
      assert CausalInBatch(cfg, logs, rows, i);
      if HasEvent(logs[p], b, BookingCreated) {
        EventInGrownLog(logs[p], before, b, BookingCreated);
      } else {
        var k :| 0 <= k < i && IsEventOf(rows[k].payload, b, BookingCreated);
        assert HomeOf(cfg, rows[k]) == p;
        assert before == logs[p] + share[..n];
        LoggedEvent(before, MessageOf(rows[k]), b, BookingCreated);
      }
    }
  }

  lemma WriteKeepsCausal(cfg: Config, relay: Relay, r: nat, p: nat, j: nat)
    requires cfg.Valid() && CausalInv(cfg, relay)
    requires r in relay.batches && p < |relay.logs| && j <= |relay.batches[r].rows|
    ensures CausalInv(cfg, RelayApply(cfg, relay, Write(r, p, j)))
  {
    var relay' := RelayApply(cfg, relay, Write(r, p, j));
    var rows, log, log' := relay.batches[r].rows[..j], relay.logs[p], relay'.logs[p];
    forall i | 0 <= i < |rows|
      ensures CausalInBatch(cfg, relay.logs, rows, i)
    {
      assert CausalInBatch(cfg, relay.logs, relay.batches[r].rows, i);
      assert forall k :: 0 <= k < i ==> rows[k] == relay.batches[r].rows[k];
    }
    forall n | 0 <= n < |log'|
      ensures CausalAt(log', n)
    {
      if n < |log| {
        assert CausalAt(log, n) && log'[..n] == log[..n];
      } else {
        AppendedIsCausal(cfg, relay.logs, rows, p, n - |log|);
      }
    }
    WriteGrowsLogs(cfg, relay, r, p, j);
    forall q, i | q in relay'.batches && 0 <= i < |relay'.batches[q].rows|
      ensures CausalInBatch(cfg, relay'.logs, relay'.batches[q].rows, i)
    {
      CausalInBatchGrows(cfg, relay.logs, relay'.logs, relay.batches[q].rows, i);
    }
  }

  lemma CausalInBatchGrows(cfg: Config, logs: seq<seq<Message>>, logs': seq<seq<Message>>, rows: seq<OutboxRow>, i: nat)
    requires cfg.Valid() && |logs| == cfg.partitions && i < |rows|
    requires LogsGrow(logs, logs') && CausalInBatch(cfg, logs, rows, i)
    ensures CausalInBatch(cfg, logs', rows, i)
  {
    var home := HomeOf(cfg, rows[i]);
    if rows[i].payload.Json? && HasEvent(logs[home], rows[i].payload.event.bookingId, BookingCreated) {
      EventInGrownLog(logs[home], logs'[home], rows[i].payload.event.bookingId, BookingCreated);
    }
  }

  // Every cancelled row has a created row with an earlier time, as the database guarantees.
  ghost predicate CreatedFirst(outbox: map<Uuid, OutboxRow>) {
    forall c :: c in outbox && outbox[c].payload.Json? && outbox[c].payload.event.eventType.BookingCancelled? ==>
      CreatedBefore(outbox, outbox[c].payload.event.bookingId, outbox[c].createdAt)
  }

  ghost predicate CreatedBefore(outbox: map<Uuid, OutboxRow>, b: Uuid, at: Time) {
    exists id :: id in outbox && IsEventOf(outbox[id].payload, b, BookingCreated) && outbox[id].createdAt < at
  }

  // Whatever became visible out of `created_at` order, a safe select picks the creation first or it is logged.
  lemma SafeSelectKeepsCausal(cfg: Config, outbox: map<Uuid, OutboxRow>, relay: Relay, r: nat, rows: seq<OutboxRow>)
    requires cfg.Valid() && RelayInv(cfg, outbox, relay) && CausalInv(cfg, relay) && CreatedFirst(outbox)
    requires RelayEnabled(cfg, outbox, relay, Select(r, rows)) && SafeSelect(cfg, outbox, relay, rows)
    ensures CausalInv(cfg, RelayApply(cfg, relay, Select(r, rows)))
  {
    forall i | 0 <= i < |rows|
      ensures CausalInBatch(cfg, relay.logs, rows, i)
    {
      SelectedIsCausal(cfg, outbox, relay, rows, i);
    }
  }

  lemma SelectedIsCausal(cfg: Config, outbox: map<Uuid, OutboxRow>, relay: Relay, rows: seq<OutboxRow>, i: nat)
    requires cfg.Valid() && RelayInv(cfg, outbox, relay) && CreatedFirst(outbox)
    requires IsOldest(outbox, relay.batches, rows) && SafeSelect(cfg, outbox, relay, rows) && i < |rows|
    ensures CausalInBatch(cfg, relay.logs, rows, i)
  {
    var row := rows[i];
    assert !Offends(cfg, outbox, relay, row);
    if row.payload.Json? && row.payload.event.eventType.BookingCancelled? {
      var b := row.payload.event.bookingId;
      assert row.id in outbox && CreatedBefore(outbox, b, row.createdAt);
      var id :| id in outbox && IsEventOf(outbox[id].payload, b, BookingCreated)
                && outbox[id].createdAt < row.createdAt;
      if Locked(relay.batches, id) {
        assert CreationLocked(outbox, relay.batches, b);
      } else if outbox[id].sentAt.Some? {
        LoggedEvent(relay.logs[HomeOf(cfg, outbox[id])], MessageOf(outbox[id]), b, BookingCreated);
      } else {
        assert Pending(outbox, relay.batches, id);
        assert id in Ids(rows);
        var k :| 0 <= k < |rows| && rows[k].id == id;
        assert k < i;
      }
    }
  }

  // With no other transaction open, every select is safe: a single relay keeps the order.
  lemma LoneSelectIsSafe(cfg: Config, outbox: map<Uuid, OutboxRow>, relay: Relay, rows: seq<OutboxRow>)
    requires cfg.Valid() && |relay.logs| == cfg.partitions
    requires forall r :: r in relay.batches ==> !relay.batches[r].open
    ensures SafeSelect(cfg, outbox, relay, rows)
  {
  }

  // The locked creation is not in the batch either: there is only one such row.
  lemma OffenderHasNoCreation(cfg: Config, outbox: map<Uuid, OutboxRow>, relay: Relay, rows: seq<OutboxRow>,
                              i: nat, k: nat)
    requires cfg.Valid() && |relay.logs| == cfg.partitions && i < |rows| && k < |rows|
    requires IsOldest(outbox, relay.batches, rows) && Offends(cfg, outbox, relay, rows[i])
    requires forall r, q :: r in outbox && q in outbox && r != q ==> !Repeats(outbox[r], outbox[q])
    ensures !IsEventOf(rows[k].payload, rows[i].payload.event.bookingId, BookingCreated)
  {
    var b := rows[i].payload.event.bookingId;
    var id :| id in outbox && IsEventOf(outbox[id].payload, b, BookingCreated) && Locked(relay.batches, id);
    assert Pending(outbox, relay.batches, rows[k].id);
    assert rows[k].id != id && !Repeats(outbox[rows[k].id], outbox[id]);
  }

  // The exact condition: order is kept by a select if and only if the select is safe.
  lemma SelectKeepsOrderIff(cfg: Config, outbox: map<Uuid, OutboxRow>, relay: Relay, r: nat, rows: seq<OutboxRow>)
    requires cfg.Valid() && RelayInv(cfg, outbox, relay) && CausalInv(cfg, relay) && CreatedFirst(outbox)
    requires forall a, c :: a in outbox && c in outbox && a != c ==> !Repeats(outbox[a], outbox[c])
    requires RelayEnabled(cfg, outbox, relay, Select(r, rows))
    ensures CausalInv(cfg, RelayApply(cfg, relay, Select(r, rows))) <==> SafeSelect(cfg, outbox, relay, rows)
  {
    if SafeSelect(cfg, outbox, relay, rows) {
      SafeSelectKeepsCausal(cfg, outbox, relay, r, rows);
    } else {
      var i :| 0 <= i < |rows| && Offends(cfg, outbox, relay, rows[i]);
      forall k | 0 <= k < |rows|
        ensures !IsEventOf(rows[k].payload, rows[i].payload.event.bookingId, BookingCreated)
      {
        OffenderHasNoCreation(cfg, outbox, relay, rows, i, k);
      }
      var relay' := RelayApply(cfg, relay, Select(r, rows));
      assert !CausalInBatch(cfg, relay'.logs, relay'.batches[r].rows, i);
    }
  }

  // And when it is not safe, the very next write logs a cancellation before its creation.
  lemma UnsafeSelectBreaksOrder(cfg: Config, outbox: map<Uuid, OutboxRow>, relay: Relay, r: nat,
                                rows: seq<OutboxRow>, i: nat)
    requires cfg.Valid() && RelayInv(cfg, outbox, relay) && RelayEnabled(cfg, outbox, relay, Select(r, rows))
    requires forall a, c :: a in outbox && c in outbox && a != c ==> !Repeats(outbox[a], outbox[c])
    requires i < |rows| && Offends(cfg, outbox, relay, rows[i])
    ensures var selected := RelayApply(cfg, relay, Select(r, rows));
            var p := HomeOf(cfg, rows[i]);
            && RelayEnabled(cfg, outbox, selected, Write(r, p, |rows|))
            && !CausalLog(RelayApply(cfg, selected, Write(r, p, |rows|)).logs[p])
  {
    assert rows[..|rows|] == rows;
    forall k | 0 <= k < |rows|
      ensures !IsEventOf(rows[k].payload, rows[i].payload.event.bookingId, BookingCreated)
    {
      OffenderHasNoCreation(cfg, outbox, relay, rows, i, k);
    }
    AppendingBreaksOrder(cfg, relay.logs[HomeOf(cfg, rows[i])], rows, i);
  }

  lemma AppendingBreaksOrder(cfg: Config, log: seq<Message>, rows: seq<OutboxRow>, i: nat)
    requires cfg.Valid() && i < |rows|
    requires rows[i].payload.Json? && rows[i].payload.event.eventType.BookingCancelled?
    requires !HasEvent(log, rows[i].payload.event.bookingId, BookingCreated)
    requires forall k :: 0 <= k < |rows| ==>
               !IsEventOf(rows[k].payload, rows[i].payload.event.bookingId, BookingCreated)
    ensures !CausalLog(log + Share(cfg, rows, HomeOf(cfg, rows[i])))
  {
    var p, b := HomeOf(cfg, rows[i]), rows[i].payload.event.bookingId;
    var share := Share(cfg, rows, p);
    ShareContains(cfg, rows, p, i);
    var n :| 0 <= n < |share| && share[n] == MessageOf(rows[i]);
    var log', at := log + share, |log| + n;
    forall k | 0 <= k < at
      ensures !IsEventOf(log'[..at][k].value, b, BookingCreated)
    {
      if k >= |log| {
        var o := ShareOrigin(cfg, rows, p, k - |log|);
      }
    }
    assert !CausalAt(log', at);
  }

  // A partition's share is exactly the payloads of the rows whose booking hashes to it, in the order of the rows and
  // once each; `places` says which row each comes from.
  lemma {:induction false} ShareExactly(cfg: Config, rows: seq<OutboxRow>, p: nat) returns (places: seq<nat>)
    requires cfg.Valid()
    ensures |places| == |Share(cfg, rows, p)| && Ascending(places)
    ensures forall k :: 0 <= k < |places| ==>
              places[k] < |rows| && Share(cfg, rows, p)[k].value == rows[places[k]].payload
    ensures forall i :: 0 <= i < |rows| && rows[i].payload.Json? ==>
              (i in places <==> cfg.hash(Some(rows[i].payload.event.bookingId)) % cfg.partitions == p)
    decreases |rows|
  {
    if rows == [] {
      places := [];
    } else {
      var last := |rows| - 1;
      places := ShareExactly(cfg, rows[..last], p);
      assert last !in places;
      assert forall i :: 0 <= i < last ==> rows[..last][i] == rows[i];
      if HomeOf(cfg, rows[last]) == p {
        places := places + [last];
      }
    }
  }
}
