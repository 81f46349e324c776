/** `ProcessBatch`, the polling loop and the drain loop of the outbox relay, with anyone's steps in between. */
module RelayWorker {
  import opened Domain
  import opened BookingDb
  import opened Database
  import opened RelayLog
  import opened RelayLogProofs
  import opened Pipeline
  import opened PipelineTheorems
  import opened Clusters

  // Where a ProcessBatch call fails; a failed write still gets `cuts[p]` rows' worth to partition `p`.
  // `CommitUnheard` is a COMMIT that takes effect although the relay gets an error.
  datatype BatchFault = BatchDone | FetchFails | WriteFails(cuts: seq<nat>) | MarkFails | CommitUnheard

  function UnsentIds(outbox: map<Uuid, OutboxRow>): set<Uuid> {
    set id | id in outbox && outbox[id].sentAt.None?
  }

  function UnsentCount(s: State): nat {
    |UnsentIds(s.db.outbox)|
  }

  predicate NobodyElse(s: State) {
    forall r :: r in s.relay.batches ==> !s.relay.batches[r].open
  }

  // How many full or partial batches `n` rows make.
  function BatchesFor(n: nat): nat {
    (n + FETCH_BATCH_SIZE - 1) / FETCH_BATCH_SIZE
  }

  function AtMost(n: nat, m: nat): nat {
    if n < m then n else m
  }

  lemma {:induction false} DistinctIdsCount(rows: seq<OutboxRow>)
    requires forall i, j :: 0 <= i < j < |rows| ==> rows[i].id != rows[j].id
    ensures |Ids(rows)| == |rows|
    decreases |rows|
  {
    if rows != [] {
      var init, last := rows[..|rows| - 1], rows[|rows| - 1];
      DistinctIdsCount(init);
      assert Ids(rows) == Ids(init) + {last.id} by {
        forall id
          ensures id in Ids(rows) <==> id in Ids(init) + {last.id}
        {
          if id in Ids(init) {
            var i :| 0 <= i < |init| && init[i].id == id;
            assert rows[i].id == id;
          }
          if id == last.id { assert rows[|rows| - 1].id == id; }
          if id in Ids(rows) {
            var i :| 0 <= i < |rows| && rows[i].id == id;
            assert i < |init| ==> init[i].id == id;
          }
        }
      }
      assert last.id !in Ids(init);
    }
  }

  // A select takes 100 pending rows, or all of them when there are fewer.
  lemma OldestCount(outbox: map<Uuid, OutboxRow>, batches: map<nat, Batch>, rows: seq<OutboxRow>, pending: set<Uuid>)
    requires IsOldest(outbox, batches, rows)
    requires forall id :: id in pending <==> id in outbox && Pending(outbox, batches, id)
    ensures Ids(rows) <= pending && |rows| == if |pending| < 100 then |pending| else 100
    ensures |pending - Ids(rows)| == |pending| - |rows|
  {
    DistinctIdsCount(rows);
    assert Ids(rows) <= pending;
    assert |pending - Ids(rows)| == |pending| - |Ids(rows)|;
    if |rows| < FETCH_BATCH_SIZE {
      assert pending <= Ids(rows);
    }
  }

  // ---------- one ProcessBatch call ----------

  method Oldest(outbox: map<Uuid, OutboxRow>, ids: set<Uuid>) returns (first: Uuid)
    requires ids != {} && forall id :: id in ids ==> id in outbox
    ensures first in ids && forall id :: id in ids ==> outbox[first].createdAt <= outbox[id].createdAt
  {
    first :| first in ids;
    var rest := ids - {first};
    while rest != {}
      invariant rest <= ids && first in ids
      invariant forall id :: id in ids && id !in rest ==> outbox[first].createdAt <= outbox[id].createdAt
      decreases rest
    {
      var id :| id in rest;
      if outbox[id].createdAt < outbox[first].createdAt {
        first := id;
      }
      rest := rest - {id};
    }
  }

  // The SELECT hands out pending rows, oldest first; the loop scans them into records.
  method FetchPending(outbox: map<Uuid, OutboxRow>, batches: map<nat, Batch>) returns (records: seq<OutboxRow>)
    requires forall id :: id in outbox ==> outbox[id].id == id
    ensures IsOldest(outbox, batches, records)
  {
    records := [];
    var rest := set id | id in outbox && Pending(outbox, batches, id);
    while rest != {} && |records| < FETCH_BATCH_SIZE
      invariant |records| <= FETCH_BATCH_SIZE
      invariant forall id :: id in rest ==> id in outbox && Pending(outbox, batches, id)
      invariant forall id :: id in outbox && Pending(outbox, batches, id) ==> id in rest || id in Ids(records)
      invariant forall i :: 0 <= i < |records| ==>
                  Pending(outbox, batches, records[i].id) && records[i] == outbox[records[i].id]
                  && records[i].id !in rest
      invariant forall i, id :: 0 <= i < |records| && id in rest ==> records[i].createdAt <= outbox[id].createdAt
      invariant forall i, j :: 0 <= i < j < |records| ==>
                  records[i].id != records[j].id && records[i].createdAt <= records[j].createdAt
      decreases rest
    {
      var next := Oldest(outbox, rest);
      ghost var before := records;
      records := records + [outbox[next]];
      rest := rest - {next};
      assert forall id :: id in Ids(before) ==> id in Ids(records) by {
        forall id | id in Ids(before)
          ensures id in Ids(records)
        {
          var i :| 0 <= i < |before| && before[i].id == id;
          assert records[i].id == id;
        }
      }
      assert records[|records| - 1].id == next;
    }
  }

  // The value is the payload as stored, the key the booking it names.
  ghost predicate CarriesPayload(m: Message, row: OutboxRow) {
    && m.value == row.payload
    && m.key == if row.payload.Json? then Some(row.payload.event.bookingId) else None
  }

  // The closure of `processBatch`: one keyed message per record.
  method BuildMessages(records: seq<OutboxRow>) returns (msgs: seq<Message>)
    ensures |msgs| == |records| && forall i :: 0 <= i < |msgs| ==> msgs[i] == MessageOf(records[i])
    ensures forall i :: 0 <= i < |msgs| ==> CarriesPayload(msgs[i], records[i])
  {
    msgs := [];
    for i := 0 to |records|
      invariant |msgs| == i && forall k :: 0 <= k < i ==> msgs[k] == MessageOf(records[k])
    {
      var key := BookingIdFromPayload(records[i].payload);
      msgs := msgs + [Message(key, records[i].payload)];
    }
  }

  // The balancer deals the messages out by key hash; every partition gets its share in order.
  method Distribute(cfg: Config, msgs: seq<Message>, ghost records: seq<OutboxRow>) returns (parts: seq<seq<Message>>)
    requires cfg.Valid() && |msgs| == |records| && forall i :: 0 <= i < |msgs| ==> msgs[i] == MessageOf(records[i])
    ensures |parts| == cfg.partitions && forall p :: 0 <= p < |parts| ==> parts[p] == Share(cfg, records, p)
  {
    parts := seq(cfg.partitions, _ => []);
    for i := 0 to |msgs|
      invariant |parts| == cfg.partitions
      invariant forall p :: 0 <= p < |parts| ==> parts[p] == Share(cfg, records[..i], p)
    {
      var p := PartitionOf(cfg, msgs[i].key);
      parts := parts[p := parts[p] + [msgs[i]]];
      assert records[..i + 1][..i] == records[..i];
    }
    assert records[..|msgs|] == records;
  }

  // The ids handed to UPDATE outbox ... WHERE id = ANY(...), filled by index.
  method RecordIds(records: seq<OutboxRow>) returns (ids: set<Uuid>)
    ensures ids == Ids(records)
  {
    var column := new Uuid[|records|];
    for i := 0 to |records|
      invariant forall k :: 0 <= k < i ==> column[k] == records[k].id
    {
      column[i] := records[i].id;
    }
    ids := set i | 0 <= i < |records| :: column[i];
  }

  // What is written once partitions below `n` have had their turn and nobody else has done anything.
  ghost predicate WrittenTo(cfg: Config, s: State, s': State, r: nat, cuts: seq<nat>, n: nat)
    requires cfg.Valid() && r in s.relay.batches
  {
    && s' == s.(relay := s'.relay) && |s'.relay.logs| == |s.relay.logs| == |cuts|
    && (forall p :: 0 <= p < |cuts| ==> cuts[p] <= |s.relay.batches[r].rows|)
    && r in s'.relay.batches && s'.relay.batches == s.relay.batches[r := s'.relay.batches[r]]
    && s'.relay.batches[r] == s.relay.batches[r].(written := s'.relay.batches[r].written)
    && (forall p :: 0 <= p < |cuts| ==>
          s'.relay.logs[p] == s.relay.logs[p]
                              + if p < n then Share(cfg, s.relay.batches[r].rows[..cuts[p]], p) else [])
  }

  lemma WriteExtends(cfg: Config, s0: State, s: State, r: nat, cuts: seq<nat>, p: nat)
    requires cfg.Valid() && r in s0.relay.batches && WrittenTo(cfg, s0, s, r, cuts, p) && p < |cuts|
    requires CanStep(cfg, s, OnRelay(Write(r, p, cuts[p])))
    ensures WrittenTo(cfg, s0, Next(cfg, s, OnRelay(Write(r, p, cuts[p]))), r, cuts, p + 1)
  {
  }

  lemma LogCount(cfg: Config, s: State)
    requires cfg.Valid() && ReachableState(cfg, s)
    ensures |s.relay.logs| == cfg.partitions
  {
    ReachableInv(cfg, s);
  }

  // WriteMessages writes each partition's share, or on failure a prefix of it.
  method WriteMessages(c: Cluster, r: nat, cuts: seq<nat>, ghost alone: bool)
    requires c.Valid() && r in c.s.relay.batches && |cuts| == c.cfg.partitions
    requires forall p :: 0 <= p < |cuts| ==> cuts[p] <= |c.s.relay.batches[r].rows|
    modifies c
    ensures c.Valid() && Ran(c.cfg, old(c.s), c.s, alone) && (r in c.finished <==> r in old(c.finished))
    ensures BatchKept(old(c.s.relay.batches), c.s.relay.batches, r)
    ensures forall p :: 0 <= p < |cuts| && cuts[p] == |c.s.relay.batches[r].rows| ==> p in c.s.relay.batches[r].written
    ensures alone ==> WrittenTo(c.cfg, old(c.s), c.s, r, cuts, |cuts|)
  {
    ghost var s0 := c.s;
    LogCount(c.cfg, s0);
    RanNothing(c.cfg, s0, alone);
    for p := 0 to c.cfg.partitions
      invariant c.Valid() && Ran(c.cfg, s0, c.s, alone) && (r in c.finished <==> r in old(c.finished))
      invariant BatchKept(s0.relay.batches, c.s.relay.batches, r)
      invariant forall q :: 0 <= q < p && cuts[q] == |s0.relay.batches[r].rows| ==> q in c.s.relay.batches[r].written
      invariant alone ==> WrittenTo(c.cfg, s0, c.s, r, cuts, p)
    {
      WriteOne(c, r, p, cuts[p], s0, cuts, alone);
    }
  }

  // One partition's turn, and what the others do next.
  method WriteOne(c: Cluster, r: nat, p: nat, j: nat, ghost s0: State, ghost cuts: seq<nat>, ghost alone: bool)
    requires c.Valid() && r in s0.relay.batches && r in c.s.relay.batches && p < c.cfg.partitions
    requires j <= |c.s.relay.batches[r].rows| && Ran(c.cfg, s0, c.s, alone)
    requires alone ==> p < |cuts| && cuts[p] == j && WrittenTo(c.cfg, s0, c.s, r, cuts, p)
    modifies c
    ensures c.Valid() && Ran(c.cfg, s0, c.s, alone) && (r in c.finished <==> r in old(c.finished))
    ensures BatchKept(old(c.s.relay.batches), c.s.relay.batches, r)
    ensures j == |c.s.relay.batches[r].rows| ==> p in c.s.relay.batches[r].written
    ensures alone ==> WrittenTo(c.cfg, s0, c.s, r, cuts, p + 1)
  {
    ghost var before := c.s;
    LogCount(c.cfg, before);
    if alone {
      WriteExtends(c.cfg, s0, before, r, cuts, p);
    }
    StepKeepsBatch(c.cfg, before, OnRelay(Write(r, p, j)), r);
    c.Do(OnRelay(Write(r, p, j)));
    ghost var written := c.s;
    RanOn(c.cfg, s0, before, written, alone);
    c.Others(r, alone);
    RanOn(c.cfg, s0, written, c.s, alone);
  }

  // The batch `r` is over and nothing else about the batches changed.
  ghost predicate OnlyClosed(batches: map<nat, Batch>, batches': map<nat, Batch>, r: nat) {
    && r in batches' && !batches'[r].open
    && batches' == batches[r := batches'[r]]
  }

  // Everything selected is logged in order and marked; no other table, log entry or batch changes.
  ghost predicate Published(cfg: Config, s: State, s': State, r: nat, rows: seq<OutboxRow>)
    requires cfg.Valid()
  {
    && s'.db == s.db.(outbox := MarkedSent(s.db.outbox, Ids(rows), s.db.clock))
    && s'.sink == s.sink
    && |s'.relay.logs| == |s.relay.logs|
    && (forall p :: 0 <= p < |s.relay.logs| ==> s'.relay.logs[p] == s.relay.logs[p] + Share(cfg, rows, p))
    && OnlyClosed(s.relay.batches, s'.relay.batches, r)
  }

  // Rolled back: the tables are as they were, some prefixes may have reached the logs.
  ghost predicate RolledBack(cfg: Config, s: State, s': State, r: nat, rows: seq<OutboxRow>, cuts: seq<nat>)
    requires cfg.Valid()
  {
    && s'.db == s.db && s'.sink == s.sink
    && |s'.relay.logs| == |s.relay.logs| == |cuts|
    && (forall p :: 0 <= p < |cuts| ==> cuts[p] <= |rows|)
    && (forall p :: 0 <= p < |cuts| ==> s'.relay.logs[p] == s.relay.logs[p] + Share(cfg, rows[..cuts[p]], p))
    && OnlyClosed(s.relay.batches, s'.relay.batches, r)
  }

  // The batch is locked and written up to `cuts`, its transaction still open, and nobody else did anything.
  ghost predicate Written(cfg: Config, s: State, s': State, r: nat, rows: seq<OutboxRow>, cuts: seq<nat>)
    requires cfg.Valid()
  {
    && s'.db == s.db && s'.sink == s.sink
    && |s'.relay.logs| == |s.relay.logs| == |cuts|
    && (forall p :: 0 <= p < |cuts| ==> cuts[p] <= |rows|)
    && (forall p :: 0 <= p < |cuts| ==> s'.relay.logs[p] == s.relay.logs[p] + Share(cfg, rows[..cuts[p]], p))
    && r in s'.relay.batches && s'.relay.batches == s.relay.batches[r := s'.relay.batches[r]]
  }

  // The batch holds its rows, and every partition that was to get all of its share has got it.
  ghost predicate Holds(s: State, r: nat, rows: seq<OutboxRow>, cuts: seq<nat>) {
    && r in s.relay.batches && s.relay.batches[r].open && s.relay.batches[r].rows == rows
    && forall p :: 0 <= p < |cuts| && cuts[p] == |rows| ==> p in s.relay.batches[r].written
  }

  // The SELECT has locked the rows, and the others go on.
  method Lock(c: Cluster, r: nat, records: seq<OutboxRow>, ghost alone: bool)
    requires c.Valid() && r !in c.s.relay.batches && records != []
    requires IsOldest(c.s.db.outbox, c.s.relay.batches, records)
    modifies c
    ensures c.Valid() && Ran(c.cfg, old(c.s), c.s, alone) && (r in c.finished <==> r in old(c.finished))
    ensures r in c.s.relay.batches && c.s.relay.batches[r].open && c.s.relay.batches[r].rows == records
    ensures CanStep(c.cfg, old(c.s), OnRelay(Select(r, records)))
    ensures alone ==> c.s == Next(c.cfg, old(c.s), OnRelay(Select(r, records)))
  {
    ghost var s0 := c.s;
    c.Do(OnRelay(Select(r, records)));
    ghost var locked := c.s;
    c.Others(r, alone);
    RanOn(c.cfg, s0, locked, c.s, alone);
  }

  method LockAndWrite(c: Cluster, r: nat, records: seq<OutboxRow>, cuts: seq<nat>, ghost alone: bool)
    returns (published: nat)
    requires c.Valid() && r !in c.s.relay.batches && records != []
    requires IsOldest(c.s.db.outbox, c.s.relay.batches, records)
    requires |cuts| == c.cfg.partitions && forall p :: 0 <= p < |cuts| ==> cuts[p] <= |records|
    modifies c
    ensures c.Valid() && Ran(c.cfg, old(c.s), c.s, alone) && (r in c.finished <==> r in old(c.finished))
    ensures published == |records| && Holds(c.s, r, records, cuts)
    ensures alone ==> Written(c.cfg, old(c.s), c.s, r, records, cuts)
  {
    ghost var s0 := c.s;
    RowsKnowTheirIds(c.cfg, s0);
    Lock(c, r, records, alone);
    ghost var resumed := c.s;
    var msgs := BuildMessages(records);
    published := |msgs|;
    var parts := Distribute(c.cfg, msgs, records);
    assert records[..|records|] == records;
    assert forall p :: 0 <= p < |parts| && cuts[p] == |records| ==> Share(c.cfg, records[..cuts[p]], p) == parts[p];
    WriteMessages(c, r, cuts, alone);
    RanOn(c.cfg, s0, resumed, c.s, alone);
    if alone {
      LockedThenWritten(c.cfg, s0, resumed, c.s, r, records, cuts);
    }
  }

  lemma LockedThenWritten(cfg: Config, s: State, locked: State, s': State, r: nat, rows: seq<OutboxRow>,
                          cuts: seq<nat>)
    requires cfg.Valid() && CanStep(cfg, s, OnRelay(Select(r, rows)))
    requires locked == Next(cfg, s, OnRelay(Select(r, rows))) && WrittenTo(cfg, locked, s', r, cuts, |cuts|)
    ensures Written(cfg, s, s', r, rows, cuts)
  {
  }

  // tx.Rollback, and whatever the writer still had in its hands.
  method RollbackBatch(c: Cluster, r: nat)
    requires c.Valid() && r in c.s.relay.batches
    modifies c
    ensures c.Valid() && (forall alone :: Ran(c.cfg, old(c.s), c.s, alone)) && c.finished == old(c.finished)
    ensures c.s.db == old(c.s.db) && c.s.sink == old(c.s.sink) && c.s.relay.logs == old(c.s.relay.logs)
    ensures OnlyClosed(old(c.s.relay.batches), c.s.relay.batches, r)
  {
    c.Do(OnRelay(Release(r)));
  }

  // The one step that marks the batch: from `s` to `s'` its rows, and no others, go from unsent to sent.
  ghost predicate Marks(cfg: Config, s: State, s': State, r: nat, rows: seq<OutboxRow>)
    requires cfg.Valid()
  {
    && r in s.relay.batches && s.relay.batches[r].rows == rows
    && CanStep(cfg, s, OnRelay(Finish(r))) && s' == Next(cfg, s, OnRelay(Finish(r)))
    && Ids(rows) <= UnsentIds(s.db.outbox)
    && UnsentIds(s'.db.outbox) == UnsentIds(s.db.outbox) - Ids(rows)
    && UnsentCount(s') == UnsentCount(s) - |rows|
  }

  // Whoever else holds locks, finishing a batch lowers the number of unsent rows by its size.
  lemma FinishLowersUnsent(cfg: Config, s: State, r: nat, rows: seq<OutboxRow>)
    requires cfg.Valid() && RelayInv(cfg, s.db.outbox, s.relay) && CanStep(cfg, s, OnRelay(Finish(r)))
    requires s.relay.batches[r].rows == rows
    requires forall i, j :: 0 <= i < j < |rows| ==> rows[i].id != rows[j].id
    ensures Marks(cfg, s, Next(cfg, s, OnRelay(Finish(r))), r, rows)
  {
    assert BatchOk(cfg, s.db.outbox, s.relay.logs, s.relay.batches[r]);
    OpenBatchIsUnsent(cfg, s.db.outbox, s.relay.logs, s.relay.batches[r]);
    DistinctIdsCount(rows);
    var outbox' := MarkedSent(s.db.outbox, Ids(rows), s.db.clock);
    assert UnsentIds(outbox') == UnsentIds(s.db.outbox) - Ids(rows);
    assert Ids(rows) <= UnsentIds(s.db.outbox);
  }

  // Every record is marked and its payload is in the log its key hashes to.
  ghost predicate AllSent(cfg: Config, s: State, rows: seq<OutboxRow>)
    requires cfg.Valid()
  {
    && |s.relay.logs| == cfg.partitions
    && forall i :: 0 <= i < |rows| ==> IsSent(cfg, s, rows[i])
  }

  ghost predicate IsSent(cfg: Config, s: State, row: OutboxRow)
    requires cfg.Valid() && |s.relay.logs| == cfg.partitions
  {
    var key := if row.payload.Json? then Some(row.payload.event.bookingId) else None;
    && row.id in s.db.outbox && s.db.outbox[row.id].sentAt.Some?
    && Message(key, row.payload) in s.relay.logs[cfg.hash(key) % cfg.partitions]
  }

  lemma FinishedIsSent(cfg: Config, s: State, r: nat, rows: seq<OutboxRow>)
    requires cfg.Valid() && RelayInv(cfg, s.db.outbox, s.relay) && CanStep(cfg, s, OnRelay(Finish(r)))
    requires s.relay.batches[r].rows == rows
    ensures AllSent(cfg, Next(cfg, s, OnRelay(Finish(r))), rows)
  {
    assert BatchOk(cfg, s.db.outbox, s.relay.logs, s.relay.batches[r]);
    forall i | 0 <= i < |rows|
      ensures rows[i].id in s.db.outbox && rows[i].id in Ids(rows)
    {
      assert CapturedFrom(s.db.outbox, rows[i]);
    }
  }

  // UPDATE outbox SET sent_at, COMMIT.
  method MarkAndCommit(c: Cluster, r: nat, ids: set<Uuid>, ghost rows: seq<OutboxRow>)
    requires c.Valid() && r in c.s.relay.batches && c.s.relay.batches[r].open
    requires c.s.relay.batches[r].rows == rows && ids == Ids(rows)
    requires forall i, j :: 0 <= i < j < |rows| ==> rows[i].id != rows[j].id
    requires forall p :: 0 <= p < c.cfg.partitions ==> p in c.s.relay.batches[r].written
    modifies c
    ensures c.Valid() && (forall alone :: Ran(c.cfg, old(c.s), c.s, alone)) && c.finished == old(c.finished) + {r}
    ensures Marks(c.cfg, old(c.s), c.s, r, rows) && AllSent(c.cfg, c.s, rows)
  {
    MayFinish(c.cfg, c.s, r, rows);
    c.Do(OnRelay(Finish(r)));
  }

  lemma MayFinish(cfg: Config, s: State, r: nat, rows: seq<OutboxRow>)
    requires cfg.Valid() && ReachableState(cfg, s) && r in s.relay.batches && s.relay.batches[r].open
    requires s.relay.batches[r].rows == rows
    requires forall i, j :: 0 <= i < j < |rows| ==> rows[i].id != rows[j].id
    requires forall p :: 0 <= p < cfg.partitions ==> p in s.relay.batches[r].written
    ensures CanStep(cfg, s, OnRelay(Finish(r)))
    ensures Marks(cfg, s, Next(cfg, s, OnRelay(Finish(r))), r, rows)
    ensures AllSent(cfg, Next(cfg, s, OnRelay(Finish(r))), rows)
  {
    ReachableInv(cfg, s);
    FinishMarksStoredRows(cfg, s, r);
    FinishLowersUnsent(cfg, s, r, rows);
    FinishedIsSent(cfg, s, r, rows);
  }

  // A batch that goes through; `mid` is the state its COMMIT found.
  method PublishBatch(c: Cluster, r: nat, records: seq<OutboxRow>, ghost alone: bool)
    returns (published: nat, ghost mid: State)
    requires c.Valid() && r !in c.s.relay.batches && records != []
    requires IsOldest(c.s.db.outbox, c.s.relay.batches, records)
    modifies c
    ensures c.Valid() && Ran(c.cfg, old(c.s), mid, alone) && Ran(c.cfg, mid, c.s, alone) && r in c.finished
    ensures published == |records| && Marks(c.cfg, mid, c.s, r, records) && AllSent(c.cfg, c.s, records)
    ensures alone ==> Published(c.cfg, old(c.s), c.s, r, records)
    ensures alone ==> mid.db == old(c.s.db)
  {
    ghost var s0 := c.s;
    var whole := seq(c.cfg.partitions, _ => |records|);
    published := LockAndWrite(c, r, records, whole, alone);
    mid := c.s;
    var ids := RecordIds(records);
    AllAreWritten(c.cfg, c.s, r, records, whole);
    MarkAndCommit(c, r, ids, records);
    if alone {
      WrittenThenMarked(c.cfg, s0, mid, c.s, r, records, whole);
    }
  }

  lemma AllAreWritten(cfg: Config, s: State, r: nat, rows: seq<OutboxRow>, cuts: seq<nat>)
    requires Holds(s, r, rows, cuts) && |cuts| == cfg.partitions
    requires forall p :: 0 <= p < |cuts| ==> cuts[p] == |rows|
    ensures forall p :: 0 <= p < cfg.partitions ==> p in s.relay.batches[r].written
  {
  }

  lemma WrittenThenMarked(cfg: Config, s: State, mid: State, s': State, r: nat, rows: seq<OutboxRow>, cuts: seq<nat>)
    requires cfg.Valid() && Written(cfg, s, mid, r, rows, cuts) && r !in s.relay.batches
    requires forall p :: 0 <= p < |cuts| ==> cuts[p] == |rows|
    requires r in mid.relay.batches && mid.relay.batches[r].rows == rows
    requires CanStep(cfg, mid, OnRelay(Finish(r))) && s' == Next(cfg, mid, OnRelay(Finish(r)))
    ensures Published(cfg, s, s', r, rows)
  {
    assert rows[..|rows|] == rows;
  }

  // A batch that fails after its prefixes were written: nothing is marked, the lock is gone.
  method AbortBatch(c: Cluster, r: nat, records: seq<OutboxRow>, cuts: seq<nat>, ghost alone: bool)
    requires c.Valid() && r !in c.s.relay.batches && records != []
    requires IsOldest(c.s.db.outbox, c.s.relay.batches, records)
    requires |cuts| == c.cfg.partitions && forall p :: 0 <= p < |cuts| ==> cuts[p] <= |records|
    modifies c
    ensures c.Valid() && Ran(c.cfg, old(c.s), c.s, alone) && (r in c.finished <==> r in old(c.finished))
    ensures r in c.s.relay.batches && !c.s.relay.batches[r].open
    ensures alone ==> RolledBack(c.cfg, old(c.s), c.s, r, records, cuts)
  {
    ghost var s0 := c.s;
    var published := LockAndWrite(c, r, records, cuts, alone);
    ghost var mid := c.s;
    RollbackBatch(c, r);
    RanOn(c.cfg, s0, mid, c.s, alone);
  }

  // How far each partition got: everywhere everything unless WriteMessages failed.
  function CutsOf(cfg: Config, fault: BatchFault, n: nat): (cuts: seq<nat>)
    ensures |cuts| == cfg.partitions && forall p :: 0 <= p < |cuts| ==> cuts[p] <= n
  {
    seq(cfg.partitions, p requires 0 <= p =>
      if fault.WriteFails? && p < |fault.cuts| then AtMost(fault.cuts[p], n) else n)
  }

  lemma RowsKnowTheirIds(cfg: Config, s: State)
    requires cfg.Valid() && ReachableState(cfg, s)
    ensures |s.relay.logs| == cfg.partitions
    ensures forall id :: id in s.db.outbox ==> s.db.outbox[id].id == id
  {
    ReachableInv(cfg, s);
  }

  predicate Commits(fault: BatchFault, records: seq<OutboxRow>) {
    (fault.BatchDone? || fault.CommitUnheard?) && records != []
  }

  /**
   `processBatch`, whatever everybody else does between its statements: `records` is what its SELECT returned,
   `mid` the state its COMMIT found. With nobody else around the whole outcome is fixed.
   */
  method ProcessBatch(c: Cluster, r: nat, fault: BatchFault, ghost alone: bool)
    returns (published: nat, ghost records: seq<OutboxRow>, ghost mid: State)
    requires c.Valid() && r !in c.s.relay.batches
    modifies c
    ensures c.Valid() && IsOldest(old(c.s.db.outbox), old(c.s.relay.batches), records)
    ensures Ran(c.cfg, old(c.s), mid, alone) && Ran(c.cfg, mid, c.s, alone)
    ensures published == if fault.BatchDone? then |records| else 0
    ensures r in c.finished <==> r in old(c.finished) || Commits(fault, records)
    ensures Commits(fault, records) ==> Marks(c.cfg, mid, c.s, r, records) && AllSent(c.cfg, c.s, records)
    ensures r in c.s.relay.batches ==> !c.s.relay.batches[r].open
    ensures fault.FetchFails? || records == [] ==> c.s == old(c.s)
    ensures alone && Commits(fault, records) ==>
              mid.db == old(c.s.db) && Published(c.cfg, old(c.s), c.s, r, records)
    ensures alone && (fault.WriteFails? || fault.MarkFails?) && records != [] ==>
              RolledBack(c.cfg, old(c.s), c.s, r, records, CutsOf(c.cfg, fault, |records|))
  {
    ghost var s0 := c.s;
    RanNothing(c.cfg, s0, alone);
    RowsKnowTheirIds(c.cfg, s0);
    var rows := FetchPending(c.s.db.outbox, c.s.relay.batches);
    records, mid := rows, c.s;
    if fault.FetchFails? || |rows| == 0 {
      return 0, rows, mid;
    }
    if fault.BatchDone? || fault.CommitUnheard? {
      published, mid := PublishBatch(c, r, rows, alone);
      published := if fault.BatchDone? then published else 0;
    } else {
      AbortBatch(c, r, rows, CutsOf(c.cfg, fault, |rows|), alone);
      published := 0;
    }
  }

  // ---------- the loops ----------

  function PendingIds(s: State): set<Uuid> {
    set id | id in s.db.outbox && Pending(s.db.outbox, s.relay.batches, id)
  }

  // One call of a loop: the states it found, committed in and left, and what it reported.
  datatype Call = Call(before: State, mid: State, after: State, published: nat)

  // It published at most 100 rows and lowered the unsent rows by as many in the one step of its COMMIT;
  // it reported none only after a failure, or when no unlocked unsent row was left.
  ghost predicate CallOk(cfg: Config, call: Call, fault: BatchFault, alone: bool)
    requires cfg.Valid()
  {
    && Ran(cfg, call.before, call.mid, alone) && Ran(cfg, call.mid, call.after, alone)
    && call.published <= 100
    && (call.published > 0 ==>
          fault.BatchDone? && UnsentCount(call.after) == UnsentCount(call.mid) - call.published)
    && (call.published == 0 && fault.BatchDone? ==> PendingIds(call.before) == {})
    && (call.published == 0 && fault.BatchDone? ==> call.after == call.before)
  }

  lemma NothingSelected(s: State, rows: seq<OutboxRow>)
    requires IsOldest(s.db.outbox, s.relay.batches, rows) && rows == []
    ensures PendingIds(s) == {}
  {
    assert Ids(rows) == {};
  }

  lemma OldestFew(s: State, rows: seq<OutboxRow>)
    requires IsOldest(s.db.outbox, s.relay.batches, rows)
    ensures |rows| == AtMost(|PendingIds(s)|, FETCH_BATCH_SIZE)
  {
    OldestCount(s.db.outbox, s.relay.batches, rows, PendingIds(s));
  }

  // Only outbox marks, logs and batches differ, and open transactions are as before.
  ghost predicate OnlyRelayed(s: State, s': State) {
    s'.sink == s.sink && s'.db == s.db.(outbox := s'.db.outbox) && (NobodyElse(s) ==> NobodyElse(s'))
  }

  lemma PublishedAlone(cfg: Config, s: State, s': State, r: nat, rows: seq<OutboxRow>)
    requires cfg.Valid() && Published(cfg, s, s', r, rows)
    ensures OnlyRelayed(s, s')
  {
  }

  lemma RolledBackAlone(cfg: Config, s: State, s': State, r: nat, rows: seq<OutboxRow>, cuts: seq<nat>)
    requires cfg.Valid() && RolledBack(cfg, s, s', r, rows, cuts)
    ensures OnlyRelayed(s, s') && s'.db == s.db
  {
  }

  // How many rows a call takes from unsent to sent when nobody else is there, whoever holds locks.
  function Taken(s: State, fault: BatchFault): nat {
    if fault.BatchDone? || fault.CommitUnheard? then AtMost(|PendingIds(s)|, FETCH_BATCH_SIZE) else 0
  }

  method OneCall(c: Cluster, fault: BatchFault, ghost alone: bool) returns (published: nat, ghost call: Call)
    requires c.Valid()
    modifies c
    ensures c.Valid() && CallOk(c.cfg, call, fault, alone)
    ensures call.before == old(c.s) && call.after == c.s && call.published == published
    ensures alone ==> OnlyRelayed(old(c.s), c.s) && UnsentCount(c.s) == UnsentCount(old(c.s)) - Taken(old(c.s), fault)
    ensures alone ==> published == if fault.BatchDone? then Taken(old(c.s), fault) else 0
  {
    ghost var s0 := c.s;
    var r := AboveAll(c.s.relay.batches.Keys);
    ghost var rows, mid;
    published, rows, mid := ProcessBatch(c, r, fault, alone);
    call := Call(s0, mid, c.s, published);
    OldestFew(s0, rows);
    if rows == [] {
      NothingSelected(s0, rows);
    } else if alone && Commits(fault, rows) {
      PublishedAlone(c.cfg, s0, c.s, r, rows);
    } else if alone && !fault.FetchFails? {
      RolledBackAlone(c.cfg, s0, c.s, r, rows, CutsOf(c.cfg, fault, |rows|));
    }
  }

  // Where a loop is after these calls.
  function StateAfter(s0: State, log: seq<Call>): State {
    if log == [] then s0 else log[|log| - 1].after
  }

  // With nobody in between, a call starts where the last one ended and lowers the unsent rows, whoever holds locks.
  ghost predicate Undisturbed(left: State, call: Call, fault: BatchFault) {
    && call.before == left && OnlyRelayed(left, call.after)
    && UnsentCount(call.after) == UnsentCount(left) - Taken(left, fault)
    && call.published == if fault.BatchDone? then Taken(left, fault) else 0
  }

  // Call `i` of a loop, after anything in between, or nothing.
  ghost predicate CallAt(cfg: Config, s0: State, faults: seq<BatchFault>, log: seq<Call>, i: nat, alone: bool)
    requires cfg.Valid() && i < |log| <= |faults|
  {
    && Ran(cfg, StateAfter(s0, log[..i]), log[i].before, alone)
    && CallOk(cfg, log[i], faults[i], alone)
    && (alone ==> Undisturbed(StateAfter(s0, log[..i]), log[i], faults[i]))
  }

  ghost predicate CallsOk(cfg: Config, s0: State, faults: seq<BatchFault>, log: seq<Call>, alone: bool)
    requires cfg.Valid() && |log| <= |faults|
  {
    forall i :: 0 <= i < |log| ==> CallAt(cfg, s0, faults, log, i, alone)
  }

  lemma CallStays(cfg: Config, s0: State, faults: seq<BatchFault>, log: seq<Call>, log': seq<Call>, i: nat, alone: bool)
    requires cfg.Valid() && i < |log| <= |faults| && i < |log'| <= |faults| && log[..i + 1] == log'[..i + 1]
    requires CallAt(cfg, s0, faults, log, i, alone)
    ensures CallAt(cfg, s0, faults, log', i, alone)
  {
    assert log[i] == log[..i + 1][i] && log'[i] == log'[..i + 1][i];
    assert log[..i] == log[..i + 1][..i] && log'[..i] == log'[..i + 1][..i];
  }

  lemma LogExtends(cfg: Config, s0: State, faults: seq<BatchFault>, log: seq<Call>, call: Call, alone: bool)
    requires cfg.Valid() && |log| < |faults| && CallsOk(cfg, s0, faults, log, alone)
    requires Ran(cfg, StateAfter(s0, log), call.before, alone) && CallOk(cfg, call, faults[|log|], alone)
    requires alone ==> Undisturbed(StateAfter(s0, log), call, faults[|log|])
    ensures CallsOk(cfg, s0, faults, log + [call], alone)
  {
    var log' := log + [call];
    forall i | 0 <= i < |log'|
      ensures CallAt(cfg, s0, faults, log', i, alone)
    {
      if i < |log| {
        assert log'[..i + 1] == log[..i + 1];
        CallStays(cfg, s0, faults, log, log', i, alone);
      } else {
        assert log'[..i] == log;
      }
    }
  }

  lemma PrefixOk(cfg: Config, s0: State, faults: seq<BatchFault>, log: seq<Call>, n: nat, alone: bool)
    requires cfg.Valid() && n <= |log| <= |faults| && CallsOk(cfg, s0, faults, log, alone)
    ensures CallsOk(cfg, s0, faults, log[..n], alone)
  {
    forall i | 0 <= i < n
      ensures CallAt(cfg, s0, faults, log[..n], i, alone)
    {
      assert log[..n][..i + 1] == log[..i + 1];
      CallStays(cfg, s0, faults, log, log[..n], i, alone);
    }
  }

  // All the calls together are one run.
  lemma {:induction false} CallsRan(cfg: Config, s0: State, faults: seq<BatchFault>, log: seq<Call>, alone: bool)
    requires cfg.Valid() && |log| <= |faults| && CallsOk(cfg, s0, faults, log, alone)
    ensures Ran(cfg, s0, StateAfter(s0, log), alone)
    decreases |log|
  {
    if log == [] {
      RanNothing(cfg, s0, alone);
    } else {
      var n := |log| - 1;
      PrefixOk(cfg, s0, faults, log, n, alone);
      CallsRan(cfg, s0, faults, log[..n], alone);
      assert CallAt(cfg, s0, faults, log, n, alone);
      var call := log[n];
      RanOn(cfg, s0, StateAfter(s0, log[..n]), call.before, alone);
      RanOn(cfg, s0, call.before, call.mid, alone);
      RanOn(cfg, s0, call.mid, call.after, alone);
    }
  }

  // ---------- how long the drain takes ----------

  // The rows left after `k` undisturbed batches.
  function Left(n: nat, k: nat): nat {
    if n < k * FETCH_BATCH_SIZE then 0 else n - k * FETCH_BATCH_SIZE
  }

  lemma OneMoreBatch(n: nat, k: nat)
    requires k <= BatchesFor(n)
    ensures Left(n, k) - AtMost(Left(n, k), FETCH_BATCH_SIZE) == Left(n, k + 1)
    ensures AtMost(Left(n, k), FETCH_BATCH_SIZE) == 0 <==> k == BatchesFor(n)
    ensures Left(n, k) == 0 <==> k == BatchesFor(n)
  {
  }

  // The state of the loop after `calls` calls that all went through, with `k` batches marked.
  ghost predicate Draining(s0: State, s: State, faults: seq<BatchFault>, calls: nat, k: nat) {
    && OnlyRelayed(s0, s) && NobodyElse(s)
    && calls <= |faults| && calls <= BatchesFor(UnsentCount(s0)) + 1
    && (forall i :: 0 <= i < calls ==> faults[i].BatchDone?)
    && UnsentCount(s) == Left(UnsentCount(s0), k)
  }

  // Either every call went through, or the last one failed and undid nothing of the others.
  // The loop ends before its time exactly on a call that finds nothing or fails.
  ghost predicate DrainResult(s0: State, s: State, faults: seq<BatchFault>, calls: nat) {
    && calls <= |faults|
    && (Draining(s0, s, faults, calls, calls)
        || (calls > 0 && !faults[calls - 1].BatchDone?
            && Draining(s0, s, faults, calls - 1, if faults[calls - 1].CommitUnheard? then calls else calls - 1)))
    && ((forall i :: 0 <= i < calls ==> faults[i].BatchDone?) && calls < |faults| ==>
          calls == (UnsentCount(s0) + 99) / 100 + 1 && UnsentIds(s.db.outbox) == {})
  }

  lemma AllArePending(s: State)
    requires NobodyElse(s)
    ensures PendingIds(s) == UnsentIds(s.db.outbox)
  {
  }

  lemma DrainStep(s0: State, s: State, s': State, faults: seq<BatchFault>, calls: nat, published: nat)
    requires calls < |faults| && calls <= BatchesFor(UnsentCount(s0)) && Draining(s0, s, faults, calls, calls)
    requires OnlyRelayed(s, s') && UnsentCount(s') == UnsentCount(s) - Taken(s, faults[calls])
    requires published == if faults[calls].BatchDone? then Taken(s, faults[calls]) else 0
    ensures published > 0 ==> calls + 1 <= BatchesFor(UnsentCount(s0)) && Draining(s0, s', faults, calls + 1, calls + 1)
    ensures published == 0 ==> DrainResult(s0, s', faults, calls + 1)
  {
    AllArePending(s);
    OneMoreBatch(UnsentCount(s0), calls);
  }

  lemma {:induction false} DrainingSoFar(cfg: Config, s0: State, faults: seq<BatchFault>, log: seq<Call>)
    requires cfg.Valid() && NobodyElse(s0) && |log| <= |faults| && CallsOk(cfg, s0, faults, log, true)
    requires forall i :: 0 <= i < |log| ==> log[i].published > 0
    ensures |log| <= BatchesFor(UnsentCount(s0)) && Draining(s0, StateAfter(s0, log), faults, |log|, |log|)
    decreases |log|
  {
    if log != [] {
      var n := |log| - 1;
      PrefixOk(cfg, s0, faults, log, n, true);
      assert CallAt(cfg, s0, faults, log, n, true);
      DrainingSoFar(cfg, s0, faults, log[..n]);
      DrainStep(s0, log[n].before, log[n].after, faults, n, log[n].published);
    }
  }

  // With no new commits and no other relay, `Drain` makes one call more than there are batches and leaves
  // nothing unsent, unless a call fails or time runs out.
  lemma DrainAlone(cfg: Config, s0: State, faults: seq<BatchFault>, log: seq<Call>)
    requires cfg.Valid() && NobodyElse(s0) && |log| <= |faults| && CallsOk(cfg, s0, faults, log, true)
    requires forall i :: 0 <= i < |log| - 1 ==> log[i].published > 0
    requires |log| < |faults| ==> log != [] && log[|log| - 1].published == 0
    ensures DrainResult(s0, StateAfter(s0, log), faults, |log|)
  {
    if log != [] && log[|log| - 1].published == 0 {
      var n := |log| - 1;
      PrefixOk(cfg, s0, faults, log, n, true);
      assert CallAt(cfg, s0, faults, log, n, true);
      DrainingSoFar(cfg, s0, faults, log[..n]);
      DrainStep(s0, log[n].before, log[n].after, faults, n, 0);
    } else {
      DrainingSoFar(cfg, s0, faults, log);
    }
  }

  /**
   The shutdown loop of `Run`: `faults` lists what happens to the calls the ten seconds leave room for.
   It stops exactly on a failure, when time runs out, or when no unlocked unsent row is left.
   */
  method Drain(c: Cluster, faults: seq<BatchFault>, ghost alone: bool) returns (calls: nat, ghost log: seq<Call>)
    requires c.Valid()
    modifies c
    ensures c.Valid() && calls == |log| <= |faults| && c.s == StateAfter(old(c.s), log)
    ensures CallsOk(c.cfg, old(c.s), faults, log, alone)
    ensures forall i :: 0 <= i < calls - 1 ==> log[i].published > 0
    ensures calls < |faults| ==> calls > 0 && log[calls - 1].published == 0
  {
    calls, log := 0, [];
    ghost var s0 := c.s;
    while calls < |faults|
      invariant calls == |log| <= |faults|
      invariant c.Valid() && c.s == StateAfter(s0, log) && CallsOk(c.cfg, s0, faults, log, alone)
      invariant forall i :: 0 <= i < calls ==> log[i].published > 0
    {
      var published; ghost var call;
      published, call := NextCall(c, faults, calls, s0, log, alone);
      calls, log := calls + 1, log + [call];
      if published == 0 {
        return;
      }
    }
  }

  // One turn of a loop.
  method NextCall(c: Cluster, faults: seq<BatchFault>, n: nat, ghost s0: State, ghost log: seq<Call>, ghost alone: bool)
    returns (published: nat, ghost call: Call)
    requires c.Valid() && n == |log| < |faults| && c.s == StateAfter(s0, log) && CallsOk(c.cfg, s0, faults, log, alone)
    modifies c
    ensures c.Valid() && c.s == call.after && call.published == published
    ensures CallsOk(c.cfg, s0, faults, log + [call], alone)
  {
    c.Anyone(alone);
    published, call := OneCall(c, faults[n], alone);
    LogExtends(c.cfg, s0, faults, log, call, alone);
  }

  /** `Run`: one call a tick until the context is cancelled, then the drain, anyone doing anything in between. */
  method Run(c: Cluster, ticks: seq<BatchFault>, faults: seq<BatchFault>)
    returns (ghost polls: seq<Call>, ghost drain: seq<Call>)
    requires c.Valid()
    modifies c
    ensures c.Valid() && |polls| == |ticks| && |drain| <= |faults|
    ensures CallsOk(c.cfg, old(c.s), ticks, polls, false)
    ensures CallsOk(c.cfg, StateAfter(old(c.s), polls), faults, drain, false)
    ensures c.s == StateAfter(StateAfter(old(c.s), polls), drain)
    ensures forall i :: 0 <= i < |drain| - 1 ==> drain[i].published > 0
    ensures |drain| < |faults| ==> drain != [] && drain[|drain| - 1].published == 0
  {
    polls := [];
    for i := 0 to |ticks|
      invariant c.Valid() && |polls| == i && c.s == StateAfter(old(c.s), polls)
      invariant CallsOk(c.cfg, old(c.s), ticks, polls, false)
    {
      var published; ghost var call;
      published, call := NextCall(c, ticks, i, old(c.s), polls, false);
      polls := polls + [call];
    }
    var calls;
    calls, drain := Drain(c, faults, false);
  }
}
