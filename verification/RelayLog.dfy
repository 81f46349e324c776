/**
 The outbox relays and the partition logs they append to. A batch is one ProcessBatch call: rows locked
 with FOR UPDATE SKIP LOCKED, the partitions its WriteMessages has completed, and whether its transaction is open.
 */
module RelayLog {
  import opened Domain
  import opened BookingDb

  const FETCH_BATCH_SIZE := 100

  // `hash` is the key hash of the Kafka balancer.
  datatype Config = Config(partitions: nat, hash: Option<Uuid> -> nat) {
    predicate Valid() { partitions > 0 }
  }

  datatype Message = Message(key: Option<Uuid>, value: Payload)

  datatype Batch = Batch(rows: seq<OutboxRow>, written: set<nat>, open: bool)

  datatype Relay = Relay(batches: map<nat, Batch>, logs: seq<seq<Message>>)

  // `Write` appends what partition `p` gets of the first `j` rows: any prefix of its share. A write may be
  // repeated, as the writer retries, and may still happen after the call has given up and rolled back.
  datatype RelayStep =
    | Select(r: nat, rows: seq<OutboxRow>)
    | Write(r: nat, p: nat, j: nat)
    | Finish(r: nat)
    | Release(r: nat)

  // `bookingIDFromPayload`; None is the empty key.
  function BookingIdFromPayload(p: Payload): Option<Uuid> {
    if p.Json? then Some(p.event.bookingId) else None
  }

  function PartitionOf(cfg: Config, key: Option<Uuid>): (p: nat)
    requires cfg.Valid()
    ensures p < cfg.partitions
  {
    cfg.hash(key) % cfg.partitions
  }

  function MessageOf(row: OutboxRow): Message {
    Message(BookingIdFromPayload(row.payload), row.payload)
  }

  function HomeOf(cfg: Config, row: OutboxRow): nat
    requires cfg.Valid()
  {
    PartitionOf(cfg, BookingIdFromPayload(row.payload))
  }

  // The messages of these rows that go to partition `p`, in order.
  function Share(cfg: Config, rows: seq<OutboxRow>, p: nat): seq<Message>
    requires cfg.Valid()
  {
    if rows == [] then []
    else
      var row := rows[|rows| - 1];
      Share(cfg, rows[..|rows| - 1], p) + if HomeOf(cfg, row) == p then [MessageOf(row)] else []
  }

  function Ids(rows: seq<OutboxRow>): set<Uuid> {
    set i | 0 <= i < |rows| :: rows[i].id
  }

  predicate Locked(batches: map<nat, Batch>, id: Uuid) {
    exists r :: r in batches && batches[r].open && id in Ids(batches[r].rows)
  }

  predicate Pending(outbox: map<Uuid, OutboxRow>, batches: map<nat, Batch>, id: Uuid) {
    id in outbox && outbox[id].sentAt.None? && !Locked(batches, id)
  }

  // SELECT ... WHERE sent_at IS NULL ORDER BY created_at LIMIT 100 FOR UPDATE SKIP LOCKED.
  predicate IsOldest(outbox: map<Uuid, OutboxRow>, batches: map<nat, Batch>, rows: seq<OutboxRow>) {
    && |rows| <= FETCH_BATCH_SIZE
    && (forall i :: 0 <= i < |rows| ==> Pending(outbox, batches, rows[i].id) && rows[i] == outbox[rows[i].id])
    && (forall i, j :: 0 <= i < j < |rows| ==> rows[i].id != rows[j].id && rows[i].createdAt <= rows[j].createdAt)
    && (forall id :: id in outbox && Pending(outbox, batches, id) && id !in Ids(rows) ==>
          |rows| == FETCH_BATCH_SIZE && forall i :: 0 <= i < |rows| ==> rows[i].createdAt <= outbox[id].createdAt)
  }

  predicate RelayEnabled(cfg: Config, outbox: map<Uuid, OutboxRow>, relay: Relay, step: RelayStep)
    requires cfg.Valid()
  {
    match step
    case Select(r, rows) => r !in relay.batches && rows != [] && IsOldest(outbox, relay.batches, rows)
    case Write(r, p, j) => r in relay.batches && p < |relay.logs| && j <= |relay.batches[r].rows|
    case Finish(r) =>
      && r in relay.batches && relay.batches[r].open
      && forall i :: 0 <= i < |relay.batches[r].rows| ==>
           HomeOf(cfg, relay.batches[r].rows[i]) in relay.batches[r].written
    case Release(r) => r in relay.batches
  }

  // The effect on batches and logs; `Finish` also marks the rows sent in the database.
  function RelayApply(cfg: Config, relay: Relay, step: RelayStep): Relay
    requires cfg.Valid()
    requires step.Write? ==> step.r in relay.batches && step.p < |relay.logs| && step.j <= |relay.batches[step.r].rows|
    requires step.Finish? || step.Release? ==> step.r in relay.batches
  {
    match step
    case Select(r, rows) => relay.(batches := relay.batches[r := Batch(rows, {}, true)])
    case Write(r, p, j) =>
      var b := relay.batches[r];
      relay.(logs := relay.logs[p := relay.logs[p] + Share(cfg, b.rows[..j], p)],
             batches := relay.batches[r := b.(written := if j == |b.rows| then b.written + {p} else b.written)])
    case Finish(r) => relay.(batches := relay.batches[r := relay.batches[r].(open := false)])
    case Release(r) => relay.(batches := relay.batches[r := relay.batches[r].(open := false)])
  }

  // ---------- the invariant ----------

  ghost predicate BatchOk(cfg: Config, outbox: map<Uuid, OutboxRow>, logs: seq<seq<Message>>, b: Batch)
    requires cfg.Valid() && |logs| == cfg.partitions
  {
    && (forall i :: 0 <= i < |b.rows| ==> CapturedFrom(outbox, b.rows[i]))
    && (b.open ==> forall i :: 0 <= i < |b.rows| ==> outbox[b.rows[i].id].sentAt.None?)
    && (forall i :: 0 <= i < |b.rows| && HomeOf(cfg, b.rows[i]) in b.written ==>
          MessageOf(b.rows[i]) in logs[HomeOf(cfg, b.rows[i])])
  }

  ghost predicate CapturedFrom(outbox: map<Uuid, OutboxRow>, row: OutboxRow) {
    row.id in outbox && outbox[row.id] == row.(sentAt := outbox[row.id].sentAt)
  }

  // Two open batches hold no row in common.
  ghost predicate Separate(b: Batch, c: Batch) {
    b.open && c.open ==> Ids(b.rows) !! Ids(c.rows)
  }

  ghost predicate FromOutbox(cfg: Config, outbox: map<Uuid, OutboxRow>, p: nat, m: Message)
    requires cfg.Valid()
  {
    exists id :: id in outbox && HomeOf(cfg, outbox[id]) == p && MessageOf(outbox[id]) == m
  }

  ghost predicate RelayInv(cfg: Config, outbox: map<Uuid, OutboxRow>, relay: Relay)
    requires cfg.Valid()
  {
    && |relay.logs| == cfg.partitions
    && (forall r :: r in relay.batches ==> BatchOk(cfg, outbox, relay.logs, relay.batches[r]))
    && (forall r, q :: r in relay.batches && q in relay.batches && r != q ==>
          Separate(relay.batches[r], relay.batches[q]))
    && (forall id :: id in outbox && outbox[id].sentAt.Some? ==>
          MessageOf(outbox[id]) in relay.logs[HomeOf(cfg, outbox[id])])
    && (forall p, i :: 0 <= p < |relay.logs| && 0 <= i < |relay.logs[p]| ==>
          FromOutbox(cfg, outbox, p, relay.logs[p][i]))
  }

  // ---------- order ----------

  predicate HasEvent(log: seq<Message>, b: Uuid, ty: EventType) {
    exists i :: 0 <= i < |log| && IsEventOf(log[i].value, b, ty)
  }

  // If the message is a cancellation, the creation of the same booking comes earlier in the log.
  predicate CausalAt(log: seq<Message>, n: nat)
    requires n < |log|
  {
    log[n].value.Json? && log[n].value.event.eventType.BookingCancelled? ==>
      HasEvent(log[..n], log[n].value.event.bookingId, BookingCreated)
  }

  predicate CausalLog(log: seq<Message>) {
    forall n :: 0 <= n < |log| ==> CausalAt(log, n)
  }

  // The creation comes earlier in the batch or is in the partition's log already.
  predicate CausalInBatch(cfg: Config, logs: seq<seq<Message>>, rows: seq<OutboxRow>, i: nat)
    requires cfg.Valid() && |logs| == cfg.partitions && i < |rows|
  {
    rows[i].payload.Json? && rows[i].payload.event.eventType.BookingCancelled? ==>
      var b := rows[i].payload.event.bookingId;
      (exists k :: 0 <= k < i && IsEventOf(rows[k].payload, b, BookingCreated))
      || HasEvent(logs[HomeOf(cfg, rows[i])], b, BookingCreated)
  }

  ghost predicate CausalInv(cfg: Config, relay: Relay)
    requires cfg.Valid()
  {
    && |relay.logs| == cfg.partitions
    && (forall p :: 0 <= p < |relay.logs| ==> CausalLog(relay.logs[p]))
    && (forall r, i :: r in relay.batches && 0 <= i < |relay.batches[r].rows| ==>
          CausalInBatch(cfg, relay.logs, relay.batches[r].rows, i))
  }

  // Another relay's open transaction holds the row announcing the creation of `b`.
  predicate CreationLocked(outbox: map<Uuid, OutboxRow>, batches: map<nat, Batch>, b: Uuid) {
    exists id :: id in outbox && IsEventOf(outbox[id].payload, b, BookingCreated) && Locked(batches, id)
  }

  // A cancelled row is picked while its created row is locked elsewhere and not yet in the log.
  predicate Offends(cfg: Config, outbox: map<Uuid, OutboxRow>, relay: Relay, row: OutboxRow)
    requires cfg.Valid() && |relay.logs| == cfg.partitions
  {
    && row.payload.Json? && row.payload.event.eventType.BookingCancelled?
    && CreationLocked(outbox, relay.batches, row.payload.event.bookingId)
    && !HasEvent(relay.logs[HomeOf(cfg, row)], row.payload.event.bookingId, BookingCreated)
  }

  predicate SafeSelect(cfg: Config, outbox: map<Uuid, OutboxRow>, relay: Relay, rows: seq<OutboxRow>)
    requires cfg.Valid() && |relay.logs| == cfg.partitions
  {
    forall i :: 0 <= i < |rows| ==> !Offends(cfg, outbox, relay, rows[i])
  }
}
