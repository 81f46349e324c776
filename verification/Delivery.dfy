/**
 The notification service: the notifications table and the consumer that reads the partition logs.
 `position` is where the reader fetches next, `committed` what survives a crash.
 */
module Delivery {
  import opened Domain
  import opened RelayLog

  type Key = (Uuid, NotifType)

  // What the consumer loop is doing between two of its calls.
  datatype Worker =
    | Idle
    | Fetched(p: nat, off: nat)
    | Stored(p: nat, off: nat, n: Notification)
    | Finished(p: nat, off: nat)

  // `skipped` and `broadcasts` are histories; `taken`, `consumed` and `errors` count within one process.
  datatype Sink = Sink(
    committed: seq<nat>,
    position: seq<nat>,
    worker: Worker,
    notifs: map<Key, Notification>,
    skipped: set<Key>,
    broadcasts: seq<Notification>,
    taken: nat,
    consumed: nat,
    errors: nat)

  datatype SinkStep =
    | Fetch(p: nat)
    | Process(reply: Reply, id: Uuid, now: Time)
    | Broadcast
    | CommitOffset
    | CommitFails
    | Crash
    | Rebalance
    | MarkAsRead(id: Uuid, user: Uuid)
    | MarkAllAsRead(user: Uuid)

  function KindOf(ty: EventType): Option<NotifType> {
    match ty
    case BookingCreated => Some(NotifCreated)
    case BookingCancelled => Some(NotifCancelled)
    case OtherEvent(_) => None
  }

  function KeyOf(e: Event, kind: NotifType): Key {
    (e.bookingId, kind)
  }

  function NotificationOf(e: Event, kind: NotifType, id: Uuid, now: Time): Notification {
    Notification(id, e.userId, kind, e.bookingId, e.roomName, e.slotStart, e.slotEnd, false, now)
  }

  predicate IdUnused(notifs: map<Key, Notification>, id: Uuid) {
    forall k :: k in notifs ==> notifs[k].id != id
  }

  // INSERT ... ON CONFLICT (booking_id, type) DO NOTHING, or an error when the database or a CHECK refuses, or
  // when the row goes in but nobody hears of it.
  datatype InsertResult = Inserted | Conflict | Refused | InsertedUnheard

  function InsertOutcome(notifs: map<Key, Notification>, reply: Reply, n: Notification): InsertResult {
    if reply.Failed? || n.slotEnd <= n.slotStart then Refused
    else if (n.bookingId, n.kind) in notifs then if reply.Answered? then Conflict else Refused
    else if reply.Answered? then Inserted
    else InsertedUnheard
  }

  // The row is in whether or not anybody hears of it.
  function TableAfter(notifs: map<Key, Notification>, reply: Reply, n: Notification): map<Key, Notification> {
    var outcome := InsertOutcome(notifs, reply, n);
    if outcome.Inserted? || outcome.InsertedUnheard? then notifs[(n.bookingId, n.kind) := n] else notifs
  }

  // `CreateFromEvent` up to the broadcast, and the branches of the loop around it.
  function AfterMessage(s: Sink, p: nat, off: nat, value: Payload, reply: Reply, id: Uuid, now: Time): Sink {
    if value.Malformed? then s.(worker := Finished(p, off), errors := s.errors + 1)
    else if KindOf(value.event.eventType).None? then s.(worker := Finished(p, off), consumed := s.consumed + 1)
    else
      var kind := KindOf(value.event.eventType).value;
      var n := NotificationOf(value.event, kind, id, now);
      var key := KeyOf(value.event, kind);
      match InsertOutcome(s.notifs, reply, n)
      case Refused => s.(worker := Finished(p, off), errors := s.errors + 1, skipped := s.skipped + {key})
      case Conflict => s.(worker := Finished(p, off), consumed := s.consumed + 1)
      case Inserted => s.(worker := Stored(p, off, n), notifs := s.notifs[key := n])
      case InsertedUnheard =>
        s.(worker := Finished(p, off), errors := s.errors + 1, skipped := s.skipped + {key},
           notifs := s.notifs[key := n])
  }

  // The rows an UPDATE ... SET is_read = true matches.
  predicate Matches(n: Notification, id: Option<Uuid>, user: Uuid) {
    n.userId == user && (id.None? || n.id == id.value)
  }

  function Read(notifs: map<Key, Notification>, id: Option<Uuid>, user: Uuid): map<Key, Notification> {
    map k | k in notifs :: if Matches(notifs[k], id, user) then notifs[k].(isRead := true) else notifs[k]
  }

  predicate SinkEnabled(logs: seq<seq<Message>>, s: Sink, step: SinkStep) {
    match step
    case Fetch(p) => s.worker.Idle? && p < |logs| && p < |s.position| && s.position[p] < |logs[p]|
    case Process(reply, id, now) =>
      s.worker.Fetched? && s.worker.p < |logs| && s.worker.off < |logs[s.worker.p]| && IdUnused(s.notifs, id)
    case Broadcast => s.worker.Stored?
    case CommitOffset => s.worker.Finished? && s.worker.p < |s.committed|
    case CommitFails => s.worker.Finished?
    case Crash => true
    case Rebalance => true
    case MarkAsRead(id, user) => true
    case MarkAllAsRead(user) => true
  }

  function SinkApply(logs: seq<seq<Message>>, s: Sink, step: SinkStep): Sink
    requires SinkEnabled(logs, s, step)
  {
    match step
    case Fetch(p) =>
      s.(worker := Fetched(p, s.position[p]), position := s.position[p := s.position[p] + 1], taken := s.taken + 1)
    case Process(reply, id, now) =>
      var Fetched(p, off) := s.worker;
      AfterMessage(s, p, off, logs[p][off].value, reply, id, now)
    case Broadcast =>
      s.(worker := Finished(s.worker.p, s.worker.off), broadcasts := s.broadcasts + [s.worker.n],
         consumed := s.consumed + 1)
    case CommitOffset =>
      s.(worker := Idle, committed := s.committed[s.worker.p := s.worker.off + 1])
    // Run returns the error and is started again on the same reader, which goes on from its position.
    case CommitFails => s.(worker := Idle)
    // A new process resumes at the committed offsets with fresh counters.
    case Crash => s.(worker := Idle, position := s.committed, taken := 0, consumed := 0, errors := 0)
    // The group hands the partitions out again: the reader starts over at the committed offsets, while the loop
    // goes on with the message it has in hand.
    case Rebalance => s.(position := s.committed)
    case MarkAsRead(id, user) => s.(notifs := Read(s.notifs, Some(id), user))
    case MarkAllAsRead(user) => s.(notifs := Read(s.notifs, None, user))
  }

  // A new consumer group: nothing read, nothing stored.
  function InitSink(partitions: nat): Sink {
    Sink(seq(partitions, _ => 0), seq(partitions, _ => 0), Idle, map[], {}, [], 0, 0, 0)
  }

  // ---------- the invariant ----------

  // The message left its trace: a notification row, or a recorded skip.
  predicate Handled(s: Sink, value: Payload) {
    value.Json? && KindOf(value.event.eventType).Some? ==>
      Settled(s, KeyOf(value.event, KindOf(value.event.eventType).value))
  }

  predicate Settled(s: Sink, key: Key) {
    key in s.notifs || key in s.skipped
  }

  // Offsets and the message in hand are inside the logs.
  predicate OffsetsOk(logs: seq<seq<Message>>, s: Sink) {
    && |s.committed| == |s.position| == |logs|
    && (forall p :: 0 <= p < |logs| ==> s.committed[p] <= |logs[p]| && s.position[p] <= |logs[p]|)
    && (!s.worker.Idle? ==> s.worker.p < |logs| && s.worker.off < |logs[s.worker.p]|)
  }

  // Message `i` of partition `p` is below the committed offset, or the reader or the loop has passed it; the message
  // just fetched is not passed yet.
  predicate Passed(s: Sink, p: nat, i: nat)
    requires p < |s.committed| == |s.position|
  {
    || i < s.committed[p]
    || (i < s.position[p] && s.worker != Fetched(p, i))
    || (!s.worker.Idle? && s.worker.p == p && (i < s.worker.off || (i == s.worker.off && !s.worker.Fetched?)))
  }

  predicate PassedIsHandled(logs: seq<seq<Message>>, s: Sink)
    requires OffsetsOk(logs, s)
  {
    forall p, i :: 0 <= p < |logs| && 0 <= i < |logs[p]| && Passed(s, p, i) ==> Handled(s, logs[p][i].value)
  }

  // The reader is past the committed offsets, and the message in hand is the last one it fetched.
  predicate Forward(s: Sink) {
    && |s.committed| == |s.position|
    && (forall p :: 0 <= p < |s.committed| ==> s.committed[p] <= s.position[p])
    && (!s.worker.Idle? && s.worker.p < |s.committed| ==>
          s.committed[s.worker.p] <= s.worker.off && s.position[s.worker.p] == s.worker.off + 1)
  }

  ghost predicate TableOk(s: Sink) {
    && (forall k :: k in s.notifs ==> (s.notifs[k].bookingId, s.notifs[k].kind) == k)
    && (forall k, l :: k in s.notifs && l in s.notifs && k != l ==> s.notifs[k].id != s.notifs[l].id)
  }

  // What was broadcast is the stored row, up to its read mark.
  ghost predicate IsRowOf(s: Sink, n: Notification) {
    && (n.bookingId, n.kind) in s.notifs
    && n == s.notifs[(n.bookingId, n.kind)].(isRead := false)
  }

  predicate SameKey(n: Notification, m: Notification) {
    n.bookingId == m.bookingId && n.kind == m.kind
  }

  ghost predicate BroadcastsOk(s: Sink) {
    && (forall i :: 0 <= i < |s.broadcasts| ==> IsRowOf(s, s.broadcasts[i]))
    && (forall i, j :: 0 <= i < j < |s.broadcasts| ==> !SameKey(s.broadcasts[i], s.broadcasts[j]))
    && (s.worker.Stored? ==> IsRowOf(s, s.worker.n)
                             && forall i :: 0 <= i < |s.broadcasts| ==> !SameKey(s.broadcasts[i], s.worker.n))
  }

  predicate CountersOk(s: Sink) {
    s.taken == s.consumed + s.errors + if s.worker.Fetched? || s.worker.Stored? then 1 else 0
  }

  ghost predicate SinkInv(logs: seq<seq<Message>>, s: Sink) {
    OffsetsOk(logs, s) && PassedIsHandled(logs, s) && TableOk(s) && BroadcastsOk(s) && CountersOk(s)
  }

  // A cancelled notification implies the created one, or a recorded skip of it.
  predicate CausalTable(s: Sink) {
    forall k :: k in s.notifs && k.1.NotifCancelled? ==> Settled(s, (k.0, NotifCreated))
  }

  // ---------- what is never undone ----------

  predicate RowKept(n: Notification, n': Notification) {
    n' == n.(isRead := n'.isRead) && (n.isRead ==> n'.isRead)
  }

  predicate NotifsEvolve(notifs: map<Key, Notification>, notifs': map<Key, Notification>) {
    forall k :: k in notifs ==> k in notifs' && RowKept(notifs[k], notifs'[k])
  }

  predicate SinkEvolves(s: Sink, s': Sink) {
    && NotifsEvolve(s.notifs, s'.notifs)
    && s.skipped <= s'.skipped
    && s.broadcasts <= s'.broadcasts
    && |s.committed| == |s'.committed|
  }
}
