/**
 The booking service's PostgreSQL database as a state machine. Every step is one statement, one
 commit or one rollback; transactions in flight keep their uncommitted booking and outbox row to themselves.
 */
module BookingDb {
  import opened Domain
  import opened SlotCalendar

  datatype Op = CreateOp(slotId: Uuid, userId: Uuid) | CancelOp(bookingId: Uuid, userId: Uuid)

  // `change` is the uncommitted version of a booking. `announced` says that the INSERT ... SELECT into the
  // outbox has been executed, `row` what it inserted: nothing when the join found no slot or no room.
  datatype Tx = Tx(op: Op, begun: Time, change: Option<Booking>, announced: bool, row: Option<OutboxRow>) {
    predicate Inserts() { op.CreateOp? && change.Some? }
    predicate Updates() { op.CancelOp? && change.Some? }
  }

  datatype Db = Db(
    clock: Time,
    users: set<Uuid>,
    rooms: map<Uuid, string>,
    schedules: map<Uuid, Schedule>,
    slots: map<Uuid, Slot>,
    bookings: map<Uuid, Booking>,
    outbox: map<Uuid, OutboxRow>,
    txs: map<nat, Tx>)

  datatype DbStep =
    | AddUser(user: Uuid)
    | AddRoom(room: Uuid, name: string)
    | AddSchedule(roomId: Uuid, schedule: Schedule)
    | EnsureSlots(slots: seq<Slot>)
    | Begin(t: nat, op: Op)
    | InsertBooking(t: nat, id: Uuid)
    | UpdateBooking(t: nat)
    | InsertOutbox(t: nat, rowId: Uuid)
    | Commit(t: nat)
    | Rollback(t: nat)
    | SetLink(bookingId: Uuid, link: string)
    | MarkSent(ids: set<Uuid>)

  function EmptyDb(): Db {
    Db(0, {}, map[], map[], map[], map[], map[], map[])
  }

  // ---------- reading ----------

  predicate SlotStored(tab: map<Uuid, Slot>, room: Uuid, startAt: Time) {
    exists id :: id in tab && tab[id].roomId == room && tab[id].startAt == startAt
  }

  // A committed active booking holds the slot.
  predicate HeldByActive(db: Db, slot: Uuid) {
    exists b :: b in db.bookings && db.bookings[b].slotId == slot && db.bookings[b].status.Active?
  }

  // An uncommitted insert or cancel has an index entry for the slot.
  predicate HeldInFlight(db: Db, slot: Uuid) {
    exists t :: t in db.txs && db.txs[t].change.Some? && db.txs[t].change.value.slotId == slot
  }

  predicate RowLocked(db: Db, booking: Uuid) {
    exists t :: t in db.txs && db.txs[t].Updates() && db.txs[t].change.value.id == booking
  }

  predicate BeingInserted(db: Db, booking: Uuid) {
    exists t :: t in db.txs && db.txs[t].Inserts() && db.txs[t].change.value.id == booking
  }

  predicate BookingIdUnused(db: Db, id: Uuid) {
    && id !in db.bookings
    && !BeingInserted(db, id)
    && forall t :: t in db.txs && db.txs[t].op.CancelOp? ==> db.txs[t].op.bookingId != id
  }

  predicate RowIdUnused(db: Db, id: Uuid) {
    && id !in db.outbox
    && forall t :: t in db.txs && db.txs[t].row.Some? ==> db.txs[t].row.value.id != id
  }

  // The result of the INSERT in CreateBooking, from the partial unique index and the foreign keys.
  datatype InsertVerdict = Inserted | Waits | UniqueViolation | SlotMissing | UserMissing

  function VerdictOf(db: Db, slot: Uuid, user: Uuid): InsertVerdict {
    if HeldInFlight(db, slot) then Waits
    else if HeldByActive(db, slot) then UniqueViolation
    else if slot !in db.slots then SlotMissing
    else if user !in db.users then UserMissing
    else Inserted
  }

  // ---------- writing ----------

  // INSERT ... ON CONFLICT (room_id, start_at) DO NOTHING, row by row.
  function InsertAbsent(tab: map<Uuid, Slot>, xs: seq<Slot>): map<Uuid, Slot>
    decreases |xs|
  {
    if xs == [] then tab
    else if SlotStored(tab, xs[0].roomId, xs[0].startAt) then InsertAbsent(tab, xs[1..])
    else InsertAbsent(tab[xs[0].id := xs[0]], xs[1..])
  }

  // The slot and room of a booking are there to be joined.
  predicate Joinable(db: Db, b: Booking) {
    b.slotId in db.slots && db.slots[b.slotId].roomId in db.rooms
  }

  // The row the INSERT ... SELECT ... JOIN of both transactions produces.
  function RowFor(db: Db, rowId: Uuid, ty: EventType, b: Booking, at: Time): OutboxRow
    requires Joinable(db, b)
  {
    var s := db.slots[b.slotId];
    OutboxRow(rowId, ty,
              Json(Event(rowId, ty, at, b.id, b.userId, s.roomId, db.rooms[s.roomId], s.startAt, s.endAt)), at, None)
  }

  function TypeOf(op: Op): EventType {
    if op.CreateOp? then BookingCreated else BookingCancelled
  }

  // What the INSERT ... SELECT inserts.
  function Announcement(db: Db, rowId: Uuid, tx: Tx): Option<OutboxRow>
    requires tx.change.Some?
  {
    if Joinable(db, tx.change.value) then Some(RowFor(db, rowId, TypeOf(tx.op), tx.change.value, tx.begun)) else None
  }

  function Fresh(op: Op, at: Time): Tx {
    Tx(op, at, None, false, None)
  }

  predicate Enabled(db: Db, step: DbStep) {
    match step
    case AddUser(u) => true
    case AddRoom(r, name) => r !in db.rooms
    case AddSchedule(r, s) => r in db.rooms && r !in db.schedules && StorableSchedule(s)
    case EnsureSlots(xs) =>
      && (forall i :: 0 <= i < |xs| ==> xs[i].id !in db.slots && xs[i].roomId in db.schedules
                                        && IsWindow(db.schedules[xs[i].roomId], xs[i].startAt, xs[i].endAt))
      && (forall i, j :: 0 <= i < j < |xs| ==> xs[i].id != xs[j].id)
    case Begin(t, op) => t !in db.txs
    case InsertBooking(t, id) =>
      && t in db.txs && db.txs[t].op.CreateOp? && db.txs[t].change.None?
      && VerdictOf(db, db.txs[t].op.slotId, db.txs[t].op.userId).Inserted?
      && BookingIdUnused(db, id)
    case UpdateBooking(t) =>
      && t in db.txs && db.txs[t].op.CancelOp? && db.txs[t].change.None?
      && Cancellable(db, db.txs[t].op.bookingId, db.txs[t].op.userId)
      && !RowLocked(db, db.txs[t].op.bookingId)
    case InsertOutbox(t, rowId) =>
      t in db.txs && db.txs[t].change.Some? && !db.txs[t].announced && RowIdUnused(db, rowId)
    case Commit(t) => t in db.txs && db.txs[t].change.Some? && db.txs[t].announced
    case Rollback(t) => t in db.txs
    case SetLink(b, link) => b in db.bookings && !RowLocked(db, b)
    case MarkSent(ids) => ids <= db.outbox.Keys
  }

  // The WHERE clause of the cancelling UPDATE.
  predicate Cancellable(db: Db, id: Uuid, user: Uuid) {
    id in db.bookings && db.bookings[id].status.Active? && db.bookings[id].userId == user
  }

  function MarkedSent(outbox: map<Uuid, OutboxRow>, ids: set<Uuid>, at: Time): map<Uuid, OutboxRow> {
    map k | k in outbox :: if k in ids then outbox[k].(sentAt := Some(at)) else outbox[k]
  }

  function Apply(db: Db, step: DbStep): Db
    requires Enabled(db, step)
  {
    match step
    case AddUser(u) => db.(users := db.users + {u})
    case AddRoom(r, name) => db.(rooms := db.rooms[r := name])
    case AddSchedule(r, s) => db.(schedules := db.schedules[r := s])
    case EnsureSlots(xs) => db.(slots := InsertAbsent(db.slots, xs))
    case Begin(t, op) => db.(clock := db.clock + 1, txs := db.txs[t := Fresh(op, db.clock + 1)])
    case InsertBooking(t, id) =>
      var tx := db.txs[t];
      var b := Booking(id, tx.op.slotId, tx.op.userId, Active, None, tx.begun);
      db.(txs := db.txs[t := tx.(change := Some(b))])
    case UpdateBooking(t) =>
      var tx := db.txs[t];
      db.(txs := db.txs[t := tx.(change := Some(db.bookings[tx.op.bookingId].(status := Cancelled)))])
    case InsertOutbox(t, rowId) =>
      var tx := db.txs[t];
      db.(txs := db.txs[t := tx.(announced := true, row := Announcement(db, rowId, tx))])
    case Commit(t) =>
      var tx := db.txs[t];
      db.(bookings := db.bookings[tx.change.value.id := tx.change.value],
          outbox := if tx.row.Some? then db.outbox[tx.row.value.id := tx.row.value] else db.outbox,
          txs := db.txs - {t})
    case Rollback(t) => db.(txs := db.txs - {t})
    case SetLink(b, link) => db.(bookings := db.bookings[b := db.bookings[b].(link := Some(link))])
    case MarkSent(ids) => db.(outbox := MarkedSent(db.outbox, ids, db.clock))
  }

  // ---------- the invariant ----------

  ghost predicate SchedulesOk(rooms: map<Uuid, string>, schedules: map<Uuid, Schedule>) {
    forall r :: r in schedules ==> r in rooms && StorableSchedule(schedules[r])
  }

  ghost predicate SlotRowsOk(schedules: map<Uuid, Schedule>, slots: map<Uuid, Slot>) {
    && (forall i :: i in slots ==> slots[i].id == i && slots[i].roomId in schedules
                                   && IsWindow(schedules[slots[i].roomId], slots[i].startAt, slots[i].endAt))
    && (forall i, j | i in slots && j in slots && i != j ::
          slots[i].roomId != slots[j].roomId || slots[i].startAt != slots[j].startAt)
  }

  ghost predicate BookingsOk(db: Db) {
    forall b :: b in db.bookings ==>
      && db.bookings[b].id == b
      && db.bookings[b].slotId in db.slots
      && db.bookings[b].userId in db.users
      && db.bookings[b].createdAt <= db.clock
  }

  // What one transaction in flight may rely on, given the committed tables.
  ghost predicate TxOk(db: Db, tx: Tx) {
    && tx.begun <= db.clock
    && (tx.change.Some? ==> Joinable(db, tx.change.value))
    && (tx.announced <==> tx.row.Some?)
    && (tx.row.Some? ==> tx.change.Some? && tx.row.value.id !in db.outbox
                         && tx.row.value == RowFor(db, tx.row.value.id, TypeOf(tx.op), tx.change.value, tx.begun))
    && (tx.Inserts() ==>
          && tx.change.value.id !in db.bookings
          && tx.op.slotId in db.slots && tx.op.userId in db.users
          && tx.change.value == Booking(tx.change.value.id, tx.op.slotId, tx.op.userId, Active, None, tx.begun)
          && !HeldByActive(db, tx.op.slotId))
    && (tx.Updates() ==>
          && Cancellable(db, tx.op.bookingId, tx.op.userId)
          && tx.change.value == db.bookings[tx.op.bookingId].(status := Cancelled))
    && (tx.op.CancelOp? && tx.op.bookingId in db.bookings ==> db.bookings[tx.op.bookingId].createdAt < tx.begun)
  }

  // Two transactions in flight work on different bookings and rows and insert for different slots;
  // one that asks to cancel what the other is still inserting began later.
  predicate Apart(tx: Tx, ux: Tx) {
    && (tx.change.Some? && ux.change.Some? ==> tx.change.value.id != ux.change.value.id)
    && (tx.row.Some? && ux.row.Some? ==> tx.row.value.id != ux.row.value.id)
    && (tx.Inserts() && ux.Inserts() ==> tx.change.value.slotId != ux.change.value.slotId)
    && (tx.Inserts() && ux.op.CancelOp? && tx.change.value.id == ux.op.bookingId ==> tx.begun < ux.begun)
    && (ux.Inserts() && tx.op.CancelOp? && ux.change.value.id == tx.op.bookingId ==> ux.begun < tx.begun)
  }

  ghost predicate TxsOk(db: Db) {
    && (forall t :: t in db.txs ==> TxOk(db, db.txs[t]))
    && (forall t, u :: t in db.txs && u in db.txs && t != u ==> Apart(db.txs[t], db.txs[u]))
  }

  ghost predicate OneActivePerSlot(bookings: map<Uuid, Booking>) {
    forall a, b :: a in bookings && b in bookings && a != b ==> !Clash(bookings[a], bookings[b])
  }

  predicate Clash(a: Booking, b: Booking) {
    a.status.Active? && b.status.Active? && a.slotId == b.slotId
  }

  // The event tells the truth about the booking it names, its slot and its room.
  ghost predicate Describes(db: Db, e: Event) {
    && e.bookingId in db.bookings
    && var b := db.bookings[e.bookingId];
    && Joinable(db, b)
    && var s := db.slots[b.slotId];
    && e.userId == b.userId && e.roomId == s.roomId && e.roomName == db.rooms[s.roomId]
    && e.slotStart == s.startAt && e.slotEnd == s.endAt
  }

  ghost predicate RowOk(db: Db, row: OutboxRow) {
    && row.payload.Json?
    && var e := row.payload.event;
    && e.eventId == row.id && e.eventType == row.eventType && e.occurredAt == row.createdAt
    && Describes(db, e)
    && var b := db.bookings[e.bookingId];
    && ((row.eventType.BookingCreated? && row.createdAt == b.createdAt)
        || (row.eventType.BookingCancelled? && b.status.Cancelled? && b.createdAt < row.createdAt))
  }

  ghost predicate HasRow(outbox: map<Uuid, OutboxRow>, b: Uuid, ty: EventType) {
    exists r :: r in outbox && IsEventOf(outbox[r].payload, b, ty)
  }

  predicate Repeats(r: OutboxRow, q: OutboxRow) {
    && r.payload.Json? && q.payload.Json?
    && r.payload.event.bookingId == q.payload.event.bookingId && r.payload.event.eventType == q.payload.event.eventType
  }

  ghost predicate RowsOk(db: Db) {
    forall r :: r in db.outbox ==> db.outbox[r].id == r && RowOk(db, db.outbox[r])
  }

  // Exactly one created row per booking, exactly one cancelled row per cancelled booking.
  ghost predicate OutboxExact(outbox: map<Uuid, OutboxRow>, bookings: map<Uuid, Booking>) {
    && (forall r, q :: r in outbox && q in outbox && r != q ==> !Repeats(outbox[r], outbox[q]))
    && (forall b :: b in bookings ==> HasRow(outbox, b, BookingCreated))
    && (forall b :: b in bookings && bookings[b].status.Cancelled? ==> HasRow(outbox, b, BookingCancelled))
  }

  ghost predicate DbInv(db: Db) {
    && SchedulesOk(db.rooms, db.schedules) && SlotRowsOk(db.schedules, db.slots)
    && BookingsOk(db) && OneActivePerSlot(db.bookings)
    && RowsOk(db) && OutboxExact(db.outbox, db.bookings)
    && TxsOk(db)
  }

  // ---------- runs ----------

  ghost predicate Runs(db: Db, steps: seq<DbStep>, db': Db)
    decreases |steps|
  {
    if steps == [] then db == db'
    else Enabled(db, steps[0]) && Runs(Apply(db, steps[0]), steps[1..], db')
  }

  ghost predicate Reachable(db: Db) {
    exists steps :: Runs(EmptyDb(), steps, db)
  }

  // What no step ever undoes.
  ghost predicate Evolves(db: Db, db': Db) {
    && db.clock <= db'.clock
    && db.users <= db'.users
    && Kept(db.rooms, db'.rooms) && Kept(db.schedules, db'.schedules) && Kept(db.slots, db'.slots)
    && (forall b :: b in db.bookings ==> b in db'.bookings && BookingEvolves(db.bookings[b], db'.bookings[b]))
    && OutboxEvolves(db.outbox, db'.outbox)
  }

  ghost predicate Kept<K, V>(m: map<K, V>, m': map<K, V>) {
    forall k :: k in m ==> k in m' && m'[k] == m[k]
  }

  // Owner, slot and creation time are fixed, and a cancelled booking stays cancelled.
  ghost predicate BookingEvolves(b: Booking, b': Booking) {
    b' == b.(status := b'.status, link := b'.link) && (b.status.Cancelled? ==> b'.status.Cancelled?)
  }

  // Rows stay, with their content, and `sent_at` is never cleared.
  ghost predicate OutboxEvolves(outbox: map<Uuid, OutboxRow>, outbox': map<Uuid, OutboxRow>) {
    forall r :: r in outbox ==> r in outbox' && RowEvolves(outbox[r], outbox'[r])
  }

  ghost predicate RowEvolves(row: OutboxRow, row': OutboxRow) {
    row' == row.(sentAt := row'.sentAt) && (row.sentAt.Some? ==> row'.sentAt.Some?)
  }
}
