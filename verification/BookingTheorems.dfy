/** What holds of every reachable booking database. */
module BookingTheorems {
  import opened Domain
  import opened SlotCalendar
  import opened BookingDb
  import opened BookingDbProofs
  import opened Database

  // The transition of type `ty` of booking `b` has been committed.
  predicate Happened(bookings: map<Uuid, Booking>, b: Uuid, ty: EventType) {
    && b in bookings
    && (ty.BookingCreated? || (ty.BookingCancelled? && bookings[b].status.Cancelled?))
  }

  // The outbox holds one row for each committed transition, that row tells the truth about the booking,
  // its slot and its room, and there is no other row.
  lemma OutboxIsExact(db: Db)
    requires Reachable(db)
    ensures forall b, ty :: Happened(db.bookings, b, ty) <==> HasRow(db.outbox, b, ty)
    ensures forall r, q :: r in db.outbox && q in db.outbox && r != q ==> !Repeats(db.outbox[r], db.outbox[q])
    ensures forall r :: r in db.outbox ==> db.outbox[r].payload.Json? && Describes(db, db.outbox[r].payload.event)
  {
    ReachableInv(db);
    forall b, ty
      ensures Happened(db.bookings, b, ty) <==> HasRow(db.outbox, b, ty)
    {
      if HasRow(db.outbox, b, ty) {
        var r :| r in db.outbox && IsEventOf(db.outbox[r].payload, b, ty);
        assert RowOk(db, db.outbox[r]);
      }
    }
    forall r | r in db.outbox
      ensures db.outbox[r].payload.Json? && Describes(db, db.outbox[r].payload.event)
    {
      assert RowOk(db, db.outbox[r]);
    }
  }

  // The claims on a slot: committed active bookings by their id, and bookings still being inserted.
  ghost predicate Claims(db: Db, b: Uuid, slot: Uuid) {
    || (b in db.bookings && db.bookings[b].slotId == slot && db.bookings[b].status.Active?)
    || (exists t :: t in db.txs && db.txs[t].Inserts() && db.txs[t].change.value.id == b
                    && db.txs[t].change.value.slotId == slot)
  }

  lemma AtMostOneClaimPerSlot(db: Db, slot: Uuid, a: Uuid, b: Uuid)
    requires Reachable(db) && Claims(db, a, slot) && Claims(db, b, slot)
    ensures a == b
  {
    ReachableInv(db);
    forall t | t in db.txs
      ensures TxOk(db, db.txs[t])
    {
    }
  }

  // A transaction that never commits leaves no mark: its other steps change no table.
  lemma OnlyCommitsWrite(db: Db, t: nat, step: DbStep)
    requires Enabled(db, step) && StepOf(step, t) && !step.Commit?
    ensures Apply(db, step) == db.(clock := Apply(db, step).clock, txs := Apply(db, step).txs)
  {
  }

  // The foreign keys make the join of the announcement yield a row for every transaction that has written.
  lemma AnnouncementIsNeverEmpty(db: Db, t: nat, rowId: Uuid)
    requires Reachable(db) && Enabled(db, InsertOutbox(t, rowId))
    ensures var tx := db.txs[t];
            && Joinable(db, tx.change.value)
            && var b, ty := tx.change.value, if tx.op.CreateOp? then BookingCreated else BookingCancelled;
            && var slot := db.slots[b.slotId];
            && var event := Event(rowId, ty, tx.begun, b.id, b.userId, slot.roomId, db.rooms[slot.roomId],
                                  slot.startAt, slot.endAt);
            && Apply(db, InsertOutbox(t, rowId)).txs[t].row
               == Some(OutboxRow(rowId, ty, Json(event), tx.begun, None))
  {
    ReachableInv(db);
    assert TxOk(db, db.txs[t]);
  }

  // So no commit makes a booking version visible without its row.
  lemma CommitsAnnounce(db: Db, t: nat)
    requires Reachable(db) && Enabled(db, Commit(t))
    ensures var tx, db' := db.txs[t], Apply(db, Commit(t));
            && tx.change.value.id in db'.bookings && db'.bookings[tx.change.value.id] == tx.change.value
            && HasRow(db'.outbox, tx.change.value.id, TypeOf(tx.op))
  {
    ReachableInv(db);
    assert TxOk(db, db.txs[t]);
    assert db.txs[t].row.value.id in Apply(db, Commit(t)).outbox;
  }

  // A stored booking knows its own id, and a cancelled one is announced.
  lemma StoredBooking(db: Db, id: Uuid)
    requires Reachable(db) && id in db.bookings
    ensures db.bookings[id].id == id
    ensures db.bookings[id].status.Cancelled? ==> HasRow(db.outbox, id, BookingCancelled)
  {
    ReachableInv(db);
  }

  // A cancel whose caller does not own the booking, or that comes second, changes no table.
  lemma OtherCancelsWriteNothing(db: Db, t: nat, step: DbStep)
    requires Reachable(db) && t in db.txs && db.txs[t].op.CancelOp? && db.txs[t].op.bookingId in db.bookings
    requires !Cancellable(db, db.txs[t].op.bookingId, db.txs[t].op.userId)
    requires Enabled(db, step) && StepOf(step, t)
    ensures Apply(db, step) == db.(txs := Apply(db, step).txs)
  {
    ReachableInv(db);
    assert TxOk(db, db.txs[t]);
    if !step.Commit? {
      OnlyCommitsWrite(db, t, step);
    }
  }

  // ---------- cancelling an id that is not there yet ----------

  // A cancel of `id` whose UPDATE matches nothing, and whose diagnosing SELECT, after the rollback and
  // whatever others did, meets the booking active and owned by the caller.
  ghost predicate AnswersActive(db: Db, t: nat, id: Uuid, user: Uuid, seen: Db, diagnosed: Db) {
    && Enabled(db, Begin(t, CancelOp(id, user)))
    && Interleaves(Apply(db, Begin(t, CancelOp(id, user))), seen, t)
    && !RowLocked(seen, id) && !Cancellable(seen, id, user)
    && Enabled(seen, Rollback(t))
    && Interleaves(Apply(seen, Rollback(t)), diagnosed, t)
    && Cancellable(diagnosed, id, user)
  }

  // Exactly the ids not committed before the call allow that, in every state, for every caller.
  lemma CancelMayAnswerActiveExactly(db: Db, t: nat, id: Uuid, user: Uuid)
    requires DbInv(db) && t !in db.txs
    ensures (exists seen, diagnosed :: AnswersActive(db, t, id, user, seen, diagnosed)) <==> id !in db.bookings
  {
    if id !in db.bookings {
      var seen, diagnosed := UnknownIdMayTurnUpActive(db, t, id, user);
      assert AnswersActive(db, t, id, user, seen, diagnosed);
    } else if seen, diagnosed :| AnswersActive(db, t, id, user, seen, diagnosed) {
      KnownIdAnswersCancelled(db, t, id, user, seen, diagnosed);
    }
  }

  lemma KnownIdAnswersCancelled(db: Db, t: nat, id: Uuid, user: Uuid, seen: Db, diagnosed: Db)
    requires DbInv(db) && t !in db.txs && id in db.bookings
    ensures !AnswersActive(db, t, id, user, seen, diagnosed)
  {
    var begun := Apply(db, Begin(t, CancelOp(id, user)));
    BeginStep(db, t, CancelOp(id, user));
    if Interleaves(begun, seen, t) {
      StaysStored(begun, seen, t, id);
      if !Cancellable(seen, id, user) && Enabled(seen, Rollback(t)) {
        RollbackStep(seen, t);
        if Interleaves(Apply(seen, Rollback(t)), diagnosed, t) {
          NeverCancellableAgain(Apply(seen, Rollback(t)), diagnosed, t, id, user);
        }
      }
    }
  }

  lemma StaysStored(db: Db, db': Db, t: nat, id: Uuid)
    requires DbInv(db) && Interleaves(db, db', t) && id in db.bookings
    ensures DbInv(db') && id in db'.bookings
  {
    InterleavingIsSafe(db, db', t);
  }

  lemma NeverCancellableAgain(db: Db, db': Db, t: nat, id: Uuid, user: Uuid)
    requires DbInv(db) && Interleaves(db, db', t) && id in db.bookings && !Cancellable(db, id, user)
    ensures !Cancellable(db', id, user)
  {
    InterleavingIsSafe(db, db', t);
    assert BookingEvolves(db.bookings[id], db'.bookings[id]);
  }

  lemma UnstoredIsUnlocked(db: Db, id: Uuid)
    requires TxsOk(db) && BookingsOk(db) && id !in db.bookings
    ensures !RowLocked(db, id)
  {
    forall u | u in db.txs && db.txs[u].Updates()
      ensures db.txs[u].change.value.id != id
    {
      assert TxOk(db, db.txs[u]);
    }
  }

  lemma UnknownIdMayTurnUpActive(db: Db, t: nat, id: Uuid, user: Uuid) returns (seen: Db, diagnosed: Db)
    requires DbInv(db) && t !in db.txs && id !in db.bookings
    ensures AnswersActive(db, t, id, user, seen, diagnosed)
  {
    seen := Apply(db, Begin(t, CancelOp(id, user)));
    BeginStep(db, t, CancelOp(id, user));
    assert Runs(seen, [], seen) && NoneOf([], t);
    UnstoredIsUnlocked(seen, id);
    RollbackStep(seen, t);
    diagnosed := OthersBook(Apply(seen, Rollback(t)), t, id, user);
  }

  // One more step of the others.
  lemma OthersDo(start: Db, db: Db, step: DbStep, t: nat)
    requires Interleaves(start, db, t) && Enabled(db, step) && !StepOf(step, t)
    ensures Interleaves(start, Apply(db, step), t)
  {
    var steps :| Runs(start, steps, db) && NoneOf(steps, t);
    assert [step][1..] == [] && Runs(db, [step], Apply(db, step));
    RunsCompose(start, steps, db, [step], Apply(db, step));
    assert NoneOf(steps + [step], t);
  }

  // The others give up what they are doing, register the caller, open a room with a slot and book it,
  // the database generating just that id.
  lemma OthersBook(db: Db, t: nat, id: Uuid, user: Uuid) returns (db': Db)
    requires DbInv(db) && t !in db.txs && id !in db.bookings
    ensures Interleaves(db, db', t) && Cancellable(db', id, user)
  {
    assert Runs(db, [], db) && NoneOf([], t);
    var idle := EverybodyGivesUp(db, db, t);
    var open, slot := SlotOpens(db, idle, user, t);
    db' := SlotIsBooked(db, open, t, id, slot, user);
  }

  lemma {:induction false} EverybodyGivesUp(start: Db, db: Db, t: nat) returns (db': Db)
    requires DbInv(db) && t !in db.txs && Interleaves(start, db, t)
    ensures Interleaves(start, db', t) && DbInv(db') && db' == db.(txs := map[])
    decreases db.txs.Keys
  {
    if db.txs == map[] {
      return db;
    }
    var u :| u in db.txs;
    RollbackStep(db, u);
    OthersDo(start, db, Rollback(u), t);
    db' := EverybodyGivesUp(start, Apply(db, Rollback(u)), t);
  }

  // A slot nobody has heard of, in a room of its own, open all day every day.
  lemma SlotOpens(start: Db, db: Db, user: Uuid, t: nat) returns (db': Db, slot: Uuid)
    requires DbInv(db) && db.txs == map[] && Interleaves(start, db, t)
    ensures Interleaves(start, db', t) && DbInv(db')
    ensures db'.bookings == db.bookings && db'.txs == map[]
    ensures VerdictOf(db', slot, user).Inserted?
  {
    var mid, room := RoomOpens(start, db, user, t);
    slot := SomethingIsAbove(mid.slots.Keys);
    var window := Slot(slot, room, 0, 30);
    assert IsWindow(ALWAYS, 0, 30);
    EnsureSlotsStep(mid, [window]);
    OthersDo(start, mid, EnsureSlots([window]), t);
    db' := Apply(mid, EnsureSlots([window]));
    assert [window][1..] == [];
    assert InsertAbsent(mid.slots[slot := window], []) == mid.slots[slot := window];
    assert db'.slots == mid.slots[slot := window];
    SlotIsFree(db', slot, user, mid);
  }

  lemma SlotIsFree(db: Db, slot: Uuid, user: Uuid, before: Db)
    requires db.txs == map[] && user in db.users && slot in db.slots
    requires db.bookings == before.bookings && BookingsOk(before) && slot !in before.slots
    ensures VerdictOf(db, slot, user).Inserted?
  {
  }

  lemma RoomOpens(start: Db, db: Db, user: Uuid, t: nat) returns (db': Db, room: Uuid)
    requires DbInv(db) && db.txs == map[] && Interleaves(start, db, t)
    ensures Interleaves(start, db', t) && DbInv(db')
    ensures db'.bookings == db.bookings && db'.txs == map[] && user in db'.users
    ensures room in db'.schedules && db'.schedules[room] == ALWAYS
    ensures forall at :: !SlotStored(db'.slots, room, at)
  {
    room := SomethingIsAbove(db.rooms.Keys);
    var d1 := OthersAdd(start, db, AddUser(user), t);
    var d2 := OthersAdd(start, d1, AddRoom(room, ""), t);
    assert room !in db.schedules && StorableSchedule(ALWAYS);
    db' := OthersAdd(start, d2, AddSchedule(room, ALWAYS), t);
  }

  lemma OthersAdd(start: Db, db: Db, step: DbStep, t: nat) returns (db': Db)
    requires DbInv(db) && Interleaves(start, db, t) && Enabled(db, step)
    requires step.AddUser? || step.AddRoom? || step.AddSchedule?
    ensures db' == Apply(db, step) && DbInv(db') && Interleaves(start, db', t)
  {
    CatalogStep(db, step);
    OthersDo(start, db, step, t);
    db' := Apply(db, step);
  }

  lemma SlotIsBooked(start: Db, db: Db, t: nat, id: Uuid, slot: Uuid, user: Uuid) returns (db': Db)
    requires DbInv(db) && db.txs == map[] && id !in db.bookings && VerdictOf(db, slot, user).Inserted?
    requires Interleaves(start, db, t)
    ensures Interleaves(start, db', t) && Cancellable(db', id, user)
  {
    var inserted := Insertion(start, db, t, t + 1, id, slot, user);
    var rowId := SomethingIsAbove(db.outbox.Keys);
    assert RowIdUnused(inserted, rowId);
    db' := Completion(start, inserted, t, t + 1, rowId);
  }

  lemma Insertion(start: Db, db: Db, t: nat, u: nat, id: Uuid, slot: Uuid, user: Uuid) returns (db': Db)
    requires BookingIdUnused(db, id) && VerdictOf(db, slot, user).Inserted? && u !in db.txs && u != t
    requires Interleaves(start, db, t)
    ensures Interleaves(start, db', t)
    ensures u in db'.txs && db' == db.(clock := db'.clock, txs := db.txs[u := db'.txs[u]])
    ensures db'.txs[u].Inserts() && !db'.txs[u].announced && db'.txs[u].row.None?
    ensures db'.txs[u].change.value == Booking(id, slot, user, Active, None, db'.clock)
  {
    OthersDo(start, db, Begin(u, CreateOp(slot, user)), t);
    db' := BegunInserts(db, u, id, slot, user);
    OthersDo(start, Apply(db, Begin(u, CreateOp(slot, user))), InsertBooking(u, id), t);
  }

  lemma BegunInserts(db: Db, u: nat, id: Uuid, slot: Uuid, user: Uuid) returns (db': Db)
    requires BookingIdUnused(db, id) && VerdictOf(db, slot, user).Inserted? && u !in db.txs
    ensures var begun := Apply(db, Begin(u, CreateOp(slot, user)));
            Enabled(begun, InsertBooking(u, id)) && db' == Apply(begun, InsertBooking(u, id))
    ensures u in db'.txs && db' == db.(clock := db'.clock, txs := db.txs[u := db'.txs[u]])
    ensures db'.txs[u].Inserts() && !db'.txs[u].announced && db'.txs[u].row.None?
    ensures db'.txs[u].change.value == Booking(id, slot, user, Active, None, db'.clock)
  {
    db' := Apply(Apply(db, Begin(u, CreateOp(slot, user))), InsertBooking(u, id));
  }

  lemma Completion(start: Db, db: Db, t: nat, u: nat, rowId: Uuid) returns (db': Db)
    requires u in db.txs && db.txs[u].Inserts() && !db.txs[u].announced && RowIdUnused(db, rowId) && u != t
    requires Interleaves(start, db, t)
    ensures Interleaves(start, db', t)
    ensures db'.bookings == db.bookings[db.txs[u].change.value.id := db.txs[u].change.value]
  {
    OthersDo(start, db, InsertOutbox(u, rowId), t);
    var written := Apply(db, InsertOutbox(u, rowId));
    OthersDo(start, written, Commit(u), t);
    db' := Apply(written, Commit(u));
  }

  // Once a cancel has committed, the slot is free for anyone: no committed booking of it is active, no version of one
  // is in flight, and the next create request of any user inserts.
  lemma CancelFreesSlot(db: Db, t: nat, u: nat, user: Uuid, id: Uuid)
    requires Reachable(db) && t in db.txs && db.txs[t].Updates() && Enabled(db, Commit(t))
    requires u !in Apply(db, Commit(t)).txs && user in db.users && BookingIdUnused(Apply(db, Commit(t)), id)
    ensures var slot, db' := db.txs[t].change.value.slotId, Apply(db, Commit(t));
            && (forall b :: b in db'.bookings && db'.bookings[b].slotId == slot ==> db'.bookings[b].status.Cancelled?)
            && (forall v :: v in db'.txs && db'.txs[v].change.Some? ==> db'.txs[v].change.value.slotId != slot)
            && Enabled(Apply(db', Begin(u, CreateOp(slot, user))), InsertBooking(u, id))
  {
    ReachableInv(db);
    var slot, db' := db.txs[t].change.value.slotId, Apply(db, Commit(t));
    assert TxOk(db, db.txs[t]);
    NobodyElseHolds(db, t);
    assert VerdictOf(db', slot, user).Inserted?;
    BegunMayInsert(db', u, id, slot, user);
  }

  lemma NobodyElseHolds(db: Db, t: nat)
    requires DbInv(db) && t in db.txs && db.txs[t].Updates()
    ensures forall b :: b in db.bookings && b != db.txs[t].change.value.id && db.bookings[b].status.Active? ==>
              db.bookings[b].slotId != db.txs[t].change.value.slotId
    ensures forall v :: v in db.txs && v != t && db.txs[v].change.Some? ==>
              db.txs[v].change.value.slotId != db.txs[t].change.value.slotId
  {
    var mine := db.txs[t].change.value;
    assert TxOk(db, db.txs[t]);
    forall b | b in db.bookings && b != mine.id && db.bookings[b].status.Active?
      ensures db.bookings[b].slotId != mine.slotId
    {
      assert !Clash(db.bookings[b], db.bookings[mine.id]);
    }
    forall v | v in db.txs && v != t && db.txs[v].change.Some?
      ensures db.txs[v].change.value.slotId != mine.slotId
    {
      assert TxOk(db, db.txs[v]) && Apart(db.txs[v], db.txs[t]);
      if db.txs[v].Updates() {
        assert !Clash(db.bookings[db.txs[v].change.value.id], db.bookings[mine.id]);
      }
    }
  }

  lemma BegunMayInsert(db: Db, u: nat, id: Uuid, slot: Uuid, user: Uuid)
    requires BookingIdUnused(db, id) && VerdictOf(db, slot, user).Inserted? && u !in db.txs
    ensures Enabled(Apply(db, Begin(u, CreateOp(slot, user))), InsertBooking(u, id))
  {
  }

  // Over all dates, two slots of one room never overlap.
  lemma SlotsNeverOverlap(db: Db, a: Uuid, b: Uuid)
    requires Reachable(db)
    requires a in db.slots && b in db.slots && a != b && db.slots[a].roomId == db.slots[b].roomId
    ensures db.slots[a].endAt <= db.slots[b].startAt || db.slots[b].endAt <= db.slots[a].startAt
  {
    ReachableInv(db);
    var s := db.schedules[db.slots[a].roomId];
    WindowsDoNotOverlap(s, db.slots[a].startAt, db.slots[a].endAt, db.slots[b].startAt, db.slots[b].endAt);
  }
}
