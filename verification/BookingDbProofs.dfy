/** Every reachable booking database satisfies the invariant, and what is committed is never taken back. */
module BookingDbProofs {
  import opened Domain
  import opened SlotCalendar
  import opened BookingDb

  // ON CONFLICT (room_id, start_at) DO NOTHING for one row.
  function InsertOne(tab: map<Uuid, Slot>, x: Slot): map<Uuid, Slot> {
    if SlotStored(tab, x.roomId, x.startAt) then tab else tab[x.id := x]
  }

  lemma InsertOneKeeps(schedules: map<Uuid, Schedule>, tab: map<Uuid, Slot>, x: Slot)
    requires SlotRowsOk(schedules, tab) && x.id !in tab
    requires x.roomId in schedules && IsWindow(schedules[x.roomId], x.startAt, x.endAt)
    ensures var tab' := InsertOne(tab, x);
            SlotRowsOk(schedules, tab') && Kept(tab, tab') && SlotStored(tab', x.roomId, x.startAt)
  {
    var tab' := InsertOne(tab, x);
    if x.id in tab' {
      assert tab'[x.id].roomId == x.roomId && tab'[x.id].startAt == x.startAt;
    }
  }

  // Inserting windows of stored schedules keeps the slot table a set of windows without duplicates,
  // changes no stored row, and leaves every requested window stored.
  lemma {:induction false} InsertAbsentIsLazyFill(schedules: map<Uuid, Schedule>, tab: map<Uuid, Slot>, xs: seq<Slot>)
    requires SlotRowsOk(schedules, tab)
    requires forall i :: 0 <= i < |xs| ==> xs[i].id !in tab && xs[i].roomId in schedules
                                           && IsWindow(schedules[xs[i].roomId], xs[i].startAt, xs[i].endAt)
    requires forall i, j :: 0 <= i < j < |xs| ==> xs[i].id != xs[j].id
    ensures var tab' := InsertAbsent(tab, xs);
            && SlotRowsOk(schedules, tab')
            && Kept(tab, tab')
            && (forall i :: 0 <= i < |xs| ==> SlotStored(tab', xs[i].roomId, xs[i].startAt))
            && (forall k :: k in tab' && k !in tab ==>
                  tab'[k] in xs && !SlotStored(tab, tab'[k].roomId, tab'[k].startAt))
    decreases |xs|
  {
    if xs != [] {
      var x, rest, mid := xs[0], xs[1..], InsertOne(tab, xs[0]);
      InsertOneKeeps(schedules, tab, x);
      InsertAbsentIsLazyFill(schedules, mid, rest);
      var tab' := InsertAbsent(mid, rest);
      assert tab' == InsertAbsent(tab, xs);
      StoredIsKept(mid, tab', x.roomId, x.startAt);
      OnlyAbsentAreNew(tab, tab', xs);
    }
  }

  lemma OnlyAbsentAreNew(tab: map<Uuid, Slot>, tab': map<Uuid, Slot>, xs: seq<Slot>)
    requires xs != []
    requires var mid := InsertOne(tab, xs[0]);
             && Kept(tab, mid) && Kept(mid, tab')
             && forall k :: k in tab' && k !in mid ==>
                  tab'[k] in xs[1..] && !SlotStored(mid, tab'[k].roomId, tab'[k].startAt)
    ensures forall k :: k in tab' && k !in tab ==>
              tab'[k] in xs && !SlotStored(tab, tab'[k].roomId, tab'[k].startAt)
  {
    var mid := InsertOne(tab, xs[0]);
    forall k | k in tab' && k !in tab
      ensures tab'[k] in xs && !SlotStored(tab, tab'[k].roomId, tab'[k].startAt)
    {
      if k in mid {
        assert tab'[k] == xs[0];
      } else if SlotStored(tab, tab'[k].roomId, tab'[k].startAt) {
        StoredIsKept(tab, mid, tab'[k].roomId, tab'[k].startAt);
      }
    }
  }

  lemma StoredIsKept(tab: map<Uuid, Slot>, tab': map<Uuid, Slot>, room: Uuid, startAt: Time)
    requires Kept(tab, tab') && SlotStored(tab, room, startAt)
    ensures SlotStored(tab', room, startAt)
  {
    var id :| id in tab && tab[id].roomId == room && tab[id].startAt == startAt;
    assert id in tab';
  }

  // ---------- one step at a time ----------

  // Users, rooms, schedules and slots may only be added to, and the clock may advance.
  lemma CatalogGrows(db: Db, db': Db)
    requires BookingsOk(db) && RowsOk(db)
    requires db'.bookings == db.bookings && db'.outbox == db.outbox && db.clock <= db'.clock
    requires db.users <= db'.users && Kept(db.rooms, db'.rooms) && Kept(db.slots, db'.slots)
    ensures BookingsOk(db') && RowsOk(db')
  {
    forall r | r in db'.outbox
      ensures RowOk(db', db'.outbox[r])
    {
      assert RowOk(db, db.outbox[r]);
    }
  }

  // The same with one entry `t` of the transaction table added, advanced or removed.
  lemma TableChangesAt(db: Db, db': Db, t: nat)
    requires TxsOk(db)
    requires db'.bookings == db.bookings && db'.outbox == db.outbox && db.clock <= db'.clock
    requires db.users <= db'.users && Kept(db.rooms, db'.rooms) && Kept(db.slots, db'.slots)
    requires forall u :: u in db'.txs && u != t ==> u in db.txs && db'.txs[u] == db.txs[u]
    requires t in db'.txs ==> TxOk(db', db'.txs[t])
    requires t in db'.txs ==>
               forall u :: u in db'.txs && u != t ==> Apart(db'.txs[t], db'.txs[u]) && Apart(db'.txs[u], db'.txs[t])
    ensures TxsOk(db')
  {
    forall u | u in db'.txs
      ensures TxOk(db', db'.txs[u])
    {
      assert u != t ==> TxOk(db, db.txs[u]);
    }
  }

  lemma CatalogGrowsInv(db: Db, db': Db)
    requires DbInv(db) && SchedulesOk(db'.rooms, db'.schedules) && SlotRowsOk(db'.schedules, db'.slots)
    requires db' == db.(users := db'.users, rooms := db'.rooms, schedules := db'.schedules, slots := db'.slots)
    requires db.users <= db'.users && Kept(db.rooms, db'.rooms)
    requires Kept(db.schedules, db'.schedules) && Kept(db.slots, db'.slots)
    ensures DbInv(db')
  {
    CatalogGrows(db, db');
    CatalogKeepsTxs(db, db');
  }

  lemma CatalogKeepsTxs(db: Db, db': Db)
    requires TxsOk(db) && db'.txs == db.txs && db'.clock == db.clock
    requires db'.bookings == db.bookings && db'.outbox == db.outbox
    requires db.users <= db'.users && Kept(db.rooms, db'.rooms) && Kept(db.slots, db'.slots)
    ensures TxsOk(db')
  {
    forall t | t in db'.txs
      ensures TxOk(db', db'.txs[t])
    {
      assert TxOk(db, db.txs[t]);
    }
  }

  lemma EnsureSlotsStep(db: Db, xs: seq<Slot>)
    requires DbInv(db) && Enabled(db, EnsureSlots(xs))
    ensures DbInv(Apply(db, EnsureSlots(xs)))
  {
    InsertAbsentIsLazyFill(db.schedules, db.slots, xs);
    CatalogGrowsInv(db, Apply(db, EnsureSlots(xs)));
  }

  lemma EnsureSlotsEvolves(db: Db, xs: seq<Slot>)
    requires SlotRowsOk(db.schedules, db.slots) && Enabled(db, EnsureSlots(xs))
    ensures Evolves(db, Apply(db, EnsureSlots(xs)))
  {
    InsertAbsentIsLazyFill(db.schedules, db.slots, xs);
  }

  lemma CatalogStep(db: Db, step: DbStep)
    requires DbInv(db) && Enabled(db, step)
    requires step.AddUser? || step.AddRoom? || step.AddSchedule?
    ensures DbInv(Apply(db, step))
  {
    CatalogGrowsInv(db, Apply(db, step));
  }

  // A step that touches nothing but entry `t` of the transaction table, and the clock.
  lemma TxStep(db: Db, db': Db, t: nat)
    requires DbInv(db) && db' == db.(clock := db'.clock, txs := db'.txs) && db.clock <= db'.clock
    requires forall u :: u in db'.txs && u != t ==> u in db.txs && db'.txs[u] == db.txs[u]
    requires t in db'.txs ==> TxOk(db', db'.txs[t])
    requires t in db'.txs ==>
               forall u :: u in db'.txs && u != t ==> Apart(db'.txs[t], db'.txs[u]) && Apart(db'.txs[u], db'.txs[t])
    ensures DbInv(db')
  {
    CatalogGrows(db, db');
    TableChangesAt(db, db', t);
  }

  lemma BeginStep(db: Db, t: nat, op: Op)
    requires DbInv(db) && Enabled(db, Begin(t, op))
    ensures DbInv(Apply(db, Begin(t, op)))
  {
    BegunIsOk(db, t, op);
    forall u | u in db.txs && u != t
      ensures var tx' := Apply(db, Begin(t, op)).txs[t]; Apart(tx', db.txs[u]) && Apart(db.txs[u], tx')
    {
      assert TxOk(db, db.txs[u]);
    }
    TxStep(db, Apply(db, Begin(t, op)), t);
  }

  lemma BegunIsOk(db: Db, t: nat, op: Op)
    requires BookingsOk(db) && Enabled(db, Begin(t, op))
    ensures TxOk(Apply(db, Begin(t, op)), Apply(db, Begin(t, op)).txs[t])
  {
  }

  lemma InsertBookingStep(db: Db, t: nat, id: Uuid)
    requires DbInv(db) && Enabled(db, InsertBooking(t, id))
    ensures DbInv(Apply(db, InsertBooking(t, id)))
  {
    InsertedIsOk(db, t, id);
    forall u | u in db.txs && u != t
      ensures var tx' := Apply(db, InsertBooking(t, id)).txs[t]; Apart(tx', db.txs[u]) && Apart(db.txs[u], tx')
    {
      InsertedIsApart(db, t, id, u);
    }
    TxStep(db, Apply(db, InsertBooking(t, id)), t);
  }

  lemma InsertedIsOk(db: Db, t: nat, id: Uuid)
    requires SchedulesOk(db.rooms, db.schedules) && SlotRowsOk(db.schedules, db.slots)
    requires TxsOk(db) && Enabled(db, InsertBooking(t, id))
    ensures TxOk(Apply(db, InsertBooking(t, id)), Apply(db, InsertBooking(t, id)).txs[t])
  {
    assert TxOk(db, db.txs[t]);
  }

  // The partial unique index keeps a second insert for the slot out, and the new id is nobody's.
  lemma InsertedIsApart(db: Db, t: nat, id: Uuid, u: nat)
    requires BookingsOk(db) && TxsOk(db) && Enabled(db, InsertBooking(t, id)) && u in db.txs && u != t
    ensures var tx' := Apply(db, InsertBooking(t, id)).txs[t]; Apart(tx', db.txs[u]) && Apart(db.txs[u], tx')
  {
    assert TxOk(db, db.txs[t]) && TxOk(db, db.txs[u]);
    assert Apart(db.txs[t], db.txs[u]) && Apart(db.txs[u], db.txs[t]);
  }

  lemma UpdateBookingStep(db: Db, t: nat)
    requires DbInv(db) && Enabled(db, UpdateBooking(t))
    ensures DbInv(Apply(db, UpdateBooking(t)))
  {
    UpdatedIsOk(db, t);
    forall u | u in db.txs && u != t
      ensures var tx' := Apply(db, UpdateBooking(t)).txs[t]; Apart(tx', db.txs[u]) && Apart(db.txs[u], tx')
    {
      UpdatedIsApart(db, t, u);
    }
    TxStep(db, Apply(db, UpdateBooking(t)), t);
  }

  lemma UpdatedIsOk(db: Db, t: nat)
    requires SchedulesOk(db.rooms, db.schedules) && SlotRowsOk(db.schedules, db.slots)
    requires BookingsOk(db) && TxsOk(db) && Enabled(db, UpdateBooking(t))
    ensures TxOk(Apply(db, UpdateBooking(t)), Apply(db, UpdateBooking(t)).txs[t])
  {
    assert TxOk(db, db.txs[t]);
  }

  // The row lock keeps a second cancel out; an insert in flight is of a booking not yet stored.
  lemma UpdatedIsApart(db: Db, t: nat, u: nat)
    requires BookingsOk(db) && TxsOk(db) && Enabled(db, UpdateBooking(t)) && u in db.txs && u != t
    ensures var tx' := Apply(db, UpdateBooking(t)).txs[t]; Apart(tx', db.txs[u]) && Apart(db.txs[u], tx')
  {
    assert TxOk(db, db.txs[t]) && TxOk(db, db.txs[u]);
    assert Apart(db.txs[t], db.txs[u]) && Apart(db.txs[u], db.txs[t]);
  }

  lemma InsertOutboxStep(db: Db, t: nat, rowId: Uuid)
    requires DbInv(db) && Enabled(db, InsertOutbox(t, rowId))
    ensures DbInv(Apply(db, InsertOutbox(t, rowId)))
  {
    AnnouncedIsOk(db, t, rowId);
    forall u | u in db.txs && u != t
      ensures var tx' := Apply(db, InsertOutbox(t, rowId)).txs[t]; Apart(tx', db.txs[u]) && Apart(db.txs[u], tx')
    {
      AnnouncedIsApart(db, t, rowId, u);
    }
    TxStep(db, Apply(db, InsertOutbox(t, rowId)), t);
  }

  lemma AnnouncedIsOk(db: Db, t: nat, rowId: Uuid)
    requires TxsOk(db) && Enabled(db, InsertOutbox(t, rowId))
    ensures TxOk(Apply(db, InsertOutbox(t, rowId)), Apply(db, InsertOutbox(t, rowId)).txs[t])
  {
    assert TxOk(db, db.txs[t]);
  }

  lemma AnnouncedIsApart(db: Db, t: nat, rowId: Uuid, u: nat)
    requires TxsOk(db) && Enabled(db, InsertOutbox(t, rowId)) && u in db.txs && u != t
    ensures var tx' := Apply(db, InsertOutbox(t, rowId)).txs[t]; Apart(tx', db.txs[u]) && Apart(db.txs[u], tx')
  {
    assert Apart(db.txs[t], db.txs[u]) && Apart(db.txs[u], db.txs[t]);
  }

  lemma RollbackStep(db: Db, t: nat)
    requires DbInv(db) && Enabled(db, Rollback(t))
    ensures DbInv(Apply(db, Rollback(t)))
  {
    TxStep(db, Apply(db, Rollback(t)), t);
  }

  // Changing links and `sent_at` marks only, and no booking some transaction has locked.
  ghost predicate Relabelled(db: Db, db': Db) {
    && db' == db.(bookings := db'.bookings, outbox := db'.outbox)
    && db'.bookings.Keys == db.bookings.Keys && db'.outbox.Keys == db.outbox.Keys
    && (forall b :: b in db.bookings ==> db'.bookings[b] == db.bookings[b].(link := db'.bookings[b].link))
    && (forall b :: b in db.bookings && RowLocked(db, b) ==> db'.bookings[b] == db.bookings[b])
    && (forall r :: r in db.outbox ==> db'.outbox[r] == db.outbox[r].(sentAt := db'.outbox[r].sentAt))
  }

  lemma RelabelKeepsRows(db: Db, db': Db)
    requires Relabelled(db, db') && RowsOk(db) && BookingsOk(db)
    ensures RowsOk(db') && BookingsOk(db')
  {
    forall r | r in db'.outbox
      ensures RowOk(db', db'.outbox[r])
    {
      assert RowOk(db, db.outbox[r]);
    }
  }

  lemma RelabelKeepsTx(db: Db, db': Db, t: nat)
    requires Relabelled(db, db') && BookingsOk(db) && t in db.txs && TxOk(db, db.txs[t])
    ensures TxOk(db', db'.txs[t])
  {
    var tx := db.txs[t];
    if tx.Updates() {
      assert RowLocked(db, tx.change.value.id);
    }
  }

  lemma RelabelKeepsExact(db: Db, db': Db)
    requires Relabelled(db, db')
    requires OutboxExact(db.outbox, db.bookings) && OneActivePerSlot(db.bookings)
    ensures OutboxExact(db'.outbox, db'.bookings) && OneActivePerSlot(db'.bookings)
  {
    forall r, q | r in db'.outbox && q in db'.outbox && r != q
      ensures !Repeats(db'.outbox[r], db'.outbox[q])
    {
      assert !Repeats(db.outbox[r], db.outbox[q]);
    }
    forall a, b | a in db'.bookings && b in db'.bookings && a != b
      ensures !Clash(db'.bookings[a], db'.bookings[b])
    {
      assert !Clash(db.bookings[a], db.bookings[b]);
    }
    forall b, ty | HasRow(db.outbox, b, ty)
      ensures HasRow(db'.outbox, b, ty)
    {
      var r :| r in db.outbox && IsEventOf(db.outbox[r].payload, b, ty);
      assert r in db'.outbox && IsEventOf(db'.outbox[r].payload, b, ty);
    }
  }

  lemma RelabelKeepsInv(db: Db, db': Db)
    requires DbInv(db) && Relabelled(db, db')
    ensures DbInv(db')
  {
    RelabelKeepsRows(db, db');
    RelabelKeepsExact(db, db');
    forall t | t in db'.txs
      ensures TxOk(db', db'.txs[t])
    {
      RelabelKeepsTx(db, db', t);
    }
  }

  // A link update touches nobody's row lock, owner, slot or status.
  lemma SetLinkRelabels(db: Db, id: Uuid, link: string)
    requires Enabled(db, SetLink(id, link))
    ensures Relabelled(db, Apply(db, SetLink(id, link)))
  {
  }

  // A relay's mark changes no row's content.
  lemma MarkSentRelabels(db: Db, ids: set<Uuid>)
    requires Enabled(db, MarkSent(ids))
    ensures Relabelled(db, Apply(db, MarkSent(ids)))
  {
  }

  // ---------- commit ----------

  // The committed tables after transaction `t` commits.
  lemma CommitKeepsRows(db: Db, t: nat)
    requires RowsOk(db) && BookingsOk(db) && TxsOk(db) && Enabled(db, Commit(t))
    ensures RowsOk(Apply(db, Commit(t))) && BookingsOk(Apply(db, Commit(t)))
  {
    var tx, db' := db.txs[t], Apply(db, Commit(t));
    assert TxOk(db, tx);
    forall r | r in db'.outbox
      ensures db'.outbox[r].id == r && RowOk(db', db'.outbox[r])
    {
      if r != tx.row.value.id {
        assert RowOk(db, db.outbox[r]);
      }
    }
  }

  // A new row whose booking has no row of that type yet, together with that booking's new version.
  lemma OneMoreRow(outbox: map<Uuid, OutboxRow>, bookings: map<Uuid, Booking>, row: OutboxRow, b: Booking)
    requires OutboxExact(outbox, bookings) && row.id !in outbox
    requires forall r :: r in outbox ==> !Repeats(row, outbox[r]) && !Repeats(outbox[r], row)
    requires if b.id in bookings then b.status.Cancelled? && IsEventOf(row.payload, b.id, BookingCancelled)
             else b.status.Active? && IsEventOf(row.payload, b.id, BookingCreated)
    ensures OutboxExact(outbox[row.id := row], bookings[b.id := b])
  {
    RowsGrow(outbox, row);
  }

  lemma RowsGrow(outbox: map<Uuid, OutboxRow>, row: OutboxRow)
    requires row.id !in outbox
    ensures forall c, ty :: HasRow(outbox[row.id := row], c, ty) <==>
              HasRow(outbox, c, ty) || IsEventOf(row.payload, c, ty)
  {
    var outbox' := outbox[row.id := row];
    forall c, ty
      ensures HasRow(outbox', c, ty) <==> HasRow(outbox, c, ty) || IsEventOf(row.payload, c, ty)
    {
      if r :| r in outbox && IsEventOf(outbox[r].payload, c, ty) {
        assert IsEventOf(outbox'[r].payload, c, ty);
      }
      assert IsEventOf(row.payload, c, ty) ==> row.id in outbox' && IsEventOf(outbox'[row.id].payload, c, ty);
    }
  }

  lemma CommitKeepsExact(db: Db, t: nat)
    requires RowsOk(db) && BookingsOk(db) && TxsOk(db) && Enabled(db, Commit(t))
    requires OutboxExact(db.outbox, db.bookings)
    ensures OutboxExact(Apply(db, Commit(t)).outbox, Apply(db, Commit(t)).bookings)
  {
    var tx := db.txs[t];
    assert TxOk(db, tx);
    forall r | r in db.outbox
      ensures !Repeats(tx.row.value, db.outbox[r]) && !Repeats(db.outbox[r], tx.row.value)
    {
      assert RowOk(db, db.outbox[r]);
    }
    OneMoreRow(db.outbox, db.bookings, tx.row.value, tx.change.value);
  }

  lemma CommitKeepsOneActive(db: Db, t: nat)
    requires TxsOk(db) && Enabled(db, Commit(t)) && OneActivePerSlot(db.bookings)
    ensures OneActivePerSlot(Apply(db, Commit(t)).bookings)
  {
    var tx, bookings' := db.txs[t], Apply(db, Commit(t)).bookings;
    assert TxOk(db, tx);
    forall a, c | a in bookings' && c in bookings' && a != c
      ensures !Clash(bookings'[a], bookings'[c])
    {
      assert a in db.bookings && c in db.bookings ==> !Clash(db.bookings[a], db.bookings[c]);
    }
  }

  lemma CommitKeepsTx(db: Db, t: nat, u: nat)
    requires BookingsOk(db) && TxsOk(db) && Enabled(db, Commit(t)) && u in db.txs && u != t
    ensures TxOk(Apply(db, Commit(t)), db.txs[u])
  {
    var tx, ux, db' := db.txs[t], db.txs[u], Apply(db, Commit(t));
    assert TxOk(db, tx) && TxOk(db, ux) && Apart(tx, ux) && Apart(ux, tx);
    if ux.Inserts() {
      forall b | b in db'.bookings && db'.bookings[b].slotId == ux.op.slotId
        ensures db'.bookings[b].status.Cancelled?
      {
        assert b != tx.change.value.id ==> b in db.bookings;
      }
    }
  }

  lemma CommitStep(db: Db, t: nat)
    requires DbInv(db) && Enabled(db, Commit(t))
    ensures DbInv(Apply(db, Commit(t)))
  {
    CommitKeepsRows(db, t);
    CommitKeepsExact(db, t);
    CommitKeepsOneActive(db, t);
    forall u | u in db.txs && u != t
      ensures TxOk(Apply(db, Commit(t)), db.txs[u])
    {
      CommitKeepsTx(db, t, u);
    }
  }

  // ---------- all steps, all runs ----------

  lemma StepKeepsInv(db: Db, step: DbStep)
    requires DbInv(db) && Enabled(db, step)
    ensures DbInv(Apply(db, step))
  {
    match step
    case Begin(t, op) => BeginStep(db, t, op);
    case InsertBooking(t, id) => InsertBookingStep(db, t, id);
    case UpdateBooking(t) => UpdateBookingStep(db, t);
    case InsertOutbox(t, rowId) => InsertOutboxStep(db, t, rowId);
    case Commit(t) => CommitStep(db, t);
    case Rollback(t) => RollbackStep(db, t);
    case SetLink(b, link) =>
      SetLinkRelabels(db, b, link);
      RelabelKeepsInv(db, Apply(db, step));
    case MarkSent(ids) =>
      MarkSentRelabels(db, ids);
      RelabelKeepsInv(db, Apply(db, step));
    case EnsureSlots(xs) => EnsureSlotsStep(db, xs);
    case _ => CatalogStep(db, step);
  }

  lemma CommitEvolves(db: Db, t: nat)
    requires TxsOk(db) && BookingsOk(db) && Enabled(db, Commit(t))
    ensures Evolves(db, Apply(db, Commit(t)))
  {
    assert TxOk(db, db.txs[t]);
  }

  lemma StepEvolves(db: Db, step: DbStep)
    requires DbInv(db) && Enabled(db, step)
    ensures Evolves(db, Apply(db, step))
  {
    match step
    case EnsureSlots(xs) => EnsureSlotsEvolves(db, xs);
    case Commit(t) => CommitEvolves(db, t);
    case _ => QuietStepEvolves(db, step);
  }

  lemma QuietStepEvolves(db: Db, step: DbStep)
    requires Enabled(db, step) && !step.EnsureSlots? && !step.Commit?
    ensures Evolves(db, Apply(db, step))
  {
  }

  lemma EvolvesTransitive(a: Db, b: Db, c: Db)
    requires Evolves(a, b) && Evolves(b, c)
    ensures Evolves(a, c)
  {
  }

  // The invariant and everything committed survive every run.
  lemma {:induction false} RunsKeep(db: Db, steps: seq<DbStep>, db': Db)
    requires DbInv(db) && Runs(db, steps, db')
    ensures DbInv(db') && Evolves(db, db')
    decreases |steps|
  {
    if steps != [] {
      var mid := Apply(db, steps[0]);
      StepKeepsInv(db, steps[0]);
      StepEvolves(db, steps[0]);
      RunsKeep(mid, steps[1..], db');
      EvolvesTransitive(db, mid, db');
    }
  }

  lemma ReachableInv(db: Db)
    requires Reachable(db)
    ensures DbInv(db)
  {
    var steps :| Runs(EmptyDb(), steps, db);
    RunsKeep(EmptyDb(), steps, db);
  }

  lemma {:induction false} RunsCompose(db: Db, steps: seq<DbStep>, mid: Db, more: seq<DbStep>, db': Db)
    requires Runs(db, steps, mid) && Runs(mid, more, db')
    ensures Runs(db, steps + more, db')
    decreases |steps|
  {
    if steps == [] {
      assert steps + more == more;
    } else {
      RunsCompose(Apply(db, steps[0]), steps[1..], mid, more, db');
      assert (steps + more)[1..] == steps[1..] + more;
    }
  }

  lemma ReachableSchedules(db: Db)
    requires Reachable(db)
    ensures SchedulesOk(db.rooms, db.schedules)
  {
    ReachableInv(db);
  }

  lemma RunsStayReachable(db: Db, more: seq<DbStep>, db': Db)
    requires Reachable(db) && Runs(db, more, db')
    ensures Reachable(db')
  {
    var steps :| Runs(EmptyDb(), steps, db);
    RunsCompose(EmptyDb(), steps, db, more, db');
  }

  lemma NextIsReachable(db: Db, step: DbStep)
    requires Reachable(db) && Enabled(db, step)
    ensures Reachable(Apply(db, step))
  {
    assert [step][1..] == [] && Runs(db, [step], Apply(db, step));
    RunsStayReachable(db, [step], Apply(db, step));
  }
}
