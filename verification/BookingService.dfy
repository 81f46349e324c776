/**
 Creating and cancelling a booking, statement by statement, with any number of steps of other
 requests, relays and link updates between any two statements.
 */
module BookingService {
  import opened Domain
  import opened BookingDb
  import opened BookingDbProofs
  import opened Database
  import opened BookingTheorems

  datatype CreateResult = Created(booking: Booking) | SlotNotFound | SlotInPast | AlreadyBooked | CreateFailed

  datatype CancelResult = CancelDone(booking: Booking) | BookingNotFound | CancelFailed

  // Where the connection, the deadline or the database gives up on the caller.
  // `CommitUnheard` and `LinkUnheard` take effect although the caller gets an error.
  datatype Fault =
    | NoFault
    | StatementFails
    | OutboxFails
    | CommitFails
    | CommitUnheard
    | ReadFails
    | LinkFails
    | LinkUnheard

  // What every created booking is, forever after: committed for that slot and user, and announced.
  ghost predicate IsBookedFor(db: Db, id: Uuid, slot: Uuid, user: Uuid) {
    && id in db.bookings
    && db.bookings[id].slotId == slot && db.bookings[id].userId == user
    && HasRow(db.outbox, id, BookingCreated)
  }

  // Booking `id` of that slot and user has been made since `db`.
  ghost predicate BookedSince(db: Db, db': Db, id: Uuid, slot: Uuid, user: Uuid) {
    id !in db.bookings && IsBookedFor(db', id, slot, user)
  }

  // The answer to a create request, and what it committed, follow from what the INSERT decided.
  ghost predicate Follows(r: CreateResult, verdict: InsertVerdict, made: Uuid, committed: bool, fault: Fault,
                          before: Db, after: Db, slot: Uuid, user: Uuid) {
    && (committed <==> verdict.Inserted? && !fault.StatementFails? && !fault.OutboxFails? && !fault.CommitFails?)
    && (committed ==> BookedSince(before, after, made, slot, user))
    && (r.Created? <==> committed && !fault.CommitUnheard?)
    && (r.Created? ==> r.booking.id == made && r.booking.slotId == slot && r.booking.userId == user
                       && r.booking.status.Active? && r.booking.createdAt == after.bookings[made].createdAt)
    && (r.AlreadyBooked? <==> verdict.UniqueViolation? && !fault.StatementFails?)
    && (r.SlotNotFound? <==> verdict.SlotMissing? && !fault.StatementFails?)
    && !r.SlotInPast?
  }

  // What the tables say the answer to a create request must be, and whether it commits, in the database its INSERT
  // decided on: `taken` by a committed active booking, `contested` by an uncommitted version.
  ghost predicate AnswersCreate(r: CreateResult, committed: bool, at: Db, slot: Uuid, user: Uuid, fault: Fault) {
    var taken := exists b :: b in at.bookings && at.bookings[b].slotId == slot && at.bookings[b].status.Active?;
    var contested := exists u :: u in at.txs && at.txs[u].change.Some? && at.txs[u].change.value.slotId == slot;
    var granted := !fault.StatementFails? && !contested && !taken && slot in at.slots && user in at.users;
    && (r.AlreadyBooked? <==> !fault.StatementFails? && !contested && taken)
    && (r.SlotNotFound? <==> !fault.StatementFails? && !contested && !taken && slot !in at.slots)
    && (committed <==> granted && !fault.OutboxFails? && !fault.CommitFails?)
    && (r.Created? <==> committed && !fault.CommitUnheard?)
    && !r.SlotInPast?
  }

  lemma VerdictAnswers(r: CreateResult, verdict: InsertVerdict, made: Uuid, committed: bool, fault: Fault,
                       at: Db, after: Db, slot: Uuid, user: Uuid)
    requires Follows(r, verdict, made, committed, fault, at, after, slot, user) && verdict == VerdictOf(at, slot, user)
    ensures AnswersCreate(r, committed, at, slot, user, fault)
  {
  }

  // Which link the caller gets, and which is stored, the link update having met the database `linked`: the one
  // asked for, unless an error or the row lock of a cancel under way stands in the way.
  ghost predicate AnswersLink(r: CreateResult, link: Option<string>, fault: Fault, linked: Db, after: Db) {
    r.Created? ==>
      var id := r.booking.id;
      var locked := exists u :: u in linked.txs && linked.txs[u].op.CancelOp? && linked.txs[u].change.Some?
                                && linked.txs[u].change.value.id == id;
      var stores := link.Some? && !fault.LinkFails? && !locked;
      && r.booking.link == (if stores && !fault.LinkUnheard? then link else None)
      && (if stores then id in after.bookings && after.bookings[id].link == link else after == linked)
  }

  // What the caller gets back: active, without a link yet.
  predicate JustBooked(b: Booking, slot: Uuid, user: Uuid) {
    b.slotId == slot && b.userId == user && b.status.Active? && b.link.None?
  }

  // A cancelled booking of this user, announced as cancelled.
  ghost predicate IsCancelledOf(db: Db, id: Uuid, user: Uuid) {
    && id in db.bookings
    && db.bookings[id].userId == user && db.bookings[id].status.Cancelled?
    && HasRow(db.outbox, id, BookingCancelled)
  }

  lemma RowStays(db: Db, db': Db, b: Uuid, ty: EventType)
    requires Evolves(db, db') && HasRow(db.outbox, b, ty)
    ensures HasRow(db'.outbox, b, ty)
  {
    var r :| r in db.outbox && IsEventOf(db.outbox[r].payload, b, ty);
    assert RowEvolves(db.outbox[r], db'.outbox[r]);
  }

  lemma BookedStays(db: Db, db': Db, b: Booking, slot: Uuid, user: Uuid)
    requires Evolves(db, db') && b.id in db.bookings && db.bookings[b.id] == b && JustBooked(b, slot, user)
    requires HasRow(db.outbox, b.id, BookingCreated)
    ensures IsBookedFor(db', b.id, slot, user) && db'.bookings[b.id].createdAt == b.createdAt
  {
    RowStays(db, db', b.id, BookingCreated);
  }

  // ---------- the statements of a transaction, each followed by anything the others do ----------

  method BeginTx(conn: Connection, t: nat, op: Op)
    requires conn.Valid() && t !in conn.db.txs
    modifies conn
    ensures conn.Valid() && Evolves(old(conn.db), conn.db)
    ensures t in conn.db.txs && conn.db.txs[t] == Fresh(op, conn.db.txs[t].begun)
    ensures (t in conn.commits <==> t in old(conn.commits)) && conn.pauses >= old(conn.pauses)
  {
    conn.Exec(Begin(t, op));
    ghost var mid := conn.db;
    conn.Others(t);
    EvolvesTransitive(old(conn.db), mid, conn.db);
  }

  method RollbackTx(conn: Connection, t: nat)
    requires conn.Valid() && t in conn.db.txs
    modifies conn
    ensures conn.Valid() && Evolves(old(conn.db), conn.db) && t !in conn.db.txs
    ensures conn.db.bookings == old(conn.db.bookings) && conn.db.outbox == old(conn.db.outbox)
    ensures (t in conn.commits <==> t in old(conn.commits)) && conn.pauses == old(conn.pauses)
  {
    conn.Exec(Rollback(t));
  }

  // INSERT INTO outbox ... SELECT ... JOIN: the foreign keys make the join yield exactly one row.
  method InsertOutboxRow(conn: Connection, t: nat)
    requires conn.Valid() && t in conn.db.txs && conn.db.txs[t].change.Some? && !conn.db.txs[t].announced
    modifies conn
    ensures conn.Valid() && Evolves(old(conn.db), conn.db)
    ensures t in conn.db.txs
    ensures conn.db.txs[t] == old(conn.db.txs[t]).(announced := true, row := conn.db.txs[t].row)
    ensures conn.db.txs[t].row.Some?
    ensures t in conn.commits <==> t in old(conn.commits)
  {
    var rowId := conn.NewUuid();
    AnnouncementIsNeverEmpty(conn.db, t, rowId);
    conn.Exec(InsertOutbox(t, rowId));
    ghost var mid := conn.db;
    conn.Others(t);
    EvolvesTransitive(old(conn.db), mid, conn.db);
  }

  // Both rows become visible at once.
  method CommitTx(conn: Connection, t: nat) returns (ghost at: Db)
    requires conn.Valid() && t in conn.db.txs && conn.db.txs[t].change.Some? && conn.db.txs[t].announced
    modifies conn
    ensures conn.Valid() && Evolves(old(conn.db), conn.db) && Evolves(at, conn.db) && t !in conn.db.txs
    ensures IsOutcomeOf(at, old(conn.db.txs[t]))
    ensures t in conn.commits
  {
    CommitsAnnounce(conn.db, t);
    conn.Exec(Commit(t));
    at := conn.db;
    conn.Others(t);
    EvolvesTransitive(old(conn.db), at, conn.db);
  }

  // The transaction's booking version is committed, with its announcement.
  ghost predicate IsOutcomeOf(db: Db, tx: Tx)
    requires tx.change.Some?
  {
    && tx.change.value.id in db.bookings && db.bookings[tx.change.value.id] == tx.change.value
    && HasRow(db.outbox, tx.change.value.id, TypeOf(tx.op))
  }

  // The rest of both transactions once the booking row is written: the outbox row and COMMIT, or ROLLBACK.
  method AnnounceAndCommit(conn: Connection, t: nat, fault: Fault) returns (ok: bool, ghost at: Db)
    requires conn.Valid() && t in conn.db.txs && conn.db.txs[t].change.Some? && !conn.db.txs[t].announced
    requires t !in conn.commits
    modifies conn
    ensures conn.Valid() && Evolves(old(conn.db), conn.db) && Evolves(at, conn.db) && t !in conn.db.txs
    ensures t in conn.commits <==> !fault.OutboxFails? && !fault.CommitFails?
    ensures t in conn.commits ==> IsOutcomeOf(at, old(conn.db.txs[t]))
    ensures ok <==> t in conn.commits && !fault.CommitUnheard?
  {
    if fault.OutboxFails? {
      RollbackTx(conn, t);
      return false, conn.db;
    }
    InsertOutboxRow(conn, t);
    ghost var announced := conn.db;
    if fault.CommitFails? {
      RollbackTx(conn, t);
      ok, at := false, conn.db;
    } else {
      at := CommitTx(conn, t);
      ok := !fault.CommitUnheard?;
    }
    EvolvesTransitive(old(conn.db), announced, conn.db);
  }

  // ---------- create ----------

  // The INSERT waits while another transaction's uncommitted version holds the slot, until patience runs out.
  method AwaitVerdict(conn: Connection, t: nat, slot: Uuid, user: Uuid, patience: nat)
    requires conn.Valid() && t in conn.db.txs
    modifies conn
    ensures conn.Valid() && Evolves(old(conn.db), conn.db)
    ensures t in conn.db.txs && conn.db.txs[t] == old(conn.db.txs[t])
    ensures t in conn.commits <==> t in old(conn.commits)
    ensures conn.pauses >= old(conn.pauses)
    ensures VerdictOf(conn.db, slot, user).Waits? ==> conn.pauses == old(conn.pauses) + patience
  {
    for i := 0 to patience
      invariant t in conn.commits <==> t in old(conn.commits)
      invariant conn.Valid() && Evolves(old(conn.db), conn.db) && conn.pauses == old(conn.pauses) + i
      invariant t in conn.db.txs && conn.db.txs[t] == old(conn.db.txs[t])
    {
      if !VerdictOf(conn.db, slot, user).Waits? {
        break;
      }
      ghost var mid := conn.db;
      conn.Others(t);
      EvolvesTransitive(old(conn.db), mid, conn.db);
    }
  }

  // BEGIN and the INSERT up to its decision.
  method BeginAndAwait(conn: Connection, t: nat, slot: Uuid, user: Uuid, patience: nat) returns (verdict: InsertVerdict)
    requires conn.Valid() && t !in conn.db.txs
    modifies conn
    ensures conn.Valid() && Evolves(old(conn.db), conn.db)
    ensures t in conn.db.txs && conn.db.txs[t] == Fresh(CreateOp(slot, user), conn.db.txs[t].begun)
    ensures verdict == VerdictOf(conn.db, slot, user)
    ensures verdict.Waits? ==> conn.pauses >= old(conn.pauses) + patience
    ensures t in conn.commits <==> t in old(conn.commits)
  {
    BeginTx(conn, t, CreateOp(slot, user));
    ghost var begun := conn.db;
    AwaitVerdict(conn, t, slot, user, patience);
    EvolvesTransitive(old(conn.db), begun, conn.db);
    verdict := VerdictOf(conn.db, slot, user);
  }

  method InsertBookingRow(conn: Connection, t: nat) returns (b: Booking)
    requires conn.Valid() && t in conn.db.txs && conn.db.txs[t].op.CreateOp?
    requires conn.db.txs[t].change.None? && !conn.db.txs[t].announced
    requires VerdictOf(conn.db, conn.db.txs[t].op.slotId, conn.db.txs[t].op.userId).Inserted?
    modifies conn
    ensures conn.Valid() && Evolves(old(conn.db), conn.db)
    ensures t in conn.db.txs && conn.db.txs[t] == old(conn.db.txs[t]).(change := Some(b))
    ensures JustBooked(b, conn.db.txs[t].op.slotId, conn.db.txs[t].op.userId)
    ensures b.id !in old(conn.db.bookings)
    ensures t in conn.commits <==> t in old(conn.commits)
  {
    var id := conn.NewUuid();
    conn.Exec(InsertBooking(t, id));
    b := conn.db.txs[t].change.value;
    ghost var mid := conn.db;
    conn.Others(t);
    EvolvesTransitive(old(conn.db), mid, conn.db);
  }

  // The error codes of the failed INSERT.
  function ErrorOf(verdict: InsertVerdict): CreateResult {
    match verdict
    case UniqueViolation => AlreadyBooked
    case SlotMissing => SlotNotFound
    case _ => CreateFailed
  }

  // `at` is the database at the moment the INSERT decides, `verdict` what it decides there; `made` the new booking.
  method RepoCreateBooking(conn: Connection, t: nat, slot: Uuid, user: Uuid, patience: nat, fault: Fault)
    returns (r: CreateResult, ghost at: Db, ghost verdict: InsertVerdict, ghost made: Uuid)
    requires conn.Valid() && t !in conn.db.txs && t !in conn.commits
    modifies conn
    ensures conn.Valid() && Evolves(old(conn.db), conn.db) && t !in conn.db.txs
    ensures Evolves(old(conn.db), at) && Evolves(at, conn.db) && verdict == VerdictOf(at, slot, user)
    ensures Follows(r, verdict, made, t in conn.commits, fault, at, conn.db, slot, user)
    ensures AnswersCreate(r, t in conn.commits, at, slot, user, fault)
    ensures verdict.Waits? ==> conn.pauses >= old(conn.pauses) + patience
    ensures r.Created? ==> r.booking.link.None?
  {
    var seen := BeginAndAwait(conn, t, slot, user, patience);
    at, verdict := conn.db, seen;
    r, made := FollowVerdict(conn, t, slot, user, seen, fault);
    EvolvesTransitive(old(conn.db), at, conn.db);
    VerdictAnswers(r, verdict, made, t in conn.commits, fault, at, conn.db, slot, user);
  }

  // What becomes of the transaction once the INSERT has decided.
  method FollowVerdict(conn: Connection, t: nat, slot: Uuid, user: Uuid, verdict: InsertVerdict, fault: Fault)
    returns (r: CreateResult, ghost made: Uuid)
    requires conn.Valid() && t in conn.db.txs && conn.db.txs[t] == Fresh(CreateOp(slot, user), conn.db.txs[t].begun)
    requires t !in conn.commits && (verdict.Inserted? ==> VerdictOf(conn.db, slot, user).Inserted?)
    modifies conn
    ensures conn.Valid() && Evolves(old(conn.db), conn.db) && t !in conn.db.txs
    ensures Follows(r, verdict, made, t in conn.commits, fault, old(conn.db), conn.db, slot, user)
    ensures verdict.Waits? ==> conn.pauses == old(conn.pauses)
    ensures r.Created? ==> r.booking.link.None?
  {
    made := 0;
    if fault.StatementFails? || !verdict.Inserted? {
      RollbackTx(conn, t);
      return if fault.StatementFails? then CreateFailed else ErrorOf(verdict), made;
    }
    r, made := InsertAndAnnounce(conn, t, slot, user, fault);
  }

  method InsertAndAnnounce(conn: Connection, t: nat, slot: Uuid, user: Uuid, fault: Fault)
    returns (r: CreateResult, ghost made: Uuid)
    requires conn.Valid() && t in conn.db.txs && conn.db.txs[t] == Fresh(CreateOp(slot, user), conn.db.txs[t].begun)
    requires VerdictOf(conn.db, slot, user).Inserted? && t !in conn.commits
    modifies conn
    ensures conn.Valid() && Evolves(old(conn.db), conn.db) && t !in conn.db.txs
    ensures t in conn.commits ==> BookedSince(old(conn.db), conn.db, made, slot, user)
    ensures r.Created? || r.CreateFailed?
    ensures r.Created? ==> r.booking.id == made && JustBooked(r.booking, slot, user)
                           && made in conn.db.bookings && r.booking.createdAt == conn.db.bookings[made].createdAt
    ensures r.Created? <==> t in conn.commits && !fault.CommitUnheard?
    ensures t in conn.commits <==> !fault.OutboxFails? && !fault.CommitFails?
  {
    var b := InsertBookingRow(conn, t);
    ghost var inserted := conn.db;
    var ok; ghost var at;
    ok, at := AnnounceAndCommit(conn, t, fault);
    EvolvesTransitive(old(conn.db), inserted, conn.db);
    if t in conn.commits {
      BookedStays(at, conn.db, b, slot, user);
    }
    made := b.id;
    r := if ok then Created(b) else CreateFailed;
  }

  // ---------- the create request ----------

  // Neither an error nor a cancel's row lock stands in the way.
  predicate LinkTakesEffect(fault: Fault, db: Db, id: Uuid) {
    !fault.LinkFails? && !RowLocked(db, id)
  }

  // The link update waits for the row lock of a cancel in flight; an id nobody has matches no row.
  method UpdateConferenceLink(conn: Connection, t: nat, id: Uuid, link: string, patience: nat, fault: Fault)
    returns (stored: bool, ghost at: Db)
    requires conn.Valid() && t !in conn.db.txs
    modifies conn
    ensures conn.Valid() && Evolves(old(conn.db), conn.db) && Evolves(old(conn.db), at) && t !in conn.db.txs
    ensures stored <==> LinkTakesEffect(fault, at, id) && !fault.LinkUnheard?
    ensures conn.db == if LinkTakesEffect(fault, at, id) && id in at.bookings
                       then at.(bookings := at.bookings[id := at.bookings[id].(link := Some(link))])
                       else at
    ensures RowLocked(at, id) ==> conn.pauses == old(conn.pauses) + patience
    ensures t in conn.commits <==> t in old(conn.commits)
  {
    AwaitUnlocked(conn, t, id, patience);
    at := conn.db;
    var effect := LinkTakesEffect(fault, conn.db, id);
    stored := effect && !fault.LinkUnheard?;
    if effect && id in conn.db.bookings {
      conn.Exec(SetLink(id, link));
      EvolvesTransitive(old(conn.db), at, conn.db);
    }
  }

  method AwaitUnlocked(conn: Connection, t: nat, id: Uuid, patience: nat)
    requires conn.Valid() && t !in conn.db.txs
    modifies conn
    ensures conn.Valid() && Evolves(old(conn.db), conn.db) && t !in conn.db.txs
    ensures t in conn.commits <==> t in old(conn.commits)
    ensures RowLocked(conn.db, id) ==> conn.pauses == old(conn.pauses) + patience
  {
    for i := 0 to patience
      invariant t in conn.commits <==> t in old(conn.commits)
      invariant conn.Valid() && Evolves(old(conn.db), conn.db) && t !in conn.db.txs
      invariant conn.pauses == old(conn.pauses) + i
    {
      if !RowLocked(conn.db, id) {
        break;
      }
      ghost var mid := conn.db;
      conn.Others(t);
      EvolvesTransitive(old(conn.db), mid, conn.db);
    }
  }

  // The repository call, then the optional link-only update, which meets the database `linked`.
  method BookAndLink(conn: Connection, t: nat, slot: Uuid, user: Uuid, patience: nat, fault: Fault,
                     link: Option<string>)
    returns (r: CreateResult, ghost at: Db, ghost verdict: InsertVerdict, ghost made: Uuid, ghost linked: Db)
    requires conn.Valid() && t !in conn.db.txs && t !in conn.commits
    modifies conn
    ensures conn.Valid() && Evolves(old(conn.db), conn.db) && t !in conn.db.txs
    ensures Evolves(old(conn.db), at) && verdict == VerdictOf(at, slot, user)
    ensures Follows(r, verdict, made, t in conn.commits, fault, at, conn.db, slot, user)
    ensures AnswersCreate(r, t in conn.commits, at, slot, user, fault)
    ensures verdict.Waits? ==> conn.pauses >= old(conn.pauses) + patience
    ensures AnswersLink(r, link, fault, linked, conn.db)
  {
    r, at, verdict, made := RepoCreateBooking(conn, t, slot, user, patience, fault);
    linked := conn.db;
    if r.Created? && link.Some? {
      ghost var booked := conn.db;
      var stored;
      stored, linked := UpdateConferenceLink(conn, t, r.booking.id, link.value, patience, fault);
      RowStays(booked, conn.db, r.booking.id, BookingCreated);
      EvolvesTransitive(old(conn.db), booked, conn.db);
      r := Created(r.booking.(link := if stored then link else None));
    }
  }

  // GetSlotByID and the check against the clock come first; `link` is what the conference service returned.
  // `decided` is what the INSERT decided in the database `at`, if the request got that far.
  method CreateBooking(conn: Connection, t: nat, slot: Uuid, user: Uuid, now: Time, patience: nat, fault: Fault,
                       link: Option<string>)
    returns (r: CreateResult, ghost at: Db, ghost decided: Option<InsertVerdict>, ghost made: Uuid, ghost linked: Db)
    requires conn.Valid() && t !in conn.db.txs && t !in conn.commits
    modifies conn
    ensures conn.Valid() && t !in conn.db.txs
    ensures decided.None? <==> fault.ReadFails? || !Bookable(old(conn.db), slot, now)
    ensures decided.Some? ==> Evolves(old(conn.db), at) && decided.value == VerdictOf(at, slot, user)
    ensures r.SlotNotFound? <==> !fault.ReadFails? && slot !in old(conn.db.slots)
    ensures r.SlotInPast? <==>
              !fault.ReadFails? && slot in old(conn.db.slots) && old(conn.db.slots[slot]).startAt < now
    ensures decided.Some? ==> Follows(r, decided.value, made, t in conn.commits, fault, at, conn.db, slot, user)
    ensures decided.Some? ==> AnswersCreate(r, t in conn.commits, at, slot, user, fault)
    ensures decided == Some(Waits) ==> conn.pauses >= old(conn.pauses) + patience
    ensures decided.None? ==> !r.Created? && !r.AlreadyBooked? && t !in conn.commits
    ensures AnswersLink(r, link, fault, linked, conn.db)
  {
    at, decided, made, linked := conn.db, None, 0, conn.db;
    if fault.ReadFails? {
      return CreateFailed, at, decided, made, linked;
    }
    if slot !in conn.db.slots {
      return SlotNotFound, at, decided, made, linked;
    }
    if conn.db.slots[slot].startAt < now {
      return SlotInPast, at, decided, made, linked;
    }
    ghost var verdict;
    r, at, verdict, made, linked := BookKnownSlot(conn, t, slot, user, patience, fault, link);
    decided := Some(verdict);
  }

  predicate Bookable(db: Db, slot: Uuid, now: Time) {
    slot in db.slots && now <= db.slots[slot].startAt
  }

  // A slot once read is never missing at the INSERT.
  method BookKnownSlot(conn: Connection, t: nat, slot: Uuid, user: Uuid, patience: nat, fault: Fault,
                       link: Option<string>)
    returns (r: CreateResult, ghost at: Db, ghost verdict: InsertVerdict, ghost made: Uuid, ghost linked: Db)
    requires conn.Valid() && t !in conn.db.txs && t !in conn.commits && slot in conn.db.slots
    modifies conn
    ensures conn.Valid() && t !in conn.db.txs
    ensures Evolves(old(conn.db), at) && verdict == VerdictOf(at, slot, user)
    ensures Follows(r, verdict, made, t in conn.commits, fault, at, conn.db, slot, user)
    ensures AnswersCreate(r, t in conn.commits, at, slot, user, fault)
    ensures verdict.Waits? ==> conn.pauses >= old(conn.pauses) + patience
    ensures AnswersLink(r, link, fault, linked, conn.db)
    ensures !r.SlotNotFound?
  {
    conn.Others(t);
    ghost var mid := conn.db;
    r, at, verdict, made, linked := BookAndLink(conn, t, slot, user, patience, fault, link);
    EvolvesTransitive(old(conn.db), mid, at);
    StaysStored(old(conn.db), at, slot, user);
  }

  lemma StaysStored(db: Db, db': Db, slot: Uuid, user: Uuid)
    requires Evolves(db, db') && slot in db.slots
    ensures !VerdictOf(db', slot, user).SlotMissing?
  {
  }

  // ---------- cancel ----------

  // The cancelling UPDATE waits while another cancel of the same booking is uncommitted.
  method AwaitRow(conn: Connection, t: nat, id: Uuid, patience: nat)
    requires conn.Valid() && t in conn.db.txs
    modifies conn
    ensures conn.Valid() && Evolves(old(conn.db), conn.db)
    ensures t in conn.db.txs && conn.db.txs[t] == old(conn.db.txs[t])
    ensures t in conn.commits <==> t in old(conn.commits)
    ensures RowLocked(conn.db, id) ==> conn.pauses == old(conn.pauses) + patience
  {
    for i := 0 to patience
      invariant t in conn.commits <==> t in old(conn.commits)
      invariant conn.Valid() && Evolves(old(conn.db), conn.db) && conn.pauses == old(conn.pauses) + i
      invariant t in conn.db.txs && conn.db.txs[t] == old(conn.db.txs[t])
    {
      if !RowLocked(conn.db, id) {
        break;
      }
      ghost var mid := conn.db;
      conn.Others(t);
      EvolvesTransitive(old(conn.db), mid, conn.db);
    }
  }

  // UPDATE, INSERT INTO outbox, COMMIT of a cancel whose WHERE clause matches.
  method UpdateAndCommit(conn: Connection, t: nat, fault: Fault) returns (r: CancelResult)
    requires conn.Valid() && t in conn.db.txs && conn.db.txs[t].op.CancelOp?
    requires conn.db.txs[t].change.None? && !conn.db.txs[t].announced
    requires Enabled(conn.db, UpdateBooking(t))
    requires t !in conn.commits
    modifies conn
    ensures conn.Valid() && Evolves(old(conn.db), conn.db) && t !in conn.db.txs
    ensures var op := old(conn.db.txs[t]).op;
            && (t in conn.commits ==> IsCancelledOf(conn.db, op.bookingId, op.userId))
            && (r.CancelDone? ==> r.booking == old(conn.db.bookings)[op.bookingId].(status := Cancelled))
            && (r.CancelDone? ==> r.booking.id == op.bookingId)
    ensures r.CancelDone? || r.CancelFailed?
    ensures t in conn.commits <==> !fault.OutboxFails? && !fault.CommitFails?
    ensures r.CancelDone? <==> t in conn.commits && !fault.CommitUnheard?
  {
    StoredBooking(conn.db, conn.db.txs[t].op.bookingId);
    conn.Exec(UpdateBooking(t));
    var b := conn.db.txs[t].change.value;
    ghost var updated := conn.db;
    var ok; ghost var at;
    ok, at := AnnounceAndCommit(conn, t, fault);
    EvolvesTransitive(old(conn.db), updated, conn.db);
    if t in conn.commits {
      RowStays(at, conn.db, b.id, BookingCancelled);
    }
    r := if ok then CancelDone(b) else CancelFailed;
  }

  // `diagnoseCancelFailure`: a separate SELECT, outside the transaction.
  method Diagnose(conn: Connection, id: Uuid, user: Uuid, fault: Fault) returns (r: CancelResult)
    ensures r.CancelDone? <==> !fault.ReadFails? && id in conn.db.bookings && conn.db.bookings[id].userId == user
    ensures r.CancelDone? ==> r.booking == conn.db.bookings[id]
    ensures r.CancelFailed? <==> fault.ReadFails?
  {
    if fault.ReadFails? {
      return CancelFailed;
    }
    if id !in conn.db.bookings {
      return BookingNotFound;
    }
    var existing := conn.db.bookings[id];
    if existing.userId != user {
      return BookingNotFound;
    }
    r := CancelDone(existing);
  }

  // The transaction is over before the SELECT; anything may happen between the two.
  method RollbackAndDiagnose(conn: Connection, t: nat, id: Uuid, user: Uuid, fault: Fault) returns (r: CancelResult)
    requires conn.Valid() && t in conn.db.txs
    modifies conn
    ensures conn.Valid() && Evolves(old(conn.db), conn.db) && t !in conn.db.txs
    ensures t in conn.commits <==> t in old(conn.commits)
    ensures r.CancelDone? <==> !fault.ReadFails? && id in conn.db.bookings && conn.db.bookings[id].userId == user
    ensures r.CancelDone? ==> r.booking == conn.db.bookings[id]
    ensures r.CancelFailed? <==> fault.ReadFails?
  {
    RollbackTx(conn, t);
    ghost var mid := conn.db;
    conn.Others(t);
    EvolvesTransitive(old(conn.db), mid, conn.db);
    r := Diagnose(conn, id, user, fault);
  }

  // What the tables say the answer to a cancel must be, and whether it commits: `at` is what the UPDATE met, `after`
  // what the diagnosis of an UPDATE that matched nothing read.
  ghost predicate AnswersCancel(r: CancelResult, committed: bool, at: Db, after: Db, id: Uuid, user: Uuid,
                                fault: Fault) {
    var locked := exists u :: u in at.txs && at.txs[u].op.CancelOp? && at.txs[u].change.Some?
                              && at.txs[u].change.value.id == id;
    var runs := !fault.StatementFails? && !locked;
    var matches := id in at.bookings && at.bookings[id].status.Active? && at.bookings[id].userId == user;
    var owned := id in after.bookings && after.bookings[id].userId == user;
    && (committed <==> runs && matches && !fault.OutboxFails? && !fault.CommitFails?)
    && (r.CancelDone? <==> if matches then committed && !fault.CommitUnheard? else runs && !fault.ReadFails? && owned)
    && (r.CancelDone? ==>
          r.booking == if matches then at.bookings[id].(status := Cancelled) else after.bookings[id])
    && (r.BookingNotFound? <==> runs && !matches && !fault.ReadFails? && !owned)
  }

  // `at` is the database the UPDATE saw.
  method CancelBooking(conn: Connection, t: nat, id: Uuid, user: Uuid, patience: nat, fault: Fault)
    returns (r: CancelResult, ghost at: Db)
    requires conn.Valid() && t !in conn.db.txs && t !in conn.commits
    modifies conn
    ensures conn.Valid() && Evolves(old(conn.db), conn.db) && Evolves(old(conn.db), at) && t !in conn.db.txs
    // For an id committed before the call, success means cancelled, announced and owned, whatever ran in between.
    ensures r.CancelDone? && id in old(conn.db.bookings) ==>
              r.booking.id == id && r.booking.userId == user && r.booking.status.Cancelled?
              && IsCancelledOf(conn.db, id, user)
    // Only an active booking of the caller is ever written; in every other case nothing is committed.
    ensures t in conn.commits ==> Cancellable(at, id, user) && IsCancelledOf(conn.db, id, user)
    ensures AnswersCancel(r, t in conn.commits, at, conn.db, id, user, fault)
    ensures RowLocked(at, id) ==> conn.pauses >= old(conn.pauses) + patience
    ensures id in old(conn.db.bookings) && old(conn.db.bookings)[id].userId != user ==>
              t !in conn.commits && !r.CancelDone? && (fault.NoFault? && !RowLocked(at, id) ==> r.BookingNotFound?)
    ensures id in old(conn.db.bookings) && old(conn.db.bookings)[id].status.Cancelled? ==> t !in conn.commits
    ensures fault.NoFault? && !RowLocked(at, id) && id in old(conn.db.bookings) ==>
              (r.CancelDone? <==> old(conn.db.bookings)[id].userId == user)
  {
    ghost var known := id in conn.db.bookings;
    BeginTx(conn, t, CancelOp(id, user));
    ghost var begun := conn.db;
    AwaitRow(conn, t, id, patience);
    at := conn.db;
    EvolvesTransitive(old(conn.db), begun, at);
    if fault.StatementFails? || RowLocked(conn.db, id) {
      RollbackTx(conn, t);
      EvolvesTransitive(old(conn.db), at, conn.db);
      return CancelFailed, at;
    }
    if Cancellable(conn.db, id, user) {
      r := UpdateAndCommit(conn, t, fault);
      EvolvesTransitive(old(conn.db), at, conn.db);
      return;
    }
    r := RollbackAndDiagnose(conn, t, id, user, fault);
    EvolvesTransitive(old(conn.db), at, conn.db);
    if known {
      StoredBooking(conn.db, id);
    }
  }
}
