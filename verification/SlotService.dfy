/** Listing a day's free slots: the slot table is filled on demand, and nobody can tell. */
module SlotService {
  import opened Domain
  import opened SlotCalendar
  import opened BookingDb
  import opened BookingDbProofs
  import opened Database

  // ---------- the eager reference ----------

  // Somebody holds an active booking of this room at this time.
  predicate Booked(db: Db, room: Uuid, startAt: Time) {
    exists i :: i in db.slots && db.slots[i].roomId == room && db.slots[i].startAt == startAt && HeldByActive(db, i)
  }

  // The free windows of the day from the `k`-th on, straight from the schedule.
  ghost function FreeFrom(db: Db, room: Uuid, s: Schedule, day: int, k: nat): (starts: seq<Time>)
    requires k <= SlotCount(s.startMin, s.endMin)
    ensures forall x :: x in starts <==>
              exists j :: k <= j < SlotCount(s.startMin, s.endMin)
                          && x == StartOf(day, s.startMin, j) && !Booked(db, room, x)
    ensures forall i :: 0 <= i < |starts| ==> StartOf(day, s.startMin, k) <= starts[i]
    ensures Ascending(starts)
    decreases SlotCount(s.startMin, s.endMin) - k
  {
    if k == SlotCount(s.startMin, s.endMin) then []
    else
      var x := StartOf(day, s.startMin, k);
      var rest := FreeFrom(db, room, s, day, k + 1);
      assert forall i :: 0 <= i < |rest| ==> x < rest[i];
      if Booked(db, room, x) then rest else [x] + rest
  }

  // What a table filled in advance with the whole schedule would answer for this day.
  ghost function EagerStarts(db: Db, room: Uuid, day: int): seq<Time> {
    if room in db.schedules && IsDayInSchedule(day, db.schedules[room].days)
    then FreeFrom(db, room, db.schedules[room], day, 0)
    else []
  }

  // Written out: on a weekday of the schedule, the half hours from its start that end within it and that nobody holds
  // an active booking of.
  lemma EagerExactly(db: Db, room: Uuid, day: int, x: Time)
    ensures x in EagerStarts(db, room, day) <==>
              && room in db.schedules && (day + 3) % 7 + 1 in db.schedules[room].days
              && day * 1440 + db.schedules[room].startMin <= x && x + 30 <= day * 1440 + db.schedules[room].endMin
              && (x - day * 1440 - db.schedules[room].startMin) % 30 == 0
              && !(exists b :: b in db.bookings && db.bookings[b].status.Active? && db.bookings[b].slotId in db.slots
                               && db.slots[db.bookings[b].slotId].roomId == room
                               && db.slots[db.bookings[b].slotId].startAt == x)
  {
    BookedExactly(db, room, x);
    if room in db.schedules {
      var s := db.schedules[room];
      IsoWeekdayIsWeekly(day, day, s.days);
      var k := (x - day * 1440 - s.startMin) / 30;
      assert (x - day * 1440 - s.startMin) % 30 == 0 ==> x == StartOf(day, s.startMin, k);
    }
  }

  lemma BookedExactly(db: Db, room: Uuid, x: Time)
    ensures Booked(db, room, x) <==>
              exists b :: b in db.bookings && db.bookings[b].status.Active? && db.bookings[b].slotId in db.slots
                          && db.slots[db.bookings[b].slotId].roomId == room
                          && db.slots[db.bookings[b].slotId].startAt == x
  {
  }

  lemma {:induction false} AscendingIsUnique(xs: seq<int>, ys: seq<int>)
    requires Ascending(xs) && Ascending(ys)
    requires forall x :: x in xs <==> x in ys
    ensures xs == ys
    decreases |xs|
  {
    forall i | 0 <= i < |ys|
      ensures ys[i] in xs
    {
      assert ys[i] in ys;
    }
    assert |ys| > 0 ==> ys[0] in xs;
    if xs != [] {
      assert xs[0] in ys && ys[0] in xs;
      assert xs[0] == ys[0];
      forall x
        ensures x in xs[1..] <==> x in ys[1..]
      {
        assert x in xs[1..] <==> x in xs && x != xs[0];
        assert x in ys[1..] <==> x in ys && x != ys[0];
      }
      AscendingIsUnique(xs[1..], ys[1..]);
    }
  }

  // ---------- the lazy table ----------

  // The anti-join of slots with active bookings, by room and time range, in order of start.
  ghost predicate IsListing(db: Db, room: Uuid, from: Time, to: Time, rows: seq<Slot>) {
    && (forall i, j :: 0 <= i < j < |rows| ==> rows[i].startAt < rows[j].startAt)
    && (forall i :: 0 <= i < |rows| ==> Free(db, room, from, to, rows[i]))
    && (forall s :: Free(db, room, from, to, s) ==> s in rows)
  }

  predicate Free(db: Db, room: Uuid, from: Time, to: Time, s: Slot) {
    && s.id in db.slots && db.slots[s.id] == s
    && s.roomId == room && from <= s.startAt < to
    && !HeldByActive(db, s.id)
  }

  function StartsOf(rows: seq<Slot>): seq<Time> {
    seq(|rows|, i requires 0 <= i < |rows| => rows[i].startAt)
  }

  // Every window of the day is stored.
  ghost predicate DayFilled(db: Db, room: Uuid, day: int) {
    room in db.schedules && IsDayInSchedule(day, db.schedules[room].days) ==>
      var s := db.schedules[room];
      forall k :: 0 <= k < SlotCount(s.startMin, s.endMin) ==> SlotStored(db.slots, room, StartOf(day, s.startMin, k))
  }

  lemma FilledStays(db: Db, db': Db, room: Uuid, day: int)
    requires room in db.schedules && DayFilled(db, room, day) && Evolves(db, db')
    ensures DayFilled(db', room, day)
  {
    if IsDayInSchedule(day, db.schedules[room].days) {
      var s := db.schedules[room];
      forall k | 0 <= k < SlotCount(s.startMin, s.endMin)
        ensures SlotStored(db'.slots, room, StartOf(day, s.startMin, k))
      {
        StoredIsKept(db.slots, db'.slots, room, StartOf(day, s.startMin, k));
      }
    }
  }

  // Once the day is filled, the query answers what the eager table would, whatever is booked.
  lemma LazyEqualsEager(db: Db, room: Uuid, day: int, rows: seq<Slot>)
    requires DbInv(db) && room in db.schedules && DayFilled(db, room, day)
    requires IsListing(db, room, day * DAY_MINUTES, (day + 1) * DAY_MINUTES, rows)
    ensures StartsOf(rows) == EagerStarts(db, room, day)
    ensures forall i :: 0 <= i < |rows| ==> rows[i].endAt == rows[i].startAt + SLOT_MINUTES
  {
    var s, starts := db.schedules[room], StartsOf(rows);
    forall x
      ensures x in starts <==> x in EagerStarts(db, room, day)
    {
      if x in starts {
        var i :| 0 <= i < |rows| && rows[i].startAt == x;
        ListedIsEager(db, room, day, rows[i]);
      }
      if x in EagerStarts(db, room, day) {
        var id := EagerIsFree(db, room, day, x);
        var i :| 0 <= i < |rows| && rows[i] == db.slots[id];
        assert starts[i] == x;
      }
    }
    AscendingIsUnique(starts, EagerStarts(db, room, day));
  }

  lemma ListedIsEager(db: Db, room: Uuid, day: int, row: Slot)
    requires DbInv(db) && room in db.schedules
    requires Free(db, room, day * DAY_MINUTES, (day + 1) * DAY_MINUTES, row)
    ensures row.startAt in EagerStarts(db, room, day)
  {
    var s := db.schedules[room];
    assert row.startAt / DAY_MINUTES == day;
    GeneratedAreWindows(s, day, row.startAt);
  }

  lemma EagerIsFree(db: Db, room: Uuid, day: int, x: Time) returns (id: Uuid)
    requires DbInv(db) && room in db.schedules && DayFilled(db, room, day)
    requires x in EagerStarts(db, room, day)
    ensures id in db.slots && db.slots[id].startAt == x
    ensures Free(db, room, day * DAY_MINUTES, (day + 1) * DAY_MINUTES, db.slots[id])
  {
    var s := db.schedules[room];
    GeneratedAreWindows(s, day, x);
    assert SlotStored(db.slots, room, x);
    id :| id in db.slots && db.slots[id].roomId == room && db.slots[id].startAt == x;
  }

  // The id a (room, start) got first is its id for good.
  lemma SlotIdNeverChanges(db: Db, steps: seq<DbStep>, db': Db, i: Uuid, j: Uuid)
    requires DbInv(db) && Runs(db, steps, db')
    requires i in db.slots && j in db'.slots
    requires db.slots[i].roomId == db'.slots[j].roomId && db.slots[i].startAt == db'.slots[j].startAt
    ensures i == j && db'.slots[j] == db.slots[i]
  {
    RunsKeep(db, steps, db');
    assert i in db'.slots && db'.slots[i] == db.slots[i];
  }

  // ---------- the code ----------

  // INSERT ... SELECT * FROM unnest(...) ON CONFLICT DO NOTHING, unless there is nothing to insert.
  method EnsureSlotRows(conn: Connection, slots: seq<Slot>)
    requires conn.Valid() && Enabled(conn.db, EnsureSlots(slots))
    modifies conn
    ensures conn.Valid() && Evolves(old(conn.db), conn.db)
    ensures conn.db == old(conn.db).(slots := InsertAbsent(old(conn.db.slots), slots))
    ensures forall i :: 0 <= i < |slots| ==> SlotStored(conn.db.slots, slots[i].roomId, slots[i].startAt)
  {
    if |slots| == 0 {
      return;
    }
    var rows := ThroughColumns(slots);
    ReachableInv(conn.db);
    InsertAbsentIsLazyFill(conn.db.schedules, conn.db.slots, slots);
    conn.Exec(EnsureSlots(rows));
  }

  // The four column slices filled by index, unnested, are the rows again.
  method ThroughColumns(slots: seq<Slot>) returns (rows: seq<Slot>)
    ensures rows == slots
  {
    var n := |slots|;
    var ids, roomIds, starts, ends := new Uuid[n], new Uuid[n], new Time[n], new Time[n];
    for i := 0 to n
      invariant forall k :: 0 <= k < i ==> Slot(ids[k], roomIds[k], starts[k], ends[k]) == slots[k]
    {
      ids[i] := slots[i].id;
      roomIds[i] := slots[i].roomId;
      starts[i] := slots[i].startAt;
      ends[i] := slots[i].endAt;
    }
    rows := Unnest(ids[..], roomIds[..], starts[..], ends[..]);
  }

  function Unnest(ids: seq<Uuid>, roomIds: seq<Uuid>, starts: seq<Time>, ends: seq<Time>): (rows: seq<Slot>)
    requires |ids| == |roomIds| == |starts| == |ends|
    ensures |rows| == |ids|
    ensures forall i :: 0 <= i < |rows| ==> rows[i] == Slot(ids[i], roomIds[i], starts[i], ends[i])
  {
    seq(|ids|, i requires 0 <= i < |ids| => Slot(ids[i], roomIds[i], starts[i], ends[i]))
  }

  // Rows of one room differ in their start.
  lemma FreeStartsDiffer(db: Db, room: Uuid, from: Time, to: Time, a: Slot, b: Slot)
    requires SlotRowsOk(db.schedules, db.slots) && Free(db, room, from, to, a) && Free(db, room, from, to, b) && a != b
    ensures a.startAt != b.startAt
  {
  }

  // The SELECT: the database hands out the matching rows in order of start, the loop appends them.
  method ListAvailableByRoomAndDate(conn: Connection, room: Uuid, from: Time, to: Time) returns (result: seq<Slot>)
    requires conn.Valid()
    ensures IsListing(conn.db, room, from, to, result)
  {
    var db := conn.db;
    ReachableInv(db);
    var rows := set i | i in db.slots && Free(db, room, from, to, db.slots[i]) :: db.slots[i];
    assert forall s :: s in rows <==> Free(db, room, from, to, s);
    forall a, b | a in rows && b in rows && a != b
      ensures a.startAt != b.startAt
    {
      FreeStartsDiffer(db, room, from, to, a, b);
    }
    result := InOrderOfStart(rows);
  }

  method InOrderOfStart(rows: set<Slot>) returns (result: seq<Slot>)
    requires forall a, b :: a in rows && b in rows && a != b ==> a.startAt != b.startAt
    ensures forall i, j :: 0 <= i < j < |result| ==> result[i].startAt < result[j].startAt
    ensures forall s :: s in result <==> s in rows
  {
    result := [];
    var rest := rows;
    while rest != {}
      invariant rest <= rows
      invariant forall s :: s in rows <==> s in rest || s in result
      invariant forall i, s :: 0 <= i < |result| && s in rest ==> result[i].startAt < s.startAt
      invariant forall i, j :: 0 <= i < j < |result| ==> result[i].startAt < result[j].startAt
      decreases rest
    {
      var next := Earliest(rest);
      result := result + [next];
      rest := rest - {next};
    }
  }

  method Earliest(rows: set<Slot>) returns (first: Slot)
    requires rows != {}
    ensures first in rows && forall s :: s in rows ==> first.startAt <= s.startAt
  {
    first :| first in rows;
    var rest := rows - {first};
    while rest != {}
      invariant rest <= rows && first in rows
      invariant forall s :: s in rows && s !in rest ==> first.startAt <= s.startAt
      decreases rest
    {
      var s :| s in rest;
      if s.startAt < first.startAt {
        first := s;
      }
      rest := rest - {s};
    }
  }

  datatype ListResult = Listed(slots: seq<Slot>) | RoomNotFound | ListFailed

  // Which of the four statements fails, if it is reached.
  // `InsertUnheard` inserts the slots although the caller gets an error.
  datatype ListFault = NothingFails | RoomCheckFails | ScheduleReadFails | InsertFails | InsertUnheard | QueryFails

  // The rows are slots of this room as they are stored.
  predicate AreSlotsOf(db: Db, room: Uuid, rows: seq<Slot>) {
    forall s :: s in rows ==>
      s.roomId == room && s.endAt == s.startAt + 30 && s.id in db.slots && db.slots[s.id] == s
  }

  // `ListAvailableSlots`, with anyone's steps between its statements: the answer is the eager table's
  // answer in the database its last SELECT saw. A failure lists nothing; slots it had inserted stay.
  method ListAvailableSlots(conn: Connection, room: Uuid, day: int, fault: ListFault) returns (r: ListResult)
    requires conn.Valid()
    modifies conn
    ensures conn.Valid() && Evolves(old(conn.db), conn.db)
    ensures r.RoomNotFound? <==> !fault.RoomCheckFails? && room !in old(conn.db).rooms
    ensures r.Listed? ==> StartsOf(r.slots) == EagerStarts(conn.db, room, day)
    ensures r.Listed? ==> AreSlotsOf(conn.db, room, r.slots)
    ensures r.ListFailed? ==> !fault.NothingFails?
    ensures fault.RoomCheckFails? ==> r.ListFailed?
    ensures fault.ScheduleReadFails? ==> r.ListFailed? || r.RoomNotFound?
    ensures (fault.InsertFails? || fault.InsertUnheard? || fault.QueryFails?) && r.Listed? ==> r.slots == []
  {
    if fault.RoomCheckFails? {
      return ListFailed;
    }
    if room !in conn.db.rooms {
      return RoomNotFound;
    }
    conn.Anyone();
    if fault.ScheduleReadFails? {
      return ListFailed;
    }
    assert StartsOf([]) == [];
    if room !in conn.db.schedules {
      return Listed([]);
    }
    var schedule := conn.db.schedules[room];
    if !IsDayInSchedule(day, schedule.days) {
      return Listed([]);
    }
    ghost var read := conn.db;
    r := FillAndList(conn, room, day, schedule, fault);
    EvolvesTransitive(old(conn.db), read, conn.db);
  }

  method FillAndList(conn: Connection, room: Uuid, day: int, schedule: Schedule, fault: ListFault)
    returns (r: ListResult)
    requires conn.Valid() && room in conn.db.schedules && conn.db.schedules[room] == schedule
    requires IsDayInSchedule(day, schedule.days)
    modifies conn
    ensures conn.Valid() && Evolves(old(conn.db), conn.db)
    ensures r.Listed? ==> StartsOf(r.slots) == EagerStarts(conn.db, room, day)
    ensures r.Listed? ==> AreSlotsOf(conn.db, room, r.slots)
    ensures r == ListFailed || r.Listed?
    ensures r.ListFailed? <==> fault.InsertFails? || fault.InsertUnheard? || fault.QueryFails?
  {
    conn.Anyone();
    if fault.InsertFails? {
      return ListFailed;
    }
    ghost var mid := conn.db;
    FillDay(conn, room, day, schedule);
    EvolvesTransitive(old(conn.db), mid, conn.db);
    if fault.InsertUnheard? || fault.QueryFails? {
      return ListFailed;
    }
    var available := ListAvailableByRoomAndDate(conn, room, day * DAY_MINUTES, (day + 1) * DAY_MINUTES);
    ReachableInv(conn.db);
    LazyEqualsEager(conn.db, room, day, available);
    r := Listed(available);
  }

  // Generate the day and insert what is absent; then, whatever anyone does, the day stays filled.
  method FillDay(conn: Connection, room: Uuid, day: int, schedule: Schedule)
    requires conn.Valid() && room in conn.db.schedules && conn.db.schedules[room] == schedule
    requires IsDayInSchedule(day, schedule.days)
    modifies conn
    ensures conn.Valid() && Evolves(old(conn.db), conn.db)
    ensures room in conn.db.schedules && DayFilled(conn.db, room, day)
  {
    ReachableSchedules(conn.db);
    var ids := conn.NewSlotIds(SlotCount(schedule.startMin, schedule.endMin));
    var slots := GenerateSlots(room, day, schedule.startMin, schedule.endMin, ids);
    forall i | 0 <= i < |slots|
      ensures IsWindow(schedule, slots[i].startAt, slots[i].endAt)
    {
      assert slots[i].startAt == StartOf(day, schedule.startMin, i);
      GeneratedAreWindows(schedule, day, slots[i].startAt);
    }
    EnsureSlotRows(conn, slots);
    ghost var filled := conn.db;
    forall k | 0 <= k < SlotCount(schedule.startMin, schedule.endMin)
      ensures SlotStored(filled.slots, room, StartOf(day, schedule.startMin, k))
    {
      assert slots[k].startAt == StartOf(day, schedule.startMin, k);
    }
    conn.Anyone();
    FilledStays(filled, conn.db, room, day);
    EvolvesTransitive(old(conn.db), filled, conn.db);
  }
}
