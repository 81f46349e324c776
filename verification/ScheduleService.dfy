/** Creating a room's one schedule: the request checks, then a single INSERT. */
module ScheduleService {
  import opened Domain
  import opened SlotCalendar
  import opened BookingDb
  import opened BookingDbProofs
  import opened Database

  datatype ScheduleResult =
    | Stored(schedule: Schedule)
    | Refused(reason: Rejection)
    | RoomMissing
    | ScheduleExists
    | StoreFailed

  const INT32_SPAN := 0x1_0000_0000
  const INT32_HALF := 0x8000_0000

  // Go's conversion to int32 keeps the low 32 bits.
  function ToInt32(x: int): int {
    (x + INT32_HALF) % INT32_SPAN - INT32_HALF
  }

  lemma Int32Wraps(x: int)
    ensures -0x8000_0000 <= ToInt32(x) < 0x8000_0000 && (ToInt32(x) - x) % 0x1_0000_0000 == 0
    ensures -0x8000_0000 <= x < 0x8000_0000 ==> ToInt32(x) == x
  {
    var y := x + INT32_HALF;
    assert ToInt32(x) - x == -INT32_SPAN * (y / INT32_SPAN);
  }

  method NarrowDays(days: seq<int>) returns (column: array<int>)
    ensures fresh(column) && column.Length == |days|
    ensures forall i :: 0 <= i < |days| ==> column[i] == ToInt32(days[i])
    ensures GoodDays(days, |days|) ==> column[..] == days
  {
    column := new int[|days|];
    for i := 0 to |days|
      invariant forall k :: 0 <= k < i ==> column[k] == ToInt32(days[k])
    {
      column[i] := ToInt32(days[i]);
    }
  }

  // The row the INSERT asks for.
  function RowOf(s: Schedule): Schedule {
    Schedule(seq(|s.days|, i requires 0 <= i < |s.days| => ToInt32(s.days[i])), s.startMin, s.endMin)
  }

  lemma NarrowKeeps(s: Schedule)
    requires GoodDays(s.days, |s.days|)
    ensures RowOf(s) == s
  {
    forall i | 0 <= i < |s.days|
      ensures ToInt32(s.days[i]) == s.days[i]
    {
      Int32Wraps(s.days[i]);
    }
  }

  // The repository call, with two times of day: a missing room breaks the foreign key, a second schedule the
  // unique constraint, no days or a wrong order the CHECKs.
  method RepoCreateSchedule(conn: Connection, room: Uuid, s: Schedule, reply: Reply) returns (r: ScheduleResult)
    requires conn.Valid() && 0 <= s.startMin < DAY_MINUTES && 0 <= s.endMin < DAY_MINUTES
    modifies conn
    ensures conn.Valid() && Evolves(old(conn.db), conn.db)
    ensures var stores := reply.TakesEffect() && room in old(conn.db.rooms) && room !in old(conn.db.schedules)
                          && s.days != [] && s.startMin < s.endMin;
            && conn.db == old(conn.db).(schedules := if stores then old(conn.db.schedules)[room := RowOf(s)]
                                                     else old(conn.db.schedules))
            && (r.Stored? <==> stores && reply.Answered?)
    ensures r.Stored? ==> r.schedule == RowOf(s) && (GoodDays(s.days, |s.days|) ==> r.schedule == s)
    ensures r.RoomMissing? <==>
              reply.Answered? && s.days != [] && s.startMin < s.endMin && room !in old(conn.db.rooms)
    ensures r.ScheduleExists? <==>
              reply.Answered? && s.days != [] && s.startMin < s.endMin && room in old(conn.db.schedules)
    ensures !r.Refused?
  {
    ReachableSchedules(conn.db);
    var column := NarrowDays(s.days);
    var row := Schedule(column[..], s.startMin, s.endMin);
    assert row == RowOf(s);
    if reply.Failed? || !StorableSchedule(row) {
      return StoreFailed;
    }
    if room in conn.db.schedules || room !in conn.db.rooms {
      r := if reply.FailedUnheard? then StoreFailed
           else if room in conn.db.schedules then ScheduleExists
           else RoomMissing;
      return;
    }
    conn.Exec(AddSchedule(room, row));
    r := if reply.Answered? then Stored(row) else StoreFailed;
  }

  // Whoever comes second meets the constraint: a room has at most one schedule, and it is a valid one. `at` is the
  // database the INSERT met.
  method CreateSchedule(conn: Connection, room: Uuid, days: seq<int>, start: Option<ClockTime>, end: Option<ClockTime>,
                        reply: Reply)
    returns (r: ScheduleResult, ghost at: Db)
    requires conn.Valid()
    requires start.Some? ==> start.value.Valid()
    requires end.Some? ==> end.value.Valid()
    modifies conn
    ensures conn.Valid() && Evolves(old(conn.db), conn.db)
    ensures r.Refused? <==> !Acceptable(days, start, end)
    ensures r.Refused? ==> conn.db == old(conn.db)
    ensures r.Refused? ==> RejectedFor(r.reason, days, start, end)
    ensures !r.Refused? ==>
              var stores := reply.TakesEffect() && room in at.rooms && room !in at.schedules;
              var asked := Schedule(days, 60 * start.value.hour + start.value.minute,
                                    60 * end.value.hour + end.value.minute);
              && Evolves(old(conn.db), at)
              && conn.db == (if stores then at.(schedules := at.schedules[room := asked]) else at)
              && r == if !reply.Answered? then StoreFailed
                      else if room !in at.rooms then RoomMissing
                      else if room in at.schedules then ScheduleExists
                      else Stored(asked)
    ensures r.Stored? ==> room in conn.db.schedules && conn.db.schedules[room] == r.schedule
                          && room !in old(conn.db.schedules)
                          && r.schedule == Schedule(days, start.value.Minutes(), end.value.Minutes())
    ensures room in old(conn.db.schedules) ==>
              room in conn.db.schedules && conn.db.schedules[room] == old(conn.db.schedules[room])
    ensures reply.TakesEffect() && Acceptable(days, start, end) && room in old(conn.db.rooms) ==>
              room in conn.db.schedules
  {
    at := conn.db;
    var v := CheckSchedule(days, start, end);
    if v.Rejected? {
      return Refused(v.reason), at;
    }
    conn.Anyone();
    at := conn.db;
    ReachableSchedules(at);
    NarrowKeeps(v.schedule);
    r := RepoCreateSchedule(conn, room, v.schedule, reply);
    EvolvesTransitive(old(conn.db), at, conn.db);
  }
}
