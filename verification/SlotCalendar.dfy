/** Schedule validation and the generation of a day's 30-minute slots. */
module SlotCalendar {
  import opened Domain

  const SLOT_MINUTES := 30
  const DAY_MINUTES := 1440
  const MIN_DAY := 1
  const MAX_DAY := 7
  const GRANULARITY := 30

  // Day 0 is 1 January 1970, a Thursday; Go numbers Sunday 0 and Saturday 6.
  function GoWeekday(day: int): int {
    (day + 4) % 7
  }

  function IsoWeekday(day: int): int {
    if GoWeekday(day) == 0 then 7 else GoWeekday(day)
  }

  predicate IsDayInSchedule(day: int, days: seq<int>) {
    IsoWeekday(day) in days
  }

  // The weekdays run Monday 1 to Sunday 7 and over again, from Thursday 4 on day 0: two days share one exactly when
  // they are a whole number of weeks apart.
  lemma IsoWeekdayIsWeekly(d: int, e: int, days: seq<int>)
    ensures IsoWeekday(0) == 4 && IsoWeekday(d + 1) == IsoWeekday(d) % 7 + 1
    ensures 1 <= IsoWeekday(d) <= 7 && IsoWeekday(d) == (d + 3) % 7 + 1
    ensures IsoWeekday(d) == IsoWeekday(e) <==> (d - e) % 7 == 0
    ensures IsDayInSchedule(d, days) <==> exists i :: 0 <= i < |days| && days[i] == (d + 3) % 7 + 1
  {
    assert IsoWeekday(d) == (d + 3) % 7 + 1;
  }

  // The first `n` days are ISO weekdays and all different.
  predicate GoodDays(days: seq<int>, n: int)
    requires n <= |days|
  {
    && (forall i :: 0 <= i < n ==> MIN_DAY <= days[i] <= MAX_DAY)
    && (forall i, j :: 0 <= i < j < n ==> days[i] != days[j])
  }

  // What the CHECK constraints and the TIME columns of the table enforce.
  predicate StorableSchedule(s: Schedule) {
    s.days != [] && 0 <= s.startMin < s.endMin < DAY_MINUTES
  }

  // What a schedule that passed the handler satisfies besides.
  predicate ValidSchedule(s: Schedule) {
    && StorableSchedule(s)
    && GoodDays(s.days, |s.days|)
    && s.startMin % GRANULARITY == 0
    && s.endMin % GRANULARITY == 0
  }

  // Open all day, every day.
  const ALWAYS := Schedule([1, 2, 3, 4, 5, 6, 7], 0, 1410)

  datatype ClockTime = ClockTime(hour: int, minute: int) {
    predicate Valid() { 0 <= hour < 24 && 0 <= minute < 60 }
    predicate OnGrid() { minute % GRANULARITY == 0 }
    function Minutes(): int { 60 * hour + minute }
  }

  datatype Rejection = NoDays | DayOutOfRange | DuplicateDay | BadStartTime | BadEndTime | BadGranularity | BadOrder

  datatype Verdict = Accepted(schedule: Schedule) | Rejected(reason: Rejection)

  // The two times parse and, with the days, form a schedule the slot generator can use.
  ghost predicate Acceptable(days: seq<int>, start: Option<ClockTime>, end: Option<ClockTime>) {
    start.Some? && end.Some? && ValidSchedule(Schedule(days, start.value.Minutes(), end.value.Minutes()))
  }

  lemma GridMinutes(t: ClockTime)
    requires t.Valid()
    ensures 0 <= t.Minutes() < DAY_MINUTES && (t.OnGrid() <==> t.Minutes() % GRANULARITY == 0)
  {
  }

  // Days and times each pass their own checks exactly when together they form a valid schedule.
  lemma AcceptableExactly(days: seq<int>, start: ClockTime, end: ClockTime)
    requires start.Valid() && end.Valid()
    ensures Acceptable(days, Some(start), Some(end)) <==>
              && days != [] && (forall i :: 0 <= i < |days| ==> 1 <= days[i] <= 7)
              && (forall i, j :: 0 <= i < j < |days| ==> days[i] != days[j])
              && start.minute % 30 == 0 && end.minute % 30 == 0
              && 60 * start.hour + start.minute < 60 * end.hour + end.minute
  {
    GridMinutes(start);
    GridMinutes(end);
  }

  // The first defect in the order of the checks; no two of these hold at once.
  ghost predicate RejectedFor(reason: Rejection, days: seq<int>, start: Option<ClockTime>, end: Option<ClockTime>) {
    var daysPass := days != [] && GoodDays(days, |days|);
    match reason
    case NoDays => days == []
    case DayOutOfRange => exists i :: 0 <= i < |days| && GoodDays(days, i) && !(1 <= days[i] <= 7)
    case DuplicateDay => exists i :: 0 <= i < |days| && GoodDays(days, i) && days[i] in days[..i]
    case BadStartTime => daysPass && start.None?
    case BadEndTime => daysPass && start.Some? && end.None?
    case BadGranularity =>
      && daysPass && start.Some? && end.Some?
      && !(start.value.minute % 30 == 0 && end.value.minute % 30 == 0)
    case BadOrder =>
      && daysPass && start.Some? && end.Some? && start.value.minute % 30 == 0 && end.value.minute % 30 == 0
      && 60 * end.value.hour + end.value.minute <= 60 * start.value.hour + start.value.minute
  }

  /** The request checks of `createSchedule`; a time is `None` when it does not parse as HH:MM. */
  method CheckSchedule(days: seq<int>, start: Option<ClockTime>, end: Option<ClockTime>) returns (v: Verdict)
    requires start.Some? ==> start.value.Valid()
    requires end.Some? ==> end.value.Valid()
    ensures v.Accepted? <==> Acceptable(days, start, end)
    ensures v.Accepted? ==> v.schedule == Schedule(days, 60 * start.value.hour + start.value.minute,
                                                   60 * end.value.hour + end.value.minute)
    ensures v.Rejected? ==> RejectedFor(v.reason, days, start, end)
  {
    if |days| == 0 {
      return Rejected(NoDays);
    }
    var bad := CheckDays(days);
    if bad.Some? {
      return Rejected(bad.value);
    }
    if start.None? {
      return Rejected(BadStartTime);
    }
    if end.None? {
      return Rejected(BadEndTime);
    }
    AcceptableExactly(days, start.value, end.value);
    if !start.value.OnGrid() || !end.value.OnGrid() {
      return Rejected(BadGranularity);
    }
    if end.value.Minutes() <= start.value.Minutes() {
      return Rejected(BadOrder);
    }
    v := Accepted(Schedule(days, start.value.Minutes(), end.value.Minutes()));
  }

  // The loop over the days, with the days seen so far.
  method CheckDays(days: seq<int>) returns (bad: Option<Rejection>)
    ensures bad.None? <==> GoodDays(days, |days|)
    ensures bad.Some? ==> bad.value == DayOutOfRange || bad.value == DuplicateDay
    ensures bad == Some(DayOutOfRange) ==>
              exists i :: 0 <= i < |days| && GoodDays(days, i) && !(1 <= days[i] <= 7)
    ensures bad == Some(DuplicateDay) ==>
              exists i :: 0 <= i < |days| && GoodDays(days, i) && days[i] in days[..i]
  {
    var seen: set<int> := {};
    for i := 0 to |days|
      invariant GoodDays(days, i)
      invariant forall d :: d in seen <==> d in days[..i]
    {
      var d := days[i];
      if d < MIN_DAY || d > MAX_DAY {
        return Some(DayOutOfRange);
      }
      if d in seen {
        return Some(DuplicateDay);
      }
      seen := seen + {d};
      assert days[..i + 1] == days[..i] + [d];
    }
    bad := None;
  }

  // How many whole slots fit between the two times of day.
  function SlotCount(startMin: int, endMin: int): (n: nat)
  {
    if endMin < startMin then 0 else (endMin - startMin) / SLOT_MINUTES
  }

  function StartOf(day: int, startMin: int, k: int): Time {
    day * DAY_MINUTES + startMin + k * SLOT_MINUTES
  }

  // The `k`-th slot of a day, given the identifiers handed out by the id generator.
  function SlotAt(room: Uuid, day: int, startMin: int, k: nat, newIds: seq<Uuid>): Slot
    requires k < |newIds|
  {
    Slot(newIds[k], room, StartOf(day, startMin, k), StartOf(day, startMin, k + 1))
  }

  /** `generateSlots`: walk from the window start in steps of 30 minutes while the slot end fits. */
  method GenerateSlots(room: Uuid, day: int, startMin: int, endMin: int, newIds: seq<Uuid>) returns (slots: seq<Slot>)
    requires SlotCount(startMin, endMin) <= |newIds|
    ensures |slots| == SlotCount(startMin, endMin)
    ensures forall k :: 0 <= k < |slots| ==>
              slots[k] == Slot(newIds[k], room, day * 1440 + startMin + 30 * k, day * 1440 + startMin + 30 * (k + 1))
    ensures forall k :: 0 <= k < |slots| ==> slots[k].endAt <= day * 1440 + endMin
    ensures day * 1440 + startMin + 30 * (|slots| + 1) > day * 1440 + endMin
  {
    var windowEnd := day * DAY_MINUTES + endMin;
    var cur := day * DAY_MINUTES + startMin;
    slots := [];
    while cur + SLOT_MINUTES <= windowEnd
      invariant cur == StartOf(day, startMin, |slots|)
      invariant |slots| <= SlotCount(startMin, endMin)
      invariant forall k :: 0 <= k < |slots| ==> slots[k] == SlotAt(room, day, startMin, k, newIds)
      invariant forall k :: 0 <= k < |slots| ==> slots[k].endAt <= windowEnd
      decreases windowEnd - cur
    {
      var slotEnd := cur + SLOT_MINUTES;
      slots := slots + [Slot(newIds[|slots|], room, cur, slotEnd)];
      cur := cur + SLOT_MINUTES;
    }
  }

  // A slot is one of the windows its room's schedule describes, on whatever day it starts.
  predicate IsWindow(s: Schedule, startAt: Time, endAt: Time) {
    && IsDayInSchedule(startAt / DAY_MINUTES, s.days)
    && s.startMin <= startAt % DAY_MINUTES
    && startAt % DAY_MINUTES + SLOT_MINUTES <= s.endMin
    && (startAt % DAY_MINUTES - s.startMin) % SLOT_MINUTES == 0
    && endAt == startAt + SLOT_MINUTES
  }

  // On a scheduled day the generated starts are exactly that day's windows.
  lemma GeneratedAreWindows(s: Schedule, day: int, startAt: Time)
    requires StorableSchedule(s) && IsDayInSchedule(day, s.days)
    ensures (exists k :: 0 <= k < SlotCount(s.startMin, s.endMin) && startAt == StartOf(day, s.startMin, k))
            <==> startAt / DAY_MINUTES == day && IsWindow(s, startAt, startAt + SLOT_MINUTES)
  {
    if startAt / DAY_MINUTES == day && IsWindow(s, startAt, startAt + SLOT_MINUTES) {
      var k := (startAt % DAY_MINUTES - s.startMin) / SLOT_MINUTES;
      assert startAt == StartOf(day, s.startMin, k);
    }
  }

  // The slots of a scheduled day tile the window from its start to its end, inside that UTC day.
  lemma WindowsTileTheDay(s: Schedule, day: int)
    requires ValidSchedule(s)
    ensures var n := SlotCount(s.startMin, s.endMin);
            && n > 0
            && StartOf(day, s.startMin, 0) == day * DAY_MINUTES + s.startMin
            && StartOf(day, s.startMin, n) == day * DAY_MINUTES + s.endMin
            && forall k :: 0 <= k <= n ==> StartOf(day, s.startMin, k) / DAY_MINUTES == day
  {
    forall k | 0 <= k <= SlotCount(s.startMin, s.endMin)
      ensures StartOf(day, s.startMin, k) / DAY_MINUTES == day
    {
      assert 0 <= s.startMin + k * SLOT_MINUTES < DAY_MINUTES;
    }
  }

  // Two windows of one schedule, on any days, either coincide or do not overlap.
  lemma WindowsDoNotOverlap(s: Schedule, start1: Time, end1: Time, start2: Time, end2: Time)
    requires StorableSchedule(s)
    requires IsWindow(s, start1, end1) && IsWindow(s, start2, end2)
    ensures start1 == start2 || end1 <= start2 || end2 <= start1
  {
    if start1 / DAY_MINUTES == start2 / DAY_MINUTES {
      var a, b := start1 % DAY_MINUTES - s.startMin, start2 % DAY_MINUTES - s.startMin;
      assert start1 - start2 == a - b;
      assert a == SLOT_MINUTES * (a / SLOT_MINUTES) && b == SLOT_MINUTES * (b / SLOT_MINUTES);
    }
  }
}
