/**
 * The demonstration schedule: five days of hourly arrival times. An instant is a
 * service-zone day number and a minute of day; a day is its number, a time its hour.
 */
module Scheduling {
  import opened Text

  type Minute = m: int | 0 <= m < 1440

  datatype Instant = Instant(day: int, minutes: Minute)
  datatype Slot = Slot(date: int, time: int)

  const FIRST_HOUR := 8
  const LAST_HOUR := 20
  const EXCLUDED_HOUR := 11
  const SCHEDULE_DAY_COUNT := 5
  const LEAD_MINUTES := 45
  const COLLAPSED_TIME_COUNT := 6

  predicate IsScheduleDay(now: Instant, day: int) {
    now.day <= day < now.day + SCHEDULE_DAY_COUNT
  }

  predicate IsSlotAvailable(now: Instant, slot: Slot) {
    && IsScheduleDay(now, slot.date)
    && FIRST_HOUR <= slot.time <= LAST_HOUR
    && !(slot.date == now.day && slot.time * 60 <= now.minutes + LEAD_MINUTES)
    && slot.time != EXCLUDED_HOUR
  }

  function TimesFrom(now: Instant, day: int, hour: int): seq<int>
    requires hour <= LAST_HOUR + 1
    decreases LAST_HOUR + 1 - hour
  {
    if hour > LAST_HOUR then []
    else (if IsSlotAvailable(now, Slot(day, hour)) then [hour] else []) + TimesFrom(now, day, hour + 1)
  }

  function AvailableTimes(now: Instant, day: int): seq<int> {
    TimesFrom(now, day, FIRST_HOUR)
  }

  /** The search over the offered days, from `day` on. */
  function FirstOffered(now: Instant, day: int): Option<Slot>
    requires day <= now.day + SCHEDULE_DAY_COUNT
    decreases now.day + SCHEDULE_DAY_COUNT - day
  {
    if day == now.day + SCHEDULE_DAY_COUNT then None
    else
      var times := AvailableTimes(now, day);
      if times != [] then Some(Slot(day, times[0])) else FirstOffered(now, day + 1)
  }

  function EarliestSlot(now: Instant): Option<Slot> {
    FirstOffered(now, now.day)
  }

  function DefaultScheduleDay(now: Instant): int {
    match EarliestSlot(now)
    case Some(slot) => slot.date
    case None => now.day
  }

  /** The loop of `earliestSlot`. */
  method FindEarliestSlot(now: Instant) returns (r: Option<Slot>)
    ensures r == EarliestSlot(now)
  {
    for day := now.day to now.day + SCHEDULE_DAY_COUNT
      invariant FirstOffered(now, day) == EarliestSlot(now)
    {
      var times := AvailableTimes(now, day);
      if times != [] {
        return Some(Slot(day, times[0]));
      }
    }
    return None;
  }

  predicate Before(a: Slot, b: Slot) {
    a.date < b.date || (a.date == b.date && a.time <= b.time)
  }

  lemma {:induction false} TimesMember(now: Instant, day: int, hour: int, t: int)
    requires FIRST_HOUR <= hour <= LAST_HOUR + 1
    ensures t in TimesFrom(now, day, hour) <==> hour <= t && IsSlotAvailable(now, Slot(day, t))
    decreases LAST_HOUR + 1 - hour
  {
    if hour <= LAST_HOUR {
      TimesMember(now, day, hour + 1, t);
      var first := if IsSlotAvailable(now, Slot(day, hour)) then [hour] else [];
      assert t in TimesFrom(now, day, hour) <==> t in first || t in TimesFrom(now, day, hour + 1);
    }
  }

  predicate Ascending(times: seq<int>) {
    forall i, j :: 0 <= i < j < |times| ==> times[i] < times[j]
  }

  lemma {:induction false} TimesAscend(now: Instant, day: int, hour: int)
    requires FIRST_HOUR <= hour <= LAST_HOUR + 1
    ensures Ascending(TimesFrom(now, day, hour))
    decreases LAST_HOUR + 1 - hour
  {
    if hour <= LAST_HOUR {
      TimesAscend(now, day, hour + 1);
      var rest := TimesFrom(now, day, hour + 1);
      if rest != [] {
        TimesMember(now, day, hour + 1, rest[0]);
      }
      AscendingCons(hour, rest);
      assert [] + rest == rest;
    }
  }

  lemma AscendingCons(hour: int, rest: seq<int>)
    requires Ascending(rest) && (rest == [] || hour < rest[0])
    ensures Ascending([hour] + rest)
  {
    var all := [hour] + rest;
    forall i, j | 0 <= i < j < |all| ensures all[i] < all[j] {
      assert all[j] == rest[j - 1];
      if i > 0 {
        assert all[i] == rest[i - 1];
      } else if j > 1 {
        assert rest[0] < rest[j - 1];
      }
    }
  }

  /** The offered times of a day are exactly the available ones, each once, in order. */
  lemma TimesAreAvailable(now: Instant, day: int)
    ensures forall t :: t in AvailableTimes(now, day) <==> IsSlotAvailable(now, Slot(day, t))
    ensures Ascending(AvailableTimes(now, day))
  {
    TimesAscend(now, day, FIRST_HOUR);
    forall t ensures t in AvailableTimes(now, day) <==> IsSlotAvailable(now, Slot(day, t)) {
      TimesMember(now, day, FIRST_HOUR, t);
    }
  }

  /** `slot` is the least available slot from `day` on; `None` says there is none. */
  ghost predicate IsFirst(now: Instant, day: int, slot: Option<Slot>) {
    && (slot.Some? ==> slot.value.date >= day && IsSlotAvailable(now, slot.value))
    && (forall other :: IsSlotAvailable(now, other) && other.date >= day ==> slot.Some? && Before(slot.value, other))
  }

  lemma FirstOfDay(now: Instant, day: int)
    requires AvailableTimes(now, day) != []
    ensures IsFirst(now, day, Some(Slot(day, AvailableTimes(now, day)[0])))
  {
    var times := AvailableTimes(now, day);
    TimesAreAvailable(now, day);
    assert times[0] in times;
    forall other | IsSlotAvailable(now, other) && other.date >= day ensures Before(Slot(day, times[0]), other) {
      assert other == Slot(other.date, other.time);
      assert other.date == day ==> other.time in times;
    }
  }

  lemma SkipDay(now: Instant, day: int, slot: Option<Slot>)
    requires AvailableTimes(now, day) == [] && IsFirst(now, day + 1, slot)
    ensures IsFirst(now, day, slot)
  {
    TimesAreAvailable(now, day);
    forall other | IsSlotAvailable(now, other) && other.date >= day ensures slot.Some? && Before(slot.value, other) {
      assert other == Slot(other.date, other.time);
      assert other.date == day ==> other.time in AvailableTimes(now, day);
    }
  }

  lemma {:induction false} FirstOfferedIsLeast(now: Instant, day: int)
    requires now.day <= day <= now.day + SCHEDULE_DAY_COUNT
    ensures IsFirst(now, day, FirstOffered(now, day))
    decreases now.day + SCHEDULE_DAY_COUNT - day
  {
    if day < now.day + SCHEDULE_DAY_COUNT {
      if AvailableTimes(now, day) != [] {
        FirstOfDay(now, day);
      } else {
        FirstOfferedIsLeast(now, day + 1);
        SkipDay(now, day, FirstOffered(now, day + 1));
      }
    }
  }

  /** At every instant something is offered, and `earliestSlot` is the least of it. */
  lemma EarliestSlotIsLeast(now: Instant)
    ensures EarliestSlot(now).Some?
    ensures IsSlotAvailable(now, EarliestSlot(now).value)
    ensures forall other :: IsSlotAvailable(now, other) ==> Before(EarliestSlot(now).value, other)
    ensures DefaultScheduleDay(now) == EarliestSlot(now).value.date
  {
    FirstOfferedIsLeast(now, now.day);
    assert IsSlotAvailable(now, Slot(now.day + 1, FIRST_HOUR));
  }

  function IndexOfTime(times: seq<int>, time: int): (r: int)
    ensures r == -1 ==> time !in times
    ensures r != -1 ==> 0 <= r < |times| && times[r] == time
  {
    if times == [] then -1
    else if times[0] == time then 0
    else
      var r := IndexOfTime(times[1..], time);
      if r == -1 then -1 else r + 1
  }

  function VisibleTimes(times: seq<int>, selected: Option<int>, showAll: bool): (r: seq<int>)
    ensures r <= times && (|r| == |times| || |r| == COLLAPSED_TIME_COUNT)
  {
    var index := if selected.None? then -1 else IndexOfTime(times, selected.value);
    if showAll || index >= COLLAPSED_TIME_COUNT || |times| <= COLLAPSED_TIME_COUNT then times
    else times[..COLLAPSED_TIME_COUNT]
  }

  /** Collapsing the grid never hides the selected time. */
  lemma SelectedStaysVisible(times: seq<int>, time: int, showAll: bool)
    requires time in times
    ensures time in VisibleTimes(times, Some(time), showAll)
  {
    var r := VisibleTimes(times, Some(time), showAll);
    var i := IndexOfTime(times, time);
    assert i < |r| && r[i] == time;
  }

  /** The grid is collapsed to the first six times unless all are asked for, there are no more, or the selected one comes later. */
  lemma CollapsedIff(times: seq<int>, selected: Option<int>, showAll: bool)
    ensures VisibleTimes(times, selected, showAll) ==
            if showAll || |times| <= COLLAPSED_TIME_COUNT
               || (selected.Some? && selected.value in times && selected.value !in times[..COLLAPSED_TIME_COUNT])
            then times else times[..COLLAPSED_TIME_COUNT]
  {
    if selected.Some? { FirstIndex(times, selected.value); }
  }

  lemma {:induction false} FirstIndex(times: seq<int>, time: int)
    ensures var r := IndexOfTime(times, time); r != -1 ==> 0 <= r < |times| && time !in times[..r]
    ensures IndexOfTime(times, time) == -1 <==> time !in times
  {
    if times != [] && times[0] != time {
      FirstIndex(times[1..], time);
      var r := IndexOfTime(times, time);
      if r != -1 { assert times[..r] == [times[0]] + times[1..][..r - 1]; }
    }
  }
}
