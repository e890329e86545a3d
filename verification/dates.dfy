/**
  The delivery/pickup dates offered at the shipping step: the fourteen days
  starting today, minus Sundays and Mondays. A day is represented by its
  offset from today; weekdays are numbered as the page's `getDay()` numbers
  them, 0 for Sunday through 6 for Saturday.
 */
module Dates {

  /** How many consecutive days, starting today, are considered. */
  const Horizon: int := 14

  /** The weekday `offset` days after a day whose weekday is `today`. */
  function WeekdayAfter(today: int, offset: int): int
  {
    (today + offset) % 7
  }

  /** The shop is closed on Sundays (0) and Mondays (1). */
  predicate IsOpen(weekday: int)
  {
    weekday != 0 && weekday != 1
  }

  /** How many of the offsets 0..n-1 fall on an open day. */
  function OpenDaysBefore(today: int, n: int): nat
    decreases n
  {
    if n <= 0 then 0
    else OpenDaysBefore(today, n - 1) + (if IsOpen(WeekdayAfter(today, n - 1)) then 1 else 0)
  }

  /** The open offsets among 0..n-1, in increasing order. */
  function OpenOffsets(today: int, n: int): seq<int>
    decreases n
  {
    if n <= 0 then []
    else OpenOffsets(today, n - 1) + (if IsOpen(WeekdayAfter(today, n - 1)) then [n - 1] else [])
  }

  /**
    The open offsets below n are open, in range, strictly increasing, all of
    them, and as many as the count says.
   */
  lemma {:induction false} OpenOffsetsSpec(today: int, n: int)
    requires 0 <= n
    ensures var r := OpenOffsets(today, n);
      && (forall k :: 0 <= k < |r| ==> 0 <= r[k] < n && IsOpen(WeekdayAfter(today, r[k])))
      && (forall k, l :: 0 <= k < l < |r| ==> r[k] < r[l])
      && (forall j :: 0 <= j < n && IsOpen(WeekdayAfter(today, j)) ==> j in r)
      && |r| == OpenDaysBefore(today, n)
    decreases n
  {
    if n > 0 {
      OpenOffsetsSpec(today, n - 1);
      var prev := OpenOffsets(today, n - 1);
      if IsOpen(WeekdayAfter(today, n - 1)) {
        assert OpenOffsets(today, n) == prev + [n - 1];
      } else {
        assert OpenOffsets(today, n) == prev;
      }
    }
  }

  /**
    `days` lists the open offsets below `Horizon`: each is in range and on an
    open weekday, they are strictly increasing, and no open offset is missing.
   */
  predicate ListsOpenDays(today: int, days: seq<int>)
  {
    && (forall k :: 0 <= k < |days| ==> 0 <= days[k] < Horizon)
    && (forall k :: 0 <= k < |days| ==> IsOpen(WeekdayAfter(today, days[k])))
    && (forall k, l :: 0 <= k < l < |days| ==> days[k] < days[l])
    && (forall i :: 0 <= i < Horizon && IsOpen(WeekdayAfter(today, i)) ==> i in days)
  }

  /**
    `getAvailableDates()`: the offsets 0..13 whose weekday is open, in
    increasing order, each one once and none missing; always ten of them.
   */
  method AvailableDates(today: int) returns (days: seq<int>)
    requires 0 <= today < 7
    ensures ListsOpenDays(today, days)
    ensures |days| == 10
  {
    days := [];
    var i := 0;
    while i < Horizon
      invariant 0 <= i <= Horizon
      invariant days == OpenOffsets(today, i)
    {
      if IsOpen(WeekdayAfter(today, i)) {
        days := days + [i];
      }
      i := i + 1;
    }
    FortnightOffsets(today);
  }

  /** The open offsets of the fortnight starting today, as the page lists them. */
  lemma FortnightOffsets(today: int)
    requires 0 <= today < 7
    ensures ListsOpenDays(today, OpenOffsets(today, Horizon))
    ensures |OpenOffsets(today, Horizon)| == 10
  {
    OpenOffsetsSpec(today, Horizon);
    AlwaysTenDates(today);
  }

  /** Counting from a day with weekday `today` is counting from a Sunday, shifted by `today` days. */
  lemma {:induction false} ShiftToday(today: int, n: int)
    requires 0 <= today && 0 <= n
    ensures OpenDaysBefore(today, n) == OpenDaysBefore(0, today + n) - OpenDaysBefore(0, today)
    decreases n
  {
    if n > 0 {
      ShiftToday(today, n - 1);
      assert WeekdayAfter(today, n - 1) == WeekdayAfter(0, today + n - 1);
    }
  }

  /** The week starting on a Sunday has five open days, Tuesday to Saturday. */
  lemma FirstWeek()
    ensures OpenDaysBefore(0, 7) == 5
  {
    assert OpenDaysBefore(0, 2) == 0;
    assert OpenDaysBefore(0, 4) == 2;
    assert OpenDaysBefore(0, 6) == 4;
  }

  /** A week later it is the same weekday again. */
  lemma SameWeekdayNextWeek(m: int)
    ensures WeekdayAfter(0, m + 7) == WeekdayAfter(0, m)
  {
  }

  /** Counting over n + 7 days adds one more week's five open days. */
  lemma {:induction false} OneMoreWeek(today: int, n: int)
    requires 0 <= today && 0 <= n
    ensures OpenDaysBefore(today, n + 7) == OpenDaysBefore(today, n) + 5
    decreases today, n
  {
    if today == 0 {
      if n == 0 {
        FirstWeek();
      } else {
        OneMoreWeek(0, n - 1);
        SameWeekdayNextWeek(n - 1);
      }
    } else {
      ShiftToday(today, n + 7);
      ShiftToday(today, n);
      OneMoreWeek(0, today + n);
    }
  }

  /** Any seven consecutive days hold five open ones. */
  lemma FiveOpenDaysPerWeek(today: int)
    requires 0 <= today
    ensures OpenDaysBefore(today, 7) == 5
  {
    OneMoreWeek(today, 0);
  }

  /**
    Fourteen consecutive days hold every weekday exactly twice, so whatever
    day today is, exactly ten dates are offered.
   */
  lemma AlwaysTenDates(today: int)
    requires 0 <= today < 7
    ensures OpenDaysBefore(today, Horizon) == 10
  {
    OneMoreWeek(today, 7);
    FiveOpenDaysPerWeek(today);
  }
}
