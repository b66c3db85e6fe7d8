/**
 The business-day counter of the tracking notifier.

 Dates are day numbers: the proleptic Gregorian ordinal (0001-01-01 is day 1,
 a Monday), so the weekday of a day follows from the number alone. The holiday
 table is passed in as a set of day numbers.
 */
module BusinessCalendar {

  /** Monday is 0 and Sunday is 6, as `date.weekday()` numbers them. */
  function Weekday(d: int): (w: int)
    ensures 0 <= w < 7
  {
    (d - 1) % 7
  }

  /** A day counts when it falls Monday to Friday and is not a holiday. */
  predicate IsBusinessDay(d: int, holidays: set<int>)
  {
    Weekday(d) < 5 && d !in holidays
  }

  /** The number of business days in the closed interval [lo, hi]. */
  function BusinessDays(lo: int, hi: int, holidays: set<int>): (n: nat)
    ensures lo > hi ==> n == 0
    ensures lo <= hi ==> n <= hi - lo + 1
    decreases hi - lo
  {
    if lo > hi then 0
    else BusinessDays(lo, hi - 1, holidays) + (if IsBusinessDay(hi, holidays) then 1 else 0)
  }

  /** The days of [lo, hi] that count, as a set. */
  ghost function BusinessDaySet(lo: int, hi: int, holidays: set<int>): set<int>
  {
    set d | lo <= d <= hi && IsBusinessDay(d, holidays)
  }

  /**
   The counter: walks [date1, date2] one day at a time and counts the
   business days; an interval whose start lies after its end is never walked.
   */
  method CalculateDays(date1: int, date2: int, holidays: set<int>) returns (count: nat)
    ensures count == BusinessDays(date1, date2, holidays)
    ensures count == |BusinessDaySet(date1, date2, holidays)|
    ensures date1 > date2 ==> count == 0
    ensures date1 <= date2 ==> count <= date2 - date1 + 1
  {
    var start := date1;
    var end := date2;
    count := 0;
    while start <= end
      invariant date1 <= start
      invariant date1 <= end ==> start <= end + 1
      invariant date1 > end ==> start == date1
      invariant count == BusinessDays(date1, start - 1, holidays)
      decreases end - start
    {
      if start !in holidays && Weekday(start) < 5 {
        count := count + 1;
      }
      start := start + 1;
    }
    BusinessDaysIsSetSize(date1, date2, holidays);
  }

  /** The recursive count and the size of the set of counted days agree. */
  lemma {:induction false} BusinessDaysIsSetSize(lo: int, hi: int, holidays: set<int>)
    ensures BusinessDays(lo, hi, holidays) == |BusinessDaySet(lo, hi, holidays)|
    decreases hi - lo
  {
    if lo > hi {
      assert BusinessDaySet(lo, hi, holidays) == {};
    } else {
      BusinessDaysIsSetSize(lo, hi - 1, holidays);
      var prev := BusinessDaySet(lo, hi - 1, holidays);
      if IsBusinessDay(hi, holidays) {
        assert BusinessDaySet(lo, hi, holidays) == prev + {hi};
        assert hi !in prev;
      } else {
        assert BusinessDaySet(lo, hi, holidays) == prev;
      }
    }
  }

  /** A one-day interval counts 1 exactly when that day is a non-holiday weekday. */
  lemma SingleDay(d: int, holidays: set<int>)
    ensures BusinessDays(d, d, holidays) == 1 <==> IsBusinessDay(d, holidays)
    ensures BusinessDays(d, d, holidays) == 0 <==> !IsBusinessDay(d, holidays)
  {
    assert BusinessDays(d, d - 1, holidays) == 0;
  }

  /** Splitting an interval at any point splits its count. */
  lemma {:induction false} Split(lo: int, mid: int, hi: int, holidays: set<int>)
    requires lo - 1 <= mid <= hi
    ensures BusinessDays(lo, hi, holidays) == BusinessDays(lo, mid, holidays) + BusinessDays(mid + 1, hi, holidays)
    decreases hi - mid
  {
    if mid < hi {
      Split(lo, mid, hi - 1, holidays);
    }
  }

  /** Moving the end date later never decreases the count. */
  lemma {:induction false} MonotoneInEnd(lo: int, hi: int, hi': int, holidays: set<int>)
    requires hi <= hi'
    ensures BusinessDays(lo, hi, holidays) <= BusinessDays(lo, hi', holidays)
    decreases hi' - hi
  {
    if hi < hi' {
      MonotoneInEnd(lo, hi, hi' - 1, holidays);
    }
  }

  /** Moving the start date later never increases the count. */
  lemma MonotoneInStart(lo: int, lo': int, hi: int, holidays: set<int>)
    requires lo <= lo'
    ensures BusinessDays(lo', hi, holidays) <= BusinessDays(lo, hi, holidays)
  {
    if lo' <= hi {
      Split(lo, lo' - 1, hi, holidays);
    }
  }

  /** Declaring one counted day of the interval a holiday lowers the count by exactly one. */
  lemma {:induction false} AddHoliday(lo: int, hi: int, h: int, holidays: set<int>)
    requires lo <= h <= hi && IsBusinessDay(h, holidays)
    ensures BusinessDays(lo, hi, holidays + {h}) + 1 == BusinessDays(lo, hi, holidays)
    decreases hi - lo
  {
    if h < hi {
      AddHoliday(lo, hi - 1, h, holidays);
    } else {
      SameCount(lo, hi - 1, holidays, holidays + {h});
    }
  }

  /** Two holiday sets that agree on [lo, hi] give the same count. */
  lemma {:induction false} SameCount(lo: int, hi: int, holidays: set<int>, holidays': set<int>)
    requires forall d :: lo <= d <= hi ==> (d in holidays <==> d in holidays')
    ensures BusinessDays(lo, hi, holidays) == BusinessDays(lo, hi, holidays')
    decreases hi - lo
  {
    if lo <= hi {
      SameCount(lo, hi - 1, holidays, holidays');
    }
  }

  /** A Monday-to-Friday week without holidays has five business days. */
  lemma WorkWeek(monday: int)
    requires Weekday(monday) == 0
    ensures BusinessDays(monday, monday + 4, {}) == 5
  {
    assert Weekday(monday + 1) == 1 && Weekday(monday + 2) == 2;
    assert Weekday(monday + 3) == 3 && Weekday(monday + 4) == 4;
    assert BusinessDays(monday, monday, {}) == 1;
    assert BusinessDays(monday, monday + 1, {}) == 2;
    assert BusinessDays(monday, monday + 2, {}) == 3;
    assert BusinessDays(monday, monday + 3, {}) == 4;
  }

  /** A holiday on the Friday leaves four working days in that week. */
  lemma WorkWeekWithFridayHoliday(monday: int)
    requires Weekday(monday) == 0
    ensures BusinessDays(monday, monday + 4, {monday + 4}) == 4
  {
    WorkWeek(monday);
    assert Weekday(monday + 4) == 4;
    AddHoliday(monday, monday + 4, monday + 4, {});
    assert {} + {monday + 4} == {monday + 4};
  }

  /** Saturday and Sunday never count. */
  lemma Weekend(saturday: int, holidays: set<int>)
    requires Weekday(saturday) == 5
    ensures BusinessDays(saturday, saturday + 1, holidays) == 0
  {
    assert (saturday + 1 - 1) % 7 == 6;
  }
}
