/**
 How many days a subscription of so many days, weeks or months lasts: the backend's computation
 (src/subscription_plan.rs) and the frontend's (frontend/src/lib/subscription-utils.ts).  Dates only: both keep
 the time of day, and the frontend rounds away a change of clocks.
 */
module Validity {
  import opened Common

  // ---- the Gregorian calendar, by month index: year * 12 + month - 1 ----

  predicate IsLeap(year: int) {
    year % 4 == 0 && (year % 100 != 0 || year % 400 == 0)
  }

  function MonthLength(m: int): (days: int)
    ensures 28 <= days <= 31
  {
    var month := m % 12;
    if month == 1 then (if IsLeap(m / 12) then 29 else 28)
    else if month in {3, 5, 8, 10} then 30
    else 31
  }

  /** Leap years before `year`, counted from year 0. */
  function LeapsBefore(year: int): int {
    (year + 3) / 4 - (year + 99) / 100 + (year + 399) / 400
  }

  /** Days of the year before its month `month`, in a common year. */
  function DaysBeforeMonth(month: int): int
    requires 0 <= month < 12
  {
    [0, 31, 59, 90, 120, 151, 181, 212, 243, 273, 304, 334][month]
  }

  /** The day number of the last day before month `m`. */
  function MonthStart(m: int): int {
    var year, month := m / 12, m % 12;
    365 * year + LeapsBefore(year) + DaysBeforeMonth(month) + if month > 1 && IsLeap(year) then 1 else 0
  }

  lemma LeapsStep(year: int)
    ensures LeapsBefore(year + 1) == LeapsBefore(year) + Ind(IsLeap(year))
  {
    assert (year + 4) / 4 == (year + 3) / 4 + Ind(year % 4 == 0);
    assert (year + 100) / 100 == (year + 99) / 100 + Ind(year % 100 == 0);
    assert (year + 400) / 400 == (year + 399) / 400 + Ind(year % 400 == 0);
  }

  /** The calendar is consistent: each month starts where the one before it ends. */
  lemma MonthStartStep(m: int)
    ensures MonthStart(m + 1) == MonthStart(m) + MonthLength(m)
  {
    LeapsStep(m / 12);
    if m % 12 == 11 {
      assert (m + 1) / 12 == m / 12 + 1 && (m + 1) % 12 == 0;
    } else {
      assert (m + 1) / 12 == m / 12 && (m + 1) % 12 == m % 12 + 1;
    }
    hide LeapsBefore;
  }

  lemma {:induction false} MonthStartBounds(m: int, n: nat)
    ensures 28 * n <= MonthStart(m + n) - MonthStart(m) <= 31 * n
  {
    hide MonthStart, MonthLength;
    if n > 0 {
      MonthStartBounds(m, n - 1);
      MonthStartStep(m + n - 1);
    }
  }

  // ---- adding months ----

  datatype Date = Date(m: int, day: int)

  predicate IsDate(d: Date) {
    1 <= d.day <= MonthLength(d.m)
  }

  /** A date that exists. */
  type CalendarDate = d: Date | IsDate(d) witness Date(0, 1)

  function DayNumber(d: Date): int {
    MonthStart(d.m) + d.day
  }

  /** checked_add_months: a day the target month does not have becomes its last. */
  function AddMonths(d: Date, n: nat): (r: Date)
    requires IsDate(d)
    ensures IsDate(r)
  {
    Date(d.m + n, Min(d.day, MonthLength(d.m + n)))
  }

  datatype ValidityUnit = Day | Week | Month | Unsupported(name: string)

  datatype Result = Days(days: int) | Error

  const U32_MAX := 0xffff_ffff

  /** The last month the date type can hold (chrono 0.4.44). */
  const LAST_MONTH := 262_142 * 12 + 11

  /** The days a renewal is granted from an expiry that may not be readable as a date. */
  function RenewalDays(value: int, unit: ValidityUnit, expiry: Option<CalendarDate>): (r: Result)
    ensures r.Days? ==> r.days > 0
  {
    if expiry.Some? then
      GrantsArePositive(value, unit, expiry.value, LAST_MONTH);
      ComputeValidityDays(value, unit, expiry.value, LAST_MONTH)
    else if unit.Month? then Error
    else
      GrantsArePositive(value, unit, Date(0, 1), LAST_MONTH);
      ComputeValidityDays(value, unit, Date(0, 1), LAST_MONTH)
  }

  /** The days granted; `lastMonth` is the last month the date type can hold. */
  function ComputeValidityDays(value: int, unit: ValidityUnit, from: Date, lastMonth: int): Result
    requires IsDate(from)
  {
    if value <= 0 then Error
    else
      match unit
      case Day => Days(value)
      case Week => Days(value * 7)
      case Month =>
        if value > U32_MAX || from.m + value > lastMonth then Error
        else Days(DayNumber(AddMonths(from, value)) - DayNumber(from))
      case Unsupported(_) => Error
  }

  /** What is granted for days and weeks, and when nothing can be: unreadable expiries matter to months alone. */
  lemma GrantsExactly(value: int, unit: ValidityUnit, from: CalendarDate)
    ensures ComputeValidityDays(value, unit, from, LAST_MONTH).Error? <==>
              || value <= 0 || unit.Unsupported?
              || (unit.Month? && (value > 4_294_967_295 || from.m + value > 262_142 * 12 + 11))
    ensures value > 0 && unit.Day? ==> ComputeValidityDays(value, unit, from, LAST_MONTH) == Days(value)
    ensures value > 0 && unit.Week? ==> ComputeValidityDays(value, unit, from, LAST_MONTH) == Days(7 * value)
    ensures RenewalDays(value, unit, Some(from)) == ComputeValidityDays(value, unit, from, LAST_MONTH)
    ensures RenewalDays(value, unit, None) ==
            if unit.Month? then Error else ComputeValidityDays(value, unit, from, LAST_MONTH)
  {
    hide DayNumber, AddMonths;
  }

  /** A mutable date: the month index of its January, the month within the year, and the day. */
  class LocalDate {
    var january: int
    var month: int
    var day: int

    constructor (d: Date)
      ensures january + month == d.m && day == d.day
    {
      january, month, day := d.m - d.m % 12, d.m % 12, d.day;
    }

    function Value(): Date
      reads this
    {
      Date(january + month, day)
    }

    /** setMonth counts from January; a day the month does not have runs over into the next. */
    method SetMonth(k: int)
      requires day >= 1
      modifies this
      ensures DayNumber(Value()) == MonthStart(old(january) + k) + old(day) && IsDate(Value())
    {
      hide MonthStart;
      var m, d := january + k, day;
      while d > MonthLength(m)
        invariant d >= 1 && MonthStart(m) + d == MonthStart(old(january) + k) + old(day)
        decreases d
      {
        MonthStartStep(m);
        d, m := d - MonthLength(m), m + 1;
      }
      january, month, day := m - m % 12, m % 12, d;
      assert january + month == m;
    }
  }

  /** What the frontend shows. */
  function ShownDays(value: int, unit: ValidityUnit, from: Date): int
    requires !unit.Unsupported?
  {
    match unit
    case Day => value
    case Week => value * 7
    case Month => MonthStart(from.m + value) - MonthStart(from.m)
  }

  method ComputeShownDays(value: int, unit: ValidityUnit, from: Date) returns (days: int)
    requires IsDate(from) && !unit.Unsupported?
    ensures days == ShownDays(value, unit, from)
  {
    if unit == Day {
      return value;
    }
    if unit == Week {
      return value * 7;
    }
    hide MonthStart, MonthLength;
    var target := new LocalDate(from);
    target.SetMonth(target.month + value);
    days := DayNumber(target.Value()) - DayNumber(from);
  }

  // ---- what the granted days promise ----

  /** A subscription of n months lasts between 28 n and 31 n days. */
  lemma MonthsAreBounded(value: int, from: Date, lastMonth: int)
    requires IsDate(from) && ComputeValidityDays(value, Month, from, lastMonth).Days?
    ensures 28 * value <= ComputeValidityDays(value, Month, from, lastMonth).days <= 31 * value
  {
    hide MonthStart, MonthLength;
    MonthStartBounds(from.m, value);
    MonthStartBounds(from.m + 1, value);
    MonthStartStep(from.m);
    MonthStartStep(from.m + value);
  }

  /** More months always last longer. */
  lemma {:induction false} MonthsIncrease(value: int, more: int, from: Date, lastMonth: int)
    requires IsDate(from) && 1 <= value < more
    requires ComputeValidityDays(more, Month, from, lastMonth).Days?
    ensures ComputeValidityDays(value, Month, from, lastMonth).Days?
    ensures ComputeValidityDays(value, Month, from, lastMonth).days <
            ComputeValidityDays(more, Month, from, lastMonth).days
    decreases more
  {
    hide MonthStart, MonthLength;
    MonthStartStep(from.m + more - 1);
    if value < more - 1 {
      MonthsIncrease(value, more - 1, from, lastMonth);
    }
  }

  /**
   Backend and frontend agree exactly when the target month has the day; otherwise the backend grants fewer
   days than shown, by what the target month falls short.
   */
  lemma BackendAgreesExactly(value: int, unit: ValidityUnit, from: Date, lastMonth: int)
    requires IsDate(from) && ComputeValidityDays(value, unit, from, lastMonth).Days?
    ensures var granted := ComputeValidityDays(value, unit, from, lastMonth).days;
            var shown := ShownDays(value, unit, from);
            && (granted == shown <==> unit != Month || from.day <= MonthLength(from.m + value))
            && 0 <= shown - granted <= 3
            && (unit == Month ==> shown - granted == Max(from.day - MonthLength(from.m + value), 0))
  {
    hide MonthStart;
  }

  /** So they agree whenever the start day is at most 28. */
  lemma AgreesUpToTheTwentyEighth(value: int, unit: ValidityUnit, from: Date, lastMonth: int)
    requires IsDate(from) && ComputeValidityDays(value, unit, from, lastMonth).Days? && from.day <= 28
    ensures ComputeValidityDays(value, unit, from, lastMonth).days == ShownDays(value, unit, from)
  {
    BackendAgreesExactly(value, unit, from, lastMonth);
  }

  /** The 28th is the last such day: one month from 29 January of a common year they differ. */
  lemma DisagreeOnTheTwentyNinth(year: int, lastMonth: int)
    requires !IsLeap(year) && year * 12 + 1 <= lastMonth
    ensures var from := Date(year * 12, 29);
            && IsDate(from) && ComputeValidityDays(1, Month, from, lastMonth) == Days(30)
            && ShownDays(1, Month, from) == 31
  {
    hide MonthStart, IsLeap;
    MonthStartStep(year * 12);
    YearAndMonth(year, 0);
    YearAndMonth(year, 1);
  }

  lemma YearAndMonth(year: int, month: int)
    requires 0 <= month < 12
    ensures (year * 12 + month) / 12 == year && (year * 12 + month) % 12 == month
  {
  }

  /** A renewal of positive length is always granted a positive number of days. */
  lemma GrantsArePositive(value: int, unit: ValidityUnit, from: Date, lastMonth: int)
    requires IsDate(from)
    ensures var r := ComputeValidityDays(value, unit, from, lastMonth); r.Days? ==> r.days > 0
  {
    if unit == Month && ComputeValidityDays(value, unit, from, lastMonth).Days? {
      MonthsAreBounded(value, from, lastMonth);
    }
  }
}
