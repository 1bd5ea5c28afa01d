/**
  Expansion of a recurring event into its occurrences (events/services.py). A start is its day
  number in the proleptic Gregorian calendar; the time of day is the same for the whole series.
  */
module Recurrence {
  import opened Wrappers

  const MAX_OCCURRENCES := 500
  const MAX_YEAR := 9999

  datatype Frequency = Once | Weekly | Monthly
  datatype Date = Date(year: int, month: int, day: int)
  datatype SeriesError = TooManyOccurrences | DateOutOfRange

  /** `until` is the last day an occurrence may start on. */
  datatype Rule = Rule(first: Date, frequency: Frequency, interval: nat, until: Option<Date>)

  // ---- The calendar ----

  predicate IsLeap(year: int) {
    year % 4 == 0 && (year % 100 != 0 || year % 400 == 0)
  }

  function DaysInMonth(year: int, month: int): int {
    if month == 2 then (if IsLeap(year) then 29 else 28)
    else if month in {4, 6, 9, 11} then 30 else 31
  }

  predicate ValidDate(d: Date) {
    1 <= d.year <= MAX_YEAR && 1 <= d.month <= 12 && 1 <= d.day <= DaysInMonth(d.year, d.month)
  }

  function DaysBeforeYear(year: int): int {
    var y := year - 1;
    y * 365 + y / 4 - y / 100 + y / 400
  }

  function DaysBeforeMonth(year: int, month: int): int
    requires 1 <= month
  {
    if month == 1 then 0 else DaysBeforeMonth(year, month - 1) + DaysInMonth(year, month - 1)
  }

  /** Day 1 is the first of January of year 1. */
  function DayNumber(d: Date): int
    requires 1 <= d.month
  {
    DaysBeforeYear(d.year) + DaysBeforeMonth(d.year, d.month) + d.day
  }

  const LAST_DAY: int := DaysBeforeYear(MAX_YEAR + 1)

  // ---- The n-th occurrence ----

  /** None when the month lies beyond the calendar. */
  function AddMonths(d: Date, months: nat): Option<Date>
    requires 1 <= d.month <= 12
  {
    var index := d.month - 1 + months;
    var year, month := d.year + index / 12, index % 12 + 1;
    if year > MAX_YEAR then None
    else Some(Date(year, month, Min(d.day, DaysInMonth(year, month))))
  }

  /** The n-th start of a recurring rule, None when it lies beyond the calendar. */
  function Nth(r: Rule, n: nat): Option<int>
    requires ValidDate(r.first)
  {
    if r.frequency == Monthly then
      var d := AddMonths(r.first, r.interval * n);
      if d.Some? then Some(DayNumber(d.value)) else None
    else
      var day := DayNumber(r.first) + 7 * (r.interval * n);
      if day > LAST_DAY then None else Some(day)
  }

  predicate PastEnd(r: Rule, day: int)
    requires r.until.Some? ==> ValidDate(r.until.value)
  {
    r.until.Some? && day > DayNumber(r.until.value)
  }

  predicate ValidRule(r: Rule) {
    ValidDate(r.first) && (r.until.Some? ==> ValidDate(r.until.value))
  }

  /** `starts` are the first starts of the rule, and none but the very first is past the end date. */
  ghost predicate Begins(r: Rule, starts: seq<int>)
    requires ValidRule(r)
  {
    forall k: nat :: k < |starts| ==> Nth(r, k) == Some(starts[k]) && (k == 0 || !PastEnd(r, starts[k]))
  }

  method OccurrenceStarts(r: Rule) returns (result: Result<seq<int>, SeriesError>)
    requires ValidRule(r)
    ensures r.frequency == Once ==> result == Ok([DayNumber(r.first)])
    ensures r.frequency != Once && result.Ok? ==>
              && 1 <= |result.value| < MAX_OCCURRENCES && Begins(r, result.value)
              && Nth(r, |result.value|).Some? && PastEnd(r, Nth(r, |result.value|).value)
    ensures result == Err(TooManyOccurrences) <==>
            r.frequency != Once && Nth(r, MAX_OCCURRENCES - 1).Some? && !PastEnd(r, Nth(r, MAX_OCCURRENCES - 1).value)
    ensures result == Err(TooManyOccurrences) ==>
              exists starts :: |starts| == MAX_OCCURRENCES && Begins(r, starts)
    ensures result == Err(DateOutOfRange) ==>
              exists starts :: 1 <= |starts| < MAX_OCCURRENCES && Begins(r, starts) && Nth(r, |starts|).None?
  {
    FirstIsFirst(r);
    var current := DayNumber(r.first);
    var starts: seq<int> := [];
    while true
      invariant |starts| < MAX_OCCURRENCES
      invariant r.frequency == Once ==> starts == [] && current == DayNumber(r.first)
      invariant Begins(r, starts + [current])
      decreases MAX_OCCURRENCES - |starts|
    {
      starts := starts + [current];
      if r.frequency == Once {
        assert starts == [DayNumber(r.first)];
        return Ok(starts);
      }
      if |starts| >= MAX_OCCURRENCES {
        assert Nth(r, MAX_OCCURRENCES - 1) == Some(starts[MAX_OCCURRENCES - 1]);
        return Err(TooManyOccurrences);
      }
      EarlierIsNotLater(r, |starts|, MAX_OCCURRENCES - 1);
      var next := Nth(r, |starts|);
      if next.None? {
        return Err(DateOutOfRange);
      }
      current := next.value;
      if PastEnd(r, current) {
        return Ok(starts);
      }
    }
  }

  // ---- Day numbers follow the calendar ----

  lemma FirstIsFirst(r: Rule)
    requires ValidRule(r)
    ensures Nth(r, 0) == Some(DayNumber(r.first))
  {
    assert r.interval * 0 == 0;
    WithinCalendar(r.first);
    assert AddMonths(r.first, 0) == Some(r.first) by {
      assert (r.first.month - 1) / 12 == 0 && (r.first.month - 1) % 12 == r.first.month - 1;
    }
  }

  /** The day number of the last day before month `index` (counted from month 0 of year 0). */
  function MonthStart(index: nat): int {
    DaysBeforeYear(index / 12) + DaysBeforeMonth(index / 12, index % 12 + 1)
  }

  lemma YearLength(year: int)
    ensures DaysBeforeYear(year + 1) == DaysBeforeYear(year) + if IsLeap(year) then 366 else 365
  {
    MultiplesCounted(year, 4);
    MultiplesCounted(year, 100);
    MultiplesCounted(year, 400);
  }

  lemma MultiplesCounted(year: int, n: nat)
    requires n == 4 || n == 100 || n == 400
    ensures year / n == (year - 1) / n + if year % n == 0 then 1 else 0
  {
  }

  lemma MonthsOfYear(year: int)
    ensures DaysBeforeMonth(year, 12) + DaysInMonth(year, 12) == if IsLeap(year) then 366 else 365
  {
    assert DaysBeforeMonth(year, 3) == DaysBeforeMonth(year, 2) + DaysInMonth(year, 2);
    assert DaysBeforeMonth(year, 6) == DaysBeforeMonth(year, 4) + 61;
    assert DaysBeforeMonth(year, 9) == DaysBeforeMonth(year, 7) + 62;
    assert DaysBeforeMonth(year, 12) == DaysBeforeMonth(year, 10) + 61;
  }

  lemma MonthLength(index: nat)
    ensures MonthStart(index + 1) == MonthStart(index) + DaysInMonth(index / 12, index % 12 + 1)
    ensures DaysInMonth(index / 12, index % 12 + 1) >= 28
  {
    if index % 12 == 11 {
      assert (index + 1) / 12 == index / 12 + 1 && (index + 1) % 12 == 0;
      YearLength(index / 12);
      MonthsOfYear(index / 12);
    } else {
      assert (index + 1) / 12 == index / 12 && (index + 1) % 12 == index % 12 + 1;
    }
  }

  lemma {:induction false} MonthStartsIncrease(a: nat, b: nat)
    requires a <= b
    ensures MonthStart(a) <= MonthStart(b)
  {
    if a < b {
      MonthStartsIncrease(a, b - 1);
      MonthLength(b - 1);
    }
  }

  function MonthIndex(d: Date): nat
    requires 0 <= d.year && 1 <= d.month
  {
    12 * d.year + d.month - 1
  }

  lemma DayWithinMonth(d: Date)
    requires ValidDate(d)
    ensures MonthStart(MonthIndex(d)) < DayNumber(d) <= MonthStart(MonthIndex(d) + 1)
  {
    var index := MonthIndex(d);
    assert index / 12 == d.year && index % 12 == d.month - 1;
    MonthLength(index);
  }

  /** Dates of a later month have greater day numbers. */
  lemma LaterMonthIsLater(d: Date, e: Date)
    requires ValidDate(d) && ValidDate(e) && MonthIndex(d) < MonthIndex(e)
    ensures DayNumber(d) < DayNumber(e)
  {
    DayWithinMonth(d);
    DayWithinMonth(e);
    MonthStartsIncrease(MonthIndex(d) + 1, MonthIndex(e));
    assert MonthStart(MonthIndex(d) + 1) <= MonthStart(MonthIndex(e));
  }

  lemma WithinCalendar(d: Date)
    requires ValidDate(d)
    ensures DayNumber(d) <= LAST_DAY
  {
    DayWithinMonth(d);
    MonthStartsIncrease(MonthIndex(d) + 1, 12 * (MAX_YEAR + 1));
    assert 12 * (MAX_YEAR + 1) / 12 == MAX_YEAR + 1;
  }

  /** The month reached is the right one, and its day is the first day clamped to that month alone. */
  lemma AddMonthsIsExact(d: Date, months: nat)
    requires ValidDate(d) && AddMonths(d, months).Some?
    ensures var e := AddMonths(d, months).value;
            && ValidDate(e)
            && MonthIndex(e) == MonthIndex(d) + months
            && e.day == Min(d.day, DaysInMonth(e.year, e.month))
  {
    var index := d.month - 1 + months;
    assert index == 12 * (index / 12) + index % 12;
  }

  /** Earlier clamping leaves no trace: the n-th monthly start depends on the first date only. */
  lemma MonthlyDoesNotDrift(r: Rule, n: nat)
    requires ValidRule(r) && r.frequency == Monthly
    ensures Nth(r, n).Some? <==> AddMonths(r.first, r.interval * n).Some?
    ensures Nth(r, n).Some? ==>
              var e := AddMonths(r.first, r.interval * n).value;
              && ValidDate(e) && Nth(r, n).value == DayNumber(e)
              && MonthIndex(e) == MonthIndex(r.first) + r.interval * n
              && e.day == Min(r.first.day, DaysInMonth(e.year, e.month))
  {
    if Nth(r, n).Some? {
      AddMonthsIsExact(r.first, r.interval * n);
    }
  }

  /** Weekly starts are exactly `interval` weeks apart. */
  lemma WeeklyKeepsStep(r: Rule, n: nat)
    requires ValidRule(r) && r.frequency == Weekly && Nth(r, n + 1).Some?
    ensures Nth(r, n).Some? && Nth(r, n + 1).value == Nth(r, n).value + 7 * r.interval
  {
    assert r.interval * (n + 1) == r.interval * n + r.interval;
  }

  // ---- The series ----

  lemma NthIncreases(r: Rule, m: nat, n: nat)
    requires ValidRule(r) && r.interval >= 1 && m < n && Nth(r, n).Some?
    ensures Nth(r, m).Some? && Nth(r, m).value < Nth(r, n).value
  {
    assert r.interval * m < r.interval * n by {
      assert r.interval * n == r.interval * m + r.interval * (n - m);
      StepIsPositive(r.interval, n - m);
    }
    if r.frequency == Monthly {
      AddMonthsIsExact(r.first, r.interval * n);
      assert AddMonths(r.first, r.interval * m).Some? by {
        assert (r.first.month - 1 + r.interval * m) / 12 <= (r.first.month - 1 + r.interval * n) / 12;
      }
      AddMonthsIsExact(r.first, r.interval * m);
      LaterMonthIsLater(AddMonths(r.first, r.interval * m).value, AddMonths(r.first, r.interval * n).value);
    }
  }

  lemma StepIsPositive(a: nat, b: nat)
    requires a >= 1 && b >= 1
    ensures a * b >= 1
  {
    assert a * b == (a - 1) * b + b;
  }

  /** Also for a rule that does not move at all. */
  lemma EarlierIsNotLater(r: Rule, m: nat, n: nat)
    requires ValidRule(r) && m <= n
    ensures Nth(r, n).Some? ==> Nth(r, m).Some? && Nth(r, m).value <= Nth(r, n).value
  {
    if r.interval == 0 {
      assert r.interval * m == r.interval * n == 0;
    } else if m < n && Nth(r, n).Some? {
      NthIncreases(r, m, n);
    }
  }

  /**
    An accepted series is strictly increasing and complete: a start of the rule is in it exactly when
    it is not past the end date.
    */
  lemma SeriesIsExact(r: Rule, starts: seq<int>)
    requires ValidRule(r) && r.frequency != Once && r.interval >= 1
    requires r.until.Some? && DayNumber(r.first) <= DayNumber(r.until.value)
    requires 1 <= |starts| && Begins(r, starts)
    requires Nth(r, |starts|).Some? && PastEnd(r, Nth(r, |starts|).value)
    ensures forall j, k :: 0 <= j < k < |starts| ==> starts[j] < starts[k]
    ensures forall n: nat :: Nth(r, n).Some? ==>
              (Nth(r, n).value <= DayNumber(r.until.value) <==> n < |starts|)
    ensures forall k: nat :: k < |starts| ==> starts[k] <= DayNumber(r.until.value)
  {
    FirstIsFirst(r);
    forall j, k | 0 <= j < k < |starts|
      ensures starts[j] < starts[k]
    {
      NthIncreases(r, j, k);
    }
    forall n: nat | Nth(r, n).Some?
      ensures Nth(r, n).value <= DayNumber(r.until.value) <==> n < |starts|
    {
      if n > |starts| {
        NthIncreases(r, |starts|, n);
      }
    }
  }

  /** A rule is refused as too long exactly when its 500th start exists and is not past the end date. */
  lemma TooManyExactly(r: Rule)
    requires ValidRule(r) && r.frequency != Once && r.interval >= 1
    ensures (exists starts :: |starts| == MAX_OCCURRENCES && Begins(r, starts)) <==>
            Nth(r, MAX_OCCURRENCES - 1).Some? && !PastEnd(r, Nth(r, MAX_OCCURRENCES - 1).value)
  {
    var last := MAX_OCCURRENCES - 1;
    if Nth(r, last).Some? && !PastEnd(r, Nth(r, last).value) {
      forall k: nat | k < last
        ensures Nth(r, k).Some? && Nth(r, k).value < Nth(r, last).value
      {
        NthIncreases(r, k, last);
      }
      var starts := seq(MAX_OCCURRENCES, k requires 0 <= k < MAX_OCCURRENCES => Nth(r, k).value);
      assert Begins(r, starts);
    }
  }

  /** A series of exactly 500 starts is refused, although the limit is 500. */
  lemma FiveHundredIsRefused(r: Rule)
    requires ValidRule(r) && r.frequency != Once && r.interval >= 1 && r.until.Some?
    requires Nth(r, MAX_OCCURRENCES - 1) == Some(DayNumber(r.until.value))
    ensures exists starts :: |starts| == MAX_OCCURRENCES && Begins(r, starts)
    ensures Nth(r, MAX_OCCURRENCES).Some? ==> PastEnd(r, Nth(r, MAX_OCCURRENCES).value)
  {
    TooManyExactly(r);
    if Nth(r, MAX_OCCURRENCES).Some? {
      NthIncreases(r, MAX_OCCURRENCES - 1, MAX_OCCURRENCES);
    }
  }
}
