/**
 Calendar arithmetic of the billing cycle: _add_one_month on the (proleptic) Gregorian calendar.
 */
module Calendar {
  import opened Basics

  predicate IsLeap(year: int) { year % 4 == 0 && (year % 100 != 0 || year % 400 == 0) }

  predicate MonthOk(month: int) { 1 <= month <= 12 }

  /** calendar.monthrange(year, month)[1] */
  function MonthLength(year: int, month: int): (days: nat)
    requires MonthOk(month)
    ensures 28 <= days <= 31
  {
    if month == 2 then (if IsLeap(year) then 29 else 28)
    else if month == 4 || month == 6 || month == 9 || month == 11 then 30
    else 31
  }

  const TICKS: int := 86_400_000_000  // microseconds of a day

  datatype DateTime = DateTime(year: int, month: int, day: int, tick: int) {
    predicate Valid() {
      MonthOk(month) && 1 <= day <= MonthLength(year, month) && 0 <= tick < TICKS
    }
  }

  function AddOneMonth(dt: DateTime): DateTime
    requires dt.Valid()
  {
    var (year, month) := if dt.month + 1 > 12 then (dt.year + 1, 1) else (dt.year, dt.month + 1);
    var last := MonthLength(year, month);
    DateTime(year, month, if dt.day < last then dt.day else last, dt.tick)
  }

  /* ---------------------------------- day numbers ---------------------------------- */

  /** Days before 1 January of the year, counted from 1 January of year 1. */
  function DaysBeforeYear(year: int): int {
    var y := year - 1;
    365 * y + y / 4 - y / 100 + y / 400
  }

  function DaysBeforeMonth(year: int, month: int): int
    requires MonthOk(month)
    decreases month
  {
    if month == 1 then 0 else DaysBeforeMonth(year, month - 1) + MonthLength(year, month - 1)
  }

  function DayNumber(dt: DateTime): int
    requires MonthOk(dt.month)
  {
    DaysBeforeYear(dt.year) + DaysBeforeMonth(dt.year, dt.month) + dt.day - 1
  }

  /** The instant as microseconds: what comparing two datetimes compares. */
  function Instant(dt: DateTime): int
    requires MonthOk(dt.month)
  {
    DayNumber(dt) * TICKS + dt.tick
  }

  function YearLength(year: int): int { if IsLeap(year) then 366 else 365 }

  lemma MonthsFillYear(year: int)
    ensures DaysBeforeMonth(year, 12) + 31 == YearLength(year)
  {
    assert DaysBeforeMonth(year, 3) == 31 + MonthLength(year, 2);
    assert DaysBeforeMonth(year, 6) == DaysBeforeMonth(year, 3) + 92;
    assert DaysBeforeMonth(year, 9) == DaysBeforeMonth(year, 6) + 92;
    assert DaysBeforeMonth(year, 12) == DaysBeforeMonth(year, 9) + 91;
  }

  lemma DivSteps(y: int, d: int)
    requires d > 0
    ensures (y + 1) / d == y / d + if (y + 1) % d == 0 then 1 else 0
  {
    var q, r := y / d, y % d;
    assert y == q * d + r;
    if r + 1 == d {
      assert y + 1 == (q + 1) * d by { assert (q + 1) * d == q * d + d; }
      DivExact(y + 1, q + 1, d, 0);
    } else {
      DivExact(y + 1, q, d, r + 1);
    }
  }

  lemma ModNests(n: int, c: int, d: int)
    requires c > 0 && d > 0 && n % (c * d) == 0
    ensures n % d == 0
  {
    var q := n / (c * d);
    assert n == q * (c * d);
    assert q * (c * d) == (q * c) * d;
    DivExact(n, q * c, d, 0);
  }

  /** The leap-year rule and the count of days agree. */
  lemma YearsAddUp(year: int)
    ensures DaysBeforeYear(year + 1) == DaysBeforeYear(year) + YearLength(year)
  {
    var y := year - 1;
    DivSteps(y, 4);
    DivSteps(y, 100);
    DivSteps(y, 400);
    assert y + 1 == year;
    if year % 400 == 0 { ModNests(year, 4, 100); }
    if year % 100 == 0 { ModNests(year, 25, 4); }
  }

  /** The day number in closed form, with years that start in March: 153 days for every five months from
      there on, and the leap day at the end. */
  function MarchDays(year: int, month: int, day: int): int {
    var (y, m) := if month <= 2 then (year - 1, month + 9) else (year, month - 3);
    365 * y + y / 4 - y / 100 + y / 400 + (153 * m + 2) / 5 + day - 307
  }

  lemma {:induction false} MonthsFromMarch(year: int, month: int)
    requires 3 <= month <= 12
    ensures DaysBeforeMonth(year, month) == YearLength(year) - 306 + (153 * (month - 3) + 2) / 5
    decreases month
  {
    if month == 3 {
      assert DaysBeforeMonth(year, 3) == 31 + MonthLength(year, 2);
    } else {
      MonthsFromMarch(year, month - 1);
    }
  }

  /** The month table and the closed form agree on every day. */
  lemma DayNumberIsClosed(dt: DateTime)
    requires MonthOk(dt.month)
    ensures DayNumber(dt) == MarchDays(dt.year, dt.month, dt.day)
  {
    YearsAddUp(dt.year);
    if dt.month >= 3 { MonthsFromMarch(dt.year, dt.month); }
  }

  /** Each month is as long as it takes from its first day to that of the next. */
  lemma MonthLengthIsClosed(year: int, month: int)
    requires MonthOk(month)
    ensures MonthLength(year, month)
            == MarchDays(if month == 12 then year + 1 else year, if month == 12 then 1 else month + 1, 1)
               - MarchDays(year, month, 1)
  {
    var first, next := DateTime(year, month, 1, 0), FirstOfNext(year, month);
    DayNumberIsClosed(first);
    DayNumberIsClosed(next);
    MonthsAdjoin(year, month);
  }

  function FirstOfNext(year: int, month: int): DateTime {
    DateTime(if month == 12 then year + 1 else year, if month == 12 then 1 else month + 1, 1, 0)
  }

  lemma MonthsAdjoin(year: int, month: int)
    requires MonthOk(month)
    ensures DayNumber(FirstOfNext(year, month)) == DayNumber(DateTime(year, month, 1, 0)) + MonthLength(year, month)
  {
    if month == 12 {
      YearsAddUp(year);
      MonthsFillYear(year);
    }
  }

  /** Field by field, as datetimes are compared. */
  predicate Before(a: DateTime, b: DateTime) {
    a.year < b.year || (a.year == b.year &&
      (a.month < b.month || (a.month == b.month && (a.day < b.day || (a.day == b.day && a.tick < b.tick)))))
  }

  lemma {:induction false} YearsGrow(a: int, b: int)
    requires a <= b
    ensures DaysBeforeYear(a) <= DaysBeforeYear(b)
    decreases b - a
  {
    if a < b {
      YearsGrow(a, b - 1);
      YearsAddUp(b - 1);
    }
  }

  lemma {:induction false} MonthsGrow(year: int, m: int, n: int)
    requires MonthOk(m) && MonthOk(n) && m < n
    ensures DaysBeforeMonth(year, m) + MonthLength(year, m) <= DaysBeforeMonth(year, n)
    decreases n
  {
    if m < n - 1 { MonthsGrow(year, m, n - 1); }
  }

  lemma DayInYear(dt: DateTime)
    requires dt.Valid()
    ensures DaysBeforeYear(dt.year) <= DayNumber(dt) < DaysBeforeYear(dt.year + 1)
  {
    YearsAddUp(dt.year);
    MonthsFillYear(dt.year);
    if dt.month < 12 { MonthsGrow(dt.year, dt.month, 12); }
    if dt.month > 1 { MonthsGrow(dt.year, 1, dt.month); }
  }

  lemma EarlierDay(a: DateTime, b: DateTime)
    requires a.Valid() && b.Valid() && Before(a, b)
    ensures DayNumber(a) < DayNumber(b) || (DayNumber(a) == DayNumber(b) && a.tick < b.tick)
  {
    if a.year < b.year {
      DayInYear(a);
      DayInYear(b);
      YearsGrow(a.year + 1, b.year);
    } else if a.month < b.month {
      MonthsGrow(a.year, a.month, b.month);
    }
  }

  /** Comparing instants is comparing datetimes. */
  lemma InstantOrder(a: DateTime, b: DateTime)
    requires a.Valid() && b.Valid()
    ensures Before(a, b) <==> Instant(a) < Instant(b)
  {
    if Before(a, b) { EarlierDay(a, b); } else if a != b { EarlierDay(b, a); }
  }

  /* ---------------------------------- one advance ---------------------------------- */

  function MonthIndex(dt: DateTime): int { 12 * dt.year + dt.month - 1 }

  function LengthOf(index: int): nat { MonthLength(index / 12, index % 12 + 1) }

  function Min(a: int, b: int): int { if a < b then a else b }

  lemma IndexSplits(year: int, month: int)
    requires MonthOk(month)
    ensures (12 * year + month - 1) / 12 == year && (12 * year + month - 1) % 12 == month - 1
  {
    DivExact(12 * year + month - 1, year, 12, month - 1);
  }

  /** One advance goes to the next month, to the same day or the last one it has, and moves the day
      number forward by 28 to 31 days. */
  lemma AddOneMonthMoves(dt: DateTime)
    requires dt.Valid()
    ensures var next := AddOneMonth(dt);
            && next.Valid() && next.tick == dt.tick && MonthIndex(next) == MonthIndex(dt) + 1
            && next.day == Min(dt.day, LengthOf(MonthIndex(dt) + 1))
            && DayNumber(dt) + 28 <= DayNumber(next) <= DayNumber(dt) + 31
  {
    var next := AddOneMonth(dt);
    IndexSplits(next.year, next.month);
    if dt.month == 12 {
      YearsAddUp(dt.year);
      MonthsFillYear(dt.year);
    }
  }

  lemma AddOneMonthLater(dt: DateTime)
    requires dt.Valid()
    ensures AddOneMonth(dt).Valid() && Instant(AddOneMonth(dt)) >= Instant(dt) + 28 * TICKS
  {
    AddOneMonthMoves(dt);
  }

  /* ---------------------------------- many advances ---------------------------------- */

  function Advanced(dt: DateTime, k: nat): (r: DateTime)
    requires dt.Valid()
    ensures r.Valid()
  {
    if k == 0 then dt
    else
      AddOneMonthMoves(Advanced(dt, k - 1));
      AddOneMonth(Advanced(dt, k - 1))
  }

  /** The shortest of the k months after month `index` (31 if there is none). */
  function ShortestAfter(index: int, k: nat): (days: int)
    ensures 28 <= days <= 31
  {
    if k == 0 then 31 else Min(ShortestAfter(index, k - 1), LengthOf(index + k))
  }

  lemma {:induction false} ShortestIsLeast(index: int, k: nat, j: nat)
    requires 1 <= j <= k
    ensures ShortestAfter(index, k) <= LengthOf(index + j)
  {
    if j < k { ShortestIsLeast(index, k - 1, j); }
  }

  lemma {:induction false} ShortestIsAttained(index: int, k: nat) returns (j: nat)
    ensures ShortestAfter(index, k) == 31 || (1 <= j <= k && ShortestAfter(index, k) == LengthOf(index + j))
  {
    j := k;
    if k > 0 && LengthOf(index + k) >= ShortestAfter(index, k - 1) { j := ShortestIsAttained(index, k - 1); }
  }

  lemma {:induction false} DaysAfter(dt: DateTime, k: nat)
    requires dt.Valid()
    ensures DayNumber(dt) + 28 * k <= DayNumber(Advanced(dt, k)) <= DayNumber(dt) + 31 * k
  {
    if k > 0 {
      DaysAfter(dt, k - 1);
      AddOneMonthMoves(Advanced(dt, k - 1));
    }
  }

  lemma {:induction false} MonthsAfter(dt: DateTime, k: nat)
    requires dt.Valid()
    ensures var r := Advanced(dt, k);
            && MonthIndex(r) == MonthIndex(dt) + k && r.tick == dt.tick
            && r.day == Min(dt.day, ShortestAfter(MonthIndex(dt), k))
  {
    if k > 0 {
      MonthsAfter(dt, k - 1);
      AddOneMonthMoves(Advanced(dt, k - 1));
    }
  }

  /** After k advances exactly k months have passed, and the day is the original one cut down to the
      shortest month on the way; the time of day never changes. */
  lemma AfterAdvances(dt: DateTime, k: nat)
    requires dt.Valid()
    ensures var r := Advanced(dt, k);
            && MonthIndex(r) == MonthIndex(dt) + k && r.tick == dt.tick
            && r.day == Min(dt.day, ShortestAfter(MonthIndex(dt), k))
            && DayNumber(dt) + 28 * k <= DayNumber(r) <= DayNumber(dt) + 31 * k
  {
    MonthsAfter(dt, k);
    DaysAfter(dt, k);
  }

  lemma FebruaryLength(year: int)
    ensures LengthOf(12 * year + 1) == if IsLeap(year) then 29 else 28
  {
    IndexSplits(year, 2);
  }

  lemma NoTwoLeapYears(year: int)
    ensures !(IsLeap(year) && IsLeap(year + 1))
  {
    DivSteps(year, 4);
  }

  /** Some month among the 23 after dt has 28 days, unless dt's own day is 28 or less. */
  lemma ShortFebruary(dt: DateTime)
    requires dt.Valid() && dt.day > 28
    ensures ShortestAfter(MonthIndex(dt), 23) == 28
  {
    // the first February after dt, and the one a year later
    var year := if dt.month < 2 then dt.year else dt.year + 1;
    var j := 12 * year + 1 - MonthIndex(dt);
    FebruaryLength(year);
    NoTwoLeapYears(year);
    if !IsLeap(year) {
      ShortestIsLeast(MonthIndex(dt), 23, j);
    } else {
      NoTwoLeapYears(year - 1);
      FebruaryLength(year + 1);
      ShortestIsLeast(MonthIndex(dt), 23, j + 12);
    }
  }

  lemma {:induction false} ShortestStays(index: int, k: nat, n: nat)
    requires n <= k && ShortestAfter(index, n) == 28
    ensures ShortestAfter(index, k) == 28
  {
    if n < k { ShortestStays(index, k - 1, n); }
  }

  /** The day after k advances is the original one, or 28 if that was later. */
  predicate Settled(dt: DateTime, k: nat)
    requires dt.Valid()
  {
    Advanced(dt, k).day == Min(dt.day, 28)
  }

  /** From the 23rd advance on the day is the original one, or 28 if that was later, and stays so. */
  lemma DaySettles(dt: DateTime, k: nat)
    requires dt.Valid() && k >= 23
    ensures Settled(dt, k)
  {
    AfterAdvances(dt, k);
    if dt.day > 28 {
      ShortFebruary(dt);
      ShortestStays(MonthIndex(dt), k, 23);
    }
  }

  lemma ShortestOf22(i: int, k: nat)
    requires i == 24278 && k == 22
    ensures ShortestAfter(i, k) == 29
  {
    FebruaryLength(2024);
    ShortestIsLeast(i, k, 11);
    var j := ShortestIsAttained(i, k);
    OnlyFebruaryIsShort(i, j);
  }

  lemma OnlyFebruaryIsShort(i: int, j: nat)
    requires i == 24278 && j <= 22
    ensures LengthOf(i + j) >= 29
  {
    if j == 11 { FebruaryLength(2024); } else { assert (i + j) % 12 != 1; }
  }

  lemma {:induction false} ShortestShrinks(index: int, k: nat, n: nat)
    requires k <= n
    ensures ShortestAfter(index, n) <= ShortestAfter(index, k)
  {
    if k < n { ShortestShrinks(index, k, n - 1); }
  }

  lemma NotSettledBefore(dt: DateTime, k: nat, n: nat)
    requires dt == DateTime(2023, 3, 31, 0) && k <= n == 22
    ensures dt.Valid() && !Settled(dt, k)
  {
    AfterAdvances(dt, k);
    ShortestOf22(MonthIndex(dt), n);
    ShortestShrinks(MonthIndex(dt), k, n);
  }

  /** The day has settled for every start exactly from the 23rd advance on: from 31 March 2023 it has
      not after 22. */
  lemma DaySettlesExactly(k: nat)
    ensures (forall dt: DateTime | dt.Valid() :: Settled(dt, k)) <==> k >= 23
  {
    if k >= 23 {
      forall dt: DateTime | dt.Valid() ensures Settled(dt, k) { DaySettles(dt, k); }
    } else {
      NotSettledBefore(DateTime(2023, 3, 31, 0), k, 22);
    }
  }
}
