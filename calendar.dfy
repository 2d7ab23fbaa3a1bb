/** A small proleptic Gregorian calendar, as Python's datetime.date uses:
    years 1..9999, and day ordinals where 0001-01-01 is day 1. Every date in
    the rest of the model is such an ordinal, so `d2 - d1` is Python's
    `(d2 - d1).days` and `d - k` is `d - timedelta(days=k)`. */
module Calendar {

  const MinYear := 1
  const MaxYear := 9999

  datatype CivilDate = CivilDate(year: int, month: int, day: int)

  datatype YearMonth = YearMonth(year: int, month: int)

  predicate IsLeap(y: int)
  {
    y % 4 == 0 && (y % 100 != 0 || y % 400 == 0)
  }

  function MonthLength(y: int, m: int): int
    requires 1 <= m <= 12
  {
    if m == 2 then (if IsLeap(y) then 29 else 28)
    else if m == 4 || m == 6 || m == 9 || m == 11 then 30
    else 31
  }

  function YearLength(y: int): int
  {
    if IsLeap(y) then 366 else 365
  }

  /** The leap years among 1 .. n. */
  function LeapYearsUpTo(n: int): int
  {
    n / 4 - n / 100 + n / 400
  }

  /** Counting one more year adds one exactly when that year is a leap year. */
  lemma LeapYearsStep(n: int)
    requires n >= 1
    ensures LeapYearsUpTo(n) == LeapYearsUpTo(n - 1) + (if IsLeap(n) then 1 else 0)
  {
    DivisionStep(n, 4);
    DivisionStep(n, 100);
    DivisionStep(n, 400);
    if n % 100 == 0 {
      MultipleOfMultiple(n, 100, 4, 25);
    }
    if n % 400 == 0 {
      MultipleOfMultiple(n, 400, 100, 4);
    }
  }

  /** Going from n - 1 to n, the quotient by d grows by one exactly when d
      divides n. */
  lemma DivisionStep(n: int, d: int)
    requires d > 0
    ensures n / d - (n - 1) / d == if n % d == 0 then 1 else 0
  {
    var q, m := (n - 1) / d, (n - 1) % d;
    assert n == q * d + m + 1;
    if m + 1 == d {
      assert n == (q + 1) * d + 0;
      QuotientOf(n, d, q + 1, 0);
    } else {
      QuotientOf(n, d, q, m + 1);
    }
  }

  /** Division's quotient and remainder are the unique ones. */
  lemma QuotientOf(n: int, d: int, q: int, m: int)
    requires d > 0 && 0 <= m < d && n == q * d + m
    ensures n / d == q && n % d == m
  {
    var q2, m2 := n / d, n % d;
    assert (q - q2) * d == m2 - m;
    if q > q2 {
      AtLeastOnce(q - q2, d);
      assert false;
    } else if q < q2 {
      assert (q2 - q) * d == m - m2;
      AtLeastOnce(q2 - q, d);
      assert false;
    }
  }

  /** A positive multiple of d is at least d. */
  lemma AtLeastOnce(a: int, d: int)
    requires a >= 1 && d > 0
    ensures a * d >= d
  {
    assert a * d == (a - 1) * d + d;
  }

  /** A multiple of d * e is a multiple of e. */
  lemma MultipleOfMultiple(n: int, de: int, e: int, d: int)
    requires e > 0 && d > 0 && de == d * e && n % de == 0
    ensures n % e == 0
  {
    var k := n / de;
    assert n == k * de;
    assert n == (k * d) * e + 0;
    QuotientOf(n, e, k * d, 0);
  }

  /** The days of the years before y: 365 for each, plus one per leap year. */
  function DaysBeforeYear(y: int): (r: int)
    requires y >= 1
    ensures r == 365 * (y - 1) + LeapYearsUpTo(y - 1)
    ensures r >= 0 && (y > 1 ==> r >= 365)
    decreases y
  {
    if y == 1 then 0
    else
      LeapYearsStep(y - 1);
      DaysBeforeYear(y - 1) + YearLength(y - 1)
  }

  function DaysBeforeMonth(y: int, m: int): int
    requires 1 <= m <= 12
  {
    var common :=
      if m == 1 then 0 else if m == 2 then 31 else if m == 3 then 59
      else if m == 4 then 90 else if m == 5 then 120 else if m == 6 then 151
      else if m == 7 then 181 else if m == 8 then 212 else if m == 9 then 243
      else if m == 10 then 273 else if m == 11 then 304 else 334;
    common + (if m > 2 && IsLeap(y) then 1 else 0)
  }

  predicate ValidMonth(y: int, m: int)
  {
    MinYear <= y <= MaxYear && 1 <= m <= 12
  }

  predicate Valid(c: CivilDate)
  {
    ValidMonth(c.year, c.month) && 1 <= c.day <= MonthLength(c.year, c.month)
  }

  /** date.toordinal() */
  function Ordinal(c: CivilDate): int
    requires Valid(c)
  {
    DaysBeforeYear(c.year) + DaysBeforeMonth(c.year, c.month) + c.day
  }

  lemma MonthStep(y: int, m: int)
    requires 1 <= m < 12
    ensures DaysBeforeMonth(y, m + 1) == DaysBeforeMonth(y, m) + MonthLength(y, m)
  {
  }

  lemma DecemberStep(y: int)
    ensures DaysBeforeMonth(y, 12) + MonthLength(y, 12) == YearLength(y)
  {
  }

  /** The first day of the month after (y, m) comes MonthLength(y, m) days
      after the first day of (y, m). */
  lemma NextFirstOrdinal(y: int, m: int)
    requires ValidMonth(y, m) && (m < 12 || y < MaxYear)
    ensures var n := if m == 12 then CivilDate(y + 1, 1, 1) else CivilDate(y, m + 1, 1);
            Valid(n) && Ordinal(n) == Ordinal(CivilDate(y, m, 1)) + MonthLength(y, m)
  {
    if m == 12 {
      DecemberStep(y);
    } else {
      MonthStep(y, m);
    }
  }

  /** date - timedelta(days=1), on the civil form. */
  function PrevDay(c: CivilDate): (r: CivilDate)
    requires Valid(c) && Ordinal(c) > 1
    ensures Valid(r) && Ordinal(r) == Ordinal(c) - 1
  {
    if c.day > 1 then CivilDate(c.year, c.month, c.day - 1)
    else if c.month > 1 then
      MonthStep(c.year, c.month - 1);
      CivilDate(c.year, c.month - 1, MonthLength(c.year, c.month - 1))
    else
      assert c.year > 1;
      DecemberStep(c.year - 1);
      CivilDate(c.year - 1, 12, 31)
  }

  /** Months counted from year 0: consecutive months differ by one. */
  function MonthIndex(ym: YearMonth): int
  {
    ym.year * 12 + (ym.month - 1)
  }

  /** The "previous month" link of the calendar page. */
  function PrevMonth(ym: YearMonth): (r: YearMonth)
    requires 1 <= ym.month <= 12
    ensures 1 <= r.month <= 12
    ensures MonthIndex(r) == MonthIndex(ym) - 1
  {
    if ym.month == 1 then YearMonth(ym.year - 1, 12) else YearMonth(ym.year, ym.month - 1)
  }

  /** The "next month" link of the calendar page. */
  function NextMonth(ym: YearMonth): (r: YearMonth)
    requires 1 <= ym.month <= 12
    ensures 1 <= r.month <= 12
    ensures MonthIndex(r) == MonthIndex(ym) + 1
  {
    if ym.month == 12 then YearMonth(ym.year + 1, 1) else YearMonth(ym.year, ym.month + 1)
  }

  /** Going back a month and forward again returns to the same month, and
      conversely. */
  lemma PrevNextRoundTrip(ym: YearMonth)
    requires 1 <= ym.month <= 12
    ensures NextMonth(PrevMonth(ym)) == ym
    ensures PrevMonth(NextMonth(ym)) == ym
  {
  }

  /** The last day of month (y, m), computed as the calendar page does: the
      first day of the following month minus one day. */
  function EndOfMonth(y: int, m: int): (r: int)
    requires ValidMonth(y, m) && (m < 12 || y < MaxYear)
    ensures r == Ordinal(CivilDate(y, m, MonthLength(y, m)))
    ensures r - Ordinal(CivilDate(y, m, 1)) + 1 == MonthLength(y, m)
  {
    NextFirstOrdinal(y, m);
    if m == 12 then Ordinal(CivilDate(y + 1, 1, 1)) - 1
    else Ordinal(CivilDate(y, m + 1, 1)) - 1
  }

  /** Whether the previous-month window of (y, m) can be built without
      Python raising: the day before the 1st must exist, and, for January,
      1 December two years back must exist too. */
  predicate PrevWindowDefined(y: int, m: int)
  {
    ValidMonth(y, m) && (m != 1 || y >= MinYear + 2)
  }

  /** The start of the previous-month window, as the calendar page computes
      it: take the day before the 1st of (y, m); if that day is in December,
      go to 1 December of the year BEFORE it, otherwise to the 1st of its
      month. */
  function PrevWindowStart(y: int, m: int): (r: CivilDate)
    requires PrevWindowDefined(y, m)
    ensures Valid(r)
  {
    var start := CivilDate(y, m, 1);
    assert Ordinal(start) > 1 by {
      if y == 1 { assert m > 1; }
    }
    var p := PrevDay(start);
    if p.month == 12 then CivilDate(p.year - 1, p.month, 1) else CivilDate(p.year, p.month, 1)
  }

  /** For every month but January the window is exactly the previous month. */
  lemma PrevWindowIsPrevMonth(y: int, m: int)
    requires PrevWindowDefined(y, m) && m != 1
    ensures var pm := PrevMonth(YearMonth(y, m));
            PrevWindowStart(y, m) == CivilDate(pm.year, pm.month, 1) &&
            Ordinal(CivilDate(y, m, 1)) - Ordinal(PrevWindowStart(y, m)) == MonthLength(pm.year, pm.month)
  {
    MonthStep(y, m - 1);
  }

  /** For January the window starts on 1 December two years back, so it
      covers thirteen months: December of year y - 2 and all of year y - 1. */
  lemma PrevWindowJanuary(y: int)
    requires PrevWindowDefined(y, 1)
    ensures PrevWindowStart(y, 1) == CivilDate(y - 2, 12, 1)
    ensures Ordinal(CivilDate(y, 1, 1)) - Ordinal(PrevWindowStart(y, 1)) == 31 + YearLength(y - 1)
  {
    DecemberStep(y - 2);
  }
}
