/**
 The proleptic Gregorian calendar as ECMA-262 defines it (section 21.4.1), for
 days from 1 January 1970 on. Months are numbered from 0, as in the language.
 */
module Calendar {

  const MS_PER_HOUR := 3_600_000
  const MS_PER_DAY := 86_400_000

  predicate Leap(y: int) {
    y % 4 == 0 && (y % 100 != 0 || y % 400 == 0)
  }

  function DaysInYear(y: int): nat {
    if Leap(y) then 366 else 365
  }

  /** The number of the first day of a year. */
  function DayFromYear(y: int): int {
    365 * (y - 1970) + (y - 1969) / 4 - (y - 1901) / 100 + (y - 1601) / 400
  }

  lemma YearLength(y: int)
    ensures DayFromYear(y + 1) == DayFromYear(y) + DaysInYear(y)
  {
    DivSteps(y - 1969, 4);
    DivSteps(y - 1901, 100);
    DivSteps(y - 1601, 400);
    ModShift(y, 4, 492);
    ModShift(y, 100, 19);
    ModShift(y, 400, 4);
    LeapNesting(y);
  }

  lemma ModShift(x: int, k: nat, c: int)
    requires k > 0
    ensures (x - k * c) % k == x % k
  {
    QuotientIs(x - k * c, k, x / k - c, x % k);
  }

  lemma LeapNesting(y: int)
    ensures y % 400 == 0 ==> y % 100 == 0
    ensures y % 100 == 0 ==> y % 4 == 0
  {
  }

  lemma DivSteps(x: int, k: nat)
    requires k > 0
    ensures (x + 1) / k == x / k + if (x + 1) % k == 0 then 1 else 0
  {
    var q, r := x / k, x % k;
    assert x == k * q + r;
    if r == k - 1 {
      assert x + 1 == k * (q + 1);
      QuotientIs(x + 1, k, q + 1, 0);
    } else {
      QuotientIs(x + 1, k, q, r + 1);
    }
  }

  lemma QuotientIs(x: int, k: nat, q: int, r: nat)
    requires k > 0 && r < k && x == k * q + r
    ensures x / k == q && x % k == r
  {
    var d := x / k - q;
    assert k * d == r - x % k by {
      assert x == k * (x / k) + x % k;
      assert k * d == k * (x / k) - k * q;
    }
    assert d >= 1 ==> k * (d - 1) >= 0;
    assert d <= -1 ==> k * (-d - 1) >= 0;
  }

  /** The year a day falls in, found by walking up from a year known to have begun. */
  function YearFrom(d: nat, y: nat): (r: nat)
    requires DayFromYear(y) <= d
    ensures y <= r && DayFromYear(r) <= d < DayFromYear(r + 1)
    decreases d - DayFromYear(y)
  {
    YearLength(y);
    if DayFromYear(y + 1) <= d then YearFrom(d, y + 1) else y
  }

  function YearFromDay(d: nat): (r: nat)
    ensures 1970 <= r && DayFromYear(r) <= d < DayFromYear(r + 1)
  {
    YearFrom(d, 1970)
  }

  lemma YearsAreOrdered(y: int, z: int)
    requires y <= z
    ensures DayFromYear(y) <= DayFromYear(z)
    decreases z - y
  {
    if y < z {
      YearLength(y);
      YearsAreOrdered(y + 1, z);
    }
  }

  lemma YearIsUnique(d: nat, y: nat)
    requires DayFromYear(y) <= d < DayFromYear(y + 1)
    ensures YearFromDay(d) == y
  {
    var r := YearFromDay(d);
    if r < y {
      YearsAreOrdered(r + 1, y);
    } else if y < r {
      YearsAreOrdered(y + 1, r);
    }
  }

  /** Days of the year before month m; twelve months make the year. */
  function DaysBefore(m: nat, leap: bool): (n: nat)
    requires m <= 12
  {
    var plain :=
      if m <= 5 then (if m == 0 then 0 else if m == 1 then 31 else if m == 2 then 59
                      else if m == 3 then 90 else if m == 4 then 120 else 151)
      else (if m == 6 then 181 else if m == 7 then 212 else if m == 8 then 243
            else if m == 9 then 273 else if m == 10 then 304 else if m == 11 then 334 else 365);
    plain + if leap && m >= 2 then 1 else 0
  }

  function DaysInMonth(y: int, m: nat): nat
    requires m < 12
  {
    DaysBefore(m + 1, Leap(y)) - DaysBefore(m, Leap(y))
  }

  function MonthWithin(n: nat, leap: bool, m: nat): (r: nat)
    requires m < 12 && DaysBefore(m, leap) <= n < DaysBefore(12, leap)
    ensures m <= r < 12 && DaysBefore(r, leap) <= n < DaysBefore(r + 1, leap)
    decreases 12 - m
  {
    if DaysBefore(m + 1, leap) <= n then MonthWithin(n, leap, m + 1) else m
  }

  function MonthFromDay(d: nat): (m: nat)
    ensures m < 12
    ensures FirstOfMonth(YearFromDay(d), m) <= d < FirstOfMonth(YearFromDay(d), m) + DaysInMonth(YearFromDay(d), m)
  {
    var y := YearFromDay(d);
    YearLength(y);
    MonthWithin(d - DayFromYear(y), Leap(y), 0)
  }

  function FirstOfMonth(y: int, m: nat): int
    requires m < 12
  {
    DayFromYear(y) + DaysBefore(m, Leap(y))
  }

  /** The day of the month, counted from 1. */
  function DateFromDay(d: nat): (r: nat)
    ensures 1 <= r <= DaysInMonth(YearFromDay(d), MonthFromDay(d))
  {
    d - FirstOfMonth(YearFromDay(d), MonthFromDay(d)) + 1
  }

  /** MakeDay: months and dates out of range carry over into years and days. */
  function MakeDay(y: int, m: int, date: int): int {
    FirstOfMonth(y + m / 12, m % 12) + date - 1
  }

  lemma MakeDayInRange(y: int, m: nat, date: int)
    requires m < 12
    ensures MakeDay(y, m, date) == FirstOfMonth(y, m) + date - 1
  {
    assert m / 12 == 0 && m % 12 == m;
  }

  lemma MakeDayInverts(d: nat)
    ensures MakeDay(YearFromDay(d), MonthFromDay(d), DateFromDay(d)) == d
  {
    MakeDayInRange(YearFromDay(d), MonthFromDay(d), DateFromDay(d));
  }

  lemma DaysBeforeIsOrdered(a: nat, b: nat, leap: bool)
    requires a <= b <= 12
    ensures DaysBefore(a, leap) <= DaysBefore(b, leap)
  {
  }

  /** Two months of one year that share a day are the same month. */
  lemma MonthIsUnique(n: int, leap: bool, a: nat, b: nat)
    requires a < 12 && b < 12
    requires DaysBefore(a, leap) <= n < DaysBefore(a + 1, leap)
    requires DaysBefore(b, leap) <= n < DaysBefore(b + 1, leap)
    ensures a == b
  {
  }

  /** The day d lies in month m of year y. */
  ghost predicate InMonth(d: int, y: int, m: nat) {
    m < 12 && FirstOfMonth(y, m) <= d < FirstOfMonth(y, m) + DaysInMonth(y, m)
  }

  lemma InMonthIsInYear(d: int, y: int, m: nat)
    requires InMonth(d, y, m)
    ensures DayFromYear(y) <= d < DayFromYear(y + 1)
  {
    YearLength(y);
    DaysBeforeIsOrdered(m + 1, 12, Leap(y));
  }

  lemma InMonthIsUnique(d: nat, y: nat, m: nat)
    requires InMonth(d, y, m)
    ensures YearFromDay(d) == y && MonthFromDay(d) == m
  {
    InMonthIsInYear(d, y, m);
    YearIsUnique(d, y);
    MonthIsUnique(d - DayFromYear(y), Leap(y), m, MonthFromDay(d));
  }

  /** A date that exists is read back from its day. */
  lemma DateIsUnique(y: nat, m: nat, date: nat)
    requires y >= 1970 && m < 12 && 1 <= date <= DaysInMonth(y, m)
    ensures var d := MakeDay(y, m, date);
            d >= 0 && YearFromDay(d) == y && MonthFromDay(d) == m && DateFromDay(d) == date
  {
    MakeDayInRange(y, m, date);
    YearsAreOrdered(1970, y);
    InMonthIsUnique(FirstOfMonth(y, m) + date - 1, y, m);
  }

  // ----- the periods of the spend limits -----

  function DayStart(t: nat): nat {
    t / MS_PER_DAY * MS_PER_DAY
  }

  function MonthStart(t: nat): (s: nat)
    ensures s <= t
  {
    var d := t / MS_PER_DAY;
    YearsAreOrdered(1970, YearFromDay(d));
    FirstOfMonth(YearFromDay(d), MonthFromDay(d)) * MS_PER_DAY
  }

  /** An earlier instant is in the same day exactly when it is not before that day's start. */
  lemma SameDay(t: nat, now: nat)
    requires t <= now
    ensures t >= DayStart(now) <==> DayStart(t) == DayStart(now)
  {
  }

  lemma SameMonth(t: nat, now: nat)
    requires t <= now
    ensures t >= MonthStart(now) <==> MonthStart(t) == MonthStart(now)
  {
    var d, e := now / MS_PER_DAY, t / MS_PER_DAY;
    var first := FirstOfMonth(YearFromDay(d), MonthFromDay(d));
    assert e <= d;
    assert t >= first * MS_PER_DAY <==> e >= first;
    if e >= first {
      SameMonthOfDay(e, d);
    }
  }

  lemma SameMonthOfDay(e: nat, d: nat)
    requires FirstOfMonth(YearFromDay(d), MonthFromDay(d)) <= e <= d
    ensures YearFromDay(e) == YearFromDay(d) && MonthFromDay(e) == MonthFromDay(d)
  {
    InMonthIsUnique(e, YearFromDay(d), MonthFromDay(d));
  }

  lemma MonthLengths(y: int, m: nat)
    requires m < 12
    ensures DaysInMonth(y, m) == if m == 1 then (if Leap(y) then 29 else 28) else if m in {3, 5, 8, 10} then 30 else 31
  {
  }

  /** Every instant of a date counts for that day and for that calendar month. */
  lemma PeriodsOfDate(y: nat, m: nat, date: nat, ms: nat)
    requires y >= 1970 && m < 12 && 1 <= date <= DaysInMonth(y, m) && ms < 86_400_000
    ensures var t := MakeDay(y, m, date) * 86_400_000 + ms;
            && t >= 0 && DayStart(t) == MakeDay(y, m, date) * 86_400_000
            && MonthStart(t) == MakeDay(y, m, 1) * 86_400_000
  {
    hide MonthStart, DayStart, YearFromDay, MonthFromDay, DateFromDay, MakeDay, FirstOfMonth, DaysInMonth;
    var d := MakeDay(y, m, date);
    DateIsUnique(y, m, date);
    MakeDayInRange(y, m, 1);
    assert MakeDay(y, m, 1) == FirstOfMonth(y, m);
    DayOf(d, ms);
    PeriodsOfDay(d, ms);
  }

  lemma PeriodsOfDay(d: nat, ms: nat)
    requires ms < 86_400_000
    ensures DayStart(d * 86_400_000 + ms) == d * 86_400_000
    ensures MonthStart(d * 86_400_000 + ms) == FirstOfMonth(YearFromDay(d), MonthFromDay(d)) * 86_400_000
  {
    DayOf(d, ms);
    hide YearFromDay, MonthFromDay, FirstOfMonth;
  }

  lemma DayOf(d: nat, ms: nat)
    requires ms < 86_400_000
    ensures (d * 86_400_000 + ms) / MS_PER_DAY == d
  {
  }
}
