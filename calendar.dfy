/** UTC broken-down time for non-negative Unix times: the part of the C
    library's gmtime() that the output file names and time stamps use.
    The date is found by walking whole years and then whole months from
    1 January 1970, under the Gregorian leap-year rule. */
module Calendar {
  import opened Basics

  const SecondsPerDay: nat := 86400

  predicate IsLeap(y: int) {
    y % 4 == 0 && (y % 100 != 0 || y % 400 == 0)
  }

  function YearLength(y: int): nat {
    if IsLeap(y) then 366 else 365
  }

  function MonthLength(y: int, m: int): (n: nat)
    requires 1 <= m <= 12
    ensures 28 <= n <= 31
  {
    if m == 2 then (if IsLeap(y) then 29 else 28)
    else if m == 4 || m == 6 || m == 9 || m == 11 then 30
    else 31
  }

  /** Days from 1 January 1970 to 1 January of year y. */
  function DaysBeforeYear(y: int): nat
    requires y >= 1970
    decreases y - 1970
  {
    if y == 1970 then 0 else DaysBeforeYear(y - 1) + YearLength(y - 1)
  }

  /** Days from 1 January to the first day of month m of year y. */
  function DaysBeforeMonth(y: int, m: int): nat
    requires 1 <= m <= 12
    decreases m
  {
    if m == 1 then 0 else DaysBeforeMonth(y, m - 1) + MonthLength(y, m - 1)
  }

  /** The twelve months fill the year exactly. */
  lemma MonthsFillYear(y: int)
    ensures DaysBeforeMonth(y, 12) + MonthLength(y, 12) == YearLength(y)
  {
    assert DaysBeforeMonth(y, 3) == 31 + MonthLength(y, 2);
    assert DaysBeforeMonth(y, 7) == DaysBeforeMonth(y, 3) + 31 + 30 + 31 + 30;
    assert DaysBeforeMonth(y, 12) == DaysBeforeMonth(y, 7) + 31 + 31 + 30 + 31 + 30;
  }

  datatype Date = Date(year: int, month: int, day: int)

  predicate ValidDate(d: Date) {
    d.year >= 1970 && 1 <= d.month <= 12 && 1 <= d.day <= MonthLength(d.year, d.month)
  }

  /** Days since 1 January 1970 of a calendar date. */
  function DayNumber(d: Date): nat
    requires ValidDate(d)
  {
    DaysBeforeYear(d.year) + DaysBeforeMonth(d.year, d.month) + d.day - 1
  }

  /** The year holding day `rest` counted from 1 January of year y, and the
      day's offset within that year. */
  function FindYear(y: int, rest: nat): (r: (int, nat))
    requires y >= 1970
    ensures r.0 >= y && r.1 < YearLength(r.0)
    ensures DaysBeforeYear(r.0) + r.1 == DaysBeforeYear(y) + rest
    decreases rest
  {
    if rest < YearLength(y) then (y, rest) else FindYear(y + 1, rest - YearLength(y))
  }

  /** The month holding day `rest` counted from the first of month m, and the
      day's offset within that month. */
  function FindMonth(y: int, m: int, rest: nat): (r: (int, nat))
    requires 1 <= m <= 12 && DaysBeforeMonth(y, m) + rest < YearLength(y)
    ensures m <= r.0 <= 12 && r.1 < MonthLength(y, r.0)
    ensures DaysBeforeMonth(y, r.0) + r.1 == DaysBeforeMonth(y, m) + rest
    decreases 12 - m
  {
    MonthsFillYear(y);
    if rest < MonthLength(y, m) then (m, rest) else FindMonth(y, m + 1, rest - MonthLength(y, m))
  }

  /** The calendar date `days` days after 1 January 1970. */
  function CivilFromDays(days: nat): (d: Date)
    ensures ValidDate(d) && DayNumber(d) == days
  {
    var (y, dayOfYear) := FindYear(1970, days);
    var (m, dayOfMonth) := FindMonth(y, 1, dayOfYear);
    Date(y, m, dayOfMonth + 1)
  }

  lemma {:induction false} FindYearUnique(y: int, rest: nat, target: int, offset: nat)
    requires 1970 <= y <= target && offset < YearLength(target)
    requires DaysBeforeYear(y) + rest == DaysBeforeYear(target) + offset
    ensures FindYear(y, rest) == (target, offset)
    decreases target - y
  {
    if y < target {
      DaysBeforeYearGrows(y + 1, target);
      FindYearUnique(y + 1, rest - YearLength(y), target, offset);
    }
  }

  lemma {:induction false} DaysBeforeYearGrows(y: int, z: int)
    requires 1970 <= y <= z
    ensures DaysBeforeYear(y) <= DaysBeforeYear(z)
    decreases z - y
  {
    if y < z { DaysBeforeYearGrows(y, z - 1); }
  }

  lemma {:induction false} FindMonthUnique(y: int, m: int, rest: nat, target: int, offset: nat)
    requires 1 <= m <= target <= 12 && offset < MonthLength(y, target)
    requires DaysBeforeMonth(y, m) + rest == DaysBeforeMonth(y, target) + offset
    requires DaysBeforeMonth(y, m) + rest < YearLength(y)
    ensures FindMonth(y, m, rest).0 == target && FindMonth(y, m, rest).1 == offset
    decreases target - m
  {
    if m < target {
      DaysBeforeMonthGrows(y, m + 1, target);
      FindMonthStep(y, m, rest);
      var next: nat := rest - MonthLength(y, m);
      FindMonthUnique(y, m + 1, next, target, offset);
    } else {
      FindMonthHere(y, m, rest);
    }
  }

  /** Within month m, the search stops there. */
  lemma FindMonthHere(y: int, m: int, rest: nat)
    requires 1 <= m <= 12 && DaysBeforeMonth(y, m) + rest < YearLength(y) && rest < MonthLength(y, m)
    ensures FindMonth(y, m, rest) == (m, rest)
  {
  }

  /** Past the end of month m, the search moves on to month m + 1. */
  lemma FindMonthStep(y: int, m: int, rest: nat)
    requires 1 <= m < 12 && DaysBeforeMonth(y, m) + rest < YearLength(y)
    requires DaysBeforeMonth(y, m) + rest >= DaysBeforeMonth(y, m + 1)
    ensures rest >= MonthLength(y, m)
    ensures DaysBeforeMonth(y, m + 1) == DaysBeforeMonth(y, m) + MonthLength(y, m)
    ensures DaysBeforeMonth(y, m + 1) + (rest - MonthLength(y, m)) < YearLength(y)
    ensures FindMonth(y, m, rest) == FindMonth(y, m + 1, rest - MonthLength(y, m))
  {
  }

  lemma {:induction false} DaysBeforeMonthGrows(y: int, m: int, n: int)
    requires 1 <= m <= n <= 12
    ensures DaysBeforeMonth(y, m) <= DaysBeforeMonth(y, n)
    decreases n - m
  {
    if m < n { DaysBeforeMonthGrows(y, m, n - 1); }
  }

  /** Every valid date is the date of its own day number: CivilFromDays and
      DayNumber are inverse bijections. */
  lemma CivilFromDayNumber(d: Date)
    requires ValidDate(d)
    ensures CivilFromDays(DayNumber(d)) == d
  {
    MonthsFillYear(d.year);
    DaysBeforeMonthGrows(d.year, d.month, 12);
    FindYearUnique(1970, DayNumber(d), d.year, DaysBeforeMonth(d.year, d.month) + d.day - 1);
    FindMonthUnique(d.year, 1, DaysBeforeMonth(d.year, d.month) + d.day - 1, d.month, d.day - 1);
  }

  /** struct tm as gmtime() fills it: years since 1900, months 0..11. */
  datatype Tm = Tm(tmYear: int, tmMon: int, tmMday: int, tmHour: int, tmMin: int, tmSec: int)

  predicate ValidTm(tm: Tm) {
    ValidDate(Date(tm.tmYear + 1900, tm.tmMon + 1, tm.tmMday))
    && 0 <= tm.tmHour < 24 && 0 <= tm.tmMin < 60 && 0 <= tm.tmSec < 60
  }

  /** timegm(): the Unix time a broken-down UTC time denotes. */
  function Timegm(tm: Tm): (t: nat)
    requires ValidTm(tm)
    ensures var day := DayNumber(Date(tm.tmYear + 1900, tm.tmMon + 1, tm.tmMday));
      day * SecondsPerDay <= t < (day + 1) * SecondsPerDay
  {
    DayNumber(Date(tm.tmYear + 1900, tm.tmMon + 1, tm.tmMday)) * SecondsPerDay
      + tm.tmHour * 3600 + tm.tmMin * 60 + tm.tmSec
  }

  lemma SplitSeconds(t: nat)
    ensures t == t / SecondsPerDay * SecondsPerDay + t % SecondsPerDay
    ensures var s := t % SecondsPerDay;
      s / 3600 < 24 && s == s / 3600 * 3600 + s % 3600 / 60 * 60 + s % 60
  {
    var s := t % SecondsPerDay;
    assert s % 3600 == s % 3600 / 60 * 60 + s % 60;
  }

  /** gmtime() for a non-negative time_t. */
  function Gmtime(t: nat): (tm: Tm)
    ensures ValidTm(tm) && Timegm(tm) == t
  {
    var d := CivilFromDays(t / SecondsPerDay);
    var s := t % SecondsPerDay;
    SplitSeconds(t);
    Tm(d.year - 1900, d.month - 1, d.day, s / 3600, s % 3600 / 60, s % 60)
  }

  /** gmtime() and timegm() are inverse: no two valid broken-down times
      denote the same instant. */
  lemma GmtimeOfTimegm(tm: Tm)
    requires ValidTm(tm)
    ensures Gmtime(Timegm(tm)) == tm
  {
    var d := Date(tm.tmYear + 1900, tm.tmMon + 1, tm.tmMday);
    var s := tm.tmHour * 3600 + tm.tmMin * 60 + tm.tmSec;
    var t := Timegm(tm);
    var ms := tm.tmMin * 60 + tm.tmSec;
    DivModUnique(t, SecondsPerDay, DayNumber(d), s);
    DivModUnique(s, 3600, tm.tmHour, ms);
    DivModUnique(ms, 60, tm.tmMin, tm.tmSec);
    CivilFromDayNumber(d);
  }

  /** The start of the UTC day holding t: the time the daemon hands to
      gmtime() when it builds file names. */
  function DayStart(t: nat): (u: nat)
    ensures u <= t && u % SecondsPerDay == 0 && t - u < SecondsPerDay
  {
    t - t % SecondsPerDay
  }

  /** Broken down, the start of a day is midnight of the same date. */
  lemma DayStartIsMidnight(t: nat)
    ensures Gmtime(DayStart(t)).tmHour == 0
    ensures Gmtime(DayStart(t)).tmMin == 0
    ensures Gmtime(DayStart(t)).tmSec == 0
    ensures Gmtime(DayStart(t)) == Gmtime(DayStart(t)).(tmHour := 0, tmMin := 0, tmSec := 0)
    ensures DayStart(t) / SecondsPerDay == t / SecondsPerDay
  {
  }
}
