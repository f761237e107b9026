/**
 * UTC calendar dates at midnight, as the recurring-invoice scheduler uses them
 * (src/lib/recurring-invoices.ts:16-42). A JavaScript `Date` at UTC midnight is
 * represented by its proleptic Gregorian calendar fields; `DayNumber` plays the
 * role of `getTime() / 86400000` (it counts days from 0000-01-01 instead of
 * 1970-01-01, which shifts every value by the same constant).
 */
module Dates {
  import opened Common

  datatype Date = Date(year: nat, month: nat, day: nat)

  predicate IsLeapYear(y: nat) {
    (y % 4 == 0 && y % 100 != 0) || y % 400 == 0
  }

  function DaysInMonth(y: nat, m: nat): (n: nat)
    requires 1 <= m <= 12
    ensures 28 <= n <= 31
  {
    if m == 2 then (if IsLeapYear(y) then 29 else 28)
    else if m == 4 || m == 6 || m == 9 || m == 11 then 30
    else 31
  }

  function DaysInYear(y: nat): nat {
    if IsLeapYear(y) then 366 else 365
  }

  ghost predicate Valid(d: Date) {
    1 <= d.month <= 12 && 1 <= d.day <= DaysInMonth(d.year, d.month)
  }

  /**
   * Days in the years before `y`, counted from year 0: 365 a year plus one for each
   * leap year among 0 .. y-1 (year 0 is a leap year).
   */
  function DaysBeforeYear(y: nat): nat {
    365 * y + (y + 3) / 4 - (y + 99) / 100 + (y + 399) / 400
  }

  lemma YearStep(y: nat)
    ensures DaysBeforeYear(y + 1) == DaysBeforeYear(y) + DaysInYear(y)
  {
    DivStep(y, 4);
    DivStep(y, 100);
    DivStep(y, 400);
    DivisorsNest(y);
  }

  /** Moving `y` up by one crosses a multiple of `k` exactly when `y` is one. */
  lemma DivStep(y: nat, k: nat)
    requires k > 0
    ensures (y + k) / k == (y + k - 1) / k + (if y % k == 0 then 1 else 0)
  {
    var q, r := y / k, y % k;
    assert y == q * k + r && 0 <= r < k;
    DivUnique(y + k, k, q + 1, r);
    if r == 0 {
      DivUnique(y + k - 1, k, q, k - 1);
    } else {
      DivUnique(y + k - 1, k, q + 1, r - 1);
    }
  }

  /** Division is determined by any quotient and remainder in range. */
  lemma DivUnique(a: nat, k: nat, q: int, r: int)
    requires k > 0 && a == q * k + r && 0 <= r < k
    ensures a / k == q
  {
    var q', r' := a / k, a % k;
    assert (q' - q) * k == q' * k - q * k == r - r';
    MulSign(q' - q, k);
  }

  /** A non-zero multiple of `k` is at least `k` away from zero. */
  lemma MulSign(x: int, k: nat)
    requires k > 0
    ensures x >= 1 ==> x * k >= k
    ensures x <= -1 ==> x * k + k <= 0
  {
  }

  /** Multiples of 400 are multiples of 100, which are multiples of 4. */
  lemma DivisorsNest(y: nat)
    ensures y % 400 == 0 ==> y % 100 == 0
    ensures y % 100 == 0 ==> y % 4 == 0
  {
    if y % 400 == 0 {
      DivUnique(y, 100, 4 * (y / 400), 0);
    }
    if y % 100 == 0 {
      DivUnique(y, 4, 25 * (y / 100), 0);
    }
  }

  /** Days in the months of year `y` before month `m`. */
  function DaysBeforeMonth(y: nat, m: nat): nat
    requires 1 <= m <= 12
  {
    var common :=
      if m == 1 then 0 else if m == 2 then 31 else if m == 3 then 59 else if m == 4 then 90
      else if m == 5 then 120 else if m == 6 then 151 else if m == 7 then 181 else if m == 8 then 212
      else if m == 9 then 243 else if m == 10 then 273 else if m == 11 then 304 else 334;
    common + (if IsLeapYear(y) && m > 2 then 1 else 0)
  }

  lemma MonthStep(y: nat, m: nat)
    requires 1 <= m <= 12
    ensures m < 12 ==> DaysBeforeMonth(y, m + 1) == DaysBeforeMonth(y, m) + DaysInMonth(y, m)
    ensures m == 12 ==> DaysBeforeMonth(y, m) + DaysInMonth(y, m) == DaysInYear(y)
  {
  }

  /** The day count of a valid date: the model of `getTime()` at UTC midnight, in days. */
  function DayNumber(d: Date): int
    requires Valid(d)
  {
    DaysBeforeYear(d.year) + DaysBeforeMonth(d.year, d.month) + d.day - 1
  }

  /** The number of the first day of month `m` of year `y`. */
  function MonthStart(y: nat, m: nat): nat
    requires 1 <= m <= 12
  {
    DaysBeforeYear(y) + DaysBeforeMonth(y, m)
  }

  function MonthIndex(y: nat, m: nat): int {
    y * 12 + m
  }

  /** A month ends exactly where the next one starts, and months only move forward. */
  lemma {:induction false} MonthStartMonotone(y1: nat, m1: nat, y2: nat, m2: nat)
    requires 1 <= m1 <= 12 && 1 <= m2 <= 12
    requires MonthIndex(y1, m1) < MonthIndex(y2, m2)
    ensures MonthStart(y1, m1) + DaysInMonth(y1, m1) <= MonthStart(y2, m2)
    decreases MonthIndex(y2, m2) - MonthIndex(y1, m1)
  {
    MonthStep(y1, m1);
    YearStep(y1);
    var (ny, nm) := if m1 < 12 then (y1, m1 + 1) else (y1 + 1, 1);
    assert MonthStart(ny, nm) == MonthStart(y1, m1) + DaysInMonth(y1, m1);
    if MonthIndex(ny, nm) < MonthIndex(y2, m2) {
      MonthStartMonotone(ny, nm, y2, m2);
    } else {
      assert ny == y2 && nm == m2;
    }
  }

  /** Day numbers order dates the way the calendar does. */
  lemma DayNumberOrder(a: Date, b: Date)
    requires Valid(a) && Valid(b)
    ensures MonthIndex(a.year, a.month) < MonthIndex(b.year, b.month) ==> DayNumber(a) < DayNumber(b)
    ensures a.year == b.year && a.month == b.month ==> DayNumber(b) - DayNumber(a) == b.day - a.day
  {
    if MonthIndex(a.year, a.month) < MonthIndex(b.year, b.month) {
      MonthStartMonotone(a.year, a.month, b.year, b.month);
    }
  }

  /** Two valid dates with the same day number are the same date. */
  lemma DayNumberInjective(a: Date, b: Date)
    requires Valid(a) && Valid(b) && DayNumber(a) == DayNumber(b)
    ensures a == b
  {
    DayNumberOrder(a, b);
    DayNumberOrder(b, a);
    assert MonthIndex(a.year, a.month) == MonthIndex(b.year, b.month);
    assert a.year == b.year && a.month == b.month;
  }

  /** The calendar day after `d`. */
  function NextDay(d: Date): (r: Date)
    requires Valid(d)
    ensures Valid(r) && DayNumber(r) == DayNumber(d) + 1
  {
    MonthStep(d.year, d.month);
    YearStep(d.year);
    if d.day < DaysInMonth(d.year, d.month) then Date(d.year, d.month, d.day + 1)
    else if d.month < 12 then Date(d.year, d.month + 1, 1)
    else Date(d.year + 1, 1, 1)
  }

  /** `addDays(date, days)`: `setUTCDate(getUTCDate() + days)` moves a UTC-midnight date by whole days. */
  function AddDays(d: Date, n: nat): (r: Date)
    requires Valid(d)
    ensures Valid(r) && DayNumber(r) == DayNumber(d) + n
    decreases n
  {
    if n == 0 then d else AddDays(NextDay(d), n - 1)
  }

  /** Adding days is the same as stepping one calendar day at a time. */
  lemma {:induction false} AddDaysCompose(d: Date, m: nat, n: nat)
    requires Valid(d)
    ensures AddDays(AddDays(d, m), n) == AddDays(d, m + n)
  {
    DayNumberInjective(AddDays(AddDays(d, m), n), AddDays(d, m + n));
  }

  /**
   * The year `Date.UTC` uses for its year argument: ECMAScript maps the years
   * 0 to 99 to 1900 to 1999 (section 21.4.3.4 of ECMA-262, MakeFullYear).
   */
  function UtcFullYear(y: nat): nat {
    if y <= 99 then 1900 + y else y
  }

  /**
   * `addMonthsClamped(date, months)`: the first day of the target month is built with
   * `Date.UTC(year, month + months, 1)`, then the day is clamped to that month's last day.
   */
  function AddMonthsClamped(d: Date, months: nat): (r: Date)
    requires Valid(d)
    ensures Valid(r)
    ensures months >= 1 ==> DayNumber(r) > DayNumber(d)
  {
    var idx := d.month - 1 + months;
    var ty := UtcFullYear(d.year) + idx / 12;
    var tm := idx % 12 + 1;
    var r := Date(ty, tm, if d.day <= DaysInMonth(ty, tm) then d.day else DaysInMonth(ty, tm));
    assert months >= 1 ==> MonthIndex(d.year, d.month) < MonthIndex(ty, tm);
    DayNumberOrder(d, r);
    r
  }

  /** From year 100 on, one month later is the next calendar month, with the day clamped to its length. */
  lemma AddOneMonth(d: Date)
    requires Valid(d) && d.year >= 100
    ensures var r := AddMonthsClamped(d, 1);
      && (if d.month == 12 then r.year == d.year + 1 && r.month == 1 else r.year == d.year && r.month == d.month + 1)
      && r.day == (if d.day <= DaysInMonth(r.year, r.month) then d.day else DaysInMonth(r.year, r.month))
  {
  }

  /** For the years 0 to 99 the month step jumps into the twentieth century, as `Date.UTC` does. */
  lemma AddOneMonthTwoDigitYear()
    ensures AddMonthsClamped(Date(50, 1, 31), 1) == Date(1950, 2, 28)
  {
  }

  /** Jan 31 rolls to the last day of February, and the clamped day is what the next step starts from. */
  lemma MonthlyFromJanuary31()
    ensures AddMonthsClamped(Date(2024, 1, 31), 1) == Date(2024, 2, 29)
    ensures AddMonthsClamped(Date(2024, 2, 29), 1) == Date(2024, 3, 29)
    ensures AddMonthsClamped(Date(2023, 1, 31), 1) == Date(2023, 2, 28)
  {
    AddOneMonth(Date(2024, 1, 31));
    AddOneMonth(Date(2024, 2, 29));
    AddOneMonth(Date(2023, 1, 31));
  }

  /** December rolls into January of the next year. */
  lemma MonthlyFromDecember()
    ensures AddMonthsClamped(Date(2024, 12, 15), 1) == Date(2025, 1, 15)
  {
    AddOneMonth(Date(2024, 12, 15));
  }

  // ---- `YYYY-MM-DD` strings ----

  /** The characters `s[i..j]` are all decimal digits. */
  predicate DigitRun(s: string, i: nat, j: nat)
    requires i <= j <= |s|
  {
    forall k :: i <= k < j ==> IsDigit(s[k])
  }

  /** The two-digit field starting at `s[i]`. */
  function Field2(s: string, i: nat): (v: nat)
    requires i + 2 <= |s| && DigitRun(s, i, i + 2)
    ensures v < 100
  {
    DigitValue(s[i]) * 10 + DigitValue(s[i + 1])
  }

  /** The four-digit field starting at `s[i]`. */
  function Field4(s: string, i: nat): (v: nat)
    requires i + 4 <= |s| && DigitRun(s, i, i + 4)
    ensures v < 10000
  {
    Field2(s, i) * 100 + Field2(s, i + 2)
  }

  /** `n` in two digits, with a leading zero. */
  function Digits2(n: nat): (s: string)
    requires n < 100
    ensures |s| == 2 && DigitRun(s, 0, 2) && Field2(s, 0) == n
  {
    [DigitChar(n / 10), DigitChar(n % 10)]
  }

  /** `n` in four digits, with leading zeros. */
  function Digits4(n: nat): (s: string)
    requires n < 10000
    ensures |s| == 4 && DigitRun(s, 0, 4) && Field4(s, 0) == n
  {
    var hi, lo := Digits2(n / 100), Digits2(n % 100);
    assert Field2(hi + lo, 0) == Field2(hi, 0) && Field2(hi + lo, 2) == Field2(lo, 0);
    hi + lo
  }

  /**
   * `formatDateString`: the first ten characters of `toISOString()`. Years past 9999
   * are written by `toISOString` in the expanded `+YYYYYY` form, so the slice keeps
   * the sign, six year digits, a dash and the month.
   */
  function FormatDate(d: Date): (s: string)
    requires Valid(d)
    ensures |s| == 10
    ensures d.year <= 9999 ==> s[4] == '-' && s[7] == '-' && DigitRun(s, 0, 4) && DigitRun(s, 5, 7) && DigitRun(s, 8, 10)
    ensures d.year <= 9999 ==> Field4(s, 0) == d.year && Field2(s, 5) == d.month && Field2(s, 8) == d.day
    ensures d.year > 9999 ==> s[0] == '+'
  {
    if d.year <= 9999 then
      var y, m, dd := Digits4(d.year), Digits2(d.month), Digits2(d.day);
      var s := y + "-" + m + "-" + dd;
      assert s[..4] == y && s[5..7] == m && s[8..] == dd;
      assert Field2(s, 0) == Field2(y, 0) && Field2(s, 2) == Field2(y, 2);
      assert Field2(s, 5) == Field2(m, 0) && Field2(s, 8) == Field2(dd, 0);
      s
    else ("+" + PadStart(NatToString(d.year), 6, '0') + "-" + Digits2(d.month) + "-" + Digits2(d.day))[..10]
  }

  /** Rolling a day from 1 to 31 forward from the first of a month never leaves the year. */
  lemma RolloverStaysInYear(y: nat, m: nat, dd: nat)
    requires 1 <= m <= 12 && 1 <= dd <= 31
    ensures AddDays(Date(y, m, 1), dd - 1).year == y
  {
    var r := AddDays(Date(y, m, 1), dd - 1);
    assert DayNumber(r) == MonthStart(y, m) + dd - 1;
    if r.year > y {
      MonthStartMonotone(y, 12, r.year, r.month);
      if m < 12 {
        MonthStartMonotone(y, m, y, 12);
      }
      assert false;
    } else if r.year < y {
      MonthStartMonotone(r.year, r.month, y, m);
      assert false;
    }
  }

  /**
   * `parseDateString(value)`: `new Date(value + "T00:00:00.000Z")` for a non-empty value.
   * The date-only forms of the ECMAScript date-time string format are `YYYY`, `YYYY-MM`
   * and `YYYY-MM-DD`; a day from 1 to 31 past the end of its month rolls over into the
   * next month (`2021-02-31` is 2021-03-03), as Node's parser does. Anything else is `None`.
   */
  function ParseDate(s: string): (r: Option<Date>)
    ensures r.Some? ==> Valid(r.value) && r.value.year <= 9999
    ensures s == [] ==> r.None?
  {
    if |s| == 4 && DigitRun(s, 0, 4) then
      Some(Date(Field4(s, 0), 1, 1))
    else if |s| == 7 && s[4] == '-' && DigitRun(s, 0, 4) && DigitRun(s, 5, 7) then
      var m := Field2(s, 5);
      if 1 <= m <= 12 then Some(Date(Field4(s, 0), m, 1)) else None
    else if |s| == 10 && s[4] == '-' && s[7] == '-' && DigitRun(s, 0, 4) && DigitRun(s, 5, 7) && DigitRun(s, 8, 10) then
      ParseDay(Field4(s, 0), Field2(s, 5), Field2(s, 8))
    else
      None
  }

  /** The date a `YYYY-MM-DD` string with these fields denotes: out-of-range fields are refused, a day past the month's end rolls over. */
  function ParseDay(y: nat, m: nat, dd: nat): (r: Option<Date>)
    requires y <= 9999
    ensures r.Some? ==> Valid(r.value) && r.value.year <= 9999
    ensures r.Some? <==> 1 <= m <= 12 && 1 <= dd <= 31
  {
    if 1 <= m <= 12 && 1 <= dd <= 31 then
      RolloverStaysInYear(y, m, dd);
      Some(AddDays(Date(y, m, 1), dd - 1))
    else None
  }

  /** A date past year 9999 formats in the expanded form, which does not parse back. */
  lemma ExpandedYearUnparsed(d: Date)
    requires Valid(d) && d.year > 9999
    ensures ParseDate(FormatDate(d)).None?
  {
  }

  /** A day of the month, reached from the first of that month. */
  lemma DayOfMonth(y: nat, m: nat, dd: nat)
    requires 1 <= m <= 12 && 1 <= dd <= DaysInMonth(y, m)
    ensures AddDays(Date(y, m, 1), dd - 1) == Date(y, m, dd)
  {
    DayNumberOrder(Date(y, m, 1), Date(y, m, dd));
    DayNumberInjective(AddDays(Date(y, m, 1), dd - 1), Date(y, m, dd));
  }

  /** Formatting a date of a four-digit year and parsing it back gives the same date. */
  lemma ParseFormat(d: Date)
    requires Valid(d) && d.year <= 9999
    ensures ParseDate(FormatDate(d)) == Some(d)
  {
    var s := FormatDate(d);
    assert ParseDate(s) == ParseDay(d.year, d.month, d.day);
    ParseDayInMonth(d.year, d.month, d.day);
  }

  /** The fields of a real calendar day denote that day. */
  lemma ParseDayInMonth(y: nat, m: nat, dd: nat)
    requires y <= 9999 && 1 <= m <= 12 && 1 <= dd <= DaysInMonth(y, m)
    ensures ParseDay(y, m, dd) == Some(Date(y, m, dd))
  {
    DayOfMonth(y, m, dd);
  }

  /** A `YYYY-MM-DD` string of a real calendar day parses and formats back to itself. */
  lemma FormatParse(s: string)
    requires |s| == 10 && s[4] == '-' && s[7] == '-' && DigitRun(s, 0, 4) && DigitRun(s, 5, 7) && DigitRun(s, 8, 10)
    requires 1 <= Field2(s, 5) <= 12 && 1 <= Field2(s, 8) <= DaysInMonth(Field4(s, 0), Field2(s, 5))
    ensures ParseDate(s).Some? && FormatDate(ParseDate(s).value) == s
  {
    var y, m, dd := Field4(s, 0), Field2(s, 5), Field2(s, 8);
    ParseDayInMonth(y, m, dd);
    assert ParseDate(s) == Some(Date(y, m, dd));
    var t := FormatDate(Date(y, m, dd));
    FieldsDetermine(s, t);
  }

  /** Two `YYYY-MM-DD` strings with the same three fields are the same string. */
  lemma FieldsDetermine(s: string, t: string)
    requires |s| == 10 && s[4] == '-' && s[7] == '-' && DigitRun(s, 0, 4) && DigitRun(s, 5, 7) && DigitRun(s, 8, 10)
    requires |t| == 10 && t[4] == '-' && t[7] == '-' && DigitRun(t, 0, 4) && DigitRun(t, 5, 7) && DigitRun(t, 8, 10)
    requires Field4(s, 0) == Field4(t, 0) && Field2(s, 5) == Field2(t, 5) && Field2(s, 8) == Field2(t, 8)
    ensures s == t
  {
    DigitPairDetermines(s, t, 0);
    DigitPairDetermines(s, t, 2);
    DigitPairDetermines(s, t, 5);
    DigitPairDetermines(s, t, 8);
  }

  /** A two-digit field's value fixes both of its characters. */
  lemma DigitPairDetermines(s: string, t: string, i: nat)
    requires i + 2 <= |s| && i + 2 <= |t| && DigitRun(s, i, i + 2) && DigitRun(t, i, i + 2)
    requires Field2(s, i) == Field2(t, i)
    ensures s[i] == t[i] && s[i + 1] == t[i + 1]
  {
    assert DigitValue(s[i]) == DigitValue(t[i]);
  }
}
