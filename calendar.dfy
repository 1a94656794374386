/** Calendar instants and months, their order, and the two textual month keys
    the components compare: the first seven characters of an ISO-8601 string
    (`toISOString().slice(0, 7)`) and date-fns' `format(date, "yyyy-MM")`.
    Every instant is read in one time zone (UTC). */
module Calendar {
  import opened Js

  /** Fields of a `Date`: month 1..12 (`getMonth() + 1`), day of the month,
      milliseconds since midnight. */
  datatype Instant = Instant(year: int, month: int, day: int, millis: int)

  const MillisPerDay: int := 86_400_000

  predicate IsLeapYear(y: int) {
    (y % 4 == 0 && y % 100 != 0) || y % 400 == 0
  }

  function DaysInMonth(y: int, m: int): (r: int)
    requires 1 <= m <= 12
    ensures 28 <= r <= 31
    ensures m == 2 ==> (r == 29 <==> IsLeapYear(y))
  {
    if m == 2 then (if IsLeapYear(y) then 29 else 28)
    else if m == 4 || m == 6 || m == 9 || m == 11 then 30
    else 31
  }

  predicate IsInstant(t: Instant) {
    && 1 <= t.month <= 12
    && 1 <= t.day <= DaysInMonth(t.year, t.month)
    && 0 <= t.millis < MillisPerDay
  }

  /** A valid `Date`. */
  type DateTime = t: Instant | IsInstant(t) witness Instant(1970, 1, 1, 0)

  /** A calendar month. */
  datatype YearMonth = YearMonth(year: int, month: int)

  type Month = m: YearMonth | 1 <= m.month <= 12 witness YearMonth(1970, 1)

  function MonthOf(d: DateTime): Month {
    YearMonth(d.year, d.month)
  }

  /** Months counted from January of year 0. */
  function MonthNumber(m: Month): int {
    m.year * 12 + m.month - 1
  }

  /** The month with a given number: how `Date` carries an overflowing or
      negative month into the year. */
  function MonthFromNumber(k: int): (m: Month)
    ensures MonthNumber(m) == k
  {
    YearMonth(k / 12, k % 12 + 1)
  }

  lemma MonthNumberInjective(a: Month, b: Month)
    ensures MonthNumber(a) == MonthNumber(b) <==> a == b
  {
  }

  /** `addMonths(m, k)` (and `subMonths(m, -k)`) at month granularity. */
  function AddMonths(m: Month, k: int): (r: Month)
    ensures MonthNumber(r) == MonthNumber(m) + k
  {
    MonthFromNumber(MonthNumber(m) + k)
  }

  /** Stepping forward one month: December wraps to January of the next
      year; every other month keeps its year. */
  lemma NextMonth(m: Month)
    ensures m.month < 12 ==> AddMonths(m, 1) == YearMonth(m.year, m.month + 1)
    ensures m.month == 12 ==> AddMonths(m, 1) == YearMonth(m.year + 1, 1)
  {
    MonthNumberInjective(AddMonths(m, 1), if m.month < 12 then YearMonth(m.year, m.month + 1) else YearMonth(m.year + 1, 1));
  }

  /** Stepping back one month: January wraps to December of the year before. */
  lemma PreviousMonth(m: Month)
    ensures m.month > 1 ==> AddMonths(m, -1) == YearMonth(m.year, m.month - 1)
    ensures m.month == 1 ==> AddMonths(m, -1) == YearMonth(m.year - 1, 12)
  {
    MonthNumberInjective(AddMonths(m, -1), if m.month > 1 then YearMonth(m.year, m.month - 1) else YearMonth(m.year - 1, 12));
  }

  /** `startOfMonth`: midnight of the first day. */
  function StartOfMonth(m: Month): (r: DateTime)
    ensures MonthOf(r) == m && r.day == 1 && r.millis == 0
  {
    Instant(m.year, m.month, 1, 0)
  }

  /** `endOfMonth`: the last millisecond of the last day. */
  function EndOfMonth(m: Month): (r: DateTime)
    ensures MonthOf(r) == m && r.day == DaysInMonth(m.year, m.month) && r.millis == MillisPerDay - 1
  {
    Instant(m.year, m.month, DaysInMonth(m.year, m.month), MillisPerDay - 1)
  }

  /** A number that orders instants as `getTime()` does. */
  function Rank(t: DateTime): int {
    (MonthNumber(MonthOf(t)) * 31 + (t.day - 1)) * MillisPerDay + t.millis
  }

  /** Chronological order on the fields of a date. */
  predicate Before(a: DateTime, b: DateTime) {
    || a.year < b.year
    || (a.year == b.year && a.month < b.month)
    || (a.year == b.year && a.month == b.month && a.day < b.day)
    || (a.year == b.year && a.month == b.month && a.day == b.day && a.millis < b.millis)
  }

  lemma RankWithinMonth(t: DateTime)
    ensures MonthNumber(MonthOf(t)) * 31 * MillisPerDay <= Rank(t) < (MonthNumber(MonthOf(t)) + 1) * 31 * MillisPerDay
  {
  }

  /** Rank order is chronological order, and equal ranks are equal dates. */
  lemma RankOrder(a: DateTime, b: DateTime)
    ensures Rank(a) < Rank(b) <==> Before(a, b)
    ensures Rank(a) == Rank(b) <==> a == b
  {
    RankWithinMonth(a);
    RankWithinMonth(b);
    var na, nb := MonthNumber(MonthOf(a)), MonthNumber(MonthOf(b));
    if na < nb {
      assert (na + 1) * 31 * MillisPerDay <= nb * 31 * MillisPerDay;
    } else if nb < na {
      assert (nb + 1) * 31 * MillisPerDay <= na * 31 * MillisPerDay;
    } else {
      MonthNumberInjective(MonthOf(a), MonthOf(b));
    }
  }

  /** `start <= date && date <= end` for the bounds of month `m`. */
  predicate InMonth(d: DateTime, m: Month) {
    Rank(StartOfMonth(m)) <= Rank(d) <= Rank(EndOfMonth(m))
  }

  /** A date lies between the inclusive bounds of a month exactly when it is
      in that month. */
  lemma InMonthIff(d: DateTime, m: Month)
    ensures InMonth(d, m) <==> MonthOf(d) == m
  {
    RankOrder(StartOfMonth(m), d);
    RankOrder(d, EndOfMonth(m));
    MonthNumberInjective(MonthOf(d), m);
  }

  // ---------------------------------------------------------------------
  // Decimal text

  predicate IsDigit(c: char) {
    '0' <= c <= '9'
  }

  function Digit(n: int): (c: char)
    requires 0 <= n < 10
    ensures IsDigit(c)
  {
    ('0' as int + n) as char
  }

  function Pow10(w: nat): nat {
    if w == 0 then 1 else 10 * Pow10(w - 1)
  }

  /** `n` in decimal, padded with leading zeros to at least `width` digits. */
  function Decimal(n: nat, width: nat): (r: string)
    ensures |r| >= 1 && |r| >= width
    ensures forall i :: 0 <= i < |r| ==> IsDigit(r[i])
    decreases n + width
  {
    if n < 10 && width <= 1 then [Digit(n)]
    else Decimal(n / 10, if width == 0 then 0 else width - 1) + [Digit(n % 10)]
  }

  /** The number a string of digits denotes. */
  function DecimalValue(s: string): int
    decreases |s|
  {
    if s == [] then 0 else DecimalValue(s[..|s| - 1]) * 10 + (s[|s| - 1] as int - '0' as int)
  }

  /** Reading back a padded decimal gives the number. */
  lemma {:induction false} DecimalRoundTrip(n: nat, width: nat)
    ensures DecimalValue(Decimal(n, width)) == n
    decreases n + width
  {
    if !(n < 10 && width <= 1) {
      var w := if width == 0 then 0 else width - 1;
      DecimalRoundTrip(n / 10, w);
      var r := Decimal(n, width);
      assert r[..|r| - 1] == Decimal(n / 10, w);
    }
  }

  /** A number below 10^width takes exactly `width` digits. */
  lemma {:induction false} DecimalWidth(n: nat, width: nat)
    requires width >= 1 && n < Pow10(width)
    ensures |Decimal(n, width)| == width
    decreases width
  {
    if !(n < 10 && width <= 1) {
      assert width >= 2;
      DecimalWidth(n / 10, width - 1);
    }
  }

  // ---------------------------------------------------------------------
  // ISO-8601 text and the date-fns month key

  /** The year part of `toISOString()`: four digits, or a sign and six. */
  function IsoYear(y: int): string {
    if 0 <= y <= 9999 then Decimal(y, 4)
    else (if y < 0 then "-" else "+") + Decimal(Abs(y), 6)
  }

  /** `d.toISOString()`: YYYY-MM-DDTHH:mm:ss.sssZ. */
  function IsoString(d: DateTime): string {
    var s := d.millis / 1000;
    IsoYear(d.year) + "-" + Decimal(d.month, 2) + "-" + Decimal(d.day, 2)
    + "T" + Decimal(s / 3600, 2) + ":" + Decimal(s / 60 % 60, 2) + ":" + Decimal(s % 60, 2)
    + "." + Decimal(d.millis % 1000, 3) + "Z"
  }

  /** date-fns' `yyyy`: the era year (1 - y for y <= 0), at least four digits. */
  function FnsYear(y: int): string {
    Decimal(if y > 0 then y else 1 - y, 4)
  }

  /** `format(date, "yyyy-MM")`. */
  function MonthKey(m: Month): string {
    FnsYear(m.year) + "-" + Decimal(m.month, 2)
  }

  /** Reads a `yyyy-MM` key back: the digits before the last-but-two
      character are the year, the two after it the month. */
  function ParseMonthKey(s: string): Option<Month> {
    if |s| >= 4 && s[|s| - 3] == '-' then
      var y, m := DecimalValue(s[..|s| - 3]), DecimalValue(s[|s| - 2..]);
      if 1 <= m <= 12 then Some(YearMonth(y, m)) else None
    else None
  }

  lemma MonthDigits(m: Month)
    ensures |Decimal(m.month, 2)| == 2
  {
    DecimalWidth(m.month, 2);
  }

  /** The key of a month of a year from 1 on reads back as that month. */
  lemma MonthKeyRoundTrip(m: Month)
    requires m.year >= 1
    ensures ParseMonthKey(MonthKey(m)) == Some(m)
  {
    var k := MonthKey(m);
    MonthDigits(m);
    DecimalRoundTrip(m.year, 4);
    DecimalRoundTrip(m.month, 2);
    assert k[..|k| - 3] == FnsYear(m.year);
    assert k[|k| - 2..] == Decimal(m.month, 2);
  }

  /** Distinct months from year 1 on have distinct keys. */
  lemma MonthKeyInjective(a: Month, b: Month)
    requires a.year >= 1 && b.year >= 1
    ensures MonthKey(a) == MonthKey(b) <==> a == b
  {
    if MonthKey(a) == MonthKey(b) {
      MonthKeyRoundTrip(a);
      MonthKeyRoundTrip(b);
    }
  }

  /** For the years 1..9999 the key is seven characters long, so taking its
      first seven characters keeps all of it. */
  lemma MonthKeyLength(m: Month)
    requires 1 <= m.year <= 9999
    ensures |MonthKey(m)| == 7
    ensures Prefix(MonthKey(m), 7) == MonthKey(m)
  {
    DecimalWidth(m.year, 4);
    MonthDigits(m);
  }

  /** For the years 1..9999 the first seven characters of the ISO string are
      the date-fns month key of the same date. */
  lemma IsoMonthPrefix(d: DateTime)
    requires 1 <= d.year <= 9999
    ensures Prefix(IsoString(d), 7) == MonthKey(MonthOf(d))
  {
    DecimalWidth(d.year, 4);
    MonthDigits(MonthOf(d));
    var head := IsoYear(d.year) + "-" + Decimal(d.month, 2);
    assert IsoString(d) == head + (IsoString(d)[|head|..]);
    assert head == MonthKey(MonthOf(d));
  }

  // ---------------------------------------------------------------------
  // Month names

  const MonthNames: seq<string> := [
    "January", "February", "March", "April", "May", "June",
    "July", "August", "September", "October", "November", "December"
  ]

  /** date-fns' `MMM`: the first three letters of the month's name. */
  function ShortMonthName(m: int): (r: string)
    requires 1 <= m <= 12
    ensures |r| == 3 && r == MonthNames[m - 1][..3]
  {
    MonthNames[m - 1][..3]
  }

  /** `format(date, "MMM yyyy")`. */
  function MonthLabel(m: Month): string {
    ShortMonthName(m.month) + " " + FnsYear(m.year)
  }
}
