/** Civil dates and the pieces of JavaScript `Date` arithmetic the
  * application uses, at day granularity, in one fixed time zone. */
module Dates {
  import opened Wrappers
  import Text
  import Numbers

  /** A calendar day; `month` runs from 1 to 12. */
  datatype Day = Day(year: int, month: int, day: int)

  predicate IsLeapYear(y: int)
  {
    y % 4 == 0 && (y % 100 != 0 || y % 400 == 0)
  }

  function DaysInMonth(y: int, m: int): (n: int)
    requires 1 <= m <= 12
    ensures 28 <= n <= 31
    ensures n == 28 <==> m == 2 && !IsLeapYear(y)
    ensures n == 29 <==> m == 2 && IsLeapYear(y)
  {
    if m == 2 then (if IsLeapYear(y) then 29 else 28)
    else if m == 4 || m == 6 || m == 9 || m == 11 then 30
    else 31
  }

  lemma {:induction false} DecemberDays(y: int)
    ensures DaysInMonth(y, 12) == 31
  {
  }

  predicate Valid(d: Day)
  {
    1 <= d.month <= 12 && 1 <= d.day <= DaysInMonth(d.year, d.month)
  }

  /** `a` is a day strictly before `b`. */
  predicate Before(a: Day, b: Day)
  {
    a.year < b.year || (a.year == b.year && (a.month < b.month || (a.month == b.month && a.day < b.day)))
  }

  predicate NotAfter(a: Day, b: Day)
  {
    Before(a, b) || a == b
  }

  lemma {:induction false} BeforeTotal(a: Day, b: Day)
    ensures a == b || Before(a, b) || Before(b, a)
  {
  }

  const MS_PER_DAY: int := 86400000

  /** An instant: a day and the milliseconds elapsed since its midnight. */
  datatype Instant = Instant(date: Day, ms: int)

  predicate ValidInstant(t: Instant)
  {
    Valid(t.date) && 0 <= t.ms < MS_PER_DAY
  }

  predicate InstantLe(a: Instant, b: Instant)
  {
    Before(a.date, b.date) || (a.date == b.date && a.ms <= b.ms)
  }

  /** Midnight (00:00:00.000) of `d`. */
  function StartOf(d: Day): Instant { Instant(d, 0) }

  /** 23:59:59.000 of `d`. */
  function LastSecondOf(d: Day): Instant { Instant(d, MS_PER_DAY - 1000) }

  /** 23:59:59.999 of `d`. */
  function LastMsOf(d: Day): Instant { Instant(d, MS_PER_DAY - 1) }

  /** A record dated `d` lies inside `[StartOf(a), LastSecondOf(b)]` exactly
    * when `a <= d <= b` as days. */
  lemma {:induction false} DayWindow(a: Day, b: Day, d: Day)
    ensures InstantLe(StartOf(a), StartOf(d)) && InstantLe(StartOf(d), LastSecondOf(b))
      <==> NotAfter(a, d) && NotAfter(d, b)
  {
  }

  /** The year and the month (1..12) denoted by a zero-based month index that
    * may lie outside `0..11`, as the `Date` constructor normalises it. */
  function NormalMonth(y: int, monthIndex: int): (r: (int, int))
    ensures 1 <= r.1 <= 12
    ensures (r.0 - y) * 12 + r.1 - 1 == monthIndex
  {
    (y + monthIndex / 12, monthIndex % 12 + 1)
  }

  /** `new Date(y, m, ...)` reads a year from 0 to 99 as 1900 to 1999. */
  function ConstructorYear(y: int): int
  {
    if 0 <= y <= 99 then 1900 + y else y
  }

  /** The day denoted by `new Date(y, monthIndex, d)` once the year has been
    * read: day 0 is the last day of the previous month and a day past the end
    * of the month overflows into the next one. */
  function MakeDay(y: int, monthIndex: int, d: int): (r: Day)
    requires 0 <= d <= 31
    ensures Valid(r)
  {
    var (yy, mm) := NormalMonth(y, monthIndex);
    if d == 0 then
      var (py, pm) := NormalMonth(y, monthIndex - 1);
      Day(py, pm, DaysInMonth(py, pm))
    else if d <= DaysInMonth(yy, mm) then Day(yy, mm, d)
    else
      var (ny, nm) := NormalMonth(y, monthIndex + 1);
      Day(ny, nm, d - DaysInMonth(yy, mm))
  }

  /** Inside the month, `MakeDay` is the plain constructor. */
  lemma {:induction false} MakeDayInRange(y: int, m: int, d: int)
    requires 1 <= m <= 12 && 1 <= d <= DaysInMonth(y, m)
    ensures MakeDay(y, m - 1, d) == Day(y, m, d)
  {
  }

  /** Day 0 of the following month is the last day of a month. */
  lemma {:induction false} MakeDayLast(y: int, m: int)
    requires 1 <= m <= 12
    ensures MakeDay(y, m, 0) == Day(y, m, DaysInMonth(y, m))
  {
  }

  function PrevDay(d: Day): (r: Day)
    requires Valid(d)
    ensures Valid(r) && Before(r, d)
  {
    if d.day > 1 then Day(d.year, d.month, d.day - 1)
    else MakeDay(d.year, d.month - 1, 0)
  }

  /** The day `n` days before `d`: `Date.now() - n * 24 * 60 * 60 * 1000`. */
  function MinusDays(d: Day, n: nat): (r: Day)
    requires Valid(d)
    ensures Valid(r) && NotAfter(r, d)
    ensures n > 0 ==> Before(r, d)
  {
    if n == 0 then d else PrevDay(MinusDays(d, n - 1))
  }

  /** `t.setFullYear(t.getFullYear() - 1)`: the same day and time of day a
    * year earlier, where 29 February overflows into 1 March. */
  function YearEarlier(t: Instant): (r: Instant)
    requires ValidInstant(t)
    ensures ValidInstant(r) && r.ms == t.ms && Before(r.date, t.date)
    ensures var d := t.date;
      r.date == if d.day <= DaysInMonth(d.year - 1, d.month) then Day(d.year - 1, d.month, d.day)
        else Day(d.year - 1, 3, 1)
  {
    Instant(MakeDay(t.date.year - 1, t.date.month - 1, t.date.day), t.ms)
  }

  function Pow10(w: nat): (p: nat)
    ensures p >= 1
  {
    if w == 0 then 1 else 10 * Pow10(w - 1)
  }

  /** The last `w` decimal digits of `n`, zero-padded. */
  function Digits(n: nat, w: nat): (r: string)
    ensures |r| == w && Numbers.AllDigits(r)
  {
    if w == 0 then [] else Digits(n / 10, w - 1) + [Numbers.DigitChar(n % 10)]
  }

  lemma {:induction false} DigitsValue(n: nat, w: nat)
    requires n < Pow10(w)
    ensures Numbers.DigitsValue(Digits(n, w)) == n
  {
    if w > 0 {
      DigitsValue(n / 10, w - 1);
      var r := Digits(n, w);
      assert r[..|r| - 1] == Digits(n / 10, w - 1);
    }
  }

  lemma {:induction false} ValueDigits(s: string)
    requires Numbers.AllDigits(s)
    ensures Numbers.DigitsValue(s) < Pow10(|s|)
    ensures Digits(Numbers.DigitsValue(s), |s|) == s
  {
    if s != [] {
      var init := s[..|s| - 1];
      ValueDigits(init);
      var v := Numbers.DigitsValue(s);
      assert v / 10 == Numbers.DigitsValue(init);
      assert s == init + [s[|s| - 1]];
    }
  }

  /** Equal-width digit strings are ordered as their values. */
  lemma {:induction false} DigitsOrder(x: string, y: string)
    requires |x| == |y| && Numbers.AllDigits(x) && Numbers.AllDigits(y)
    ensures Text.Lt(x, y) <==> Numbers.DigitsValue(x) < Numbers.DigitsValue(y)
    ensures x == y <==> Numbers.DigitsValue(x) == Numbers.DigitsValue(y)
  {
    if x != [] {
      var x', y' := x[..|x| - 1], y[..|y| - 1];
      var cx, cy := x[|x| - 1], y[|y| - 1];
      DigitsOrder(x', y');
      assert x == x' + [cx] && y == y' + [cy];
      Text.LtConcat(x', [cx], y', [cy]);
      if x' == y' && cx == cy { assert x == y; }
    }
  }

  /** The `YYYY` text of a year, as `toISOString` writes it; years outside
    * 0..9999 take the six-digit extended form with a sign. */
  function YearText(y: int): string
  {
    if 0 <= y <= 9999 then Digits(y, 4)
    else if y < 0 then "-" + Digits(-y, 6)
    else "+" + Digits(y, 6)
  }

  /** The date part `YYYY-MM-DD` of `toISOString()`. */
  function Format(d: Day): string
    requires Valid(d)
  {
    YearText(d.year) + "-" + Digits(d.month, 2) + "-" + Digits(d.day, 2)
  }

  /** A stored date `YYYY-MM-DD` read as a calendar day; `None` stands for an
    * invalid date. */
  function Parse(s: string): (r: Option<Day>)
    ensures r.Some? ==> Valid(r.value)
  {
    if |s| == 10 && s[4] == '-' && s[7] == '-' &&
       Numbers.AllDigits(s[..4]) && Numbers.AllDigits(s[5..7]) && Numbers.AllDigits(s[8..])
    then
      var y := Numbers.DigitsValue(s[..4]);
      var m := Numbers.DigitsValue(s[5..7]);
      var d := Numbers.DigitsValue(s[8..]);
      if 1 <= m <= 12 && 1 <= d <= DaysInMonth(y, m) then Some(Day(y, m, d)) else None
    else None
  }

  predicate IsIsoDay(s: string)
  {
    Parse(s).Some?
  }

  /** The fields of `Format(d)` for a year in 0..9999. */
  lemma {:induction false} FormatFields(d: Day)
    requires Valid(d) && 0 <= d.year <= 9999
    ensures var s := Format(d);
      |s| == 10 && s[4] == '-' && s[7] == '-' &&
      s[..4] == Digits(d.year, 4) && s[5..7] == Digits(d.month, 2) && s[8..] == Digits(d.day, 2)
  {
    var s := Format(d);
    assert s[..4] == Digits(d.year, 4);
    assert s[5..7] == Digits(d.month, 2);
    assert s[8..] == Digits(d.day, 2);
  }

  /** Writing a day in the years 0..9999 and reading it back gives the day. */
  lemma {:induction false} ParseFormat(d: Day)
    requires Valid(d) && 0 <= d.year <= 9999
    ensures Parse(Format(d)) == Some(d)
  {
    FormatFields(d);
    DigitsValue(d.year, 4);
    DigitsValue(d.month, 2);
    DigitsValue(d.day, 2);
  }

  /** A string that reads as a day is that day's canonical text. */
  lemma {:induction false} FormatParse(s: string)
    requires Parse(s).Some?
    ensures Format(Parse(s).value) == s
  {
    var d := Parse(s).value;
    ValueDigits(s[..4]);
    ValueDigits(s[5..7]);
    ValueDigits(s[8..]);
    assert s == s[..4] + "-" + s[5..7] + "-" + s[8..];
  }

  /** On stored dates, the string order is the calendar order: comparing the
    * texts with `<` and comparing the `Date` values agree. */
  /** A string that reads as a day is its three digit fields joined by
    * dashes, and the day is made of their values. */
  lemma {:induction false} IsoFields(a: string)
    requires Parse(a).Some?
    ensures a == a[..4] + ("-" + (a[5..7] + ("-" + a[8..])))
    ensures |a[..4]| == 4 && |a[5..7]| == 2 && |a[8..]| == 2
    ensures Numbers.AllDigits(a[..4]) && Numbers.AllDigits(a[5..7]) && Numbers.AllDigits(a[8..])
    ensures Parse(a).value ==
      Day(Numbers.DigitsValue(a[..4]), Numbers.DigitsValue(a[5..7]), Numbers.DigitsValue(a[8..]))
  {
    assert a == a[..4] + ("-" + (a[5..7] + ("-" + a[8..])));
  }

  lemma {:induction false} TextOrderIsDayOrder(a: string, b: string)
    requires Parse(a).Some? && Parse(b).Some?
    ensures Text.Lt(a, b) <==> Before(Parse(a).value, Parse(b).value)
    ensures a == b <==> Parse(a).value == Parse(b).value
  {
    IsoFields(a);
    IsoFields(b);
    var ya, ma, ra := a[..4], a[5..7], a[8..];
    var yb, mb, rb := b[..4], b[5..7], b[8..];
    DigitsOrder(ya, yb);
    DigitsOrder(ma, mb);
    DigitsOrder(ra, rb);
    Text.LtConcat(ya, "-" + (ma + ("-" + ra)), yb, "-" + (mb + ("-" + rb)));
    Text.LtConcat("-", ma + ("-" + ra), "-", mb + ("-" + rb));
    Text.LtConcat(ma, "-" + ra, mb, "-" + rb);
    Text.LtConcat("-", ra, "-", rb);
    Text.LtIrreflexive("-");
  }
}
