/**
 * Civil dates, as Date.UTC reads them: stepping a day, numbering days, and the key
 * y * 10000 + m * 100 + d that orders them.
 */
module CivilDate {

  datatype Date = Date(y: int, m: int, d: int)

  predicate Leap(y: int) {
    y % 4 == 0 && (y % 100 != 0 || y % 400 == 0)
  }

  function DaysIn(y: int, m: int): int {
    if m == 2 then (if Leap(y) then 29 else 28)
    else if m == 4 || m == 6 || m == 9 || m == 11 then 30 else 31
  }

  predicate ValidDate(x: Date) {
    1 <= x.m <= 12 && 1 <= x.d <= DaysIn(x.y, x.m)
  }

  // new Date(Date.UTC(y, m - 1, d + 1))
  function NextDay(x: Date): Date {
    if x.d < DaysIn(x.y, x.m) then Date(x.y, x.m, x.d + 1)
    else if x.m < 12 then Date(x.y, x.m + 1, 1)
    else Date(x.y + 1, 1, 1)
  }

  function Key(x: Date): int {
    x.y * 10000 + x.m * 100 + x.d
  }

  // Days from 0001-01-01 to the first day of year y.
  function YearStart(y: int): int {
    365 * (y - 1) + (y - 1) / 4 - (y - 1) / 100 + (y - 1) / 400
  }

  function MonthStart(y: int, m: int): int
    requires 1 <= m
  {
    if m == 1 then 0 else MonthStart(y, m - 1) + DaysIn(y, m - 1)
  }

  const EPOCH_DAYS := 719162

  // Days since 1970-01-01.
  function DayNumber(x: Date): int
    requires 1 <= x.m
  {
    YearStart(x.y) + MonthStart(x.y, x.m) + x.d - 1 - EPOCH_DAYS
  }

  // getUTCDay() || 7
  function IsoDay(n: int): int {
    if (n + 4) % 7 == 0 then 7 else (n + 4) % 7
  }

  lemma Quotient(y: int, k: int)
    requires k > 0
    ensures y / k - (y - 1) / k == if y % k == 0 then 1 else 0
  {
    var q, r := (y - 1) / k, (y - 1) % k;
    assert y - 1 == q * k + r;
    if r == k - 1 {
      assert y == (q + 1) * k;
      DivMod(y, k, q + 1, 0);
    } else {
      DivMod(y, k, q, r + 1);
    }
  }

  lemma DivMod(x: int, k: int, q: int, r: int)
    requires k > 0 && 0 <= r < k && x == q * k + r
    ensures x / k == q && x % k == r
  {
    var d := x / k - q;
    assert d * k == r - x % k;
    assert d >= 1 ==> d * k >= k;
    assert d <= -1 ==> d * k <= -k;
  }

  lemma YearLength(y: int)
    ensures YearStart(y + 1) - YearStart(y) == if Leap(y) then 366 else 365
  {
    Quotient(y, 4);
    Quotient(y, 100);
    Quotient(y, 400);
  }

  lemma MonthsOfYear(y: int)
    ensures MonthStart(y, 12) + DaysIn(y, 12) == if Leap(y) then 366 else 365
  {
    var f := DaysIn(y, 2);
    assert MonthStart(y, 2) == 31 && MonthStart(y, 3) == 31 + f && MonthStart(y, 4) == 62 + f;
    assert MonthStart(y, 5) == 92 + f && MonthStart(y, 6) == 123 + f && MonthStart(y, 7) == 153 + f;
    assert MonthStart(y, 8) == 184 + f && MonthStart(y, 9) == 215 + f && MonthStart(y, 10) == 245 + f;
    assert MonthStart(y, 11) == 276 + f && MonthStart(y, 12) == 306 + f;
  }

  /** The rolled-over date is a real date, one day later. */
  lemma NextDayFollows(x: Date)
    requires ValidDate(x)
    ensures ValidDate(NextDay(x)) && DayNumber(NextDay(x)) == DayNumber(x) + 1
  {
    if x.d == DaysIn(x.y, x.m) && x.m == 12 {
      YearLength(x.y);
      MonthsOfYear(x.y);
    }
  }

  lemma {:induction false} MonthsRise(y: int, m: int, n: int)
    requires 1 <= m < n <= 12
    ensures MonthStart(y, m) + DaysIn(y, m) <= MonthStart(y, n)
    decreases n
  {
    if n > m + 1 {
      MonthsRise(y, m, n - 1);
    }
  }

  lemma {:induction false} YearsRise(y: int, z: int)
    requires y < z
    ensures YearStart(y + 1) <= YearStart(z)
    decreases z - y
  {
    if z > y + 1 {
      YearsRise(y, z - 1);
      YearLength(z - 1);
    }
  }

  lemma WithinYear(x: Date)
    requires ValidDate(x)
    ensures YearStart(x.y) - EPOCH_DAYS <= DayNumber(x) < YearStart(x.y + 1) - EPOCH_DAYS
  {
    YearLength(x.y);
    MonthsOfYear(x.y);
    if x.m < 12 {
      MonthsRise(x.y, x.m, 12);
    }
    if x.m > 1 {
      MonthsRise(x.y, 1, x.m);
    }
  }

  lemma KeyRises(a: Date, b: Date)
    requires ValidDate(a) && ValidDate(b) && Key(a) < Key(b)
    ensures DayNumber(a) < DayNumber(b)
  {
    if a.y < b.y {
      WithinYear(a);
      WithinYear(b);
      YearsRise(a.y, b.y);
    } else if a.m < b.m {
      MonthsRise(a.y, a.m, b.m);
    }
  }

  /** Keys order real dates as their day numbers do, and tell them apart. */
  lemma KeyOrder(a: Date, b: Date)
    requires ValidDate(a) && ValidDate(b)
    ensures Key(a) < Key(b) <==> DayNumber(a) < DayNumber(b)
    ensures DayNumber(a) == DayNumber(b) <==> a == b
  {
    if Key(a) < Key(b) {
      KeyRises(a, b);
    } else if Key(b) < Key(a) {
      KeyRises(b, a);
    } else {
      assert a.y == b.y;
    }
  }

  /** From a date on is the date itself or from the next day on. */
  lemma KeyFrom(first: Date, x: Date)
    requires ValidDate(first) && ValidDate(x)
    ensures ValidDate(NextDay(first)) && Key(first) < Key(NextDay(first))
    ensures Key(first) <= Key(x) <==> x == first || Key(NextDay(first)) <= Key(x)
  {
    NextDayFollows(first);
    KeyOrder(first, NextDay(first));
    KeyOrder(x, first);
    KeyOrder(x, NextDay(first));
  }

  // ---- Weekdays and month lengths ----------------------------------------------------------

  lemma WeekStep(n: int)
    ensures 1 <= IsoDay(n) <= 7
    ensures IsoDay(n + 1) == if IsoDay(n) == 7 then 1 else IsoDay(n) + 1
  {
  }

  /** Monday 1 to Sunday 7: each day is the next, Monday follows Sunday, and the epoch is a Thursday. */
  lemma WeekdayFollows(x: Date)
    requires ValidDate(x)
    ensures 1 <= IsoDay(DayNumber(x)) <= 7
    ensures IsoDay(DayNumber(NextDay(x))) == if IsoDay(DayNumber(x)) == 7 then 1 else IsoDay(DayNumber(x)) + 1
    ensures IsoDay(DayNumber(Date(1970, 1, 1))) == 4
  {
    NextDayFollows(x);
    WeekStep(DayNumber(x));
    assert DayNumber(Epoch()) == 0;
  }

  /** The calendar's months; February has 29 days in years divisible by 4, but of centuries only by 400. */
  lemma MonthLengths(y: int)
    ensures DaysIn(y, 1) == DaysIn(y, 3) == DaysIn(y, 5) == DaysIn(y, 7) == DaysIn(y, 8) == DaysIn(y, 10) == 31
    ensures DaysIn(y, 12) == 31
    ensures DaysIn(y, 4) == DaysIn(y, 6) == DaysIn(y, 9) == DaysIn(y, 11) == 30
    ensures DaysIn(y, 2) == if y % 400 == 0 || (y % 4 == 0 && y % 100 != 0) then 29 else 28
  {
    if y % 400 == 0 {
      assert y == 4 * (100 * (y / 400));
    }
  }

  // ---- The date of a day number ----------------------------------------------------------

  function DayBefore(x: Date): Date {
    if x.d > 1 then Date(x.y, x.m, x.d - 1)
    else if x.m > 1 then Date(x.y, x.m - 1, DaysIn(x.y, x.m - 1))
    else Date(x.y - 1, 12, 31)
  }

  lemma DayBeforePrecedes(x: Date)
    requires ValidDate(x)
    ensures ValidDate(DayBefore(x)) && DayNumber(DayBefore(x)) == DayNumber(x) - 1
  {
    NextDayFollows(DayBefore(x));
    assert NextDay(DayBefore(x)) == x;
  }

  /** The one real date with this number. */
  function DateOf(n: int): (x: Date)
    ensures ValidDate(x) && DayNumber(x) == n
    decreases if n < 0 then -n else n
  {
    if n == 0 then Epoch()
    else if n > 0 then
      NextDayFollows(DateOf(n - 1));
      NextDay(DateOf(n - 1))
    else
      DayBeforePrecedes(DateOf(n + 1));
      DayBefore(DateOf(n + 1))
  }

  function Epoch(): (x: Date)
    ensures ValidDate(x) && DayNumber(x) == 0
  {
    var x := Date(1970, 1, 1);
    assert MonthStart(1970, 1) == 0;
    x
  }
}
