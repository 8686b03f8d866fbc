/** The proleptic Gregorian calendar, as a bijection between dates and day numbers.
    Day 0 is 0000-01-01. */
module Calendar {

  datatype Date = Date(year: int, month: int, day: int)

  predicate IsLeap(y: int) { y % 4 == 0 && (y % 100 != 0 || y % 400 == 0) }

  function DaysInMonth(y: int, m: int): (d: int)
    requires 1 <= m <= 12
    ensures 28 <= d <= 31
  {
    if m == 2 then (if IsLeap(y) then 29 else 28)
    else if m == 4 || m == 6 || m == 9 || m == 11 then 30
    else 31
  }

  predicate ValidDate(d: Date) {
    1 <= d.month <= 12 && 1 <= d.day <= DaysInMonth(d.year, d.month)
  }

  /** The day after: the calendar's own rule, against which the arithmetic below is proved. */
  function Tomorrow(d: Date): (r: Date)
    requires ValidDate(d)
    ensures ValidDate(r)
  {
    if d.day < DaysInMonth(d.year, d.month) then Date(d.year, d.month, d.day + 1)
    else if d.month < 12 then Date(d.year, d.month + 1, 1)
    else Date(d.year + 1, 1, 1)
  }

  /** The day number of January the first. */
  function YearStart(y: int): int {
    365 * y + (y + 3) / 4 - (y + 99) / 100 + (y + 399) / 400
  }

  lemma YearLength(y: int)
    ensures YearStart(y + 1) == YearStart(y) + (if IsLeap(y) then 366 else 365)
  {
    assert (y + 4) / 4 == (y + 3) / 4 + (if y % 4 == 0 then 1 else 0);
    assert (y + 100) / 100 == (y + 99) / 100 + (if y % 100 == 0 then 1 else 0);
    assert (y + 400) / 400 == (y + 399) / 400 + (if y % 400 == 0 then 1 else 0);
    assert y % 400 == 0 ==> y % 100 == 0;
    assert y % 100 == 0 ==> y % 4 == 0;
  }

  /** Days before a month within its year. */
  function MonthStart(y: int, m: int): (d: int)
    requires 1 <= m <= 13
    ensures m > 1 ==> d == MonthStart(y, m - 1) + DaysInMonth(y, m - 1)
    decreases m
  {
    if m == 1 then 0 else MonthStart(y, m - 1) + DaysInMonth(y, m - 1)
  }

  lemma MonthsFillTheYear(y: int)
    ensures MonthStart(y, 13) == if IsLeap(y) then 366 else 365
  {
    assert MonthStart(y, 3) == 31 + DaysInMonth(y, 2);
    assert MonthStart(y, 6) == MonthStart(y, 3) + 92;
    assert MonthStart(y, 9) == MonthStart(y, 6) + 92;
    assert MonthStart(y, 13) == MonthStart(y, 9) + 122;
  }

  function DayNumber(d: Date): int
    requires ValidDate(d)
  {
    YearStart(d.year) + MonthStart(d.year, d.month) + d.day - 1
  }

  function YearOf(n: int): int {
    var guess := 400 * n / 146097;
    if n < YearStart(guess) then guess - 1
    else if YearStart(guess + 1) <= n then guess + 1
    else guess
  }

  lemma YearOfHolds(n: int)
    ensures YearStart(YearOf(n)) <= n < YearStart(YearOf(n) + 1)
  {
    var guess := 400 * n / 146097;
    YearBounds(guess - 1);
    YearBounds(guess);
    YearBounds(guess + 1);
    YearBounds(guess + 2);
    assert 146097 * guess <= 400 * n < 146097 * guess + 146097;
  }

  /** A year starts within two days of its mean position. */
  lemma YearBounds(y: int)
    ensures 146097 * y - 800 < 400 * YearStart(y) < 146097 * y + 800
  {
    var a, b, c := (y + 3) / 4, (y + 99) / 100, (y + 399) / 400;
    assert 4 * a <= y + 3 < 4 * a + 4;
    assert 100 * b <= y + 99 < 100 * b + 100;
    assert 400 * c <= y + 399 < 400 * c + 400;
  }

  lemma {:induction false} YearStartMonotone(a: int, b: int)
    requires a <= b
    ensures YearStart(a) <= YearStart(b)
    ensures a < b ==> YearStart(a + 1) <= YearStart(b)
    decreases b - a
  {
    if a < b {
      YearLength(a);
      YearStartMonotone(a + 1, b);
    }
  }

  function MonthOf(y: int, offset: int, m: int := 12): (r: int)
    requires 1 <= m <= 12 && 0 <= offset < MonthStart(y, m + 1)
    ensures 1 <= r <= m && MonthStart(y, r) <= offset < MonthStart(y, r + 1)
    decreases m
  {
    if MonthStart(y, m) <= offset then m else MonthOf(y, offset, m - 1)
  }

  /** The date of a day number. */
  function DateOf(n: int): (d: Date)
    ensures ValidDate(d)
  {
    YearOfHolds(n);
    var y := YearOf(n);
    YearLength(y);
    MonthsFillTheYear(y);
    var offset := n - YearStart(y);
    var m := MonthOf(y, offset);
    Date(y, m, offset - MonthStart(y, m) + 1)
  }

  lemma DayNumberOfDateOf(n: int)
    ensures DayNumber(DateOf(n)) == n
  {
  }

  lemma {:induction false} MonthStartMonotone(y: int, a: int, b: int)
    requires 1 <= a <= b <= 13
    ensures MonthStart(y, a) <= MonthStart(y, b)
    ensures a < b ==> MonthStart(y, a) + DaysInMonth(y, a) <= MonthStart(y, b)
    decreases b - a
  {
    if a < b {
      assert MonthStart(y, a + 1) == MonthStart(y, a) + DaysInMonth(y, a);
      MonthStartMonotone(y, a + 1, b);
    }
  }

  lemma YearIsUnique(n: int, y: int)
    requires YearStart(y) <= n < YearStart(y + 1)
    ensures YearOf(n) == y
  {
    YearOfHolds(n);
    var r := YearOf(n);
    if r < y {
      YearStartMonotone(r, y);
    } else if y < r {
      YearStartMonotone(y, r);
    }
  }

  lemma MonthIsUnique(y: int, m: int, r: int, offset: int)
    requires 1 <= m <= 12 && MonthStart(y, m) <= offset < MonthStart(y, m) + DaysInMonth(y, m)
    requires 1 <= r <= 12 && MonthStart(y, r) <= offset < MonthStart(y, r) + DaysInMonth(y, r)
    ensures r == m
  {
    if r < m {
      MonthStartMonotone(y, r, m);
    } else if m < r {
      MonthStartMonotone(y, m, r);
    }
  }

  lemma OffsetWithinYear(y: int, m: int, day: int)
    requires 1 <= m <= 12 && 1 <= day <= DaysInMonth(y, m)
    ensures 0 <= MonthStart(y, m) + day - 1 < if IsLeap(y) then 366 else 365
  {
    assert MonthStart(y, 1) == 0;
    hide MonthStart, DaysInMonth, IsLeap;
    MonthStartMonotone(y, 1, m);
    MonthStartMonotone(y, m, 13);
    MonthsFillTheYear(y);
  }

  /** A date lies inside its year. */
  lemma DayWithinYear(d: Date)
    requires ValidDate(d)
    ensures YearStart(d.year) <= DayNumber(d) < YearStart(d.year + 1)
  {
    hide YearStart, MonthStart, IsLeap, DaysInMonth;
    OffsetWithinYear(d.year, d.month, d.day);
    YearLength(d.year);
  }

  lemma DateOfDayNumber(d: Date)
    requires ValidDate(d)
    ensures DateOf(DayNumber(d)) == d
  {
    hide YearStart, MonthStart, YearOf;
    var n := DayNumber(d);
    DayWithinYear(d);
    YearIsUnique(n, d.year);
    var r := DateOf(n);
    MonthIsUnique(d.year, d.month, r.month, n - YearStart(d.year));
  }

  lemma TomorrowIsNext(d: Date)
    requires ValidDate(d)
    ensures DayNumber(Tomorrow(d)) == DayNumber(d) + 1
  {
    hide YearStart;
    if d.day == DaysInMonth(d.year, d.month) && d.month == 12 {
      MonthsFillTheYear(d.year);
      YearLength(d.year);
    }
  }

  /** Counting days is walking the calendar: the date of the next day number is tomorrow's. */
  lemma NextDayIsTomorrow(n: int)
    ensures DateOf(n + 1) == Tomorrow(DateOf(n))
  {
    hide DateOf, DayNumber, Tomorrow;
    var d := DateOf(n);
    DayNumberOfDateOf(n);
    TomorrowIsNext(d);
    DateOfDayNumber(Tomorrow(d));
  }
}
