/** The proleptic Gregorian calendar and UTC instants, as Go's time package has them. */
module Calendar {
  /** A calendar date: month 1 to 12, day 1 to 31. */
  datatype Date = Date(year: int, month: int, day: int)

  /** Instants are nanoseconds since 1 January of year 0, 00:00 UTC. */
  const HOUR: int := 3_600_000_000_000
  const DAY: int := 86_400_000_000_000

  predicate IsLeap(y: int) { y % 4 == 0 && (y % 100 != 0 || y % 400 == 0) }

  /** Days from 1 January of year 0 to 1 January of year y. */
  function YearStart(y: int): int { 365 * y + (y + 3) / 4 - (y + 99) / 100 + (y + 399) / 400 }

  function YearLength(y: int): int { if IsLeap(y) then 366 else 365 }

  /** Days before month m (13 for the whole year). */
  function MonthStart(leap: bool, m: int): int
    requires 1 <= m <= 13
  {
    var feb := if leap then 1 else 0;
    if m <= 2 then 31 * (m - 1)
    else feb + 59 + (153 * (m - 3) + 2) / 5
  }

  function MonthLength(leap: bool, m: int): int
    requires 1 <= m <= 12
  {
    MonthStart(leap, m + 1) - MonthStart(leap, m)
  }

  predicate Valid(d: Date) { 1 <= d.month <= 12 && 1 <= d.day <= MonthLength(IsLeap(d.year), d.month) }

  /** The day number of a date; a day past the end of its month runs into the next one, as in time.Date. */
  function DayNumber(y: int, m: int, d: int): int
    requires 1 <= m <= 12
  {
    YearStart(y) + MonthStart(IsLeap(y), m) + d - 1
  }

  lemma Quotients(x: int)
    ensures (x + 1) / 4 == x / 4 + (if (x + 1) % 4 == 0 then 1 else 0)
    ensures (x + 1) / 100 == x / 100 + (if (x + 1) % 100 == 0 then 1 else 0)
    ensures (x + 1) / 400 == x / 400 + (if (x + 1) % 400 == 0 then 1 else 0)
  {}

  lemma MultipleOf100(k: int)
    ensures 100 * k % 100 == 0
  {}

  lemma MultipleOf4(k: int)
    ensures 4 * k % 4 == 0
  {}

  lemma Multiples(y: int)
    ensures y % 400 == 0 ==> y % 100 == 0
    ensures y % 100 == 0 ==> y % 4 == 0
  {
    MultipleOf100(4 * (y / 400));
    MultipleOf4(25 * (y / 100));
  }

  lemma Shifts(y: int)
    ensures (y + 4) % 4 == y % 4 && (y + 100) % 100 == y % 100 && (y + 400) % 400 == y % 400
  {}

  lemma YearStartNext(y: int)
    ensures YearStart(y + 1) == YearStart(y) + YearLength(y)
  {
    Quotients(y + 3);
    Quotients(y + 99);
    Quotients(y + 399);
    Shifts(y);
    Multiples(y);
  }

  lemma {:induction false} YearStartMonotone(y: int, z: int)
    requires y <= z
    ensures YearStart(z) >= YearStart(y) + 365 * (z - y)
    decreases z - y
  {
    if y < z {
      YearStartMonotone(y, z - 1);
      YearStartNext(z - 1);
    }
  }

  function YearFrom(n: int, y: int): (r: int)
    requires YearStart(y) <= n
    ensures YearStart(r) <= n < YearStart(r + 1)
    decreases n - YearStart(y)
  {
    YearStartNext(y);
    if n < YearStart(y + 1) then y else YearFrom(n, y + 1)
  }

  function YearOf(n: int): (r: int)
    ensures YearStart(r) <= n < YearStart(r + 1)
  {
    YearFrom(n, if n >= 0 then n / 366 else n / 365)
  }

  function MonthFrom(leap: bool, r: int, m: int): (month: int)
    requires 1 <= m <= 12 && MonthStart(leap, m) <= r < MonthStart(leap, 13)
    ensures 1 <= month <= 12 && MonthStart(leap, month) <= r < MonthStart(leap, month + 1)
    decreases 12 - m
  {
    if r < MonthStart(leap, m + 1) then m else MonthFrom(leap, r, m + 1)
  }

  /** The date of a day number. */
  function DateOf(n: int): (r: Date)
    ensures Valid(r) && DayNumber(r.year, r.month, r.day) == n
  {
    var y := YearOf(n);
    YearStartNext(y);
    var m := MonthFrom(IsLeap(y), n - YearStart(y), 1);
    Date(y, m, n - YearStart(y) - MonthStart(IsLeap(y), m) + 1)
  }

  lemma YearUnique(n: int, y: int)
    requires YearStart(y) <= n < YearStart(y + 1)
    ensures YearOf(n) == y
  {
    var r := YearOf(n);
    if r < y {
      YearStartMonotone(r + 1, y);
    } else if y < r {
      YearStartMonotone(y + 1, r);
    }
  }

  /** Dates and day numbers determine each other. */
  lemma DateOfDayNumber(d: Date)
    requires Valid(d)
    ensures DateOf(DayNumber(d.year, d.month, d.day)) == d
  {
    var n := DayNumber(d.year, d.month, d.day);
    YearStartNext(d.year);
    assert MonthStart(IsLeap(d.year), 13) == YearLength(d.year);
    MonthsAscend(IsLeap(d.year), d.month + 1, 13);
    YearUnique(n, d.year);
    var r := DateOf(n);
    if r.month < d.month {
      MonthsAscend(IsLeap(d.year), r.month + 1, d.month);
    } else if d.month < r.month {
      MonthsAscend(IsLeap(d.year), d.month + 1, r.month);
    }
  }

  lemma MonthsAscend(leap: bool, m: int, k: int)
    requires 1 <= m <= k <= 13
    ensures MonthStart(leap, m) <= MonthStart(leap, k)
  {}

  /** The UTC day an instant falls on. */
  function DayOf(t: int): int { t / DAY }

  /** time.Date(y, m, d, 0, 0, 0, 0, time.UTC) */
  function Midnight(y: int, m: int, d: int): int
    requires 1 <= m <= 12
  {
    DayNumber(y, m, d) * DAY
  }

  /** time.Date moves to another month exactly when the date does not exist. */
  lemma MonthKeptIffValid(y: int, m: int, d: int)
    requires 1 <= m <= 12 && 1 <= d <= 31
    ensures DateOf(DayNumber(y, m, d)).month == m <==> Valid(Date(y, m, d))
  {
    if Valid(Date(y, m, d)) {
      DateOfDayNumber(Date(y, m, d));
    } else {
      // Only short months overflow, so the year is still y.
      var next := Date(y, m + 1, d - MonthLength(IsLeap(y), m));
      assert DayNumber(y, m, d) == DayNumber(next.year, next.month, next.day);
      DateOfDayNumber(next);
    }
  }

  lemma YearOfMonotone(n: int, k: int)
    requires n <= k
    ensures YearOf(n) <= YearOf(k)
  {
    if YearOf(k) < YearOf(n) {
      YearStartMonotone(YearOf(k) + 1, YearOf(n));
    }
  }

  lemma YearOfPrevious(n: int)
    ensures YearOf(n) - 1 <= YearOf(n - 1)
  {
    var y := YearOf(n);
    YearStartNext(y - 1);
    YearUniqueAbove(n - 1, y - 1);
  }

  lemma YearUniqueAbove(n: int, y: int)
    requires YearStart(y) <= n
    ensures y <= YearOf(n)
  {
    if YearOf(n) < y {
      YearStartMonotone(YearOf(n) + 1, y);
    }
  }

  lemma DayBounds(t: int)
    ensures DayOf(t) * DAY <= t < DayOf(t) * DAY + DAY
  {}

  /** An instant lies within the 24 hours from the midnight of its date. */
  lemma WithinItsDay(t: int)
    ensures var d := DateOf(DayOf(t)); Midnight(d.year, d.month, d.day) <= t < Midnight(d.year, d.month, d.day) + DAY
  {
    var d := DateOf(DayOf(t));
    assert DayNumber(d.year, d.month, d.day) == DayOf(t);
    DayBounds(t);
  }

  /** Instants up to 12 hours apart fall on the same or adjacent days. */
  lemma NearbyDays(t: int, u: int)
    requires t - 12 * HOUR <= u
    ensures DayOf(t) - 1 <= DayOf(u)
  {}

  /** The same date in two different years is at least 364 days apart. */
  lemma SameDateApart(y: int, z: int, m: int, d: int)
    requires 1 <= m <= 12 && y < z
    ensures Midnight(y, m, d) + 364 * DAY <= Midnight(z, m, d)
  {
    YearStartMonotone(y, z);
    assert MonthStart(IsLeap(z), m) >= MonthStart(IsLeap(y), m) - 1;
  }

  // ----- the calendar, day by day -----

  /** How long each month is. */
  lemma MonthLengths(leap: bool, m: int)
    requires 1 <= m <= 12
    ensures MonthLength(leap, m) == [31, if leap then 29 else 28, 31, 30, 31, 30, 31, 31, 30, 31, 30, 31][m - 1]
  {}

  /** The date after d: a year divisible by 4 has a 29 February, unless it is
      divisible by 100 and not by 400. */
  function Tomorrow(d: Date): Date
    requires 1 <= d.month <= 12
  {
    var february := if d.year % 400 == 0 || (d.year % 4 == 0 && d.year % 100 != 0) then 29 else 28;
    if d.day < [31, february, 31, 30, 31, 30, 31, 31, 30, 31, 30, 31][d.month - 1] then Date(d.year, d.month, d.day + 1)
    else if d.month < 12 then Date(d.year, d.month + 1, 1)
    else Date(d.year + 1, 1, 1)
  }

  lemma NextDay(d: Date)
    requires Valid(d)
    ensures var t := Tomorrow(d); Valid(t) && DayNumber(t.year, t.month, t.day) == DayNumber(d.year, d.month, d.day) + 1
  {
    MonthLengths(IsLeap(d.year), d.month);
    Multiples(d.year);
    YearStartNext(d.year);
    if d.month < 12 {
      MonthLengths(IsLeap(d.year), d.month + 1);
    } else {
      MonthLengths(IsLeap(d.year + 1), 1);
    }
  }

  /** The date n days after 1 January of year 0, counted off one by one. */
  function Counted(n: nat): (d: Date)
    ensures 1 <= d.month <= 12
  {
    if n == 0 then Date(0, 1, 1)
    else
      MonthInRange(Counted(n - 1));
      Tomorrow(Counted(n - 1))
  }

  lemma MonthInRange(d: Date)
    requires 1 <= d.month <= 12
    ensures 1 <= Tomorrow(d).month <= 12
  {}

  lemma {:induction false} CountedIs(n: nat)
    ensures var d := Counted(n); Valid(d) && DayNumber(d.year, d.month, d.day) == n
  {
    if n > 0 {
      CountedIs(n - 1);
      NextDay(Counted(n - 1));
    }
  }

  lemma DateAt(d: Date, n: int)
    requires Valid(d) && DayNumber(d.year, d.month, d.day) == n
    ensures DateOf(n) == d
  {
    DateOfDayNumber(d);
  }

  /** Day numbers are that count: every date of every year is where counting days puts it. */
  lemma DateIsCounted(n: nat)
    ensures DateOf(n) == Counted(n)
  {
    CountedIs(n);
    DateAt(Counted(n), n);
  }

  /** The Unix epoch is day 719528, and 31 March 2024 is day 739341. */
  lemma Anchors()
    ensures DayNumber(1970, 1, 1) == 719_528 && DayNumber(2024, 3, 31) == 739_341
    ensures Midnight(1970, 1, 1) == 719_528 * 86_400_000_000_000 && 24 * HOUR == DAY
  {}
}
