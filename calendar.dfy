/**
 * Local calendar dates and instants, as JavaScript's `Date` exposes them
 * through `getFullYear`, `getMonth` (zero-based) and `getDate`.
 *
 * An instant is a calendar day plus a millisecond of that day; months are
 * zero-based as in JavaScript. Time zones are not modelled: every instant
 * is read in the server's local time.
 */
module Calendar {

  /** Milliseconds in one day. */
  const MsPerDay: int := 86_400_000

  datatype DateTime = DateTime(year: int, month0: int, day: int, ms: int)

  /** Gregorian leap years. */
  predicate IsLeapYear(y: int) {
    (y % 4 == 0 && y % 100 != 0) || y % 400 == 0
  }

  function DaysInMonth(y: int, m0: int): (n: int)
    requires 0 <= m0 < 12
    ensures 28 <= n <= 31
    ensures n == 28 <==> m0 == 1 && !IsLeapYear(y)
  {
    if m0 == 1 then (if IsLeapYear(y) then 29 else 28)
    else if m0 == 3 || m0 == 5 || m0 == 8 || m0 == 10 then 30
    else 31
  }

  /** An instant that names an existing day and millisecond. */
  predicate Valid(t: DateTime) {
    && 0 <= t.month0 < 12
    && 1 <= t.day <= DaysInMonth(t.year, t.month0)
    && 0 <= t.ms < MsPerDay
  }

  /** Consecutive calendar months have consecutive indices. */
  function MonthIndex(y: int, m0: int): int {
    y * 12 + m0
  }

  function NextMonth(y: int, m0: int): (r: (int, int))
    requires 0 <= m0 < 12
    ensures 0 <= r.1 < 12 && MonthIndex(r.0, r.1) == MonthIndex(y, m0) + 1
  {
    if m0 == 11 then (y + 1, 0) else (y, m0 + 1)
  }

  function PrevMonth(y: int, m0: int): (r: (int, int))
    requires 0 <= m0 < 12
    ensures 0 <= r.1 < 12 && MonthIndex(r.0, r.1) == MonthIndex(y, m0) - 1
  {
    if m0 == 0 then (y - 1, 11) else (y, m0 - 1)
  }

  /**
   * Midnight of day `d` counted from the first of month `m0` of year `y`:
   * a day past the end of the month runs into the following months, and a
   * day below 1 runs back into the preceding ones.
   */
  function NormaliseDay(y: int, m0: int, d: int): (r: DateTime)
    requires 0 <= m0 < 12
    ensures Valid(r) && r.ms == 0
    ensures 1 <= d <= DaysInMonth(y, m0) ==> r == DateTime(y, m0, d, 0)
    ensures d > DaysInMonth(y, m0) ==> MonthIndex(r.year, r.month0) > MonthIndex(y, m0)
    ensures d < 1 ==> MonthIndex(r.year, r.month0) < MonthIndex(y, m0)
    ensures var (ny, nm) := NextMonth(y, m0);
            DaysInMonth(y, m0) < d <= DaysInMonth(y, m0) + 28 ==> r == DateTime(ny, nm, d - DaysInMonth(y, m0), 0)
    ensures var (py, pm) := PrevMonth(y, m0);
            -27 <= d < 1 ==> r == DateTime(py, pm, d + DaysInMonth(py, pm), 0)
    decreases d < 1, if d < 1 then 1 - d else d
  {
    if d < 1 then
      var (py, pm) := PrevMonth(y, m0);
      NormaliseDay(py, pm, d + DaysInMonth(py, pm))
    else if d > DaysInMonth(y, m0) then
      var (ny, nm) := NextMonth(y, m0);
      NormaliseDay(ny, nm, d - DaysInMonth(y, m0))
    else
      DateTime(y, m0, d, 0)
  }

  /** The year `new Date(y, m, d)` works with: a year from 0 to 99 stands for 1900 to 1999. */
  function ConstructorYear(y: int): (r: int)
    ensures r == y || r == y + 1900
    ensures !(0 <= r <= 99)
  {
    if 0 <= y <= 99 then 1900 + y else y
  }

  /**
   * `new Date(y, m, d)`: local midnight. The year is first read as
   * `ConstructorYear(y)`; a month outside 0..11 then moves the year, and a
   * day outside the month then moves the month.
   */
  function MakeDate(y: int, m: int, d: int): (r: DateTime)
    ensures Valid(r) && r.ms == 0
    ensures var fy := ConstructorYear(y);
            1 <= d <= DaysInMonth(fy + m / 12, m % 12) ==> MonthIndex(r.year, r.month0) == MonthIndex(fy, m) && r.day == d
    ensures var fy := ConstructorYear(y);
            d > DaysInMonth(fy + m / 12, m % 12) ==> MonthIndex(r.year, r.month0) > MonthIndex(fy, m)
    ensures var (fy, fm) := (ConstructorYear(y) + m / 12, m % 12);
            var (ny, nm) := NextMonth(fy, fm);
            DaysInMonth(fy, fm) < d <= DaysInMonth(fy, fm) + 28 ==> r == DateTime(ny, nm, d - DaysInMonth(fy, fm), 0)
    ensures var (fy, fm) := (ConstructorYear(y) + m / 12, m % 12);
            var (py, pm) := PrevMonth(fy, fm);
            -27 <= d < 1 ==> r == DateTime(py, pm, d + DaysInMonth(py, pm), 0)
  {
    NormaliseDay(ConstructorYear(y) + m / 12, m % 12, d)
  }

  /** Two-digit years: `new Date(24, 11, 15)` is 15 December 1924, and `new Date(99, 12, 1)` is 1 January 2000. */
  lemma TwoDigitYears()
    ensures MakeDate(24, 11, 15) == DateTime(1924, 11, 15, 0)
    ensures MakeDate(99, 12, 1) == DateTime(2000, 0, 1, 0)
    ensures MakeDate(100, 0, 1) == DateTime(100, 0, 1, 0)
  {
    assert DaysInMonth(1924, 11) == 31 && DaysInMonth(2000, 0) == 31 && DaysInMonth(100, 0) == 31;
  }

  /**
   * A number that orders instants: for valid instants it grows with the
   * year, then the month, then the day, then the millisecond.
   */
  function Key(t: DateTime): int {
    ((t.year * 12 + t.month0) * 32 + t.day) * 86_400_000 + t.ms
  }

  /** `a <= b` on instants. */
  predicate AtOrBefore(a: DateTime, b: DateTime) {
    Key(a) <= Key(b)
  }

  /** `a < b` on instants. */
  predicate Before(a: DateTime, b: DateTime) {
    Key(a) < Key(b)
  }

  /** The first instant of a month (date-fns `startOfMonth`): no valid instant of the month comes before it. */
  function StartOfMonth(y: int, m0: int): (r: DateTime)
    requires 0 <= m0 < 12
    ensures Valid(r) && r.year == y && r.month0 == m0
    ensures forall t {:trigger AtOrBefore(r, t)} :: Valid(t) && t.year == y && t.month0 == m0 ==> AtOrBefore(r, t)
  {
    DateTime(y, m0, 1, 0)
  }

  /** The last instant of a month (date-fns `endOfMonth`): no valid instant of the month comes after it. */
  function EndOfMonth(y: int, m0: int): (r: DateTime)
    requires 0 <= m0 < 12
    ensures Valid(r) && r.year == y && r.month0 == m0
    ensures forall t {:trigger AtOrBefore(t, r)} :: Valid(t) && t.year == y && t.month0 == m0 ==> AtOrBefore(t, r)
  {
    DateTime(y, m0, DaysInMonth(y, m0), MsPerDay - 1)
  }

  /**
   * The instant one millisecond earlier. At an instant whose millisecond
   * within the second is 0, such as the start of a month, this is what
   * `setMilliseconds(-1)` gives.
   */
  function PrevInstant(t: DateTime): (r: DateTime)
    requires Valid(t)
    ensures Valid(r) && Key(r) < Key(t)
  {
    if t.ms > 0 then t.(ms := t.ms - 1)
    else if t.day > 1 then t.(day := t.day - 1, ms := MsPerDay - 1)
    else
      var (py, pm) := PrevMonth(t.year, t.month0);
      EndOfMonth(py, pm)
  }

  /** A valid instant lies between the first and last instants of exactly its own month. */
  lemma WithinMonthBounds(t: DateTime, y: int, m0: int)
    requires Valid(t) && 0 <= m0 < 12
    ensures AtOrBefore(StartOfMonth(y, m0), t) && AtOrBefore(t, EndOfMonth(y, m0))
            <==> t.year == y && t.month0 == m0
  {
    var mi, mt := MonthIndex(y, m0), MonthIndex(t.year, t.month0);
    if mt < mi {
      assert Key(t) < Key(StartOfMonth(y, m0));
    } else if mt > mi {
      assert Key(t) > Key(EndOfMonth(y, m0));
    } else {
      assert t.year == y && t.month0 == m0;
    }
  }

  /** No valid instant lies strictly between `PrevInstant(t)` and `t`. */
  lemma PrevInstantIsImmediate(t: DateTime, u: DateTime)
    requires Valid(t) && Valid(u)
    ensures !(Before(PrevInstant(t), u) && Before(u, t))
  {
    var p := PrevInstant(t);
    if t.ms == 0 && t.day == 1 {
      var mu, mt := MonthIndex(u.year, u.month0), MonthIndex(t.year, t.month0);
      if mu < mt - 1 {
        assert Key(u) <= Key(p);
      } else if mu == mt - 1 {
        assert u.year == p.year && u.month0 == p.month0;
      } else if mu == mt {
        assert Key(u) >= Key(t);
      } else {
        assert Key(u) > Key(t);
      }
    } else if t.ms == 0 {
      var mu, mt := MonthIndex(u.year, u.month0), MonthIndex(t.year, t.month0);
      if mu < mt {
        assert Key(u) <= Key(p);
      } else if mu > mt {
        assert Key(u) > Key(t);
      } else {
        assert u.year == t.year && u.month0 == t.month0;
      }
    } else {
      var mu, mt := MonthIndex(u.year, u.month0), MonthIndex(t.year, t.month0);
      if mu < mt {
        assert Key(u) < Key(p);
      } else if mu > mt {
        assert Key(u) > Key(t);
      } else {
        assert u.year == t.year && u.month0 == t.month0;
      }
    }
  }
}
