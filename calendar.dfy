/** The small part of Go's time package that the exporter's window computation
    relies on, for the proleptic Gregorian calendar in UTC.

    A day is an integer day number: day 0 is 1970-01-01. An instant is an
    integer number of seconds since 1970-01-01T00:00:00Z. */
module Calendar {

  const SecondsPerDay: int := 86400

  /** Go's time.Weekday numbering: Sunday = 0, Monday = 1, ..., Saturday = 6. */
  const Sunday: int := 0
  const Thursday: int := 4

  predicate IsLeapYear(y: int) {
    y % 4 == 0 && (y % 100 != 0 || y % 400 == 0)
  }

  function YearLength(y: int): int {
    if IsLeapYear(y) then 366 else 365
  }

  /** The day number of 1 January of year y. */
  function FirstDayOfYear(y: int): int {
    var p := y - 1;
    365 * p + p / 4 - p / 100 + p / 400 - 719162
  }

  /** The day an instant falls on (midnight belongs to the day it starts). */
  function DayOf(t: int): int {
    t / SecondsPerDay
  }

  /** The instant of midnight UTC at the start of day d. */
  function Midnight(d: int): int {
    d * SecondsPerDay
  }

  /** time.Weekday of day d; 1970-01-01 was a Thursday. */
  function Weekday(d: int): (wd: int)
    ensures 0 <= wd < 7
  {
    (d + Thursday) % 7
  }

  /** Position of day d in an ISO 8601 week: Monday = 0, ..., Sunday = 6. */
  function IsoDayIndex(d: int): (k: int)
    ensures 0 <= k < 7
  {
    (Weekday(d) + 6) % 7
  }

  /** Going from y - 1 to y, the leap-day counts p / 4, p / 100 and p / 400 of
      FirstDayOfYear each grow by one exactly when the divisor divides y. */
  lemma DivSteps(y: int)
    ensures y / 4 - (y - 1) / 4 == if y % 4 == 0 then 1 else 0
    ensures y / 100 - (y - 1) / 100 == if y % 100 == 0 then 1 else 0
    ensures y / 400 - (y - 1) / 400 == if y % 400 == 0 then 1 else 0
  {
  }

  /** A multiple of 400 is a multiple of 100, which is a multiple of 4. */
  lemma DivisorChain(y: int)
    ensures y % 400 == 0 ==> y % 100 == 0
    ensures y % 100 == 0 ==> y % 4 == 0
  {
    if y % 400 == 0 {
      var k := y / 400;
      assert y == 100 * (4 * k);
    }
    if y % 100 == 0 {
      var k := y / 100;
      assert y == 4 * (25 * k);
    }
  }

  /** Consecutive first days of the year are one year length apart. */
  lemma YearLengthStep(y: int)
    ensures FirstDayOfYear(y + 1) == FirstDayOfYear(y) + YearLength(y)
  {
    DivSteps(y);
    DivisorChain(y);
  }

  lemma {:induction false} FirstDayMonotone(a: int, b: int)
    requires a < b
    ensures FirstDayOfYear(a + 1) <= FirstDayOfYear(b)
    decreases b - a
  {
    YearLengthStep(a);
    if a + 1 < b {
      FirstDayMonotone(a + 1, b);
      YearLengthStep(a + 1);
    }
  }

  function SearchUp(d: int, g: int): (y: int)
    requires FirstDayOfYear(g) <= d
    ensures FirstDayOfYear(y) <= d < FirstDayOfYear(y + 1)
    decreases d - FirstDayOfYear(g)
  {
    YearLengthStep(g);
    if d < FirstDayOfYear(g + 1) then g else SearchUp(d, g + 1)
  }

  function SearchDown(d: int, g: int): (y: int)
    ensures FirstDayOfYear(y) <= d < FirstDayOfYear(y + 1)
    decreases FirstDayOfYear(g) - d
  {
    YearLengthStep(g - 1);
    if d < FirstDayOfYear(g) then SearchDown(d, g - 1) else SearchUp(d, g)
  }

  /** The calendar year that day d belongs to. */
  function YearOfDay(d: int): (y: int)
    ensures FirstDayOfYear(y) <= d < FirstDayOfYear(y + 1)
  {
    SearchDown(d, 1970 + d / 365)
  }

  /** The year of a day is the only year whose span contains it. */
  lemma YearOfDayUnique(d: int, y: int)
    requires FirstDayOfYear(y) <= d < FirstDayOfYear(y + 1)
    ensures YearOfDay(d) == y
  {
    var z := YearOfDay(d);
    if z < y {
      FirstDayMonotone(z, y);
    } else if y < z {
      FirstDayMonotone(y, z);
    }
  }

  /** Go's Time.ISOWeek on the day d: move to the Thursday of d's Monday-to-Sunday
      week; the ISO year is that Thursday's calendar year and the week number is
      its zero-based day of year divided by 7, plus one. */
  function IsoWeek(d: int): (yw: (int, int))
    ensures 1 <= yw.1 <= 53
  {
    var thursday := ThursdayOf(d);
    var y := YearOfDay(thursday);
    YearLengthStep(y);
    (y, (thursday - FirstDayOfYear(y)) / 7 + 1)
  }

  /** ISO 8601 week 1 of year y is the Monday-to-Sunday week holding 4 January;
      this is the day number of its Monday. */
  function IsoWeekOneMonday(y: int): int {
    var jan4 := FirstDayOfYear(y) + 3;
    jan4 - IsoDayIndex(jan4)
  }

  /** The Monday that begins ISO week w of ISO year y. */
  function IsoWeekMonday(y: int, w: int): int {
    IsoWeekOneMonday(y) + 7 * (w - 1)
  }

  /** The day Go's ISOWeek moves d to: the Thursday of d's Monday-to-Sunday week. */
  function ThursdayOf(d: int): int {
    var wd := Weekday(d);
    d + (if wd == Sunday then -3 else Thursday - wd)
  }

  /** The Thursday of the Monday-to-Sunday week holding x. */
  lemma WeekThursday(x: int)
    ensures Weekday(x - IsoDayIndex(x) + 3) == Thursday
  {
    var q := (x + Thursday) / 7;
    assert x + Thursday == 7 * q + Weekday(x);
  }

  /** Stepping back by its ISO day index from x reaches a Monday. */
  lemma WeekMonday(x: int)
    ensures IsoDayIndex(x - IsoDayIndex(x)) == 0
  {
    var q := (x + Thursday) / 7;
    assert x + Thursday == 7 * q + Weekday(x);
  }

  lemma ThursdayOfIsThursday(d: int)
    ensures ThursdayOf(d) == d - IsoDayIndex(d) + 3
    ensures Weekday(ThursdayOf(d)) == Thursday
  {
    WeekThursday(d);
  }

  lemma WeekOneThursday(y: int)
    ensures 0 <= IsoWeekOneMonday(y) + 3 - FirstDayOfYear(y) < 7
    ensures Weekday(IsoWeekOneMonday(y) + 3) == Thursday
  {
    WeekThursday(FirstDayOfYear(y) + 3);
  }

  lemma SameWeekday(x: int, z: int)
    requires Weekday(x) == Weekday(z)
    ensures x - z == 7 * ((x - z) / 7)
  {
    var qx, qz := (x + Thursday) / 7, (z + Thursday) / 7;
    assert x + Thursday == 7 * qx + Weekday(x);
    assert z + Thursday == 7 * qz + Weekday(z);
    assert x - z == 7 * (qx - qz);
  }

  lemma DivBlock(j: int, b: int)
    requires 0 <= b < 7
    ensures (7 * j + b) / 7 == j
  {
  }

  /** Agreement of IsoWeek with ISO 8601: day d lies in the Monday-to-Sunday
      week that IsoWeekMonday names for the pair IsoWeek(d), and the Thursday
      of that week lies in the year the pair names. */
  lemma IsoWeekContains(d: int)
    ensures IsoWeekMonday(IsoWeek(d).0, IsoWeek(d).1) == d - IsoDayIndex(d)
    ensures var yw := IsoWeek(d);
      FirstDayOfYear(yw.0) <= IsoWeekMonday(yw.0, yw.1) + 3 < FirstDayOfYear(yw.0 + 1)
  {
    var t := ThursdayOf(d);
    ThursdayOfIsThursday(d);
    var y := YearOfDay(t);
    var first := FirstDayOfYear(y);
    var t1 := IsoWeekOneMonday(y) + 3;
    WeekOneThursday(y);
    var b := t1 - first;
    SameWeekday(t, t1);
    var j := (t - t1) / 7;
    assert t - first == 7 * j + b;
    DivBlock(j, b);
    assert IsoWeek(d) == (y, j + 1);
  }
}
