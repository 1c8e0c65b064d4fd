/** Dates at midnight UTC, counted in days from 1 January 1970: `getTime()` divided by a day. Years are those of the
    proleptic Gregorian calendar. */
module Dates {
  import opened Rounding

  type Day = int

  /** Days from 1970-01-01 to 1 March of a year. */
  function MarchFirst(year: int): int {
    365 * year + year / 4 - year / 100 + year / 400 - 719468
  }

  predicate IsLeap(year: int) {
    year % 4 == 0 && (year % 100 != 0 || year % 400 == 0)
  }

  lemma StepQuotient(x: int, d: int)
    requires d > 1
    ensures x / d - (x - 1) / d == if x % d == 0 then 1 else 0
  {
    var q, r := x / d, x % d;
    assert x == d * q + r;
    if r == 0 {
      QuotientUnique(x - 1, d, q - 1, d - 1);
    } else {
      QuotientUnique(x - 1, d, q, r - 1);
    }
  }

  lemma YearLength(year: int)
    ensures MarchFirst(year) - MarchFirst(year - 1) == if IsLeap(year) then 366 else 365
  {
    StepQuotient(year, 4);
    StepQuotient(year, 100);
    StepQuotient(year, 400);
    assert year % 400 == 0 ==> year % 100 == 0;
    assert year % 100 == 0 ==> year % 4 == 0;
  }

  /** Days from 1 March to the first of the month that comes `i` months later. */
  function MonthOffset(i: int): int
    requires 0 <= i <= 12
  {
    [0, 31, 61, 92, 122, 153, 184, 214, 245, 275, 306, 337, 367][i]
  }

  /** The month, counted from March, of a day counted from 1 March. */
  function MonthIndex(n: int): (i: int)
    requires 0 <= n <= 366
    ensures 0 <= i <= 11 && MonthOffset(i) <= n < MonthOffset(i + 1)
  {
    if n < 153 then (if n < 31 then 0 else if n < 61 then 1 else if n < 92 then 2 else if n < 122 then 3 else 4)
    else if n < 275 then (if n < 184 then 5 else if n < 214 then 6 else if n < 245 then 7 else 8)
    else if n < 306 then 9 else if n < 337 then 10 else 11
  }

  /** `Date.UTC(year, month - 1, day)`: months out of 1..12 carry into the year, days out of the month into the date. */
  function UtcDate(year: int, month: int, day: int): Day {
    var y := year + (month - 1) / 12;
    var m := (month - 1) % 12 + 1;
    if m >= 3 then MarchFirst(y) + MonthOffset(m - 3) + day - 1
    else MarchFirst(y - 1) + MonthOffset(m + 9) + day - 1
  }

  /** The year starting on 1 March that contains the day. */
  function MarchYear(d: Day): (y: int)
    ensures MarchFirst(y) <= d < MarchFirst(y + 1)
  {
    var y := (400 * (d + 719468)) / 146097;
    if MarchFirst(y + 1) <= d then y + 1 else y
  }

  function DayOfMarchYear(d: Day): (n: int)
    ensures 0 <= n <= if IsLeap(MarchYear(d) + 1) then 365 else 364
  {
    YearLength(MarchYear(d) + 1);
    d - MarchFirst(MarchYear(d))
  }

  function MarchMonth(d: Day): (i: int)
    ensures 0 <= i <= 11
    ensures MonthOffset(i) <= DayOfMarchYear(d) < MonthOffset(i + 1)
  {
    MonthIndex(DayOfMarchYear(d))
  }

  /** `getUTCFullYear`. */
  function YearOf(d: Day): int {
    if MarchMonth(d) < 10 then MarchYear(d) else MarchYear(d) + 1
  }

  /** `getUTCMonth() + 1`. */
  function MonthOf(d: Day): (m: int)
    ensures 1 <= m <= 12
  {
    if MarchMonth(d) < 10 then MarchMonth(d) + 3 else MarchMonth(d) - 9
  }

  /** `getUTCDate`. */
  function DayOf(d: Day): (n: int)
    ensures 1 <= n <= 31
  {
    DayOfMarchYear(d) - MonthOffset(MarchMonth(d)) + 1
  }

  /** `getUTCDay`: 0 is Sunday. */
  function Weekday(d: Day): (w: int)
    ensures 0 <= w <= 6
  {
    (d + 4) % 7
  }

  function DaysInMonth(year: int, month: int): int
    requires 1 <= month <= 12
  {
    if month == 2 then (if IsLeap(year) then 29 else 28)
    else if month == 4 || month == 6 || month == 9 || month == 11 then 30
    else 31
  }

  lemma UtcDateInYear(year: int, month: int, day: int)
    requires 1 <= month <= 13
    ensures month <= 12 ==> (month - 1) / 12 == 0 && (month - 1) % 12 == month - 1
    ensures UtcDate(year, month, day) ==
      if month >= 3 && month <= 12 then MarchFirst(year) + MonthOffset(month - 3) + day - 1
      else if month == 13 then MarchFirst(year) + MonthOffset(10) + day - 1
      else MarchFirst(year - 1) + MonthOffset(month + 9) + day - 1
  {
    hide MarchFirst;
  }

  /** The arithmetic above is the Gregorian calendar: it starts at the epoch and months have their own lengths. */
  lemma MonthLength(year: int, month: int)
    requires 1 <= month <= 12
    ensures UtcDate(1970, 1, 1) == 0
    ensures UtcDate(year, month + 1, 1) == UtcDate(year, month, 1) + DaysInMonth(year, month)
  {
    YearLength(year);
    UtcDateInYear(year, month, 1);
    UtcDateInYear(year, month + 1, 1);
    hide MarchFirst;
    hide UtcDate;
  }

  lemma MarchFirstMonotone(y: int, z: int)
    requires y <= z
    ensures MarchFirst(y) + 365 * (z - y) <= MarchFirst(z)
    decreases z - y
  {
    if y < z {
      YearLength(z);
      MarchFirstMonotone(y, z - 1);
    }
  }

  lemma MarchYearUnique(d: Day, y: int)
    requires MarchFirst(y) <= d < MarchFirst(y + 1)
    ensures MarchYear(d) == y
  {
    var z := MarchYear(d);
    if z < y {
      MarchFirstMonotone(z + 1, y);
    } else if y < z {
      MarchFirstMonotone(y + 1, z);
    }
  }

  /** Reading the fields of a date and building it again gives the date back. */
  lemma DateOfFields(d: Day)
    ensures UtcDate(YearOf(d), MonthOf(d), DayOf(d)) == d
    ensures DayOf(d) <= DaysInMonth(YearOf(d), MonthOf(d))
  {
    UtcDateInYear(YearOf(d), MonthOf(d), DayOf(d));
    hide MarchFirst;
    hide MarchYear;
    hide UtcDate;
  }

  /** Building a date of the calendar and reading its fields gives the fields back. */
  lemma FieldsOfDate(year: int, month: int, day: int)
    requires 1 <= month <= 12 && 1 <= day <= DaysInMonth(year, month)
    ensures var d := UtcDate(year, month, day);
            YearOf(d) == year && MonthOf(d) == month && DayOf(d) == day
  {
    var y, i := if month >= 3 then year else year - 1, if month >= 3 then month - 3 else month + 9;
    UtcDateInYear(year, month, day);
    MonthFits(year, month, i);
    YearLength(y + 1);
    hide MarchFirst;
    hide UtcDate;
    hide DaysInMonth;
    var d := UtcDate(year, month, day);
    assert d == MarchFirst(y) + MonthOffset(i) + day - 1;
    MarchYearUnique(d, y);
    hide MarchYear;
    assert DayOfMarchYear(d) == MonthOffset(i) + day - 1;
    MonthIndexUnique(MonthOffset(i) + day - 1, i);
    hide MonthIndex;
  }

  lemma MonthFits(year: int, month: int, i: int)
    requires 1 <= month <= 12 && i == if month >= 3 then month - 3 else month + 9
    ensures MonthOffset(i) + DaysInMonth(year, month) <= MonthOffset(i + 1)
    ensures MonthOffset(i) + DaysInMonth(year, month) <= 365 || (IsLeap(year) && month == 2)
    ensures MonthOffset(i) + DaysInMonth(year, month) <= 366
  {
    hide IsLeap;
  }

  lemma MonthIndexUnique(n: int, i: int)
    requires 0 <= i <= 11 && MonthOffset(i) <= n < MonthOffset(i + 1)
    ensures 0 <= n <= 366 && MonthIndex(n) == i
  {
  }
}
