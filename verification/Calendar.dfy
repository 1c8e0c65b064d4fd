/** Italian public holidays and the walks to the next or an earlier business day. */
module Calendar {
  import opened Dates
  import opened Easter

  /** Holidays on a fixed date; 4 October is one from 2026. */
  predicate FixedHoliday(year: int, month: int, day: int) {
    || (month == 1 && (day == 1 || day == 6))
    || (month == 4 && day == 25)
    || (month == 5 && day == 1)
    || (month == 6 && day == 2)
    || (month == 8 && day == 15)
    || (month == 10 && day == 4 && year >= 2026)
    || (month == 11 && day == 1)
    || (month == 12 && (day == 8 || day == 25 || day == 26))
  }

  predicate IsHolidayOf(year: int, d: Day) {
    || (YearOf(d) == year && FixedHoliday(year, MonthOf(d), DayOf(d)))
    || d == EasterSunday(year)
    || d == EasterSunday(year) + 1
  }

  predicate IsBusinessDay(d: Day) {
    Weekday(d) != 0 && Weekday(d) != 6 && !IsHolidayOf(YearOf(d), d)
  }

  /** The dates listed by the program, before Easter is added. */
  function FixedDates(year: int): seq<(int, int)> {
    [(1, 1), (1, 6), (4, 25), (5, 1), (6, 2), (8, 15), (11, 1), (12, 8), (12, 25), (12, 26)]
    + if year >= 2026 then [(10, 4)] else []
  }

  lemma FixedDatesAreFixedHolidays(year: int, d: Day)
    ensures (YearOf(d) == year && FixedHoliday(year, MonthOf(d), DayOf(d)))
         <==> exists p :: p in FixedDates(year) && d == UtcDate(year, p.0, p.1)
  {
    hide YearOf;
    hide MonthOf;
    hide DayOf;
    hide UtcDate;
    DateOfFields(d);
    if YearOf(d) == year && FixedHoliday(year, MonthOf(d), DayOf(d)) {
      FixedHolidayIsListed(year, MonthOf(d), DayOf(d));
    }
    forall p | p in FixedDates(year) && d == UtcDate(year, p.0, p.1)
      ensures YearOf(d) == year && FixedHoliday(year, MonthOf(d), DayOf(d))
    {
      FieldsOfDate(year, p.0, p.1);
    }
  }

  lemma FixedHolidayIsListed(year: int, month: int, day: int)
    requires FixedHoliday(year, month, day)
    ensures (month, day) in FixedDates(year)
  {
    var s := FixedDates(year);
    assert s[0] == (1, 1) && s[1] == (1, 6) && s[2] == (4, 25) && s[3] == (5, 1) && s[4] == (6, 2);
    assert s[5] == (8, 15) && s[6] == (11, 1) && s[7] == (12, 8) && s[8] == (12, 25) && s[9] == (12, 26);
    assert year >= 2026 ==> s[10] == (10, 4);
  }

  method ItalianPublicHolidays(year: int) returns (holidays: set<Day>)
    ensures forall d :: d in holidays <==> IsHolidayOf(year, d)
  {
    hide EasterSunday;
    hide UtcDate;
    hide YearOf;
    hide MonthOf;
    hide DayOf;
    holidays := {};
    var fixed := FixedDates(year);
    for i := 0 to |fixed|
      invariant forall d :: d in holidays <==> exists p :: p in fixed[..i] && d == UtcDate(year, p.0, p.1)
    {
      holidays := holidays + {UtcDate(year, fixed[i].0, fixed[i].1)};
      assert fixed[..i + 1] == fixed[..i] + [fixed[i]];
    }
    assert fixed[..|fixed|] == fixed;
    var easter := EasterSunday(year);
    holidays := holidays + {easter};
    holidays := holidays + {easter + 1};
    forall d
      ensures d in holidays <==> IsHolidayOf(year, d)
    {
      FixedDatesAreFixedHolidays(year, d);
    }
  }

  /** `isBusinessDay` with the holidays of the date's own year. */
  method BusinessDay(d: Day) returns (b: bool)
    ensures b == IsBusinessDay(d)
  {
    var holidays := ItalianPublicHolidays(YearOf(d));
    b := Weekday(d) != 0 && Weekday(d) != 6 && d !in holidays;
  }

  // ---------- No five days in a row are all free ----------

  /** The fixed holidays counted in days from 1 March, so that the leap day falls after all of them. */
  predicate HolidayOffset(n: int) {
    n == 55 || n == 61 || n == 93 || n == 167 || n == 217 || n == 245 || n == 282 || n == 299 || n == 300
    || n == 306 || n == 311
  }

  lemma FixedHolidayOffset(d: Day)
    requires FixedHoliday(YearOf(d), MonthOf(d), DayOf(d))
    ensures HolidayOffset(DayOfMarchYear(d))
  {
    hide MarchFirst;
    hide MarchYear;
  }

  /** The Monday after Easter, in days from 1 March. */
  function EasterMondayOffset(y: int): int { EasterSunday(y) + 1 - MarchFirst(y) }

  predicate InHolidays(n: int, easterMonday: int) {
    HolidayOffset(n) || (22 <= n <= 56 && n == easterMonday)
  }

  lemma WeekdayHoliday(d: Day)
    requires Weekday(d) != 0 && IsHolidayOf(YearOf(d), d)
    ensures var n := DayOfMarchYear(d);
            n >= 22 && InHolidays(n, EasterMondayOffset(MarchYear(d)))
  {
    EasterIsFirstSundayAfterFullMoon(YearOf(d));
    if FixedHoliday(YearOf(d), MonthOf(d), DayOf(d)) {
      FixedHolidayOffset(d);
    } else {
      assert d == EasterSunday(YearOf(d)) + 1;
      hide *;
      EasterMondayInYear(YearOf(d), d);
    }
    hide MarchFirst;
    hide MarchYear;
  }

  lemma EasterMondayInYear(y: int, d: Day)
    requires d == EasterSunday(y) + 1
    ensures var n := DayOfMarchYear(d);
            n >= 22 && InHolidays(n, EasterMondayOffset(MarchYear(d)))
  {
    EasterIsFirstSundayAfterFullMoon(y);
    hide EasterSunday;
    UtcDateInYear(y, 3, 22);
    UtcDateInYear(y, 4, 25);
    YearLength(y + 1);
    hide MarchFirst;
    hide UtcDate;
    MarchYearUnique(d, y);
    hide MarchYear;
  }

  lemma NoThreeWeekdayHolidays(p: Day, q: Day, r: Day)
    requires p < q < r <= p + 4
    requires Weekday(p) != 0 && Weekday(q) != 0 && Weekday(r) != 0
    ensures !(IsHolidayOf(YearOf(p), p) && IsHolidayOf(YearOf(q), q) && IsHolidayOf(YearOf(r), r))
  {
    if IsHolidayOf(YearOf(p), p) && IsHolidayOf(YearOf(q), q) && IsHolidayOf(YearOf(r), r) {
      WeekdayHoliday(p);
      WeekdayHoliday(q);
      WeekdayHoliday(r);
      hide *;
      SameMarchYear(p, q);
      SameMarchYear(p, r);
      NoThreeOffsets(DayOfMarchYear(p), DayOfMarchYear(q), DayOfMarchYear(r), EasterMondayOffset(MarchYear(p)));
    }
  }

  /** Of three days so close in a March year not all are fixed holidays or the Monday after Easter. */
  lemma NoThreeOffsets(a: int, b: int, c: int, easterMonday: int)
    requires a < b < c <= a + 4
    ensures !(InHolidays(a, easterMonday) && InHolidays(b, easterMonday) && InHolidays(c, easterMonday))
  {
  }

  /** Two days a few days apart and both after the first of the March year they fall in share that year. */
  lemma SameMarchYear(p: Day, q: Day)
    requires p <= q <= p + 4 && DayOfMarchYear(q) >= 4
    ensures MarchYear(q) == MarchYear(p) && DayOfMarchYear(q) == DayOfMarchYear(p) + q - p
  {
    var y := MarchYear(p);
    YearLength(y + 2);
    hide MarchFirst;
    if q < MarchFirst(y + 1) {
      MarchYearUnique(q, y);
    } else {
      MarchYearUnique(q, y + 1);
    }
  }

  lemma BusinessDayWithinFour(d: Day)
    ensures IsBusinessDay(d) || IsBusinessDay(d + 1) || IsBusinessDay(d + 2) || IsBusinessDay(d + 3)
            || IsBusinessDay(d + 4)
  {
    hide EasterSunday;
    hide YearOf;
    hide IsHolidayOf;
    var w := Weekday(d);
    var p := if w == 0 then 1 else if w == 6 then 2 else 0;
    var q := if w == 0 then 2 else if w == 6 || w == 5 then 3 else 1;
    var r := if w == 0 then 3 else if w >= 4 then 4 else 2;
    WeekdayAfter(d, p);
    WeekdayAfter(d, q);
    WeekdayAfter(d, r);
    NoThreeWeekdayHolidays(d + p, d + q, d + r);
    hide Weekday;
    assert IsBusinessDay(d + p) || IsBusinessDay(d + q) || IsBusinessDay(d + r);
  }

  lemma WeekdayAfter(d: Day, k: int)
    requires 0 <= k <= 6
    ensures Weekday(d + k) == (if Weekday(d) + k < 7 then Weekday(d) + k else Weekday(d) + k - 7)
  {
  }

  // ---------- Next business day ----------

  ghost predicate IsNextBusinessDay(d: Day, r: Day) {
    d <= r && IsBusinessDay(r) && forall x :: d <= x < r ==> !IsBusinessDay(x)
  }

  ghost function NextBusinessDayOf(d: Day): (r: Day)
    ensures IsNextBusinessDay(d, r) && r <= d + 4
  {
    BusinessDayWithinFour(d);
    hide IsBusinessDay;
    if IsBusinessDay(d) then d
    else if IsBusinessDay(d + 1) then d + 1
    else if IsBusinessDay(d + 2) then d + 2
    else if IsBusinessDay(d + 3) then d + 3
    else d + 4
  }

  method NextBusinessDay(d: Day) returns (cur: Day)
    ensures IsNextBusinessDay(d, cur) && cur <= d + 4
    ensures cur == NextBusinessDayOf(d)
  {
    hide IsBusinessDay;
    cur := d;
    var free := BusinessDay(cur);
    while !free
      invariant d <= cur <= NextBusinessDayOf(d)
      invariant free == IsBusinessDay(cur)
      invariant forall x :: d <= x < cur ==> !IsBusinessDay(x)
      decreases NextBusinessDayOf(d) - cur
    {
      cur := cur + 1;
      free := BusinessDay(cur);
    }
    NextBusinessDayUnique(d, cur, NextBusinessDayOf(d));
  }

  lemma NextBusinessDayUnique(d: Day, r: Day, s: Day)
    requires IsNextBusinessDay(d, r) && IsNextBusinessDay(d, s)
    ensures r == s
  {
    hide IsBusinessDay;
  }

  /** Moving a deadline keeps the order of deadlines and does nothing the second time; deadlines five days apart stay
      apart. */
  lemma NextBusinessDayMonotone(d: Day, e: Day)
    requires d <= e
    ensures NextBusinessDayOf(d) <= NextBusinessDayOf(e)
    ensures NextBusinessDayOf(NextBusinessDayOf(d)) == NextBusinessDayOf(d)
    ensures d + 5 <= e ==> NextBusinessDayOf(d) < NextBusinessDayOf(e)
  {
    hide IsBusinessDay;
    var r, s := NextBusinessDayOf(d), NextBusinessDayOf(e);
    NextBusinessDayUnique(r, r, NextBusinessDayOf(r));
  }

  // ---------- Business days before a date ----------

  ghost function BusinessDaysIn(from: Day, to: Day): (n: int)
    ensures n >= 0
    decreases if from < to then to - from else 0
  {
    hide IsBusinessDay;
    if from >= to then 0
    else (if IsBusinessDay(from) then 1 else 0) + BusinessDaysIn(from + 1, to)
  }

  ghost function PreviousBusinessDayOf(d: Day): (r: Day)
    ensures d - 5 <= r < d && IsBusinessDay(r) && forall x :: r < x < d ==> !IsBusinessDay(x)
  {
    BusinessDayWithinFour(d - 5);
    hide IsBusinessDay;
    if IsBusinessDay(d - 1) then d - 1
    else if IsBusinessDay(d - 2) then d - 2
    else if IsBusinessDay(d - 3) then d - 3
    else if IsBusinessDay(d - 4) then d - 4
    else d - 5
  }

  /** The day that has `n` business days from it (included) to `d` (excluded), itself a business day. */
  method BusinessDaysBefore(d: Day, n: int) returns (cur: Day)
    ensures n <= 0 ==> cur == d
    ensures n > 0 ==> d - 5 * n <= cur < d && IsBusinessDay(cur) && BusinessDaysIn(cur, d) == n
  {
    hide IsBusinessDay;
    cur := d;
    var count := 0;
    while count < n
      invariant 0 <= count && (n >= 0 ==> count <= n)
      invariant cur <= d && (count == n && n > 0 ==> IsBusinessDay(cur) && cur < d)
      invariant n <= 0 ==> cur == d
      invariant BusinessDaysIn(cur, d) == count
      invariant PreviousBusinessDayOf(cur) >= d - 5 * count - 5 && cur >= d - 5 * count - 4
      invariant count == n ==> cur >= d - 5 * count
      decreases n - count, cur - PreviousBusinessDayOf(cur)
    {
      ghost var previous := PreviousBusinessDayOf(cur);
      cur := cur - 1;
      var free := BusinessDay(cur);
      if free {
        count := count + 1;
        assert cur == previous;
      } else {
        assert previous < cur;
        PreviousUnchanged(cur, previous);
      }
    }
  }

  lemma PreviousUnchanged(d: Day, r: Day)
    requires r < d && IsBusinessDay(r) && forall x :: r < x < d ==> !IsBusinessDay(x)
    ensures PreviousBusinessDayOf(d) == r
  {
    hide IsBusinessDay;
    var s := PreviousBusinessDayOf(d);
  }

  /** Only one business day has a given number of business days between it and a date. */
  lemma {:induction false} BusinessDaysBeforeUnique(d: Day, r: Day, s: Day)
    requires r <= d && s <= d && IsBusinessDay(r) && IsBusinessDay(s)
    requires BusinessDaysIn(r, d) == BusinessDaysIn(s, d)
    ensures r == s
  {
    hide IsBusinessDay;
    if r < s {
      BusinessDaysSplit(r, s, d);
    } else if s < r {
      BusinessDaysSplit(s, r, d);
    }
  }

  lemma {:induction false} BusinessDaysSplit(a: Day, b: Day, c: Day)
    requires a <= b <= c
    ensures BusinessDaysIn(a, c) == BusinessDaysIn(a, b) + BusinessDaysIn(b, c)
    decreases b - a
  {
    hide IsBusinessDay;
    if a < b {
      BusinessDaysSplit(a + 1, b, c);
    }
  }
}
