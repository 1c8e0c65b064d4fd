/** Easter: the arithmetic of the program against the rule of the Gregorian calendar. */
module Easter {
  import opened Dates
  import opened Rounding

  /** Days from 21 March to the full moon of the arithmetic, before the two exceptions of the tables. */
  function MoonOffset(year: int): (h: int)
    ensures 0 <= h <= 29
  {
    var a, b := year % 19, year / 100;
    var d, f := b / 4, (b + 8) / 25;
    var g := (b - f + 1) / 3;
    (19 * a + b - d - g + 15) % 30
  }

  /** The Meeus/Jones/Butcher algorithm. */
  function EasterSunday(year: int): Day {
    var a := year % 19;
    var b, c := year / 100, year % 100;
    var e := b % 4;
    var h := MoonOffset(year);
    var i, k := c / 4, c % 4;
    var l := (32 + 2 * e + 2 * i - h - k) % 7;
    var m := (a + 11 * h + 22 * l) / 451;
    var month := (h + l - 7 * m + 114) / 31;
    var day := (h + l - 7 * m + 114) % 31 + 1;
    UtcDate(year, month, day)
  }

  /** The epact of a year in the tables of the calendar: the golden number, corrected by the solar and lunar equations
      of the century. */
  function Epact(year: int): (e: int)
    ensures 0 <= e <= 29
  {
    var golden, century := year % 19 + 1, year / 100 + 1;
    var solar, lunar := 3 * century / 4 - 12, (8 * century + 5) / 25 - 5;
    (11 * golden + 20 + lunar - solar) % 30
  }

  /** The paschal full moon of the tables, with their exceptions for epacts 24 and 25. */
  function PaschalFullMoon(year: int): Day {
    var e0 := Epact(year);
    var e := if e0 == 24 || (e0 == 25 && year % 19 + 1 > 11) then e0 + 1 else e0;
    var n := 44 - e;
    UtcDate(year, 3, if n < 21 then n + 30 else n)
  }

  lemma LunarEquation(b: int)
    ensures (b - (b + 8) / 25 + 1) / 3 == (8 * b + 13) / 25
  {
    var q, r := b / 25, b % 25;
    assert b == 25 * q + r;
    assert (b + 8) / 25 == q + (r + 8) / 25;
    assert (8 * b + 13) / 25 == 8 * q + (8 * r + 13) / 25;
    assert (b - (b + 8) / 25 + 1) / 3 == 8 * q + (r - (r + 8) / 25 + 1) / 3;
  }

  lemma SolarEquation(b: int)
    ensures 3 * (b + 1) / 4 == b - b / 4
  {
  }

  /** The arithmetic counts the moon from 21 March; the tables count the epact back from 23. */
  lemma MoonOffsetIsEpact(year: int)
    ensures MoonOffset(year) == (23 - Epact(year)) % 30
  {
    var a, b := year % 19, year / 100;
    var g := (8 * b + 13) / 25;
    LunarEquation(b);
    SolarEquation(b);
    var x := 19 * a + b - b / 4 - g + 15;
    var y := 11 * (a + 1) + 20 + (8 * (b + 1) + 5) / 25 - 5 - (3 * (b + 1) / 4 - 12);
    assert x + y == 30 * a + 53;
    assert MoonOffset(year) == x % 30;
    assert Epact(year) == y % 30;
    ComplementMod(x, y, a);
  }

  lemma ComplementMod(x: int, y: int, a: int)
    requires x + y == 30 * a + 53
    ensures x % 30 == (23 - y % 30) % 30
  {
    var q := y / 30;
    assert x == 30 * (a + 1 - q) + (23 - y % 30);
  }

  lemma FullMoonDay(year: int)
    ensures var h := MoonOffset(year);
            var late := if h == 29 || (h == 28 && year % 19 > 10) then 1 else 0;
            PaschalFullMoon(year) == UtcDate(year, 3, 21) + h - late
  {
    MoonOffsetIsEpact(year);
    var e := Epact(year);
    assert MoonOffset(year) == if e <= 23 then 23 - e else 53 - e;
    hide MoonOffset;
    hide Epact;
    UtcDateInYear(year, 3, 21);
    UtcDateInYear(year, 3, PaschalFullMoon(year) - UtcDate(year, 3, 1) + 1);
    hide MarchFirst;
  }

  lemma MarchFirstByCentury(year: int)
    ensures var b, c := year / 100, year % 100;
            MarchFirst(year) == 146097 * (b / 4) + 36524 * (b % 4) + 1461 * (c / 4) + 365 * (c % 4) - 719468
  {
    var b, c := year / 100, year % 100;
    assert year == 100 * b + c;
    assert year / 4 == 25 * b + c / 4;
    assert year / 400 == b / 4;
  }

  /** The algorithm written as a distance from 22 March: `l` days to the Sunday, a week less in the two exceptions. */
  lemma EasterByOffset(year: int) returns (h: int, l: int, m: int)
    ensures h == MoonOffset(year) && 0 <= l <= 6
    ensures l == (32 + 2 * (year / 100 % 4) + 2 * (year % 100 / 4) - h - year % 100 % 4) % 7
    ensures m == if l == 6 && (h == 29 || (h == 28 && year % 19 > 10)) then 1 else 0
    ensures EasterSunday(year) == UtcDate(year, 3, 22) + h + l - 7 * m
  {
    hide MoonOffset;
    hide UtcDate;
    h := MoonOffset(year);
    l := (32 + 2 * (year / 100 % 4) + 2 * (year % 100 / 4) - h - year % 100 % 4) % 7;
    var a := year % 19;
    m := (a + 11 * h + 22 * l) / 451;
    Week(a, h, l);
    MarchDate(year, h + l - 7 * m);
  }

  lemma MarchDate(year: int, n: int)
    requires 0 <= n <= 34
    ensures UtcDate(year, (n + 114) / 31, (n + 114) % 31 + 1) == UtcDate(year, 3, 22) + n
  {
    hide MarchFirst;
    if n >= 10 {
      assert (n + 114) / 31 == 4 && (n + 114) % 31 == n - 10;
    } else {
      assert (n + 114) / 31 == 3 && (n + 114) % 31 == n + 21;
    }
    UtcDateInYear(year, 3, 22);
    UtcDateInYear(year, 3, n + 22);
    UtcDateInYear(year, 4, n - 9);
    hide UtcDate;
  }

  lemma Week(a: int, h: int, l: int)
    requires 0 <= a <= 18 && 0 <= h <= 29 && 0 <= l <= 6
    ensures var m := (a + 11 * h + 22 * l) / 451;
            && m == (if l == 6 && (h == 29 || (h == 28 && a > 10)) then 1 else 0)
            && 0 <= h + l - 7 * m <= 34
  {
  }

  lemma SundayMod(d: int, e: int, i: int, k: int, h: int)
    ensures var l := (32 + 2 * e + 2 * i - h - k) % 7;
            (146097 * d + 36524 * e + 1461 * i + 365 * k - 719468 + 21 + h + l + 4) % 7 == 0
  {
    var s := 32 + 2 * e + 2 * i - h - k;
    var q := s / 7;
    assert s % 7 == s - 7 * q;
    assert 146097 * d + 36524 * e + 1461 * i + 365 * k - 719468 + 21 + h + s % 7 + 4
        == 7 * (20871 * d + 5218 * e + 209 * i + 52 * k - 102773 - q);
  }

  /** Easter is the first Sunday strictly after the paschal full moon, whatever the year. */
  lemma EasterIsFirstSundayAfterFullMoon(year: int)
    ensures Weekday(EasterSunday(year)) == 0
    ensures PaschalFullMoon(year) < EasterSunday(year) <= PaschalFullMoon(year) + 7
    ensures forall d :: PaschalFullMoon(year) < d < EasterSunday(year) ==> Weekday(d) != 0
    ensures UtcDate(year, 3, 22) <= EasterSunday(year) <= UtcDate(year, 4, 25)
  {
    var h, l, m := EasterByOffset(year);
    FullMoonDay(year);
    EasterWeekday(year, h, l, m);
    UtcDateInYear(year, 3, 21);
    UtcDateInYear(year, 3, 22);
    UtcDateInYear(year, 4, 25);
    hide MarchFirst;
    hide MoonOffset;
    hide EasterSunday;
    hide PaschalFullMoon;
    hide UtcDate;
    var easter := EasterSunday(year);
    forall d | PaschalFullMoon(year) < d < easter
      ensures Weekday(d) != 0
    {
      EarlierInWeek(d, easter);
    }
  }

  lemma EarlierInWeek(d: Day, sunday: Day)
    requires Weekday(sunday) == 0 && sunday - 7 < d < sunday
    ensures Weekday(d) == d - sunday + 7
  {
  }

  lemma EasterWeekday(year: int, h: int, l: int, m: int)
    requires l == (32 + 2 * (year / 100 % 4) + 2 * (year % 100 / 4) - h - year % 100 % 4) % 7
    ensures Weekday(UtcDate(year, 3, 22) + h + l - 7 * m) == 0
  {
    var b, c := year / 100, year % 100;
    MarchFirstByCentury(year);
    UtcDateInYear(year, 3, 22);
    SundayMod(b / 4, b % 4, c / 4, c % 4, h);
    hide MarchFirst;
    hide UtcDate;
    var x := UtcDate(year, 3, 22) + h + l + 4;
    assert x % 7 == 0;
    SubtractWeeks(x, m);
  }

  lemma SubtractWeeks(x: int, m: int)
    requires x % 7 == 0
    ensures (x - 7 * m) % 7 == 0
  {
  }
}
