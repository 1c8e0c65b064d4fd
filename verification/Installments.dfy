/** Installment plan of a balance: due dates, equal principals with the remainder on the last one, separate interest. */
module Installments {
  import opened Rounding
  import opened Dates
  import opened Wrappers
  import Calendar

  datatype Installment = Installment(number: int, dueDate: Day, principal: int, interestPct: int, interest: int,
                                     total: int)

  /** Annual rate and monthly increment, in hundredths of a percentage point. */
  datatype Interest = Interest(annualPct: int, incrementPct: int)

  datatype MonthDay = MonthDay(month: int, day: int)

  datatype PlanError = FirstAfterEnd | InvalidCount(count: int, max: nat)

  const DEFAULT_INSTALLMENT_DAY := 16
  const DEFAULT_END := MonthDay(12, 16)
  const DEFAULT_INTEREST := Interest(400, 33)

  // ---------- Commercial days and interest ----------

  /** Days of the commercial year (30-day months) from a date, excluded, to another, included; the 31st is a 30th. */
  function CommercialDays(from: Day, to: Day): int {
    (YearOf(to) - YearOf(from)) * 360 + (MonthOf(to) - MonthOf(from)) * 30 + Min(DayOf(to), 30) - Min(DayOf(from), 30)
  }

  function SecondNominalDueDate(first: Day, installmentDay: int): Day {
    UtcDate(YearOf(first), MonthOf(first) + 1, installmentDay)
  }

  function SecondInstallmentInterestPct(first: Day, second: Day, annualPct: int): int {
    RoundDiv(annualPct * CommercialDays(first, second), 360)
  }

  /** The second installment, due on the 16th of the month after the first one, is 16 to 45 commercial days later,
      across the turn of the year too: at 4% its interest is between 0.18 and 0.50. */
  lemma SecondInterestBounds(first: Day)
    ensures CommercialDays(first, SecondNominalDueDate(first, 16)) == 46 - Min(DayOf(first), 30)
    ensures 18 <= SecondInstallmentInterestPct(first, SecondNominalDueDate(first, 16), 400) <= 50
  {
    hide YearOf;
    hide MonthOf;
    hide DayOf;
    hide UtcDate;
    var y, m := YearOf(first), MonthOf(first);
    if m == 12 {
      MonthCarry(y, 16);
      FieldsOfDate(y + 1, 1, 16);
    } else {
      FieldsOfDate(y, m + 1, 16);
    }
    var days := CommercialDays(first, SecondNominalDueDate(first, 16));
    hide CommercialDays;
    assert 16 <= days <= 45;
    RoundDivMonotone(400 * 16, 400 * days, 360);
    RoundDivMonotone(400 * days, 400 * 45, 360);
    assert RoundDiv(6400, 360) == 18;
  }

  lemma MonthCarry(year: int, day: int)
    ensures UtcDate(year, 13, day) == UtcDate(year + 1, 1, day)
  {
    UtcDateInYear(year, 13, day);
    UtcDateInYear(year + 1, 1, day);
    hide MarchFirst;
  }

  // ---------- Due dates ----------

  /** Deadlines from 1 to 20 August are due on the 20th. */
  function ApplyAugustDeferral(d: Day): Day {
    if MonthOf(d) == 8 && 1 <= DayOf(d) <= 20 then UtcDate(YearOf(d), 8, 20) else d
  }

  function DueDate(year: int, month: int, installmentDay: int): Day {
    ApplyAugustDeferral(UtcDate(year, month, installmentDay))
  }

  function Limit(first: Day, end: MonthDay): Day {
    UtcDate(YearOf(first), end.month, end.day)
  }

  /** The due dates of a year from a month on. */
  function DueDatesFrom(year: int, month: int, installmentDay: int, end: MonthDay): seq<Day>
    decreases if month <= end.month then end.month - month + 1 else 0
  {
    if month > end.month || DueDate(year, month, installmentDay) > UtcDate(year, end.month, end.day) then []
    else [DueDate(year, month, installmentDay)] + DueDatesFrom(year, month + 1, installmentDay, end)
  }

  function AllDueDates(first: Day, installmentDay: int, end: MonthDay): (dates: seq<Day>)
    ensures |dates| >= 1 && dates[0] == first
  {
    [first] + DueDatesFrom(YearOf(first), MonthOf(first) + 1, installmentDay, end)
  }

  method MaxInstallmentDates(first: Day, installmentDay: int, end: MonthDay) returns (r: Result<seq<Day>, PlanError>)
    ensures r == if first > Limit(first, end) then Err(FirstAfterEnd) else Ok(AllDueDates(first, installmentDay, end))
  {
    hide YearOf;
    hide MonthOf;
    hide UtcDate;
    hide DueDate;
    var year := YearOf(first);
    var limit := UtcDate(year, end.month, end.day);
    if first > limit {
      return Err(FirstAfterEnd);
    }
    var dates := [first];
    var month := MonthOf(first) + 1;
    while month <= end.month
      invariant dates + DueDatesFrom(year, month, installmentDay, end) == AllDueDates(first, installmentDay, end)
    {
      var due := DueDate(year, month, installmentDay);
      if due > limit {
        assert dates + [] == dates;
        return Ok(dates);
      }
      assert dates + ([due] + DueDatesFrom(year, month + 1, installmentDay, end))
          == dates + [due] + DueDatesFrom(year, month + 1, installmentDay, end);
      dates := dates + [due];
      month := month + 1;
    }
    assert dates + [] == dates;
    r := Ok(dates);
  }

  lemma DueDateValue(year: int, month: int, installmentDay: int)
    requires 1 <= month <= 12 && 1 <= installmentDay <= 28
    ensures DueDate(year, month, installmentDay)
         == UtcDate(year, month, if month == 8 && installmentDay <= 20 then 20 else installmentDay)
  {
    FieldsOfDate(year, month, installmentDay);
    hide UtcDate;
    hide YearOf;
    hide MonthOf;
    hide DayOf;
  }

  /** With the law's 16th of the month and 16 December: one date for each month left in the year, the 16th or 20
      August. */
  lemma {:induction false} DueDatesAt16(year: int, month: int)
    requires 2 <= month <= 13
    ensures var dates := DueDatesFrom(year, month, 16, DEFAULT_END);
            && |dates| == 13 - month
            && forall k :: 0 <= k < |dates| ==>
                 dates[k] == UtcDate(year, month + k, if month + k == 8 then 20 else 16)
    decreases 13 - month
  {
    hide UtcDate;
    hide DueDate;
    if month <= 12 {
      DueDatesAt16(year, month + 1);
      DueDateValue(year, month, 16);
      var due := DueDate(year, month, 16);
      if month < 12 {
        DatesOfMonths(year, month, if month == 8 then 20 else 16, 12, 16);
      }
      var rest := DueDatesFrom(year, month + 1, 16, DEFAULT_END);
      assert DueDatesFrom(year, month, 16, DEFAULT_END) == [due] + rest;
    }
  }

  lemma DatesOfMonths(year: int, m: int, a: int, n: int, b: int)
    requires 1 <= m < n <= 12 && 1 <= a <= DaysInMonth(year, m) && 1 <= b
    ensures UtcDate(year, m, a) + b <= UtcDate(year, n, b)
    decreases n - m
  {
    MonthLength(year, m);
    DayShift(year, m, a);
    hide UtcDate;
    if m + 1 < n {
      DatesOfMonths(year, m + 1, 1, n, b);
    } else {
      DayShift(year, n, b);
    }
  }

  lemma DayShift(year: int, month: int, day: int)
    ensures UtcDate(year, month, day) == UtcDate(year, month, 1) + day - 1
  {
    hide MarchFirst;
  }

  /** The plan's dates: the first one, then one in each following month up to December; they are at least 16 days apart,
      end by the limit, and stay strictly in order when each moves to the next business day. */
  lemma InstallmentDates(first: Day)
    requires first <= Limit(first, DEFAULT_END)
    ensures var dates := AllDueDates(first, DEFAULT_INSTALLMENT_DAY, DEFAULT_END);
            && |dates| == 13 - MonthOf(first)
            && (forall k :: 1 <= k < |dates| ==>
                  dates[k] == UtcDate(YearOf(first), MonthOf(first) + k, if MonthOf(first) + k == 8 then 20 else 16))
            && (forall k :: 0 <= k < |dates| ==> dates[k] <= Limit(first, DEFAULT_END))
            && (forall j, k :: 0 <= j < k < |dates| ==> dates[j] + 16 <= dates[k])
            && (forall j, k :: 0 <= j < k < |dates| ==>
                  Calendar.NextBusinessDayOf(dates[j]) < Calendar.NextBusinessDayOf(dates[k]))
  {
    DateOfFields(first);
    hide *;
    var y, m := YearOf(first), MonthOf(first);
    DueDatesAt16(y, m + 1);
    var dates := AllDueDates(first, DEFAULT_INSTALLMENT_DAY, DEFAULT_END);
    InstallmentDatesShape(first);
    forall j, k | 0 <= j < k < |dates|
      ensures dates[j] + 16 <= dates[k]
      ensures Calendar.NextBusinessDayOf(dates[j]) < Calendar.NextBusinessDayOf(dates[k])
    {
      var a, b := DayInMonth(first, j), DayInMonth(first, k);
      DayInMonthFits(first, j);
      DayInMonthFits(first, k);
      DatesOfMonths(y, m + j, a, m + k, b);
      Calendar.NextBusinessDayMonotone(dates[j], dates[k]);
    }
    forall k | 0 <= k < |dates|
      ensures dates[k] <= Limit(first, DEFAULT_END)
    {
      DayInMonthFits(first, k);
      if 0 < k && m + k < 12 {
        DatesOfMonths(y, m + k, DayInMonth(first, k), 12, 16);
      }
      LimitIsDecember16(first);
    }
    forall k | 1 <= k < |dates|
      ensures dates[k] == UtcDate(y, m + k, if m + k == 8 then 20 else 16)
    {
      DayInMonthFits(first, k);
    }
  }

  function DayInMonth(first: Day, k: int): int {
    if k == 0 then DayOf(first) else if MonthOf(first) + k == 8 then 20 else 16
  }

  lemma DayInMonthFits(first: Day, k: int)
    requires 0 <= k && MonthOf(first) + k <= 12
    ensures 1 <= DayInMonth(first, k) <= DaysInMonth(YearOf(first), MonthOf(first) + k)
    ensures k > 0 ==> DayInMonth(first, k) >= 16
    ensures k > 0 ==> DayInMonth(first, k) == if MonthOf(first) + k == 8 then 20 else 16
  {
    DateOfFields(first);
    hide YearOf;
    hide MonthOf;
    hide DayOf;
    hide UtcDate;
    hide IsLeap;
  }

  lemma LimitIsDecember16(first: Day)
    ensures Limit(first, DEFAULT_END) == UtcDate(YearOf(first), 12, 16)
  {
    hide UtcDate;
    hide YearOf;
  }

  lemma InstallmentDatesShape(first: Day)
    requires MonthOf(first) <= 12
    ensures var dates := AllDueDates(first, DEFAULT_INSTALLMENT_DAY, DEFAULT_END);
            && |dates| == 13 - MonthOf(first)
            && (forall k :: 0 <= k < |dates| ==>
                  dates[k] == UtcDate(YearOf(first), MonthOf(first) + k, DayInMonth(first, k)))
  {
    DateOfFields(first);
    hide YearOf;
    hide MonthOf;
    hide DayOf;
    hide UtcDate;
    hide DueDatesFrom;
    DueDatesAt16(YearOf(first), MonthOf(first) + 1);
  }

  // ---------- Plan ----------

  function Principal(amount: int, n: int, i: int): int
    requires n >= 1
  {
    if i == n - 1 then amount - (n - 1) * RoundDiv(amount, n) else RoundDiv(amount, n)
  }

  function InterestPct(secondPct: int, incrementPct: int, i: int): int {
    if i == 0 then 0 else secondPct + incrementPct * (i - 1)
  }

  function InterestOf(principal: int, pct: int): int {
    RoundDiv(principal * pct, 10000)
  }

  function PlanRow(amount: int, n: int, dueDate: Day, secondPct: int, incrementPct: int, i: int): Installment
    requires n >= 1
  {
    var principal, pct := Principal(amount, n, i), InterestPct(secondPct, incrementPct, i);
    var interest := InterestOf(principal, pct);
    Installment(i + 1, dueDate, principal, pct, interest, principal + interest)
  }

  /** The rows of a plan over given dates. */
  function Plan(amount: int, n: int, dates: seq<Day>, secondPct: int, incrementPct: int): (plan: seq<Installment>)
    requires 1 <= n <= |dates|
    ensures |plan| == n
    ensures forall i :: 0 <= i < n ==> plan[i] == PlanRow(amount, n, dates[i], secondPct, incrementPct, i)
  {
    seq(n, i requires 0 <= i < n => PlanRow(amount, n, dates[i], secondPct, incrementPct, i))
  }

  function PlanOf(amount: int, first: Day, installments: Option<int>, installmentDay: int, end: MonthDay,
                  interest: Interest)
    : Result<seq<Installment>, PlanError>
  {
    if first > Limit(first, end) then Err(FirstAfterEnd)
    else
      var dates := AllDueDates(first, installmentDay, end);
      var n := installments.GetOr(|dates|);
      if n < 1 || n > |dates| then Err(InvalidCount(n, |dates|))
      else
        var secondPct := SecondInstallmentInterestPct(first, SecondNominalDueDate(first, installmentDay),
                                                      interest.annualPct);
        Ok(Plan(amount, n, dates, secondPct, interest.incrementPct))
  }

  method BuildInstallmentPlan(
    amount: int, first: Day, installments: Option<int>, installmentDay: int, end: MonthDay, interest: Interest
  ) returns (r: Result<seq<Installment>, PlanError>)
    ensures r == PlanOf(amount, first, installments, installmentDay, end, interest)
  {
    hide Limit;
    hide AllDueDates;
    hide SecondInstallmentInterestPct;
    hide SecondNominalDueDate;
    hide RoundDiv;
    hide InterestOf;
    var all := MaxInstallmentDates(first, installmentDay, end);
    if all.Err? {
      return Err(all.error);
    }
    var dates := all.value;
    var n := installments.GetOr(|dates|);
    if n < 1 || n > |dates| {
      return Err(InvalidCount(n, |dates|));
    }
    var principal := RoundDiv(amount, n);
    var secondPct := SecondInstallmentInterestPct(first, SecondNominalDueDate(first, installmentDay),
                                                  interest.annualPct);
    var plan: seq<Installment> := [];
    var remaining := amount;
    for i := 0 to n
      invariant |plan| == i
      invariant i < n ==> remaining == amount - i * principal
      invariant forall j :: 0 <= j < i ==>
                  plan[j] == PlanRow(amount, n, dates[j], secondPct, interest.incrementPct, j)
    {
      var p := if i == n - 1 then remaining else principal;
      remaining := remaining - p;
      var pct := if i == 0 then 0 else secondPct + interest.incrementPct * (i - 1);
      var share := InterestOf(p, pct);
      plan := plan + [Installment(i + 1, dates[i], p, pct, share, p + share)];
    }
    assert plan == Plan(amount, n, dates, secondPct, interest.incrementPct);
    r := Ok(plan);
  }

  function Principals(amount: int, n: int): (s: seq<int>)
    requires n >= 1
    ensures |s| == n
  {
    seq(n, i => Principal(amount, n, i))
  }

  lemma {:induction false} SumConstant(s: seq<int>, c: int)
    requires forall i :: 0 <= i < |s| ==> s[i] == c
    ensures Sum(s) == |s| * c
  {
    if s != [] {
      SumConstant(s[1..], c);
    }
  }

  /** The principals add up to the amount, all but the last are equal, and the last is within n/2 cents of them. */
  lemma PrincipalsConserve(amount: int, n: int)
    requires n >= 1
    ensures Sum(Principals(amount, n)) == amount
    ensures forall i, j :: 0 <= i < n - 1 && 0 <= j < n - 1 ==> Principals(amount, n)[i] == Principals(amount, n)[j]
    ensures forall i :: 0 <= i < n ==> -n <= 2 * (Principal(amount, n, n - 1) - Principals(amount, n)[i]) <= n
  {
    var s, p := Principals(amount, n), RoundDiv(amount, n);
    var equal := s[..n - 1];
    SumConstant(equal, p);
    assert s == equal + [s[n - 1]];
    SumAppend(equal, [s[n - 1]]);
    assert Principal(amount, n, n - 1) - p == amount - n * p;
  }

  /** With q whole cents for each installment and r left over, the last principal is negative exactly when the quotient
      is rounded up and the cents lent to the other installments exceed it; from n(n-1)/2 cents up it never is. */
  lemma LastPrincipalNonNegative(amount: int, n: int, q: int, r: int)
    requires n >= 1 && q >= 0 && amount == n * q + r && 0 <= r < n
    ensures Principal(amount, n, n - 1) >= 0 <==> 2 * r < n || q + r >= n - 1
    ensures 2 * amount >= n * (n - 1) ==> Principal(amount, n, n - 1) >= 0
  {
    hide RoundDiv;
    if 2 * r < n {
      RoundDivUnique(amount, n, q);
      assert Principal(amount, n, n - 1) == q + r;
    } else {
      RoundDivUnique(amount, n, q + 1);
      assert amount - (n - 1) * (q + 1) == q + r - (n - 1);
      if 2 * amount >= n * (n - 1) {
        RoundedUpEnough(n, q, r);
      }
    }
  }

  lemma DivideBy(amount: int, n: int) returns (q: int, r: int)
    requires n >= 1 && amount >= 0
    ensures q >= 0 && amount == n * q + r && 0 <= r < n
  {
    q, r := amount / n, amount % n;
    QuotientBounds(amount, n);
    if q < 0 {
      MulBy(n, q, -1);
    }
  }

  lemma RoundedUpEnough(n: int, q: int, r: int)
    requires 0 <= r < n && 2 * r >= n && 2 * (n * q + r) >= n * (n - 1)
    ensures q + r >= n - 1
  {
    if q + r < n - 1 {
      MulGap(n, q + r, n - 1);
      assert n * (q + r) == n * q + n * r;
      assert 2 * (n * q + r) <= 2 * (n * (n - 1) - n - n * r + r);
      assert n * r - r == (n - 1) * r;
      assert 2 * ((n - 1) * r) >= (n - 1) * n by { MulBy(n - 1, n, 2 * r); }
      assert false;
    }
  }

  lemma MulBy(k: int, a: int, b: int)
    requires k >= 0 && a <= b
    ensures k * a <= k * b
  {
  }

  /** The interest percentage never decreases along a plan. */
  lemma InterestNeverDecreases(secondPct: int, incrementPct: int, i: int, j: int)
    requires secondPct >= 0 && incrementPct >= 0 && 0 <= i <= j
    ensures 0 <= InterestPct(secondPct, incrementPct, i) <= InterestPct(secondPct, incrementPct, j)
  {
    MulBy(incrementPct, 0, i - 1 + if i == 0 then 1 else 0);
    if j > 0 {
      MulBy(incrementPct, if i == 0 then 0 else i - 1, j - 1);
    }
  }
}
