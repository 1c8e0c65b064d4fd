/** When the file accepts the zero-balance form: what the credits that are used must satisfy, and nothing else. */
module TelematicCompensation {
  import opened CreditOffset
  import opened Dates
  import opened F24
  import opened Planner
  import opened Radix
  import opened Rounding
  import opened TelematicForm
  import opened TelematicLimits
  import opened TelematicRows
  import opened TelematicSchedule
  import opened Wrappers

  // ---------- Rows of each section ----------

  /** The debts of a section that are offset among the first k, and what is offset of them. */
  function OffsetCount(items: seq<F24.Item>, amounts: Amounts, credit: int, section: Section, k: int): (n: int)
    requires 0 <= k <= |items|
    ensures n >= 0
  {
    if k == 0 then 0
    else OffsetCount(items, amounts, credit, section, k - 1)
         + if items[k - 1].rows.section == section && Offset(items, amounts, credit, k - 1) > 0 then 1 else 0
  }

  function OffsetSum(items: seq<F24.Item>, amounts: Amounts, credit: int, section: Section, k: int): int
    requires 0 <= k <= |items|
  {
    if k == 0 then 0
    else OffsetSum(items, amounts, credit, section, k - 1)
         + if items[k - 1].rows.section == section then Offset(items, amounts, credit, k - 1) else 0
  }

  /** The credits of a section that are used among the first k, and what is used of them. */
  function UsedCount(credits: seq<AvailableCredit>, covered: int, section: Section, k: int): (n: int)
    requires 0 <= k <= |credits|
    ensures n >= 0
  {
    if k == 0 then 0
    else UsedCount(credits, covered, section, k - 1)
         + if credits[k - 1].section == section && Used(credits, covered, k - 1) > 0 then 1 else 0
  }

  function UsedSum(credits: seq<AvailableCredit>, covered: int, section: Section, k: int): int
    requires 0 <= k <= |credits|
  {
    if k == 0 then 0
    else UsedSum(credits, covered, section, k - 1)
         + if credits[k - 1].section == section then Used(credits, covered, k - 1) else 0
  }

  /** The rows of a section are within its limit, and its totals have at most fifteen digits. */
  predicate SectionHolds(
    items: seq<F24.Item>, amounts: Amounts, credits: seq<AvailableCredit>, section: Written
  ) {
    var credit := TotalCredit(credits);
    var covered := Min(credit, DebtsBefore(items, amounts, |items|));
    && OffsetCount(items, amounts, credit, section, |items|)
       + UsedCount(credits, covered, section, |credits|) <= RowLimit(section)
    && OffsetSum(items, amounts, credit, section, |items|) < Power(10, 15)
    && UsedSum(credits, covered, section, |credits|) < Power(10, 15)
  }

  /** A credit as the file wants it: of a section that is written, with its codes, its year and its place. */
  predicate CreditOk(c: AvailableCredit, office: string) {
    && |c.code| <= 4 && YearFits(c.referenceYear)
    && match c.section
       case Treasury => |c.installmentCode.GetOr("0101")| <= 4
       case Inps => |office| == 4 && AreDigits(office, 10)
       case Regional => |c.installmentCode.GetOr("0101")| <= 4 && |c.localCode.GetOr("")| == 2
         && AreDigits(c.localCode.GetOr(""), 10)
       case Local => |c.installmentCode.GetOr("0101")| <= 4 && IsTown(c.localCode.GetOr(""))
       case OtherEntity => false
  }

  predicate UsedCreditsOk(credits: seq<AvailableCredit>, covered: int, office: string) {
    forall k :: 0 <= k < |credits| && Used(credits, covered, k) > 0 ==> CreditOk(credits[k], office)
  }

  // ---------- The rows as the writer sees them ----------

  lemma CreditLineAllowed(c: AvailableCredit, used: int, office: string)
    requires used >= 0
    ensures RowAllowed(CreditLine(c, used, office)) <==> CreditOk(c, office)
  {
    YearPeriodFits("01", c.referenceYear);
    YearPeriodFits("12", c.referenceYear);
    assert "01" + "/" == "01/" && "12" + "/" == "12/";
    hide YearFits;
    hide PeriodFits;
    hide Text;
    hide AreDigits;
    hide IsTown;
  }

  lemma OffsetLineAllowed(item: F24.Item, part: int)
    requires ItemOk(item) && part >= 0
    ensures RowAllowed(OffsetLine(item, part))
  {
    var l, d := OffsetLine(item, part), item.debt;
    var installment := if item.rows.section.Treasury? then Some(SINGLE_PAYMENT_INSTALLMENT_CODE) else None;
    hide Writable;
    MadeLineIsWritable(item.rows, d.role, d.code, d.referenceYear, part, installment, d.positionCode, None);
    WritableAllowed(l);
    hide YearFits;
    hide AreDigits;
    hide RowAllowed;
  }

  /** The rows of a section among some lines, and their totals. */
  predicate Adds(lines: seq<Line>, section: Section, count: int, debits: int, credits: int) {
    && CountSection(lines, section) == count
    && DebitTotal(Of(lines, section)) == debits && CreditTotal(Of(lines, section)) == credits
  }

  lemma AddsNothing(section: Section)
    ensures Adds([], section, 0, 0, 0)
  {
  }

  lemma AddsOne(l: Line, section: Section)
    ensures if l.section == section
            then Adds([l], section, 1, l.debitAmount, l.CreditOrZero()) else Adds([l], section, 0, 0, 0)
  {
    assert [l][1..] == [];
    assert Of([l], section) == if l.section == section then [l] else [];
  }

  lemma AddsNext(lines: seq<Line>, l: Line, section: Section, count: int, debits: int, credits: int)
    requires Adds(lines, section, count, debits, credits)
    ensures if l.section == section
            then Adds(lines + [l], section, count + 1, debits + l.debitAmount, credits + l.CreditOrZero())
            else Adds(lines + [l], section, count, debits, credits)
  {
    AddsOne(l, section);
    OfAppend(lines, [l], section);
    CountSectionAppend(lines, [l], section);
    TotalsAppend(Of(lines, section), Of([l], section));
    hide Of;
    hide CountSection;
    hide DebitTotal;
    hide CreditTotal;
  }

  lemma AddsBoth(s: seq<Line>, t: seq<Line>, section: Section, n: int, debits: int, m: int, credits: int)
    requires Adds(s, section, n, debits, 0) && Adds(t, section, m, 0, credits)
    ensures Adds(s + t, section, n + m, debits, credits)
  {
    OfAppend(s, t, section);
    CountSectionAppend(s, t, section);
    TotalsAppend(Of(s, section), Of(t, section));
    hide Of;
    hide CountSection;
    hide DebitTotal;
    hide CreditTotal;
  }

  lemma {:induction false} OffsetRowsAdd(items: seq<F24.Item>, amounts: Amounts, credit: int, section: Section, k: int)
    requires 0 <= k <= |items|
    ensures Adds(OffsetLines(items, amounts, credit, k), section, OffsetCount(items, amounts, credit, section, k),
                 OffsetSum(items, amounts, credit, section, k), 0)
  {
    hide Adds;
    hide Offset;
    hide OffsetLine;
    if k == 0 {
      AddsNothing(section);
    } else {
      OffsetRowsAdd(items, amounts, credit, section, k - 1);
      var part := Offset(items, amounts, credit, k - 1);
      var before, l := OffsetLines(items, amounts, credit, k - 1), OffsetLine(items[k - 1], part);
      OffsetLineIs(items, amounts, credit, k - 1);
      AddsNext(before, l, section, OffsetCount(items, amounts, credit, section, k - 1),
               OffsetSum(items, amounts, credit, section, k - 1), 0);
      if part == 0 {
        assert OffsetLines(items, amounts, credit, k) == before;
      }
    }
  }

  lemma OffsetLineIs(items: seq<F24.Item>, amounts: Amounts, credit: int, k: int)
    requires 0 <= k < |items|
    ensures var part := Offset(items, amounts, credit, k);
            var l := OffsetLine(items[k], part);
            part >= 0 && l.section == items[k].rows.section && l.debitAmount == part && l.CreditOrZero() == 0
  {
  }

  lemma {:induction false} CreditRowsAdd(credits: seq<AvailableCredit>, covered: int, office: string, section: Section,
                                         k: int)
    requires 0 <= k <= |credits|
    ensures Adds(CreditLines(credits, covered, k, office), section, UsedCount(credits, covered, section, k),
                 0, UsedSum(credits, covered, section, k))
  {
    hide *;
    if k == 0 {
      CreditRowsNone(credits, covered, office, section);
    } else {
      CreditRowsAdd(credits, covered, office, section, k - 1);
      CreditRowsNext(credits, covered, office, section, k - 1);
    }
  }

  lemma CreditRowsNone(credits: seq<AvailableCredit>, covered: int, office: string, section: Section)
    ensures Adds(CreditLines(credits, covered, 0, office), section, UsedCount(credits, covered, section, 0),
                 0, UsedSum(credits, covered, section, 0))
  {
    AddsNothing(section);
    NoCreditsYet(credits, covered, office);
    hide CreditLines;
  }

  lemma CreditRowsNext(credits: seq<AvailableCredit>, covered: int, office: string, section: Section, k: int)
    requires 0 <= k < |credits|
    requires Adds(CreditLines(credits, covered, k, office), section, UsedCount(credits, covered, section, k),
                  0, UsedSum(credits, covered, section, k))
    ensures Adds(CreditLines(credits, covered, k + 1, office), section, UsedCount(credits, covered, section, k + 1),
                 0, UsedSum(credits, covered, section, k + 1))
  {
    hide *;
    var used := Used(credits, covered, k);
    var before, l := CreditLines(credits, covered, k, office), CreditLine(credits[k], used, office);
    CreditLineIs(credits, covered, k, office);
    UsedStep(credits, covered, k + 1, office);
    UsedNext(credits, covered, section, k);
    AddsNext(before, l, section, UsedCount(credits, covered, section, k), 0, UsedSum(credits, covered, section, k));
  }

  lemma UsedNext(credits: seq<AvailableCredit>, covered: int, section: Section, k: int)
    requires 0 <= k < |credits|
    ensures var used, own := Used(credits, covered, k), credits[k].section == section;
            && UsedCount(credits, covered, section, k + 1)
               == UsedCount(credits, covered, section, k) + (if own && used > 0 then 1 else 0)
            && UsedSum(credits, covered, section, k + 1) == UsedSum(credits, covered, section, k)
               + if own then used else 0
  {
    hide Used;
  }

  lemma CreditLineIs(credits: seq<AvailableCredit>, covered: int, k: int, office: string)
    requires 0 <= k < |credits|
    ensures var used := Used(credits, covered, k);
            var l := CreditLine(credits[k], used, office);
            used >= 0 && l.section == credits[k].section && l.debitAmount == 0 && l.CreditOrZero() == used
  {
    hide CreditsBefore;
  }

  lemma {:induction false} OffsetRowsAllowed(items: seq<F24.Item>, amounts: Amounts, credit: int, k: int)
    requires 0 <= k <= |items| && forall i :: 0 <= i < |items| ==> ItemOk(items[i])
    ensures AllAllowed(OffsetLines(items, amounts, credit, k))
  {
    if k > 0 {
      OffsetRowsAllowed(items, amounts, credit, k - 1);
      var part := Offset(items, amounts, credit, k - 1);
      hide ItemOk;
      hide RowAllowed;
      hide OffsetLine;
      hide Offset;
      if part > 0 {
        OffsetLineAllowed(items[k - 1], part);
      }
    }
  }

  lemma {:induction false} CreditRowsAllowed(credits: seq<AvailableCredit>, covered: int, office: string, k: int)
    requires 0 <= k <= |credits|
    ensures AllAllowed(CreditLines(credits, covered, k, office))
        <==> forall j :: 0 <= j < k && Used(credits, covered, j) > 0 ==> CreditOk(credits[j], office)
  {
    hide RowAllowed;
    hide CreditOk;
    hide CreditLine;
    hide Used;
    if k == 0 {
      NoCreditsYet(credits, covered, office);
    } else {
      hide CreditLines;
      CreditRowsAllowed(credits, covered, office, k - 1);
      UsedStep(credits, covered, k, office);
      var used := Used(credits, covered, k - 1);
      if used > 0 {
        CreditLineAllowed(credits[k - 1], used, office);
        AllowedAppend(CreditLines(credits, covered, k - 1, office), CreditLine(credits[k - 1], used, office));
      }
      hide AllAllowed;
    }
  }

  lemma AllowedAppend(lines: seq<Line>, l: Line)
    ensures AllAllowed(lines + [l]) <==> AllAllowed(lines) && RowAllowed(l)
  {
    hide RowAllowed;
    if AllAllowed(lines + [l]) {
      assert (lines + [l])[|lines|] == l;
      assert forall i :: 0 <= i < |lines| ==> lines[i] == (lines + [l])[i];
    }
  }

  // ---------- The form ----------

  lemma AllowedAppendAll(s: seq<Line>, t: seq<Line>)
    requires AllAllowed(s)
    ensures AllAllowed(s + t) <==> AllAllowed(t)
  {
    hide RowAllowed;
    if AllAllowed(s + t) {
      assert forall i :: 0 <= i < |t| ==> t[i] == (s + t)[|s| + i];
    }
  }

  /** The section of a compensation form is written exactly when its rows are allowed and it holds them. */
  lemma CompensationSection(
    items: seq<F24.Item>, amounts: Amounts, credits: seq<AvailableCredit>, office: string, section: Written)
    requires TotalCredit(credits) > 0
    ensures var credit := TotalCredit(credits);
            var covered := Min(credit, DebtsBefore(items, amounts, |items|));
            var lines := OffsetLines(items, amounts, credit, |items|)
              + CreditLines(credits, covered, |credits|, office);
            SectionAllowed(section, lines)
            <==> AllAllowed(Of(lines, section)) && SectionHolds(items, amounts, credits, section)
  {
    var credit, n := TotalCredit(credits), |items|;
    var covered := Min(credit, DebtsBefore(items, amounts, n));
    hide OffsetLines;
    hide CreditLines;
    hide OffsetCount;
    hide OffsetSum;
    hide UsedCount;
    hide UsedSum;
    hide AllAllowed;
    hide Power;
    OffsetRowsAdd(items, amounts, credit, section, n);
    CreditRowsAdd(credits, covered, office, section, |credits|);
    AddsBoth(OffsetLines(items, amounts, credit, n), CreditLines(credits, covered, |credits|, office), section,
             OffsetCount(items, amounts, credit, section, n), OffsetSum(items, amounts, credit, section, n),
             UsedCount(credits, covered, section, |credits|), UsedSum(credits, covered, section, |credits|));
    hide CountSection;
    hide DebitTotal;
    hide CreditTotal;
    hide Of;
  }

  lemma CompensationRows(items: seq<F24.Item>, amounts: Amounts, credits: seq<AvailableCredit>, office: string,
                         credit: int, covered: int)
    requires forall i :: 0 <= i < |items| ==> ItemOk(items[i])
    ensures AllAllowed(OffsetLines(items, amounts, credit, |items|) + CreditLines(credits, covered, |credits|, office))
        <==> UsedCreditsOk(credits, covered, office)
  {
    hide OffsetLines;
    hide CreditLines;
    hide AllAllowed;
    hide CreditOk;
    hide Used;
    OffsetRowsAllowed(items, amounts, credit, |items|);
    CreditRowsAllowed(credits, covered, office, |credits|);
    AllowedAppendAll(OffsetLines(items, amounts, credit, |items|), CreditLines(credits, covered, |credits|, office));
  }

  lemma OrderedItemsOk(codes: TaxCodes, scheme: Option<InpsScheme>, taxYear: int, order: Order)
    requires CodesOk(codes) && (scheme.Some? ==> SchemeOk(scheme.value)) && YearFits(taxYear) && YearFits(taxYear + 1)
    ensures forall i :: 0 <= i < |OrderedItems(codes, scheme, taxYear, order)| ==>
            ItemOk(OrderedItems(codes, scheme, taxYear, order)[i])
  {
    hide Power;
    hide AreDigits;
    var t := TreasuryRows(codes, taxYear);
    ItemsOfOne(t);
    match scheme {
      case None =>
        assert [t] + [] == [t] && [] + [t] == [t];
      case Some(s) =>
        ItemsOfTwo(t, InpsRows(s, taxYear, true));
        ItemsOfTwo(InpsRows(s, taxYear, true), t);
    }
    hide Items;
  }

  /** With codes that fit, the zero-balance form is accepted exactly when every credit that is used has its codes, year
      and place, and every section holds its offset debts and used credits: six rows of the Treasury, four of INPS,
      regions and municipalities, and totals of fifteen digits. */
  lemma CompensationFormAcceptedIff(
    fiscalCode: string, codes: TaxCodes, scheme: Option<InpsScheme>, taxYear: int, order: Order,
    amounts: Amounts, office: string, date: Day, credits: seq<AvailableCredit>, o: Outcome)
    requires CodesFit(fiscalCode, date, codes, scheme, taxYear)
    requires IsOutcome(o, OrderedItems(codes, scheme, taxYear, order), amounts, credits, office, date) && o.form.Some?
    ensures var items := OrderedItems(codes, scheme, taxYear, order);
            var covered := Min(TotalCredit(credits), DebtsBefore(items, amounts, |items|));
            FormOk(fiscalCode, date, o.form.value.lines) <==>
              && UsedCreditsOk(credits, covered, office)
              && SectionHolds(items, amounts, credits, Treasury) && SectionHolds(items, amounts, credits, Inps)
              && SectionHolds(items, amounts, credits, Regional) && SectionHolds(items, amounts, credits, Local)
  {
    var items := OrderedItems(codes, scheme, taxYear, order);
    var credit := TotalCredit(credits);
    var covered := Min(credit, DebtsBefore(items, amounts, |items|));
    var lines := OffsetLines(items, amounts, credit, |items|) + CreditLines(credits, covered, |credits|, office);
    assert credit > 0 && o.form.value.lines == lines;
    assert o.form.value.totalDebit == DebitTotal(lines) && o.form.value.totalCredit == CreditTotal(lines);
    assert CodesOk(codes) && (scheme.Some? ==> SchemeOk(scheme.value)) && YearFits(taxYear) && YearFits(taxYear + 1);
    assert |fiscalCode| <= 16 && YearFits(YearOf(date));
    hide *;
    CompensationBalances(o, items, amounts, credits, office, date);
    OrderedItemsOk(codes, scheme, taxYear, order);
    CompensationRows(items, amounts, credits, office, credit, covered);
    CompensationSection(items, amounts, credits, office, Treasury);
    CompensationSection(items, amounts, credits, office, Inps);
    CompensationSection(items, amounts, credits, office, Regional);
    CompensationSection(items, amounts, credits, office, Local);
    AllowedBySection(lines);
    RowsAcceptedIff(fiscalCode, date, lines);
    if CountSection(lines, OtherEntity) == 0 {
      BalanceBySection(lines);
      ZeroFits();
    }
  }

  lemma ZeroFits()
    ensures AmountFits(0)
  {
    PowerPositive();
    hide Power;
  }
}
