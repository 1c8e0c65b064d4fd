/** The shape of the forms of a schedule: they share their dates and fit the rows of the printed model; and the smallest
    amounts, where an interest row loses a surcharge share. */
module ScheduleForms {
  import opened Dates
  import opened F24
  import opened Installments
  import opened Rounding
  import opened Schedule
  import opened ScheduleInputs
  import opened ScheduleLaws
  import opened Wrappers

  function CountComponents(cs: seq<Component>, section: Section): (n: int)
    ensures n >= 0
  {
    if cs == [] then 0
    else CountComponents(cs[..|cs| - 1], section) + if cs[|cs| - 1].rows.section == section then 1 else 0
  }

  function CountEntries(entries: seq<InterestEntry>, section: Section): int {
    if entries == [] then 0
    else (if entries[0].rows.section == section then 1 else 0) + CountEntries(entries[1..], section)
  }

  lemma {:induction false} AddInterestCount(entries: seq<InterestEntry>, c: Component, amount: int, section: Section)
    ensures CountEntries(AddInterest(entries, c, amount), section)
         <= CountEntries(entries, section) + if c.rows.section == section then 1 else 0
  {
    if entries == [] {
    } else if entries[0].rows.section == c.rows.section && entries[0].referenceYear == c.debt.referenceYear {
    } else {
      AddInterestCount(entries[1..], c, amount, section);
    }
  }

  lemma {:induction false} InterestEntriesCount(cs: seq<Component>, i: int, n: int, section: Section)
    requires 0 <= i < n && AllShaped(cs, n)
    ensures CountEntries(InterestEntries(cs, i, n), section) <= CountComponents(cs, section)
  {
    if cs != [] {
      var front, last := cs[..|cs| - 1], cs[|cs| - 1];
      InterestEntriesCount(front, i, n, section);
      AddInterestCount(InterestEntries(front, i, n), last, last.plan[i].interest + ShareWithInterest(last, i), section);
      hide AddsInterest;
      hide AddInterest;
      hide ShareWithInterest;
    }
  }

  lemma {:induction false} InterestLinesCount(entries: seq<InterestEntry>, section: Section)
    ensures CountSection(InterestLines(entries), section) == CountEntries(entries, section)
  {
    if entries != [] {
      InterestLinesCount(entries[1..], section);
      assert InterestLines(entries)[1..] == InterestLines(entries[1..]);
    }
  }

  lemma {:induction false} DebtLinesCount(cs: seq<Component>, i: int, n: int, section: Section)
    requires 0 <= i < n && AllShaped(cs, n)
    ensures CountSection(DebtLines(cs, i, n), section) == CountComponents(cs, section)
  {
    if cs != [] {
      var front, last := cs[..|cs| - 1], cs[|cs| - 1];
      DebtLinesCount(front, i, n, section);
      assert DebtLines(cs, i, n) == DebtLines(front, i, n) + [DebtLine(last, i, n)];
      CountSectionAppend(DebtLines(front, i, n), [DebtLine(last, i, n)], section);
      hide DebtLines;
    }
  }

  lemma FormLinesCount(cs: seq<Component>, i: int, n: int, section: Section)
    requires 0 <= i < n && AllShaped(cs, n)
    ensures CountSection(FormLines(cs, i, n), section) <= 2 * CountComponents(cs, section)
  {
    CountSectionAppend(DebtLines(cs, i, n), InterestLines(InterestEntries(cs, i, n)), section);
    DebtLinesCount(cs, i, n, section);
    InterestLinesCount(InterestEntries(cs, i, n), section);
    InterestEntriesCount(cs, i, n, section);
  }

  function CountItems(items: seq<Item>, section: Section): int {
    if items == [] then 0 else (if items[0].rows.section == section then 1 else 0) + CountItems(items[1..], section)
  }

  lemma {:induction false} PositiveCount(items: seq<Item>, amounts: Amounts, section: Section)
    ensures CountItems(Positive(items, amounts), section) <= CountItems(items, section)
  {
    if items != [] {
      PositiveCount(items[1..], amounts, section);
      var rest := Positive(items[1..], amounts);
      assert ([items[0]] + rest)[1..] == rest;
    }
  }

  lemma {:induction false} CountItemsAppend(s: seq<Item>, x: Item, section: Section)
    ensures CountItems(s + [x], section) == CountItems(s, section) + if x.rows.section == section then 1 else 0
  {
    if s != [] {
      assert (s + [x])[0] == s[0] && (s + [x])[1..] == s[1..] + [x];
      CountItemsAppend(s[1..], x, section);
    }
  }

  lemma {:induction false} ComponentsCount(items: seq<Item>, cs: seq<Component>, section: Section)
    requires |items| == |cs| && forall k :: 0 <= k < |cs| ==> cs[k].rows == items[k].rows
    ensures CountComponents(cs, section) == CountItems(items, section)
  {
    if cs != [] {
      var m := |cs| - 1;
      ComponentsCount(items[..m], cs[..m], section);
      assert items == items[..m] + [items[m]];
      CountItemsAppend(items[..m], items[m], section);
    }
  }

  /** The sections of a tax year, as the program lists them. */
  function SectionsOf(codes: TaxCodes, scheme: Option<InpsScheme>, taxYear: int, single: bool): seq<SectionRows> {
    [TreasuryRows(codes, taxYear)] + ContributionRows(scheme, taxYear, single)
  }

  lemma ItemsOfSections(codes: TaxCodes, scheme: Option<InpsScheme>, taxYear: int, single: bool)
    ensures var items := Items(SectionsOf(codes, scheme, taxYear, single));
            var t := TreasuryRows(codes, taxYear);
            items == [Item(t, t.debts[0]), Item(t, t.debts[1])] +
              match scheme
              case None => []
              case Some(s) => var i := InpsRows(s, taxYear, single); [Item(i, i.debts[0]), Item(i, i.debts[1])]
  {
    var sections := SectionsOf(codes, scheme, taxYear, single);
    var t := TreasuryRows(codes, taxYear);
    assert sections[0] == t;
    assert sections[1..] == ContributionRows(scheme, taxYear, single);
    if scheme.Some? {
      var i := InpsRows(scheme.value, taxYear, single);
      assert sections[1..][1..] == [];
      assert Items(sections[1..]) == [Item(i, i.debts[0]), Item(i, i.debts[1])];
    }
    assert seq(|t.debts|, k requires 0 <= k < |t.debts| => Item(t, t.debts[k]))
           == [Item(t, t.debts[0]), Item(t, t.debts[1])];
  }

  lemma SectionItemsCount(codes: TaxCodes, scheme: Option<InpsScheme>, taxYear: int, single: bool, section: Section)
    ensures CountItems(Items(SectionsOf(codes, scheme, taxYear, single)), section)
         <= if section.Treasury? || section.Inps? then 2 else 0
  {
    ItemsOfSections(codes, scheme, taxYear, single);
    var items := Items(SectionsOf(codes, scheme, taxYear, single));
    hide Items;
    if scheme.Some? {
      var i := InpsRows(scheme.value, taxYear, single);
      assert items[1..][1..] == [Item(i, i.debts[0]), Item(i, i.debts[1])];
      assert CountItems(items[1..][1..][1..][1..], section) == 0;
      assert CountItems(items[1..][1..], section) == if section.Inps? then 2 else 0;
    } else {
      var t := TreasuryRows(codes, taxYear);
      assert items == [Item(t, t.debts[0]), Item(t, t.debts[1])];
      assert items[1..] == [Item(t, t.debts[1])] && items[1..][1..] == [];
      assert CountItems(items[1..][1..], section) == 0;
    }
  }

  /** Every installment form fits the model: at most four Treasury rows out of six and four INPS rows out of four, and
      no row of another section. All forms share the dates of the plan. */
  lemma InstallmentFormsFit(codes: TaxCodes, scheme: Option<InpsScheme>, taxYear: int, single: bool, amounts: Amounts,
                            t: Terms, i: nat)
    requires ValidTerms(t)
    requires i < |InstallmentForms(CheckedComponents(SectionsOf(codes, scheme, taxYear, single), amounts, t),
                                   t.installments)|
    ensures var f := InstallmentForms(CheckedComponents(SectionsOf(codes, scheme, taxYear, single), amounts, t),
                                      t.installments)[i];
            && CountSection(f.lines, Treasury) <= 4 && CountSection(f.lines, Inps) <= 4
            && CountSection(f.lines, Regional) == CountSection(f.lines, Local) == CountSection(f.lines, OtherEntity)
               == 0
            && f.paymentDate == AllDueDates(t.first, t.installmentDay, t.end)[i]
  {
    var sections, n := SectionsOf(codes, scheme, taxYear, single), t.installments;
    var cs := CheckedComponents(sections, amounts, t);
    forall section: Section
      ensures CountSection(FormLines(cs, i, n), section) <= if section.Treasury? || section.Inps? then 4 else 0
    {
      InstallmentRowCount(codes, scheme, taxYear, single, amounts, t, i, section);
    }
    InstallmentDate(sections, amounts, t, i);
    hide SectionsOf;
    hide CheckedComponents;
    hide ValidTerms;
    hide FormLines;
    hide CountSection;
    hide AllDueDates;
  }

  lemma InstallmentRowCount(
    codes: TaxCodes, scheme: Option<InpsScheme>, taxYear: int, single: bool, amounts: Amounts, t: Terms, i: nat,
    section: Section
  )
    requires ValidTerms(t) && i < t.installments
    ensures CountSection(FormLines(CheckedComponents(SectionsOf(codes, scheme, taxYear, single), amounts, t), i,
                                   t.installments), section)
         <= if section.Treasury? || section.Inps? then 4 else 0
  {
    var sections := SectionsOf(codes, scheme, taxYear, single);
    var cs := CheckedComponents(sections, amounts, t);
    SectionItemsCount(codes, scheme, taxYear, single, section);
    PositiveCount(Items(sections), amounts, section);
    ComponentsCount(Positive(Items(sections), amounts), cs, section);
    FormLinesCount(cs, i, t.installments, section);
    hide SectionsOf;
    hide ValidTerms;
    hide FormLines;
    hide CountSection;
  }

  lemma InstallmentDate(sections: seq<SectionRows>, amounts: Amounts, t: Terms, i: nat)
    requires ValidTerms(t) && i < |InstallmentForms(CheckedComponents(sections, amounts, t), t.installments)|
    ensures InstallmentForms(CheckedComponents(sections, amounts, t), t.installments)[i].paymentDate
         == AllDueDates(t.first, t.installmentDay, t.end)[i]
  {
    hide ValidTerms;
    hide Surcharged;
    hide AllDueDates;
    hide FormLines;
    var cs := CheckedComponents(sections, amounts, t);
    PlanRowsAddUp(Surcharged(cs[0].amount, t.surchargePct), t);
    hide PlanRows;
    assert cs[0].plan == PlanRows(Surcharged(cs[0].amount, t.surchargePct), t);
  }

  /** The components of a schedule together with the fact that their plans are well shaped. */
  function CheckedComponents(sections: seq<SectionRows>, amounts: Amounts, t: Terms): (cs: seq<Component>)
    requires ValidTerms(t)
    ensures cs == Components(sections, amounts, t) && AllShaped(cs, t.installments)
  {
    ComponentsShaped(sections, amounts, t);
    Components(sections, amounts, t)
  }

  lemma SecondFormsFit(codes: TaxCodes, scheme: Option<InpsScheme>, taxYear: int, single: bool, amounts: Amounts)
    ensures var lines := SecondLines(SectionsOf(codes, scheme, taxYear, single), amounts);
            && CountSection(lines, Treasury) <= 1 && CountSection(lines, Inps) <= 1
            && CountSection(lines, Regional) == CountSection(lines, Local) == CountSection(lines, OtherEntity) == 0
  {
    var sections := SectionsOf(codes, scheme, taxYear, single);
    assert sections[0] == TreasuryRows(codes, taxYear);
    hide Amounts.Get;
    hide MakeLine;
    if scheme.Some? {
      assert sections[1] == InpsRows(scheme.value, taxYear, single);
      assert sections[1..][1..] == [];
      SecondLinesTwo(sections, amounts);
    } else {
      assert sections[1..] == [];
    }
  }

  lemma SecondLinesTwo(sections: seq<SectionRows>, amounts: Amounts)
    requires |sections| == 2 && sections[0].section.Treasury? && sections[1].section.Inps?
    ensures var lines := SecondLines(sections, amounts);
            && CountSection(lines, Treasury) <= 1 && CountSection(lines, Inps) <= 1
            && CountSection(lines, Regional) == CountSection(lines, Local) == CountSection(lines, OtherEntity) == 0
  {
    assert sections[1..][1..] == [];
    var second := SecondLines(sections[1..], amounts);
    assert SecondLines(sections[1..][1..], amounts) == [];
    assert sections[1..][0] == sections[1];
    assert |second| <= 1 && (|second| == 1 ==> second[0].section.Inps?);
    var lines := SecondLines(sections, amounts);
    assert |lines| > |second| ==> lines == [lines[0]] + second && lines[0].section.Treasury?;
    forall section: Section
      ensures CountSection(lines, section) == CountSection(second, section)
              + if |lines| > |second| && section.Treasury? then 1 else 0
    {
      if |lines| > |second| {
        assert lines[1..] == second;
      } else {
        assert lines == second;
      }
    }
  }

  // ---------- The smallest amounts ----------

  lemma OnlyInpsBalance(codes: TaxCodes, scheme: InpsScheme, taxYear: int, single: bool, amount: int)
    requires amount > 0
    ensures var rows := InpsRows(scheme, taxYear, single);
            DuesOf(SectionsOf(codes, Some(scheme), taxYear, single), Amounts(0, 0, 0, amount, 0, 0))
              == [Due(rows, amount)]
  {
    ItemsOfSections(codes, Some(scheme), taxYear, single);
    var items, amounts := Items(SectionsOf(codes, Some(scheme), taxYear, single)), Amounts(0, 0, 0, amount, 0, 0);
    hide Items;
    hide SectionsOf;
    assert Positive(items[1..][1..][1..], amounts) == [];
    assert Positive(items[1..][1..], amounts) == [items[2]];
    assert Positive(items, amounts) == Positive(items[1..], amounts) == [items[2]];
  }

  lemma OnlyTaxBalance(codes: TaxCodes, scheme: InpsScheme, taxYear: int, single: bool, amount: int)
    requires amount > 0
    ensures var rows := TreasuryRows(codes, taxYear);
            DuesOf(SectionsOf(codes, Some(scheme), taxYear, single), Amounts(amount, 0, 0, 0, 0, 0))
              == [Due(rows, amount)]
  {
    ItemsOfSections(codes, Some(scheme), taxYear, single);
    var items, amounts := Items(SectionsOf(codes, Some(scheme), taxYear, single)), Amounts(amount, 0, 0, 0, 0, 0);
    hide Items;
    hide SectionsOf;
    assert Positive(items[1..][1..][1..], amounts) == [];
    assert Positive(items[1..][1..], amounts) == [];
    assert Positive(items, amounts) == [items[0]];
  }

  /** Six installments from 30 July 2026, with the 0.40% surcharge. */
  function July2026(): Terms {
    Terms(UtcDate(2026, 7, 30), 40, 6, DEFAULT_INSTALLMENT_DAY, DEFAULT_END, DEFAULT_INTEREST, UtcDate(2026, 11, 30))
  }

  /** An INPS balance of 1.52 euro: the last share of the surcharge is -4 cents, its interest rounds to nothing, and the
      forms take more than the plan. */
  lemma SmallBalanceOverpays(codes: TaxCodes, scheme: InpsScheme)
    ensures ValidTerms(July2026())
    ensures var cs := CheckedComponents(SectionsOf(codes, Some(scheme), 2025, false), Amounts(0, 0, 0, 152, 0, 0),
                                        July2026());
            DebitsOf(InstallmentForms(cs, 6)) > PlanTotals(cs, 6, 6)
  {
    var t, sections, amounts := July2026(), SectionsOf(codes, Some(scheme), 2025, false), Amounts(0, 0, 0, 152, 0, 0);
    TermsOf30July2026(t);
    OnlyInpsBalance(codes, scheme, 2025, false, 152);
    PartsOf152(InpsRows(scheme, 2025, false), t);
    var dues := DuesOf(sections, amounts);
    assert !Kept(dues[0], t, 5) && t.installments == 6;
    NotAllKept(dues, t, 0, 5);
    var cs := CheckedComponents(sections, amounts, t);
    assert cs == Components(sections, amounts, t);
    hide *;
    ScheduleTakesThePlansIff(sections, amounts, t);
  }

  lemma NotAllKept(dues: seq<Due>, t: Terms, k: int, i: int)
    requires 0 <= k < |dues| && 0 <= i < t.installments && !Kept(dues[k], t, i)
    ensures !AllKept(dues, t)
  {
    hide Kept;
  }

  lemma PartsOf152(rows: SectionRows, t: Terms)
    requires rows.surchargeWithInterest && t.surchargePct == 40 && t.installments == 6 && Rate(t, 5) == 150
    ensures InterestPart(Due(rows, 152), t, 5) == 0 && MovedPart(Due(rows, 152), t, 5) == -4
  {
    hide Rate;
    assert Surcharged(152, 40) == 153;
    assert RoundDiv(153, 6) == 26 && RoundDiv(152, 6) == 25;
    assert Principal(153, 6, 5) == 23 && Principal(152, 6, 5) == 27;
    assert InterestOf(23, 150) == 0;
  }

  lemma TermsOf30July2026(t: Terms)
    requires t.first == UtcDate(2026, 7, 30) && t.installments == 6
    requires t.installmentDay == DEFAULT_INSTALLMENT_DAY && t.end == DEFAULT_END && t.interest == DEFAULT_INTEREST
    ensures ValidTerms(t) && Rate(t, 5) == 150
  {
    hide YearOf;
    hide MonthOf;
    hide DayOf;
    hide UtcDate;
    hide AllDueDates;
    hide CommercialDays;
    FieldsOfDate(2026, 7, 30);
    LimitIsDecember16(t.first);
    DatesOfMonths(2026, 7, 30, 12, 16);
    InstallmentDates(t.first);
    SecondInterestBounds(t.first);
    assert RoundDiv(400 * 16, 360) == 18;
  }
}
