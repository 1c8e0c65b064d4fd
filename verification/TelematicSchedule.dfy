/** When the file accepts the forms of a schedule, with codes that fit: exactly on which amounts. */
module TelematicSchedule {
  import opened Dates
  import opened F24
  import opened Installments
  import opened Radix
  import opened Rounding
  import opened Schedule
  import opened ScheduleForms
  import opened ScheduleInputs
  import opened ScheduleLaws
  import opened ScheduleRows
  import opened TelematicAmount
  import opened TelematicForm
  import opened TelematicLimits
  import opened TelematicRecord
  import opened TelematicRows
  import opened Wrappers

  // ---------- Well-formed rows ----------

  predicate CodesOk(codes: TaxCodes) {
    |codes.balance| <= 4 && |codes.firstAdvance| <= 4 && |codes.secondAdvance| <= 4 && |codes.interest| <= 4
  }

  predicate SchemeOk(s: InpsScheme) {
    && |s.single| <= 4 && |s.installments| <= 4 && |s.interest| <= 4
    && |s.officeCode| == 4 && AreDigits(s.officeCode, 10)
    && forall year :: year in s.positionCodes ==> |s.positionCodes[year]| <= 17
  }

  predicate PositionOk(p: Option<string>) { |p.GetOr("")| <= 17 }

  predicate PaysFor(rows: SectionRows) {
    && |rows.interestCode| <= 4
    && (rows.section.Treasury?
        || (rows.section.Inps? && |rows.officeCode.GetOr("")| == 4 && AreDigits(rows.officeCode.GetOr(""), 10)))
  }

  predicate DebtOk(d: Debt) {
    |d.code| <= 4 && YearFits(d.referenceYear) && PositionOk(d.positionCode)
  }

  /** A row that the file takes as soon as its amount fits. */
  predicate Writable(l: Line) {
    && (l.section.Treasury? || l.section.Inps?) && PlaceOk(l) && l.creditAmount == None
    && |l.code| <= 4 && YearFits(l.referenceYear) && |l.installmentCode.GetOr("0000")| <= 4
    && PositionOk(l.positionCode)
    && PeriodFits(l.periodFrom) && PeriodFits(l.periodTo)
  }

  lemma YearPeriodFits(prefix: string, year: int)
    requires prefix == "01" || prefix == "12"
    ensures PeriodFits(Some(prefix + "/" + Text(year))) <==> YearFits(year)
  {
    TextFits(year, 4);
    var text := Text(year);
    SlashLeft(prefix, text);
    DigitsAfter(prefix, text);
    hide WithoutSlash;
    hide Text;
    hide Power;
    hide AreDigits;
  }

  lemma SlashLeft(prefix: string, text: string)
    requires prefix == "01" || prefix == "12"
    ensures WithoutSlash(prefix + "/" + text) == prefix + text
    ensures AreDigits(prefix, 10)
  {
    var s := prefix + "/" + text;
    assert s[0] != '/' && s[1..][0] != '/' && s[1..][1..][0] == '/';
    assert s[1..][1..][1..] == text;
    assert WithoutSlash(s[1..][1..]) == text;
    assert WithoutSlash(s[1..]) == [s[1]] + text;
    assert WithoutSlash(s) == [s[0]] + ([s[1]] + text);
    assert prefix == [s[0]] + [s[1]];
  }

  lemma DigitsAfter(prefix: string, text: string)
    requires AreDigits(prefix, 10)
    ensures AreDigits(prefix + text, 10) <==> AreDigits(text, 10)
  {
    hide IsDigit;
    if AreDigits(prefix + text, 10) {
      assert forall i :: 0 <= i < |text| ==> text[i] == (prefix + text)[|prefix| + i];
    }
  }

  lemma NoPeriodFits()
    ensures PeriodFits(None)
  {
  }

  lemma MadeLineIsWritable(
    rows: SectionRows, role: Role, code: string, year: int, amount: int, installmentCode: Option<string>,
    position: Option<string>,
    surcharge: Option<int>)
    requires PaysFor(rows) && |code| <= 4 && YearFits(year) && |installmentCode.GetOr("0000")| <= 4
             && PositionOk(position)
    ensures Writable(MakeLine(rows.section, role, code, year, amount, installmentCode, rows.officeCode, position,
                              surcharge))
  {
    hide YearFits;
    hide Text;
    hide PeriodFits;
    YearPeriodFits("01", year);
    YearPeriodFits("12", year);
    NoPeriodFits();
    assert "01" + "/" == "01/" && "12" + "/" == "12/";
  }

  // ---------- Accepted exactly when the amounts are ----------

  predicate AllWritable(lines: seq<Line>) {
    forall i :: 0 <= i < |lines| ==> Writable(lines[i])
  }

  lemma {:induction false} OfWritable(lines: seq<Line>, section: Section)
    requires AllWritable(lines)
    ensures AllWritable(Of(lines, section)) && (LinesNonNegative(lines) ==> LinesNonNegative(Of(lines, section)))
  {
    hide Writable;
    if lines != [] {
      OfWritable(lines[1..], section);
    }
  }

  lemma {:induction false} NoCredits(lines: seq<Line>)
    requires AllWritable(lines)
    ensures CreditTotal(lines) == 0
  {
    hide Writable;
    if lines != [] {
      NoCredit(lines[0]);
      NoCredits(lines[1..]);
    }
  }

  lemma NoCredit(l: Line)
    requires Writable(l)
    ensures l.CreditOrZero() == 0
  {
    hide PeriodFits;
    hide PlaceOk;
  }

  lemma {:induction false} DebitsBySection(lines: seq<Line>)
    requires AllWritable(lines)
    ensures DebitTotal(lines) == DebitTotal(Of(lines, Treasury)) + DebitTotal(Of(lines, Inps))
    ensures Of(lines, Regional) == Of(lines, Local) == []
  {
    hide PeriodFits;
    hide PlaceOk;
    hide YearFits;
    if lines != [] {
      assert Writable(lines[0]);
      DebitsBySection(lines[1..]);
      TotalsAppend([lines[0]], Of(lines[1..], lines[0].section));
      assert [lines[0]][1..] == [];
      assert [] + Of(lines[1..], Treasury) == Of(lines[1..], Treasury)
             && [] + Of(lines[1..], Inps) == Of(lines[1..], Inps);
    }
  }

  lemma {:induction false} TotalNotNegative(lines: seq<Line>)
    requires LinesNonNegative(lines)
    ensures DebitTotal(lines) >= 0
  {
    if lines != [] {
      TotalNotNegative(lines[1..]);
    }
  }

  lemma PowerPositive()
    ensures Power(10, 15) >= 1
  {
  }

  lemma {:induction false} InOwnSection(lines: seq<Line>, i: nat)
    requires i < |lines|
    ensures lines[i] in Of(lines, lines[i].section)
  {
    if i > 0 {
      InOwnSection(lines[1..], i - 1);
    }
  }

  lemma NonNegativeBySection(lines: seq<Line>)
    requires AllWritable(lines) && LinesNonNegative(Of(lines, Treasury)) && LinesNonNegative(Of(lines, Inps))
    ensures LinesNonNegative(lines)
  {
    hide PeriodFits;
    hide PlaceOk;
    hide YearFits;
    hide Of;
    forall i | 0 <= i < |lines|
      ensures lines[i].debitAmount >= 0
    {
      InOwnSection(lines, i);
      assert Writable(lines[i]);
    }
  }

  /** A form of writable rows within the model is accepted exactly when no row is negative and the total has at most
      fifteen digits. */
  lemma WritableFormAcceptedIff(fiscalCode: string, date: Day, lines: seq<Line>)
    requires AllWritable(lines) && |fiscalCode| <= 16 && YearFits(YearOf(date))
    requires WritableCounts(lines)
    ensures FormOk(fiscalCode, date, lines) <==> LinesNonNegative(lines) && DebitTotal(lines) < Power(10, 15)
  {
    RowsAcceptedIff(fiscalCode, date, lines);
    WritableSectionsIff(lines);
    hide *;
  }

  predicate WritableCounts(lines: seq<Line>) {
    && CountSection(lines, Treasury) <= 6 && CountSection(lines, Inps) <= 4
    && CountSection(lines, Regional) == CountSection(lines, Local) == CountSection(lines, OtherEntity) == 0
  }

  lemma WritableSectionsIff(lines: seq<Line>)
    requires AllWritable(lines) && WritableCounts(lines)
    ensures AmountFits(FormBalance(lines)) && SectionAllowed(Treasury, lines) && SectionAllowed(Inps, lines)
            && SectionAllowed(Regional, lines) && SectionAllowed(Local, lines)
        <==> LinesNonNegative(lines) && DebitTotal(lines) < Power(10, 15)
  {
    WritableSection(Treasury, lines);
    WritableSection(Inps, lines);
    WritableSection(Regional, lines);
    WritableSection(Local, lines);
    BalanceIsDebit(lines);
    SectionsOfWritable(lines);
    PowerPositive();
    hide *;
    hide AmountFits;
    AmountFitsMeans(FormBalance(lines));
  }

  lemma AmountFitsMeans(n: int)
    ensures AmountFits(n) <==> 0 <= n < Power(10, 15)
  {
    hide Power;
  }

  /** Rows of writable lines are those of the two sections. */
  lemma SectionsOfWritable(lines: seq<Line>)
    requires AllWritable(lines)
    ensures LinesNonNegative(lines) <==> LinesNonNegative(Of(lines, Treasury)) && LinesNonNegative(Of(lines, Inps))
    ensures LinesNonNegative(Of(lines, Regional)) && DebitTotal(Of(lines, Regional)) == 0
    ensures LinesNonNegative(Of(lines, Local)) && DebitTotal(Of(lines, Local)) == 0
    ensures LinesNonNegative(lines) ==>
              0 <= DebitTotal(Of(lines, Treasury)) <= DebitTotal(lines)
                && 0 <= DebitTotal(Of(lines, Inps)) <= DebitTotal(lines)
  {
    DebitsBySection(lines);
    OfWritable(lines, Treasury);
    OfWritable(lines, Inps);
    hide AllWritable;
    hide Of;
    if LinesNonNegative(Of(lines, Treasury)) && LinesNonNegative(Of(lines, Inps)) {
      NonNegativeBySection(lines);
      TotalNotNegative(Of(lines, Treasury));
      TotalNotNegative(Of(lines, Inps));
    }
  }

  /** A section of writable rows within its limit is written exactly when no row is negative and their total fits. */
  lemma WritableSection(section: Written, lines: seq<Line>)
    requires AllWritable(lines) && CountSection(lines, section) <= RowLimit(section)
    ensures SectionAllowed(section, lines)
            <==> LinesNonNegative(Of(lines, section)) && DebitTotal(Of(lines, section)) < Power(10, 15)
  {
    var own := Of(lines, section);
    hide Power;
    OfWritable(lines, section);
    NoCredits(own);
    PowerPositive();
    hide Of;
    hide DebitTotal;
    hide CreditTotal;
    hide Writable;
    forall i | 0 <= i < |own|
      ensures RowAllowed(own[i]) <==> own[i].debitAmount >= 0
    {
      WritableAllowed(own[i]);
    }
    hide RowAllowed;
  }

  lemma WritableAllowed(l: Line)
    requires Writable(l)
    ensures RowAllowed(l) <==> l.debitAmount >= 0
  {
    hide PlaceOk;
    hide PeriodFits;
    hide YearFits;
  }

  lemma BalanceIsDebit(lines: seq<Line>)
    requires AllWritable(lines)
    ensures FormBalance(lines) == DebitTotal(lines)
  {
    DebitsBySection(lines);
    OfWritable(lines, Treasury);
    OfWritable(lines, Inps);
    NoCredits(Of(lines, Treasury));
    NoCredits(Of(lines, Inps));
    hide AllWritable;
    hide Of;
  }

  // ---------- The rows of a schedule ----------

  predicate ItemOk(item: F24.Item) { PaysFor(item.rows) && DebtOk(item.debt) }

  lemma SectionItemsOk(codes: TaxCodes, scheme: Option<InpsScheme>, taxYear: int, single: bool)
    requires CodesOk(codes) && (scheme.Some? ==> SchemeOk(scheme.value)) && YearFits(taxYear) && YearFits(taxYear + 1)
    ensures forall i :: 0 <= i < |Items(SectionsOf(codes, scheme, taxYear, single))| ==>
              ItemOk(Items(SectionsOf(codes, scheme, taxYear, single))[i])
  {
    ItemsOfSections(codes, scheme, taxYear, single);
    hide Items;
    hide Power;
    hide AreDigits;
  }

  lemma {:induction false} PositiveItemsOk(items: seq<F24.Item>, amounts: Amounts)
    requires forall i :: 0 <= i < |items| ==> ItemOk(items[i])
    ensures forall i :: 0 <= i < |Positive(items, amounts)| ==> ItemOk(Positive(items, amounts)[i])
  {
    hide ItemOk;
    if items != [] {
      assert forall i :: 0 <= i < |items[1..]| ==> items[1..][i] == items[i + 1];
      PositiveItemsOk(items[1..], amounts);
    }
  }

  predicate ComponentsOk(cs: seq<Component>) {
    forall k :: 0 <= k < |cs| ==> PaysFor(cs[k].rows) && DebtOk(cs[k].debt)
  }

  lemma ScheduleComponentsOk(codes: TaxCodes, scheme: Option<InpsScheme>, taxYear: int, single: bool, amounts: Amounts,
                             t: Terms)
    requires CodesOk(codes) && (scheme.Some? ==> SchemeOk(scheme.value)) && YearFits(taxYear) && YearFits(taxYear + 1)
    requires ValidTerms(t)
    ensures ComponentsOk(Components(SectionsOf(codes, scheme, taxYear, single), amounts, t))
  {
    hide YearFits;
    hide ValidTerms;
    hide CodesOk;
    hide SchemeOk;
    hide PaysFor;
    hide DebtOk;
    SectionItemsOk(codes, scheme, taxYear, single);
    var items := Items(SectionsOf(codes, scheme, taxYear, single));
    PositiveItemsOk(items, amounts);
    hide SectionsOf;
    hide Items;
    hide Positive;
    hide PlanRows;
  }

  predicate EntryOk(e: InterestEntry) { PaysFor(e.rows) && YearFits(e.referenceYear) && PositionOk(e.positionCode) }

  lemma {:induction false} AddInterestOk(entries: seq<InterestEntry>, c: Component, amount: int)
    requires (forall k :: 0 <= k < |entries| ==> EntryOk(entries[k])) && PaysFor(c.rows) && DebtOk(c.debt)
    ensures forall k :: 0 <= k < |AddInterest(entries, c, amount)| ==> EntryOk(AddInterest(entries, c, amount)[k])
  {
    hide PaysFor;
    hide YearFits;
    hide PositionOk;
    if entries != [] {
      assert forall k :: 0 <= k < |entries[1..]| ==> entries[1..][k] == entries[k + 1];
      AddInterestOk(entries[1..], c, amount);
    }
  }

  lemma {:induction false} InterestEntriesOk(cs: seq<Component>, i: int, n: int)
    requires 0 <= i < n && AllShaped(cs, n) && ComponentsOk(cs)
    ensures forall k :: 0 <= k < |InterestEntries(cs, i, n)| ==> EntryOk(InterestEntries(cs, i, n)[k])
  {
    hide PaysFor;
    hide DebtOk;
    hide EntryOk;
    hide Shaped;
    hide AddInterest;
    if cs != [] {
      var before, last := cs[..|cs| - 1], cs[|cs| - 1];
      InterestEntriesOk(before, i, n);
      assert Shaped(last, n);
      InterestAddedOk(InterestEntries(before, i, n), last, i, n);
      hide AddedInterest;
    }
  }

  lemma InterestAddedOk(entries: seq<InterestEntry>, c: Component, i: int, n: int)
    requires 0 <= i < n && Shaped(c, n) && (forall k :: 0 <= k < |entries| ==> EntryOk(entries[k])) && PaysFor(c.rows)
             && DebtOk(c.debt)
    ensures forall k :: 0 <= k < |AddedInterest(entries, c, i)| ==> EntryOk(AddedInterest(entries, c, i)[k])
  {
    hide PaysFor;
    hide DebtOk;
    hide EntryOk;
    hide AddInterest;
    if AddsInterest(c, i) {
      AddInterestOk(entries, c, c.plan[i].interest + ShareWithInterest(c, i));
    }
  }

  lemma InstallmentCodeLength(number: int, total: int)
    requires 0 <= number < 100 && 0 <= total < 100
    ensures |InstallmentCode(number, total)| == 4
  {
    TwoSymbols(number);
    TwoSymbols(total);
    hide Pad2;
  }

  lemma FormLinesWritable(cs: seq<Component>, i: int, n: int)
    requires 0 <= i < n < 100 && AllShaped(cs, n) && ComponentsOk(cs)
    ensures AllWritable(FormLines(cs, i, n))
  {
    hide PaysFor;
    hide DebtOk;
    hide EntryOk;
    hide Shaped;
    hide Writable;
    hide DebtLine;
    hide InterestLine;
    InterestEntriesOk(cs, i, n);
    var entries := InterestEntries(cs, i, n);
    hide InterestEntries;
    var lines := FormLines(cs, i, n);
    forall k | 0 <= k < |lines|
      ensures Writable(lines[k])
    {
      if k < |cs| {
        assert Shaped(cs[k], n);
        DebtLineWritable(cs[k], i, n);
      } else {
        InterestLineWritable(entries[k - |cs|]);
      }
    }
  }

  lemma DebtLineWritable(c: Component, i: int, n: int)
    requires 0 <= i < n < 100 && Shaped(c, n) && PaysFor(c.rows) && DebtOk(c.debt)
    ensures Writable(DebtLine(c, i, n))
  {
    InstallmentCodeLength(i + 1, n);
    hide InstallmentCode;
    hide YearFits;
    hide MakeLine;
    hide Writable;
    hide SurchargeShare;
    var installment :=
      if c.rows.section.Treasury?
        then Some(if n == 1 then SINGLE_PAYMENT_INSTALLMENT_CODE else InstallmentCode(i + 1, n)) else None;
    assert |installment.GetOr("0000")| <= 4;
    MadeLineIsWritable(c.rows, c.debt.role, c.debt.code, c.debt.referenceYear,
                       c.plan[i].principal - ShareWithInterest(c, i), installment,
                       c.debt.positionCode,
                       if !c.rows.surchargeWithInterest && SurchargeShare(c, i) > 0
                         then Some(SurchargeShare(c, i)) else None);
  }

  lemma InterestLineWritable(e: InterestEntry)
    requires EntryOk(e)
    ensures Writable(InterestLine(e))
  {
    hide YearFits;
    hide MakeLine;
    hide Writable;
    MadeLineIsWritable(e.rows, InterestRow, e.rows.interestCode, e.referenceYear, e.amount, None, e.positionCode, None);
  }

  lemma {:induction false} DatesUpToEnd(year: int, month: int, installmentDay: int, end: MonthDay)
    ensures |DueDatesFrom(year, month, installmentDay, end)| <= if month <= end.month then end.month - month + 1 else 0
    decreases if month <= end.month then end.month - month + 1 else 0
  {
    hide DueDate;
    hide UtcDate;
    if month <= end.month {
      DatesUpToEnd(year, month + 1, installmentDay, end);
    }
  }

  lemma AtMostTwelve(t: Terms)
    requires ValidTerms(t) && t.end.month <= 12
    ensures t.installments <= 12
  {
    DatesUpToEnd(YearOf(t.first), MonthOf(t.first) + 1, t.installmentDay, t.end);
    hide DueDatesFrom;
    hide Limit;
    hide YearOf;
    hide MonthOf;
  }

  /** The codes that the rules and the profile put on the rows fit the file. */
  predicate CodesFit(fiscalCode: string, date: Day, codes: TaxCodes, scheme: Option<InpsScheme>, taxYear: int) {
    && |fiscalCode| <= 16 && YearFits(YearOf(date)) && YearFits(taxYear) && YearFits(taxYear + 1)
    && CodesOk(codes) && (scheme.Some? ==> SchemeOk(scheme.value))
  }

  lemma InstallmentFormAcceptedByRows(
    fiscalCode: string, date: Day, codes: TaxCodes, scheme: Option<InpsScheme>, taxYear: int, single: bool,
    amounts: Amounts, t: Terms, i: nat)
    requires CodesFit(fiscalCode, date, codes, scheme, taxYear) && ValidTerms(t) && t.end.month <= 12
    requires i < |InstallmentForms(CheckedComponents(SectionsOf(codes, scheme, taxYear, single), amounts, t),
                                   t.installments)|
    ensures var lines := FormLines(CheckedComponents(SectionsOf(codes, scheme, taxYear, single), amounts, t), i,
                                   t.installments);
            && InstallmentForms(CheckedComponents(SectionsOf(codes, scheme, taxYear, single), amounts, t),
                                t.installments)[i].lines == lines
            && (FormOk(fiscalCode, date, lines) <==> LinesNonNegative(lines) && DebitTotal(lines) < Power(10, 15))
  {
    hide YearFits;
    hide SchemeOk;
    hide CodesOk;
    hide FormOk;
    hide Power;
    hide YearOf;
    AtMostTwelve(t);
    InstallmentFormsFit(codes, scheme, taxYear, single, amounts, t, i);
    ScheduleComponentsOk(codes, scheme, taxYear, single, amounts, t);
    var cs := CheckedComponents(SectionsOf(codes, scheme, taxYear, single), amounts, t);
    FormLinesWritable(cs, i, t.installments);
    var lines := FormLines(cs, i, t.installments);
    hide FormLines;
    hide SectionsOf;
    hide ValidTerms;
    hide LinesNonNegative;
    hide AllWritable;
    WritableFormAcceptedIff(fiscalCode, date, lines);
  }

  /** With codes that fit, an installment form is accepted exactly when every debt's principal is not negative, nor what
      it adds to an interest row, and what the form takes has at most fifteen digits: formulas of amounts, installments
      and rates. */
  lemma InstallmentFormAcceptedIff(
    fiscalCode: string, date: Day, codes: TaxCodes, scheme: Option<InpsScheme>, taxYear: int, single: bool,
    amounts: Amounts, t: Terms, i: nat)
    requires CodesFit(fiscalCode, date, codes, scheme, taxYear) && ValidTerms(t) && t.end.month <= 12
    requires i < |InstallmentForms(CheckedComponents(SectionsOf(codes, scheme, taxYear, single), amounts, t),
                                   t.installments)|
    ensures var f := InstallmentForms(CheckedComponents(SectionsOf(codes, scheme, taxYear, single), amounts, t),
                                      t.installments)[i];
            var dues := DuesOf(SectionsOf(codes, scheme, taxYear, single), amounts);
            FormOk(fiscalCode, date, f.lines) <==> AllPartsFit(dues, t, i) && TakenOfAll(dues, t, i) < Power(10, 15)
  {
    var sections := SectionsOf(codes, scheme, taxYear, single);
    var cs, dues := CheckedComponents(sections, amounts, t), DuesOf(sections, amounts);
    assert cs == Components(sections, amounts, t) && t.installments >= 1;
    assert i < t.installments;
    hide *;
    InstallmentFormAcceptedByRows(fiscalCode, date, codes, scheme, taxYear, single, amounts, t, i);
    OneDebtEachOfSections(codes, scheme, taxYear, single, amounts, t);
    ComponentsComeFromDues(sections, amounts, t);
    FormNonNegativeIff(cs, dues, t, i);
    FormTakes(cs, dues, t, i);
  }

  predicate AllFormsOk(fiscalCode: string, date: Day, forms: seq<Draft>) {
    forall i :: 0 <= i < |forms| ==> FormOk(fiscalCode, date, forms[i].lines)
  }

  predicate AllTakenFit(dues: seq<Due>, t: Terms)
    requires t.installments >= 1
  {
    forall i :: 0 <= i < t.installments ==> TakenOfAll(dues, t, i) < Power(10, 15)
  }

  predicate SchedulePartsFit(dues: seq<Due>, t: Terms)
    requires t.installments >= 1
  {
    forall i :: 0 <= i < t.installments ==> AllPartsFit(dues, t, i)
  }

  lemma ScheduleAcceptedByForms(
    fiscalCode: string, date: Day, codes: TaxCodes, scheme: Option<InpsScheme>, taxYear: int, single: bool,
    amounts: Amounts, t: Terms)
    requires CodesFit(fiscalCode, date, codes, scheme, taxYear) && ValidTerms(t) && t.end.month <= 12
    requires DuesOf(SectionsOf(codes, scheme, taxYear, single), amounts) != []
    ensures var forms := InstallmentForms(CheckedComponents(SectionsOf(codes, scheme, taxYear, single), amounts, t),
                                          t.installments);
            var dues := DuesOf(SectionsOf(codes, scheme, taxYear, single), amounts);
            AllFormsOk(fiscalCode, date, forms) <==> SchedulePartsFit(dues, t) && AllTakenFit(dues, t)
  {
    var sections := SectionsOf(codes, scheme, taxYear, single);
    var cs, dues := CheckedComponents(sections, amounts, t), DuesOf(sections, amounts);
    var forms := InstallmentForms(cs, t.installments);
    assert |cs| == |dues|;
    assert |forms| == t.installments;
    hide InstallmentForms;
    hide SectionsOf;
    hide DuesOf;
    hide ValidTerms;
    hide CodesFit;
    hide FormOk;
    hide AllPartsFit;
    hide TakenOfAll;
    hide Power;
    forall i | 0 <= i < t.installments
      ensures FormOk(fiscalCode, date, forms[i].lines)
              <==> AllPartsFit(dues, t, i) && TakenOfAll(dues, t, i) < Power(10, 15)
    {
      InstallmentFormAcceptedIff(fiscalCode, date, codes, scheme, taxYear, single, amounts, t, i);
    }
  }

  /** The whole schedule: with percentages that are not negative only the last installment of a debt can be refused. */
  lemma ScheduleAcceptedIff(
    fiscalCode: string, date: Day, codes: TaxCodes, scheme: Option<InpsScheme>, taxYear: int, single: bool,
    amounts: Amounts, t: Terms)
    requires CodesFit(fiscalCode, date, codes, scheme, taxYear) && ValidTerms(t) && t.end.month <= 12 && PlainRates(t)
    ensures var forms := InstallmentForms(CheckedComponents(SectionsOf(codes, scheme, taxYear, single), amounts, t),
                                          t.installments);
            var dues := DuesOf(SectionsOf(codes, scheme, taxYear, single), amounts);
            AllFormsOk(fiscalCode, date, forms) <==> AllPartsFit(dues, t, t.installments - 1) && AllTakenFit(dues, t)
  {
    var sections := SectionsOf(codes, scheme, taxYear, single);
    var cs, dues := CheckedComponents(sections, amounts, t), DuesOf(sections, amounts);
    assert |cs| == |dues| && t.installments >= 1;
    if dues == [] {
      NoDues(t);
      assert InstallmentForms(cs, t.installments) == [];
      hide AllPartsFit;
      hide FormOk;
    } else {
      hide *;
      ScheduleAcceptedByForms(fiscalCode, date, codes, scheme, taxYear, single, amounts, t);
      SchedulePartsFitIff(dues, t);
    }
  }

  lemma SchedulePartsFitIff(dues: seq<Due>, t: Terms)
    requires t.installments >= 1 && PlainRates(t) && forall k :: 0 <= k < |dues| ==> dues[k].amount >= 0
    ensures SchedulePartsFit(dues, t) <==> AllPartsFit(dues, t, t.installments - 1)
  {
    hide AllPartsFit;
    hide PlainRates;
    forall i | 0 <= i < t.installments - 1
      ensures AllPartsFit(dues, t, i)
    {
      EarlierPartsFit(dues, t, i);
    }
  }

  lemma NoDues(t: Terms)
    requires t.installments >= 1
    ensures forall i :: AllPartsFit([], t, i)
    ensures forall i :: TakenOfAll([], t, i) < Power(10, 15)
  {
    PowerPositive();
  }

  lemma EarlierPartsFit(dues: seq<Due>, t: Terms, i: int)
    requires 0 <= i < t.installments - 1 && PlainRates(t) && forall k :: 0 <= k < |dues| ==> dues[k].amount >= 0
    ensures AllPartsFit(dues, t, i)
  {
    hide OwnPart;
    hide InterestPart;
    hide MovedPart;
    hide PlainRates;
    forall k | 0 <= k < |dues|
      ensures PartsFit(dues[k], t, i)
    {
      EarlierPartsNonNegative(dues[k], t, i);
    }
  }

  /** Amounts above the bound of a schedule that loses nothing are accepted too. */
  lemma LargeAmountsAreAccepted(
    fiscalCode: string, date: Day, codes: TaxCodes, scheme: Option<InpsScheme>, taxYear: int, single: bool,
    amounts: Amounts, t: Terms, i: nat)
    requires CodesFit(fiscalCode, date, codes, scheme, taxYear) && ValidTerms(t) && t.end.month <= 12 && PlainRates(t)
    requires var dues := DuesOf(SectionsOf(codes, scheme, taxYear, single), amounts);
             && (forall k :: 0 <= k < |dues| ==> LargeEnough(dues[k].amount, t))
             && i < t.installments && TakenOfAll(dues, t, i) < Power(10, 15)
    requires i < |InstallmentForms(CheckedComponents(SectionsOf(codes, scheme, taxYear, single), amounts, t),
                                   t.installments)|
    ensures var forms := InstallmentForms(CheckedComponents(SectionsOf(codes, scheme, taxYear, single), amounts, t),
                                          t.installments);
            FormOk(fiscalCode, date, forms[i].lines)
  {
    var dues := DuesOf(SectionsOf(codes, scheme, taxYear, single), amounts);
    hide *;
    LargePartsFit(dues, t, i);
    InstallmentFormAcceptedIff(fiscalCode, date, codes, scheme, taxYear, single, amounts, t, i);
  }

  lemma LargePartsFit(dues: seq<Due>, t: Terms, i: int)
    requires 0 <= i < t.installments && PlainRates(t)
    requires forall k :: 0 <= k < |dues| ==> dues[k].amount >= 0 && LargeEnough(dues[k].amount, t)
    ensures AllPartsFit(dues, t, i)
  {
    hide OwnPart;
    hide InterestPart;
    hide MovedPart;
    hide PlainRates;
    hide LargeEnough;
    forall k | 0 <= k < |dues|
      ensures PartsFit(dues[k], t, i)
    {
      LargePartsNonNegative(dues[k], t, i);
    }
  }

  // ---------- Small amounts are refused ----------

  /** A residual of 3 cents of tax in six installments leaves the last one -2 cents, and one of 3.74 euro of INPS an
      interest row of -3: neither last form is accepted, whatever the codes. */
  lemma SmallAmountsAreRefused(fiscalCode: string, date: Day, codes: TaxCodes, scheme: InpsScheme, tax: bool)
    requires CodesFit(fiscalCode, date, codes, Some(scheme), 2025)
    ensures ValidTerms(July2026())
    ensures var amounts := if tax then Amounts(3, 0, 0, 0, 0, 0) else Amounts(0, 0, 0, 374, 0, 0);
            var forms := InstallmentForms(CheckedComponents(SectionsOf(codes, Some(scheme), 2025, false), amounts,
                                                            July2026()), 6);
            |forms| == 6 && !FormOk(fiscalCode, date, forms[5].lines)
  {
    var t := July2026();
    TermsOf30July2026(t);
    var amounts := if tax then Amounts(3, 0, 0, 0, 0, 0) else Amounts(0, 0, 0, 374, 0, 0);
    var sections := SectionsOf(codes, Some(scheme), 2025, false);
    OnlyTaxBalance(codes, scheme, 2025, false, 3);
    OnlyInpsBalance(codes, scheme, 2025, false, 374);
    var dues, cs := DuesOf(sections, amounts), CheckedComponents(sections, amounts, t);
    assert |dues| == 1 && |cs| == |dues| && t.installments == 6 && t.end.month == 12;
    assert |InstallmentForms(cs, 6)| == 6;
    if tax {
      PartsOf3(dues[0].rows, t);
    } else {
      PartsOf374(dues[0].rows, t);
    }
    assert !PartsFit(dues[0], t, 5);
    NotAllPartsFit(dues, t, 5);
    hide *;
    InstallmentFormAcceptedIff(fiscalCode, date, codes, Some(scheme), 2025, false, amounts, t, 5);
  }

  lemma NotAllPartsFit(dues: seq<Due>, t: Terms, i: int)
    requires t.installments >= 1 && |dues| == 1 && !PartsFit(dues[0], t, i)
    ensures !AllPartsFit(dues, t, i)
  {
    hide PartsFit;
  }

  lemma PartsOf3(rows: SectionRows, t: Terms)
    requires !rows.surchargeWithInterest && t.surchargePct == 40 && t.installments == 6
    ensures OwnPart(Due(rows, 3), t, 5) == -2
  {
    assert Surcharged(3, 40) == 3;
    assert RoundDiv(3, 6) == 1;
  }

  lemma PartsOf374(rows: SectionRows, t: Terms)
    requires rows.surchargeWithInterest && t.surchargePct == 40 && t.installments == 6 && Rate(t, 5) == 150
    ensures InterestPart(Due(rows, 374), t, 5) == 1 && MovedPart(Due(rows, 374), t, 5) == -4
  {
    hide Rate;
    assert Surcharged(374, 40) == 375;
    assert RoundDiv(375, 6) == 63 && RoundDiv(374, 6) == 62;
    assert Principal(375, 6, 5) == 60 && Principal(374, 6, 5) == 64;
    assert InterestOf(60, 150) == 1;
  }

  predicate SecondOk(rows: SectionRows) {
    PaysFor(rows) && (rows.secondAdvance.Some? ==> DebtOk(rows.secondAdvance.value))
  }

  lemma {:induction false} SecondLinesWritable(sections: seq<SectionRows>, amounts: Amounts)
    requires forall k :: 0 <= k < |sections| ==> SecondOk(sections[k])
    ensures AllWritable(SecondLines(sections, amounts)) && LinesNonNegative(SecondLines(sections, amounts))
  {
    hide YearFits;
    hide Writable;
    hide PaysFor;
    hide Amounts.Get;
    hide PeriodFits;
    if sections != [] {
      var rows := sections[0];
      assert SecondOk(rows);
      assert forall k :: 0 <= k < |sections[1..]| ==> sections[1..][k] == sections[k + 1];
      SecondLinesWritable(sections[1..], amounts);
      if rows.secondAdvance.Some? {
        var d := rows.secondAdvance.value;
        MadeLineIsWritable(rows, d.role, d.code, d.referenceYear, amounts.Get(d.key), None, d.positionCode, None);
      }
    }
  }

  lemma SectionsSecondOk(codes: TaxCodes, scheme: Option<InpsScheme>, taxYear: int, single: bool)
    requires CodesOk(codes) && (scheme.Some? ==> SchemeOk(scheme.value)) && YearFits(taxYear) && YearFits(taxYear + 1)
    ensures forall k :: 0 <= k < |SectionsOf(codes, scheme, taxYear, single)| ==>
            SecondOk(SectionsOf(codes, scheme, taxYear, single)[k])
  {
    hide Power;
    hide AreDigits;
  }

  /** The form of the second advances, whose rows are all positive, is accepted exactly when its total has at most
      fifteen digits. */
  lemma SecondFormAcceptedIff(
    fiscalCode: string, date: Day, codes: TaxCodes, scheme: Option<InpsScheme>, taxYear: int, single: bool,
    amounts: Amounts)
    requires CodesFit(fiscalCode, date, codes, scheme, taxYear)
    ensures var lines := SecondLines(SectionsOf(codes, scheme, taxYear, single), amounts);
            FormOk(fiscalCode, date, lines) <==> DebitTotal(lines) < Power(10, 15)
  {
    assert CodesOk(codes) && (scheme.Some? ==> SchemeOk(scheme.value)) && YearFits(taxYear) && YearFits(taxYear + 1);
    assert |fiscalCode| <= 16 && YearFits(YearOf(date));
    hide *;
    SectionsSecondOk(codes, scheme, taxYear, single);
    SecondFormsFit(codes, scheme, taxYear, single, amounts);
    SecondLinesWritable(SectionsOf(codes, scheme, taxYear, single), amounts);
    WritableFormAcceptedIff(fiscalCode, date, SecondLines(SectionsOf(codes, scheme, taxYear, single), amounts));
  }
}
