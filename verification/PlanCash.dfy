/** What a saved plan takes in cash and credits, against what the return says is due. */
module PlanCash {
  import opened CreditOffset
  import opened Dates
  import opened F24
  import opened Installments
  import opened Planner
  import opened Rounding
  import opened Schedule
  import opened ScheduleForms
  import opened ScheduleInputs
  import opened ScheduleLaws
  import opened Wrappers
  import Calendar

  /** Balances and first advances due; those of a scheme that is not computed are not paid here. */
  function DebtsDue(a: Amounts, inps: bool): int {
    Max(0, a.taxBalance) + Max(0, a.taxFirstAdvance)
      + if inps then Max(0, a.inpsBalance) + Max(0, a.inpsFirstAdvance) else 0
  }

  function SecondAdvancesDue(a: Amounts, inps: bool): int {
    Max(0, a.taxSecondAdvance) + if inps then Max(0, a.inpsSecondAdvance) else 0
  }

  function CashOf(forms: seq<Draft>): int {
    if forms == [] then 0
    else CashOf(forms[..|forms| - 1]) + forms[|forms| - 1].totalDebit - forms[|forms| - 1].totalCredit
  }

  lemma {:induction false} CashAppend(s: seq<Draft>, t: seq<Draft>)
    ensures CashOf(s + t) == CashOf(s) + CashOf(t)
  {
    if t == [] {
      assert s + t == s;
    } else {
      assert (s + t)[..|s + t| - 1] == s + t[..|t| - 1];
      CashAppend(s, t[..|t| - 1]);
    }
  }

  lemma {:induction false} CashWithoutCredits(forms: seq<Draft>)
    requires forall i :: 0 <= i < |forms| ==> forms[i].totalCredit == 0
    ensures CashOf(forms) == DebitsOf(forms)
  {
    if forms != [] {
      CashWithoutCredits(forms[..|forms| - 1]);
    }
  }

  lemma {:induction false} NoCreditAmounts(lines: seq<Line>)
    requires forall i :: 0 <= i < |lines| ==> lines[i].CreditOrZero() == 0
    ensures CreditTotal(lines) == 0
  {
    if lines != [] {
      NoCreditAmounts(lines[1..]);
    }
  }

  lemma FormsWithoutCredits(cs: seq<Component>, n: int)
    requires n >= 1 && AllShaped(cs, n)
    ensures forall i :: 0 <= i < |InstallmentForms(cs, n)| ==> InstallmentForms(cs, n)[i].totalCredit == 0
  {
    forall i | 0 <= i < |InstallmentForms(cs, n)|
      ensures InstallmentForms(cs, n)[i].totalCredit == 0
    {
      NoCreditAmounts(DebtLines(cs, i, n));
      NoCreditAmounts(InterestLines(InterestEntries(cs, i, n)));
      TotalsAppend(DebtLines(cs, i, n), InterestLines(InterestEntries(cs, i, n)));
      hide DebtLines;
      hide InterestLines;
    }
    hide InstallmentForms;
  }

  // ---------- Second advances ----------

  lemma SecondLinesTotal(codes: TaxCodes, scheme: Option<InpsScheme>, taxYear: int, single: bool, amounts: Amounts)
    ensures var lines := SecondLines(SectionsOf(codes, scheme, taxYear, single), amounts);
            DebitTotal(lines) == SecondAdvancesDue(amounts, scheme.Some?) && CreditTotal(lines) == 0
  {
    var sections := SectionsOf(codes, scheme, taxYear, single);
    var t := TreasuryRows(codes, taxYear);
    assert sections == [t] + ContributionRows(scheme, taxYear, single);
    OneSecondLine(t, sections[1..], amounts);
    assert sections == [t] + sections[1..];
    match scheme {
      case None =>
        assert sections[1..] == [];
      case Some(s) =>
        var i := InpsRows(s, taxYear, single);
        assert sections[1..] == [i] + [];
        OneSecondLine(i, [], amounts);
    }
    hide MakeLine;
    hide SecondLines;
  }

  lemma OneSecondLine(rows: SectionRows, rest: seq<SectionRows>, amounts: Amounts)
    requires rows.secondAdvance.Some?
    ensures DebitTotal(SecondLines([rows] + rest, amounts))
         == DebitTotal(SecondLines(rest, amounts)) + Max(0, amounts.Get(rows.secondAdvance.value.key))
    ensures CreditTotal(SecondLines([rows] + rest, amounts)) == CreditTotal(SecondLines(rest, amounts))
    ensures DebitTotal(SecondLines([], amounts)) == CreditTotal(SecondLines([], amounts)) == 0
  {
    hide Amounts.Get;
    var lines, others := SecondLines([rows] + rest, amounts), SecondLines(rest, amounts);
    assert ([rows] + rest)[1..] == rest;
    if amounts.Get(rows.secondAdvance.value.key) > 0 {
      assert lines[1..] == others;
    } else {
      assert lines == others;
    }
  }

  lemma SecondFormsCash(codes: TaxCodes, scheme: Option<InpsScheme>, taxYear: int, single: bool, amounts: Amounts,
                        date: Day)
    ensures CashOf(SecondForms(SectionsOf(codes, scheme, taxYear, single), amounts, date))
            == SecondAdvancesDue(amounts, scheme.Some?)
  {
    SecondLinesTotal(codes, scheme, taxYear, single, amounts);
    hide SectionsOf;
    hide SecondLines;
    var sections := SectionsOf(codes, scheme, taxYear, single);
    var lines := SecondLines(sections, amounts);
    if lines != [] {
      var f := MakeForm(SecondAdvanceForm, date, lines, None);
      assert [f][..0] == [];
      assert CashOf([f]) == f.totalDebit - f.totalCredit;
    }
  }

  // ---------- Debts and residuals ----------

  lemma {:induction false} PositiveAppend(s: seq<Item>, x: Item, amounts: Amounts)
    ensures Positive(s + [x], amounts) == if amounts.Get(x.debt.key) > 0
            then Positive(s, amounts) + [x] else Positive(s, amounts)
  {
    hide Amounts.Get;
    if s == [] {
      assert [] + [x] == [x] && [x][1..] == [];
    } else {
      assert (s + [x])[1..] == s[1..] + [x];
      PositiveAppend(s[1..], x, amounts);
    }
  }

  function AmountTotals(cs: seq<Component>): int {
    if cs == [] then 0 else AmountTotals(cs[..|cs| - 1]) + cs[|cs| - 1].amount
  }

  lemma {:induction false} AmountsOfPositive(items: seq<Item>, amounts: Amounts, cs: seq<Component>)
    requires var p := Positive(items, amounts);
             |cs| == |p| && forall k :: 0 <= k < |cs| ==> cs[k].amount == amounts.Get(p[k].debt.key)
    ensures AmountTotals(cs) == DebtsBefore(items, amounts, |items|)
  {
    hide Amounts.Get;
    if items != [] {
      var front, last := items[..|items| - 1], items[|items| - 1];
      assert items == front + [last];
      PositiveAppend(front, last, amounts);
      DebtsBeforePrefix(items, front, amounts, |front|);
      if amounts.Get(last.debt.key) > 0 {
        AmountsOfPositive(front, amounts, cs[..|cs| - 1]);
      } else {
        AmountsOfPositive(front, amounts, cs);
      }
    }
  }

  lemma {:induction false} DebtsBeforePrefix(items: seq<Item>, front: seq<Item>, amounts: Amounts, k: int)
    requires 0 <= k <= |front| <= |items| && front == items[..|front|]
    ensures DebtsBefore(items, amounts, k) == DebtsBefore(front, amounts, k)
  {
    hide Amounts.Get;
    if k > 0 {
      DebtsBeforePrefix(items, front, amounts, k - 1);
    }
  }

  lemma DebtsOfKeys(items: seq<Item>, amounts: Amounts)
    ensures |items| == 2 ==> DebtsBefore(items, amounts, 2)
                             == Max(0, amounts.Get(items[0].debt.key)) + Max(0, amounts.Get(items[1].debt.key))
    ensures |items| == 4 ==> DebtsBefore(items, amounts, 4)
                             == Max(0, amounts.Get(items[0].debt.key)) + Max(0, amounts.Get(items[1].debt.key))
                                + Max(0, amounts.Get(items[2].debt.key)) + Max(0, amounts.Get(items[3].debt.key))
  {
    hide Amounts.Get;
    if |items| == 2 || |items| == 4 {
      assert DebtsBefore(items, amounts, 1) == DebtsBefore(items, amounts, 0) + Max(0, amounts.Get(items[0].debt.key));
      assert DebtsBefore(items, amounts, 2)
             == Max(0, amounts.Get(items[0].debt.key)) + Max(0, amounts.Get(items[1].debt.key));
    }
  }

  lemma DebtsDueOfItems(codes: TaxCodes, scheme: Option<InpsScheme>, taxYear: int, order: Order, single: bool,
                        amounts: Amounts)
    ensures var items := OrderedItems(codes, scheme, taxYear, order);
            DebtsBefore(items, amounts, |items|) == DebtsDue(amounts, scheme.Some?)
    ensures var items := Items(SectionsOf(codes, scheme, taxYear, single));
            DebtsBefore(items, amounts, |items|) == DebtsDue(amounts, scheme.Some?)
  {
    OrderedItemsList(codes, scheme, taxYear, order);
    DebtsOfKeys(OrderedItems(codes, scheme, taxYear, order), amounts);
    ItemsOfSections(codes, scheme, taxYear, single);
    DebtsOfKeys(Items(SectionsOf(codes, scheme, taxYear, single)), amounts);
    hide OrderedItems;
    hide SectionsOf;
    hide Items;
    hide DebtsBefore;
  }

  lemma OrderedItemsList(codes: TaxCodes, scheme: Option<InpsScheme>, taxYear: int, order: Order)
    ensures var items := OrderedItems(codes, scheme, taxYear, order);
            if scheme.None? then
              |items| == 2 && items[0].debt.key.TaxBalance? && items[1].debt.key.TaxFirstAdvance?
            else if order.TaxFirst? then
              && |items| == 4 && items[0].debt.key.TaxBalance? && items[1].debt.key.TaxFirstAdvance?
              && items[2].debt.key.InpsBalance? && items[3].debt.key.InpsFirstAdvance?
            else
              && |items| == 4 && items[0].debt.key.InpsBalance? && items[1].debt.key.InpsFirstAdvance?
              && items[2].debt.key.TaxBalance? && items[3].debt.key.TaxFirstAdvance?
  {
    var t := TreasuryRows(codes, taxYear);
    match scheme {
      case None =>
        assert [t] + [] == [t] && [] + [t] == [t];
        ItemsOfOne(t);
      case Some(s) =>
        var i := InpsRows(s, taxYear, true);
        ItemsOfTwo(t, i);
        ItemsOfTwo(i, t);
    }
    hide Items;
  }

  lemma {:induction false} ResidualDebts(
    o: Outcome, items: seq<Item>, amounts: Amounts, credits: seq<AvailableCredit>, office: string, date: Day, k: int)
    requires IsOutcome(o, items, amounts, credits, office, date) && TotalCredit(credits) > 0 && 0 <= k <= |items|
    ensures DebtsBefore(items, o.amounts, k)
         == DebtsBefore(items, amounts, k) - Min(TotalCredit(credits), DebtsBefore(items, amounts, k))
  {
    hide IsOutcome;
    hide Amounts.Get;
    hide TotalCredit;
    if k > 0 {
      ResidualDebts(o, items, amounts, credits, office, date, k - 1);
      ResidualOf(o, items, amounts, credits, office, date, k - 1);
    }
  }

  // ---------- The whole plan ----------

  /** Surcharge and interest charged on what is left after the credits. */
  function ChargesOf(cs: seq<Component>, surchargePct: int, n: int): int
    requires AllShaped(cs, n) && n >= 1
  {
    if cs == [] then 0
    else
      var c := cs[|cs| - 1];
      ChargesOf(cs[..|cs| - 1], surchargePct, n) + Surcharged(c.amount, surchargePct) - c.amount + InterestTotal(c, n)
  }

  lemma {:induction false} PlanTotalIs(c: Component, charged: int, n: int, k: int)
    requires n >= 1 && HasPrincipals(c, charged, n) && 0 <= k <= n
    ensures PlanTotal(c, k) == PrincipalUpTo(charged, n, k) + InterestTotal(c, k)
  {
    hide Principal;
    if k > 0 {
      PlanTotalIs(c, charged, n, k - 1);
    }
  }

  lemma {:induction false} PlanTotalsAre(cs: seq<Component>, surchargePct: int, n: int)
    requires n >= 1 && AllShaped(cs, n)
    requires forall k :: 0 <= k < |cs| ==> HasPrincipals(cs[k], Surcharged(cs[k].amount, surchargePct), n)
    ensures PlanTotals(cs, n, n) == AmountTotals(cs) + ChargesOf(cs, surchargePct, n)
  {
    hide HasPrincipals;
    hide Surcharged;
    if cs != [] {
      var last := cs[|cs| - 1];
      PlanTotalsAre(cs[..|cs| - 1], surchargePct, n);
      PlanTotalIs(last, Surcharged(last.amount, surchargePct), n, n);
      PrincipalUpToIs(Surcharged(last.amount, surchargePct), n, n);
      hide PlanTotal;
      hide PrincipalUpTo;
      hide InterestTotal;
    }
  }

  lemma ScheduleCashByRows(codes: TaxCodes, scheme: Option<InpsScheme>, taxYear: int, amounts: Amounts, t: Terms)
    requires ValidTerms(t)
    ensures var sections, n := SectionsOf(codes, scheme, taxYear, t.installments == 1), t.installments;
            var cs := CheckedComponents(sections, amounts, t);
            var expected := DebtsDue(amounts, scheme.Some?) + ChargesOf(cs, t.surchargePct, n)
              + SecondAdvancesDue(amounts, scheme.Some?);
            && CashOf(Forms(sections, amounts, t)) >= expected
            && (CashOf(Forms(sections, amounts, t)) == expected <==> NothingLost(cs, n, n))
  {
    var single := t.installments == 1;
    var sections, n := SectionsOf(codes, scheme, taxYear, single), t.installments;
    var cs := CheckedComponents(sections, amounts, t);
    SecondFormsCash(codes, scheme, taxYear, single, amounts, t.secondAdvanceDate);
    DebtsDueOfItems(codes, scheme, taxYear, TaxFirst, single, amounts);
    hide SectionsOf;
    hide OrderedItems;
    AmountsOfComponents(sections, amounts, t);
    hide ValidTerms;
    hide Items;
    FormsWithoutCredits(cs, n);
    CashWithoutCredits(InstallmentForms(cs, n));
    CashAppend(InstallmentForms(cs, n), SecondForms(sections, amounts, t.secondAdvanceDate));
    FormsTakeThePlans(cs, n);
    hide InstallmentForms;
    hide SecondForms;
    hide NothingLost;
    hide DebtsDue;
    hide SecondAdvancesDue;
  }

  /** The cash of the schedule: what is left to pay, the surcharge on it only, its interest and the second advances. It
      is never less, and is exactly that if and only if every debt keeps its interest and moved share. */
  lemma ScheduleCash(codes: TaxCodes, scheme: Option<InpsScheme>, taxYear: int, amounts: Amounts, t: Terms)
    requires ValidTerms(t)
    ensures var sections, n := SectionsOf(codes, scheme, taxYear, t.installments == 1), t.installments;
            var cs := CheckedComponents(sections, amounts, t);
            var expected := DebtsDue(amounts, scheme.Some?) + ChargesOf(cs, t.surchargePct, n)
              + SecondAdvancesDue(amounts, scheme.Some?);
            && CashOf(Forms(sections, amounts, t)) >= expected
            && (CashOf(Forms(sections, amounts, t)) == expected <==> AllKept(DuesOf(sections, amounts), t))
  {
    var sections := SectionsOf(codes, scheme, taxYear, t.installments == 1);
    var cs := CheckedComponents(sections, amounts, t);
    assert cs == Components(sections, amounts, t) && t.installments >= 1;
    hide *;
    ScheduleCashByRows(codes, scheme, taxYear, amounts, t);
    ComponentsComeFromDues(sections, amounts, t);
    NothingLostIff(cs, DuesOf(sections, amounts), t);
  }

  lemma AmountsOfComponents(sections: seq<SectionRows>, amounts: Amounts, t: Terms)
    requires ValidTerms(t)
    ensures var cs, n := CheckedComponents(sections, amounts, t), t.installments;
            PlanTotals(cs, n, n) == DebtsBefore(Items(sections), amounts, |Items(sections)|)
              + ChargesOf(cs, t.surchargePct, n)
  {
    var cs, n := CheckedComponents(sections, amounts, t), t.installments;
    AmountsOfPositive(Items(sections), amounts, cs);
    hide Items;
    forall k | 0 <= k < |cs|
      ensures HasPrincipals(cs[k], Surcharged(cs[k].amount, t.surchargePct), n)
    {
      ComponentHasPrincipals(sections, amounts, t, k);
    }
    hide HasPrincipals;
    hide ValidTerms;
    hide CheckedComponents;
    PlanTotalsAre(cs, t.surchargePct, n);
  }

  /** Cash paid over all the forms plus the credits used are the amounts due, the surcharge on the residual only and the
      interest; never less, and exactly that if and only if every residual debt keeps its interest and moved share. */
  lemma PlanConserves(codes: TaxCodes, scheme: Option<InpsScheme>, taxYear: int, order: Order, due: Amounts,
                      credits: seq<AvailableCredit>, office: string, t: Terms, o: Outcome)
    requires ValidTerms(t)
    requires IsOutcome(o, OrderedItems(codes, scheme, taxYear, order), due, credits, office, t.first)
    ensures var sections, n := SectionsOf(codes, scheme, taxYear, t.installments == 1), t.installments;
            var cs := CheckedComponents(sections, o.amounts, t);
            var forms := (if o.form.Some? then [o.form.value] else []) + Forms(sections, o.amounts, t);
            var expected := DebtsDue(due, scheme.Some?) + SecondAdvancesDue(due, scheme.Some?)
              + ChargesOf(cs, t.surchargePct, n);
            && CashOf(forms) + UsedTotal(o.usages) >= expected
            && (CashOf(forms) + UsedTotal(o.usages) == expected <==> AllKept(DuesOf(sections, o.amounts), t))
  {
    var items := OrderedItems(codes, scheme, taxYear, order);
    var single := t.installments == 1;
    var sections := SectionsOf(codes, scheme, taxYear, single);
    DueAfterCredits(codes, scheme, taxYear, order, due, credits, office, t.first, o);
    CompensationBalances(o, items, due, credits, office, t.first);
    ScheduleCash(codes, scheme, taxYear, o.amounts, t);
    hide IsOutcome;
    hide OrderedItems;
    hide SectionsOf;
    hide AllKept;
    hide DebtsDue;
    hide SecondAdvancesDue;
    hide ValidTerms;
    var first := if o.form.Some? then [o.form.value] else [];
    CashAppend(first, Forms(sections, o.amounts, t));
    hide Forms;
    if o.form.Some? {
      assert first[..0] == [];
      assert CashOf(first) == o.form.value.totalDebit - o.form.value.totalCredit;
    }
  }

  lemma DueAfterCredits(codes: TaxCodes, scheme: Option<InpsScheme>, taxYear: int, order: Order, due: Amounts,
                        credits: seq<AvailableCredit>, office: string, date: Day, o: Outcome)
    requires IsOutcome(o, OrderedItems(codes, scheme, taxYear, order), due, credits, office, date)
    ensures DebtsDue(o.amounts, scheme.Some?) + UsedTotal(o.usages) == DebtsDue(due, scheme.Some?)
    ensures SecondAdvancesDue(o.amounts, scheme.Some?) == SecondAdvancesDue(due, scheme.Some?)
  {
    var items := OrderedItems(codes, scheme, taxYear, order);
    OrderedItemsAre(codes, scheme, taxYear, order);
    DebtsDueOfItems(codes, scheme, taxYear, order, true, due);
    DebtsDueOfItems(codes, scheme, taxYear, order, true, o.amounts);
    hide OrderedItems;
    hide DebtsDue;
    CompensationBalances(o, items, due, credits, office, date);
    SecondAdvancesKept(o, codes, scheme, taxYear, order, due, credits, office, date);
    if TotalCredit(credits) > 0 {
      ResidualDebts(o, items, due, credits, office, date, |items|);
      hide IsOutcome;
    }
  }

  // ---------- Payment dates ----------

  /** The forms of a plan with the law's dates are paid on business days, strictly one after the other, none before its
      nominal date or more than four days after it. */
  lemma PaymentDatesIncrease(t: Terms, i: nat, j: nat)
    requires ValidTerms(t) && t.installmentDay == DEFAULT_INSTALLMENT_DAY && t.end == DEFAULT_END
    requires i < j < t.installments
    ensures var dates := AllDueDates(t.first, t.installmentDay, t.end);
            && dates[i] < dates[j]
            && Calendar.NextBusinessDayOf(dates[i]) < Calendar.NextBusinessDayOf(dates[j])
            && Calendar.IsBusinessDay(Calendar.NextBusinessDayOf(dates[i]))
            && dates[i] <= Calendar.NextBusinessDayOf(dates[i]) <= dates[i] + 4
  {
    InstallmentDates(t.first);
    hide AllDueDates;
    hide Limit;
    hide Calendar.IsBusinessDay;
  }
}
