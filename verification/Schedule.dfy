/** The forms of a tax year: one for each installment, with interest grouped by section and year, and one for the second
    advances. */
module Schedule {
  import opened Dates
  import opened F24
  import opened Installments
  import opened Rounding
  import opened Wrappers

  /** What the rules and the taxpayer fix for the plan; percentages in hundredths. */
  datatype Terms = Terms(
    first: Day, surchargePct: int, installments: int, installmentDay: int, end: MonthDay, interest: Interest,
    secondAdvanceDate: Day)

  datatype Component = Component(rows: SectionRows, debt: Debt, amount: int, plan: seq<Installment>,
                                 basePlan: Option<seq<Installment>>)

  datatype InterestEntry = InterestEntry(rows: SectionRows, referenceYear: int, positionCode: Option<string>,
                                         amount: int)

  function Surcharged(amount: int, surchargePct: int): int {
    RoundDiv(amount * (10000 + surchargePct), 10000)
  }

  function PlanFor(amount: int, t: Terms): Result<seq<Installment>, PlanError> {
    PlanOf(amount, t.first, Some(t.installments), t.installmentDay, t.end, t.interest)
  }

  predicate ValidTerms(t: Terms) {
    t.first <= Limit(t.first, t.end) && 1 <= t.installments <= |AllDueDates(t.first, t.installmentDay, t.end)|
  }

  /** A plan fails or not whatever its amount. */
  lemma PlanForValid(amount: int, t: Terms)
    ensures PlanFor(amount, t).Ok? <==> ValidTerms(t)
    ensures PlanFor(amount, t).Err? ==> PlanFor(amount, t).error == PlanFor(0, t).error
  {
    hide Limit;
    hide AllDueDates;
    hide SecondInstallmentInterestPct;
    hide SecondNominalDueDate;
  }

  function PlanRows(amount: int, t: Terms): (plan: seq<Installment>)
    requires ValidTerms(t)
    ensures |plan| == t.installments
  {
    PlanForValid(amount, t);
    hide ValidTerms;
    hide Limit;
    hide AllDueDates;
    PlanFor(amount, t).value
  }

  function ComponentOf(item: Item, amounts: Amounts, t: Terms): Component
    requires ValidTerms(t)
  {
    var amount := amounts.Get(item.debt.key);
    Component(item.rows, item.debt, amount, PlanRows(Surcharged(amount, t.surchargePct), t),
              if t.surchargePct > 0 then Some(PlanRows(amount, t)) else None)
  }

  function Positive(items: seq<Item>, amounts: Amounts): (r: seq<Item>)
    ensures forall i :: 0 <= i < |r| ==> amounts.Get(r[i].debt.key) > 0
  {
    if items == [] then []
    else if amounts.Get(items[0].debt.key) > 0 then [items[0]] + Positive(items[1..], amounts)
    else Positive(items[1..], amounts)
  }

  function Components(sections: seq<SectionRows>, amounts: Amounts, t: Terms): (cs: seq<Component>)
    requires ValidTerms(t)
    ensures |cs| == |Positive(Items(sections), amounts)|
  {
    var items := Positive(Items(sections), amounts);
    seq(|items|, i requires 0 <= i < |items| => ComponentOf(items[i], amounts, t))
  }

  // ---------- One form ----------

  /** Every row of the plans adds up and both plans have the same number of rows. */
  predicate Shaped(c: Component, n: int) {
    && |c.plan| == n
    && (c.basePlan.Some? ==> |c.basePlan.value| == n)
    && forall i :: 0 <= i < n ==> c.plan[i].total == c.plan[i].principal + c.plan[i].interest
  }

  predicate AllShaped(cs: seq<Component>, n: int) {
    forall k :: 0 <= k < |cs| ==> Shaped(cs[k], n)
  }

  /** Part of an installment that is the deferral surcharge. */
  function SurchargeShare(c: Component, i: int): int
    requires 0 <= i < |c.plan| && (c.basePlan.Some? ==> i < |c.basePlan.value|)
  {
    if c.basePlan.Some? then c.plan[i].principal - c.basePlan.value[i].principal else 0
  }

  /** The share moved from the debt row to the interest row. */
  function ShareWithInterest(c: Component, i: int): int
    requires 0 <= i < |c.plan| && (c.basePlan.Some? ==> i < |c.basePlan.value|)
  {
    if c.rows.surchargeWithInterest then SurchargeShare(c, i) else 0
  }

  function DebtLine(c: Component, i: int, n: int): Line
    requires 0 <= i < n && Shaped(c, n)
  {
    MakeLine(
      c.rows.section, c.debt.role, c.debt.code, c.debt.referenceYear, c.plan[i].principal - ShareWithInterest(c, i),
      if c.rows.section.Treasury?
        then Some(if n == 1 then SINGLE_PAYMENT_INSTALLMENT_CODE else InstallmentCode(i + 1, n)) else None,
      c.rows.officeCode, c.debt.positionCode,
      if !c.rows.surchargeWithInterest && SurchargeShare(c, i) > 0 then Some(SurchargeShare(c, i)) else None)
  }

  predicate AddsInterest(c: Component, i: int)
    requires 0 <= i < |c.plan| && (c.basePlan.Some? ==> i < |c.basePlan.value|)
  {
    c.plan[i].interest > 0 || ShareWithInterest(c, i) > 0
  }

  /** The entry of a section and year, in the order the keys were first met, increased by an amount. */
  function AddInterest(entries: seq<InterestEntry>, c: Component, amount: int): (r: seq<InterestEntry>)
    ensures |entries| <= |r| <= |entries| + 1
  {
    if entries == [] then [InterestEntry(c.rows, c.debt.referenceYear, c.debt.positionCode, amount)]
    else if entries[0].rows.section == c.rows.section && entries[0].referenceYear == c.debt.referenceYear then
      [entries[0].(amount := entries[0].amount + amount)] + entries[1..]
    else [entries[0]] + AddInterest(entries[1..], c, amount)
  }

  function AddedInterest(entries: seq<InterestEntry>, c: Component, i: int): seq<InterestEntry>
    requires 0 <= i < |c.plan| && (c.basePlan.Some? ==> i < |c.basePlan.value|)
  {
    if AddsInterest(c, i) then AddInterest(entries, c, c.plan[i].interest + ShareWithInterest(c, i)) else entries
  }

  function InterestEntries(cs: seq<Component>, i: int, n: int): seq<InterestEntry>
    requires 0 <= i < n && AllShaped(cs, n)
  {
    if cs == [] then []
    else AddedInterest(InterestEntries(cs[..|cs| - 1], i, n), cs[|cs| - 1], i)
  }

  function InterestLine(e: InterestEntry): Line {
    MakeLine(e.rows.section, InterestRow, e.rows.interestCode, e.referenceYear, e.amount, None, e.rows.officeCode,
             e.positionCode, None)
  }

  function DebtLines(cs: seq<Component>, i: int, n: int): (lines: seq<Line>)
    requires 0 <= i < n && AllShaped(cs, n)
    ensures |lines| == |cs|
  {
    seq(|cs|, k requires 0 <= k < |cs| => DebtLine(cs[k], i, n))
  }

  function InterestLines(entries: seq<InterestEntry>): (lines: seq<Line>)
    ensures |lines| == |entries|
  {
    seq(|entries|, k requires 0 <= k < |entries| => InterestLine(entries[k]))
  }

  function FormLines(cs: seq<Component>, i: int, n: int): seq<Line>
    requires 0 <= i < n && AllShaped(cs, n)
  {
    DebtLines(cs, i, n) + InterestLines(InterestEntries(cs, i, n))
  }

  function InstallmentDraft(cs: seq<Component>, i: int, n: int): Draft
    requires 0 <= i < n && AllShaped(cs, n) && cs != []
  {
    MakeForm(if n == 1 then BalanceForm else InstallmentForm, cs[0].plan[i].dueDate, FormLines(cs, i, n),
             if n == 1 then None else Some((i + 1, n)))
  }

  function SecondLines(sections: seq<SectionRows>, amounts: Amounts): seq<Line> {
    if sections == [] then []
    else
      var rows := sections[0];
      (if rows.secondAdvance.Some? && amounts.Get(rows.secondAdvance.value.key) > 0 then
         var d := rows.secondAdvance.value;
         [MakeLine(rows.section, d.role, d.code, d.referenceYear, amounts.Get(d.key), None, rows.officeCode,
                   d.positionCode, None)]
       else []) + SecondLines(sections[1..], amounts)
  }

  function InstallmentForms(cs: seq<Component>, n: int): (forms: seq<Draft>)
    requires n >= 1 && AllShaped(cs, n)
    ensures |forms| == if cs == [] then 0 else n
  {
    if cs == [] then [] else seq(n, i requires 0 <= i < n => InstallmentDraft(cs, i, n))
  }

  function SecondForms(sections: seq<SectionRows>, amounts: Amounts, date: Day): seq<Draft> {
    var lines := SecondLines(sections, amounts);
    if lines == [] then [] else [MakeForm(SecondAdvanceForm, date, lines, None)]
  }

  lemma ComponentsShaped(sections: seq<SectionRows>, amounts: Amounts, t: Terms)
    requires ValidTerms(t)
    ensures AllShaped(Components(sections, amounts, t), t.installments)
  {
    hide ValidTerms;
    var items := Positive(Items(sections), amounts);
    forall k | 0 <= k < |items|
      ensures Shaped(ComponentOf(items[k], amounts, t), t.installments)
    {
      PlanRowsAddUp(Surcharged(amounts.Get(items[k].debt.key), t.surchargePct), t);
      hide PlanRows;
      hide Surcharged;
    }
  }

  lemma PlanRowsAddUp(amount: int, t: Terms)
    requires ValidTerms(t)
    ensures forall i :: 0 <= i < t.installments ==>
              PlanRows(amount, t)[i].total == PlanRows(amount, t)[i].principal + PlanRows(amount, t)[i].interest
    ensures forall i :: 0 <= i < t.installments ==>
              PlanRows(amount, t)[i].principal == Principal(amount, t.installments, i)
    ensures forall i :: 0 <= i < t.installments ==>
              PlanRows(amount, t)[i].interest == InterestOf(Principal(amount, t.installments, i), Rate(t, i))
    ensures forall i :: 0 <= i < t.installments ==>
              PlanRows(amount, t)[i].dueDate == AllDueDates(t.first, t.installmentDay, t.end)[i]
  {
    PlanForValid(amount, t);
    hide Limit;
    hide AllDueDates;
    hide SecondInstallmentInterestPct;
    hide SecondNominalDueDate;
    hide Principal;
    hide InterestOf;
  }

  function Rate(t: Terms, i: int): int {
    InterestPct(SecondInstallmentInterestPct(t.first, SecondNominalDueDate(t.first, t.installmentDay),
                                             t.interest.annualPct),
                t.interest.incrementPct, i)
  }

  function Forms(sections: seq<SectionRows>, amounts: Amounts, t: Terms): seq<Draft>
    requires ValidTerms(t)
  {
    ComponentsShaped(sections, amounts, t);
    InstallmentForms(Components(sections, amounts, t), t.installments)
      + SecondForms(sections, amounts, t.secondAdvanceDate)
  }

  method BuildPaymentSchedule(sections: seq<SectionRows>, amounts: Amounts, t: Terms)
    returns (r: Result<seq<Draft>, PlanError>)
    ensures r == if Positive(Items(sections), amounts) == []
            then Ok(SecondForms(sections, amounts, t.secondAdvanceDate))
                 else if !ValidTerms(t) then Err(PlanFor(0, t).error)
                 else Ok(Forms(sections, amounts, t))
  {
    var items := Positive(Items(sections), amounts);
    var components := BuildComponents(items, amounts, t);
    if components.Err? {
      return Err(components.error);
    }
    var forms: seq<Draft> := [];
    if |components.value| > 0 {
      assert items != [] && ValidTerms(t);
      assert components.value == Components(sections, amounts, t);
      ComponentsShaped(sections, amounts, t);
      hide ValidTerms;
      forms := BuildInstallmentForms(components.value, t.installments);
    }
    var second := BuildSecondLines(sections, amounts);
    if |second| > 0 {
      forms := forms + [MakeForm(SecondAdvanceForm, t.secondAdvanceDate, second, None)];
    }
    assert forms == if items == []
           then SecondForms(sections, amounts, t.secondAdvanceDate) else Forms(sections, amounts, t);
    r := Ok(forms);
  }

  method BuildInstallmentForms(cs: seq<Component>, n: int) returns (forms: seq<Draft>)
    requires n >= 1 && AllShaped(cs, n) && cs != []
    ensures forms == InstallmentForms(cs, n)
  {
    forms := [];
    for i := 0 to n
      invariant |forms| == i
      invariant forall j :: 0 <= j < i ==> forms[j] == InstallmentDraft(cs, j, n)
    {
      hide InstallmentDraft;
      var lines := InstallmentLines(cs, i, n);
      forms := forms + [InstallmentFormOf(cs, i, n, lines)];
    }
    assert forms == InstallmentForms(cs, n);
  }

  method BuildSecondLines(sections: seq<SectionRows>, amounts: Amounts) returns (second: seq<Line>)
    ensures second == SecondLines(sections, amounts)
  {
    second := [];
    for k := 0 to |sections|
      invariant second + SecondLines(sections[k..], amounts) == SecondLines(sections, amounts)
    {
      hide MakeLine;
      var rows := sections[k];
      assert sections[k..][1..] == sections[k + 1..];
      if rows.secondAdvance.Some? && amounts.Get(rows.secondAdvance.value.key) > 0 {
        var d := rows.secondAdvance.value;
        second := second + [MakeLine(rows.section, d.role, d.code, d.referenceYear, amounts.Get(d.key), None,
                                     rows.officeCode, d.positionCode, None)];
      }
    }
  }

  function InstallmentFormOf(cs: seq<Component>, i: int, n: int, lines: seq<Line>): (f: Draft)
    requires 0 <= i < n && AllShaped(cs, n) && cs != []
    ensures lines == FormLines(cs, i, n) ==> f == InstallmentDraft(cs, i, n)
  {
    MakeForm(if n == 1 then BalanceForm else InstallmentForm, cs[0].plan[i].dueDate, lines,
             if n == 1 then None else Some((i + 1, n)))
  }

  method BuildComponents(items: seq<Item>, amounts: Amounts, t: Terms) returns (r: Result<seq<Component>, PlanError>)
    ensures r.Err? <==> items != [] && !ValidTerms(t)
    ensures r.Err? ==> r.error == PlanFor(0, t).error
    ensures r.Ok? && ValidTerms(t) ==>
              r.value == seq(|items|, i requires 0 <= i < |items| => ComponentOf(items[i], amounts, t))
    ensures r.Ok? && !ValidTerms(t) ==> r.value == []
  {
    hide ValidTerms;
    hide Surcharged;
    hide Amounts.Get;
    hide PlanOf;
    var cs: seq<Component> := [];
    for k := 0 to |items|
      invariant |cs| == k && (k > 0 ==> ValidTerms(t))
      invariant ValidTerms(t) ==> forall j :: 0 <= j < k ==> cs[j] == ComponentOf(items[j], amounts, t)
    {
      var item := items[k];
      var amount := amounts.Get(item.debt.key);
      PlanForValid(Surcharged(amount, t.surchargePct), t);
      PlanForValid(amount, t);
      var plan := BuildInstallmentPlan(Surcharged(amount, t.surchargePct), t.first, Some(t.installments),
                                       t.installmentDay, t.end, t.interest);
      if plan.Err? {
        return Err(plan.error);
      }
      var basePlan := None;
      if t.surchargePct > 0 {
        var base := BuildInstallmentPlan(amount, t.first, Some(t.installments), t.installmentDay, t.end, t.interest);
        basePlan := Some(base.value);
      }
      cs := cs + [Component(item.rows, item.debt, amount, plan.value, basePlan)];
    }
    r := Ok(cs);
  }

  method InstallmentLines(cs: seq<Component>, i: int, n: int) returns (lines: seq<Line>)
    requires 0 <= i < n && AllShaped(cs, n)
    ensures lines == FormLines(cs, i, n)
  {
    hide MakeLine;
    hide InstallmentCode;
    hide AddInterest;
    hide InterestLines;
    lines := [];
    var interest: seq<InterestEntry> := [];
    for k := 0 to |cs|
      invariant lines == DebtLines(cs, i, n)[..k]
      invariant interest == InterestEntries(cs[..k], i, n)
    {
      var c := cs[k];
      var r := c.plan[i];
      var share := SurchargeShare(c, i);
      var withInterest := if c.rows.surchargeWithInterest then share else 0;
      assert cs[..k + 1][..k] == cs[..k] && cs[..k + 1][k] == c;
      if r.interest > 0 || withInterest > 0 {
        interest := AddInterest(interest, c, r.interest + withInterest);
      }
      assert interest == AddedInterest(InterestEntries(cs[..k], i, n), c, i);
      hide InterestEntries;
      assert DebtLines(cs, i, n)[..k + 1] == DebtLines(cs, i, n)[..k] + [DebtLine(c, i, n)];
      lines := lines + [MakeLine(
        c.rows.section, c.debt.role, c.debt.code, c.debt.referenceYear, r.principal - withInterest,
        if c.rows.section.Treasury?
          then Some(if n == 1 then SINGLE_PAYMENT_INSTALLMENT_CODE else InstallmentCode(i + 1, n)) else None,
        c.rows.officeCode, c.debt.positionCode,
        if !c.rows.surchargeWithInterest && share > 0 then Some(share) else None)];
    }
    assert cs[..|cs|] == cs;
    var rows := BuildInterestLines(interest);
    lines := lines + rows;
  }

  method BuildInterestLines(interest: seq<InterestEntry>) returns (lines: seq<Line>)
    ensures lines == InterestLines(interest)
  {
    lines := [];
    for k := 0 to |interest|
      invariant lines == InterestLines(interest)[..k]
    {
      hide InterestLine;
      lines := lines + [InterestLine(interest[k])];
    }
  }
}
