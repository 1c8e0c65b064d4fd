/** What the forms of a schedule conserve: every debt row to the cent always, the interest rows up to a negative
    surcharge share that the program leaves out. */
module ScheduleLaws {
  import opened Dates
  import opened F24
  import opened Installments
  import opened Rounding
  import opened Schedule
  import opened Wrappers

  /** Interest and surcharge share of an installment that no interest row carries. */
  function Lost(c: Component, i: int): int
    requires 0 <= i < |c.plan| && (c.basePlan.Some? ==> i < |c.basePlan.value|)
  {
    if AddsInterest(c, i) then 0 else c.plan[i].interest + ShareWithInterest(c, i)
  }

  function RowTotals(cs: seq<Component>, i: int, n: int): int
    requires 0 <= i < n && AllShaped(cs, n)
  {
    if cs == [] then 0 else RowTotals(cs[..|cs| - 1], i, n) + cs[|cs| - 1].plan[i].total
  }

  function RowLost(cs: seq<Component>, i: int, n: int): (r: int)
    requires 0 <= i < n && AllShaped(cs, n)
    ensures r <= 0
    ensures r == 0 <==> forall k :: 0 <= k < |cs| ==> Lost(cs[k], i) == 0
  {
    if cs == [] then 0
    else
      var front, last := cs[..|cs| - 1], cs[|cs| - 1];
      assert forall k :: 0 <= k < |cs| ==> cs[k] == if k < |front| then front[k] else last;
      RowLost(front, i, n) + Lost(last, i)
  }

  function EntriesTotal(entries: seq<InterestEntry>): int {
    if entries == [] then 0 else entries[0].amount + EntriesTotal(entries[1..])
  }

  lemma {:induction false} AddInterestTotal(entries: seq<InterestEntry>, c: Component, amount: int)
    ensures EntriesTotal(AddInterest(entries, c, amount)) == EntriesTotal(entries) + amount
  {
    if entries == [] {
    } else if entries[0].rows.section == c.rows.section && entries[0].referenceYear == c.debt.referenceYear {
    } else {
      AddInterestTotal(entries[1..], c, amount);
    }
  }

  lemma {:induction false} InterestLinesTotal(entries: seq<InterestEntry>)
    ensures DebitTotal(InterestLines(entries)) == EntriesTotal(entries)
  {
    if entries != [] {
      InterestLinesTotal(entries[1..]);
      assert InterestLines(entries)[1..] == InterestLines(entries[1..]);
    }
  }

  /** A form takes the totals of its installment rows, less what is lost. */
  lemma {:induction false} FormTotal(cs: seq<Component>, i: int, n: int)
    requires 0 <= i < n && AllShaped(cs, n)
    ensures DebitTotal(FormLines(cs, i, n)) == RowTotals(cs, i, n) - RowLost(cs, i, n)
  {
    FormTotalByParts(cs, i, n);
    TotalsAppend(DebtLines(cs, i, n), InterestLines(InterestEntries(cs, i, n)));
    InterestLinesTotal(InterestEntries(cs, i, n));
  }

  lemma {:induction false} FormTotalByParts(cs: seq<Component>, i: int, n: int)
    requires 0 <= i < n && AllShaped(cs, n)
    ensures DebitTotal(DebtLines(cs, i, n)) + EntriesTotal(InterestEntries(cs, i, n))
            == RowTotals(cs, i, n) - RowLost(cs, i, n)
  {
    if cs != [] {
      var front, last := cs[..|cs| - 1], cs[|cs| - 1];
      FormTotalByParts(front, i, n);
      hide AddsInterest;
      AddInterestTotal(InterestEntries(front, i, n), last, last.plan[i].interest + ShareWithInterest(last, i));
      DebtLinesTotal(cs, i, n);
      hide DebtLines;
      hide AddInterest;
    }
  }

  lemma DebtLinesTotal(cs: seq<Component>, i: int, n: int)
    requires 0 <= i < n && AllShaped(cs, n) && cs != []
    ensures var front, last := cs[..|cs| - 1], cs[|cs| - 1];
            DebitTotal(DebtLines(cs, i, n))
              == DebitTotal(DebtLines(front, i, n)) + last.plan[i].principal - ShareWithInterest(last, i)
  {
    var front, last := cs[..|cs| - 1], cs[|cs| - 1];
    assert DebtLines(cs, i, n) == DebtLines(front, i, n) + [DebtLine(last, i, n)];
    TotalsAppend(DebtLines(front, i, n), [DebtLine(last, i, n)]);
  }

  // ---------- Over all the forms ----------

  function DebitsOf(forms: seq<Draft>): int {
    if forms == [] then 0 else DebitsOf(forms[..|forms| - 1]) + forms[|forms| - 1].totalDebit
  }

  function PlanTotal(c: Component, k: int): int
    requires 0 <= k <= |c.plan|
  {
    if k == 0 then 0 else PlanTotal(c, k - 1) + c.plan[k - 1].total
  }

  function InterestTotal(c: Component, k: int): int
    requires 0 <= k <= |c.plan|
  {
    if k == 0 then 0 else InterestTotal(c, k - 1) + c.plan[k - 1].interest
  }

  function PlanTotals(cs: seq<Component>, k: int, n: int): int
    requires 0 <= k <= n && AllShaped(cs, n)
  {
    if cs == [] then 0 else PlanTotals(cs[..|cs| - 1], k, n) + PlanTotal(cs[|cs| - 1], k)
  }

  lemma {:induction false} PlanTotalsStep(cs: seq<Component>, k: int, n: int)
    requires 0 <= k < n && AllShaped(cs, n)
    ensures PlanTotals(cs, 0, n) == 0
    ensures PlanTotals(cs, k + 1, n) == PlanTotals(cs, k, n) + RowTotals(cs, k, n)
  {
    if cs != [] {
      PlanTotalsStep(cs[..|cs| - 1], k, n);
    }
  }

  /** No installment of any debt has a loss. */
  predicate NothingLost(cs: seq<Component>, k: int, n: int)
    requires 0 <= k <= n && AllShaped(cs, n)
  {
    forall i, j :: 0 <= i < k && 0 <= j < |cs| ==> Lost(cs[j], i) == 0
  }

  lemma NothingLostStep(cs: seq<Component>, k: int, n: int)
    requires 0 <= k <= n && AllShaped(cs, n)
    ensures NothingLost(cs, 0, n)
    ensures k > 0 ==> (NothingLost(cs, k, n) <==> NothingLost(cs, k - 1, n) && RowLost(cs, k - 1, n) == 0)
  {
    hide Lost;
  }

  lemma {:induction false} FormsTotalUpTo(cs: seq<Component>, k: int, n: int)
    requires 0 <= k <= n && n >= 1 && AllShaped(cs, n) && cs != []
    ensures DebitsOf(InstallmentForms(cs, n)[..k]) >= PlanTotals(cs, k, n)
    ensures DebitsOf(InstallmentForms(cs, n)[..k]) == PlanTotals(cs, k, n) <==> NothingLost(cs, k, n)
  {
    hide Lost;
    hide InstallmentForms;
    hide NothingLost;
    hide PlanTotals;
    hide RowTotals;
    hide RowLost;
    NothingLostStep(cs, k, n);
    if k == 0 {
      PlanTotalsStep(cs, 0, n);
    } else {
      FormsTotalUpTo(cs, k - 1, n);
      PlanTotalsStep(cs, k - 1, n);
      FormTotal(cs, k - 1, n);
      DebitsOfStep(cs, k, n);
      hide DebitsOf;
    }
  }

  lemma DebitsOfStep(cs: seq<Component>, k: int, n: int)
    requires 0 < k <= n && AllShaped(cs, n) && cs != []
    ensures DebitsOf(InstallmentForms(cs, n)[..k])
            == DebitsOf(InstallmentForms(cs, n)[..k - 1]) + DebitTotal(FormLines(cs, k - 1, n))
  {
    hide FormLines;
    var forms := InstallmentForms(cs, n);
    assert forms[..k][..k - 1] == forms[..k - 1];
  }

  /** The installment forms never take less than the plans, and take exactly the plans (principals and interest of every
      debt) when nothing is lost and only then. */
  lemma FormsTakeThePlans(cs: seq<Component>, n: int)
    requires n >= 1 && AllShaped(cs, n)
    ensures DebitsOf(InstallmentForms(cs, n)) >= PlanTotals(cs, n, n)
    ensures DebitsOf(InstallmentForms(cs, n)) == PlanTotals(cs, n, n) <==> NothingLost(cs, n, n)
  {
    if cs != [] {
      FormsTotalUpTo(cs, n, n);
      assert InstallmentForms(cs, n)[..n] == InstallmentForms(cs, n);
    }
  }

  // ---------- The rows of one debt ----------

  /** Row `j` of a form, which is the row of the j-th debt; a form without it adds nothing. */
  function RowAmount(f: Draft, j: nat): int { if j < |f.lines| then f.lines[j].debitAmount else 0 }

  function RowSurcharge(f: Draft, j: nat): int { if j < |f.lines| then f.lines[j].surchargeAmount.GetOr(0) else 0 }

  function RowsOfDebt(forms: seq<Draft>, j: nat): int {
    if forms == [] then 0 else RowsOfDebt(forms[..|forms| - 1], j) + RowAmount(forms[|forms| - 1], j)
  }

  function SurchargeOfDebt(forms: seq<Draft>, j: nat): int {
    if forms == [] then 0 else SurchargeOfDebt(forms[..|forms| - 1], j) + RowSurcharge(forms[|forms| - 1], j)
  }

  function PrincipalUpTo(amount: int, n: int, k: int): int
    requires 0 <= k <= n && n >= 1
  {
    if k == 0 then 0 else PrincipalUpTo(amount, n, k - 1) + Principal(amount, n, k - 1)
  }

  lemma {:induction false} PrincipalUpToIs(amount: int, n: int, k: int)
    requires 0 <= k <= n && n >= 1
    ensures PrincipalUpTo(amount, n, k) == if k == n then amount else k * RoundDiv(amount, n)
  {
    hide RoundDiv;
    if k > 0 {
      PrincipalUpToIs(amount, n, k - 1);
    }
  }

  /** What a component's plans hold, whatever produced them. */
  predicate HasPrincipals(c: Component, charged: int, n: int)
    requires n >= 1
  {
    && Shaped(c, n)
    && (forall i :: 0 <= i < n ==> c.plan[i].principal == Principal(charged, n, i))
    && (c.basePlan.Some? ==> forall i :: 0 <= i < n ==> c.basePlan.value[i].principal == Principal(c.amount, n, i))
  }

  lemma ComponentHasPrincipals(sections: seq<SectionRows>, amounts: Amounts, t: Terms, j: nat)
    requires ValidTerms(t) && j < |Components(sections, amounts, t)|
    ensures var c := Components(sections, amounts, t)[j];
            && c.amount > 0 && (c.basePlan.Some? <==> t.surchargePct > 0)
            && HasPrincipals(c, Surcharged(c.amount, t.surchargePct), t.installments)
            && forall i :: 0 <= i < t.installments ==>
                 c.plan[i].interest == InterestOf(Principal(Surcharged(c.amount, t.surchargePct), t.installments, i),
                                                  Rate(t, i))
  {
    ComponentsShaped(sections, amounts, t);
    hide ValidTerms;
    hide Surcharged;
    hide Principal;
    hide InterestOf;
    hide Rate;
    hide PlanRows;
    var c := Components(sections, amounts, t)[j];
    PlanRowsAddUp(Surcharged(c.amount, t.surchargePct), t);
    PlanRowsAddUp(c.amount, t);
  }

  /** The charge of a debt: without the surcharge when that goes with the interest. */
  function OwnRows(c: Component, charged: int): int {
    if c.rows.surchargeWithInterest && c.basePlan.Some? then c.amount else charged
  }

  /** Row j of every form is the row of component c. */
  predicate RowsUpTo(forms: seq<Draft>, c: Component, j: nat, n: int)
    requires Shaped(c, n) && |forms| <= n
  {
    forall i :: 0 <= i < |forms| ==> j < |forms[i].lines| && forms[i].lines[j] == DebtLine(c, i, n)
  }

  lemma RowsOfComponent(cs: seq<Component>, n: int, j: nat)
    requires n >= 1 && AllShaped(cs, n) && j < |cs|
    ensures |InstallmentForms(cs, n)| == n && RowsUpTo(InstallmentForms(cs, n), cs[j], j, n)
  {
    forall i | 0 <= i < n
      ensures j < |InstallmentForms(cs, n)[i].lines| && InstallmentForms(cs, n)[i].lines[j] == DebtLine(cs[j], i, n)
    {
      RowOfDebt(cs, n, j, i);
    }
    hide InstallmentForms;
    hide DebtLine;
  }

  lemma {:induction false} RowsWritten(forms: seq<Draft>, c: Component, charged: int, n: int, j: nat)
    requires n >= 1 && HasPrincipals(c, charged, n) && |forms| <= n && RowsUpTo(forms, c, j, n)
    ensures RowsOfDebt(forms, j) == PrincipalUpTo(OwnRows(c, charged), n, |forms|)
  {
    hide Principal;
    hide DebtLine;
    if forms != [] {
      RowsWritten(forms[..|forms| - 1], c, charged, n, j);
      DebtLineAmount(c, charged, |forms| - 1, n);
    }
  }

  lemma RowOfDebt(cs: seq<Component>, n: int, j: nat, i: int)
    requires 0 <= i < n && AllShaped(cs, n) && j < |cs|
    ensures j < |InstallmentForms(cs, n)[i].lines|
    ensures InstallmentForms(cs, n)[i].lines[j] == DebtLine(cs[j], i, n)
  {
    hide DebtLine;
    hide InterestLines;
  }

  lemma DebtLineAmount(c: Component, charged: int, i: int, n: int)
    requires 0 <= i < n && HasPrincipals(c, charged, n)
    ensures DebtLine(c, i, n).debitAmount == Principal(OwnRows(c, charged), n, i)
    ensures !c.rows.surchargeWithInterest ==> DebtLine(c, i, n).surchargeAmount.GetOr(0) == Max(0, SurchargeShare(c, i))
    ensures c.basePlan.Some? ==> SurchargeShare(c, i) == Principal(charged, n, i) - Principal(c.amount, n, i)
  {
    hide Principal;
  }

  /** Over all the forms the rows of a debt add up to the cent: a Treasury debt to its surcharged amount, an INPS debt
      to the amount without surcharge. */
  lemma DebtRowsConserve(sections: seq<SectionRows>, amounts: Amounts, t: Terms, j: nat)
    requires ValidTerms(t) && j < |Components(sections, amounts, t)|
    ensures var cs := Components(sections, amounts, t);
            && AllShaped(cs, t.installments)
            && RowsOfDebt(InstallmentForms(cs, t.installments), j) ==
                 if cs[j].rows.surchargeWithInterest && t.surchargePct > 0 then cs[j].amount
                 else Surcharged(cs[j].amount, t.surchargePct)
  {
    ComponentsShaped(sections, amounts, t);
    ComponentHasPrincipals(sections, amounts, t, j);
    hide ValidTerms;
    hide Components;
    hide Surcharged;
    var cs, n := Components(sections, amounts, t), t.installments;
    var charged := Surcharged(cs[j].amount, t.surchargePct);
    RowsOfComponent(cs, n, j);
    hide InstallmentForms;
    RowsWritten(InstallmentForms(cs, n), cs[j], charged, n, j);
    PrincipalUpToIs(OwnRows(cs[j], charged), n, n);
  }

  // ---------- When a surcharge share is negative ----------

  /** Rounding leaves the last installment a surcharge share that is not negative. */
  predicate SharesFit(amount: int, charged: int, n: int)
    requires n >= 1
  {
    (n - 1) * (RoundDiv(charged, n) - RoundDiv(amount, n)) <= charged - amount
  }

  /** The surcharge share of an installment is never negative before the last one; on the last one it is negative
      exactly when rounding gave the others more than the surcharge, which (n-1)(n-2) cents of surcharge rule out. */
  lemma ShareSign(amount: int, charged: int, n: int, i: int)
    requires 0 <= i < n && amount <= charged
    ensures i < n - 1 ==> Principal(charged, n, i) >= Principal(amount, n, i)
    ensures i == n - 1 ==> (Principal(charged, n, i) >= Principal(amount, n, i) <==> SharesFit(amount, charged, n))
    ensures charged - amount >= (n - 1) * (n - 2) ==> Principal(charged, n, i) >= Principal(amount, n, i)
  {
    RoundDivMonotone(amount, charged, n);
    var p, q := RoundDiv(amount, n), RoundDiv(charged, n);
    hide RoundDiv;
    assert (n - 1) * q - (n - 1) * p == (n - 1) * (q - p);
    if i == n - 1 && charged - amount >= (n - 1) * (n - 2) {
      assert n * (q - p) == n * q - n * p;
      RoundedGap(charged - amount, n, q - p);
    }
  }

  lemma RoundedGap(d: int, n: int, g: int)
    requires n >= 1 && g >= 0 && n * g - d < n && d >= (n - 1) * (n - 2)
    ensures (n - 1) * g <= d
  {
    if g >= n - 1 {
      assert (n - 1) * g == n * g - g;
    } else if n >= 2 {
      MulBy(n - 1, g, n - 2);
    }
  }

  /** Over some forms the surcharge written on the rows of a Treasury debt is the whole surcharge of their installments
      exactly when no share is negative. */
  lemma {:induction false} SurchargeWritten(forms: seq<Draft>, c: Component, charged: int, n: int, j: nat)
    requires n >= 1 && HasPrincipals(c, charged, n) && |forms| <= n && RowsUpTo(forms, c, j, n)
    requires c.basePlan.Some? && !c.rows.surchargeWithInterest
    ensures var k := |forms|;
            && SurchargeOfDebt(forms, j) >= PrincipalUpTo(charged, n, k) - PrincipalUpTo(c.amount, n, k)
            && (SurchargeOfDebt(forms, j) == PrincipalUpTo(charged, n, k) - PrincipalUpTo(c.amount, n, k)
                <==> forall i :: 0 <= i < k ==> SurchargeShare(c, i) >= 0)
  {
    hide Principal;
    hide SurchargeShare;
    hide DebtLine;
    if forms != [] {
      var k := |forms|;
      SurchargeWritten(forms[..k - 1], c, charged, n, j);
      DebtLineAmount(c, charged, k - 1, n);
    }
  }

  /** The surcharge written on the rows of a Treasury debt is the whole surcharge unless rounding makes the last share
      negative, and only then. */
  lemma TreasurySurchargeConserves(sections: seq<SectionRows>, amounts: Amounts, t: Terms, j: nat)
    requires ValidTerms(t) && t.surchargePct > 0 && j < |Components(sections, amounts, t)|
    requires !Components(sections, amounts, t)[j].rows.surchargeWithInterest
    ensures var cs, n := Components(sections, amounts, t), t.installments;
            && AllShaped(cs, n)
            && var forms, a := InstallmentForms(cs, n), cs[j].amount;
            && (SurchargeOfDebt(forms, j) == Surcharged(a, t.surchargePct) - a
                <==> SharesFit(a, Surcharged(a, t.surchargePct), n))
  {
    ComponentsShaped(sections, amounts, t);
    ComponentHasPrincipals(sections, amounts, t, j);
    hide ValidTerms;
    hide Components;
    hide InstallmentForms;
    var cs, n := Components(sections, amounts, t), t.installments;
    SurchargedAtLeast(cs[j].amount, t.surchargePct);
    hide Surcharged;
    hide SharesFit;
    hide HasPrincipals;
    SurchargeOfComponent(cs, Surcharged(cs[j].amount, t.surchargePct), n, j);
  }

  lemma SurchargeOfComponent(cs: seq<Component>, charged: int, n: int, j: nat)
    requires n >= 1 && AllShaped(cs, n) && j < |cs| && HasPrincipals(cs[j], charged, n)
    requires cs[j].basePlan.Some? && !cs[j].rows.surchargeWithInterest && cs[j].amount <= charged
    ensures var forms, a := InstallmentForms(cs, n), cs[j].amount;
            && (SurchargeOfDebt(forms, j) == charged - a <==> SharesFit(a, charged, n))
  {
    var forms := InstallmentForms(cs, n);
    RowsOfComponent(cs, n, j);
    hide InstallmentForms;
    hide SharesFit;
    hide DebtLine;
    SurchargeWritten(forms, cs[j], charged, n, j);
    PrincipalUpToIs(cs[j].amount, n, n);
    PrincipalUpToIs(charged, n, n);
    SharesNonNegative(cs[j], charged, n);
  }

  lemma SharesNonNegative(c: Component, charged: int, n: int)
    requires n >= 1 && HasPrincipals(c, charged, n) && c.basePlan.Some? && !c.rows.surchargeWithInterest
             && c.amount <= charged
    ensures (forall i :: 0 <= i < n ==> SurchargeShare(c, i) >= 0) <==> SharesFit(c.amount, charged, n)
  {
    hide SharesFit;
    forall i | 0 <= i < n
      ensures i < n - 1 ==> SurchargeShare(c, i) >= 0
      ensures i == n - 1 ==> (SurchargeShare(c, i) >= 0 <==> SharesFit(c.amount, charged, n))
    {
      DebtLineAmount(c, charged, i, n);
      ShareSign(c.amount, charged, n, i);
      hide Principal;
    }
    hide SurchargeShare;
    assert SurchargeShare(c, n - 1) >= 0 ==> forall i :: 0 <= i < n ==> SurchargeShare(c, i) >= 0;
  }

  lemma SurchargedAtLeast(amount: int, surchargePct: int)
    requires amount >= 0 && surchargePct >= 0
    ensures Surcharged(amount, surchargePct) >= amount
    ensures Surcharged(amount, 0) == amount
  {
    MulBy(amount, 0, surchargePct);
    RoundDivMonotone(amount * 10000, amount * (10000 + surchargePct), 10000);
    RoundDivExact(amount, 10000);
  }

  /** An amount whose plan loses nothing: large enough for its principals and, with a surcharge, for its shares. */
  predicate LargeEnough(amount: int, t: Terms) {
    && 2 * amount >= t.installments * (t.installments - 1)
    && (t.surchargePct > 0 ==>
          Surcharged(amount, t.surchargePct) - amount >= (t.installments - 1) * (t.installments - 2))
  }

  /** With amounts large enough nothing is lost. */
  lemma LargeAmountsLoseNothing(sections: seq<SectionRows>, amounts: Amounts, t: Terms)
    requires ValidTerms(t) && t.surchargePct >= 0 && t.interest.incrementPct >= 0
    requires SecondInstallmentInterestPct(t.first, SecondNominalDueDate(t.first, t.installmentDay),
                                          t.interest.annualPct) >= 0
    requires forall i :: 0 <= i < |Positive(Items(sections), amounts)| ==>
               LargeEnough(amounts.Get(Positive(Items(sections), amounts)[i].debt.key), t)
    ensures AllShaped(Components(sections, amounts, t), t.installments)
    ensures NothingLost(Components(sections, amounts, t), t.installments, t.installments)
  {
    ComponentsShaped(sections, amounts, t);
    var cs, n := Components(sections, amounts, t), t.installments;
    forall i, j | 0 <= i < n && 0 <= j < |cs|
      ensures Lost(cs[j], i) == 0
    {
      assert LargeEnough(cs[j].amount, t);
      ComponentHasPrincipals(sections, amounts, t, j);
      RateNonNegative(t, i);
      hide ValidTerms;
      hide Components;
      hide Rate;
      hide SecondInstallmentInterestPct;
      LargeComponentLosesNothing(cs[j], t, i);
    }
  }

  lemma RateNonNegative(t: Terms, i: int)
    requires i >= 0 && t.interest.incrementPct >= 0
    requires SecondInstallmentInterestPct(t.first, SecondNominalDueDate(t.first, t.installmentDay),
                                          t.interest.annualPct) >= 0
    ensures Rate(t, i) >= 0
  {
    hide SecondInstallmentInterestPct;
    InterestNeverDecreases(
      SecondInstallmentInterestPct(t.first, SecondNominalDueDate(t.first, t.installmentDay), t.interest.annualPct),
      t.interest.incrementPct, 0, i);
  }

  lemma LargeComponentLosesNothing(c: Component, t: Terms, i: int)
    requires t.surchargePct >= 0 && 0 <= i < t.installments
    requires c.amount > 0 && (c.basePlan.Some? <==> t.surchargePct > 0)
    requires HasPrincipals(c, Surcharged(c.amount, t.surchargePct), t.installments)
    requires c.plan[i].interest
             == InterestOf(Principal(Surcharged(c.amount, t.surchargePct), t.installments, i), Rate(t, i))
    requires LargeEnough(c.amount, t) && Rate(t, i) >= 0
    ensures Lost(c, i) == 0
  {
    hide Rate;
    var n, charged, rate := t.installments, Surcharged(c.amount, t.surchargePct), Rate(t, i);
    SurchargedAtLeast(c.amount, t.surchargePct);
    hide Surcharged;
    ShareSign(c.amount, charged, n, i);
    PrincipalNonNegative(charged, n, i);
    DebtLineAmount(c, charged, i, n);
    InterestNonNegative(Principal(charged, n, i), rate);
    hide Principal;
    hide InterestOf;
  }

  lemma PrincipalNonNegative(amount: int, n: int, i: int)
    requires 0 <= i < n && amount >= 0 && 2 * amount >= n * (n - 1)
    ensures Principal(amount, n, i) >= 0
  {
    if i == n - 1 {
      var q, r := DivideBy(amount, n);
      LastPrincipalNonNegative(amount, n, q, r);
    } else {
      RoundDivMonotone(0, amount, n);
      RoundDivExact(0, n);
    }
  }

  lemma InterestNonNegative(principal: int, pct: int)
    requires principal >= 0 && pct >= 0
    ensures InterestOf(principal, pct) >= 0
  {
    MulBy(principal, 0, pct);
    RoundDivMonotone(0, principal * pct, 10000);
    RoundDivExact(0, 10000);
  }
}
