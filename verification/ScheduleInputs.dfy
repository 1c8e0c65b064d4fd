/** What a form takes of each debt as a formula of its amount, the surcharge, the number of installments and the rates;
    and the exact amounts on which a schedule takes all that its plans say. */
module ScheduleInputs {
  import opened Dates
  import opened F24
  import opened Installments
  import opened Rounding
  import opened Schedule
  import opened ScheduleLaws
  import opened Wrappers

  /** A debt to pay: the section it belongs to and its amount. */
  datatype Due = Due(rows: SectionRows, amount: int)

  /** The positive debts of the sections, in order. */
  function DuesOf(sections: seq<SectionRows>, amounts: Amounts): (dues: seq<Due>)
    ensures |dues| == |Positive(Items(sections), amounts)|
    ensures forall k :: 0 <= k < |dues| ==> dues[k].amount > 0
  {
    var items := Positive(Items(sections), amounts);
    seq(|items|, k requires 0 <= k < |items| => Due(items[k].rows, amounts.Get(items[k].debt.key)))
  }

  /** The surcharge goes on the interest row. */
  predicate Moves(d: Due, t: Terms) { d.rows.surchargeWithInterest && t.surchargePct > 0 }

  function Charged(d: Due, t: Terms): int { Surcharged(d.amount, t.surchargePct) }

  /** What the row of the debt takes in installment i. */
  function OwnPart(d: Due, t: Terms, i: int): int
    requires t.installments >= 1
  {
    Principal(if Moves(d, t) then d.amount else Charged(d, t), t.installments, i)
  }

  /** Its interest. */
  function InterestPart(d: Due, t: Terms, i: int): int
    requires t.installments >= 1
  {
    InterestOf(Principal(Charged(d, t), t.installments, i), Rate(t, i))
  }

  /** The share of surcharge that goes with the interest. */
  function MovedPart(d: Due, t: Terms, i: int): int
    requires t.installments >= 1
  {
    if Moves(d, t) then Principal(Charged(d, t), t.installments, i) - Principal(d.amount, t.installments, i) else 0
  }

  /** Interest and moved share reach an interest row. */
  predicate Added(d: Due, t: Terms, i: int)
    requires t.installments >= 1
  {
    InterestPart(d, t, i) > 0 || MovedPart(d, t, i) > 0
  }

  /** Nothing of interest and moved share is left out: they reach an interest row, or cancel out. */
  predicate Kept(d: Due, t: Terms, i: int)
    requires t.installments >= 1
  {
    Added(d, t, i) || InterestPart(d, t, i) + MovedPart(d, t, i) == 0
  }

  predicate AllKept(dues: seq<Due>, t: Terms)
    requires t.installments >= 1
  {
    forall k, i :: 0 <= k < |dues| && 0 <= i < t.installments ==> Kept(dues[k], t, i)
  }

  /** The component holds what the formulas say. */
  predicate ComesFrom(c: Component, d: Due, t: Terms)
    requires t.installments >= 1
  {
    && Shaped(c, t.installments) && c.rows == d.rows && c.amount == d.amount
    && forall i :: 0 <= i < t.installments ==>
         && c.plan[i].interest == InterestPart(d, t, i)
         && ShareWithInterest(c, i) == MovedPart(d, t, i)
         && DebtLine(c, i, t.installments).debitAmount == OwnPart(d, t, i)
  }

  predicate AllFrom(cs: seq<Component>, dues: seq<Due>, t: Terms)
    requires t.installments >= 1
  {
    |cs| == |dues| && forall k :: 0 <= k < |cs| ==> ComesFrom(cs[k], dues[k], t)
  }

  lemma ComponentsComeFromDues(sections: seq<SectionRows>, amounts: Amounts, t: Terms)
    requires ValidTerms(t)
    ensures AllFrom(Components(sections, amounts, t), DuesOf(sections, amounts), t)
  {
    var cs, dues := Components(sections, amounts, t), DuesOf(sections, amounts);
    forall k | 0 <= k < |cs|
      ensures ComesFrom(cs[k], dues[k], t)
    {
      OneComesFromDue(sections, amounts, t, k);
    }
    hide Components;
    hide DuesOf;
    hide ComesFrom;
    hide ValidTerms;
  }

  lemma OneComesFromDue(sections: seq<SectionRows>, amounts: Amounts, t: Terms, k: nat)
    requires ValidTerms(t) && k < |Components(sections, amounts, t)|
    ensures ComesFrom(Components(sections, amounts, t)[k], DuesOf(sections, amounts)[k], t)
  {
    assert t.installments >= 1;
    hide ValidTerms;
    hide PlanRows;
    hide Positive;
    hide Items;
    hide Surcharged;
    var c, d := Components(sections, amounts, t)[k], DuesOf(sections, amounts)[k];
    assert c.rows == d.rows && c.amount == d.amount;
    ComponentHasPrincipals(sections, amounts, t, k);
    hide Components;
    hide DuesOf;
    PartsOfComponent(c, d, t);
  }

  lemma PartsOfComponent(c: Component, d: Due, t: Terms)
    requires t.installments >= 1 && c.rows == d.rows && c.amount == d.amount
             && (c.basePlan.Some? <==> t.surchargePct > 0)
    requires HasPrincipals(c, Charged(d, t), t.installments)
    requires forall i :: 0 <= i < t.installments ==> c.plan[i].interest == InterestPart(d, t, i)
    ensures ComesFrom(c, d, t)
  {
    hide Surcharged;
    hide Principal;
    hide InterestPart;
    forall i | 0 <= i < t.installments
      ensures ShareWithInterest(c, i) == MovedPart(d, t, i)
      ensures DebtLine(c, i, t.installments).debitAmount == OwnPart(d, t, i)
    {
      DebtLineAmount(c, Charged(d, t), i, t.installments);
      hide DebtLine;
    }
    hide DebtLine;
  }

  lemma NothingLostIff(cs: seq<Component>, dues: seq<Due>, t: Terms)
    requires t.installments >= 1 && AllFrom(cs, dues, t) && AllShaped(cs, t.installments)
    ensures NothingLost(cs, t.installments, t.installments) <==> AllKept(dues, t)
  {
    hide InterestPart;
    hide MovedPart;
    hide DebtLine;
    forall k, i | 0 <= k < |cs| && 0 <= i < t.installments
      ensures Lost(cs[k], i) == 0 <==> Kept(dues[k], t, i)
    {
      assert ComesFrom(cs[k], dues[k], t);
    }
    hide Lost;
    hide Kept;
    hide ComesFrom;
  }

  /** Over all the forms a schedule never takes less than the plans of its debts, and takes exactly them if and only if
      every installment of every debt keeps its interest and moved share: a condition on amounts, installments and
      rates. */
  lemma ScheduleTakesThePlansIff(sections: seq<SectionRows>, amounts: Amounts, t: Terms)
    requires ValidTerms(t)
    ensures var cs, n := Components(sections, amounts, t), t.installments;
            && AllShaped(cs, n)
            && DebitsOf(InstallmentForms(cs, n)) >= PlanTotals(cs, n, n)
            && (DebitsOf(InstallmentForms(cs, n)) == PlanTotals(cs, n, n) <==> AllKept(DuesOf(sections, amounts), t))
  {
    ComponentsShaped(sections, amounts, t);
    ComponentsComeFromDues(sections, amounts, t);
    assert t.installments >= 1;
    hide *;
    var cs := Components(sections, amounts, t);
    NothingLostIff(cs, DuesOf(sections, amounts), t);
    FormsTakeThePlans(cs, t.installments);
  }

  // ---------- Only the last installment can fail ----------

  /** Percentages as the rules set them. */
  predicate PlainRates(t: Terms) {
    && t.surchargePct >= 0 && t.interest.incrementPct >= 0
    && SecondInstallmentInterestPct(t.first, SecondNominalDueDate(t.first, t.installmentDay), t.interest.annualPct) >= 0
  }

  lemma EarlierPartsNonNegative(d: Due, t: Terms, i: int)
    requires 0 <= i < t.installments - 1 && d.amount >= 0 && PlainRates(t)
    ensures OwnPart(d, t, i) >= 0 && InterestPart(d, t, i) >= 0 && MovedPart(d, t, i) >= 0
  {
    var n, charged := t.installments, Charged(d, t);
    SurchargedAtLeast(d.amount, t.surchargePct);
    RateNonNegative(t, i);
    hide Surcharged;
    hide Rate;
    hide SecondInstallmentInterestPct;
    RoundDivMonotone(0, d.amount, n);
    RoundDivMonotone(0, charged, n);
    RoundDivMonotone(d.amount, charged, n);
    RoundDivExact(0, n);
    hide RoundDiv;
    InterestNonNegative(Principal(charged, n, i), Rate(t, i));
    hide InterestOf;
  }

  /** With percentages that are not negative it is enough to look at the last installment of each debt. */
  lemma AllKeptIffLast(dues: seq<Due>, t: Terms)
    requires t.installments >= 1 && PlainRates(t) && forall k :: 0 <= k < |dues| ==> dues[k].amount >= 0
    ensures AllKept(dues, t) <==> forall k :: 0 <= k < |dues| ==> Kept(dues[k], t, t.installments - 1)
  {
    hide InterestPart;
    hide MovedPart;
    hide PlainRates;
    forall k, i | 0 <= k < |dues| && 0 <= i < t.installments - 1
      ensures Kept(dues[k], t, i)
    {
      EarlierPartsNonNegative(dues[k], t, i);
    }
    hide Kept;
  }

  lemma LargePrincipals(amount: int, charged: int, n: int, i: int)
    requires 0 <= i < n && 0 <= amount <= charged && 2 * amount >= n * (n - 1)
    ensures Principal(amount, n, i) >= 0 && Principal(charged, n, i) >= 0
    ensures charged - amount >= (n - 1) * (n - 2) ==> Principal(charged, n, i) >= Principal(amount, n, i)
  {
    hide Principal;
    ShareSign(amount, charged, n, i);
    PrincipalNonNegative(charged, n, i);
    PrincipalNonNegative(amount, n, i);
  }

  /** No part of a large enough amount is negative. */
  lemma LargePartsNonNegative(d: Due, t: Terms, i: int)
    requires 0 <= i < t.installments && d.amount >= 0 && PlainRates(t) && LargeEnough(d.amount, t)
    ensures OwnPart(d, t, i) >= 0 && InterestPart(d, t, i) >= 0 && MovedPart(d, t, i) >= 0
  {
    var n, charged := t.installments, Charged(d, t);
    SurchargedAtLeast(d.amount, t.surchargePct);
    RateNonNegative(t, i);
    hide Surcharged;
    hide Rate;
    hide SecondInstallmentInterestPct;
    hide Principal;
    hide InterestOf;
    LargePrincipals(d.amount, charged, n, i);
    hide LargeEnough;
    hide PlainRates;
    InterestNonNegative(Principal(charged, n, i), Rate(t, i));
  }
}
