/** The plan of a tax year: credits first, without the surcharge, then the installments of what is left. */
module Planner {
  import opened CreditOffset
  import opened Dates
  import opened F24
  import opened Installments
  import opened Rounding
  import opened Schedule
  import opened ScheduleForms
  import opened ScheduleLaws
  import opened Wrappers
  import Calendar

  // ---------- The compensation form ----------

  lemma {:induction false} OffsetLinesTotal(items: seq<Item>, amounts: Amounts, credit: int, k: int)
    requires 0 <= k <= |items| && credit > 0
    ensures DebitTotal(OffsetLines(items, amounts, credit, k)) == Min(credit, DebtsBefore(items, amounts, k))
    ensures CreditTotal(OffsetLines(items, amounts, credit, k)) == 0
  {
    hide Amounts.Get;
    if k > 0 {
      OffsetLinesTotal(items, amounts, credit, k - 1);
      var part := Offset(items, amounts, credit, k - 1);
      assert part == Max(0, Min(amounts.Get(items[k - 1].debt.key), credit - DebtsBefore(items, amounts, k - 1)));
      hide Offset;
      if part > 0 {
        TotalsAppend(OffsetLines(items, amounts, credit, k - 1), [OffsetLine(items[k - 1], part)]);
      } else {
        assert OffsetLines(items, amounts, credit, k) == OffsetLines(items, amounts, credit, k - 1);
      }
    }
  }

  function UsedTotal(usages: seq<Usage>): int {
    if usages == [] then 0 else UsedTotal(usages[..|usages| - 1]) + usages[|usages| - 1].amount
  }

  lemma {:induction false} UsagesTotal(credits: seq<AvailableCredit>, covered: int, k: int)
    requires 0 <= k <= |credits| && covered >= 0
    ensures UsedTotal(Usages(credits, covered, k)) == Min(covered, CreditsBefore(credits, k))
  {
    hide *;
    if k > 0 {
      UsagesTotal(credits, covered, k - 1);
      UsagesGrow(credits, covered, k);
      UsedArithmetic(credits, covered, k);
      MaxOf(Used(credits, covered, k - 1));
    } else {
      NoUsagesYet(credits, covered);
    }
  }

  lemma UsagesGrow(credits: seq<AvailableCredit>, covered: int, k: int)
    requires 0 < k <= |credits|
    ensures UsedTotal(Usages(credits, covered, k))
            == UsedTotal(Usages(credits, covered, k - 1)) + Max(0, Used(credits, covered, k - 1))
  {
    hide Used;
    hide Usages;
    hide UsedIndices;
    hide CreditLines;
    UsedStep(credits, covered, k, "");
    var usages, u := Usages(credits, covered, k - 1), Usage(credits[k - 1].id, Used(credits, covered, k - 1));
    assert (usages + [u])[..|usages|] == usages;
  }

  lemma NoUsagesYet(credits: seq<AvailableCredit>, covered: int)
    requires covered >= 0
    ensures UsedTotal(Usages(credits, covered, 0)) == Min(covered, CreditsBefore(credits, 0))
  {
  }

  lemma {:induction false} CreditLinesTotal(credits: seq<AvailableCredit>, covered: int, k: int, office: string)
    requires 0 <= k <= |credits| && covered >= 0
    ensures CreditTotal(CreditLines(credits, covered, k, office)) == Min(covered, CreditsBefore(credits, k))
    ensures DebitTotal(CreditLines(credits, covered, k, office)) == 0
  {
    if k > 0 {
      CreditLinesTotal(credits, covered, k - 1, office);
      hide *;
      CreditLinesGrow(credits, covered, k, office);
      UsedArithmetic(credits, covered, k);
      MaxOf(Used(credits, covered, k - 1));
    } else {
      assert CreditLines(credits, covered, 0, office) == [];
    }
  }

  lemma CreditLinesGrow(credits: seq<AvailableCredit>, covered: int, k: int, office: string)
    requires 0 < k <= |credits|
    ensures var before, after := CreditLines(credits, covered, k - 1, office), CreditLines(credits, covered, k, office);
            && CreditTotal(after) == CreditTotal(before) + Max(0, Used(credits, covered, k - 1))
            && DebitTotal(after) == DebitTotal(before)
  {
    hide *;
    UsedStep(credits, covered, k, office);
    var used, lines := Used(credits, covered, k - 1), CreditLines(credits, covered, k - 1, office);
    CreditLineTotals(credits[k - 1], used, office);
    TotalsAppend(lines, [CreditLine(credits[k - 1], used, office)]);
    MaxOf(used);
  }

  lemma MaxOf(x: int)
    ensures Max(0, x) == if x >= 0 then x else 0
  {
  }

  lemma CreditLineTotals(c: AvailableCredit, used: int, office: string)
    ensures DebitTotal([CreditLine(c, used, office)]) == 0
    ensures CreditTotal([CreditLine(c, used, office)]) == used
  {
    var lines := [CreditLine(c, used, office)];
    assert lines[1..] == [];
  }

  lemma UsedArithmetic(credits: seq<AvailableCredit>, covered: int, k: int)
    requires 0 < k <= |credits| && covered >= 0
    ensures Min(covered, CreditsBefore(credits, k))
            == Min(covered, CreditsBefore(credits, k - 1)) + Max(0, Used(credits, covered, k - 1))
    ensures Used(credits, covered, k - 1) >= 0
  {
  }

  lemma {:induction false} CreditsSuffice(credits: seq<AvailableCredit>)
    ensures TotalCredit(credits) <= CreditsBefore(credits, |credits|)
  {
    if credits != [] {
      var front := credits[..|credits| - 1];
      CreditsSuffice(front);
      CreditsBeforePrefix(credits, front, |front|);
    }
  }

  lemma {:induction false} CreditsBeforePrefix(credits: seq<AvailableCredit>, front: seq<AvailableCredit>, k: int)
    requires 0 <= k <= |front| <= |credits| && front == credits[..|front|]
    ensures CreditsBefore(credits, k) == CreditsBefore(front, k)
  {
    if k > 0 {
      CreditsBeforePrefix(credits, front, k - 1);
    }
  }

  /** The form has a zero balance: it offsets the smaller of the credit and the positive debts, and the usages saved are
      exactly that amount. Nothing of the credit is lost. */
  lemma CompensationBalances(o: Outcome, items: seq<Item>, amounts: Amounts, credits: seq<AvailableCredit>,
                             office: string, date: Day)
    requires IsOutcome(o, items, amounts, credits, office, date)
    ensures var offset := if TotalCredit(credits) <= 0
            then 0 else Min(TotalCredit(credits), DebtsBefore(items, amounts, |items|));
            && (o.form.Some? <==> offset > 0)
            && (o.form.Some? ==> o.form.value.totalDebit == o.form.value.totalCredit == offset)
            && UsedTotal(o.usages) == offset
            && (TotalCredit(credits) > 0 ==> UsedTotal(o.usages) + o.unusedCredit == TotalCredit(credits))
  {
    var credit, n := TotalCredit(credits), |items|;
    if credit > 0 {
      var covered := Min(credit, DebtsBefore(items, amounts, n));
      CreditsSuffice(credits);
      UsagesTotal(credits, covered, |credits|);
      CreditLinesTotal(credits, covered, |credits|, office);
      OffsetLinesTotal(items, amounts, credit, n);
      TotalsAppend(OffsetLines(items, amounts, credit, n), CreditLines(credits, covered, |credits|, office));
      hide OffsetLines;
      hide CreditLines;
      hide Usages;
    }
  }

  /** Every debt is split into what is covered and what is left, and is touched only after the earlier ones are fully
      covered. */
  lemma DebtsAreCoveredInOrder(
    o: Outcome, items: seq<Item>, amounts: Amounts, credits: seq<AvailableCredit>, office: string, date: Day, j: int,
    k: int)
    requires IsOutcome(o, items, amounts, credits, office, date) && TotalCredit(credits) > 0
    requires 0 <= j <= k < |items|
    ensures var credit := TotalCredit(credits);
            && CoveredPart(amounts.Get(items[k].debt.key), o.amounts.Get(items[k].debt.key),
                           Offset(items, amounts, credit, k))
            && (j < k && Offset(items, amounts, credit, k) > 0 ==> o.amounts.Get(items[j].debt.key) <= 0)
  {
    hide IsOutcome;
    hide Amounts.Get;
    ResidualOf(o, items, amounts, credits, office, date, j);
    ResidualOf(o, items, amounts, credits, office, date, k);
    hide TotalCredit;
    if j < k {
      DebtsBeforeMonotone(items, amounts, j + 1, k);
    }
  }

  lemma ResidualOf(o: Outcome, items: seq<Item>, amounts: Amounts, credits: seq<AvailableCredit>, office: string,
                   date: Day, k: int)
    requires IsOutcome(o, items, amounts, credits, office, date) && TotalCredit(credits) > 0 && 0 <= k < |items|
    ensures o.amounts.Get(items[k].debt.key)
            == amounts.Get(items[k].debt.key) - Offset(items, amounts, TotalCredit(credits), k)
  {
    hide Amounts.Get;
    hide Offset;
  }

  lemma OtherAmountsKept(o: Outcome, items: seq<Item>, amounts: Amounts, credits: seq<AvailableCredit>, office: string,
                         date: Day, key: DebtKey)
    requires IsOutcome(o, items, amounts, credits, office, date)
    requires forall j :: 0 <= j < |items| ==> items[j].debt.key != key
    ensures o.amounts.Get(key) == amounts.Get(key)
  {
    hide Amounts.Get;
    hide Offset;
  }

  /** The second advances are never offset, nor is any INPS amount without a scheme. */
  lemma SecondAdvancesKept(
    o: Outcome, codes: TaxCodes, scheme: Option<InpsScheme>, taxYear: int, order: Order,
    amounts: Amounts, credits: seq<AvailableCredit>, office: string, date: Day)
    requires IsOutcome(o, OrderedItems(codes, scheme, taxYear, order), amounts, credits, office, date)
    ensures o.amounts.taxSecondAdvance == amounts.taxSecondAdvance
            && o.amounts.inpsSecondAdvance == amounts.inpsSecondAdvance
    ensures scheme.None? ==>
              o.amounts.inpsBalance == amounts.inpsBalance && o.amounts.inpsFirstAdvance == amounts.inpsFirstAdvance
  {
    var items := OrderedItems(codes, scheme, taxYear, order);
    OrderedItemsAre(codes, scheme, taxYear, order);
    hide OrderedItems;
    hide IsOutcome;
    OtherAmountsKept(o, items, amounts, credits, office, date, TaxSecondAdvance);
    OtherAmountsKept(o, items, amounts, credits, office, date, InpsSecondAdvance);
    if scheme.None? {
      OtherAmountsKept(o, items, amounts, credits, office, date, InpsBalance);
      OtherAmountsKept(o, items, amounts, credits, office, date, InpsFirstAdvance);
    }
  }

  /** A debt split into the part covered and the part left. */
  predicate CoveredPart(due: int, left: int, part: int) {
    left + part == due && (due >= 0 ==> 0 <= left <= due) && (due < 0 ==> left == due)
  }

  /** A credit is touched only after the earlier ones are used up. */
  lemma CreditsAreUsedInOrder(credits: seq<AvailableCredit>, covered: int, j: int, k: int)
    requires 0 <= j < k < |credits| && Used(credits, covered, k) > 0
    ensures Used(credits, covered, j) == Max(0, credits[j].amount)
  {
    CreditsBeforeMonotone(credits, j + 1, k);
  }

  lemma {:induction false} DebtsBeforeMonotone(items: seq<Item>, amounts: Amounts, j: int, k: int)
    requires 0 <= j <= k <= |items|
    ensures DebtsBefore(items, amounts, j) <= DebtsBefore(items, amounts, k)
  {
    hide Amounts.Get;
    if j < k {
      DebtsBeforeMonotone(items, amounts, j, k - 1);
    }
  }

  lemma {:induction false} CreditsBeforeMonotone(credits: seq<AvailableCredit>, j: int, k: int)
    requires 0 <= j <= k <= |credits|
    ensures CreditsBefore(credits, j) <= CreditsBefore(credits, k)
  {
    if j < k {
      CreditsBeforeMonotone(credits, j, k - 1);
    }
  }

  // ---------- Saving the plan: credit rows and their usages ----------

  /** Position of a row among the credit rows of its form. */
  function CreditRowIndex(lines: seq<Line>, index: int): int
    requires 0 <= index <= |lines|
  {
    CountCredits(lines[..index])
  }

  function CountCredits(lines: seq<Line>): (n: int)
    ensures 0 <= n <= |lines|
  {
    if lines == [] then 0 else CountCredits(lines[..|lines| - 1]) + if lines[|lines| - 1].role.Credit? then 1 else 0
  }

  lemma {:induction false} CountCreditsSplit(offsets: seq<Line>, rows: seq<Line>, k: int)
    requires 0 <= k <= |rows|
    requires forall i :: 0 <= i < |offsets| ==> !offsets[i].role.Credit?
    requires forall i :: 0 <= i < |rows| ==> rows[i].role.Credit?
    ensures CountCredits((offsets + rows)[..|offsets| + k]) == k
  {
    var lines := offsets + rows;
    if k > 0 {
      CountCreditsSplit(offsets, rows, k - 1);
      assert lines[..|offsets| + k][..|offsets| + k - 1] == lines[..|offsets| + k - 1];
      assert lines[|offsets| + k - 1] == rows[k - 1];
    } else {
      assert lines[..|offsets|] == offsets;
      NoCredits(offsets);
    }
  }

  lemma {:induction false} NoCredits(lines: seq<Line>)
    requires forall i :: 0 <= i < |lines| ==> !lines[i].role.Credit?
    ensures CountCredits(lines) == 0
  {
    if lines != [] {
      NoCredits(lines[..|lines| - 1]);
    }
  }

  lemma {:induction false} OffsetRoles(items: seq<Item>, amounts: Amounts, credit: int, k: int)
    requires 0 <= k <= |items| && forall j :: 0 <= j < |items| ==> !items[j].debt.role.Credit?
    ensures forall i :: 0 <= i < |OffsetLines(items, amounts, credit, k)| ==>
            !OffsetLines(items, amounts, credit, k)[i].role.Credit?
  {
    hide Offset;
    if k > 0 {
      OffsetRoles(items, amounts, credit, k - 1);
    }
  }

  lemma {:induction false} UsedIndicesIncrease(credits: seq<AvailableCredit>, covered: int, k: int)
    requires 0 <= k <= |credits|
    ensures Increasing(UsedIndices(credits, covered, k))
    ensures forall c :: c in UsedIndices(credits, covered, k) ==>
            0 <= c < k && 0 < Used(credits, covered, c) <= credits[c].amount
  {
    if k > 0 {
      var front := UsedIndices(credits, covered, k - 1);
      var used := Used(credits, covered, k - 1);
      assert used > 0 ==> used <= credits[k - 1].amount;
      hide Used;
      assert UsedIndices(credits, covered, k) == if used > 0 then front + [k - 1] else front;
      hide UsedIndices;
      UsedIndicesIncrease(credits, covered, k - 1);
    }
  }

  predicate Increasing(s: seq<int>) {
    forall i, j :: 0 <= i < j < |s| ==> s[i] < s[j]
  }

  /** The usage saved with a credit row: the one at the position of the row among the credit rows. */
  function UsageOfRow(lines: seq<Line>, usages: seq<Usage>, i: int): Option<Usage>
    requires 0 <= i < |lines|
  {
    var k := CreditRowIndex(lines, i);
    if lines[i].role.Credit? && k < |usages| then Some(usages[k]) else None
  }

  /** Saving pairs every credit row with the usage of the same credit and amount. */
  lemma CreditRowIsPaired(o: Outcome, items: seq<Item>, amounts: Amounts, credits: seq<AvailableCredit>, office: string,
                          date: Day, i: int)
    requires IsOutcome(o, items, amounts, credits, office, date) && o.form.Some?
    requires forall j :: 0 <= j < |items| ==> !items[j].debt.role.Credit?
    requires 0 <= i < |o.form.value.lines| && o.form.value.lines[i].role.Credit?
    ensures var covered := Min(TotalCredit(credits), DebtsBefore(items, amounts, |items|));
            var taken, k := UsedIndices(credits, covered, |credits|), CreditRowIndex(o.form.value.lines, i);
            && 0 <= k < |o.usages| == |taken|
            && o.usages[k] == Usage(credits[taken[k]].id, Used(credits, covered, taken[k]))
            && o.form.value.lines[i] == CreditLine(credits[taken[k]], o.usages[k].amount, office)
            && UsageOfRow(o.form.value.lines, o.usages, i) == Some(o.usages[k])
  {
    var credit := TotalCredit(credits);
    var covered := Min(credit, DebtsBefore(items, amounts, |items|));
    var offsets, rows := OffsetLines(items, amounts, credit, |items|), CreditLines(credits, covered, |credits|, office);
    OffsetRoles(items, amounts, credit, |items|);
    assert o.form.value.lines == offsets + rows;
    CreditRowPlace(offsets, rows, i);
    hide IsOutcome;
    hide IsResidual;
    hide OffsetLines;
    hide Used;
    hide UsedIndices;
    hide CountCredits;
  }

  lemma CreditRowPlace(offsets: seq<Line>, rows: seq<Line>, i: int)
    requires forall j :: 0 <= j < |offsets| ==> !offsets[j].role.Credit?
    requires forall j :: 0 <= j < |rows| ==> rows[j].role.Credit?
    requires 0 <= i < |offsets + rows| && (offsets + rows)[i].role.Credit?
    ensures i >= |offsets| && CreditRowIndex(offsets + rows, i) == i - |offsets|
  {
    CountCreditsSplit(offsets, rows, i - |offsets|);
    hide CountCredits;
  }

  /** The usages take different credits, in the order given, none beyond what it had. */
  lemma NoCreditIsExceeded(o: Outcome, items: seq<Item>, amounts: Amounts, credits: seq<AvailableCredit>,
                           office: string, date: Day)
    returns (taken: seq<int>)
    requires IsOutcome(o, items, amounts, credits, office, date) && TotalCredit(credits) > 0
    ensures |taken| == |o.usages| && Increasing(taken)
    ensures forall i :: 0 <= i < |taken| ==> 0 <= taken[i] < |credits| && o.usages[i].creditId == credits[taken[i]].id
                                             && 0 < o.usages[i].amount <= credits[taken[i]].amount
  {
    var covered := Min(TotalCredit(credits), DebtsBefore(items, amounts, |items|));
    assert o.usages == Usages(credits, covered, |credits|);
    hide IsOutcome;
    taken := UsedIndices(credits, covered, |credits|);
    UsedIndicesIncrease(credits, covered, |credits|);
    assert forall i :: 0 <= i < |taken| ==> taken[i] in taken;
    hide Used;
    hide UsedIndices;
    hide Increasing;
  }
}
