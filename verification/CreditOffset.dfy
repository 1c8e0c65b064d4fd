/** The zero-balance form that uses the available credits against the balance and first advances. */
module CreditOffset {
  import opened Dates
  import opened F24
  import opened Rounding
  import opened Wrappers
  import Radix

  datatype AvailableCredit = AvailableCredit(
    id: string, section: Section, code: string, referenceYear: int, amount: int, localCode: Option<string>,
    installmentCode: Option<string>)

  datatype Usage = Usage(creditId: string, amount: int)

  datatype Order = InpsFirst | TaxFirst

  datatype Outcome = Outcome(form: Option<Draft>, amounts: Amounts, usages: seq<Usage>, unusedCredit: int)

  // ---------- Debts in the chosen order ----------

  /** Offset rows are paid in full, so the INPS reasons are those of a single payment. */
  function OrderedItems(codes: TaxCodes, scheme: Option<InpsScheme>, taxYear: int, order: Order): seq<Item> {
    var treasury, inps := TreasuryRows(codes, taxYear), ContributionRows(scheme, taxYear, true);
    Items(if order.TaxFirst? then [treasury] + inps else inps + [treasury])
  }

  predicate DistinctKeys(items: seq<Item>) {
    forall j, k :: 0 <= j < k < |items| ==> items[j].debt.key != items[k].debt.key
  }

  lemma OrderedItemsAre(codes: TaxCodes, scheme: Option<InpsScheme>, taxYear: int, order: Order)
    ensures var items := OrderedItems(codes, scheme, taxYear, order);
            && DistinctKeys(items)
            && (forall k :: 0 <= k < |items| ==> !items[k].debt.role.Credit?)
            && (forall k :: 0 <= k < |items| ==>
                  !items[k].debt.key.TaxSecondAdvance? && !items[k].debt.key.InpsSecondAdvance?)
            && (exists k :: 0 <= k < |items| && items[k].debt.key.TaxBalance?)
            && (exists k :: 0 <= k < |items| && items[k].debt.key.TaxFirstAdvance?)
            && (scheme.Some? ==> exists k :: 0 <= k < |items| && items[k].debt.key.InpsBalance?)
            && (scheme.Some? ==> exists k :: 0 <= k < |items| && items[k].debt.key.InpsFirstAdvance?)
            && (scheme.None? ==> forall k :: 0 <= k < |items| ==>
                !items[k].debt.key.InpsBalance? && !items[k].debt.key.InpsFirstAdvance?)
            && |items| == if scheme.Some? then 4 else 2
  {
    var t := TreasuryRows(codes, taxYear);
    var tax := [Item(t, t.debts[0]), Item(t, t.debts[1])];
    var items := OrderedItems(codes, scheme, taxYear, order);
    ItemsOfOne(t);
    match scheme {
      case None =>
        assert [t] + [] == [t] && [] + [t] == [t];
        assert items == tax;
        assert items[0].debt.key.TaxBalance? && items[1].debt.key.TaxFirstAdvance?;
      case Some(s) =>
        var i := InpsRows(s, taxYear, true);
        var inps := [Item(i, i.debts[0]), Item(i, i.debts[1])];
        ItemsOfTwo(t, i);
        ItemsOfTwo(i, t);
        assert items == if order.TaxFirst? then tax + inps else inps + tax;
        var a, b := if order.TaxFirst? then 0 else 2, if order.TaxFirst? then 2 else 0;
        assert items[a].debt.key.TaxBalance? && items[a + 1].debt.key.TaxFirstAdvance?;
        assert items[b].debt.key.InpsBalance? && items[b + 1].debt.key.InpsFirstAdvance?;
    }
  }

  lemma ItemsOfOne(a: SectionRows)
    requires |a.debts| == 2
    ensures Items([a]) == [Item(a, a.debts[0]), Item(a, a.debts[1])]
  {
    assert [a][1..] == [];
    assert Items([a][1..]) == [];
  }

  lemma ItemsOfTwo(a: SectionRows, b: SectionRows)
    requires |a.debts| == 2 && |b.debts| == 2
    ensures Items([a] + [b]) == [Item(a, a.debts[0]), Item(a, a.debts[1])] + [Item(b, b.debts[0]), Item(b, b.debts[1])]
  {
    ItemsOfOne(b);
    assert ([a] + [b])[1..] == [b];
    assert seq(|a.debts|, i requires 0 <= i < |a.debts| => Item(a, a.debts[i]))
           == [Item(a, a.debts[0]), Item(a, a.debts[1])];
  }

  // ---------- What each debt and each credit gives, in closed form ----------

  function DebtsBefore(items: seq<Item>, amounts: Amounts, k: int): (s: int)
    requires 0 <= k <= |items|
    ensures s >= 0
  {
    if k == 0 then 0 else DebtsBefore(items, amounts, k - 1) + Max(0, amounts.Get(items[k - 1].debt.key))
  }

  /** The part of debt k covered by the credit: what is left of the credit after the debts before it. */
  function Offset(items: seq<Item>, amounts: Amounts, credit: int, k: int): int
    requires 0 <= k < |items|
  {
    Max(0, Min(amounts.Get(items[k].debt.key), credit - DebtsBefore(items, amounts, k)))
  }

  function OffsetLine(item: Item, part: int): Line {
    MakeLine(item.rows.section, item.debt.role, item.debt.code, item.debt.referenceYear, part,
             if item.rows.section.Treasury? then Some(SINGLE_PAYMENT_INSTALLMENT_CODE) else None,
             item.rows.officeCode, item.debt.positionCode, None)
  }

  function OffsetLines(items: seq<Item>, amounts: Amounts, credit: int, k: int): seq<Line>
    requires 0 <= k <= |items|
  {
    if k == 0 then []
    else OffsetLines(items, amounts, credit, k - 1) +
         if Offset(items, amounts, credit, k - 1) > 0
           then [OffsetLine(items[k - 1], Offset(items, amounts, credit, k - 1))] else []
  }

  function TotalCredit(credits: seq<AvailableCredit>): int {
    if credits == [] then 0 else TotalCredit(credits[..|credits| - 1]) + credits[|credits| - 1].amount
  }

  function CreditsBefore(credits: seq<AvailableCredit>, k: int): (s: int)
    requires 0 <= k <= |credits|
    ensures s >= 0
  {
    if k == 0 then 0 else CreditsBefore(credits, k - 1) + Max(0, credits[k - 1].amount)
  }

  /** The part of credit k that is consumed: what is left to match after the credits before it. */
  function Used(credits: seq<AvailableCredit>, covered: int, k: int): int
    requires 0 <= k < |credits|
  {
    Max(0, Min(credits[k].amount, covered - CreditsBefore(credits, k)))
  }

  /** The credits consumed among the first k, in order. */
  function UsedIndices(credits: seq<AvailableCredit>, covered: int, k: int): (s: seq<int>)
    requires 0 <= k <= |credits|
    ensures forall i :: 0 <= i < |s| ==> 0 <= s[i] < k
  {
    if k == 0 then []
    else UsedIndices(credits, covered, k - 1) + if Used(credits, covered, k - 1) > 0 then [k - 1] else []
  }

  function CreditLine(c: AvailableCredit, used: int, inpsOfficeCode: string): Line {
    Line(c.section, Credit, c.code,
         if c.section.Inps? then Some(inpsOfficeCode) else None, None,
         if c.installmentCode.Some? then c.installmentCode
         else if c.section.Inps? then None else Some(SINGLE_PAYMENT_INSTALLMENT_CODE),
         c.localCode,
         if c.section.Inps? then Some("01/" + Radix.Text(c.referenceYear)) else None,
         if c.section.Inps? then Some("12/" + Radix.Text(c.referenceYear)) else None,
         c.referenceYear, 0, None, Some(used))
  }

  function CreditLines(credits: seq<AvailableCredit>, covered: int, k: int, inpsOfficeCode: string): (lines: seq<Line>)
    requires 0 <= k <= |credits|
    ensures |lines| == |UsedIndices(credits, covered, k)|
  {
    var s := UsedIndices(credits, covered, k);
    seq(|s|, i requires 0 <= i < |s| => CreditLine(credits[s[i]], Used(credits, covered, s[i]), inpsOfficeCode))
  }

  function Usages(credits: seq<AvailableCredit>, covered: int, k: int): (u: seq<Usage>)
    requires 0 <= k <= |credits|
    ensures |u| == |UsedIndices(credits, covered, k)|
  {
    var s := UsedIndices(credits, covered, k);
    seq(|s|, i requires 0 <= i < |s| => Usage(credits[s[i]].id, Used(credits, covered, s[i])))
  }

  /** The residual amounts, each debt less what is covered of it. */
  predicate IsResidual(residual: Amounts, items: seq<Item>, amounts: Amounts, credit: int, k: int)
    requires 0 <= k <= |items|
  {
    && (forall j :: 0 <= j < k ==>
          residual.Get(items[j].debt.key) == amounts.Get(items[j].debt.key) - Offset(items, amounts, credit, j))
    && (forall key :: (forall j :: 0 <= j < k ==> items[j].debt.key != key) ==> residual.Get(key) == amounts.Get(key))
  }

  /** What the program must return. */
  predicate IsOutcome(
    o: Outcome, items: seq<Item>, amounts: Amounts, credits: seq<AvailableCredit>, inpsOfficeCode: string, date: Day
  ) {
    var credit, n := TotalCredit(credits), |items|;
    var covered := Min(credit, DebtsBefore(items, amounts, n));
    if credit <= 0 then o == Outcome(None, amounts, [], 0)
    else
      && IsResidual(o.amounts, items, amounts, credit, n)
      && o.unusedCredit == credit - covered
      && o.usages == Usages(credits, covered, |credits|)
      && o.form == if covered == 0 then None
                   else Some(MakeForm(CompensationForm, date,
                                      OffsetLines(items, amounts, credit, n)
                                        + CreditLines(credits, covered, |credits|, inpsOfficeCode), None))
  }

  method BuildCompensation(
    codes: TaxCodes, scheme: Option<InpsScheme>, taxYear: int, amounts: Amounts, inpsOfficeCode: string,
    date: Day, credits: seq<AvailableCredit>, order: Order
  ) returns (o: Outcome)
    ensures IsOutcome(o, OrderedItems(codes, scheme, taxYear, order), amounts, credits, inpsOfficeCode, date)
  {
    var items := OrderedItems(codes, scheme, taxYear, order);
    OrderedItemsAre(codes, scheme, taxYear, order);
    hide OrderedItems;
    var available := SumCredits(credits);
    if available <= 0 {
      return Outcome(None, amounts, [], 0);
    }
    var lines, residual, covered;
    lines, residual, covered, available := CoverDebts(items, amounts, available);
    if covered == 0 {
      NothingUsed(credits, |credits|);
      return Outcome(None, residual, [], available);
    }
    var usages;
    lines, usages := MatchCredits(lines, credits, covered, inpsOfficeCode);
    o := Outcome(Some(MakeForm(CompensationForm, date, lines, None)), residual, usages, available);
  }

  method SumCredits(credits: seq<AvailableCredit>) returns (total: int)
    ensures total == TotalCredit(credits)
  {
    total := 0;
    for k := 0 to |credits|
      invariant total == TotalCredit(credits[..k])
    {
      assert credits[..k + 1][..k] == credits[..k];
      total := total + credits[k].amount;
    }
    assert credits[..|credits|] == credits;
  }

  /** The loop over the debts, in order, until the credit is used up. */
  method CoverDebts(items: seq<Item>, amounts: Amounts, credit: int)
    returns (lines: seq<Line>, residual: Amounts, covered: int, available: int)
    requires credit > 0 && DistinctKeys(items)
    ensures lines == OffsetLines(items, amounts, credit, |items|)
    ensures IsResidual(residual, items, amounts, credit, |items|)
    ensures covered == Min(credit, DebtsBefore(items, amounts, |items|)) && available == credit - covered
  {
    hide Amounts.Get;
    hide Amounts.With;
    hide OffsetLine;
    hide IsResidual;
    hide OffsetLines;
    hide Offset;
    hide DebtsBefore;
    hide DistinctKeys;
    NoOffsetsYet(items, amounts, credit);
    lines, residual, covered, available := [], amounts, 0, credit;
    for k := 0 to |items|
      invariant lines == OffsetLines(items, amounts, credit, k)
      invariant IsResidual(residual, items, amounts, credit, k)
      invariant covered == Min(credit, DebtsBefore(items, amounts, k)) && available == credit - covered
    {
      if available <= 0 {
        NoMoreOffsets(items, amounts, credit, k, residual);
        return;
      }
      DebtTurn(items, amounts, credit, k, residual);
      var key := items[k].debt.key;
      var due := residual.Get(key);
      var part := Min(due, available);
      if due > 0 {
        lines := lines + [OffsetLine(items[k], part)];
        residual := residual.With(key, due - part);
        available := available - part;
        covered := covered + part;
      }
    }
  }

  lemma NoOffsetsYet(items: seq<Item>, amounts: Amounts, credit: int)
    ensures OffsetLines(items, amounts, credit, 0) == [] && DebtsBefore(items, amounts, 0) == 0
    ensures IsResidual(amounts, items, amounts, credit, 0)
  {
  }

  /** One turn: a debt still due is covered as far as the credit goes. */
  lemma DebtTurn(items: seq<Item>, amounts: Amounts, credit: int, k: int, residual: Amounts)
    requires 0 <= k < |items| && DistinctKeys(items) && IsResidual(residual, items, amounts, credit, k)
    requires credit > DebtsBefore(items, amounts, k)
    ensures var key, before := items[k].debt.key, DebtsBefore(items, amounts, k);
            var due := residual.Get(key);
            var part := Min(due, credit - before);
            if due > 0 then
              && OffsetLines(items, amounts, credit, k + 1)
                 == OffsetLines(items, amounts, credit, k) + [OffsetLine(items[k], part)]
              && IsResidual(residual.With(key, due - part), items, amounts, credit, k + 1)
              && Min(credit, DebtsBefore(items, amounts, k + 1)) == before + part
            else
              && OffsetLines(items, amounts, credit, k + 1) == OffsetLines(items, amounts, credit, k)
              && IsResidual(residual, items, amounts, credit, k + 1)
              && DebtsBefore(items, amounts, k + 1) == before
  {
    hide Amounts.Get;
    hide Amounts.With;
    hide OffsetLine;
    hide OffsetLines;
    hide IsResidual;
    hide Offset;
    hide DebtsBefore;
    Untouched(items, amounts, credit, k, residual);
    var part := Max(0, Min(residual.Get(items[k].debt.key), credit - DebtsBefore(items, amounts, k)));
    OffsetNow(items, amounts, credit, k, part);
    ResidualStep(items, amounts, credit, k, residual, part);
  }

  lemma OffsetNow(items: seq<Item>, amounts: Amounts, credit: int, k: int, part: int)
    requires 0 <= k < |items| && credit > DebtsBefore(items, amounts, k)
    requires part == Max(0, Min(amounts.Get(items[k].debt.key), credit - DebtsBefore(items, amounts, k)))
    ensures part == Offset(items, amounts, credit, k)
    ensures OffsetLines(items, amounts, credit, k + 1)
         == OffsetLines(items, amounts, credit, k) + if part > 0 then [OffsetLine(items[k], part)] else []
    ensures DebtsBefore(items, amounts, k + 1)
            == DebtsBefore(items, amounts, k) + Max(0, amounts.Get(items[k].debt.key))
  {
    hide Amounts.Get;
    hide OffsetLine;
  }

  lemma Untouched(items: seq<Item>, amounts: Amounts, credit: int, k: int, residual: Amounts)
    requires 0 <= k < |items| && DistinctKeys(items) && IsResidual(residual, items, amounts, credit, k)
    ensures residual.Get(items[k].debt.key) == amounts.Get(items[k].debt.key)
  {
    hide Amounts.Get;
    hide Offset;
  }

  lemma ResidualStep(items: seq<Item>, amounts: Amounts, credit: int, k: int, residual: Amounts, part: int)
    requires 0 <= k < |items| && DistinctKeys(items) && IsResidual(residual, items, amounts, credit, k)
    requires part == Offset(items, amounts, credit, k)
    ensures var key := items[k].debt.key;
            && IsResidual(residual.With(key, residual.Get(key) - part), items, amounts, credit, k + 1)
            && (part == 0 ==> IsResidual(residual, items, amounts, credit, k + 1))
  {
    hide Amounts.Get;
    hide Amounts.With;
    hide Offset;
  }

  lemma {:induction false} NoMoreOffsets(items: seq<Item>, amounts: Amounts, credit: int, k: int, residual: Amounts)
    requires 0 <= k <= |items| && DistinctKeys(items) && DebtsBefore(items, amounts, k) >= credit > 0
             && IsResidual(residual, items, amounts, credit, k)
    ensures OffsetLines(items, amounts, credit, |items|) == OffsetLines(items, amounts, credit, k)
    ensures IsResidual(residual, items, amounts, credit, |items|)
    ensures DebtsBefore(items, amounts, |items|) >= credit
    decreases |items| - k
  {
    hide Amounts.Get;
    hide IsResidual;
    if k < |items| {
      assert Offset(items, amounts, credit, k) == 0;
      hide Offset;
      ResidualStep(items, amounts, credit, k, residual, 0);
      NoMoreOffsets(items, amounts, credit, k + 1, residual);
    }
  }

  /** Consuming the credits, in order, until the covered amount is matched. */
  method MatchCredits(offsets: seq<Line>, credits: seq<AvailableCredit>, covered: int, inpsOfficeCode: string)
    returns (lines: seq<Line>, usages: seq<Usage>)
    requires covered > 0
    ensures lines == offsets + CreditLines(credits, covered, |credits|, inpsOfficeCode)
    ensures usages == Usages(credits, covered, |credits|)
  {
    hide UsedIndices;
    hide CreditLines;
    hide Usages;
    hide CreditLine;
    hide Used;
    hide CreditsBefore;
    lines, usages := offsets, [];
    var toMatch := covered;
    NoCreditsYet(credits, covered, inpsOfficeCode);
    for k := 0 to |credits|
      invariant toMatch == Max(0, covered - CreditsBefore(credits, k))
      invariant lines == offsets + CreditLines(credits, covered, k, inpsOfficeCode)
      invariant usages == Usages(credits, covered, k)
    {
      if toMatch <= 0 {
        NoCreditsMore(credits, covered, k, inpsOfficeCode);
        return;
      }
      UsedNow(credits, covered, k);
      UsedStep(credits, covered, k + 1, inpsOfficeCode);
      var c := credits[k];
      var used := Min(c.amount, toMatch);
      if used > 0 {
        Concatenated(offsets, CreditLines(credits, covered, k, inpsOfficeCode), [CreditLine(c, used, inpsOfficeCode)]);
        lines := lines + [CreditLine(c, used, inpsOfficeCode)];
        usages := usages + [Usage(c.id, used)];
        toMatch := toMatch - used;
      }
    }
  }

  lemma NoCreditsYet(credits: seq<AvailableCredit>, covered: int, office: string)
    ensures CreditLines(credits, covered, 0, office) == [] && Usages(credits, covered, 0) == []
            && CreditsBefore(credits, 0) == 0
  {
  }

  lemma NoCreditsMore(credits: seq<AvailableCredit>, covered: int, k: int, office: string)
    requires 0 <= k <= |credits| && CreditsBefore(credits, k) >= covered
    ensures CreditLines(credits, covered, |credits|, office) == CreditLines(credits, covered, k, office)
    ensures Usages(credits, covered, |credits|) == Usages(credits, covered, k)
  {
    NothingMoreUsed(credits, covered, k, |credits|);
    hide UsedIndices;
    hide CreditLine;
    hide Used;
  }

  /** The row and the usage of one credit. */
  lemma UsedStep(credits: seq<AvailableCredit>, covered: int, k: int, office: string)
    requires 0 < k <= |credits|
    ensures var used := Used(credits, covered, k - 1);
            && Usages(credits, covered, k) ==
                 (if used > 0 then Usages(credits, covered, k - 1) + [Usage(credits[k - 1].id, used)]
                  else Usages(credits, covered, k - 1))
            && CreditLines(credits, covered, k, office) ==
                 (if used > 0 then CreditLines(credits, covered, k - 1, office)
                  + [CreditLine(credits[k - 1], used, office)]
                  else CreditLines(credits, covered, k - 1, office))
  {
    hide Used;
    hide CreditLine;
  }

  lemma UsedNow(credits: seq<AvailableCredit>, covered: int, k: int)
    requires 0 <= k < |credits| && covered > CreditsBefore(credits, k)
    ensures Used(credits, covered, k) == Max(0, Min(credits[k].amount, covered - CreditsBefore(credits, k)))
    ensures CreditsBefore(credits, k + 1) == CreditsBefore(credits, k) + Max(0, credits[k].amount)
  {
  }

  lemma {:induction false} NothingMoreUsed(credits: seq<AvailableCredit>, covered: int, k: int, m: int)
    requires 0 <= k <= m <= |credits| && CreditsBefore(credits, k) >= covered
    ensures UsedIndices(credits, covered, m) == UsedIndices(credits, covered, k)
    ensures CreditsBefore(credits, m) >= covered
    decreases m - k
  {
    if k < m {
      NothingMoreUsed(credits, covered, k, m - 1);
    }
  }

  lemma NothingUsed(credits: seq<AvailableCredit>, m: int)
    requires 0 <= m <= |credits|
    ensures Usages(credits, 0, m) == []
  {
    NothingMoreUsed(credits, 0, 0, m);
  }
}
