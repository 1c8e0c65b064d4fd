/** The rows of an installment form in terms of the debts: when none is negative, and what they add up to. */
module ScheduleRows {
  import opened F24
  import opened Installments
  import opened InterestGroups
  import opened Rounding
  import opened Schedule
  import opened ScheduleForms
  import opened ScheduleInputs
  import opened ScheduleLaws
  import opened Wrappers

  predicate SameKey(a: Component, b: Component) {
    SameGroup(a.rows.section, a.debt.referenceYear, b.rows.section, b.debt.referenceYear)
  }

  /** Each section and year has one debt. */
  predicate OneDebtEach(cs: seq<Component>) {
    forall j, k :: 0 <= j < k < |cs| ==> !SameKey(cs[j], cs[k])
  }

  /** What the component adds to an interest row, if anything, is not negative. */
  predicate AddedOk(c: Component, i: int, n: int)
    requires 0 <= i < n
  {
    Shaped(c, n) && (AddsInterest(c, i) ==> c.plan[i].interest + ShareWithInterest(c, i) >= 0)
  }

  predicate AddedNonNegative(cs: seq<Component>, i: int, n: int)
    requires 0 <= i < n
  {
    forall k :: 0 <= k < |cs| ==> AddedOk(cs[k], i, n)
  }

  lemma {:induction false} GroupNonNegative(cs: seq<Component>, i: int, n: int, section: Section, year: int)
    requires 0 <= i < n && AllShaped(cs, n)
    requires AddedNonNegative(cs, i, n)
    ensures GroupInterest(cs, i, n, section, year) >= 0
  {
    hide AddsInterest;
    hide ShareWithInterest;
    if cs != [] {
      GroupNonNegative(cs[..|cs| - 1], i, n, section, year);
    }
  }

  lemma {:induction false} GroupOfNone(cs: seq<Component>, i: int, n: int, section: Section, year: int)
    requires 0 <= i < n && AllShaped(cs, n)
    requires forall k :: 0 <= k < |cs| ==> !SameGroup(cs[k].rows.section, cs[k].debt.referenceYear, section, year)
    ensures GroupInterest(cs, i, n, section, year) == 0
  {
    hide AddsInterest;
    hide ShareWithInterest;
    if cs != [] {
      GroupOfNone(cs[..|cs| - 1], i, n, section, year);
    }
  }

  lemma {:induction false} GroupOfOne(cs: seq<Component>, i: int, n: int, j: int)
    requires 0 <= i < n && AllShaped(cs, n) && OneDebtEach(cs) && 0 <= j < |cs|
    ensures var c := cs[j];
            Shaped(c, n) && GroupInterest(cs, i, n, c.rows.section, c.debt.referenceYear)
                            == if AddsInterest(c, i) then c.plan[i].interest + ShareWithInterest(c, i) else 0
  {
    hide AddsInterest;
    hide ShareWithInterest;
    var front, last, c := cs[..|cs| - 1], cs[|cs| - 1], cs[j];
    assert Shaped(c, n);
    if j == |cs| - 1 {
      assert forall k :: 0 <= k < |front| ==> !SameKey(cs[k], cs[j]);
      GroupOfNone(front, i, n, c.rows.section, c.debt.referenceYear);
    } else {
      assert !SameKey(cs[j], cs[|cs| - 1]);
      GroupOfOne(front, i, n, j);
    }
  }

  lemma {:induction false} EntryExists(entries: seq<InterestEntry>, section: Section, year: int)
    requires EntryOf(entries, section, year) != 0
    ensures exists k :: 0 <= k < |entries| && entries[k].amount == EntryOf(entries, section, year)
  {
    if !SameGroup(entries[0].rows.section, entries[0].referenceYear, section, year) {
      EntryExists(entries[1..], section, year);
      var k :| 0 <= k < |entries[1..]| && entries[1..][k].amount == EntryOf(entries[1..], section, year);
      assert entries[k + 1].amount == EntryOf(entries, section, year);
    }
  }

  predicate EntriesNonNegative(entries: seq<InterestEntry>) {
    forall k :: 0 <= k < |entries| ==> entries[k].amount >= 0
  }

  /** No interest row is negative exactly when no debt adds a negative amount. */
  lemma InterestRowsNonNegativeIff(cs: seq<Component>, i: int, n: int)
    requires 0 <= i < n && AllShaped(cs, n) && OneDebtEach(cs)
    ensures EntriesNonNegative(InterestEntries(cs, i, n)) <==> AddedNonNegative(cs, i, n)
  {
    hide AddedOk;
    hide InterestEntries;
    hide OneDebtEach;
    hide Shaped;
    hide GroupInterest;
    hide EntryOf;
    hide OneEntryEach;
    var entries := InterestEntries(cs, i, n);
    if AddedNonNegative(cs, i, n) {
      forall k | 0 <= k < |entries|
        ensures entries[k].amount >= 0
      {
        EntriesAreGroups(cs, i, n, entries[k].rows.section, entries[k].referenceYear);
        EntryAt(entries, k);
        GroupNonNegative(cs, i, n, entries[k].rows.section, entries[k].referenceYear);
      }
    }
    if EntriesNonNegative(entries) {
      forall k | 0 <= k < |cs|
        ensures AddedOk(cs[k], i, n)
      {
        AddedIsAnEntry(cs, i, n, k);
      }
    }
  }

  lemma AddedIsAnEntry(cs: seq<Component>, i: int, n: int, k: int)
    requires 0 <= i < n && AllShaped(cs, n) && OneDebtEach(cs) && 0 <= k < |cs|
    requires EntriesNonNegative(InterestEntries(cs, i, n))
    ensures AddedOk(cs[k], i, n)
  {
    hide AddsInterest;
    hide ShareWithInterest;
    hide InterestEntries;
    hide OneDebtEach;
    hide GroupInterest;
    hide EntryOf;
    hide OneEntryEach;
    var c := cs[k];
    GroupOfOne(cs, i, n, k);
    EntriesAreGroups(cs, i, n, c.rows.section, c.debt.referenceYear);
    var amount := EntryOf(InterestEntries(cs, i, n), c.rows.section, c.debt.referenceYear);
    if amount != 0 {
      EntryExists(InterestEntries(cs, i, n), c.rows.section, c.debt.referenceYear);
    }
  }

  // ---------- In terms of the debts ----------

  /** The rows of the debt in installment i are not negative. */
  predicate PartsFit(d: Due, t: Terms, i: int)
    requires t.installments >= 1
  {
    OwnPart(d, t, i) >= 0 && (Added(d, t, i) ==> InterestPart(d, t, i) + MovedPart(d, t, i) >= 0)
  }

  predicate AllPartsFit(dues: seq<Due>, t: Terms, i: int)
    requires t.installments >= 1
  {
    forall k :: 0 <= k < |dues| ==> PartsFit(dues[k], t, i)
  }

  predicate LinesNonNegative(lines: seq<Line>) {
    forall k :: 0 <= k < |lines| ==> lines[k].debitAmount >= 0
  }

  lemma FormNonNegativeIff(cs: seq<Component>, dues: seq<Due>, t: Terms, i: int)
    requires 0 <= i < t.installments && AllShaped(cs, t.installments) && OneDebtEach(cs) && AllFrom(cs, dues, t)
    ensures LinesNonNegative(FormLines(cs, i, t.installments)) <==> AllPartsFit(dues, t, i)
  {
    var n := t.installments;
    InterestRowsNonNegativeIff(cs, i, n);
    hide OneDebtEach;
    hide DebtLine;
    hide InterestEntries;
    LinesByKind(cs, i, n);
    hide FormLines;
    hide LinesNonNegative;
    hide EntriesNonNegative;
    forall k | 0 <= k < |cs|
      ensures Shaped(cs[k], n) && (PartsFit(dues[k], t, i)
                                   <==> DebtLine(cs[k], i, n).debitAmount >= 0 && AddedOk(cs[k], i, n))
    {
      assert ComesFrom(cs[k], dues[k], t);
      hide OwnPart;
      hide InterestPart;
      hide MovedPart;
    }
    hide ComesFrom;
    hide PartsFit;
    hide AddedOk;
    hide Shaped;
  }

  lemma LinesByKind(cs: seq<Component>, i: int, n: int)
    requires 0 <= i < n && AllShaped(cs, n)
    ensures LinesNonNegative(FormLines(cs, i, n))
        <==> EntriesNonNegative(InterestEntries(cs, i, n)) && forall k :: 0 <= k < |cs| ==>
             Shaped(cs[k], n) && DebtLine(cs[k], i, n).debitAmount >= 0
  {
    hide DebtLine;
    hide InterestEntries;
    hide Shaped;
    var entries, lines := InterestEntries(cs, i, n), FormLines(cs, i, n);
    forall k | 0 <= k < |cs|
      ensures Shaped(cs[k], n) && lines[k] == DebtLine(cs[k], i, n)
    {
    }
    forall k | 0 <= k < |entries|
      ensures lines[|cs| + k].debitAmount == entries[k].amount
    {
    }
    assert |lines| == |cs| + |entries|;
    hide FormLines;
    if LinesNonNegative(lines) {
      forall k | 0 <= k < |entries|
        ensures entries[k].amount >= 0
      {
        assert lines[|cs| + k].debitAmount >= 0;
      }
    } else {
      var k :| 0 <= k < |lines| && lines[k].debitAmount < 0;
      assert k >= |cs| ==> entries[k - |cs|].amount == lines[|cs| + (k - |cs|)].debitAmount;
    }
  }

  /** What installment i takes of a debt. */
  function TakenOf(d: Due, t: Terms, i: int): int
    requires t.installments >= 1
  {
    OwnPart(d, t, i) + if Added(d, t, i) then InterestPart(d, t, i) + MovedPart(d, t, i) else 0
  }

  function TakenOfAll(dues: seq<Due>, t: Terms, i: int): int
    requires t.installments >= 1
  {
    if dues == [] then 0 else TakenOfAll(dues[..|dues| - 1], t, i) + TakenOf(dues[|dues| - 1], t, i)
  }

  lemma {:induction false} FormTakes(cs: seq<Component>, dues: seq<Due>, t: Terms, i: int)
    requires 0 <= i < t.installments && AllShaped(cs, t.installments) && AllFrom(cs, dues, t)
    ensures DebitTotal(FormLines(cs, i, t.installments)) == TakenOfAll(dues, t, i)
  {
    FormTotal(cs, i, t.installments);
    hide FormLines;
    TakenByRows(cs, dues, t, i);
  }

  lemma {:induction false} TakenByRows(cs: seq<Component>, dues: seq<Due>, t: Terms, i: int)
    requires 0 <= i < t.installments && AllShaped(cs, t.installments) && AllFrom(cs, dues, t)
    ensures RowTotals(cs, i, t.installments) - RowLost(cs, i, t.installments) == TakenOfAll(dues, t, i)
  {
    hide OwnPart;
    hide InterestPart;
    hide MovedPart;
    if cs != [] {
      var c, d := cs[|cs| - 1], dues[|dues| - 1];
      TakenByRows(cs[..|cs| - 1], dues[..|dues| - 1], t, i);
      TakenByRow(c, d, t, i);
      hide Lost;
      hide TakenOf;
      hide ComesFrom;
    }
  }

  lemma TakenByRow(c: Component, d: Due, t: Terms, i: int)
    requires 0 <= i < t.installments && ComesFrom(c, d, t)
    ensures c.plan[i].total - Lost(c, i) == TakenOf(d, t, i)
  {
    hide OwnPart;
    hide InterestPart;
    hide MovedPart;
    hide SurchargeShare;
  }

  // ---------- The sections of a tax year ----------

  lemma OneDebtEachOfSections(codes: TaxCodes, scheme: Option<InpsScheme>, taxYear: int, single: bool, amounts: Amounts,
                              t: Terms)
    requires ValidTerms(t)
    ensures OneDebtEach(Components(SectionsOf(codes, scheme, taxYear, single), amounts, t))
  {
    hide ValidTerms;
    hide PlanRows;
    var sections := SectionsOf(codes, scheme, taxYear, single);
    var items := Items(sections);
    ItemsDistinct(codes, scheme, taxYear, single);
    hide Items;
    hide SectionsOf;
    PositiveDistinct(items, amounts);
    var cs, p := Components(sections, amounts, t), Positive(items, amounts);
    forall j, k | 0 <= j < k < |cs|
      ensures !SameKey(cs[j], cs[k])
    {
      assert !SameItem(p[j], p[k]);
    }
  }

  predicate SameItem(a: Item, b: Item) {
    SameGroup(a.rows.section, a.debt.referenceYear, b.rows.section, b.debt.referenceYear)
  }

  predicate Distinct(items: seq<Item>) {
    forall j, k :: 0 <= j < k < |items| ==> !SameItem(items[j], items[k])
  }

  lemma ItemsDistinct(codes: TaxCodes, scheme: Option<InpsScheme>, taxYear: int, single: bool)
    ensures Distinct(Items(SectionsOf(codes, scheme, taxYear, single)))
  {
    ItemsOfSections(codes, scheme, taxYear, single);
    hide Items;
    hide SectionsOf;
  }

  lemma {:induction false} PositiveDistinct(items: seq<Item>, amounts: Amounts)
    requires Distinct(items)
    ensures Distinct(Positive(items, amounts))
    ensures forall k :: 0 <= k < |Positive(items, amounts)| ==> Positive(items, amounts)[k] in items
  {
    hide Amounts.Get;
    hide SameItem;
    if items != [] {
      assert forall k :: 0 <= k < |items[1..]| ==> items[1..][k] == items[k + 1];
      PositiveDistinct(items[1..], amounts);
      forall k | 0 <= k < |Positive(items[1..], amounts)|
        ensures !SameItem(items[0], Positive(items[1..], amounts)[k]) && Positive(items[1..], amounts)[k] in items
      {
        var j :| 0 <= j < |items[1..]| && items[1..][j] == Positive(items[1..], amounts)[k];
        assert items[j + 1] == Positive(items[1..], amounts)[k];
      }
    }
  }
}
