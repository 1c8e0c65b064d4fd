/** How interest is grouped on a form, and what the installment code of a row says. */
module InterestGroups {
  import opened F24
  import opened Radix
  import opened Rounding
  import opened Schedule
  import opened TelematicAmount
  import opened Wrappers

  predicate SameGroup(section: Section, year: int, otherSection: Section, otherYear: int) {
    section == otherSection && year == otherYear
  }

  /** What the components of a section and year put on the interest rows of form i. */
  function GroupInterest(cs: seq<Component>, i: int, n: int, section: Section, year: int): int
    requires 0 <= i < n && AllShaped(cs, n)
  {
    if cs == [] then 0
    else
      var c := cs[|cs| - 1];
      GroupInterest(cs[..|cs| - 1], i, n, section, year)
      + if SameGroup(c.rows.section, c.debt.referenceYear, section, year) && AddsInterest(c, i)
        then c.plan[i].interest + ShareWithInterest(c, i) else 0
  }

  predicate OneEntryEach(entries: seq<InterestEntry>) {
    forall j, k :: 0 <= j < k < |entries| ==>
      !SameGroup(entries[j].rows.section, entries[j].referenceYear, entries[k].rows.section, entries[k].referenceYear)
  }

  /** The amount of a group in the entries, zero when it has none. */
  function EntryOf(entries: seq<InterestEntry>, section: Section, year: int): int {
    if entries == [] then 0
    else if SameGroup(entries[0].rows.section, entries[0].referenceYear, section, year) then entries[0].amount
    else EntryOf(entries[1..], section, year)
  }

  lemma {:induction false} AddInterestToGroup(entries: seq<InterestEntry>, c: Component, amount: int, section: Section,
                                              year: int)
    ensures EntryOf(AddInterest(entries, c, amount), section, year) == EntryOf(entries, section, year)
              + if SameGroup(c.rows.section, c.debt.referenceYear, section, year) then amount else 0
  {
    if entries != [] {
      AddInterestToGroup(entries[1..], c, amount, section, year);
    }
  }

  lemma {:induction false} AddInterestGroups(entries: seq<InterestEntry>, c: Component, amount: int, k: int)
    requires 0 <= k < |AddInterest(entries, c, amount)|
    ensures var e := AddInterest(entries, c, amount)[k];
            if k < |entries| then SameGroup(e.rows.section, e.referenceYear, entries[k].rows.section,
                                            entries[k].referenceYear)
            else SameGroup(e.rows.section, e.referenceYear, c.rows.section, c.debt.referenceYear)
                 && forall j :: 0 <= j < |entries| ==>
                      !SameGroup(entries[j].rows.section, entries[j].referenceYear, c.rows.section,
                                 c.debt.referenceYear)
  {
    if entries != [] && k > 0
       && !SameGroup(entries[0].rows.section, entries[0].referenceYear, c.rows.section, c.debt.referenceYear) {
      AddInterestGroups(entries[1..], c, amount, k - 1);
    }
  }

  lemma AddInterestOneEach(entries: seq<InterestEntry>, c: Component, amount: int)
    requires OneEntryEach(entries)
    ensures OneEntryEach(AddInterest(entries, c, amount))
  {
    hide AddInterest;
    var all := AddInterest(entries, c, amount);
    forall j, k | 0 <= j < k < |all|
      ensures !SameGroup(all[j].rows.section, all[j].referenceYear, all[k].rows.section, all[k].referenceYear)
    {
      AddInterestGroups(entries, c, amount, j);
      AddInterestGroups(entries, c, amount, k);
    }
  }

  lemma {:induction false} EntryAt(entries: seq<InterestEntry>, k: int)
    requires OneEntryEach(entries) && 0 <= k < |entries|
    ensures EntryOf(entries, entries[k].rows.section, entries[k].referenceYear) == entries[k].amount
  {
    if k > 0 {
      assert !SameGroup(entries[0].rows.section, entries[0].referenceYear, entries[k].rows.section,
                        entries[k].referenceYear);
      assert forall j :: 0 <= j < |entries[1..]| ==> entries[1..][j] == entries[j + 1];
      EntryAt(entries[1..], k - 1);
    }
  }

  lemma {:induction false} EntriesAreGroups(cs: seq<Component>, i: int, n: int, section: Section, year: int)
    requires 0 <= i < n && AllShaped(cs, n)
    ensures OneEntryEach(InterestEntries(cs, i, n))
    ensures EntryOf(InterestEntries(cs, i, n), section, year) == GroupInterest(cs, i, n, section, year)
  {
    hide AddInterest;
    hide Shaped;
    hide OneEntryEach;
    if cs == [] {
      NoEntries(section, year);
    } else {
      var before, c := cs[..|cs| - 1], cs[|cs| - 1];
      assert Shaped(c, n);
      EntriesAreGroups(before, i, n, section, year);
      AddsToGroups(InterestEntries(before, i, n), c, i, n, section, year);
      hide AddedInterest;
      hide EntryOf;
    }
  }

  lemma NoEntries(section: Section, year: int)
    ensures OneEntryEach([]) && EntryOf([], section, year) == 0
  {
  }

  lemma AddsToGroups(entries: seq<InterestEntry>, c: Component, i: int, n: int, section: Section, year: int)
    requires 0 <= i < n && Shaped(c, n) && OneEntryEach(entries)
    ensures OneEntryEach(AddedInterest(entries, c, i))
    ensures EntryOf(AddedInterest(entries, c, i), section, year) == EntryOf(entries, section, year)
              + if SameGroup(c.rows.section, c.debt.referenceYear, section, year) && AddsInterest(c, i)
                then c.plan[i].interest + ShareWithInterest(c, i) else 0
  {
    hide AddInterest;
    hide EntryOf;
    hide OneEntryEach;
    if AddsInterest(c, i) {
      var amount := c.plan[i].interest + ShareWithInterest(c, i);
      AddInterestToGroup(entries, c, amount, section, year);
      AddInterestOneEach(entries, c, amount);
    }
  }

  /** A form has one interest row for each section and year, which takes exactly the interest and the moved surcharge of
      the debts of that section and year. */
  lemma InterestRowTakesItsGroup(cs: seq<Component>, i: int, n: int, k: int)
    requires 0 <= i < n && AllShaped(cs, n) && 0 <= k < |InterestEntries(cs, i, n)|
    ensures OneEntryEach(InterestEntries(cs, i, n))
    ensures var l := FormLines(cs, i, n)[|cs| + k];
            l.role == InterestRow && l.debitAmount == GroupInterest(cs, i, n, l.section, l.referenceYear)
  {
    var entries := InterestEntries(cs, i, n);
    EntriesAreGroups(cs, i, n, entries[k].rows.section, entries[k].referenceYear);
    hide InterestEntries;
    EntryAt(entries, k);
    hide GroupInterest;
    hide EntryOf;
    hide OneEntryEach;
    hide DebtLine;
  }

  /** The code of an installment row says which installment it is and of how many. */
  lemma InstallmentCodeIsRead(number: int, total: int)
    requires 0 <= number < 100 && 0 <= total < 100
    ensures var code := InstallmentCode(number, total);
            && |code| == 4 && AreDigits(code, 10)
            && AreDigits(code[..2], 10) && Read(code[..2], 10) == number
            && AreDigits(code[2..], 10) && Read(code[2..], 10) == total
  {
    TwoDigitsBack(number);
    TwoDigitsBack(total);
    hide Pad2;
    hide Read;
    var code := InstallmentCode(number, total);
    assert code[..2] == Pad2(number) && code[2..] == Pad2(total);
  }
}
