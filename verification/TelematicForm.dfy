/** Record V of the file: one F24 form. Sections, totals and balance, what is written of them and what is read back. */
module TelematicForm {
  import opened Dates
  import opened F24
  import opened Radix
  import opened Rounding
  import opened TelematicRecord
  import opened Wrappers

  /** The sections that are written. */
  type Written = s: Section | !s.OtherEntity? witness Treasury

  function Of(lines: seq<Line>, section: Section): (r: seq<Line>)
    ensures forall i :: 0 <= i < |r| ==> r[i].section == section
    ensures |r| == CountSection(lines, section)
  {
    if lines == [] then []
    else (if lines[0].section == section then [lines[0]] else []) + Of(lines[1..], section)
  }

  function RowLimit(section: Written): int { if section.Treasury? then 6 else 4 }

  function FirstRow(section: Written): int {
    match section case Treasury => 105 case Inps => 499 case Regional => 813 case Local => 1053
  }

  function RowWidth(section: Written): int {
    match section case Treasury => 58 case Inps => 67 case Regional => 44 case Local => 68
  }

  function TotalsAt(section: Written): int {
    match section case Treasury => 453 case Inps => 767 case Regional => 989 case Local => 1325
  }

  function RowAt(section: Written, i: int): int { FirstRow(section) + i * RowWidth(section) }

  function LineAt(lines: seq<Line>, i: int): Option<Line> {
    if 0 <= i < |lines| then Some(lines[i]) else None
  }

  /** MM/YYYY without its first slash. */
  function WithoutSlash(s: string): string {
    if s == [] then [] else if s[0] == '/' then s[1..] else [s[0]] + WithoutSlash(s[1..])
  }

  function Period(p: Option<string>): string { WithoutSlash(p.GetOr("")) }

  // ---------- The layout ----------

  function CodeOf(l: Option<Line>): string { if l.Some? then l.value.code else "" }
  function InstallmentOf(l: Option<Line>): string { if l.Some? then l.value.installmentCode.GetOr("0000") else "" }
  function YearText(l: Option<Line>): string { Text(if l.Some? then l.value.referenceYear else 0) }
  function DebitText(l: Option<Line>): string { Text(if l.Some? then l.value.debitAmount else 0) }
  function CreditText(l: Option<Line>): string { Text(if l.Some? then l.value.CreditOrZero() else 0) }
  function OfficeOf(l: Option<Line>): string { if l.Some? then l.value.officeCode.GetOr("0") else "0" }
  function PositionOf(l: Option<Line>): string { if l.Some? then l.value.positionCode.GetOr("") else "" }
  function RegionOf(l: Option<Line>): string { if l.Some? then l.value.localCode.GetOr("0") else "0" }
  function TownOf(l: Option<Line>): string { if l.Some? then l.value.localCode.GetOr("") else "" }
  function FromOf(l: Option<Line>): string { Period(if l.Some? then l.value.periodFrom else None) }
  function ToOf(l: Option<Line>): string { Period(if l.Some? then l.value.periodTo else None) }

  function TreasuryRow(at: int, l: Option<Line>): seq<Field> {
    [An(at, 4, CodeOf(l)), An(at + 4, 16, ""), An(at + 20, 4, InstallmentOf(l)), Nu(at + 24, 4, YearText(l)),
     Nu(at + 28, 15, DebitText(l)), Nu(at + 43, 15, CreditText(l))]
  }

  function InpsRow(at: int, l: Option<Line>): seq<Field> {
    [Nu(at, 4, OfficeOf(l)), An(at + 4, 4, CodeOf(l)), An(at + 8, 17, PositionOf(l)), Nu(at + 25, 6, FromOf(l)),
     Nu(at + 31, 6, ToOf(l)),
     Nu(at + 37, 15, DebitText(l)), Nu(at + 52, 15, CreditText(l))]
  }

  function RegionalRow(at: int, l: Option<Line>): seq<Field> {
    [Nu(at, 2, RegionOf(l)), An(at + 2, 4, CodeOf(l)), An(at + 6, 4, InstallmentOf(l)), Nu(at + 10, 4, YearText(l)),
     Nu(at + 14, 15, DebitText(l)), Nu(at + 29, 15, CreditText(l))]
  }

  function LocalRow(at: int, l: Option<Line>): seq<Field> {
    [An(at, 4, TownOf(l)), Nu(at + 4, 1, "0"), Nu(at + 5, 1, "0"), Nu(at + 6, 1, "0"), Nu(at + 7, 1, "0"),
     Nu(at + 8, 3, "0"),
     Nu(at + 11, 15, "0"), An(at + 26, 4, CodeOf(l)), An(at + 30, 4, InstallmentOf(l)), Nu(at + 34, 4, YearText(l)),
     Nu(at + 38, 15, DebitText(l)), Nu(at + 53, 15, CreditText(l))]
  }

  function RowFields(section: Written, at: int, l: Option<Line>): seq<Field> {
    match section
    case Treasury => TreasuryRow(at, l)
    case Inps => InpsRow(at, l)
    case Regional => RegionalRow(at, l)
    case Local => LocalRow(at, l)
  }

  /** The first k rows of a section, empty ones after the lines. */
  function Rows(section: Written, lines: seq<Line>, k: nat): seq<Field> {
    if k == 0 then [] else Rows(section, lines, k - 1) + RowFields(section, RowAt(section, k - 1), LineAt(lines, k - 1))
  }

  function Sign(lines: seq<Line>): string {
    if lines == [] then "" else if DebitTotal(lines) >= CreditTotal(lines) then "P" else "N"
  }

  function BalanceOf(lines: seq<Line>): int { DebitTotal(lines) - CreditTotal(lines) }

  function Totals(at: int, lines: seq<Line>): seq<Field> {
    [Nu(at, 15, Text(DebitTotal(lines))), Nu(at + 15, 15, Text(CreditTotal(lines))), An(at + 30, 1, Sign(lines)),
     Nu(at + 31, 15, Text(Abs(BalanceOf(lines))))]
  }

  function SectionFields(section: Written, lines: seq<Line>): seq<Field> {
    Rows(section, Of(lines, section), RowLimit(section)) + Totals(TotalsAt(section), Of(lines, section))
  }

  function InailRow(at: int): seq<Field> {
    [Nu(at, 5, "0"), Nu(at + 5, 8, "0"), Nu(at + 13, 2, "0"), Nu(at + 15, 6, "0"), Nu(at + 22, 15, "0"),
     Nu(at + 37, 15, "0")]
  }

  function EntityRow(at: int): seq<Field> {
    [Nu(at + 9, 9, "0"), Nu(at + 18, 6, "0"), Nu(at + 24, 6, "0"), Nu(at + 30, 15, "0"), Nu(at + 45, 15, "0")]
  }

  /** The sections the program does not use, at zero. */
  function InailFields(): seq<Field> { InailRow(1371) + InailRow(1423) + InailRow(1475) + Totals(1527, []) }

  function EntityFields(): seq<Field> { [Nu(1573, 4, "0")] + EntityRow(1577) + EntityRow(1637) + Totals(1697, []) }

  function Head(fiscalCode: string): seq<Field> {
    [An(2, 16, fiscalCode), Nu(18, 8, "1"), An(90, 1, "A"), Nu(94, 11, "0")]
  }

  /** GGMMAAAA, or with a separator. */
  function DayMonthYear(d: Day, separator: string): string {
    Pad2(DayOf(d)) + separator + Pad2(MonthOf(d)) + separator + Text(YearOf(d))
  }

  /** The final balance: the sum of the balances of the sections. */
  function FormBalance(lines: seq<Line>): int {
    BalanceOf(Of(lines, Treasury)) + BalanceOf(Of(lines, Inps)) + BalanceOf(Of(lines, Regional))
      + BalanceOf(Of(lines, Local))
  }

  function Foot(lines: seq<Line>, date: Day): seq<Field> {
    [Nu(1793, 15, Text(FormBalance(lines))), Nu(1808, 8, DayMonthYear(date, ""))]
  }

  function FormFields(fiscalCode: string, date: Day, lines: seq<Line>): seq<Field> {
    Head(fiscalCode) + SectionFields(Treasury, lines) + SectionFields(Inps, lines) + SectionFields(Regional, lines)
    + SectionFields(Local, lines) + InailFields() + EntityFields() + Foot(lines, date)
  }

  // ---------- What is accepted ----------

  predicate IsTown(s: string) {
    |s| == 4 && forall i :: 0 <= i < 4 ==> 'A' <= s[i] <= 'Z' || '0' <= s[i] <= '9'
  }

  /** The INPS office, region or municipality of a line, checked before writing it. */
  predicate PlaceOk(l: Line) {
    match l.section
    case Inps => var s := l.officeCode.GetOr(""); |s| == 4 && AreDigits(s, 10)
    case Regional => var s := l.localCode.GetOr(""); |s| == 2 && AreDigits(s, 10)
    case Local => IsTown(l.localCode.GetOr(""))
    case _ => true
  }

  predicate SectionOk(section: Written, lines: seq<Line>) {
    CountSection(lines, section) <= RowLimit(section) && forall i :: 0 <= i < |Of(lines, section)| ==>
      PlaceOk(Of(lines, section)[i])
  }

  /** The form is written: only known sections, within the rows of the model, with their places; every value fits its
      field and the final balance is not negative. */
  predicate FormOk(fiscalCode: string, date: Day, lines: seq<Line>) {
    && CountSection(lines, OtherEntity) == 0
    && SectionOk(Treasury, lines) && SectionOk(Inps, lines) && SectionOk(Regional, lines) && SectionOk(Local, lines)
    && FormBalance(lines) >= 0
    && AllFit(FormFields(fiscalCode, date, lines))
  }

  // ---------- No field meets another ----------

  lemma RowInOrder(section: Written, at: int, l: Option<Line>)
    ensures InOrder(RowFields(section, at, l), at, at + RowWidth(section))
  {
    hide InOrder;
    match section {
      case Treasury => TreasuryRowInChain(at, l);
      case Inps => InpsRowInChain(at, l);
      case Regional => RegionalRowInChain(at, l);
      case Local => LocalRowInChain(at, l);
    }
    hide InChain;
    hide TreasuryRow;
    hide InpsRow;
    hide RegionalRow;
    hide LocalRow;
    ChainInOrder(RowFields(section, at, l), at, at + RowWidth(section));
  }

  lemma TreasuryRowInChain(at: int, l: Option<Line>)
    ensures InChain(TreasuryRow(at, l), at, at + 58)
  {
    hide Text;
    hide CodeOf;
    hide InstallmentOf;
  }

  lemma InpsRowInChain(at: int, l: Option<Line>)
    ensures InChain(InpsRow(at, l), at, at + 67)
  {
    hide Text;
    hide CodeOf;
    hide Period;
  }

  lemma RegionalRowInChain(at: int, l: Option<Line>)
    ensures InChain(RegionalRow(at, l), at, at + 44)
  {
    hide Text;
    hide CodeOf;
    hide InstallmentOf;
  }

  lemma LocalRowInChain(at: int, l: Option<Line>)
    ensures InChain(LocalRow(at, l), at, at + 68)
  {
    hide Text;
    hide CodeOf;
    hide InstallmentOf;
  }

  lemma {:induction false} RowsInOrder(section: Written, lines: seq<Line>, k: nat)
    ensures InOrder(Rows(section, lines, k), FirstRow(section), RowAt(section, k))
  {
    hide InOrder;
    hide RowFields;
    hide LineAt;
    NextRowAt(section, k);
    if k == 0 {
      NothingInOrder(FirstRow(section));
    } else {
      hide RowAt;
      hide FirstRow;
      hide RowWidth;
      RowsInOrder(section, lines, k - 1);
      RowInOrder(section, RowAt(section, k - 1), LineAt(lines, k - 1));
      Join(Rows(section, lines, k - 1), RowFields(section, RowAt(section, k - 1), LineAt(lines, k - 1)),
           FirstRow(section), RowAt(section, k - 1), RowAt(section, k));
    }
  }

  lemma NextRowAt(section: Written, k: nat)
    ensures RowAt(section, 0) == FirstRow(section)
    ensures RowAt(section, k) == RowAt(section, k - 1) + RowWidth(section)
  {
  }

  lemma NothingInOrder(at: int)
    ensures InOrder([], at, at)
  {
  }

  lemma TotalsInOrder(at: int, lines: seq<Line>)
    ensures InOrder(Totals(at, lines), at, at + 46)
  {
    hide Text;
  }

  function SectionEnd(section: Written): int { TotalsAt(section) + 46 }

  lemma SectionInOrder(section: Written, lines: seq<Line>)
    ensures InOrder(SectionFields(section, lines), FirstRow(section), SectionEnd(section))
  {
    var own := Of(lines, section);
    RowsInOrder(section, own, RowLimit(section));
    TotalsInOrder(TotalsAt(section), own);
    hide InOrder;
    hide Rows;
    hide Totals;
    hide Of;
    Join(Rows(section, own, RowLimit(section)), Totals(TotalsAt(section), own), FirstRow(section), TotalsAt(section),
         SectionEnd(section));
  }

  lemma InailRowInOrder(at: int)
    ensures InOrder(InailRow(at), at, at + 52)
  {
    hide InOrder;
    ChainInOrder(InailRow(at), at, at + 52);
  }

  lemma EntityRowInOrder(at: int)
    ensures InOrder(EntityRow(at), at, at + 60)
  {
    hide InOrder;
    ChainInOrder(EntityRow(at), at, at + 60);
  }

  lemma InailInOrder()
    ensures InOrder(InailFields(), 1371, 1573)
  {
    hide InOrder;
    hide Totals;
    hide InailRow;
    InailRowInOrder(1371);
    InailRowInOrder(1423);
    InailRowInOrder(1475);
    TotalsInOrder(1527, []);
    Join(InailRow(1371), InailRow(1423), 1371, 1423, 1475);
    Join(InailRow(1371) + InailRow(1423), InailRow(1475), 1371, 1475, 1527);
    Join(InailRow(1371) + InailRow(1423) + InailRow(1475), Totals(1527, []), 1371, 1527, 1573);
  }

  lemma EntitiesInOrder()
    ensures InOrder(EntityFields(), 1573, 1743)
  {
    hide Totals;
    hide EntityRow;
    EntityRowInOrder(1577);
    EntityRowInOrder(1637);
    TotalsInOrder(1697, []);
    var first := [Nu(1573, 4, "0")];
    assert InOrder(first, 1573, 1577);
    hide InOrder;
    Join(first, EntityRow(1577), 1573, 1577, 1637);
    Join(first + EntityRow(1577), EntityRow(1637), 1573, 1637, 1697);
    Join(first + EntityRow(1577) + EntityRow(1637), Totals(1697, []), 1573, 1697, 1743);
  }

  lemma EndsInOrder(fiscalCode: string, lines: seq<Line>, date: Day)
    ensures InOrder(Head(fiscalCode), 2, 105) && InOrder(Foot(lines, date), 1743, BUFFER)
  {
    hide Text;
    hide DayMonthYear;
  }

  /** The whole layout of record V: every write stays inside the buffer and no two fields meet. */
  lemma FormIsWellFormed(fiscalCode: string, date: Day, lines: seq<Line>)
    ensures WellFormed(FormFields(fiscalCode, date, lines))
  {
    EndsInOrder(fiscalCode, lines, date);
    InailInOrder();
    EntitiesInOrder();
    SectionInOrder(Treasury, lines);
    SectionInOrder(Inps, lines);
    SectionInOrder(Regional, lines);
    SectionInOrder(Local, lines);
    hide InOrder;
    hide Head;
    hide SectionFields;
    hide InailFields;
    hide EntityFields;
    hide Foot;
    Widen(SectionFields(Regional, lines), 813, 1035, 813, 1053);
    var fs := Head(fiscalCode);
    Join(fs, SectionFields(Treasury, lines), 2, 105, 499);
    fs := fs + SectionFields(Treasury, lines);
    Join(fs, SectionFields(Inps, lines), 2, 499, 813);
    fs := fs + SectionFields(Inps, lines);
    Join(fs, SectionFields(Regional, lines), 2, 813, 1053);
    fs := fs + SectionFields(Regional, lines);
    Join(fs, SectionFields(Local, lines), 2, 1053, 1371);
    fs := fs + SectionFields(Local, lines);
    Join(fs, InailFields(), 2, 1371, 1573);
    fs := fs + InailFields();
    Join(fs, EntityFields(), 2, 1573, 1743);
    fs := fs + EntityFields();
    Join(fs, Foot(lines, date), 2, 1743, BUFFER);
  }
}
