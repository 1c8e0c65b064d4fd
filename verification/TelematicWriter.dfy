/** Writing record V step by step into the buffer. */
module TelematicWriter {
  import opened Dates
  import opened F24
  import opened Radix
  import opened Rounding
  import opened TelematicForm
  import opened TelematicRecord
  import opened Wrappers

  method WriteTreasuryRow(w: RecordWriter, at: int, l: Option<Line>)
    requires w.Valid() && 2 <= at && at + 58 <= BUFFER
    modifies w, w.chars
    ensures w.Valid() && w.fields == old(w.fields) + TreasuryRow(at, l)
  {
    hide RecordWriter.Valid;
    hide Text;
    w.WriteAn(at, 4, CodeOf(l));
    w.WriteAn(at + 4, 16, "");
    w.WriteAn(at + 20, 4, InstallmentOf(l));
    w.WriteNu(at + 24, 4, YearText(l));
    w.WriteNu(at + 28, 15, DebitText(l));
    w.WriteNu(at + 43, 15, CreditText(l));
  }

  method WriteInpsRow(w: RecordWriter, at: int, l: Option<Line>)
    requires w.Valid() && 2 <= at && at + 67 <= BUFFER
    modifies w, w.chars
    ensures w.Valid() && w.fields == old(w.fields) + InpsRow(at, l)
  {
    hide RecordWriter.Valid;
    hide Text;
    hide Period;
    w.WriteNu(at, 4, OfficeOf(l));
    w.WriteAn(at + 4, 4, CodeOf(l));
    w.WriteAn(at + 8, 17, PositionOf(l));
    w.WriteNu(at + 25, 6, FromOf(l));
    w.WriteNu(at + 31, 6, ToOf(l));
    w.WriteNu(at + 37, 15, DebitText(l));
    w.WriteNu(at + 52, 15, CreditText(l));
  }

  method WriteRegionalRow(w: RecordWriter, at: int, l: Option<Line>)
    requires w.Valid() && 2 <= at && at + 44 <= BUFFER
    modifies w, w.chars
    ensures w.Valid() && w.fields == old(w.fields) + RegionalRow(at, l)
  {
    hide RecordWriter.Valid;
    hide Text;
    w.WriteNu(at, 2, RegionOf(l));
    w.WriteAn(at + 2, 4, CodeOf(l));
    w.WriteAn(at + 6, 4, InstallmentOf(l));
    w.WriteNu(at + 10, 4, YearText(l));
    w.WriteNu(at + 14, 15, DebitText(l));
    w.WriteNu(at + 29, 15, CreditText(l));
  }

  /** Flags, number of buildings and deduction, at zero. */
  method WriteLocalFlags(w: RecordWriter, at: int)
    requires w.Valid() && 2 <= at && at + 68 <= BUFFER
    modifies w, w.chars
    ensures w.Valid() && w.fields == old(w.fields)
      + [Nu(at + 4, 1, "0"), Nu(at + 5, 1, "0"), Nu(at + 6, 1, "0"), Nu(at + 7, 1, "0"), Nu(at + 8, 3, "0"),
         Nu(at + 11, 15, "0")]
  {
    hide RecordWriter.Valid;
    w.WriteNu(at + 4, 1, "0");
    w.WriteNu(at + 5, 1, "0");
    w.WriteNu(at + 6, 1, "0");
    w.WriteNu(at + 7, 1, "0");
    w.WriteNu(at + 8, 3, "0");
    w.WriteNu(at + 11, 15, "0");
  }

  method WriteLocalRow(w: RecordWriter, at: int, l: Option<Line>)
    requires w.Valid() && 2 <= at && at + 68 <= BUFFER
    modifies w, w.chars
    ensures w.Valid() && w.fields == old(w.fields) + LocalRow(at, l)
  {
    hide RecordWriter.Valid;
    hide Text;
    w.WriteAn(at, 4, TownOf(l));
    WriteLocalFlags(w, at);
    w.WriteAn(at + 26, 4, CodeOf(l));
    w.WriteAn(at + 30, 4, InstallmentOf(l));
    w.WriteNu(at + 34, 4, YearText(l));
    w.WriteNu(at + 38, 15, DebitText(l));
    w.WriteNu(at + 53, 15, CreditText(l));
  }

  /** Totals of a section; the sign is blank when it is not used. */
  method WriteTotals(w: RecordWriter, at: int, lines: seq<Line>) returns (balance: int)
    requires w.Valid() && 2 <= at && at + 46 <= BUFFER
    modifies w, w.chars
    ensures w.Valid() && w.fields == old(w.fields) + Totals(at, lines) && balance == BalanceOf(lines)
  {
    hide RecordWriter.Valid;
    hide Text;
    hide DebitTotal;
    hide CreditTotal;
    var debit, credit := DebitTotal(lines), CreditTotal(lines);
    w.WriteNu(at, 15, Text(debit));
    w.WriteNu(at + 15, 15, Text(credit));
    w.WriteAn(at + 30, 1, if lines == [] then "" else if debit >= credit then "P" else "N");
    w.WriteNu(at + 31, 15, Text(Abs(debit - credit)));
    balance := debit - credit;
  }

  /** The rows of a section and its totals. A line without its office, region or municipality stops the form. */
  method WriteSection(w: RecordWriter, section: Written, lines: seq<Line>) returns (ok: bool, balance: int)
    requires w.Valid()
    modifies w, w.chars
    ensures w.Valid() && w.fields == old(w.fields) + SectionFields(section, lines)
    ensures balance == BalanceOf(Of(lines, section)) && ok == SectionOk(section, lines)
  {
    hide RecordWriter.Valid;
    hide RowFields;
    hide Totals;
    hide Of;
    hide PlaceOk;
    var own := Of(lines, section);
    ok := |own| <= RowLimit(section);
    for i := 0 to RowLimit(section)
      invariant w.Valid() && w.fields == old(w.fields) + Rows(section, own, i)
      invariant ok == (|own| <= RowLimit(section) && forall k :: 0 <= k < i && k < |own| ==> PlaceOk(own[k]))
    {
      if i < |own| && !PlaceOk(own[i]) {
        ok := false;
      }
      RowsPlaced(section, i);
      WriteRow(w, section, RowAt(section, i), LineAt(own, i));
      hide LineAt;
      hide RowAt;
    }
    balance := WriteTotals(w, TotalsAt(section), own);
  }

  lemma RowsPlaced(section: Written, i: int)
    requires 0 <= i < RowLimit(section)
    ensures 2 <= RowAt(section, i) && RowAt(section, i) + RowWidth(section) <= BUFFER
  {
  }

  method WriteRow(w: RecordWriter, section: Written, at: int, l: Option<Line>)
    requires w.Valid() && 2 <= at && at + RowWidth(section) <= BUFFER
    modifies w, w.chars
    ensures w.Valid() && w.fields == old(w.fields) + RowFields(section, at, l)
  {
    hide RecordWriter.Valid;
    hide TreasuryRow;
    hide InpsRow;
    hide RegionalRow;
    hide LocalRow;
    match section
    case Treasury => WriteTreasuryRow(w, at, l);
    case Inps => WriteInpsRow(w, at, l);
    case Regional => WriteRegionalRow(w, at, l);
    case Local => WriteLocalRow(w, at, l);
  }

  method WriteInailRow(w: RecordWriter, at: int)
    requires w.Valid() && 2 <= at && at + 52 <= BUFFER
    modifies w, w.chars
    ensures w.Valid() && w.fields == old(w.fields) + InailRow(at)
  {
    hide RecordWriter.Valid;
    w.WriteNu(at, 5, "0");
    w.WriteNu(at + 5, 8, "0");
    w.WriteNu(at + 13, 2, "0");
    w.WriteNu(at + 15, 6, "0");
    w.WriteNu(at + 22, 15, "0");
    w.WriteNu(at + 37, 15, "0");
  }

  method WriteEntityRow(w: RecordWriter, at: int)
    requires w.Valid() && 2 <= at && at + 60 <= BUFFER
    modifies w, w.chars
    ensures w.Valid() && w.fields == old(w.fields) + EntityRow(at)
  {
    hide RecordWriter.Valid;
    w.WriteNu(at + 9, 9, "0");
    w.WriteNu(at + 18, 6, "0");
    w.WriteNu(at + 24, 6, "0");
    w.WriteNu(at + 30, 15, "0");
    w.WriteNu(at + 45, 15, "0");
  }

  method WriteUnused(w: RecordWriter)
    requires w.Valid()
    modifies w, w.chars
    ensures w.Valid() && w.fields == old(w.fields) + InailFields() + EntityFields()
  {
    hide RecordWriter.Valid;
    hide InailRow;
    hide EntityRow;
    hide Totals;
    WriteInailRow(w, 1371);
    WriteInailRow(w, 1423);
    WriteInailRow(w, 1475);
    var unused := WriteTotals(w, 1527, []);
    ghost var inail := InailFields();
    assert w.fields == old(w.fields) + inail;
    w.WriteNu(1573, 4, "0");
    WriteEntityRow(w, 1577);
    WriteEntityRow(w, 1637);
    unused := WriteTotals(w, 1697, []);
  }

  method WriteHead(w: RecordWriter, fiscalCode: string)
    requires w.Valid()
    modifies w, w.chars
    ensures w.Valid() && w.fields == old(w.fields) + Head(fiscalCode)
  {
    hide RecordWriter.Valid;
    w.WriteAn(2, 16, fiscalCode);
    w.WriteNu(18, 8, "1");
    w.WriteAn(90, 1, "A");
    w.WriteNu(94, 11, "0");
  }

  method WriteSections(w: RecordWriter, lines: seq<Line>) returns (ok: bool, balance: int)
    requires w.Valid()
    modifies w, w.chars
    ensures w.Valid()
    ensures w.fields == old(w.fields) + SectionFields(Treasury, lines) + SectionFields(Inps, lines)
                        + SectionFields(Regional, lines) + SectionFields(Local, lines)
    ensures balance == FormBalance(lines)
    ensures ok == (SectionOk(Treasury, lines) && SectionOk(Inps, lines) && SectionOk(Regional, lines)
                   && SectionOk(Local, lines))
  {
    hide RecordWriter.Valid;
    hide SectionFields;
    hide SectionOk;
    hide BalanceOf;
    var ok0, balance0 := WriteSection(w, Treasury, lines);
    var ok1, balance1 := WriteSection(w, Inps, lines);
    var ok2, balance2 := WriteSection(w, Regional, lines);
    var ok3, balance3 := WriteSection(w, Local, lines);
    ok, balance := ok0 && ok1 && ok2 && ok3, balance0 + balance1 + balance2 + balance3;
  }

  method WriteFields(w: RecordWriter, fiscalCode: string, date: Day, lines: seq<Line>) returns (ok: bool, balance: int)
    requires w.Valid()
    modifies w, w.chars
    ensures w.Valid() && w.fields == old(w.fields) + FormFields(fiscalCode, date, lines)
            && balance == FormBalance(lines)
    ensures ok == (SectionOk(Treasury, lines) && SectionOk(Inps, lines) && SectionOk(Regional, lines)
                   && SectionOk(Local, lines))
  {
    hide RecordWriter.Valid;
    hide SectionFields;
    hide SectionOk;
    hide InailFields;
    hide EntityFields;
    hide Head;
    hide FormBalance;
    hide DayMonthYear;
    hide Text;
    WriteHead(w, fiscalCode);
    ok, balance := WriteSections(w, lines);
    WriteUnused(w);
    ghost var before := w.fields;
    w.WriteNu(1793, 15, Text(balance));
    w.WriteNu(1808, 8, DayMonthYear(date, ""));
    assert w.fields == before + Foot(lines, date);
    hide Foot;
  }

  /** One form as record V with its balance, or nothing when the program refuses it. */
  method WriteForm(fiscalCode: string, date: Day, lines: seq<Line>) returns (r: Option<(string, int)>)
    ensures r.Some? <==> FormOk(fiscalCode, date, lines)
    ensures r.Some? ==> WellFormed(FormFields(fiscalCode, date, lines))
                        && r.value == (RecordText('V', FormFields(fiscalCode, date, lines)), FormBalance(lines))
  {
    hide RecordWriter.Valid;
    hide FormFields;
    hide SectionOk;
    hide FormBalance;
    hide AllFit;
    hide WellFormed;
    var w := new RecordWriter('V');
    var ok, balance := WriteFields(w, fiscalCode, date, lines);
    var record := w.ToString();
    WriterSays(w, 'V', FormFields(fiscalCode, date, lines));
    FormIsWellFormed(fiscalCode, date, lines);
    RecordIsDisjoint('V', FormFields(fiscalCode, date, lines));
    if CountSection(lines, OtherEntity) == 0 && ok && balance >= 0 && !w.failed {
      r := Some((record, balance));
    } else {
      r := None;
    }
  }

  /** What the writer says of the fields it wrote. */
  lemma WriterSays(w: RecordWriter, kind: char, body: seq<Field>)
    requires w.Valid() && w.fields == RecordFields(kind, body)
    ensures AllIn(RecordFields(kind, body)) && w.failed == !AllFit(RecordFields(kind, body))
  {
  }
}
