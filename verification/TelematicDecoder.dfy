/** Reading record V: a decoder of the form, and the proof that it gives back what was written. */
module TelematicDecoder {
  import opened Dates
  import opened F24
  import opened Radix
  import opened Rounding
  import opened TelematicForm
  import opened TelematicRecord
  import opened Wrappers

  /** A row as read: what its section does not carry is empty or zero. */
  datatype Row = Row(
    code: string, installmentCode: string, officeCode: string, localCode: string, positionCode: string,
    periodFrom: string, periodTo: string, referenceYear: int, debit: int, credit: int)

  const BLANK := Row("", "", "", "", "", "", "", 0, 0, 0)

  function TrimEnd(s: string): string {
    if s != [] && s[|s| - 1] == ' ' then TrimEnd(s[..|s| - 1]) else s
  }

  /** What a text keeps in the file: capitals, printable characters, no trailing space. */
  function Clean(s: string): string { TrimEnd(Ascii(s)) }

  function ReadAn(record: string, at: int, length: int): string { TrimEnd(Slice(record, at, length)) }

  function ReadNu(record: string, at: int, length: int): int {
    var s := Slice(record, at, length);
    if AreDigits(s, 10) then Read(s, 10) else -1
  }

  function DecodeRow(section: Written, record: string, at: int): Row {
    match section
    case Treasury =>
      BLANK.(code := ReadAn(record, at, 4), installmentCode := ReadAn(record, at + 20, 4),
             referenceYear := ReadNu(record, at + 24, 4),
             debit := ReadNu(record, at + 28, 15), credit := ReadNu(record, at + 43, 15))
    case Inps =>
      BLANK.(officeCode := Slice(record, at, 4), code := ReadAn(record, at + 4, 4),
             positionCode := ReadAn(record, at + 8, 17),
             periodFrom := Slice(record, at + 25, 6), periodTo := Slice(record, at + 31, 6),
             debit := ReadNu(record, at + 37, 15), credit := ReadNu(record, at + 52, 15))
    case Regional =>
      BLANK.(localCode := Slice(record, at, 2), code := ReadAn(record, at + 2, 4),
             installmentCode := ReadAn(record, at + 6, 4),
             referenceYear := ReadNu(record, at + 10, 4), debit := ReadNu(record, at + 14, 15),
             credit := ReadNu(record, at + 29, 15))
    case Local =>
      BLANK.(localCode := ReadAn(record, at, 4), code := ReadAn(record, at + 26, 4),
             installmentCode := ReadAn(record, at + 30, 4),
             referenceYear := ReadNu(record, at + 34, 4), debit := ReadNu(record, at + 38, 15),
             credit := ReadNu(record, at + 53, 15))
  }

  /** The row expected for a line, or for none. */
  function StoredRow(section: Written, l: Option<Line>): Row {
    var amounts := if l.None? then BLANK else BLANK.(debit := l.value.debitAmount, credit := l.value.CreditOrZero());
    var year := if l.None? then 0 else l.value.referenceYear;
    match section
    case Treasury => amounts.(code := Clean(CodeOf(l)), installmentCode := Clean(InstallmentOf(l)),
                              referenceYear := year)
    case Inps =>
      amounts.(officeCode := PadStart(OfficeOf(l), 4, '0'), code := Clean(CodeOf(l)),
               positionCode := Clean(PositionOf(l)),
               periodFrom := PadStart(FromOf(l), 6, '0'), periodTo := PadStart(ToOf(l), 6, '0'))
    case Regional =>
      amounts.(localCode := PadStart(RegionOf(l), 2, '0'), code := Clean(CodeOf(l)),
               installmentCode := Clean(InstallmentOf(l)),
               referenceYear := year)
    case Local =>
      amounts.(localCode := Clean(TownOf(l)), code := Clean(CodeOf(l)), installmentCode := Clean(InstallmentOf(l)),
               referenceYear := year)
  }

  // ---------- Fields ----------

  lemma {:induction false} TrimPadding(s: string, k: nat)
    ensures TrimEnd(s + Repeat(' ', k)) == TrimEnd(s)
  {
    var t := s + Repeat(' ', k);
    if k > 0 {
      assert t[..|t| - 1] == s + Repeat(' ', k - 1);
      TrimPadding(s, k - 1);
    } else {
      assert t == s;
    }
  }

  /** The record holds a field as it was padded. */
  predicate Holds(record: string, f: Field) {
    Fits(f) && Slice(record, f.at, f.length) == Padded(f)
  }

  lemma AnIsReadBack(record: string, at: int, length: int, value: string)
    requires Holds(record, An(at, length, value))
    ensures ReadAn(record, at, length) == Clean(value)
  {
    TrimPadding(Ascii(value), length - |value|);
    hide TrimEnd;
  }

  lemma NuIsReadBack(record: string, at: int, length: int, n: int)
    requires Holds(record, Nu(at, length, Text(n)))
    ensures n >= 0 && ReadNu(record, at, length) == n
  {
    OnlyNaturalsFit(n);
    ReadPadded(n, length, 10);
    hide Print;
    hide Read;
  }

  lemma OnlyNaturalsFit(n: int)
    ensures AreDigits(Text(n), 10) <==> n >= 0
  {
    hide Print;
    if n < 0 {
      assert !IsDigit(Text(n)[0], 10);
    }
  }

  predicate HoldsAll(record: string, fields: seq<Field>) {
    forall i :: 0 <= i < |fields| ==> Holds(record, fields[i])
  }

  // ---------- Rows ----------

  lemma TreasuryRowDecodes(record: string, at: int, l: Option<Line>)
    requires HoldsAll(record, TreasuryRow(at, l))
    ensures DecodeRow(Treasury, record, at) == StoredRow(Treasury, l)
  {
    var fs := TreasuryRow(at, l);
    hide Holds;
    hide Text;
    assert Holds(record, fs[0]) && Holds(record, fs[2]) && Holds(record, fs[3]) && Holds(record, fs[4])
           && Holds(record, fs[5]);
    AnIsReadBack(record, at, 4, CodeOf(l));
    AnIsReadBack(record, at + 20, 4, InstallmentOf(l));
    NuIsReadBack(record, at + 24, 4, if l.Some? then l.value.referenceYear else 0);
    NuIsReadBack(record, at + 28, 15, if l.Some? then l.value.debitAmount else 0);
    NuIsReadBack(record, at + 43, 15, if l.Some? then l.value.CreditOrZero() else 0);
    hide ReadAn;
    hide ReadNu;
    hide Clean;
  }

  lemma InpsRowDecodes(record: string, at: int, l: Option<Line>)
    requires HoldsAll(record, InpsRow(at, l))
    ensures DecodeRow(Inps, record, at) == StoredRow(Inps, l)
  {
    var fs := InpsRow(at, l);
    hide Holds;
    hide Text;
    hide Period;
    assert Holds(record, fs[0]) && Holds(record, fs[1]) && Holds(record, fs[2]) && Holds(record, fs[3]);
    assert Holds(record, fs[4]) && Holds(record, fs[5]) && Holds(record, fs[6]);
    RawIsReadBack(record, at, 4, OfficeOf(l));
    AnIsReadBack(record, at + 4, 4, CodeOf(l));
    AnIsReadBack(record, at + 8, 17, PositionOf(l));
    RawIsReadBack(record, at + 25, 6, FromOf(l));
    RawIsReadBack(record, at + 31, 6, ToOf(l));
    NuIsReadBack(record, at + 37, 15, if l.Some? then l.value.debitAmount else 0);
    NuIsReadBack(record, at + 52, 15, if l.Some? then l.value.CreditOrZero() else 0);
    hide ReadAn;
    hide ReadNu;
    hide Clean;
    hide Slice;
  }

  lemma RegionalRowDecodes(record: string, at: int, l: Option<Line>)
    requires HoldsAll(record, RegionalRow(at, l))
    ensures DecodeRow(Regional, record, at) == StoredRow(Regional, l)
  {
    var fs := RegionalRow(at, l);
    hide Holds;
    hide Text;
    assert Holds(record, fs[0]) && Holds(record, fs[1]) && Holds(record, fs[2]) && Holds(record, fs[3]);
    assert Holds(record, fs[4]) && Holds(record, fs[5]);
    RawIsReadBack(record, at, 2, RegionOf(l));
    AnIsReadBack(record, at + 2, 4, CodeOf(l));
    AnIsReadBack(record, at + 6, 4, InstallmentOf(l));
    NuIsReadBack(record, at + 10, 4, if l.Some? then l.value.referenceYear else 0);
    NuIsReadBack(record, at + 14, 15, if l.Some? then l.value.debitAmount else 0);
    NuIsReadBack(record, at + 29, 15, if l.Some? then l.value.CreditOrZero() else 0);
    hide ReadAn;
    hide ReadNu;
    hide Clean;
    hide Slice;
  }

  lemma LocalRowDecodes(record: string, at: int, l: Option<Line>)
    requires HoldsAll(record, LocalRow(at, l))
    ensures DecodeRow(Local, record, at) == StoredRow(Local, l)
  {
    var fs := LocalRow(at, l);
    hide Holds;
    hide Text;
    assert Holds(record, fs[0]) && Holds(record, fs[7]) && Holds(record, fs[8]) && Holds(record, fs[9]);
    assert Holds(record, fs[10]) && Holds(record, fs[11]);
    AnIsReadBack(record, at, 4, TownOf(l));
    AnIsReadBack(record, at + 26, 4, CodeOf(l));
    AnIsReadBack(record, at + 30, 4, InstallmentOf(l));
    NuIsReadBack(record, at + 34, 4, if l.Some? then l.value.referenceYear else 0);
    NuIsReadBack(record, at + 38, 15, if l.Some? then l.value.debitAmount else 0);
    NuIsReadBack(record, at + 53, 15, if l.Some? then l.value.CreditOrZero() else 0);
    hide ReadAn;
    hide ReadNu;
    hide Clean;
  }

  lemma RawIsReadBack(record: string, at: int, length: int, value: string)
    requires Holds(record, Nu(at, length, value))
    ensures Slice(record, at, length) == PadStart(value, length, '0')
  {
  }

  lemma RowDecodes(section: Written, record: string, at: int, l: Option<Line>)
    requires HoldsAll(record, RowFields(section, at, l))
    ensures DecodeRow(section, record, at) == StoredRow(section, l)
  {
    hide HoldsAll;
    hide DecodeRow;
    hide StoredRow;
    match section
    case Treasury => TreasuryRowDecodes(record, at, l);
    case Inps => InpsRowDecodes(record, at, l);
    case Regional => RegionalRowDecodes(record, at, l);
    case Local => LocalRowDecodes(record, at, l);
  }

  // ---------- Sections ----------

  lemma HoldsParts(record: string, a: seq<Field>, b: seq<Field>)
    requires HoldsAll(record, a + b)
    ensures HoldsAll(record, a) && HoldsAll(record, b)
  {
    hide Holds;
    assert forall i :: 0 <= i < |a| ==> a[i] == (a + b)[i];
    assert forall i :: 0 <= i < |b| ==> b[i] == (a + b)[|a| + i];
  }

  lemma {:induction false} RowsHold(record: string, section: Written, lines: seq<Line>, k: nat, i: nat)
    requires HoldsAll(record, Rows(section, lines, k)) && i < k
    ensures HoldsAll(record, RowFields(section, RowAt(section, i), LineAt(lines, i)))
  {
    hide HoldsAll;
    hide RowFields;
    HoldsParts(record, Rows(section, lines, k - 1), RowFields(section, RowAt(section, k - 1), LineAt(lines, k - 1)));
    if i < k - 1 {
      RowsHold(record, section, lines, k - 1, i);
    }
  }

  /** Debit, credit and signed balance of a section. */
  datatype SectionTotals = SectionTotals(debit: int, credit: int, balance: int)

  function DecodeTotals(record: string, at: int): SectionTotals {
    var size := ReadNu(record, at + 31, 15);
    SectionTotals(ReadNu(record, at, 15), ReadNu(record, at + 15, 15),
                  if ReadAn(record, at + 30, 1) == "N" then -size else size)
  }

  lemma TotalsDecode(record: string, at: int, lines: seq<Line>)
    requires HoldsAll(record, Totals(at, lines))
    ensures DecodeTotals(record, at) == SectionTotals(DebitTotal(lines), CreditTotal(lines), BalanceOf(lines))
  {
    var fs := Totals(at, lines);
    hide Holds;
    hide Text;
    assert Holds(record, fs[0]) && Holds(record, fs[1]) && Holds(record, fs[2]) && Holds(record, fs[3]);
    NuIsReadBack(record, at, 15, DebitTotal(lines));
    NuIsReadBack(record, at + 15, 15, CreditTotal(lines));
    AnIsReadBack(record, at + 30, 1, Sign(lines));
    SignsAreClean();
    NuIsReadBack(record, at + 31, 15, Abs(BalanceOf(lines)));
    hide ReadAn;
    hide ReadNu;
    hide Clean;
  }

  lemma SignsAreClean()
    ensures Clean("") == "" && Clean("P") == "P" && Clean("N") == "N"
  {
  }

  // ---------- The whole form ----------

  datatype DecodedSection = DecodedSection(rows: seq<Row>, totals: SectionTotals)

  function DecodeSection(section: Written, record: string): DecodedSection {
    DecodedSection(seq(RowLimit(section), i requires 0 <= i < RowLimit(section) =>
                       DecodeRow(section, record, RowAt(section, i))),
                   DecodeTotals(record, TotalsAt(section)))
  }

  /** The rows up to the first without a code. */
  function UsedRows(rows: seq<Row>): seq<Row> {
    if rows == [] || rows[0].code == "" then [] else [rows[0]] + UsedRows(rows[1..])
  }

  /** The rows of the lines of a section. */
  function StoredRows(section: Written, lines: seq<Line>): (rows: seq<Row>)
    ensures |rows| == |lines|
  {
    seq(|lines|, i requires 0 <= i < |lines| => StoredRow(section, Some(lines[i])))
  }

  lemma BodyHolds(kind: char, body: seq<Field>)
    requires WellFormed(body) && AllFit(body)
    ensures HoldsAll(RecordText(kind, body), body)
  {
    hide RecordText;
    hide WellFormed;
    hide AllFit;
    forall i | 0 <= i < |body|
      ensures Holds(RecordText(kind, body), body[i])
    {
      RecordReadsBack(kind, body, body[i]);
      hide Slice;
      hide Padded;
      hide Fits;
    }
    hide Holds;
  }

  lemma FormHolds(record: string, fiscalCode: string, date: Day, lines: seq<Line>, section: Written)
    requires HoldsAll(record, FormFields(fiscalCode, date, lines))
    ensures HoldsAll(record, SectionFields(section, lines)) && HoldsAll(record, Foot(lines, date))
  {
    hide HoldsAll;
    hide SectionFields;
    hide Head;
    hide Foot;
    hide InailFields;
    hide EntityFields;
    var t, i := SectionFields(Treasury, lines), SectionFields(Inps, lines);
    var r, l := SectionFields(Regional, lines), SectionFields(Local, lines);
    var upToInps := Head(fiscalCode) + t + i;
    var upToLocal := upToInps + r + l;
    HoldsParts(record, upToLocal + InailFields() + EntityFields(), Foot(lines, date));
    HoldsParts(record, upToLocal + InailFields(), EntityFields());
    HoldsParts(record, upToLocal, InailFields());
    HoldsParts(record, upToInps + r, l);
    HoldsParts(record, upToInps, r);
    HoldsParts(record, Head(fiscalCode) + t, i);
    HoldsParts(record, Head(fiscalCode), t);
  }

  lemma RowReadsBack(record: string, lines: seq<Line>, section: Written, i: int)
    requires HoldsAll(record, SectionFields(section, lines)) && 0 <= i < RowLimit(section)
    ensures DecodeSection(section, record).rows[i] == StoredRow(section, LineAt(Of(lines, section), i))
  {
    var own := Of(lines, section);
    hide HoldsAll;
    hide DecodeRow;
    hide StoredRow;
    hide DecodeTotals;
    HoldsParts(record, Rows(section, own, RowLimit(section)), Totals(TotalsAt(section), own));
    RowsHold(record, section, own, RowLimit(section), i);
    RowDecodes(section, record, RowAt(section, i), LineAt(own, i));
    hide Of;
    hide Rows;
    hide RowFields;
    hide RowAt;
  }

  lemma TotalsReadBack(record: string, lines: seq<Line>, section: Written)
    requires HoldsAll(record, SectionFields(section, lines))
    ensures var own := Of(lines, section);
            DecodeSection(section, record).totals == SectionTotals(DebitTotal(own), CreditTotal(own), BalanceOf(own))
  {
    var own := Of(lines, section);
    hide HoldsAll;
    HoldsParts(record, Rows(section, own, RowLimit(section)), Totals(TotalsAt(section), own));
    TotalsDecode(record, TotalsAt(section), own);
    hide *;
  }

  /** Decoding undoes encoding: every row of a section comes back, in order, empty ones after the lines, with the totals
      and the signed balance. */
  lemma SectionReadsBack(record: string, lines: seq<Line>, section: Written)
    requires HoldsAll(record, SectionFields(section, lines)) && CountSection(lines, section) <= RowLimit(section)
    ensures var own, d := Of(lines, section), DecodeSection(section, record);
            && (forall i :: 0 <= i < RowLimit(section) ==> d.rows[i] == StoredRow(section, LineAt(own, i)))
            && d.rows[..|own|] == StoredRows(section, own)
            && d.totals == SectionTotals(DebitTotal(own), CreditTotal(own), BalanceOf(own))
  {
    hide HoldsAll;
    hide DecodeRow;
    hide DecodeTotals;
    hide StoredRow;
    hide SectionFields;
    hide DebitTotal;
    hide CreditTotal;
    var own, d := Of(lines, section), DecodeSection(section, record);
    assert |d.rows| == RowLimit(section);
    TotalsReadBack(record, lines, section);
    hide DecodeSection;
    hide Of;
    forall i | 0 <= i < RowLimit(section)
      ensures d.rows[i] == StoredRow(section, LineAt(own, i))
    {
      RowReadsBack(record, lines, section, i);
    }
  }

  lemma {:induction false} UsedRowsStop(rows: seq<Row>, k: nat)
    requires k <= |rows| && (forall i :: 0 <= i < k ==> rows[i].code != "") && (k < |rows| ==> rows[k].code == "")
    ensures UsedRows(rows) == rows[..k]
  {
    if k > 0 {
      UsedRowsStop(rows[1..], k - 1);
      assert rows[..k] == [rows[0]] + rows[1..][..k - 1];
    }
  }

  lemma NoLineNoCode(section: Written)
    ensures StoredRow(section, None).code == ""
  {
    SignsAreClean();
    hide Clean;
  }

  /** Decoding the record of an accepted form gives back, for every section, the rows of its lines and nothing else, and
      the final balance. */
  lemma FormReadsBack(fiscalCode: string, date: Day, lines: seq<Line>, section: Written)
    requires FormOk(fiscalCode, date, lines)
    requires forall i :: 0 <= i < |Of(lines, section)| ==> Clean(Of(lines, section)[i].code) != ""
    ensures WellFormed(FormFields(fiscalCode, date, lines))
    ensures var record := RecordText('V', FormFields(fiscalCode, date, lines));
            && UsedRows(DecodeSection(section, record).rows) == StoredRows(section, Of(lines, section))
            && DecodeSection(section, record).totals.balance == BalanceOf(Of(lines, section))
            && ReadNu(record, 1793, 15) == FormBalance(lines)
  {
    FormIsWellFormed(fiscalCode, date, lines);
    var record, own := RecordText('V', FormFields(fiscalCode, date, lines)), Of(lines, section);
    BodyHolds('V', FormFields(fiscalCode, date, lines));
    FormHolds(record, fiscalCode, date, lines, section);
    BalanceReadsBack(record, lines, date);
    SectionReadsBack(record, lines, section);
    hide *;
    RowsOfSection(record, lines, section);
  }

  lemma BalanceReadsBack(record: string, lines: seq<Line>, date: Day)
    requires HoldsAll(record, Foot(lines, date))
    ensures ReadNu(record, 1793, 15) == FormBalance(lines)
    ensures Slice(record, 1808, 8) == PadStart(DayMonthYear(date, ""), 8, '0')
  {
    var fs := Foot(lines, date);
    hide Holds;
    assert Holds(record, fs[0]) && Holds(record, fs[1]);
    NuIsReadBack(record, 1793, 15, FormBalance(lines));
    RawIsReadBack(record, 1808, 8, DayMonthYear(date, ""));
    hide ReadNu;
    hide Slice;
    hide DayMonthYear;
  }

  lemma RowsOfSection(record: string, lines: seq<Line>, section: Written)
    requires CountSection(lines, section) <= RowLimit(section)
    requires forall i :: 0 <= i < |Of(lines, section)| ==> Clean(Of(lines, section)[i].code) != ""
    requires var own, d := Of(lines, section), DecodeSection(section, record);
            && (forall i :: 0 <= i < RowLimit(section) ==> d.rows[i] == StoredRow(section, LineAt(own, i)))
            && d.rows[..|own|] == StoredRows(section, own)
    ensures UsedRows(DecodeSection(section, record).rows) == StoredRows(section, Of(lines, section))
  {
    var own, rows := Of(lines, section), DecodeSection(section, record).rows;
    NoLineNoCode(section);
    hide Clean;
    hide DecodeRow;
    forall i | 0 <= i < |own|
      ensures rows[i].code != ""
    {
      assert rows[i] == StoredRow(section, Some(own[i]));
    }
    UsedRowsStop(rows, |own|);
  }

  // ---------- What the file keeps of a text ----------

  /** Printable, without small letters and trailing spaces. */
  predicate IsPlain(s: string) {
    && (forall i :: 0 <= i < |s| ==> ' ' <= s[i] <= '~' && !('a' <= s[i] <= 'z'))
    && (s != [] ==> s[|s| - 1] != ' ')
  }

  /** A text comes back unchanged exactly when it is plain. */
  lemma CleanKeepsIff(s: string)
    ensures Clean(s) == s <==> IsPlain(s)
  {
    TrimIsPrefix(Ascii(s));
    if Clean(s) == s {
      assert |TrimEnd(Ascii(s))| == |Ascii(s)|;
      assert Ascii(s) == s;
      forall i | 0 <= i < |s|
        ensures ' ' <= s[i] <= '~' && !('a' <= s[i] <= 'z')
      {
        assert s[i] == Ascii(s)[i] == AsciiChar(s[i]);
      }
    }
    if IsPlain(s) {
      assert Ascii(s) == s;
    }
  }

  lemma {:induction false} TrimIsPrefix(s: string)
    ensures |TrimEnd(s)| <= |s| && TrimEnd(s) == s[..|TrimEnd(s)|]
    ensures |TrimEnd(s)| == |s| <==> s == [] || s[|s| - 1] != ' '
  {
    if s != [] && s[|s| - 1] == ' ' {
      TrimIsPrefix(s[..|s| - 1]);
    }
  }

  /** A period MM/YYYY comes back as its six digits. */
  lemma PeriodReadsBack(p: string)
    requires |p| == 7 && p[2] == '/' && p[0] != '/' && p[1] != '/'
    ensures PadStart(Period(Some(p)), 6, '0') == p[..2] + p[3..]
  {
    assert WithoutSlash(p[1..][1..]) == p[1..][1..][1..] == p[3..];
    assert WithoutSlash(p[1..]) == [p[1]] + p[3..];
    assert WithoutSlash(p) == [p[0]] + ([p[1]] + p[3..]) == p[..2] + p[3..];
  }
}
