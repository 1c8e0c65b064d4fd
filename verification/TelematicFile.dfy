/** The file of the forms of one payment date: header, taxpayer, one record a form, trailer. */
module TelematicFile {
  import opened Dates
  import opened F24
  import opened Radix
  import opened Rounding
  import opened TelematicAmount
  import opened TelematicDecoder
  import opened TelematicForm
  import opened TelematicRecord
  import opened TelematicWriter
  import opened Wrappers

  datatype Taxpayer = Taxpayer(
    fiscalCode: string, lastName: string, firstName: string, sex: char, birthDate: Day, birthPlace: string,
    birthProvince: string,
    iban: Option<string>)

  function Cut(s: string, length: nat): string { if |s| <= length then s else s[..length] }

  function WithoutSpaces(s: string): string {
    if s == [] then [] else (if s[0] in " \t\r\n" then [] else [s[0]]) + WithoutSpaces(s[1..])
  }

  function HeaderPerson(t: Taxpayer): seq<Field> {
    [An(16, 5, "F24A0"), An(21, 2, "04"), An(23, 16, t.fiscalCode), An(39, 24, Cut(t.lastName, 24)),
     An(63, 20, Cut(t.firstName, 20)),
     An(83, 1, [t.sex]), Nu(84, 8, DayMonthYear(t.birthDate, "")), An(92, 40, Cut(t.birthPlace, 40)),
     An(132, 2, t.birthProvince)]
  }

  function HeaderRest(): seq<Field> {
    [Nu(211, 5, "0"), Nu(353, 5, "0"), Nu(435, 5, "0"), Nu(522, 3, "1"), Nu(525, 3, "1")]
  }

  function HeaderBody(t: Taxpayer): seq<Field> { HeaderPerson(t) + HeaderRest() }

  /** The IBAN goes only with an amount to debit. */
  function IbanOf(t: Taxpayer, total: int): string { if total > 0 then WithoutSpaces(t.iban.GetOr("")) else "" }

  function PersonFields(t: Taxpayer): seq<Field> {
    [An(438, 24, Cut(t.lastName, 24)), An(462, 20, Cut(t.firstName, 20)), Nu(482, 8, DayMonthYear(t.birthDate, "")),
     An(490, 1, [t.sex]),
     An(491, 25, Cut(t.birthPlace, 25)), An(516, 2, t.birthProvince)]
  }

  function PaymentFields(t: Taxpayer, date: Day, total: nat): seq<Field> {
    [An(1741, 27, IbanOf(t, total)), An(1869, 4, "EURO"), An(1873, 15, AmountText(total)),
     An(1888, 10, DayMonthYear(date, "-"))]
  }

  function TaxpayerHead(t: Taxpayer): seq<Field> {
    [An(2, 16, t.fiscalCode), Nu(18, 8, "1"), An(91, 1, "E"), Nu(92, 1, "0"), Nu(93, 1, "0"), Nu(110, 1, "0"),
     Nu(156, 8, "0"),
     Nu(248, 5, "0"), Nu(330, 5, "0")]
  }

  function TaxpayerBody(t: Taxpayer, date: Day, total: nat): seq<Field> {
    TaxpayerHead(t) + PersonFields(t) + PaymentFields(t, date, total)
  }

  function TrailerBody(forms: nat): seq<Field> { [Nu(16, 9, Text(forms)), Nu(25, 9, "1")] }

  lemma HeaderIsWellFormed(t: Taxpayer)
    ensures WellFormed(HeaderBody(t))
  {
    HeaderChains(t);
    hide InChain;
    hide InOrder;
    hide HeaderPerson;
    hide HeaderRest;
    ChainInOrder(HeaderPerson(t), 2, 134);
    ChainInOrder(HeaderRest(), 134, BUFFER);
    Join(HeaderPerson(t), HeaderRest(), 2, 134, BUFFER);
  }

  lemma HeaderChains(t: Taxpayer)
    ensures InChain(HeaderPerson(t), 2, 134) && InChain(HeaderRest(), 134, BUFFER)
  {
    hide DayMonthYear;
    hide Cut;
  }

  lemma TaxpayerIsWellFormed(t: Taxpayer, date: Day, total: nat)
    ensures WellFormed(TaxpayerBody(t, date, total))
  {
    TaxpayerChains(t, date, total);
    hide InChain;
    hide InOrder;
    hide TaxpayerHead;
    hide PersonFields;
    hide PaymentFields;
    ChainInOrder(TaxpayerHead(t), 2, 438);
    ChainInOrder(PersonFields(t), 438, 518);
    ChainInOrder(PaymentFields(t, date, total), 518, BUFFER);
    Join(TaxpayerHead(t), PersonFields(t), 2, 438, 518);
    Join(TaxpayerHead(t) + PersonFields(t), PaymentFields(t, date, total), 2, 518, BUFFER);
  }

  lemma TaxpayerChains(t: Taxpayer, date: Day, total: nat)
    ensures InChain(TaxpayerHead(t), 2, 438) && InChain(PersonFields(t), 438, 518)
    ensures InChain(PaymentFields(t, date, total), 518, BUFFER)
  {
    hide DayMonthYear;
    hide Cut;
    hide IbanOf;
    hide AmountText;
  }

  lemma TrailerIsWellFormed(forms: nat)
    ensures WellFormed(TrailerBody(forms))
  {
    hide Text;
  }

  // ---------- The file ----------

  /** The sum of the balances of the forms: the amount to debit. */
  function Total(forms: seq<seq<Line>>): int {
    if forms == [] then 0 else FormBalance(forms[0]) + Total(forms[1..])
  }

  predicate FormsOk(t: Taxpayer, date: Day, forms: seq<seq<Line>>) {
    forall i :: 0 <= i < |forms| ==> FormOk(t.fiscalCode, date, forms[i])
  }

  lemma {:induction false} TotalNonNegative(t: Taxpayer, date: Day, forms: seq<seq<Line>>)
    requires FormsOk(t, date, forms)
    ensures Total(forms) >= 0
  {
    hide FormBalance;
    if forms != [] {
      assert FormOk(t.fiscalCode, date, forms[0]);
      assert FormBalance(forms[0]) >= 0;
      hide FormOk;
      assert forall i :: 0 <= i < |forms[1..]| ==> forms[1..][i] == forms[i + 1];
      TotalNonNegative(t, date, forms[1..]);
    }
  }

  /** There is at least one form, each is accepted, and the other records fit. */
  predicate FileOk(t: Taxpayer, date: Day, forms: seq<seq<Line>>) {
    && forms != [] && FormsOk(t, date, forms)
    && (TotalNonNegative(t, date, forms);
        AllFit(HeaderBody(t)) && AllFit(TaxpayerBody(t, date, Total(forms))) && AllFit(TrailerBody(|forms|)))
  }

  function FormText(t: Taxpayer, date: Day, lines: seq<Line>): (s: string)
    requires FormOk(t.fiscalCode, date, lines)
    ensures |s| == RECORD_LENGTH
  {
    FormIsWellFormed(t.fiscalCode, date, lines);
    RecordText('V', FormFields(t.fiscalCode, date, lines))
  }

  function HeaderText(t: Taxpayer): (s: string)
    requires AllFit(HeaderBody(t))
    ensures |s| == RECORD_LENGTH
  {
    HeaderIsWellFormed(t);
    RecordText('A', HeaderBody(t))
  }

  function TaxpayerText(t: Taxpayer, date: Day, total: nat): (s: string)
    requires AllFit(TaxpayerBody(t, date, total))
    ensures |s| == RECORD_LENGTH
  {
    TaxpayerIsWellFormed(t, date, total);
    RecordText('M', TaxpayerBody(t, date, total))
  }

  function TrailerText(forms: nat): (s: string)
    requires AllFit(TrailerBody(forms))
    ensures |s| == RECORD_LENGTH
  {
    TrailerIsWellFormed(forms);
    RecordText('Z', TrailerBody(forms))
  }

  function FormTexts(t: Taxpayer, date: Day, forms: seq<seq<Line>>): (texts: seq<string>)
    requires FormsOk(t, date, forms)
    ensures |texts| == |forms| && AllRecords(texts)
    ensures forall i :: 0 <= i < |texts| ==> texts[i] == FormText(t, date, forms[i])
  {
    seq(|forms|, i requires 0 <= i < |forms| => FormText(t, date, forms[i]))
  }

  predicate AllRecords(texts: seq<string>) {
    forall i :: 0 <= i < |texts| ==> |texts[i]| == RECORD_LENGTH
  }

  function Assemble(first: string, second: string, texts: seq<string>, last: string): (r: seq<string>)
    requires AllRecords(texts) && |first| == |second| == |last| == RECORD_LENGTH
    ensures |r| == |texts| + 3 && AllRecords(r)
  {
    [first, second] + texts + [last]
  }

  /** The records of the file, in order. */
  function Records(t: Taxpayer, date: Day, forms: seq<seq<Line>>): (records: seq<string>)
    requires FileOk(t, date, forms)
    ensures |records| == |forms| + 3 && AllRecords(records)
  {
    TotalNonNegative(t, date, forms);
    hide FormsOk;
    hide AllFit;
    Assemble(HeaderText(t), TaxpayerText(t, date, Total(forms)), FormTexts(t, date, forms), TrailerText(|forms|))
  }

  function Concat(texts: seq<string>): string {
    if texts == [] then "" else Concat(texts[..|texts| - 1]) + texts[|texts| - 1]
  }

  function FileText(t: Taxpayer, date: Day, forms: seq<seq<Line>>): string
    requires FileOk(t, date, forms)
  {
    Concat(Records(t, date, forms))
  }

  /** Record k of a file. */
  function RecordOf(file: string, k: int): string { Slice(file, RECORD_LENGTH * k + 1, RECORD_LENGTH) }

  lemma {:induction false} ConcatLayout(texts: seq<string>, k: nat)
    requires AllRecords(texts)
    ensures |Concat(texts)| == RECORD_LENGTH * |texts|
    ensures k < |texts| ==> RecordOf(Concat(texts), k) == texts[k]
  {
    if texts != [] {
      var before, last := texts[..|texts| - 1], texts[|texts| - 1];
      ConcatLayout(before, k);
      if k < |before| {
        SliceOfFront(Concat(before), last, RECORD_LENGTH * k + 1, RECORD_LENGTH);
      }
    }
  }

  /** The file is one record after the other: 1900 characters times the number of forms plus three. */
  lemma FileLayout(t: Taxpayer, date: Day, forms: seq<seq<Line>>, k: nat)
    requires FileOk(t, date, forms) && k < |forms| + 3
    ensures |FileText(t, date, forms)| == RECORD_LENGTH * (|forms| + 3)
    ensures RecordOf(FileText(t, date, forms), k) == Records(t, date, forms)[k]
    ensures HasShape(RecordOf(FileText(t, date, forms), k),
                     if k == 0 then 'A' else if k == 1 then 'M' else if k < |forms| + 2 then 'V' else 'Z')
  {
    ConcatLayout(Records(t, date, forms), k);
    RecordShapes(t, date, forms, k);
    hide Records;
    hide FileOk;
    hide Concat;
    hide RecordOf;
  }

  /** A record of the given type, with the control character and the line end. */
  predicate HasShape(s: string, kind: char) {
    |s| == RECORD_LENGTH && s[0] == kind && s[BUFFER - 1..] == "A\r\n"
  }

  lemma FormShape(t: Taxpayer, date: Day, lines: seq<Line>)
    requires FormOk(t.fiscalCode, date, lines)
    ensures HasShape(FormText(t, date, lines), 'V')
  {
    FormIsWellFormed(t.fiscalCode, date, lines);
    hide FormFields;
    hide WellFormed;
    RecordShape('V', FormFields(t.fiscalCode, date, lines));
  }

  lemma OtherShapes(t: Taxpayer, date: Day, total: nat, forms: nat)
    requires AllFit(HeaderBody(t)) && AllFit(TaxpayerBody(t, date, total)) && AllFit(TrailerBody(forms))
    ensures HasShape(HeaderText(t), 'A') && HasShape(TaxpayerText(t, date, total), 'M')
            && HasShape(TrailerText(forms), 'Z')
  {
    HeaderIsWellFormed(t);
    TaxpayerIsWellFormed(t, date, total);
    TrailerIsWellFormed(forms);
    hide WellFormed;
    hide HeaderBody;
    hide TaxpayerBody;
    hide TrailerBody;
    hide AllFit;
    RecordShape('A', HeaderBody(t));
    RecordShape('M', TaxpayerBody(t, date, total));
    RecordShape('Z', TrailerBody(forms));
    hide RecordText;
  }

  lemma RecordShapes(t: Taxpayer, date: Day, forms: seq<seq<Line>>, k: nat)
    requires FileOk(t, date, forms) && k < |forms| + 3
    ensures HasShape(Records(t, date, forms)[k],
                     if k == 0 then 'A' else if k == 1 then 'M' else if k < |forms| + 2 then 'V' else 'Z')
  {
    hide AllFit;
    hide HasShape;
    hide HeaderText;
    hide TaxpayerText;
    hide TrailerText;
    hide FormText;
    hide FormOk;
    hide HeaderBody;
    hide TaxpayerBody;
    hide TrailerBody;
    hide Total;
    TotalNonNegative(t, date, forms);
    OtherShapes(t, date, Total(forms), |forms|);
    if 2 <= k < |forms| + 2 {
      FormShape(t, date, forms[k - 2]);
    }
    var texts := FormTexts(t, date, forms);
    hide FormTexts;
    assert Records(t, date, forms)
        == [HeaderText(t), TaxpayerText(t, date, Total(forms))] + texts + [TrailerText(|forms|)];
    hide Records;
  }

  // ---------- Reading the file back ----------

  lemma FormRecordIs(t: Taxpayer, date: Day, forms: seq<seq<Line>>, k: nat)
    requires FileOk(t, date, forms) && k < |forms|
    ensures FormOk(t.fiscalCode, date, forms[k]) && WellFormed(FormFields(t.fiscalCode, date, forms[k]))
    ensures RecordOf(FileText(t, date, forms), k + 2) == RecordText('V', FormFields(t.fiscalCode, date, forms[k]))
  {
    hide FormOk;
    hide FormFields;
    hide RecordOf;
    hide Concat;
    hide HasShape;
    hide WellFormed;
    FileLayout(t, date, forms, k + 2);
    FormIsWellFormed(t.fiscalCode, date, forms[k]);
    assert Records(t, date, forms)[k + 2] == FormText(t, date, forms[k]);
  }

  lemma TaxpayerRecordIs(t: Taxpayer, date: Day, forms: seq<seq<Line>>)
    requires FileOk(t, date, forms)
    ensures Total(forms) >= 0 && AllFit(TaxpayerBody(t, date, Total(forms)))
    ensures RecordOf(FileText(t, date, forms), 1) == TaxpayerText(t, date, Total(forms))
  {
    hide FormOk;
    hide RecordOf;
    hide Concat;
    hide HasShape;
    hide AllFit;
    TotalNonNegative(t, date, forms);
    FileLayout(t, date, forms, 1);
    assert Records(t, date, forms)[1] == TaxpayerText(t, date, Total(forms));
  }

  /** From the file alone: for every form and section, the rows written, in order, and nothing else; and the balance. */
  lemma FileReadsBack(t: Taxpayer, date: Day, forms: seq<seq<Line>>, k: nat, section: Written)
    requires FileOk(t, date, forms) && k < |forms|
    requires forall i :: 0 <= i < |Of(forms[k], section)| ==> Clean(Of(forms[k], section)[i].code) != ""
    ensures var record, own := RecordOf(FileText(t, date, forms), k + 2), Of(forms[k], section);
            && UsedRows(DecodeSection(section, record).rows) == StoredRows(section, own)
            && DecodeSection(section, record).totals.balance == BalanceOf(own)
            && ReadNu(record, 1793, 15) == FormBalance(forms[k])
  {
    hide *;
    FormRecordIs(t, date, forms, k);
    FormReadsBack(t.fiscalCode, date, forms[k], section);
  }

  /** The amount on record M is the sum of the balances of the forms, none of which is negative. */
  lemma AmountToDebit(t: Taxpayer, date: Day, forms: seq<seq<Line>>)
    requires FileOk(t, date, forms)
    ensures ReadAmount(Slice(RecordOf(FileText(t, date, forms), 1), 1873, 15)) == Total(forms)
    ensures forall i :: 0 <= i < |forms| ==> 0 <= FormBalance(forms[i]) <= Total(forms)
  {
    TaxpayerRecordIs(t, date, forms);
    TaxpayerAmount(t, date, Total(forms));
    assert FormsOk(t, date, forms);
    hide *;
    forall i | 0 <= i < |forms|
      ensures 0 <= FormBalance(forms[i]) <= Total(forms)
    {
      BalanceUpToTotal(t, date, forms, i);
    }
  }

  lemma TaxpayerAmount(t: Taxpayer, date: Day, total: nat)
    requires AllFit(TaxpayerBody(t, date, total))
    ensures ReadAmount(Slice(TaxpayerText(t, date, total), 1873, 15)) == total
  {
    hide AllFit;
    hide AmountText;
    hide DayMonthYear;
    hide IbanOf;
    hide PersonFields;
    hide TaxpayerHead;
    var f := An(1873, 15, AmountText(total));
    var last := PaymentFields(t, date, total);
    assert last[2] == f && f in last;
    hide PaymentFields;
    var body := TaxpayerBody(t, date, total);
    assert f in body;
    hide TaxpayerBody;
    TaxpayerIsWellFormed(t, date, total);
    RecordReadsBack('M', body, f);
    AmountFieldIsReadBack(1873, 15, total);
    hide Padded;
    hide Slice;
    hide ReadAmount;
    hide RecordText;
  }

  lemma AcceptedBalance(fiscalCode: string, date: Day, lines: seq<Line>)
    requires FormOk(fiscalCode, date, lines)
    ensures FormBalance(lines) >= 0
  {
    hide FormFields;
    hide SectionOk;
    hide FormBalance;
  }

  lemma {:induction false} BalanceUpToTotal(t: Taxpayer, date: Day, forms: seq<seq<Line>>, i: nat)
    requires FormsOk(t, date, forms) && i < |forms|
    ensures 0 <= FormBalance(forms[i]) <= Total(forms)
  {
    hide FormBalance;
    hide FormOk;
    var rest := forms[1..];
    assert forall j :: 0 <= j < |rest| ==> rest[j] == forms[j + 1];
    AcceptedBalance(t.fiscalCode, date, forms[0]);
    TotalNonNegative(t, date, rest);
    if i > 0 {
      BalanceUpToTotal(t, date, rest, i - 1);
    }
  }

  /** DDMMYYYY read as a date. */
  function ReadDate(s: string): Day
    requires |s| == 8 && AreDigits(s, 10)
  {
    UtcDate(Read(s[4..], 10), Read(s[2..4], 10), Read(s[..2], 10))
  }

  /** The payment date of a form reads back, for the years of four digits. */
  lemma DateReadsBack(d: Day)
    requires 1000 <= YearOf(d) <= 9999
    ensures var s := PadStart(DayMonthYear(d, ""), 8, '0');
            |s| == 8 && AreDigits(s, 10) && ReadDate(s) == d
  {
    hide YearOf;
    hide MonthOf;
    hide DayOf;
    hide UtcDate;
    hide Pad2;
    hide Read;
    hide Print;
    hide IsDigit;
    var day, month, year := Pad2(DayOf(d)), Pad2(MonthOf(d)), Text(YearOf(d));
    DateOfFields(d);
    TwoDigitsBack(DayOf(d));
    TwoDigitsBack(MonthOf(d));
    FourDigits(YearOf(d));
    ReadPrint(YearOf(d), 10);
    var s := day + month + year;
    assert DayMonthYear(d, "") == s;
    assert PadStart(s, 8, '0') == s;
    assert s[4..] == year && s[2..4] == month && s[..2] == day;
  }

  lemma FourDigits(n: int)
    requires 1000 <= n <= 9999
    ensures |Text(n)| == 4
  {
    PrintLength(n, 10, 3);
    PrintLength(n, 10, 4);
    assert Power(10, 3) == 10 * Power(10, 2) == 1000 by { assert Power(10, 2) == 10 * Power(10, 1) == 100; }
    assert Power(10, 4) == 10 * Power(10, 3);
    hide Print;
  }

  // ---------- Writing it ----------

  /** The record of the fields written, unless one did not fit. */
  method Finish(w: RecordWriter, kind: char, ghost body: seq<Field>) returns (r: Option<string>)
    requires w.Valid() && w.fields == RecordFields(kind, body) && WellFormed(body)
    ensures r.Some? <==> AllFit(body)
    ensures r.Some? ==> r.value == RecordText(kind, body)
  {
    RecordIsDisjoint(kind, body);
    WriterSays(w, kind, body);
    hide RecordWriter.Valid;
    hide AllFit;
    hide WellFormed;
    hide RecordFields;
    var s := w.ToString();
    r := if w.failed then None else Some(s);
  }

  method WriteHeaderPerson(w: RecordWriter, t: Taxpayer)
    requires w.Valid()
    modifies w, w.chars
    ensures w.Valid() && w.fields == old(w.fields) + HeaderPerson(t)
  {
    hide RecordWriter.Valid;
    hide DayMonthYear;
    hide Cut;
    w.WriteAn(16, 5, "F24A0");
    w.WriteAn(21, 2, "04");
    w.WriteAn(23, 16, t.fiscalCode);
    w.WriteAn(39, 24, Cut(t.lastName, 24));
    w.WriteAn(63, 20, Cut(t.firstName, 20));
    w.WriteAn(83, 1, [t.sex]);
    w.WriteNu(84, 8, DayMonthYear(t.birthDate, ""));
    w.WriteAn(92, 40, Cut(t.birthPlace, 40));
    w.WriteAn(132, 2, t.birthProvince);
  }

  method WriteHeader(t: Taxpayer) returns (r: Option<string>)
    ensures r.Some? <==> AllFit(HeaderBody(t))
    ensures r.Some? ==> r.value == HeaderText(t)
  {
    hide RecordWriter.Valid;
    hide HeaderPerson;
    hide AllFit;
    var w := new RecordWriter('A');
    WriteHeaderPerson(w, t);
    w.WriteNu(211, 5, "0");
    w.WriteNu(353, 5, "0");
    w.WriteNu(435, 5, "0");
    w.WriteNu(522, 3, "1");
    w.WriteNu(525, 3, "1");
    HeaderIsWellFormed(t);
    assert w.fields == RecordFields('A', HeaderBody(t));
    r := Finish(w, 'A', HeaderBody(t));
  }

  method WriteTaxpayerHead(w: RecordWriter, t: Taxpayer)
    requires w.Valid()
    modifies w, w.chars
    ensures w.Valid() && w.fields == old(w.fields) + TaxpayerHead(t)
  {
    hide RecordWriter.Valid;
    w.WriteAn(2, 16, t.fiscalCode);
    w.WriteNu(18, 8, "1");
    w.WriteAn(91, 1, "E");
    w.WriteNu(92, 1, "0");
    w.WriteNu(93, 1, "0");
    w.WriteNu(110, 1, "0");
    w.WriteNu(156, 8, "0");
    w.WriteNu(248, 5, "0");
    w.WriteNu(330, 5, "0");
  }

  method WritePerson(w: RecordWriter, t: Taxpayer)
    requires w.Valid()
    modifies w, w.chars
    ensures w.Valid() && w.fields == old(w.fields) + PersonFields(t)
  {
    hide RecordWriter.Valid;
    hide DayMonthYear;
    hide Cut;
    w.WriteAn(438, 24, Cut(t.lastName, 24));
    w.WriteAn(462, 20, Cut(t.firstName, 20));
    w.WriteNu(482, 8, DayMonthYear(t.birthDate, ""));
    w.WriteAn(490, 1, [t.sex]);
    w.WriteAn(491, 25, Cut(t.birthPlace, 25));
    w.WriteAn(516, 2, t.birthProvince);
  }

  method WritePayment(w: RecordWriter, t: Taxpayer, date: Day, total: nat)
    requires w.Valid()
    modifies w, w.chars
    ensures w.Valid() && w.fields == old(w.fields) + PaymentFields(t, date, total)
  {
    hide RecordWriter.Valid;
    hide DayMonthYear;
    hide AmountText;
    hide IbanOf;
    w.WriteAn(1741, 27, IbanOf(t, total));
    w.WriteAn(1869, 4, "EURO");
    w.WriteAn(1873, 15, AmountText(total));
    w.WriteAn(1888, 10, DayMonthYear(date, "-"));
  }

  method WriteTaxpayer(t: Taxpayer, date: Day, total: nat) returns (r: Option<string>)
    ensures r.Some? <==> AllFit(TaxpayerBody(t, date, total))
    ensures r.Some? ==> r.value == TaxpayerText(t, date, total)
  {
    hide RecordWriter.Valid;
    hide TaxpayerHead;
    hide PersonFields;
    hide PaymentFields;
    var w := new RecordWriter('M');
    WriteTaxpayerHead(w, t);
    WritePerson(w, t);
    WritePayment(w, t, date, total);
    TaxpayerIsWellFormed(t, date, total);
    r := Finish(w, 'M', TaxpayerBody(t, date, total));
  }

  method WriteTrailer(forms: nat) returns (r: Option<string>)
    ensures r.Some? <==> AllFit(TrailerBody(forms))
    ensures r.Some? ==> r.value == TrailerText(forms)
  {
    hide RecordWriter.Valid;
    hide Text;
    var w := new RecordWriter('Z');
    w.WriteNu(16, 9, Text(forms));
    w.WriteNu(25, 9, "1");
    TrailerIsWellFormed(forms);
    r := Finish(w, 'Z', TrailerBody(forms));
  }

  /** The records of the forms with the sum of their balances, or nothing when one is refused. */
  method WriteForms(t: Taxpayer, date: Day, forms: seq<seq<Line>>) returns (r: Option<(seq<string>, int)>)
    ensures r.Some? <==> FormsOk(t, date, forms)
    ensures r.Some? ==> r.value == (FormTexts(t, date, forms), Total(forms))
  {
    hide *;
    NoForms(t, date);
    var texts, total := [], 0;
    assert forms[..0] == [];
    for i := 0 to |forms|
      invariant FormsOk(t, date, forms[..i]) && texts == FormTexts(t, date, forms[..i]) && total == Total(forms[..i])
    {
      var form := WriteForm(t.fiscalCode, date, forms[i]);
      OneMoreForm(t, date, forms, i);
      if form.None? {
        return None;
      }
      texts, total := texts + [form.value.0], total + form.value.1;
    }
    assert forms[..|forms|] == forms;
    r := Some((texts, total));
  }

  lemma NoForms(t: Taxpayer, date: Day)
    ensures FormsOk(t, date, []) && FormTexts(t, date, []) == [] && Total([]) == 0
  {
  }

  lemma OneMoreForm(t: Taxpayer, date: Day, forms: seq<seq<Line>>, i: nat)
    requires i < |forms| && FormsOk(t, date, forms[..i])
    ensures FormsOk(t, date, forms[..i + 1]) <==> FormOk(t.fiscalCode, date, forms[i])
    ensures !FormOk(t.fiscalCode, date, forms[i]) ==> !FormsOk(t, date, forms)
    ensures FormOk(t.fiscalCode, date, forms[i]) ==>
              && WellFormed(FormFields(t.fiscalCode, date, forms[i]))
              && FormTexts(t, date, forms[..i + 1])
                 == FormTexts(t, date, forms[..i]) + [RecordText('V', FormFields(t.fiscalCode, date, forms[i]))]
    ensures Total(forms[..i + 1]) == Total(forms[..i]) + FormBalance(forms[i])
  {
    hide FormOk;
    hide FormFields;
    hide FormBalance;
    hide WellFormed;
    hide RecordText;
    var next := forms[..i + 1];
    assert next == forms[..i] + [forms[i]];
    TotalAppend(forms[..i], forms[i]);
    hide Total;
    FormIsWellFormed(t.fiscalCode, date, forms[i]);
    if FormsOk(t, date, next) {
      assert FormOk(t.fiscalCode, date, next[i]);
    }
    if FormOk(t.fiscalCode, date, forms[i]) {
      assert forall k :: 0 <= k < i + 1 ==> next[k] == if k < i then forms[..i][k] else forms[i];
    }
  }

  lemma {:induction false} TotalAppend(forms: seq<seq<Line>>, lines: seq<Line>)
    ensures Total(forms + [lines]) == Total(forms) + FormBalance(lines)
  {
    hide FormBalance;
    var all := forms + [lines];
    if forms == [] {
      assert all[1..] == [];
    } else {
      assert all[1..] == forms[1..] + [lines];
      TotalAppend(forms[1..], lines);
    }
  }

  /** The file, or nothing when there is no form or something in it is refused. */
  method BuildTelematicFile(t: Taxpayer, date: Day, forms: seq<seq<Line>>) returns (r: Option<string>)
    ensures r.Some? <==> FileOk(t, date, forms)
    ensures r.Some? ==> r.value == FileText(t, date, forms)
  {
    hide FormOk;
    hide AllFit;
    hide HeaderText;
    hide TaxpayerText;
    hide TrailerText;
    hide Total;
    if forms == [] {
      return None;
    }
    var records := WriteForms(t, date, forms);
    if records.None? {
      return None;
    }
    TotalNonNegative(t, date, forms);
    var header := WriteHeader(t);
    var taxpayer := WriteTaxpayer(t, date, records.value.1);
    var trailer := WriteTrailer(|forms|);
    if header.None? || taxpayer.None? || trailer.None? {
      return None;
    }
    r := Some(Concat(Assemble(header.value, taxpayer.value, records.value.0, trailer.value)));
  }
}
