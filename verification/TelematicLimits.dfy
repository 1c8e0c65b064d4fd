/** Which forms the writer accepts, in terms of the values of their lines. */
module TelematicLimits {
  import opened Dates
  import opened F24
  import opened Radix
  import opened Rounding
  import opened TelematicAmount
  import opened TelematicForm
  import opened TelematicRecord
  import opened Wrappers

  /** An amount of at most fifteen digits, a year of at most four. */
  predicate AmountFits(n: int) { 0 <= n < Power(10, 15) }
  predicate YearFits(n: int) { 0 <= n < Power(10, 4) }
  predicate AmountsFit(l: Line) { AmountFits(l.debitAmount) && AmountFits(l.CreditOrZero()) }
  predicate PeriodFits(p: Option<string>) { |Period(p)| <= 6 && AreDigits(Period(p), 10) }

  /** The values of a line fit the fields of its section. */
  predicate LineFits(section: Written, l: Line) {
    && |l.code| <= 4 && AmountsFit(l)
    && match section
       case Treasury => |l.installmentCode.GetOr("0000")| <= 4 && YearFits(l.referenceYear)
       case Inps => |l.positionCode.GetOr("")| <= 17 && PeriodFits(l.periodFrom) && PeriodFits(l.periodTo)
       case _ => |l.installmentCode.GetOr("0000")| <= 4 && YearFits(l.referenceYear)
  }

  lemma TextFits(n: int, k: nat)
    requires k >= 1
    ensures |Text(n)| <= k && AreDigits(Text(n), 10) <==> 0 <= n < Power(10, k)
  {
    hide Print;
    hide Power;
    if n >= 0 {
      PrintLength(n, 10, k);
    } else {
      MinusIsNoDigit(n);
    }
  }

  lemma MinusIsNoDigit(n: int)
    requires n < 0
    ensures !AreDigits(Text(n), 10)
  {
    hide Print;
    assert !IsDigit(Text(n)[0], 10);
  }

  lemma NuFits(at: int, k: nat, n: int)
    requires k >= 1
    ensures Fits(Nu(at, k, Text(n))) <==> 0 <= n < Power(10, k)
  {
    TextFits(n, k);
    hide Text;
    hide Power;
  }

  lemma Fit6(a: Field, b: Field, c: Field, d: Field, e: Field, f: Field)
    ensures AllFit([a, b, c, d, e, f]) <==> Fits(a) && Fits(b) && Fits(c) && Fits(d) && Fits(e) && Fits(f)
  {
    hide Fits;
    var fs := [a, b, c, d, e, f];
    if AllFit(fs) {
      assert Fits(fs[0]) && Fits(fs[1]) && Fits(fs[2]) && Fits(fs[3]) && Fits(fs[4]) && Fits(fs[5]);
    }
  }

  lemma TreasuryFits(at: int, l: Line)
    ensures AllFit(TreasuryRow(at, Some(l))) <==> LineFits(Treasury, l)
  {
    var fs := TreasuryRow(at, Some(l));
    Fit6(fs[0], fs[1], fs[2], fs[3], fs[4], fs[5]);
    NuFits(at + 24, 4, l.referenceYear);
    NuFits(at + 28, 15, l.debitAmount);
    NuFits(at + 43, 15, l.CreditOrZero());
    hide Power;
    hide Text;
    hide AllFit;
  }

  lemma InpsFits(at: int, l: Line)
    requires PlaceOk(l) && l.section.Inps?
    ensures AllFit(InpsRow(at, Some(l))) <==> LineFits(Inps, l)
  {
    var fs := InpsRow(at, Some(l));
    Fit6(fs[1], fs[2], fs[3], fs[4], fs[5], fs[6]);
    FitTogether([fs[0]], [fs[1], fs[2], fs[3], fs[4], fs[5], fs[6]]);
    assert fs == [fs[0]] + [fs[1], fs[2], fs[3], fs[4], fs[5], fs[6]];
    NuFits(at + 37, 15, l.debitAmount);
    NuFits(at + 52, 15, l.CreditOrZero());
    OneFits(fs[0]);
    hide Power;
    hide Text;
    hide Period;
    hide AllFit;
  }

  lemma OneFits(f: Field)
    ensures AllFit([f]) <==> Fits(f)
  {
    assert [f][0] == f;
  }

  lemma RegionalFits(at: int, l: Line)
    requires PlaceOk(l) && l.section.Regional?
    ensures AllFit(RegionalRow(at, Some(l))) <==> LineFits(Regional, l)
  {
    var fs := RegionalRow(at, Some(l));
    Fit6(fs[0], fs[1], fs[2], fs[3], fs[4], fs[5]);
    NuFits(at + 10, 4, l.referenceYear);
    NuFits(at + 14, 15, l.debitAmount);
    NuFits(at + 29, 15, l.CreditOrZero());
    hide Power;
    hide Text;
    hide AllFit;
  }

  lemma Fit5(a: Field, b: Field, c: Field, d: Field, e: Field)
    ensures AllFit([a, b, c, d, e]) <==> Fits(a) && Fits(b) && Fits(c) && Fits(d) && Fits(e)
  {
    hide Fits;
    var fs := [a, b, c, d, e];
    if AllFit(fs) {
      assert Fits(fs[0]) && Fits(fs[1]) && Fits(fs[2]) && Fits(fs[3]) && Fits(fs[4]);
    }
  }

  lemma LocalRowFits(at: int, l: Option<Line>)
    ensures AllFit(LocalRow(at, l)) <==>
      Fits(An(at, 4, TownOf(l)))
        && AllFit([An(at + 26, 4, CodeOf(l)), An(at + 30, 4, InstallmentOf(l)), Nu(at + 34, 4, YearText(l)),
                                            Nu(at + 38, 15, DebitText(l)), Nu(at + 53, 15, CreditText(l))])
  {
    var fs := LocalRow(at, l);
    var flags, last := fs[1..7], fs[7..];
    assert flags == [Nu(at + 4, 1, "0"), Nu(at + 5, 1, "0"), Nu(at + 6, 1, "0"), Nu(at + 7, 1, "0"), Nu(at + 8, 3, "0"),
                     Nu(at + 11, 15, "0")];
    assert last == [An(at + 26, 4, CodeOf(l)), An(at + 30, 4, InstallmentOf(l)), Nu(at + 34, 4, YearText(l)),
                    Nu(at + 38, 15, DebitText(l)), Nu(at + 53, 15, CreditText(l))];
    assert AllFit(flags);
    hide Text;
    hide CodeOf;
    hide InstallmentOf;
    hide Fits;
    assert fs == [fs[0]] + flags + last;
    OneFits(fs[0]);
    FitTogether([fs[0]], flags);
    FitTogether([fs[0]] + flags, last);
    hide AllFit;
  }

  lemma LocalFits(at: int, l: Line)
    requires PlaceOk(l) && l.section.Local?
    ensures AllFit(LocalRow(at, Some(l))) <==> LineFits(Local, l)
  {
    LocalRowFits(at, Some(l));
    hide LocalRow;
    hide Power;
    hide Text;
    hide AllFit;
    Fit5(An(at + 26, 4, l.code), An(at + 30, 4, l.installmentCode.GetOr("0000")), Nu(at + 34, 4, Text(l.referenceYear)),
         Nu(at + 38, 15, Text(l.debitAmount)), Nu(at + 53, 15, Text(l.CreditOrZero())));
    NuFits(at + 34, 4, l.referenceYear);
    NuFits(at + 38, 15, l.debitAmount);
    NuFits(at + 53, 15, l.CreditOrZero());
    hide Fits;
  }

  lemma EmptyRowFits(section: Written, at: int)
    ensures AllFit(RowFields(section, at, None))
  {
    ZeroText();
    hide Text;
    match section {
      case Local => LocalRowFits(at, None);
      case _ =>
    }
  }

  lemma ZeroText()
    ensures Text(0) == "0"
  {
    PrintStep(0, 10);
  }

  lemma RowFits(section: Written, at: int, l: Line)
    requires PlaceOk(l) && l.section == section
    ensures AllFit(RowFields(section, at, Some(l))) <==> LineFits(section, l)
  {
    hide AllFit;
    hide LineFits;
    hide PlaceOk;
    match section {
      case Treasury => TreasuryFits(at, l);
      case Inps => InpsFits(at, l);
      case Regional => RegionalFits(at, l);
      case Local => LocalFits(at, l);
    }
  }

  lemma {:induction false} RowsFit(section: Written, lines: seq<Line>, k: nat)
    requires forall i :: 0 <= i < |lines| ==> PlaceOk(lines[i]) && lines[i].section == section
    ensures AllFit(Rows(section, lines, k)) <==> forall i :: 0 <= i < k && i < |lines| ==> LineFits(section, lines[i])
  {
    hide AllFit;
    hide LineFits;
    hide RowFields;
    hide PlaceOk;
    if k == 0 {
      NothingFits();
    } else {
      RowsFit(section, lines, k - 1);
      var at := RowAt(section, k - 1);
      FitTogether(Rows(section, lines, k - 1), RowFields(section, at, LineAt(lines, k - 1)));
      if k - 1 < |lines| {
        RowFits(section, at, lines[k - 1]);
      } else {
        EmptyRowFits(section, at);
      }
    }
  }

  lemma NothingFits()
    ensures AllFit([])
  {
  }

  /** The totals of a section fit. */
  predicate TotalsFit(lines: seq<Line>) {
    AmountFits(DebitTotal(lines)) && AmountFits(CreditTotal(lines))
  }

  lemma TotalsFitIff(at: int, lines: seq<Line>)
    ensures AllFit(Totals(at, lines)) <==> TotalsFit(lines)
  {
    hide DebitTotal;
    hide CreditTotal;
    hide Power;
    var fs := Totals(at, lines);
    assert AllFit(fs) <==> Fits(fs[0]) && Fits(fs[1]) && Fits(fs[2]) && Fits(fs[3]) by {
      hide Fits;
    }
    NuFits(at, 15, DebitTotal(lines));
    NuFits(at + 15, 15, CreditTotal(lines));
    NuFits(at + 31, 15, Abs(BalanceOf(lines)));
    hide Text;
  }

  /** The lines and totals of a section fit. */
  predicate SectionFits(section: Written, lines: seq<Line>) {
    var own := Of(lines, section);
    (forall i :: 0 <= i < |own| ==> LineFits(section, own[i])) && TotalsFit(own)
  }

  lemma SectionFitsIff(section: Written, lines: seq<Line>)
    requires SectionOk(section, lines)
    ensures AllFit(SectionFields(section, lines)) <==> SectionFits(section, lines)
  {
    hide AllFit;
    hide LineFits;
    hide Rows;
    hide Totals;
    hide TotalsFit;
    var own := Of(lines, section);
    RowsFit(section, own, RowLimit(section));
    TotalsFitIff(TotalsAt(section), own);
    FitTogether(Rows(section, own, RowLimit(section)), Totals(TotalsAt(section), own));
  }

  /** The whole form fits, in terms of its lines. */
  predicate FormFits(fiscalCode: string, date: Day, lines: seq<Line>) {
    && |fiscalCode| <= 16 && YearFits(YearOf(date)) && AmountFits(FormBalance(lines))
    && SectionFits(Treasury, lines) && SectionFits(Inps, lines) && SectionFits(Regional, lines)
    && SectionFits(Local, lines)
  }

  lemma HeadFits(fiscalCode: string)
    ensures AllFit(Head(fiscalCode)) <==> |fiscalCode| <= 16
  {
    var fs := Head(fiscalCode);
    assert AllFit(fs) <==> Fits(fs[0]) && Fits(fs[1]) && Fits(fs[2]) && Fits(fs[3]) by {
      hide Fits;
    }
  }

  lemma FootFits(lines: seq<Line>, date: Day)
    ensures AllFit(Foot(lines, date)) <==> AmountFits(FormBalance(lines)) && YearFits(YearOf(date))
  {
    hide FormBalance;
    hide YearOf;
    hide Power;
    hide DayMonthYear;
    var fs := Foot(lines, date);
    assert AllFit(fs) <==> Fits(fs[0]) && Fits(fs[1]) by {
      hide Fits;
    }
    NuFits(1793, 15, FormBalance(lines));
    hide Text;
    DateFits(1808, date);
  }

  lemma DateFits(at: int, date: Day)
    ensures Fits(Nu(at, 8, DayMonthYear(date, ""))) <==> YearFits(YearOf(date))
  {
    hide YearOf;
    hide MonthOf;
    hide DayOf;
    hide Power;
    var day, month, year := Pad2(DayOf(date)), Pad2(MonthOf(date)), Text(YearOf(date));
    TextFits(YearOf(date), 4);
    hide Text;
    TwoDigits(DayOf(date));
    TwoDigits(MonthOf(date));
    TwoSymbols(DayOf(date));
    TwoSymbols(MonthOf(date));
    hide Pad2;
    hide IsDigit;
    var s := day + month + year;
    assert DayMonthYear(date, "") == s;
    if AreDigits(s, 10) {
      assert forall i :: 0 <= i < |year| ==> year[i] == s[4 + i];
    }
  }

  lemma TwoSymbols(m: int)
    requires 0 <= m < 100
    ensures |Pad2(m)| == 2 && AreDigits(Pad2(m), 10)
  {
    TwoDigits(m);
  }

  lemma UnusedFits()
    ensures AllFit(InailFields() + EntityFields())
  {
    ZeroText();
    TotalsOfNothing();
    var t, u := Totals(1527, []), Totals(1697, []);
    assert InailFields() == InailRow(1371) + InailRow(1423) + InailRow(1475) + t;
    hide Totals;
    FitTogether(InailRow(1371), InailRow(1423));
    FitTogether(InailRow(1371) + InailRow(1423), InailRow(1475));
    FitTogether(InailRow(1371) + InailRow(1423) + InailRow(1475), t);
    FitTogether([Nu(1573, 4, "0")], EntityRow(1577));
    FitTogether([Nu(1573, 4, "0")] + EntityRow(1577), EntityRow(1637));
    FitTogether([Nu(1573, 4, "0")] + EntityRow(1577) + EntityRow(1637), u);
    FitTogether(InailFields(), EntityFields());
  }

  lemma TotalsOfNothing()
    ensures AllFit(Totals(1527, [])) && AllFit(Totals(1697, []))
  {
    ZeroText();
    hide Text;
  }

  /** What the writer accepts, exactly: forms whose sections, rows, places and balance are allowed and whose values
      fit. */
  lemma AcceptedIff(fiscalCode: string, date: Day, lines: seq<Line>)
    ensures FormOk(fiscalCode, date, lines) <==>
      && CountSection(lines, OtherEntity) == 0
      && SectionOk(Treasury, lines) && SectionOk(Inps, lines) && SectionOk(Regional, lines) && SectionOk(Local, lines)
      && FormFits(fiscalCode, date, lines)
  {
    hide SectionFits;
    hide SectionFields;
    hide InailFields;
    hide EntityFields;
    hide Head;
    hide Foot;
    hide FormBalance;
    hide AllFit;
    hide YearFits;
    if SectionOk(Treasury, lines) && SectionOk(Inps, lines) && SectionOk(Regional, lines) && SectionOk(Local, lines) {
      SectionFitsIff(Treasury, lines);
      SectionFitsIff(Inps, lines);
      SectionFitsIff(Regional, lines);
      SectionFitsIff(Local, lines);
      hide SectionOk;
      FieldsFitParts(fiscalCode, date, lines);
      hide FormFields;
      HeadFits(fiscalCode);
      FootFits(lines, date);
    }
  }

  lemma FieldsFitParts(fiscalCode: string, date: Day, lines: seq<Line>)
    ensures AllFit(FormFields(fiscalCode, date, lines)) <==>
      && AllFit(Head(fiscalCode)) && AllFit(Foot(lines, date))
      && AllFit(SectionFields(Treasury, lines)) && AllFit(SectionFields(Inps, lines))
      && AllFit(SectionFields(Regional, lines)) && AllFit(SectionFields(Local, lines))
  {
    hide SectionFields;
    hide InailFields;
    hide EntityFields;
    hide Head;
    hide Foot;
    hide AllFit;
    UnusedFits();
    var fs := Head(fiscalCode);
    FitTogether(fs, SectionFields(Treasury, lines));
    fs := fs + SectionFields(Treasury, lines);
    FitTogether(fs, SectionFields(Inps, lines));
    fs := fs + SectionFields(Inps, lines);
    FitTogether(fs, SectionFields(Regional, lines));
    fs := fs + SectionFields(Regional, lines);
    FitTogether(fs, SectionFields(Local, lines));
    fs := fs + SectionFields(Local, lines);
    FitTogether(InailFields(), EntityFields());
    FitTogether(fs, InailFields());
    fs := fs + InailFields();
    FitTogether(fs, EntityFields());
    fs := fs + EntityFields();
    FitTogether(fs, Foot(lines, date));
  }
}
