/** Which files are written, in terms of the taxpayer, the date and the forms. */
module TelematicFileLimits {
  import opened Dates
  import opened F24
  import opened Radix
  import opened Rounding
  import opened TelematicAmount
  import opened TelematicFile
  import opened TelematicForm
  import opened TelematicLimits
  import opened TelematicRecord
  import opened Wrappers

  /** The personal data fit; names and places are cut to their fields. */
  predicate PersonFits(t: Taxpayer) {
    |t.fiscalCode| <= 16 && YearFits(YearOf(t.birthDate)) && |t.birthProvince| <= 2
  }

  predicate IbanFits(t: Taxpayer, total: int) { total > 0 ==> |WithoutSpaces(t.iban.GetOr(""))| <= 27 }

  lemma HeaderFitsIff(t: Taxpayer)
    ensures AllFit(HeaderBody(t)) <==> PersonFits(t)
  {
    var fs := HeaderPerson(t);
    DateFits(84, t.birthDate);
    hide DayMonthYear;
    hide YearFits;
    hide YearOf;
    FitTogether(fs, HeaderRest());
    HeaderRestFits();
    hide HeaderRest;
    assert AllFit(fs) <==> Fits(fs[0]) && Fits(fs[1]) && Fits(fs[2]) && Fits(fs[3]) && Fits(fs[4])
                           && Fits(fs[5]) && Fits(fs[6]) && Fits(fs[7]) && Fits(fs[8]) by {
      hide Fits;
      hide Cut;
    }
    hide AllFit;
  }

  lemma HeaderRestFits()
    ensures AllFit(HeaderRest())
  {
  }

  lemma PersonFieldsFit(t: Taxpayer)
    ensures AllFit(PersonFields(t)) <==> YearFits(YearOf(t.birthDate)) && |t.birthProvince| <= 2
  {
    var fs := PersonFields(t);
    DateFits(482, t.birthDate);
    hide DayMonthYear;
    hide YearFits;
    hide YearOf;
    assert AllFit(fs) <==> Fits(fs[0]) && Fits(fs[1]) && Fits(fs[2]) && Fits(fs[3]) && Fits(fs[4]) && Fits(fs[5]) by {
      hide Fits;
      hide Cut;
    }
    hide AllFit;
  }

  lemma TaxpayerHeadFits(t: Taxpayer)
    ensures AllFit(TaxpayerHead(t)) <==> |t.fiscalCode| <= 16
  {
    var fs := TaxpayerHead(t);
    assert AllFit(fs) <==> Fits(fs[0]) && Fits(fs[1]) && Fits(fs[2]) && Fits(fs[3]) && Fits(fs[4])
                           && Fits(fs[5]) && Fits(fs[6]) && Fits(fs[7]) && Fits(fs[8]) by {
      hide Fits;
    }
    hide AllFit;
  }

  lemma PaymentFieldsFit(t: Taxpayer, date: Day, total: nat)
    ensures AllFit(PaymentFields(t, date, total)) <==>
      IbanFits(t, total) && total < Power(10, 14) && |DayMonthYear(date, "-")| <= 10
  {
    var fs := PaymentFields(t, date, total);
    AmountFitsIff(total);
    hide AmountText;
    hide DayMonthYear;
    hide WithoutSpaces;
    hide Power;
    assert AllFit(fs) <==> Fits(fs[0]) && Fits(fs[1]) && Fits(fs[2]) && Fits(fs[3]) by {
      hide Fits;
      hide IbanOf;
    }
    hide AllFit;
  }

  lemma DashedDateFits(date: Day)
    requires YearFits(YearOf(date))
    ensures |DayMonthYear(date, "-")| <= 10
  {
    TextFits(YearOf(date), 4);
    hide YearOf;
    hide MonthOf;
    hide DayOf;
    hide Text;
    hide Power;
    TwoSymbols(DayOf(date));
    TwoSymbols(MonthOf(date));
    hide Pad2;
  }

  lemma TaxpayerFitsIff(t: Taxpayer, date: Day, total: nat)
    requires YearFits(YearOf(date))
    ensures AllFit(TaxpayerBody(t, date, total)) <==> PersonFits(t) && IbanFits(t, total) && total < Power(10, 14)
  {
    hide AllFit;
    hide TaxpayerHead;
    hide PersonFields;
    hide PaymentFields;
    hide DayMonthYear;
    hide YearFits;
    hide IbanFits;
    hide Power;
    TaxpayerHeadFits(t);
    PersonFieldsFit(t);
    DashedDateFits(date);
    PaymentFieldsFit(t, date, total);
    FitTogether(TaxpayerHead(t), PersonFields(t));
    FitTogether(TaxpayerHead(t) + PersonFields(t), PaymentFields(t, date, total));
  }

  lemma TrailerFitsIff(forms: nat)
    ensures AllFit(TrailerBody(forms)) <==> forms < Power(10, 9)
  {
    var fs := TrailerBody(forms);
    NuFits(16, 9, forms);
    hide Text;
    hide Power;
    assert AllFit(fs) <==> Fits(fs[0]) && Fits(fs[1]) by {
      hide Fits;
    }
    hide AllFit;
  }

  lemma AcceptedFormFits(fiscalCode: string, date: Day, lines: seq<Line>)
    requires FormOk(fiscalCode, date, lines)
    ensures |fiscalCode| <= 16 && YearFits(YearOf(date))
  {
    hide FormOk;
    hide SectionOk;
    hide SectionFits;
    hide YearFits;
    hide FormBalance;
    AcceptedIff(fiscalCode, date, lines);
  }

  /** What is written, exactly: at least one form and fewer than a billion, each accepted, whose total has at most
      fourteen digits; a birth date of at most four digits of year, a province of at most two letters and, with an
      amount to debit, an IBAN of at most 27 characters. */
  lemma FileAcceptedIff(t: Taxpayer, date: Day, forms: seq<seq<Line>>)
    ensures FileOk(t, date, forms) <==>
      && 0 < |forms| < Power(10, 9) && FormsOk(t, date, forms)
      && Total(forms) < Power(10, 14) && IbanFits(t, Total(forms))
      && YearFits(YearOf(t.birthDate)) && |t.birthProvince| <= 2
  {
    hide AllFit;
    hide FormOk;
    hide HeaderBody;
    hide TaxpayerBody;
    hide TrailerBody;
    hide Total;
    hide Power;
    hide YearFits;
    hide IbanFits;
    hide YearOf;
    if forms != [] && FormsOk(t, date, forms) {
      TotalNonNegative(t, date, forms);
      AcceptedFormFits(t.fiscalCode, date, forms[0]);
      HeaderFitsIff(t);
      TaxpayerFitsIff(t, date, Total(forms));
      TrailerFitsIff(|forms|);
    }
  }

  /** Of the dates that are accepted, those written in full, with nothing padded in front, are those from the year 1000
      on. */
  lemma DateIsWholeIff(d: Day)
    requires YearFits(YearOf(d))
    ensures PadStart(DayMonthYear(d, ""), 8, '0') == DayMonthYear(d, "") <==> 1000 <= YearOf(d)
  {
    var year := YearOf(d);
    TextFits(year, 4);
    TextFits(year, 3);
    assert Power(10, 3) == 10 * Power(10, 2) && Power(10, 2) == 10 * Power(10, 1) && Power(10, 1) == 10;
    hide YearOf;
    hide MonthOf;
    hide DayOf;
    hide Text;
    hide Power;
    TwoSymbols(DayOf(d));
    TwoSymbols(MonthOf(d));
    hide Pad2;
    assert |DayMonthYear(d, "")| == 4 + |Text(year)|;
  }
}
