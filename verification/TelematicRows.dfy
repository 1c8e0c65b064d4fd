/** What the file accepts, row by row: the rows of each section are allowed and its totals fit. */
module TelematicRows {
  import opened Dates
  import opened F24
  import opened Radix
  import opened TelematicForm
  import opened TelematicLimits
  import opened Wrappers

  /** Everything of a row but its amounts fits the section it belongs to. */
  predicate LineOk(l: Line) {
    && !l.section.OtherEntity? && PlaceOk(l) && |l.code| <= 4
    && if l.section.Inps? then |l.positionCode.GetOr("")| <= 17 && PeriodFits(l.periodFrom) && PeriodFits(l.periodTo)
       else |l.installmentCode.GetOr("0000")| <= 4 && YearFits(l.referenceYear)
  }

  predicate RowAllowed(l: Line) { LineOk(l) && l.debitAmount >= 0 && l.CreditOrZero() >= 0 }

  predicate AllAllowed(lines: seq<Line>) { forall i :: 0 <= i < |lines| ==> RowAllowed(lines[i]) }

  /** A section is written exactly when its rows are within the limit and each allowed, and its totals fit. */
  predicate SectionAllowed(section: Written, lines: seq<Line>) {
    && CountSection(lines, section) <= RowLimit(section) && AllAllowed(Of(lines, section))
    && DebitTotal(Of(lines, section)) < Power(10, 15) && CreditTotal(Of(lines, section)) < Power(10, 15)
  }

  lemma LineFitsIff(section: Written, l: Line)
    requires l.section == section && PlaceOk(l)
    ensures LineFits(section, l) <==> LineOk(l) && AmountsFit(l)
  {
    hide PlaceOk;
    hide PeriodFits;
    hide YearFits;
    hide AmountFits;
  }

  lemma {:induction false} UpToTotals(lines: seq<Line>, i: nat)
    requires AllAllowed(lines) && i < |lines|
    ensures 0 <= lines[i].debitAmount <= DebitTotal(lines) && 0 <= lines[i].CreditOrZero() <= CreditTotal(lines)
  {
    hide LineOk;
    TotalsNonNegative(lines[1..]);
    if i > 0 {
      UpToTotals(lines[1..], i - 1);
    }
  }

  lemma {:induction false} TotalsNonNegative(lines: seq<Line>)
    requires AllAllowed(lines)
    ensures DebitTotal(lines) >= 0 && CreditTotal(lines) >= 0
  {
    hide LineOk;
    if lines != [] {
      TotalsNonNegative(lines[1..]);
    }
  }

  lemma AllowedFit(l: Line)
    ensures RowAllowed(l) ==> PlaceOk(l)
    ensures PlaceOk(l) && !l.section.OtherEntity? && LineFits(l.section, l) ==> RowAllowed(l)
    ensures RowAllowed(l) && AmountsFit(l) ==> LineFits(l.section, l)
  {
    hide Power;
    if PlaceOk(l) && !l.section.OtherEntity? {
      LineFitsIff(l.section, l);
    }
    hide LineFits;
    hide PlaceOk;
    hide PeriodFits;
    hide YearFits;
  }

  lemma SectionAllowedIff(section: Written, lines: seq<Line>)
    ensures SectionAllowed(section, lines) <==> SectionOk(section, lines) && SectionFits(section, lines)
  {
    var own := Of(lines, section);
    hide Of;
    hide Power;
    hide PlaceOk;
    hide RowAllowed;
    hide LineFits;
    hide DebitTotal;
    hide CreditTotal;
    forall i | 0 <= i < |own|
      ensures RowAllowed(own[i]) ==> PlaceOk(own[i])
      ensures PlaceOk(own[i]) && LineFits(section, own[i]) ==> RowAllowed(own[i])
    {
      AllowedFit(own[i]);
    }
    if AllAllowed(own) && DebitTotal(own) < Power(10, 15) && CreditTotal(own) < Power(10, 15) {
      TotalsNonNegative(own);
      AllowedRowsFit(section, own);
    }
  }

  lemma AllowedRowsFit(section: Written, own: seq<Line>)
    requires AllAllowed(own) && DebitTotal(own) < Power(10, 15) && CreditTotal(own) < Power(10, 15)
    requires forall i :: 0 <= i < |own| ==> own[i].section == section
    ensures forall i :: 0 <= i < |own| ==> LineFits(section, own[i])
  {
    hide Power;
    hide LineFits;
    hide RowAllowed;
    hide DebitTotal;
    hide CreditTotal;
    forall i | 0 <= i < |own|
      ensures LineFits(section, own[i])
    {
      UpToTotals(own, i);
      AllowedFit(own[i]);
    }
  }

  /** What the writer accepts, in terms of rows, totals and balance. */
  lemma RowsAcceptedIff(fiscalCode: string, date: Day, lines: seq<Line>)
    ensures FormOk(fiscalCode, date, lines) <==>
      && |fiscalCode| <= 16 && YearFits(YearOf(date)) && AmountFits(FormBalance(lines))
      && CountSection(lines, OtherEntity) == 0
      && SectionAllowed(Treasury, lines) && SectionAllowed(Inps, lines) && SectionAllowed(Regional, lines)
      && SectionAllowed(Local, lines)
  {
    hide YearFits;
    hide YearOf;
    hide SectionOk;
    hide SectionFits;
    hide SectionAllowed;
    hide FormBalance;
    hide FormOk;
    hide Power;
    AcceptedIff(fiscalCode, date, lines);
    SectionAllowedIff(Treasury, lines);
    SectionAllowedIff(Inps, lines);
    SectionAllowedIff(Regional, lines);
    SectionAllowedIff(Local, lines);
    hide CountSection;
  }

  // ---------- Sections ----------

  lemma {:induction false} OfMembers(lines: seq<Line>, section: Section)
    ensures forall l :: l in Of(lines, section) <==> l in lines && l.section == section
  {
    if lines != [] {
      OfMembers(lines[1..], section);
    }
  }

  lemma {:induction false} OfAppend(s: seq<Line>, t: seq<Line>, section: Section)
    ensures Of(s + t, section) == Of(s, section) + Of(t, section)
  {
    if s == [] {
      assert s + t == t;
    } else {
      assert (s + t)[0] == s[0] && (s + t)[1..] == s[1..] + t;
      OfAppend(s[1..], t, section);
      hide CountSection;
      var first := if s[0].section == section then [s[0]] else [];
      var a, b := Of(s[1..], section), Of(t, section);
      assert Of(s + t, section) == first + Of(s[1..] + t, section) && Of(s, section) == first + a;
      hide Of;
      Concatenated(first, a, b);
    }
  }

  /** Without rows of other entities the final balance is that of all rows. */
  lemma {:induction false} BalanceBySection(lines: seq<Line>)
    requires CountSection(lines, OtherEntity) == 0
    ensures FormBalance(lines) == DebitTotal(lines) - CreditTotal(lines)
  {
    if lines != [] {
      BalanceBySection(lines[1..]);
      BalanceOfFirst(lines, Treasury);
      BalanceOfFirst(lines, Inps);
      BalanceOfFirst(lines, Regional);
      BalanceOfFirst(lines, Local);
      hide BalanceOf;
      hide Of;
    }
  }

  lemma BalanceOfFirst(lines: seq<Line>, section: Section)
    requires lines != []
    ensures BalanceOf(Of(lines, section)) == BalanceOf(Of(lines[1..], section))
         + if lines[0].section == section then lines[0].debitAmount - lines[0].CreditOrZero() else 0
  {
    var rest := Of(lines[1..], section);
    assert ([lines[0]] + rest)[1..] == rest && [] + rest == rest;
  }

  /** All rows are allowed exactly when those of every section are, and no other entity has any. */
  lemma AllowedBySection(lines: seq<Line>)
    ensures AllAllowed(lines) <==>
      && CountSection(lines, OtherEntity) == 0
      && AllAllowed(Of(lines, Treasury)) && AllAllowed(Of(lines, Inps)) && AllAllowed(Of(lines, Regional))
      && AllAllowed(Of(lines, Local))
  {
    AllowedOf(lines, Treasury);
    AllowedOf(lines, Inps);
    AllowedOf(lines, Regional);
    AllowedOf(lines, Local);
    OfMembers(lines, OtherEntity);
    assert |Of(lines, OtherEntity)| == CountSection(lines, OtherEntity);
    hide Of;
    hide CountSection;
    if AllAllowed(lines) && Of(lines, OtherEntity) != [] {
      NotOther(Of(lines, OtherEntity)[0]);
    }
    forall i | 0 <= i < |lines|
      ensures lines[i].section.OtherEntity? ==> lines[i] in Of(lines, OtherEntity)
    {
    }
    hide RowAllowed;
  }

  lemma NotOther(l: Line)
    ensures RowAllowed(l) ==> !l.section.OtherEntity?
  {
  }

  lemma AllowedOf(lines: seq<Line>, section: Section)
    ensures AllAllowed(Of(lines, section))
            <==> forall i :: 0 <= i < |lines| && lines[i].section == section ==> RowAllowed(lines[i])
  {
    OfMembers(lines, section);
    var own := Of(lines, section);
    hide Of;
    hide RowAllowed;
    forall i | 0 <= i < |lines| && lines[i].section == section && AllAllowed(own)
      ensures RowAllowed(lines[i])
    {
      assert lines[i] in own;
    }
    forall i | 0 <= i < |own|
      ensures own[i] in lines && own[i].section == section
    {
      assert own[i] in own;
    }
  }
}
