/** The F24 form: sections, rows and totals, in cents. */
module F24 {
  import opened Dates
  import opened Rounding
  import opened Wrappers
  import Radix

  datatype Section = Treasury | Inps | Regional | Local | OtherEntity

  datatype Role = Balance | FirstAdvance | SecondAdvance | InterestRow | Credit | OtherRow

  datatype Line = Line(
    section: Section, role: Role, code: string,
    officeCode: Option<string>, positionCode: Option<string>, installmentCode: Option<string>,
    localCode: Option<string>,
    periodFrom: Option<string>, periodTo: Option<string>, referenceYear: int,
    debitAmount: int, surchargeAmount: Option<int>, creditAmount: Option<int>)
  {
    function CreditOrZero(): int { creditAmount.GetOr(0) }
  }

  datatype Kind = BalanceForm | InstallmentForm | SecondAdvanceForm | CompensationForm

  datatype Draft = Draft(kind: Kind, paymentDate: Day, installment: Option<(int, int)>, lines: seq<Line>,
                         totalDebit: int, totalCredit: int)

  datatype DebtKey = TaxBalance | TaxFirstAdvance | TaxSecondAdvance | InpsBalance | InpsFirstAdvance
    | InpsSecondAdvance

  /** The amounts due, one for each key. */
  datatype Amounts = Amounts(
    taxBalance: int, taxFirstAdvance: int, taxSecondAdvance: int,
    inpsBalance: int, inpsFirstAdvance: int, inpsSecondAdvance: int)
  {
    function Get(key: DebtKey): int {
      match key
      case TaxBalance => taxBalance
      case TaxFirstAdvance => taxFirstAdvance
      case TaxSecondAdvance => taxSecondAdvance
      case InpsBalance => inpsBalance
      case InpsFirstAdvance => inpsFirstAdvance
      case InpsSecondAdvance => inpsSecondAdvance
    }

    function With(key: DebtKey, amount: int): (r: Amounts)
      ensures r.Get(key) == amount
      ensures forall other :: other != key ==> r.Get(other) == Get(other)
    {
      match key
      case TaxBalance => this.(taxBalance := amount)
      case TaxFirstAdvance => this.(taxFirstAdvance := amount)
      case TaxSecondAdvance => this.(taxSecondAdvance := amount)
      case InpsBalance => this.(inpsBalance := amount)
      case InpsFirstAdvance => this.(inpsFirstAdvance := amount)
      case InpsSecondAdvance => this.(inpsSecondAdvance := amount)
    }
  }

  /** A balance or advance with its code; its amount is the one of its key. */
  datatype Debt = Debt(key: DebtKey, role: Role, code: string, referenceYear: int, positionCode: Option<string>)

  datatype SectionRows = SectionRows(
    section: Section, debts: seq<Debt>, secondAdvance: Option<Debt>, interestCode: string,
    officeCode: Option<string>, surchargeWithInterest: bool)

  /** A debt together with the section it belongs to. */
  datatype Item = Item(rows: SectionRows, debt: Debt)

  const SINGLE_PAYMENT_INSTALLMENT_CODE := "0101"

  function Pad2(n: int): string { Radix.PadStart(Radix.Text(n), 2, '0') }

  function InstallmentCode(number: int, total: int): string { Pad2(number) + Pad2(total) }

  // ---------- The rows each scheme puts on the forms ----------

  datatype TaxCodes = TaxCodes(balance: string, firstAdvance: string, secondAdvance: string, interest: string)

  function TreasuryRows(codes: TaxCodes, taxYear: int): SectionRows {
    SectionRows(
      Treasury,
      [Debt(TaxBalance, Balance, codes.balance, taxYear, None),
       Debt(TaxFirstAdvance, FirstAdvance, codes.firstAdvance, taxYear + 1, None)],
      Some(Debt(TaxSecondAdvance, SecondAdvance, codes.secondAdvance, taxYear + 1, None)),
      codes.interest, None, false)
  }

  /** An INPS scheme: reasons of a single payment, of installments and of their interest; the position codes by year are
      empty for the Gestione Separata. */
  datatype InpsScheme = InpsScheme(single: string, installments: string, interest: string, officeCode: string,
                                   positionCodes: map<int, string>)

  function PositionCode(scheme: InpsScheme, year: int): Option<string> {
    if year in scheme.positionCodes then Some(scheme.positionCodes[year]) else None
  }

  function InpsRows(scheme: InpsScheme, taxYear: int, single: bool): SectionRows {
    var reason := if single then scheme.single else scheme.installments;
    SectionRows(
      Inps,
      [Debt(InpsBalance, Balance, reason, taxYear, PositionCode(scheme, taxYear)),
       Debt(InpsFirstAdvance, FirstAdvance, reason, taxYear + 1, PositionCode(scheme, taxYear + 1))],
      Some(Debt(InpsSecondAdvance, SecondAdvance, scheme.single, taxYear + 1, PositionCode(scheme, taxYear + 1))),
      scheme.interest, Some(scheme.officeCode), true)
  }

  /** No rows when the scheme's contributions are not computed. */
  function ContributionRows(scheme: Option<InpsScheme>, taxYear: int, single: bool): seq<SectionRows> {
    match scheme
    case None => []
    case Some(s) => [InpsRows(s, taxYear, single)]
  }

  function Items(sections: seq<SectionRows>): seq<Item> {
    if sections == [] then []
    else
      var rows := sections[0];
      seq(|rows.debts|, i requires 0 <= i < |rows.debts| => Item(rows, rows.debts[i])) + Items(sections[1..])
  }

  // ---------- Lines and forms ----------

  function MakeLine(
    section: Section, role: Role, code: string, referenceYear: int, amount: int, installmentCode: Option<string>,
    officeCode: Option<string>, positionCode: Option<string>, surchargeAmount: Option<int>
  ): Line {
    Line(section, role, code, officeCode, positionCode, installmentCode, None,
         if section.Inps? then Some("01/" + Radix.Text(referenceYear)) else None,
         if section.Inps? then Some("12/" + Radix.Text(referenceYear)) else None,
         referenceYear, amount, surchargeAmount, None)
  }

  function DebitTotal(lines: seq<Line>): int {
    if lines == [] then 0 else lines[0].debitAmount + DebitTotal(lines[1..])
  }

  function CreditTotal(lines: seq<Line>): int {
    if lines == [] then 0 else lines[0].CreditOrZero() + CreditTotal(lines[1..])
  }

  function MakeForm(kind: Kind, paymentDate: Day, lines: seq<Line>, installment: Option<(int, int)>): Draft {
    Draft(kind, paymentDate, installment, lines, DebitTotal(lines), CreditTotal(lines))
  }

  lemma Concatenated(a: seq<Line>, b: seq<Line>, c: seq<Line>)
    ensures a + b + c == a + (b + c)
  {
  }

  lemma {:induction false} TotalsAppend(s: seq<Line>, t: seq<Line>)
    ensures DebitTotal(s + t) == DebitTotal(s) + DebitTotal(t)
    ensures CreditTotal(s + t) == CreditTotal(s) + CreditTotal(t)
  {
    if s == [] {
      assert s + t == t;
    } else {
      assert (s + t)[0] == s[0] && (s + t)[1..] == s[1..] + t;
      TotalsAppend(s[1..], t);
    }
  }

  function CountSection(lines: seq<Line>, section: Section): (n: int)
    ensures 0 <= n <= |lines|
  {
    if lines == [] then 0 else (if lines[0].section == section then 1 else 0) + CountSection(lines[1..], section)
  }

  lemma {:induction false} CountSectionAppend(s: seq<Line>, t: seq<Line>, section: Section)
    ensures CountSection(s + t, section) == CountSection(s, section) + CountSection(t, section)
  {
    if s == [] {
      assert s + t == t;
    } else {
      assert (s + t)[0] == s[0] && (s + t)[1..] == s[1..] + t;
      CountSectionAppend(s[1..], t, section);
    }
  }
}
