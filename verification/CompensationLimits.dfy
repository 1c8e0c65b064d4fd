/** The yearly limit on credits used against debts of other taxes. */
module CompensationLimits {
  import opened F24
  import opened Rounding

  datatype CreditUse = CreditUse(creditId: string, section: Section, code: string, referenceYear: int, amount: int)

  datatype CodeAmount = CodeAmount(code: string, amount: int)

  const COMPENSATION_LIMIT := 500000

  /** Debt codes against which a credit code counts as vertical. */
  function VerticalCodes(credit: string): set<string> {
    if credit == "1792" then {"1790", "1791", "1792"}
    else if credit == "4001" then {"4001", "4033", "4034"}
    else if credit == "3844" then {"3843", "3844"}
    else {}
  }

  function RowDebts(debts: seq<CodeAmount>, codes: set<string>): int {
    if debts == [] then 0 else (if debts[0].code in codes then debts[0].amount else 0) + RowDebts(debts[1..], codes)
  }

  predicate NonNegativeDebts(debts: seq<CodeAmount>) { forall i :: 0 <= i < |debts| ==> debts[i].amount >= 0 }

  predicate NonNegativeUses(uses: seq<CreditUse>) { forall i :: 0 <= i < |uses| ==> uses[i].amount >= 0 }

  lemma {:induction false} RowDebtsNonNegative(debts: seq<CodeAmount>, codes: set<string>)
    requires NonNegativeDebts(debts)
    ensures RowDebts(debts, codes) >= 0
  {
    if debts != [] { RowDebtsNonNegative(debts[1..], codes); }
  }

  /** Amount of a credit code among the first k uses, INPS credits left out. */
  function UsesBefore(uses: seq<CreditUse>, code: string, k: int): int
    requires 0 <= k <= |uses|
  {
    if k == 0 then 0
    else UsesBefore(uses, code, k - 1)
         + if !uses[k - 1].section.Inps? && uses[k - 1].code == code then uses[k - 1].amount else 0
  }

  /** What is left of a row of debts before use k. */
  function LeftBefore(uses: seq<CreditUse>, debts: seq<CodeAmount>, code: string, k: int): int
    requires 0 <= k <= |uses|
  {
    if k == 0 then RowDebts(debts, VerticalCodes(code))
    else
      var left := LeftBefore(uses, debts, code, k - 1);
      if !uses[k - 1].section.Inps? && uses[k - 1].code == code then left - Min(left, uses[k - 1].amount) else left
  }

  /** The vertical part of a use: up to what is left of its row of debts. */
  function VerticalPart(uses: seq<CreditUse>, debts: seq<CodeAmount>, k: int): int
    requires 0 <= k < |uses|
  {
    var u := uses[k];
    if u.section.Inps? then 0 else Min(LeftBefore(uses, debts, u.code, k), u.amount)
  }

  function Horizontal(uses: seq<CreditUse>, debts: seq<CodeAmount>, k: int): seq<CreditUse>
    requires 0 <= k <= |uses|
  {
    if k == 0 then []
    else
      var u, rest := uses[k - 1], uses[k - 1].amount - VerticalPart(uses, debts, k - 1);
      Horizontal(uses, debts, k - 1) + if !u.section.Inps? && rest > 0 then [u.(amount := rest)] else []
  }

  /** The amount left of each row of debts; a code without a row has nothing. */
  function Left(left: map<string, int>, code: string): int {
    if code in left then left[code] else 0
  }

  ghost predicate LeftAfter(left: map<string, int>, uses: seq<CreditUse>, debts: seq<CodeAmount>, k: int)
    requires 0 <= k <= |uses|
  {
    forall code: string :: Left(left, code) == LeftBefore(uses, debts, code, k)
  }

  lemma {:induction false} NoRowDebts(debts: seq<CodeAmount>)
    ensures RowDebts(debts, {}) == 0
  {
    if debts != [] { NoRowDebts(debts[1..]); }
  }

  method HorizontalUses(uses: seq<CreditUse>, debts: seq<CodeAmount>) returns (r: seq<CreditUse>)
    ensures r == Horizontal(uses, debts, |uses|)
  {
    var left: map<string, int> := map[];
    var credits := ["1792", "4001", "3844"];
    for i := 0 to |credits|
      invariant left.Keys == set j | 0 <= j < i :: credits[j]
      invariant forall j :: 0 <= j < i ==> left[credits[j]] == RowDebts(debts, VerticalCodes(credits[j]))
    {
      hide VerticalCodes;
      left := left[credits[i] := RowDebts(debts, VerticalCodes(credits[i]))];
    }
    InitialLeft(left, credits, uses, debts);
    hide LeftAfter;
    hide RowDebts;
    hide VerticalCodes;
    r := [];
    for k := 0 to |uses|
      invariant LeftAfter(left, uses, debts, k)
      invariant r == Horizontal(uses, debts, k)
    {
      var u := uses[k];
      TakeVertical(left, uses, debts, k);
      if !u.section.Inps? {
        var vertical := Min(Left(left, u.code), u.amount);
        left := left[u.code := Left(left, u.code) - vertical];
        if u.amount - vertical > 0 {
          r := r + [u.(amount := u.amount - vertical)];
        }
      }
    }
  }

  lemma InitialLeft(left: map<string, int>, credits: seq<string>, uses: seq<CreditUse>, debts: seq<CodeAmount>)
    requires credits == ["1792", "4001", "3844"]
    requires left.Keys == set j | 0 <= j < |credits| :: credits[j]
    requires forall j :: 0 <= j < |credits| ==> left[credits[j]] == RowDebts(debts, VerticalCodes(credits[j]))
    ensures LeftAfter(left, uses, debts, 0)
  {
    forall code: string
      ensures Left(left, code) == RowDebts(debts, VerticalCodes(code))
    {
      if code in left {
        var j :| 0 <= j < |credits| && credits[j] == code;
        hide VerticalCodes;
      } else {
        assert credits[0] in left && credits[1] in left && credits[2] in left;
        assert VerticalCodes(code) == {};
        NoRowDebts(debts);
      }
    }
  }

  lemma TakeVertical(left: map<string, int>, uses: seq<CreditUse>, debts: seq<CodeAmount>, k: int)
    requires 0 <= k < |uses| && LeftAfter(left, uses, debts, k)
    ensures var u := uses[k];
            var vertical := Min(Left(left, u.code), u.amount);
            && (u.section.Inps? ==> LeftAfter(left, uses, debts, k + 1))
            && (!u.section.Inps? ==>
                  vertical == VerticalPart(uses, debts, k)
                    && LeftAfter(left[u.code := Left(left, u.code) - vertical], uses, debts, k + 1))
  {
    hide RowDebts;
    hide VerticalCodes;
    var u := uses[k];
    if !u.section.Inps? {
      var vertical := Min(Left(left, u.code), u.amount);
      var after := left[u.code := Left(left, u.code) - vertical];
      forall code: string
        ensures Left(after, code) == LeftBefore(uses, debts, code, k + 1)
      {
        assert code != u.code ==> Left(after, code) == Left(left, code);
      }
    } else {
      forall code: string
        ensures Left(left, code) == LeftBefore(uses, debts, code, k + 1)
      {
      }
    }
  }

  function VerticalOfCode(uses: seq<CreditUse>, debts: seq<CodeAmount>, code: string, k: int): int
    requires 0 <= k <= |uses|
  {
    if k == 0 then 0
    else VerticalOfCode(uses, debts, code, k - 1)
         + if !uses[k - 1].section.Inps? && uses[k - 1].code == code then VerticalPart(uses, debts, k - 1) else 0
  }

  function HorizontalOfCode(r: seq<CreditUse>, code: string): int {
    if r == [] then 0
    else HorizontalOfCode(r[..|r| - 1], code)
         + if r[|r| - 1].code == code then r[|r| - 1].amount else 0
  }

  /** Whatever the amounts, for each credit code nothing is lost between the two parts, and the vertical total is what
      has been taken from the row of debts. */
  lemma {:induction false} UsesAreSplit(uses: seq<CreditUse>, debts: seq<CodeAmount>, code: string, k: int)
    requires 0 <= k <= |uses|
    ensures VerticalOfCode(uses, debts, code, k) + HorizontalOfCode(Horizontal(uses, debts, k), code)
            == UsesBefore(uses, code, k)
    ensures VerticalOfCode(uses, debts, code, k)
            == RowDebts(debts, VerticalCodes(code)) - LeftBefore(uses, debts, code, k)
  {
    hide RowDebts;
    hide VerticalCodes;
    if k > 0 {
      UsesAreSplit(uses, debts, code, k - 1);
      HorizontalStep(uses, debts, code, k);
      hide Horizontal;
      hide HorizontalOfCode;
    }
  }

  /** With amounts that are not negative the vertical total is the smaller of what is used of the code and the debts of
      its row: the order of the uses does not matter. */
  lemma {:induction false} VerticalTotal(uses: seq<CreditUse>, debts: seq<CodeAmount>, code: string, k: int)
    requires 0 <= k <= |uses| && NonNegativeUses(uses) && NonNegativeDebts(debts)
    ensures VerticalOfCode(uses, debts, code, k) == Min(UsesBefore(uses, code, k), RowDebts(debts, VerticalCodes(code)))
    ensures UsesBefore(uses, code, k) >= 0
  {
    RowDebtsNonNegative(debts, VerticalCodes(code));
    hide RowDebts;
    hide VerticalCodes;
    UsesAreSplit(uses, debts, code, k);
    if k > 0 {
      VerticalTotal(uses, debts, code, k - 1);
      UsesAreSplit(uses, debts, code, k - 1);
    }
    hide Horizontal;
    hide HorizontalOfCode;
  }

  lemma HorizontalStep(uses: seq<CreditUse>, debts: seq<CodeAmount>, code: string, k: int)
    requires 0 < k <= |uses|
    ensures HorizontalOfCode(Horizontal(uses, debts, k), code)
         == HorizontalOfCode(Horizontal(uses, debts, k - 1), code)
            + if !uses[k - 1].section.Inps? && uses[k - 1].code == code
              then uses[k - 1].amount - VerticalPart(uses, debts, k - 1) else 0
  {
    var u, part := uses[k - 1], VerticalPart(uses, debts, k - 1);
    assert !u.section.Inps? ==> part <= u.amount;
    hide VerticalPart;
    var before, after := Horizontal(uses, debts, k - 1), Horizontal(uses, debts, k);
    if !u.section.Inps? && u.amount - part > 0 {
      assert after == before + [u.(amount := u.amount - part)];
      assert after[..|after| - 1] == before;
    } else {
      assert after == before;
    }
  }

  /** No debt is in the rows of two codes, so the vertical parts of all codes together never exceed the debts. */
  lemma {:induction false} RowsAreDisjoint(debts: seq<CodeAmount>, a: string, b: string)
    requires NonNegativeDebts(debts) && a != b
    ensures VerticalCodes(a) !! VerticalCodes(b)
    ensures RowDebts(debts, VerticalCodes(a)) + RowDebts(debts, VerticalCodes(b))
         == RowDebts(debts, VerticalCodes(a) + VerticalCodes(b))
  {
    assert VerticalCodes(a) !! VerticalCodes(b);
    if debts != [] {
      RowsAreDisjoint(debts[1..], a, b);
      hide VerticalCodes;
    }
  }

  // ---------- Credits above the limit ----------

  function TotalOf(uses: seq<CreditUse>, code: string, year: int): int {
    if uses == [] then 0
    else TotalOf(uses[..|uses| - 1], code, year)
         + if uses[|uses| - 1].code == code && uses[|uses| - 1].referenceYear == year
           then uses[|uses| - 1].amount else 0
  }

  predicate HasKey(uses: seq<CreditUse>, code: string, year: int) {
    exists i :: 0 <= i < |uses| && uses[i].code == code && uses[i].referenceYear == year
  }

  /** The key of a credit: its code and reference year. */
  function KeyOf(u: CreditUse): (string, int) { (u.code, u.referenceYear) }

  ghost predicate TotalsOf(totals: map<(string, int), int>, uses: seq<CreditUse>) {
    forall code: string, year: int ::
      && ((code, year) in totals <==> HasKey(uses, code, year))
      && ((code, year) in totals ==> totals[(code, year)] == TotalOf(uses, code, year))
  }

  lemma TotalsStep(totals: map<(string, int), int>, uses: seq<CreditUse>, u: CreditUse)
    requires TotalsOf(totals, uses)
    ensures var before := if KeyOf(u) in totals then totals[KeyOf(u)] else 0;
            TotalsOf(totals[KeyOf(u) := before + u.amount], uses + [u])
  {
    var all := uses + [u];
    var before := if KeyOf(u) in totals then totals[KeyOf(u)] else 0;
    var after := totals[KeyOf(u) := before + u.amount];
    assert all[..|all| - 1] == uses;
    hide HasKey;
    forall code: string, year: int
      ensures (code, year) in after <==> HasKey(all, code, year)
      ensures (code, year) in after ==> after[(code, year)] == TotalOf(all, code, year)
    {
      HasKeyAppend(uses, u, code, year);
      NewKeyHasNoTotal(uses, code, year);
    }
    hide TotalOf;
  }

  lemma HasKeyAppend(uses: seq<CreditUse>, u: CreditUse, code: string, year: int)
    ensures HasKey(uses + [u], code, year) <==> HasKey(uses, code, year) || (u.code == code && u.referenceYear == year)
  {
    var all := uses + [u];
    assert all[|uses|] == u;
    if HasKey(uses, code, year) {
      var i :| 0 <= i < |uses| && uses[i].code == code && uses[i].referenceYear == year;
      assert all[i] == uses[i];
    }
  }

  lemma {:induction false} NewKeyHasNoTotal(uses: seq<CreditUse>, code: string, year: int)
    ensures !HasKey(uses, code, year) ==> TotalOf(uses, code, year) == 0
  {
    if uses != [] {
      var front := uses[..|uses| - 1];
      NewKeyHasNoTotal(front, code, year);
      assert uses == front + [uses[|uses| - 1]];
      HasKeyAppend(front, uses[|uses| - 1], code, year);
    }
  }

  /** The keys of the current form whose total over the earlier and current uses exceeds the limit: exactly those, with
      their totals. */
  method CreditsAboveLimit(current: seq<CreditUse>, earlier: seq<CreditUse>) returns (above: map<(string, int), int>)
    ensures forall code: string, year: int :: (code, year) in above <==>
              HasKey(current, code, year) && TotalOf(earlier + current, code, year) > COMPENSATION_LIMIT
    ensures forall code: string, year: int :: (code, year) in above ==>
            above[(code, year)] == TotalOf(earlier + current, code, year)
  {
    var all, totals: map<(string, int), int> := earlier + current, map[];
    for k := 0 to |all|
      invariant TotalsOf(totals, all[..k])
    {
      var u := all[k];
      assert all[..k + 1] == all[..k] + [u];
      TotalsStep(totals, all[..k], u);
      hide TotalsOf;
      var before := if KeyOf(u) in totals then totals[KeyOf(u)] else 0;
      totals := totals[KeyOf(u) := before + u.amount];
    }
    assert all[..|all|] == all;
    forall code: string, year: int | HasKey(current, code, year)
      ensures HasKey(all, code, year)
    {
      var i :| 0 <= i < |current| && current[i].code == code && current[i].referenceYear == year;
      assert all[|earlier| + i] == current[i];
    }
    hide HasKey;
    hide TotalOf;
    above := map key | key in totals && HasKey(current, key.0, key.1) && totals[key] > COMPENSATION_LIMIT ::
      totals[key];
  }
}
