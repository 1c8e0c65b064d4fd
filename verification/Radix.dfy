/** Numbers as text: decimal for the fields of the F24 file and document numbers, base 36 for the names of SDI files. */
module Radix {
  import opened Rounding

  function Symbol(d: int): (c: char)
    requires 0 <= d < 36
    ensures Value(c) == d
    ensures d < 10 ==> '0' <= c <= '9'
  {
    if d < 10 then '0' + d as char else 'A' + (d - 10) as char
  }

  /** The value of a digit or capital letter, -1 for anything else. */
  function Value(c: char): int {
    if '0' <= c <= '9' then (c - '0') as int
    else if 'A' <= c <= 'Z' then (c - 'A') as int + 10
    else -1
  }

  predicate IsDigit(c: char, base: int) { 0 <= Value(c) < base }

  predicate AreDigits(s: string, base: int) { forall i :: 0 <= i < |s| ==> IsDigit(s[i], base) }

  /** `toString(base)` in capitals. */
  function Print(n: int, base: int): (s: string)
    requires n >= 0 && 2 <= base <= 36
    ensures |s| >= 1 && AreDigits(s, base)
    decreases n
  {
    if n < base then [Symbol(n)]
    else
      QuotientSmaller(n, base);
      Print(Quotient(n, base), base) + [Symbol(Remainder(n, base))]
  }

  /** Division kept as a function, so that proofs can leave its arithmetic aside. */
  function Quotient(n: int, base: int): int
    requires base >= 2
  {
    n / base
  }

  function Remainder(n: int, base: int): (r: int)
    requires base >= 2
    ensures 0 <= r < base && n == Quotient(n, base) * base + r
  {
    n % base
  }

  lemma QuotientSmaller(n: int, base: int)
    requires n >= base >= 2
    ensures 0 < Quotient(n, base) < n
  {
    var q, r := Quotient(n, base), Remainder(n, base);
    hide Quotient;
    hide Remainder;
    if q >= n {
      MulAtLeast(q, n, base);
      MulAtLeast(base, 2, n);
    }
    if q <= 0 {
      MulAtLeast(0, q, base);
    }
  }

  lemma MulAtLeast(a: int, b: int, k: int)
    requires k >= 0 && a >= b
    ensures a * k >= b * k
  {
  }

  function Read(s: string, base: int): (n: int)
    requires AreDigits(s, base) && base >= 2
    ensures n >= 0
  {
    if s == [] then 0
    else
      var r := Read(s[..|s| - 1], base);
      MulAtLeast(base, 0, r);
      r * base + Value(s[|s| - 1])
  }

  lemma {:induction false} ReadPrint(n: int, base: int)
    requires n >= 0 && 2 <= base <= 36
    ensures Read(Print(n, base), base) == n
    decreases n
  {
    hide Print;
    hide Read;
    if n < base {
      ReadPrintDigit(n, base);
    } else {
      QuotientSmaller(n, base);
      ReadPrint(Quotient(n, base), base);
      ReadPrintStep(n, base);
    }
  }

  lemma ReadPrintDigit(n: int, base: int)
    requires 0 <= n < base && 2 <= base <= 36
    ensures Read(Print(n, base), base) == n
  {
    PrintStep(n, base);
    ReadLast([], Symbol(n), base);
    hide *;
    assert [] + [Symbol(n)] == [Symbol(n)];
  }

  lemma ReadPrintStep(n: int, base: int)
    requires n >= base && 2 <= base <= 36
    requires Quotient(n, base) >= 0 && Read(Print(Quotient(n, base), base), base) == Quotient(n, base)
    ensures Read(Print(n, base), base) == n
  {
    hide *;
    PrintStep(n, base);
    var r := Remainder(n, base);
    ReadAppended(n, Quotient(n, base), Remainder(n, base), base);
  }

  lemma ReadAppended(n: int, q: int, r: int, base: int)
    requires n >= 0 && q >= 0 && 2 <= base <= 36 && 0 <= r < base && n == q * base + r
    requires Print(n, base) == Print(q, base) + [Symbol(r)] && Read(Print(q, base), base) == q
    ensures Read(Print(n, base), base) == n
  {
    ReadLast(Print(q, base), Symbol(r), base);
  }

  lemma PrintStep(n: int, base: int)
    requires n >= 0 && 2 <= base <= 36
    ensures n < base ==> Print(n, base) == [Symbol(n)]
    ensures n >= base ==>
              Quotient(n, base) >= 0
              && Print(n, base) == Print(Quotient(n, base), base) + [Symbol(Remainder(n, base))]
    ensures Read([], base) == 0
  {
    hide Symbol;
    if n >= base { QuotientSmaller(n, base); }
  }

  lemma ReadLast(front: string, c: char, base: int)
    requires AreDigits(front, base) && IsDigit(c, base) && base >= 2
    ensures AreDigits(front + [c], base)
    ensures Read(front + [c], base) == Read(front, base) * base + Value(c)
  {
    hide Value;
    var s := front + [c];
    assert s[..|s| - 1] == front;
  }

  function Repeat(c: char, k: int): (s: string)
    ensures |s| == Max(0, k)
    ensures forall i :: 0 <= i < |s| ==> s[i] == c
  {
    seq(Max(0, k), _ => c)
  }

  function PadStart(s: string, length: int, c: char): (r: string)
    ensures |r| == Max(|s|, length)
  {
    Repeat(c, length - |s|) + s
  }

  function PadEnd(s: string, length: int, c: char): (r: string)
    ensures |r| == Max(|s|, length)
  {
    s + Repeat(c, length - |s|)
  }

  lemma {:induction false} ReadZeros(s: string, k: nat, base: int)
    requires AreDigits(s, base) && base >= 2
    ensures AreDigits(Repeat('0', k) + s, base)
    ensures Read(Repeat('0', k) + s, base) == Read(s, base)
    decreases |s|, k
  {
    var t := Repeat('0', k) + s;
    forall i | 0 <= i < |t|
      ensures IsDigit(t[i], base)
    {
      assert i >= k ==> t[i] == s[i - k];
    }
    if s != [] {
      ReadZeros(s[..|s| - 1], k, base);
      assert t[..|t| - 1] == Repeat('0', k) + s[..|s| - 1];
    } else if k > 0 {
      ReadZeros(s, k - 1, base);
      assert t[..|t| - 1] == Repeat('0', k - 1) + s;
    }
  }

  /** Padding a printed number with zeros does not change what is read. */
  lemma ReadPadded(n: int, length: int, base: int)
    requires n >= 0 && 2 <= base <= 36
    ensures AreDigits(PadStart(Print(n, base), length, '0'), base)
    ensures Read(PadStart(Print(n, base), length, '0'), base) == n
  {
    ReadPrint(n, base);
    ReadZeros(Print(n, base), Max(0, length - |Print(n, base)|), base);
    assert Repeat('0', length - |Print(n, base)|) == Repeat('0', Max(0, length - |Print(n, base)|));
  }

  function Power(base: int, k: nat): (p: int)
    requires base >= 2
    ensures p >= 1
  {
    if k == 0 then 1
    else
      MulAtLeast(base, 2, Power(base, k - 1));
      base * Power(base, k - 1)
  }

  /** A number needs at most k digits exactly when it is below the k-th power of the base. */
  lemma {:induction false} PrintLength(n: int, base: int, k: nat)
    requires n >= 0 && 2 <= base <= 36 && k >= 1
    ensures |Print(n, base)| <= k <==> n < Power(base, k)
    decreases k
  {
    hide Symbol;
    if n < base {
      PowerAtLeastBase(base, k);
    } else if k == 1 {
      assert Power(base, 1) == base * Power(base, 0) == base;
    } else {
      QuotientSmaller(n, base);
      PrintLength(Quotient(n, base), base, k - 1);
      QuotientBelow(n, base, Power(base, k - 1));
    }
  }

  /** What k digits can say is below the k-th power of the base. */
  lemma {:induction false} ReadBound(s: string, base: int)
    requires AreDigits(s, base) && base >= 2
    ensures Read(s, base) < Power(base, |s|)
  {
    hide Value;
    if s != [] {
      var front := s[..|s| - 1];
      assert IsDigit(s[|s| - 1], base);
      ReadBound(front, base);
      var power, value := Power(base, |front|), Read(front, base);
      assert Power(base, |s|) == base * power && Read(s, base) == value * base + Value(s[|s| - 1]);
      hide Read;
      hide Power;
      hide AreDigits;
      MulAtLeast(power, value + 1, base);
    }
  }

  lemma {:induction false} PowerGrows(base: int, j: nat, k: nat)
    requires base >= 2 && j <= k
    ensures Power(base, j) <= Power(base, k)
  {
    if j < k {
      PowerGrows(base, j, k - 1);
      MulAtLeast(base, 1, Power(base, k - 1));
    }
  }

  lemma PowerAtLeastBase(base: int, k: nat)
    requires base >= 2 && k >= 1
    ensures Power(base, k) >= base
  {
    MulAtLeast(Power(base, k - 1), 1, base);
  }

  lemma QuotientBelow(n: int, base: int, p: int)
    requires base >= 2
    ensures Quotient(n, base) < p <==> n < base * p
  {
    QuotientBounds(n, base);
    var q := n / base;
    if q < p {
      MulGap(base, q, p);
    } else {
      MulAtLeast(q, p, base);
    }
  }

  /** Decimal text of an integer, with a minus sign when negative. */
  function Text(n: int): (s: string)
    ensures |s| >= 1
    ensures n >= 0 ==> AreDigits(s, 10)
    ensures n < 0 ==> s[0] == '-'
  {
    if n < 0 then "-" + Print(-n, 10) else Print(n, 10)
  }
}
