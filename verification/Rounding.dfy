/** Exact half-up rounding. Money is counted in cents and percentages in hundredths of a point, so every
    `round2` of the program becomes the rounding of a quotient of integers. */
module Rounding {

  /** The integer nearest to a/n, halves upwards: what `Math.round` gives for any sign. */
  function RoundDiv(a: int, n: int): (r: int)
    requires n > 0
    ensures -n < 2 * (n * r - a) <= n
  {
    var r := (2 * a + n) / (2 * n);
    assert 2 * n * r <= 2 * a + n < 2 * n * r + 2 * n by { QuotientBounds(2 * a + n, 2 * n); }
    r
  }

  lemma QuotientBounds(x: int, d: int)
    requires d > 0
    ensures d * (x / d) <= x < d * (x / d) + d
  {
    assert x == d * (x / d) + x % d;
  }

  /** An integer within half of the quotient is the rounding, unless it is the lower end of a tie. */
  lemma RoundDivUnique(a: int, n: int, r: int)
    requires n > 0
    requires -n < 2 * (n * r - a) <= n
    ensures r == RoundDiv(a, n)
  {
    var s := RoundDiv(a, n);
    if r < s {
      MulGap(n, r, s);
    } else if s < r {
      MulGap(n, s, r);
    }
  }

  lemma MulGap(n: int, x: int, y: int)
    requires n > 0 && x < y
    ensures n * x + n <= n * y
  {
    assert n * (y - x) >= n by { MulPositive(n, y - x); }
    assert n * (y - x) == n * y - n * x;
  }

  lemma MulPositive(n: int, k: int)
    requires n > 0 && k >= 1
    ensures n * k >= n
  {
  }

  lemma RoundDivMonotone(a: int, b: int, n: int)
    requires n > 0 && a <= b
    ensures RoundDiv(a, n) <= RoundDiv(b, n)
  {
    var r, s := RoundDiv(a, n), RoundDiv(b, n);
    if s < r {
      MulGap(n, s, r);
    }
  }

  lemma RoundDivExact(q: int, n: int)
    requires n > 0
    ensures RoundDiv(n * q, n) == q
  {
    RoundDivUnique(n * q, n, q);
  }

  lemma QuotientUnique(x: int, d: int, q: int, r: int)
    requires d > 0 && x == d * q + r && 0 <= r < d
    ensures x / d == q && x % d == r
  {
    var p := x / d;
    QuotientBounds(x, d);
    if q < p {
      MulGap(d, q, p);
    } else if p < q {
      MulGap(d, p, q);
    }
  }

  function Min(a: int, b: int): int { if a <= b then a else b }

  function Max(a: int, b: int): int { if a >= b then a else b }

  function Abs(a: int): int { if a >= 0 then a else -a }

  function Sum(s: seq<int>): int { if s == [] then 0 else s[0] + Sum(s[1..]) }

  lemma {:induction false} SumAppend(s: seq<int>, t: seq<int>)
    ensures Sum(s + t) == Sum(s) + Sum(t)
  {
    if s == [] {
      assert s + t == t;
    } else {
      assert (s + t)[0] == s[0] && (s + t)[1..] == s[1..] + t;
      SumAppend(s[1..], t);
    }
  }
}
