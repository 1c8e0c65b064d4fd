/** The amount of record M, in the Italian notation, and its reading. */
module TelematicAmount {
  import opened F24
  import opened Radix
  import opened TelematicRecord

  /** A dot between every three digits from the right. */
  function Group(s: string): string {
    if |s| <= 3 then s else Group(s[..|s| - 3]) + "." + s[|s| - 3..]
  }

  function WithoutDots(s: string): string {
    if s == [] then [] else (if s[0] == '.' then [] else [s[0]]) + WithoutDots(s[1..])
  }

  /** 1.234,56; without the dots over 15 characters. */
  function AmountText(cents: nat): string {
    var text := Group(Print(Quotient(cents, 100), 10)) + "," + Pad2(Remainder(cents, 100));
    if |text| > 15 then WithoutDots(text) else text
  }

  function Digits(s: string): (r: string)
    ensures AreDigits(r, 10)
  {
    if s == [] then [] else (if IsDigit(s[0], 10) then [s[0]] else []) + Digits(s[1..])
  }

  /** The cents of an amount: its digits, whatever stands between them. */
  function ReadAmount(s: string): int { Read(Digits(s), 10) }

  lemma {:induction false} DigitsOfBoth(a: string, b: string)
    ensures Digits(a + b) == Digits(a) + Digits(b)
  {
    hide IsDigit;
    hide AreDigits;
    if a == [] {
      assert a + b == b;
    } else {
      assert (a + b)[0] == a[0] && (a + b)[1..] == a[1..] + b;
      DigitsOfBoth(a[1..], b);
    }
  }

  lemma {:induction false} DigitsOfDigits(s: string)
    requires AreDigits(s, 10)
    ensures Digits(s) == s
  {
    if s != [] {
      assert AreDigits(s[1..], 10);
      DigitsOfDigits(s[1..]);
    }
  }

  lemma {:induction false} DigitsOfGroup(s: string)
    requires AreDigits(s, 10)
    ensures Digits(Group(s)) == s
  {
    hide IsDigit;
    if |s| <= 3 {
      DigitsOfDigits(s);
    } else {
      var front, end := s[..|s| - 3], s[|s| - 3..];
      DigitsOfGroup(front);
      DigitsOfDigits(end);
      Separated(Group(front), '.', end);
      assert s == front + end;
      hide Digits;
    }
  }

  /** A separator between two texts has no digit. */
  lemma Separated(a: string, c: char, b: string)
    requires c == '.' || c == ','
    ensures Digits(a + [c] + b) == Digits(a) + Digits(b)
  {
    NoDigit(c);
    hide Digits;
    DigitsOfBoth(a + [c], b);
    DigitsOfBoth(a, [c]);
  }

  lemma NoDigit(c: char)
    requires c == '.' || c == ','
    ensures Digits([c]) == []
  {
  }

  lemma {:induction false} DigitsWithoutDots(s: string)
    ensures Digits(WithoutDots(s)) == Digits(s)
  {
    if s != [] {
      DigitsWithoutDots(s[1..]);
      DigitsOfBoth(if s[0] == '.' then [] else [s[0]], WithoutDots(s[1..]));
    }
  }

  lemma {:induction false} DigitsOfAscii(s: string)
    ensures Digits(Ascii(s)) == Digits(s)
  {
    if s != [] {
      DigitsOfAscii(s[1..]);
      assert Ascii(s)[1..] == Ascii(s[1..]);
    }
  }

  lemma {:induction false} DigitsOfSpaces(k: nat)
    ensures Digits(Repeat(' ', k)) == []
  {
    if k > 0 {
      DigitsOfSpaces(k - 1);
      assert Repeat(' ', k)[1..] == Repeat(' ', k - 1);
    }
  }

  lemma ReadTwoDigits(s: string, a: int, b: int)
    requires AreDigits(s, 10) && 0 <= a < 10 && 0 <= b < 10
    ensures AreDigits(s + [Symbol(a), Symbol(b)], 10)
            && Read(s + [Symbol(a), Symbol(b)], 10) == Read(s, 10) * 100 + 10 * a + b
  {
    hide Read;
    hide Symbol;
    ReadLast(s, Symbol(a), 10);
    ReadLast(s + [Symbol(a)], Symbol(b), 10);
    hide AreDigits;
    hide Value;
    assert s + [Symbol(a), Symbol(b)] == s + [Symbol(a)] + [Symbol(b)];
  }

  lemma EmptyIsDigits()
    ensures AreDigits("", 10)
  {
  }

  /** Two digits after a number. */
  lemma ReadTwoMore(s: string, m: int)
    requires AreDigits(s, 10) && 0 <= m < 100
    ensures AreDigits(Pad2(m), 10) && AreDigits(s + Pad2(m), 10) && Read(s + Pad2(m), 10) == Read(s, 10) * 100 + m
  {
    TwoDigits(m);
    hide *;
    ReadTwoDigits(s, Quotient(m, 10), Remainder(m, 10));
    EmptyIsDigits();
    ReadTwoDigits("", Quotient(m, 10), Remainder(m, 10));
    assert "" + Pad2(m) == Pad2(m);
  }

  lemma TwoDigits(m: int)
    requires 0 <= m < 100
    ensures 0 <= Quotient(m, 10) < 10 && m == 10 * Quotient(m, 10) + Remainder(m, 10)
    ensures Pad2(m) == [Symbol(Quotient(m, 10)), Symbol(Remainder(m, 10))]
  {
    PrintStep(m, 10);
    if m >= 10 {
      PrintStep(Quotient(m, 10), 10);
    }
    hide Print;
  }

  lemma TwoDigitsBack(m: int)
    requires 0 <= m < 100
    ensures |Pad2(m)| == 2 && AreDigits(Pad2(m), 10) && Read(Pad2(m), 10) == m
  {
    EmptyIsDigits();
    TwoDigits(m);
    hide Pad2;
    ReadTwoMore("", m);
    assert "" + Pad2(m) == Pad2(m);
    assert Read("", 10) == 0;
    hide Read;
  }

  /** The amount is read back to the cent, whichever way it was written. */
  lemma AmountIsReadBack(cents: nat)
    ensures ReadAmount(AmountText(cents)) == cents
  {
    DigitsOfAmount(cents);
    hide AmountText;
    var q, r := Quotient(cents, 100), Remainder(cents, 100);
    assert q >= 0;
    hide Quotient;
    ReadPrint(q, 10);
    ReadTwoMore(Print(q, 10), r);
    hide Read;
    hide Print;
    hide Pad2;
    hide Digits;
  }

  lemma DigitsOfAmount(cents: nat)
    ensures Quotient(cents, 100) >= 0
    ensures Digits(AmountText(cents)) == Print(Quotient(cents, 100), 10) + Pad2(Remainder(cents, 100))
  {
    var q, r := Quotient(cents, 100), Remainder(cents, 100);
    assert q >= 0;
    hide Quotient;
    var units, last := Print(q, 10), Pad2(r);
    ReadTwoMore("", r);
    hide Pad2;
    hide Print;
    var text := Group(units) + "," + last;
    DigitsOfGroup(units);
    DigitsOfDigits(last);
    hide Group;
    Separated(Group(units), ',', last);
    DigitsWithoutDots(text);
    hide Digits;
    hide WithoutDots;
  }

  /** In a field too: capitals and padding leave the digits alone. */
  lemma AmountFieldIsReadBack(at: int, length: int, cents: nat)
    requires Fits(An(at, length, AmountText(cents)))
    ensures ReadAmount(Padded(An(at, length, AmountText(cents)))) == cents
  {
    var text := AmountText(cents);
    AmountIsReadBack(cents);
    hide AmountText;
    hide Digits;
    DigitsOfBoth(Ascii(text), Repeat(' ', length - |text|));
    DigitsOfAscii(text);
    DigitsOfSpaces(length - |text|);
    assert Digits(Ascii(text)) + [] == Digits(Ascii(text));
  }

  // ---------- How long an amount is ----------

  lemma {:induction false} DotlessOfBoth(a: string, b: string)
    ensures WithoutDots(a + b) == WithoutDots(a) + WithoutDots(b)
  {
    if a == [] {
      assert a + b == b;
    } else {
      assert (a + b)[0] == a[0] && (a + b)[1..] == a[1..] + b;
      DotlessOfBoth(a[1..], b);
    }
  }

  lemma {:induction false} DotlessDigits(s: string)
    requires AreDigits(s, 10)
    ensures WithoutDots(s) == s
  {
    if s != [] {
      assert IsDigit(s[0], 10);
      assert AreDigits(s[1..], 10);
      DotlessDigits(s[1..]);
    }
  }

  lemma {:induction false} DotlessGroup(s: string)
    requires AreDigits(s, 10)
    ensures WithoutDots(Group(s)) == s && |Group(s)| >= |s|
  {
    hide IsDigit;
    if |s| <= 3 {
      DotlessDigits(s);
    } else {
      var front, end := s[..|s| - 3], s[|s| - 3..];
      DotlessGroup(front);
      DotlessDigits(end);
      DotHasNoDigit();
      hide WithoutDots;
      DotlessOfBoth(Group(front) + ".", end);
      DotlessOfBoth(Group(front), ".");
      assert s == front + end;
      assert front + [] == front;
    }
  }

  lemma DotHasNoDigit()
    ensures WithoutDots(".") == []
  {
  }

  /** Without dots an amount takes three characters more than its units; with dots never fewer. */
  lemma AmountLength(cents: nat)
    ensures Quotient(cents, 100) >= 0
    ensures |AmountText(cents)| <= 15 <==> |Print(Quotient(cents, 100), 10)| <= 12
  {
    var q, r := Quotient(cents, 100), Remainder(cents, 100);
    assert q >= 0;
    var units, last := Print(q, 10), Pad2(r);
    TwoDigitsBack(r);
    hide Quotient;
    hide Print;
    hide Pad2;
    hide Read;
    DotlessGroup(units);
    DotlessDigits(last);
    DotlessOfBoth(Group(units) + ",", last);
    DotlessOfBoth(Group(units), ",");
    assert WithoutDots(",") == ",";
    hide Group;
    hide WithoutDots;
    hide IsDigit;
  }

  /** Record M has room for fourteen digits of cents. */
  lemma AmountFitsIff(cents: nat)
    ensures |AmountText(cents)| <= 15 <==> cents < Power(10, 14)
  {
    AmountLength(cents);
    PrintLength(Quotient(cents, 100), 10, 12);
    QuotientBelow(cents, 100, Power(10, 12));
    assert Power(10, 14) == 10 * Power(10, 13) && Power(10, 13) == 10 * Power(10, 12);
    hide *;
  }
}
