/** Names of SDI files: country and fiscal code of the transmitter, an underscore and a progressive of at most five
    base-36 characters (section 1.2.2 of the Specifiche tecniche FatturaPA 1.9.1). */
module FileNames {
  import opened Radix
  import opened Rounding
  import opened Wrappers

  datatype NameError = ProgressiveTooLong

  /** Capitals of ASCII text; the names of SDI files have no other letters. */
  function UpperChar(c: char): char {
    if 'a' <= c <= 'z' then 'A' + (c - 'a') else c
  }

  function Upper(s: string): (r: string)
    ensures |r| == |s|
  {
    seq(|s|, i requires 0 <= i < |s| => UpperChar(s[i]))
  }

  lemma UpperAppend(s: string, t: string)
    ensures Upper(s + t) == Upper(s) + Upper(t)
  {
    hide UpperChar;
  }

  /** Every progressive is below 36^5. */
  const PROGRESSIVES := 60466176

  function InvoiceFileName(country: string, id: string, sequence: int): Result<string, NameError>
    requires sequence >= 0
  {
    var progressive := PadStart(Print(sequence, 36), 5, '0');
    if |progressive| > 5 then Err(ProgressiveTooLong)
    else Ok(country + id + "_" + progressive + ".xml")
  }

  function Prefix(country: string, id: string): string { Upper(country + id + "_") }

  /** The progressive of a name of the transmitter, whatever its case, padding and extension; none for other names. */
  function ProgressiveOf(name: string, prefix: string): (r: Option<int>)
    ensures r.Some? ==> r.value >= 0
  {
    var upper := Upper(name);
    if !(prefix <= upper) then None
    else
      var rest := upper[|prefix|..];
      var stem := if EndsWith(rest, ".XML") then rest[..|rest| - 4]
                  else if EndsWith(rest, ".XML.P7M") then rest[..|rest| - 8]
                  else "";
      if 1 <= |stem| <= 5 && AreDigits(stem, 36) then Some(Read(stem, 36)) else None
  }

  predicate EndsWith(s: string, end: string) {
    |s| >= |end| && s[|s| - |end|..] == end
  }

  /** The configured start: letters and digits, as the profile checks. */
  type Start = s: Option<string> | s.Some? ==> AreDigits(Upper(s.value), 36) witness None

  /** The configured start, less one; zero without it. */
  function Base(start: Start): int {
    if start.Some? && start.value != "" then Read(Upper(start.value), 36) - 1 else 0
  }

  ghost function SetOf(names: seq<string>): set<string> { set name | name in names }

  ghost function Progressives(names: set<string>, prefix: string): set<int> {
    set name | name in names && ProgressiveOf(name, prefix).Some? :: ProgressiveOf(name, prefix).value
  }

  ghost function Greatest(s: set<int>): (m: int)
    requires exists x :: x in s
    ensures m in s && forall x :: x in s ==> x <= m
    decreases |s|
  {
    var x :| x in s;
    var rest := s - {x};
    assert forall y :: y in s ==> y in rest || y == x;
    if exists y :: y in rest then Max(x, Greatest(rest)) else x
  }

  /** The progressive after all the names of the transmitter, and after the configured start. */
  ghost function NextSequenceOf(names: set<string>, prefix: string, start: Start): (n: int)
    ensures n >= 0 && n > Base(start)
    ensures forall name :: name in names ==> ProgressiveOf(name, prefix).Some? ==> ProgressiveOf(name, prefix).value < n
  {
    var all := Progressives(names, prefix) + {Base(start)};
    assert Base(start) in all;
    assert forall name :: name in names && ProgressiveOf(name, prefix).Some? ==>
           ProgressiveOf(name, prefix).value in all;
    Greatest(all) + 1
  }

  method NextFileSequence(names: seq<string>, country: string, id: string, start: Start) returns (n: int)
    ensures n == NextSequenceOf(SetOf(names), Prefix(country, id), start)
  {
    hide ProgressiveOf;
    var prefix := Prefix(country, id);
    var max := Base(start);
    for k := 0 to |names|
      invariant max in Progressives(SetOf(names[..k]), prefix) + {Base(start)}
      invariant max >= Base(start)
      invariant forall name :: name in names[..k] ==> ProgressiveOf(name, prefix).Some? ==>
                ProgressiveOf(name, prefix).value <= max
    {
      assert names[..k + 1] == names[..k] + [names[k]];
      var p := ProgressiveOf(names[k], prefix);
      if p.Some? && p.value > max {
        max := p.value;
      }
    }
    assert names[..|names|] == names;
    var all := Progressives(SetOf(names), prefix) + {Base(start)};
    assert Greatest(all) == max;
    n := max + 1;
  }

  lemma UpperIsIdentity(s: string)
    requires AreDigits(s, 36)
    ensures Upper(s) == s
  {
  }

  /** The name of a progressive is read back as that progressive, in any case and with either extension. */
  lemma NameIsReadBack(country: string, id: string, sequence: int, name: string)
    requires sequence >= 0
    requires InvoiceFileName(country, id, sequence).Ok?
    requires Upper(name) == Upper(InvoiceFileName(country, id, sequence).value)
          || Upper(name) == Upper(InvoiceFileName(country, id, sequence).value) + ".P7M"
    ensures ProgressiveOf(name, Prefix(country, id)) == Some(sequence)
  {
    var p := PadStart(Print(sequence, 36), 5, '0');
    ReadPadded(sequence, 5, 36);
    UpperIsIdentity(p);
    UpperAppend(country + id + "_" + p, ".xml");
    UpperAppend(country + id + "_", p);
    assert Upper(".xml") == ".XML";
    hide Upper;
    var prefix := Prefix(country, id);
    var built := Upper(InvoiceFileName(country, id, sequence).value);
    assert built == prefix + p + ".XML";
    ReadsStem(name, prefix, p);
  }

  lemma ReadsStem(name: string, prefix: string, p: string)
    requires 1 <= |p| <= 5 && AreDigits(p, 36)
    requires Upper(name) == prefix + p + ".XML" || Upper(name) == prefix + p + ".XML" + ".P7M"
    ensures ProgressiveOf(name, prefix) == Some(Read(p, 36))
  {
    hide Read;
    hide AreDigits;
    var upper := Upper(name);
    hide Upper;
    var rest := upper[|prefix|..];
    if upper == prefix + p + ".XML" {
      assert rest == p + ".XML";
      assert rest[..|rest| - 4] == p;
    } else {
      assert rest == p + ".XML.P7M";
      assert rest[|rest| - 4..] == ".P7M";
      assert ".P7M"[1] != ".XML"[1];
      assert rest[..|rest| - 8] == p;
    }
  }

  /** The name is refused exactly from 36^5 on, and names of different progressives differ ignoring case. */
  lemma NamesAreInjective(country: string, id: string, a: int, b: int)
    requires a >= 0 && b >= 0
    ensures InvoiceFileName(country, id, a).Ok? <==> a < PROGRESSIVES
    ensures InvoiceFileName(country, id, b).Ok? <==> b < PROGRESSIVES
    ensures a != b && a < PROGRESSIVES && b < PROGRESSIVES ==>
              Upper(InvoiceFileName(country, id, a).value) != Upper(InvoiceFileName(country, id, b).value)
  {
    NameLength(country, id, a);
    NameLength(country, id, b);
    hide InvoiceFileName;
    if a < PROGRESSIVES && b < PROGRESSIVES {
      NameIsReadBack(country, id, a, InvoiceFileName(country, id, a).value);
      if Upper(InvoiceFileName(country, id, a).value) == Upper(InvoiceFileName(country, id, b).value) {
        NameIsReadBack(country, id, b, InvoiceFileName(country, id, a).value);
      }
    }
  }

  lemma ProgressivesArePower()
    ensures Power(36, 5) == PROGRESSIVES
  {
    assert Power(36, 1) == 36 * Power(36, 0);
    assert Power(36, 2) == 36 * Power(36, 1);
    assert Power(36, 3) == 36 * Power(36, 2);
    assert Power(36, 4) == 36 * Power(36, 3);
    assert Power(36, 5) == 36 * Power(36, 4);
  }

  lemma NameLength(country: string, id: string, n: int)
    requires n >= 0
    ensures InvoiceFileName(country, id, n).Ok? <==> n < PROGRESSIVES
  {
    PrintLength(n, 36, 5);
    ProgressivesArePower();
    hide Power;
    hide Print;
  }

  /** The name built from the next progressive differs, ignoring case, from every existing name and from its signed
      version, and its progressive from that of every existing name, whatever padding or extension it has. */
  lemma NextNameIsNew(names: set<string>, country: string, id: string, start: Start)
    requires InvoiceFileName(country, id, NextSequenceOf(names, Prefix(country, id), start)).Ok?
    ensures var n := NextSequenceOf(names, Prefix(country, id), start);
            var built := InvoiceFileName(country, id, n).value;
            && n > Base(start)
            && forall name :: name in names ==>
                 && ProgressiveOf(name, Prefix(country, id)) != Some(n)
                 && Upper(name) != Upper(built)
                 && Upper(name) != Upper(built) + ".P7M"
                 && name != built
  {
    var n := NextSequenceOf(names, Prefix(country, id), start);
    var built := InvoiceFileName(country, id, n).value;
    hide InvoiceFileName;
    forall name | name in names
      ensures ProgressiveOf(name, Prefix(country, id)) != Some(n)
      ensures Upper(name) != Upper(built) && Upper(name) != Upper(built) + ".P7M" && name != built
    {
      if Upper(name) == Upper(built) || Upper(name) == Upper(built) + ".P7M" {
        NameIsReadBack(country, id, n, name);
      }
      hide ProgressiveOf;
      hide Upper;
    }
  }

  lemma ProgressiveBound(name: string, prefix: string)
    ensures ProgressiveOf(name, prefix).Some? ==> ProgressiveOf(name, prefix).value < PROGRESSIVES
  {
    hide Upper;
    hide Read;
    hide AreDigits;
    ProgressivesArePower();
    hide Power;
    forall stem: string | 1 <= |stem| <= 5 && AreDigits(stem, 36)
      ensures Read(stem, 36) < PROGRESSIVES
    {
      ReadBound(stem, 36);
      PowerGrows(36, |stem|, 5);
    }
  }

  /** No name is left exactly when an existing one has the last progressive, ZZZZZ, or the start is beyond it. */
  lemma NamesRunOutIff(names: set<string>, country: string, id: string, start: Start)
    ensures InvoiceFileName(country, id, NextSequenceOf(names, Prefix(country, id), start)).Err?
        <==> Base(start) >= PROGRESSIVES - 1
             || exists name :: name in names && ProgressiveOf(name, Prefix(country, id)) == Some(PROGRESSIVES - 1)
  {
    hide *;
    var prefix := Prefix(country, id);
    var n := NextSequenceOf(names, prefix, start);
    NameLength(country, id, n);
    var p := LastProgressive(names, prefix, start);
    if exists name :: name in names && ProgressiveOf(name, prefix) == Some(p) {
      var name :| name in names && ProgressiveOf(name, prefix) == Some(p);
      ProgressiveBound(name, prefix);
    }
  }

  lemma LastProgressive(names: set<string>, prefix: string, start: Start) returns (p: int)
    ensures NextSequenceOf(names, prefix, start) == p + 1
    ensures p == Base(start) || exists name :: name in names && ProgressiveOf(name, prefix) == Some(p)
  {
    hide ProgressiveOf;
    var all := Progressives(names, prefix) + {Base(start)};
    assert Base(start) in all;
    p := Greatest(all);
    if p != Base(start) {
      assert p in Progressives(names, prefix);
    }
  }
}
