/** The progressive hidden in a document number, and its agreement with the numbers written here. */
module DocumentNumbers {
  import opened InvoiceStore
  import opened Radix
  import opened Wrappers

  predicate IsDecimal(c: char) { '0' <= c <= '9' }

  /** Length of the run of digits at the start. */
  function RunLength(s: string): (n: int)
    ensures 0 <= n <= |s|
    ensures forall i :: 0 <= i < n ==> IsDecimal(s[i])
    ensures n < |s| ==> !IsDecimal(s[n])
  {
    if s == "" || !IsDecimal(s[0]) then 0 else 1 + RunLength(s[1..])
  }

  /** The groups of digits of a text, in order. */
  function Groups(s: string): (g: seq<string>)
    ensures forall i :: 0 <= i < |g| ==> g[i] != "" && AreDigits(g[i], 10)
    decreases |s|
  {
    if s == "" then []
    else if !IsDecimal(s[0]) then Groups(s[1..])
    else [s[..RunLength(s)]] + Groups(s[RunLength(s)..])
  }

  function Without(groups: seq<string>, x: string): (r: seq<string>)
    ensures forall i :: 0 <= i < |r| ==> r[i] in groups && r[i] != x
  {
    if groups == [] then []
    else if groups[0] == x then Without(groups[1..], x)
    else [groups[0]] + Without(groups[1..], x)
  }

  /** The last group of digits that is not the year, or the last one when all are. */
  function ParseSequence(number: string, year: int): (r: Option<int>)
    ensures r.Some? ==> r.value >= 0
  {
    var groups := Groups(number);
    var withoutYear := Without(groups, Text(year));
    var candidates := if |withoutYear| > 0 then withoutYear else groups;
    if candidates == [] then None else Some(Read(candidates[|candidates| - 1], 10))
  }

  lemma DecimalDigits(s: string)
    requires AreDigits(s, 10)
    ensures forall i :: 0 <= i < |s| ==> IsDecimal(s[i])
  {
  }

  lemma {:induction false} RunOfDigits(d: string, rest: string)
    requires (forall i :: 0 <= i < |d| ==> IsDecimal(d[i])) && (rest == "" || !IsDecimal(rest[0]))
    ensures RunLength(d + rest) == |d|
  {
    if d == "" {
      assert d + rest == rest;
    } else {
      assert (d + rest)[1..] == d[1..] + rest;
      RunOfDigits(d[1..], rest);
    }
  }

  lemma GroupsOfRun(d: string, rest: string)
    requires d != "" && (forall i :: 0 <= i < |d| ==> IsDecimal(d[i])) && (rest == "" || !IsDecimal(rest[0]))
    ensures Groups(d + rest) == [d] + Groups(rest)
  {
    RunOfDigits(d, rest);
    assert (d + rest)[..|d|] == d && (d + rest)[|d|..] == rest;
    hide RunLength;
  }

  lemma {:induction false} GroupsAfterText(prefix: string, rest: string)
    requires forall i :: 0 <= i < |prefix| ==> !IsDecimal(prefix[i])
    ensures Groups(prefix + rest) == Groups(rest)
  {
    hide RunLength;
    if prefix == "" {
      assert prefix + rest == rest;
    } else {
      assert (prefix + rest)[1..] == prefix[1..] + rest;
      GroupsAfterText(prefix[1..], rest);
    }
  }

  lemma GroupsOfPair(prefix: string, a: string, b: string)
    requires forall i :: 0 <= i < |prefix| ==> !IsDecimal(prefix[i])
    requires a != "" && b != "" && AreDigits(a, 10) && AreDigits(b, 10)
    ensures Groups(prefix + a + "/" + b) == [a, b]
  {
    DecimalDigits(a);
    DecimalDigits(b);
    hide AreDigits;
    GroupsOfRun(b, "");
    assert b + "" == b;
    assert Groups("") == [];
    hide Groups;
    GroupsAfterText("/", b);
    GroupsOfRun(a, "/" + b);
    GroupsAfterText(prefix, a + ("/" + b));
    assert prefix + a + "/" + b == prefix + (a + ("/" + b));
    assert [a] + [b] == [a, b];
  }

  lemma GroupsOfNumber(docType: DocType, sequence: int, year: int)
    requires sequence >= 0 && year >= 0
    ensures Groups(FormatNumber(docType, sequence, year)) == [Text(sequence), Text(year)]
  {
    hide Text;
    hide Groups;
    GroupsOfPair(NumberPrefix(docType), Text(sequence), Text(year));
    assert FormatNumber(docType, sequence, year) == NumberPrefix(docType) + Text(sequence) + "/" + Text(year);
  }

  lemma TextIsInjective(a: int, b: int)
    requires a >= 0 && b >= 0
    ensures Text(a) == Text(b) ==> a == b
    ensures Read(Text(a), 10) == a
  {
    ReadPrint(a, 10);
    ReadPrint(b, 10);
    hide Print;
    hide Read;
  }

  /** The number written at issue is read back as its own sequence, even when the sequence equals the year. */
  lemma NumberIsReadBack(docType: DocType, sequence: int, year: int)
    requires sequence >= 0 && year >= 0
    ensures ParseSequence(FormatNumber(docType, sequence, year), year) == Some(sequence)
  {
    GroupsOfNumber(docType, sequence, year);
    TextIsInjective(sequence, year);
    TextIsInjective(sequence, sequence);
    hide FormatNumber;
    hide Groups;
    hide Read;
    var a, b := Text(sequence), Text(year);
    hide Text;
    assert [a, b][1..] == [b] && [b][1..] == [];
    assert Without([b], b) == [];
    assert Without([a, b], b) == if a == b then [] else [a];
  }
}
