/** A record of fixed length, written field by field into a buffer; what is written reads back when no two fields
    meet. */
module TelematicRecord {
  import opened Radix
  import opened Rounding

  const RECORD_LENGTH := 1900

  /** The buffer holds a record without its line end. */
  const BUFFER := 1898

  /** Positions are 1-based. Alphanumeric fields are left-aligned with spaces, numeric ones right-aligned with zeros. */
  datatype Field = An(at: int, length: int, value: string) | Nu(at: int, length: int, value: string)
  {
    function Next(): int { at + length }
  }

  function AsciiChar(c: char): char {
    if 'a' <= c <= 'z' then c - 'a' + 'A' else if ' ' <= c <= '~' then c else ' '
  }

  /** Capitals and printable characters only: every character takes one position. */
  function Ascii(s: string): (r: string)
    ensures |r| == |s|
  {
    seq(|s|, i requires 0 <= i < |s| => AsciiChar(s[i]))
  }

  /** The value is not too long and, in a numeric field, made of digits. */
  predicate Fits(f: Field) {
    |f.value| <= f.length && (f.Nu? ==> AreDigits(f.value, 10))
  }

  function Padded(f: Field): (s: string)
    requires Fits(f)
    ensures |s| == f.length
  {
    match f
    case An(_, length, value) => PadEnd(Ascii(value), length, ' ')
    case Nu(_, length, value) => PadStart(value, length, '0')
  }

  predicate InRecord(f: Field) {
    1 <= f.at && 0 <= f.length && f.Next() <= BUFFER + 1
  }

  predicate AllIn(fields: seq<Field>) {
    forall i :: 0 <= i < |fields| ==> InRecord(fields[i])
  }

  predicate AllFit(fields: seq<Field>) {
    forall i :: 0 <= i < |fields| ==> Fits(fields[i])
  }

  function Overwrite(s: string, k: int, text: string): (r: string)
    requires 0 <= k && k + |text| <= |s|
    ensures |r| == |s|
  {
    s[..k] + text + s[k + |text|..]
  }

  /** The buffer after writing the fields in order on spaces; a later field wins over an earlier one. */
  function Render(fields: seq<Field>): (s: string)
    requires AllIn(fields) && AllFit(fields)
    ensures |s| == BUFFER
  {
    if fields == [] then Repeat(' ', BUFFER)
    else
      var last := fields[|fields| - 1];
      Overwrite(Render(fields[..|fields| - 1]), last.at - 1, Padded(last))
  }

  // ---------- The writer ----------

  /** An exception of the program, which ends the writing, is remembered in `failed`: then the buffer no longer
      matters. */
  class RecordWriter {
    const chars: array<char>
    var failed: bool
    ghost var fields: seq<Field>

    ghost predicate Valid()
      reads this, chars
    {
      && chars.Length == BUFFER && AllIn(fields)
      && failed == !AllFit(fields)
      && (!failed ==> chars[..] == Render(fields))
    }

    constructor (kind: char)
      ensures Valid() && fresh(chars) && fields == [An(1, 1, [kind]), An(BUFFER, 1, "A")]
    {
      chars := new char[BUFFER](_ => ' ');
      failed, fields := false, [];
      new;
      assert chars[..] == Repeat(' ', BUFFER);
      WriteAn(1, 1, [kind]);
      WriteAn(BUFFER, 1, "A");
    }

    method WriteAn(position: int, length: int, value: string)
      requires Valid() && InRecord(An(position, length, value))
      modifies this, chars
      ensures Valid() && fields == old(fields) + [An(position, length, value)]
    {
      hide Render;
      var text := Ascii(value);
      if |text| > length {
        failed := true;
      } else {
        Write(position, PadEnd(text, length, ' '));
      }
      Wrote(old(fields), An(position, length, value));
      fields := fields + [An(position, length, value)];
    }

    method WriteNu(position: int, length: int, value: string)
      requires Valid() && InRecord(Nu(position, length, value))
      modifies this, chars
      ensures Valid() && fields == old(fields) + [Nu(position, length, value)]
    {
      hide Render;
      if !AreDigits(value, 10) || |value| > length {
        failed := true;
      } else {
        Write(position, PadStart(value, length, '0'));
      }
      Wrote(old(fields), Nu(position, length, value));
      fields := fields + [Nu(position, length, value)];
    }

    method Write(position: int, text: string)
      requires chars.Length == BUFFER && 1 <= position && position - 1 + |text| <= BUFFER
      modifies chars
      ensures chars[..] == Overwrite(old(chars[..]), position - 1, text)
    {
      for i := 0 to |text|
        invariant chars[..] == Overwrite(old(chars[..]), position - 1, text[..i])
      {
        chars[position - 1 + i] := text[i];
      }
      assert text[..|text|] == text;
    }

    method ToString() returns (s: string)
      requires Valid()
      ensures !failed ==> s == Render(fields) + "\r\n"
    {
      s := chars[..] + "\r\n";
    }
  }

  lemma Wrote(fields: seq<Field>, f: Field)
    requires AllIn(fields) && InRecord(f)
    ensures AllIn(fields + [f])
    ensures AllFit(fields + [f]) <==> AllFit(fields) && Fits(f)
    ensures AllFit(fields) && Fits(f) ==> Render(fields + [f]) == Overwrite(Render(fields), f.at - 1, Padded(f))
  {
    var all := fields + [f];
    assert all[..|all| - 1] == fields && all[|all| - 1] == f;
    hide Fits;
    hide InRecord;
    hide Overwrite;
    if AllFit(all) {
      assert forall i :: 0 <= i < |fields| ==> fields[i] == all[i];
      assert Fits(all[|fields|]);
    }
  }

  // ---------- Reading back ----------

  predicate Apart(a: Field, b: Field) {
    a.Next() <= b.at || b.Next() <= a.at
  }

  predicate Disjoint(fields: seq<Field>) {
    forall i, j :: 0 <= i < j < |fields| ==> Apart(fields[i], fields[j])
  }

  /** The characters of a field of a record. */
  function Slice(record: string, at: int, length: int): string {
    if 1 <= at && 0 <= length && at - 1 + length <= |record| then record[at - 1..at - 1 + length] else ""
  }

  lemma OverwriteHere(s: string, k: int, text: string)
    requires 0 <= k && k + |text| <= |s|
    ensures Overwrite(s, k, text)[k..k + |text|] == text
  {
  }

  lemma OverwriteElsewhere(s: string, k: int, text: string, from: int, to: int)
    requires 0 <= k && k + |text| <= |s| && 0 <= from <= to <= |s| && (to <= k || k + |text| <= from)
    ensures Overwrite(s, k, text)[from..to] == s[from..to]
  {
  }

  /** When no two fields meet, every one of them is read back as it was written. */
  lemma {:induction false} FieldsReadBack(fields: seq<Field>, k: nat)
    requires AllIn(fields) && AllFit(fields) && Disjoint(fields) && k < |fields|
    ensures Slice(Render(fields), fields[k].at, fields[k].length) == Padded(fields[k])
  {
    var before, last := fields[..|fields| - 1], fields[|fields| - 1];
    assert InRecord(last) && Fits(last) && InRecord(fields[k]) && Fits(fields[k]);
    hide InRecord;
    hide Fits;
    hide Slice;
    hide Overwrite;
    hide Padded;
    if k == |before| {
      SliceHere(Render(before), last);
    } else {
      FieldsReadBack(before, k);
      assert before[k] == fields[k] && Apart(fields[k], last);
      hide Apart;
      SliceElsewhere(Render(before), last, fields[k]);
    }
  }

  lemma SliceHere(s: string, f: Field)
    requires |s| == BUFFER && InRecord(f) && Fits(f)
    ensures Slice(Overwrite(s, f.at - 1, Padded(f)), f.at, f.length) == Padded(f)
  {
    OverwriteHere(s, f.at - 1, Padded(f));
    hide Overwrite;
    hide Padded;
    hide Fits;
  }

  lemma SliceElsewhere(s: string, f: Field, g: Field)
    requires |s| == BUFFER && InRecord(f) && Fits(f) && InRecord(g) && Apart(g, f)
    ensures Slice(Overwrite(s, f.at - 1, Padded(f)), g.at, g.length) == Slice(s, g.at, g.length)
  {
    OverwriteElsewhere(s, f.at - 1, Padded(f), g.at - 1, g.at - 1 + g.length);
    hide Overwrite;
    hide Padded;
    hide Fits;
  }

  // ---------- Layouts ----------

  /** The fields stand one after the other between two positions. */
  predicate InOrder(fields: seq<Field>, from: int, to: int) {
    && from <= to
    && (forall i :: 0 <= i < |fields| ==> from <= fields[i].at && 0 <= fields[i].length && fields[i].Next() <= to)
    && (forall i, j :: 0 <= i < j < |fields| ==> fields[i].Next() <= fields[j].at)
  }

  lemma Join(a: seq<Field>, b: seq<Field>, from: int, middle: int, to: int)
    requires InOrder(a, from, middle) && InOrder(b, middle, to)
    ensures InOrder(a + b, from, to)
  {
    var all := a + b;
    forall i | 0 <= i < |all|
      ensures from <= all[i].at && 0 <= all[i].length && all[i].Next() <= to
    {
      if i < |a| { assert all[i] == a[i]; } else { assert all[i] == b[i - |a|]; }
    }
    forall i, j | 0 <= i < j < |all|
      ensures all[i].Next() <= all[j].at
    {
      if j < |a| {
        assert all[i] == a[i] && all[j] == a[j];
      } else if i < |a| {
        assert all[i] == a[i] && all[j] == b[j - |a|];
      } else {
        assert all[i] == b[i - |a|] && all[j] == b[j - |a|];
      }
    }
  }

  /** It is enough to compare each field with the next one. */
  predicate InChain(fields: seq<Field>, from: int, to: int) {
    && |fields| > 0 && from <= fields[0].at && fields[|fields| - 1].Next() <= to
    && (forall i :: 0 <= i < |fields| ==> 0 <= fields[i].length)
    && (forall i :: 0 <= i < |fields| - 1 ==> fields[i].Next() <= fields[i + 1].at)
  }

  lemma {:induction false} ChainInOrder(fields: seq<Field>, from: int, to: int)
    requires InChain(fields, from, to)
    ensures InOrder(fields, from, to)
  {
    var before, last := fields[..|fields| - 1], fields[|fields| - 1];
    if before != [] {
      assert before[|before| - 1] == fields[|before| - 1];
      ChainInOrder(before, from, last.at);
      assert fields == before + [last];
      Join(before, [last], from, last.at, to);
    }
  }

  lemma Widen(a: seq<Field>, from: int, to: int, wideFrom: int, wideTo: int)
    requires InOrder(a, from, to) && wideFrom <= from && to <= wideTo
    ensures InOrder(a, wideFrom, wideTo)
  {
  }

  lemma FitTogether(a: seq<Field>, b: seq<Field>)
    ensures AllFit(a + b) <==> AllFit(a) && AllFit(b)
  {
    hide Fits;
    if AllFit(a + b) {
      assert forall i :: 0 <= i < |a| ==> a[i] == (a + b)[i];
      assert forall i :: 0 <= i < |b| ==> b[i] == (a + b)[|a| + i];
    }
  }

  /** The type of the record and its control character, then the rest. */
  function RecordFields(kind: char, body: seq<Field>): seq<Field> {
    [An(1, 1, [kind]), An(BUFFER, 1, "A")] + body
  }

  predicate WellFormed(body: seq<Field>) {
    InOrder(body, 2, BUFFER)
  }

  lemma RecordIsDisjoint(kind: char, body: seq<Field>)
    requires WellFormed(body)
    ensures AllIn(RecordFields(kind, body)) && Disjoint(RecordFields(kind, body))
    ensures AllFit(RecordFields(kind, body)) <==> AllFit(body)
  {
    var all := RecordFields(kind, body);
    FitTogether([An(1, 1, [kind]), An(BUFFER, 1, "A")], body);
    forall i | 0 <= i < |all|
      ensures InRecord(all[i])
    {
      if i >= 2 { assert all[i] == body[i - 2]; }
    }
    forall i, j | 0 <= i < j < |all|
      ensures Apart(all[i], all[j])
    {
      assert all[j] == if j >= 2 then body[j - 2] else all[1];
      assert i >= 2 ==> all[i] == body[i - 2];
    }
  }

  /** A record with its line end. */
  function RecordText(kind: char, body: seq<Field>): (s: string)
    requires WellFormed(body) && AllFit(body)
    ensures |s| == RECORD_LENGTH
  {
    RecordIsDisjoint(kind, body);
    Render(RecordFields(kind, body)) + "\r\n"
  }

  lemma SliceOfFront(s: string, end: string, at: int, length: int)
    requires 1 <= at && 0 <= length && at - 1 + length <= |s|
    ensures Slice(s + end, at, length) == Slice(s, at, length)
  {
  }

  lemma RecordFieldReadsBack(kind: char, body: seq<Field>, k: nat)
    requires WellFormed(body) && AllFit(body) && k < |RecordFields(kind, body)|
    ensures var f := RecordFields(kind, body)[k]; Fits(f) && Slice(RecordText(kind, body), f.at, f.length) == Padded(f)
  {
    var all := RecordFields(kind, body);
    RecordIsDisjoint(kind, body);
    FieldsReadBack(all, k);
    assert InRecord(all[k]);
    hide Render;
    SliceOfFront(Render(all), "\r\n", all[k].at, all[k].length);
    hide *;
  }

  /** Every field of the body reads back. */
  lemma RecordReadsBack(kind: char, body: seq<Field>, f: Field)
    requires WellFormed(body) && AllFit(body) && f in body
    ensures Fits(f) && Slice(RecordText(kind, body), f.at, f.length) == Padded(f)
  {
    hide RecordText;
    hide AllFit;
    hide WellFormed;
    hide Padded;
    hide Fits;
    hide Slice;
    var k :| 0 <= k < |body| && body[k] == f;
    assert RecordFields(kind, body)[k + 2] == f;
    RecordFieldReadsBack(kind, body, k + 2);
  }

  /** Every record begins with its type and ends with "A" and the line end. */
  lemma RecordShape(kind: char, body: seq<Field>)
    requires WellFormed(body) && AllFit(body)
    ensures var s := RecordText(kind, body); s[0] == AsciiChar(kind) && s[BUFFER - 1..] == "A\r\n"
  {
    hide AllFit;
    hide WellFormed;
    hide Fits;
    hide Padded;
    var s := RecordText(kind, body);
    RecordFieldReadsBack(kind, body, 0);
    RecordFieldReadsBack(kind, body, 1);
    EndsPadded(kind);
    LineEnd(kind, body);
    hide RecordText;
    assert s[0] == s[0..1][0];
    assert s[BUFFER - 1..] == s[BUFFER - 1..BUFFER] + s[BUFFER..];
  }

  lemma LineEnd(kind: char, body: seq<Field>)
    requires WellFormed(body) && AllFit(body)
    ensures RecordText(kind, body)[BUFFER..] == "\r\n"
  {
    RecordIsDisjoint(kind, body);
    var r := Render(RecordFields(kind, body));
    hide *;
    assert (r + "\r\n")[BUFFER..] == "\r\n";
  }

  lemma EndsPadded(kind: char)
    ensures Padded(An(1, 1, [kind])) == [AsciiChar(kind)] && Padded(An(BUFFER, 1, "A")) == "A"
  {
  }
}
