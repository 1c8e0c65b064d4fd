/** Import of documents issued with another tool: the preview, which writes nothing, and the import itself. */
module DocumentImport {
  import opened Dates
  import opened DocumentNumbers
  import opened InvoiceDesk
  import opened InvoiceLaws
  import opened InvoiceNames
  import opened InvoiceRuns
  import opened InvoiceStore
  import opened Wrappers

  /** What the checks read of a parsed file. `date` is empty when the text is not a date of the form YYYY-MM-DD; `funds`
      are the blocks that are not the INPS surcharge. */
  datatype Parsed = Parsed(supplier: string, docType: Option<DocType>, number: string, date: Option<Day>,
                           funds: seq<string>)

  /** A file of an upload; `parsed` is empty when it is not a valid invoice file. */
  datatype Entry = Entry(fileName: string, parsed: Option<Parsed>)

  datatype Context = Context(vatNumber: string, professionalFund: bool, today: Day)

  /** Letters, digits, dot, underscore and dash stay; anything else becomes an underscore. */
  function StoredFileName(e: Entry): string {
    seq(|e.fileName|, i requires 0 <= i < |e.fileName| => if SafeChar(e.fileName[i]) then e.fileName[i] else '_')
  }

  predicate SafeChar(c: char) {
    'A' <= c <= 'Z' || 'a' <= c <= 'z' || '0' <= c <= '9' || c == '.' || c == '_' || c == '-'
  }

  predicate ValidNumber(s: string) {
    1 <= |s| <= 20 && forall i :: 0 <= i < |s| ==> ' ' <= s[i] <= '~'
  }

  /** The checks that need no stored invoice. */
  predicate Acceptable(p: Parsed, c: Context) {
    && p.supplier == c.vatNumber
    && p.docType.Some?
    && ValidNumber(p.number)
    && p.date.Some? && 0 <= YearOf(p.date.value) <= 9999 && p.date.value <= c.today
    && (|p.funds| > 0 ==> c.professionalFund)
    && |p.funds| <= 1
  }

  datatype Checked = Refused | Existing | Fresh(sequence: int)

  predicate NumberStored(s: Store, p: Parsed)
    requires p.docType.Some? && p.date.Some?
  {
    exists i :: i in s.invoices && s.invoices[i].year == YearOf(p.date.value)
      && s.invoices[i].docType == p.docType.value
                && s.invoices[i].number == p.number
  }

  /** The checks of a document, in order: refused, already stored, or to be stored with its sequence. */
  function Check(s: Store, p: Parsed, c: Context, fileName: string): (r: Checked)
    ensures r.Fresh? ==> r.sequence >= 0
  {
    if !Acceptable(p, c) then Refused
    else if NumberStored(s, p) then Existing
    else
      var sequence := ParseSequence(p.number, YearOf(p.date.value));
      if sequence.None? then Refused
      else if MayImport(s, p.docType.value, p.date.value, p.number, sequence.value, fileName) then Fresh(sequence.value)
      else Refused
  }

  // ---------- Preview ----------

  datatype Preview = NewRow | DuplicateRow | ErrorRow

  /** Documents met earlier in the same upload: numbers and sequences of all that passed the checks, names of the
      new. */
  datatype Memory = Memory(numbers: set<(int, DocType, string)>, sequences: set<(int, DocType, int)>,
                           names: set<string>)

  const NO_MEMORY := Memory({}, {}, {})

  function NumberKey(p: Parsed): (int, DocType, string)
    requires p.docType.Some? && p.date.Some?
  {
    (YearOf(p.date.value), p.docType.value, p.number)
  }

  function SequenceKey(p: Parsed): (int, DocType, int)
    requires p.docType.Some? && p.date.Some?
  {
    (YearOf(p.date.value), p.docType.value, ParseSequence(p.number, YearOf(p.date.value)).GetOr(0))
  }

  function PreviewOne(s: Store, e: Entry, c: Context, m: Memory): (Preview, Memory) {
    if e.parsed.None? then (ErrorRow, m)
    else
      var p := e.parsed.value;
      var checked := Check(s, p, c, StoredFileName(e));
      if checked.Refused? then (ErrorRow, m)
      else
        var row := if checked.Existing? || NumberKey(p) in m.numbers then DuplicateRow
                   else if SequenceKey(p) in m.sequences || StoredFileName(e) in m.names then ErrorRow
                   else NewRow;
        (row, Memory(m.numbers + {NumberKey(p)}, m.sequences + {SequenceKey(p)},
                     if row.NewRow? then m.names + {StoredFileName(e)} else m.names))
  }

  function MemoryAfter(s: Store, entries: seq<Entry>, c: Context, k: int): Memory
    requires 0 <= k <= |entries|
  {
    if k == 0 then NO_MEMORY else PreviewOne(s, entries[k - 1], c, MemoryAfter(s, entries, c, k - 1)).1
  }

  function PreviewRow(s: Store, entries: seq<Entry>, c: Context, k: int): Preview
    requires 0 <= k < |entries|
  {
    PreviewOne(s, entries[k], c, MemoryAfter(s, entries, c, k)).0
  }

  /** Preview of the entries against the stored invoices, in a loop over the upload. */
  method PreviewEntries(s: Store, entries: seq<Entry>, c: Context) returns (rows: seq<Preview>)
    ensures |rows| == |entries| && forall k :: 0 <= k < |entries| ==> rows[k] == PreviewRow(s, entries, c, k)
  {
    hide PreviewOne;
    rows := [];
    var numbers: set<(int, DocType, string)>, sequences: set<(int, DocType, int)>, names: set<string> := {}, {}, {};
    for k := 0 to |entries|
      invariant |rows| == k && forall j :: 0 <= j < k ==> rows[j] == PreviewRow(s, entries, c, j)
      invariant Memory(numbers, sequences, names) == MemoryAfter(s, entries, c, k)
    {
      hide *;
      var row;
      row, numbers, sequences, names := PreviewEntry(s, entries[k], c, numbers, sequences, names);
      MemoryNext(s, entries, c, k);
      rows := rows + [row];
    }
  }

  /** One turn of the preview: the row, and the documents met with this one. */
  method PreviewEntry(s: Store, e: Entry, c: Context,
                      numbers: set<(int, DocType, string)>, sequences: set<(int, DocType, int)>, names: set<string>)
    returns (row: Preview, numbers': set<(int, DocType, string)>, sequences': set<(int, DocType, int)>,
             names': set<string>)
    ensures (row, Memory(numbers', sequences', names')) == PreviewOne(s, e, c, Memory(numbers, sequences, names))
  {
    hide Check;
    hide StoredFileName;
    hide NumberKey;
    hide SequenceKey;
    numbers', sequences', names' := numbers, sequences, names;
    if e.parsed.None? {
      row := ErrorRow;
      return;
    }
    var p := e.parsed.value;
    var checked := Check(s, p, c, StoredFileName(e));
    if checked.Refused? {
      row := ErrorRow;
      return;
    }
    CheckedHasKeys(s, p, c, StoredFileName(e));
    row := NewRow;
    if checked.Existing? {
      row := DuplicateRow;
    } else if NumberKey(p) in numbers {
      row := DuplicateRow;
    } else if SequenceKey(p) in sequences {
      row := ErrorRow;
    } else if StoredFileName(e) in names {
      row := ErrorRow;
    }
    numbers', sequences' := numbers + {NumberKey(p)}, sequences + {SequenceKey(p)};
    if row == NewRow {
      names' := names + {StoredFileName(e)};
    }
  }

  lemma MemoryNext(s: Store, entries: seq<Entry>, c: Context, k: int)
    requires 0 <= k < |entries|
    ensures PreviewOne(s, entries[k], c, MemoryAfter(s, entries, c, k))
         == (PreviewRow(s, entries, c, k), MemoryAfter(s, entries, c, k + 1))
  {
    hide PreviewOne;
  }

  lemma CheckedHasKeys(s: Store, p: Parsed, c: Context, fileName: string)
    requires !Check(s, p, c, fileName).Refused?
    ensures p.docType.Some? && p.date.Some?
  {
  }

  // ---------- Import ----------

  datatype Imported = ImportedRow | SkippedRow | FailedRow

  ghost function ImportOne(s: Store, e: Entry, c: Context): (Store, Imported) {
    if e.parsed.None? then (s, FailedRow)
    else
      var p, name := e.parsed.value, StoredFileName(e);
      match Check(s, p, c, name)
      case Refused => (s, FailedRow)
      case Existing => (s, SkippedRow)
      case Fresh(sequence) => (Import(s, p.docType.value, p.date.value, p.number, sequence, name), ImportedRow)
  }

  ghost function StoreAfter(s: Store, entries: seq<Entry>, c: Context, k: int): Store
    requires 0 <= k <= |entries|
  {
    if k == 0 then s else ImportOne(StoreAfter(s, entries, c, k - 1), entries[k - 1], c).0
  }

  ghost function ImportRow(s: Store, entries: seq<Entry>, c: Context, k: int): Imported
    requires 0 <= k < |entries|
  {
    ImportOne(StoreAfter(s, entries, c, k), entries[k], c).1
  }

  /** The import of a selection, one document after the other; a failed one stops nothing. */
  method ImportEntries(desk: Desk, entries: seq<Entry>, c: Context) returns (results: seq<Imported>)
    modifies desk
    ensures |results| == |entries|
    ensures forall k :: 0 <= k < |entries| ==> results[k] == ImportRow(old(desk.Contents()), entries, c, k)
    ensures desk.Contents() == StoreAfter(old(desk.Contents()), entries, c, |entries|)
  {
    hide *;
    NothingImported(desk.Contents(), entries, c);
    results := [];
    for k := 0 to |entries|
      invariant |results| == k && desk.Contents() == StoreAfter(old(desk.Contents()), entries, c, k)
      invariant forall j :: 0 <= j < k ==> results[j] == ImportRow(old(desk.Contents()), entries, c, j)
    {
      var r := ImportEntry(desk, entries[k], c);
      StoreNext(old(desk.Contents()), entries, c, k);
      results := results + [r];
    }
  }

  lemma StoreNext(s: Store, entries: seq<Entry>, c: Context, k: int)
    requires 0 <= k < |entries|
    ensures ImportOne(StoreAfter(s, entries, c, k), entries[k], c)
         == (StoreAfter(s, entries, c, k + 1), ImportRow(s, entries, c, k))
  {
    hide ImportOne;
  }

  method ImportEntry(desk: Desk, e: Entry, c: Context) returns (r: Imported)
    modifies desk
    ensures (desk.Contents(), r) == ImportOne(old(desk.Contents()), e, c)
  {
    hide Acceptable;
    hide StoredFileName;
    hide ParseSequence;
    hide YearOf;
    if e.parsed.None? {
      return FailedRow;
    }
    var p, name := e.parsed.value, StoredFileName(e);
    AcceptableHasKeys(p, c);
    if !Acceptable(p, c) {
      return FailedRow;
    }
    if exists i :: i in desk.invoices && desk.invoices[i].year == YearOf(p.date.value)
                   && desk.invoices[i].docType == p.docType.value && desk.invoices[i].number == p.number {
      return SkippedRow;
    }
    var sequence := ParseSequence(p.number, YearOf(p.date.value));
    if sequence.None? {
      return FailedRow;
    }
    var stored := desk.ImportDocument(p.docType.value, p.date.value, p.number, sequence.value, name);
    r := if stored then ImportedRow else FailedRow;
  }

  lemma AcceptableHasKeys(p: Parsed, c: Context)
    ensures Acceptable(p, c) ==> p.docType.Some? && p.date.Some?
  {
  }

  // ---------- What the preview promises ----------

  /** The document passes the checks, stored already or not. */
  predicate IsAccepted(s: Store, e: Entry, c: Context) {
    e.parsed.Some? && !Check(s, e.parsed.value, c, StoredFileName(e)).Refused?
  }

  /** Document j of an upload stands in the way of document k. */
  predicate InTheWay(s: Store, entries: seq<Entry>, c: Context, j: int, k: int)
    requires 0 <= j < |entries| && 0 <= k < |entries|
  {
    && IsAccepted(s, entries[j], c) && IsAccepted(s, entries[k], c)
    && (CheckedKeys(s, entries[j], c); CheckedKeys(s, entries[k], c);
        || NumberKey(entries[j].parsed.value) == NumberKey(entries[k].parsed.value)
        || SequenceKey(entries[j].parsed.value) == SequenceKey(entries[k].parsed.value)
        || (PreviewRow(s, entries, c, j).NewRow? && StoredFileName(entries[j]) == StoredFileName(entries[k])))
  }

  /** The memory holds a key of the document, or its file name. */
  predicate Holds(m: Memory, e: Entry)
    requires e.parsed.Some? && e.parsed.value.docType.Some? && e.parsed.value.date.Some?
  {
    NumberKey(e.parsed.value) in m.numbers || SequenceKey(e.parsed.value) in m.sequences || StoredFileName(e) in m.names
  }

  lemma MemoryStep(s: Store, entries: seq<Entry>, c: Context, j: int, at: int)
    requires 0 <= j < |entries| && 0 <= at < |entries| && IsAccepted(s, entries[at], c)
    ensures entries[at].parsed.value.docType.Some? && entries[at].parsed.value.date.Some?
    ensures Holds(MemoryAfter(s, entries, c, j + 1), entries[at])
        <==> Holds(MemoryAfter(s, entries, c, j), entries[at]) || InTheWay(s, entries, c, j, at)
  {
    CheckedKeys(s, entries[at], c);
    CheckedKeys(s, entries[j], c);
    hide Check;
    hide StoredFileName;
    hide NumberKey;
    hide SequenceKey;
    var m := MemoryAfter(s, entries, c, j);
    assert MemoryAfter(s, entries, c, j + 1) == PreviewOne(s, entries[j], c, m).1;
    assert PreviewRow(s, entries, c, j) == PreviewOne(s, entries[j], c, m).0;
    hide MemoryAfter;
    hide PreviewRow;
  }

  lemma NothingHeld(s: Store, entries: seq<Entry>, c: Context, e: Entry)
    requires e.parsed.Some? && e.parsed.value.docType.Some? && e.parsed.value.date.Some?
    ensures !Holds(MemoryAfter(s, entries, c, 0), e)
  {
    hide StoredFileName;
    hide NumberKey;
    hide SequenceKey;
  }

  /** One of the first k documents of the upload stands in the way of another. */
  ghost predicate Blocked(s: Store, entries: seq<Entry>, c: Context, k: int, at: int)
    requires 0 <= k <= |entries| && 0 <= at < |entries|
  {
    exists j :: 0 <= j < k && InTheWay(s, entries, c, j, at)
  }

  lemma BlockedByNone(s: Store, entries: seq<Entry>, c: Context, at: int)
    requires 0 <= at < |entries|
    ensures !Blocked(s, entries, c, 0, at)
  {
  }

  lemma BlockedStep(s: Store, entries: seq<Entry>, c: Context, j: int, at: int)
    requires 0 <= j < |entries| && 0 <= at < |entries|
    ensures Blocked(s, entries, c, j + 1, at) <==> Blocked(s, entries, c, j, at) || InTheWay(s, entries, c, j, at)
  {
    hide InTheWay;
    if Blocked(s, entries, c, j + 1, at) {
      var i :| 0 <= i < j + 1 && InTheWay(s, entries, c, i, at);
      assert i < j ==> Blocked(s, entries, c, j, at);
    }
  }

  lemma {:induction false} MemoryHolds(s: Store, entries: seq<Entry>, c: Context, k: int, at: int)
    requires 0 <= k <= at < |entries| && IsAccepted(s, entries[at], c)
    requires entries[at].parsed.Some? && entries[at].parsed.value.docType.Some? && entries[at].parsed.value.date.Some?
    ensures Holds(MemoryAfter(s, entries, c, k), entries[at]) <==> Blocked(s, entries, c, k, at)
  {
    hide *;
    if k == 0 {
      NothingHeld(s, entries, c, entries[at]);
      BlockedByNone(s, entries, c, at);
    } else {
      MemoryHolds(s, entries, c, k - 1, at);
      MemoryStep(s, entries, c, k - 1, at);
      BlockedStep(s, entries, c, k - 1, at);
    }
  }

  /** A row is marked new exactly when its document would be stored and no earlier document of the upload is in its
      way. */
  lemma NewExactlyWhen(s: Store, entries: seq<Entry>, c: Context, k: int)
    requires 0 <= k < |entries|
    ensures PreviewRow(s, entries, c, k).NewRow?
        <==> IsFresh(s, entries[k], c) && forall j :: 0 <= j < k ==> !InTheWay(s, entries, c, j, k)
  {
    CheckedKeys(s, entries[k], c);
    if IsAccepted(s, entries[k], c) {
      MemoryHolds(s, entries, c, k, k);
    }
    hide Check;
    hide StoredFileName;
    hide NumberKey;
    hide SequenceKey;
    hide InTheWay;
    hide MemoryAfter;
  }

  /** Two documents that can both be stored: different numbers, sequences and file names. */
  predicate Apart(a: Entry, b: Entry)
    requires a.parsed.Some? && a.parsed.value.docType.Some? && a.parsed.value.date.Some?
    requires b.parsed.Some? && b.parsed.value.docType.Some? && b.parsed.value.date.Some?
  {
    && NumberKey(a.parsed.value) != NumberKey(b.parsed.value)
    && SequenceKey(a.parsed.value) != SequenceKey(b.parsed.value)
    && StoredFileName(a) != StoredFileName(b)
  }

  /** The document passes the checks and would be stored. */
  predicate IsFresh(s: Store, e: Entry, c: Context) {
    e.parsed.Some? && Check(s, e.parsed.value, c, StoredFileName(e)).Fresh?
  }

  lemma FreshHasKeys(s: Store, e: Entry, c: Context)
    requires IsFresh(s, e, c)
    ensures e.parsed.value.docType.Some? && e.parsed.value.date.Some?
  {
  }

  lemma {:induction false} MemoryGrows(s: Store, entries: seq<Entry>, c: Context, j: int, k: int)
    requires 0 <= j <= k <= |entries|
    ensures MemoryAfter(s, entries, c, j).numbers <= MemoryAfter(s, entries, c, k).numbers
    ensures MemoryAfter(s, entries, c, j).sequences <= MemoryAfter(s, entries, c, k).sequences
    ensures MemoryAfter(s, entries, c, j).names <= MemoryAfter(s, entries, c, k).names
  {
    hide Check;
    hide StoredFileName;
    hide NumberKey;
    hide SequenceKey;
    if j < k {
      MemoryGrows(s, entries, c, j, k - 1);
      CheckedKeys(s, entries[k - 1], c);
    }
  }

  lemma CheckedKeys(s: Store, e: Entry, c: Context)
    ensures e.parsed.Some? && !Check(s, e.parsed.value, c, StoredFileName(e)).Refused? ==>
              e.parsed.value.docType.Some? && e.parsed.value.date.Some?
  {
    if e.parsed.Some? && !Check(s, e.parsed.value, c, StoredFileName(e)).Refused? {
      CheckedHasKeys(s, e.parsed.value, c, StoredFileName(e));
    }
  }

  lemma NewRowsAreApart(s: Store, entries: seq<Entry>, c: Context, j: int, k: int)
    requires 0 <= j < k < |entries|
    requires PreviewRow(s, entries, c, j).NewRow? && PreviewRow(s, entries, c, k).NewRow?
    ensures IsFresh(s, entries[j], c) && IsFresh(s, entries[k], c)
    ensures entries[j].parsed.value.docType.Some? && entries[j].parsed.value.date.Some?
    ensures entries[k].parsed.value.docType.Some? && entries[k].parsed.value.date.Some?
    ensures Apart(entries[j], entries[k])
  {
    CheckedKeys(s, entries[j], c);
    CheckedKeys(s, entries[k], c);
    hide Check;
    hide StoredFileName;
    hide NumberKey;
    hide SequenceKey;
    MemoryGrows(s, entries, c, j + 1, k);
  }

  lemma NewRowIsFresh(s: Store, entries: seq<Entry>, c: Context, k: int)
    requires 0 <= k < |entries| && PreviewRow(s, entries, c, k).NewRow?
    ensures IsFresh(s, entries[k], c)
  {
    hide Check;
    hide StoredFileName;
    hide NumberKey;
    hide SequenceKey;
    hide MemoryAfter;
  }

  /** Storing one document leaves the others that are apart from it as importable as before, today or later. */
  lemma StillFresh(s: Store, a: Entry, b: Entry, c: Context, later: Context)
    requires IsFresh(s, a, later) && IsFresh(s, b, c)
    requires a.parsed.value.docType.Some? && a.parsed.value.date.Some? && b.parsed.value.docType.Some?
             && b.parsed.value.date.Some?
    requires Apart(a, b) && RowsOk(s)
    requires later == c.(today := later.today) && c.today <= later.today
    ensures IsFresh(ImportOne(s, a, later).0, b, later)
  {
    hide YearOf;
    hide ParseSequence;
    hide RowOk;
    hide StoredFileName;
    hide ValidNumber;
    var p, q := a.parsed.value, b.parsed.value;
    var sequence := ParseSequence(p.number, YearOf(p.date.value)).value;
    var after := ImportOne(s, a, later).0;
    var row := InvoiceStore.ImportedRow(p.docType.value, p.date.value, p.number, sequence, StoredFileName(a));
    assert after.invoices == s.invoices[s.nextInvoice := row];
    assert s.nextInvoice !in s.invoices;
    assert Acceptable(q, later);
  }

  lemma LaterIsFresh(s: Store, e: Entry, c: Context, later: Context)
    requires IsFresh(s, e, c) && later == c.(today := later.today) && c.today <= later.today
    ensures IsFresh(s, e, later)
  {
    hide ParseSequence;
    hide MayImport;
    hide NumberStored;
  }

  predicate Selected(s: Store, entries: seq<Entry>, c: Context, selection: seq<int>) {
    && (forall i :: 0 <= i < |selection| ==>
        0 <= selection[i] < |entries| && PreviewRow(s, entries, c, selection[i]).NewRow?)
    && (forall i, j :: 0 <= i < j < |selection| ==> selection[i] != selection[j])
  }

  function Pick(entries: seq<Entry>, selection: seq<int>): (r: seq<Entry>)
    requires forall i :: 0 <= i < |selection| ==> 0 <= selection[i] < |entries|
    ensures |r| == |selection|
  {
    seq(|selection|, i requires 0 <= i < |selection| => entries[selection[i]])
  }

  lemma ImportOneKeepsInv(s: Store, e: Entry, c: Context)
    requires Inv(s)
    ensures Inv(ImportOne(s, e, c).0)
  {
    hide Inv;
    if IsFresh(s, e, c) {
      var p := e.parsed.value;
      FreshHasKeys(s, e, c);
      ImportKeepsInv(s, p.docType.value, p.date.value, p.number, Check(s, p, c, StoredFileName(e)).sequence,
                     StoredFileName(e));
    }
    hide Check;
    hide Import;
  }

  lemma {:induction false} FreshAfter(
    s: Store, entries: seq<Entry>, c: Context, later: Context, selection: seq<int>, k: int, i: int)
    requires Inv(s) && Selected(s, entries, c, selection)
    requires later == c.(today := later.today) && c.today <= later.today
    requires 0 <= k <= i < |selection|
    ensures Inv(StoreAfter(s, Pick(entries, selection), later, k))
    ensures IsFresh(StoreAfter(s, Pick(entries, selection), later, k), entries[selection[i]], later)
  {
    hide Inv;
    hide PreviewRow;
    hide IsFresh;
    hide Check;
    hide StoredFileName;
    hide NumberKey;
    hide SequenceKey;
    if k == 0 {
      NewRowIsFresh(s, entries, c, selection[i]);
      LaterIsFresh(s, entries[selection[i]], c, later);
    } else {
      FreshAfter(s, entries, c, later, selection, k - 1, k - 1);
      FreshAfter(s, entries, c, later, selection, k - 1, i);
      var before := StoreAfter(s, Pick(entries, selection), later, k - 1);
      var a, b := selection[k - 1], selection[i];
      SelectedApart(s, entries, c, a, b);
      hide Selected;
      RowsOfInv(before);
      hide Apart;
      StillFresh(before, entries[a], entries[b], later, later);
      ImportOneKeepsInv(before, entries[a], later);
      hide ImportOne;
    }
  }

  lemma RowsOfInv(s: Store)
    requires Inv(s)
    ensures RowsOk(s)
  {
  }

  lemma SelectedApart(s: Store, entries: seq<Entry>, c: Context, a: int, b: int)
    requires 0 <= a < |entries| && 0 <= b < |entries| && a != b
    requires PreviewRow(s, entries, c, a).NewRow? && PreviewRow(s, entries, c, b).NewRow?
    ensures entries[a].parsed.Some? && entries[a].parsed.value.docType.Some? && entries[a].parsed.value.date.Some?
    ensures entries[b].parsed.Some? && entries[b].parsed.value.docType.Some? && entries[b].parsed.value.date.Some?
    ensures Apart(entries[a], entries[b])
  {
    if a < b {
      NewRowsAreApart(s, entries, c, a, b);
    } else {
      NewRowsAreApart(s, entries, c, b, a);
    }
    hide PreviewRow;
    hide IsFresh;
    hide NumberKey;
    hide SequenceKey;
    hide StoredFileName;
  }

  lemma PickedRowIsImported(s: Store, entries: seq<Entry>, c: Context, later: Context, selection: seq<int>, i: int)
    requires Inv(s) && Selected(s, entries, c, selection) && 0 <= i < |selection|
    requires later == c.(today := later.today) && c.today <= later.today
    ensures ImportRow(s, Pick(entries, selection), later, i).ImportedRow?
    ensures Inv(StoreAfter(s, Pick(entries, selection), later, i + 1))
  {
    hide Inv;
    hide Check;
    hide Import;
    hide StoredFileName;
    var picked := Pick(entries, selection);
    FreshAfter(s, entries, c, later, selection, i, i);
    var before := StoreAfter(s, picked, later, i);
    ImportOneKeepsInv(before, picked[i], later);
    assert StoreAfter(s, picked, later, i + 1) == ImportOne(before, picked[i], later).0;
    hide StoreAfter;
    hide Selected;
  }

  lemma AllPickedAreImported(s: Store, entries: seq<Entry>, c: Context, later: Context, selection: seq<int>)
    requires Inv(s) && Selected(s, entries, c, selection)
    requires later == c.(today := later.today) && c.today <= later.today
    ensures forall i :: 0 <= i < |selection| ==> ImportRow(s, Pick(entries, selection), later, i).ImportedRow?
    ensures Inv(StoreAfter(s, Pick(entries, selection), later, |selection|))
  {
    hide Inv;
    hide Check;
    hide ImportRow;
    hide StoreAfter;
    hide PreviewRow;
    forall i | 0 <= i < |selection|
      ensures ImportRow(s, Pick(entries, selection), later, i).ImportedRow?
    {
      PickedRowIsImported(s, entries, c, later, selection, i);
    }
    if |selection| == 0 {
      NothingImported(s, Pick(entries, selection), later);
    } else {
      PickedRowIsImported(s, entries, c, later, selection, |selection| - 1);
    }
  }

  /** The preview keeps its promise: importing, the same day or later, any of the rows it marked new, in any order,
      imports every one of them, and the store keeps its invariant: sequences, file names and numbers stay unique. */
  lemma NewRowsAreImported(s: Store, entries: seq<Entry>, c: Context, later: Context, selection: seq<int>)
    requires Inv(s) && Selected(s, entries, c, selection)
    requires later == c.(today := later.today) && c.today <= later.today
    ensures forall i :: 0 <= i < |selection| ==> ImportRow(s, Pick(entries, selection), later, i).ImportedRow?
    ensures Inv(StoreAfter(s, Pick(entries, selection), later, |selection|))
    ensures NumbersParsed(s) ==> NumbersUnique(StoreAfter(s, Pick(entries, selection), later, |selection|))
  {
    hide Inv;
    hide NumbersParsed;
    hide NumbersUnique;
    hide StoreAfter;
    hide ImportRow;
    hide PreviewRow;
    AllPickedAreImported(s, entries, c, later, selection);
    if NumbersParsed(s) {
      ImportKeepsNumbersUnique(s, Pick(entries, selection), later, |selection|);
    }
  }

  lemma NothingImported(s: Store, entries: seq<Entry>, c: Context)
    ensures StoreAfter(s, entries, c, 0) == s
  {
  }

  // ---------- Numbers stay unique ----------

  /** A number that is not empty holds the sequence of its row. */
  predicate NumberParsed(i: Invoice) {
    && i.year >= 0
    && (i.sequence.Some? && i.imported ==> i.sequence.value >= 0 && ParseSequence(i.number, i.year) == i.sequence)
    && (i.sequence.Some? && !i.imported ==> i.sequence.value >= 0 && NumberWritten(i))
    && (i.sequence.None? ==> i.number == "")
  }

  ghost predicate NumbersParsed(s: Store) {
    forall id :: id in s.invoices ==> NumberParsed(s.invoices[id])
  }

  /** Then no two documents of a year and type have the same number, imported or issued here. */
  lemma NumbersAreUnique(s: Store, a: int, b: int)
    requires Inv(s) && NumbersParsed(s) && a in s.invoices && b in s.invoices
    requires s.invoices[a].year == s.invoices[b].year && s.invoices[a].docType == s.invoices[b].docType
    requires s.invoices[a].number == s.invoices[b].number && s.invoices[a].sequence.Some?
             && s.invoices[b].sequence.Some?
    ensures a == b
  {
    ParsedBack(s, a);
    ParsedBack(s, b);
    assert SlotsUnique(s);
    hide Inv;
    hide NumberParsed;
    hide ParseSequence;
    assert SameSlot(s.invoices[a], s.invoices[b]);
  }

  lemma ParsedBack(s: Store, id: int)
    requires Inv(s) && NumbersParsed(s) && id in s.invoices && s.invoices[id].sequence.Some?
    ensures ParseSequence(s.invoices[id].number, s.invoices[id].year) == s.invoices[id].sequence
  {
    var i := s.invoices[id];
    assert NumberParsed(i);
    hide Inv;
    hide YearOf;
    if !i.imported {
      NumberIsReadBack(i.docType, i.sequence.value, i.year);
    }
    hide ParseSequence;
    hide FormatNumber;
  }

  /** So a number found in the store always yields its sequence: the preview never needs that of the stored row. */
  lemma StoredNumberIsParsed(s: Store, p: Parsed, id: int)
    requires Inv(s) && NumbersParsed(s) && p.docType.Some? && p.date.Some? && ValidNumber(p.number)
    requires id in s.invoices && s.invoices[id].year == YearOf(p.date.value)
    requires s.invoices[id].docType == p.docType.value && s.invoices[id].number == p.number
    ensures ParseSequence(p.number, YearOf(p.date.value)) == s.invoices[id].sequence
    ensures s.invoices[id].sequence.Some?
  {
    hide Inv;
    hide YearOf;
    hide ParseSequence;
    assert NumberParsed(s.invoices[id]);
    ParsedBack(s, id);
  }

  /** An import carries the sequence of its number, dates are not before year zero, and issues act on the draft as it
      is. */
  ghost predicate PlainEvent(e: Event) {
    match e
    case CreateEvent(_, date) => YearOf(date) >= 0
    case UpdateEvent(_, _, date) => YearOf(date) >= 0
    case ReplaceEvent(_, today) => YearOf(today) >= 0
    case StaleIssueEvent(_, _, _) => false
    case ImportEvent(_, date, number, sequence, _) =>
      YearOf(date) >= 0 && ParseSequence(number, YearOf(date)) == Some(sequence)
    case _ => true
  }

  lemma StepKeepsParsed(s: Store, e: Event)
    requires Inv(s) && NumbersParsed(s) && PlainEvent(e)
    ensures NumbersParsed(Step(s, e))
  {
    var after := Step(s, e);
    forall id | id in after.invoices
      ensures NumberParsed(after.invoices[id])
    {
      if IsReceipt(e) {
        ReceiptKeepsKeys(s, e);
        ReceiptKeepsDocument(s, e, id);
        hide Step;
        hide Inv;
        hide ParseSequence;
      } else if e.IssueEvent? {
        if e.id in s.invoices {
          IssueKeepsParsed(s, e.id, e.request, id);
        }
        hide Issue;
        hide Inv;
        hide ParseSequence;
      } else {
        RowsOfInv(s);
        PlainStepKeepsParsed(s, e, id);
        hide Step;
        hide Inv;
        hide ParseSequence;
      }
    }
  }

  lemma PlainStepKeepsParsed(s: Store, e: Event, id: int)
    requires RowsOk(s) && NumbersParsed(s) && PlainEvent(e) && !IsReceipt(e) && !e.IssueEvent?
             && id in Step(s, e).invoices
    ensures NumberParsed(Step(s, e).invoices[id])
  {
    hide YearOf;
    hide ParseSequence;
    hide IsReplaced;
    hide MayImport;
    hide Issue;
  }

  lemma IssueKeepsParsed(s: Store, issued: int, r: IssueRequest, id: int)
    requires Inv(s) && NumbersParsed(s) && issued in s.invoices
    requires id in Issue(s, issued, s.invoices[issued], r).invoices
    ensures NumberParsed(Issue(s, issued, s.invoices[issued], r).invoices[id])
  {
    hide Issue;
    hide ParseSequence;
    hide YearOf;
    if Issue(s, issued, s.invoices[issued], r) != s {
      var row := IssueRow(s, issued, s.invoices[issued], r);
      assert RowOk(s.invoices[issued]);
      LastSequenceNonNegative(s, row.year, row.docType);
      hide Inv;
      hide LastSequence;
      hide FormatNumber;
      hide Recorded;
      hide SlotTaken;
    }
  }

  lemma LastSequenceNonNegative(s: Store, year: int, docType: DocType)
    requires NumbersParsed(s)
    ensures LastSequence(s.invoices, year, docType) >= 0
  {
    hide ParseSequence;
  }

  /** Over every run, no two documents of a year and type have the same number. */
  lemma {:induction false} RunKeepsNumbersUnique(events: seq<Event>)
    requires forall i :: 0 <= i < |events| ==> PlainEvent(events[i])
    ensures Inv(Run(EMPTY, events)) && NumbersParsed(Run(EMPTY, events)) && NumbersUnique(Run(EMPTY, events))
  {
    hide Inv;
    hide Step;
    hide NumbersParsed;
    hide NumbersUnique;
    hide PlainEvent;
    EmptyIsOk();
    if events == [] {
      EmptyIsParsed();
    } else {
      RunKeepsNumbersUnique(events[..|events| - 1]);
      StepKeepsInv(Run(EMPTY, events[..|events| - 1]), events[|events| - 1]);
      StepKeepsParsed(Run(EMPTY, events[..|events| - 1]), events[|events| - 1]);
    }
    ParsedNumbersAreUnique(Run(EMPTY, events));
  }

  lemma EmptyIsParsed()
    ensures NumbersParsed(EMPTY)
  {
  }

  // ---------- Numbers after an import ----------

  /** No two numbered documents of a year and type have the same number. */
  ghost predicate NumbersUnique(s: Store) {
    forall a, b ::
      (a in s.invoices && b in s.invoices && a != b && s.invoices[a].sequence.Some? && s.invoices[b].sequence.Some?
       && s.invoices[a].year == s.invoices[b].year && s.invoices[a].docType == s.invoices[b].docType) ==>
        s.invoices[a].number != s.invoices[b].number
  }

  lemma ParsedNumbersAreUnique(s: Store)
    requires Inv(s) && NumbersParsed(s)
    ensures NumbersUnique(s)
  {
    hide Inv;
    hide NumbersParsed;
    forall a, b | a in s.invoices && b in s.invoices && a != b && s.invoices[a].sequence.Some?
      && s.invoices[b].sequence.Some?
      && s.invoices[a].year == s.invoices[b].year && s.invoices[a].docType == s.invoices[b].docType
      ensures s.invoices[a].number != s.invoices[b].number
    {
      if s.invoices[a].number == s.invoices[b].number {
        NumbersAreUnique(s, a, b);
      }
    }
  }

  lemma ImportOneKeepsParsed(s: Store, e: Entry, c: Context)
    requires Inv(s) && NumbersParsed(s)
    ensures NumbersParsed(ImportOne(s, e, c).0)
  {
    hide Inv;
    hide NumbersParsed;
    if IsFresh(s, e, c) {
      FreshEventIsPlain(s, e, c);
      var p := e.parsed.value;
      var event := ImportEvent(p.docType.value, p.date.value, p.number, Check(s, p, c, StoredFileName(e)).sequence,
                               StoredFileName(e));
      assert ImportOne(s, e, c).0 == Step(s, event);
      StepKeepsParsed(s, event);
    }
    hide Check;
    hide Import;
    hide Step;
  }

  lemma FreshEventIsPlain(s: Store, e: Entry, c: Context)
    requires IsFresh(s, e, c)
    ensures e.parsed.value.docType.Some? && e.parsed.value.date.Some?
    ensures var p := e.parsed.value;
            PlainEvent(ImportEvent(p.docType.value, p.date.value, p.number, Check(s, p, c, StoredFileName(e)).sequence,
                                   StoredFileName(e)))
  {
    hide ParseSequence;
    hide YearOf;
    hide StoredFileName;
    hide NumberStored;
    hide MayImport;
  }

  /** Whatever is imported, marked new or not, the documents of a year and type keep different numbers. */
  lemma {:induction false} ImportKeepsNumbersUnique(s: Store, entries: seq<Entry>, c: Context, k: int)
    requires Inv(s) && NumbersParsed(s) && 0 <= k <= |entries|
    ensures Inv(StoreAfter(s, entries, c, k)) && NumbersParsed(StoreAfter(s, entries, c, k))
            && NumbersUnique(StoreAfter(s, entries, c, k))
  {
    hide Inv;
    hide NumbersParsed;
    hide NumbersUnique;
    hide ImportOne;
    if k > 0 {
      ImportKeepsNumbersUnique(s, entries, c, k - 1);
      ImportOneKeepsInv(StoreAfter(s, entries, c, k - 1), entries[k - 1], c);
      ImportOneKeepsParsed(StoreAfter(s, entries, c, k - 1), entries[k - 1], c);
    }
    ParsedNumbersAreUnique(StoreAfter(s, entries, c, k));
  }
}
