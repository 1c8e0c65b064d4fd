/** The numbers of the documents over the runs of the invoice store, and what an issue that acts on an old reading does
    to them. */
module InvoiceNumbers {
  import opened Dates
  import opened DocumentNumbers
  import opened FileNames
  import opened InvoiceLaws
  import opened InvoiceRuns
  import opened InvoiceStore
  import opened Radix
  import opened Rounding
  import opened Wrappers

  // ---------- Numbers survive ----------

  /** The number of a document: type, date, sequence and text. */
  predicate SameNumber(a: Invoice, b: Invoice) {
    a.docType == b.docType && a.date == b.date && a.year == b.year && a.sequence == b.sequence && a.number == b.number
  }

  ghost predicate NumberKept(s: Store, after: Store, id: int) {
    id in s.invoices && s.invoices[id].sequence.Some? ==>
      id in after.invoices && SameNumber(s.invoices[id], after.invoices[id])
  }

  lemma RequestKeepsNumber(s: Store, e: Event, id: int)
    requires Inv(s) && (e.CreateEvent? || e.UpdateEvent? || e.RemoveEvent? || e.CorrectEvent? || e.ReplaceEvent?
                        || e.ImportEvent?)
    ensures NumberKept(s, Step(s, e), id)
  {
    hide YearOf;
    hide FormatNumber;
    hide SlotsUnique;
    hide NamesUnique;
    hide NoGaps;
    hide Settled;
    hide LinksOk;
    hide IsReplaced;
    hide MayImport;
  }

  lemma IssueKeepsNumber(s: Store, issued: int, r: IssueRequest, id: int)
    requires NumbersWritten(s) && RowsOk(s) && issued in s.invoices
    ensures NumberKept(s, Issue(s, issued, s.invoices[issued], r), id)
  {
    hide Issue;
    if Issue(s, issued, s.invoices[issued], r) != s {
      var row := IssueRow(s, issued, s.invoices[issued], r);
      hide FormatNumber;
      hide YearOf;
      hide LastSequence;
      hide Recorded;
      hide SlotTaken;
      assert RowOk(s.invoices[issued]) && NumberWritten(s.invoices[issued]);
    }
  }

  lemma StepKeepsNumber(s: Store, e: Event, id: int)
    requires Inv(s) && NumbersWritten(s) && !e.StaleIssueEvent?
    ensures NumberKept(s, Step(s, e), id)
  {
    if IsReceipt(e) {
      hide Inv;
      if id in s.invoices { ReceiptKeepsDocument(s, e, id); }
      hide Step;
    } else if e.IssueEvent? {
      assert RowsOk(s);
      hide Inv;
      if e.id in s.invoices { IssueKeepsNumber(s, e.id, e.request, id); }
      hide Issue;
    } else {
      hide Inv;
      RequestKeepsNumber(s, e, id);
      hide Step;
    }
  }

  /** A number once assigned survives every later rejection, correction and event unchanged, as long as issues act on
      the draft as it is. */
  lemma {:induction false} NumberSurvives(s: Store, events: seq<Event>, id: int)
    requires Inv(s) && Exact(s) && UpToDate(events)
    ensures NumberKept(s, Run(s, events), id)
  {
    hide Inv;
    hide Step;
    hide Exact;
    if events != [] {
      var front := events[..|events| - 1];
      NumberSurvives(s, front, id);
      RunKeepsInv(s, front);
      RunKeepsExact(s, front);
      ExactNumbers(Run(s, front));
      StepKeepsNumber(Run(s, front), events[|events| - 1], id);
    }
  }

  lemma ExactNumbers(s: Store)
    requires Exact(s)
    ensures NumbersWritten(s) && NoGaps(s)
  {
  }

  // ---------- No gaps ----------

  /** Every numbered row of the second store is a row of the first, or is written by itself. */
  lemma SameNumbersWritten(a: Store, b: Store)
    requires NumbersWritten(a)
    requires forall id :: id in b.invoices ==>
               || NumberWritten(b.invoices[id])
               || (id in a.invoices && SameNumber(a.invoices[id], b.invoices[id])
                   && a.invoices[id].imported == b.invoices[id].imported)
    ensures NumbersWritten(b)
  {
    hide FormatNumber;
  }

  lemma ReceiptKeepsExact(s: Store, e: Event)
    requires Exact(s) && IsReceipt(e)
    ensures Exact(Step(s, e))
  {
    var after := Step(s, e);
    forall id | id in s.invoices
      ensures id in after.invoices && SameDocument(s.invoices[id], after.invoices[id])
    {
      ReceiptKeepsDocument(s, e, id);
      hide *;
    }
    ReceiptKeepsKeys(s, e);
    hide Step;
    hide IsReceipt;
    hide NoGaps;
    NumbersKept(s, after);
    hide SlotsUnique;
    hide NumberWritten;
    SameNumbersWritten(s, after);
  }

  lemma IssueKeepsExact(s: Store, id: int, r: IssueRequest)
    requires Inv(s) && Exact(s) && id in s.invoices
    ensures Exact(Issue(s, id, s.invoices[id], r))
  {
    hide Issue;
    if Issue(s, id, s.invoices[id], r) != s {
      var row := IssueRow(s, id, s.invoices[id], r);
      assert RowOk(s.invoices[id]);
      hide Inv;
      hide Recorded;
      hide NumberOf;
      hide FormatNumber;
      hide SlotTaken;
      IssueKeepsNoGaps(s, id, row);
      hide NoGaps;
    }
  }

  lemma DraftsKeepExact(s: Store, after: Store)
    requires Exact(s) && SameNumbered(s, after)
    ensures Exact(after)
  {
    DraftKeepsNumbers(s, after);
    hide NoGaps;
    hide FormatNumber;
  }

  lemma RequestKeepsExact(s: Store, e: Event)
    requires Inv(s) && Exact(s) && (e.CreateEvent? || e.UpdateEvent? || e.RemoveEvent? || e.ReplaceEvent?)
    ensures Exact(Step(s, e))
  {
    hide Exact;
    assert RowsOk(s);
    match e {
      case CreateEvent(docType, date) => DraftAdded(s, docType, date, None);
      case UpdateEvent(id, docType, date) => DraftUpdated(s, id, docType, date);
      case RemoveEvent(id) => DraftRemoved(s, id);
      case ReplaceEvent(id, today) => if id in s.invoices { DraftAdded(s, s.invoices[id].docType, today, Some(id)); }
    }
    hide Inv;
    hide Create;
    hide Update;
    hide Remove;
    hide MayCorrect;
    if Step(s, e) != s { DraftsKeepExact(s, Step(s, e)); }
  }

  lemma DraftAdded(s: Store, docType: DocType, date: Day, link: Option<int>)
    requires RowsOk(s)
    ensures SameNumbered(s, Create(s, docType, date, link))
  {
    hide YearOf;
    hide RowOk;
  }

  lemma DraftUpdated(s: Store, id: int, docType: DocType, date: Day)
    requires RowsOk(s)
    ensures SameNumbered(s, Update(s, id, docType, date))
  {
    if MayUpdate(s, id, docType, date) {
      assert RowOk(s.invoices[id]);
      var row := UpdatedDraft(s, id, docType, date);
      hide RowsOk;
      hide RowOk;
      hide Update;
    }
  }

  lemma DraftRemoved(s: Store, id: int)
    requires TransmissionsOk(s) && LinksOk(s)
    ensures SameNumbered(s, Remove(s, id))
  {
    if MayRemove(s, id) {
      RemoveOnlyDrops(s, id);
      hide Remove;
    }
    hide TransmissionsOk;
    hide LinksOk;
  }

  lemma CorrectKeepsExact(s: Store, id: int)
    requires Exact(s)
    ensures Exact(ReopenForCorrection(s, id))
  {
    hide FormatNumber;
    hide IsReplaced;
    hide NoGaps;
    NumbersKept(s, ReopenForCorrection(s, id));
    hide SlotsUnique;
  }

  lemma ImportKeepsExact(s: Store, docType: DocType, date: Day, number: string, sequence: nat, fileName: string)
    requires Inv(s) && Exact(s)
    ensures Exact(Import(s, docType, date, number, sequence, fileName))
  {
    hide FormatNumber;
    hide YearOf;
    assert RowsOk(s);
    hide Inv;
    if MayImport(s, docType, date, number, sequence, fileName) {
      ImportKeepsGaps(s, docType, date, number, sequence, fileName);
    }
    hide NoGaps;
    hide MayImport;
    hide RowsOk;
  }

  lemma StepKeepsExact(s: Store, e: Event)
    requires Inv(s) && Exact(s) && !e.StaleIssueEvent?
    ensures Exact(Step(s, e))
  {
    hide Inv;
    hide Exact;
    match e {
      case IssueEvent(id, r) => if id in s.invoices { IssueKeepsExact(s, id, r); }
      case CorrectEvent(id) => CorrectKeepsExact(s, id);
      case ImportEvent(docType, date, number, sequence, fileName) =>
        ImportKeepsExact(s, docType, date, number, sequence, fileName);
      case CreateEvent(_, _) => RequestKeepsExact(s, e);
      case UpdateEvent(_, _, _) => RequestKeepsExact(s, e);
      case RemoveEvent(_) => RequestKeepsExact(s, e);
      case ReplaceEvent(_, _) => RequestKeepsExact(s, e);
      case _ => ReceiptKeepsExact(s, e);
    }
  }

  lemma {:induction false} RunKeepsExact(s: Store, events: seq<Event>)
    requires Inv(s) && Exact(s) && UpToDate(events)
    ensures Exact(Run(s, events))
  {
    hide Inv;
    hide Step;
    hide Exact;
    if events != [] {
      var front := events[..|events| - 1];
      RunKeepsExact(s, front);
      RunKeepsInv(s, front);
      StepKeepsExact(Run(s, front), events[|events| - 1]);
    }
  }

  /** In every reachable state no two documents of a year and type share a sequence; and when issues act on the draft as
      it is, a series without imported documents holds exactly the numbers from 1 to its last one. */
  lemma NumbersAreUniqueWithoutGaps(events: seq<Event>, year: int, docType: DocType)
    ensures var s := Run(EMPTY, events);
            && SlotsUnique(s)
            && (UpToDate(events) && !HasImports(s, year, docType) ==>
                  forall k :: HasNumber(s, year, docType, k) <==> 1 <= k <= LastSequence(s.invoices, year, docType))
  {
    EmptyIsOk();
    RunKeepsInv(EMPTY, events);
    assert SlotsUnique(Run(EMPTY, events));
    hide SlotsUnique;
    hide Inv;
    if UpToDate(events) {
      RunKeepsExact(EMPTY, events);
      ExactNumbers(Run(EMPTY, events));
    }
    hide Run;
    hide Exact;
    var s := Run(EMPTY, events);
    if UpToDate(events) && !HasImports(s, year, docType) {
      LastOfSeries(s, year, docType);
      forall k | HasNumber(s, year, docType, k)
        ensures 1 <= k <= LastSequence(s.invoices, year, docType)
      {
      }
    }
    hide HasNumber;
    hide LastSequence;
  }

  // ---------- An issue that acts on an old reading of the draft ----------

  /** With the same sequence two number texts are equal exactly when they have the same prefix and year. */
  lemma SameTextIff(a: DocType, b: DocType, sequence: int, yearA: int, yearB: int)
    ensures FormatNumber(a, sequence, yearA) == FormatNumber(b, sequence, yearB)
        <==> NumberPrefix(a) == NumberPrefix(b) && yearA == yearB
  {
    var text, p, q := Text(sequence), NumberPrefix(a), NumberPrefix(b);
    TextHead(sequence);
    TextsDiffer(yearA, yearB);
    hide Text;
    var x, y := p + text + "/" + Text(yearA), q + text + "/" + Text(yearB);
    assert FormatNumber(a, sequence, yearA) == x && FormatNumber(b, sequence, yearB) == y;
    hide FormatNumber;
    if x == y {
      assert x[0] == y[0];
      if p == "" || q == "" {
        assert p == q;
      } else {
        assert x[1] == p[1] && y[1] == q[1];
      }
      var n := |p + text + "/"|;
      assert x[n..] == Text(yearA) && y[n..] == Text(yearB);
    }
  }

  lemma TextHead(n: int)
    ensures Text(n)[0] != 'N'
  {
    hide Print;
    if n >= 0 {
      assert IsDigit(Text(n)[0], 10);
    }
  }

  lemma TextsDiffer(a: int, b: int)
    ensures Text(a) == Text(b) ==> a == b
  {
    SignOfText(a);
    SignOfText(b);
    hide Text;
    if a >= 0 && b >= 0 {
      TextIsInjective(a, b);
    } else if a < 0 && b < 0 {
      TextIsInjective(-a, -b);
    }
  }

  lemma SignOfText(n: int)
    ensures n >= 0 ==> Text(n)[0] != '-'
    ensures n < 0 ==> Text(n)[0] == '-' && Text(n)[1..] == Text(-n)
  {
    hide Print;
    if n >= 0 {
      assert IsDigit(Text(n)[0], 10);
    }
  }

  /** Whatever was read, the number written fits the document exactly when the reading has its prefix and year. */
  lemma NumberFitsIff(s: Store, id: int, seen: Invoice, r: IssueRequest)
    requires Inv(s) && Issue(s, id, seen, r) != s
    ensures id in s.invoices && id in Issue(s, id, seen, r).invoices
    ensures NumberWritten(Issue(s, id, seen, r).invoices[id])
        <==> NumberPrefix(seen.docType) == NumberPrefix(s.invoices[id].docType) && seen.year == s.invoices[id].year
  {
    hide Issue;
    var row := IssueRow(s, id, seen, r);
    assert RowOk(s.invoices[id]);
    hide Inv;
    hide Recorded;
    hide NumberOf;
    hide SlotTaken;
    SameTextIff(seen.docType, row.docType, row.sequence.value, seen.year, row.year);
    hide FormatNumber;
    hide NumberPrefix;
  }

  /** Whatever was read, a correction keeps its number at issue exactly when the reading leads to the same sequence and
      text; and a text written from the document itself is met exactly by the same prefix and year. */
  lemma IssueKeepsNumberIff(s: Store, id: int, seen: Invoice, r: IssueRequest)
    requires Inv(s) && Issue(s, id, seen, r) != s && id in s.invoices && IsCorrection(s.invoices[id])
    ensures var kept := s.invoices[id];
            && (NumberKept(s, Issue(s, id, seen, r), id) <==>
                  && NumberOf(s, seen) == kept.sequence.value
                  && FormatNumber(seen.docType, kept.sequence.value, seen.year) == kept.number)
            && (NumberWritten(kept) ==>
                  (FormatNumber(seen.docType, kept.sequence.value, seen.year) == kept.number <==>
                     NumberPrefix(seen.docType) == NumberPrefix(kept.docType) && seen.year == kept.year))
  {
    hide Issue;
    var row := IssueRow(s, id, seen, r);
    var before := s.invoices[id];
    assert RowOk(before);
    hide Inv;
    hide Recorded;
    hide NumberOf;
    hide SlotTaken;
    SameTextIff(seen.docType, before.docType, before.sequence.value, seen.year, before.year);
    hide FormatNumber;
    hide NumberPrefix;
  }

  /** Otherwise the old number is nobody's: it stays in its series exactly when the reading leads to it. */
  lemma OldNumberStaysIff(s: Store, id: int, seen: Invoice, r: IssueRequest)
    requires Inv(s) && Issue(s, id, seen, r) != s && id in s.invoices && IsCorrection(s.invoices[id])
    ensures var kept := s.invoices[id];
            HasNumber(Issue(s, id, seen, r), kept.year, kept.docType, kept.sequence.value)
            <==> NumberOf(s, seen) == kept.sequence.value
  {
    hide Issue;
    var row := IssueRow(s, id, seen, r);
    var kept := s.invoices[id];
    assert SlotsUnique(s);
    hide Inv;
    hide Recorded;
    hide NumberOf;
    hide SlotTaken;
    hide FormatNumber;
    var after := s.(invoices := s.invoices[id := row]);
    assert after.invoices[id] == row;
    forall other | other in s.invoices && other != id
      ensures !(InSeries(s.invoices[other], kept.year, kept.docType)
                && s.invoices[other].sequence.value == kept.sequence.value)
    {
      assert !SameSlot(kept, s.invoices[other]);
    }
    if NumberOf(s, seen) == kept.sequence.value {
      assert InSeries(after.invoices[id], kept.year, kept.docType);
    }
  }

  /** Whatever was read, an issue keeps the series without gaps exactly when the reading leads to the number that the
      draft as it is would take; a series with imported documents has no promise to keep. */
  lemma IssueKeepsNoGapsIff(s: Store, id: int, seen: Invoice, r: IssueRequest)
    requires Inv(s) && NoGaps(s) && Issue(s, id, seen, r) != s
    ensures id in s.invoices
    ensures NoGaps(Issue(s, id, seen, r)) <==>
      HasImports(s, s.invoices[id].year, s.invoices[id].docType) || NumberOf(s, seen) == NumberOf(s, s.invoices[id])
  {
    hide Issue;
    var row := IssueRow(s, id, seen, r);
    var before := s.invoices[id];
    assert RowOk(before);
    hide Inv;
    hide Recorded;
    hide FormatNumber;
    hide RowOk;
    if NumberOf(s, seen) == NumberOf(s, before) {
      IssueKeepsNoGaps(s, id, row);
    } else if HasImports(s, before.year, before.docType) {
      ImportsCoverGaps(s, id, row);
    } else {
      OtherNumberLeavesGap(s, id, row);
    }
    hide NoGaps;
    hide HasImports;
    hide NumberOf;
  }

  lemma ImportsCoverGaps(s: Store, id: int, row: Invoice)
    requires NoGaps(s) && id in s.invoices && !s.invoices[id].imported && SameDraft(s.invoices[id], row)
    requires HasImports(s, row.year, row.docType)
    ensures NoGaps(s.(invoices := s.invoices[id := row]))
  {
    var after := s.(invoices := s.invoices[id := row]);
    forall y: int, d: DocType
      ensures HasImports(s, y, d) ==> HasImports(after, y, d)
    {
      if HasImports(s, y, d) {
        var i :| i in s.invoices && ImportedIn(s.invoices[i], y, d);
        assert after.invoices[i] == s.invoices[i];
      }
    }
    forall y: int, d: DocType, k: int | y != row.year || d != row.docType
      ensures HasNumber(after, y, d, k) <==> HasNumber(s, y, d, k)
    {
      OtherSeriesKeeps(s, id, row, y, d, k);
    }
    hide HasNumber;
    hide HasImports;
  }

  lemma OtherSeriesKeeps(s: Store, id: int, row: Invoice, y: int, d: DocType, k: int)
    requires id in s.invoices && SameDraft(s.invoices[id], row) && (y != row.year || d != row.docType)
    ensures HasNumber(s.(invoices := s.invoices[id := row]), y, d, k) <==> HasNumber(s, y, d, k)
  {
    var after := s.(invoices := s.invoices[id := row]);
    if HasNumber(s, y, d, k) {
      var i :| i in s.invoices && InSeries(s.invoices[i], y, d) && s.invoices[i].sequence.value == k;
      assert after.invoices[i] == s.invoices[i];
    }
    if HasNumber(after, y, d, k) {
      var i :| i in after.invoices && InSeries(after.invoices[i], y, d) && after.invoices[i].sequence.value == k;
      assert after.invoices[i] == s.invoices[i];
    }
  }

  lemma OtherNumberLeavesGap(s: Store, id: int, row: Invoice)
    requires NoGaps(s) && SlotsUnique(s) && id in s.invoices && !s.invoices[id].imported
             && SameDraft(s.invoices[id], row)
    requires !HasImports(s, row.year, row.docType) && row.sequence.Some? && !SlotTaken(s.invoices, id, row)
    requires row.sequence.value != NumberOf(s, s.invoices[id])
    ensures !NoGaps(s.(invoices := s.invoices[id := row]))
  {
    var before, after := s.invoices[id], s.(invoices := s.invoices[id := row]);
    var y, d, m, w := row.year, row.docType, row.sequence.value, NumberOf(s, before);
    assert after.invoices[id] == row && InSeries(after.invoices[id], y, d);
    assert HasNumber(after, y, d, m);
    assert before.sequence.Some? ==> InSeries(before, y, d) && HasNumber(s, y, d, w);
    NoImportsAfter(s, id, row);
    LastOfSeries(s, y, d);
    NumberMissing(s, id, row);
    assert before.sequence != row.sequence;
    hide HasImports;
    hide LastSequence;
    hide SlotsUnique;
    if HasNumber(s, y, d, m) {
      TakenByOther(s, id, row);
    }
    hide HasNumber;
    hide SlotTaken;
    hide SameDraft;
    assert w >= 1;
    assert 1 <= m < w ==> HasNumber(s, y, d, m);
  }

  lemma NoImportsAfter(s: Store, id: int, row: Invoice)
    requires id in s.invoices && !s.invoices[id].imported && SameDraft(s.invoices[id], row)
             && !HasImports(s, row.year, row.docType)
    ensures !HasImports(s.(invoices := s.invoices[id := row]), row.year, row.docType)
  {
    var after := s.(invoices := s.invoices[id := row]);
    forall i | i in after.invoices
      ensures !ImportedIn(after.invoices[i], row.year, row.docType)
    {
      assert i in s.invoices && !ImportedIn(s.invoices[i], row.year, row.docType);
    }
  }

  lemma NumberMissing(s: Store, id: int, row: Invoice)
    requires SlotsUnique(s) && id in s.invoices && SameDraft(s.invoices[id], row) && row.sequence.Some?
    requires row.sequence.value != NumberOf(s, s.invoices[id])
    ensures !HasNumber(s.(invoices := s.invoices[id := row]), row.year, row.docType, NumberOf(s, s.invoices[id]))
  {
    var before, after := s.invoices[id], s.(invoices := s.invoices[id := row]);
    var w := NumberOf(s, before);
    forall other | other in s.invoices && other != id
      ensures !(InSeries(after.invoices[other], row.year, row.docType) && after.invoices[other].sequence.value == w)
    {
      assert after.invoices[other] == s.invoices[other];
      assert before.sequence.Some? ==> !SameSlot(before, s.invoices[other]);
      assert InSeries(s.invoices[other], row.year, row.docType) && before.sequence.None? ==>
             s.invoices[other].sequence.value < w;
    }
    hide LastSequence;
  }

  lemma TakenByOther(s: Store, id: int, row: Invoice)
    requires id in s.invoices && row.sequence.Some? && s.invoices[id].sequence != row.sequence
    requires HasNumber(s, row.year, row.docType, row.sequence.value)
    ensures SlotTaken(s.invoices, id, row)
  {
  }

  /** The unique index keeps numbers apart even then. */
  lemma IssueNeverDuplicates(s: Store, id: int, seen: Invoice, r: IssueRequest)
    requires SlotsUnique(s)
    ensures SlotsUnique(Issue(s, id, seen, r))
  {
    hide FormatNumber;
    hide InvoiceFileName;
    hide NextSequenceOf;
    hide Recorded;
    hide NumberOf;
    hide MayIssue;
  }
}
