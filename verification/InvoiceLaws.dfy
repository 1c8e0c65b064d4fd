/** What every run of requests, events and receipts keeps. */
module InvoiceLaws {
  import opened Dates
  import opened FileNames
  import opened InvoiceStore
  import opened Wrappers

  // ---------- The invariant ----------

  predicate RowOk(i: Invoice) {
    && i.year == YearOf(i.date)
    && (i.status == Draft ==> i.fileName.None? && !i.imported)
    && (i.status != Draft ==> i.sequence.Some? && i.fileName.Some?)
  }

  ghost predicate RowsOk(s: Store) {
    forall id :: id in s.invoices ==> id < s.nextInvoice && RowOk(s.invoices[id])
  }

  predicate SameSlot(a: Invoice, b: Invoice) {
    a.sequence.Some? && b.sequence == a.sequence && a.year == b.year && a.docType == b.docType
  }

  /** No two documents of the same year and type have the same sequence. */
  ghost predicate SlotsUnique(s: Store) {
    forall a, b :: a in s.invoices && b in s.invoices && a != b ==> !SameSlot(s.invoices[a], s.invoices[b])
  }

  ghost predicate NamesUnique(s: Store) {
    forall a, b :: a in s.invoices && b in s.invoices && a != b && s.invoices[a].fileName.Some? ==>
      s.invoices[a].fileName != s.invoices[b].fileName
  }

  ghost predicate TransmissionsOk(s: Store) {
    forall t :: t in s.transmissions ==>
      && t < s.nextTransmission
      && s.transmissions[t].invoiceId in s.invoices
      && s.invoices[s.transmissions[t].invoiceId].sequence.Some?
  }

  /** The last transmission of a file has an outcome of SDI. */
  ghost predicate SettledFile(s: Store, fileName: string) {
    exists t :: IsLatest(s, t, fileName) && HasOutcome(s.transmissions[t])
  }

  ghost predicate Settled(s: Store) {
    forall id :: id in s.invoices && IsOutcome(s.invoices[id].status) ==>
      s.invoices[id].fileName.Some? && SettledFile(s, s.invoices[id].fileName.value)
  }

  /** Whatever a draft or invoice replaces is rejected, not imported, and replaced by it alone. */
  ghost predicate LinksOk(s: Store) {
    && (forall id :: id in s.invoices && s.invoices[id].replacesId.Some? ==>
          var r := s.invoices[id].replacesId.value;
          r in s.invoices && s.invoices[r].status == Rejected && !s.invoices[r].imported)
    && (forall a, b :: a in s.invoices && b in s.invoices && a != b && s.invoices[a].replacesId.Some? ==>
          s.invoices[a].replacesId != s.invoices[b].replacesId)
  }

  predicate ImportedIn(i: Invoice, year: int, docType: DocType) { InSeries(i, year, docType) && i.imported }

  ghost predicate HasImports(s: Store, year: int, docType: DocType) {
    exists id :: id in s.invoices && ImportedIn(s.invoices[id], year, docType)
  }

  ghost predicate HasNumber(s: Store, year: int, docType: DocType, k: int) {
    exists id :: id in s.invoices && InSeries(s.invoices[id], year, docType) && s.invoices[id].sequence.value == k
  }

  /** A number of a series without imported documents is positive and all the smaller ones are taken. */
  ghost predicate NoGaps(s: Store) {
    forall year: int, docType: DocType, n: int ::
      !HasImports(s, year, docType) && HasNumber(s, year, docType, n) ==>
        n >= 1 && forall k :: 1 <= k <= n ==> HasNumber(s, year, docType, k)
  }

  /** What every step keeps, also an issue that acts on an old reading of the draft. */
  ghost predicate Inv(s: Store) {
    RowsOk(s) && SlotsUnique(s) && NamesUnique(s) && TransmissionsOk(s) && Settled(s) && LinksOk(s)
  }

  /** The number of a document issued here is written from its own type, sequence and year. */
  predicate NumberWritten(i: Invoice) {
    i.sequence.Some? && !i.imported ==> i.number == FormatNumber(i.docType, i.sequence.value, i.year)
  }

  ghost predicate NumbersWritten(s: Store) {
    forall id :: id in s.invoices ==> NumberWritten(s.invoices[id])
  }

  /** What every step keeps when issues act on the draft as it is. */
  ghost predicate Exact(s: Store) {
    NoGaps(s) && NumbersWritten(s)
  }

  /** Everything about an invoice but its status. */
  predicate SameDocument(a: Invoice, b: Invoice) {
    && a.docType == b.docType && a.year == b.year && a.date == b.date && a.sequence == b.sequence
    && a.number == b.number
    && a.replacesId == b.replacesId && a.fileName == b.fileName && a.imported == b.imported
  }

  ghost predicate SameDocuments(a: Store, b: Store) {
    && a.invoices.Keys == b.invoices.Keys && a.nextInvoice == b.nextInvoice
    && forall id :: id in a.invoices ==> SameDocument(a.invoices[id], b.invoices[id])
  }

  lemma SameDocumentsKeep(a: Store, b: Store)
    requires SameDocuments(a, b)
    ensures SlotsUnique(a) ==> SlotsUnique(b)
    ensures NamesUnique(a) ==> NamesUnique(b)
    ensures NoGaps(a) ==> NoGaps(b)
  {
    forall year: int, docType: DocType
      ensures HasImports(a, year, docType) <==> HasImports(b, year, docType)
    {
      if HasImports(a, year, docType) {
        var id :| id in a.invoices && ImportedIn(a.invoices[id], year, docType);
        assert ImportedIn(b.invoices[id], year, docType);
      }
      if HasImports(b, year, docType) {
        var id :| id in b.invoices && ImportedIn(b.invoices[id], year, docType);
        assert ImportedIn(a.invoices[id], year, docType);
      }
    }
    forall year: int, docType: DocType, k: int
      ensures HasNumber(a, year, docType, k) <==> HasNumber(b, year, docType, k)
    {
      if HasNumber(a, year, docType, k) {
        var id :| id in a.invoices && InSeries(a.invoices[id], year, docType) && a.invoices[id].sequence.value == k;
        assert InSeries(b.invoices[id], year, docType);
      }
      if HasNumber(b, year, docType, k) {
        var id :| id in b.invoices && InSeries(b.invoices[id], year, docType) && b.invoices[id].sequence.value == k;
        assert InSeries(a.invoices[id], year, docType);
      }
    }
    hide HasImports;
    hide HasNumber;
  }

  // ---------- Transmissions and receipts ----------

  ghost predicate MoveAllowed(s: Store, t: int, status: TransmissionStatus, e: Effect) {
    && t in s.transmissions && !HasOutcome(s.transmissions[t])
    && (e.SetOutcome? ==>
          IsOutcome(e.status) && HasOutcome(s.transmissions[t].(status := status))
            && IsLatest(s, t, s.transmissions[t].fileName))
  }

  lemma MoveKeepsDocuments(s: Store, t: int, status: TransmissionStatus, e: Effect)
    requires RowsOk(s) && MoveAllowed(s, t, status, e)
    ensures SameDocuments(s, Move(s, t, status, e))
    ensures RowsOk(Move(s, t, status, e))
    ensures TransmissionsOk(s) ==> TransmissionsOk(Move(s, t, status, e))
  {
    hide YearOf;
    hide FormatNumber;
  }

  /** Among invoices with an outcome a move leaves all statuses alone, except that of the file it settles. */
  lemma MoveKeepsOutcomes(s: Store, t: int, status: TransmissionStatus, e: Effect, id: int)
    requires RowsOk(s) && NamesUnique(s) && Settled(s) && MoveAllowed(s, t, status, e)
    requires id in s.invoices && IsOutcome(s.invoices[id].status)
    ensures Move(s, t, status, e).invoices[id] == s.invoices[id]
  {
    hide YearOf;
    hide FormatNumber;
    var tr := s.transmissions[t];
    assert SettledFile(s, s.invoices[id].fileName.value);
    if e.SetOutcome? && s.invoices[id].fileName == Some(tr.fileName) {
      assert false;
    }
  }

  lemma MoveKeepsLatest(s: Store, t: int, status: TransmissionStatus, e: Effect, fileName: string)
    requires MoveAllowed(s, t, status, e)
    ensures SettledFile(s, fileName) ==> SettledFile(Move(s, t, status, e), fileName)
    ensures e.SetOutcome? ==> SettledFile(Move(s, t, status, e), s.transmissions[t].fileName)
  {
    var after := Move(s, t, status, e);
    if SettledFile(s, fileName) {
      var u :| IsLatest(s, u, fileName) && HasOutcome(s.transmissions[u]);
      assert u != t;
      assert IsLatest(after, u, fileName) && HasOutcome(after.transmissions[u]);
    }
    if e.SetOutcome? {
      assert IsLatest(after, t, s.transmissions[t].fileName) && HasOutcome(after.transmissions[t]);
    }
  }

  lemma MoveKeepsInv(s: Store, t: int, status: TransmissionStatus, e: Effect)
    requires Inv(s) && MoveAllowed(s, t, status, e)
    ensures Inv(Move(s, t, status, e))
  {
    var after := Move(s, t, status, e);
    hide Move;
    MoveKeepsDocuments(s, t, status, e);
    SameDocumentsKeep(s, after);
    hide SlotsUnique;
    hide NoGaps;
    hide RowOk;
    MoveKeepsSettled(s, t, status, e);
    MoveKeepsLinks(s, t, status, e);
    hide NamesUnique;
    hide TransmissionsOk;
    hide RowsOk;
    hide Settled;
    hide LinksOk;
    hide SameDocuments;
  }

  lemma MoveKeepsLinks(s: Store, t: int, status: TransmissionStatus, e: Effect)
    requires Inv(s) && MoveAllowed(s, t, status, e)
    ensures LinksOk(Move(s, t, status, e))
  {
    var after := Move(s, t, status, e);
    MoveKeepsDocuments(s, t, status, e);
    forall id | id in s.invoices && IsOutcome(s.invoices[id].status)
      ensures after.invoices[id] == s.invoices[id]
    {
      MoveKeepsOutcomes(s, t, status, e, id);
      hide *;
    }
    hide Inv;
    hide Move;
    hide MoveAllowed;
    LinksKept(s, after);
  }

  /** Links stay as long as documents do and what is rejected stays so. */
  lemma LinksKept(a: Store, b: Store)
    requires LinksOk(a) && SameDocuments(a, b)
    requires forall id :: id in a.invoices && a.invoices[id].status == Rejected ==> b.invoices[id].status == Rejected
    ensures LinksOk(b)
  {
  }

  lemma MoveKeepsSettled(s: Store, t: int, status: TransmissionStatus, e: Effect)
    requires RowsOk(s) && Settled(s) && MoveAllowed(s, t, status, e)
    ensures Settled(Move(s, t, status, e))
  {
    var after := Move(s, t, status, e);
    hide RowOk;
    hide SettledFile;
    var tr := s.transmissions[t];
    MoveKeepsDocuments(s, t, status, e);
    forall id | id in after.invoices && IsOutcome(after.invoices[id].status)
      ensures after.invoices[id].fileName.Some? && SettledFile(after, after.invoices[id].fileName.value)
    {
      if IsOutcome(s.invoices[id].status) {
        MoveKeepsLatest(s, t, status, e, s.invoices[id].fileName.value);
      } else {
        MoveKeepsLatest(s, t, status, e, tr.fileName);
      }
    }
  }

  lemma AddTransmissionKeepsInv(s: Store, id: int, fileName: string, status: TransmissionStatus)
    requires Inv(s) && IsCurrent(s.invoices, id, fileName) && !IsOutcome(s.invoices[id].status)
    ensures Inv(AddTransmission(s, id, fileName, status))
    ensures IsLatest(AddTransmission(s, id, fileName, status), s.nextTransmission, fileName)
  {
    var after := AddTransmission(s, id, fileName, status);
    hide YearOf;
    hide FormatNumber;
    assert RowOk(s.invoices[id]);
    hide RowOk;
    AddTransmissionKeepsSettled(s, id, fileName, status);
    SameDocumentsKeep(s, after);
    LinksKept(s, after);
    hide LinksOk;
    hide SlotsUnique;
    hide NamesUnique;
    hide NoGaps;
    hide Settled;
  }

  lemma AddTransmissionKeepsSettled(s: Store, id: int, fileName: string, status: TransmissionStatus)
    requires TransmissionsOk(s) && NamesUnique(s) && Settled(s)
    requires IsCurrent(s.invoices, id, fileName) && !IsOutcome(s.invoices[id].status)
    ensures Settled(AddTransmission(s, id, fileName, status))
  {
    var after := AddTransmission(s, id, fileName, status);
    forall other | other in after.invoices && IsOutcome(after.invoices[other].status)
      ensures after.invoices[other].fileName.Some? && SettledFile(after, after.invoices[other].fileName.value)
    {
      var f := s.invoices[other].fileName.value;
      var u :| IsLatest(s, u, f) && HasOutcome(s.transmissions[u]);
      assert f != fileName;
      assert IsLatest(after, u, f) && HasOutcome(after.transmissions[u]);
    }
  }

  lemma SendKeepsInv(s: Store, id: int, fileName: string)
    requires Inv(s)
    ensures Inv(Send(s, id, fileName))
  {
    if MayClaim(s.invoices, id, fileName) && !s.invoices[id].imported {
      var claimed := s.(invoices := ApplyEffect(s.invoices, id, fileName, Claim));
      ClaimKeepsInv(s, id, fileName);
      hide Inv;
      AddTransmissionKeepsInv(claimed, id, fileName, Pending);
    }
  }

  lemma ClaimKeepsInv(s: Store, id: int, fileName: string)
    requires Inv(s) && MayClaim(s.invoices, id, fileName)
    ensures Inv(s.(invoices := ApplyEffect(s.invoices, id, fileName, Claim)))
  {
    var row := s.invoices[id].(status := Sent);
    var after := s.(invoices := s.invoices[id := row]);
    assert after == s.(invoices := ApplyEffect(s.invoices, id, fileName, Claim));
    ClaimedRowOk(s, id);
    hide RowOk;
    hide ApplyEffect;
    hide RowsOk;
    hide SlotsUnique;
    hide NamesUnique;
    hide TransmissionsOk;
    hide Settled;
    hide LinksOk;
    hide NoGaps;
    RowReplaced(s, id, row);
    SameRow(s, id, row);
    hide SameDocuments;
    SameDocumentsKeep(s, after);
    AddRowKeepsSettled(s, after);
    LinksKept(s, after);
  }

  lemma ClaimedRowOk(s: Store, id: int)
    requires RowsOk(s) && id in s.invoices && s.invoices[id].status == Issued
    ensures RowOk(s.invoices[id].(status := Sent))
  {
    assert RowOk(s.invoices[id]);
    hide RowsOk;
    hide YearOf;
  }

  lemma SameRow(s: Store, id: int, row: Invoice)
    requires id in s.invoices && SameDocument(s.invoices[id], row)
    ensures SameDocuments(s, s.(invoices := s.invoices[id := row]))
  {
  }

  /** A row may be rewritten as long as it is in order and keeps its number. */
  lemma RowReplaced(s: Store, id: int, row: Invoice)
    requires RowsOk(s) && TransmissionsOk(s) && id in s.invoices
    requires RowOk(row) && (s.invoices[id].sequence.Some? ==> row.sequence.Some?)
    ensures RowsOk(s.(invoices := s.invoices[id := row])) && TransmissionsOk(s.(invoices := s.invoices[id := row]))
  {
    hide RowOk;
  }

  lemma SdiStepKeepsInv(s: Store, t: int, fileName: string, r: ReceiptType, day: Option<Day>)
    requires Inv(s) && IsLatest(s, t, fileName)
    ensures Inv(SdiStep(s, t, r, day))
  {
    hide Inv;
    if !HasOutcome(s.transmissions[t]) {
      MoveKeepsInv(s, t, OutcomeOf(r), SetOutcome(StatusOf(r), if r == NS then None else day));
    }
  }

  lemma UploadCases(s: Store, fileName: string, r: ReceiptType, day: Option<Day>, alreadyRecorded: bool,
                    remembered: Option<ReceiptType>)
    ensures var after := UploadedReceipt(s, fileName, r, day, alreadyRecorded, remembered);
            || after == s
            || (exists t :: IsLatest(s, t, fileName) && after == SdiStep(s, t, r, day))
            || ((forall t :: !IsLatest(s, t, fileName))
                && (exists id ::
                      IsCurrent(s.invoices, id, fileName)
                      && after == SdiStep(AddTransmission(s, id, fileName, InTransit), s.nextTransmission, r, day)))
  {
    hide KnownOutcome;
    hide IsLatest;
    hide SdiStep;
    hide AddTransmission;
  }

  lemma UploadKeepsInv(s: Store, fileName: string, r: ReceiptType, day: Option<Day>, alreadyRecorded: bool,
                       remembered: Option<ReceiptType>)
    requires Inv(s)
    ensures Inv(UploadedReceipt(s, fileName, r, day, alreadyRecorded, remembered))
  {
    UploadCases(s, fileName, r, day, alreadyRecorded, remembered);
    var after := UploadedReceipt(s, fileName, r, day, alreadyRecorded, remembered);
    hide Inv;
    hide SdiStep;
    hide UploadedReceipt;
    hide AddTransmission;
    hide IsLatest;
    if exists t :: IsLatest(s, t, fileName) && after == SdiStep(s, t, r, day) {
      var t :| IsLatest(s, t, fileName) && after == SdiStep(s, t, r, day);
      SdiStepKeepsInv(s, t, fileName, r, day);
    } else if after != s {
      var id :| IsCurrent(s.invoices, id, fileName)
        && after == SdiStep(AddTransmission(s, id, fileName, InTransit), s.nextTransmission, r, day);
      UnsentHasNoOutcome(s, id, fileName);
      AddTransmissionKeepsInv(s, id, fileName, InTransit);
      SdiStepKeepsInv(AddTransmission(s, id, fileName, InTransit), s.nextTransmission, fileName, r, day);
    }
  }

  lemma UnsentHasNoOutcome(s: Store, id: int, fileName: string)
    requires Inv(s) && IsCurrent(s.invoices, id, fileName) && forall t :: !IsLatest(s, t, fileName)
    ensures !IsOutcome(s.invoices[id].status)
  {
    assert Settled(s);
    hide Inv;
    hide IsLatest;
  }

  // ---------- Requests ----------

  lemma CreateKeepsInv(s: Store, docType: DocType, date: Day, link: Option<int>)
    requires Inv(s) && (link.Some? ==> MayCorrect(s, link.value))
    ensures Inv(Create(s, docType, date, link))
  {
    var after := Create(s, docType, date, link);
    AddDraftKeepsRows(s, after, NewDraft(docType, date, link));
    AddDraftKeepsLinks(s, after, NewDraft(docType, date, link));
    hide *;
    assert Inv(after) by { InvOfParts(after); }
  }

  lemma InvOfParts(s: Store)
    requires RowsOk(s) && SlotsUnique(s) && NamesUnique(s) && TransmissionsOk(s) && Settled(s) && LinksOk(s)
    ensures Inv(s)
  {
  }

  lemma AddDraftKeepsRows(s: Store, after: Store, draft: Invoice)
    requires Inv(s) && draft.status == Draft && draft.sequence.None? && draft.fileName.None? && RowOk(draft)
    requires after == s.(invoices := s.invoices[s.nextInvoice := draft], nextInvoice := s.nextInvoice + 1)
    ensures RowsOk(after) && NamesUnique(after) && TransmissionsOk(after) && Settled(after)
    ensures SlotsUnique(after)
  {
    hide RowOk;
    assert s.nextInvoice !in s.invoices;
    RowAdded(s, after, draft);
    hide RowsOk;
    hide SlotsUnique;
    hide NamesUnique;
    hide TransmissionsOk;
    hide Settled;
    hide LinksOk;
    hide NoGaps;
    AddRowKeepsSettled(s, after);
    DraftKeepsNumbers(s, after);
  }

  lemma RowAdded(s: Store, after: Store, draft: Invoice)
    requires RowsOk(s) && NamesUnique(s) && TransmissionsOk(s) && draft.fileName.None? && RowOk(draft)
    requires after == s.(invoices := s.invoices[s.nextInvoice := draft], nextInvoice := s.nextInvoice + 1)
    ensures RowsOk(after) && NamesUnique(after) && TransmissionsOk(after)
  {
    hide RowOk;
  }

  lemma AddDraftKeepsLinks(s: Store, after: Store, draft: Invoice)
    requires RowsOk(s) && LinksOk(s) && (draft.replacesId.Some? ==> MayCorrect(s, draft.replacesId.value))
             && draft.status == Draft
    requires after == s.(invoices := s.invoices[s.nextInvoice := draft], nextInvoice := s.nextInvoice + 1)
    ensures LinksOk(after)
  {
    hide RowOk;
  }

  /** Rows added or removed that carry no sequence. */
  ghost predicate SameNumbered(a: Store, b: Store) {
    && (forall id :: id in a.invoices && a.invoices[id].sequence.Some? ==>
        id in b.invoices && b.invoices[id] == a.invoices[id])
    && (forall id :: id in b.invoices && b.invoices[id].sequence.Some? ==>
        id in a.invoices && b.invoices[id] == a.invoices[id])
  }

  lemma DraftKeepsNumbers(a: Store, b: Store)
    requires SameNumbered(a, b)
    ensures SlotsUnique(a) ==> SlotsUnique(b)
    ensures NoGaps(a) ==> NoGaps(b)
  {
    forall year: int, docType: DocType
      ensures HasImports(a, year, docType) <==> HasImports(b, year, docType)
    {
    }
    forall year: int, docType: DocType, k: int
      ensures HasNumber(a, year, docType, k) <==> HasNumber(b, year, docType, k)
    {
    }
    hide HasImports;
    hide HasNumber;
  }

  lemma AddRowKeepsSettled(s: Store, after: Store)
    requires after.transmissions == s.transmissions && Settled(s)
    requires forall id :: id in after.invoices && IsOutcome(after.invoices[id].status) ==>
             id in s.invoices && after.invoices[id] == s.invoices[id]
    ensures Settled(after)
  {
    forall id | id in after.invoices && IsOutcome(after.invoices[id].status)
      ensures after.invoices[id].fileName.Some? && SettledFile(after, after.invoices[id].fileName.value)
    {
      var f := s.invoices[id].fileName.value;
      var u :| IsLatest(s, u, f) && HasOutcome(s.transmissions[u]);
      assert IsLatest(after, u, f);
    }
  }

  /** An update rewrites a draft, and leaves a correction as it is. */
  lemma UpdatedDraft(s: Store, id: int, docType: DocType, date: Day) returns (row: Invoice)
    requires MayUpdate(s, id, docType, date) && RowOk(s.invoices[id])
    ensures Update(s, id, docType, date) == s.(invoices := s.invoices[id := row])
    ensures IsRewritten(s.invoices[id], row)
  {
    hide YearOf;
    row := s.invoices[id].(docType := docType, date := date, year := YearOf(date));
  }

  predicate IsRewritten(draft: Invoice, row: Invoice) {
    && draft.status == Draft && RowOk(row)
    && row.status == Draft && row.fileName.None? && row.replacesId == draft.replacesId && row.sequence == draft.sequence
    && (row.sequence.Some? ==> row == draft)
  }

  lemma UpdateKeepsInv(s: Store, id: int, docType: DocType, date: Day)
    requires Inv(s)
    ensures Inv(Update(s, id, docType, date))
  {
    if MayUpdate(s, id, docType, date) {
      assert RowOk(s.invoices[id]);
      var row := UpdatedDraft(s, id, docType, date);
      RewrittenKeepsInv(s, id, row);
      hide *;
    }
  }

  lemma RewrittenKeepsInv(s: Store, id: int, row: Invoice)
    requires Inv(s) && id in s.invoices && IsRewritten(s.invoices[id], row)
    ensures Inv(s.(invoices := s.invoices[id := row]))
  {
    var after := s.(invoices := s.invoices[id := row]);
    hide RowsOk;
    hide SlotsUnique;
    hide NamesUnique;
    hide TransmissionsOk;
    hide Settled;
    hide LinksOk;
    hide NoGaps;
    hide RowOk;
    RowReplaced(s, id, row);
    AddRowKeepsSettled(s, after);
    DraftKeepsNumbers(s, after);
    RewrittenKeepsLinks(s, id, row);
  }

  lemma RewrittenKeepsLinks(s: Store, id: int, row: Invoice)
    requires LinksOk(s) && NamesUnique(s) && id in s.invoices && IsRewritten(s.invoices[id], row)
    ensures LinksOk(s.(invoices := s.invoices[id := row])) && NamesUnique(s.(invoices := s.invoices[id := row]))
  {
    hide RowOk;
  }

  lemma RemoveKeepsInv(s: Store, id: int)
    requires Inv(s)
    ensures Inv(Remove(s, id))
  {
    if MayRemove(s, id) {
      var after := Remove(s, id);
      RemoveOnlyDrops(s, id);
      hide Remove;
      RowDropped(s, id, after);
      hide RowsOk;
      hide SlotsUnique;
      hide NamesUnique;
      hide TransmissionsOk;
      hide Settled;
      hide LinksOk;
      hide NoGaps;
      AddRowKeepsSettled(s, after);
      DraftKeepsNumbers(s, after);
    }
  }

  lemma RowDropped(s: Store, id: int, after: Store)
    requires RowsOk(s) && NamesUnique(s) && TransmissionsOk(s) && LinksOk(s)
    requires id in s.invoices && s.invoices[id].sequence.None? && s.invoices[id].status == Draft
    requires after == s.(invoices := s.invoices - {id})
    ensures RowsOk(after) && NamesUnique(after) && TransmissionsOk(after) && LinksOk(after)
  {
    hide RowOk;
  }

  lemma RemoveOnlyDrops(s: Store, id: int)
    requires TransmissionsOk(s) && LinksOk(s) && MayRemove(s, id)
    ensures var after := Remove(s, id);
            && after.invoices == s.invoices - {id} && after.transmissions == s.transmissions
            && after.nextInvoice == s.nextInvoice && after.nextTransmission == s.nextTransmission
  {
    var after := Remove(s, id);
    assert forall t :: t in s.transmissions ==> s.transmissions[t].invoiceId != id;
    assert after.transmissions.Keys == s.transmissions.Keys;
    assert after.invoices.Keys == s.invoices.Keys - {id};
  }

  lemma ReopenKeepsInv(s: Store, id: int)
    requires Inv(s)
    ensures Inv(ReopenForCorrection(s, id))
  {
    var after := ReopenForCorrection(s, id);
    if MayCorrect(s, id) {
      ReopenKeepsRows(s, id);
      ReopenKeepsNumbers(s, id);
      ReopenKeepsLinks(s, id);
      hide *;
      InvOfParts(after);
    }
  }

  lemma ReopenKeepsRows(s: Store, id: int)
    requires RowsOk(s) && TransmissionsOk(s) && Settled(s) && MayCorrect(s, id)
    ensures var after := ReopenForCorrection(s, id);
            RowsOk(after) && TransmissionsOk(after) && Settled(after)
  {
    var row := s.invoices[id].(status := Draft, fileName := None, deliveredOn := None);
    ReopenedRowOk(s, id);
    hide RowOk;
    hide RowsOk;
    hide TransmissionsOk;
    hide Settled;
    hide IsReplaced;
    RowReplaced(s, id, row);
    AddRowKeepsSettled(s, ReopenForCorrection(s, id));
  }

  lemma ReopenKeepsNumbers(s: Store, id: int)
    requires SlotsUnique(s) && MayCorrect(s, id)
    ensures SlotsUnique(ReopenForCorrection(s, id))
  {
    hide SlotsUnique;
    hide IsReplaced;
    NumbersKept(s, ReopenForCorrection(s, id));
  }

  lemma ReopenedRowOk(s: Store, id: int)
    requires RowsOk(s) && MayCorrect(s, id)
    ensures RowOk(s.invoices[id].(status := Draft, fileName := None, deliveredOn := None))
  {
    assert RowOk(s.invoices[id]);
    hide RowsOk;
    hide YearOf;
    hide IsReplaced;
  }

  lemma ReopenKeepsLinks(s: Store, id: int)
    requires LinksOk(s) && NamesUnique(s) && MayCorrect(s, id)
    ensures LinksOk(ReopenForCorrection(s, id)) && NamesUnique(ReopenForCorrection(s, id))
  {
    assert forall other :: other in s.invoices ==> s.invoices[other].replacesId != Some(id);
    hide IsReplaced;
  }

  /** The same documents with the same numbers; statuses and files may differ. */
  ghost predicate SameNumbers(a: Store, b: Store) {
    && a.invoices.Keys == b.invoices.Keys
    && forall id :: id in a.invoices ==>
         var x, y := a.invoices[id], b.invoices[id];
         x.docType == y.docType && x.year == y.year && x.sequence == y.sequence && x.imported == y.imported
  }

  lemma NumbersKept(a: Store, b: Store)
    requires SameNumbers(a, b)
    ensures SlotsUnique(a) ==> SlotsUnique(b)
    ensures NoGaps(a) ==> NoGaps(b)
  {
    forall year: int, docType: DocType
      ensures HasImports(a, year, docType) <==> HasImports(b, year, docType)
    {
      if HasImports(a, year, docType) {
        var id :| id in a.invoices && ImportedIn(a.invoices[id], year, docType);
        assert ImportedIn(b.invoices[id], year, docType);
      }
      if HasImports(b, year, docType) {
        var id :| id in b.invoices && ImportedIn(b.invoices[id], year, docType);
        assert ImportedIn(a.invoices[id], year, docType);
      }
    }
    forall year: int, docType: DocType, k: int
      ensures HasNumber(a, year, docType, k) <==> HasNumber(b, year, docType, k)
    {
      if HasNumber(a, year, docType, k) {
        var id :| id in a.invoices && InSeries(a.invoices[id], year, docType) && a.invoices[id].sequence.value == k;
        assert InSeries(b.invoices[id], year, docType);
      }
      if HasNumber(b, year, docType, k) {
        var id :| id in b.invoices && InSeries(b.invoices[id], year, docType) && b.invoices[id].sequence.value == k;
        assert InSeries(a.invoices[id], year, docType);
      }
    }
    hide HasImports;
    hide HasNumber;
  }

  lemma ImportKeepsInv(s: Store, docType: DocType, date: Day, number: string, sequence: nat, fileName: string)
    requires Inv(s)
    ensures Inv(Import(s, docType, date, number, sequence, fileName))
  {
    var after := Import(s, docType, date, number, sequence, fileName);
    if after != s {
      ImportKeepsRows(s, docType, date, number, sequence, fileName);
      ImportKeepsKeys(s, docType, date, number, sequence, fileName);
      ImportKeepsLinks(s, docType, date, number, sequence, fileName);
      hide *;
      InvOfParts(after);
    }
  }

  lemma ImportKeepsRows(s: Store, docType: DocType, date: Day, number: string, sequence: nat, fileName: string)
    requires RowsOk(s) && TransmissionsOk(s) && Settled(s)
    ensures var after := Import(s, docType, date, number, sequence, fileName);
            RowsOk(after) && TransmissionsOk(after) && Settled(after)
  {
    hide YearOf;
    hide MayImport;
    AddRowKeepsSettled(s, Import(s, docType, date, number, sequence, fileName));
    hide Settled;
  }

  lemma ImportKeepsLinks(s: Store, docType: DocType, date: Day, number: string, sequence: nat, fileName: string)
    requires LinksOk(s) && RowsOk(s)
    ensures LinksOk(Import(s, docType, date, number, sequence, fileName))
  {
    hide RowOk;
    hide YearOf;
    hide MayImport;
  }

  lemma ImportKeepsKeys(s: Store, docType: DocType, date: Day, number: string, sequence: nat, fileName: string)
    requires SlotsUnique(s) && NamesUnique(s) && RowsOk(s)
    ensures SlotsUnique(Import(s, docType, date, number, sequence, fileName))
    ensures NamesUnique(Import(s, docType, date, number, sequence, fileName))
  {
    hide RowOk;
    hide YearOf;
  }

  lemma ImportKeepsGaps(s: Store, docType: DocType, date: Day, number: string, sequence: nat, fileName: string)
    requires RowsOk(s) && NoGaps(s) && MayImport(s, docType, date, number, sequence, fileName)
    ensures NoGaps(Import(s, docType, date, number, sequence, fileName))
  {
    hide FormatNumber;
    hide YearOf;
    hide RowOk;
    var after := Import(s, docType, date, number, sequence, fileName);
    var id, row := s.nextInvoice, ImportedRow(docType, date, number, sequence, fileName);
    assert after.invoices[id] == row;
    forall y: int, d: DocType
      ensures HasImports(s, y, d) ==> HasImports(after, y, d)
    {
      if HasImports(s, y, d) {
        var i :| i in s.invoices && ImportedIn(s.invoices[i], y, d);
        assert after.invoices[i] == s.invoices[i];
      }
    }
    forall y: int, d: DocType, n: int | !HasImports(after, y, d) && HasNumber(after, y, d, n)
      ensures n >= 1 && forall k :: 1 <= k <= n ==> HasNumber(after, y, d, k)
    {
      assert !ImportedIn(row, y, d);
      var i :| i in after.invoices && InSeries(after.invoices[i], y, d) && after.invoices[i].sequence.value == n;
      assert i != id && s.invoices[i] == after.invoices[i];
      assert HasNumber(s, y, d, n);
      forall k | 1 <= k <= n
        ensures HasNumber(after, y, d, k)
      {
        assert HasNumber(s, y, d, k);
        var j :| j in s.invoices && InSeries(s.invoices[j], y, d) && s.invoices[j].sequence.value == k;
        assert after.invoices[j] == s.invoices[j];
      }
    }
  }

  /** The row an issue writes over a draft from a reading of it: the number of the reading, a name never recorded, and
      all the rest as the draft is now. */
  ghost predicate IsIssued(s: Store, id: int, seen: Invoice, row: Invoice) {
    && id in s.invoices && s.invoices[id].status == Draft && row.status == Issued
    && row.sequence == Some(NumberOf(s, seen)) && row.number == FormatNumber(seen.docType, NumberOf(s, seen), seen.year)
    && row.fileName.Some? && row.fileName.value !in Recorded(s)
    && !SlotTaken(s.invoices, id, row)
    && SameDraft(s.invoices[id], row)
  }

  /** What an issue leaves alone. */
  predicate SameDraft(before: Invoice, row: Invoice) {
    && row.docType == before.docType && row.year == before.year && row.date == before.date
    && row.replacesId == before.replacesId && row.imported == before.imported
  }

  lemma IssueRow(s: Store, id: int, seen: Invoice, r: IssueRequest) returns (row: Invoice)
    requires Issue(s, id, seen, r) != s
    ensures IsIssued(s, id, seen, row)
    ensures Issue(s, id, seen, r) == s.(invoices := s.invoices[id := row])
  {
    hide FormatNumber;
    hide InvoiceFileName;
    hide Recorded;
    hide NumberOf;
    hide NextSequenceOf;
    hide SlotTaken;
    row := Issue(s, id, seen, r).invoices[id];
    NextNameIsNew(Recorded(s), r.country, r.fiscalCode, r.start);
  }

  lemma IssueKeepsInv(s: Store, id: int, seen: Invoice, r: IssueRequest)
    requires Inv(s)
    ensures Inv(Issue(s, id, seen, r))
  {
    hide Issue;
    if Issue(s, id, seen, r) != s {
      var row := IssueRow(s, id, seen, r);
      IssuedRowKeepsInv(s, id, seen, row);
    }
  }

  lemma IssuedRowKeepsInv(s: Store, id: int, seen: Invoice, row: Invoice)
    requires Inv(s) && IsIssued(s, id, seen, row)
    ensures Inv(s.(invoices := s.invoices[id := row]))
  {
    var after := s.(invoices := s.invoices[id := row]);
    hide FormatNumber;
    hide YearOf;
    hide Recorded;
    hide NumberOf;
    hide SlotTaken;
    AddRowKeepsSettled(s, after);
    IssueKeepsSlots(s, id, row);
    IssueKeepsNames(s, id, row);
    hide SlotsUnique;
    hide NamesUnique;
    hide Settled;
    IssuedRowOk(s, id, seen, row);
    hide RowsOk;
    hide LinksOk;
    hide TransmissionsOk;
  }

  lemma IssuedRowOk(s: Store, id: int, seen: Invoice, row: Invoice)
    requires RowsOk(s) && LinksOk(s) && TransmissionsOk(s) && IsIssued(s, id, seen, row)
    ensures var after := s.(invoices := s.invoices[id := row]);
            RowsOk(after) && LinksOk(after) && TransmissionsOk(after)
  {
    hide *;
    IssuedInOrder(s, id, seen, row);
    RowReplaced(s, id, row);
    IssuedKeepsLinks(s, id, row);
  }

  lemma IssuedInOrder(s: Store, id: int, seen: Invoice, row: Invoice)
    requires RowsOk(s) && IsIssued(s, id, seen, row)
    ensures RowOk(row) && id in s.invoices && row.sequence.Some?
    ensures s.invoices[id].status == Draft && SameDraft(s.invoices[id], row)
  {
    assert RowOk(s.invoices[id]);
    hide RowsOk;
    hide YearOf;
    hide Recorded;
    hide NumberOf;
    hide SlotTaken;
  }

  lemma IssuedKeepsLinks(s: Store, id: int, row: Invoice)
    requires LinksOk(s) && id in s.invoices && s.invoices[id].status == Draft && SameDraft(s.invoices[id], row)
    ensures LinksOk(s.(invoices := s.invoices[id := row]))
  {
  }

  /** The unique index keeps sequences apart, whatever was read. */
  lemma IssueKeepsSlots(s: Store, id: int, row: Invoice)
    requires SlotsUnique(s) && id in s.invoices && row.sequence.Some? && !SlotTaken(s.invoices, id, row)
    ensures SlotsUnique(s.(invoices := s.invoices[id := row]))
  {
    var after := s.(invoices := s.invoices[id := row]);
    forall other | other in s.invoices && other != id
      ensures !SameSlot(row, s.invoices[other]) && !SameSlot(s.invoices[other], row)
    {
      assert InSeries(s.invoices[other], row.year, row.docType) ==> s.invoices[other].sequence != row.sequence;
    }
  }

  lemma IssueKeepsNames(s: Store, id: int, row: Invoice)
    requires NamesUnique(s) && id in s.invoices && row.fileName.Some? && row.fileName.value !in Recorded(s)
    ensures NamesUnique(s.(invoices := s.invoices[id := row]))
  {
    forall other | other in s.invoices && s.invoices[other].fileName.Some?
      ensures s.invoices[other].fileName != row.fileName
    {
      assert s.invoices[other].fileName.value in Recorded(s);
    }
    hide Recorded;
  }

  lemma IssueKeepsNoGaps(s: Store, id: int, row: Invoice)
    requires NoGaps(s) && id in s.invoices && !row.imported && SameDraft(s.invoices[id], row)
    requires row.sequence == Some(NumberOf(s, s.invoices[id]))
    ensures NoGaps(s.(invoices := s.invoices[id := row]))
  {
    hide LastSequence;
    var before, after := s.invoices[id], s.(invoices := s.invoices[id := row]);
    if before.sequence.Some? {
      NumbersKept(s, after);
    } else {
      IssueKeepsGaps(s, id, row);
    }
    hide NoGaps;
  }

  lemma IssueKeepsGaps(s: Store, id: int, row: Invoice)
    requires NoGaps(s) && id in s.invoices && s.invoices[id].sequence.None? && !row.imported
    requires row.sequence == Some(LastSequence(s.invoices, row.year, row.docType) + 1)
    ensures NoGaps(s.(invoices := s.invoices[id := row]))
  {
    var after := s.(invoices := s.invoices[id := row]);
    var last := LastSequence(s.invoices, row.year, row.docType);
    forall y: int, d: DocType, k: int
      ensures HasNumber(after, y, d, k)
              <==> HasNumber(s, y, d, k) || (y == row.year && d == row.docType && k == last + 1)
      ensures HasImports(s, y, d) ==> HasImports(after, y, d)
    {
      NumbersAfterIssue(s, id, row, last, y, d, k);
    }
    assert last > 0 ==> HasNumber(s, row.year, row.docType, last);
    if !HasImports(s, row.year, row.docType) {
      LastOfSeries(s, row.year, row.docType);
    }
    hide HasNumber;
    hide HasImports;
    hide LastSequence;
  }

  lemma LastOfSeries(s: Store, year: int, docType: DocType)
    requires NoGaps(s) && !HasImports(s, year, docType)
    ensures LastSequence(s.invoices, year, docType) >= 0
    ensures forall k :: 1 <= k <= LastSequence(s.invoices, year, docType) ==> HasNumber(s, year, docType, k)
  {
    var last := LastSequence(s.invoices, year, docType);
    assert last != 0 ==> HasNumber(s, year, docType, last);
    hide LastSequence;
    hide HasNumber;
    hide HasImports;
  }

  lemma NumbersAfterIssue(s: Store, id: int, row: Invoice, last: int, y: int, d: DocType, k: int)
    requires id in s.invoices && s.invoices[id].sequence.None? && row.sequence == Some(last + 1) && !row.imported
    ensures var after := s.(invoices := s.invoices[id := row]);
            && (HasNumber(after, y, d, k)
                <==> HasNumber(s, y, d, k) || (y == row.year && d == row.docType && k == last + 1))
            && (HasImports(s, y, d) ==> HasImports(after, y, d))
  {
    var after := s.(invoices := s.invoices[id := row]);
    assert after.invoices[id] == row;
    if HasNumber(s, y, d, k) {
      var i :| i in s.invoices && InSeries(s.invoices[i], y, d) && s.invoices[i].sequence.value == k;
      assert after.invoices[i] == s.invoices[i];
    }
    if HasImports(s, y, d) {
      var i :| i in s.invoices && ImportedIn(s.invoices[i], y, d);
      assert after.invoices[i] == s.invoices[i];
    }
  }
}
