/** File names and claims over the runs of the invoice store. */
module InvoiceNames {
  import opened Dates
  import opened FileNames
  import opened InvoiceLaws
  import opened InvoiceRuns
  import opened InvoiceStore
  import opened Wrappers

  // ---------- Recorded names ----------

  ghost predicate OnTransmission(s: Store, fileName: string) {
    exists t :: t in s.transmissions && s.transmissions[t].fileName == fileName
  }

  ghost predicate OnInvoice(s: Store, fileName: string) {
    exists id :: id in s.invoices && s.invoices[id].fileName == Some(fileName)
  }

  lemma RecordedMeans(s: Store, fileName: string)
    ensures fileName in Recorded(s) <==> OnInvoice(s, fileName) || OnTransmission(s, fileName)
  {
  }

  /** Transmissions keep their invoice and file name; only a removal drops some. */
  ghost predicate TransmissionsGrow(s: Store, after: Store) {
    forall t :: t in s.transmissions ==>
      && t in after.transmissions
      && after.transmissions[t].fileName == s.transmissions[t].fileName
      && after.transmissions[t].invoiceId == s.transmissions[t].invoiceId
  }

  lemma StepKeepsTransmissions(s: Store, e: Event)
    requires Inv(s)
    ensures TransmissionsGrow(s, Step(s, e))
  {
    assert TransmissionsOk(s) && LinksOk(s);
    hide *;
    if IsReceipt(e) {
      ReceiptKeepsTransmissions(s, e);
    } else if IsIssue(e) {
      IssueKeepsTransmissions(s, e);
    } else {
      RequestKeepsTransmissions(s, e);
    }
  }

  lemma IssueKeepsTransmissions(s: Store, e: Event)
    requires IsIssue(e)
    ensures TransmissionsGrow(s, Step(s, e))
  {
    IssueIsStep(s, e);
    if Step(s, e) != s { IssueTouchesInvoices(s, e.id, SeenBy(s, e), e.request); }
    hide Step;
    hide Issue;
  }

  lemma RequestKeepsTransmissions(s: Store, e: Event)
    requires TransmissionsOk(s) && LinksOk(s) && !IsReceipt(e) && !IsIssue(e)
    ensures TransmissionsGrow(s, Step(s, e))
  {
    if e.RemoveEvent? {
      if MayRemove(s, e.id) { RemoveOnlyDrops(s, e.id); } else { RefusedRemove(s, e); }
    }
    hide TransmissionsOk;
    hide LinksOk;
    hide Remove;
    hide Issue;
    hide NewDraft;
    hide MayImport;
    hide IsReplaced;
    hide YearOf;
  }

  lemma RefusedRemove(s: Store, e: Event)
    requires e.RemoveEvent? && !MayRemove(s, e.id)
    ensures Step(s, e) == s
  {
  }

  lemma ReceiptKeepsTransmissions(s: Store, e: Event)
    requires TransmissionsOk(s) && IsReceipt(e)
    ensures TransmissionsGrow(s, Step(s, e))
  {
    hide ApplyEffect;
    hide KnownOutcome;
    hide IsLatest;
    hide DecideReceipt;
  }

  lemma IssueTouchesInvoices(s: Store, id: int, seen: Invoice, r: IssueRequest)
    ensures Issue(s, id, seen, r).transmissions == s.transmissions
  {
    hide FormatNumber;
    hide NextSequenceOf;
    hide NumberOf;
    hide InvoiceFileName;
    hide SlotTaken;
  }

  /** The name of an invoice stays its own, or stays on a transmission of SDI's outcome. */
  lemma StepKeepsName(s: Store, e: Event, id: int, fileName: string)
    requires Inv(s) && IsCurrent(s.invoices, id, fileName)
    ensures IsCurrent(Step(s, e).invoices, id, fileName) || (e == CorrectEvent(id) && SettledFile(s, fileName))
  {
    if IsReceipt(e) {
      hide Inv;
      ReceiptKeepsDocument(s, e, id);
      hide Step;
    } else if IsIssue(e) {
      assert RowOk(s.invoices[id]);
      assert s.invoices[id].status != Draft;
      hide Inv;
      if e.StaleIssueEvent? || e.id in s.invoices { IssueOnlyDrafts(s, e.id, SeenBy(s, e), e.request); }
      hide Issue;
    } else {
      assert RowsOk(s) && Settled(s);
      hide Inv;
      RequestKeepsName(s, e, id, fileName);
    }
  }

  lemma RequestKeepsName(s: Store, e: Event, id: int, fileName: string)
    requires RowsOk(s) && Settled(s) && IsCurrent(s.invoices, id, fileName) && !IsReceipt(e) && !IsIssue(e)
    ensures IsCurrent(Step(s, e).invoices, id, fileName) || (e == CorrectEvent(id) && SettledFile(s, fileName))
  {
    hide YearOf;
    hide Issue;
    hide SettledFile;
    hide IsReplaced;
    hide MayImport;
  }

  lemma IssueOnlyDrafts(s: Store, id: int, seen: Invoice, r: IssueRequest)
    ensures var after := Issue(s, id, seen, r);
            && (forall other :: other in s.invoices && (other != id || s.invoices[id].status != Draft) ==>
                  other in after.invoices && after.invoices[other] == s.invoices[other])
            && after.invoices.Keys == s.invoices.Keys
  {
    hide Issue;
    if Issue(s, id, seen, r) != s {
      var row := IssueRow(s, id, seen, r);
      hide Recorded;
      hide NumberOf;
      hide FormatNumber;
      hide SlotTaken;
    }
  }

  /** A name once recorded is recorded for ever. */
  lemma RecordedGrows(s: Store, e: Event, fileName: string)
    requires Inv(s) && fileName in Recorded(s)
    ensures fileName in Recorded(Step(s, e))
  {
    var after := Step(s, e);
    RecordedMeans(s, fileName);
    RecordedMeans(after, fileName);
    StepKeepsTransmissions(s, e);
    if OnTransmission(s, fileName) {
      var t :| t in s.transmissions && s.transmissions[t].fileName == fileName;
      hide *;
      assert OnTransmission(after, fileName) by { OnTransmissionBy(after, t, fileName); }
    } else {
      var id :| id in s.invoices && s.invoices[id].fileName == Some(fileName);
      StepKeepsName(s, e, id, fileName);
      assert !SettledFile(s, fileName);
      hide Step;
      hide Inv;
      hide Recorded;
    }
  }

  lemma OnTransmissionBy(after: Store, t: int, fileName: string)
    requires t in after.transmissions && after.transmissions[t].fileName == fileName
    ensures OnTransmission(after, fileName)
  {
  }

  lemma {:induction false} RecordedForEver(s: Store, events: seq<Event>, fileName: string)
    requires Inv(s) && fileName in Recorded(s)
    ensures fileName in Recorded(Run(s, events))
  {
    hide Inv;
    hide Step;
    hide Recorded;
    if events != [] {
      var front := events[..|events| - 1];
      RecordedForEver(s, front, fileName);
      RunKeepsInv(s, front);
      RecordedGrows(Run(s, front), events[|events| - 1], fileName);
    }
  }

  /** Over any run, an issue, also from an old reading, takes a name that no invoice or transmission ever had: neither
      now nor at any earlier point. */
  lemma IssueTakesNewName(earlier: seq<Event>, later: seq<Event>, e: Event, fileName: string)
    requires var s := Run(Run(EMPTY, earlier), later);
             IsIssue(e) && Step(s, e) != s && fileName in Recorded(Run(EMPTY, earlier))
    ensures var s := Run(Run(EMPTY, earlier), later);
            && e.id in Step(s, e).invoices
            && var row := Step(s, e).invoices[e.id];
               row.fileName.Some? && row.fileName.value != fileName && row.fileName.value !in Recorded(s)
  {
    var before, s := Run(EMPTY, earlier), Run(Run(EMPTY, earlier), later);
    EmptyIsOk();
    RunKeepsInv(EMPTY, earlier);
    RecordedForEver(before, later, fileName);
    hide Run;
    hide Inv;
    hide Exact;
    hide Recorded;
    hide Issue;
    var row := IssueRow(s, e.id, SeenBy(s, e), e.request);
    hide NumberOf;
    hide FormatNumber;
    hide SlotTaken;
  }

  // ---------- One owner for each name ----------

  /** The invoice has the name now, or had it on a transmission. */
  ghost predicate OwnerOf(s: Store, fileName: string, id: int) {
    || IsCurrent(s.invoices, id, fileName)
    || exists t :: t in s.transmissions && s.transmissions[t].fileName == fileName && s.transmissions[t].invoiceId == id
  }

  ghost predicate Owned(s: Store) {
    forall fileName: string, a: int, b: int :: OwnerOf(s, fileName, a) && OwnerOf(s, fileName, b) ==> a == b
  }

  lemma OwnedNamesAreRecorded(s: Store, fileName: string, id: int)
    requires OwnerOf(s, fileName, id)
    ensures fileName in Recorded(s)
  {
    RecordedMeans(s, fileName);
    hide Recorded;
  }

  lemma RequestAddsNoTransmission(s: Store, e: Event, t: int)
    requires !IsReceipt(e) && t in Step(s, e).transmissions
    ensures t in s.transmissions
  {
    hide Issue;
    hide MayImport;
    hide MayCorrect;
    hide MayUpdate;
    hide NewDraft;
    if e.StaleIssueEvent? {
      IssueTouchesInvoices(s, e.id, e.seen, e.request);
    } else if e.IssueEvent? {
      if e.id in s.invoices { IssueTouchesInvoices(s, e.id, s.invoices[e.id], e.request); }
    }
  }

  lemma ReceiptAddsForCurrent(s: Store, e: Event, t: int)
    requires IsReceipt(e) && t in Step(s, e).transmissions && t !in s.transmissions
    ensures var tr := Step(s, e).transmissions[t]; IsCurrent(s.invoices, tr.invoiceId, tr.fileName)
  {
    hide ApplyEffect;
    hide KnownOutcome;
    hide DecideReceipt;
    hide IsLatest;
  }

  /** A transmission is only ever added for the current file of its invoice. */
  lemma TransmissionOwner(s: Store, e: Event, t: int)
    requires Inv(s) && t in Step(s, e).transmissions
    ensures var tr := Step(s, e).transmissions[t];
            OwnerOf(s, tr.fileName, tr.invoiceId)
  {
    hide Inv;
    hide Step;
    hide IsReceipt;
    if t in s.transmissions {
      StepKeepsTransmissions(s, e);
    } else {
      if !IsReceipt(e) { RequestAddsNoTransmission(s, e, t); }
      ReceiptAddsForCurrent(s, e, t);
    }
  }

  /** Every name an invoice has after a step was its own before, or is new and given to it alone. */
  lemma CurrentOwner(s: Store, e: Event, id: int, fileName: string)
    requires Inv(s) && IsCurrent(Step(s, e).invoices, id, fileName)
    ensures || OwnerOf(s, fileName, id)
            || (IsIssue(e) && id == e.id && fileName !in Recorded(s))
            || (e.ImportEvent? && id == s.nextInvoice && fileName == e.fileName
                && MayImport(s, e.docType, e.date, e.number, e.sequence, e.fileName))
  {
    if IsReceipt(e) {
      hide Inv;
      ReceiptKeepsKeys(s, e);
      ReceiptKeepsDocument(s, e, id);
      hide Step;
    } else if IsIssue(e) {
      hide Inv;
      hide Issue;
      if Step(s, e) != s {
        var row := IssueRow(s, e.id, SeenBy(s, e), e.request);
        hide NumberOf;
        hide FormatNumber;
        hide SlotTaken;
      }
      hide Recorded;
    } else {
      hide Inv;
      hide YearOf;
      hide Recorded;
      hide IsReplaced;
      hide MayImport;
    }
  }

  /** The import of a name that was on a transmission: the checks of the import do not look there. */
  ghost predicate TakesOldName(s: Store, e: Event) {
    e.ImportEvent? && MayImport(s, e.docType, e.date, e.number, e.sequence, e.fileName) && OnTransmission(s, e.fileName)
  }

  lemma StepKeepsOwned(s: Store, e: Event)
    requires Inv(s) && Owned(s) && !TakesOldName(s, e)
    ensures Owned(Step(s, e))
  {
    var after := Step(s, e);
    forall fileName: string, a: int, b: int | OwnerOf(after, fileName, a) && OwnerOf(after, fileName, b)
      ensures a == b
    {
      OwnerBefore(s, e, fileName, a);
      OwnerBefore(s, e, fileName, b);
      hide Step;
      hide Inv;
      hide Recorded;
      if !OwnerOf(s, fileName, a) && OwnerOf(s, fileName, b) { OwnedNamesAreRecorded(s, fileName, b); }
      if OwnerOf(s, fileName, a) && !OwnerOf(s, fileName, b) { OwnedNamesAreRecorded(s, fileName, a); }
    }
  }

  /** The invoice an event gives a new name to. */
  function Named(s: Store, e: Event): int {
    if IsIssue(e) then e.id else s.nextInvoice
  }

  lemma OwnerBefore(s: Store, e: Event, fileName: string, id: int)
    requires Inv(s) && !TakesOldName(s, e) && OwnerOf(Step(s, e), fileName, id)
    ensures OwnerOf(s, fileName, id) || (fileName !in Recorded(s) && id == Named(s, e))
  {
    var after := Step(s, e);
    if IsCurrent(after.invoices, id, fileName) {
      CurrentOwner(s, e, id, fileName);
      hide Step;
      hide Inv;
      RecordedMeans(s, fileName);
      hide Recorded;
    } else {
      var t :| t in after.transmissions && after.transmissions[t].fileName == fileName
        && after.transmissions[t].invoiceId == id;
      TransmissionOwner(s, e, t);
      hide Step;
      hide Inv;
      hide Recorded;
    }
  }

  lemma OwnersGrow(s: Store, e: Event, fileName: string, id: int)
    requires Inv(s) && Owned(s) && OwnerOf(s, fileName, id)
    ensures OwnerOf(Step(s, e), fileName, id)
  {
    var after := Step(s, e);
    StepKeepsTransmissions(s, e);
    if IsCurrent(s.invoices, id, fileName) {
      StepKeepsName(s, e, id, fileName);
      if !IsCurrent(after.invoices, id, fileName) {
        var t :| IsLatest(s, t, fileName) && HasOutcome(s.transmissions[t]);
        hide Step;
        hide Inv;
        assert OwnerOf(s, fileName, s.transmissions[t].invoiceId);
        assert s.transmissions[t].invoiceId == id;
        assert after.transmissions[t].fileName == fileName && after.transmissions[t].invoiceId == id;
      }
    } else {
      hide Step;
      hide Inv;
    }
  }

  /** No import along the run takes the name of an earlier transmission. */
  ghost predicate NoOldNames(s: Store, events: seq<Event>) {
    events != [] ==>
      NoOldNames(s, events[..|events| - 1])
      && !TakesOldName(Run(s, events[..|events| - 1]), events[|events| - 1])
  }

  /** A file name belongs to one invoice for ever: whoever has it at one point of a run is the only one to have it at
      every later point. */
  lemma {:induction false} NameBelongsForEver(s: Store, events: seq<Event>, fileName: string, a: int, b: int)
    requires Inv(s) && Owned(s) && NoOldNames(s, events)
    ensures Owned(Run(s, events))
    ensures OwnerOf(s, fileName, a) && OwnerOf(Run(s, events), fileName, b) ==> a == b
    ensures OwnerOf(s, fileName, a) ==> OwnerOf(Run(s, events), fileName, a)
  {
    hide Inv;
    hide Step;
    hide OwnerOf;
    hide TakesOldName;
    if events != [] {
      var front := events[..|events| - 1];
      NameBelongsForEver(s, front, fileName, a, a);
      RunKeepsInv(s, front);
      StepKeepsOwned(Run(s, front), events[|events| - 1]);
      if OwnerOf(s, fileName, a) {
        OwnersGrow(Run(s, front), events[|events| - 1], fileName, a);
      }
    }
  }

  /** An import breaks the ownership of names exactly when its name was on a transmission. */
  lemma ImportKeepsOwnedIff(s: Store, docType: DocType, date: Day, number: string, sequence: nat, fileName: string)
    requires Inv(s) && Owned(s) && MayImport(s, docType, date, number, sequence, fileName)
    ensures Owned(Import(s, docType, date, number, sequence, fileName)) <==> !OnTransmission(s, fileName)
  {
    var e := ImportEvent(docType, date, number, sequence, fileName);
    if OnTransmission(s, fileName) {
      OldNameGetsTwoOwners(s, docType, date, number, sequence, fileName);
    } else {
      StepKeepsOwned(s, e);
      assert Import(s, docType, date, number, sequence, fileName) == Step(s, e);
    }
    hide *;
  }

  lemma OldNameGetsTwoOwners(s: Store, docType: DocType, date: Day, number: string, sequence: nat, fileName: string)
    requires RowsOk(s) && TransmissionsOk(s) && MayImport(s, docType, date, number, sequence, fileName)
             && OnTransmission(s, fileName)
    ensures !Owned(Import(s, docType, date, number, sequence, fileName))
  {
    var after := Import(s, docType, date, number, sequence, fileName);
    hide MayImport;
    hide RowOk;
    hide YearOf;
    var t :| t in s.transmissions && s.transmissions[t].fileName == fileName;
    assert OwnerOf(after, fileName, s.transmissions[t].invoiceId);
    assert IsCurrent(after.invoices, s.nextInvoice, fileName);
    assert OwnerOf(after, fileName, s.nextInvoice);
    assert s.transmissions[t].invoiceId in s.invoices;
    hide OwnerOf;
  }

  // ---------- Late events and claims ----------

  /** After a reopening no event about the old file reaches the invoice, whatever happens meanwhile: it leaves the
      invoice as it is, in every later state. */
  lemma OldFileIsDead(s: Store, id: int, fileName: string, events: seq<Event>, e: Event)
    requires Inv(s) && MayCorrect(s, id) && IsCurrent(s.invoices, id, fileName)
    requires var later := Run(Step(s, CorrectEvent(id)), events);
             IsReceipt(e) && FileNamed(later, e) == Some(fileName)
    ensures var later := Run(Step(s, CorrectEvent(id)), events);
            id in later.invoices && id in Step(later, e).invoices && Step(later, e).invoices[id] == later.invoices[id]
  {
    hide Inv;
    hide Run;
    hide Recorded;
    CorrectedFile(s, id, fileName);
    CorrectIsStep(s, id);
    hide Step;
    var reopened := ReopenForCorrection(s, id);
    NeverCurrentAgain(reopened, events, id, fileName);
    RunKeepsSequence(reopened, events, id);
    ReceiptTouchesNamedOnly(Run(reopened, events), e, id);
  }

  lemma CorrectedFile(s: Store, id: int, fileName: string)
    requires Inv(s) && MayCorrect(s, id) && IsCurrent(s.invoices, id, fileName)
    ensures var reopened := ReopenForCorrection(s, id);
            && Inv(reopened) && id in reopened.invoices && reopened.invoices[id].sequence.Some?
            && fileName in Recorded(reopened) && !IsCurrent(reopened.invoices, id, fileName)
  {
    hide Inv;
    hide MayCorrect;
    NumberedByFile(s, id, fileName);
    RecordedMeans(s, fileName);
    assert OnInvoice(s, fileName);
    hide Recorded;
    CorrectIsStep(s, id);
    hide Step;
    RecordedGrows(s, CorrectEvent(id), fileName);
    StepKeepsInv(s, CorrectEvent(id));
  }

  lemma CorrectIsStep(s: Store, id: int)
    ensures Step(s, CorrectEvent(id)) == ReopenForCorrection(s, id)
  {
    hide ReopenForCorrection;
  }

  lemma {:induction false} NeverCurrentAgain(s: Store, events: seq<Event>, id: int, fileName: string)
    requires Inv(s) && id in s.invoices && s.invoices[id].sequence.Some? && fileName in Recorded(s)
             && !IsCurrent(s.invoices, id, fileName)
    ensures !IsCurrent(Run(s, events).invoices, id, fileName)
  {
    hide Inv;
    hide Step;
    hide Recorded;
    if events != [] {
      var front := events[..|events| - 1];
      NeverCurrentAgain(s, front, id, fileName);
      RunKeepsInv(s, front);
      RecordedForEver(s, front, fileName);
      RunKeepsSequence(s, front, id);
      hide Run;
      NotCurrentNext(Run(s, front), events[|events| - 1], id, fileName);
    }
  }

  lemma NotCurrentNext(s: Store, e: Event, id: int, fileName: string)
    requires Inv(s) && id in s.invoices && fileName in Recorded(s) && !IsCurrent(s.invoices, id, fileName)
    ensures !IsCurrent(Step(s, e).invoices, id, fileName)
  {
    assert RowsOk(s) && id < s.nextInvoice;
    hide *;
    if IsIssue(e) {
      IssueIsStep(s, e);
      if Step(s, e) != s {
        IssueNotCurrent(s, e.id, SeenBy(s, e), e.request, id, fileName);
      }
    } else if IsReceipt(e) {
      ReceiptNotCurrent(s, e, id, fileName);
    } else {
      PlainNotCurrent(s, e, id, fileName);
    }
  }

  lemma ReceiptNotCurrent(s: Store, e: Event, id: int, fileName: string)
    requires Inv(s) && id in s.invoices && !IsCurrent(s.invoices, id, fileName) && IsReceipt(e)
    ensures !IsCurrent(Step(s, e).invoices, id, fileName)
  {
    hide Inv;
    hide Step;
    hide IsReceipt;
    ReceiptKeepsDocument(s, e, id);
  }

  lemma PlainNotCurrent(s: Store, e: Event, id: int, fileName: string)
    requires id in s.invoices && id < s.nextInvoice && !IsCurrent(s.invoices, id, fileName)
    requires !IsReceipt(e) && !IsIssue(e)
    ensures !IsCurrent(Step(s, e).invoices, id, fileName)
  {
    hide YearOf;
    hide MayUpdate;
    hide MayRemove;
    hide MayCorrect;
    hide MayImport;
    hide Issue;
  }

  lemma IssueNotCurrent(s: Store, issued: int, seen: Invoice, r: IssueRequest, id: int, fileName: string)
    requires id in s.invoices && fileName in Recorded(s) && !IsCurrent(s.invoices, id, fileName)
    ensures !IsCurrent(Issue(s, issued, seen, r).invoices, id, fileName)
  {
    hide Issue;
    hide Recorded;
    if Issue(s, issued, seen, r) != s {
      var row := IssueRow(s, issued, seen, r);
      hide FormatNumber;
      hide NumberOf;
      hide SlotTaken;
    }
  }

  /** Steps that took the file of an issued invoice for sending: sends, and provider receipts after a failure. */
  ghost function Claims(s: Store, events: seq<Event>, id: int, fileName: string): nat {
    if events == [] then 0
    else
      var before := Run(s, events[..|events| - 1]);
      Claims(s, events[..|events| - 1], id, fileName)
      + if MayClaim(before.invoices, id, fileName) && IsSentAs(Step(before, events[|events| - 1]), id, fileName)
        then 1 else 0
  }

  predicate IsSentAs(s: Store, id: int, fileName: string) {
    IsCurrent(s.invoices, id, fileName) && s.invoices[id].status == Sent
  }

  /** Steps that gave the file back. */
  ghost function GivenBack(s: Store, events: seq<Event>, id: int, fileName: string): nat {
    if events == [] then 0
    else
      var before := Run(s, events[..|events| - 1]);
      GivenBack(s, events[..|events| - 1], id, fileName)
      + if IsSentAs(before, id, fileName) && MayClaim(Step(before, events[|events| - 1]).invoices, id, fileName)
        then 1 else 0
  }

  /** An issued file is claimed at most once, by a send or by a provider receipt, and once more for every time it is
      given back after a failed transmission. */
  lemma {:induction false} ClaimsAreExclusive(s: Store, events: seq<Event>, id: int, fileName: string)
    requires Inv(s) && IsCurrent(s.invoices, id, fileName)
    ensures Claims(s, events, id, fileName) + (if MayClaim(Run(s, events).invoices, id, fileName) then 1 else 0)
         <= 1 + GivenBack(s, events, id, fileName)
  {
    hide Inv;
    hide Step;
    hide MayClaim;
    if events != [] {
      var front, e := events[..|events| - 1], events[|events| - 1];
      ClaimsAreExclusive(s, front, id, fileName);
      RunKeepsInv(s, front);
      RecordedMeans(s, fileName);
      RecordedForEver(s, front, fileName);
      hide Recorded;
      NumberedByFile(s, id, fileName);
      RunKeepsSequence(s, front, id);
      var before := Run(s, front);
      hide Run;
      ClaimStep(before, e, id, fileName);
    }
  }

  lemma NumberedByFile(s: Store, id: int, fileName: string)
    requires Inv(s) && IsCurrent(s.invoices, id, fileName)
    ensures s.invoices[id].sequence.Some?
  {
    assert RowOk(s.invoices[id]);
    hide YearOf;
    hide FormatNumber;
  }

  lemma ClaimStep(s: Store, e: Event, id: int, fileName: string)
    requires Inv(s) && id in s.invoices && fileName in Recorded(s)
    ensures MayClaim(Step(s, e).invoices, id, fileName) && !MayClaim(s.invoices, id, fileName) ==>
            IsSentAs(s, id, fileName)
    ensures MayClaim(Step(s, e).invoices, id, fileName) ==> !IsSentAs(Step(s, e), id, fileName)
  {
    if MayClaim(Step(s, e).invoices, id, fileName) && !MayClaim(s.invoices, id, fileName) {
      if !IsCurrent(s.invoices, id, fileName) {
        NotCurrentNext(s, e, id, fileName);
      }
      ClaimableAgain(s, e, id, fileName);
    }
    hide Inv;
    hide Step;
    hide Recorded;
  }

  lemma ClaimableAgain(s: Store, e: Event, id: int, fileName: string)
    requires Inv(s) && IsCurrent(s.invoices, id, fileName) && !MayClaim(s.invoices, id, fileName)
    requires MayClaim(Step(s, e).invoices, id, fileName)
    ensures s.invoices[id].status == Sent
  {
    assert RowsOk(s) && RowOk(s.invoices[id]);
    hide YearOf;
    hide FormatNumber;
    assert s.invoices[id].status != Draft;
    hide Inv;
    hide RowOk;
    if IsReceipt(e) {
      hide RowsOk;
      ReceiptRearms(s, e, id, fileName);
      hide Step;
    } else if IsIssue(e) {
      hide RowsOk;
      if e.StaleIssueEvent? || e.id in s.invoices { IssueOnlyDrafts(s, e.id, SeenBy(s, e), e.request); }
      hide Issue;
    } else {
      RequestNeverRearms(s, e, id, fileName);
    }
  }

  lemma RequestNeverRearms(s: Store, e: Event, id: int, fileName: string)
    requires RowsOk(s) && IsCurrent(s.invoices, id, fileName) && s.invoices[id].status != Draft
    requires !IsReceipt(e) && !IsIssue(e) && MayClaim(Step(s, e).invoices, id, fileName)
    ensures MayClaim(s.invoices, id, fileName)
  {
    hide RowOk;
    hide Issue;
    hide YearOf;
    hide IsReplaced;
    hide MayImport;
  }

  lemma ReceiptRearms(s: Store, e: Event, id: int, fileName: string)
    requires IsReceipt(e) && IsCurrent(s.invoices, id, fileName) && !MayClaim(s.invoices, id, fileName)
    requires MayClaim(Step(s, e).invoices, id, fileName)
    ensures s.invoices[id].status == Sent
  {
    forall inv: int, name: string, effect: Effect | !effect.SetOutcome? || IsOutcome(effect.status)
      ensures id in ApplyEffect(s.invoices, inv, name, effect)
      ensures ApplyEffect(s.invoices, inv, name, effect)[id].status == Issued ==> s.invoices[id].status == Sent
    {
    }
    hide ApplyEffect;
    hide KnownOutcome;
    hide DecideReceipt;
    hide IsLatest;
  }

  // ---------- When names run out ----------

  /** Some recorded name of the transmitter has the last progressive. */
  ghost predicate LastNameUsed(s: Store, r: IssueRequest) {
    exists name :: name in Recorded(s) && ProgressiveOf(name, Prefix(r.country, r.fiscalCode)) == Some(PROGRESSIVES - 1)
  }

  /** An otherwise allowed issue is refused for want of a name exactly when the last progressive is taken, or the
      configured start is beyond it. */
  lemma IssueNeedsNameIff(s: Store, r: IssueRequest)
    ensures InvoiceFileName(r.country, r.fiscalCode,
                            NextSequenceOf(Recorded(s), Prefix(r.country, r.fiscalCode), r.start)).Err?
        <==> Base(r.start) >= PROGRESSIVES - 1 || LastNameUsed(s, r)
  {
    hide *;
    NamesRunOutIff(Recorded(s), r.country, r.fiscalCode, r.start);
    LastNameUsedMeans(s, r);
  }

  lemma LastNameUsedMeans(s: Store, r: IssueRequest)
    ensures LastNameUsed(s, r)
        <==> exists name ::
               name in Recorded(s) && ProgressiveOf(name, Prefix(r.country, r.fiscalCode)) == Some(PROGRESSIVES - 1)
  {
    hide Recorded;
    hide ProgressiveOf;
  }

  lemma NoIssueWithoutName(s: Store, id: int, seen: Invoice, r: IssueRequest)
    requires InvoiceFileName(r.country, r.fiscalCode,
                             NextSequenceOf(Recorded(s), Prefix(r.country, r.fiscalCode), r.start)).Err?
    ensures Issue(s, id, seen, r) == s
  {
    hide InvoiceFileName;
    hide NextSequenceOf;
    hide Recorded;
    hide FormatNumber;
    hide LastSequence;
    hide SlotTaken;
  }

  /** And then for ever: once the last progressive is recorded no later issue of that transmitter succeeds. */
  lemma NoIssueAfterLastName(s: Store, events: seq<Event>, id: int, r: IssueRequest)
    requires Inv(s) && LastNameUsed(s, r)
    ensures Step(Run(s, events), IssueEvent(id, r)) == Run(s, events)
  {
    hide Inv;
    hide Run;
    hide Recorded;
    hide ProgressiveOf;
    hide Issue;
    var later := Run(s, events);
    var name :| name in Recorded(s) && ProgressiveOf(name, Prefix(r.country, r.fiscalCode)) == Some(PROGRESSIVES - 1);
    RecordedForEver(s, events, name);
    assert LastNameUsed(later, r);
    IssueNeedsNameIff(later, r);
    if id in later.invoices {
      NoIssueWithoutName(later, id, later.invoices[id], r);
    }
  }
}
