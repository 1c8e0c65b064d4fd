/** Runs of the invoice store: what every sequence of events keeps, replacements and receipts. */
module InvoiceRuns {
  import opened Dates
  import opened FileNames
  import opened InvoiceLaws
  import opened InvoiceStore
  import opened Wrappers

  datatype Event =
    | CreateEvent(docType: DocType, date: Day)
    | UpdateEvent(id: int, docType: DocType, date: Day)
    | RemoveEvent(id: int)
    | IssueEvent(id: int, request: IssueRequest)
    | StaleIssueEvent(id: int, seen: Invoice, request: IssueRequest)
    | CorrectEvent(id: int)
    | ReplaceEvent(id: int, today: Day)
    | ImportEvent(docType: DocType, date: Day, number: string, sequence: nat, fileName: string)
    | SendEvent(id: int, fileName: string)
    | SmtpFailedEvent(t: int)
    | SmtpDoneEvent(t: int)
    | ProviderEvent(t: int, receipt: ProviderReceipt)
    | MailboxEvent(fileName: string, r: ReceiptType, day: Option<Day>)
    | UploadEvent(fileName: string, r: ReceiptType, day: Option<Day>, alreadyRecorded: bool,
                  remembered: Option<ReceiptType>)

  /** One event. A request is atomic and acts on the rows it read, except that an issue may act on an old reading of its
      draft: only the status is read again under the lock. */
  ghost function Step(s: Store, e: Event): Store {
    match e
    case CreateEvent(docType, date) => Create(s, docType, date, None)
    case UpdateEvent(id, docType, date) => Update(s, id, docType, date)
    case RemoveEvent(id) => Remove(s, id)
    case IssueEvent(id, r) => if id in s.invoices then Issue(s, id, s.invoices[id], r) else s
    case StaleIssueEvent(id, seen, r) => Issue(s, id, seen, r)
    case CorrectEvent(id) => ReopenForCorrection(s, id)
    case ReplaceEvent(id, today) => CreateReplacement(s, id, today)
    case ImportEvent(docType, date, number, sequence, fileName) => Import(s, docType, date, number, sequence, fileName)
    case SendEvent(id, fileName) => Send(s, id, fileName)
    case SmtpFailedEvent(t) => SmtpFailed(s, t)
    case SmtpDoneEvent(t) => SmtpDone(s, t)
    case ProviderEvent(t, receipt) => ProviderStep(s, t, receipt)
    case MailboxEvent(fileName, r, day) => MailboxReceipt(s, fileName, r, day)
    case UploadEvent(fileName, r, day, alreadyRecorded, remembered) =>
      UploadedReceipt(s, fileName, r, day, alreadyRecorded, remembered)
  }

  /** The events that come from transmissions. */
  predicate IsReceipt(e: Event) {
    e.SendEvent? || e.SmtpFailedEvent? || e.SmtpDoneEvent? || e.ProviderEvent? || e.MailboxEvent? || e.UploadEvent?
  }

  predicate IsIssue(e: Event) { e.IssueEvent? || e.StaleIssueEvent? }

  /** The reading an issue acts on. */
  function SeenBy(s: Store, e: Event): Invoice
    requires IsIssue(e) && (e.IssueEvent? ==> e.id in s.invoices)
  {
    if e.IssueEvent? then s.invoices[e.id] else e.seen
  }

  lemma IssueIsStep(s: Store, e: Event)
    requires IsIssue(e)
    ensures Step(s, e) == if e.StaleIssueEvent? || e.id in s.invoices
            then Issue(s, e.id, SeenBy(s, e), e.request) else s
  {
    hide Issue;
  }

  /** Every issue acts on its draft as it is. */
  predicate UpToDate(events: seq<Event>) {
    forall i :: 0 <= i < |events| ==> !events[i].StaleIssueEvent?
  }

  ghost function Run(s: Store, events: seq<Event>): Store {
    if events == [] then s else Step(Run(s, events[..|events| - 1]), events[|events| - 1])
  }

  lemma EmptyIsOk()
    ensures Inv(EMPTY) && Exact(EMPTY)
  {
  }

  lemma TransmissionStepKeepsInv(s: Store, e: Event)
    requires Inv(s) && (e.SmtpFailedEvent? || e.SmtpDoneEvent? || e.ProviderEvent? || e.MailboxEvent?)
    ensures Inv(Step(s, e))
  {
    hide Inv;
    hide Move;
    match e {
      case SmtpFailedEvent(t) =>
        if t in s.transmissions && s.transmissions[t].status == Pending { MoveKeepsInv(s, t, Failed, Reopen); }
      case SmtpDoneEvent(t) =>
        if t in s.transmissions && s.transmissions[t].status == Pending { MoveKeepsInv(s, t, InTransit, NoEffect); }
      case ProviderEvent(t, receipt) =>
        if t in s.transmissions && !HasOutcome(s.transmissions[t]) {
          var reclaim := if s.transmissions[t].status == Failed then Claim else NoEffect;
          MoveKeepsInv(s, t, AcceptedByPec, reclaim);
          MoveKeepsInv(s, t, DeliveredToSdi, reclaim);
          MoveKeepsInv(s, t, Failed, Reopen);
        }
      case MailboxEvent(fileName, r, day) =>
        if exists t :: IsLatest(s, t, fileName) {
          var t :| IsLatest(s, t, fileName) && MailboxReceipt(s, fileName, r, day) == SdiStep(s, t, r, day);
          hide SdiStep;
          SdiStepKeepsInv(s, t, fileName, r, day);
        }
    }
  }

  lemma StepKeepsInv(s: Store, e: Event)
    requires Inv(s)
    ensures Inv(Step(s, e))
  {
    hide Inv;
    match e {
      case CreateEvent(docType, date) => CreateKeepsInv(s, docType, date, None);
      case UpdateEvent(id, docType, date) => UpdateKeepsInv(s, id, docType, date);
      case RemoveEvent(id) => RemoveKeepsInv(s, id);
      case IssueEvent(id, r) => if id in s.invoices { IssueKeepsInv(s, id, s.invoices[id], r); }
      case StaleIssueEvent(id, seen, r) => IssueKeepsInv(s, id, seen, r);
      case CorrectEvent(id) => ReopenKeepsInv(s, id);
      case ReplaceEvent(id, today) =>
        if MayCorrect(s, id) { CreateKeepsInv(s, s.invoices[id].docType, today, Some(id)); }
      case ImportEvent(docType, date, number, sequence, fileName) =>
        ImportKeepsInv(s, docType, date, number, sequence, fileName);
      case SendEvent(id, fileName) => SendKeepsInv(s, id, fileName);
      case UploadEvent(fileName, r, day, alreadyRecorded, remembered) =>
        UploadKeepsInv(s, fileName, r, day, alreadyRecorded, remembered);
      case _ => TransmissionStepKeepsInv(s, e);
    }
  }

  /** The invariant holds in every reachable state. */
  lemma {:induction false} RunKeepsInv(s: Store, events: seq<Event>)
    requires Inv(s)
    ensures Inv(Run(s, events))
  {
    hide Inv;
    hide Step;
    if events != [] {
      RunKeepsInv(s, events[..|events| - 1]);
      StepKeepsInv(Run(s, events[..|events| - 1]), events[|events| - 1]);
    }
  }

  /** A rejected invoice with a replacement stays rejected: it is never reopened as well, and has one replacement
      only. */
  lemma ReplacedStaysRejected(events: seq<Event>, a: int, b: int, rejected: int)
    requires var s := Run(EMPTY, events);
             && a in s.invoices && s.invoices[a].replacesId == Some(rejected)
             && b in s.invoices && s.invoices[b].replacesId == Some(rejected)
    ensures var s := Run(EMPTY, events);
            && a == b && rejected in s.invoices && s.invoices[rejected].status == Rejected
            && !IsCorrection(s.invoices[rejected])
  {
    EmptyIsOk();
    RunKeepsInv(EMPTY, events);
    hide Run;
    assert LinksOk(Run(EMPTY, events));
    hide Inv;
  }

  // ---------- Receipts ----------

  lemma EffectKeepsDocument(invoices: map<int, Invoice>, inv: int, fileName: string, e: Effect, id: int)
    requires id in invoices
    ensures var after := ApplyEffect(invoices, inv, fileName, e);
            id in after && SameDocument(invoices[id], after[id])
    ensures inv != id || invoices[id].fileName != Some(fileName) ==>
            ApplyEffect(invoices, inv, fileName, e)[id] == invoices[id]
  {
  }

  lemma ReceiptKeepsDocument(s: Store, e: Event, id: int)
    requires IsReceipt(e)
    requires id in s.invoices
    ensures id in Step(s, e).invoices && SameDocument(s.invoices[id], Step(s, e).invoices[id])
  {
    forall inv, fileName, effect
      ensures id in ApplyEffect(s.invoices, inv, fileName, effect)
      ensures SameDocument(s.invoices[id], ApplyEffect(s.invoices, inv, fileName, effect)[id])
    {
      EffectKeepsDocument(s.invoices, inv, fileName, effect, id);
    }
    hide ApplyEffect;
    hide KnownOutcome;
    hide DecideReceipt;
    hide IsLatest;
  }

  /** The file a receipt event is about: that of its transmission, or the one it names. */
  function FileNamed(s: Store, e: Event): Option<string> {
    match e
    case SendEvent(_, fileName) => Some(fileName)
    case SmtpFailedEvent(t) => FileOfTransmission(s, t)
    case SmtpDoneEvent(t) => FileOfTransmission(s, t)
    case ProviderEvent(t, _) => FileOfTransmission(s, t)
    case MailboxEvent(fileName, _, _) => Some(fileName)
    case UploadEvent(fileName, _, _, _, _) => Some(fileName)
    case _ => None
  }

  function FileOfTransmission(s: Store, t: int): Option<string> {
    if t in s.transmissions then Some(s.transmissions[t].fileName) else None
  }

  /** The events that come from transmissions change nothing of a document but its status and day of delivery, and only
      of an invoice whose current file they name. */
  lemma ReceiptTouchesNamedOnly(s: Store, e: Event, id: int)
    requires IsReceipt(e) && id in s.invoices
    ensures id in Step(s, e).invoices && SameDocument(s.invoices[id], Step(s, e).invoices[id])
    ensures s.invoices[id].fileName.None? || s.invoices[id].fileName != FileNamed(s, e) ==>
            Step(s, e).invoices[id] == s.invoices[id]
  {
    ReceiptKeepsDocument(s, e, id);
    if s.invoices[id].fileName.None? || s.invoices[id].fileName != FileNamed(s, e) {
      LateEventChangesNothing(s, e, id);
    }
    hide Step;
  }

  /** An event about a file that is not the invoice's current one leaves the invoice as it is. */
  lemma LateEventChangesNothing(s: Store, e: Event, id: int)
    requires IsReceipt(e) && id in s.invoices
    requires s.invoices[id].fileName.None? || s.invoices[id].fileName != FileNamed(s, e)
    ensures id in Step(s, e).invoices && Step(s, e).invoices[id] == s.invoices[id]
  {
    forall inv, fileName, effect
      ensures inv != id || s.invoices[id].fileName != Some(fileName) ==>
                id in ApplyEffect(s.invoices, inv, fileName, effect)
                  && ApplyEffect(s.invoices, inv, fileName, effect)[id] == s.invoices[id]
    {
      EffectKeepsDocument(s.invoices, inv, fileName, effect, id);
    }
    hide ApplyEffect;
    hide KnownOutcome;
    hide DecideReceipt;
  }

  lemma ReceiptKeepsKeys(s: Store, e: Event)
    requires IsReceipt(e)
    ensures Step(s, e).invoices.Keys == s.invoices.Keys
  {
    forall inv, fileName, effect
      ensures ApplyEffect(s.invoices, inv, fileName, effect).Keys == s.invoices.Keys
    {
    }
    hide ApplyEffect;
    hide KnownOutcome;
    hide DecideReceipt;
    hide IsLatest;
  }

  // ---------- A numbered document stays ----------

  ghost predicate HasSequence(s: Store, id: int) { id in s.invoices && s.invoices[id].sequence.Some? }

  lemma StepKeepsSequence(s: Store, e: Event, id: int)
    requires Inv(s) && HasSequence(s, id)
    ensures HasSequence(Step(s, e), id)
  {
    assert RowsOk(s);
    hide Inv;
    if IsReceipt(e) {
      ReceiptKeepsDocument(s, e, id);
      hide Step;
    } else if IsIssue(e) {
      if e.StaleIssueEvent? || e.id in s.invoices {
        IssueKeepsSequence(s, e.id, SeenBy(s, e), e.request, id);
      }
      hide Issue;
    } else {
      RequestKeepsSequence(s, e, id);
    }
  }

  lemma RequestKeepsSequence(s: Store, e: Event, id: int)
    requires RowsOk(s) && HasSequence(s, id) && !IsReceipt(e) && !IsIssue(e)
    ensures HasSequence(Step(s, e), id)
  {
    hide RowOk;
    hide Issue;
    hide YearOf;
    hide MayImport;
    hide IsReplaced;
  }

  lemma IssueKeepsSequence(s: Store, issued: int, seen: Invoice, r: IssueRequest, id: int)
    requires HasSequence(s, id)
    ensures HasSequence(Issue(s, issued, seen, r), id)
  {
    hide Issue;
    if Issue(s, issued, seen, r) != s {
      var row := IssueRow(s, issued, seen, r);
      hide Recorded;
      hide NumberOf;
      hide FormatNumber;
      hide SlotTaken;
    }
  }

  /** A document once numbered stays in the store with a number. */
  lemma {:induction false} RunKeepsSequence(s: Store, events: seq<Event>, id: int)
    requires Inv(s) && HasSequence(s, id)
    ensures HasSequence(Run(s, events), id)
  {
    hide Inv;
    hide Step;
    hide HasSequence;
    if events != [] {
      var front := events[..|events| - 1];
      RunKeepsSequence(s, front, id);
      RunKeepsInv(s, front);
      StepKeepsSequence(Run(s, front), events[|events| - 1], id);
    }
  }
}
