/** The invoices of a tenant and their transmissions to SDI: every request and every event as a step on the stored
    rows. */
module InvoiceStore {
  import opened Dates
  import opened FileNames
  import opened Rounding
  import opened Wrappers
  import Radix

  datatype DocType = TD01 | TD04 | TD05 | TD06

  datatype Status = Draft | Issued | Sent | Delivered | NotDelivered | Rejected | Cancelled

  /** `sequence` is empty until the first issue; `fileName` is the current file, empty for drafts. */
  datatype Invoice = Invoice(
    docType: DocType, year: int, date: Day, sequence: Option<int>, number: string, status: Status,
    replacesId: Option<int>, fileName: Option<string>, imported: bool, deliveredOn: Option<Day>)

  datatype TransmissionStatus = Pending | InTransit | AcceptedByPec | DeliveredToSdi | Failed | SdiDelivered
    | SdiNotDelivered | SdiRejected

  datatype Transmission = Transmission(invoiceId: int, fileName: string, status: TransmissionStatus)

  /** Rows by id; ids are given in order of creation and never again. */
  datatype Store = Store(invoices: map<int, Invoice>, transmissions: map<int, Transmission>, nextInvoice: int,
                         nextTransmission: int)

  const EMPTY := Store(map[], map[], 0, 0)

  /** A rejected invoice reopened for correction: a draft that keeps its number. */
  predicate IsCorrection(i: Invoice) { i.status == Draft && i.sequence.Some? }

  function NumberPrefix(docType: DocType): string {
    if docType == TD04 then "NC-" else if docType == TD05 then "ND-" else ""
  }

  function FormatNumber(docType: DocType, sequence: int, year: int): string {
    NumberPrefix(docType) + Radix.Text(sequence) + "/" + Radix.Text(year)
  }

  predicate InSeries(i: Invoice, year: int, docType: DocType) {
    i.year == year && i.docType == docType && i.sequence.Some?
  }

  ghost function SeriesOf(invoices: map<int, Invoice>, year: int, docType: DocType): set<int> {
    set id | id in invoices && InSeries(invoices[id], year, docType) :: invoices[id].sequence.value
  }

  /** The greatest sequence of a series, zero when it is empty. */
  ghost function LastSequence(invoices: map<int, Invoice>, year: int, docType: DocType): (n: int)
    ensures forall id :: id in invoices && InSeries(invoices[id], year, docType) ==> invoices[id].sequence.value <= n
    ensures n == 0 || exists id ::
            id in invoices && InSeries(invoices[id], year, docType) && invoices[id].sequence.value == n
    ensures n == 0 ==> (forall id :: id in invoices && InSeries(invoices[id], year, docType) ==>
                        invoices[id].sequence.value <= 0)
  {
    var s := SeriesOf(invoices, year, docType);
    assert forall id :: id in invoices && InSeries(invoices[id], year, docType) ==> invoices[id].sequence.value in s;
    if exists x :: x in s then Greatest(s) else 0
  }

  /** Every name on an invoice or a transmission. */
  ghost function Recorded(s: Store): set<string> {
    (set id | id in s.invoices && s.invoices[id].fileName.Some? :: s.invoices[id].fileName.value)
    + (set t | t in s.transmissions :: s.transmissions[t].fileName)
  }

  // ---------- Requests on invoices ----------

  function NewDraft(docType: DocType, date: Day, replacesId: Option<int>): Invoice {
    Invoice(docType, YearOf(date), date, None, "", Draft, replacesId, None, false, None)
  }

  ghost function Create(s: Store, docType: DocType, date: Day, replacesId: Option<int>): Store {
    s.(invoices := s.invoices[s.nextInvoice := NewDraft(docType, date, replacesId)], nextInvoice := s.nextInvoice + 1)
  }

  predicate MayUpdate(s: Store, id: int, docType: DocType, date: Day) {
    && id in s.invoices && s.invoices[id].status == Draft
    && (IsCorrection(s.invoices[id]) ==> date == s.invoices[id].date && docType == s.invoices[id].docType)
  }

  ghost function Update(s: Store, id: int, docType: DocType, date: Day): Store {
    if !MayUpdate(s, id, docType, date) then s
    else s.(invoices := s.invoices[id := s.invoices[id].(docType := docType, date := date, year := YearOf(date))])
  }

  predicate MayRemove(s: Store, id: int) {
    id in s.invoices && s.invoices[id].status == Draft && !IsCorrection(s.invoices[id])
  }

  /** Transmissions go with their invoice, and a link to it is cleared. */
  ghost function Remove(s: Store, id: int): Store {
    if !MayRemove(s, id) then s
    else s.(invoices := map i | i in s.invoices && i != id ::
                          if s.invoices[i].replacesId == Some(id)
                            then s.invoices[i].(replacesId := None) else s.invoices[i],
            transmissions := map t | t in s.transmissions && s.transmissions[t].invoiceId != id :: s.transmissions[t])
  }

  /** What an issue request carries besides the draft: today, the checks on customer and thresholds, the transmitter. */
  datatype IssueRequest = IssueRequest(today: Day, toPublicBody: bool, thresholdsConfirmed: bool, country: string,
                                       fiscalCode: string, start: Start)

  predicate MayIssue(seen: Invoice, r: IssueRequest) {
    seen.status == Draft && !r.toPublicBody && seen.date <= r.today && r.thresholdsConfirmed
  }

  /** Another row already has the year, type and sequence. */
  predicate SlotTaken(invoices: map<int, Invoice>, id: int, row: Invoice) {
    exists other :: other in invoices && other != id && InSeries(invoices[other], row.year, row.docType)
      && invoices[other].sequence == row.sequence
  }

  /** The number a reading of a draft leads to: its own, or the next one of the series it shows. */
  ghost function NumberOf(s: Store, seen: Invoice): int {
    if seen.sequence.Some? then seen.sequence.value else LastSequence(s.invoices, seen.year, seen.docType) + 1
  }

  /** Issue of a draft seen as `seen` when the request started; under the lock only the status is read again. A name too
      long, or a slot already taken, undoes everything. */
  ghost function Issue(s: Store, id: int, seen: Invoice, r: IssueRequest): Store {
    if !MayIssue(seen, r) || id !in s.invoices || s.invoices[id].status != Draft then s
    else
      var sequence := NumberOf(s, seen);
      var n := NextSequenceOf(Recorded(s), Prefix(r.country, r.fiscalCode), r.start);
      var name := InvoiceFileName(r.country, r.fiscalCode, n);
      if name.Err? then s
      else
        var row := s.invoices[id].(sequence := Some(sequence),
                                   number := FormatNumber(seen.docType, sequence, seen.year),
                                   status := Issued, fileName := Some(name.value));
        if SlotTaken(s.invoices, id, row) then s
        else s.(invoices := s.invoices[id := row])
  }

  predicate IsReplaced(invoices: map<int, Invoice>, id: int) {
    exists other :: other in invoices && invoices[other].replacesId == Some(id)
  }

  predicate MayCorrect(s: Store, id: int) {
    id in s.invoices && s.invoices[id].status == Rejected && !s.invoices[id].imported && !IsReplaced(s.invoices, id)
  }

  ghost function ReopenForCorrection(s: Store, id: int): Store {
    if !MayCorrect(s, id) then s
    else s.(invoices := s.invoices[id := s.invoices[id].(status := Draft, fileName := None, deliveredOn := None)])
  }

  ghost function CreateReplacement(s: Store, id: int, today: Day): Store {
    if !MayCorrect(s, id) then s
    else Create(s, s.invoices[id].docType, today, Some(id))
  }

  /** The checks of an import against the stored invoices: number, sequence and file name not yet used. */
  predicate MayImport(s: Store, docType: DocType, date: Day, number: string, sequence: int, fileName: string) {
    && (forall i :: i in s.invoices && s.invoices[i].year == YearOf(date) && s.invoices[i].docType == docType ==>
        s.invoices[i].number != number)
    && (forall i :: i in s.invoices && InSeries(s.invoices[i], YearOf(date), docType) ==>
        s.invoices[i].sequence.value != sequence)
    && (forall i :: i in s.invoices ==> s.invoices[i].fileName != Some(fileName))
  }

  function ImportedRow(docType: DocType, date: Day, number: string, sequence: int, fileName: string): Invoice {
    Invoice(docType, YearOf(date), date, Some(sequence), number, Issued, None, Some(fileName), true, None)
  }

  ghost function Import(s: Store, docType: DocType, date: Day, number: string, sequence: int, fileName: string): Store {
    if !MayImport(s, docType, date, number, sequence, fileName) then s
    else s.(invoices := s.invoices[s.nextInvoice := ImportedRow(docType, date, number, sequence, fileName)],
            nextInvoice := s.nextInvoice + 1)
  }

  // ---------- Status changes driven by a file ----------

  datatype Effect = NoEffect | Claim | Reopen | SetOutcome(status: Status, deliveredOn: Option<Day>)

  /** The file is still the invoice's own. */
  predicate IsCurrent(invoices: map<int, Invoice>, id: int, fileName: string) {
    id in invoices && invoices[id].fileName == Some(fileName)
  }

  predicate MayClaim(invoices: map<int, Invoice>, id: int, fileName: string) {
    IsCurrent(invoices, id, fileName) && invoices[id].status == Issued
  }

  function ApplyEffect(invoices: map<int, Invoice>, id: int, fileName: string, e: Effect): map<int, Invoice> {
    match e
    case NoEffect => invoices
    case Claim => if MayClaim(invoices, id, fileName) then invoices[id := invoices[id].(status := Sent)] else invoices
    case Reopen =>
      if IsCurrent(invoices, id, fileName) && invoices[id].status == Sent
        then invoices[id := invoices[id].(status := Issued)] else invoices
    case SetOutcome(status, day) =>
      if IsCurrent(invoices, id, fileName) && invoices[id].status != Cancelled
      then invoices[id := invoices[id].(status := status, deliveredOn := day)] else invoices
  }

  // ---------- Transmissions and receipts ----------

  predicate HasOutcome(t: Transmission) { t.status.SdiDelivered? || t.status.SdiNotDelivered? || t.status.SdiRejected? }

  predicate IsOutcome(s: Status) { s == Delivered || s == NotDelivered || s == Rejected }

  /** A transmission takes a new status and its invoice the effect, together. */
  ghost function Move(s: Store, t: int, status: TransmissionStatus, e: Effect): Store
    requires t in s.transmissions
  {
    var tr := s.transmissions[t];
    s.(transmissions := s.transmissions[t := tr.(status := status)],
       invoices := ApplyEffect(s.invoices, tr.invoiceId, tr.fileName, e))
  }

  ghost function AddTransmission(s: Store, id: int, fileName: string, status: TransmissionStatus): Store {
    s.(transmissions := s.transmissions[s.nextTransmission := Transmission(id, fileName, status)],
       nextTransmission := s.nextTransmission + 1)
  }

  /** Sending claims the invoice with the file that was read, and records the transmission only when the claim wins. */
  ghost function Send(s: Store, id: int, fileName: string): Store {
    if MayClaim(s.invoices, id, fileName) && !s.invoices[id].imported
    then AddTransmission(s.(invoices := ApplyEffect(s.invoices, id, fileName, Claim)), id, fileName, Pending)
    else s
  }

  ghost function SmtpFailed(s: Store, t: int): Store {
    if t in s.transmissions && s.transmissions[t].status == Pending then Move(s, t, Failed, Reopen) else s
  }

  ghost function SmtpDone(s: Store, t: int): Store {
    if t in s.transmissions && s.transmissions[t].status == Pending then Move(s, t, InTransit, NoEffect) else s
  }

  datatype ProviderReceipt = Accepted | Consigned | Failure

  /** Receipts of the mail provider attest the transmission only, and never override an outcome. */
  ghost function ProviderStep(s: Store, t: int, r: ProviderReceipt): Store {
    if t !in s.transmissions || HasOutcome(s.transmissions[t]) then s
    else
      var status := s.transmissions[t].status;
      var reclaim := if status == Failed then Claim else NoEffect;
      if r == Accepted && (status == Pending || status == InTransit || status == Failed)
        then Move(s, t, AcceptedByPec, reclaim)
      else if r == Consigned && status != DeliveredToSdi then Move(s, t, DeliveredToSdi, reclaim)
      else if r == Failure && status != Failed then Move(s, t, Failed, Reopen)
      else s
  }

  datatype ReceiptType = RC | MC | NS

  function OutcomeOf(r: ReceiptType): TransmissionStatus {
    match r case RC => SdiDelivered case MC => SdiNotDelivered case NS => SdiRejected
  }

  function StatusOf(r: ReceiptType): Status {
    match r case RC => Delivered case MC => NotDelivered case NS => Rejected
  }

  function ReceiptOfOutcome(s: TransmissionStatus): Option<ReceiptType> {
    if s.SdiDelivered? then Some(RC) else if s.SdiNotDelivered? then Some(MC)
      else if s.SdiRejected? then Some(NS) else None
  }

  /** The last transmission of a file, if any. */
  ghost predicate IsLatest(s: Store, t: int, fileName: string) {
    && t in s.transmissions && s.transmissions[t].fileName == fileName
    && forall u :: u in s.transmissions && s.transmissions[u].fileName == fileName ==> u <= t
  }

  /** A receipt of SDI applied to a transmission; after an outcome it is only recorded. */
  ghost function SdiStep(s: Store, t: int, r: ReceiptType, day: Option<Day>): Store {
    if t !in s.transmissions || HasOutcome(s.transmissions[t]) then s
    else Move(s, t, OutcomeOf(r), SetOutcome(StatusOf(r), if r == NS then None else day))
  }

  /** A receipt from the mailbox goes to the last transmission of the file it names. */
  ghost function MailboxReceipt(s: Store, fileName: string, r: ReceiptType, day: Option<Day>): Store {
    if exists t :: IsLatest(s, t, fileName) then var t :| IsLatest(s, t, fileName); SdiStep(s, t, r, day) else s
  }

  datatype Decision = New | Duplicate | Conflict(outcome: ReceiptType)

  /** Whether an uploaded receipt is new: one outcome per file. */
  function DecideReceipt(receipt: ReceiptType, alreadyRecorded: bool, knownOutcome: Option<ReceiptType>): Decision {
    if alreadyRecorded then Duplicate
    else if knownOutcome.None? then New
    else if knownOutcome.value == receipt then Duplicate
    else Conflict(knownOutcome.value)
  }

  /** The outcome known for a file: from the upload so far, else from its last transmission. */
  ghost function KnownOutcome(s: Store, fileName: string, remembered: Option<ReceiptType>): Option<ReceiptType> {
    if remembered.Some? then remembered
    else if exists t :: IsLatest(s, t, fileName) then var t :| IsLatest(s, t, fileName);
      ReceiptOfOutcome(s.transmissions[t].status)
    else None
  }

  /** An uploaded receipt, matched to the invoice by the file it names; an invoice never transmitted from here gets a
      transmission of its own. */
  ghost function UploadedReceipt(
    s: Store, fileName: string, r: ReceiptType, day: Option<Day>, alreadyRecorded: bool, remembered: Option<ReceiptType>
  ): Store {
    if !DecideReceipt(r, alreadyRecorded, KnownOutcome(s, fileName, remembered)).New? then s
    else if exists t :: IsLatest(s, t, fileName) then var t :| IsLatest(s, t, fileName); SdiStep(s, t, r, day)
    else if exists id :: IsCurrent(s.invoices, id, fileName) then
      var id :| IsCurrent(s.invoices, id, fileName);
      SdiStep(AddTransmission(s, id, fileName, InTransit), s.nextTransmission, r, day)
    else s
  }
}
