/** Runs from the empty store: an import that takes the old name of a corrected invoice, and issues that act on an old
    reading of their draft. */
module InvoiceCases {
  import opened Dates
  import opened DocumentImport
  import opened DocumentNumbers
  import opened FileNames
  import opened InvoiceLaws
  import opened InvoiceNames
  import opened InvoiceNumbers
  import opened InvoiceRuns
  import opened InvoiceStore
  import opened Radix
  import opened Rounding
  import opened Wrappers

  const DATE := UtcDate(2026, 5, 4)

  /** A request that nothing stands in the way of. */
  predicate Allowed(r: IssueRequest) {
    !r.toPublicBody && r.thresholdsConfirmed && DATE <= r.today && r.start == None
  }

  function FirstName(r: IssueRequest): Result<string, NameError> { InvoiceFileName(r.country, r.fiscalCode, 1) }

  /** Created, issued, sent, rejected by SDI, reopened. */
  function RejectedRun(r: IssueRequest, name: string): seq<Event> {
    [CreateEvent(TD01, DATE), IssueEvent(0, r), SendEvent(0, name), MailboxEvent(name, NS, None), CorrectEvent(0)]
  }

  function Numbered(status: Status, fileName: Option<string>): Invoice {
    Invoice(TD01, 2026, DATE, Some(1), FormatNumber(TD01, 1, 2026), status, None, fileName, false, None)
  }

  const CREATED := Store(map[0 := Invoice(TD01, 2026, DATE, None, "", Draft, None, None, false, None)], map[], 1, 0)

  function IssuedStore(name: string): Store { Store(map[0 := Numbered(Issued, Some(name))], map[], 1, 0) }

  function SentStore(name: string): Store {
    Store(map[0 := Numbered(Sent, Some(name))], map[0 := Transmission(0, name, Pending)], 1, 1)
  }

  function RejectedStore(name: string): Store {
    Store(map[0 := Numbered(Rejected, Some(name))], map[0 := Transmission(0, name, SdiRejected)], 1, 1)
  }

  function CorrectedStore(name: string): Store {
    Store(map[0 := Numbered(Draft, None)], map[0 := Transmission(0, name, SdiRejected)], 1, 1)
  }

  lemma DateIs()
    ensures YearOf(DATE) == 2026
  {
    FieldsOfDate(2026, 5, 4);
  }

  lemma FirstSequence(r: IssueRequest)
    requires r.start == None
    ensures NextSequenceOf({}, Prefix(r.country, r.fiscalCode), r.start) == 1 && FirstName(r).Ok?
  {
    var p := LastProgressive({}, Prefix(r.country, r.fiscalCode), r.start);
    NameLength(r.country, r.fiscalCode, 1);
    hide InvoiceFileName;
    hide NextSequenceOf;
    hide ProgressiveOf;
  }

  lemma CreateStep()
    ensures Step(EMPTY, CreateEvent(TD01, DATE)) == CREATED
  {
    DateIs();
    hide YearOf;
  }

  /** An issue nothing stands in the way of: the next name, the number the reading leads to. */
  lemma IssueIs(s: Store, id: int, seen: Invoice, r: IssueRequest, name: string, n: int)
    requires Allowed(r) && id in s.invoices && s.invoices[id].status == Draft && seen.status == Draft
             && seen.date == DATE
    requires InvoiceFileName(r.country, r.fiscalCode,
                             NextSequenceOf(Recorded(s), Prefix(r.country, r.fiscalCode), r.start)) == Ok(name)
    requires NumberOf(s, seen) == n
    requires forall other ::
               other in s.invoices && other != id && s.invoices[other].docType == s.invoices[id].docType ==>
                 s.invoices[other].sequence != Some(n)
    ensures Issue(s, id, seen, r) == s.(invoices := s.invoices[id := s.invoices[id].(
              sequence := Some(n), number := FormatNumber(seen.docType, n, seen.year), status := Issued,
              fileName := Some(name))])
  {
    hide FormatNumber;
    hide InvoiceFileName;
    hide NextSequenceOf;
    hide Recorded;
    hide NumberOf;
  }

  lemma EmptySeries(s: Store, seen: Invoice)
    requires seen.sequence.None? && forall id :: id in s.invoices ==> !InSeries(s.invoices[id], seen.year, seen.docType)
    ensures NumberOf(s, seen) == 1
  {
    hide LastSequence;
  }

  lemma FirstNameIsNext(s: Store, r: IssueRequest)
    requires s.transmissions == map[] && (forall id :: id in s.invoices ==> s.invoices[id].fileName.None?)
             && r.start == None
    ensures InvoiceFileName(r.country, r.fiscalCode,
                            NextSequenceOf(Recorded(s), Prefix(r.country, r.fiscalCode), r.start)) == FirstName(r)
  {
    assert Recorded(s) == {};
    FirstSequence(r);
    hide Recorded;
    hide NextSequenceOf;
    hide InvoiceFileName;
  }

  lemma IssueStep(r: IssueRequest, name: string)
    requires Allowed(r) && FirstName(r) == Ok(name)
    ensures Step(CREATED, IssueEvent(0, r)) == IssuedStore(name)
  {
    hide NumberOf;
    hide Recorded;
    hide NextSequenceOf;
    hide InvoiceFileName;
    hide Issue;
    hide FirstName;
    hide FormatNumber;
    FirstNameIsNext(CREATED, r);
    EmptySeries(CREATED, CREATED.invoices[0]);
    IssueIs(CREATED, 0, CREATED.invoices[0], r, name, 1);
  }

  lemma SendStep(name: string)
    ensures Step(IssuedStore(name), SendEvent(0, name)) == SentStore(name)
  {
    hide FormatNumber;
  }

  lemma RejectStep(name: string)
    ensures Step(SentStore(name), MailboxEvent(name, NS, None)) == RejectedStore(name)
  {
    var s := SentStore(name);
    LastOfFile(name);
    RejectOutcome(name);
    hide FormatNumber;
    hide IsLatest;
    hide SdiStep;
    hide SentStore;
    hide RejectedStore;
  }

  lemma LastOfFile(name: string)
    ensures IsLatest(SentStore(name), 0, name) && forall t :: IsLatest(SentStore(name), t, name) ==> t == 0
  {
    hide FormatNumber;
  }

  lemma RejectOutcome(name: string)
    ensures SdiStep(SentStore(name), 0, NS, None) == RejectedStore(name)
  {
    hide FormatNumber;
  }

  lemma CorrectStep(name: string)
    ensures Step(RejectedStore(name), CorrectEvent(0)) == CorrectedStore(name)
  {
    hide FormatNumber;
  }

  lemma RunMore(s: Store, events: seq<Event>, e: Event)
    ensures Run(s, events + [e]) == Step(Run(s, events), e)
    ensures Run(s, []) == s
  {
    hide Step;
    assert (events + [e])[..|events + [e]| - 1] == events;
  }

  lemma RunOfFive(s: Store, events: seq<Event>)
    requires |events| == 5
    ensures Run(s, events) == Step(Step(Step(Step(Step(s, events[0]), events[1]), events[2]), events[3]), events[4])
  {
    hide Step;
    RunMore(s, [], events[0]);
    RunMore(s, events[..1], events[1]);
    RunMore(s, events[..2], events[2]);
    RunMore(s, events[..3], events[3]);
    RunMore(s, events[..4], events[4]);
    hide Run;
    assert [] + [events[0]] == events[..1];
    assert events[..1] + [events[1]] == events[..2];
    assert events[..2] + [events[2]] == events[..3];
    assert events[..3] + [events[3]] == events[..4];
    assert events[..4] + [events[4]] == events;
  }

  lemma RejectedRunEnds(r: IssueRequest, name: string)
    requires Allowed(r) && FirstName(r) == Ok(name)
    ensures Run(EMPTY, RejectedRun(r, name)) == CorrectedStore(name)
    ensures Run(EMPTY, RejectedRun(r, name)[..1]) == CREATED
  {
    CreateStep();
    IssueStep(r, name);
    SendStep(name);
    RejectStep(name);
    CorrectStep(name);
    hide Step;
    hide Run;
    hide Allowed;
    hide FirstName;
    hide CorrectedStore;
    var events := RejectedRun(r, name);
    RunOfFive(EMPTY, events);
    RunMore(EMPTY, [], events[0]);
    assert [] + [events[0]] == events[..1];
  }

  // ---------- An import takes the old name ----------

  /** Document 9/2026 of another tool, in a file named like the rejected one. */
  function OtherDocument(c: Context, name: string): Entry {
    Entry(name, Some(Parsed(c.vatNumber, Some(TD01), "9/2026", Some(DATE), [])))
  }

  lemma TextOf2026()
    ensures Text(2026) == "2026" && Text(9) == "9" && Text(1) == "1"
  {
    PrintStep(2026, 10);
    PrintStep(202, 10);
    PrintStep(20, 10);
    PrintStep(2, 10);
    PrintStep(9, 10);
    PrintStep(1, 10);
    hide Print;
  }

  lemma NumbersOf2026()
    ensures FormatNumber(TD01, 9, 2026) == "9/2026" && FormatNumber(TD01, 1, 2026) == "1/2026"
    ensures ParseSequence("9/2026", 2026) == Some(9)
  {
    TextOf2026();
    NumberIsReadBack(TD01, 9, 2026);
    hide Text;
    hide ParseSequence;
  }

  predicate IsSafe(s: string) { forall i :: 0 <= i < |s| ==> SafeChar(s[i]) }

  lemma SafeNameIsStored(e: Entry)
    requires IsSafe(e.fileName)
    ensures StoredFileName(e) == e.fileName
  {
  }

  lemma FirstNameIsSafe(r: IssueRequest, name: string)
    requires FirstName(r) == Ok(name) && IsSafe(r.country) && IsSafe(r.fiscalCode)
    ensures IsSafe(name)
  {
    PrintStep(1, 36);
    hide Print;
    var progressive := PadStart(Print(1, 36), 5, '0');
    assert IsSafe(progressive) && IsSafe("_") && IsSafe(".xml");
    assert name == r.country + r.fiscalCode + "_" + progressive + ".xml";
  }

  lemma OtherDocumentMayBeStored(c: Context, name: string)
    ensures !NumberStored(CorrectedStore(name), OtherDocument(c, name).parsed.value)
    ensures MayImport(CorrectedStore(name), TD01, DATE, "9/2026", 9, name)
  {
    DateIs();
    NumbersOf2026();
    hide YearOf;
    hide FormatNumber;
    hide ParseSequence;
    var invoices := CorrectedStore(name).invoices;
    assert invoices.Keys == {0} && invoices[0].number == "1/2026" && invoices[0].sequence == Some(1)
           && invoices[0].fileName == None;
    assert "1/2026"[0] != "9/2026"[0];
  }

  lemma OtherDocumentIsAcceptable(c: Context, name: string)
    requires DATE <= c.today
    ensures Acceptable(OtherDocument(c, name).parsed.value, c)
  {
    DateIs();
    hide UtcDate;
    hide YearOf;
  }

  lemma OtherDocumentIsImported(c: Context, name: string)
    requires DATE <= c.today && IsSafe(name)
    ensures var s := CorrectedStore(name);
            ImportOne(s, OtherDocument(c, name), c)
              == (Import(s, TD01, DATE, "9/2026", 9, name), DocumentImport.ImportedRow)
  {
    hide Acceptable;
    hide UtcDate;
    hide YearOf;
    hide FormatNumber;
    hide ParseSequence;
    hide StoredFileName;
    hide Import;
    hide NumberStored;
    hide MayImport;
    hide CorrectedStore;
    DateIs();
    NumbersOf2026();
    SafeNameIsStored(OtherDocument(c, name));
    hide IsSafe;
    OtherDocumentMayBeStored(c, name);
    OtherDocumentIsAcceptable(c, name);
  }

  /** Invoice 1/2026 is issued, sent, rejected by SDI and reopened; then document 9/2026, which passes every check, is
      imported from a file with the name of the rejected one: the name has two owners. */
  lemma ImportCanTakeAnOldName(r: IssueRequest, c: Context, name: string)
    requires Allowed(r) && FirstName(r) == Ok(name) && IsSafe(r.country) && IsSafe(r.fiscalCode) && DATE <= c.today
    ensures var s := Run(EMPTY, RejectedRun(r, name));
            var (after, row) := ImportOne(s, OtherDocument(c, name), c);
            && Owned(s) && row.ImportedRow?
            && OwnerOf(after, name, 0) && OwnerOf(after, name, 1) && !Owned(after)
  {
    RejectedRunEnds(r, name);
    FirstNameIsSafe(r, name);
    OtherDocumentIsImported(c, name);
    OtherDocumentMayBeStored(c, name);
    OwnersAfterImport(name);
    hide *;
  }

  lemma OwnersAfterImport(name: string)
    requires MayImport(CorrectedStore(name), TD01, DATE, "9/2026", 9, name)
    ensures var after := Import(CorrectedStore(name), TD01, DATE, "9/2026", 9, name);
            && Owned(CorrectedStore(name))
            && OwnerOf(after, name, 0) && OwnerOf(after, name, 1) && !Owned(after)
  {
    hide FormatNumber;
    hide UtcDate;
    hide YearOf;
    hide MayImport;
    var s := CorrectedStore(name);
    var after := Import(s, TD01, DATE, "9/2026", 9, name);
    assert after.transmissions[0].fileName == name;
    assert IsCurrent(after.invoices, 1, name);
    assert OwnerOf(after, name, 0) && OwnerOf(after, name, 1);
  }

  // ---------- An issue from an old reading ----------

  lemma SecondNameFits(r: IssueRequest, name: string)
    requires FirstName(r) == Ok(name) && r.start == None
    ensures InvoiceFileName(r.country, r.fiscalCode,
                            NextSequenceOf({name}, Prefix(r.country, r.fiscalCode), r.start)).Ok?
  {
    NamesRunOutIff({name}, r.country, r.fiscalCode, r.start);
    hide InvoiceFileName;
    NameIsReadBack(r.country, r.fiscalCode, 1, name);
    hide ProgressiveOf;
    hide NextSequenceOf;
  }

  lemma OneNameRecorded(r: IssueRequest, name: string)
    requires FirstName(r) == Ok(name) && r.start == None
    ensures InvoiceFileName(r.country, r.fiscalCode,
                            NextSequenceOf(Recorded(CorrectedStore(name)), Prefix(r.country, r.fiscalCode),
                                           r.start)).Ok?
  {
    var s := CorrectedStore(name);
    assert s.transmissions[0].fileName == name;
    assert name in Recorded(s) && forall x :: x in Recorded(s) ==> x == name;
    assert Recorded(s) == {name};
    SecondNameFits(r, name);
  }

  /** The draft is read before its first issue; meanwhile it is issued, sent, rejected and reopened as 1/2026. Issuing
      it from that reading makes it 2/2026, and number 1 of the series is gone. */
  lemma StaleIssueRenumbers(r: IssueRequest, name: string)
    requires Allowed(r) && FirstName(r) == Ok(name)
    ensures Run(EMPTY, RejectedRun(r, name)[..1]) == CREATED && Run(EMPTY, RejectedRun(r, name)) == CorrectedStore(name)
    ensures var seen, s := CREATED.invoices[0], CorrectedStore(name);
            var after := Issue(s, 0, seen, r);
            && s.invoices[0].sequence == Some(1)
            && 0 in after.invoices && after.invoices[0].sequence == Some(2)
            && !HasNumber(after, 2026, TD01, 1) && HasNumber(after, 2026, TD01, 2) && !NoGaps(after)
  {
    RejectedRunEnds(r, name);
    StaleIssueIs(r, name);
    hide FirstName;
    hide RejectedRun;
    hide Run;
    hide Issue;
    hide FormatNumber;
    GapOf(Issue(CorrectedStore(name), 0, CREATED.invoices[0], r));
    hide NoGaps;
    hide HasNumber;
  }

  lemma GapOf(after: Store)
    requires after.invoices.Keys == {0} && !after.invoices[0].imported
    requires after.invoices[0].sequence == Some(2) && after.invoices[0].year == 2026
             && after.invoices[0].docType == TD01
    ensures !HasNumber(after, 2026, TD01, 1) && HasNumber(after, 2026, TD01, 2) && !NoGaps(after)
  {
    assert InSeries(after.invoices[0], 2026, TD01);
    assert HasNumber(after, 2026, TD01, 2);
    assert !HasImports(after, 2026, TD01);
    assert !HasNumber(after, 2026, TD01, 1);
  }

  lemma StaleIssueIs(r: IssueRequest, name: string)
    requires Allowed(r) && FirstName(r) == Ok(name)
    ensures var s := CorrectedStore(name);
            var after := Issue(s, 0, CREATED.invoices[0], r);
            && after.invoices.Keys == {0} && !after.invoices[0].imported
            && after.invoices[0].sequence == Some(2) && after.invoices[0].year == 2026
            && after.invoices[0].docType == TD01
  {
    hide Recorded;
    hide NextSequenceOf;
    hide InvoiceFileName;
    hide Issue;
    hide FirstName;
    hide FormatNumber;
    var s, seen := CorrectedStore(name), CREATED.invoices[0];
    OneNameRecorded(r, name);
    var next := InvoiceFileName(r.country, r.fiscalCode,
                                NextSequenceOf(Recorded(s), Prefix(r.country, r.fiscalCode), r.start)).value;
    assert InSeries(s.invoices[0], 2026, TD01);
    assert LastSequence(s.invoices, 2026, TD01) == 1;
    assert NumberOf(s, seen) == 2;
    hide LastSequence;
    hide NumberOf;
    IssueIs(s, 0, seen, r, next, 2);
  }

  /** A reading of another type may also lead to the old number: read as TD06, then made TD01, issued, rejected and
      reopened, the draft keeps 1/2026 when it is issued from that first reading. */
  lemma OldReadingCanKeep(r: IssueRequest, name: string)
    requires Allowed(r) && FirstName(r) == Ok(name)
    ensures var read := Step(EMPTY, CreateEvent(TD06, DATE));
            && Step(read, UpdateEvent(0, TD01, DATE)) == CREATED
            && 0 in read.invoices && read.invoices[0].sequence.None?
            && var after := Issue(CorrectedStore(name), 0, read.invoices[0], r);
            && NumberKept(CorrectedStore(name), after, 0) && after.invoices[0].status == Issued
  {
    ReadAsTD06();
    KeptFromTD06(r, name);
    hide *;
  }

  lemma ReadAsTD06()
    ensures var read := Step(EMPTY, CreateEvent(TD06, DATE));
            && Step(read, UpdateEvent(0, TD01, DATE)) == CREATED
            && 0 in read.invoices && read.invoices[0] == CREATED.invoices[0].(docType := TD06)
  {
    DateIs();
    hide YearOf;
  }

  lemma KeptFromTD06(r: IssueRequest, name: string)
    requires Allowed(r) && FirstName(r) == Ok(name)
    ensures var after := Issue(CorrectedStore(name), 0, CREATED.invoices[0].(docType := TD06), r);
            NumberKept(CorrectedStore(name), after, 0) && after.invoices[0].status == Issued
  {
    hide Recorded;
    hide NumberOf;
    hide NextSequenceOf;
    hide InvoiceFileName;
    hide Issue;
    hide FirstName;
    hide FormatNumber;
    var s, seen := CorrectedStore(name), CREATED.invoices[0].(docType := TD06);
    OneNameRecorded(r, name);
    var next := InvoiceFileName(r.country, r.fiscalCode,
                                NextSequenceOf(Recorded(s), Prefix(r.country, r.fiscalCode), r.start)).value;
    EmptySeries(s, seen);
    IssueIs(s, 0, seen, r, next, 1);
    SameTextIff(TD06, TD01, 1, 2026, 2026);
  }

  // ---------- An issue from a reading of another type ----------

  /** Read as TD01, made a credit note, issued from that reading; then another TD01 is created and issued. */
  function OtherTypeRun(r: IssueRequest): seq<Event> {
    [CreateEvent(TD01, DATE), UpdateEvent(0, TD04, DATE), StaleIssueEvent(0, CREATED.invoices[0], r),
     CreateEvent(TD01, DATE),
     IssueEvent(1, r)]
  }

  const CREDIT_NOTE := Invoice(TD04, 2026, DATE, None, "", Draft, None, None, false, None)

  function CreditNoteStore(name: string): Store {
    Store(map[0 := CREDIT_NOTE.(sequence := Some(1), number := FormatNumber(TD01, 1, 2026), status := Issued,
                                fileName := Some(name))],
          map[], 1, 0)
  }

  function TwoStore(name: string): Store {
    var s := CreditNoteStore(name);
    s.(invoices := s.invoices[1 := CREATED.invoices[0]], nextInvoice := 2)
  }

  lemma CreditNoteStep()
    ensures Step(CREATED, UpdateEvent(0, TD04, DATE)) == CREATED.(invoices := map[0 := CREDIT_NOTE])
  {
    DateIs();
    hide YearOf;
  }

  lemma OldTypeStep(r: IssueRequest, name: string)
    requires Allowed(r) && FirstName(r) == Ok(name)
    ensures Step(CREATED.(invoices := map[0 := CREDIT_NOTE]), StaleIssueEvent(0, CREATED.invoices[0], r))
            == CreditNoteStore(name)
  {
    hide NumberOf;
    hide Recorded;
    hide NextSequenceOf;
    hide InvoiceFileName;
    hide Issue;
    hide FirstName;
    hide FormatNumber;
    var s := CREATED.(invoices := map[0 := CREDIT_NOTE]);
    FirstNameIsNext(s, r);
    EmptySeries(s, CREATED.invoices[0]);
    IssueIs(s, 0, CREATED.invoices[0], r, name, 1);
  }

  lemma SecondDraftStep(name: string)
    ensures Step(CreditNoteStore(name), CreateEvent(TD01, DATE)) == TwoStore(name)
  {
    DateIs();
    hide YearOf;
    hide FormatNumber;
  }

  lemma SecondNameIsNext(r: IssueRequest, name: string)
    requires FirstName(r) == Ok(name) && r.start == None
    ensures InvoiceFileName(r.country, r.fiscalCode,
                            NextSequenceOf(Recorded(TwoStore(name)), Prefix(r.country, r.fiscalCode), r.start)).Ok?
  {
    hide FormatNumber;
    var s := TwoStore(name);
    assert s.invoices[0].fileName.value == name;
    assert name in Recorded(s) && forall x :: x in Recorded(s) ==> x == name;
    assert Recorded(s) == {name};
    SecondNameFits(r, name);
    hide *;
  }

  lemma SecondIssueStep(r: IssueRequest, name: string)
    requires Allowed(r) && FirstName(r) == Ok(name)
    ensures var after := Step(TwoStore(name), IssueEvent(1, r));
            && after.invoices.Keys == {0, 1} && after.invoices[0] == TwoStore(name).invoices[0]
            && after.invoices[1].docType == TD01 && after.invoices[1].number == FormatNumber(TD01, 1, 2026)
  {
    hide NumberOf;
    hide Recorded;
    hide NextSequenceOf;
    hide InvoiceFileName;
    hide Issue;
    hide FirstName;
    hide FormatNumber;
    var s := TwoStore(name);
    SecondNameIsNext(r, name);
    EmptySeries(s, s.invoices[1]);
    var second := InvoiceFileName(r.country, r.fiscalCode,
                                  NextSequenceOf(Recorded(s), Prefix(r.country, r.fiscalCode), r.start)).value;
    IssueIs(s, 1, s.invoices[1], r, second, 1);
  }

  /** The credit note has the text 1/2026 of an invoice, and so has the next invoice, although the sequences are
      apart. */
  lemma StaleTypeRepeatsText(r: IssueRequest, name: string)
    requires Allowed(r) && FirstName(r) == Ok(name)
    ensures var s := Run(EMPTY, OtherTypeRun(r));
            && s.invoices.Keys == {0, 1} && SlotsUnique(s)
            && s.invoices[0].docType == TD04 && !NumberWritten(s.invoices[0])
            && s.invoices[1].docType == TD01
            && s.invoices[0].number == "1/2026" && s.invoices[1].number == "1/2026"
  {
    var events := OtherTypeRun(r);
    NumbersAreUniqueWithoutGaps(events, 2026, TD01);
    NumbersOf2026();
    SameTextIff(TD01, TD04, 1, 2026, 2026);
    CreateStep();
    CreditNoteStep();
    OldTypeStep(r, name);
    SecondDraftStep(name);
    SecondIssueStep(r, name);
    RunOfFive(EMPTY, events);
    hide Step;
    hide Run;
    hide Allowed;
    hide FirstName;
    hide SlotsUnique;
    hide FormatNumber;
  }
}
