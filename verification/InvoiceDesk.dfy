/** The invoice services as they act on the stored rows, each request and status change against its step. */
module InvoiceDesk {
  import opened Dates
  import opened FileNames
  import opened InvoiceStore
  import opened Wrappers

  class Desk {
    var invoices: map<int, Invoice>
    var transmissions: map<int, Transmission>
    var nextInvoice: int
    var nextTransmission: int

    ghost function Contents(): Store
      reads this
    {
      Store(invoices, transmissions, nextInvoice, nextTransmission)
    }

    constructor ()
      ensures Contents() == EMPTY
    {
      invoices, transmissions, nextInvoice, nextTransmission := map[], map[], 0, 0;
    }

    method Create(docType: DocType, date: Day) returns (id: int)
      modifies this
      ensures id == old(nextInvoice) && Contents() == InvoiceStore.Create(old(Contents()), docType, date, None)
    {
      id := Insert(NewDraft(docType, date, None));
    }

    method Insert(row: Invoice) returns (id: int)
      modifies this
      ensures id == old(nextInvoice)
      ensures Contents() == old(Contents()).(invoices := old(invoices)[id := row], nextInvoice := id + 1)
    {
      id := nextInvoice;
      invoices := invoices[id := row];
      nextInvoice := nextInvoice + 1;
    }

    method Update(id: int, docType: DocType, date: Day) returns (ok: bool)
      modifies this
      ensures ok == MayUpdate(old(Contents()), id, docType, date)
      ensures Contents() == InvoiceStore.Update(old(Contents()), id, docType, date)
    {
      if id !in invoices || invoices[id].status != Draft {
        return false;
      }
      var existing := invoices[id];
      if IsCorrection(existing) && (date != existing.date || docType != existing.docType) {
        return false;
      }
      invoices := invoices[id := existing.(docType := docType, date := date, year := YearOf(date))];
      ok := true;
    }

    method Remove(id: int) returns (ok: bool)
      modifies this
      ensures ok == MayRemove(old(Contents()), id)
      ensures Contents() == InvoiceStore.Remove(old(Contents()), id)
    {
      if id !in invoices || invoices[id].status != Draft || IsCorrection(invoices[id]) {
        return false;
      }
      invoices := map i | i in invoices && i != id ::
        if invoices[i].replacesId == Some(id) then invoices[i].(replacesId := None) else invoices[i];
      transmissions := map t | t in transmissions && transmissions[t].invoiceId != id :: transmissions[t];
      ok := true;
    }

    /** The greatest sequence of the series, asked of the database. */
    method LastSequenceOf(year: int, docType: DocType) returns (n: int)
      ensures n == LastSequence(invoices, year, docType)
    {
      n := 0;
      var found, keys := false, invoices.Keys;
      while exists k :: k in keys
        invariant keys <= invoices.Keys
        invariant found ==> exists id ::
                  id in invoices && InSeries(invoices[id], year, docType) && invoices[id].sequence.value == n
        invariant forall id :: id in invoices && id !in keys && InSeries(invoices[id], year, docType) ==>
                    found && invoices[id].sequence.value <= n
        invariant !found ==> n == 0
        decreases |keys|
      {
        var id :| id in keys;
        keys := keys - {id};
        if InSeries(invoices[id], year, docType) && (!found || invoices[id].sequence.value > n) {
          found, n := true, invoices[id].sequence.value;
        }
      }
      LastSequenceIs(invoices, year, docType, found, n);
    }

    /** Every file name in use, on invoices and transmissions, asked of the database. */
    method UsedNames() returns (names: seq<string>)
      ensures SetOf(names) == Recorded(Contents())
    {
      names := [];
      var ids, ts := invoices.Keys, transmissions.Keys;
      while exists k :: k in ids
        invariant ids <= invoices.Keys
        invariant forall name :: name in names <==>
                    exists id :: id in invoices && id !in ids && invoices[id].fileName == Some(name)
        decreases |ids|
      {
        var id :| id in ids;
        ids := ids - {id};
        if invoices[id].fileName.Some? {
          names := names + [invoices[id].fileName.value];
        }
      }
      ghost var first := names;
      while exists k :: k in ts
        invariant ts <= transmissions.Keys
        invariant forall name :: name in names <==>
                    name in first || exists t :: t in transmissions && t !in ts && transmissions[t].fileName == name
        decreases |ts|
      {
        var t :| t in ts;
        ts := ts - {t};
        names := names + [transmissions[t].fileName];
      }
    }

    /** Issue of a draft that the request read as `seen` before taking the lock. */
    method IssueSeen(id: int, seen: Invoice, r: IssueRequest) returns (ok: bool)
      modifies this
      ensures Contents() == InvoiceStore.Issue(old(Contents()), id, seen, r)
      ensures !ok ==> Contents() == old(Contents())
    {
      hide LastSequence;
      hide FormatNumber;
      hide InvoiceFileName;
      hide NextSequenceOf;
      hide Recorded;
      hide SlotTaken;
      if !MayIssue(seen, r) {
        return false;
      }
      if id !in invoices || invoices[id].status != Draft {
        return false;
      }
      var last := LastSequenceOf(seen.year, seen.docType);
      var sequence := if seen.sequence.Some? then seen.sequence.value else last + 1;
      var number := FormatNumber(seen.docType, sequence, seen.year);
      var used := UsedNames();
      var progressive := NextFileSequence(used, r.country, r.fiscalCode, r.start);
      var name := InvoiceFileName(r.country, r.fiscalCode, progressive);
      if name.Err? {
        return false;
      }
      var row := invoices[id].(sequence := Some(sequence), number := number, status := Issued,
                               fileName := Some(name.value));
      if SlotTaken(invoices, id, row) {
        return false;
      }
      invoices := invoices[id := row];
      ok := true;
    }

    method Issue(id: int, r: IssueRequest) returns (ok: bool)
      modifies this
      ensures Contents() == if id in old(invoices)
              then InvoiceStore.Issue(old(Contents()), id, old(invoices[id]), r) else old(Contents())
    {
      if id !in invoices {
        return false;
      }
      hide InvoiceStore.Issue;
      ok := IssueSeen(id, invoices[id], r);
    }

    method ReopenForCorrection(id: int) returns (ok: bool)
      modifies this
      ensures ok == MayCorrect(old(Contents()), id)
      ensures Contents() == InvoiceStore.ReopenForCorrection(old(Contents()), id)
    {
      if id !in invoices || invoices[id].status != Rejected || invoices[id].imported || IsReplaced(invoices, id) {
        return false;
      }
      invoices := invoices[id := invoices[id].(status := Draft, fileName := None, deliveredOn := None)];
      ok := true;
    }

    method CreateReplacement(id: int, today: Day) returns (r: Option<int>)
      modifies this
      ensures r.Some? == MayCorrect(old(Contents()), id)
      ensures Contents() == InvoiceStore.CreateReplacement(old(Contents()), id, today)
    {
      if id !in invoices || invoices[id].status != Rejected || invoices[id].imported || IsReplaced(invoices, id) {
        return None;
      }
      var draft := Insert(NewDraft(invoices[id].docType, today, Some(id)));
      r := Some(draft);
    }

    // ---------- Status changes ----------

    method ClaimForSending(id: int, fileName: string) returns (won: bool)
      modifies this`invoices
      ensures won == MayClaim(old(invoices), id, fileName)
      ensures invoices == ApplyEffect(old(invoices), id, fileName, Claim)
    {
      won := IsCurrent(invoices, id, fileName) && invoices[id].status == Issued;
      if won {
        invoices := invoices[id := invoices[id].(status := Sent)];
      }
    }

    method Reopen(id: int, fileName: string)
      modifies this`invoices
      ensures invoices == ApplyEffect(old(invoices), id, fileName, Effect.Reopen)
    {
      if IsCurrent(invoices, id, fileName) && invoices[id].status == Sent {
        invoices := invoices[id := invoices[id].(status := Issued)];
      }
    }

    method SetSdiOutcome(id: int, fileName: string, status: Status, deliveredOn: Option<Day>)
      modifies this`invoices
      ensures invoices == ApplyEffect(old(invoices), id, fileName, SetOutcome(status, deliveredOn))
    {
      if IsCurrent(invoices, id, fileName) && invoices[id].status != Cancelled {
        invoices := invoices[id := invoices[id].(status := status, deliveredOn := deliveredOn)];
      }
    }

    /** Sending: the claim comes first, and only its winner records a transmission. */
    method Send(id: int, fileName: string) returns (won: bool)
      modifies this
      ensures won == (MayClaim(old(invoices), id, fileName) && !old(invoices)[id].imported)
      ensures Contents() == InvoiceStore.Send(old(Contents()), id, fileName)
    {
      if id !in invoices || invoices[id].imported {
        return false;
      }
      won := ClaimForSending(id, fileName);
      if won {
        transmissions := transmissions[nextTransmission := Transmission(id, fileName, Pending)];
        nextTransmission := nextTransmission + 1;
      }
    }

    /** Stores an imported document whose checks passed. */
    method ImportDocument(docType: DocType, date: Day, number: string, sequence: nat, fileName: string)
      returns (ok: bool)
      modifies this
      ensures ok == MayImport(old(Contents()), docType, date, number, sequence, fileName)
      ensures Contents() == InvoiceStore.Import(old(Contents()), docType, date, number, sequence, fileName)
    {
      hide YearOf;
      var year := YearOf(date);
      if (exists i ::
            i in invoices && invoices[i].year == year && invoices[i].docType == docType && invoices[i].number == number)
        || (exists i :: i in invoices && InSeries(invoices[i], year, docType) && invoices[i].sequence.value == sequence)
        || (exists i :: i in invoices && invoices[i].fileName == Some(fileName)) {
        return false;
      }
      var id := Insert(ImportedRow(docType, date, number, sequence, fileName));
      ok := true;
    }
  }

  lemma LastSequenceIs(invoices: map<int, Invoice>, year: int, docType: DocType, found: bool, n: int)
    requires found ==> exists id ::
             id in invoices && InSeries(invoices[id], year, docType) && invoices[id].sequence.value == n
    requires forall id :: id in invoices && InSeries(invoices[id], year, docType) ==>
             found && invoices[id].sequence.value <= n
    requires !found ==> n == 0
    ensures n == LastSequence(invoices, year, docType)
  {
    var s := SeriesOf(invoices, year, docType);
    if found {
      var id :| id in invoices && InSeries(invoices[id], year, docType) && invoices[id].sequence.value == n;
      assert n in s;
      assert Greatest(s) == n;
    }
  }
}
