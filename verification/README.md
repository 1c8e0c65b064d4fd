# OpenTax IT: model of its calendar, F24 planner, F24 file, invoice life cycle and inbox reader

A Dafny model of the parts of OpenTax IT whose correctness depends on loops, roundings, layouts or whole histories:

- **Calendar** (`Dates`, `Easter`, `Calendar`): the Gregorian computus against the tables of the calendar, the Italian public
  holidays, and the walks to the next and previous business days.
- **F24 planner** (`Installments`, `F24`, `Schedule`, `ScheduleLaws`, `ScheduleInputs`, `ScheduleRows`,
  `InterestGroups`, `ScheduleForms`, `CreditOffset`, `Planner`, `PlanCash`, `CompensationLimits`): how balances and first
  advances become installments and forms, how credits are offset on the zero-balance form, and what is conserved to the
  cent along the way.
- **F24 telematic file** (`TelematicRecord`, `TelematicForm`, `TelematicWriter`, `TelematicDecoder`, `TelematicAmount`,
  `TelematicFile`, `TelematicLimits`, `TelematicFileLimits`, `TelematicRows`, `TelematicSchedule`,
  `TelematicCompensation`): the record writer over its character buffer, the layout of the four records, a decoder, and
  exactly which forms are accepted.
- **Invoices towards SDI** (`Radix`, `FileNames`, `DocumentNumbers`, `InvoiceStore`, `InvoiceDesk`, `InvoiceLaws`,
  `InvoiceRuns`, `InvoiceNumbers`, `InvoiceNames`, `InvoiceCases`): requests, transmissions and receipts as steps on a
  store, and what holds over every run.
- **Import of documents** (`DocumentImport`): the preview and the import, and the promise the first makes about the second.
- **Inbox reader** (`Inbox`, `InboxReader`): sessions resuming from a cursor while the mailbox changes.

Money is counted in cents, percentages in hundredths, and every `round2` is the exact half-up rounding of a quotient of
integers. Dates are days from 1 January 1970. Exceptions are `Result`, `Option` or an unchanged store. What the program changes
in place is a class (`RecordWriter`, `Desk`, `PecInbox`) or a method with its loops, each proved equal to a function of the
inputs or of the old state; the laws are then lemmas about those functions.

Five results are about what the code does *not* guarantee, each with its exact condition:

- On small INPS balances with a deferral surcharge the last surcharge share is negative; its row is then left out, and the forms
  take more than the plan (`ScheduleForms.SmallBalanceOverpays`). Forms and plan agree exactly on the amounts described by
  `ScheduleInputs.ScheduleTakesThePlansIff`, which large enough amounts satisfy (`ScheduleLaws.LargeAmountsLoseNothing`).
- On small residuals a row of the last form is negative and the telematic file refuses it
  (`TelematicSchedule.SmallAmountsAreRefused`); `TelematicSchedule.ScheduleAcceptedIff` gives the amounts that are accepted.
- An import checks its file name against the stored invoices but not against the transmissions, so it can take the old name of
  an invoice reopened after a rejection (`InvoiceCases.ImportCanTakeAnOldName`); it does so exactly when the name is on a
  transmission (`InvoiceNames.ImportKeepsOwnedIff`).
- Issuing reads the draft before taking the lock and only its status after. Meanwhile the draft may have been numbered, or
  given another type or date. Whatever was read, the issue keeps its series without gaps exactly when the reading leads to
  the sequence that the draft as it is would take, its own or the next of its series, or the series has imported documents
  (`InvoiceNumbers.IssueKeepsNoGapsIff`); the text written is that of the document exactly when the reading has its prefix
  and year (`InvoiceNumbers.NumberFitsIff`); and a correction keeps its number exactly when both agree with it
  (`InvoiceNumbers.IssueKeepsNumberIff`). Runs in `InvoiceCases`: `StaleIssueRenumbers`, where 1/2026 becomes 2/2026;
  `OldReadingCanKeep`, where a reading of another type keeps 1/2026; `StaleTypeRepeatsText`, where a credit note and an
  invoice both get the text 1/2026. Sequences and file names stay unique all the same (`InvoiceRuns.RunKeepsInv`).
- A message that arrives between the opening of a rescan and its search is handled twice, and only such a message
  (`Inbox.HandledTwiceIff`, `Inbox.NextSessionRepeats`); the cursor goes back exactly then (`Inbox.CursorGoesBackIff`).

To check everything: `dafny verify dfyconfig.toml`.

## Model

| member | source | states |
|---|---|---|
| `Easter.EasterIsFirstSundayAfterFullMoon` | packages/fiscal-rules/src/calendar.ts:25-41 | For every year the result is a Sunday from 22 March to 25 April, and the first Sunday strictly after the paschal full moon. |
| `Easter.MoonOffsetIsEpact` | packages/fiscal-rules/src/calendar.ts:26-33 | The algorithm's distance of the full moon agrees with the epact of the calendar tables, for every year. |
| `Dates.DateOfFields` | packages/fiscal-rules/src/calendar.ts:11-13 | Building a date from the year, month and day read from it gives it back. |
| `Dates.FieldsOfDate` | packages/fiscal-rules/src/calendar.ts:11-13 | Reading the fields of a date of the calendar gives back those it was built from. |
| `Dates.MonthLength` | packages/fiscal-rules/src/calendar.ts:11-13 | The day numbers are the Gregorian calendar: they start at the epoch and every month has its length. |
| `Calendar.ItalianPublicHolidays` | packages/fiscal-rules/src/calendar.ts:48-58 | The set built step by step holds a day exactly when it is a holiday of that year. |
| `Calendar.BusinessDay` | packages/fiscal-rules/src/calendar.ts:60-63 | True exactly on days that are neither weekend nor holiday of their own year. |
| `Calendar.BusinessDayWithinFour` | packages/fiscal-rules/src/calendar.ts:66-70 | From any date a business day comes within four days, because Easter is a Sunday in its window: the walk ends. |
| `Calendar.NextBusinessDay` | packages/fiscal-rules/src/calendar.ts:66-70 | The loop ends with the least business day not before the date, at most four days later. |
| `Calendar.NextBusinessDayMonotone` | packages/fiscal-rules/src/calendar.ts:66-70 | Moving deadlines keeps their order, does nothing the second time, and keeps deadlines five days apart distinct. |
| `Calendar.BusinessDaysBefore` | packages/fiscal-rules/src/calendar.ts:73-81 | The loop ends on a business day with exactly n business days from it to the date. |
| `Calendar.BusinessDaysBeforeUnique` | packages/fiscal-rules/src/calendar.ts:72-81 | No other business day has that many between it and the date. |
| `Installments.SecondInterestBounds` | packages/fiscal-rules/src/installment-plan.ts:56-66 | Due on the 16th, the second installment is 16 to 45 commercial days after the first; at 4% its interest is 0.18 to 0.50. |
| `Installments.MaxInstallmentDates` | packages/fiscal-rules/src/installment-plan.ts:106-125 | The loop gives the due dates up to the limit, or the error when the first date is later than the limit. |
| `Installments.DueDatesAt16` | packages/fiscal-rules/src/installment-plan.ts:105-125 | With day 16 and 16 December: one date for each month left, the 16th, or 20 August. |
| `Installments.InstallmentDates` | packages/fiscal-rules/src/installment-plan.ts:105-125 | Dates start at the first one, one each following month to December and not extendable; strictly increasing, also once moved to business days. |
| `Installments.BuildInstallmentPlan` | packages/fiscal-rules/src/installment-plan.ts:131-164 | The loop gives the plan of the amount, or the error on dates or on the number of installments. |
| `Installments.PrincipalsConserve` | packages/fiscal-rules/src/installment-plan.ts:144-151 | For every amount and n the principals add up to it; all but the last are equal, and the last is within n/2 cents of them. |
| `Installments.LastPrincipalNonNegative` | packages/fiscal-rules/src/installment-plan.ts:144-151 | Exactly when the last principal is negative; from n(n-1)/2 cents up it never is. |
| `Installments.InterestNeverDecreases` | packages/fiscal-rules/src/installment-plan.ts:152 | The interest percentage never decreases along a plan. |
| `Schedule.PlanForValid` | packages/fiscal-rules/src/f24-schedule.ts:181-189 | Whether a plan can be made does not depend on the amount, so the surcharged and base plans fail together. |
| `Schedule.BuildPaymentSchedule` | packages/fiscal-rules/src/f24-schedule.ts:174-243 | The loops give the installment forms with grouped interest and the second-advance form, or the error of the plan. |
| `Schedule.InstallmentLines` | packages/fiscal-rules/src/f24-schedule.ts:200-227 | One turn of the loop: a row a debt, then interest rows grouped by section and year in the order first met. |
| `ScheduleLaws.DebtRowsConserve` | packages/fiscal-rules/src/f24-schedule.ts:203-214 | Over all forms a Treasury debt's rows add up to its surcharged amount, an INPS debt's to the amount without surcharge. |
| `ScheduleLaws.FormTotal` | packages/fiscal-rules/src/f24-schedule.ts:200-226 | Each form takes its installments, principal and interest, less the negative shares whose row is left out. |
| `ScheduleInputs.ComponentsComeFromDues` | packages/fiscal-rules/src/f24-schedule.ts:191-214 | What each row, interest and moved share take is a formula of the debt's amount, the surcharge, the installments and the rates. |
| `ScheduleInputs.ScheduleTakesThePlansIff` | packages/fiscal-rules/src/f24-schedule.ts:197-228 | The forms never take less than the plans, and take exactly them if and only if every installment of every debt has positive interest or moved share, or the two cancel out. |
| `ScheduleInputs.AllKeptIffLast` | packages/fiscal-rules/src/f24-schedule.ts:205-220 | With percentages that are not negative, only the last installment of a debt can fail that condition. |
| `ScheduleRows.FormNonNegativeIff` | packages/fiscal-rules/src/f24-schedule.ts:200-226 | No row of a form is negative if and only if no debt's principal is, nor what any debt adds to an interest row. |
| `ScheduleRows.FormTakes` | packages/fiscal-rules/src/f24-schedule.ts:200-226 | The total of a form is the sum of what it takes of each debt. |
| `ScheduleLaws.ShareSign` | packages/fiscal-rules/src/f24-schedule.ts:205-208 | Only the last surcharge share can be negative, exactly when rounding gave the others more than the surcharge. |
| `ScheduleLaws.TreasurySurchargeConserves` | packages/fiscal-rules/src/f24-schedule.ts:205-214 | The surcharge written on a Treasury debt's rows is its whole surcharge if and only if the last share is not negative. |
| `ScheduleLaws.LargeAmountsLoseNothing` | packages/fiscal-rules/src/f24-schedule.ts:203-225 | With amounts above the stated bound nothing is lost. |
| `InterestGroups.InterestRowTakesItsGroup` | packages/fiscal-rules/src/f24-schedule.ts:202-225 | One interest row for each section and year, with exactly the interest and moved surcharge of its debts. |
| `InterestGroups.InstallmentCodeIsRead` | packages/fiscal-rules/src/f24-schedule.ts:163-165 | The installment code of a row reads back as its number and the number of installments. |
| `ScheduleForms.InstallmentFormsFit` | packages/fiscal-rules/src/f24-schedule.ts:197-228 | Every installment form has at most four Treasury and four INPS rows and no other; all debts share its date. |
| `ScheduleForms.SecondFormsFit` | packages/fiscal-rules/src/f24-schedule.ts:230-235 | The second-advance form has at most one row a section. |
| `ScheduleForms.SmallBalanceOverpays` | packages/fiscal-rules/src/f24-schedule.ts:207-225 | An INPS balance of 1.52 euro, with the program's own sections, on which the forms take more than the plan. |
| `CreditOffset.BuildCompensation` | packages/fiscal-rules/src/f24-schedule.ts:346-401 | The two loops give the offset form, residuals, usages and unused credit described by the specification. |
| `CreditOffset.CoverDebts` | packages/fiscal-rules/src/f24-schedule.ts:360-373 | The loop over the debts covers each by the smaller of what is due and what credit is left. |
| `CreditOffset.MatchCredits` | packages/fiscal-rules/src/f24-schedule.ts:377-399 | The loop over the credits uses each up to what is left to match, with a row and a usage each. |
| `Planner.CompensationBalances` | packages/fiscal-rules/src/f24-schedule.ts:346-401 | The form's debit equals its credit and is the smaller of total credit and positive debts; used plus unused is the credit. |
| `Planner.DebtsAreCoveredInOrder` | packages/fiscal-rules/src/f24-schedule.ts:360-373 | Residual plus offset is the debt for every key, none below zero; a debt is touched only when the earlier ones are covered. |
| `Planner.SecondAdvancesKept` | packages/fiscal-rules/src/f24-schedule.ts:349-373 | Neither second advance is ever offset, nor any INPS amount when the profile has no scheme. |
| `Planner.CreditsAreUsedInOrder` | packages/fiscal-rules/src/f24-schedule.ts:376-399 | A credit is touched only when all earlier ones are exhausted. |
| `Planner.CreditRowIsPaired` | apps/api/src/f24/services/f24.service.ts:216-234 | The k-th credit row saved goes with the k-th usage: same credit and same amount. |
| `Planner.NoCreditIsExceeded` | packages/fiscal-rules/src/f24-schedule.ts:376-399 | Usages are of different credits, in order, none beyond what was available. |
| `PlanCash.ScheduleCash` | apps/api/src/f24/services/f24.service.ts:116-127 | Cash of a schedule: residual, surcharge on it only, interest and second advances; never less, exact if and only if the condition on amounts, installments and rates holds. |
| `PlanCash.PlanConserves` | apps/api/src/f24/services/f24.service.ts:88-128 | From the amounts due: cash over all forms plus credits used is due plus surcharge on the residual plus interest; never less, exact if and only if that condition holds of the residuals. |
| `PlanCash.PaymentDatesIncrease` | apps/api/src/f24/services/f24.service.ts:333-341 | Payment dates moved to business days stay strictly increasing, at most four days after the nominal ones. |
| `CompensationLimits.HorizontalUses` | packages/fiscal-rules/src/compensation-limits.ts:36-50 | The map of what is left vertical, updated along the uses, gives the horizontal part of each use, whatever the amounts. |
| `CompensationLimits.UsesAreSplit` | packages/fiscal-rules/src/compensation-limits.ts:36-50 | For each code vertical plus horizontal is what was used, and the vertical total is what was taken from its row, whatever the amounts. |
| `CompensationLimits.VerticalTotal` | packages/fiscal-rules/src/compensation-limits.ts:32-50 | With amounts that are not negative the vertical total of a code is the smaller of its uses and the debts of its row, in any order. |
| `CompensationLimits.RowsAreDisjoint` | packages/fiscal-rules/src/compensation-limits.ts:15-19 | No debt counts for two codes. |
| `CompensationLimits.CreditsAboveLimit` | packages/fiscal-rules/src/compensation-limits.ts:53-63 | Exactly the keys of the current form whose total over earlier and current uses is above the limit, with that total. |
| `TelematicRecord.RecordWriter.constructor` | packages/fiscal-rules/src/f24-telematic-file.ts:99-106 | A record of spaces with its type and its control character. |
| `TelematicRecord.RecordWriter.WriteAn` | packages/fiscal-rules/src/f24-telematic-file.ts:108-112 | The buffer is the rendering of the fields written so far with this one; a value too long is a failure. |
| `TelematicRecord.RecordWriter.WriteNu` | packages/fiscal-rules/src/f24-telematic-file.ts:114-118 | The same for numeric fields; a value with a non-digit or too long is a failure. |
| `TelematicRecord.RecordWriter.Write` | packages/fiscal-rules/src/f24-telematic-file.ts:120-123 | The loop overwrites exactly the characters of the field. |
| `TelematicRecord.FieldsReadBack` | packages/fiscal-rules/src/f24-telematic-file.ts:99-128 | In any order of writing, fields that do not meet are all read back as written. |
| `TelematicRecord.RecordReadsBack` | packages/fiscal-rules/src/f24-telematic-file.ts:99-128 | Every field of a well-formed record is read back at its position. |
| `TelematicRecord.RecordShape` | packages/fiscal-rules/src/f24-telematic-file.ts:102-106 | Every record begins with its type and ends with "A", CR, LF. |
| `TelematicForm.FormIsWellFormed` | packages/fiscal-rules/src/f24-telematic-file.ts:184-252 | The whole layout of record V: about 200 fields inside the buffer, none meeting another. |
| `TelematicWriter.WriteTotals` | packages/fiscal-rules/src/f24-telematic-file.ts:131-138 | Debit, credit, sign and absolute balance are written, and the signed balance returned. |
| `TelematicWriter.WriteSection` | packages/fiscal-rules/src/f24-telematic-file.ts:187-206 | The loop writes the rows, empty ones after the lines, then the totals; it succeeds exactly within the row limit and with every place code. |
| `TelematicWriter.WriteForm` | packages/fiscal-rules/src/f24-telematic-file.ts:184-252 | Record V and the final balance, or a refusal exactly when the form is not allowed. |
| `TelematicDecoder.SectionReadsBack` | packages/fiscal-rules/src/f24-telematic-file.ts:198-235 | Decoding a section gives back every row in order, empty ones after them, the totals and the signed balance. |
| `TelematicDecoder.FormReadsBack` | packages/fiscal-rules/src/f24-telematic-file.ts:184-252 | Decoding record V gives back exactly the rows of the lines of every section, and the final balance. |
| `TelematicDecoder.CleanKeepsIff` | packages/fiscal-rules/src/f24-telematic-file.ts:77-83 | A text comes back unchanged if and only if it is printable, in capitals and without trailing space. |
| `TelematicDecoder.PeriodReadsBack` | packages/fiscal-rules/src/f24-telematic-file.ts:89-90 | A period MM/YYYY comes back as its six digits. |
| `TelematicAmount.AmountIsReadBack` | packages/fiscal-rules/src/f24-telematic-file.ts:91-96 | The Italian amount is read back to the cent, with or without thousands separators. |
| `TelematicFile.BuildTelematicFile` | packages/fiscal-rules/src/f24-telematic-file.ts:258-264 | The file of the forms, or a refusal exactly when there is none or something is not allowed. |
| `TelematicFile.WriteHeader` | packages/fiscal-rules/src/f24-telematic-file.ts:140-157 | Record A, or a refusal exactly when a value does not fit. |
| `TelematicFile.WriteTaxpayer` | packages/fiscal-rules/src/f24-telematic-file.ts:159-182 | Record M, or a refusal exactly when a value does not fit. |
| `TelematicFile.WriteTrailer` | packages/fiscal-rules/src/f24-telematic-file.ts:254-256 | Record Z, or a refusal exactly when the count does not fit. |
| `TelematicFile.HeaderIsWellFormed` | packages/fiscal-rules/src/f24-telematic-file.ts:140-157 | No two fields of record A meet, all inside the buffer. |
| `TelematicFile.TaxpayerIsWellFormed` | packages/fiscal-rules/src/f24-telematic-file.ts:159-182 | No two fields of record M meet, all inside the buffer. |
| `TelematicFile.FileLayout` | packages/fiscal-rules/src/f24-telematic-file.ts:258-264 | 1900 characters times the forms plus three; each stretch is a record of type A, M, V or Z ending with "A", CR, LF. |
| `TelematicFile.FileReadsBack` | packages/fiscal-rules/src/f24-telematic-file.ts:184-264 | From the file alone: for every form and section exactly the rows written, and the balances. |
| `TelematicFile.AmountToDebit` | packages/fiscal-rules/src/f24-telematic-file.ts:179 | The amount on record M is the sum of the form balances, none negative. |
| `TelematicFile.DateReadsBack` | packages/fiscal-rules/src/f24-telematic-file.ts:88 | The payment date of a form reads back, for years of four digits. |
| `TelematicFileLimits.DateIsWholeIff` | packages/fiscal-rules/src/f24-telematic-file.ts:86-88 | Of the dates accepted, those written in full are those from the year 1000 on. |
| `TelematicLimits.AcceptedIff` | packages/fiscal-rules/src/f24-telematic-file.ts:184-250 | A form is accepted if and only if its sections, rows and places are allowed, the balance is not negative and its values fit. |
| `TelematicFileLimits.FileAcceptedIff` | packages/fiscal-rules/src/f24-telematic-file.ts:140-264 | A file is written if and only if it has forms, each accepted, and their number and total, the birth date, the province and the IBAN fit. |
| `TelematicSchedule.InstallmentFormAcceptedIff` | packages/fiscal-rules/src/f24-schedule.ts:197-228 | With codes that fit, an installment form is accepted if and only if every debt's principal and what it adds to an interest row are not negative and the total fits: formulas of amounts, installments and rates. |
| `TelematicSchedule.ScheduleAcceptedIff` | packages/fiscal-rules/src/f24-schedule.ts:197-228 | All forms of a schedule are accepted if and only if that holds of the last installment of each debt and every total fits. |
| `TelematicSchedule.LargeAmountsAreAccepted` | packages/fiscal-rules/src/f24-schedule.ts:197-228 | The bound on amounts that loses nothing is enough for acceptance too. |
| `TelematicSchedule.SmallAmountsAreRefused` | packages/fiscal-rules/src/f24-schedule.ts:197-228 | Residuals of 3 cents of tax and of 3.74 euro of INPS in six installments whose last form is refused. |
| `TelematicSchedule.SecondFormAcceptedIff` | packages/fiscal-rules/src/f24-schedule.ts:230-235 | The second-advance form is accepted if and only if its total fits. |
| `TelematicRows.RowsAcceptedIff` | packages/fiscal-rules/src/f24-telematic-file.ts:184-250 | The writer accepts a form if and only if each section holds its rows, each row has its codes, place and amounts that are not negative, and totals and balance fit. |
| `TelematicCompensation.CompensationFormAcceptedIff` | packages/fiscal-rules/src/f24-schedule.ts:346-401 | With codes that fit, the zero-balance form is accepted if and only if every used credit has its codes, year and place, and every section holds its offset debts and used credits in rows and totals. |
| `Radix.ReadPrint` | packages/fatturapa/src/builder.ts:240 | Printing and reading a number are inverse, in every base up to 36. |
| `Radix.ReadPadded` | packages/fatturapa/src/builder.ts:240 | Leading zeros do not change what is read. |
| `Radix.PrintLength` | packages/fatturapa/src/builder.ts:241 | A number takes at most k digits if and only if it is below the k-th power of the base. |
| `FileNames.NextFileSequence` | packages/fatturapa/src/builder.ts:252-262 | The loop over the names gives one above the greatest progressive and at least the start. |
| `FileNames.NameIsReadBack` | packages/fatturapa/src/builder.ts:239-262 | The name of a progressive is read back as it, in any case and with either extension. |
| `FileNames.NamesAreInjective` | packages/fatturapa/src/builder.ts:239-243 | Names are refused exactly from 36^5 on; different progressives give names that differ ignoring case. |
| `FileNames.NextNameIsNew` | packages/fatturapa/src/builder.ts:239-262 | The next name differs, ignoring case, from every existing one whatever its padding or extension, and is at least the start. |
| `FileNames.NamesRunOutIff` | packages/fatturapa/src/builder.ts:239-262 | No name is left if and only if an existing one has the progressive ZZZZZ or the start is beyond it. |
| `InvoiceDesk.Desk.Create` | apps/api/src/invoices/services/invoices.service.ts:195-201 | Adds a draft without number and changes nothing else. |
| `InvoiceDesk.Desk.Update` | apps/api/src/invoices/services/invoices.service.ts:203-216 | Drafts only; a correction keeps date and type. |
| `InvoiceDesk.Desk.Remove` | apps/api/src/invoices/services/invoices.service.ts:218-223 | Drafts that are not corrections only; transmissions go and links are cleared. |
| `InvoiceDesk.Desk.LastSequenceOf` | apps/api/src/invoices/services/invoices.service.ts:355 | The greatest sequence of the series, zero when empty. |
| `InvoiceDesk.Desk.UsedNames` | apps/api/src/invoices/services/invoices.service.ts:362-366 | Every name on an invoice or a transmission. |
| `InvoiceDesk.Desk.IssueSeen` | apps/api/src/invoices/services/invoices.service.ts:328-395 | Issue of a draft as read before the lock: number, name and status in one step, or nothing. |
| `InvoiceDesk.Desk.Issue` | apps/api/src/invoices/services/invoices.service.ts:328-395 | Issue when nothing happens between the reading and the lock. |
| `InvoiceDesk.Desk.ReopenForCorrection` | apps/api/src/invoices/services/invoices.service.ts:272-279 | Rejected, not imported and not replaced only: back to draft, the file name given up, the number kept. |
| `InvoiceDesk.Desk.CreateReplacement` | apps/api/src/invoices/services/invoices.service.ts:286-318 | A new linked draft dated today, once. |
| `InvoiceDesk.Desk.ClaimForSending` | apps/api/src/invoices/services/invoice-status.service.ts:26-29 | Issued to sent for the current file; tells who won. |
| `InvoiceDesk.Desk.Reopen` | apps/api/src/invoices/services/invoice-status.service.ts:32-34 | Sent to issued for the current file only. |
| `InvoiceDesk.Desk.SetSdiOutcome` | apps/api/src/invoices/services/invoice-status.service.ts:40-45 | Outcome and day for the current file unless cancelled. |
| `InvoiceDesk.Desk.Send` | apps/api/src/sdi/services/sdi-transmissions.service.ts:63-68 | The claim and the transmission together, or nothing. |
| `InvoiceDesk.Desk.ImportDocument` | apps/api/src/invoices/services/invoices-import.service.ts:148-220 | Stores the document exactly when number, sequence and file name are free. |
| `InvoiceRuns.RunKeepsInv` | apps/api/src/invoices/services/invoices.service.ts:195-395 | Rows in order, sequences and file names unique, links and transmissions sound in every reachable state, also with issues that act on any old reading. |
| `InvoiceNumbers.NumbersAreUniqueWithoutGaps` | apps/api/src/invoices/services/invoices.service.ts:353-359 | In every reachable state sequences are unique in a year and type; when issues act on the draft as it is, without imports they are exactly 1 to the last. |
| `InvoiceNumbers.NumberSurvives` | apps/api/src/invoices/services/invoices.service.ts:265-279 | A number once assigned survives every later event unchanged, when issues act on the draft as it is. |
| `InvoiceRuns.ReplacedStaysRejected` | apps/api/src/invoices/services/invoices.service.ts:272-318 | With one outcome a file, an invoice with a replacement stays rejected, is never reopened, and has one replacement. |
| `InvoiceRuns.ReceiptTouchesNamedOnly` | apps/api/src/sdi/services/transmission-transitions.ts:23-66 | Every send and receipt changes only status and delivery day, and only of an invoice whose current file it names. |
| `InvoiceRuns.LateEventChangesNothing` | apps/api/src/invoices/services/invoice-status.service.ts:14-48 | A send or receipt about a file that is not the invoice's current one leaves the invoice as it is. |
| `InvoiceNames.IssueTakesNewName` | apps/api/src/invoices/services/invoices.service.ts:360-367 | Over any run each issue, also from an old reading, takes a name never recorded before on any invoice or transmission. |
| `InvoiceNames.RecordedForEver` | apps/api/src/invoices/services/invoices.service.ts:265-279 | A name once recorded is recorded at every later point. |
| `InvoiceNames.NameBelongsForEver` | apps/api/src/invoices/services/invoices.service.ts:265-279 | A file name belongs to one invoice for ever, as long as no import takes a transmission's name. |
| `InvoiceNames.ImportKeepsOwnedIff` | apps/api/src/invoices/services/invoices-import.service.ts:154-156 | An import breaks that ownership if and only if its name is on a transmission. |
| `InvoiceCases.ImportCanTakeAnOldName` | apps/api/src/invoices/services/invoices-import.service.ts:127-157 | A run from the empty store, then an import that passes every check, after which a name has two owners. |
| `InvoiceNames.OldFileIsDead` | apps/api/src/invoices/services/invoices.service.ts:265-279 | After a reopening, in every later state of any run, a send or receipt about the old file leaves the invoice as it is. |
| `InvoiceNames.ClaimsAreExclusive` | apps/api/src/invoices/services/invoice-status.service.ts:25-34 | An issued file is claimed at most once, by a send or by a provider receipt after a failure, plus once for each time it was given back. |
| `InvoiceNumbers.IssueKeepsNumberIff` | apps/api/src/invoices/services/invoices.service.ts:328-384 | Whatever was read before the lock, a correction keeps its number at issue if and only if the reading leads to its sequence and has its prefix and year. |
| `InvoiceNumbers.OldNumberStaysIff` | apps/api/src/invoices/services/invoices.service.ts:347-384 | Whatever was read, the old number of a correction is in its series after the issue if and only if the reading leads to it; otherwise nobody has it. |
| `InvoiceNumbers.NumberFitsIff` | apps/api/src/invoices/services/invoices.service.ts:347-384 | Whatever was read, the text written at issue is that of the document if and only if the reading has the document's prefix and year. |
| `InvoiceNumbers.IssueKeepsNoGapsIff` | apps/api/src/invoices/services/invoices.service.ts:328-390 | Whatever was read, an issue keeps the series without gaps if and only if the reading leads to the number the draft as it is would take, or the series has imports. |
| `InvoiceCases.StaleIssueRenumbers` | apps/api/src/invoices/services/invoices.service.ts:328-390 | A run from the empty store in which an issue from an old reading turns 1/2026 into 2/2026 and leaves a gap. |
| `InvoiceCases.OldReadingCanKeep` | apps/api/src/invoices/services/invoices.service.ts:203-390 | A draft read as TD06, made TD01, issued, rejected and reopened keeps 1/2026 when it is issued from that reading. |
| `InvoiceCases.StaleTypeRepeatsText` | apps/api/src/invoices/services/invoices.service.ts:203-390 | A run from the empty store in which a credit note, issued from a reading as invoice, and the next invoice both get the text 1/2026. |
| `InvoiceNames.IssueNeedsNameIff` | apps/api/src/invoices/services/invoices.service.ts:360-383 | An issue finds no name if and only if the last progressive is recorded or the start is beyond it. |
| `InvoiceNames.NoIssueAfterLastName` | apps/api/src/invoices/services/invoices.service.ts:360-383 | Once the last progressive is recorded, every later issue of that transmitter, over any run, is refused. |
| `InvoiceNumbers.IssueNeverDuplicates` | apps/api/src/invoices/services/invoices.service.ts:386-390 | Whatever was read, two documents never share a sequence. |
| `DocumentNumbers.NumberIsReadBack` | apps/api/src/invoices/services/invoices-import.service.ts:280-285 | A number written at issue is read back as its sequence, even when it equals the year. |
| `DocumentImport.PreviewEntries` | apps/api/src/invoices/services/invoices-import.service.ts:61-107 | The loop with its in-memory sets gives the preview of every row. |
| `DocumentImport.PreviewEntry` | apps/api/src/invoices/services/invoices-import.service.ts:68-105 | One turn: the row, and what is remembered of it. |
| `DocumentImport.ImportEntries` | apps/api/src/invoices/services/invoices-import.service.ts:109-120 | The import in order, a failed document stopping nothing; the final store. |
| `DocumentImport.ImportEntry` | apps/api/src/invoices/services/invoices-import.service.ts:160-221 | One document: refused, skipped as already stored, or stored. |
| `DocumentImport.NewExactlyWhen` | apps/api/src/invoices/services/invoices-import.service.ts:88-102 | A row is new if and only if the store would take it and no earlier document of the upload is in its way. |
| `DocumentImport.NewRowsAreImported` | apps/api/src/invoices/services/invoices-import.service.ts:60-120 | Importing any of the rows marked new, in any order, the same day or later, imports every one; sequences, file names and numbers stay unique. |
| `DocumentImport.ImportKeepsNumbersUnique` | apps/api/src/invoices/services/invoices-import.service.ts:109-220 | Whatever is imported, documents of a year and type keep different numbers. |
| `DocumentImport.StoredNumberIsParsed` | apps/api/src/invoices/services/invoices-import.service.ts:148-150 | A number found in the store always yields its row's sequence, so the fallbacks for it are never used. |
| `DocumentImport.RunKeepsNumbersUnique` | apps/api/src/invoices/services/invoices-import.service.ts:148-157 | Over every run in which issues act on the draft as it is, no two documents of a year and type have the same number, issued or imported. |
| `Inbox.NothingIsLost` | apps/api/src/sdi/services/pec-imap.service.ts:37-77 | Over any run, also across new UIDVALIDITY values: every message due up to the cursor was handled, once, or twice exactly when the completed rescan took it early. |
| `Inbox.HandledTwiceIff` | apps/api/src/sdi/services/pec-imap.service.ts:69-71 | Over any run a present message up to the cursor was handled twice if and only if the completed rescan handled it although it arrived after that rescan opened. |
| `Inbox.NextSessionRepeats` | apps/api/src/sdi/services/pec-imap.service.ts:51-72 | Whatever the rescan took early is handled again by the next session that ends normally. |
| `Inbox.ResumedRunHandlesOnce` | apps/api/src/sdi/services/pec-imap.service.ts:37-77 | From a cursor, under one UIDVALIDITY: in UID order, and exactly once each message still there, not too large and up to the cursor. |
| `Inbox.EndedSessionHasReadAll` | apps/api/src/sdi/services/pec-imap.service.ts:53-72 | A session that ends normally has handled every message due that was there when it opened and still is. |
| `Inbox.CursorGoesBackIff` | apps/api/src/sdi/services/pec-imap.service.ts:69-71 | The cursor goes back if and only if a rescan handled a message newer than those there when it opened. |
| `Inbox.RescanCanRepeat` | apps/api/src/sdi/services/pec-imap.service.ts:55-71 | A run in which a message is handled twice. |
| `Inbox.StepKeepsInv` | apps/api/src/sdi/services/pec-imap.service.ts:48-72 | Every step of a session, arrival, expunge, failure or new UIDVALIDITY keeps the invariant of cursor, list and log. |
| `Inbox.StepKeepsCovered` | apps/api/src/sdi/services/pec-imap.service.ts:48-72 | Every step keeps that what is due is handled up to the cursor or still to come. |
| `InboxReader.PecInbox.ReadInbox` | apps/api/src/sdi/services/pec-imap.service.ts:44-77 | Whatever happens at each wait, a session is a run of the machine, ended by saving the cursor when it ends normally. |
| `InboxReader.PecInbox.OpenInbox` | apps/api/src/sdi/services/pec-imap.service.ts:50-52 | The resume point, when the saved UIDVALIDITY is that of the mailbox, and the newest UID. |
| `InboxReader.PecInbox.Sizes` | apps/api/src/sdi/services/pec-imap.service.ts:58-61 | The chosen messages with their sizes, in UID order. |
| `InboxReader.PecInbox.ReadAll` | apps/api/src/sdi/services/pec-imap.service.ts:62-67 | The loop over the list: large or vanished messages skipped, the others handled one at a time until one fails. |
| `InboxReader.PecInbox.Handle` | apps/api/src/sdi/services/sdi-receipts-sync.service.ts:57-65 | The UID is saved with each message handled, never backwards. |

## Left out

- Floating point: `round2` with `Number.EPSILON` and amounts as doubles are exact integers here.
- Prisma, NestJS, storage, audit log, PDF, XML, SMTP and IMAP libraries: the database is a store, and a transaction or a request under the lock is one step.
- Years 0 to 99 and negative years in `Date.UTC`, which reads two-digit years as 19xx.
- Dates written in the right form but not in the calendar (such as 2026-02-31) in imported documents: such a document is taken as one without a date.
- NFD normalisation and letters outside ASCII in the telematic file: each such character is a space here.
- Numbers too large for exact doubles, in document numbers and amounts.
- Texts of errors, descriptions and warnings, and which of several errors is reported first.
- The order of the list `creditsAboveLimit` returns.
- TelematicRecord.RecordWriter.WriteAn: does not model an exception leaving the writer half way; the failure is remembered and the record discarded.
- TelematicFile.DateReadsBack: only years of four digits; an earlier year is written with fewer digits and padded in front (`TelematicFileLimits.DateIsWholeIff`), and what such a field reads as is not stated.
- Customers, payments, stamp duty and amounts of invoices, and the thresholds checked at issue, which are an answer given with the request.
- Two requests between their first reading and their step, except for issue, where it is modelled.
- Receipt recording (one row for each receipt): a receipt already recorded is an answer given with the event.
- InboxReader.PecInbox.Handle: applying a receipt and saving its UID are one step, so a failure between the two is not modelled.
- A UIDVALIDITY that changes during a session or goes back to a value used before, which section 2.3.1.1 of RFC 9051 rules out.
- Two synchronisations at once, when a stale lock is taken over after fifteen minutes.
- The other entities section of the F24, refused by the program, and INAIL, always at zero.
- Rule sets and the schemes' own rows: the codes, reasons and position codes of a scheme are inputs.
- Tax computations, sessions, encryption, zip reading and the web application.
