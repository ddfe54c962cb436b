# Books of a company, verified

A Dafny model of the stateful kernels of a double-entry accounting backend, and proofs about them. Money is
cents, quantities are thousandths, unit costs ten-thousandths; `round2`, `roundQty` and `roundUnitCost` are half-up
integer division (`Rounding.RoundDiv`), so the quantity tolerance of the stock routes becomes an exact comparison. A
request is one atomic step that either takes effect as a whole or is rolled back; only the export queue and the
statements cache interleave, and there the steps are the database operations and callbacks.

How it is laid out:

- `StockLots`, `StockLedger`, `StockCosts`, `StockStore`: lots, the queue of unit costs they stand for, the documents
  that move stock, what the average cost is worth, and the store that updates rows in place.
- `ExportQueue`, `ExportOutcomes`: workers that select, claim, execute and finish jobs, or crash; the rows as a class;
  what becomes of a job.
- `StatementsCache`: the cache with its map of running computations; lookups, results, callbacks, invalidation, clock.
- `Text`, `JournalNumbers`, `Calendar`: numbers as strings, `NC-year-sequence`, periods.
- `CsvRows`, `StatementAmounts`: the CSV reader and the decimal reader of bank statement files.
- `PdfText`, `PdfDocument`, `PdfReferences`: the PDF writer down to the bytes of its cross-reference table, the lengths
  of its streams and the targets of its references.
- `Postings`, `Ledger`: journal lines, entries, reversals, period locks.
- `Payments`, `Sales`, `Purchases`, `PayablesReport`: invoices, supplier invoices with their approval chain, payments,
  the dashboard and the aging report.
- `Depreciation`, `Payroll`: the schedules and the monthly runs.
- `Books`: all of these as one company with one `Execute` over every request. `BooksJournal`, `BooksDocuments`,
  `BooksBank`, `BooksPeriodic`, `ControlAccounts` and `Turnover` prove what holds over every run of requests, mixed in
  any order; `BooksSound` collects the invariants and `Acceptance` says which requests are taken in such a state.
- `Office`: the same routes as statements on a class that stores the rows, each proved to do what `Execute` says.

The main results are about all runs: a FIFO issue drops exactly the first units of the queue; a job has one owner and
the queue comes to rest; the period lock; reversal links as a matching; gapless numbers; the trial balance; bank lines
and payments one for one; the payable and receivable control accounts; the approval chain and who was entitled to move
it; depreciation in any order of months.

Where the code does less than one might expect, the model keeps the code and states exactly when it works:

- An invalidation of the statements cache lets an older result be served if and only if a computation with a time to
  live is running, and lets a key be computed twice if and only if a computation is not settled.
- The number after 1,000,000 in a year is 1,000,000 again, and the uniqueness of numbers then refuses every further
  posting of that year.
- A payment below half a cent, of a customer or to a supplier, is rounded to 0 and still sets PARTIALLY_PAID: the status
  is truthful if and only if at least a cent is paid in all.
- A supplier invoice posts its subtotal and its VAT, each rounded by its column, against their rounded sum: 10.004 and
  1.904 post 11.90 against 11.91. The posted entries balance if and only if no invoice does that.
- Manual lines are rounded one by one after their rounded totals were compared. 0.005 and 0.005 against 0.01 are stored
  out of balance, 10.00 and 0.004 against 10.00 with a 0/0 line. A draft can be validated if and only if both columns
  drift alike, each by the cents its rounded amounts add up to over its rounded total, and no line has less than half a
  cent on both sides; otherwise it stays a draft and its period open for good, because no route edits or deletes an
  entry.
- Reconciliation looks at neither approval nor invoice kind: an unapproved supplier invoice gets paid and can then be
  rejected, a proforma becomes PAID. At all times of a run paid means approved if and only if only approved invoices are
  reconciled, and only fiscal invoices carry payments if and only if only fiscal ones are.
- A fiscal invoice can be credited more than once: it is not if and only if no credit note is made for one that has one.
- The auto-posted entry of a sale has a 0/0 line that `validateDoubleEntry` refuses if and only if its VAT or its
  subtotal is zero.
- Only the delegation with the latest start counts: a caller entitled by another one is let through if and only if the
  latest entitles him too.
- ACCELERATED depreciation over a single month leaves half of the depreciable amount.
- A whole amount printed with thousands separators is never read back from a statement file, and a lone comma before
  four digits or more is dropped.
- A job whose worker crashed stays PROCESSING for good: at rest a job is DONE or FAILED if and only if it is not one of
  these.
- A carriage return inside a PDF string comes back as a line feed.
- `periodToDateRange` hands the years 0 to 99 to `Date.UTC`, which reads them as 1900 to 1999: periods 00yy-mm and
  19yy-mm end in the same month, and no others do; a run under the other name adds a second record if and only if what
  is left of the asset rounds to a cent or more for that month.

The defaults of the columns that the routes do not set are those of `apps/backend/prisma/schema.prisma`: an entry is
VALIDATED and posted, a job starts with 0 attempts, and the uniqueness constraints answer with a conflict
(`apps/backend/src/middleware/error.ts:11-14`).

## Model

| member | source | states |
|---|---|---|
| StockLots.ByReceiptSorted | apps/backend/src/routes/stocks.ts:287-301 | The lot query returns each lot once, oldest receipt first, equal dates in order of creation, whatever order the lots were stored in |
| StockLots.OutboundDropsFirstUnits | apps/backend/src/routes/stocks.ts:303-344 | Walking the queried lots and writing them back drops exactly the first units of the queue of unit costs, backdated receipts included; it runs short exactly when the queue is too short; no lot gives more than it holds |
| StockLots.ApplyByReceipt | apps/backend/src/routes/stocks.ts:323-328 | Writing the reduced lots back commutes with querying them: issues never reorder the queue |
| StockLots.TotalWithinHalfCentPerLot | apps/backend/src/routes/stocks.ts:330 | The rounded running total of an issue differs from the exact cost by at most half a cent per lot touched |
| StockLots.TotalNonNegative | apps/backend/src/routes/stocks.ts:330 | The total of an issue is never negative |
| StockLots.ReceiptEntersQueue | apps/backend/src/routes/stocks.ts:230-242 | A new lot, backdated or not, enters the queue behind all units received no later and before all received later |
| StockLedger.FifoIssueRefinesQueue | apps/backend/src/routes/stocks.ts:250-378 | A FIFO issue succeeds if and only if the quantity is on hand, so the second insufficient-stock throw is unreachable; it leaves the queue without its first units and books their exact cost up to half a cent per lot |
| StockLedger.FifoReceiptEntersQueue | apps/backend/src/routes/stocks.ts:178-248 | A FIFO receipt puts its units, at its cost, behind those received no later, and changes nothing else in the queue |
| StockLedger.FifoAverage | apps/backend/src/routes/stocks.ts:146-176 | The average of live lots lies between any bounds of their unit costs |
| StockLedger.QueueAggregates | apps/backend/src/routes/stocks.ts:287-301 | The queue is as long as the remaining quantities and worth their value |
| StockLedger.InboundKeepsInvariant | apps/backend/src/routes/stocks.ts:178-248 | A receipt keeps quantity, lots, ledger and average in agreement, and adds its quantity |
| StockLedger.OutboundKeepsInvariant | apps/backend/src/routes/stocks.ts:250-378 | An issue keeps quantity, lots, lot attribution, ledger and average in agreement, and takes its quantity off |
| StockLedger.RecountKeepsInvariant | apps/backend/src/routes/stocks.ts:815-880 | A counted line leaves the item at the counted quantity and in agreement |
| StockLedger.EveryRunKeepsInvariant | apps/backend/src/routes/stocks.ts:178-378 | Over every run of item creations and documents: quantity on hand equals the lots' remainder and the sum of signed movements, every resulting quantity is the running sum, initial quantity of a lot equals remainder plus everything attributed to it, source lots of an issue sum to its quantity, value in lots equals cost received minus cost issued, and the average lies between the smallest and largest cost behind it |
| StockLedger.InventorySettlesCounts | apps/backend/src/routes/stocks.ts:815-880 | After an inventory document every counted item holds its last count and no other item moved |
| StockCosts.ReceiptValue | apps/backend/src/routes/stocks.ts:178-248 | A receipt is taken exactly if its quantity is positive and its cost not negative; at the new average the quantity on hand is worth, to the nearest, what it was worth before plus the cost of the receipt; its row carries quantity, cost and total to the cent |
| StockCosts.IssueAtAverage | apps/backend/src/routes/stocks.ts:259-286 | An average-cost issue is taken exactly if its quantity is positive and on hand; it is booked at the average, to the nearest cent, and the average stays while stock is left |
| StockCosts.IssueFromLots | apps/backend/src/routes/stocks.ts:287-350 | A FIFO issue is taken exactly if its quantity is positive and on hand; its unit cost is its total over its quantity, the new average that of the units left in the queue, each to the nearest |
| StockCosts.CountBooksDifference | apps/backend/src/routes/stocks.ts:815-880 | A count is refused only for a surplus without a cost above zero; it books exactly the difference, a surplus at the given cost or else at the average |
| StockCosts.LineMoves | apps/backend/src/routes/stocks.ts:629-880 | A document line is taken exactly if its item exists and meets it; it moves the quantity of that item and leaves all others as they are |
| StockCosts.ConsumptionTaken | apps/backend/src/routes/stocks.ts:709-786 | A consumption is taken if and only if every item exists, every quantity is positive, and of every item all that its lines ask together is on hand; it then takes exactly that |
| StockCosts.DeliveryTaken | apps/backend/src/routes/stocks.ts:629-707 | A delivery is taken if and only if every item exists, every quantity is positive and no cost negative; it brings exactly the sum of its lines |
| StockCosts.CreationStocks | apps/backend/src/routes/stocks.ts:548-600 | A new item starts with its initial quantity at its initial cost; it is refused only for a taken code or a missing cost |
| StockCosts.EveryRunTracksWorth | apps/backend/src/routes/stocks.ts:178-378 | Over every run, quantity on hand times average cost is, of an average-cost item, the exact cost received minus the cents issued, up to half a step of the average a receipt and half a cent an issue; of a FIFO item, what is left in its lots, up to the receipts since the last issue |
| StockStore.Store.ComputeFifoAverageCost | apps/backend/src/routes/stocks.ts:146-176 | The loop over lots, in any order, computes the weighted average of the live ones, 0 if there are none |
| StockStore.Store.ApplyInbound | apps/backend/src/routes/stocks.ts:178-248 | The stored item after a receipt, or its error and no change |
| StockStore.Store.WalkLots | apps/backend/src/routes/stocks.ts:303-338 | The loop takes from the queried lots in order, writes every row back, and reports takes, total and what is missing |
| StockStore.Store.ApplyOutbound | apps/backend/src/routes/stocks.ts:250-378 | The stored item after an issue by FIFO or weighted average, or its error and no change |
| StockStore.Store.Reconcile | apps/backend/src/routes/stocks.ts:815-880 | One counted line as the receipt or issue of the difference |
| StockStore.Store.PostDocument | apps/backend/src/routes/stocks.ts:629-880 | A document moves all of its lines or, on any error, none, and keeps the store's invariant |
| ExportQueue.EveryRunKeepsInvariant | apps/backend/src/lib/export-job-queue.ts:56-151 | Any number of workers interleaved at select, claim, read and finish, crashes included: at most one owns a job between claim and finish, QUEUED means attempts left, FAILED means none left, a processed job has an owner or its owner crashed |
| ExportQueue.AttemptsAreClaims | apps/backend/src/lib/export-job-queue.ts:75-95 | The attempts column equals the number of claims that won, and never exceeds the maximum |
| ExportQueue.TerminalForever | apps/backend/src/lib/export-job-queue.ts:116-143 | DONE and FAILED rows never change again, whatever follows |
| ExportQueue.StepUsesWork | apps/backend/src/lib/export-job-queue.ts:75-143 | Every winning claim and every finish lowers the work left; no other step but a new job touches the rows |
| ExportQueue.RunsEnd | apps/backend/src/lib/export-job-queue.ts:56-164 | Claims and finishes of any run plus the work left never exceed twice the attempts submitted; steps that find or change nothing are not counted |
| ExportQueue.LostClaimsBounded | apps/backend/src/lib/export-job-queue.ts:75-99 | Claims that come too late never outnumber the winning claims times the workers |
| ExportQueue.WinsAreEffective | apps/backend/src/lib/export-job-queue.ts:75-95 | Winning claims are among the steps that bound says are finitely many |
| ExportQueue.QuiescentMeansFinished | apps/backend/src/lib/export-job-queue.ts:57-73 | When no worker is busy and none finds a job, a job is DONE or FAILED if and only if its worker did not crash on it |
| ExportQueue.FirstQueued | apps/backend/src/lib/export-job-queue.ts:57-73 | The job found without a forced one is queued and no earlier job is; none is found only if none is queued |
| ExportQueue.LostForever | apps/backend/src/lib/export-job-queue.ts:56-95 | A job whose worker crashed after claiming it stays PROCESSING, its row unchanged, whatever follows: selecting and claiming look for QUEUED only |
| ExportOutcomes.JobEndsAsExecuted | apps/backend/src/lib/export-job-queue.ts:109-151 | Over every run, from its steps alone: a job allows the attempts it was submitted with; it is DONE exactly when an execution of it ended with success, FAILED exactly when it was claimed as often as it allows and each of these executions failed, QUEUED exactly when every claim so far failed and attempts are left |
| ExportOutcomes.EndedAtAStep | apps/backend/src/lib/export-job-queue.ts:116-143 | The count behind that is above zero exactly if at some step a worker running the job ended so |
| ExportOutcomes.IdleWorkerExecutes | apps/backend/src/lib/export-job-queue.ts:56-151 | After any run an idle worker left alone executes the job it finds once: DONE, or after a failure QUEUED while attempts are left and else FAILED, with one attempt more; no other job changes |
| ExportQueue.Queue.SelectJob | apps/backend/src/lib/export-job-queue.ts:57-73 | The forced job if it is queued, else the oldest queued one |
| ExportQueue.Queue.ClaimJob | apps/backend/src/lib/export-job-queue.ts:75-99 | The compare-and-set: claimed exactly if the row was still QUEUED, and then PROCESSING with one attempt more |
| ExportQueue.Queue.FinishJob | apps/backend/src/lib/export-job-queue.ts:109-150 | DONE, or requeued while attempts are left, or FAILED |
| StatementsCache.EveryRunKeepsInvariant | apps/backend/src/lib/financial-statements-cache.ts:6-54 | Over every run of lookups, results, failures, callbacks, invalidations and clock ticks, cached entries and in-flight slots belong to computations of their key |
| StatementsCache.HitsAreComputed | apps/backend/src/lib/financial-statements-cache.ts:22-43 | Every hit is a value computed for that key, stored less than its time to live ago |
| StatementsCache.JoinsAreForTheKey | apps/backend/src/lib/financial-statements-cache.ts:30-33 | A caller that waits for a running computation waits for one of its key |
| StatementsCache.QuietRunsServeFresh | apps/backend/src/lib/financial-statements-cache.ts:17-54 | If nothing is in flight at any invalidation, a key is computed once at a time and no answer was started before the latest invalidation |
| StatementsCache.InvalidationSafeIffSettled | apps/backend/src/lib/financial-statements-cache.ts:51-54 | In every reachable state an invalidation keeps one computation per key in every continuation, up to the next invalidation, if and only if all computations are settled |
| StatementsCache.FreshAfterInvalidation | apps/backend/src/lib/financial-statements-cache.ts:35-54 | In every reachable state no continuation serves, up to the next invalidation, what was started before this one, if and only if no computation with a time to live above zero is running |
| StatementsCache.InvalidationSafeIffQuiet | apps/backend/src/lib/financial-statements-cache.ts:51-54 | If every earlier invalidation was quiet, an invalidation keeps one computation per key in every continuation if and only if nothing is in flight |
| StatementsCache.BusyInvalidationDuplicates | apps/backend/src/lib/financial-statements-cache.ts:43-54 | With a computation not settled there is a continuation that computes its key twice at a time |
| StatementsCache.RunningComputeServedStale | apps/backend/src/lib/financial-statements-cache.ts:35-42 | A computation with a time to live that runs at an invalidation is cached and served after it, although it started before |
| StatementsCache.HitsAreComplete | apps/backend/src/lib/financial-statements-cache.ts:9-42 | In every reachable state a result that arrives is served to lookups of its key for exactly its time to live, whatever happens in between, until an invalidation or the result of another computation of the key |
| StatementsCache.JoinsAreComplete | apps/backend/src/lib/financial-statements-cache.ts:30-55 | Once a lookup has started a computation, every later lookup of the key is answered from the cache or waits for that one, until a computation of the key settles or an invalidation; when it settles, a failed one is started anew |
| StatementsCache.Cache.CleanupExpired | apps/backend/src/lib/financial-statements-cache.ts:9-15 | The loop deletes exactly the expired entries |
| StatementsCache.Cache.GetCachedFinancialStatements | apps/backend/src/lib/financial-statements-cache.ts:17-49 | Hit, join or start of a computation, and the maps after it |
| CsvRows.ParseCsvRows | apps/backend/src/lib/bank-statement-file-parser.ts:582-630 | The character loop, with its look-ahead, reads what the reader defined character by character reads |
| CsvRows.CsvRoundTrip | apps/backend/src/lib/bank-statement-file-parser.ts:582-630 | For every delimiter but quote, CR and LF, any quoting, LF or CRLF row ends and an optional final one, reading a file written by section 2 of RFC 4180 returns its records but the blank ones |
| CsvRows.CsvRoundTripExact | apps/backend/src/lib/bank-statement-file-parser.ts:613-627 | All records come back if and only if each has a cell that is not blank |
| StatementAmounts.AmountReadsBack | apps/backend/src/lib/bank-statement-file-parser.ts:181-227 | An amount with any number of decimals is read as meant whichever of comma and point separates them, with or without grouping, with +, -, parentheses or no sign; except that a lone comma before four digits or more is dropped |
| StatementAmounts.SpacesDoNotMatter | apps/backend/src/lib/bank-statement-file-parser.ts:181-200 | A space of any kind, anywhere in the text, does not change what is read |
| StatementAmounts.AmountKeepsItsValue | apps/backend/src/lib/bank-statement-file-parser.ts:202-224 | An amount is read with its value if and only if its separator is recognised, it has no decimals, or it is zero |
| StatementAmounts.NormalizedAmount | apps/backend/src/lib/bank-statement-file-parser.ts:202-219 | The separator logic removes the grouping and turns the decimal separator into a point if it is a point, if there is grouping, or if one to three digits follow; otherwise it drops the comma |
| StatementAmounts.WholeReadsBack | apps/backend/src/lib/bank-statement-file-parser.ts:202-224 | A whole amount above zero is read back if and only if it has no thousands separators: one is taken for a decimal separator, two make the parser throw |
| PdfDocument.PagesConcat | apps/backend/src/utils/pdf.ts:7-12 | The pages concatenate back to the lines |
| PdfDocument.SplitPages | apps/backend/src/utils/pdf.ts:10-12 | The loop cuts the lines into those pages |
| PdfDocument.PagesAreFull | apps/backend/src/utils/pdf.ts:6-12 | Every page but the last has 52 lines |
| PdfDocument.BuildObjects | apps/backend/src/utils/pdf.ts:20-52 | The objects defined are exactly those with ids 1 to totalObjects |
| PdfDocument.WriteObjects | apps/backend/src/utils/pdf.ts:54-64 | Every id is defined, so the throw is unreachable, and each recorded offset is the byte length written before its object |
| PdfDocument.BuildSimplePdf | apps/backend/src/utils/pdf.ts:5-81 | The loops produce, for every list of lines, the bytes of the document the following rows are about |
| PdfDocument.OffsetsPointAtObjects | apps/backend/src/utils/pdf.ts:62-63 | In the finished file the bytes at each offset are the header of that object |
| PdfReferences.StreamStandsAtLength | apps/backend/src/utils/pdf.ts:41-50 | The /Length a content object declares is the number of bytes its stream takes up in the finished file, between the stream and endstream keywords |
| PdfReferences.EveryReferenceResolves | apps/backend/src/utils/pdf.ts:20-46 | The references n 0 R, found by scanning the objects and the trailer, are these: trailer to catalog, catalog to page tree, page tree to its pages in order, page to tree, font and its own content; all name objects from 1 to totalObjects |
| PdfReferences.EveryObjectIsReferenced | apps/backend/src/utils/pdf.ts:14-46 | Every object but the catalog is named by another one |
| PdfReferences.CountsAreDeclared | apps/backend/src/utils/pdf.ts:24-77 | /Count is the number of pages, /Size and the cross-reference header count the objects and the free entry |
| PdfDocument.StartxrefPointsAtXref | apps/backend/src/utils/pdf.ts:66-78 | The file ends in a trailer whose startxref is the position of the cross-reference table |
| PdfDocument.XrefEntryShape | apps/backend/src/utils/pdf.ts:71 | An entry is 20 bytes (section 7.5.4 of ISO 32000-1) if and only if its offset is below 10^10, and its digits are the offset |
| PdfDocument.EntriesPointAtObjects | apps/backend/src/utils/pdf.ts:66-72 | The entry of object n lies 20 n bytes behind the first and leads to the header of object n |
| PdfDocument.PageReadsBack | apps/backend/src/utils/pdf.ts:31-40 | Reading the shown strings of a content stream returns the lines of its page, up to carriage returns |
| PdfDocument.StreamShowsPage | apps/backend/src/utils/pdf.ts:31-40 | A content stream is the four text operators, then what shows the page |
| PdfText.EscapeIsOnePass | apps/backend/src/utils/pdf.ts:1-3 | The three replacements act as one pass: none touches what an earlier one wrote |
| PdfText.LiteralRoundTrip | apps/backend/src/utils/pdf.ts:1-3 | Reading a literal string (section 7.3.4.2 of ISO 32000-1) undoes the escaping, up to line-end normalization |
| PdfText.NormalIffNoReturn | apps/backend/src/utils/pdf.ts:1-3 | It undoes it exactly if and only if the text has no carriage return |
| JournalNumbers.NumberLooksSo | apps/backend/src/lib/journal-entry-number.ts:10-46 | The seventh number of 2024 is NC-2024-000007 |
| JournalNumbers.FormatParses | apps/backend/src/lib/journal-entry-number.ts:5-7 | Parsing the last part of a number gives back its sequence |
| JournalNumbers.FormatYear | apps/backend/src/lib/journal-entry-number.ts:15-33 | A number starts with the prefix of its own year and of no other |
| JournalNumbers.FormatOrder | apps/backend/src/lib/journal-entry-number.ts:5-33 | Below 1,000,000 the order of the strings is the order of the sequences |
| JournalNumbers.MillionSortsFirst | apps/backend/src/lib/journal-entry-number.ts:5-33 | 1000000 does not sort behind 999999 |
| JournalNumbers.NextContinues | apps/backend/src/lib/journal-entry-number.ts:10-46 | The next number continues its year up to 1,000,000 and then repeats 1,000,000 |
| JournalNumbers.IssueContinues | apps/backend/src/lib/journal-entry-number.ts:10-46 | With numbers unique in a company, issuing succeeds if and only if the year has fewer than 1,000,000, extends that year by the next number and leaves other years alone |
| JournalNumbers.EveryRunIsGapless | apps/backend/src/lib/journal-entry-number.ts:10-46 | Over every run the numbers of a year are the formats of 1..n, without gap or repeat, up to 1,000,000 |
| Calendar.PeriodRoundTrip | apps/backend/src/utils/period.ts:3-17 | parsePeriod reads what currentPeriod writes if and only if the year has four digits, and periodToDateRange then ends in that month |
| Calendar.PeriodsDistinct | apps/backend/src/utils/accounting.ts:28-32 | Two dates have the same period if and only if they lie in the same month |
| Calendar.EndMonthsCoincide | apps/backend/src/utils/period.ts:19-24 | Two periods end in the same month if and only if they name the same month of the same year or of years 00yy and 19yy |
| Postings.MirrorCancels | apps/backend/src/routes/journal.ts:390-397 | Swapping debit and credit line by line cancels the entry on every account and keeps it balanced |
| Ledger.InsertKeepsInvariant | apps/backend/src/routes/journal.ts:199-228 | Adding an entry to an open period keeps status and lock in step, stornos matched and numbers gapless |
| Ledger.PostKeepsInvariant | apps/backend/src/routes/invoices.ts:641-657 | An auto-posted entry, VALIDATED by default, keeps them if its period is open, rewrites no entry and enters no closed period |
| Ledger.CreateKeepsInvariant | apps/backend/src/routes/journal.ts:173-229 | A manual entry, of amounts in any fraction of a cent, becomes one more entry, a draft of its lines each rounded to cents; nothing else changes and the journal keeps its invariant |
| Ledger.ValidateKeepsInvariant | apps/backend/src/routes/journal.ts:251-305 | Validation sets status and posted of one draft whose stored lines pass, in an open period, and changes no other entry; the invariant is kept |
| Ledger.StornoKeepsInvariant | apps/backend/src/routes/journal.ts:323-414 | A storno is one more entry, the mirror of a validated or closed entry that is no storno and had none; nothing else changes and the invariant is kept |
| Ledger.CloseKeepsInvariant | apps/backend/src/routes/periods.ts:68-117 | Closing needs a period without drafts, closes it and exactly its entries, and keeps the invariant |
| Ledger.ReopenKeepsInvariant | apps/backend/src/routes/periods.ts:147-181 | Reopening opens the period, makes exactly its entries VALIDATED if it was closed, touches no other, and keeps the invariant |
| Ledger.ReopenUndoesClose | apps/backend/src/routes/periods.ts:55-196 | Reopening right after closing an open period restores the journal |
| Ledger.StornoUndoes | apps/backend/src/routes/journal.ts:334-413 | A storno takes its entry off every account; it and its entry then refuse another storno |
| Postings.WholeCentLines | apps/backend/src/utils/accounting.ts:4-26 | On whole cents the stored lines are the given ones, and what validateDoubleEntry lets through balances |
| Postings.WholeCentsPass | apps/backend/src/utils/accounting.ts:4-26 | In whole cents exactly those lines pass that are two or more, balance, and are neither negative nor empty; positive totals follow |
| Postings.PartsPass | apps/backend/src/utils/accounting.ts:4-26 | In parts of a cent the rounded totals have to be equal and at least a cent |
| Postings.StoredBalance | apps/backend/src/utils/accounting.ts:14-23 | An entry that validateDoubleEntry lets through is stored in balance if and only if both columns drift alike: the number of amounts rounded up, less what their remainders round to together |
| Postings.StoredPasses | apps/backend/src/utils/accounting.ts:4-26 | It passes validateDoubleEntry again, as stored, if and only if moreover no line has less than half a cent on both sides; positive totals then follow |
| Postings.RoundedTotalsHideALine | apps/backend/src/utils/accounting.ts:14-23 | 0.005 and 0.005 against 0.01: let through, stored out of balance, and refused as stored |
| Postings.SmallLineVanishes | apps/backend/src/utils/accounting.ts:9-12 | 10.00 and 0.004 against 10.00: let through and stored in balance, but with a 0/0 line, and refused as stored |
| Ledger.ValidateBalance | apps/backend/src/routes/journal.ts:282-297 | Validation, which looks at the stored lines, never posts an entry out of balance |
| Ledger.StornoBalance | apps/backend/src/routes/journal.ts:376-398 | A storno leaves the posted entries in balance if and only if they were |
| Ledger.PostedTrialBalance | apps/backend/src/utils/accounting.ts:14-23 | If every posted entry balances, total debit equals total credit over the posted entries |
| Rounding.RoundedApart | apps/backend/src/utils/number.ts:16-18 | Two amounts rounded apart add up to their sum rounded if and only if their remainders round up as often apart as together, and are never off by more than one cent |
| BooksJournal.EveryRunKeepsJournal | apps/backend/src/routes/journal.ts:173-431 | Over every run of all posting, validating, reversing, closing and reopening requests the journal invariant holds |
| BooksJournal.PeriodLock | apps/backend/src/lib/period-lock.ts:8-28 | In every reachable state an entry is CLOSED if and only if its period is, and posted if and only if it is not a DRAFT |
| BooksJournal.ClosedPeriodIsFrozen | apps/backend/src/lib/period-lock.ts:8-28 | Until a closed period is reopened, no request of any kind adds, changes or removes an entry in it |
| BooksJournal.RunBalances | apps/backend/src/utils/accounting.ts:4-26 | Over every run all posted entries balance, each and together, if and only if every auto-posted supplier invoice had a subtotal and a VAT that round apart as they do together; sales, credit notes, both payment directions, payroll, depreciation, manual entries and stornos never post out of balance |
| BooksJournal.WholeCentsBalance | apps/backend/src/routes/purchases.ts:564-591 | With supplier invoices in whole cents every run balances |
| BooksJournal.StornosMatch | apps/backend/src/routes/journal.ts:353-398 | Over every run an entry has at most one storno, none is over a storno or a draft, and each pair sums to zero on every account |
| BooksJournal.NumbersGapless | apps/backend/src/lib/journal-entry-number.ts:10-46 | Over every run of all requests the numbers of a year have no gap or repeat |
| BooksJournal.EntriesAreKept | apps/backend/src/routes/journal.ts:173-431 | Whatever happens later, an entry keeps its number, date, period, reversal link and lines, and ceases to be a draft only if they pass validateDoubleEntry |
| BooksJournal.ManualEntryValidates | apps/backend/src/routes/journal.ts:173-305 | In every continuation after a manual entry is created: while it is a draft it can be validated if and only if its lines keep valid when rounded one by one; if they do not, it stays a draft and its period can never be closed |
| Acceptance.EntryTaken | apps/backend/src/routes/journal.ts:173-229 | In every reachable state a manual entry is taken if and only if it is valid, on active accounts, in an open period, and the year has a number left |
| Acceptance.ValidationTaken | apps/backend/src/routes/journal.ts:251-305 | A draft is validated if and only if its stored lines pass; its period is always open |
| Acceptance.StornoTaken | apps/backend/src/routes/journal.ts:323-414 | An entry is reversed if and only if it is posted, CLOSED included, is no storno and has none, into an open period with a number left |
| Acceptance.PeriodTaken | apps/backend/src/routes/periods.ts:55-196 | A period is closed if and only if its name is one and none of its entries is a draft, reopened if and only if its name is one |
| Sales.NewInvoiceInvariant | apps/backend/src/routes/invoices.ts:424-591 | A new invoice is sound and unpaid; a credit note is the exact negative of its source |
| Sales.NewInvoiceAmounts | apps/backend/src/routes/invoices.ts:481-560 | A new invoice carries number, partner, subtotal and VAT of its request, a credit note those of its source with the opposite sign |
| Sales.SettleKeepsInvariant | apps/backend/src/routes/invoices.ts:755-809 | A payment within the open amount keeps total, payments and status in agreement and lowers what is open by its amount |
| Sales.StatusMeansPaid | apps/backend/src/routes/invoices.ts:803-809 | Of a fiscal invoice the status tells whether nothing, a part or all is paid if and only if it has no payment or a positive sum paid; payments of at least a cent suffice |
| Sales.PaymentKeepsStatusTrue | apps/backend/src/routes/invoices.ts:716 | After a payment by either route the status is truthful if and only if at least a cent is paid in all; on an issued invoice, if and only if the payment is at least a cent after rounding |
| Sales.PaymentTaken | apps/backend/src/routes/invoices.ts:735-800 | The pay route takes any amount up to what is open on a fiscal invoice that is not paid in full, the full one included, and records it; PAID if that is all, else PARTIALLY_PAID |
| Sales.ReconciliationTaken | apps/backend/src/routes/bank-reconciliation.ts:643-704 | Reconciling takes any amount up to what is open, whatever the kind; on a credit note nothing is open |
| Sales.ReconcileKeepsKind | apps/backend/src/routes/bank-reconciliation.ts:637-702 | Reconciling keeps payments to fiscal invoices if and only if the invoice is fiscal, which the route does not check |
| Sales.InvoiceLinesBalance | apps/backend/src/routes/invoices.ts:594-639 | The entry of an invoice or credit note balances and moves the receivable account by its total |
| Sales.ReceiptLinesBalance | apps/backend/src/routes/invoices.ts:823-836 | The entry of a receipt balances and lowers the receivable account by its amount |
| Sales.InvoicePosts | apps/backend/src/routes/invoices.ts:593-640 | On every account: an invoice debits subtotal and VAT to the receivable and credits the subtotal to revenue and the VAT to VAT; a credit note the reverse |
| Sales.ReceiptPosts | apps/backend/src/routes/invoices.ts:811-845 | On every account: a receipt brings its amount to the bank and takes it off the receivable |
| Acceptance.InvoiceTaken | apps/backend/src/routes/invoices.ts:417-679 | In every reachable state an invoice is taken if and only if partner, amounts and dates fit, or its source is fiscal, in an open period, with a new number, and it can be posted if it is to be |
| Acceptance.InvoicePaymentTaken | apps/backend/src/routes/invoices.ts:707-859 | A payment is taken if and only if it is within what is open on a fiscal invoice not paid in full, in an open period, and can be posted if it is to be; it is recorded on that invoice and no other |
| Sales.ZeroVatLineIsRefused | apps/backend/src/routes/invoices.ts:633-638 | The entry of an invoice passes validateDoubleEntry if and only if neither VAT nor subtotal is zero |
| BooksDocuments.EveryRunKeepsInvoices | apps/backend/src/routes/invoices.ts:417-885 | Over every run payments stay within the total and the status follows them, across the pay route and reconciliation |
| BooksDocuments.PaymentsWithinTotal | apps/backend/src/routes/bank-reconciliation.ts:632-702 | Over every run no invoice is overpaid and no credit note is paid; a fiscal status is truthful unless all its payments were rounded to zero |
| BooksDocuments.EveryCreditNoteCancels | apps/backend/src/routes/invoices.ts:481-515 | Over every run each credit note negates one earlier fiscal invoice of the same partner |
| BooksDocuments.CreditedOnceStep | apps/backend/src/routes/invoices.ts:481-515 | A request keeps every invoice credited at most once if and only if it makes no credit note for an invoice that has one |
| BooksDocuments.EveryInvoiceCreditedOnce | apps/backend/src/routes/invoices.ts:481-515 | Over every run no invoice is credited twice if and only if no credit note was made for an invoice that had one |
| BooksDocuments.CreditedTwice | apps/backend/src/routes/invoices.ts:481-515 | From any state that takes a credit note, the same request with a free number is taken a second time if and only if it posts no entry or the journal has a number left for it; the invoice is then credited twice |
| BooksDocuments.ProformaPaidByReconciling | apps/backend/src/routes/bank-reconciliation.ts:637-702 | A proforma, which the pay route refuses, becomes PAID by reconciling a bank line with it |
| BooksDocuments.OnlyFiscalPaidStep | apps/backend/src/routes/bank-reconciliation.ts:632-702 | A request keeps payments to fiscal invoices if and only if it reconciles no other kind |
| BooksDocuments.OnlyFiscalInvoicesPaid | apps/backend/src/routes/bank-reconciliation.ts:632-702 | Over every run only fiscal invoices carry payments if and only if only fiscal invoices were reconciled with a line |
| Purchases.LatestIsLatest | apps/backend/src/routes/purchases.ts:158-187 | The delegation considered is live, and no live delegation to the user starts later |
| Purchases.ResolvedActorIsAuthorised | apps/backend/src/routes/purchases.ts:141-200 | Whoever is let through holds an allowed role or a live delegation from a member who does |
| Purchases.OlderDelegationIsShadowed | apps/backend/src/routes/purchases.ts:158-200 | An older live delegation from an allowed role does not help behind a later one from another role |
| Purchases.EntitledIffLatestEntitles | apps/backend/src/routes/purchases.ts:158-200 | A caller entitled by some live delegation, but not by his role, is let through if and only if the latest of his live delegations, by start and then creation, comes from a member whose role allows the level |
| Purchases.OneDelegationSuffices | apps/backend/src/routes/purchases.ts:141-200 | With at most one live delegation a caller is let through if and only if he is authorised |
| Purchases.ResolvesIffEntitled | apps/backend/src/routes/purchases.ts:141-200 | A caller is let through if and only if his role allows the level or the latest of his live delegations entitles him |
| Purchases.RoleLevels | apps/backend/src/routes/purchases.ts:126-139 | Administrators and chief accountants act on levels 1 to 4, accountants on 1, managers on 2, nobody else; only these four can delegate |
| Purchases.ApproveKeepsInvariant | apps/backend/src/routes/purchases.ts:836-949 | An approval adds one APPROVE at the current level, by someone authorised; the chain moves one level on, or to APPROVED at the required level; amounts and payments stay and the invariant is kept |
| Purchases.RejectKeepsInvariant | apps/backend/src/routes/purchases.ts:984-1053 | A rejection adds one REJECT at the current level, by someone authorised, and the invoice is REJECTED; it was pending, or approved and unpaid; amounts and payments stay and the invariant is kept |
| Purchases.ApprovalTaken | apps/backend/src/routes/purchases.ts:836-949 | An approval is taken if and only if the invoice is pending, not paid in full, and the caller entitled for its level |
| Purchases.RejectionTaken | apps/backend/src/routes/purchases.ts:984-1053 | A rejection likewise, and on an approved invoice as long as nothing is paid |
| Purchases.PaymentTaken | apps/backend/src/routes/purchases.ts:1136-1215 | The pay route takes any amount up to what is open on an approved invoice that is not paid in full, and records it; PAID if that is all, else PARTIALLY_PAID |
| Purchases.ReconciliationTaken | apps/backend/src/routes/bank-reconciliation.ts:780-838 | Reconciling takes any amount up to what is open, whatever the approval |
| Purchases.NewBillAmounts | apps/backend/src/routes/purchases.ts:455-560 | A new supplier invoice carries subtotal, VAT and their sum, each to the nearest cent, and needs level 4 from 50000 on, else level 3 |
| Acceptance.BillTaken | apps/backend/src/routes/purchases.ts:441-629 | In every reachable state a supplier invoice is taken if and only if supplier, amounts and dates fit, in an open period, with a new number, and it can be posted if it is to be; it starts at level 1 |
| Acceptance.ApprovalTaken | apps/backend/src/routes/purchases.ts:836-969 | In every reachable state an approval is taken if and only if the invoice is pending, not paid in full, and the caller entitled; it adds its log entry there and changes no other invoice |
| Acceptance.RejectionTaken | apps/backend/src/routes/purchases.ts:984-1098 | A rejection likewise |
| Acceptance.BillPaymentTaken | apps/backend/src/routes/purchases.ts:1105-1261 | A supplier payment is taken if and only if it is within what is open on an approved invoice not paid in full, in an open period, and can be posted if it is to be |
| Acceptance.DelegationTaken | apps/backend/src/routes/purchases.ts:729-834 | A delegation is stored if and only if an approver gives it, or an administrator for him, forward to another member, and not twice |
| Acceptance.ApprovalsApprove | apps/backend/src/routes/purchases.ts:836-969 | From every reachable state an administrator brings a pending invoice that is not paid in full to APPROVED by one approval for each level left; fewer leave it pending; nothing else changes |
| Acceptance.PendingBillGetsPaid | apps/backend/src/routes/purchases.ts:836-1261 | Every such invoice can then be paid: a payment of what is open in an open period makes it PAID |
| Purchases.SettleKeepsInvariant | apps/backend/src/routes/purchases.ts:1155-1211 | A payment within the open amount keeps chain and payments in order and lowers what is open by its amount |
| Purchases.ReconcileKeepsApproval | apps/backend/src/routes/bank-reconciliation.ts:772-838 | Reconciling keeps paid invoices approved if and only if the invoice is approved, which the route does not check |
| Purchases.ReconciledThenRejected | apps/backend/src/routes/bank-reconciliation.ts:786-838 | An invoice paid by reconciliation before approval can be rejected and keeps its payment |
| Purchases.BillLinesBalance | apps/backend/src/routes/purchases.ts:564-591 | The entry of a supplier invoice, with or without VAT, balances if and only if its subtotal and VAT round apart as they do together, always so in whole cents; it moves the payable account by the total |
| Purchases.SupplierInvoiceOutByACent | apps/backend/src/routes/purchases.ts:455-589 | A subtotal of 10.004 with VAT of 1.904 posts 11.90 against 11.91 |
| Purchases.StatusMeansPaid | apps/backend/src/routes/purchases.ts:1202-1204 | The status of a supplier invoice tells whether nothing, a part or all is paid if and only if it has no payment or a positive sum paid |
| Purchases.PaymentKeepsStatusTrue | apps/backend/src/routes/purchases.ts:1115-1211 | After a payment by either route the status is truthful if and only if at least a cent is paid in all |
| Purchases.PaymentLinesBalance | apps/backend/src/routes/purchases.ts:1224-1238 | The entry of a supplier payment balances and moves the payable account by its amount |
| Purchases.BillPosts | apps/backend/src/routes/purchases.ts:564-592 | On every account: a supplier invoice debits its subtotal to expense and its VAT to VAT and credits its total to the payable |
| Purchases.PaymentPosts | apps/backend/src/routes/purchases.ts:1213-1245 | On every account: a supplier payment takes its amount off the payable and off the bank |
| BooksDocuments.EveryRunKeepsBills | apps/backend/src/routes/purchases.ts:441-1261 | Over every run: level 4 from 50,000.00 on and 3 below; pending at level k means approvals at 1..k-1 in order, approved means 1..required, rejected means such a prefix and one final REJECT; payments within the total; a payment by the pay route means approved |
| BooksDocuments.BillPaymentsWithinTotal | apps/backend/src/routes/purchases.ts:1155-1211 | Over every run no supplier invoice is overpaid, and its status is truthful unless all its payments were rounded to zero |
| BooksDocuments.PaidBillsStayApproved | apps/backend/src/routes/purchases.ts:1015-1021 | An approved invoice with a payment stays approved in every continuation, and payments and log are only extended |
| BooksDocuments.EveryPaidBillIsApproved | apps/backend/src/routes/purchases.ts:1149-1153 | At all times of a run every supplier invoice with a payment is approved if and only if every one paid by reconciling was approved |
| BooksDocuments.EveryDecisionWasAuthorised | apps/backend/src/routes/purchases.ts:881-900 | Every log entry was left by a request whose caller, in the state of that moment, was authorised for that level |
| BooksDocuments.DelegationsStep | apps/backend/src/routes/purchases.ts:729-831 | A delegation is stored only from an approver of the company, by himself or an administrator, to another member |
| BooksDocuments.EveryRunKeepsDelegations | apps/backend/src/routes/purchases.ts:67-99 | Over every run delegations end after they start, go to somebody else and are never stored twice |
| PayablesReport.Dashboard | apps/backend/src/routes/purchases.ts:1325-1387 | The aggregation loop: totals open, overdue and due soon with their counts, a row for exactly the suppliers with something open, each row the sums, counts and earliest due date of its supplier, and the rows adding up to the total |
| PayablesReport.TotalsExtended | apps/backend/src/routes/purchases.ts:1340-1366 | An invoice adds its open amount to the total, to what is overdue exactly if it was due before the day, and to the next seven days exactly if it is due from then to their end |
| PayablesReport.OrderIrrelevant | apps/backend/src/routes/purchases.ts:1311-1323 | The order of the query does not change what is open |
| PayablesReport.ListedHoldsAllOpen | apps/backend/src/routes/purchases.ts:1311-1323 | Nothing is open on the invoices the status filter leaves out |
| PayablesReport.Aging | apps/backend/src/routes/purchases.ts:1445-1479 | Every open amount falls into exactly the bucket of its days overdue, and the buckets add up to what is open |
| BooksBank.EveryRunMatchesLines | apps/backend/src/routes/bank-reconciliation.ts:579-906 | Over every run each MATCHED line is exactly one payment, of its absolute amount, on the document it names and of the right side; no other line is any payment |
| BooksBank.ProcessedLinesAreFinal | apps/backend/src/routes/bank-reconciliation.ts:607-630 | MATCHED and IGNORED lines never change again, and no line changes its amount |
| Acceptance.ReconciliationTaken | apps/backend/src/routes/bank-reconciliation.ts:579-902 | In every reachable state a line is reconciled if and only if it is unmatched, in an open period, of the right sign, and within what is open on its document, and can be posted if it is to be; that document then has one payment more, of the line |
| Acceptance.LinesComeAndGo | apps/backend/src/routes/bank-reconciliation.ts:908-956 | A line is imported as unmatched; an unmatched line, and no other, can be ignored |
| ControlAccounts.EveryRequestMoves | apps/backend/src/routes/bank-reconciliation.ts:704-733 | Every successful request moves every account by exactly the lines it posts |
| ControlAccounts.PayablesControl | apps/backend/src/routes/purchases.ts:562-607 | Over every run that posts supplier documents to one payable code, credit minus debit on that account is what is open on supplier invoices |
| ControlAccounts.DashboardOfRun | apps/backend/src/routes/purchases.ts:1344-1387 | That balance is the dashboard's total and the sum of its supplier rows |
| ControlAccounts.ReceivablesControl | apps/backend/src/routes/invoices.ts:593-639 | Over every run that posts sales documents to one receivable code, debit minus credit on that account is open fiscal invoices less credit notes less what was paid on proformas |
| Turnover.InvoiceMade | apps/backend/src/routes/invoices.ts:481-640 | The stored invoice is that of the request, a credit note the negative of its source, unpaid, and the only change to the invoices |
| Turnover.BillMade | apps/backend/src/routes/purchases.ts:455-629 | The stored supplier invoice carries the rounded amounts of the request, unpaid, and is the only change |
| Turnover.InvoiceMoves | apps/backend/src/routes/invoices.ts:593-660 | What a successful invoice request moves on every account, in amounts of the request or of the source; nothing for a proforma |
| Turnover.BillMoves | apps/backend/src/routes/purchases.ts:564-610 | What a successful supplier invoice request moves on every account, in rounded amounts of the request |
| Turnover.PaymentMoves | apps/backend/src/routes/invoices.ts:811-845 | What a payment by either route moves on every account |
| Turnover.LineMoves | apps/backend/src/routes/bank-reconciliation.ts:704-870 | A reconciled line moves its signed amount to the bank and off the account of its document |
| Turnover.RunMoves | apps/backend/src/routes/assets.ts:395-434 | A depreciation run moves what it adds to accumulated depreciation from the accumulated to the expense account |
| Turnover.PayrollPostsTotals | apps/backend/src/routes/payroll.ts:340-410 | A payroll moves the totals it stores, each on its own account |
| Turnover.PostsOneEntry | apps/backend/src/routes/invoices.ts:641-657 | Every request that posts appends one validated entry of its own date and period; one that does not, and a proforma, leaves the journal as it is |
| Turnover.ColumnControl | apps/backend/src/routes/invoices.ts:593-660 | Over every run that posts one column of the documents, and nothing else, to an account: revenue and sales VAT are the credit balance of the subtotals and VAT of all posted invoices, credit notes included; expense and purchase VAT the debit balance of those of the supplier invoices |
| Acceptance.RefusalsAreJustified | apps/backend/src/lib/http-error.ts:1-40 | In every reachable state a refusal tells why: 404 only if the record named does not exist, 403 only if the caller is not entitled, 409 only if the period is closed, the record has moved on or exists, or the numbers have run out |
| BooksSound.RequestKeepsSound | apps/backend/src/lib/period-lock.ts:8-28 | Every request of any kind keeps all invariants of the books at once |
| BooksSound.EveryRunIsSound | apps/backend/src/lib/period-lock.ts:8-28 | All of them hold in every reachable state |
| Depreciation.RunKeepsInvariant | apps/backend/src/routes/assets.ts:340-377 | A run never depreciates more than value minus residual, adds at most one record per period, inside the life, with its accumulated amount; the max in the book value never bites |
| Depreciation.EveryOrderKeepsInvariant | apps/backend/src/routes/assets.ts:340-377 | That holds for runs of any periods in any order, repeats included |
| Depreciation.RecordsOfOneMonth | apps/backend/src/routes/assets.ts:341-346 | Two records of an asset are for one calendar month only if their periods name its year as 00yy and as 19yy |
| Depreciation.SecondNameAddsRecord | apps/backend/src/routes/assets.ts:341-377 | For every method and after any runs: with a record for a month, a run under its other name adds a second one if and only if what is left rounds to a cent or more for that month, and changes nothing otherwise |
| Depreciation.TwoNamesTwoRecords | apps/backend/src/routes/assets.ts:341-377 | Two runs of a fresh linear asset under two names leave two records if and only if an instalment is above zero and does not take everything |
| Depreciation.WrittenOff | apps/backend/src/routes/assets.ts:62-76 | DEGRESSIVE, and ACCELERATED over two months or more, are fully written off once the last month is run, in whatever order |
| Depreciation.LevelSchedule | apps/backend/src/routes/assets.ts:58-76 | LINEAR, and ACCELERATED over one month, take one instalment for every distinct period run, until nothing is left |
| Depreciation.LinearLeavesCents | apps/backend/src/routes/assets.ts:58-60 | LINEAR with every month run leaves less than half a cent per month of life |
| Depreciation.SingleAcceleratedMonth | apps/backend/src/routes/assets.ts:67-70 | ACCELERATED over one month leaves the smaller half, or nothing if the month was run under two names |
| Depreciation.DegressiveRate | apps/backend/src/routes/assets.ts:62-65 | A degressive month that leaves something is 5/4 of the equal share to the nearest cent |
| Depreciation.AcceleratedRate | apps/backend/src/routes/assets.ts:67-74 | The first accelerated month is half, every later one an equal share of what remains, to the nearest cent |
| BooksJournal.DepreciationLinesBalance | apps/backend/src/routes/assets.ts:405-434 | The entry of a depreciation run balances |
| Depreciation.PlanRecords | apps/backend/src/routes/assets.ts:331-377 | The loop plans the records that turn the assets into what the run makes of each, and their sum is what is posted |
| BooksPeriodic.AssetsAreReplays | apps/backend/src/routes/assets.ts:295-456 | Over every run of all requests an asset is the replay of the depreciation runs since its creation, so the preceding rows hold of it |
| Acceptance.AssetTaken | apps/backend/src/routes/assets.ts:256-293 | An asset is taken if and only if it lasts a month or more and is worth more than its residual value; it has no records |
| Acceptance.RunTaken | apps/backend/src/routes/assets.ts:295-434 | In every reachable state a run is taken if and only if its period is open and some asset has started by its end, and what it adds can be posted if it is to be |
| Payroll.NetPay | apps/backend/src/routes/payroll.ts:255-263 | Net pay is never negative and never falls when the gross rises |
| Payroll.ContributionsStepApart | apps/backend/src/routes/payroll.ts:258-259 | CAS and CASS never step up at the same cent of gross |
| Payroll.Rates | apps/backend/src/routes/payroll.ts:255-263 | In the line of an employee CAS is 25% of the gross, CASS 10%, CAM 2.25%, the tax 10% of what the gross leaves after CAS, CASS and the deduction, each to the nearest cent, and the net what is left |
| Payroll.TotalsAddUp | apps/backend/src/routes/payroll.ts:277-295 | Over any list of employees total gross is total net, CAS, CASS and tax together, and no total is negative |
| Payroll.PayrollBalances | apps/backend/src/routes/payroll.ts:349-400 | The posted entry balances for any list of employees, with the tax line or without it |
| Payroll.PayrollPosts | apps/backend/src/routes/payroll.ts:349-400 | What the entry moves on every account: gross and CAM on their expense accounts, net, CAS, CASS, CAM and tax on their own |
| Payroll.TotalsAreColumns | apps/backend/src/routes/payroll.ts:277-295 | Every total is the sum of its own column |
| Acceptance.PayrollTaken | apps/backend/src/routes/payroll.ts:215-449 | In every reachable state a payroll is taken if and only if its period is open and has none, there is an employee, and it can be posted if it is to be |
| BooksPeriodic.EveryRunKeepsPayrolls | apps/backend/src/routes/payroll.ts:228-449 | Over every run there is one payroll for a period, it never changes, its totals are the sums of its stored lines and its gross is what it pays and withholds |
| Payroll.ComputeTotals | apps/backend/src/routes/payroll.ts:277-295 | The accumulator computes the column sums of the lines |
| Office.Routes.CreateEntry | apps/backend/src/routes/journal.ts:173-229 | The route as statements on stored rows: inserts a draft on active accounts into an open period; on any error its status and no effect at all; every invariant of the books is kept |
| Office.Routes.ValidateEntry | apps/backend/src/routes/journal.ts:251-305 | The route as statements on stored rows: validates one draft; on any error its status and no effect at all; every invariant of the books is kept |
| Office.Routes.StornoEntry | apps/backend/src/routes/journal.ts:323-414 | The route as statements on stored rows: inserts the mirror image of an entry; on any error its status and no effect at all; every invariant of the books is kept |
| Office.Routes.ClosePeriod | apps/backend/src/routes/periods.ts:68-117 | The route as statements on stored rows: closes a period and its entries; on any error its status and no effect at all; every invariant of the books is kept |
| Office.Routes.ReopenPeriod | apps/backend/src/routes/periods.ts:147-181 | The route as statements on stored rows: reopens a period and its entries; on any error its status and no effect at all; every invariant of the books is kept |
| Office.Routes.CreateInvoice | apps/backend/src/routes/invoices.ts:417-679 | The route as statements on stored rows: stores and posts an invoice or credit note; on any error its status and no effect at all; every invariant of the books is kept |
| Office.Routes.PayInvoice | apps/backend/src/routes/invoices.ts:707-859 | The route as statements on stored rows: stores and posts a receipt and sets the status; on any error its status and no effect at all; every invariant of the books is kept |
| Office.Routes.CreateBill | apps/backend/src/routes/purchases.ts:441-629 | The route as statements on stored rows: stores and posts a supplier invoice at level 1; on any error its status and no effect at all; every invariant of the books is kept |
| Office.Routes.ApproveBill | apps/backend/src/routes/purchases.ts:836-969 | The route as statements on stored rows: logs an approval and moves the chain; on any error its status and no effect at all; every invariant of the books is kept |
| Office.Routes.RejectBill | apps/backend/src/routes/purchases.ts:984-1098 | The route as statements on stored rows: logs a rejection and ends the chain; on any error its status and no effect at all; every invariant of the books is kept |
| Office.Routes.PayBill | apps/backend/src/routes/purchases.ts:1105-1261 | The route as statements on stored rows: stores and posts a supplier payment and sets the status; on any error its status and no effect at all; every invariant of the books is kept |
| Office.Routes.ReconcileLine | apps/backend/src/routes/bank-reconciliation.ts:579-902 | The route as statements on stored rows: turns a bank line into a payment of its absolute amount; on any error its status and no effect at all; every invariant of the books is kept |
| Office.Routes.IgnoreLine | apps/backend/src/routes/bank-reconciliation.ts:908-956 | The route as statements on stored rows: ignores an unmatched line; on any error its status and no effect at all; every invariant of the books is kept |
| Office.Routes.RunDepreciation | apps/backend/src/routes/assets.ts:295-456 | The route as statements on stored rows: writes the planned records and posts their sum; on any error its status and no effect at all; every invariant of the books is kept |
| Office.Routes.GeneratePayroll | apps/backend/src/routes/payroll.ts:215-449 | The route as statements on stored rows: stores the lines and totals of a period's payroll, once, and posts it; on any error its status and no effect at all; every invariant of the books is kept |
| Office.Routes.ResolveActor | apps/backend/src/routes/purchases.ts:141-200 | The caller's role, else the latest live delegation found by scanning them, decides who acts |

## Left out

- Amounts below a cent outside manual entries and supplier invoices: the other requests carry the amounts their route
  has rounded; an asset whose value and residual value differ by less than a cent is not modelled.
- Floating point: exact integers replace it; an amount too large for a double is not modelled.
- More than one company: one set of books; every query of the source is restricted to the caller's company.
- Races between requests outside the export queue and the cache; statement-level isolation of the database.
- The period check in front of the stock routes, and stock items being deactivated.
- Ties in `createdAt`: creation order stands for it. The database's collation: numbers are compared by code unit.
- Document fields that no decision reads: descriptions, currencies, methods, references, notes, channels, audit rows.
- The edits of master data (accounts, partners, members, employees): one `Maintain` step sets them to anything.
- Fields of an asset that no route changes, such as `isActive`.
- The date arithmetic behind a calendar date: `Date` carries its month and its time side by side.
- Importing statements: lines appear one at a time by `ImportLine`; statement headers and deduplication are left out,
  and so are suggestions for matching.
- `Office.Routes` has no method for importing a line, creating an asset, storing a delegation or `Maintain`; those are
  steps of `Books` only.
- Sorting and slicing the top suppliers of the dashboard; the supplier's name in its row.
- MT940 and CAMT.053 statements, header detection and date formats of bank files: sequences of cursor steps and field
  look-ups around the two readers that are modelled.
- StatementAmounts.ParseDecimal: `Number` is modelled on unsigned digits with at most one point; exponents,
  hexadecimal literals and a second sign, which `Number` also reads, are not.
- Text is a sequence of characters; lone surrogates and the exact splitting of surrogate pairs are not modelled.
- The tick guard, retry delay and BullMQ side of the export queue: a worker may select at any time, which covers them.
- The clock of the cache only moves forward.
- Authentication, permissions, notifications, e-Factura, SAF-T and Revisal exports, compliance records, the frontend.
