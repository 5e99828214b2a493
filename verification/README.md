# A double-entry ledger under concurrency

This project models the core of the accounting backend: posting journal entries under
explicit locks, year-end close and reopen, the AR/AP subledger, the financial statements, tax
and money arithmetic, and two small concurrent protocols (idempotency keys, refresh tokens).
All of it shares one database value, `Ledger.Db`, so the results build on each other.

## How the model is built

- **Rows and amounts** (`Ledger`, `Sums`, `Options`). Ids stand for UUIDs, days for UTC dates,
  amounts for whole units of 1/10000 rupiah. A balance is debits minus credits over all posted
  lines of a set of accounts in a date window.
- **Money** (`Money`, `AssertBalanced`). Values are rounded half up to four decimals, and to
  twenty significant digits, the default of the decimal library.
- **Calendar** (`Calendar`). `Date.UTC` after section 21.4.3.4 of ECMA-262, with its day 0,
  its month overflow and its reading of the years 0 to 99 as 1900 to 1999.
- **Transactions** (`Statements`, `Operations`, `Serializability`, `Protocol`, `Executions`,
  `LockOrder`, `Deadlock`).
  Every statement of a write transaction takes the lock of one row, reads it, checks a guard
  and may write it. Any number of transactions interleave statement by statement and commit or
  abort at any point. What phase one prepared may be arbitrarily old (`Preparation`).
  `Operations.Effect` is the atomic effect of each operation; the statements refine it, and
  every interleaving is shown equivalent to atomic effects in commit order, and every serial
  history of atomic effects to be a run. Invariants
  (`Invariants`, `Numbering`, `Preservation`) are then proved on atomic effects.
- **What operations do** (`Outcomes`, `Progress`, `Periods`, `Guards`). Apart from any effect function,
  on the rows themselves: when each operation goes through and what it leaves, that nothing else
  stands in the way in a reachable ledger, what closing a period or a year means until it is
  reopened, and whom a posting may have to wait for.
- **Services that change state** (`PostingService`, `PaymentDrafts`, `Idempotency.KeyService`,
  `RefreshTokens.RefreshTokenService`) are classes or methods with loops, proved against the
  atomic effect or an exact specification.
- **Derived results** (`Subledger`, `ControlSide`, `ControlAccounts`, `Aging`, `Balances`,
  `Reports`, `Sweep`, `YearEndClose`, `CloseUnderLock`, `ClosingOrder`, `Tax`).
- **Concrete runs** (`Witnesses`) from an empty ledger show why conditions are needed.

## Assumptions

- Postgres READ COMMITTED; explicit locks, and the locks of written rows, are held to commit;
  an abort restores every row. The wait on the unique index of `reversal_of_id`
  (prisma/schema.prisma:223) is modelled as a lock on the original entry's index key.
- Ids drawn for new rows are new. The fiscal start month and the singleton roles never change.
- Deleting an account and posting to it are atomic to each other: a deletion never falls
  between the preparation of a posting and its transaction.
- Posted entries stay within 10^16 rupiah a side, which is exactly as far as `assertBalanced`
  can be trusted (`AssertBalanced.RightExactlyUpToLimit`).
- Results on control accounts are for runs in which only documents and payments touch those
  accounts: no other posting, no direct reversal of a document's entry, and no item, tax or
  cash account that is itself a control account. The code enforces none of these. That a
  document's entry moves its total there is not assumed but follows from the tax calculation.
- Updating a draft document is one atomic step that re-checks DRAFT.
- "Every closed year is swept" is for closes that nothing overtakes between reading the year's
  movements and taking the year's lock. The close that finds no movement takes no lock and
  appears only as an atomic step.
- RETAINED_EARNINGS is an equity account. The initial chart is coherent; later accounts are
  because creating them checks it.

## What turned out different from the stated intent

- Addition is exact exactly when the sum has at most twenty significant digits
  (`Money.AddExactIff`, `Money.AddLosesDigit`), so the balance check has a range, and 10^16
  rupiah is exactly it (`AssertBalanced.RightExactlyUpToLimit`).
- `fiscalYearForDate` and the year bounds agree if and only if the fiscal year touches no year
  from 0 to 99 (`Calendar.FiscalYearBoundsIff`). Years fail to abut, or periods to tile, only at
  the seams before year 0 and after year 99 (`Calendar.YearsAbut`, `Calendar.PeriodsTile`).
- Tax is rounded to twenty digits, to four decimals and to rupiah; for every product the result
  differs from rounding once exactly in a gap below one half that widens with the product
  (`Money.DoubleRoundingIff`, `Money.DoubleRoundingExample`).
- Two payments, posted or voided, can deadlock if and only if, of the documents both allocate to, they come to
  different ones first (`Deadlock.TwoPaymentsDeadlockIff`, `Witnesses.PaymentsDeadlock`).
  Opposite orders alone are not enough: behind a document both come to first they take turns
  (`Deadlock.GateProtects`). Under any common order of documents nothing deadlocks.
- Aging and control account differ at a date exactly by drafts re-dated while they were posted
  and by payments on documents dated later (`Aging.AgingGap`, `Witnesses.RedatingDisagrees`).
- A committed close leaves its year swept if and only if its entry still takes back what the
  year has moved at the moment it takes the year's lock; for an entry that was right when the
  close read the movements, if and only if nothing moved on the year's revenue and expense
  accounts between that read and the lock (`CloseUnderLock.CloseSweptIff`,
  `CloseUnderLock.SweptUnlessOvertaken`, `Witnesses.OvertakenClose`).
- The income statement's net income equals the balance sheet's current-year earnings if and
  only if revenue accounts carrying the TAX_EXPENSE role show no movement
  (`Reports.NetIncomeIffEarnings`).
- A handler that returns null leaves an idempotency row that no retry can replay or reclaim
  until it is purged (`Idempotency.NullNeverReplays`; the row reads back as null whichever null
  the database client stores), and whenever an owner overruns the time to live a retry can run
  beside it (`Idempotency.OverrunOverlaps`).

## Model

| member | source | states |
|---|---|---|
| Money.SigExactIff | src/common/money/money.ts:8-18 | twenty-digit rounding leaves a value unchanged exactly when it is a multiple of its rounding unit |
| Money.SigMonotone | src/common/money/money.ts:8-18 | rounding to twenty digits never reverses the order of two values |
| Money.SigSign | src/common/money/money.ts:56-62 | rounding keeps zero and the sign, so isZero and isNegative of a difference are exact |
| Money.SigError | src/common/money/money.ts:8-18 | rounding is off by at most half a unit of the twentieth digit |
| Money.AddExactIff | src/common/money/money.ts:32-38 | add is exact if and only if the sum is a multiple of its rounding unit, and always up to 10^16 rupiah |
| Money.AddLosesDigit | src/common/money/money.ts:32-34 | 9999999999999999.9999 + 0.0002 loses its last digit |
| Money.SumExact | src/common/money/money.ts:28-30 | the running sum of amounts that are not negative is exact up to 10^16 rupiah |
| Money.TaxError | src/tax/tax.service.ts:118-130 | rounded tax is within 0.5001 rupiah of base times rate below 10^16, within 0.50005 below 10^10 |
| Money.DoubleRoundingIff | src/tax/tax.service.ts:118-130 | for every base and rate, rounding to twenty digits, four decimals and rupiah equals rounding once if and only if the product is outside a gap given by its twentieth digit |
| Money.FourDecimalsRoundOnce | src/tax/tax.service.ts:118-130 | a product with at most four decimals is rounded as if once |
| Money.TaxMonotone | src/tax/tax.service.ts:118-130 | a larger base never owes less tax |
| Money.DoubleRoundingExample | src/common/money/money.ts:40-46 | 9.09 at 5.5% is taxed one rupiah although 0.49995 rounds to zero |
| AssertBalanced.Check | src/ledger/posting/assert-balanced.ts:7-32 | the loop with early rejection decides the specification Accepts |
| AssertBalanced.AcceptsIffBalanced | src/ledger/posting/assert-balanced.ts:7-32 | up to 10^16 rupiah a side the check accepts exactly the balanced one-sided entries of two or more lines |
| AssertBalanced.AcceptsUnbalanced | src/ledger/posting/assert-balanced.ts:7-32 | one unit above 10^16 rupiah it accepts an entry whose sides differ |
| AssertBalanced.RightExactlyUpToLimit | src/ledger/posting/assert-balanced.ts:7-32 | the check is right about all entries with sides up to n if and only if n is at most 10^16 rupiah |
| Calendar.FiscalYearBoundsIff | src/common/dates/fiscal-year.ts:2-24 | for every day, fiscalYearForDate is f exactly when the day is within f's bounds, if and only if f touches no year from 0 to 99 |
| Calendar.YearsAbut | src/common/dates/fiscal-year.ts:9-24 | a fiscal year ends the day before the next starts, if and only if it does not start in January at one of the two seams of year reading, -1 and 99 |
| Calendar.PeriodsTile | src/ledger/periods/periods.service.ts:27-54 | the twelve generated periods are non-empty, contiguous and cover exactly the fiscal year, if and only if it does not run from another month across such a seam |
| Calendar.OnePeriodPerDay | src/ledger/periods/periods.service.ts:27-54 | every day of the fiscal year lies in exactly one generated period, other days in none |
| Calendar.GregorianDate | src/common/dates/fiscal-year.ts:2-24 | for every day, its UTC year, month and day of the month are those of the closed formula for civil dates, both ways |
| Calendar.FourCenturies | src/common/dates/fiscal-year.ts:9-24 | 1 January 1970 is day 0 and 400 years from any month have 146097 days |
| Calendar.FirstAndLastDay | src/ledger/periods/periods.service.ts:33-37 | outside the years 0 to 99, Date.UTC with day 1 and day 0 gives the first day of the month and the last of its 28 to 31 |
| Calendar.FiscalYearInCivilDays | src/ledger/periods/periods.service.ts:27-54 | a fiscal year that touches none of those years runs from the civil first of its start month to the day before it a year later, and period i is its i-th civil month |
| Ledger.SwapNets | src/ledger/posting/posting.service.ts:369-377 | swapping debit and credit exchanges the two sides on every set of accounts |
| Numbering.IssueKeepsGapless | src/common/db/sequence.ts:17-41 | drawing a number and writing it on a new row keeps a series exactly 1 .. next - 1 without repeats |
| Operations.RunIsEffect | src/ledger/posting/posting.service.ts:156-251 | for each of the nineteen operations, its statements run alone amount to its atomic effect, rejections included |
| Operations.PostDocRuns | src/invoicing/document-posting.service.ts:113-139 | lock draft, draw number, post entry, finalize amounts to the atomic document post |
| Operations.PostPayRuns | src/invoicing/payments.service.ts:253-290 | lock, settle each allocation, draw number, post, finalize amounts to the atomic payment post |
| Operations.VoidPayRuns | src/invoicing/payments.service.ts:317-338 | lock, unwind each allocation, mark void, reverse amounts to the atomic payment void |
| Operations.VoidDocRuns | src/ledger/document-lifecycle.service.ts:70-80 | lock and check, mark void, reverse amounts to the atomic document void |
| Operations.CloseYearRuns | src/close/year-end-close.service.ts:97-126 | exclusive year lock, re-check, closing entry, upsert amounts to the atomic close |
| Operations.ReopenYearRuns | src/close/year-end-close.service.ts:191-205 | exclusive year lock, re-check, reversal, update amounts to the atomic reopen |
| Outcomes.GoesThroughIff | src/ledger/posting/posting.service.ts:96-386 | each prepared operation goes through if and only if the rows it depends on say so: statuses, open period and year, fresh ids, outstanding amounts, positive one-sided lines |
| Outcomes.EffectLeaves | src/ledger/posting/posting.service.ts:156-386 | and then leaves exactly the rows written out for it: the numbered entry or mirror image, the statuses, the paid amounts moved by the allocations, and nothing else |
| Outcomes.CommitLeaves | src/invoicing/payments.service.ts:217-340 | in every interleaved run, whatever commits found its rows so and leaves them so |
| Progress.CanPost | src/ledger/posting/posting.service.ts:96-152 | in every reachable ledger, balanced lines up to 10^16 rupiah on accounts in use can be posted on any date whose period and year are open |
| Progress.CanPostDraft | src/ledger/posting/posting.service.ts:388-475 | and so can a draft entry on its own date |
| Progress.CanReverse | src/ledger/posting/posting.service.ts:253-386 | every entry whose status is POSTED can be reversed on any such date |
| Progress.CanReopen | src/close/year-end-close.service.ts:174-213 | a closed year can be reopened while its closing entry stands and the period of that day is open |
| Progress.CanPostDocument | src/invoicing/document-posting.service.ts:92-156 | a draft document can be posted on its date with any calculated entry whose lines fit |
| Progress.CanVoidDocument | src/ledger/document-lifecycle.service.ts:52-92 | a posted document on which nothing is paid can be voided while its entry stands |
| Progress.CanPostPayment | src/invoicing/payments.service.ts:217-299 | a draft payment can be posted while its documents are posted and have enough outstanding for all it allocates to each |
| Progress.CanVoidPayment | src/invoicing/payments.service.ts:303-340 | every posted payment whose entry stands can be voided: what it paid is always there to take back |
| Serializability.CommitIsAtomic | src/ledger/posting/posting.service.ts:222-251 | committing a transaction that still holds its locks equals running all of it alone on the committed database |
| Serializability.CommitKeepsOthersCurrent | src/ledger/posting/posting.service.ts:222-251 | a commit leaves valid everything every other lock holder has read |
| Preparation.StaleIsStillGood | src/ledger/posting/posting.service.ts:96-152 | what phase one established and no commit can take back stays true however late phase two runs |
| Preservation.EffectKeepsLedger | src/ledger/posting/posting.service.ts:196-386 | every operation, however stale its preparation, keeps the ledger invariant and takes back no posted fact |
| Protocol.PreparedIsGood | src/ledger/posting/posting.service.ts:96-152 | the phase-one checks give phase two everything it relies on, a balanced entry included |
| Protocol.RunIsSerial | src/ledger/posting/posting.service.ts:204-251 | in every interleaving the committed database changes only by whole operations, each with its atomic effect |
| Protocol.NumbersAreGapless | src/common/db/sequence.ts:17-41 | in every reachable database the journal numbers of each year, and the numbers of each document type and year, are exactly 1 .. next - 1, each on one row |
| Protocol.PostedEntriesInOrder | src/ledger/posting/posting.service.ts:156-194 | every posted entry is balanced, on live accounts that take postings, dated inside its period and numbered in the fiscal year of its date |
| Protocol.CommitsInOpenTime | src/ledger/posting/posting.service.ts:222-251 | however stale its token, an entry commits while its period is open, and leaves its year closed only if it is that year's closing entry |
| Periods.CommitTurnsPeriod | src/ledger/periods/periods.service.ts:77-104 | when the close of a period commits, the period was open and is closed; when its reopening commits it is open |
| Periods.PeriodStaysClosed | src/ledger/periods/periods.service.ts:77-93 | a closed period stays closed until a reopening commits, and until then no step posts an entry into it, however stale its token |
| Periods.PeriodStaysOpen | src/ledger/periods/periods.service.ts:94-104 | an open period stays open until its close commits |
| Periods.CommitTurnsYear | src/close/year-end-close.service.ts:97-205 | closing a year turns it from open to closed with its entry and net income, reopening turns it back, and no other commit touches its row |
| Periods.YearStaysClosed | src/ledger/posting/posting.service.ts:222-242 | a closed year stays closed until a reopening commits, and until then no entry is posted into it |
| Guards.ExcludesIff | src/ledger/posting/posting.service.ts:222-251 | a year or period is locked exclusively by exactly the operations that close, reopen or create it |
| Guards.PostingsShareGuards | src/ledger/posting/posting.service.ts:214-251 | in every run a posting waits at its year or period only for such an operation, never for another posting |
| Protocol.ReversedOnce | src/ledger/posting/posting.service.ts:253-386 | an entry is REVERSED exactly when some entry points back at it, at most one does, and the two cancel on every set of accounts |
| Protocol.SecondReversalRejected | src/ledger/posting/posting.service.ts:264-273 | a reversal prepared from an entry already reversed is refused |
| Protocol.ChangeChartOk | src/ledger/accounts/accounts.service.ts:138-250 | creating coherent accounts, editing and deleting under the posted-lines guard keeps the whole system invariant |
| Protocol.ChartStaysCoherent | src/ledger/accounts/accounts.service.ts:29-146 | in every reachable database each account's subtype fits its type |
| Executions.Performs | src/ledger/posting/posting.service.ts:85-90 | between transactions, a prepared operation whose effect is defined can be carried out statement by statement |
| Executions.SerialHistoriesRun | src/ledger/posting/posting.service.ts:85-90 | every serial history of atomic effects is a run, the converse of serializability |
| LockOrder.ProgramInOrder | src/ledger/posting/posting.service.ts:204-251 | every transaction takes its locks in one global rank, document rows in the order it first comes to them |
| LockOrder.NoCyclicWait | src/invoicing/payments.service.ts:253-278 | among any number of transactions that come to document rows in one common order, whatever it is, there is no cyclic wait |
| LockOrder.RunsNeverDeadlock | src/invoicing/document-posting.service.ts:113-130 | no state of such a run has a cyclic wait |
| Deadlock.CycleNeedsGates | src/invoicing/payments.service.ts:263-265 | whatever else runs, two transactions waiting for each other come first to different ones of their shared documents |
| Deadlock.TwoPaymentsDeadlockIff | src/invoicing/payments.service.ts:253-340 | from any state in which each could go through, two payments, posted or voided, can reach a cyclic wait if and only if they come first to different ones of their shared documents |
| Deadlock.GatesAreOpposite | src/invoicing/payments.service.ts:263-265 | in that case they visit two documents in opposite orders |
| Deadlock.GateProtects | src/invoicing/payments.service.ts:263-265 | opposite orders behind a document both come to first do not deadlock |
| Deadlock.OppositeNeedNotDeadlock | src/invoicing/payments.service.ts:253-278 | two payments that both come to one document first never deadlock although they visit two others in opposite orders |
| Witnesses.PaymentsDeadlock | src/invoicing/payments.service.ts:253-278 | a run from the empty ledger that ends in a deadlock of two payments |
| PostingService.ExceedsIsExact | src/invoicing/payment-targets.ts:135-144 | on values the columns can hold the rounded over-allocation test is the exact one |
| PostingService.StaysInOrder | src/ledger/posting/posting.service.ts:196-251 | a service call that does all or nothing keeps the ledger invariant |
| PostingService.Store.NextEntryNumber | src/common/db/sequence.ts:17-41 | insert-if-absent, read and increment return the next number and move the counter by one, and change nothing else |
| PostingService.Store.NextDocNumber | src/common/db/sequence.ts:17-41 | the same for a document series |
| PostingService.Store.PreparePosting | src/ledger/posting/posting.service.ts:96-152 | hands out a token exactly when balance, segregation of duties, open period, open year and postable accounts all check out, and writes nothing |
| PostingService.Store.PrepareReversal | src/ledger/posting/posting.service.ts:282-331 | hands out a token exactly for a posted entry whose reversal date, by default its own, is in an open period and, unless closed years are allowed, an open year |
| PostingService.Store.AssertPostablePeriodInTx | src/ledger/posting/posting.service.ts:222-251 | passes exactly when the period is open and the year is not closed, unless closed years are allowed |
| PostingService.Store.StampPostedInTx | src/ledger/posting/posting.service.ts:204-215 | draws a number only after the guard passes |
| PostingService.Store.CreatePostedEntryInTx | src/ledger/posting/posting.service.ts:156-194 | succeeds exactly when the atomic post does, with its effect |
| PostingService.Store.ReverseInTx | src/ledger/posting/posting.service.ts:338-386 | succeeds exactly when the atomic reversal does, with its effect |
| PostingService.Store.Post | src/ledger/posting/posting.service.ts:85-90 | all of the post or nothing |
| PostingService.Store.Reverse | src/ledger/posting/posting.service.ts:253-276 | all of the reversal or nothing |
| PostingService.Store.PostDraft | src/ledger/posting/posting.service.ts:443-475 | all of the draft promotion or nothing, no number burnt on a draft that is gone |
| PostingService.Store.PostDocument | src/invoicing/document-posting.service.ts:92-156 | all of the document post or nothing |
| PostingService.Store.VoidDocument | src/invoicing/taxed-document.service.ts:239-283 | all of the void or nothing, refused while anything is paid |
| PostingService.Store.SettleInTx | src/invoicing/payment-targets.ts:189-222 | one allocation of the settlement, or refused |
| PostingService.Store.UnwindInTx | src/invoicing/payment-targets.ts:227-244 | one allocation of the unwinding, or refused |
| PostingService.Store.PostPayment | src/invoicing/payments.service.ts:253-299 | the allocation loop, number, entry and finalization, all or nothing |
| PostingService.Store.VoidPayment | src/invoicing/payments.service.ts:303-340 | the unwinding loop, void mark and reversal, all or nothing |
| PostingService.Store.CloseYear | src/close/year-end-close.service.ts:97-126 | all of the locked close or nothing |
| PostingService.Store.ReopenYear | src/close/year-end-close.service.ts:191-205 | all of the locked reopen or nothing |
| PaymentDrafts.CreateDraft | src/invoicing/payments.service.ts:56-136 | accepts exactly when the partner is active and of the right kind, the cash account postable, amounts positive, all allocations to each document together within its outstanding and the total within its column; the stored amount is the exact sum |
| PaymentDrafts.DraftCheckIsSettlement | src/invoicing/payment-targets.ts:189-222 | the draft-time check per document agrees with settling the allocations one after the other under lock |
| Subledger.SettleAdds | src/invoicing/payment-targets.ts:189-222 | an accepted settlement adds each document's allocations to amountPaid and stays within totals |
| Subledger.UnwindSubtracts | src/invoicing/payment-targets.ts:227-244 | an accepted unwinding subtracts each document's allocations |
| Subledger.UnwindIff | src/invoicing/payment-targets.ts:227-244 | unwinding is accepted exactly when every document has at least its allocations paid |
| Subledger.EffectKeepsSubledger | src/invoicing/payments.service.ts:217-340 | every operation keeps amountPaid equal to the posted allocations, within the total, and zero unless posted |
| Subledger.SubledgerHolds | src/invoicing/payments.service.ts:217-340 | the same in every state of every interleaved run |
| Subledger.UnwindNeverRefused | src/invoicing/payment-targets.ts:236-242 | "would drive amountPaid negative" is unreachable for a posted payment |
| ControlAccounts.PaymentNet | src/invoicing/payment-targets.ts:147-162 | the two payment lines move exactly the amount on the control account of the payment's kind |
| ControlAccounts.PaymentMoves | src/invoicing/payment-targets.ts:147-162 | on any set of accounts, a receipt moves its amount from the receivable to the cash account, a disbursement from cash to the payable account |
| ControlAccounts.EffectMovesBalance | src/ledger/balances/balances.service.ts:71-123 | how far each operation moves the balance of any accounts in any window |
| ControlAccounts.CleanEffectKeepsControl | src/invoicing/document-posting.service.ts:92-140 | clean operations keep each control balance, in every window, equal to what is booked on posted documents minus what is collected |
| ControlAccounts.ControlIsOutstanding | src/invoicing/payment-targets.ts:147-162 | in every window the control balance is what documents have outstanding, plus documents booked but not dated in it, minus what was prepaid |
| ControlAccounts.PrepaidIff | src/invoicing/payments.service.ts:56-136 | nothing is prepaid exactly when no posted payment of the window settles a document dated outside it |
| ControlAccounts.DatesHold | src/invoicing/taxed-document.service.ts:107-152 | in runs where no draft is re-dated while it is posted, documents carry the date of their entry |
| ControlAccounts.ControlMatchesSubledger | src/ledger/document-lifecycle.service.ts:52-92 | in every clean run, re-dated drafts included, each control balance is the sum of total minus amountPaid over posted documents |
| Aging.Aging | src/reporting/aging.service.ts:72-145 | in Money arithmetic, up to 10^16 rupiah, the loop gives the exact total, bucket totals and partner groups of the included rows |
| Aging.BucketDays | src/reporting/aging.service.ts:32-39 | the buckets hold what is open at most 0, 1 to 30, 31 to 60, 61 to 90 and over 90 days past the due date, or the document date if there is none |
| Aging.BucketsSumToTotal | src/reporting/aging.service.ts:32-39 | the five buckets sum to the total |
| Aging.PartnersSumToTotal | src/reporting/aging.service.ts:97-145 | the partners' totals sum to the total |
| Aging.QueryIsOutstanding | src/reporting/aging.service.ts:56-71 | the queried open items, each with its document's partner and dates, sum to what the documents have outstanding at the date |
| Aging.AgingGap | src/reporting/aging.service.ts:41-145 | in every clean run untruncated aging at a date is the control balance less misdated documents plus prepayments |
| Aging.AgingMatchesLedger | src/reporting/aging.service.ts:41-145 | without re-dating, aging equals the control balance at a date if and only if no payment dated by then settles a document dated later |
| Witnesses.RedatingDisagrees | src/invoicing/taxed-document.service.ts:107-152 | a clean run in which re-dating a draft between read and post makes aging and control disagree |
| Balances.BalanceIsDifference | src/ledger/balances/balances.service.ts:71-85 | a balance is summed debits minus summed credits |
| Balances.LedgerBalances | src/ledger/balances/balances.service.ts:71-85 | over all accounts and any window posted debits equal posted credits |
| Balances.WindowSplits | src/ledger/balances/balances.service.ts:109-123 | the balance at a date is the balance before a period plus the period's movement |
| Balances.ClassBalance | src/ledger/balances/balances.service.ts:71-85 | the grouped rows of a class of accounts add up to the class's ledger balance, so no posted line escapes the query |
| Balances.MakeTrialBalance | src/ledger/balances/balances.service.ts:125-155 | in decimal arithmetic, with each side up to 10^16 rupiah, the exact totals and exactly the rows that moved, in order |
| Balances.TrialBalanceShows | src/ledger/balances/balances.service.ts:125-155 | a row is listed if and only if it shows the debits, the credits and the ledger balance, positive on its normal side, of a live account that moved |
| Balances.ListedOnce | src/ledger/balances/balances.service.ts:125-155 | no account is listed twice |
| Balances.TrialBalanceAgrees | src/ledger/balances/balances.service.ts:125-155 | trial-balance totals agree |
| Reports.GenerateCashFlow | src/reporting/cash-flow.service.ts:20-106 | in Money arithmetic, with each side up to 10^16 rupiah, each figure is the effect of its class of accounts; a closing balance below 10^16 is said to reconcile exactly when it does |
| Reports.CashFlowReconciles | src/reporting/cash-flow.service.ts:34-106 | opening cash plus the three sections is closing cash, whatever the categories |
| Reports.CashFlowFigures | src/reporting/cash-flow.service.ts:34-85 | each figure is a ledger movement: CASH accounts, other revenue and expense accounts, the rest by category with NONE counted as operating |
| Reports.Group | src/reporting/balance-sheet.service.ts:24-47 | the loop totals natural sides exactly, with each side up to 10^16 rupiah for rows of one nature, and keeps each subtype's rows in order |
| Reports.GenerateBalanceSheet | src/reporting/balance-sheet.service.ts:49-104 | in Money arithmetic, with each side up to 10^16 rupiah, the totals are those of the account classes and the flag says exactly whether they balance |
| Reports.BalanceSheetBalances | src/reporting/balance-sheet.service.ts:49-104 | assets equal liabilities plus equity including earnings, contra accounts included |
| Reports.BalanceSheetFigures | src/reporting/balance-sheet.service.ts:49-104 | each figure is the ledger balance of the accounts of its type |
| Reports.GenerateIncomeStatement | src/reporting/income-statement.service.ts:14-69 | in Money arithmetic the exact statement, with each side up to 10^16 rupiah over a coherent chart whose TAX_EXPENSE accounts are expenses, otherwise with both sides together |
| Reports.IncomeFigures | src/reporting/income-statement.service.ts:28-69 | each line is the ledger movement of the revenue and expense accounts of its subtype, TAX_EXPENSE accounts apart, and each subtotal is the difference it stands for |
| Reports.NetIncomeIffEarnings | src/reporting/income-statement.service.ts:28-69 | over coherent accounts net income equals the earnings of the same rows if and only if TAX_EXPENSE revenue accounts net to zero |
| Reports.EarningsAgree | src/reporting/balance-sheet.service.ts:63-72 | in every reachable ledger and for every period net income equals earnings if and only if TAX_EXPENSE revenue accounts net to zero, so always when TAX_EXPENSE is an expense |
| Reports.ReportsHold | src/reporting/balance-sheet.service.ts:49-104 | in every reachable ledger the trial balance agrees, the balance sheet balances, cash flow reconciles and, if TAX_EXPENSE is an expense, net income is the period's earnings |
| Sweep.BuildClosing | src/close/year-end-close.service.ts:44-88 | the sweep loop in rounded arithmetic builds the exact closing entry; nothing to close and a missing retained-earnings account are decided by the rows alone |
| Sweep.ClosingDecides | src/close/year-end-close.service.ts:62-88 | nothing to close if and only if every revenue and expense row has equal sides; no account if and only if some row differs, the sides differ in total and there is none; an entry otherwise |
| Sweep.ClosingNets | src/close/year-end-close.service.ts:44-88 | the closing entry is balanced in profit, loss and zero years; it takes away each account's movement and moves the result to retained earnings |
| Sweep.ClosingAccepted | src/close/year-end-close.service.ts:90-97 | assertBalanced accepts every closing entry |
| Sweep.PlRowsAreMovements | src/close/year-end-close.service.ts:44-46 | the swept rows carry exactly the year's movement on revenue and expense accounts |
| YearEndClose.CloseMoves | src/close/year-end-close.service.ts:29-128 | what a close does to every balance at every date |
| YearEndClose.CloseSweeps | src/close/year-end-close.service.ts:29-128 | after a close every revenue and expense account has zero movement in the year |
| YearEndClose.CloseRecords | src/close/year-end-close.service.ts:105-126 | the year's row is closed with the year's own net income |
| YearEndClose.CanClose | src/close/year-end-close.service.ts:62-128 | an open year with an open period on its last day, accounts that can be posted to and sums in range can be closed |
| YearEndClose.ClosedYearFrozen | src/ledger/posting/posting.service.ts:142-150 | while a year stays closed no operation changes a balance within it |
| YearEndClose.ClosedYearsStaySwept | src/close/year-end-close.service.ts:29-213 | in every history of atomic steps every closed year has zero movement on every revenue and expense account |
| YearEndClose.OtherYearFrozen | src/ledger/posting/posting.service.ts:142-150 | an operation that posts into another year changes no balance within this one |
| CloseUnderLock.PostingTakesYear | src/ledger/posting/posting.service.ts:222-242 | whoever posts into a year takes the lock of that year |
| YearEndClose.CloseSweepsIff | src/close/year-end-close.service.ts:97-128 | a close sweeps its year if and only if its entry takes back what the year has moved on the database it commits to |
| CloseUnderLock.LockKeepsOffsets | src/close/year-end-close.service.ts:130-144 | while a close holds its year's lock, no step of any transaction makes its entry right or wrong |
| CloseUnderLock.CloseSweptIff | src/close/year-end-close.service.ts:97-144 | in every run, a committed close leaves its year swept if and only if its entry takes back what the year has moved when the lock is taken |
| CloseUnderLock.SweptUnlessOvertaken | src/close/year-end-close.service.ts:44-144 | an entry right when read leaves its year swept if and only if nothing moved on the year's revenue and expense accounts between read and lock |
| CloseUnderLock.InterleavedYearsStaySwept | src/close/year-end-close.service.ts:97-128 | in every interleaved run whose closing entries are right when the year lock is taken, every closed year stays swept |
| Witnesses.OvertakenClose | src/close/year-end-close.service.ts:44-104 | a run in which a sale posted between the close's read and its lock leaves the closed year unswept |
| YearEndClose.ClosedYearFrozenInRuns | src/close/year-end-close.service.ts:130-144 | in every interleaving a year closed before and after a step keeps every balance |
| ClosingOrder.ClosesMove | src/close/year-end-close.service.ts:36-61 | closing several years moves every balance by the sum of what each year alone would |
| ClosingOrder.CloseOrderIrrelevant | src/close/year-end-close.service.ts:39-46 | closing the same years in two orders gives the same balance everywhere |
| ClosingOrder.RetainedRises | src/close/year-end-close.service.ts:62-88 | retained earnings rise by the sum of each year's own net income |
| ClosingOrder.ReopenUndoes | src/close/year-end-close.service.ts:174-213 | reopening takes back exactly what closing moved, whatever was posted in between |
| ClosingOrder.ReopenRestores | src/close/year-end-close.service.ts:174-213 | reopening right after closing restores every balance at every date |
| ClosingOrder.CloseAgain | src/close/year-end-close.service.ts:29-213 | closing again after reopening gives the balances and net income of the first close |
| Tax.Validate | src/tax/tax.service.ts:57-101 | accepts exactly the transactions with lines, no repeated code on a line, and only known, active, allowed codes |
| Tax.AggregateBases | src/tax/tax.service.ts:106-115 | the nested loop gives each code the sum of the lines that carry it, in order of first use |
| Tax.Journalize | src/tax/tax.service.ts:133-164 | the loops build base and tax lines on the right sides with exact running totals |
| Tax.SortIsSorted | src/tax/tax.service.ts:118-131 | the tax rows are sorted by code and are the same rows |
| Tax.Calculate | src/tax/tax.service.ts:57-213 | refuses exactly invalid input and otherwise, up to 10^16 rupiah, returns the exact calculation with its rows sorted by code; the safety net never fires |
| Tax.RowExplained | src/tax/tax.service.ts:118-131 | each tax row has the kind, account and place of a code on some line, the sum of that code's lines as base, and whole rupiah within 0.50005 (0.5001 from 10^10 rupiah on) of base times the code's own rate |
| Tax.OneRowPerCode | src/tax/tax.service.ts:106-131 | every code on a line has exactly one row, and no other code has one |
| Tax.LinesExplained | src/tax/tax.service.ts:133-190 | every journal line by account, side and amount: items, then one line per tax row, then the settlement |
| Tax.LinesBalance | src/tax/tax.service.ts:133-190 | both sides of the lines come to subtotal plus value-added tax |
| Tax.AcceptedIffNoZero | src/tax/tax.service.ts:192-203 | the safety net passes, and assertBalanced accepts the lines exactly when no base or tax amount is zero |
| Tax.EntrySettles | src/tax/tax.service.ts:166-190 | the entry moves the settlement amount on its control account and nothing on the other |
| Tax.InvoicedSettles | src/invoicing/document-posting.service.ts:92-111 | so does every entry that a document is posted with, if no item or tax line is on a control account |
| Idempotency.KeyService.Reserve | src/common/idempotency/idempotency.service.ts:38-46 | proceeds, inserting a new row, exactly when there is none or the same request's row without response and completion is older than the time to live; mismatch exactly for another request, the stored response exactly when there is one that is not null |
| Idempotency.KeyService.ReserveOnce | src/common/idempotency/idempotency.service.ts:48-77 | insert or resolve, with the answer on both passes; the mutual recursion terminates |
| Idempotency.KeyService.ResolveExisting | src/common/idempotency/idempotency.service.ts:79-149 | mismatch, replay, conflict, or one reclaim of a stale row, with the answer on both passes |
| Idempotency.KeyService.Intercept | src/common/idempotency/idempotency.interceptor.ts:79-102 | the handler runs exactly when the key is free; its response is then replayed to the same request at any time, and after a failure the key is free again |
| Idempotency.KeyService.PurgeCompleted | src/common/idempotency/idempotency.service.ts:188-196 | never touches a reservation in flight; frees exactly the key of a request completed before the threshold |
| Idempotency.OneExecutionPerInsert | src/common/idempotency/idempotency.service.ts:48-149 | in every interleaving each insert grants exactly one execution and each row is reclaimed at most once |
| Idempotency.NoOverlap | src/common/idempotency/idempotency.interceptor.ts:79-102 | if owners finish within the time to live, executions never overlap |
| Idempotency.OverrunOverlaps | src/common/idempotency/idempotency.service.ts:110-140 | every run that reaches an owner past the time to live goes on to a second execution beside it |
| Idempotency.OverrunHappens | src/common/idempotency/idempotency.service.ts:48-65 | and such an owner is reached in three steps, whatever the time to live |
| Idempotency.CompletedUntilPurge | src/common/idempotency/idempotency.interceptor.ts:79-102 | after a completed execution the row keeps its response and nothing executes until a purge |
| Idempotency.ReplaysResponse | src/common/idempotency/idempotency.service.ts:141-148 | a request reading a completed row is answered with the response of its execution exactly when it is the same request and the response is not null, and refused exactly when it is another |
| Idempotency.NullNeverReplays | src/common/idempotency/idempotency.service.ts:109-140 | a null response is reported as still in progress |
| Idempotency.EachStepProgresses | src/common/idempotency/idempotency.service.ts:48-149 | each step of a request brings it closer to its end and leaves the others alone |
| RefreshTokens.RefreshTokenService.Issue | src/auth/refresh-token.service.ts:25-32 | keeps families chains; the new token is its family's one active token |
| RefreshTokens.RefreshTokenService.Rotate | src/auth/refresh-token.service.ts:42-96 | rotated exactly for the user's active token, reuse exactly for a consumed one, which revokes the whole family; keeps families chains, and success hands the sole activity on to the successor |
| RefreshTokens.RefreshTokenService.RevokeFamilyByJti | src/auth/refresh-token.service.ts:99-108 | keeps families chains and kills the family of a known token |
| RefreshTokens.RefreshTokenService.RevokeAllForUser | src/auth/refresh-token.service.ts:111-116 | keeps families chains and kills every family in which the user has a token |
| RefreshTokens.RefreshTokenService.PurgeExpired | src/auth/refresh-token.service.ts:122-127 | removes exactly the expired tokens, keeps families chains and brings no dead family back |
| RefreshTokens.FamiliesAreChains | src/auth/refresh-token.service.ts:25-127 | in every history each family is one chain of successors in which only the last token may be active |
| RefreshTokens.OneActivePerFamily | src/auth/refresh-token.service.ts:42-96 | no family has two active tokens and no token succeeds two others |
| RefreshTokens.NoRotationAfterRevocation | src/auth/refresh-token.service.ts:42-127 | after a replay of a consumed token or a revocation no token of the family rotates again, across purges |

## Left out

- Protocol.RunIsSerial: covers explicit row and advisory locks and the one unique index above; foreign-key locks, timeouts and liveness are not modelled.
- CloseUnderLock.InterleavedYearsStaySwept: the unlocked close of an empty year is not part of the interleaved model.
- LockOrder.NoCyclicWait: inserting a row under a fresh id is taken never to wait.
- Tax.Calculate: totals above 10^16 rupiah are not specified; the collation of code names is a given order.
- Sweep.BuildClosing: sides at or above 10^16 rupiah are not specified.
- Aging.Aging: rows whose amounts exceed 10^16 rupiah are not specified; likewise sides above it in the trial balance and the statements.
- PaymentDrafts.CreateDraft: the error messages are one refusal.
- Idempotency.KeyService.Reserve: one user and key; the rows of other keys are independent. Clocks are parameters.
- Soft-deleting drafts and opening or closing a period are single statements, covered by `Outcomes` and the run theorems without service methods of their own.
- Changing the fiscal start month after periods exist; the code promises nothing there.
- Controllers, validators, guards, audit, metrics, search, pagination, document references, seeding and schedules.
- JWT signing, password hashing and UUID generation; ids are fresh values.
- Opening-balance entry, general-ledger running balance, journal preview and user administration: each is one short check or fold over what is modelled here.
