# Bookkeeping and DATEV export: a verified model

The system turns bank, PayPal, marketplace and ERP files into double-entry bookings and hands them to a tax adviser as
DATEV "EXTF" files. Its promises are accounting promises: no amount is lost or invented, every journal entry balances, a
transaction leaves the house at most once, and what is written can be read back. This project models that pipeline in
Dafny and proves those promises, for every input, every run and, where calls can overlap, every interleaving of their steps.

`dafny verify dfyconfig.toml` checks everything.

## Structure

| module | what it models |
|---|---|
| `Folds`, `Selection`, `Sorting`, `Text`, `Wrappers` | sums, counts, filters, the stable sort and the string functions of the host language |
| `Datev`, `DatevFile`, `DatevExact`, `Csv`, `CsvFields`, `Money` | booking rows and their validation, the EXTF file and when it can be read back, the CSV reader, German amounts |
| `Pairing` | greedy pairing of debit and credit lines into booking rows |
| `FeeVat`, `AccountMapping`, `JournalBooking` | VAT lines of marketplace fees, accounts of a business event, and what a build or true-up stores |
| `Journal`, `JournalInvariant`, `JournalTheorems`, `JournalLedger`, `JournalService` | the accrual journal: state, steps, invariant, whole runs, what an export posts, and the service class |
| `JournalOverlap`, `JournalRaces`, `EntryRaces`, `JournalRuns` | the journal's builds, true-ups, posts and exports as single repository calls that may interleave, and the four races between them |
| `ExportOverlap`, `ExportCalls` | the journal's export down to the lock of each line and entry, amid all other writes |
| `SystemPolicies`, `RuleEngine` | the classification cascade and the human rules |
| `Cash`, `CashTheorems`, `CashBooking`, `CashPosting`, `CashLock`, `CashService` | cash transactions: state, steps, classification theorems, what is stored and posted, whole runs, and the service class |
| `ExportLock`, `ExportRaces` | the cash export lock as an interleaving state machine of single repository calls, and what can still go wrong |
| `ImportBatches`, `ImportTheorems`, `ImportService` | the file hash of an import batch: uploads, failures, watchdog and retries as single repository calls that may interleave |
| `PayPal`, `TrialBalance`, `AmazonOrders` | the PayPal balance check, trial balance against ledger, order aggregation |

State that the services update is held in classes (`AccrualJournal`, `CashLedger`, `ImportStore`). Each of their methods is
proved to compute the step function of the same name, and the theorems are about runs of those step functions.

## Main results

* The greedy pairing is a maximum matching, consumes every line once, conserves every account's debit and credit, and is
  perfect exactly when each (date, amount) class has as many debits as credits.
* Conservation from the stored documents to the file: for every account and side the rows of an accrual export post what
  the stored lines of the period's posted entries post, and the rows of a cash export what the stored bookings post.
* What a build, a true-up and the classification store is read off the event or transaction, the settings and the rules.
* Over every run of the journal all entries balance, an event has at most one built entry and at most one true-up, and
  every line is exported at most once; an accrual export succeeds exactly when there is something posted in the period and
  no forbidden account is used.
* Any table, with any cell contents, is read back from the CSV text it is written to, without its blank rows; a DATEV file
  is read back record by record down to cents, if and only if its unescaped fields are plain text.
* Where calls may interleave without a lock in the store (builds, true-ups, posts, accrual exports, uploads, retries, batch
  documents), the property that may get lost is kept over a run if and only if no step of the run is one of a few named
  races, each of which can be seen from the state before the step, and a concrete run shows it lost.
* However the calls of the cash services interleave, no transaction gets two export items, its mark always agrees with the
  item, and the mark is final. Exports that complete never share a transaction.
* The rule engine's outcome does not depend on rule order or priorities; re-applying rules is idempotent and reproduces the
  import's outcome for rules without validity dates.
* The fast and the simple report agree: trial balance and ledger, up to an exact correction term.

## Where the code does not do what it is meant to do

Each of these is stated with its exact condition or a concrete case.

* Two cash exports store batch documents that list the same transaction exactly if one gathers what the other has gathered
  or listed and not marked yet (`ExportRaces.StaysApartIff`, `ExportRaces.OverlappingBatchesRun`); only one can complete.
* An export that dies between an item and its mark leaves a transaction that every later export gathers and fails on
  (`ExportLock.UndisturbedExportCompletesIff`, `ExportLock.ForeignItemStopsExport`).
* The status "exported" is overwritten exactly by writes that were decided on before the export, or by a merge
  (`ExportRaces.StaysExportedIff`, `ExportRaces.StaleWriteRun`, `ExportRaces.MergeAfterExportRun`); the mark stays.
* The accrual journal has no unique index. An event gets two built entries or two true-ups exactly if a call looks while
  another one is making such an entry (`EntryRaces.StaysDistinctIff`, `JournalRuns.DoubleBuild`), and a line gets into two
  jobs exactly if two exports gather it before either has locked it (`ExportOverlap.StaysDisjointIff`, `ExportCalls.DoubleExport`).
* An entry is created before its lines, and nothing keeps a post or an export out until the last one. Besides the two races
  above, exactly an export that gathers an unfinished entry and a post that marks an entry exported meanwhile bring the
  journal into disorder (`JournalRaces.StaysOrderlyIff`): VAT lines are left behind in an exported entry, or an exported
  entry is posted again (`JournalRuns.VatLinesLeftBehind`, `JournalRuns.ExportedIsPostedAgain`).
* A file can get two live import batches exactly if an upload of it looks before another one has created its batch, or if an
  import reports success after its batch was failed and its hash was freed or an upload or a retry is about to free it
  (`ImportTheorems.StaysSingleIff`, `ImportTheorems.DoubleUpload`, `ImportTheorems.WatchdogReimportLateFinish`,
  `ImportTheorems.SuccessDuringRetry`).
* Merging the group that a re-upload creates marks transactions as duplicates that are not
  (`CashLock.MergedMembersAreNotDuplicates`, `CashLock.ReuploadMakesGroup`).
* The import judges a rule's validity at the time of the import, `applyRules` at the booking date
  (`CashTheorems.ExpiredRuleSeparatesImportAndReapply`). Re-processing a batch overwrites reviewed bookings
  (`CashTheorems.ReprocessKeepsReviewIff`).
* The inventory adjustment can bring in an account that the rule engine has just refused
  (`RuleEngine.AdjustedBookingForbiddenIff`).
* Accounts and tax keys are written to the file unescaped; the file can be read back exactly if they are plain text
  (`DatevExact.FileRecoversIff`, `DatevFile.DelimiterInAccountAddsACell`).
* A comment calls the VAT of a fee a gross-up of the clearing account. The net amount of a fee debits that account and the
  VAT credits it, so it moves by net minus VAT (`JournalTheorems.FeeVatIsNettedOnClearing`). A settlement of a marketplace
  without a debtor account moves no account at all (`JournalTheorems.SettlementMovesNothingIff`).
* The PayPal balance check reports a correct file as wrong when rows at the earliest (or, oldest first, latest) time add up
  to something after the first of them (`PayPal.NewestFirstMatchesIff`, `PayPal.OldestFirstMatchesIff`). A comment says that
  rows are demoted when excluding breaks the balance; the check never depends on the exclusion
  (`PayPal.ExclusionNeverChangesTheCheck`).
* A comment says that cancelled Amazon orders never become revenue. The line of an order with a cancelled row carries the
  prices of its other rows (`AmazonOrders.CancelledRevenueIff`, `AmazonOrders.PartlyCancelledOrder`).
* The trial balance drops an account whose number reads "null", and the ledger shows one side only of a transaction booked
  from an account to itself (`TrialBalance.TotalsDifferByNullAccount`, `TrialBalance.ReportsAgreeIff`).

## Model

| member | source | states |
|---|---|---|
| Pairing.AccrualLinesToDatevRows | src/helpers/accounting/accrual/accrual-datev-extf.ts:26-81 | the nested loops with their `used` set produce the rows of the simple recursive pairing of the date-sorted lines |
| Pairing.FindPartner | src/helpers/accounting/accrual/accrual-datev-extf.ts:39-51 | the inner loop finds the first later unused line of opposite side, equal amount and date, or reports that there is none |
| Pairing.PairConsumesEveryLine | src/helpers/accounting/accrual/accrual-datev-extf.ts:36-79 | the rows' lines are the input lines as a multiset, and joined lines are opposite, equal in amount and date |
| Pairing.RowsCarryTheirLines | src/helpers/accounting/accrual/accrual-datev-extf.ts:52-78 | a joined row carries amount without sign, side, account, date and reference of its first line against the account of the second, and the first key and text that is set; an unpaired one its own line |
| Pairing.PairLeavesTheExcess | src/helpers/accounting/accrual/accrual-datev-extf.ts:36-79 | of each date, amount and side exactly the excess over the other side stays unpaired |
| Pairing.GreedyIsMaximum | src/helpers/accounting/accrual/accrual-datev-extf.ts:36-79 | no other way of joining lines of one class across sides joins more of them |
| Pairing.PerfectIffBalanced | src/helpers/accounting/accrual/accrual-datev-extf.ts:36-79 | nothing stays unpaired if and only if every class has as many debits as credits |
| Pairing.PairConservesTheLedger | src/helpers/accounting/accrual/accrual-datev-extf.ts:52-78 | the rows post to every account and side what the lines post, even when lines of different entries are joined |
| Pairing.RowsValidIffBalanced | src/helpers/accounting/datev-writer.ts:136-155 | rows of lines without contra account all validate if and only if the classes are balanced and each line names a permitted account and an amount |
| Datev.ValidateDatevRows | src/helpers/accounting/datev-writer.ts:136-155 | the loop reports exactly the errors of the rows, in order, and the missing-rows error for an empty list |
| Datev.ValidIffExportable | src/helpers/accounting/datev-writer.ts:136-155 | no error if and only if there are rows and all of them are complete and free of forbidden accounts |
| Datev.TotalsByAccount | src/services/accounting/accrual/accrualDatevExport.service.ts:154-160 | the control totals are every account's turnover, and together they are the volume of the rows |
| Datev.VolumeIsTwiceTheAmount | src/services/accounting/accrual/accrualDatevExport.service.ts:154-160 | for complete rows the control totals sum to twice the row total |
| Csv.ParseCsv | src/helpers/accounting/csv.util.ts:104-160 | the character loop with its look-ahead computes the one-character-at-a-time reader |
| Csv.CsvRoundTrip | src/helpers/accounting/datev-writer.ts:36-40 | any table of escaped cells reads back exactly, without blank rows, with or without a final newline |
| Csv.WrittenTableReadsBack | src/helpers/accounting/csv.util.ts:104-160 | the same for every mixture of plain and quoted cells |
| Csv.TrimmedFilter | src/helpers/accounting/csv.util.ts:159-159 | filtering by what trimming leaves drops exactly the blank rows |
| CsvFields.FieldReadsBackIff | src/helpers/accounting/datev-writer.ts:105-120 | from any reader state inside a file, a field written unescaped before a delimiter reads back if and only if it has no delimiter, quote, CR or LF, whatever follows |
| Money.MoneyRoundTrip | src/helpers/accounting/csv.util.ts:20-40 | every printed amount parses to the same cents, for all signs and sizes, also with thousands points inserted |
| Money.PrintedAmountReadsBack | src/helpers/accounting/csv.util.ts:85-91 | printing and parsing are inverse on the printed text itself |
| Money.PointReadsBack | src/helpers/accounting/csv.util.ts:32-38 | without a comma the point is the decimal point |
| Money.WholeReadsBack | src/helpers/accounting/csv.util.ts:38-40 | digits alone are whole euros |
| Money.BracketsReadBack | src/helpers/accounting/csv.util.ts:29-30 | an amount in parentheses is negative |
| Money.SignReadsBack | src/helpers/accounting/csv.util.ts:28-28 | a euro sign after the amount changes nothing |
| Money.NoDigitsNoAmount | src/helpers/accounting/csv.util.ts:38-39 | a text without a digit is no amount |
| Money.RoundedToNearest | src/helpers/accounting/csv.util.ts:40-40 | more than two decimals are rounded to the nearest cent, halves up |
| DatevFile.DatevFileReadsBack | src/helpers/accounting/datev-writer.ts:46-134 | the whole file reads back as header, titles and one record per row |
| DatevFile.HeaderReadsBack | src/helpers/accounting/datev-writer.ts:53-99 | the first two records hold every header field and every column title in its place |
| DatevFile.DateReadsBack | src/helpers/accounting/datev-writer.ts:23-34 | a written date gives day, month and year back |
| DatevFile.DatevFileRoundTrip | src/helpers/accounting/datev-writer.ts:101-124 | record k gives back the cents, side, accounts, tax key, document date and field and the first 60 characters of the text of row k, and nothing in the unused columns |
| DatevExact.FileRecoversIff | src/helpers/accounting/datev-writer.ts:101-124 | the file has two records more than rows and gives every row back if and only if konto, gegenkonto and BU key of all rows are plain |
| DatevFile.DelimiterInAccountAddsACell | src/helpers/accounting/datev-writer.ts:112-114 | an account with a delimiter shifts the record by a cell |
| FeeVat.VatIsRounded | src/helpers/accounting/accrual/fee-vat.util.ts:76-79 | the VAT is within half a cent of the exact one |
| FeeVat.VatIsMonotone | src/helpers/accounting/accrual/fee-vat.util.ts:76-79 | a larger fee never has less VAT |
| FeeVat.VatOfFeesAndOfTheirSum | src/helpers/accounting/accrual/fee-vat.util.ts:76-79 | VAT of n fees and of their sum differ by at most (n + 1) / 2 cents |
| FeeVat.ResolveTreatment | src/helpers/accounting/accrual/fee-vat.util.ts:81-93 | an override other than "auto" always wins, and the result is never "auto" |
| FeeVat.ExtraLinesAreBalanced | src/helpers/accounting/accrual/fee-vat.util.ts:130-195 | for all settings the extra lines have equal debit and credit, both the reported VAT |
| JournalTheorems.FeeVatIsNettedOnClearing | src/helpers/accounting/accrual/fee-vat.util.ts:125-192 | for every bookable fee: the clearing account moves by something other than the net exactly when one VAT line alone is on it; if all other accounts differ from it, exactly for input VAT, and then by net minus VAT |
| JournalTheorems.AmazonFeeIsNetted | src/services/accounting/accrual/accrualJournal.service.ts:82-154 | an Amazon fee of 100.00 with the default settings moves the clearing account by 81.00 |
| JournalTheorems.SettlementMovesNothingIff | src/services/accounting/accrual/accountingMapping.service.ts:58-63 | the entry of a settlement or payout moves no account if and only if the marketplace has no debtor account of its own |
| JournalService.AccrualJournal.BuildDraftForEvent | src/services/accounting/accrual/accrualJournal.service.ts:47-164 | the method performs the build step: refusals in order, the existing entry, or a new entry with its lines |
| JournalBooking.BuildsIff | src/services/accounting/accrual/accrualJournal.service.ts:47-84 | a build makes an entry if and only if the stored event may be booked, has an amount and no entry, and the settings name both accounts |
| JournalBooking.BuildBooks | src/services/accounting/accrual/accrualJournal.service.ts:66-162 | what such a build stores: EUR amount before original amount, the accounts that the settings name for the event type, credit first for fees, refunds and negative amounts, dates, texts, and the VAT lines of a fee with their accounts, sides, amount and keys |
| JournalBooking.TrueUpBooks | src/services/accounting/accrual/fxTrueUp.service.ts:88-171 | what a true-up stores: a posted entry of two lines that moves the clearing account by exactly the difference |
| JournalService.AccrualJournal.PostEntry | src/services/accounting/accrual/accrualJournal.service.ts:166-192 | the method performs the post step, with the balance check |
| JournalService.AccrualJournal.BuildPeriod | src/services/accounting/accrual/accrualJournal.service.ts:198-230 | the loop performs the bulk build and its counters |
| JournalService.AccrualJournal.PostPeriod | src/services/accounting/accrual/accrualJournal.service.ts:232-278 | the loop performs the bulk post and its counters |
| JournalService.AccrualJournal.GatherExportable | src/services/accounting/accrual/accrualDatevExport.service.ts:52-92 | the nested loops collect the unlocked lines of the posted entries of the period |
| JournalService.AccrualJournal.CreateExport | src/services/accounting/accrual/accrualDatevExport.service.ts:133-205 | the method performs the export step: refuse, or store the job and lock lines and entries one by one |
| JournalInvariant.MirroredEntryBalances | src/services/accounting/accrual/accrualJournal.service.ts:95-160 | an entry of main and VAT lines has equal debit and credit |
| JournalInvariant.EveryDraftPosts | src/services/accounting/accrual/accrualJournal.service.ts:173-177 | the balance check never rejects an entry that the journal made |
| JournalInvariant.GatheredLine | src/services/accounting/accrual/accrualDatevExport.service.ts:53-79 | a line is gathered if and only if its entry is posted and in the period; then it is unlocked |
| JournalTheorems.EveryReachableStateIsGood | src/services/accounting/accrual/accrualJournal.service.ts:47-278 | every state of every run satisfies the journal invariant |
| JournalTheorems.RunKeeps | src/services/accounting/accrual/accrualDatevExport.service.ts:180-192 | no run changes an existing line or its lock |
| JournalTheorems.ReachableEntry | src/services/accounting/accrual/accrualJournal.service.ts:47-192 | any entry balances, has positive amounts only, is the only one of its kind (built or true-up) for its event, is not for an order or a cancellation, and is locked by one job if exported |
| JournalTheorems.ExportSucceedsIff | src/services/accounting/accrual/accrualDatevExport.service.ts:138-152 | in every good state the export succeeds if and only if an entry is posted in the period and no forbidden account is used; the pairing is always perfect |
| JournalTheorems.ExportConservesTheLedger | src/services/accounting/accrual/accrualDatevExport.service.ts:142-160 | every exported row is complete, the volume of the rows is twice their total, and they post what the inputs of the pairing post |
| JournalLedger.ExportJoinsStoredLines | src/helpers/accounting/accrual/accrual-datev-extf.ts:26-81 | the rows join the stored lines of the posted entries of the period two by two, each line once; side, both accounts, amount, tax key, date, document reference and text of a row are those of its lines and of the first line's entry |
| JournalLedger.ExportPostsTheJournal | src/services/accounting/accrual/accrualDatevExport.service.ts:52-92 | for every account and side the exported rows post what the stored lines of the period's posted entries post |
| JournalLedger.ExportSucceedsExactly | src/services/accounting/accrual/accrualDatevExport.service.ts:138-152 | an export succeeds if and only if a stored entry of the period is posted and no line of such an entry is on a forbidden account |
| JournalTheorems.ExportLocks | src/services/accounting/accrual/accrualDatevExport.service.ts:180-192 | exactly the gathered lines and entries are locked by the new job |
| JournalTheorems.LockedLineIsNeverGatheredAgain | src/services/accounting/accrual/accrualDatevExport.service.ts:72-74 | a locked line keeps its lock over every later run and is in no later export |
| JournalTheorems.JobsAreDisjoint | src/services/accounting/accrual/accrualDatevExport.service.ts:162-178 | the line lists of any two jobs are disjoint |
| JournalBooking.BulkBuildSkips | src/services/accounting/accrual/accrualJournal.service.ts:198-230 | the bulk build takes the events of the period that are not void and skips exactly those that cannot be built |
| JournalTheorems.BulkBuildCounts | src/services/accounting/accrual/accrualJournal.service.ts:198-230 | `built` is the number of new entries, and built and skipped make up the period's events |
| JournalTheorems.BulkPostPostsAll | src/services/accounting/accrual/accrualJournal.service.ts:232-278 | every draft of the period is posted and none is skipped |
| JournalOverlap.UndisturbedBuild | src/services/accounting/accrual/accrualJournal.service.ts:47-164 | look, entry, lines and event update without interference are the whole build call |
| JournalOverlap.UndisturbedTrueUp | src/services/accounting/accrual/fxTrueUp.service.ts:34-190 | the same for the steps of a true-up |
| JournalOverlap.UndisturbedPost | src/services/accounting/accrual/accrualJournal.service.ts:166-192 | read, mark and event update without interference are the whole post call |
| JournalOverlap.UndisturbedExport | src/services/accounting/accrual/accrualDatevExport.service.ts:133-205 | gather and lock without interference are the whole export call |
| JournalOverlap.OthersAreOutside | src/services/accounting/accrual/accrualJournal.service.ts:88-162 | every step of a build, true-up or post is one of those amid which `ExportOverlap.StaysDisjointIff` holds |
| JournalRaces.SafeKeptIff | src/services/accounting/accrual/accrualJournal.service.ts:63-192 | a step keeps the documents orderly, with room for the calls under way, if and only if it is none of the four races |
| JournalRaces.RacelessRun | src/services/accounting/accrual/accrualJournal.service.ts:47-192 | over every run without the races events have one entry of a kind, entries and their lines are locked together and jobs list what they locked; whenever no entry is being made the whole invariant holds |
| JournalRaces.StaysOrderlyIff | src/services/accounting/accrual/accrualJournal.service.ts:88-192 | over any run the documents stay orderly, also after two open calls or exports are completed, if and only if no step is an overlapping look, an overlapping or early gather, or a stale post |
| EntryRaces.TidyKeptIff | src/services/accounting/accrual/accrualJournal.service.ts:63-93 | a step keeps entries distinct, with room for those under way, if and only if it is no overlapping look, whatever posts and exports do |
| EntryRaces.StaysDistinctIff | src/services/accounting/accrual/accrualJournal.service.ts:63-93 | over any run events have one built entry and one true-up, also after two open calls are completed, if and only if no look overlaps |
| JournalRuns.DoubleBuild | src/services/accounting/accrual/accrualJournal.service.ts:63-93 | a run from the empty journal in which a sale gets two entries |
| JournalRuns.VatLinesLeftBehind | src/services/accounting/accrual/accrualJournal.service.ts:124-155 | a run in which a fee is posted and exported before its VAT lines are created: they stay unlocked in an exported entry |
| JournalRuns.LeftBehindIsNeverGathered | src/services/accounting/accrual/accrualDatevExport.service.ts:53-71 | such a line is in no gather |
| JournalRuns.ExportedIsPostedAgain | src/services/accounting/accrual/accrualJournal.service.ts:166-180 | a run in which the second of two posts takes an exported entry back to posted |
| ExportCalls.UndisturbedExport | src/services/accounting/accrual/accrualDatevExport.service.ts:133-192 | gather, store and lock step by step without interference are the whole export call |
| ExportOverlap.SafeKeptIff | src/services/accounting/accrual/accrualDatevExport.service.ts:135-186 | a step keeps job lists and gathered lists apart if and only if it is no overlapping gather |
| ExportOverlap.StaysDisjointIff | src/services/accounting/accrual/accrualDatevExport.service.ts:135-186 | over any run no line is in two jobs, also after two more stores, if and only if no gather takes a line that another call has gathered and not locked |
| ExportOverlap.DoneJobOwnsItsLines | src/services/accounting/accrual/accrualDatevExport.service.ts:180-186 | without overlapping gathers a job whose lines are done has locked them all |
| ExportCalls.DoubleExport | src/services/accounting/accrual/accrualDatevExport.service.ts:135-178 | a run from the empty journal in which two jobs list the lines of one posted sale |
| RuleEngine.NeverPicksByOrderOrPriority | src/helpers/accounting/rule-engine.ts:206-272 | permuting rules and changing priorities leaves status, booking and the multiset of ids unchanged |
| RuleEngine.ConflictIsPreserved | src/helpers/accounting/rule-engine.ts:224-231 | adding rules never resolves a conflict |
| RuleEngine.NonMatchingRulesAddNothing | src/helpers/accounting/rule-engine.ts:217-218 | rules that do not match never change the outcome |
| RuleEngine.BookedIffOneUsableRule | src/helpers/accounting/rule-engine.ts:220-272 | booked if and only if exactly one rule matches and it gives two permitted accounts; conflict if and only if two or more match |
| RuleEngine.OneMoreCondition | src/helpers/accounting/rule-engine.ts:161-184 | what one more condition changes for a rule that asks for all and for one that asks for any of them; enabled and valid from the first to the end of the last day |
| SystemPolicies.BankClearingIff | src/helpers/accounting/system-policies.ts:86-121 | which patterns are looked for in which texts of a bank transaction |
| SystemPolicies.PayPalClearingIff | src/helpers/accounting/system-policies.ts:123-148 | the same for a PayPal transaction |
| SystemPolicies.MarketplaceParkIff | src/helpers/accounting/system-policies.ts:62-80 | which patterns the marketplace park looks for in which texts |
| SystemPolicies.ManualParkIff | src/helpers/accounting/system-policies.ts:156-205 | which patterns the manual park looks for in which texts; refunds are parked under every policy |
| CashBooking.SettleFreshStores | src/services/accounting/import.service.ts:402-515 | what the cascade stores: the clearing account against the account of the source; nothing for a park, no rule or an unusable one; all ids for a conflict; otherwise konto, gegenkonto or payment account, key, text and side from the one rule |
| CashBooking.ImportStores | src/services/accounting/import.service.ts:308-515 | every new transaction carries one row of the file and the outcome of the cascade for it |
| CashBooking.ApplyRulesStores | src/services/accounting/transaction.service.ts:75-269 | the same outcome, judged on the booking date, is stored in every selected transaction that is not settled, and nothing else changes |
| CashBooking.ReprocessBatchStores | src/services/accounting/import.service.ts:80-257 | the same for the batch's transactions, judged at the present time |
| CashBooking.AssignStores | src/services/accounting/transaction.service.ts:271-309 | a manual booking is stored as given, on the side of the transaction's sign |
| RuleEngine.AdjustedBookingForbiddenIff | src/helpers/accounting/rule-engine.ts:303-318 | the exact condition under which the inventory adjustment yields a forbidden account |
| CashService.CashLedger.ImportParsed | src/services/accounting/import.service.ts:306-545 | the row loop with its counters performs the import step |
| CashService.CashLedger.ReprocessOne | src/services/accounting/import.service.ts:94-241 | the cascade with each branch's update and counter writes what the one classifier decides at the present time |
| CashService.CashLedger.ReprocessImport | src/services/accounting/import.service.ts:80-262 | the loop over the batch performs the re-processing step |
| CashService.CashLedger.ReapplyOne | src/services/accounting/transaction.service.ts:95-194 | guards, clearing and parks, with their updates and counters, write what the one classifier decides on the booking date |
| CashService.CashLedger.ReapplyByRules | src/services/accounting/transaction.service.ts:196-256 | the same for no rules, a match, a conflict and no match |
| CashService.CashLedger.ReapplyRules | src/services/accounting/transaction.service.ts:75-269 | the loop with its four counters performs the applyRules step |
| CashService.CashLedger.AssignTx | src/services/accounting/transaction.service.ts:271-309 | the method performs the assign step |
| CashService.CashLedger.SetTxStatus | src/services/accounting/transaction.service.ts:320-354 | the method performs the status step |
| CashService.CashLedger.Resolve | src/services/accounting/duplicate.service.ts:22-79 | the merge loop and the group update perform the resolve step |
| CashService.CashLedger.LockTransactions | src/services/accounting/datevExport.service.ts:136-155 | items and marks are written one by one, stopping at an existing item |
| CashService.CashLedger.Export | src/services/accounting/datevExport.service.ts:82-168 | the method performs the export step |
| CashPosting.ExportCarriesTransactions | src/services/accounting/datevExport.service.ts:298-316 | a batch lists exactly the due transactions by date, and row k carries amount, side, konto, gegenkonto, key, date, reference and text of the k-th |
| CashPosting.ExportPostsTheBookings | src/services/accounting/datevExport.service.ts:298-316 | for every account and side the rows post what the stored bookings of the due transactions post |
| CashPosting.ExportSucceedsExactly | src/services/accounting/datevExport.service.ts:82-118 | when an export succeeds, in terms of the stored transactions |
| CashPosting.ExportMarks | src/services/accounting/datevExport.service.ts:136-155 | exactly the due transactions are marked with the new batch, all others stay as they are |
| CashTheorems.ImportPartitions | src/services/accounting/import.service.ts:308-545 | rows = created + duplicate + skipped, created = matched + open + conflict, fingerprints stay unique, every row is stored afterwards |
| CashTheorems.ReimportCreatesNothing | src/services/accounting/import.service.ts:316-327 | rows imported once are all duplicates in any later import |
| CashTheorems.ReapplyIsIdempotent | src/services/accounting/transaction.service.ts:94-257 | re-applying twice to a transaction is re-applying once |
| CashTheorems.ApplyRulesPointwise | src/services/accounting/transaction.service.ts:86-268 | the pass writes the selected transactions only and its counters add up to the number processed |
| CashTheorems.ApplyRulesLeavesLocked | src/services/accounting/transaction.service.ts:95-107 | exported, reviewed, skipped and cleared transactions are not touched |
| CashTheorems.ApplyRulesIsIdempotent | src/services/accounting/transaction.service.ts:75-269 | a second run over the store changes nothing |
| CashTheorems.ImportAndReapplyAgree | src/services/accounting/import.service.ts:402-515 | import, applyRules and re-processing give one outcome when no rule's validity differs between the dates |
| CashTheorems.ExpiredRuleSeparatesImportAndReapply | src/helpers/accounting/rule-engine.ts:161-172 | with one deciding rule the outcomes differ if and only if it would book the transaction and is valid at just one of the two times |
| CashTheorems.ReprocessKeepsReviewIff | src/services/accounting/import.service.ts:80-98 | after re-processing a batch a reviewed transaction is still reviewed if and only if it was not selected or was booked by the system, and then it is unchanged |
| CashLock.RunFollows | src/services/accounting/datevExport.service.ts:82-168 | every run keeps the lock invariant, all identities and all marks |
| CashLock.ExportSucceedsIff | src/services/accounting/datevExport.service.ts:82-155 | an export succeeds exactly when something acceptable is gathered and no open items block it; the unique index is never hit in a sequential run |
| CashLock.ExportedAtMostOnce | src/models/accounting/exportItem.model.ts:11 | a transaction is listed by at most one batch, the one that its mark names |
| CashLock.LockIsFinal | src/services/accounting/datevExport.service.ts:199-207 | a mark survives every later run and keeps the transaction out of every gather |
| CashLock.ImportedOnceAndForAll | src/models/accounting/transaction.model.ts:106-109 | a file imported at any point of a run creates nothing at any later point |
| CashLock.MergedMembersAreNotDuplicates | src/services/accounting/duplicate.service.ts:35-55 | merging a group of a run hides transactions whose fingerprint differs from the one kept |
| CashLock.ReuploadMakesGroup | src/services/accounting/import.service.ts:518-526 | a file of two rows uploaded again makes a group of the two different transactions |
| ExportLock.StepKeeps | src/services/accounting/datevExport.service.ts:136-155 | every single step of any call keeps the lock invariant and takes no mark, item or batch back |
| ExportLock.AtMostOneItem | src/models/accounting/exportItem.model.ts:11 | over every interleaving no transaction has two items |
| ExportLock.MarkIsOwnedAndFinal | src/services/accounting/datevExport.service.ts:137-145 | over every interleaving a mark agrees with the item and never changes |
| ExportLock.CompletedExportsAreDisjoint | src/services/accounting/datevExport.service.ts:82-168 | completed exports own all their transactions and share none |
| ExportRaces.ListsApartKeptIff | src/services/accounting/datevExport.service.ts:83-134 | a step keeps batch lists and gathered lists disjoint if and only if it is no overlapping gather |
| ExportRaces.StaysApartIff | src/services/accounting/datevExport.service.ts:83-134 | over any run the batch documents are disjoint, also after two more are stored, if and only if no gather overlaps |
| ExportRaces.OverlappingBatchesRun | src/services/accounting/datevExport.service.ts:120-134 | a run from the empty store with two batch documents of one transaction |
| ExportLock.OverlappingBatchesNeverBothComplete | src/services/accounting/datevExport.service.ts:136-155 | at most one of them completes |
| ExportRaces.ExportedStatusLostIff | src/services/accounting/transaction.service.ts:272-296 | in every reachable state exactly the pending writes on a transaction take its status "exported" away; each was decided on an earlier status or is a merge |
| ExportRaces.StaysExportedIff | src/services/accounting/datevExport.service.ts:142-145 | over any run the status stays if and only if no such write is executed |
| ExportRaces.StaleWriteRun | src/services/accounting/transaction.service.ts:320-341 | a run in which a status read before the export is written after it |
| ExportRaces.MergeAfterExportRun | src/services/accounting/duplicate.service.ts:37-43 | a run in which a merge skips an exported transaction |
| ExportLock.StaleWriteCannotUnlock | src/services/accounting/datevExport.service.ts:199-204 | whatever is written later, a marked transaction can be in no gather |
| ExportLock.ForeignItemStopsExport | src/services/accounting/datevExport.service.ts:136-140 | an export that lists a transaction whose item belongs to another one never completes |
| ExportLock.UndisturbedExportCompletesIff | src/services/accounting/datevExport.service.ts:136-155 | a call without interference completes if and only if no gathered transaction has an item yet |
| ImportService.ImportStore.HandleDuplicateFileHash | src/services/accounting/accrual/accrualImport.util.ts:105-125 | duplicate, or the failed batch's hash is freed |
| ImportService.ImportStore.StartImport | src/services/accounting/import.service.ts:264-304 | the method performs the start step |
| ImportService.ImportStore.FailAccrualBatch | src/services/accounting/import.service.ts:567-589 | the refusals in order, or the batch is failed |
| ImportService.ImportStore.SupersedeFailedBatchHash | src/services/accounting/accrual/accrualImport.util.ts:47-66 | the refusals in order, or the hash is renamed |
| ImportService.ImportStore.RunImportWatchdog | src/jobs/importWatchdog.job.ts:10-34 | exactly the stale accrual batches are failed, and counted |
| ImportBatches.UndisturbedUpload | src/services/accounting/import.service.ts:264-304 | look-up, freeing and creation without interference are the whole upload |
| ImportBatches.UndisturbedWrite | src/services/accounting/accrual/accrualImport.util.ts:47-66 | read and write without interference are the whole manual failure, watchdog failure or retry |
| ImportTheorems.HashInvKeptIff | src/services/accounting/accrual/accrualImport.util.ts:105-125 | a step keeps hashes unique, with room for the batches to come, if and only if it is no overlapping look |
| ImportTheorems.HashesStayUnique | src/services/accounting/import.service.ts:268-282 | over every run without overlapping looks no two batches share a hash |
| ImportBatches.RetryIsIdempotent | src/services/accounting/accrual/accrualImport.util.ts:61-64 | over every run, of two overlapping retries of a batch the second write changes nothing |
| ImportBatches.SecondRetryChangesNothing | src/services/accounting/accrual/accrualImport.util.ts:61-64 | of two retries one after the other the second changes nothing: the suffix is never stacked |
| ImportBatches.FailedContentCanBeImported | src/services/accounting/import.service.ts:269-304 | over every run and whatever else is going on, a file with failed batches only gets a new batch |
| ImportTheorems.SafeKeptIff | src/services/accounting/accrual/jtlImport.service.ts:190-222 | a step keeps files single, with room for the uploads and retries under way, if and only if it is neither a late finish (of a failed batch whose hash is freed or about to be freed by an upload or a retry) nor an overlapping look |
| ImportTheorems.OneLiveBatchPerFile | src/services/accounting/accrual/accrualImport.util.ts:105-125 | over every run without these two hazards a file has at most one live batch and is refused if and only if it has one |
| ImportTheorems.StaysSingleIff | src/services/accounting/accrual/accrualImport.util.ts:47-125 | over any run files are single, also after two open uploads or an open retry are completed and one more upload is made, if and only if no step is one of the hazards |
| ImportTheorems.WatchdogReimportLateFinish | src/jobs/importWatchdog.job.ts:10-34 | a run of watchdog, new upload and late success with two live batches of one file |
| ImportTheorems.SuccessDuringRetry | src/services/accounting/accrual/accrualImport.util.ts:53-64 | a run in which an import succeeds between a retry's read and write, with two live batches of one file |
| ImportTheorems.DoubleUpload | src/models/accounting/importBatch.model.ts:33-33 | a run of two simultaneous uploads with two live batches of one file and one hash |
| PayPal.ReadRecords | src/helpers/accounting/paypal-parser.ts:117-217 | accepted records become rows in file order, all others are reported by position |
| PayPal.CheckBalance | src/helpers/accounting/paypal-parser.ts:222-257 | the running sum over the sorted rows yields the specified check |
| PayPal.ParsePaypal | src/helpers/accounting/paypal-parser.ts:73-286 | bookability of every row from settings and check; nothing else is changed; after a failed check with integrity on no row stays skipped |
| PayPal.CheckIs | src/helpers/accounting/paypal-parser.ts:230-257 | the whole check in terms of the file, for any times and missing balances: the latest row's balance against the earliest row's balance plus amounts plus fees of all other rows |
| PayPal.MatchedIffGapsCancel | src/helpers/accounting/paypal-parser.ts:233-257 | with distinct times, in any file order, the difference is the sum of the gaps between each balance and the one before it plus amount and fee |
| PayPal.UnbrokenChainMatches | src/helpers/accounting/paypal-parser.ts:230-270 | with distinct times: if each balance is the one before it in time plus amount and fee, the check matches and demotes nothing, whatever the file order |
| PayPal.NewestFirstMatchesIff | src/helpers/accounting/paypal-parser.ts:233-257 | with equal times, newest first: matched if and only if amounts and fees of the rows after the first earliest one add up to zero |
| PayPal.OldestFirstMatchesIff | src/helpers/accounting/paypal-parser.ts:233-257 | the same for an oldest-first file and the latest time |
| PayPal.FalseAlarmOnEqualTimes | src/helpers/accounting/paypal-parser.ts:259-269 | the records of a correct file whose excluded row is demoted |
| PayPal.ExclusionNeverChangesTheCheck | src/helpers/accounting/paypal-parser.ts:222-270 | the outcome of the check is the same under all exclusion settings |
| TrialBalance.TotalsDifferByNullAccount | src/services/accounting/reconciliation.service.ts:153-211 | total debit and credit differ by exactly the bookings on an account "null" |
| TrialBalance.ListedIff | src/services/accounting/reconciliation.service.ts:198-208 | which accounts are listed |
| TrialBalance.TrialBalanceIs | src/services/accounting/reconciliation.service.ts:153-211 | debit and credit of an account are what the stored bookings post there: konto on the stored side, debit for outflows if none is stored, gegenkonto on the other |
| TrialBalance.LedgerIs | src/helpers/accounting/ledger-sides.ts:10-41 | so are the sums of the ledger, with the konto side only of a booking from the account to itself |
| TrialBalance.LedgerLineIs | src/helpers/accounting/ledger-sides.ts:32-41 | contra account and side of a ledger line |
| TrialBalance.AccountTrialBalance | src/services/accounting/reconciliation.service.ts:213-236 | filling up with chart accounts changes no total |
| TrialBalance.AccountLedger | src/services/accounting/reconciliation.service.ts:252-307 | the loop yields the sums and lines of the payments that touch the account |
| TrialBalance.TrialBalanceAgainstLedger | src/helpers/accounting/ledger-sides.ts:10-41 | trial balance = ledger + second sides of bookings from the account to itself |
| TrialBalance.ReportsAgreeIff | src/helpers/accounting/ledger-sides.ts:32-41 | the reports agree on an account if and only if there is no such amount |
| TrialBalance.NullAccountOnlyInLedger | src/services/accounting/reconciliation.service.ts:199-199 | the account "null" has a ledger and no trial balance |
| AmazonOrders.ParseOrders | src/helpers/accounting/accrual/amazon-order-parser.ts:48-140 | one line per order of the accepted rows with summed price, joined flags and earliest date; the lines' amounts sum to the prices of all accepted rows that are not cancelled |
| AmazonOrders.LineSaysWhatRowsSay | src/helpers/accounting/accrual/amazon-order-parser.ts:94-139 | every field of a line in terms of the order's rows: first row's currency and product, sum of prices, earliest date, euro amount for EUR only, cancelled before shipped before pending |
| AmazonOrders.LineIsDetermined | src/helpers/accounting/accrual/amazon-order-parser.ts:119-137 | the rows of an order determine its line |
| AmazonOrders.SummaryIgnoresRowOrder | src/helpers/accounting/accrual/amazon-order-parser.ts:97-115 | amount, date and flags do not depend on the row order |
| AmazonOrders.EuroAmountWithOneCurrency | src/helpers/accounting/accrual/amazon-order-parser.ts:117-131 | nor does the euro amount of an order with one currency |
| AmazonOrders.FullyCancelledOrderHasNoRevenue | src/helpers/accounting/accrual/amazon-order-parser.ts:94-111 | an order with cancelled rows only has amount zero |
| AmazonOrders.CancelledRevenueIff | src/helpers/accounting/accrual/amazon-order-parser.ts:97-113 | the line of a cancelled order has amount zero if and only if all its rows that are not cancelled are free |
| AmazonOrders.PartlyCancelledOrder | src/helpers/accounting/accrual/amazon-order-parser.ts:110-113 | an order reported as cancelled with revenue |

## Left out

- Pages of query results (100, 500, 2000, 5000 and 10000 documents): every query of the model returns all matches.
- Soft delete, audit log, history notes, confidence values and skip reasons.
- Floating point: amounts are exact decimals and cents; numbers beyond double precision and `toFixed` limits are not captured.
- Characters: strings are sequences of characters, so a cut at 60 that splits a surrogate pair is not captured.
- Dates are integers with a calendar as a parameter; parsing and formatting of dates is not part of this model.
- `detectDelimiter`, the file name, the file hash of an export and the cp1252 encoding.
- Regular expressions, lower-casing and the evaluation of a single rule condition are parameters of the classifier.
- The wording of descriptions and booking texts of journal entries, among them the VAT suffix: one reference text stands for them.
- The choice of the document field of cash rows: a field of the transaction stands for it.
- Fee-VAT treatments outside the declared list of names, and an empty marketplace key.
- The FX true-up of the journal has a given difference; its rates and its service method are not modelled.
- The reads of one journal call before its first write are one step. In `JournalRaces` the lock of an export is one step; `ExportOverlap` takes it apart, with all other calls as arbitrary writes that leave stored lines and jobs alone, but says nothing about entries: an export that dies between two locks is covered there only.
- The accrual lock's `exportedAt` and `exportJobId` are one field, because they are written together. The gather of an export, which reads entry by entry, is one step.
- The watchdog's query is one read per batch; a failure of an import after its last status write is not modelled.
- The PayPal header search, its column names and the period of the file.
- Sorting and naming of the accounts in the trial balance, and the texts of ledger lines.
- Excel files, bank and other marketplace parsers, matching, payout reconciliation, suggestions, company settings.
- HTTP, authentication, queues, mail, sockets and uploads.
