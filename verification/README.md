# Verified core of a B2B ordering platform

A company sells to stores: it keeps price lists, takes orders, plans deliveries, sends couriers out on
runs, and keeps the money it is owed. This Dafny project models the parts of the backend where a
mistake would lose money, act twice, or leave two records of one fact disagreeing, and proves what
they promise over every input, every run or every interleaving. Nothing in the original program is
executed here: every statement is a proof about the model.

## What is modelled

**Partnership finance** (`Fifo`, `Books`, `BooksProofs`, `Posting`, `PostingOrder`, `Finance`,
`FinanceProofs`, `FinanceTheorems`, `FinanceOutcomes`, `FinanceRecords`, `FinanceDocuments`,
`FinanceService`, `Reconcile`, `Balances`). The tables are flat, as in the database: charges, credits,
allocations, ledger entries and one balance projection a partnership. A posting inserts an open item,
appends a ledger entry with the new projection and lets the FIFO planner spend the oldest credits on the
oldest charges (`PostingOrder`). `Finance` gives every operation as a function from the old tables to an error
or the new tables; `FinanceService` is the service itself, an object whose tables are edited row by row
in the order of the service's statements, each method proved to compute the function and to leave the
tables alone on an error. Money is in whole cents, unbounded; ids and instants are integers. `_lock`
serialises the postings of one partnership, so a run is a sequence of operations. `FinanceOutcomes` says of
each operation, over the columns alone, when it is accepted, what it leaves and why it is refused;
`FinanceRecords` what that comes to over whole runs: due days, stamps, final documents. `Fifo` has the planner
three times, as the loops, as a recursive greedy walk and as a closed form over prefix sums, and proves
them equal. `FinanceDocuments` ties the money back to the orders, payments, adjustments and notes it comes
from. `Reconcile` is the nightly job, `Balances` the two ways to one balance sheet.

**Idempotency keys** (`Idempotency`, `IdempotencyRuns`). The record table with one method a SQL
statement, the three-round claim loop with other sessions writing between its statements, and a
transition system in which any number of requests claim, read, commit, fail, release and crash while
records expire, are taken over and are purged. There is one clock that never goes back; a claim's
clock read belongs to its first transaction; a commit may take effect without being acknowledged.

**Deliveries, runs and handover codes** (`Deliveries`, `DeliveryProofs`, `DeliveryTheorems`,
`DeliveryActions`, `DeliveryService`). One function a transaction of the delivery and run services, and the
services in place with their loops over stop lists, each method keeping the invariant of every run;
`DeliveryActions` says of each transaction, field by field, when it is accepted and what it leaves. A row
carries its status history and a log of what happened to its code; a confirmation leaves a ticket between
its two transactions, so any interleaving with wrong codes, regenerations and other confirmations is a
sequence of operations.

**Offline queues** (`Sync`, `SyncDeliveries`). Operations of a batch in the client's order, one
transaction each, behind a log keyed by operation id that is purged after thirty days. What an operation
does is a parameter, so the laws hold for any; `SyncDeliveries` supplies the real ones.

**Prices** (`Prices`), **profile images** (`Images`), **rate limits** (`RateLimit`) and **money
strings** (`Money`): the price timeline edited in place, the two-store image swap as a transition system
with a failure possible at every step, the sliding window that prunes its log, and parsing, printing
and rounding. `Seqs` holds sums, filters and the stable sort.

## Where a promise has a condition

Six promises do not hold of the code as its comments put them. Each is kept as the code has it, with
the exact condition proved for all inputs:

- *Reconciliation finds every disagreement of balance, allocations and coverage.* A partnership that never
  traded, has no projection and whose entries cancel out is not compared. A clean report means agreement
  whenever the comparison was made (`Reconcile.CleanMeans`), and an unposted charge is reported if and
  only if it was (`Reconcile.UnpostedChargeIsFound`, `Reconcile.BlindSpot`). That a document was posted is
  checked, for how much is not: no check depends on the size of a delivered order's total, so a compared
  partnership without a mismatch may owe another sum than its documents add up to
  (`Reconcile.AmountsAreNotCompared`, `Reconcile.CleanIsNotDocumented`).
- *A key is remembered for its life time.* The life time runs from the claim, not from the effect. A
  recorded effect answers every retry before its record's expiry and none after it
  (`IdempotencyRuns.RetriesAreAnswered`); an execution as long as the life time may be followed at once
  by a second one (`IdempotencyRuns.LifeTimeRunsFromTheClaim`).
- *Every wrong code costs an attempt.* The second transaction of a confirmation refuses a code without
  counting it, if and only if a code was minted after the first transaction, the last such minting is a
  different code, and the delivery is still on the road, unlocked and the actor's to confirm
  (`DeliveryTheorems.LateRefusalIsNotCounted`, `DeliveryTheorems.LateRefusalHappens`).
- *A replayed operation never acts again.* It acts exactly when its id is not in the log; purging the
  log after thirty days lets it act again (`Sync.PurgedActsAgain`, `Sync.ActsOnceWhileLogged`).
- *A queue replayed twice acts once.* Exactly-once covers the executions that reach the log. A wrong code
  is counted in a transaction of its own, so a request that breaks between the count and the log row counts
  it, and sending it again counts it again at once: an operation counts if and only if its id is not in
  the log and its code is wrong for a delivery that counts, whether or not it is then logged
  (`SyncDeliveries.CountsUnlessLogged`, `SyncDeliveries.BrokenCountsAgain`). Nothing else of a broken request
  stays in the database (`SyncDeliveries.BrokenOnlyCounts`).
- *The new object is referenced by nothing when a swap fails.* If a commit takes effect but raises, the
  clean-up deletes an object on show. After any run a picture is there if and only if no such clean-up
  deleted its file (`Images.ShownUnlessLost`), and all pictures are there throughout a run if and only if
  no step of it deletes a file on show that way (`Images.ShownThroughout`, `Images.LostReplyBreaks`).
  Pointers and active files stay right whatever fails (`Images.PointersAreSafe`).

## Model

| member | source | states |
|---|---|---|
| Fifo.AllocateFifo | backend/app/modules/finance/domain.py:92-129 | invalid or repeated items are refused; otherwise the plan of the greedy walk, in which a charge gets something only when every charge due earlier (then created earlier, then with the smaller id) gets all it wants, and a credit gives only when every older one is used up |
| Fifo.MergeOrdered | backend/app/modules/finance/domain.py:112-129 | the nested loops over one index and two remainders compute the greedy walk over the sorted items |
| Fifo.MergeIsOverlap | backend/app/modules/finance/domain.py:112-129 | charge i and credit j share exactly the overlap of their prefix-sum intervals, in order, and no line stands for an empty one |
| Fifo.MergeTotal | backend/app/modules/finance/domain.py:112-129 | the plan spends the smaller of the two totals |
| Fifo.ChargeShare | backend/app/modules/finance/domain.py:112-129 | a charge gets what the credits hold beyond all earlier charges, capped by what it has left |
| Fifo.CreditShare | backend/app/modules/finance/domain.py:112-129 | a credit gives what the charges want beyond all earlier credits, capped by what it has left |
| Fifo.PlanInTurn | backend/app/modules/finance/domain.py:112-113 | for any valid items in any order the plan serves charges by due day, creation and id, out of credits by creation and id |
| Fifo.PlanPermutation | backend/app/modules/finance/domain.py:110-112 | the plan is the same for every order in which the rows are read |
| BooksProofs.Settle | backend/app/modules/finance/service.py:161-175 | writing a plan line by line leaves every charge or every credit of the partnership fully allocated and keeps all row sums |
| Posting.AllocateSettles | backend/app/modules/finance/service.py:143-175 | allocating the open items of one partnership keeps every allocation invariant and exhausts one side |
| Posting.PostKeepsBooks | backend/app/modules/finance/service.py:106-175 | a whole posting keeps ledger prefix sums, row sums, pair uniqueness, row counts and money agreement |
| Posting.PostMoney | backend/app/modules/finance/service.py:106-175 | after a posting balance, ledger and open items agree again, with nothing open on both sides |
| PostingOrder.AllocatesThePlan | backend/app/modules/finance/service.py:161-175 | writing a plan adds to each item exactly what the plan gives it |
| PostingOrder.PostIsInTurn | backend/app/modules/finance/service.py:143-175 | a posting writes a row to a charge only when every older charge of the partnership is then paid in full, and takes from a credit only when every older one is then used up |
| PostingOrder.PostStamps | backend/app/modules/finance/service.py:162-175 | a charge that gets nothing stays the same row; one that becomes full is stamped with the time of the posting |
| FinanceProofs.ChangeIsExact | backend/app/modules/finance/service.py:223-640 | an accepted operation changes the books in one of three ways: not at all, by a projection row, or by one posting of a positive amount under a fresh id |
| FinanceProofs.StepKeeps | backend/app/modules/finance/service.py:223-640 | every operation, accepted or refused, keeps the books and the coverage of orders and payments |
| FinanceProofs.DeliverSources | backend/app/modules/finance/ports.py:23-27 | delivering an order and charging it are one step: no delivered order with a total is left uncharged |
| FinanceProofs.OrderChargeSources | backend/app/modules/finance/service.py:223-264 | charging a delivered order, for the first time or again, leaves every delivered order with a total covered by a charge of its own partnership |
| FinanceProofs.ConfirmSources | backend/app/modules/finance/service.py:342-391 | a confirmed payment has its credit and its ledger entry in the same step |
| FinanceProofs.PartnerSources | backend/app/modules/finance/ports.py:30-31 | an activated partnership has its projection from that step on |
| FinanceOutcomes.LocalDateIs | backend/app/modules/finance/domain.py:41-44 | the local day of an instant is the one that holds it, five hours ahead of UTC |
| FinanceOutcomes.ChargeOutcome | backend/app/modules/finance/service.py:223-264 | exactly when an order is charged, and then once: kind, source, partnership, amount, creation and due day of the new charge, and its entry |
| FinanceOutcomes.DeliverOutcome | backend/app/modules/orders/service.py:495-545 | an order is delivered once, at the given time, and its charge decides whether it is at all |
| FinanceOutcomes.OrderOutcome | backend/app/modules/orders/service.py:36-51 | an order is replaced exactly before its delivery; afterwards it can only be disputed, then completed |
| FinanceOutcomes.ConfirmOutcome | backend/app/modules/finance/service.py:342-391 | exactly when a payment is confirmed and why not; the row it leaves, its credit and its entry, field by field |
| FinanceOutcomes.RecordOutcome | backend/app/modules/finance/service.py:277-340 | exactly when a payment is recorded; it is pending at version 1, or confirmed at version 2 with its credit and entry |
| FinanceOutcomes.FinishOutcome | backend/app/modules/finance/service.py:402-442 | exactly when a pending payment is ended without a posting, with which status, and why not |
| FinanceOutcomes.EndOutcome | backend/app/modules/finance/service.py:393-400 | rejecting takes a reason and leaves a payment rejected; cancelling takes its recorder and leaves it cancelled |
| FinanceOutcomes.ApproveOutcome | backend/app/modules/finance/service.py:504-568 | exactly when an adjustment is approved and why not; a credit gives a credit, a debit or refund a charge due on the local day of the approval |
| FinanceOutcomes.CreateOutcome | backend/app/modules/finance/service.py:444-487 | exactly when an adjustment is created; it waits at version 1, or is approved by its own creator at version 2 and posted |
| FinanceOutcomes.RejectOutcome | backend/app/modules/finance/service.py:570-590 | exactly when an adjustment is rejected, and the row it leaves |
| FinanceOutcomes.NoteOutcome | backend/app/modules/finance/service.py:592-640 | exactly when a credit note is accepted; a source is credited once and a different amount or store is a mismatch |
| FinanceOutcomes.PartnerOutcome | backend/app/modules/partnerships/service.py:253-332 | exactly the status changes of a partnership that are accepted, and which of them lock the projection |
| FinanceTheorems.RunConserves | backend/app/modules/finance/service.py:106-175 | after any run projection = signed ledger total = outstanding − unapplied, each entry carries its prefix sum, each item's allocated amount is the sum of its rows |
| FinanceTheorems.RunIsQuiescent | backend/app/modules/finance/service.py:143-175 | after any run outstanding = max(balance, 0) and unapplied = max(−balance, 0) |
| FinanceTheorems.OrderDoesNotMatter | backend/app/modules/finance/service.py:106-175 | two runs with the same multiset of postings of a partnership end with the same totals |
| FinanceTheorems.AllocationHistory | backend/app/modules/finance/service.py:162-174 | over a whole run no charge and credit are joined twice, and rows number at most charges + credits − 1 |
| FinanceTheorems.RunExtends | backend/app/modules/finance/service.py:106-141 | the ledger is append-only and no financial row is ever removed or re-addressed |
| FinanceRecords.ChargesFallDue | backend/app/modules/finance/service.py:223-264 | after any run every order charge falls due its order's credit days after the local day of the delivery, every other charge on the local day it was created |
| FinanceRecords.ChargeStatusIsExact | backend/app/modules/finance/domain.py:132-139 | after any run a charge is open, partially paid or paid exactly as its allocation says, and exactly the paid ones carry a time |
| FinanceRecords.RunIsInTurn | backend/app/modules/finance/service.py:143-175 | in any step of any run a new allocation row means that every older item on either side of it is now exhausted |
| FinanceRecords.DocumentsAreFinal | backend/app/modules/finance/service.py:342-640 | however a run goes on, ended payments and adjustments and all notes stay as they are, waiting ones end at most once and keep amount, store and author, and delivered orders keep their terms |
| FinanceTheorems.RefundIsPaidAtOnce | backend/app/modules/finance/service.py:504-568 | an approved refund's charge is paid in the same step, nothing stays outstanding and the store never comes to owe money |
| FinanceTheorems.PreviewPredictsWriter | backend/app/modules/finance/service.py:682-707 | confirming the previewed amount next writes for its credit exactly the previewed charges and amounts, in order, at whatever time and under whatever id |
| FinanceTheorems.PreviewTotal | backend/app/modules/finance/service.py:796-816 | the preview allocates min(amount, outstanding), so the rest would stay unapplied |
| FinanceDocuments.PostedExactlyOnce | backend/app/modules/finance/models.py:44-91 | after any run each delivered order, confirmed payment, approved adjustment and credit note has exactly one ledger entry and one charge or credit under its key, for its amount and partnership, and no row stands for anything else; the unique keys never trip |
| FinanceDocuments.BalanceIsTheDocuments | backend/app/modules/finance/service.py:223-640 | after any run the balance is delivered order totals + approved debits and refunds − confirmed payments − approved credits − credit notes |
| FinanceDocuments.StepBooks | backend/app/modules/finance/service.py:223-640 | an accepted operation books exactly what its documents change: one document more and its posting, or neither |
| FinanceDocuments.BookedKeeps | backend/app/modules/finance/service.py:106-141 | a step that books what its documents change keeps tables, keys and totals in agreement |
| FinanceService.Service.LockRow | backend/app/modules/finance/service.py:91-104 | locking creates a missing projection and changes nothing else |
| FinanceService.Service.PostEntry | backend/app/modules/finance/service.py:106-141 | the entry and the projection move together |
| FinanceService.Service.AllocateOpen | backend/app/modules/finance/service.py:143-175 | reading, planning and writing row by row is the planned allocation of the open items |
| FinanceService.Service.WriteLine | backend/app/modules/finance/service.py:164-174 | one line adds its row and updates both items and the charge's status |
| FinanceService.Service.DoCreateOrderCharge | backend/app/modules/finance/service.py:223-264 | in-place charging of a delivered order is its function, errors included |
| FinanceService.Service.DoDeliverOrder | backend/app/modules/finance/ports.py:23-27 | in place, an order is marked delivered and charged in one savepoint; when the charge is refused the order stays undelivered |
| FinanceService.Service.DoRecordPayment | backend/app/modules/finance/service.py:277-340 | recording, with confirmation in the same savepoint when asked, is its function; a failed confirmation undoes the recording |
| FinanceService.Service.DoConfirmPayment | backend/app/modules/finance/service.py:342-391 | confirming in place is its function, errors included |
| FinanceService.Service.DoFinishPayment | backend/app/modules/finance/service.py:393-442 | rejecting or cancelling in place is its function, errors included |
| FinanceService.Service.DoCreateAdjustment | backend/app/modules/finance/service.py:444-487 | creating an adjustment, approved at once for an owner, is its function; a failed approval undoes the creation |
| FinanceService.Service.DoApproveAdjustment | backend/app/modules/finance/service.py:504-568 | approving in place is its function, errors included |
| FinanceService.Service.DoRejectAdjustment | backend/app/modules/finance/service.py:570-590 | rejecting in place is its function, errors included |
| FinanceService.Service.DoCreateCreditNote | backend/app/modules/finance/service.py:592-640 | a credit note is posted once a source; repeating it changes no row and a different amount is refused |
| Posting.InputsAreValid | backend/app/modules/finance/service.py:143-161 | the rows the allocator reads always pass the planner's validation |
| Reconcile.CheckPartner | backend/app/modules/finance/jobs.py:88-188 | for one partnership an issue is added exactly for each failing comparison, and once when no query repeats an id |
| Reconcile.ReconcileAll | backend/app/modules/finance/jobs.py:80-189 | the issues are exactly the failing comparisons of all partnerships, each once when no query repeats an id, and the count is their number; it is zero if and only if there are none |
| Reconcile.ReachableIsClean | backend/app/modules/finance/jobs.py:80-189 | no state the writer, the activation and the delivery wiring can reach has a mismatch |
| Reconcile.CleanMeans | backend/app/modules/finance/jobs.py:117-188 | for any tables, no mismatch means sums and source coverage hold, and the balances agree when they were compared |
| Reconcile.CleanExactly | backend/app/modules/finance/jobs.py:107-188 | a partnership shows no mismatch if and only if its sums and coverage are in order and, when it is compared, its projection exists and equals its ledger and its open items |
| Reconcile.UnpostedChargeIsFound | backend/app/modules/finance/jobs.py:126-143 | an unposted charge added to clean, agreeing tables is reported if and only if the partnership's balance is compared |
| Reconcile.BlindSpot | backend/app/modules/finance/jobs.py:126-129 | the uncompared case exists: tables that disagree and report nothing |
| Reconcile.AmountsAreNotCompared | backend/app/modules/finance/jobs.py:145-188 | giving a delivered order another total behind its posting changes no check's answer, while the sum of the documents moves by the difference |
| Reconcile.CleanIsNotDocumented | backend/app/modules/finance/jobs.py:145-188 | tables that are compared and report nothing although the balance is not what the documents add up to |
| Balances.Aging | backend/app/modules/finance/domain.py:155-166 | the aging loop gives each bucket the sum of exactly its charges |
| Balances.Balance | backend/app/modules/finance/service.py:642-667 | the open rows alone give the balance sheet that all rows give |
| Balances.BucketsPartition | backend/app/modules/finance/domain.py:142-166 | the five buckets add up to the outstanding amount |
| Balances.BucketDays | backend/app/modules/finance/domain.py:142-152 | the bucket of a charge by days past due, boundaries included |
| Balances.SummaryMeans | backend/app/modules/finance/service.py:642-667 | overdue is what is left of the charges due before today; available and balance add up to the limit |
| Balances.ColumnsAreBuckets | backend/app/modules/finance/service.py:709-776 | the five date predicates of the grouped query are exactly the five buckets |
| Balances.GroupedViewAgrees | backend/app/modules/finance/service.py:709-776 | every row of the grouped, outer-joined query is the balance sheet of its partnership |
| Idempotency.Records.InsertOrTakeOver | backend/app/core/idempotency.py:115-137 | the upsert writes exactly when the key is free or expired, and then under a fresh id |
| Idempotency.Records.MarkCompleted | backend/app/core/idempotency.py:160-171 | it succeeds exactly when the id still names an open claim, and completes that record only |
| Idempotency.Records.Discard | backend/app/core/idempotency.py:174-182 | release removes an open claim and never a completed record |
| Idempotency.Records.PurgeExpired | backend/app/core/idempotency.py:185-189 | it removes exactly the records past their expiry and reports how many |
| Idempotency.Records.Claim | backend/app/core/idempotency.py:107-157 | a claim is won exactly with a fresh record; otherwise the record read last decides by its columns: another body is a reused key, the same body is told of an open claim or given the stored result |
| Idempotency.ReleaseFreesTheKey | backend/app/core/idempotency.py:174-182 | a release deletes exactly the open claim of its id, after which the key can be claimed at once |
| Idempotency.CompletionIsRecorded | backend/app/core/idempotency.py:160-171 | a completion writes the result into the open claim of its id and touches nothing else |
| Idempotency.PurgeIsInvisible | backend/app/core/idempotency.py:185-189 | a purge deletes exactly the records that have run out and changes no later claim |
| IdempotencyRuns.NextKeeps | backend/app/core/idempotency.py:107-269 | every step of every request, purge and clock keeps the protocol's invariant |
| IdempotencyRuns.AtMostOnce | backend/app/core/idempotency.py:107-189 | in every interleaving an id commits at most once, and a later effect under one key comes from a claim taken after the earlier record's expiry |
| IdempotencyRuns.LostOwnerNeverCommits | backend/app/core/idempotency.py:160-171 | an owner whose record was taken over, purged or released commits in no continuation |
| IdempotencyRuns.OneLiveOwner | backend/app/core/idempotency.py:107-137 | at most one request at a time can still commit under a key |
| IdempotencyRuns.ReplaysAreFaithful | backend/app/core/idempotency.py:138-157 | every replay returns the response stored by a committed execution of the same key and body |
| IdempotencyRuns.RetriesAreAnswered | backend/app/core/idempotency.py:107-157 | before the expiry a retry is answered with the stored response, or refused for another body, and never executes; a claim is granted again exactly from the expiry on |
| IdempotencyRuns.RequestsAreAnswered | backend/app/core/idempotency.py:107-156 | in every reachable state: a claim is granted exactly when the key is free or its record has run out; a read answers in progress, reused or replayed exactly by body and status of the record |
| IdempotencyRuns.OwnersCommit | backend/app/core/idempotency.py:160-171 | an owner whose claim is still open commits its effect and result, one whose claim is gone commits nothing |
| IdempotencyRuns.FailuresFreeTheKey | backend/app/core/idempotency.py:227-238 | once a failed attempt has given its claim back the next request under the key executes |
| IdempotencyRuns.LifeTimeRunsFromTheClaim | backend/app/core/idempotency.py:115-128 | a run in which one body executes twice at one instant, because the first execution outlasted its record |
| DeliveryProofs.StepKeeps | backend/app/modules/delivery/service.py:192-618 | every transaction on deliveries, codes and runs keeps all row, run, order and ticket invariants |
| DeliveryProofs.SetStopsKeeps | backend/app/modules/delivery/service.py:544-575 | rewriting a draft run's stop list keeps them |
| DeliveryProofs.StartKeeps | backend/app/modules/delivery/service.py:577-592 | starting a run keeps them: every assigned stop leaves with a fresh code |
| DeliveryProofs.PlanKeeps | backend/app/modules/delivery/service.py:193-228 | planning the next attempt keeps them |
| DeliveryProofs.RunStopsAre | backend/app/modules/delivery/service.py:481-486 | the stop query returns every stop of the run and nothing else |
| DeliveryTheorems.RunsAreConsistent | backend/app/modules/delivery/service.py:253-263 | in every reachable state a planned delivery has no courier and no run, stops carry the run's courier and distinct numbers, a started run has none waiting, a finished run only ended ones, a cancelled run none |
| DeliveryTheorems.StopListAccepted | backend/app/modules/delivery/service.py:544-573 | a list is accepted if and only if it repeats nothing and each delivery is planned, or assigned to the run's courier, and on no other run |
| DeliveryTheorems.StopListExact | backend/app/modules/delivery/service.py:544-575 | the run then holds exactly the list, in order, at 1..n; its stop query gives the list back; deliveries off the list and off the run are untouched |
| DeliveryActions.ListOutcome | backend/app/modules/delivery/service.py:544-575 | for any depot: exactly which lists are accepted, and every row they leave: placed, taken off or untouched, field by field |
| DeliveryActions.CreateOutcome | backend/app/modules/delivery/service.py:492-519 | exactly when a run is created, with its courier and whole list |
| DeliveryActions.UpdateOutcome | backend/app/modules/delivery/service.py:521-542 | exactly when a draft run takes a new list, and why not |
| DeliveryActions.StartOutcome | backend/app/modules/delivery/service.py:577-592 | exactly when a run starts; every waiting stop leaves with its code and no other row changes |
| DeliveryActions.FinishOutcome | backend/app/modules/delivery/service.py:594-604 | a run finishes if and only if its driver asks, it has started and no stop is open; only the run changes |
| DeliveryActions.CancelRunOutcome | backend/app/modules/delivery/service.py:606-618 | a run is dropped if and only if it is a draft; each of its stops goes back to the pool |
| DeliveryTheorems.HistoryIsAPath | backend/app/modules/delivery/service.py:36-53 | every history is a connected path along the transition table from PLANNED to the current status; the version is its length plus the regenerations |
| DeliveryTheorems.AttemptsAreNumbered | backend/app/modules/delivery/service.py:193-212 | an order's attempts are numbered 1..n, each once, and only the n-th may be open |
| DeliveryTheorems.EndedIsFinal | backend/app/modules/delivery/service.py:97-135 | a delivered, failed or cancelled delivery keeps its status and history in every continuation |
| DeliveryActions.MayActMeans | backend/app/modules/delivery/service.py:182-189 | who may act on a delivery: whoever acts for anyone, or its own courier; and which refusal the others get |
| DeliveryActions.PlanOutcome | backend/app/modules/delivery/service.py:193-228 | without an open attempt a planned row with the next number and nothing else on it is added; otherwise nothing changes |
| DeliveryActions.AssignOutcome | backend/app/modules/delivery/service.py:242-251 | exactly when a delivery is assigned and why not; the row then names that courier |
| DeliveryActions.UnassignOutcome | backend/app/modules/delivery/service.py:253-263 | exactly when an assignment is taken back, and the row it leaves |
| DeliveryActions.CancelOutcome | backend/app/modules/delivery/service.py:265-273 | exactly when a delivery is cancelled, and the row it leaves |
| DeliveryActions.CancelForOrderOutcome | backend/app/modules/delivery/service.py:230-240 | an order's live delivery is cancelled if and only if it is not on the road |
| DeliveryActions.NothingToCancel | backend/app/modules/delivery/service.py:230-240 | an order whose attempts have all ended is left alone, and that is no error |
| DeliveryActions.DispatchOutcome | backend/app/modules/delivery/service.py:275-287 | exactly when goods leave, with a fresh code and counter |
| DeliveryActions.ArriveOutcome | backend/app/modules/delivery/service.py:289-294 | exactly when an arrival is accepted; the row is then arrived and otherwise as it was |
| DeliveryActions.FailOutcome | backend/app/modules/delivery/service.py:410-424 | exactly when a failure is accepted and why not; the row is then failed, with courier, run, code and confirmation as they were |
| DeliveryActions.SpendOutcome | backend/app/modules/delivery/service.py:311-367 | exactly when a code is taken, counted or refused as locked |
| DeliveryActions.ConfirmOutcome | backend/app/modules/delivery/service.py:296-309 | exactly when the second transaction delivers and why not; the row is then delivered by code |
| DeliveryActions.ManualOutcome | backend/app/modules/delivery/service.py:369-408 | exactly when an override is accepted; the row is then delivered by override |
| DeliveryActions.RegenerateOutcome | backend/app/modules/delivery/service.py:426-434 | exactly when a code is changed; status and history stay |
| DeliveryActions.EndedBySomeone | backend/app/modules/delivery/service.py:97-135 | in any run a delivered row was delivered by an accepted confirmation of that row, a failed one by an accepted report, a cancelled one by a cancellation of it or its order |
| DeliveryTheorems.AttemptsAreCounted | backend/app/modules/delivery/service.py:311-367 | in every interleaving the counter equals the wrong codes tried since the last minting, never exceeds five, and the lock holds exactly at five |
| DeliveryTheorems.SpentIsCounted | backend/app/modules/delivery/service.py:311-367 | the first transaction reports a wrong code exactly when it has counted one |
| DeliveryTheorems.ConfirmNeedsTheCodeInForce | backend/app/modules/delivery/service.py:296-309 | a confirmation by code completes if and only if the delivery is on the road, unlocked, and the code is the one in force; it then keeps the code log as it was |
| DeliveryTheorems.StaleExactlyWhenRecoded | backend/app/modules/delivery/service.py:426-434 | a ticket's code is no longer in force if and only if a code was minted since and the last such minting is a different one |
| DeliveryTheorems.LateRefusalIsNotCounted | backend/app/modules/delivery/service.py:296-309 | in every reachable state the second transaction calls a code wrong if and only if the delivery was re-coded since the first, and may still be confirmed; the refusal changes nothing, the counter included |
| DeliveryTheorems.LateRefusalHappens | backend/app/modules/delivery/service.py:296-309 | from every state in which a code can be confirmed, changing it between the two transactions gives such a refusal |
| DeliveryService.Service.PlanForOrder | backend/app/modules/delivery/service.py:193-228 | the two queries plan the next attempt, or nothing while one is open |
| DeliveryService.Service.Assign | backend/app/modules/delivery/service.py:242-251 | in place, with its errors in order, keeping every row, run and ticket invariant |
| DeliveryService.Service.Unassign | backend/app/modules/delivery/service.py:253-263 | in place; a stop of a run that has left draft stays |
| DeliveryService.Service.Cancel | backend/app/modules/delivery/service.py:265-273 | in place, off the run in the same step, keeping every row, run and ticket invariant |
| DeliveryService.Service.CancelForOrder | backend/app/modules/delivery/service.py:230-240 | the order's live delivery is cancelled, nothing is done without one, and one on the road is refused |
| DeliveryService.Service.Arrive | backend/app/modules/delivery/service.py:289-294 | in place, with its errors in order, keeping every row, run and ticket invariant |
| DeliveryService.Service.ManualConfirm | backend/app/modules/delivery/service.py:369-408 | an override needs a reason and a delivery on the road, and is recorded as one |
| DeliveryService.Service.Fail | backend/app/modules/delivery/service.py:410-424 | in place, with its errors in order, keeping every row, run and ticket invariant |
| DeliveryService.Service.Dispatch | backend/app/modules/delivery/service.py:275-287 | in place: a code is minted and the counters are reset as the goods leave |
| DeliveryService.Service.SpendAttempt | backend/app/modules/delivery/service.py:311-367 | the count is kept together with the refusal it reports |
| DeliveryService.Service.Confirm | backend/app/modules/delivery/service.py:296-309 | the second transaction, in place, with its errors in order, keeping every row, run and ticket invariant |
| DeliveryService.Service.RegenerateCode | backend/app/modules/delivery/service.py:426-434 | a new code clears the count and the lock and moves the version |
| DeliveryService.Service.DropStops | backend/app/modules/delivery/service.py:550-555 | the first loop returns exactly the stops left out to the pool |
| DeliveryService.Service.PlaceStops | backend/app/modules/delivery/service.py:561-575 | the last loop places every delivery, or stops at the first that cannot be placed and reports its error |
| DeliveryService.DistinctByCount | backend/app/modules/delivery/service.py:548-549 | comparing the size of the set with the length of the list finds exactly the lists that repeat a delivery |
| DeliveryService.Service.SetStops | backend/app/modules/delivery/service.py:544-575 | the three loops rewrite the list as specified; any error leaves every row as it was |
| DeliveryService.Service.CreateRun | backend/app/modules/delivery/service.py:492-519 | a run is opened with its whole list, or not at all |
| DeliveryService.Service.UpdateRun | backend/app/modules/delivery/service.py:521-542 | only a draft run of the expected version is rewritten |
| DeliveryService.Service.StartRun | backend/app/modules/delivery/service.py:577-592 | every assigned stop is dispatched and the run starts, or nothing changes |
| DeliveryService.Service.StopOpen | backend/app/modules/delivery/service.py:594-604 | the loop over the run's stops finds one exactly when some delivery of the run is open |
| DeliveryService.Service.FinishRun | backend/app/modules/delivery/service.py:594-604 | a started run finishes exactly when no stop is open |
| DeliveryService.Service.CancelRun | backend/app/modules/delivery/service.py:606-618 | a draft run lets go of every stop |
| Sync.Service.Step | backend/app/modules/delivery/sync.py:112-170 | one operation in place: answered from the log, or performed and logged whatever its outcome |
| Sync.Service.Replay | backend/app/modules/delivery/sync.py:105-110 | the loop over the sorted batch is the fold of single operations, up to the first that breaks |
| Sync.UnseenIsAnswered | backend/app/modules/delivery/sync.py:134-170 | an unseen operation is answered and logged by what performing it came to: applied with its payment, in conflict with the current state, or rejected with its error |
| Sync.ClientOrder | backend/app/modules/delivery/sync.py:105-110 | a batch is carried out by client time, operations of one time in the order sent, and answered one by one |
| Sync.ReplayAppliesOnlyTheUnseen | backend/app/modules/delivery/sync.py:105-133 | a batch leaves exactly the state that its unseen operations alone leave: dropping what was logged commutes with the stable sort |
| Sync.AnsweredBatchIsReplayed | backend/app/modules/delivery/sync.py:105-133 | an answered batch sent again, whole or in part, in any order, by anyone, changes nothing |
| Sync.FirstAnswerIsRepeated | backend/app/modules/delivery/sync.py:112-133 | whatever comes under a logged id changes nothing: the same courier, still seeing the delivery, is answered the error, payment and state of the first execution, and anyone else is answered not found |
| Sync.ActsOnceWhileLogged | backend/app/modules/delivery/sync.py:112-170 | over any history of queues, crashes and purges two executions of one id that reached the log are more than thirty days apart |
| Sync.PurgedActsAgain | backend/app/celery_app.py:228-247 | after a purge an operation acts again if and only if its row was older than thirty days |
| SyncDeliveries.PerformIsSteps | backend/app/modules/delivery/sync.py:50-86 | a synchronised operation is a sequence of the transactions live requests make |
| SyncDeliveries.PerformOutcome | backend/app/modules/delivery/sync.py:50-86 | for each kind exactly when an operation is carried out, and the one row or payment it then changes |
| SyncDeliveries.QueueUndoesNothing | backend/app/modules/delivery/sync.py:105-170 | no operation of a queue, applied, refused or broken, shortens a history, loses a payment or breaks an invariant |
| SyncDeliveries.RefusedOnlyCounts | backend/app/modules/delivery/sync.py:134-141 | a refused operation leaves at most one counted wrong code on its own delivery |
| SyncDeliveries.BrokenOnlyCounts | backend/app/modules/delivery/service.py:311-367 | so does a request that breaks before its log row, wherever it breaks |
| SyncDeliveries.CountsUnlessLogged | backend/app/modules/delivery/sync.py:112-163 | sending an operation counts a wrong code if and only if its id is not in the log and the code is wrong for a delivery that counts, reached by the request; whether it is then logged does not matter |
| SyncDeliveries.BrokenCountsAgain | backend/app/modules/delivery/sync.py:112-163 | an operation broken once after its count and sent again counts twice, while the log shows one execution |
| Prices.Timeline.Set | backend/app/modules/catalog/service.py:277-315 | an inactive list or unit, a past start or a future current price is refused in that order; otherwise the current price is closed and the new one inserted, and a broken constraint undoes both |
| Prices.Timeline.Cancel | backend/app/modules/catalog/service.py:318-343 | deleting a future price and reopening the previous one is its function |
| Prices.Resolve | backend/app/modules/catalog/service.py:346-379 | the asked list answers first when it is active, the active default list second; a missing list or inactive unit has no price |
| Prices.LookupIsStep | backend/app/modules/catalog/service.py:364-379 | the interval query over the rows is the step function of the last price that has started |
| Prices.SetAccepted | backend/app/modules/catalog/service.py:277-315 | a price is accepted if and only if list and unit are active, it is positive and it starts neither in the past nor at or before a current price that has itself started; the rows stay tiled |
| Prices.SetRefusals | backend/app/modules/catalog/service.py:277-315 | exactly why a price is refused, in the order of the checks |
| Prices.SetChangesOnlyLater | backend/app/modules/catalog/service.py:277-315 | a set price changes lookups from its start on and no other |
| Prices.CancelAccepted | backend/app/modules/catalog/service.py:318-343 | a price is cancelled if and only if it exists and has not started; the rows stay tiled |
| Prices.CancelRefusals | backend/app/modules/catalog/service.py:318-343 | a price is not cancelled because there is none, or because it has started |
| Prices.CancelRestores | backend/app/modules/catalog/service.py:318-343 | cancelling before the start gives back exactly the rows that setting found |
| Prices.CancelChangesOnlyLater | backend/app/modules/catalog/service.py:318-343 | cancelling changes no lookup before the cancelled start, and the earlier price holds from there |
| Prices.ThePastIsFixed | backend/app/modules/catalog/service.py:277-343 | over any history the rows tile [first start, ∞) with at most one future start, and no lookup before the present ever changes |
| Images.Profiles.Swap | backend/app/modules/files/images.py:270-361 | one request in place, for every combination of faults: what is committed, stored and deleted |
| Images.AloneIsSwapped | backend/app/modules/files/images.py:270-361 | the request in place and the request as separate steps end in the same store |
| Images.NextKeeps | backend/app/modules/files/images.py:270-361 | every step of every request, failed or not, keeps pointers, rows, keys and locks consistent |
| Images.PointersAreSafe | backend/app/modules/files/images.py:151-158 | after any run, whatever failed, every pointer names an active file of its holder and each holder has at most one active file |
| Images.ShownUnlessLost | backend/app/modules/files/images.py:353-361 | after any run a holder's file has its object if and only if no clean-up after a commit reported as failed deleted that very object |
| Images.ShownThroughout | backend/app/modules/files/images.py:353-361 | every picture is there throughout a run if and only if no step of it deletes a file on show after a commit that took effect but raised |
| Images.BrokenExactlyByLostCommit | backend/app/modules/files/images.py:353-358 | from a state with every picture there, exactly such a step breaks that |
| Images.LostReplyBreaks | backend/app/modules/files/images.py:353-358 | that failure is reachable |
| Images.SwapRetiresTheDisplaced | backend/app/modules/files/images.py:208-217 | in every run a successful change retires exactly the displaced row, which was active, shows the new file with its object in the same commit and goes on to delete the displaced object |
| Images.NothingIsLeftBehind | backend/app/modules/files/images.py:270-361 | as long as no reply is lost, no deletion fails and no process dies, every object is on show or in the hands of an unfinished request |
| RateLimit.Bucket.Take | backend/app/core/rate_limit.py:70-90 | the script in place: expiry of the key, pruning, count, admission or wait |
| RateLimit.PruningIsInvisible | backend/app/core/rate_limit.py:70-90 | for any non-decreasing times the pruned set admits and refuses as the whole history of admissions would |
| RateLimit.AdmittedExactly | backend/app/core/rate_limit.py:70-90 | a call is admitted if and only if fewer than the limit were admitted in the window that ends with it |
| RateLimit.NoWindowOverflows | backend/app/core/rate_limit.py:70-90 | no interval (t − window, t] holds more than the limit |
| RateLimit.WaitIsEnoughAndNeeded | backend/app/core/rate_limit.py:75-78 | waiting the returned seconds is enough to be admitted, and a second less is not unless the answer was 1 |
| Money.ParseAcceptsThePattern | backend/app/core/money.py:37-59 | a string is accepted if and only if it matches the pattern and is within the maximum |
| Money.ParseRefusals | backend/app/core/money.py:37-59 | a string is invalid if and only if it does not match, and too large if and only if it matches an amount above the maximum |
| Money.AmountIsPositional | backend/app/core/money.py:50-59 | the amount is the number all the digits spell, with the point moved to the right |
| Money.PrintSpellsTheAmount | backend/app/core/money.py:62-76 | what is printed spells the amount, with exactly its places after the point |
| Money.PrintedParsesBack | backend/app/core/money.py:62-76 | every amount in range is printed as a string that parses back to it |
| Money.MoneyAndQuantityRoundTrip | backend/app/core/money.py:22-76 | the round trip for money (two places) and quantities (three) over their whole ranges |
| Money.PrintIsInjective | backend/app/core/money.py:62-76 | different amounts print differently |
| Money.PrintedIsCanonical | backend/app/core/money.py:37-76 | printing an accepted string gives the string itself, padded with zeros to its places |
| Money.CanonicalIsStable | backend/app/core/money.py:37-76 | canonical strings are accepted with the same amount and print unchanged |
| Money.HalfUpIsNearest | backend/app/core/money.py:27-34 | rounding is off by at most half a unit, ties go away from zero, and signs are symmetric |
| Money.QuantizeIsNearest | backend/app/core/money.py:27-34 | quantizing a decimal to its places is off by at most half a unit in the last place, and exact when no place is dropped |
| Money.QuantizeIsMonotone | backend/app/core/money.py:27-34 | quantizing never reverses an order, whatever the two exponents |
| Money.AcceptedIsNotRounded | backend/app/core/money.py:45-56 | a decimal the server passes in is refused or kept exactly; the printer has nothing left to round |

## Left out

- HTTP routers, schemas, permissions, audit rows, the outbox, metrics, notifications and the frontend: plumbing without a deep invariant.
- Permissions, terms, subscription guards, order and stock services appear as accept or refuse answers given to an operation.
- Isolation inside one statement, deadlocks and retries of PostgreSQL, Redis, S3 and Celery: each transaction or script is one step.
- Column overflow (NUMERIC and SMALLINT limits) and amounts finer than a cent; a negative-zero decimal.
- Historical time zone rules: the local day is five hours ahead of UTC.
- Several companies in one delivery or price table: one company's rows are modelled, another's rows count as missing.
- `statement`, `summary`, `reminder_kind` and the credit check of finance: reads that add only easy members; the credit limit is an argument of the balance sheet.
- Partnership transitions keep only what finance sees: which statuses trade, and that activation creates the projection; declined and cancelled invitations are one closed status.
- The text of failure reasons, notes, addresses, events and timestamps of deliveries; the reason length and validity arrive as arguments.
- Code hashing and encryption: a code matches when it equals the one minted last.
- The stored payload of a queue operation, and the advisory lock that serialises retries of one id: an operation is one step.
- The hit that a synchronised confirmation records in Redis, which outlives a refused or broken request: the limiter's answer is an argument.
- The non-atomic `check` and `record` pair of the rate limiter; clocks of different callers that disagree.
- Image decoding, file names and content types: only the life of rows and objects is modelled.
- FinanceService.Service.AllocateOpen: rows are read in table order and sorted by the planner, since the plan does not depend on the order of the rows.
- DeliveryService.Service.StartRun: a stop is dispatched with the code and the answer chosen for it in advance, instead of a random draw.
