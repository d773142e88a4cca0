# Cashback platform: a verified model

This project models the parts of the personalised cashback platform whose
correctness depends on many steps at once, and proves what they promise over
all inputs, all interleavings and all runs:

* **Money path** — the progressive rate scale, the eligibility query and unique
  keys of migration 009, the accrual transaction, the scheduler jobs, the demo
  seeder, and the Kafka listener that feeds them at least once.
* **ETL** — the extract with its offset manifest, the stateful validator, the
  bisecting idempotent ClickHouse loader, and the daily pipeline of separate
  tasks that may die and be retried anywhere.
* **Sessions** — one-time refresh tokens with family revocation on the server as
  interleaved atomic steps, the browser tabs that share one token, and both
  composed.
* **Event streams** — the broker with bounded queues and the aggregating bridge.
* **Kernels** — RFM quintiles, weighted variant selection, and the backfills of
  migrations 009 and 010 that must establish the unique indexes created after
  them.

Money is integer kopecks, time integer microseconds (money path) or seconds
(ETL), purchase amounts and weights are exact reals.

## How it is organised

A protocol is a state machine (`State`, `Action`, `Enabled`, `Do`) with an
invariant and theorems over executions. Code that works step by step is a class
or a method with loops, proved against functions, and where it is part of a
protocol every state it passes through is shown to be reached by steps of the
machine (the `reached` parameter is any set of states that no step leaves), so
the theorems of all interleavings hold of the code.  In the listener, the
session handlers and the browser tab everybody else may take steps at every await
(`Await`); a task of the DAG is a path taken without steps of others inside it.

| part | functions and protocols | laws | code |
|---|---|---|---|
| rate scale | `RateScale` | `RateScaleLaws` | `RateScale` |
| ledger | `Ledger` | `LedgerLaws`, `AccrualOutcomes`, `AccrualTransactions` | `AccrualEngine` |
| listener | `ListenerProtocol`, `ListenerBatch`, `ListenerWorld` | `ListenerLaws`, `ListenerOutcomes`, `ListenerRuns`, `ListenerMovesBack`, `ListenerAccruals` | `Listener`, `HandleMessage`, `FailureKind` |
| ETL | `Extract`, `Validator`, `Loader`, `Pipeline` | `ValidatorRules`, `PipelineLaws` | `Extract`, `Validator`, `ClickHouse`, `Dag` |
| sessions | `SessionServer`, `SessionClient` | `SessionLaws`, `SessionRuns`, `SessionReuse` | `AuthApi`, `BrowserTab` |
| streams | `Broker` | `Broker` | `Broker`, `Bridge` |
| kernels | `Quintiles`, `Variants`, `OfferBackfill`, `AbBackfill` | the same | `Quintiles`, `Variants` |

## What the code does not promise

Where a natural property is false of the code, the code is kept, a concrete
counterexample is a lemma, and the exact condition is proved.

* **Daily limit.** The limit is checked from the start of the day of
  `LEAST(p_at, now())`, but the row is booked with a clock read before the
  transaction. The limit of a day holds if and only if that day starts no later
  than the booking (`DailyCapIffBookedInWindow`); every run in which this is so
  keeps every daily limit (`RunKeepsDailyCap`). The seeder, which books at the
  purchase time, always keeps it.
* **Splitting a purchase.** The scale is superadditive if and only if its last
  tier is open or all rates are zero (`SuperadditiveIffUncapped`); after rounding
  two parts can gain one kopeck (`SplittingCanGainOneKopeck`), never more.
* **Cashback up to the amount.** For every amount: no proper scale pays more than
  the purchase if and only if the amount's fraction of a kopeck is below one half
  (`NeverPaysMoreIffFractionBelowHalf`); half a kopeck rounds up
  (`FractionOfKopeckRoundsUp`).
* **Committed offsets of the listener.** A partition given to a process in the
  middle of a batch moves its committed offset back, in some continuation without a
  further unsafe assignment of it, if and only if the batch would commit it lower, or
  would start reading again more than one record below what is or will be committed
  (`ReturnCanMoveBackIff`; `Forward` is the condition on the batch). Runs that give a
  partition only to processes with which it is safe never move it back, whatever
  happens to other partitions (`CommittedNeverMovesBack`). Where it moves back the
  records are replayed as duplicates.
* **Duplicates in a staged batch.** A record rejected only for its currency still
  marks its id, so a later correct record is rejected as a duplicate
  (`WrongCurrencyShadowsCorrection`). The id of an otherwise valid record is accepted
  if and only if the first record that marks it has a valid currency
  (`IdAcceptedIffFirstMarkerInCurrency`).
* **Loading a copy twice.** A copy with the same date is never stored twice; one
  with a distant date can be (`RedatedCopyIsLoadedAgain`). A load adds no stored id
  if and only if each acceptable row whose id is stored has a stored row of that id
  on a day of the file's window (`LoadAddsNoStoredIdIff`).
* **Session reuse.** A token is spent only after a loss, in every execution of tabs
  that refresh (`SpentOnlyAfterLoss`). After a lost answer, in every continuation, it
  is spent if and only if the abandoned request was behind GETDEL at the loss or its
  GETDEL has taken effect since (`SpentAfterLossIff`); the next refresh is seen as
  reuse if and only if that came before its own GETDEL, and the abandoned request if
  and only if the refresh was first (`RefreshAfterLoss`). A failing step spends the
  token if and only if it is behind GETDEL or is a GETDEL that took effect, and
  exactly then the next refresh is reuse (`FailureSpendsIffBehindGetdel`,
  `RefreshAfterFailure`).

The comment on `eligible_campaigns` (migration 009, lines 185-189) and ADR 0014
say that the window sees today's bookings; the first point above is what the code
does when the two clocks disagree about the day.

## Model

| member | source | states |
|---|---|---|
| RateScale.WalkTiers | db_migrations/migrations/versions/009_money_integrity.py:158-174 | the sorted loop with its early exit returns the sum over all tiers of what each earns |
| RateScale.CalculateCashback | db_migrations/migrations/versions/009_money_integrity.py:117-178 | the whole function equals the order-independent sum with category, minimum, flat rate and rounding |
| RateScale.TierSumIgnoresOrder | db_migrations/migrations/versions/009_money_integrity.py:158-164 | the sum over tiers is the same for every permutation of the JSON array |
| RateScale.NothingAboveAmount | db_migrations/migrations/versions/009_money_integrity.py:166-168 | tiers that start at or above the amount earn nothing, so leaving the loop is right |
| RateScaleLaws.CashbackMonotone | db_migrations/migrations/versions/009_money_integrity.py:149-176 | with non-negative rates a larger purchase never earns less, cut-off and rounding included |
| RateScaleLaws.CashbackBelowMinimum | db_migrations/migrations/versions/009_money_integrity.py:131-151 | a category outside the campaign earns nothing; the category's own minimum counts, and the campaign's only when the category has none |
| RateScaleLaws.ScaleIsMarginal | db_migrations/migrations/versions/009_money_integrity.py:158-174 | on a scale without gaps each rouble earns the rate of the tier it lies in |
| RateScaleLaws.RoundsHalvesAway | db_migrations/migrations/versions/009_money_integrity.py:176 | the result is the nearest kopeck, halves away from zero |
| RateScaleLaws.BeforeRoundingWithinAmount | db_migrations/migrations/versions/009_money_integrity.py:153-176 | on a proper scale with rates up to 100 the unrounded cashback lies between 0 and the amount |
| RateScaleLaws.CashbackWithinAmount | db_migrations/migrations/versions/009_money_integrity.py:153-176 | for an amount in kopecks the rounded cashback lies between 0 and the amount |
| RateScaleLaws.NeverPaysMoreIffFractionBelowHalf | db_migrations/migrations/versions/009_money_integrity.py:149-176 | for every amount, no proper scale pays more than the purchase if and only if the fraction of a kopeck is below one half |
| RateScaleLaws.FractionOfKopeckRoundsUp | db_migrations/migrations/versions/009_money_integrity.py:176 | an amount of half a kopeck is paid back with a whole one |
| RateScaleLaws.EqualRatesEqualFlat | db_migrations/migrations/versions/009_money_integrity.py:153-174 | contiguous tiers that share one rate pay the flat rate |
| RateScaleLaws.SplittingNeverPays | db_migrations/migrations/versions/009_money_integrity.py:149-176 | a progressive open scale is superadditive before rounding and within one kopeck after it |
| RateScaleLaws.SplittingCanGainOneKopeck | db_migrations/migrations/versions/009_money_integrity.py:176 | the one kopeck is reached |
| RateScaleLaws.SuperadditiveIffUncapped | db_migrations/migrations/versions/009_money_integrity.py:158-174 | superadditive if and only if the last tier is open or no tier pays |
| LedgerLaws.AccruedMeans | services/transaction_listener/app/accrual/engine.py:199-344 | an accrual that is booked passed every check, conflicts with no row, and adds exactly its row and its amount |
| LedgerLaws.NotAccruedMeansUnchanged | services/transaction_listener/app/accrual/engine.py:224-327 | every other outcome leaves all tables as they were |
| AccrualOutcomes.AccruedIff | services/transaction_listener/app/accrual/engine.py:199-344 | a purchase is paid k kopecks if and only if the offer, its acceptance, the keys, the campaign, the segment, both RFM bounds, the newest consent, budget and daily limit allow it and k is its cashback, each spelled out |
| AccrualOutcomes.AccruedWrites | services/transaction_listener/app/accrual/engine.py:308-344 | a payout writes exactly one PENDING row of the purchase and adds exactly its amount to its campaign |
| AccrualOutcomes.RefusedMeans | services/transaction_listener/app/accrual/engine.py:199-344 | every other outcome names its own cause |
| AccrualOutcomes.CausesExcludeEachOther | services/transaction_listener/app/accrual/engine.py:199-344 | no two causes hold at once, so each outcome is exact |
| AccrualOutcomes.EligibleIff | db_migrations/migrations/versions/009_money_integrity.py:227-266 | the WHERE clause, condition by condition; of the consents the newest decides |
| AccrualOutcomes.WindowStartsAtMidnight | db_migrations/migrations/versions/009_money_integrity.py:245-247 | the daily window starts at the UTC midnight of today or of the earlier purchase day |
| AccrualOutcomes.SoundPaysOnce | db_migrations/migrations/versions/009_money_integrity.py:388-392 | no offer and no purchase is paid twice in a sound ledger |
| AccrualOutcomes.SeededIff | scripts/seed_demo_data.py:876-906 | the seeder pays under the engine's conditions, offers aside, with the row spelled out |
| LedgerLaws.ReplayIsDuplicate | services/transaction_listener/app/accrual/engine.py:87-96 | after an accrual any replay of its purchase or offer changes nothing |
| LedgerLaws.DayWithinWindow | db_migrations/migrations/versions/009_money_integrity.py:241-248 | the window without upper bound counts at least every day it starts in or before |
| LedgerLaws.EventKeepsSound | db_migrations/migrations/versions/009_money_integrity.py:385-392 | every writer keeps the unique keys, the budget check and the foreign key |
| LedgerLaws.RunKeepsSound | db_migrations/migrations/versions/009_money_integrity.py:385-392 | so does every run of them: at most one accrual per offer and per purchase, budgets never exceeded |
| LedgerLaws.RunKeepsBooks | services/transaction_listener/app/accrual/engine.py:309-329 | in every run the growth of budget_spent equals the sum of the accruals booked |
| LedgerLaws.RunKeepsDailyCap | db_migrations/migrations/versions/009_money_integrity.py:241-266 | runs whose bookings lie in the checked window keep every daily limit, late and future purchases included |
| LedgerLaws.DailyCapIffBookedInWindow | services/transaction_listener/app/accrual/engine.py:213-302 | the limit of the booking day can be missed if and only if the booking precedes the checked window |
| LedgerLaws.RunFreezesCompleted | db_migrations/migrations/versions/009_money_integrity.py:94-111 | a COMPLETED campaign keeps its status, accruals and sums in every run |
| LedgerLaws.RunKeepsRowsAndPayouts | services/campaign_manager/app/scheduling.py:162-169 | rows are never removed or altered; a payout only goes from PENDING to PAID, once |
| LedgerLaws.RunPaysAfterHold | services/campaign_manager/app/scheduling.py:162-169 | a row paid in a run was accrued more than the shortest hold of the run before its payout, or was booked by the seeder as paid at the end of its hold |
| AccrualTransactions.CommitIsAccrue | services/transaction_listener/app/accrual/engine.py:272-344 | at commit the atomic accrual takes the same branch as the interleaved transaction did |
| AccrualTransactions.AloneIsAccrue | services/transaction_listener/app/accrual/engine.py:215-344 | a transaction that runs alone reaches its answer and commits exactly the atomic accrual |
| AccrualTransactions.InvStep | services/transaction_listener/app/accrual/engine.py:73-108 | the row locks and unique keys keep concurrent transactions apart and their decisions valid |
| AccrualTransactions.StepRefines | services/transaction_listener/app/accrual/engine.py:215-344 | every step of an interleaving is a sequence of sequential writes |
| AccrualTransactions.ExecutionIsSequential | services/transaction_listener/app/accrual/engine.py:215-344 | every interleaving of transactions, aborts and other writers equals a sequential run |
| AccrualTransactions.ConcurrentAccrualsKeepTheLedger | services/transaction_listener/app/accrual/engine.py:98-108 | so concurrent accruals keep keys, budgets and daily limits |
| AccrualEngine.MoneyDatabase.Accrue | services/transaction_listener/app/accrual/engine.py:199-254 | the code of accrue computes the ledger's accrual step and outcome, whose exact conditions are `AccruedIff` and `RefusedMeans` |
| AccrualEngine.MoneyDatabase.AccrueLocked | services/transaction_listener/app/accrual/engine.py:272-344 | steps 2 to 6 under the offer lock, all or nothing, with the outcome of `AccruedIff` and `RefusedMeans` |
| AccrualEngine.MoneyDatabase.SettleAccruals | services/campaign_manager/app/scheduling.py:162-179 | the loop pays exactly the rows that were PENDING past the hold, alters nothing else, and returns how many it changed |
| AccrualEngine.SettledTwicePaysOnce | services/campaign_manager/app/scheduling.py:162-169 | running the settlement again pays nobody twice |
| AccrualEngine.MoneyDatabase.CompleteExpiredCampaigns | services/campaign_manager/app/scheduling.py:72-81 | completes exactly the live campaigns past their end, changes only their status, and returns them |
| AccrualEngine.MoneyDatabase.UpdateStatus | db_migrations/migrations/versions/009_money_integrity.py:94-111 | a draft can only be started, nothing becomes a draft again, the end is final; an accepted update changes the status alone, a refused one nothing |
| AccrualEngine.MoneyDatabase.SeedAccruals | scripts/seed_demo_data.py:874-907 | the seeding loop equals the fold of single seeds; its counters count and sum exactly the new rows and the refusals |
| AccrualEngine.MoneyDatabase.SeedPurchaseRow | scripts/seed_demo_data.py:876-906 | one purchase is refused, conflicts, or adds its row and its amount |
| AccrualEngine.SeedingKeepsTheLedger | scripts/seed_demo_data.py:821-907 | seeding keeps keys, budgets and, unconditionally, the daily limits |
| AccrualEngine.SeedAllIsRun | scripts/seed_demo_data.py:874-907 | seeding is a run of the ledger's writes, so what holds of all runs holds with it |
| ListenerLaws.HandleKeepsInv | services/transaction_listener/app/listener.py:444-461 | handling a record, or failing to, keeps positions and unhandled records consistent |
| ListenerLaws.SeekKeepsInv | services/transaction_listener/app/listener.py:433-438 | a rewind that works or hits a lost partition keeps them consistent |
| ListenerLaws.StepKeepsInv | services/transaction_listener/app/listener.py:420-487 | polling, handling, seeking, committing, crashing and losing partitions keep the protocol invariant |
| ListenerRuns.CommittedRecordsAreSettled | services/transaction_listener/app/listener.py:440-463 | in every execution each record below a committed offset was accrued, skipped or dead-lettered, results are backed by the ledger, and the ledger keeps its keys and budgets |
| ListenerRuns.CommittedNeverMovesBack | services/transaction_listener/app/listener.py:420-461 | the committed offset of a partition never moves back in a run that gives this partition only to processes whose batch cannot move it back |
| ListenerMovesBack.CanFallIff | services/transaction_listener/app/listener.py:420-461 | in every state, some continuation moves the committed offset back if and only if the owner's batch and position are not forward |
| ListenerMovesBack.ReturnCanMoveBackIff | services/transaction_listener/app/listener.py:420-461 | so giving a partition to a process opens the way back if and only if its batch would commit it, or read it again, too far below |
| ListenerRuns.CommittedCanMoveBack | services/transaction_listener/app/listener.py:420-431 | a run from the start in which it does |
| ListenerRuns.ExecutionWrites | services/transaction_listener/app/listener.py:347-356 | the tables of an execution are the run of its writes, replays and half-failed calls included |
| ListenerAccruals.JointStepRefines | services/transaction_listener/app/listener.py:347-356 | with accruals as interleaved transactions, calls that raise, late commits and crashes, every step is some steps of the protocol with atomic accruals |
| ListenerAccruals.InterleavedAccrualsRefine | services/transaction_listener/app/listener.py:347-356 | whatever such listeners reach, tables included, the protocol reaches |
| ListenerAccruals.InterleavedRecordsAreSettled | services/transaction_listener/app/listener.py:440-463 | so their committed records are settled, their results true, and keys and budgets hold |
| ListenerBatch.FinishedIffAllHandled | services/transaction_listener/app/listener.py:440-463 | a batch reports success exactly when every record was handled |
| ListenerBatch.BatchMakesProgress | services/transaction_listener/app/listener.py:440-463 | no batch adds to the records at or past the positions, and a finished one removes some |
| ListenerOutcomes.BatchLeaves | services/transaction_listener/app/listener.py:440-463 | after a batch every partition is at its first record not handled and committed to one past the last record handled; those after the failure are where they were polled |
| ListenerOutcomes.TurnLeaves | services/transaction_listener/app/listener.py:440-463 | the same of the partitions of one process over one of its turns |
| ListenerWorld.DrainedMeansSettled | services/transaction_listener/app/listener.py:470-487 | between batches with nothing ahead of it every record of a process's partitions has a result |
| ListenerWorld.SomethingToFetch | services/transaction_listener/app/listener.py:474-480 | with records ahead there is always a batch that getmany may return |
| Listener.DelayDoublesUpToCap | services/transaction_listener/app/listener.py:482-487 | after k failures the pause is the initial one doubled k times, capped, and stays in its range |
| HandleMessage.Process | services/transaction_listener/app/listener.py:303-356 | decoding, offer lookup, checks and accrual fail at the first failing step, or come to a label or one engine call for exactly the record's purchase |
| HandleMessage.HandleOne | services/transaction_listener/app/listener.py:303-367 | the failure kind decides between retry and dead letter: an error of the accrual is a dead letter exactly with a state of class 22 or 23; the purchase asked about and the acknowledged letter are spelled out |
| Listener.TransactionListener.HandleAnswered | services/transaction_listener/app/listener.py:303-367 | what one message with the answers it met comes to in the tables and the results |
| Listener.TransactionListener.HandleRecord | services/transaction_listener/app/listener.py:358-367 | a record gets a result or must be retried, with the effect its attempt had |
| Listener.TransactionListener.HandlePartition | services/transaction_listener/app/listener.py:445-462 | the inner loop stops at the first retryable failure with the right next offset, along protocol steps |
| Listener.TransactionListener.RewindAll | services/transaction_listener/app/listener.py:454-458 | seeks every unfinished partition to its first unhandled record |
| Listener.TransactionListener.CommitOffsets | services/transaction_listener/app/listener.py:420-431 | commits exactly the given offsets or, on failure, nothing |
| Listener.TransactionListener.ProcessBatch | services/transaction_listener/app/listener.py:440-463 | with everybody else at work between its records the batch is a path of the protocol; undisturbed, its positions, commits and verdict are exactly those of the calls |
| Listener.TransactionListener.Turn | services/transaction_listener/app/listener.py:470-487 | one turn of run is a path of the protocol; undisturbed it adds no record ahead, removes some unless a call fails, leaves each partition at and committed to its first record not handled, and adapts the pause |
| Listener.TransactionListener.AfterBatch | services/transaction_listener/app/listener.py:480-485 | the pause goes back to the initial one after a batch that worked and doubles up to the cap after one that did not |
| Listener.TransactionListener.Run | services/transaction_listener/app/listener.py:470-487 | while the others leave its partitions alone, run gives every record of them a result, after at most as many batches as records ahead and failing turns |
| FailureKind.Sqlstate | services/transaction_listener/app/listener.py:97-107 | finds the first SQLSTATE of an exception chain, or shows there is none, also when the chain is a cycle |
| FailureKind.IsRetryable | services/transaction_listener/app/listener.py:110-124 | a failure is dead-lettered exactly when it is provably about the message: with a state, in class 22 or 23; without one, only WRONGTYPE |
| FailureKind.RetryableByState | services/transaction_listener/app/listener.py:87-124 | the first state of the chain decides, in characters |
| FailureKind.FirstStateMeans | services/transaction_listener/app/listener.py:97-107 | that state is a non-empty text and no earlier exception of the chain has one |
| Validator.DataValidator.ValidateBatch | services/etl/app/validator.py:263-281 | the stateful loops compute the verdicts defined on the batch and the fetched ids |
| Validator.DataValidator.FirstFailure | services/etl/app/validator.py:268-279 | the rule loop finds the first failed rule and keeps the seen ids exact |
| Validator.DataValidator.Check | services/etl/app/validator.py:232-241 | one rule; R5 alone changes the seen ids |
| Validator.ReportPartitionsBatch | services/etl/app/validator.py:263-281 | the two lists hold each record as often as the batch does |
| Validator.RecordIsReported | services/etl/app/validator.py:276-280 | the verdict decides which list a record is in |
| Validator.ValidRecordsAt | services/etl/app/validator.py:276-280 | every listed valid record comes from a position that passes every rule |
| Validator.ValidIdsAreNew | services/etl/app/validator.py:232-241 | valid ids are pairwise distinct and none was fetched as recent |
| Validator.IdAcceptedIffFirstMarkerInCurrency | services/etl/app/validator.py:253-281 | the id of a record that passes the other rules is accepted exactly when the first record that marks it has a valid currency |
| Validator.WrongCurrencyShadowsCorrection | services/etl/app/validator.py:253-261 | R5 before R6: a wrong currency blocks the corrected record |
| ValidatorRules.ValidIff | services/etl/app/validator.py:179-251 | a record is valid if and only if every field is in order, within the bounds, and its id was neither fetched nor marked by an earlier record |
| ValidatorRules.RejectedBy | services/etl/app/validator.py:253-281 | a rejected record is reported with the first of R1 to R6 that it breaks |
| ValidatorRules.ReportKeepsOrder | services/etl/app/validator.py:263-281 | both lists keep the order of the batch |
| Loader.BisectionIsLogarithmic | services/etl/app/ch_loader.py:242-258 | b bad rows among n cost at most 1 + 2 b ceil(log2 n) insert calls |
| Loader.OneBadRowCosts | services/etl/app/ch_loader.py:242-258 | the bound is reached for one bad row in 2^k |
| Loader.CeilLog2IsLeast | services/etl/app/ch_loader.py:256-258 | the logarithm of the bound is the least sufficient power |
| Loader.CopiesAreFound | services/etl/app/ch_loader.py:184-197 | one day of slack finds a copy with the same date in every server time zone |
| Loader.ExistingMeans | services/etl/app/ch_loader.py:179-197 | the query returns the ids of stored rows dated, in the server's zone, from the day before the file's first date to the day after its last |
| Loader.LoadedMeans | services/etl/app/ch_loader.py:200-240 | a load stores exactly the acceptable rows, and quarantines exactly the others, whose id the query does not return |
| Loader.LoadKeepsNoCopies | services/etl/app/ch_loader.py:200-240 | no event is stored twice however much of a load is carried out |
| Loader.LoadedIdsExist | services/etl/app/ch_loader.py:218-240 | after a complete load the query finds every acceptable row |
| Loader.SecondLoadAddsNothing | services/etl/app/ch_loader.py:200-205 | loading the same file again adds nothing |
| Loader.LoadAddsNoStoredIdIff | services/etl/app/ch_loader.py:184-205 | a load adds no stored id if and only if each acceptable row whose id is stored has a stored row of that id in the file's window of days |
| Loader.RedatedCopyIsLoadedAgainIff | services/etl/app/ch_loader.py:184-197 | a redated copy is loaded again exactly when the stored day lies outside that window |
| Loader.RedatedCopyIsLoadedAgain | services/etl/app/ch_loader.py:184-197 | a copy with a distant date escapes the query |
| ClickHouse.ClickHouseLoader.InsertBisecting | services/etl/app/ch_loader.py:242-258 | inserts exactly the good rows and rejects exactly the bad ones in order, counts them and its calls; an outage at any call leaves a prefix |
| ClickHouse.ClickHouseLoader.ExistingIdsOf | services/etl/app/ch_loader.py:179-197 | the chunked queries return the ids one query would, with one query for every thousand different ids |
| ClickHouse.ClickHouseLoader.LoadParquet | services/etl/app/ch_loader.py:200-240 | a load adds exactly the acceptable rows not stored yet and quarantines the rest, or dies with a prefix |
| ClickHouse.HalvesCount | services/etl/app/ch_loader.py:256-258 | calls and counts of the halves add up, outages included |
| ClickHouse.HalvesWrite | services/etl/app/ch_loader.py:256-258 | what the halves write and reject is what the block writes and rejects, in order |
| Extract.TransactionConsumer.Advance | services/etl/app/kafka_consumer.py:301-303 | the next offset of a partition only grows |
| Extract.TransactionConsumer.DecodeAll | services/etl/app/kafka_consumer.py:305-315 | splits a poll into records and dead letters and fails exactly on a transient error |
| Extract.TransactionConsumer.PollBatch | services/etl/app/kafka_consumer.py:335-350 | a batch polls on after full polls only and while records are missing |
| Extract.TransactionConsumer.ConsumeBatch | services/etl/app/kafka_consumer.py:322-357 | everything polled is in the new file or dead-letter file |
| Extract.TransactionConsumer.Drain | services/etl/app/kafka_consumer.py:359-391 | stops once enough polls in a row were empty or enough files exist, with a manifest of exactly what was polled; only a transient failure prevents it |
| Extract.NextIsPastLargest | services/etl/app/kafka_consumer.py:301-303 | the tracked offset is one past the largest polled |
| Extract.ManifestCoversExactly | services/etl/app/kafka_consumer.py:378-388 | a logged message lies below the manifest's offset if and only if it was polled, and then it is in a file |
| Extract.PolledIsReadInOrder | services/etl/app/kafka_consumer.py:359-391 | however early the extract stops, what it polled leaves no gap behind |
| PipelineLaws.ManifestStaysOk | services/etl/dags/cashback_daily_etl.py:104-134 | what a manifest covers stays covered while everything else goes on |
| PipelineLaws.ValidatedFileSorted | services/etl/dags/cashback_daily_etl.py:165-197 | every record of a validated file is in its cleansed or its rejected file |
| PipelineLaws.LoadedRowSettled | services/etl/dags/cashback_daily_etl.py:203-224 | after a load every cleansed row is stored by id or quarantined |
| PipelineLaws.CommittedIsSettled | services/etl/dags/cashback_daily_etl.py:250-261 | what a commit newly covers was settled before it |
| PipelineLaws.StepKeepsInv | services/etl/dags/cashback_daily_etl.py:289-296 | every task step, failure, retry and new message keeps the pipeline invariant |
| PipelineLaws.NothingIsLost | services/etl/dags/cashback_daily_etl.py:289-296 | in every execution each message below the committed offset is stored by id or in a dead-letter, rejected or quarantine file, no event is stored twice, and every stored row comes from a message |
| PipelineLaws.CommitsNeverRewind | services/etl/app/kafka_consumer.py:413-451 | in every execution commits only move forward |
| PipelineLaws.CommitReachesManifest | services/etl/app/kafka_consumer.py:436-451 | a commit of all partitions brings each to the manifest's offset unless it is past it, and no other moves |
| PipelineLaws.CleansedKeepsValues | services/etl/dags/cashback_daily_etl.py:188-196 | a cleansed row carries the id and time of its record, and the record |
| Dag.DailyEtl.ExtractTask | services/etl/dags/cashback_daily_etl.py:104-134 | drains the broker into a new run whose manifest covers what was polled, in at most 200 files or up to three empty polls in a row, as one step of the pipeline, or changes nothing |
| Dag.DailyEtl.ValidateTask | services/etl/dags/cashback_daily_etl.py:138-199 | every staged file gets a cleansed file of exactly its valid records and a rejected file of exactly the others, and the paths name the former, along steps of the pipeline |
| Dag.DailyEtl.ValidateOne | services/etl/dags/cashback_daily_etl.py:167-196 | one file: validate, write rejected, write cleansed, append the path |
| Dag.DailyEtl.LoadTask | services/etl/dags/cashback_daily_etl.py:203-224 | loads every cleansed file, so that each row is in the table by id or in a quarantine file, or dies part-way, along steps of the pipeline |
| Dag.DailyEtl.LoadOne | services/etl/app/ch_loader.py:268-272 | one file through the real loader is one step of the pipeline |
| Dag.DailyEtl.CommitTask | services/etl/app/kafka_consumer.py:413-451 | brings exactly the partitions behind the manifest to its offsets, leaves the others, and reports what moved |
| SessionLaws.HitKeepsOneHolder | services/campaign_manager/app/api/auth.py:271 | GETDEL moves a family's only hold from the key to the request |
| SessionLaws.IssueKeepsOneHolder | services/campaign_manager/app/api/auth.py:201-226 | a new pair replaces that hold or starts a family |
| SessionLaws.RowStepKeepsLocks | services/campaign_manager/app/api/auth.py:111-118 | row locks exclude each other and pin the version they read |
| SessionLaws.StepKeepsInv | services/campaign_manager/app/api/auth.py:111-455 | every Redis command and database statement, failing or not, keeps the session invariant |
| SessionRuns.OneLiveTokenPerFamily | services/campaign_manager/app/api/auth.py:260-289 | per family stored tokens plus requests between GETDEL and SET are at most one |
| SessionRuns.ExchangedAtMostOnce | services/campaign_manager/app/api/auth.py:267-289 | a refresh token yields a pair for at most one request |
| SessionRuns.DoomedNeverSucceed | services/campaign_manager/app/api/auth.py:279-288 | after revocation or a version change no request that has yet to check it gets a pair |
| SessionRuns.StartedTooLate | services/campaign_manager/app/api/auth.py:271-286 | a refresh that starts after its family was revoked gets no pair |
| SessionRuns.OnePairAfterRevocation | services/campaign_manager/app/api/auth.py:279-289 | at most one pair slips past a revocation |
| SessionRuns.LatePairIsDead | services/campaign_manager/app/api/auth.py:279-286 | and its refresh token is never exchanged |
| SessionRuns.VersionNamesAccount | services/campaign_manager/app/api/auth.py:414-455 | password and status change only together with the version |
| SessionRuns.UpdateWrites | services/campaign_manager/app/api/auth.py:414-455 | an update writes exactly the given fields, and the next version exactly when password, status or role change |
| SessionRuns.LiveTokenIsExchanged | services/campaign_manager/app/api/auth.py:260-289 | four working steps exchange a stored token of an unrevoked family of an active account for a pair |
| SessionRuns.ChangeOverwritesOnlyItsVersion | services/campaign_manager/app/api/auth.py:327-344 | a holder's password change overwrites only the account state its token was issued for, and only with its password |
| AuthApi.AuthService.Refresh | services/campaign_manager/app/api/auth.py:260-289 | the handler, interleaved at every await, follows the protocol, refuses revoked or outdated tokens and answers 503 only on a failing command; undisturbed, it answers with a pair if and only if the key is stored with the token's family and user, the family is not revoked and the account is active at that version |
| AuthApi.AuthService.CheckFamily | services/campaign_manager/app/api/auth.py:280-287 | goes on if and only if the family is not revoked and the record is the token's |
| AuthApi.AuthService.LoadAccount | services/campaign_manager/app/api/auth.py:288 | goes on if and only if the account exists, is active and at the token's version |
| AuthApi.AuthService.Logout | services/campaign_manager/app/api/auth.py:293-311 | 204 means the family is revoked and the key gone |
| SessionRuns.HolderFreesRow | services/campaign_manager/app/api/auth.py:111-118 | the holder of a row can always go on and any step of it frees the row |
| AuthApi.AuthService.ChangePassword | services/campaign_manager/app/api/auth.py:315-345 | waits for the row while it is locked, follows the protocol and answers with a pair only for a current token whose holder knows the password, and only for a password the policy allows |
| AuthApi.AuthService.LockAndChange | services/campaign_manager/app/api/auth.py:325-345 | without failures it answers with a pair exactly when the token is current, the current password right and the new one allowed |
| AuthApi.AuthService.CommitPassword | services/campaign_manager/app/api/auth.py:330-344 | under the lock refuses a wrong password or one against the policy, else writes password and next version over the version locked |
| AuthApi.AuthService.StoreNewFamily | services/campaign_manager/app/api/auth.py:201-226 | login and password change open a family no token used before |
| SessionClient.ServeKeepsHealthy | services/campaign_manager/app/api/auth.py:260-289 | no server step on any request takes away the token the browser holds |
| SessionClient.StepKeepsInv | frontend/src/shared/api/client.ts:50-99 | single flight, Web Lock and rotation keep browser and server in step |
| SessionClient.NoReuseWithoutLoss | frontend/src/shared/api/client.ts:44-99 | without lost answers or failures behind GETDEL the server never sees reuse, in every interleaving of tabs |
| SessionReuse.SpentOnlyAfterLoss | frontend/src/shared/api/client.ts:44-99 | in every execution of tabs, between exchanges the stored token is spent only after a loss |
| SessionReuse.SeenAsReuseIffTaken | services/campaign_manager/app/api/auth.py:271-277 | of all requests that ever present a token, a working GETDEL is seen as reuse exactly if an earlier one took effect |
| SessionReuse.SpentAfterLossIff | frontend/src/shared/api/client.ts:64-77 | after a lost answer, over every continuation up to the next refresh, the token is spent exactly if the abandoned request was behind GETDEL or took it since |
| SessionReuse.RefreshAfterLoss | services/campaign_manager/app/api/auth.py:271-277 | over every continuation with one refresh, each of the refresh and the abandoned request is seen as reuse exactly if the other took the token first |
| SessionReuse.FailureSpendsIffBehindGetdel | services/campaign_manager/app/api/auth.py:213-289 | a failing step spends the token exactly when it is behind GETDEL or a GETDEL that took effect |
| SessionReuse.RefreshAfterFailure | services/campaign_manager/app/api/auth.py:271-277 | and exactly then the next refresh after it is seen as reuse, over every continuation |
| BrowserTab.ApiClient.ExchangeRefreshToken | frontend/src/shared/api/client.ts:50-77 | reads, sends and settles under the lock, along steps of the composed machine |
| BrowserTab.ApiClient.Settle | frontend/src/shared/api/client.ts:56-76 | a pair is stored, a refusal clears both tokens, anything else keeps them |
| BrowserTab.ApiClient.RefreshSession | frontend/src/shared/api/client.ts:86-99 | a second call never starts a second exchange; a first one exchanges at its turn unless another tab is still in an exchange |
| BrowserTab.ApiClient.OnUnauthorized | frontend/src/shared/api/client.ts:136-150 | at most one retry per request, none for credential calls, no exchange when already renewed, and a request whose session was renewed is repeated with the new token |
| Broker.CallKeepsInv | services/campaign_manager/app/events.py:68-123 | every call keeps counters, limits and queue bounds |
| Broker.LimitsHold | services/campaign_manager/app/events.py:71-111 | after any calls the counters count the live queues per user and both limits hold |
| Broker.UnsubscribeUndoes | services/campaign_manager/app/events.py:96-103 | unsubscribing is idempotent and undoes a subscription |
| Broker.CloseMarksEveryone | services/campaign_manager/app/events.py:113-123 | closing puts the marker into every live queue, full ones included |
| Broker.MarkerStays | services/campaign_manager/app/events.py:105-123 | the marker stays until its reader has read what is before it |
| Broker.EventBroker.SubscribeAs | services/campaign_manager/app/events.py:80-94 | subscribes exactly when no limit is reached and the broker is open, else refuses for the first reason that applies |
| Broker.EventBroker.UnsubscribeQueue | services/campaign_manager/app/events.py:96-103 | removes the queue and exactly its count |
| Broker.EventBroker.PublishEvent | services/campaign_manager/app/events.py:105-111 | every live queue gets the event at its end unless a hundred items wait in it; no other queue changes |
| Broker.EventBroker.CloseAll | services/campaign_manager/app/events.py:113-123 | every live queue gets the marker at its end, in place of the oldest item when full |
| Bridge.AccrualStreamBridge.Ingest | services/campaign_manager/app/events.py:242-251 | adds the amount and one to its campaign alone; amounts and counts ingested stay equal to those sent plus pending |
| Bridge.AccrualStreamBridge.Flush | services/campaign_manager/app/events.py:253-267 | sends one event per pending campaign, empties the window, and conserves both sums |
| Bridge.PublishAllOffersAll | services/campaign_manager/app/events.py:258-265 | each live queue is offered the batch in order |
| Bridge.OfferedUntilFull | services/campaign_manager/app/events.py:105-111 | a queue takes a batch in order until a hundred items wait in it |
| Quintiles.QuintilesOf | scripts/seed_demo_data.py:534-546 | the loop over first and last places computes the mid-rank level of every value |
| Quintiles.PlacesAreCounts | scripts/seed_demo_data.py:538-543 | first and last places are counts of smaller and not larger values |
| Quintiles.LevelIsAQuintile | scripts/seed_demo_data.py:534-537 | levels lie in 1 to 5 |
| Quintiles.LevelKeepsOrder | scripts/seed_demo_data.py:534-546 | larger values never get a lower level |
| Quintiles.AllEqualIsMiddle | scripts/seed_demo_data.py:534-537 | all-equal input gets level 3 |
| Quintiles.LevelsAreEven | scripts/seed_demo_data.py:544-546 | with distinct values every level has n/5 of them, rounded down or up |
| Quintiles.NegationMirrors | scripts/seed_demo_data.py:544-546 | negated values get the mirrored level: the sum is 7 on a boundary, else 6 |
| Quintiles.ScoresRespectDominance | scripts/seed_demo_data.py:549-561 | a client at least as good in R, F and M never scores lower |
| Quintiles.CriteriaWeighTheSame | scripts/seed_demo_data.py:557-561 | exchanging two criteria for all clients changes no score |
| Variants.PickVariant | services/campaign_manager/app/api/ab_testing.py:74-81 | returns the first variant whose cumulative weight exceeds the bucket, else the last |
| Variants.VariantsAreIntervals | services/campaign_manager/app/api/ab_testing.py:68-81 | with weights that sum to 1 the variants partition the 2^32 prefixes into consecutive intervals |
| Variants.IntervalsMatchWeights | services/campaign_manager/app/api/ab_testing.py:68-81 | each interval is within less than 1 of its weight times 2^32 |
| Variants.ZeroWeightIsNotChosen | services/campaign_manager/app/api/ab_testing.py:74-81 | a zero-weight variant that is not last is never chosen |
| Variants.LastTakesTheRest | services/campaign_manager/app/api/ab_testing.py:81 | exactly when the last variant is chosen |
| Variants.AbTesting.AssignUser | services/campaign_manager/app/api/ab_testing.py:266-317 | returns what the table holds: the first stored variant on repeats and races |
| Variants.FirstInsertWins | services/campaign_manager/app/api/ab_testing.py:296-311 | whatever inserts race, the first one decides |
| OfferBackfill.KeysHold | db_migrations/migrations/versions/009_money_integrity.py:336-362 | after the backfill no offer and no purchase is linked twice, so both unique keys can be created |
| OfferBackfill.LinkIsLastMatch | db_migrations/migrations/versions/009_money_integrity.py:340-351 | a link goes to an offer its client accepted for the campaign and category not later than the accrual, and to the last such offer |
| OfferBackfill.EveryChosenOfferIsPaidOnce | db_migrations/migrations/versions/009_money_integrity.py:353-362 | every offer chosen by linked is marked paid by exactly one accrual |
| OfferBackfill.EveryPaidPurchaseIsLinked | db_migrations/migrations/versions/009_money_integrity.py:337-352 | every purchase with a matching offer has a linked accrual |
| OfferBackfill.PaidOfferIsMarked | db_migrations/migrations/versions/009_money_integrity.py:336-362 | whenever such an offer exists for an accrual, the first accrual of the purchase with one settles its last offer, and exactly one row is linked to it, that one or an earlier one |
| OfferBackfill.RowsStay | db_migrations/migrations/versions/009_money_integrity.py:358-361 | nothing but the new column changes |
| AbBackfill.ExactlyOneControl | db_migrations/migrations/versions/010_analytics_integrity.py:56-74 | every experiment with a variant gets exactly one control, the first in the order, and nothing else changes |
| AbBackfill.ControlFollowsPayload | db_migrations/migrations/versions/010_analytics_integrity.py:63-72 | payload order decides before names and ids |
| AbBackfill.ControlComesFirst | db_migrations/migrations/versions/010_analytics_integrity.py:63-72 | the payload names the control first; where it names neither, a variant called control comes first and the smaller id decides |
| AbBackfill.OneConversionLeft | db_migrations/migrations/versions/010_analytics_integrity.py:77-88 | exactly the earliest conversion of each assignment is left and every other event is untouched |

## Left out

* Kafka, Redis, ClickHouse, Postgres and HTTP themselves: each is an abstract step with the atomicity the code relies on, and failures are choices of the environment.
* Avro and Schema Registry decoding, JWT signatures, password hashing and MD5: payloads decode or never do, presented tokens were issued, prefixes are inputs.
* Key expiry in Redis, the login throttle, access-token lifetimes and wall-clock drift.
* The release of the offer key and the publication of `cashback.accrued` after an accrual commits; both are best effort.
* Deletion of unused drafts, and the age limit of rows in `transactions_raw`.
* NUMERIC division by 100 is exact; a tier without `rate`, which makes the result NULL, is not modelled.
* Loss of rows in the memory of the ClickHouse Buffer engine between an insert and its flush.
* Re-running a task of the pipeline that already succeeded: tasks are retried only when they failed.
* Files of extracts that failed: they are never listed in a manifest.
* Floating point in `pick_variant` and in the bridge: weights and amounts are exact.
* A 401 of the change-password form counts as one of the credential calls that are never retried.
* Model training, PSI, the z-test, SHAP, FAISS, the analytics queries, role lookup and the user interface.
* ListenerRuns.CommittedNeverMovesBack: assumes that the partition comes only to processes with which it is safe, because after any other assignment it can fail (`ReturnCanMoveBackIff`).
* RateScaleLaws.CashbackWithinAmount: for amounts in whole kopecks only, because the general condition is `NeverPaysMoreIffFractionBelowHalf`.
* LedgerLaws.RunKeepsDailyCap: for bookings inside the checked window, because it is false for others (`DailyCapIffBookedInWindow`).
* AuthApi.AuthService.Refresh: presented tokens carry both claims; a token without `jti` or `fam` is refused before any step.
* SessionClient.NoReuseWithoutLoss: tabs only refresh; a logout in another tab revokes the family on purpose.
* OfferBackfill.KeysHold: the UPDATE is a function of the whole table, as SQL defines it; there is no update in place.
* Listener.TransactionListener.Run: progress needs the others to leave this process's partitions alone and getmany to return what is ahead; reachability (`Turn`) needs neither.
* AuthApi.AuthService.ChangePassword: has no answer when the others end with the row still locked; that the holder can go on is `HolderFreesRow`.
* Nothing was executed.
