# Thirdshift in Dafny

A model of what Thirdshift's coordinator does with money and jobs, of the guard machine in its node
agent, and of five small algorithms beside them, with proofs about all inputs, all runs and all
reachable states.

- **Ledger** (`Ledger`, `LedgerInvariant`, `LedgerPostings`, `LedgerPayouts`, `LedgerRuns`,
  `LedgerEffects`, `LedgerHolds`, `LedgerBatches`, `LedgerStore`): double-entry postings, host credit
  holds, payout batches and items. Three representations of the same money stay reconciled in every
  state of every run, a credit is held exactly as long as it should be, and a batch that is created,
  exported and confirmed pays its hosts.
- **Jobs** (`Jobs`, `JobsBilling`, `JobsOutcome`, `JobsCredits`, `JobsLives`, `CustomerBills`,
  `HostEarnings`, `JobStore`): the guarded row updates of jobs, attempts and accepted results, with the
  ledger inside. Billing is exactly once, whatever order the steps come in, it credits the host of the attempt it is for, a
  customer's balance is the sum of those bills, and everything a host earns is pending, payable or paid.
- **Dispatch** (`Dispatch`, `DispatchStore`, `DispatchExclusive`, `DispatchReservations`, `DispatchAttempts`,
  `DispatchTries`, `DispatchChecks`, `DispatchCredits`, `DispatchFates`, `DispatchInstances`,
  `DispatchOvertake`, `DispatchService`): the job service's handlers, with retries nested in lease expiry, sampled
  verification and the check every completion passes. Every history of the service is a run of the
  store, and each request, failure and completion has exactly one fate.
- **Agent** (`Agent`, `AgentSafety`, `AgentRaces`, `AgentWork`, `AgentProcess`): life-cycle states,
  guards, claims, pauses and thermal hysteresis, section by section: that the agent stops when it
  must, that it gets back to work, and exactly what its races lead to.
- **Locks** (`Locks`, `LocksSweep`): the row-lock order of heartbeats, session closing and draining, and
  the stale-session sweep that locks the other way round.
- **Small cores**: `Charges` and `Metering` (token charges and plausibility), `Ulid` (identifiers),
  `NodeConfig` (the configuration file), `ModelCache` (eviction), `RateLimits` (two limiters).
  `Options`, `Int64`, `Sums` and `Text` hold the option type, 64-bit wrap-around, sums over rows and
  Go's trimming functions.

`dafny verify dfyconfig.toml` verifies everything.

## How to read it

Each part has a specification on values: a state, one function per operation (with its error cases
as `Result`), steps, and runs `states[0], states[1], ...` in which each state follows from the one
before by one step. Where the Go code updates rows, maps or fields in place, a class does the same
and every method is proved to end in exactly the state the function gives (`View()` is the state a
class stands for). The theorems are about the functions and therefore about the methods.

A store transaction is one step and either commits or leaves everything as it was. A row's
identifier is its position in its table. Candidate lists, the scheduler's choice, delivery of
messages, clocks, prices, signatures and file contents come in as parameters. Charges,
postings, payouts, confirmations, the economics report, metering and the configuration's numbers wrap
where the code computes in 64 bits; sums the database makes are exact and fail where they are read into
an `int64` they do not fit. Times, counters of attempts and hits, and file sizes are unbounded.

## What turned out not to hold

Each item names an instance first and then the lemma that says exactly when the expected property
does hold.

- **A confirmation is not checked for equal totals.** `ConfirmPayoutBatch` subtracts in `int64`
  (`LedgerRuns.OverstatedConfirmationPasses`), so per-host totals need only agree modulo 2^64
  (`LedgerRuns.ConfirmAccepts`). Below that distance it is equality
  (`LedgerRuns.ConfirmAcceptsExactTotals`). A batch worth more than an `int64` can never be confirmed.
- **An acceptance with verification overhead cannot be posted.** Its entries add up to twice the
  overhead, so the balance trigger refuses it (`LedgerEffects.AcceptanceWithOverhead`), and overhead
  is the only reason it refuses one (`LedgerPostings.AcceptanceSum`, `LedgerEffects.AcceptanceMoves`).
  `CompleteJob` always passes zero.
- **A charge is not always the rounded price.** The product can overflow (`Charges.OverflowingCharge`);
  without overflow it is (`Charges.ChargeRoundsIffInRange`), and overflow never charges too much
  (`Charges.ChargeNeverExceeds`).
- **AVAILABLE does not exclude a pause request.** Neither start-up nor the last section of a resume looks
  at it (`AgentRaces.AvailableWhilePaused`, `AgentRaces.FailedResumeAtStart`,
  `AgentRaces.PausedWhileLoading`). It happens exactly when a resume that began before the pause ends
  after it, or start-up goes through over an early pause, and nothing has heeded the pause since
  (`AgentRaces.AvailableAndPausedIff`); offers are refused all the same (`AgentSafety.NoClaimWhilePaused`).
- **AVAILABLE does not exclude a job, nor being out of the window.** A resume that began before an offer
  was taken can end while the job is held (`AgentRaces.ClaimedWhileResuming`,
  `AgentRaces.AvailableOutOfWindow`). Without that, and only then, an available agent has no job and was
  in its window (`AgentRaces.AvailableWithJobIff`, `AgentRaces.AvailableMeans`).
- **An agent can work on two jobs.** In that state a further offer, which takes a session that replaced the
  first one's, is taken as well (`AgentRaces.TwoJobsAtOnce`). At most one job is worked on exactly as long
  as that has not happened (`AgentRaces.OneJobIff`, `AgentRaces.ReplacesIff`).
- **A billed job is not always shown as succeeded.** Neither `FailJob` nor the offer of a further
  standard attempt looks at the job's state (`JobsOutcome.BilledThenFailed`), and an ignored
  verification offer leads to `FailJob` too (`DispatchAttempts.IgnoredCheckFailsBilledJob`). In every
  run a billed job is shown as succeeded if and only if neither has come since the bill
  (`JobsOutcome.ShownAsSucceededIff`). The bill stays exactly as it was.
- **A credit is not always bounded by its job's request.** Once the run is gone, a completion is checked
  against an empty request (`DispatchInstances.CreditBeyondTheRequest`). It is checked against the job's
  own if and only if the run is there or that request is empty (`DispatchCredits.OwnRequestIff`), and
  every credit is bounded by the request it was checked against (`DispatchCredits.CreditsAreBounded`).
- **A request is not always leased or failed.** When the offer to a usable node cannot be delivered, its
  job stays queued without a run. That is the only way (`DispatchFates.ChatFate`).
- **A job can get a third standard attempt** when a failure report names an attempt of another job
  (`DispatchOvertake.ThirdAttempt`). It does exactly when a failure that may be retried overtakes an
  overdue offer of the job whose own retry goes through (`DispatchTries.ThirdAttemptIff`), and there is
  never a fourth (`DispatchTries.NeverFourTimes`). Messages that name attempts of their own jobs never do
  that (`DispatchAttempts.AttemptsAreBounded`).
- **The stale-session sweep can deadlock** with a call (`Locks.OppositeOrderDeadlocks`). It can if and
  only if some call locks a node and a session that the sweep locks too (`LocksSweep.SweepGetsStuckIff`).
- **Identifiers sort by time only below 2^48 milliseconds** (`Ulid.ClockStartsOver`, `Ulid.IdOrder`).
- **A configuration is not always read back as saved.** Durations are written in whole seconds
  (`NodeConfig.FractionIsLost`), and the parser strips quotes but does not undo escapes
  (`NodeConfig.QuoteRoundTripIff`, `NodeConfig.SaveThenLoadIff`).

Where code and prose disagree the model follows the code. Duplicate postings are the main case: the
draft row is inserted with `ON CONFLICT DO NOTHING`, but the unique index covers only posted rows, so
a second posting fails when it is marked posted rather than being skipped. Either way nothing is
posted twice and the transaction is rolled back.

## Model

| member | source | states |
|---|---|---|
| `Charges.ChargeRoundsIffInRange` | internal/coordinator/ledger/store.go:909-914 | the charge is the price rounded to the nearest microdollar, halves up, if and only if product plus rounding offset fit an int64 |
| `Charges.OverflowingCharge` | internal/coordinator/ledger/store.go:909-914 | ten million tokens at 10^12 microdollars a million give a negative charge |
| `Charges.ChargeNeverExceeds` | internal/coordinator/ledger/store.go:909-914 | with or without overflow a charge is at most half a microdollar above the exact price |
| `Charges.ChargeMonotone` | internal/coordinator/ledger/store.go:909-914 | more tokens or a higher price never lower an in-range charge |
| `Charges.CustomerChargeExact` | internal/coordinator/ledger/store.go:177-183 | at any price the prompt and completion charges add without overflow; in range charge and credit are non-negative |
| `Charges.MarginNonNegative` | internal/coordinator/ledger/store.go:177-183 | the platform margin is charge minus credit and never negative when the host price is at most the output price |
| `Charges.ChargesStayClose` | internal/coordinator/ledger/store.go:177-183 | any n jobs are charged at most n microdollars above their unrounded price, at any price, and with prices in range at most n below it |
| `Metering.PlausibilityIssues` | internal/coordinator/jobs/metering.go:26-68 | the loop over messages builds the specified issue list |
| `Metering.MeteringStatus` | internal/coordinator/jobs/metering.go:70-81 | rejected if and only if some issue rejects, accepted if and only if there is none |
| `Metering.ValidateCompletionForAcceptance` | internal/coordinator/jobs/metering.go:16-24 | accepted if and only if the completion is plausible, said without the issue list |
| `Metering.AcceptedIffPlausible` | internal/coordinator/jobs/metering.go:16-68 | no rejecting issue if and only if role, content, token counts and the limit 2 x max_tokens + 16, computed in 64 bits, are in order |
| `Metering.IssuesAre` | internal/coordinator/jobs/metering.go:26-68 | each code is in the list if and only if what it says applies, said code by code, and codes come in their order, each once |
| `Metering.OneList` | internal/coordinator/jobs/metering.go:26-68 | only one list of codes fits that |
| `Metering.EstimateIsSum` | internal/coordinator/jobs/metering.go:26-68 | the prompt estimate is the sum over messages of a quarter of the characters, rounded up |
| `Metering.HostCreditBounded` | internal/coordinator/jobs/metering.go:26-68 | the host credit of a completion that passes the check is bounded by the limit of the request it was checked against, at any price and whatever the node reports |
| `LedgerPostings.AcceptanceSum` | internal/coordinator/ledger/store.go:177-231 | at any price acceptance entries sum to twice the clamped overhead modulo 2^64, to exactly that if and only if the margin does not underflow, and balance if and only if there is no overhead |
| `LedgerPostings.PostAcceptedKeepsInv` | internal/coordinator/ledger/store.go:143-257 | posting an accepted job keeps ledger, holds, items and batches reconciled |
| `LedgerPostings.PostVerificationKeepsInv` | internal/coordinator/ledger/store.go:259-339 | posting verification cost keeps everything reconciled |
| `LedgerPostings.VerificationSparesCustomers` | internal/coordinator/ledger/store.go:259-339 | verification moves no customer balance and books the host's credit as cost |
| `LedgerPostings.ReleaseKeepsInv` | internal/coordinator/ledger/store.go:341-416 | releasing due holds keeps everything reconciled |
| `LedgerPostings.PromoteReleasesExactlyTheDue` | internal/coordinator/ledger/store.go:341-416 | every due hold becomes available, no other hold changes, and none due is left |
| `LedgerHolds.AcceptanceAdds` | internal/coordinator/ledger/store.go:143-257 | a posted acceptance appends one transaction for its job, dated by the posting, and one pending hold of the host, job, attempt and credit, releasable the configured time or a day after receipt; customer, that host and margin move by charge, credit and difference, and no other account moves |
| `LedgerHolds.VerificationAdds` | internal/coordinator/ledger/store.go:259-339 | the same for a verification, whose credit the platform bears |
| `LedgerHolds.VerificationPostedIff` | internal/coordinator/ledger/store.go:259-339 | posted if and only if the host can be priced, the credit is not negative and the attempt has no hold |
| `LedgerHolds.StillPending` | internal/coordinator/ledger/store.go:341-416 | a step leaves a hold pending if and only if it was and the step is no promotion at or after its release time |
| `LedgerHolds.PendingUntilMature` | internal/coordinator/ledger/store.go:143-416 | in every run the credit a posting grants is pending if and only if no promotion since was dated at least its hold length after receipt: the length asked for, or 24 hours |
| `LedgerHolds.LedgerOnlyGrows` | internal/coordinator/ledger/store.go:143-832 | no step changes or removes a posted transaction |
| `LedgerHolds.EveryHoldIsSourced` | internal/coordinator/ledger/store.go:143-339 | in every run every hold was granted by a posting for its job that credits its host with exactly its amount |
| `LedgerPayouts.CreateKeepsInv` | internal/coordinator/ledger/store.go:555-636 | creating a batch keeps everything reconciled, its total included |
| `LedgerPayouts.ExportKeepsInv` | internal/coordinator/ledger/store.go:638-704 | exporting a batch keeps everything reconciled |
| `LedgerPayouts.ConfirmKeepsInv` | internal/coordinator/ledger/store.go:706-832 | confirming a batch keeps everything reconciled: cash leaves as the holds become paid |
| `LedgerPayouts.VoidKeepsInv` | internal/coordinator/ledger/store.go:497-553 | voiding a paid or an unpaid batch keeps everything reconciled |
| `LedgerPayouts.ReversalNegates` | internal/coordinator/ledger/store.go:437-495 | a reversal balances and undoes its original on every account |
| `LedgerPayouts.BalancedPayoutIsExact` | internal/coordinator/ledger/store.go:793-816 | a payout that commits has not overflowed: cash is exactly minus the batch's worth |
| `LedgerBatches.CreateSucceedsIff` | internal/coordinator/ledger/store.go:555-636 | a batch is created if and only if some available positive credit of the asked hosts exists and the sum of these is not negative as an int64 |
| `LedgerBatches.CreateReserves` | internal/coordinator/ledger/store.go:555-636 | the new draft is worth the payable holds, has one pending item for each of them with its host and amount, reserves exactly these and posts nothing |
| `LedgerBatches.ExportExports` | internal/coordinator/ledger/store.go:638-704 | exporting a draft makes it and each of its items exported and changes nothing else; exporting any other batch changes nothing; only an unknown batch is refused |
| `LedgerBatches.FileListsItems` | internal/coordinator/ledger/store.go:649-678 | the file has one row per item of the batch that is not void, with its host and amount, in order |
| `LedgerBatches.ConfirmPays` | internal/coordinator/ledger/store.go:706-832 | a confirmation that goes through was of an exported batch and makes the batch, its items and its holds paid, and no other row |
| `LedgerBatches.DraftPaysOut` | internal/coordinator/ledger/store.go:638-832 | a draft that is exported and confirmed with the exported file goes through when its worth fits an int64: batch and holds paid, each host and the cash account moved by exactly its items, no other account moved |
| `LedgerBatches.VoidVoids` | internal/coordinator/ledger/store.go:497-553 | voiding voids batch and items, frees reserved holds, reverses paid ones, changes no other row, and posts nothing for an unpaid batch |
| `LedgerBatches.VoidReverses` | internal/coordinator/ledger/store.go:437-553 | voiding a paid batch posts one reversal that names its payout and takes it back on every account |
| `LedgerRuns.StepKeepsInv` | internal/coordinator/ledger/store.go:143-832 | every ledger step keeps the whole invariant |
| `LedgerRuns.EveryRunReconciles` | internal/coordinator/ledger/store.go:143-832 | in every state of every run: per host pending balance = -pending holds, available balance = -(available, promised and reversed holds), cash = -paid holds; every transaction sums to zero |
| `LedgerRuns.StepMovesHold` | internal/coordinator/ledger/store.go:341-832 | the only ways a hold moves; it leaves pending only by a release dated at or after its release time |
| `LedgerRuns.PaidOnce` | internal/coordinator/ledger/store.go:497-553 | in every run a paid hold stays with its batch, is never paid again, and once reversed never moves |
| `LedgerRuns.NoCreditPromisedTwice` | internal/coordinator/ledger/store.go:555-636 | a hold is in at most one non-void item, and in none while pending, available or reversed |
| `LedgerRuns.TotalIsWorth` | internal/coordinator/ledger/store.go:606-636 | a live batch's holds and items are worth the same; the recorded total equals it if and only if it fits an int64, and always once paid |
| `LedgerRuns.ConfirmAccepts` | internal/coordinator/ledger/store.go:706-816 | a well-formed confirmation is accepted if and only if the batch's worth fits an int64 and per-host totals agree modulo 2^64, whatever the order or splitting of rows |
| `LedgerRuns.ConfirmAcceptsExactTotals` | internal/coordinator/ledger/store.go:706-816 | with differences below 2^64, if and only if the per-host totals are equal |
| `LedgerRuns.OverstatedConfirmationPasses` | internal/coordinator/ledger/store.go:730-759 | rows that overstate one host by 2^64 are accepted |
| `LedgerRuns.ExportedFileConfirms` | internal/coordinator/ledger/store.go:638-760 | the rows an export writes confirm their batch if and only if its worth fits an int64 |
| `LedgerRuns.ContributionIsMarginLessVerification` | internal/coordinator/ledger/store.go:834-875 | a report comes out if and only if every cell of its window fits an int64; revenue is then what customers were charged, host credits what hosts were credited and failed attempts those given, and contribution is the margin of acceptances less verification cost, modulo 2^64 |
| `LedgerEffects.AcceptanceMoves` | internal/coordinator/ledger/store.go:143-257 | at any price: posted if and only if not posted before, no hold, no overhead and a credit that is not negative; then customer, host and margin move by charge, credit and their difference |
| `LedgerEffects.AcceptanceWithOverhead` | internal/coordinator/ledger/store.go:177-231 | one microdollar of overhead: the entries sum to two and the posting is refused |
| `LedgerEffects.AcceptanceCountedOnce` | internal/coordinator/ledger/store.go:190-200 | a posted acceptance is the job's only one |
| `LedgerEffects.VoidUndoesConfirm` | internal/coordinator/ledger/store.go:497-553 | voiding right after confirming restores every account balance |
| `LedgerEffects.VoidUndoesCreate` | internal/coordinator/ledger/store.go:497-553 | voiding an unpaid batch gives back every hold as it was and posts nothing |
| `LedgerStore.EntryTotal` | migrations/000001_initial_schema.up.sql:370-405 | the loop computes the sum the balance check compares with zero |
| `LedgerStore.ExpectedTotals` | internal/coordinator/ledger/store.go:730-744 | the loop builds per-host totals of the exported items |
| `LedgerStore.Subtract` | internal/coordinator/ledger/store.go:745-754 | the loop takes each row off its host's total, wrapping |
| `LedgerStore.Compare` | internal/coordinator/ledger/store.go:730-759 | true if and only if every host's rows and items cancel in int64 arithmetic |
| `LedgerStore.ReserveCredits` | internal/coordinator/ledger/store.go:606-625 | the loop reserves the holds, adds their items and totals them |
| `LedgerStore.WriteRows` | internal/coordinator/ledger/store.go:649-678 | the loop writes the non-void items of the batch in order |
| `LedgerStore.SettleItems` | internal/coordinator/ledger/store.go:775-806 | the loop debits each exported item, marks it paid and totals the cash |
| `LedgerStore.Store.constructor` | internal/coordinator/ledger/store.go:143-257 | a new store stands for the empty ledger |
| `LedgerStore.Store.PostAcceptedJob` | internal/coordinator/ledger/store.go:143-257 | commits exactly the specified posting, the one `LedgerHolds.AcceptanceAdds` and `LedgerEffects.AcceptanceMoves` pin, or leaves the ledger as it was |
| `LedgerStore.Store.PostVerificationOverhead` | internal/coordinator/ledger/store.go:259-339 | commits exactly the specified posting, the one `LedgerHolds.VerificationAdds` and `LedgerHolds.VerificationPostedIff` pin, or leaves the ledger as it was |
| `LedgerStore.Store.PromoteAvailableCredits` | internal/coordinator/ledger/store.go:341-416 | the loop releases exactly the due holds and counts them |
| `LedgerStore.Store.CreatePayoutBatch` | internal/coordinator/ledger/store.go:555-636 | creates exactly the specified batch (`LedgerBatches.CreateSucceedsIff`, `LedgerBatches.CreateReserves`) or refuses without effect |
| `LedgerStore.Store.ExportPayoutBatch` | internal/coordinator/ledger/store.go:638-704 | returns the batch's rows and marks a draft and its items exported (`LedgerBatches.ExportExports`, `LedgerBatches.FileListsItems`) |
| `LedgerStore.Store.ConfirmPayoutBatch` | internal/coordinator/ledger/store.go:706-832 | settles exactly as specified (`LedgerBatches.ConfirmPays`, `LedgerRuns.ConfirmAccepts`) or leaves the ledger as it was |
| `LedgerStore.Store.VoidPayoutBatch` | internal/coordinator/ledger/store.go:497-553 | voids exactly as specified, with a reversal for a paid batch (`LedgerBatches.VoidVoids`, `LedgerBatches.VoidReverses`) |
| `JobsBilling.StepRow` | internal/coordinator/jobs/store.go:653-944 | no step changes an attempt's identity or deadlines or lets its status fall, and timing facts survive |
| `JobsBilling.StatusOnlyClimbs` | internal/coordinator/jobs/store.go:653-944 | over every run an attempt's status only climbs offered, accepted, running, then succeeded, verified, expired or cancelled, then failed |
| `JobsBilling.StepKeepsBilling` | internal/coordinator/jobs/store.go:703-822 | every step keeps results and acceptances equal in number per job, at most one each |
| `JobsBilling.StepKeepsTables` | internal/coordinator/jobs/store.go:598-1035 | every step keeps the rows consistent: whatever is succeeded has its accepted result |
| `JobsBilling.ExactlyOnceBilling` | internal/coordinator/jobs/store.go:703-822 | in every state of every run each job has at most one accepted result and one posted acceptance, one if and only if the other, and the ledger is reconciled |
| `JobsBilling.BilledIffResult` | internal/coordinator/jobs/store.go:703-822 | a job has a posted acceptance if and only if it has an accepted result |
| `JobsBilling.CompletionAcceptedIff` | internal/coordinator/jobs/store.go:703-811 | at any price, exactly when a completion is accepted: an accepted or running attempt of its job, in time, no result yet, no credit yet, storable counts, and a price at which the credit is not negative |
| `JobsBilling.PostingAcceptedIff` | internal/coordinator/jobs/store.go:785-811 | exactly when the posting inside a completion goes through |
| `JobsBilling.SucceededWasInTime` | internal/coordinator/jobs/store.go:653-811 | whatever is succeeded was accepted by the lease's end and two seconds after creation, and finished by its deadline |
| `JobsBilling.OneSuccessPerJob` | migrations/000001_initial_schema.up.sql:229-231 | two succeeded attempts of a job are one; the unique index never decides |
| `JobsBilling.DoneIsBilledInEveryRun` | internal/coordinator/jobs/store.go:703-822 | in every run a job shown as succeeded has an accepted result |
| `JobsOutcome.StaysDoneIff` | internal/coordinator/jobs/store.go:598-1035 | a step leaves a succeeded job succeeded if and only if it is neither a failure report that gets through nor the offer of a further standard attempt |
| `JobsOutcome.StaysUndone` | internal/coordinator/jobs/store.go:703-822 | a billed job that is no longer shown as succeeded never is again |
| `JobsOutcome.ShownAsSucceededIff` | internal/coordinator/jobs/store.go:853-882 | in every run a billed job is shown as succeeded if and only if neither of the two has come since its bill |
| `JobsOutcome.BilledThenFailed` | internal/coordinator/jobs/store.go:853-882 | five steps from the empty store bill a job and then show it as failed, bill and result untouched |
| `JobsCredits.CompletionCredits` | internal/coordinator/jobs/store.go:703-822 | an accepted completion grants one pending hold, to the node of its own attempt; that node's pending balance, the balance of the job's customer and the margin move, and no other account |
| `JobsCredits.OverheadPostedIff` | internal/coordinator/jobs/store.go:946-965 | a verification cost is posted if and only if it names an attempt of its job, there is a price at which the credit is not negative, and that attempt has no credit |
| `JobsCredits.OverheadCredits` | internal/coordinator/jobs/store.go:946-965 | it grants one pending hold to the node of the verification attempt, books its amount as verification cost, and changes nothing else |
| `JobsCredits.EveryHoldNamesItsAttempt` | internal/coordinator/jobs/store.go:703-965 | in every state of every run every hold names an existing attempt, and its job and node are that attempt's |
| `JobsCredits.CreditIsHeld` | internal/coordinator/jobs/store.go:703-822 | in every run the credit of an accepted completion is pending if and only if no promotion since was dated the hold length, the configured one or 24 hours, after the completion |
| `JobsLives.AttemptAfterStep` | internal/coordinator/jobs/store.go:653-1035 | for every step and attempt: which steps bring it into each status and which leave it there, both ways, and when it was accepted and finished |
| `JobsLives.OfferedRow` | internal/coordinator/jobs/store.go:620-651 | a new attempt is an open offer with the job, node, kind, lease, deadline and time it was given |
| `JobsLives.JobAfterStep` | internal/coordinator/jobs/store.go:598-1035 | for every step and job: which steps bring it into each state and which leave it there, both ways; customer and request never change |
| `JobsLives.CreatedJob` | internal/coordinator/jobs/store.go:598-618 | a new job is queued with its customer and request |
| `JobsLives.OpenIff` | internal/coordinator/jobs/store.go:620-1035 | in every run an attempt is offered, accepted or running if and only if no step since its creation has ended it |
| `JobsLives.CancelEndsAttempts` | internal/coordinator/operator/store.go:749-776 | after an operator's cancel no attempt of the job is active, those that were are cancelled, every other attempt is as it was, and the job is cancelled unless succeeded |
| `CustomerBills.OtherStepsAreFree` | internal/coordinator/ledger/store.go:259-832 | no ledger step but an acceptance moves a customer balance |
| `CustomerBills.BalanceIsBills` | internal/coordinator/jobs/store.go:703-822 | in every run a customer balance is the sum of its bills, and there are as many as accepted results of its jobs |
| `CustomerBills.CustomersArePricedFairly` | internal/coordinator/ledger/store.go:177-183 | in every run a customer is charged at most one microdollar per accepted result above the unrounded price, at any price, and with prices in range at most that below it |
| `HostEarnings.CreditsAreEarnings` | internal/coordinator/jobs/store.go:703-965 | in every run the holds of a host are those of the work accepted from it, completions and checks: as many, and worth the same |
| `HostEarnings.EarnedIsOwedOrPaid` | internal/coordinator/ledger/store.go:143-832 | in every run, for every host: what it has earned is its pending balance, its payable balance and what it has been paid, together |
| `HostEarnings.HostsArePaidFairly` | internal/coordinator/ledger/store.go:177-183 | in every run a host is credited at most half a microdollar a piece above the unrounded price, at any price, and with prices in range at most that below it |
| `JobsBilling.ExpiredIdsExact` | internal/coordinator/jobs/store.go:1012-1035 | the returned attempts are exactly the overdue offers, each once |
| `JobStore.ExpireRows` | internal/coordinator/jobs/store.go:1012-1035 | the update expires exactly the overdue offers and lists them |
| `JobStore.Store.constructor` | internal/coordinator/jobs/store.go:598-618 | a new store over an empty ledger stands for the empty state |
| `JobStore.Store.CreateJob` | internal/coordinator/jobs/store.go:598-618 | appends a queued job and returns its identifier |
| `JobStore.Store.CreateAttempt` | internal/coordinator/jobs/store.go:620-651 | appends an offered attempt and leases the job, or refuses an unknown job |
| `JobStore.Store.CreateVerificationAttempt` | internal/coordinator/jobs/store.go:884-904 | appends an offered verification attempt and leaves the job's state alone |
| `JobStore.Store.MarkAccepted` | internal/coordinator/jobs/store.go:653-678 | accepts inside lease and two-second window only, otherwise no effect |
| `JobStore.Store.MarkStarted` | internal/coordinator/jobs/store.go:680-701 | starts an accepted or running attempt, otherwise no effect |
| `JobStore.Store.CompletionGuards` | internal/coordinator/jobs/store.go:703-770 | passes only when every guard holds; an error means the completion is refused for any price |
| `JobStore.Store.CompleteJob` | internal/coordinator/jobs/store.go:703-822 | result, attempt, job and ledger change together as specified, or nothing changes; when, for whom and how long it credits is `JobsBilling.CompletionAcceptedIff`, `JobsCredits.CompletionCredits`, `JobsCredits.CreditIsHeld` |
| `JobStore.Store.FailAttempt` | internal/coordinator/jobs/store.go:824-851 | fails an active attempt and requeues the job, or refuses an unknown attempt without effect |
| `JobStore.Store.FailJob` | internal/coordinator/jobs/store.go:853-882 | fails job and named attempt in any state, or refuses an unknown attempt without effect |
| `JobStore.Store.MarkVerificationAttemptCompleted` | internal/coordinator/jobs/store.go:906-924 | verifies an accepted or running attempt only |
| `JobStore.Store.MarkVerificationAttemptFailed` | internal/coordinator/jobs/store.go:926-944 | fails an active attempt only |
| `JobStore.Store.PostVerificationOverhead` | internal/coordinator/jobs/store.go:946-965 | posts the specified cost (`JobsCredits.OverheadPostedIff`, `JobsCredits.OverheadCredits`) or leaves everything as it was |
| `JobStore.Store.CancelJob` | internal/coordinator/jobs/store.go:967-980 | cancels the owner's queued or leased job only |
| `JobStore.Store.ExpireLeases` | internal/coordinator/jobs/store.go:1012-1035 | expires exactly the overdue offers and returns them |
| `JobStore.Store.OperatorCancelJob` | internal/coordinator/operator/store.go:749-776 | cancels the job unless succeeded, and its active attempts (`JobsLives.CancelEndsAttempts`) |
| `JobStore.Store.OperatorRetryJob` | internal/coordinator/operator/store.go:778-798 | requeues a failed or cancelled job only |
| `Dispatch.Filter` | internal/coordinator/jobs/service.go:138-151 | what remains are usable candidates, and nothing remains if and only if none is usable |
| `Dispatch.Choose` | internal/coordinator/jobs/service.go:152-152 | some member of the list, and none if and only if it is empty |
| `Dispatch.LeaseEnd` | internal/coordinator/jobs/service.go:162-165 | a lease ends after the offer, whatever the configured length |
| `Dispatch.VerificationDeadline` | internal/coordinator/jobs/service.go:543-546 | a check is due within thirty seconds, and within a shorter synchronous timeout |
| `DispatchStore.HistoryIsRun` | internal/coordinator/jobs/service.go:75-581 | every history of the service is a run of the store from the empty one: handlers change rows through store steps only |
| `DispatchStore.BillingInEveryHistory` | internal/coordinator/jobs/service.go:75-581 | in every history, whatever the messages say, billing is exactly once and the ledger reconciled |
| `DispatchExclusive.AttemptsGrow` | internal/coordinator/jobs/store.go:620-651 | only the two offering steps add an attempt, one row for their own job and node |
| `DispatchExclusive.EventExclusive` | internal/coordinator/jobs/service.go:75-581 | every handler keeps nodes exclusive, whatever the message says |
| `DispatchExclusive.NodesAreExclusive` | internal/coordinator/jobs/service.go:109-225 | in every history no node has two attempts offered, accepted or running, retries inside lease expiry and verification attempts included |
| `DispatchReservations.ReservationsAreSound` | internal/coordinator/jobs/service.go:75-581 | in every history, whatever the messages say, a reserved node has a session and is reserved for an attempt of that job on that node |
| `DispatchReservations.EventIsSound` | internal/coordinator/jobs/service.go:75-581 | every handler keeps that, a lost session and the retry it occasions included |
| `DispatchAttempts.ExpiredSparesOthers` | internal/coordinator/jobs/service.go:196-225 | handling one expired lease leaves every other job's run and attempts alone |
| `DispatchAttempts.AttemptShape` | internal/coordinator/jobs/service.go:105-208 | expiring other leases first does not spoil a job that may be scheduled |
| `DispatchAttempts.FailureShape` | internal/coordinator/jobs/service.go:459-495 | a failure, retried or final, keeps all attempt bounds |
| `DispatchAttempts.CompletionShape` | internal/coordinator/jobs/service.go:325-373 | a completion, with the verification it may start, keeps all attempt bounds |
| `DispatchAttempts.VerdictShape` | internal/coordinator/jobs/service.go:375-435 | a verification verdict posts at most the one cost its job has left |
| `DispatchAttempts.ShapeInEveryHistory` | internal/coordinator/jobs/service.go:75-581 | all attempt bounds hold in every history of messages that name attempts of their own jobs, and those about nodes when they also come from the attempt's node |
| `DispatchAttempts.AttemptsAreBounded` | internal/coordinator/jobs/service.go:97-225 | as long as messages name attempts of their own jobs, whoever sends them: at most two standard attempts and one verification attempt per job, and no more verification costs than that |
| `DispatchAttempts.RetriesGoElsewhere` | internal/coordinator/jobs/service.go:482-495 | two standard attempts of a job are on different nodes when messages come from the attempt's node |
| `DispatchAttempts.ResultsAreCheckedElsewhere` | internal/coordinator/jobs/service.go:497-581 | a verification attempt exists only for an accepted result and is never on the node that produced it |
| `DispatchAttempts.IgnoredCheckFailsBilledJob` | internal/coordinator/jobs/service.go:210-225 | a verification offer left to expire turns its billed job into a failed one; ledger and result stay |
| `DispatchTries.FailureTries` | internal/coordinator/jobs/service.go:459-495 | a failure gives its job a third standard attempt if and only if it overtakes an overdue offer whose retry goes through; otherwise no job gets beyond two by it |
| `DispatchTries.NeverFourTimes` | internal/coordinator/jobs/service.go:97-225 | in every history, whatever the messages say, no job has a fourth standard attempt |
| `DispatchTries.ThirdAttemptIff` | internal/coordinator/jobs/service.go:109-225 | in every history a job has a third standard attempt if and only if some failure of it overtook its overdue offer |
| `DispatchChecks.ChecksAreBounded` | internal/coordinator/jobs/service.go:375-581 | in every history, whatever the messages say: no more verification costs than verification attempts, no more of these than accepted results, at most one of those per job |
| `DispatchChecks.CheckedBySomeoneElse` | internal/coordinator/jobs/service.go:497-581 | in every history, whatever the messages say, a verification attempt was occasioned by an accepted completion of its job and is not on the node that reported it |
| `DispatchOvertake.ThirdAttempt` | internal/coordinator/jobs/service.go:274-324 | seven events, the last a failure report that names another job's attempt, give a job a third standard attempt |
| `DispatchCredits.OwnRequestIff` | internal/coordinator/jobs/service.go:341-346 | in every history a completion is checked against its job's own request if and only if the run is there or that request is empty |
| `DispatchCredits.ChecksUseTheirJobsRequest` | internal/coordinator/jobs/service.go:375-435 | in every history a verification attempt is checked against the request of the job it checks |
| `DispatchCredits.CreditsAreBounded` | internal/coordinator/jobs/service.go:325-435 | in every history every hold was earned by a completion that passed the check and is bounded by the limit of the request it was checked against |
| `DispatchInstances.CreditBeyondTheRequest` | internal/coordinator/jobs/service.go:341-346 | five events credit a host for 2064 tokens of a job that asked for ten |
| `DispatchFates.UsableIff` | internal/coordinator/jobs/service.go:138-151 | a candidate is usable if and only if its node is connected by its session, has no attempt in progress, and is neither reserved nor excluded |
| `DispatchFates.ScheduleFate` | internal/coordinator/jobs/service.go:109-194 | a run is offered to some usable candidate if there is one and to nobody if there is none; delivered, it is leased with its row, reservation and count; undelivered, the row is failed, the job queued and the node free |
| `DispatchFates.ChatFate` | internal/coordinator/httpapi/public.go:164-182 | once overdue leases are handled, a request is failed with no run and no attempt if and only if no candidate is usable, leased to a usable one with one open attempt if and only if there is one and the offer is delivered, and queued without a run if and only if there is one and it is not |
| `DispatchFates.ChatFateAtOnce` | internal/coordinator/httpapi/public.go:164-182 | with no lease overdue, the same judged by the service as the request finds it |
| `DispatchFates.ChatFateInHistory` | internal/coordinator/httpapi/public.go:164-182 | the fate of every request of every history |
| `DispatchFates.LeasesLeaveAlone` | internal/coordinator/jobs/service.go:196-225 | handling leases leaves row, run and attempts of a job without offers as they were |
| `DispatchFates.FinalFailureFate` | internal/coordinator/jobs/service.go:459-480 | a failure that is final, has no run or has been tried twice: the node is free, job and attempt are failed, the run is gone, nothing else changes |
| `DispatchFates.RetriedFate` | internal/coordinator/jobs/service.go:459-495 | one that may be retried: the attempt failed, the node excluded and free; after leases the job is leased to a usable candidate if and only if there is one and it is delivered, and otherwise failed with its run gone |
| `DispatchFates.ExpiredFate` | internal/coordinator/jobs/service.go:210-225 | an expired offer: leased to a usable candidate on another node, or failed with its run gone |
| `DispatchFates.TimeoutFate` | internal/coordinator/httpapi/public.go:200-204 | a wait that is over fails the job and ends its run, and leaves attempts, results and ledger alone |
| `DispatchFates.AcceptedFate` | internal/coordinator/jobs/service.go:325-373 | an accepted completion: job succeeded, one result more, run gone, sender free; checked on a usable node other than the producer, due in thirty seconds or the shorter timeout, if and only if it is sampled, had a run, and such a node exists |
| `DispatchFates.RefusedFate` | internal/coordinator/jobs/service.go:358-362 | a completion the store refuses frees its sender and changes nothing else |
| `DispatchFates.ImplausibleFate` | internal/coordinator/jobs/service.go:325-357 | one that does not verify or is not plausible fails job and attempt and ends the run |
| `DispatchFates.VerdictFate` | internal/coordinator/jobs/service.go:375-435 | a check is passed if and only if it verifies, is plausible and has the same content; its cost is posted when it verifies and is plausible, whatever its content |
| `DispatchFates.CheckRefusedFate` | internal/coordinator/jobs/service.go:274-324 | a refused check fails its open attempt, frees the sender and leaves the job alone |
| `DispatchFates.DetachFate` | internal/coordinator/jobs/service.go:80-95 | losing a replaced session changes nothing, losing an idle one drops just that session |
| `DispatchService.FilterCandidates` | internal/coordinator/jobs/service.go:138-151 | the filtering loop keeps exactly the usable candidates, in order |
| `DispatchService.Dispatcher.constructor` | internal/coordinator/jobs/service.go:657-673 | a new service over an empty store is idle |
| `DispatchService.Dispatcher.AttachSession` | internal/coordinator/jobs/service.go:75-80 | the node's session becomes this one |
| `DispatchService.Dispatcher.DetachSession` | internal/coordinator/jobs/service.go:80-95 | only the current session is dropped, and its job treated as a transient failure |
| `DispatchService.Dispatcher.OfferJob` | internal/coordinator/jobs/service.go:152-194 | reservation, attempt row and delivery, with both ways back |
| `DispatchService.Dispatcher.ScheduleInternal` | internal/coordinator/jobs/service.go:109-194 | one scheduling attempt as specified, with its outcome |
| `DispatchService.Dispatcher.ExpireLeases` | internal/coordinator/jobs/service.go:196-208 | the loop handles every expired lease in order |
| `DispatchService.Dispatcher.HandleExpiredAttempt` | internal/coordinator/jobs/service.go:210-225 | retry elsewhere or give the job up (`DispatchFates.ExpiredFate`) |
| `DispatchService.Dispatcher.PrepareRetry` | internal/coordinator/jobs/service.go:482-495 | allowed if and only if a run with fewer than two attempts exists; then the node is excluded |
| `DispatchService.Dispatcher.ScheduleAttempt` | internal/coordinator/jobs/service.go:105-117 | leases are expired before the job is scheduled |
| `DispatchService.Dispatcher.HandleAttemptFailure` | internal/coordinator/jobs/service.go:459-480 | a failure is retried once elsewhere or ends the job (`DispatchFates.RetriedFate`, `DispatchFates.FinalFailureFate`) |
| `DispatchService.Dispatcher.Schedule` | internal/coordinator/httpapi/public.go:164-182 | a synchronous request is created, registered and scheduled, failed when no node is free, or dropped (`DispatchFates.ChatFate`) |
| `DispatchService.Dispatcher.AbandonWait` | internal/coordinator/httpapi/public.go:200-204 | a request that timed out loses its run and its job fails (`DispatchFates.TimeoutFate`) |
| `DispatchService.Dispatcher.HandleRejectedOrFailed` | internal/coordinator/jobs/service.go:274-324 | a refusal of a verification attempt or of a standard one |
| `DispatchService.Dispatcher.StartDuplicate` | internal/coordinator/jobs/service.go:497-581 | a verification attempt on some usable node other than the producer |
| `DispatchService.Dispatcher.HandleDuplicateCompletion` | internal/coordinator/jobs/service.go:375-435 | checked against the request of the job it checks: the verdict on the attempt, and the cost when the completion is plausible |
| `DispatchService.Dispatcher.HandleCompleted` | internal/coordinator/jobs/service.go:325-373 | verification, plausibility against the run's request or an empty one, completion and sampling in the code's order |
| `DispatchService.Dispatcher.RequestFor` | internal/coordinator/jobs/service.go:341-345 | the run's request, or the empty one when there is no run |
| `DispatchService.Dispatcher.Finish` | internal/coordinator/jobs/service.go:358-370 | billing, then a check if there is a run and it is sampled, then the run goes |
| `Agent.Forced` | internal/node/agent/agent.go:669-687 | guards reach a state if and only if the transition is legal or the state is one of four; otherwise nothing changes |
| `AgentSafety.StepKeepsInv` | internal/node/agent/agent.go:542-1075 | every section, those of start-up and of resumes included, keeps the guard invariant |
| `AgentSafety.GuardsHoldInEveryRun` | internal/node/agent/agent.go:542-611 | in every run AVAILABLE means thermal state normal and last schedule in window unless a job is held and no pause requested; BUSY means a job; a job held is worked on |
| `AgentSafety.ClaimDecidedBy` | internal/node/agent/agent.go:820-860 | in every run a claim's thermal check never decides, and its schedule check only while a job is held |
| `AgentSafety.PauseHolds` | internal/node/agent/agent.go:1000-1063 | from a pause to the next resume's beginning the request stands and no job but the one held then can be held, whatever earlier resumes do |
| `AgentSafety.NoClaimWhilePaused` | internal/node/agent/agent.go:820-860 | between a pause and the beginning of the next resume every offer is refused without effect |
| `AgentSafety.GuardsRestorePause` | internal/node/agent/agent.go:542-611 | a heartbeat, a pause or the beginning of a resume puts the state in line with the request |
| `AgentRaces.RequestedIff` | internal/node/agent/agent.go:1000-1034 | the agent is asked to pause if and only if some pause has come since the last beginning of a resume |
| `AgentRaces.HeldIff` | internal/node/agent/agent.go:820-877 | the agent holds a job if and only if one was taken and none has ended since |
| `AgentRaces.AvailableAndPausedIff` | internal/node/agent/agent.go:1032-1063 | an available agent is asked to pause if and only if a resume begun before the pause ended after it, or start-up went through over an early pause, and nothing has heeded it since |
| `AgentRaces.AvailableWhilePaused` | internal/node/agent/agent.go:233-262 | five steps: start-up overruns a pause |
| `AgentRaces.FailedResumeAtStart` | internal/node/agent/agent.go:1041-1050 | seven steps: a resume that fails before the first start-up transition lets start-up overrun the pause |
| `AgentRaces.PausedWhileLoading` | internal/node/agent/agent.go:1041-1063 | ten steps: a pause while a resume loads the runtime is overrun by its last section |
| `AgentRaces.AvailableWithJobIff` | internal/node/agent/agent.go:1032-1063 | an available agent holds a job if and only if a resume begun before the job was taken ended while it was held and everything since has left it at that |
| `AgentRaces.AvailableMeans` | internal/node/agent/agent.go:542-611 | an available agent is thermally normal, and has no job and is in its window if and only if there was no such race |
| `AgentRaces.ClaimedWhileResuming` | internal/node/agent/agent.go:1051-1063 | seven steps: an offer taken between the sections of a resume leaves an available agent with a job |
| `AgentRaces.AvailableOutOfWindow` | internal/node/agent/agent.go:576-584 | a heartbeat outside the window then leaves it available |
| `AgentRaces.ReplacesIff` | internal/node/agent/agent.go:820-860 | an offer replaces a job that is held if and only if it passes the other checks in that state |
| `AgentRaces.OneJobIff` | internal/node/agent/agent.go:820-877 | at most one job is worked on at a time up to any state of any run if and only if no offer before it replaced a job |
| `AgentRaces.TwoJobsAtOnce` | internal/node/agent/agent.go:820-860 | nine steps lead to two jobs worked on at once |
| `AgentRaces.JobChangesOnlyBy` | internal/node/agent/agent.go:820-877 | the job held changes only when a job ends or an unpaused available agent takes an offer |
| `AgentSafety.ThermalTraceLaw` | internal/node/agent/agent.go:613-642 | after any readings: hard limit if and only if the last reached it; not normal if and only if some reading exceeded the limit and all since stayed above the recovery point |
| `AgentSafety.ThermalStateOfARun` | internal/node/agent/agent.go:885-907 | in every run the thermal state is what the rule gives for all readings, the job monitor's included |
| `AgentSafety.HotAgentsTakeNoWork` | internal/node/agent/agent.go:820-860 | while the readings say hot every offer is refused without effect |
| `AgentWork.LegalInto` | internal/node/state/state.go:23-60 | the table of legal transitions, read by destination |
| `AgentWork.AvailableAfterHeartbeatIff` | internal/node/agent/agent.go:542-611 | available after a heartbeat if and only if not asked to pause, the reading leaves it thermally normal, and it is free, in window and was available or was idle or draining with a complete runtime, or it holds a job and was available |
| `AgentWork.PausedAfterHeartbeatIff` | internal/node/agent/agent.go:542-611 | paused after a heartbeat if and only if asked to and free, or paused before and not running hot with a job |
| `AgentWork.DrainingAfterHeartbeatIff` | internal/node/agent/agent.go:542-611 | draining after a heartbeat if and only if it holds a job and is asked to pause or hot, or was draining and nothing ends it |
| `AgentWork.IdleAfterHeartbeatIff` | internal/node/agent/agent.go:542-611 | idle after a heartbeat: exactly when |
| `AgentWork.HeartbeatKeeps` | internal/node/agent/agent.go:542-611 | everything else a heartbeat changes: schedule, temperature, and the runtime of an agent paused for its idle time |
| `AgentWork.RecoversIff` | internal/node/agent/agent.go:542-642 | in every run a free, unpaused, idle or draining agent with its runtime loaded is available after a heartbeat in the window if and only if the readings so far no longer say hot |
| `AgentWork.RecoversAtOnce` | internal/node/agent/agent.go:542-642 | in every run a waiting agent waits through all heartbeats of a hot spell and is available after the first that ends it |
| `AgentWork.StopsIff` | internal/node/agent/agent.go:542-642 | a free available agent goes idle at a heartbeat if and only if the readings say hot or it is out of its window, and stays available otherwise |
| `AgentWork.JobEnds` | internal/node/agent/agent.go:862-877 | when a job ends the agent holds none; it is paused, available or idle exactly as pause, schedule, temperature and its state before say |
| `AgentWork.ReadyForTheNext` | internal/node/agent/agent.go:820-877 | in every run a job that is taken and ends undisturbed leaves the agent as it was, ready for the next |
| `AgentWork.OfferTaken` | internal/node/agent/agent.go:820-860 | an offer that passes makes the agent busy with its job; any other changes nothing |
| `AgentWork.PauseTakes` | internal/node/agent/agent.go:1000-1020 | a pause takes at once: paused without a job, draining with one |
| `AgentWork.ResumeAlone` | internal/node/agent/agent.go:1032-1063 | an undisturbed resume clears the request and, without a job, makes the agent available or idle by schedule and temperature, with the runtime it had or the one prepared |
| `AgentWork.ResumeFails` | internal/node/agent/agent.go:1045-1050 | a resume whose runtime cannot be prepared ends in error |
| `AgentWork.Overheats` | internal/node/agent/agent.go:885-930 | a job's monitor that sees the hard limit makes the agent hot and draining |
| `AgentWork.StartsUp` | internal/node/agent/agent.go:233-275 | an undisturbed start-up ends available with the prepared runtime, a failed one in error |
| `AgentWork.ShutsDown` | internal/node/agent/agent.go:262-290 | stopping takes the agent offline whatever it was doing |
| `AgentProcess.Process.constructor` | internal/node/agent/agent.go:222-230 | a new agent is offline, unpaused, in window and thermally normal |
| `AgentProcess.Process.ForceState` | internal/node/agent/agent.go:669-687 | the forced transition as specified |
| `AgentProcess.Process.TransitionTo` | internal/node/agent/agent.go:1065-1075 | succeeds if and only if the transition is legal, otherwise no effect |
| `AgentProcess.Process.ReadThermal` | internal/node/agent/agent.go:613-642 | the hysteresis rule |
| `AgentProcess.Process.ApplyGuards` | internal/node/agent/agent.go:555-585 | the switch over pause, temperature and schedule as specified; what it comes to for each state is `AgentWork.AvailableAfterHeartbeatIff` and its three companions |
| `AgentProcess.Process.EvaluateGuards` | internal/node/agent/agent.go:542-591 | schedule and temperature first, then the guards, then unloading an idle runtime; that a cooled-down agent is available again is `AgentWork.RecoversIff` |
| `AgentProcess.Process.ClaimJob` | internal/node/agent/agent.go:820-860 | claims if and only if every check passes, otherwise no effect |
| `AgentProcess.Process.ReleaseJob` | internal/node/agent/agent.go:862-877 | the state after a job depends on pause, schedule and temperature (`AgentWork.JobEnds`) |
| `AgentProcess.Process.MonitorJobThermal` | internal/node/agent/agent.go:885-930 | acts if and only if the reading reaches the hard limit |
| `AgentProcess.Process.HandlePause` | internal/node/agent/agent.go:1000-1020 | paused, or draining with a job |
| `AgentProcess.Process.BeginResume` | internal/node/agent/agent.go:1032-1052 | the first section: the request is cleared, and the job and the runtime decide what is left to do |
| `AgentProcess.Process.RuntimePrepared` | internal/node/agent/agent.go:1045-1050 | the section after preparing the runtime: the new runtime, or the error state where that is legal |
| `AgentProcess.Process.EndResume` | internal/node/agent/agent.go:1054-1062 | the last section: available or idle by schedule and temperature alone |
| `Locks.Program` | internal/coordinator/registration/pgstore.go:205-249 | the rows a call locks are in order, nodes first |
| `Locks.NoDeadlock` | internal/coordinator/registration/pgstore.go:228-245 | in every lock state with unfinished ordered transactions some transaction can step |
| `Locks.EveryScheduleFinishes` | internal/coordinator/registration/pgstore.go:205-321 | no schedule exceeds the work there is, it finishes exactly when that is done, and until then it can go on |
| `Locks.CallsFinish` | internal/coordinator/operator/store.go:571-596 | the same for any number of heartbeat, close and drain calls, within three steps each |
| `Locks.LocksExclude` | internal/coordinator/registration/pgstore.go:205-321 | in every schedule no row is locked twice |
| `Locks.OppositeOrderDeadlocks` | internal/coordinator/registration/pgstore.go:323-343 | a heartbeat and a sweep of its session reach a deadlock |
| `LocksSweep.SweepGetsStuckIff` | internal/coordinator/registration/pgstore.go:323-343 | any number of calls and a sweep can come to wait for each other if and only if some call locks a node and a session the sweep locks too |
| `LocksSweep.DoomedForever` | internal/coordinator/registration/pgstore.go:323-343 | two transactions that wait for each other do so for ever, whatever the rest does |
| `LocksSweep.SweepFinishes` | internal/coordinator/registration/pgstore.go:205-343 | without such a call every schedule of calls and sweep finishes |
| `Ulid.EncodingIsOrderPreserving` | internal/shared/ids/ids.go:57-67 | for all 16-byte values strings compare as the numbers do and are equal only for equal bytes |
| `Ulid.RoundTrip` | internal/shared/ids/ids.go:57-67 | decoding an encoded value gives the value back |
| `Ulid.AlphabetIsCrockford` | internal/shared/ids/ids.go:57-67 | the digits are 0 to 9 and the capital letters without I, L, O and U |
| `Ulid.WriteDigits` | internal/shared/ids/ids.go:61-66 | the loop over two words writes the base-32 digits, last to first |
| `Ulid.EncodeCrockford128` | internal/shared/ids/ids.go:57-67 | the result is the 26-digit encoding of the 128-bit number |
| `Ulid.ShiftsAreDivisions` | internal/shared/ids/ids.go:63-65 | the divisions and the addition of the model move every bit of the two words as the shifts, the mask and the `or` do |
| `Ulid.ShiftOut` | internal/shared/ids/ids.go:62-66 | one round writes the last digit and shifts the two words five bits down |
| `Ulid.EncodeTimeEntropy` | internal/shared/ids/ids.go:44-55 | the clock's low 48 bits above the entropy, encoded |
| `Ulid.IdOrder` | internal/shared/ids/ids.go:17-55 | ids with one prefix compare by the clock modulo 2^48, then by entropy |
| `Ulid.IdsSortByTime` | internal/shared/ids/ids.go:17-55 | below 2^48 milliseconds ids with one prefix sort by time |
| `Ulid.ClockStartsOver` | internal/shared/ids/ids.go:44-55 | at 2^48 milliseconds an id sorts before the first millisecond's |
| `NodeConfig.Normalise` | internal/node/config/config.go:73-100 | the defaults filled in by saving |
| `NodeConfig.NormalisedLaws` | internal/node/config/config.go:73-100 | saving again changes nothing; which fields get which default, and when; the hard limit exceeds the limit if and only if the default does not overflow |
| `NodeConfig.SavedText` | internal/node/config/config.go:103-116 | the saved file line by line |
| `NodeConfig.QuoteRoundTripIff` | internal/node/config/config.go:105-115 | a string survives quoting and stripping if and only if it has no quote and no backslash |
| `NodeConfig.AtoiDecimal` | internal/node/config/config.go:105-115 | every int64 reads back from its decimal form |
| `NodeConfig.ParseFile` | internal/node/config/config.go:153-218 | the line loop parses as specified, first error first |
| `NodeConfig.SkippedOrBroken` | internal/node/config/config.go:159-171 | blank lines and comments say nothing; any other line without an equals sign is an error |
| `NodeConfig.LineAssigns` | internal/node/config/config.go:163-215 | a line assigns what is right of its first equals sign, without quotes, to the field its key names; unknown keys and malformed numbers are errors |
| `NodeConfig.WrittenReadsBack` | internal/node/config/config.go:159-171 | written lines within the buffer read back as their keys and values |
| `NodeConfig.LoadRereads` | internal/node/config/config.go:153-218 | what loading gives for every saved file, whatever the loader started from and whether a fraction of a second is cut off or rounded up |
| `NodeConfig.SaveThenLoadIff` | internal/node/config/config.go:73-218 | loading gives exactly the normalised configuration if and only if texts have no quote or backslash, their lines fit and durations are whole seconds, however fractions are rounded |
| `NodeConfig.FractionIsLost` | internal/node/config/config.go:103-116 | a heartbeat of one and a half seconds comes back as one second or two |
| `ModelCache.EvictionIsLru` | internal/node/models/cache.go:191-203 | the loop removes the shortest oldest-first prefix of the non-active files that brings the rest within quota, stopping at a file that cannot be removed |
| `ModelCache.LruIsUnique` | internal/node/models/cache.go:191-203 | only one removal fits that definition |
| `ModelCache.EvictionLaws` | internal/node/models/cache.go:188-203 | nothing goes within quota, no removed file is younger than an evictable one that stays, the active file stays, the last removal was needed |
| `ModelCache.CacheAfterEviction` | internal/node/models/cache.go:155-204 | the directory holds exactly the bytes counted, keeps the active file, and fits the quota or holds no other listed model |
| `ModelCache.SortByAge` | internal/node/models/cache.go:188-190 | some oldest-first arrangement of the same files |
| `ModelCache.Scan` | internal/node/models/cache.go:170-187 | the listed model files and their bytes, or failure if and only if one of them can no longer be read |
| `ModelCache.RemoveOldest` | internal/node/models/cache.go:191-203 | the loop removes exactly the specified files and its running total is what is left |
| `ModelCache.Cache.Evict` | internal/node/models/cache.go:155-204 | scan, sort and remove; without a positive quota nothing happens, and nothing is removed when the directory or a listed model cannot be read |
| `RateLimits.NewSliding` | internal/coordinator/httpapi/waitlist.go:24-37 | limit and window as given when positive, otherwise five and a minute |
| `RateLimits.RemembersTheWindow` | internal/coordinator/httpapi/waitlist.go:39-64 | as far as the window reaches, the remembered hits are the accepted ones |
| `RateLimits.RefusedIffFull` | internal/coordinator/httpapi/waitlist.go:39-64 | a call is let through if and only if fewer than limit accepted hits lie in its window |
| `RateLimits.WindowHoldsTheLimit` | internal/coordinator/httpapi/waitlist.go:39-64 | any half-open interval of the window's length holds at most limit accepted hits of a key |
| `RateLimits.Compact` | internal/coordinator/httpapi/waitlist.go:50-56 | the loop keeps exactly the hits after the cutoff |
| `RateLimits.SlidingLimiter.constructor` | internal/coordinator/httpapi/waitlist.go:24-37 | a new limiter has seen no call |
| `RateLimits.SlidingLimiter.Allow` | internal/coordinator/httpapi/waitlist.go:39-64 | decides and remembers as specified |
| `RateLimits.MinuteHoldsTheLimit` | internal/coordinator/jobs/apikey.go:38-59 | no minute that starts on the minute admits more than the limit |
| `RateLimits.AdmittedIff` | internal/coordinator/jobs/apikey.go:38-59 | a call is let through if and only if there is no limit or fewer calls of its key than that got through in its minute |
| `RateLimits.AtMostTwiceTheLimit` | internal/coordinator/jobs/apikey.go:38-59 | any interval of a minute's length admits at most twice the limit |
| `RateLimits.TwiceTheLimitIsReached` | internal/coordinator/jobs/apikey.go:38-59 | for every limit some calls reach twice the limit within two nanoseconds |
| `RateLimits.MinuteLimiter.constructor` | internal/coordinator/jobs/apikey.go:26-36 | a new limiter has seen no call |
| `RateLimits.MinuteLimiter.Allow` | internal/coordinator/jobs/apikey.go:38-59 | decides and counts as specified |

## Left out

- HTTP handlers, sessions over WebSocket, JSON schemas, command line, web console, status pages and reports other than the economics report.
- Signatures, hashes and random identifiers: whether a completion verifies is an input.
- Database details: isolation levels, foreign-key share locks, connection errors, column widths of durations; a transaction is one atomic step except in the lock model.
- The order in which queries return rows: releasable and payable holds come in any order; expired leases come in table order.
- Interleaving inside one service handler: the eligibility read, the reservation and the insert are one step.
- DispatchAttempts.AttemptsAreBounded: messages are taken to name an attempt of their own job, and `DispatchOvertake.ThirdAttempt` shows that they must; late, repeated and reordered messages are covered. `DispatchTries.ThirdAttemptIff` and `DispatchChecks.ChecksAreBounded` say what holds without that.
- DispatchAttempts.ShapeInEveryHistory: the same messages, with or without the sender's node; it is the induction behind the bounds.
- DispatchAttempts.RetriesGoElsewhere: messages are taken to come from the attempt's node as well, since it is the sender's node that a retry excludes.
- DispatchAttempts.ResultsAreCheckedElsewhere: messages are taken to come from the attempt's node as well; `DispatchChecks.CheckedBySomeoneElse` says what holds without that.
- Free-standing reversals and postings outside `CompleteJob`: no caller in production, and they would break the correspondence with holds and results.
- Idempotency records, reputation rates, alert thresholds and scheduler scores.
- CSV text: payout rows are pairs of host and amount, and a row is malformed or not.
- Text outside printable ASCII in the configuration file, environment overrides, and the data directory.
- NodeConfig.LoadRereads: which fractions the float64 rounds up to the next second is left open; every choice is covered.
- ModelCache.Scan: the total is unbounded; the code adds sizes in an int64.
- Prefix checks of identifiers and the entropy source.
- Window arithmetic of the schedule: the agent is given in window or out of window.
- The agent's status file, heartbeat payloads, safety events and cancellation of the running job's context.
- More than one stale-session sweep at a time: the sweeper runs them one after another.
- A zero deadline and its default of 120 seconds: every caller passes a deadline.
- Which session an offer comes from: an offer may come at any time once there are sessions, although a session handles one job at a time and a second offer during a job takes a new session.
