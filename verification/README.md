# Proofwork rail: a verified model

Proofwork holds a buyer's money, hands jobs to workers, verifies their results, and pays
or refunds. This project models the parts that do this and proves what they keep over every
run. A reader who wants one file should open `RailResults.dfy`: it states what holds in
every reachable state of the whole rail, each result under the hypotheses its invariant needs.

`dafny verify dfyconfig.toml` checks everything.

## How it is laid out

| file | what it is about |
|---|---|
| `Common`, `Calendar`, `Decimal` | options and results; the proleptic Gregorian calendar of section 21.4.1 of ECMA-262; decimal text |
| `FeeSplit`, `FeeBound` | the fee split of the server and the preview the form shows; for which rates the split stays within a cent |
| `Outbox`, `Queue` | rows of `outbox_events`, and several workers that claim, handle, crash, retry and dead-letter |
| `Work` | jobs, submissions, verification attempts, reputation |
| `Pay` | payouts, disputes and the events that drive them |
| `Ledger` | accounts, billing events, reservations, spend limits |
| `Rail`, `RailSteps` | all tables and one clock; one step for each transaction, handler and worker action; the hypotheses; what each step leaves alone |
| `RailFunds`, `RailOnce`, `RailPay`, `RailBudget`, `RailJobs`, `RailMoney` | the inductive invariants, each kept by every step under its own hypotheses: none; H2; H6; H7; H8; H2 and H9, with H1 and H7 besides |
| `RailSafety` | all of them together, the attempts under H4 and H5, and what the hypotheses entail |
| `RailHistory`, `RailResults`, `RailTrace` | what a row may turn into later; the main results; counting along a run |
| `RailLimits`, `RailReclaim`, `RailRenewal`, `RailExample` | what each hypothesis is exactly needed for; when a second pass loses a payout; what else it breaks; a concrete run that reaches each failure |
| `RailLeases`, `RailTokens`, `RailPayouts`, `RailDisputes`, `RailBalances` | when exactly, and by which step, a job, a submission, a claim token, a payout, a dispute or a balance changes, and to what; each is stated over the steps of `Rail` in terms of the rows before and the request, with the constants written out |
| `RailProgress`, `RailStuck` | what can be brought to an end: an open job leads to a paid worker, a dispute to a refund; which due payouts can still be paid and which are stuck for good |
| `Store` | the same tables as fields of one object, changed in place by one method for each transaction and handler; any calls on it are a run of `Rail` |
| `SubmitRetry` | the submit handler write by write, cut anywhere and retried |
| `RateLimit`, `Selection`, `Archive`, `Descriptor` | the token bucket; the job selection loop; the archive cursor; the form that fills a descriptor in place |

A row's id is its position in its table. Time is in integer milliseconds and never runs
backwards. Nonces and claim tokens come from counters, which stands for their being
unique. The payment provider answers paid or failed, or throws, as it likes.

## The hypotheses

Some conditions are not enforced by the code. Each is a predicate a caller can check before
the step (`Rail.Meets` collects those that are asked for), except H3.

- H1, `Rail.ReservationOpen`: no pass creates a payout for a bounty whose reservation is
  released.
- H2, `Rail.DisputeIsFirst`: no dispute is opened on a payout that was refunded.
- H3: no break-glass endpoint runs. There is no step for one.
- H4, `Rail.ClaimIsEnqueued`: a verifier claim names an attempt that was enqueued.
- H5, `Rail.ClaimIsOpen`: a verifier claim does not name an attempt whose verdict is in.
- H6, `Rail.PassIsFirst`: a pass lands on a submission that has no payout yet.
- H7, `Rail.JobIsPaidOnce`: a pass creates no payout for a job that has one for another
  submission.
- H8, `Rail.VerdictIsInOrder`: a verdict does not reopen a job that is done, nor end one
  that has no submission.
- H9, `Rail.FeeStays`: a pass leaves the Proofwork fee of a refunded payout as it is.

H4 and H5 are about verifiers, H6 to H9 about what goes wrong when they break: in the runs of
a deployment H4 entails H7, H4 and H5 entail H6 and H8, and H6 entails H9
(`RailResults.HypothesesEntail`). So everything below holds under H1, H2, H4 and H5 in particular. "Reachable under" some of them
means reached from empty tables by steps that met those. What is proved of the rail rests on

- none: conservation and non-negative balances, spend limits, whole splits, one credit for
  each Stripe event, closed disputes that refund nothing, old nonces and old claim tokens that do
  nothing, reputation, and what each step changes of jobs, submissions, payouts, disputes and
  balances;
- H2: a payout is never both refunded and paid, nor refunded twice;
- H6: no payout is lost or executed early, no dispute is forgotten, no refund comes before the
  hold is over;
- H7: the payouts of a bounty fit its reservation;
- H8: one active job, jobs that end for good, the limit on open jobs;
- H2 and H9: the refunds booked for a payout add up to gross less fee;
- H1, H2, H7 and H9: what a bounty holds covers what it owes;
- H4 and H5: attempts in order, bounded verdicts.

## Where the code falls short, and exactly when

- H1 is exact for the first payout of a job. `setBountyStatus` releases what is not committed
  while jobs may still be under verification; a later pass leaves the bounty short unless the
  payout is zero (`RailLimits.FirstPassKeepsSolventIff`). For any pass: the bounty stays
  covered if and only if what the pass adds to the need is within what is reserved and neither
  committed nor released (`RailLimits.PassKeepsSolventIff`).
- H9 is exact. A pass on a submission whose payout was refunded rewrites the fee the refund
  left out; then the refund booked is no longer gross less fee
  (`RailLimits.PassKeepsRefundsIff`), and a larger fee may not be covered
  (`RailExample.RefundedFeeGrows`).
- H2 is exact. `createDispute` refuses paid payouts but not refunded ones, and
  `handlePayoutRequested` does not look for `refunded`; a buyer who disputes a refunded
  payout and withdraws keeps the refund while the worker is paid
  (`RailLimits.DisputeMayPayRefundedIff`).
- H4 and H5 together are exact for keeping the attempts in order
  (`RailLimits.ClaimKeepsFullIff`).
- H6: a pass on a submission that has a payout moves the payout's hold but not its event.
  The payout may then never be made, if and only if it is due and unblocked, the rates are
  legal, the bounty has a window, and the event may come before the new hold is over: it is
  pending for an earlier time, its lock times out earlier, or a worker has it in hand, not
  handled yet or failed and to be retried (`RailReclaim.PassLosesPayoutIff`). In all other
  cases it still waits, over every later run under H6. Claiming a finished attempt again
  leads there (`RailExample.ReclaimedPayoutIsLost`), also when nothing is paid yet and the
  next attempt is passed later (`RailExample.LatePassIsLost`). A second pass also puts a payout
  that was executed on hold again (`RailRenewal.PassBreaksExecutedIff`), moves the hold
  (`RailRenewal.PassMovesHoldIff`), and lets a dispute open on a payout that failed or whose
  event a worker has in hand (`RailRenewal.DisputeIsKeptIff`).
- A payout whose event was dead-lettered is never paid again, unless a worker still has the event
  in hand, not handled or failed and to be retried, or the hold still runs, so that a dispute that is
  withdrawn has it asked for anew; in every other case it can be paid (`RailStuck.CanBePaidIff`,
  under H6).
- H7: a pass that creates a second payout for a job puts the bounty's payouts beyond its
  reservation if and only if the payout is not zero and every job of the bounty has a payout
  (`RailLimits.PassFitsBudgetIff`). A submission left behind by a refused artifact, claimed
  although it was never enqueued, leads there (`RailExample.UnqueuedClaimPaysTwice`).
- H8 is exact for keeping jobs in order (`RailLimits.VerdictKeepsOrderIff`).
- A pass with illegal rates ends the job and then throws, so no payout is made: a pass leads
  to a payout if and only if the rates are legal or the submission has one already
  (`RailLimits.PassIsPaidIff`).
- A submit that is found to be a duplicate and dies between inserting the submission and
  ending the job is verified like any other when it is retried
  (`SubmitRetry.RetryHealsIff`).
- The preview in the form rounds where the server floors. The preview is within one cent of
  the exact share; the server's net is less than two cents above it, and less than one cent
  whatever the gross is if and only if the platform takes nothing or what Proofwork leaves
  divides the whole (`FeeBound.AlwaysWithinACentIff`); with Proofwork's one percent, only if
  the platform takes nothing. The preview never promises more than is paid
  (`FeeSplit.PreviewNeverOverpromises`).
- A higher priority decides which job is offered exactly when payouts and required proofs
  are bounded as `Selection.SmallEnough` says.
- Deleting rejected calls changes no later answer of the rate limiter even when timestamps
  run backwards (`RateLimit.RejectedLeaveNoTrace`).

## Model

| member | source | states |
|---|---|---|
| RailResults.FundsAreConserved | src/store.ts:1521-1596 | in every state any run reaches a balance is not negative, is the opening balance plus the account's billing events, and with what the org's bounties hold is the opening balance plus top-ups |
| RailResults.HeldFundsSuffice | src/store.ts:1665-1716 | under H1, H2, H7 and H9 what a bounty holds (reserved less released less refunded) covers the gross of its payouts that are not refunded and the fee of those that are, never exceeds the reservation, and is exactly that need once the rest is released |
| RailResults.SplitsAddUp | src/store.ts:2714-2752 | on every run every payout is of the amount its bounty offers and splits that amount whole, through insert, conflict update with the amount passed in, and the handler's rewrite; refund and retained fee are the gross |
| RailResults.RefundedExactlyOnce | src/store.ts:3417-3465 | under H2 and H9 the refunds booked for a payout add up to gross less fee if it is refunded and to nothing if it is not |
| RailResults.RefundExcludesPayment | src/store.ts:3394-3509 | under H2 alone, over any later run a paid payout is not refunded or disputed and a refunded one is not paid; at most one refund is ever credited, none to a paid payout, and none more once it is settled |
| RailResults.CreditedIsRefunded | src/store.ts:3421-3465 | under H2 alone, a payout has at most one refund credited, and is refunded if it has one |
| RailResults.StripeCreditsOnce | src/server.ts:2152-2223 | on every run, however often an event is delivered, what is credited for its id is its amount if the first delivery was a paid and complete checkout for an account that existed, and nothing otherwise |
| RailResults.NoPayoutIsLost | workers/handlers.ts:112-119 | under H6 a payout that is due and unblocked has its event pending, processing or dead-lettered; a blocked one has an open dispute whose refund event is still to be delivered |
| RailResults.HoldNeverSwallows | workers/handlers.ts:118-119 | under H6 a worker that may handle a payout event finds the hold over and no dispute open, so no handler that returns leaves the payout due |
| RailResults.OpenDisputeIsNotForgotten | src/store.ts:3236-3283 | under H6, while a dispute is open it is the only one, its payout is blocked by it, the payout's event is sent and in no worker's hands, and while the payout is due the refund event is undelivered; with H2 the payout is due |
| RailResults.ExecutedAfterHold | workers/handlers.ts:118-119 | under H6 every payout that is paid or failed has its hold behind it |
| RailResults.HoldSeparates | src/store.ts:3221-3223 | under H6 a dispute is opened strictly before the hold ends, the hold stays, and in any later state the disputed payout is executed only if that moment has passed |
| RailResults.ClosedDisputeRefundsNothing | workers/handlers.ts:401-415 | from any state and over any run, the refund event of a dispute that is resolved or cancelled changes nothing, even while a newer dispute is open on the payout |
| RailResults.OneActiveJob | src/store.ts:1308-1361 | under H8 a worker has at most one job that is under verification or leased to it with time left |
| RailResults.JobsEndForGood | src/server.ts:4106-4132 | under H8 done and expired jobs stay so over any later run; open and claimed jobs have no submission; a job's submission never changes |
| RailResults.OldNonceFreesNothing | src/store.ts:1363-1381 | on every run, once a lease has ended, a release with its nonce changes nothing, whoever holds the job by then |
| RailResults.AttemptsAreASequence | src/server.ts:4108-4130 | under H4 and H5 attempts of a submission are numbered 1 to k within the limit, all but the last ended inconclusive, and the job is done exactly when the last is finished |
| RailResults.QuotasHold | src/store.ts:1527-1557 | on every run net spend of any UTC day and month never exceeds the org's limits; under H8 neither does the number of its open jobs |
| RailSafety.ReachableIsSafe | src/server.ts:4008-4132 | a state reached under some hypotheses is one reached under those that follow from them (H7 from H4, H6 and H8 from H4 and H5), with every invariant these give |
| RailResults.HypothesesEntail | src/server.ts:4008-4132 | a state reached under H4 is reached under H7, one under H4 and H5 also under H6 and H8, and one under H6 under H9 |
| RailFunds.StepKeepsFunds | src/store.ts:1485-1718 | every step at all keeps the books in order, jobs generated once, every payout whole and of its bounty's amount, and every payout and dispute with the bounty and org it belongs to |
| RailFunds.RunKeepsFunds | src/store.ts:1485-1718 | so does every run, from any state in which it holds |
| RailOnce.StepKeepsOnce | src/store.ts:3394-3509 | a step that opens no dispute on a refunded payout keeps refund and block together, open disputes single, credits single and only of refunded payouts, and changes no settled payout |
| RailOnce.RunKeepsOnce | src/store.ts:3394-3509 | so does every run under H2 |
| RailPay.StepKeepsPay | workers/handlers.ts:112-415 | a step whose pass, if it is one, lands on a submission without a payout keeps payouts, disputes, events and what workers hold in agreement |
| RailPay.RunKeepsPay | workers/handlers.ts:112-415 | so does every run under H6 |
| RailJobs.StepKeepsOrder | src/server.ts:3534-4132 | a step that meets H8 keeps jobs consistent, one active job for each worker, open jobs within their quota and paid jobs done |
| RailMoney.StepKeepsRefunds | src/store.ts:3417-3465 | a step that meets H9 keeps what is booked for each payout equal to what it is refunded, where refunds block as they do under H2 |
| RailMoney.StepKeepsHeld | src/store.ts:1665-1716 | one that meets H1 besides keeps what each bounty holds equal to what was put aside for it less refunds, where no job has two payouts |
| RailBudget.BudgetAlwaysSuffices | src/store.ts:1606-1652 | in every state reached under H7 the gross of a bounty's payouts fits its reservation |
| RailBudget.PayoutsFitJobs | src/store.ts:2717-2752 | a bounty has at most as many payouts as jobs, and as many exactly when each of its jobs is paid |
| RailFunds.RepublishIsFree | src/store.ts:1498-1500 | publishing a bounty that has jobs succeeds, neither debits nor reserves, and generates no job |
| RailBudget.StepKeeps | src/store.ts:1485-1655 | a step that creates no second payout for a job leaves no job with payouts for two submissions |
| RailSafety.StepIsSafe | src/store.ts:1657-1718 | a step that meets some hypotheses keeps the invariants that need no others: books, splits and links always, and refunds, payouts, budget, jobs, attempts and held money each under theirs |
| RailSafety.RunIsSafe | src/store.ts:1657-1718 | so does every run, and it meets the hypotheses that follow as well |
| RailHistory.StepFollows | src/store.ts:3394-3575 | after any step books, disputes, leases, and the purpose and amount of payouts are what the old ones may turn into; after one that meets H8 so are job states, with H6 holds and paid payouts are unchanged, and with H2 refunded ones stay so |
| RailHistory.RunFollows | src/store.ts:3394-3575 | after any run no event, reservation or Stripe credit has changed, closed disputes are closed and paid payouts paid; under H8 done and expired jobs are what they were, under H6 no hold has changed, under H2 refunded payouts stay so |
| RailTrace.ReputationCounts | src/store.ts:1957-1971 | along any run alpha grows by the passes given to a worker's submissions and beta by all other verdicts |
| RailTrace.PassRateIsProper | src/store.ts:1973-1977 | in any run the expected pass rate lies strictly between 0 and 1 and is (passes + 2) / (verdicts + 4) |
| RailTrace.VerdictsAreBounded | src/server.ts:4106-4132 | under H4 and H5 a submission gets at most max(1, MAX_VERIFICATION_ATTEMPTS) verdicts, and its job is done by then |
| RailPayouts.StatusChangesIff | workers/handlers.ts:112-398 | a payout becomes paid exactly when a worker that has its event asks the provider (due or failed or refunded, not blocked, hold over, legal rates, wallet set) and it says paid, failed exactly when it says failed, refunded exactly when a dispute open on it is refunded; nothing else changes its status |
| RailPayouts.HandlerThrowsIff | workers/handlers.ts:112-398 | the handler throws, so that its event is retried, exactly when the payout is to be paid but the provider could not be asked or threw |
| RailPayouts.RefundHandlerThrowsIff | workers/handlers.ts:401-415 | the refund handler throws exactly when the database fails it; every refusal counts as done |
| RailPayouts.EndsAsAnswered | workers/handlers.ts:388-398 | over any run a payout is paid, or failed, only if the provider said so at some step, and refunded only if a dispute on it was refunded; none becomes due again |
| RailPayouts.SplitChangesIff | workers/handlers.ts:371-385 | the provider is asked to pay the split of the payout's amount at the rates of that moment, and only a pass on its submission rewrites the split besides |
| RailPayouts.RefundEventWaits | src/store.ts:3265-3282 | under H6 the refund event of an open dispute is not available before its payout's hold is over |
| RailPayouts.AutoRefundWaits | workers/handlers.ts:401-415 | under H6 a refund handler that changes payouts or books does so once the hold is over: until then the admin and the buyer decide |
| RailDisputes.DisputeOpensIff | src/store.ts:3165-3282 | under H6 a dispute is opened exactly when its org owns the payout that is named, by itself or its submission, and that is not paid, during its hold and with no dispute open; its event is then taken back and the refund asked for at the moment the hold ends |
| RailDisputes.DisputesChangeIff | src/store.ts:3303-3575 | a dispute is cancelled exactly by its own org and resolved exactly by an upholding or a refund; a payout is blocked exactly by opening a dispute on it, freed exactly by a withdrawal or an upholding, and blocked for good exactly by a refund |
| RailDisputes.FreedIsAskedAgain | src/store.ts:3323-3374 | a payout that is freed is asked for again when its hold ends, or at once if that is past, and its event keeps the attempts it has used |
| RailDisputes.RefundTakesEvent | src/store.ts:3467-3473 | a refund takes the payout's own event away, whatever worker has it locked |
| RailDisputes.OpenRefusals | src/store.ts:3211-3231 | on every run a dispute on an existing payout is refused for exactly the reason that holds: another org's, paid, never on hold, no longer on hold, disputed already |
| RailDisputes.MissingRefusals | src/store.ts:3210-3219 | on every run a dispute on what has no payout is refused for want of the target, or of the payout |
| RailDisputes.CloseRefusals | src/store.ts:3303-3417 | on every run a withdrawal or decision is refused for exactly the reason that holds |
| RailDisputes.PassRequestsPayout | src/server.ts:4135-4145 | under H6 a pass that counts, on a submission without a payout and at legal rates, creates the payout of that worker with the bounty's amount, split at those rates, on hold for the bounty's window, and its event available when the hold ends |
| RailTokens.OtherTokenTakesNothing | src/server.ts:4059-4066 | a verdict with another claim token than the attempt's changes nothing |
| RailTokens.OldTokenTakesNothing | src/server.ts:4059-4066 | on every run, a token that was replaced by a later claim never counts again |
| RailTokens.ForeignTokenTakesNothing | src/server.ts:4059-4066 | on every run, a token that was given to no one, or for another attempt, counts for nothing |
| RailTokens.ClaimIsGivenIff | src/server.ts:4008-4030 | on every run an attempt gets a new token exactly by a claim of it while no other claim runs; the token is fresh and good for the time asked |
| RailTokens.VerdictCountsIff | src/server.ts:4059-4105 | on every run an attempt is finished exactly by a verdict with its own token before the claim is over, and attempt and submission then say what the verdict was |
| RailLeases.JobChangesIff | src/server.ts:3534-4132 | status and lease of a job after any step: leased for twenty minutes exactly by the claim of a worker who has none, when it is open or timed out; open again exactly by its holder's release with the nonce; expired exactly by a reap after its time; under verification or done exactly by its holder's submission in time and the verdicts on it |
| RailLeases.ExpiresOnlyWhenReaped | src/store.ts:3599-3609 | over any run a job is expired only if some step reaped it when its lease was over |
| RailLeases.ReleasedJobCanBeClaimed | src/store.ts:1363-1381 | a job its holder releases is open, and the next claim of any worker without a job, himself included, leases it |
| RailLeases.LeaseLasts | src/store.ts:1308-1361 | under H8, until its time is over a leased job stays with its worker, unless he gives it back or hands in himself |
| RailLeases.SubmissionsChangeIff | src/server.ts:3802-3996 | on every run a submission is kept exactly when the job's holder sends something new in time that is fresh and of an allowed origin, even if its artifacts are refused; what was sent never changes, and its status only by a verdict that counts |
| RailLeases.LeaseReplies | src/server.ts:3534-3607 | claims and releases are accepted exactly when they change the job, and refused for the reason that holds |
| RailLeases.SubmitRefusals | src/server.ts:3802-3900 | each refusal of a submit is given exactly when its reason holds: no such job, not the holder, too late, too long a key, stale, of another origin, another content under the same key, or artifacts that cannot be attached |
| RailLeases.SubmitReplies | src/server.ts:3802-3996 | the holder in time is told exactly whether his submission is new, a duplicate, or there already |
| RailLeases.VerdictReplies | src/server.ts:4059-4152 | a verdict is answered by what became of the job, or refused for the reason that holds: no such attempt, a wrong token, finished already, or too late |
| RailLeases.VerifierReplies | src/server.ts:4008-4030 | a verifier's claim is accepted exactly when no other claim of the attempt runs |
| RailBalances.PublishSucceedsIff | src/store.ts:1485-1655 | on every run a bounty is published exactly when its price, if not reserved yet, is within what its org may spend in the UTC day and month and within its balance, and its jobs, if not generated yet, within the quota; then price and jobs are reserved and generated, each once |
| RailBalances.PublishRefusals | src/store.ts:1485-1624 | on every run a publish is refused for exactly the reason that holds, in the order day, month, balance, quota |
| RailBalances.TopUpRefusals | src/server.ts:4485-4530 | a top-up is refused exactly when it is not positive or its org is unknown |
| RailBalances.CloseReleases | src/store.ts:1657-1718 | on every run closing a bounty releases its reservation and gives back what is reserved and not committed, the first time and no other |
| RailBalances.BountiesChangeIff | src/store.ts:1485-1718 | on every run a bounty starts as a draft, and is published, paused and closed exactly by the step that does so; nothing else of it ever changes |
| RailBalances.StripeRecords | src/server.ts:2152-2238 | on every run a delivery is recorded once, as processed exactly when it credits |
| RailBalances.StripeCreditsExactly | src/server.ts:2191-2216 | on every run the first delivery of a paid and complete checkout for an account that exists raises that balance and what is booked for its id by exactly its amount; every other delivery changes no balance |
| RailBalances.StepBooks | src/store.ts:1485-1718 | on every run every step books the one event that the request and the rows before call for, of that amount and at that time, or none |
| RailBalances.BalanceMovesByBooking | src/server.ts:4485-4530 | on every run a balance moves by what the step books for its org and by nothing else: a top-up raises it by its cents, a refund by gross less fee, a publish lowers it by the price |
| RailProgress.EventComesUp | workers/outbox-lib.ts:34-75 | an event that is pending, or locked by a worker that died, is in some worker's hands after some run, and only time has passed |
| RailProgress.AskedIsAnswered | workers/handlers.ts:112-398 | a due payout whose event is to come gets, on some run, whatever answer the provider gives |
| RailProgress.DisputeRefundsItself | workers/handlers.ts:401-415 | a dispute nobody acts on ends, on some run, with the payout refunded, the dispute resolved and gross less fee credited to the buyer |
| RailProgress.FreedIsPaid | src/store.ts:3323-3374 | a dispute that is withdrawn or decided for the worker leads, on some run, to the payout being paid |
| RailProgress.OpenJobIsPaid | src/server.ts:3534-4152 | under H4 and H5, from every state reached, a worker without a job can take any open one, hand in, be passed and be paid what its bounty offers |
| RailStuck.StuckForGood | workers/outbox-lib.ts:111-130 | under H6 a due payout whose hold is over, whose event is dead and which nobody will retry stays so over every run |
| RailStuck.CanBePaidIff | workers/outbox-lib.ts:111-171 | under H6 a due and unblocked payout can be paid on some run if and only if its event is not dead, a worker has it in hand, not handled yet or failed and to be retried, or the hold still runs |
| RailLimits.PassKeepsSolventIff | src/server.ts:4135-4145 | after any pass the bounty covers its payouts if and only if what the pass adds to their need, a payout or the growth of a refunded payout's fee, is within what is reserved and neither committed nor released |
| RailLimits.FirstPassKeepsSolventIff | src/server.ts:4135-4145 | for the first payout of a job that is so if and only if the reservation is open or the payout is zero |
| RailLimits.PassKeepsRefundsIff | src/store.ts:2732-2752 | a verdict keeps the refunds booked for all payouts exact if and only if it leaves the fee of a refunded payout as it is |
| RailLimits.PassIsPaidIff | src/server.ts:4106-4145 | on any run a pass ends the job, and its submission then has a payout if and only if the rates are legal or it had one |
| RailLimits.PassFitsBudgetIff | src/server.ts:4135-4145 | a pass leaves the gross of its bounty within the reservation if and only if it creates no second payout for its job, the payout is zero, or some job of the bounty has no payout |
| RailLimits.VerdictKeepsOrderIff | src/server.ts:4100-4132 | a verdict keeps jobs in order and those that are over as they are if and only if it meets H8 |
| RailLimits.DisputeMayPayRefundedIff | src/store.ts:3215-3231 | under H2 so far, after a dispute is opened the payout can be refunded and then paid if and only if it was refunded already |
| RailLimits.PaidAfterRefund | src/store.ts:3303-3374 | the run that does it: withdraw, wait, pay; the refund stays booked |
| RailLimits.ClaimKeepsFullIff | src/server.ts:4008-4030 | a verifier claim keeps the attempts in order if and only if it names no known submission or an attempt that is enqueued and not finished |
| RailReclaim.PassLosesPayoutIff | src/store.ts:2732-2752 | after a pass on a submission that has a payout, some run under H6 loses the payout if and only if it is due and unblocked, the rates are legal, the window is not zero and the event may come before the new hold ends |
| RailReclaim.RunWaits | workers/handlers.ts:112-119 | where it may not, the payout goes on waiting for its event over every run under H6 |
| RailReclaim.HandledEarlyIsLost | workers/handlers.ts:119 | an event that is handled before its payout's hold is over ends as sent while the payout is still due and unblocked |
| RailReclaim.ClaimedEarlyIsLost | workers/outbox-lib.ts:34-75 | an event that can be claimed before the hold is over is claimed then, and lost |
| RailReclaim.RetriedInDisputeIsLost | workers/outbox-lib.ts:147-171 | a failed handler that reports during a dispute puts the event back, the next worker finds the payout blocked, the dispute is withdrawn before it reports, and the payout is lost |
| RailRenewal.PassBreaksExecutedIff | src/store.ts:2732-2752 | after a second pass some run under H6 shows a payout executed before its hold is over if and only if it was executed already, the rates are legal and the window is not zero |
| RailRenewal.PassMovesHoldIff | src/store.ts:2732-2752 | a second pass moves the hold if and only if its rates are legal and the new hold is another |
| RailRenewal.DisputeIsKeptIff | src/store.ts:3215-3283 | a dispute opened after a second pass is kept as under H6 if and only if the payout did not fail and no worker has its event in hand |
| RailExample.PassAfterCloseIsUncovered | src/store.ts:1665-1716 | a reachable state in which H1 fails and the bounty is left short |
| RailExample.SecondDisputePaysRefunded | src/store.ts:3215-3231 | a reachable state in which H2 fails and a refunded payout is paid |
| RailExample.ReclaimedPayoutIsLost | src/server.ts:4010-4027 | a reachable state in which H5 fails and a payout is lost |
| RailExample.LatePassIsLost | src/server.ts:4010-4027 | a reachable state without a payout in which H5 fails once, and the payout that the next attempt finds later is lost |
| RailExample.RefundedFeeGrows | src/store.ts:2732-2752 | a reachable state with a refunded payout in which H5 fails, a second pass at a larger fee breaks H9, the refund is no longer what was booked and the bounty is short |
| RailExample.UnqueuedClaimPaysTwice | src/server.ts:4008-4027 | a reachable state in which H4 fails, so that both submissions of a job are passed, which breaks H7, and the gross exceeds the reservation |
| Work.ClaimJobKeepsFull | src/server.ts:3534-3570 | a claim, refused or not, keeps the jobs consistent and one active job for each worker |
| Work.ClaimJobKeepsOneActive | src/store.ts:1317-1352 | a lease that is given leaves the worker with that one active job |
| Work.ReleaseJobKeeps | src/server.ts:3573-3607 | a release, refused or not, keeps the jobs consistent, the attempts in order and one active job for each worker |
| Work.ReapKeeps | src/store.ts:3599-3609 | reaping expires only jobs without a submission, and keeps the same |
| Work.SubmitFindsClaimed | src/server.ts:3806-3823 | a submit that writes anything finds the job leased to its worker, in time and without a submission |
| Work.SubmitKeeps | src/server.ts:3802-3996 | a submit keeps the jobs consistent and the attempts in order |
| Work.VerifierClaimKeepsFull | src/server.ts:4008-4030 | a claim of an enqueued, unfinished attempt finds it the last one and keeps the attempts in order |
| Work.MaxAttemptIsLargest | src/server.ts:4108-4113 | the attempt number read back is the largest there is |
| Work.TakeVerdictEffect | src/server.ts:4073-4132 | what a verdict that is taken writes: the attempt finished, the next one queued if it was inconclusive and attempts remain, else the job done |
| Work.TakeVerdictKeepsFull | src/server.ts:4059-4132 | a verdict on an unfinished attempt finds it the last and the job under verification, and keeps the attempts in order |
| Pay.RequestPayoutKeeps | src/server.ts:4135-4145 | the payout and its event agree when they are created |
| Pay.OpenDisputeKeeps | src/store.ts:3165-3301 | a dispute on a due payout blocks it and takes its event away together, and no worker holds that event |
| Pay.OpenAlone | src/store.ts:3225-3231 | an open dispute is the only one on its payout |
| Pay.FreeKeeps | src/store.ts:3321-3374 | withdrawing or upholding puts the payout's event back no earlier than the hold ends |
| Pay.RefundKeeps | src/store.ts:3456-3495 | a refund is final, closes the dispute and takes the payout's event away |
| Pay.ResolveDisputeKeeps | src/store.ts:3394-3575 | a resolution, refused or not, keeps payouts, disputes and events in agreement and leaves the dispute closed |
| Pay.ClaimEventsKeeps | workers/outbox-lib.ts:34-75 | claiming a batch, stale locks released first, keeps payouts, disputes, events and what workers hold in agreement |
| Pay.ClaimedHeldOk | workers/outbox-lib.ts:53-62 | an event is claimed only once its payout's hold is over, and not while a dispute is open |
| Pay.HandlePayoutKeeps | workers/handlers.ts:112-385 | executing a payout keeps that agreement, whatever the provider answers and however stale the claim; a handler that returns leaves no payout due |
| Pay.AckEventKeeps | workers/outbox-lib.ts:147-171 | acknowledging, rescheduling or dead-lettering keeps it too; an event marked sent belongs to a payout that is no longer due or a dispute that is closed |
| Pay.CrashKeeps | workers/outbox-lib.ts:37-50 | a worker that dies at any moment loses no payout and no refund |
| Pay.GrossIsNumberTimes | src/store.ts:1671-1680 | the committed sum of a bounty is its payout times the number of its payouts |
| Pay.NeedIsGrossLessRefunds | src/store.ts:3418-3419 | what payouts still need is their gross less what was refunded |
| Ledger.SpentIsDay | src/store.ts:1527-1541 | the spend since the start of the UTC day is the spend of that day |
| Ledger.SpentIsMonth | src/store.ts:1543-1557 | the spend since the start of the month is the spend of that month |
| Ledger.PublishKeeps | src/store.ts:1485-1604 | publishing keeps every balance non-negative and equal to its events, every reservation equal to what its bounty needs, and every spend limit |
| Ledger.CloseKeeps | src/store.ts:1657-1718 | closing keeps them, whatever is committed |
| Ledger.CreditKeeps | src/store.ts:3421-3454 | a refund's credit keeps them, the spend limits included |
| Ledger.TopUpKeeps | src/server.ts:4485-4530 | a top-up keeps them |
| Ledger.StripeWebhookKeeps | src/server.ts:2152-2238 | a delivery of any event keeps them, and no credit is booked for an id that is not recorded |
| Ledger.StripeCreditsOnce | src/server.ts:2152-2223 | the first delivery credits the amount if it is a paid and complete checkout for an account that exists, and nothing otherwise; a later one nothing |
| Ledger.HeldIsBudget | src/store.ts:1563-1596 | what the bounties of an org hold is what its budget events took from its account |
| Ledger.MoneyIsConserved | src/store.ts:1521-1596 | balance and holdings are the opening balance plus top-ups |
| Store.Database.constructor | src/store.ts:1485-1718 | a new database is the start of the state machine |
| Store.Database.PublishBounty | src/store.ts:1485-1655 | reserves once, publishes, generates jobs once; an error leaves every table as it was |
| Store.Database.ReserveBudget | src/store.ts:1496-1596 | the guarded debit with its billing event and reservation |
| Store.Database.SetBountyStatus | src/store.ts:1657-1718 | closing releases what is not committed, once |
| Store.Database.TopUp | src/server.ts:4485-4530 | credits an account that exists or can be created, and nothing otherwise |
| Store.Database.StripeWebhook | src/server.ts:2152-2238 | the whole new state of the books after a delivery |
| Store.Database.LeaseJob | src/store.ts:1308-1361 | leases only an open or timed-out job to a worker with no active job |
| Store.Database.ClaimJob | src/server.ts:3534-3570 | tables and reply of the claim handler, error cases included |
| Store.Database.ReleaseJob | src/server.ts:3573-3607 | tables and reply of the release handler |
| Store.Database.ReapExpiredLeases | src/store.ts:3599-3609 | exactly the jobs whose lease is past expire, and they are the ones returned |
| Store.Database.Submit | src/server.ts:3802-3996 | tables and reply of the submit handler on all its paths |
| Store.Database.VerifierClaim | src/server.ts:4008-4030 | tables and reply of the verifier claim |
| Store.Database.GiveVerdict | src/server.ts:4059-4152 | tables and reply of the verdict, with the payout a completing pass creates, and that creating it throws exactly with illegal rates, the verdict being kept |
| Store.Database.RecordReputation | src/store.ts:1957-1971 | the reputation row after a verdict |
| Store.Database.AddPayout | src/store.ts:2686-2752 | inserts one payout for a submission, or splits the amount passed in and rewrites split and hold but not the amount |
| Store.Database.EnqueueOutbox | src/store.ts:2010-2037 | an event whose key is there is left alone |
| Store.Database.CreateDispute | src/store.ts:3165-3301 | the new tables, or the error with nothing changed |
| Store.Database.CheckDispute | src/store.ts:3215-3231 | why a dispute is refused, searching the disputes for an open one |
| Store.Database.CancelDispute | src/store.ts:3303-3392 | the new tables, or the error with nothing changed |
| Store.Database.ResolveDisputeAdmin | src/store.ts:3394-3575 | the new tables and books, or the error with nothing changed |
| Store.Database.ClaimOutboxBatch | workers/outbox-lib.ts:34-75 | releases stale locks and locks the oldest eligible rows, within the limit |
| Store.Database.HandlePayoutRequested | workers/handlers.ts:112-385 | the payout row and how the handler ends, for every guard and provider answer |
| Store.Database.HandleDisputeAutoRefund | workers/handlers.ts:401-415 | refunds, or does nothing when the dispute is not open |
| Store.Database.AckEvent | workers/outbox-lib.ts:147-171 | sent, dead-lettered or rescheduled |
| Store.Database.Serve | workers/outbox-lib.ts:138-171 | whatever is called, the tables move by one step of the state machine |
| Store.Database.ServeAll | src/store.ts:1485-1718 | any calls take the tables along a run; from a state reachable under some hypotheses, calls that meet them lead to another |
| Store.Database.Operate | src/store.ts:1485-1718 | a new database that served any calls has books in balance; under H7 its payouts are within the reservations, under H6 no payout is forgotten, under H2 none is credited twice or when paid, and under H1, H2, H7 and H9 every bounty holds what it owes |
| Outbox.MaxAttempts | workers/outbox-lib.ts:20-25 | the limit lies between 1 and 1000 whatever the environment says |
| Outbox.AttemptLimits | workers/outbox-lib.ts:20-25 | artifact scans are tried 100 times and everything else 10 times, unless the environment says otherwise between 10, or 1, and 1000 |
| Outbox.TotalBackoffClosedForm | workers/outbox-lib.ts:132-136 | the delays after n failures add up to 2^min(n,6) - 1 + 60 max(0, n-6) seconds |
| Outbox.SelectOldest | workers/outbox-lib.ts:53-62 | the rows chosen are eligible, oldest first, and leave out an eligible row only when the limit is reached and none chosen is younger |
| Queue.NoTwoWorkersShare | workers/outbox-lib.ts:27-75 | over every run in which batches finish within the lock timeout, crashes allowed, no two workers have one event |
| Queue.ClaimSharesIffStale | workers/outbox-lib.ts:37-50 | a claim takes an event another worker still has exactly when it is in the batch, and then its lock had timed out |
| Queue.EventChangesIff | workers/outbox-lib.ts:77-171 | an event is sent exactly when a worker reports that its handler returned, dead exactly at the last failure its topic allows, pending again at any earlier one, and processing exactly when it is claimed; it is locked exactly while it is processing |
| Queue.HandsChangeIff | workers/outbox-lib.ts:27-171 | a worker has an event in hand from the claim that gave it until it reports or dies, and knows in between whether its handler returned or threw |
| Queue.AddsOnce | src/store.ts:2010-2037 | an event is added once, pending and never tried, and adding it again changes nothing |
| Queue.ClaimTakesOldest | workers/outbox-lib.ts:34-75 | a claim takes only events of its topics that are due and pending or timed out, at most its limit, and leaves one behind only if the limit is reached by events no younger |
| Queue.SettledIsFinal | workers/outbox-lib.ts:77-124 | sent and deadletter are absorbing |
| Queue.AttemptsAreClaims | workers/outbox-lib.ts:64-75 | the attempts counter is the number of claims |
| Queue.RetryTerminates | workers/outbox-lib.ts:20-171 | without crashes an event is claimed at most as often as its topic allows, is dead only after exactly that many, and is processing exactly while a worker has it |
| Queue.BackoffAddsUp | workers/outbox-lib.ts:132-171 | the delays an event waited over a run have that closed form |
| Queue.SettledIsAck | workers/outbox-lib.ts:147-171 | what the loop writes for an event is the machine's acknowledgement |
| Queue.OutboxTable.ClaimOutboxBatch | workers/outbox-lib.ts:34-75 | the rows locked are an oldest-first choice after stale locks are released, and attempts are those of the rows after the update |
| Queue.OutboxTable.RunBatch | workers/outbox-lib.ts:147-171 | every event of the batch is settled by its own handler's outcome and no other row changes |
| SubmitRetry.WholeIsSubmit | src/server.ts:3802-3996 | the writes of an uninterrupted call make up the atomic submit |
| SubmitRetry.RetryHeals | src/server.ts:3842-3903 | after any number of calls cut after any write, a completed retry leaves what one uninterrupted call leaves |
| SubmitRetry.RetryHealsIff | src/server.ts:3929-3973 | with duplicates included, one cut and a retry heal if and only if it is no duplicate or the cut is not between the insert and the job's end |
| SubmitRetry.RetryAfterVerdict | src/server.ts:3825-3903 | when verdicts land in between, there is still one submission and a first attempt, and a done job stays done |
| SubmitRetry.Handler.Submit | src/server.ts:3802-3996 | the handler dying after a given number of writes leaves the state of that prefix |
| RateLimit.AcceptedIffItFits | src/ratelimit.ts:14-40 | a call is accepted if and only if for every earlier call the accepts since, with this one, fit a full bucket and the refill since |
| RateLimit.AvailableIsLeast | src/ratelimit.ts:30-34 | the tokens in the bucket are the least such allowance, or a full bucket |
| RateLimit.NeverTooMany | src/ratelimit.ts:14-40 | in no stretch of time are more calls accepted than a full bucket and its refill |
| RateLimit.RejectedLeaveNoTrace | src/ratelimit.ts:36-40 | deleting rejected calls changes no later decision |
| RateLimit.TicksAreOneRefill | src/ratelimit.ts:30-34 | refilling once is refilling each millisecond with a cap |
| RateLimit.LazyIsEager | src/ratelimit.ts:30-34 | for timestamps in order, the lazily refilled bucket always holds what one refilled each millisecond would |
| RateLimit.Limiter.RateLimit | src/ratelimit.ts:3-48 | the method on the bucket rows accepts exactly the calls that fit the history of their key |
| Selection.FindClaimableJob | src/store.ts:1215-1305 | returns the first candidate of greatest score among those that pass every filter, and nothing if and only if none passes |
| Selection.PassesIff | src/store.ts:1255-1281 | a candidate passes the filters if and only if it is not excluded, none of its origins was revoked, it pays enough, the worker can do all it needs (a browser, if it says nothing), and it is not past its freshness limit |
| Selection.ScoreMoves | src/store.ts:1286-1296 | what a step of priority, a cent of payout and a required proof are worth |
| Selection.PriorityDecidesIff | src/store.ts:1286-1300 | a higher priority always outweighs the other terms of the score if and only if payouts and proofs are within the bound |
| Selection.TooLargeDoesNotDecide | src/store.ts:1286-1300 | beyond the bound, two candidates for which it does not |
| Selection.OfferedHasTopPriority | src/store.ts:1215-1305 | within it, no eligible candidate has a higher priority than the job offered |
| FeeSplit.ComputePayoutSplit | src/payments/crypto/baseUsdc.ts:18-40 | succeeds exactly on a non-negative gross and legal rates, and the parts add up to the gross |
| FeeSplit.SplitRefusals | src/payments/crypto/baseUsdc.ts:18-29 | illegal input is refused for the first reason that applies |
| FeeSplit.SplitIff | src/payments/crypto/baseUsdc.ts:30-40 | the split is the only one that gives the platform the whole cents of its share of the gross, Proofwork those of its share of what is left, and the worker the rest |
| FeeSplit.NetIsNearlyExact | src/payments/crypto/baseUsdc.ts:30-36 | the net is at least the exact share and less than two cents above it |
| FeeSplit.NetIsExactPlusDropped | src/payments/crypto/baseUsdc.ts:30-36 | the net is the exact share plus the fractions of a cent the two floors drop |
| FeeBound.AlwaysWithinACentIff | src/payments/crypto/baseUsdc.ts:30-36 | the net is less than one cent above the exact share for every gross if and only if the platform takes nothing or what Proofwork leaves divides the whole |
| FeeBound.GrossPaidTooMuch | src/payments/crypto/baseUsdc.ts:30-36 | for all other legal rates a gross of less than a million dollars that is paid a cent too much or more |
| FeeSplit.NetMayExceedACent | src/payments/crypto/baseUsdc.ts:30-36 | an amount and rates for which that is a cent or more |
| FeeSplit.NetIsMonotone | src/payments/crypto/baseUsdc.ts:30-36 | a larger gross never pays less |
| FeeSplit.PreviewIsNearlyExact | public/apps/app_page.js:1116-1122 | the preview is less than one cent from the exact share |
| FeeSplit.PreviewNeverOverpromises | public/apps/app_page.js:1116-1122 | the preview is at most what the server pays, and at most two cents less |
| Archive.ParsePrinted | workers/github-ingest-runner.ts:205-208 | printing an hour and parsing it gives it back |
| Archive.NextIsOneHourLater | workers/github-ingest-runner.ts:204-208 | the next cursor names the instant exactly one hour later |
| Archive.PrintIsInjective | workers/github-ingest-runner.ts:208 | two hours print alike only if they are the same |
| Archive.PollsKeepConsecutive | workers/github-ingest-runner.ts:156-212 | over any polls the completed hours stay consecutive and the cursor names the next |
| Archive.HoursAreConsecutive | workers/github-ingest-runner.ts:156-212 | a source that started empty has ingested consecutive hours without a gap or repetition |
| Archive.StoredIsDelivered | workers/github-ingest-runner.ts:156-203 | over any polls exactly the events that were delivered are stored, those of a download that broke off included |
| Archive.ErrorIsRefused | workers/github-ingest-runner.ts:156-212 | over any polls a source is in error if and only if it was refused, or was in error before, and no poll got through since |
| Archive.Runner.RunOnce | workers/github-ingest-runner.ts:156-212 | one poll: the new state, when it throws, and the events it counts |
| Calendar.DateIsUnique | workers/github-ingest-runner.ts:205-208 | a date that exists is read back from its day |
| Calendar.MonthLengths | workers/github-ingest-runner.ts:205-208 | the months have 31, 30, 28 and in leap years 29 days |
| Calendar.PeriodsOfDate | src/store.ts:1527-1557 | every instant of a date counts for that UTC day and calendar month |
| Decimal.LastEventId | workers/github-ingest-runner.ts:28-42 | the fold keeps one of the ids, and when all are numeric the earliest of greatest value |
| Decimal.ValueOfDigits | workers/github-ingest-runner.ts:205 | a number is read back from its decimal text |
| Descriptor.GetDeep | public/apps/app_page.js:41-50 | what the path leads to, or undefined |
| Descriptor.SetDeep | public/apps/app_page.js:29-39 | get after set, and every path beside the target keeps its value, in a tree changed in place |
| Descriptor.DeleteDeep | public/apps/app_page.js:52-62 | get after delete, and every path not through the target keeps its value |
| Descriptor.FillAll | public/apps/app_page.js:1205-1224 | a target no later field interferes with ends up holding exactly its form value or nothing |
| Descriptor.BuildDescriptorFromForm | public/apps/app_page.js:1198-1227 | with prefix-free targets every field shows, whatever their order; what the base holds in the right form is kept where no target has to do with it, and only the rest gets defaults: the version v1, the task type, the page's own tag list, which is not written to |
| Descriptor.FieldMeans | public/apps/app_page.js:1207-1221 | text and number fields are unset exactly when they are blank, or no number; text is stored without the white space around it, and a list of lines as the text's lines, trimmed, in order, without empty ones |
| Descriptor.SplitJoins | public/apps/app_page.js:29-32 | a target's segments, joined by dots, are the target, and hold no dot |
| Descriptor.ElementAt | public/apps/app_page.js:64-69 | the array of a list of lines holds line i at i |
| Descriptor.ElsewhereTheSame | public/apps/app_page.js:29-39 | writing one property changes only what lies behind it |

## Left out

- The on-chain path of `handlePayoutRequested` and `handlePayoutConfirmRequested`: foreign calls and re-broadcasts; worker payout-address blocking matters only there.
- Break-glass endpoints (override-verdict, mark, retry, requeue, quarantine): they bypass the invariants by design.
- HTTP routing, auth, schemas, rendering, storage, scanning, origin verification, intel, metrics and audit rows.
- Races between the statements of one handler, other than in the submit handler; `FOR UPDATE SKIP LOCKED` therefore never skips a row.
- The one status no handler sets: `submitted` for jobs. Quality scores, reasons, timestamps nobody reads and the `accepted_dedupe` registry are not stored; whether a submit is a duplicate, stale, of an allowed origin, or has attachable artifacts comes with the request.
- Outbox events of the verification topic: a submission's attempts stand for them, except in `SubmitRetry`, where the event is a write of its own.
- Limits of an org, the lock timeout and the attempt limits do not change during a run.
- Floating point: token counts are integers scaled by 60000, scores and pass rates are reals, rounding is half up.
- The limiter's rate for a key does not change between calls.
- Archive hours given explicitly, hours before 1970 or after 9999, and hour text with signs, fractions or other forms `Number` accepts.
- `setDeep`, `getDeep` and `deleteDeep` on inherited properties (`__proto__`, `constructor`) and on `length` of an array; `Number()` of a text is given with the text.
- Candidate rows of `findClaimableJob` come from its query in order; the query itself is not modelled.
- Queue.NoTwoWorkersShare: assumes batches finish within the lock timeout, as the code cannot enforce it; what happens otherwise is `Queue.ClaimSharesIffStale`.
