/**
 What can be brought to an end: an event that is to come is claimed, a due payout is
 answered, an open dispute is refunded by itself, and an open job leads to a paid worker.
 */
module RailProgress {
  import opened Common
  import opened FeeSplit
  import opened Rail
  import opened RailSteps
  import opened RailResults
  import opened RailPayouts
  import opened RailLeases
  import opened RailDisputes
  import opened RailBalances
  import F = RailFunds
  import J = RailJobs
  import T = RailTokens
  import O = Outbox
  import W = Work
  import P = Pay
  import L = Ledger

  // ----- an event comes up -----

  /** The event waits, or some worker took it and may yet be found dead. */
  predicate ToCome(e: O.Event) {
    e.status == O.Pending || (e.status == O.Processing && e.lock.Some?)
  }

  /** When at the latest the event can be claimed: once it is available and its lock has timed out. */
  function ClaimableAt(e: O.Event, now: int, cfg: O.Config): int
    requires ToCome(e)
  {
    Max(now, if e.status == O.Pending then e.availableAt
             else Max(e.availableAt, e.lock.value.at + 1_000 * cfg.lockTimeoutSec + 1))
  }

  /** Later, only time has passed and workers have moved on. */
  predicate OnlyQueueMoved(s: Db, s1: Db) {
    s.now <= s1.now && s1 == s.(now := s1.now, pay := s.pay.(box := s1.pay.box))
  }

  /** Worker 0 restarts, waits, and has the event in hand. */
  lemma EventComesUp(s: Db, key: P.Key) returns (more: seq<Step>)
    requires key in s.pay.box.rows && ToCome(s.pay.box.rows[key])
    ensures RunUnder(ALL, s, more) && OnlyQueueMoved(s, Run(s, more))
    ensures P.MayHandle(Run(s, more).pay, 0, key) && key in Run(s, more).pay.box.rows
    ensures Run(s, more).now >= s.pay.box.rows[key].availableAt
  {
    var e := s.pay.box.rows[key];
    var t := ClaimableAt(e, s.now, s.cfg);
    var a, b := Crash(0), Tick(t - s.now);
    var s1 := Next(s, a);
    var s2 := Next(s1, b);
    assert s2 == s.(now := t, pay := s.pay.(box := s2.pay.box)) && s2.pay.box.rows == s.pay.box.rows;
    assert O.Idle(s2.pay.box, 0) && O.Eligible(O.Released(e, t, s.cfg), {e.topic}, t);
    assert Meets(ALL, s, a) && Meets(ALL, s1, b);
    hide O.Idle, O.Eligible, P.MayHandle;
    var c := IdleClaims(s2, key);
    assert Meets(ALL, s2, c);
    hide Next, Meets;
    OneStep(ALL, s2, c);
    StepFirst(ALL, s1, b, [c]);
    StepFirst(ALL, s, a, [b] + [c]);
    more := [a] + ([b] + [c]);
  }

  // ----- a payout is answered -----

  /** The payout is due and not blocked, and its event is to come when its hold is over, or later. */
  predicate IsAsked(s: Db, i: nat) {
    && i < |s.pay.payouts| && s.pay.payouts[i].status == P.Due && s.pay.payouts[i].blocked == P.Unblocked
    && P.PayoutRequested(i) in s.pay.box.rows
    && ToCome(s.pay.box.rows[P.PayoutRequested(i)])
    && (s.pay.payouts[i].holdUntil.Some? ==>
          s.pay.box.rows[P.PayoutRequested(i)].availableAt >= s.pay.payouts[i].holdUntil.value)
  }

  /** Legal rates, and a wallet for the platform's part if there is one. */
  predicate Payable(rates: Rates, walletSet: bool) {
    && rates.platformBps >= 0 && rates.proofworkBps >= 0 && rates.platformBps + rates.proofworkBps <= 10_000
    && (rates.platformBps > 0 ==> walletSet)
  }

  /** A payout that is asked for gets the provider's answer, whatever that is. */
  lemma AskedIsAnswered(s: Db, i: nat, rates: Rates, walletSet: bool, answer: P.Provider) returns (more: seq<Step>)
    requires IsAsked(s, i) && Payable(rates, walletSet)
    ensures RunUnder(ALL, s, more) && i < |Run(s, more).pay.payouts|
    ensures Run(s, more).pay.payouts[i].status
            == match answer
               case SaysPaid => P.Paid
               case SaysFailed => P.Failed
               case Throws => P.Due
    ensures Run(s, more).ledger == s.ledger && Run(s, more).work == s.work
  {
    var key, e := P.PayoutRequested(i), HandlePayout(0, i, rates, walletSet, answer);
    more := EventComesUp(s, key);
    var s1 := Run(s, more);
    assert AsksFor(s1, e, i);
    StatusChangesIff(s1, e, i);
    assert Meets(ALL, s1, e);
    assert Next(s1, e).ledger == s1.ledger && Next(s1, e).work == s1.work by {
      hide P.HandlePayout;
    }
    hide Next, Meets, Run, RunUnder, RefundsIt;
    OneStep(ALL, s1, e);
    RunOn(ALL, s, more, [e]);
    more := more + [e];
  }

  // ----- a dispute ends -----

  /** Dispute dp is open on a payout that is due, and its refund event is to come. */
  predicate IsContested(s: Db, dp: nat) {
    && dp < |s.pay.disputes| && s.pay.disputes[dp].status == P.Open
    && s.pay.disputes[dp].payout < |s.pay.payouts|
    && s.pay.payouts[s.pay.disputes[dp].payout].status == P.Due
    && P.AutoRefund(dp) in s.pay.box.rows && ToCome(s.pay.box.rows[P.AutoRefund(dp)])
  }

  /** If nobody does anything about a dispute, the buyer gets the gross less the fee back, and the payout is over. */
  lemma DisputeRefundsItself(s: Db, d: Deployment, dp: nat) returns (more: seq<Step>)
    requires Reachable(NO_HYPOTHESIS, s, d) && IsContested(s, dp)
    ensures RunUnder(ALL, s, more)
    ensures var row, i, s1 := s.pay.disputes[dp], s.pay.disputes[dp].payout, Run(s, more);
            && i < |s1.pay.payouts| && s1.pay.payouts[i].status == P.Refunded
            && dp < |s1.pay.disputes| && s1.pay.disputes[dp].status == P.Resolved
            && L.Balance(s1.ledger.accounts, row.org) - L.Balance(s.ledger.accounts, row.org)
               == Refunded(s.pay.payouts[i])
  {
    var i, e := s.pay.disputes[dp].payout, HandleRefund(0, dp, true);
    more := EventComesUp(s, P.AutoRefund(dp));
    var s1 := Run(s, more);
    RunUnderNone(s, more);
    ReachableRunsOn(NO_HYPOTHESIS, s, d, more);
    hide Reachable;
    assert RefundsIt(s1, e, i) && Refunds(s1, e, dp) && Meets(ALL, s1, e);
    StatusChangesIff(s1, e, i);
    DisputesChangeIff(s1, d, e);
    BalanceMovesByBooking(s1, d, e, s.pay.disputes[dp].org);
    SplitsAddUp(s1, d, i);
    hide Next, Meets, Run, RunUnder, AsksFor, RefundsIt;
    OneStep(ALL, s1, e);
    RunOn(ALL, s, more, [e]);
    more := more + [e];
  }

  /** A dispute that is withdrawn, or decided for the worker, leads on to the payout. */
  lemma FreedIsPaid(s: Db, d: Deployment, e: Step, i: nat, rates: Rates, walletSet: bool) returns (more: seq<Step>)
    requires Reachable(NO_HYPOTHESIS, s, d) && i < |s.pay.payouts| && Frees(s, e, i) && Payable(rates, walletSet)
    requires s.pay.payouts[i].status == P.Due
    ensures RunUnder(ALL, s, [e] + more)
    ensures i < |Run(s, [e] + more).pay.payouts| && Run(s, [e] + more).pay.payouts[i].status == P.Paid
  {
    FreedIsAskedAgain(s, d, e, i);
    more := AskedIsAnswered(Next(s, e), i, rates, walletSet, P.SaysPaid);
    assert Meets(ALL, s, e);
    hide Next, Meets, Reachable, Frees;
    StepFirst(ALL, s, e, more);
  }

  // ----- a job is done and paid -----

  /** What the worker sends: no key, nothing stale, of an allowed origin, new, and all artifacts fine. */
  const GOOD := W.Request("", 0, false, true, false, true)

  /** The job is open and was never worked on, and the worker has no other. */
  predicate MayWork(t: W.Tables, worker: nat, j: nat) {
    && j < |t.jobs| && t.jobs[j].status == W.Open && t.jobs[j].current.None? && !Busy(t, worker)
    && |t.submissions| !in t.attempts
  }

  /** Submission x, by the worker for job j, is with a verifier that has the token. */
  predicate IsVerified(t: W.Tables, t3: W.Tables, worker: nat, j: nat, now: int) {
    var x := |t.submissions|;
    && t3.submissions == t.submissions + [W.Submission(j, worker, "", 0, W.Submitted)]
    && x in t3.attempts && 1 in t3.attempts[x]
    && t3.attempts[x][1] == W.Attempt(W.InProgress, Some(t.nextToken), now + 60_000, None)
    && j < |t.jobs| == |t3.jobs| && t3.jobs[j].status == W.Verifying
    && t3.jobs[j].current == Some(x) && t3.jobs[j].bounty == t.jobs[j].bounty
  }

  lemma LeasedTables(t: W.Tables, worker: nat, j: nat, now: int)
    requires MayWork(t, worker, j)
    ensures W.ClaimJob(t, worker, j, false, now).t
            == t.(jobs := t.jobs[j := t.jobs[j].(status := W.Claimed,
                                                 lease := Some(W.Lease(worker, now + 1_200_000, t.nextNonce)))],
                  nextNonce := t.nextNonce + 1)
  {
  }

  lemma WorkedOn(t: W.Tables, worker: nat, j: nat, now: int)
    requires MayWork(t, worker, j)
    ensures var x, t1 := |t.submissions|, W.ClaimJob(t, worker, j, false, now).t;
            var t2 := W.Submit(t1, worker, j, GOOD, now).t;
            && W.ClaimIsEnqueued(t2, x, 1) && W.ClaimIsOpen(t2, x, 1)
            && IsVerified(t, W.VerifierClaim(t2, x, 1, 60_000, now).t, worker, j, now)
  {
    LeasedTables(t, worker, j, now);
    hide W.ClaimJob, Busy;
  }

  lemma WorkerStep(s: Db, e: Step)
    requires e.ClaimJob? || e.Submit?
    ensures Meets(H4_H5, s, e)
    ensures Next(s, e) == s.(work := if e.ClaimJob? then W.ClaimJob(s.work, e.worker, e.job, e.stale, s.now).t
                                     else W.Submit(s.work, e.worker, e.job, e.req, s.now).t)
  {
    hide W.ClaimJob, W.Submit;
  }

  lemma VerifierStep(s: Db, x: nat, n: nat, ttl: int)
    requires W.ClaimIsEnqueued(s.work, x, n) && W.ClaimIsOpen(s.work, x, n)
    ensures Meets(H4_H5, s, VerifierClaim(x, n, ttl))
    ensures Next(s, VerifierClaim(x, n, ttl)) == s.(work := W.VerifierClaim(s.work, x, n, ttl, s.now).t)
  {
    hide W.VerifierClaim;
  }

  lemma WorkSteps(s: Db, worker: nat, j: nat) returns (more: seq<Step>)
    requires MayWork(s.work, worker, j)
    ensures RunUnder(H4_H5, s, more)
    ensures var s1 := Run(s, more); s1 == s.(work := s1.work) && IsVerified(s.work, s1.work, worker, j, s.now)
  {
    var x := |s.work.submissions|;
    var a, b, c := ClaimJob(worker, j, false), Submit(worker, j, GOOD), VerifierClaim(x, 1, 60_000);
    WorkedOn(s.work, worker, j, s.now);
    hide Next, Meets, W.ClaimJob, W.Submit, W.VerifierClaim, W.ClaimIsEnqueued, W.ClaimIsOpen, IsVerified, MayWork;
    var s1 := Next(s, a);
    var s2 := Next(s1, b);
    WorkerStep(s, a);
    WorkerStep(s1, b);
    VerifierStep(s2, x, 1, 60_000);
    OneStep(H4_H5, s2, c);
    StepFirst(H4_H5, s1, b, [c]);
    StepFirst(H4_H5, s, a, [b] + [c]);
    more := [a] + ([b] + [c]);
  }

  /** A worker without a job takes an open one, and its verifier passes what he hands in: then his payout is due. */
  lemma OpenJobIsAsked(s: Db, d: Deployment, worker: nat, j: nat, rates: Rates, walletSet: bool)
    returns (more: seq<Step>)
    requires Reachable(H4_H5, s, d) && j < |s.work.jobs| && s.work.jobs[j].status == W.Open && !Busy(s.work, worker)
    requires Payable(rates, walletSet)
    ensures RunUnder(H4_H5, s, more)
    ensures var i, s1 := |s.pay.payouts|, Run(s, more);
            && IsAsked(s1, i) && |s1.pay.payouts| == i + 1
            && s1.pay.payouts[i].submission == |s.work.submissions|
            && s1.pay.payouts[i].bounty == s.work.jobs[j].bounty && s1.pay.payouts[i].worker == worker
  {
    NothingYet(s, d, j);
    more := WorkSteps(s, worker, j);
    var e := GiveVerdict(|s.work.submissions|, 1, s.work.nextToken, W.Pass, rates);
    var s1 := Run(s, more);
    assert IsJudged(s1, e, j) && Meets(H4_H5, s1, e);
    hide Run, RunUnder, Next, Meets, MayWork, Busy, IsVerified, IsJudged;
    ReachableRunsOn(H4_H5, s, d, more);
    hide Reachable;
    HypothesesEntail(s1, d);
    PassRequestsPayout(s1, d, e, j);
    OneStep(H4_H5, s1, e);
    RunOn(H4_H5, s, more, [e]);
    more := more + [e];
  }

  /** A job that is open was never handed in for, and no attempt or payout is ahead of its submission. */
  lemma NothingYet(s: Db, d: Deployment, j: nat)
    requires Reachable(H4_H5, s, d) && j < |s.work.jobs| && s.work.jobs[j].status == W.Open
    ensures s.work.jobs[j].current.None? && |s.work.submissions| !in s.work.attempts
    ensures |s.work.submissions| !in s.pay.bySubmission
  {
    HypothesesEntail(s, d);
    J.ReachableIsInOrder(s, d);
    assert W.JobOk(s.work, j);
    T.ReachableTokens(H4_H5, s, d);
    F.ReachableHasFunds(H4_H5, s, d);
    hide Reachable, L.Valid, F.DisputeOwned, F.JobsGenerated, W.JobOk, J.InOrder;
    forall x | x in s.pay.bySubmission
      ensures x < |s.work.submissions|
    {
      assert F.PayoutOwned(s, s.pay.payouts[s.pay.bySubmission[x]]);
    }
  }

  /** And then he is paid what the bounty offers. */
  lemma OpenJobIsPaid(s: Db, d: Deployment, worker: nat, j: nat, rates: Rates, walletSet: bool)
    returns (more: seq<Step>)
    requires Reachable(H4_H5, s, d) && j < |s.work.jobs| && s.work.jobs[j].status == W.Open && !Busy(s.work, worker)
    requires Payable(rates, walletSet)
    ensures RunUnder(H4_H5, s, more)
    ensures var i, b, s1 := |s.pay.payouts|, s.work.jobs[j].bounty, Run(s, more);
            && b < |s1.ledger.bounties| && i < |s1.pay.payouts|
            && s1.pay.payouts[i].status == P.Paid
            && s1.pay.payouts[i].worker == worker && s1.pay.payouts[i].bounty == b
            && s1.pay.payouts[i].amount == s1.ledger.bounties[b].payoutCents
  {
    var i := |s.pay.payouts|;
    more := OpenJobIsAsked(s, d, worker, j, rates, walletSet);
    var s1 := Run(s, more);
    var rest := AskedIsAnswered(s1, i, rates, walletSet, P.SaysPaid);
    hide Run, RunUnder, Reachable, IsAsked, Payable, Busy;
    RunUnderLess(ALL, H4_H5, s1, rest);
    ReachableRunsOn(H4_H5, s, d, more);
    ReachableGoesOn(H4_H5, s1, d, rest);
    ReachableUnderLess(H4_H5, NO_HYPOTHESIS, Run(s1, rest), d);
    SplitsAddUp(Run(s1, rest), d, i);
    RunOn(H4_H5, s, more, rest);
    more := more + rest;
  }
}
