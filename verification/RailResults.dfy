/**
 The main results: what holds in every state a deployment can reach, and between any
 such state and every later one, each under the hypotheses its invariant needs.
 */
module RailResults {
  import opened Common
  import opened FeeSplit
  import opened Rail
  import opened RailSteps
  import opened RailJobs
  import opened RailPay
  import opened RailSafety
  import opened RailHistory
  import B = RailBudget
  import F = RailFunds
  import M = RailMoney
  import N = RailOnce
  import O = Outbox
  import W = Work
  import P = Pay
  import L = Ledger

  lemma ReachableGoesOn(h: Hypotheses, s: Db, d: Deployment, more: seq<Step>)
    requires Reachable(h, s, d) && RunUnder(h, s, more)
    ensures Reachable(h, Run(s, more), d)
    ensures Follows(h, s, Run(s, more))
  {
    hide Safe, Run, RunUnder, Follows, Next, Meets;
    ReachableRunsOn(h, s, d, more);
    var steps :| RunUnder(h, Start(d), steps) && Run(Start(d), steps) == s;
    hide Reachable;
    StartIsSafe(h, d);
    RunFollows(h, Start(d), steps, d.opening);
    RunFollows(h, s, more, d.opening);
  }

  /** What verifiers do wrong is all that can break H6 to H9. */
  lemma HypothesesEntail(s: Db, d: Deployment)
    ensures Reachable(H4_ONLY, s, d) ==> Reachable(H7_ONLY, s, d)
    ensures Reachable(H4_H5, s, d) ==> Reachable(H6_ONLY, s, d) && Reachable(H8_ONLY, s, d)
    ensures Reachable(H6_ONLY, s, d) ==> Reachable(H9_ONLY, s, d)
  {
    hide Reachable, Safe;
    if Reachable(H4_ONLY, s, d) {
      ReachableIsSafe(H4_ONLY, s, d);
      ReachableUnderLess(Entailed(H4_ONLY), H7_ONLY, s, d);
    }
    if Reachable(H4_H5, s, d) {
      ReachableIsSafe(H4_H5, s, d);
      ReachableUnderLess(Entailed(H4_H5), H6_ONLY, s, d);
      ReachableUnderLess(Entailed(H4_H5), H8_ONLY, s, d);
    }
    if Reachable(H6_ONLY, s, d) {
      ReachableIsSafe(H6_ONLY, s, d);
      ReachableUnderLess(Entailed(H6_ONLY), H9_ONLY, s, d);
    }
  }

  // ----- money -----

  /** Nothing is created or lost: an org's balance and what its bounties hold are what it opened with and topped up. */
  lemma FundsAreConserved(s: Db, d: Deployment, org: nat)
    requires Reachable(NO_HYPOTHESIS, s, d)
    ensures var l := s.ledger;
            && L.Balance(l.accounts, org) >= 0
            && L.Balance(l.accounts, org) == L.Opening(d.opening, org) + L.Sum(l.events, L.OfAccount(org))
            && L.Balance(l.accounts, org) + L.HeldByOrg(l.events, l.bounties, org)
               == L.Opening(d.opening, org) + L.Sum(l.events, L.TopUps(org))
  {
    F.ReachableHasFunds(NO_HYPOTHESIS, s, d);
    L.MoneyIsConserved(s.ledger, d.opening, s.now, org);
  }

  /**
   What a bounty holds covers the gross of its payouts that were not refunded and the
   fee kept on those that were; once the rest is released it is exactly that.
   */
  lemma HeldFundsSuffice(s: Db, d: Deployment, b: nat)
    requires Reachable(H1_H2_H7_H9, s, d) && b < |s.ledger.bounties|
    ensures var held, need := L.Held(s.ledger.events, b), P.Sum(s.pay.payouts, P.NeedOf(b));
            && held >= need
            && (b !in s.ledger.reservations ==> held == 0)
            && (b in s.ledger.reservations ==>
                  && held <= s.ledger.reservations[b].amount
                  && (s.ledger.reservations[b].released ==> held == need))
  {
    ReachableIsSafe(H1_H2_H7_H9, s, d);
    HeldOf(s, b, d.opening);
    hide Safe, Reachable, F.Funds, F.Owned, B.OneEach, P.Sum, L.Held;
    B.BudgetSuffices(s, b, d.opening);
    AllSplit(s);
    P.NeedIsGrossLessRefunds(s.pay.payouts, b);
  }

  lemma HeldOf(s: Db, b: nat, opening: map<nat, nat>)
    requires Safe(H1_H2_H7_H9, s, opening)
    ensures F.Funds(s, opening) && F.Owned(s) && B.OneEach(s) && M.HeldIs(s, b)
  {
    assert M.AllHeld(s);
    hide L.Valid, P.Valid, N.Once, M.HeldIs, M.AllRefunded;
  }

  lemma AllSplit(s: Db)
    requires F.Owned(s)
    ensures forall i :: 0 <= i < |s.pay.payouts| ==> s.pay.payouts[i].split.Total() == s.pay.payouts[i].amount
  {
    forall i | 0 <= i < |s.pay.payouts|
      ensures s.pay.payouts[i].split.Total() == s.pay.payouts[i].amount
    {
      assert F.PayoutOwned(s, s.pay.payouts[i]);
    }
  }

  /**
   Every payout is of the amount its bounty offers and splits that amount whole, however
   often the row is rewritten, and a refund leaves just the fee.
   */
  lemma SplitsAddUp(s: Db, d: Deployment, i: nat)
    requires Reachable(NO_HYPOTHESIS, s, d) && i < |s.pay.payouts|
    ensures var row := s.pay.payouts[i];
            && row.bounty < |s.ledger.bounties| && row.amount == s.ledger.bounties[row.bounty].payoutCents
            && row.split.Total() == row.amount
            && P.RefundCents(row) + row.split.proofworkFee == row.amount
  {
    F.ReachableHasFunds(NO_HYPOTHESIS, s, d);
    hide Reachable, L.Valid;
    assert F.PayoutOwned(s, s.pay.payouts[i]);
  }

  /** A payout credits its buyer one refund in total, and only while it is refunded. */
  lemma RefundedExactlyOnce(s: Db, d: Deployment, i: nat)
    requires Reachable(H2_H9, s, d)
    ensures L.Sum(s.ledger.events, L.RefundsOf(i)) ==
            if i < |s.pay.payouts| && s.pay.payouts[i].status == P.Refunded
            then s.pay.payouts[i].amount - s.pay.payouts[i].split.proofworkFee else 0
  {
    ReachableIsSafe(H2_H9, s, d);
    assert M.AllRefunded(s) && M.RefundIs(s, i);
    if i < |s.pay.payouts| {
      assert F.PayoutOwned(s, s.pay.payouts[i]);
    }
    hide Safe, Reachable, L.Valid, P.Valid, N.Once, L.Sum;
  }

  /**
   A paid payout is never refunded or disputed later, and a refunded one never paid. At
   most one refund is credited for a payout, none when it is paid, and none any more
   once it is paid or refunded.
   */
  lemma RefundExcludesPayment(s: Db, d: Deployment, steps: seq<Step>, i: nat)
    requires Reachable(H2_ONLY, s, d) && RunUnder(H2_ONLY, s, steps) && i < |s.pay.payouts|
    requires s.pay.payouts[i].status in {P.Paid, P.Refunded}
    ensures var s1 := Run(s, steps);
            && i < |s1.pay.payouts| && s1.pay.payouts[i].status == s.pay.payouts[i].status
            && !P.HasOpenDispute(s1.pay, i)
            && N.Credits(s1.ledger.events, i) == N.Credits(s.ledger.events, i) <= 1
            && L.Sum(s1.ledger.events, L.RefundsOf(i)) == L.Sum(s.ledger.events, L.RefundsOf(i))
            && (s.pay.payouts[i].status == P.Paid ==>
                  N.Credits(s1.ledger.events, i) == 0 && L.Sum(s1.ledger.events, L.RefundsOf(i)) == 0)
  {
    N.ReachableIsOnce(s, d);
    N.RunKeepsOnce(s, steps);
    hide Reachable, Run, RunUnder;
    assert N.CreditOk(s, i) && N.CreditStays(s, Run(s, steps), i);
    N.SettledIsUndisputed(Run(s, steps).pay, i);
    if s.pay.payouts[i].status == P.Paid {
      N.NoCreditNoSum(s.ledger.events, i);
    }
  }

  /** Before that, a payout for which a refund was credited is refunded: no payout gets both. */
  lemma CreditedIsRefunded(s: Db, d: Deployment, i: nat)
    requires Reachable(H2_ONLY, s, d)
    ensures N.Credits(s.ledger.events, i) <= 1
    ensures N.Credits(s.ledger.events, i) == 1 ==> i < |s.pay.payouts| && s.pay.payouts[i].status == P.Refunded
  {
    N.ReachableIsOnce(s, d);
    assert N.CreditOk(s, i);
  }

  /**
   However often Stripe delivers an event, what is credited for its id is the amount if the first
   delivery was a paid and complete checkout for an account that existed, and nothing otherwise.
   */
  lemma StripeCreditsOnce(s: Db, d: Deployment, e: L.StripeEvent, steps: seq<Step>)
    requires Reachable(NO_HYPOTHESIS, s, d) && e.id !in s.ledger.webhooks
    ensures var credits := L.Sum(Run(Next(s, Stripe(e)), steps).ledger.events, L.StripeCredits(e.id));
            credits == if e.checkoutPaid && e.complete && e.amount > 0 && e.account in s.ledger.accounts
                       then e.amount else 0
  {
    var s1 := Next(s, Stripe(e));
    F.ReachableHasFunds(NO_HYPOTHESIS, s, d);
    L.StripeCreditsOnce(s.ledger, e, d.opening, s.now);
    hide Reachable, L.Sum, L.Valid;
    ReachableStep(NO_HYPOTHESIS, s, d, Stripe(e));
    RunUnderNone(s1, steps);
    ReachableGoesOn(NO_HYPOTHESIS, s1, d, steps);
  }

  // ----- payouts and disputes -----

  lemma ReachablePay(h: Hypotheses, s: Db, d: Deployment)
    requires Reachable(h, s, d) && h.h6
    ensures P.Valid(s.pay, s.now) && P.PayoutsOk(s.pay, s.now) && P.DisputesOk(s.pay) && P.AllHeldOk(s.pay, s.now)
    ensures P.IndexOk(s.pay)
  {
    hide Reachable;
    ReachableUnderLess(h, H6_ONLY, s, d);
    ReachableIsValid(s, d);
  }

  lemma PayoutRow(h: Hypotheses, s: Db, d: Deployment, i: nat)
    requires Reachable(h, s, d) && h.h6 && i < |s.pay.payouts|
    ensures P.PayoutRequested(i) in s.pay.box.rows
    ensures P.PayoutOk(s.pay.payouts[i], s.pay.box.rows[P.PayoutRequested(i)], s.now)
  {
    ReachablePay(h, s, d);
    hide Reachable, P.Valid, P.DisputesOk, P.AllHeldOk;
  }

  /** A due payout always has a way forward: its own event, or an open dispute whose refund is still to come. */
  lemma NoPayoutIsLost(s: Db, d: Deployment, i: nat)
    requires Reachable(H6_ONLY, s, d) && i < |s.pay.payouts| && s.pay.payouts[i].status == P.Due
    ensures s.pay.payouts[i].blocked == P.Unblocked ==>
              && P.PayoutRequested(i) in s.pay.box.rows
              && s.pay.box.rows[P.PayoutRequested(i)].status in {O.Pending, O.Processing, O.Dead}
    ensures s.pay.payouts[i].blocked != P.Unblocked ==>
              exists dp :: P.OpenOn(s.pay, dp, i) && P.AutoRefund(dp) in s.pay.box.rows
                           && s.pay.box.rows[P.AutoRefund(dp)].status in {O.Pending, O.Processing, O.Dead}
  {
    PayoutRow(H6_ONLY, s, d, i);
    hide Reachable;
    if s.pay.payouts[i].blocked != P.Unblocked {
      ReachablePay(H6_ONLY, s, d);
      hide P.Valid, P.PayoutsOk, P.AllHeldOk, P.PayoutOk;
      BlockedHasDispute(s.pay, i);
    }
  }

  lemma BlockedHasDispute(p: P.Tables, i: nat)
    requires P.DisputesOk(p) && i < |p.payouts| && p.payouts[i].status == P.Due && p.payouts[i].blocked == P.ByDispute
    ensures exists dp :: P.OpenOn(p, dp, i) && P.AutoRefund(dp) in p.box.rows
                         && p.box.rows[P.AutoRefund(dp)].status != O.Sent
  {
    var dp :| 0 <= dp < |p.disputes| && P.OpenOn(p, dp, i);
    assert P.DisputeOk(p, dp);
  }

  /** A worker that may handle a payout event finds the hold over, and one it is done with is no longer due. */
  lemma HoldNeverSwallows(
    s: Db, d: Deployment, w: nat, i: nat, rates: Rates, walletSet: bool, answer: P.Provider)
    requires Reachable(H6_ONLY, s, d) && P.MayHandle(s.pay, w, P.PayoutRequested(i))
    ensures i < |s.pay.payouts| && P.HoldOver(s.pay.payouts[i], s.now) && s.pay.payouts[i].blocked != P.ByDispute
    ensures var p1 := P.HandlePayout(s.pay, w, i, rates, walletSet, answer, s.now);
            && (w, P.PayoutRequested(i)) in p1.box.held
            && (p1.box.held[(w, P.PayoutRequested(i))].phase == O.Returned ==> p1.payouts[i].status != P.Due)
  {
    var key := P.PayoutRequested(i);
    ReachablePay(H6_ONLY, s, d);
    hide Reachable, P.Valid, P.DisputesOk;
    assert P.HeldOk(s.pay, (w, key).1, s.pay.box.held[(w, key)], s.now);
    PayoutRow(H6_ONLY, s, d, i);
  }

  /**
   While a dispute is open its payout waits, no worker has the payout's event, no other
   dispute is open on it, and as long as the payout is due the refund is still to come.
   */
  ghost predicate IsKept(p: P.Tables, dp: nat)
    requires P.IsOpen(p, dp)
  {
    var i := p.disputes[dp].payout;
    && i < |p.payouts| && p.payouts[i].blocked == P.ByDispute && p.payouts[i].status in {P.Due, P.Refunded}
    && P.PayoutRequested(i) in p.box.rows && p.box.rows[P.PayoutRequested(i)].status == O.Sent
    && P.AutoRefund(dp) in p.box.rows
    && (p.payouts[i].status == P.Due ==> p.box.rows[P.AutoRefund(dp)].status != O.Sent)
    && P.NoneHolds(p, P.PayoutRequested(i))
    && (forall e :: e != dp ==> !P.OpenOn(p, e, i))
  }

  /** No open dispute is forgotten, and under H2 its payout is due. */
  lemma OpenDisputeIsNotForgotten(h: Hypotheses, s: Db, d: Deployment, dp: nat)
    requires Reachable(h, s, d) && h.h6 && P.IsOpen(s.pay, dp)
    ensures IsKept(s.pay, dp)
    ensures h.h2 ==> s.pay.payouts[s.pay.disputes[dp].payout].status == P.Due
  {
    ReachablePay(h, s, d);
    if h.h2 {
      ReachableUnderLess(h, H2_ONLY, s, d);
      N.ReachableIsOnce(s, d);
      assert P.OpenOn(s.pay, dp, s.pay.disputes[dp].payout);
      assert N.RowOk(s.pay.payouts[s.pay.disputes[dp].payout]);
    }
    hide Reachable, N.Once, P.AllHeldOk;
    P.OpenAlone(s.pay, dp, s.now);
  }

  /** A payout is paid, or fails, only once its hold is over. */
  lemma ExecutedAfterHold(s: Db, d: Deployment, i: nat)
    requires Reachable(H6_ONLY, s, d) && i < |s.pay.payouts| && s.pay.payouts[i].status in {P.Paid, P.Failed}
    ensures s.pay.payouts[i].holdUntil.Some? ==> s.pay.payouts[i].holdUntil.value <= s.now
  {
    PayoutRow(H6_ONLY, s, d, i);
  }

  /** Disputes are opened strictly before the hold ends; a payout is executed at or after that moment. */
  lemma HoldSeparates(s: Db, d: Deployment, org: nat, target: Target, steps: seq<Step>)
    requires Reachable(H6_ONLY, s, d) && DoOpenDispute(s, org, target).Ok?
    requires RunUnder(H6_ONLY, s, steps)
    ensures var i, s1 := ResolveTarget(s, org, target).value, Run(s, steps);
            && i < |s1.pay.payouts|
            && s.pay.payouts[i].holdUntil.Some? && s.now < s.pay.payouts[i].holdUntil.value
            && s1.pay.payouts[i].holdUntil == s.pay.payouts[i].holdUntil
            && (s1.pay.payouts[i].status in {P.Paid, P.Failed} ==> s.pay.payouts[i].holdUntil.value <= s1.now)
  {
    var i, s1 := ResolveTarget(s, org, target).value, Run(s, steps);
    OpenStep(s, org, target);
    NotRefused(s.pay, i, s.now);
    ReachableGoesOn(H6_ONLY, s, d, steps);
    hide Run, RunUnder, Reachable, ResolveTarget, DoOpenDispute, LedgerFollows, DisputesFollow, WorkFollows;
    assert PayoutFollows(H6_ONLY, s.pay.payouts[i], s1.pay.payouts[i]);
    if s1.pay.payouts[i].status in {P.Paid, P.Failed} {
      ExecutedAfterHold(s1, d, i);
    }
  }

  /** Once a dispute is closed its refund event does nothing, ever, even while another dispute is open on the payout. */
  lemma ClosedDisputeRefundsNothing(s: Db, steps: seq<Step>, dp: nat, w: nat, dbOk: bool)
    requires dp < |s.pay.disputes| && s.pay.disputes[dp].status != P.Open
    ensures var s1 := Run(s, steps);
            var s2 := Next(s1, HandleRefund(w, dp, dbOk));
            s2 == s1.(pay := s1.pay.(box := s1.pay.box.(held := s2.pay.box.held)))
  {
    var s1 := Run(s, steps);
    RunDisputesFollow(s, steps);
    hide Run;
    assert DisputeFollows(s.pay.disputes[dp], s1.pay.disputes[dp]);
  }

  // ----- jobs and attempts -----

  /** A worker has at most one job that is being verified or leased to it with time left. */
  lemma OneActiveJob(s: Db, d: Deployment, i: nat, j: nat, worker: nat)
    requires Reachable(H8_ONLY, s, d) && i < |s.work.jobs| && j < |s.work.jobs|
    requires W.Active(s.work.jobs[i], s.now) && W.HoldsLease(s.work.jobs[i], worker)
    requires W.Active(s.work.jobs[j], s.now) && W.HoldsLease(s.work.jobs[j], worker)
    ensures i == j
  {
    ReachableIsInOrder(s, d);
  }

  /** An open or claimed job has no submission; done and expired jobs stay so, whatever is called on them. */
  lemma JobsEndForGood(s: Db, d: Deployment, steps: seq<Step>, j: nat)
    requires Reachable(H8_ONLY, s, d) && RunUnder(H8_ONLY, s, steps) && j < |s.work.jobs|
    ensures var was, later := s.work.jobs[j], Run(s, steps).work.jobs;
            && (was.status in {W.Open, W.Claimed} ==> was.current.None?)
            && j < |later|
            && (was.status in {W.Done, W.Expired} ==> later[j].status == was.status)
            && (was.current.Some? ==> later[j].current == was.current)
  {
    ReachableIsInOrder(s, d);
    assert W.JobOk(s.work, j);
    ReachableGoesOn(H8_ONLY, s, d, steps);
    hide Run, RunUnder, Reachable, InOrder, W.Orderly, LedgerFollows, DisputesFollow, PayFollows;
    assert JobFollows(H8_ONLY, s.work.jobs[j], Run(s, steps).work.jobs[j], s.work.nextNonce);
  }

  /** A release with the nonce of a lease that has ended frees nothing, whoever holds the job by then. */
  lemma OldNonceFreesNothing(s: Db, d: Deployment, steps: seq<Step>, j: nat, worker: nat)
    requires Reachable(NO_HYPOTHESIS, s, d) && j < |s.work.jobs| && s.work.jobs[j].lease.Some?
    ensures var s1 := Run(s, steps);
            && j < |s1.work.jobs|
            && (s1.work.jobs[j].lease != s.work.jobs[j].lease ==>
                  Next(s1, ReleaseJob(worker, j, s.work.jobs[j].lease.value.nonce)) == s1)
  {
    ReachableIsSafe(NO_HYPOTHESIS, s, d);
    assert Nonces(s.work);
    RunUnderNone(s, steps);
    ReachableGoesOn(NO_HYPOTHESIS, s, d, steps);
    hide Run, RunUnder, Reachable, Safe, LedgerFollows, DisputesFollow, PayFollows;
    assert JobFollows(NO_HYPOTHESIS, s.work.jobs[j], Run(s, steps).work.jobs[j], s.work.nextNonce);
  }

  /** Attempts are numbered 1 to k within the limit; all but the last were inconclusive, the last settles the job. */
  lemma AttemptsAreASequence(s: Db, d: Deployment, x: nat)
    requires Reachable(H4_H5, s, d) && x in s.work.attempts
    ensures var m, k := s.work.attempts[x], |s.work.attempts[x]|;
            && 1 <= k <= Max(1, s.work.maxAttempts)
            && (forall n :: n in m <==> 1 <= n <= k)
            && (forall n :: 1 <= n < k ==> m[n].status == W.Finished && m[n].verdict == Some(W.Inconclusive))
            && x < |s.work.submissions| && s.work.submissions[x].job < |s.work.jobs|
            && s.work.jobs[s.work.submissions[x].job].status
               == if m[k].status == W.Finished then W.Done else W.Verifying
  {
    ReachableIsSafe(H4_H5, s, d);
    assert W.Full(s.work, s.now);
    hide Safe, Reachable;
    W.FullParts(s.work, x, s.now);
    assert forall n :: n in s.work.attempts[x] <==> 1 <= n <= |s.work.attempts[x]|;
  }

  // ----- quotas -----

  /** Net spend of any UTC day or month stays within the org's limits; under H8 so do its open jobs. */
  lemma QuotasHold(h: Hypotheses, s: Db, d: Deployment, org: nat, day: nat, month: nat)
    requires Reachable(h, s, d)
    ensures org in s.ledger.orgs ==>
              var limits := s.ledger.orgs[org];
              && (limits.dailyLimit.Some? ==>
                    -L.Sum(s.ledger.events, L.SpentInDay(org, day)) <= limits.dailyLimit.value)
              && (limits.monthlyLimit.Some? ==>
                    -L.Sum(s.ledger.events, L.SpentInMonth(org, month)) <= limits.monthlyLimit.value)
              && (h.h8 && limits.maxOpenJobs.Some? ==> OpenJobs(s, org) <= limits.maxOpenJobs.value)
  {
    F.ReachableHasFunds(h, s, d);
    if h.h8 {
      ReachableUnderLess(h, H8_ONLY, s, d);
      ReachableIsInOrder(s, d);
      assert WithinOpenJobs(s, org);
    }
    hide Reachable, InOrder, W.Orderly;
  }
}
