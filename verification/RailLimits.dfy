/**
 Why H1, H2, H4, H5, H7, H8 and H9 are needed. The code checks none of them; here each is
 shown to be exactly the condition under which one more step keeps what the others rely on.
 */
module RailLimits {
  import opened Common
  import opened FeeSplit
  import opened Rail
  import opened RailSteps
  import opened RailJobs
  import opened RailSafety
  import opened RailResults
  import B = RailBudget
  import F = RailFunds
  import M = RailMoney
  import N = RailOnce
  import O = Outbox
  import W = Work
  import P = Pay
  import L = Ledger

  // ----- what a pass does -----

  function BountyOf(s: Db, e: Step): nat
    requires Taken(s, e)
  {
    s.work.jobs[s.work.submissions[e.submission].job].bounty
  }

  lemma BountyIsThere(s: Db, d: Deployment, e: Step)
    requires Reachable(NO_HYPOTHESIS, s, d) && Taken(s, e)
    ensures BountyOf(s, e) < |s.ledger.bounties| && F.Owned(s)
  {
    hide Reachable, L.Valid;
    F.ReachableHasFunds(NO_HYPOTHESIS, s, d);
  }

  /**
   A pass ends the job whatever its rates are, and leads to a payout exactly when they are
   legal, unless the submission has one already.
   */
  lemma PassIsPaidIff(s: Db, d: Deployment, e: Step)
    requires Reachable(NO_HYPOTHESIS, s, d) && Taken(s, e) && e.verdict == W.Pass
    ensures var s1 := Next(s, e);
            && e.submission < |s1.work.submissions| && s1.work.submissions[e.submission].job < |s1.work.jobs|
            && s1.work.jobs[s1.work.submissions[e.submission].job].status == W.Done
            && (e.submission in s1.pay.bySubmission <==> e.rates.Valid() || e.submission in s.pay.bySubmission)
  {
    hide Reachable, Next, Taken, W.TakeVerdict, F.Owned;
    BountyIsThere(s, d, e);
    TakenStep(s, e);
    PassCompletes(s.work, e.submission, e.attempt);
    if PassIsPaid(s, e) {
      PassAddsKey(s, e);
    } else {
      UnpaidStep(s, e);
    }
  }

  // ----- H1 and H9: a pass after the release, or on a refunded payout -----

  /** What the bounty holds covers what its payouts still need. */
  predicate Solvent(s: Db, b: nat) {
    L.Held(s.ledger.events, b) >= P.Sum(s.pay.payouts, P.NeedOf(b))
  }

  /** What is reserved and not committed, until it is released. */
  function Slack(s: Db, b: nat): int {
    if b in s.ledger.reservations && !s.ledger.reservations[b].released
    then s.ledger.reservations[b].amount - Committed(s, b) else 0
  }

  /** What a pass adds to the need of its bounty: a new payout, or a larger fee on a refunded one. */
  function MoreNeeded(s: Db, e: Step): int
    requires Taken(s, e) && BountyOf(s, e) < |s.ledger.bounties|
  {
    if !PassIsPaid(s, e) then 0
    else if e.submission !in s.pay.bySubmission then s.ledger.bounties[BountyOf(s, e)].payoutCents
    else if s.pay.bySubmission[e.submission] >= |s.pay.payouts| then 0
    else
      var row := s.pay.payouts[s.pay.bySubmission[e.submission]];
      if row.status != P.Refunded then 0
      else SplitOf(row.amount, e.rates).proofworkFee - row.split.proofworkFee
  }

  /** A pass leaves its bounty solvent exactly when what it adds to the need is within the slack. */
  lemma PassKeepsSolventIff(s: Db, d: Deployment, e: Step)
    requires Reachable(H1_H2_H7_H9, s, d) && Taken(s, e) && e.verdict == W.Pass
    ensures BountyOf(s, e) < |s.ledger.bounties|
    ensures Solvent(Next(s, e), BountyOf(s, e)) <==> MoreNeeded(s, e) <= Slack(s, BountyOf(s, e))
  {
    hide Reachable, Next, L.Held, P.Sum, Taken, F.Owned, MoreNeeded, Slack;
    ReachableUnderLess(H1_H2_H7_H9, NO_HYPOTHESIS, s, d);
    BountyIsThere(s, d, e);
    SlackIsLeft(s, d, BountyOf(s, e));
    PassNeedsMore(s, e);
  }

  /** What a bounty holds beyond its need is what is reserved and neither committed nor released. */
  lemma SlackIsLeft(s: Db, d: Deployment, b: nat)
    requires Reachable(H1_H2_H7_H9, s, d) && b < |s.ledger.bounties|
    ensures L.Held(s.ledger.events, b) - P.Sum(s.pay.payouts, P.NeedOf(b)) == Slack(s, b)
  {
    ReachableIsSafe(H1_H2_H7_H9, s, d);
    HeldOf(s, b, d.opening);
    hide Safe, Reachable, F.Funds, F.Owned, B.OneEach, P.Sum, L.Held;
    B.BudgetSuffices(s, b, d.opening);
    AllSplit(s);
    P.NeedIsGrossLessRefunds(s.pay.payouts, b);
  }

  lemma PassNeedsMore(s: Db, e: Step)
    requires Taken(s, e) && e.verdict == W.Pass && BountyOf(s, e) < |s.ledger.bounties| && F.Owned(s)
    ensures var b := BountyOf(s, e);
            && Next(s, e).ledger == s.ledger
            && P.Sum(Next(s, e).pay.payouts, P.NeedOf(b)) == P.Sum(s.pay.payouts, P.NeedOf(b)) + MoreNeeded(s, e)
  {
    hide Next, W.VerdictRefused, F.Owned, P.Sum;
    var b, s1 := BountyOf(s, e), Next(s, e);
    if !PassIsPaid(s, e) {
      M.UnpaidVerdict(s, e);
    } else if e.submission !in s.pay.bySubmission {
      M.FirstPassAdds(s, e);
      P.SumAppend(s.pay.payouts, s1.pay.payouts[|s.pay.payouts|], P.NeedOf(b));
    } else {
      var i := s.pay.bySubmission[e.submission];
      M.OwnedRow(s, e.submission);
      M.SecondPassRewrites(s, e);
      P.SumUpdate(s.pay.payouts, i, s1.pay.payouts[i], P.NeedOf(b));
    }
  }

  /** For the first payout of a job, H1 is that condition, unless the payout is nothing. */
  lemma FirstPassKeepsSolventIff(s: Db, d: Deployment, e: Step)
    requires Reachable(H1_H2_H7_H9, s, d) && PassIsPaid(s, e)
    requires e.submission !in s.pay.bySubmission && JobIsPaidOnce(s, e)
    ensures var b := BountyOf(s, e);
            && b < |s.ledger.bounties|
            && (Solvent(Next(s, e), b) <==> ReservationOpen(s, e) || s.ledger.bounties[b].payoutCents == 0)
  {
    PassKeepsSolventIff(s, d, e);
    var b := BountyOf(s, e);
    if ReservationOpen(s, e) {
      assert Meets(H1_H2_H7_H9, s, e);
      OthersKeepLedger(s, e);
      hide Next, Meets, Reachable, Taken, L.Held, P.Sum;
      ReachableStep(H1_H2_H7_H9, s, d, e);
      HeldFundsSuffice(Next(s, e), d, b);
    } else {
      hide Next, Reachable, Taken, L.Held, P.Sum;
    }
  }

  /** A verdict keeps the refunds booked for every payout exactly what it is refunded if and only if it meets H9. */
  lemma PassKeepsRefundsIff(s: Db, d: Deployment, e: Step)
    requires Reachable(H2_H9, s, d) && e.GiveVerdict?
    ensures M.AllRefunded(Next(s, e)) <==> FeeStays(s, e)
  {
    RefundsOf(s, d);
    hide Reachable, Next, M.AllRefunded, N.PayOnce, F.Owned, FeeStays;
    if FeeStays(s, e) {
      M.StepKeepsRefunds(s, e);
    } else {
      OtherFeeBreaks(s, e);
    }
  }

  lemma RefundsOf(s: Db, d: Deployment)
    requires Reachable(H2_H9, s, d)
    ensures M.AllRefunded(s) && N.PayOnce(s.pay) && F.Owned(s)
  {
    ReachableIsSafe(H2_H9, s, d);
    hide Reachable, Nonces, M.AllRefunded, L.Valid, F.Owned;
  }

  lemma OtherFeeBreaks(s: Db, e: Step)
    requires M.AllRefunded(s) && F.Owned(s) && !FeeStays(s, e)
    ensures !M.AllRefunded(Next(s, e))
  {
    hide Next, Taken, F.Owned, L.Sum;
    TakenStep(s, e);
    var i := s.pay.bySubmission[e.submission];
    M.OwnedRow(s, e.submission);
    M.SecondPassRewrites(s, e);
    assert M.RefundIs(s, i);
    assert !M.RefundIs(Next(s, e), i);
  }

  // ----- H7: a second payout for a job -----

  /**
   A pass leaves the gross of its bounty's payouts within the reservation exactly when it
   creates no second payout for its job, the payout is nothing, or another job of the
   bounty has none yet.
   */
  lemma PassFitsBudgetIff(s: Db, d: Deployment, e: Step)
    requires Reachable(H7_ONLY, s, d) && Taken(s, e) && e.verdict == W.Pass
    ensures var b := BountyOf(s, e);
            && b < |s.ledger.bounties|
            && (Committed(Next(s, e), b) <= B.Reserved(Next(s, e), b) <==>
                  || JobIsPaidOnce(s, e)
                  || s.ledger.bounties[b].payoutCents == 0
                  || exists j :: 0 <= j < |s.work.jobs| && s.work.jobs[j].bounty == b && !B.JobIsPaid(s, j))
  {
    B.ReachableIsPaidOnce(s, d);
    ReachableUnderLess(H7_ONLY, NO_HYPOTHESIS, s, d);
    BountyIsThere(s, d, e);
    if JobIsPaidOnce(s, e) {
      assert Meets(H7_ONLY, s, e);
      OthersKeepLedger(s, e);
      hide Next, Meets, Reachable, Taken, F.Owned, F.Funds, B.OneEach, Committed, B.Reserved;
      ReachableStep(H7_ONLY, s, d, e);
      B.BudgetAlwaysSuffices(Next(s, e), d, BountyOf(s, e));
    } else {
      hide Next, Reachable, F.Owned, F.Funds, B.OneEach, Committed, B.Reserved;
      SecondPayout(s, e, d.opening);
    }
  }

  /** The second payout of a job uses up what was reserved for another one. */
  lemma SecondPayout(s: Db, e: Step, opening: map<nat, nat>)
    requires F.Funds(s, opening) && F.Owned(s) && B.OneEach(s) && Taken(s, e) && !JobIsPaidOnce(s, e)
    requires BountyOf(s, e) < |s.ledger.bounties|
    ensures var b := BountyOf(s, e);
            Committed(Next(s, e), b) <= B.Reserved(Next(s, e), b) <==>
            || s.ledger.bounties[b].payoutCents == 0
            || exists j :: 0 <= j < |s.work.jobs| && s.work.jobs[j].bounty == b && !B.JobIsPaid(s, j)
  {
    hide F.Funds, F.Owned, B.OneEach, Next, P.Sum, W.Count, W.TakeVerdict, W.VerdictRefused, B.JobIsPaid;
    var b := BountyOf(s, e);
    var price, number, jobs := s.ledger.bounties[b].payoutCents, P.Sum(s.pay.payouts, P.NumberOf(b)), JobsOf(s, b);
    TakenStep(s, e);
    B.PayoutsFitJobs(s, b);
    B.JobsAreReserved(s, b, opening);
    W.CountIsPositive(s.work.jobs, s.work.submissions[e.submission].job, W.OfBounty(b));
    CommittedAfter(s, e);
    hide JobIsPaidOnce, Taken, Committed;
    OneTooMany(price, number, jobs);
  }

  lemma CommittedAfter(s: Db, e: Step)
    requires F.Owned(s) && Taken(s, e) && !JobIsPaidOnce(s, e) && BountyOf(s, e) < |s.ledger.bounties|
    ensures var b := BountyOf(s, e);
            var price := s.ledger.bounties[b].payoutCents;
            && Next(s, e).ledger == s.ledger
            && Committed(Next(s, e), b) == price * P.Sum(s.pay.payouts, P.NumberOf(b)) + price
  {
    hide F.Owned, Next, P.Sum, W.TakeVerdict, W.VerdictRefused;
    var b := BountyOf(s, e);
    B.AmountsAgree(s, b);
    M.FirstPassAdds(s, e);
    P.SumAppend(s.pay.payouts, Next(s, e).pay.payouts[|s.pay.payouts|], P.GrossOf(b));
  }

  lemma OneTooMany(price: nat, number: nat, jobs: nat)
    requires number <= jobs
    ensures price * number + price <= price * jobs <==> price == 0 || number < jobs
  {
    assert price * number + price == price * (number + 1);
    if number < jobs {
      B.MulLe(price, number + 1, jobs);
    }
  }

  // ----- H8: a verdict on a job that is not under verification -----

  /**
   A verdict that is taken keeps every job in order, each with at most one worker, and
   lets jobs that are over stay so, exactly when it meets H8.
   */
  lemma VerdictKeepsOrderIff(s: Db, d: Deployment, e: Step)
    requires Reachable(H8_ONLY, s, d) && e.GiveVerdict?
    ensures InOrder(Next(s, e)) && WorkFollows(H8_ONLY, s.work, Next(s, e).work) <==> VerdictIsInOrder(s, e)
  {
    ReachableIsInOrder(s, d);
    ReachableUnderLess(H8_ONLY, NO_HYPOTHESIS, s, d);
    if VerdictIsInOrder(s, e) {
      F.ReachableHasFunds(NO_HYPOTHESIS, s, d);
      F.FundsParts(s, d.opening);
      hide Reachable, InOrder, WorkFollows, F.Owned, F.Funds, Next, VerdictIsInOrder;
      InOrderParts(s);
      WorkStepFollows(H8_ONLY, s, e);
      StepKeepsOrder(s, e);
    } else {
      BadVerdictBreaks(s, e);
    }
  }

  lemma BadVerdictBreaks(s: Db, e: Step)
    requires W.Orderly(s.work, s.now) && Taken(s, e) && !VerdictIsInOrder(s, e)
    ensures !InOrder(Next(s, e)) || !WorkFollows(H8_ONLY, s.work, Next(s, e).work)
  {
    var x, j, t1 := e.submission, s.work.submissions[e.submission].job, Next(s, e).work;
    TakenStep(s, e);
    assert W.JobOk(s.work, j);
    W.TakeVerdictRequeues(s.work, x, e.attempt, e.verdict);
    hide Next, Taken, W.TakeVerdict, W.Requeues;
    if InOrder(Next(s, e)) {
      InOrderParts(Next(s, e));
      hide InOrder;
      assert W.JobOk(t1, j);
      assert !JobFollows(H8_ONLY, s.work.jobs[j], t1.jobs[j], s.work.nextNonce);
    }
  }

  // ----- H4 and H5: which verifier claims keep the attempts in order -----

  /**
   After a verifier claim the attempts are still numbered 1 to k, all but the last
   inconclusive, exactly when the claim was refused for want of a submission or it
   named an attempt that was enqueued and not yet finished.
   */
  lemma ClaimKeepsFullIff(s: Db, d: Deployment, x: nat, n: nat, ttl: int)
    requires Reachable(H4_H5, s, d)
    ensures W.Full(Next(s, VerifierClaim(x, n, ttl)).work, s.now) <==>
            x >= |s.work.submissions| || (W.ClaimIsEnqueued(s.work, x, n) && W.ClaimIsOpen(s.work, x, n))
  {
    ReachableIsSafe(H4_H5, s, d);
    assert W.Full(s.work, s.now);
    ClaimVerifier(s, x, n, ttl);
    hide Next, Reachable, Safe, W.Full, W.VerifierClaim;
    if x < |s.work.submissions| {
      if W.ClaimIsEnqueued(s.work, x, n) && W.ClaimIsOpen(s.work, x, n) {
        W.VerifierClaimKeepsFull(s.work, x, n, ttl, s.now);
      } else {
        BadClaimBreaks(s.work, x, n, ttl, s.now);
      }
    } else {
      NotFoundWritesNothing(s.work, x, n, ttl, s.now);
    }
  }

  lemma ClaimVerifier(s: Db, x: nat, n: nat, ttl: int)
    ensures Next(s, VerifierClaim(x, n, ttl)) == s.(work := W.VerifierClaim(s.work, x, n, ttl, s.now).t)
  {
    hide W.VerifierClaim;
  }

  lemma NotFoundWritesNothing(t: W.Tables, x: nat, n: nat, ttl: int, now: int)
    requires x >= |t.submissions|
    ensures W.VerifierClaim(t, x, n, ttl, now).t == t
  {
  }

  lemma BadClaimBreaks(t: W.Tables, x: nat, n: nat, ttl: int, now: int)
    requires W.Full(t, now) && x < |t.submissions|
    requires W.ClaimIsEnqueued(t, x, n) ==> !W.ClaimIsOpen(t, x, n)
    ensures !W.Full(W.VerifierClaim(t, x, n, ttl, now).t, now)
  {
    var t1 := W.VerifierClaim(t, x, n, ttl, now).t;
    BadClaimWrites(t, x, n, ttl, now);
    FullIsBase(t, now);
    if x in t.attempts {
      W.FullParts(t, x, now);
    }
    hide W.VerifierClaim;
    if W.Full(t1, now) {
      W.FullParts(t1, x, now);
      hide W.Full, W.OneActive;
      assert W.JobOk(t, t.submissions[x].job);
      hide W.Base;
      if x in t.attempts {
        hide W.JobOk;
        NoSecondWayOn(t.attempts[x], t1.attempts[x], n, t.jobs[t.submissions[x].job].status);
      } else {
        NoFirstWayIn(t1.attempts[x], n, t.jobs[t.submissions[x].job].status);
      }
    }
  }

  lemma BadClaimWrites(t: W.Tables, x: nat, n: nat, ttl: int, now: int)
    requires x < |t.submissions|
    requires W.ClaimIsEnqueued(t, x, n) ==> !W.ClaimIsOpen(t, x, n)
    ensures var t1 := W.VerifierClaim(t, x, n, ttl, now).t;
            && t1.jobs == t.jobs && t1.submissions == t.submissions
            && x in t1.attempts && n in t1.attempts[x] && t1.attempts[x][n].status == W.InProgress
            && t1.attempts[x] == (if x in t.attempts then t.attempts[x] else map[])[n := t1.attempts[x][n]]
  {
  }

  lemma NoFirstWayIn(m1: W.Attempts, n: nat, status: W.JobStatus)
    requires W.Numbered(m1) && n in m1 && m1 == map[][n := m1[n]] && m1[n].status == W.InProgress
    requires W.InSequence(m1, status)
    ensures status == W.Verifying
  {
    assert |m1| in m1;
  }

  lemma NoSecondWayOn(m: W.Attempts, m1: W.Attempts, n: nat, status: W.JobStatus)
    requires W.Numbered(m) && W.Numbered(m1) && n in m1 && m1 == m[n := m1[n]] && m1[n].status == W.InProgress
    requires n in m ==> m[n].status == W.Finished
    requires W.InSequence(m, status)
    ensures !W.InSequence(m1, status)
  {
    if n in m {
      W.SameNumbers(m, n, m1[n]);
    } else {
      assert m1.Keys == m.Keys + {n} && |m1.Keys| == |m| + 1;
      assert |m| in m && n == |m| + 1 == |m1|;
      assert m1[|m|] == m[|m|];
    }
  }

  // ----- H2: a dispute on a payout that was refunded -----

  /** The payout is refunded after some of the steps, and paid after more of them. */
  ghost predicate RefundedThenPaid(s: Db, i: nat, steps: seq<Step>, more: seq<Step>) {
    var s1, s2 := Run(s, steps), Run(Run(s, steps), more);
    && RunUnder(H2_ONLY, s, steps) && RunUnder(H2_ONLY, s1, more)
    && i < |s1.pay.payouts| && s1.pay.payouts[i].status == P.Refunded
    && i < |s2.pay.payouts| && s2.pay.payouts[i].status == P.Paid
  }

  /** A refunded payout that is asked for again. */
  predicate Payable(s: Db, i: nat) {
    && i < |s.pay.payouts| && s.pay.payouts[i].status == P.Refunded && s.pay.payouts[i].blocked == P.Unblocked
    && s.pay.payouts[i].holdUntil.Some?
    && P.PayoutRequested(i) in s.pay.box.rows
    && s.pay.box.rows[P.PayoutRequested(i)].status == O.Pending
    && s.pay.box.rows[P.PayoutRequested(i)].availableAt == s.pay.payouts[i].holdUntil.value
  }

  predicate Claimable(s: Db, i: nat) {
    Payable(s, i) && s.pay.payouts[i].holdUntil.value <= s.now
  }

  /** Runner 0 restarts, claims the event and pays. */
  lemma ClaimableGetsPaid(s: Db, i: nat) returns (more: seq<Step>)
    requires Claimable(s, i)
    ensures RunUnder(ALL, s, more) && i < |Run(s, more).pay.payouts| && Run(s, more).pay.payouts[i].status == P.Paid
    ensures Run(s, more).ledger == s.ledger
  {
    var key := P.PayoutRequested(i);
    var a, c := Crash(0), HandlePayout(0, i, Rates(0, 100), true, P.SaysPaid);
    var s1 := Next(s, a);
    assert Claimable(s1, i) && O.Idle(s1.pay.box, 0) && s1.pay.box.rows == s.pay.box.rows;
    hide Claimable;
    var b := IdleClaims(s1, key);
    var s2 := Next(s1, b);
    assert Meets(ALL, s, a) && Meets(ALL, s1, b) && Meets(ALL, s2, c);
    hide Next, Meets;
    HandlePays(s2, i);
    OneStep(ALL, s2, c);
    StepFirst(ALL, s1, b, [c]);
    StepFirst(ALL, s, a, [b] + [c]);
    more := [a] + ([b] + [c]);
  }

  lemma HandlePays(s: Db, i: nat)
    requires i < |s.pay.payouts| && s.pay.payouts[i].status == P.Refunded && s.pay.payouts[i].blocked == P.Unblocked
    requires P.HoldOver(s.pay.payouts[i], s.now) && P.MayHandle(s.pay, 0, P.PayoutRequested(i))
    ensures var s1 := Next(s, HandlePayout(0, i, Rates(0, 100), true, P.SaysPaid));
            i < |s1.pay.payouts| && s1.pay.payouts[i].status == P.Paid && s1.ledger == s.ledger
  {
  }

  /** Once the hold is over the payout is claimed and paid. */
  lemma PayableGetsPaid(s: Db, i: nat) returns (more: seq<Step>)
    requires Payable(s, i)
    ensures RunUnder(ALL, s, more) && i < |Run(s, more).pay.payouts| && Run(s, more).pay.payouts[i].status == P.Paid
    ensures Run(s, more).ledger == s.ledger
  {
    var wait := Tick(Max(0, s.pay.payouts[i].holdUntil.value - s.now));
    var s1 := Next(s, wait);
    assert Claimable(s1, i) && Meets(ALL, s, wait) && s1.ledger == s.ledger;
    more := ClaimableGetsPaid(s1, i);
    hide Next, Meets;
    StepFirst(ALL, s, wait, more);
    more := [wait] + more;
  }

  /** The buyer opens a dispute on a refunded payout and withdraws it. */
  lemma WithdrawnIsPayable(s: Db, org: nat, target: Target)
    requires DoOpenDispute(s, org, target).Ok?
    ensures var i, s1 := ResolveTarget(s, org, target).value, Next(s, OpenDispute(org, target));
            var s2 := Next(s1, CancelDispute(org, |s.pay.disputes|));
            && i < |s.pay.payouts| && i < |s1.pay.payouts|
            && s1.pay.payouts[i].status == s.pay.payouts[i].status
            && s1.ledger == s.ledger && s2.ledger == s.ledger
            && (s.pay.payouts[i].status == P.Refunded ==> Payable(s2, i))
  {
    var i := ResolveTarget(s, org, target).value;
    assert i < |s.pay.payouts|;
    OpenStep(s, org, target);
    hide Next, ResolveTarget, DoOpenDispute, P.DisputeRefused;
    OpenedAndWithdrawn(s.pay, org, i, s.now);
    CancelStep(Next(s, OpenDispute(org, target)), org, |s.pay.disputes|);
  }

  lemma OpenedAndWithdrawn(p: P.Tables, org: nat, i: nat, now: int)
    requires i < |p.payouts| && P.DisputeRefused(p, i, now).None?
    ensures var p1 := P.OpenDispute(p, org, i, now);
            var r := P.CancelDispute(p1, org, |p.disputes|, now);
            && i < |p1.payouts| && p1.payouts[i].status == p.payouts[i].status
            && r.Ok? && i < |r.value.payouts|
            && r.value.payouts[i] == p.payouts[i].(blocked := P.Unblocked)
            && P.PayoutRequested(i) in r.value.box.rows
            && r.value.box.rows[P.PayoutRequested(i)].status == O.Pending
            && r.value.box.rows[P.PayoutRequested(i)].availableAt == p.payouts[i].holdUntil.value
  {
    var dp := |p.disputes|;
    assert P.PayoutRequested(i) != P.AutoRefund(dp);
    var p1 := P.OpenDispute(p, org, i, now);
    assert p1.disputes[dp] == P.Dispute(org, p.payouts[i].bounty, i, P.Open);
    assert P.CancelDispute(p1, org, dp, now) == Ok(P.Free(p1, dp, P.Cancelled, now));
  }

  /**
   Once a dispute is opened, the payout can later be refunded and then be paid exactly
   when it was already refunded: the code refuses disputes on paid payouts only. The
   buyer then keeps the refund as well.
   */
  lemma DisputeMayPayRefundedIff(s: Db, d: Deployment, org: nat, target: Target)
    requires Reachable(H2_ONLY, s, d) && DoOpenDispute(s, org, target).Ok?
    ensures ResolveTarget(s, org, target).value < |s.pay.payouts|
    ensures var i, s1 := ResolveTarget(s, org, target).value, Next(s, OpenDispute(org, target));
            (exists steps, more :: RefundedThenPaid(s1, i, steps, more)) <==> s.pay.payouts[i].status == P.Refunded
  {
    var e := OpenDispute(org, target);
    var i, s1 := ResolveTarget(s, org, target).value, Next(s, e);
    WithdrawnIsPayable(s, org, target);
    if s.pay.payouts[i].status == P.Refunded {
      var more := PaidAfterRefund(s, org, target);
      hide Next, Run, RunUnder;
      NoStep(H2_ONLY, s1);
      RunUnderLess(ALL, H2_ONLY, s1, more);
      assert RefundedThenPaid(s1, i, [], more);
    } else {
      assert Meets(H2_ONLY, s, e);
      hide Next, Meets;
      ReachableStep(H2_ONLY, s, d, e);
      NeverRefundedThenPaid(s1, d, i);
    }
  }

  /** Withdraw, wait, pay: whatever was refunded stays booked. */
  lemma PaidAfterRefund(s: Db, org: nat, target: Target) returns (more: seq<Step>)
    requires DoOpenDispute(s, org, target).Ok?
    requires s.pay.payouts[ResolveTarget(s, org, target).value].status == P.Refunded
    ensures var i, s1 := ResolveTarget(s, org, target).value, Next(s, OpenDispute(org, target));
            && RunUnder(ALL, s1, more)
            && i < |s.pay.payouts| && i < |Run(s1, more).pay.payouts|
            && Run(s1, more).pay.payouts[i].status == P.Paid
            && L.Sum(Run(s1, more).ledger.events, L.RefundsOf(i)) == L.Sum(s.ledger.events, L.RefundsOf(i))
  {
    var i, s1 := ResolveTarget(s, org, target).value, Next(s, OpenDispute(org, target));
    var e := CancelDispute(org, |s.pay.disputes|);
    WithdrawnIsPayable(s, org, target);
    assert Meets(ALL, s1, e);
    hide Next, Meets, Payable;
    more := PayableGetsPaid(Next(s1, e), i);
    StepFirst(ALL, s1, e, more);
    more := [e] + more;
  }

  lemma NeverRefundedThenPaid(s: Db, d: Deployment, i: nat)
    requires Reachable(H2_ONLY, s, d)
    ensures !exists steps, more :: RefundedThenPaid(s, i, steps, more)
  {
    forall steps, more
      ensures !RefundedThenPaid(s, i, steps, more)
    {
      if RefundedThenPaid(s, i, steps, more) {
        ReachableRunsOn(H2_ONLY, s, d, steps);
        RefundExcludesPayment(Run(s, steps), d, more, i);
      }
    }
  }
}
