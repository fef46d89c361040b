/**
 What else a second pass breaks by holding a payout anew: a payout that was executed is on
 hold again, and a dispute can be opened on one whose event is in hand. Exactly when.
 */
module RailRenewal {
  import opened Common
  import opened FeeSplit
  import opened Rail
  import opened RailSteps
  import opened RailResults
  import opened RailLimits
  import C = RailReclaim
  import F = RailFunds
  import O = Outbox
  import W = Work
  import P = Pay
  import L = Ledger

  // ----- executed before the hold is over -----

  predicate Executed(row: P.Payout) {
    row.status in {P.Paid, P.Failed}
  }

  /** A payout that was executed has its hold behind it. */
  predicate InTime(row: P.Payout, now: int) {
    Executed(row) ==> P.HoldOver(row, now)
  }

  ghost predicate AllInTime(p: P.Tables, now: int) {
    forall i :: 0 <= i < |p.payouts| ==> InTime(p.payouts[i], now)
  }

  /** Holds stay, and only payouts whose hold is over are newly executed. */
  ghost predicate Obeys(p: P.Tables, p1: P.Tables, now: int) {
    && |p.payouts| <= |p1.payouts|
    && (forall i :: 0 <= i < |p.payouts| ==>
          && p1.payouts[i].holdUntil == p.payouts[i].holdUntil
          && (Executed(p1.payouts[i]) ==> Executed(p.payouts[i]) || P.HoldOver(p.payouts[i], now)))
    && (forall i :: |p.payouts| <= i < |p1.payouts| ==> p1.payouts[i].status == P.Due)
  }

  lemma ObeysInTime(p: P.Tables, p1: P.Tables, now: int, now1: int)
    requires AllInTime(p, now) && Obeys(p, p1, now) && now <= now1
    ensures AllInTime(p1, now1)
  {
    forall i | 0 <= i < |p1.payouts|
      ensures InTime(p1.payouts[i], now1)
    {
      assert i < |p.payouts| ==> InTime(p.payouts[i], now);
    }
  }

  lemma SameObeys(p: P.Tables, box: O.Box<P.Key>, now: int)
    ensures Obeys(p, p.(box := box), now)
  {
  }

  lemma RequestObeys(
    p: P.Tables, x: nat, b: nat, worker: nat, amount: nat, windowSec: int, rates: LegalRates, now: int)
    requires x !in p.bySubmission
    ensures Obeys(p, P.RequestPayout(p, x, b, worker, amount, windowSec, rates, now), now)
  {
  }

  lemma OpenObeys(p: P.Tables, org: nat, i: nat, now: int)
    requires i < |p.payouts| && p.payouts[i].holdUntil.Some?
    ensures Obeys(p, P.OpenDispute(p, org, i, now), now)
  {
  }

  lemma FreeObeys(p: P.Tables, dp: nat, st: P.DisputeStatus, now: int)
    requires dp < |p.disputes| && p.disputes[dp].payout < |p.payouts|
    ensures Obeys(p, P.Free(p, dp, st, now), now)
  {
  }

  lemma ResolveObeys(s: Db, dp: nat, r: P.Resolution)
    requires DoResolve(s, dp, r).Ok?
    ensures Obeys(s.pay, DoResolve(s, dp, r).value.pay, s.now)
  {
    hide L.Credit;
  }

  lemma HandleRefundObeys(s: Db, w: nat, dp: nat, dbOk: bool)
    ensures Obeys(s.pay, DoHandleRefund(s, w, dp, dbOk).pay, s.now)
  {
    if DoResolve(s, dp, P.ToRefund).Ok? {
      ResolveObeys(s, dp, P.ToRefund);
    }
    hide DoResolve;
  }

  lemma ExecuteObeys(p: P.Tables, w: nat, i: nat, rates: Rates, walletSet: bool, answer: P.Provider, now: int)
    ensures Obeys(p, P.HandlePayout(p, w, i, rates, walletSet, answer, now), now)
  {
  }

  lemma VerdictObeys(s: Db, e: Step)
    requires e.GiveVerdict? && PassIsFirst(s, e)
    ensures Obeys(s.pay, Next(s, e).pay, s.now)
  {
    hide Next, Obeys, W.TakeVerdict, P.RequestPayout;
    if Next(s, e).pay == s.pay {
      SameObeys(s.pay, s.pay.box, s.now);
    } else {
      VerdictPay(s, e);
      PassStep(s, e);
      var x := e.submission;
      var b := s.work.jobs[s.work.submissions[x].job].bounty;
      RequestObeys(s.pay, x, b, s.work.submissions[x].worker, s.ledger.bounties[b].payoutCents,
                   s.ledger.bounties[b].windowSec, e.rates, s.now);
    }
  }

  lemma PayStepObeys(s: Db, e: Step)
    requires IsPayStep(e) && !e.GiveVerdict?
    ensures Obeys(s.pay, Next(s, e).pay, s.now)
  {
    hide Obeys, DoResolve, DoHandleRefund, ResolveTarget, P.HandlePayout, P.Free, P.OpenDispute, P.DisputeRefused,
         MayClaim, O.Claim, O.Ack, O.Crash;
    SameObeys(s.pay, s.pay.box, s.now);
    match e
    case OpenDispute(org, target) =>
      if DoOpenDispute(s, org, target).Ok? {
        OpenStep(s, org, target);
        OpenObeys(s.pay, org, ResolveTarget(s, org, target).value, s.now);
      }
    case CancelDispute(org, dp) =>
      if P.CancelDispute(s.pay, org, dp, s.now).Ok? {
        FreeObeys(s.pay, dp, P.Cancelled, s.now);
      }
    case ResolveDispute(dp, r) =>
      if DoResolve(s, dp, r).Ok? {
        ResolveObeys(s, dp, r);
      }
    case HandlePayout(w, i, rates, walletSet, answer) =>
      ExecuteObeys(s.pay, w, i, rates, walletSet, answer, s.now);
    case HandleRefund(w, dp, dbOk) => HandleRefundObeys(s, w, dp, dbOk);
    case _ => SameObeys(s.pay, Next(s, e).pay.box, s.now);
  }

  lemma StepKeepsInTime(s: Db, e: Step)
    requires AllInTime(s.pay, s.now) && PassIsFirst(s, e)
    ensures AllInTime(Next(s, e).pay, Next(s, e).now)
  {
    hide AllInTime, Obeys, Next, PassIsFirst;
    OnlyTicksTakeTime(s, e);
    if e.GiveVerdict? {
      VerdictObeys(s, e);
    } else if IsPayStep(e) {
      PayStepObeys(s, e);
    } else {
      OthersKeepPay(s, e);
      SameObeys(s.pay, s.pay.box, s.now);
    }
    ObeysInTime(s.pay, Next(s, e).pay, s.now, Next(s, e).now);
  }

  lemma {:induction false} RunKeepsInTime(s: Db, steps: seq<Step>)
    requires AllInTime(s.pay, s.now) && RunUnder(H6_ONLY, s, steps)
    ensures AllInTime(Run(s, steps).pay, Run(s, steps).now)
    decreases |steps|
  {
    hide AllInTime, Next, PassIsFirst;
    if steps != [] {
      StepKeepsInTime(s, steps[0]);
      RunKeepsInTime(Next(s, steps[0]), steps[1..]);
    }
  }

  /** The hold a pass gives the payout it finds, if it gives one. */
  function NewHold(s: Db, e: Step): Option<int>
    requires Taken(s, e) && BountyOf(s, e) < |s.ledger.bounties|
  {
    P.HoldUntil(s.ledger.bounties[BountyOf(s, e)].windowSec, s.now)
  }

  lemma SecondPass(s: Db, d: Deployment, e: Step)
    requires Reachable(H6_ONLY, s, d) && Taken(s, e) && e.verdict == W.Pass && e.submission in s.pay.bySubmission
    ensures var i := s.pay.bySubmission[e.submission];
            && i < |s.pay.payouts| && BountyOf(s, e) < |s.ledger.bounties|
            && C.Reheld(s, Next(s, e), i, if e.rates.Valid() then NewHold(s, e) else s.pay.payouts[i].holdUntil)
  {
    hide Reachable, Next, Taken, F.Owned;
    TakenStep(s, e);
    ReachableUnderLess(H6_ONLY, NO_HYPOTHESIS, s, d);
    BountyIsThere(s, d, e);
    C.IndexedPayout(s, d, e.submission);
    PayoutRow(H6_ONLY, s, d, s.pay.bySubmission[e.submission]);
    C.SecondPass(s, e);
  }

  /**
   After a pass on a submission that has a payout, a run that meets H6 shows some payout
   executed before its hold is over if and only if that payout was executed already and
   the pass holds it anew.
   */
  lemma PassBreaksExecutedIff(s: Db, d: Deployment, e: Step)
    requires Reachable(H6_ONLY, s, d) && Taken(s, e) && e.verdict == W.Pass && e.submission in s.pay.bySubmission
    ensures var i := s.pay.bySubmission[e.submission];
            && i < |s.pay.payouts| && BountyOf(s, e) < |s.ledger.bounties|
            && ((exists more :: RunUnder(H6_ONLY, Next(s, e), more)
                                && !AllInTime(Run(Next(s, e), more).pay, Run(Next(s, e), more).now))
                <==> Executed(s.pay.payouts[i]) && e.rates.Valid() && s.ledger.bounties[BountyOf(s, e)].windowSec > 0)
  {
    hide Reachable, Next, Taken;
    TakenStep(s, e);
    SecondPass(s, d, e);
    ReachableInTime(s, d);
    var i, s1 := s.pay.bySubmission[e.submission], Next(s, e);
    if Executed(s.pay.payouts[i]) && e.rates.Valid() && s.ledger.bounties[BountyOf(s, e)].windowSec > 0 {
      NoStep(H6_ONLY, s1);
      assert !InTime(s1.pay.payouts[i], s1.now);
    } else {
      assert AllInTime(s1.pay, s1.now);
      hide AllInTime, RunUnder, Run;
      forall more | RunUnder(H6_ONLY, s1, more)
        ensures AllInTime(Run(s1, more).pay, Run(s1, more).now)
      {
        RunKeepsInTime(s1, more);
      }
    }
  }

  lemma ReachableInTime(s: Db, d: Deployment)
    requires Reachable(H6_ONLY, s, d)
    ensures AllInTime(s.pay, s.now)
  {
    hide Reachable;
    forall i | 0 <= i < |s.pay.payouts|
      ensures InTime(s.pay.payouts[i], s.now)
    {
      if Executed(s.pay.payouts[i]) {
        ExecutedAfterHold(s, d, i);
      }
    }
  }

  /** A hold, which otherwise stays for good, moves exactly when legal rates come at another time. */
  lemma PassMovesHoldIff(s: Db, d: Deployment, e: Step)
    requires Reachable(H6_ONLY, s, d) && Taken(s, e) && e.verdict == W.Pass && e.submission in s.pay.bySubmission
    ensures var i := s.pay.bySubmission[e.submission];
            && i < |s.pay.payouts| == |Next(s, e).pay.payouts| && BountyOf(s, e) < |s.ledger.bounties|
            && (Next(s, e).pay.payouts[i].holdUntil != s.pay.payouts[i].holdUntil
                <==> e.rates.Valid() && NewHold(s, e) != s.pay.payouts[i].holdUntil)
  {
    hide Reachable, Next, Taken, P.HoldUntil;
    SecondPass(s, d, e);
  }

  // ----- disputes on a payout that is held anew -----

  /**
   A dispute that can be opened after a second pass is kept like any other if and only if
   the payout did not fail and no worker has its event in hand.
   */
  lemma DisputeIsKeptIff(s: Db, d: Deployment, e: Step, org: nat)
    requires Reachable(H6_ONLY, s, d) && Taken(s, e) && e.verdict == W.Pass && e.submission in s.pay.bySubmission
    requires DoOpenDispute(Next(s, e), org, OfPayout(s.pay.bySubmission[e.submission])).Ok?
    ensures var i, dp := s.pay.bySubmission[e.submission], |s.pay.disputes|;
            var s2 := Next(Next(s, e), OpenDispute(org, OfPayout(i)));
            && i < |s.pay.payouts| && P.IsOpen(s2.pay, dp) && s2.pay.disputes[dp].payout == i
            && (IsKept(s2.pay, dp) <==>
                  s.pay.payouts[i].status != P.Failed && P.NoneHolds(s.pay, P.PayoutRequested(i)))
  {
    hide Reachable, Next, Taken, P.Valid, P.PayoutsOk, P.DisputesOk, P.AllHeldOk, P.HoldUntil, ResolveTarget,
         DoOpenDispute, P.PayoutOk, P.OpenDispute, P.DisputeRefused, IsKept;
    TakenStep(s, e);
    SecondPass(s, d, e);
    ReachablePay(H6_ONLY, s, d);
    var i, s1 := s.pay.bySubmission[e.submission], Next(s, e);
    PayoutRow(H6_ONLY, s, d, i);
    TargetIs(s1, org, i);
    OpenStep(s1, org, OfPayout(i));
    NotRefused(s1.pay, i, s1.now);
    OpenedIsKept(s1.pay, org, i, s1.now);
  }

  lemma TargetIs(s: Db, org: nat, i: nat)
    requires DoOpenDispute(s, org, OfPayout(i)).Ok?
    ensures ResolveTarget(s, org, OfPayout(i)) == Ok(i)
  {
  }

  lemma OpenedIsKept(p: P.Tables, org: nat, i: nat, now: int)
    requires i < |p.payouts| && P.DisputeRefused(p, i, now).None? && p.payouts[i].holdUntil.Some?
    requires p.payouts[i].status != P.Paid && P.IndexOk(p) && P.PayoutRequested(i) in p.box.rows
    ensures var p1, dp := P.OpenDispute(p, org, i, now), |p.disputes|;
            && P.IsOpen(p1, dp) && p1.disputes[dp].payout == i
            && (IsKept(p1, dp) <==> p.payouts[i].status != P.Failed && P.NoneHolds(p, P.PayoutRequested(i)))
  {
    var p1, dp := P.OpenDispute(p, org, i, now), |p.disputes|;
    assert P.AutoRefund(dp) !in p.box.rows;
    assert !P.HasOpenDispute(p, i);
    forall e | e != dp
      ensures !P.OpenOn(p1, e, i)
    {
      assert P.OpenOn(p1, e, i) ==> P.OpenOn(p, e, i);
    }
  }
}
