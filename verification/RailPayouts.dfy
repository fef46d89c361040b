/**
 When exactly a payout is paid, fails or is refunded: what the provider answered, or a
 refund of a dispute that is open on it, and nothing else.
 */
module RailPayouts {
  import opened FeeSplit
  import opened Rail
  import opened RailSteps
  import opened RailPay
  import opened RailResults
  import F = RailFunds
  import O = Outbox
  import W = Work
  import P = Pay
  import L = Ledger

  // ----- when the provider is asked -----

  /** Worker w has the payout's event in hand, and its handler gets as far as asking the provider. */
  predicate AsksProvider(s: Db, w: nat, i: nat, rates: Rates, walletSet: bool) {
    && (w, P.PayoutRequested(i)) in s.pay.box.held && s.pay.box.held[(w, P.PayoutRequested(i))].phase == O.Claimed
    && i < |s.pay.payouts| && s.pay.payouts[i].status != P.Paid && s.pay.payouts[i].blocked == P.Unblocked
    && (s.pay.payouts[i].holdUntil.Some? ==> s.pay.payouts[i].holdUntil.value <= s.now)
    && rates.platformBps >= 0 && rates.proofworkBps >= 0 && rates.platformBps + rates.proofworkBps <= 10_000
    && (rates.platformBps > 0 ==> walletSet)
  }

  predicate AsksFor(s: Db, e: Step, i: nat) {
    e.HandlePayout? && e.payout == i && AsksProvider(s, e.runner, i, e.settings, e.walletSet)
  }

  /** The step refunds payout i: an admin, or the worker with the refund event in hand, ends a dispute open on it. */
  predicate RefundsIt(s: Db, e: Step, i: nat) {
    && (e.ResolveDispute? || e.HandleRefund?)
    && P.OpenOn(s.pay, e.dispute, i) && i < |s.pay.payouts| && s.pay.payouts[i].status in {P.Due, P.Failed}
    && (e.ResolveDispute? ==> e.resolution == P.ToRefund)
    && (e.HandleRefund? ==>
          && e.dbOk && (e.runner, P.AutoRefund(e.dispute)) in s.pay.box.held
          && s.pay.box.held[(e.runner, P.AutoRefund(e.dispute))].phase == O.Claimed)
  }

  // ----- what a step does to the status of a payout -----

  /** The status of payout i after the step. */
  function StatusAfter(s: Db, e: Step, i: nat): P.PayoutStatus
    requires i < |s.pay.payouts|
  {
    if AsksFor(s, e, i) then
      match e.answer
      case SaysPaid => P.Paid
      case SaysFailed => P.Failed
      case Throws => s.pay.payouts[i].status
    else if RefundsIt(s, e, i) then P.Refunded
    else s.pay.payouts[i].status
  }

  ghost predicate SameStatuses(p: P.Tables, p1: P.Tables) {
    && |p.payouts| <= |p1.payouts|
    && (forall i :: 0 <= i < |p.payouts| ==> p1.payouts[i].status == p.payouts[i].status)
    && (forall i :: |p.payouts| <= i < |p1.payouts| ==> p1.payouts[i].status == P.Due)
  }

  lemma BoxSame(p: P.Tables, box: O.Box<P.Key>)
    ensures SameStatuses(p, p.(box := box))
  {
  }

  lemma RequestSame(
    p: P.Tables, x: nat, b: nat, worker: nat, amount: nat, windowSec: int, rates: LegalRates, now: int)
    ensures SameStatuses(p, P.RequestPayout(p, x, b, worker, amount, windowSec, rates, now))
  {
  }

  lemma OpenSame(p: P.Tables, org: nat, i: nat, now: int)
    requires i < |p.payouts| && p.payouts[i].holdUntil.Some?
    ensures SameStatuses(p, P.OpenDispute(p, org, i, now))
  {
  }

  lemma FreeSame(p: P.Tables, dp: nat, st: P.DisputeStatus, now: int)
    requires dp < |p.disputes| && p.disputes[dp].payout < |p.payouts|
    ensures SameStatuses(p, P.Free(p, dp, st, now))
  {
  }

  lemma ExecuteStatus(s: Db, e: Step, i: nat)
    requires e.HandlePayout? && i < |s.pay.payouts|
    ensures var p1 := P.HandlePayout(s.pay, e.runner, e.payout, e.settings, e.walletSet, e.answer, s.now);
            |p1.payouts| == |s.pay.payouts| && p1.payouts[i].status == StatusAfter(s, e, i)
  {
  }

  lemma ResolveStatus(s: Db, dp: nat, r: P.Resolution, i: nat)
    requires i < |s.pay.payouts|
    ensures var p1 := if DoResolve(s, dp, r).Ok? then DoResolve(s, dp, r).value.pay else s.pay;
            && |p1.payouts| == |s.pay.payouts|
            && p1.payouts[i].status
               == if r == P.ToRefund && P.OpenOn(s.pay, dp, i) && s.pay.payouts[i].status in {P.Due, P.Failed}
                  then P.Refunded else s.pay.payouts[i].status
  {
    hide L.Credit;
  }

  lemma DisputeStepStatus(s: Db, e: Step, i: nat)
    requires i < |s.pay.payouts| && (e.OpenDispute? || e.CancelDispute? || e.ResolveDispute? || e.HandleRefund?)
    ensures i < |Next(s, e).pay.payouts| && Next(s, e).pay.payouts[i].status == StatusAfter(s, e, i)
  {
    hide DoResolve, ResolveTarget, P.OpenDispute, P.Free, P.DisputeRefused;
    match e
    case OpenDispute(org, target) =>
      if DoOpenDispute(s, org, target).Ok? {
        OpenStep(s, org, target);
        OpenSame(s.pay, org, ResolveTarget(s, org, target).value, s.now);
      }
    case CancelDispute(org, dp) =>
      CancelStep(s, org, dp);
      if P.CancelDispute(s.pay, org, dp, s.now).Ok? {
        FreeSame(s.pay, dp, P.Cancelled, s.now);
      }
    case ResolveDispute(dp, r) => ResolveStatus(s, dp, r, i);
    case HandleRefund(w, dp, dbOk) => ResolveStatus(s, dp, P.ToRefund, i);
  }

  lemma VerdictStatus(s: Db, e: Step)
    requires e.GiveVerdict?
    ensures SameStatuses(s.pay, Next(s, e).pay)
  {
    hide Next, SameStatuses, W.TakeVerdict, P.RequestPayout;
    if Next(s, e).pay == s.pay {
      BoxSame(s.pay, s.pay.box);
    } else {
      VerdictPay(s, e);
      PassStep(s, e);
      var x := e.submission;
      var b := s.work.jobs[s.work.submissions[x].job].bounty;
      RequestSame(s.pay, x, b, s.work.submissions[x].worker, s.ledger.bounties[b].payoutCents,
                  s.ledger.bounties[b].windowSec, e.rates, s.now);
    }
  }

  /**
   A payout is paid exactly when a worker asks the provider and it says so, fails exactly
   when it says that, and is refunded exactly when a dispute that is open on it is refunded.
   */
  lemma StatusChangesIff(s: Db, e: Step, i: nat)
    requires i < |s.pay.payouts|
    ensures i < |Next(s, e).pay.payouts| && Next(s, e).pay.payouts[i].status == StatusAfter(s, e, i)
  {
    if e.GiveVerdict? {
      hide Next;
      VerdictStatus(s, e);
    } else if e.HandlePayout? {
      hide P.HandlePayout, StatusAfter;
      ExecuteStatus(s, e, i);
    } else if e.OpenDispute? || e.CancelDispute? || e.ResolveDispute? || e.HandleRefund? {
      hide Next, StatusAfter;
      DisputeStepStatus(s, e, i);
    } else if IsPayStep(e) {
      hide O.Claim, O.Ack, O.Crash, MayClaim;
    } else {
      hide Next;
      OthersKeepPay(s, e);
    }
  }

  // ----- what a step does to the split of a payout -----

  /** The step passes the submission that payout i is for, and the rates are legal. */
  predicate PassesAgain(s: Db, e: Step, i: nat)
    requires i < |s.pay.payouts|
  {
    && PassIsPaid(s, e) && e.submission == s.pay.payouts[i].submission
  }

  /** The split is of the rates of whoever asked the provider or passed the submission, and otherwise as it was. */
  ghost predicate SplitFollows(s: Db, e: Step, i: nat, after: P.Payout)
    requires i < |s.pay.payouts|
  {
    var row := s.pay.payouts[i];
    if AsksFor(s, e, i) then IsSplit(row.amount, e.settings, after.split)
    else if PassesAgain(s, e, i) then IsSplit(row.amount, e.rates, after.split)
    else after.split == row.split
  }

  lemma ExecuteSplits(s: Db, e: Step, i: nat)
    requires e.HandlePayout? && i < |s.pay.payouts|
    ensures var p1 := P.HandlePayout(s.pay, e.runner, e.payout, e.settings, e.walletSet, e.answer, s.now);
            |p1.payouts| == |s.pay.payouts| && SplitFollows(s, e, i, p1.payouts[i])
  {
    if AsksFor(s, e, i) {
      SplitIff(s.pay.payouts[i].amount, e.settings, SplitOf(s.pay.payouts[i].amount, e.settings));
    }
    hide SplitOf, IsSplit;
  }

  lemma PassSplits(s: Db, e: Step, i: nat)
    requires F.Owned(s) && e.GiveVerdict? && i < |s.pay.payouts|
    ensures i < |Next(s, e).pay.payouts| && SplitFollows(s, e, i, Next(s, e).pay.payouts[i])
  {
    hide Next, Taken, SplitOf, IsSplit, W.TakeVerdict;
    assert F.PayoutOwned(s, s.pay.payouts[i]);
    if PassIsPaid(s, e) {
      JudgedHasBounty(s, e);
      PassStep(s, e);
      var row := s.pay.payouts[i];
      SplitIff(row.amount, e.rates, SplitOf(row.amount, e.rates));
    } else {
      PayUnchanged(s, e);
    }
  }

  lemma PayUnchanged(s: Db, e: Step)
    requires e.GiveVerdict? && !PassIsPaid(s, e)
    ensures Next(s, e).pay == s.pay
  {
    hide Next, PassIsPaid;
    if Next(s, e).pay != s.pay {
      VerdictPay(s, e);
    }
  }

  lemma JudgedHasBounty(s: Db, e: Step)
    requires F.Owned(s) && PassIsPaid(s, e)
    ensures e.submission < |s.work.submissions| && s.work.submissions[e.submission].job < |s.work.jobs|
    ensures s.work.jobs[s.work.submissions[e.submission].job].bounty < |s.ledger.bounties|
  {
    TakenStep(s, e);
    hide Next, W.TakeVerdict;
  }

  lemma OthersSplitNone(s: Db, e: Step, i: nat)
    requires !e.GiveVerdict? && !e.HandlePayout? && i < |s.pay.payouts|
    ensures i < |Next(s, e).pay.payouts| && Next(s, e).pay.payouts[i].split == s.pay.payouts[i].split
  {
    if !IsPayStep(e) {
      OthersKeepPay(s, e);
      hide Next;
    } else {
      if e.OpenDispute? && DoOpenDispute(s, e.org, e.target).Ok? {
        OpenStep(s, e.org, e.target);
      }
      hide L.Credit, ResolveTarget, MayClaim, O.Claim, O.Ack, O.Crash, P.DisputeRefused;
    }
  }

  /** The provider is asked to pay the split at the rates of that moment, and only a pass rewrites a split besides. */
  lemma SplitChangesIff(s: Db, d: Deployment, e: Step, i: nat)
    requires Reachable(NO_HYPOTHESIS, s, d) && i < |s.pay.payouts|
    ensures i < |Next(s, e).pay.payouts| && SplitFollows(s, e, i, Next(s, e).pay.payouts[i])
  {
    F.ReachableHasFunds(NO_HYPOTHESIS, s, d);
    hide Reachable, L.Valid, F.Owned;
    if e.GiveVerdict? {
      hide Next, SplitFollows;
      PassSplits(s, e, i);
    } else if e.HandlePayout? {
      hide P.HandlePayout, SplitFollows;
      ExecuteSplits(s, e, i);
    } else {
      hide Next;
      OthersSplitNone(s, e, i);
    }
  }

  /** A handler throws, so that its event is tried again, exactly when it could not ask, or the provider threw. */
  lemma HandlerThrowsIff(s: Db, w: nat, i: nat, rates: Rates, walletSet: bool, answer: P.Provider)
    requires P.MayHandle(s.pay, w, P.PayoutRequested(i)) && i < |s.pay.payouts|
    ensures var key, s1 := P.PayoutRequested(i), Next(s, HandlePayout(w, i, rates, walletSet, answer));
            && (w, key) in s1.pay.box.held
            && s1.pay.box.held[(w, key)].phase
               == (if AsksProvider(s, w, i, rates, walletSet) && answer != P.Throws then O.Returned
                   else if s.pay.payouts[i].status == P.Paid || s.pay.payouts[i].blocked != P.Unblocked
                           || !P.HoldOver(s.pay.payouts[i], s.now) then O.Returned
                   else O.Threw)
  {
  }

  /** A refund handler throws exactly when the database fails it; every refusal counts as done. */
  lemma RefundHandlerThrowsIff(s: Db, w: nat, dp: nat, dbOk: bool)
    requires P.MayHandle(s.pay, w, P.AutoRefund(dp))
    ensures var key, box := P.AutoRefund(dp), Next(s, HandleRefund(w, dp, dbOk)).pay.box;
            && (w, key) in box.held && box.held[(w, key)].phase == (if dbOk then O.Returned else O.Threw)
            && box.held == s.pay.box.held[(w, key) := box.held[(w, key)]]
  {
    if DoResolve(s, dp, P.ToRefund).Ok? {
      ResolveKeepsRest(s, dp, P.ToRefund);
    }
    hide DoResolve;
  }

  // ----- over runs -----

  /** At some step of the run the provider was asked for payout i and gave the answer. */
  ghost predicate WasAnswered(s: Db, steps: seq<Step>, i: nat, answer: P.Provider)
    decreases |steps|
  {
    steps != [] && ((AsksFor(s, steps[0], i) && steps[0].answer == answer)
                    || WasAnswered(Next(s, steps[0]), steps[1..], i, answer))
  }

  ghost predicate WasRefunded(s: Db, steps: seq<Step>, i: nat)
    decreases |steps|
  {
    steps != [] && (RefundsIt(s, steps[0], i) || WasRefunded(Next(s, steps[0]), steps[1..], i))
  }

  /** A payout is only ever paid or failed by the provider's word, and refunded only by a dispute. */
  lemma {:induction false} EndsAsAnswered(s: Db, steps: seq<Step>, i: nat)
    requires i < |Run(s, steps).pay.payouts|
    ensures var status := Run(s, steps).pay.payouts[i].status;
            var was := if i < |s.pay.payouts| then s.pay.payouts[i].status else P.Due;
            && (status == P.Paid && was != P.Paid ==> WasAnswered(s, steps, i, P.SaysPaid))
            && (status == P.Failed && was != P.Failed ==> WasAnswered(s, steps, i, P.SaysFailed))
            && (status == P.Refunded && was != P.Refunded ==> WasRefunded(s, steps, i))
            && (status == P.Due ==> was == P.Due)
    decreases |steps|
  {
    hide Next, AsksFor, RefundsIt;
    if steps != [] {
      EndsAsAnswered(Next(s, steps[0]), steps[1..], i);
      if i < |s.pay.payouts| {
        StatusChangesIff(s, steps[0], i);
      } else {
        NewIsDue(s, steps[0], i);
      }
    }
  }

  lemma NewIsDue(s: Db, e: Step, i: nat)
    requires i >= |s.pay.payouts|
    ensures i < |Next(s, e).pay.payouts| ==> Next(s, e).pay.payouts[i].status == P.Due
  {
    if e.GiveVerdict? {
      hide Next;
      VerdictStatus(s, e);
    } else {
      OthersAddNone(s, e);
      hide Next;
    }
  }

  lemma OthersAddNone(s: Db, e: Step)
    requires !e.GiveVerdict?
    ensures |Next(s, e).pay.payouts| == |s.pay.payouts|
  {
    if !IsPayStep(e) {
      OthersKeepPay(s, e);
      hide Next;
    } else {
      if e.OpenDispute? && DoOpenDispute(s, e.org, e.target).Ok? {
        OpenStep(s, e.org, e.target);
      }
      hide L.Credit, ResolveTarget, MayClaim, O.Claim, O.Ack, O.Crash, P.DisputeRefused;
    }
  }

  // ----- when a refund may come -----

  /** The refund event of an open dispute is not available before the payout's hold is over. */
  lemma RefundEventWaits(s: Db, d: Deployment, dp: nat)
    requires Reachable(H6_ONLY, s, d) && P.IsOpen(s.pay, dp)
    ensures var i := s.pay.disputes[dp].payout;
            && i < |s.pay.payouts| && s.pay.payouts[i].holdUntil.Some?
            && P.AutoRefund(dp) in s.pay.box.rows
            && s.pay.box.rows[P.AutoRefund(dp)].availableAt >= s.pay.payouts[i].holdUntil.value
  {
    ReachablePay(H6_ONLY, s, d);
    hide Reachable, P.Valid, P.PayoutsOk, P.IndexOk, P.AllHeldOk;
    assert P.DisputeOk(s.pay, dp);
  }

  /** The automatic refund changes payouts or books only once the hold is over: until then admin and buyer decide. */
  lemma AutoRefundWaits(s: Db, d: Deployment, w: nat, dp: nat, dbOk: bool)
    requires Reachable(H6_ONLY, s, d)
    ensures var s1 := Next(s, HandleRefund(w, dp, dbOk));
            s1.pay.payouts != s.pay.payouts || s1.ledger != s.ledger ==>
              && P.IsOpen(s.pay, dp) && s.pay.disputes[dp].payout < |s.pay.payouts|
              && var row := s.pay.payouts[s.pay.disputes[dp].payout];
                 row.holdUntil.Some? && row.holdUntil.value <= s.now
  {
    ReachablePay(H6_ONLY, s, d);
    hide Reachable, P.Valid, P.PayoutsOk, P.IndexOk, DoResolve;
    if P.MayHandle(s.pay, w, P.AutoRefund(dp)) && DoResolve(s, dp, P.ToRefund).Ok? {
      ResolvedWasOpen(s, dp, P.ToRefund);
      var key := P.AutoRefund(dp);
      assert P.HeldOk(s.pay, (w, key).1, s.pay.box.held[(w, key)], s.now);
      assert P.DisputeOk(s.pay, dp);
    }
    hide P.DisputesOk, P.AllHeldOk;
  }
}
