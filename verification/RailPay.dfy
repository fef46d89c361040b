/**
 Payouts, disputes and their events stay in agreement as long as a pass lands only on
 submissions without a payout (H6), whatever else verifiers, buyers and workers do.
 */
module RailPay {
  import opened Rail
  import opened RailSteps
  import O = Outbox
  import W = Work
  import P = Pay
  import L = Ledger

  // ----- resolving a dispute -----

  lemma ValidParts(p: P.Tables, now: int)
    requires P.Valid(p, now)
    ensures P.PayoutsOk(p, now) && P.IndexOk(p) && P.DisputesOk(p) && P.AllHeldOk(p, now)
  {
  }

  /** A disputed payout is due or refunded. */
  lemma OpenIsDue(p: P.Tables, d: nat, now: int)
    requires P.PayoutsOk(p, now) && P.DisputesOk(p) && P.IsOpen(p, d)
    ensures p.disputes[d].payout < |p.payouts|
    ensures p.payouts[p.disputes[d].payout].status in {P.Due, P.Refunded}
  {
    var i := p.disputes[d].payout;
    assert P.DisputeOk(p, d);
    assert P.PayoutOk(p.payouts[i], p.box.rows[P.PayoutRequested(i)], now);
  }

  /** resolveDisputeAdmin, once it is known that the dispute is open and its payout neither paid nor refunded. */
  lemma ResolveOpen(s: Db, d: nat, r: P.Resolution)
    requires P.IsOpen(s.pay, d) && s.pay.disputes[d].payout < |s.pay.payouts|
    requires s.pay.payouts[s.pay.disputes[d].payout].status in {P.Due, P.Failed}
    ensures DoResolve(s, d, r).Ok?
    ensures r == P.ToUphold ==> DoResolve(s, d, r).value == s.(pay := P.Free(s.pay, d, P.Resolved, s.now))
    ensures r == P.ToRefund ==>
              var row := s.pay.disputes[d];
              DoResolve(s, d, r).value ==
              s.(pay := P.Refund(s.pay, d),
                 ledger := L.Credit(s.ledger, row.org, row.bounty, row.payout,
                                    P.RefundCents(s.pay.payouts[row.payout]), s.now))
  {
    hide P.Free, P.Refund, L.Credit;
  }

  /** It refuses disputes on paid payouts, and does nothing on a refunded one. */
  lemma ResolvedWasOpen(s: Db, d: nat, r: P.Resolution)
    requires DoResolve(s, d, r).Ok?
    ensures P.IsOpen(s.pay, d) && s.pay.disputes[d].payout < |s.pay.payouts|
    ensures s.pay.payouts[s.pay.disputes[d].payout].status != P.Paid
    ensures s.pay.payouts[s.pay.disputes[d].payout].status == P.Refunded ==> DoResolve(s, d, r).value == s
  {
    hide P.Free, P.Refund, L.Credit;
  }

  lemma ResolvePay(s: Db, d: nat, r: P.Resolution)
    ensures var done, res := P.ResolveDispute(s.pay, d, r, s.now), DoResolve(s, d, r);
            && res.Ok? == done.Ok? && (res.Ok? ==> res.value.pay == done.value.0 && res.value.now == s.now)
  {
    hide P.Refund, P.Free, L.Credit;
  }

  /** resolveDisputeAdmin refuses no dispute that is open on a due payout. */
  lemma RefusedIsClosed(s: Db, d: nat)
    requires DoResolve(s, d, P.ToRefund).Err?
    ensures !P.OpenOnDue(s.pay, d)
  {
    if P.OpenOnDue(s.pay, d) {
      ResolveOpen(s, d, P.ToRefund);
    }
  }

  // ----- the steps -----

  /** H6 is the requirement that the submission has no payout. */
  lemma VerdictKeeps(s: Db, e: Step)
    requires e.GiveVerdict? && P.Valid(s.pay, s.now) && PassIsFirst(s, e)
    ensures P.Valid(Next(s, e).pay, s.now)
  {
    hide P.Valid, Next, W.TakeVerdict, P.RequestPayout;
    if Next(s, e).pay != s.pay {
      VerdictPay(s, e);
      PassStep(s, e);
      var x := e.submission;
      var b := s.work.jobs[s.work.submissions[x].job].bounty;
      P.RequestPayoutKeeps(s.pay, x, b, s.work.submissions[x].worker, s.ledger.bounties[b].payoutCents,
                           s.ledger.bounties[b].windowSec, e.rates, s.now);
    }
  }

  lemma ResolveKeeps(s: Db, d: nat, r: P.Resolution)
    requires P.Valid(s.pay, s.now) && DoResolve(s, d, r).Ok?
    ensures var s1 := DoResolve(s, d, r).value;
            && s1.now == s.now && P.Valid(s1.pay, s.now) && !P.OpenOnDue(s1.pay, d)
            && s1.pay.box.held == s.pay.box.held
  {
    hide DoResolve, P.Valid, P.OpenOnDue;
    ResolvePay(s, d, r);
    ResolveKeepsRest(s, d, r);
    P.ResolveDisputeKeeps(s.pay, d, r, s.now);
  }

  lemma FinishKeeps(p: P.Tables, w: nat, d: nat, phase: O.Phase, now: int)
    requires P.Valid(p, now) && (w, P.AutoRefund(d)) in p.box.held
    requires phase == O.Returned ==> !P.OpenOnDue(p, d)
    ensures P.Valid(p.(box := O.Finish(p.box, w, P.AutoRefund(d), phase)), now)
  {
    var p1 := p.(box := O.Finish(p.box, w, P.AutoRefund(d), phase));
    forall x | x in p1.box.held
      ensures P.HeldOk(p, x.1, p1.box.held[x], now)
    {
      assert P.HeldOk(p, x.1, p.box.held[x], now);
    }
    P.HeldChangeKeeps(p, p1, now);
  }

  lemma HandleRefundKeeps(s: Db, w: nat, d: nat, dbOk: bool)
    requires P.Valid(s.pay, s.now)
    ensures P.Valid(DoHandleRefund(s, w, d, dbOk).pay, s.now) && DoHandleRefund(s, w, d, dbOk).now == s.now
  {
    hide P.Valid, DoResolve, P.OpenOnDue, O.Finish;
    if P.MayHandle(s.pay, w, P.AutoRefund(d)) {
      if !dbOk {
        FinishKeeps(s.pay, w, d, O.Threw, s.now);
      } else {
        var r := DoResolve(s, d, P.ToRefund);
        if r.Ok? {
          ResolveKeeps(s, d, P.ToRefund);
          FinishKeeps(r.value.pay, w, d, O.Returned, s.now);
        } else {
          RefusedIsClosed(s, d);
          FinishKeeps(s.pay, w, d, O.Returned, s.now);
        }
      }
    }
  }

  lemma DisputeStepKeeps(s: Db, e: Step)
    requires P.Valid(s.pay, s.now) && (e.OpenDispute? || e.CancelDispute? || e.ResolveDispute? || e.HandleRefund?)
    ensures P.Valid(Next(s, e).pay, s.now)
  {
    hide P.Valid, DoResolve, DoHandleRefund, ResolveTarget, P.OpenDispute, P.Free, P.DisputeRefused;
    match e
    case OpenDispute(org, target) =>
      if DoOpenDispute(s, org, target).Ok? {
        OpenStep(s, org, target);
        P.OpenDisputeKeeps(s.pay, org, ResolveTarget(s, org, target).value, s.now);
      }
    case CancelDispute(org, d) =>
      if P.CancelDispute(s.pay, org, d, s.now).Ok? {
        P.FreeKeeps(s.pay, d, P.Cancelled, s.now);
      }
    case ResolveDispute(d, r) =>
      if DoResolve(s, d, r).Ok? {
        ResolveKeeps(s, d, r);
      }
    case HandleRefund(w, d, dbOk) => HandleRefundKeeps(s, w, d, dbOk);
  }

  lemma QueueStepKeeps(s: Db, e: Step)
    requires P.Valid(s.pay, s.now) && (e.ClaimEvents? || e.HandlePayout? || e.AckEvent? || e.Crash?)
    ensures P.Valid(Next(s, e).pay, s.now)
  {
    hide P.Valid, P.ClaimEvents, P.HandlePayout, P.AckEvent, O.Crash, MayClaim;
    match e
    case ClaimEvents(w, topics, limit, batch) =>
      if MayClaim(s, w, topics, limit, batch) {
        BatchIsEligible(s, w, topics, limit, batch);
        P.ClaimEventsKeeps(s.pay, w, batch, topics, s.now, s.cfg);
      }
    case HandlePayout(w, i, rates, walletSet, answer) =>
      P.HandlePayoutKeeps(s.pay, w, i, rates, walletSet, answer, s.now);
    case AckEvent(w, key) => P.AckEventKeeps(s.pay, w, key, s.now, s.cfg);
    case Crash(w) => P.CrashKeeps(s.pay, w, s.now);
  }

  lemma StepKeepsPay(s: Db, e: Step)
    requires P.Valid(s.pay, s.now) && PassIsFirst(s, e)
    ensures P.Valid(Next(s, e).pay, Next(s, e).now)
  {
    hide P.Valid, Next, PassIsFirst;
    OnlyTicksTakeTime(s, e);
    if e.GiveVerdict? {
      VerdictKeeps(s, e);
    } else if e.OpenDispute? || e.CancelDispute? || e.ResolveDispute? || e.HandleRefund? {
      DisputeStepKeeps(s, e);
    } else if IsPayStep(e) {
      QueueStepKeeps(s, e);
    } else {
      OthersKeepPay(s, e);
      if e.Tick? {
        P.TickKeeps(s.pay, s.now, s.now + e.ms);
      }
    }
  }

  lemma {:induction false} RunKeepsPay(s: Db, steps: seq<Step>)
    requires P.Valid(s.pay, s.now) && RunUnder(H6_ONLY, s, steps)
    ensures P.Valid(Run(s, steps).pay, Run(s, steps).now)
    decreases |steps|
  {
    hide P.Valid, Next, PassIsFirst;
    if steps != [] {
      StepKeepsPay(s, steps[0]);
      RunKeepsPay(Next(s, steps[0]), steps[1..]);
    }
  }

  lemma ReachableIsValid(s: Db, d: Deployment)
    requires Reachable(H6_ONLY, s, d)
    ensures P.Valid(s.pay, s.now)
  {
    var steps :| RunUnder(H6_ONLY, Start(d), steps) && Run(Start(d), steps) == s;
    assert P.Valid(Start(d).pay, Start(d).now);
    hide P.Valid;
    RunKeepsPay(Start(d), steps);
  }
}
