/**
 How the rows of a state relate to the rows of any later state of the same run:
 what is decided stays decided.
 */
module RailHistory {
  import opened FeeSplit
  import opened Rail
  import opened RailSteps
  import opened RailJobs
  import opened RailPay
  import opened RailSafety
  import B = RailBudget
  import F = RailFunds
  import M = RailMoney
  import N = RailOnce
  import O = Outbox
  import W = Work
  import P = Pay
  import L = Ledger

  // ----- payouts -----

  /**
   A later version of a payout: what it is for and of what amount never changes, and paid
   stays paid. Under H6 its hold stays and a paid row is left alone; under H2 refunded
   stays refunded, and under both a refunded row is left alone.
   */
  predicate PayoutFollows(h: Hypotheses, was: P.Payout, later: P.Payout) {
    && later.submission == was.submission && later.bounty == was.bounty && later.worker == was.worker
    && later.amount == was.amount
    && (was.status == P.Paid ==> later.status == P.Paid)
    && (was.status != P.Due ==> later.status != P.Due)
    && (h.h2 && was.status == P.Refunded ==> later.status == P.Refunded)
    && (h.h6 ==> later.holdUntil == was.holdUntil)
    && (h.h6 && was.status == P.Paid ==> later == was)
    && (h.h6 && h.h2 && was.status == P.Refunded ==> later == was)
  }

  ghost predicate PayFollows(h: Hypotheses, p: P.Tables, p1: P.Tables) {
    && |p.payouts| <= |p1.payouts|
    && (forall i :: 0 <= i < |p.payouts| ==> PayoutFollows(h, p.payouts[i], p1.payouts[i]))
  }

  lemma PayFollowsOn(h: Hypotheses, a: P.Tables, b: P.Tables, c: P.Tables)
    requires PayFollows(h, a, b) && PayFollows(h, b, c)
    ensures PayFollows(h, a, c)
  {
    forall i | 0 <= i < |a.payouts|
      ensures PayoutFollows(h, a.payouts[i], c.payouts[i])
    {
      assert PayoutFollows(h, a.payouts[i], b.payouts[i]) && PayoutFollows(h, b.payouts[i], c.payouts[i]);
    }
  }

  lemma SamePay(h: Hypotheses, p: P.Tables, box: O.Box<P.Key>)
    ensures PayFollows(h, p, p.(box := box))
  {
  }

  lemma RequestFollows(
    h: Hypotheses, p: P.Tables, x: nat, b: nat, worker: nat, amount: nat, windowSec: int, rates: LegalRates, now: int)
    requires h.h6 ==> x !in p.bySubmission
    ensures PayFollows(h, p, P.RequestPayout(p, x, b, worker, amount, windowSec, rates, now))
  {
  }

  lemma VerdictPayFollows(h: Hypotheses, s: Db, e: Step)
    requires e.GiveVerdict? && (h.h6 ==> PassIsFirst(s, e))
    ensures PayFollows(h, s.pay, Next(s, e).pay)
  {
    hide Next, PayFollows, W.TakeVerdict, P.RequestPayout;
    if Next(s, e).pay == s.pay {
      SamePay(h, s.pay, s.pay.box);
    } else {
      VerdictPay(s, e);
      PassStep(s, e);
      var x := e.submission;
      var b := s.work.jobs[s.work.submissions[x].job].bounty;
      RequestFollows(h, s.pay, x, b, s.work.submissions[x].worker, s.ledger.bounties[b].payoutCents,
                     s.ledger.bounties[b].windowSec, e.rates, s.now);
    }
  }

  lemma OpenDisputeFollows(h: Hypotheses, p: P.Tables, org: nat, i: nat, now: int)
    requires i < |p.payouts| && P.DisputeRefused(p, i, now).None?
    requires h.h2 ==> p.payouts[i].status != P.Refunded
    ensures PayFollows(h, p, P.OpenDispute(p, org, i, now))
  {
  }

  /** A payout with an open dispute is not paid, and under H2 not refunded. */
  lemma OpenIsOpen(h: Hypotheses, p: P.Tables, d: nat, now: int)
    requires P.IsOpen(p, d) && p.disputes[d].payout < |p.payouts|
    requires (h.h6 ==> P.Valid(p, now)) && (h.h2 ==> N.PayOnce(p))
    ensures h.h6 ==> p.payouts[p.disputes[d].payout].status != P.Paid
    ensures h.h2 ==> p.payouts[p.disputes[d].payout].status != P.Refunded
  {
    hide P.Valid;
    if h.h6 {
      ValidParts(p, now);
      OpenIsDue(p, d, now);
    }
    assert P.OpenOn(p, d, p.disputes[d].payout);
    assert h.h2 ==> N.RowOk(p.payouts[p.disputes[d].payout]);
  }

  lemma FreeFollows(h: Hypotheses, p: P.Tables, d: nat, st: P.DisputeStatus, now: int)
    requires P.IsOpen(p, d) && p.disputes[d].payout < |p.payouts|
    requires (h.h6 ==> P.Valid(p, now)) && (h.h2 ==> N.PayOnce(p))
    ensures PayFollows(h, p, P.Free(p, d, st, now))
  {
    OpenIsOpen(h, p, d, now);
    hide P.Valid, N.PayOnce;
  }

  lemma ResolveFollows(h: Hypotheses, s: Db, d: nat, r: P.Resolution)
    requires DoResolve(s, d, r).Ok?
    requires (h.h6 ==> P.Valid(s.pay, s.now)) && (h.h2 ==> N.PayOnce(s.pay))
    ensures PayFollows(h, s.pay, DoResolve(s, d, r).value.pay)
  {
    hide P.Valid, N.PayOnce, L.Credit, P.Free;
    if r == P.ToUphold && s.pay.payouts[s.pay.disputes[d].payout].status != P.Refunded {
      FreeFollows(h, s.pay, d, P.Resolved, s.now);
    }
  }

  lemma ExecuteFollows(h: Hypotheses, p: P.Tables, w: nat, i: nat, rates: Rates, walletSet: bool, answer: P.Provider,
                       now: int)
    requires h.h2 ==> N.PayOnce(p)
    ensures PayFollows(h, p, P.HandlePayout(p, w, i, rates, walletSet, answer, now))
  {
    assert h.h2 && i < |p.payouts| ==> N.RowOk(p.payouts[i]);
    hide N.PayOnce;
  }

  lemma HandleRefundFollows(h: Hypotheses, s: Db, w: nat, d: nat, dbOk: bool)
    requires (h.h6 ==> P.Valid(s.pay, s.now)) && (h.h2 ==> N.PayOnce(s.pay))
    ensures PayFollows(h, s.pay, DoHandleRefund(s, w, d, dbOk).pay)
  {
    if DoResolve(s, d, P.ToRefund).Ok? {
      ResolveFollows(h, s, d, P.ToRefund);
    }
    hide DoResolve, P.Valid, N.PayOnce;
  }

  lemma PayStepFollows(h: Hypotheses, s: Db, e: Step)
    requires h.h6 ==> P.Valid(s.pay, s.now) && PassIsFirst(s, e)
    requires h.h2 ==> N.PayOnce(s.pay) && DisputeIsFirst(s, e)
    ensures PayFollows(h, s.pay, Next(s, e).pay)
  {
    hide P.Valid, N.PayOnce, PassIsFirst, PayFollows, DoResolve, DoHandleRefund, ResolveTarget, P.HandlePayout, P.Free,
         P.OpenDispute, P.DisputeRefused, MayClaim, O.Claim, O.Ack, O.Crash, DoVerdict;
    SamePay(h, s.pay, s.pay.box);
    if !IsPayStep(e) {
      OthersKeepPay(s, e);
      hide Next;
    } else {
      match e
      case GiveVerdict(_, _, _, _, _) => VerdictPayFollows(h, s, e);
      case OpenDispute(org, target) =>
        if DoOpenDispute(s, org, target).Ok? {
          OpenStep(s, org, target);
          OpenDisputeFollows(h, s.pay, org, ResolveTarget(s, org, target).value, s.now);
        }
      case CancelDispute(org, d) =>
        if P.CancelDispute(s.pay, org, d, s.now).Ok? {
          FreeFollows(h, s.pay, d, P.Cancelled, s.now);
        }
      case ResolveDispute(d, r) =>
        if DoResolve(s, d, r).Ok? {
          ResolveFollows(h, s, d, r);
        }
      case HandlePayout(w, i, rates, walletSet, answer) =>
        ExecuteFollows(h, s.pay, w, i, rates, walletSet, answer, s.now);
      case HandleRefund(w, d, dbOk) => HandleRefundFollows(h, s, w, d, dbOk);
      case _ => SamePay(h, s.pay, Next(s, e).pay.box);
    }
  }

  // ----- disputes -----

  predicate DisputeFollows(was: P.Dispute, later: P.Dispute) {
    && later.(status := was.status) == was
    && (was.status != P.Open ==> later == was)
  }

  /** What is resolved or cancelled stays so; this needs no hypothesis. */
  ghost predicate DisputesFollow(p: P.Tables, p1: P.Tables) {
    && |p.disputes| <= |p1.disputes|
    && (forall d :: 0 <= d < |p.disputes| ==> DisputeFollows(p.disputes[d], p1.disputes[d]))
  }

  lemma DisputesFollowOn(a: P.Tables, b: P.Tables, c: P.Tables)
    requires DisputesFollow(a, b) && DisputesFollow(b, c)
    ensures DisputesFollow(a, c)
  {
    forall d | 0 <= d < |a.disputes|
      ensures DisputeFollows(a.disputes[d], c.disputes[d])
    {
      assert DisputeFollows(a.disputes[d], b.disputes[d]) && DisputeFollows(b.disputes[d], c.disputes[d]);
    }
  }

  lemma DisputeStepFollows(s: Db, e: Step)
    ensures DisputesFollow(s.pay, Next(s, e).pay)
  {
    if IsPayStep(e) {
      hide W.GiveVerdict, L.Credit, ResolveTarget, MayClaim, O.Claim, O.Ack, O.Crash;
    } else {
      OthersKeepPay(s, e);
      hide Next;
    }
  }

  /** Whatever happened before and whatever happens. */
  lemma {:induction false} RunDisputesFollow(s: Db, steps: seq<Step>)
    ensures DisputesFollow(s.pay, Run(s, steps).pay)
    decreases |steps|
  {
    hide Next;
    if steps != [] {
      DisputeStepFollows(s, steps[0]);
      RunDisputesFollow(Next(s, steps[0]), steps[1..]);
      DisputesFollowOn(s.pay, Next(s, steps[0]).pay, Run(s, steps).pay);
    }
  }

  // ----- the ledger -----

  /** Events are only appended, reservations stay, and no credit is booked for a Stripe event seen before. */
  ghost predicate LedgerFollows(l: L.Tables, l1: L.Tables) {
    && l.events <= l1.events
    && l.reservations.Keys <= l1.reservations.Keys
    && (forall b :: b in l.reservations ==>
          && l1.reservations[b].amount == l.reservations[b].amount
          && (l.reservations[b].released ==> l1.reservations[b].released))
    && l.webhooks.Keys <= l1.webhooks.Keys
    && (forall id :: id in l.webhooks ==>
          L.Sum(l1.events, L.StripeCredits(id)) == L.Sum(l.events, L.StripeCredits(id)))
  }

  /** Nothing is booked, or one event that is no credit for a Stripe event seen before. */
  ghost predicate BooksOne(l: L.Tables, l1: L.Tables) {
    var n := |l.events|;
    l1.events == l.events
    || (&& |l1.events| == n + 1 && l1.events == l.events + [l1.events[n]]
        && (l1.events[n].cause.StripeTopup? ==> l1.events[n].cause.stripeId !in l.webhooks))
  }

  lemma BookingFollows(l: L.Tables, l1: L.Tables)
    requires BooksOne(l, l1) && l.webhooks.Keys <= l1.webhooks.Keys
    requires l.reservations.Keys <= l1.reservations.Keys
    requires forall b :: b in l.reservations ==>
               && l1.reservations[b].amount == l.reservations[b].amount
               && (l.reservations[b].released ==> l1.reservations[b].released)
    ensures LedgerFollows(l, l1)
  {
    var n := |l.events|;
    if l1.events != l.events {
      forall id | id in l.webhooks
        ensures L.Sum(l1.events, L.StripeCredits(id)) == L.Sum(l.events, L.StripeCredits(id))
      {
        L.SumAppend(l.events, l1.events[n], L.StripeCredits(id));
      }
    }
  }

  lemma LedgerFollowsOn(a: L.Tables, b: L.Tables, c: L.Tables)
    requires LedgerFollows(a, b) && LedgerFollows(b, c)
    ensures LedgerFollows(a, c)
  {
  }

  lemma PublishLedgerFollows(s: Db, b: nat)
    ensures DoPublish(s, b).Ok? ==> LedgerFollows(s.ledger, DoPublish(s, b).value.ledger)
  {
    if DoPublish(s, b).Ok? {
      BookingFollows(s.ledger, DoPublish(s, b).value.ledger);
    }
  }

  lemma CloseFollows(s: Db, b: nat)
    ensures LedgerFollows(s.ledger, DoClose(s, b).ledger)
  {
    BookingFollows(s.ledger, DoClose(s, b).ledger);
  }

  lemma CreditFollows(l: L.Tables, org: nat, bounty: nat, payout: nat, amount: nat, now: nat)
    ensures LedgerFollows(l, L.Credit(l, org, bounty, payout, amount, now))
  {
    BookingFollows(l, L.Credit(l, org, bounty, payout, amount, now));
  }

  lemma ResolveLedgerFollows(s: Db, d: nat, r: P.Resolution)
    requires DoResolve(s, d, r).Ok?
    ensures LedgerFollows(s.ledger, DoResolve(s, d, r).value.ledger)
  {
    var l1 := DoResolve(s, d, r).value.ledger;
    if l1 != s.ledger {
      var row := s.pay.disputes[d];
      CreditFollows(s.ledger, row.org, row.bounty, row.payout, P.RefundCents(s.pay.payouts[row.payout]), s.now);
    }
  }

  lemma HandleRefundLedgerFollows(s: Db, w: nat, d: nat, dbOk: bool)
    ensures LedgerFollows(s.ledger, DoHandleRefund(s, w, d, dbOk).ledger)
  {
    if DoResolve(s, d, P.ToRefund).Ok? {
      ResolveLedgerFollows(s, d, P.ToRefund);
    }
    hide DoResolve;
  }

  lemma LedgerStepFollows(s: Db, e: Step)
    ensures LedgerFollows(s.ledger, Next(s, e).ledger)
  {
    hide DoPublish, DoClose, DoVerdict, DoResolve, DoHandleRefund, DoOpenDispute, LedgerFollows;
    match e
    case Publish(b) =>
      PublishLedgerFollows(s, b);
      SameLedger(s.ledger);
    case Close(b) => CloseFollows(s, b);
    case TopUp(org, cents) => BookingFollows(s.ledger, Next(s, e).ledger);
    case Stripe(_) => BookingFollows(s.ledger, Next(s, e).ledger);
    case ResolveDispute(d, r) =>
      if DoResolve(s, d, r).Ok? {
        ResolveLedgerFollows(s, d, r);
      } else {
        SameLedger(s.ledger);
      }
    case HandleRefund(w, d, dbOk) => HandleRefundLedgerFollows(s, w, d, dbOk);
    case CreateBounty(_) => BookingFollows(s.ledger, Next(s, e).ledger);
    case Pause(_) => BookingFollows(s.ledger, Next(s, e).ledger);
    case GiveVerdict(_, _, _, _, _) =>
      OthersKeepLedger(s, e);
      SameLedger(s.ledger);
    case OpenDispute(_, _) =>
      OthersKeepLedger(s, e);
      SameLedger(s.ledger);
    case _ => SameLedger(s.ledger);
  }

  lemma SameLedger(l: L.Tables)
    ensures LedgerFollows(l, l)
  {
  }

  // ----- runs -----

  /** Jobs, payouts, disputes and books move on, each as far as the hypotheses go. */
  ghost predicate Follows(h: Hypotheses, s: Db, s1: Db) {
    && s.now <= s1.now
    && WorkFollows(h, s.work, s1.work)
    && PayFollows(h, s.pay, s1.pay)
    && DisputesFollow(s.pay, s1.pay)
    && LedgerFollows(s.ledger, s1.ledger)
  }

  lemma StepFollows(h: Hypotheses, s: Db, e: Step, opening: map<nat, nat>)
    requires Safe(h, s, opening) && Meets(h, s, e)
    ensures Follows(h, s, Next(s, e))
  {
    SafeParts(h, s, opening);
    hide Safe, Next, W.Jobs, P.Valid, N.PayOnce, WorkFollows, PayFollows, LedgerFollows, DisputesFollow, PassIsFirst,
         DisputeIsFirst, VerdictIsInOrder;
    OnlyTicksTakeTime(s, e);
    LedgerStepFollows(s, e);
    DisputeStepFollows(s, e);
    WorkStepFollows(h, s, e);
    PayStepFollows(h, s, e);
  }

  lemma SafeParts(h: Hypotheses, s: Db, opening: map<nat, nat>)
    requires Safe(h, s, opening)
    ensures h.h8 ==> W.Jobs(s.work)
    ensures h.h6 ==> P.Valid(s.pay, s.now)
    ensures h.h2 ==> N.PayOnce(s.pay)
  {
    hide F.Funds, Nonces, W.Base, W.Full, P.Valid, B.OneEach, M.AllRefunded, M.AllHeld;
  }

  lemma {:induction false} RunFollows(h: Hypotheses, s: Db, steps: seq<Step>, opening: map<nat, nat>)
    requires Safe(h, s, opening) && RunUnder(h, s, steps)
    ensures Follows(h, s, Run(s, steps)) && Safe(h, Run(s, steps), opening)
    decreases |steps|
  {
    hide Safe, Next, Meets;
    if steps == [] {
      Stays(h, s);
    } else {
      var s1, s2 := Next(s, steps[0]), Run(s, steps);
      StepIsSafe(h, s, steps[0], opening);
      StepFollows(h, s, steps[0], opening);
      RunFollows(h, s1, steps[1..], opening);
      hide Run, RunUnder;
      FollowsOn(h, s, s1, s2);
    }
  }

  lemma Stays(h: Hypotheses, s: Db)
    ensures Follows(h, s, s)
  {
    SameLedger(s.ledger);
  }

  lemma FollowsOn(h: Hypotheses, a: Db, b: Db, c: Db)
    requires Follows(h, a, b) && Follows(h, b, c)
    ensures Follows(h, a, c)
  {
    hide WorkFollows, PayFollows, LedgerFollows, DisputesFollow;
    LedgerFollowsOn(a.ledger, b.ledger, c.ledger);
    DisputesFollowOn(a.pay, b.pay, c.pay);
    WorkFollowsOn(h, a.work, b.work, c.work);
    PayFollowsOn(h, a.pay, b.pay, c.pay);
  }
}
