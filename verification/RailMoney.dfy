/**
 Books and payouts agree. Under H2 and H9 the refunds booked for a payout are what it is
 refunded; with H1 and H7 besides, what a bounty holds is what its reservation put aside,
 less what was refunded.
 */
module RailMoney {
  import opened FeeSplit
  import opened Rail
  import opened RailSteps
  import opened RailPay
  import B = RailBudget
  import F = RailFunds
  import N = RailOnce
  import O = Outbox
  import W = Work
  import P = Pay
  import L = Ledger

  // ----- the invariants -----

  /** What the bounty's reservation put aside for it and did not give back on closing. */
  function SetAside(s: Db, b: nat): int {
    if b !in s.ledger.reservations then 0
    else if s.ledger.reservations[b].released then Committed(s, b)
    else s.ledger.reservations[b].amount
  }

  ghost predicate HeldIs(s: Db, b: nat) {
    L.Held(s.ledger.events, b) == SetAside(s, b) - P.Sum(s.pay.payouts, P.RefundsOf(b))
  }

  ghost predicate AllHeld(s: Db) {
    forall b: nat :: HeldIs(s, b)
  }

  /** The refunds booked for a payout. */
  function Refunded(s: Db, i: nat): int {
    L.Sum(s.ledger.events, L.RefundsOf(i))
  }

  ghost predicate RefundIs(s: Db, i: nat) {
    Refunded(s, i) ==
    if i < |s.pay.payouts| && s.pay.payouts[i].status == P.Refunded then P.RefundCents(s.pay.payouts[i]) else 0
  }

  ghost predicate AllRefunded(s: Db) {
    forall i: nat :: RefundIs(s, i)
  }

  // ----- what a step on the payment tables does to refunds -----

  /** Payouts that are refunded stay so, with the same refund, and no other becomes one. */
  ghost predicate SameRefunds(p: P.Tables, p1: P.Tables) {
    && |p.payouts| <= |p1.payouts|
    && (forall i :: 0 <= i < |p.payouts| ==>
          && p1.payouts[i].bounty == p.payouts[i].bounty && p1.payouts[i].amount == p.payouts[i].amount
          && (p1.payouts[i].status == P.Refunded <==> p.payouts[i].status == P.Refunded)
          && (p.payouts[i].status == P.Refunded ==> P.RefundCents(p1.payouts[i]) == P.RefundCents(p.payouts[i])))
    && (forall i :: |p.payouts| <= i < |p1.payouts| ==> p1.payouts[i].status == P.Due)
  }

  /** A payout is refunded: what it credits leaves the funds of its bounty. */
  ghost predicate IsRefund(s: Db, s1: Db, i: nat) {
    && i < |s.pay.payouts| && s.pay.payouts[i].status != P.Refunded
    && s1.pay.payouts == s.pay.payouts[i := s.pay.payouts[i].(status := P.Refunded, blocked := P.ByRefund)]
    && s1.ledger.reservations == s.ledger.reservations
    && var cents, bounty := P.RefundCents(s.pay.payouts[i]), s.pay.payouts[i].bounty;
       && (forall b: nat :: L.Held(s1.ledger.events, b) ==
                            L.Held(s.ledger.events, b) - if b == bounty then cents else 0)
       && (forall k: nat :: Refunded(s1, k) == Refunded(s, k) + if k == i then cents else 0)
  }

  /** Either no refund moves, or one payout is refunded. */
  ghost predicate MovesMoney(s: Db, s1: Db) {
    (SameRefunds(s.pay, s1.pay) && s1.ledger == s.ledger) || exists i :: IsRefund(s, s1, i)
  }

  /** A credit adds its amount to the events of its bounty and payout, and touches nothing else. */
  lemma CreditBooks(l: L.Tables, org: nat, bounty: nat, payout: nat, cents: nat, now: nat)
    ensures var l1 := L.Credit(l, org, bounty, payout, cents, now);
            && l1.reservations == l.reservations
            && (forall b: nat :: L.Held(l1.events, b) == L.Held(l.events, b) - if b == bounty then cents else 0)
            && (forall k: nat :: L.Sum(l1.events, L.RefundsOf(k)) ==
                                 L.Sum(l.events, L.RefundsOf(k)) + if k == payout then cents else 0)
  {
    var e := L.BillingEvent(org, L.DisputeRefund(bounty, payout), cents, now);
    forall b: nat
      ensures L.Sum(l.events + [e], L.BudgetOf(b)) == L.Sum(l.events, L.BudgetOf(b)) + if b == bounty then cents else 0
    {
      L.SumAppend(l.events, e, L.BudgetOf(b));
    }
    forall k: nat
      ensures L.Sum(l.events + [e], L.RefundsOf(k))
              == L.Sum(l.events, L.RefundsOf(k)) + if k == payout then cents else 0
    {
      L.SumAppend(l.events, e, L.RefundsOf(k));
    }
  }

  lemma RefundMoves(s: Db, d: nat)
    requires d < |s.pay.disputes| && F.DisputeOwned(s, s.pay.disputes[d])
    requires s.pay.payouts[s.pay.disputes[d].payout].status != P.Refunded
    ensures var row := s.pay.disputes[d];
            IsRefund(s, s.(pay := P.Refund(s.pay, d),
                           ledger := L.Credit(s.ledger, row.org, row.bounty, row.payout,
                                              P.RefundCents(s.pay.payouts[row.payout]), s.now)), row.payout)
  {
    var row := s.pay.disputes[d];
    CreditBooks(s.ledger, row.org, row.bounty, row.payout, P.RefundCents(s.pay.payouts[row.payout]), s.now);
    hide L.Credit, L.Held, L.Sum;
  }

  lemma SamePay(s: Db)
    ensures MovesMoney(s, s)
  {
  }

  lemma OpenSame(p: P.Tables, org: nat, i: nat, now: int)
    requires i < |p.payouts| && p.payouts[i].holdUntil.Some?
    ensures SameRefunds(p, P.OpenDispute(p, org, i, now))
  {
  }

  lemma FreeSame(p: P.Tables, d: nat, st: P.DisputeStatus, now: int)
    requires d < |p.disputes| && p.disputes[d].payout < |p.payouts|
    ensures SameRefunds(p, P.Free(p, d, st, now))
  {
  }

  /** Executing a payout never touches a refunded one: under H2 its block stays. */
  lemma ExecuteSame(p: P.Tables, w: nat, i: nat, rates: Rates, walletSet: bool, answer: P.Provider, now: int)
    requires N.PayOnce(p)
    ensures SameRefunds(p, P.HandlePayout(p, w, i, rates, walletSet, answer, now))
  {
    assert i < |p.payouts| ==> N.RowOk(p.payouts[i]);
    hide N.PayOnce;
  }

  lemma BoxSame(p: P.Tables, box: O.Box<P.Key>)
    ensures SameRefunds(p, p.(box := box))
  {
  }

  lemma FirstRequestSame(
    p: P.Tables, x: nat, b: nat, worker: nat, amount: nat, windowSec: int, rates: LegalRates, now: int)
    requires x !in p.bySubmission
    ensures var p1 := P.RequestPayout(p, x, b, worker, amount, windowSec, rates, now);
            SameRefunds(p, p1) && |p1.payouts| == |p.payouts| + 1
            && p1.payouts == p.payouts + [p1.payouts[|p.payouts|]] && p1.payouts[|p.payouts|].bounty == b
  {
  }

  /** What a second request does to the row it finds. */
  lemma RequestRewrites(
    p: P.Tables, x: nat, b: nat, worker: nat, amount: nat, windowSec: int, rates: LegalRates, now: int)
    requires x in p.bySubmission && p.bySubmission[x] < |p.payouts|
    ensures var i, p1 := p.bySubmission[x], P.RequestPayout(p, x, b, worker, amount, windowSec, rates, now);
            && p1.payouts == p.payouts[i := p.payouts[i].(split := SplitOf(amount, rates),
                                                          holdUntil := P.HoldUntil(windowSec, now))]
            && p1.bySubmission == p.bySubmission
  {
  }

  /** H9 is the requirement that a refunded payout keeps its fee. */
  lemma RewriteSame(p: P.Tables, p1: P.Tables, i: nat, rates: LegalRates)
    requires i < |p.payouts| == |p1.payouts| && p1.payouts == p.payouts[i := p1.payouts[i]]
    requires var row := p.payouts[i];
             && p1.payouts[i] == row.(split := SplitOf(row.amount, rates), holdUntil := p1.payouts[i].holdUntil)
             && (row.status == P.Refunded ==> SplitOf(row.amount, rates).proofworkFee == row.split.proofworkFee)
    ensures SameRefunds(p, p1)
  {
  }

  lemma ResolveMoves(s: Db, d: nat, r: P.Resolution)
    requires F.Owned(s) && DoResolve(s, d, r).Ok?
    ensures MovesMoney(s, DoResolve(s, d, r).value)
  {
    hide DoResolve, F.Owned, L.Credit, SameRefunds, IsRefund;
    ResolvedWasOpen(s, d, r);
    SamePay(s);
    if s.pay.payouts[s.pay.disputes[d].payout].status != P.Refunded {
      ResolveOpen(s, d, r);
      F.DisputeIsOwned(s, d);
      if r == P.ToRefund {
        RefundMoves(s, d);
      } else {
        FreeSame(s.pay, d, P.Resolved, s.now);
      }
    }
  }

  /** The queue plays no part. */
  lemma BoxMoves(s: Db, s1: Db, box: O.Box<P.Key>)
    requires MovesMoney(s, s1)
    ensures MovesMoney(s, s1.(pay := s1.pay.(box := box)))
  {
    if i :| IsRefund(s, s1, i) {
      assert IsRefund(s, s1.(pay := s1.pay.(box := box)), i);
    }
  }

  lemma HandleRefundMoves(s: Db, w: nat, d: nat, dbOk: bool)
    requires F.Owned(s)
    ensures MovesMoney(s, DoHandleRefund(s, w, d, dbOk))
  {
    hide DoResolve, MovesMoney, F.Owned;
    SamePay(s);
    var r := DoResolve(s, d, P.ToRefund);
    if r.Ok? {
      ResolveMoves(s, d, P.ToRefund);
      BoxMoves(s, r.value, O.Finish(r.value.pay.box, w, P.AutoRefund(d), O.Returned));
    }
    BoxMoves(s, s, O.Finish(s.pay.box, w, P.AutoRefund(d), O.Returned));
    BoxMoves(s, s, O.Finish(s.pay.box, w, P.AutoRefund(d), O.Threw));
  }

  /** What every step but a verdict does on the payment tables. */
  lemma PayStepMoves(s: Db, e: Step)
    requires N.PayOnce(s.pay) && F.Owned(s) && IsPayStep(e) && !e.GiveVerdict?
    ensures MovesMoney(s, Next(s, e)) && |Next(s, e).pay.payouts| == |s.pay.payouts|
  {
    hide N.PayOnce, F.Owned, DoResolve, DoHandleRefund, ResolveTarget, P.OpenDispute, P.Free,
         P.HandlePayout, P.ClaimEvents, P.AckEvent, O.Crash, MayClaim, SameRefunds, IsRefund;
    SamePay(s);
    PayoutsStay(s, e);
    match e
    case OpenDispute(org, target) =>
      if DoOpenDispute(s, org, target).Ok? {
        OpenStep(s, org, target);
        OpenSame(s.pay, org, ResolveTarget(s, org, target).value, s.now);
      }
    case CancelDispute(org, d) =>
      CancelStep(s, org, d);
      if P.CancelDispute(s.pay, org, d, s.now).Ok? {
        FreeSame(s.pay, d, P.Cancelled, s.now);
      }
    case ResolveDispute(d, r) =>
      if DoResolve(s, d, r).Ok? {
        ResolveMoves(s, d, r);
      }
    case HandleRefund(w, d, dbOk) => HandleRefundMoves(s, w, d, dbOk);
    case HandlePayout(w, i, rates, walletSet, answer) =>
      ExecuteSame(s.pay, w, i, rates, walletSet, answer, s.now);
    case _ => QueueMoves(s, e);
  }

  lemma QueueMoves(s: Db, e: Step)
    requires e.ClaimEvents? || e.AckEvent? || e.Crash?
    ensures MovesMoney(s, Next(s, e))
  {
    hide MovesMoney, O.Ack, O.Claim, O.Crash, MayClaim;
    SamePay(s);
    BoxMoves(s, s, Next(s, e).pay.box);
  }

  lemma PayoutsStay(s: Db, e: Step)
    requires IsPayStep(e) && !e.GiveVerdict?
    ensures |Next(s, e).pay.payouts| == |s.pay.payouts|
  {
    if e.OpenDispute? && DoOpenDispute(s, e.org, e.target).Ok? {
      OpenStep(s, e.org, e.target);
    }
    hide L.Credit, ResolveTarget, MayClaim, O.Claim, O.Ack, O.Crash, P.DisputeRefused;
  }

  // ----- what a pass does to the row it finds -----

  lemma OwnedRow(s: Db, x: nat)
    requires F.Owned(s) && x in s.pay.bySubmission
    ensures s.pay.bySubmission[x] < |s.pay.payouts|
    ensures var row := s.pay.payouts[s.pay.bySubmission[x]];
            && row.submission == x && row.split.Total() == row.amount
            && x < |s.work.submissions| && s.work.submissions[x].job < |s.work.jobs|
            && row.bounty == s.work.jobs[s.work.submissions[x].job].bounty < |s.ledger.bounties|
            && row.amount == s.ledger.bounties[row.bounty].payoutCents
  {
    assert F.PayoutOwned(s, s.pay.payouts[s.pay.bySubmission[x]]);
  }

  /** A pass on a submission that has a payout rewrites its split, of the same amount, and its hold. */
  lemma SecondPassRewrites(s: Db, e: Step)
    requires F.Owned(s) && PassIsPaid(s, e) && e.submission in s.pay.bySubmission
    ensures var i, s1 := s.pay.bySubmission[e.submission], Next(s, e);
            && i < |s.pay.payouts| && s1.ledger == s.ledger && |s1.pay.payouts| == |s.pay.payouts|
            && s1.pay.payouts == s.pay.payouts[i := s1.pay.payouts[i]]
            && s1.pay.payouts[i] == s.pay.payouts[i].(split := SplitOf(s.pay.payouts[i].amount, e.rates),
                                                      holdUntil := s1.pay.payouts[i].holdUntil)
            && s1.pay.payouts[i].holdUntil
               == P.HoldUntil(s.ledger.bounties[s.pay.payouts[i].bounty].windowSec, s.now)
  {
    hide Next, F.Owned, W.TakeVerdict, P.RequestPayout, Taken;
    TakenStep(s, e);
    OwnedRow(s, e.submission);
    PassStep(s, e);
    var x := e.submission;
    var b := s.work.jobs[s.work.submissions[x].job].bounty;
    RequestRewrites(s.pay, x, b, s.work.submissions[x].worker, s.ledger.bounties[b].payoutCents,
                    s.ledger.bounties[b].windowSec, e.rates, s.now);
  }

  /** A pass on a submission without a payout adds one that is due. */
  lemma FirstPassAdds(s: Db, e: Step)
    requires F.Owned(s) && PassIsPaid(s, e) && e.submission !in s.pay.bySubmission
    ensures e.submission < |s.work.submissions| && s.work.submissions[e.submission].job < |s.work.jobs|
    ensures var s1, n := Next(s, e), |s.pay.payouts|;
            var b := s.work.jobs[s.work.submissions[e.submission].job].bounty;
            && b < |s.ledger.bounties| && s1.ledger == s.ledger
            && |s1.pay.payouts| == n + 1 && s1.pay.payouts == s.pay.payouts + [s1.pay.payouts[n]]
            && s1.pay.payouts[n].status == P.Due && s1.pay.payouts[n].bounty == b
            && s1.pay.payouts[n].amount == s.ledger.bounties[b].payoutCents
            && SameRefunds(s.pay, s1.pay)
  {
    hide Next, W.TakeVerdict, W.VerdictRefused;
    TakenStep(s, e);
    B.JobIsOfBounty(s, s.work.submissions[e.submission].job);
    hide F.Owned;
    PassStep(s, e);
    var x := e.submission;
    var b := s.work.jobs[s.work.submissions[x].job].bounty;
    FirstRequestSame(s.pay, x, b, s.work.submissions[x].worker, s.ledger.bounties[b].payoutCents,
                     s.ledger.bounties[b].windowSec, e.rates, s.now);
  }

  lemma UnpaidVerdict(s: Db, e: Step)
    requires e.GiveVerdict? && !PassIsPaid(s, e)
    ensures Next(s, e).pay == s.pay && Next(s, e).ledger == s.ledger
  {
    hide Next, W.TakeVerdict;
    if Taken(s, e) {
      UnpaidStep(s, e);
    } else {
      RefusedStep(s, e);
    }
  }

  // ----- refunds -----

  lemma RefundsFollow(s: Db, s1: Db)
    requires AllRefunded(s) && MovesMoney(s, s1)
    ensures AllRefunded(s1)
  {
    hide L.Held;
    forall k: nat
      ensures RefundIs(s1, k)
    {
      assert RefundIs(s, k);
    }
  }

  lemma BooksKeepRefunds(s: Db, s1: Db)
    requires AllRefunded(s) && N.NoRefundBooked(s.ledger, s1.ledger) && s1.pay == s.pay
    ensures AllRefunded(s1)
  {
    forall i: nat
      ensures RefundIs(s1, i)
    {
      assert RefundIs(s, i);
      if s1.ledger.events != s.ledger.events {
        L.SumAppend(s.ledger.events, s1.ledger.events[|s.ledger.events|], L.RefundsOf(i));
      }
    }
  }

  lemma StepKeepsRefunds(s: Db, e: Step)
    requires AllRefunded(s) && N.PayOnce(s.pay) && F.Owned(s) && FeeStays(s, e)
    ensures AllRefunded(Next(s, e))
  {
    hide N.PayOnce, F.Owned, Next, FeeStays, RefundIs, MovesMoney, N.NoRefundBooked;
    if e.GiveVerdict? {
      VerdictMoves(s, e);
      RefundsFollow(s, Next(s, e));
    } else if IsPayStep(e) {
      PayStepMoves(s, e);
      RefundsFollow(s, Next(s, e));
    } else {
      N.BooksNoRefund(s, e);
      BooksKeepRefunds(s, Next(s, e));
    }
  }

  lemma VerdictMoves(s: Db, e: Step)
    requires e.GiveVerdict? && F.Owned(s) && FeeStays(s, e)
    ensures MovesMoney(s, Next(s, e))
  {
    hide Next, SameRefunds, IsRefund, F.Owned, Taken;
    if !PassIsPaid(s, e) {
      UnpaidVerdict(s, e);
      BoxSame(s.pay, s.pay.box);
    } else if e.submission in s.pay.bySubmission {
      SecondPassRewrites(s, e);
      RewriteSame(s.pay, Next(s, e).pay, s.pay.bySubmission[e.submission], e.rates);
    } else {
      FirstPassAdds(s, e);
    }
  }

  // ----- held funds -----

  lemma HeldFollows(s: Db, s1: Db)
    requires AllHeld(s) && MovesMoney(s, s1) && |s1.pay.payouts| == |s.pay.payouts|
    ensures AllHeld(s1)
  {
    if SameRefunds(s.pay, s1.pay) && s1.ledger == s.ledger {
      SameHeld(s, s1);
    } else {
      var i :| IsRefund(s, s1, i);
      RefundHeld(s, s1, i);
    }
  }

  lemma SameHeld(s: Db, s1: Db)
    requires AllHeld(s) && SameRefunds(s.pay, s1.pay) && s1.ledger == s.ledger
    requires |s1.pay.payouts| == |s.pay.payouts|
    ensures AllHeld(s1)
  {
    forall b: nat
      ensures HeldIs(s1, b)
    {
      assert HeldIs(s, b);
      P.SumAgrees(s.pay.payouts, s1.pay.payouts, P.GrossOf(b));
      P.SumAgrees(s.pay.payouts, s1.pay.payouts, P.RefundsOf(b));
    }
  }

  lemma RefundHeld(s: Db, s1: Db, i: nat)
    requires AllHeld(s) && IsRefund(s, s1, i)
    ensures AllHeld(s1)
  {
    forall b: nat
      ensures HeldIs(s1, b)
    {
      assert HeldIs(s, b);
      P.SumUpdate(s.pay.payouts, i, s1.pay.payouts[i], P.RefundsOf(b));
      P.SumUpdate(s.pay.payouts, i, s1.pay.payouts[i], P.GrossOf(b));
    }
  }

  /** H1 is the requirement that a new payout finds its reservation open. */
  lemma NewPayoutHeld(s: Db, s1: Db, row: P.Payout)
    requires AllHeld(s) && s1.pay.payouts == s.pay.payouts + [row] && row.status == P.Due && s1.ledger == s.ledger
    requires row.bounty in s.ledger.reservations ==> !s.ledger.reservations[row.bounty].released
    ensures AllHeld(s1)
  {
    forall b: nat
      ensures HeldIs(s1, b)
    {
      assert HeldIs(s, b);
      P.SumAppend(s.pay.payouts, row, P.GrossOf(b));
      P.SumAppend(s.pay.payouts, row, P.RefundsOf(b));
    }
  }

  /** At most one event more, and that one no budget event. */
  ghost predicate NoBudgetEvent(l: L.Tables, l1: L.Tables) {
    var n := |l.events|;
    l1.events == l.events
    || (|l1.events| == n + 1 && l1.events == l.events + [l1.events[n]] && !l1.events[n].cause.IsBudget())
  }

  lemma NoBudgetHeld(s: Db, s1: Db)
    requires AllHeld(s) && s1.pay == s.pay
    requires s1.ledger.reservations == s.ledger.reservations && NoBudgetEvent(s.ledger, s1.ledger)
    ensures AllHeld(s1)
  {
    forall b: nat
      ensures HeldIs(s1, b)
    {
      assert HeldIs(s, b);
      if s1.ledger.events != s.ledger.events {
        L.SumAppend(s.ledger.events, s1.ledger.events[|s.ledger.events|], L.BudgetOf(b));
      }
    }
  }

  /** A reservation is booked, or released, by one event of the bounty it is for. */
  lemma BudgetEventHeld(s: Db, s1: Db, b: nat, e: L.BillingEvent)
    requires AllHeld(s) && s1.pay == s.pay && e.cause.IsBudget() && e.cause.bounty == b
    requires s1.ledger.events == s.ledger.events + [e] && b in s1.ledger.reservations
    requires s1.ledger.reservations == s.ledger.reservations[b := s1.ledger.reservations[b]]
    requires SetAside(s1, b) == SetAside(s, b) - e.amount
    ensures AllHeld(s1)
  {
    forall c: nat
      ensures HeldIs(s1, c)
    {
      assert HeldIs(s, c);
      L.SumAppend(s.ledger.events, e, L.BudgetOf(c));
    }
  }

  lemma PublishHeld(s: Db, b: nat)
    requires AllHeld(s) && DoPublish(s, b).Ok?
    ensures AllHeld(DoPublish(s, b).value)
  {
    var s1 := DoPublish(s, b).value;
    var org, amount := s.ledger.bounties[b].org, L.ReserveCents(s.ledger.bounties[b]);
    hide AllHeld, OpenJobs, JobsOf, L.Spent, L.Exceeds, P.Sum;
    if b in s.ledger.reservations || amount == 0 {
      NoBudgetHeld(s, s1);
    } else {
      BudgetEventHeld(s, s1, b, L.BillingEvent(org, L.BudgetReserve(b), -(amount as int), s.now));
    }
  }

  /** Closing gives back what is not committed, which is never more than is there. */
  lemma CloseHeld(s: Db, b: nat, opening: map<nat, nat>)
    requires AllHeld(s) && F.Funds(s, opening) && B.OneEach(s) && b < |s.ledger.bounties|
    ensures AllHeld(DoClose(s, b))
  {
    B.BudgetSuffices(s, b, opening);
    F.ReservationHasAccount(s, b, opening);
    hide F.Funds, B.OneEach, AllHeld, P.Sum;
    if b !in s.ledger.reservations || s.ledger.reservations[b].released {
      NoBudgetHeld(s, DoClose(s, b));
    } else {
      var r := s.ledger.reservations[b];
      var remaining := r.amount - Committed(s, b);
      if remaining > 0 {
        BudgetEventHeld(s, DoClose(s, b), b, L.BillingEvent(r.org, L.BudgetRelease(b), remaining, s.now));
      } else {
        ExhaustedCloseHeld(s, b);
      }
    }
  }

  /** When everything is committed, closing books nothing. */
  lemma ExhaustedCloseHeld(s: Db, b: nat)
    requires AllHeld(s) && b < |s.ledger.bounties| && b in s.ledger.reservations
    requires !s.ledger.reservations[b].released && s.ledger.reservations[b].amount == Committed(s, b)
    ensures AllHeld(DoClose(s, b))
  {
    forall c: nat
      ensures HeldIs(DoClose(s, b), c)
    {
      assert HeldIs(s, c);
    }
  }

  lemma OtherBooksHeld(s: Db, e: Step)
    requires AllHeld(s) && !IsPayStep(e) && !e.Publish? && !e.Close?
    ensures AllHeld(Next(s, e))
  {
    hide AllHeld, W.ClaimJob, W.ReleaseJob, W.Reap, W.Submit, W.VerifierClaim, P.Sum;
    NoBudgetHeld(s, Next(s, e));
  }

  lemma VerdictHeld(s: Db, e: Step)
    requires AllHeld(s) && e.GiveVerdict? && F.Owned(s) && FeeStays(s, e) && ReservationOpen(s, e)
    ensures AllHeld(Next(s, e))
  {
    hide Next, AllHeld, F.Owned, Taken, SameRefunds, P.Sum;
    if !PassIsPaid(s, e) {
      UnpaidVerdict(s, e);
      NoBudgetHeld(s, Next(s, e));
    } else if e.submission in s.pay.bySubmission {
      SecondPassRewrites(s, e);
      RewriteSame(s.pay, Next(s, e).pay, s.pay.bySubmission[e.submission], e.rates);
      SameHeld(s, Next(s, e));
    } else {
      FirstPassAdds(s, e);
      NewPayoutHeld(s, Next(s, e), Next(s, e).pay.payouts[|s.pay.payouts|]);
    }
  }

  lemma StepKeepsHeld(s: Db, e: Step, opening: map<nat, nat>)
    requires AllHeld(s) && N.PayOnce(s.pay) && F.Funds(s, opening) && B.OneEach(s)
    requires ReservationOpen(s, e) && FeeStays(s, e)
    ensures AllHeld(Next(s, e))
  {
    F.FundsParts(s, opening);
    hide N.PayOnce, F.Funds, F.Owned, B.OneEach, AllHeld, Next, FeeStays, ReservationOpen, MovesMoney, DoPublish,
         DoClose;
    if e.GiveVerdict? {
      VerdictHeld(s, e);
    } else if IsPayStep(e) {
      PayStepMoves(s, e);
      HeldFollows(s, Next(s, e));
    } else if e.Publish? {
      PublishIs(s, e.bounty);
      if DoPublish(s, e.bounty).Ok? {
        PublishHeld(s, e.bounty);
      }
    } else if e.Close? {
      CloseIs(s, e.bounty);
      if e.bounty < |s.ledger.bounties| {
        CloseHeld(s, e.bounty, opening);
      }
    } else {
      OtherBooksHeld(s, e);
    }
  }
}
