/**
 When exactly a dispute is opened and how it is closed, what that does to its payout, and
 when the payout's event and the refund's may then be claimed; and what a pass asks for.
 */
module RailDisputes {
  import opened Common
  import opened FeeSplit
  import opened Rail
  import opened RailSteps
  import opened RailResults
  import opened RailPayouts
  import opened RailLeases
  import F = RailFunds
  import T = RailTokens
  import O = Outbox
  import W = Work
  import P = Pay
  import L = Ledger

  // ----- what a step may do to a dispute -----

  /** The request names the payout, or the submission it is for. */
  predicate Names(s: Db, target: Target, i: nat)
    requires i < |s.pay.payouts|
  {
    match target
    case OfPayout(k) => k == i
    case OfSubmission(x) => s.pay.payouts[i].submission == x
  }

  /** The payout is of a bounty of the org. */
  predicate Owns(s: Db, org: nat, i: nat)
    requires i < |s.pay.payouts|
  {
    s.pay.payouts[i].bounty < |s.ledger.bounties| && s.ledger.bounties[s.pay.payouts[i].bounty].org == org
  }

  /** The org disputes payout i of a bounty of its own that is not paid, during its hold, and with no dispute open. */
  predicate Opens(s: Db, e: Step, i: nat) {
    && e.OpenDispute? && i < |s.pay.payouts| && Names(s, e.target, i) && Owns(s, e.org, i)
    && s.pay.payouts[i].status != P.Paid
    && s.pay.payouts[i].holdUntil.Some? && s.now < s.pay.payouts[i].holdUntil.value
    && forall dp :: 0 <= dp < |s.pay.disputes| && s.pay.disputes[dp].payout == i ==> s.pay.disputes[dp].status != P.Open
  }

  /** The org takes its open dispute back. */
  predicate Withdraws(s: Db, e: Step, dp: nat) {
    && e.CancelDispute? && e.dispute == dp
    && dp < |s.pay.disputes| && s.pay.disputes[dp].status == P.Open && s.pay.disputes[dp].org == e.org
  }

  /** An admin upholds a payout that was neither paid nor refunded. */
  predicate Upholds(s: Db, e: Step, dp: nat) {
    && e.ResolveDispute? && e.dispute == dp && e.resolution == P.ToUphold
    && dp < |s.pay.disputes| && s.pay.disputes[dp].status == P.Open
    && s.pay.disputes[dp].payout < |s.pay.payouts|
    && s.pay.payouts[s.pay.disputes[dp].payout].status in {P.Due, P.Failed}
  }

  predicate Refunds(s: Db, e: Step, dp: nat) {
    && dp < |s.pay.disputes| && RefundsIt(s, e, s.pay.disputes[dp].payout) && e.dispute == dp
  }

  function DisputeAfter(s: Db, e: Step, dp: nat): P.DisputeStatus
    requires dp < |s.pay.disputes|
  {
    if Withdraws(s, e, dp) then P.Cancelled
    else if Upholds(s, e, dp) || Refunds(s, e, dp) then P.Resolved
    else s.pay.disputes[dp].status
  }

  /** Some dispute on payout i is withdrawn or the payout upheld. */
  predicate Frees(s: Db, e: Step, i: nat) {
    && (e.CancelDispute? || e.ResolveDispute?) && e.dispute < |s.pay.disputes|
    && s.pay.disputes[e.dispute].payout == i && (Withdraws(s, e, e.dispute) || Upholds(s, e, e.dispute))
  }

  function BlockAfter(s: Db, e: Step, i: nat): P.Block
    requires i < |s.pay.payouts|
  {
    if Opens(s, e, i) then P.ByDispute
    else if Frees(s, e, i) then P.Unblocked
    else if RefundsIt(s, e, i) then P.ByRefund
    else s.pay.payouts[i].blocked
  }

  // ----- opening -----

  lemma TargetIs(s: Db, org: nat, target: Target)
    requires F.Owned(s)
    ensures var r := ResolveTarget(s, org, target);
            && (r.Ok? ==>
                  r.value < |s.pay.payouts| && Names(s, target, r.value) && Owns(s, org, r.value))
            && (forall i :: 0 <= i < |s.pay.payouts| && Names(s, target, i) && Owns(s, org, i) ==> r == Ok(i))
  {
    forall i | 0 <= i < |s.pay.payouts|
      ensures F.PayoutOwned(s, s.pay.payouts[i])
    {
    }
    hide F.JobsGenerated, F.DisputeOwned;
  }

  lemma RefusedIff(p: P.Tables, i: nat, now: int)
    requires i < |p.payouts|
    ensures P.DisputeRefused(p, i, now).None? <==>
              && p.payouts[i].status != P.Paid
              && p.payouts[i].holdUntil.Some? && now < p.payouts[i].holdUntil.value
              && forall dp :: 0 <= dp < |p.disputes| && p.disputes[dp].payout == i ==> p.disputes[dp].status != P.Open
  {
    if P.HasOpenDispute(p, i) {
      var dp :| 0 <= dp < |p.disputes| && P.OpenOn(p, dp, i);
    }
    forall dp | 0 <= dp < |p.disputes| && p.disputes[dp].payout == i && p.disputes[dp].status == P.Open
      ensures P.HasOpenDispute(p, i)
    {
      assert P.OpenOn(p, dp, i);
    }
  }

  lemma OpensIff(s: Db, org: nat, target: Target)
    requires F.Owned(s)
    ensures var r, e := ResolveTarget(s, org, target), OpenDispute(org, target);
            && (DoOpenDispute(s, org, target).Ok? <==> r.Ok? && Opens(s, e, r.value))
            && (forall i: nat :: Opens(s, e, i) ==> r == Ok(i))
  {
    TargetIs(s, org, target);
    hide F.Owned, ResolveTarget, P.OpenDispute, P.DisputeRefused, Names, Owns;
    if ResolveTarget(s, org, target).Ok? {
      RefusedIff(s.pay, ResolveTarget(s, org, target).value, s.now);
    }
  }

  lemma OpenDoes(s: Db, org: nat, target: Target)
    ensures var r, e := ResolveTarget(s, org, target), OpenDispute(org, target);
            if DoOpenDispute(s, org, target).Ok?
            then r.Ok? && r.value < |s.pay.payouts| && s.pay.payouts[r.value].holdUntil.Some?
                 && Next(s, e) == s.(pay := P.OpenDispute(s.pay, org, r.value, s.now))
            else Next(s, e) == s
  {
    hide ResolveTarget, P.OpenDispute, P.DisputeRefused;
    if DoOpenDispute(s, org, target).Ok? {
      OpenStep(s, org, target);
    }
  }

  // ----- what every step does to disputes and blocks -----

  /** Status of the old disputes and blocks of the payouts are as said. */
  ghost predicate AsSaid(s: Db, e: Step, p1: P.Tables) {
    && |s.pay.disputes| <= |p1.disputes| && |s.pay.payouts| <= |p1.payouts|
    && (forall dp :: 0 <= dp < |s.pay.disputes| ==>
          p1.disputes[dp] == s.pay.disputes[dp].(status := DisputeAfter(s, e, dp)))
    && (forall i :: 0 <= i < |s.pay.payouts| ==> p1.payouts[i].blocked == BlockAfter(s, e, i))
    && (forall i :: |s.pay.payouts| <= i < |p1.payouts| ==> p1.payouts[i].blocked == P.Unblocked)
  }

  lemma OpenAsSaid(s: Db, e: Step, i: nat)
    requires e.OpenDispute? && Opens(s, e, i) && forall k :: Opens(s, e, k) ==> k == i
    ensures AsSaid(s, e, P.OpenDispute(s.pay, e.org, i, s.now))
  {
    hide Names, Owns;
  }

  lemma FreeAsSaid(s: Db, e: Step, dp: nat)
    requires Withdraws(s, e, dp) || Upholds(s, e, dp)
    requires dp < |s.pay.disputes| && s.pay.disputes[dp].payout < |s.pay.payouts|
    ensures AsSaid(s, e, P.Free(s.pay, dp, if e.CancelDispute? then P.Cancelled else P.Resolved, s.now))
  {
  }

  lemma RefundAsSaid(s: Db, e: Step, dp: nat)
    requires Refunds(s, e, dp) && dp < |s.pay.disputes| && s.pay.disputes[dp].payout < |s.pay.payouts|
    ensures AsSaid(s, e, P.Refund(s.pay, dp))
  {
  }

  lemma SameAsSaid(s: Db, e: Step)
    requires !e.OpenDispute?
    requires e.CancelDispute? ==> !Withdraws(s, e, e.dispute)
    requires e.ResolveDispute? ==> !Upholds(s, e, e.dispute)
    requires e.ResolveDispute? || e.HandleRefund? ==> !Refunds(s, e, e.dispute)
    ensures AsSaid(s, e, s.pay)
  {
  }

  lemma CancelIff(s: Db, e: Step)
    requires F.Owned(s) && e.CancelDispute?
    ensures P.CancelDispute(s.pay, e.org, e.dispute, s.now).Ok? <==> Withdraws(s, e, e.dispute)
    ensures Withdraws(s, e, e.dispute) ==>
              && s.pay.disputes[e.dispute].payout < |s.pay.payouts|
              && Next(s, e) == s.(pay := P.Free(s.pay, e.dispute, P.Cancelled, s.now))
  {
    CancelStep(s, e.org, e.dispute);
    hide Next;
    if e.dispute < |s.pay.disputes| {
      assert F.DisputeOwned(s, s.pay.disputes[e.dispute]);
    }
    hide F.Owned, P.Free;
  }

  lemma ResolveIff(s: Db, dp: nat, r: P.Resolution)
    requires F.Owned(s)
    ensures var e, res := ResolveDispute(dp, r), DoResolve(s, dp, r);
            && (Upholds(s, e, dp) ==>
                  && s.pay.disputes[dp].payout < |s.pay.payouts|
                  && res.Ok? && res.value == s.(pay := P.Free(s.pay, dp, P.Resolved, s.now)))
            && (Refunds(s, e, dp) ==>
                  && s.pay.disputes[dp].payout < |s.pay.payouts|
                  && res.Ok? && res.value.pay == P.Refund(s.pay, dp))
            && (!Upholds(s, e, dp) && !Refunds(s, e, dp) && res.Ok? ==> res.value.pay == s.pay)
  {
    if dp < |s.pay.disputes| {
      assert F.DisputeOwned(s, s.pay.disputes[dp]);
    }
    hide F.Owned, L.Credit, P.Free, P.Refund;
  }

  lemma BoxAsSaid(s: Db, e: Step, p1: P.Tables)
    requires AsSaid(s, e, p1)
    ensures forall box :: AsSaid(s, e, p1.(box := box))
  {
  }

  lemma DisputeStepAsSaid(s: Db, e: Step)
    requires F.Owned(s) && (e.OpenDispute? || e.CancelDispute? || e.ResolveDispute?)
    ensures AsSaid(s, e, Next(s, e).pay)
  {
    hide F.Owned, AsSaid, Opens, Withdraws, Upholds, Refunds, DoResolve, DoOpenDispute, ResolveTarget, P.Free, P.Refund;
    match e
    case OpenDispute(org, target) =>
      OpensIff(s, org, target);
      OpenDoes(s, org, target);
      hide Next;
      if DoOpenDispute(s, org, target).Ok? {
        OpenAsSaid(s, e, ResolveTarget(s, org, target).value);
      } else {
        UnopenedAsSaid(s, e);
      }
    case CancelDispute(org, dp) =>
      CancelIff(s, e);
      CancelStep(s, org, dp);
      hide Next;
      if Withdraws(s, e, dp) {
        FreeAsSaid(s, e, dp);
      } else {
        SameAsSaid(s, e);
      }
    case ResolveDispute(dp, r) =>
      ResolveIff(s, dp, r);
      ResolvedAsSaid(s, e, dp);
  }

  lemma UnopenedAsSaid(s: Db, e: Step)
    requires e.OpenDispute? && forall i: nat :: !Opens(s, e, i)
    ensures AsSaid(s, e, s.pay)
  {
  }

  /** The tables after a resolution that took effect, or was refused. */
  lemma ResolvedAsSaid(s: Db, e: Step, dp: nat)
    requires e.ResolveDispute? && e.dispute == dp
    requires Upholds(s, e, dp) || Refunds(s, e, dp) ==> s.pay.disputes[dp].payout < |s.pay.payouts|
    ensures Upholds(s, e, dp) ==> AsSaid(s, e, P.Free(s.pay, dp, P.Resolved, s.now))
    ensures Refunds(s, e, dp) ==> AsSaid(s, e, P.Refund(s.pay, dp))
    ensures !Upholds(s, e, dp) && !Refunds(s, e, dp) ==> AsSaid(s, e, s.pay)
  {
    hide AsSaid, P.Free, P.Refund;
    if Upholds(s, e, dp) {
      FreeAsSaid(s, e, dp);
    } else if Refunds(s, e, dp) {
      RefundAsSaid(s, e, dp);
    } else {
      SameAsSaid(s, e);
    }
  }

  lemma AutoRefundAsSaid(s: Db, e: Step)
    requires F.Owned(s) && e.HandleRefund?
    ensures AsSaid(s, e, Next(s, e).pay)
  {
    var dp := e.dispute;
    hide F.Owned, AsSaid, Refunds, DoResolve, P.Refund;
    if e.dbOk && P.MayHandle(s.pay, e.runner, P.AutoRefund(dp)) {
      RefundLikeAdmin(s, e);
      ResolveIff(s, dp, P.ToRefund);
      if Refunds(s, e, dp) {
        RefundAsSaid(s, e, dp);
        BoxAsSaid(s, e, P.Refund(s.pay, dp));
      } else {
        SameAsSaid(s, e);
        BoxAsSaid(s, e, s.pay);
      }
    } else {
      NotHandled(s, e);
      SameAsSaid(s, e);
      BoxAsSaid(s, e, s.pay);
    }
  }

  lemma RefundLikeAdmin(s: Db, e: Step)
    requires e.HandleRefund? && e.dbOk && P.MayHandle(s.pay, e.runner, P.AutoRefund(e.dispute))
    ensures Refunds(s, e, e.dispute) <==> Refunds(s, ResolveDispute(e.dispute, P.ToRefund), e.dispute)
    ensures !Upholds(s, ResolveDispute(e.dispute, P.ToRefund), e.dispute)
  {
  }

  lemma NotHandled(s: Db, e: Step)
    requires e.HandleRefund? && !(e.dbOk && P.MayHandle(s.pay, e.runner, P.AutoRefund(e.dispute)))
    ensures !Refunds(s, e, e.dispute)
  {
  }

  lemma VerdictAsSaid(s: Db, e: Step)
    requires e.GiveVerdict?
    ensures AsSaid(s, e, Next(s, e).pay)
  {
    hide Next, P.RequestPayout, AsSaid;
    if Next(s, e).pay == s.pay {
      SameAsSaid(s, e);
    } else {
      VerdictPay(s, e);
      PassStep(s, e);
      var x := e.submission;
      var b := s.work.jobs[s.work.submissions[x].job].bounty;
      RequestAsSaid(s, e, x, b, s.work.submissions[x].worker, s.ledger.bounties[b].payoutCents,
                    s.ledger.bounties[b].windowSec, e.rates);
    }
  }

  lemma QueueAsSaid(s: Db, e: Step)
    requires e.ClaimEvents? || e.HandlePayout? || e.AckEvent? || e.Crash?
    ensures AsSaid(s, e, Next(s, e).pay)
  {
    hide MayClaim, O.Claim, O.Ack, O.Crash;
  }

  lemma RequestAsSaid(s: Db, e: Step, x: nat, b: nat, worker: nat, amount: nat, windowSec: int, rates: LegalRates)
    requires e.GiveVerdict?
    ensures AsSaid(s, e, P.RequestPayout(s.pay, x, b, worker, amount, windowSec, rates, s.now))
  {
  }

  /**
   A dispute is withdrawn exactly by its own org and resolved exactly by an upholding or a
   refund; a payout is blocked exactly by opening a dispute on it and freed or settled
   exactly by closing it.
   */
  lemma DisputesChangeIff(s: Db, d: Deployment, e: Step)
    requires Reachable(NO_HYPOTHESIS, s, d)
    ensures AsSaid(s, e, Next(s, e).pay)
  {
    F.ReachableHasFunds(NO_HYPOTHESIS, s, d);
    hide Reachable, L.Valid, F.Owned, AsSaid;
    if e.OpenDispute? || e.CancelDispute? || e.ResolveDispute? {
      DisputeStepAsSaid(s, e);
    } else if e.HandleRefund? {
      AutoRefundAsSaid(s, e);
    } else if e.GiveVerdict? {
      VerdictAsSaid(s, e);
    } else if IsPayStep(e) {
      QueueAsSaid(s, e);
    } else {
      OthersKeepPay(s, e);
      SameAsSaid(s, e);
    }
    hide Next;
  }

  // ----- what happens to the events -----

  /** The dispute is on payout i, whose event is taken back, and its refund asked for when the hold ends. */
  ghost predicate IsOpened(p: P.Tables, p1: P.Tables, org: nat, i: nat, now: int)
    requires i < |p.payouts| && p.payouts[i].holdUntil.Some?
  {
    var dp := |p.disputes|;
    && p1.disputes == p.disputes + [P.Dispute(org, p.payouts[i].bounty, i, P.Open)]
    && p1.payouts == p.payouts[i := p.payouts[i].(blocked := P.ByDispute)]
    && P.PayoutRequested(i) in p1.box.rows && p1.box.rows[P.PayoutRequested(i)].status == O.Sent
    && P.AutoRefund(dp) in p1.box.rows
    && p1.box.rows[P.AutoRefund(dp)]
       == O.Event("dispute.auto_refund.requested", O.Pending, 0, p.payouts[i].holdUntil.value, now, None)
  }

  lemma OpenedRows(p: P.Tables, org: nat, i: nat, now: int)
    requires P.IndexOk(p) && P.PayoutRequested(i) in p.box.rows
    requires i < |p.payouts| && p.payouts[i].holdUntil.Some?
    ensures IsOpened(p, P.OpenDispute(p, org, i, now), org, i, now)
  {
    assert P.AutoRefund(|p.disputes|) !in p.box.rows;
  }

  /**
   A dispute is opened exactly when Opens says so; it is the org's, on that payout, whose own
   event is taken back, and the refund is asked for at the very moment the hold ends.
   */
  lemma DisputeOpensIff(s: Db, d: Deployment, org: nat, target: Target, i: nat)
    requires Reachable(H6_ONLY, s, d) && i < |s.pay.payouts| && Names(s, target, i)
    ensures var e := OpenDispute(org, target);
            if Opens(s, e, i) then IsOpened(s.pay, Next(s, e).pay, org, i, s.now) else Next(s, e) == s
  {
    var e := OpenDispute(org, target);
    ReachableUnderLess(H6_ONLY, NO_HYPOTHESIS, s, d);
    F.ReachableHasFunds(NO_HYPOTHESIS, s, d);
    PayoutRow(H6_ONLY, s, d, i);
    ReachablePay(H6_ONLY, s, d);
    hide Reachable, L.Valid, F.Owned, P.Valid, P.PayoutsOk, P.DisputesOk, P.AllHeldOk, P.PayoutOk, P.IndexOk, Owns,
         IsOpened, P.OpenDispute;
    OpensIff(s, org, target);
    OpenDoes(s, org, target);
    hide Next, ResolveTarget, DoOpenDispute;
    OtherPayout(s, d.opening, org, target, i);
    if Opens(s, e, i) {
      OpenedRows(s.pay, org, i, s.now);
    }
  }

  /** A request names one payout. */
  lemma OtherPayout(s: Db, opening: map<nat, nat>, org: nat, target: Target, i: nat)
    requires F.Owned(s) && i < |s.pay.payouts| && Names(s, target, i)
    ensures forall k: nat :: Opens(s, OpenDispute(org, target), k) ==> k == i
  {
    hide F.PayoutOwned, F.DisputeOwned, F.JobsGenerated, Owns;
  }

  /** Payout i is unblocked and its event waits again, until the hold ends or from now on. */
  ghost predicate IsFreed(p: P.Tables, p1: P.Tables, i: nat, now: int)
    requires i < |p.payouts|
  {
    var row := p.payouts[i];
    && p1.payouts == p.payouts[i := row.(blocked := P.Unblocked)]
    && P.PayoutRequested(i) in p1.box.rows
    && var event := p1.box.rows[P.PayoutRequested(i)];
       && event.status == O.Pending && event.lock.None?
       && event.availableAt
          == (if row.holdUntil.Some? && row.holdUntil.value > now then row.holdUntil.value else now)
       && (P.PayoutRequested(i) in p.box.rows ==>
             event.attempts == p.box.rows[P.PayoutRequested(i)].attempts
             && event.topic == p.box.rows[P.PayoutRequested(i)].topic)
  }

  lemma FreedRows(p: P.Tables, dp: nat, st: P.DisputeStatus, now: int)
    requires dp < |p.disputes| && p.disputes[dp].payout < |p.payouts|
    ensures IsFreed(p, P.Free(p, dp, st, now), p.disputes[dp].payout, now)
  {
  }

  /** A payout that is freed is asked for again when its hold ends, or at once if it has ended. */
  lemma FreedIsAskedAgain(s: Db, d: Deployment, e: Step, i: nat)
    requires Reachable(NO_HYPOTHESIS, s, d) && i < |s.pay.payouts| && Frees(s, e, i)
    ensures IsFreed(s.pay, Next(s, e).pay, i, s.now)
  {
    F.ReachableHasFunds(NO_HYPOTHESIS, s, d);
    hide Reachable, L.Valid, F.Owned, Withdraws, Upholds, IsFreed, P.Free, DoResolve;
    if e.CancelDispute? {
      CancelIff(s, e);
      FreedRows(s.pay, e.dispute, P.Cancelled, s.now);
      hide Next;
    } else {
      ResolveIff(s, e.dispute, e.resolution);
      UpholdsToUphold(s, e);
      FreedRows(s.pay, e.dispute, P.Resolved, s.now);
    }
  }

  lemma UpholdsToUphold(s: Db, e: Step)
    requires e.ResolveDispute? && Upholds(s, e, e.dispute)
    ensures e == ResolveDispute(e.dispute, P.ToUphold)
  {
  }

  /** A refund takes the payout's own event away, so that nobody asks the provider any more. */
  lemma RefundTakesEvent(s: Db, d: Deployment, e: Step, dp: nat)
    requires Reachable(NO_HYPOTHESIS, s, d) && Refunds(s, e, dp)
    ensures var i, p1 := s.pay.disputes[dp].payout, Next(s, e).pay;
            P.PayoutRequested(i) in s.pay.box.rows ==>
              P.PayoutRequested(i) in p1.box.rows && p1.box.rows[P.PayoutRequested(i)].status == O.Sent
              && p1.box.rows[P.PayoutRequested(i)].lock.None?
  {
    F.ReachableHasFunds(NO_HYPOTHESIS, s, d);
    hide Reachable, L.Valid, F.Owned, DoResolve;
    if e.ResolveDispute? {
      ResolveIff(s, dp, e.resolution);
    } else {
      RefundLikeAdmin(s, e);
      ResolveIff(s, dp, P.ToRefund);
    }
    hide Refunds, Upholds;
  }

  // ----- what a pass asks for -----

  /** The payout of submission x, created now at the given rates, and when its event may be claimed. */
  ghost predicate IsRequested(p: P.Tables, p1: P.Tables, x: nat, b: nat, bounty: L.Bounty, worker: nat,
                              rates: LegalRates, now: int)
  {
    var i := |p.payouts|;
    var hold := if bounty.windowSec == 0 then None else Some(now + 1_000 * bounty.windowSec);
    && p1.payouts
       == p.payouts + [P.Payout(x, b, worker, bounty.payoutCents, SplitOf(bounty.payoutCents, rates), P.Due, hold,
                                P.Unblocked)]
    && p1.bySubmission == p.bySubmission[x := i]
    && P.PayoutRequested(i) in p1.box.rows
    && p1.box.rows[P.PayoutRequested(i)]
       == O.Event("payout.requested", O.Pending, 0, if hold.Some? then hold.value else now, now, None)
  }

  lemma RequestedRows(p: P.Tables, x: nat, b: nat, bounty: L.Bounty, worker: nat, rates: LegalRates, now: int)
    requires P.IndexOk(p) && x !in p.bySubmission
    ensures IsRequested(p, P.RequestPayout(p, x, b, worker, bounty.payoutCents, bounty.windowSec, rates, now),
                        x, b, bounty, worker, rates, now)
  {
    assert P.PayoutRequested(|p.payouts|) !in p.box.rows;
  }

  lemma JudgedJob(s: Db, d: Deployment, x: nat)
    requires Reachable(NO_HYPOTHESIS, s, d) && x < |s.work.submissions|
    ensures s.work.submissions[x].job < |s.work.jobs|
    ensures s.work.jobs[s.work.submissions[x].job].bounty < |s.ledger.bounties|
  {
    T.ReachableTokens(NO_HYPOTHESIS, s, d);
    F.ReachableHasFunds(NO_HYPOTHESIS, s, d);
    hide Reachable, L.Valid, F.PayoutOwned, F.DisputeOwned, F.JobsGenerated;
  }

  /**
   A pass that counts, on a submission without a payout and at legal rates, pays its worker
   what the bounty offers, once the hold window is over.
   */
  lemma PassRequestsPayout(s: Db, d: Deployment, e: Step, j: nat)
    requires Reachable(H6_ONLY, s, d) && IsJudged(s, e, j) && e.verdict == W.Pass && e.submission !in s.pay.bySubmission
    requires e.rates.platformBps >= 0 && e.rates.proofworkBps >= 0
    requires e.rates.platformBps + e.rates.proofworkBps <= 10_000
    ensures var x := e.submission;
            && x < |s.work.submissions| && j < |s.work.jobs| && s.work.jobs[j].bounty < |s.ledger.bounties|
            && e.rates.Valid()
            && var b := s.work.jobs[j].bounty;
               IsRequested(s.pay, Next(s, e).pay, x, b, s.ledger.bounties[b], s.work.submissions[x].worker, e.rates,
                           s.now)
  {
    ReachablePay(H6_ONLY, s, d);
    ReachableUnderLess(H6_ONLY, NO_HYPOTHESIS, s, d);
    F.ReachableHasFunds(NO_HYPOTHESIS, s, d);
    JudgedJob(s, d, e.submission);
    TakenIsJudged(s, e, j);
    hide Reachable, L.Valid, P.Valid, P.PayoutsOk, P.DisputesOk, P.AllHeldOk, F.Owned, P.IndexOk, IsJudged, Taken,
         W.TakeVerdict, P.RequestPayout, IsRequested, Next;
    PassStep(s, e);
    var b := s.work.jobs[j].bounty;
    var worker := s.work.submissions[e.submission].worker;
    RequestedRows(s.pay, e.submission, b, s.ledger.bounties[b], worker, e.rates, s.now);
  }

  // ----- why a request is refused -----

  predicate HasOpen(s: Db, i: nat) {
    exists dp :: 0 <= dp < |s.pay.disputes| && s.pay.disputes[dp].payout == i && s.pay.disputes[dp].status == P.Open
  }

  /** The org of a payout is told whether it is paid, was never on hold, is no longer, or is disputed already. */
  lemma OpenRefusals(s: Db, d: Deployment, org: nat, target: Target, i: nat)
    requires Reachable(NO_HYPOTHESIS, s, d) && i < |s.pay.payouts| && Names(s, target, i)
    ensures var r, row := DoOpenDispute(s, org, target), s.pay.payouts[i];
            && (r == Err(P.Forbidden) <==> !Owns(s, org, i))
            && (r == Err(P.PayoutAlreadyPaid) <==> Owns(s, org, i) && row.status == P.Paid)
            && (r == Err(P.WindowDisabled) <==> Owns(s, org, i) && row.status != P.Paid && row.holdUntil.None?)
            && (r == Err(P.WindowExpired) <==>
                  Owns(s, org, i) && row.status != P.Paid && row.holdUntil.Some? && row.holdUntil.value <= s.now)
            && (r == Err(P.AlreadyOpen) <==>
                  && Owns(s, org, i) && row.status != P.Paid
                  && row.holdUntil.Some? && s.now < row.holdUntil.value && HasOpen(s, i))
  {
    F.ReachableHasFunds(NO_HYPOTHESIS, s, d);
    hide Reachable, L.Valid, F.JobsGenerated, F.DisputeOwned, P.OpenDispute;
    assert F.PayoutOwned(s, s.pay.payouts[i]);
    TargetIs(s, org, target);
    RefusedIff(s.pay, i, s.now);
    OpenIsOpenOn(s.pay, i);
    hide F.Owned;
  }

  lemma OpenIsOpenOn(p: P.Tables, i: nat)
    ensures P.HasOpenDispute(p, i) <==>
            exists dp :: 0 <= dp < |p.disputes| && p.disputes[dp].payout == i && p.disputes[dp].status == P.Open
  {
    if dp :| 0 <= dp < |p.disputes| && p.disputes[dp].payout == i && p.disputes[dp].status == P.Open {
      assert P.OpenOn(p, dp, i);
    }
  }

  /** Where there is no payout, the org is told whether it is the submission that is missing. */
  lemma MissingRefusals(s: Db, d: Deployment, org: nat, target: Target)
    requires Reachable(NO_HYPOTHESIS, s, d) && forall i: nat :: i < |s.pay.payouts| ==> !Names(s, target, i)
    ensures match target
            case OfPayout(_) => DoOpenDispute(s, org, target) == Err(P.TargetNotFound)
            case OfSubmission(x) =>
              && (DoOpenDispute(s, org, target) == Err(P.TargetNotFound) <==> x >= |s.work.submissions|)
              && (x < |s.work.submissions| ==>
                    DoOpenDispute(s, org, target) == Err(P.Forbidden)
                    || DoOpenDispute(s, org, target) == Err(P.PayoutMissing))
  {
    F.ReachableHasFunds(NO_HYPOTHESIS, s, d);
    if target.OfSubmission? && target.submission < |s.work.submissions| {
      JudgedJob(s, d, target.submission);
    }
    hide Reachable, L.Valid, F.JobsGenerated, F.DisputeOwned, F.PayoutOwned, P.OpenDispute, P.DisputeRefused;
    match target
    case OfPayout(k) => assert k < |s.pay.payouts| ==> Names(s, target, k);
    case OfSubmission(x) => assert x in s.pay.bySubmission ==> Names(s, target, s.pay.bySubmission[x]);
  }

  /** Withdrawals and decisions are refused for want of an open dispute of that org, or of a payout not yet paid. */
  lemma CloseRefusals(s: Db, d: Deployment, org: nat, dp: nat, r: P.Resolution)
    requires Reachable(NO_HYPOTHESIS, s, d)
    ensures var cancel, resolve := P.CancelDispute(s.pay, org, dp, s.now), DoResolve(s, dp, r);
            if dp >= |s.pay.disputes| then cancel == Err(P.NotFound) && resolve == Err(P.NotFound)
            else
              var row := s.pay.disputes[dp];
              && row.payout < |s.pay.payouts|
              && (cancel == Err(P.Forbidden) <==> row.org != org)
              && (cancel == Err(P.NotOpen) <==> row.org == org && row.status != P.Open)
              && (cancel.Ok? <==> row.org == org && row.status == P.Open)
              && (resolve == Err(P.NotOpen) <==> row.status != P.Open)
              && (resolve == Err(P.PayoutAlreadyPaid) <==>
                    row.status == P.Open && s.pay.payouts[row.payout].status == P.Paid)
              && (resolve.Ok? <==> row.status == P.Open && s.pay.payouts[row.payout].status != P.Paid)
  {
    F.ReachableHasFunds(NO_HYPOTHESIS, s, d);
    if dp < |s.pay.disputes| {
      assert F.DisputeOwned(s, s.pay.disputes[dp]);
    }
    hide Reachable, L.Valid, F.Owned, P.Free, P.Refund, L.Credit;
  }
}
