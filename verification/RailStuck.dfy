/**
 When exactly a payout that is due can still be paid without anybody breaking the glass:
 unless its event was given up, nobody has it in hand, and its hold is over.
 */
module RailStuck {
  import opened FeeSplit
  import opened Rail
  import opened RailSteps
  import opened RailResults
  import opened RailPayouts
  import opened RailDisputes
  import opened RailProgress
  import opened RailReclaim
  import F = RailFunds
  import H = RailHistory
  import O = Outbox
  import W = Work
  import P = Pay
  import L = Ledger

  /** The event was dead-lettered, and what workers still have of it comes to nothing. */
  ghost predicate GivenUp(box: O.Box<P.Key>, key: P.Key, cfg: O.Config) {
    && key in box.rows && box.rows[key].status == O.Dead && !InHand(box, key, cfg)
    && forall z :: z in box.held && z.1 == key ==> box.held[z].phase == O.Threw
  }

  // ----- an event that was given up stays so -----

  lemma EnqueueKeepsDead(box: O.Box<P.Key>, key: P.Key, other: P.Key, topic: string, at: int, now: int, cfg: O.Config)
    requires GivenUp(box, key, cfg)
    ensures GivenUp(box.(rows := O.Enqueue(box.rows, other, topic, at, now)), key, cfg)
  {
  }

  lemma SentKeepsDead(box: O.Box<P.Key>, key: P.Key, other: P.Key, cfg: O.Config)
    requires GivenUp(box, key, cfg) && other != key
    ensures GivenUp(box.(rows := O.MarkSent(box.rows, other)), key, cfg)
  {
  }

  lemma OpenKeepsDead(p: P.Tables, org: nat, i: nat, now: int, key: P.Key, cfg: O.Config)
    requires GivenUp(p.box, key, cfg) && i < |p.payouts| && p.payouts[i].holdUntil.Some? && key != P.PayoutRequested(i)
    ensures GivenUp(P.OpenDispute(p, org, i, now).box, key, cfg)
  {
    SentKeepsDead(p.box, key, P.PayoutRequested(i), cfg);
    hide GivenUp, O.MarkSent;
    EnqueueKeepsDead(p.box.(rows := O.MarkSent(p.box.rows, P.PayoutRequested(i))), key, P.AutoRefund(|p.disputes|),
                     P.REFUND_TOPIC, p.payouts[i].holdUntil.value, now, cfg);
  }

  lemma CloseKeepsDead(p: P.Tables, dp: nat, st: P.DisputeStatus, now: int, key: P.Key, cfg: O.Config)
    requires GivenUp(p.box, key, cfg) && dp < |p.disputes| && p.disputes[dp].payout < |p.payouts|
    requires key != P.PayoutRequested(p.disputes[dp].payout)
    ensures GivenUp(P.Free(p, dp, st, now).box, key, cfg) && GivenUp(P.Refund(p, dp).box, key, cfg)
  {
  }

  lemma FinishKeepsDead(box: O.Box<P.Key>, w: nat, other: P.Key, phase: O.Phase, key: P.Key, cfg: O.Config)
    requires GivenUp(box, key, cfg) && other != key
    ensures GivenUp(O.Finish(box, w, other, phase), key, cfg)
  {
  }

  lemma ClaimKeepsDead(p: P.Tables, w: nat, topics: set<string>, batch: seq<P.Key>, now: int, key: P.Key, cfg: O.Config)
    requires GivenUp(p.box, key, cfg)
    requires forall k :: k in batch ==> k in p.box.rows && O.Eligible(O.Released(p.box.rows[k], now, cfg), topics, now)
    ensures GivenUp(P.ClaimEvents(p, w, batch, now, cfg).box, key, cfg)
  {
  }

  lemma AckKeepsDead(p: P.Tables, w: nat, other: P.Key, now: int, key: P.Key, cfg: O.Config)
    requires GivenUp(p.box, key, cfg)
    ensures GivenUp(P.AckEvent(p, w, other, now, cfg).box, key, cfg)
  {
  }

  lemma CrashKeepsDead(box: O.Box<P.Key>, w: nat, key: P.Key, cfg: O.Config)
    requires GivenUp(box, key, cfg)
    ensures GivenUp(O.Crash(box, w), key, cfg)
  {
  }

  // ----- a payout that is stuck stays so -----

  /** The payout is due and nothing keeps it back, but nothing brings it on either. */
  ghost predicate Stuck(s: Db, i: nat) {
    && i < |s.pay.payouts| && Waits(s.pay.payouts[i]) && P.HoldOver(s.pay.payouts[i], s.now)
    && GivenUp(s.pay.box, P.PayoutRequested(i), s.cfg)
  }

  lemma OpenBlocks(p: P.Tables, dp: nat, i: nat)
    requires P.DisputesOk(p)
    ensures P.OpenOn(p, dp, i) ==> i < |p.payouts| && p.payouts[i].blocked == P.ByDispute
  {
    assert dp < |p.disputes| ==> P.DisputeOk(p, dp);
  }

  lemma FreesIsOpen(s: Db, e: Step, i: nat)
    ensures Frees(s, e, i) ==> exists dp: nat :: P.OpenOn(s.pay, dp, i)
  {
    assert Frees(s, e, i) ==> P.OpenOn(s.pay, e.dispute, i);
  }

  /** No dispute is open on a payout that is not blocked. */
  lemma NoneOpen(s: Db, d: Deployment, i: nat)
    requires Reachable(H6_ONLY, s, d) && i < |s.pay.payouts| && s.pay.payouts[i].blocked == P.Unblocked
    ensures forall dp: nat :: !P.OpenOn(s.pay, dp, i)
  {
    ReachablePay(H6_ONLY, s, d);
    hide Reachable, P.Valid, P.PayoutsOk, P.IndexOk, P.DisputesOk, P.AllHeldOk;
    forall dp: nat
      ensures P.OpenOn(s.pay, dp, i) ==> s.pay.payouts[i].blocked == P.ByDispute
    {
      OpenBlocks(s.pay, dp, i);
    }
  }

  lemma RowStaysStuck(s: Db, d: Deployment, e: Step, i: nat)
    requires Reachable(H6_ONLY, s, d) && Meets(H6_ONLY, s, e) && Stuck(s, i)
    ensures var s1 := Next(s, e);
            i < |s1.pay.payouts| && Waits(s1.pay.payouts[i]) && P.HoldOver(s1.pay.payouts[i], s1.now)
  {
    NoneOpen(s, d, i);
    ReachableUnderLess(H6_ONLY, NO_HYPOTHESIS, s, d);
    OneStep(H6_ONLY, s, e);
    ReachableGoesOn(H6_ONLY, s, d, [e]);
    StatusChangesIff(s, e, i);
    DisputesChangeIff(s, d, e);
    OnlyTicksTakeTime(s, e);
    hide Next, Reachable, Meets, Run, RunUnder, H.LedgerFollows, H.DisputesFollow;
    assert H.PayoutFollows(H6_ONLY, s.pay.payouts[i], Next(s, e).pay.payouts[i]);
    FreesIsOpen(s, e, i);
    assert !AsksFor(s, e, i) && !RefundsIt(s, e, i) && !Opens(s, e, i);
  }

  lemma VerdictKeepsDead(s: Db, e: Step, key: P.Key)
    requires e.GiveVerdict? && GivenUp(s.pay.box, key, s.cfg)
    ensures GivenUp(Next(s, e).pay.box, key, s.cfg)
  {
    hide Next, GivenUp, W.TakeVerdict;
    if Next(s, e).pay != s.pay {
      VerdictPay(s, e);
      PassStep(s, e);
      var b := s.work.jobs[s.work.submissions[e.submission].job].bounty;
      RequestKeepsDead(s.pay, e.submission, b, s.work.submissions[e.submission].worker, s.ledger.bounties[b], e.rates,
                       s.now, key, s.cfg);
    }
  }

  lemma RequestKeepsDead(p: P.Tables, x: nat, b: nat, worker: nat, row: L.Bounty, rates: LegalRates, now: int,
                         key: P.Key, cfg: O.Config)
    requires GivenUp(p.box, key, cfg)
    ensures GivenUp(P.RequestPayout(p, x, b, worker, row.payoutCents, row.windowSec, rates, now).box, key, cfg)
  {
  }

  lemma DisputeStepKeepsDead(s: Db, d: Deployment, e: Step, i: nat)
    requires Reachable(H6_ONLY, s, d) && Stuck(s, i) && (e.OpenDispute? || e.CancelDispute? || e.ResolveDispute?)
    ensures GivenUp(Next(s, e).pay.box, P.PayoutRequested(i), s.cfg)
  {
    var key := P.PayoutRequested(i);
    NoneOpen(s, d, i);
    ReachableUnderLess(H6_ONLY, NO_HYPOTHESIS, s, d);
    F.ReachableHasFunds(NO_HYPOTHESIS, s, d);
    hide Reachable, GivenUp, L.Valid, F.Owned, P.OpenDispute, P.Free, P.Refund, DoOpenDispute, DoResolve, ResolveTarget,
         P.CancelDispute, Names, Owns, RefundsIt;
    match e
    case OpenDispute(org, target) =>
      OpensIff(s, org, target);
      OpenDoes(s, org, target);
      hide Next;
      if DoOpenDispute(s, org, target).Ok? {
        OpenKeepsDead(s.pay, org, ResolveTarget(s, org, target).value, s.now, key, s.cfg);
      }
    case CancelDispute(org, dp) =>
      CancelIff(s, e);
      CancelStep(s, org, dp);
      hide Next;
      if Withdraws(s, e, dp) {
        assert P.OpenOn(s.pay, dp, s.pay.disputes[dp].payout);
        CloseKeepsDead(s.pay, dp, P.Cancelled, s.now, key, s.cfg);
      }
    case ResolveDispute(dp, r) =>
      ResolveKeepsDead(s, dp, r, i);
  }

  lemma ResolveKeepsDead(s: Db, dp: nat, r: P.Resolution, i: nat)
    requires F.Owned(s) && GivenUp(s.pay.box, P.PayoutRequested(i), s.cfg) && !P.OpenOn(s.pay, dp, i)
    ensures var res := DoResolve(s, dp, r); res.Ok? ==> GivenUp(res.value.pay.box, P.PayoutRequested(i), s.cfg)
  {
    ResolveIff(s, dp, r);
    hide GivenUp, F.Owned, P.Free, P.Refund, DoResolve;
    if Upholds(s, ResolveDispute(dp, r), dp) || Refunds(s, ResolveDispute(dp, r), dp) {
      CloseKeepsDead(s.pay, dp, P.Resolved, s.now, P.PayoutRequested(i), s.cfg);
    }
  }

  lemma AutoRefundKeepsDead(s: Db, d: Deployment, w: nat, dp: nat, dbOk: bool, i: nat)
    requires Reachable(H6_ONLY, s, d) && Stuck(s, i)
    ensures GivenUp(DoHandleRefund(s, w, dp, dbOk).pay.box, P.PayoutRequested(i), s.cfg)
  {
    var key := P.PayoutRequested(i);
    NoneOpen(s, d, i);
    ReachableUnderLess(H6_ONLY, NO_HYPOTHESIS, s, d);
    F.ReachableHasFunds(NO_HYPOTHESIS, s, d);
    ResolveKeepsDead(s, dp, P.ToRefund, i);
    hide Reachable, GivenUp, L.Valid, F.Owned, DoResolve, O.Finish;
    var r := DoResolve(s, dp, P.ToRefund);
    FinishKeepsDead(if r.Ok? then r.value.pay.box else s.pay.box, w, P.AutoRefund(dp), O.Returned, key, s.cfg);
    FinishKeepsDead(s.pay.box, w, P.AutoRefund(dp), O.Threw, key, s.cfg);
  }

  lemma HandleKeepsDead(s: Db, w: nat, k: nat, rates: Rates, walletSet: bool, answer: P.Provider, key: P.Key)
    requires GivenUp(s.pay.box, key, s.cfg)
    ensures GivenUp(P.HandlePayout(s.pay, w, k, rates, walletSet, answer, s.now).box, key, s.cfg)
  {
  }

  lemma BoxStaysStuck(s: Db, d: Deployment, e: Step, i: nat)
    requires Reachable(H6_ONLY, s, d) && Stuck(s, i)
    ensures GivenUp(Next(s, e).pay.box, P.PayoutRequested(i), s.cfg)
  {
    var key := P.PayoutRequested(i);
    if e.GiveVerdict? {
      VerdictKeepsDead(s, e, key);
    } else if e.OpenDispute? || e.CancelDispute? || e.ResolveDispute? {
      DisputeStepKeepsDead(s, d, e, i);
    } else if IsPayStep(e) {
      hide Reachable, GivenUp, DoHandleRefund, P.ClaimEvents, P.HandlePayout, P.AckEvent, O.Crash, MayClaim;
      match e
      case ClaimEvents(w, topics, limit, batch) =>
        if MayClaim(s, w, topics, limit, batch) {
          BatchIsEligible(s, w, topics, limit, batch);
          ClaimKeepsDead(s.pay, w, topics, batch, s.now, key, s.cfg);
        }
      case HandlePayout(w, k, rates, walletSet, answer) => HandleKeepsDead(s, w, k, rates, walletSet, answer, key);
      case HandleRefund(w, dp, dbOk) => AutoRefundKeepsDead(s, d, w, dp, dbOk, i);
      case AckEvent(w, other) => AckKeepsDead(s.pay, w, other, s.now, key, s.cfg);
      case Crash(w) => CrashKeepsDead(s.pay.box, w, key, s.cfg);
    } else {
      OthersKeepPay(s, e);
    }
    hide Next;
  }

  /** Whatever happens, a stuck payout is never paid: it takes somebody to break the glass. */
  lemma {:induction false} StuckForGood(s: Db, d: Deployment, steps: seq<Step>, i: nat)
    requires Reachable(H6_ONLY, s, d) && RunUnder(H6_ONLY, s, steps) && Stuck(s, i)
    ensures Stuck(Run(s, steps), i)
    decreases |steps|
  {
    hide Next, Meets, Reachable, GivenUp, Waits, P.HoldOver;
    if steps != [] {
      var s1 := Next(s, steps[0]);
      RowStaysStuck(s, d, steps[0], i);
      BoxStaysStuck(s, d, steps[0], i);
      OnlyTicksTakeTime(s, steps[0]);
      ReachableStep(H6_ONLY, s, d, steps[0]);
      StuckForGood(s1, d, steps[1..], i);
    }
  }

  // ----- an event being processed is locked -----

  ghost predicate Locked(rows: O.Rows<P.Key>) {
    forall k :: k in rows && rows[k].status == O.Processing ==> rows[k].lock.Some?
  }

  lemma RequestLocks(p: P.Tables, x: nat, b: nat, worker: nat, row: L.Bounty, rates: LegalRates, now: int)
    requires Locked(p.box.rows)
    ensures Locked(P.RequestPayout(p, x, b, worker, row.payoutCents, row.windowSec, rates, now).box.rows)
  {
  }

  lemma OpenLocks(p: P.Tables, org: nat, i: nat, now: int)
    requires Locked(p.box.rows) && i < |p.payouts| && p.payouts[i].holdUntil.Some?
    ensures Locked(P.OpenDispute(p, org, i, now).box.rows)
  {
  }

  lemma CloseLocks(p: P.Tables, dp: nat, st: P.DisputeStatus, now: int)
    requires Locked(p.box.rows) && dp < |p.disputes| && p.disputes[dp].payout < |p.payouts|
    ensures Locked(P.Free(p, dp, st, now).box.rows) && Locked(P.Refund(p, dp).box.rows)
  {
  }

  lemma ResolveLocks(s: Db, dp: nat, r: P.Resolution)
    requires Locked(s.pay.box.rows)
    ensures DoResolve(s, dp, r).Ok? ==> Locked(DoResolve(s, dp, r).value.pay.box.rows)
  {
    hide Locked, P.Free, P.Refund, L.Credit;
    if DoResolve(s, dp, r).Ok? {
      CloseLocks(s.pay, dp, P.Resolved, s.now);
    }
  }

  lemma ClaimLocks(p: P.Tables, w: nat, batch: seq<P.Key>, now: int, cfg: O.Config)
    requires Locked(p.box.rows) && forall k :: k in batch ==> k in p.box.rows
    ensures Locked(P.ClaimEvents(p, w, batch, now, cfg).box.rows)
  {
  }

  lemma AckLocks(p: P.Tables, w: nat, key: P.Key, now: int, cfg: O.Config)
    requires Locked(p.box.rows)
    ensures Locked(P.AckEvent(p, w, key, now, cfg).box.rows)
  {
  }

  lemma VerdictLocks(s: Db, e: Step)
    requires e.GiveVerdict? && Locked(s.pay.box.rows)
    ensures Locked(Next(s, e).pay.box.rows)
  {
    hide Next, Locked, W.TakeVerdict;
    if Next(s, e).pay != s.pay {
      VerdictPay(s, e);
      PassStep(s, e);
      var b := s.work.jobs[s.work.submissions[e.submission].job].bounty;
      var worker := s.work.submissions[e.submission].worker;
      RequestLocks(s.pay, e.submission, b, worker, s.ledger.bounties[b], e.rates, s.now);
    }
  }

  lemma DisputeStepLocks(s: Db, e: Step)
    requires Locked(s.pay.box.rows) && (e.OpenDispute? || e.CancelDispute? || e.ResolveDispute? || e.HandleRefund?)
    ensures Locked(Next(s, e).pay.box.rows)
  {
    hide Locked, DoResolve, P.OpenDispute, P.Free, ResolveTarget;
    match e
    case OpenDispute(org, target) =>
      OpenDoes(s, org, target);
      hide Next;
      if DoOpenDispute(s, org, target).Ok? {
        OpenLocks(s.pay, org, ResolveTarget(s, org, target).value, s.now);
      }
    case CancelDispute(org, dp) =>
      if P.CancelDispute(s.pay, org, dp, s.now).Ok? {
        CloseLocks(s.pay, dp, P.Cancelled, s.now);
      }
    case ResolveDispute(dp, r) => ResolveLocks(s, dp, r);
    case HandleRefund(_, dp, _) => ResolveLocks(s, dp, P.ToRefund);
  }

  lemma StepLocks(s: Db, e: Step)
    requires Locked(s.pay.box.rows)
    ensures Locked(Next(s, e).pay.box.rows)
  {
    if e.GiveVerdict? {
      VerdictLocks(s, e);
    } else if e.OpenDispute? || e.CancelDispute? || e.ResolveDispute? || e.HandleRefund? {
      DisputeStepLocks(s, e);
    } else if IsPayStep(e) {
      hide Locked, P.ClaimEvents, P.AckEvent, MayClaim;
      match e
      case ClaimEvents(w, topics, limit, batch) =>
        if MayClaim(s, w, topics, limit, batch) {
          BatchIsEligible(s, w, topics, limit, batch);
          ClaimLocks(s.pay, w, batch, s.now, s.cfg);
        }
      case AckEvent(w, key) => AckLocks(s.pay, w, key, s.now, s.cfg);
      case _ =>
    } else {
      OthersKeepPay(s, e);
    }
    hide Next;
  }

  lemma {:induction false} RunLocks(s: Db, steps: seq<Step>)
    requires Locked(s.pay.box.rows)
    ensures Locked(Run(s, steps).pay.box.rows)
    decreases |steps|
  {
    hide Locked, Next;
    if steps != [] {
      StepLocks(s, steps[0]);
      RunLocks(Next(s, steps[0]), steps[1..]);
    }
  }

  lemma ReachableLocks(h: Hypotheses, s: Db, d: Deployment)
    requires Reachable(h, s, d)
    ensures Locked(s.pay.box.rows)
  {
    hide Next, Run, RunUnder;
    var steps :| RunUnder(h, Start(d), steps) && Run(Start(d), steps) == s;
    RunLocks(Start(d), steps);
  }

  // ----- what brings a payout on -----

  /** The run pays payout i. */
  ghost predicate Pays(s: Db, steps: seq<Step>, i: nat) {
    && RunUnder(H6_ONLY, s, steps)
    && i < |Run(s, steps).pay.payouts| && Run(s, steps).pay.payouts[i].status == P.Paid
  }

  lemma AskedIsPaid(s: Db, i: nat) returns (more: seq<Step>)
    requires IsAsked(s, i)
    ensures Pays(s, more, i)
  {
    hide IsAsked, Run, RunUnder;
    more := AskedIsAnswered(s, i, Rates(0, 100), false, P.SaysPaid);
    RunUnderLess(ALL, H6_ONLY, s, more);
  }

  lemma StepThenPaid(s: Db, e: Step, more: seq<Step>, i: nat)
    requires Meets(H6_ONLY, s, e) && Pays(Next(s, e), more, i)
    ensures Pays(s, [e] + more, i)
  {
    hide Next, Meets, Run, RunUnder;
    StepFirst(H6_ONLY, s, e, more);
  }

  /** A worker that has the event in hand pays, or reports that it failed and the event comes again. */
  lemma InHandIsPaid(s: Db, d: Deployment, i: nat) returns (more: seq<Step>)
    requires Reachable(H6_ONLY, s, d) && i < |s.pay.payouts| && Waits(s.pay.payouts[i])
    requires P.PayoutRequested(i) in s.pay.box.rows && InHand(s.pay.box, P.PayoutRequested(i), s.cfg)
    ensures Pays(s, more, i)
  {
    var key := P.PayoutRequested(i);
    ReachablePay(H6_ONLY, s, d);
    hide Reachable, P.Valid, P.PayoutsOk, P.DisputesOk, P.IndexOk;
    var x :| x in s.pay.box.held && x.1 == key && Unsettled(s.pay.box.held[x], s.pay.box.rows[key].topic, s.cfg);
    assert P.HeldOk(s.pay, x.1, s.pay.box.held[x], s.now);
    var w := x.0;
    assert x == (w, key);
    hide P.AllHeldOk;
    if s.pay.box.held[x].phase == O.Claimed {
      var e := HandlePayout(w, i, Rates(0, 100), false, P.SaysPaid);
      assert AsksFor(s, e, i) && Meets(H6_ONLY, s, e);
      StatusChangesIff(s, e, i);
      hide Next, Meets;
      OneStep(H6_ONLY, s, e);
      more := [e];
    } else {
      var e := AckEvent(w, key);
      assert Meets(H6_ONLY, s, e);
      RetryIsAsked(s, w, i);
      hide Next, Meets, IsAsked, Pays;
      more := AskedIsPaid(Next(s, e), i);
      StepThenPaid(s, e, more, i);
      more := [e] + more;
    }
  }

  lemma RetryIsAsked(s: Db, w: nat, i: nat)
    requires i < |s.pay.payouts| && Waits(s.pay.payouts[i]) && P.HoldOver(s.pay.payouts[i], s.now)
    requires var key := P.PayoutRequested(i);
             && key in s.pay.box.rows && (w, key) in s.pay.box.held && s.pay.box.held[(w, key)].phase == O.Threw
             && s.pay.box.held[(w, key)].attempt < O.MaxAttempts(s.cfg, s.pay.box.rows[key].topic)
    ensures IsAsked(Next(s, AckEvent(w, P.PayoutRequested(i))), i)
  {
    hide O.MaxAttempts, O.BackoffSeconds;
  }

  /** While the hold runs, a dispute that is opened and withdrawn has the payout asked for again. */
  lemma OnHoldIsPaid(s: Db, d: Deployment, i: nat) returns (more: seq<Step>)
    requires Reachable(H6_ONLY, s, d) && i < |s.pay.payouts| && Waits(s.pay.payouts[i])
    requires !P.HoldOver(s.pay.payouts[i], s.now)
    ensures Pays(s, more, i)
  {
    var org := BuyerOf(s, d, i);
    var dp := |s.pay.disputes|;
    var a, b := OpenDispute(org, OfPayout(i)), CancelDispute(org, dp);
    NoneOpen(s, d, i);
    assert Opens(s, a, i) by {
      assert forall k: nat :: k < dp && s.pay.disputes[k].payout == i ==> !P.OpenOn(s.pay, k, i);
    }
    DisputeOpensIff(s, d, org, OfPayout(i), i);
    var s1 := Next(s, a);
    assert Meets(H6_ONLY, s, a) && Meets(H6_ONLY, s1, b);
    ReachableStep(H6_ONLY, s, d, a);
    ReachableUnderLess(H6_ONLY, NO_HYPOTHESIS, s1, d);
    hide Next, Meets, Reachable, Opens, RunUnder, Run;
    assert Frees(s1, b, i);
    more := FreedIsPaid(s1, d, b, i, Rates(0, 100), false);
    RunUnderLess(ALL, H6_ONLY, s1, [b] + more);
    StepThenPaid(s, a, [b] + more, i);
    more := [a] + ([b] + more);
  }

  lemma BuyerOf(s: Db, d: Deployment, i: nat) returns (org: nat)
    requires Reachable(H6_ONLY, s, d) && i < |s.pay.payouts|
    ensures Owns(s, org, i)
  {
    ReachableUnderLess(H6_ONLY, NO_HYPOTHESIS, s, d);
    SplitsAddUp(s, d, i);
    org := s.ledger.bounties[s.pay.payouts[i].bounty].org;
  }

  /**
   A payout that is due and unblocked can still be paid exactly when its event was not
   dead-lettered, or a worker has the event in hand, not handled yet or failed and to be
   retried, or the hold still runs.
   */
  lemma CanBePaidIff(s: Db, d: Deployment, i: nat)
    requires Reachable(H6_ONLY, s, d) && i < |s.pay.payouts| && Waits(s.pay.payouts[i])
    ensures P.PayoutRequested(i) in s.pay.box.rows
    ensures (exists steps :: Pays(s, steps, i)) <==>
              || s.pay.box.rows[P.PayoutRequested(i)].status != O.Dead
              || InHand(s.pay.box, P.PayoutRequested(i), s.cfg)
              || !P.HoldOver(s.pay.payouts[i], s.now)
  {
    var key := P.PayoutRequested(i);
    PayoutRow(H6_ONLY, s, d, i);
    if InHand(s.pay.box, key, s.cfg) {
      var more := InHandIsPaid(s, d, i);
    } else if !P.HoldOver(s.pay.payouts[i], s.now) {
      var more := OnHoldIsPaid(s, d, i);
    } else if s.pay.box.rows[key].status != O.Dead {
      ReachableLocks(H6_ONLY, s, d);
      assert IsAsked(s, i);
      var more := AskedIsPaid(s, i);
    } else {
      IsStuck(s, d, i);
      hide Reachable, Stuck, Run, RunUnder;
      forall steps
        ensures !Pays(s, steps, i)
      {
        if Pays(s, steps, i) {
          StuckForGood(s, d, steps, i);
          StuckIsDue(Run(s, steps), i);
        }
      }
    }
  }

  lemma IsStuck(s: Db, d: Deployment, i: nat)
    requires Reachable(H6_ONLY, s, d) && i < |s.pay.payouts| && Waits(s.pay.payouts[i])
    requires P.HoldOver(s.pay.payouts[i], s.now) && P.PayoutRequested(i) in s.pay.box.rows
    requires s.pay.box.rows[P.PayoutRequested(i)].status == O.Dead
    requires !InHand(s.pay.box, P.PayoutRequested(i), s.cfg)
    ensures Stuck(s, i)
  {
    ReachablePay(H6_ONLY, s, d);
    hide Reachable, P.Valid, P.PayoutsOk, P.DisputesOk, P.IndexOk;
    var key := P.PayoutRequested(i);
    forall z | z in s.pay.box.held && z.1 == key
      ensures s.pay.box.held[z].phase == O.Threw
    {
      assert P.HeldOk(s.pay, z.1, s.pay.box.held[z], s.now);
      assert !Unsettled(s.pay.box.held[z], s.pay.box.rows[key].topic, s.cfg);
    }
  }

  lemma StuckIsDue(s: Db, i: nat)
    requires Stuck(s, i)
    ensures s.pay.payouts[i].status == P.Due
  {
  }
}
