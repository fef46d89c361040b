/**
 A pass on a submission that has a payout moves the hold of that payout, not its event.
 When exactly that can lose the payout: what makes the event come early is shown to lose
 it, and otherwise the payout is followed over every later run.
 */
module RailReclaim {
  import opened Common
  import opened FeeSplit
  import opened Rail
  import opened RailSteps
  import opened RailResults
  import opened RailLimits
  import F = RailFunds
  import O = Outbox
  import W = Work
  import P = Pay
  import L = Ledger

  /** The payout is due and nothing but its hold keeps it back. */
  predicate Waits(row: P.Payout) {
    row.status == P.Due && row.blocked == P.Unblocked
  }

  /** The payout waits, but its event counts as delivered. */
  predicate Lost(s: Db, i: nat) {
    && i < |s.pay.payouts| && Waits(s.pay.payouts[i])
    && P.PayoutRequested(i) in s.pay.box.rows && s.pay.box.rows[P.PayoutRequested(i)].status == O.Sent
  }

  // ----- what makes an event come early -----

  /** A worker may claim the event before the hold is over: it is pending, or its lock times out by then. */
  predicate ClaimableBefore(e: O.Event, hold: int, cfg: O.Config) {
    && e.availableAt < hold
    && match e.status
       case Pending => true
       case Processing => e.lock.Some? && e.lock.value.at + 1000 * cfg.lockTimeoutSec + 1 < hold
       case Sent => false
       case Dead => false
  }

  /** A worker has not handled the event yet, or failed and will have it retried. */
  predicate Unsettled(item: O.Item, topic: string, cfg: O.Config) {
    item.phase == O.Claimed || (item.phase == O.Threw && item.attempt < O.MaxAttempts(cfg, topic))
  }

  predicate InHand(box: O.Box<P.Key>, key: P.Key, cfg: O.Config)
    requires key in box.rows
  {
    exists x :: x in box.held && x.1 == key && Unsettled(box.held[x], box.rows[key].topic, cfg)
  }

  predicate MayComeEarly(s: Db, i: nat, hold: int)
    requires P.PayoutRequested(i) in s.pay.box.rows
  {
    var key := P.PayoutRequested(i);
    ClaimableBefore(s.pay.box.rows[key], hold, s.cfg) || InHand(s.pay.box, key, s.cfg)
  }

  // ----- a payout whose event cannot come early -----

  /** A claim of the event, now or once its lock times out, finds the hold over. */
  predicate NotEarly(row: P.Payout, e: O.Event, now: int, cfg: O.Config) {
    || P.HoldOver(row, now)
    || e.availableAt >= row.holdUntil.value
    || (e.status == O.Processing
        && (e.lock.Some? ==> e.lock.value.at + 1000 * cfg.lockTimeoutSec + 1 >= row.holdUntil.value))
  }

  /** Whoever has the event in hand does the payout no harm. */
  predicate Harmless(row: P.Payout, e: O.Event, item: O.Item, now: int, cfg: O.Config) {
    row.status == P.Due ==>
      match item.phase
      case Returned => false
      case Claimed => P.HoldOver(row, now) && row.blocked != P.ByDispute
      case Threw =>
        (P.HoldOver(row, now) && row.blocked != P.ByDispute) || item.attempt >= O.MaxAttempts(cfg, e.topic)
  }

  predicate RowAwaited(row: P.Payout, e: O.Event, now: int, cfg: O.Config) {
    row.status == P.Due ==>
      match row.blocked
      case Unblocked => e.status != O.Sent && (e.status in {O.Pending, O.Processing} ==> NotEarly(row, e, now, cfg))
      case ByDispute => e.status in {O.Sent, O.Dead}
      case ByRefund => false
  }

  /** Payout i of submission x is neither lost nor about to be. */
  ghost predicate Awaited(p: P.Tables, x: nat, i: nat, now: int, cfg: O.Config) {
    var key := P.PayoutRequested(i);
    && i < |p.payouts| && key in p.box.rows
    && x in p.bySubmission && p.bySubmission[x] == i
    && (forall y :: y in p.bySubmission && p.bySubmission[y] == i ==> y == x)
    && RowAwaited(p.payouts[i], p.box.rows[key], now, cfg)
    && (forall z :: z in p.box.held && z.1 == key ==> Harmless(p.payouts[i], p.box.rows[key], p.box.held[z], now, cfg))
  }

  // ----- what keeps the payout awaited -----

  lemma TickAwaits(p: P.Tables, x: nat, i: nat, now: int, now1: int, cfg: O.Config)
    requires Awaited(p, x, i, now, cfg) && now <= now1
    ensures Awaited(p, x, i, now1, cfg)
  {
  }

  lemma RequestAwaits(
    p: P.Tables, x: nat, i: nat, y: nat, b: nat, worker: nat, amount: nat, windowSec: int, rates: LegalRates, now: int,
    cfg: O.Config)
    requires Awaited(p, x, i, now, cfg) && y != x
    ensures Awaited(P.RequestPayout(p, y, b, worker, amount, windowSec, rates, now), x, i, now, cfg)
  {
  }

  lemma OpenAwaits(p: P.Tables, x: nat, i: nat, org: nat, k: nat, now: int, cfg: O.Config)
    requires Awaited(p, x, i, now, cfg) && k < |p.payouts| && P.DisputeRefused(p, k, now).None?
    ensures Awaited(P.OpenDispute(p, org, k, now), x, i, now, cfg)
  {
  }

  lemma FreeAwaits(p: P.Tables, x: nat, i: nat, d: nat, st: P.DisputeStatus, now: int, cfg: O.Config)
    requires Awaited(p, x, i, now, cfg) && d < |p.disputes| && p.disputes[d].payout < |p.payouts|
    ensures Awaited(P.Free(p, d, st, now), x, i, now, cfg)
  {
  }

  lemma RefundAwaits(p: P.Tables, x: nat, i: nat, d: nat, now: int, cfg: O.Config)
    requires Awaited(p, x, i, now, cfg) && d < |p.disputes| && p.disputes[d].payout < |p.payouts|
    ensures Awaited(P.Refund(p, d), x, i, now, cfg)
  {
  }

  lemma HandleAwaits(
    p: P.Tables, x: nat, i: nat, w: nat, k: nat, rates: Rates, walletSet: bool, answer: P.Provider, now: int,
    cfg: O.Config)
    requires Awaited(p, x, i, now, cfg)
    ensures Awaited(P.HandlePayout(p, w, k, rates, walletSet, answer, now), x, i, now, cfg)
  {
  }

  lemma FinishAwaits(p: P.Tables, x: nat, i: nat, w: nat, d: nat, phase: O.Phase, now: int, cfg: O.Config)
    requires Awaited(p, x, i, now, cfg)
    ensures Awaited(p.(box := O.Finish(p.box, w, P.AutoRefund(d), phase)), x, i, now, cfg)
  {
  }

  lemma ClaimAwaits(p: P.Tables, x: nat, i: nat, w: nat, topics: set<string>, batch: seq<P.Key>, now: int,
                    cfg: O.Config)
    requires Awaited(p, x, i, now, cfg)
    requires forall k :: k in batch ==> k in p.box.rows && O.Eligible(O.Released(p.box.rows[k], now, cfg), topics, now)
    ensures Awaited(P.ClaimEvents(p, w, batch, now, cfg), x, i, now, cfg)
  {
    var key, p1 := P.PayoutRequested(i), P.ClaimEvents(p, w, batch, now, cfg);
    assert Waits(p.payouts[i]) && O.Stale(p.box.rows[key], now, cfg) ==>
             P.HoldOver(p.payouts[i], now) || p.box.rows[key].availableAt >= p.payouts[i].holdUntil.value;
    forall z | z in p1.box.held && z.1 == key
      ensures Harmless(p1.payouts[i], p1.box.rows[key], p1.box.held[z], now, cfg)
    {
      if !(z.0 == w && key in batch) {
        assert z in p.box.held && p1.box.held[z] == p.box.held[z];
      }
    }
  }

  lemma AckAwaits(p: P.Tables, x: nat, i: nat, w: nat, key: P.Key, now: int, cfg: O.Config)
    requires Awaited(p, x, i, now, cfg)
    ensures Awaited(P.AckEvent(p, w, key, now, cfg), x, i, now, cfg)
  {
    if P.AckEvent(p, w, key, now, cfg) != p && key == P.PayoutRequested(i) {
      assert (w, key) in p.box.held && Harmless(p.payouts[i], p.box.rows[key], p.box.held[(w, key)], now, cfg);
    }
  }

  lemma CrashAwaits(p: P.Tables, x: nat, i: nat, w: nat, now: int, cfg: O.Config)
    requires Awaited(p, x, i, now, cfg)
    ensures Awaited(p.(box := O.Crash(p.box, w)), x, i, now, cfg)
  {
  }

  // ----- steps and runs -----

  ghost predicate Waiting(s: Db, x: nat, i: nat) {
    Awaited(s.pay, x, i, s.now, s.cfg)
  }

  /** H6 keeps passes off the submission: it has its payout. */
  lemma VerdictWaits(s: Db, x: nat, i: nat, e: Step)
    requires Waiting(s, x, i) && e.GiveVerdict? && PassIsFirst(s, e)
    ensures Waiting(Next(s, e), x, i)
  {
    hide Next, W.TakeVerdict, P.RequestPayout, RowAwaited, Harmless;
    OnlyTicksTakeTime(s, e);
    if Next(s, e).pay != s.pay {
      VerdictPay(s, e);
      PassStep(s, e);
      var y := e.submission;
      var b := s.work.jobs[s.work.submissions[y].job].bounty;
      assert y != x;
      hide Awaited;
      RequestAwaits(s.pay, x, i, y, b, s.work.submissions[y].worker, s.ledger.bounties[b].payoutCents,
                    s.ledger.bounties[b].windowSec, e.rates, s.now, s.cfg);
    }
  }

  lemma ResolveWaits(s: Db, x: nat, i: nat, d: nat, r: P.Resolution)
    requires Waiting(s, x, i) && DoResolve(s, d, r).Ok?
    ensures Waiting(DoResolve(s, d, r).value, x, i)
  {
    hide Awaited, P.Free, P.Refund, L.Credit;
    var p, row := s.pay, s.pay.disputes[d];
    if p.payouts[row.payout].status != P.Refunded {
      if r == P.ToRefund {
        RefundAwaits(p, x, i, d, s.now, s.cfg);
      } else {
        FreeAwaits(p, x, i, d, P.Resolved, s.now, s.cfg);
      }
    }
  }

  lemma HandleRefundWaits(s: Db, x: nat, i: nat, w: nat, d: nat, dbOk: bool)
    requires Waiting(s, x, i)
    ensures Waiting(DoHandleRefund(s, w, d, dbOk), x, i)
  {
    hide Awaited, DoResolve;
    var r := DoResolve(s, d, P.ToRefund);
    if r.Ok? {
      ResolveWaits(s, x, i, d, P.ToRefund);
      ResolveKeepsRest(s, d, P.ToRefund);
      FinishAwaits(r.value.pay, x, i, w, d, O.Returned, s.now, s.cfg);
    }
    FinishAwaits(s.pay, x, i, w, d, O.Returned, s.now, s.cfg);
    FinishAwaits(s.pay, x, i, w, d, O.Threw, s.now, s.cfg);
  }

  lemma PayStepWaits(s: Db, e: Step, x: nat, i: nat)
    requires Waiting(s, x, i)
    requires e.OpenDispute? || e.CancelDispute? || e.ResolveDispute? || e.ClaimEvents? || e.HandlePayout?
             || e.HandleRefund? || e.AckEvent? || e.Crash?
    ensures Waiting(Next(s, e), x, i)
  {
    hide Awaited, DoResolve, DoHandleRefund, ResolveTarget, P.OpenDispute, P.Free, P.ClaimEvents, P.HandlePayout,
         P.AckEvent, O.Crash, P.DisputeRefused, MayClaim;
    match e
    case OpenDispute(org, target) =>
      if DoOpenDispute(s, org, target).Ok? {
        OpenStep(s, org, target);
        OpenAwaits(s.pay, x, i, org, ResolveTarget(s, org, target).value, s.now, s.cfg);
      }
    case CancelDispute(org, d) =>
      if P.CancelDispute(s.pay, org, d, s.now).Ok? {
        FreeAwaits(s.pay, x, i, d, P.Cancelled, s.now, s.cfg);
      }
    case ResolveDispute(d, r) =>
      if DoResolve(s, d, r).Ok? {
        ResolveWaits(s, x, i, d, r);
        ResolveKeepsRest(s, d, r);
      }
    case ClaimEvents(w, topics, limit, batch) =>
      if MayClaim(s, w, topics, limit, batch) {
        BatchIsEligible(s, w, topics, limit, batch);
        ClaimAwaits(s.pay, x, i, w, topics, batch, s.now, s.cfg);
      }
    case HandlePayout(w, k, rates, walletSet, answer) =>
      HandleAwaits(s.pay, x, i, w, k, rates, walletSet, answer, s.now, s.cfg);
    case HandleRefund(w, d, dbOk) => HandleRefundWaits(s, x, i, w, d, dbOk);
    case AckEvent(w, key) => AckAwaits(s.pay, x, i, w, key, s.now, s.cfg);
    case Crash(w) => CrashAwaits(s.pay, x, i, w, s.now, s.cfg);
  }

  lemma StepWaits(s: Db, e: Step, x: nat, i: nat)
    requires Waiting(s, x, i) && PassIsFirst(s, e)
    ensures Waiting(Next(s, e), x, i)
  {
    hide Awaited, Next, PassIsFirst;
    OnlyTicksTakeTime(s, e);
    if e.GiveVerdict? {
      VerdictWaits(s, x, i, e);
    } else if IsPayStep(e) {
      PayStepWaits(s, e, x, i);
    } else {
      OthersKeepPay(s, e);
      TickAwaits(s.pay, x, i, s.now, Next(s, e).now, s.cfg);
    }
  }

  /** A payout that is waiting is not lost on any later run. */
  lemma {:induction false} RunWaits(s: Db, steps: seq<Step>, x: nat, i: nat)
    requires Waiting(s, x, i) && RunUnder(H6_ONLY, s, steps)
    ensures Waiting(Run(s, steps), x, i) && !Lost(Run(s, steps), i)
    decreases |steps|
  {
    if steps == [] {
      WaitingIsNotLost(s, x, i);
    } else {
      hide Waiting, Next, PassIsFirst, Lost;
      StepWaits(s, steps[0], x, i);
      RunWaits(Next(s, steps[0]), steps[1..], x, i);
    }
  }

  lemma WaitingIsNotLost(s: Db, x: nat, i: nat)
    requires Waiting(s, x, i)
    ensures !Lost(s, i)
  {
  }

  // ----- the second pass -----

  /** The row of the payout after the second pass: its split and its hold are new. */
  predicate Reheld(s: Db, s2: Db, i: nat, hold: Option<int>) {
    && i < |s.pay.payouts| == |s2.pay.payouts|
    && s2 == s.(work := s2.work, pay := s.pay.(payouts := s.pay.payouts[i := s2.pay.payouts[i]]))
    && s2.pay.payouts[i] == s.pay.payouts[i].(split := s2.pay.payouts[i].split, holdUntil := hold)
  }

  lemma SecondPass(s: Db, e: Step)
    requires Taken(s, e) && e.verdict == W.Pass && BountyOf(s, e) < |s.ledger.bounties|
    requires e.submission in s.pay.bySubmission && s.pay.bySubmission[e.submission] < |s.pay.payouts|
    requires P.PayoutRequested(s.pay.bySubmission[e.submission]) in s.pay.box.rows
    ensures var i := s.pay.bySubmission[e.submission];
            var window := s.ledger.bounties[BountyOf(s, e)].windowSec;
            Reheld(s, Next(s, e), i,
                   if e.rates.Valid() then P.HoldUntil(window, s.now) else s.pay.payouts[i].holdUntil)
  {
    hide Next, W.TakeVerdict, W.VerdictRefused, P.RequestPayout;
    TakenStep(s, e);
    if PassIsPaid(s, e) {
      PassStep(s, e);
      var b := BountyOf(s, e);
      SecondRequest(s.pay, e.submission, b, s.ledger.bounties[b], s.work.submissions[e.submission].worker, e.rates,
                    s.now);
    } else {
      UnpaidStep(s, e);
    }
  }

  lemma SecondRequest(p: P.Tables, x: nat, b: nat, row: L.Bounty, worker: nat, rates: LegalRates, now: int)
    requires x in p.bySubmission && p.bySubmission[x] < |p.payouts|
    requires P.PayoutRequested(p.bySubmission[x]) in p.box.rows
    ensures var i := p.bySubmission[x];
            var p1 := P.RequestPayout(p, x, b, worker, row.payoutCents, row.windowSec, rates, now);
            && |p1.payouts| == |p.payouts| && p1 == p.(payouts := p.payouts[i := p1.payouts[i]])
            && p1.payouts[i]
               == p.payouts[i].(split := p1.payouts[i].split, holdUntil := P.HoldUntil(row.windowSec, now))
  {
  }

  /** A payout that is settled or blocked, or whose event cannot come early, goes on waiting. */
  lemma StillWaiting(s: Db, d: Deployment, x: nat, s2: Db, hold: Option<int>)
    requires Reachable(H6_ONLY, s, d) && x in s.pay.bySubmission && s.pay.bySubmission[x] < |s.pay.payouts|
    requires var i := s.pay.bySubmission[x];
             && P.PayoutRequested(i) in s.pay.box.rows && Reheld(s, s2, i, hold)
             && (Waits(s.pay.payouts[i]) ==>
                   hold == s.pay.payouts[i].holdUntil || hold.None? || !MayComeEarly(s, i, hold.value))
    ensures Waiting(s2, x, s.pay.bySubmission[x])
  {
    var i := s.pay.bySubmission[x];
    ReachablePay(H6_ONLY, s, d);
    PayoutRow(H6_ONLY, s, d, i);
    OnlySubmission(s.pay);
    hide Reachable, P.Valid, P.HeldOk, P.PayoutOk, P.PayoutsOk, P.DisputesOk;
    StillAwaited(s.pay, s2.pay, x, i, hold, s.now, s.cfg);
  }

  lemma OnlySubmission(p: P.Tables)
    requires P.IndexOk(p)
    ensures forall x, y :: x in p.bySubmission && y in p.bySubmission && p.bySubmission[y] == p.bySubmission[x] ==>
              y == x
  {
  }

  lemma StillAwaited(p: P.Tables, p2: P.Tables, x: nat, i: nat, hold: Option<int>, now: int, cfg: O.Config)
    requires i < |p.payouts| == |p2.payouts| && p2 == p.(payouts := p2.payouts)
    requires p2.payouts[i] == p.payouts[i].(split := p2.payouts[i].split, holdUntil := hold)
    requires x in p.bySubmission && p.bySubmission[x] == i
    requires forall y :: y in p.bySubmission && p.bySubmission[y] == i ==> y == x
    requires P.PayoutRequested(i) in p.box.rows
    requires P.PayoutOk(p.payouts[i], p.box.rows[P.PayoutRequested(i)], now) && P.AllHeldOk(p, now)
    requires var key := P.PayoutRequested(i);
             Waits(p.payouts[i]) ==>
             || hold == p.payouts[i].holdUntil || hold.None?
             || (!ClaimableBefore(p.box.rows[key], hold.value, cfg) && !InHand(p.box, key, cfg))
    ensures Awaited(p2, x, i, now, cfg)
  {
    var key := P.PayoutRequested(i);
    forall z | z in p2.box.held && z.1 == key
      ensures Harmless(p2.payouts[i], p2.box.rows[key], p2.box.held[z], now, cfg)
    {
      assert P.HeldOk(p, z.1, p.box.held[z], now);
    }
  }

  // ----- how a payout whose event comes early is lost -----

  /** The payout is due and unblocked, and its hold is still on. */
  predicate OnHold(s: Db, i: nat) {
    && i < |s.pay.payouts| && Waits(s.pay.payouts[i])
    && s.pay.payouts[i].holdUntil.Some? && s.pay.payouts[i].holdUntil.value > s.now
    && P.PayoutRequested(i) in s.pay.box.rows
  }

  /** What a worker makes of an event that comes before the hold is over: it is done, and nothing happened. */
  lemma HandledEarlyIsLost(s: Db, i: nat, w: nat) returns (more: seq<Step>)
    requires OnHold(s, i) && P.MayHandle(s.pay, w, P.PayoutRequested(i))
    ensures RunUnder(ALL, s, more) && Lost(Run(s, more), i)
  {
    var key := P.PayoutRequested(i);
    var a, b := HandlePayout(w, i, Rates(0, 100), true, P.SaysPaid), AckEvent(w, key);
    var s1 := Next(s, a);
    var s2 := Next(s1, b);
    HandleSwallows(s, i, w);
    assert Meets(ALL, s, a) && Meets(ALL, s1, b);
    hide Next, Meets, Lost;
    OneStep(ALL, s1, b);
    StepFirst(ALL, s, a, [b]);
    more := [a] + [b];
  }

  lemma HandleSwallows(s: Db, i: nat, w: nat)
    requires OnHold(s, i) && P.MayHandle(s.pay, w, P.PayoutRequested(i))
    ensures Lost(Next(Next(s, HandlePayout(w, i, Rates(0, 100), true, P.SaysPaid)),
                      AckEvent(w, P.PayoutRequested(i))), i)
  {
  }

  /** An event that may be claimed before the hold is over is claimed then, and lost. */
  lemma ClaimedEarlyIsLost(s: Db, i: nat) returns (more: seq<Step>)
    requires OnHold(s, i)
    requires ClaimableBefore(s.pay.box.rows[P.PayoutRequested(i)], s.pay.payouts[i].holdUntil.value, s.cfg)
    ensures RunUnder(ALL, s, more) && Lost(Run(s, more), i)
  {
    var e := s.pay.box.rows[P.PayoutRequested(i)];
    var t := Max(s.now, if e.status == O.Pending then e.availableAt
                        else Max(e.availableAt, e.lock.value.at + 1000 * s.cfg.lockTimeoutSec + 1));
    var a, b := Crash(0), Tick(t - s.now);
    var s1 := Next(s, a);
    var s2 := Next(s1, b);
    assert s2 == s.(now := t, pay := s2.pay) && s2.pay.payouts == s.pay.payouts && s2.pay.box.rows == s.pay.box.rows;
    assert OnHold(s2, i) && O.Idle(s2.pay.box, 0);
    assert O.Eligible(O.Released(e, t, s.cfg), {e.topic}, t);
    assert Meets(ALL, s, a) && Meets(ALL, s1, b);
    hide Next, Meets, Lost, OnHold, O.Idle, O.Eligible;
    more := ClaimedNowIsLost(s2, i);
    StepFirst(ALL, s1, b, more);
    StepFirst(ALL, s, a, [b] + more);
    more := [a] + ([b] + more);
  }

  lemma ClaimedNowIsLost(s: Db, i: nat) returns (more: seq<Step>)
    requires OnHold(s, i) && O.Idle(s.pay.box, 0)
    requires var e := s.pay.box.rows[P.PayoutRequested(i)]; O.Eligible(O.Released(e, s.now, s.cfg), {e.topic}, s.now)
    ensures RunUnder(ALL, s, more) && Lost(Run(s, more), i)
  {
    var a := IdleClaims(s, P.PayoutRequested(i));
    var s1 := Next(s, a);
    assert OnHold(s1, i) && Meets(ALL, s, a);
    hide Next, Meets, Lost, OnHold;
    more := HandledEarlyIsLost(s1, i, 0);
    StepFirst(ALL, s, a, more);
    more := [a] + more;
  }

  /** The payout is due but disputed, and yet its event is pending and available. */
  predicate AskedInDispute(s: Db, i: nat, dp: nat) {
    && i < |s.pay.payouts| && s.pay.payouts[i].status == P.Due && s.pay.payouts[i].blocked == P.ByDispute
    && P.IsOpen(s.pay, dp) && s.pay.disputes[dp].payout == i
    && P.PayoutRequested(i) in s.pay.box.rows
    && s.pay.box.rows[P.PayoutRequested(i)].status == O.Pending
    && s.pay.box.rows[P.PayoutRequested(i)].availableAt <= s.now
  }

  /** Runner 0 finds the payout blocked; before it reports so, the dispute is withdrawn. */
  lemma WithdrawnTooLate(s: Db, i: nat, dp: nat) returns (more: seq<Step>)
    requires AskedInDispute(s, i, dp)
    ensures RunUnder(ALL, s, more) && Lost(Run(s, more), i)
  {
    var key := P.PayoutRequested(i);
    var a, c := Crash(0), HandlePayout(0, i, Rates(0, 100), true, P.SaysPaid);
    var s1 := Next(s, a);
    assert AskedInDispute(s1, i, dp) && O.Idle(s1.pay.box, 0) && s1.pay.box.rows == s.pay.box.rows;
    var b := IdleClaims(s1, key);
    var s2 := Next(s1, b);
    var s3 := Next(s2, c);
    BlockedReturns(s2, i, dp);
    assert Meets(ALL, s, a) && Meets(ALL, s1, b) && Meets(ALL, s2, c);
    hide Next, Meets, AskedInDispute, Lost;
    more := WithdrawThenReport(s3, i, dp);
    StepFirst(ALL, s2, c, more);
    StepFirst(ALL, s1, b, [c] + more);
    StepFirst(ALL, s, a, [b] + ([c] + more));
    more := [a] + ([b] + ([c] + more));
  }

  /** Runner 0 is done with the event of a payout that is due and disputed. */
  predicate DoneInDispute(s: Db, i: nat, dp: nat) {
    && i < |s.pay.payouts| && s.pay.payouts[i].status == P.Due
    && P.IsOpen(s.pay, dp) && s.pay.disputes[dp].payout == i
    && P.PayoutRequested(i) in s.pay.box.rows
    && (0, P.PayoutRequested(i)) in s.pay.box.held && s.pay.box.held[(0, P.PayoutRequested(i))].phase == O.Returned
  }

  lemma BlockedReturns(s: Db, i: nat, dp: nat)
    requires i < |s.pay.payouts| && s.pay.payouts[i].status == P.Due && s.pay.payouts[i].blocked == P.ByDispute
    requires P.IsOpen(s.pay, dp) && s.pay.disputes[dp].payout == i
    requires P.PayoutRequested(i) in s.pay.box.rows && P.MayHandle(s.pay, 0, P.PayoutRequested(i))
    ensures DoneInDispute(Next(s, HandlePayout(0, i, Rates(0, 100), true, P.SaysPaid)), i, dp)
  {
  }

  lemma WithdrawThenReport(s: Db, i: nat, dp: nat) returns (more: seq<Step>)
    requires DoneInDispute(s, i, dp)
    ensures RunUnder(ALL, s, more) && Lost(Run(s, more), i)
  {
    var a, b := CancelDispute(s.pay.disputes[dp].org, dp), AckEvent(0, P.PayoutRequested(i));
    var s1 := Next(s, a);
    CancelStep(s, s.pay.disputes[dp].org, dp);
    FreedAndReported(s.pay, i, dp, s.now, s.cfg);
    AckStep(s1, 0, P.PayoutRequested(i));
    assert Lost(Next(s1, b), i);
    assert Meets(ALL, s, a) && Meets(ALL, s1, b);
    hide Next, Meets, Lost;
    OneStep(ALL, s1, b);
    StepFirst(ALL, s, a, [b]);
    more := [a] + [b];
  }

  lemma FreedAndReported(p: P.Tables, i: nat, dp: nat, now: int, cfg: O.Config)
    requires i < |p.payouts| && p.payouts[i].status == P.Due && P.IsOpen(p, dp) && p.disputes[dp].payout == i
    requires var key := P.PayoutRequested(i);
             key in p.box.rows && (0, key) in p.box.held && p.box.held[(0, key)].phase == O.Returned
    ensures var r := P.CancelDispute(p, p.disputes[dp].org, dp, now);
            && r.Ok?
            && var p2 := P.AckEvent(r.value, 0, P.PayoutRequested(i), now, cfg);
               && i < |p2.payouts| && p2.payouts[i].status == P.Due && p2.payouts[i].blocked == P.Unblocked
               && P.PayoutRequested(i) in p2.box.rows && p2.box.rows[P.PayoutRequested(i)].status == O.Sent
  {
  }

  lemma RetriedInDispute(s: Db, i: nat, w: nat)
    requires OnHold(s, i) && !P.HasOpenDispute(s.pay, i) && s.pay.payouts[i].bounty < |s.ledger.bounties|
    requires var key := P.PayoutRequested(i);
             && (w, key) in s.pay.box.held && s.pay.box.held[(w, key)].phase == O.Threw
             && s.pay.box.held[(w, key)].attempt < O.MaxAttempts(s.cfg, s.pay.box.rows[key].topic)
    ensures var key, org := P.PayoutRequested(i), s.ledger.bounties[s.pay.payouts[i].bounty].org;
            var a, b := OpenDispute(org, OfPayout(i)), AckEvent(w, key);
            var c := Tick(1000 * O.BackoffSeconds(s.pay.box.held[(w, key)].attempt));
            var s1 := Next(s, a);
            var s2 := Next(s1, b);
            && Meets(ALL, s, a) && Meets(ALL, s1, b) && Meets(ALL, s2, c)
            && AskedInDispute(Next(s2, c), i, |s.pay.disputes|)
  {
    var key, org := P.PayoutRequested(i), s.ledger.bounties[s.pay.payouts[i].bounty].org;
    assert ResolveTarget(s, org, OfPayout(i)) == Ok(i) && P.DisputeRefused(s.pay, i, s.now).None?;
    OpenStep(s, org, OfPayout(i));
    var s1 := Next(s, OpenDispute(org, OfPayout(i)));
    AckStep(s1, w, key);
    DisputedThenRetried(s.pay, org, i, w, s.now, s.cfg);
    TickStep(Next(s1, AckEvent(w, key)), 1000 * O.BackoffSeconds(s.pay.box.held[(w, key)].attempt));
    hide Next, O.BackoffSeconds, P.OpenDispute, P.AckEvent, O.MaxAttempts;
  }

  /**
   A worker whose handler threw reports late: the buyer disputes the payout meanwhile,
   and the report puts the event back although the payout is disputed.
   */
  lemma RetriedInDisputeIsLost(s: Db, i: nat, w: nat) returns (more: seq<Step>)
    requires OnHold(s, i) && !P.HasOpenDispute(s.pay, i) && s.pay.payouts[i].bounty < |s.ledger.bounties|
    requires var key := P.PayoutRequested(i);
             && (w, key) in s.pay.box.held && s.pay.box.held[(w, key)].phase == O.Threw
             && s.pay.box.held[(w, key)].attempt < O.MaxAttempts(s.cfg, s.pay.box.rows[key].topic)
    ensures RunUnder(ALL, s, more) && Lost(Run(s, more), i)
  {
    var key, dp := P.PayoutRequested(i), |s.pay.disputes|;
    var org := s.ledger.bounties[s.pay.payouts[i].bounty].org;
    var delay := 1000 * O.BackoffSeconds(s.pay.box.held[(w, key)].attempt);
    var a, b, c := OpenDispute(org, OfPayout(i)), AckEvent(w, key), Tick(delay);
    RetriedInDispute(s, i, w);
    var s1 := Next(s, a);
    var s2 := Next(s1, b);
    var s3 := Next(s2, c);
    hide Next, Meets, Lost, AskedInDispute, O.BackoffSeconds, O.MaxAttempts;
    more := WithdrawnTooLate(s3, i, dp);
    StepFirst(ALL, s2, c, more);
    StepFirst(ALL, s1, b, [c] + more);
    StepFirst(ALL, s, a, [b] + ([c] + more));
    more := [a] + ([b] + ([c] + more));
  }

  lemma DisputedThenRetried(p: P.Tables, org: nat, i: nat, w: nat, now: int, cfg: O.Config)
    requires i < |p.payouts| && p.payouts[i].status == P.Due && p.payouts[i].holdUntil.Some?
    requires var key := P.PayoutRequested(i);
             && key in p.box.rows && (w, key) in p.box.held && p.box.held[(w, key)].phase == O.Threw
             && p.box.held[(w, key)].attempt < O.MaxAttempts(cfg, p.box.rows[key].topic)
    ensures var key, dp := P.PayoutRequested(i), |p.disputes|;
            var p2 := P.AckEvent(P.OpenDispute(p, org, i, now), w, key, now, cfg);
            && i < |p2.payouts| && p2.payouts[i].status == P.Due && p2.payouts[i].blocked == P.ByDispute
            && P.IsOpen(p2, dp) && p2.disputes[dp].payout == i
            && key in p2.box.rows && p2.box.rows[key].status == O.Pending
            && p2.box.rows[key].availableAt == now + 1000 * O.BackoffSeconds(p.box.held[(w, key)].attempt)
  {
    hide O.MaxAttempts, O.BackoffSeconds;
  }

  // ----- when exactly -----

  /**
   After a pass on a submission that has a payout, a run that meets H6 can lose the payout
   if and only if it is due and unblocked, the pass holds it anew, and its event may come
   before the new hold is over.
   */
  lemma PassLosesPayoutIff(s: Db, d: Deployment, e: Step)
    requires Reachable(H6_ONLY, s, d) && Taken(s, e) && e.verdict == W.Pass && e.submission in s.pay.bySubmission
    ensures var i := s.pay.bySubmission[e.submission];
            && i < |s.pay.payouts| && P.PayoutRequested(i) in s.pay.box.rows
            && BountyOf(s, e) < |s.ledger.bounties|
            && var window := s.ledger.bounties[BountyOf(s, e)].windowSec;
               (exists more :: RunUnder(H6_ONLY, Next(s, e), more) && Lost(Run(Next(s, e), more), i))
               <==> Waits(s.pay.payouts[i]) && e.rates.Valid() && window > 0
                    && MayComeEarly(s, i, s.now + 1000 * window)
  {
    hide Next, Reachable, Run, RunUnder, MayComeEarly, Lost, Taken, F.Owned;
    TakenStep(s, e);
    var i, s2 := s.pay.bySubmission[e.submission], Next(s, e);
    ReachableUnderLess(H6_ONLY, NO_HYPOTHESIS, s, d);
    BountyIsThere(s, d, e);
    IndexedPayout(s, d, e.submission);
    PayoutRow(H6_ONLY, s, d, i);
    SecondPass(s, e);
    var window := s.ledger.bounties[BountyOf(s, e)].windowSec;
    if Waits(s.pay.payouts[i]) && e.rates.Valid() && window > 0 && MayComeEarly(s, i, s.now + 1000 * window) {
      var more := LostWhenEarly(s, d, i, s2, s.now + 1000 * window);
      RunUnderLess(ALL, H6_ONLY, s2, more);
    } else {
      StillWaiting(s, d, e.submission, s2,
                   if e.rates.Valid() then P.HoldUntil(window, s.now) else s.pay.payouts[i].holdUntil);
      forall more | RunUnder(H6_ONLY, s2, more)
        ensures !Lost(Run(s2, more), i)
      {
        RunWaits(s2, more, e.submission, i);
      }
    }
  }

  lemma IndexedPayout(s: Db, d: Deployment, x: nat)
    requires Reachable(H6_ONLY, s, d) && x in s.pay.bySubmission
    ensures s.pay.bySubmission[x] < |s.pay.payouts|
  {
    ReachablePay(H6_ONLY, s, d);
    hide P.Valid, P.PayoutsOk, P.DisputesOk, P.AllHeldOk;
  }

  lemma LostWhenEarly(s: Db, d: Deployment, i: nat, s2: Db, hold: int) returns (more: seq<Step>)
    requires Reachable(H6_ONLY, s, d) && i < |s.pay.payouts| && P.PayoutRequested(i) in s.pay.box.rows
    requires Waits(s.pay.payouts[i])
    requires Reheld(s, s2, i, Some(hold)) && hold > s.now && MayComeEarly(s, i, hold)
    ensures RunUnder(ALL, s2, more) && Lost(Run(s2, more), i)
  {
    var key := P.PayoutRequested(i);
    assert OnHold(s2, i);
    if ClaimableBefore(s.pay.box.rows[key], hold, s.cfg) {
      more := ClaimedEarlyIsLost(s2, i);
    } else {
      var z :| z in s.pay.box.held && z.1 == key && Unsettled(s.pay.box.held[z], s.pay.box.rows[key].topic, s.cfg);
      if s.pay.box.held[z].phase == O.Claimed {
        more := HandledEarlyIsLost(s2, i, z.0);
      } else {
        Undisputed(s, d, i);
        PayoutHasBounty(s, d, i);
        SameDisputes(s.pay, s2.pay, i);
        more := RetriedInDisputeIsLost(s2, i, z.0);
      }
    }
  }

  lemma PayoutHasBounty(s: Db, d: Deployment, i: nat)
    requires Reachable(H6_ONLY, s, d) && i < |s.pay.payouts|
    ensures s.pay.payouts[i].bounty < |s.ledger.bounties|
  {
    F.ReachableHasFunds(H6_ONLY, s, d);
    hide Reachable, L.Valid;
    assert F.PayoutOwned(s, s.pay.payouts[i]);
  }

  lemma Undisputed(s: Db, d: Deployment, i: nat)
    requires Reachable(H6_ONLY, s, d) && i < |s.pay.payouts| && s.pay.payouts[i].blocked == P.Unblocked
    ensures !P.HasOpenDispute(s.pay, i)
  {
    ReachablePay(H6_ONLY, s, d);
    hide Reachable, P.Valid, P.PayoutsOk, P.IndexOk, P.AllHeldOk;
    forall dp | 0 <= dp < |s.pay.disputes|
      ensures !P.OpenOn(s.pay, dp, i)
    {
      assert P.DisputeOk(s.pay, dp);
    }
  }

  lemma SameDisputes(p: P.Tables, p2: P.Tables, i: nat)
    requires p2.disputes == p.disputes && !P.HasOpenDispute(p, i)
    ensures !P.HasOpenDispute(p2, i)
  {
    P.SameOpen(p, p2);
  }
}
