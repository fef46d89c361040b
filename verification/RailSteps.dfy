/**
 What the steps leave alone: which tables a step writes, and what a verdict comes to when
 it is refused, taken, or a pass that asks for a payout.
 */
module RailSteps {
  import opened Common
  import opened Rail
  import O = Outbox
  import W = Work
  import P = Pay
  import L = Ledger

  // ----- which tables -----

  predicate IsWorkStep(e: Step) {
    e.ClaimJob? || e.ReleaseJob? || e.Reap? || e.Submit? || e.VerifierClaim? || e.GiveVerdict? || e.Publish?
  }

  lemma OthersKeepWork(s: Db, e: Step)
    requires !IsWorkStep(e)
    ensures Next(s, e).work == s.work
  {
    hide P.OpenDispute, P.ResolveDispute, L.Credit, L.Close, L.StripeWebhook, L.TopUp, P.CancelDispute,
         P.HandlePayout, P.AckEvent, P.ClaimEvents, MayClaim;
  }

  predicate IsPayStep(e: Step) {
    e.GiveVerdict? || e.OpenDispute? || e.CancelDispute? || e.ResolveDispute? || e.ClaimEvents? || e.HandlePayout?
    || e.HandleRefund? || e.AckEvent? || e.Crash?
  }

  lemma OthersKeepPay(s: Db, e: Step)
    requires !IsPayStep(e)
    ensures Next(s, e).pay == s.pay
  {
    hide L.Publish, L.Close, L.StripeWebhook, L.TopUp, W.ClaimJob, W.ReleaseJob, W.Reap, W.Submit, W.VerifierClaim;
  }

  lemma OthersKeepLedger(s: Db, e: Step)
    requires e.GiveVerdict? || e.OpenDispute?
    ensures Next(s, e).ledger == s.ledger
  {
    hide W.GiveVerdict, P.RequestPayout, P.OpenDispute;
  }

  lemma OnlyTicksTakeTime(s: Db, e: Step)
    ensures s.now <= Next(s, e).now && Next(s, e).cfg == s.cfg
    ensures Next(s, e).now == if e.Tick? then s.now + e.ms else s.now
  {
    hide W.GiveVerdict, P.RequestPayout, P.OpenDispute, P.ResolveDispute, L.Publish, L.Close, L.Credit;
  }

  lemma ResolveKeepsRest(s: Db, d: nat, r: P.Resolution)
    requires DoResolve(s, d, r).Ok?
    ensures var s1 := DoResolve(s, d, r).value;
            && s1.now == s.now && s1.cfg == s.cfg && s1.work == s.work
            && s1.pay.bySubmission == s.pay.bySubmission && s1.pay.box.held == s.pay.box.held
  {
    hide L.Credit;
  }

  /** Only a pass adds to the index of payouts. */
  lemma OthersKeepIndex(s: Db, e: Step)
    requires !e.GiveVerdict?
    ensures Next(s, e).pay.bySubmission == s.pay.bySubmission
  {
    if e.ResolveDispute? && DoResolve(s, e.dispute, e.resolution).Ok? {
      ResolveKeepsRest(s, e.dispute, e.resolution);
    } else if e.HandleRefund? && DoResolve(s, e.dispute, P.ToRefund).Ok? {
      ResolveKeepsRest(s, e.dispute, P.ToRefund);
    } else if !IsPayStep(e) {
      OthersKeepPay(s, e);
    }
    hide DoResolve, DoPublish, DoClose, L.TopUp, ResolveTarget, MayClaim;
  }

  // ----- single steps -----

  lemma TickStep(s: Db, ms: nat)
    ensures Next(s, Tick(ms)) == s.(now := s.now + ms)
  {
  }

  lemma PublishIs(s: Db, b: nat)
    ensures Next(s, Publish(b)) == if DoPublish(s, b).Ok? then DoPublish(s, b).value else s
  {
    hide DoPublish;
  }

  lemma CloseIs(s: Db, b: nat)
    ensures Next(s, Close(b)) == DoClose(s, b) && (b >= |s.ledger.bounties| ==> DoClose(s, b) == s)
  {
    hide Committed;
  }

  lemma CreateIs(s: Db, row: L.Bounty)
    ensures Next(s, CreateBounty(row)) == s.(ledger := L.CreateBounty(s.ledger, row))
  {
  }

  lemma OpenStep(s: Db, org: nat, target: Target)
    requires DoOpenDispute(s, org, target).Ok?
    ensures var i := ResolveTarget(s, org, target).value;
            && i < |s.pay.payouts| && P.DisputeRefused(s.pay, i, s.now).None? && s.pay.payouts[i].holdUntil.Some?
            && Next(s, OpenDispute(org, target)) == s.(pay := P.OpenDispute(s.pay, org, i, s.now))
  {
    NotRefused(s.pay, ResolveTarget(s, org, target).value, s.now);
    hide ResolveTarget, P.OpenDispute;
  }

  lemma NotRefused(p: P.Tables, i: nat, now: int)
    requires i < |p.payouts| && P.DisputeRefused(p, i, now).None?
    ensures p.payouts[i].holdUntil.Some? && p.payouts[i].holdUntil.value > now && p.payouts[i].status != P.Paid
  {
  }

  lemma CancelStep(s: Db, org: nat, dp: nat)
    ensures var r := P.CancelDispute(s.pay, org, dp, s.now);
            Next(s, CancelDispute(org, dp)) == if r.Ok? then s.(pay := r.value) else s
  {
    hide P.CancelDispute;
  }

  lemma AckStep(s: Db, w: nat, key: P.Key)
    ensures Next(s, AckEvent(w, key)) == s.(pay := P.AckEvent(s.pay, w, key, s.now, s.cfg))
  {
    hide P.AckEvent;
  }

  /** A worker that has nothing in hand may claim an event, with whatever else is eligible. */
  lemma IdleClaims(s: Db, key: P.Key) returns (e: Step)
    requires O.Idle(s.pay.box, 0) && key in s.pay.box.rows
    requires O.Eligible(O.Released(s.pay.box.rows[key], s.now, s.cfg), {s.pay.box.rows[key].topic}, s.now)
    ensures e.ClaimEvents?
    ensures var s1 := Next(s, e);
            && s1 == s.(pay := s.pay.(box := s1.pay.box))
            && P.MayHandle(s1.pay, 0, key) && key in s1.pay.box.rows
  {
    var topics := {s.pay.box.rows[key].topic};
    var batch := SomeBatch(s, topics, key);
    e := ClaimEvents(0, topics, |batch|, batch);
    hide MayClaim, O.Eligible, O.Idle;
    ClaimStep(s, 0, topics, |batch|, batch);
    ClaimedInHand(s.pay, key, batch, s.now, s.cfg);
    hide Next, P.ClaimEvents, P.MayHandle;
  }

  lemma SomeBatch(s: Db, topics: set<string>, key: P.Key) returns (batch: seq<P.Key>)
    requires O.Idle(s.pay.box, 0) && key in s.pay.box.rows
    requires O.Eligible(O.Released(s.pay.box.rows[key], s.now, s.cfg), topics, s.now)
    ensures MayClaim(s, 0, topics, |batch|, batch) && key in batch
    ensures forall k :: k in batch ==> k in s.pay.box.rows
  {
    var rows := O.ReleaseStale(s.pay.box.rows, s.now, s.cfg);
    batch := O.SomeBatchTakesAll(rows, topics, s.now);
    BatchIsEligible(s, 0, topics, |batch|, batch);
  }

  lemma ClaimStep(s: Db, w: nat, topics: set<string>, limit: nat, batch: seq<P.Key>)
    requires MayClaim(s, w, topics, limit, batch)
    ensures forall k :: k in batch ==> k in s.pay.box.rows
    ensures Next(s, ClaimEvents(w, topics, limit, batch))
            == s.(pay := P.ClaimEvents(s.pay, w, batch, s.now, s.cfg))
  {
    BatchIsEligible(s, w, topics, limit, batch);
    hide MayClaim, P.ClaimEvents;
  }

  lemma ClaimedInHand(p: P.Tables, key: P.Key, batch: seq<P.Key>, now: int, cfg: O.Config)
    requires key in batch && forall k :: k in batch ==> k in p.box.rows
    ensures var p1 := P.ClaimEvents(p, 0, batch, now, cfg);
            p1 == p.(box := p1.box) && P.MayHandle(p1, 0, key) && key in p1.box.rows
  {
    assert (0, key) in P.ClaimEvents(p, 0, batch, now, cfg).box.held;
  }

  // ----- the verdict -----

  lemma RefusedStep(s: Db, e: Step)
    requires e.GiveVerdict? && !Taken(s, e)
    ensures Next(s, e) == s
  {
    hide W.TakeVerdict, P.RequestPayout, W.VerdictRefused;
    NotCompleted(s.work, e.submission, e.attempt, e.token, s.now);
  }

  lemma NotCompleted(t: W.Tables, x: nat, n: nat, token: nat, now: int)
    ensures W.VerdictRefused(t, x, n, token, now) != Some(W.Completed)
  {
  }

  /** What a verdict that is taken finds, and what it does to the work tables. */
  lemma TakenStep(s: Db, e: Step)
    requires Taken(s, e)
    ensures e.GiveVerdict? && W.HasAttempt(s.work, e.submission, e.attempt)
    ensures s.work.attempts[e.submission][e.attempt].status != W.Finished
    ensures e.submission < |s.work.submissions| && s.work.submissions[e.submission].job < |s.work.jobs|
    ensures Next(s, e).work == W.TakeVerdict(s.work, e.submission, e.attempt, e.verdict).t
  {
    hide W.TakeVerdict, P.RequestPayout;
  }

  lemma PassCompletes(t: W.Tables, x: nat, n: nat)
    requires W.HasAttempt(t, x, n) && x < |t.submissions| && t.submissions[x].job < |t.jobs|
    ensures var out, j := W.TakeVerdict(t, x, n, W.Pass), t.submissions[x].job;
            && out.reply == W.Completed && |out.t.jobs| == |t.jobs| && out.t.jobs[j].status == W.Done
            && |out.t.submissions| == |t.submissions| && out.t.submissions[x].job == j
            && (forall i :: 0 <= i < |t.jobs| ==> out.t.jobs[i].bounty == t.jobs[i].bounty)
  {
    hide W.MaxAttempt;
  }

  /** The payout a paid pass asks for. */
  lemma PassStep(s: Db, e: Step)
    requires PassIsPaid(s, e) && s.work.jobs[s.work.submissions[e.submission].job].bounty < |s.ledger.bounties|
    ensures var x := e.submission;
            var b := s.work.jobs[s.work.submissions[x].job].bounty;
            && e.rates.Valid()
            && Next(s, e) == s.(work := W.TakeVerdict(s.work, x, e.attempt, W.Pass).t,
                                pay := P.RequestPayout(s.pay, x, b, s.work.submissions[x].worker,
                                                       s.ledger.bounties[b].payoutCents,
                                                       s.ledger.bounties[b].windowSec, e.rates, s.now))
  {
    PassCompletes(s.work, e.submission, e.attempt);
    hide W.TakeVerdict, P.RequestPayout;
  }

  lemma PassAddsKey(s: Db, e: Step)
    requires PassIsPaid(s, e) && s.work.jobs[s.work.submissions[e.submission].job].bounty < |s.ledger.bounties|
    ensures Next(s, e).pay.bySubmission.Keys == s.pay.bySubmission.Keys + {e.submission}
  {
    PassStep(s, e);
    hide Next, W.TakeVerdict;
  }

  lemma UnpaidStep(s: Db, e: Step)
    requires Taken(s, e) && !PassIsPaid(s, e)
    ensures Next(s, e) == s.(work := W.TakeVerdict(s.work, e.submission, e.attempt, e.verdict).t)
  {
    hide W.TakeVerdict, P.RequestPayout;
  }

  /** A verdict changes the payment tables only by asking for a payout. */
  lemma VerdictPay(s: Db, e: Step)
    requires e.GiveVerdict? && Next(s, e).pay != s.pay
    ensures PassIsPaid(s, e) && s.work.jobs[s.work.submissions[e.submission].job].bounty < |s.ledger.bounties|
  {
    hide P.RequestPayout;
    if Taken(s, e) {
      PassCompletes(s.work, e.submission, e.attempt);
    }
    hide W.TakeVerdict;
  }

  /** Submissions are never deleted, and stay with their job and worker. */
  ghost predicate KeepsSubmissions(t: W.Tables, t1: W.Tables) {
    && |t.submissions| <= |t1.submissions|
    && (forall x :: 0 <= x < |t.submissions| ==>
          t1.submissions[x].job == t.submissions[x].job && t1.submissions[x].worker == t.submissions[x].worker)
  }

  lemma SubmissionsStay(s: Db, e: Step)
    ensures KeepsSubmissions(s.work, Next(s, e).work)
  {
    if e.GiveVerdict? {
      hide W.MaxAttempt;
      if Taken(s, e) {
        TakenStep(s, e);
      } else {
        RefusedStep(s, e);
      }
      hide Next;
    } else if IsWorkStep(e) {
      WorkersKeepSubmissions(s, e);
      hide Next;
    } else {
      OthersKeepWork(s, e);
      hide Next;
    }
  }

  lemma WorkersKeepSubmissions(s: Db, e: Step)
    requires IsWorkStep(e) && !e.GiveVerdict?
    ensures KeepsSubmissions(s.work, Next(s, e).work)
  {
    hide L.Publish, W.LeasePast, W.HoldsLease, W.KnownKey;
  }
}
