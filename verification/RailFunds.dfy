/**
 What holds in every run whatever, without any hypothesis: accounts, billing events and
 limits agree, every payout is of the bounty its job is for, of the amount that bounty
 offers and split into parts that add up to it, credits go to the org that owns the
 bounty, and jobs are generated once.
 */
module RailFunds {
  import opened FeeSplit
  import opened Rail
  import O = Outbox
  import W = Work
  import P = Pay
  import L = Ledger

  // ----- the invariant -----

  ghost predicate Indexed(p: P.Tables) {
    && (forall i :: 0 <= i < |p.payouts| ==>
          p.payouts[i].submission in p.bySubmission && p.bySubmission[p.payouts[i].submission] == i)
    && (forall x :: x in p.bySubmission ==>
          p.bySubmission[x] < |p.payouts| && p.payouts[p.bySubmission[x]].submission == x)
  }

  /** A payout is of the bounty its submission was made for, and has the payout that bounty offers. */
  ghost predicate PayoutOwned(s: Db, row: P.Payout) {
    && row.submission < |s.work.submissions| && s.work.submissions[row.submission].job < |s.work.jobs|
    && row.bounty == s.work.jobs[s.work.submissions[row.submission].job].bounty
    && row.bounty < |s.ledger.bounties|
    && row.amount == s.ledger.bounties[row.bounty].payoutCents
    && row.split.Total() == row.amount
  }

  /** A dispute is between the org that owns the bounty and a payout of that bounty. */
  ghost predicate DisputeOwned(s: Db, row: P.Dispute) {
    && row.payout < |s.pay.payouts|
    && row.bounty == s.pay.payouts[row.payout].bounty
    && row.bounty < |s.ledger.bounties|
    && s.ledger.bounties[row.bounty].org == row.org
  }

  /** Jobs were generated at most once, and not without a reservation. */
  ghost predicate JobsGenerated(s: Db, b: nat)
    requires b < |s.ledger.bounties|
  {
    var row := s.ledger.bounties[b];
    JobsOf(s, b) == 0
    || (JobsOf(s, b) == row.classes && (L.ReserveCents(row) > 0 ==> b in s.ledger.reservations))
  }

  ghost predicate Owned(s: Db) {
    && Indexed(s.pay)
    && (forall j :: 0 <= j < |s.work.jobs| ==> s.work.jobs[j].bounty < |s.ledger.bounties|)
    && (forall i :: 0 <= i < |s.pay.payouts| ==> PayoutOwned(s, s.pay.payouts[i]))
    && (forall d :: 0 <= d < |s.pay.disputes| ==> DisputeOwned(s, s.pay.disputes[d]))
    && (forall b :: 0 <= b < |s.ledger.bounties| ==> JobsGenerated(s, b))
  }

  ghost predicate Funds(s: Db, opening: map<nat, nat>) {
    L.Valid(s.ledger, opening, s.now) && Owned(s)
  }

  lemma StartFunds(d: Deployment)
    ensures Funds(Start(d), d.opening)
  {
    L.NewLedgerIsValid(d.orgs, d.opening, d.now);
  }

  lemma FundsParts(s: Db, opening: map<nat, nat>)
    requires Funds(s, opening)
    ensures L.Valid(s.ledger, opening, s.now) && Owned(s)
  {
  }

  lemma ReservationHasAccount(s: Db, b: nat, opening: map<nat, nat>)
    requires Funds(s, opening)
    ensures b in s.ledger.reservations ==> s.ledger.reservations[b].org in s.ledger.accounts
  {
  }

  /** Rows are added, and what payouts and disputes refer to stays as it is. */
  ghost predicate Grows(s: Db, s1: Db) {
    && |s.work.jobs| <= |s1.work.jobs|
    && (forall j :: 0 <= j < |s.work.jobs| ==> s1.work.jobs[j].bounty == s.work.jobs[j].bounty)
    && |s.work.submissions| <= |s1.work.submissions|
    && (forall x :: 0 <= x < |s.work.submissions| ==> s1.work.submissions[x].job == s.work.submissions[x].job)
    && |s.ledger.bounties| <= |s1.ledger.bounties|
    && (forall b :: 0 <= b < |s.ledger.bounties| ==>
          && s1.ledger.bounties[b].org == s.ledger.bounties[b].org
          && s1.ledger.bounties[b].payoutCents == s.ledger.bounties[b].payoutCents)
    && s1.pay == s.pay
  }

  /** What is left to show when rows were only added. */
  ghost predicate JobsCounted(s: Db) {
    && (forall j :: 0 <= j < |s.work.jobs| ==> s.work.jobs[j].bounty < |s.ledger.bounties|)
    && (forall b :: 0 <= b < |s.ledger.bounties| ==> JobsGenerated(s, b))
  }

  lemma GrowsKeepsOwned(s: Db, s1: Db)
    requires Owned(s) && Grows(s, s1) && JobsCounted(s1)
    ensures Owned(s1)
  {
    hide JobsGenerated;
    forall i | 0 <= i < |s1.pay.payouts|
      ensures PayoutOwned(s1, s1.pay.payouts[i])
    {
      assert PayoutOwned(s, s.pay.payouts[i]);
    }
    forall d | 0 <= d < |s1.pay.disputes|
      ensures DisputeOwned(s1, s1.pay.disputes[d])
    {
      assert DisputeOwned(s, s.pay.disputes[d]);
    }
  }

  // ----- steps on the work tables -----

  /** Submissions are added; otherwise nothing changes that matters here. */
  ghost predicate SameJobs(t: W.Tables, t1: W.Tables) {
    && |t1.jobs| == |t.jobs|
    && (forall j :: 0 <= j < |t.jobs| ==> t1.jobs[j].bounty == t.jobs[j].bounty)
    && |t.submissions| <= |t1.submissions|
    && (forall x :: 0 <= x < |t.submissions| ==> t1.submissions[x].job == t.submissions[x].job)
  }

  lemma WorkKeeps(s: Db, t1: W.Tables, opening: map<nat, nat>)
    requires Funds(s, opening) && SameJobs(s.work, t1)
    ensures Funds(s.(work := t1), opening)
  {
    var s1 := s.(work := t1);
    forall b | 0 <= b < |s.ledger.bounties|
      ensures JobsGenerated(s1, b)
    {
      assert JobsGenerated(s, b);
      W.CountAgrees(s.work.jobs, t1.jobs, W.OfBounty(b), W.OfBounty(b));
      W.CountAgrees(t1.jobs, s.work.jobs, W.OfBounty(b), W.OfBounty(b));
    }
    hide JobsGenerated, L.Valid;
    GrowsKeepsOwned(s, s1);
  }

  lemma VerdictSame(t: W.Tables, x: nat, n: nat, token: nat, v: W.Verdict, now: int)
    ensures SameJobs(t, W.GiveVerdict(t, x, n, token, v, now).t)
  {
    hide W.MaxAttempt;
  }

  // ----- steps on the payment tables -----

  /** Payouts keep what they are for, and each split is whole; old disputes keep what they are about. */
  ghost predicate SamePayouts(p: P.Tables, p1: P.Tables) {
    && |p1.payouts| == |p.payouts| && p1.bySubmission == p.bySubmission
    && (forall i :: 0 <= i < |p.payouts| ==>
          && p1.payouts[i].submission == p.payouts[i].submission
          && p1.payouts[i].bounty == p.payouts[i].bounty
          && p1.payouts[i].amount == p.payouts[i].amount
          && (p.payouts[i].split.Total() == p.payouts[i].amount ==>
                p1.payouts[i].split.Total() == p.payouts[i].amount))
    && |p.disputes| <= |p1.disputes|
    && (forall d :: 0 <= d < |p.disputes| ==> p1.disputes[d].(status := P.Open) == p.disputes[d].(status := P.Open))
  }

  lemma PayKeeps(s: Db, p1: P.Tables, opening: map<nat, nat>)
    requires Funds(s, opening) && SamePayouts(s.pay, p1)
    requires forall d :: |s.pay.disputes| <= d < |p1.disputes| ==> DisputeOwned(s, p1.disputes[d])
    ensures Funds(s.(pay := p1), opening)
  {
    var s1 := s.(pay := p1);
    hide L.Valid;
    forall i | 0 <= i < |p1.payouts|
      ensures PayoutOwned(s1, p1.payouts[i])
    {
      assert PayoutOwned(s, s.pay.payouts[i]);
    }
    forall d | 0 <= d < |p1.disputes|
      ensures DisputeOwned(s1, p1.disputes[d])
    {
      if d < |s.pay.disputes| {
        assert DisputeOwned(s, s.pay.disputes[d]);
        assert p1.disputes[d].(status := P.Open) == s.pay.disputes[d].(status := P.Open);
      } else {
        assert DisputeOwned(s, p1.disputes[d]);
      }
    }
    forall b | 0 <= b < |s.ledger.bounties|
      ensures JobsGenerated(s1, b)
    {
      assert JobsGenerated(s, b);
    }
  }

  // ----- steps on the ledger -----

  lemma LedgerKeeps(s: Db, l1: L.Tables, opening: map<nat, nat>)
    requires Funds(s, opening) && L.Valid(l1, opening, s.now) && |s.ledger.bounties| == |l1.bounties|
    requires forall b :: 0 <= b < |l1.bounties| ==>
               l1.bounties[b] == s.ledger.bounties[b].(status := l1.bounties[b].status)
    requires s.ledger.reservations.Keys <= l1.reservations.Keys
    ensures Funds(s.(ledger := l1), opening)
  {
    var s1 := s.(ledger := l1);
    hide L.Valid;
    forall b | 0 <= b < |l1.bounties|
      ensures JobsGenerated(s1, b)
    {
      assert JobsGenerated(s, b);
    }
    hide JobsGenerated;
    GrowsKeepsOwned(s, s1);
  }

  lemma {:induction false} NoneCounted(jobs: seq<W.Job>, scope: W.Scope)
    requires forall j :: 0 <= j < |jobs| ==> !W.Within(scope, jobs[j])
    ensures W.Count(jobs, scope) == 0
  {
    if jobs != [] {
      NoneCounted(jobs[..|jobs| - 1], scope);
    }
  }

  lemma CreateBountyKeeps(s: Db, row: L.Bounty, opening: map<nat, nat>)
    requires Funds(s, opening)
    ensures Funds(s.(ledger := L.CreateBounty(s.ledger, row)), opening)
  {
    var s1 := s.(ledger := L.CreateBounty(s.ledger, row));
    L.CreateBountyKeeps(s.ledger, row, opening, s.now);
    hide L.Valid;
    forall b | 0 <= b < |s1.ledger.bounties|
      ensures JobsGenerated(s1, b)
    {
      if b < |s.ledger.bounties| {
        assert JobsGenerated(s, b);
      } else {
        NoneCounted(s.work.jobs, W.OfBounty(b));
      }
    }
    hide JobsGenerated;
    GrowsKeepsOwned(s, s1);
  }

  lemma PublishKeeps(s: Db, b: nat, opening: map<nat, nat>)
    requires Funds(s, opening) && DoPublish(s, b).Ok?
    ensures Funds(DoPublish(s, b).value, opening)
  {
    var jobs, some := OpenJobs(s, s.ledger.bounties[b].org), JobsOf(s, b) > 0;
    FundsParts(s, opening);
    hide Funds, OpenJobs;
    L.PublishKeeps(s.ledger, b, jobs, some, opening, s.now);
    PublishRows(s.ledger, b, jobs, some, s.now);
    hide L.Valid, L.Publish, Owned, L.ReserveCents;
    var r := L.Publish(s.ledger, b, jobs, some, s.now).value;
    LedgerKeeps(s, r.0, opening);
    hide W.AddJobs;
    AddJobsKeeps(s.(ledger := r.0), b, r.1, opening);
  }

  /** What publishing does to bounties and reservations, and how many jobs it asks for. */
  lemma PublishRows(l: L.Tables, b: nat, openJobs: nat, hasJobs: bool, now: nat)
    requires L.Publish(l, b, openJobs, hasJobs, now).Ok?
    ensures b < |l.bounties|
    ensures var r := L.Publish(l, b, openJobs, hasJobs, now).value;
            && r.0.bounties == l.bounties[b := l.bounties[b].(status := L.Published)]
            && l.reservations.Keys <= r.0.reservations.Keys
            && (L.ReserveCents(l.bounties[b]) > 0 ==> b in r.0.reservations)
            && L.ReserveCents(r.0.bounties[b]) == L.ReserveCents(l.bounties[b])
            && r.1 == if hasJobs then 0 else l.bounties[b].classes
  {
  }

  lemma AddJobsKeeps(s: Db, b: nat, n: nat, opening: map<nat, nat>)
    requires Funds(s, opening) && b < |s.ledger.bounties|
    requires n > 0 ==> JobsOf(s, b) == 0 && n == s.ledger.bounties[b].classes
    requires n > 0 && L.ReserveCents(s.ledger.bounties[b]) > 0 ==> b in s.ledger.reservations
    ensures Funds(s.(work := W.AddJobs(s.work, b, n)), opening)
  {
    var s1 := s.(work := W.AddJobs(s.work, b, n));
    hide L.Valid;
    forall c | 0 <= c < |s.ledger.bounties|
      ensures JobsGenerated(s1, c)
    {
      assert JobsGenerated(s, c);
      W.CountNew(s.work.jobs, b, n, W.OfBounty(c));
    }
    hide JobsGenerated;
    GrowsKeepsOwned(s, s1);
  }

  lemma CloseKeeps(s: Db, b: nat, opening: map<nat, nat>)
    requires Funds(s, opening)
    ensures Funds(DoClose(s, b), opening)
  {
    if b < |s.ledger.bounties| {
      FundsParts(s, opening);
      hide Funds;
      L.CloseKeeps(s.ledger, b, Committed(s, b), opening, s.now);
      CloseKeepsRows(s.ledger, b, Committed(s, b), s.now);
      hide L.Valid, L.Close;
      LedgerKeeps(s, L.Close(s.ledger, b, Committed(s, b), s.now), opening);
    }
  }

  lemma CloseKeepsRows(l: L.Tables, b: nat, committed: nat, now: nat)
    requires b < |l.bounties|
    ensures var l1 := L.Close(l, b, committed, now);
            && l1.orgs == l.orgs && l1.bounties == l.bounties[b := l.bounties[b].(status := L.Closed)]
            && l1.reservations.Keys == l.reservations.Keys
  {
  }

  lemma BooksStepKeeps(s: Db, e: Step, opening: map<nat, nat>)
    requires Funds(s, opening) && (e.CreateBounty? || e.Pause? || e.TopUp? || e.Stripe?)
    ensures Funds(Next(s, e), opening)
  {
    FundsParts(s, opening);
    hide Funds, L.Valid;
    match e
    case CreateBounty(row) => CreateBountyKeeps(s, row, opening);
    case Pause(b) =>
      if b < |s.ledger.bounties| {
        L.SetStatusKeeps(s.ledger, b, L.Paused, opening, s.now);
        LedgerKeeps(s, L.SetStatus(s.ledger, b, L.Paused), opening);
      }
    case TopUp(org, cents) =>
      L.TopUpKeeps(s.ledger, org, cents, opening, s.now);
      if L.TopUp(s.ledger, org, cents, s.now).Ok? {
        LedgerKeeps(s, L.TopUp(s.ledger, org, cents, s.now).value, opening);
      }
    case Stripe(ev) =>
      L.StripeWebhookKeeps(s.ledger, ev, opening, s.now);
      LedgerKeeps(s, L.StripeWebhook(s.ledger, ev, s.now), opening);
  }

  lemma TickKeeps(s: Db, ms: nat, opening: map<nat, nat>)
    requires Funds(s, opening)
    ensures Funds(s.(now := s.now + ms), opening)
  {
    L.TickKeeps(s.ledger, opening, s.now, s.now + ms);
    hide L.Valid;
    var s1 := s.(now := s.now + ms);
    forall b | 0 <= b < |s.ledger.bounties|
      ensures JobsGenerated(s1, b)
    {
      assert JobsGenerated(s, b);
    }
    hide JobsGenerated;
    GrowsKeepsOwned(s, s1);
  }

  // ----- steps on several tables -----

  lemma VerdictKeeps(s: Db, x: nat, n: nat, token: nat, v: W.Verdict, rates: Rates, opening: map<nat, nat>)
    requires Funds(s, opening)
    ensures Funds(DoVerdict(s, x, n, token, v, rates), opening)
  {
    var out := W.GiveVerdict(s.work, x, n, token, v, s.now);
    VerdictSame(s.work, x, n, token, v, s.now);
    CompletedWasThere(s.work, x, n, token, v, s.now);
    hide Funds, W.GiveVerdict, SameJobs, P.RequestPayout;
    WorkKeeps(s, out.t, opening);
    if out.reply == W.Completed && v == W.Pass && rates.Valid() {
      var b := s.work.jobs[s.work.submissions[x].job].bounty;
      if b < |s.ledger.bounties| {
        PassKeeps(s.(work := out.t), x, b, s.work.submissions[x].worker, s.ledger.bounties[b].windowSec, rates,
                  opening);
      }
    }
  }

  lemma CompletedWasThere(t: W.Tables, x: nat, n: nat, token: nat, v: W.Verdict, now: int)
    ensures var out := W.GiveVerdict(t, x, n, token, v, now);
            out.reply == W.Completed ==>
              && x < |t.submissions| && t.submissions[x].job < |t.jobs|
              && x < |out.t.submissions| && out.t.submissions[x].job == t.submissions[x].job < |out.t.jobs|
              && out.t.jobs[out.t.submissions[x].job].bounty == t.jobs[t.submissions[x].job].bounty
  {
    hide W.MaxAttempt;
  }

  /** What a pass asks to be split is the payout of the bounty, which is the amount of the row it may find. */
  lemma PassKeeps(s: Db, x: nat, b: nat, worker: nat, windowSec: int, rates: LegalRates, opening: map<nat, nat>)
    requires Funds(s, opening) && x < |s.work.submissions| && s.work.submissions[x].job < |s.work.jobs|
    requires s.work.jobs[s.work.submissions[x].job].bounty == b < |s.ledger.bounties|
    ensures Funds(s.(pay := P.RequestPayout(s.pay, x, b, worker, s.ledger.bounties[b].payoutCents, windowSec, rates,
                                            s.now)), opening)
  {
    var amount := s.ledger.bounties[b].payoutCents;
    var p1 := P.RequestPayout(s.pay, x, b, worker, amount, windowSec, rates, s.now);
    hide L.Valid;
    if x in s.pay.bySubmission {
      assert PayoutOwned(s, s.pay.payouts[s.pay.bySubmission[x]]);
      PayKeeps(s, p1, opening);
    } else {
      NewPayoutKeeps(s, x, p1, opening);
    }
  }

  lemma NewPayoutKeeps(s: Db, x: nat, p1: P.Tables, opening: map<nat, nat>)
    requires Funds(s, opening) && x !in s.pay.bySubmission
    requires |p1.payouts| == |s.pay.payouts| + 1 && p1.payouts[..|s.pay.payouts|] == s.pay.payouts
    requires PayoutOwned(s, p1.payouts[|s.pay.payouts|]) && p1.payouts[|s.pay.payouts|].submission == x
    requires p1.bySubmission == s.pay.bySubmission[x := |s.pay.payouts|] && p1.disputes == s.pay.disputes
    ensures Funds(s.(pay := p1), opening)
  {
    var n, s1 := |s.pay.payouts|, s.(pay := p1);
    assert p1.payouts == s.pay.payouts + [p1.payouts[n]];
    hide L.Valid;
    forall i | 0 <= i <= n
      ensures PayoutOwned(s1, p1.payouts[i])
    {
      assert i < n ==> PayoutOwned(s, s.pay.payouts[i]) && p1.payouts[i] == s.pay.payouts[i];
    }
    forall d | 0 <= d < |p1.disputes|
      ensures DisputeOwned(s1, p1.disputes[d])
    {
      assert DisputeOwned(s, s.pay.disputes[d]);
    }
    forall b | 0 <= b < |s.ledger.bounties|
      ensures JobsGenerated(s1, b)
    {
      assert JobsGenerated(s, b);
    }
  }

  lemma OpenDisputeKeeps(s: Db, org: nat, target: Target, opening: map<nat, nat>)
    requires Funds(s, opening) && DoOpenDispute(s, org, target).Ok?
    ensures Funds(DoOpenDispute(s, org, target).value, opening)
  {
    var i := ResolveTarget(s, org, target).value;
    TargetIsOwned(s, org, target, opening);
    hide Funds, ResolveTarget;
    PayKeeps(s, P.OpenDispute(s.pay, org, i, s.now), opening);
  }

  lemma TargetIsOwned(s: Db, org: nat, target: Target, opening: map<nat, nat>)
    requires Funds(s, opening) && ResolveTarget(s, org, target).Ok?
    ensures var i := ResolveTarget(s, org, target).value;
            && i < |s.pay.payouts| && s.pay.payouts[i].bounty < |s.ledger.bounties|
            && s.ledger.bounties[s.pay.payouts[i].bounty].org == org
  {
    hide L.Valid;
    assert PayoutOwned(s, s.pay.payouts[ResolveTarget(s, org, target).value]);
  }

  lemma ResolveSame(p: P.Tables, d: nat, r: P.Resolution, now: int)
    requires P.ResolveDispute(p, d, r, now).Ok?
    ensures var p1 := P.ResolveDispute(p, d, r, now).value.0; SamePayouts(p, p1) && |p1.disputes| == |p.disputes|
  {
  }

  lemma ResolveKeeps(s: Db, d: nat, r: P.Resolution, opening: map<nat, nat>)
    requires Funds(s, opening) && DoResolve(s, d, r).Ok?
    ensures Funds(DoResolve(s, d, r).value, opening)
  {
    var res := P.ResolveDispute(s.pay, d, r, s.now);
    ResolveSame(s.pay, d, r, s.now);
    FundsParts(s, opening);
    DisputeIsOwned(s, d);
    hide Funds, Owned, P.ResolveDispute, SamePayouts, L.Valid;
    PayKeeps(s, res.value.0, opening);
    if res.value.1 {
      var row := s.pay.disputes[d];
      var cents := P.RefundCents(s.pay.payouts[row.payout]);
      L.CreditKeeps(s.ledger, row.org, row.bounty, row.payout, cents, opening, s.now);
      LedgerKeeps(s.(pay := res.value.0), L.Credit(s.ledger, row.org, row.bounty, row.payout, cents, s.now), opening);
    }
  }

  lemma DisputeIsOwned(s: Db, d: nat)
    requires Owned(s)
    ensures d < |s.pay.disputes| ==> DisputeOwned(s, s.pay.disputes[d])
  {
  }

  lemma HandleRefundKeeps(s: Db, w: nat, d: nat, dbOk: bool, opening: map<nat, nat>)
    requires Funds(s, opening)
    ensures Funds(DoHandleRefund(s, w, d, dbOk), opening)
  {
    var key := P.AutoRefund(d);
    hide Funds;
    if P.MayHandle(s.pay, w, key) {
      if !dbOk {
        PayKeeps(s, s.pay.(box := O.Finish(s.pay.box, w, key, O.Threw)), opening);
      } else {
        var r := DoResolve(s, d, P.ToRefund);
        var s1 := if r.Ok? then r.value else s;
        if r.Ok? {
          ResolveKeeps(s, d, P.ToRefund, opening);
        }
        PayKeeps(s1, s1.pay.(box := O.Finish(s1.pay.box, w, key, O.Returned)), opening);
      }
    }
  }

  // ----- every step, every run -----

  lemma WorkStepKeeps(s: Db, e: Step, opening: map<nat, nat>)
    requires Funds(s, opening) && (e.ClaimJob? || e.ReleaseJob? || e.Reap? || e.Submit? || e.VerifierClaim?)
    ensures Funds(Next(s, e), opening)
  {
    hide Funds;
    assert Next(s, e) == s.(work := Next(s, e).work) && SameJobs(s.work, Next(s, e).work);
    hide Next, SameJobs;
    WorkKeeps(s, Next(s, e).work, opening);
  }

  lemma PayStepKeeps(s: Db, e: Step, opening: map<nat, nat>)
    requires Funds(s, opening)
    requires e.CancelDispute? || e.ClaimEvents? || e.HandlePayout? || e.AckEvent? || e.Crash?
    ensures Funds(Next(s, e), opening)
  {
    hide Funds, O.OldestFirst;
    assert Next(s, e) == s.(pay := Next(s, e).pay);
    assert SamePayouts(s.pay, Next(s, e).pay) && |Next(s, e).pay.disputes| == |s.pay.disputes|;
    hide Next, SamePayouts;
    PayKeeps(s, Next(s, e).pay, opening);
  }

  /** Every step keeps it, whatever verifiers, buyers and workers do. */
  lemma StepKeepsFunds(s: Db, e: Step, opening: map<nat, nat>)
    requires Funds(s, opening)
    ensures Funds(Next(s, e), opening)
  {
    hide Funds, DoPublish, DoClose, DoVerdict, DoOpenDispute, DoResolve, DoHandleRefund;
    if e.ClaimJob? || e.ReleaseJob? || e.Reap? || e.Submit? || e.VerifierClaim? {
      WorkStepKeeps(s, e, opening);
    } else if e.CancelDispute? || e.ClaimEvents? || e.HandlePayout? || e.AckEvent? || e.Crash? {
      PayStepKeeps(s, e, opening);
    } else if e.CreateBounty? || e.Pause? || e.TopUp? || e.Stripe? {
      BooksStepKeeps(s, e, opening);
    } else {
      CrossStepKeeps(s, e, opening);
    }
  }

  lemma CrossStepKeeps(s: Db, e: Step, opening: map<nat, nat>)
    requires Funds(s, opening)
    requires e.Tick? || e.Publish? || e.Close? || e.GiveVerdict? || e.OpenDispute? || e.ResolveDispute?
             || e.HandleRefund?
    ensures Funds(Next(s, e), opening)
  {
    hide Funds, DoPublish, DoClose, DoVerdict, DoOpenDispute, DoResolve, DoHandleRefund;
    match e
    case Tick(ms) => TickKeeps(s, ms, opening);
    case Publish(b) =>
      if DoPublish(s, b).Ok? {
        PublishKeeps(s, b, opening);
      }
    case Close(b) => CloseKeeps(s, b, opening);
    case GiveVerdict(x, n, token, v, rates) => VerdictKeeps(s, x, n, token, v, rates, opening);
    case OpenDispute(org, target) =>
      if DoOpenDispute(s, org, target).Ok? {
        OpenDisputeKeeps(s, org, target, opening);
      }
    case ResolveDispute(d, r) =>
      if DoResolve(s, d, r).Ok? {
        ResolveKeeps(s, d, r, opening);
      }
    case HandleRefund(w, d, dbOk) => HandleRefundKeeps(s, w, d, dbOk, opening);
  }

  lemma {:induction false} RunKeepsFunds(s: Db, steps: seq<Step>, opening: map<nat, nat>)
    requires Funds(s, opening)
    ensures Funds(Run(s, steps), opening)
    decreases |steps|
  {
    hide Funds, Next;
    if steps != [] {
      StepKeepsFunds(s, steps[0], opening);
      RunKeepsFunds(Next(s, steps[0]), steps[1..], opening);
    }
  }

  lemma ReachableHasFunds(h: Hypotheses, s: Db, d: Deployment)
    requires Reachable(h, s, d)
    ensures Funds(s, d.opening) && L.Valid(s.ledger, d.opening, s.now)
  {
    var steps :| RunUnder(h, Start(d), steps) && Run(Start(d), steps) == s;
    StartFunds(d);
    RunKeepsFunds(Start(d), steps, d.opening);
    FundsParts(s, d.opening);
  }

  // ----- what follows -----

  /** Publishing again, after a pause or a close, neither debits nor generates jobs. */
  lemma RepublishIsFree(s: Db, d: Deployment, b: nat)
    requires Reachable(NO_HYPOTHESIS, s, d) && b < |s.ledger.bounties| && JobsOf(s, b) > 0
    ensures DoPublish(s, b).Ok?
    ensures var s1 := DoPublish(s, b).value;
            && s1.work.jobs == s.work.jobs
            && s1.ledger.events == s.ledger.events
            && s1.ledger.reservations == s.ledger.reservations
            && forall org :: L.Balance(s1.ledger.accounts, org) == L.Balance(s.ledger.accounts, org)
  {
    ReachableHasFunds(NO_HYPOTHESIS, s, d);
    assert JobsGenerated(s, b);
  }
}
