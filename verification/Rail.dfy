/**
 The whole rail as one state machine: all the tables, one clock, and one step
 for each database transaction, HTTP handler and worker action.
 */
module Rail {
  import opened Common
  import opened FeeSplit
  import O = Outbox
  import W = Work
  import P = Pay
  import L = Ledger

  datatype Db = Db(now: nat, cfg: O.Config, work: W.Tables, pay: P.Tables, ledger: L.Tables)

  type LegalRates = r: Rates | r.Valid() witness Rates(0, 100)

  datatype Target = OfPayout(payout: nat) | OfSubmission(submission: nat)

  datatype Step =
    | Tick(ms: nat)
    | CreateBounty(row: L.Bounty)
    | Publish(bounty: nat)
    | Pause(bounty: nat)
    | Close(bounty: nat)
    | TopUp(org: nat, cents: int)
    | Stripe(event: L.StripeEvent)
    | ClaimJob(worker: nat, job: nat, stale: bool)
    | ReleaseJob(worker: nat, job: nat, nonce: nat)
    | Reap
    | Submit(worker: nat, job: nat, req: W.Request)
    | VerifierClaim(submission: nat, attempt: nat, ttl: int)
    | GiveVerdict(submission: nat, attempt: nat, token: nat, verdict: W.Verdict, rates: Rates)
    | OpenDispute(org: nat, target: Target)
    | CancelDispute(org: nat, dispute: nat)
    | ResolveDispute(dispute: nat, resolution: P.Resolution)
    | ClaimEvents(runner: nat, topics: set<string>, limit: nat, batch: seq<P.Key>)
    | HandlePayout(runner: nat, payout: nat, settings: Rates, walletSet: bool, answer: P.Provider)
    | HandleRefund(runner: nat, dispute: nat, dbOk: bool)
    | AckEvent(runner: nat, key: P.Key)
    | Crash(runner: nat)

  // ----- what the steps look up -----

  function BountiesOf(bounties: seq<L.Bounty>, org: nat): set<nat> {
    set b | 0 <= b < |bounties| && bounties[b].org == org
  }

  function OpenJobs(s: Db, org: nat): nat {
    W.Count(s.work.jobs, W.OpenIn(BountiesOf(s.ledger.bounties, org)))
  }

  function JobsOf(s: Db, b: nat): nat {
    W.Count(s.work.jobs, W.OfBounty(b))
  }

  /** What setBountyStatus counts as committed: the gross of every payout of the bounty, whatever its status. */
  function Committed(s: Db, b: nat): nat {
    P.Sum(s.pay.payouts, P.GrossOf(b))
  }

  // ----- steps that touch several tables -----

  function DoPublish(s: Db, b: nat): Result<Db, L.LedgerError> {
    var org := if b < |s.ledger.bounties| then s.ledger.bounties[b].org else 0;
    var r :- L.Publish(s.ledger, b, OpenJobs(s, org), JobsOf(s, b) > 0, s.now);
    Ok(s.(ledger := r.0, work := W.AddJobs(s.work, b, r.1)))
  }

  function DoClose(s: Db, b: nat): Db {
    if b >= |s.ledger.bounties| then s
    else s.(ledger := L.Close(s.ledger, b, Committed(s, b), s.now))
  }

  /**
   The verdict; a pass that ends the job also creates the payout and asks for it. With
   illegal rates creating it throws, and the job stays done without a payout.
   */
  function DoVerdict(s: Db, sub: nat, n: nat, token: nat, v: W.Verdict, rates: Rates): Db {
    var out := W.GiveVerdict(s.work, sub, n, token, v, s.now);
    var s1 := s.(work := out.t);
    if out.reply != W.Completed || v != W.Pass || !rates.Valid() then s1
    else
      var worker, b := s.work.submissions[sub].worker, s.work.jobs[s.work.submissions[sub].job].bounty;
      if b >= |s.ledger.bounties| then s1
      else
        var row := s.ledger.bounties[b];
        s1.(pay := P.RequestPayout(s.pay, sub, b, worker, row.payoutCents, row.windowSec, rates, s.now))
  }

  /** The payout a dispute is about, after the ownership check. */
  function ResolveTarget(s: Db, org: nat, target: Target): Result<nat, P.DisputeError> {
    match target
    case OfPayout(i) =>
      if i >= |s.pay.payouts| then Err(P.TargetNotFound)
      else
        var b := s.pay.payouts[i].bounty;
        if b >= |s.ledger.bounties| then Err(P.TargetNotFound)
        else if s.ledger.bounties[b].org != org then Err(P.Forbidden)
        else Ok(i)
    case OfSubmission(x) =>
      if x >= |s.work.submissions| || s.work.submissions[x].job >= |s.work.jobs| then Err(P.TargetNotFound)
      else
        var b := s.work.jobs[s.work.submissions[x].job].bounty;
        if b >= |s.ledger.bounties| then Err(P.TargetNotFound)
        else if s.ledger.bounties[b].org != org then Err(P.Forbidden)
        else if x !in s.pay.bySubmission || s.pay.bySubmission[x] >= |s.pay.payouts| then Err(P.PayoutMissing)
        else Ok(s.pay.bySubmission[x])
  }

  function DoOpenDispute(s: Db, org: nat, target: Target): Result<Db, P.DisputeError> {
    var i :- ResolveTarget(s, org, target);
    var refused := P.DisputeRefused(s.pay, i, s.now);
    if refused.Some? then Err(refused.value)
    else Ok(s.(pay := P.OpenDispute(s.pay, org, i, s.now)))
  }

  function DoResolve(s: Db, d: nat, r: P.Resolution): Result<Db, P.DisputeError> {
    var res :- P.ResolveDispute(s.pay, d, r, s.now);
    if !res.1 then Ok(s.(pay := res.0))
    else
      var row := s.pay.disputes[d];
      var cents := P.RefundCents(s.pay.payouts[row.payout]);
      Ok(s.(pay := res.0, ledger := L.Credit(s.ledger, row.org, row.bounty, row.payout, cents, s.now)))
  }

  /** The auto-refund handler: every refusal of resolveDisputeAdmin counts as done. */
  function DoHandleRefund(s: Db, w: nat, d: nat, dbOk: bool): Db {
    var key := P.AutoRefund(d);
    if !P.MayHandle(s.pay, w, key) then s
    else if !dbOk then s.(pay := s.pay.(box := O.Finish(s.pay.box, w, key, O.Threw)))
    else
      var r := DoResolve(s, d, P.ToRefund);
      var s1 := if r.Ok? then r.value else s;
      s1.(pay := s1.pay.(box := O.Finish(s1.pay.box, w, key, O.Returned)))
  }

  /** A batch the claiming transaction may take: the oldest eligible rows once stale locks are released. */
  ghost predicate MayClaim(s: Db, w: nat, topics: set<string>, limit: nat, batch: seq<P.Key>) {
    && O.Idle(s.pay.box, w)
    && O.OldestFirst(O.ReleaseStale(s.pay.box.rows, s.now, s.cfg), batch, topics, limit, s.now)
  }

  lemma BatchIsEligible(s: Db, w: nat, topics: set<string>, limit: nat, batch: seq<P.Key>)
    requires MayClaim(s, w, topics, limit, batch)
    ensures forall k :: k in batch ==>
              k in s.pay.box.rows && O.Eligible(O.Released(s.pay.box.rows[k], s.now, s.cfg), topics, s.now)
  {
  }

  ghost function Next(s: Db, e: Step): Db {
    match e
    case Tick(ms) => s.(now := s.now + ms)
    case CreateBounty(row) => s.(ledger := L.CreateBounty(s.ledger, row))
    case Publish(b) => var r := DoPublish(s, b); if r.Ok? then r.value else s
    case Pause(b) => if b < |s.ledger.bounties| then s.(ledger := L.SetStatus(s.ledger, b, L.Paused)) else s
    case Close(b) => DoClose(s, b)
    case TopUp(org, cents) =>
      var r := L.TopUp(s.ledger, org, cents, s.now); if r.Ok? then s.(ledger := r.value) else s
    case Stripe(ev) => s.(ledger := L.StripeWebhook(s.ledger, ev, s.now))
    case ClaimJob(worker, j, stale) => s.(work := W.ClaimJob(s.work, worker, j, stale, s.now).t)
    case ReleaseJob(worker, j, nonce) => s.(work := W.ReleaseJob(s.work, worker, j, nonce).t)
    case Reap => s.(work := W.Reap(s.work, s.now))
    case Submit(worker, j, req) => s.(work := W.Submit(s.work, worker, j, req, s.now).t)
    case VerifierClaim(x, n, ttl) => s.(work := W.VerifierClaim(s.work, x, n, ttl, s.now).t)
    case GiveVerdict(x, n, token, v, rates) => DoVerdict(s, x, n, token, v, rates)
    case OpenDispute(org, target) => var r := DoOpenDispute(s, org, target); if r.Ok? then r.value else s
    case CancelDispute(org, d) =>
      var r := P.CancelDispute(s.pay, org, d, s.now); if r.Ok? then s.(pay := r.value) else s
    case ResolveDispute(d, r) => var res := DoResolve(s, d, r); if res.Ok? then res.value else s
    case ClaimEvents(w, topics, limit, batch) =>
      if MayClaim(s, w, topics, limit, batch) then s.(pay := P.ClaimEvents(s.pay, w, batch, s.now, s.cfg)) else s
    case HandlePayout(w, i, rates, walletSet, answer) =>
      s.(pay := P.HandlePayout(s.pay, w, i, rates, walletSet, answer, s.now))
    case HandleRefund(w, d, dbOk) => DoHandleRefund(s, w, d, dbOk)
    case AckEvent(w, key) => s.(pay := P.AckEvent(s.pay, w, key, s.now, s.cfg))
    case Crash(w) => s.(pay := s.pay.(box := O.Crash(s.pay.box, w)))
  }

  ghost function Run(s: Db, steps: seq<Step>): Db
    decreases |steps|
  {
    if steps == [] then s else Run(Next(s, steps[0]), steps[1..])
  }

  /** What a deployment begins with: the clock, its settings, and the balances the accounts opened with. */
  datatype Deployment = Deployment(
    now: nat, cfg: O.Config, maxAttempts: int, orgs: map<nat, L.Org>, opening: map<nat, nat>)

  /** A new deployment has empty tables. */
  function Start(d: Deployment): Db {
    Db(d.now, d.cfg,
       W.Tables([], [], map[], map[], map[], 0, 0, d.maxAttempts),
       P.Tables([], map[], [], O.Box(map[], map[])),
       L.NewLedger(d.orgs, d.opening))
  }

  // ----- the hypotheses, as guards a caller can check before the step -----

  /** The step is a verdict that is taken, not refused. */
  predicate Taken(s: Db, e: Step) {
    e.GiveVerdict? && W.VerdictRefused(s.work, e.submission, e.attempt, e.token, s.now).None?
  }

  /** The step is a pass that asks for the payout of its submission. */
  predicate PassIsPaid(s: Db, e: Step) {
    Taken(s, e) && e.verdict == W.Pass && e.rates.Valid()
  }

  /** H1: a pass creates no payout for a bounty whose reservation is released. */
  predicate ReservationOpen(s: Db, e: Step) {
    PassIsPaid(s, e) && e.submission !in s.pay.bySubmission ==>
      var b := s.work.jobs[s.work.submissions[e.submission].job].bounty;
      b in s.ledger.reservations ==> !s.ledger.reservations[b].released
  }

  /** H2: a dispute is opened only on a payout that was not refunded. */
  predicate DisputeIsFirst(s: Db, e: Step) {
    e.OpenDispute? ==>
      var r := ResolveTarget(s, e.org, e.target);
      r.Ok? ==> s.pay.payouts[r.value].status != P.Refunded
  }

  /** H4: a verifier claim names an attempt that was enqueued. */
  predicate ClaimIsEnqueued(s: Db, e: Step) {
    e.VerifierClaim? ==> W.ClaimIsEnqueued(s.work, e.submission, e.attempt)
  }

  /** H5: a verifier claim does not name an attempt whose verdict is in. */
  predicate ClaimIsOpen(s: Db, e: Step) {
    e.VerifierClaim? ==> W.ClaimIsOpen(s.work, e.submission, e.attempt)
  }

  // ----- what H4 and H5 are needed for -----

  /** H6: a pass lands on a submission that has no payout yet. */
  predicate PassIsFirst(s: Db, e: Step) {
    PassIsPaid(s, e) ==> e.submission !in s.pay.bySubmission
  }

  /** Another submission of the same job has a payout. */
  predicate OtherIsPaid(s: Db, x: nat)
    requires x < |s.work.submissions|
  {
    exists y :: y in s.pay.bySubmission && y != x && y < |s.work.submissions|
                && s.work.submissions[y].job == s.work.submissions[x].job
  }

  /** H7: a pass creates no payout for a job that has one for another submission. */
  predicate JobIsPaidOnce(s: Db, e: Step) {
    PassIsPaid(s, e) && e.submission !in s.pay.bySubmission ==> !OtherIsPaid(s, e.submission)
  }

  /** H8: a verdict neither reopens a job that is over nor ends one that has no submission. */
  predicate VerdictIsInOrder(s: Db, e: Step) {
    Taken(s, e) ==> W.MayTakeVerdict(s.work, e.submission, e.verdict)
  }

  /** H9: a pass leaves the Proofwork fee of a payout that was refunded as it is. */
  predicate FeeStays(s: Db, e: Step) {
    PassIsPaid(s, e) && e.submission in s.pay.bySubmission && s.pay.bySubmission[e.submission] < |s.pay.payouts| ==>
      var row := s.pay.payouts[s.pay.bySubmission[e.submission]];
      row.status == P.Refunded ==> SplitOf(row.amount, e.rates).proofworkFee == row.split.proofworkFee
  }

  /**
   Which of them a run is asked to meet. (H3 holds of every run: no break-glass step exists.)
   In the runs of a deployment H4 entails H7, H4 and H5 entail H6 and H8, and H6 entails H9.
   */
  datatype Hypotheses = Hypotheses(
    h1: bool, h2: bool, h4: bool, h5: bool, h6: bool, h7: bool, h8: bool, h9: bool)

  const NO_HYPOTHESIS := Hypotheses(false, false, false, false, false, false, false, false)
  const H2_ONLY := NO_HYPOTHESIS.(h2 := true)
  const H4_ONLY := NO_HYPOTHESIS.(h4 := true)
  const H4_H5 := NO_HYPOTHESIS.(h4 := true, h5 := true)
  const H6_ONLY := NO_HYPOTHESIS.(h6 := true)
  const H7_ONLY := NO_HYPOTHESIS.(h7 := true)
  const H8_ONLY := NO_HYPOTHESIS.(h8 := true)
  const H9_ONLY := NO_HYPOTHESIS.(h9 := true)
  const H2_H9 := NO_HYPOTHESIS.(h2 := true, h9 := true)
  const H1_H2_H7_H9 := NO_HYPOTHESIS.(h1 := true, h2 := true, h7 := true, h9 := true)
  const ALL := Hypotheses(true, true, true, true, true, true, true, true)

  predicate Meets(h: Hypotheses, s: Db, e: Step) {
    && (h.h1 ==> ReservationOpen(s, e))
    && (h.h2 ==> DisputeIsFirst(s, e))
    && (h.h4 ==> ClaimIsEnqueued(s, e))
    && (h.h5 ==> ClaimIsOpen(s, e))
    && (h.h6 ==> PassIsFirst(s, e))
    && (h.h7 ==> JobIsPaidOnce(s, e))
    && (h.h8 ==> VerdictIsInOrder(s, e))
    && (h.h9 ==> FeeStays(s, e))
  }

  /** Every step of the run meets the hypotheses where it is taken. */
  ghost predicate RunUnder(h: Hypotheses, s: Db, steps: seq<Step>)
    decreases |steps|
  {
    steps == [] || (Meets(h, s, steps[0]) && RunUnder(h, Next(s, steps[0]), steps[1..]))
  }

  /** The state is reached from empty tables by a run that meets the hypotheses. */
  ghost predicate Reachable(h: Hypotheses, s: Db, d: Deployment) {
    exists steps :: RunUnder(h, Start(d), steps) && Run(Start(d), steps) == s
  }

  // ----- runs -----

  /** k asks for all that h asks for. */
  predicate AsksMore(k: Hypotheses, h: Hypotheses) {
    && (h.h1 ==> k.h1) && (h.h2 ==> k.h2) && (h.h4 ==> k.h4) && (h.h5 ==> k.h5)
    && (h.h6 ==> k.h6) && (h.h7 ==> k.h7) && (h.h8 ==> k.h8) && (h.h9 ==> k.h9)
  }

  lemma {:induction false} RunUnderLess(k: Hypotheses, h: Hypotheses, s: Db, steps: seq<Step>)
    requires AsksMore(k, h) && RunUnder(k, s, steps)
    ensures RunUnder(h, s, steps)
    decreases |steps|
  {
    hide Next, ReservationOpen, DisputeIsFirst, ClaimIsEnqueued, ClaimIsOpen, PassIsFirst, JobIsPaidOnce,
         VerdictIsInOrder, FeeStays;
    if steps != [] {
      RunUnderLess(k, h, Next(s, steps[0]), steps[1..]);
    }
  }

  lemma ReachableUnderLess(k: Hypotheses, h: Hypotheses, s: Db, d: Deployment)
    requires AsksMore(k, h) && Reachable(k, s, d)
    ensures Reachable(h, s, d)
  {
    hide Next, Run, RunUnder, AsksMore;
    var steps :| RunUnder(k, Start(d), steps) && Run(Start(d), steps) == s;
    RunUnderLess(k, h, Start(d), steps);
  }

  /** Any run at all meets no hypothesis. */
  lemma {:induction false} RunUnderNone(s: Db, steps: seq<Step>)
    ensures RunUnder(NO_HYPOTHESIS, s, steps)
    decreases |steps|
  {
    hide Next;
    if steps != [] {
      RunUnderNone(Next(s, steps[0]), steps[1..]);
    }
  }

  lemma {:induction false} RunOn(h: Hypotheses, s: Db, steps: seq<Step>, more: seq<Step>)
    requires RunUnder(h, s, steps) && RunUnder(h, Run(s, steps), more)
    ensures RunUnder(h, s, steps + more) && Run(s, steps + more) == Run(Run(s, steps), more)
    decreases |steps|
  {
    hide Next, Meets;
    if steps == [] {
      assert steps + more == more;
    } else {
      assert (steps + more)[0] == steps[0] && (steps + more)[1..] == steps[1..] + more;
      RunOn(h, Next(s, steps[0]), steps[1..], more);
    }
  }

  lemma ReachableRunsOn(h: Hypotheses, s: Db, d: Deployment, more: seq<Step>)
    requires Reachable(h, s, d) && RunUnder(h, s, more)
    ensures Reachable(h, Run(s, more), d)
  {
    hide Next, Meets;
    var steps :| RunUnder(h, Start(d), steps) && Run(Start(d), steps) == s;
    hide Run, RunUnder, Start;
    RunOn(h, Start(d), steps, more);
  }

  lemma StepFirst(h: Hypotheses, s: Db, e: Step, more: seq<Step>)
    requires Meets(h, s, e) && RunUnder(h, Next(s, e), more)
    ensures RunUnder(h, s, [e] + more) && Run(s, [e] + more) == Run(Next(s, e), more)
  {
    hide Next, Meets;
    assert ([e] + more)[0] == e && ([e] + more)[1..] == more;
  }

  lemma NoStep(h: Hypotheses, s: Db)
    ensures RunUnder(h, s, []) && Run(s, []) == s
  {
  }

  lemma OneStep(h: Hypotheses, s: Db, e: Step)
    requires Meets(h, s, e)
    ensures RunUnder(h, s, [e]) && Run(s, [e]) == Next(s, e)
  {
    hide Next, Meets;
    NoStep(h, Next(s, e));
    StepFirst(h, s, e, []);
    assert [e] + [] == [e];
  }

  lemma StartIsReachable(h: Hypotheses, d: Deployment)
    ensures Reachable(h, Start(d), d)
  {
    hide Next;
    NoStep(h, Start(d));
  }

  lemma ReachableStep(h: Hypotheses, s: Db, d: Deployment, e: Step)
    requires Reachable(h, s, d) && Meets(h, s, e)
    ensures Reachable(h, Next(s, e), d)
  {
    hide Next, Meets, Reachable;
    OneStep(h, s, e);
    ReachableRunsOn(h, s, d, [e]);
  }
}
