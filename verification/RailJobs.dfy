/**
 Jobs move on in order, a worker has one active job and open jobs stay within their
 quota, as long as no verdict reopens a job that is over or ends one that has no
 submission (H8). Leases and their nonces need no hypothesis.
 */
module RailJobs {
  import opened Rail
  import opened RailSteps
  import F = RailFunds
  import W = Work
  import P = Pay
  import L = Ledger

  // ----- how a job moves on -----

  /** A later version of a job: a lease is the same one or younger than nonce next; under H8 over stays over. */
  predicate JobFollows(h: Hypotheses, was: W.Job, later: W.Job, next: nat) {
    && later.bounty == was.bounty
    && (later.lease == was.lease || later.lease.None? || later.lease.value.nonce >= next)
    && (h.h8 && was.status in {W.Done, W.Expired} ==> later.status == was.status)
    && (h.h8 && was.current.Some? ==> later.current == was.current)
  }

  ghost predicate WorkFollows(h: Hypotheses, t: W.Tables, t1: W.Tables) {
    && |t.jobs| <= |t1.jobs|
    && (forall j :: 0 <= j < |t.jobs| ==> JobFollows(h, t.jobs[j], t1.jobs[j], t.nextNonce))
    && KeepsSubmissions(t, t1)
    && t.nextNonce <= t1.nextNonce
    && t1.maxAttempts == t.maxAttempts
  }

  lemma WorkFollowsOn(h: Hypotheses, a: W.Tables, b: W.Tables, c: W.Tables)
    requires WorkFollows(h, a, b) && WorkFollows(h, b, c)
    ensures WorkFollows(h, a, c)
  {
    forall j | 0 <= j < |a.jobs|
      ensures JobFollows(h, a.jobs[j], c.jobs[j], a.nextNonce)
    {
      assert JobFollows(h, a.jobs[j], b.jobs[j], a.nextNonce) && JobFollows(h, b.jobs[j], c.jobs[j], b.nextNonce);
    }
  }

  lemma SameWork(h: Hypotheses, t: W.Tables)
    ensures WorkFollows(h, t, t)
  {
  }

  lemma ClaimJobFollows(h: Hypotheses, t: W.Tables, worker: nat, j: nat, stale: bool, now: int)
    ensures WorkFollows(h, t, W.ClaimJob(t, worker, j, stale, now).t)
  {
  }

  lemma ReleaseJobFollows(h: Hypotheses, t: W.Tables, worker: nat, j: nat, nonce: nat)
    ensures WorkFollows(h, t, W.ReleaseJob(t, worker, j, nonce).t)
  {
  }

  lemma ReapFollows(h: Hypotheses, t: W.Tables, now: int)
    ensures WorkFollows(h, t, W.Reap(t, now))
  {
  }

  lemma SubmitFollows(h: Hypotheses, t: W.Tables, worker: nat, j: nat, req: W.Request, now: int)
    requires h.h8 ==> W.Jobs(t)
    ensures WorkFollows(h, t, W.Submit(t, worker, j, req, now).t)
  {
    if h.h8 && W.Submit(t, worker, j, req, now).t != t {
      W.SubmitFindsClaimed(t, worker, j, req, now);
    }
    SameWork(h, t);
    hide W.Jobs, W.Resume, W.SubmitFresh, WorkFollows;
    if W.Submit(t, worker, j, req, now).t != t {
      if W.KnownKey(t, worker, j, req.key) {
        ResumeFollows(h, t, j, t.byKey[(j, worker, req.key)], req);
      } else {
        FreshFollows(h, t, worker, j, req);
      }
    }
  }

  lemma ResumeFollows(h: Hypotheses, t: W.Tables, j: nat, x: nat, req: W.Request)
    requires j < |t.jobs| && x < |t.submissions|
    requires h.h8 ==> t.jobs[j].status == W.Claimed && t.jobs[j].current.None?
    ensures WorkFollows(h, t, W.Resume(t, j, x, req).t)
  {
  }

  lemma FreshFollows(h: Hypotheses, t: W.Tables, worker: nat, j: nat, req: W.Request)
    requires j < |t.jobs|
    requires h.h8 ==> t.jobs[j].status == W.Claimed && t.jobs[j].current.None?
    ensures WorkFollows(h, t, W.SubmitFresh(t, worker, j, req).t)
  {
  }

  lemma VerifierClaimFollows(h: Hypotheses, t: W.Tables, x: nat, n: nat, ttl: int, now: int)
    ensures WorkFollows(h, t, W.VerifierClaim(t, x, n, ttl, now).t)
  {
  }

  lemma TakeVerdictFollows(h: Hypotheses, t: W.Tables, x: nat, n: nat, v: W.Verdict)
    requires W.HasAttempt(t, x, n) && x < |t.submissions| && t.submissions[x].job < |t.jobs|
    requires h.h8 ==> W.MayTakeVerdict(t, x, v)
    ensures WorkFollows(h, t, W.TakeVerdict(t, x, n, v).t)
  {
    W.TakeVerdictRequeues(t, x, n, v);
    hide W.MaxAttempt, W.Requeues;
  }

  lemma PublishFollows(h: Hypotheses, s: Db, b: nat)
    ensures DoPublish(s, b).Ok? ==> WorkFollows(h, s.work, DoPublish(s, b).value.work)
  {
    hide L.Publish;
  }

  lemma VerdictFollows(h: Hypotheses, s: Db, e: Step)
    requires e.GiveVerdict? && (h.h8 ==> VerdictIsInOrder(s, e))
    ensures WorkFollows(h, s.work, Next(s, e).work)
  {
    hide WorkFollows, Next, W.TakeVerdict, Taken;
    if Taken(s, e) {
      TakenStep(s, e);
      TakeVerdictFollows(h, s.work, e.submission, e.attempt, e.verdict);
    } else {
      RefusedStep(s, e);
      SameWork(h, s.work);
    }
  }

  lemma WorkStepFollows(h: Hypotheses, s: Db, e: Step)
    requires h.h8 ==> W.Jobs(s.work) && VerdictIsInOrder(s, e)
    ensures WorkFollows(h, s.work, Next(s, e).work)
  {
    hide WorkFollows, VerdictIsInOrder, W.Jobs, DoVerdict, DoPublish, W.ClaimJob, W.ReleaseJob, W.Reap, W.Submit,
         W.VerifierClaim;
    if IsWorkStep(e) {
      match e
      case ClaimJob(worker, j, stale) => ClaimJobFollows(h, s.work, worker, j, stale, s.now);
      case ReleaseJob(worker, j, nonce) => ReleaseJobFollows(h, s.work, worker, j, nonce);
      case Reap => ReapFollows(h, s.work, s.now);
      case Submit(worker, j, req) => SubmitFollows(h, s.work, worker, j, req, s.now);
      case VerifierClaim(x, n, ttl) => VerifierClaimFollows(h, s.work, x, n, ttl, s.now);
      case GiveVerdict(_, _, _, _, _) => VerdictFollows(h, s, e);
      case Publish(b) =>
        PublishFollows(h, s, b);
        SameWork(h, s.work);
    } else {
      OthersKeepWork(s, e);
      SameWork(h, s.work);
    }
  }

  // ----- nonces -----

  /** A lease has a nonce that was handed out. */
  ghost predicate Nonces(t: W.Tables) {
    forall j :: 0 <= j < |t.jobs| && t.jobs[j].lease.Some? ==> t.jobs[j].lease.value.nonce < t.nextNonce
  }

  lemma VerdictKeepsLeases(t: W.Tables, x: nat, n: nat, v: W.Verdict)
    requires Nonces(t) && W.HasAttempt(t, x, n) && x < |t.submissions| && t.submissions[x].job < |t.jobs|
    ensures Nonces(W.TakeVerdict(t, x, n, v).t)
  {
    hide W.MaxAttempt;
  }

  lemma StepKeepsNonces(s: Db, e: Step)
    requires Nonces(s.work)
    ensures Nonces(Next(s, e).work)
  {
    if e.GiveVerdict? {
      hide Next, Nonces;
      if Taken(s, e) {
        TakenStep(s, e);
        VerdictKeepsLeases(s.work, e.submission, e.attempt, e.verdict);
      } else {
        RefusedStep(s, e);
      }
    } else if !IsWorkStep(e) {
      OthersKeepWork(s, e);
      hide Next;
    }
    hide L.Publish;
  }

  lemma {:induction false} RunKeepsNonces(s: Db, steps: seq<Step>)
    requires Nonces(s.work)
    ensures Nonces(Run(s, steps).work)
    decreases |steps|
  {
    hide Nonces, Next;
    if steps != [] {
      StepKeepsNonces(s, steps[0]);
      RunKeepsNonces(Next(s, steps[0]), steps[1..]);
    }
  }

  // ----- the invariant under H8 -----

  ghost predicate WithinOpenJobs(s: Db, org: nat) {
    var limit := L.LimitsOf(s.ledger, org).maxOpenJobs;
    limit.Some? ==> OpenJobs(s, org) <= limit.value
  }

  /** A job whose submission has a payout is over. */
  ghost predicate PaidJobsDone(s: Db) {
    forall x :: x in s.pay.bySubmission ==>
      && x < |s.work.submissions|
      && s.work.submissions[x].job < |s.work.jobs|
      && s.work.jobs[s.work.submissions[x].job].status == W.Done
  }

  ghost predicate InOrder(s: Db) {
    && W.Orderly(s.work, s.now)
    && PaidJobsDone(s)
    && forall org: nat :: WithinOpenJobs(s, org)
  }

  lemma InOrderParts(s: Db)
    requires InOrder(s)
    ensures W.Orderly(s.work, s.now) && W.Jobs(s.work) && PaidJobsDone(s)
    ensures forall org: nat :: WithinOpenJobs(s, org)
  {
  }

  /** What a step on the work tables leaves to be shown. */
  lemma WorkKeeps(s: Db, t1: W.Tables)
    requires InOrder(s) && WorkFollows(H8_ONLY, s.work, t1) && |t1.jobs| == |s.work.jobs| && W.Orderly(t1, s.now)
    ensures InOrder(s.(work := t1))
  {
    var s1 := s.(work := t1);
    hide W.Orderly, WorkFollows;
    forall org: nat
      ensures WithinOpenJobs(s1, org)
    {
      assert WithinOpenJobs(s, org);
      FewerAreOpen(s, t1, org);
    }
    PaidStayDone(s, t1);
  }

  lemma FewerAreOpen(s: Db, t1: W.Tables, org: nat)
    requires WorkFollows(H8_ONLY, s.work, t1) && |t1.jobs| == |s.work.jobs|
    ensures OpenJobs(s.(work := t1), org) <= OpenJobs(s, org)
  {
    var scope := W.OpenIn(BountiesOf(s.ledger.bounties, org));
    forall j | 0 <= j < |t1.jobs| && W.Within(scope, t1.jobs[j])
      ensures W.Within(scope, s.work.jobs[j])
    {
      assert JobFollows(H8_ONLY, s.work.jobs[j], t1.jobs[j], s.work.nextNonce);
      assert s.work.jobs[j].status != W.Done && s.work.jobs[j].status != W.Expired;
    }
    W.CountAgrees(t1.jobs, s.work.jobs, scope, scope);
  }

  lemma PaidStayDone(s: Db, t1: W.Tables)
    requires PaidJobsDone(s) && WorkFollows(H8_ONLY, s.work, t1)
    ensures PaidJobsDone(s.(work := t1))
  {
    forall x | x in s.pay.bySubmission
      ensures x < |t1.submissions| && t1.submissions[x].job < |t1.jobs|
              && t1.jobs[t1.submissions[x].job].status == W.Done
    {
      var j := s.work.submissions[x].job;
      assert JobFollows(H8_ONLY, s.work.jobs[j], t1.jobs[j], s.work.nextNonce);
    }
  }

  /** The other tables may change as long as bounties and limits stay and no job gets its first payout. */
  lemma RestKeeps(s: Db, s1: Db)
    requires InOrder(s) && s1.work == s.work && s.now <= s1.now
    requires s1.pay.bySubmission.Keys == s.pay.bySubmission.Keys
    requires SameBounties(s.ledger, s1.ledger)
    ensures InOrder(s1)
  {
    W.ActiveShrinks(s.work, s.work, s.now, s1.now);
    forall org: nat
      ensures WithinOpenJobs(s1, org)
    {
      assert WithinOpenJobs(s, org);
      assert BountiesOf(s1.ledger.bounties, org) == BountiesOf(s.ledger.bounties, org);
    }
  }

  lemma CreateBountyKeeps(s: Db, row: L.Bounty)
    requires InOrder(s) && F.Owned(s)
    ensures InOrder(s.(ledger := L.CreateBounty(s.ledger, row)))
  {
    var s1 := s.(ledger := L.CreateBounty(s.ledger, row));
    hide W.Orderly, F.PayoutOwned, F.DisputeOwned, F.JobsGenerated;
    forall org: nat
      ensures WithinOpenJobs(s1, org)
    {
      assert WithinOpenJobs(s, org);
      W.CountAgrees(s.work.jobs, s.work.jobs, W.OpenIn(BountiesOf(s1.ledger.bounties, org)),
                    W.OpenIn(BountiesOf(s.ledger.bounties, org)));
    }
  }

  lemma PublishKeeps(s: Db, b: nat)
    requires InOrder(s) && DoPublish(s, b).Ok?
    ensures InOrder(DoPublish(s, b).value)
  {
    var s1 := DoPublish(s, b).value;
    InOrderParts(s);
    PublishRows(s, b);
    var n := |s1.work.jobs| - |s.work.jobs|;
    hide DoPublish, InOrder, W.Orderly;
    QuotaAfterPublish(s, s1, b, n);
    W.AddJobsKeepsOrder(s.work, b, n, s.now);
    PaidStayDone(s, s1.work);
    hide WithinOpenJobs, PaidJobsDone;
    Together(s1);
  }

  lemma PublishRows(s: Db, b: nat)
    requires DoPublish(s, b).Ok?
    ensures b < |s.ledger.bounties|
    ensures var s1 := DoPublish(s, b).value;
            var org, n := s.ledger.bounties[b].org, |s1.work.jobs| - |s.work.jobs|;
            && n >= 0 && s1.work == W.AddJobs(s.work, b, n) && s1.pay == s.pay && s1.now == s.now
            && s1.ledger.orgs == s.ledger.orgs
            && s1.ledger.bounties == s.ledger.bounties[b := s.ledger.bounties[b].(status := L.Published)]
            && WorkFollows(H8_ONLY, s.work, s1.work)
            && (n > 0 ==> !L.Exceeds(OpenJobs(s, org), n, L.LimitsOf(s.ledger, org).maxOpenJobs))
  {
    hide OpenJobs, JobsOf, L.Spent;
  }

  lemma QuotaAfterPublish(s: Db, s1: Db, b: nat, n: nat)
    requires (forall org: nat :: WithinOpenJobs(s, org)) && b < |s.ledger.bounties|
    requires s1.work.jobs == s.work.jobs + seq(n, _ => W.NewJob(b)) && s1.ledger.orgs == s.ledger.orgs
    requires s1.ledger.bounties == s.ledger.bounties[b := s.ledger.bounties[b].(status := L.Published)]
    requires var org := s.ledger.bounties[b].org;
             n > 0 ==> !L.Exceeds(OpenJobs(s, org), n, L.LimitsOf(s.ledger, org).maxOpenJobs)
    ensures forall org: nat :: WithinOpenJobs(s1, org)
  {
    forall org: nat
      ensures WithinOpenJobs(s1, org)
    {
      assert WithinOpenJobs(s, org);
      assert BountiesOf(s1.ledger.bounties, org) == BountiesOf(s.ledger.bounties, org);
      W.CountNew(s.work.jobs, b, n, W.OpenIn(BountiesOf(s.ledger.bounties, org)));
    }
  }

  // ----- every step, every run -----

  lemma WorkStepInOrder(s: Db, e: Step)
    requires W.Orderly(s.work, s.now) && VerdictIsInOrder(s, e) && IsWorkStep(e) && !e.Publish?
    ensures W.Orderly(Next(s, e).work, s.now) && |Next(s, e).work.jobs| == |s.work.jobs|
    ensures !e.GiveVerdict? ==> Next(s, e) == s.(work := Next(s, e).work)
  {
    hide W.Orderly, VerdictIsInOrder, W.ClaimJob, W.ReleaseJob, W.Submit, W.VerifierClaim, DoVerdict;
    match e
    case ClaimJob(worker, j, stale) =>
      ClaimJobFollows(H8_ONLY, s.work, worker, j, stale, s.now);
      W.ClaimJobKeepsOrder(s.work, worker, j, stale, s.now);
      SameNumber(s, e);
    case ReleaseJob(worker, j, nonce) =>
      W.ReleaseJobKeepsOrder(s.work, worker, j, nonce, s.now);
      SameNumber(s, e);
    case Reap => W.ReapKeepsOrder(s.work, s.now);
    case Submit(worker, j, req) =>
      W.SubmitKeepsOrder(s.work, worker, j, req, s.now);
      SameNumber(s, e);
    case VerifierClaim(x, n, ttl) =>
      W.VerifierClaimKeepsOrder(s.work, x, n, ttl, s.now);
      SameNumber(s, e);
    case GiveVerdict(_, _, _, _, _) => VerdictInOrder(s, e);
  }

  lemma SameNumber(s: Db, e: Step)
    requires e.ClaimJob? || e.ReleaseJob? || e.Submit? || e.VerifierClaim?
    ensures |Next(s, e).work.jobs| == |s.work.jobs|
  {
  }

  lemma VerdictInOrder(s: Db, e: Step)
    requires e.GiveVerdict? && W.Orderly(s.work, s.now) && VerdictIsInOrder(s, e)
    ensures W.Orderly(Next(s, e).work, s.now) && |Next(s, e).work.jobs| == |s.work.jobs|
  {
    hide W.Orderly, Next, Taken, W.TakeVerdict;
    if Taken(s, e) {
      TakenStep(s, e);
      VerdictKeepsNumber(s.work, e.submission, e.attempt, e.verdict);
      W.TakeVerdictKeepsOrder(s.work, e.submission, e.attempt, e.verdict, s.now);
    } else {
      RefusedStep(s, e);
    }
  }

  lemma VerdictKeepsNumber(t: W.Tables, x: nat, n: nat, v: W.Verdict)
    requires W.HasAttempt(t, x, n) && x < |t.submissions| && t.submissions[x].job < |t.jobs|
    ensures |W.TakeVerdict(t, x, n, v).t.jobs| == |t.jobs|
  {
    hide W.MaxAttempt;
  }

  /** The pass that gets a payout has just ended its job. */
  lemma PaidNowDone(s: Db, e: Step)
    requires e.GiveVerdict? && InOrder(s.(work := Next(s, e).work))
    ensures InOrder(Next(s, e))
  {
    InOrderParts(s.(work := Next(s, e).work));
    NewPaidDone(s, e);
    OthersKeepLedger(s, e);
    OnlyTicksTakeTime(s, e);
    hide InOrder, Next, W.Orderly, PaidJobsDone, WithinOpenJobs;
    SameQuota(s.(work := Next(s, e).work), Next(s, e));
    Together(Next(s, e));
  }

  lemma Together(s: Db)
    requires W.Orderly(s.work, s.now) && PaidJobsDone(s) && forall org: nat :: WithinOpenJobs(s, org)
    ensures InOrder(s)
  {
  }

  lemma NewPaidDone(s: Db, e: Step)
    requires e.GiveVerdict? && PaidJobsDone(s.(work := Next(s, e).work))
    ensures PaidJobsDone(Next(s, e))
  {
    hide Next, Taken, W.TakeVerdict;
    if Next(s, e).pay != s.pay {
      VerdictPay(s, e);
      TakenStep(s, e);
      PassCompletes(s.work, e.submission, e.attempt);
      PassAddsKey(s, e);
    }
  }

  lemma SameQuota(s: Db, s1: Db)
    requires forall org: nat :: WithinOpenJobs(s, org)
    requires s1.work == s.work && s1.ledger == s.ledger
    ensures forall org: nat :: WithinOpenJobs(s1, org)
  {
    forall org: nat
      ensures WithinOpenJobs(s1, org)
    {
      assert WithinOpenJobs(s, org);
    }
  }

  ghost predicate SameBounties(l: L.Tables, l1: L.Tables) {
    && l1.orgs == l.orgs && |l1.bounties| == |l.bounties|
    && forall b :: 0 <= b < |l.bounties| ==> l1.bounties[b].org == l.bounties[b].org
  }

  lemma ResolveKeepsBounties(s: Db, d: nat, r: P.Resolution)
    ensures DoResolve(s, d, r).Ok? ==> SameBounties(s.ledger, DoResolve(s, d, r).value.ledger)
  {
    hide P.Refund, P.Free;
  }

  /** What the steps on other tables do to bounties and limits. */
  lemma OthersKeepBounties(s: Db, e: Step)
    requires !IsWorkStep(e) && !e.CreateBounty?
    ensures SameBounties(s.ledger, Next(s, e).ledger)
  {
    if e.ResolveDispute? {
      ResolveKeepsBounties(s, e.dispute, e.resolution);
    } else if e.HandleRefund? {
      ResolveKeepsBounties(s, e.dispute, P.ToRefund);
    }
    hide DoResolve, Committed, ResolveTarget, P.OpenDispute, MayClaim;
  }

  lemma StepKeepsOrder(s: Db, e: Step)
    requires InOrder(s) && F.Owned(s) && VerdictIsInOrder(s, e)
    ensures InOrder(Next(s, e))
  {
    hide InOrder, F.Owned, Next, VerdictIsInOrder, W.Orderly, DoPublish;
    InOrderParts(s);
    if e.Publish? {
      PublishIs(s, e.bounty);
      if DoPublish(s, e.bounty).Ok? {
        PublishKeeps(s, e.bounty);
      }
    } else if e.CreateBounty? {
      CreateIs(s, e.row);
      CreateBountyKeeps(s, e.row);
    } else if IsWorkStep(e) {
      WorkStepFollows(H8_ONLY, s, e);
      WorkStepInOrder(s, e);
      WorkKeeps(s, Next(s, e).work);
      if e.GiveVerdict? {
        PaidNowDone(s, e);
      }
    } else {
      OthersKeepWork(s, e);
      OthersKeepIndex(s, e);
      OnlyTicksTakeTime(s, e);
      OthersKeepBounties(s, e);
      RestKeeps(s, Next(s, e));
    }
  }

  lemma {:induction false} RunKeepsOrder(s: Db, steps: seq<Step>, opening: map<nat, nat>)
    requires InOrder(s) && F.Funds(s, opening) && RunUnder(H8_ONLY, s, steps)
    ensures InOrder(Run(s, steps)) && F.Funds(Run(s, steps), opening)
    decreases |steps|
  {
    hide InOrder, F.Funds, Next, VerdictIsInOrder;
    if steps != [] {
      F.FundsParts(s, opening);
      StepKeepsOrder(s, steps[0]);
      F.StepKeepsFunds(s, steps[0], opening);
      RunKeepsOrder(Next(s, steps[0]), steps[1..], opening);
    }
  }

  lemma StartIsInOrder(d: Deployment)
    ensures InOrder(Start(d)) && Nonces(Start(d).work)
  {
  }

  lemma ReachableIsInOrder(s: Db, d: Deployment)
    requires Reachable(H8_ONLY, s, d)
    ensures InOrder(s) && W.Orderly(s.work, s.now) && PaidJobsDone(s)
  {
    var steps :| RunUnder(H8_ONLY, Start(d), steps) && Run(Start(d), steps) == s;
    StartIsInOrder(d);
    F.StartFunds(d);
    RunKeepsOrder(Start(d), steps, d.opening);
    InOrderParts(s);
  }
}
