/**
 The tables as one object that the transactions and handlers change in place, row by
 row, in the order the code writes them. Each method is proved to do what the step of
 the state machine does, so every run of the object is a run of the state machine.
 */
module Store {
  import opened Common
  import opened Calendar
  import opened FeeSplit
  import R = Rail
  import B = RailBudget
  import N = RailOnce
  import T = RailResults
  import O = Outbox
  import W = Work
  import P = Pay
  import L = Ledger

  /** A pass that ends the job is to be paid for. */
  predicate PassEndsJob(s: R.Db, x: nat, reply: W.Reply, v: W.Verdict) {
    && reply == W.Completed && v == W.Pass
    && x < |s.work.submissions| && s.work.submissions[x].job < |s.work.jobs|
    && s.work.jobs[s.work.submissions[x].job].bounty < |s.ledger.bounties|
  }

  /** It is, unless the rates are illegal and creating the payout throws. */
  function PayAfterVerdict(s: R.Db, x: nat, reply: W.Reply, v: W.Verdict, rates: Rates): P.Tables {
    if PassEndsJob(s, x, reply, v) && rates.Valid() then
      var b := s.work.jobs[s.work.submissions[x].job].bounty;
      P.RequestPayout(s.pay, x, b, s.work.submissions[x].worker, s.ledger.bounties[b].payoutCents,
                      s.ledger.bounties[b].windowSec, rates, s.now)
    else s.pay
  }

  lemma VerdictByTable(s: R.Db, x: nat, n: nat, token: nat, v: W.Verdict, rates: Rates)
    ensures var out := W.GiveVerdict(s.work, x, n, token, v, s.now);
            R.DoVerdict(s, x, n, token, v, rates)
            == s.(work := out.t, pay := PayAfterVerdict(s, x, out.reply, v, rates))
  {
    hide W.TakeVerdict, P.RequestPayout;
  }

  /** The submission, its worker, its job and the job's bounty are as they were. */
  predicate SameLinks(t: W.Tables, t1: W.Tables, x: nat) {
    && x < |t.submissions| && x < |t1.submissions|
    && t1.submissions[x].worker == t.submissions[x].worker && t1.submissions[x].job == t.submissions[x].job
    && t.submissions[x].job < |t.jobs| && t1.submissions[x].job < |t1.jobs|
    && t1.jobs[t1.submissions[x].job].bounty == t.jobs[t.submissions[x].job].bounty
  }

  lemma TakeKeepsLinks(t: W.Tables, x: nat, n: nat, v: W.Verdict)
    requires W.HasAttempt(t, x, n) && x < |t.submissions| && t.submissions[x].job < |t.jobs|
    ensures SameLinks(t, W.TakeVerdict(t, x, n, v).t, x)
  {
    hide W.MaxAttempt;
  }

  /** A refund is credited to the buyer. */
  function BooksAfterResolve(s: R.Db, d: nat, refunded: bool): L.Tables {
    if refunded && d < |s.pay.disputes| && s.pay.disputes[d].payout < |s.pay.payouts| then
      var row := s.pay.disputes[d];
      L.Credit(s.ledger, row.org, row.bounty, row.payout, P.RefundCents(s.pay.payouts[row.payout]), s.now)
    else s.ledger
  }

  lemma ResolveByTable(s: R.Db, d: nat, resolution: P.Resolution)
    ensures var done, r := P.ResolveDispute(s.pay, d, resolution, s.now), R.DoResolve(s, d, resolution);
            && r.Ok? == done.Ok?
            && (r.Ok? ==> r.value == s.(pay := done.value.0, ledger := BooksAfterResolve(s, d, done.value.1)))
            && (r.Err? ==> r.error == done.error && BooksAfterResolve(s, d, false) == s.ledger)
  {
    hide P.Refund, P.Free, L.Credit;
  }

  /** What publishBounty does to the books, and the number of jobs it generates. */
  function PublishResult(s: R.Db, b: nat): Result<(L.Tables, nat), L.LedgerError> {
    var org := if b < |s.ledger.bounties| then s.ledger.bounties[b].org else 0;
    L.Publish(s.ledger, b, R.OpenJobs(s, org), R.JobsOf(s, b) > 0, s.now)
  }

  /** How many jobs publishing generates: none if there are some already. */
  function OpeningOf(s: R.Db, b: nat): Result<nat, L.LedgerError>
    requires b < |s.ledger.bounties|
  {
    var n := if R.JobsOf(s, b) > 0 then 0 else s.ledger.bounties[b].classes;
    var org := s.ledger.bounties[b].org;
    if n > 0 && L.Exceeds(R.OpenJobs(s, org), n, L.LimitsOf(s.ledger, org).maxOpenJobs)
    then Err(L.OpenJobsExceeded) else Ok(n)
  }

  lemma PublishByPart(s: R.Db, b: nat)
    requires b < |s.ledger.bounties|
    ensures var reserved := L.Reserve(L.EnsureAccount(s.ledger, s.ledger.bounties[b].org), b, s.now);
            PublishResult(s, b) ==
            if reserved.Err? then Err(reserved.error)
            else if OpeningOf(s, b).Err? then Err(OpeningOf(s, b).error)
            else Ok((L.SetStatus(ReservedBooks(s, b, reserved.value), b, L.Published), OpeningOf(s, b).value))
  {
    ReserveKeepsBounties(L.EnsureAccount(s.ledger, s.ledger.bounties[b].org), b, s.now);
    hide L.Exceeds, R.JobsOf, R.OpenJobs, L.Reserve;
  }

  /** The books after the reservation, in which the bounties are what they were. */
  function ReservedBooks(s: R.Db, b: nat, l: L.Tables): (r: L.Tables)
    ensures |r.bounties| == |s.ledger.bounties|
  {
    l.(bounties := s.ledger.bounties)
  }

  lemma ReserveKeepsBounties(l: L.Tables, b: nat, now: nat)
    requires b < |l.bounties| && l.bounties[b].org in l.accounts
    ensures L.Reserve(l, b, now).Ok? ==>
              var l1 := L.Reserve(l, b, now).value; l1.bounties == l.bounties && l1.orgs == l.orgs
  {
    hide L.Exceeds, L.Spent, L.ReserveCents, DayStart, MonthStart;
  }

  lemma OpeningStays(s: R.Db, s1: R.Db, b: nat)
    requires s1.work == s.work && s1.ledger.bounties == s.ledger.bounties && s1.ledger.orgs == s.ledger.orgs
    requires b < |s.ledger.bounties|
    ensures OpeningOf(s1, b) == OpeningOf(s, b)
  {
    hide W.Count, R.BountiesOf, L.Exceeds;
  }

  // ----- the steps by the tables they concern -----

  predicate IsWork(e: R.Step) {
    e.ClaimJob? || e.ReleaseJob? || e.Reap? || e.Submit? || e.VerifierClaim? || e.GiveVerdict?
  }

  function WorkStep(s: R.Db, e: R.Step): R.Db
    requires IsWork(e)
  {
    match e
    case ClaimJob(worker, j, stale) => s.(work := W.ClaimJob(s.work, worker, j, stale, s.now).t)
    case ReleaseJob(worker, j, nonce) => s.(work := W.ReleaseJob(s.work, worker, j, nonce).t)
    case Reap => s.(work := W.Reap(s.work, s.now))
    case Submit(worker, j, req) => s.(work := W.Submit(s.work, worker, j, req, s.now).t)
    case VerifierClaim(x, n, ttl) => s.(work := W.VerifierClaim(s.work, x, n, ttl, s.now).t)
    case GiveVerdict(x, n, token, v, rates) => R.DoVerdict(s, x, n, token, v, rates)
  }

  lemma NextWork(s: R.Db, e: R.Step)
    requires IsWork(e)
    ensures R.Next(s, e) == WorkStep(s, e)
  {
    hide W.ClaimJob, W.ReleaseJob, W.Reap, W.Submit, W.VerifierClaim, R.DoVerdict;
  }

  predicate IsBooks(e: R.Step) {
    e.CreateBounty? || e.Publish? || e.Pause? || e.Close? || e.TopUp? || e.Stripe?
  }

  function BooksStep(s: R.Db, e: R.Step): R.Db
    requires IsBooks(e)
  {
    match e
    case CreateBounty(row) => s.(ledger := L.CreateBounty(s.ledger, row))
    case Publish(b) =>
      var r := PublishResult(s, b);
      if r.Ok? then s.(ledger := r.value.0, work := W.AddJobs(s.work, b, r.value.1)) else s
    case Pause(b) => if b < |s.ledger.bounties| then s.(ledger := L.SetStatus(s.ledger, b, L.Paused)) else s
    case Close(b) =>
      if b < |s.ledger.bounties| then s.(ledger := L.Close(s.ledger, b, R.Committed(s, b), s.now)) else s
    case TopUp(org, cents) =>
      var r := L.TopUp(s.ledger, org, cents, s.now); if r.Ok? then s.(ledger := r.value) else s
    case Stripe(ev) => s.(ledger := L.StripeWebhook(s.ledger, ev, s.now))
  }

  lemma NextBooks(s: R.Db, e: R.Step)
    requires IsBooks(e)
    ensures R.Next(s, e) == BooksStep(s, e)
  {
    hide L.CreateBounty, L.Publish, L.SetStatus, L.Close, L.TopUp, L.StripeWebhook, W.AddJobs, R.Committed, R.OpenJobs,
         R.JobsOf;
  }

  predicate IsDispute(e: R.Step) {
    e.OpenDispute? || e.CancelDispute? || e.ResolveDispute?
  }

  function DisputeStep(s: R.Db, e: R.Step): R.Db
    requires IsDispute(e)
  {
    match e
    case OpenDispute(org, target) => var r := R.DoOpenDispute(s, org, target); if r.Ok? then r.value else s
    case CancelDispute(org, d) =>
      var r := P.CancelDispute(s.pay, org, d, s.now); if r.Ok? then s.(pay := r.value) else s
    case ResolveDispute(d, r) => var res := R.DoResolve(s, d, r); if res.Ok? then res.value else s
  }

  lemma NextDispute(s: R.Db, e: R.Step)
    requires IsDispute(e)
    ensures R.Next(s, e) == DisputeStep(s, e)
  {
    hide R.DoOpenDispute, P.CancelDispute, R.DoResolve;
  }

  predicate IsEvent(e: R.Step) {
    e.HandlePayout? || e.HandleRefund? || e.AckEvent? || e.Crash? || e.Tick?
  }

  function EventStep(s: R.Db, e: R.Step): R.Db
    requires IsEvent(e)
  {
    match e
    case HandlePayout(w, i, rates, walletSet, answer) =>
      s.(pay := P.HandlePayout(s.pay, w, i, rates, walletSet, answer, s.now))
    case HandleRefund(w, d, dbOk) => R.DoHandleRefund(s, w, d, dbOk)
    case AckEvent(w, key) => s.(pay := P.AckEvent(s.pay, w, key, s.now, s.cfg))
    case Crash(w) => s.(pay := s.pay.(box := O.Crash(s.pay.box, w)))
    case Tick(ms) => s.(now := s.now + ms)
  }

  lemma NextEvent(s: R.Db, e: R.Step)
    requires IsEvent(e)
    ensures R.Next(s, e) == EventStep(s, e)
  {
    hide P.HandlePayout, R.DoHandleRefund, P.AckEvent, O.Crash;
  }

  lemma NextClaim(s: R.Db, w: nat, topics: set<string>, limit: nat, batch: seq<P.Key>)
    requires O.Idle(s.pay.box, w)
             && O.OldestFirst(O.ReleaseStale(s.pay.box.rows, s.now, s.cfg), batch, topics, limit, s.now)
    requires forall k :: k in batch ==> k in s.pay.box.rows
    ensures R.Next(s, R.ClaimEvents(w, topics, limit, batch))
            == s.(pay := P.ClaimEvents(s.pay, w, batch, s.now, s.cfg))
  {
    assert R.MayClaim(s, w, topics, limit, batch);
    hide P.ClaimEvents, R.MayClaim;
  }

  /** A worker that is not idle claims nothing. */
  lemma NextBusy(s: R.Db, w: nat, topics: set<string>, limit: nat)
    requires !O.Idle(s.pay.box, w)
    ensures R.Next(s, R.ClaimEvents(w, topics, limit, [])) == s
  {
    hide O.OldestFirst;
  }

  /** What may come in: a worker that polls for events, or any other step. */
  datatype Call = Poll(runner: nat, topics: set<string>, limit: nat) | Do(step: Other)

  type Other = e: R.Step | !e.ClaimEvents? witness R.Reap

  /** The step taken is the one called for; a poll claims the oldest events, within its limit. */
  predicate Answers(call: Call, e: R.Step) {
    match call
    case Poll(runner, topics, limit) =>
      e.ClaimEvents? && e.runner == runner && e.topics == topics && e.limit == limit && |e.batch| <= limit
    case Do(step) => e == step
  }

  predicate AnswersAll(calls: seq<Call>, steps: seq<R.Step>) {
    |steps| == |calls| && forall k :: 0 <= k < |calls| ==> Answers(calls[k], steps[k])
  }

  lemma RunNothing(s: R.Db)
    ensures R.Run(s, []) == s
  {
  }

  lemma {:induction false} RunOneMore(s: R.Db, steps: seq<R.Step>, e: R.Step)
    ensures R.Run(s, steps + [e]) == R.Next(R.Run(s, steps), e)
    decreases |steps|
  {
    hide R.Next;
    if steps == [] {
      assert steps + [e] == [e] && [e][1..] == [];
      RunNothing(R.Next(s, e));
    } else {
      assert (steps + [e])[0] == steps[0] && (steps + [e])[1..] == steps[1..] + [e];
      RunOneMore(R.Next(s, steps[0]), steps[1..], e);
    }
  }

  class Database {
    const cfg: O.Config
    const maxAttempts: int
    const orgs: map<nat, L.Org>

    var now: nat

    var bounties: seq<L.Bounty>
    var accounts: map<nat, int>
    var events: seq<L.BillingEvent>
    var reservations: map<nat, L.Reservation>
    var webhooks: map<string, L.WebhookStatus>

    var jobs: seq<W.Job>
    var submissions: seq<W.Submission>
    var byKey: map<(nat, nat, string), nat>
    var attempts: map<nat, W.Attempts>
    var reputation: map<nat, W.Reputation>
    var nextNonce: nat
    var nextToken: nat

    var payouts: seq<P.Payout>
    var bySubmission: map<nat, nat>
    var disputes: seq<P.Dispute>
    var rows: O.Rows<P.Key>
    var held: map<(nat, P.Key), O.Item>    // the batches of the running workers, not a table

    function Books(): L.Tables
      reads this
    {
      L.Tables(orgs, accounts, events, bounties, reservations, webhooks)
    }

    function Work(): W.Tables
      reads this
    {
      W.Tables(jobs, submissions, byKey, attempts, reputation, nextNonce, nextToken, maxAttempts)
    }

    function Pay(): P.Tables
      reads this
    {
      P.Tables(payouts, bySubmission, disputes, O.Box(rows, held))
    }

    function Db(): R.Db
      reads this
    {
      R.Db(now, cfg, Work(), Pay(), Books())
    }

    constructor (d: R.Deployment)
      ensures Db() == R.Start(d)
    {
      cfg, maxAttempts, orgs, now := d.cfg, d.maxAttempts, d.orgs, d.now;
      bounties, events, reservations, webhooks := [], [], map[], map[];
      accounts := map org | org in d.opening :: d.opening[org];
      jobs, submissions, byKey, attempts, reputation := [], [], map[], map[], map[];
      nextNonce, nextToken := 0, 0;
      payouts, bySubmission, disputes, rows, held := [], map[], [], map[], map[];
      new;
      assert Db().ledger.accounts == R.Start(d).ledger.accounts;
    }

    // ----- jobs -----

    method LeaseJob(j: nat, worker: nat, ttl: int) returns (ok: bool)
      modifies `jobs, `nextNonce
      ensures j < |old(jobs)| ==>
                var out := W.LeaseJob(old(Work()), worker, j, ttl, now);
                Work() == out.t && ok == (out.reply == W.Accept)
      ensures j >= |old(jobs)| ==> !ok && Work() == old(Work())
    {
      if exists i :: 0 <= i < |jobs| && W.HoldsLease(jobs[i], worker) && W.Active(jobs[i], now) {
        return false;
      }
      if j < |jobs| && (jobs[j].status == W.Open || (jobs[j].status == W.Claimed && W.LeasePast(jobs[j], now))) {
        jobs := jobs[j := jobs[j].(status := W.Claimed, lease := Some(W.Lease(worker, now + ttl, nextNonce)))];
        nextNonce := nextNonce + 1;
        return true;
      }
      return false;
    }

    method ClaimJob(worker: nat, j: nat, stale: bool) returns (reply: W.Reply)
      modifies `jobs, `nextNonce
      ensures W.Out(Work(), reply) == W.ClaimJob(old(Work()), worker, j, stale, now)
    {
      if exists i :: 0 <= i < |jobs| && W.HoldsLease(jobs[i], worker) && jobs[i].status in {W.Claimed, W.Verifying} {
        return W.AlreadyClaimed;
      }
      if j >= |jobs| {
        return W.NotFound;
      }
      if stale {
        return W.StaleJob;
      }
      if jobs[j].status != W.Open && !W.LeasePast(jobs[j], now) {
        return W.NotAvailable;
      }
      var ok := LeaseJob(j, worker, W.LEASE_TTL_MS);
      return if ok then W.Accept else W.NotAvailable;
    }

    method ReleaseJobLease(j: nat, worker: nat, nonce: nat) returns (ok: bool)
      modifies `jobs
      ensures Work() == W.ReleaseJob(old(Work()), worker, j, nonce).t
      ensures ok == (W.ReleaseJob(old(Work()), worker, j, nonce).reply == W.Accept)
    {
      if j < |jobs| && jobs[j].lease.Some? {
        var lease := jobs[j].lease.value;
        if lease.worker == worker && lease.nonce == nonce && jobs[j].status == W.Claimed {
          jobs := jobs[j := jobs[j].(status := W.Open, lease := None)];
          return true;
        }
      }
      return false;
    }

    method ReleaseJob(worker: nat, j: nat, nonce: nat) returns (reply: W.Reply)
      modifies `jobs
      ensures W.Out(Work(), reply) == W.ReleaseJob(old(Work()), worker, j, nonce)
    {
      var released := ReleaseJobLease(j, worker, nonce);
      if !released {
        if j >= |jobs| {
          return W.NotFound;
        }
        if jobs[j].lease.None? || jobs[j].lease.value.worker != worker || jobs[j].lease.value.nonce != nonce {
          return W.NotOwner;
        }
        return W.NotAvailable;
      }
      return W.Accept;
    }

    method ReapExpiredLeases() returns (reaped: set<nat>)
      modifies `jobs
      ensures Work() == W.Reap(old(Work()), now)
      ensures forall j :: j in reaped <==> 0 <= j < |old(jobs)| && jobs[j] != old(jobs)[j]
    {
      reaped := set j | 0 <= j < |jobs| && jobs[j].status == W.Claimed && W.LeasePast(jobs[j], now);
      jobs := seq(|jobs|, j requires 0 <= j < |jobs| reads this =>
        if j in reaped then jobs[j].(status := W.Expired, lease := None) else jobs[j]);
    }

    // ----- submitting -----

    method AddVerification(s: nat, n: nat)
      modifies `attempts
      ensures Work() == W.AddAttempt(old(Work()), s, n)
    {
      var rowsOfSubmission := if s in attempts then attempts[s] else map[];
      attempts := attempts[s := rowsOfSubmission[n := W.NEW_ATTEMPT]];
    }

    method AddSubmission(j: nat, worker: nat, req: W.Request) returns (s: nat)
      modifies `submissions, `byKey
      ensures Work() == W.Insert(old(Work()), j, worker, req) && s == |old(submissions)|
    {
      s := |submissions|;
      var status := if req.duplicate then W.Duplicate else W.Submitted;
      submissions := submissions + [W.Submission(j, worker, req.key, req.hash, status)];
      if req.key != "" {
        byKey := byKey[(j, worker, req.key) := s];
      }
    }

    /** Idempotency path 2: the key is known, so whatever the first call left undone is done. */
    method ResumeSubmit(j: nat, s: nat, req: W.Request) returns (reply: W.Reply)
      requires j < |jobs| && s < |submissions|
      modifies `jobs, `attempts
      ensures W.Out(Work(), reply) == W.Resume(old(Work()), j, s, req)
    {
      if submissions[s].hash != req.hash {
        return W.IdempotencyConflict;
      }
      if !req.artifactsOk {
        return W.InvalidArtifact;
      }
      if !(s in attempts && 1 in attempts[s]) {
        AddVerification(s, 1);
      }
      var job := jobs[j];
      if job.status == W.Claimed || job.status == W.Open {
        job := job.(status := W.Verifying, current := Some(s));
      }
      if job.current.None? {
        job := job.(current := Some(s));
      }
      jobs := jobs[j := job];
      return W.Existing;
    }

    method SubmitFresh(worker: nat, j: nat, req: W.Request) returns (reply: W.Reply)
      requires j < |jobs|
      modifies `jobs, `submissions, `byKey, `attempts
      ensures W.Out(Work(), reply) == W.SubmitFresh(old(Work()), worker, j, req)
    {
      if req.stale {
        return W.StaleJob;
      }
      if !req.originOk {
        return W.OriginViolation;
      }
      var s := AddSubmission(j, worker, req);
      if !req.artifactsOk {
        return W.InvalidArtifact;
      }
      var job := jobs[j].(current := Some(s));
      if req.duplicate {
        jobs := jobs[j := job.(status := W.Done, verdict := Some(W.Fail))];
        return W.DuplicateDone;
      }
      AddVerification(s, 1);
      jobs := jobs[j := job.(status := W.Verifying)];
      return W.Accept;
    }

    method Submit(worker: nat, j: nat, req: W.Request) returns (reply: W.Reply)
      modifies `jobs, `submissions, `byKey, `attempts
      ensures W.Out(Work(), reply) == W.Submit(old(Work()), worker, j, req, now)
    {
      if j >= |jobs| {
        return W.NotFound;
      }
      var job := jobs[j];
      if job.lease.None? || job.lease.value.worker != worker {
        return W.NotOwner;
      }
      if job.lease.value.expires < now {
        return W.LeaseExpired;
      }
      if |req.key| > 200 {
        return W.KeyTooLong;
      }
      if job.current.Some? && job.current.value < |submissions| && submissions[job.current.value].worker == worker {
        return W.Existing;
      }
      var key := (j, worker, req.key);
      if req.key != "" && key in byKey && byKey[key] < |submissions| {
        reply := ResumeSubmit(j, byKey[key], req);
      } else {
        reply := SubmitFresh(worker, j, req);
      }
    }

    // ----- verifying -----

    method VerifierClaim(s: nat, n: nat, ttl: int) returns (reply: W.Reply)
      modifies `attempts, `nextToken
      ensures W.Out(Work(), reply) == W.VerifierClaim(old(Work()), s, n, ttl, now)
    {
      if s >= |submissions| {
        return W.NotFound;
      }
      if !(s in attempts && n in attempts[s]) {
        AddVerification(s, n);
      }
      var row := attempts[s][n];
      if row.status == W.InProgress && row.expires > now {
        return W.ClaimedByOther;
      }
      row := row.(status := W.InProgress, token := Some(nextToken), expires := now + ttl);
      nextToken := nextToken + 1;
      var m: W.Attempts := attempts[s][n := row];
      attempts := attempts[s := m];
      return W.Accept;
    }

    method RecordReputation(worker: nat, passed: bool)
      modifies `reputation
      ensures Work() == W.RecordReputation(old(Work()), worker, passed)
    {
      var alpha, beta := 2, 2;
      if worker in reputation {
        alpha, beta := reputation[worker].alpha, reputation[worker].beta;
      }
      if passed {
        alpha := alpha + 1;
      } else {
        beta := beta + 1;
      }
      reputation := reputation[worker := W.Reputation(alpha, beta)];
    }

    /** The rows a verdict is written to before it is decided what comes next. */
    method RecordVerdict(s: nat, n: nat, v: W.Verdict)
      requires s in attempts && n in attempts[s] && s < |submissions| && submissions[s].job < |jobs|
      modifies `attempts, `submissions, `reputation, `jobs
      ensures Work() == W.RecordVerdict(old(Work()), s, n, v)
    {
      attempts := attempts[s := attempts[s][n := attempts[s][n].(status := W.Finished, verdict := Some(v))]];
      var submission := submissions[s];
      submissions := submissions[s := submission.(status := W.StatusFor(v))];
      RecordReputation(submission.worker, v == W.Pass);
      jobs := jobs[submission.job := jobs[submission.job].(verdict := Some(v))];
    }

    /** The verdict is written; then the next attempt is queued or the job is done. */
    method TakeVerdict(s: nat, n: nat, v: W.Verdict) returns (reply: W.Reply)
      requires s in attempts && n in attempts[s] && s < |submissions| && submissions[s].job < |jobs|
      modifies `attempts, `submissions, `reputation, `jobs
      ensures W.Out(Work(), reply) == W.TakeVerdict(old(Work()), s, n, v)
    {
      RecordVerdict(s, n, v);
      var j := submissions[s].job;
      if v == W.Inconclusive {
        var maxAttempt := W.MaxAttempt(attempts[s]);
        if maxAttempt < maxAttempts {
          AddVerification(s, maxAttempt + 1);
          jobs := jobs[j := jobs[j].(status := W.Verifying)];
          return W.Requeued;
        }
      }
      jobs := jobs[j := jobs[j].(status := W.Done)];
      return W.Completed;
    }

    method CheckVerdict(s: nat, n: nat, token: nat) returns (refused: Option<W.Reply>)
      ensures refused == W.VerdictRefused(Work(), s, n, token, now)
      ensures refused.None? ==> s in attempts && n in attempts[s] && s < |submissions| && submissions[s].job < |jobs|
      ensures refused.Some? ==> refused.value != W.Completed
    {
      if !(s in attempts && n in attempts[s]) {
        return Some(W.NotFound);
      }
      var row := attempts[s][n];
      if row.token != Some(token) {
        return Some(W.InvalidClaim);
      }
      if row.status == W.Finished {
        return Some(W.AlreadyFinished);
      }
      if row.expires < now {
        return Some(W.ClaimExpired);
      }
      if s >= |submissions| || submissions[s].job >= |jobs| {
        return Some(W.NotFound);
      }
      return None;
    }

    /**
     The verdict's own transaction, and then the payout's. With illegal rates the second
     throws and the caller sees an error instead of the reply; the first is not undone.
     */
    method GiveVerdict(s: nat, n: nat, token: nat, v: W.Verdict, rates: Rates) returns (reply: W.Reply, threw: bool)
      modifies `attempts, `submissions, `reputation, `jobs, `payouts, `bySubmission, `rows
      ensures W.Out(Work(), reply) == W.GiveVerdict(old(Work()), s, n, token, v, now)
      ensures Pay() == PayAfterVerdict(old(Db()), s, reply, v, rates)
      ensures threw == (PassEndsJob(old(Db()), s, reply, v) && !rates.Valid())
    {
      hide W.VerdictRefused, W.TakeVerdict, PayAfterVerdict, PassEndsJob;
      ghost var was := Db();
      reply := WriteVerdict(s, n, token, v);
      threw := PayForPass(was, s, reply, v, rates);
    }

    method WriteVerdict(s: nat, n: nat, token: nat, v: W.Verdict) returns (reply: W.Reply)
      modifies `attempts, `submissions, `reputation, `jobs
      ensures W.Out(Work(), reply) == W.GiveVerdict(old(Work()), s, n, token, v, now)
      ensures reply == W.Completed ==> SameLinks(old(Work()), Work(), s)
    {
      hide W.VerdictRefused;
      var refused := CheckVerdict(s, n, token);
      if refused.Some? {
        return refused.value;
      }
      TakeKeepsLinks(Work(), s, n, v);
      hide W.TakeVerdict, SameLinks;
      reply := TakeVerdict(s, n, v);
    }

    /** What the handler does after a verdict was written: a pass that ended the job is paid for. */
    method PayForPass(ghost was: R.Db, s: nat, reply: W.Reply, v: W.Verdict, rates: Rates) returns (threw: bool)
      requires was.now == now && was.pay == Pay() && was.ledger == Books()
      requires reply == W.Completed ==> SameLinks(was.work, Work(), s)
      modifies `payouts, `bySubmission, `rows
      ensures Pay() == PayAfterVerdict(was, s, reply, v, rates)
      ensures threw == (PassEndsJob(was, s, reply, v) && !rates.Valid())
    {
      hide P.RequestPayout;
      threw := false;
      if reply == W.Completed && v == W.Pass {
        var b := jobs[submissions[s].job].bounty;
        if b < |bounties| {
          if rates.Valid() {
            RequestPayout(s, submissions[s].worker, b, rates);
          } else {
            threw := true;
          }
        }
      }
    }

    // ----- payouts -----

    /** addPayout, joined with the bounty for its window and with the org for its rates. */
    method AddPayout(s: nat, worker: nat, b: nat, amount: nat, rates: R.LegalRates) returns (i: nat)
      requires b < |bounties|
      modifies `payouts, `bySubmission
      ensures Pay() == P.AddPayout(old(Pay()), s, b, worker, amount, bounties[b].windowSec, rates, now)
      ensures s in bySubmission && bySubmission[s] == i
    {
      var window := bounties[b].windowSec;
      var holdUntil := if window > 0 then Some(now + 1000 * window) else None;
      if s in bySubmission && bySubmission[s] < |payouts| {
        i := bySubmission[s];
        payouts := payouts[i := payouts[i].(split := SplitOf(amount, rates), holdUntil := holdUntil)];
      } else {
        i := |payouts|;
        payouts := payouts + [P.Payout(s, b, worker, amount, SplitOf(amount, rates), P.Due, holdUntil, P.Unblocked)];
        bySubmission := bySubmission[s := i];
      }
    }

    /** enqueueOutbox with an idempotency key, for a payout. */
    method EnqueueOutbox(key: P.Key, topic: string, availableAt: int)
      modifies `rows
      ensures rows == O.Enqueue(old(rows), key, topic, availableAt, now)
    {
      if key !in rows {
        rows := rows[key := O.Event(topic, O.Pending, 0, availableAt, now, None)];
      }
    }

    method RequestPayout(s: nat, worker: nat, b: nat, rates: R.LegalRates)
      requires b < |bounties|
      modifies `payouts, `bySubmission, `rows
      ensures Pay() == P.RequestPayout(old(Pay()), s, b, worker, bounties[b].payoutCents, bounties[b].windowSec,
                                       rates, now)
    {
      var i := AddPayout(s, worker, b, bounties[b].payoutCents, rates);
      var window := bounties[b].windowSec;
      EnqueueOutbox(P.PayoutRequested(i), P.PAYOUT_TOPIC, if window > 0 then now + 1000 * window else now);
    }

    // ----- disputes -----

    method MarkOutboxSent(key: P.Key)
      modifies `rows
      ensures rows == O.MarkSent(old(rows), key)
    {
      if key in rows {
        rows := rows[key := rows[key].(status := O.Sent, lock := None)];
      }
    }

    method CheckDispute(i: nat) returns (refused: Option<P.DisputeError>)
      requires i < |payouts|
      ensures refused == P.DisputeRefused(Pay(), i, now)
      ensures refused.None? ==> payouts[i].holdUntil.Some?
    {
      if payouts[i].status == P.Paid {
        return Some(P.PayoutAlreadyPaid);
      }
      if payouts[i].holdUntil.None? {
        return Some(P.WindowDisabled);
      }
      if payouts[i].holdUntil.value <= now {
        return Some(P.WindowExpired);
      }
      var d := 0;
      while d < |disputes|
        invariant d <= |disputes|
        invariant forall e :: 0 <= e < d ==> !P.OpenOn(Pay(), e, i)
      {
        if disputes[d].status == P.Open && disputes[d].payout == i {
          assert P.OpenOn(Pay(), d, i);
          return Some(P.AlreadyOpen);
        }
        d := d + 1;
      }
      return None;
    }

    method InsertDispute(org: nat, i: nat) returns (d: nat)
      requires i < |payouts| && payouts[i].holdUntil.Some?
      modifies `payouts, `disputes, `rows
      ensures Pay() == P.OpenDispute(old(Pay()), org, i, now) && d == |old(disputes)|
    {
      d := |disputes|;
      var holdUntil := payouts[i].holdUntil.value;
      disputes := disputes + [P.Dispute(org, payouts[i].bounty, i, P.Open)];
      payouts := payouts[i := payouts[i].(blocked := P.ByDispute)];
      MarkOutboxSent(P.PayoutRequested(i));
      EnqueueOutbox(P.AutoRefund(d), P.REFUND_TOPIC, holdUntil);
    }

    method CreateDispute(org: nat, target: R.Target) returns (r: Result<nat, P.DisputeError>)
      modifies `payouts, `disputes, `rows
      ensures var done := R.DoOpenDispute(old(Db()), org, target);
              && (done.Ok? ==> r == Ok(|old(disputes)|) && Db() == done.value)
              && (done.Err? ==> r == Err(done.error) && Db() == old(Db()))
    {
      var found := R.ResolveTarget(Db(), org, target);
      if found.Err? {
        return Err(found.error);
      }
      var i := found.value;
      var refused := CheckDispute(i);
      hide R.ResolveTarget, P.DisputeRefused, P.OpenDispute;
      if refused.Some? {
        return Err(refused.value);
      }
      var d := InsertDispute(org, i);
      return Ok(d);
    }

    /** Put the payout's event back, or insert it if there is none. */
    method RequeuePayout(i: nat)
      requires i < |payouts|
      modifies `rows
      ensures rows == P.Requeue(old(rows), i, payouts[i].holdUntil, now)
    {
      var hold := payouts[i].holdUntil;
      var nextAt := if hold.Some? && hold.value > now then hold.value else now;
      var key := P.PayoutRequested(i);
      if key in rows {
        rows := rows[key := rows[key].(status := O.Pending, availableAt := nextAt, lock := None)];
      } else {
        rows := rows[key := O.Event(P.PAYOUT_TOPIC, O.Pending, 0, nextAt, now, None)];
      }
    }

    method CancelDispute(org: nat, d: nat) returns (r: Result<(), P.DisputeError>)
      modifies `payouts, `disputes, `rows
      ensures var done := P.CancelDispute(old(Pay()), org, d, now);
              && (done.Ok? ==> r.Ok? && Pay() == done.value)
              && (done.Err? ==> r == Err(done.error) && Pay() == old(Pay()))
    {
      if d >= |disputes| {
        return Err(P.NotFound);
      }
      if disputes[d].org != org {
        return Err(P.Forbidden);
      }
      if disputes[d].status != P.Open {
        return Err(P.NotOpen);
      }
      var i := disputes[d].payout;
      if i >= |payouts| {
        return Err(P.NotFound);
      }
      FreePayout(d, P.Cancelled);
      return Ok(());
    }

    /** The dispute is over, and the payout is no longer blocked and asked for again. */
    method FreePayout(d: nat, status: P.DisputeStatus)
      requires d < |disputes| && disputes[d].payout < |payouts|
      modifies `payouts, `disputes, `rows
      ensures Pay() == P.Free(old(Pay()), d, status, now)
    {
      var i := disputes[d].payout;
      payouts := payouts[i := payouts[i].(blocked := P.Unblocked)];
      RequeuePayout(i);
      disputes := disputes[d := disputes[d].(status := status)];
    }

    method ResolveDisputeAdmin(d: nat, resolution: P.Resolution) returns (r: Result<(), P.DisputeError>)
      modifies `payouts, `disputes, `rows, `accounts, `events
      ensures var done := P.ResolveDispute(old(Pay()), d, resolution, now);
              && (done.Ok? ==> r.Ok? && Pay() == done.value.0)
              && (done.Err? ==> r == Err(done.error) && Pay() == old(Pay()))
              && Books() == BooksAfterResolve(old(Db()), d, done.Ok? && done.value.1)
    {
      if d >= |disputes| {
        return Err(P.NotFound);
      }
      var row := disputes[d];
      if row.status != P.Open {
        return Err(P.NotOpen);
      }
      var i := row.payout;
      if i >= |payouts| {
        return Err(P.PayoutMissing);
      }
      if payouts[i].status == P.Paid {
        return Err(P.PayoutAlreadyPaid);
      }
      if payouts[i].status == P.Refunded {
        return Ok(());
      }
      hide P.Refund, P.Free, L.Credit;
      if resolution == P.ToRefund {
        var fee := payouts[i].split.proofworkFee;
        var refundCents := if fee <= payouts[i].amount then payouts[i].amount - fee else 0;
        CreditRefund(row.org, row.bounty, i, refundCents);
        RefundPayout(d);
      } else {
        FreePayout(d, P.Resolved);
      }
      return Ok(());
    }

    method RefundPayout(d: nat)
      requires d < |disputes| && disputes[d].payout < |payouts|
      modifies `payouts, `disputes, `rows
      ensures Pay() == P.Refund(old(Pay()), d)
    {
      var i := disputes[d].payout;
      payouts := payouts[i := payouts[i].(status := P.Refunded, blocked := P.ByRefund)];
      MarkOutboxSent(P.PayoutRequested(i));
      disputes := disputes[d := disputes[d].(status := P.Resolved)];
    }

    // ----- billing -----

    method EnsureAccount(org: nat)
      modifies `accounts
      ensures Books() == L.EnsureAccount(old(Books()), org)
    {
      if org !in accounts {
        accounts := accounts[org := 0];
      }
    }

    /** Change a balance and write the billing event that says why. */
    method Post(org: nat, cause: L.Cause, amount: int)
      requires org in accounts
      modifies `accounts, `events
      ensures Books() == L.Post(old(Books()), org, cause, amount, now)
    {
      accounts := accounts[org := accounts[org] + amount];
      events := events + [L.BillingEvent(org, cause, amount, now)];
    }

    method CreditRefund(org: nat, b: nat, i: nat, cents: nat)
      modifies `accounts, `events
      ensures Books() == L.Credit(old(Books()), org, b, i, cents, now)
    {
      EnsureAccount(org);
      if cents > 0 {
        Post(org, L.DisputeRefund(b, i), cents);
      }
    }

    method CreateBounty(row: L.Bounty) returns (b: nat)
      modifies `bounties
      ensures Books() == L.CreateBounty(old(Books()), row) && b == |old(bounties)|
    {
      b := |bounties|;
      bounties := bounties + [row.(status := L.Draft)];
    }

    method CheckSpendLimits(org: nat, cents: nat) returns (exceeded: Option<L.LedgerError>)
      ensures var limits := L.LimitsOf(Books(), org);
              exceeded == if L.Exceeds(L.Spent(Books(), org, DayStart(now)), cents, limits.dailyLimit)
                          then Some(L.DailyLimitExceeded)
                          else if L.Exceeds(L.Spent(Books(), org, MonthStart(now)), cents, limits.monthlyLimit)
                          then Some(L.MonthlyLimitExceeded)
                          else None
    {
      hide DayStart, MonthStart, L.Sum;
      var limits := L.LimitsOf(Books(), org);
      if limits.dailyLimit.Some? {
        var spent := Max(0, -L.Sum(events, L.SpentSince(org, DayStart(now))));
        if spent + cents > limits.dailyLimit.value {
          return Some(L.DailyLimitExceeded);
        }
      }
      if limits.monthlyLimit.Some? {
        var spent := Max(0, -L.Sum(events, L.SpentSince(org, MonthStart(now))));
        if spent + cents > limits.monthlyLimit.value {
          return Some(L.MonthlyLimitExceeded);
        }
      }
      return None;
    }

    /** The part of publishBounty that reserves the budget, once per bounty; on an error it has written nothing. */
    method ReserveBudget(b: nat) returns (r: Result<(), L.LedgerError>)
      requires b < |bounties| && bounties[b].org in accounts
      modifies `accounts, `events, `reservations
      ensures var done := L.Reserve(old(Books()), b, now);
              && (done.Ok? ==> r.Ok? && Books() == done.value)
              && (done.Err? ==> r == Err(done.error) && Books() == old(Books()))
    {
      var org := bounties[b].org;
      var reserveCents := L.ReserveCents(bounties[b]);
      if b in reservations || reserveCents == 0 {
        return Ok(());
      }
      var exceeded := CheckSpendLimits(org, reserveCents);
      hide L.Exceeds, L.Spent, L.ReserveCents, DayStart, MonthStart;
      if exceeded.Some? {
        return Err(exceeded.value);
      }
      if accounts[org] < reserveCents {
        return Err(L.InsufficientFunds);
      }
      var debit: int := reserveCents;
      Post(org, L.BudgetReserve(b), 0 - debit);
      reservations := reservations[b := L.Reservation(org, reserveCents, false)];
      return Ok(());
    }

    /** publishBounty: the transaction, which an error rolls back. */
    method PublishBounty(b: nat) returns (r: Result<(), L.LedgerError>)
      modifies `accounts, `events, `reservations, `bounties, `jobs
      ensures var done := PublishResult(old(Db()), b);
              && (done.Ok? ==> r.Ok? && Books() == done.value.0 && Work() == W.AddJobs(old(Work()), b, done.value.1))
              && (done.Err? ==> r == Err(done.error) && Books() == old(Books()) && Work() == old(Work()))
    {
      hide PublishResult, W.AddJobs;
      var accounts0, events0, reservations0, bounties0, jobs0 := accounts, events, reservations, bounties, jobs;
      r := PublishRows(b);
      if r.Err? {
        accounts, events, reservations, bounties, jobs := accounts0, events0, reservations0, bounties0, jobs0;
      }
    }

    method PublishRows(b: nat) returns (r: Result<(), L.LedgerError>)
      modifies `accounts, `events, `reservations, `bounties, `jobs
      ensures var done := PublishResult(old(Db()), b);
              && (done.Ok? ==> r.Ok? && Books() == done.value.0 && Work() == W.AddJobs(old(Work()), b, done.value.1))
              && (done.Err? ==> r == Err(done.error))
    {
      if b >= |bounties| {
        return Err(L.BountyNotFound);
      }
      ghost var s := Db();
      PublishByPart(s, b);
      hide PublishResult, L.Reserve, OpeningOf, W.AddJobs;
      EnsureAccount(bounties[b].org);
      r := ReserveBudget(b);
      if r.Err? {
        return;
      }
      OpeningStays(s, Db(), b);
      r := OpenForWork(b);
    }

    /** The bounty is published, and its jobs are generated if it has none. */
    method OpenForWork(b: nat) returns (r: Result<(), L.LedgerError>)
      requires b < |bounties|
      modifies `bounties, `jobs
      ensures var n := OpeningOf(old(Db()), b);
              && (n.Ok? ==> r.Ok? && Books() == L.SetStatus(old(Books()), b, L.Published)
                            && Work() == W.AddJobs(old(Work()), b, n.value))
              && (n.Err? ==> r == Err(n.error))
    {
      var n := JobsToGenerate(b);
      if n.Err? {
        return Err(n.error);
      }
      hide OpeningOf, W.AddJobs;
      bounties := bounties[b := bounties[b].(status := L.Published)];
      GenerateJobs(b, n.value);
      return Ok(());
    }

    method GenerateJobs(b: nat, n: nat)
      modifies `jobs
      ensures Work() == W.AddJobs(old(Work()), b, n)
    {
      jobs := jobs + seq(n, _ => W.NewJob(b));
    }

    method JobsToGenerate(b: nat) returns (n: Result<nat, L.LedgerError>)
      requires b < |bounties|
      ensures n == OpeningOf(Db(), b)
    {
      hide W.Count;
      var jobCount := if W.Count(jobs, W.OfBounty(b)) > 0 then 0 else bounties[b].classes;
      var limit := L.LimitsOf(Books(), bounties[b].org).maxOpenJobs;
      if jobCount > 0 && limit.Some? {
        var openJobs := W.Count(jobs, W.OpenIn(R.BountiesOf(bounties, bounties[b].org)));
        if openJobs + jobCount > limit.value {
          return Err(L.OpenJobsExceeded);
        }
      }
      return Ok(jobCount);
    }

    /** setBountyStatus, which the handlers call with paused and closed. */
    method SetBountyStatus(b: nat, status: L.BountyStatus) returns (found: bool)
      requires status == L.Paused || status == L.Closed
      modifies `accounts, `events, `reservations, `bounties
      ensures found == (b < |old(bounties)|)
      ensures !found ==> Books() == old(Books())
      ensures b < |old(bounties)| && status == L.Paused ==> Books() == L.SetStatus(old(Books()), b, L.Paused)
      ensures b < |old(bounties)| && status == L.Closed ==>
                Books() == L.Close(old(Books()), b, R.Committed(old(Db()), b), now)
    {
      if b >= |bounties| {
        return false;
      }
      bounties := bounties[b := bounties[b].(status := status)];
      if status == L.Closed && b in reservations && !reservations[b].released {
        var res := reservations[b];
        var committed := P.Sum(payouts, P.GrossOf(b));
        var remaining := Max(0, res.amount - committed);
        if remaining > 0 && res.org in accounts {
          Post(res.org, L.BudgetRelease(b), remaining);
        }
        reservations := reservations[b := res.(released := true)];
      }
      return true;
    }

    method TopUp(org: nat, cents: int) returns (r: Result<(), L.LedgerError>)
      modifies `accounts, `events
      ensures var done := L.TopUp(old(Books()), org, cents, now);
              && (done.Ok? ==> r.Ok? && Books() == done.value)
              && (done.Err? ==> r == Err(done.error) && Books() == old(Books()))
    {
      if cents <= 0 {
        return Err(L.InvalidAmount);
      }
      if org !in accounts && org !in orgs {
        return Err(L.OrgNotFound);
      }
      EnsureAccount(org);
      Post(org, L.AdminTopup, cents);
      return Ok(());
    }

    method StripeWebhook(e: L.StripeEvent)
      modifies `accounts, `events, `webhooks
      ensures Books() == L.StripeWebhook(old(Books()), e, now)
    {
      if e.id in webhooks {
        return;
      }
      var status := L.Processed;
      if !e.checkoutPaid {
        status := L.Ignored;
      } else if !e.complete || e.amount <= 0 {
        status := L.Failed;
      } else if !(exists i :: 0 <= i < |events| && events[i].cause == L.StripeTopup(e.id)) {
        if e.account in accounts {
          Post(e.account, L.StripeTopup(e.id), e.amount);
        } else {
          status := L.Failed;
        }
      }
      webhooks := webhooks[e.id := status];
    }

    // ----- the outbox and its workers -----

    /** claimOutboxBatch, called by a worker that is done with its last batch. */
    method ClaimOutboxBatch(runner: nat, topics: set<string>, limit: nat) returns (batch: seq<P.Key>)
      modifies `rows, `held
      ensures |batch| <= limit
      ensures !O.Idle(old(Pay()).box, runner) ==> batch == [] && Pay() == old(Pay())
      ensures O.Idle(old(Pay()).box, runner) ==>
                && O.OldestFirst(O.ReleaseStale(old(rows), now, cfg), batch, topics, limit, now)
                && (forall k :: k in batch ==> k in old(rows))
                && Pay() == P.ClaimEvents(old(Pay()), runner, batch, now, cfg)
    {
      batch := [];
      if exists x :: x in held && x.0 == runner {
        return;
      }
      rows := O.ReleaseStale(rows, now, cfg);
      var found := rows;
      batch := O.SelectOldest(found, topics, limit, now);
      assert forall k :: k in batch ==> k in found;
      hide O.OldestFirst;
      rows := O.LockAll(found, batch, runner, now);
      held := held + O.NewItems(found, batch, runner, now);
      hide O.LockAll, O.NewItems, O.ReleaseStale;
    }

    /** handlePayoutRequested for a payout that exists, on the off-chain path. */
    method HandlePayoutRequested(i: nat, settings: Rates, walletSet: bool, answer: P.Provider) returns (phase: O.Phase)
      requires i < |payouts|
      modifies `payouts
      ensures var (row, ends) := P.ExecutePayout(old(payouts)[i], settings, walletSet, answer, now);
              payouts == old(payouts)[i := row] && phase == ends
    {
      var row := payouts[i];
      if row.status == P.Paid {
        return O.Returned;
      }
      if row.blocked != P.Unblocked {
        return O.Returned;
      }
      if row.holdUntil.Some? && row.holdUntil.value > now {
        return O.Returned;
      }
      if !settings.Valid() {
        return O.Threw;
      }
      if settings.platformBps > 0 && !walletSet {
        return O.Threw;
      }
      payouts := payouts[i := row.(split := SplitOf(row.amount, settings))];
      match answer
      case Throws =>
        return O.Threw;
      case SaysPaid =>
        payouts := payouts[i := payouts[i].(status := P.Paid)];
        return O.Returned;
      case SaysFailed =>
        payouts := payouts[i := payouts[i].(status := P.Failed)];
        return O.Returned;
    }

    /** The worker's loop notes how the handler ended. */
    method Note(runner: nat, key: P.Key, phase: O.Phase)
      modifies `held
      ensures Pay().box == O.Finish(old(Pay()).box, runner, key, phase)
    {
      if (runner, key) in held {
        held := held[(runner, key) := held[(runner, key)].(phase := phase)];
      }
    }

    method RunPayoutEvent(runner: nat, i: nat, settings: Rates, walletSet: bool, answer: P.Provider)
      modifies `payouts, `held
      ensures Pay() == P.HandlePayout(old(Pay()), runner, i, settings, walletSet, answer, now)
    {
      var key := P.PayoutRequested(i);
      if (runner, key) in held && held[(runner, key)].phase == O.Claimed {
        var phase := O.Threw;
        if i < |payouts| {
          phase := HandlePayoutRequested(i, settings, walletSet, answer);
        }
        Note(runner, key, phase);
      }
    }

    /** handleDisputeAutoRefundRequested: every refusal counts as done; only a database error is thrown. */
    method HandleDisputeAutoRefund(d: nat, dbOk: bool) returns (phase: O.Phase)
      modifies `payouts, `disputes, `rows, `accounts, `events
      ensures phase == if dbOk then O.Returned else O.Threw
      ensures Db() == if dbOk && R.DoResolve(old(Db()), d, P.ToRefund).Ok?
                      then R.DoResolve(old(Db()), d, P.ToRefund).value else old(Db())
    {
      if !dbOk {
        return O.Threw;
      }
      ResolveByTable(Db(), d, P.ToRefund);
      hide R.DoResolve, P.ResolveDispute, BooksAfterResolve;
      var _ := ResolveDisputeAdmin(d, P.ToRefund);
      return O.Returned;
    }

    method RunRefundEvent(runner: nat, d: nat, dbOk: bool)
      modifies `payouts, `disputes, `rows, `accounts, `events, `held
      ensures Db() == R.DoHandleRefund(old(Db()), runner, d, dbOk)
    {
      var key := P.AutoRefund(d);
      if (runner, key) in held && held[(runner, key)].phase == O.Claimed {
        var phase := HandleDisputeAutoRefund(d, dbOk);
        hide R.DoResolve;
        Note(runner, key, phase);
      }
    }

    /** What runOutboxLoop does once the handler has ended. */
    method AckEvent(runner: nat, key: P.Key)
      modifies `rows, `held
      ensures Pay() == P.AckEvent(old(Pay()), runner, key, now, cfg)
    {
      if (runner, key) !in held || held[(runner, key)].phase == O.Claimed || key !in rows {
        return;
      }
      var item := held[(runner, key)];
      if item.phase == O.Returned {
        MarkOutboxSent(key);
      } else if item.attempt >= O.MaxAttempts(cfg, rows[key].topic) {
        rows := rows[key := rows[key].(status := O.Dead, lock := None)];
      } else {
        var delaySec := O.BackoffSeconds(item.attempt);
        rows := rows[key := rows[key].(status := O.Pending, availableAt := now + 1000 * delaySec, lock := None)];
      }
      held := held - {(runner, key)};
    }

    /** The process dies, and with it its batch. */
    method Crash(runner: nat)
      modifies `held
      ensures Pay().box == O.Crash(old(Pay()).box, runner)
    {
      held := map x | x in held && x.0 != runner :: held[x];
    }

    method Wait(ms: nat)
      modifies `now
      ensures now == old(now) + ms
    {
      now := now + ms;
    }

    // ----- serving whatever comes -----

    method ServeWork(e: R.Step)
      requires IsWork(e)
      modifies this
      ensures Db() == R.Next(old(Db()), e)
    {
      hide R.Next, W.ClaimJob, W.ReleaseJob, W.Reap, W.Submit, W.VerifierClaim, W.GiveVerdict, R.DoVerdict,
           PayAfterVerdict;
      NextWork(Db(), e);
      match e
      case ClaimJob(worker, j, stale) => var _ := ClaimJob(worker, j, stale);
      case ReleaseJob(worker, j, nonce) => var _ := ReleaseJob(worker, j, nonce);
      case Reap => var _ := ReapExpiredLeases();
      case Submit(worker, j, req) => var _ := Submit(worker, j, req);
      case VerifierClaim(s, n, ttl) => var _ := VerifierClaim(s, n, ttl);
      case GiveVerdict(s, n, token, v, rates) => ServeVerdict(s, n, token, v, rates);
    }

    method ServeVerdict(s: nat, n: nat, token: nat, v: W.Verdict, rates: Rates)
      modifies this
      ensures Db() == R.DoVerdict(old(Db()), s, n, token, v, rates)
    {
      VerdictByTable(Db(), s, n, token, v, rates);
      hide R.DoVerdict, W.GiveVerdict, PayAfterVerdict;
      var _, _ := GiveVerdict(s, n, token, v, rates);
    }

    method ServeBooks(e: R.Step)
      requires IsBooks(e)
      modifies this
      ensures Db() == R.Next(old(Db()), e)
    {
      hide R.Next, L.CreateBounty, PublishResult, L.SetStatus, L.Close, L.TopUp, L.StripeWebhook, W.AddJobs,
           R.Committed;
      NextBooks(Db(), e);
      match e
      case CreateBounty(row) => var _ := CreateBounty(row);
      case Publish(b) => var _ := PublishBounty(b);
      case Pause(b) => ServeStatus(b, L.Paused);
      case Close(b) => ServeStatus(b, L.Closed);
      case TopUp(org, cents) => var _ := TopUp(org, cents);
      case Stripe(ev) => StripeWebhook(ev);
    }

    method ServeStatus(b: nat, status: L.BountyStatus)
      requires status == L.Paused || status == L.Closed
      modifies this
      ensures b >= |old(bounties)| ==> Db() == old(Db())
      ensures b < |old(bounties)| ==> Db() == old(Db()).(ledger :=
                if status == L.Paused then L.SetStatus(old(Books()), b, L.Paused)
                else L.Close(old(Books()), b, R.Committed(old(Db()), b), now))
    {
      hide L.SetStatus, L.Close, R.Committed;
      var _ := SetBountyStatus(b, status);
    }

    method ServeDispute(e: R.Step)
      requires IsDispute(e)
      modifies this
      ensures Db() == R.Next(old(Db()), e)
    {
      hide R.Next, R.DoOpenDispute, P.CancelDispute, R.DoResolve, P.ResolveDispute, BooksAfterResolve;
      NextDispute(Db(), e);
      match e
      case OpenDispute(org, target) => var _ := CreateDispute(org, target);
      case CancelDispute(org, d) => var _ := CancelDispute(org, d);
      case ResolveDispute(d, r) =>
        ResolveByTable(Db(), d, r);
        var _ := ResolveDisputeAdmin(d, r);
    }

    method ServeEvent(e: R.Step)
      requires IsEvent(e)
      modifies this
      ensures Db() == R.Next(old(Db()), e)
    {
      hide R.Next, P.HandlePayout, R.DoHandleRefund, P.AckEvent, O.Crash;
      NextEvent(Db(), e);
      match e
      case HandlePayout(w, i, rates, walletSet, answer) => RunPayoutEvent(w, i, rates, walletSet, answer);
      case HandleRefund(w, d, dbOk) => RunRefundEvent(w, d, dbOk);
      case AckEvent(w, key) => AckEvent(w, key);
      case Crash(w) => Crash(w);
      case Tick(ms) => Wait(ms);
    }

    method ServePoll(runner: nat, topics: set<string>, limit: nat) returns (batch: seq<P.Key>)
      modifies this
      ensures |batch| <= limit && Db() == R.Next(old(Db()), R.ClaimEvents(runner, topics, limit, batch))
    {
      ghost var s := Db();
      batch := ClaimOutboxBatch(runner, topics, limit);
      if O.Idle(s.pay.box, runner) {
        NextClaim(s, runner, topics, limit, batch);
      } else {
        NextBusy(s, runner, topics, limit);
      }
    }

    method Serve(call: Call) returns (ghost e: R.Step)
      modifies this
      ensures Answers(call, e) && Db() == R.Next(old(Db()), e)
    {
      hide R.Next;
      match call
      case Poll(runner, topics, limit) =>
        var batch := ServePoll(runner, topics, limit);
        e := R.ClaimEvents(runner, topics, limit, batch);
      case Do(step) =>
        e := step;
        if IsWork(step) {
          ServeWork(step);
        } else if IsBooks(step) {
          ServeBooks(step);
        } else if IsDispute(step) {
          ServeDispute(step);
        } else {
          ServeEvent(step);
        }
    }

    /**
     Serving any calls takes the tables along a run of the state machine with one step
     for each call; so while the calls meet some hypotheses, all that holds of the states
     reachable under them holds of the tables.
     */
    method ServeAll(calls: seq<Call>, ghost d: R.Deployment) returns (ghost steps: seq<R.Step>)
      modifies this
      ensures AnswersAll(calls, steps)
      ensures Db() == R.Run(old(Db()), steps)
      ensures forall h :: R.Reachable(h, old(Db()), d) && R.RunUnder(h, old(Db()), steps) ==> R.Reachable(h, Db(), d)
    {
      steps := [];
      ghost var s0 := Db();
      hide R.Next, R.Run, R.RunUnder, R.Reachable;
      RunNothing(s0);
      for n := 0 to |calls|
        invariant AnswersAll(calls[..n], steps)
        invariant Db() == R.Run(s0, steps)
      {
        var e := Serve(calls[n]);
        RunOneMore(s0, steps, e);
        steps := steps + [e];
      }
      assert calls[..|calls|] == calls;
      forall h | R.Reachable(h, s0, d) && R.RunUnder(h, s0, steps)
        ensures R.Reachable(h, Db(), d)
      {
        R.ReachableRunsOn(h, s0, d, steps);
      }
    }

    // ----- what holds of the tables themselves, whatever was served -----

    /** No balance is negative, and with what the org's bounties hold it is what the org opened with and topped up. */
    ghost predicate BooksBalance(opening: map<nat, nat>)
      reads this
    {
      forall org :: Balance(org) >= 0
                    && Balance(org) + L.HeldByOrg(events, bounties, org)
                       == L.Opening(opening, org) + L.Sum(events, L.TopUps(org))
    }

    function Balance(org: nat): int
      reads this
    {
      if org in accounts then accounts[org] else 0
    }

    /** The bounty holds what its payouts still need. */
    ghost predicate Covered()
      reads this
    {
      forall b :: 0 <= b < |bounties| ==> L.Held(events, b) >= P.Sum(payouts, P.NeedOf(b))
    }

    /** The gross of a bounty's payouts, whatever their status, is within what was reserved for it. */
    ghost predicate WithinReservations()
      reads this
    {
      forall b :: 0 <= b < |bounties| ==>
        P.Sum(payouts, P.GrossOf(b)) <= if b in reservations then reservations[b].amount else 0
    }

    /** A payout is credited to its buyer at most once, and only if it is refunded. */
    ghost predicate CreditedOnce()
      reads this
    {
      forall i: nat :: N.Credits(events, i) <= 1
                       && (N.Credits(events, i) == 1 ==> i < |payouts| && payouts[i].status == P.Refunded)
    }

    /**
     A due payout has its event not yet delivered, unless a dispute is open on it: then the
     dispute's refund is not yet delivered.
     */
    ghost predicate NoneForgotten()
      reads this
    {
      forall i :: 0 <= i < |payouts| && payouts[i].status == P.Due ==>
        if payouts[i].blocked == P.Unblocked then Undelivered(P.PayoutRequested(i))
        else exists dp :: P.OpenOn(Pay(), dp, i) && Undelivered(P.AutoRefund(dp))
    }

    predicate Undelivered(key: P.Key)
      reads this
    {
      key in rows && rows[key].status != O.Sent
    }

    /**
     A new database that served any calls at all has its books in balance. If no pass
     created a second payout for a job the payouts are within the reservations; if none
     landed on a submission that had its payout no payout is forgotten. If disputes were
     opened only on payouts not refunded, no payout is credited twice and none that is
     paid; and if besides no pass created a second payout for a job or any after a release,
     nor changed the fee of a refunded one, every bounty still holds what it owes.
     */
    static method Operate(d: R.Deployment, calls: seq<Call>) returns (db: Database, ghost steps: seq<R.Step>)
      ensures fresh(db) && AnswersAll(calls, steps) && db.Db() == R.Run(R.Start(d), steps)
      ensures db.BooksBalance(d.opening)
      ensures R.RunUnder(R.H7_ONLY, R.Start(d), steps) ==> db.WithinReservations()
      ensures R.RunUnder(R.H6_ONLY, R.Start(d), steps) ==> db.NoneForgotten()
      ensures R.RunUnder(R.H2_ONLY, R.Start(d), steps) ==> db.CreditedOnce()
      ensures R.RunUnder(R.H1_H2_H7_H9, R.Start(d), steps) ==> db.Covered()
    {
      hide R.Next, R.Run, R.RunUnder, R.Reachable, R.Start;
      db := new Database(d);
      forall h ensures R.Reachable(h, R.Start(d), d) {
        R.StartIsReachable(h, d);
      }
      steps := db.ServeAll(calls, d);
      R.RunUnderNone(R.Start(d), steps);
      db.Balanced(d);
      if R.RunUnder(R.H7_ONLY, R.Start(d), steps) {
        db.Reserved(d);
      }
      if R.RunUnder(R.H6_ONLY, R.Start(d), steps) {
        db.Remembered(d);
      }
      if R.RunUnder(R.H2_ONLY, R.Start(d), steps) {
        db.Once(d);
      }
      if R.RunUnder(R.H1_H2_H7_H9, R.Start(d), steps) {
        db.Held(d);
      }
    }

    lemma Balanced(d: R.Deployment)
      requires R.Reachable(R.NO_HYPOTHESIS, Db(), d)
      ensures BooksBalance(d.opening)
    {
      hide R.Reachable;
      forall org
        ensures Balance(org) >= 0
                && Balance(org) + L.HeldByOrg(events, bounties, org)
                   == L.Opening(d.opening, org) + L.Sum(events, L.TopUps(org))
      {
        T.FundsAreConserved(Db(), d, org);
      }
    }

    lemma Reserved(d: R.Deployment)
      requires R.Reachable(R.H7_ONLY, Db(), d)
      ensures WithinReservations()
    {
      hide R.Reachable, P.Sum;
      forall b | 0 <= b < |bounties|
        ensures P.Sum(payouts, P.GrossOf(b)) <= if b in reservations then reservations[b].amount else 0
      {
        B.BudgetAlwaysSuffices(Db(), d, b);
      }
    }

    lemma Remembered(d: R.Deployment)
      requires R.Reachable(R.H6_ONLY, Db(), d)
      ensures NoneForgotten()
    {
      hide R.Reachable;
      forall i | 0 <= i < |payouts| && payouts[i].status == P.Due
        ensures if payouts[i].blocked == P.Unblocked then Undelivered(P.PayoutRequested(i))
                else exists dp :: P.OpenOn(Pay(), dp, i) && Undelivered(P.AutoRefund(dp))
      {
        T.NoPayoutIsLost(Db(), d, i);
      }
    }

    lemma Once(d: R.Deployment)
      requires R.Reachable(R.H2_ONLY, Db(), d)
      ensures CreditedOnce()
    {
      hide R.Reachable, N.Credits;
      forall i: nat
        ensures N.Credits(events, i) <= 1
                && (N.Credits(events, i) == 1 ==> i < |payouts| && payouts[i].status == P.Refunded)
      {
        T.CreditedIsRefunded(Db(), d, i);
      }
    }

    lemma Held(d: R.Deployment)
      requires R.Reachable(R.H1_H2_H7_H9, Db(), d)
      ensures Covered()
    {
      hide R.Reachable, L.Held, P.Sum;
      forall b | 0 <= b < |bounties|
        ensures L.Held(events, b) >= P.Sum(payouts, P.NeedOf(b))
      {
        T.HeldFundsSuffice(Db(), d, b);
      }
    }
  }
}
