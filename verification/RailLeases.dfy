/**
 When exactly a job is leased, freed, handed in, decided or expires, and by whom; and that
 a lease is its worker's alone for the twenty minutes it is given for.
 */
module RailLeases {
  import opened Common
  import opened FeeSplit
  import opened Rail
  import opened RailSteps
  import T = RailTokens
  import W = Work
  import L = Ledger

  // ----- what a step may do to a job -----

  /** The worker has claimed a job, even if its time is over, or has one under verification. */
  predicate Busy(t: W.Tables, worker: nat) {
    exists j :: 0 <= j < |t.jobs| && LeasedTo(t.jobs[j], worker) && t.jobs[j].status in {W.Claimed, W.Verifying}
  }

  predicate LeasedTo(job: W.Job, worker: nat) {
    job.lease.Some? && job.lease.value.worker == worker
  }

  predicate TimedOut(job: W.Job, now: int) {
    job.status == W.Claimed && job.lease.Some? && job.lease.value.expires < now
  }

  /** A worker without a job claims one that is open or whose time is over. */
  predicate IsLeased(s: Db, e: Step, j: nat) {
    && e.ClaimJob? && e.job == j && !e.stale && j < |s.work.jobs| && !Busy(s.work, e.worker)
    && (s.work.jobs[j].status == W.Open || TimedOut(s.work.jobs[j], s.now))
  }

  /** The holder gives a claimed job back, and proves by the nonce that it is this lease he means. */
  predicate IsReleased(s: Db, e: Step, j: nat) {
    && e.ReleaseJob? && e.job == j && j < |s.work.jobs| && s.work.jobs[j].status == W.Claimed
    && LeasedTo(s.work.jobs[j], e.worker) && s.work.jobs[j].lease.value.nonce == e.nonce
  }

  predicate IsReaped(s: Db, e: Step, j: nat) {
    e.Reap? && j < |s.work.jobs| && TimedOut(s.work.jobs[j], s.now)
  }

  /** The submission the holder's idempotency key stands for. */
  predicate IsRetry(s: Db, e: Step) {
    && e.Submit? && e.req.key != "" && (e.job, e.worker, e.req.key) in s.work.byKey
    && s.work.byKey[(e.job, e.worker, e.req.key)] < |s.work.submissions|
  }

  /** The holder hands something in, in time, and did not do so before. */
  predicate IsHandedIn(s: Db, e: Step, j: nat) {
    && e.Submit? && e.job == j && j < |s.work.jobs| && LeasedTo(s.work.jobs[j], e.worker)
    && s.now <= s.work.jobs[j].lease.value.expires && |e.req.key| <= 200 && e.req.artifactsOk
    && !(s.work.jobs[j].current.Some? && s.work.jobs[j].current.value < |s.work.submissions|
         && s.work.submissions[s.work.jobs[j].current.value].worker == e.worker)
    && if IsRetry(s, e) then s.work.submissions[s.work.byKey[(j, e.worker, e.req.key)]].hash == e.req.hash
       else !e.req.stale && e.req.originOk
  }

  /** A verdict with the attempt's token, in time, on a submission for the job. */
  predicate IsJudged(s: Db, e: Step, j: nat) {
    && e.GiveVerdict? && e.submission < |s.work.submissions| && s.work.submissions[e.submission].job == j
    && e.submission in s.work.attempts && e.attempt in s.work.attempts[e.submission]
    && var row := s.work.attempts[e.submission][e.attempt];
       row.token == Some(e.token) && row.status != W.Finished && s.now <= row.expires
  }

  predicate MoreAttempts(t: W.Tables, x: nat) {
    x in t.attempts && forall n :: n in t.attempts[x] ==> n < t.maxAttempts
  }

  function StatusAfter(s: Db, e: Step, j: nat): W.JobStatus
    requires j < |s.work.jobs|
  {
    var was := s.work.jobs[j].status;
    if IsLeased(s, e, j) then W.Claimed
    else if IsReleased(s, e, j) then W.Open
    else if IsReaped(s, e, j) then W.Expired
    else if IsHandedIn(s, e, j) then
      if !IsRetry(s, e) then if e.req.duplicate then W.Done else W.Verifying
      else if was in {W.Open, W.Claimed} then W.Verifying else was
    else if IsJudged(s, e, j) then
      if e.verdict == W.Inconclusive && MoreAttempts(s.work, e.submission) then W.Verifying else W.Done
    else was
  }

  function LeaseAfter(s: Db, e: Step, j: nat): Option<W.Lease>
    requires j < |s.work.jobs|
  {
    if IsLeased(s, e, j) then Some(W.Lease(e.worker, s.now + 1_200_000, s.work.nextNonce))
    else if IsReleased(s, e, j) || IsReaped(s, e, j) then None
    else s.work.jobs[j].lease
  }

  /** Status and lease of job j are as given. */
  predicate IsNow(t1: W.Tables, j: nat, status: W.JobStatus, lease: Option<W.Lease>) {
    j < |t1.jobs| && t1.jobs[j].status == status && t1.jobs[j].lease == lease
  }

  // ----- one operation each -----

  lemma ClaimStatus(s: Db, e: Step, j: nat)
    requires e.ClaimJob? && j < |s.work.jobs|
    ensures IsNow(W.ClaimJob(s.work, e.worker, e.job, e.stale, s.now).t, j, StatusAfter(s, e, j), LeaseAfter(s, e, j))
  {
  }

  lemma ReleaseStatus(s: Db, e: Step, j: nat)
    requires e.ReleaseJob? && j < |s.work.jobs|
    ensures IsNow(W.ReleaseJob(s.work, e.worker, e.job, e.nonce).t, j, StatusAfter(s, e, j), LeaseAfter(s, e, j))
  {
  }

  lemma ReapStatus(s: Db, e: Step, j: nat)
    requires e.Reap? && j < |s.work.jobs|
    ensures IsNow(W.Reap(s.work, s.now), j, StatusAfter(s, e, j), LeaseAfter(s, e, j))
  {
  }

  lemma SubmitStatus(s: Db, e: Step, j: nat)
    requires e.Submit? && j < |s.work.jobs|
    ensures IsNow(W.Submit(s.work, e.worker, e.job, e.req, s.now).t, j, StatusAfter(s, e, j), LeaseAfter(s, e, j))
  {
  }

  lemma VerdictStatus(s: Db, e: Step, j: nat)
    requires e.GiveVerdict? && j < |s.work.jobs|
    ensures IsNow(Next(s, e).work, j, StatusAfter(s, e, j), LeaseAfter(s, e, j))
  {
    hide Next, W.TakeVerdict, W.Requeues, MoreAttempts;
    if Taken(s, e) {
      TakenStep(s, e);
      TakenStatus(s.work, e.submission, e.attempt, e.verdict, j);
    } else {
      RefusedStep(s, e);
    }
  }

  lemma TakenStatus(t: W.Tables, x: nat, n: nat, v: W.Verdict, j: nat)
    requires W.HasAttempt(t, x, n) && x < |t.submissions| && t.submissions[x].job < |t.jobs| && j < |t.jobs|
    ensures IsNow(W.TakeVerdict(t, x, n, v).t, j,
                  if t.submissions[x].job != j then t.jobs[j].status
                  else if v == W.Inconclusive && MoreAttempts(t, x) then W.Verifying else W.Done,
                  t.jobs[j].lease)
  {
    W.TakeVerdictRequeues(t, x, n, v);
    W.MaxAttemptIsLargest(t.attempts[x]);
    hide W.MaxAttempt;
  }

  lemma PublishStatus(s: Db, b: nat, j: nat)
    requires j < |s.work.jobs|
    ensures var t1 := Next(s, Publish(b)).work; j < |t1.jobs| && t1.jobs[j] == s.work.jobs[j]
  {
    hide L.Publish;
  }

  /**
   A job is leased exactly by the claim of a worker who has none, when it is open or its
   lease is over; it opens again exactly by its holder's release, expires exactly by a reap
   after its lease is over, and goes under verification or ends exactly by its holder's
   submission in time and by the verdicts on it.
   */
  lemma JobChangesIff(s: Db, e: Step, j: nat)
    requires j < |s.work.jobs|
    ensures IsNow(Next(s, e).work, j, StatusAfter(s, e, j), LeaseAfter(s, e, j))
  {
    if e.GiveVerdict? {
      hide Next, StatusAfter, LeaseAfter;
      VerdictStatus(s, e, j);
    } else if e.Publish? {
      hide Next;
      PublishStatus(s, e.bounty, j);
    } else if IsWorkStep(e) {
      hide StatusAfter, LeaseAfter, IsNow, W.ClaimJob, W.ReleaseJob, W.Reap, W.Submit;
      match e
      case ClaimJob(_, _, _) => ClaimStatus(s, e, j);
      case ReleaseJob(_, _, _) => ReleaseStatus(s, e, j);
      case Reap => ReapStatus(s, e, j);
      case Submit(_, _, _) => SubmitStatus(s, e, j);
      case VerifierClaim(x, n, ttl) => VerifierKeepsJobs(s, e, j);
    } else {
      OthersKeepWork(s, e);
      hide Next;
    }
  }

  lemma VerifierKeepsJobs(s: Db, e: Step, j: nat)
    requires e.VerifierClaim? && j < |s.work.jobs|
    ensures IsNow(Next(s, e).work, j, StatusAfter(s, e, j), LeaseAfter(s, e, j))
  {
  }

  /** Those are the verdicts that are taken. */
  lemma TakenIsJudged(s: Db, e: Step, j: nat)
    requires e.GiveVerdict? && j < |s.work.jobs|
    requires e.submission < |s.work.submissions| ==> s.work.submissions[e.submission].job == j
    ensures Taken(s, e) <==> IsJudged(s, e, j)
  {
  }

  // ----- over runs -----

  /** A step of the run reaps job j after its lease is over. */
  ghost predicate WasReaped(s: Db, steps: seq<Step>, j: nat)
    decreases |steps|
  {
    steps != [] && (IsReaped(s, steps[0], j) || WasReaped(Next(s, steps[0]), steps[1..], j))
  }

  lemma NewJobsAreOpen(s: Db, e: Step, j: nat)
    requires j >= |s.work.jobs|
    ensures j < |Next(s, e).work.jobs| ==> IsNow(Next(s, e).work, j, W.Open, None)
  {
    if e.GiveVerdict? {
      hide Next, W.TakeVerdict;
      if Taken(s, e) {
        TakenStep(s, e);
        W.TakeVerdictRequeues(s.work, e.submission, e.attempt, e.verdict);
      } else {
        RefusedStep(s, e);
      }
    } else if IsWorkStep(e) {
      hide L.Publish, W.LeasePast, W.HoldsLease, W.KnownKey;
    } else {
      OthersKeepWork(s, e);
      hide Next;
    }
  }

  /** A job that has expired was reaped when its lease was over: no release, no submission and no verdict does it. */
  lemma {:induction false} ExpiresOnlyWhenReaped(s: Db, steps: seq<Step>, j: nat)
    requires j < |Run(s, steps).work.jobs| && Run(s, steps).work.jobs[j].status == W.Expired
    ensures WasReaped(s, steps, j) || (j < |s.work.jobs| && s.work.jobs[j].status == W.Expired)
    decreases |steps|
  {
    hide Next, IsReaped, IsLeased, IsReleased, IsHandedIn, IsJudged;
    if steps != [] {
      ExpiresOnlyWhenReaped(Next(s, steps[0]), steps[1..], j);
      if j < |s.work.jobs| {
        JobChangesIff(s, steps[0], j);
      } else {
        NewJobsAreOpen(s, steps[0], j);
      }
    }
  }

  /** A released job is open to every worker who has none, the one who gave it back included. */
  lemma ReleasedJobCanBeClaimed(s: Db, worker: nat, j: nat, nonce: nat, other: nat)
    requires IsReleased(s, ReleaseJob(worker, j, nonce), j)
    ensures var s1 := Next(s, ReleaseJob(worker, j, nonce));
            && j < |s1.work.jobs| && s1.work.jobs[j].status == W.Open && s1.work.jobs[j].lease == None
            && s1.now == s.now
            && (!Busy(s1.work, other) ==>
                  IsNow(Next(s1, ClaimJob(other, j, false)).work, j, W.Claimed,
                        Some(W.Lease(other, s.now + 1_200_000, s1.work.nextNonce))))
  {
    var s1 := Next(s, ReleaseJob(worker, j, nonce));
    JobChangesIff(s, ReleaseJob(worker, j, nonce), j);
    OnlyTicksTakeTime(s, ReleaseJob(worker, j, nonce));
    JobChangesIff(s1, ClaimJob(other, j, false), j);
    hide Next, Busy;
  }

  /** A step of the run gives the lease of job j back, or hands in for it. */
  ghost predicate WasGivenUp(s: Db, steps: seq<Step>, j: nat)
    decreases |steps|
  {
    steps != []
    && (IsReleased(s, steps[0], j) || IsHandedIn(s, steps[0], j) || WasGivenUp(Next(s, steps[0]), steps[1..], j))
  }

  lemma {:induction false} TimeGoesOn(s: Db, steps: seq<Step>)
    ensures s.now <= Run(s, steps).now
    decreases |steps|
  {
    hide Next;
    if steps != [] {
      OnlyTicksTakeTime(s, steps[0]);
      TimeGoesOn(Next(s, steps[0]), steps[1..]);
    }
  }

  /** Until its time is over a leased job stays with its worker, unless he gives it back or hands in himself. */
  lemma {:induction false} LeaseLasts(s: Db, steps: seq<Step>, j: nat)
    requires RunUnder(H8_ONLY, s, steps) && j < |s.work.jobs| && s.work.jobs[j].status == W.Claimed
    requires s.work.jobs[j].lease.Some? && Run(s, steps).now <= s.work.jobs[j].lease.value.expires
    ensures WasGivenUp(s, steps, j) || IsNow(Run(s, steps).work, j, W.Claimed, s.work.jobs[j].lease)
    decreases |steps|
  {
    hide Next, IsReleased, IsHandedIn, Busy, Meets;
    if steps != [] {
      var e := steps[0];
      JobChangesIff(s, e, j);
      OnlyTicksTakeTime(s, e);
      TimeGoesOn(Next(s, e), steps[1..]);
      if IsJudged(s, e, j) {
        JudgedIsVerifying(s, e, j);
      }
      hide IsJudged;
      if !IsReleased(s, e, j) && !IsHandedIn(s, e, j) {
        LeaseLasts(Next(s, e), steps[1..], j);
      }
    }
  }

  lemma JudgedIsVerifying(s: Db, e: Step, j: nat)
    requires Meets(H8_ONLY, s, e) && j < |s.work.jobs| && IsJudged(s, e, j)
    ensures s.work.jobs[j].status in {W.Verifying, W.Done}
  {
    hide W.Requeues;
  }

  // ----- what is kept of a submission -----

  /** The holder sends something new, in time, that is neither stale nor of a foreign origin: it is kept. */
  predicate IsKept(s: Db, e: Step) {
    && e.Submit? && e.job < |s.work.jobs| && !e.req.stale && e.req.originOk && !IsRetry(s, e)
    && IsHandedIn(s, Submit(e.worker, e.job, e.req.(artifactsOk := true)), e.job)
  }

  ghost predicate RowsFollow(s: Db, e: Step, t1: W.Tables) {
    && |t1.submissions| == |s.work.submissions| + (if IsKept(s, e) then 1 else 0)
    && (IsKept(s, e) ==>
          t1.submissions[|s.work.submissions|]
          == W.Submission(e.job, e.worker, e.req.key, e.req.hash,
                          if e.req.duplicate then W.Duplicate else W.Submitted))
    && (forall x :: 0 <= x < |s.work.submissions| ==>
          && t1.submissions[x] == s.work.submissions[x].(status := t1.submissions[x].status)
          && if e.GiveVerdict? && e.submission == x && IsJudged(s, e, s.work.submissions[x].job)
             then T.SaysSo(t1.submissions[x].status, e.verdict)
             else t1.submissions[x].status == s.work.submissions[x].status)
  }

  lemma SubmitRows(s: Db, e: Step)
    requires e.Submit?
    ensures RowsFollow(s, e, W.Submit(s.work, e.worker, e.job, e.req, s.now).t)
  {
  }

  lemma VerdictRows(s: Db, e: Step)
    requires e.GiveVerdict?
    requires forall x :: 0 <= x < |s.work.submissions| ==> s.work.submissions[x].job < |s.work.jobs|
    ensures RowsFollow(s, e, Next(s, e).work)
  {
    hide Next, W.MaxAttempt;
    var x := e.submission;
    if x < |s.work.submissions| {
      TakenIsJudged(s, e, s.work.submissions[x].job);
    }
    if Taken(s, e) {
      TakenStep(s, e);
    } else {
      RefusedStep(s, e);
    }
    hide IsJudged, Taken;
  }

  lemma OtherRows(s: Db, e: Step)
    requires !e.Submit? && !e.GiveVerdict?
    ensures RowsFollow(s, e, Next(s, e).work)
  {
    if IsWorkStep(e) {
      hide L.Publish, W.LeasePast, W.HoldsLease;
    } else {
      OthersKeepWork(s, e);
      hide Next;
    }
  }

  /**
   A submission is kept exactly when its job's holder sends it in time and it is new, fresh
   and of an allowed origin, even if its artifacts are refused then; what was sent never
   changes, and its status only by a verdict, to what the verdict says.
   */
  lemma SubmissionsChangeIff(s: Db, d: Deployment, e: Step)
    requires Reachable(NO_HYPOTHESIS, s, d)
    ensures RowsFollow(s, e, Next(s, e).work)
  {
    T.ReachableTokens(NO_HYPOTHESIS, s, d);
    hide Reachable, RowsFollow;
    if e.Submit? {
      SubmitRows(s, e);
      hide W.Submit;
    } else if e.GiveVerdict? {
      VerdictRows(s, e);
    } else {
      OtherRows(s, e);
    }
  }

  // ----- what the caller is told -----

  /** Claims and releases are accepted exactly when they change the job; otherwise the worker is told why not. */
  lemma LeaseReplies(s: Db, worker: nat, j: nat, stale: bool, nonce: nat)
    ensures var reply := W.ClaimJob(s.work, worker, j, stale, s.now).reply;
            && (reply == W.Accept <==> IsLeased(s, ClaimJob(worker, j, stale), j))
            && (reply == W.AlreadyClaimed <==> Busy(s.work, worker))
            && (reply == W.NotFound <==> !Busy(s.work, worker) && j >= |s.work.jobs|)
            && (reply == W.StaleJob <==> !Busy(s.work, worker) && j < |s.work.jobs| && stale)
            && reply in {W.Accept, W.AlreadyClaimed, W.NotFound, W.StaleJob, W.NotAvailable}
    ensures var reply := W.ReleaseJob(s.work, worker, j, nonce).reply;
            && (reply == W.Accept <==> IsReleased(s, ReleaseJob(worker, j, nonce), j))
            && (reply == W.NotFound <==> j >= |s.work.jobs|)
            && (reply == W.NotOwner <==>
                  && j < |s.work.jobs|
                  && !(LeasedTo(s.work.jobs[j], worker) && s.work.jobs[j].lease.value.nonce == nonce))
            && reply in {W.Accept, W.NotFound, W.NotOwner, W.NotAvailable}
  {
  }

  /** The worker has handed in for the job already. */
  predicate IsBefore(s: Db, worker: nat, j: nat) {
    && j < |s.work.jobs| && s.work.jobs[j].current.Some?
    && s.work.jobs[j].current.value < |s.work.submissions|
    && s.work.submissions[s.work.jobs[j].current.value].worker == worker
  }

  /**
   The holder in time is told whether his submission is new and goes to a verifier, is a
   duplicate and ends the job, or is there already, by the job or by his key.
   */
  lemma SubmitReplies(s: Db, worker: nat, j: nat, req: W.Request)
    requires j < |s.work.jobs| && LeasedTo(s.work.jobs[j], worker)
    requires s.now <= s.work.jobs[j].lease.value.expires && |req.key| <= 200
    ensures var reply, e := W.Submit(s.work, worker, j, req, s.now).reply, Submit(worker, j, req);
            && (reply == W.Accept <==> IsHandedIn(s, e, j) && !IsRetry(s, e) && !req.duplicate)
            && (reply == W.DuplicateDone <==> IsHandedIn(s, e, j) && !IsRetry(s, e) && req.duplicate)
            && (reply == W.Existing <==> IsBefore(s, worker, j) || (IsHandedIn(s, e, j) && IsRetry(s, e)))
  {
  }

  /** The request is the holder's, in time, with a key that is not too long, and he has not handed in yet. */
  predicate IsHolders(s: Db, worker: nat, j: nat, req: W.Request) {
    && j < |s.work.jobs| && LeasedTo(s.work.jobs[j], worker) && s.now <= s.work.jobs[j].lease.value.expires
    && |req.key| <= 200 && !IsBefore(s, worker, j)
  }

  /** Anyone else is told why his submission is refused, and so is the holder. */
  lemma SubmitRefusals(s: Db, worker: nat, j: nat, req: W.Request)
    ensures var reply, e := W.Submit(s.work, worker, j, req, s.now).reply, Submit(worker, j, req);
            && (reply == W.NotFound <==> j >= |s.work.jobs|)
            && (reply == W.NotOwner <==> j < |s.work.jobs| && !LeasedTo(s.work.jobs[j], worker))
            && (reply == W.LeaseExpired <==>
                  && j < |s.work.jobs| && LeasedTo(s.work.jobs[j], worker)
                  && s.now > s.work.jobs[j].lease.value.expires)
            && (reply == W.KeyTooLong <==>
                  && j < |s.work.jobs| && LeasedTo(s.work.jobs[j], worker)
                  && s.now <= s.work.jobs[j].lease.value.expires && |req.key| > 200)
            && (reply == W.StaleJob <==> IsHolders(s, worker, j, req) && !IsRetry(s, e) && req.stale)
            && (reply == W.OriginViolation <==>
                  IsHolders(s, worker, j, req) && !IsRetry(s, e) && !req.stale && !req.originOk)
            && (reply == W.IdempotencyConflict <==>
                  && IsHolders(s, worker, j, req) && IsRetry(s, e)
                  && s.work.submissions[s.work.byKey[(j, worker, req.key)]].hash != req.hash)
            && (reply == W.InvalidArtifact <==>
                  && IsHolders(s, worker, j, req) && !req.artifactsOk
                  && IsHandedIn(s, Submit(worker, j, req.(artifactsOk := true)), j))
  {
  }

  /** A verdict is answered by what became of the job, and one with another token than the attempt's by a refusal. */
  lemma VerdictReplies(s: Db, x: nat, n: nat, token: nat, v: W.Verdict, rates: Rates)
    requires x < |s.work.submissions| && s.work.submissions[x].job < |s.work.jobs|
    ensures var reply, e := W.GiveVerdict(s.work, x, n, token, v, s.now).reply, GiveVerdict(x, n, token, v, rates);
            var judged := IsJudged(s, e, s.work.submissions[x].job);
            && (reply == W.Requeued <==> judged && v == W.Inconclusive && MoreAttempts(s.work, x))
            && (reply == W.Completed <==> judged && !(v == W.Inconclusive && MoreAttempts(s.work, x)))
            && (reply == W.NotFound <==> !W.HasAttempt(s.work, x, n))
            && (W.HasAttempt(s.work, x, n) ==>
                  var row := s.work.attempts[x][n];
                  && (reply == W.InvalidClaim <==> row.token != Some(token))
                  && (reply == W.AlreadyFinished <==> row.token == Some(token) && row.status == W.Finished)
                  && (reply == W.ClaimExpired <==>
                        row.token == Some(token) && row.status != W.Finished && row.expires < s.now))
  {
    var e := GiveVerdict(x, n, token, v, rates);
    TakenIsJudged(s, e, s.work.submissions[x].job);
    if W.HasAttempt(s.work, x, n) {
      TakenReply(s.work, x, n, v);
    }
    hide IsJudged, W.TakeVerdict, MoreAttempts;
  }

  lemma TakenReply(t: W.Tables, x: nat, n: nat, v: W.Verdict)
    requires W.HasAttempt(t, x, n) && x < |t.submissions| && t.submissions[x].job < |t.jobs|
    ensures W.TakeVerdict(t, x, n, v).reply
            == if v == W.Inconclusive && MoreAttempts(t, x) then W.Requeued else W.Completed
  {
    var t1 := W.RecordVerdict(t, x, n, v);
    assert t1.attempts[x].Keys == t.attempts[x].Keys && t1.maxAttempts == t.maxAttempts;
    W.SameMaxAttempt(t.attempts[x], t1.attempts[x]);
    W.MaxAttemptIsLargest(t.attempts[x]);
    hide W.MaxAttempt, W.RecordVerdict;
  }

  /** A verifier's claim is accepted exactly when no other claim of the attempt runs. */
  lemma VerifierReplies(s: Db, x: nat, n: nat, ttl: int)
    ensures W.VerifierClaim(s.work, x, n, ttl, s.now).reply
            == if x >= |s.work.submissions| then W.NotFound
               else if && x in s.work.attempts && n in s.work.attempts[x]
                       && s.work.attempts[x][n].status == W.InProgress && s.now < s.work.attempts[x][n].expires
               then W.ClaimedByOther else W.Accept
  {
  }
}
