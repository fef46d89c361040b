/**
 Jobs, submissions, verification attempts and worker reputation. A row's id is
 its position in its table; nonces and claim tokens are drawn from counters,
 which stands for their being fresh. Each operation is one HTTP handler and
 returns the new tables with the reply it sends.
 */
module Work {
  import opened Common

  const LEASE_TTL_MS := 1_200_000

  datatype JobStatus = Open | Claimed | Verifying | Done | Expired

  datatype Verdict = Pass | Fail | Inconclusive

  datatype Lease = Lease(worker: nat, expires: int, nonce: nat)

  datatype Job = Job(
    bounty: nat,
    status: JobStatus,
    lease: Option<Lease>,
    current: Option<nat>,
    verdict: Option<Verdict>)

  datatype SubmissionStatus = Submitted | Duplicate | Accepted | Failed | Undecided

  datatype Submission = Submission(job: nat, worker: nat, key: string, hash: int, status: SubmissionStatus)

  datatype AttemptStatus = Queued | InProgress | Finished

  datatype Attempt = Attempt(status: AttemptStatus, token: Option<nat>, expires: int, verdict: Option<Verdict>)

  type Attempts = map<nat, Attempt>

  datatype Reputation = Reputation(alpha: nat, beta: nat)

  datatype Tables = Tables(
    jobs: seq<Job>,
    submissions: seq<Submission>,
    byKey: map<(nat, nat, string), nat>,   // unique index on (job, worker, idempotency key)
    attempts: map<nat, Attempts>,          // by submission, then by attempt number
    reputation: map<nat, Reputation>,
    nextNonce: nat,
    nextToken: nat,
    maxAttempts: int)

  datatype Reply =
    | Accept
    | AlreadyClaimed | NotFound | StaleJob | NotAvailable
    | NotOwner | LeaseExpired | KeyTooLong | IdempotencyConflict | InvalidArtifact | OriginViolation
    | Existing | DuplicateDone
    | ClaimedByOther | InvalidClaim | AlreadyFinished | ClaimExpired
    | Requeued | Completed

  datatype Out = Out(t: Tables, reply: Reply)

  const NEW_ATTEMPT := Attempt(Queued, None, 0, None)

  // ----- creating, leasing and releasing jobs -----

  function NewJob(bounty: nat): Job {
    Job(bounty, Open, None, None, None)
  }

  function AddJobs(t: Tables, bounty: nat, n: nat): Tables {
    t.(jobs := t.jobs + seq(n, _ => NewJob(bounty)))
  }

  predicate HoldsLease(job: Job, worker: nat) {
    job.lease.Some? && job.lease.value.worker == worker
  }

  predicate LeasePast(job: Job, now: int) {
    job.lease.Some? && job.lease.value.expires < now
  }

  /** A job that counts against its worker: being verified, or leased and not yet timed out. */
  predicate Active(job: Job, now: int) {
    job.status == Verifying || (job.status == Claimed && !LeasePast(job, now))
  }

  /** getActiveJobForWorker: the handler's own check also counts leases that timed out. */
  predicate HasJob(t: Tables, worker: nat) {
    exists j :: 0 <= j < |t.jobs| && HoldsLease(t.jobs[j], worker) && t.jobs[j].status in {Claimed, Verifying}
  }

  function LeaseJob(t: Tables, worker: nat, j: nat, ttl: int, now: int): Out
    requires j < |t.jobs|
  {
    if exists i :: 0 <= i < |t.jobs| && HoldsLease(t.jobs[i], worker) && Active(t.jobs[i], now) then
      Out(t, NotAvailable)
    else if t.jobs[j].status == Open || (t.jobs[j].status == Claimed && LeasePast(t.jobs[j], now)) then
      Out(t.(jobs := t.jobs[j := t.jobs[j].(status := Claimed, lease := Some(Lease(worker, now + ttl, t.nextNonce)))],
             nextNonce := t.nextNonce + 1),
          Accept)
    else
      Out(t, NotAvailable)
  }

  function ClaimJob(t: Tables, worker: nat, j: nat, stale: bool, now: int): Out {
    if HasJob(t, worker) then Out(t, AlreadyClaimed)
    else if j >= |t.jobs| then Out(t, NotFound)
    else if stale then Out(t, StaleJob)
    else if t.jobs[j].status != Open && !LeasePast(t.jobs[j], now) then Out(t, NotAvailable)
    else LeaseJob(t, worker, j, LEASE_TTL_MS, now)
  }

  function ReleaseJob(t: Tables, worker: nat, j: nat, nonce: nat): Out {
    if j >= |t.jobs| then Out(t, NotFound)
    else if && HoldsLease(t.jobs[j], worker)
            && t.jobs[j].lease.value.nonce == nonce
            && t.jobs[j].status == Claimed then
      Out(t.(jobs := t.jobs[j := t.jobs[j].(status := Open, lease := None)]), Accept)
    else if !HoldsLease(t.jobs[j], worker) || t.jobs[j].lease.value.nonce != nonce then Out(t, NotOwner)
    else Out(t, NotAvailable)
  }

  function Reaped(job: Job, now: int): Job {
    if job.status == Claimed && LeasePast(job, now) then job.(status := Expired, lease := None) else job
  }

  function Reap(t: Tables, now: int): Tables {
    t.(jobs := seq(|t.jobs|, i requires 0 <= i < |t.jobs| => Reaped(t.jobs[i], now)))
  }

  // ----- submitting -----

  /** The body of a submit request; the last four fields are what the handler finds out about it. */
  datatype Request = Request(key: string, hash: int, stale: bool, originOk: bool, duplicate: bool, artifactsOk: bool)

  function AddAttempt(t: Tables, s: nat, n: nat): Tables {
    var had := if s in t.attempts then t.attempts[s] else map[];
    t.(attempts := t.attempts[s := had[n := NEW_ATTEMPT]])
  }

  predicate HasAttempt(t: Tables, s: nat, n: nat) {
    s in t.attempts && n in t.attempts[s]
  }

  /** Retry with a known Idempotency-Key: finish whatever the first call left undone. */
  function Resume(t: Tables, j: nat, s: nat, req: Request): Out
    requires j < |t.jobs| && s < |t.submissions|
  {
    if t.submissions[s].hash != req.hash then Out(t, IdempotencyConflict)
    else if !req.artifactsOk then Out(t, InvalidArtifact)
    else
      var t1 := if HasAttempt(t, s, 1) then t else AddAttempt(t, s, 1);
      var job := t1.jobs[j];
      var moved := if job.status in {Claimed, Open} then job.(status := Verifying, current := Some(s))
                   else if job.current.None? then job.(current := Some(s))
                   else job;
      Out(t1.(jobs := t1.jobs[j := moved]), Existing)
  }

  function Insert(t: Tables, j: nat, worker: nat, req: Request): Tables {
    var s := |t.submissions|;
    var row := Submission(j, worker, req.key, req.hash, if req.duplicate then Duplicate else Submitted);
    t.(submissions := t.submissions + [row],
       byKey := if req.key == "" then t.byKey else t.byKey[(j, worker, req.key) := s])
  }

  function SubmitFresh(t: Tables, worker: nat, j: nat, req: Request): Out
    requires j < |t.jobs|
  {
    if req.stale then Out(t, StaleJob)
    else if !req.originOk then Out(t, OriginViolation)
    else
      var s := |t.submissions|;
      var t1 := Insert(t, j, worker, req);
      if !req.artifactsOk then Out(t1, InvalidArtifact)
      else if req.duplicate then
        Out(t1.(jobs := t1.jobs[j := t1.jobs[j].(current := Some(s), status := Done, verdict := Some(Fail))]),
            DuplicateDone)
      else
        Out(AddAttempt(t1, s, 1).(jobs := t1.jobs[j := t1.jobs[j].(current := Some(s), status := Verifying)]), Accept)
  }

  /** findSubmissionByIdempotency. */
  predicate KnownKey(t: Tables, worker: nat, j: nat, key: string) {
    key != "" && (j, worker, key) in t.byKey && t.byKey[(j, worker, key)] < |t.submissions|
  }

  function Submit(t: Tables, worker: nat, j: nat, req: Request, now: int): Out {
    if j >= |t.jobs| then Out(t, NotFound)
    else if !HoldsLease(t.jobs[j], worker) then Out(t, NotOwner)
    else if LeasePast(t.jobs[j], now) then Out(t, LeaseExpired)
    else if |req.key| > 200 then Out(t, KeyTooLong)
    else if && t.jobs[j].current.Some?
            && t.jobs[j].current.value < |t.submissions|
            && t.submissions[t.jobs[j].current.value].worker == worker then Out(t, Existing)
    else if KnownKey(t, worker, j, req.key) then Resume(t, j, t.byKey[(j, worker, req.key)], req)
    else SubmitFresh(t, worker, j, req)
  }

  // ----- verifying -----

  function VerifierClaim(t: Tables, s: nat, n: nat, ttl: int, now: int): Out {
    if s >= |t.submissions| then Out(t, NotFound)
    else
      var t1 := if HasAttempt(t, s, n) then t else AddAttempt(t, s, n);
      var row := t1.attempts[s][n];
      if row.status == InProgress && row.expires > now then Out(t1, ClaimedByOther)
      else
        var claimed := row.(status := InProgress, token := Some(t1.nextToken), expires := now + ttl);
        var m: Attempts := t1.attempts[s][n := claimed];
        Out(t1.(attempts := t1.attempts[s := m], nextToken := t1.nextToken + 1), Accept)
  }

  /** The largest attempt number of a submission, or 1 when it has none. */
  function MaxAttempt(m: Attempts): nat {
    if exists n :: n in m && forall k :: k in m ==> k <= n
    then var n :| n in m && forall k :: k in m ==> k <= n; n
    else 1
  }

  lemma SomeKeyIsLargest(keys: set<nat>) returns (n: nat)
    requires keys != {}
    ensures n in keys && forall k :: k in keys ==> k <= n
  {
    n :| n in keys;
    var others := keys - {n};
    assert forall k :: k in keys ==> k == n || k in others;
    if others != {} {
      var k := SomeKeyIsLargest(others);
      if n < k {
        n := k;
      }
    }
  }

  lemma MaxAttemptIsLargest(m: Attempts)
    requires m != map[]
    ensures MaxAttempt(m) in m && forall k :: k in m ==> k <= MaxAttempt(m)
  {
    var n := SomeKeyIsLargest(m.Keys);
    assert n in m && forall k :: k in m ==> k <= n;
  }

  function RecordReputation(t: Tables, worker: nat, passed: bool): Tables {
    var r := if worker in t.reputation then t.reputation[worker] else Reputation(2, 2);
    t.(reputation := t.reputation[worker := if passed then r.(alpha := r.alpha + 1) else r.(beta := r.beta + 1)])
  }

  function StatusFor(v: Verdict): SubmissionStatus {
    match v
    case Pass => Accepted
    case Fail => Failed
    case Inconclusive => Undecided
  }

  /** The verdict is recorded on the attempt, the submission, the worker's reputation and the job. */
  function RecordVerdict(t: Tables, s: nat, n: nat, v: Verdict): Tables
    requires HasAttempt(t, s, n) && s < |t.submissions| && t.submissions[s].job < |t.jobs|
  {
    var j := t.submissions[s].job;
    var t1 := RecordReputation(t, t.submissions[s].worker, v == Pass);
    t1.(attempts := t.attempts[s := t.attempts[s][n := t.attempts[s][n].(status := Finished, verdict := Some(v))]],
        submissions := t.submissions[s := t.submissions[s].(status := StatusFor(v))],
        jobs := t.jobs[j := t.jobs[j].(verdict := Some(v))])
  }

  /** Why a verdict is not taken, if it is not. */
  function VerdictRefused(t: Tables, s: nat, n: nat, token: nat, now: int): Option<Reply> {
    if !HasAttempt(t, s, n) then Some(NotFound)
    else if t.attempts[s][n].token != Some(token) then Some(InvalidClaim)
    else if t.attempts[s][n].status == Finished then Some(AlreadyFinished)
    else if t.attempts[s][n].expires < now then Some(ClaimExpired)
    else if s >= |t.submissions| || t.submissions[s].job >= |t.jobs| then Some(NotFound)
    else None
  }

  /** An inconclusive verdict starts the next attempt while attempts remain; any other ends the job. */
  function TakeVerdict(t: Tables, s: nat, n: nat, v: Verdict): Out
    requires HasAttempt(t, s, n) && s < |t.submissions| && t.submissions[s].job < |t.jobs|
  {
    var j := t.submissions[s].job;
    var t1 := RecordVerdict(t, s, n, v);
    var last := MaxAttempt(t1.attempts[s]);
    if v == Inconclusive && last < t.maxAttempts then
      Out(AddAttempt(t1, s, last + 1).(jobs := t1.jobs[j := t1.jobs[j].(status := Verifying)]), Requeued)
    else
      Out(t1.(jobs := t1.jobs[j := t1.jobs[j].(status := Done)]), Completed)
  }

  function GiveVerdict(t: Tables, s: nat, n: nat, token: nat, v: Verdict, now: int): Out {
    var refused := VerdictRefused(t, s, n, token, now);
    if refused.Some? then Out(t, refused.value) else TakeVerdict(t, s, n, v)
  }

  // ----- counting jobs -----

  datatype Scope = OfBounty(bounty: nat) | OpenIn(bounties: set<nat>)

  predicate Within(scope: Scope, job: Job) {
    match scope
    case OfBounty(b) => job.bounty == b
    case OpenIn(bs) => job.bounty in bs && job.status in {Open, Claimed, Verifying}
  }

  function Part(scope: Scope, job: Job): nat {
    if Within(scope, job) then 1 else 0
  }

  function Count(jobs: seq<Job>, scope: Scope): nat {
    if jobs == [] then 0 else Count(jobs[..|jobs| - 1], scope) + Part(scope, jobs[|jobs| - 1])
  }

  lemma {:induction false} CountUpdate(jobs: seq<Job>, j: nat, job: Job, scope: Scope)
    requires j < |jobs|
    ensures Count(jobs[j := job], scope) == Count(jobs, scope) - Part(scope, jobs[j]) + Part(scope, job)
  {
    var n := |jobs| - 1;
    if j == n {
      assert jobs[j := job][..n] == jobs[..n];
    } else {
      CountUpdate(jobs[..n], j, job, scope);
      assert jobs[j := job][..n] == jobs[..n][j := job];
    }
  }

  lemma {:induction false} CountAgrees(a: seq<Job>, b: seq<Job>, scopeA: Scope, scopeB: Scope)
    requires |a| == |b|
    requires forall j :: 0 <= j < |a| && Within(scopeA, a[j]) ==> Within(scopeB, b[j])
    ensures Count(a, scopeA) <= Count(b, scopeB)
  {
    if a != [] {
      CountAgrees(a[..|a| - 1], b[..|a| - 1], scopeA, scopeB);
    }
  }

  lemma {:induction false} CountNew(jobs: seq<Job>, bounty: nat, n: nat, scope: Scope)
    ensures Count(jobs + seq(n, _ => NewJob(bounty)), scope) == Count(jobs, scope) + n * Part(scope, NewJob(bounty))
  {
    if n == 0 {
      assert jobs + seq(n, _ => NewJob(bounty)) == jobs;
    } else {
      var more := jobs + seq(n, _ => NewJob(bounty));
      assert more[..|more| - 1] == jobs + seq(n - 1, _ => NewJob(bounty));
      CountNew(jobs, bounty, n - 1, scope);
    }
  }

  lemma {:induction false} CountIsPositive(jobs: seq<Job>, j: nat, scope: Scope)
    requires j < |jobs| && Within(scope, jobs[j])
    ensures Count(jobs, scope) > 0
  {
    if j < |jobs| - 1 {
      CountIsPositive(jobs[..|jobs| - 1], j, scope);
    }
  }

  // ----- what every handler keeps -----

  ghost predicate JobOk(t: Tables, j: nat)
    requires j < |t.jobs|
  {
    var job := t.jobs[j];
    && (job.current.None? <==> job.status in {Open, Claimed, Expired})
    && (job.lease.None? <==> job.status in {Open, Expired})
    && (job.lease.Some? ==> job.lease.value.nonce < t.nextNonce)
    && (job.current.Some? ==>
          && job.current.value < |t.submissions|
          && t.submissions[job.current.value].job == j
          && t.submissions[job.current.value].worker == job.lease.value.worker)
    && (job.status == Verifying ==> job.current.value in t.attempts)
  }

  ghost predicate KeyOk(t: Tables, k: (nat, nat, string))
    requires k in t.byKey
  {
    && t.byKey[k] < |t.submissions|
    && t.submissions[t.byKey[k]].job == k.0
    && t.submissions[t.byKey[k]].worker == k.1
  }

  /** Attempt numbers are 1, 2, ..., k. */
  ghost predicate Numbered(m: Attempts) {
    |m| >= 1 && forall n :: n in m <==> 1 <= n <= |m|
  }

  ghost predicate AttemptsOk(t: Tables, s: nat)
    requires s in t.attempts
  {
    && s < |t.submissions|
    && t.submissions[s].job < |t.jobs|
    && t.jobs[t.submissions[s].job].current == Some(s)
    && Numbered(t.attempts[s])
    && |t.attempts[s]| <= Max(1, t.maxAttempts)
  }

  ghost predicate Jobs(t: Tables) {
    && (forall j :: 0 <= j < |t.jobs| ==> JobOk(t, j))
    && (forall s :: 0 <= s < |t.submissions| ==> t.submissions[s].job < |t.jobs|)
    && (forall k :: k in t.byKey ==> KeyOk(t, k))
  }

  /** Holds in every state reached while verifiers claim only enqueued attempts (H4). */
  ghost predicate Base(t: Tables) {
    Jobs(t) && forall s :: s in t.attempts ==> AttemptsOk(t, s)
  }

  /** All attempts but the last are finished and inconclusive; the job is done once the last one is finished. */
  ghost predicate InSequence(m: Attempts, status: JobStatus)
    requires Numbered(m)
  {
    && (forall n :: 1 <= n < |m| ==> m[n].status == Finished && m[n].verdict == Some(Inconclusive))
    && status == if m[|m|].status == Finished then Done else Verifying
  }

  ghost predicate Sequential(t: Tables, s: nat)
    requires s in t.attempts && AttemptsOk(t, s)
  {
    InSequence(t.attempts[s], t.jobs[t.submissions[s].job].status)
  }

  ghost predicate OneActive(t: Tables, now: int) {
    forall i, j :: 0 <= i < |t.jobs| && 0 <= j < |t.jobs| && i != j
                   && Active(t.jobs[i], now) && Active(t.jobs[j], now) ==>
      t.jobs[i].lease.Some? && t.jobs[j].lease.Some? &&
      t.jobs[i].lease.value.worker != t.jobs[j].lease.value.worker
  }

  /** The verdict starts another attempt. */
  predicate Requeues(t: Tables, s: nat, v: Verdict)
    requires s in t.attempts
  {
    v == Inconclusive && MaxAttempt(t.attempts[s]) < t.maxAttempts
  }

  /** H8: the job is under verification, or it is done and stays so. */
  predicate MayTakeVerdict(t: Tables, s: nat, v: Verdict)
    requires s in t.attempts && s < |t.submissions| && t.submissions[s].job < |t.jobs|
  {
    var status := t.jobs[t.submissions[s].job].status;
    status == Verifying || (status == Done && !Requeues(t, s, v))
  }

  /** Holds while verdicts do not reopen jobs nor end those without a submission (H8), whatever verifiers claim. */
  ghost predicate Orderly(t: Tables, now: int) {
    Jobs(t) && OneActive(t, now)
  }

  /** Holds when, besides, verifiers never claim a finished attempt again (H5). */
  ghost predicate Full(t: Tables, now: int) {
    && Base(t)
    && (forall s :: s in t.attempts ==> Sequential(t, s))
    && OneActive(t, now)
  }

  /** H4: the claim names an attempt that was enqueued. */
  predicate ClaimIsEnqueued(t: Tables, s: nat, n: nat) {
    HasAttempt(t, s, n)
  }

  /** H5: the claim does not name an attempt whose verdict is in. */
  predicate ClaimIsOpen(t: Tables, s: nat, n: nat) {
    HasAttempt(t, s, n) ==> t.attempts[s][n].status != Finished
  }

  lemma MaxAttemptOfNumbered(m: Attempts)
    requires Numbered(m)
    ensures MaxAttempt(m) == |m|
  {
    assert |m| in m;
  }

  // ----- a handler touches one job and one submission -----

  /** Only job j and the attempts of submission s may change; submissions may be added. */
  ghost predicate Touches(t: Tables, t1: Tables, j: nat, s: nat) {
    && j < |t.jobs| == |t1.jobs|
    && (forall i :: 0 <= i < |t.jobs| && i != j ==> t1.jobs[i] == t.jobs[i])
    && |t.submissions| <= |t1.submissions|
    && (forall x :: 0 <= x < |t.submissions| ==>
          t1.submissions[x].job == t.submissions[x].job && t1.submissions[x].worker == t.submissions[x].worker)
    && (forall c :: c != s ==> (c in t1.attempts <==> c in t.attempts))
    && (forall c :: c in t.attempts ==> c in t1.attempts && (c != s ==> t1.attempts[c] == t.attempts[c]))
    && t.nextNonce <= t1.nextNonce && t1.maxAttempts == t.maxAttempts
  }

  lemma TouchKeepsBase(t: Tables, t1: Tables, j: nat, s: nat)
    requires Base(t) && Touches(t, t1, j, s) && (t.jobs[j].current.None? || t.jobs[j].current == Some(s))
    requires JobOk(t1, j) && (s in t1.attempts ==> AttemptsOk(t1, s))
    requires forall x :: |t.submissions| <= x < |t1.submissions| ==> t1.submissions[x].job < |t1.jobs|
    requires forall k :: k in t1.byKey ==> (k in t.byKey && t1.byKey[k] == t.byKey[k]) || KeyOk(t1, k)
    ensures Base(t1)
  {
    forall i | 0 <= i < |t1.jobs|
      ensures JobOk(t1, i)
    {
      assert JobOk(t, i);
    }
    forall c | c in t1.attempts
      ensures AttemptsOk(t1, c)
    {
      if c != s {
        assert AttemptsOk(t, c);
      }
    }
    forall k | k in t1.byKey
      ensures KeyOk(t1, k)
    {
      assert k in t.byKey ==> KeyOk(t, k);
    }
  }

  lemma TouchKeepsSequential(t: Tables, t1: Tables, j: nat, s: nat, now: int)
    requires Full(t, now) && Touches(t, t1, j, s) && (t.jobs[j].current.None? || t.jobs[j].current == Some(s))
    requires Base(t1) && (s in t1.attempts ==> Sequential(t1, s))
    ensures forall c :: c in t1.attempts ==> Sequential(t1, c)
  {
    forall c | c in t1.attempts
      ensures Sequential(t1, c)
    {
      if c != s {
        assert AttemptsOk(t, c) && Sequential(t, c) && AttemptsOk(t1, c);
      }
    }
  }

  /** No two jobs of one worker become active when no job newly does. */
  lemma ActiveShrinks(t: Tables, t1: Tables, now: int, now1: int)
    requires OneActive(t, now)
    requires forall i :: 0 <= i < |t1.jobs| && Active(t1.jobs[i], now1) ==>
               i < |t.jobs| && Active(t.jobs[i], now) && t1.jobs[i].lease == t.jobs[i].lease
    ensures OneActive(t1, now1)
  {
  }

  lemma TouchKeepsFull(t: Tables, t1: Tables, j: nat, s: nat, now: int)
    requires Full(t, now) && Touches(t, t1, j, s) && (t.jobs[j].current.None? || t.jobs[j].current == Some(s))
    requires Base(t1) && (s in t1.attempts ==> Sequential(t1, s))
    requires Active(t1.jobs[j], now) ==> Active(t.jobs[j], now) && t1.jobs[j].lease == t.jobs[j].lease
    ensures Full(t1, now)
  {
    TouchKeepsSequential(t, t1, j, s, now);
    ActiveShrinks(t, t1, now, now);
  }

  lemma FullParts(t: Tables, s: nat, now: int)
    requires Full(t, now) && s in t.attempts
    ensures AttemptsOk(t, s) && Sequential(t, s)
  {
  }

  lemma BaseParts(t: Tables, s: nat)
    requires Base(t) && s in t.attempts
    ensures AttemptsOk(t, s) && JobOk(t, t.submissions[s].job)
  {
  }

  // ----- lemmas: one handler each -----

  lemma AddJobsKeeps(t: Tables, bounty: nat, n: nat, now: int)
    requires Base(t)
    ensures Base(AddJobs(t, bounty, n))
    ensures Full(t, now) ==> Full(AddJobs(t, bounty, n), now)
  {
    var t1 := AddJobs(t, bounty, n);
    forall j | 0 <= j < |t1.jobs|
      ensures JobOk(t1, j)
    {
      assert j < |t.jobs| ==> JobOk(t, j) && t1.jobs[j] == t.jobs[j];
    }
    forall s | s in t1.attempts
      ensures AttemptsOk(t1, s)
    {
      assert AttemptsOk(t, s);
    }
    forall k | k in t1.byKey
      ensures KeyOk(t1, k)
    {
      assert KeyOk(t, k);
    }
    if Full(t, now) {
      forall s | s in t1.attempts
        ensures Sequential(t1, s)
      {
        assert AttemptsOk(t, s) && Sequential(t, s);
      }
      ActiveShrinks(t, t1, now, now);
    }
  }

  /** Leasing and releasing concern jobs that have no submission. */
  lemma NoCurrent(t: Tables, j: nat)
    requires Base(t) && j < |t.jobs| && t.jobs[j].status in {Open, Claimed}
    ensures t.jobs[j].current.None?
    ensures forall s :: s in t.attempts ==> s != |t.submissions|
  {
    assert JobOk(t, j);
    forall s | s in t.attempts
      ensures s != |t.submissions|
    {
      assert AttemptsOk(t, s);
    }
  }

  lemma ClaimJobKeepsBase(t: Tables, worker: nat, j: nat, stale: bool, now: int)
    requires Base(t)
    ensures Base(ClaimJob(t, worker, j, stale, now).t)
  {
    var t1 := ClaimJob(t, worker, j, stale, now).t;
    if t1 != t {
      NoCurrent(t, j);
      TouchKeepsBase(t, t1, j, |t.submissions|);
    }
  }

  lemma ClaimJobKeepsFull(t: Tables, worker: nat, j: nat, stale: bool, now: int)
    requires Full(t, now)
    ensures Full(ClaimJob(t, worker, j, stale, now).t, now)
  {
    var t1 := ClaimJob(t, worker, j, stale, now).t;
    ClaimJobKeepsBase(t, worker, j, stale, now);
    if t1 != t {
      NoCurrent(t, j);
      TouchKeepsSequential(t, t1, j, |t.submissions|, now);
      ClaimJobKeepsOneActive(t, worker, j, stale, now);
    }
  }

  lemma ClaimJobKeepsOneActive(t: Tables, worker: nat, j: nat, stale: bool, now: int)
    requires Jobs(t) && OneActive(t, now) && ClaimJob(t, worker, j, stale, now).t != t
    ensures OneActive(ClaimJob(t, worker, j, stale, now).t, now)
  {
    var t1 := ClaimJob(t, worker, j, stale, now).t;
    forall i | 0 <= i < |t1.jobs| && i != j && Active(t1.jobs[i], now)
      ensures t1.jobs[i].lease.Some? && t1.jobs[i].lease.value.worker != worker
    {
      assert JobOk(t, i) && t1.jobs[i] == t.jobs[i];
    }
    assert HoldsLease(t1.jobs[j], worker);
  }

  lemma ReleaseJobKeeps(t: Tables, worker: nat, j: nat, nonce: nat, now: int)
    requires Base(t)
    ensures Base(ReleaseJob(t, worker, j, nonce).t)
    ensures Full(t, now) ==> Full(ReleaseJob(t, worker, j, nonce).t, now)
  {
    var t1 := ReleaseJob(t, worker, j, nonce).t;
    if t1 != t {
      NoCurrent(t, j);
      TouchKeepsBase(t, t1, j, |t.submissions|);
      if Full(t, now) {
        TouchKeepsFull(t, t1, j, |t.submissions|, now);
      }
    }
  }

  lemma ReapKeeps(t: Tables, now: int)
    requires Base(t)
    ensures Base(Reap(t, now))
    ensures Full(t, now) ==> Full(Reap(t, now), now)
  {
    var t1 := Reap(t, now);
    forall i | 0 <= i < |t1.jobs|
      ensures JobOk(t1, i)
    {
      assert JobOk(t, i);
    }
    forall s | s in t1.attempts
      ensures AttemptsOk(t1, s) && t1.jobs[t.submissions[s].job] == t.jobs[t.submissions[s].job]
    {
      assert AttemptsOk(t, s) && JobOk(t, t.submissions[s].job);
    }
    forall k | k in t1.byKey
      ensures KeyOk(t1, k)
    {
      assert KeyOk(t, k);
    }
    if Full(t, now) {
      forall s | s in t1.attempts
        ensures Sequential(t1, s)
      {
        FullParts(t, s, now);
      }
      ActiveShrinks(t, t1, now, now);
    }
  }

  /** The one way a job gets a submission: attempt 1 is added and the leased job moves to verifying. */
  function Started(t: Tables, j: nat, s: nat): Tables
    requires j < |t.jobs|
  {
    AddAttempt(t, s, 1).(jobs := t.jobs[j := t.jobs[j].(status := Verifying, current := Some(s))])
  }

  ghost predicate MayStart(t: Tables, j: nat, s: nat, now: int) {
    && j < |t.jobs| && t.jobs[j].status == Claimed
    && s < |t.submissions| && s !in t.attempts && t.submissions[s].job == j
    && HoldsLease(t.jobs[j], t.submissions[s].worker) && !LeasePast(t.jobs[j], now)
  }

  lemma StartKeeps(t: Tables, j: nat, s: nat, now: int)
    requires Base(t) && MayStart(t, j, s, now)
    ensures Base(Started(t, j, s))
    ensures Full(t, now) ==> Full(Started(t, j, s), now)
  {
    assert JobOk(t, j);
    StartKeepsBase(t, j, s, now);
    StartTouches(t, j, s, now);
    hide Base, Full, OneActive, Touches, JobOk, AttemptsOk, Sequential;
    if Full(t, now) {
      TouchKeepsFull(t, Started(t, j, s), j, s, now);
    }
  }

  lemma StartTouches(t: Tables, j: nat, s: nat, now: int)
    requires MayStart(t, j, s, now) && JobOk(t, j)
    ensures Touches(t, Started(t, j, s), j, s) && JobOk(Started(t, j, s), j)
    ensures s in Started(t, j, s).attempts && AttemptsOk(Started(t, j, s), s)
    ensures Sequential(Started(t, j, s), s) && t.jobs[j].current.None?
  {
    NextNumber(map[], NEW_ATTEMPT);
  }

  lemma StartKeepsBase(t: Tables, j: nat, s: nat, now: int)
    requires Base(t) && MayStart(t, j, s, now)
    ensures Base(Started(t, j, s))
  {
    assert JobOk(t, j);
    StartTouches(t, j, s, now);
    hide Base, Touches, JobOk, AttemptsOk;
    TouchKeepsBase(t, Started(t, j, s), j, s);
  }

  lemma InsertKeeps(t: Tables, j: nat, worker: nat, req: Request, now: int)
    requires Base(t) && j < |t.jobs| && t.jobs[j].status == Claimed
    ensures Base(Insert(t, j, worker, req))
    ensures Full(t, now) ==> Full(Insert(t, j, worker, req), now)
    ensures |t.submissions| !in t.attempts
  {
    var t1 := Insert(t, j, worker, req);
    NoCurrent(t, j);
    assert JobOk(t, j);
    TouchKeepsBase(t, t1, j, |t.submissions|);
    if Full(t, now) {
      TouchKeepsFull(t, t1, j, |t.submissions|, now);
    }
  }

  lemma DuplicateKeeps(t: Tables, j: nat, s: nat, now: int)
    requires Base(t) && MayStart(t, j, s, now)
    ensures var t1 := t.(jobs := t.jobs[j := t.jobs[j].(current := Some(s), status := Done, verdict := Some(Fail))]);
            Base(t1) && (Full(t, now) ==> Full(t1, now))
  {
    var t1 := t.(jobs := t.jobs[j := t.jobs[j].(current := Some(s), status := Done, verdict := Some(Fail))]);
    assert JobOk(t, j);
    TouchKeepsBase(t, t1, j, s);
    if Full(t, now) {
      TouchKeepsFull(t, t1, j, s, now);
    }
  }

  /** A submit that changes anything finds the job leased to its worker and without a submission. */
  lemma SubmitFindsClaimed(t: Tables, worker: nat, j: nat, req: Request, now: int)
    requires Jobs(t) && Submit(t, worker, j, req, now).t != t
    ensures j < |t.jobs| && t.jobs[j].status == Claimed && t.jobs[j].current.None?
    ensures HoldsLease(t.jobs[j], worker) && !LeasePast(t.jobs[j], now)
    ensures Base(t) && KnownKey(t, worker, j, req.key) ==> MayStart(t, j, t.byKey[(j, worker, req.key)], now)
  {
    assert JobOk(t, j);
    if Base(t) && KnownKey(t, worker, j, req.key) {
      assert KeyOk(t, (j, worker, req.key));
      forall c | c in t.attempts
        ensures t.submissions[c].job != j
      {
        assert AttemptsOk(t, c);
      }
    }
  }

  lemma SubmitKeeps(t: Tables, worker: nat, j: nat, req: Request, now: int)
    requires Base(t)
    ensures Base(Submit(t, worker, j, req, now).t)
    ensures Full(t, now) ==> Full(Submit(t, worker, j, req, now).t, now)
  {
    if Submit(t, worker, j, req, now).t != t {
      SubmitFindsClaimed(t, worker, j, req, now);
      if KnownKey(t, worker, j, req.key) {
        StartKeeps(t, j, t.byKey[(j, worker, req.key)], now);
      } else {
        var t1, s := Insert(t, j, worker, req), |t.submissions|;
        InsertKeeps(t, j, worker, req, now);
        assert MayStart(t1, j, s, now);
        DuplicateKeeps(t1, j, s, now);
        StartKeeps(t1, j, s, now);
      }
    }
  }

  /** In a sequence the unfinished attempt is the last one; claiming it changes nothing else. */
  lemma ReclaimInSequence(m: Attempts, status: JobStatus, n: nat, row: Attempt)
    requires Numbered(m) && InSequence(m, status) && n in m && m[n].status != Finished && row.status != Finished
    ensures n == |m|
    ensures Numbered(m[n := row]) && InSequence(m[n := row], status)
  {
    SameNumbers(m, n, row);
  }

  lemma NextNumber(m: Attempts, row: Attempt)
    requires m == map[] || Numbered(m)
    ensures Numbered(m[|m| + 1 := row]) && |m[|m| + 1 := row]| == |m| + 1
  {
    assert |m| + 1 !in m;
  }

  lemma SameNumbers(m: Attempts, n: nat, row: Attempt)
    requires n in m
    ensures m[n := row].Keys == m.Keys && |m[n := row]| == |m|
    ensures Numbered(m) ==> Numbered(m[n := row])
  {
    assert |m[n := row]| == |m[n := row].Keys| == |m.Keys|;
  }

  lemma VerifierClaimTouches(t: Tables, s: nat, n: nat, ttl: int, now: int)
    requires HasAttempt(t, s, n) && AttemptsOk(t, s) && JobOk(t, t.submissions[s].job)
    ensures var t1, j := VerifierClaim(t, s, n, ttl, now).t, t.submissions[s].job;
            && Touches(t, t1, j, s) && JobOk(t1, j) && AttemptsOk(t1, s)
            && t1.jobs == t.jobs && t1.submissions == t.submissions && t1.byKey == t.byKey
            && (Sequential(t, s) && ClaimIsOpen(t, s, n) ==> Sequential(t1, s))
  {
    var t1 := VerifierClaim(t, s, n, ttl, now).t;
    if t1 != t {
      SameNumbers(t.attempts[s], n, t1.attempts[s][n]);
      if Sequential(t, s) && ClaimIsOpen(t, s, n) {
        ReclaimInSequence(t.attempts[s], t.jobs[t.submissions[s].job].status, n, t1.attempts[s][n]);
      }
    }
  }

  lemma VerifierClaimKeepsBase(t: Tables, s: nat, n: nat, ttl: int, now: int)
    requires Base(t) && ClaimIsEnqueued(t, s, n)
    ensures Base(VerifierClaim(t, s, n, ttl, now).t)
  {
    BaseParts(t, s);
    VerifierClaimTouches(t, s, n, ttl, now);
    hide Base, VerifierClaim, Touches, JobOk;
    TouchKeepsBase(t, VerifierClaim(t, s, n, ttl, now).t, t.submissions[s].job, s);
  }

  lemma VerifierClaimKeepsFull(t: Tables, s: nat, n: nat, ttl: int, now: int)
    requires Full(t, now) && ClaimIsEnqueued(t, s, n) && ClaimIsOpen(t, s, n)
    ensures Full(VerifierClaim(t, s, n, ttl, now).t, now)
  {
    FullParts(t, s, now);
    BaseParts(t, s);
    VerifierClaimKeepsBase(t, s, n, ttl, now);
    VerifierClaimTouches(t, s, n, ttl, now);
    hide Base, Full, OneActive, VerifierClaim, Touches, JobOk, Sequential;
    TouchKeepsFull(t, VerifierClaim(t, s, n, ttl, now).t, t.submissions[s].job, s, now);
  }

  lemma RecordVerdictKeeps(t: Tables, s: nat, n: nat, v: Verdict)
    requires Base(t) && HasAttempt(t, s, n)
    ensures AttemptsOk(t, s)
    ensures var t1 := RecordVerdict(t, s, n, v);
            && Base(t1)
            && |t1.attempts[s]| == |t.attempts[s]| == MaxAttempt(t1.attempts[s])
            && t1.submissions[s].job == t.submissions[s].job
            && t1.maxAttempts == t.maxAttempts
            && Touches(t, t1, t.submissions[s].job, s)
  {
    BaseParts(t, s);
    hide MaxAttempt, Base, Numbered;
    var t1 := RecordVerdict(t, s, n, v);
    SameNumbers(t.attempts[s], n, t1.attempts[s][n]);
    MaxAttemptOfNumbered(t1.attempts[s]);
    RecordVerdictTouches(t, s, n, v);
    hide RecordVerdict, Touches;
    TouchKeepsBase(t, t1, t.submissions[s].job, s);
  }

  lemma RecordVerdictTouches(t: Tables, s: nat, n: nat, v: Verdict)
    requires HasAttempt(t, s, n) && AttemptsOk(t, s) && JobOk(t, t.submissions[s].job)
    ensures var t1, j := RecordVerdict(t, s, n, v), t.submissions[s].job;
            && Touches(t, t1, j, s) && JobOk(t1, j) && AttemptsOk(t1, s)
            && t1.byKey == t.byKey && t1.submissions[s].job == j && |t1.submissions| == |t.submissions|
  {
    var t1 := RecordVerdict(t, s, n, v);
    SameNumbers(t.attempts[s], n, t1.attempts[s][n]);
  }

  /** A submission under way gets its next attempt. */
  function Again(t: Tables, s: nat): Tables
    requires s in t.attempts && s < |t.submissions| && t.submissions[s].job < |t.jobs|
  {
    var j := t.submissions[s].job;
    AddAttempt(t, s, |t.attempts[s]| + 1).(jobs := t.jobs[j := t.jobs[j].(status := Verifying)])
  }

  lemma AgainTouches(t: Tables, s: nat)
    requires s in t.attempts && |t.attempts[s]| < t.maxAttempts && AttemptsOk(t, s) && JobOk(t, t.submissions[s].job)
    ensures var t1, j := Again(t, s), t.submissions[s].job;
            Touches(t, t1, j, s) && JobOk(t1, j) && AttemptsOk(t1, s)
  {
    NextNumber(t.attempts[s], NEW_ATTEMPT);
  }

  lemma NextAttemptKeepsBase(t: Tables, s: nat)
    requires Base(t) && s in t.attempts && |t.attempts[s]| < t.maxAttempts
    ensures AttemptsOk(t, s) && Base(Again(t, s))
  {
    BaseParts(t, s);
    AgainTouches(t, s);
    hide Base, Touches, JobOk;
    TouchKeepsBase(t, Again(t, s), t.submissions[s].job, s);
  }

  lemma JobOverKeepsBase(t: Tables, s: nat)
    requires Base(t) && s in t.attempts
    ensures AttemptsOk(t, s)
    ensures var j := t.submissions[s].job; Base(t.(jobs := t.jobs[j := t.jobs[j].(status := Done)]))
  {
    assert AttemptsOk(t, s);
    var j := t.submissions[s].job;
    assert JobOk(t, j);
    TouchKeepsBase(t, t.(jobs := t.jobs[j := t.jobs[j].(status := Done)]), j, s);
  }

  lemma TakeVerdictKeepsBase(t: Tables, s: nat, n: nat, v: Verdict)
    requires Base(t) && HasAttempt(t, s, n)
    ensures AttemptsOk(t, s)
    ensures Base(TakeVerdict(t, s, n, v).t)
  {
    hide MaxAttempt, RecordVerdict, Base;
    RecordVerdictKeeps(t, s, n, v);
    var t1 := RecordVerdict(t, s, n, v);
    if v == Inconclusive && MaxAttempt(t1.attempts[s]) < t.maxAttempts {
      NextAttemptKeepsBase(t1, s);
    } else {
      JobOverKeepsBase(t1, s);
    }
  }

  lemma FinishInSequence(m: Attempts, status: JobStatus, n: nat, v: Verdict)
    requires Numbered(m) && InSequence(m, status) && n in m && m[n].status != Finished
    ensures n == |m|
    ensures var m1 := m[n := m[n].(status := Finished, verdict := Some(v))];
            && Numbered(m1) && InSequence(m1, Done)
            && (v == Inconclusive ==>
                  Numbered(m1[n + 1 := NEW_ATTEMPT]) && InSequence(m1[n + 1 := NEW_ATTEMPT], Verifying))
  {
    SameNumbers(m, n, m[n].(status := Finished, verdict := Some(v)));
  }

  /** What a verdict that is taken does. */
  lemma TakeVerdictEffect(t: Tables, s: nat, n: nat, v: Verdict)
    requires Base(t) && HasAttempt(t, s, n)
    ensures AttemptsOk(t, s)
    ensures var out, m, j := TakeVerdict(t, s, n, v), t.attempts[s], t.submissions[s].job;
            var m1 := m[n := m[n].(status := Finished, verdict := Some(v))];
            var again := v == Inconclusive && |m| < t.maxAttempts;
            && Touches(t, out.t, j, s)
            && out.t.attempts[s] == (if again then m1[|m| + 1 := NEW_ATTEMPT] else m1)
            && out.t.jobs[j] == t.jobs[j].(verdict := Some(v), status := if again then Verifying else Done)
            && out.reply == if again then Requeued else Completed
  {
    hide MaxAttempt, Base;
    RecordVerdictKeeps(t, s, n, v);
  }

  lemma TakeVerdictInSequence(t: Tables, s: nat, n: nat, v: Verdict)
    requires Base(t) && HasAttempt(t, s, n) && t.attempts[s][n].status != Finished
    requires AttemptsOk(t, s) && Sequential(t, s)
    ensures var t2, j := TakeVerdict(t, s, n, v).t, t.submissions[s].job;
            && Touches(t, t2, j, s) && t2.submissions[s].job == j
            && Numbered(t2.attempts[s]) && InSequence(t2.attempts[s], t2.jobs[j].status)
            && t2.jobs[j].lease == t.jobs[j].lease
    ensures t.jobs[t.submissions[s].job].status == Verifying && n == |t.attempts[s]|
  {
    hide TakeVerdict, Base, JobOk;
    TakeVerdictEffect(t, s, n, v);
    FinishInSequence(t.attempts[s], Verifying, n, v);
    hide Numbered, InSequence;
  }

  lemma TakeVerdictKeepsFull(t: Tables, s: nat, n: nat, v: Verdict, now: int)
    requires Full(t, now) && HasAttempt(t, s, n) && t.attempts[s][n].status != Finished
    ensures AttemptsOk(t, s)
    ensures Full(TakeVerdict(t, s, n, v).t, now)
    ensures t.jobs[t.submissions[s].job].status == Verifying && n == |t.attempts[s]|
  {
    FullParts(t, s, now);
    TakeVerdictKeepsBase(t, s, n, v);
    TakeVerdictInSequence(t, s, n, v);
    hide TakeVerdict, Base, Full, OneActive, InSequence, JobOk, Touches, Numbered;
    TouchKeepsFull(t, TakeVerdict(t, s, n, v).t, t.submissions[s].job, s, now);
  }

  // ----- what holds without H4 and H5 -----

  /** Only job j may change; submissions and attempts may be added. */
  ghost predicate Alters(t: Tables, t1: Tables, j: nat) {
    && j < |t.jobs| == |t1.jobs|
    && (forall i :: 0 <= i < |t.jobs| && i != j ==> t1.jobs[i] == t.jobs[i])
    && |t.submissions| <= |t1.submissions|
    && (forall x :: 0 <= x < |t.submissions| ==>
          t1.submissions[x].job == t.submissions[x].job && t1.submissions[x].worker == t.submissions[x].worker)
    && (forall x :: |t.submissions| <= x < |t1.submissions| ==> t1.submissions[x].job < |t1.jobs|)
    && (forall k :: k in t1.byKey ==> (k in t.byKey && t1.byKey[k] == t.byKey[k]) || KeyOk(t1, k))
    && t.attempts.Keys <= t1.attempts.Keys && t.nextNonce <= t1.nextNonce
  }

  lemma AlterKeepsOrder(t: Tables, t1: Tables, j: nat, now: int)
    requires Orderly(t, now) && Alters(t, t1, j) && JobOk(t1, j)
    requires Active(t1.jobs[j], now) ==> Active(t.jobs[j], now) && t1.jobs[j].lease == t.jobs[j].lease
    ensures Orderly(t1, now)
  {
    AlterKeepsJobs(t, t1, j);
    ActiveShrinks(t, t1, now, now);
  }

  lemma AlterKeepsJobs(t: Tables, t1: Tables, j: nat)
    requires Jobs(t) && Alters(t, t1, j) && JobOk(t1, j)
    ensures Jobs(t1)
  {
    forall i | 0 <= i < |t1.jobs|
      ensures JobOk(t1, i)
    {
      assert JobOk(t, i);
    }
    forall k | k in t1.byKey
      ensures KeyOk(t1, k)
    {
      assert k in t.byKey ==> KeyOk(t, k);
    }
  }

  lemma AddJobsKeepsOrder(t: Tables, bounty: nat, n: nat, now: int)
    requires Orderly(t, now)
    ensures Orderly(AddJobs(t, bounty, n), now)
  {
    var t1 := AddJobs(t, bounty, n);
    forall j | 0 <= j < |t1.jobs|
      ensures JobOk(t1, j)
    {
      assert j < |t.jobs| ==> JobOk(t, j) && t1.jobs[j] == t.jobs[j];
    }
    forall k | k in t1.byKey
      ensures KeyOk(t1, k)
    {
      assert KeyOk(t, k);
    }
    ActiveShrinks(t, t1, now, now);
  }

  lemma ClaimJobKeepsOrder(t: Tables, worker: nat, j: nat, stale: bool, now: int)
    requires Orderly(t, now)
    ensures Orderly(ClaimJob(t, worker, j, stale, now).t, now)
  {
    var t1 := ClaimJob(t, worker, j, stale, now).t;
    if t1 != t {
      assert JobOk(t, j);
      AlterKeepsJobs(t, t1, j);
      ClaimJobKeepsOneActive(t, worker, j, stale, now);
    }
  }

  lemma ReleaseJobKeepsOrder(t: Tables, worker: nat, j: nat, nonce: nat, now: int)
    requires Orderly(t, now)
    ensures Orderly(ReleaseJob(t, worker, j, nonce).t, now)
  {
    var t1 := ReleaseJob(t, worker, j, nonce).t;
    if t1 != t {
      assert JobOk(t, j);
      AlterKeepsOrder(t, t1, j, now);
    }
  }

  lemma ReapKeepsOrder(t: Tables, now: int)
    requires Orderly(t, now)
    ensures Orderly(Reap(t, now), now)
  {
    var t1 := Reap(t, now);
    forall i | 0 <= i < |t1.jobs|
      ensures JobOk(t1, i)
    {
      assert JobOk(t, i);
    }
    forall k | k in t1.byKey
      ensures KeyOk(t1, k)
    {
      assert KeyOk(t, k);
    }
    ActiveShrinks(t, t1, now, now);
  }

  lemma SubmitKeepsOrder(t: Tables, worker: nat, j: nat, req: Request, now: int)
    requires Orderly(t, now)
    ensures Orderly(Submit(t, worker, j, req, now).t, now)
  {
    var t1 := Submit(t, worker, j, req, now).t;
    if t1 != t {
      SubmitFindsClaimed(t, worker, j, req, now);
      assert JobOk(t, j);
      assert KnownKey(t, worker, j, req.key) ==> KeyOk(t, (j, worker, req.key));
      SubmitAlters(t, worker, j, req, now);
      hide Submit;
      AlterKeepsOrder(t, t1, j, now);
    }
  }

  lemma SubmitAlters(t: Tables, worker: nat, j: nat, req: Request, now: int)
    requires j < |t.jobs| && JobOk(t, j) && t.jobs[j].status == Claimed && HoldsLease(t.jobs[j], worker)
    requires KnownKey(t, worker, j, req.key) ==> KeyOk(t, (j, worker, req.key))
    ensures var t1 := Submit(t, worker, j, req, now).t;
            Alters(t, t1, j) && JobOk(t1, j) && t1.jobs[j].lease == t.jobs[j].lease
  {
    FreshAlters(t, worker, j, req);
    if KnownKey(t, worker, j, req.key) {
      ResumeAlters(t, worker, j, t.byKey[(j, worker, req.key)], req);
    }
    hide SubmitFresh, Resume, Alters, JobOk;
  }

  lemma ResumeAlters(t: Tables, worker: nat, j: nat, s: nat, req: Request)
    requires j < |t.jobs| && JobOk(t, j) && t.jobs[j].status == Claimed && HoldsLease(t.jobs[j], worker)
    requires s < |t.submissions| && t.submissions[s].job == j && t.submissions[s].worker == worker
    ensures var t1 := Resume(t, j, s, req).t;
            Alters(t, t1, j) && JobOk(t1, j) && t1.jobs[j].lease == t.jobs[j].lease
  {
  }

  lemma FreshAlters(t: Tables, worker: nat, j: nat, req: Request)
    requires j < |t.jobs| && JobOk(t, j) && t.jobs[j].status == Claimed && HoldsLease(t.jobs[j], worker)
    ensures var t1 := SubmitFresh(t, worker, j, req).t;
            Alters(t, t1, j) && JobOk(t1, j) && t1.jobs[j].lease == t.jobs[j].lease
  {
  }

  lemma VerifierClaimKeepsOrder(t: Tables, s: nat, n: nat, ttl: int, now: int)
    requires Orderly(t, now)
    ensures Orderly(VerifierClaim(t, s, n, ttl, now).t, now)
  {
    var t1 := VerifierClaim(t, s, n, ttl, now).t;
    if s < |t.submissions| {
      assert JobOk(t, t.submissions[s].job);
      AlterKeepsOrder(t, t1, t.submissions[s].job, now);
    }
  }

  lemma TakeVerdictKeepsOrder(t: Tables, s: nat, n: nat, v: Verdict, now: int)
    requires Orderly(t, now) && HasAttempt(t, s, n) && s < |t.submissions| && t.submissions[s].job < |t.jobs|
    requires MayTakeVerdict(t, s, v)
    ensures Orderly(TakeVerdict(t, s, n, v).t, now)
  {
    assert JobOk(t, t.submissions[s].job);
    TakeVerdictAlters(t, s, n, v);
    hide TakeVerdict;
    AlterKeepsOrder(t, TakeVerdict(t, s, n, v).t, t.submissions[s].job, now);
  }

  lemma TakeVerdictAlters(t: Tables, s: nat, n: nat, v: Verdict)
    requires HasAttempt(t, s, n) && s < |t.submissions| && t.submissions[s].job < |t.jobs|
    requires JobOk(t, t.submissions[s].job) && MayTakeVerdict(t, s, v)
    ensures var t1, j := TakeVerdict(t, s, n, v).t, t.submissions[s].job;
            && Alters(t, t1, j) && JobOk(t1, j) && |t1.submissions| == |t.submissions|
            && t1.jobs[j].lease == t.jobs[j].lease && (t.jobs[j].status == Done ==> t1.jobs[j].status == Done)
  {
    TakeVerdictRequeues(t, s, n, v);
    hide MaxAttempt, Requeues;
  }

  /** What the job of a verdict comes to. */
  lemma TakeVerdictRequeues(t: Tables, s: nat, n: nat, v: Verdict)
    requires HasAttempt(t, s, n) && s < |t.submissions| && t.submissions[s].job < |t.jobs|
    ensures var t1, j := TakeVerdict(t, s, n, v).t, t.submissions[s].job;
            && |t1.jobs| == |t.jobs|
            && t1.jobs[j] == t.jobs[j].(verdict := Some(v), status := if Requeues(t, s, v) then Verifying else Done)
  {
    hide MaxAttempt;
    var t1, j := RecordVerdict(t, s, n, v), t.submissions[s].job;
    assert t1.attempts[s].Keys == t.attempts[s].Keys;
    SameMaxAttempt(t.attempts[s], t1.attempts[s]);
    assert t1.jobs == t.jobs[j := t.jobs[j].(verdict := Some(v))] && t1.maxAttempts == t.maxAttempts;
    hide RecordVerdict;
  }

  lemma SameMaxAttempt(m: Attempts, m1: Attempts)
    requires m != map[] && m1.Keys == m.Keys
    ensures MaxAttempt(m1) == MaxAttempt(m)
  {
    MaxAttemptIsLargest(m);
    assert m1 != map[] by {
      assert MaxAttempt(m) in m1;
    }
    MaxAttemptIsLargest(m1);
    hide MaxAttempt;
  }
}
