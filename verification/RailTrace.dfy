/**
 Counting along a run: how many verdicts a submission can get, and what a worker's
 reputation says about the verdicts given so far.
 */
module RailTrace {
  import opened Common
  import opened Rail
  import opened RailSteps
  import opened RailSafety
  import opened RailResults
  import W = Work
  import L = Ledger

  predicate TakenOn(s: Db, e: Step, x: nat) {
    Taken(s, e) && e.submission == x
  }

  /** A taken verdict on a submission of the worker that was, or was not, a pass. */
  predicate TakenFor(s: Db, e: Step, worker: nat, passed: bool) {
    && Taken(s, e)
    && s.work.submissions[e.submission].worker == worker
    && (e.verdict == W.Pass) == passed
  }

  ghost function VerdictsOn(s: Db, steps: seq<Step>, x: nat): nat
    decreases |steps|
  {
    if steps == [] then 0
    else (if TakenOn(s, steps[0], x) then 1 else 0) + VerdictsOn(Next(s, steps[0]), steps[1..], x)
  }

  ghost function VerdictsFor(s: Db, steps: seq<Step>, worker: nat, passed: bool): nat
    decreases |steps|
  {
    if steps == [] then 0
    else (if TakenFor(s, steps[0], worker, passed) then 1 else 0)
         + VerdictsFor(Next(s, steps[0]), steps[1..], worker, passed)
  }

  // ----- reputation -----

  function ReputationOf(t: W.Tables, worker: nat): W.Reputation {
    if worker in t.reputation then t.reputation[worker] else W.Reputation(2, 2)
  }

  function ExpectedPassRate(t: W.Tables, worker: nat): real
    requires ReputationOf(t, worker).alpha > 0
  {
    if worker !in t.reputation then 0.5
    else t.reputation[worker].alpha as real / (t.reputation[worker].alpha + t.reputation[worker].beta) as real
  }

  lemma StepReputation(s: Db, e: Step, worker: nat)
    ensures var r, r1 := ReputationOf(s.work, worker), ReputationOf(Next(s, e).work, worker);
            && r1.alpha == r.alpha + (if TakenFor(s, e, worker, true) then 1 else 0)
            && r1.beta == r.beta + (if TakenFor(s, e, worker, false) then 1 else 0)
  {
    if e.GiveVerdict? {
      hide Next, W.TakeVerdict, W.VerdictRefused;
      if Taken(s, e) {
        TakenStep(s, e);
        VerdictCounts(s.work, e.submission, e.attempt, e.verdict);
      } else {
        RefusedStep(s, e);
      }
    } else if IsWorkStep(e) {
      OtherWorkKeepsReputation(s, e);
    } else {
      OthersKeepWork(s, e);
      hide Next;
    }
  }

  /** A verdict counts for the worker of its submission, and for no other. */
  lemma VerdictCounts(t: W.Tables, x: nat, n: nat, v: W.Verdict)
    requires W.HasAttempt(t, x, n) && x < |t.submissions| && t.submissions[x].job < |t.jobs|
    ensures W.TakeVerdict(t, x, n, v).t.reputation
            == W.RecordReputation(t, t.submissions[x].worker, v == W.Pass).reputation
  {
    hide W.MaxAttempt;
  }

  lemma OtherWorkKeepsReputation(s: Db, e: Step)
    requires IsWorkStep(e) && !e.GiveVerdict?
    ensures Next(s, e).work.reputation == s.work.reputation
  {
    hide L.Publish;
  }

  /** Started at two each, alpha has counted the passes of the worker's submissions and beta all other verdicts. */
  lemma {:induction false} ReputationCounts(s: Db, steps: seq<Step>, worker: nat)
    ensures var r, r1 := ReputationOf(s.work, worker), ReputationOf(Run(s, steps).work, worker);
            && r1.alpha == r.alpha + VerdictsFor(s, steps, worker, true)
            && r1.beta == r.beta + VerdictsFor(s, steps, worker, false)
    decreases |steps|
  {
    hide Next, TakenFor;
    if steps != [] {
      StepReputation(s, steps[0], worker);
      ReputationCounts(Next(s, steps[0]), steps[1..], worker);
    }
  }

  /** The expected pass rate of any worker lies strictly between never and always, and counts what happened. */
  lemma PassRateIsProper(d: Deployment, steps: seq<Step>, worker: nat)
    ensures var t := Run(Start(d), steps).work;
            var passes := VerdictsFor(Start(d), steps, worker, true);
            var others := VerdictsFor(Start(d), steps, worker, false);
            && ReputationOf(t, worker) == W.Reputation(passes + 2, others + 2)
            && 0.0 < ExpectedPassRate(t, worker) < 1.0
            && ExpectedPassRate(t, worker) * (passes + others + 4) as real == (passes + 2) as real
  {
    ReputationCounts(Start(d), steps, worker);
    hide Run, VerdictsFor;
    var t := Run(Start(d), steps).work;
    Proper(ReputationOf(t, worker).alpha, ReputationOf(t, worker).beta);
  }

  lemma Proper(a: nat, b: nat)
    requires a >= 2 && b >= 2
    ensures 0.0 < a as real / (a + b) as real < 1.0
    ensures a as real / (a + b) as real * (a + b) as real == a as real
  {
    var n := (a + b) as real;
    var q := a as real / n;
    assert q * n == a as real;
    assert q > 0.0;
    assert (1.0 - q) * n == b as real;
    assert q < 1.0;
  }

  // ----- verdicts per submission -----

  /** How many more verdicts a submission can get: the attempts still to come, and the one under way. */
  function VerdictsLeft(t: W.Tables, x: nat): int {
    if x !in t.attempts then Max(1, t.maxAttempts) else LeftIn(t.attempts[x], t.maxAttempts)
  }

  function LeftIn(m: W.Attempts, maxAttempts: int): int {
    Max(1, maxAttempts) - |m| + if |m| in m && m[|m|].status == W.Finished then 0 else 1
  }

  lemma FinishUsesOne(m: W.Attempts, n: nat, v: W.Verdict, maxAttempts: int)
    requires W.Numbered(m) && n == |m| && m[n].status != W.Finished
    ensures var m1: W.Attempts := m[n := m[n].(status := W.Finished, verdict := Some(v))];
            && LeftIn(m1, maxAttempts) == LeftIn(m, maxAttempts) - 1
            && LeftIn(m1[n + 1 := W.NEW_ATTEMPT], maxAttempts) == LeftIn(m, maxAttempts) - 1
  {
    var m1: W.Attempts := m[n := m[n].(status := W.Finished, verdict := Some(v))];
    W.SameNumbers(m, n, m1[n]);
    W.NextNumber(m1, W.NEW_ATTEMPT);
  }

  lemma TakeVerdictUsesOne(t: W.Tables, x: nat, n: nat, v: W.Verdict, now: int)
    requires W.Full(t, now) && W.HasAttempt(t, x, n) && t.attempts[x][n].status != W.Finished
    ensures x < |t.submissions| && t.submissions[x].job < |t.jobs|
    ensures var t1 := W.TakeVerdict(t, x, n, v).t;
            && VerdictsLeft(t1, x) == VerdictsLeft(t, x) - 1
            && forall y :: y != x ==> VerdictsLeft(t1, y) == VerdictsLeft(t, y)
  {
    hide W.Full, W.Base, W.TakeVerdict, W.Sequential, W.OneActive, W.JobOk, LeftIn, W.Numbered;
    FullIsBase(t, now);
    W.FullParts(t, x, now);
    W.TakeVerdictKeepsFull(t, x, n, v, now);
    W.TakeVerdictEffect(t, x, n, v);
    FinishUsesOne(t.attempts[x], n, v, t.maxAttempts);
  }

  lemma VerdictStepUsesOne(s: Db, e: Step, x: nat)
    requires W.Full(s.work, s.now) && e.GiveVerdict?
    ensures VerdictsLeft(Next(s, e).work, x) + (if TakenOn(s, e, x) then 1 else 0) <= VerdictsLeft(s.work, x)
  {
    hide Next, W.Full, W.TakeVerdict, VerdictsLeft, W.VerdictRefused;
    if Taken(s, e) {
      TakenStep(s, e);
      TakeVerdictUsesOne(s.work, e.submission, e.attempt, e.verdict, s.now);
    } else {
      RefusedStep(s, e);
    }
  }

  lemma VerifierClaimUsesNone(t: W.Tables, x: nat, n: nat, ttl: int, now: int, y: nat)
    requires W.Full(t, now) && W.ClaimIsEnqueued(t, x, n) && W.ClaimIsOpen(t, x, n)
    ensures VerdictsLeft(W.VerifierClaim(t, x, n, ttl, now).t, y) == VerdictsLeft(t, y)
  {
    hide W.Full, W.Base, W.Numbered;
    W.FullParts(t, x, now);
    var t1 := W.VerifierClaim(t, x, n, ttl, now).t;
    if t1 != t {
      OneRowUsesNone(t.attempts[x], n, t1.attempts[x][n], t.maxAttempts);
    }
    hide LeftIn;
  }

  lemma OneRowUsesNone(m: W.Attempts, n: nat, row: W.Attempt, maxAttempts: int)
    requires n in m && m[n].status != W.Finished && row.status != W.Finished
    ensures LeftIn(m[n := row], maxAttempts) == LeftIn(m, maxAttempts)
  {
    W.SameNumbers(m, n, row);
  }

  lemma SubmitUsesNone(t: W.Tables, worker: nat, j: nat, req: W.Request, now: int, x: nat)
    requires W.Base(t)
    ensures VerdictsLeft(W.Submit(t, worker, j, req, now).t, x) <= VerdictsLeft(t, x)
  {
    if W.Submit(t, worker, j, req, now).t != t {
      W.SubmitFindsClaimed(t, worker, j, req, now);
      forall c | c in t.attempts
        ensures c < |t.submissions|
      {
        assert W.AttemptsOk(t, c);
      }
      hide W.Base;
    }
  }

  lemma StepUsesVerdicts(s: Db, e: Step, x: nat)
    requires W.Full(s.work, s.now) && ClaimIsEnqueued(s, e) && ClaimIsOpen(s, e)
    ensures VerdictsLeft(Next(s, e).work, x) + (if TakenOn(s, e, x) then 1 else 0) <= VerdictsLeft(s.work, x)
  {
    FullIsBase(s.work, s.now);
    hide W.Full, W.Base, VerdictsLeft;
    if IsWorkStep(e) {
      hide W.Submit, W.VerifierClaim, DoPublish, DoVerdict;
      match e
      case GiveVerdict(_, _, _, _, _) => VerdictStepUsesOne(s, e, x);
      case VerifierClaim(y, n, ttl) => VerifierClaimUsesNone(s.work, y, n, ttl, s.now, x);
      case Submit(worker, j, req) => SubmitUsesNone(s.work, worker, j, req, s.now, x);
      case _ => JobStepsKeepAttempts(s, e, x);
    } else {
      OthersKeepWork(s, e);
      hide Next;
    }
  }

  lemma JobStepsKeepAttempts(s: Db, e: Step, x: nat)
    requires e.ClaimJob? || e.ReleaseJob? || e.Reap? || e.Publish?
    ensures VerdictsLeft(Next(s, e).work, x) == VerdictsLeft(s.work, x)
  {
    hide L.Publish;
  }

  lemma {:induction false} RunUsesVerdicts(s: Db, steps: seq<Step>, x: nat, opening: map<nat, nat>)
    requires Safe(H4_H5, s, opening) && RunUnder(H4_H5, s, steps)
    ensures VerdictsLeft(Run(s, steps).work, x) + VerdictsOn(s, steps, x) <= VerdictsLeft(s.work, x)
    decreases |steps|
  {
    if steps != [] {
      FullOf(s, opening);
      hide Safe, Next, ClaimIsEnqueued, ClaimIsOpen, W.Full, VerdictsLeft, TakenOn;
      StepIsSafe(H4_H5, s, steps[0], opening);
      StepUsesVerdicts(s, steps[0], x);
      RunUsesVerdicts(Next(s, steps[0]), steps[1..], x, opening);
    }
  }

  lemma FullOf(s: Db, opening: map<nat, nat>)
    requires Safe(H4_H5, s, opening)
    ensures W.Full(s.work, s.now)
  {
  }

  /** Once no verdict is left the job is done. */
  lemma NoneLeftIsDone(s: Db, d: Deployment, x: nat)
    requires Reachable(H4_H5, s, d)
    ensures VerdictsLeft(s.work, x) >= 0
    ensures VerdictsLeft(s.work, x) == 0 ==>
              && x < |s.work.submissions| && s.work.submissions[x].job < |s.work.jobs|
              && s.work.jobs[s.work.submissions[x].job].status == W.Done
  {
    if x in s.work.attempts {
      AttemptsAreASequence(s, d, x);
    }
  }

  /**
   In any run a submission gets at most as many verdicts as the limit allows (at least
   one), and its job is done by the time it got that many.
   */
  lemma VerdictsAreBounded(d: Deployment, steps: seq<Step>, x: nat)
    requires RunUnder(H4_H5, Start(d), steps)
    ensures VerdictsOn(Start(d), steps, x) <= Max(1, d.maxAttempts)
    ensures VerdictsOn(Start(d), steps, x) == Max(1, d.maxAttempts) ==>
              var t := Run(Start(d), steps).work;
              && x < |t.submissions| && t.submissions[x].job < |t.jobs|
              && t.jobs[t.submissions[x].job].status == W.Done
  {
    StartIsSafe(H4_H5, d);
    hide Safe;
    RunUsesVerdicts(Start(d), steps, x, d.opening);
    assert VerdictsLeft(Start(d).work, x) == Max(1, d.maxAttempts);
    assert Reachable(H4_H5, Run(Start(d), steps), d);
    hide Reachable, Run, RunUnder, VerdictsOn, VerdictsLeft;
    NoneLeftIsDone(Run(Start(d), steps), d, x);
  }
}
