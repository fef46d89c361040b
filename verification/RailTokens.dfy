/**
 Claim tokens of verification attempts: each is handed out once, for one attempt, and is
 good until the attempt is claimed again. When exactly a claim is given and when exactly a
 verdict counts.
 */
module RailTokens {
  import opened Common
  import opened FeeSplit
  import opened Rail
  import opened RailSteps
  import W = Work
  import L = Ledger

  // ----- tokens are handed out once -----

  /** The token of attempt n of submission x, if it was ever claimed. */
  function TokenOf(t: W.Tables, x: nat, n: nat): Option<nat> {
    if W.HasAttempt(t, x, n) then t.attempts[x][n].token else None
  }

  ghost predicate Tokens(t: W.Tables) {
    && (forall x :: x in t.attempts ==> x < |t.submissions|)
    && (forall x :: 0 <= x < |t.submissions| ==> t.submissions[x].job < |t.jobs|)
    && (forall x: nat, n: nat :: TokenOf(t, x, n).Some? ==> TokenOf(t, x, n).value < t.nextToken)
    && (forall x: nat, n: nat, y: nat, m: nat :: TokenOf(t, x, n).Some? && TokenOf(t, y, m) == TokenOf(t, x, n) ==>
          x == y && n == m)
  }

  /** All tokens stay, but for the next one, which may be given to one attempt. */
  ghost predicate GivesOne(t: W.Tables, t1: W.Tables, x: nat, n: nat) {
    && (forall y: nat, m: nat :: y != x || m != n ==> TokenOf(t1, y, m) == TokenOf(t, y, m))
    && ((TokenOf(t1, x, n) == TokenOf(t, x, n) && t1.nextToken == t.nextToken)
        || (TokenOf(t1, x, n) == Some(t.nextToken) && t1.nextToken == t.nextToken + 1))
  }

  ghost predicate SubmissionsHold(t: W.Tables, t1: W.Tables) {
    && |t.submissions| <= |t1.submissions|
    && (forall x :: x in t1.attempts ==> x < |t1.submissions|)
    && (forall x :: 0 <= x < |t1.submissions| ==> t1.submissions[x].job < |t1.jobs|)
  }

  lemma GivesOneKeeps(t: W.Tables, t1: W.Tables, x: nat, n: nat)
    requires Tokens(t) && GivesOne(t, t1, x, n) && SubmissionsHold(t, t1)
    ensures Tokens(t1)
  {
  }

  /** No token is given. */
  ghost predicate GivesNone(t: W.Tables, t1: W.Tables) {
    && (forall y: nat, m: nat :: TokenOf(t1, y, m) == TokenOf(t, y, m))
    && t1.nextToken == t.nextToken && SubmissionsHold(t, t1)
  }

  lemma SubmitGivesNone(t: W.Tables, worker: nat, j: nat, req: W.Request, now: int)
    requires Tokens(t)
    ensures GivesNone(t, W.Submit(t, worker, j, req, now).t)
  {
  }

  lemma VerdictGivesNone(t: W.Tables, x: nat, n: nat, v: W.Verdict)
    requires Tokens(t) && W.HasAttempt(t, x, n) && x < |t.submissions| && t.submissions[x].job < |t.jobs|
    ensures GivesNone(t, W.TakeVerdict(t, x, n, v).t)
  {
    var m := W.RecordVerdict(t, x, n, v).attempts[x];
    assert n in m;
    W.MaxAttemptIsLargest(m);
    hide W.MaxAttempt;
    assert W.MaxAttempt(m) + 1 !in m;
  }

  lemma OthersGiveNone(s: Db, e: Step)
    requires Tokens(s.work) && !e.VerifierClaim?
    ensures GivesNone(s.work, Next(s, e).work)
  {
    if e.GiveVerdict? {
      hide Next, Taken, W.TakeVerdict;
      if Taken(s, e) {
        TakenStep(s, e);
        VerdictGivesNone(s.work, e.submission, e.attempt, e.verdict);
      } else {
        RefusedStep(s, e);
      }
    } else if e.Submit? {
      hide W.Submit, Tokens, GivesNone;
      SubmitGivesNone(s.work, e.worker, e.job, e.req, s.now);
    } else if IsWorkStep(e) {
      hide L.Publish, W.LeasePast, W.HoldsLease;
    } else {
      OthersKeepWork(s, e);
      hide Next;
    }
  }

  lemma StepGivesOne(s: Db, e: Step) returns (x: nat, n: nat)
    requires Tokens(s.work)
    ensures GivesOne(s.work, Next(s, e).work, x, n) && SubmissionsHold(s.work, Next(s, e).work)
  {
    x, n := 0, 0;
    if e.VerifierClaim? {
      hide W.VerifierClaim, Tokens, SubmissionsHold, TokenOf;
      x, n := e.submission, e.attempt;
      ClaimWrites(s.work, x, n, e.ttl, s.now);
    } else {
      hide Next, Tokens, SubmissionsHold, TokenOf;
      OthersGiveNone(s, e);
    }
  }

  lemma StepKeepsTokens(s: Db, e: Step)
    requires Tokens(s.work)
    ensures Tokens(Next(s, e).work)
  {
    hide Tokens, GivesOne, Next;
    var x, n := StepGivesOne(s, e);
    GivesOneKeeps(s.work, Next(s, e).work, x, n);
  }

  /** Later, a token is the same or one that was not handed out yet. */
  ghost predicate TokensFollow(t: W.Tables, t1: W.Tables) {
    && t.nextToken <= t1.nextToken
    && (forall x: nat, n: nat :: TokenOf(t1, x, n) == TokenOf(t, x, n)
                                 || (TokenOf(t1, x, n).Some? && TokenOf(t1, x, n).value >= t.nextToken))
  }

  lemma {:induction false} RunTokens(s: Db, steps: seq<Step>)
    requires Tokens(s.work)
    ensures Tokens(Run(s, steps).work) && TokensFollow(s.work, Run(s, steps).work)
    decreases |steps|
  {
    hide Tokens, Next;
    if steps != [] {
      var x, n := StepGivesOne(s, steps[0]);
      StepKeepsTokens(s, steps[0]);
      RunTokens(Next(s, steps[0]), steps[1..]);
    }
  }

  lemma ReachableTokens(h: Hypotheses, s: Db, d: Deployment)
    requires Reachable(h, s, d)
    ensures Tokens(s.work)
  {
    var steps :| RunUnder(h, Start(d), steps) && Run(Start(d), steps) == s;
    assert Tokens(Start(d).work);
    hide Tokens;
    RunTokens(Start(d), steps);
  }

  // ----- what a token is good for -----

  /** A verdict with another token than the attempt's changes nothing at all. */
  lemma OtherTokenTakesNothing(s: Db, x: nat, n: nat, token: nat, v: W.Verdict, rates: Rates)
    requires TokenOf(s.work, x, n) != Some(token)
    ensures Next(s, GiveVerdict(x, n, token, v, rates)) == s
  {
    RefusedStep(s, GiveVerdict(x, n, token, v, rates));
    hide Next;
  }

  /** A token that was replaced never counts again, whoever claims what after that. */
  lemma OldTokenTakesNothing(s: Db, d: Deployment, steps: seq<Step>, more: seq<Step>, x: nat, n: nat, token: nat,
                             v: W.Verdict, rates: Rates)
    requires Reachable(NO_HYPOTHESIS, s, d) && TokenOf(s.work, x, n) == Some(token)
    requires TokenOf(Run(s, steps).work, x, n) != Some(token)
    ensures var s2 := Run(Run(s, steps), more); Next(s2, GiveVerdict(x, n, token, v, rates)) == s2
  {
    ReachableTokens(NO_HYPOTHESIS, s, d);
    RunTokens(s, steps);
    RunTokens(Run(s, steps), more);
    hide Reachable, Run, Next, TokenOf;
    OtherTokenTakesNothing(Run(Run(s, steps), more), x, n, token, v, rates);
  }

  /** A token that no claim was given yet, or that was given for another attempt, counts for nothing. */
  lemma ForeignTokenTakesNothing(s: Db, d: Deployment, x: nat, n: nat, token: nat, v: W.Verdict, rates: Rates)
    requires Reachable(NO_HYPOTHESIS, s, d)
    requires token >= s.work.nextToken
             || exists y: nat, m: nat :: (y != x || m != n) && TokenOf(s.work, y, m) == Some(token)
    ensures Next(s, GiveVerdict(x, n, token, v, rates)) == s
  {
    ReachableTokens(NO_HYPOTHESIS, s, d);
    hide Reachable, Next;
    OtherTokenTakesNothing(s, x, n, token, v, rates);
  }

  // ----- when exactly -----

  /**
   An attempt gets a new token exactly by a claim of it, while no other claim of it runs;
   the token is fresh and good for as long as was asked.
   */
  lemma ClaimIsGivenIff(s: Db, d: Deployment, e: Step, x: nat, n: nat)
    requires Reachable(NO_HYPOTHESIS, s, d)
    ensures var t, t1 := s.work, Next(s, e).work;
            && (TokenOf(t1, x, n) != TokenOf(t, x, n) <==>
                  && e.VerifierClaim? && e.submission == x && e.attempt == n && x < |t.submissions|
                  && !(W.HasAttempt(t, x, n) && t.attempts[x][n].status == W.InProgress
                       && t.attempts[x][n].expires > s.now))
            && (TokenOf(t1, x, n) != TokenOf(t, x, n) ==>
                  && TokenOf(t1, x, n) == Some(t.nextToken)
                  && t1.attempts[x][n].status == W.InProgress && t1.attempts[x][n].expires == s.now + e.ttl
                  && t1.attempts[x][n].verdict == if W.HasAttempt(t, x, n) then t.attempts[x][n].verdict else None)
  {
    ReachableTokens(NO_HYPOTHESIS, s, d);
    hide Reachable;
    if e.VerifierClaim? {
      hide W.VerifierClaim;
      ClaimWrites(s.work, e.submission, e.attempt, e.ttl, s.now);
    } else {
      hide Next;
      OthersGiveNone(s, e);
    }
  }

  lemma ClaimWrites(t: W.Tables, x: nat, n: nat, ttl: int, now: int)
    requires Tokens(t)
    ensures var t1 := W.VerifierClaim(t, x, n, ttl, now).t;
            && GivesOne(t, t1, x, n) && SubmissionsHold(t, t1)
            && (TokenOf(t1, x, n) != TokenOf(t, x, n) <==>
                  && x < |t.submissions|
                  && !(W.HasAttempt(t, x, n) && t.attempts[x][n].status == W.InProgress
                       && t.attempts[x][n].expires > now))
            && (TokenOf(t1, x, n) != TokenOf(t, x, n) ==>
                  && TokenOf(t1, x, n) == Some(t.nextToken)
                  && t1.attempts[x][n].status == W.InProgress && t1.attempts[x][n].expires == now + ttl
                  && t1.attempts[x][n].verdict == if W.HasAttempt(t, x, n) then t.attempts[x][n].verdict else None)
  {
  }

  /**
   An attempt is finished exactly by a verdict with its token, before the claim is over,
   and carries the verdict that was given.
   */
  lemma VerdictCountsIff(s: Db, d: Deployment, e: Step, x: nat, n: nat)
    requires Reachable(NO_HYPOTHESIS, s, d) && W.HasAttempt(s.work, x, n)
    requires s.work.attempts[x][n].status != W.Finished
    ensures var row, t1 := s.work.attempts[x][n], Next(s, e).work;
            && W.HasAttempt(t1, x, n)
            && (t1.attempts[x][n].status == W.Finished <==>
                  && e.GiveVerdict? && e.submission == x && e.attempt == n
                  && row.token == Some(e.token) && row.expires >= s.now)
            && (t1.attempts[x][n].status == W.Finished ==>
                  && t1.attempts[x][n].verdict == Some(e.verdict)
                  && x < |t1.submissions| && SaysSo(t1.submissions[x].status, e.verdict))
  {
    ReachableTokens(NO_HYPOTHESIS, s, d);
    hide Reachable, Next;
    if e.GiveVerdict? {
      hide W.TakeVerdict;
      if Taken(s, e) {
        TakenStep(s, e);
        VerdictFinishes(s.work, e.submission, e.attempt, e.verdict);
      } else {
        RefusedStep(s, e);
      }
    } else {
      OthersFinishNone(s, e, x, n);
    }
  }

  /** The submission's status says what the verdict was. */
  predicate SaysSo(status: W.SubmissionStatus, v: W.Verdict) {
    && (status == W.Accepted <==> v == W.Pass)
    && (status == W.Failed <==> v == W.Fail)
    && (status == W.Undecided <==> v == W.Inconclusive)
  }

  lemma VerdictFinishes(t: W.Tables, x: nat, n: nat, v: W.Verdict)
    requires Tokens(t) && W.HasAttempt(t, x, n) && x < |t.submissions| && t.submissions[x].job < |t.jobs|
    ensures var t1 := W.TakeVerdict(t, x, n, v).t;
            && W.HasAttempt(t1, x, n) && t1.attempts[x][n].status == W.Finished
            && t1.attempts[x][n].verdict == Some(v)
            && |t1.submissions| == |t.submissions| && SaysSo(t1.submissions[x].status, v)
            && forall y: nat, m: nat :: W.HasAttempt(t, y, m) && (y != x || m != n) ==>
                 W.HasAttempt(t1, y, m) && t1.attempts[y][m] == t.attempts[y][m]
  {
    var m := W.RecordVerdict(t, x, n, v).attempts[x];
    assert n in m;
    W.MaxAttemptIsLargest(m);
    hide W.MaxAttempt;
    assert W.MaxAttempt(m) + 1 !in m;
  }

  lemma OthersFinishNone(s: Db, e: Step, x: nat, n: nat)
    requires Tokens(s.work) && !e.GiveVerdict? && W.HasAttempt(s.work, x, n)
    requires s.work.attempts[x][n].status != W.Finished
    ensures W.HasAttempt(Next(s, e).work, x, n) && Next(s, e).work.attempts[x][n].status != W.Finished
  {
    if e.Submit? {
      hide W.Submit;
      SubmitKeepsAttempt(s.work, e.worker, e.job, e.req, s.now, x, n);
    } else if IsWorkStep(e) {
      hide L.Publish, W.LeasePast, W.HoldsLease;
    } else {
      OthersKeepWork(s, e);
      hide Next;
    }
  }

  lemma SubmitKeepsAttempt(t: W.Tables, worker: nat, j: nat, req: W.Request, now: int, x: nat, n: nat)
    requires Tokens(t) && W.HasAttempt(t, x, n)
    ensures var t1 := W.Submit(t, worker, j, req, now).t;
            W.HasAttempt(t1, x, n) && t1.attempts[x][n] == t.attempts[x][n]
  {
  }
}
