/**
 All invariants together, each under the hypotheses it needs, and what the hypotheses
 entail: H4 and H5 keep the attempts in order, so that a verdict finds its job under
 verification (H8), and a job under verification has no payout (H6).
 */
module RailSafety {
  import opened Rail
  import opened RailSteps
  import B = RailBudget
  import F = RailFunds
  import J = RailJobs
  import M = RailMoney
  import N = RailOnce
  import R = RailPay
  import W = Work
  import P = Pay
  import L = Ledger

  // ----- attempts -----

  /** Only submissions that were verified have payouts. */
  ghost predicate PaidAttempted(s: Db) {
    forall x :: x in s.pay.bySubmission ==> x in s.work.attempts
  }

  lemma FullIsBase(t: W.Tables, now: int)
    requires W.Full(t, now)
    ensures W.Base(t)
  {
  }

  lemma VerdictKeepsAttempts(s: Db, e: Step)
    requires e.GiveVerdict? && W.Base(s.work)
    ensures W.Base(Next(s, e).work)
    ensures W.Full(s.work, s.now) ==> W.Full(Next(s, e).work, s.now)
  {
    hide Next, Taken, W.Base, W.Full, W.TakeVerdict;
    if Taken(s, e) {
      TakenStep(s, e);
      W.TakeVerdictKeepsBase(s.work, e.submission, e.attempt, e.verdict);
      if W.Full(s.work, s.now) {
        W.TakeVerdictKeepsFull(s.work, e.submission, e.attempt, e.verdict, s.now);
      }
    } else {
      RefusedStep(s, e);
    }
  }

  lemma PublishKeepsAttempts(s: Db, b: nat)
    requires W.Base(s.work)
    ensures W.Base(Next(s, Publish(b)).work)
    ensures W.Full(s.work, s.now) ==> W.Full(Next(s, Publish(b)).work, s.now)
  {
    PublishIs(s, b);
    if DoPublish(s, b).Ok? {
      J.PublishRows(s, b);
      W.AddJobsKeeps(s.work, b, |DoPublish(s, b).value.work.jobs| - |s.work.jobs|, s.now);
    }
    hide Next, DoPublish, W.Base, W.Full;
  }

  lemma WorkStepKeepsAttempts(s: Db, e: Step)
    requires W.Base(s.work) && ClaimIsEnqueued(s, e) && IsWorkStep(e)
    ensures W.Base(Next(s, e).work)
    ensures W.Full(s.work, s.now) && ClaimIsOpen(s, e) ==> W.Full(Next(s, e).work, s.now)
  {
    hide W.Base, W.Full, DoPublish, DoVerdict, W.ClaimJob, W.ReleaseJob, W.Reap, W.Submit, W.VerifierClaim;
    match e
    case ClaimJob(worker, j, stale) =>
      W.ClaimJobKeepsBase(s.work, worker, j, stale, s.now);
      if W.Full(s.work, s.now) {
        W.ClaimJobKeepsFull(s.work, worker, j, stale, s.now);
      }
    case ReleaseJob(worker, j, nonce) => W.ReleaseJobKeeps(s.work, worker, j, nonce, s.now);
    case Reap => W.ReapKeeps(s.work, s.now);
    case Submit(worker, j, req) => W.SubmitKeeps(s.work, worker, j, req, s.now);
    case VerifierClaim(x, n, ttl) =>
      W.VerifierClaimKeepsBase(s.work, x, n, ttl, s.now);
      if W.Full(s.work, s.now) && ClaimIsOpen(s, e) {
        W.VerifierClaimKeepsFull(s.work, x, n, ttl, s.now);
      }
    case GiveVerdict(_, _, _, _, _) => VerdictKeepsAttempts(s, e);
    case Publish(b) => PublishKeepsAttempts(s, b);
  }

  lemma StepKeepsAttempts(s: Db, e: Step)
    requires W.Base(s.work) && ClaimIsEnqueued(s, e)
    ensures W.Base(Next(s, e).work)
    ensures W.Full(s.work, s.now) && ClaimIsOpen(s, e) ==> W.Full(Next(s, e).work, Next(s, e).now)
  {
    hide W.Base, Next, ClaimIsEnqueued, ClaimIsOpen;
    OnlyTicksTakeTime(s, e);
    if IsWorkStep(e) {
      hide W.Full;
      WorkStepKeepsAttempts(s, e);
    } else {
      OthersKeepWork(s, e);
      if W.Full(s.work, s.now) {
        W.ActiveShrinks(s.work, s.work, s.now, Next(s, e).now);
      }
      hide W.OneActive, W.Sequential;
    }
  }

  ghost predicate KeepsAttempts(t: W.Tables, t1: W.Tables) {
    t.attempts.Keys <= t1.attempts.Keys
  }

  lemma AttemptsStay(s: Db, e: Step)
    ensures KeepsAttempts(s.work, Next(s, e).work)
  {
    if e.GiveVerdict? {
      hide W.MaxAttempt;
      if Taken(s, e) {
        TakenStep(s, e);
      } else {
        RefusedStep(s, e);
      }
      hide Next;
    } else if IsWorkStep(e) {
      hide L.Publish, W.LeasePast, W.HoldsLease, W.KnownKey;
    } else {
      OthersKeepWork(s, e);
      hide Next;
    }
  }

  lemma StepKeepsPaidAttempted(s: Db, e: Step)
    requires PaidAttempted(s)
    ensures PaidAttempted(Next(s, e))
  {
    hide Next, Taken;
    AttemptsStay(s, e);
    if !e.GiveVerdict? {
      OthersKeepIndex(s, e);
    } else if Next(s, e).pay != s.pay {
      VerdictPay(s, e);
      TakenStep(s, e);
      PassAddsKey(s, e);
    }
    hide W.TakeVerdict;
  }

  /** H4 entails H7: the submissions of a job that were enqueued are one and the same. */
  lemma EnqueuedIsPaidOnce(s: Db, e: Step)
    requires W.Base(s.work) && PaidAttempted(s)
    ensures JobIsPaidOnce(s, e)
  {
    if PassIsPaid(s, e) && OtherIsPaid(s, e.submission) {
      var y :| y in s.pay.bySubmission && y != e.submission && y < |s.work.submissions|
               && s.work.submissions[y].job == s.work.submissions[e.submission].job;
      assert W.AttemptsOk(s.work, y) && W.AttemptsOk(s.work, e.submission);
    }
  }

  /** H4 and H5 entail H8: the attempt under way is the last, and its job waits for the verdict. */
  lemma SequenceIsDue(s: Db, e: Step)
    requires W.Full(s.work, s.now)
    ensures VerdictIsInOrder(s, e)
    ensures Taken(s, e) ==> s.work.jobs[s.work.submissions[e.submission].job].status == W.Verifying
  {
    hide W.Full, Taken, W.Requeues, W.TakeVerdict;
    if Taken(s, e) {
      TakenStep(s, e);
      W.TakeVerdictKeepsFull(s.work, e.submission, e.attempt, e.verdict, s.now);
    }
  }

  /** And H6: a job under verification has no payout. */
  lemma DueIsFirst(s: Db, e: Step)
    requires W.Full(s.work, s.now) && J.PaidJobsDone(s)
    ensures PassIsFirst(s, e)
  {
    hide W.Full;
    SequenceIsDue(s, e);
  }

  // ----- all invariants -----

  ghost predicate Safe(h: Hypotheses, s: Db, opening: map<nat, nat>) {
    && F.Funds(s, opening)
    && J.Nonces(s.work)
    && (h.h2 ==> N.Once(s))
    && (h.h4 ==> W.Base(s.work) && PaidAttempted(s))
    && (h.h4 && h.h5 ==> W.Full(s.work, s.now))
    && (h.h6 ==> P.Valid(s.pay, s.now))
    && (h.h7 ==> B.OneEach(s))
    && (h.h8 ==> J.InOrder(s))
    && (h.h2 && h.h9 ==> M.AllRefunded(s))
    && (h.h1 && h.h2 && h.h7 && h.h9 ==> M.AllHeld(s))
  }

  lemma StartIsSafe(h: Hypotheses, d: Deployment)
    ensures Safe(h, Start(d), d.opening)
  {
    F.StartFunds(d);
  }

  lemma StepIsSafe(h: Hypotheses, s: Db, e: Step, opening: map<nat, nat>)
    requires Safe(h, s, opening) && Meets(h, s, e)
    ensures Safe(h, Next(s, e), opening)
  {
    hide Next, F.Funds, F.Owned, J.Nonces, N.Once, W.Base, PaidAttempted, W.Full, P.Valid, B.OneEach, J.InOrder,
         M.AllRefunded, M.AllHeld, ReservationOpen, DisputeIsFirst, ClaimIsEnqueued, ClaimIsOpen, PassIsFirst,
         JobIsPaidOnce, VerdictIsInOrder, FeeStays;
    F.FundsParts(s, opening);
    F.StepKeepsFunds(s, e, opening);
    J.StepKeepsNonces(s, e);
    if h.h2 {
      N.StepKeepsOnce(s, e);
    }
    if h.h4 {
      StepKeepsAttempts(s, e);
      StepKeepsPaidAttempted(s, e);
    }
    if h.h6 {
      R.StepKeepsPay(s, e);
    }
    if h.h7 {
      B.StepKeeps(s, e);
    }
    if h.h8 {
      J.StepKeepsOrder(s, e);
    }
    if h.h2 && h.h9 {
      N.PayOf(s);
      M.StepKeepsRefunds(s, e);
    }
    if h.h1 && h.h2 && h.h7 && h.h9 {
      M.StepKeepsHeld(s, e, opening);
    }
  }

  // ----- what the hypotheses entail -----

  /** H6 entails H9: where there is no payout there is no fee to change. */
  lemma FirstFeeStays(s: Db, e: Step)
    requires PassIsFirst(s, e)
    ensures FeeStays(s, e)
  {
  }

  /** The hypotheses, and those that follow from them. */
  function Entailed(h: Hypotheses): Hypotheses {
    var full := h.h4 && h.h5;
    h.(h6 := h.h6 || full, h7 := h.h7 || h.h4, h8 := h.h8 || full, h9 := h.h9 || h.h6 || full)
  }

  lemma StepMeetsEntailed(h: Hypotheses, s: Db, e: Step, opening: map<nat, nat>)
    requires Safe(Entailed(h), s, opening) && Meets(h, s, e)
    ensures Meets(Entailed(h), s, e)
  {
    hide F.Funds, J.Nonces, N.Once, W.Base, PaidAttempted, W.Full, P.Valid, B.OneEach, J.InOrder, M.AllRefunded,
         M.AllHeld, ReservationOpen, DisputeIsFirst, ClaimIsEnqueued, ClaimIsOpen, PassIsFirst, JobIsPaidOnce,
         VerdictIsInOrder, FeeStays;
    if h.h4 && h.h5 {
      SequenceIsDue(s, e);
      J.InOrderParts(s);
      DueIsFirst(s, e);
    }
    if h.h4 {
      EnqueuedIsPaidOnce(s, e);
    }
    if Entailed(h).h6 {
      FirstFeeStays(s, e);
    }
  }

  /** A run that meets the hypotheses keeps all invariants, also of those that follow, and meets these too. */
  lemma {:induction false} RunIsSafe(h: Hypotheses, s: Db, steps: seq<Step>, opening: map<nat, nat>)
    requires Safe(Entailed(h), s, opening) && RunUnder(h, s, steps)
    ensures Safe(Entailed(h), Run(s, steps), opening) && RunUnder(Entailed(h), s, steps)
    decreases |steps|
  {
    hide Safe, Next, Meets, Entailed;
    if steps != [] {
      StepMeetsEntailed(h, s, steps[0], opening);
      StepIsSafe(Entailed(h), s, steps[0], opening);
      RunIsSafe(h, Next(s, steps[0]), steps[1..], opening);
    }
  }

  /** So a state reached under H4 and H5, say, is one reached under H6, H7 and H8. */
  lemma ReachableIsSafe(h: Hypotheses, s: Db, d: Deployment)
    requires Reachable(h, s, d)
    ensures Safe(Entailed(h), s, d.opening) && Reachable(Entailed(h), s, d)
  {
    hide Safe, Next, Meets, Entailed;
    var steps :| RunUnder(h, Start(d), steps) && Run(Start(d), steps) == s;
    StartIsSafe(Entailed(h), d);
    RunIsSafe(h, Start(d), steps, d.opening);
  }
}
