/**
 Budget sufficiency: as long as no pass creates a payout for a job that has one already
 (H7), the payouts of a bounty never add up to more than was reserved for it.
 */
module RailBudget {
  import opened Rail
  import opened RailSteps
  import F = RailFunds
  import W = Work
  import P = Pay

  // ----- the invariant -----

  /** No two submissions of one job have payouts. */
  ghost predicate OneEach(s: Db) {
    forall x, y :: x in s.pay.bySubmission && y in s.pay.bySubmission && x != y
                   && x < |s.work.submissions| && y < |s.work.submissions| ==>
      s.work.submissions[x].job != s.work.submissions[y].job
  }

  lemma PaidWasSubmitted(s: Db, x: nat)
    requires F.Owned(s) && x in s.pay.bySubmission
    ensures x < |s.work.submissions|
  {
    assert F.PayoutOwned(s, s.pay.payouts[s.pay.bySubmission[x]]);
  }

  lemma JobIsOfBounty(s: Db, j: nat)
    requires F.Owned(s) && j < |s.work.jobs|
    ensures s.work.jobs[j].bounty < |s.ledger.bounties|
  {
  }

  /** Later states have the same payouts, or one more for a job without. */
  lemma IndexKeeps(s: Db, s1: Db)
    requires OneEach(s) && F.Owned(s) && KeepsSubmissions(s.work, s1.work)
    requires s1.pay.bySubmission.Keys == s.pay.bySubmission.Keys
    ensures OneEach(s1)
  {
    forall x | x in s.pay.bySubmission
      ensures x < |s.work.submissions|
    {
      PaidWasSubmitted(s, x);
    }
  }

  lemma OneMoreKeeps(s: Db, s1: Db, x: nat)
    requires OneEach(s) && F.Owned(s) && KeepsSubmissions(s.work, s1.work)
    requires x < |s.work.submissions| && !OtherIsPaid(s, x)
    requires s1.pay.bySubmission.Keys == s.pay.bySubmission.Keys + {x}
    ensures OneEach(s1)
  {
    forall y | y in s.pay.bySubmission
      ensures y < |s.work.submissions|
    {
      PaidWasSubmitted(s, y);
    }
  }

  lemma StepKeeps(s: Db, e: Step)
    requires OneEach(s) && F.Owned(s) && JobIsPaidOnce(s, e)
    ensures OneEach(Next(s, e))
  {
    hide OneEach, F.Owned, Next, Taken, OtherIsPaid, KeepsSubmissions;
    SubmissionsStay(s, e);
    if !e.GiveVerdict? {
      OthersKeepIndex(s, e);
      IndexKeeps(s, Next(s, e));
    } else if !Taken(s, e) {
      RefusedStep(s, e);
    } else {
      TakenStep(s, e);
      if PassIsPaid(s, e) {
        PassKeeps(s, e);
      } else {
        UnpaidStep(s, e);
        IndexKeeps(s, Next(s, e));
      }
    }
  }

  lemma PassKeeps(s: Db, e: Step)
    requires OneEach(s) && F.Owned(s) && JobIsPaidOnce(s, e) && PassIsPaid(s, e)
    ensures OneEach(Next(s, e))
  {
    hide OneEach, F.Owned, Next, OtherIsPaid, KeepsSubmissions;
    TakenStep(s, e);
    JobIsOfBounty(s, s.work.submissions[e.submission].job);
    PassStep(s, e);
    SubmissionsStay(s, e);
    PassAddsKey(s, e);
    hide Taken;
    if e.submission in s.pay.bySubmission {
      PaidIsIndexed(s, e.submission);
      IndexKeeps(s, Next(s, e));
    } else {
      OneMoreKeeps(s, Next(s, e), e.submission);
    }
  }

  lemma PaidIsIndexed(s: Db, x: nat)
    requires F.Owned(s) && x in s.pay.bySubmission
    ensures s.pay.bySubmission[x] < |s.pay.payouts|
  {
  }

  lemma {:induction false} RunKeeps(s: Db, steps: seq<Step>, opening: map<nat, nat>)
    requires OneEach(s) && F.Funds(s, opening) && RunUnder(H7_ONLY, s, steps)
    ensures OneEach(Run(s, steps)) && F.Funds(Run(s, steps), opening)
    decreases |steps|
  {
    hide OneEach, F.Funds, Next, JobIsPaidOnce;
    if steps != [] {
      F.FundsParts(s, opening);
      StepKeeps(s, steps[0]);
      F.StepKeepsFunds(s, steps[0], opening);
      RunKeeps(Next(s, steps[0]), steps[1..], opening);
    }
  }

  lemma ReachableIsPaidOnce(s: Db, d: Deployment)
    requires Reachable(H7_ONLY, s, d)
    ensures OneEach(s) && F.Funds(s, d.opening) && F.Owned(s)
  {
    var steps :| RunUnder(H7_ONLY, Start(d), steps) && Run(Start(d), steps) == s;
    F.StartFunds(d);
    RunKeeps(Start(d), steps, d.opening);
    F.FundsParts(s, d.opening);
  }

  // ----- counting payouts and jobs -----

  function PayoutsOf(payouts: seq<P.Payout>, b: nat): set<nat> {
    set i | 0 <= i < |payouts| && payouts[i].bounty == b
  }

  function JobsIn(jobs: seq<W.Job>, b: nat): set<nat> {
    set j | 0 <= j < |jobs| && jobs[j].bounty == b
  }

  lemma {:induction false} NumberIsSize(payouts: seq<P.Payout>, b: nat)
    ensures P.Sum(payouts, P.NumberOf(b)) == |PayoutsOf(payouts, b)|
  {
    if payouts != [] {
      var n := |payouts| - 1;
      NumberIsSize(payouts[..n], b);
      assert PayoutsOf(payouts, b)
          == PayoutsOf(payouts[..n], b) + if payouts[n].bounty == b then {n} else {};
    }
  }

  lemma {:induction false} CountIsSize(jobs: seq<W.Job>, b: nat)
    ensures W.Count(jobs, W.OfBounty(b)) == |JobsIn(jobs, b)|
  {
    if jobs != [] {
      var n := |jobs| - 1;
      CountIsSize(jobs[..n], b);
      assert JobsIn(jobs, b) == JobsIn(jobs[..n], b) + if jobs[n].bounty == b then {n} else {};
    }
  }

  /** The job a payout is for. */
  function JobOf(s: Db, i: nat): nat {
    if i < |s.pay.payouts| && s.pay.payouts[i].submission < |s.work.submissions|
    then s.work.submissions[s.pay.payouts[i].submission].job else 0
  }

  function JobsPaid(s: Db, payouts: set<nat>): set<nat> {
    set i | i in payouts :: JobOf(s, i)
  }

  lemma {:induction false} OneJobEach(s: Db, payouts: set<nat>)
    requires forall i, k :: i in payouts && k in payouts && i != k ==> JobOf(s, i) != JobOf(s, k)
    ensures |JobsPaid(s, payouts)| == |payouts|
    decreases payouts
  {
    if payouts != {} {
      var i :| i in payouts;
      var others := payouts - {i};
      OneJobEach(s, others);
      assert payouts == others + {i};
      assert JobsPaid(s, payouts) == JobsPaid(s, others) + {JobOf(s, i)};
    }
  }

  lemma OtherJob(s: Db, i: nat, k: nat)
    requires F.Owned(s) && OneEach(s) && i < |s.pay.payouts| && k < |s.pay.payouts| && i != k
    ensures JobOf(s, k) != JobOf(s, i)
  {
    assert F.PayoutOwned(s, s.pay.payouts[k]) && F.PayoutOwned(s, s.pay.payouts[i]);
  }

  /** A submission of the job has a payout. */
  predicate JobIsPaid(s: Db, j: nat) {
    exists x :: x in s.pay.bySubmission && x < |s.work.submissions| && s.work.submissions[x].job == j
  }

  /** The bounty's payouts are as many as its paid jobs, which are some or all of its jobs. */
  lemma PayoutsFitJobs(s: Db, b: nat)
    requires F.Owned(s) && OneEach(s) && b < |s.ledger.bounties|
    ensures P.Sum(s.pay.payouts, P.NumberOf(b)) <= JobsOf(s, b)
    ensures P.Sum(s.pay.payouts, P.NumberOf(b)) == JobsOf(s, b) <==>
            forall j :: 0 <= j < |s.work.jobs| && s.work.jobs[j].bounty == b ==> JobIsPaid(s, j)
  {
    NumberIsJobs(s, b);
    CountIsSize(s.work.jobs, b);
    hide F.Owned, OneEach, P.Sum, W.Count, JobIsPaid;
    Fits(PaidJobsOf(s, b), JobsIn(s.work.jobs, b));
    assert PaidJobsOf(s, b) == JobsIn(s.work.jobs, b) <==>
           forall j :: j in JobsIn(s.work.jobs, b) ==> JobIsPaid(s, j);
  }

  function PaidJobsOf(s: Db, b: nat): set<nat> {
    set j | j in JobsIn(s.work.jobs, b) && JobIsPaid(s, j)
  }

  lemma NumberIsJobs(s: Db, b: nat)
    requires F.Owned(s) && OneEach(s)
    ensures P.Sum(s.pay.payouts, P.NumberOf(b)) == |PaidJobsOf(s, b)|
  {
    var mine := PayoutsOf(s.pay.payouts, b);
    NumberIsSize(s.pay.payouts, b);
    PaidJobs(s, b);
    forall i, k | i in mine && k in mine && i != k
      ensures JobOf(s, i) != JobOf(s, k)
    {
      OtherJob(s, i, k);
    }
    OneJobEach(s, mine);
  }

  lemma Fits(a: set<nat>, b: set<nat>)
    requires a <= b
    ensures |a| <= |b| && (|a| == |b| <==> a == b)
  {
    assert b == a + (b - a);
  }

  lemma PaidJobs(s: Db, b: nat)
    requires F.Owned(s)
    ensures var mine := PayoutsOf(s.pay.payouts, b);
            JobsPaid(s, mine) == PaidJobsOf(s, b)
  {
    var mine := PayoutsOf(s.pay.payouts, b);
    forall j
      ensures j in JobsPaid(s, mine) <==> j in JobsIn(s.work.jobs, b) && JobIsPaid(s, j)
    {
      if j in JobsPaid(s, mine) {
        var i :| i in mine && JobOf(s, i) == j;
        assert F.PayoutOwned(s, s.pay.payouts[i]);
      }
      if j in JobsIn(s.work.jobs, b) && JobIsPaid(s, j) {
        var x :| x in s.pay.bySubmission && x < |s.work.submissions| && s.work.submissions[x].job == j;
        assert F.PayoutOwned(s, s.pay.payouts[s.pay.bySubmission[x]]);
        assert s.pay.bySubmission[x] in mine && JobOf(s, s.pay.bySubmission[x]) == j;
      }
    }
  }

  lemma AmountsAgree(s: Db, b: nat)
    requires F.Owned(s) && b < |s.ledger.bounties|
    ensures Committed(s, b) == s.ledger.bounties[b].payoutCents * P.Sum(s.pay.payouts, P.NumberOf(b))
  {
    forall i | 0 <= i < |s.pay.payouts| && s.pay.payouts[i].bounty == b
      ensures s.pay.payouts[i].amount == s.ledger.bounties[b].payoutCents
    {
      assert F.PayoutOwned(s, s.pay.payouts[i]);
    }
    P.GrossIsNumberTimes(s.pay.payouts, b, s.ledger.bounties[b].payoutCents);
  }

  // ----- the results -----

  /** What was reserved for the bounty. */
  function Reserved(s: Db, b: nat): nat {
    if b in s.ledger.reservations then s.ledger.reservations[b].amount else 0
  }

  /** A bounty that has jobs has the payouts of all of them reserved. */
  lemma JobsAreReserved(s: Db, b: nat, opening: map<nat, nat>)
    requires F.Funds(s, opening) && b < |s.ledger.bounties|
    ensures JobsOf(s, b) > 0 ==> Reserved(s, b) == s.ledger.bounties[b].payoutCents * JobsOf(s, b)
  {
    assert F.JobsGenerated(s, b);
    hide W.Count;
  }

  /** The gross of a bounty's payouts fits its reservation; without one it is zero. */
  lemma BudgetSuffices(s: Db, b: nat, opening: map<nat, nat>)
    requires F.Funds(s, opening) && OneEach(s) && b < |s.ledger.bounties|
    ensures Committed(s, b) <= Reserved(s, b)
  {
    F.FundsParts(s, opening);
    PayoutsFitJobs(s, b);
    AmountsAgree(s, b);
    JobsAreReserved(s, b, opening);
    hide F.Funds, OneEach, P.Sum, W.Count;
    MulLe(s.ledger.bounties[b].payoutCents, P.Sum(s.pay.payouts, P.NumberOf(b)), JobsOf(s, b));
  }

  lemma MulLe(a: nat, m: nat, n: nat)
    requires m <= n
    ensures a * m <= a * n
  {
  }

  /** In every state a deployment reaches while no pass creates a second payout for a job. */
  lemma BudgetAlwaysSuffices(s: Db, d: Deployment, b: nat)
    requires Reachable(H7_ONLY, s, d) && b < |s.ledger.bounties|
    ensures Committed(s, b) <= Reserved(s, b)
  {
    ReachableIsPaidOnce(s, d);
    BudgetSuffices(s, b, d.opening);
  }
}
