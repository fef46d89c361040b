/**
 One concrete deployment, taken step by step: for each of H1, H2, H4 and H5 it reaches,
 with all hypotheses met, a state in which the next step can break that one, and shows
 what follows; for H5 also when that comes only with a later pass, or after a refund.
 */
module RailExample {
  import opened Common
  import opened FeeSplit
  import opened Rail
  import opened RailSteps
  import opened RailLimits
  import opened RailReclaim
  import M = RailMoney
  import O = Outbox
  import W = Work
  import P = Pay
  import L = Ledger

  const BUYER: nat := 1
  const WORKER: nat := 7
  const PRICE: nat := 100
  const HOLD_SEC := 60
  const RATES: LegalRates := Rates(0, 100)
  const NO_ORG := L.Org(None, None, None)

  /** One buyer with 1000 cents, no quotas, and up to three verification attempts. */
  function Demo(now: nat): Deployment {
    Deployment(now, O.Config(None, None, 300), 3, map[], map[BUYER := 1000])
  }

  function Row(status: L.BountyStatus): L.Bounty {
    L.Bounty(BUYER, PRICE, 1, HOLD_SEC, status)
  }

  function Request(): W.Request {
    W.Request("", 0, false, true, false, true)
  }

  // ----- the tables along the way -----

  function NoWork(): W.Tables {
    W.Tables([], [], map[], map[], map[], 0, 0, 3)
  }

  function OpenWork(): W.Tables {
    NoWork().(jobs := [W.NewJob(0)])
  }

  function TheLease(now: nat): W.Lease {
    W.Lease(WORKER, now + W.LEASE_TTL_MS, 0)
  }

  function LeasedWork(now: nat): W.Tables {
    NoWork().(jobs := [W.Job(0, W.Claimed, Some(TheLease(now)), None, None)], nextNonce := 1)
  }

  function SubmittedWork(now: nat): W.Tables {
    LeasedWork(now).(jobs := [W.Job(0, W.Verifying, Some(TheLease(now)), Some(0), None)],
                  submissions := [W.Submission(0, WORKER, "", 0, W.Submitted)],
                  attempts := map[0 := map[1 := W.NEW_ATTEMPT]])
  }

  function VerifyingWork(now: nat): W.Tables {
    SubmittedWork(now).(attempts := map[0 := map[1 := W.Attempt(W.InProgress, Some(0), now + 1000, None)]],
                        nextToken := 1)
  }

  function NoPay(): P.Tables {
    P.Tables([], map[], [], O.Box(map[], map[]))
  }

  function NewBooks(): L.Tables {
    L.NewLedger(map[], map[BUYER := 1000]).(bounties := [Row(L.Draft)])
  }

  function FundedBooks(now: nat): L.Tables {
    L.Tables(map[], map[BUYER := 900], [L.BillingEvent(BUYER, L.BudgetReserve(0), -100, now)],
             [Row(L.Published)], map[0 := L.Reservation(BUYER, PRICE, false)], map[])
  }

  function At(now: nat, work: W.Tables, pay: P.Tables, books: L.Tables): Db {
    Db(now, Demo(now).cfg, work, pay, books)
  }

  lemma PublishUnlimited(l: L.Tables, b: nat, openJobs: nat, now: nat)
    requires b < |l.bounties| && b !in l.reservations
    requires l.bounties[b].org in l.accounts && L.LimitsOf(l, l.bounties[b].org) == NO_ORG
    requires 0 < L.ReserveCents(l.bounties[b]) <= l.accounts[l.bounties[b].org]
    ensures var org, amount := l.bounties[b].org, L.ReserveCents(l.bounties[b]);
            L.Publish(l, b, openJobs, false, now)
            == Ok((L.SetStatus(L.Post(l, org, L.BudgetReserve(b), 0 - amount, now)
                               .(reservations := l.reservations[b := L.Reservation(org, amount, false)]),
                               b, L.Published),
                   l.bounties[b].classes))
  {
    hide L.Spent;
  }

  lemma PublishBooks(now: nat)
    ensures L.Publish(NewBooks(), 0, 0, false, now) == Ok((FundedBooks(now), 1))
  {
    var l := NewBooks();
    assert l.accounts == map[BUYER := 1000];
    assert L.ReserveCents(l.bounties[0]) == 100;
    PublishUnlimited(l, 0, 0, now);
    hide L.Publish;
    var l1 := L.Post(l, BUYER, L.BudgetReserve(0), 0 - 100, now);
    assert l1.accounts == map[BUYER := 900];
    assert l1.events == FundedBooks(now).events;
    var l2 := l1.(reservations := l.reservations[0 := L.Reservation(BUYER, 100, false)]);
    assert l2.reservations == FundedBooks(now).reservations;
    assert L.SetStatus(l2, 0, L.Published) == FundedBooks(now);
  }

  lemma AddTheJob()
    ensures W.AddJobs(NoWork(), 0, 1) == OpenWork()
  {
    assert [] + seq(1, _ => W.NewJob(0)) == [W.NewJob(0)];
  }

  lemma LeaseTheJob(now: nat)
    ensures W.ClaimJob(OpenWork(), WORKER, 0, false, now).t == LeasedWork(now)
  {
  }

  lemma SubmitIt(now: nat)
    ensures W.Submit(LeasedWork(now), WORKER, 0, Request(), now).t == SubmittedWork(now)
  {
    assert SubmittedWork(now).submissions
           == LeasedWork(now).submissions + [W.Submission(0, WORKER, "", 0, W.Submitted)];
  }

  lemma ClaimTheAttempt(now: nat)
    ensures W.VerifierClaim(SubmittedWork(now), 0, 1, 1000, now).t == VerifyingWork(now)
  {
    var m: W.Attempts := map[1 := W.NEW_ATTEMPT];
    var row := W.Attempt(W.InProgress, Some(0), now + 1000, None);
    assert m[1 := row] == map[1 := row];
    assert SubmittedWork(now).attempts[0 := m[1 := row]] == VerifyingWork(now).attempts;
  }

  // ----- the run to a submission under verification -----

  function VerifyingDb(now: nat): Db {
    At(now, VerifyingWork(now), NoPay(), FundedBooks(now))
  }

  lemma PublishStep(now: nat)
    ensures Next(At(now, NoWork(), NoPay(), NewBooks()), Publish(0)) == At(now, OpenWork(), NoPay(), FundedBooks(now))
  {
    PublishBooks(now);
    AddTheJob();
    var s := At(now, NoWork(), NoPay(), NewBooks());
    assert OpenJobs(s, BUYER) == 0 && JobsOf(s, 0) == 0;
    hide L.Publish, W.AddJobs;
  }

  lemma ReachPublished(now: nat)
    ensures Reachable(ALL, At(now, OpenWork(), NoPay(), FundedBooks(now)), Demo(now))
  {
    var s := Start(Demo(now));
    StartIsReachable(ALL, Demo(now));
    var e := CreateBounty(Row(L.Draft));
    assert Meets(ALL, s, e);
    ReachableStep(ALL, s, Demo(now), e);
    assert Next(s, e) == At(now, NoWork(), NoPay(), NewBooks());
    hide Next, Reachable;
    assert Meets(ALL, Next(s, e), Publish(0));
    ReachableStep(ALL, Next(s, e), Demo(now), Publish(0));
    PublishStep(now);
  }

  function PublishedDb(now: nat): Db {
    At(now, OpenWork(), NoPay(), FundedBooks(now))
  }

  lemma LeaseStep(now: nat)
    ensures var s, e := PublishedDb(now), ClaimJob(WORKER, 0, false);
            Meets(ALL, s, e) && Next(s, e) == s.(work := LeasedWork(now))
  {
    LeaseTheJob(now);
    hide W.ClaimJob;
  }

  lemma SubmitStep(now: nat)
    ensures var s, e := PublishedDb(now).(work := LeasedWork(now)), Submit(WORKER, 0, Request());
            Meets(ALL, s, e) && Next(s, e) == s.(work := SubmittedWork(now))
  {
    SubmitIt(now);
    hide W.Submit;
  }

  lemma AttemptStep(now: nat)
    ensures var s, e := PublishedDb(now).(work := SubmittedWork(now)), VerifierClaim(0, 1, 1000);
            Meets(ALL, s, e) && Next(s, e) == VerifyingDb(now)
  {
    ClaimTheAttempt(now);
    hide W.VerifierClaim;
  }

  /** The bounty is funded and its one job is being verified. */
  lemma ReachVerifying(now: nat)
    ensures Reachable(ALL, VerifyingDb(now), Demo(now))
  {
    ReachPublished(now);
    LeaseStep(now);
    SubmitStep(now);
    AttemptStep(now);
    hide Next, Reachable, Meets;
    var s := PublishedDb(now);
    ReachableStep(ALL, s, Demo(now), ClaimJob(WORKER, 0, false));
    ReachableStep(ALL, s.(work := LeasedWork(now)), Demo(now), Submit(WORKER, 0, Request()));
    ReachableStep(ALL, s.(work := SubmittedWork(now)), Demo(now), VerifierClaim(0, 1, 1000));
  }

  // ----- without H1 -----

  const PASS := GiveVerdict(0, 1, 0, W.Pass, RATES)

  /** The buyer closes the bounty while its job is being verified; then the pass comes and nothing covers the payout. */
  lemma PassAfterCloseIsUncovered(now: nat)
    ensures exists s :: Reachable(ALL, s, Demo(now)) && Taken(s, PASS) && !ReservationOpen(s, PASS)
                        && !Solvent(Next(s, PASS), 0)
  {
    ReachVerifying(now);
    var s := VerifyingDb(now);
    var s1 := Next(s, Close(0));
    assert Meets(ALL, s, Close(0));
    CloseReleases(now);
    hide Next, Reachable;
    ReachableStep(ALL, s, Demo(now), Close(0));
    ReachableUnderLess(ALL, H1_H2_H7_H9, s1, Demo(now));
    NoPayoutYet(s1);
    FirstPassKeepsSolventIff(s1, Demo(now), PASS);
  }

  lemma NoPayoutYet(s: Db)
    requires s.pay == NoPay()
    ensures PASS.submission !in s.pay.bySubmission && JobIsPaidOnce(s, PASS)
  {
  }

  lemma CloseReleases(now: nat)
    ensures var s1 := Next(VerifyingDb(now), Close(0));
            && s1.work == VerifyingWork(now) && s1.now == now && s1.pay == NoPay()
            && |s1.ledger.bounties| == 1 && s1.ledger.bounties[0].payoutCents == PRICE
            && 0 in s1.ledger.reservations && s1.ledger.reservations[0].released
            && Taken(s1, PASS)
  {
  }

  // ----- after the pass -----

  function PassedPay(now: nat): P.Tables {
    P.RequestPayout(NoPay(), 0, 0, WORKER, PRICE, HOLD_SEC, RATES, now)
  }

  lemma PassedRow(now: nat)
    ensures var p := PassedPay(now);
            && |p.payouts| == 1 && p.bySubmission == map[0 := 0]
            && p.payouts[0] == P.Payout(0, 0, WORKER, PRICE, SplitOf(PRICE, RATES), P.Due,
                                        Some(now + 1000 * HOLD_SEC), P.Unblocked)
            && P.PayoutRequested(0) in p.box.rows
            && p.box.rows[P.PayoutRequested(0)] == O.Fresh(P.PAYOUT_TOPIC, now + 1000 * HOLD_SEC, now)
            && p.disputes == []
  {
  }

  lemma FirstPass(now: nat)
    ensures var s1 := Next(VerifyingDb(now), PASS);
            && Reachable(ALL, s1, Demo(now))
            && s1.now == now && s1.ledger == FundedBooks(now) && s1.pay == PassedPay(now)
            && W.HasAttempt(s1.work, 0, 1) && s1.work.attempts[0][1].status == W.Finished
            && |s1.work.submissions| == 1 && s1.work.submissions[0].job == 0
            && |s1.work.jobs| == 1 && s1.work.jobs[0].bounty == 0
  {
    var s := VerifyingDb(now);
    ReachVerifying(now);
    assert Meets(ALL, s, PASS);
    PassTaken(now);
    PassDone(s, now);
    hide Reachable, Next, Meets, W.GiveVerdict;
    ReachableStep(ALL, s, Demo(now), PASS);
  }

  lemma PassTaken(now: nat)
    ensures var out := W.GiveVerdict(VerifyingWork(now), 0, 1, 0, W.Pass, now);
            && out.reply == W.Completed
            && W.HasAttempt(out.t, 0, 1) && out.t.attempts[0][1].status == W.Finished
            && |out.t.submissions| == 1 && out.t.submissions[0].job == 0
            && |out.t.jobs| == 1 && out.t.jobs[0].bounty == 0
  {
    hide W.MaxAttempt;
  }

  lemma PassDone(s: Db, now: nat)
    requires s == VerifyingDb(now) && W.GiveVerdict(s.work, 0, 1, 0, W.Pass, now).reply == W.Completed
    ensures Next(s, PASS) == s.(work := W.GiveVerdict(s.work, 0, 1, 0, W.Pass, now).t, pay := PassedPay(now))
  {
    hide W.GiveVerdict, P.RequestPayout;
  }

  // ----- without H4 -----

  function BadRequest(): W.Request {
    Request().(artifactsOk := false)
  }

  function Token(n: nat, now: nat): W.Attempt {
    W.Attempt(W.InProgress, Some(n), now + 1000, None)
  }

  /** The first call leaves a submission whose artifact is invalid; the job stays leased. */
  function OrphanWork(now: nat): W.Tables {
    LeasedWork(now).(submissions := [W.Submission(0, WORKER, "", 0, W.Submitted)])
  }

  function TwiceWork(now: nat): W.Tables {
    OrphanWork(now).(jobs := [W.Job(0, W.Verifying, Some(TheLease(now)), Some(1), None)],
                     submissions := [W.Submission(0, WORKER, "", 0, W.Submitted),
                                     W.Submission(0, WORKER, "", 0, W.Submitted)],
                     attempts := map[1 := map[1 := W.NEW_ATTEMPT]])
  }

  function TwoClaimsWork(now: nat): W.Tables {
    TwiceWork(now).(attempts := map[0 := map[1 := Token(0, now)], 1 := map[1 := Token(1, now)]], nextToken := 2)
  }

  const UNQUEUED := VerifierClaim(0, 1, 1000)
  const QUEUED := VerifierClaim(1, 1, 1000)
  const PASS_SECOND := GiveVerdict(1, 1, 1, W.Pass, RATES)

  lemma SubmitTwice(now: nat)
    ensures W.Submit(LeasedWork(now), WORKER, 0, BadRequest(), now).t == OrphanWork(now)
    ensures W.Submit(OrphanWork(now), WORKER, 0, Request(), now).t == TwiceWork(now)
  {
    assert [] + [W.Submission(0, WORKER, "", 0, W.Submitted)] == OrphanWork(now).submissions;
    assert TwiceWork(now).submissions == OrphanWork(now).submissions + [W.Submission(0, WORKER, "", 0, W.Submitted)];
  }

  lemma ClaimBoth(now: nat)
    ensures var t := W.VerifierClaim(TwiceWork(now), 0, 1, 1000, now).t;
            && W.HasAttempt(t, 1, 1) && t.attempts[1][1] == W.NEW_ATTEMPT
            && W.VerifierClaim(t, 1, 1, 1000, now).t == TwoClaimsWork(now)
  {
    var queued: W.Attempts := map[1 := W.NEW_ATTEMPT];
    var none: W.Attempts := map[];
    assert none[1 := W.NEW_ATTEMPT][1 := Token(0, now)] == map[1 := Token(0, now)];
    assert queued[1 := Token(1, now)] == map[1 := Token(1, now)];
    var t := W.VerifierClaim(TwiceWork(now), 0, 1, 1000, now).t;
    assert t.attempts == map[0 := map[1 := Token(0, now)], 1 := map[1 := W.NEW_ATTEMPT]];
    assert W.VerifierClaim(t, 1, 1, 1000, now).t.attempts == TwoClaimsWork(now).attempts;
  }

  lemma PassBoth(now: nat)
    ensures var t := TwoClaimsWork(now);
            var a := W.GiveVerdict(t, 0, 1, 0, W.Pass, now);
            var b := W.GiveVerdict(a.t, 1, 1, 1, W.Pass, now);
            && a.reply == W.Completed && b.reply == W.Completed
            && W.VerdictRefused(t, 0, 1, 0, now).None? && W.VerdictRefused(a.t, 1, 1, 1, now).None?
            && TwoOfOneJob(t) && t.jobs[0].status == W.Verifying && TwoOfOneJob(a.t) && a.t.jobs[0].status == W.Done
  {
    hide W.MaxAttempt;
  }

  /** The worker's two submissions for the one job of the bounty. */
  predicate TwoOfOneJob(t: W.Tables) {
    && |t.submissions| == 2 && t.submissions[0].job == 0 && t.submissions[0].worker == WORKER
    && t.submissions[1].job == 0 && t.submissions[1].worker == WORKER
    && |t.jobs| == 1 && t.jobs[0].bounty == 0
  }

  /** The first pass creates one payout of the full price, the second another. */
  lemma PayBoth(now: nat)
    ensures var p2 := P.RequestPayout(PassedPay(now), 1, 0, WORKER, PRICE, HOLD_SEC, RATES, now);
            P.Sum(p2.payouts, P.GrossOf(0)) == 2 * PRICE
  {
    var p1 := PassedPay(now);
    PassedRow(now);
    var p2 := P.RequestPayout(p1, 1, 0, WORKER, PRICE, HOLD_SEC, RATES, now);
    assert p1.payouts == [] + [p1.payouts[0]] && p2.payouts == p1.payouts + [p2.payouts[1]];
    P.SumAppend([], p1.payouts[0], P.GrossOf(0));
    P.SumAppend(p1.payouts, p2.payouts[1], P.GrossOf(0));
  }

  lemma TwiceStep(now: nat)
    ensures Reachable(ALL, PublishedDb(now).(work := TwiceWork(now)), Demo(now))
  {
    var s := PublishedDb(now);
    ReachPublished(now);
    LeaseStep(now);
    SubmitTwice(now);
    var s1, s2 := s.(work := LeasedWork(now)), s.(work := OrphanWork(now));
    var a, b := Submit(WORKER, 0, BadRequest()), Submit(WORKER, 0, Request());
    hide Reachable, W.Submit;
    assert Next(s1, a) == s2 && Next(s2, b) == s.(work := TwiceWork(now));
    assert Meets(ALL, s1, a) && Meets(ALL, s2, b);
    hide Next, Meets;
    ReachableStep(ALL, s, Demo(now), ClaimJob(WORKER, 0, false));
    ReachableStep(ALL, s1, Demo(now), a);
    ReachableStep(ALL, s2, Demo(now), b);
  }

  lemma ClaimBothSteps(now: nat)
    ensures var s := PublishedDb(now).(work := TwiceWork(now));
            && !ClaimIsEnqueued(s, UNQUEUED)
            && Meets(ALL, Next(s, UNQUEUED), QUEUED)
            && Next(Next(s, UNQUEUED), QUEUED) == s.(work := TwoClaimsWork(now))
  {
    ClaimBoth(now);
    hide W.VerifierClaim;
  }

  lemma PassBothSteps(now: nat)
    ensures var s := PublishedDb(now).(work := TwoClaimsWork(now));
            var s2 := Next(Next(s, PASS), PASS_SECOND);
            && Meets(ALL, s, PASS)
            && Meets(ALL.(h7 := false), Next(s, PASS), PASS_SECOND) && !JobIsPaidOnce(Next(s, PASS), PASS_SECOND)
            && Committed(s2, 0) == 2 * PRICE && s2.ledger == FundedBooks(now)
  {
    hide Next, Meets, W.GiveVerdict, W.VerdictRefused, PassedPay, TwoClaimsWork, JobIsPaidOnce;
    PassBoth(now);
    var s := PublishedDb(now).(work := TwoClaimsWork(now));
    FirstPays(s, now);
    SecondPays(Next(s, PASS), now);
  }

  lemma FirstPays(s: Db, now: nat)
    requires s.now == now && s.pay == NoPay() && s.ledger == FundedBooks(now)
    requires TwoOfOneJob(s.work) && s.work.jobs[0].status == W.Verifying
    requires W.VerdictRefused(s.work, 0, 1, 0, now).None?
    requires W.GiveVerdict(s.work, 0, 1, 0, W.Pass, now).reply == W.Completed
    ensures Meets(ALL, s, PASS)
    ensures Next(s, PASS) == s.(work := W.GiveVerdict(s.work, 0, 1, 0, W.Pass, now).t, pay := PassedPay(now))
  {
    hide Next, Meets, W.GiveVerdict, W.VerdictRefused, P.RequestPayout;
    PassMeets(s, PASS);
    PaysFor(s, PASS);
  }

  lemma SecondPays(s: Db, now: nat)
    requires s.now == now && s.pay == PassedPay(now) && s.ledger == FundedBooks(now)
    requires TwoOfOneJob(s.work) && s.work.jobs[0].status == W.Done
    requires W.VerdictRefused(s.work, 1, 1, 1, now).None?
    requires W.GiveVerdict(s.work, 1, 1, 1, W.Pass, now).reply == W.Completed
    ensures Meets(ALL.(h7 := false), s, PASS_SECOND) && !JobIsPaidOnce(s, PASS_SECOND)
    ensures var s1 := Next(s, PASS_SECOND); Committed(s1, 0) == 2 * PRICE && s1.ledger == FundedBooks(now)
  {
    hide Next, Meets, W.GiveVerdict, W.VerdictRefused, P.RequestPayout, PassedPay, P.Sum, SplitOf;
    PassedRow(now);
    PayBoth(now);
    PassMeets(s, PASS_SECOND);
    PaysFor(s, PASS_SECOND);
    assert 0 in s.pay.bySubmission && OtherIsPaid(s, 1);
  }

  /** What a pass on one of the worker's submissions for the one job comes to. */
  lemma PaysFor(s: Db, e: Step)
    requires e.GiveVerdict? && e.verdict == W.Pass && e.rates == RATES
    requires |s.ledger.bounties| == 1 && s.ledger.bounties[0] == Row(L.Published)
    requires e.submission < |s.work.submissions| && s.work.submissions[e.submission].job == 0
    requires s.work.submissions[e.submission].worker == WORKER && |s.work.jobs| == 1 && s.work.jobs[0].bounty == 0
    requires W.GiveVerdict(s.work, e.submission, e.attempt, e.token, W.Pass, s.now).reply == W.Completed
    ensures Next(s, e)
            == s.(work := W.GiveVerdict(s.work, e.submission, e.attempt, e.token, W.Pass, s.now).t,
                  pay := P.RequestPayout(s.pay, e.submission, 0, WORKER, PRICE, HOLD_SEC, RATES, s.now))
  {
    hide W.GiveVerdict, P.RequestPayout;
  }

  /** A pass that is taken on a job under verification or done meets the hypotheses, H6 and H7 as stated. */
  lemma PassMeets(s: Db, e: Step)
    requires e.GiveVerdict? && e.verdict == W.Pass && Taken(s, e) && ReservationOpen(s, e)
    requires s.work.jobs[s.work.submissions[e.submission].job].status in {W.Verifying, W.Done}
    requires forall i :: 0 <= i < |s.pay.payouts| ==> s.pay.payouts[i].status != P.Refunded
    ensures e.submission !in s.pay.bySubmission ==> Meets(ALL.(h7 := false), s, e)
    ensures !OtherIsPaid(s, e.submission) ==> Meets(ALL.(h6 := false), s, e)
    ensures s.pay.bySubmission == map[] ==> Meets(ALL, s, e)
  {
    hide W.VerdictRefused;
    TakenStep(s, e);
  }

  /**
   A worker submits twice, first with an artifact that is refused. The verifier claims
   the first submission, which was never enqueued, and passes both: the bounty owes
   twice what was reserved.
   */
  lemma UnqueuedClaimPaysTwice(now: nat)
    ensures exists s, more ::
              && Reachable(ALL, s, Demo(now)) && ClaimIsOpen(s, UNQUEUED) && !ClaimIsEnqueued(s, UNQUEUED)
              && RunUnder(ALL.(h7 := false), Next(s, UNQUEUED), more)
              && var s1 := Run(Next(s, UNQUEUED), more);
                 0 in s1.ledger.reservations && Committed(s1, 0) > s1.ledger.reservations[0].amount
  {
    var s := PublishedDb(now).(work := TwiceWork(now));
    TwiceStep(now);
    ClaimBothSteps(now);
    PassBothSteps(now);
    assert ClaimIsOpen(s, UNQUEUED);
    var s1 := Next(s, UNQUEUED);
    var s2 := Next(s1, QUEUED);
    hide Next, Meets, Reachable, Run, RunUnder, Committed;
    var h := ALL.(h7 := false);
    OneStep(h, Next(s2, PASS), PASS_SECOND);
    StepFirst(h, s2, PASS, [PASS_SECOND]);
    StepFirst(h, s1, QUEUED, [PASS] + [PASS_SECOND]);
  }

  // ----- without H5 -----

  const AGAIN := VerifierClaim(0, 1, 1000)

  /** The verifier claims the finished attempt again and passes it again: the payout is never made. */
  lemma ReclaimedPayoutIsLost(now: nat)
    ensures exists s, more ::
              && Reachable(ALL, s, Demo(now)) && ClaimIsEnqueued(s, AGAIN) && !ClaimIsOpen(s, AGAIN)
              && var s1, pass := Next(s, AGAIN), GiveVerdict(0, 1, s.work.nextToken, W.Pass, RATES);
                 && Taken(s1, pass) && !PassIsFirst(s1, pass)
                 && RunUnder(H6_ONLY, Next(s1, pass), more) && Lost(Run(Next(s1, pass), more), 0)
  {
    FirstPass(now);
    PassedRow(now);
    var s0 := Next(VerifyingDb(now), PASS);
    var wait := Tick(1000 * HOLD_SEC);
    assert Meets(ALL, s0, wait);
    ReachableStep(ALL, s0, Demo(now), wait);
    var s := Next(s0, wait);
    TickStep(s0, 1000 * HOLD_SEC);
    ClaimAgain(s, RATES);
    assert Meets(H6_ONLY, s, AGAIN);
    var s1, pass := Next(s, AGAIN), GiveVerdict(0, 1, s.work.nextToken, W.Pass, RATES);
    assert MayComeEarly(s1, 0, s1.now + 1000 * HOLD_SEC);
    hide Reachable, Next, RunUnder, Run, Lost, Taken, MayComeEarly, P.RequestPayout;
    ReachableUnderLess(ALL, H6_ONLY, s, Demo(now));
    ReachableStep(H6_ONLY, s, Demo(now), AGAIN);
    PassLosesPayoutIff(s1, Demo(now), pass);
  }

  lemma ClaimAgain(s: Db, rates: Rates)
    requires W.HasAttempt(s.work, 0, 1) && s.work.attempts[0][1].status == W.Finished
    requires |s.work.submissions| == 1 && s.work.submissions[0].job == 0 && |s.work.jobs| == 1
    ensures var s1, pass := Next(s, AGAIN), GiveVerdict(0, 1, s.work.nextToken, W.Pass, rates);
            && s1 == s.(work := s1.work) && Taken(s1, pass)
            && s1.work.submissions == s.work.submissions && s1.work.jobs == s.work.jobs
  {
  }

  // ----- without H5, some time later -----

  const UNDECIDED := GiveVerdict(0, 1, 0, W.Inconclusive, RATES)
  const PASS_AGAIN := GiveVerdict(0, 1, 1, W.Pass, RATES)
  const CLAIM_NEXT := VerifierClaim(0, 2, 1000)
  const PASS_NEXT := GiveVerdict(0, 2, 2, W.Pass, RATES)

  /** The first attempt was inconclusive and the second is queued; there is no payout. */
  predicate Undecided(t: W.Tables) {
    && |t.submissions| == 1 && t.submissions[0].job == 0 && t.submissions[0].worker == WORKER
    && |t.jobs| == 1 && t.jobs[0].bounty == 0 && t.jobs[0].status == W.Verifying
    && W.HasAttempt(t, 0, 1) && t.attempts[0][1].status == W.Finished
    && W.HasAttempt(t, 0, 2) && t.attempts[0][2] == W.NEW_ATTEMPT && t.nextToken == 1
  }

  lemma UndecidedWork(now: nat)
    ensures var out := W.GiveVerdict(VerifyingWork(now), 0, 1, 0, W.Inconclusive, now);
            Undecided(out.t) && out.reply == W.Requeued
  {
    var t := VerifyingWork(now);
    var m := W.RecordVerdict(t, 0, 1, W.Inconclusive).attempts[0];
    assert m.Keys == {1};
    W.MaxAttemptIsLargest(m);
    hide W.MaxAttempt;
  }

  lemma ReachUndecided(now: nat)
    ensures var s := Next(VerifyingDb(now), UNDECIDED);
            && Reachable(ALL, s, Demo(now)) && s == VerifyingDb(now).(work := s.work) && Undecided(s.work)
  {
    ReachVerifying(now);
    UndecidedWork(now);
    hide W.GiveVerdict, W.VerdictRefused, Undecided, Reachable;
    assert Meets(ALL, VerifyingDb(now), UNDECIDED);
    ReachableStep(ALL, VerifyingDb(now), Demo(now), UNDECIDED);
  }

  /** What is left of the tables once attempt n was claimed and passed: another attempt is as it was. */
  lemma ClaimAndPass(t: W.Tables, n: nat, other: nat, now: nat)
    requires |t.submissions| == 1 && t.submissions[0].job == 0 && |t.jobs| == 1
    requires W.HasAttempt(t, 0, n) && W.HasAttempt(t, 0, other) && n != other
    requires t.attempts[0][n].status != W.InProgress
    ensures var t1 := W.VerifierClaim(t, 0, n, 1000, now).t;
            var out := W.GiveVerdict(t1, 0, n, t.nextToken, W.Pass, now);
            && t1.submissions == t.submissions && t1.jobs == t.jobs
            && W.VerdictRefused(t1, 0, n, t.nextToken, now).None? && out.reply == W.Completed
            && |out.t.submissions| == 1 && out.t.submissions[0].job == 0
            && out.t.submissions[0].worker == t.submissions[0].worker
            && |out.t.jobs| == 1 && out.t.jobs[0].bounty == t.jobs[0].bounty && out.t.jobs[0].status == W.Done
            && W.HasAttempt(out.t, 0, n)
            && W.HasAttempt(out.t, 0, other) && out.t.attempts[0][other] == t.attempts[0][other]
            && out.t.nextToken == t.nextToken + 1
  {
    hide W.MaxAttempt;
  }

  lemma PassAgain(s: Db, now: nat)
    requires s == VerifyingDb(now).(work := s.work) && Undecided(s.work)
    ensures var s1 := Next(s, AGAIN);
            var s2 := Next(s1, PASS_AGAIN);
            && ClaimIsEnqueued(s, AGAIN) && !ClaimIsOpen(s, AGAIN) && Meets(ALL, s1, PASS_AGAIN)
            && s2 == s.(work := s2.work, pay := PassedPay(now))
            && |s2.work.submissions| == 1 && s2.work.submissions[0].job == 0 && s2.work.submissions[0].worker == WORKER
            && |s2.work.jobs| == 1 && s2.work.jobs[0].bounty == 0 && s2.work.jobs[0].status == W.Done
            && W.HasAttempt(s2.work, 0, 1) && W.HasAttempt(s2.work, 0, 2)
            && s2.work.attempts[0][2] == W.NEW_ATTEMPT && s2.work.nextToken == 2
  {
    hide Next, Meets, W.VerifierClaim, W.GiveVerdict, P.RequestPayout, W.VerdictRefused, W.MaxAttempt;
    ClaimAndPass(s.work, 1, 2, now);
    ClaimVerifier(s, 0, 1, 1000);
    var s1 := Next(s, AGAIN);
    PassMeets(s1, PASS_AGAIN);
    PaysFor(s1, PASS_AGAIN);
  }

  /** The second pass finds the payout and holds it a little longer than its event. */
  lemma PassNext(s: Db, now: nat)
    requires s == VerifyingDb(now).(now := now + 1, work := s.work, pay := PassedPay(now))
    requires |s.work.submissions| == 1 && s.work.submissions[0].job == 0 && s.work.submissions[0].worker == WORKER
    requires |s.work.jobs| == 1 && s.work.jobs[0].bounty == 0 && s.work.jobs[0].status == W.Done
    requires W.HasAttempt(s.work, 0, 1) && W.HasAttempt(s.work, 0, 2) && s.work.attempts[0][2] == W.NEW_ATTEMPT
    requires s.work.nextToken == 2
    ensures var s1 := Next(s, CLAIM_NEXT);
            var s2 := Next(s1, PASS_NEXT);
            && Meets(ALL, s, CLAIM_NEXT) && Meets(ALL.(h6 := false), s1, PASS_NEXT) && !PassIsFirst(s1, PASS_NEXT)
            && OnHold(s2, 0)
            && ClaimableBefore(s2.pay.box.rows[P.PayoutRequested(0)], s2.pay.payouts[0].holdUntil.value, s2.cfg)
  {
    hide Next, Meets, W.VerifierClaim, W.GiveVerdict, W.VerdictRefused, PassedPay, W.MaxAttempt, P.RequestPayout,
         SplitOf;
    ClaimAndPass(s.work, 2, 1, now + 1);
    PassedRow(now);
    ClaimVerifier(s, 0, 2, 1000);
    var s1 := Next(s, CLAIM_NEXT);
    assert Meets(ALL, s, CLAIM_NEXT) by {
      EnqueuedClaimMeets(s, CLAIM_NEXT);
    }
    assert !OtherIsPaid(s1, 0);
    PassMeets(s1, PASS_NEXT);
    PaysFor(s1, PASS_NEXT);
    SecondRequest(s1.pay, 0, 0, Row(L.Published), WORKER, RATES, now + 1);
  }

  lemma EnqueuedClaimMeets(s: Db, e: Step)
    requires e.VerifierClaim? && ClaimIsEnqueued(s, e) && ClaimIsOpen(s, e)
    ensures Meets(ALL, s, e)
  {
  }

  /**
   An attempt that was inconclusive is claimed again and passed while the next one is
   queued: only H5 is broken. The next one is passed a millisecond later, which breaks H6,
   and the payout is lost.
   */
  lemma LatePassIsLost(now: nat)
    ensures exists s, steps ::
              && Reachable(ALL, s, Demo(now)) && s.pay.payouts == []
              && ClaimIsEnqueued(s, AGAIN) && !ClaimIsOpen(s, AGAIN)
              && RunUnder(ALL.(h6 := false), Next(s, AGAIN), steps) && Lost(Run(Next(s, AGAIN), steps), 0)
  {
    ReachUndecided(now);
    var s, h := Next(VerifyingDb(now), UNDECIDED), ALL.(h6 := false);
    hide Undecided;
    PassAgain(s, now);
    var s1 := Next(s, AGAIN);
    var s2 := Next(s1, PASS_AGAIN);
    var s3 := Next(s2, Tick(1));
    TickStep(s2, 1);
    hide Next, Reachable, Run, RunUnder, Lost, OnHold, ClaimableBefore, PassedPay;
    PassNext(s3, now);
    var s4 := Next(s3, CLAIM_NEXT);
    var more := ClaimedEarlyIsLost(Next(s4, PASS_NEXT), 0);
    RunUnderLess(ALL, h, Next(s4, PASS_NEXT), more);
    StepFirst(h, s4, PASS_NEXT, more);
    StepFirst(h, s3, CLAIM_NEXT, [PASS_NEXT] + more);
    TickMeetsAll(s2);
    StepFirst(h, s2, Tick(1), [CLAIM_NEXT] + ([PASS_NEXT] + more));
    StepFirst(h, s1, PASS_AGAIN, [Tick(1)] + ([CLAIM_NEXT] + ([PASS_NEXT] + more)));
  }

  lemma TickMeetsAll(s: Db)
    ensures Meets(ALL, s, Tick(1))
  {
  }

  // ----- without H2 -----

  /** The buyer disputes, is refunded, disputes again, withdraws: the worker is paid and the refund stays. */
  lemma SecondDisputePaysRefunded(now: nat)
    ensures exists s :: Reachable(ALL, s, Demo(now)) && DoOpenDispute(s, BUYER, OfPayout(0)).Ok?
                        && var s1 := Next(s, OpenDispute(BUYER, OfPayout(0)));
                           exists steps, more :: RefundedThenPaid(s1, 0, steps, more)
  {
    FirstPass(now);
    PassedRow(now);
    var s := Next(VerifyingDb(now), PASS);
    var dispute := OpenDispute(BUYER, OfPayout(0));
    var s1 := Next(s, dispute);
    var s2 := Next(s1, ResolveDispute(0, P.ToRefund));
    RefundStep(s, s1, now);
    hide Next, Meets, Reachable, DoOpenDispute, RefundedThenPaid, VerifyingDb, PassedPay, FundedBooks, RATES;
    ReachableStep(ALL, s, Demo(now), dispute);
    ReachableStep(ALL, s1, Demo(now), ResolveDispute(0, P.ToRefund));
    ReachableUnderLess(ALL, H2_ONLY, s2, Demo(now));
    DisputeMayPayRefundedIff(s2, Demo(now), BUYER, OfPayout(0));
  }

  // ----- without H5, after a refund -----

  const DEARER: LegalRates := Rates(0, 5000)

  /**
   The payout is refunded; then the verifier claims the finished attempt again and passes
   it at a larger Proofwork fee: the refund no longer is what was booked, and nothing
   covers the fee.
   */
  lemma RefundedFeeGrows(now: nat)
    ensures exists s ::
              && Reachable(ALL, s, Demo(now)) && ClaimIsEnqueued(s, AGAIN) && !ClaimIsOpen(s, AGAIN)
              && var s1, pass := Next(s, AGAIN), GiveVerdict(0, 1, s.work.nextToken, W.Pass, DEARER);
                 && Taken(s1, pass) && !FeeStays(s1, pass)
                 && !Solvent(Next(s1, pass), 0) && !M.AllRefunded(Next(s1, pass))
  {
    FirstPass(now);
    PassedRow(now);
    var s := Next(VerifyingDb(now), PASS);
    var dispute := OpenDispute(BUYER, OfPayout(0));
    var s1 := Next(s, dispute);
    var s2 := Next(s1, ResolveDispute(0, P.ToRefund));
    RefundStep(s, s1, now);
    hide Next, Meets, Reachable, VerifyingDb, PassedPay;
    ReachableStep(ALL, s, Demo(now), dispute);
    ReachableStep(ALL, s1, Demo(now), ResolveDispute(0, P.ToRefund));
    DearerPass(s2, now);
  }

  lemma DearerPass(s: Db, now: nat)
    requires Reachable(ALL, s, Demo(now)) && s.pay.bySubmission == map[0 := 0]
    requires s.pay.payouts == [P.Payout(0, 0, WORKER, PRICE, SplitOf(PRICE, RATES), P.Refunded,
                                        Some(now + 1000 * HOLD_SEC), P.ByRefund)]
    requires s.ledger.bounties == [Row(L.Published)]
    requires s.ledger.reservations == map[0 := L.Reservation(BUYER, PRICE, false)]
    requires W.HasAttempt(s.work, 0, 1) && s.work.attempts[0][1].status == W.Finished
    requires |s.work.submissions| == 1 && s.work.submissions[0].job == 0
    requires |s.work.jobs| == 1 && s.work.jobs[0].bounty == 0
    ensures ClaimIsEnqueued(s, AGAIN) && !ClaimIsOpen(s, AGAIN)
    ensures var s1, pass := Next(s, AGAIN), GiveVerdict(0, 1, s.work.nextToken, W.Pass, DEARER);
            && Taken(s1, pass) && !FeeStays(s1, pass)
            && !Solvent(Next(s1, pass), 0) && !M.AllRefunded(Next(s1, pass))
  {
    hide Reachable, Next, Meets, M.AllRefunded, Solvent, Taken, SplitOf, MoreNeeded, Slack, FeeStays;
    AgainMeets(s);
    ClaimAgain(s, DEARER);
    var s1, pass := Next(s, AGAIN), GiveVerdict(0, 1, s.work.nextToken, W.Pass, DEARER);
    ReachableUnderLess(ALL, H1_H2_H7_H9, s, Demo(now));
    ReachableUnderLess(ALL, H2_H9, s, Demo(now));
    ReachableStep(H1_H2_H7_H9, s, Demo(now), AGAIN);
    ReachableStep(H2_H9, s, Demo(now), AGAIN);
    NothingLeft(s1, pass);
    PassKeepsSolventIff(s1, Demo(now), pass);
    PassKeepsRefundsIff(s1, Demo(now), pass);
  }

  lemma AgainMeets(s: Db)
    ensures Meets(H1_H2_H7_H9, s, AGAIN) && Meets(H2_H9, s, AGAIN)
  {
  }

  /** The reservation is used up by the payout, whose fee would grow. */
  lemma NothingLeft(s: Db, e: Step)
    requires Taken(s, e) && e.submission == 0 && e.verdict == W.Pass && e.rates == DEARER
    requires s.pay.bySubmission == map[0 := 0] && |s.pay.payouts| == 1
    requires var row := s.pay.payouts[0];
             row.bounty == 0 && row.amount == PRICE && row.split == SplitOf(PRICE, RATES) && row.status == P.Refunded
    requires |s.ledger.bounties| == 1 && BountyOf(s, e) == 0
    requires s.ledger.reservations == map[0 := L.Reservation(BUYER, PRICE, false)]
    ensures !FeeStays(s, e) && MoreNeeded(s, e) > Slack(s, 0)
  {
    hide Taken, SplitOf;
    TwoFees();
    assert s.pay.payouts == [] + [s.pay.payouts[0]];
    P.SumAppend([], s.pay.payouts[0], P.GrossOf(0));
  }

  lemma TwoFees()
    ensures SplitOf(PRICE, RATES).proofworkFee == 1 && SplitOf(PRICE, DEARER).proofworkFee == 50
  {
  }

  lemma RefundStep(s: Db, s1: Db, now: nat)
    requires s.now == now && s.ledger == FundedBooks(now) && s.pay == PassedPay(now)
    requires s1 == Next(s, OpenDispute(BUYER, OfPayout(0)))
    ensures var s2 := Next(s1, ResolveDispute(0, P.ToRefund));
            && Meets(ALL, s, OpenDispute(BUYER, OfPayout(0))) && Meets(ALL, s1, ResolveDispute(0, P.ToRefund))
            && DoOpenDispute(s2, BUYER, OfPayout(0)).Ok?
            && ResolveTarget(s2, BUYER, OfPayout(0)) == Ok(0)
            && s2.pay.payouts == [s.pay.payouts[0].(status := P.Refunded, blocked := P.ByRefund)]
            && s2.pay.bySubmission == s.pay.bySubmission && s2.now == s.now && s2.work == s.work
            && s2.ledger.bounties == s.ledger.bounties && s2.ledger.reservations == s.ledger.reservations
  {
    PassedRow(now);
    hide P.RequestPayout;
    FirstDispute(s.pay, now);
    hide PassedPay, P.DisputeRefused, P.OpenDispute, P.Refund, P.ResolveDispute;
    assert ResolveTarget(s, BUYER, OfPayout(0)) == Ok(0);
    OpenStep(s, BUYER, OfPayout(0));
    assert Meets(ALL, s, OpenDispute(BUYER, OfPayout(0)));
    ResolveStep(s1, 0);
    hide Next;
  }

  lemma ResolveStep(s: Db, dp: nat)
    requires dp < |s.pay.disputes| && s.pay.disputes[dp].payout < |s.pay.payouts|
    requires P.ResolveDispute(s.pay, dp, P.ToRefund, s.now) == Ok((P.Refund(s.pay, dp), true))
    ensures var e := ResolveDispute(dp, P.ToRefund);
            var s2 := Next(s, e);
            && Meets(ALL, s, e) && s2.now == s.now
            && s2.pay == P.Refund(s.pay, dp) && s2.work == s.work
            && s2.ledger.bounties == s.ledger.bounties && s2.ledger.reservations == s.ledger.reservations
  {
    var row := s.pay.disputes[dp];
    CreditKeepsBounties(s.ledger, row.org, row.bounty, row.payout, P.RefundCents(s.pay.payouts[row.payout]), s.now);
    hide P.Refund, P.ResolveDispute, L.Credit;
  }

  lemma CreditKeepsBounties(l: L.Tables, org: nat, b: nat, i: nat, cents: nat, now: nat)
    ensures var l1 := L.Credit(l, org, b, i, cents, now); l1.bounties == l.bounties && l1.reservations == l.reservations
  {
  }

  lemma FirstDispute(p: P.Tables, now: nat)
    requires |p.payouts| == 1 && p.disputes == [] && p.payouts[0].status == P.Due
    requires p.payouts[0].holdUntil.Some? && p.payouts[0].holdUntil.value > now
    ensures P.DisputeRefused(p, 0, now).None?
    ensures var p1 := P.OpenDispute(p, BUYER, 0, now);
            && p1.disputes == [P.Dispute(BUYER, p.payouts[0].bounty, 0, P.Open)]
            && P.ResolveDispute(p1, 0, P.ToRefund, now) == Ok((P.Refund(p1, 0), true))
            && |p1.payouts| == 1
            && var p2 := P.Refund(p1, 0);
               && p2.payouts == [p.payouts[0].(status := P.Refunded, blocked := P.ByRefund)]
               && p2.bySubmission == p.bySubmission
               && P.DisputeRefused(p2, 0, now).None?
  {
    assert !P.HasOpenDispute(p, 0);
    var p2 := P.Refund(P.OpenDispute(p, BUYER, 0, now), 0);
    assert !P.HasOpenDispute(p2, 0);
  }
}
