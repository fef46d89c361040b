/**
 A refund excludes a payment. This part needs only H2: whatever verifiers do, and
 whenever bounties are closed, a payout is paid or refunded at most once, never both.
 */
module RailOnce {
  import opened FeeSplit
  import opened Rail
  import F = RailFunds
  import O = Outbox
  import W = Work
  import P = Pay
  import L = Ledger

  // ----- the payment tables -----

  predicate RowOk(row: P.Payout) {
    && (row.status == P.Refunded <==> row.blocked == P.ByRefund)
    && (row.blocked == P.ByDispute ==> row.status in {P.Due, P.Failed})
  }

  /** Only a blocked payout has an open dispute, and it has only one. */
  ghost predicate PayOnce(p: P.Tables) {
    && (forall i :: 0 <= i < |p.payouts| ==> RowOk(p.payouts[i]))
    && (forall d: nat, i: nat :: P.OpenOn(p, d, i) ==> i < |p.payouts| && p.payouts[i].blocked == P.ByDispute)
    && (forall d: nat, e: nat, i: nat :: P.OpenOn(p, d, i) && P.OpenOn(p, e, i) ==> d == e)
  }

  predicate Settled(row: P.Payout) {
    row.status in {P.Paid, P.Refunded}
  }

  /** Payouts are only added, and a paid or refunded one stays so. */
  ghost predicate Settles(p: P.Tables, p1: P.Tables) {
    && |p.payouts| <= |p1.payouts|
    && forall i :: 0 <= i < |p.payouts| && Settled(p.payouts[i]) ==> p1.payouts[i].status == p.payouts[i].status
  }

  lemma BoxKeeps(p: P.Tables, box: O.Box<P.Key>)
    requires PayOnce(p)
    ensures PayOnce(p.(box := box)) && Settles(p, p.(box := box))
  {
    P.SameOpen(p, p.(box := box));
  }

  lemma RequestPayoutKeeps(
    p: P.Tables, x: nat, b: nat, worker: nat, amount: nat, windowSec: int, rates: LegalRates, now: int)
    requires PayOnce(p)
    ensures var p1 := P.RequestPayout(p, x, b, worker, amount, windowSec, rates, now); PayOnce(p1) && Settles(p, p1)
  {
    P.SameOpen(p, P.RequestPayout(p, x, b, worker, amount, windowSec, rates, now));
  }

  /** H2 is the requirement that the payout is not refunded. */
  lemma OpenDisputeKeeps(p: P.Tables, org: nat, i: nat, now: int)
    requires PayOnce(p) && i < |p.payouts| && P.DisputeRefused(p, i, now).None? && p.payouts[i].status != P.Refunded
    ensures PayOnce(P.OpenDispute(p, org, i, now)) && Settles(p, P.OpenDispute(p, org, i, now))
  {
    var p1, n := P.OpenDispute(p, org, i, now), |p.disputes|;
    forall d: nat, k: nat | P.OpenOn(p1, d, k)
      ensures if d == n then k == i else P.OpenOn(p, d, k) && k != i
    {
      if d < n && P.OpenOn(p, d, i) {
        assert P.HasOpenDispute(p, i);
      }
    }
  }

  lemma FreeKeeps(p: P.Tables, d: nat, st: P.DisputeStatus, now: int)
    requires PayOnce(p) && P.IsOpen(p, d) && p.disputes[d].payout < |p.payouts| && st != P.Open
    ensures PayOnce(P.Free(p, d, st, now)) && Settles(p, P.Free(p, d, st, now))
  {
    OthersElsewhere(p, P.Free(p, d, st, now), d);
  }

  lemma RefundKeeps(p: P.Tables, d: nat)
    requires PayOnce(p) && P.IsOpen(p, d) && p.disputes[d].payout < |p.payouts|
    ensures PayOnce(P.Refund(p, d)) && Settles(p, P.Refund(p, d))
  {
    OthersElsewhere(p, P.Refund(p, d), d);
  }

  /** A dispute that is still open once d is closed is open on another payout. */
  lemma OthersElsewhere(p: P.Tables, p1: P.Tables, d: nat)
    requires PayOnce(p) && P.IsOpen(p, d) && p.disputes[d].payout < |p.payouts|
    requires |p1.disputes| == |p.disputes|
    requires p1.disputes == p.disputes[d := p.disputes[d].(status := p1.disputes[d].status)]
    requires p1.disputes[d].status != P.Open
    ensures P.OpenOn(p, d, p.disputes[d].payout)
    ensures forall e: nat, k: nat :: P.OpenOn(p1, e, k) ==> P.OpenOn(p, e, k) && k != p.disputes[d].payout
  {
    assert P.OpenOn(p, d, p.disputes[d].payout);
    forall e: nat, k: nat | P.OpenOn(p1, e, k)
      ensures P.OpenOn(p, e, k) && k != p.disputes[d].payout
    {
      assert P.OpenOn(p, e, k);
    }
  }

  lemma HandlePayoutKeeps(p: P.Tables, w: nat, i: nat, rates: Rates, walletSet: bool, answer: P.Provider, now: int)
    requires PayOnce(p)
    ensures var p1 := P.HandlePayout(p, w, i, rates, walletSet, answer, now); PayOnce(p1) && Settles(p, p1)
  {
    P.SameOpen(p, P.HandlePayout(p, w, i, rates, walletSet, answer, now));
  }

  // ----- refunds booked -----

  /** How many refunds were credited for a payout. */
  function Credits(events: seq<L.BillingEvent>, i: nat): nat {
    if events == [] then 0
    else Credits(events[..|events| - 1], i) + if L.Within(L.RefundsOf(i), events[|events| - 1]) then 1 else 0
  }

  lemma CreditsAppend(events: seq<L.BillingEvent>, e: L.BillingEvent, i: nat)
    ensures Credits(events + [e], i) == Credits(events, i) + if L.Within(L.RefundsOf(i), e) then 1 else 0
    ensures L.Sum(events + [e], L.RefundsOf(i))
            == L.Sum(events, L.RefundsOf(i)) + if L.Within(L.RefundsOf(i), e) then e.amount else 0
  {
    assert (events + [e])[..|events|] == events;
    L.SumAppend(events, e, L.RefundsOf(i));
  }

  /** A payout is credited at most once, and only if it is refunded. */
  ghost predicate CreditOk(s: Db, i: nat) {
    Credits(s.ledger.events, i) <= if i < |s.pay.payouts| && s.pay.payouts[i].status == P.Refunded then 1 else 0
  }

  ghost predicate Once(s: Db) {
    PayOnce(s.pay) && forall i: nat :: CreditOk(s, i)
  }

  ghost predicate CreditStays(s: Db, s1: Db, i: nat) {
    && Credits(s1.ledger.events, i) == Credits(s.ledger.events, i)
    && L.Sum(s1.ledger.events, L.RefundsOf(i)) == L.Sum(s.ledger.events, L.RefundsOf(i))
  }

  /** What is settled stays settled, and no more is credited for it. */
  ghost predicate SettlesFor(s: Db, s1: Db) {
    && Settles(s.pay, s1.pay)
    && forall i :: 0 <= i < |s.pay.payouts| && Settled(s.pay.payouts[i]) ==> CreditStays(s, s1, i)
  }

  lemma SettlesForOn(a: Db, b: Db, c: Db)
    requires SettlesFor(a, b) && SettlesFor(b, c)
    ensures SettlesFor(a, c)
  {
    forall i | 0 <= i < |a.pay.payouts| && Settled(a.pay.payouts[i])
      ensures CreditStays(a, c, i)
    {
      assert CreditStays(a, b, i) && CreditStays(b, c, i);
    }
  }

  /** At most one event more, and that one no refund. */
  ghost predicate NoRefundBooked(l: L.Tables, l1: L.Tables) {
    var n := |l.events|;
    l1.events == l.events
    || (|l1.events| == n + 1 && l1.events == l.events + [l1.events[n]] && !l1.events[n].cause.DisputeRefund?)
  }

  lemma NoRefundKeeps(s: Db, s1: Db)
    requires Once(s) && PayOnce(s1.pay) && Settles(s.pay, s1.pay) && NoRefundBooked(s.ledger, s1.ledger)
    ensures Once(s1) && SettlesFor(s, s1)
  {
    forall i: nat
      ensures CreditOk(s1, i) && CreditStays(s, s1, i)
    {
      assert CreditOk(s, i);
      if s1.ledger.events != s.ledger.events {
        CreditsAppend(s.ledger.events, s1.ledger.events[|s.ledger.events|], i);
      }
    }
  }

  lemma RefundIsFirst(s: Db, d: nat)
    requires Once(s) && P.IsOpen(s.pay, d) && s.pay.disputes[d].payout < |s.pay.payouts|
    ensures var row := s.pay.disputes[d];
            var cents := P.RefundCents(s.pay.payouts[row.payout]);
            var s1 := s.(pay := P.Refund(s.pay, d),
                         ledger := L.Credit(s.ledger, row.org, row.bounty, row.payout, cents, s.now));
            Once(s1) && SettlesFor(s, s1)
  {
    var row := s.pay.disputes[d];
    var cents := P.RefundCents(s.pay.payouts[row.payout]);
    var l1 := L.Credit(s.ledger, row.org, row.bounty, row.payout, cents, s.now);
    var s1 := s.(pay := P.Refund(s.pay, d), ledger := l1);
    RefundKeeps(s.pay, d);
    assert P.OpenOn(s.pay, d, row.payout);
    assert s.pay.payouts[row.payout].blocked == P.ByDispute && RowOk(s.pay.payouts[row.payout]);
    assert !Settled(s.pay.payouts[row.payout]) && CreditOk(s, row.payout);
    assert s1.pay.payouts == s.pay.payouts[row.payout := s1.pay.payouts[row.payout]];
    assert s1.pay.payouts[row.payout].status == P.Refunded;
    hide PayOnce, L.Credit, P.Refund, Settles, Credits;
    forall i: nat
      ensures CreditOk(s1, i) && (i != row.payout ==> CreditStays(s, s1, i))
    {
      assert CreditOk(s, i);
      CreditAddsOne(s.ledger, row.org, row.bounty, row.payout, cents, s.now, i);
    }
  }

  lemma CreditAddsOne(l: L.Tables, org: nat, bounty: nat, payout: nat, cents: nat, now: nat, i: nat)
    ensures var l1 := L.Credit(l, org, bounty, payout, cents, now);
            && Credits(l1.events, i) <= Credits(l.events, i) + (if i == payout then 1 else 0)
            && (i != payout ==>
                  && Credits(l1.events, i) == Credits(l.events, i)
                  && L.Sum(l1.events, L.RefundsOf(i)) == L.Sum(l.events, L.RefundsOf(i)))
  {
    CreditsAppend(l.events, L.BillingEvent(org, L.DisputeRefund(bounty, payout), cents, now), i);
  }

  // ----- the steps -----

  lemma ResolveKeeps(s: Db, d: nat, r: P.Resolution)
    requires Once(s) && DoResolve(s, d, r).Ok?
    ensures Once(DoResolve(s, d, r).value) && SettlesFor(s, DoResolve(s, d, r).value)
  {
    hide Once, SettlesFor, P.Refund, P.Free, L.Credit;
    var i := s.pay.disputes[d].payout;
    PayOf(s);
    if s.pay.payouts[i].status == P.Refunded {
      NoRefundKeeps(s, s);
    } else if r == P.ToRefund {
      RefundIsFirst(s, d);
    } else {
      FreeKeeps(s.pay, d, P.Resolved, s.now);
      NoRefundKeeps(s, s.(pay := P.Free(s.pay, d, P.Resolved, s.now)));
    }
  }

  lemma PayOf(s: Db)
    requires Once(s)
    ensures PayOnce(s.pay)
  {
  }

  lemma HandleRefundKeeps(s: Db, w: nat, d: nat, dbOk: bool)
    requires Once(s)
    ensures Once(DoHandleRefund(s, w, d, dbOk)) && SettlesFor(s, DoHandleRefund(s, w, d, dbOk))
  {
    hide Once, SettlesFor, DoResolve, PayOnce;
    PayOf(s);
    var r := DoResolve(s, d, P.ToRefund);
    var s1 := if P.MayHandle(s.pay, w, P.AutoRefund(d)) && dbOk && r.Ok? then r.value else s;
    BoxKeeps(s.pay, s.pay.box);
    NoRefundKeeps(s, s);
    if s1 != s {
      ResolveKeeps(s, d, P.ToRefund);
    }
    PayOf(s1);
    var s2 := DoHandleRefund(s, w, d, dbOk);
    BoxKeeps(s1.pay, s2.pay.box);
    NoRefundKeeps(s1, s2);
    SettlesForOn(s, s1, s2);
  }

  lemma VerdictKeeps(s: Db, x: nat, n: nat, token: nat, v: W.Verdict, rates: Rates)
    requires Once(s)
    ensures Once(DoVerdict(s, x, n, token, v, rates)) && SettlesFor(s, DoVerdict(s, x, n, token, v, rates))
  {
    hide W.GiveVerdict, P.RequestPayout, PayOnce, Once, SettlesFor;
    F.CompletedWasThere(s.work, x, n, token, v, s.now);
    PayOf(s);
    BoxKeeps(s.pay, s.pay.box);
    var s1 := DoVerdict(s, x, n, token, v, rates);
    if s1.pay != s.pay {
      var b := s.work.jobs[s.work.submissions[x].job].bounty;
      var row := s.ledger.bounties[b];
      RequestPayoutKeeps(s.pay, x, b, s.work.submissions[x].worker, row.payoutCents, row.windowSec, rates, s.now);
    }
    NoRefundKeeps(s, s1);
  }

  lemma OpenDisputeStep(s: Db, org: nat, target: Target)
    requires Once(s) && DoOpenDispute(s, org, target).Ok? && DisputeIsFirst(s, OpenDispute(org, target))
    ensures Once(DoOpenDispute(s, org, target).value) && SettlesFor(s, DoOpenDispute(s, org, target).value)
  {
    var i := ResolveTarget(s, org, target).value;
    PayOf(s);
    hide Once, SettlesFor, PayOnce, ResolveTarget, P.OpenDispute;
    OpenDisputeKeeps(s.pay, org, i, s.now);
    NoRefundKeeps(s, s.(pay := P.OpenDispute(s.pay, org, i, s.now)));
  }

  lemma PayStepKeeps(s: Db, e: Step)
    requires Once(s) && (e.CancelDispute? || e.ClaimEvents? || e.HandlePayout? || e.AckEvent? || e.Crash?)
    ensures Once(Next(s, e)) && SettlesFor(s, Next(s, e))
  {
    hide Once, SettlesFor, PayOnce, P.Free, P.HandlePayout, O.Ack, O.Crash, O.Claim;
    PayOf(s);
    BoxKeeps(s.pay, s.pay.box);
    match e {
      case CancelDispute(org, d) =>
        if P.CancelDispute(s.pay, org, d, s.now).Ok? {
          FreeKeeps(s.pay, d, P.Cancelled, s.now);
        }
      case HandlePayout(w, i, rates, walletSet, answer) =>
        HandlePayoutKeeps(s.pay, w, i, rates, walletSet, answer, s.now);
      case _ => BoxKeeps(s.pay, Next(s, e).pay.box);
    }
    NoRefundKeeps(s, Next(s, e));
  }

  lemma OtherStepKeeps(s: Db, e: Step)
    requires Once(s)
    requires e.Tick? || e.CreateBounty? || e.Publish? || e.Pause? || e.Close? || e.TopUp? || e.Stripe?
             || e.ClaimJob? || e.ReleaseJob? || e.Reap? || e.Submit? || e.VerifierClaim?
    ensures Once(Next(s, e)) && SettlesFor(s, Next(s, e))
  {
    PayOf(s);
    BoxKeeps(s.pay, s.pay.box);
    hide Once, SettlesFor, PayOnce, Settles;
    BooksNoRefund(s, e);
    hide Next, NoRefundBooked;
    NoRefundKeeps(s, Next(s, e));
  }

  lemma BooksNoRefund(s: Db, e: Step)
    requires e.Tick? || e.CreateBounty? || e.Publish? || e.Pause? || e.Close? || e.TopUp? || e.Stripe?
             || e.ClaimJob? || e.ReleaseJob? || e.Reap? || e.Submit? || e.VerifierClaim?
    ensures Next(s, e).pay == s.pay && NoRefundBooked(s.ledger, Next(s, e).ledger)
  {
    hide W.ClaimJob, W.ReleaseJob, W.Reap, W.Submit, W.VerifierClaim, DoPublish, DoClose;
    match e
    case Publish(b) => PublishNoRefund(s, b);
    case Close(b) => CloseNoRefund(s, b);
    case _ =>
  }

  lemma PublishNoRefund(s: Db, b: nat)
    ensures DoPublish(s, b).Ok? ==>
              DoPublish(s, b).value.pay == s.pay && NoRefundBooked(s.ledger, DoPublish(s, b).value.ledger)
  {
    hide OpenJobs, JobsOf, L.Exceeds, L.Spent;
  }

  lemma CloseNoRefund(s: Db, b: nat)
    ensures DoClose(s, b).pay == s.pay && NoRefundBooked(s.ledger, DoClose(s, b).ledger)
  {
    hide Committed;
  }

  lemma StepKeepsOnce(s: Db, e: Step)
    requires Once(s) && DisputeIsFirst(s, e)
    ensures Once(Next(s, e)) && SettlesFor(s, Next(s, e))
  {
    hide Once, SettlesFor, DoVerdict, DoOpenDispute, DoResolve, DoHandleRefund;
    if e.CancelDispute? || e.ClaimEvents? || e.HandlePayout? || e.AckEvent? || e.Crash? {
      PayStepKeeps(s, e);
    } else if e.GiveVerdict? || e.OpenDispute? || e.ResolveDispute? || e.HandleRefund? {
      CrossStepKeeps(s, e);
    } else {
      OtherStepKeeps(s, e);
    }
  }

  lemma CrossStepKeeps(s: Db, e: Step)
    requires Once(s) && DisputeIsFirst(s, e)
             && (e.GiveVerdict? || e.OpenDispute? || e.ResolveDispute? || e.HandleRefund?)
    ensures Once(Next(s, e)) && SettlesFor(s, Next(s, e))
  {
    hide Once, SettlesFor, DoVerdict, DoOpenDispute, DoResolve, DoHandleRefund, DisputeIsFirst, NoRefundBooked;
    PayOf(s);
    BoxKeeps(s.pay, s.pay.box);
    Unchanged(s);
    match e
    case GiveVerdict(x, n, token, v, rates) => VerdictKeeps(s, x, n, token, v, rates);
    case OpenDispute(org, target) =>
      if DoOpenDispute(s, org, target).Ok? {
        OpenDisputeStep(s, org, target);
      }
    case ResolveDispute(d, r) =>
      if DoResolve(s, d, r).Ok? {
        ResolveKeeps(s, d, r);
      }
    case HandleRefund(w, d, dbOk) => HandleRefundKeeps(s, w, d, dbOk);
  }

  lemma Unchanged(s: Db)
    ensures SettlesFor(s, s)
  {
  }

  lemma {:induction false} RunKeepsOnce(s: Db, steps: seq<Step>)
    requires Once(s) && RunUnder(H2_ONLY, s, steps)
    ensures Once(Run(s, steps)) && SettlesFor(s, Run(s, steps))
    decreases |steps|
  {
    hide Once, SettlesFor, Next, DisputeIsFirst;
    if steps == [] {
      Unchanged(s);
    } else {
      StepKeepsOnce(s, steps[0]);
      RunKeepsOnce(Next(s, steps[0]), steps[1..]);
      SettlesForOn(s, Next(s, steps[0]), Run(s, steps));
    }
  }

  lemma ReachableIsOnce(s: Db, d: Deployment)
    requires Reachable(H2_ONLY, s, d)
    ensures Once(s)
  {
    var steps :| RunUnder(H2_ONLY, Start(d), steps) && Run(Start(d), steps) == s;
    RunKeepsOnce(Start(d), steps);
  }

  lemma SettledIsUndisputed(p: P.Tables, i: nat)
    requires PayOnce(p) && i < |p.payouts| && Settled(p.payouts[i])
    ensures !P.HasOpenDispute(p, i)
  {
    assert RowOk(p.payouts[i]);
  }

  lemma {:induction false} NoCreditNoSum(events: seq<L.BillingEvent>, i: nat)
    requires Credits(events, i) == 0
    ensures L.Sum(events, L.RefundsOf(i)) == 0
  {
    if events != [] {
      NoCreditNoSum(events[..|events| - 1], i);
    }
  }
}
