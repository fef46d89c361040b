/**
 What exactly every step books, to the cent: when a publish reserves, what a close gives
 back, what a refund, a top-up and a Stripe delivery credit, and that nothing else moves a
 balance.
 */
module RailBalances {
  import opened Common
  import opened Calendar
  import opened Rail
  import opened RailSteps
  import opened RailResults
  import opened RailPayouts
  import F = RailFunds
  import W = Work
  import P = Pay
  import L = Ledger

  // ----- when a bounty may be published -----

  /** What the jobs of a bounty may cost: one payout for each proof class, and one if it has none. */
  function Price(row: L.Bounty): nat {
    if row.classes <= 1 then row.payoutCents else row.payoutCents * row.classes
  }

  /** The org has a limit of this kind, and it is below n. */
  predicate Above(limit: Option<nat>, n: int) {
    limit.Some? && limit.value < n
  }

  /** With so much more to pay the org stays within what it may spend in the day and in the month that it is now. */
  predicate MaySpend(s: Db, org: nat, cents: nat) {
    org in s.ledger.orgs ==>
      && !Above(s.ledger.orgs[org].dailyLimit,
                Max(0, -L.Sum(s.ledger.events, L.SpentInDay(org, DayStart(s.now)))) + cents)
      && !Above(s.ledger.orgs[org].monthlyLimit,
                Max(0, -L.Sum(s.ledger.events, L.SpentInMonth(org, MonthStart(s.now)))) + cents)
  }

  /** The bounty has no reservation yet and needs one. */
  predicate NeedsReservation(s: Db, b: nat) {
    b < |s.ledger.bounties| && b !in s.ledger.reservations && Price(s.ledger.bounties[b]) > 0
  }

  /** The org may spend the price of the bounty, and has it. */
  predicate MayReserve(s: Db, b: nat)
    requires b < |s.ledger.bounties|
  {
    var row := s.ledger.bounties[b];
    MaySpend(s, row.org, Price(row)) && row.org in s.ledger.accounts && s.ledger.accounts[row.org] >= Price(row)
  }

  predicate MayPublish(s: Db, b: nat) {
    && b < |s.ledger.bounties|
    && var row := s.ledger.bounties[b];
       && (NeedsReservation(s, b) ==> MayReserve(s, b))
       && (JobsOf(s, b) == 0 && row.classes > 0 && row.org in s.ledger.orgs ==>
             !Above(s.ledger.orgs[row.org].maxOpenJobs, OpenJobs(s, row.org) + row.classes))
  }

  // ----- what a step books -----

  predicate IsCredited(s: Db, ev: L.StripeEvent) {
    && ev.id !in s.ledger.webhooks && ev.checkoutPaid && ev.complete && ev.amount > 0
    && ev.account in s.ledger.accounts
  }

  /** What closing a bounty gives back: what is reserved and not committed, the first time. */
  function LeftOver(s: Db, b: nat): int {
    if b < |s.ledger.bounties| && b in s.ledger.reservations && !s.ledger.reservations[b].released
    then Max(0, s.ledger.reservations[b].amount - Committed(s, b)) else 0
  }

  function Refunded(row: P.Payout): int {
    row.amount - row.split.proofworkFee
  }

  /** The event that reserves the price of a bounty. */
  function Reserving(s: Db, b: nat): L.BillingEvent
    requires b < |s.ledger.bounties|
  {
    L.BillingEvent(s.ledger.bounties[b].org, L.BudgetReserve(b), 0 - Price(s.ledger.bounties[b]), s.now)
  }

  /** The billing event the step books, unless it books none. */
  function Booking(s: Db, e: Step): Option<L.BillingEvent> {
    match e
    case Publish(b) =>
      if NeedsReservation(s, b) && MayPublish(s, b) then Some(Reserving(s, b)) else None
    case Close(b) =>
      if LeftOver(s, b) > 0 then
        Some(L.BillingEvent(s.ledger.bounties[b].org, L.BudgetRelease(b), LeftOver(s, b), s.now))
      else None
    case TopUp(org, cents) =>
      if cents > 0 && (org in s.ledger.accounts || org in s.ledger.orgs) then
        Some(L.BillingEvent(org, L.AdminTopup, cents, s.now))
      else None
    case Stripe(ev) =>
      if IsCredited(s, ev) then Some(L.BillingEvent(ev.account, L.StripeTopup(ev.id), ev.amount, s.now)) else None
    case ResolveDispute(dp, _) => Refunding(s, e, dp)
    case HandleRefund(_, dp, _) => Refunding(s, e, dp)
    case _ => None
  }

  function Refunding(s: Db, e: Step, dp: nat): Option<L.BillingEvent> {
    if dp < |s.pay.disputes| && RefundsIt(s, e, s.pay.disputes[dp].payout) then
      var dispute, i := s.pay.disputes[dp], s.pay.disputes[dp].payout;
      if Refunded(s.pay.payouts[i]) > 0 then
        Some(L.BillingEvent(dispute.org, L.DisputeRefund(dispute.bounty, i), Refunded(s.pay.payouts[i]), s.now))
      else None
    else None
  }

  ghost predicate Books(l: L.Tables, l1: L.Tables, booking: Option<L.BillingEvent>) {
    l1.events == if booking.Some? then l.events + [booking.value] else l.events
  }

  // ----- one operation each -----

  lemma SpendingIsSpent(s: Db, opening: map<nat, nat>, org: nat, cents: nat)
    requires L.Valid(s.ledger, opening, s.now)
    ensures var l := L.EnsureAccount(s.ledger, org);
            MaySpend(s, org, cents) <==>
              && !L.Exceeds(L.Spent(l, org, DayStart(s.now)), cents, L.LimitsOf(l, org).dailyLimit)
              && !L.Exceeds(L.Spent(l, org, MonthStart(s.now)), cents, L.LimitsOf(l, org).monthlyLimit)
  {
    assert L.EventsOk(s.ledger, s.now);
    hide L.Valid, L.EventsOk, L.Sum, DayStart, MonthStart;
    L.SpentIsDay(s.ledger, org, s.now);
    L.SpentIsMonth(s.ledger, org, s.now);
  }

  lemma ReserveOkIff(s: Db, opening: map<nat, nat>, b: nat)
    requires L.Valid(s.ledger, opening, s.now) && b < |s.ledger.bounties|
    ensures L.Reserve(L.EnsureAccount(s.ledger, s.ledger.bounties[b].org), b, s.now).Ok?
            <==> (NeedsReservation(s, b) ==> MayReserve(s, b))
  {
    var row := s.ledger.bounties[b];
    assert L.ReserveCents(row) == Price(row);
    SpendingIsSpent(s, opening, row.org, Price(row));
    hide L.Valid, L.Sum, Price, L.ReserveCents, L.Exceeds, L.Spent, L.LimitsOf, MaySpend, DayStart, MonthStart, L.Post;
  }

  lemma ReserveBooks(s: Db, b: nat)
    requires b < |s.ledger.bounties|
    ensures var r := L.Reserve(L.EnsureAccount(s.ledger, s.ledger.bounties[b].org), b, s.now);
            r.Ok? ==>
              && r.value.bounties == s.ledger.bounties && r.value.orgs == s.ledger.orgs
              && Books(s.ledger, r.value, if NeedsReservation(s, b) then Some(Reserving(s, b)) else None)
              && r.value.reservations
                 == if NeedsReservation(s, b)
                    then s.ledger.reservations[b := L.Reservation(s.ledger.bounties[b].org,
                                                                  Price(s.ledger.bounties[b]), false)]
                    else s.ledger.reservations
  {
    assert L.ReserveCents(s.ledger.bounties[b]) == Price(s.ledger.bounties[b]);
    hide Price, L.ReserveCents, L.Exceeds, L.Spent, L.LimitsOf, DayStart, MonthStart;
  }

  /**
   A bounty is published exactly when its price is within its org's limits and balance,
   unless that is put aside already, and its jobs, unless generated already, within the
   quota. Then its price is reserved and its jobs are generated, each once.
   */
  lemma PublishSucceedsIff(s: Db, d: Deployment, b: nat)
    requires Reachable(NO_HYPOTHESIS, s, d)
    ensures DoPublish(s, b).Ok? <==> MayPublish(s, b)
    ensures Next(s, Publish(b)) == if MayPublish(s, b) then Next(s, Publish(b)) else s
    ensures MayPublish(s, b) ==>
              var s1, row := Next(s, Publish(b)), s.ledger.bounties[b];
              && s1 == s.(ledger := s1.ledger, work := s.work.(jobs := s1.work.jobs))
              && s1.ledger.bounties == s.ledger.bounties[b := row.(status := L.Published)]
              && s1.ledger.reservations
                 == (if NeedsReservation(s, b)
                     then s.ledger.reservations[b := L.Reservation(row.org, Price(row), false)]
                     else s.ledger.reservations)
              && |s1.work.jobs| == |s.work.jobs| + (if JobsOf(s, b) == 0 then row.classes else 0)
              && s.work.jobs <= s1.work.jobs
              && forall j :: |s.work.jobs| <= j < |s1.work.jobs| ==>
                   s1.work.jobs[j] == W.Job(b, W.Open, None, None, None)
    ensures Books(s.ledger, Next(s, Publish(b)).ledger, Booking(s, Publish(b)))
  {
    F.ReachableHasFunds(NO_HYPOTHESIS, s, d);
    hide Reachable, L.Valid;
    PublishIs(s, b);
    hide Next;
    if b < |s.ledger.bounties| {
      ReserveOkIff(s, d.opening, b);
      ReserveBooks(s, b);
      hide L.Reserve, MayReserve, L.EnsureAccount, MaySpend, NeedsReservation, JobsOf, OpenJobs, Price;
    }
  }

  /** Closing a bounty releases its reservation, once, and gives back what no payout needs. */
  lemma CloseReleases(s: Db, d: Deployment, b: nat)
    requires Reachable(NO_HYPOTHESIS, s, d) && b < |s.ledger.bounties|
    ensures var l, s1 := s.ledger, Next(s, Close(b));
            && s1 == s.(ledger := s1.ledger)
            && s1.ledger.bounties == l.bounties[b := l.bounties[b].(status := L.Closed)]
            && s1.ledger.reservations
               == (if b in l.reservations then l.reservations[b := l.reservations[b].(released := true)]
                   else l.reservations)
            && Books(l, s1.ledger, Booking(s, Close(b)))
  {
    F.ReachableHasFunds(NO_HYPOTHESIS, s, d);
    assert L.ReservationsOk(s.ledger);
    hide Reachable, L.Valid, Committed;
    CloseIs(s, b);
    hide Next;
  }

  lemma TopUpBooks(s: Db, org: nat, cents: int)
    ensures Books(s.ledger, Next(s, TopUp(org, cents)).ledger, Booking(s, TopUp(org, cents)))
  {
  }

  /** A delivery is recorded once with what came of it, and credits exactly when it is recorded as processed. */
  lemma StripeRecords(s: Db, d: Deployment, ev: L.StripeEvent)
    requires Reachable(NO_HYPOTHESIS, s, d)
    ensures var l, s1 := s.ledger, Next(s, Stripe(ev));
            && s1 == s.(ledger := s1.ledger)
            && Books(l, s1.ledger, Booking(s, Stripe(ev)))
            && s1.ledger.webhooks
               == (if ev.id in l.webhooks then l.webhooks
                   else l.webhooks[ev.id := if !ev.checkoutPaid then L.Ignored
                                            else if IsCredited(s, ev) then L.Processed else L.Failed])
  {
    F.ReachableHasFunds(NO_HYPOTHESIS, s, d);
    if ev.id !in s.ledger.webhooks {
      L.NotBilledYet(s.ledger, ev.id, d.opening, s.now);
    }
    hide Reachable, L.Valid, L.StripeBilled;
  }

  lemma ResolveBooks(s: Db, dp: nat, r: P.Resolution)
    ensures var res := DoResolve(s, dp, r);
            Books(s.ledger, if res.Ok? then res.value.ledger else s.ledger, Booking(s, ResolveDispute(dp, r)))
  {
    hide P.Free;
  }

  // ----- every step -----

  lemma PayStepBooks(s: Db, e: Step)
    requires IsPayStep(e)
    ensures Books(s.ledger, Next(s, e).ledger, Booking(s, e))
  {
    hide DoResolve, MayClaim, ResolveTarget, Books, Booking;
    match e
    case GiveVerdict(_, _, _, _, _) =>
      OthersKeepLedger(s, e);
      hide Next;
      NoBooking(s, e);
    case OpenDispute(_, _) =>
      OthersKeepLedger(s, e);
      hide Next;
      NoBooking(s, e);
    case ResolveDispute(dp, r) => ResolveBooks(s, dp, r);
    case HandleRefund(w, dp, dbOk) => AutoRefundBooks(s, w, dp, dbOk);
    case _ => NoBooking(s, e);
  }

  lemma NoBooking(s: Db, e: Step)
    requires !e.Publish? && !e.Close? && !e.TopUp? && !e.Stripe? && !e.ResolveDispute? && !e.HandleRefund?
    requires Next(s, e).ledger.events == s.ledger.events
    ensures Books(s.ledger, Next(s, e).ledger, Booking(s, e))
  {
    hide Next;
  }

  lemma AutoRefundIsRefund(s: Db, e: Step)
    requires e.HandleRefund?
    ensures Booking(s, e) == if e.dbOk && P.MayHandle(s.pay, e.runner, P.AutoRefund(e.dispute))
                             then Booking(s, ResolveDispute(e.dispute, P.ToRefund)) else None
  {
  }

  lemma AutoRefundBooks(s: Db, w: nat, dp: nat, dbOk: bool)
    ensures var e := HandleRefund(w, dp, dbOk); Books(s.ledger, Next(s, e).ledger, Booking(s, e))
  {
    var e := HandleRefund(w, dp, dbOk);
    AutoRefundIsRefund(s, e);
    ResolveBooks(s, dp, P.ToRefund);
    hide DoResolve, Booking;
  }

  /** Every step books what Booking says, and nothing else. */
  lemma StepBooks(s: Db, d: Deployment, e: Step)
    requires Reachable(NO_HYPOTHESIS, s, d)
    ensures Books(s.ledger, Next(s, e).ledger, Booking(s, e))
  {
    hide Reachable, Booking;
    if IsPayStep(e) {
      hide Next;
      PayStepBooks(s, e);
    } else {
      match e
      case Publish(b) => PublishSucceedsIff(s, d, b);
      case Close(b) => CloseBooks(s, d, b);
      case TopUp(org, cents) => TopUpBooks(s, org, cents);
      case Stripe(ev) => StripeRecords(s, d, ev);
      case _ => OthersBookNone(s, e);
    }
  }

  lemma CloseBooks(s: Db, d: Deployment, b: nat)
    requires Reachable(NO_HYPOTHESIS, s, d)
    ensures Books(s.ledger, Next(s, Close(b)).ledger, Booking(s, Close(b)))
  {
    hide Reachable, Next;
    if b < |s.ledger.bounties| {
      CloseReleases(s, d, b);
    } else {
      CloseIs(s, b);
    }
  }

  lemma OthersBookNone(s: Db, e: Step)
    requires !IsPayStep(e) && !e.Publish? && !e.Close? && !e.TopUp? && !e.Stripe?
    ensures Books(s.ledger, Next(s, e).ledger, Booking(s, e))
  {
  }

  /** A balance moves exactly by what its org's step books. */
  lemma BalanceMovesByBooking(s: Db, d: Deployment, e: Step, org: nat)
    requires Reachable(NO_HYPOTHESIS, s, d)
    ensures L.Balance(Next(s, e).ledger.accounts, org) - L.Balance(s.ledger.accounts, org)
            == if Booking(s, e).Some? && Booking(s, e).value.org == org then Booking(s, e).value.amount else 0
  {
    StepBooks(s, d, e);
    ReachableStep(NO_HYPOTHESIS, s, d, e);
    FundsAreConserved(s, d, org);
    FundsAreConserved(Next(s, e), d, org);
    if Booking(s, e).Some? {
      L.SumAppend(s.ledger.events, Booking(s, e).value, L.OfAccount(org));
    }
    hide Next, Reachable, Booking, L.Sum;
  }

  /**
   The first delivery of a paid and complete checkout for an account that exists credits
   its amount to that account; every other delivery leaves all balances as they were.
   */
  lemma StripeCreditsExactly(s: Db, d: Deployment, ev: L.StripeEvent, org: nat)
    requires Reachable(NO_HYPOTHESIS, s, d)
    ensures var s1 := Next(s, Stripe(ev));
            var credits := ev.id !in s.ledger.webhooks && ev.checkoutPaid && ev.complete && ev.amount > 0
                           && ev.account in s.ledger.accounts;
            && L.Balance(s1.ledger.accounts, org)
               == L.Balance(s.ledger.accounts, org) + (if credits && org == ev.account then ev.amount else 0)
            && L.Sum(s1.ledger.events, L.StripeCredits(ev.id))
               == (if credits then ev.amount else L.Sum(s.ledger.events, L.StripeCredits(ev.id)))
  {
    BalanceMovesByBooking(s, d, Stripe(ev), org);
    StepBooks(s, d, Stripe(ev));
    if IsCredited(s, ev) {
      var e := L.BillingEvent(ev.account, L.StripeTopup(ev.id), ev.amount, s.now);
      L.SumAppend(s.ledger.events, e, L.StripeCredits(ev.id));
      F.ReachableHasFunds(NO_HYPOTHESIS, s, d);
      L.NotBilledYet(s.ledger, ev.id, d.opening, s.now);
    }
    hide Next, Reachable, L.Sum, L.Valid;
  }

  // ----- why a request is refused -----

  /** A publisher is told which limit, his balance or the quota stands in the way, in that order. */
  lemma PublishRefusals(s: Db, d: Deployment, b: nat)
    requires Reachable(NO_HYPOTHESIS, s, d)
    ensures var r := DoPublish(s, b);
            if b >= |s.ledger.bounties| then r == Err(L.BountyNotFound)
            else
              var org, price := s.ledger.bounties[b].org, Price(s.ledger.bounties[b]);
              var needs := NeedsReservation(s, b);
              && (r == Err(L.DailyLimitExceeded) <==> needs && !MaySpendToday(s, org, price))
              && (r == Err(L.MonthlyLimitExceeded) <==>
                    needs && MaySpendToday(s, org, price) && !MaySpend(s, org, price))
              && (r == Err(L.InsufficientFunds) <==> needs && MaySpend(s, org, price) && !MayReserve(s, b))
              && (r == Err(L.OpenJobsExceeded) <==> (needs ==> MayReserve(s, b)) && !MayPublish(s, b))
  {
    F.ReachableHasFunds(NO_HYPOTHESIS, s, d);
    PublishSucceedsIff(s, d, b);
    if b < |s.ledger.bounties| {
      ReserveRefusals(s, d.opening, b);
      ReserveOkIff(s, d.opening, b);
      hide Reachable, L.Valid, L.Reserve, Price, MaySpend, MaySpendToday, Next, JobsOf, OpenJobs, MayPublish,
           MayReserve, NeedsReservation;
    }
  }

  lemma ReserveRefusals(s: Db, opening: map<nat, nat>, b: nat)
    requires L.Valid(s.ledger, opening, s.now) && b < |s.ledger.bounties|
    ensures var org, price := s.ledger.bounties[b].org, Price(s.ledger.bounties[b]);
            var r, needs := L.Reserve(L.EnsureAccount(s.ledger, org), b, s.now), NeedsReservation(s, b);
            && (r == Err(L.DailyLimitExceeded) <==> needs && !MaySpendToday(s, org, price))
            && (r == Err(L.MonthlyLimitExceeded) <==>
                  needs && MaySpendToday(s, org, price) && !MaySpend(s, org, price))
            && (r == Err(L.InsufficientFunds) <==> needs && MaySpend(s, org, price) && !MayReserve(s, b))
            && r != Err(L.OpenJobsExceeded)
  {
    var org, price := s.ledger.bounties[b].org, Price(s.ledger.bounties[b]);
    assert L.ReserveCents(s.ledger.bounties[b]) == price;
    SpendingIsSpent(s, opening, org, price);
    TodayIsSpent(s, opening, org, price);
    hide L.Valid, L.Sum, Price, L.ReserveCents, L.Exceeds, L.Spent, L.LimitsOf, MaySpend, MaySpendToday, DayStart,
         MonthStart, L.Post;
  }

  /** The daily limit alone. */
  predicate MaySpendToday(s: Db, org: nat, cents: nat) {
    org in s.ledger.orgs ==>
      !Above(s.ledger.orgs[org].dailyLimit,
             Max(0, -L.Sum(s.ledger.events, L.SpentInDay(org, DayStart(s.now)))) + cents)
  }

  lemma TodayIsSpent(s: Db, opening: map<nat, nat>, org: nat, cents: nat)
    requires L.Valid(s.ledger, opening, s.now)
    ensures var l := L.EnsureAccount(s.ledger, org);
            MaySpendToday(s, org, cents) <==>
            !L.Exceeds(L.Spent(l, org, DayStart(s.now)), cents, L.LimitsOf(l, org).dailyLimit)
  {
    assert L.EventsOk(s.ledger, s.now);
    hide L.Valid, L.EventsOk, L.Sum, DayStart;
    L.SpentIsDay(s.ledger, org, s.now);
  }

  lemma TopUpRefusals(s: Db, org: nat, cents: int)
    ensures var r := L.TopUp(s.ledger, org, cents, s.now);
            && (r == Err(L.InvalidAmount) <==> cents <= 0)
            && (r == Err(L.OrgNotFound) <==> cents > 0 && org !in s.ledger.accounts && org !in s.ledger.orgs)
            && (r.Ok? <==> cents > 0 && (org in s.ledger.accounts || org in s.ledger.orgs))
  {
  }

  // ----- the status of bounties -----

  function StatusOfBounty(s: Db, e: Step, b: nat): L.BountyStatus
    requires b < |s.ledger.bounties|
  {
    if e.Publish? && e.bounty == b && MayPublish(s, b) then L.Published
    else if e.Pause? && e.bounty == b then L.Paused
    else if e.Close? && e.bounty == b then L.Closed
    else s.ledger.bounties[b].status
  }

  /** Bounties are what they were but for the status StatusOfBounty gives, and a new one is a draft. */
  ghost predicate BountiesFollow(s: Db, e: Step, l1: L.Tables) {
    && |l1.bounties| == |s.ledger.bounties| + (if e.CreateBounty? then 1 else 0)
    && (e.CreateBounty? ==> l1.bounties[|s.ledger.bounties|] == e.row.(status := L.Draft))
    && (forall b :: 0 <= b < |s.ledger.bounties| ==>
          l1.bounties[b] == s.ledger.bounties[b].(status := StatusOfBounty(s, e, b)))
  }

  lemma CreditKeepsBounties(s: Db, dp: nat, r: P.Resolution)
    ensures DoResolve(s, dp, r).Ok? ==> DoResolve(s, dp, r).value.ledger.bounties == s.ledger.bounties
  {
    hide P.ResolveDispute;
  }

  lemma OthersKeepBounties(s: Db, e: Step)
    requires !e.Publish? && !e.Pause? && !e.Close? && !e.CreateBounty?
    ensures Next(s, e).ledger.bounties == s.ledger.bounties
  {
    if e.GiveVerdict? || e.OpenDispute? {
      OthersKeepLedger(s, e);
      hide Next;
    } else if e.ResolveDispute? {
      CreditKeepsBounties(s, e.dispute, e.resolution);
      hide DoResolve;
    } else if e.HandleRefund? {
      CreditKeepsBounties(s, e.dispute, P.ToRefund);
      hide DoResolve;
    } else {
      hide MayClaim;
    }
  }

  /** A bounty is created as a draft; it is published, paused and closed exactly by the step that does so. */
  lemma BountiesChangeIff(s: Db, d: Deployment, e: Step)
    requires Reachable(NO_HYPOTHESIS, s, d)
    ensures BountiesFollow(s, e, Next(s, e).ledger)
  {
    hide Reachable, MayPublish;
    if e.Publish? {
      hide Next;
      PublishSucceedsIff(s, d, e.bounty);
    } else if e.Close? {
      hide Next;
      if e.bounty < |s.ledger.bounties| {
        CloseReleases(s, d, e.bounty);
      } else {
        CloseIs(s, e.bounty);
      }
    } else if !e.Pause? && !e.CreateBounty? {
      hide Next;
      OthersKeepBounties(s, e);
    }
  }
}
