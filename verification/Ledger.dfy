/**
 Billing accounts, the billing events behind them, and the budget reservations
 of bounties. An org has one account, so the org's id stands for both. Time is
 in milliseconds.
 */
module Ledger {
  import opened Common
  import opened Calendar

  datatype Org = Org(dailyLimit: Option<nat>, monthlyLimit: Option<nat>, maxOpenJobs: Option<nat>)

  datatype BountyStatus = Draft | Published | Paused | Closed

  datatype Bounty = Bounty(org: nat, payoutCents: nat, classes: nat, windowSec: nat, status: BountyStatus)

  datatype Reservation = Reservation(org: nat, amount: nat, released: bool)

  datatype Cause =
    | BudgetReserve(bounty: nat)
    | BudgetRelease(bounty: nat)
    | DisputeRefund(bounty: nat, payout: nat)
    | StripeTopup(stripeId: string)
    | AdminTopup
  {
    predicate IsBudget() {
      BudgetReserve? || BudgetRelease? || DisputeRefund?
    }
  }

  datatype BillingEvent = BillingEvent(org: nat, cause: Cause, amount: int, at: nat)

  datatype WebhookStatus = Ignored | Processed | Failed

  datatype Tables = Tables(
    orgs: map<nat, Org>,
    accounts: map<nat, int>,
    events: seq<BillingEvent>,
    bounties: seq<Bounty>,
    reservations: map<nat, Reservation>,
    webhooks: map<string, WebhookStatus>)

  datatype LedgerError =
    | BountyNotFound | DailyLimitExceeded | MonthlyLimitExceeded | InsufficientFunds | OpenJobsExceeded
    | InvalidAmount | OrgNotFound

  // ----- sums over billing events -----

  /** Which events a sum takes in. */
  datatype Scope =
    | OfAccount(org: nat)
    | TopUps(org: nat)
    | BudgetOfOrg(org: nat)
    | BudgetOf(bounty: nat)
    | SpentSince(org: nat, start: nat)
    | SpentInDay(org: nat, day: nat)
    | SpentInMonth(org: nat, month: nat)
    | RefundsOf(payout: nat)
    | StripeCredits(stripeId: string)

  predicate Within(scope: Scope, e: BillingEvent) {
    match scope
    case OfAccount(org) => e.org == org
    case TopUps(org) => e.org == org && !e.cause.IsBudget()
    case BudgetOfOrg(org) => e.org == org && e.cause.IsBudget()
    case BudgetOf(b) => e.cause.IsBudget() && e.cause.bounty == b
    case SpentSince(org, start) => e.org == org && e.cause.IsBudget() && e.at >= start
    case SpentInDay(org, day) => e.org == org && e.cause.IsBudget() && DayStart(e.at) == day
    case SpentInMonth(org, month) => e.org == org && e.cause.IsBudget() && MonthStart(e.at) == month
    case RefundsOf(p) => e.cause.DisputeRefund? && e.cause.payout == p
    case StripeCredits(id) => e.cause.StripeTopup? && e.cause.stripeId == id
  }

  function Sum(events: seq<BillingEvent>, scope: Scope): int {
    if events == [] then 0
    else Sum(events[..|events| - 1], scope) + Part(scope, events[|events| - 1])
  }

  function Part(scope: Scope, e: BillingEvent): int {
    if Within(scope, e) then e.amount else 0
  }

  lemma SumAppend(events: seq<BillingEvent>, e: BillingEvent, scope: Scope)
    ensures Sum(events + [e], scope) == Sum(events, scope) + Part(scope, e)
  {
    assert (events + [e])[..|events|] == events;
  }

  lemma {:induction false} SumsAgree(events: seq<BillingEvent>, a: Scope, b: Scope)
    requires forall e :: e in events ==> (Within(a, e) <==> Within(b, e))
    ensures Sum(events, a) == Sum(events, b)
  {
    if events != [] {
      var n := |events| - 1;
      assert events[n] in events;
      SumsAgree(events[..n], a, b);
    }
  }

  lemma {:induction false} AccountIsTopUpsAndBudget(events: seq<BillingEvent>, org: nat)
    ensures Sum(events, OfAccount(org)) == Sum(events, TopUps(org)) + Sum(events, BudgetOfOrg(org))
  {
    if events != [] {
      AccountIsTopUpsAndBudget(events[..|events| - 1], org);
    }
  }

  /** What a bounty still holds of the buyer's money: reserved, less released, less refunded. */
  function Held(events: seq<BillingEvent>, b: nat): int {
    -Sum(events, BudgetOf(b))
  }

  function HeldByOrg(events: seq<BillingEvent>, bounties: seq<Bounty>, org: nat): int {
    if bounties == [] then 0
    else
      var b := |bounties| - 1;
      HeldByOrg(events, bounties[..b], org) + if bounties[b].org == org then Held(events, b) else 0
  }

  // ----- transactions -----

  function NewLedger(orgs: map<nat, Org>, opening: map<nat, nat>): Tables {
    Tables(orgs, map org | org in opening :: opening[org], [], [], map[], map[])
  }

  function EnsureAccount(l: Tables, org: nat): (r: Tables)
    ensures org in r.accounts
  {
    if org in l.accounts then l else l.(accounts := l.accounts[org := 0])
  }

  /** Change a balance and record why. */
  function Post(l: Tables, org: nat, cause: Cause, amount: int, now: nat): Tables
    requires org in l.accounts
  {
    l.(accounts := l.accounts[org := l.accounts[org] + amount],
       events := l.events + [BillingEvent(org, cause, amount, now)])
  }

  function CreateBounty(l: Tables, b: Bounty): Tables {
    l.(bounties := l.bounties + [b.(status := Draft)])
  }

  function SetStatus(l: Tables, b: nat, s: BountyStatus): Tables
    requires b < |l.bounties|
  {
    l.(bounties := l.bounties[b := l.bounties[b].(status := s)])
  }

  function ReserveCents(b: Bounty): nat {
    b.payoutCents * if b.classes == 0 then 1 else b.classes
  }

  function Spent(l: Tables, org: nat, start: nat): nat {
    Max(0, -Sum(l.events, SpentSince(org, start)))
  }

  predicate Exceeds(spent: nat, amount: nat, limit: Option<nat>) {
    limit.Some? && spent + amount > limit.value
  }

  function LimitsOf(l: Tables, org: nat): Org {
    if org in l.orgs then l.orgs[org] else Org(None, None, None)
  }

  function Reserve(l: Tables, b: nat, now: nat): Result<Tables, LedgerError>
    requires b < |l.bounties| && l.bounties[b].org in l.accounts
  {
    var org := l.bounties[b].org;
    var amount := ReserveCents(l.bounties[b]);
    if b in l.reservations || amount == 0 then Ok(l)
    else if Exceeds(Spent(l, org, DayStart(now)), amount, LimitsOf(l, org).dailyLimit) then Err(DailyLimitExceeded)
    else if Exceeds(Spent(l, org, MonthStart(now)), amount, LimitsOf(l, org).monthlyLimit)
    then Err(MonthlyLimitExceeded)
    else if l.accounts[org] < amount then Err(InsufficientFunds)
    else Ok(Post(l, org, BudgetReserve(b), 0 - amount, now)
            .(reservations := l.reservations[b := Reservation(org, amount, false)]))
  }

  /** publishBounty; the second component is the number of jobs to generate. */
  function Publish(l: Tables, b: nat, openJobs: nat, hasJobs: bool, now: nat): Result<(Tables, nat), LedgerError> {
    if b >= |l.bounties| then Err(BountyNotFound)
    else
      var org := l.bounties[b].org;
      var l1 :- Reserve(EnsureAccount(l, org), b, now);
      var jobs := if hasJobs then 0 else l.bounties[b].classes;
      if jobs > 0 && Exceeds(openJobs, jobs, LimitsOf(l, org).maxOpenJobs) then Err(OpenJobsExceeded)
      else Ok((SetStatus(l1, b, Published), jobs))
  }

  /** Closing a bounty: what is not committed to payouts goes back to the buyer, once. */
  function Close(l: Tables, b: nat, committed: nat, now: nat): Tables
    requires b < |l.bounties|
  {
    var l1 := SetStatus(l, b, Closed);
    if b !in l.reservations || l.reservations[b].released then l1
    else
      var r := l.reservations[b];
      var remaining := Max(0, r.amount - committed);
      var l2 := if remaining > 0 && r.org in l1.accounts
                then Post(l1, r.org, BudgetRelease(b), remaining, now) else l1;
      l2.(reservations := l.reservations[b := r.(released := true)])
  }

  /** The credit of a refunded dispute. */
  function Credit(l: Tables, org: nat, bounty: nat, payout: nat, amount: nat, now: nat): Tables {
    var l1 := EnsureAccount(l, org);
    if amount > 0 then Post(l1, org, DisputeRefund(bounty, payout), amount, now) else l1
  }

  function TopUp(l: Tables, org: nat, amount: int, now: nat): Result<Tables, LedgerError> {
    if amount <= 0 then Err(InvalidAmount)
    else if org !in l.accounts && org !in l.orgs then Err(OrgNotFound)
    else Ok(Post(EnsureAccount(l, org), org, AdminTopup, amount, now))
  }

  datatype StripeEvent = StripeEvent(
    id: string, checkoutPaid: bool, complete: bool, account: nat, amount: int)

  predicate StripeBilled(l: Tables, id: string) {
    exists i :: 0 <= i < |l.events| && l.events[i].cause == StripeTopup(id)
  }

  /** The webhook: a known event id is answered without doing anything again. */
  function StripeWebhook(l: Tables, e: StripeEvent, now: nat): Tables {
    if e.id in l.webhooks then l
    else if !e.checkoutPaid then l.(webhooks := l.webhooks[e.id := Ignored])
    else if !e.complete || e.amount <= 0 then l.(webhooks := l.webhooks[e.id := Failed])
    else if StripeBilled(l, e.id) then l.(webhooks := l.webhooks[e.id := Processed])
    else if e.account !in l.accounts then l.(webhooks := l.webhooks[e.id := Failed])
    else Post(l, e.account, StripeTopup(e.id), e.amount, now).(webhooks := l.webhooks[e.id := Processed])
  }

  // ----- the invariant -----

  function Opening(opening: map<nat, nat>, org: nat): nat {
    if org in opening then opening[org] else 0
  }

  function Balance(accounts: map<nat, int>, org: nat): int {
    if org in accounts then accounts[org] else 0
  }

  ghost predicate EventsOk(l: Tables, now: nat) {
    forall e :: e in l.events ==>
      && e.at <= now
      && (e.cause.IsBudget() ==> e.cause.bounty < |l.bounties| && l.bounties[e.cause.bounty].org == e.org)
      && (e.cause.StripeTopup? ==> e.cause.stripeId in l.webhooks)
  }

  ghost predicate BalancesOk(l: Tables, opening: map<nat, nat>) {
    forall org: nat :: 0 <= Balance(l.accounts, org) == Opening(opening, org) + Sum(l.events, OfAccount(org))
  }

  ghost predicate ReservationsOk(l: Tables) {
    forall b :: b in l.reservations ==>
      && b < |l.bounties|
      && l.reservations[b].org == l.bounties[b].org
      && l.reservations[b].org in l.accounts
      && l.reservations[b].amount == ReserveCents(l.bounties[b])
  }

  /** No day and no month in which an org with a spend limit spent more than it. */
  ghost predicate LimitsOk(l: Tables) {
    && (forall org: nat, day: nat :: LimitsOf(l, org).dailyLimit.Some? ==>
          -Sum(l.events, SpentInDay(org, day)) <= LimitsOf(l, org).dailyLimit.value)
    && (forall org: nat, month: nat :: LimitsOf(l, org).monthlyLimit.Some? ==>
          -Sum(l.events, SpentInMonth(org, month)) <= LimitsOf(l, org).monthlyLimit.value)
  }

  ghost predicate Valid(l: Tables, opening: map<nat, nat>, now: nat) {
    EventsOk(l, now) && BalancesOk(l, opening) && ReservationsOk(l) && LimitsOk(l)
  }

  lemma NewLedgerIsValid(orgs: map<nat, Org>, opening: map<nat, nat>, now: nat)
    ensures Valid(NewLedger(orgs, opening), opening, now)
  {
  }

  lemma TickKeeps(l: Tables, opening: map<nat, nat>, now: nat, now1: nat)
    requires Valid(l, opening, now) && now <= now1
    ensures Valid(l, opening, now1)
  {
  }

  lemma EnsureAccountKeeps(l: Tables, org: nat, opening: map<nat, nat>, now: nat)
    requires Valid(l, opening, now)
    ensures Valid(EnsureAccount(l, org), opening, now)
  {
    var l1 := EnsureAccount(l, org);
    forall o: nat
      ensures 0 <= Balance(l1.accounts, o) == Opening(opening, o) + Sum(l1.events, OfAccount(o))
    {
      assert 0 <= Balance(l.accounts, o) == Opening(opening, o) + Sum(l.events, OfAccount(o));
    }
  }

  /** Spending amount more at now stays within the org's limits. */
  ghost predicate WithinLimits(l: Tables, org: nat, amount: nat, now: nat) {
    && !Exceeds(Spent(l, org, DayStart(now)), amount, LimitsOf(l, org).dailyLimit)
    && !Exceeds(Spent(l, org, MonthStart(now)), amount, LimitsOf(l, org).monthlyLimit)
  }

  /** The sum since the start of the day is the sum over that day; the same for the month. */
  lemma SpentIsDay(l: Tables, org: nat, now: nat)
    requires EventsOk(l, now)
    ensures Sum(l.events, SpentSince(org, DayStart(now))) == Sum(l.events, SpentInDay(org, DayStart(now)))
  {
    var day := DayStart(now);
    forall e | e in l.events
      ensures Within(SpentSince(org, day), e) <==> Within(SpentInDay(org, day), e)
    {
      SameDay(e.at, now);
    }
    SumsAgree(l.events, SpentSince(org, day), SpentInDay(org, day));
  }

  lemma SpentIsMonth(l: Tables, org: nat, now: nat)
    requires EventsOk(l, now)
    ensures Sum(l.events, SpentSince(org, MonthStart(now))) == Sum(l.events, SpentInMonth(org, MonthStart(now)))
  {
    var month := MonthStart(now);
    forall e | e in l.events
      ensures Within(SpentSince(org, month), e) <==> Within(SpentInMonth(org, month), e)
    {
      SameMonth(e.at, now);
    }
    SumsAgree(l.events, SpentSince(org, month), SpentInMonth(org, month));
  }

  lemma PostKeepsLimits(l: Tables, org: nat, cause: Cause, amount: int, now: nat)
    requires EventsOk(l, now) && LimitsOk(l) && org in l.accounts
    requires amount < 0 ==> WithinLimits(l, org, -amount, now)
    ensures LimitsOk(Post(l, org, cause, amount, now))
  {
    var e := BillingEvent(org, cause, amount, now);
    SpentIsDay(l, org, now);
    SpentIsMonth(l, org, now);
    forall o: nat, day: nat | LimitsOf(l, o).dailyLimit.Some?
      ensures -Sum(l.events + [e], SpentInDay(o, day)) <= LimitsOf(l, o).dailyLimit.value
    {
      SumAppend(l.events, e, SpentInDay(o, day));
    }
    forall o: nat, month: nat | LimitsOf(l, o).monthlyLimit.Some?
      ensures -Sum(l.events + [e], SpentInMonth(o, month)) <= LimitsOf(l, o).monthlyLimit.value
    {
      SumAppend(l.events, e, SpentInMonth(o, month));
    }
  }

  lemma PostKeeps(l: Tables, org: nat, cause: Cause, amount: int, opening: map<nat, nat>, now: nat)
    requires Valid(l, opening, now) && org in l.accounts
    requires amount >= 0 || l.accounts[org] + amount >= 0
    requires cause.IsBudget() ==> cause.bounty < |l.bounties| && l.bounties[cause.bounty].org == org
    requires cause.StripeTopup? ==> cause.stripeId in l.webhooks
    requires amount < 0 ==> WithinLimits(l, org, -amount, now)
    ensures Valid(Post(l, org, cause, amount, now), opening, now)
  {
    var l1 := Post(l, org, cause, amount, now);
    var e := BillingEvent(org, cause, amount, now);
    PostKeepsLimits(l, org, cause, amount, now);
    assert 0 <= Balance(l.accounts, org);
    forall o: nat
      ensures 0 <= Balance(l1.accounts, o) == Opening(opening, o) + Sum(l1.events, OfAccount(o))
    {
      SumAppend(l.events, e, OfAccount(o));
      assert 0 <= Balance(l.accounts, o) == Opening(opening, o) + Sum(l.events, OfAccount(o));
    }
  }

  lemma CreateBountyKeeps(l: Tables, b: Bounty, opening: map<nat, nat>, now: nat)
    requires Valid(l, opening, now)
    ensures Valid(CreateBounty(l, b), opening, now)
  {
  }

  lemma SetStatusKeeps(l: Tables, b: nat, s: BountyStatus, opening: map<nat, nat>, now: nat)
    requires Valid(l, opening, now) && b < |l.bounties|
    ensures Valid(SetStatus(l, b, s), opening, now)
  {
  }

  lemma ReserveKeeps(l: Tables, b: nat, opening: map<nat, nat>, now: nat)
    requires Valid(l, opening, now) && b < |l.bounties| && l.bounties[b].org in l.accounts
    requires Reserve(l, b, now).Ok?
    ensures Valid(Reserve(l, b, now).value, opening, now)
    ensures Reserve(l, b, now).value.bounties == l.bounties
  {
    var org := l.bounties[b].org;
    var amount: nat := ReserveCents(l.bounties[b]);
    if b !in l.reservations && amount > 0 {
      PostKeeps(l, org, BudgetReserve(b), 0 - amount, opening, now);
      var l1 := Post(l, org, BudgetReserve(b), 0 - amount, now);
      hide LimitsOk, BalancesOk, EventsOk, Post, ReserveCents, Exceeds, Spent;
      assert org in l1.accounts by {
        PostKeepsAccounts(l, org, BudgetReserve(b), 0 - amount, now);
      }
      ReservedKeeps(l1, b, Reservation(org, amount, false), opening, now);
    }
  }

  lemma PostKeepsAccounts(l: Tables, org: nat, cause: Cause, amount: int, now: nat)
    requires org in l.accounts
    ensures var l1 := Post(l, org, cause, amount, now);
            l1.accounts.Keys == l.accounts.Keys && l1.bounties == l.bounties && l1.reservations == l.reservations
  {
  }

  lemma ReservedKeeps(l: Tables, b: nat, r: Reservation, opening: map<nat, nat>, now: nat)
    requires Valid(l, opening, now) && b < |l.bounties|
    requires r.org == l.bounties[b].org && r.org in l.accounts && r.amount == ReserveCents(l.bounties[b])
    ensures Valid(l.(reservations := l.reservations[b := r]), opening, now)
  {
  }

  lemma PublishKeeps(l: Tables, b: nat, openJobs: nat, hasJobs: bool, opening: map<nat, nat>, now: nat)
    requires Valid(l, opening, now)
    ensures var r := Publish(l, b, openJobs, hasJobs, now); r.Ok? ==> Valid(r.value.0, opening, now)
  {
    if b < |l.bounties| {
      var org := l.bounties[b].org;
      var l0 := EnsureAccount(l, org);
      EnsureAccountKeeps(l, org, opening, now);
      hide Valid, Reserve;
      assert l0.bounties == l.bounties;
      var r := Reserve(l0, b, now);
      if r.Ok? {
        ReserveKeeps(l0, b, opening, now);
        hide SetStatus, EnsureAccount;
        SetStatusKeeps(r.value, b, Published, opening, now);
      }
    }
  }

  lemma CloseKeeps(l: Tables, b: nat, committed: nat, opening: map<nat, nat>, now: nat)
    requires Valid(l, opening, now) && b < |l.bounties|
    ensures Valid(Close(l, b, committed, now), opening, now)
  {
    hide Valid, Post, ReserveCents;
    var l1 := SetStatus(l, b, Closed);
    SetStatusKeeps(l, b, Closed, opening, now);
    if b in l.reservations && !l.reservations[b].released {
      var r := l.reservations[b];
      var remaining: nat := Max(0, r.amount - committed);
      ReservationIs(l1, b, opening, now);
      if remaining > 0 {
        PostKeeps(l1, r.org, BudgetRelease(b), remaining, opening, now);
        PostKeepsAccounts(l1, r.org, BudgetRelease(b), remaining, now);
        ReservedKeeps(Post(l1, r.org, BudgetRelease(b), remaining, now), b, r.(released := true), opening, now);
      } else {
        ReservedKeeps(l1, b, r.(released := true), opening, now);
      }
    }
  }

  lemma ReservationIs(l: Tables, b: nat, opening: map<nat, nat>, now: nat)
    requires Valid(l, opening, now) && b in l.reservations
    ensures b < |l.bounties|
    ensures var r := l.reservations[b];
            r.org == l.bounties[b].org && r.org in l.accounts && r.amount == ReserveCents(l.bounties[b])
  {
  }

  lemma CreditKeeps(l: Tables, org: nat, bounty: nat, payout: nat, amount: nat, opening: map<nat, nat>, now: nat)
    requires Valid(l, opening, now) && bounty < |l.bounties| && l.bounties[bounty].org == org
    ensures Valid(Credit(l, org, bounty, payout, amount, now), opening, now)
  {
    EnsureAccountKeeps(l, org, opening, now);
    if amount > 0 {
      PostKeeps(EnsureAccount(l, org), org, DisputeRefund(bounty, payout), amount, opening, now);
    }
  }

  lemma TopUpKeeps(l: Tables, org: nat, amount: int, opening: map<nat, nat>, now: nat)
    requires Valid(l, opening, now)
    ensures TopUp(l, org, amount, now).Ok? ==> Valid(TopUp(l, org, amount, now).value, opening, now)
  {
    EnsureAccountKeeps(l, org, opening, now);
    if TopUp(l, org, amount, now).Ok? {
      PostKeeps(EnsureAccount(l, org), org, AdminTopup, amount, opening, now);
    }
  }

  lemma StripeWebhookKeeps(l: Tables, e: StripeEvent, opening: map<nat, nat>, now: nat)
    requires Valid(l, opening, now)
    ensures Valid(StripeWebhook(l, e, now), opening, now)
  {
    var l1 := StripeWebhook(l, e, now);
    if l1.events != l.events {
      var l0 := l.(webhooks := l.webhooks[e.id := Processed]);
      PostKeeps(l0, e.account, StripeTopup(e.id), e.amount, opening, now);
    }
  }

  /**
   The first delivery of an event credits its amount if it is a paid and complete checkout
   for an account that exists, and nothing otherwise; every later delivery credits nothing.
   */
  lemma StripeCreditsOnce(l: Tables, e: StripeEvent, opening: map<nat, nat>, now: nat)
    requires Valid(l, opening, now)
    ensures var l1 := StripeWebhook(l, e, now);
            && e.id in l1.webhooks
            && Sum(l1.events, StripeCredits(e.id))
               == if e.id in l.webhooks then Sum(l.events, StripeCredits(e.id))
                  else if e.checkoutPaid && e.complete && e.amount > 0 && e.account in l.accounts then e.amount
                  else 0
  {
    if e.id !in l.webhooks {
      NotBilledYet(l, e.id, opening, now);
      hide Valid;
      SumAppend(l.events, BillingEvent(e.account, StripeTopup(e.id), e.amount, now), StripeCredits(e.id));
    }
  }

  lemma NotBilledYet(l: Tables, id: string, opening: map<nat, nat>, now: nat)
    requires Valid(l, opening, now) && id !in l.webhooks
    ensures Sum(l.events, StripeCredits(id)) == 0 && !StripeBilled(l, id)
  {
    NoStripeCredit(l.events, id);
    forall i | 0 <= i < |l.events|
      ensures l.events[i].cause != StripeTopup(id)
    {
      assert l.events[i] in l.events;
    }
  }

  lemma {:induction false} NoStripeCredit(events: seq<BillingEvent>, id: string)
    requires forall e :: e in events && e.cause.StripeTopup? ==> e.cause.stripeId != id
    ensures Sum(events, StripeCredits(id)) == 0
  {
    if events != [] {
      var n := |events| - 1;
      assert events[n] in events;
      NoStripeCredit(events[..n], id);
    }
  }

  // ----- conservation -----

  lemma {:induction false} HeldAppend(events: seq<BillingEvent>, e: BillingEvent, bounties: seq<Bounty>, org: nat)
    ensures HeldByOrg(events + [e], bounties, org) == HeldByOrg(events, bounties, org) -
            if e.cause.IsBudget() && e.cause.bounty < |bounties| && bounties[e.cause.bounty].org == org
            then e.amount else 0
  {
    if bounties != [] {
      var b := |bounties| - 1;
      HeldAppend(events, e, bounties[..b], org);
      SumAppend(events, e, BudgetOf(b));
    }
  }

  lemma {:induction false} NothingHeld(bounties: seq<Bounty>, org: nat)
    ensures HeldByOrg([], bounties, org) == 0
  {
    if bounties != [] {
      NothingHeld(bounties[..|bounties| - 1], org);
    }
  }

  lemma {:induction false} HeldIsBudget(events: seq<BillingEvent>, bounties: seq<Bounty>, org: nat)
    requires forall e :: e in events && e.cause.IsBudget() ==>
               e.cause.bounty < |bounties| && bounties[e.cause.bounty].org == e.org
    ensures HeldByOrg(events, bounties, org) == -Sum(events, BudgetOfOrg(org))
  {
    if events == [] {
      NothingHeld(bounties, org);
    } else {
      var n := |events| - 1;
      assert events == events[..n] + [events[n]] && events[n] in events;
      HeldIsBudget(events[..n], bounties, org);
      HeldAppend(events[..n], events[n], bounties, org);
    }
  }

  /** An org's balance and what its bounties hold are together what it opened with and topped up. */
  lemma MoneyIsConserved(l: Tables, opening: map<nat, nat>, now: nat, org: nat)
    requires Valid(l, opening, now)
    ensures Balance(l.accounts, org) >= 0
    ensures Balance(l.accounts, org) + HeldByOrg(l.events, l.bounties, org)
            == Opening(opening, org) + Sum(l.events, TopUps(org))
  {
    AccountIsTopUpsAndBudget(l.events, org);
    HeldIsBudget(l.events, l.bounties, org);
    assert Balance(l.accounts, org) == Opening(opening, org) + Sum(l.events, OfAccount(org));
  }
}
