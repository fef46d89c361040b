/**
 Payouts, disputes and the outbox events that drive them. The payout.requested
 event of payout i has the key PayoutRequested(i), which is what its idempotency
 key payout:<id> makes unique; likewise AutoRefund(d) for dispute d.
 */
module Pay {
  import opened Common
  import opened FeeSplit
  import opened Outbox

  datatype Key = PayoutRequested(payout: nat) | AutoRefund(dispute: nat)

  const PAYOUT_TOPIC := "payout.requested"
  const REFUND_TOPIC := "dispute.auto_refund.requested"

  datatype PayoutStatus = Due | Paid | Failed | Refunded

  datatype Block = Unblocked | ByDispute | ByRefund

  datatype Payout = Payout(
    submission: nat,
    bounty: nat,              // the join through submissions and jobs, none of which ever changes
    worker: nat,
    amount: nat,
    split: Split,
    status: PayoutStatus,
    holdUntil: Option<int>,
    blocked: Block)

  datatype DisputeStatus = Open | Resolved | Cancelled

  datatype Dispute = Dispute(org: nat, bounty: nat, payout: nat, status: DisputeStatus)

  datatype Tables = Tables(
    payouts: seq<Payout>,
    bySubmission: map<nat, nat>,     // unique index on submission_id
    disputes: seq<Dispute>,
    box: Box<Key>)

  datatype DisputeError =
    | TargetNotFound | Forbidden | PayoutAlreadyPaid | PayoutMissing
    | WindowDisabled | WindowExpired | AlreadyOpen | NotFound | NotOpen

  // ----- creating a payout -----

  function HoldUntil(windowSec: int, now: int): Option<int> {
    if windowSec > 0 then Some(now + 1000 * windowSec) else None
  }

  /** A second insert for the same submission rewrites the split and the hold, never the amount it first had. */
  function AddPayout(p: Tables, s: nat, bounty: nat, worker: nat, amount: nat, windowSec: int, rates: Rates, now: int)
    : Tables
    requires rates.Valid()
  {
    var hold := HoldUntil(windowSec, now);
    if s in p.bySubmission && p.bySubmission[s] < |p.payouts| then
      var i := p.bySubmission[s];
      p.(payouts := p.payouts[i := p.payouts[i].(split := SplitOf(amount, rates), holdUntil := hold)])
    else
      p.(payouts := p.payouts + [Payout(s, bounty, worker, amount, SplitOf(amount, rates), Due, hold, Unblocked)],
         bySubmission := p.bySubmission[s := |p.payouts|])
  }

  /** addPayout and then payout.requested, available once the hold window is over. */
  function RequestPayout(p: Tables, s: nat, bounty: nat, worker: nat, amount: nat, windowSec: int, rates: Rates,
                         now: int)
    : Tables
    requires rates.Valid()
  {
    var p1 := AddPayout(p, s, bounty, worker, amount, windowSec, rates, now);
    var availableAt := if windowSec > 0 then now + 1000 * windowSec else now;
    var key := PayoutRequested(p1.bySubmission[s]);
    p1.(box := p1.box.(rows := Enqueue(p1.box.rows, key, PAYOUT_TOPIC, availableAt, now)))
  }

  // ----- disputes -----

  predicate OpenOn(p: Tables, d: nat, i: nat) {
    d < |p.disputes| && p.disputes[d].status == Open && p.disputes[d].payout == i
  }

  predicate IsOpen(p: Tables, d: nat) {
    d < |p.disputes| && p.disputes[d].status == Open
  }

  predicate HasOpenDispute(p: Tables, i: nat) {
    exists d :: 0 <= d < |p.disputes| && OpenOn(p, d, i)
  }

  /** Why createDispute refuses a dispute on a payout of the right org, if it does. */
  function DisputeRefused(p: Tables, i: nat, now: int): Option<DisputeError>
    requires i < |p.payouts|
  {
    var row := p.payouts[i];
    if row.status == Paid then Some(PayoutAlreadyPaid)
    else if row.holdUntil.None? then Some(WindowDisabled)
    else if row.holdUntil.value <= now then Some(WindowExpired)
    else if HasOpenDispute(p, i) then Some(AlreadyOpen)
    else None
  }

  function SetBlock(p: Tables, i: nat, b: Block): Tables
    requires i < |p.payouts|
  {
    p.(payouts := p.payouts[i := p.payouts[i].(blocked := b)])
  }

  function SetDispute(p: Tables, d: nat, s: DisputeStatus): Tables
    requires d < |p.disputes|
  {
    p.(disputes := p.disputes[d := p.disputes[d].(status := s)])
  }

  function SetRows(p: Tables, rows: Rows<Key>): Tables {
    p.(box := p.box.(rows := rows))
  }

  function OpenDispute(p: Tables, org: nat, i: nat, now: int): Tables
    requires i < |p.payouts| && p.payouts[i].holdUntil.Some?
  {
    var d := |p.disputes|;
    var p1 := SetBlock(p, i, ByDispute).(disputes := p.disputes + [Dispute(org, p.payouts[i].bounty, i, Open)]);
    SetRows(p1, Enqueue(MarkSent(p.box.rows, PayoutRequested(i)),
                        AutoRefund(d), REFUND_TOPIC, p.payouts[i].holdUntil.value, now))
  }

  /** Put the payout event back, available at the later of now and the end of the hold. */
  function Requeue(rows: Rows<Key>, i: nat, hold: Option<int>, now: int): Rows<Key> {
    var at := if hold.Some? && hold.value > now then hold.value else now;
    var key := PayoutRequested(i);
    if key in rows
    then rows[key := rows[key].(status := Pending, availableAt := at, lock := None)]
    else rows[key := Fresh(PAYOUT_TOPIC, at, now)]
  }

  /** What cancelling and upholding have in common: the payout is freed and asked for again. */
  function Free(p: Tables, d: nat, s: DisputeStatus, now: int): Tables
    requires d < |p.disputes| && p.disputes[d].payout < |p.payouts|
  {
    var i := p.disputes[d].payout;
    SetRows(SetBlock(SetDispute(p, d, s), i, Unblocked), Requeue(p.box.rows, i, p.payouts[i].holdUntil, now))
  }

  function CancelDispute(p: Tables, org: nat, d: nat, now: int): Result<Tables, DisputeError> {
    if d >= |p.disputes| then Err(NotFound)
    else if p.disputes[d].org != org then Err(Forbidden)
    else if p.disputes[d].status != Open then Err(NotOpen)
    else if p.disputes[d].payout >= |p.payouts| then Err(NotFound)
    else Ok(Free(p, d, Cancelled, now))
  }

  function RefundCents(row: Payout): nat {
    if row.split.proofworkFee <= row.amount then row.amount - row.split.proofworkFee else 0
  }

  function Refund(p: Tables, d: nat): Tables
    requires d < |p.disputes| && p.disputes[d].payout < |p.payouts|
  {
    var i := p.disputes[d].payout;
    var p1 := p.(payouts := p.payouts[i := p.payouts[i].(status := Refunded, blocked := ByRefund)]);
    SetRows(SetDispute(p1, d, Resolved), MarkSent(p.box.rows, PayoutRequested(i)))
  }

  datatype Resolution = ToRefund | ToUphold

  /** resolveDisputeAdmin; the flag tells the caller to credit RefundCents to the org. */
  function ResolveDispute(p: Tables, d: nat, r: Resolution, now: int): Result<(Tables, bool), DisputeError> {
    if d >= |p.disputes| then Err(NotFound)
    else if p.disputes[d].status != Open then Err(NotOpen)
    else if p.disputes[d].payout >= |p.payouts| then Err(PayoutMissing)
    else
      var i := p.disputes[d].payout;
      if p.payouts[i].status == Paid then Err(PayoutAlreadyPaid)
      else if p.payouts[i].status == Refunded then Ok((p, false))
      else if r == ToRefund then Ok((Refund(p, d), true))
      else Ok((Free(p, d, Resolved, now), false))
  }

  // ----- executing a payout -----

  datatype Provider = SaysPaid | SaysFailed | Throws

  /** handlePayoutRequested on the off-chain path: the new row and how the handler ends. */
  function ExecutePayout(row: Payout, rates: Rates, walletSet: bool, answer: Provider, now: int): (Payout, Phase) {
    if row.status == Paid then (row, Returned)
    else if row.blocked != Unblocked then (row, Returned)
    else if row.holdUntil.Some? && row.holdUntil.value > now then (row, Returned)
    else if !rates.Valid() || (rates.platformBps > 0 && !walletSet) then (row, Threw)
    else
      var row1 := row.(split := SplitOf(row.amount, rates));
      match answer
      case SaysPaid => (row1.(status := Paid), Returned)
      case SaysFailed => (row1.(status := Failed), Returned)
      case Throws => (row1, Threw)
  }

  predicate MayHandle(p: Tables, w: nat, key: Key) {
    (w, key) in p.box.held && p.box.held[(w, key)].phase == Claimed
  }

  function HandlePayout(p: Tables, w: nat, i: nat, rates: Rates, walletSet: bool, answer: Provider, now: int): Tables {
    if !MayHandle(p, w, PayoutRequested(i)) then p
    else if i >= |p.payouts| then p.(box := Finish(p.box, w, PayoutRequested(i), Threw))
    else
      var (row, phase) := ExecutePayout(p.payouts[i], rates, walletSet, answer, now);
      p.(payouts := p.payouts[i := row], box := Finish(p.box, w, PayoutRequested(i), phase))
  }

  function ClaimEvents(p: Tables, w: nat, batch: seq<Key>, now: int, cfg: Config): Tables
    requires forall k :: k in batch ==> k in p.box.rows
  {
    p.(box := Claim(p.box, w, batch, now, cfg))
  }

  function AckEvent(p: Tables, w: nat, key: Key, now: int, cfg: Config): Tables {
    p.(box := Ack(p.box, w, key, now, cfg))
  }

  // ----- sums over payouts -----

  datatype Scope = NumberOf(bounty: nat) | GrossOf(bounty: nat) | RefundsOf(bounty: nat) | NeedOf(bounty: nat)

  function Part(scope: Scope, row: Payout): nat {
    if row.bounty != scope.bounty then 0
    else match scope
      case NumberOf(_) => 1
      case GrossOf(_) => row.amount
      case RefundsOf(_) => if row.status == Refunded then RefundCents(row) else 0
      case NeedOf(_) => if row.status == Refunded then row.split.proofworkFee else row.amount
  }

  function Sum(payouts: seq<Payout>, scope: Scope): nat {
    if payouts == [] then 0 else Sum(payouts[..|payouts| - 1], scope) + Part(scope, payouts[|payouts| - 1])
  }

  lemma SumAppend(payouts: seq<Payout>, row: Payout, scope: Scope)
    ensures Sum(payouts + [row], scope) == Sum(payouts, scope) + Part(scope, row)
  {
    assert (payouts + [row])[..|payouts|] == payouts;
  }

  lemma {:induction false} SumUpdate(payouts: seq<Payout>, i: nat, row: Payout, scope: Scope)
    requires i < |payouts|
    ensures Sum(payouts[i := row], scope) == Sum(payouts, scope) - Part(scope, payouts[i]) + Part(scope, row)
  {
    var n := |payouts| - 1;
    if i == n {
      assert payouts[i := row][..n] == payouts[..n];
    } else {
      SumUpdate(payouts[..n], i, row, scope);
      assert payouts[i := row][..n] == payouts[..n][i := row];
    }
  }

  lemma {:induction false} SumAgrees(a: seq<Payout>, b: seq<Payout>, scope: Scope)
    requires |a| == |b|
    requires forall i :: 0 <= i < |a| ==> Part(scope, a[i]) == Part(scope, b[i])
    ensures Sum(a, scope) == Sum(b, scope)
  {
    if a != [] {
      SumAgrees(a[..|a| - 1], b[..|a| - 1], scope);
    }
  }

  /** When every payout of a bounty has the same amount, its gross is that amount times their number. */
  lemma {:induction false} GrossIsNumberTimes(payouts: seq<Payout>, b: nat, amount: nat)
    requires forall i :: 0 <= i < |payouts| && payouts[i].bounty == b ==> payouts[i].amount == amount
    ensures Sum(payouts, GrossOf(b)) == amount * Sum(payouts, NumberOf(b))
  {
    if payouts != [] {
      GrossIsNumberTimes(payouts[..|payouts| - 1], b, amount);
    }
  }

  /** What a bounty's payouts still need is their gross less what was refunded. */
  lemma {:induction false} NeedIsGrossLessRefunds(payouts: seq<Payout>, b: nat)
    requires forall i :: 0 <= i < |payouts| ==> payouts[i].split.Total() == payouts[i].amount
    ensures Sum(payouts, NeedOf(b)) + Sum(payouts, RefundsOf(b)) == Sum(payouts, GrossOf(b))
  {
    if payouts != [] {
      NeedIsGrossLessRefunds(payouts[..|payouts| - 1], b);
    }
  }

  // ----- the invariant: it needs H6 -----

  predicate HoldOver(row: Payout, now: int) {
    row.holdUntil.Some? ==> row.holdUntil.value <= now
  }

  predicate Undelivered(s: Outbox.Status) {
    s != Sent
  }

  /** One payout row, its event and the clock agree. */
  ghost predicate PayoutOk(row: Payout, e: Event, now: int) {
    && row.split.Total() == row.amount
    && (row.blocked == ByRefund ==> row.status == Refunded)
    && (row.holdUntil.Some? ==> e.availableAt >= row.holdUntil.value)
    && (row.blocked == ByDispute ==> row.status in {Due, Refunded} && row.holdUntil.Some? && e.status == Sent)
    && (row.status == Due && row.blocked == Unblocked ==> Undelivered(e.status))
    && (row.status in {Paid, Failed} ==> HoldOver(row, now))
  }

  ghost predicate PayoutsOk(p: Tables, now: int) {
    forall i :: 0 <= i < |p.payouts| ==>
      && PayoutRequested(i) in p.box.rows
      && PayoutOk(p.payouts[i], p.box.rows[PayoutRequested(i)], now)
      && p.payouts[i].submission in p.bySubmission
      && p.bySubmission[p.payouts[i].submission] == i
  }

  ghost predicate IndexOk(p: Tables) {
    && (forall s :: s in p.bySubmission ==>
          p.bySubmission[s] < |p.payouts| && p.payouts[p.bySubmission[s]].submission == s)
    && (forall k :: k in p.box.rows ==>
          match k
          case PayoutRequested(i) => i < |p.payouts|
          case AutoRefund(d) => d < |p.disputes|)
  }

  /** An open dispute blocks its payout; its refund event waits for the hold, and is to come while the payout is due. */
  ghost predicate DisputeOk(p: Tables, d: nat)
    requires d < |p.disputes|
  {
    var row := p.disputes[d];
    && row.payout < |p.payouts|
    && row.bounty == p.payouts[row.payout].bounty
    && AutoRefund(d) in p.box.rows
    && (row.status == Open ==>
          && p.payouts[row.payout].blocked == ByDispute
          && p.payouts[row.payout].holdUntil.Some?
          && p.box.rows[AutoRefund(d)].availableAt >= p.payouts[row.payout].holdUntil.value
          && (p.payouts[row.payout].status == Due ==> Undelivered(p.box.rows[AutoRefund(d)].status)))
  }

  /** A payout has at most one open dispute, and one exactly when it is blocked by one. */
  ghost predicate DisputesOk(p: Tables) {
    && (forall d :: 0 <= d < |p.disputes| ==> DisputeOk(p, d))
    && (forall i, d, e :: OpenOn(p, d, i) && OpenOn(p, e, i) ==> d == e)
    && (forall i :: 0 <= i < |p.payouts| && p.payouts[i].blocked == ByDispute ==> HasOpenDispute(p, i))
  }

  /** The dispute is open on a payout that is due. */
  predicate OpenOnDue(p: Tables, d: nat) {
    && d < |p.disputes| && p.disputes[d].status == Open
    && p.disputes[d].payout < |p.payouts| && p.payouts[p.disputes[d].payout].status == Due
  }

  /** What is known about an event some worker still holds, however stale its claim may be. */
  ghost predicate HeldOk(p: Tables, key: Key, item: Item, now: int) {
    match key
    case PayoutRequested(i) =>
      && i < |p.payouts|
      && HoldOver(p.payouts[i], now)
      && p.payouts[i].blocked != ByDispute
      && (item.phase == Returned ==> p.payouts[i].status != Due)
    case AutoRefund(d) =>
      && d < |p.disputes|
      && (item.phase == Returned ==> !OpenOnDue(p, d))
      && (IsOpen(p, d) && p.disputes[d].payout < |p.payouts| ==> HoldOver(p.payouts[p.disputes[d].payout], now))
  }

  ghost predicate AllHeldOk(p: Tables, now: int) {
    forall x :: x in p.box.held ==> HeldOk(p, x.1, p.box.held[x], now)
  }

  ghost predicate Valid(p: Tables, now: int) {
    PayoutsOk(p, now) && IndexOk(p) && DisputesOk(p) && AllHeldOk(p, now)
  }

  // ----- frames: what a transaction that changes little keeps -----

  /** An open dispute stays while the dispute rows do. */
  lemma StillOpen(p: Tables, p1: Tables)
    requires p.disputes <= p1.disputes
    ensures forall k :: HasOpenDispute(p, k) ==> HasOpenDispute(p1, k)
  {
    forall k | HasOpenDispute(p, k)
      ensures HasOpenDispute(p1, k)
    {
      var d :| 0 <= d < |p.disputes| && OpenOn(p, d, k);
      assert OpenOn(p1, d, k);
    }
  }

  /** Only payout i, dispute d (perhaps a new one on i) and their two events change. */
  ghost predicate Touches(p: Tables, p1: Tables, i: nat, d: nat) {
    && i < |p.payouts| == |p1.payouts|
    && (forall k :: 0 <= k < |p.payouts| && k != i ==> p1.payouts[k] == p.payouts[k])
    && p1.payouts[i].submission == p.payouts[i].submission && p1.payouts[i].bounty == p.payouts[i].bounty
    && p1.bySubmission == p.bySubmission
    && d < |p1.disputes| && (|p1.disputes| == |p.disputes| || d == |p.disputes| == |p1.disputes| - 1)
    && (forall e :: 0 <= e < |p.disputes| && e != d ==> p1.disputes[e] == p.disputes[e])
    && p1.disputes[d].payout == i
    && p1.box.held == p.box.held
    && p1.box.rows.Keys == p.box.rows.Keys + {PayoutRequested(i), AutoRefund(d)}
    && (forall k :: k in p.box.rows && k != PayoutRequested(i) && k != AutoRefund(d) ==>
          p1.box.rows[k] == p.box.rows[k])
  }

  /** No worker holds the event of payout i. */
  ghost predicate NoneHolds(p: Tables, key: Key) {
    forall x :: x in p.box.held ==> x.1 != key
  }

  lemma TouchKeeps(p: Tables, p1: Tables, i: nat, d: nat, now: int)
    requires Valid(p, now) && Touches(p, p1, i, d)
    requires forall e :: e != d ==> !OpenOn(p, e, i)
    requires PayoutOk(p1.payouts[i], p1.box.rows[PayoutRequested(i)], now) && DisputeOk(p1, d)
    requires p1.payouts[i].blocked == ByDispute <==> p1.disputes[d].status == Open
    requires NoneHolds(p, PayoutRequested(i)) && (p1.disputes[d].status == Open ==> NoneHolds(p, AutoRefund(d)))
    requires d < |p.disputes| ==> p.disputes[d].payout == i
    ensures Valid(p1, now)
  {
    TouchKeepsPayouts(p, p1, i, d, now);
    TouchKeepsDisputes(p, p1, i, d, now);
    TouchKeepsHeld(p, p1, i, d, now);
  }

  lemma TouchKeepsPayouts(p: Tables, p1: Tables, i: nat, d: nat, now: int)
    requires PayoutsOk(p, now) && IndexOk(p) && Touches(p, p1, i, d)
    requires PayoutOk(p1.payouts[i], p1.box.rows[PayoutRequested(i)], now)
    ensures PayoutsOk(p1, now) && IndexOk(p1)
  {
  }

  lemma TouchKeepsDisputes(p: Tables, p1: Tables, i: nat, d: nat, now: int)
    requires DisputesOk(p) && Touches(p, p1, i, d) && DisputeOk(p1, d)
    requires forall e :: e != d ==> !OpenOn(p, e, i)
    requires p1.payouts[i].blocked == ByDispute <==> p1.disputes[d].status == Open
    requires d < |p.disputes| ==> p.disputes[d].payout == i
    ensures DisputesOk(p1)
  {
    forall e | 0 <= e < |p1.disputes|
      ensures DisputeOk(p1, e)
    {
      if e != d {
        assert DisputeOk(p, e) && !OpenOn(p, e, i);
      }
    }
    forall k, e | OpenOn(p1, e, k)
      ensures if k == i then e == d else OpenOn(p, e, k)
    {
      assert e != d ==> !OpenOn(p, e, i);
    }
    forall k | 0 <= k < |p1.payouts| && p1.payouts[k].blocked == ByDispute
      ensures HasOpenDispute(p1, k)
    {
      if k == i {
        assert OpenOn(p1, d, i);
      } else {
        var e :| 0 <= e < |p.disputes| && OpenOn(p, e, k);
        assert OpenOn(p1, e, k);
      }
    }
  }

  lemma TouchKeepsHeld(p: Tables, p1: Tables, i: nat, d: nat, now: int)
    requires AllHeldOk(p, now) && Touches(p, p1, i, d)
    requires forall e :: e != d ==> !OpenOn(p, e, i)
    requires NoneHolds(p, PayoutRequested(i)) && (p1.disputes[d].status == Open ==> NoneHolds(p, AutoRefund(d)))
    ensures AllHeldOk(p1, now)
  {
    forall x | x in p1.box.held
      ensures HeldOk(p1, x.1, p1.box.held[x], now)
    {
      assert HeldOk(p, x.1, p.box.held[x], now);
      assert x.1.AutoRefund? && x.1.dispute != d ==> !OpenOn(p, x.1.dispute, i);
    }
  }

  /** Rows may move about freely as long as none is delivered or brought back. */
  lemma RowChangeKeeps(p: Tables, p1: Tables, now: int)
    requires PayoutsOk(p, now) && IndexOk(p) && DisputesOk(p)
    requires p1 == p.(box := p1.box) && p1.box.rows.Keys == p.box.rows.Keys
    requires forall k :: k in p.box.rows ==>
               && p1.box.rows[k].availableAt == p.box.rows[k].availableAt
               && (Undelivered(p.box.rows[k].status) ==> Undelivered(p1.box.rows[k].status))
               && (p.box.rows[k].status == Sent ==> p1.box.rows[k].status == Sent)
    ensures PayoutsOk(p1, now) && IndexOk(p1) && DisputesOk(p1)
  {
    StillOpen(p, p1);
    StillOpen(p1, p);
    forall d | 0 <= d < |p1.disputes|
      ensures DisputeOk(p1, d)
    {
      assert DisputeOk(p, d);
    }
    SameOpen(p, p1);
  }

  lemma SameOpen(p: Tables, p1: Tables)
    requires p1.disputes == p.disputes
    ensures forall d, i :: OpenOn(p1, d, i) <==> OpenOn(p, d, i)
  {
  }

  /** A worker's record may change freely as long as what it then says is true. */
  lemma HeldChangeKeeps(p: Tables, p1: Tables, now: int)
    requires Valid(p, now) && p1 == p.(box := p1.box) && p1.box.rows == p.box.rows
    requires forall x :: x in p1.box.held ==> HeldOk(p, x.1, p1.box.held[x], now)
    ensures Valid(p1, now)
  {
    RowChangeKeeps(p, p1, now);
    forall x | x in p1.box.held
      ensures HeldOk(p1, x.1, p1.box.held[x], now)
    {
      assert HeldOk(p, x.1, p1.box.held[x], now);
    }
  }

  /** One row may change when no open dispute or due payout loses its event by it. */
  lemma OneRowKeeps(p: Tables, key: Key, e: Event, now: int)
    requires Valid(p, now) && key in p.box.rows
    requires match key
             case PayoutRequested(i) => i < |p.payouts| && PayoutOk(p.payouts[i], e, now)
             case AutoRefund(d) => d < |p.disputes| && DisputeOk(SetRows(p, p.box.rows[key := e]), d)
    ensures Valid(SetRows(p, p.box.rows[key := e]), now)
  {
    var p1 := SetRows(p, p.box.rows[key := e]);
    StillOpen(p, p1);
    SameOpen(p, p1);
    forall d | 0 <= d < |p1.disputes|
      ensures DisputeOk(p1, d)
    {
      assert DisputeOk(p, d);
    }
    forall x | x in p1.box.held
      ensures HeldOk(p1, x.1, p1.box.held[x], now)
    {
      assert HeldOk(p, x.1, p.box.held[x], now);
    }
  }

  /** One payout may move on, as long as it does not become due again or change its block or hold. */
  lemma OnePayoutKeeps(p: Tables, i: nat, row: Payout, now: int)
    requires Valid(p, now) && i < |p.payouts| && PayoutOk(row, p.box.rows[PayoutRequested(i)], now)
    requires var was := p.payouts[i];
             && row.submission == was.submission && row.bounty == was.bounty
             && row.blocked == was.blocked && row.holdUntil == was.holdUntil
             && (was.status != Due ==> row.status != Due)
    ensures Valid(p.(payouts := p.payouts[i := row]), now)
  {
    var p1 := p.(payouts := p.payouts[i := row]);
    StillOpen(p, p1);
    SameOpen(p, p1);
    forall d | 0 <= d < |p1.disputes|
      ensures DisputeOk(p1, d)
    {
      assert DisputeOk(p, d);
    }
    forall x | x in p1.box.held
      ensures HeldOk(p1, x.1, p1.box.held[x], now)
    {
      assert HeldOk(p, x.1, p.box.held[x], now);
    }
  }

  // ----- what every transaction keeps -----

  lemma TickKeeps(p: Tables, now: int, now1: int)
    requires Valid(p, now) && now <= now1
    ensures Valid(p, now1)
  {
    forall i | 0 <= i < |p.payouts|
      ensures PayoutOk(p.payouts[i], p.box.rows[PayoutRequested(i)], now1)
    {
      assert PayoutOk(p.payouts[i], p.box.rows[PayoutRequested(i)], now);
    }
    forall x | x in p.box.held
      ensures HeldOk(p, x.1, p.box.held[x], now1)
    {
      assert HeldOk(p, x.1, p.box.held[x], now);
    }
  }

  lemma RequestPayoutKeeps(
    p: Tables, s: nat, bounty: nat, worker: nat, amount: nat, windowSec: int, rates: Rates, now: int)
    requires Valid(p, now) && rates.Valid() && s !in p.bySubmission
    ensures Valid(RequestPayout(p, s, bounty, worker, amount, windowSec, rates, now), now)
  {
    var p1 := RequestPayout(p, s, bounty, worker, amount, windowSec, rates, now);
    var n := |p.payouts|;
    assert PayoutRequested(n) !in p.box.rows;
    assert p1.payouts == p.payouts + [p1.payouts[n]] && PayoutOk(p1.payouts[n], p1.box.rows[PayoutRequested(n)], now);
    assert p1.box.rows == p.box.rows[PayoutRequested(n) := p1.box.rows[PayoutRequested(n)]];
    hide RequestPayout;
    NewPayoutKeeps(p, p1, s, now);
  }

  lemma NewPayoutKeeps(p: Tables, p1: Tables, s: nat, now: int)
    requires Valid(p, now) && s !in p.bySubmission
    requires p1 == p.(payouts := p1.payouts, bySubmission := p.bySubmission[s := |p.payouts|], box := p1.box)
    requires |p1.payouts| == |p.payouts| + 1 && p1.payouts == p.payouts + [p1.payouts[|p.payouts|]]
    requires p1.payouts[|p.payouts|].submission == s && p1.payouts[|p.payouts|].blocked == Unblocked
    requires PayoutRequested(|p.payouts|) in p1.box.rows && p1.box.held == p.box.held
    requires p1.box.rows == p.box.rows[PayoutRequested(|p.payouts|) := p1.box.rows[PayoutRequested(|p.payouts|)]]
    requires PayoutOk(p1.payouts[|p.payouts|], p1.box.rows[PayoutRequested(|p.payouts|)], now)
    ensures Valid(p1, now)
  {
    StillOpen(p, p1);
    SameOpen(p, p1);
    hide HeldOk, PayoutOk;
    assert PayoutsOk(p1, now) && IndexOk(p1);
    NewPayoutKeepsRest(p, p1, now);
  }

  lemma NewPayoutKeepsRest(p: Tables, p1: Tables, now: int)
    requires DisputesOk(p) && AllHeldOk(p, now)
    requires p.payouts <= p1.payouts && p1.disputes == p.disputes && p1.box.held == p.box.held
    requires forall i :: |p.payouts| <= i < |p1.payouts| ==> p1.payouts[i].blocked == Unblocked
    requires forall k :: k in p.box.rows ==> k in p1.box.rows && p1.box.rows[k] == p.box.rows[k]
    ensures DisputesOk(p1) && AllHeldOk(p1, now)
  {
    StillOpen(p, p1);
    SameOpen(p, p1);
    forall d | 0 <= d < |p1.disputes|
      ensures DisputeOk(p1, d)
    {
      assert DisputeOk(p, d);
    }
    forall x | x in p1.box.held
      ensures HeldOk(p1, x.1, p1.box.held[x], now)
    {
      assert HeldOk(p, x.1, p.box.held[x], now);
      assert x.1.AutoRefund? ==> DisputeOk(p, x.1.dispute);
    }
  }

  lemma OpenDisputeKeeps(p: Tables, org: nat, i: nat, now: int)
    requires Valid(p, now) && i < |p.payouts| && DisputeRefused(p, i, now).None?
    ensures Valid(OpenDispute(p, org, i, now), now)
  {
    var p1, d := OpenDispute(p, org, i, now), |p.disputes|;
    assert AutoRefund(d) !in p.box.rows;
    forall x | x in p.box.held
      ensures x.1 != PayoutRequested(i) && x.1 != AutoRefund(d)
    {
      assert HeldOk(p, x.1, p.box.held[x], now);
    }
    assert PayoutOk(p.payouts[i], p.box.rows[PayoutRequested(i)], now);
    assert Touches(p, p1, i, d) && DisputeOk(p1, d);
    assert PayoutOk(p1.payouts[i], p1.box.rows[PayoutRequested(i)], now);
    assert p1.payouts[i].blocked == ByDispute && p1.disputes[d].status == Open;
    hide Touches, OpenDispute, DisputesOk, PayoutsOk;
    TouchKeeps(p, p1, i, d, now);
  }

  /** While a dispute is open no worker holds its payout's event, and no other dispute is open on it. */
  lemma OpenAlone(p: Tables, d: nat, now: int)
    requires Valid(p, now) && d < |p.disputes| && p.disputes[d].status == Open
    ensures DisputeOk(p, d)
    ensures NoneHolds(p, PayoutRequested(p.disputes[d].payout))
    ensures forall e :: e != d ==> !OpenOn(p, e, p.disputes[d].payout)
    ensures PayoutRequested(p.disputes[d].payout) in p.box.rows
    ensures PayoutOk(p.payouts[p.disputes[d].payout], p.box.rows[PayoutRequested(p.disputes[d].payout)], now)
  {
    assert DisputeOk(p, d) && OpenOn(p, d, p.disputes[d].payout);
    forall x | x in p.box.held
      ensures x.1 != PayoutRequested(p.disputes[d].payout)
    {
      assert HeldOk(p, x.1, p.box.held[x], now);
    }
  }

  lemma FreeKeeps(p: Tables, d: nat, s: DisputeStatus, now: int)
    requires Valid(p, now) && IsOpen(p, d) && p.disputes[d].payout < |p.payouts| && s != Open
    ensures Valid(Free(p, d, s, now), now)
  {
    OpenAlone(p, d, now);
    hide Valid;
    var p1, i := Free(p, d, s, now), p.disputes[d].payout;
    assert Touches(p, p1, i, d) && DisputeOk(p1, d);
    hide Touches, OpenOn;
    TouchKeeps(p, p1, i, d, now);
  }

  lemma RefundKeeps(p: Tables, d: nat, now: int)
    requires Valid(p, now) && IsOpen(p, d) && p.disputes[d].payout < |p.payouts|
    ensures Valid(Refund(p, d), now)
  {
    OpenAlone(p, d, now);
    hide Valid;
    var p1, i := Refund(p, d), p.disputes[d].payout;
    assert Touches(p, p1, i, d) && DisputeOk(p1, d);
    hide Touches, OpenOn;
    TouchKeeps(p, p1, i, d, now);
  }

  lemma ResolveDisputeKeeps(p: Tables, d: nat, r: Resolution, now: int)
    requires Valid(p, now)
    ensures var res := ResolveDispute(p, d, r, now);
            res.Ok? ==> Valid(res.value.0, now) && !OpenOnDue(res.value.0, d)
  {
    if IsOpen(p, d) {
      OpenAlone(p, d, now);
      hide Valid;
      if r == ToRefund {
        RefundKeeps(p, d, now);
      } else {
        FreeKeeps(p, d, Resolved, now);
      }
    }
  }

  lemma ClaimEventsKeeps(p: Tables, w: nat, batch: seq<Key>, topics: set<string>, now: int, cfg: Config)
    requires Valid(p, now)
    requires forall k :: k in batch ==> k in p.box.rows && Eligible(Released(p.box.rows[k], now, cfg), topics, now)
    ensures Valid(ClaimEvents(p, w, batch, now, cfg), now)
  {
    RowChangeKeeps(p, ClaimEvents(p, w, batch, now, cfg), now);
    ClaimedHeldOk(p, w, batch, topics, now, cfg);
  }

  /** An event is claimable only once its payout's hold is over, and a payout's event not while it is disputed. */
  lemma ClaimableHeldOk(p: Tables, key: Key, item: Item, topics: set<string>, now: int, cfg: Config)
    requires PayoutsOk(p, now) && IndexOk(p) && DisputesOk(p)
    requires key in p.box.rows && Eligible(Released(p.box.rows[key], now, cfg), topics, now) && item.phase == Claimed
    ensures HeldOk(p, key, item, now)
  {
    match key
    case PayoutRequested(i) => assert PayoutOk(p.payouts[i], p.box.rows[key], now);
    case AutoRefund(d) => assert DisputeOk(p, d);
  }

  lemma ClaimedHeldOk(p: Tables, w: nat, batch: seq<Key>, topics: set<string>, now: int, cfg: Config)
    requires PayoutsOk(p, now) && IndexOk(p) && DisputesOk(p) && AllHeldOk(p, now)
    requires forall k :: k in batch ==> k in p.box.rows && Eligible(Released(p.box.rows[k], now, cfg), topics, now)
    ensures AllHeldOk(ClaimEvents(p, w, batch, now, cfg), now)
  {
    var p1 := ClaimEvents(p, w, batch, now, cfg);
    hide PayoutsOk, IndexOk, DisputesOk, Eligible, Released;
    forall x | x in p1.box.held
      ensures HeldOk(p1, x.1, p1.box.held[x], now)
    {
      if x.0 == w && x.1 in batch {
        assert x.1 in p.box.rows;
        ClaimableHeldOk(p, x.1, p1.box.held[x], topics, now, cfg);
      } else {
        assert x in p.box.held;
        assert HeldOk(p, x.1, p.box.held[x], now);
      }
    }
  }

  lemma HandlePayoutKeeps(p: Tables, w: nat, i: nat, rates: Rates, walletSet: bool, answer: Provider, now: int)
    requires Valid(p, now)
    ensures Valid(HandlePayout(p, w, i, rates, walletSet, answer, now), now)
  {
    var key := PayoutRequested(i);
    if MayHandle(p, w, key) {
      assert HeldOk(p, (w, key).1, p.box.held[(w, key)], now);
      assert PayoutOk(p.payouts[i], p.box.rows[key], now);
      var (row, phase) := ExecutePayout(p.payouts[i], rates, walletSet, answer, now);
      var p2 := p.(payouts := p.payouts[i := row]);
      var p1 := p2.(box := Finish(p.box, w, key, phase));
      OnePayoutKeeps(p, i, row, now);
      assert phase == Returned ==> row.status != Due;
      forall x | x in p1.box.held
        ensures HeldOk(p2, x.1, p1.box.held[x], now)
      {
        assert HeldOk(p2, x.1, p2.box.held[x], now);
      }
      HeldChangeKeeps(p2, p1, now);
    }
  }

  lemma AckEventKeeps(p: Tables, w: nat, key: Key, now: int, cfg: Config)
    requires Valid(p, now)
    ensures Valid(AckEvent(p, w, key, now, cfg), now)
  {
    var p1 := AckEvent(p, w, key, now, cfg);
    if p1 != p {
      assert HeldOk(p, (w, key).1, p.box.held[(w, key)], now);
      AckRow(p, w, key, now, cfg);
      assert key.AutoRefund? ==> DisputeOk(p, key.dispute);
      OneRowKeeps(p, key, p1.box.rows[key], now);
      var p2 := SetRows(p, p1.box.rows);
      forall x | x in p1.box.held
        ensures HeldOk(p2, x.1, p1.box.held[x], now)
      {
        assert HeldOk(p, x.1, p.box.held[x], now);
      }
      HeldChangeKeeps(p2, p1, now);
    }
  }

  /** What an acknowledgement writes: sent after a return, and otherwise a later or dead event. */
  lemma AckRow(p: Tables, w: nat, key: Key, now: int, cfg: Config)
    requires AckEvent(p, w, key, now, cfg) != p
    ensures (w, key) in p.box.held && key in p.box.rows
    ensures var r := AckEvent(p, w, key, now, cfg).box.rows;
            && r == p.box.rows[key := r[key]]
            && (p.box.held[(w, key)].phase == Returned ==> r[key] == p.box.rows[key].(status := Sent, lock := None))
            && (p.box.held[(w, key)].phase != Returned ==>
                  && Undelivered(r[key].status)
                  && r[key].availableAt >= Min(now, p.box.rows[key].availableAt))
  {
  }

  lemma CrashKeeps(p: Tables, w: nat, now: int)
    requires Valid(p, now)
    ensures Valid(p.(box := Crash(p.box, w)), now)
  {
    forall x | x in Crash(p.box, w).held
      ensures HeldOk(p, x.1, Crash(p.box, w).held[x], now)
    {
      assert HeldOk(p, x.1, p.box.held[x], now);
    }
    HeldChangeKeeps(p, p.(box := Crash(p.box, w)), now);
  }
}
