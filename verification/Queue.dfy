/**
 Several worker processes on one outbox table: who may handle an event at a time,
 how often it is tried, and what each claim takes. Rows are named by their ids.
 */
module Queue {
  import opened Common
  import opened Outbox

  datatype Sys = Sys(now: int, cfg: Config, box: Box<nat>)

  datatype Step =
    | Tick(ms: nat)
    | Add(id: nat, topic: string, availableAt: int)
    | ClaimBatch(w: nat, topics: set<string>, limit: nat, batch: seq<nat>)
    | Handle(w: nat, id: nat, ok: bool)
    | Settle(w: nat, id: nat)
    | Die(w: nat)

  /** A worker that has finished its batch may claim one the SELECT returns. */
  ghost predicate MayClaim(s: Sys, w: nat, topics: set<string>, limit: nat, batch: seq<nat>) {
    Idle(s.box, w) && OldestFirst(ReleaseStale(s.box.rows, s.now, s.cfg), batch, topics, limit, s.now)
  }

  ghost function Next(s: Sys, e: Step): Sys {
    match e
    case Tick(ms) => s.(now := s.now + ms)
    case Add(id, topic, at) => s.(box := s.box.(rows := Enqueue(s.box.rows, id, topic, at, s.now)))
    case ClaimBatch(w, topics, limit, batch) =>
      if MayClaim(s, w, topics, limit, batch) then s.(box := Claim(s.box, w, batch, s.now, s.cfg)) else s
    case Handle(w, id, ok) =>
      if (w, id) in s.box.held && s.box.held[(w, id)].phase == Claimed
      then s.(box := Finish(s.box, w, id, if ok then Returned else Threw)) else s
    case Settle(w, id) => s.(box := Ack(s.box, w, id, s.now, s.cfg))
    case Die(w) => s.(box := Crash(s.box, w))
  }

  ghost function Run(s: Sys, steps: seq<Step>): Sys
    decreases |steps|
  {
    if steps == [] then s else Run(Next(s, steps[0]), steps[1..])
  }

  function Start(now: int, cfg: Config): Sys {
    Sys(now, cfg, Box(map[], map[]))
  }

  /** Time does not pass the lock timeout of an event that is still being worked on. */
  ghost predicate Timely(s: Sys, e: Step) {
    e.Tick? ==> forall x :: x in s.box.held ==> s.now + e.ms <= s.box.held[x].claimedAt + 1000 * s.cfg.lockTimeoutSec
  }

  ghost predicate TimelyRun(s: Sys, steps: seq<Step>)
    decreases |steps|
  {
    steps == [] || (Timely(s, steps[0]) && TimelyRun(Next(s, steps[0]), steps[1..]))
  }

  /** No worker process dies. */
  predicate Uncrashed(steps: seq<Step>) {
    forall i :: 0 <= i < |steps| ==> !steps[i].Die?
  }

  // ----- exclusion -----

  /** A worker's record of an event agrees with the lock on its row. */
  ghost predicate Locks(s: Sys, x: (nat, nat))
    requires x in s.box.held
  {
    var item := s.box.held[x];
    && x.1 in s.box.rows
    && s.box.rows[x.1].status == Processing
    && s.box.rows[x.1].lock == Some(Lock(x.0, item.claimedAt))
    && s.box.rows[x.1].attempts == item.attempt
    && item.claimedAt <= s.now <= item.claimedAt + 1000 * s.cfg.lockTimeoutSec
  }

  ghost predicate Exclusive(s: Sys) {
    && 0 <= s.cfg.lockTimeoutSec
    && (forall x :: x in s.box.held ==> Locks(s, x))
    && (forall k :: k in s.box.rows ==> (s.box.rows[k].status == Processing <==> s.box.rows[k].lock.Some?))
  }

  lemma StepKeepsExclusive(s: Sys, e: Step)
    requires Exclusive(s) && Timely(s, e)
    ensures Exclusive(Next(s, e))
  {
    var s1 := Next(s, e);
    forall x | x in s1.box.held
      ensures Locks(s1, x)
    {
      if x in s.box.held {
        assert Locks(s, x);
        if e.Settle? && (e.w, e.id) in s.box.held {
          assert Locks(s, (e.w, e.id));
        }
      }
    }
  }

  lemma {:induction false} RunKeepsExclusive(s: Sys, steps: seq<Step>)
    requires Exclusive(s) && TimelyRun(s, steps)
    ensures Exclusive(Run(s, steps))
    decreases |steps|
  {
    hide Exclusive, Next, Timely;
    if steps != [] {
      StepKeepsExclusive(s, steps[0]);
      RunKeepsExclusive(Next(s, steps[0]), steps[1..]);
    }
  }

  /** Within the lock timeout, even when workers die, no two workers ever have the same event. */
  lemma NoTwoWorkersShare(now: int, cfg: Config, steps: seq<Step>, w: nat, v: nat, id: nat)
    requires cfg.lockTimeoutSec >= 0 && TimelyRun(Start(now, cfg), steps)
    ensures var box := Run(Start(now, cfg), steps).box;
            (w, id) in box.held && (v, id) in box.held ==> w == v
  {
    RunKeepsExclusive(Start(now, cfg), steps);
    var s := Run(Start(now, cfg), steps);
    if (w, id) in s.box.held && (v, id) in s.box.held {
      assert Locks(s, (w, id)) && Locks(s, (v, id));
    }
  }

  /** A claim takes an event out of another worker's hands exactly when that worker's lock has timed out. */
  lemma ClaimSharesIffStale(s: Sys, w: nat, topics: set<string>, limit: nat, batch: seq<nat>, x: (nat, nat))
    requires MayClaim(s, w, topics, limit, batch) && x in s.box.held && x.1 in s.box.rows
    requires s.box.rows[x.1].status == Processing
    ensures var box := Next(s, ClaimBatch(w, topics, limit, batch)).box;
            && x in box.held && x.0 != w
            && ((w, x.1) in box.held <==> x.1 in batch)
            && (x.1 in batch ==> Stale(s.box.rows[x.1], s.now, s.cfg))
  {
    assert x.1 in batch ==> Eligible(ReleaseStale(s.box.rows, s.now, s.cfg)[x.1], topics, s.now);
  }

  /** A delivered or dead-lettered event is never touched again. */
  lemma {:induction false} SettledIsFinal(s: Sys, steps: seq<Step>, id: nat)
    requires Exclusive(s) && TimelyRun(s, steps)
    requires id in s.box.rows && s.box.rows[id].status in {Sent, Dead}
    ensures id in Run(s, steps).box.rows && Run(s, steps).box.rows[id] == s.box.rows[id]
    decreases |steps|
  {
    if steps != [] {
      StepKeepsExclusive(s, steps[0]);
      SettledStays(s, steps[0], id);
      hide Exclusive, Next, Timely;
      SettledIsFinal(Next(s, steps[0]), steps[1..], id);
    }
  }

  lemma SettledStays(s: Sys, e: Step, id: nat)
    requires Exclusive(s) && id in s.box.rows && s.box.rows[id].status in {Sent, Dead}
    ensures id in Next(s, e).box.rows && Next(s, e).box.rows[id] == s.box.rows[id]
  {
    assert e.Settle? ==> (e.w, id) !in s.box.held || Locks(s, (e.w, id));
    assert e.ClaimBatch? && MayClaim(s, e.w, e.topics, e.limit, e.batch) && id in e.batch ==>
        Eligible(ReleaseStale(s.box.rows, s.now, s.cfg)[id], e.topics, s.now);
  }

  // ----- what a step does to an event -----

  /** The worker that locked the row has had it for longer than the timeout. */
  predicate TimedOut(s: Sys, id: nat)
    requires id in s.box.rows
  {
    var row := s.box.rows[id];
    row.status == Processing && row.lock.Some? && row.lock.value.at + 1000 * s.cfg.lockTimeoutSec < s.now
  }

  /** A worker with one of the topics may be given the event. */
  predicate IsFree(s: Sys, id: nat, topics: set<string>)
    requires id in s.box.rows
  {
    var row := s.box.rows[id];
    row.topic in topics && row.availableAt <= s.now && (row.status == Pending || TimedOut(s, id))
  }

  /** A worker that has the event reports how its handler ended. */
  predicate Reports(s: Sys, e: Step, id: nat, phase: Phase) {
    e.Settle? && e.id == id && (e.w, id) in s.box.held && s.box.held[(e.w, id)].phase == phase
  }

  ghost function StatusAfter(s: Sys, e: Step, id: nat): Status
    requires id in s.box.rows
  {
    var row := s.box.rows[id];
    if Reports(s, e, id, Returned) then Sent
    else if Reports(s, e, id, Threw) then
      if s.box.held[(e.w, id)].attempt < MaxAttempts(s.cfg, row.topic) then Pending else Dead
    else if e.ClaimBatch? && MayClaim(s, e.w, e.topics, e.limit, e.batch) then
      if id in e.batch then Processing else if TimedOut(s, id) then Pending else row.status
    else row.status
  }

  /**
   An event is delivered exactly when a worker reports that its handler returned, dead
   exactly when one reports the last failure, retried exactly at any earlier one, and in
   processing exactly when it is claimed; a claim also frees what timed out. A row is
   unlocked whenever it is not in processing.
   */
  lemma EventChangesIff(s: Sys, e: Step, id: nat)
    requires id in s.box.rows && (s.box.rows[id].status == Processing <==> s.box.rows[id].lock.Some?)
    ensures var rows1 := Next(s, e).box.rows;
            && id in rows1 && rows1[id].status == StatusAfter(s, e, id)
            && (rows1[id].status == Processing <==> rows1[id].lock.Some?)
            && rows1[id].topic == s.box.rows[id].topic && rows1[id].createdAt == s.box.rows[id].createdAt
  {
    hide MaxAttempts, BackoffSeconds, OldestFirst;
    if e.ClaimBatch? && MayClaim(s, e.w, e.topics, e.limit, e.batch) {
      InBatchIsFree(s, e.w, e.topics, e.limit, e.batch);
    }
  }

  /** An event is added once, pending and never tried; adding it again changes nothing. */
  lemma AddsOnce(s: Sys, id: nat, topic: string, availableAt: int, other: nat)
    ensures var rows1 := Next(s, Add(id, topic, availableAt)).box.rows;
            && rows1.Keys == s.box.rows.Keys + {id}
            && (id !in s.box.rows ==> rows1[id] == Event(topic, Pending, 0, availableAt, s.now, None))
            && (other in s.box.rows ==> rows1[other] == s.box.rows[other])
  {
  }

  /**
   A worker has an event in hand from the claim that gave it until it reports or dies, and
   knows in between whether its handler returned or threw.
   */
  lemma HandsChangeIff(s: Sys, e: Step, x: (nat, nat))
    ensures var held1 := Next(s, e).box.held;
            && (x in held1 <==>
                  || (x in s.box.held
                      && !(Reports(s, e, x.1, Returned) && e.w == x.0 && x.1 in s.box.rows)
                      && !(Reports(s, e, x.1, Threw) && e.w == x.0 && x.1 in s.box.rows)
                      && !(e.Die? && e.w == x.0))
                  || (e.ClaimBatch? && e.w == x.0 && MayClaim(s, e.w, e.topics, e.limit, e.batch) && x.1 in e.batch))
            && (x in held1 && x !in s.box.held ==> held1[x].phase == Claimed && held1[x].claimedAt == s.now)
            && (x in held1 && x in s.box.held ==>
                  held1[x].phase == if e.Handle? && x == (e.w, e.id) && s.box.held[x].phase == Claimed
                                    then (if e.ok then Returned else Threw) else s.box.held[x].phase)
  {
    if e.ClaimBatch? && MayClaim(s, e.w, e.topics, e.limit, e.batch) {
      InBatchIsFree(s, e.w, e.topics, e.limit, e.batch);
    }
    hide MaxAttempts, BackoffSeconds, OldestFirst;
  }

  lemma InBatchIsFree(s: Sys, w: nat, topics: set<string>, limit: nat, batch: seq<nat>)
    requires MayClaim(s, w, topics, limit, batch)
    ensures forall id :: id in batch ==> id in s.box.rows && IsFree(s, id, topics)
  {
  }

  /**
   A claim takes only events of its topics that are due and in nobody's hands, no more than
   its limit, and leaves one of those behind only if the limit is reached by older ones.
   */
  lemma ClaimTakesOldest(s: Sys, w: nat, topics: set<string>, limit: nat, batch: seq<nat>, id: nat)
    requires MayClaim(s, w, topics, limit, batch) && id in s.box.rows
    ensures |batch| <= limit && forall k :: k in batch ==> k in s.box.rows
    ensures id in batch ==> IsFree(s, id, topics)
    ensures id !in batch && IsFree(s, id, topics) ==>
              |batch| == limit && forall k :: k in batch ==> s.box.rows[k].createdAt <= s.box.rows[id].createdAt
  {
    InBatchIsFree(s, w, topics, limit, batch);
    assert IsFree(s, id, topics) ==> Eligible(ReleaseStale(s.box.rows, s.now, s.cfg)[id], topics, s.now);
  }

  // ----- retries -----

  /** Without crashes, what the status of a row says about the attempts it has used. */
  ghost predicate Counted(s: Sys, id: nat)
    requires id in s.box.rows
  {
    var row, most := s.box.rows[id], MaxAttempts(s.cfg, s.box.rows[id].topic);
    match row.status
    case Pending => row.attempts < most
    case Processing => 1 <= row.attempts <= most && row.lock.Some? && (row.lock.value.owner, id) in s.box.held
    case Sent => 1 <= row.attempts <= most
    case Dead => row.attempts == most
  }

  ghost predicate Tidy(s: Sys) {
    Exclusive(s) && forall id :: id in s.box.rows ==> Counted(s, id)
  }

  lemma NothingIsStale(s: Sys)
    requires Tidy(s)
    ensures ReleaseStale(s.box.rows, s.now, s.cfg) == s.box.rows
  {
    forall id | id in s.box.rows
      ensures !Stale(s.box.rows[id], s.now, s.cfg)
    {
      assert Counted(s, id);
      if s.box.rows[id].status == Processing {
        assert Locks(s, (s.box.rows[id].lock.value.owner, id));
      }
    }
  }

  lemma StepKeepsTidy(s: Sys, e: Step)
    requires Tidy(s) && Timely(s, e) && !e.Die?
    ensures Tidy(Next(s, e))
  {
    StepKeepsExclusive(s, e);
    NothingIsStale(s);
    var s1 := Next(s, e);
    forall id | id in s1.box.rows
      ensures Counted(s1, id)
    {
      CountedAfter(s, e, id);
    }
  }

  lemma CountedAfter(s: Sys, e: Step, id: nat)
    requires Tidy(s) && !e.Die? && ReleaseStale(s.box.rows, s.now, s.cfg) == s.box.rows
    requires id in Next(s, e).box.rows
    ensures Counted(Next(s, e), id)
  {
    assert id in s.box.rows ==> Counted(s, id);
    if e.Settle? && (e.w, e.id) in s.box.held {
      assert Locks(s, (e.w, e.id));
    }
    if e.ClaimBatch? && MayClaim(s, e.w, e.topics, e.limit, e.batch) && id in e.batch {
      assert Eligible(s.box.rows[id], e.topics, s.now);
    }
  }

  ghost predicate Takes(s: Sys, e: Step, id: nat) {
    e.ClaimBatch? && MayClaim(s, e.w, e.topics, e.limit, e.batch) && id in e.batch
  }

  /** How often the event was claimed during a run. */
  ghost function ClaimsOf(s: Sys, steps: seq<Step>, id: nat): nat
    decreases |steps|
  {
    if steps == [] then 0
    else (if Takes(s, steps[0], id) then 1 else 0) + ClaimsOf(Next(s, steps[0]), steps[1..], id)
  }

  function AttemptsOf(s: Sys, id: nat): nat {
    if id in s.box.rows then s.box.rows[id].attempts else 0
  }

  lemma StepCounts(s: Sys, e: Step, id: nat)
    ensures AttemptsOf(Next(s, e), id) == AttemptsOf(s, id) + if Takes(s, e, id) then 1 else 0
  {
  }

  lemma {:induction false} AttemptsAreClaims(s: Sys, steps: seq<Step>, id: nat)
    ensures AttemptsOf(Run(s, steps), id) == AttemptsOf(s, id) + ClaimsOf(s, steps, id)
    decreases |steps|
  {
    hide Next, Takes, AttemptsOf;
    if steps != [] {
      StepCounts(s, steps[0], id);
      AttemptsAreClaims(Next(s, steps[0]), steps[1..], id);
    }
  }

  lemma {:induction false} RunKeepsTidy(s: Sys, steps: seq<Step>)
    requires Tidy(s) && TimelyRun(s, steps) && Uncrashed(steps)
    ensures Tidy(Run(s, steps))
    decreases |steps|
  {
    if steps != [] {
      StepKeepsTidy(s, steps[0]);
      hide Tidy, Next, Timely;
      RunKeepsTidy(Next(s, steps[0]), steps[1..]);
    }
  }

  lemma ConfigIsFixed(s: Sys, steps: seq<Step>)
    ensures Run(s, steps).cfg == s.cfg
    decreases |steps|
  {
    if steps != [] {
      ConfigIsFixed(Next(s, steps[0]), steps[1..]);
    }
  }

  /**
   Without crashes and lock timeouts an event is claimed at most as often as its topic
   allows. By then it is delivered, dead-lettered or in a worker's hands; it is
   dead-lettered only then, and in a worker's hands exactly while it is marked so.
   */
  lemma RetryTerminates(now: int, cfg: Config, steps: seq<Step>, id: nat)
    requires cfg.lockTimeoutSec >= 0 && TimelyRun(Start(now, cfg), steps) && Uncrashed(steps)
    ensures var s := Run(Start(now, cfg), steps);
            var claims := ClaimsOf(Start(now, cfg), steps, id);
            if id !in s.box.rows then claims == 0
            else
              var most := MaxAttempts(cfg, s.box.rows[id].topic);
              && claims <= most
              && (claims == most ==> s.box.rows[id].status != Pending)
              && (s.box.rows[id].status == Dead ==> claims == most)
              && (s.box.rows[id].status == Processing <==> exists w :: (w, id) in s.box.held)
  {
    var s0 := Start(now, cfg);
    var s := Run(s0, steps);
    RunKeepsTidy(s0, steps);
    AttemptsAreClaims(s0, steps, id);
    ConfigIsFixed(s0, steps);
    if id in s.box.rows {
      assert Counted(s, id);
      if w :| (w, id) in s.box.held {
        assert Locks(s, (w, id));
      }
    }
  }

  // ----- backoff -----

  ghost predicate Reschedules(s: Sys, e: Step, id: nat) {
    && e.Settle? && e.id == id && (e.w, id) in s.box.held && s.box.held[(e.w, id)].phase == Threw
    && id in s.box.rows && s.box.held[(e.w, id)].attempt < MaxAttempts(s.cfg, s.box.rows[id].topic)
  }

  /** The delays a run put before the event's next attempts, added up. */
  ghost function DelaysOf(s: Sys, steps: seq<Step>, id: nat): int
    decreases |steps|
  {
    if steps == [] then 0
    else
      var s1 := Next(s, steps[0]);
      (if Reschedules(s, steps[0], id) && id in s1.box.rows then s1.box.rows[id].availableAt - s.now else 0)
      + DelaysOf(s1, steps[1..], id)
  }

  /** How many of the attempts so far ended in a reschedule. */
  function FailuresOf(s: Sys, id: nat): nat {
    if id !in s.box.rows then 0
    else if s.box.rows[id].status == Pending || s.box.rows[id].attempts == 0 then s.box.rows[id].attempts
    else s.box.rows[id].attempts - 1
  }

  lemma StepDelays(s: Sys, e: Step, id: nat)
    requires Tidy(s) && !e.Die?
    ensures FailuresOf(Next(s, e), id) == FailuresOf(s, id) + if Reschedules(s, e, id) then 1 else 0
    ensures Reschedules(s, e, id) ==>
              && id in Next(s, e).box.rows
              && Next(s, e).box.rows[id].availableAt - s.now == 1000 * BackoffSeconds(FailuresOf(s, id) + 1)
  {
    NothingIsStale(s);
    assert id in s.box.rows ==> Counted(s, id);
    if e.Settle? && (e.w, id) in s.box.held {
      assert Locks(s, (e.w, id));
    }
    if e.ClaimBatch? && MayClaim(s, e.w, e.topics, e.limit, e.batch) && id in e.batch {
      assert Eligible(s.box.rows[id], e.topics, s.now);
    }
    hide BackoffSeconds;
  }

  lemma {:induction false} RunDelays(s: Sys, steps: seq<Step>, id: nat)
    requires Tidy(s) && TimelyRun(s, steps) && Uncrashed(steps)
    ensures DelaysOf(s, steps, id)
            == 1000 * (TotalBackoff(FailuresOf(Run(s, steps), id)) - TotalBackoff(FailuresOf(s, id)))
    decreases |steps|
  {
    if steps != [] {
      StepKeepsTidy(s, steps[0]);
      StepDelays(s, steps[0], id);
      hide Tidy, Next, Timely, FailuresOf, Reschedules, BackoffSeconds;
      RunDelays(Next(s, steps[0]), steps[1..], id);
    }
  }

  /** After n failures an event has waited 2^min(n,6) - 1 + 60 max(0, n-6) seconds in all. */
  lemma BackoffAddsUp(now: int, cfg: Config, steps: seq<Step>, id: nat)
    requires cfg.lockTimeoutSec >= 0 && TimelyRun(Start(now, cfg), steps) && Uncrashed(steps)
    ensures var n := FailuresOf(Run(Start(now, cfg), steps), id);
            DelaysOf(Start(now, cfg), steps, id) == 1000 * (Pow2(Min(n, 6)) - 1 + 60 * Max(0, n - 6))
  {
    RunDelays(Start(now, cfg), steps, id);
    hide Run, DelaysOf, Uncrashed, TimelyRun;
    TotalBackoffClosedForm(FailuresOf(Run(Start(now, cfg), steps), id));
  }

  // ----- the table -----

  class OutboxTable {
    var rows: Rows<nat>

    constructor ()
      ensures rows == map[]
    {
      rows := map[];
    }

    /** claimOutboxBatch: the oldest eligible rows, each with the number of the attempt that now begins. */
    method ClaimOutboxBatch(topics: set<string>, worker: nat, limit: nat, now: int, cfg: Config)
      returns (selected: seq<nat>, events: seq<(nat, nat)>)
      modifies this
      ensures OldestFirst(ReleaseStale(old(rows), now, cfg), selected, topics, limit, now)
      ensures rows == LockAll(ReleaseStale(old(rows), now, cfg), selected, worker, now)
      ensures |events| == |selected|
      ensures forall i :: 0 <= i < |events| ==>
                events[i] == (selected[i], rows[selected[i]].attempts)
                && events[i].1 == old(rows)[selected[i]].attempts + 1
    {
      rows := ReleaseStale(rows, now, cfg);
      var found := rows;
      selected := SelectOldest(found, topics, limit, now);
      events := seq(|selected|, i requires 0 <= i < |selected| => (selected[i], found[selected[i]].attempts + 1));
      if selected != [] {
        rows := LockAll(rows, selected, worker, now);
      }
    }

    /** One pass of runOutboxLoop over its batch: ok[i] says whether the handler of event i returns, at[i] when. */
    method RunBatch(batch: seq<(nat, nat)>, ok: seq<bool>, at: seq<int>, cfg: Config)
      requires |ok| == |at| == |batch|
      requires forall i :: 0 <= i < |batch| ==> batch[i].0 in rows
      requires forall i, j :: 0 <= i < j < |batch| ==> batch[i].0 != batch[j].0
      modifies this
      ensures rows.Keys == old(rows).Keys
      ensures forall k :: k in rows && (forall i :: 0 <= i < |batch| ==> batch[i].0 != k) ==> rows[k] == old(rows)[k]
      ensures forall i :: 0 <= i < |batch| ==>
                rows[batch[i].0] == Settled(old(rows)[batch[i].0], batch[i].1, ok[i], at[i], cfg)
    {
      for i := 0 to |batch|
        invariant rows.Keys == old(rows).Keys
        invariant forall k :: k in rows && (forall n :: 0 <= n < i ==> batch[n].0 != k) ==> rows[k] == old(rows)[k]
        invariant forall n :: 0 <= n < i ==>
                    rows[batch[n].0] == Settled(old(rows)[batch[n].0], batch[n].1, ok[n], at[n], cfg)
      {
        var (id, attemptNo) := batch[i];
        if ok[i] {
          rows := MarkSent(rows, id);
        } else if attemptNo >= MaxAttempts(cfg, rows[id].topic) {
          rows := MarkDead(rows, id);
        } else {
          rows := Reschedule(rows, id, BackoffSeconds(attemptNo), at[i]);
        }
      }
    }
  }

  /** The row of an event after its handler returned or threw on the given attempt. */
  function Settled(row: Event, attempt: nat, ok: bool, now: int, cfg: Config): Event {
    if ok then row.(status := Sent, lock := None)
    else if attempt >= MaxAttempts(cfg, row.topic) then row.(status := Dead, lock := None)
    else row.(status := Pending, availableAt := now + 1000 * BackoffSeconds(attempt), lock := None)
  }

  /** Settling an event in the table is what the state machine does for its worker. */
  lemma SettledIsAck(s: Sys, w: nat, id: nat)
    requires (w, id) in s.box.held && s.box.held[(w, id)].phase != Claimed && id in s.box.rows
    ensures Next(s, Settle(w, id)).box.rows ==
            s.box.rows[id := Settled(s.box.rows[id], s.box.held[(w, id)].attempt,
                                     s.box.held[(w, id)].phase == Returned, s.now, s.cfg)]
  {
  }
}
