/**
 The outbox queue: rows of outbox_events keyed by (topic, idempotency key), and
 the worker processes that claim, handle and acknowledge them. Time is in
 milliseconds.
 */
module Outbox {
  import opened Common

  datatype Status = Pending | Processing | Sent | Dead

  datatype Lock = Lock(owner: nat, at: int)

  datatype Event = Event(
    topic: string,
    status: Status,
    attempts: nat,
    availableAt: int,
    createdAt: int,
    lock: Option<Lock>)

  type Rows<!K(==)> = map<K, Event>

  datatype Config = Config(
    maxAttemptsDefault: Option<int>,   // None: the variable is not a finite number
    maxAttemptsScan: Option<int>,
    lockTimeoutSec: int)

  const SCAN_TOPIC := "artifact.scan.requested"

  function MaxAttempts(cfg: Config, topic: string): (n: nat)
    ensures 1 <= n <= 1000
  {
    var def := if cfg.maxAttemptsDefault.Some? then cfg.maxAttemptsDefault.value else 10;
    var scan := if cfg.maxAttemptsScan.Some? then cfg.maxAttemptsScan.value else 100;
    if topic == SCAN_TOPIC then Max(10, Min(1000, scan)) else Max(1, Min(1000, def))
  }

  /** Artifact scans are tried 100 times and all else 10 times, unless the environment says otherwise in its bounds. */
  lemma AttemptLimits(cfg: Config, topic: string)
    ensures var n, scan := MaxAttempts(cfg, topic), topic == "artifact.scan.requested";
            var setting := if scan then cfg.maxAttemptsScan else cfg.maxAttemptsDefault;
            var least := if scan then 10 else 1;
            && (setting.None? ==> n == if scan then 100 else 10)
            && (setting.Some? && least <= setting.value <= 1000 ==> n == setting.value)
            && (setting.Some? && setting.value < least ==> n == least)
            && (setting.Some? && setting.value > 1000 ==> n == 1000)
  {
  }

  function Pow2(n: nat): nat {
    if n == 0 then 1 else 2 * Pow2(n - 1)
  }

  function BackoffSeconds(attemptNo: int): nat {
    Min(60, Pow2(Min(10, Max(0, attemptNo - 1))))
  }

  /** The delays after the first n failures, added up. */
  function TotalBackoff(n: nat): nat {
    if n == 0 then 0 else TotalBackoff(n - 1) + BackoffSeconds(n)
  }

  lemma Pow2AtLeast64(n: nat)
    requires n >= 6
    ensures Pow2(n) >= 64
  {
    if n == 6 {
      assert Pow2(3) == 8;
      assert Pow2(6) == 8 * Pow2(3);
    } else {
      Pow2AtLeast64(n - 1);
    }
  }

  lemma {:induction false} TotalBackoffClosedForm(n: nat)
    ensures TotalBackoff(n) == Pow2(Min(n, 6)) - 1 + 60 * Max(0, n - 6)
  {
    if n > 0 {
      TotalBackoffClosedForm(n - 1);
      assert Pow2(3) == 8 && Pow2(6) == 64;
      if n > 6 {
        Pow2AtLeast64(Min(10, n - 1));
      } else {
        assert Pow2(5) == 32;
        PowGrows(n - 1, 5);
      }
    }
  }

  lemma PowGrows(m: nat, n: nat)
    requires m <= n
    ensures Pow2(m) <= Pow2(n)
    decreases n - m
  {
    if m < n {
      PowGrows(m + 1, n);
    }
  }

  // ----- one statement on one row each -----

  function Fresh(topic: string, availableAt: int, now: int): Event {
    Event(topic, Pending, 0, availableAt, now, None)
  }

  /** Insert with an idempotency key: an existing row is left alone. */
  function Enqueue<K>(rows: Rows<K>, key: K, topic: string, availableAt: int, now: int): Rows<K> {
    if key in rows then rows else rows[key := Fresh(topic, availableAt, now)]
  }

  function MarkSent<K>(rows: Rows<K>, key: K): Rows<K> {
    if key in rows then rows[key := rows[key].(status := Sent, lock := None)] else rows
  }

  function Reschedule<K>(rows: Rows<K>, key: K, delaySec: int, now: int): Rows<K> {
    if key in rows
    then rows[key := rows[key].(status := Pending, availableAt := now + 1000 * delaySec, lock := None)]
    else rows
  }

  function MarkDead<K>(rows: Rows<K>, key: K): Rows<K> {
    if key in rows then rows[key := rows[key].(status := Dead, lock := None)] else rows
  }

  predicate Stale(e: Event, now: int, cfg: Config) {
    e.status == Processing && e.lock.Some? && e.lock.value.at < now - 1000 * cfg.lockTimeoutSec
  }

  function Released(e: Event, now: int, cfg: Config): Event {
    if Stale(e, now, cfg) then e.(status := Pending, lock := None) else e
  }

  function ReleaseStale<K>(rows: Rows<K>, now: int, cfg: Config): (r: Rows<K>)
    ensures r.Keys == rows.Keys
    ensures forall k :: k in rows ==> r[k] == Released(rows[k], now, cfg)
  {
    map k | k in rows :: Released(rows[k], now, cfg)
  }

  predicate Eligible(e: Event, topics: set<string>, now: int) {
    e.status == Pending && e.availableAt <= now && e.topic in topics
  }

  function Locked(e: Event, w: nat, now: int): Event {
    e.(status := Processing, lock := Some(Lock(w, now)), attempts := e.attempts + 1)
  }

  function LockAll<K>(rows: Rows<K>, batch: seq<K>, w: nat, now: int): (r: Rows<K>)
    requires forall k :: k in batch ==> k in rows
    ensures r.Keys == rows.Keys
    ensures forall k :: k in rows ==> r[k] == if k in batch then Locked(rows[k], w, now) else rows[k]
  {
    map k | k in rows :: if k in batch then Locked(rows[k], w, now) else rows[k]
  }

  /** What the claiming SELECT returns: the oldest eligible rows, oldest first, at most limit of them. */
  ghost predicate OldestFirst<K(!new)>(rows: Rows<K>, batch: seq<K>, topics: set<string>, limit: nat, now: int) {
    && |batch| <= limit
    && (forall k :: k in batch ==> k in rows && Eligible(rows[k], topics, now))
    && (forall i, j :: 0 <= i < j < |batch| ==> batch[i] != batch[j])
    && (forall i, j :: 0 <= i < j < |batch| ==> rows[batch[i]].createdAt <= rows[batch[j]].createdAt)
    && (forall k :: k in rows && k !in batch && Eligible(rows[k], topics, now) ==>
          |batch| == limit && forall c :: c in batch ==> rows[c].createdAt <= rows[k].createdAt)
  }

  method OldestOf<K(==, !new)>(rows: Rows<K>, keys: set<K>) returns (k: K)
    requires keys != {} && forall c :: c in keys ==> c in rows
    ensures k in keys && forall c :: c in keys ==> rows[k].createdAt <= rows[c].createdAt
  {
    k :| k in keys;
    var rest := keys - {k};
    while rest != {}
      invariant k in keys && rest <= keys
      invariant forall c :: c in keys && c !in rest ==> rows[k].createdAt <= rows[c].createdAt
      decreases rest
    {
      var c :| c in rest;
      if rows[c].createdAt < rows[k].createdAt {
        k := c;
      }
      rest := rest - {c};
    }
  }

  /** The claiming SELECT; among rows created together it may take any first. */
  method SelectOldest<K(==, !new)>(rows: Rows<K>, topics: set<string>, limit: nat, now: int) returns (batch: seq<K>)
    ensures OldestFirst(rows, batch, topics, limit, now)
  {
    batch := [];
    var rest := set k | k in rows && Eligible(rows[k], topics, now);
    while |batch| < limit && rest != {}
      invariant |batch| <= limit
      invariant forall k :: k in batch ==> k in rows && Eligible(rows[k], topics, now) && k !in rest
      invariant forall i, j :: 0 <= i < j < |batch| ==> batch[i] != batch[j]
      invariant forall i, j :: 0 <= i < j < |batch| ==> rows[batch[i]].createdAt <= rows[batch[j]].createdAt
      invariant forall k :: k in rest ==> k in rows
      invariant forall k :: k in rows && k !in batch && Eligible(rows[k], topics, now) ==> k in rest
      invariant forall c, k :: c in batch && k in rest ==> rows[c].createdAt <= rows[k].createdAt
      decreases rest
    {
      var k := OldestOf(rows, rest);
      batch, rest := batch + [k], rest - {k};
    }
  }

  /** With a limit that is large enough the batch takes every eligible row. */
  lemma SomeBatchTakesAll<K(!new)>(rows: Rows<K>, topics: set<string>, now: int) returns (batch: seq<K>)
    ensures OldestFirst(rows, batch, topics, |batch|, now)
    ensures forall k :: k in rows && Eligible(rows[k], topics, now) ==> k in batch
  {
    batch := Sorted(rows, set k | k in rows && Eligible(rows[k], topics, now));
  }

  lemma Sorted<K(!new)>(rows: Rows<K>, keys: set<K>) returns (batch: seq<K>)
    requires keys <= rows.Keys
    ensures forall k :: k in batch <==> k in keys
    ensures forall i, j :: 0 <= i < j < |batch| ==> batch[i] != batch[j]
    ensures forall i, j :: 0 <= i < j < |batch| ==> rows[batch[i]].createdAt <= rows[batch[j]].createdAt
    decreases keys
  {
    if keys == {} {
      batch := [];
    } else {
      var k := SomeKeyIsOldest(rows, keys);
      batch := Sorted(rows, keys - {k});
      batch := [k] + batch;
    }
  }

  lemma SomeKeyIsOldest<K(!new)>(rows: Rows<K>, keys: set<K>) returns (k: K)
    requires keys != {} && keys <= rows.Keys
    ensures k in keys && forall c :: c in keys ==> rows[k].createdAt <= rows[c].createdAt
  {
    k :| k in keys;
    var others := keys - {k};
    assert forall c :: c in keys ==> c == k || c in others;
    if others != {} {
      var c := SomeKeyIsOldest(rows, others);
      if rows[c].createdAt < rows[k].createdAt {
        k := c;
      }
    }
  }

  // ----- workers -----

  // what a worker knows about a claimed event: the handler has not finished, returned, or threw
  datatype Phase = Claimed | Returned | Threw

  datatype Item = Item(attempt: nat, claimedAt: int, phase: Phase)

  /** The table, and for each (worker, event) of an unfinished batch how far that worker got. */
  datatype Box<!K(==)> = Box(rows: Rows<K>, held: map<(nat, K), Item>)

  predicate Idle<K(!new)>(box: Box<K>, w: nat) {
    forall x :: x in box.held ==> x.0 != w
  }

  /** What the worker remembers of the batch it claimed. */
  function NewItems<K(!new)>(rows: Rows<K>, batch: seq<K>, w: nat, now: int): map<(nat, K), Item>
    requires forall k :: k in batch ==> k in rows
  {
    map k | k in batch :: (w, k) := Item(rows[k].attempts + 1, now, Claimed)
  }

  /** claimOutboxBatch, for a batch the SELECT may return. */
  function Claim<K(!new)>(box: Box<K>, w: nat, batch: seq<K>, now: int, cfg: Config): (r: Box<K>)
    requires forall k :: k in batch ==> k in box.rows
  {
    var rows := ReleaseStale(box.rows, now, cfg);
    Box(LockAll(rows, batch, w, now),
        box.held + NewItems(rows, batch, w, now))
  }

  function Finish<K>(box: Box<K>, w: nat, key: K, phase: Phase): Box<K> {
    if (w, key) in box.held
    then box.(held := box.held[(w, key) := box.held[(w, key)].(phase := phase)])
    else box
  }

  /** What runOutboxLoop does once the handler returned or threw. */
  function Ack<K>(box: Box<K>, w: nat, key: K, now: int, cfg: Config): Box<K> {
    if (w, key) !in box.held || box.held[(w, key)].phase == Claimed || key !in box.rows then box
    else
      var item := box.held[(w, key)];
      var rows :=
        if item.phase == Returned then MarkSent(box.rows, key)
        else if item.attempt >= MaxAttempts(cfg, box.rows[key].topic) then MarkDead(box.rows, key)
        else Reschedule(box.rows, key, BackoffSeconds(item.attempt), now);
      Box(rows, box.held - {(w, key)})
  }

  /** The process dies: its rows stay locked until the lock times out. */
  function Crash<K(!new)>(box: Box<K>, w: nat): Box<K> {
    box.(held := map x | x in box.held && x.0 != w :: box.held[x])
  }
}
