/**
 The token bucket in front of every route. Tokens are counted in 60000ths, so
 that a rate per minute refills a whole number of them each millisecond. The
 clock is read before the row lock is taken, so a bucket's calls may carry
 timestamps that are out of order.
 */
module RateLimit {
  import opened Common

  const UNIT := 60_000

  datatype Bucket = Bucket(tokens: int, updatedAt: int)

  function Spend(tokens: int): int {
    if tokens < UNIT then tokens else tokens - UNIT
  }

  /** What flows into a bucket in ms milliseconds. */
  function Refill(rate: int, ms: int): int {
    ms * rate
  }

  lemma RefillAdds(rate: int, a: int, b: int, c: int)
    ensures Refill(rate, c - a) == Refill(rate, b - a) + Refill(rate, c - b)
    ensures Refill(rate, 0) == 0
  {
  }

  lemma RefillIs(rate: int, ms: int)
    ensures Refill(rate, ms) == rate * ms
  {
  }

  lemma RefillGrows(rate: int, a: int, b: int)
    requires rate >= 0 && a <= b
    ensures Refill(rate, a) <= Refill(rate, b)
  {
    assert (b - a) * rate >= 0;
  }

  /** The tokens a call at t finds in a bucket that has seen the calls in past, oldest first. */
  function Available(rate: int, past: seq<int>, t: int): int {
    if past == [] then UNIT * rate
    else
      var n := |past| - 1;
      Min(UNIT * rate, Spend(Available(rate, past[..n], past[n])) + Refill(rate, t - past[n]))
  }

  predicate Accepted(rate: int, past: seq<int>, t: int) {
    Available(rate, past, t) >= UNIT
  }

  /** How many of the calls from number i on were accepted. */
  function AcceptedSince(rate: int, past: seq<int>, i: nat): nat {
    if |past| <= i then 0
    else
      var n := |past| - 1;
      AcceptedSince(rate, past[..n], i) + if Accepted(rate, past[..n], past[n]) then 1 else 0
  }

  // ----- the declarative specification -----

  /** What the calls from number i on have left of a full bucket and its refill up to t. */
  function Allowance(rate: int, past: seq<int>, i: nat, t: int): int
    requires i < |past|
  {
    UNIT * rate + Refill(rate, t - past[i]) - UNIT * AcceptedSince(rate, past, i)
  }

  /** The bucket holds the least allowance, or is full. */
  lemma {:induction false} AvailableIsLeast(rate: int, past: seq<int>, t: int)
    ensures Available(rate, past, t) <= UNIT * rate
    ensures forall i :: 0 <= i < |past| ==> Available(rate, past, t) <= Allowance(rate, past, i, t)
    ensures Available(rate, past, t) == UNIT * rate
            || exists i :: 0 <= i < |past| && Available(rate, past, t) == Allowance(rate, past, i, t)
    decreases |past|
  {
    hide Refill;
    if past != [] {
      var n := |past| - 1;
      AvailableIsLeast(rate, past[..n], past[n]);
      var spent := if Accepted(rate, past[..n], past[n]) then UNIT else 0;
      forall i | 0 <= i <= n
        ensures Allowance(rate, past, i, t)
                == (if i < n then Allowance(rate, past[..n], i, past[n]) else UNIT * rate)
                  + Refill(rate, t - past[n]) - spent
      {
        AllowanceStep(rate, past, i, t);
      }
      if Available(rate, past[..n], past[n]) == UNIT * rate {
        assert Available(rate, past, t) == Min(UNIT * rate, Allowance(rate, past, n, t));
      } else {
        var i :| 0 <= i < n && Available(rate, past[..n], past[n]) == Allowance(rate, past[..n], i, past[n]);
        assert Available(rate, past, t) == Min(UNIT * rate, Allowance(rate, past, i, t));
      }
    }
  }

  lemma AllowanceStep(rate: int, past: seq<int>, i: nat, t: int)
    requires i < |past|
    ensures var n := |past| - 1;
            Allowance(rate, past, i, t)
            == (if i < n then Allowance(rate, past[..n], i, past[n]) else UNIT * rate) + Refill(rate, t - past[n])
               - if Accepted(rate, past[..n], past[n]) then UNIT else 0
  {
    hide Refill;
    var n := |past| - 1;
    RefillAdds(rate, past[i], past[n], t);
    assert AcceptedSince(rate, past, i) ==
           AcceptedSince(rate, past[..n], i) + if Accepted(rate, past[..n], past[n]) then 1 else 0;
  }

  /**
   Counted from every earlier call, this call and the accepted ones since fit a full
   bucket plus the refill of the time that passed.
   */
  ghost predicate Fits(rate: int, past: seq<int>, t: int) {
    && rate >= 1
    && forall i :: 0 <= i < |past| ==>
         60_000 * (AcceptedSince(rate, past, i) + 1) <= 60_000 * rate + rate * (t - past[i])
  }

  lemma AcceptedIffItFits(rate: int, past: seq<int>, t: int)
    ensures Accepted(rate, past, t) <==> Fits(rate, past, t)
  {
    hide Refill, AcceptedSince;
    AvailableIsLeast(rate, past, t);
    forall i | 0 <= i < |past|
      ensures Allowance(rate, past, i, t) >= UNIT
              <==> 60_000 * (AcceptedSince(rate, past, i) + 1) <= 60_000 * rate + rate * (t - past[i])
    {
      RefillIs(rate, t - past[i]);
    }
  }

  ghost predicate InOrder(past: seq<int>) {
    forall i, j :: 0 <= i < j < |past| ==> past[i] <= past[j]
  }

  lemma {:induction false} AcceptedIsAllowed(rate: int, past: seq<int>, i: nat)
    requires rate >= 1 && i < |past| && InOrder(past)
    ensures UNIT * AcceptedSince(rate, past, i) <= UNIT * rate + Refill(rate, past[|past| - 1] - past[i])
    decreases |past|
  {
    hide Refill, Available;
    var n := |past| - 1;
    RefillAdds(rate, past[i], past[i], past[n]);
    if i < n {
      if Accepted(rate, past[..n], past[n]) {
        RefillIs(rate, past[n] - past[i]);
        AcceptedIffItFits(rate, past[..n], past[n]);
      } else {
        AcceptedIsAllowed(rate, past[..n], i);
        RefillGrows(rate, past[n - 1] - past[i], past[n] - past[i]);
      }
    }
  }

  /** In any stretch of time no more calls are accepted than a full bucket and rate / 60000 for each millisecond. */
  lemma NeverTooMany(rate: int, past: seq<int>, i: nat)
    requires rate >= 1 && i < |past| && InOrder(past)
    ensures 60_000 * AcceptedSince(rate, past, i) <= 60_000 * rate + rate * (past[|past| - 1] - past[i])
  {
    AcceptedIsAllowed(rate, past, i);
    RefillIs(rate, past[|past| - 1] - past[i]);
    hide Refill, AcceptedSince;
  }

  // ----- rejected calls do not matter -----

  function Kept(rate: int, past: seq<int>): seq<int> {
    if past == [] then []
    else
      var n := |past| - 1;
      Kept(rate, past[..n]) + if Accepted(rate, past[..n], past[n]) then [past[n]] else []
  }

  lemma NeverOverfull(rate: int, past: seq<int>, t: int)
    ensures Available(rate, past, t) <= UNIT * rate
    ensures past == [] ==> Available(rate, past, t) == UNIT * rate
  {
  }

  lemma RejectedIsSkipped(rate: int, past: seq<int>, x: int, t: int)
    requires rate >= 1 && !Accepted(rate, past, x)
    ensures Available(rate, past + [x], t) == Available(rate, past, t)
  {
    hide Refill;
    assert (past + [x])[..|past|] == past;
    assert past != [];
    RefillAdds(rate, past[|past| - 1], x, t);
  }

  /** A bucket that forgets its rejected calls answers the next one, whenever it comes, the same. */
  lemma {:induction false} RejectedLeaveNoTrace(rate: int, past: seq<int>, t: int)
    ensures Accepted(rate, past, t) <==> Accepted(rate, Kept(rate, past), t)
    ensures rate >= 1 ==> Available(rate, past, t) == Available(rate, Kept(rate, past), t)
    decreases |past|
  {
    NeverOverfull(rate, past, t);
    NeverOverfull(rate, Kept(rate, past), t);
    if past != [] && rate >= 1 {
      hide Refill;
      var n := |past| - 1;
      assert past == past[..n] + [past[n]];
      RejectedLeaveNoTrace(rate, past[..n], past[n]);
      if Accepted(rate, past[..n], past[n]) {
        var kept := Kept(rate, past[..n]);
        assert (kept + [past[n]])[..|kept|] == kept;
      } else {
        RejectedLeaveNoTrace(rate, past[..n], t);
        hide Available;
        assert Kept(rate, past) == Kept(rate, past[..n]);
        assert Available(rate, past, t) == Available(rate, past[..n], t) by {
          RejectedIsSkipped(rate, past[..n], past[n], t);
        }
      }
    }
  }

  // ----- refilling lazily -----

  /** One capped refill for every millisecond that passes. */
  function Ticks(rate: int, tokens: int, ms: nat): int {
    if ms == 0 then tokens else Min(UNIT * rate, Ticks(rate, tokens, ms - 1) + rate)
  }

  lemma {:induction false} TicksAreOneRefill(rate: int, tokens: int, ms: nat)
    requires rate >= 0 && tokens <= UNIT * rate
    ensures Ticks(rate, tokens, ms) == Min(UNIT * rate, tokens + Refill(rate, ms))
    decreases ms
  {
    if ms > 0 {
      TicksAreOneRefill(rate, tokens, ms - 1);
      RefillAdds(rate, 0, ms - 1, ms);
    }
  }

  /** The tokens found in a bucket that is refilled every millisecond rather than at each call. */
  function AvailableEagerly(rate: int, past: seq<int>, t: int): int
    requires InOrder(past) && (past != [] ==> past[|past| - 1] <= t)
    decreases |past|
  {
    if past == [] then UNIT * rate
    else
      var n := |past| - 1;
      Ticks(rate, Spend(AvailableEagerly(rate, past[..n], past[n])), t - past[n])
  }

  lemma {:induction false} LazyIsEager(rate: int, past: seq<int>, t: int)
    requires rate >= 0 && InOrder(past) && (past != [] ==> past[|past| - 1] <= t)
    ensures AvailableEagerly(rate, past, t) == Available(rate, past, t)
    decreases |past|
  {
    if past != [] {
      var n := |past| - 1;
      LazyIsEager(rate, past[..n], past[n]);
      AvailableIsLeast(rate, past[..n], past[n]);
      TicksAreOneRefill(rate, Spend(Available(rate, past[..n], past[n])), t - past[n]);
    }
  }

  // ----- the table of buckets -----

  /** The row that a key's calls have left. */
  function RowOf(rate: int, past: seq<int>): Bucket
    requires past != []
  {
    var n := |past| - 1;
    Bucket(Spend(Available(rate, past[..n], past[n])), past[n])
  }

  lemma RowAfter(rate: int, past: seq<int>, now: int)
    ensures RowOf(rate, past + [now]) == Bucket(Spend(Available(rate, past, now)), now)
    ensures past != [] ==>
              var row := RowOf(rate, past);
              Available(rate, past, now) == Min(UNIT * rate, row.tokens + Refill(rate, now - row.updatedAt))
    ensures past == [] ==> Available(rate, past, now) == Min(UNIT * rate, UNIT * rate + Refill(rate, 0))
  {
    RefillAdds(rate, 0, 0, 0);
    hide Refill;
    assert (past + [now])[..|past|] == past;
    if past != [] {
      AvailableUnfolds(rate, past, now);
    }
    NeverOverfull(rate, past, now);
    hide Available;
  }

  lemma AvailableUnfolds(rate: int, past: seq<int>, t: int)
    requires past != []
    ensures var n := |past| - 1;
            Available(rate, past, t) ==
            Min(UNIT * rate, Spend(Available(rate, past[..n], past[n])) + Refill(rate, t - past[n]))
  {
  }

  /** Each row is what its key's calls made of a full bucket. */
  ghost predicate Good(rows: map<string, Bucket>, calls: map<string, seq<int>>, rates: map<string, int>) {
    && calls.Keys == rows.Keys == rates.Keys
    && forall key :: key in rows ==> calls[key] != [] && rows[key] == RowOf(rates[key], calls[key])
  }

  function PastOf(calls: map<string, seq<int>>, key: string): seq<int> {
    if key in calls then calls[key] else []
  }

  lemma CallKeepsGood(
    rows: map<string, Bucket>, calls: map<string, seq<int>>, rates: map<string, int>, key: string, rate: int, now: int)
    requires Good(rows, calls, rates) && (key in rates ==> rates[key] == rate)
    ensures var past := PastOf(calls, key);
            Good(rows[key := Bucket(Spend(Available(rate, past, now)), now)],
                 calls[key := past + [now]], rates[key := rate])
  {
    var past := PastOf(calls, key);
    RowAfter(rate, past, now);
    hide RowOf, Available;
  }

  lemma Overwrite<K, V>(m: map<K, V>, k: K, a: V, b: V)
    ensures m[k := a][k := b] == m[k := b]
  {
  }

  class Limiter {
    var rows: map<string, Bucket>
    ghost var calls: map<string, seq<int>>   // when each key was used
    ghost var rates: map<string, int>        // every caller uses a key with one rate

    ghost predicate Valid()
      reads this
    {
      Good(rows, calls, rates)
    }

    constructor ()
      ensures Valid() && rows == map[]
    {
      rows, calls, rates := map[], map[], map[];
    }

    method RateLimit(key: string, ratePerMin: int, now: int) returns (ok: bool)
      requires Valid()
      requires key in rates ==> rates[key] == ratePerMin
      modifies this
      ensures Valid()
      ensures calls == old(calls)[key := PastOf(old(calls), key) + [now]] && rates == old(rates)[key := ratePerMin]
      ensures key in rows && rows == old(rows)[key := rows[key]]
      ensures ok <==> Fits(ratePerMin, PastOf(old(calls), key), now)
    {
      ghost var past := PastOf(calls, key);
      ghost var after := rows[key := Bucket(Spend(Available(ratePerMin, past, now)), now)];
      AcceptedIffItFits(ratePerMin, past, now);
      RowAfter(ratePerMin, past, now);
      CallKeepsGood(rows, calls, rates, key, ratePerMin, now);
      assert key in rows ==> past != [] && rows[key] == RowOf(ratePerMin, past);
      hide Refill, Fits, Available, RowOf, Good, PastOf;
      if key !in rows {
        rows := rows[key := Bucket(UNIT * ratePerMin, now)];
      }
      var row := rows[key];
      var tokens := Min(UNIT * ratePerMin, row.tokens + Refill(ratePerMin, now - row.updatedAt));
      ok := tokens >= UNIT;
      if ok {
        tokens := tokens - UNIT;
      }
      Overwrite(old(rows), key, row, Bucket(tokens, now));
      rows := rows[key := Bucket(tokens, now)];
      assert rows == after;
      calls, rates := calls[key := past + [now]], rates[key := ratePerMin];
    }
  }
}
