/**
 The split of one gross payout into the platform's cut, Proofwork's fee and the
 worker's net. The server rounds both fees down; the form preview of the app
 page rounds both half up, so the two can disagree by a cent or two.
 */
module FeeSplit {
  import opened Common

  const FULL_BPS := 10_000

  datatype Rates = Rates(platformBps: int, proofworkBps: int) {
    predicate Valid() {
      0 <= platformBps && 0 <= proofworkBps && platformBps + proofworkBps <= FULL_BPS
    }
  }

  datatype SplitError =
    | InvalidGross | InvalidPlatformBps | InvalidProofworkBps | BpsSumExceedsAll

  datatype Split = Split(platformFee: nat, proofworkFee: nat, net: nat) {
    function Total(): nat {
      platformFee + proofworkFee + net
    }
  }

  /** bps ten-thousandths of an amount, rounded down. */
  function FloorShare(amount: nat, bps: nat): nat {
    amount * bps / FULL_BPS
  }

  /** bps ten-thousandths of an amount, rounded half up. */
  function RoundShare(amount: nat, bps: nat): nat {
    (2 * amount * bps + FULL_BPS) / (2 * FULL_BPS)
  }

  lemma FloorShareBounds(amount: nat, bps: nat)
    requires bps <= FULL_BPS
    ensures FULL_BPS * FloorShare(amount, bps) <= amount * bps < FULL_BPS * (FloorShare(amount, bps) + 1)
    ensures FloorShare(amount, bps) <= amount
  {
    var p := amount * bps;
    assert p == FULL_BPS * (p / FULL_BPS) + p % FULL_BPS;
    assert p <= amount * FULL_BPS by {
      assert amount * (FULL_BPS - bps) >= 0;
      assert amount * (FULL_BPS - bps) == amount * FULL_BPS - p;
    }
  }

  lemma RoundShareBounds(amount: nat, bps: nat)
    requires bps <= FULL_BPS
    ensures 2 * amount * bps - FULL_BPS < 2 * FULL_BPS * RoundShare(amount, bps) <= 2 * amount * bps + FULL_BPS
    ensures RoundShare(amount, bps) <= amount
    ensures FloorShare(amount, bps) <= RoundShare(amount, bps) <= FloorShare(amount, bps) + 1
  {
    FloorShareBounds(amount, bps);
    var p := 2 * amount * bps;
    assert p == 2 * (amount * bps);
    assert p + FULL_BPS == 2 * FULL_BPS * ((p + FULL_BPS) / (2 * FULL_BPS)) + (p + FULL_BPS) % (2 * FULL_BPS);
    assert amount * bps <= amount * FULL_BPS by {
      assert amount * (FULL_BPS - bps) >= 0;
      assert amount * (FULL_BPS - bps) == amount * FULL_BPS - amount * bps;
    }
  }

  function ComputePayoutSplit(gross: int, rates: Rates): (r: Result<Split, SplitError>)
    ensures r.Ok? <==> gross >= 0 && rates.Valid()
    ensures r.Ok? ==> r.value.Total() == gross
  {
    if gross < 0 then Err(InvalidGross)
    else if rates.platformBps < 0 || rates.platformBps > FULL_BPS then Err(InvalidPlatformBps)
    else if rates.proofworkBps < 0 || rates.proofworkBps > FULL_BPS then Err(InvalidProofworkBps)
    else if rates.platformBps + rates.proofworkBps > FULL_BPS then Err(BpsSumExceedsAll)
    else
      FloorShareBounds(gross, rates.platformBps);
      var platform := FloorShare(gross, rates.platformBps);
      FloorShareBounds(gross - platform, rates.proofworkBps);
      var proofwork := FloorShare(gross - platform, rates.proofworkBps);
      Ok(Split(platform, proofwork, gross - platform - proofwork))
  }

  /** Illegal input is refused for the first of these reasons that applies. */
  lemma SplitRefusals(gross: int, rates: Rates)
    ensures var r := ComputePayoutSplit(gross, rates);
            && (r == Err(InvalidGross) <==> gross < 0)
            && (r == Err(InvalidPlatformBps) <==> gross >= 0 && !(0 <= rates.platformBps <= 10_000))
            && (r == Err(InvalidProofworkBps) <==>
                  gross >= 0 && 0 <= rates.platformBps <= 10_000 && !(0 <= rates.proofworkBps <= 10_000))
            && (r == Err(BpsSumExceedsAll) <==>
                  && gross >= 0 && 0 <= rates.platformBps <= 10_000 && 0 <= rates.proofworkBps <= 10_000
                  && rates.platformBps + rates.proofworkBps > 10_000)
  {
    hide FloorShare;
  }

  /** The split of a legal gross at legal rates. */
  function SplitOf(gross: nat, rates: Rates): (s: Split)
    requires rates.Valid()
    ensures s.Total() == gross
  {
    ComputePayoutSplit(gross, rates).value
  }

  /** The platform gets the whole cents of its share, and Proofwork those of its share of the rest. */
  predicate IsSplit(gross: nat, rates: Rates, s: Split) {
    && s.Total() == gross
    && 10_000 * s.platformFee <= gross * rates.platformBps < 10_000 * (s.platformFee + 1)
    && 10_000 * s.proofworkFee <= (gross - s.platformFee) * rates.proofworkBps < 10_000 * (s.proofworkFee + 1)
  }

  /** That determines the split. */
  lemma SplitIff(gross: nat, rates: Rates, s: Split)
    requires rates.Valid()
    ensures s == SplitOf(gross, rates) <==> IsSplit(gross, rates, s)
  {
    var t := SplitOf(gross, rates);
    FloorShareBounds(gross, rates.platformBps);
    FloorShareBounds(gross - t.platformFee, rates.proofworkBps);
    hide FloorShare;
    assert IsSplit(gross, rates, t);
    if IsSplit(gross, rates, s) {
      WholeCents(gross * rates.platformBps, s.platformFee, t.platformFee);
      WholeCents((gross - s.platformFee) * rates.proofworkBps, s.proofworkFee, t.proofworkFee);
    }
  }

  lemma WholeCents(x: int, a: nat, b: nat)
    requires 10_000 * a <= x < 10_000 * (a + 1) && 10_000 * b <= x < 10_000 * (b + 1)
    ensures a == b
  {
  }

  /** A floored share leaves the exact rest and what the flooring dropped. */
  lemma FlooredRest(amount: nat, bps: nat)
    requires bps <= FULL_BPS
    ensures FULL_BPS * (amount - FloorShare(amount, bps)) == amount * (FULL_BPS - bps) + amount * bps % FULL_BPS
  {
    var p := amount * bps;
    assert p == FULL_BPS * (p / FULL_BPS) + p % FULL_BPS;
    Distribute(amount, bps, FULL_BPS - bps);
  }

  /** The fractions of a cent the two floors drop, in units of 1 / 100000000 of a cent. */
  function Dropped(gross: nat, rates: Rates): nat
    requires rates.Valid()
  {
    var w := gross - SplitOf(gross, rates).platformFee;
    (gross * rates.platformBps % FULL_BPS) * (FULL_BPS - rates.proofworkBps)
    + FULL_BPS * (w * rates.proofworkBps % FULL_BPS)
  }

  /** What the worker's share before Proofwork's fee is, and what each floor dropped on the way to the net. */
  lemma SplitRests(gross: nat, rates: Rates) returns (w: nat, a: nat, b: nat)
    requires rates.Valid()
    ensures a < FULL_BPS && b < FULL_BPS
    ensures FULL_BPS * w == gross * (FULL_BPS - rates.platformBps) + a
    ensures FULL_BPS * SplitOf(gross, rates).net == w * (FULL_BPS - rates.proofworkBps) + b
    ensures Dropped(gross, rates) == a * (FULL_BPS - rates.proofworkBps) + FULL_BPS * b
  {
    w := gross - SplitOf(gross, rates).platformFee;
    a := gross * rates.platformBps % FULL_BPS;
    b := w * rates.proofworkBps % FULL_BPS;
    assert w == gross - FloorShare(gross, rates.platformBps);
    assert SplitOf(gross, rates).net == w - FloorShare(w, rates.proofworkBps);
    hide SplitOf, FloorShare;
    FlooredRest(gross, rates.platformBps);
    FlooredRest(w, rates.proofworkBps);
  }

  /** The net never falls short of the exact share, and exceeds it by less than two cents. */
  lemma NetIsNearlyExact(gross: nat, rates: Rates)
    requires rates.Valid()
    ensures var exact := gross * (FULL_BPS - rates.platformBps) * (FULL_BPS - rates.proofworkBps);
            exact <= SplitOf(gross, rates).net * FULL_BPS * FULL_BPS < exact + 2 * FULL_BPS * FULL_BPS
  {
    hide SplitOf, Dropped;
    var w, a, b := SplitRests(gross, rates);
    TwoFloors(gross, w, SplitOf(gross, rates).net, FULL_BPS - rates.platformBps, FULL_BPS - rates.proofworkBps, a, b);
  }

  /** The net is the exact share and what the two floors dropped. */
  lemma NetIsExactPlusDropped(gross: nat, rates: Rates)
    requires rates.Valid()
    ensures var exact := gross * (FULL_BPS - rates.platformBps) * (FULL_BPS - rates.proofworkBps);
            SplitOf(gross, rates).net * FULL_BPS * FULL_BPS == exact + Dropped(gross, rates)
  {
    hide SplitOf, Dropped;
    var w, a, b := SplitRests(gross, rates);
    TwoShares(FULL_BPS, gross, w, SplitOf(gross, rates).net,
              FULL_BPS - rates.platformBps, FULL_BPS - rates.proofworkBps, a, b);
  }

  /** Of 103 cents with a platform cut of half, the worker gets 52 where 50.985 is exact. */
  lemma NetMayExceedACent()
    ensures var rates := Rates(5000, 100);
            && SplitOf(103, rates).net == 52
            && 52 * FULL_BPS * FULL_BPS >= 103 * (FULL_BPS - 5000) * (FULL_BPS - 100) + FULL_BPS * FULL_BPS
  {
    assert 103 * 5000 / FULL_BPS == 51 && 52 * 100 / FULL_BPS == 0;
    assert FloorShare(103, 5000) == 51 && FloorShare(52, 100) == 0;
  }

  lemma TwoFloors(gross: int, w: int, net: int, c: int, d: int, a: int, b: int)
    requires FULL_BPS * w == gross * c + a && FULL_BPS * net == w * d + b
    requires 0 <= a < FULL_BPS && 0 <= b < FULL_BPS && 0 <= d <= FULL_BPS
    ensures gross * c * d <= net * FULL_BPS * FULL_BPS < gross * c * d + 2 * FULL_BPS * FULL_BPS
  {
    TwoShares(FULL_BPS, gross, w, net, c, d, a, b);
    assert 0 <= a * d <= a * FULL_BPS by {
      Distribute(a, d, FULL_BPS - d);
      assert a * (FULL_BPS - d) >= 0;
    }
  }

  /** Two successive shares, each off by its own remainder. */
  lemma TwoShares(k: int, gross: int, w: int, net: int, c: int, d: int, a: int, b: int)
    requires k * w == gross * c + a && k * net == w * d + b
    ensures net * k * k == gross * c * d + a * d + k * b
  {
    calc {
      net * k * k;
      { Regroup(net, k, k); }
      k * (k * net);
      k * (w * d + b);
      { Distribute(k, w * d, b); }
      k * (w * d) + k * b;
      { Regroup(w, d, k); }
      (k * w) * d + k * b;
      (gross * c + a) * d + k * b;
      { Distribute(d, gross * c, a); }
      gross * c * d + a * d + k * b;
    }
  }

  lemma Regroup(x: int, y: int, z: int)
    ensures x * y * z == z * (x * y) == (z * x) * y
  {
  }

  lemma Distribute(x: int, y: int, z: int)
    ensures x * (y + z) == x * y + x * z == y * x + z * x == (y + z) * x
  {
  }

  /** A larger gross never pays the worker less. */
  lemma {:induction false} NetIsMonotone(small: nat, large: nat, rates: Rates)
    requires rates.Valid() && small <= large
    ensures SplitOf(small, rates).net <= SplitOf(large, rates).net
    decreases large - small
  {
    if small < large {
      NetSteps(small, rates);
      NetIsMonotone(small + 1, large, rates);
    }
  }

  lemma NetSteps(gross: nat, rates: Rates)
    requires rates.Valid()
    ensures SplitOf(gross, rates).net <= SplitOf(gross + 1, rates).net
  {
    hide FloorShare;
    FloorShareBounds(gross, rates.platformBps);
    RestIsMonotone(gross, rates.platformBps);
    RestIsMonotone(gross - FloorShare(gross, rates.platformBps), rates.proofworkBps);
  }

  /** What is left after a floored share grows by zero or one when the amount grows by one. */
  lemma RestIsMonotone(amount: nat, bps: nat)
    requires bps <= FULL_BPS
    ensures var rest := amount - FloorShare(amount, bps);
            rest <= amount + 1 - FloorShare(amount + 1, bps) <= rest + 1
  {
    FloorShareBounds(amount, bps);
    FloorShareBounds(amount + 1, bps);
    assert (amount + 1) * bps == amount * bps + bps;
  }

  // ----- the preview of the app page -----

  const PREVIEW_PROOFWORK_BPS := 100

  /** What the form tells the buyer the worker will get; payoutCents may be anything typed in. */
  function ComputeWorkerNet(payoutCents: int, platformBps: nat): (net: int)
    requires platformBps <= FULL_BPS
    ensures 0 <= net <= Max(0, payoutCents)
  {
    var pc := Max(0, payoutCents);
    RoundShareBounds(pc, platformBps);
    var workerPortion := Max(0, pc - RoundShare(pc, platformBps));
    RoundShareBounds(workerPortion, PREVIEW_PROOFWORK_BPS);
    Max(0, workerPortion - RoundShare(workerPortion, PREVIEW_PROOFWORK_BPS))
  }

  /** The preview never promises more than the server pays, and at most two cents less. */
  lemma PreviewNeverOverpromises(gross: nat, platformBps: nat)
    requires platformBps + 100 <= 10_000
    ensures var net := SplitOf(gross, Rates(platformBps, 100)).net;
            net - 2 <= ComputeWorkerNet(gross, platformBps) <= net
  {
    RoundShareBounds(gross, platformBps);
    FloorShareBounds(gross, platformBps);
    var w := gross - FloorShare(gross, platformBps);
    var preview := gross - RoundShare(gross, platformBps);
    RoundShareBounds(preview, PREVIEW_PROOFWORK_BPS);
    FloorShareBounds(w, PREVIEW_PROOFWORK_BPS);
    assert preview == w || preview == w - 1;
  }

  /** What is left after a share rounded half up is within half a unit of the exact rest. */
  lemma RoundedRestBounds(amount: nat, bps: nat)
    requires bps <= FULL_BPS
    ensures var rest := amount - RoundShare(amount, bps);
            rest >= 0 && -FULL_BPS <= FULL_BPS * (2 * rest) - 2 * amount * (FULL_BPS - bps) <= FULL_BPS
  {
    RoundShareBounds(amount, bps);
    Distribute(2 * amount, bps, FULL_BPS - bps);
  }

  /** The preview is less than one cent away from the exact share. */
  lemma PreviewIsNearlyExact(gross: nat, platformBps: nat)
    requires platformBps <= FULL_BPS
    ensures var exact := gross * (FULL_BPS - platformBps) * 9_900;
            -FULL_BPS * FULL_BPS
            < ComputeWorkerNet(gross, platformBps) * FULL_BPS * FULL_BPS - exact
            < FULL_BPS * FULL_BPS
  {
    RoundedRestBounds(gross, platformBps);
    var w := gross - RoundShare(gross, platformBps);
    RoundedRestBounds(w, PREVIEW_PROOFWORK_BPS);
    var net := w - RoundShare(w, PREVIEW_PROOFWORK_BPS);
    var c, d := FULL_BPS - platformBps, FULL_BPS - PREVIEW_PROOFWORK_BPS;
    TwoRoundings(gross, w, net, c, d, FULL_BPS * (2 * w) - 2 * gross * c, FULL_BPS * (2 * net) - 2 * w * d);
  }

  lemma TwoRoundings(gross: int, w: int, net: int, c: int, d: int, a: int, b: int)
    requires FULL_BPS * (2 * w) == 2 * gross * c + a && FULL_BPS * (2 * net) == 2 * w * d + b
    requires -FULL_BPS <= a <= FULL_BPS && -FULL_BPS <= b <= FULL_BPS && d == FULL_BPS - PREVIEW_PROOFWORK_BPS
    ensures -FULL_BPS * FULL_BPS < net * FULL_BPS * FULL_BPS - gross * c * d < FULL_BPS * FULL_BPS
  {
    TwoShares(FULL_BPS, 2 * gross, 2 * w, 2 * net, c, d, a, b);
    Regroup(gross, c, 2);
    Regroup(gross * c, d, 2);
  }
}
