/**
 For which rates the worker's net is within a cent of the exact share whatever the
 gross is: when the platform takes nothing, or when the part Proofwork leaves divides
 the whole. For all other rates some gross is paid a cent too much or more.
 */
module FeeBound {
  import opened FeeSplit

  /** The net is less than one cent above the exact share. */
  predicate WithinACent(gross: nat, rates: Rates)
    requires rates.Valid()
  {
    SplitOf(gross, rates).net * FULL_BPS * FULL_BPS
    < gross * (FULL_BPS - rates.platformBps) * (FULL_BPS - rates.proofworkBps) + FULL_BPS * FULL_BPS
  }

  lemma AlwaysWithinACentIff(rates: Rates)
    requires rates.Valid()
    ensures (forall gross: nat :: WithinACent(gross, rates)) <==>
            rates.platformBps == 0 || FULL_BPS % (FULL_BPS - rates.proofworkBps) == 0
  {
    hide WithinACent;
    if rates.platformBps == 0 || FULL_BPS % (FULL_BPS - rates.proofworkBps) == 0 {
      forall gross: nat
        ensures WithinACent(gross, rates)
      {
        OneFloorIsExact(gross, rates);
      }
    } else {
      var gross := GrossPaidTooMuch(rates);
    }
  }

  // ----- rates that never cost a cent -----

  lemma ExcessDecides(gross: nat, rates: Rates)
    requires rates.Valid()
    ensures WithinACent(gross, rates) <==> Dropped(gross, rates) < FULL_BPS * FULL_BPS
  {
    hide SplitOf, Dropped;
    NetIsExactPlusDropped(gross, rates);
  }

  lemma OneFloorIsExact(gross: nat, rates: Rates)
    requires rates.Valid()
    requires rates.platformBps == 0 || FULL_BPS % (FULL_BPS - rates.proofworkBps) == 0
    ensures WithinACent(gross, rates)
  {
    hide SplitOf, Dropped, WithinACent;
    var w, a, b := SplitRests(gross, rates);
    ExcessDecides(gross, rates);
    if rates.platformBps == 0 {
      NothingDropped(gross, w, a);
      OneDrop(a, b, FULL_BPS - rates.proofworkBps);
    } else {
      EvenDrop(w, SplitOf(gross, rates).net, a, b, FULL_BPS - rates.proofworkBps);
    }
  }

  /** When the platform takes nothing the first floor drops nothing. */
  lemma NothingDropped(gross: int, w: int, a: int)
    requires FULL_BPS * w == gross * FULL_BPS + a && 0 <= a < FULL_BPS
    ensures a == 0
  {
  }

  lemma OneDrop(a: int, b: int, d: int)
    requires a == 0 && b < FULL_BPS
    ensures a * d + FULL_BPS * b < FULL_BPS * FULL_BPS
  {
  }

  /** When d divides the whole the second floor drops at most the whole less d. */
  lemma EvenDrop(w: int, net: int, a: int, b: int, d: int)
    requires 0 < d <= FULL_BPS && FULL_BPS % d == 0 && FULL_BPS * net == w * d + b
    requires a < FULL_BPS && 0 <= b < FULL_BPS
    ensures a * d + FULL_BPS * b < FULL_BPS * FULL_BPS
  {
    var q := FULL_BPS / d;
    assert FULL_BPS == d * q;
    StepsOf(d, q, net, w, b);
    Grows(d, a, FULL_BPS - 1);
  }

  lemma Grows(d: int, j: int, k: int)
    requires d >= 0 && j <= k
    ensures d * j == j * d <= d * k
  {
  }

  /** What the second floor drops is a multiple of d, so at most the whole less d. */
  lemma StepsOf(d: int, q: int, net: int, w: int, b: int)
    requires d > 0 && d * q * net == w * d + b && 0 <= b < d * q
    ensures b <= d * q - d
  {
    var z := q * net - w;
    assert b == d * z;
    assert d * (q - z) > 0;
    Positive(d, q - z);
    Grows(d, z, q - 1);
    assert d * (q - 1) == d * q - d;
  }

  // ----- rates that do -----

  /** a and b have the common divisor g, and what is left of them no other. */
  lemma {:induction false} Bezout(a: nat, b: nat) returns (g: nat, x: nat, y: nat, u: int, v: int)
    requires b > 0
    ensures g > 0 && a == g * x && b == g * y && u * x + v * y == 1
    decreases b
  {
    var k := a / b;
    assert a == k * b + a % b;
    if a % b == 0 {
      g, x, y, u, v := b, k, 1, 0, 1;
    } else {
      var x0, y0, u0, v0;
      g, x0, y0, u0, v0 := Bezout(b, a % b);
      x, y, u, v := k * x0 + y0, x0, v0, u0 - v0 * k;
      EuclidStep(g, k, x0, y0, u0, v0);
    }
  }

  lemma EuclidStep(g: int, k: int, x: int, y: int, u: int, v: int)
    ensures k * (g * x) + g * y == g * (k * x + y)
    ensures v * (k * x + y) + (u - v * k) * x == u * x + v * y
  {
  }

  /** Some y below s is s / q or a little more, and y * q is s modulo h. */
  lemma PickShortfall(q: int, s: int, h: int, e: int, v: int) returns (k: int, y: int)
    requires q >= 2 && 0 < h < s && e * h + v * q == 1
    ensures y * q == s + k * h && k >= 0 && 0 < y < s
  {
    k := (-s * e) % q;
    var t := (-s * e) / q;
    assert -s * e == q * t + k;
    y := s * v - t * h;
    Congruent(q, s, h, e, v, k, t);
    Fits(q, s, h, k, y);
  }

  lemma Fits(q: int, s: int, h: int, k: int, y: int)
    requires q >= 2 && 0 <= k < q && 0 < h < s && y * q == s + k * h
    ensures 0 < y < s
  {
    Grows(h, 0, k);
    Positive(q, y);
    Grows(h, k, q - 1);
    Grows(q - 1, h, s - 1);
    assert (q - 1) * (s - 1) == (q - 1) * s - (q - 1);
    assert q * (s - y) == (q - 1) * s - k * h;
    Positive(q, s - y);
  }

  lemma Congruent(q: int, s: int, h: int, e: int, v: int, k: int, t: int)
    requires e * h + v * q == 1 && -s * e == q * t + k
    ensures (s * v - t * h) * q == s + k * h
  {
    assert k == -s * e - q * t;
    SpreadOut(q, s, h, e, t);
    SpreadIn(q, s, h, v, t);
  }

  lemma SpreadOut(q: int, s: int, h: int, e: int, t: int)
    ensures s + (-s * e - q * t) * h == s * (1 - e * h) - q * t * h
  {
  }

  lemma SpreadIn(q: int, s: int, h: int, v: int, t: int)
    ensures (s * v - t * h) * q == s * (v * q) - q * t * h
  {
  }

  /** y - v * s is h times this. */
  lemma Shortfall(p: int, q: int, s: int, h: int, p1: int, u: int, v: int, k: int, y: int)
    requires u * p + v * q == 1 && p == h * p1 && y * q == s + k * h
    ensures h * (u * p1 * (y - v * s) + v * (k + s * u * p1)) == y - v * s
  {
    var x := y - v * s;
    Outer(q, s, v, y);
    Inner(h, p1, s, u, v, k, x);
    Weighted(u * p, v, q, x);
  }

  lemma Outer(q: int, s: int, v: int, y: int)
    ensures q * (y - v * s) == y * q - s * (v * q)
  {
  }

  lemma Inner(h: int, p1: int, s: int, u: int, v: int, k: int, x: int)
    ensures h * (u * p1 * x + v * (k + s * u * p1)) == (u * (h * p1)) * x + v * (k * h + s * (u * (h * p1)))
  {
  }

  lemma Weighted(a: int, v: int, q: int, x: int)
    requires a + v * q == 1
    ensures a * x + v * (q * x) == x
  {
    assert a * x + v * (q * x) == (a + v * q) * x;
  }

  /** A multiple of p and s that is z * h modulo r, where h is what p and r have in common. */
  lemma Correction(p: int, r: int, s: int, h: int, p1: int, r1: int, u2: int, v2: int, u3: int, v3: int, z: int)
    requires u2 * r + v2 * s == 1 && u3 * p1 + v3 * r1 == 1 && p == h * p1 && r == h * r1
    ensures p * (u3 * v2 * z) * s == h * z - r * (z * (v3 + h * u2 - v3 * u2 * r))
  {
    assert u3 * p == h - v3 * r by {
      Scaled(h, u3, p1, v3, r1);
    }
    Gather(p, u3, s, v2, z);
    Expand(h, v3, u2, r, z);
  }

  lemma Scaled(h: int, u: int, p: int, v: int, r: int)
    requires u * p + v * r == 1
    ensures u * (h * p) == h - v * (h * r)
  {
    assert u * (h * p) + v * (h * r) == h * (u * p + v * r);
  }

  lemma Gather(p: int, u: int, s: int, v: int, z: int)
    ensures p * (u * v * z) * s == (u * p) * (v * s) * z
  {
  }

  lemma Expand(h: int, v: int, u: int, r: int, z: int)
    ensures (h - v * r) * (1 - u * r) * z == h * z - r * (z * (v + h * u - v * u * r))
  {
  }

  /** Whole numbers t and m with t * q just above a multiple of p and t * s just above one of r. */
  lemma Meet(p: int, q: int, r: int, s: int, h: int, p1: int, r1: int,
             u1: int, v1: int, u2: int, v2: int, u3: int, v3: int, k: int, y: int)
    returns (t: int, n: int, m: int)
    requires u1 * p + v1 * q == 1 && u2 * r + v2 * s == 1 && u3 * p1 + v3 * r1 == 1
    requires p == h * p1 && r == h * r1 && y * q == s + k * h
    ensures t * s == n * r + y && t * q == 1 + p * m
  {
    var z := u1 * p1 * (y - v1 * s) + v1 * (k + s * u1 * p1);
    var j := u3 * v2 * z;
    var x := z * (v3 + h * u2 - v3 * u2 * r);
    Shortfall(p, q, s, h, p1, u1, v1, k, y);
    Correction(p, r, s, h, p1, r1, u2, v2, u3, v3, z);
    t, n, m := v1 + p * j, -x, q * j - u1;
    assert t * s == v1 * s + p * j * s;
    assert t * q == v1 * q + p * (q * j);
  }

  /** The same gross modulo the whole squared, with the same fractions dropped. */
  lemma Reduce(full: int, c: int, d: int, w: int, gross: int, net: int, a: int, b: int)
    returns (gross1: nat, w1: nat, net1: nat)
    requires full > 0 && c >= 0 && d >= 0 && a >= 0 && b >= 0
    requires full * w == gross * c + a && full * net == w * d + b
    ensures gross1 < full * full && full * w1 == gross1 * c + a && full * net1 == w1 * d + b
  {
    assert full * full > 0;
    var k, rest := gross / (full * full), gross % (full * full);
    ShiftShare(full, k, rest, c, w, a);
    ShiftNet(full, k, c, d, w, net, b);
    Grows(c, 0, rest);
    NotNegative(full, w - k * full * c);
    Grows(d, 0, w - k * full * c);
    NotNegative(full, net - k * c * d);
    gross1, w1, net1 := rest, w - k * full * c, net - k * c * d;
  }

  lemma ShiftShare(full: int, k: int, rest: int, c: int, w: int, a: int)
    requires full * w == (full * full * k + rest) * c + a
    ensures full * (w - k * full * c) == rest * c + a
  {
    assert (full * full * k + rest) * c == full * full * k * c + rest * c;
    assert full * (w - k * full * c) == full * w - full * full * k * c;
  }

  lemma ShiftNet(full: int, k: int, c: int, d: int, w: int, net: int, b: int)
    requires full * net == w * d + b
    ensures full * (net - k * c * d) == (w - k * full * c) * d + b
  {
    assert full * (net - k * c * d) == full * net - full * k * c * d;
    assert (w - k * full * c) * d == w * d - full * k * c * d;
  }

  lemma NotNegative(r: int, n: int)
    requires r > 0 && r * n >= 0
    ensures n >= 0
  {
    Positive(r, n + 1);
  }

  /** The dropped fractions add up to a cent: g and k are what the parts have in common with the whole. */
  lemma AddUp(full: int, c: int, d: int, g: int, p: int, q: int, k: int, r: int, s: int, y: int, t: int, n: int, m: int)
    requires full == g * p == k * s && d == g * q && c == k * r && g > 0 && k > 0
    requires t * s == n * r + y && t * q == 1 + p * m && y * q >= s && 0 < y < s && p > 0
    ensures full * t == n * c + k * y && 0 < k * y < full
    ensures full * (m + 1) == t * d + (full - g) && 0 < g <= full
    ensures (k * y) * d + full * (full - g) >= full * full
  {
    Times(k, t, s, n, r, y);
    Times(g, t, q, m, p, 1);
    Grows(k, y, s - 1);
    assert k * (s - 1) == k * s - k;
    Grows(g, 1, p);
    Product(k, y, g, q);
    Grows(k * g, s, y * q);
    Product(k, s, g, 1);
  }

  lemma Times(k: int, t: int, s: int, n: int, r: int, y: int)
    requires t * s == n * r + y
    ensures (k * s) * t == t * (k * s) == n * (k * r) + k * y
  {
    assert (k * s) * t == k * (t * s);
    assert k * (n * r + y) == n * (k * r) + k * y;
  }

  lemma Product(k: int, y: int, g: int, q: int)
    ensures (k * y) * (g * q) == (k * g) * (y * q)
  {
  }

  /** Where both floors drop something, they drop a cent at some gross of less than a million dollars. */
  lemma GrossPaidTooMuch(rates: Rates) returns (gross: nat)
    requires rates.Valid() && rates.platformBps > 0 && FULL_BPS % (FULL_BPS - rates.proofworkBps) != 0
    ensures gross < 100_000_000 && !WithinACent(gross, rates)
  {
    hide SplitOf, Dropped, WithinACent;
    var c, d := FULL_BPS - rates.platformBps, FULL_BPS - rates.proofworkBps;
    var w, net, a, b;
    gross, w, net, a, b := Excess(FULL_BPS, c, d);
    PaidTooMuch(gross, rates, w, net, a, b);
  }

  lemma Excess(full: int, c: int, d: int) returns (gross: nat, w: nat, net: nat, a: int, b: int)
    requires 0 < c < full && 0 < d < full && full % d != 0
    ensures gross < full * full
    ensures full * w == gross * c + a && 0 <= a < full
    ensures full * net == w * d + b && 0 <= b < full
    ensures a * d + full * b >= full * full
  {
    var g, p, q, u1, v1 := Bezout(full, d);
    var k, s, r, v2, u2 := Bezout(full, c);
    Reduced(full, d, g, p, q);
    Smaller(full, c, k, s, r);
    var h, p1, r1, u3, v3 := Bezout(p, r);
    NoMore(r, h, r1);
    HalfCoprime(p, q, h, p1, u1, v1);
    var j, y := PickShortfall(q, s, h, u1 * p1, v1);
    var t0, n0, m0 := Meet(p, q, r, s, h, p1, r1, u1, v1, u2, v2, u3, v3, j, y);
    assert j * h >= 0;
    AddUp(full, c, d, g, p, q, k, r, s, y, t0, n0, m0);
    a, b := k * y, full - g;
    gross, w, net := Reduce(full, c, d, t0, n0, m0 + 1, a, b);
  }

  lemma Reduced(full: int, d: int, g: int, p: int, q: int)
    requires full == g * p && d == g * q && g > 0 && full > 0 && d > 0 && full % d != 0
    ensures p > 0 && q >= 2
  {
    Positive(g, p);
    Positive(g, q);
    if q == 1 {
      Divides(d, p);
    }
  }

  lemma Positive(g: int, p: int)
    requires g > 0 && g * p > 0
    ensures p > 0
  {
  }

  lemma Divides(d: int, p: int)
    requires d > 0
    ensures (d * p) % d == 0
  {
    var x, k := (d * p) % d, p - (d * p) / d;
    assert d * k == x;
    Positive(d, 1 - k);
    Positive(d, k + 1);
  }

  lemma Smaller(full: int, c: int, k: int, s: int, r: int)
    requires full == k * s && c == k * r && k > 0 && 0 < c < full
    ensures 0 < r < s
  {
    Positive(k, r);
    Positive(k, s - r);
  }

  lemma NoMore(r: int, h: int, r1: int)
    requires r == h * r1 && h > 0 && r > 0
    ensures h <= r
  {
    Positive(h, r1);
    assert h * 1 <= h * r1;
  }

  lemma HalfCoprime(p: int, q: int, h: int, p1: int, u: int, v: int)
    requires u * p + v * q == 1 && p == h * p1
    ensures (u * p1) * h + v * q == 1
  {
  }

  /** What the server computes is what the two roundings up are. */
  lemma PaidTooMuch(gross: nat, rates: Rates, w: nat, net: nat, a: int, b: int)
    requires rates.Valid()
    requires var c, d := FULL_BPS - rates.platformBps, FULL_BPS - rates.proofworkBps;
             && FULL_BPS * w == gross * c + a && 0 <= a < FULL_BPS
             && FULL_BPS * net == w * d + b && 0 <= b < FULL_BPS
             && a * d + FULL_BPS * b >= FULL_BPS * FULL_BPS
    ensures !WithinACent(gross, rates)
  {
    hide SplitOf, Dropped, WithinACent;
    var w1, a1, b1 := SplitRests(gross, rates);
    ExcessDecides(gross, rates);
    SameQuotient(gross * (FULL_BPS - rates.platformBps), w, a, w1, a1);
    SameQuotient(w * (FULL_BPS - rates.proofworkBps), net, b, SplitOf(gross, rates).net, b1);
  }

  lemma SameQuotient(x: int, w: int, a: int, w1: int, a1: int)
    requires FULL_BPS * w == x + a && FULL_BPS * w1 == x + a1 && 0 <= a < FULL_BPS && 0 <= a1 < FULL_BPS
    ensures w == w1 && a == a1
  {
  }
}
