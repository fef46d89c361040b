/**
 Choosing the job a worker is offered: candidates come in query order, each is
 filtered, and the first one of greatest score wins.
 */
module Selection {
  import opened Common

  /** One row of the candidate query, with what the loop looks up about it. */
  datatype Candidate = Candidate(
    job: nat,
    origins: seq<string>,
    publicOrigins: Option<set<string>>,   // of the system app of its task type, when there is one
    verified: set<string>,                // origins the org still has verified
    tags: seq<Option<string>>,            // of the descriptor; empty for a legacy job, None for what is not a string
    freshnessSec: int,
    createdAt: Option<int>,
    priority: int,
    payout: nat,
    proofs: nat)

  datatype Options = Options(
    exclude: set<nat>,
    minPayout: nat,
    capability: Option<string>,
    supported: Option<set<string>>)

  datatype WorkerInfo = WorkerInfo(
    browserOff: bool,
    passRate: real,        // expected pass rate
    duplicateRate: real)   // of the last hundred submissions

  // ----- the filters -----

  predicate OriginsHold(c: Candidate) {
    forall o :: o in c.origins && !(c.publicOrigins.Some? && o in c.publicOrigins.value) ==> o in c.verified
  }

  /** A job without tags wants a browser; of a list of tags only the strings count. */
  function TagsOf(c: Candidate): seq<string> {
    if c.tags == [] then ["browser"] else Strings(c.tags)
  }

  function Strings(tags: seq<Option<string>>): (r: seq<string>)
    ensures forall t :: t in r <==> Some(t) in tags
  {
    if tags == [] then []
    else (if tags[0].Some? then [tags[0].value] else []) + Strings(tags[1..])
  }

  predicate CapabilityOk(w: WorkerInfo, opts: Options, c: Candidate) {
    && (opts.capability.Some? && opts.capability.value != "" ==> opts.capability.value in TagsOf(c))
    && match opts.supported
       case Some(s) => forall t :: t in TagsOf(c) ==> t in s && t != ""
       case None => !(w.browserOff && "browser" in TagsOf(c))
  }

  predicate Fresh(c: Candidate, now: int) {
    c.freshnessSec > 0 && c.createdAt.Some? && c.createdAt.value != 0 ==>
      now - c.createdAt.value <= 1000 * c.freshnessSec
  }

  /** The candidate may be offered to the worker. */
  predicate Passes(w: WorkerInfo, opts: Options, c: Candidate, now: int) {
    && c.job !in opts.exclude
    && OriginsHold(c)
    && opts.minPayout <= c.payout
    && CapabilityOk(w, opts, c)
    && Fresh(c, now)
  }

  // ----- the score -----

  function ComplexityPenalty(proofs: nat, passRate: real): real {
    proofs as real * (1.0 - passRate) * 500.0
  }

  function DuplicatePenalty(payout: nat, duplicateRate: real): real {
    payout as real * duplicateRate * 0.2
  }

  function Score(w: WorkerInfo, c: Candidate): real {
    (c.priority * 100_000 + c.payout) as real
    - ComplexityPenalty(c.proofs, w.passRate) - DuplicatePenalty(c.payout, w.duplicateRate)
  }

  /** Candidate k passes, no passing one scores more, and no earlier passing one scores as much. */
  ghost predicate FirstBest(w: WorkerInfo, opts: Options, cs: seq<Candidate>, now: int, k: nat) {
    && k < |cs| && Passes(w, opts, cs[k], now)
    && (forall i :: 0 <= i < |cs| && Passes(w, opts, cs[i], now) ==> Score(w, cs[i]) <= Score(w, cs[k]))
    && (forall i :: 0 <= i < k && Passes(w, opts, cs[i], now) ==> Score(w, cs[i]) < Score(w, cs[k]))
  }

  /** The loop of findClaimableJob, with its filters in the order they are tried. */
  method FindClaimableJob(w: WorkerInfo, opts: Options, cs: seq<Candidate>, now: int) returns (r: Option<nat>)
    ensures r.None? <==> forall i :: 0 <= i < |cs| ==> !Passes(w, opts, cs[i], now)
    ensures r.Some? ==> FirstBest(w, opts, cs, now, r.value)
  {
    hide OriginsHold, CapabilityOk, Fresh, Score;
    r := None;
    var best := 0.0;
    for n := 0 to |cs|
      invariant r.None? <==> forall i :: 0 <= i < n ==> !Passes(w, opts, cs[i], now)
      invariant r.Some? ==> r.value < n && best == Score(w, cs[r.value]) && FirstBest(w, opts, cs[..n], now, r.value)
    {
      var c := cs[n];
      assert cs[..n + 1] == cs[..n] + [c];
      if c.job in opts.exclude {
        continue;
      }
      if !OriginsHold(c) {
        continue;
      }
      if c.payout < opts.minPayout {
        continue;
      }
      if !CapabilityOk(w, opts, c) {
        continue;
      }
      if !Fresh(c, now) {
        continue;
      }
      var score := Score(w, c);
      if r.None? || score > best {
        best, r := score, Some(n);
      }
    }
    assert cs[..|cs|] == cs;
  }

  // ----- what the filters and the score come to -----

  /** The job needs the capability; one without any tag needs a browser. */
  predicate Needs(c: Candidate, tag: string) {
    Some(tag) in c.tags || (c.tags == [] && tag == "browser")
  }

  /**
   A candidate passes exactly when it is not excluded, no origin of it was revoked, it pays
   enough, the worker can do all it needs, and it is not older than it may get.
   */
  lemma PassesIff(w: WorkerInfo, opts: Options, c: Candidate, now: int)
    ensures Passes(w, opts, c, now) <==>
              && !(c.job in opts.exclude)
              && (forall o :: o in c.origins ==>
                    o in c.verified || exists public :: c.publicOrigins == Some(public) && o in public)
              && !(c.payout < opts.minPayout)
              && (forall tag :: opts.capability == Some(tag) && tag != "" ==> Needs(c, tag))
              && (forall can :: opts.supported == Some(can) ==> forall tag :: Needs(c, tag) ==> tag in can && tag != "")
              && (opts.supported.None? && w.browserOff ==> !Needs(c, "browser"))
              && (forall born :: c.freshnessSec > 0 && c.createdAt == Some(born) && born != 0 ==>
                    now <= born + 1000 * c.freshnessSec)
  {
    forall tag
      ensures tag in TagsOf(c) <==> Needs(c, tag)
    {
    }
    hide TagsOf;
  }

  /** A priority step is worth 100000, a cent of payout 1 less up to 0.2 for duplicates; a proof costs up to 500. */
  lemma ScoreMoves(w: WorkerInfo, c: Candidate)
    ensures Score(w, c.(priority := c.priority + 1)) == Score(w, c) + 100_000.0
    ensures Score(w, c.(payout := c.payout + 1)) == Score(w, c) + 1.0 - 0.2 * w.duplicateRate
    ensures Score(w, c.(proofs := c.proofs + 1)) == Score(w, c) - 500.0 * (1.0 - w.passRate)
    ensures c.priority == 0 && c.payout == 0 && c.proofs == 0 ==> Score(w, c) == 0.0
  {
    OneMore(c.proofs, 1.0 - w.passRate);
    OneMore(c.payout, w.duplicateRate);
  }

  lemma OneMore(n: nat, f: real)
    ensures (n + 1) as real * f == n as real * f + f
  {
  }

  // ----- when priority decides -----

  ghost predicate Rates(w: WorkerInfo) {
    0.0 < w.passRate < 1.0 && 0.0 <= w.duplicateRate <= 1.0
  }

  /** Payouts and required proofs are within the bounds. */
  predicate Bounded(c: Candidate, payout: nat, proofs: nat) {
    c.payout <= payout && c.proofs <= proofs
  }

  lemma ScoreRange(w: WorkerInfo, c: Candidate, payout: nat, proofs: nat)
    requires Rates(w) && Bounded(c, payout, proofs)
    ensures Score(w, c) <= (c.priority * 100_000 + payout) as real
    ensures Score(w, c) >= (c.priority * 100_000) as real - ComplexityPenalty(proofs, w.passRate)
  {
    ComplexityRange(c.proofs, proofs, w.passRate);
    DuplicateRange(c.payout, w.duplicateRate);
    hide ComplexityPenalty, DuplicatePenalty;
  }

  lemma ComplexityRange(proofs: nat, most: nat, passRate: real)
    requires proofs <= most && passRate <= 1.0
    ensures 0.0 <= ComplexityPenalty(proofs, passRate) <= ComplexityPenalty(most, passRate)
  {
    var low := 1.0 - passRate;
    ScalesUp(proofs as real, most as real, low);
    ScalesUp(0.0, proofs as real, low);
  }

  lemma DuplicateRange(payout: nat, rate: real)
    requires 0.0 <= rate <= 1.0
    ensures 0.0 <= DuplicatePenalty(payout, rate) <= payout as real
  {
    ScalesUp(0.0, payout as real, rate);
    ScalesDown(payout as real, rate);
  }

  lemma ScalesUp(a: real, b: real, f: real)
    requires a <= b && f >= 0.0
    ensures a * f <= b * f
  {
    assert (b - a) * f >= 0.0;
    assert (b - a) * f == b * f - a * f;
  }

  lemma ScalesDown(a: real, f: real)
    requires 0.0 <= a && f <= 1.0
    ensures a * f <= a
  {
    ScalesUp(f, 1.0, a);
  }

  /** Every candidate of higher priority beats every one of lower priority, for every worker. */
  ghost predicate PriorityDecides(payout: nat, proofs: nat) {
    forall w, hi: Candidate, lo: Candidate {:trigger Score(w, hi), Score(w, lo)} ::
      Rates(w) && Bounded(hi, payout, proofs) && Bounded(lo, payout, proofs) && hi.priority > lo.priority ==>
        Score(w, hi) > Score(w, lo)
  }

  /** Among payouts up to payout and proofs up to proofs, priority decides exactly within this bound. */
  predicate SmallEnough(payout: nat, proofs: nat) {
    payout + 500 * proofs < 100_000 || (payout + 500 * proofs == 100_000 && proofs > 0)
  }

  lemma SmallEnoughDecides(payout: nat, proofs: nat, w: WorkerInfo, hi: Candidate, lo: Candidate)
    requires SmallEnough(payout, proofs) && Rates(w)
    requires Bounded(hi, payout, proofs) && Bounded(lo, payout, proofs) && hi.priority > lo.priority
    ensures Score(w, hi) > Score(w, lo)
  {
    ScoreRange(w, hi, payout, proofs);
    ScoreRange(w, lo, payout, proofs);
    hide Score, ComplexityPenalty;
    ProofsCost(proofs, w.passRate);
  }

  lemma ProofsCost(proofs: nat, rate: real)
    requires 0.0 < rate < 1.0
    ensures ComplexityPenalty(proofs, rate) == (500 * proofs) as real - 500.0 * (proofs as real * rate)
    ensures proofs > 0 ==> proofs as real * rate > 0.0
  {
  }

  function Plain(job: nat, priority: int, payout: nat, proofs: nat): Candidate {
    Candidate(job, [], None, {}, [], 0, None, priority, payout, proofs)
  }

  /** Past the bound there are a worker and two candidates for which the lower priority is not beaten. */
  lemma TooLargeDoesNotDecide(payout: nat, proofs: nat) returns (w: WorkerInfo, hi: Candidate, lo: Candidate)
    requires !SmallEnough(payout, proofs)
    ensures Rates(w) && Bounded(hi, payout, proofs) && Bounded(lo, payout, proofs) && hi.priority > lo.priority
    ensures Score(w, hi) <= Score(w, lo)
  {
    hi, lo := Plain(0, 1, 0, proofs), Plain(1, 0, payout, 0);
    var rate: real;
    if payout >= 100_000 {
      rate := 0.5;
    } else {
      var over := (payout + 500 * proofs - 100_000) as real;
      rate := over / (2.0 * (500 * proofs) as real);
      Halved(over, (500 * proofs) as real);
    }
    w := WorkerInfo(false, rate, 0.0);
    ProofsCost(proofs, rate);
    assert Score(w, hi) == 100_000.0 - ComplexityPenalty(proofs, rate);
    assert Score(w, lo) == payout as real;
    if payout < 100_000 {
      assert 500.0 * (proofs as real * rate) == (500 * proofs) as real * rate;
    }
  }

  lemma Halved(x: real, n: real)
    requires 0.0 < x <= n
    ensures var r := x / (2.0 * n); 0.0 < r < 1.0 && n * r == x / 2.0
  {
    var r := x / (2.0 * n);
    assert r * (2.0 * n) == x;
    assert r > 0.0;
    assert r < 1.0 by {
      if r >= 1.0 {
        ScalesUp(1.0, r, 2.0 * n);
      }
    }
  }

  lemma PriorityDecidesIff(payout: nat, proofs: nat)
    ensures PriorityDecides(payout, proofs) <==> SmallEnough(payout, proofs)
  {
    if SmallEnough(payout, proofs) {
      forall w, hi: Candidate, lo: Candidate {:trigger Score(w, hi), Score(w, lo)} |
        Rates(w) && Bounded(hi, payout, proofs) && Bounded(lo, payout, proofs) && hi.priority > lo.priority
        ensures Score(w, hi) > Score(w, lo)
      {
        SmallEnoughDecides(payout, proofs, w, hi, lo);
      }
    } else {
      var w, hi, lo := TooLargeDoesNotDecide(payout, proofs);
    }
  }

  /** Within the bound the job offered has the highest priority of all that pass. */
  lemma OfferedHasTopPriority(
    w: WorkerInfo, opts: Options, cs: seq<Candidate>, now: int, k: nat, i: nat, payout: nat, proofs: nat)
    requires Rates(w) && SmallEnough(payout, proofs) && FirstBest(w, opts, cs, now, k)
    requires forall n :: 0 <= n < |cs| ==> Bounded(cs[n], payout, proofs)
    requires i < |cs| && Passes(w, opts, cs[i], now)
    ensures cs[i].priority <= cs[k].priority
  {
    if cs[i].priority > cs[k].priority {
      SmallEnoughDecides(payout, proofs, w, cs[i], cs[k]);
    }
  }
}
