/**
 The submit handler write by write. Its process may die after any write; the
 worker then sends the request again with the same Idempotency-Key.
 */
module SubmitRetry {
  import opened Common
  import W = Work

  /** The tables, the submissions whose artifacts are attached, and the verification events (submission, attempt). */
  datatype Site = Site(t: W.Tables, attached: set<nat>, events: set<(nat, nat)>)

  datatype Write =
    | InsertSubmission(job: nat, worker: nat, req: W.Request)
    | Attach(submission: nat)
    | InsertAttempt(submission: nat)
    | EnqueueAttempt(submission: nat)
    | PutJob(job: nat, row: W.Job)

  function Apply(site: Site, w: Write): Site {
    match w
    case InsertSubmission(j, worker, req) => site.(t := W.Insert(site.t, j, worker, req))
    case Attach(x) => site.(attached := site.attached + {x})
    case InsertAttempt(x) => site.(t := W.AddAttempt(site.t, x, 1))
    case EnqueueAttempt(x) => site.(events := site.events + {(x, 1)})
    case PutJob(j, row) => if j < |site.t.jobs| then site.(t := site.t.(jobs := site.t.jobs[j := row])) else site
  }

  function After(site: Site, ws: seq<Write>, n: nat): Site
    requires n <= |ws|
  {
    if n == 0 then site else Apply(After(site, ws, n - 1), ws[n - 1])
  }

  function FirstAttempt(site: Site, x: nat): seq<Write> {
    if !W.HasAttempt(site.t, x, 1) then [InsertAttempt(x), EnqueueAttempt(x)]
    else if site.t.attempts[x][1].status == W.Queued then [EnqueueAttempt(x)] else []
  }

  function PointTo(job: W.Job, j: nat, x: nat): seq<Write> {
    if job.status in {W.Claimed, W.Open} then [PutJob(j, job.(status := W.Verifying, current := Some(x)))]
    else if job.current.None? then [PutJob(j, job.(current := Some(x)))] else []
  }

  /** The writes after an earlier call with this key inserted submission x. */
  function Resumed(site: Site, j: nat, x: nat, req: W.Request): seq<Write>
    requires j < |site.t.jobs| && x < |site.t.submissions|
  {
    var job := site.t.jobs[j];
    if site.t.submissions[x].hash != req.hash || !req.artifactsOk then []
    else
      [Attach(x)] + FirstAttempt(site, x) + PointTo(job, j, x)
  }

  function FirstTime(site: Site, worker: nat, j: nat, req: W.Request): seq<Write>
    requires j < |site.t.jobs|
  {
    var x, job := |site.t.submissions|, site.t.jobs[j];
    if req.stale || !req.originOk then []
    else if !req.artifactsOk then [InsertSubmission(j, worker, req)]
    else if req.duplicate then
      [InsertSubmission(j, worker, req), Attach(x),
       PutJob(j, job.(current := Some(x), status := W.Done, verdict := Some(W.Fail)))]
    else
      [InsertSubmission(j, worker, req), Attach(x), InsertAttempt(x), EnqueueAttempt(x),
       PutJob(j, job.(current := Some(x), status := W.Verifying))]
  }

  /** All the writes of one call of the handler. */
  function Writes(site: Site, worker: nat, j: nat, req: W.Request, now: int): seq<Write> {
    if j >= |site.t.jobs| || !W.HoldsLease(site.t.jobs[j], worker) || W.LeasePast(site.t.jobs[j], now)
       || |req.key| > 200 then []
    else if && site.t.jobs[j].current.Some?
            && site.t.jobs[j].current.value < |site.t.submissions|
            && site.t.submissions[site.t.jobs[j].current.value].worker == worker then []
    else if W.KnownKey(site.t, worker, j, req.key) then Resumed(site, j, site.t.byKey[(j, worker, req.key)], req)
    else FirstTime(site, worker, j, req)
  }

  /** One call whose process dies after k writes, if it does not come to its end before. */
  function Call(site: Site, worker: nat, j: nat, req: W.Request, now: int, k: nat): Site {
    var ws := Writes(site, worker, j, req, now);
    After(site, ws, Min(k, |ws|))
  }

  /** A call that comes to its end. */
  function Whole(site: Site, worker: nat, j: nat, req: W.Request, now: int): Site {
    var ws := Writes(site, worker, j, req, now);
    After(site, ws, |ws|)
  }

  lemma {:induction false} Prefix(site: Site, ws: seq<Write>, more: seq<Write>, n: nat)
    requires n <= |ws|
    ensures After(site, ws + more, n) == After(site, ws, n)
  {
    if n > 0 {
      Prefix(site, ws, more, n - 1);
    }
  }

  /** After, written out for the few writes a call makes. */
  lemma FewWrites(site: Site, ws: seq<Write>)
    ensures After(site, ws, 0) == site
    ensures |ws| > 0 ==> After(site, ws, 1) == Apply(site, ws[0])
    ensures |ws| > 1 ==> After(site, ws, 2) == Apply(After(site, ws, 1), ws[1])
    ensures |ws| > 2 ==> After(site, ws, 3) == Apply(After(site, ws, 2), ws[2])
    ensures |ws| > 3 ==> After(site, ws, 4) == Apply(After(site, ws, 3), ws[3])
    ensures |ws| > 4 ==> After(site, ws, 5) == Apply(After(site, ws, 4), ws[4])
  {
    hide Apply;
  }

  // ----- an uninterrupted call is the atomic handler -----

  lemma RowsStay(t: W.Tables, j: nat, worker: nat, req: W.Request, x: nat)
    ensures W.Insert(t, j, worker, req).jobs == t.jobs
    ensures W.AddAttempt(t, x, 1).jobs == t.jobs && W.AddAttempt(t, x, 1).submissions == t.submissions
  {
  }

  /** The writes of a first call that finds a duplicate. */
  lemma DuplicateWrites(site: Site, worker: nat, j: nat, req: W.Request, job: W.Job)
    requires j < |site.t.jobs|
    ensures var x, t1 := |site.t.submissions|, W.Insert(site.t, j, worker, req);
            After(site, [InsertSubmission(j, worker, req), Attach(x), PutJob(j, job)], 3).t
            == t1.(jobs := t1.jobs[j := job])
  {
    var x := |site.t.submissions|;
    RowsStay(site.t, j, worker, req, x);
    hide W.Insert, After;
    FewWrites(site, [InsertSubmission(j, worker, req), Attach(x), PutJob(j, job)]);
  }

  /** The writes of a first call that is to be verified. */
  lemma AcceptedWrites(site: Site, worker: nat, j: nat, req: W.Request, job: W.Job)
    requires j < |site.t.jobs|
    ensures var x := |site.t.submissions|;
            var t1 := W.AddAttempt(W.Insert(site.t, j, worker, req), x, 1);
            After(site, [InsertSubmission(j, worker, req), Attach(x), InsertAttempt(x), EnqueueAttempt(x),
                         PutJob(j, job)], 5).t
            == t1.(jobs := t1.jobs[j := job])
  {
    var x := |site.t.submissions|;
    RowsStay(site.t, j, worker, req, x);
    RowsStay(W.Insert(site.t, j, worker, req), j, worker, req, x);
    hide W.Insert, W.AddAttempt, After;
    FewWrites(site, [InsertSubmission(j, worker, req), Attach(x), InsertAttempt(x), EnqueueAttempt(x), PutJob(j, job)]);
  }

  lemma FirstTimeIsFresh(site: Site, worker: nat, j: nat, req: W.Request)
    requires j < |site.t.jobs|
    ensures var ws := FirstTime(site, worker, j, req);
            After(site, ws, |ws|).t == W.SubmitFresh(site.t, worker, j, req).t
  {
    var x, job := |site.t.submissions|, site.t.jobs[j];
    RowsStay(site.t, j, worker, req, x);
    RowsStay(W.Insert(site.t, j, worker, req), j, worker, req, x);
    FewWrites(site, FirstTime(site, worker, j, req));
    hide W.Insert, W.AddAttempt, After;
    if !req.stale && req.originOk && req.artifactsOk {
      hide Apply;
      if req.duplicate {
        DuplicateWrites(site, worker, j, req, job.(current := Some(x), status := W.Done, verdict := Some(W.Fail)));
      } else {
        AcceptedWrites(site, worker, j, req, job.(current := Some(x), status := W.Verifying));
      }
    }
  }

  /** Two stretches of writes, one after the other. */
  lemma {:induction false} InTurn(site: Site, a: seq<Write>, b: seq<Write>)
    ensures After(site, a + b, |a + b|) == After(After(site, a, |a|), b, |b|)
    decreases |b|
  {
    hide After, Apply;
    if b == [] {
      assert a + b == a;
      Nothing(After(site, a, |a|));
    } else {
      var c, w := b[..|b| - 1], b[|b| - 1];
      assert b == c + [w];
      assert a + b == (a + c) + [w];
      InTurn(site, a, c);
      OneMore(site, a + c, w);
      OneMore(After(site, a, |a|), c, w);
    }
  }

  lemma {:induction false} OneMore(site: Site, ws: seq<Write>, w: Write)
    ensures After(site, ws + [w], |ws| + 1) == Apply(After(site, ws, |ws|), w)
  {
    hide Apply;
    Prefix(site, ws, [w], |ws|);
    assert (ws + [w])[|ws|] == w;
  }

  lemma FirstAttemptAdds(site: Site, x: nat)
    ensures var ws := FirstAttempt(site, x);
            After(site, ws, |ws|) ==
            site.(t := if W.HasAttempt(site.t, x, 1) then site.t else W.AddAttempt(site.t, x, 1),
                  events := if ws == [] then site.events else site.events + {(x, 1)})
  {
    FewWrites(site, FirstAttempt(site, x));
    hide After;
  }

  /** The job row once it points at submission x. */
  function Pointed(job: W.Job, x: nat): W.Job {
    if job.status in {W.Claimed, W.Open} then job.(status := W.Verifying, current := Some(x))
    else if job.current.None? then job.(current := Some(x))
    else job
  }

  lemma PointToPuts(site: Site, j: nat, x: nat)
    requires j < |site.t.jobs|
    ensures var ws := PointTo(site.t.jobs[j], j, x);
            After(site, ws, |ws|) == site.(t := site.t.(jobs := site.t.jobs[j := Pointed(site.t.jobs[j], x)]))
  {
    FewWrites(site, PointTo(site.t.jobs[j], j, x));
    hide After;
    assert site.t.jobs[j := site.t.jobs[j]] == site.t.jobs;
  }

  /** What all the writes of a retry come to. */
  lemma ResumedEnds(site: Site, j: nat, x: nat, req: W.Request)
    requires j < |site.t.jobs| && x < |site.t.submissions| && site.t.submissions[x].hash == req.hash && req.artifactsOk
    ensures var ws := Resumed(site, j, x, req);
            var t1 := if W.HasAttempt(site.t, x, 1) then site.t else W.AddAttempt(site.t, x, 1);
            && j < |t1.jobs| && t1.jobs == site.t.jobs
            && After(site, ws, |ws|) ==
               Site(t1.(jobs := t1.jobs[j := Pointed(t1.jobs[j], x)]),
                    site.attached + {x},
                    if FirstAttempt(site, x) == [] then site.events else site.events + {(x, 1)})
  {
    ResumedInTurn(site, j, x, req);
    hide Resumed, After;
    var s1 := site.(attached := site.attached + {x});
    assert FirstAttempt(s1, x) == FirstAttempt(site, x);
    FirstAttemptAdds(s1, x);
    RowsStay(site.t, j, 0, req, x);
    hide FirstAttempt, PointTo, Pointed, W.AddAttempt, W.HasAttempt;
    var a := FirstAttempt(site, x);
    PointToPuts(After(s1, a, |a|), j, x);
  }

  lemma ResumedInTurn(site: Site, j: nat, x: nat, req: W.Request)
    requires j < |site.t.jobs| && x < |site.t.submissions| && site.t.submissions[x].hash == req.hash && req.artifactsOk
    ensures var ws, s1 := Resumed(site, j, x, req), site.(attached := site.attached + {x});
            var a, b := FirstAttempt(site, x), PointTo(site.t.jobs[j], j, x);
            After(site, ws, |ws|) == After(After(s1, a, |a|), b, |b|)
  {
    var s1 := site.(attached := site.attached + {x});
    var a, b := FirstAttempt(site, x), PointTo(site.t.jobs[j], j, x);
    assert Resumed(site, j, x, req) == [Attach(x)] + a + b;
    FewWrites(site, [Attach(x)]);
    assert After(site, [Attach(x)], 1) == s1;
    hide Apply, After, FirstAttempt, PointTo, Resumed;
    InTurn(site, [Attach(x)], a);
    InTurn(site, [Attach(x)] + a, b);
  }

  lemma ResumedIsResume(site: Site, j: nat, x: nat, req: W.Request)
    requires j < |site.t.jobs| && x < |site.t.submissions|
    ensures var ws := Resumed(site, j, x, req);
            After(site, ws, |ws|).t == W.Resume(site.t, j, x, req).t
  {
    if site.t.submissions[x].hash == req.hash && req.artifactsOk {
      ResumedEnds(site, j, x, req);
      hide After, Resumed, FirstAttempt, W.AddAttempt, W.HasAttempt;
    } else {
      Nothing(site);
    }
  }

  /** Uninterrupted, the writes leave the tables as the atomic submit does. */
  lemma WholeIsSubmit(site: Site, worker: nat, j: nat, req: W.Request, now: int)
    ensures Whole(site, worker, j, req, now).t == W.Submit(site.t, worker, j, req, now).t
  {
    hide After, FirstTime, Resumed, W.SubmitFresh, W.Resume;
    if j < |site.t.jobs| && W.HoldsLease(site.t.jobs[j], worker) && !W.LeasePast(site.t.jobs[j], now)
      && |req.key| <= 200 {
      if W.KnownKey(site.t, worker, j, req.key) {
        ResumedIsResume(site, j, site.t.byKey[(j, worker, req.key)], req);
      } else {
        FirstTimeIsFresh(site, worker, j, req);
      }
    }
    assert After(site, [], 0) == site by {
      Nothing(site);
    }
  }

  lemma Nothing(site: Site)
    ensures After(site, [], 0) == site
  {
  }

  // ----- interrupted calls -----

  /** A request the worker repeats: what stays the same about it each time it arrives. */
  predicate Same(a: W.Request, b: W.Request) {
    a.key == b.key && a.hash == b.hash && a.originOk == b.originOk && a.duplicate == b.duplicate
  }

  /** The worker holds the job's lease, the job has no submission, and the key is a new one. */
  predicate Begins(site: Site, worker: nat, j: nat, req: W.Request) {
    && j < |site.t.jobs| && site.t.jobs[j].status == W.Claimed && site.t.jobs[j].current.None?
    && W.HoldsLease(site.t.jobs[j], worker)
    && 0 < |req.key| <= 200 && (j, worker, req.key) !in site.t.byKey
    && |site.t.submissions| !in site.t.attempts
  }

  /** The request is in order: nothing about it makes the handler refuse it, and it is no duplicate. */
  predicate InOrder(req: W.Request) {
    !req.stale && req.originOk && req.artifactsOk && !req.duplicate
  }

  /** The site once the first n of the five writes are in. */
  function Stage(site: Site, worker: nat, j: nat, req: W.Request, n: nat): Site
    requires j < |site.t.jobs|
  {
    var x, t := |site.t.submissions|, site.t;
    var t1 := if n < 1 then t else W.Insert(t, j, worker, req);
    var t3 := if n < 3 then t1 else t1.(attempts := t.attempts[x := map[1 := W.NEW_ATTEMPT]]);
    var t5 := if n < 5 then t3
              else t3.(jobs := t.jobs[j := t.jobs[j].(current := Some(x), status := W.Verifying)]);
    Site(t5,
         if n < 2 then site.attached else site.attached + {x},
         if n < 4 then site.events else site.events + {(x, 1)})
  }

  lemma FirstCall(site: Site, worker: nat, j: nat, req: W.Request, again: W.Request, now: int, k: nat)
    requires Begins(site, worker, j, req) && InOrder(req) && Same(req, again) && !W.LeasePast(site.t.jobs[j], now)
    ensures Call(site, worker, j, again, now, k) ==
            Stage(site, worker, j, req, if again.stale then 0 else Min(k, if again.artifactsOk then 5 else 1))
  {
    FewWrites(site, Writes(site, worker, j, again, now));
    hide After;
    assert Stage(site, worker, j, req, 0) == site;
  }

  /** What a later call finds and does at each stage. */
  lemma LaterWrites(site: Site, worker: nat, j: nat, req: W.Request, again: W.Request, now: int, n: nat)
    requires Begins(site, worker, j, req) && InOrder(req) && Same(req, again) && !W.LeasePast(site.t.jobs[j], now)
    requires 1 <= n <= 5
    ensures var x := |site.t.submissions|;
            var put := PutJob(j, site.t.jobs[j].(status := W.Verifying, current := Some(x)));
            Writes(Stage(site, worker, j, req, n), worker, j, again, now) ==
            if n == 5 || !again.artifactsOk then []
            else if n < 3 then [Attach(x), InsertAttempt(x), EnqueueAttempt(x), put]
            else [Attach(x), EnqueueAttempt(x), put]
  {
  }

  lemma LaterCall(site: Site, worker: nat, j: nat, req: W.Request, again: W.Request, now: int, n: nat, k: nat)
    requires Begins(site, worker, j, req) && InOrder(req) && Same(req, again) && !W.LeasePast(site.t.jobs[j], now)
    requires 1 <= n <= 5
    ensures Call(Stage(site, worker, j, req, n), worker, j, again, now, k) ==
            Stage(site, worker, j, req,
                  if n == 5 || !again.artifactsOk then n
                  else if n < 3 then Max(n, 1 + Min(k, 4)) else Max(n, 2 + Min(k, 3)))
  {
    var site1 := Stage(site, worker, j, req, n);
    LaterWrites(site, worker, j, req, again, now, n);
    FewWrites(site1, Writes(site1, worker, j, again, now));
    hide After, Writes;
  }

  /** One interrupted call: what it found out about the request, when, and after how many writes it died. */
  datatype Try = Try(stale: bool, artifactsOk: bool, now: int, k: nat)

  function Asked(req: W.Request, a: Try): W.Request {
    req.(stale := a.stale, artifactsOk := a.artifactsOk)
  }

  function Tried(site: Site, worker: nat, j: nat, req: W.Request, tries: seq<Try>): Site {
    if tries == [] then site
    else
      var n := |tries| - 1;
      Call(Tried(site, worker, j, req, tries[..n]), worker, j, Asked(req, tries[n]), tries[n].now, tries[n].k)
  }

  ghost predicate LeaseLives(site: Site, j: nat, tries: seq<Try>, now: int)
    requires j < |site.t.jobs|
  {
    !W.LeasePast(site.t.jobs[j], now) && forall i :: 0 <= i < |tries| ==> !W.LeasePast(site.t.jobs[j], tries[i].now)
  }

  /** However many calls die, and wherever, the site is at one of the stages. */
  lemma {:induction false} TriedReachesStage(site: Site, worker: nat, j: nat, req: W.Request, tries: seq<Try>)
    returns (n: nat)
    requires Begins(site, worker, j, req) && InOrder(req)
    requires forall i :: 0 <= i < |tries| ==> !W.LeasePast(site.t.jobs[j], tries[i].now)
    ensures n <= 5 && Tried(site, worker, j, req, tries) == Stage(site, worker, j, req, n)
    decreases |tries|
  {
    if tries == [] {
      n := 0;
    } else {
      var last := tries[|tries| - 1];
      hide Call, Begins, InOrder;
      var m := TriedReachesStage(site, worker, j, req, tries[..|tries| - 1]);
      if m == 0 {
        FirstCall(site, worker, j, req, Asked(req, last), last.now, last.k);
        n := if last.stale then 0 else Min(last.k, if last.artifactsOk then 5 else 1);
      } else {
        LaterCall(site, worker, j, req, Asked(req, last), last.now, m, last.k);
        n := if m == 5 || !last.artifactsOk then m
             else if m < 3 then Max(m, 1 + Min(last.k, 4)) else Max(m, 2 + Min(last.k, 3));
      }
    }
  }

  lemma StageZero(site: Site, worker: nat, j: nat, req: W.Request)
    requires j < |site.t.jobs|
    ensures Stage(site, worker, j, req, 0) == site
  {
  }

  lemma WholeIsCall(site: Site, worker: nat, j: nat, req: W.Request, now: int)
    ensures Whole(site, worker, j, req, now) == Call(site, worker, j, req, now, ALL)
  {
    hide After;
  }

  const ALL := 5

  /**
   The retry heals every crash window: after any number of calls that died after any
   write, one call that comes to its end leaves exactly what a single uninterrupted call
   would have left.
   */
  lemma RetryHeals(site: Site, worker: nat, j: nat, req: W.Request, tries: seq<Try>, now: int)
    requires Begins(site, worker, j, req) && InOrder(req) && LeaseLives(site, j, tries, now)
    ensures Whole(Tried(site, worker, j, req, tries), worker, j, req, now) == Whole(site, worker, j, req, now)
    ensures Whole(site, worker, j, req, now) == Stage(site, worker, j, req, 5)
  {
    var n := TriedReachesStage(site, worker, j, req, tries);
    WholeIsCall(Tried(site, worker, j, req, tries), worker, j, req, now);
    WholeIsCall(site, worker, j, req, now);
    hide Call, Whole, Stage, Tried, Begins, InOrder;
    FirstCall(site, worker, j, req, req, now, ALL);
    if n == 0 {
      StageZero(site, worker, j, req);
    } else {
      LaterCall(site, worker, j, req, req, now, n, ALL);
    }
  }

  // ----- duplicates are the exception -----

  lemma DuplicateCall(site: Site, worker: nat, j: nat, req: W.Request, now: int, k: nat)
    requires Begins(site, worker, j, req) && InOrder(req.(duplicate := false)) && req.duplicate
    requires !W.LeasePast(site.t.jobs[j], now)
    ensures var x := |site.t.submissions|;
            var t := W.Insert(site.t, j, worker, req);
            Call(site, worker, j, req, now, k) ==
            if k == 0 then site
            else if k == 1 then site.(t := t)
            else if k == 2 then Site(t, site.attached + {x}, site.events)
            else Site(t.(jobs := t.jobs[j :=
                                   t.jobs[j].(current := Some(x), status := W.Done, verdict := Some(W.Fail))]),
                      site.attached + {x}, site.events)
  {
    FewWrites(site, Writes(site, worker, j, req, now));
    hide After;
  }

  lemma DuplicateRetry(site: Site, worker: nat, j: nat, req: W.Request, now: int, k: nat)
    requires Begins(site, worker, j, req) && InOrder(req.(duplicate := false)) && req.duplicate
    requires !W.LeasePast(site.t.jobs[j], now) && k > 0
    ensures var was := Call(site, worker, j, req, now, k);
            var end := Whole(was, worker, j, req, now);
            && (k >= 3 ==> end == was)
            && (k < 3 ==> j < |end.t.jobs| && end.t.jobs[j].status == W.Verifying)
  {
    var was := Call(site, worker, j, req, now, k);
    DuplicateCall(site, worker, j, req, now, k);
    hide Call;
    FewWrites(was, Writes(was, worker, j, req, now));
    hide After;
  }

  /**
   A duplicate ends the job at once when its call is not interrupted. Interrupted between
   inserting the submission and ending the job, it is verified like any other: for exactly
   these crashes the retry does not heal.
   */
  lemma RetryHealsIff(site: Site, worker: nat, j: nat, req: W.Request, now: int, k: nat)
    requires Begins(site, worker, j, req) && InOrder(req.(duplicate := false)) && !W.LeasePast(site.t.jobs[j], now)
    ensures Whole(Call(site, worker, j, req, now, k), worker, j, req, now) == Whole(site, worker, j, req, now)
            <==> !req.duplicate || k == 0 || k >= 3
  {
    if req.duplicate {
      WholeIsCall(site, worker, j, req, now);
      DuplicateCall(site, worker, j, req, now, ALL);
      DuplicateCall(site, worker, j, req, now, k);
      if k > 0 {
        DuplicateRetry(site, worker, j, req, now, k);
      }
      hide Call, Whole;
    } else {
      var a := Try(req.stale, req.artifactsOk, now, k);
      assert Tried(site, worker, j, req, []) == site;
      assert [a][..0] == [];
      assert Asked(req, a) == req;
      assert Tried(site, worker, j, req, [a]) == Call(site, worker, j, req, now, k);
      hide Call, Whole, Tried;
      RetryHeals(site, worker, j, req, [a], now);
    }
  }

  // ----- verdicts that land in between -----

  /** The verifier may pick up the submission as soon as its first attempt exists. */
  datatype Event =
    | Interrupted(a: Try)
    | VerifierClaims(n: nat, ttl: int, now: int)
    | VerdictLands(n: nat, token: nat, verdict: W.Verdict, now: int)

  function Happen(site: Site, worker: nat, j: nat, req: W.Request, x: nat, e: Event): Site {
    match e
    case Interrupted(a) => Call(site, worker, j, Asked(req, a), a.now, a.k)
    case VerifierClaims(n, ttl, now) => site.(t := W.VerifierClaim(site.t, x, n, ttl, now).t)
    case VerdictLands(n, token, v, now) =>
      var out := W.GiveVerdict(site.t, x, n, token, v, now);
      site.(t := out.t,
            events := if out.reply == W.Requeued then site.events + {(x, W.MaxAttempt(out.t.attempts[x]))}
                      else site.events)
  }

  function Happened(site: Site, worker: nat, j: nat, req: W.Request, x: nat, es: seq<Event>): Site {
    if es == [] then site
    else Happen(Happened(site, worker, j, req, x, es[..|es| - 1]), worker, j, req, x, es[|es| - 1])
  }

  ghost predicate LeaseLivesIn(site: Site, j: nat, es: seq<Event>)
    requires j < |site.t.jobs|
  {
    forall i :: 0 <= i < |es| && es[i].Interrupted? ==> !W.LeasePast(site.t.jobs[j], es[i].a.now)
  }

  /** The first attempt exists, its event too unless a verifier already has it, and the artifacts are attached. */
  predicate Underway(site: Site, x: nat) {
    && x in site.attached
    && W.HasAttempt(site.t, x, 1)
    && (site.t.attempts[x][1].status == W.Queued ==> (x, 1) in site.events)
  }

  /** Submission x is the one this request inserted; the job points at it at most once it is under way. */
  ghost predicate Inserted(was: Site, site: Site, worker: nat, j: nat, req: W.Request)
    requires j < |was.t.jobs|
  {
    var x := |was.t.submissions|;
    && |site.t.submissions| == x + 1
    && site.t.submissions[x].job == j && site.t.submissions[x].worker == worker
    && site.t.submissions[x].hash == req.hash
    && site.t.byKey == was.t.byKey[(j, worker, req.key) := x]
    && |site.t.jobs| == |was.t.jobs|
    && site.t.jobs[j].lease == was.t.jobs[j].lease
    && site.t.jobs[j].status in {W.Claimed, W.Verifying, W.Done}
    && (site.t.jobs[j].current == None || site.t.jobs[j].current == Some(x))
    && (site.t.jobs[j].current == Some(x) ==> Underway(site, x) && site.t.jobs[j].status != W.Claimed)
  }

  ghost predicate Mixed(was: Site, site: Site, worker: nat, j: nat, req: W.Request)
    requires j < |was.t.jobs|
  {
    site == was || Inserted(was, site, worker, j, req)
  }

  lemma FirstCallInserts(site: Site, worker: nat, j: nat, req: W.Request, again: W.Request, now: int, k: nat)
    requires Begins(site, worker, j, req) && InOrder(req) && Same(req, again) && !W.LeasePast(site.t.jobs[j], now)
    ensures Mixed(site, Call(site, worker, j, again, now, k), worker, j, req)
  {
    FirstCall(site, worker, j, req, again, now, k);
    hide Call;
  }

  /** The write fits where submission x stands: it may be made without breaking Inserted. */
  predicate Fits(site: Site, j: nat, x: nat, w: Write)
    requires j < |site.t.jobs|
  {
    match w
    case InsertSubmission(_, _, _) => false
    case Attach(y) => y == x
    case InsertAttempt(y) => y == x && !W.HasAttempt(site.t, x, 1)
    case EnqueueAttempt(y) => y == x
    case PutJob(i, row) =>
      i == j && site.t.jobs[j].current.None? && row == Pointed(site.t.jobs[j], x) && Underway(site, x)
  }

  lemma WriteKeepsInserted(was: Site, site: Site, worker: nat, j: nat, req: W.Request, w: Write)
    requires j < |was.t.jobs| && Inserted(was, site, worker, j, req) && Fits(site, j, |was.t.submissions|, w)
    ensures Inserted(was, Apply(site, w), worker, j, req)
  {
  }

  /** Each write of a retry fits after the ones before it. */
  lemma ResumedFits(site: Site, j: nat, x: nat, req: W.Request, n: nat)
    requires j < |site.t.jobs| && x < |site.t.submissions| && site.t.jobs[j].current.None?
    requires n < |Resumed(site, j, x, req)|
    ensures j < |After(site, Resumed(site, j, x, req), n).t.jobs|
    ensures Fits(After(site, Resumed(site, j, x, req), n), j, x, Resumed(site, j, x, req)[n])
  {
    FewWrites(site, Resumed(site, j, x, req));
    hide After;
  }

  lemma {:induction false} PartKeepsInserted(was: Site, site: Site, worker: nat, j: nat, req: W.Request, n: nat)
    requires j < |was.t.jobs| && Inserted(was, site, worker, j, req) && site.t.jobs[j].current.None?
    requires n <= |Resumed(site, j, |was.t.submissions|, req)|
    ensures Inserted(was, After(site, Resumed(site, j, |was.t.submissions|, req), n), worker, j, req)
    decreases n
  {
    hide Apply, Resumed, Fits, Inserted;
    if n > 0 {
      InsertedIsThere(was, site, worker, j, req);
      var ws := Resumed(site, j, |was.t.submissions|, req);
      PartKeepsInserted(was, site, worker, j, req, n - 1);
      ResumedFits(site, j, |was.t.submissions|, req, n - 1);
      WriteKeepsInserted(was, After(site, ws, n - 1), worker, j, req, ws[n - 1]);
    }
  }

  lemma InsertedIsThere(was: Site, site: Site, worker: nat, j: nat, req: W.Request)
    requires j < |was.t.jobs| && Inserted(was, site, worker, j, req)
    ensures j < |site.t.jobs| && |was.t.submissions| < |site.t.submissions|
  {
  }

  /** A later call either has nothing to write, or goes on where the submission stands. */
  lemma LaterFinds(was: Site, site: Site, worker: nat, j: nat, req: W.Request, again: W.Request, now: int)
    requires j < |was.t.jobs| && Inserted(was, site, worker, j, req) && Same(req, again)
    requires W.HoldsLease(was.t.jobs[j], worker) && !W.LeasePast(was.t.jobs[j], now) && 0 < |req.key| <= 200
    ensures Writes(site, worker, j, again, now) ==
            if site.t.jobs[j].current.Some? then [] else Resumed(site, j, |was.t.submissions|, again)
  {
    hide Resumed, Underway;
  }

  lemma ResumeKeepsInserted(was: Site, site: Site, worker: nat, j: nat, req: W.Request, again: W.Request, now: int,
                            k: nat)
    requires j < |was.t.jobs| && Inserted(was, site, worker, j, req) && Same(req, again)
    requires W.HoldsLease(was.t.jobs[j], worker) && !W.LeasePast(was.t.jobs[j], now) && 0 < |req.key| <= 200
    ensures Inserted(was, Call(site, worker, j, again, now, k), worker, j, req)
  {
    LaterFinds(was, site, worker, j, req, again, now);
    hide Resumed, After, Writes;
    if site.t.jobs[j].current.None? {
      assert Inserted(was, site, worker, j, again);
      hide Inserted;
      var ws := Resumed(site, j, |was.t.submissions|, again);
      PartKeepsInserted(was, site, worker, j, again, Min(k, |ws|));
      SameInserted(was, After(site, ws, Min(k, |ws|)), worker, j, again, req);
    } else {
      Nothing(site);
    }
  }

  lemma SameInserted(was: Site, site: Site, worker: nat, j: nat, a: W.Request, b: W.Request)
    requires j < |was.t.jobs| && Inserted(was, site, worker, j, a) && a.key == b.key && a.hash == b.hash
    ensures Inserted(was, site, worker, j, b)
  {
  }

  /** What a call that comes to its end leaves, whatever happened before. */
  lemma WholeEnds(was: Site, site: Site, worker: nat, j: nat, req: W.Request, now: int)
    requires Begins(was, worker, j, req) && InOrder(req) && Mixed(was, site, worker, j, req)
    requires !W.LeasePast(was.t.jobs[j], now)
    ensures var x, end := |was.t.submissions|, Whole(site, worker, j, req, now);
            && Inserted(was, end, worker, j, req)
            && end.t.jobs[j].current == Some(x)
            && end.t.jobs[j].status == if site.t.jobs[j].status == W.Done then W.Done else W.Verifying
  {
    var x := |was.t.submissions|;
    if site == was {
      WholeIsCall(site, worker, j, req, now);
      FirstCall(site, worker, j, req, req, now, ALL);
      hide Call, Whole;
    } else {
      LaterFinds(was, site, worker, j, req, req, now);
      hide Writes, Resumed, After;
      if site.t.jobs[j].current.None? {
        ResumedEnds(site, j, x, req);
        var ws := Resumed(site, j, x, req);
        PartKeepsInserted(was, site, worker, j, req, |ws|);
        hide FirstAttempt, Underway, W.HasAttempt, W.AddAttempt;
      } else {
        Nothing(site);
      }
    }
  }

  lemma ClaimKeepsInserted(was: Site, site: Site, worker: nat, j: nat, req: W.Request, n: nat, ttl: int, now: int)
    requires j < |was.t.jobs| && Inserted(was, site, worker, j, req)
    ensures var site1 := Happen(site, worker, j, req, |was.t.submissions|, VerifierClaims(n, ttl, now));
            Inserted(was, site1, worker, j, req)
  {
  }

  lemma VerdictKeepsInserted(
    was: Site, site: Site, worker: nat, j: nat, req: W.Request, n: nat, token: nat, v: W.Verdict, now: int)
    requires j < |was.t.jobs| && Inserted(was, site, worker, j, req)
    ensures var site1 := Happen(site, worker, j, req, |was.t.submissions|, VerdictLands(n, token, v, now));
            Inserted(was, site1, worker, j, req)
  {
    hide W.TakeVerdict, W.MaxAttempt;
    var x := |was.t.submissions|;
    if W.VerdictRefused(site.t, x, n, token, now).None? {
      VerdictEffect(site.t, x, n, v);
      var site1 := Happen(site, worker, j, req, x, VerdictLands(n, token, v, now));
      assert site1.t == W.TakeVerdict(site.t, x, n, v).t && site.events <= site1.events
             && site1.attached == site.attached;
      assert Underway(site, x) ==> Underway(site1, x);
      hide Underway, Happen;
    }
  }

  /** A verdict never brings the first attempt back to the queue, and leaves the rest of its rows in place. */
  lemma VerdictEffect(t: W.Tables, x: nat, n: nat, v: W.Verdict)
    requires W.HasAttempt(t, x, n) && x < |t.submissions| && t.submissions[x].job < |t.jobs|
    ensures var t1, j := W.TakeVerdict(t, x, n, v).t, t.submissions[x].job;
            && |t1.submissions| == |t.submissions| && t1.byKey == t.byKey && |t1.jobs| == |t.jobs|
            && t1.submissions[x] == t.submissions[x].(status := t1.submissions[x].status)
            && t1.jobs[j].lease == t.jobs[j].lease && t1.jobs[j].current == t.jobs[j].current
            && t1.jobs[j].status in {W.Verifying, W.Done}
            && (W.HasAttempt(t, x, 1) ==>
                  && W.HasAttempt(t1, x, 1)
                  && (t1.attempts[x][1].status == W.Queued ==> t.attempts[x][1].status == W.Queued))
  {
    var m: W.Attempts := t.attempts[x][n := t.attempts[x][n].(status := W.Finished, verdict := Some(v))];
    assert n in m;
    W.MaxAttemptIsLargest(m);
    hide W.MaxAttempt;
    assert W.RecordVerdict(t, x, n, v).attempts[x] == m;
    var last := W.MaxAttempt(m);
    assert W.TakeVerdict(t, x, n, v).t.attempts[x] ==
           if v == W.Inconclusive && last < t.maxAttempts then m[last + 1 := W.NEW_ATTEMPT] else m;
    assert W.HasAttempt(t, x, 1) ==> 1 in m && last + 1 != 1;
  }

  lemma VerifierFindsNothing(site: Site, worker: nat, j: nat, req: W.Request, e: Event)
    requires Begins(site, worker, j, req) && !e.Interrupted?
    ensures Happen(site, worker, j, req, |site.t.submissions|, e) == site
  {
  }

  lemma {:induction false} HappenedIsMixed(site: Site, worker: nat, j: nat, req: W.Request, es: seq<Event>)
    requires Begins(site, worker, j, req) && InOrder(req) && LeaseLivesIn(site, j, es)
    ensures Mixed(site, Happened(site, worker, j, req, |site.t.submissions|, es), worker, j, req)
    decreases |es|
  {
    if es != [] {
      var n, e := |es| - 1, es[|es| - 1];
      var mid := Happened(site, worker, j, req, |site.t.submissions|, es[..n]);
      HappenedIsMixed(site, worker, j, req, es[..n]);
      hide Call, Inserted, InOrder, W.VerifierClaim, W.GiveVerdict;
      if e.Interrupted? {
        if mid == site {
          FirstCallInserts(site, worker, j, req, Asked(req, e.a), e.a.now, e.a.k);
        } else {
          ResumeKeepsInserted(site, mid, worker, j, req, Asked(req, e.a), e.a.now, e.a.k);
        }
      } else if mid == site {
        VerifierFindsNothing(site, worker, j, req, e);
      } else {
        match e
        case VerifierClaims(c, ttl, at) => ClaimKeepsInserted(site, mid, worker, j, req, c, ttl, at);
        case VerdictLands(c, token, v, at) => VerdictKeepsInserted(site, mid, worker, j, req, c, token, v, at);
      }
    }
  }

  /**
   Calls die and verdicts land in any order; then one call comes to its end. The job has
   one submission and points at it, its first attempt exists and is either on the queue or
   past it, and a job that was done stays done; any other is being verified.
   */
  lemma RetryAfterVerdict(site: Site, worker: nat, j: nat, req: W.Request, es: seq<Event>, now: int)
    requires Begins(site, worker, j, req) && InOrder(req) && LeaseLivesIn(site, j, es)
             && !W.LeasePast(site.t.jobs[j], now)
    ensures var x := |site.t.submissions|;
            var mid := Happened(site, worker, j, req, x, es);
            var end := Whole(mid, worker, j, req, now);
            && j < |mid.t.jobs| && j < |end.t.jobs|
            && |end.t.submissions| == x + 1 && end.t.submissions[x].job == j
            && end.t.byKey == site.t.byKey[(j, worker, req.key) := x]
            && Underway(end, x)
            && end.t.jobs[j].current == Some(x)
            && end.t.jobs[j].status == if mid.t.jobs[j].status == W.Done then W.Done else W.Verifying
  {
    HappenedIsMixed(site, worker, j, req, es);
    var mid := Happened(site, worker, j, req, |site.t.submissions|, es);
    WholeEnds(site, mid, worker, j, req, now);
    hide Whole, Happened, Underway;
  }

  // ----- the handler -----

  lemma {:induction false} CutStays(site: Site, ws: seq<Write>, w: Write, k: nat)
    ensures After(site, ws + [w], Min(k, |ws| + 1)) ==
            if k <= |ws| then After(site, ws, k) else Apply(After(site, ws, |ws|), w)
  {
    if k <= |ws| {
      Prefix(site, ws, [w], k);
    } else {
      Prefix(site, ws, [w], |ws|);
    }
  }

  /** The handler on its tables; its process may die after a given number of writes. */
  class Handler {
    var t: W.Tables
    var attached: set<nat>
    var events: set<(nat, nat)>

    ghost function State(): Site
      reads this
    {
      Site(t, attached, events)
    }

    constructor (site: Site)
      ensures State() == site
    {
      t, attached, events := site.t, site.attached, site.events;
    }

    /** One write, unless the process is dead by now. */
    method Do(w: Write, left: nat, ghost was: Site, ghost done: seq<Write>, ghost lives: nat)
      returns (rest: nat, ghost all: seq<Write>)
      requires State() == After(was, done, Min(lives, |done|)) && left == Max(0, lives - |done|)
      modifies this
      ensures all == done + [w]
      ensures State() == After(was, all, Min(lives, |all|)) && rest == Max(0, lives - |all|)
    {
      CutStays(was, done, w, lives);
      rest, all := left, done + [w];
      if left > 0 {
        rest := left - 1;
        match w
        case InsertSubmission(j, worker, req) => t := W.Insert(t, j, worker, req);
        case Attach(x) => attached := attached + {x};
        case InsertAttempt(x) => t := W.AddAttempt(t, x, 1);
        case EnqueueAttempt(x) => events := events + {(x, 1)};
        case PutJob(j, row) =>
          if j < |t.jobs| {
            t := t.(jobs := t.jobs[j := row]);
          }
      }
    }

    /** The submit handler, dying after lives writes. */
    method Submit(worker: nat, j: nat, req: W.Request, now: int, lives: nat)
      modifies this
      ensures State() == Call(old(State()), worker, j, req, now, lives)
    {
      ghost var was := State();
      ghost var ws := Writes(was, worker, j, req, now);
      Nothing(was);
      if j >= |t.jobs| || !W.HoldsLease(t.jobs[j], worker) || W.LeasePast(t.jobs[j], now) || |req.key| > 200 {
        return;
      }
      var job, tables := t.jobs[j], t;
      if && job.current.Some? && job.current.value < |tables.submissions|
         && tables.submissions[job.current.value].worker == worker {
        return;
      }
      if W.KnownKey(tables, worker, j, req.key) {
        var x := tables.byKey[(j, worker, req.key)];
        SubmitAgain(j, x, req, lives);
        return;
      }
      SubmitFirst(worker, j, req, lives);
    }

    /** The idempotent path: the key is known. */
    method SubmitAgain(j: nat, x: nat, req: W.Request, lives: nat)
      requires j < |t.jobs| && x < |t.submissions|
      modifies this
      ensures var ws := Resumed(old(State()), j, x, req);
              State() == After(old(State()), ws, Min(lives, |ws|))
    {
      ghost var was := State();
      var job, tables := t.jobs[j], t;
      Nothing(was);
      if tables.submissions[x].hash != req.hash || !req.artifactsOk {
        return;
      }
      hide After;
      var left;
      ghost var done;
      left, done := Do(Attach(x), lives, was, [], lives);
      if !W.HasAttempt(tables, x, 1) {
        left, done := Do(InsertAttempt(x), left, was, done, lives);
        left, done := Do(EnqueueAttempt(x), left, was, done, lives);
      } else if tables.attempts[x][1].status == W.Queued {
        left, done := Do(EnqueueAttempt(x), left, was, done, lives);
      }
      assert done == [Attach(x)] + FirstAttempt(was, x);
      if job.status in {W.Claimed, W.Open} {
        left, done := Do(PutJob(j, job.(status := W.Verifying, current := Some(x))), left, was, done, lives);
      } else if job.current.None? {
        left, done := Do(PutJob(j, job.(current := Some(x))), left, was, done, lives);
      }
      assert done == Resumed(was, j, x, req);
    }

    /** The first time the request arrives. */
    method SubmitFirst(worker: nat, j: nat, req: W.Request, lives: nat)
      requires j < |t.jobs|
      modifies this
      ensures var ws := FirstTime(old(State()), worker, j, req);
              State() == After(old(State()), ws, Min(lives, |ws|))
    {
      ghost var was := State();
      var x, job := |t.submissions|, t.jobs[j];
      Nothing(was);
      if req.stale || !req.originOk {
        return;
      }
      hide After;
      var left;
      ghost var done;
      left, done := Do(InsertSubmission(j, worker, req), lives, was, [], lives);
      if req.artifactsOk {
        left, done := Do(Attach(x), left, was, done, lives);
        assert done == [InsertSubmission(j, worker, req), Attach(x)];
        if req.duplicate {
          left, done := Do(PutJob(j, job.(current := Some(x), status := W.Done, verdict := Some(W.Fail))),
                           left, was, done, lives);
        } else {
          left, done := Do(InsertAttempt(x), left, was, done, lives);
          left, done := Do(EnqueueAttempt(x), left, was, done, lives);
          left, done := Do(PutJob(j, job.(current := Some(x), status := W.Verifying)), left, was, done, lives);
        }
      }
      assert done == FirstTime(was, worker, j, req);
    }
  }
}
