/**
 The hourly archive cursor: a string such as 2024-03-05-7 that names the next
 hour to ingest, and the poll that ingests that hour and steps the cursor on.
 */
module Archive {
  import opened Common
  import opened Calendar
  import opened Decimal

  /** The last instant a Date can hold (section 21.4.1.1 of ECMA-262). */
  const MAX_TIME := 8_640_000_000_000_000

  /** An instant at which the hour before is not before 1970. */
  type Instant = t: nat | MS_PER_HOUR <= t <= MAX_TIME witness MS_PER_HOUR

  function HourOf(t: nat): (h: nat)
    ensures h < 24
  {
    t % MS_PER_DAY / MS_PER_HOUR
  }

  /** The hour of the day is replaced; hours out of range carry over into the day. */
  function SetUtcHours(t: nat, h: int): int {
    DayStart(t) + h * MS_PER_HOUR + t % MS_PER_HOUR
  }

  /** Minutes, seconds and milliseconds are cleared. */
  function SetUtcMinutesZero(t: nat): nat {
    t / MS_PER_HOUR * MS_PER_HOUR
  }

  lemma SteppingHours(t: nat, k: int)
    ensures SetUtcHours(t, HourOf(t) + k) == t + k * MS_PER_HOUR
  {
    assert t == DayStart(t) + t % MS_PER_DAY;
    var r := t % MS_PER_DAY;
    assert r % MS_PER_HOUR == t % MS_PER_HOUR;
    assert r == r / MS_PER_HOUR * MS_PER_HOUR + r % MS_PER_HOUR;
  }

  // ----- printing and parsing an hour -----

  function Dashed(a: string, b: string): string {
    a + "-" + b
  }

  function PrintHour(t: nat): string {
    var d := t / MS_PER_DAY;
    Dashed(Digits(YearFromDay(d)), Dashed(Pad2(MonthFromDay(d) + 1), Dashed(Pad2(DateFromDay(d)), Digits(HourOf(t)))))
  }

  /** What a field reads as, with a default where it is missing; None when it is not a number. */
  function NumberField(fields: seq<string>, i: nat, default: nat): Option<nat> {
    if i >= |fields| then Some(default)
    else if AllDigits(fields[i]) then Some(Value(fields[i]))
    else None
  }

  /** The instant a cursor names, in UTC; None when it names no valid date. */
  function ParseHour(s: string): (r: Option<nat>)
    ensures r.Some? ==> r.value <= MAX_TIME
  {
    var f := Split(s);
    var y, m, d, h := NumberField(f, 0, 0), NumberField(f, 1, 1), NumberField(f, 2, 1), NumberField(f, 3, 0);
    if y.None? || m.None? || d.None? || h.None? then None
    else
      var year := if y.value <= 99 then 1900 + y.value else y.value;
      var t := MakeDay(year, m.value - 1, d.value) * MS_PER_DAY + h.value * MS_PER_HOUR;
      if 0 <= t <= MAX_TIME then Some(t) else None
  }

  const INVALID_HOUR := "NaN-NaN-NaN-NaN"

  function NextHour(hour: string): string {
    var t := ParseHour(hour);
    if t.None? then INVALID_HOUR
    else
      var next := SetUtcHours(t.value, HourOf(t.value) + 1);
      if 0 <= next <= MAX_TIME then PrintHour(next) else INVALID_HOUR
  }

  lemma NoDash(s: string)
    requires AllDigits(s)
    ensures '-' !in s
  {
  }

  lemma FourFields(a: string, b: string, c: string, d: string)
    requires '-' !in a && '-' !in b && '-' !in c && '-' !in d
    ensures Split(Dashed(a, Dashed(b, Dashed(c, d)))) == [a, b, c, d]
  {
    hide Split;
    SplitField(a, Dashed(b, Dashed(c, d)));
    SplitField(b, Dashed(c, d));
    SplitField(c, d);
    SplitLast(d);
  }

  lemma PrintedFields(t: nat)
    ensures var d := t / MS_PER_DAY;
            Split(PrintHour(t)) ==
            [Digits(YearFromDay(d)), Pad2(MonthFromDay(d) + 1), Pad2(DateFromDay(d)), Digits(HourOf(t))]
  {
    hide Split, Dashed, Digits, Pad2, YearFromDay, MonthFromDay, DateFromDay, HourOf;
    var d := t / MS_PER_DAY;
    var y, m, dd, h := Digits(YearFromDay(d)), Pad2(MonthFromDay(d) + 1), Pad2(DateFromDay(d)), Digits(HourOf(t));
    NoDash(y);
    NoDash(m);
    NoDash(dd);
    NoDash(h);
    FourFields(y, m, dd, h);
  }

  /** Printing an instant and parsing it gives back the hour it lies in. */
  lemma ParsePrinted(t: nat)
    requires t <= MAX_TIME
    ensures ParseHour(PrintHour(t)) == Some(SetUtcMinutesZero(t))
  {
    hide Split, Digits, Pad2, Value, YearFromDay, MonthFromDay, MakeDay, DateFromDay;
    var d := t / MS_PER_DAY;
    PrintedFields(t);
    hide PrintHour;
    ValueOfDigits(YearFromDay(d));
    ValueOfPad2(MonthFromDay(d) + 1);
    ValueOfPad2(DateFromDay(d));
    ValueOfDigits(HourOf(t));
    MakeDayInverts(d);
    HourInDay(t);
  }

  lemma HourInDay(t: nat)
    ensures t / MS_PER_DAY * MS_PER_DAY + HourOf(t) * MS_PER_HOUR == SetUtcMinutesZero(t) <= t
  {
    SteppingHours(t, 0);
  }

  predicate OnTheHour(t: nat) {
    t % MS_PER_HOUR == 0
  }

  lemma WholeHour(t: nat)
    requires OnTheHour(t)
    ensures SetUtcMinutesZero(t) == t
  {
  }

  /** The next cursor names the instant exactly one hour later, across days, months, leap days and years. */
  lemma NextIsOneHourLater(t: nat)
    requires OnTheHour(t) && t + 3_600_000 <= MAX_TIME
    ensures NextHour(PrintHour(t)) == PrintHour(t + 3_600_000)
  {
    hide ParseHour, PrintHour, SetUtcHours, HourOf;
    ParsePrinted(t);
    WholeHour(t);
    SteppingHours(t, 1);
  }

  /** Two hours print alike only if they are the same hour. */
  lemma PrintIsInjective(t: nat, u: nat)
    requires OnTheHour(t) && OnTheHour(u) && t <= MAX_TIME && u <= MAX_TIME && PrintHour(t) == PrintHour(u)
    ensures t == u
  {
    hide ParseHour, PrintHour;
    ParsePrinted(t);
    ParsePrinted(u);
    WholeHour(t);
    WholeHour(u);
  }

  // ----- polling -----

  /** One line of an archive file: no event, or an event with the id it is stored under. */
  datatype Line = NoEvent | Event(id: string)

  /** What the download does; a body may break off after the lines that arrived. */
  datatype Answer = NotReady | Refused(status: nat) | NoBody | Body(lines: seq<Line>, brokenOff: bool)

  datatype Health = Active | Error

  datatype PollError = FetchFailed(status: nat) | MissingBody | StreamFailed

  datatype Source = Source(
    cursor: Option<string>,
    health: Health,
    hours: seq<(string, set<string>)>,   // the hours completed, and the ids of their events
    stored: set<string>)

  function IdsIn(lines: seq<Line>): set<string> {
    set i | 0 <= i < |lines| && lines[i].Event? :: lines[i].id
  }

  function EventsIn(lines: seq<Line>): nat {
    if lines == [] then 0 else EventsIn(lines[..|lines| - 1]) + if lines[|lines| - 1].Event? then 1 else 0
  }

  /** The hour before the one the clock is in. */
  function FirstHour(now: Instant): string {
    var hour := SetUtcMinutesZero(now);
    SteppingHours(hour, -1);
    PrintHour(SetUtcHours(hour, HourOf(hour) - 1))
  }

  function Poll(s: Source, now: Instant, answer: Answer): Source {
    if s.cursor.None? then s.(cursor := Some(FirstHour(now)), health := Active)
    else
      match answer
      case NotReady => s.(health := Active)
      case Refused(_) => s.(health := Error)
      case NoBody => s
      case Body(lines, brokenOff) =>
        var read := s.(stored := s.stored + IdsIn(lines));
        if brokenOff then read
        else
          read.(cursor := Some(NextHour(s.cursor.value)),
                health := Active,
                hours := s.hours + [(s.cursor.value, IdsIn(lines))])
  }

  function Polls(s: Source, polls: seq<(Instant, Answer)>): Source
    decreases |polls|
  {
    if polls == [] then s else Polls(Poll(s, polls[0].0, polls[0].1), polls[1..])
  }

  const NEW_SOURCE := Source(None, Active, [], {})

  /** From first on, the completed hours follow each other, the cursor names the next, and their events are stored. */
  ghost predicate Consecutive(s: Source, first: nat) {
    && OnTheHour(first)
    && s.cursor == Some(PrintHour(first + |s.hours| * MS_PER_HOUR))
    && (forall k :: 0 <= k < |s.hours| ==> s.hours[k].0 == PrintHour(first + k * MS_PER_HOUR))
    && (forall k :: 0 <= k < |s.hours| ==> s.hours[k].1 <= s.stored)
  }

  ghost predicate InTime(s: Source, first: nat) {
    first + |s.hours| * MS_PER_HOUR <= MAX_TIME
  }

  /** The hour before the one an instant lies in. */
  function StartHour(now: Instant): nat {
    (now / MS_PER_HOUR - 1) * MS_PER_HOUR
  }

  lemma PollKeepsConsecutive(s: Source, first: nat, now: Instant, answer: Answer)
    requires Consecutive(s, first) && InTime(Poll(s, now, answer), first)
    ensures Consecutive(Poll(s, now, answer), first) && InTime(s, first)
  {
    hide PrintHour, NextHour, OnTheHour, IdsIn;
    var t := first + |s.hours| * MS_PER_HOUR;
    if answer.Body? && !answer.brokenOff {
      HoursStayWhole(first, |s.hours|);
      NextIsOneHourLater(t);
    }
  }

  lemma HoursStayWhole(first: nat, n: nat)
    requires OnTheHour(first)
    ensures OnTheHour(first + n * MS_PER_HOUR)
  {
  }

  lemma HoursOnlyGrow(s: Source, polls: seq<(Instant, Answer)>)
    ensures |s.hours| <= |Polls(s, polls).hours|
    decreases |polls|
  {
    if polls != [] {
      HoursOnlyGrow(Poll(s, polls[0].0, polls[0].1), polls[1..]);
    }
  }

  lemma {:induction false} PollsKeepConsecutive(s: Source, first: nat, polls: seq<(Instant, Answer)>)
    requires Consecutive(s, first) && InTime(Polls(s, polls), first)
    ensures Consecutive(Polls(s, polls), first)
    decreases |polls|
  {
    hide Consecutive, Poll;
    if polls != [] {
      var s1 := Poll(s, polls[0].0, polls[0].1);
      HoursOnlyGrow(s1, polls[1..]);
      PollKeepsConsecutive(s, first, polls[0].0, polls[0].1);
      PollsKeepConsecutive(s1, first, polls[1..]);
    }
  }

  /**
   Whatever the downloads do, a source that started empty has ingested consecutive hours,
   without a gap or a repetition, from the hour before its first poll on.
   */
  lemma HoursAreConsecutive(polls: seq<(Instant, Answer)>)
    requires polls != []
    requires InTime(Polls(NEW_SOURCE, polls), StartHour(polls[0].0))
    ensures Consecutive(Polls(NEW_SOURCE, polls), StartHour(polls[0].0))
    ensures var hours := Polls(NEW_SOURCE, polls).hours;
            forall i, j :: 0 <= i < j < |hours| ==> hours[i].0 != hours[j].0
  {
    hide Poll, Consecutive, StartHour;
    var first := StartHour(polls[0].0);
    FirstPoll(polls[0].0, polls[0].1);
    PollsKeepConsecutive(Poll(NEW_SOURCE, polls[0].0, polls[0].1), first, polls[1..]);
    HoursAreDistinct(Polls(NEW_SOURCE, polls), first);
  }

  lemma FirstPoll(now: Instant, answer: Answer)
    ensures Consecutive(Poll(NEW_SOURCE, now, answer), StartHour(now))
  {
    FirstHourIs(now);
    hide FirstHour, StartHour, PrintHour, OnTheHour;
  }

  lemma FirstHourIs(now: Instant)
    ensures FirstHour(now) == PrintHour(StartHour(now)) && OnTheHour(StartHour(now))
  {
    hide PrintHour, SetUtcHours, HourOf;
    SteppingHours(SetUtcMinutesZero(now), -1);
    HoursStayWhole(0, now / MS_PER_HOUR - 1);
  }

  lemma HoursAreDistinct(s: Source, first: nat)
    requires Consecutive(s, first) && InTime(s, first)
    ensures forall i, j :: 0 <= i < j < |s.hours| ==> s.hours[i].0 != s.hours[j].0
  {
    hide PrintHour, OnTheHour;
    forall i, j | 0 <= i < j < |s.hours|
      ensures s.hours[i].0 != s.hours[j].0
    {
      if s.hours[i].0 == s.hours[j].0 {
        HoursStayWhole(first, i);
        HoursStayWhole(first, j);
        PrintIsInjective(first + i * MS_PER_HOUR, first + j * MS_PER_HOUR);
      }
    }
  }

  // ----- what polls leave behind -----

  predicate Delivers(answer: Answer, id: string) {
    answer.Body? && Event(id) in answer.lines
  }

  /** A poll that fails without saying so: there is no body, or it breaks off. */
  predicate FailsSilently(answer: Answer) {
    answer.NoBody? || (answer.Body? && answer.brokenOff)
  }

  /** Poll number k was refused, and no later one got through. */
  predicate RefusedLast(polls: seq<(Instant, Answer)>, k: nat) {
    && k < |polls| && polls[k].1.Refused?
    && forall i :: k < i < |polls| ==> FailsSilently(polls[i].1)
  }

  /** What was stored before and every event that was delivered, however its download ended, is stored, and no other. */
  lemma {:induction false} StoredIsDelivered(s: Source, polls: seq<(Instant, Answer)>, id: string)
    requires s.cursor.Some?
    ensures id in Polls(s, polls).stored <==>
            id in s.stored || exists k :: 0 <= k < |polls| && Delivers(polls[k].1, id)
    decreases |polls|
  {
    if polls != [] {
      var s1 := Poll(s, polls[0].0, polls[0].1);
      assert id in s1.stored <==> id in s.stored || Delivers(polls[0].1, id);
      hide Poll, Delivers;
      StoredIsDelivered(s1, polls[1..], id);
      assert forall k :: 0 <= k < |polls[1..]| ==> polls[1..][k] == polls[k + 1];
      assert forall k :: 1 <= k < |polls| ==> polls[k] == polls[1..][k - 1];
    }
  }

  /** A source is in error exactly when it was refused, or was in error before, and no poll got through since. */
  lemma {:induction false} ErrorIsRefused(s: Source, polls: seq<(Instant, Answer)>)
    requires s.cursor.Some?
    ensures Polls(s, polls).health == Error <==>
            || (s.health == Error && forall k :: 0 <= k < |polls| ==> FailsSilently(polls[k].1))
            || exists k :: RefusedLast(polls, k)
    decreases |polls|
  {
    if polls != [] {
      var s1 := Poll(s, polls[0].0, polls[0].1);
      ErrorIsRefused(s1, polls[1..]);
      assert s1.health == Error <==> polls[0].1.Refused? || (s.health == Error && FailsSilently(polls[0].1));
      hide Poll, FailsSilently;
      assert forall k :: 0 <= k < |polls[1..]| ==> polls[1..][k] == polls[k + 1];
      assert forall k :: 1 <= k < |polls| ==> polls[k] == polls[1..][k - 1];
      forall k: nat | RefusedLast(polls[1..], k)
        ensures RefusedLast(polls, k + 1)
      {
      }
      forall k: nat | RefusedLast(polls, k)
        ensures k == 0 || RefusedLast(polls[1..], k - 1)
      {
      }
      assert (forall k :: 1 <= k < |polls| ==> FailsSilently(polls[k].1)) && polls[0].1.Refused? ==>
          RefusedLast(polls, 0);
    }
  }

  // ----- the ingest runner -----

  class Runner {
    var cursor: Option<string>
    var health: Health
    var stored: set<string>
    ghost var hours: seq<(string, set<string>)>

    ghost function State(): Source
      reads this
    {
      Source(cursor, health, hours, stored)
    }

    constructor ()
      ensures State() == NEW_SOURCE
    {
      cursor, health, stored, hours := None, Active, {}, [];
    }

    /** runGithubIngestOnce for an archive source, without an explicit hour. */
    method RunOnce(now: Instant, answer: Answer) returns (r: Result<nat, PollError>)
      modifies this
      ensures State() == Poll(old(State()), now, answer)
      ensures r.Err? <==> old(cursor).Some? && (answer.Refused? || answer.NoBody? || (answer.Body? && answer.brokenOff))
      ensures r.Ok? ==> r.value == if old(cursor).Some? && answer.Body? then EventsIn(answer.lines) else 0
    {
      if cursor.None? {
        cursor, health := Some(FirstHour(now)), Active;
        return Ok(0);
      }
      var hour := cursor.value;
      if answer.NotReady? {
        health := Active;
        return Ok(0);
      }
      if answer.Refused? {
        health := Error;
        return Err(FetchFailed(answer.status));
      }
      if answer.NoBody? {
        return Err(MissingBody);
      }
      var fetched := 0;
      ghost var before := stored;
      for i := 0 to |answer.lines|
        modifies this`stored
        invariant stored == before + IdsIn(answer.lines[..i])
        invariant fetched == EventsIn(answer.lines[..i])
      {
        assert answer.lines[..i + 1][..i] == answer.lines[..i];
        if answer.lines[i].Event? {
          stored := stored + {answer.lines[i].id};
          fetched := fetched + 1;
        }
      }
      assert answer.lines[..|answer.lines|] == answer.lines;
      if answer.brokenOff {
        return Err(StreamFailed);
      }
      hours := hours + [(hour, IdsIn(answer.lines))];
      cursor, health := Some(NextHour(hour)), Active;
      return Ok(fetched);
    }
  }
}
