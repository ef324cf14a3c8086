/** The ids under which the scheduler keeps its timers (irrigation_scheduler.py, schedule_program,
    _schedule_single_time, cancel_program, cancel_zone_jobs). */
module JobTable {
  import opened Common
  import opened Decimal

  type JobId = string

  datatype Clock = Malformed | At(hour: int, minute: int)

  datatype Schedule =
    | Weekdays(days: seq<int>)
    | Interval(everyDays: Option<int>)
    | EvenOdd(even: bool)
    | UnknownType

  datatype Program = Program(enabled: bool, time: Clock, extraTimes: seq<Clock>, zones: seq<int>, schedule: Schedule)

  /** The live jobs of the store, and the ids that the scheduler remembers for each program. */
  datatype State = State(jobs: set<JobId>, programJobs: map<nat, seq<JobId>>)

  function ProgramPrefix(p: nat): JobId {
    "program:" + Print(p) + [':']
  }

  function ProgramJob(p: nat, rest: string): JobId {
    "program:" + Print(p) + [':'] + rest
  }

  function StopJob(z: nat, command: string): JobId {
    "zone_stop:" + Print(z) + [':'] + command
  }

  function HardStopJob(z: nat): JobId {
    "zone_hard_stop:" + Print(z)
  }

  // ---- Ids of different programs and zones never meet ----

  lemma SameHeading(heading: string, a: string, b: string)
    ensures heading + a <= heading + b <==> a <= b
  {
    assert (heading + a)[|heading|..] == a && (heading + b)[|heading|..] == b;
    if heading + a <= heading + b {
      assert forall i | 0 <= i < |a| :: a[i] == (heading + a)[|heading| + i] == (heading + b)[|heading| + i] == b[i];
    }
  }

  /** A number that ends at a colon tells texts apart. */
  lemma NumberTells(m: nat, n: nat, rest: string)
    ensures Print(m) + [':'] <= Print(n) + [':'] + rest <==> m == n
  {
    var prefix, id := Print(m) + [':'], Print(n) + [':'] + rest;
    if prefix <= id {
      assert id == prefix + id[|prefix|..];
      PrintUpToMark(m, n, ':', id[|prefix|..], rest);
    }
  }

  lemma NumberTellsUnder(heading: string, m: nat, n: nat, rest: string)
    ensures heading + Print(m) + [':'] <= heading + Print(n) + [':'] + rest <==> m == n
  {
    NumberTells(m, n, rest);
    SameHeading(heading, Print(m) + [':'], Print(n) + [':'] + rest);
    assert heading + Print(m) + [':'] == heading + (Print(m) + [':']);
    assert heading + Print(n) + [':'] + rest == heading + (Print(n) + [':'] + rest);
  }

  lemma ProgramOfJob(p: nat, q: nat, rest: string)
    ensures ProgramPrefix(p) <= ProgramJob(q, rest) <==> p == q
  {
    NumberTellsUnder("program:", p, q, rest);
  }

  lemma ZoneOfStopJob(z: nat, w: nat, command: string)
    ensures "zone_stop:" + Print(z) + [':'] <= StopJob(w, command) <==> z == w
  {
    NumberTellsUnder("zone_stop:", z, w, command);
  }

  lemma ZoneOfHardStopJob(z: nat, w: nat)
    ensures HardStopJob(z) == HardStopJob(w) <==> z == w
  {
    if HardStopJob(z) == HardStopJob(w) {
      assert HardStopJob(z)[15..] == Print(z) && HardStopJob(w)[15..] == Print(w);
      PrintIsInjective(z, w);
    }
  }

  // ---- Scheduling ----

  predicate GoodTime(t: Clock) {
    t.At? && 0 <= t.hour < 24 && 0 <= t.minute < 60
  }

  /** One id per day from the i-th on, up to the first day that the trigger refuses. */
  function DayJobs(p: nat, suffix: string, days: seq<int>, i: nat): seq<JobId>
    requires i <= |days|
    decreases |days| - i
  {
    if i == |days| || !(0 <= days[i] < 7) then []
    else [ProgramJob(p, suffix + ":d" + Print(days[i]))] + DayJobs(p, suffix, days, i + 1)
  }

  /** The ids that one start time contributes. */
  function TimeJobs(p: nat, schedule: Schedule, time: Clock, suffix: string): seq<JobId> {
    if !GoodTime(time) then []
    else match schedule
      case Weekdays(days) => DayJobs(p, suffix, days, 0)
      case Interval(every) => if every.Some? then [ProgramJob(p, suffix)] else []
      case EvenOdd(_) => [ProgramJob(p, suffix)]
      case UnknownType => []
  }

  function ExtraJobs(p: nat, program: Program, k: nat): seq<JobId>
    requires k <= |program.extraTimes|
  {
    if k == 0 then [] else
      var suffix := "extra:" + Print(k - 1);
      ExtraJobs(p, program, k - 1) + TimeJobs(p, program.schedule, program.extraTimes[k - 1], suffix)
  }

  function AllJobs(p: nat, program: Program): seq<JobId> {
    TimeJobs(p, program.schedule, program.time, "main") + ExtraJobs(p, program, |program.extraTimes|)
  }

  function Remembered(s: State, p: nat): seq<JobId> {
    if p in s.programJobs then s.programJobs[p] else []
  }

  function Ids(list: seq<JobId>): set<JobId> {
    set id | id in list
  }

  function Cancelled(s: State, p: nat): State {
    State(s.jobs - Ids(Remembered(s, p)), s.programJobs[p := []])
  }

  /** The call gives up before it touches anything. */
  predicate GivesUp(program: Program) {
    program.time.Malformed? || program.zones == [] || program.schedule == Weekdays([])
  }

  /** What schedule_program leaves behind; `zoneExists` says that some zone of the program is in the table. */
  function Scheduled(s: State, p: nat, program: Program, zoneExists: bool): State {
    if !program.enabled then Cancelled(s, p)
    else if GivesUp(program) then s
    else if zoneExists && !GoodTime(program.time) then Cancelled(s, p)   // the planned starts raise
    else
      var c := Cancelled(s, p);
      State(c.jobs + Ids(AllJobs(p, program)), c.programJobs[p := AllJobs(p, program)])
  }

  // ---- The table is exact ----

  /** The live jobs of every program are exactly the remembered ones. */
  ghost predicate Exact(s: State) {
    forall p: nat :: (set id | id in s.jobs && ProgramPrefix(p) <= id) == Ids(Remembered(s, p))
  }

  ghost predicate AllOf(p: nat, list: seq<JobId>) {
    forall id | id in list :: exists rest :: id == ProgramJob(p, rest)
  }

  lemma {:induction false} DayJobsAreOwn(p: nat, suffix: string, days: seq<int>, i: nat)
    requires i <= |days|
    ensures AllOf(p, DayJobs(p, suffix, days, i))
    decreases |days| - i
  {
    if i < |days| && 0 <= days[i] < 7 {
      DayJobsAreOwn(p, suffix, days, i + 1);
    }
  }

  lemma TimeJobsAreOwn(p: nat, schedule: Schedule, time: Clock, suffix: string)
    ensures AllOf(p, TimeJobs(p, schedule, time, suffix))
  {
    if schedule.Weekdays? {
      DayJobsAreOwn(p, suffix, schedule.days, 0);
    }
  }

  lemma {:induction false} ExtraJobsAreOwn(p: nat, program: Program, k: nat)
    requires k <= |program.extraTimes|
    ensures AllOf(p, ExtraJobs(p, program, k))
  {
    if k > 0 {
      ExtraJobsAreOwn(p, program, k - 1);
      TimeJobsAreOwn(p, program.schedule, program.extraTimes[k - 1], "extra:" + Print(k - 1));
    }
  }

  lemma AllJobsAreOwn(p: nat, program: Program)
    ensures AllOf(p, AllJobs(p, program))
  {
    TimeJobsAreOwn(p, program.schedule, program.time, "main");
    ExtraJobsAreOwn(p, program, |program.extraTimes|);
  }

  lemma PrefixesDiffer(p: nat, q: nat, id: JobId)
    requires ProgramPrefix(p) <= id && ProgramPrefix(q) <= id
    ensures p == q
  {
    assert id == ProgramJob(q, id[|ProgramPrefix(q)|..]);
    ProgramOfJob(p, q, id[|ProgramPrefix(q)|..]);
  }

  lemma CancelKeepsExact(s: State, p: nat)
    requires Exact(s)
    ensures Exact(Cancelled(s, p))
    ensures forall id | id in Cancelled(s, p).jobs :: !(ProgramPrefix(p) <= id)
  {
    var s' := Cancelled(s, p);
    var own := set id | id in s.jobs && ProgramPrefix(p) <= id;
    assert own == Ids(Remembered(s, p));
    assert forall id | id in s.jobs && ProgramPrefix(p) <= id :: id in own;
    forall q: nat
      ensures (set id | id in s'.jobs && ProgramPrefix(q) <= id) == Ids(Remembered(s', q))
    {
      var live, before := set id | id in s'.jobs && ProgramPrefix(q) <= id, set id | id in s.jobs && ProgramPrefix(q) <= id;
      assert before == Ids(Remembered(s, q));
      if q != p {
        forall id | id in before
          ensures id !in own
        {
          if id in own {
            PrefixesDiffer(p, q, id);
          }
        }
        assert live == before;
      } else {
        assert live == {};
      }
    }
  }

  lemma ScheduleKeepsExact(s: State, p: nat, program: Program, zoneExists: bool)
    requires Exact(s)
    ensures Exact(Scheduled(s, p, program, zoneExists))
  {
    CancelKeepsExact(s, p);
    var c, s', added := Cancelled(s, p), Scheduled(s, p, program, zoneExists), Ids(AllJobs(p, program));
    if program.enabled && !GivesUp(program) && !(zoneExists && !GoodTime(program.time)) {
      AllJobsAreOwn(p, program);
      forall q: nat
        ensures (set id | id in s'.jobs && ProgramPrefix(q) <= id) == Ids(Remembered(s', q))
      {
        forall id | id in added
          ensures ProgramPrefix(q) <= id <==> p == q
        {
          var rest :| id == ProgramJob(p, rest);
          ProgramOfJob(q, p, rest);
        }
        var live := set id | id in s'.jobs && ProgramPrefix(q) <= id;
        var before := set id | id in c.jobs && ProgramPrefix(q) <= id;
        assert before == Ids(Remembered(c, q));
        if q == p {
          assert live == added;
        } else {
          assert live == before;
        }
      }
    }
  }

  datatype Call = Schedule(p: nat, program: Program, zoneExists: bool) | Cancel(p: nat)

  function After(s: State, calls: seq<Call>): State
    decreases calls
  {
    if calls == [] then s
    else
      var c := calls[0];
      After(if c.Cancel? then Cancelled(s, c.p) else Scheduled(s, c.p, c.program, c.zoneExists), calls[1..])
  }

  /** From a store without program jobs on, whatever is scheduled and cancelled, no program has a live
      job that is not remembered and none is remembered that is not live. */
  lemma {:induction false} JobTableStaysExact(s: State, calls: seq<Call>)
    requires Exact(s)
    ensures Exact(After(s, calls))
    decreases calls
  {
    if calls != [] {
      var c := calls[0];
      if c.Cancel? {
        CancelKeepsExact(s, c.p);
        JobTableStaysExact(Cancelled(s, c.p), calls[1..]);
      } else {
        ScheduleKeepsExact(s, c.p, c.program, c.zoneExists);
        JobTableStaysExact(Scheduled(s, c.p, c.program, c.zoneExists), calls[1..]);
      }
    }
  }

  // ---- Cancelling a zone's timers ----

  predicate IsTimerOf(z: nat, id: JobId) {
    "zone_stop:" + Print(z) + [':'] <= id || id == HardStopJob(z)
  }

  /** The test by prefix hits the timers of this zone and of no other, and no job of a program. */
  lemma TimerTestIsExact(z: nat, w: nat, command: string, p: nat, rest: string)
    ensures IsTimerOf(z, StopJob(w, command)) <==> z == w
    ensures IsTimerOf(z, HardStopJob(w)) <==> z == w
    ensures !IsTimerOf(z, ProgramJob(p, rest))
  {
    ZoneOfStopJob(z, w, command);
    ZoneOfHardStopJob(z, w);
    assert StopJob(w, command)[5] == 's' && HardStopJob(w)[5] == 'h' && HardStopJob(z)[5] == 'h';
    assert ("zone_stop:" + Print(z) + [':'])[5] == 's';
    assert ProgramJob(p, rest)[0] == 'p' && HardStopJob(z)[0] == 'z' && ("zone_stop:" + Print(z) + [':'])[0] == 'z';
  }

  function WithoutTimers(jobs: set<JobId>, z: nat): set<JobId> {
    jobs - set id | id in jobs && IsTimerOf(z, id)
  }

  /** So cancelling zone z's timers takes those, and leaves other zones' timers and programs alone. */
  lemma CancelZoneJobsIsExact(jobs: set<JobId>, z: nat, w: nat, command: string, p: nat, rest: string)
    ensures StopJob(w, command) in WithoutTimers(jobs, z) <==> StopJob(w, command) in jobs && w != z
    ensures HardStopJob(w) in WithoutTimers(jobs, z) <==> HardStopJob(w) in jobs && w != z
    ensures ProgramJob(p, rest) in WithoutTimers(jobs, z) <==> ProgramJob(p, rest) in jobs
  {
    TimerTestIsExact(z, w, command, p, rest);
  }

  // ---- What is scheduled ----

  /** The id of one weekday of one start time. */
  function DayJob(p: nat, suffix: string, day: nat): JobId {
    ProgramJob(p, suffix + ":d" + Print(day))
  }

  /** The ids of one start time: one per listed weekday up to the first number that is none, or a single one. */
  ghost predicate TimeMeans(p: nat, schedule: Schedule, time: Clock, suffix: string, ids: seq<JobId>) {
    if !(time.At? && 0 <= time.hour < 24 && 0 <= time.minute < 60) then ids == []
    else match schedule
      case Weekdays(days) =>
        && |ids| <= |days|
        && (forall i | 0 <= i < |ids| :: 0 <= days[i] < 7 && ids[i] == DayJob(p, suffix, days[i]))
        && (|ids| < |days| ==> !(0 <= days[|ids|] < 7))
      case Interval(every) => ids == if every.Some? then [ProgramJob(p, suffix)] else []
      case EvenOdd(_) => ids == [ProgramJob(p, suffix)]
      case UnknownType => ids == []
  }

  function Flat(parts: seq<seq<JobId>>): seq<JobId> {
    if parts == [] then [] else Flat(parts[..|parts| - 1]) + parts[|parts| - 1]
  }

  ghost predicate MainMeans(p: nat, program: Program, ids: seq<JobId>) {
    TimeMeans(p, program.schedule, program.time, "main", ids)
  }

  ghost predicate ExtraMeans(p: nat, program: Program, k: nat, ids: seq<JobId>)
    requires k < |program.extraTimes|
  {
    TimeMeans(p, program.schedule, program.extraTimes[k], "extra:" + Print(k), ids)
  }

  /** The ids of the main time, followed by those of each extra time. */
  ghost predicate Parts(p: nat, program: Program, parts: seq<seq<JobId>>) {
    && 0 < |parts| <= 1 + |program.extraTimes|
    && MainMeans(p, program, parts[0])
    && forall k | 1 <= k < |parts| :: ExtraMeans(p, program, k - 1, parts[k])
  }

  ghost predicate JobsMean(p: nat, program: Program, ids: seq<JobId>) {
    exists parts :: Parts(p, program, parts) && |parts| == 1 + |program.extraTimes| && ids == Flat(parts)
  }

  lemma {:induction false} DayJobsMean(p: nat, suffix: string, days: seq<int>, i: nat)
    requires i <= |days|
    ensures var ids := DayJobs(p, suffix, days, i);
      && i + |ids| <= |days|
      && (forall j | i <= j < i + |ids| :: 0 <= days[j] < 7 && ids[j - i] == DayJob(p, suffix, days[j]))
      && (i + |ids| < |days| ==> !(0 <= days[i + |ids|] < 7))
    decreases |days| - i
  {
    if i < |days| && 0 <= days[i] < 7 {
      DayJobsMean(p, suffix, days, i + 1);
    }
  }

  lemma TimeJobsMean(p: nat, schedule: Schedule, time: Clock, suffix: string)
    ensures TimeMeans(p, schedule, time, suffix, TimeJobs(p, schedule, time, suffix))
  {
    if schedule.Weekdays? {
      DayJobsMean(p, suffix, schedule.days, 0);
    }
  }

  lemma OnePart(p: nat, program: Program, main: seq<JobId>)
    requires MainMeans(p, program, main)
    ensures Parts(p, program, [main]) && Flat([main]) == main
  {
    assert [main][..0] == [] && [] + main == main;
  }

  lemma OneMorePart(p: nat, program: Program, parts: seq<seq<JobId>>, last: seq<JobId>)
    requires Parts(p, program, parts) && |parts| <= |program.extraTimes|
    requires ExtraMeans(p, program, |parts| - 1, last)
    ensures Parts(p, program, parts + [last]) && Flat(parts + [last]) == Flat(parts) + last
  {
    var all := parts + [last];
    assert all[..|parts|] == parts;
    forall k | 1 <= k < |all|
      ensures ExtraMeans(p, program, k - 1, all[k])
    {
      assert k < |parts| ==> all[k] == parts[k];
    }
  }

  lemma Regroup(a: seq<JobId>, b: seq<JobId>, c: seq<JobId>)
    ensures a + b + c == a + (b + c)
  {
  }

  lemma ExtraJobsStep(p: nat, program: Program, k: nat) returns (last: seq<JobId>)
    requires k < |program.extraTimes|
    ensures ExtraMeans(p, program, k, last) && ExtraJobs(p, program, k + 1) == ExtraJobs(p, program, k) + last
  {
    last := TimeJobs(p, program.schedule, program.extraTimes[k], "extra:" + Print(k));
    TimeJobsMean(p, program.schedule, program.extraTimes[k], "extra:" + Print(k));
  }

  lemma {:induction false} PartsMean(p: nat, program: Program, main: seq<JobId>, k: nat)
    returns (parts: seq<seq<JobId>>)
    requires k <= |program.extraTimes| && MainMeans(p, program, main)
    ensures Parts(p, program, parts) && |parts| == 1 + k && Flat(parts) == main + ExtraJobs(p, program, k)
  {
    if k == 0 {
      OnePart(p, program, main);
      parts := [main];
    } else {
      var before := PartsMean(p, program, main, k - 1);
      var last := ExtraJobsStep(p, program, k - 1);
      OneMorePart(p, program, before, last);
      parts := before + [last];
      Regroup(main, ExtraJobs(p, program, k - 1), last);
    }
  }

  lemma AllJobsMean(p: nat, program: Program)
    ensures JobsMean(p, program, AllJobs(p, program))
  {
    TimeJobsMean(p, program.schedule, program.time, "main");
    var main := TimeJobs(p, program.schedule, program.time, "main");
    var parts := PartsMean(p, program, main, |program.extraTimes|);
  }

  /** The remembered jobs of p are gone and none is remembered any more. */
  ghost predicate CancelledFor(before: State, after: State, p: nat) {
    && after.programJobs == before.programJobs[p := []]
    && forall id :: id in after.jobs <==> id in before.jobs && !(p in before.programJobs && id in before.programJobs[p])
  }

  /** They are gone, and the program's new jobs are live and remembered. */
  ghost predicate ScheduledFor(before: State, after: State, p: nat, program: Program) {
    && p in after.programJobs && after.programJobs == before.programJobs[p := after.programJobs[p]]
    && JobsMean(p, program, after.programJobs[p])
    && forall id :: id in after.jobs <==>
         || (id in before.jobs && !(p in before.programJobs && id in before.programJobs[p]))
         || id in after.programJobs[p]
  }

  ghost predicate ScheduleMeans(before: State, after: State, p: nat, program: Program, zoneExists: bool) {
    if !program.enabled then CancelledFor(before, after, p)
    else if program.time.Malformed? || program.zones == [] || program.schedule == Weekdays([]) then after == before
    else if zoneExists && !(0 <= program.time.hour < 24 && 0 <= program.time.minute < 60)
    then CancelledFor(before, after, p)
    else ScheduledFor(before, after, p, program)
  }

  lemma CancelledMeans(s: State, p: nat)
    ensures CancelledFor(s, Cancelled(s, p), p)
  {
  }

  lemma RememberMeans(s: State, p: nat, program: Program, ids: seq<JobId>)
    requires JobsMean(p, program, ids)
    ensures ScheduledFor(s, State(Cancelled(s, p).jobs + Ids(ids), Cancelled(s, p).programJobs[p := ids]), p, program)
  {
  }

  lemma ScheduledMeans(s: State, p: nat, program: Program, zoneExists: bool)
    ensures ScheduleMeans(s, Scheduled(s, p, program, zoneExists), p, program, zoneExists)
  {
    if program.enabled && !GivesUp(program) && !(zoneExists && !GoodTime(program.time)) {
      AllJobsMean(p, program);
      RememberMeans(s, p, program, AllJobs(p, program));
    }
  }

  lemma DayTells(heading: string, d: nat, e: nat)
    ensures heading + Print(d) == heading + Print(e) <==> d == e
  {
    if heading + Print(d) == heading + Print(e) {
      assert (heading + Print(d))[|heading|..] == Print(d) && (heading + Print(e))[|heading|..] == Print(e);
      PrintIsInjective(d, e);
    }
  }

  lemma MarkedTells(heading: string, m: nat, n: nat, a: string, b: string)
    ensures heading + Print(m) + [':'] + a == heading + Print(n) + [':'] + b <==> m == n && a == b
  {
    if heading + Print(m) + [':'] + a == heading + Print(n) + [':'] + b {
      var all := heading + Print(m) + [':'] + a;
      assert all[|heading|..] == Print(m) + [':'] + a && all[|heading|..] == Print(n) + [':'] + b;
      PrintUpToMark(m, n, ':', a, b);
    }
  }

  lemma RestOfJobTells(p: nat, q: nat, a: string, b: string)
    ensures ProgramJob(p, a) == ProgramJob(q, b) <==> p == q && a == b
  {
    MarkedTells("program:", p, q, a, b);
  }

  lemma MarkBefore(a: string, b: string)
    ensures a + ":d" + b == a + [':'] + ("d" + b)
  {
  }

  lemma ExtraTells(k: nat, l: nat, d: nat, e: nat)
    ensures "extra:" + Print(k) + ":d" + Print(d) == "extra:" + Print(l) + ":d" + Print(e) <==> k == l && d == e
  {
    MarkBefore("extra:" + Print(k), Print(d));
    MarkBefore("extra:" + Print(l), Print(e));
    MarkedTells("extra:", k, l, "d" + Print(d), "d" + Print(e));
    DayTells("d", d, e);
  }

  /** Main times of different programs or on different weekdays never replace each other's job. */
  lemma MainJobsDiffer(p: nat, q: nat, d: nat, e: nat)
    ensures DayJob(p, "main", d) == DayJob(q, "main", e) <==> p == q && d == e
  {
    RestOfJobTells(p, q, "main" + ":d" + Print(d), "main" + ":d" + Print(e));
    DayTells("main" + ":d", d, e);
  }

  /** Neither do extra times, wherever they stand in the list. */
  lemma ExtraJobsDiffer(p: nat, q: nat, d: nat, e: nat, k: nat, l: nat)
    ensures DayJob(p, "extra:" + Print(k), d) == DayJob(q, "extra:" + Print(l), e) <==> p == q && k == l && d == e
  {
    RestOfJobTells(p, q, "extra:" + Print(k) + ":d" + Print(d), "extra:" + Print(l) + ":d" + Print(e));
    ExtraTells(k, l, d, e);
  }

  /** Nor does an extra time replace a main one. */
  lemma MainAndExtraDiffer(p: nat, q: nat, d: nat, e: nat, l: nat)
    ensures DayJob(p, "main", d) != DayJob(q, "extra:" + Print(l), e)
  {
    var main, extra := "main" + ":d" + Print(d), "extra:" + Print(l) + ":d" + Print(e);
    RestOfJobTells(p, q, main, extra);
    assert main[0] == 'm' && extra[0] == 'e';
  }

  lemma ShiftOne(ids: seq<JobId>, id: JobId, rest: seq<JobId>)
    ensures ids + ([id] + rest) == ids + [id] + rest && Ids(ids + [id]) == Ids(ids) + {id}
  {
  }

  lemma DayJobsStep(p: nat, suffix: string, days: seq<int>, i: nat, ids: seq<JobId>)
    requires i < |days| && 0 <= days[i] < 7
    ensures var id := ProgramJob(p, suffix + ":d" + Print(days[i]));
      && ids + DayJobs(p, suffix, days, i) == ids + [id] + DayJobs(p, suffix, days, i + 1)
      && Ids(ids + [id]) == Ids(ids) + {id}
  {
    ShiftOne(ids, ProgramJob(p, suffix + ":d" + Print(days[i])), DayJobs(p, suffix, days, i + 1));
  }

  class Jobs {
    var jobs: set<JobId>
    var programJobs: map<nat, seq<JobId>>

    ghost function View(): State
      reads this
    {
      State(jobs, programJobs)
    }

    constructor ()
      ensures View() == State({}, map[]) && Exact(View())
    {
      jobs, programJobs := {}, map[];
      new;
      assert forall p: nat :: (set id | id in View().jobs && ProgramPrefix(p) <= id) == {};
    }

    method CancelProgram(p: nat)
      modifies this
      ensures View() == Cancelled(old(View()), p)
      ensures CancelledFor(old(View()), View(), p)
      ensures old(Exact(View())) ==> Exact(View())
    {
      CancelledMeans(View(), p);
      ghost var before := View();
      var jobIds := if p in programJobs then programJobs[p] else [];
      var i := 0;
      while i < |jobIds|
        invariant 0 <= i <= |jobIds|
        invariant jobs == before.jobs - Ids(jobIds[..i]) && programJobs == before.programJobs
      {
        assert jobIds[..i + 1] == jobIds[..i] + [jobIds[i]];
        jobs := jobs - {jobIds[i]};
        i := i + 1;
      }
      assert jobIds[..i] == jobIds;
      programJobs := programJobs[p := []];
      if Exact(before) { CancelKeepsExact(before, p); }
    }

    /** Adds the jobs of one start time and hands back their ids. */
    method ScheduleSingleTime(p: nat, schedule: Schedule, time: Clock, suffix: string) returns (ids: seq<JobId>)
      modifies `jobs
      ensures ids == TimeJobs(p, schedule, time, suffix)
      ensures jobs == old(jobs) + Ids(ids)
      ensures TimeMeans(p, schedule, time, suffix, ids)
    {
      ids := AddJobs(p, schedule, time, suffix);
      TimeJobsMean(p, schedule, time, suffix);
    }

    method AddJobs(p: nat, schedule: Schedule, time: Clock, suffix: string) returns (ids: seq<JobId>)
      modifies `jobs
      ensures ids == TimeJobs(p, schedule, time, suffix)
      ensures jobs == old(jobs) + Ids(ids)
    {
      ids := [];
      if !GoodTime(time) {
        return;
      }
      match schedule
      case Weekdays(days) =>
        var i := 0;
        while i < |days| && 0 <= days[i] < 7
          invariant 0 <= i <= |days|
          invariant ids + DayJobs(p, suffix, days, i) == DayJobs(p, suffix, days, 0)
          invariant jobs == old(jobs) + Ids(ids)
        {
          DayJobsStep(p, suffix, days, i, ids);
          var id := ProgramJob(p, suffix + ":d" + Print(days[i]));
          jobs := jobs + {id};
          ids := ids + [id];
          i := i + 1;
        }
      case Interval(every) =>
        if every.Some? {
          ids := [ProgramJob(p, suffix)];
          jobs := jobs + {ids[0]};
        }
      case EvenOdd(_) =>
        ids := [ProgramJob(p, suffix)];
        jobs := jobs + {ids[0]};
      case UnknownType =>
    }

    /** The jobs of the main time and of all extra ones. */
    method PlantJobs(p: nat, program: Program)
      modifies this
      ensures jobs == old(jobs) + Ids(AllJobs(p, program)) && programJobs == old(programJobs)[p := AllJobs(p, program)]
    {
      var jobIds := ScheduleSingleTime(p, program.schedule, program.time, "main");
      var extraIds := ScheduleExtraTimes(p, program);
      programJobs := programJobs[p := jobIds + extraIds];
    }

    method ScheduleProgram(p: nat, program: Program, zoneExists: bool)
      modifies this
      ensures View() == Scheduled(old(View()), p, program, zoneExists)
      ensures old(Exact(View())) ==> Exact(View())
      ensures ScheduleMeans(old(View()), View(), p, program, zoneExists)
    {
      ScheduledMeans(View(), p, program, zoneExists);
      ghost var before := View();
      if Exact(before) { ScheduleKeepsExact(before, p, program, zoneExists); }
      if !program.enabled {
        CancelProgram(p);
        return;
      }
      if program.time.Malformed? || program.zones == [] || program.schedule == Weekdays([]) {
        return;
      }
      CancelProgram(p);
      if zoneExists && !GoodTime(program.time) {
        return;
      }
      PlantJobs(p, program);
    }

    method ScheduleExtraTimes(p: nat, program: Program) returns (ids: seq<JobId>)
      modifies `jobs
      ensures ids == ExtraJobs(p, program, |program.extraTimes|)
      ensures jobs == old(jobs) + Ids(ids)
    {
      ids := [];
      var idx := 0;
      while idx < |program.extraTimes|
        invariant 0 <= idx <= |program.extraTimes|
        invariant ids == ExtraJobs(p, program, idx)
        invariant jobs == old(jobs) + Ids(ids)
      {
        var more := ScheduleSingleTime(p, program.schedule, program.extraTimes[idx], "extra:" + Print(idx));
        ids := ids + more;
        idx := idx + 1;
      }
    }

    /** Removes the zone's stop and hard-stop timers. */
    method CancelZoneJobs(z: nat)
      modifies `jobs
      ensures jobs == WithoutTimers(old(jobs), z)
    {
      var toRemove := set id | id in jobs && IsTimerOf(z, id);
      ghost var all := toRemove;
      while toRemove != {}
        invariant toRemove <= all && jobs == old(jobs) - (all - toRemove)
        decreases toRemove
      {
        var id :| id in toRemove;
        jobs := jobs - {id};
        toRemove := toRemove - {id};
      }
    }
  }
}
