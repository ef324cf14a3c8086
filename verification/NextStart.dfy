/** The day-by-day search for a program's next start (db/zones.py and routes/zones_crud_api.py).
    Times are seconds; day 0 is a Monday and weekdays run from 0 to 6. */
module NextStart {
  import opened Common

  const DAY: nat := 86400

  type MinuteOfDay = m: int | 0 <= m < 1440

  datatype Program = Program(days: seq<int>, minute: MinuteOfDay, zones: seq<int>)

  function StartOn(p: Program, day: nat): nat {
    day * DAY + p.minute * 60
  }

  predicate RunsOn(p: Program, day: nat) {
    day % 7 in p.days
  }

  /** A future start of p: on one of its days and strictly after the bound. */
  predicate IsFutureStart(p: Program, bound: nat, day: nat) {
    RunsOn(p, day) && StartOn(p, day) > bound
  }

  /** The day-by-day search: the first future start on day offsets off .. horizon - 1. */
  function Scan(p: Program, bound: nat, off: nat, horizon: nat): Option<nat>
    decreases horizon - off
  {
    if off >= horizon then None
    else if IsFutureStart(p, bound, bound / DAY + off) then Some(StartOn(p, bound / DAY + off))
    else Scan(p, bound, off + 1, horizon)
  }

  /** s is the least of all future starts of p, on whatever date. */
  ghost predicate IsNextStart(p: Program, bound: nat, s: nat) {
    && (exists day: nat :: IsFutureStart(p, bound, day) && s == StartOn(p, day))
    && (forall day: nat | IsFutureStart(p, bound, day) :: s <= StartOn(p, day))
  }

  ghost predicate HasWeekday(p: Program) {
    exists d :: 0 <= d < 7 && d in p.days
  }

  lemma EarlierDayEarlierStart(p: Program, a: nat, b: nat)
    ensures a < b <==> StartOn(p, a) < StartOn(p, b)
  {
  }

  /** Starts on days before the bound's own day are over. */
  lemma PastDaysAreOver(p: Program, bound: nat, day: nat)
    requires StartOn(p, day) > bound
    ensures day >= bound / DAY
  {
  }

  lemma {:induction false} ScanFindsLeast(p: Program, bound: nat, off: nat, horizon: nat)
    requires forall day: nat | IsFutureStart(p, bound, day) :: day >= bound / DAY + off
    ensures match Scan(p, bound, off, horizon)
            case Some(s) => IsNextStart(p, bound, s)
            case None => forall day: nat | IsFutureStart(p, bound, day) :: day >= bound / DAY + horizon
    decreases horizon - off
  {
    if off < horizon {
      if IsFutureStart(p, bound, bound / DAY + off) {
        forall day: nat | IsFutureStart(p, bound, day)
          ensures StartOn(p, bound / DAY + off) <= StartOn(p, day)
        {
          EarlierDayEarlierStart(p, day, bound / DAY + off);
        }
      } else {
        ScanFindsLeast(p, bound, off + 1, horizon);
      }
    }
  }

  lemma WeekdayReached(day: nat, d: nat)
    requires d < 7
    ensures (day + (d + 7 - day % 7) % 7) % 7 == d
  {
    var r := day % 7;
    assert day == day / 7 * 7 + r;
    if d >= r {
      assert (d + 7 - r) % 7 == d - r;
      assert day + (d - r) == day / 7 * 7 + d;
    } else {
      assert (d + 7 - r) % 7 == d + 7 - r;
      assert day + (d + 7 - r) == (day / 7 + 1) * 7 + d;
    }
  }

  /** A program with a weekday starts again within a week of the bound. */
  lemma StartWithinAWeek(p: Program, bound: nat, d: nat) returns (day: nat)
    requires d < 7 && d in p.days
    ensures IsFutureStart(p, bound, day) && bound / DAY + 1 <= day <= bound / DAY + 7
  {
    var tomorrow := bound / DAY + 1;
    day := tomorrow + (d + 7 - tomorrow % 7) % 7;
    WeekdayReached(tomorrow, d);
  }

  /** A search of eight days or more is complete: it finds the least future start, and finds one
      whenever the day list holds a weekday at all. */
  lemma ScanIsComplete(p: Program, bound: nat, horizon: nat)
    requires horizon >= 8
    ensures Scan(p, bound, 0, horizon).Some? <==> HasWeekday(p)
    ensures Scan(p, bound, 0, horizon).Some? ==> IsNextStart(p, bound, Scan(p, bound, 0, horizon).value)
  {
    forall day: nat | IsFutureStart(p, bound, day)
      ensures day >= bound / DAY
    {
      PastDaysAreOver(p, bound, day);
    }
    ScanFindsLeast(p, bound, 0, horizon);
    if HasWeekday(p) {
      var d :| 0 <= d < 7 && d in p.days;
      var day := StartWithinAWeek(p, bound, d);
    }
    assert forall day: nat | IsFutureStart(p, bound, day) :: 0 <= day % 7 < 7 && day % 7 in p.days;
  }

  lemma NextStartHasWeekday(p: Program, bound: nat, s: nat)
    requires IsNextStart(p, bound, s)
    ensures HasWeekday(p)
  {
    var day: nat :| IsFutureStart(p, bound, day) && s == StartOn(p, day);
    assert 0 <= day % 7 < 7 && day % 7 in p.days;
  }

  lemma NextStartIsUnique(p: Program, bound: nat, a: nat, b: nat)
    requires IsNextStart(p, bound, a) && IsNextStart(p, bound, b)
    ensures a == b
  {
  }

  /** p starts at second s: on one of its weekdays, at its minute of the day. */
  predicate StartsAt(p: Program, s: int) {
    s >= 0 && s / 86400 % 7 in p.days && s % 86400 == 60 * p.minute
  }

  /** s is the first second after `from` at which p starts. */
  ghost predicate FirstStartAfter(p: Program, from: int, s: int) {
    && StartsAt(p, s) && s > from
    && forall r | StartsAt(p, r) && r > from :: s <= r
  }

  lemma StartOnMeans(p: Program, day: nat)
    ensures StartsAt(p, StartOn(p, day)) <==> RunsOn(p, day)
    ensures StartOn(p, day) / 86400 == day
  {
  }

  lemma StartsAtMeans(p: Program, s: int)
    requires StartsAt(p, s)
    ensures RunsOn(p, s / 86400) && StartOn(p, s / 86400) == s
  {
  }

  lemma NextStartMeans(p: Program, bound: nat, s: nat)
    ensures IsNextStart(p, bound, s) <==> FirstStartAfter(p, bound, s)
  {
    if IsNextStart(p, bound, s) {
      var day: nat :| IsFutureStart(p, bound, day) && s == StartOn(p, day);
      StartOnMeans(p, day);
      forall r | StartsAt(p, r) && r > bound
        ensures s <= r
      {
        StartsAtMeans(p, r);
        assert IsFutureStart(p, bound, r / 86400);
      }
    } else if FirstStartAfter(p, bound, s) {
      StartsAtMeans(p, s);
      assert IsFutureStart(p, bound, s / 86400);
      var day: nat :| IsFutureStart(p, bound, day) && s > StartOn(p, day);
      StartOnMeans(p, day);
    }
  }

  lemma ScanMeans(p: Program, bound: nat, horizon: nat)
    requires horizon >= 8
    ensures var start := Scan(p, bound, 0, horizon);
      && (start.Some? ==> FirstStartAfter(p, bound, start.value))
      && (start.None? ==> forall d | 0 <= d < 7 :: d !in p.days)
  {
    ScanIsComplete(p, bound, horizon);
    if Scan(p, bound, 0, horizon).Some? {
      NextStartMeans(p, bound, Scan(p, bound, 0, horizon).value);
    }
  }

  /** The 14-day searches and the 15-day one therefore always agree. */
  lemma HorizonsAgree(p: Program, bound: nat, h: nat, k: nat)
    requires h >= 8 && k >= 8
    ensures Scan(p, bound, 0, h) == Scan(p, bound, 0, k)
  {
    ScanIsComplete(p, bound, h);
    ScanIsComplete(p, bound, k);
    if HasWeekday(p) {
      NextStartIsUnique(p, bound, Scan(p, bound, 0, h).value, Scan(p, bound, 0, k).value);
    }
  }

  ghost predicate Suffices(horizon: nat) {
    forall p: Program, bound: nat | HasWeekday(p) :: Scan(p, bound, 0, horizon).Some?
  }

  lemma {:induction false} ShortScanMisses(p: Program, off: nat, horizon: nat)
    requires p.days == [0] && p.minute == 0 && off <= horizon <= 7
    ensures Scan(p, 0, off, horizon) == None
    decreases horizon - off
  {
    if off < horizon {
      ShortScanMisses(p, off + 1, horizon);
    }
  }

  /** Eight days is the least search that never misses: the same weekday may just have gone by. */
  lemma EightDaysSufficeExactly(horizon: nat)
    ensures Suffices(horizon) <==> horizon >= 8
  {
    if horizon >= 8 {
      forall p: Program, bound: nat | HasWeekday(p)
        ensures Scan(p, bound, 0, horizon).Some?
      {
        ScanIsComplete(p, bound, horizon);
      }
    } else {
      var p := Program([0], 0, []);
      assert 0 in p.days;
      ShortScanMisses(p, 0, horizon);
    }
  }

  // ---- The searches as they are coded ----

  method ScanDays(p: Program, bound: nat, horizon: nat) returns (start: Option<nat>)
    ensures start == Scan(p, bound, 0, horizon)
    ensures start.Some? ==> StartsAt(p, start.value) && start.value > bound
    ensures horizon >= 8 && start.Some? ==> FirstStartAfter(p, bound, start.value)
    ensures horizon >= 8 && start.None? ==> forall d | 0 <= d < 7 :: d !in p.days
  {
    if horizon >= 8 {
      ScanMeans(p, bound, horizon);
    }
    for off := 0 to horizon
      invariant Scan(p, bound, off, horizon) == Scan(p, bound, 0, horizon)
    {
      var day := bound / DAY + off;
      if day % 7 in p.days {
        var s := day * DAY + p.minute * 60;
        if s <= bound {
          continue;
        }
        StartOnMeans(p, day);
        return Some(s);
      }
    }
    return None;
  }

  /** The next day of the program after today, whatever the time: used when today's run is cancelled. */
  function NextDayStart(p: Program, now: nat, off: nat): Option<nat>
    decreases 15 - off
  {
    if off >= 15 then None
    else if RunsOn(p, now / DAY + off) then Some(StartOn(p, now / DAY + off))
    else NextDayStart(p, now, off + 1)
  }

  lemma {:induction false} NextDayStartIsScan(p: Program, now: nat, off: nat)
    requires 1 <= off <= 14
    ensures NextDayStart(p, now, off).Some? ==> Scan(p, now, off, 15) == NextDayStart(p, now, off)
    ensures NextDayStart(p, now, off).None? ==> Scan(p, now, off, 15) == None
    decreases 15 - off
  {
    assert StartOn(p, now / DAY + off) > now;
    if off < 14 && !RunsOn(p, now / DAY + off) {
      NextDayStartIsScan(p, now, off + 1);
    }
  }

  lemma {:induction false} NextDayStartExists(p: Program, now: nat, off: nat, hit: nat)
    requires off <= hit < 15 && RunsOn(p, now / DAY + hit)
    ensures NextDayStart(p, now, off).Some? && NextDayStart(p, now, off).value >= StartOn(p, now / DAY + off)
    decreases 15 - off
  {
    if !RunsOn(p, now / DAY + off) {
      NextDayStartExists(p, now, off + 1, hit);
    }
  }

  /** It is the first start on day number now / DAY + off or later, if there is one within two weeks. */
  lemma {:induction false} NextDayStartIsFirst(p: Program, now: nat, off: nat)
    requires 1 <= off <= 15 && NextDayStart(p, now, off).Some?
    ensures FirstStartAfter(p, (now / DAY + off) * 86400 - 1, NextDayStart(p, now, off).value)
    decreases 15 - off
  {
    var from := now / DAY + off;
    StartOnMeans(p, from);
    if !RunsOn(p, from) {
      NextDayStartIsFirst(p, now, off + 1);
      forall r | StartsAt(p, r) && r > from * 86400 - 1
        ensures r > (from + 1) * 86400 - 1
      {
        StartsAtMeans(p, r);
        assert r / 86400 != from;
      }
    }
  }

  lemma TomorrowMeans(p: Program, now: nat)
    ensures var start := NextDayStart(p, now, 1);
      && (start.Some? ==> FirstStartAfter(p, now / 86400 * 86400 + 86399, start.value))
      && (start.None? ==> forall d | 0 <= d < 7 :: d !in p.days)
  {
    if NextDayStart(p, now, 1).Some? {
      NextDayStartIsFirst(p, now, 1);
    }
    if HasWeekday(p) {
      var d :| 0 <= d < 7 && d in p.days;
      var day := StartWithinAWeek(p, now, d);
      NextDayStartExists(p, now, 1, day - now / DAY);
    }
  }

  method ScanFromTomorrow(p: Program, now: nat) returns (start: Option<nat>)
    ensures start == NextDayStart(p, now, 1)
    ensures start.Some? ==> FirstStartAfter(p, now / 86400 * 86400 + 86399, start.value)
    ensures start.None? ==> forall d | 0 <= d < 7 :: d !in p.days
  {
    TomorrowMeans(p, now);
    for off := 1 to 15
      invariant NextDayStart(p, now, off) == NextDayStart(p, now, 1)
    {
      if (now / DAY + off) % 7 in p.days {
        return Some((now / DAY + off) * DAY + p.minute * 60);
      }
    }
    return None;
  }
}
