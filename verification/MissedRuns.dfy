/** Catching up a program whose start was missed while the service was down
    (irrigation_scheduler.py, recover_missed_runs). */
module MissedRuns {
  import opened Common

  const DAY: int := 86400

  /** A program row as recovery reads it; `start` is the main time, in minutes after midnight. Day 0 is a
      Monday, so that weekday numbers agree with the 0..6 of the stored day lists. */
  datatype Program = Program(id: int, days: set<int>, start: nat, zones: seq<int>)

  /** The index loop: how many of the slots have finished after `elapsedMin` whole minutes. */
  method FirstUnfinished(durations: seq<nat>, elapsedMin: nat) returns (startIdx: nat)
    ensures startIdx <= |durations|
    ensures Prefix(durations, startIdx) <= elapsedMin
    ensures startIdx < |durations| ==> elapsedMin < Prefix(durations, startIdx + 1)
  {
    var cumulative := 0;
    startIdx := 0;
    var idx := 0;
    while idx < |durations|
      invariant 0 <= idx <= |durations|
      invariant startIdx == idx
      invariant cumulative == Prefix(durations, idx) <= elapsedMin
    {
      if elapsedMin >= cumulative + durations[idx] {
        cumulative := cumulative + durations[idx];
        startIdx := idx + 1;
      } else {
        startIdx := idx;
        break;
      }
      idx := idx + 1;
    }
  }

  /** The slot that contains an instant is unique, so the index is determined by its two bounds. */
  lemma SlotIsUnique(ds: seq<nat>, e: nat, i: nat, j: nat)
    requires i < |ds| && j < |ds|
    requires Prefix(ds, i) <= e < Prefix(ds, i + 1)
    requires Prefix(ds, j) <= e < Prefix(ds, j + 1)
    ensures i == j
  {
    if i < j {
      PrefixMonotone(ds, i + 1, j);
    } else if j < i {
      PrefixMonotone(ds, j + 1, i);
    }
  }

  lemma SortedKeepsZones(zs: seq<int>)
    ensures forall z :: z in Sorted(zs) <==> z in zs
  {
    SortedPermutes(zs);
    assert forall z :: z in Sorted(zs) <==> z in multiset(Sorted(zs));
    assert forall z :: z in zs <==> z in multiset(zs);
  }

  lemma MinutesAndSeconds(seconds: nat, minutes: nat)
    requires minutes == seconds / 60
    ensures 60 * minutes <= seconds < 60 * (minutes + 1)
  {
  }

  /** What recovery schedules for one program at time `now`: the zones still to be watered, or
      nothing. The second result is the index of the first of them. */
  method Recover(p: Program, now: nat, duration: map<int, nat>, on: set<int>)
    returns (rest: Option<seq<int>>, startIdx: nat)
    // Recovery fires exactly when today's run of the program is under way and nobody runs it.
    ensures rest.Some? <==>
      var start := now / 86400 * 86400 + 60 * p.start;
      && now / 86400 % 7 in p.days
      && start <= now < start + 60 * Before(duration, Sorted(p.zones), |p.zones|)
      && forall z | z in p.zones :: z !in on
    // It resumes in the slot that contains now, measured to the second.
    ensures rest.Some? ==> startIdx < |p.zones| && rest.value == Sorted(p.zones)[startIdx..] && rest.value != []
    ensures rest.Some? ==>
      var zs, seconds := Sorted(p.zones), now - (now / 86400 * 86400 + 60 * p.start);
      60 * Before(duration, zs, startIdx) <= seconds < 60 * Before(duration, zs, startIdx + 1)
  {
    rest, startIdx := None, 0;
    if (now / DAY) % 7 !in p.days {
      return;
    }
    var start := now / DAY * DAY + p.start * 60;
    if now < start {
      return;
    }
    var zs := Sorted(p.zones);
    if |zs| == 0 {
      return;
    }
    SortedKeepsZones(p.zones);
    if exists z | z in zs :: z in on {
      return;
    }
    var durations := EachMinutes(duration, zs);
    var total := TotalMinutes(duration, zs);
    if now >= start + 60 * total {
      return;
    }
    var elapsedMin := (now - start) / 60;
    MinutesAndSeconds(now - start, elapsedMin);
    startIdx := FirstUnfinished(durations, elapsedMin);
    if startIdx >= |zs| {
      // The source's own guard; now < start + 60 * total rules it out.
      assert false;
    }
    rest := Some(zs[startIdx..]);
  }
}
