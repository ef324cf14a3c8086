/** The loop that waters the zones of a group one after another (irrigation_scheduler.py,
    start_group_sequence and _run_group_sequence). One timed-out wait of a second is one tick. */
module SequenceRunner {
  import opened Common

  /** What the flags will show when they are looked at. The run looks at its cancel flag once per
      step; the other answers are indexed by that count. Nothing is assumed about any of them. */
  datatype Signals = Signals(
    cancel: nat -> bool,     // the captured cancel event is set
    skip: nat -> bool,       // the group's skip event is set
    shutdown: nat -> bool,   // the one-second wait was cut short by the shutdown event
    rest: nat -> nat)        // how long the make-up wait would last if it had no limit

  datatype Cause = Elapsed | Cancelled | Skipped | ShutDown

  /** One zone's turn, with the step at which its pre-start check was made. */
  datatype Watering = Watering(zone: int, position: nat, start: nat, stop: nat, ticks: nat, cause: Cause, check: nat)

  datatype Turn = Turn(ticks: nat, cause: Cause, next: nat)

  datatype Outcome = Outcome(log: seq<Watering>, clock: nat)

  /** The number from 0 to 15 that is nearest to the setting. */
  function EarlyOff(setting: int): (r: nat)
    ensures r <= 15
    ensures (r > 0 ==> r <= setting) && (r < 15 ==> r >= setting)
  {
    if setting < 0 then 0 else if setting > 15 then 15 else setting
  }

  /** The zones in watering order, with the minutes that are due for each zone that exists. */
  datatype Plan = Plan(zones: seq<int>, duration: map<int, nat>, early: nat)

  /** Only positive durations count; a zone with none is passed over. */
  function Due(duration: map<int, int>): map<int, nat> {
    map z | z in duration :: if duration[z] > 0 then duration[z] else 0
  }

  function MinutesOf(p: Plan, k: nat): nat
    requires k < |p.zones|
  {
    Minutes(p.duration, p.zones[k])
  }

  /** The polling loop, from step n with the given number of seconds to go. */
  function Watch(sig: Signals, n: nat, remaining: nat): Turn
    decreases remaining
  {
    if remaining == 0 then Turn(0, Elapsed, n)
    else if sig.cancel(n) then Turn(0, Cancelled, n + 1)
    else if sig.skip(n) then Turn(0, Skipped, n + 1)
    else if sig.shutdown(n) then Turn(0, ShutDown, n + 1)
    else
      var t := Watch(sig, n + 1, remaining - 1);
      t.(ticks := t.ticks + 1)
  }

  /** Seconds of watering for zone k: its minutes less the early switch-off. */
  function Limit(p: Plan, k: nat): nat
    requires k < |p.zones|
  {
    if MinutesOf(p, k) * 60 >= p.early then MinutesOf(p, k) * 60 - p.early else 0
  }

  /** Between two zones: whether the run goes on, and the step and time at which it does. */
  datatype Gap = Gap(again: bool, next: nat, clock: nat)

  /** A skip goes on at once; otherwise the early seconds are made up for, unless the run is cancelled. */
  function AfterTurn(early: nat, sig: Signals, t: Turn, stop: nat): Gap {
    if t.cause == Skipped then Gap(true, t.next, stop)
    else
      var m := if early > 0 then t.next + 1 else t.next;
      var later := if early > 0 && !sig.cancel(t.next) then stop + Min(sig.rest(t.next), early) else stop;
      if sig.cancel(m) then Gap(false, m, later) else Gap(true, m + 1, later)
  }

  function TurnOf(p: Plan, sig: Signals, k: nat, n: nat): Turn
    requires k < |p.zones|
  {
    Watch(sig, n + 1, Limit(p, k))
  }

  function EntryOf(p: Plan, sig: Signals, k: nat, n: nat, clock: nat): Watering
    requires k < |p.zones|
  {
    var t := TurnOf(p, sig, k, n);
    Watering(p.zones[k], k, clock, clock + t.ticks, t.ticks, t.cause, n)
  }

  function GapOf(p: Plan, sig: Signals, k: nat, n: nat, clock: nat): Gap
    requires k < |p.zones|
  {
    var t := TurnOf(p, sig, k, n);
    AfterTurn(p.early, sig, t, clock + t.ticks)
  }

  /** What a run does from zone number k on. */
  function RunFrom(p: Plan, sig: Signals, k: nat, n: nat, clock: nat): Outcome
    requires k <= |p.zones|
    decreases |p.zones| - k
  {
    if k == |p.zones| || sig.cancel(n) then Outcome([], clock)
    else if MinutesOf(p, k) == 0 then RunFrom(p, sig, k + 1, n + 1, clock)
    else
      var w, gap := EntryOf(p, sig, k, n, clock), GapOf(p, sig, k, n, clock);
      if gap.again then
        var rest := RunFrom(p, sig, k + 1, gap.next, gap.clock);
        Outcome([w] + rest.log, rest.clock)
      else Outcome([w], gap.clock)
  }

  /** When zone k is due to start if the run starts at `base`. */
  function PlannedAt(p: Plan, base: int, k: nat): int
    requires k <= |p.zones|
  {
    base + 60 * Before(p.duration, p.zones, k)
  }

  // ---- The code ----

  lemma PlannedStep(p: Plan, base: int, k: nat)
    requires k < |p.zones|
    ensures PlannedAt(p, base, k + 1) == PlannedAt(p, base, k) + 60 * MinutesOf(p, k)
  {
  }

  /** The planned start of every zone, written before the sequence is queued. */
  method PlannedStarts(p: Plan, base: nat) returns (planned: seq<int>)
    ensures |planned| == |p.zones|
    ensures forall k | 0 <= k < |planned| :: planned[k] == PlannedAt(p, base, k)
  {
    planned := [];
    var cumulative := 0;
    for k := 0 to |p.zones|
      invariant |planned| == k
      invariant base + 60 * cumulative == PlannedAt(p, base, k)
      invariant forall j | 0 <= j < k :: planned[j] == PlannedAt(p, base, j)
    {
      PlannedStep(p, base, k);
      planned := planned + [base + 60 * cumulative];
      cumulative := cumulative + MinutesOf(p, k);
    }
  }

  /** The polling loop of one zone. */
  method WatchZone(sig: Signals, first: nat, limit: nat) returns (t: Turn)
    ensures t == Watch(sig, first, limit)
  {
    var remaining, n := limit, first;
    var ticks := 0;
    while remaining > 0
      invariant n == first + ticks
      invariant var rest := Watch(sig, n, remaining);
                Watch(sig, first, limit) == rest.(ticks := ticks + rest.ticks)
      decreases remaining
    {
      if sig.cancel(n) {
        return Turn(ticks, Cancelled, n + 1);
      }
      if sig.skip(n) {
        return Turn(ticks, Skipped, n + 1);
      }
      if sig.shutdown(n) {
        return Turn(ticks, ShutDown, n + 1);
      }
      ticks := ticks + 1;
      n := n + 1;
      remaining := remaining - 1;
    }
    return Turn(ticks, Elapsed, n);
  }

  /** The wait between two zones. */
  method WaitForNext(early: nat, sig: Signals, t: Turn, stop: nat) returns (gap: Gap)
    ensures gap == AfterTurn(early, sig, t, stop)
    ensures t.cause == Skipped ==> gap.again && gap.clock == stop && gap.next == t.next
    ensures t.cause != Skipped ==> (gap.again <==> !sig.cancel(t.next + (if early > 0 then 1 else 0)))
    ensures t.cause != Skipped && early > 0 && !sig.cancel(t.next) ==>
              gap.clock == stop + Min(sig.rest(t.next), early)
    ensures t.cause != Skipped && (early == 0 || sig.cancel(t.next)) ==> gap.clock == stop
  {
    if t.cause == Skipped {
      return Gap(true, t.next, stop);
    }
    var n, clock := t.next, stop;
    if early > 0 {
      if !sig.cancel(n) {
        clock := clock + Min(sig.rest(n), early);
      }
      n := n + 1;
    }
    if sig.cancel(n) {
      return Gap(false, n, clock);
    }
    return Gap(true, n + 1, clock);
  }

  /** One zone's turn, from switching it on to switching it off. */
  method WaterZone(p: Plan, sig: Signals, k: nat, n: nat, clock: nat) returns (w: Watering, t: Turn)
    requires k < |p.zones| && MinutesOf(p, k) > 0
    ensures w == EntryOf(p, sig, k, n, clock) && t == TurnOf(p, sig, k, n)
  {
    var seconds := p.duration[p.zones[k]] * 60;
    t := WatchZone(sig, n + 1, if seconds > p.early then seconds - p.early else 0);
    w := Watering(p.zones[k], k, clock, clock + t.ticks, t.ticks, t.cause, n);
  }

  // ---- One zone's turn ----

  predicate Quiet(sig: Signals, n: nat) {
    !sig.cancel(n) && !sig.skip(n) && !sig.shutdown(n)
  }

  /** The turn ends at the first step at which some flag is up, and not before. */
  lemma {:induction false} WatchStopsAtFirstFlag(sig: Signals, n: nat, remaining: nat)
    ensures var t := Watch(sig, n, remaining);
      && t.ticks <= remaining
      && (forall i | n <= i < n + t.ticks :: Quiet(sig, i))
      && (t.cause == Elapsed <==> t.ticks == remaining)
      && t.next == n + t.ticks + (if t.cause == Elapsed then 0 else 1)
      && (t.cause != Elapsed ==> !Quiet(sig, n + t.ticks))
      && (t.cause == Cancelled <==> t.ticks < remaining && sig.cancel(n + t.ticks))
      && (t.cause == ShutDown ==> sig.shutdown(n + t.ticks))
      && (t.cause == Skipped <==> t.ticks < remaining && sig.skip(n + t.ticks) && !sig.cancel(n + t.ticks))
    decreases remaining
  {
    if remaining > 0 && Quiet(sig, n) {
      WatchStopsAtFirstFlag(sig, n + 1, remaining - 1);
    }
  }

  // ---- Nothing overlaps, and the total is bounded ----

  /** In every run, whatever the flags do, the turns are disjoint and in plan order. */
  ghost predicate InOrder(log: seq<Watering>, k: nat, n: nat, from: nat, to: nat) {
    && (forall i | 0 <= i < |log| ::
          k <= log[i].position && n <= log[i].check && from <= log[i].start <= log[i].stop <= to)
    && (forall i, j | 0 <= i < j < |log| ::
          log[i].position < log[j].position && log[i].stop <= log[j].start && log[i].check < log[j].check)
    && from <= to
  }

  ghost predicate OrderedFrom(o: Outcome, k: nat, n: nat, clock: nat) {
    InOrder(o.log, k, n, clock, o.clock)
  }

  lemma TurnTakesTime(p: Plan, sig: Signals, k: nat, n: nat, clock: nat)
    requires k < |p.zones|
    ensures var w, gap := EntryOf(p, sig, k, n, clock), GapOf(p, sig, k, n, clock);
      && w.position == k && w.check == n < gap.next && clock == w.start <= w.stop <= gap.clock
  {
    WatchStopsAtFirstFlag(sig, n + 1, Limit(p, k));
  }

  lemma Prepend(w: Watering, log: seq<Watering>, k: nat, n: nat, next: nat, from: nat, to: nat)
    requires InOrder(log, k + 1, next, from, to)
    requires w.position == k && w.check == n < next && w.start <= w.stop <= from
    ensures InOrder([w] + log, k, n, w.start, to)
  {
    var all := [w] + log;
    forall i, j | 0 <= i < j < |all|
      ensures all[i].position < all[j].position && all[i].stop <= all[j].start && all[i].check < all[j].check
    {
      assert all[j] == log[j - 1];
      if i > 0 { assert all[i] == log[i - 1]; }
    }
    forall i | 0 <= i < |all|
      ensures k <= all[i].position && n <= all[i].check && w.start <= all[i].start <= all[i].stop <= to
    {
      if i > 0 { assert all[i] == log[i - 1]; }
    }
  }

  lemma OrderedEntry(w: Watering, rest: Outcome, k: nat, n: nat, next: nat, from: nat)
    requires OrderedFrom(rest, k + 1, next, from)
    requires w.position == k && w.check == n < next && w.start <= w.stop <= from
    ensures OrderedFrom(Outcome([w] + rest.log, rest.clock), k, n, w.start)
  {
    Prepend(w, rest.log, k, n, next, from, rest.clock);
  }

  lemma {:induction false} TurnsInOrder(p: Plan, sig: Signals, k: nat, n: nat, clock: nat)
    requires k <= |p.zones|
    ensures OrderedFrom(RunFrom(p, sig, k, n, clock), k, n, clock)
    decreases |p.zones| - k
  {
    if k < |p.zones| && !sig.cancel(n) {
      if MinutesOf(p, k) == 0 {
        TurnsInOrder(p, sig, k + 1, n + 1, clock);
      } else {
        TurnTakesTime(p, sig, k, n, clock);
        var w, gap := EntryOf(p, sig, k, n, clock), GapOf(p, sig, k, n, clock);
        if gap.again {
          TurnsInOrder(p, sig, k + 1, gap.next, gap.clock);
          OrderedEntry(w, RunFrom(p, sig, k + 1, gap.next, gap.clock), k, n, gap.next, gap.clock);
        }
      }
    }
  }

  lemma TurnIsBounded(p: Plan, sig: Signals, k: nat, n: nat, clock: nat)
    requires k < |p.zones| && p.early <= 15 && MinutesOf(p, k) > 0
    ensures GapOf(p, sig, k, n, clock).clock <= clock + 60 * MinutesOf(p, k)
  {
    WatchStopsAtFirstFlag(sig, n + 1, Limit(p, k));
  }

  /** A run never takes longer than its minutes allow, however it is interrupted. */
  lemma {:induction false} RunIsBounded(p: Plan, sig: Signals, k: nat, n: nat, clock: nat)
    requires k <= |p.zones| && p.early <= 15
    ensures RunFrom(p, sig, k, n, clock).clock <= clock + 60 * (Before(p.duration, p.zones, |p.zones|) - Before(p.duration, p.zones, k))
    decreases |p.zones| - k
  {
    var ds := EachMinutes(p.duration, p.zones);
    PrefixMonotone(ds, k, |ds|);
    if k < |p.zones| && !sig.cancel(n) {
      PrefixMonotone(ds, k + 1, |ds|);
      assert Prefix(ds, k + 1) == Prefix(ds, k) + MinutesOf(p, k);
      if MinutesOf(p, k) == 0 {
        RunIsBounded(p, sig, k + 1, n + 1, clock);
      } else {
        TurnIsBounded(p, sig, k, n, clock);
        var gap := GapOf(p, sig, k, n, clock);
        RunIsBounded(p, sig, k + 1, gap.next, gap.clock);
      }
    }
  }

  // ---- What the log says ----

  /** The zone at this position had its turn. */
  ghost predicate Watered(log: seq<Watering>, position: nat) {
    exists i :: 0 <= i < |log| && log[i].position == position
  }

  function AtLatest(w: Watering, q: nat): int {
    w.check + w.ticks + 3 + (q - w.position)
  }

  /** A look at the flag, after the last turn of the log and before position q was reached, found it up. */
  ghost predicate LeftOut(sig: Signals, log: seq<Watering>, k: nat, n: nat, q: nat) {
    exists m: nat ::
      && sig.cancel(m) && n <= m
      && (forall i | 0 <= i < |log| :: log[i].check < m && log[i].position < q)
      && m <= if log == [] then n + (q - k) else AtLatest(log[|log| - 1], q)
  }

  /** An entry is for a zone with minutes due, whose flag was down when it was switched on, and its ticks
      are those up to the first step at which a flag was up, or all seconds but the early ones. */
  ghost predicate TurnMeans(zones: seq<int>, duration: map<int, int>, early: nat, sig: Signals, w: Watering) {
    && w.position < |zones| && w.zone == zones[w.position]
    && w.zone in duration && duration[w.zone] > 0
    && !sig.cancel(w.check)
    && w.stop == w.start + w.ticks
    && (forall m | w.check < m <= w.check + w.ticks :: !sig.cancel(m) && !sig.skip(m) && !sig.shutdown(m))
    && w.ticks <= Max(0, 60 * duration[w.zone] - early)
    && (w.cause == Elapsed <==> w.ticks == Max(0, 60 * duration[w.zone] - early))
    && (w.cause != Elapsed ==>
          var m := w.check + 1 + w.ticks;
          && (w.cause == Cancelled <==> sig.cancel(m))
          && (w.cause == Skipped <==> sig.skip(m) && !sig.cancel(m))
          && (w.cause == ShutDown ==> sig.shutdown(m)))
  }

  /** The run goes on at `at` after this turn: in the same second after a skip or once it is cancelled,
      otherwise when the early seconds have been made up for. */
  ghost predicate GoesOnAt(sig: Signals, early: nat, w: Watering, at: nat) {
    var m := w.check + 1 + w.ticks + (if w.cause == Elapsed then 0 else 1);
    at == w.stop + if w.cause == Skipped || early == 0 || sig.cancel(m) then 0 else Min(sig.rest(m), early)
  }

  /** The turns follow one another from `from` to `to` with no other pause. */
  ghost predicate Seamless(sig: Signals, early: nat, log: seq<Watering>, from: nat, to: nat) {
    && (if log == [] then from == to else log[0].start == from && GoesOnAt(sig, early, log[|log| - 1], to))
    && (forall i | 0 <= i < |log| - 1 :: GoesOnAt(sig, early, log[i], log[i + 1].start))
  }

  /** From zone k on: every zone with minutes due had its turn, or the flag was found up before it. */
  ghost predicate AllServed(p: Plan, sig: Signals, log: seq<Watering>, k: nat, n: nat) {
    forall q | k <= q < |p.zones| && MinutesOf(p, q) > 0 :: Watered(log, q) || LeftOut(sig, log, k, n, q)
  }

  lemma ServedSkip(p: Plan, sig: Signals, log: seq<Watering>, k: nat, n: nat)
    requires k < |p.zones| && MinutesOf(p, k) == 0 && AllServed(p, sig, log, k + 1, n + 1)
    ensures AllServed(p, sig, log, k, n)
  {
    forall q | k <= q < |p.zones| && MinutesOf(p, q) > 0
      ensures Watered(log, q) || LeftOut(sig, log, k, n, q)
    {
      assert Watered(log, q) || LeftOut(sig, log, k + 1, n + 1, q);
    }
  }

  lemma WateredLater(w: Watering, log: seq<Watering>, q: nat)
    requires Watered(log, q)
    ensures Watered([w] + log, q)
  {
    var i :| 0 <= i < |log| && log[i].position == q;
    assert ([w] + log)[i + 1].position == q;
  }

  lemma LeftOutLater(sig: Signals, w: Watering, log: seq<Watering>, k: nat, n: nat, next: nat, q: nat)
    requires LeftOut(sig, log, k + 1, next, q) && k < q
    requires w.position == k && w.check == n < next <= n + w.ticks + 4
    ensures LeftOut(sig, [w] + log, k, n, q)
  {
    var m: nat :|
      && sig.cancel(m) && next <= m
      && (forall i | 0 <= i < |log| :: log[i].check < m && log[i].position < q)
      && m <= if log == [] then next + (q - (k + 1)) else AtLatest(log[|log| - 1], q);
    var all := [w] + log;
    assert all[|all| - 1] == if log == [] then w else log[|log| - 1];
    forall i | 0 <= i < |all|
      ensures all[i].check < m && all[i].position < q
    {
      assert i > 0 ==> all[i] == log[i - 1];
    }
  }

  lemma ServedEntry(p: Plan, sig: Signals, w: Watering, log: seq<Watering>, k: nat, n: nat, next: nat)
    requires k < |p.zones| && AllServed(p, sig, log, k + 1, next)
    requires w.position == k && w.check == n < next <= n + w.ticks + 4
    ensures AllServed(p, sig, [w] + log, k, n)
  {
    forall q | k <= q < |p.zones| && MinutesOf(p, q) > 0
      ensures Watered([w] + log, q) || LeftOut(sig, [w] + log, k, n, q)
    {
      if q == k {
        assert ([w] + log)[0].position == q;
      } else if Watered(log, q) {
        WateredLater(w, log, q);
      } else {
        LeftOutLater(sig, w, log, k, n, next, q);
      }
    }
  }

  /** The run ends after this turn, and only because the flag is up. */
  lemma ServedLast(p: Plan, sig: Signals, k: nat, n: nat, clock: nat)
    requires k < |p.zones| && !GapOf(p, sig, k, n, clock).again
    ensures AllServed(p, sig, [EntryOf(p, sig, k, n, clock)], k, n)
  {
    var w, gap := EntryOf(p, sig, k, n, clock), GapOf(p, sig, k, n, clock);
    WatchStopsAtFirstFlag(sig, n + 1, Limit(p, k));
    forall q | k <= q < |p.zones| && MinutesOf(p, q) > 0
      ensures Watered([w], q) || LeftOut(sig, [w], k, n, q)
    {
      if q == k {
        assert [w][0].position == q;
      } else {
        assert sig.cancel(gap.next) && gap.next <= AtLatest(w, q);
      }
    }
  }

  lemma NextStep(p: Plan, sig: Signals, k: nat, n: nat, clock: nat)
    requires k < |p.zones|
    ensures var w, gap := EntryOf(p, sig, k, n, clock), GapOf(p, sig, k, n, clock);
      && n < gap.next <= n + w.ticks + 4
      && GoesOnAt(sig, p.early, w, gap.clock)
  {
    WatchStopsAtFirstFlag(sig, n + 1, Limit(p, k));
  }

  /** Only the cancel flag keeps a zone with minutes due from its turn; a skip or a shutdown costs no other
      zone its own. */
  lemma {:induction false} DueZonesAreServed(p: Plan, sig: Signals, k: nat, n: nat, clock: nat)
    requires k <= |p.zones|
    ensures AllServed(p, sig, RunFrom(p, sig, k, n, clock).log, k, n)
    decreases |p.zones| - k
  {
    if k < |p.zones| && !sig.cancel(n) {
      if MinutesOf(p, k) == 0 {
        DueZonesAreServed(p, sig, k + 1, n + 1, clock);
        ServedSkip(p, sig, RunFrom(p, sig, k + 1, n + 1, clock).log, k, n);
      } else {
        var w, gap := EntryOf(p, sig, k, n, clock), GapOf(p, sig, k, n, clock);
        if gap.again {
          NextStep(p, sig, k, n, clock);
          DueZonesAreServed(p, sig, k + 1, gap.next, gap.clock);
          ServedEntry(p, sig, w, RunFrom(p, sig, k + 1, gap.next, gap.clock).log, k, n, gap.next);
        } else {
          ServedLast(p, sig, k, n, clock);
        }
      }
    } else if k < |p.zones| {
      forall q | k <= q < |p.zones|
        ensures LeftOut(sig, [], k, n, q)
      {
        assert sig.cancel(n);
      }
    }
  }

  lemma EntryMeans(zones: seq<int>, duration: map<int, int>, early: nat, sig: Signals, k: nat, n: nat, clock: nat)
    requires k < |zones| && MinutesOf(Plan(zones, Due(duration), early), k) > 0 && !sig.cancel(n)
    ensures TurnMeans(zones, duration, early, sig, EntryOf(Plan(zones, Due(duration), early), sig, k, n, clock))
  {
    var p := Plan(zones, Due(duration), early);
    var w := EntryOf(p, sig, k, n, clock);
    WatchStopsAtFirstFlag(sig, n + 1, Limit(p, k));
    forall m | w.check < m <= w.check + w.ticks
      ensures !sig.cancel(m) && !sig.skip(m) && !sig.shutdown(m)
    {
      assert Quiet(sig, m);
    }
  }

  lemma SeamlessEntry(sig: Signals, early: nat, w: Watering, rest: Outcome, at: nat)
    requires GoesOnAt(sig, early, w, at) && Seamless(sig, early, rest.log, at, rest.clock)
    ensures Seamless(sig, early, [w] + rest.log, w.start, rest.clock)
  {
    var all := [w] + rest.log;
    assert forall i | 0 < i < |all| :: all[i] == rest.log[i - 1];
    if rest.log != [] {
      assert all[|all| - 1] == rest.log[|rest.log| - 1];
    }
    forall i | 0 <= i < |all| - 1
      ensures GoesOnAt(sig, early, all[i], all[i + 1].start)
    {
      if i > 0 {
        assert GoesOnAt(sig, early, rest.log[i - 1], rest.log[i].start);
      }
    }
  }

  lemma {:induction false} EntriesMean(zones: seq<int>, duration: map<int, int>, early: nat, sig: Signals,
                                       k: nat, n: nat, clock: nat)
    requires k <= |zones|
    ensures var o := RunFrom(Plan(zones, Due(duration), early), sig, k, n, clock);
      && (forall i | 0 <= i < |o.log| :: TurnMeans(zones, duration, early, sig, o.log[i]))
      && Seamless(sig, early, o.log, clock, o.clock)
    decreases |zones| - k
  {
    var p := Plan(zones, Due(duration), early);
    if k < |zones| && !sig.cancel(n) {
      if MinutesOf(p, k) == 0 {
        EntriesMean(zones, duration, early, sig, k + 1, n + 1, clock);
      } else {
        EntryMeans(zones, duration, early, sig, k, n, clock);
        NextStep(p, sig, k, n, clock);
        var w, gap := EntryOf(p, sig, k, n, clock), GapOf(p, sig, k, n, clock);
        if gap.again {
          EntriesMean(zones, duration, early, sig, k + 1, gap.next, gap.clock);
          SeamlessEntry(sig, early, w, RunFrom(p, sig, k + 1, gap.next, gap.clock), gap.clock);
        }
      }
    }
  }

  // ---- The whole run ----

  /** The whole outcome, given what has been logged before zone k. */
  ghost function Ahead(p: Plan, sig: Signals, log: seq<Watering>, k: nat, n: nat, clock: nat): Outcome
    requires k <= |p.zones|
  {
    var o := RunFrom(p, sig, k, n, clock);
    Outcome(log + o.log, o.clock)
  }

  lemma AheadStep(p: Plan, sig: Signals, log: seq<Watering>, k: nat, n: nat, clock: nat)
    requires k < |p.zones| && !sig.cancel(n)
    ensures var w, gap := EntryOf(p, sig, k, n, clock), GapOf(p, sig, k, n, clock);
            Ahead(p, sig, log, k, n, clock) ==
              if MinutesOf(p, k) == 0 then Ahead(p, sig, log, k + 1, n + 1, clock)
              else if gap.again then Ahead(p, sig, log + [w], k + 1, gap.next, gap.clock)
              else Outcome(log + [w], gap.clock)
  {
    var w, gap := EntryOf(p, sig, k, n, clock), GapOf(p, sig, k, n, clock);
    if MinutesOf(p, k) > 0 && gap.again {
      var rest := RunFrom(p, sig, k + 1, gap.next, gap.clock);
      assert log + ([w] + rest.log) == (log + [w]) + rest.log;
    }
  }

  lemma RunMeans(zones: seq<int>, duration: map<int, int>, early: nat, sig: Signals, now: nat)
    ensures var o := RunFrom(Plan(zones, Due(duration), early), sig, 0, 0, now);
      && (forall q | 0 <= q < |zones| && zones[q] in duration && duration[zones[q]] > 0 ::
            Watered(o.log, q) || LeftOut(sig, o.log, 0, 0, q))
      && (forall i | 0 <= i < |o.log| :: TurnMeans(zones, duration, early, sig, o.log[i]))
      && InOrder(o.log, 0, 0, now, o.clock) && Seamless(sig, early, o.log, now, o.clock)
  {
    var p := Plan(zones, Due(duration), early);
    DueZonesAreServed(p, sig, 0, 0, now);
    EntriesMean(zones, duration, early, sig, 0, 0, now);
    TurnsInOrder(p, sig, 0, 0, now);
    forall q | 0 <= q < |zones| && zones[q] in duration && duration[zones[q]] > 0
      ensures Watered(RunFrom(p, sig, 0, 0, now).log, q) || LeftOut(sig, RunFrom(p, sig, 0, 0, now).log, 0, 0, q)
    {
      assert MinutesOf(p, q) > 0;
    }
  }

  /** One zone's turn and the wait after it. */
  method TakeTurn(p: Plan, sig: Signals, k: nat, n: nat, clock: nat) returns (w: Watering, gap: Gap)
    requires k < |p.zones| && MinutesOf(p, k) > 0
    ensures w == EntryOf(p, sig, k, n, clock) && gap == GapOf(p, sig, k, n, clock)
  {
    var t: Turn;
    w, t := WaterZone(p, sig, k, n, clock);
    gap := WaitForNext(p.early, sig, t, w.stop);
  }

  /** The zones of a run one after another. `stillOn` are those it has switched on and not off again. */
  method WaterZones(p: Plan, sig: Signals, now: nat) returns (log: seq<Watering>, clock: nat, stillOn: set<int>)
    ensures Outcome(log, clock) == RunFrom(p, sig, 0, 0, now) && stillOn == {}
  {
    log, clock, stillOn := [], now, {};
    var n, k := 0, 0;
    while k < |p.zones| && !sig.cancel(n)
      invariant 0 <= k <= |p.zones| && stillOn == {}
      invariant Ahead(p, sig, log, k, n, clock) == RunFrom(p, sig, 0, 0, now)
      decreases |p.zones| - k
    {
      AheadStep(p, sig, log, k, n, clock);
      if MinutesOf(p, k) == 0 {
        k, n := k + 1, n + 1;
        continue;
      }
      stillOn := stillOn + {p.zones[k]};
      var w, gap := TakeTurn(p, sig, k, n, clock);
      stillOn := stillOn - {p.zones[k]};
      log := log + [w];
      clock, n := gap.clock, gap.next;
      if !gap.again {
        return;
      }
      k := k + 1;
    }
  }

  /** The whole run. */
  method RunGroupSequence(zones: seq<int>, duration: map<int, int>, earlySetting: int, sig: Signals, now: nat)
    returns (log: seq<Watering>, clock: nat, stillOn: set<int>)
    ensures Outcome(log, clock) == RunFrom(Plan(zones, Due(duration), EarlyOff(earlySetting)), sig, 0, 0, now)
    ensures forall q | 0 <= q < |zones| && zones[q] in duration && duration[zones[q]] > 0 ::
              Watered(log, q) || LeftOut(sig, log, 0, 0, q)
    ensures (forall n :: !sig.cancel(n)) ==>
              forall q | 0 <= q < |zones| && zones[q] in duration && duration[zones[q]] > 0 :: Watered(log, q)
    ensures forall i | 0 <= i < |log| :: TurnMeans(zones, duration, EarlyOff(earlySetting), sig, log[i])
    ensures InOrder(log, 0, 0, now, clock) && Seamless(sig, EarlyOff(earlySetting), log, now, clock)
    ensures stillOn == {}
  {
    var p := Plan(zones, Due(duration), EarlyOff(earlySetting));
    log, clock, stillOn := WaterZones(p, sig, now);
    RunMeans(zones, duration, p.early, sig, now);
  }

  // ---- Planned equals actual ----

  /** No flag is ever up, and the make-up wait is never cut short. */
  ghost predicate Uninterrupted(p: Plan, sig: Signals) {
    forall n: nat :: Quiet(sig, n) && sig.rest(n) >= p.early
  }

  ghost predicate EntryAsPlanned(p: Plan, w: Watering, k: nat, first: int) {
    && k <= w.position < |p.zones| && w.zone == p.zones[w.position] && MinutesOf(p, w.position) > 0
    && w.start == PlannedAt(p, first, w.position)
    && w.stop == w.start + 60 * MinutesOf(p, w.position) - p.early
    && w.cause == Elapsed
  }

  /** Every entry is as planned, and every zone from k on with minutes due has one. */
  ghost predicate AsPlanned(p: Plan, log: seq<Watering>, k: nat, first: int) {
    && (forall i | 0 <= i < |log| :: EntryAsPlanned(p, log[i], k, first))
    && (forall q | k <= q < |p.zones| && MinutesOf(p, q) > 0 :: Watered(log, q))
  }

  /** So is the whole outcome from zone k on, and it takes all the planned time. */
  ghost predicate RunAsPlanned(p: Plan, o: Outcome, k: nat, first: int) {
    AsPlanned(p, o.log, k, first) && o.clock == PlannedAt(p, first, |p.zones|)
  }

  lemma AsPlannedSkip(p: Plan, log: seq<Watering>, k: nat, first: int)
    requires k < |p.zones| && MinutesOf(p, k) == 0 && AsPlanned(p, log, k + 1, first)
    ensures AsPlanned(p, log, k, first)
  {
    forall i | 0 <= i < |log|
      ensures EntryAsPlanned(p, log[i], k, first)
    {
      assert EntryAsPlanned(p, log[i], k + 1, first);
    }
  }

  lemma PlannedSkip(p: Plan, rest: Outcome, k: nat, first: int)
    requires k < |p.zones| && MinutesOf(p, k) == 0 && RunAsPlanned(p, rest, k + 1, first)
    ensures RunAsPlanned(p, rest, k, first)
  {
    AsPlannedSkip(p, rest.log, k, first);
  }

  lemma AsPlannedPrepend(p: Plan, w: Watering, log: seq<Watering>, k: nat, first: int)
    requires k < |p.zones| && AsPlanned(p, log, k + 1, first)
    requires w.position == k && EntryAsPlanned(p, w, k, first)
    ensures AsPlanned(p, [w] + log, k, first)
  {
    var all := [w] + log;
    forall i | 0 <= i < |all|
      ensures EntryAsPlanned(p, all[i], k, first)
    {
      if i > 0 {
        assert all[i] == log[i - 1] && EntryAsPlanned(p, log[i - 1], k + 1, first);
      }
    }
    forall q | k <= q < |p.zones| && MinutesOf(p, q) > 0
      ensures Watered(all, q)
    {
      if q == k {
        assert all[0].position == q;
      } else {
        assert Watered(log, q);
        var i :| 0 <= i < |log| && log[i].position == q;
        assert all[i + 1].position == q;
      }
    }
  }

  lemma PlannedEntry(p: Plan, w: Watering, rest: Outcome, k: nat, first: int)
    requires k < |p.zones| && MinutesOf(p, k) > 0 && RunAsPlanned(p, rest, k + 1, first)
    requires w.position == k && w.zone == p.zones[k] && w.start == PlannedAt(p, first, k)
    requires w.stop == w.start + 60 * MinutesOf(p, k) - p.early && w.cause == Elapsed
    ensures RunAsPlanned(p, Outcome([w] + rest.log, rest.clock), k, first)
  {
    AsPlannedPrepend(p, w, rest.log, k, first);
  }

  lemma UninterruptedTurn(p: Plan, sig: Signals, k: nat, n: nat, clock: nat)
    requires k < |p.zones| && p.early <= 15 && Uninterrupted(p, sig) && MinutesOf(p, k) > 0
    ensures var w, gap := EntryOf(p, sig, k, n, clock), GapOf(p, sig, k, n, clock);
      && w.cause == Elapsed && w.stop == clock + 60 * MinutesOf(p, k) - p.early
      && gap.again && gap.clock == clock + 60 * MinutesOf(p, k)
  {
    var t := TurnOf(p, sig, k, n);
    WatchStopsAtFirstFlag(sig, n + 1, Limit(p, k));
    assert Quiet(sig, n + 1 + t.ticks);
    assert Quiet(sig, t.next) && Quiet(sig, t.next + 1) && sig.rest(t.next) >= p.early;
  }

  /** One zone of an uninterrupted run, with the run unfolded once. */
  lemma UninterruptedStep(p: Plan, sig: Signals, k: nat, n: nat, clock: nat)
    requires k < |p.zones| && p.early <= 15 && Uninterrupted(p, sig)
    ensures var w, gap := EntryOf(p, sig, k, n, clock), GapOf(p, sig, k, n, clock);
      if MinutesOf(p, k) == 0 then RunFrom(p, sig, k, n, clock) == RunFrom(p, sig, k + 1, n + 1, clock)
      else
        var rest := RunFrom(p, sig, k + 1, gap.next, gap.clock);
        && RunFrom(p, sig, k, n, clock) == Outcome([w] + rest.log, rest.clock)
        && w.cause == Elapsed && w.stop == clock + 60 * MinutesOf(p, k) - p.early
        && gap.clock == clock + 60 * MinutesOf(p, k)
  {
    assert Quiet(sig, n);
    if MinutesOf(p, k) > 0 {
      UninterruptedTurn(p, sig, k, n, clock);
    }
  }

  /** An uninterrupted run starts every zone that has minutes due exactly when the plan says, keeps it on
      for all of them but the early seconds, and ends when the plan does. */
  lemma {:induction false} PlannedEqualsActual(p: Plan, sig: Signals, k: nat, n: nat, clock: nat, first: int)
    requires k <= |p.zones| && p.early <= 15 && Uninterrupted(p, sig)
    requires clock == PlannedAt(p, first, k)
    ensures RunAsPlanned(p, RunFrom(p, sig, k, n, clock), k, first)
    decreases |p.zones| - k
  {
    if k < |p.zones| {
      PlannedStep(p, first, k);
      UninterruptedStep(p, sig, k, n, clock);
      if MinutesOf(p, k) == 0 {
        PlannedEqualsActual(p, sig, k + 1, n + 1, clock, first);
        PlannedSkip(p, RunFrom(p, sig, k + 1, n + 1, clock), k, first);
      } else {
        var w, gap := EntryOf(p, sig, k, n, clock), GapOf(p, sig, k, n, clock);
        PlannedEqualsActual(p, sig, k + 1, gap.next, gap.clock, first);
        PlannedEntry(p, w, RunFrom(p, sig, k + 1, gap.next, gap.clock), k, first);
      }
    }
  }

  // ---- Bounded cancel ----

  /** The cancel flag is up from step `set` on. */
  ghost predicate CancelledFrom(sig: Signals, set': nat) {
    forall n: nat | n >= set' :: sig.cancel(n)
  }

  /** Every check was made before the flag was up, and so was every tick; a zone whose check was the
      last step before the flag gets no tick and is the last. */
  ghost predicate StopsAt(log: seq<Watering>, set': nat) {
    forall i | 0 <= i < |log| ::
      && log[i].check < set'
      && log[i].check + 1 + log[i].ticks <= set'
      && (log[i].check + 1 == set' ==> log[i].ticks == 0 && i == |log| - 1)
  }

  /** Once the flag is up no zone passes its check any more, and no zone is watered for another tick.
      So at most one zone is still switched on, the one whose check was the step just before: it gets
      no tick at all and nothing follows it. */
  lemma {:induction false} CancelIsBounded(p: Plan, sig: Signals, k: nat, n: nat, clock: nat, set': nat)
    requires k <= |p.zones| && CancelledFrom(sig, set')
    ensures StopsAt(RunFrom(p, sig, k, n, clock).log, set')
    decreases |p.zones| - k
  {
    if k < |p.zones| && !sig.cancel(n) {
      if MinutesOf(p, k) == 0 {
        CancelIsBounded(p, sig, k + 1, n + 1, clock, set');
      } else {
        var t, gap := TurnOf(p, sig, k, n), GapOf(p, sig, k, n, clock);
        WatchStopsAtFirstFlag(sig, n + 1, Limit(p, k));
        assert t.ticks > 0 ==> Quiet(sig, n + t.ticks);
        if n + 1 == set' {
          assert sig.cancel(n + 1) && t.ticks == 0 && t.cause != Skipped;
          assert sig.cancel(t.next) && sig.cancel(t.next + 1);
        }
        if gap.again {
          CancelIsBounded(p, sig, k + 1, gap.next, gap.clock, set');
          var rest := RunFrom(p, sig, k + 1, gap.next, gap.clock).log;
          var log := [EntryOf(p, sig, k, n, clock)] + rest;
          assert forall i | 0 < i < |log| :: log[i] == rest[i - 1];
        }
      }
    }
  }

  // ---- Skip moves on at once ----

  /** After a skipped zone the next one starts in the same second, without the make-up wait. */
  lemma {:induction false} SkipMovesOn(p: Plan, sig: Signals, k: nat, n: nat, clock: nat)
    requires k <= |p.zones|
    ensures var log := RunFrom(p, sig, k, n, clock).log;
      && (log != [] ==> log[0].start == clock)
      && (forall i | 0 <= i < |log| - 1 && log[i].cause == Skipped :: log[i + 1].start == log[i].stop)
    decreases |p.zones| - k
  {
    if k < |p.zones| && !sig.cancel(n) {
      if MinutesOf(p, k) == 0 {
        SkipMovesOn(p, sig, k + 1, n + 1, clock);
      } else {
        var gap := GapOf(p, sig, k, n, clock);
        if gap.again {
          SkipMovesOn(p, sig, k + 1, gap.next, gap.clock);
          var log, rest := RunFrom(p, sig, k, n, clock).log, RunFrom(p, sig, k + 1, gap.next, gap.clock).log;
          assert forall i | 0 < i < |log| :: log[i] == rest[i - 1];
        }
      }
    }
  }
}
