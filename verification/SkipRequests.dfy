/** Skipping the zone that is being watered (irrigation_scheduler.py, request_skip_current_zone and
    the polls of the group's one runner). Requests and polls are single steps. */
module SkipRequests {
  datatype Answer = Ok | NoSession | Debounced

  const DEBOUNCE: real := 1.0

  datatype State = State(
    skip: map<int, bool>,      // group_skip_current_events: the event, if any, and whether it is set
    lastSkip: map<int, real>)  // _last_skip_ts

  const Fresh := State(map[], map[])

  datatype Action =
    | Request(group: int, active: bool, now: real)  // `active`: the group has a session at that moment
    | ZoneStarts(group: int)                        // the runner drops a stale request
    | Poll(group: int)                              // the runner looks for a request, once a second
    | RunEnds(group: int)                           // the runner's clean-up

  function LastSkip(s: State, g: int): real {
    if g in s.lastSkip then s.lastSkip[g] else 0.0
  }

  function AnswerTo(s: State, a: Action): Answer
    requires a.Request?
  {
    if !a.active then NoSession
    else if a.now - LastSkip(s, a.group) < DEBOUNCE then Debounced
    else Ok
  }

  predicate IsSet(s: State, g: int) {
    g in s.skip && s.skip[g]
  }

  function Next(s: State, a: Action): State {
    match a
    case Request(g, active, now) =>
      if AnswerTo(s, a) == Ok then State(s.skip[g := true], s.lastSkip[g := now]) else s
    case ZoneStarts(g) => if IsSet(s, g) then s.(skip := s.skip[g := false]) else s
    case Poll(g) => if IsSet(s, g) then s.(skip := s.skip[g := false]) else s
    case RunEnds(g) => s.(skip := s.skip - {g})
  }

  function After(run: seq<Action>, k: nat): State
    requires k <= |run|
  {
    if k == 0 then Fresh else Next(After(run, k - 1), run[k - 1])
  }

  /** Step k grants a skip for group g. */
  predicate Granted(run: seq<Action>, g: int, k: nat)
    requires k < |run|
  {
    run[k].Request? && run[k].group == g && AnswerTo(After(run, k), run[k]) == Ok
  }

  /** Step k is the poll that cuts a zone of group g short. */
  predicate Cuts(run: seq<Action>, g: int, k: nat)
    requires k < |run|
  {
    run[k] == Poll(g) && IsSet(After(run, k), g)
  }

  function CountGranted(run: seq<Action>, g: int, k: nat): nat
    requires k <= |run|
  {
    if k == 0 then 0 else CountGranted(run, g, k - 1) + (if Granted(run, g, k - 1) then 1 else 0)
  }

  function CountCuts(run: seq<Action>, g: int, k: nat): nat
    requires k <= |run|
  {
    if k == 0 then 0 else CountCuts(run, g, k - 1) + (if Cuts(run, g, k - 1) then 1 else 0)
  }

  /** Skips are conserved: a granted request cuts at most one zone. */
  lemma {:induction false} CutsNeverOutnumberGrants(run: seq<Action>, g: int, k: nat)
    requires k <= |run|
    ensures CountCuts(run, g, k) + (if IsSet(After(run, k), g) then 1 else 0) <= CountGranted(run, g, k)
  {
    if k > 0 {
      CutsNeverOutnumberGrants(run, g, k - 1);
    }
  }

  /** Step i forgets any request that is pending for group g. */
  predicate Forgets(run: seq<Action>, g: int, i: nat)
    requires i < |run|
  {
    run[i] == ZoneStarts(g) || run[i] == RunEnds(g) || run[i] == Poll(g)
  }

  /** A set flag goes back to a granted request, and nothing has forgotten it since. */
  lemma {:induction false} FlagHasRequest(run: seq<Action>, g: int, k: nat) returns (j: nat)
    requires k <= |run| && IsSet(After(run, k), g)
    ensures j < k && Granted(run, g, j)
    ensures forall i | j < i < k :: !Forgets(run, g, i)
  {
    if Granted(run, g, k - 1) {
      j := k - 1;
    } else {
      j := FlagHasRequest(run, g, k - 1);
    }
  }

  /** A cut answers a request granted after the zone's own start and after every earlier poll: a
      request from before a zone's start never cuts that zone, and no request cuts two zones. */
  lemma CutAnswersOwnRequest(run: seq<Action>, g: int, k: nat) returns (j: nat)
    requires k < |run| && Cuts(run, g, k)
    ensures j < k && Granted(run, g, j)
    ensures forall i | 0 <= i < k && (run[i] == ZoneStarts(g) || run[i] == RunEnds(g) || Cuts(run, g, i)) :: i < j
  {
    j := FlagHasRequest(run, g, k);
    forall i | 0 <= i < k && (run[i] == ZoneStarts(g) || run[i] == RunEnds(g) || Cuts(run, g, i))
      ensures i < j
    {
      assert Forgets(run, g, i) && i != j;
    }
  }

  lemma {:induction false} LastSkipIsLatestGrant(run: seq<Action>, g: int, i: nat, k: nat)
    requires i < k <= |run| && Granted(run, g, i)
    ensures LastSkip(After(run, k), g) >= run[i].now
  {
    if i < k - 1 {
      LastSkipIsLatestGrant(run, g, i, k - 1);
    }
  }

  /** Two granted requests for one group are at least a second apart, whoever sends them. */
  lemma GrantsAreDebounced(run: seq<Action>, g: int, i: nat, k: nat)
    requires i < k < |run| && Granted(run, g, i) && Granted(run, g, k)
    ensures run[k].now - run[i].now >= DEBOUNCE
  {
    LastSkipIsLatestGrant(run, g, i, k);
  }

  /** The last skip on record is the time of a granted request, or zero if there was none. */
  lemma {:induction false} LastSkipIsAGrant(run: seq<Action>, g: int, k: nat)
    requires k <= |run|
    ensures LastSkip(After(run, k), g) == 0.0
            || exists i :: 0 <= i < k && Granted(run, g, i) && run[i].now == LastSkip(After(run, k), g)
  {
    if k > 0 {
      LastSkipIsAGrant(run, g, k - 1);
      if Granted(run, g, k - 1) {
        assert run[k - 1].now == LastSkip(After(run, k), g);
      }
    }
  }

  lemma GrantsAreLate(run: seq<Action>, g: int, k: nat)
    requires k < |run| && Granted(run, g, k)
    ensures run[k].now >= 1.0
  {
    LastSkipIsAGrant(run, g, k);
    if LastSkip(After(run, k), g) != 0.0 {
      var i :| 0 <= i < k && Granted(run, g, i) && run[i].now == LastSkip(After(run, k), g);
      GrantsAreLate(run, g, i);
    }
  }

  /** A request is granted exactly if the group has a session and the clock shows a second at least, since
      zero and since every request that was granted to the group before. */
  lemma GrantedIff(run: seq<Action>, g: int, k: nat)
    requires k < |run| && run[k].Request? && run[k].group == g
    ensures Granted(run, g, k) <==>
            && run[k].active && run[k].now >= 1.0
            && forall i | 0 <= i < k && Granted(run, g, i) :: run[k].now - run[i].now >= 1.0
  {
    LastSkipIsAGrant(run, g, k);
    forall i | 0 <= i < k && Granted(run, g, i)
      ensures LastSkip(After(run, k), g) >= run[i].now >= 1.0
    {
      LastSkipIsLatestGrant(run, g, i, k);
      GrantsAreLate(run, g, i);
    }
    if LastSkip(After(run, k), g) != 0.0 {
      var i :| 0 <= i < k && Granted(run, g, i) && run[i].now == LastSkip(After(run, k), g);
      GrantsAreLate(run, g, i);
    }
  }

  /** A granted request is not lost: unless something forgets it first, the runner's next poll cuts the zone. */
  lemma {:induction false} GrantSetsFlag(run: seq<Action>, g: int, j: nat, k: nat)
    requires j < k <= |run| && Granted(run, g, j) && forall i | j < i < k :: !Forgets(run, g, i)
    ensures IsSet(After(run, k), g)
    ensures k < |run| && run[k] == Poll(g) ==> Cuts(run, g, k)
  {
    if j < k - 1 {
      GrantSetsFlag(run, g, j, k - 1);
      assert !Forgets(run, g, k - 1);
    }
  }

  /** The dictionaries themselves. */
  class SkipControl {
    var skipCurrent: map<int, bool>
    var lastSkipTs: map<int, real>

    ghost function View(): State
      reads this
    {
      State(skipCurrent, lastSkipTs)
    }

    constructor ()
      ensures View() == Fresh
    {
      skipCurrent, lastSkipTs := map[], map[];
    }

    method RequestSkipCurrentZone(g: int, active: bool, now: real) returns (answer: Answer)
      modifies this
      ensures answer == AnswerTo(old(View()), Request(g, active, now))
      ensures View() == Next(old(View()), Request(g, active, now))
      ensures IsSet(View(), g) <==> answer == Ok || IsSet(old(View()), g)
      ensures answer == NoSession <==> !active
      ensures active ==> (answer == Ok <==> now - (if g in old(lastSkipTs) then old(lastSkipTs)[g] else 0.0) >= 1.0)
      ensures answer == Ok ==> skipCurrent == old(skipCurrent)[g := true] && lastSkipTs == old(lastSkipTs)[g := now]
      ensures answer != Ok ==> skipCurrent == old(skipCurrent) && lastSkipTs == old(lastSkipTs)
    {
      if !active {
        return NoSession;
      }
      var last := if g in lastSkipTs then lastSkipTs[g] else 0.0;
      if now - last < DEBOUNCE {
        return Debounced;
      }
      lastSkipTs := lastSkipTs[g := now];
      if g !in skipCurrent {
        skipCurrent := skipCurrent[g := false];
      }
      skipCurrent := skipCurrent[g := true];
      answer := Ok;
    }

    method DropStale(g: int)
      modifies `skipCurrent
      ensures View() == Next(old(View()), ZoneStarts(g))
      ensures !IsSet(View(), g)
      ensures skipCurrent.Keys == old(skipCurrent).Keys
      ensures forall h | h in skipCurrent :: skipCurrent[h] == (h != g && old(skipCurrent)[h])
    {
      if g in skipCurrent && skipCurrent[g] {
        skipCurrent := skipCurrent[g := false];
      }
    }

    method PollSkip(g: int) returns (cut: bool)
      modifies `skipCurrent
      ensures View() == Next(old(View()), Poll(g))
      ensures cut <==> g in old(skipCurrent) && old(skipCurrent)[g]
      ensures skipCurrent.Keys == old(skipCurrent).Keys
      ensures forall h | h in skipCurrent :: skipCurrent[h] == (h != g && old(skipCurrent)[h])
    {
      cut := g in skipCurrent && skipCurrent[g];
      if cut {
        skipCurrent := skipCurrent[g := false];
      }
    }

    method CleanUp(g: int)
      modifies `skipCurrent
      ensures View() == Next(old(View()), RunEnds(g))
      ensures forall h :: h in skipCurrent <==> h in old(skipCurrent) && h != g
      ensures forall h | h in skipCurrent :: skipCurrent[h] == old(skipCurrent)[h]
    {
      skipCurrent := skipCurrent - {g};
    }
  }
}
