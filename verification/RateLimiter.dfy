/** The sliding-window rate limiter (services/api_rate_limiter.py). */
module RateLimiter {
  import opened Common

  datatype Key = Key(ip: Text, group: Text)

  /** One call of _is_allowed, with the clock reading it takes. */
  datatype Call = Call(key: Key, max: int, window: int, now: real)

  datatype Decision =
    | Allowed
    | Refused(retryAfter: int)
    | NoOldest          // a limit below one with nothing recorded: recent[0] raises IndexError

  const PRUNE_EVERY := 500
  const PRUNE_WINDOW: real := 120.0

  datatype State = State(requests: map<Key, seq<real>>, callCount: nat)

  /** The comprehension `[ts for ts in timestamps if ts > cutoff]`. */
  function Recent(ts: seq<real>, cutoff: real): (r: seq<real>)
    ensures |r| <= |ts|
  {
    if ts == [] then []
    else if ts[0] > cutoff then [ts[0]] + Recent(ts[1..], cutoff)
    else Recent(ts[1..], cutoff)
  }

  function Recorded(m: map<Key, seq<real>>, k: Key): seq<real> {
    if k in m then m[k] else []
  }

  /** Pruning keeps, for every key, what is newer than the cutoff, and drops keys left with nothing. */
  function Pruned(m: map<Key, seq<real>>, cutoff: real): map<Key, seq<real>> {
    map k | k in m && Recent(m[k], cutoff) != [] :: Recent(m[k], cutoff)
  }

  /** int(x) of a Python float. */
  function Truncate(x: real): int {
    if x >= 0.0 then x.Floor else -((-x).Floor)
  }

  predicate Admits(recent: seq<real>, c: Call) {
    |recent| < c.max
  }

  function Decide(recent: seq<real>, c: Call): Decision {
    if Admits(recent, c) then Allowed
    else if recent == [] then NoOldest
    else
      var wait := Truncate(recent[0] - (c.now - c.window as real)) + 1;
      Refused(if wait > 1 then wait else 1)
  }

  /** The dictionary after the pruning that every 500th call begins with. */
  function Swept(s: State, now: real): map<Key, seq<real>> {
    if (s.callCount + 1) % PRUNE_EVERY == 0 then Pruned(s.requests, now - PRUNE_WINDOW) else s.requests
  }

  /** What one call finds recorded for its key. */
  function Found(s: State, c: Call): seq<real> {
    Recent(Recorded(Swept(s, c.now), c.key), c.now - c.window as real)
  }

  function DecisionOf(s: State, c: Call): Decision {
    Decide(Found(s, c), c)
  }

  function Next(s: State, c: Call): State {
    var m := Swept(s, c.now);
    var recent := Found(s, c);
    State(if Admits(recent, c) then m[c.key := recent + [c.now]]
          else if recent == [] then m
          else m[c.key := recent], s.callCount + 1)
  }

  /** The filtered list has exactly the newer entries, each as often as before. */
  lemma {:induction false} RecentKeeps(ts: seq<real>, cutoff: real)
    ensures forall t :: multiset(Recent(ts, cutoff))[t] == if t > cutoff then multiset(ts)[t] else 0
  {
    if ts != [] {
      RecentKeeps(ts[1..], cutoff);
      assert ts == [ts[0]] + ts[1..];
    }
  }

  lemma {:induction false} RecentIsRecent(ts: seq<real>, cutoff: real)
    ensures forall t :: t in Recent(ts, cutoff) <==> t in ts && t > cutoff
  {
    if ts != [] {
      RecentIsRecent(ts[1..], cutoff);
      assert ts == [ts[0]] + ts[1..];
    }
  }

  // ---- Pruning key by key ----

  /** What a key holds while the keys in `todo` have still to be filtered. */
  function PartlyRecent(ts: seq<real>, waiting: bool, cutoff: real): seq<real> {
    if waiting then ts else Recent(ts, cutoff)
  }

  ghost predicate PartlyPruned(before: map<Key, seq<real>>, now: map<Key, seq<real>>, todo: set<Key>,
                               empty: set<Key>, cutoff: real) {
    && todo <= before.Keys == now.Keys
    && (forall k | k in before :: now[k] == PartlyRecent(before[k], k in todo, cutoff))
    && (forall k :: k in empty <==> k in before && k !in todo && Recent(before[k], cutoff) == [])
  }

  lemma PruneKey(before: map<Key, seq<real>>, now: map<Key, seq<real>>, todo: set<Key>, empty: set<Key>,
                 cutoff: real, key: Key)
    requires PartlyPruned(before, now, todo, empty, cutoff) && key in todo
    ensures now[key] == before[key]
    ensures var kept := Recent(before[key], cutoff);
      PartlyPruned(before, now[key := kept], todo - {key}, if kept == [] then empty + {key} else empty, cutoff)
  {
  }

  lemma PruneIsComplete(before: map<Key, seq<real>>, now: map<Key, seq<real>>, empty: set<Key>, cutoff: real)
    requires PartlyPruned(before, now, {}, empty, cutoff)
    ensures now - empty == Pruned(before, cutoff)
  {
  }

  lemma SomeRecent(ts: seq<real>, cutoff: real)
    ensures Recent(ts, cutoff) != [] <==> exists t :: t in ts && t > cutoff
  {
    RecentIsRecent(ts, cutoff);
    if Recent(ts, cutoff) != [] {
      var oldest := Recent(ts, cutoff)[0];
      assert oldest in Recent(ts, cutoff);
    }
  }

  lemma PrunedMeans(m: map<Key, seq<real>>, cutoff: real)
    ensures forall k :: k in Pruned(m, cutoff) <==> k in m && exists t :: t in m[k] && t > cutoff
    ensures forall k | k in Pruned(m, cutoff) :: forall t :: t in Pruned(m, cutoff)[k] <==> t in m[k] && t > cutoff
  {
    forall k | k in m
      ensures Recent(m[k], cutoff) != [] <==> exists t :: t in m[k] && t > cutoff
      ensures forall t :: t in Recent(m[k], cutoff) <==> t in m[k] && t > cutoff
    {
      RecentIsRecent(m[k], cutoff);
      SomeRecent(m[k], cutoff);
    }
  }

  // ---- The module dictionary ----
  class ApiRateLimiter {
    var requests: map<Key, seq<real>>
    var callCount: nat

    ghost function View(): State
      reads this
    {
      State(requests, callCount)
    }

    constructor (calls: nat)
      ensures View() == State(map[], calls)
    {
      requests, callCount := map[], calls;
    }

    method Filter(ts: seq<real>, cutoff: real) returns (r: seq<real>)
      ensures r == Recent(ts, cutoff)
      ensures forall t :: multiset(r)[t] == if t > cutoff then multiset(ts)[t] else 0
    {
      RecentKeeps(ts, cutoff);
      r := [];
      var i := 0;
      while i < |ts|
        invariant 0 <= i <= |ts|
        invariant r + Recent(ts[i..], cutoff) == Recent(ts, cutoff)
      {
        assert ts[i..][1..] == ts[i + 1..];
        if ts[i] > cutoff {
          assert (r + [ts[i]]) + Recent(ts[i + 1..], cutoff) == r + ([ts[i]] + Recent(ts[i + 1..], cutoff));
          r := r + [ts[i]];
        }
        i := i + 1;
      }
    }

    method PruneOld(now: real, window: real)
      modifies `requests
      ensures requests == Pruned(old(requests), now - window)
      ensures forall k :: k in requests <==> k in old(requests) && exists t :: t in old(requests)[k] && t > now - window
      ensures forall k | k in requests :: forall t :: t in requests[k] <==> t in old(requests)[k] && t > now - window
    {
      PrunedMeans(requests, now - window);
      var cutoff := now - window;
      ghost var before := requests;
      var todo := requests.Keys;
      var keysToDelete: set<Key> := {};
      while todo != {}
        invariant PartlyPruned(before, requests, todo, keysToDelete, cutoff)
        decreases todo
      {
        var key :| key in todo;
        var kept := Filter(requests[key], cutoff);
        PruneKey(before, requests, todo, keysToDelete, cutoff, key);
        requests := requests[key := kept];
        if kept == [] {
          keysToDelete := keysToDelete + {key};
        }
        todo := todo - {key};
      }
      PruneIsComplete(before, requests, keysToDelete, cutoff);
      requests := requests - keysToDelete;
    }

    /** Counts the call, and prunes at every 500th. */
    method CountCall(now: real)
      modifies this
      ensures requests == Swept(old(View()), now) && callCount == old(callCount) + 1
    {
      callCount := callCount + 1;
      if callCount % PRUNE_EVERY == 0 {
        PruneOld(now, PRUNE_WINDOW);
      }
    }

    method IsAllowed(ip: Text, group: Text, max: int, window: int, now: real) returns (d: Decision)
      modifies this
      ensures d == DecisionOf(old(View()), Call(Key(ip, group), max, window, now))
      ensures View() == Next(old(View()), Call(Key(ip, group), max, window, now))
      ensures d == Allowed ==> Key(ip, group) in requests && 0 < |requests[Key(ip, group)]| <= max
      ensures d.Refused? ==> Key(ip, group) in requests && |requests[Key(ip, group)]| >= max
      ensures d.Refused? ==> requests[Key(ip, group)] != []
                             && var left := requests[Key(ip, group)][0] + window as real - now;
                                d.retryAfter as real - 1.0 <= left < d.retryAfter as real
    {
      var key := Key(ip, group);
      CountCall(now);
      var timestamps := if key in requests then requests[key] else [];
      var cutoff := now - window as real;
      var recent := Filter(timestamps, cutoff);
      if |recent| >= max {
        if recent == [] {
          return NoOldest;
        }
        RecentIsRecent(timestamps, cutoff);
        assert recent[0] in recent;
        var retryAfter := Truncate(recent[0] - cutoff) + 1;
        requests := requests[key := recent];
        return Refused(if retryAfter > 1 then retryAfter else 1);
      }
      recent := recent + [now];
      requests := requests[key := recent];
      return Allowed;
    }
  }

  // ---- The full history as the reference ----

  function After(s: State, calls: seq<Call>, n: nat): State
    requires n <= |calls|
  {
    if n == 0 then s else Next(After(s, calls, n - 1), calls[n - 1])
  }

  /** Every allowed request of key k among the first n calls, decided on that same full history. */
  function History(calls: seq<Call>, k: Key, n: nat): seq<real>
    requires n <= |calls|
  {
    if n == 0 then []
    else
      var h, c := History(calls, k, n - 1), calls[n - 1];
      if c.key == k && Admits(Recent(h, c.now - c.window as real), c) then h + [c.now] else h
  }

  function FullDecision(calls: seq<Call>, n: nat): Decision
    requires n < |calls|
  {
    var c := calls[n];
    Decide(Recent(History(calls, c.key, n), c.now - c.window as real), c)
  }

  ghost predicate ClockRuns(calls: seq<Call>) {
    forall i, j | 0 <= i <= j < |calls| :: calls[i].now <= calls[j].now
  }

  /** All calls for key k use the same window. */
  ghost predicate FixedWindow(calls: seq<Call>, k: Key, window: int) {
    forall i | 0 <= i < |calls| && calls[i].key == k :: calls[i].window == window
  }

  lemma {:induction false} RecentTwice(ts: seq<real>, a: real, b: real)
    requires a <= b
    ensures Recent(Recent(ts, a), b) == Recent(ts, b)
  {
    if ts != [] {
      RecentTwice(ts[1..], a, b);
      if ts[0] > a {
        assert ([ts[0]] + Recent(ts[1..], a))[1..] == Recent(ts[1..], a);
      }
    }
  }

  lemma {:induction false} RecentAppend(ts: seq<real>, us: seq<real>, a: real)
    ensures Recent(ts + us, a) == Recent(ts, a) + Recent(us, a)
  {
    if ts == [] {
      assert ts + us == us;
    } else {
      RecentAppend(ts[1..], us, a);
      assert (ts + us)[1..] == ts[1..] + us && (ts + us)[0] == ts[0];
      assert [ts[0]] + (Recent(ts[1..], a) + Recent(us, a)) == ([ts[0]] + Recent(ts[1..], a)) + Recent(us, a);
    }
  }

  /** Both lists look alike through every window that begins at `from` or later. */
  ghost predicate AgreeFrom(a: seq<real>, b: seq<real>, from: real) {
    forall cutoff: real | cutoff >= from :: Recent(a, cutoff) == Recent(b, cutoff)
  }

  lemma SweptAgrees(s: State, k: Key, now: real, h: seq<real>, from: real)
    requires AgreeFrom(Recorded(s.requests, k), h, from) && from >= now - PRUNE_WINDOW
    ensures AgreeFrom(Recorded(Swept(s, now), k), h, from)
  {
    var ts := Recorded(s.requests, k);
    assert Recorded(Pruned(s.requests, now - PRUNE_WINDOW), k) == Recent(ts, now - PRUNE_WINDOW);
    forall cutoff: real | cutoff >= from
      ensures Recent(Recorded(Swept(s, now), k), cutoff) == Recent(h, cutoff)
    {
      RecentTwice(ts, now - PRUNE_WINDOW, cutoff);
    }
  }

  lemma RecordKeepsAgreement(ts: seq<real>, h: seq<real>, from: real, now: real)
    requires AgreeFrom(ts, h, from)
    ensures AgreeFrom(Recent(ts, from), h, from)
    ensures AgreeFrom(Recent(ts, from) + [now], h + [now], from)
  {
    forall cutoff: real | cutoff >= from
      ensures Recent(Recent(ts, from), cutoff) == Recent(h, cutoff)
      ensures Recent(Recent(ts, from) + [now], cutoff) == Recent(h + [now], cutoff)
    {
      RecentTwice(ts, from, cutoff);
      RecentAppend(Recent(ts, from), [now], cutoff);
      RecentAppend(h, [now], cutoff);
    }
  }

  lemma AgreesAt(a: seq<real>, b: seq<real>, from: real)
    requires AgreeFrom(a, b, from)
    ensures Recent(a, from) == Recent(b, from)
  {
  }

  /** What a call leaves on record for key k. */
  lemma WhatIsRecorded(s: State, k: Key, c: Call)
    ensures var ts := Recorded(Swept(s, c.now), k);
      Recorded(Next(s, c).requests, k) ==
        if c.key != k then ts
        else if Admits(Found(s, c), c) then Found(s, c) + [c.now]
        else if Found(s, c) == [] then ts
        else Found(s, c)
  {
  }

  /** One call: the key finds its recent history, and the map goes on knowing it. */
  lemma CallKeepsAgreement(s: State, h: seq<real>, k: Key, c: Call, from: real)
    requires AgreeFrom(Recorded(s.requests, k), h, from) && from >= c.now - PRUNE_WINDOW
    requires c.key == k ==> c.now - c.window as real == from
    ensures c.key == k ==> Found(s, c) == Recent(h, from)
    ensures AgreeFrom(Recorded(Next(s, c).requests, k),
                      if c.key == k && Admits(Found(s, c), c) then h + [c.now] else h, from)
  {
    var ts := Recorded(Swept(s, c.now), k);
    SweptAgrees(s, k, c.now, h, from);
    RecordKeepsAgreement(ts, h, from, c.now);
    AgreesAt(ts, h, from);
    WhatIsRecorded(s, k, c);
  }

  lemma AgreeLater(a: seq<real>, b: seq<real>, from: real, later: real)
    requires AgreeFrom(a, b, from) && from <= later
    ensures AgreeFrom(a, b, later)
  {
  }

  lemma MapStep(s: State, calls: seq<Call>, k: Key, n: nat, here: real)
    requires n < |calls| && here >= calls[n].now - PRUNE_WINDOW
    requires calls[n].key == k ==> calls[n].now - calls[n].window as real == here
    requires AgreeFrom(Recorded(After(s, calls, n).requests, k), History(calls, k, n), here)
    ensures AgreeFrom(Recorded(After(s, calls, n + 1).requests, k), History(calls, k, n + 1), here)
  {
    CallKeepsAgreement(After(s, calls, n), History(calls, k, n), k, calls[n], here);
  }

  lemma {:induction false} MapKnowsHistory(s: State, calls: seq<Call>, k: Key, window: int, n: nat, from: real)
    requires s.requests == map[] && n <= |calls| && ClockRuns(calls) && FixedWindow(calls, k, window) && window <= 120
    requires forall i | 0 <= i < n :: from >= calls[i].now - window as real
    ensures AgreeFrom(Recorded(After(s, calls, n).requests, k), History(calls, k, n), from)
  {
    if n > 0 {
      var here := calls[n - 1].now - window as real;
      MapKnowsHistory(s, calls, k, window, n - 1, here);
      MapStep(s, calls, k, n - 1, here);
      AgreeLater(Recorded(After(s, calls, n).requests, k), History(calls, k, n), here, from);
    }
  }

  /** Every decision for a key with a fixed window of at most 120 seconds is the one the full history
      would give, whatever the other keys do. */
  lemma DecisionsMatchHistory(s: State, calls: seq<Call>, n: nat, window: int)
    requires s.requests == map[] && n < |calls| && ClockRuns(calls)
    requires FixedWindow(calls, calls[n].key, window) && window <= 120
    ensures DecisionOf(After(s, calls, n), calls[n]) == FullDecision(calls, n)
  {
    var c := calls[n];
    var here := c.now - window as real;
    assert c.window == window;
    MapKnowsHistory(s, calls, c.key, window, n, here);
    CallKeepsAgreement(After(s, calls, n), History(calls, c.key, n), c.key, c, here);
  }

  /** The limiter as a process starts with it. */
  const Started := State(map[], 0)

  /** The pruned map may be used with this window: it decides as the history does in every run of a
      started process. */
  ghost predicate WindowIsSafe(window: int) {
    forall calls: seq<Call>, n: nat | n < |calls| && ClockRuns(calls) && FixedWindow(calls, calls[n].key, window) ::
      DecisionOf(After(Started, calls, n), calls[n]) == FullDecision(calls, n)
  }

  const Alice := Key(Text("a"), Text("programs"))
  const Bob := Key(Text("b"), Text("programs"))

  /** 498 calls of somebody else at time 0, then two calls of Alice, who may make one per window: the first
      at time 0, the second, which is the process's 500th, after 120 seconds. */
  function TooLate(window: int): (calls: seq<Call>)
    ensures |calls| == 500
    ensures forall i | 0 <= i < 498 :: calls[i] == Call(Bob, 1, 60, 0.0)
    ensures calls[498] == Call(Alice, 1, window, 0.0) && calls[499] == Call(Alice, 1, window, 120.0)
  {
    seq(498, _ => Call(Bob, 1, 60, 0.0)) + [Call(Alice, 1, window, 0.0), Call(Alice, 1, window, 120.0)]
  }

  lemma BobCalls(n: nat)
    requires n < 498
    ensures var c, s := Call(Bob, 1, 60, 0.0), State(if n == 0 then map[] else map[Bob := [0.0]], n);
      Next(s, c) == State(map[Bob := [0.0]], n + 1)
  {
    assert (n + 1) % PRUNE_EVERY != 0;
    var c, s := Call(Bob, 1, 60, 0.0), State(if n == 0 then map[] else map[Bob := [0.0]], n);
    assert Recent([], -60.0) == [] && Recent([0.0], -60.0) == [0.0] && [] + [0.0] == [0.0];
    assert Found(s, c) == if n == 0 then [] else [0.0];
  }

  /** Bob's first call is allowed and recorded, all others are refused. */
  lemma {:induction false} BobAlone(window: int, n: nat)
    requires n <= 498
    ensures After(Started, TooLate(window), n) == State(if n == 0 then map[] else map[Bob := [0.0]], n)
    ensures History(TooLate(window), Alice, n) == []
  {
    if n > 0 {
      BobAlone(window, n - 1);
      assert TooLate(window)[n - 1] == Call(Bob, 1, 60, 0.0) && Alice.ip != Bob.ip;
      BobCalls(n - 1);
    }
  }

  lemma AliceFirst(window: int)
    requires window > 120
    ensures var c, s := Call(Alice, 1, window, 0.0), State(map[Bob := [0.0]], 498);
      Next(s, c) == State(map[Bob := [0.0], Alice := [0.0]], 499)
  {
    var c, s := Call(Alice, 1, window, 0.0), State(map[Bob := [0.0]], 498);
    assert Alice.ip != Bob.ip && Alice !in s.requests;
    assert Recent([], 0.0 - window as real) == [] && Found(s, c) == [] && [] + [0.0] == [0.0];
  }

  /** The 500th call prunes away what Alice's window still covers. */
  lemma AliceAgain(window: int)
    requires window > 120
    ensures var c, s := Call(Alice, 1, window, 120.0), State(map[Bob := [0.0], Alice := [0.0]], 499);
      DecisionOf(s, c) == Allowed && Decide(Recent([0.0], 120.0 - window as real), c) != Allowed
  {
    var c, s := Call(Alice, 1, window, 120.0), State(map[Bob := [0.0], Alice := [0.0]], 499);
    assert Recent([0.0], 0.0) == [];
    assert Pruned(s.requests, 120.0 - PRUNE_WINDOW) == map[];
    assert Swept(s, 120.0) == map[] && Found(s, c) == [];
    assert Recent([0.0], 120.0 - window as real) == [0.0];
  }

  lemma LongWindowIsUnsafe(window: int)
    requires window > 120
    ensures !WindowIsSafe(window)
  {
    var calls := TooLate(window);
    BobAlone(window, 498);
    AliceFirst(window);
    AliceAgain(window);
    assert After(Started, calls, 499) == Next(After(Started, calls, 498), calls[498]);
    assert History(calls, Alice, 499) == [] + [0.0] by {
      assert Recent([], 0.0 - window as real) == [];
    }
    assert [] + [0.0] == [0.0];
    assert ClockRuns(calls) && FixedWindow(calls, calls[499].key, window);
    assert DecisionOf(After(Started, calls, 499), calls[499]) != FullDecision(calls, 499);
  }

  /** The pruning age is exactly the limit: a longer window can admit what the history refuses. */
  lemma WindowIsSafeIff(window: int)
    ensures WindowIsSafe(window) <==> window <= 120
  {
    if window <= 120 {
      forall calls: seq<Call>, n: nat |
          n < |calls| && ClockRuns(calls) && FixedWindow(calls, calls[n].key, window)
        ensures DecisionOf(After(Started, calls, n), calls[n]) == FullDecision(calls, n)
      {
        DecisionsMatchHistory(Started, calls, n, window);
      }
    } else {
      LongWindowIsUnsafe(window);
    }
  }

  // ---- Limits below one ----

  lemma {:induction false} NothingIsRecorded(s: State, calls: seq<Call>, k: Key, n: nat)
    requires s.requests == map[] && n <= |calls|
    requires forall i | 0 <= i < |calls| && calls[i].key == k :: calls[i].max < 1
    ensures Recorded(After(s, calls, n).requests, k) == []
  {
    if n > 0 {
      NothingIsRecorded(s, calls, k, n - 1);
      WhatIsRecorded(After(s, calls, n - 1), k, calls[n - 1]);
      assert Recorded(Swept(After(s, calls, n - 1), calls[n - 1].now), k) == [];
    }
  }

  /** A key's calls raise exactly when its limit is below one; any other limit is always answered. */
  lemma RaisesIff(s: State, calls: seq<Call>, n: nat)
    requires s.requests == map[] && n < |calls|
    requires forall i | 0 <= i < |calls| && calls[i].key == calls[n].key :: calls[i].max == calls[n].max
    ensures DecisionOf(After(s, calls, n), calls[n]) == NoOldest <==> calls[n].max < 1
  {
    if calls[n].max < 1 {
      var before := After(s, calls, n);
      NothingIsRecorded(s, calls, calls[n].key, n);
      assert Recorded(Swept(before, calls[n].now), calls[n].key) == [];
    }
  }

  // ---- What the caller of one key experiences ----

  function CountIn(ts: seq<real>, from: real, to: real): nat {
    if ts == [] then 0
    else (if from < ts[0] <= to then 1 else 0) + CountIn(ts[1..], from, to)
  }

  lemma {:induction false} CountAppend(ts: seq<real>, t: real, from: real, to: real)
    ensures CountIn(ts + [t], from, to) == CountIn(ts, from, to) + (if from < t <= to then 1 else 0)
  {
    if ts == [] {
      assert ts + [t] == [t];
    } else {
      CountAppend(ts[1..], t, from, to);
      assert (ts + [t])[1..] == ts[1..] + [t];
    }
  }

  lemma {:induction false} CountAtMostRecent(ts: seq<real>, from: real, to: real, cutoff: real)
    requires cutoff <= from
    ensures CountIn(ts, from, to) <= |Recent(ts, cutoff)|
  {
    if ts != [] {
      CountAtMostRecent(ts[1..], from, to, cutoff);
    }
  }

  /** All calls for key k use the same limit. */
  ghost predicate FixedMax(calls: seq<Call>, k: Key, max: nat) {
    forall i | 0 <= i < |calls| && calls[i].key == k :: calls[i].max == max
  }

  /** No window of the agreed length holds more than the agreed number of requests of the history. */
  lemma {:induction false} HistoryNeverOverfull(calls: seq<Call>, k: Key, max: nat, window: int, n: nat, t: real)
    requires n <= |calls| && ClockRuns(calls) && FixedWindow(calls, k, window)
    requires FixedMax(calls, k, max)
    ensures CountIn(History(calls, k, n), t - window as real, t) <= max
  {
    if n > 0 {
      HistoryNeverOverfull(calls, k, max, window, n - 1, t);
      var h, c := History(calls, k, n - 1), calls[n - 1];
      CountAppend(h, c.now, t - window as real, t);
      if c.now <= t {
        CountAtMostRecent(h, t - window as real, t, c.now - window as real);
      }
    }
  }

  lemma {:induction false} RecentShrinks(ts: seq<real>, a: real, b: real)
    requires a <= b && Recent(ts, a) != [] && Recent(ts, a)[0] <= b
    ensures |Recent(ts, b)| < |Recent(ts, a)|
  {
    if ts[0] > a {
      RecentTwice(ts[1..], a, b);
    } else {
      RecentShrinks(ts[1..], a, b);
    }
  }

  /** By the time told in `retry_after` the oldest recent request has left the window. */
  lemma OldestLeavesInTime(h: seq<real>, c: Call, later: Call)
    requires Decide(Recent(h, c.now - c.window as real), c).Refused?
    requires |Recent(h, c.now - c.window as real)| <= c.max
    requires later.max == c.max && later.window == c.window
    requires later.now >= c.now + Decide(Recent(h, c.now - c.window as real), c).retryAfter as real
    ensures Decide(Recent(h, later.now - later.window as real), later) == Allowed
  {
    var cutoff := c.now - c.window as real;
    var oldest := Recent(h, cutoff)[0];
    RecentIsRecent(h, cutoff);
    assert oldest in Recent(h, cutoff);
    var wait := Truncate(oldest - cutoff) + 1;
    assert wait as real > oldest - cutoff;
    RecentShrinks(h, cutoff, later.now - later.window as real);
  }

  lemma {:induction false} HistoryIsPast(calls: seq<Call>, k: Key, n: nat)
    requires n < |calls| && ClockRuns(calls)
    ensures forall t | t in History(calls, k, n) :: t <= calls[n].now
  {
    if n > 0 {
      HistoryIsPast(calls, k, n - 1);
    }
  }

  lemma {:induction false} RecentIsCounted(ts: seq<real>, from: real, to: real)
    requires forall t | t in ts :: t <= to
    ensures |Recent(ts, from)| == CountIn(ts, from, to)
  {
    if ts != [] {
      assert ts[0] in ts && forall t | t in ts[1..] :: t in ts;
      RecentIsCounted(ts[1..], from, to);
    }
  }

  // ---- The requests that the pruned dictionary itself allows ----

  /** A list that takes on one request more if it is allowed. */
  function Grown(times: seq<real>, allowed: bool, now: real): seq<real> {
    if allowed then times + [now] else times
  }

  /** The times at which the first n calls brought key k an allowed request. */
  function AllowedTimes(s: State, calls: seq<Call>, k: Key, n: nat): seq<real>
    requires n <= |calls|
  {
    if n == 0 then []
    else
      var h, c := AllowedTimes(s, calls, k, n - 1), calls[n - 1];
      Grown(h, c.key == k && DecisionOf(After(s, calls, n - 1), c) == Allowed, c.now)
  }

  lemma HistoryGrows(calls: seq<Call>, k: Key, n: nat)
    requires n < |calls|
    ensures History(calls, k, n + 1) ==
            Grown(History(calls, k, n), calls[n].key == k && FullDecision(calls, n) == Allowed, calls[n].now)
  {
  }

  lemma AllowedGrows(s: State, calls: seq<Call>, k: Key, n: nat)
    requires n < |calls|
    ensures AllowedTimes(s, calls, k, n + 1) ==
            Grown(AllowedTimes(s, calls, k, n),
                  calls[n].key == k && DecisionOf(After(s, calls, n), calls[n]) == Allowed, calls[n].now)
  {
  }

  lemma BothGrow(s: State, calls: seq<Call>, k: Key, window: int, n: nat)
    requires s.requests == map[] && n < |calls| && ClockRuns(calls) && FixedWindow(calls, k, window) && window <= 120
    requires AllowedTimes(s, calls, k, n) == History(calls, k, n)
    ensures AllowedTimes(s, calls, k, n + 1) == History(calls, k, n + 1)
  {
    HistoryGrows(calls, k, n);
    AllowedGrows(s, calls, k, n);
    if calls[n].key == k {
      DecisionsMatchHistory(s, calls, n, window);
    }
  }

  /** They are the history that the decisions are compared with. */
  lemma {:induction false} AllowedIsHistory(s: State, calls: seq<Call>, k: Key, window: int, n: nat)
    requires s.requests == map[] && n <= |calls| && ClockRuns(calls) && FixedWindow(calls, k, window) && window <= 120
    ensures AllowedTimes(s, calls, k, n) == History(calls, k, n)
  {
    if n > 0 {
      AllowedIsHistory(s, calls, k, window, n - 1);
      BothGrow(s, calls, k, window, n - 1);
    }
  }

  /** No window of the agreed length ever holds more than the agreed number of requests that the pruned
      dictionary allowed. */
  lemma WindowNeverOverfull(s: State, calls: seq<Call>, k: Key, max: nat, window: int, n: nat, t: real)
    requires s.requests == map[] && n <= |calls| && ClockRuns(calls)
    requires FixedWindow(calls, k, window) && window <= 120 && FixedMax(calls, k, max)
    ensures CountIn(AllowedTimes(s, calls, k, n), t - window as real, t) <= max
  {
    AllowedIsHistory(s, calls, k, window, n);
    HistoryNeverOverfull(calls, k, max, window, n, t);
  }

  /** Calls n to m-1 bring key k no allowed request, as the pruned map sees it. */
  ghost predicate NoneAllowed(s: State, calls: seq<Call>, k: Key, n: nat, m: nat)
    requires m <= |calls|
  {
    forall i | n <= i < m && calls[i].key == k :: DecisionOf(After(s, calls, i), calls[i]) != Allowed
  }

  lemma {:induction false} AllowedStands(s: State, calls: seq<Call>, k: Key, n: nat, m: nat)
    requires n <= m <= |calls| && NoneAllowed(s, calls, k, n, m)
    ensures AllowedTimes(s, calls, k, m) == AllowedTimes(s, calls, k, n)
    decreases m
  {
    if n < m {
      AllowedStands(s, calls, k, n, m - 1);
      AllowedGrows(s, calls, k, m - 1);
    }
  }

  lemma CountBoundsRecent(h: seq<real>, from: real, to: real, max: nat)
    requires (forall t | t in h :: t <= to) && CountIn(h, from, to) <= max
    ensures |Recent(h, from)| <= max
  {
    RecentIsCounted(h, from, to);
  }

  lemma RecentWithinLimit(calls: seq<Call>, k: Key, n: nat, max: nat, window: int)
    requires n < |calls| && ClockRuns(calls) && FixedWindow(calls, k, window) && FixedMax(calls, k, max)
    ensures |Recent(History(calls, k, n), calls[n].now - window as real)| <= max
  {
    HistoryIsPast(calls, k, n);
    HistoryNeverOverfull(calls, k, max, window, n, calls[n].now);
    CountBoundsRecent(History(calls, k, n), calls[n].now - window as real, calls[n].now, max);
  }

  /** On the full history: who comes back in time is let in, when nothing was added in between. */
  lemma HistoryLetsIn(calls: seq<Call>, n: nat, m: nat, max: nat, window: int)
    requires n < m < |calls| && ClockRuns(calls) && calls[m].key == calls[n].key
    requires FixedWindow(calls, calls[n].key, window) && FixedMax(calls, calls[n].key, max)
    requires History(calls, calls[n].key, m) == History(calls, calls[n].key, n)
    requires FullDecision(calls, n).Refused?
    requires calls[m].now >= calls[n].now + FullDecision(calls, n).retryAfter as real
    ensures FullDecision(calls, m) == Allowed
  {
    RecentWithinLimit(calls, calls[n].key, n, max, window);
    OldestLeavesInTime(History(calls, calls[n].key, n), calls[n], calls[m]);
  }

  /** A refused caller who comes back `retry_after` seconds later is allowed, whatever other keys do and
      however often it was refused in between, if none of its requests was allowed meanwhile. */
  lemma RetryAfterIsEnough(s: State, calls: seq<Call>, n: nat, m: nat, max: nat, window: int)
    requires s.requests == map[] && n < m < |calls| && ClockRuns(calls) && calls[m].key == calls[n].key
    requires FixedWindow(calls, calls[n].key, window) && window <= 120 && FixedMax(calls, calls[n].key, max)
    requires DecisionOf(After(s, calls, n), calls[n]).Refused?
    requires NoneAllowed(s, calls, calls[n].key, n, m)
    requires calls[m].now >= calls[n].now + DecisionOf(After(s, calls, n), calls[n]).retryAfter as real
    ensures DecisionOf(After(s, calls, m), calls[m]) == Allowed
  {
    AllowedStands(s, calls, calls[n].key, n, m);
    AllowedIsHistory(s, calls, calls[n].key, window, n);
    AllowedIsHistory(s, calls, calls[n].key, window, m);
    DecisionsMatchHistory(s, calls, n, window);
    DecisionsMatchHistory(s, calls, m, window);
    HistoryLetsIn(calls, n, m, max, window);
  }

  // ---- What the answers mean ----

  /** A call is allowed exactly if fewer than its limit of the key's allowed requests are in its window. */
  lemma AllowedIff(s: State, calls: seq<Call>, n: nat, window: int)
    requires s.requests == map[] && n < |calls| && ClockRuns(calls)
    requires FixedWindow(calls, calls[n].key, window) && window <= 120
    ensures var c := calls[n];
      DecisionOf(After(s, calls, n), c) == Allowed <==>
      CountIn(AllowedTimes(s, calls, c.key, n), c.now - window as real, c.now) < c.max
  {
    var c := calls[n];
    AllowedIsHistory(s, calls, c.key, window, n);
    DecisionsMatchHistory(s, calls, n, window);
    HistoryIsPast(calls, c.key, n);
    RecentIsCounted(History(calls, c.key, n), c.now - window as real, c.now);
  }

  /** The first of the times after `from`. */
  ghost predicate OldestAfter(ts: seq<real>, from: real, oldest: real) {
    oldest in ts && oldest > from && forall t | t in ts && t > from :: oldest <= t
  }

  ghost predicate Ordered(ts: seq<real>) {
    forall i, j | 0 <= i <= j < |ts| :: ts[i] <= ts[j]
  }

  lemma {:induction false} HistoryIsOrdered(calls: seq<Call>, k: Key, n: nat)
    requires n <= |calls| && ClockRuns(calls)
    ensures Ordered(History(calls, k, n))
  {
    if n > 0 {
      var h := History(calls, k, n - 1);
      HistoryIsOrdered(calls, k, n - 1);
      HistoryIsPast(calls, k, n - 1);
      assert forall i | 0 <= i < |h| :: h[i] in h;
    }
  }

  lemma {:induction false} FirstRecentIsOldest(ts: seq<real>, from: real)
    requires Ordered(ts) && Recent(ts, from) != []
    ensures OldestAfter(ts, from, Recent(ts, from)[0])
  {
    assert ts == [ts[0]] + ts[1..];
    if ts[0] > from {
      forall t | t in ts
        ensures ts[0] <= t
      {
        var i :| 0 <= i < |ts| && ts[i] == t;
      }
    } else {
      FirstRecentIsOldest(ts[1..], from);
    }
  }

  /** What a refusal tells is the time until the oldest request in the window leaves it, in whole seconds and
      never a second too much; so it is at most the window and one second. */
  lemma RetryAfterIsTight(s: State, calls: seq<Call>, n: nat, window: int) returns (oldest: real)
    requires s.requests == map[] && n < |calls| && ClockRuns(calls)
    requires FixedWindow(calls, calls[n].key, window) && window <= 120
    requires DecisionOf(After(s, calls, n), calls[n]).Refused?
    ensures var c, r := calls[n], DecisionOf(After(s, calls, n), calls[n]).retryAfter;
      && OldestAfter(AllowedTimes(s, calls, c.key, n), c.now - window as real, oldest)
      && r as real - 1.0 <= oldest + window as real - c.now < r as real
      && 1 <= r <= window + 1
  {
    var c := calls[n];
    var h, cutoff := History(calls, c.key, n), c.now - window as real;
    AllowedIsHistory(s, calls, c.key, window, n);
    DecisionsMatchHistory(s, calls, n, window);
    HistoryIsOrdered(calls, c.key, n);
    HistoryIsPast(calls, c.key, n);
    FirstRecentIsOldest(h, cutoff);
    oldest := Recent(h, cutoff)[0];
  }

  /** Every time counted on the left is counted on the right. */
  ghost predicate CountedToo(ts: seq<real>, from: real, to: real, from': real, to': real) {
    forall t | t in ts && from < t <= to :: from' < t <= to'
  }

  lemma {:induction false} CountIsMonotone(ts: seq<real>, from: real, to: real, from': real, to': real)
    requires CountedToo(ts, from, to, from', to')
    ensures CountIn(ts, from, to) <= CountIn(ts, from', to')
  {
    if ts != [] {
      assert ts[0] in ts && forall t | t in ts[1..] :: t in ts;
      CountIsMonotone(ts[1..], from, to, from', to');
    }
  }

  lemma {:induction false} CountDrops(ts: seq<real>, from: real, to: real, from': real, to': real, t: real)
    requires CountedToo(ts, from, to, from', to')
    requires t in ts && from' < t <= to' && !(from < t <= to)
    ensures CountIn(ts, from, to) < CountIn(ts, from', to')
  {
    assert ts[0] in ts && forall u | u in ts[1..] :: u in ts;
    if ts[0] == t {
      CountIsMonotone(ts[1..], from, to, from', to');
    } else {
      CountDrops(ts[1..], from, to, from', to', t);
    }
  }

  lemma AllowedArePast(s: State, calls: seq<Call>, k: Key, window: int, n: nat)
    requires s.requests == map[] && n < |calls| && ClockRuns(calls) && FixedWindow(calls, k, window) && window <= 120
    ensures forall t | t in AllowedTimes(s, calls, k, n) :: t <= calls[n].now
  {
    AllowedIsHistory(s, calls, k, window, n);
    HistoryIsPast(calls, k, n);
  }

  /** Later on the window holds fewer of the same requests if the oldest has left it, and no fewer if not. */
  lemma OldestDecides(ts: seq<real>, window: real, before: real, now: real, oldest: real)
    requires OldestAfter(ts, before - window, oldest) && before <= now && forall t | t in ts :: t <= before
    ensures if oldest <= now - window then CountIn(ts, now - window, now) < CountIn(ts, before - window, before)
            else CountIn(ts, now - window, now) >= CountIn(ts, before - window, before)
  {
    if oldest <= now - window {
      CountDrops(ts, now - window, now, before - window, before, oldest);
    } else {
      CountIsMonotone(ts, before - window, before, now - window, now);
    }
  }

  lemma RefusedAtLimit(s: State, calls: seq<Call>, n: nat, max: nat, window: int)
    requires s.requests == map[] && n < |calls| && ClockRuns(calls)
    requires FixedWindow(calls, calls[n].key, window) && window <= 120 && FixedMax(calls, calls[n].key, max)
    requires DecisionOf(After(s, calls, n), calls[n]).Refused?
    ensures CountIn(AllowedTimes(s, calls, calls[n].key, n), calls[n].now - window as real, calls[n].now) == max
  {
    AllowedIff(s, calls, n, window);
    WindowNeverOverfull(s, calls, calls[n].key, max, window, n, calls[n].now);
  }

  lemma CountsLater(s: State, calls: seq<Call>, n: nat, m: nat, window: int, oldest: real)
    requires s.requests == map[] && n < m < |calls| && ClockRuns(calls) && calls[m].key == calls[n].key
    requires FixedWindow(calls, calls[n].key, window) && window <= 120
    requires AllowedTimes(s, calls, calls[n].key, m) == AllowedTimes(s, calls, calls[n].key, n)
    requires OldestAfter(AllowedTimes(s, calls, calls[n].key, n), calls[n].now - window as real, oldest)
    ensures var ts, c, later := AllowedTimes(s, calls, calls[m].key, m), calls[n], calls[m];
      CountIn(ts, later.now - window as real, later.now) < CountIn(ts, c.now - window as real, c.now)
      <==> oldest <= later.now - window as real
  {
    AllowedArePast(s, calls, calls[n].key, window, n);
    OldestDecides(AllowedTimes(s, calls, calls[n].key, n), window as real, calls[n].now, calls[m].now, oldest);
  }

  lemma LetInOnSameRecord(s: State, calls: seq<Call>, n: nat, m: nat, max: nat, window: int, oldest: real)
    requires s.requests == map[] && n < m < |calls| && ClockRuns(calls) && calls[m].key == calls[n].key
    requires FixedWindow(calls, calls[n].key, window) && window <= 120 && FixedMax(calls, calls[n].key, max)
    requires DecisionOf(After(s, calls, n), calls[n]).Refused?
    requires AllowedTimes(s, calls, calls[n].key, m) == AllowedTimes(s, calls, calls[n].key, n)
    requires OldestAfter(AllowedTimes(s, calls, calls[n].key, n), calls[n].now - window as real, oldest)
    ensures DecisionOf(After(s, calls, m), calls[m]) == Allowed <==> oldest <= calls[m].now - window as real
  {
    RefusedAtLimit(s, calls, n, max, window);
    AllowedIff(s, calls, m, window);
    CountsLater(s, calls, n, m, window, oldest);
    assert calls[m].max == max;
  }

  /** A refused caller who has had nothing allowed since is let in again exactly when the oldest request that
      stood in its way has left the window. */
  lemma LetInAgainIff(s: State, calls: seq<Call>, n: nat, m: nat, max: nat, window: int, oldest: real)
    requires s.requests == map[] && n < m < |calls| && ClockRuns(calls) && calls[m].key == calls[n].key
    requires FixedWindow(calls, calls[n].key, window) && window <= 120 && FixedMax(calls, calls[n].key, max)
    requires DecisionOf(After(s, calls, n), calls[n]).Refused?
    requires NoneAllowed(s, calls, calls[n].key, n, m)
    requires OldestAfter(AllowedTimes(s, calls, calls[n].key, n), calls[n].now - window as real, oldest)
    ensures DecisionOf(After(s, calls, m), calls[m]) == Allowed <==> oldest <= calls[m].now - window as real
  {
    AllowedStands(s, calls, calls[n].key, n, m);
    LetInOnSameRecord(s, calls, n, m, max, window, oldest);
  }
}
