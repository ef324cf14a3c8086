/** The watchdog that keeps at most one zone of a group running (app.py, _force_group_exclusive and
    _enforce_group_exclusive_all_groups). */
module Watchdog {
  import opened Common

  /** A zone row; `started` is the start time if it parses, and `topic` the normalised MQTT topic. */
  datatype Zone = Zone(id: int, group: int, on: bool, started: Option<int>, topic: string)

  /** Group 0 means no group, 999 is the group of zones that are not watered. */
  predicate RealGroup(g: int) {
    g != 0 && g != 999
  }

  /** Normalised topics of the groups' master valves. */
  type Masters = map<int, string>

  predicate IsMaster(m: Masters, g: int, z: Zone) {
    g in m && m[g] != "" && z.topic == m[g]
  }

  predicate Running(m: Masters, zones: seq<Zone>, g: int, i: nat)
    requires i < |zones|
  {
    zones[i].group == g && zones[i].on && !IsMaster(m, g, zones[i])
  }

  /** A start time that does not parse counts as the earliest of all. */
  predicate StartedBefore(a: Option<int>, b: Option<int>) {
    b.Some? && (a.None? || a.value < b.value)
  }

  /** The running zone of the group with the latest start; of equals the first in the table. */
  predicate IsLeader(m: Masters, zones: seq<Zone>, g: int, i: nat)
    requires i < |zones|
  {
    && Running(m, zones, g, i)
    && forall j | 0 <= j < |zones| && Running(m, zones, g, j) ::
         StartedBefore(zones[j].started, zones[i].started) ||
         (!StartedBefore(zones[i].started, zones[j].started) && i <= j)
  }

  function Stopped(z: Zone): Zone {
    z.(on := false, started := None)
  }

  /** What enforcement makes of zone i of a table. */
  function Settled(m: Masters, zones: seq<Zone>, g: int, i: nat): Zone
    requires i < |zones|
  {
    if Running(m, zones, g, i) && !IsLeader(m, zones, g, i) then Stopped(zones[i]) else zones[i]
  }

  function Exclusive(m: Masters, zones: seq<Zone>, g: int): (r: seq<Zone>)
    ensures |r| == |zones|
  {
    seq(|zones|, i requires 0 <= i < |zones| => Settled(m, zones, g, i))
  }

  /** One pass over all real groups. */
  function Enforced(m: Masters, zones: seq<Zone>): (r: seq<Zone>)
    ensures |r| == |zones|
  {
    seq(|zones|, i requires 0 <= i < |zones| =>
      if RealGroup(zones[i].group) then Settled(m, zones, zones[i].group, i) else zones[i])
  }

  // ---- The stable sort by start time, latest first ----

  predicate Within(list: seq<nat>, n: nat) {
    forall k | 0 <= k < |list| :: list[k] < n
  }

  predicate Distinct(list: seq<nat>) {
    forall i, j | 0 <= i < j < |list| :: list[i] != list[j]
  }

  function Place(zones: seq<Zone>, x: nat, ranked: seq<nat>): (r: seq<nat>)
    requires x < |zones| && Within(ranked, |zones|)
    ensures Within(r, |zones|)
    ensures |r| == |ranked| + 1
    ensures forall i: nat :: i in r <==> i == x || i in ranked
  {
    if ranked == [] || !StartedBefore(zones[x].started, zones[ranked[0]].started) then [x] + ranked
    else [ranked[0]] + Place(zones, x, ranked[1..])
  }

  function Ranked(zones: seq<Zone>, on: seq<nat>): (r: seq<nat>)
    requires Within(on, |zones|)
    ensures Within(r, |zones|)
    ensures |r| == |on|
    ensures forall i: nat :: i in r <==> i in on
  {
    if on == [] then [] else Place(zones, on[0], Ranked(zones, on[1..]))
  }

  predicate Increasing(on: seq<nat>) {
    forall i, j | 0 <= i < j < |on| :: on[i] < on[j]
  }

  /** Zone i started later than zone j, or not earlier and stands before it. */
  predicate Ahead(zones: seq<Zone>, i: nat, j: nat)
    requires i < |zones| && j < |zones|
  {
    || StartedBefore(zones[j].started, zones[i].started)
    || (!StartedBefore(zones[i].started, zones[j].started) && i <= j)
  }

  lemma AheadIsTransitive(zones: seq<Zone>, i: nat, j: nat, k: nat)
    requires i < |zones| && j < |zones| && k < |zones| && Ahead(zones, i, j) && Ahead(zones, j, k)
    ensures Ahead(zones, i, k)
  {
  }

  lemma {:induction false} RankedBeginsWithLatest(zones: seq<Zone>, on: seq<nat>)
    requires on != [] && Increasing(on) && Within(on, |zones|)
    ensures var top := Ranked(zones, on)[0];
      top in on && forall j: nat | j in on :: Ahead(zones, top, j)
  {
    if |on| > 1 {
      RankedBeginsWithLatest(zones, on[1..]);
      var x, best := on[0], Ranked(zones, on[1..])[0];
      assert x < best;
      var top := if StartedBefore(zones[x].started, zones[best].started) then best else x;
      assert Ranked(zones, on)[0] == top;
      forall j: nat | j in on
        ensures Ahead(zones, top, j)
      {
        if j != x {
          assert j in on[1..] && Ahead(zones, best, j);
          AheadIsTransitive(zones, top, best, j);
        }
      }
    }
  }

  lemma {:induction false} PlaceKeepsDistinct(zones: seq<Zone>, x: nat, ranked: seq<nat>)
    requires x < |zones| && x !in ranked && Within(ranked, |zones|) && Distinct(ranked)
    ensures Distinct(Place(zones, x, ranked))
  {
    if ranked != [] && StartedBefore(zones[x].started, zones[ranked[0]].started) {
      PlaceKeepsDistinct(zones, x, ranked[1..]);
      assert ranked[0] !in ranked[1..];
      assert ranked[0] !in Place(zones, x, ranked[1..]);
    }
  }

  lemma {:induction false} RankedIsDistinct(zones: seq<Zone>, on: seq<nat>)
    requires Increasing(on) && Within(on, |zones|)
    ensures Distinct(Ranked(zones, on))
  {
    if on != [] {
      RankedIsDistinct(zones, on[1..]);
      PlaceKeepsDistinct(zones, on[0], Ranked(zones, on[1..]));
    }
  }

  /** The head of the ranking is the group's leader. */
  lemma TopIsLeader(m: Masters, zones: seq<Zone>, g: int, on: seq<nat>)
    requires on != [] && Increasing(on) && Within(on, |zones|)
    requires forall i: nat :: i in on <==> i < |zones| && Running(m, zones, g, i)
    ensures var r := Ranked(zones, on); r[0] in r && IsLeader(m, zones, g, r[0]) && Distinct(r)
  {
    RankedBeginsWithLatest(zones, on);
    RankedIsDistinct(zones, on);
  }

  // ---- What a pass guarantees ----

  lemma LeaderIsUnique(m: Masters, zones: seq<Zone>, g: int, i: nat, j: nat)
    requires i < |zones| && j < |zones| && IsLeader(m, zones, g, i) && IsLeader(m, zones, g, j)
    ensures i == j
  {
  }

  /** After a pass a real group has at most one running zone, and it is the one that ran before with
      the latest start. Zones outside, master valves and zones that were off are as they were. */
  lemma PassRestoresExclusivity(m: Masters, zones: seq<Zone>, i: nat)
    requires i < |zones|
    ensures var after, g := Enforced(m, zones), zones[i].group;
      && (RealGroup(g) && Running(m, after, g, i) ==> IsLeader(m, zones, g, i) && after[i] == zones[i])
      && (RealGroup(g) && IsLeader(m, zones, g, i) ==> Running(m, after, g, i))
      && (forall j | 0 <= j < |zones| && RealGroup(g) && Running(m, after, g, i) && Running(m, after, g, j) :: i == j)
      && (!Running(m, zones, g, i) || !RealGroup(g) ==> after[i] == zones[i])
  {
    var after, g := Enforced(m, zones), zones[i].group;
    forall j | 0 <= j < |zones| && RealGroup(g) && Running(m, after, g, i) && Running(m, after, g, j)
      ensures i == j
    {
      LeaderIsUnique(m, zones, g, i, j);
    }
  }

  /** No group loses its watering altogether: some zone keeps running if one ran before. */
  lemma {:induction false} SomeLeader(m: Masters, zones: seq<Zone>, g: int, i: nat, n: nat) returns (top: nat)
    requires i < n <= |zones| && Running(m, zones, g, i)
    ensures top < n && Running(m, zones, g, top)
    ensures forall j | 0 <= j < n && Running(m, zones, g, j) ::
      StartedBefore(zones[j].started, zones[top].started) ||
      (!StartedBefore(zones[top].started, zones[j].started) && top <= j)
    decreases n
  {
    if i == n - 1 {
      if k :| 0 <= k < n - 1 && Running(m, zones, g, k) {
        top := SomeLeader(m, zones, g, k, n - 1);
        if StartedBefore(zones[top].started, zones[i].started) {
          top := i;
        }
      } else {
        top := i;
      }
    } else {
      top := SomeLeader(m, zones, g, i, n - 1);
      if Running(m, zones, g, n - 1) && StartedBefore(zones[top].started, zones[n - 1].started) {
        top := n - 1;
      }
    }
  }

  /** A group that is exclusive already is left alone. */
  lemma ExclusiveGroupIsUntouched(m: Masters, zones: seq<Zone>, i: nat)
    requires i < |zones|
    requires forall j | 0 <= j < |zones| && Running(m, zones, zones[i].group, j) && Running(m, zones, zones[i].group, i) :: j == i
    ensures Enforced(m, zones)[i] == zones[i]
  {
  }

  /** A second pass changes nothing. */
  lemma SecondPassIsIdle(m: Masters, zones: seq<Zone>)
    ensures Enforced(m, Enforced(m, zones)) == Enforced(m, zones)
  {
    var after := Enforced(m, zones);
    forall i | 0 <= i < |zones|
      ensures Enforced(m, after)[i] == after[i]
    {
      PassRestoresExclusivity(m, zones, i);
      if RealGroup(after[i].group) {
        ExclusiveGroupIsUntouched(m, after, i);
      }
    }
    assert Enforced(m, after) == after;
  }

  // ---- What one pass does, zone by zone ----

  /** The zone waters in a real group and is not that group's master valve. */
  predicate Waters(m: Masters, z: Zone) {
    && z.group != 0 && z.group != 999 && z.on
    && !(z.group in m && m[z.group] != "" && z.topic == m[z.group])
  }

  /** It started later; any start is later than one that does not parse. */
  predicate StartedLater(a: Zone, b: Zone) {
    a.started.Some? && (b.started.None? || a.started.value > b.started.value)
  }

  /** No other watering zone of its group started later, or at the same time and stands before it. */
  predicate Stays(m: Masters, zones: seq<Zone>, i: nat)
    requires i < |zones|
  {
    forall j | 0 <= j < |zones| && j != i && zones[j].group == zones[i].group && Waters(m, zones[j]) ::
      !StartedLater(zones[j], zones[i]) && (j < i ==> StartedLater(zones[i], zones[j]))
  }

  /** Every watering zone that does not stay goes off and loses its start; nothing else changes. */
  ghost predicate PassMeans(m: Masters, before: seq<Zone>, after: seq<Zone>) {
    && |after| == |before|
    && forall i | 0 <= i < |after| ::
         after[i] == if Waters(m, before[i]) && !Stays(m, before, i)
                     then Zone(before[i].id, before[i].group, false, None, before[i].topic)
                     else before[i]
  }

  lemma LeaderStays(m: Masters, zones: seq<Zone>, i: nat)
    requires i < |zones| && RealGroup(zones[i].group) && Running(m, zones, zones[i].group, i)
    ensures IsLeader(m, zones, zones[i].group, i) <==> Stays(m, zones, i)
  {
    var g := zones[i].group;
    assert forall j | 0 <= j < |zones| && zones[j].group == g :: Running(m, zones, g, j) <==> Waters(m, zones[j]);
    if Stays(m, zones, i) {
      forall j | 0 <= j < |zones| && Running(m, zones, g, j)
        ensures StartedBefore(zones[j].started, zones[i].started) ||
                (!StartedBefore(zones[i].started, zones[j].started) && i <= j)
      {
        assert Waters(m, zones[j]);
      }
    } else {
      var j :| 0 <= j < |zones| && j != i && zones[j].group == g && Waters(m, zones[j])
               && !(!StartedLater(zones[j], zones[i]) && (j < i ==> StartedLater(zones[i], zones[j])));
      assert Running(m, zones, g, j);
    }
  }

  lemma EnforcedMeans(m: Masters, zones: seq<Zone>)
    ensures PassMeans(m, zones, Enforced(m, zones))
  {
    forall i | 0 <= i < |zones|
      ensures Enforced(m, zones)[i] ==
              if Waters(m, zones[i]) && !Stays(m, zones, i)
              then Zone(zones[i].id, zones[i].group, false, None, zones[i].topic)
              else zones[i]
    {
      if RealGroup(zones[i].group) && Running(m, zones, zones[i].group, i) {
        LeaderStays(m, zones, i);
      }
    }
  }

  // ---- The code ----

  /** Everything in the ranking after its head is what enforcement stops. */
  lemma StoppedAreTheOthers(m: Masters, zones: seq<Zone>, g: int, ranked: seq<nat>, i: nat)
    requires i < |zones| && ranked != []
    requires Within(ranked, |zones|) && Distinct(ranked)
    requires forall k: nat :: k in ranked <==> k < |zones| && Running(m, zones, g, k)
    requires IsLeader(m, zones, g, ranked[0])
    ensures i in ranked[1..] <==> Running(m, zones, g, i) && !IsLeader(m, zones, g, i)
  {
    assert ranked == [ranked[0]] + ranked[1..];
    if IsLeader(m, zones, g, i) {
      LeaderIsUnique(m, zones, g, i, ranked[0]);
    }
  }

  /** The verdict on a group depends on that group's zones only. */
  lemma SameGroupSameVerdict(m: Masters, before: seq<Zone>, mid: seq<Zone>, g: int)
    requires |before| == |mid|
    requires forall i | 0 <= i < |mid| :: mid[i].group == before[i].group && (mid[i].group == g ==> mid[i] == before[i])
    ensures forall i | 0 <= i < |mid| && mid[i].group == g :: Settled(m, mid, g, i) == Settled(m, before, g, i)
    ensures forall i | 0 <= i < |mid| && mid[i].group != g :: Settled(m, mid, g, i) == mid[i]
  {
    assert forall i | 0 <= i < |mid| :: Running(m, mid, g, i) == Running(m, before, g, i);
    forall i | 0 <= i < |mid|
      ensures IsLeader(m, mid, g, i) == IsLeader(m, before, g, i)
    {
    }
  }

  class ZoneStates {
    const masters: Masters
    var zones: seq<Zone>

    constructor (masters: Masters, zones: seq<Zone>)
      ensures this.masters == masters && this.zones == zones
    {
      this.masters, this.zones := masters, zones;
    }

    /** The running zones of the group that are not its master valve, in table order. */
    method RunningZones(g: int) returns (on: seq<nat>)
      ensures Increasing(on)
      ensures Within(on, |zones|) && forall i: nat :: i in on <==> i < |zones| && Running(masters, zones, g, i)
    {
      on := [];
      for i := 0 to |zones|
        invariant Increasing(on)
        invariant Within(on, i) && forall k: nat :: k in on <==> k < i && Running(masters, zones, g, k)
      {
        if zones[i].group == g && zones[i].on && !IsMaster(masters, g, zones[i]) {
          on := on + [i];
        }
      }
    }

    method ForceGroupExclusive(g: int)
      modifies `zones
      ensures zones == Exclusive(masters, old(zones), g)
    {
      var on := RunningZones(g);
      ghost var before := zones;
      if |on| <= 1 {
        assert forall i | 0 <= i < |zones| && Running(masters, zones, g, i) :: i == on[0];
        assert zones == Exclusive(masters, before, g);
        return;
      }
      TopIsLeader(masters, zones, g, on);
      on := Ranked(zones, on);
      StopZones(on[1..]);
      forall i | 0 <= i < |zones|
        ensures zones[i] == Exclusive(masters, before, g)[i]
      {
        StoppedAreTheOthers(masters, before, g, on, i);
      }
    }

    method StopZones(list: seq<nat>)
      requires Within(list, |zones|)
      modifies `zones
      ensures |zones| == |old(zones)|
      ensures forall i | 0 <= i < |zones| :: zones[i] == if i in list then Stopped(old(zones)[i]) else old(zones)[i]
    {
      var k := 0;
      while k < |list|
        invariant 0 <= k <= |list| && |zones| == |old(zones)|
        invariant forall i | 0 <= i < |zones| ::
          zones[i] == if i in list[..k] then Stopped(old(zones)[i]) else old(zones)[i]
      {
        assert list[..k + 1] == list[..k] + [list[k]];
        zones := zones[list[k] := zones[list[k]].(on := false, started := None)];
        k := k + 1;
      }
      assert list[..k] == list;
    }

    /** The real groups in order of first appearance. */
    method GroupsOf() returns (groups: seq<int>)
      ensures forall i, j | 0 <= i < j < |groups| :: groups[i] != groups[j]
      ensures forall g :: g in groups <==> RealGroup(g) && exists i :: 0 <= i < |zones| && zones[i].group == g
    {
      groups := [];
      for i := 0 to |zones|
        invariant forall a, b | 0 <= a < b < |groups| :: groups[a] != groups[b]
        invariant forall g :: g in groups <==> RealGroup(g) && exists k :: 0 <= k < i && zones[k].group == g
      {
        var g := zones[i].group;
        if g != 0 && g != 999 && g !in groups {
          groups := groups + [g];
        }
      }
    }

    /** One group's turn in the pass: only a group with two running zones is looked at closer. */
    method EnforceGroupExclusive(g: int)
      modifies `zones
      ensures zones == Exclusive(masters, old(zones), g)
    {
      var on := RunningZones(g);
      if |on| > 1 {
        ForceGroupExclusive(g);
      } else {
        assert forall i | 0 <= i < |zones| && Running(masters, zones, g, i) :: i == on[0];
        assert zones == Exclusive(masters, zones, g);
      }
    }

    /** The pass over all real groups. */
    method EnforceEachGroup()
      modifies `zones
      ensures zones == Enforced(masters, old(zones))
    {
      ghost var before := zones;
      var groups := GroupsOf();
      var k := 0;
      while k < |groups|
        invariant 0 <= k <= |groups| && |zones| == |before|
        invariant forall i | 0 <= i < |zones| ::
          zones[i] == if before[i].group in groups[..k] then Settled(masters, before, before[i].group, i) else before[i]
      {
        var g := groups[k];
        assert groups[..k + 1] == groups[..k] + [g];
        ghost var mid := zones;
        assert g !in groups[..k];
        SameGroupSameVerdict(masters, before, mid, g);
        EnforceGroupExclusive(g);
        k := k + 1;
      }
      assert groups[..k] == groups;
    }

    method EnforceGroupExclusiveAllGroups()
      modifies `zones
      ensures zones == Enforced(masters, old(zones))
      ensures PassMeans(masters, old(zones), zones)
    {
      EnforcedMeans(masters, zones);
      EnforceEachGroup();
    }
  }
}
