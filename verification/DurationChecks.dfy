/** Asking beforehand whether a longer zone would make programs overlap (routes/zones_crud_api.py). */
module DurationChecks {
  import opened Common
  import opened ProgramConflicts

  datatype Finding = Finding(checkedId: nat, otherId: nat, commonZones: set<int>, overlapStart: int, overlapEnd: int)

  /** The minutes of the first k zones of a list if zone z took `minutes`, which may be any number. */
  function SumIf(duration: map<int, nat>, zs: seq<int>, z: int, minutes: int, k: nat): int
    requires k <= |zs|
  {
    if k == 0 then 0
    else SumIf(duration, zs, z, minutes, k - 1) + (if zs[k - 1] == z then minutes else Minutes(duration, zs[k - 1]))
  }

  function LengthIf(t: Zones, p: Program, z: int, minutes: int): int {
    SumIf(t.duration, p.zones, z, minutes, |p.zones|)
  }

  function Changed(t: Zones, z: int, minutes: nat): Zones {
    t.(duration := t.duration[z := minutes])
  }

  lemma {:induction false} SumIfIsBefore(t: Zones, zs: seq<int>, z: int, minutes: nat, k: nat)
    requires k <= |zs|
    ensures SumIf(t.duration, zs, z, minutes, k) == Before(Changed(t, z, minutes).duration, zs, k)
  {
    if k > 0 {
      SumIfIsBefore(t, zs, z, minutes, k - 1);
    }
  }

  /** For minutes that can be stored it is the length in the table after the change. */
  lemma LengthIfIsLength(t: Zones, p: Program, z: int, minutes: nat)
    ensures LengthIf(t, p, z, minutes) == Length(Changed(t, z, minutes), p)
  {
    SumIfIsBefore(t, p.zones, z, minutes, |p.zones|);
  }

  /** The groups as this check sees them: zones that are unknown or have no group count for nothing. */
  function KnownGroups(t: Zones, zs: seq<int>): set<int> {
    set z | z in zs && z in t.group :: t.group[z]
  }

  predicate Related(t: Zones, p: Program, q: Program) {
    Elements(p.zones) * Elements(q.zones) != {} || KnownGroups(t, p.zones) * KnownGroups(t, q.zones) != {}
  }

  /** The check reports p against q: p is taken at its new length, q at its old one. */
  predicate Reported(t: Zones, p: Program, q: Program, z: int, minutes: int) {
    && z in p.zones && p.id != q.id
    && p.start.Some? && q.start.Some?
    && ShareADay(p, q) && Related(t, p, q)
    && Overlap(p.start.value, p.start.value + LengthIf(t, p, z, minutes),
               q.start.value, q.start.value + Length(t, q))
  }

  function FindingOf(t: Zones, p: Program, q: Program, z: int, minutes: int): Finding
    requires Reported(t, p, q, z, minutes)
  {
    var a, b := p.start.value, q.start.value;
    Finding(p.id, q.id, Elements(p.zones) * Elements(q.zones), Max(a, b),
            Min(a + LengthIf(t, p, z, minutes), b + Length(t, q)))
  }

  // ---- What a finding means ----

  lemma OneMorePlace(zs: seq<int>, z: int, k: nat)
    requires k < |zs|
    ensures multiset(zs[..k + 1])[z] == multiset(zs[..k])[z] + if zs[k] == z then 1 else 0
  {
    assert zs[..k + 1] == zs[..k] + [zs[k]];
  }

  lemma OnceMore(n: nat, extra: int)
    ensures (n + 1) * extra == n * extra + extra
  {
  }

  /** The change adds its minutes once for every place of the zone. */
  lemma {:induction false} SumIfMeans(duration: map<int, nat>, zs: seq<int>, z: int, minutes: int, k: nat)
    requires k <= |zs|
    ensures SumIf(duration, zs, z, minutes, k) ==
            Before(duration, zs, k) + multiset(zs[..k])[z] * (minutes - Minutes(duration, z))
  {
    if k > 0 {
      SumIfMeans(duration, zs, z, minutes, k - 1);
      OneMorePlace(zs, z, k - 1);
      OnceMore(multiset(zs[..k - 1])[z], minutes - Minutes(duration, z));
    }
  }

  /** The programs have a zone in common, or zones of one group. */
  ghost predicate Neighbours(t: Zones, p: Program, q: Program) {
    || (exists x :: x in p.zones && x in q.zones)
    || exists x, y :: x in p.zones && y in q.zones && x in t.group && y in t.group && t.group[x] == t.group[y]
  }

  /** p, with zone z at the new minutes, and q, as it is, are on at some minute of some day. */
  ghost predicate WouldClash(t: Zones, p: Program, q: Program, z: int, minutes: int) {
    && z in p.zones && p.id != q.id && p.start.Some? && q.start.Some?
    && (exists d :: d in p.days && d in q.days) && Neighbours(t, p, q)
    && var a, b, longer := p.start.value, q.start.value, multiset(p.zones)[z] * (minutes - Minutes(t.duration, z));
       a < b + Before(t.duration, q.zones, |q.zones|) && b < a + Before(t.duration, p.zones, |p.zones|) + longer
  }

  ghost predicate FindingMeans(t: Zones, p: Program, q: Program, z: int, minutes: int, f: Finding) {
    && WouldClash(t, p, q, z, minutes) && f.checkedId == p.id && f.otherId == q.id
    && (forall x :: x in f.commonZones <==> x in p.zones && x in q.zones)
    && var a, b, longer := p.start.value, q.start.value, multiset(p.zones)[z] * (minutes - Minutes(t.duration, z));
       && f.overlapStart == Max(a, b)
       && f.overlapEnd == Min(a + Before(t.duration, p.zones, |p.zones|) + longer,
                              b + Before(t.duration, q.zones, |q.zones|))
  }

  ghost predicate HasFinding(t: Zones, p: Program, q: Program, z: int, minutes: int, findings: seq<Finding>) {
    exists f | f in findings :: FindingMeans(t, p, q, z, minutes, f)
  }

  ghost predicate IsOfAPair(t: Zones, rows: seq<Program>, z: int, minutes: int, f: Finding) {
    exists p, q | p in rows && q in rows :: FindingMeans(t, p, q, z, minutes, f)
  }

  lemma RelatedMeans(t: Zones, p: Program, q: Program)
    ensures Related(t, p, q) <==> Neighbours(t, p, q)
  {
    var zones, groups := Elements(p.zones) * Elements(q.zones), KnownGroups(t, p.zones) * KnownGroups(t, q.zones);
    NonEmpty(zones);
    NonEmpty(groups);
    assert forall x :: x in zones <==> x in p.zones && x in q.zones;
    if x, y :| x in p.zones && y in q.zones && x in t.group && y in t.group && t.group[x] == t.group[y] {
      assert t.group[x] in KnownGroups(t, p.zones) && t.group[y] in KnownGroups(t, q.zones);
      assert t.group[x] in groups;
    }
  }

  lemma ReportedMeans(t: Zones, p: Program, q: Program, z: int, minutes: int)
    ensures Reported(t, p, q, z, minutes) <==> WouldClash(t, p, q, z, minutes)
  {
    RelatedMeans(t, p, q);
    SumIfMeans(t.duration, p.zones, z, minutes, |p.zones|);
    assert p.zones[..|p.zones|] == p.zones;
    NonEmpty(Elements(p.days) * Elements(q.days));
    assert forall d :: d in Elements(p.days) * Elements(q.days) <==> d in p.days && d in q.days;
  }

  lemma FindingIsTrue(t: Zones, p: Program, q: Program, z: int, minutes: int)
    requires Reported(t, p, q, z, minutes)
    ensures FindingMeans(t, p, q, z, minutes, FindingOf(t, p, q, z, minutes))
  {
    ReportedMeans(t, p, q, z, minutes);
    SumIfMeans(t.duration, p.zones, z, minutes, |p.zones|);
    assert p.zones[..|p.zones|] == p.zones;
  }

  // ---- The check ----

  method LengthWith(t: Zones, p: Program, z: int, minutes: int) returns (total: int)
    ensures total == LengthIf(t, p, z, minutes)
  {
    total := 0;
    for k := 0 to |p.zones|
      invariant total == SumIf(t.duration, p.zones, z, minutes, k)
    {
      if p.zones[k] == z {
        total := total + minutes;
      } else {
        total := total + Minutes(t.duration, p.zones[k]);
      }
    }
  }

  /** f reports p against one of the first n rows. */
  ghost predicate Against(t: Zones, rows: seq<Program>, p: Program, z: int, minutes: int, n: nat, f: Finding)
    requires n <= |rows|
  {
    exists j :: 0 <= j < n && Reported(t, p, rows[j], z, minutes) && f == FindingOf(t, p, rows[j], z, minutes)
  }

  /** f reports one of the first n rows against some row. */
  ghost predicate Justified(t: Zones, rows: seq<Program>, z: int, minutes: int, n: nat, f: Finding)
    requires n <= |rows|
  {
    exists i :: 0 <= i < n && Against(t, rows, rows[i], z, minutes, |rows|, f)
  }

  /** The inner loop: one program at its new length against all others at their old ones. */
  method CheckOne(t: Zones, rows: seq<Program>, p: Program, z: int, minutes: int) returns (findings: seq<Finding>)
    requires z in p.zones && p.start.Some?
    ensures forall j | 0 <= j < |rows| && Reported(t, p, rows[j], z, minutes) ::
      FindingOf(t, p, rows[j], z, minutes) in findings
    ensures forall f | f in findings :: Against(t, rows, p, z, minutes, |rows|, f)
  {
    findings := [];
    var startA := p.start.value;
    var lengthA := LengthWith(t, p, z, minutes);
    for j := 0 to |rows|
      invariant forall k | 0 <= k < j && Reported(t, p, rows[k], z, minutes) ::
        FindingOf(t, p, rows[k], z, minutes) in findings
      invariant forall f | f in findings :: Against(t, rows, p, z, minutes, j, f)
    {
      var q := rows[j];
      if q.id == p.id || Elements(p.days) * Elements(q.days) == {} {
        continue;
      }
      var commonZones := Elements(p.zones) * Elements(q.zones);
      if commonZones == {} && KnownGroups(t, p.zones) * KnownGroups(t, q.zones) == {} {
        continue;
      }
      if q.start.None? {
        continue;
      }
      var startB := q.start.value;
      var lengthB := TotalMinutes(t.duration, q.zones);
      if startA < startB + lengthB && startA + lengthA > startB {
        var f := Finding(p.id, q.id, commonZones, Max(startA, startB), Min(startA + lengthA, startB + lengthB));
        assert Reported(t, p, q, z, minutes) && f == FindingOf(t, p, q, z, minutes);
        findings := findings + [f];
      }
    }
  }

  lemma FindingsAreTrue(t: Zones, rows: seq<Program>, z: int, minutes: int, findings: seq<Finding>)
    requires forall i, j | 0 <= i < |rows| && 0 <= j < |rows| && Reported(t, rows[i], rows[j], z, minutes) ::
      FindingOf(t, rows[i], rows[j], z, minutes) in findings
    requires forall f | f in findings :: Justified(t, rows, z, minutes, |rows|, f)
    ensures forall p, q | p in rows && q in rows && WouldClash(t, p, q, z, minutes) ::
      HasFinding(t, p, q, z, minutes, findings)
    ensures forall f | f in findings :: IsOfAPair(t, rows, z, minutes, f)
  {
    forall p, q | p in rows && q in rows && WouldClash(t, p, q, z, minutes)
      ensures HasFinding(t, p, q, z, minutes, findings)
    {
      ReportedMeans(t, p, q, z, minutes);
      FindingIsTrue(t, p, q, z, minutes);
      var i :| 0 <= i < |rows| && rows[i] == p;
      var j :| 0 <= j < |rows| && rows[j] == q;
      assert FindingOf(t, rows[i], rows[j], z, minutes) in findings;
    }
    forall f | f in findings
      ensures IsOfAPair(t, rows, z, minutes, f)
    {
      var i :| 0 <= i < |rows| && Against(t, rows, rows[i], z, minutes, |rows|, f);
      var j :| 0 <= j < |rows| && Reported(t, rows[i], rows[j], z, minutes)
               && f == FindingOf(t, rows[i], rows[j], z, minutes);
      FindingIsTrue(t, rows[i], rows[j], z, minutes);
      assert rows[i] in rows && rows[j] in rows;
    }
  }

  /** The findings are those of the reported ordered pairs, no more and no fewer. */
  method CheckAll(t: Zones, rows: seq<Program>, z: int, minutes: int) returns (findings: seq<Finding>)
    ensures forall i, j | 0 <= i < |rows| && 0 <= j < |rows| && Reported(t, rows[i], rows[j], z, minutes) ::
      FindingOf(t, rows[i], rows[j], z, minutes) in findings
    ensures forall f | f in findings :: Justified(t, rows, z, minutes, |rows|, f)
  {
    findings := [];
    for i := 0 to |rows|
      invariant forall k, j | 0 <= k < i && 0 <= j < |rows| && Reported(t, rows[k], rows[j], z, minutes) ::
        FindingOf(t, rows[k], rows[j], z, minutes) in findings
      invariant forall f | f in findings :: Justified(t, rows, z, minutes, i, f)
    {
      var p := rows[i];
      if z !in p.zones || p.start.None? {
        continue;
      }
      var here := CheckOne(t, rows, p, z, minutes);
      assert forall f | f in here :: Against(t, rows, rows[i], z, minutes, |rows|, f);
      findings := findings + here;
    }
  }

  /** Every pair that would clash is reported, and every finding is of such a pair. */
  method CheckDuration(t: Zones, rows: seq<Program>, z: int, minutes: int) returns (findings: seq<Finding>)
    ensures forall p, q | p in rows && q in rows && WouldClash(t, p, q, z, minutes) ::
      HasFinding(t, p, q, z, minutes, findings)
    ensures forall f | f in findings :: IsOfAPair(t, rows, z, minutes, f)
  {
    findings := CheckAll(t, rows, z, minutes);
    FindingsAreTrue(t, rows, z, minutes, findings);
  }

  // ---- Checking one side is enough ----

  ghost predicate NothingReported(t: Zones, rows: seq<Program>, z: int, minutes: nat) {
    forall p, q | p in rows && q in rows :: !Reported(t, p, q, z, minutes)
  }

  /** Every zone of the table's programs is a zone with a group. */
  predicate ZonesKnown(t: Zones, rows: seq<Program>) {
    forall p, z | p in rows && z in p.zones :: z in t.group
  }

  /** On known zones this check and the one on the program table mean the same by "related". */
  lemma RelatedIsSharingAGroup(t: Zones, p: Program, q: Program)
    requires forall z | z in p.zones + q.zones :: z in t.group
    ensures Related(t, p, q) <==> ShareAGroup(t, p, q)
  {
    CommonZoneIsCommonGroup(t, p, q);
    assert forall z | z in p.zones :: z in p.zones + q.zones;
    assert forall z | z in q.zones :: z in p.zones + q.zones;
    assert KnownGroups(t, p.zones) == Groups(t, p.zones);
    assert KnownGroups(t, q.zones) == Groups(t, q.zones);
  }

  lemma {:induction false} OtherZonesKeepTotal(t: Zones, zs: seq<int>, z: int, minutes: nat, k: nat)
    requires k <= |zs| && z !in zs
    ensures Before(Changed(t, z, minutes).duration, zs, k) == Before(t.duration, zs, k)
  {
    if k > 0 {
      OtherZonesKeepTotal(t, zs, z, minutes, k - 1);
    }
  }

  lemma {:induction false} TotalAtLeast(t: Zones, zs: seq<int>, z: int, k: nat)
    requires k <= |zs| && z in zs[..k]
    ensures Before(t.duration, zs, k) >= Minutes(t.duration, z)
  {
    if zs[k - 1] != z {
      assert zs[..k] == zs[..k - 1] + [zs[k - 1]];
      TotalAtLeast(t, zs, z, k - 1);
    }
  }

  /** The heart of it: two programs that were apart stay apart when each of them, at its new length,
      is apart from the other at its old length, even if both grow. */
  lemma PairStaysApart(t: Zones, p: Program, q: Program, z: int, minutes: nat)
    requires p.id != q.id && z in t.duration && t.duration[z] > 0
    requires !Conflicts(t, p, q) && (Related(t, p, q) <==> ShareAGroup(t, p, q))
    requires !Reported(t, p, q, z, minutes) && !Reported(t, q, p, z, minutes)
    ensures !Conflicts(Changed(t, z, minutes), p, q)
  {
    var t' := Changed(t, z, minutes);
    LengthIfIsLength(t, p, z, minutes);
    LengthIfIsLength(t, q, z, minutes);
    assert Groups(t', p.zones) == Groups(t, p.zones) && Groups(t', q.zones) == Groups(t, q.zones);
    assert Elements(p.zones) * Elements(q.zones) == Elements(q.zones) * Elements(p.zones);
    assert KnownGroups(t, p.zones) * KnownGroups(t, q.zones) == KnownGroups(t, q.zones) * KnownGroups(t, p.zones);
    assert Elements(p.days) * Elements(q.days) == Elements(q.days) * Elements(p.days);
    assert p.zones[..|p.zones|] == p.zones && q.zones[..|q.zones|] == q.zones;
    if z in p.zones {
      TotalAtLeast(t, p.zones, z, |p.zones|);
    } else {
      OtherZonesKeepTotal(t, p.zones, z, minutes, |p.zones|);
    }
    if z in q.zones {
      TotalAtLeast(t, q.zones, z, |q.zones|);
    } else {
      OtherZonesKeepTotal(t, q.zones, z, minutes, |q.zones|);
    }
  }

  /** If nothing is reported the change may be made: the table is conflict-free afterwards. */
  ghost predicate Sufficient(t: Zones, z: int, minutes: nat) {
    forall rows | ConflictFree(t, rows) && ZonesKnown(t, rows) && NothingReported(t, rows, z, minutes) ::
      ConflictFree(Changed(t, z, minutes), rows)
  }

  lemma SufficientForTable(t: Zones, rows: seq<Program>, z: int, minutes: nat)
    requires z in t.duration && t.duration[z] > 0
    requires ConflictFree(t, rows) && ZonesKnown(t, rows) && NothingReported(t, rows, z, minutes)
    ensures ConflictFree(Changed(t, z, minutes), rows)
  {
    forall p, q | p in rows && q in rows && p != q
      ensures p.id != q.id && !Conflicts(Changed(t, z, minutes), p, q)
    {
      RelatedIsSharingAGroup(t, p, q);
      PairStaysApart(t, p, q, z, minutes);
    }
  }

  lemma NoLess(n: nat, extra: nat)
    ensures n * extra >= 0
  {
  }

  lemma LongerClashes(t: Zones, p: Program, q: Program, z: int, minutes: nat)
    requires Reported(t, p, q, z, minutes) && minutes >= Minutes(t.duration, z)
    requires Related(t, p, q) <==> ShareAGroup(t, p, q)
    ensures Conflicts(Changed(t, z, minutes), p, q)
  {
    var t' := Changed(t, z, minutes);
    LengthIfIsLength(t, p, z, minutes);
    LengthIfIsLength(t, q, z, minutes);
    SumIfMeans(t.duration, q.zones, z, minutes, |q.zones|);
    NoLess(multiset(q.zones[..|q.zones|])[z], minutes - Minutes(t.duration, z));
    assert Groups(t', p.zones) == Groups(t, p.zones) && Groups(t', q.zones) == Groups(t, q.zones);
  }

  /** For a zone that takes time and is made longer the check is exact: the table is conflict-free afterwards
      if and only if nothing is reported. */
  lemma LongerIsFreeIff(t: Zones, rows: seq<Program>, z: int, minutes: nat)
    requires z in t.duration && 0 < t.duration[z] <= minutes
    requires ConflictFree(t, rows) && ZonesKnown(t, rows)
    ensures ConflictFree(Changed(t, z, minutes), rows) <==> NothingReported(t, rows, z, minutes)
  {
    if NothingReported(t, rows, z, minutes) {
      SufficientForTable(t, rows, z, minutes);
    } else {
      var p, q :| p in rows && q in rows && Reported(t, p, q, z, minutes);
      RelatedIsSharingAGroup(t, p, q);
      LongerClashes(t, p, q, z, minutes);
    }
  }

  /** The one-sided check is enough exactly for a zone that takes at least a minute now, or still takes
      none afterwards. A zone that gets its first minutes can stand alone in two programs at the same
      time of day, and neither is reported. */
  lemma OneSidedCheckSufficesIff(t: Zones, z: int, minutes: nat)
    requires z in t.duration && z in t.group
    ensures Sufficient(t, z, minutes) <==> t.duration[z] > 0 || minutes == 0
  {
    if t.duration[z] > 0 {
      forall rows | ConflictFree(t, rows) && ZonesKnown(t, rows) && NothingReported(t, rows, z, minutes)
        ensures ConflictFree(Changed(t, z, minutes), rows)
      {
        SufficientForTable(t, rows, z, minutes);
      }
    } else if minutes == 0 {
      assert Changed(t, z, minutes) == t;
    } else {
      var p, q := Program(1, Some(0), [0], [z]), Program(2, Some(0), [0], [z]);
      var rows := [p, q];
      var t' := Changed(t, z, minutes);
      assert Before(t.duration, [z], 0) == 0 && Before(t'.duration, [z], 0) == 0;
      assert Length(t, p) == 0 && Length(t', p) == minutes && Length(t, q) == 0 && Length(t', q) == minutes;
      assert 0 in Elements(p.days) * Elements(q.days);
      assert GroupOf(t', z) in Groups(t', p.zones) * Groups(t', q.zones);
      LengthIfIsLength(t, p, z, minutes);
      LengthIfIsLength(t, q, z, minutes);
      assert Conflicts(t', p, q);
      assert p in rows && q in rows;
      assert ConflictFree(t, rows) && NothingReported(t, rows, z, minutes) && ZonesKnown(t, rows);
    }
  }
}
