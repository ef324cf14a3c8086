/** The overlap check that guards the program table (db/programs.py and routes/programs_api.py). */
module ProgramConflicts {
  import opened Common

  /** What the checks read of the zones: minutes, and the group where there is one. */
  datatype Zones = Zones(duration: map<int, nat>, group: map<int, int>)

  /** A row of the program table; `start` is its main time in minutes, unless that does not parse. */
  datatype Program = Program(id: nat, start: Option<int>, days: seq<int>, zones: seq<int>)

  datatype Conflict = Conflict(
    programId: nat, duration: nat, commonZones: set<int>, commonGroups: set<int>, commonDays: set<int>,
    overlapStart: int, overlapEnd: int)

  /** The group as the program check sees it: a zone that is unknown or has none counts as group 0. */
  function GroupOf(t: Zones, z: int): int {
    if z in t.group then t.group[z] else 0
  }

  function Length(t: Zones, p: Program): nat {
    Before(t.duration, p.zones, |p.zones|)
  }

  function Elements(xs: seq<int>): set<int> {
    set x | x in xs
  }

  function Groups(t: Zones, zs: seq<int>): set<int> {
    set z | z in zs :: GroupOf(t, z)
  }

  predicate Overlap(startA: int, endA: int, startB: int, endB: int) {
    startA < endB && endA > startB
  }

  predicate ShareADay(p: Program, q: Program) {
    Elements(p.days) * Elements(q.days) != {}
  }

  predicate ShareAGroup(t: Zones, p: Program, q: Program) {
    Groups(t, p.zones) * Groups(t, q.zones) != {}
  }

  /** The legacy relation: a common day, a common group, and overlapping main-time spans. */
  predicate Conflicts(t: Zones, p: Program, q: Program) {
    && p.start.Some? && q.start.Some?
    && ShareADay(p, q) && ShareAGroup(t, p, q)
    && Overlap(p.start.value, p.start.value + Length(t, p), q.start.value, q.start.value + Length(t, q))
  }

  lemma ConflictsIsSymmetric(t: Zones, p: Program, q: Program)
    ensures Conflicts(t, p, q) <==> Conflicts(t, q, p)
  {
    assert Elements(p.days) * Elements(q.days) == Elements(q.days) * Elements(p.days);
    assert Groups(t, p.zones) * Groups(t, q.zones) == Groups(t, q.zones) * Groups(t, p.zones);
  }

  /** The check's first test, for common zones, never decides anything: they have a common group. */
  lemma CommonZoneIsCommonGroup(t: Zones, p: Program, q: Program)
    ensures Elements(p.zones) * Elements(q.zones) != {} ==> ShareAGroup(t, p, q)
  {
    var common := Elements(p.zones) * Elements(q.zones);
    assert forall z | z in common :: GroupOf(t, z) in Groups(t, p.zones) * Groups(t, q.zones);
    if !ShareAGroup(t, p, q) {
      assert forall z: int :: z !in common;
      assert common == {};
    }
  }

  /** What the check reports about one stored program. */
  function Report(t: Zones, p: Program, q: Program): Conflict
    requires Conflicts(t, p, q)
  {
    var a, b := p.start.value, q.start.value;
    Conflict(q.id, Length(t, q), Elements(p.zones) * Elements(q.zones), Groups(t, p.zones) * Groups(t, q.zones),
             Elements(p.days) * Elements(q.days), Max(a, b), Min(a + Length(t, p), b + Length(t, q)))
  }

  /** The reports for the first k rows; id 0 stands for a program that is not in the table yet. */
  function Reports(t: Zones, rows: seq<Program>, p: Program, k: nat): seq<Conflict>
    requires k <= |rows|
  {
    if k == 0 then []
    else
      var before, q := Reports(t, rows, p, k - 1), rows[k - 1];
      if (p.id == 0 || q.id != p.id) && Conflicts(t, p, q) then before + [Report(t, p, q)] else before
  }

  lemma {:induction false} NoReportsMeansNoConflict(t: Zones, rows: seq<Program>, p: Program, k: nat)
    requires k <= |rows|
    ensures Reports(t, rows, p, k) == [] <==>
            forall i | 0 <= i < k && (p.id == 0 || rows[i].id != p.id) :: !Conflicts(t, p, rows[i])
  {
    if k > 0 {
      NoReportsMeansNoConflict(t, rows, p, k - 1);
    }
  }

  // ---- What the reports mean ----

  predicate InGroup(t: Zones, z: int, g: int) {
    g == if z in t.group then t.group[z] else 0
  }

  predicate GroupInBoth(t: Zones, xs: seq<int>, ys: seq<int>, g: int) {
    && (exists x | x in xs :: InGroup(t, x, g))
    && (exists y | y in ys :: InGroup(t, y, g))
  }

  /** Both programs are on at some minute of some day, in zones of one group. A program that takes no time
      counts as on if it falls strictly inside the other. */
  ghost predicate Clash(t: Zones, p: Program, q: Program) {
    && p.start.Some? && q.start.Some?
    && (exists d :: d in p.days && d in q.days)
    && (exists g :: GroupInBoth(t, p.zones, q.zones, g))
    && var a, b := p.start.value, q.start.value;
       a < b + Before(t.duration, q.zones, |q.zones|) && b < a + Before(t.duration, p.zones, |p.zones|)
  }

  ghost predicate ReportMeans(t: Zones, p: Program, q: Program, c: Conflict) {
    && Clash(t, p, q) && c.programId == q.id && c.duration == Before(t.duration, q.zones, |q.zones|)
    && (forall z :: z in c.commonZones <==> z in p.zones && z in q.zones)
    && (forall g :: g in c.commonGroups <==> GroupInBoth(t, p.zones, q.zones, g))
    && (forall d :: d in c.commonDays <==> d in p.days && d in q.days)
    && c.overlapStart == Max(p.start.value, q.start.value)
    && c.overlapEnd == Min(p.start.value + Before(t.duration, p.zones, |p.zones|),
                           q.start.value + Before(t.duration, q.zones, |q.zones|))
  }

  lemma GroupIsCommon(t: Zones, xs: seq<int>, ys: seq<int>, g: int)
    ensures g in Groups(t, xs) * Groups(t, ys) <==> GroupInBoth(t, xs, ys, g)
  {
    if g in Groups(t, xs) * Groups(t, ys) {
      var x :| x in xs && GroupOf(t, x) == g;
      var y :| y in ys && GroupOf(t, y) == g;
      assert InGroup(t, x, g) && InGroup(t, y, g);
    }
  }

  lemma ConflictsMeans(t: Zones, p: Program, q: Program)
    ensures Conflicts(t, p, q) <==> Clash(t, p, q)
  {
    var days, groups := Elements(p.days) * Elements(q.days), Groups(t, p.zones) * Groups(t, q.zones);
    NonEmpty(days);
    NonEmpty(groups);
    forall g
      ensures g in groups <==> GroupInBoth(t, p.zones, q.zones, g)
    {
      GroupIsCommon(t, p.zones, q.zones, g);
    }
    assert forall d :: d in days <==> d in p.days && d in q.days;
  }

  lemma ReportIsTrue(t: Zones, p: Program, q: Program)
    requires Conflicts(t, p, q)
    ensures ReportMeans(t, p, q, Report(t, p, q))
  {
    ConflictsMeans(t, p, q);
    forall g
      ensures g in Report(t, p, q).commonGroups <==> GroupInBoth(t, p.zones, q.zones, g)
    {
      GroupIsCommon(t, p.zones, q.zones, g);
    }
  }

  predicate Other(p: Program, q: Program) {
    p.id == 0 || q.id != p.id
  }

  ghost predicate HasReport(t: Zones, p: Program, q: Program, conflicts: seq<Conflict>) {
    exists c | c in conflicts :: ReportMeans(t, p, q, c)
  }

  ghost predicate IsOfARow(t: Zones, rows: seq<Program>, p: Program, c: Conflict) {
    exists q | q in rows && Other(p, q) :: ReportMeans(t, p, q, c)
  }

  /** Every clash with another stored program has its report, and every report is of one. */
  ghost predicate ReportsMean(t: Zones, rows: seq<Program>, p: Program, conflicts: seq<Conflict>) {
    && (forall q | q in rows && Other(p, q) && Clash(t, p, q) :: HasReport(t, p, q, conflicts))
    && (forall c | c in conflicts :: IsOfARow(t, rows, p, c))
  }

  predicate IsReported(t: Zones, p: Program, q: Program) {
    Other(p, q) && Conflicts(t, p, q)
  }

  lemma {:induction false} EveryReportHasItsRow(t: Zones, rows: seq<Program>, p: Program, k: nat)
    requires k <= |rows|
    ensures forall c | c in Reports(t, rows, p, k) ::
              exists i | 0 <= i < k && IsReported(t, p, rows[i]) :: c == Report(t, p, rows[i])
  {
    if k > 0 {
      EveryReportHasItsRow(t, rows, p, k - 1);
      if IsReported(t, p, rows[k - 1]) {
        assert forall c | c in Reports(t, rows, p, k) :: c in Reports(t, rows, p, k - 1) || c == Report(t, p, rows[k - 1]);
      }
    }
  }

  lemma {:induction false} EveryRowHasItsReport(t: Zones, rows: seq<Program>, p: Program, k: nat, i: nat)
    requires i < k <= |rows| && IsReported(t, p, rows[i])
    ensures Report(t, p, rows[i]) in Reports(t, rows, p, k)
  {
    if i < k - 1 {
      EveryRowHasItsReport(t, rows, p, k - 1, i);
    }
  }

  lemma ReportsAreTrue(t: Zones, rows: seq<Program>, p: Program)
    ensures ReportsMean(t, rows, p, Reports(t, rows, p, |rows|))
  {
    var conflicts := Reports(t, rows, p, |rows|);
    forall q | q in rows && Other(p, q) && Clash(t, p, q)
      ensures HasReport(t, p, q, conflicts)
    {
      ConflictsMeans(t, p, q);
      var i :| 0 <= i < |rows| && rows[i] == q;
      EveryRowHasItsReport(t, rows, p, |rows|, i);
      ReportIsTrue(t, p, q);
    }
    EveryReportHasItsRow(t, rows, p, |rows|);
    forall c | c in conflicts
      ensures IsOfARow(t, rows, p, c)
    {
      var i :| 0 <= i < |rows| && IsReported(t, p, rows[i]) && c == Report(t, p, rows[i]);
      ReportIsTrue(t, p, rows[i]);
      assert rows[i] in rows;
    }
  }

  // ---- The check ----

  method Scan(t: Zones, rows: seq<Program>, p: Program) returns (conflicts: seq<Conflict>)
    ensures conflicts == Reports(t, rows, p, |rows|)
  {
    conflicts := [];
    NoReportsMeansNoConflict(t, rows, p, |rows|);
    if p.start.None? || p.days == [] || p.zones == [] {
      return;
    }
    var total := TotalMinutes(t.duration, p.zones);
    var start, end := p.start.value, p.start.value + total;
    for k := 0 to |rows|
      invariant conflicts == Reports(t, rows, p, k)
    {
      var q := rows[k];
      if p.id != 0 && q.id == p.id {
        continue;
      }
      var commonDays := Elements(p.days) * Elements(q.days);
      if commonDays == {} {
        continue;
      }
      var commonZones := Elements(p.zones) * Elements(q.zones);
      var commonGroups := Groups(t, p.zones) * Groups(t, q.zones);
      if commonZones == {} && commonGroups == {} {
        continue;
      }
      if q.start.None? {
        continue;
      }
      var existing := q.start.value;
      var existingTotal := TotalMinutes(t.duration, q.zones);
      CommonZoneIsCommonGroup(t, p, q);
      if start < existing + existingTotal && end > existing {
        conflicts := conflicts + [Conflict(q.id, existingTotal, commonZones, commonGroups, commonDays,
                                           Max(start, existing), Min(end, existing + existingTotal))];
      }
    }
  }

  method CheckProgramConflicts(t: Zones, rows: seq<Program>, p: Program) returns (conflicts: seq<Conflict>)
    ensures conflicts == Reports(t, rows, p, |rows|)
    ensures ReportsMean(t, rows, p, conflicts)
  {
    ReportsAreTrue(t, rows, p);
    conflicts := Scan(t, rows, p);
  }

  // ---- The extended check: one verdict per common group ----

  datatype Level = Error | Warning

  /** The minutes that the first k zones of a list take in group g. */
  function GroupTotal(t: Zones, zs: seq<int>, g: int, k: nat): nat
    requires k <= |zs|
  {
    if k == 0 then 0
    else GroupTotal(t, zs, g, k - 1) + (if GroupOf(t, zs[k - 1]) == g then Minutes(t.duration, zs[k - 1]) else 0)
  }

  /** The verdict on the stored program q in group g, at base length or stretched to `factor` percent. */
  function Verdict(t: Zones, p: Program, q: Program, g: int, factor: int): Option<Level>
    requires p.start.Some? && q.start.Some?
  {
    var a, b := p.start.value, q.start.value;
    var own := GroupTotal(t, q.zones, g, |q.zones|);
    if Overlap(a, a + Length(t, p), b, b + own) then Some(Error)
    else if a * 100 < b * 100 + own * Max(100, factor) && a + Length(t, p) > b then Some(Warning)
    else None
  }

  lemma {:induction false} GroupTotalWithinTotal(t: Zones, zs: seq<int>, g: int, k: nat)
    requires k <= |zs|
    ensures GroupTotal(t, zs, g, k) <= Before(t.duration, zs, k)
    ensures (forall z | z in zs :: GroupOf(t, z) == g) ==> GroupTotal(t, zs, g, k) == Before(t.duration, zs, k)
  {
    if k > 0 {
      GroupTotalWithinTotal(t, zs, g, k - 1);
    }
  }

  /** An error of the extended check is always a conflict of the plain one; the two agree on a stored
      program that waters one group only. */
  lemma VerdictAgainstPlainCheck(t: Zones, p: Program, q: Program, g: int, factor: int)
    requires p.start.Some? && q.start.Some? && ShareADay(p, q)
    requires g in Groups(t, p.zones) * Groups(t, q.zones)
    ensures Verdict(t, p, q, g, factor) == Some(Error) ==> Conflicts(t, p, q)
    ensures Groups(t, q.zones) == {g} ==> (Verdict(t, p, q, g, factor) == Some(Error) <==> Conflicts(t, p, q))
  {
    GroupTotalWithinTotal(t, q.zones, g, |q.zones|);
    if Groups(t, q.zones) == {g} {
      assert forall z | z in q.zones :: GroupOf(t, z) in Groups(t, q.zones);
    }
  }

  /** An error is a meeting of the program with the stored one's part in the group; a warning one with the
      part by which the factor stretches it. */
  lemma VerdictMeans(t: Zones, p: Program, q: Program, g: int, factor: int)
    requires p.start.Some? && q.start.Some?
    ensures var a, b, own := p.start.value, q.start.value, GroupTotal(t, q.zones, g, |q.zones|);
      && (Verdict(t, p, q, g, factor) == Some(Error) <==> a < b + own && b < a + Length(t, p))
      && (Verdict(t, p, q, g, factor) == Some(Warning) <==>
            && factor > 100 && b + own <= a && b < a + Length(t, p)
            && a as real < b as real + (own * factor) as real / 100.0)
  {
    var a, b, own := p.start.value, q.start.value, GroupTotal(t, q.zones, g, |q.zones|);
    assert own * Max(100, factor) == if factor > 100 then own * factor else own * 100;
  }

  /** A higher weather factor never hides anything that a lower one shows. */
  lemma VerdictGrowsWithFactor(t: Zones, p: Program, q: Program, g: int, low: int, high: int)
    requires p.start.Some? && q.start.Some? && low <= high
    ensures Verdict(t, p, q, g, low) == Some(Error) <==> Verdict(t, p, q, g, high) == Some(Error)
    ensures Verdict(t, p, q, g, low).Some? ==> Verdict(t, p, q, g, high).Some?
  {
    var own := GroupTotal(t, q.zones, g, |q.zones|);
    assert own * Max(100, low) <= own * Max(100, high);
  }

  // ---- The table behind the checked endpoints ----

  predicate Shifts(days: seq<int>) {
    days != [] && forall d | d in days :: 1 <= d <= 7
  }

  /** The stored day list: numbers that all lie in 1..7 are taken for Monday = 1 and moved down. */
  function StoredDays(days: seq<int>): (r: seq<int>)
    ensures |r| == |days|
  {
    if Shifts(days) then seq(|days|, i requires 0 <= i < |days| => Max(0, Min(6, days[i] - 1))) else days
  }

  datatype Request =
    | Create(start: Option<int>, days: seq<int>, zones: seq<int>)
    | Update(id: nat, start: Option<int>, days: seq<int>, zones: seq<int>)
    | Delete(id: nat)

  /** The program the check is run on. */
  function Candidate(r: Request): Program
    requires !r.Delete?
  {
    Program(if r.Create? then 0 else r.id, r.start, r.days, r.zones)
  }

  predicate Accepted(t: Zones, rows: seq<Program>, r: Request) {
    r.Delete? || Reports(t, rows, Candidate(r), |rows|) == []
  }

  /** One more than the largest id. */
  function NextId(rows: seq<Program>): (id: nat)
    ensures id > 0 && forall p | p in rows :: p.id < id
  {
    if rows == [] then 1
    else
      var before, last := NextId(rows[..|rows| - 1]), rows[|rows| - 1];
      assert rows == rows[..|rows| - 1] + [last];
      if last.id >= before then last.id + 1 else before
  }

  function Stored(id: nat, r: Request): Program
    requires !r.Delete?
  {
    Program(id, r.start, StoredDays(r.days), r.zones)
  }

  function Without(rows: seq<Program>, id: nat): (r: seq<Program>)
    ensures forall p :: p in r <==> p in rows && p.id != id
  {
    if rows == [] then []
    else
      var before, last := Without(rows[..|rows| - 1], id), rows[|rows| - 1];
      assert rows == rows[..|rows| - 1] + [last];
      if last.id == id then before else before + [last]
  }

  function Replaced(rows: seq<Program>, id: nat, r: Request): (s: seq<Program>)
    requires !r.Delete?
    ensures |s| == |rows|
  {
    seq(|rows|, i requires 0 <= i < |rows| => if rows[i].id == id then Stored(id, r) else rows[i])
  }

  function Next(t: Zones, rows: seq<Program>, r: Request): seq<Program> {
    if !Accepted(t, rows, r) then rows
    else match r
      case Create(_, _, _) => rows + [Stored(NextId(rows), r)]
      case Update(id, _, _, _) => Replaced(rows, id, r)
      case Delete(id) => Without(rows, id)
  }

  /** No two programs conflict; an id belongs to one program. */
  ghost predicate ConflictFree(t: Zones, rows: seq<Program>) {
    && (forall p | p in rows :: p.id > 0)
    && (forall p, q | p in rows && q in rows && p != q :: p.id != q.id && !Conflicts(t, p, q))
  }

  /** No zone takes any time. */
  predicate NoMinutes(t: Zones) {
    forall z | z in t.duration :: t.duration[z] == 0
  }

  /** The request stores what was checked (its day list is empty or holds a number outside 1..7), or
      what it stores cannot conflict with anything, or it writes to no row. */
  predicate SafeRequest(t: Zones, r: Request) {
    || r.Delete? || !Shifts(r.days)
    || r.start.None? || r.zones == [] || NoMinutes(t)
    || (r.Update? && r.id == 0)
  }

  lemma {:induction false} NoTime(t: Zones, zs: seq<int>, k: nat)
    requires NoMinutes(t) && k <= |zs|
    ensures Before(t.duration, zs, k) == 0
  {
    if k > 0 {
      NoTime(t, zs, k - 1);
    }
  }

  /** A program that has no time of day, waters nothing, or takes no time like every other. */
  lemma NeverConflicts(t: Zones, p: Program, q: Program)
    requires p.start.None? || p.zones == [] || NoMinutes(t)
    ensures !Conflicts(t, p, q)
  {
    if p.zones == [] {
      assert Groups(t, p.zones) == {};
    } else if NoMinutes(t) {
      NoTime(t, p.zones, |p.zones|);
      NoTime(t, q.zones, |q.zones|);
    }
  }

  lemma RequestKeepsConflictFree(t: Zones, rows: seq<Program>, r: Request)
    requires ConflictFree(t, rows) && SafeRequest(t, r)
    ensures ConflictFree(t, Next(t, rows, r))
  {
    if r.Update? && r.id == 0 {
      assert Replaced(rows, r.id, r) == rows;
    } else if Accepted(t, rows, r) && !r.Delete? {
      var c, rows' := Candidate(r), Next(t, rows, r);
      NoReportsMeansNoConflict(t, rows, c, |rows|);
      var id := if r.Create? then NextId(rows) else r.id;
      var new' := Stored(id, r);
      forall p | p in rows && p.id != id
        ensures !Conflicts(t, new', p) && !Conflicts(t, p, new')
      {
        ConflictsIsSymmetric(t, p, new');
        if Shifts(r.days) {
          NeverConflicts(t, new', p);
        } else {
          assert Conflicts(t, c, p) <==> Conflicts(t, new', p);
        }
      }
      assert forall p | p in rows' :: p == new' || (p in rows && p.id != id);
    }
  }

  function After(t: Zones, rows: seq<Program>, requests: seq<Request>): seq<Program>
    decreases requests
  {
    if requests == [] then rows else After(t, Next(t, rows, requests[0]), requests[1..])
  }

  /** Whatever is created, changed and deleted through the checked endpoints, programs with a common
      day and a common group stay on disjoint spans. */
  lemma {:induction false} EndpointsKeepConflictFree(t: Zones, rows: seq<Program>, requests: seq<Request>)
    requires ConflictFree(t, rows) && forall r | r in requests :: SafeRequest(t, r)
    ensures ConflictFree(t, After(t, rows, requests))
    decreases requests
  {
    if requests != [] {
      RequestKeepsConflictFree(t, rows, requests[0]);
      EndpointsKeepConflictFree(t, Next(t, rows, requests[0]), requests[1..]);
    }
  }

  ghost predicate SafeForEveryTable(t: Zones, r: Request) {
    forall rows | ConflictFree(t, rows) :: ConflictFree(t, Next(t, rows, r))
  }

  function Least(xs: seq<int>): (m: int)
    requires xs != []
    ensures m in xs && forall x | x in xs :: m <= x
  {
    if |xs| == 1 then xs[0]
    else
      var rest := Least(xs[1..]);
      assert xs == [xs[0]] + xs[1..];
      if xs[0] < rest then xs[0] else rest
  }

  /** A program that starts a minute before the request, on the day before the request's first one, and
      goes on for two minutes at least. */
  function Neighbour(id: nat, r: Request, z: int): Program
    requires !r.Delete? && r.start.Some? && r.days != []
  {
    Program(id, Some(r.start.value - 1), [Least(r.days) - 1], r.zones + [z, z])
  }

  lemma NeighbourLasts(t: Zones, zs: seq<int>, z: int)
    requires z in t.duration && t.duration[z] > 0
    ensures Before(t.duration, zs + [z, z], |zs| + 2) >= 2
  {
    var all := zs + [z, z];
    assert Before(t.duration, all, |zs| + 2) == Before(t.duration, all, |zs| + 1) + Minutes(t.duration, all[|zs| + 1]);
    assert Before(t.duration, all, |zs| + 1) == Before(t.duration, all, |zs|) + Minutes(t.duration, all[|zs|]);
  }

  lemma NoneOfDays(days: seq<int>, day: int)
    requires day !in days
    ensures Elements(days) * Elements([day]) == {}
  {
    assert Elements([day]) == {day};
  }

  lemma ShiftStoresDayBefore(days: seq<int>, first: int)
    requires Shifts(days) && first in days
    ensures first - 1 in Elements(StoredDays(days)) * Elements([first - 1])
  {
    var i :| 0 <= i < |days| && days[i] == first;
    assert StoredDays(days)[i] == first - 1;
    assert first - 1 in [first - 1];
  }

  /** The check lets the request pass beside that neighbour. */
  lemma NeighbourPasses(t: Zones, r: Request, z: int, id: nat)
    requires !r.Delete? && r.start.Some? && Shifts(r.days)
    ensures !Conflicts(t, Candidate(r), Neighbour(id, r, z))
  {
    NoneOfDays(r.days, Least(r.days) - 1);
  }

  lemma NeighbourIsInGroup(t: Zones, r: Request, z: int, id: nat, own: nat)
    requires !r.Delete? && r.start.Some? && r.zones != [] && Shifts(r.days)
    ensures ShareAGroup(t, Stored(own, r), Neighbour(id, r, z))
  {
    var old', new' := Neighbour(id, r, z), Stored(own, r);
    assert r.zones[0] in old'.zones;
    assert GroupOf(t, r.zones[0]) in Groups(t, new'.zones) * Groups(t, old'.zones);
  }

  /** But the shifted days run into it. */
  lemma ShiftRunsIntoNeighbour(t: Zones, r: Request, z: int, id: nat, own: nat)
    requires !r.Delete? && r.start.Some? && r.zones != [] && Shifts(r.days)
    requires z in t.duration && t.duration[z] > 0
    ensures !Conflicts(t, Candidate(r), Neighbour(id, r, z))
    ensures Conflicts(t, Stored(own, r), Neighbour(id, r, z))
  {
    NeighbourPasses(t, r, z, id);
    ShiftStoresDayBefore(r.days, Least(r.days));
    NeighbourIsInGroup(t, r, z, id, own);
    NeighbourLasts(t, r.zones, z);
  }

  lemma UnsafeCreate(t: Zones, r: Request, z: int)
    requires r.Create? && r.start.Some? && r.zones != [] && Shifts(r.days)
    requires z in t.duration && t.duration[z] > 0
    ensures !SafeForEveryTable(t, r)
  {
    var old' := Neighbour(1, r, z);
    var new' := Stored(NextId([old']), r);
    ShiftRunsIntoNeighbour(t, r, z, 1, new'.id);
    assert ConflictFree(t, [old']);
    NoReportsMeansNoConflict(t, [old'], Candidate(r), 1);
    assert Next(t, [old'], r) == [old', new'];
    assert old' in [old', new'] && new' in [old', new'];
  }

  lemma UnsafeUpdate(t: Zones, r: Request, z: int)
    requires r.Update? && r.id > 0 && r.start.Some? && r.zones != [] && Shifts(r.days)
    requires z in t.duration && t.duration[z] > 0
    ensures !SafeForEveryTable(t, r)
  {
    var blank, old', new' := Program(r.id, None, [], []), Neighbour(r.id + 1, r, z), Stored(r.id, r);
    ShiftRunsIntoNeighbour(t, r, z, r.id + 1, r.id);
    assert ConflictFree(t, [blank, old']);
    NoReportsMeansNoConflict(t, [blank, old'], Candidate(r), 2);
    assert Next(t, [blank, old'], r) == [new', old'];
    assert old' in [new', old'] && new' in [new', old'];
  }

  /** A request keeps every conflict-free table conflict-free if and only if it is a safe one. */
  lemma RequestIsSafeIff(t: Zones, r: Request)
    ensures SafeForEveryTable(t, r) <==> SafeRequest(t, r)
  {
    if SafeRequest(t, r) {
      forall rows | ConflictFree(t, rows)
        ensures ConflictFree(t, Next(t, rows, r))
      {
        RequestKeepsConflictFree(t, rows, r);
      }
    } else {
      var z :| z in t.duration && t.duration[z] > 0;
      if r.Create? { UnsafeCreate(t, r, z); } else { UnsafeUpdate(t, r, z); }
    }
  }

  /** The days on record for a requested list: as requested if some number lies outside 1..7, otherwise
      each one less. */
  ghost predicate DaysOnRecord(requested: seq<int>, days: seq<int>) {
    && |days| == |requested|
    && if exists d :: d in requested && !(1 <= d <= 7) then days == requested
       else forall i | 0 <= i < |days| :: days[i] == requested[i] - 1
  }

  ghost predicate OnRecord(p: Program, id: nat, start: Option<int>, days: seq<int>, zs: seq<int>) {
    p.id == id && p.start == start && p.zones == zs && DaysOnRecord(days, p.days)
  }

  ghost predicate HasClash(t: Zones, rows: seq<Program>, p: Program) {
    exists q | q in rows && Other(p, q) :: Clash(t, p, q)
  }

  lemma RefusedIff(t: Zones, rows: seq<Program>, p: Program, conflicts: seq<Conflict>)
    requires ReportsMean(t, rows, p, conflicts)
    ensures conflicts != [] <==> HasClash(t, rows, p)
  {
    if conflicts != [] {
      assert IsOfARow(t, rows, p, conflicts[0]);
    }
    forall q | q in rows && Other(p, q)
      ensures Clash(t, p, q) ==> conflicts != []
    {
      if Clash(t, p, q) {
        assert HasReport(t, p, q, conflicts);
      }
    }
  }

  lemma StoredDaysOnRecord(days: seq<int>)
    ensures DaysOnRecord(days, StoredDays(days))
  {
    if Shifts(days) {
      assert forall i | 0 <= i < |days| :: days[i] in days;
    }
  }

  /** The table has one row more, at its end, with the first id after all others. */
  ghost predicate Appended(before: seq<Program>, after: seq<Program>, id: nat,
                           start: Option<int>, days: seq<int>, zs: seq<int>)
  {
    && |after| == |before| + 1 && after[..|before|] == before
    && OnRecord(after[|before|], id, start, days, zs)
    && (forall p | p in before :: p.id < id)
    && (id == 1 || exists p | p in before :: p.id == id - 1)
  }

  /** The rows with this id have the new contents, the others are as they were. */
  ghost predicate Rewritten(before: seq<Program>, after: seq<Program>, id: nat,
                            start: Option<int>, days: seq<int>, zs: seq<int>)
  {
    && |after| == |before|
    && forall i | 0 <= i < |after| ::
         if before[i].id == id then OnRecord(after[i], id, start, days, zs) else after[i] == before[i]
  }

  lemma {:induction false} NextIdIsNext(rows: seq<Program>)
    ensures NextId(rows) == 1 || exists p | p in rows :: p.id == NextId(rows) - 1
  {
    if rows != [] {
      var before, last := rows[..|rows| - 1], rows[|rows| - 1];
      NextIdIsNext(before);
      assert rows == before + [last];
      assert last in rows;
    }
  }

  lemma NoReportsIff(t: Zones, rows: seq<Program>, p: Program)
    ensures Reports(t, rows, p, |rows|) != [] <==> HasClash(t, rows, p)
  {
    ReportsAreTrue(t, rows, p);
    RefusedIff(t, rows, p, Reports(t, rows, p, |rows|));
  }

  lemma CreateMeans(t: Zones, rows: seq<Program>, start: Option<int>, days: seq<int>, zs: seq<int>)
    ensures var after := Next(t, rows, Create(start, days, zs));
      if HasClash(t, rows, Program(0, start, days, zs)) then after == rows
      else Appended(rows, after, NextId(rows), start, days, zs)
  {
    var p := Program(0, start, days, zs);
    NoReportsIff(t, rows, p);
    NextIdIsNext(rows);
    StoredDaysOnRecord(days);
  }

  lemma UpdateMeans(t: Zones, rows: seq<Program>, id: nat, start: Option<int>, days: seq<int>, zs: seq<int>)
    ensures var after := Next(t, rows, Update(id, start, days, zs));
      if HasClash(t, rows, Program(id, start, days, zs)) then after == rows
      else Rewritten(rows, after, id, start, days, zs)
  {
    var p := Program(id, start, days, zs);
    NoReportsIff(t, rows, p);
    StoredDaysOnRecord(days);
  }

  /** p stands somewhere before q. */
  ghost predicate Precedes(rows: seq<Program>, p: Program, q: Program) {
    exists i, j :: 0 <= i < j < |rows| && rows[i] == p && rows[j] == q
  }

  lemma OneMoreRow(rows: seq<Program>, last: Program, p: Program, q: Program)
    ensures Precedes(rows + [last], p, q) <==> Precedes(rows, p, q) || (p in rows && q == last)
  {
    var all := rows + [last];
    assert forall i | 0 <= i < |rows| :: all[i] == rows[i];
    if p in rows && q == last {
      var i :| 0 <= i < |rows| && rows[i] == p;
      assert all[i] == p && all[|rows|] == q;
    }
    if Precedes(rows, p, q) {
      var i, j :| 0 <= i < j < |rows| && rows[i] == p && rows[j] == q;
      assert all[i] == p && all[j] == q;
    }
  }

  lemma {:induction false} WithoutKeepsOrder(rows: seq<Program>, id: nat, p: Program, q: Program)
    requires p.id != id && q.id != id
    ensures Precedes(Without(rows, id), p, q) <==> Precedes(rows, p, q)
    decreases |rows|
  {
    if rows != [] {
      var n := |rows| - 1;
      var before, kept := rows[..n], Without(rows[..n], id);
      WithoutKeepsOrder(before, id, p, q);
      assert rows == before + [rows[n]];
      OneMoreRow(before, rows[n], p, q);
      OneMoreRow(kept, rows[n], p, q);
    }
  }

  class ProgramTable {
    const zones: Zones
    var rows: seq<Program>

    constructor (zones: Zones)
      ensures this.zones == zones && rows == []
    {
      this.zones, rows := zones, [];
    }

    /** POST /api/programs: refused with the conflicts, or stored under a new id. */
    method ApiCreateProgram(start: Option<int>, days: seq<int>, zs: seq<int>) returns (conflicts: seq<Conflict>, id: nat)
      modifies this
      ensures conflicts == Reports(zones, old(rows), Program(0, start, days, zs), |old(rows)|)
      ensures rows == Next(zones, old(rows), Create(start, days, zs))
      ensures conflicts == [] ==> id == NextId(old(rows))
      ensures conflicts != [] <==> HasClash(zones, old(rows), Program(0, start, days, zs))
      ensures conflicts != [] ==> rows == old(rows)
      ensures conflicts == [] ==> Appended(old(rows), rows, id, start, days, zs)
    {
      id := 0;
      CreateMeans(zones, rows, start, days, zs);
      conflicts := CheckProgramConflicts(zones, rows, Program(0, start, days, zs));
      RefusedIff(zones, rows, Program(0, start, days, zs), conflicts);
      if conflicts != [] {
        return;
      }
      id := NextId(rows);
      rows := rows + [Program(id, start, StoredDays(days), zs)];
    }

    /** PUT /api/programs/id: refused with the conflicts, or written to the row with that id, if any. */
    method ApiUpdateProgram(id: nat, start: Option<int>, days: seq<int>, zs: seq<int>)
      returns (conflicts: seq<Conflict>, found: bool)
      modifies this
      ensures conflicts == Reports(zones, old(rows), Program(id, start, days, zs), |old(rows)|)
      ensures rows == Next(zones, old(rows), Update(id, start, days, zs))
      ensures conflicts == [] ==> (found <==> exists p | p in old(rows) :: p.id == id)
      ensures conflicts != [] <==> HasClash(zones, old(rows), Program(id, start, days, zs))
      ensures conflicts != [] ==> rows == old(rows) && !found
      ensures conflicts == [] ==> Rewritten(old(rows), rows, id, start, days, zs)
    {
      UpdateMeans(zones, rows, id, start, days, zs);
      found := false;
      conflicts := CheckProgramConflicts(zones, rows, Program(id, start, days, zs));
      RefusedIff(zones, rows, Program(id, start, days, zs), conflicts);
      if conflicts != [] {
        return;
      }
      ghost var before := rows;
      var i := 0;
      while i < |rows|
        invariant 0 <= i <= |rows| == |before|
        invariant forall j | 0 <= j < i :: rows[j] == Replaced(before, id, Update(id, start, days, zs))[j]
        invariant forall j | i <= j < |rows| :: rows[j] == before[j]
        invariant found <==> exists j | 0 <= j < i :: before[j].id == id
      {
        if rows[i].id == id {
          rows := rows[i := Program(id, start, StoredDays(days), zs)];
          found := true;
        }
        i := i + 1;
      }
      assert rows == Replaced(before, id, Update(id, start, days, zs));
    }

    method ApiDeleteProgram(id: nat)
      modifies this
      ensures rows == Next(zones, old(rows), Delete(id))
      ensures forall p :: p in rows <==> p in old(rows) && p.id != id
      ensures forall p: Program, q: Program | p.id != id && q.id != id :: Precedes(rows, p, q) <==> Precedes(old(rows), p, q)
    {
      forall p: Program, q: Program | p.id != id && q.id != id
        ensures Precedes(Without(rows, id), p, q) <==> Precedes(rows, p, q)
      {
        WithoutKeepsOrder(rows, id, p, q);
      }
      var kept, i := [], 0;
      while i < |rows|
        invariant 0 <= i <= |rows| && rows == old(rows)
        invariant kept == Without(rows[..i], id)
      {
        assert rows[..i + 1][..i] == rows[..i];
        if rows[i].id != id {
          kept := kept + [rows[i]];
        }
        i := i + 1;
      }
      assert rows[..i] == rows;
      rows := kept;
    }
  }
}
