/** When a zone will be watered next (db/zones.py, compute_next_run_for_zone; routes/zones_crud_api.py,
    the bulk endpoint). */
module NextRun {
  import opened Common
  import opened NextStart
  import opened ZoneOffsets

  function Better(best: Option<nat>, candidate: nat): Option<nat> {
    if best.None? || candidate < best.value then Some(candidate) else best
  }

  /** The least of the first n offers. */
  function Best(offers: seq<Option<nat>>, n: nat): Option<nat>
    requires n <= |offers|
  {
    if n == 0 then None
    else if offers[n - 1].None? then Best(offers, n - 1)
    else Better(Best(offers, n - 1), offers[n - 1].value)
  }

  /** best is the least of the first n offers, or none is made. */
  ghost predicate IsLeast(offers: seq<Option<nat>>, n: nat, best: Option<nat>)
    requires n <= |offers|
  {
    match best
    case None => forall i | 0 <= i < n :: offers[i].None?
    case Some(t) =>
      && (exists i :: 0 <= i < n && offers[i] == best)
      && forall i | 0 <= i < n && offers[i].Some? :: t <= offers[i].value
  }

  lemma {:induction false} BestIsLeast(offers: seq<Option<nat>>, n: nat)
    requires n <= |offers|
    ensures IsLeast(offers, n, Best(offers, n))
  {
    if n > 0 {
      BestIsLeast(offers, n - 1);
      var before, now := Best(offers, n - 1), Best(offers, n);
      if now.Some? && now == before {
        var i :| 0 <= i < n - 1 && offers[i] == before;
        assert offers[i] == now;
      } else if now.Some? {
        assert offers[n - 1] == now;
      }
    }
  }

  /** The comparison that both loops make: after it the best of one offer more is kept. */
  method KeepBest(best: Option<nat>, offer: Option<nat>, ghost offers: seq<Option<nat>>, ghost n: nat)
    returns (better: Option<nat>)
    requires n < |offers| && offer == offers[n] && best == Best(offers, n)
    ensures better == Best(offers, n + 1)
  {
    better := best;
    if offer.Some? && (best.None? || offer.value < best.value) {
      better := offer;
    }
  }

  // ---- The per-zone computation ----

  function AtOffset(start: Option<nat>, minutes: nat): Option<nat> {
    if start.None? then None else Some(start.value + 60 * minutes)
  }

  /** What a program offers a zone that comes `off` minutes after its start. */
  function Offer(p: Program, off: nat, bound: nat): Option<nat> {
    AtOffset(Scan(p, bound, 0, 14), off)
  }

  function Offset(duration: map<int, nat>, p: Program, z: int): nat
    requires z in p.zones
  {
    InSorted(p.zones, z);
    FirstOffset(duration, Sorted(p.zones), z, 0)
  }

  function BulkOffset(duration: map<int, nat>, p: Program, z: int): nat
    requires z in p.zones
  {
    InSorted(p.zones, z);
    LastOffset(duration, Sorted(p.zones), z, |Sorted(p.zones)|)
  }

  /** The minutes before the zone are the same for both interfaces exactly when the program lists the
      zone once or the zone takes no time. */
  lemma OffsetsAgreeIff(duration: map<int, nat>, p: Program, z: int)
    requires z in p.zones
    ensures Offset(duration, p, z) == BulkOffset(duration, p, z)
            <==> multiset(p.zones)[z] == 1 || Minutes(duration, z) == 0
  {
    InSorted(p.zones, z);
    SortedAscends(p.zones);
    SortedPermutes(p.zones);
    OffsetsAgreeInList(duration, Sorted(p.zones), z);
  }

  /** What one program has to offer a zone. */
  function Candidate(duration: map<int, nat>, p: Program, z: int, bound: nat): Option<nat> {
    if z !in p.zones then None else Offer(p, Offset(duration, p, z), bound)
  }

  function Candidates(duration: map<int, nat>, programs: seq<Program>, z: int, bound: nat): (r: seq<Option<nat>>)
    ensures |r| == |programs|
  {
    seq(|programs|, i requires 0 <= i < |programs| => Candidate(duration, programs[i], z, bound))
  }

  /** The next run of a zone: the least offer of the programs that water it. */
  function NextRunOf(duration: map<int, nat>, programs: seq<Program>, z: int, bound: nat): Option<nat> {
    Best(Candidates(duration, programs, z, bound), |programs|)
  }

  /** The bound of the search: the end of an active postponement, or now. */
  function Bound(now: nat, postponeUntil: Option<nat>): (bound: nat)
    ensures bound >= now
  {
    if postponeUntil.Some? && postponeUntil.value > now then postponeUntil.value else now
  }

  /** An offer is the program's next start plus the zone's offset, and is made if there is a next start. */
  ghost predicate OfferFits(duration: map<int, nat>, p: Program, z: int, bound: nat, offer: Option<nat>) {
    && (offer.Some? <==> z in p.zones && HasWeekday(p))
    && (z in p.zones ==> forall s: nat | IsNextStart(p, bound, s) :: offer == Some(s + 60 * Offset(duration, p, z)))
    && (offer.Some? ==> exists s: nat :: IsNextStart(p, bound, s) && s > bound)
  }

  lemma OfferIsNextStart(duration: map<int, nat>, p: Program, z: int, bound: nat)
    ensures OfferFits(duration, p, z, bound, Candidate(duration, p, z, bound))
  {
    ScanIsComplete(p, bound, 14);
    if z in p.zones {
      forall s: nat | IsNextStart(p, bound, s)
        ensures Candidate(duration, p, z, bound) == Some(s + 60 * Offset(duration, p, z))
      {
        NextStartHasWeekday(p, bound, s);
        NextStartIsUnique(p, bound, s, Scan(p, bound, 0, 14).value);
      }
    }
  }

  /** The next run is the minimum, over the programs that water the zone, of the program's next start
      plus the minutes before the zone. In particular it lies strictly after the bound. */
  lemma NextRunIsMinimum(duration: map<int, nat>, programs: seq<Program>, z: int, bound: nat)
    ensures var r := NextRunOf(duration, programs, z, bound);
      && (r.None? <==> forall p | p in programs && z in p.zones :: !HasWeekday(p))
      && (r.Some? ==> r.value > bound)
      && (forall p, s: nat | p in programs && z in p.zones && IsNextStart(p, bound, s) ::
            r.Some? && r.value <= s + 60 * Offset(duration, p, z))
      && (r.Some? ==> exists p, s: nat :: p in programs && z in p.zones && IsNextStart(p, bound, s)
                                     && r.value == s + 60 * Offset(duration, p, z))
  {
    var offers := Candidates(duration, programs, z, bound);
    var r := NextRunOf(duration, programs, z, bound);
    BestIsLeast(offers, |programs|);
    forall i | 0 <= i < |programs|
      ensures OfferFits(duration, programs[i], z, bound, offers[i])
    {
      OfferIsNextStart(duration, programs[i], z, bound);
    }
    if r.Some? {
      var i :| 0 <= i < |offers| && offers[i] == r;
      assert OfferFits(duration, programs[i], z, bound, offers[i]);
    }
    forall p | p in programs && z in p.zones
      ensures HasWeekday(p) ==> r.Some?
      ensures forall s: nat | IsNextStart(p, bound, s) :: r.Some? && r.value <= s + 60 * Offset(duration, p, z)
    {
      var i :| 0 <= i < |programs| && programs[i] == p;
      assert OfferFits(duration, programs[i], z, bound, offers[i]);
    }
  }

  // ---- What the answer means ----

  /** Second s lies after now, and after the end of the postponement if there is one. */
  predicate After(now: nat, postponeUntil: Option<nat>, s: int) {
    s > now && (postponeUntil.Some? ==> s > postponeUntil.value)
  }

  /** When a run of p that starts at s comes to zone z: the zones have their turns in ascending order. */
  ghost predicate ComesTo(duration: map<int, nat>, p: Program, z: int, s: int, t: int) {
    exists i :: FirstPlace(Sorted(p.zones), z, i) && t == s + 60 * Before(duration, Sorted(p.zones), i)
  }

  /** best is the first time that a program which starts after now, and after the postponement, comes to
      the zone; there is none only if no program that waters the zone has a weekday. */
  ghost predicate IsNextRun(duration: map<int, nat>, programs: seq<Program>, z: int, now: nat,
                            postponeUntil: Option<nat>, best: Option<nat>)
  {
    && (best.Some? ==> After(now, postponeUntil, best.value))
    && (best.Some? ==> exists p, s: nat :: p in programs && StartsAt(p, s) && After(now, postponeUntil, s)
                                     && ComesTo(duration, p, z, s, best.value))
    && (forall p, s: nat, t: nat | p in programs && StartsAt(p, s) && After(now, postponeUntil, s)
                             && ComesTo(duration, p, z, s, t) :: best.Some? && best.value <= t)
    && (best.None? ==> forall p, d | p in programs && z in p.zones && 0 <= d < 7 :: d !in p.days)
  }

  lemma BoundMeans(now: nat, postponeUntil: Option<nat>, s: int)
    ensures After(now, postponeUntil, s) <==> s > Bound(now, postponeUntil)
  {
  }

  lemma OffsetMeans(duration: map<int, nat>, p: Program, z: int, s: int, t: int)
    ensures ComesTo(duration, p, z, s, t) <==> z in p.zones && t == s + 60 * Offset(duration, p, z)
  {
    InSorted(p.zones, z);
    if z in p.zones {
      var i := FirstOffsetMeans(duration, Sorted(p.zones), z);
      assert forall j | FirstPlace(Sorted(p.zones), z, j) :: j == i;
    } else {
      assert z !in Sorted(p.zones) by {
        assert Sorted(p.zones)[0..] == Sorted(p.zones);
      }
    }
  }

  lemma NextRunIsEarliest(duration: map<int, nat>, programs: seq<Program>, z: int, now: nat,
                          postponeUntil: Option<nat>, p: Program, s: nat, t: nat)
    requires p in programs && StartsAt(p, s) && After(now, postponeUntil, s) && ComesTo(duration, p, z, s, t)
    ensures var best := NextRunOf(duration, programs, z, Bound(now, postponeUntil));
      best.Some? && best.value <= t
  {
    var bound := Bound(now, postponeUntil);
    BoundMeans(now, postponeUntil, s);
    OffsetMeans(duration, p, z, s, t);
    NextRunIsMinimum(duration, programs, z, bound);
    ScanMeans(p, bound, 14);
    assert s / 86400 % 7 in p.days;
    var first := Scan(p, bound, 0, 14).value;
    NextStartMeans(p, bound, first);
  }

  lemma NextRunIsRun(duration: map<int, nat>, programs: seq<Program>, z: int, now: nat, postponeUntil: Option<nat>)
    requires NextRunOf(duration, programs, z, Bound(now, postponeUntil)).Some?
    ensures var best := NextRunOf(duration, programs, z, Bound(now, postponeUntil)).value;
      && After(now, postponeUntil, best)
      && exists p, s: nat :: p in programs && StartsAt(p, s) && After(now, postponeUntil, s)
                       && ComesTo(duration, p, z, s, best)
  {
    var bound := Bound(now, postponeUntil);
    var best := NextRunOf(duration, programs, z, bound).value;
    NextRunIsMinimum(duration, programs, z, bound);
    var p, s: nat :| p in programs && z in p.zones && IsNextStart(p, bound, s)
                     && best == s + 60 * Offset(duration, p, z);
    NextStartMeans(p, bound, s);
    BoundMeans(now, postponeUntil, s);
    BoundMeans(now, postponeUntil, best);
    OffsetMeans(duration, p, z, s, best);
  }

  lemma NextRunMeans(duration: map<int, nat>, programs: seq<Program>, z: int, now: nat, postponeUntil: Option<nat>)
    ensures IsNextRun(duration, programs, z, now, postponeUntil,
                      NextRunOf(duration, programs, z, Bound(now, postponeUntil)))
  {
    var best := NextRunOf(duration, programs, z, Bound(now, postponeUntil));
    if best.Some? {
      NextRunIsRun(duration, programs, z, now, postponeUntil);
    } else {
      NextRunIsMinimum(duration, programs, z, Bound(now, postponeUntil));
      forall p, d | p in programs && z in p.zones && 0 <= d < 7
        ensures d !in p.days
      {
        assert !HasWeekday(p);
      }
    }
    forall p, s: nat, t: nat | p in programs && StartsAt(p, s) && After(now, postponeUntil, s)
                         && ComesTo(duration, p, z, s, t)
      ensures best.Some? && best.value <= t
    {
      NextRunIsEarliest(duration, programs, z, now, postponeUntil, p, s, t);
    }
  }

  method OffsetOf(duration: map<int, nat>, p: Program, z: int) returns (off: nat)
    requires z in p.zones
    ensures off == Offset(duration, p, z)
  {
    InSorted(p.zones, z);
    off := MinutesBefore(duration, Sorted(p.zones), z);
  }

  method MakeOffer(duration: map<int, nat>, p: Program, z: int, bound: nat) returns (offer: Option<nat>)
    ensures offer == Candidate(duration, p, z, bound)
  {
    if z !in p.zones {
      return None;
    }
    var start := ScanDays(p, bound, 14);
    if start.None? {
      return None;
    }
    var cum := OffsetOf(duration, p, z);
    return Some(start.value + 60 * cum);
  }

  method ComputeNextRunForZone(duration: map<int, nat>, programs: seq<Program>, z: int,
                               now: nat, postponeUntil: Option<nat>) returns (best: Option<nat>)
    ensures best == NextRunOf(duration, programs, z, Bound(now, postponeUntil))
    ensures IsNextRun(duration, programs, z, now, postponeUntil, best)
  {
    NextRunMeans(duration, programs, z, now, postponeUntil);
    best := None;
    var bound := if postponeUntil.Some? && postponeUntil.value > now then postponeUntil.value else now;
    ghost var offers := Candidates(duration, programs, z, bound);
    for n := 0 to |programs|
      invariant best == Best(offers, n)
    {
      var offer := MakeOffer(duration, programs[n], z, bound);
      best := KeepBest(best, offer, offers, n);
    }
  }

  // ---- The bulk endpoint ----

  function TodayStart(p: Program, now: nat): Option<nat> {
    if RunsOn(p, now / DAY) then Some(StartOn(p, now / DAY)) else None
  }

  /** Today's run, `total` minutes long, is under way. */
  predicate InProgress(p: Program, total: nat, now: nat) {
    var today := TodayStart(p, now);
    today.Some? && today.value <= now < today.value + 60 * total
  }

  /** The run under way has not reached minute `off` yet. */
  predicate StillAhead(p: Program, total: nat, off: nat, now: nat) {
    InProgress(p, total, now) && off >= (now - TodayStart(p, now).value) / 60
  }

  /** The offer of a run under way: later today if the zone's turn is not over, else at the next run. */
  function RunningOffer(p: Program, total: nat, off: nat, now: nat): Option<nat>
    requires InProgress(p, total, now)
  {
    if StillAhead(p, total, off, now) then Some(TodayStart(p, now).value + 60 * off)
    else AtOffset(Scan(p, now, 0, 14), off)
  }

  /** The offer of the next run after the bound; today's run is passed over if it is cancelled. */
  function UpcomingOffer(p: Program, off: nat, now: nat, bound: nat, cancelledToday: bool): Option<nat> {
    var c := AtOffset(if bound != now then Scan(p, bound, 0, 15) else Scan(p, now, 0, 14), off);
    var later := NextDayStart(p, now, 1);
    if c.Some? && cancelledToday && bound == now && later.Some? then AtOffset(later, off) else c
  }

  /** What the bulk endpoint lets a program of `total` minutes offer a zone `off` minutes into it;
      `cancelled` says that the program's run of today is cancelled for the zone's group. */
  function BulkOffer(p: Program, total: nat, off: nat, now: nat, bound: nat, cancelled: bool): Option<nat> {
    var cancelledToday := TodayStart(p, now).Some? && cancelled;
    var c :=
      if InProgress(p, total, now) && !cancelledToday && bound <= now then RunningOffer(p, total, off, now)
      else UpcomingOffer(p, off, now, bound, cancelledToday);
    if c.Some? && c.value <= bound then None else c
  }

  function BulkCandidate(duration: map<int, nat>, p: Program, z: int, now: nat, bound: nat, cancelled: bool): Option<nat> {
    if z !in p.zones then None
    else BulkOffer(p, Before(duration, p.zones, |p.zones|), BulkOffset(duration, p, z), now, bound, cancelled)
  }

  function BulkCandidates(duration: map<int, nat>, programs: seq<Program>, z: int, now: nat, bound: nat,
                          cancelled: set<nat>): (r: seq<Option<nat>>)
    ensures |r| == |programs|
  {
    seq(|programs|, i requires 0 <= i < |programs| =>
      BulkCandidate(duration, programs[i], z, now, bound, i in cancelled))
  }

  function BulkNextRunOf(duration: map<int, nat>, programs: seq<Program>, z: int, now: nat, bound: nat,
                         cancelled: set<nat>): Option<nat>
  {
    Best(BulkCandidates(duration, programs, z, now, bound, cancelled), |programs|)
  }

  /** The next start is today's if that is still to come, and the next day's of the program otherwise. */
  lemma TodayOrLater(p: Program, now: nat)
    requires HasWeekday(p)
    ensures var today, later := TodayStart(p, now), NextDayStart(p, now, 1);
      && later.Some?
      && (today.Some? ==> today.value < later.value)
      && Scan(p, now, 0, 14) == if today.Some? && today.value > now then today else later
  {
    var d :| 0 <= d < 7 && d in p.days;
    var day := StartWithinAWeek(p, now, d);
    NextDayStartExists(p, now, 1, day - now / DAY);
    NextDayStartIsScan(p, now, 1);
    HorizonsAgree(p, now, 14, 15);
    assert Scan(p, now, 0, 15) ==
           if IsFutureStart(p, now, now / DAY + 0) then Some(StartOn(p, now / DAY + 0)) else Scan(p, now, 1, 15);
  }

  /** One program offers the same through both interfaces exactly when the zone is postponed, or today's
      run is cancelled after its start, or it is not cancelled and has not the zone still ahead of it. */
  lemma OffersAgreeIff(p: Program, total: nat, off: nat, now: nat, bound: nat, cancelled: bool)
    requires bound >= now
    ensures BulkOffer(p, total, off, now, bound, cancelled) == Offer(p, off, bound) <==>
      || bound > now
      || (if cancelled && TodayStart(p, now).Some? then TodayStart(p, now).value <= now
          else !StillAhead(p, total, off, now))
  {
    HorizonsAgree(p, bound, 14, 15);
    ScanIsComplete(p, bound, 14);
    if HasWeekday(p) {
      TodayOrLater(p, now);
    } else {
      assert 0 <= (now / DAY) % 7 < 7 && TodayStart(p, now).None?;
    }
  }

  /** No run of p is cancelled today, under way, or else the zone is postponed. */
  predicate Quiet(duration: map<int, nat>, p: Program, now: nat, bound: nat, cancelled: bool) {
    bound > now || (!cancelled && !InProgress(p, Before(duration, p.zones, |p.zones|), now))
  }

  predicate ListedOnce(duration: map<int, nat>, p: Program, z: int) {
    multiset(p.zones)[z] == 1 || Minutes(duration, z) == 0
  }

  /** What a quiet program offers in bulk is its start plus the minutes before the zone's last place. */
  lemma QuietOffer(duration: map<int, nat>, p: Program, z: int, now: nat, bound: nat, cancelled: bool)
    requires z in p.zones && bound >= now && Quiet(duration, p, now, bound, cancelled)
    ensures BulkCandidate(duration, p, z, now, bound, cancelled) == Offer(p, BulkOffset(duration, p, z), bound)
  {
    OffersAgreeIff(p, Before(duration, p.zones, |p.zones|), BulkOffset(duration, p, z), now, bound, cancelled);
  }

  /** The bulk offer of a quiet program is never earlier, and the same exactly if the program lists the
      zone once or the zone takes no time; without a weekday there is no offer at all. */
  lemma QuietOffersCompare(duration: map<int, nat>, p: Program, z: int, now: nat, bound: nat, cancelled: bool)
    requires z in p.zones && bound >= now && Quiet(duration, p, now, bound, cancelled)
    ensures var single, bulk := Candidate(duration, p, z, bound), BulkCandidate(duration, p, z, now, bound, cancelled);
      && (single.Some? <==> bulk.Some?)
      && (single.Some? ==> single.value <= bulk.value)
      && (single.Some? ==> (single == bulk <==> ListedOnce(duration, p, z)))
  {
    QuietOffer(duration, p, z, now, bound, cancelled);
    OffsetsAgreeIff(duration, p, z);
    InSorted(p.zones, z);
    OffsetsOrdered(duration, Sorted(p.zones), z);
  }

  ghost predicate AllQuiet(duration: map<int, nat>, programs: seq<Program>, z: int, now: nat, bound: nat,
                           cancelled: set<nat>) {
    forall i | 0 <= i < |programs| && z in programs[i].zones :: Quiet(duration, programs[i], now, bound, i in cancelled)
  }

  /** The offer is the best one, from a program that lists the zone once, or the zone takes no time. */
  ghost predicate WinsOnce(duration: map<int, nat>, p: Program, z: int, offer: Option<nat>, best: Option<nat>) {
    z in p.zones && ListedOnce(duration, p, z) && offer == best
  }

  /** How one program's two offers compare. */
  ghost predicate Comparable(duration: map<int, nat>, p: Program, z: int, single: Option<nat>, bulk: Option<nat>) {
    && (single.Some? ==> z in p.zones)
    && (single.Some? <==> bulk.Some?)
    && (single.Some? ==> single.value <= bulk.value)
    && (single.Some? ==> (single == bulk <==> ListedOnce(duration, p, z)))
  }

  lemma OffersAreComparable(duration: map<int, nat>, p: Program, z: int, now: nat, bound: nat, cancelled: bool)
    requires bound >= now && (z in p.zones ==> Quiet(duration, p, now, bound, cancelled))
    ensures Comparable(duration, p, z, Candidate(duration, p, z, bound),
                       BulkCandidate(duration, p, z, now, bound, cancelled))
  {
    if z in p.zones {
      QuietOffersCompare(duration, p, z, now, bound, cancelled);
    }
  }

  lemma BestsCompare(duration: map<int, nat>, programs: seq<Program>, z: int, single: seq<Option<nat>>,
                     bulk: seq<Option<nat>>, a: Option<nat>, b: Option<nat>)
    requires |single| == |bulk| == |programs| && IsLeast(single, |programs|, a) && IsLeast(bulk, |programs|, b)
    requires forall i | 0 <= i < |programs| :: Comparable(duration, programs[i], z, single[i], bulk[i])
    ensures b == a <==> a.None? || exists i :: 0 <= i < |programs| && WinsOnce(duration, programs[i], z, single[i], a)
  {
    if a.None? {
      assert forall i | 0 <= i < |programs| :: Comparable(duration, programs[i], z, single[i], bulk[i]) && bulk[i].None?;
    } else if b == a {
      var i :| 0 <= i < |bulk| && bulk[i] == b;
      assert Comparable(duration, programs[i], z, single[i], bulk[i]);
      assert WinsOnce(duration, programs[i], z, single[i], a);
    } else {
      var k :| 0 <= k < |single| && single[k] == a;
      assert Comparable(duration, programs[k], z, single[k], bulk[k]);
      var n :| 0 <= n < |bulk| && bulk[n] == b;
      assert Comparable(duration, programs[n], z, single[n], bulk[n]);
      forall i | 0 <= i < |programs|
        ensures !WinsOnce(duration, programs[i], z, single[i], a)
      {
        assert Comparable(duration, programs[i], z, single[i], bulk[i]);
      }
    }
  }

  /** For a zone whose programs are all quiet the two interfaces answer the same if and only if there
      is no next run, or some program that offers the earliest one lists the zone once, or the zone
      takes no time. */
  lemma AnswersAgreeIff(duration: map<int, nat>, programs: seq<Program>, z: int, now: nat, bound: nat,
                        cancelled: set<nat>)
    requires bound >= now && AllQuiet(duration, programs, z, now, bound, cancelled)
    ensures var single, best := Candidates(duration, programs, z, bound), NextRunOf(duration, programs, z, bound);
      BulkNextRunOf(duration, programs, z, now, bound, cancelled) == best
      <==> best.None? || exists i :: 0 <= i < |programs| && WinsOnce(duration, programs[i], z, single[i], best)
  {
    var single, bulk := Candidates(duration, programs, z, bound), BulkCandidates(duration, programs, z, now, bound, cancelled);
    forall i | 0 <= i < |programs|
      ensures Comparable(duration, programs[i], z, single[i], bulk[i])
    {
      OffersAreComparable(duration, programs[i], z, now, bound, i in cancelled);
    }
    BestIsLeast(single, |programs|);
    BestIsLeast(bulk, |programs|);
    BestsCompare(duration, programs, z, single, bulk, Best(single, |programs|), Best(bulk, |programs|));
  }

  /** One quiet program with a weekday makes the two answers differ exactly if it lists the zone more
      than once and the zone takes time. */
  lemma AnswersAgreeForOneIff(duration: map<int, nat>, p: Program, z: int, now: nat)
    requires z in p.zones && HasWeekday(p) && Quiet(duration, p, now, now, false)
    ensures BulkNextRunOf(duration, [p], z, now, now, {}) == NextRunOf(duration, [p], z, now)
            <==> multiset(p.zones)[z] == 1 || Minutes(duration, z) == 0
  {
    AnswersAgreeIff(duration, [p], z, now, now, {});
    ScanIsComplete(p, now, 14);
    var single := Candidates(duration, [p], z, now);
    assert Best(single, 0) == None && Best(single, 1) == single[0];
    assert WinsOnce(duration, [p][0], z, single[0], single[0]) <==> ListedOnce(duration, p, z);
  }

  /** Hence both interfaces give the same answer for a zone that each of its programs lists once. */
  lemma BulkAgreesWithPerZone(duration: map<int, nat>, programs: seq<Program>, z: int, now: nat,
                              bound: nat, cancelled: set<nat>)
    requires bound >= now && AllQuiet(duration, programs, z, now, bound, cancelled)
    requires forall p | p in programs && z in p.zones :: ListedOnce(duration, p, z)
    ensures BulkNextRunOf(duration, programs, z, now, bound, cancelled) == NextRunOf(duration, programs, z, bound)
  {
    AnswersAgreeIff(duration, programs, z, now, bound, cancelled);
    var single, best := Candidates(duration, programs, z, bound), NextRunOf(duration, programs, z, bound);
    BestIsLeast(single, |programs|);
    if best.Some? {
      var i :| 0 <= i < |programs| && single[i] == best;
      assert programs[i] in programs && WinsOnce(duration, programs[i], z, single[i], best);
    }
  }

  // ---- What the bulk answer means ----

  /** s is the start whose run the bulk endpoint shows for a zone `off` minutes into a run of `total`
      minutes: the first one after a postponement; the first one after today if today's is cancelled; today's
      while it is under way and its minute `off` is not over; otherwise the first one after now. */
  ghost predicate ShownStart(p: Program, total: nat, off: nat, now: nat, postponeUntil: Option<nat>,
                             cancelled: bool, s: int)
  {
    var today := now / 86400 * 86400 + 60 * p.minute;
    if postponeUntil.Some? && postponeUntil.value > now then FirstStartAfter(p, postponeUntil.value, s)
    else if StartsAt(p, today) && cancelled then FirstStartAfter(p, now / 86400 * 86400 + 86399, s)
    else if StartsAt(p, today) && today <= now < today + 60 * total && now < today + 60 * off + 60 then s == today
    else FirstStartAfter(p, now, s)
  }

  /** t is what program p has to show for zone z: when the run that it shows comes to the zone's last place. */
  ghost predicate Shows(duration: map<int, nat>, p: Program, z: int, now: nat, postponeUntil: Option<nat>,
                        cancelled: bool, t: int)
  {
    exists i :: LastPlace(Sorted(p.zones), z, i)
      && var off := Before(duration, Sorted(p.zones), i);
         ShownStart(p, Before(duration, p.zones, |p.zones|), off, now, postponeUntil, cancelled, t - 60 * off)
  }

  /** best is the first time, after now and after the postponement, that a program has to show. */
  ghost predicate IsBulkNextRun(duration: map<int, nat>, programs: seq<Program>, z: int, now: nat,
                                postponeUntil: Option<nat>, cancelled: set<nat>, best: Option<nat>)
  {
    && (best.Some? ==> After(now, postponeUntil, best.value))
    && (best.Some? ==> exists i :: 0 <= i < |programs|
                         && Shows(duration, programs[i], z, now, postponeUntil, i in cancelled, best.value))
    && (forall i, t: nat | 0 <= i < |programs| && After(now, postponeUntil, t)
                     && Shows(duration, programs[i], z, now, postponeUntil, i in cancelled, t) ::
          best.Some? && best.value <= t)
  }

  lemma TodayMeans(p: Program, now: nat)
    ensures var today := now / 86400 * 86400 + 60 * p.minute;
      && (TodayStart(p, now).Some? <==> StartsAt(p, today))
      && (TodayStart(p, now).Some? ==> TodayStart(p, now).value == today)
  {
    StartOnMeans(p, now / 86400);
  }

  lemma StillAheadMeans(p: Program, total: nat, off: nat, now: nat)
    ensures var today := now / 86400 * 86400 + 60 * p.minute;
      StillAhead(p, total, off, now) <==>
        StartsAt(p, today) && today <= now < today + 60 * total && now < today + 60 * off + 60
  {
    TodayMeans(p, now);
  }

  /** The first start after a moment is unique. */
  lemma FirstStartIsUnique(p: Program, from: int, a: int, b: int)
    requires FirstStartAfter(p, from, a) && FirstStartAfter(p, from, b)
    ensures a == b
  {
  }

  lemma AtOffsetMeans(p: Program, from: int, start: Option<nat>, off: nat, s: int)
    requires start.Some? ==> FirstStartAfter(p, from, start.value)
    requires start.None? ==> forall d | 0 <= d < 7 :: d !in p.days
    ensures FirstStartAfter(p, from, s) <==> AtOffset(start, off) == Some(s + 60 * off)
  {
    if FirstStartAfter(p, from, s) {
      assert s / 86400 % 7 in p.days;
      FirstStartIsUnique(p, from, s, start.value);
    }
  }

  /** What a program offers before the last comparison is the run it shows. */
  ghost function Uncut(p: Program, total: nat, off: nat, now: nat, bound: nat, cancelled: bool): Option<nat> {
    var cancelledToday := TodayStart(p, now).Some? && cancelled;
    if InProgress(p, total, now) && !cancelledToday && bound <= now then RunningOffer(p, total, off, now)
    else UpcomingOffer(p, off, now, bound, cancelledToday)
  }

  lemma CancelledMeans(p: Program, off: nat, now: nat, s: int)
    requires TodayStart(p, now).Some?
    ensures FirstStartAfter(p, now / 86400 * 86400 + 86399, s) <==>
            UpcomingOffer(p, off, now, now, true) == Some(s + 60 * off)
  {
    assert 0 <= (now / DAY) % 7 < 7 && (now / DAY) % 7 in p.days;
    TodayOrLater(p, now);
    TomorrowMeans(p, now);
    AtOffsetMeans(p, now / 86400 * 86400 + 86399, NextDayStart(p, now, 1), off, s);
  }

  lemma UncutMeans(p: Program, total: nat, off: nat, now: nat, postponeUntil: Option<nat>, cancelled: bool, s: int)
    ensures ShownStart(p, total, off, now, postponeUntil, cancelled, s) <==>
            Uncut(p, total, off, now, Bound(now, postponeUntil), cancelled) == Some(s + 60 * off)
  {
    var bound := Bound(now, postponeUntil);
    TodayMeans(p, now);
    if bound > now {
      ScanMeans(p, bound, 15);
      AtOffsetMeans(p, bound, Scan(p, bound, 0, 15), off, s);
    } else if TodayStart(p, now).Some? && cancelled {
      CancelledMeans(p, off, now, s);
    } else {
      StillAheadMeans(p, total, off, now);
      ScanMeans(p, now, 14);
      AtOffsetMeans(p, now, Scan(p, now, 0, 14), off, s);
    }
  }

  lemma ShowsAtPlace(duration: map<int, nat>, p: Program, z: int, now: nat, postponeUntil: Option<nat>,
                     cancelled: bool, t: int, i: nat)
    requires LastPlace(Sorted(p.zones), z, i)
    ensures var off := Before(duration, Sorted(p.zones), i);
      Shows(duration, p, z, now, postponeUntil, cancelled, t) <==>
      ShownStart(p, Before(duration, p.zones, |p.zones|), off, now, postponeUntil, cancelled, t - 60 * off)
  {
    assert forall j | LastPlace(Sorted(p.zones), z, j) :: j == i;
  }

  lemma ShowsMeans(duration: map<int, nat>, p: Program, z: int, now: nat, postponeUntil: Option<nat>,
                   cancelled: bool, t: int)
    requires z in p.zones
    ensures Shows(duration, p, z, now, postponeUntil, cancelled, t) <==>
            Uncut(p, Before(duration, p.zones, |p.zones|), BulkOffset(duration, p, z), now, Bound(now, postponeUntil),
                  cancelled) == Some(t)
  {
    InSorted(p.zones, z);
    var i := LastOffsetMeans(duration, Sorted(p.zones), z);
    var off := BulkOffset(duration, p, z);
    ShowsAtPlace(duration, p, z, now, postponeUntil, cancelled, t, i);
    UncutMeans(p, Before(duration, p.zones, |p.zones|), off, now, postponeUntil, cancelled, t - 60 * off);
  }

  lemma NothingToShow(duration: map<int, nat>, p: Program, z: int, now: nat, postponeUntil: Option<nat>,
                      cancelled: bool, t: int)
    requires z !in p.zones
    ensures !Shows(duration, p, z, now, postponeUntil, cancelled, t)
  {
    SortedPermutes(p.zones);
    assert z !in multiset(p.zones) && z !in multiset(Sorted(p.zones));
  }

  lemma BulkCandidateMeans(duration: map<int, nat>, p: Program, z: int, now: nat, postponeUntil: Option<nat>,
                           cancelled: bool, t: nat)
    ensures BulkCandidate(duration, p, z, now, Bound(now, postponeUntil), cancelled) == Some(t) <==>
            After(now, postponeUntil, t) && Shows(duration, p, z, now, postponeUntil, cancelled, t)
  {
    BoundMeans(now, postponeUntil, t);
    if z in p.zones {
      ShowsMeans(duration, p, z, now, postponeUntil, cancelled, t);
    } else {
      NothingToShow(duration, p, z, now, postponeUntil, cancelled, t);
    }
  }

  lemma BulkNextRunMeans(duration: map<int, nat>, programs: seq<Program>, z: int, now: nat,
                         postponeUntil: Option<nat>, cancelled: set<nat>)
    ensures IsBulkNextRun(duration, programs, z, now, postponeUntil, cancelled,
                          BulkNextRunOf(duration, programs, z, now, Bound(now, postponeUntil), cancelled))
  {
    var bound := Bound(now, postponeUntil);
    var offers := BulkCandidates(duration, programs, z, now, bound, cancelled);
    var best := BulkNextRunOf(duration, programs, z, now, bound, cancelled);
    BestIsLeast(offers, |programs|);
    if best.Some? {
      var i :| 0 <= i < |offers| && offers[i] == best;
      BulkCandidateMeans(duration, programs[i], z, now, postponeUntil, i in cancelled, best.value);
    }
    forall i, t: nat | 0 <= i < |programs| && After(now, postponeUntil, t)
                 && Shows(duration, programs[i], z, now, postponeUntil, i in cancelled, t)
      ensures best.Some? && best.value <= t
    {
      BulkCandidateMeans(duration, programs[i], z, now, postponeUntil, i in cancelled, t);
      assert offers[i] == Some(t);
    }
  }

  method MakeRunningOffer(p: Program, total: nat, off: nat, now: nat) returns (offer: Option<nat>)
    requires InProgress(p, total, now)
    ensures offer == RunningOffer(p, total, off, now)
  {
    var today := now / DAY * DAY + p.minute * 60;
    if off >= (now - today) / 60 {
      return Some(today + 60 * off);
    }
    var next := ScanDays(p, now, 14);
    offer := if next.Some? then Some(next.value + 60 * off) else None;
  }

  method MakeUpcomingOffer(p: Program, off: nat, now: nat, bound: nat, cancelledToday: bool)
    returns (offer: Option<nat>)
    ensures offer == UpcomingOffer(p, off, now, bound, cancelledToday)
  {
    var start;
    if bound != now {
      start := ScanDays(p, bound, 15);
    } else {
      start := ScanDays(p, now, 14);
    }
    if start.None? {
      return None;
    }
    offer := Some(start.value + 60 * off);
    if cancelledToday && bound == now {
      var later := ScanFromTomorrow(p, now);
      if later.Some? {
        offer := Some(later.value + 60 * off);
      }
    }
  }

  method MakeBulkOffer(p: Program, total: nat, off: nat, now: nat, bound: nat, cancelled: bool)
    returns (offer: Option<nat>)
    requires bound >= now
    ensures offer == BulkOffer(p, total, off, now, bound, cancelled)
  {
    var today := if (now / DAY) % 7 in p.days then Some(now / DAY * DAY + p.minute * 60) else None;
    var cancelledToday := today.Some? && cancelled;
    var inProgress := today.Some? && today.value <= now && total > 0 && now < today.value + 60 * total;
    if inProgress && !cancelledToday && bound <= now {
      offer := MakeRunningOffer(p, total, off, now);
    } else {
      offer := MakeUpcomingOffer(p, off, now, bound, cancelledToday);
    }
    if offer.Some? && offer.value <= bound {
      return None;
    }
  }

  /** The turn of program n in the bulk loop. */
  method OfferInBulk(duration: map<int, nat>, programs: seq<Program>, n: nat, z: int, now: nat, bound: nat,
                     cancelled: set<nat>) returns (offer: Option<nat>)
    requires n < |programs| && bound >= now
    ensures offer == BulkCandidates(duration, programs, z, now, bound, cancelled)[n]
  {
    var p := programs[n];
    if z !in p.zones {
      return None;
    }
    InSorted(p.zones, z);
    var off := OffsetEntry(duration, Sorted(p.zones), z);
    var total := TotalMinutes(duration, p.zones);
    offer := MakeBulkOffer(p, total, off, now, bound, n in cancelled);
  }

  method BulkNextRun(duration: map<int, nat>, programs: seq<Program>, z: int, now: nat,
                     postponeUntil: Option<nat>, cancelled: set<nat>) returns (best: Option<nat>)
    ensures best == BulkNextRunOf(duration, programs, z, now, Bound(now, postponeUntil), cancelled)
    ensures IsBulkNextRun(duration, programs, z, now, postponeUntil, cancelled, best)
  {
    BulkNextRunMeans(duration, programs, z, now, postponeUntil, cancelled);
    best := None;
    var bound := if postponeUntil.Some? && postponeUntil.value > now then postponeUntil.value else now;
    ghost var offers := BulkCandidates(duration, programs, z, now, bound, cancelled);
    for n := 0 to |programs|
      invariant best == Best(offers, n)
    {
      var offer := OfferInBulk(duration, programs, n, z, now, bound, cancelled);
      best := KeepBest(best, offer, offers, n);
    }
  }

  // ---- reschedule_group_to_next_program ----

  class PlannedStarts {
    var scheduled: map<int, nat>   // scheduled_start_time, where it is not NULL

    constructor ()
      ensures scheduled == map[]
    {
      scheduled := map[];
    }

    /** Every zone of the group gets its next run or none; no other zone is touched. */
    method RescheduleGroup(group: seq<int>, duration: map<int, nat>, programs: seq<Program>, now: nat,
                           postponed: map<int, nat>)
      modifies this
      ensures forall z: int ::
        (if z in scheduled then Some(scheduled[z]) else None) ==
          if z in group then
            NextRunOf(duration, programs, z, Bound(now, if z in postponed then Some(postponed[z]) else None))
          else if z in old(scheduled) then Some(old(scheduled)[z]) else None
      ensures forall z | z in group ::
        IsNextRun(duration, programs, z, now, if z in postponed then Some(postponed[z]) else None,
                  if z in scheduled then Some(scheduled[z]) else None)
    {
      var schedule: map<int, nat> := map[];
      for k := 0 to |group|
        invariant schedule.Keys <= set z | z in group[..k]
        invariant forall z | z in group[..k] ::
          (if z in schedule then Some(schedule[z]) else None) ==
            NextRunOf(duration, programs, z, Bound(now, if z in postponed then Some(postponed[z]) else None))
        invariant forall z | z in group[..k] ::
          IsNextRun(duration, programs, z, now, if z in postponed then Some(postponed[z]) else None,
                    if z in schedule then Some(schedule[z]) else None)
        invariant scheduled == old(scheduled)
      {
        var z := group[k];
        assert group[..k + 1] == group[..k] + [z];
        var next := ComputeNextRunForZone(duration, programs, z, now, if z in postponed then Some(postponed[z]) else None);
        schedule := if next.Some? then schedule[z := next.value] else schedule;
      }
      assert group[..|group|] == group;
      scheduled := scheduled - set z | z in group;
      scheduled := scheduled + schedule;
    }
  }
}
