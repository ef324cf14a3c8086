/** The watering history (db/zones.py, zone_runs; services/app_init.py, boot clean-up). */
module ZoneRuns {
  import opened Common

  datatype Status = Unset | Succeeded | Failed | Aborted | Other

  /** A zone_runs row; `end` is a time in seconds, standing for the sortable text the table holds. */
  datatype Run = Run(zone: int, end: Option<int>, status: Status, confirmed: bool)

  datatype Action =
    | Create(zone: int)
    | Confirm(zone: int)
    | Finish(id: nat, end: int, status: Status)
    | BootAbort

  function Opened(zone: int): Run {
    Run(zone, None, Unset, false)
  }

  function Confirmed(r: Run, zone: int): Run {
    if r.zone == zone && r.end.None? then r.(confirmed := true) else r
  }

  function Finished(r: Run, end: int, status: Status): Run {
    r.(end := Some(end), status := if status == Succeeded && !r.confirmed then Failed else status)
  }

  function AbortedIfOpen(r: Run): Run {
    if r.end.None? && r.status == Unset then r.(status := Aborted) else r
  }

  function Next(runs: seq<Run>, a: Action): seq<Run> {
    match a
    case Create(z) => runs + [Opened(z)]
    case Confirm(z) => seq(|runs|, i requires 0 <= i < |runs| => Confirmed(runs[i], z))
    case Finish(id, end, status) => if id < |runs| then runs[id := Finished(runs[id], end, status)] else runs
    case BootAbort => seq(|runs|, i requires 0 <= i < |runs| => AbortedIfOpen(runs[i]))
  }

  function After(acts: seq<Action>, n: nat): seq<Run>
    requires n <= |acts|
  {
    if n == 0 then [] else Next(After(acts, n - 1), acts[n - 1])
  }

  // ---- History truth ----

  lemma {:induction false} RunsAreKept(acts: seq<Action>, m: nat, n: nat)
    requires m <= n <= |acts|
    ensures |After(acts, m)| <= |After(acts, n)|
    ensures forall i | 0 <= i < |After(acts, m)| ::
      && After(acts, n)[i].zone == After(acts, m)[i].zone
      && (After(acts, m)[i].confirmed ==> After(acts, n)[i].confirmed)
      && (After(acts, m)[i].end.Some? ==> After(acts, n)[i].end.Some?)
    decreases n
  {
    if m < n {
      RunsAreKept(acts, m, n - 1);
    }
  }

  /** A run that counts as successful has ended and was confirmed. */
  lemma {:induction false} SuccessIsTrue(acts: seq<Action>, n: nat)
    requires n <= |acts|
    ensures forall i | 0 <= i < |After(acts, n)| && After(acts, n)[i].status == Succeeded ::
      After(acts, n)[i].confirmed && After(acts, n)[i].end.Some?
  {
    if n > 0 {
      SuccessIsTrue(acts, n - 1);
    }
  }

  /** A confirmed run goes back to a confirmation that came for its zone while the run was open. */
  lemma {:induction false} ConfirmationHappened(acts: seq<Action>, n: nat, i: nat) returns (j: nat)
    requires n <= |acts| && i < |After(acts, n)| && After(acts, n)[i].confirmed
    ensures j < n && i < |After(acts, j)| && After(acts, j)[i].end.None?
    ensures acts[j] == Confirm(After(acts, n)[i].zone)
  {
    RunsAreKept(acts, n - 1, n);
    if i < |After(acts, n - 1)| && After(acts, n - 1)[i].confirmed {
      j := ConfirmationHappened(acts, n - 1, i);
    } else {
      j := n - 1;
    }
  }

  /** Action j confirms the zone while run i of it is open. */
  ghost predicate ConfirmsOpen(acts: seq<Action>, j: nat, i: nat, zone: int)
    requires j < |acts|
  {
    acts[j] == Confirm(zone) && i < |After(acts, j)| && After(acts, j)[i].zone == zone && After(acts, j)[i].end.None?
  }

  /** It is confirmed exactly if there was one. */
  lemma ConfirmedIff(acts: seq<Action>, n: nat, i: nat)
    requires n <= |acts| && i < |After(acts, n)|
    ensures After(acts, n)[i].confirmed <==>
            exists j :: 0 <= j < n && ConfirmsOpen(acts, j, i, After(acts, n)[i].zone)
  {
    if After(acts, n)[i].confirmed {
      var j := ConfirmationHappened(acts, n, i);
      RunsAreKept(acts, j, n);
      assert ConfirmsOpen(acts, j, i, After(acts, n)[i].zone);
    } else if exists j :: 0 <= j < n && ConfirmsOpen(acts, j, i, After(acts, n)[i].zone) {
      var j :| 0 <= j < n && ConfirmsOpen(acts, j, i, After(acts, n)[i].zone);
      RunsAreKept(acts, j, n);
      RunsAreKept(acts, j + 1, n);
      assert After(acts, j + 1)[i].confirmed;
    }
  }

  /** Action j is the last one up to n that finishes run i. */
  ghost predicate LastFinish(acts: seq<Action>, j: nat, n: nat, i: nat)
    requires n <= |acts|
  {
    && j < n && acts[j].Finish? && acts[j].id == i < |After(acts, j)|
    && forall m | j < m < n && acts[m].Finish? :: acts[m].id != i
  }

  /** A finished run is on record as ok exactly if it was last finished as ok and was confirmed by then, and
      with the end it was finished with; later confirmations and boots change neither. */
  lemma {:induction false} FinishedIsOkIff(acts: seq<Action>, j: nat, n: nat, i: nat)
    requires n <= |acts| && LastFinish(acts, j, n, i)
    ensures i < |After(acts, n)| && After(acts, n)[i].end == Some(acts[j].end)
    ensures After(acts, n)[i].status == Succeeded <==> acts[j].status == Succeeded && After(acts, j)[i].confirmed
    decreases n
  {
    if j < n - 1 {
      FinishedIsOkIff(acts, j, n - 1, i);
    }
  }

  /** So history never claims a watering that the relay did not confirm during that very run. */
  lemma NoUnconfirmedSuccess(acts: seq<Action>, i: nat) returns (j: nat)
    requires i < |After(acts, |acts|)| && After(acts, |acts|)[i].status == Succeeded
    ensures After(acts, |acts|)[i].end.Some?
    ensures j < |acts| && acts[j] == Confirm(After(acts, |acts|)[i].zone)
    ensures i < |After(acts, j)| && After(acts, j)[i].end.None?
  {
    SuccessIsTrue(acts, |acts|);
    j := ConfirmationHappened(acts, |acts|, i);
  }

  // ---- The open run ----

  /** The newest row of the zone without an end time. */
  function OpenRun(runs: seq<Run>, zone: int): Option<nat> {
    if runs == [] then None
    else
      var last := |runs| - 1;
      if runs[last].zone == zone && runs[last].end.None? then Some(last) else OpenRun(runs[..last], zone)
  }

  lemma {:induction false} OpenRunIsNewest(runs: seq<Run>, zone: int)
    ensures match OpenRun(runs, zone)
            case None => forall i | 0 <= i < |runs| :: runs[i].zone == zone ==> runs[i].end.Some?
            case Some(k) =>
              && k < |runs| && runs[k].zone == zone && runs[k].end.None?
              && forall i | k < i < |runs| :: runs[i].zone == zone ==> runs[i].end.Some?
    decreases |runs|
  {
    if runs != [] {
      OpenRunIsNewest(runs[..|runs| - 1], zone);
    }
  }

  /** The boot clean-up only relabels: the rows it aborts stay open, and the zone's open run is the same
      row as before, contrary to what the comment beside it says. */
  lemma {:induction false} BootAbortLeavesRunsOpen(runs: seq<Run>, zone: int)
    ensures OpenRun(Next(runs, BootAbort), zone) == OpenRun(runs, zone)
    decreases |runs|
  {
    if runs != [] {
      var last := |runs| - 1;
      BootAbortLeavesRunsOpen(runs[..last], zone);
      assert Next(runs, BootAbort)[..last] == Next(runs[..last], BootAbort);
    }
  }

  // ---- Last watering ----

  predicate Counts(r: Run, zone: int) {
    r.zone == zone && r.status == Succeeded && r.end.Some?
  }

  function Later(a: Option<int>, b: int): Option<int> {
    if a.Some? && a.value >= b then a else Some(b)
  }

  /** MAX(end_utc) over the first n rows that count for the zone. */
  function LastWatering(runs: seq<Run>, zone: int, n: nat): Option<int>
    requires n <= |runs|
  {
    if n == 0 then None
    else
      var before := LastWatering(runs, zone, n - 1);
      if Counts(runs[n - 1], zone) then Later(before, runs[n - 1].end.value) else before
  }

  lemma {:induction false} LastWateringIsMaximum(runs: seq<Run>, zone: int, n: nat)
    requires n <= |runs|
    ensures match LastWatering(runs, zone, n)
            case None => forall i | 0 <= i < n :: !Counts(runs[i], zone)
            case Some(t) =>
              && (exists i :: 0 <= i < n && Counts(runs[i], zone) && runs[i].end.value == t)
              && (forall i | 0 <= i < n && Counts(runs[i], zone) :: runs[i].end.value <= t)
  {
    if n > 0 {
      LastWateringIsMaximum(runs, zone, n - 1);
    }
  }

  /** The greatest end among the zone's ok rows that have one, and none if there is no such row. */
  ghost predicate IsLastWatering(runs: seq<Run>, zone: int, last: Option<int>) {
    && (last.Some? ==> exists r | r in runs :: r.zone == zone && r.status == Succeeded && r.end == last)
    && (forall r | r in runs && r.zone == zone && r.status == Succeeded && r.end.Some? ::
          last.Some? && r.end.value <= last.value)
  }

  lemma LastWateringMeans(runs: seq<Run>, zone: int)
    ensures IsLastWatering(runs, zone, LastWatering(runs, zone, |runs|))
  {
    LastWateringIsMaximum(runs, zone, |runs|);
    forall r | r in runs && r.zone == zone && r.status == Succeeded && r.end.Some?
      ensures LastWatering(runs, zone, |runs|).Some? && r.end.value <= LastWatering(runs, zone, |runs|).value
    {
      var i :| 0 <= i < |runs| && runs[i] == r;
      assert Counts(runs[i], zone);
    }
  }

  class ZoneRunTable {
    var runs: seq<Run>

    constructor ()
      ensures runs == []
    {
      runs := [];
    }

    method CreateZoneRun(zone: int) returns (id: nat)
      modifies this
      ensures runs == Next(old(runs), Create(zone)) && id == |old(runs)|
      ensures runs == old(runs) + [Run(zone, None, Unset, false)]
    {
      id := |runs|;
      runs := runs + [Run(zone, None, Unset, false)];
    }

    method MarkZoneRunConfirmed(zone: int)
      modifies this
      ensures runs == Next(old(runs), Confirm(zone))
      ensures |runs| == |old(runs)| && forall i | 0 <= i < |runs| ::
                runs[i] == if old(runs)[i].zone == zone && old(runs)[i].end.None? then old(runs)[i].(confirmed := true)
                           else old(runs)[i]
    {
      var i := 0;
      while i < |runs|
        invariant 0 <= i <= |runs| == |old(runs)|
        invariant forall j | 0 <= j < i :: runs[j] == Confirmed(old(runs)[j], zone)
        invariant forall j | i <= j < |runs| :: runs[j] == old(runs)[j]
      {
        if runs[i].zone == zone && runs[i].end == None {
          runs := runs[i := runs[i].(confirmed := true)];
        }
        i := i + 1;
      }
    }

    method FinishZoneRun(id: nat, end: int, status: Status)
      modifies this
      ensures runs == Next(old(runs), Finish(id, end, status))
      ensures id < |old(runs)| && (old(runs)[id].confirmed || status != Succeeded) ==>
                runs == old(runs)[id := old(runs)[id].(end := Some(end), status := status)]
      ensures id < |old(runs)| && !old(runs)[id].confirmed && status == Succeeded ==>
                runs == old(runs)[id := old(runs)[id].(end := Some(end), status := Failed)]
      ensures id >= |old(runs)| ==> runs == old(runs)
    {
      var final := status;
      if status == Succeeded && id < |runs| && !runs[id].confirmed {
        final := Failed;
      }
      if id < |runs| {
        runs := runs[id := runs[id].(end := Some(end), status := final)];
      }
    }

    method AbortOpenRuns()
      modifies this
      ensures runs == Next(old(runs), BootAbort)
      ensures |runs| == |old(runs)| && forall i | 0 <= i < |runs| ::
                runs[i] == if old(runs)[i].end.None? && old(runs)[i].status == Unset then old(runs)[i].(status := Aborted)
                           else old(runs)[i]
    {
      var i := 0;
      while i < |runs|
        invariant 0 <= i <= |runs| == |old(runs)|
        invariant forall j | 0 <= j < i :: runs[j] == AbortedIfOpen(old(runs)[j])
        invariant forall j | i <= j < |runs| :: runs[j] == old(runs)[j]
      {
        if runs[i].end == None && runs[i].status == Unset {
          runs := runs[i := runs[i].(status := Aborted)];
        }
        i := i + 1;
      }
    }

    method GetOpenZoneRun(zone: int) returns (id: Option<nat>)
      ensures id == OpenRun(runs, zone)
      ensures id.Some? ==> id.value < |runs| && runs[id.value].zone == zone && runs[id.value].end.None?
      ensures forall i | 0 <= i < |runs| && runs[i].zone == zone && runs[i].end.None? :: id.Some? && i <= id.value
    {
      OpenRunIsNewest(runs, zone);
      var i := |runs|;
      assert runs[..i] == runs;
      while i > 0
        invariant 0 <= i <= |runs|
        invariant OpenRun(runs[..i], zone) == OpenRun(runs, zone)
      {
        i := i - 1;
        assert runs[..i + 1][..i] == runs[..i];
        if runs[i].zone == zone && runs[i].end == None {
          return Some(i);
        }
      }
      return None;
    }

    method GetLastWateringTime(zone: int) returns (last: Option<int>)
      ensures last == LastWatering(runs, zone, |runs|)
      ensures IsLastWatering(runs, zone, last)
    {
      LastWateringMeans(runs, zone);
      last := None;
      for i := 0 to |runs|
        invariant last == LastWatering(runs, zone, i)
      {
        if runs[i].zone == zone && runs[i].status == Succeeded && runs[i].end != None {
          if last == None || last.value < runs[i].end.value {
            last := runs[i].end;
          }
        }
      }
    }

    /** The one grouped query of get_zones: for every zone what GetLastWateringTime would answer. */
    method LastMap() returns (last: map<int, int>)
      ensures forall z: int :: (if z in last then Some(last[z]) else None) == LastWatering(runs, z, |runs|)
      ensures forall z: int :: IsLastWatering(runs, z, if z in last then Some(last[z]) else None)
    {
      forall z: int
        ensures IsLastWatering(runs, z, LastWatering(runs, z, |runs|))
      {
        LastWateringMeans(runs, z);
      }
      last := map[];
      for i := 0 to |runs|
        invariant forall z: int :: (if z in last then Some(last[z]) else None) == LastWatering(runs, z, i)
      {
        var r := runs[i];
        if r.status == Succeeded && r.end != None {
          if r.zone !in last || last[r.zone] < r.end.value {
            last := last[r.zone := r.end.value];
          }
        }
      }
    }
  }
}
