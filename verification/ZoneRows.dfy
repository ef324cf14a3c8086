/** Zone rows under the optimistic version lock (db/zones.py, update_zone_versioned). */
module ZoneRows {
  import opened Common

  datatype Row = Row(version: int, fields: map<string, string>)

  /** What a writer has read: the row as it was, which it will also report as `prev_zone`. */
  datatype Snapshot = Snapshot(zone: int, row: Row)

  /** A write that changed one row: what it set, the reported previous row and the row it left. */
  datatype Success = Success(zone: int, prev: Row, updates: map<string, string>, left: Row)

  datatype State = State(rows: map<int, Row>, snapshots: map<nat, Snapshot>, log: seq<Success>)

  datatype Action =
    | Read(writer: nat, zone: int)
    | Write(writer: nat, updates: map<string, string>)

  function Updated(row: Row, updates: map<string, string>): Row {
    Row(row.version + 1, row.fields + updates)
  }

  /** One write: the version goes up by one, the given fields have their new values, the others keep theirs. */
  ghost predicate Written(before: Row, updates: map<string, string>, after: Row) {
    && after.version == before.version + 1
    && (forall f | f in updates :: f in after.fields && after.fields[f] == updates[f])
    && (forall f | f !in updates :: f in after.fields <==> f in before.fields)
    && (forall f | f !in updates && f in before.fields :: after.fields[f] == before.fields[f])
  }

  /** `UPDATE ... WHERE id = ? AND version = ?` changes a row. */
  predicate Matches(rows: map<int, Row>, snap: Snapshot) {
    snap.zone in rows && rows[snap.zone].version == snap.row.version
  }

  function Next(s: State, a: Action): State {
    match a
    case Read(w, z) =>
      if z in s.rows then s.(snapshots := s.snapshots[w := Snapshot(z, s.rows[z])])
      else s.(snapshots := s.snapshots - {w})
    case Write(w, updates) =>
      if w !in s.snapshots then s
      else
        var snap := s.snapshots[w];
        var done := s.(snapshots := s.snapshots - {w});
        if Matches(s.rows, snap) then
          // the statement works on the row that is there, not on the snapshot
          var left := Updated(s.rows[snap.zone], updates);
          done.(rows := s.rows[snap.zone := left], log := s.log + [Success(snap.zone, snap.row, updates, left)])
        else done
  }

  function After(s: State, run: seq<Action>): State
    decreases run
  {
    if run == [] then s else After(Next(s, run[0]), run[1..])
  }

  /** The successful writes to one zone, oldest first. */
  function Writes(log: seq<Success>, z: int): (r: seq<Success>)
    ensures |r| <= |log|
  {
    if log == [] then []
    else
      var before, last := Writes(log[..|log| - 1], z), log[|log| - 1];
      if last.zone == z then before + [last] else before
  }

  lemma WritesAppend(log: seq<Success>, w: Success, z: int)
    ensures Writes(log + [w], z) == if w.zone == z then Writes(log, z) + [w] else Writes(log, z)
  {
    assert (log + [w])[..|log|] == log;
  }

  /** The writes form one chain from the first row to the present one, and the version counts them. */
  ghost predicate Chain(first: Row, writes: seq<Success>, now: Row) {
    && now.version == first.version + |writes|
    && now == (if writes == [] then first else writes[|writes| - 1].left)
    && (writes != [] ==> writes[0].prev == first)
    && (forall i, j | 0 <= i && j == i + 1 < |writes| :: writes[j].prev == writes[i].left)
    && (forall w | w in writes :: Written(w.prev, w.updates, w.left))
  }

  /** A snapshot is never ahead of its row, and one with the row's version is the row. */
  predicate SnapshotFits(rows: map<int, Row>, snap: Snapshot) {
    && snap.zone in rows && snap.row.version <= rows[snap.zone].version
    && (snap.row.version == rows[snap.zone].version ==> snap.row == rows[snap.zone])
  }

  ghost predicate Chained(first: map<int, Row>, s: State) {
    && s.rows.Keys == first.Keys
    && (forall z | z in first :: Chain(first[z], Writes(s.log, z), s.rows[z]))
    && (forall w | w in s.snapshots :: SnapshotFits(s.rows, s.snapshots[w]))
  }

  lemma ChainExtends(first: Row, writes: seq<Success>, now: Row, w: Success)
    requires Chain(first, writes, now) && w.prev == now && Written(now, w.updates, w.left)
    ensures Chain(first, writes + [w], w.left)
  {
    var all := writes + [w];
    forall i, j | 0 <= i && j == i + 1 < |all|
      ensures all[j].prev == all[i].left
    {
      if j < |writes| {
        assert writes[j].prev == writes[i].left;
      }
    }
  }

  lemma ActionKeepsChain(first: map<int, Row>, s: State, a: Action)
    requires Chained(first, s)
    ensures Chained(first, Next(s, a))
  {
    if a.Write? && a.writer in s.snapshots && Matches(s.rows, s.snapshots[a.writer]) {
      var snap := s.snapshots[a.writer];
      var left := Updated(s.rows[snap.zone], a.updates);
      forall z | z in first
        ensures Chain(first[z], Writes(Next(s, a).log, z), Next(s, a).rows[z])
      {
        var w := Success(snap.zone, snap.row, a.updates, left);
        WritesAppend(s.log, w, z);
        if z == snap.zone {
          ChainExtends(first[z], Writes(s.log, z), s.rows[z], w);
        }
      }
    }
  }

  /** In every interleaving of versioned writers, each successful write reports exactly the row that
      the previous one left, and a row's version is its first version plus its successful writes. */
  lemma {:induction false} VersionedWritesFormAChain(first: map<int, Row>, s: State, run: seq<Action>)
    requires Chained(first, s)
    ensures Chained(first, After(s, run))
    decreases run
  {
    if run != [] {
      ActionKeepsChain(first, s, run[0]);
      VersionedWritesFormAChain(first, Next(s, run[0]), run[1..]);
    }
  }

  /** No write from the i-th on sets the field. */
  ghost predicate NotSetFrom(writes: seq<Success>, i: nat, f: string) {
    forall j | i <= j < |writes| :: f !in writes[j].updates
  }

  /** The field holds what the last write that set it gave it, or what it held at first. */
  ghost predicate LastWriteStands(first: Row, writes: seq<Success>, now: Row, f: string) {
    && (NotSetFrom(writes, 0, f) ==> (f in now.fields <==> f in first.fields))
    && (NotSetFrom(writes, 0, f) && f in first.fields ==> now.fields[f] == first.fields[f])
    && (forall i | 0 <= i < |writes| && f in writes[i].updates && NotSetFrom(writes, i + 1, f) ::
          f in now.fields && now.fields[f] == writes[i].updates[f])
  }

  lemma OneMoreNotSet(writes: seq<Success>, last: Success, i: nat, f: string)
    requires i <= |writes|
    ensures NotSetFrom(writes + [last], i, f) <==> NotSetFrom(writes, i, f) && f !in last.updates
  {
    var all := writes + [last];
    assert all[|writes|] == last && forall j | 0 <= j < |writes| :: all[j] == writes[j];
  }

  lemma OneMoreWrite(first: Row, writes: seq<Success>, last: Success, f: string)
    requires LastWriteStands(first, writes, last.prev, f) && Written(last.prev, last.updates, last.left)
    ensures LastWriteStands(first, writes + [last], last.left, f)
  {
    var all := writes + [last];
    OneMoreNotSet(writes, last, 0, f);
    forall i | 0 <= i < |all| && f in all[i].updates && NotSetFrom(all, i + 1, f)
      ensures f in last.left.fields && last.left.fields[f] == all[i].updates[f]
    {
      if i < |writes| {
        OneMoreNotSet(writes, last, i + 1, f);
      }
    }
  }

  /** In a chain no update is lost. */
  lemma {:induction false} NoUpdateIsLost(first: Row, writes: seq<Success>, now: Row, f: string)
    requires Chain(first, writes, now)
    ensures LastWriteStands(first, writes, now, f)
    decreases |writes|
  {
    if writes != [] {
      var n := |writes| - 1;
      var before, last := writes[..n], writes[n];
      assert writes == before + [last] && last in writes;
      NoUpdateIsLost(first, before, last.prev, f);
      OneMoreWrite(first, before, last, f);
    }
  }

  lemma FreshTableIsChained(rows: map<int, Row>)
    ensures Chained(rows, State(rows, map[], []))
  {
    assert forall z :: Writes([], z) == [];
  }

  /** Of two writers that read the same row at the same time only the first succeeds. */
  lemma SecondWriterLoses(s: State, z: int, v: nat, w: nat, a: map<string, string>, b: map<string, string>)
    requires z in s.rows && v != w
    ensures var t := After(s, [Read(v, z), Read(w, z), Write(v, a), Write(w, b)]);
            t.rows == s.rows[z := Updated(s.rows[z], a)]
  {
    var s1 := Next(s, Read(v, z));
    var s2 := Next(s1, Read(w, z));
    var s3 := Next(s2, Write(v, a));
    var s4 := Next(s3, Write(w, b));
    var run := [Read(v, z), Read(w, z), Write(v, a), Write(w, b)];
    assert run[1..] == [Read(w, z), Write(v, a), Write(w, b)];
    assert run[1..][1..] == [Write(v, a), Write(w, b)];
    assert run[1..][1..][1..] == [Write(w, b)];
    assert run[1..][1..][1..][1..] == [];
    assert After(s4, []) == s4 && After(s3, run[1..][1..][1..]) == s4 && After(s2, run[1..][1..]) == s4;
  }

  class ZoneTable {
    var rows: map<int, Row>

    constructor (rows: map<int, Row>)
      ensures this.rows == rows
    {
      this.rows := rows;
    }

    /** The guarded UPDATE: exactly the row that still has the snapshot's version changes. */
    method GuardedUpdate(snap: Snapshot, updates: map<string, string>) returns (ok: bool)
      modifies this
      ensures ok <==> snap.zone in old(rows) && old(rows)[snap.zone].version == snap.row.version
      ensures !ok ==> rows == old(rows)
      ensures ok ==> snap.zone in rows && rows == old(rows)[snap.zone := rows[snap.zone]]
      ensures ok ==> Written(old(rows)[snap.zone], updates, rows[snap.zone])
      ensures rows == if ok then old(rows)[snap.zone := Updated(old(rows)[snap.zone], updates)] else old(rows)
    {
      ok := snap.zone in rows && rows[snap.zone].version == snap.row.version;
      if ok {
        var row := rows[snap.zone];
        rows := rows[snap.zone := Row(row.version + 1, row.fields + updates)];
      }
    }

    /** Read and write inside one BEGIN IMMEDIATE transaction: it fails only for a missing zone. */
    method UpdateZoneVersioned(z: int, updates: map<string, string>) returns (ok: bool, prev: Option<Row>)
      modifies this
      ensures ok <==> z in old(rows)
      ensures prev == if ok then Some(old(rows)[z]) else None
      ensures rows == if ok then old(rows)[z := Updated(old(rows)[z], updates)] else old(rows)
      ensures ok ==> Written(old(rows)[z], updates, rows[z])
    {
      if z !in rows {
        return false, None;
      }
      prev := Some(rows[z]);
      ok := GuardedUpdate(Snapshot(z, prev.value), updates);
    }
  }
}
