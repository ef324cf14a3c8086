/** Schema migrations that may be cut off between any two statements (db/migrations.py).

    The connection opens a transaction before an INSERT or UPDATE; any other statement takes effect at
    once unless a transaction is open. A crash loses what has not been committed. */
module Migrations {
  import opened Common
  import Restarts

  /** A table under its own name, or the copy that a rebuild makes of it. */
  datatype TableName = Main(name: Text) | Copy(name: Text)

  type Row = map<Text, Text>

  datatype Table = Table(columns: seq<Text>, rows: seq<Row>)

  /** The stored day list of a program, where it can be read. */
  datatype Days = Unreadable | List(days: seq<int>)

  datatype Database = Database(tables: map<TableName, Table>, days: seq<Days>, recorded: set<Text>)

  datatype Column = Column(name: Text, default: Text)

  datatype Migration =
    | BaseTable(table: Text, columns: seq<Text>)                        // CREATE TABLE IF NOT EXISTS, at every start
    | NewTable(name: Text, table: Text, columns: seq<Text>)             // CREATE TABLE IF NOT EXISTS, recorded
    | AddColumns(name: Text, table: Text, added: seq<Column>)           // guarded by table_info
    | DropColumns(name: Text, table: Text, dropped: set<Text>)        // by rebuilding the table
    | DaysFormat(name: Text)

  datatype Statement =
    | AddColumn(table: Text, column: Column)
    | DropIfExists(t: TableName)
    | CreateTable(t: TableName, columns: seq<Text>)
    | CopyRows(from: TableName, to: TableName)
    | RenameTable(from: TableName, to: TableName)
    | SetDays(i: nat, days: Days)
    | Record(name: Text)
    | Commit

  // ---- Statements ----

  predicate OpensTransaction(s: Statement) {
    s.CopyRows? || s.SetDays? || s.Record?
  }

  function Only(r: Row, columns: seq<Text>): Row {
    map c | c in r && c in columns :: r[c]
  }

  function AllOnly(rows: seq<Row>, columns: seq<Text>): (r: seq<Row>)
    ensures |r| == |rows|
  {
    seq(|rows|, i requires 0 <= i < |rows| => Only(rows[i], columns))
  }

  function Extended(t: Table, c: Column): Table {
    if c.name in t.columns then t
    else Table(t.columns + [c.name], seq(|t.rows|, i requires 0 <= i < |t.rows| => t.rows[i][c.name := c.default]))
  }

  /** What a statement does to the data; one that SQLite would refuse changes nothing. */
  function Apply(s: Statement, db: Database): Database {
    match s
    case AddColumn(t, c) =>
      if Main(t) in db.tables then db.(tables := db.tables[Main(t) := Extended(db.tables[Main(t)], c)]) else db
    case DropIfExists(t) => db.(tables := db.tables - {t})
    case CreateTable(t, columns) => if t in db.tables then db else db.(tables := db.tables[t := Table(columns, [])])
    case CopyRows(from, to) =>
      if from in db.tables && to in db.tables then
        var copy := db.tables[to];
        db.(tables := db.tables[to := copy.(rows := copy.rows + AllOnly(db.tables[from].rows, copy.columns))])
      else db
    case RenameTable(from, to) =>
      if from in db.tables && to !in db.tables then db.(tables := (db.tables - {from})[to := db.tables[from]]) else db
    case SetDays(i, days) => if i < |db.days| then db.(days := db.days[i := days]) else db
    case Record(name) => db.(recorded := db.recorded + {name})
    case Commit => db
  }

  /** A connection: what is safe on disk, what it sees itself, and whether a transaction is open. */
  datatype Session = Session(durable: Database, seen: Database, open: bool)

  function Fresh(db: Database): Session {
    Session(db, db, false)
  }

  function Execute(s: Statement, c: Session): Session {
    var seen := Apply(s, c.seen);
    var open := (c.open || OpensTransaction(s)) && !s.Commit?;
    Session(if open then c.durable else seen, seen, open)
  }

  function ExecuteAll(plan: seq<Statement>, k: nat, c: Session): Session
    requires k <= |plan|
  {
    if k == 0 then c else Execute(plan[k - 1], ExecuteAll(plan, k - 1, c))
  }

  /** What is on disk if the process stops after k statements. */
  function DiskAfter(plan: seq<Statement>, k: nat, db: Database): Database
    requires k <= |plan|
  {
    ExecuteAll(plan, k, Fresh(db)).durable
  }

  // ---- Migrations ----

  /** The columns that the guard finds missing. */
  function Missing(added: seq<Column>, present: seq<Text>): seq<Column> {
    if added == [] then []
    else if added[0].name in present then Missing(added[1..], present)
    else [added[0]] + Missing(added[1..], present)
  }

  function AddPlan(table: Text, missing: seq<Column>): (plan: seq<Statement>)
    ensures |plan| == |missing|
  {
    seq(|missing|, i requires 0 <= i < |missing| => AddColumn(table, missing[i]))
  }

  function Kept(columns: seq<Text>, dropped: set<Text>): (kept: seq<Text>)
    ensures forall c :: c in kept <==> c in columns && c !in dropped
  {
    if columns == [] then []
    else
      var rest := Kept(columns[1..], dropped);
      assert columns == [columns[0]] + columns[1..];
      if columns[0] in dropped then rest else [columns[0]] + rest
  }

  predicate NeedsShift(d: Days) {
    d.List? && exists x | x in d.days :: x < 0 || x > 6
  }

  function Clamp(d: int): (r: int)
    ensures 0 <= r <= 6
  {
    if d - 1 < 0 then 0 else if d - 1 > 6 then 6 else d - 1
  }

  /** The distinct weekdays 0..6 that occur in the list, in order, from w on. */
  function SortedSet(days: seq<int>, w: nat): (r: seq<int>)
    requires w <= 7
    ensures forall d :: d in r <==> w <= d <= 6 && d in days
    decreases 7 - w
  {
    if w == 7 then [] else if w in days then [w] + SortedSet(days, w + 1) else SortedSet(days, w + 1)
  }

  function Shifted(d: Days): Days {
    if NeedsShift(d) then List(SortedSet(seq(|d.days|, i requires 0 <= i < |d.days| => Clamp(d.days[i])), 0)) else d
  }

  /** One UPDATE per program that needs it, from row i on. */
  function DaysPlan(days: seq<Days>, i: nat): seq<Statement>
    requires i <= |days|
    decreases |days| - i
  {
    if i == |days| then []
    else (if NeedsShift(days[i]) then [SetDays(i, Shifted(days[i]))] else []) + DaysPlan(days, i + 1)
  }

  /** The statements that a migration decides on when it looks at the database. */
  function Plan(m: Migration, db: Database): seq<Statement> {
    match m
    case BaseTable(t, columns) => [CreateTable(Main(t), columns)]
    case NewTable(_, t, columns) => [CreateTable(Main(t), columns), Commit]
    case AddColumns(_, t, added) =>
      if Main(t) in db.tables then AddPlan(t, Missing(added, db.tables[Main(t)].columns)) + [Commit] else []
    case DropColumns(_, t, dropped) =>
      if Main(t) !in db.tables || Kept(db.tables[Main(t)].columns, dropped) == db.tables[Main(t)].columns
         || Kept(db.tables[Main(t)].columns, dropped) == [] then []
      else
        [DropIfExists(Copy(t)), CreateTable(Copy(t), Kept(db.tables[Main(t)].columns, dropped)),
         CopyRows(Main(t), Copy(t)), DropIfExists(Main(t)), RenameTable(Copy(t), Main(t)), Commit]
    case DaysFormat(_) => DaysPlan(db.days, 0) + [Commit]
  }

  /** Nothing to do: the table exists, or the migration is on record. */
  predicate Done(m: Migration, db: Database) {
    if m.BaseTable? then Main(m.table) in db.tables else m.name in db.recorded
  }

  /** A plan with the record that closes it, and its commit. */
  function Closed(plan: seq<Statement>, name: Text): seq<Statement> {
    plan + [Record(name), Commit]
  }

  /** Everything one migration runs, with the record that closes it. */
  function Steps(m: Migration, db: Database): seq<Statement> {
    if Done(m, db) then []
    else if m.BaseTable? then Plan(m, db)
    else Closed(Plan(m, db), m.name)
  }

  function Migrated(m: Migration, db: Database): Database {
    DiskAfter(Steps(m, db), |Steps(m, db)|, db)
  }

  predicate Distinct(cs: seq<Column>) {
    forall i, j | 0 <= i < j < |cs| :: cs[i].name != cs[j].name
  }

  predicate WellFormed(m: Migration) {
    m.AddColumns? ==> Distinct(m.added)
  }

  // ---- Running a plan ----

  lemma {:induction false} ExecuteConcat(a: seq<Statement>, b: seq<Statement>, k: nat, c: Session)
    requires k <= |a| + |b|
    ensures ExecuteAll(a + b, k, c) ==
            if k <= |a| then ExecuteAll(a, k, c) else ExecuteAll(b, k - |a|, ExecuteAll(a, |a|, c))
  {
    if k > 0 {
      ExecuteConcat(a, b, k - 1, c);
    }
  }

  // ---- Adding columns ----

  function ExtendedBy(t: Table, cs: seq<Column>, k: nat): Table
    requires k <= |cs|
  {
    if k == 0 then t else Extended(ExtendedBy(t, cs, k - 1), cs[k - 1])
  }

  lemma {:induction false} AddPlanOnDisk(db: Database, t: Text, cs: seq<Column>, k: nat)
    requires k <= |cs| && Main(t) in db.tables
    ensures ExecuteAll(AddPlan(t, cs), k, Fresh(db)) ==
            Fresh(db.(tables := db.tables[Main(t) := ExtendedBy(db.tables[Main(t)], cs, k)]))
  {
    if k == 0 {
      assert db.tables[Main(t) := db.tables[Main(t)]] == db.tables;
    } else {
      AddPlanOnDisk(db, t, cs, k - 1);
    }
  }

  lemma TailIsDistinct(added: seq<Column>)
    requires added != [] && Distinct(added)
    ensures Distinct(added[1..]) && forall c | c in added[1..] :: c.name != added[0].name
  {
    assert forall i | 0 <= i < |added[1..]| :: added[1..][i] == added[i + 1];
    forall i, j | 0 <= i < j < |added[1..]|
      ensures added[1..][i].name != added[1..][j].name
    {
      assert added[i + 1].name != added[j + 1].name;
    }
  }

  lemma {:induction false} MissingAreNew(added: seq<Column>, present: seq<Text>)
    requires Distinct(added)
    ensures Distinct(Missing(added, present))
    ensures forall c | c in Missing(added, present) :: c in added && c.name !in present
  {
    if added != [] {
      TailIsDistinct(added);
      MissingAreNew(added[1..], present);
      assert added == [added[0]] + added[1..];
    }
  }

  function Names(cs: seq<Column>): (r: seq<Text>)
    ensures |r| == |cs|
  {
    seq(|cs|, i requires 0 <= i < |cs| => cs[i].name)
  }

  lemma {:induction false} ExtendedColumns(t: Table, cs: seq<Column>, k: nat)
    requires k <= |cs| && Distinct(cs) && forall c | c in cs :: c.name !in t.columns
    ensures ExtendedBy(t, cs, k).columns == t.columns + Names(cs[..k])
  {
    if k == 0 {
      assert t.columns + [] == t.columns;
    } else {
      ExtendedColumns(t, cs, k - 1);
      assert cs[..k] == cs[..k - 1] + [cs[k - 1]];
      assert Names(cs[..k]) == Names(cs[..k - 1]) + [cs[k - 1].name];
      assert cs[k - 1] in cs;
      assert cs[k - 1].name !in Names(cs[..k - 1]);
    }
  }

  /** The first k of a list with one column more in front. */
  lemma OneMoreInFront(first: Column, rest: seq<Column>, present: seq<Text>, k: nat)
    requires 0 < k <= |rest| + 1
    ensures var ms := [first] + rest;
      && present + Names(ms[..k]) == present + [first.name] + Names(rest[..k - 1])
      && ms[k..] == rest[k - 1..]
  {
    assert ([first] + rest)[..k] == [first] + rest[..k - 1];
  }

  lemma {:induction false} MissingIgnores(added: seq<Column>, present: seq<Text>, name: Text)
    requires forall c | c in added :: c.name != name
    ensures Missing(added, present + [name]) == Missing(added, present)
  {
    if added != [] {
      MissingIgnores(added[1..], present, name);
    }
  }

  /** After some of the missing columns have been added, the rest of them is what is missing. */
  lemma {:induction false} MissingAfterSome(added: seq<Column>, present: seq<Text>, k: nat)
    requires Distinct(added) && k <= |Missing(added, present)|
    ensures Missing(added, present + Names(Missing(added, present)[..k])) == Missing(added, present)[k..]
  {
    var ms := Missing(added, present);
    if k == 0 {
      assert present + Names(ms[..0]) == present;
    } else {
      TailIsDistinct(added);
      var rest := Missing(added[1..], present);
      if added[0].name in present {
        MissingAfterSome(added[1..], present, k);
        assert ms == rest;
      } else {
        assert ms == [added[0]] + rest;
        MissingIgnores(added[1..], present, added[0].name);
        MissingAfterSome(added[1..], present + [added[0].name], k - 1);
        OneMoreInFront(added[0], rest, present, k);
      }
    }
  }

  lemma {:induction false} ExtendInTwoGoes(t: Table, cs: seq<Column>, k: nat, j: nat)
    requires k <= |cs| && j <= |cs| - k
    ensures ExtendedBy(ExtendedBy(t, cs, k), cs[k..], j) == ExtendedBy(t, cs, k + j)
  {
    if j > 0 {
      ExtendInTwoGoes(t, cs, k, j - 1);
    }
  }

  // ---- One migration, cut off and run again ----

  /** The effect of a complete plan. */
  function Effect(m: Migration, db: Database): Database {
    DiskAfter(Plan(m, db), |Plan(m, db)|, db)
  }

  /** A complete plan leaves no transaction open. */
  ghost predicate Closes(plan: seq<Statement>, db: Database) {
    ExecuteAll(plan, |plan|, Fresh(db)) == Fresh(DiskAfter(plan, |plan|, db))
  }

  /** Whatever is on disk when the plan is cut off, it has the same record, keeps the tables, and the
      migration run again on it comes out as it would have. */
  ghost predicate Resumes(m: Migration, db: Database, disk: Database) {
    && disk.recorded == db.recorded
    && (forall t | Main(t) in db.tables :: Main(t) in disk.tables)
    && Effect(m, disk) == Effect(m, db)
  }

  lemma NewTableRuns(m: Migration, db: Database, k: nat)
    requires m.NewTable? && k <= 2
    ensures ExecuteAll(Plan(m, db), k, Fresh(db)) ==
            Fresh(if k == 0 then db else Apply(CreateTable(Main(m.table), m.columns), db))
  {
    var plan := Plan(m, db);
    assert ExecuteAll(plan, 0, Fresh(db)) == Fresh(db);
    assert ExecuteAll(plan, 1, Fresh(db)) == Execute(plan[0], Fresh(db));
    assert ExecuteAll(plan, 2, Fresh(db)) == Execute(plan[1], Execute(plan[0], Fresh(db)));
  }

  /** A table is created at once and never a second time. */
  lemma NewTableResumes(m: Migration, db: Database, k: nat)
    requires m.NewTable? && k <= |Plan(m, db)|
    ensures Resumes(m, db, DiskAfter(Plan(m, db), k, db)) && Closes(Plan(m, db), db)
  {
    NewTableRuns(m, db, k);
    NewTableRuns(m, db, 2);
    NewTableRuns(m, DiskAfter(Plan(m, db), k, db), 2);
  }

  lemma RestIsMissing(added: seq<Column>, t: Table, n: nat)
    requires Distinct(added) && n <= |Missing(added, t.columns)|
    ensures var ms := Missing(added, t.columns);
            Missing(added, ExtendedBy(t, ms, n).columns) == ms[n..]
  {
    MissingAreNew(added, t.columns);
    ExtendedColumns(t, Missing(added, t.columns), n);
    MissingAfterSome(added, t.columns, n);
  }

  lemma RestCompletes(added: seq<Column>, t: Table, n: nat)
    requires Distinct(added) && n <= |Missing(added, t.columns)|
    ensures var ms := Missing(added, t.columns);
            var rest := Missing(added, ExtendedBy(t, ms, n).columns);
            ExtendedBy(ExtendedBy(t, ms, n), rest, |rest|) == ExtendedBy(t, ms, |ms|)
  {
    var ms := Missing(added, t.columns);
    RestIsMissing(added, t, n);
    ExtendInTwoGoes(t, ms, n, |ms| - n);
  }

  function WithTable(db: Database, name: Text, t: Table): Database {
    db.(tables := db.tables[Main(name) := t])
  }

  lemma WithTableTwice(db: Database, name: Text, a: Table, b: Table)
    ensures WithTable(WithTable(db, name, a), name, b) == WithTable(db, name, b)
  {
  }

  lemma AddColumnsEffect(m: Migration, db: Database, k: nat)
    requires m.AddColumns? && Main(m.table) in db.tables && k <= |Plan(m, db)|
    ensures var ms := Missing(m.added, db.tables[Main(m.table)].columns);
      ExecuteAll(Plan(m, db), k, Fresh(db)) ==
        Fresh(WithTable(db, m.table, ExtendedBy(db.tables[Main(m.table)], ms, if k <= |ms| then k else |ms|)))
  {
    var ms := Missing(m.added, db.tables[Main(m.table)].columns);
    var plan := AddPlan(m.table, ms);
    ExecuteConcat(plan, [Commit], k, Fresh(db));
    AddPlanOnDisk(db, m.table, ms, if k <= |ms| then k else |ms|);
    if k == |ms| + 1 {
      var c := ExecuteAll(plan, |ms|, Fresh(db));
      assert ExecuteAll([Commit], 0, c) == c && ExecuteAll([Commit], 1, c) == Execute(Commit, c);
    }
  }

  lemma AddColumnsComplete(m: Migration, db: Database)
    requires m.AddColumns? && Main(m.table) in db.tables
    ensures var t := db.tables[Main(m.table)];
            var ms := Missing(m.added, t.columns);
            Effect(m, db) == WithTable(db, m.table, ExtendedBy(t, ms, |ms|))
  {
    AddColumnsEffect(m, db, |Plan(m, db)|);
  }

  /** Adding the missing columns to a table that has got the first n of them already. */
  lemma AddColumnsAgain(m: Migration, db: Database, n: nat)
    requires m.AddColumns? && WellFormed(m) && Main(m.table) in db.tables
    requires n <= |Missing(m.added, db.tables[Main(m.table)].columns)|
    ensures var t := db.tables[Main(m.table)];
            Effect(m, WithTable(db, m.table, ExtendedBy(t, Missing(m.added, t.columns), n))) == Effect(m, db)
  {
    var t := db.tables[Main(m.table)];
    var ms := Missing(m.added, t.columns);
    AddColumnsComplete(m, db);
    AddColumnsComplete(m, WithTable(db, m.table, ExtendedBy(t, ms, n)));
    RestCompletes(m.added, t, n);
    WithTableTwice(db, m.table, ExtendedBy(t, ms, n), ExtendedBy(t, ms, |ms|));
  }

  lemma AddColumnsResumes(m: Migration, db: Database, k: nat)
    requires m.AddColumns? && WellFormed(m) && k <= |Plan(m, db)|
    ensures Resumes(m, db, DiskAfter(Plan(m, db), k, db)) && Closes(Plan(m, db), db)
  {
    if Main(m.table) in db.tables {
      var table := db.tables[Main(m.table)];
      var ms := Missing(m.added, table.columns);
      var n := if k <= |ms| then k else |ms|;
      AddColumnsEffect(m, db, k);
      AddColumnsEffect(m, db, |ms| + 1);
      AddColumnsAgain(m, db, n);
    }
  }

  lemma {:induction false} DaysPlanShape(days: seq<Days>, i: nat)
    requires i <= |days|
    ensures forall s | s in DaysPlan(days, i) :: s.SetDays? && i <= s.i < |days| && s.days == Shifted(days[s.i])
    ensures forall j | i <= j < |days| && NeedsShift(days[j]) :: SetDays(j, Shifted(days[j])) in DaysPlan(days, i)
    decreases |days| - i
  {
    if i < |days| {
      DaysPlanShape(days, i + 1);
    }
  }

  /** While the updates run, nothing reaches the disk. */
  lemma {:induction false} UpdatesStayInTransaction(plan: seq<Statement>, k: nat, db: Database)
    requires k <= |plan| && forall s | s in plan :: s.SetDays?
    ensures var c := ExecuteAll(plan, k, Fresh(db));
      && c.durable == db && (k > 0 ==> c.open) && c.seen.tables == db.tables && c.seen.recorded == db.recorded
      && |c.seen.days| == |db.days|
  {
    if k > 0 {
      UpdatesStayInTransaction(plan, k - 1, db);
      assert plan[k - 1] in plan;
    }
  }

  lemma {:induction false} UpdatesWrite(plan: seq<Statement>, k: nat, db: Database)
    requires k <= |plan|
    requires forall s | s in plan :: s.SetDays? && s.i < |db.days| && s.days == Shifted(db.days[s.i])
    ensures var c := ExecuteAll(plan, k, Fresh(db));
      |c.seen.days| == |db.days| &&
      forall j | 0 <= j < |db.days| ::
        c.seen.days[j] == if SetDays(j, Shifted(db.days[j])) in plan[..k] then Shifted(db.days[j]) else db.days[j]
  {
    if k > 0 {
      UpdatesWrite(plan, k - 1, db);
      assert plan[k - 1] in plan;
      assert plan[..k] == plan[..k - 1] + [plan[k - 1]];
    }
  }

  function AllShifted(days: seq<Days>): (r: seq<Days>)
    ensures |r| == |days|
  {
    seq(|days|, i requires 0 <= i < |days| => Shifted(days[i]))
  }

  lemma DaysEffect(m: Migration, db: Database, k: nat)
    requires m.DaysFormat? && k <= |Plan(m, db)|
    ensures k < |Plan(m, db)| ==> DiskAfter(Plan(m, db), k, db) == db
    ensures k == |Plan(m, db)| ==>
      ExecuteAll(Plan(m, db), k, Fresh(db)) == Fresh(db.(days := AllShifted(db.days)))
  {
    var updates := DaysPlan(db.days, 0);
    DaysPlanShape(db.days, 0);
    ExecuteConcat(updates, [Commit], k, Fresh(db));
    UpdatesStayInTransaction(updates, if k <= |updates| then k else |updates|, db);
    if k == |updates| + 1 {
      UpdatesWrite(updates, |updates|, db);
      assert updates[..|updates|] == updates;
      var c := ExecuteAll(updates, |updates|, Fresh(db));
      assert ExecuteAll([Commit], 0, c) == c && ExecuteAll([Commit], 1, c) == Execute(Commit, c);
      assert c.seen.days == AllShifted(db.days);
    }
  }

  /** The days migration does nothing to its own output. */
  lemma ShiftedTwice(d: Days)
    ensures !NeedsShift(Shifted(d)) && Shifted(Shifted(d)) == Shifted(d)
  {
  }

  lemma DaysFormatResumes(m: Migration, db: Database, k: nat)
    requires m.DaysFormat? && k <= |Plan(m, db)|
    ensures Resumes(m, db, DiskAfter(Plan(m, db), k, db)) && Closes(Plan(m, db), db)
  {
    DaysEffect(m, db, k);
    DaysEffect(m, db, |Plan(m, db)|);
    if k == |Plan(m, db)| {
      var disk := DiskAfter(Plan(m, db), k, db);
      DaysEffect(m, disk, |Plan(m, disk)|);
      forall i | 0 <= i < |disk.days|
        ensures Shifted(disk.days[i]) == disk.days[i]
      {
        ShiftedTwice(db.days[i]);
      }
      assert AllShifted(disk.days) == disk.days;
    }
  }

  function Rebuilt(t: Table, dropped: set<Text>): Table {
    Table(Kept(t.columns, dropped), AllOnly(t.rows, Kept(t.columns, dropped)))
  }

  /** The six statements of a rebuild: only the copy is visible on disk until the commit. */
  lemma DropColumnsEffect(m: Migration, db: Database, k: nat)
    requires m.DropColumns? && Plan(m, db) != [] && k <= 6
    ensures |Plan(m, db)| == 6 && Main(m.table) in db.tables
    ensures var disk, table := DiskAfter(Plan(m, db), k, db), db.tables[Main(m.table)];
      && disk.days == db.days && disk.recorded == db.recorded
      && disk.tables - {Copy(m.table)} ==
         (if k < 6 then db.tables - {Copy(m.table)}
          else (db.tables - {Copy(m.table)})[Main(m.table) := Rebuilt(table, m.dropped)])
    ensures k == 6 ==>
      && ExecuteAll(Plan(m, db), 6, Fresh(db)) == Fresh(DiskAfter(Plan(m, db), 6, db))
      && Copy(m.table) !in DiskAfter(Plan(m, db), 6, db).tables
  {
    var plan, table := Plan(m, db), db.tables[Main(m.table)];
    var c0 := Fresh(db);
    var c1 := Execute(plan[0], c0);
    var c2 := Execute(plan[1], c1);
    var c3 := Execute(plan[2], c2);
    var c4 := Execute(plan[3], c3);
    var c5 := Execute(plan[4], c4);
    var c6 := Execute(plan[5], c5);
    assert ExecuteAll(plan, 0, c0) == c0;
    assert ExecuteAll(plan, 1, c0) == c1;
    assert ExecuteAll(plan, 2, c0) == c2;
    assert ExecuteAll(plan, 3, c0) == c3;
    assert ExecuteAll(plan, 4, c0) == c4;
    assert ExecuteAll(plan, 5, c0) == c5;
    assert ExecuteAll(plan, 6, c0) == c6;
    var kept := Kept(table.columns, m.dropped);
    assert c2.seen.tables[Copy(m.table)] == Table(kept, []);
    assert [] + AllOnly(table.rows, kept) == AllOnly(table.rows, kept);
    assert c3.seen.tables[Copy(m.table)] == Rebuilt(table, m.dropped);
    assert c5.seen.tables[Main(m.table)] == Rebuilt(table, m.dropped);
  }

  lemma {:induction false} KeptTwice(columns: seq<Text>, dropped: set<Text>)
    ensures Kept(Kept(columns, dropped), dropped) == Kept(columns, dropped)
  {
    if columns != [] {
      KeptTwice(columns[1..], dropped);
    }
  }

  lemma DropColumnsResumes(m: Migration, db: Database, k: nat)
    requires m.DropColumns? && k <= |Plan(m, db)|
    ensures Resumes(m, db, DiskAfter(Plan(m, db), k, db)) && Closes(Plan(m, db), db)
  {
    if Plan(m, db) != [] {
      DropColumnsEffect(m, db, 6);
      DropColumnsEffect(m, db, k);
      var disk, table := DiskAfter(Plan(m, db), k, db), db.tables[Main(m.table)];
      forall t | Main(t) in db.tables
        ensures Main(t) in disk.tables
      {
        assert Main(t) in disk.tables - {Copy(m.table)};
      }
      if k < 6 {
        assert disk.tables[Main(m.table)] == (disk.tables - {Copy(m.table)})[Main(m.table)] == table;
        DropColumnsEffect(m, disk, 6);
        var a, b := DiskAfter(Plan(m, db), 6, db), DiskAfter(Plan(m, disk), 6, disk);
        assert a.tables == a.tables - {Copy(m.table)} && b.tables == b.tables - {Copy(m.table)};
      } else {
        assert disk.tables[Main(m.table)] == (disk.tables - {Copy(m.table)})[Main(m.table)] == Rebuilt(table, m.dropped);
        KeptTwice(table.columns, m.dropped);
        assert Plan(m, disk) == [];
      }
    }
  }

  /** The rebuild keeps every row, with what it had in the columns that stay, in their order. */
  lemma RebuildKeepsRows(m: Migration, db: Database, i: nat, c: Text)
    requires m.DropColumns? && Plan(m, db) != []
    ensures Main(m.table) in db.tables && Main(m.table) in Effect(m, db).tables
    ensures var before, after := db.tables[Main(m.table)], Effect(m, db).tables[Main(m.table)];
      && |after.rows| == |before.rows|
      && (c in after.columns <==> c in before.columns && c !in m.dropped)
      && (i < |before.rows| && c in after.columns && c in before.rows[i] ==>
            c in after.rows[i] && after.rows[i][c] == before.rows[i][c])
  {
    DropColumnsEffect(m, db, 6);
    var after := Effect(m, db);
    assert Main(m.table) in after.tables - {Copy(m.table)};
    assert after.tables[Main(m.table)] == (after.tables - {Copy(m.table)})[Main(m.table)];
  }

  lemma MigrationResumes(m: Migration, db: Database, k: nat)
    requires !m.BaseTable? && WellFormed(m) && k <= |Plan(m, db)|
    ensures Resumes(m, db, DiskAfter(Plan(m, db), k, db)) && Closes(Plan(m, db), db)
  {
    match m
    case NewTable(_, _, _) => NewTableResumes(m, db, k);
    case AddColumns(_, _, _) => AddColumnsResumes(m, db, k);
    case DropColumns(_, _, _) => DropColumnsResumes(m, db, k);
    case DaysFormat(_) => DaysFormatResumes(m, db, k);
  }

  // ---- What one migration does ----

  /** Moved down by one, and to the nearest weekday from 0 to 6. */
  predicate DayBefore(d: int, w: int) {
    0 <= w <= 6 && (w < d - 1 ==> w == 6) && (w > d - 1 ==> w == 0)
  }

  /** A list with a number outside 0..6 becomes the ascending list of its weekdays, moved down by one. */
  ghost predicate DaysMean(before: Days, after: Days) {
    if before.List? && exists d :: d in before.days && !(0 <= d <= 6) then
      && after.List?
      && (forall i, j | 0 <= i < j < |after.days| :: after.days[i] < after.days[j])
      && (forall w :: w in after.days <==> exists d :: d in before.days && DayBefore(d, w))
    else after == before
  }

  lemma {:induction false} SortedSetAscends(days: seq<int>, w: nat)
    requires w <= 7
    ensures forall i, j | 0 <= i < j < |SortedSet(days, w)| :: SortedSet(days, w)[i] < SortedSet(days, w)[j]
    decreases 7 - w
  {
    if w < 7 {
      SortedSetAscends(days, w + 1);
      var rest := SortedSet(days, w + 1);
      assert forall j | 0 <= j < |rest| :: rest[j] in rest;
    }
  }

  lemma ShiftedMeans(d: Days)
    ensures DaysMean(d, Shifted(d))
  {
    if NeedsShift(d) {
      var moved := seq(|d.days|, i requires 0 <= i < |d.days| => Clamp(d.days[i]));
      SortedSetAscends(moved, 0);
      forall w
        ensures w in Shifted(d).days <==> exists x :: x in d.days && DayBefore(x, w)
      {
        if w in moved {
          var i :| 0 <= i < |moved| && moved[i] == w;
          assert d.days[i] in d.days && DayBefore(d.days[i], w);
        }
        if x :| x in d.days && DayBefore(x, w) {
          var i :| 0 <= i < |d.days| && d.days[i] == x;
          assert moved[i] == w;
        }
      }
    }
  }

  predicate IsAdded(added: seq<Column>, c: Text) {
    exists i :: 0 <= i < |added| && added[i].name == c
  }

  ghost predicate RowExtended(columns: seq<Text>, before: Row, after: Row, added: seq<Column>) {
    && (forall a | a in added && a.name !in columns :: a.name in after && after[a.name] == a.default)
    && (forall c | c in columns || !IsAdded(added, c) :: c in after <==> c in before)
    && (forall c | (c in columns || !IsAdded(added, c)) && c in before :: after[c] == before[c])
  }

  /** Every column is there, the new ones behind the old; every row is, with its values and the defaults. */
  ghost predicate ColumnsAdded(before: Table, after: Table, added: seq<Column>) {
    && before.columns <= after.columns
    && (forall c :: c in after.columns <==> c in before.columns || IsAdded(added, c))
    && |after.rows| == |before.rows|
    && forall i | 0 <= i < |before.rows| :: RowExtended(before.columns, before.rows[i], after.rows[i], added)
  }

  predicate NoneOfFirst(cs: seq<Column>, k: nat, c: Text)
    requires k <= |cs|
  {
    forall j | 0 <= j < k :: cs[j].name != c
  }

  lemma NextIsNew(t: Table, cs: seq<Column>, k: nat)
    requires k < |cs| && Distinct(cs) && forall c | c in cs :: c.name !in t.columns
    ensures cs[k].name !in ExtendedBy(t, cs, k).columns
  {
    ExtendedColumns(t, cs, k);
    assert cs[k] in cs;
    assert cs[k].name !in Names(cs[..k]);
  }

  lemma OneColumn(t: Table, c: Column, i: nat)
    requires c.name !in t.columns && i < |t.rows|
    ensures |Extended(t, c).rows| == |t.rows| && Extended(t, c).rows[i] == t.rows[i][c.name := c.default]
  {
  }

  function Filled(r: Row, cs: seq<Column>, k: nat): Row
    requires k <= |cs|
  {
    if k == 0 then r else Filled(r, cs, k - 1)[cs[k - 1].name := cs[k - 1].default]
  }

  lemma {:induction false} ExtendedRows(t: Table, cs: seq<Column>, k: nat, i: nat)
    requires k <= |cs| && Distinct(cs) && i < |t.rows| && forall c | c in cs :: c.name !in t.columns
    ensures |ExtendedBy(t, cs, k).rows| == |t.rows| && ExtendedBy(t, cs, k).rows[i] == Filled(t.rows[i], cs, k)
  {
    if k > 0 {
      ExtendedRows(t, cs, k - 1, i);
      NextIsNew(t, cs, k - 1);
      OneColumn(ExtendedBy(t, cs, k - 1), cs[k - 1], i);
    }
  }

  lemma {:induction false} FilledMeans(r: Row, cs: seq<Column>, k: nat)
    requires k <= |cs| && Distinct(cs)
    ensures forall j | 0 <= j < k :: cs[j].name in Filled(r, cs, k) && Filled(r, cs, k)[cs[j].name] == cs[j].default
    ensures forall c | NoneOfFirst(cs, k, c) :: c in Filled(r, cs, k) <==> c in r
    ensures forall c | NoneOfFirst(cs, k, c) && c in r :: Filled(r, cs, k)[c] == r[c]
  {
    if k > 0 {
      FilledMeans(r, cs, k - 1);
    }
  }

  lemma {:induction false} MissingIff(added: seq<Column>, present: seq<Text>, a: Column)
    ensures a in Missing(added, present) <==> a in added && a.name !in present
  {
    if added != [] {
      MissingIff(added[1..], present, a);
      assert added == [added[0]] + added[1..];
    }
  }

  lemma AddedIsMissing(added: seq<Column>, present: seq<Text>, c: Text)
    ensures c in Names(Missing(added, present)) <==> IsAdded(added, c) && c !in present
    ensures IsAdded(Missing(added, present), c) <==> IsAdded(added, c) && c !in present
  {
    var ms := Missing(added, present);
    if i :| 0 <= i < |added| && added[i].name == c {
      MissingIff(added, present, added[i]);
      if c !in present {
        var j :| 0 <= j < |ms| && ms[j] == added[i];
        assert Names(ms)[j] == c;
      }
    }
    if j :| 0 <= j < |ms| && ms[j].name == c {
      MissingIff(added, present, ms[j]);
      assert Names(ms)[j] == c;
    }
  }

  lemma {:induction false} SameRowCount(t: Table, cs: seq<Column>, k: nat)
    requires k <= |cs|
    ensures |ExtendedBy(t, cs, k).rows| == |t.rows|
  {
    if k > 0 {
      SameRowCount(t, cs, k - 1);
    }
  }

  lemma RowMeans(added: seq<Column>, t: Table, i: nat)
    requires Distinct(added) && i < |t.rows|
    ensures var ms := Missing(added, t.columns);
      && |ExtendedBy(t, ms, |ms|).rows| == |t.rows|
      && RowExtended(t.columns, t.rows[i], ExtendedBy(t, ms, |ms|).rows[i], added)
  {
    var ms := Missing(added, t.columns);
    MissingAreNew(added, t.columns);
    ExtendedRows(t, ms, |ms|, i);
    FilledMeans(t.rows[i], ms, |ms|);
    forall a | a in added && a.name !in t.columns
      ensures a in ms
    {
      MissingIff(added, t.columns, a);
    }
    forall c | c in t.columns || !IsAdded(added, c)
      ensures NoneOfFirst(ms, |ms|, c)
    {
      AddedIsMissing(added, t.columns, c);
    }
  }

  lemma AddingMeans(added: seq<Column>, t: Table)
    requires Distinct(added)
    ensures var ms := Missing(added, t.columns); ColumnsAdded(t, ExtendedBy(t, ms, |ms|), added)
  {
    var ms := Missing(added, t.columns);
    var after := ExtendedBy(t, ms, |ms|);
    MissingAreNew(added, t.columns);
    ExtendedColumns(t, ms, |ms|);
    assert ms[..|ms|] == ms;
    forall c
      ensures c in after.columns <==> c in t.columns || IsAdded(added, c)
    {
      AddedIsMissing(added, t.columns, c);
    }
    SameRowCount(t, ms, |ms|);
    forall i | 0 <= i < |t.rows|
      ensures RowExtended(t.columns, t.rows[i], after.rows[i], added)
    {
      RowMeans(added, t, i);
    }
  }

  /** What the data are after a migration that was not on record. */
  ghost predicate MigrationMeans(m: Migration, before: Database, after: Database) {
    match m
    case BaseTable(t, columns) =>
      && after == before.(tables := after.tables)
      && after.tables == if Main(t) in before.tables then before.tables else before.tables[Main(t) := Table(columns, [])]
    case NewTable(name, t, columns) =>
      && after == before.(tables := after.tables, recorded := before.recorded + {name})
      && after.tables == if Main(t) in before.tables then before.tables else before.tables[Main(t) := Table(columns, [])]
    case AddColumns(name, t, added) =>
      && after == before.(tables := after.tables, recorded := before.recorded + {name})
      && if Main(t) in before.tables then
           && Main(t) in after.tables && after.tables == before.tables[Main(t) := after.tables[Main(t)]]
           && ColumnsAdded(before.tables[Main(t)], after.tables[Main(t)], added)
         else after.tables == before.tables
    case DropColumns(name, t, dropped) =>
      && after == before.(tables := after.tables, recorded := before.recorded + {name})
      && after.tables - {Main(t), Copy(t)} == before.tables - {Main(t), Copy(t)}
    case DaysFormat(name) =>
      && after == before.(days := after.days, recorded := before.recorded + {name})
      && |after.days| == |before.days|
      && forall i | 0 <= i < |after.days| :: DaysMean(before.days[i], after.days[i])
  }

  lemma DropTwo(tables: map<TableName, Table>, a: TableName, b: TableName)
    ensures tables - {a, b} == (tables - {b}) - {a}
  {
  }

  lemma EffectMeans(m: Migration, db: Database)
    requires !m.BaseTable? && WellFormed(m)
    ensures var effect := Effect(m, db); MigrationMeans(m, db, effect.(recorded := effect.recorded + {m.name}))
  {
    match m
    case NewTable(_, _, _) => NewTableRuns(m, db, 2);
    case AddColumns(_, t, added) =>
      if Main(t) in db.tables {
        AddColumnsComplete(m, db);
        AddingMeans(added, db.tables[Main(t)]);
      }
    case DropColumns(_, t, dropped) =>
      if Plan(m, db) != [] {
        DropColumnsEffect(m, db, 6);
        assert (Effect(m, db).tables - {Copy(t)}) - {Main(t)} == (db.tables - {Copy(t)}) - {Main(t)};
        DropTwo(Effect(m, db).tables, Main(t), Copy(t));
        DropTwo(db.tables, Main(t), Copy(t));
      }
    case DaysFormat(_) =>
      DaysEffect(m, db, |Plan(m, db)|);
      forall i | 0 <= i < |db.days|
        ensures DaysMean(db.days[i], AllShifted(db.days)[i])
      {
        ShiftedMeans(db.days[i]);
      }
  }

  // ---- The whole initialisation ----

  /** Later starts find done what was done, and the cut-off migration comes out the same. */
  ghost predicate Continues(m: Migration, db: Database, disk: Database) {
    && db.recorded <= disk.recorded
    && (forall t | Main(t) in db.tables :: Main(t) in disk.tables)
    && Migrated(m, disk) == Migrated(m, db)
  }

  lemma RecordRuns(c: Session, name: Text)
    ensures ExecuteAll([Record(name), Commit], 1, c) == Execute(Record(name), c)
    ensures ExecuteAll([Record(name), Commit], 2, c) == Execute(Commit, Execute(Record(name), c))
  {
    var tail := [Record(name), Commit];
    assert ExecuteAll(tail, 0, c) == c;
    assert ExecuteAll(tail, 1, c) == Execute(tail[0], c);
    assert ExecuteAll(tail, 2, c) == Execute(tail[1], Execute(tail[0], c));
  }

  lemma RecordAndCommit(db: Database, name: Text)
    ensures Execute(Record(name), Fresh(db)).durable == db
    ensures Execute(Commit, Execute(Record(name), Fresh(db))) == Fresh(db.(recorded := db.recorded + {name}))
  {
  }

  lemma RecordCloses(plan: seq<Statement>, name: Text, db: Database)
    requires Closes(plan, db)
    ensures var all, effect := Closed(plan, name), DiskAfter(plan, |plan|, db);
      && ExecuteAll(all, |plan| + 2, Fresh(db)) == Fresh(effect.(recorded := effect.recorded + {name}))
      && ExecuteAll(all, |plan| + 1, Fresh(db)).durable == effect
  {
    var effect := DiskAfter(plan, |plan|, db);
    ExecuteConcat(plan, [Record(name), Commit], |plan| + 1, Fresh(db));
    ExecuteConcat(plan, [Record(name), Commit], |plan| + 2, Fresh(db));
    RecordRuns(Fresh(effect), name);
    RecordAndCommit(effect, name);
  }

  /** Until its last statement a closed plan leaves on disk what the plan itself leaves. */
  lemma CutOfClosed(plan: seq<Statement>, name: Text, db: Database, k: nat)
    requires Closes(plan, db) && k < |plan| + 2
    ensures DiskAfter(Closed(plan, name), k, db) == DiskAfter(plan, if k <= |plan| then k else |plan|, db)
  {
    if k <= |plan| {
      ExecuteConcat(plan, [Record(name), Commit], k, Fresh(db));
    } else {
      RecordCloses(plan, name, db);
    }
  }

  lemma MigratedIsRecordedEffect(m: Migration, db: Database)
    requires !m.BaseTable? && WellFormed(m) && !Done(m, db)
    ensures Migrated(m, db) == Effect(m, db).(recorded := Effect(m, db).recorded + {m.name})
  {
    MigrationResumes(m, db, |Plan(m, db)|);
    RecordCloses(Plan(m, db), m.name, db);
  }

  /** Cutting off a migration leaves what cutting off its plan leaves. */
  lemma CutIsCutOfPlan(m: Migration, db: Database, k: nat) returns (j: nat)
    requires !m.BaseTable? && WellFormed(m) && !Done(m, db) && k < |Steps(m, db)|
    ensures j <= |Plan(m, db)| && DiskAfter(Steps(m, db), k, db) == DiskAfter(Plan(m, db), j, db)
  {
    MigrationResumes(m, db, |Plan(m, db)|);
    CutOfClosed(Plan(m, db), m.name, db, k);
    j := if k <= |Plan(m, db)| then k else |Plan(m, db)|;
  }

  lemma CutOffContinues(m: Migration, db: Database, k: nat)
    requires WellFormed(m) && k <= |Steps(m, db)|
    ensures Continues(m, db, DiskAfter(Steps(m, db), k, db))
  {
    var disk := DiskAfter(Steps(m, db), k, db);
    if Done(m, db) {
    } else if m.BaseTable? {
      assert ExecuteAll(Plan(m, db), 0, Fresh(db)) == Fresh(db);
      assert ExecuteAll(Plan(m, db), 1, Fresh(db)) == Execute(Plan(m, db)[0], Fresh(db));
    } else {
      MigratedIsRecordedEffect(m, db);
      MigrationResumes(m, db, |Plan(m, db)|);
      if k < |Steps(m, db)| {
        var j := CutIsCutOfPlan(m, db, k);
        MigrationResumes(m, db, j);
        MigratedIsRecordedEffect(m, disk);
      } else {
        assert Done(m, disk) && Migrated(m, disk) == disk;
      }
    }
  }

  lemma MigrationIsDone(m: Migration, db: Database)
    requires WellFormed(m)
    ensures Done(m, Migrated(m, db))
  {
    if !Done(m, db) {
      if m.BaseTable? {
        assert ExecuteAll(Plan(m, db), 0, Fresh(db)) == Fresh(db);
        assert ExecuteAll(Plan(m, db), 1, Fresh(db)) == Execute(Plan(m, db)[0], Fresh(db));
      } else {
        MigratedIsRecordedEffect(m, db);
      }
    }
  }

  /** What is on disk when the process stops after k of a migration's statements, or after the last. */
  function Stopped(m: Migration, k: nat, db: Database): Database {
    DiskAfter(Steps(m, db), if k <= |Steps(m, db)| then k else |Steps(m, db)|, db)
  }

  lemma StoppedContinues(m: Migration, k: nat, db: Database)
    requires WellFormed(m)
    ensures Migrated(m, Stopped(m, k, db)) == Migrated(m, db)
    ensures forall later | Done(later, db) :: Done(later, Stopped(m, k, db))
    ensures k == |Steps(m, db)| ==> Stopped(m, k, db) == Migrated(m, db)
  {
    CutOffContinues(m, db, if k <= |Steps(m, db)| then k else |Steps(m, db)|);
  }

  lemma InitIsRestartable(ms: seq<Migration>)
    requires forall m | m in ms :: WellFormed(m)
    ensures Restarts.Restartable(Migrated, Stopped, Done, ms)
  {
    forall i, j, k: nat, db | 0 <= i < |ms| && 0 <= j < |ms| && Done(ms[j], db)
      ensures Done(ms[j], Stopped(ms[i], k, db))
    {
      StoppedContinues(ms[i], k, db);
    }
    forall i, j, db | 0 <= i < |ms| && 0 <= j < |ms| && Done(ms[j], db)
      ensures Done(ms[j], Migrated(ms[i], db))
    {
      StoppedContinues(ms[i], |Steps(ms[i], db)|, db);
    }
    forall i, k: nat, db | 0 <= i < |ms|
      ensures Migrated(ms[i], Stopped(ms[i], k, db)) == Migrated(ms[i], db)
    {
      StoppedContinues(ms[i], k, db);
    }
    forall i, db | 0 <= i < |ms|
      ensures Done(ms[i], Migrated(ms[i], db))
    {
      MigrationIsDone(ms[i], db);
    }
  }

  /** Any number of starts may be cut off, each between any two statements: the next complete one ends
      as the first would have, with the same columns, rows, day lists and record. */
  lemma CrashesConverge(ms: seq<Migration>, stops: seq<Restarts.Stop>, db: Database)
    requires forall m | m in ms :: WellFormed(m)
    ensures Restarts.All(Migrated, ms, Restarts.AfterStops(Migrated, Stopped, ms, stops, db)) ==
            Restarts.All(Migrated, ms, db)
  {
    InitIsRestartable(ms);
    Restarts.StopsConverge(Migrated, Stopped, Done, ms, stops, db);
  }

  // ---- The runner ----

  lemma StepsClose(m: Migration, db: Database)
    requires WellFormed(m)
    ensures Closes(Steps(m, db), db)
  {
    if Done(m, db) {
    } else if m.BaseTable? {
      assert ExecuteAll(Plan(m, db), 0, Fresh(db)) == Fresh(db);
      assert ExecuteAll(Plan(m, db), 1, Fresh(db)) == Execute(Plan(m, db)[0], Fresh(db));
    } else {
      MigrationResumes(m, db, |Plan(m, db)|);
      RecordCloses(Plan(m, db), m.name, db);
    }
  }

  lemma MigratedMeans(m: Migration, db: Database)
    requires WellFormed(m) && !Done(m, db)
    ensures MigrationMeans(m, db, Migrated(m, db))
  {
    if m.BaseTable? {
      assert ExecuteAll(Plan(m, db), 0, Fresh(db)) == Fresh(db);
      assert ExecuteAll(Plan(m, db), 1, Fresh(db)) == Execute(Plan(m, db)[0], Fresh(db));
    } else {
      MigratedIsRecordedEffect(m, db);
      EffectMeans(m, db);
    }
  }

  class MigrationRunner {
    var durable: Database
    var seen: Database
    var open: bool

    ghost function View(): Session
      reads this
    {
      Session(durable, seen, open)
    }

    constructor (db: Database)
      ensures View() == Fresh(db)
    {
      durable, seen, open := db, db, false;
    }

    method Run(s: Statement)
      modifies this
      ensures View() == Execute(s, old(View()))
    {
      if OpensTransaction(s) {
        open := true;
      }
      seen := Apply(s, seen);
      if s.Commit? {
        open := false;
      }
      if !open {
        durable := seen;
      }
    }

    /** Runs the migration's statements one by one, unless it is done. */
    method ApplyNamedMigration(m: Migration)
      requires WellFormed(m) && !open && durable == seen
      modifies this
      ensures !open && durable == seen == Migrated(m, old(seen))
      ensures !m.BaseTable? && m.name in old(seen.recorded) ==> seen == old(seen)
      ensures m.BaseTable? || m.name !in old(seen.recorded) ==> MigrationMeans(m, old(seen), seen)
    {
      ghost var db := seen;
      if !Done(m, db) {
        MigratedMeans(m, db);
      }
      var steps := Steps(m, seen);
      var k := 0;
      while k < |steps|
        invariant 0 <= k <= |steps|
        invariant View() == ExecuteAll(steps, k, Fresh(db))
      {
        Run(steps[k]);
        k := k + 1;
      }
      StepsClose(m, db);
    }

    method InitDatabase(ms: seq<Migration>)
      requires !open && durable == seen && forall m | m in ms :: WellFormed(m)
      modifies this
      ensures !open && durable == seen == Restarts.All(Migrated, ms, old(seen))
    {
      ghost var db := seen;
      var i := 0;
      while i < |ms|
        invariant 0 <= i <= |ms| && !open && durable == seen
        invariant seen == Restarts.Iterate(Migrated, ms, i, db)
      {
        Restarts.IterateStep(Migrated, ms, i, db);
        ApplyNamedMigration(ms[i]);
        i := i + 1;
      }
    }
  }
}
