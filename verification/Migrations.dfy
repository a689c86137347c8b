/**
 The migration planner and its runners, for any migration list, any schema and any number of runners. A
 runner plans once, from five queries, and then runs one atomic batch after another; it may be stopped between
 any two of them, and any other runner may move there, or between the queries, as well.
 */
module Migrations {
  import opened Results

  datatype Migration = Migration(version: int, name: string, checksum: string, statements: seq<string>,
                                 destructive: bool, requiresProjectExport: bool)

  /** A row of `schema_migrations`; its version is the primary key, and every query reads the rows by version. */
  datatype Record = Record(version: int, name: string, checksum: string, adopted: bool)

  datatype Database<S> = Database(hasLedger: bool, rows: seq<Record>, schema: S)

  /**
   The migration list, and what the planner and the database do with a schema of type S. The baseline looks at
   the schema in three queries, and so at up to three schemas: for the table names, for the columns of the
   projects, and for the columns of the share links.
   */
  datatype Setting<!S> = Setting(list: seq<Migration>, hasProjects: S -> bool,
                                 baseline: (S, S, S) -> Result<nat, Refusal>, run: (S, Migration) -> Option<S>)

  datatype Refusal = LegacySchemaPartial | UnknownVersion(version: int) | ChecksumMismatch(version: int)
      | SequenceInvalid
                   | ProjectExportRequired(version: int) | BatchFailed

  datatype Plan = Plan(currentVersion: int, adoptionRequired: bool, applied: seq<Record>, pending: seq<Migration>)

  /** The versions are 1, 2, … in list order. */
  ghost predicate Listed(list: seq<Migration>) {
    forall i :: 0 <= i < |list| ==> list[i].version == i + 1
  }

  ghost predicate Ascending(rows: seq<Record>) {
    forall i, j :: 0 <= i < j < |rows| ==> rows[i].version < rows[j].version
  }

  // ---------- the planner ----------

  function RecordOf(m: Migration, adopted: bool): Record {
    Record(m.version, m.name, m.checksum, adopted)
  }

  function RecordsOf(ms: seq<Migration>, adopted: bool): (rows: seq<Record>)
    ensures |rows| == |ms| && forall i :: 0 <= i < |ms| ==> rows[i] == RecordOf(ms[i], adopted)
  {
    seq(|ms|, i requires 0 <= i < |ms| => RecordOf(ms[i], adopted))
  }

  function Find(list: seq<Migration>, version: int): Option<Migration> {
    if list == [] then None else if list[0].version == version then Some(list[0]) else Find(list[1..], version)
  }

  function CheckApplied(list: seq<Migration>, rows: seq<Record>): Option<Refusal> {
    if rows == [] then None
    else
      match Find(list, rows[0].version)
      case None => Some(UnknownVersion(rows[0].version))
      case Some(expected) =>
        if expected.name != rows[0].name || expected.checksum != rows[0].checksum
            then Some(ChecksumMismatch(rows[0].version))
        else CheckApplied(list, rows[1..])
  }

  predicate Recorded(rows: seq<Record>, version: int) {
    exists i :: 0 <= i < |rows| && rows[i].version == version
  }

  function Pending(list: seq<Migration>, rows: seq<Record>): seq<Migration> {
    if list == [] then []
    else if Recorded(rows, list[0].version) then Pending(list[1..], rows)
    else [list[0]] + Pending(list[1..], rows)
  }

  function Highest(rows: seq<Record>): int {
    if rows == [] then 0 else rows[|rows| - 1].version
  }

  predicate OutOfSequence(pending: seq<Migration>, highest: int) {
    exists i :: 0 <= i < |pending| && pending[i].version != highest + i + 1
  }

  /** `slice(0, k)`, which stops at the end of the list. */
  function FirstOf(list: seq<Migration>, k: nat): seq<Migration> {
    if k <= |list| then list[..k] else list
  }

  function Decide(list: seq<Migration>, applied: seq<Record>, adoption: bool): Result<Plan, Refusal> {
    var refusal := CheckApplied(list, applied);
    var pending := Pending(list, applied);
    if refusal.Some? then Err(refusal.value)
    else if OutOfSequence(pending, Highest(applied)) then Err(SequenceInvalid)
    else Ok(Plan(Highest(applied), adoption, applied, pending))
  }

  /** What the planner's five queries saw: the tables, the recorded rows, and the three of the baseline. */
  datatype Seen<S> = Seen(tables: Database<S>, rows: Database<S>, names: S, columns: S, shareColumns: S)

  function PlanFrom<S>(x: Setting<S>, seen: Seen<S>): Result<Plan, Refusal> {
    var applied := if seen.tables.hasLedger then seen.rows.rows else [];
    if applied == [] && x.hasProjects(seen.tables.schema) then
      match x.baseline(seen.names, seen.columns, seen.shareColumns)
      case Err(e) => Err(e)
      case Ok(k) =>
        if k > 0 then Decide(x.list, RecordsOf(FirstOf(x.list, k), true), true) else Decide(x.list, [], false)
    else Decide(x.list, applied, false)
  }

  function AtOnce<S>(db: Database<S>): Seen<S> {
    Seen(db, db, db.schema, db.schema, db.schema)
  }

  /** The plan when nothing else happens between the queries. */
  function PlanFor<S>(x: Setting<S>, db: Database<S>): Result<Plan, Refusal> {
    PlanFrom(x, AtOnce(db))
  }

  // ---------- planning succeeds exactly on a prefix ----------

  ghost predicate Matches(list: seq<Migration>, rows: seq<Record>) {
    && |rows| <= |list|
    && forall i :: 0 <= i < |rows| ==>
         rows[i].version == list[i].version && rows[i].name == list[i].name && rows[i].checksum == list[i].checksum
  }

  lemma {:induction false} FindFinds(list: seq<Migration>, version: int, i: nat)
    requires i < |list| && list[i].version == version
    requires forall j :: 0 <= j < i ==> list[j].version != version
    ensures Find(list, version) == Some(list[i])
  {
    if i > 0 {
      FindFinds(list[1..], version, i - 1);
    }
  }

  lemma {:induction false} FindMisses(list: seq<Migration>, version: int)
    requires forall j :: 0 <= j < |list| ==> list[j].version != version
    ensures Find(list, version) == None
  {
    if list != [] {
      FindMisses(list[1..], version);
    }
  }

  lemma {:induction false} FindListed(list: seq<Migration>, version: int)
    requires Listed(list)
    ensures Find(list, version) == if 1 <= version <= |list| then Some(list[version - 1]) else None
  {
    if 1 <= version <= |list| {
      FindFinds(list, version, version - 1);
    } else {
      FindMisses(list, version);
    }
  }

  ghost predicate RowMatches(list: seq<Migration>, row: Record) {
    && 1 <= row.version <= |list|
    && row.name == list[row.version - 1].name && row.checksum == list[row.version - 1].checksum
  }

  lemma {:induction false} CheckAppliedIff(list: seq<Migration>, rows: seq<Record>)
    requires Listed(list)
    ensures CheckApplied(list, rows).None? <==> forall i :: 0 <= i < |rows| ==> RowMatches(list, rows[i])
  {
    if rows != [] {
      FindListed(list, rows[0].version);
      CheckAppliedIff(list, rows[1..]);
      assert forall i :: 0 < i < |rows| ==> rows[i] == rows[1..][i - 1];
      assert rows == [rows[0]] + rows[1..];
    }
  }

  lemma {:induction false} PendingAfterPrefix(list: seq<Migration>, rows: seq<Record>, k: nat)
    requires k <= |list|
    requires forall i :: 0 <= i < |list| ==> (Recorded(rows, list[i].version) <==> i < k)
    ensures Pending(list, rows) == list[k..]
  {
    if list != [] {
      assert Recorded(rows, list[0].version) <==> 0 < k;
      forall i | 0 <= i < |list[1..]| ensures list[1..][i] == list[i + 1] {
      }
      PendingAfterPrefix(list[1..], rows, if k == 0 then 0 else k - 1);
    }
  }

  lemma {:induction false} PrefixPending(list: seq<Migration>, rows: seq<Record>)
    requires Listed(list) && Matches(list, rows)
    ensures Pending(list, rows) == list[|rows|..]
  {
    forall i | 0 <= i < |list| ensures Recorded(rows, list[i].version) <==> i < |rows| {
      if i < |rows| {
        assert rows[i].version == list[i].version;
      }
    }
    PendingAfterPrefix(list, rows, |rows|);
  }

  lemma {:induction false} PrefixIsApplied(list: seq<Migration>, rows: seq<Record>)
    requires Listed(list) && Matches(list, rows)
    ensures CheckApplied(list, rows).None? && Highest(rows) == |rows|
  {
    forall i | 0 <= i < |rows| ensures RowMatches(list, rows[i]) {
      assert rows[i].version == list[i].version == i + 1;
    }
    CheckAppliedIff(list, rows);
    if rows != [] {
      assert rows[|rows| - 1].version == list[|rows| - 1].version;
    }
  }

  lemma RestIsInSequence(list: seq<Migration>, k: nat)
    requires Listed(list) && k <= |list|
    ensures !OutOfSequence(list[k..], k)
  {
    forall i | 0 <= i < |list[k..]| ensures list[k..][i].version == k + i + 1 {
      assert list[k..][i] == list[k + i];
    }
  }

  lemma PrefixDecides(list: seq<Migration>, rows: seq<Record>, adoption: bool)
    requires Listed(list) && Matches(list, rows)
    ensures Decide(list, rows, adoption) == Ok(Plan(|rows|, adoption, rows, list[|rows|..]))
  {
    PrefixIsApplied(list, rows);
    PrefixPending(list, rows);
    RestIsInSequence(list, |rows|);
  }

  lemma {:induction false} MissingIsPending(list: seq<Migration>, rows: seq<Record>, i: nat)
    requires i < |list| && !Recorded(rows, list[i].version)
    ensures exists t :: 0 <= t < |Pending(list, rows)| && Pending(list, rows)[t] == list[i]
  {
    if i > 0 {
      MissingIsPending(list[1..], rows, i - 1);
      var t :| 0 <= t < |Pending(list[1..], rows)| && Pending(list[1..], rows)[t] == list[i];
      if Recorded(rows, list[0].version) {
        assert Pending(list, rows)[t] == list[i];
      } else {
        assert Pending(list, rows)[t + 1] == list[i];
      }
    } else {
      assert Pending(list, rows)[0] == list[0];
    }
  }

  /** In sequence means that nothing below the highest recorded version is missing. */
  lemma {:induction false} NothingMissing(list: seq<Migration>, rows: seq<Record>, version: int)
    requires Listed(list) && 1 <= version <= |list| && version <= Highest(rows)
    ensures !OutOfSequence(Pending(list, rows), Highest(rows)) ==> Recorded(rows, version)
  {
    if !Recorded(rows, list[version - 1].version) {
      MissingIsPending(list, rows, version - 1);
      var t :| 0 <= t < |Pending(list, rows)| && Pending(list, rows)[t] == list[version - 1];
      assert Pending(list, rows)[t].version != Highest(rows) + t + 1;
    }
  }

  lemma {:induction false} GapFreeRowsCount(rows: seq<Record>, i: nat)
    requires Ascending(rows) && i < |rows| && forall j :: 0 <= j < |rows| ==> rows[j].version >= 1
    requires forall v :: 1 <= v <= Highest(rows) ==> Recorded(rows, v)
    ensures rows[i].version == i + 1
  {
    assert rows[i].version <= Highest(rows);
    if i > 0 {
      GapFreeRowsCount(rows, i - 1);
    }
    var v := i + 1;
    assert v <= rows[i].version;
    assert Recorded(rows, v);
    var j :| 0 <= j < |rows| && rows[j].version == v;
    assert j >= i;
  }

  lemma DecidedIsPrefix(list: seq<Migration>, rows: seq<Record>, adoption: bool)
    requires Listed(list) && Ascending(rows) && Decide(list, rows, adoption).Ok?
    ensures Matches(list, rows)
  {
    CheckAppliedIff(list, rows);
    assert Highest(rows) <= |list| by {
      if rows != [] { assert RowMatches(list, rows[|rows| - 1]); }
    }
    forall v | 1 <= v <= Highest(rows) ensures Recorded(rows, v) {
      NothingMissing(list, rows, v);
    }
    forall i | 0 <= i < |rows| ensures rows[i].version == i + 1 && RowMatches(list, rows[i]) {
      GapFreeRowsCount(rows, i);
    }
    if rows != [] { assert RowMatches(list, rows[|rows| - 1]); }
  }

  /**
   With recorded rows, planning succeeds exactly when they are a prefix of the list under the same names and
   checksums; then what is applied and what is pending make up the whole list.
   */
  lemma PlanSucceedsExactlyOnAPrefix<S(!new)>(x: Setting<S>, db: Database<S>)
    requires Listed(x.list) && Ascending(db.rows) && db.hasLedger && db.rows != []
    ensures PlanFor(x, db).Ok? <==> Matches(x.list, db.rows)
    ensures PlanFor(x, db).Ok? ==>
              var plan := PlanFor(x, db).value;
              && plan.applied == db.rows && !plan.adoptionRequired && plan.currentVersion == |db.rows|
              && x.list == x.list[..|db.rows|] + plan.pending
  {
    if PlanFor(x, db).Ok? {
      DecidedIsPrefix(x.list, db.rows, false);
    }
    if Matches(x.list, db.rows) {
      PrefixDecides(x.list, db.rows, false);
    }
  }

  /** The first recorded row that does not match decides the refusal; if all match, a gap does. */
  ghost predicate RefusedFor(list: seq<Migration>, rows: seq<Record>, refusal: Refusal) {
    if forall i :: 0 <= i < |rows| ==> RowMatches(list, rows[i]) then refusal == SequenceInvalid
    else exists i :: IsFirstMismatch(list, rows, i)
           && refusal == if 1 <= rows[i].version <= |list| then ChecksumMismatch(rows[i].version)
                         else UnknownVersion(rows[i].version)
  }

  ghost predicate IsFirstMismatch(list: seq<Migration>, rows: seq<Record>, i: int) {
    0 <= i < |rows| && !RowMatches(list, rows[i]) && forall j :: 0 <= j < i ==> RowMatches(list, rows[j])
  }

  lemma {:induction false} MismatchIsFirst(list: seq<Migration>, rows: seq<Record>) returns (i: int)
    requires Listed(list) && CheckApplied(list, rows).Some?
    ensures IsFirstMismatch(list, rows, i)
    ensures CheckApplied(list, rows).value == if 1 <= rows[i].version <= |list| then ChecksumMismatch(rows[i].version)
                                              else UnknownVersion(rows[i].version)
  {
    FindListed(list, rows[0].version);
    if RowMatches(list, rows[0]) {
      var k := MismatchIsFirst(list, rows[1..]);
      i := k + 1;
      assert forall j :: 0 < j < |rows| ==> rows[j] == rows[1..][j - 1];
    } else {
      i := 0;
    }
  }

  /** Why recorded rows that are no prefix are refused. */
  lemma PlanIsRefusedFor<S(!new)>(x: Setting<S>, db: Database<S>)
    requires Listed(x.list) && db.hasLedger && db.rows != []
    ensures PlanFor(x, db).Err? ==> RefusedFor(x.list, db.rows, PlanFor(x, db).error)
  {
    CheckAppliedIff(x.list, db.rows);
    if CheckApplied(x.list, db.rows).Some? {
      var i := MismatchIsFirst(x.list, db.rows);
    }
  }

  // ---------- the runners ----------

  /** Where the first recorded migration starts from: what an unrecorded schema already holds. */
  function Base<S>(x: Setting<S>, schema: S): Result<nat, Refusal> {
    if x.hasProjects(schema) then
      match x.baseline(schema, schema, schema)
      case Err(e) => Err(e)
      case Ok(k) => Ok(|FirstOf(x.list, k)|)
    else Ok(0)
  }

  /** A batch inserts one row after running its statements; a version that is already recorded makes it fail. */
  function RunMigration<S>(x: Setting<S>, db: Database<S>, m: Migration): Result<Database<S>, Refusal> {
    match x.run(db.schema, m)
    case None => Err(BatchFailed)
    case Some(schema) =>
      if Recorded(db.rows, m.version) then Err(BatchFailed)
      else Ok(db.(rows := InsertRow(db.rows, RecordOf(m, false)), schema := schema))
  }

  /** The row takes its place in version order. */
  function InsertRow(rows: seq<Record>, r: Record): seq<Record>
    decreases |rows|
  {
    if rows == [] || rows[|rows| - 1].version < r.version then rows + [r]
    else InsertRow(rows[..|rows| - 1], r) + [rows[|rows| - 1]]
  }

  function InsertRows(rows: seq<Record>, more: seq<Record>): Result<seq<Record>, Refusal>
    decreases |more|
  {
    if more == [] then Ok(rows)
    else if Recorded(rows, more[0].version) then Err(BatchFailed)
    else InsertRows(InsertRow(rows, more[0]), more[1..])
  }

  /**
   A runner's next batch: the table itself, then the adopted rows if any, then one pending migration after another.
   */
  datatype Runner = Runner(plan: Plan, hasExport: bool, bootstrapped: bool, adopted: bool, next: nat)

  function Started(plan: Plan, hasExport: bool): Runner {
    Runner(plan, hasExport, false, !plan.adoptionRequired, 0)
  }

  predicate Finished(r: Runner) {
    r.bootstrapped && r.adopted && r.next == |r.plan.pending|
  }

  function Advance<S>(x: Setting<S>, db: Database<S>, r: Runner): Result<(Database<S>, Runner), Refusal>
    requires !Finished(r) && r.next <= |r.plan.pending|
  {
    if !r.bootstrapped then Ok((db.(hasLedger := true), r.(bootstrapped := true)))
    else if !r.adopted then
      match InsertRows(db.rows, r.plan.applied)
      case Err(e) => Err(e)
      case Ok(rows) => Ok((db.(rows := rows), r.(adopted := true)))
    else
      var m := r.plan.pending[r.next];
      if (m.destructive || m.requiresProjectExport) && !r.hasExport then Err(ProjectExportRequired(m.version))
      else
        match RunMigration(x, db, m)
        case Err(e) => Err(e)
        case Ok(n) => Ok((n, r.(next := r.next + 1)))
  }

  // ---------- any number of runners, stopped anywhere ----------

  /**
   `past` holds every state the database has been in before; `ran` lists the versions whose statements took effect, in
   order.
   */
  datatype World<S> = World(db: Database<S>, past: seq<Database<S>>, runners: seq<Runner>, ran: seq<int>)

  /** Which state each query of a planner sees: one of the past, or the present one. */
  datatype Queries = Queries(tables: nat, rows: nat, names: nat, columns: nat, shareColumns: nat)

  /** A runner starts when the last query of its plan has been answered; others may have moved between the queries. */
  datatype Step = Start(queries: Queries, hasExport: bool) | Proceed(runner: nat)

  function At<S>(w: World<S>, i: nat): Database<S> {
    if i < |w.past| then w.past[i] else w.db
  }

  function SeenBy<S>(w: World<S>, q: Queries): Seen<S> {
    Seen(At(w, q.tables), At(w, q.rows), At(w, q.names).schema, At(w, q.columns).schema, At(w, q.shareColumns).schema)
  }

  function RanAfter(ran: seq<int>, r: Runner, s: Runner): seq<int> {
    if r.next < s.next && r.next < |r.plan.pending| then ran + [r.plan.pending[r.next].version] else ran
  }

  function Next<S>(x: Setting<S>, w: World<S>, step: Step): World<S>
    requires forall i :: 0 <= i < |w.runners| ==> w.runners[i].next <= |w.runners[i].plan.pending|
  {
    match step
    case Start(queries, hasExport) =>
      var plan := PlanFrom(x, SeenBy(w, queries));
      if plan.Ok? then w.(runners := w.runners + [Started(plan.value, hasExport)]) else w
    case Proceed(i) =>
      if i >= |w.runners| || Finished(w.runners[i]) then w
      else
        var r := w.runners[i];
        match Advance(x, w.db, r)
        case Err(e) => w
        case Ok((n, s)) => World(n, w.past + [w.db], w.runners[i := s], RanAfter(w.ran, r, s))
  }

  /** The schema after running migrations one after another. */
  function RunAll<S>(x: Setting<S>, schema: S, ms: seq<Migration>): Option<S> {
    if ms == [] then Some(schema)
    else
      match RunAll(x, schema, ms[..|ms| - 1])
      case None => None
      case Some(s) => x.run(s, ms[|ms| - 1])
  }

  /**
   The database that starts from `schema` with nothing recorded: either still that, or it records exactly the
   first migrations, the adopted ones first, and holds the schema that the others, run in order, produce.
   */
  ghost predicate Recovers<S(!new)>(x: Setting<S>, schema: S, base: nat, db: Database<S>, ran: seq<int>) {
    && base <= |x.list| && Matches(x.list, db.rows) && (db.rows != [] ==> db.hasLedger)
    && (forall i :: 0 <= i < |db.rows| ==> (db.rows[i].adopted <==> i < base))
    && if db.rows == [] then db.schema == schema && ran == []
       else
         && base <= |db.rows| && Some(db.schema) == RunAll(x, schema, x.list[base..|db.rows|])
         && |ran| == |db.rows| - base && forall i :: 0 <= i < |ran| ==> ran[i] == base + i + 1
  }

  /**
   What a runner planned is harmless wherever the others have got to: its first batch succeeds only on rows that its
   plan is right about.
   */
  ghost predicate Fits<S(!new)>(x: Setting<S>, base: nat, rows: seq<Record>, r: Runner) {
    var p := |r.plan.applied|;
    && p <= |x.list| && r.plan.pending == x.list[p..] && r.next <= |r.plan.pending|
    && (r.adopted ==> p + r.next <= |rows| && (rows == [] ==> base == 0))
    && (!r.adopted ==> r.next == 0 && r.plan.applied == RecordsOf(x.list[..p], true)
                       && (p == 0 ==> x.list == []) && (rows == [] ==> p == base))
  }

  /**
   A state the database has been in: its records are still there, and while there were none the schema was the first.
   */
  ghost predicate Was<S(!new)>(x: Setting<S>, schema: S, earlier: Database<S>, rows: seq<Record>) {
    && Matches(x.list, earlier.rows) && |earlier.rows| <= |rows|
    && (earlier.rows == [] ==> earlier.schema == schema)
  }

  ghost predicate Sound<S(!new)>(x: Setting<S>, schema: S, base: nat, w: World<S>) {
    && Recovers(x, schema, base, w.db, w.ran)
    && (forall i :: 0 <= i < |w.past| ==> Was(x, schema, w.past[i], w.db.rows))
    && forall i :: 0 <= i < |w.runners| ==>
         Fits(x, base, w.db.rows, w.runners[i]) && (w.runners[i].bootstrapped ==> w.db.hasLedger)
  }

  lemma AdoptedPlanFits<S(!new)>(x: Setting<S>, base: nat, rows: seq<Record>, k: nat, hasExport: bool)
    requires Listed(x.list) && k > 0 && (rows == [] ==> base == |FirstOf(x.list, k)|)
    ensures var plan := Decide(x.list, RecordsOf(FirstOf(x.list, k), true), true);
            plan.Ok? && Fits(x, base, rows, Started(plan.value, hasExport))
  {
    var first := FirstOf(x.list, k);
    assert first == x.list[..|first|];
    PrefixDecides(x.list, RecordsOf(first, true), true);
  }

  lemma RecordedPlanFits<S(!new)>(x: Setting<S>, base: nat, rows: seq<Record>, applied: seq<Record>, hasExport: bool)
    requires Listed(x.list) && Matches(x.list, applied) && |applied| <= |rows| && (rows == [] ==> base == 0)
    ensures var plan := Decide(x.list, applied, false);
            plan.Ok? && Fits(x, base, rows, Started(plan.value, hasExport))
  {
    PrefixDecides(x.list, applied, false);
  }

  lemma EachQueryWas<S(!new)>(x: Setting<S>, schema: S, base: nat, w: World<S>, i: nat)
    requires Sound(x, schema, base, w)
    ensures Was(x, schema, At(w, i), w.db.rows)
  {
  }

  /** A plan fits the present database although each of its queries saw another state. */
  lemma PlanFits<S(!new)>(x: Setting<S>, schema: S, base: nat, w: World<S>, q: Queries, hasExport: bool)
    requires Listed(x.list) && Base(x, schema) == Ok(base) && Sound(x, schema, base, w)
    requires PlanFrom(x, SeenBy(w, q)).Ok?
    ensures Fits(x, base, w.db.rows, Started(PlanFrom(x, SeenBy(w, q)).value, hasExport))
  {
    EachQueryWas(x, schema, base, w, q.tables);
    EachQueryWas(x, schema, base, w, q.rows);
    EachQueryWas(x, schema, base, w, q.names);
    EachQueryWas(x, schema, base, w, q.columns);
    EachQueryWas(x, schema, base, w, q.shareColumns);
    var seen := SeenBy(w, q);
    var applied := if seen.tables.hasLedger then seen.rows.rows else [];
    if applied == [] && x.hasProjects(seen.tables.schema)
        && x.baseline(seen.names, seen.columns, seen.shareColumns).value > 0 {
      AdoptedPlanFits(x, base, w.db.rows, x.baseline(seen.names, seen.columns, seen.shareColumns).value, hasExport);
    } else {
      RecordedPlanFits(x, base, w.db.rows, applied, hasExport);
    }
  }

  lemma {:induction false} AppendRow(rows: seq<Record>, r: Record)
    requires rows == [] || rows[|rows| - 1].version < r.version
    ensures InsertRow(rows, r) == rows + [r]
  {
  }

  lemma {:induction false} AdoptIntoEmpty(list: seq<Migration>, rows: seq<Record>, k: nat)
    requires Listed(list) && |rows| <= k <= |list| && rows == RecordsOf(list[..|rows|], true)
    ensures InsertRows(rows, RecordsOf(list[|rows|..k], true)) == Ok(RecordsOf(list[..k], true))
    decreases k - |rows|
  {
    var more := RecordsOf(list[|rows|..k], true);
    if |rows| < k {
      assert more[0] == RecordOf(list[|rows|], true);
      assert !Recorded(rows, more[0].version);
      AppendRow(rows, more[0]);
      assert more[1..] == RecordsOf(list[|rows| + 1..k], true);
      assert rows + [more[0]] == RecordsOf(list[..|rows| + 1], true);
      AdoptIntoEmpty(list, rows + [more[0]], k);
    }
  }

  lemma AdoptionRecovers<S(!new)>(x: Setting<S>, schema: S, base: nat, db: Database<S>, ran: seq<int>, r: Runner)
    requires Listed(x.list) && Recovers(x, schema, base, db, ran) && Fits(x, base, db.rows, r)
    requires r.bootstrapped && !r.adopted && db.hasLedger && Advance(x, db, r).Ok?
    ensures var (n, s) := Advance(x, db, r).value;
            Recovers(x, schema, base, n, ran) && Fits(x, base, n.rows, s) && |n.rows| >= |db.rows|
  {
    if db.rows == [] {
      AdoptIntoEmpty(x.list, [], base);
      assert x.list[0..base] == x.list[..base];
      assert x.list[base..base] == [];
    } else if r.plan.applied != [] {
      assert r.plan.applied[0].version == db.rows[0].version;
      assert Recorded(db.rows, r.plan.applied[0].version);
    }
  }

  /** A migration that is already recorded cannot run again: its batch cannot insert its row twice. */
  lemma RecordedBatchFails<S>(x: Setting<S>, db: Database<S>, k: nat)
    requires Matches(x.list, db.rows) && k < |x.list|
    ensures k < |db.rows| ==> RunMigration(x, db, x.list[k]) == Err(BatchFailed)
  {
    if k < |db.rows| {
      assert db.rows[k].version == x.list[k].version;
    }
  }

  /** A migration whose batch succeeds is the next one after the recorded rows, and nothing adopted was left out. */
  lemma OnlyTheNextRuns<S(!new)>(x: Setting<S>, schema: S, base: nat, db: Database<S>, ran: seq<int>, r: Runner)
    requires Listed(x.list) && Recovers(x, schema, base, db, ran) && Fits(x, base, db.rows, r)
    requires r.bootstrapped && r.adopted && !Finished(r) && Advance(x, db, r).Ok?
    ensures |r.plan.applied| + r.next == |db.rows| < |x.list| && base <= |db.rows|
    ensures r.plan.pending[r.next] == x.list[|db.rows|]
  {
    var k := |r.plan.applied| + r.next;
    assert r.plan.pending[r.next] == x.list[k];
    RecordedBatchFails(x, db, k);
  }

  lemma OneMoreRecovers<S(!new)>(x: Setting<S>, schema: S, base: nat, db: Database<S>, ran: seq<int>, after: S)
    requires Listed(x.list) && Recovers(x, schema, base, db, ran) && db.hasLedger
    requires base <= |db.rows| < |x.list| && x.run(db.schema, x.list[|db.rows|]) == Some(after)
    ensures Recovers(x, schema, base, db.(rows := db.rows + [RecordOf(x.list[|db.rows|], false)], schema := after),
                     ran + [x.list[|db.rows|].version])
  {
    OneMoreMatches(x.list, db.rows);
    OneMoreRan(ran, base, |db.rows|);
    RunOneMore(x, schema, base, |db.rows|);
    if db.rows == [] { assert x.list[base..|db.rows|] == []; }
  }

  lemma OneMoreMatches(list: seq<Migration>, rows: seq<Record>)
    requires Matches(list, rows) && |rows| < |list|
    ensures Matches(list, rows + [RecordOf(list[|rows|], false)])
  {
  }

  lemma OneMoreRan(ran: seq<int>, base: nat, k: nat)
    requires |ran| == k - base && forall i :: 0 <= i < |ran| ==> ran[i] == base + i + 1
    ensures var more := ran + [k + 1]; forall i :: 0 <= i < |more| ==> more[i] == base + i + 1
  {
  }

  /** What the batch of the next migration does: its statements, and one row at the end. */
  lemma NextMigrationRuns<S(!new)>(x: Setting<S>, schema: S, base: nat, db: Database<S>, ran: seq<int>, r: Runner)
    requires Listed(x.list) && Recovers(x, schema, base, db, ran) && Fits(x, base, db.rows, r)
    requires r.bootstrapped && r.adopted && !Finished(r) && Advance(x, db, r).Ok?
    ensures var m := r.plan.pending[r.next];
            && x.run(db.schema, m).Some?
            && Advance(x, db, r) == Ok((db.(rows := db.rows + [RecordOf(m, false)],
                                            schema := x.run(db.schema, m).value),
                                        r.(next := r.next + 1)))
  {
    OnlyTheNextRuns(x, schema, base, db, ran, r);
    AppendRow(db.rows, RecordOf(x.list[|db.rows|], false));
  }

  lemma MigrationRecovers<S(!new)>(x: Setting<S>, schema: S, base: nat, db: Database<S>, ran: seq<int>, r: Runner)
    requires Listed(x.list) && Recovers(x, schema, base, db, ran) && Fits(x, base, db.rows, r)
    requires r.bootstrapped && r.adopted && db.hasLedger && !Finished(r) && Advance(x, db, r).Ok?
    ensures var (n, s) := Advance(x, db, r).value;
            Recovers(x, schema, base, n, ran + [r.plan.pending[r.next].version]) && Fits(x, base, n.rows, s)
            && |n.rows| >= |db.rows| && s.next == r.next + 1
  {
    OnlyTheNextRuns(x, schema, base, db, ran, r);
    NextMigrationRuns(x, schema, base, db, ran, r);
    OneMoreRecovers(x, schema, base, db, ran, x.run(db.schema, x.list[|db.rows|]).value);
  }

  lemma {:induction false} RunOneMore<S>(x: Setting<S>, schema: S, base: nat, k: nat)
    requires base <= k < |x.list|
    ensures RunAll(x, schema, x.list[base..k + 1])
            == match RunAll(x, schema, x.list[base..k]) case None => None case Some(s) => x.run(s, x.list[k])
  {
    var more := x.list[base..k + 1];
    assert more[..|more| - 1] == x.list[base..k];
    assert more[|more| - 1] == x.list[k];
  }

  lemma AdvanceRecovers<S(!new)>(x: Setting<S>, schema: S, base: nat, db: Database<S>, ran: seq<int>, r: Runner)
    requires Listed(x.list) && Recovers(x, schema, base, db, ran) && Fits(x, base, db.rows, r)
             && (r.bootstrapped ==> db.hasLedger)
    requires !Finished(r) && Advance(x, db, r).Ok?
    ensures var (n, s) := Advance(x, db, r).value;
            && Recovers(x, schema, base, n, RanAfter(ran, r, s)) && Fits(x, base, n.rows, s)
                && (s.bootstrapped ==> n.hasLedger)
            && |n.rows| >= |db.rows| && (db.hasLedger ==> n.hasLedger)
  {
    if r.bootstrapped && r.adopted {
      MigrationRecovers(x, schema, base, db, ran, r);
    } else if r.bootstrapped {
      AdoptionRecovers(x, schema, base, db, ran, r);
    }
  }

  lemma PastGrows<S(!new)>(x: Setting<S>, schema: S, base: nat, w: World<S>, v: World<S>)
    requires Sound(x, schema, base, w) && v.past == w.past + [w.db] && |v.db.rows| >= |w.db.rows|
    ensures forall i :: 0 <= i < |v.past| ==> Was(x, schema, v.past[i], v.db.rows)
  {
    forall i | 0 <= i < |v.past| ensures Was(x, schema, v.past[i], v.db.rows) {
      assert i < |w.past| ==> Was(x, schema, w.past[i], w.db.rows);
    }
  }

  lemma OthersStillFit<S(!new)>(x: Setting<S>, schema: S, base: nat, w: World<S>, v: World<S>, i: nat)
    requires Sound(x, schema, base, w) && i < |w.runners| == |v.runners| && v.runners == w.runners[i := v.runners[i]]
    requires |v.db.rows| >= |w.db.rows| && (w.db.hasLedger ==> v.db.hasLedger)
    requires Fits(x, base, v.db.rows, v.runners[i]) && (v.runners[i].bootstrapped ==> v.db.hasLedger)
    ensures forall j :: 0 <= j < |v.runners| ==>
              Fits(x, base, v.db.rows, v.runners[j]) && (v.runners[j].bootstrapped ==> v.db.hasLedger)
  {
    forall j | 0 <= j < |v.runners|
      ensures Fits(x, base, v.db.rows, v.runners[j]) && (v.runners[j].bootstrapped ==> v.db.hasLedger)
    {
      if j != i {
        assert Fits(x, base, w.db.rows, w.runners[j]);
      }
    }
  }

  lemma ProceedRecovers<S(!new)>(x: Setting<S>, schema: S, base: nat, w: World<S>, i: nat)
    requires Listed(x.list) && Sound(x, schema, base, w) && i < |w.runners|
    ensures Sound(x, schema, base, Next(x, w, Proceed(i)))
  {
    var r := w.runners[i];
    assert Fits(x, base, w.db.rows, r);
    if !Finished(r) && Advance(x, w.db, r).Ok? {
      AdvanceRecovers(x, schema, base, w.db, w.ran, r);
      var v := Next(x, w, Proceed(i));
      PastGrows(x, schema, base, w, v);
      OthersStillFit(x, schema, base, w, v, i);
    }
  }

  lemma StepRecovers<S(!new)>(x: Setting<S>, schema: S, base: nat, w: World<S>, step: Step)
    requires Listed(x.list) && Base(x, schema) == Ok(base) && Sound(x, schema, base, w)
    ensures Sound(x, schema, base, Next(x, w, step))
  {
    match step
    case Start(queries, hasExport) =>
      if PlanFrom(x, SeenBy(w, queries)).Ok? {
        PlanFits(x, schema, base, w, queries, hasExport);
      }
    case Proceed(i) =>
      if i < |w.runners| {
        ProceedRecovers(x, schema, base, w, i);
      }
  }

  function Play<S>(x: Setting<S>, w: World<S>, steps: seq<Step>): World<S>
    decreases |steps|
  {
    if steps == [] then w
    else
      var before := Play(x, w, steps[..|steps| - 1]);
      if forall i :: 0 <= i < |before.runners| ==> before.runners[i].next <= |before.runners[i].plan.pending| then
        Next(x, before, steps[|steps| - 1])
      else before
  }

  function Untouched<S>(hasLedger: bool, schema: S): World<S> {
    World(Database(hasLedger, [], schema), [], [], [])
  }

  /**
   Whatever the runners do, wherever they are stopped, and whatever happens between the queries of a plan: no recorded
   or adopted migration runs again, every
   other one runs once and in order, and the database is always one an uninterrupted run passes through.
   */
  lemma {:induction false} EveryRunRecovers<S(!new)>(x: Setting<S>, hasLedger: bool, schema: S, base: nat,
      steps: seq<Step>)
    requires Listed(x.list) && Base(x, schema) == Ok(base)
    ensures Sound(x, schema, base, Play(x, Untouched(hasLedger, schema), steps))
    decreases |steps|
  {
    if steps != [] {
      EveryRunRecovers(x, hasLedger, schema, base, steps[..|steps| - 1]);
      StepRecovers(x, schema, base, Play(x, Untouched(hasLedger, schema), steps[..|steps| - 1]), steps[|steps| - 1]);
    }
  }

  /** A finished run has recorded the whole list and holds the schema of an uninterrupted run. */
  lemma {:induction false} FinishedIsComplete<S(!new)>(x: Setting<S>, schema: S, base: nat, w: World<S>, i: nat)
    requires Listed(x.list) && Sound(x, schema, base, w) && i < |w.runners| && Finished(w.runners[i])
    ensures |w.db.rows| == |x.list| && Matches(x.list, w.db.rows)
    ensures Some(w.db.schema) == RunAll(x, schema, x.list[base..])
    ensures |w.ran| == |x.list| - base && forall k :: 0 <= k < |w.ran| ==> w.ran[k] == base + k + 1
  {
    assert Fits(x, base, w.db.rows, w.runners[i]);
    assert x.list[base..|x.list|] == x.list[base..];
  }

  /** After a finished run there is nothing left to do. */
  lemma FurtherRunDoesNothing<S(!new)>(x: Setting<S>, db: Database<S>, hasExport: bool)
    requires Listed(x.list) && x.list != [] && Matches(x.list, db.rows) && |db.rows| == |x.list| && db.hasLedger
    ensures PlanFor(x, db) == Ok(Plan(|x.list|, false, db.rows, []))
    ensures var r := Started(PlanFor(x, db).value, hasExport);
            !Finished(r) && Advance(x, db, r) == Ok((db, r.(bootstrapped := true)))
                && Finished(r.(bootstrapped := true))
  {
    PrefixDecides(x.list, db.rows, false);
  }

  lemma FinishedPlan<S(!new)>(x: Setting<S>, schema: S, base: nat, db: Database<S>, ran: seq<int>, r: Runner)
    requires Listed(x.list) && Recovers(x, schema, base, db, ran) && Fits(x, base, db.rows, r) && Finished(r)
             && db.hasLedger
    ensures |db.rows| == |x.list|
    ensures x.list != [] ==> PlanFor(x, db) == Ok(Plan(|x.list|, false, db.rows, []))
  {
    if x.list != [] {
      FurtherRunDoesNothing(x, db, r.hasExport);
    }
  }

  // ---------- one run, as the repository performs it ----------

  ghost predicate OnTrack<S(!new)>(x: Setting<S>, schema: S, base: nat, db: Database<S>, ran: seq<int>, r: Runner) {
    Recovers(x, schema, base, db, ran) && Fits(x, base, db.rows, r) && (r.bootstrapped ==> db.hasLedger)
  }

  /** The batches a runner has still to run. */
  function BatchesLeft(r: Runner): int {
    (if r.bootstrapped then 0 else 1) + (if r.adopted then 0 else 1) + |r.plan.pending| - r.next
  }

  lemma AdvanceStaysOnTrack<S(!new)>(x: Setting<S>, schema: S, base: nat, db: Database<S>, ran: seq<int>, r: Runner)
    requires Listed(x.list) && OnTrack(x, schema, base, db, ran, r) && !Finished(r) && Advance(x, db, r).Ok?
    ensures var (n, s) := Advance(x, db, r).value;
            OnTrack(x, schema, base, n, RanAfter(ran, r, s), s) && 0 <= BatchesLeft(s) < BatchesLeft(r)
  {
    AdvanceRecovers(x, schema, base, db, ran, r);
    AdvanceTakesOne(x, db, r);
  }

  lemma AdvanceTakesOne<S(!new)>(x: Setting<S>, db: Database<S>, r: Runner)
    requires !Finished(r) && r.next <= |r.plan.pending| && Advance(x, db, r).Ok?
    ensures BatchesLeft(Advance(x, db, r).value.1) == BatchesLeft(r) - 1
  {
  }

  /** The migration asks for a project export that is not there. */
  predicate LacksExport(m: Migration, hasExport: bool) {
    (m.destructive || m.requiresProjectExport) && !hasExport
  }

  /** The first `n` pending migrations have run on what was there, each with its record, and nothing else changed. */
  ghost predicate HasRun<S>(x: Setting<S>, was: Database<S>, plan: Plan, hasExport: bool, db: Database<S>, n: nat) {
    && n <= |plan.pending| && (forall i :: 0 <= i < n ==> !LacksExport(plan.pending[i], hasExport))
    && RunAll(x, was.schema, plan.pending[..n]) == Some(db.schema)
    && db.rows == plan.applied + RecordsOf(plan.pending[..n], false)
  }

  /** How far a call has come, and why no further. */
  ghost predicate Ends<S>(x: Setting<S>, was: Database<S>, plan: Plan, hasExport: bool, db: Database<S>, n: nat,
                          r: Result<Plan, Refusal>) {
    && HasRun(x, was, plan, hasExport, db, n) && db.hasLedger
    && if n == |plan.pending| then r == PlanFor(x, db)
       else if LacksExport(plan.pending[n], hasExport) then r == Err(ProjectExportRequired(plan.pending[n].version))
       else x.run(db.schema, plan.pending[n]).None? && r == Err(BatchFailed)
  }

  /** Where a runner of this call stands. */
  ghost predicate Stands<S(!new)>(x: Setting<S>, was: Database<S>, plan: Plan, hasExport: bool, db: Database<S>,
                                  r: Runner) {
    && r.plan == plan && r.hasExport == hasExport
    && (r.bootstrapped ==> db.hasLedger)
    && if r.adopted then HasRun(x, was, plan, hasExport, db, r.next)
       else r.next == 0 && db.rows == was.rows == [] && db.schema == was.schema
  }

  lemma StartStands<S(!new)>(x: Setting<S>, was: Database<S>, plan: Plan, hasExport: bool)
    requires PlanFor(x, was) == Ok(plan) && (was.rows != [] ==> was.hasLedger)
    ensures Stands(x, was, plan, hasExport, was, Started(plan, hasExport))
  {
    assert plan.pending[..0] == [];
  }

  lemma AdoptionStands<S(!new)>(x: Setting<S>, schema: S, base: nat, was: Database<S>, plan: Plan, hasExport: bool,
                                db: Database<S>, ran: seq<int>, r: Runner)
    requires Listed(x.list) && OnTrack(x, schema, base, db, ran, r) && Stands(x, was, plan, hasExport, db, r)
    requires r.bootstrapped && !r.adopted
    ensures Advance(x, db, r).Ok?
    ensures var (n, s) := Advance(x, db, r).value; Stands(x, was, plan, hasExport, n, s)
  {
    AdoptIntoEmpty(x.list, [], |plan.applied|);
    assert x.list[0..|plan.applied|] == x.list[..|plan.applied|];
    assert plan.pending[..0] == [];
  }

  lemma OneMoreHasRun<S(!new)>(x: Setting<S>, was: Database<S>, plan: Plan, hasExport: bool, db: Database<S>,
                               next: Database<S>, k: nat)
    requires HasRun(x, was, plan, hasExport, db, k) && k < |plan.pending| && !LacksExport(plan.pending[k], hasExport)
    requires x.run(db.schema, plan.pending[k]) == Some(next.schema)
    requires next.rows == db.rows + [RecordOf(plan.pending[k], false)]
    ensures HasRun(x, was, plan, hasExport, next, k + 1)
  {
    assert plan.pending[..k + 1][..k] == plan.pending[..k];
    assert RecordsOf(plan.pending[..k + 1], false)
           == RecordsOf(plan.pending[..k], false) + [RecordOf(plan.pending[k], false)];
  }

  lemma MigrationStands<S(!new)>(x: Setting<S>, schema: S, base: nat, was: Database<S>, plan: Plan, hasExport: bool,
                                 db: Database<S>, ran: seq<int>, r: Runner)
    requires Listed(x.list) && OnTrack(x, schema, base, db, ran, r) && Stands(x, was, plan, hasExport, db, r)
    requires r.bootstrapped && r.adopted && !Finished(r)
    ensures var step := Advance(x, db, r);
            if step.Ok? then Stands(x, was, plan, hasExport, step.value.0, step.value.1)
            else Ends(x, was, plan, hasExport, db, r.next, Err(step.error))
  {
    assert |db.rows| == |plan.applied| + r.next;
    assert plan.pending[r.next] == x.list[|db.rows|];
    if Advance(x, db, r).Ok? {
      NextMigrationRuns(x, schema, base, db, ran, r);
      OneMoreHasRun(x, was, plan, hasExport, db, Advance(x, db, r).value.0, r.next);
    } else {
      NotRecordedYet(x, db, |db.rows|);
    }
  }

  lemma StepStands<S(!new)>(x: Setting<S>, schema: S, base: nat, was: Database<S>, plan: Plan, hasExport: bool,
                            db: Database<S>, ran: seq<int>, r: Runner)
    requires Listed(x.list) && OnTrack(x, schema, base, db, ran, r) && Stands(x, was, plan, hasExport, db, r)
    requires !Finished(r)
    ensures var step := Advance(x, db, r);
            if step.Ok? then Stands(x, was, plan, hasExport, step.value.0, step.value.1)
            else Ends(x, was, plan, hasExport, db, r.next, Err(step.error))
  {
    if r.bootstrapped && r.adopted {
      MigrationStands(x, schema, base, was, plan, hasExport, db, ran, r);
    } else if r.bootstrapped {
      AdoptionStands(x, schema, base, was, plan, hasExport, db, ran, r);
    }
  }

  /** A pending migration lacks its export, and everything before it runs. */
  ghost predicate IsHeldUp<S>(x: Setting<S>, was: Database<S>, plan: Plan, hasExport: bool, k: nat) {
    && k < |plan.pending| && LacksExport(plan.pending[k], hasExport)
    && (forall i :: 0 <= i < k ==> !LacksExport(plan.pending[i], hasExport))
    && RunAll(x, was.schema, plan.pending[..k]).Some?
  }

  lemma {:induction false} FailureStays<S>(x: Setting<S>, schema: S, ms: seq<Migration>, n: nat, k: nat)
    requires n <= k <= |ms| && RunAll(x, schema, ms[..n]).None?
    ensures RunAll(x, schema, ms[..k]).None?
  {
    if n < k {
      FailureStays(x, schema, ms, n, k - 1);
      assert ms[..k][..k - 1] == ms[..k - 1];
    }
  }

  /** A call ends for want of an export exactly if one is not given and a migration that needs it comes up. */
  lemma {:induction false} HeldUpIff<S>(x: Setting<S>, was: Database<S>, plan: Plan, hasExport: bool, db: Database<S>,
                                        n: nat, r: Result<Plan, Refusal>)
    requires Ends(x, was, plan, hasExport, db, n, r)
    ensures n < |plan.pending| && LacksExport(plan.pending[n], hasExport) <==>
              exists k :: IsHeldUp(x, was, plan, hasExport, k)
  {
    if n < |plan.pending| && LacksExport(plan.pending[n], hasExport) {
      assert IsHeldUp(x, was, plan, hasExport, n);
    }
    if n < |plan.pending| && !LacksExport(plan.pending[n], hasExport) {
      assert plan.pending[..n + 1][..n] == plan.pending[..n];
      assert RunAll(x, was.schema, plan.pending[..n + 1]).None?;
      forall k: nat | n < k <= |plan.pending| ensures RunAll(x, was.schema, plan.pending[..k]).None? {
        FailureStays(x, was.schema, plan.pending, n + 1, k);
      }
    }
  }

  lemma NotRecordedYet<S>(x: Setting<S>, db: Database<S>, k: nat)
    requires Listed(x.list) && Matches(x.list, db.rows) && |db.rows| <= k < |x.list|
    ensures !Recorded(db.rows, x.list[k].version)
  {
  }

  class Migrator<S(!new)> {
    const x: Setting<S>
    var db: Database<S>

    constructor (x: Setting<S>, db: Database<S>)
      ensures this.x == x && this.db == db
    {
      this.x := x;
      this.db := db;
    }

    /**
     Plan, then bootstrap, adopt and run what is pending. An error leaves the database where a later run can
     go on; success leaves the whole list recorded.
     */
    method Apply(dryRun: bool, hasExport: bool, ghost schema: S, ghost base: nat, ghost ran: seq<int>)
      returns (r: Result<Plan, Refusal>, ghost after: seq<int>)
      requires Listed(x.list) && Base(x, schema) == Ok(base) && Recovers(x, schema, base, db, ran)
      modifies this`db
      ensures Recovers(x, schema, base, db, after)
      ensures dryRun ==> db == old(db) && r == PlanFor(x, db)
      ensures r.Ok? && !dryRun ==> |db.rows| == |x.list| && r == PlanFor(x, db)
      ensures r.Ok? && !dryRun && x.list != [] ==> r == Ok(Plan(|x.list|, false, db.rows, []))
      ensures PlanFor(x, old(db)).Err? ==> db == old(db) && r == PlanFor(x, old(db))
      ensures PlanFor(x, old(db)).Ok? && !dryRun ==>
                exists n :: Ends(x, old(db), PlanFor(x, old(db)).value, hasExport, db, n, r)
      ensures PlanFor(x, old(db)).Ok? && !dryRun && x.list != [] ==>
                ((exists k :: IsHeldUp(x, old(db), PlanFor(x, old(db)).value, hasExport, k)) <==>
                 r.Err? && r.error.ProjectExportRequired?)
    {
      after := ran;
      var plan := PlanFor(x, db);
      if plan.Err? || dryRun {
        return plan, after;
      }
      PlanFits(x, schema, base, World(db, [], [], ran), Queries(0, 0, 0, 0, 0), hasExport);
      StartStands(x, db, plan.value, hasExport);
      ghost var was, n := db, 0;
      r, n, after := RunPlan(plan.value, hasExport, schema, base, ran, was);
      HeldUpIff(x, was, plan.value, hasExport, db, n, r);
    }

    /** The batches of a plan, one after another, up to the first that cannot run. */
    method RunPlan(plan: Plan, hasExport: bool, ghost schema: S, ghost base: nat, ghost ran: seq<int>,
                   ghost was: Database<S>)
      returns (r: Result<Plan, Refusal>, ghost n: nat, ghost after: seq<int>)
      requires Listed(x.list) && Base(x, schema) == Ok(base)
      requires OnTrack(x, schema, base, db, ran, Started(plan, hasExport))
      requires Stands(x, was, plan, hasExport, db, Started(plan, hasExport))
      modifies this`db
      ensures Recovers(x, schema, base, db, after) && Ends(x, was, plan, hasExport, db, n, r)
      ensures n == |plan.pending| ==> |db.rows| == |x.list|
      ensures n == |plan.pending| && x.list != [] ==> r == Ok(Plan(|x.list|, false, db.rows, []))
    {
      after := ran;
      var runner := Started(plan, hasExport);
      while !Finished(runner)
        invariant OnTrack(x, schema, base, db, after, runner) && Stands(x, was, plan, hasExport, db, runner)
        decreases BatchesLeft(runner)
      {
        StepStands(x, schema, base, was, plan, hasExport, db, after, runner);
        var step := Advance(x, db, runner);
        if step.Err? {
          return Err(step.error), runner.next, after;
        }
        AdvanceStaysOnTrack(x, schema, base, db, after, runner);
        after := RanAfter(after, runner, step.value.1);
        db, runner := step.value.0, step.value.1;
      }
      FinishedPlan(x, schema, base, db, after, runner);
      r, n := PlanFor(x, db), runner.next;
    }
  }
}
