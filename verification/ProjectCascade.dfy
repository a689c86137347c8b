/**
 The rows that hang from a project, the foreign keys that tie them to it, and the deletes that run through
 them: a project purge, and the sweep of one runbook under a purge lease. A cascade is modelled as the
 database runs it, one level of referencing rows after another, with the append-only triggers asked about
 every row that goes.
 */
module ProjectCascade {
  import opened Results

  datatype Table =
    | States | Events | Presence | ShareLinks | Notifications
    | Runbooks | Tasks | Transitions | Ledger | Receipts
    | Occupancy | Incidents | Deviations | Reviews
    | Outbox

  /** A primary key, of one column or of two. */
  datatype Key = One(id: string) | Two(owner: string, id: string)

  datatype RowId = RowId(table: Table, key: Key)

  /** The columns the cascade looks at. A column that a table does not have holds the empty string. */
  datatype Row = Row(projectId: string, organizationId: string, runbookId: string, parentId: string,
                     updatedAt: int, content: string)

  datatype Project = Project(organizationId: string, revision: int, deletedAt: Option<int>, recoveryUntil: Option<int>)

  datatype Lease = Lease(organizationId: string, projectId: string, issuedAt: int)

  datatype Store = Store(projects: map<string, Project>, rows: map<RowId, Row>, leases: map<string, Lease>)

  datatype Abort = ForeignKey | NotUnique | AppendOnlyRow

  // ---------- foreign keys ----------

  /** The fourteen tables whose rows the purge counts, in its order. */
  const CASCADE_TABLES: seq<Table> :=
    [States, Events, Presence, ShareLinks, Notifications, Runbooks, Tasks, Transitions, Ledger, Receipts,
     Occupancy, Incidents, Deviations, Reviews]

  /** Tables whose rows reference the project row itself. */
  predicate IsTop(t: Table) {
    t.States? || t.Events? || t.Presence? || t.ShareLinks? || t.Notifications? || t.Runbooks?
  }

  predicate InRunbook(t: Table) {
    t.Runbooks? || t.Tasks? || t.Transitions? || t.Ledger? || t.Receipts?
    || t.Occupancy? || t.Incidents? || t.Deviations? || t.Reviews?
  }

  predicate AppendOnly(t: Table) {
    t.Transitions? || t.Ledger? || t.Receipts?
  }

  function KeyOf(t: Table, id: string, row: Row): Key {
    match t
    case States => One(row.projectId)
    case Presence => Two(row.projectId, id)
    case Runbooks => One(row.runbookId)
    case Tasks => Two(row.runbookId, id)
    case _ => One(id)
  }

  function Parent(t: Table, row: Row): RowId
    requires !IsTop(t)
  {
    match t
    case Transitions => RowId(Tasks, Two(row.runbookId, row.parentId))
    case Ledger => RowId(Transitions, One(row.parentId))
    case Receipts => RowId(Transitions, One(row.parentId))
    case Outbox => RowId(Notifications, One(row.parentId))
    case _ => RowId(Runbooks, One(row.runbookId))
  }

  /** The remaining columns of a composite foreign key. */
  predicate ColumnsAgree(t: Table, child: Row, parent: Row) {
    t.Outbox?
    || (child.projectId == parent.projectId && child.organizationId == parent.organizationId
        && child.runbookId == parent.runbookId)
  }

  predicate Refers(s: Store, t: Table, row: Row) {
    if IsTop(t) then
      row.projectId in s.projects && (t.Runbooks? ==> s.projects[row.projectId].organizationId == row.organizationId)
    else Parent(t, row) in s.rows && ColumnsAgree(t, row, s.rows[Parent(t, row)])
  }

  predicate RowKept(s: Store, id: RowId)
    requires id in s.rows
  {
    Refers(s, id.table, s.rows[id]) && id.key == KeyOf(id.table, id.key.id, s.rows[id])
  }

  ghost predicate Kept(s: Store) {
    forall id {:trigger RowKept(s, id)} :: id in s.rows ==> RowKept(s, id)
  }

  // ---------- deletes ----------

  /** The rows that reference a row of `doomed`. */
  function Referring(rows: map<RowId, Row>, doomed: set<RowId>): set<RowId> {
    set id | id in rows && !IsTop(id.table) && Parent(id.table, rows[id]) in doomed
        && Parent(id.table, rows[id]) in rows
             && ColumnsAgree(id.table, rows[id], rows[Parent(id.table, rows[id])])
  }

  function Doomed(rows: map<RowId, Row>, first: set<RowId>, levels: nat): set<RowId> {
    if levels == 0 then first
    else Doomed(rows, first, levels - 1) + Referring(rows, Doomed(rows, first, levels - 1))
  }

  /** What the three delete triggers ask: the project still exists and no lease covers the runbook. */
  predicate Protected(s: Store, row: Row) {
    row.projectId in s.projects
    && !(row.runbookId in s.leases && s.leases[row.runbookId].organizationId == row.organizationId
         && s.leases[row.runbookId].projectId == row.projectId)
  }

  function DeleteRows(s: Store, first: set<RowId>): Result<Store, Abort> {
    var doomed := Doomed(s.rows, first, 3);
    if exists id :: id in doomed && id in s.rows && AppendOnly(id.table) && Protected(s, s.rows[id])
        then Err(AppendOnlyRow)
    else Ok(s.(rows := s.rows - doomed))
  }

  function TopRows(s: Store, projectId: string): set<RowId> {
    set id | id in s.rows && IsTop(id.table) && s.rows[id].projectId == projectId
  }

  /** The project's own row goes first; the cascade and its triggers run after it. */
  function DeleteProject(s: Store, projectId: string): Result<Store, Abort> {
    DeleteRows(s.(projects := s.projects - {projectId}), TopRows(s, projectId))
  }

  function RunbookRow(s: Store, runbookId: string, organizationId: string, projectId: string): set<RowId> {
    var id := RowId(Runbooks, One(runbookId));
    if id in s.rows && s.rows[id].organizationId == organizationId && s.rows[id].projectId == projectId then {id}
        else {}
  }

  /** Lease, delete, end of lease: the sweep's batch for one runbook. */
  function SweepRunbook(s: Store, runbookId: string, organizationId: string, projectId: string,
                        issuedAt: int): Result<Store, Abort> {
    if runbookId in s.leases then Err(NotUnique)
    else
      match DeleteRows(s.(leases := s.leases[runbookId := Lease(organizationId, projectId, issuedAt)]),
                       RunbookRow(s, runbookId, organizationId, projectId))
      case Err(e) => Err(e)
      case Ok(n) =>
        Ok(n.(leases := map r | r in n.leases && !(r == runbookId && n.leases[r].organizationId == organizationId) ::
              n.leases[r]))
  }

  // ---------- steps ----------

  /** One batch of the Worker, or one statement of an operation that runs statements singly. */
  datatype Step =
    | CreateProject(projectId: string, organizationId: string, deletedAt: Option<int>, recoveryUntil: Option<int>)
    | ReviseProject(projectId: string, deletedAt: Option<int>, recoveryUntil: Option<int>)
    | Insert(table: Table, id: string, row: Row)
    | Rewrite(target: RowId, updatedAt: int, content: string)
    | Delete(target: RowId)
    | Purge(projectId: string, organizationId: string, requestedAt: int)
    | Sweep(runbookId: string, organizationId: string, projectId: string, issuedAt: int)
    | ExpireLeases(before: int)

  function Execute(s: Store, step: Step): Result<Store, Abort> {
    match step
    case CreateProject(p, o, d, u) =>
      if p in s.projects then Err(NotUnique) else Ok(s.(projects := s.projects[p := Project(o, 1, d, u)]))
    case ReviseProject(p, d, u) =>
      if p !in s.projects then Ok(s)
      else
        var project := s.projects[p];
        Ok(s.(projects := s.projects[p := Project(project.organizationId, project.revision + 1, d, u)]))
    case Insert(t, id, row) =>
      if RowId(t, KeyOf(t, id, row)) in s.rows then Err(NotUnique)
      else if !Refers(s, t, row) then Err(ForeignKey)
      else Ok(s.(rows := s.rows[RowId(t, KeyOf(t, id, row)) := row]))
    case Rewrite(target, at, content) =>
      if target !in s.rows then Ok(s)
      else if AppendOnly(target.table) then Err(AppendOnlyRow)
      else Ok(s.(rows := s.rows[target := s.rows[target].(updatedAt := at, content := content)]))
    case Delete(target) => DeleteRows(s, if target in s.rows then {target} else {})
    case Purge(p, o, at) =>
      if p in s.projects && s.projects[p].organizationId == o && s.projects[p].deletedAt == Some(at)
          then DeleteProject(s, p)
      else Ok(s)
    case Sweep(r, o, p, at) => SweepRunbook(s, r, o, p, at)
    case ExpireLeases(before) => Ok(s.(leases := map r | r in s.leases && s.leases[r].issuedAt >= before ::
                                       s.leases[r]))
  }

  function After(s: Store, step: Step): Store {
    var r := Execute(s, step);
    if r.Ok? then r.value else s
  }

  function Play(s: Store, steps: seq<Step>): Store {
    if steps == [] then s else After(Play(s, steps[..|steps| - 1]), steps[|steps| - 1])
  }

  /** A purge without its evidence finds nothing to delete, and a runbook under a lease is not leased again. */
  lemma NothingWithoutEvidence(s: Store, p: string, o: string, at: int, r: string)
    ensures !(p in s.projects && s.projects[p].organizationId == o && s.projects[p].deletedAt == Some(at)) ==>
              Execute(s, Purge(p, o, at)) == Ok(s)
    ensures r in s.leases ==> Execute(s, Sweep(r, o, p, at)) == Err(NotUnique)
  {
  }

  ghost predicate IsUnder(s: Store, parent: RowId, row: Row) {
    parent in s.rows && s.rows[parent].projectId == row.projectId && s.rows[parent].organizationId == row.organizationId
    && s.rows[parent].runbookId == row.runbookId
  }

  /** A row can be stored exactly if its key is free and the row it refers to is there, with its columns. */
  lemma EvidenceIsStoredIff(s: Store, id: string, row: Row)
    ensures Execute(s, Insert(Tasks, id, row))
            == if RowId(Tasks, Two(row.runbookId, id)) in s.rows then Err(NotUnique)
               else if !IsUnder(s, RowId(Runbooks, One(row.runbookId)), row) then Err(ForeignKey)
               else Ok(s.(rows := s.rows[RowId(Tasks, Two(row.runbookId, id)) := row]))
    ensures Execute(s, Insert(Transitions, id, row))
            == if RowId(Transitions, One(id)) in s.rows then Err(NotUnique)
               else if !IsUnder(s, RowId(Tasks, Two(row.runbookId, row.parentId)), row) then Err(ForeignKey)
               else Ok(s.(rows := s.rows[RowId(Transitions, One(id)) := row]))
    ensures Execute(s, Insert(Ledger, id, row))
            == if RowId(Ledger, One(id)) in s.rows then Err(NotUnique)
               else if !IsUnder(s, RowId(Transitions, One(row.parentId)), row) then Err(ForeignKey)
               else Ok(s.(rows := s.rows[RowId(Ledger, One(id)) := row]))
    ensures Execute(s, Insert(Receipts, id, row))
            == if RowId(Receipts, One(id)) in s.rows then Err(NotUnique)
               else if !IsUnder(s, RowId(Transitions, One(row.parentId)), row) then Err(ForeignKey)
               else Ok(s.(rows := s.rows[RowId(Receipts, One(id)) := row]))
  {
  }

  // ---------- a cascade reaches exactly what it owns ----------

  function Depth(t: Table): nat {
    if IsTop(t) then 0 else if t.Transitions? then 2 else if t.Ledger? || t.Receipts? then 3 else 1
  }

  /** `owned` holds a row below the top exactly when it holds the row that it references. */
  ghost predicate ClosedUnderParent(rows: map<RowId, Row>, owned: set<RowId>) {
    && owned <= rows.Keys
    && forall id {:trigger Parent(id.table, rows[id])} :: id in rows && !IsTop(id.table) ==>
        (id in owned <==> Parent(id.table, rows[id]) in owned)
  }

  function Shallow(owned: set<RowId>, levels: nat): set<RowId> {
    set id | id in owned && Depth(id.table) <= levels
  }

  lemma ParentIsOneUp(t: Table, row: Row)
    requires !IsTop(t)
    ensures Depth(Parent(t, row).table) + 1 == Depth(t)
  {
  }

  lemma OneLevel(s: Store, owned: set<RowId>, levels: nat)
    requires Kept(s) && ClosedUnderParent(s.rows, owned)
    ensures Shallow(owned, levels) + Referring(s.rows, Shallow(owned, levels)) == Shallow(owned, levels + 1)
  {
    forall id | id in s.rows && !IsTop(id.table)
      ensures id in Referring(s.rows, Shallow(owned, levels)) <==> id in owned && Depth(id.table) <= levels + 1
    {
      ParentIsOneUp(id.table, s.rows[id]);
      assert RowKept(s, id);
    }
  }

  lemma {:induction false} CascadeReachesTheOwned(s: Store, first: set<RowId>, owned: set<RowId>, levels: nat)
    requires Kept(s) && ClosedUnderParent(s.rows, owned) && first == Shallow(owned, 0)
    ensures Doomed(s.rows, first, levels) == Shallow(owned, levels)
  {
    if levels > 0 {
      CascadeReachesTheOwned(s, first, owned, levels - 1);
      OneLevel(s, owned, levels - 1);
    }
  }

  // ---------- a purge removes one project's rows ----------

  /** The project a row belongs to; an outbox row belongs to its notification's project. */
  function Owner(s: Store, id: RowId): string
    requires id in s.rows
  {
    if id.table.Outbox? && Parent(Outbox, s.rows[id]) in s.rows then s.rows[Parent(Outbox, s.rows[id])].projectId
    else s.rows[id].projectId
  }

  function OwnedBy(s: Store, projectId: string): set<RowId> {
    set id | id in s.rows && Owner(s, id) == projectId
  }

  lemma RowsFollowTheirParent(s: Store, id: RowId)
    requires Kept(s) && id in s.rows && !IsTop(id.table)
    ensures Parent(id.table, s.rows[id]) in s.rows
    ensures Owner(s, id) == Owner(s, Parent(id.table, s.rows[id]))
  {
    assert RowKept(s, id);
    assert !Parent(id.table, s.rows[id]).table.Outbox?;
  }

  lemma OwnedIsClosed(s: Store, projectId: string)
    requires Kept(s)
    ensures ClosedUnderParent(s.rows, OwnedBy(s, projectId))
  {
    forall id | id in s.rows && !IsTop(id.table)
      ensures id in OwnedBy(s, projectId) <==> Parent(id.table, s.rows[id]) in OwnedBy(s, projectId)
    {
      RowsFollowTheirParent(s, id);
    }
  }

  lemma TopRowsAreTheShallowOnes(s: Store, projectId: string)
    ensures TopRows(s, projectId) == Shallow(OwnedBy(s, projectId), 0)
  {
    forall id | id in s.rows
        ensures id in TopRows(s, projectId) <==> id in OwnedBy(s, projectId) && Depth(id.table) == 0 {
      if IsTop(id.table) { assert !id.table.Outbox?; }
    }
  }

  /** Everything but the rows of one project, untouched. */
  ghost predicate OnlyLost(s: Store, n: Store, lost: set<RowId>) {
    && (forall id :: id in n.rows <==> id in s.rows && id !in lost)
    && (forall id :: id in n.rows ==> n.rows[id] == s.rows[id])
  }

  lemma DoomedIsTheProject(s: Store, projectId: string)
    requires Kept(s)
    ensures Doomed(s.rows, TopRows(s, projectId), 3) == OwnedBy(s, projectId)
  {
    OwnedIsClosed(s, projectId);
    TopRowsAreTheShallowOnes(s, projectId);
    CascadeReachesTheOwned(s, TopRows(s, projectId), OwnedBy(s, projectId), 3);
    assert Shallow(OwnedBy(s, projectId), 3) == OwnedBy(s, projectId);
  }

  /** With the project's row gone, none of the rows that follow it is protected. */
  lemma PurgeRemovesTheProject(s: Store, projectId: string)
    requires Kept(s)
    ensures DeleteProject(s, projectId).Ok?
    ensures OnlyLost(s, DeleteProject(s, projectId).value, OwnedBy(s, projectId))
    ensures DeleteProject(s, projectId).value.projects == s.projects - {projectId}
    ensures DeleteProject(s, projectId).value.leases == s.leases
  {
    var gone := s.(projects := s.projects - {projectId});
    var owned := OwnedBy(s, projectId);
    DoomedIsTheProject(s, projectId);
    forall id | id in owned && AppendOnly(id.table) ensures !Protected(gone, s.rows[id]) {
      assert Owner(s, id) == s.rows[id].projectId;
    }
    assert DeleteProject(s, projectId) == Ok(gone.(rows := s.rows - owned));
  }

  // ---------- the verification a purge writes in advance ----------

  datatype Counted = Rows(table: Table) | OutboxOrphans

  function CountRows(s: Store, t: Table, projectId: string): nat {
    |set id | id in s.rows && id.table == t && s.rows[id].projectId == projectId|
  }

  function CountOrphans(s: Store): nat {
    |set id | id in s.rows && id.table == Outbox && Parent(Outbox, s.rows[id]) !in s.rows|
  }

  function Names(): set<Counted> {
    (set t | t in CASCADE_TABLES :: Rows(t)) + {OutboxOrphans}
  }

  /** What the purge stores before it counts. */
  function PlannedVerification(): map<Counted, nat> {
    map c | c in Names() :: 0
  }

  function ObservedVerification(s: Store, projectId: string): map<Counted, nat> {
    map c | c in Names() :: if c.OutboxOrphans? then CountOrphans(s) else CountRows(s, c.table, projectId)
  }

  ghost predicate NothingOf(s: Store, projectId: string) {
    && projectId !in s.projects
    && forall id :: id in s.rows ==> Owner(s, id) != projectId
  }

  lemma KeptMeansNoOrphans(s: Store)
    requires Kept(s)
    ensures CountOrphans(s) == 0
  {
    forall id | id in s.rows && id.table == Outbox ensures Parent(Outbox, s.rows[id]) in s.rows {
      assert RowKept(s, id);
    }
    assert (set id | id in s.rows && id.table == Outbox && Parent(Outbox, s.rows[id]) !in s.rows) == {};
  }

  lemma NothingToCount(s: Store, t: Table, projectId: string)
    requires NothingOf(s, projectId) && !t.Outbox?
    ensures CountRows(s, t, projectId) == 0
  {
    forall id | id in s.rows && id.table == t ensures s.rows[id].projectId != projectId {
      assert Owner(s, id) == s.rows[id].projectId;
    }
    assert (set id | id in s.rows && id.table == t && s.rows[id].projectId == projectId) == {};
  }

  lemma KeptMeansNoRowsOf(s: Store, projectId: string)
    requires Kept(s) && NothingOf(s, projectId)
    ensures ObservedVerification(s, projectId) == PlannedVerification()
  {
    KeptMeansNoOrphans(s);
    forall t | t in CASCADE_TABLES ensures CountRows(s, t, projectId) == 0 {
      NothingToCount(s, t, projectId);
    }
  }

  ghost predicate HasNone(s: Store, t: Table, projectId: string) {
    forall id :: id in s.rows && id.table == t ==> s.rows[id].projectId != projectId
  }

  lemma CountIsZeroIff(s: Store, t: Table, projectId: string)
    ensures CountRows(s, t, projectId) == 0 <==> HasNone(s, t, projectId)
  {
    var counted := set id | id in s.rows && id.table == t && s.rows[id].projectId == projectId;
    assert |counted| == 0 <==> counted == {};
    assert forall id :: id in counted <==> id in s.rows && id.table == t && s.rows[id].projectId == projectId;
  }

  lemma OrphansAreZeroIff(s: Store)
    ensures CountOrphans(s) == 0 <==>
              forall id :: id in s.rows && id.table == Outbox ==> Parent(Outbox, s.rows[id]) in s.rows
  {
    var counted := set id | id in s.rows && id.table == Outbox && Parent(Outbox, s.rows[id]) !in s.rows;
    assert |counted| == 0 <==> counted == {};
    assert forall id :: id in counted <==> id in s.rows && id.table == Outbox && Parent(Outbox, s.rows[id]) !in s.rows;
  }

  lemma NamesAre(c: Counted)
    ensures c in Names() <==> c.OutboxOrphans? || c.table != Outbox
  {
  }

  lemma PlannedCounts(s: Store, projectId: string)
    requires ObservedVerification(s, projectId) == PlannedVerification()
    ensures CountOrphans(s) == 0 && forall t :: t != Outbox ==> CountRows(s, t, projectId) == 0
  {
    var observed := ObservedVerification(s, projectId);
    NamesAre(OutboxOrphans);
    assert observed[OutboxOrphans] == 0;
    forall t | t != Outbox ensures CountRows(s, t, projectId) == 0 {
      NamesAre(Rows(t));
      assert observed[Rows(t)] == 0;
    }
  }

  lemma ZeroCountsArePlanned(s: Store, projectId: string)
    requires CountOrphans(s) == 0 && forall t :: t != Outbox ==> CountRows(s, t, projectId) == 0
    ensures ObservedVerification(s, projectId) == PlannedVerification()
  {
    forall c | c in Names() ensures ObservedVerification(s, projectId)[c] == 0 {
      NamesAre(c);
    }
  }

  /**
   What is counted after a purge comes to the verification written before exactly if nothing of the project is left in
   any table, in any state whatever, and every outbox row has its notification.
   */
  lemma VerificationHoldsIff(s: Store, projectId: string)
    ensures ObservedVerification(s, projectId) == PlannedVerification() <==>
              && (forall id :: id in s.rows && id.table != Outbox ==> s.rows[id].projectId != projectId)
              && (forall id :: id in s.rows && id.table == Outbox ==> Parent(Outbox, s.rows[id]) in s.rows)
  {
    OrphansAreZeroIff(s);
    if ObservedVerification(s, projectId) == PlannedVerification() {
      PlannedCounts(s, projectId);
    }
    forall t ensures CountRows(s, t, projectId) == 0 <==> HasNone(s, t, projectId) {
      CountIsZeroIff(s, t, projectId);
    }
    assert (forall t :: t != Outbox ==> HasNone(s, t, projectId)) <==>
             forall id :: id in s.rows && id.table != Outbox ==> s.rows[id].projectId != projectId by {
      if forall t :: t != Outbox ==> HasNone(s, t, projectId) {
        forall id | id in s.rows && id.table != Outbox ensures s.rows[id].projectId != projectId {
          assert HasNone(s, id.table, projectId);
        }
      }
    }
    if CountOrphans(s) == 0 && forall t :: t != Outbox ==> CountRows(s, t, projectId) == 0 {
      ZeroCountsArePlanned(s, projectId);
    }
  }

  // ---------- a sweep removes one runbook's rows ----------

  function RowsOfRunbook(s: Store, runbookId: string): set<RowId> {
    set id | id in s.rows && InRunbook(id.table) && s.rows[id].runbookId == runbookId
  }

  lemma RowFollowsItsRunbook(s: Store, id: RowId)
    requires Kept(s) && id in s.rows && InRunbook(id.table) && !IsTop(id.table)
    ensures Parent(id.table, s.rows[id]) in s.rows
    ensures InRunbook(Parent(id.table, s.rows[id]).table)
    ensures ColumnsAgree(id.table, s.rows[id], s.rows[Parent(id.table, s.rows[id])])
  {
    assert RowKept(s, id);
  }

  lemma RowsOfRunbookAreClosed(s: Store, runbookId: string)
    requires Kept(s)
    ensures ClosedUnderParent(s.rows, RowsOfRunbook(s, runbookId))
  {
    forall id | id in s.rows && !IsTop(id.table)
      ensures id in RowsOfRunbook(s, runbookId) <==> Parent(id.table, s.rows[id]) in RowsOfRunbook(s, runbookId)
    {
      if InRunbook(id.table) {
        RowFollowsItsRunbook(s, id);
      }
    }
  }

  lemma DoomedIsTheRunbook(s: Store, runbookId: string)
    requires Kept(s) && RowId(Runbooks, One(runbookId)) in s.rows
    ensures Doomed(s.rows, {RowId(Runbooks, One(runbookId))}, 3) == RowsOfRunbook(s, runbookId)
  {
    var owned := RowsOfRunbook(s, runbookId);
    RowsOfRunbookAreClosed(s, runbookId);
    assert RowKept(s, RowId(Runbooks, One(runbookId)));
    forall id | id in owned && IsTop(id.table) ensures id == RowId(Runbooks, One(runbookId)) {
      assert RowKept(s, id);
    }
    assert {RowId(Runbooks, One(runbookId))} == Shallow(owned, 0);
    CascadeReachesTheOwned(s, {RowId(Runbooks, One(runbookId))}, owned, 3);
    assert Shallow(owned, 3) == owned;
  }

  lemma NothingDoomsNothing(s: Store)
    requires Kept(s)
    ensures Doomed(s.rows, {}, 3) == {}
  {
    CascadeReachesTheOwned(s, {}, {}, 3);
  }

  /** Every row of a runbook carries the runbook row's own organization and project. */
  lemma {:induction false} RowsShareTheScope(s: Store, id: RowId)
    requires Kept(s) && id in s.rows && InRunbook(id.table)
    ensures RowId(Runbooks, One(s.rows[id].runbookId)) in s.rows
    ensures ColumnsAgree(Runbooks, s.rows[id], s.rows[RowId(Runbooks, One(s.rows[id].runbookId))])
    ensures s.rows[id].projectId in s.projects
    decreases Depth(id.table)
  {
    if IsTop(id.table) {
      assert RowKept(s, id);
    } else {
      RowFollowsItsRunbook(s, id);
      ParentIsOneUp(id.table, s.rows[id]);
      RowsShareTheScope(s, Parent(id.table, s.rows[id]));
    }
  }

  lemma SweepRemovesTheRunbook(s: Store, runbookId: string, organizationId: string, projectId: string, at: int)
    requires Kept(s) && runbookId !in s.leases
    requires RunbookRow(s, runbookId, organizationId, projectId) != {}
    ensures SweepRunbook(s, runbookId, organizationId, projectId, at).Ok?
    ensures var n := SweepRunbook(s, runbookId, organizationId, projectId, at).value;
            OnlyLost(s, n, RowsOfRunbook(s, runbookId)) && n.projects == s.projects && n.leases == s.leases
  {
    var leased := s.(leases := s.leases[runbookId := Lease(organizationId, projectId, at)]);
    var owned := RowsOfRunbook(s, runbookId);
    DoomedIsTheRunbook(s, runbookId);
    forall id | id in owned ensures !Protected(leased, s.rows[id]) {
      RowsShareTheScope(s, id);
    }
    assert DeleteRows(leased, RunbookRow(s, runbookId, organizationId, projectId))
        == Ok(leased.(rows := s.rows - owned));
  }

  /** Without a lease a runbook can be deleted exactly while it holds no evidence. */
  lemma UnleasedDeleteNeedsNoEvidence(s: Store, runbookId: string)
    requires Kept(s) && s.leases == map[]
    ensures Execute(s, Delete(RowId(Runbooks, One(runbookId)))).Ok?
            <==> forall id :: id in RowsOfRunbook(s, runbookId) ==> !AppendOnly(id.table)
  {
    var root := RowId(Runbooks, One(runbookId));
    forall id | id in RowsOfRunbook(s, runbookId) ensures root in s.rows && Protected(s, s.rows[id]) {
      RowsShareTheScope(s, id);
    }
    if root in s.rows {
      DoomedIsTheRunbook(s, runbookId);
    } else {
      NothingDoomsNothing(s);
    }
  }

  // ---------- three levels are enough ----------

  lemma {:induction false} DoomedStays(rows: map<RowId, Row>, first: set<RowId>, m: nat, n: nat)
    requires m <= n
    ensures Doomed(rows, first, m) <= Doomed(rows, first, n)
    decreases n
  {
    if m < n {
      DoomedStays(rows, first, m, n - 1);
    }
  }

  /** A row is reached, if at all, within as many levels as it lies deep. */
  lemma {:induction false} DoomedByDepth(rows: map<RowId, Row>, first: set<RowId>, levels: nat, id: RowId)
    requires id in Doomed(rows, first, levels)
    ensures id in first || id in Doomed(rows, first, Depth(id.table))
  {
    if levels > 0 && id !in first {
      if id in Doomed(rows, first, levels - 1) {
        DoomedByDepth(rows, first, levels - 1, id);
      } else {
        var parent := Parent(id.table, rows[id]);
        DoomedByDepth(rows, first, levels - 1, parent);
        ParentIsOneUp(id.table, rows[id]);
        DoomedStays(rows, first, 0, Depth(parent.table));
        assert id in Referring(rows, Doomed(rows, first, Depth(parent.table)));
      }
    }
  }

  lemma {:induction false} ThreeLevelsSuffice(rows: map<RowId, Row>, first: set<RowId>)
    ensures Referring(rows, Doomed(rows, first, 3)) <= Doomed(rows, first, 3)
  {
    forall id | id in Referring(rows, Doomed(rows, first, 3)) ensures id in Doomed(rows, first, 3) {
      assert id in Doomed(rows, first, 4);
      DoomedByDepth(rows, first, 4, id);
      DoomedStays(rows, first, Depth(id.table), 3);
      DoomedStays(rows, first, 0, 3);
    }
  }

  // ---------- every step keeps the references ----------

  lemma DeleteKeepsReferences(s: Store, first: set<RowId>)
    requires Kept(s) && DeleteRows(s, first).Ok?
    ensures Kept(DeleteRows(s, first).value)
  {
    var n := DeleteRows(s, first).value;
    ThreeLevelsSuffice(s.rows, first);
    forall id | id in n.rows ensures RowKept(n, id) {
      assert RowKept(s, id);
    }
  }

  lemma PurgeKeepsReferences(s: Store, projectId: string)
    requires Kept(s)
    ensures DeleteProject(s, projectId).Ok? && Kept(DeleteProject(s, projectId).value)
    ensures NothingOf(DeleteProject(s, projectId).value, projectId)
  {
    PurgeRemovesTheProject(s, projectId);
    var n := DeleteProject(s, projectId).value;
    forall id | id in n.rows ensures RowKept(n, id) && Owner(n, id) != projectId {
      assert RowKept(s, id);
      if !IsTop(id.table) {
        RowsFollowTheirParent(s, id);
      }
    }
  }

  lemma LeasesDoNotMatter(s: Store, leases: map<string, Lease>)
    requires Kept(s)
    ensures Kept(s.(leases := leases))
  {
    forall id | id in s.rows ensures RowKept(s.(leases := leases), id) {
      assert RowKept(s, id);
    }
  }

  lemma SweepKeepsReferences(s: Store, runbookId: string, organizationId: string, projectId: string, at: int)
    requires Kept(s) && s.leases == map[]
    ensures SweepRunbook(s, runbookId, organizationId, projectId, at).Ok?
    ensures var n := SweepRunbook(s, runbookId, organizationId, projectId, at).value;
            Kept(n) && n.leases == map[] && n.projects == s.projects
  {
    var leased := s.(leases := map[runbookId := Lease(organizationId, projectId, at)]);
    var first := RunbookRow(s, runbookId, organizationId, projectId);
    LeasesDoNotMatter(s, leased.leases);
    if first == {} {
      NothingDoomsNothing(s);
    } else {
      SweepRemovesTheRunbook(s, runbookId, organizationId, projectId, at);
    }
    DeleteKeepsReferences(leased, first);
    LeasesDoNotMatter(DeleteRows(leased, first).value, map[]);
  }

  lemma InsertKeepsReferences(s: Store, t: Table, id: string, row: Row)
    requires Kept(s) && Execute(s, Insert(t, id, row)).Ok?
    ensures Kept(Execute(s, Insert(t, id, row)).value)
  {
    var n := Execute(s, Insert(t, id, row)).value;
    forall k | k in n.rows ensures RowKept(n, k) {
      if k in s.rows {
        assert RowKept(s, k);
      }
    }
  }

  lemma RewriteKeepsReferences(s: Store, target: RowId, at: int, content: string)
    requires Kept(s) && Execute(s, Rewrite(target, at, content)).Ok?
    ensures Kept(Execute(s, Rewrite(target, at, content)).value)
  {
    var n := Execute(s, Rewrite(target, at, content)).value;
    forall k | k in n.rows ensures RowKept(n, k) {
      assert RowKept(s, k);
    }
  }

  lemma ProjectChangesKeepReferences(s: Store, n: Store)
    requires Kept(s) && n.rows == s.rows
    requires forall p :: p in s.projects ==>
               p in n.projects && n.projects[p].organizationId == s.projects[p].organizationId
    ensures Kept(n)
  {
    forall k | k in n.rows ensures RowKept(n, k) {
      assert RowKept(s, k);
    }
  }

  /** No batch leaves a lease behind, and none leaves a row whose parent is gone. */
  ghost predicate AtRest(s: Store) {
    Kept(s) && s.leases == map[]
  }

  lemma EveryStepEndsAtRest(s: Store, step: Step)
    requires AtRest(s)
    ensures AtRest(After(s, step))
  {
    if Execute(s, step).Ok? {
      match step
      case CreateProject(p, o, d, u) => ProjectChangesKeepReferences(s, After(s, step));
      case ReviseProject(p, d, u) => ProjectChangesKeepReferences(s, After(s, step));
      case Insert(t, id, row) => InsertKeepsReferences(s, t, id, row);
      case Rewrite(target, at, content) => RewriteKeepsReferences(s, target, at, content);
      case Delete(target) => DeleteKeepsReferences(s, if target in s.rows then {target} else {});
      case Purge(p, o, at) =>
        PurgeRemovesTheProject(s, p);
        PurgeKeepsReferences(s, p);
      case Sweep(r, o, p, at) => SweepKeepsReferences(s, r, o, p, at);
      case ExpireLeases(before) => LeasesDoNotMatter(s, After(s, step).leases);
    }
  }

  // ---------- whole runs ----------

  lemma {:induction false} EveryRunEndsAtRest(s: Store, steps: seq<Step>)
    requires AtRest(s)
    ensures AtRest(Play(s, steps))
    decreases |steps|
  {
    if steps != [] {
      EveryRunEndsAtRest(s, steps[..|steps| - 1]);
      EveryStepEndsAtRest(Play(s, steps[..|steps| - 1]), steps[|steps| - 1]);
    }
  }

  /** A purge of the row's project, or a sweep of its runbook. */
  predicate MayRemove(step: Step, row: Row) {
    (step.Purge? && step.projectId == row.projectId) || (step.Sweep? && step.runbookId == row.runbookId)
  }

  lemma DeleteSparesEvidence(s: Store, first: set<RowId>, id: RowId)
    requires AtRest(s) && id in s.rows && AppendOnly(id.table)
    requires DeleteRows(s, first).Ok?
    ensures id in DeleteRows(s, first).value.rows && DeleteRows(s, first).value.rows[id] == s.rows[id]
  {
    RowsShareTheScope(s, id);
    assert Protected(s, s.rows[id]);
  }

  lemma OneStepSparesEvidence(s: Store, step: Step, id: RowId)
    requires AtRest(s) && id in s.rows && AppendOnly(id.table) && !MayRemove(step, s.rows[id])
    ensures id in After(s, step).rows && After(s, step).rows[id] == s.rows[id]
  {
    if Execute(s, step).Ok? {
      match step
      case Delete(target) => DeleteSparesEvidence(s, if target in s.rows then {target} else {}, id);
      case Purge(p, o, at) => PurgeRemovesTheProject(s, p);
      case Sweep(r, o, p, at) =>
        if RunbookRow(s, r, o, p) == {} {
          NothingDoomsNothing(s);
        } else {
          SweepRemovesTheRunbook(s, r, o, p, at);
        }
      case _ =>
    }
  }

  /** Evidence, once written, stays as it is through any run that neither purges its project nor sweeps its runbook. */
  lemma {:induction false} EvidenceStays(s: Store, steps: seq<Step>, id: RowId)
    requires AtRest(s) && id in s.rows && AppendOnly(id.table)
    requires forall k :: 0 <= k < |steps| ==> !MayRemove(steps[k], s.rows[id])
    ensures id in Play(s, steps).rows && Play(s, steps).rows[id] == s.rows[id]
    decreases |steps|
  {
    if steps != [] {
      EvidenceStays(s, steps[..|steps| - 1], id);
      EveryRunEndsAtRest(s, steps[..|steps| - 1]);
      OneStepSparesEvidence(Play(s, steps[..|steps| - 1]), steps[|steps| - 1], id);
    }
  }

  lemma InsertBringsNothingOf(s: Store, t: Table, id: string, row: Row, projectId: string)
    requires Kept(s) && NothingOf(s, projectId) && Execute(s, Insert(t, id, row)).Ok?
    ensures NothingOf(Execute(s, Insert(t, id, row)).value, projectId)
  {
    var n := Execute(s, Insert(t, id, row)).value;
    forall k | k in n.rows ensures Owner(n, k) != projectId {
      if k in s.rows {
        assert RowKept(s, k);
      } else if !IsTop(t) {
        assert Owner(s, Parent(t, row)) != projectId;
        assert !Parent(t, row).table.Outbox?;
      }
    }
  }

  lemma FewerRowsBringNothingOf(s: Store, n: Store, projectId: string)
    requires Kept(n) && NothingOf(s, projectId) && n.projects.Keys <= s.projects.Keys
    requires forall k :: k in n.rows ==>
               k in s.rows && n.rows[k].(updatedAt := 0, content := "") == s.rows[k].(updatedAt := 0, content := "")
    ensures NothingOf(n, projectId)
  {
    forall k | k in n.rows ensures Owner(n, k) != projectId {
      assert RowKept(n, k);
      assert Owner(s, k) != projectId;
    }
  }

  lemma NothingComesBack(s: Store, step: Step, projectId: string)
    requires AtRest(s) && NothingOf(s, projectId)
    requires !(step.CreateProject? && step.projectId == projectId)
    ensures NothingOf(After(s, step), projectId)
  {
    EveryStepEndsAtRest(s, step);
    if Execute(s, step).Ok? {
      if step.Insert? {
        InsertBringsNothingOf(s, step.table, step.id, step.row, projectId);
      } else if step.CreateProject? || step.ReviseProject? {
        assert After(s, step).rows == s.rows;
      } else {
        FewerRowsBringNothingOf(s, After(s, step), projectId);
      }
    }
  }

  lemma {:induction false} NothingEverComesBack(s: Store, steps: seq<Step>, projectId: string)
    requires AtRest(s) && NothingOf(s, projectId)
    requires forall k :: 0 <= k < |steps| ==> !(steps[k].CreateProject? && steps[k].projectId == projectId)
    ensures NothingOf(Play(s, steps), projectId)
    decreases |steps|
  {
    if steps != [] {
      NothingEverComesBack(s, steps[..|steps| - 1], projectId);
      EveryRunEndsAtRest(s, steps[..|steps| - 1]);
      NothingComesBack(Play(s, steps[..|steps| - 1]), steps[|steps| - 1], projectId);
    }
  }

  /**
   The counts taken after a purge, whatever other batches ran between the purge and the counts, are the ones
   the purge wrote down beforehand.
   */
  lemma {:induction false} PurgeMatchesItsVerification(s: Store, projectId: string, between: seq<Step>)
    requires AtRest(s)
    requires forall k :: 0 <= k < |between| ==> !(between[k].CreateProject? && between[k].projectId == projectId)
    ensures DeleteProject(s, projectId).Ok?
    ensures ObservedVerification(Play(DeleteProject(s, projectId).value, between), projectId) == PlannedVerification()
  {
    PurgeRemovesTheProject(s, projectId);
    PurgeKeepsReferences(s, projectId);
    var n := DeleteProject(s, projectId).value;
    NothingEverComesBack(n, between, projectId);
    EveryRunEndsAtRest(n, between);
    KeptMeansNoRowsOf(Play(n, between), projectId);
  }
}
