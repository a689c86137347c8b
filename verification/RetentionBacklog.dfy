/**
 What a retention sweep has to do. Everything overdue at a given time, in every organization that is not
 deleted, forms one finite backlog; a sweep may take only what stands in it, and must not add to it.
 */
module RetentionBacklog {
  import opened Results
  import opened ProjectDeletion
  import opened DeletionProtocol
  import C = ProjectCascade

  datatype Policy = Policy(operationalDays: int, securityDays: int)

  datatype Audit = Audit(organizationId: string, occurredAt: int)

  /** `live` holds the organizations whose `deleted_at` is null. */
  datatype Tables = Tables(db: Db, live: set<string>, policies: map<string, Policy>, audits: map<nat, Audit>)

  const OPERATIONAL_DAYS := 365
  const SECURITY_DAYS := 400

  function OperationalCutoff(t: Tables, organizationId: string, at: int): int {
    at - DAY * (if organizationId in t.policies then t.policies[organizationId].operationalDays else OPERATIONAL_DAYS)
  }

  function SecurityCutoff(t: Tables, organizationId: string, at: int): int {
    at - DAY * (if organizationId in t.policies then t.policies[organizationId].securityDays else SECURITY_DAYS)
  }

  /** The bounds the policy table enforces. */
  ghost predicate Bounded(policies: map<string, Policy>) {
    forall o :: o in policies ==>
      30 <= policies[o].operationalDays <= 2555 && MIN_SECURITY_DAYS <= policies[o].securityDays <= 2555
  }

  ghost predicate PoliciesOk(t: Tables) {
    Bounded(t.policies)
  }

  // ---------- what is due ----------

  predicate IsDue(t: Tables, id: string, organizationId: string, at: int) {
    id in t.db.requests && t.db.requests[id].claim.organizationId == organizationId
    && t.db.requests[id].status.Recoverable? && t.db.requests[id].claim.recoveryUntil <= at
  }

  /** The tables whose rows keep a runbook from being stale. */
  predicate IsActivity(t: C.Table) {
    t.Tasks? || t.Occupancy? || t.Incidents? || t.Deviations? || t.Reviews?
  }

  predicate IsRecentActivity(s: C.Store, k: C.RowId, runbookId: string, cutoff: int) {
    k in s.rows && IsActivity(k.table) && s.rows[k].runbookId == runbookId && s.rows[k].updatedAt >= cutoff
  }

  predicate IsStale(t: Tables, runbook: C.RowId, organizationId: string, at: int) {
    var s := t.db.store;
    var cutoff := OperationalCutoff(t, organizationId, at);
    runbook in s.rows && runbook.table.Runbooks? && s.rows[runbook].organizationId == organizationId
    && s.rows[runbook].updatedAt < cutoff
    && forall k :: k in s.rows ==> !IsRecentActivity(s, k, s.rows[runbook].runbookId, cutoff)
  }

  predicate IsOldVerification(t: Tables, id: string, organizationId: string, at: int) {
    id in t.db.verifications && t.db.verifications[id].organizationId == organizationId
    && t.db.verifications[id].verifiedAt < SecurityCutoff(t, organizationId, at)
  }

  predicate IsOldRequest(t: Tables, id: string, organizationId: string, at: int) {
    id in t.db.requests && t.db.requests[id].claim.organizationId == organizationId
    && !t.db.requests[id].status.Recoverable? && EndedAt(t.db.requests[id]) < SecurityCutoff(t, organizationId, at)
  }

  predicate IsOldAudit(t: Tables, n: nat, organizationId: string, at: int) {
    n in t.audits && t.audits[n].organizationId == organizationId
    && t.audits[n].occurredAt < SecurityCutoff(t, organizationId, at)
  }

  datatype Item =
    | DueProject(organizationId: string, id: string)
    | StaleRunbook(organizationId: string, row: C.RowId)
    | OldVerification(organizationId: string, id: string)
    | OldRequest(organizationId: string, id: string)
    | OldAudit(organizationId: string, n: nat)

  predicate Overdue(t: Tables, item: Item, at: int) {
    item.organizationId in t.live
    && match item
       case DueProject(o, id) => IsDue(t, id, o, at)
       case StaleRunbook(o, row) => IsStale(t, row, o, at)
       case OldVerification(o, id) => IsOldVerification(t, id, o, at)
       case OldRequest(o, id) => IsOldRequest(t, id, o, at)
       case OldAudit(o, n) => IsOldAudit(t, n, o, at)
  }

  ghost function DueProjects(t: Tables, at: int): set<Item> {
    set o, id | o in t.live && id in t.db.requests && IsDue(t, id, o, at) :: DueProject(o, id)
  }

  ghost function StaleRunbooks(t: Tables, at: int): set<Item> {
    set o, row | o in t.live && row in t.db.store.rows && IsStale(t, row, o, at) :: StaleRunbook(o, row)
  }

  ghost function OldVerifications(t: Tables, at: int): set<Item> {
    set o, id | o in t.live && id in t.db.verifications && IsOldVerification(t, id, o, at) :: OldVerification(o, id)
  }

  ghost function OldRequests(t: Tables, at: int): set<Item> {
    set o, id | o in t.live && id in t.db.requests && IsOldRequest(t, id, o, at) :: OldRequest(o, id)
  }

  ghost function OldAudits(t: Tables, at: int): set<Item> {
    set o, n | o in t.live && n in t.audits && IsOldAudit(t, n, o, at) :: OldAudit(o, n)
  }

  ghost function Backlog(t: Tables, at: int): (items: set<Item>)
    ensures forall item :: item in items <==> Overdue(t, item, at)
  {
    DueProjects(t, at) + StaleRunbooks(t, at) + OldVerifications(t, at) + OldRequests(t, at) + OldAudits(t, at)
  }

  datatype Kind = Projects | Runbooks | Verifications | Requests | Audits

  function KindOf(item: Item): Kind {
    match item
    case DueProject(o, id) => Projects
    case StaleRunbook(o, row) => Runbooks
    case OldVerification(o, id) => Verifications
    case OldRequest(o, id) => Requests
    case OldAudit(o, n) => Audits
  }

  /** Nothing of one kind is left; an old request may stay only while its backup verification stays. */
  ghost predicate NoneLeft(t: Tables, organizationId: string, kind: Kind, at: int) {
    forall item :: Overdue(t, item, at) && item.organizationId == organizationId && KindOf(item) == kind ==>
      item.OldRequest? && item.id in t.db.verifications
  }

  ghost predicate Clean(t: Tables, organizationId: string, at: int) {
    forall kind :: NoneLeft(t, organizationId, kind, at)
  }

  // ---------- nothing goes that was not due ----------

  ghost predicate RequestsKept(a: Tables, b: Tables, done: set<Item>) {
    && b.db.requests.Keys <= a.db.requests.Keys
    && forall id :: id in a.db.requests ==>
         var o := a.db.requests[id].claim.organizationId;
         if id in b.db.requests then
           b.db.requests[id].claim == a.db.requests[id].claim
           && (b.db.requests[id] == a.db.requests[id] || DueProject(o, id) in done)
         else OldRequest(o, id) in done
  }

  ghost predicate VerificationsKept(a: Tables, b: Tables, done: set<Item>) {
    && b.db.verifications.Keys <= a.db.verifications.Keys
    && forall id :: id in a.db.verifications ==>
         if id in b.db.verifications then b.db.verifications[id] == a.db.verifications[id]
         else OldVerification(a.db.verifications[id].organizationId, id) in done
  }

  ghost predicate AuditsKept(a: Tables, b: Tables, done: set<Item>) {
    forall n :: n in a.audits ==>
      (n in b.audits && b.audits[n] == a.audits[n]) || OldAudit(a.audits[n].organizationId, n) in done
  }

  /** A purged project takes its rows with it, a swept runbook takes its own. */
  ghost predicate Takes(t: Tables, item: Item, row: C.RowId)
    requires row in t.db.store.rows
  {
    || (item.DueProject? && item.id in t.db.requests
        && t.db.requests[item.id].claim.projectId == C.Owner(t.db.store, row))
    || (item.StaleRunbook? && item.row in t.db.store.rows && C.InRunbook(row.table)
        && t.db.store.rows[row].runbookId == t.db.store.rows[item.row].runbookId)
  }

  ghost predicate RowsKept(a: Tables, b: Tables, done: set<Item>) {
    && b.db.store.rows.Keys <= a.db.store.rows.Keys
    && forall row :: row in a.db.store.rows ==>
         if row in b.db.store.rows then b.db.store.rows[row] == a.db.store.rows[row]
         else exists item :: item in done && Takes(a, item, row)
  }

  ghost predicate Removes(t: Tables, item: Item, projectId: string) {
    item.DueProject? && item.id in t.db.requests && t.db.requests[item.id].claim.projectId == projectId
  }

  ghost predicate ProjectsKept(a: Tables, b: Tables, done: set<Item>) {
    && b.db.store.projects.Keys <= a.db.store.projects.Keys
    && forall p :: p in a.db.store.projects ==>
         if p in b.db.store.projects then b.db.store.projects[p] == a.db.store.projects[p]
         else exists item :: item in done && Removes(a, item, p)
  }

  ghost predicate OnlyDoneIsGone(a: Tables, b: Tables, done: set<Item>) {
    RequestsKept(a, b, done) && VerificationsKept(a, b, done) && AuditsKept(a, b, done)
    && RowsKept(a, b, done) && ProjectsKept(a, b, done)
  }

  /** From `a` to `b` exactly the overdue items of `done` were worked off, and nothing became overdue. */
  ghost predicate Progress(a: Tables, b: Tables, at: int, done: set<Item>) {
    && b.live == a.live && b.policies == a.policies
    && done <= Backlog(a, at)
    && Backlog(b, at) <= Backlog(a, at) - done
    && OnlyDoneIsGone(a, b, done)
  }

  lemma RowsKeptCompose(a: Tables, b: Tables, c: Tables, first: set<Item>, second: set<Item>)
    requires C.Kept(b.db.store)
    requires RowsKept(a, b, first) && RequestsKept(a, b, first) && RowsKept(b, c, second)
    ensures RowsKept(a, c, first + second)
  {
    forall row | row in a.db.store.rows && row !in c.db.store.rows
      ensures exists item :: item in first + second && Takes(a, item, row)
    {
      if row in b.db.store.rows {
        var item :| item in second && Takes(b, item, row);
        assert C.RowKept(b.db.store, row);
        assert C.Owner(b.db.store, row) == C.Owner(a.db.store, row);
        assert Takes(a, item, row);
      } else {
        var item :| item in first && Takes(a, item, row);
        assert item in first + second;
      }
    }
  }

  lemma ProjectsKeptCompose(a: Tables, b: Tables, c: Tables, first: set<Item>, second: set<Item>)
    requires ProjectsKept(a, b, first) && RequestsKept(a, b, first) && ProjectsKept(b, c, second)
    ensures ProjectsKept(a, c, first + second)
  {
    forall p | p in a.db.store.projects && p !in c.db.store.projects
      ensures exists item :: item in first + second && Removes(a, item, p)
    {
      if p in b.db.store.projects {
        var item :| item in second && Removes(b, item, p);
        assert Removes(a, item, p);
      } else {
        var item :| item in first && Removes(a, item, p);
        assert item in first + second;
      }
    }
  }

  lemma ProgressComposes(a: Tables, b: Tables, c: Tables, at: int, first: set<Item>, second: set<Item>)
    requires C.Kept(b.db.store)
    requires Progress(a, b, at, first) && Progress(b, c, at, second)
    ensures Progress(a, c, at, first + second) && first !! second
    ensures |first + second| == |first| + |second|
  {
    RowsKeptCompose(a, b, c, first, second);
    ProjectsKeptCompose(a, b, c, first, second);
    KeptCompose(a, b, c, first, second);
    assert first !! second;
  }

  lemma KeptCompose(a: Tables, b: Tables, c: Tables, first: set<Item>, second: set<Item>)
    requires RequestsKept(a, b, first) && VerificationsKept(a, b, first) && AuditsKept(a, b, first)
    requires RequestsKept(b, c, second) && VerificationsKept(b, c, second) && AuditsKept(b, c, second)
    ensures RequestsKept(a, c, first + second) && VerificationsKept(a, c, first + second)
            && AuditsKept(a, c, first + second)
  {
  }

  // ---------- staleness survives the loss of whole runbooks ----------

  ghost predicate WholeRunbooks(s: C.Store, lost: set<C.RowId>) {
    forall k, r :: k in s.rows && r in s.rows && k in lost && C.InRunbook(k.table) && r.table.Runbooks?
                   && s.rows[k].runbookId == s.rows[r].runbookId
                   ==> r in lost
  }

  lemma StaleBefore(a: Tables, b: Tables, lost: set<C.RowId>, row: C.RowId, organizationId: string, at: int)
    requires C.OnlyLost(a.db.store, b.db.store, lost) && WholeRunbooks(a.db.store, lost)
    requires b.policies == a.policies && IsStale(b, row, organizationId, at)
    ensures IsStale(a, row, organizationId, at)
  {
    var s := a.db.store;
    var cutoff := OperationalCutoff(a, organizationId, at);
    forall k | k in s.rows ensures !IsRecentActivity(s, k, s.rows[row].runbookId, cutoff) {
      assert k in b.db.store.rows ==> !IsRecentActivity(b.db.store, k, s.rows[row].runbookId, cutoff);
    }
  }

  lemma ProjectIsWholeRunbooks(s: C.Store, projectId: string)
    requires C.Kept(s)
    ensures WholeRunbooks(s, C.OwnedBy(s, projectId))
  {
    forall k, r | k in s.rows && r in s.rows && k in C.OwnedBy(s, projectId) && C.InRunbook(k.table)
        && r.table.Runbooks?
                  && s.rows[k].runbookId == s.rows[r].runbookId
      ensures r in C.OwnedBy(s, projectId)
    {
      C.RowsShareTheScope(s, k);
      C.RowsShareTheScope(s, r);
    }
  }

  // ---------- the steps of a sweep ----------

  lemma PurgeProgress(w: World, t: Tables, a: Action, organizationId: string, at: int)
    requires Sound(w) && w.db == t.db && a.Purge? && a in w.read && Wins(t.db, a)
    requires PoliciesOk(t) && organizationId in t.live && IsDue(t, a.requestId, organizationId, at) && a.now >= at
    ensures Progress(t, t.(db := Effect(t.db, a)), at, {DueProject(organizationId, a.requestId)})
  {
    var u := t.(db := Effect(t.db, a));
    var done := {DueProject(organizationId, a.requestId)};
    PurgeLeavesOnlyBacklog(w, t, a, organizationId, at);
    PurgeTakesOnlyItsProject(w, t, a, organizationId, done);
  }

  lemma PurgeMakesNothingStale(w: World, t: Tables, a: Action, row: C.RowId, organizationId: string, at: int)
    requires Sound(w) && w.db == t.db && a.Purge? && a in w.read && Wins(t.db, a)
    requires IsStale(t.(db := Effect(t.db, a)), row, organizationId, at)
    ensures IsStale(t, row, organizationId, at)
  {
    PurgeStore(w, a);
    C.PurgeRemovesTheProject(t.db.store, a.projectId);
    ProjectIsWholeRunbooks(t.db.store, a.projectId);
    StaleBefore(t, t.(db := Effect(t.db, a)), C.OwnedBy(t.db.store, a.projectId), row, organizationId, at);
  }

  ghost predicate OneEnded(t: Tables, u: Tables, id: string, at: int) {
    && u.live == t.live && u.policies == t.policies && u.audits == t.audits
    && u.db.verifications == t.db.verifications
    && id in u.db.requests && !u.db.requests[id].status.Recoverable? && EndedAt(u.db.requests[id]) >= at
    && forall k :: k in u.db.requests && k != id ==> k in t.db.requests && u.db.requests[k] == t.db.requests[k]
  }

  /** A request that has just ended is too young to be overdue. */
  lemma YoungEndingIsNotOverdue(t: Tables, u: Tables, id: string, item: Item, at: int)
    requires PoliciesOk(t) && OneEnded(t, u, id, at)
    requires Overdue(u, item, at) && !item.StaleRunbook?
    ensures Overdue(t, item, at) && !(item.DueProject? && item.id == id)
  {
    match item
    case DueProject(o, k) => assert k != id;
    case OldRequest(o, k) =>
      assert SecurityCutoff(u, o, at) < at;
      assert k != id;
    case _ =>
  }

  lemma PurgeEndsOne(w: World, t: Tables, a: Action, organizationId: string, at: int)
    requires Sound(w) && w.db == t.db && a.Purge? && a in w.read && Wins(t.db, a)
    requires IsDue(t, a.requestId, organizationId, at) && a.now >= at
    ensures OneEnded(t, t.(db := Effect(t.db, a)), a.requestId, at)
  {
  }

  lemma PurgedItemWasOverdue(w: World, t: Tables, a: Action, item: Item, at: int)
    requires Sound(w) && w.db == t.db && a.Purge? && a in w.read && Wins(t.db, a) && PoliciesOk(t)
    requires OneEnded(t, t.(db := Effect(t.db, a)), a.requestId, at) && Overdue(t.(db := Effect(t.db, a)), item, at)
    ensures Overdue(t, item, at) && !(item.DueProject? && item.id == a.requestId)
  {
    if item.StaleRunbook? {
      PurgeMakesNothingStale(w, t, a, item.row, item.organizationId, at);
    } else {
      YoungEndingIsNotOverdue(t, t.(db := Effect(t.db, a)), a.requestId, item, at);
    }
  }

  lemma LessIsOverdue(t: Tables, u: Tables, done: set<Item>, at: int)
    requires forall item :: Overdue(u, item, at) ==> Overdue(t, item, at) && item !in done
    ensures Backlog(u, at) <= Backlog(t, at) - done
  {
  }

  lemma PurgeLeavesOnlyBacklog(w: World, t: Tables, a: Action, organizationId: string, at: int)
    requires Sound(w) && w.db == t.db && a.Purge? && a in w.read && Wins(t.db, a)
    requires PoliciesOk(t) && organizationId in t.live && IsDue(t, a.requestId, organizationId, at) && a.now >= at
    ensures Backlog(t.(db := Effect(t.db, a)), at) <= Backlog(t, at) - {DueProject(organizationId, a.requestId)}
  {
    var u := t.(db := Effect(t.db, a));
    PurgeEndsOne(w, t, a, organizationId, at);
    forall item | Overdue(u, item, at) ensures Overdue(t, item, at) && item != DueProject(organizationId, a.requestId) {
      PurgedItemWasOverdue(w, t, a, item, at);
    }
    LessIsOverdue(t, u, {DueProject(organizationId, a.requestId)}, at);
  }

  lemma PurgedRequestIsKept(t: Tables, a: Action, organizationId: string)
    requires a.Purge? && Wins(t.db, a) && t.db.requests[a.requestId].claim.organizationId == organizationId
    ensures RequestsKept(t, t.(db := Effect(t.db, a)), {DueProject(organizationId, a.requestId)})
  {
  }

  lemma PurgedRowsAreTaken(w: World, t: Tables, a: Action, organizationId: string)
    requires Sound(w) && w.db == t.db && a.Purge? && a in w.read && Wins(t.db, a)
    ensures RowsKept(t, t.(db := Effect(t.db, a)), {DueProject(organizationId, a.requestId)})
  {
    var u, item := t.(db := Effect(t.db, a)), DueProject(organizationId, a.requestId);
    PurgeStore(w, a);
    assert Faithful(w, a);
    C.PurgeRemovesTheProject(t.db.store, a.projectId);
    forall row | row in t.db.store.rows && row !in u.db.store.rows ensures exists i :: i in {item} && Takes(t, i, row) {
      assert item in {item} && Takes(t, item, row);
    }
  }

  lemma PurgedProjectIsRemoved(w: World, t: Tables, a: Action, organizationId: string)
    requires Sound(w) && w.db == t.db && a.Purge? && a in w.read && Wins(t.db, a)
    ensures ProjectsKept(t, t.(db := Effect(t.db, a)), {DueProject(organizationId, a.requestId)})
  {
    var u, item := t.(db := Effect(t.db, a)), DueProject(organizationId, a.requestId);
    PurgeStore(w, a);
    assert Faithful(w, a);
    forall p | p in t.db.store.projects && p !in u.db.store.projects
        ensures exists i :: i in {item} && Removes(t, i, p) {
      assert item in {item} && Removes(t, item, p);
    }
  }

  lemma PurgeTakesOnlyItsProject(w: World, t: Tables, a: Action, organizationId: string, done: set<Item>)
    requires Sound(w) && w.db == t.db && a.Purge? && a in w.read && Wins(t.db, a)
    requires t.db.requests[a.requestId].claim.organizationId == organizationId
    requires done == {DueProject(organizationId, a.requestId)}
    ensures OnlyDoneIsGone(t, t.(db := Effect(t.db, a)), done)
  {
    PurgedRequestIsKept(t, a, organizationId);
    PurgedRowsAreTaken(w, t, a, organizationId);
    PurgedProjectIsRemoved(w, t, a, organizationId);
  }

  lemma SweepLeavesOnlyBacklog(t: Tables, row: C.RowId, n: C.Store, organizationId: string, at: int)
    requires C.Kept(t.db.store) && organizationId in t.live && IsStale(t, row, organizationId, at)
    requires C.OnlyLost(t.db.store, n, C.RowsOfRunbook(t.db.store, t.db.store.rows[row].runbookId))
    ensures Backlog(t.(db := t.db.(store := n)), at) <= Backlog(t, at) - {StaleRunbook(organizationId, row)}
  {
    var u := t.(db := t.db.(store := n));
    var lost := C.RowsOfRunbook(t.db.store, t.db.store.rows[row].runbookId);
    forall i | Overdue(u, i, at) ensures Overdue(t, i, at) && i != StaleRunbook(organizationId, row) {
      if i.StaleRunbook? {
        StaleBefore(t, u, lost, i.row, i.organizationId, at);
      }
    }
    LessIsOverdue(t, u, {StaleRunbook(organizationId, row)}, at);
  }

  lemma SweptRowsAreTaken(t: Tables, row: C.RowId, n: C.Store, organizationId: string)
    requires row in t.db.store.rows
    requires C.OnlyLost(t.db.store, n, C.RowsOfRunbook(t.db.store, t.db.store.rows[row].runbookId))
    ensures RowsKept(t, t.(db := t.db.(store := n)), {StaleRunbook(organizationId, row)})
  {
    var item := StaleRunbook(organizationId, row);
    forall k | k in t.db.store.rows && k !in n.rows ensures exists i :: i in {item} && Takes(t, i, k) {
      assert item in {item} && Takes(t, item, k);
    }
  }

  lemma SweepProgress(t: Tables, row: C.RowId, n: C.Store, organizationId: string, at: int)
    requires C.Kept(t.db.store) && organizationId in t.live && IsStale(t, row, organizationId, at)
    requires C.OnlyLost(t.db.store, n, C.RowsOfRunbook(t.db.store, t.db.store.rows[row].runbookId))
    requires n.projects == t.db.store.projects
    ensures Progress(t, t.(db := t.db.(store := n)), at, {StaleRunbook(organizationId, row)})
  {
    SweepLeavesOnlyBacklog(t, row, n, organizationId, at);
    SweptRowsAreTaken(t, row, n, organizationId);
    assert Overdue(t, StaleRunbook(organizationId, row), at);
  }

  lemma VerificationsProgress(t: Tables, ids: set<string>, done: set<Item>, organizationId: string, at: int)
    requires organizationId in t.live && forall id :: id in ids ==> IsOldVerification(t, id, organizationId, at)
    requires forall item ::
               item in done <==> item.OldVerification? && item.organizationId == organizationId && item.id in ids
    ensures Progress(t, t.(db := t.db.(verifications := t.db.verifications - ids)), at, done)
  {
    var u := t.(db := t.db.(verifications := t.db.verifications - ids));
    forall i | Overdue(u, i, at) ensures Overdue(t, i, at) && i !in done {
    }
  }

  lemma RequestsProgress(t: Tables, ids: set<string>, done: set<Item>, organizationId: string, at: int)
    requires organizationId in t.live && forall id :: id in ids ==> IsOldRequest(t, id, organizationId, at)
    requires forall item ::
               item in done <==> item.OldRequest? && item.organizationId == organizationId && item.id in ids
    ensures Progress(t, t.(db := t.db.(requests := t.db.requests - ids)), at, done)
  {
    var u := t.(db := t.db.(requests := t.db.requests - ids));
    forall i | Overdue(u, i, at) ensures Overdue(t, i, at) && i !in done {
    }
  }

  lemma AuditsProgress(t: Tables, ns: set<nat>, done: set<Item>, organizationId: string, at: int)
    requires organizationId in t.live && forall n :: n in ns ==> IsOldAudit(t, n, organizationId, at)
    requires forall item :: item in done <==> item.OldAudit? && item.organizationId == organizationId && item.n in ns
    ensures Progress(t, t.(audits := t.audits - ns), at, done)
  {
    var u := t.(audits := t.audits - ns);
    forall i | Overdue(u, i, at) ensures Overdue(t, i, at) && i !in done {
    }
  }

  lemma LaterAuditIsNotOverdue(t: Tables, n: nat, audit: Audit, at: int, item: Item)
    requires PoliciesOk(t) && n !in t.audits && audit.occurredAt >= at
    requires Overdue(t.(audits := t.audits[n := audit]), item, at)
    ensures Overdue(t, item, at)
  {
    var u := t.(audits := t.audits[n := audit]);
    assert SecurityCutoff(u, item.organizationId, at) == SecurityCutoff(t, item.organizationId, at) < at;
  }

  lemma AuditTakesNothing(t: Tables, n: nat, audit: Audit)
    requires n !in t.audits
    ensures OnlyDoneIsGone(t, t.(audits := t.audits[n := audit]), {})
  {
  }

  /** The sweep's own audit events are too young to be overdue. */
  lemma AuditAddsNothing(t: Tables, n: nat, audit: Audit, at: int)
    requires PoliciesOk(t) && n !in t.audits && audit.occurredAt >= at
    ensures Progress(t, t.(audits := t.audits[n := audit]), at, {})
  {
    var u := t.(audits := t.audits[n := audit]);
    forall item | Overdue(u, item, at) ensures Overdue(t, item, at) {
      LaterAuditIsNotOverdue(t, n, audit, at, item);
    }
    LessIsOverdue(t, u, {}, at);
    AuditTakesNothing(t, n, audit);
  }

  // ---------- an organization that is clean stays clean ----------

  lemma OverdueBefore(a: Tables, b: Tables, at: int, done: set<Item>, item: Item)
    requires Progress(a, b, at, done) && Overdue(b, item, at)
    ensures Overdue(a, item, at)
  {
    assert item in Backlog(b, at);
  }

  lemma VerificationRemains(a: Tables, b: Tables, at: int, done: set<Item>, id: string)
    requires Progress(a, b, at, done) && id in a.db.verifications
    requires OldVerification(a.db.verifications[id].organizationId, id) !in done
    ensures id in b.db.verifications
  {
  }

  /** An old request that only its verification keeps: the verification is of the same organization. */
  lemma KeptRequestHasItsVerification(a: Tables, item: Item, at: int)
    requires VerificationsRefer(a.db) && Overdue(a, item, at) && item.OldRequest? && item.id in a.db.verifications
    ensures a.db.verifications[item.id].organizationId == item.organizationId
  {
    assert VerifiedBy(a.db, item.id, a.db.verifications[item.id]);
  }

  lemma ItemStaysKept(a: Tables, b: Tables, at: int, done: set<Item>, organizationId: string, kind: Kind, item: Item)
    requires VerificationsRefer(a.db) && Progress(a, b, at, done) && NoneLeft(a, organizationId, kind, at)
    requires Overdue(b, item, at) && item.organizationId == organizationId && KindOf(item) == kind
    requires item.OldRequest? ==> OldVerification(organizationId, item.id) !in done
    ensures item.OldRequest? && item.id in b.db.verifications
  {
    OverdueBefore(a, b, at, done, item);
    KeptRequestHasItsVerification(a, item, at);
    VerificationRemains(a, b, at, done, item.id);
  }

  lemma NoneLeftStays(a: Tables, b: Tables, at: int, done: set<Item>, organizationId: string, kind: Kind)
    requires VerificationsRefer(a.db) && Progress(a, b, at, done) && NoneLeft(a, organizationId, kind, at)
    requires kind.Requests? ==> forall id :: OldVerification(organizationId, id) !in done
    ensures NoneLeft(b, organizationId, kind, at)
  {
    forall item | Overdue(b, item, at) && item.organizationId == organizationId && KindOf(item) == kind
      ensures item.OldRequest? && item.id in b.db.verifications
    {
      ItemStaysKept(a, b, at, done, organizationId, kind, item);
    }
  }

  lemma CleanStays(a: Tables, b: Tables, at: int, done: set<Item>, organizationId: string)
    requires VerificationsRefer(a.db) && Progress(a, b, at, done) && Clean(a, organizationId, at)
    requires forall item :: item in done ==> item.organizationId != organizationId
    ensures Clean(b, organizationId, at)
  {
    forall id ensures OldVerification(organizationId, id) !in done {
    }
    forall kind ensures NoneLeft(b, organizationId, kind, at) {
      NoneLeftStays(a, b, at, done, organizationId, kind);
    }
  }

  // ---------- work done item by item ----------

  ghost function First(items: seq<Item>, k: nat): set<Item>
    requires k <= |items|
  {
    set i | 0 <= i < k :: items[i]
  }

  ghost predicate Distinct<T>(rows: seq<T>) {
    forall i, j :: 0 <= i < j < |rows| ==> rows[i] != rows[j]
  }

  lemma FirstGrows(items: seq<Item>, k: nat)
    requires k < |items|
    ensures First(items, k + 1) == First(items, k) + {items[k]}
  {
    forall item | item in First(items, k + 1) ensures item in First(items, k) + {items[k]} {
      var i :| 0 <= i < k + 1 && items[i] == item;
    }
  }

  lemma {:induction false} FirstCounts(items: seq<Item>, k: nat)
    requires k <= |items| && Distinct(items)
    ensures |First(items, k)| == k
  {
    if k == 0 {
      assert First(items, 0) == {};
    } else {
      FirstCounts(items, k - 1);
      FirstGrows(items, k - 1);
      assert items[k - 1] !in First(items, k - 1);
    }
  }

  /** The first `k` items of one organization have been worked off. */
  ghost predicate Worked(a: Tables, b: Tables, at: int, organizationId: string, items: seq<Item>, k: nat)
    requires k <= |items|
  {
    && Distinct(items) && (forall i :: 0 <= i < |items| ==> items[i].organizationId == organizationId)
    && Progress(a, b, at, First(items, k))
  }

  lemma WorkStarts(a: Tables, at: int, organizationId: string, items: seq<Item>)
    requires Distinct(items) && forall i :: 0 <= i < |items| ==> items[i].organizationId == organizationId
    ensures Worked(a, a, at, organizationId, items, 0)
  {
    assert First(items, 0) == {};
  }

  lemma WorkedOneMore(a: Tables, b: Tables, c: Tables, at: int, organizationId: string, items: seq<Item>, k: nat)
    requires C.Kept(b.db.store) && k < |items| && Worked(a, b, at, organizationId, items, k)
    requires Progress(b, c, at, {items[k]})
    ensures Worked(a, c, at, organizationId, items, k + 1)
  {
    ProgressComposes(a, b, c, at, First(items, k), {items[k]});
    FirstGrows(items, k);
  }

  lemma NextIsStillDue(a: Tables, b: Tables, at: int, organizationId: string, items: seq<Item>, k: nat)
    requires k < |items| && Worked(a, b, at, organizationId, items, k)
    requires forall i :: 0 <= i < |items| ==> items[i].DueProject?
    requires IsDue(a, items[k].id, organizationId, at)
    ensures IsDue(b, items[k].id, organizationId, at) && b.db.requests[items[k].id] == a.db.requests[items[k].id]
  {
    assert items[k] !in First(items, k);
  }

  lemma OtherRunbooksAreNotTaken(t: Tables, row: C.RowId, item: Item)
    requires C.Kept(t.db.store) && row in t.db.store.rows && row.table.Runbooks?
    requires item.StaleRunbook? && item.row in t.db.store.rows && item.row.table.Runbooks?
    ensures Takes(t, item, row) ==> item.row == row
  {
    assert C.RowKept(t.db.store, row);
    assert C.RowKept(t.db.store, item.row);
  }

  lemma NextIsStillStale(a: Tables, b: Tables, at: int, organizationId: string, items: seq<Item>, k: nat)
    requires C.Kept(a.db.store) && k < |items| && Worked(a, b, at, organizationId, items, k)
    requires forall i :: 0 <= i < |items| ==> items[i].StaleRunbook?
    requires IsStale(a, items[k].row, organizationId, at)
    ensures IsStale(b, items[k].row, organizationId, at)
            && b.db.store.rows[items[k].row] == a.db.store.rows[items[k].row]
  {
    var row := items[k].row;
    assert items[k] !in First(items, k);
    forall item | item in First(items, k) ensures !Takes(a, item, row) {
      assert Overdue(a, item, at);
      OtherRunbooksAreNotTaken(a, row, item);
      assert item == StaleRunbook(organizationId, item.row);
    }
    StaleInFewerRows(a, b, row, organizationId, at);
  }

  lemma StaleInFewerRows(a: Tables, b: Tables, row: C.RowId, organizationId: string, at: int)
    requires b.policies == a.policies && row in b.db.store.rows && IsStale(a, row, organizationId, at)
    requires forall k :: k in b.db.store.rows ==> k in a.db.store.rows && b.db.store.rows[k] == a.db.store.rows[k]
    ensures IsStale(b, row, organizationId, at)
  {
    var cutoff := OperationalCutoff(a, organizationId, at);
    forall k | k in b.db.store.rows ensures !IsRecentActivity(b.db.store, k, b.db.store.rows[row].runbookId, cutoff) {
      assert !IsRecentActivity(a.db.store, k, a.db.store.rows[row].runbookId, cutoff);
    }
  }

  /** Once every overdue item of a kind has been worked off, none of that kind is left. */
  lemma AllWorkedLeavesNone(a: Tables, b: Tables, at: int, organizationId: string, items: seq<Item>, kind: Kind)
    requires Worked(a, b, at, organizationId, items, |items|)
    requires forall item :: Overdue(a, item, at) && item.organizationId == organizationId && KindOf(item) == kind ==>
               item in items || (item.OldRequest? && item.id in b.db.verifications)
    ensures NoneLeft(b, organizationId, kind, at)
  {
    forall item | Overdue(b, item, at) && item.organizationId == organizationId && KindOf(item) == kind
      ensures item.OldRequest? && item.id in b.db.verifications
    {
      assert Overdue(a, item, at) && item !in First(items, |items|);
      assert item !in items;
    }
  }

  // ---------- counting what was worked off ----------

  datatype Deleted = Deleted(projects: nat, runbooks: nat, audits: nat, requests: nat, verifications: nat)

  function Total(d: Deleted): nat {
    d.projects + d.runbooks + d.audits + d.requests + d.verifications
  }

  function Sum(a: Deleted, b: Deleted): Deleted {
    Deleted(a.projects + b.projects, a.runbooks + b.runbooks, a.audits + b.audits, a.requests + b.requests,
            a.verifications + b.verifications)
  }

  function If(condition: bool, n: nat): nat {
    if condition then n else 0
  }

  /** The counters of `n` items of one kind. */
  function Only(kind: Kind, n: nat): Deleted {
    Deleted(If(kind.Projects?, n), If(kind.Runbooks?, n), If(kind.Audits?, n), If(kind.Requests?, n),
            If(kind.Verifications?, n))
  }

  ghost function OfKind(done: set<Item>, kind: Kind): set<Item> {
    set item | item in done && KindOf(item) == kind
  }

  /** Each counter says how many items of its kind there are. */
  ghost predicate Counted(done: set<Item>, d: Deleted) {
    && |OfKind(done, Projects)| == d.projects && |OfKind(done, Runbooks)| == d.runbooks
        && |OfKind(done, Audits)| == d.audits
    && |OfKind(done, Requests)| == d.requests && |OfKind(done, Verifications)| == d.verifications
  }

  lemma JoinedKind(one: set<Item>, two: set<Item>, kind: Kind)
    requires one !! two
    ensures |OfKind(one + two, kind)| == |OfKind(one, kind)| + |OfKind(two, kind)|
  {
    assert OfKind(one + two, kind) == OfKind(one, kind) + OfKind(two, kind);
  }

  lemma CountedJoins(one: set<Item>, two: set<Item>, d: Deleted, e: Deleted)
    requires one !! two && Counted(one, d) && Counted(two, e)
    ensures Counted(one + two, Sum(d, e))
  {
    JoinedKind(one, two, Projects);
    JoinedKind(one, two, Runbooks);
    JoinedKind(one, two, Audits);
    JoinedKind(one, two, Requests);
    JoinedKind(one, two, Verifications);
  }

  const NONE := Deleted(0, 0, 0, 0, 0)

  lemma NothingCounted()
    ensures Counted({}, NONE)
  {
    forall kind ensures OfKind({}, kind) == {} {
    }
    assert |OfKind({}, Projects)| == |OfKind({}, Runbooks)| == |OfKind({}, Audits)| == 0;
  }

  /** Items of one kind. */
  lemma OneKindCounted(items: seq<Item>, kind: Kind)
    requires Distinct(items) && forall i :: 0 <= i < |items| ==> KindOf(items[i]) == kind
    ensures Counted(First(items, |items|), Only(kind, |items|))
  {
    var more := First(items, |items|);
    FirstCounts(items, |items|);
    FirstHasKind(items, kind);
    forall k ensures OfKind(more, k) == if k == kind then more else {} {
    }
    assert |OfKind(more, Projects)| == if kind == Projects then |more| else 0;
  }

  ghost function NotOfKind(done: set<Item>, kind: Kind): set<Item> {
    set item | item in done && KindOf(item) != kind
  }

  lemma TakeKind(done: set<Item>, kind: Kind)
    ensures |done| == |OfKind(done, kind)| + |NotOfKind(done, kind)|
    ensures forall other :: other != kind ==> OfKind(NotOfKind(done, kind), other) == OfKind(done, other)
    ensures OfKind(NotOfKind(done, kind), kind) == {}
  {
    assert done == OfKind(done, kind) + NotOfKind(done, kind);
  }

  lemma NoKindIsNothing(done: set<Item>)
    requires forall kind :: OfKind(done, kind) == {}
    ensures done == {}
  {
    forall item ensures item !in done {
      assert item !in OfKind(done, KindOf(item));
    }
  }

  /** The counters add up to the number of items. */
  lemma CountersAddUp(done: set<Item>, d: Deleted)
    requires Counted(done, d)
    ensures |done| == Total(d)
  {
    var one := NotOfKind(done, Projects);
    var two := NotOfKind(one, Runbooks);
    var three := NotOfKind(two, Audits);
    var four := NotOfKind(three, Requests);
    var five := NotOfKind(four, Verifications);
    TakeKind(done, Projects);
    TakeKind(one, Runbooks);
    TakeKind(two, Audits);
    TakeKind(three, Requests);
    TakeKind(four, Verifications);
    forall kind ensures OfKind(five, kind) == {} {
      match kind case Projects => case Runbooks => case Audits => case Requests => case Verifications =>
    }
    NoKindIsNothing(five);
  }

  // ---------- the stages of one organization's sweep ----------

  /**
   Work for one organization so far: what was deleted, and which kinds are cleared if something is left of the budget.
   */
  ghost predicate Stage(a: Tables, b: Tables, at: int, organizationId: string, done: set<Item>,
                        spent: Deleted, left: nat, kinds: set<Kind>)
  {
    && Progress(a, b, at, done) && Counted(done, spent)
    && (forall item :: item in done ==> item.organizationId == organizationId)
    && (left > 0 ==> Cleared(b, organizationId, kinds, at))
  }

  lemma StageStarts(a: Tables, at: int, organizationId: string, left: nat)
    ensures Stage(a, a, at, organizationId, {}, NONE, left, {})
  {
    NothingCounted();
  }

  /** The kinds that are cleared for an organization. */
  ghost predicate Cleared(t: Tables, organizationId: string, kinds: set<Kind>, at: int) {
    forall kind :: kind in kinds ==> NoneLeft(t, organizationId, kind, at)
  }

  lemma WorkJoins(a: Tables, b: Tables, c: Tables, at: int, organizationId: string, done: set<Item>, items: seq<Item>)
    requires C.Kept(b.db.store) && Progress(a, b, at, done) && Worked(b, c, at, organizationId, items, |items|)
    ensures Progress(a, c, at, done + First(items, |items|)) && done !! First(items, |items|)
  {
    ProgressComposes(a, b, c, at, done, First(items, |items|));
  }

  lemma OneMoreKindCleared(b: Tables, c: Tables, at: int, organizationId: string, items: seq<Item>, kinds: set<Kind>,
                           kind: Kind)
    requires VerificationsRefer(b.db) && Progress(b, c, at, First(items, |items|))
    requires forall i :: 0 <= i < |items| ==> KindOf(items[i]) == kind
    requires kind.Verifications? ==> Requests !in kinds
    requires Cleared(b, organizationId, kinds, at) && NoneLeft(c, organizationId, kind, at)
    ensures Cleared(c, organizationId, kinds + {kind}, at)
  {
    FirstHasKind(items, kind);
    KindsStayCleared(b, c, at, organizationId, First(items, |items|), kinds, kind);
  }

  lemma StageJoins(a: Tables, b: Tables, c: Tables, at: int, organizationId: string, done: set<Item>,
                   spent: Deleted, left: nat, kinds: set<Kind>, items: seq<Item>, kind: Kind)
    requires C.Kept(b.db.store) && VerificationsRefer(b.db)
    requires Stage(a, b, at, organizationId, done, spent, left, kinds)
    requires Worked(b, c, at, organizationId, items, |items|) && |items| <= left
    requires forall i :: 0 <= i < |items| ==> KindOf(items[i]) == kind
    requires |items| < left ==> NoneLeft(c, organizationId, kind, at)
    requires kind.Verifications? ==> Requests !in kinds
    ensures Stage(a, c, at, organizationId, done + First(items, |items|), Sum(spent, Only(kind, |items|)),
                  left - |items|,
                  kinds + {kind})
  {
    WorkJoins(a, b, c, at, organizationId, done, items);
    OneKindCounted(items, kind);
    CountedJoins(done, First(items, |items|), spent, Only(kind, |items|));
    if |items| < left {
      OneMoreKindCleared(b, c, at, organizationId, items, kinds, kind);
    }
  }

  lemma FirstHasKind(items: seq<Item>, kind: Kind)
    requires forall i :: 0 <= i < |items| ==> KindOf(items[i]) == kind
    ensures forall item :: item in First(items, |items|) ==> KindOf(item) == kind
  {
  }

  lemma NoneLeftStaysBeside(b: Tables, c: Tables, at: int, done: set<Item>, organizationId: string, other: Kind,
                            kind: Kind)
    requires VerificationsRefer(b.db) && Progress(b, c, at, done) && NoneLeft(b, organizationId, other, at)
    requires forall item :: item in done ==> KindOf(item) == kind
    requires !(other.Requests? && kind.Verifications?)
    ensures NoneLeft(c, organizationId, other, at)
  {
    if other.Requests? {
      forall id ensures OldVerification(organizationId, id) !in done {
        assert KindOf(OldVerification(organizationId, id)) != kind;
      }
    }
    NoneLeftStays(b, c, at, done, organizationId, other);
  }

  lemma KindsStayCleared(b: Tables, c: Tables, at: int, organizationId: string, done: set<Item>, kinds: set<Kind>,
                         kind: Kind)
    requires VerificationsRefer(b.db) && Progress(b, c, at, done)
    requires forall item :: item in done ==> KindOf(item) == kind
    requires kind.Verifications? ==> Requests !in kinds
    requires Cleared(b, organizationId, kinds, at)
    ensures Cleared(c, organizationId, kinds, at)
  {
    forall k | k in kinds ensures NoneLeft(c, organizationId, k, at) {
      NoneLeftStaysBeside(b, c, at, done, organizationId, k, kind);
    }
  }

  /** What one organization's sweep achieves: it is clean if something is left of the budget. */
  ghost predicate Swept(a: Tables, b: Tables, at: int, organizationId: string, done: set<Item>, spent: Deleted,
                        left: nat) {
    && Progress(a, b, at, done) && Counted(done, spent)
    && (forall item :: item in done ==> item.organizationId == organizationId)
    && (left > 0 ==> Clean(b, organizationId, at))
  }

  /** All five kinds cleared, and the sweep's own audit event written. */
  lemma AllStagesSweep(a: Tables, b: Tables, at: int, organizationId: string, done: set<Item>, spent: Deleted,
                       left: nat,
                       kinds: set<Kind>, n: nat, audit: Audit)
    requires C.Kept(b.db.store) && VerificationsRefer(b.db) && PoliciesOk(b)
    requires Stage(a, b, at, organizationId, done, spent, left, kinds)
    requires Projects in kinds && Runbooks in kinds && Verifications in kinds && Requests in kinds && Audits in kinds
    requires n !in b.audits && audit.occurredAt >= at
    ensures Swept(a, b.(audits := b.audits[n := audit]), at, organizationId, done, spent, left)
  {
    var c := b.(audits := b.audits[n := audit]);
    AuditAddsNothing(b, n, audit, at);
    NothingMore(a, b, c, at, done);
    if left > 0 {
      AllKinds(kinds);
      AllClearedIsClean(b, organizationId, kinds, at);
      CleanStays(b, c, at, {}, organizationId);
    }
  }

  lemma NothingMore(a: Tables, b: Tables, c: Tables, at: int, done: set<Item>)
    requires C.Kept(b.db.store) && Progress(a, b, at, done) && Progress(b, c, at, {})
    ensures Progress(a, c, at, done)
  {
    WithNothing(done);
    ProgressComposes(a, b, c, at, done, {});
  }

  lemma WithNothing(done: set<Item>)
    ensures done + {} == done
  {
  }

  lemma AllKinds(kinds: set<Kind>)
    requires Projects in kinds && Runbooks in kinds && Verifications in kinds && Requests in kinds && Audits in kinds
    ensures forall kind: Kind :: kind in kinds
  {
    forall kind: Kind ensures kind in kinds {
      match kind case Projects => case Runbooks => case Verifications => case Requests => case Audits =>
    }
  }

  lemma AllClearedIsClean(b: Tables, organizationId: string, kinds: set<Kind>, at: int)
    requires Cleared(b, organizationId, kinds, at) && forall kind: Kind :: kind in kinds
    ensures Clean(b, organizationId, at)
  {
  }

  /** The organizations visited so far, all of them clean if something is left of the budget. */
  ghost predicate Visited(a: Tables, b: Tables, at: int, organizations: seq<string>, k: nat, done: set<Item>,
                          spent: Deleted, left: nat)
    requires k <= |organizations|
  {
    && Progress(a, b, at, done) && Counted(done, spent)
    && (left > 0 ==> forall i :: 0 <= i < k ==> Clean(b, organizations[i], at))
  }

  lemma VisitsStart(a: Tables, at: int, organizations: seq<string>, left: nat)
    ensures Visited(a, a, at, organizations, 0, {}, NONE, left)
  {
    NothingCounted();
  }

  lemma VisitJoins(a: Tables, b: Tables, c: Tables, at: int, organizations: seq<string>, k: nat,
                   done: set<Item>, spent: Deleted, left: nat, more: set<Item>, extra: Deleted, after: nat)
    requires C.Kept(b.db.store) && k < |organizations|
    requires Visited(a, b, at, organizations, k, done, spent, left)
    requires Swept(b, c, at, organizations[k], more, extra, after)
    ensures Progress(a, c, at, done + more) && Counted(done + more, Sum(spent, extra))
  {
    ProgressComposes(a, b, c, at, done, more);
    CountedJoins(done, more, spent, extra);
  }

  lemma VisitedOneMore(a: Tables, b: Tables, c: Tables, at: int, organizations: seq<string>, k: nat,
                       done: set<Item>, spent: Deleted, left: nat, more: set<Item>, extra: Deleted, after: nat)
    requires C.Kept(b.db.store) && VerificationsRefer(b.db) && Distinct(organizations) && k < |organizations|
    requires Visited(a, b, at, organizations, k, done, spent, left) && after <= left
    requires Swept(b, c, at, organizations[k], more, extra, after)
    ensures Visited(a, c, at, organizations, k + 1, done + more, Sum(spent, extra), after)
  {
    VisitJoins(a, b, c, at, organizations, k, done, spent, left, more, extra, after);
    if after > 0 {
      VisitLeavesClean(b, c, at, organizations, k, more);
    }
  }

  /** The ones visited before are clean still, and so is this one. */
  lemma VisitLeavesClean(b: Tables, c: Tables, at: int, organizations: seq<string>, k: nat, more: set<Item>)
    requires VerificationsRefer(b.db) && Distinct(organizations) && k < |organizations| && Progress(b, c, at, more)
    requires forall item :: item in more ==> item.organizationId == organizations[k]
    requires (forall i :: 0 <= i < k ==> Clean(b, organizations[i], at)) && Clean(c, organizations[k], at)
    ensures forall i :: 0 <= i < k + 1 ==> Clean(c, organizations[i], at)
  {
    OthersStayClean(b, c, at, organizations, k, more);
  }

  lemma OthersStayClean(b: Tables, c: Tables, at: int, organizations: seq<string>, k: nat, more: set<Item>)
    requires VerificationsRefer(b.db) && Distinct(organizations) && k < |organizations| && Progress(b, c, at, more)
    requires forall item :: item in more ==> item.organizationId == organizations[k]
    requires forall i :: 0 <= i < k ==> Clean(b, organizations[i], at)
    ensures forall i :: 0 <= i < k ==> Clean(c, organizations[i], at)
  {
    forall i | 0 <= i < k ensures Clean(c, organizations[i], at) {
      CleanStays(b, c, at, more, organizations[i]);
    }
  }

  ghost predicate OnlyFor(organizations: seq<string>, done: set<Item>) {
    forall item :: item in done ==> item.organizationId in organizations
  }

  ghost predicate CleanBehind(b: Tables, at: int, organizations: seq<string>, k: nat)
    requires k <= |organizations|
  {
    forall i :: 0 <= i < k - 1 ==> Clean(b, organizations[i], at)
  }

  /** Only organizations visited were worked for, and before going on to the next the sweep left each of them clean. */
  ghost predicate InOrder(b: Tables, at: int, organizations: seq<string>, k: nat, done: set<Item>)
    requires k <= |organizations|
  {
    OnlyFor(organizations[..k], done) && CleanBehind(b, at, organizations, k)
  }

  lemma OnlyForOneMore(organizations: seq<string>, k: nat, done: set<Item>, more: set<Item>)
    requires k < |organizations| && OnlyFor(organizations[..k], done)
    requires forall item :: item in more ==> item.organizationId == organizations[k]
    ensures OnlyFor(organizations[..k + 1], done + more)
  {
    assert organizations[..k + 1] == organizations[..k] + [organizations[k]];
  }

  lemma CleanBehindOneMore(b: Tables, c: Tables, at: int, organizations: seq<string>, k: nat, more: set<Item>)
    requires VerificationsRefer(b.db) && Distinct(organizations) && k < |organizations| && Progress(b, c, at, more)
    requires forall item :: item in more ==> item.organizationId == organizations[k]
    requires forall i :: 0 <= i < k ==> Clean(b, organizations[i], at)
    ensures CleanBehind(c, at, organizations, k + 1)
  {
    OthersStayClean(b, c, at, organizations, k, more);
  }

  lemma InOrderOneMore(a: Tables, b: Tables, c: Tables, at: int, organizations: seq<string>, k: nat,
                       done: set<Item>, spent: Deleted, left: nat, more: set<Item>, extra: Deleted, after: nat)
    requires VerificationsRefer(b.db) && Distinct(organizations) && k < |organizations| && left > 0
    requires Visited(a, b, at, organizations, k, done, spent, left) && InOrder(b, at, organizations, k, done)
    requires Swept(b, c, at, organizations[k], more, extra, after)
    ensures InOrder(c, at, organizations, k + 1, done + more)
  {
    OnlyForOneMore(organizations, k, done, more);
    CleanBehindOneMore(b, c, at, organizations, k, more);
  }

  /** A sweep counts every organization it visits and skips none before its limit is used up. */
  ghost predicate VisitedAsFarAs(a: Tables, b: Tables, at: int, order: seq<string>, visited: nat, done: set<Item>,
                                 exhausted: bool) {
    && Distinct(order) && (forall o :: o in order <==> o in a.live) && visited <= |order|
    && InOrder(b, at, order, visited, done)
    && (!exhausted ==> visited == |order|) && (order != [] ==> visited > 0)
  }

  // ---------- what a sweep has removed ----------

  ghost predicate WasFree(r: Request, at: int) {
    && !r.status.Recoverable?
    && (r.status.Purged? ==> r.backupEligibleAt.Some? && r.backupEligibleAt.value + 60 * DAY < at)
  }

  /** Every request that is gone had ended, and a purged one had been free of backups for sixty days. */
  ghost predicate RemovedWereFree(a: Tables, b: Tables, at: int) {
    forall id :: id in a.db.requests && id !in b.db.requests ==> WasFree(a.db.requests[id], at)
  }

  lemma OldRequestWasFree(w: World, a: Tables, o: string, id: string, at: int)
    requires Sound(w) && w.db == a.db && PoliciesOk(a) && IsOldRequest(a, id, o, at)
    ensures WasFree(a.db.requests[id], at)
  {
    if a.db.requests[id].status.Purged? {
      SweptRequestsAreSixtyDaysFree(w, id, at, if o in a.policies then a.policies[o].securityDays else SECURITY_DAYS);
    }
  }

  lemma RemovedWasOverdue(a: Tables, b: Tables, at: int, done: set<Item>, id: string)
    requires Progress(a, b, at, done) && id in a.db.requests && id !in b.db.requests
    ensures IsOldRequest(a, id, a.db.requests[id].claim.organizationId, at)
  {
    assert Overdue(a, OldRequest(a.db.requests[id].claim.organizationId, id), at);
  }

  /** Whatever a sweep has worked off: the requests that are gone were free to go. */
  lemma RemovedRequestsWereFree(w: World, a: Tables, b: Tables, at: int, done: set<Item>)
    requires Sound(w) && w.db == a.db && PoliciesOk(a) && Progress(a, b, at, done)
    ensures RemovedWereFree(a, b, at)
  {
    forall id | id in a.db.requests && id !in b.db.requests ensures WasFree(a.db.requests[id], at) {
      RemovedWasOverdue(a, b, at, done, id);
      OldRequestWasFree(w, a, a.db.requests[id].claim.organizationId, id, at);
    }
  }

  /** A whole sweep: everything done was overdue, and if the limit was not used up nothing overdue is left. */
  ghost predicate SweptAll(a: Tables, b: Tables, at: int, done: set<Item>, spent: Deleted, limit: nat) {
    && Progress(a, b, at, done) && Counted(done, spent) && Total(spent) <= limit
    && (Total(spent) < limit ==> forall o :: o in b.live ==> Clean(b, o, at))
  }

  lemma AllVisited(a: Tables, b: Tables, at: int, organizations: seq<string>, k: nat, done: set<Item>, spent: Deleted,
                   left: nat, limit: nat)
    requires k <= |organizations| && Visited(a, b, at, organizations, k, done, spent, left)
             && Total(spent) + left == limit
    requires left > 0 ==> k == |organizations|
    requires forall o :: o in a.live ==> o in organizations
    ensures SweptAll(a, b, at, done, spent, limit)
  {
    if left > 0 {
      forall o | o in b.live ensures Clean(b, o, at) {
        var i :| 0 <= i < |organizations| && organizations[i] == o;
      }
    }
  }

  // ---------- repeated sweeps ----------

  ghost predicate Exhausts(a: Tables, b: Tables, at: int, limit: nat) {
    exists done, spent :: Total(spent) == limit && SweptAll(a, b, at, done, spent, limit)
  }

  /** Sweeps at one time, one after the other, each of which used up its limit. */
  ghost predicate AllExhausted(states: seq<Tables>, at: int, limit: nat) {
    forall i, j {:trigger Exhausts(states[i], states[j], at, limit)} ::
      0 <= i < j < |states| && j == i + 1 ==> Exhausts(states[i], states[j], at, limit)
  }

  /** The sizes of the backlogs, as long as each is smaller than the one before by at least the limit. */
  ghost predicate FallsBy(sizes: seq<nat>, limit: nat) {
    forall i, j :: 0 <= i < j < |sizes| && j == i + 1 ==> sizes[j] + limit <= sizes[i]
  }

  lemma {:induction false} FallMultiplies(sizes: seq<nat>, limit: nat)
    requires sizes != [] && FallsBy(sizes, limit)
    ensures sizes[|sizes| - 1] + (|sizes| - 1) * limit <= sizes[0]
  {
    if |sizes| > 1 {
      FallMultiplies(sizes[..|sizes| - 1], limit);
    }
  }

  /**
   While the clock stands still, every sweep that uses up its limit takes that many items off the backlog, so
   only so many such sweeps can follow each other.
   */
  lemma ExhaustedSweepsEnd(states: seq<Tables>, at: int, limit: nat)
    requires states != [] && AllExhausted(states, at, limit)
    ensures |Backlog(states[|states| - 1], at)| + (|states| - 1) * limit <= |Backlog(states[0], at)|
  {
    SizesFall(states, at, limit);
    FallMultiplies(BacklogSizes(states, at), limit);
  }

  lemma SizesFall(states: seq<Tables>, at: int, limit: nat)
    requires AllExhausted(states, at, limit)
    ensures FallsBy(BacklogSizes(states, at), limit)
  {
    var sizes := BacklogSizes(states, at);
    forall i, j | 0 <= i < j < |sizes| && j == i + 1 ensures sizes[j] + limit <= sizes[i] {
      OneSweepShrinks(states, at, limit, i, j);
    }
  }

  lemma OneSweepShrinks(states: seq<Tables>, at: int, limit: nat, i: nat, j: nat)
    requires AllExhausted(states, at, limit) && i < j < |states| && j == i + 1
    ensures |Backlog(states[j], at)| + limit <= |Backlog(states[i], at)|
  {
    assert Exhausts(states[i], states[j], at, limit);
    ExhaustedSweepShrinks(states[i], states[j], at, limit);
  }

  ghost function BacklogSizes(states: seq<Tables>, at: int): seq<nat> {
    seq(|states|, i requires 0 <= i < |states| => |Backlog(states[i], at)|)
  }

  lemma ExhaustedSweepShrinks(a: Tables, b: Tables, at: int, limit: nat)
    requires Exhausts(a, b, at, limit)
    ensures |Backlog(b, at)| + limit <= |Backlog(a, at)|
  {
    var done, spent :| Total(spent) == limit && SweptAll(a, b, at, done, spent, limit);
    SweepShrinksBacklog(a, b, at, done, spent, limit);
  }

  lemma SweepShrinksBacklog(a: Tables, b: Tables, at: int, done: set<Item>, spent: Deleted, limit: nat)
    requires SweptAll(a, b, at, done, spent, limit)
    ensures |Backlog(b, at)| + Total(spent) <= |Backlog(a, at)|
  {
    CountersAddUp(done, spent);
    TakenAway(Backlog(b, at), Backlog(a, at), done);
  }

  lemma TakenAway<T>(small: set<T>, large: set<T>, gone: set<T>)
    requires gone <= large && small <= large - gone
    ensures |small| + |gone| <= |large|
  {
    SubsetIsSmaller(small, large - gone);
    assert large == (large - gone) + gone;
  }

  lemma {:induction false} SubsetIsSmaller<T>(small: set<T>, large: set<T>)
    requires small <= large
    ensures |small| <= |large|
  {
    if small != {} {
      var x :| x in small;
      SubsetIsSmaller(small - {x}, large - {x});
    }
  }
}
