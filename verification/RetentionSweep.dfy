/**
 The retention sweep: a budgeted pass over the live organizations that purges due projects, removes stale
 runbooks and deletes old evidence. The class runs it as the repository does; the ghost field `world` shows
 that what the sweep does to the deletion tables is a run of the deletion protocol.
 */
module RetentionSweep {
  import opened Results
  import opened ProjectDeletion
  import opened DeletionProtocol
  import opened RetentionBacklog
  import opened RetentionTerms
  import C = ProjectCascade

  datatype Summary = Summary(startedAt: int, completedAt: int, limit: int, deleted: Deleted,
                             organizationsVisited: nat, exhausted: bool)

  datatype SweepError = LimitInvalid

  datatype PurgeError = Refused(refusal: Refusal) | Aborted(abort: Abort)

  // ---------- the database's SELECT … ORDER BY … LIMIT ----------

  function Least(a: int, b: int): int {
    if a <= b then a else b
  }

  lemma {:induction false} SmallestExists<T(!new)>(keys: map<T, int>, rest: set<T>)
    requires rest != {} && rest <= keys.Keys
    ensures exists best :: best in rest && forall other :: other in rest ==> keys[best] <= keys[other]
    decreases |rest|
  {
    var one :| one in rest;
    if rest == {one} {
      assert forall other :: other in rest ==> keys[one] <= keys[other];
    } else {
      SmallestExists(keys, rest - {one});
      var best :| best in rest - {one} && forall other :: other in rest - {one} ==> keys[best] <= keys[other];
      var least := if keys[one] <= keys[best] then one else best;
      assert least in rest && forall other :: other in rest ==> keys[least] <= keys[other];
    }
  }

  /** Distinct rows, oldest key first, as many as the limit lets through; rows with equal keys in any order. */
  method Select<T(==, !new)>(keys: map<T, int>, limit: nat) returns (rows: seq<T>)
    ensures |rows| == Least(|keys.Keys|, limit)
    ensures forall i :: 0 <= i < |rows| ==> rows[i] in keys
    ensures forall i, j :: 0 <= i < j < |rows| ==> rows[i] != rows[j] && keys[rows[i]] <= keys[rows[j]]
    ensures forall k, i :: k in keys && k !in rows && 0 <= i < |rows| ==> keys[rows[i]] <= keys[k]
    ensures |rows| < limit || |rows| == |keys.Keys| ==> forall k :: k in keys ==> k in rows
  {
    rows := [];
    var rest := keys.Keys;
    while |rows| < limit && rest != {}
      invariant |rows| <= limit && |rows| + |rest| == |keys.Keys|
      invariant rest <= keys.Keys
      invariant forall k :: k in keys ==> (k in rest <==> k !in rows)
      invariant forall i :: 0 <= i < |rows| ==> rows[i] in keys
      invariant forall i, j :: 0 <= i < j < |rows| ==> rows[i] != rows[j] && keys[rows[i]] <= keys[rows[j]]
      invariant forall k, i :: k in rest && 0 <= i < |rows| ==> keys[rows[i]] <= keys[k]
      decreases |rest|
    {
      SmallestExists(keys, rest);
      var best :| best in rest && forall other :: other in rest ==> keys[best] <= keys[other];
      rows, rest := rows + [best], rest - {best};
    }
  }

  // ---------- ORDER BY id ----------

  /** The order of ids: by their characters, a beginning before what it begins. */
  predicate Before(a: string, b: string) {
    if b == "" then false
    else if a == "" then true
    else a[0] < b[0] || (a[0] == b[0] && Before(a[1..], b[1..]))
  }

  lemma {:induction false} BeforeIsTotal(a: string, b: string)
    ensures a == b || Before(a, b) || Before(b, a)
  {
    if a != "" && b != "" && a[0] == b[0] {
      BeforeIsTotal(a[1..], b[1..]);
      assert a == [a[0]] + a[1..] && b == [b[0]] + b[1..];
    }
  }

  lemma {:induction false} BeforeIsTransitive(a: string, b: string, c: string)
    requires Before(a, b) && Before(b, c)
    ensures Before(a, c)
  {
    if a != "" && a[0] == b[0] == c[0] {
      BeforeIsTransitive(a[1..], b[1..], c[1..]);
    }
  }

  lemma {:induction false} BeforeIsStrict(a: string)
    ensures !Before(a, a)
  {
    if a != "" {
      BeforeIsStrict(a[1..]);
    }
  }

  ghost predicate Ordered(ids: seq<string>) {
    forall i, j :: 0 <= i < j < |ids| ==> Before(ids[i], ids[j])
  }

  ghost predicate IsFirst(id: string, ids: set<string>) {
    id in ids && forall other :: other in ids && other != id ==> Before(id, other)
  }

  lemma {:induction false} FirstExists(ids: set<string>)
    requires ids != {}
    ensures exists id :: IsFirst(id, ids)
    decreases |ids|
  {
    var one :| one in ids;
    if ids == {one} {
      assert IsFirst(one, ids);
    } else {
      FirstExists(ids - {one});
      var first :| IsFirst(first, ids - {one});
      BeforeIsTotal(one, first);
      if Before(first, one) {
        assert IsFirst(first, ids);
      } else {
        FirstBeforeAll(one, first, ids);
      }
    }
  }

  lemma {:induction false} FirstBeforeAll(one: string, first: string, ids: set<string>)
    requires one in ids && one != first && Before(one, first) && IsFirst(first, ids - {one})
    ensures IsFirst(one, ids)
  {
    forall other | other in ids && other != one ensures Before(one, other) {
      if other != first {
        BeforeIsTransitive(one, first, other);
      }
    }
  }

  lemma OrderedIsDistinct(ids: seq<string>)
    requires Ordered(ids)
    ensures Distinct(ids)
  {
    forall i, j | 0 <= i < j < |ids| ensures ids[i] != ids[j] {
      BeforeIsStrict(ids[i]);
    }
  }

  // ---------- one purge, start to end ----------

  /** What a purge leaves in the database and tells its caller when no other actor moves meanwhile. */
  function PurgeOutcome(db: Db, organizationId: string, projectId: string, actor: string, id: string, now: int)
    : (Db, Result<Request, PurgeError>)
  {
    match Consider(db, PurgeProject(organizationId, projectId, actor, id), now)
    case Err(refusal) => (db, Err(Refused(refusal)))
    case Ok(plan) =>
      if plan.Answered? then (db, Err(Refused(PurgeConflict)))
      else if !Confirmed(db, plan.action) then (db, Err(Refused(PurgeConflict)))
      else
        match Run(db, plan.action)
        case Err(abort) => (db, Err(Aborted(abort)))
        case Ok(n) =>
          match AnswerAtOnce(n, plan.action)
          case Err(refusal) => (n, Err(Refused(refusal)))
          case Ok(request) => (n, Ok(request))
  }

  function PurgePlan(db: Db, organizationId: string, actor: string, id: string, now: int): Action
    requires id in db.requests
  {
    Purge(organizationId, db.requests[id].claim.projectId, actor, id, db.requests[id].claim.requestedAt, now)
  }

  ghost function Ready(w: World, a: Action): World {
    w.(read := w.read + {a}, ready := w.ready + {a})
  }

  /** Reading and confirming make a plan ready; the batch may then run. */
  lemma ReadyIsReached(w: World, call: Call, now: int, a: Action)
    requires Reachable(w) && call.PurgeProject? && Consider(w.db, call, now) == Ok(Go(a)) && Confirmed(w.db, a)
    ensures Reachable(Ready(w, a)) && Reachable(Next(Ready(w, a), Batch(a)))
  {
    var looked := Next(w, Look(call, now));
    ReachableNext(w, Look(call, now));
    assert looked == w.(read := w.read + {a});
    ReachableNext(looked, Confirm(a));
    assert Next(looked, Confirm(a)) == Ready(w, a);
    ReachableNext(Ready(w, a), Batch(a));
  }

  lemma DuePurgeIsConfirmed(w: World, organizationId: string, actor: string, id: string, now: int)
    requires Reachable(w) && MatchesRequest(w.db, id, organizationId) && now >= w.db.requests[id].claim.recoveryUntil
    ensures Confirmed(w.db, PurgePlan(w.db, organizationId, actor, id, now))
  {
    ReachableIsSound(w);
    assert ScopeMatches(w.db.store, w.db.requests[id].claim);
  }

  /** A plan that is ready and wins runs through, and its actor is told so. */
  lemma ReadyPurgeRuns(w: World, a: Action)
    requires Reachable(w) && a.Purge? && a in w.ready && Wins(w.db, a) && Enabled(w, Batch(a))
    ensures Run(w.db, a) == Ok(Effect(w.db, a))
    ensures AnswerAtOnce(Effect(w.db, a), a) == Ok(PurgedRequest(w.db.requests[a.requestId], a.now, a.actor))
  {
    ReachableIsSound(w);
    PurgeIsAllOrNothing(w, a);
    WonPurgeAnswers(w, a);
  }

  /** A purge of an overdue request, run without interruption, succeeds. */
  lemma DuePurgeSucceeds(w: World, organizationId: string, actor: string, id: string, now: int)
    requires Reachable(w) && MatchesRequest(w.db, id, organizationId) && now >= w.db.requests[id].claim.recoveryUntil
    ensures var a := PurgePlan(w.db, organizationId, actor, id, now);
            && Reachable(Ready(w, a)) && Wins(w.db, a)
            && PurgeOutcome(w.db, organizationId, w.db.requests[id].claim.projectId, actor, id, now)
               == (Effect(w.db, a), Ok(PurgedRequest(w.db.requests[id], now, actor)))
  {
    var a := PurgePlan(w.db, organizationId, actor, id, now);
    DuePurgeIsConfirmed(w, organizationId, actor, id, now);
    ReadyIsReached(w, PurgeProject(organizationId, w.db.requests[id].claim.projectId, actor, id), now, a);
    ReadyPurgeRuns(Ready(w, a), a);
  }

  // ---------- one piece of the sweep's work ----------

  lemma RunbookKey(s: C.Store, row: C.RowId)
    requires C.Kept(s) && row in s.rows && row.table.Runbooks?
    ensures row == C.RowId(C.Runbooks, C.One(s.rows[row].runbookId))
  {
    assert C.RowKept(s, row);
  }

  lemma SweepTakesTheRunbook(s: C.Store, row: C.RowId, organizationId: string, projectId: string, at: int)
    requires C.AtRest(s) && row in s.rows && row.table.Runbooks? && s.rows[row].organizationId == organizationId
    requires s.rows[row].projectId == projectId
    ensures var batch := C.SweepRunbook(s, row.key.id, organizationId, projectId, at);
            && batch.Ok? && batch.value == C.After(s, C.Sweep(row.key.id, organizationId, projectId, at))
            && C.OnlyLost(s, batch.value, C.RowsOfRunbook(s, s.rows[row].runbookId))
                && batch.value.projects == s.projects
  {
    RunbookKey(s, row);
    C.SweepRemovesTheRunbook(s, row.key.id, organizationId, projectId, at);
  }

  lemma SweepIsAStep(w: World, runbookId: string, organizationId: string, projectId: string, at: int) returns (v: World)
    requires Reachable(w)
    ensures Reachable(v) && v.db == w.db.(store := C.After(w.db.store,
                                                           C.Sweep(runbookId, organizationId, projectId, at)))
  {
    ReachableNext(w, Content(C.Sweep(runbookId, organizationId, projectId, at)));
    v := Next(w, Content(C.Sweep(runbookId, organizationId, projectId, at)));
  }

  /** The sweep's batch for one selected runbook, and the world after it. */
  lemma StaleRunbookGoes(w: World, t: Tables, row: C.RowId, organizationId: string, projectId: string, at: int)
      returns (v: World)
    requires Reachable(w) && w.db == t.db && organizationId in t.live && IsStale(t, row, organizationId, at)
    requires t.db.store.rows[row].projectId == projectId
    ensures var batch := C.SweepRunbook(t.db.store, row.key.id, organizationId, projectId, at);
            && batch.Ok? && Reachable(v)
            && var u := t.(db := t.db.(store := batch.value));
               v.db == u.db && Progress(t, u, at, {StaleRunbook(organizationId, row)})
  {
    ReachableIsSound(w);
    SweepTakesTheRunbook(t.db.store, row, organizationId, projectId, at);
    SweepProgress(t, row, C.SweepRunbook(t.db.store, row.key.id, organizationId, projectId, at).value, organizationId,
                  at);
    v := SweepIsAStep(w, row.key.id, organizationId, projectId, at);
  }

  /** One purge, with its audit event, as one piece of the sweep's work. */
  lemma DuePurgeProgress(w: World, t: Tables, n: nat, id: string, actor: string, organizationId: string, now: int,
                         at: int)
    requires Reachable(w) && w.db == t.db && PoliciesOk(t) && n !in t.audits
    requires organizationId in t.live && IsDue(t, id, organizationId, at) && now >= at
    ensures var outcome := PurgeOutcome(t.db, organizationId, t.db.requests[id].claim.projectId, actor, id, now);
            && outcome.1.Ok?
            && Progress(t, t.(db := outcome.0, audits := t.audits[n := Audit(organizationId, now)]), at,
                        {DueProject(organizationId, id)})
  {
    var a := PurgePlan(t.db, organizationId, actor, id, now);
    DuePurgeSucceeds(w, organizationId, actor, id, now);
    ReachableIsSound(Ready(w, a));
    PurgeProgress(Ready(w, a), t, a, organizationId, at);
    PurgeKeepsReferences(Ready(w, a), a);
    AuditedProgress(t, t.(db := Effect(t.db, a)), n, Audit(organizationId, now), at, {DueProject(organizationId, id)});
  }

  lemma AuditedProgress(t: Tables, u: Tables, n: nat, audit: Audit, at: int, done: set<Item>)
    requires Progress(t, u, at, done) && C.Kept(u.db.store)
    requires PoliciesOk(t) && n !in t.audits && u.audits == t.audits && audit.occurredAt >= at
    ensures Progress(t, u.(audits := u.audits[n := audit]), at, done)
  {
    AuditAddsNothing(u, n, audit, at);
    NothingMore(t, u, u.(audits := u.audits[n := audit]), at, done);
  }

  lemma PurgeKeepsReferences(w: World, a: Action)
    requires Sound(w) && a.Purge? && a in w.read && Wins(w.db, a)
    ensures C.Kept(Effect(w.db, a).store)
  {
    PurgeStore(w, a);
  }

  lemma ReachedIsKept(w: World)
    requires Reachable(w)
    ensures C.Kept(w.db.store) && VerificationsRefer(w.db)
  {
    ReachableIsSound(w);
  }

  lemma OneMore(w: World, a: Tables, b: Tables, c: Tables, at: int, o: string, items: seq<Item>, k: nat)
    requires Reachable(w) && w.db == b.db && k < |items|
    requires Worked(a, b, at, o, items, k) && Progress(b, c, at, {items[k]})
    ensures Worked(a, c, at, o, items, k + 1)
  {
    ReachedIsKept(w);
    WorkedOneMore(a, b, c, at, o, items, k);
  }

  // ---------- the items a selection stands for ----------

  ghost function ProjectItems(o: string, ids: seq<string>): (items: seq<Item>) {
    seq(|ids|, i requires 0 <= i < |ids| => DueProject(o, ids[i]))
  }

  ghost function RunbookItems(o: string, rows: seq<C.RowId>): (items: seq<Item>) {
    seq(|rows|, i requires 0 <= i < |rows| => StaleRunbook(o, rows[i]))
  }

  ghost function VerificationItems(o: string, ids: seq<string>): (items: seq<Item>) {
    seq(|ids|, i requires 0 <= i < |ids| => OldVerification(o, ids[i]))
  }

  ghost function RequestItems(o: string, ids: seq<string>): (items: seq<Item>) {
    seq(|ids|, i requires 0 <= i < |ids| => OldRequest(o, ids[i]))
  }

  ghost function AuditItems(o: string, ns: seq<nat>): (items: seq<Item>) {
    seq(|ns|, i requires 0 <= i < |ns| => OldAudit(o, ns[i]))
  }

  ghost predicate ItemsOf(items: seq<Item>, o: string, kind: Kind) {
    Distinct(items) && forall i :: 0 <= i < |items| ==> items[i].organizationId == o && KindOf(items[i]) == kind
  }

  ghost predicate AllDue(t: Tables, ids: seq<string>, o: string, at: int) {
    forall i :: 0 <= i < |ids| ==> IsDue(t, ids[i], o, at)
  }

  ghost predicate AllStale(t: Tables, rows: seq<C.RowId>, o: string, at: int) {
    forall i :: 0 <= i < |rows| ==> IsStale(t, rows[i], o, at)
  }

  lemma DueItem(t: Tables, ids: seq<string>, o: string, at: int, i: nat)
    requires AllDue(t, ids, o, at) && i < |ids|
    ensures IsDue(t, ids[i], o, at) && ids[i] in t.db.requests && ProjectItems(o, ids)[i] == DueProject(o, ids[i])
    ensures forall k :: 0 <= k < |ProjectItems(o, ids)| ==> ProjectItems(o, ids)[k].DueProject?
  {
  }

  lemma StaleItem(t: Tables, rows: seq<C.RowId>, o: string, at: int, i: nat)
    requires AllStale(t, rows, o, at) && i < |rows|
    ensures IsStale(t, rows[i], o, at) && rows[i] in t.db.store.rows
            && RunbookItems(o, rows)[i] == StaleRunbook(o, rows[i])
    ensures forall k :: 0 <= k < |RunbookItems(o, rows)| ==> RunbookItems(o, rows)[k].StaleRunbook?
  {
  }

  lemma ProjectItemsAre(o: string, ids: seq<string>)
    requires Distinct(ids)
    ensures ItemsOf(ProjectItems(o, ids), o, Projects)
  {
  }

  lemma RunbookItemsAre(o: string, rows: seq<C.RowId>)
    requires Distinct(rows)
    ensures ItemsOf(RunbookItems(o, rows), o, Runbooks)
  {
  }

  lemma ProjectListed(o: string, rows: seq<string>, id: string)
    requires id in rows
    ensures DueProject(o, id) in ProjectItems(o, rows)
  {
    var i :| 0 <= i < |rows| && rows[i] == id;
    assert ProjectItems(o, rows)[i] == DueProject(o, id);
  }

  lemma ProjectsCleared(a: Tables, b: Tables, at: int, o: string, rows: seq<string>)
    requires Worked(a, b, at, o, ProjectItems(o, rows), |rows|)
    requires forall id :: IsDue(a, id, o, at) ==> id in rows
    ensures NoneLeft(b, o, Projects, at)
  {
    var items := ProjectItems(o, rows);
    forall item | Overdue(a, item, at) && item.organizationId == o && KindOf(item) == Projects ensures item in items {
      ProjectListed(o, rows, item.id);
      assert item == DueProject(o, item.id);
    }
    AllWorkedLeavesNone(a, b, at, o, items, Projects);
  }

  lemma RunbookListed(o: string, rows: seq<C.RowId>, row: C.RowId)
    requires row in rows
    ensures StaleRunbook(o, row) in RunbookItems(o, rows)
  {
    var i :| 0 <= i < |rows| && rows[i] == row;
    assert RunbookItems(o, rows)[i] == StaleRunbook(o, row);
  }

  lemma RunbooksCleared(a: Tables, b: Tables, at: int, o: string, rows: seq<C.RowId>)
    requires Worked(a, b, at, o, RunbookItems(o, rows), |rows|)
    requires forall row :: IsStale(a, row, o, at) ==> row in rows
    ensures NoneLeft(b, o, Runbooks, at)
  {
    var items := RunbookItems(o, rows);
    forall item | Overdue(a, item, at) && item.organizationId == o && KindOf(item) == Runbooks ensures item in items {
      RunbookListed(o, rows, item.row);
      assert item == StaleRunbook(o, item.row);
    }
    AllWorkedLeavesNone(a, b, at, o, items, Runbooks);
  }

  lemma VerificationListed(o: string, ids: seq<string>, id: string)
    requires id in ids
    ensures OldVerification(o, id) in VerificationItems(o, ids)
  {
    var i :| 0 <= i < |ids| && ids[i] == id;
    assert VerificationItems(o, ids)[i] == OldVerification(o, id);
  }

  lemma VerificationsCleared(a: Tables, b: Tables, at: int, o: string, ids: seq<string>)
    requires Worked(a, b, at, o, VerificationItems(o, ids), |ids|)
    requires forall id :: IsOldVerification(a, id, o, at) ==> id in ids
    ensures NoneLeft(b, o, Verifications, at)
  {
    var items := VerificationItems(o, ids);
    forall item | Overdue(a, item, at) && item.organizationId == o && KindOf(item) == Verifications
        ensures item in items {
      VerificationListed(o, ids, item.id);
      assert item == OldVerification(o, item.id);
    }
    AllWorkedLeavesNone(a, b, at, o, items, Verifications);
  }

  lemma RequestListed(o: string, ids: seq<string>, id: string)
    requires id in ids
    ensures OldRequest(o, id) in RequestItems(o, ids)
  {
    var i :| 0 <= i < |ids| && ids[i] == id;
    assert RequestItems(o, ids)[i] == OldRequest(o, id);
  }

  lemma RequestsCleared(a: Tables, b: Tables, at: int, o: string, ids: seq<string>)
    requires Worked(a, b, at, o, RequestItems(o, ids), |ids|) && b.db.verifications == a.db.verifications
    requires forall id :: IsOldRequest(a, id, o, at) && id !in a.db.verifications ==> id in ids
    ensures NoneLeft(b, o, Requests, at)
  {
    var items := RequestItems(o, ids);
    forall item | Overdue(a, item, at) && item.organizationId == o && KindOf(item) == Requests
        && item.id !in a.db.verifications
      ensures item in items
    {
      RequestListed(o, ids, item.id);
      assert item == OldRequest(o, item.id);
    }
    AllWorkedLeavesNone(a, b, at, o, items, Requests);
  }

  lemma AuditListed(o: string, ns: seq<nat>, n: nat)
    requires n in ns
    ensures OldAudit(o, n) in AuditItems(o, ns)
  {
    var i :| 0 <= i < |ns| && ns[i] == n;
    assert AuditItems(o, ns)[i] == OldAudit(o, n);
  }

  lemma AuditsCleared(a: Tables, b: Tables, at: int, o: string, ns: seq<nat>)
    requires Worked(a, b, at, o, AuditItems(o, ns), |ns|)
    requires forall n :: IsOldAudit(a, n, o, at) ==> n in ns
    ensures NoneLeft(b, o, Audits, at)
  {
    var items := AuditItems(o, ns);
    forall item | Overdue(a, item, at) && item.organizationId == o && KindOf(item) == Audits ensures item in items {
      AuditListed(o, ns, item.n);
      assert item == OldAudit(o, item.n);
    }
    AllWorkedLeavesNone(a, b, at, o, items, Audits);
  }

  // ---------- the queries ----------

  method SelectDue(t: Tables, o: string, at: int, limit: nat) returns (rows: seq<string>)
    ensures Distinct(rows) && |rows| <= limit && AllDue(t, rows, o, at)
    ensures |rows| < limit ==> forall id :: IsDue(t, id, o, at) ==> id in rows
    ensures forall i, id :: 0 <= i < |rows| && IsDue(t, id, o, at) && id !in rows ==>
              t.db.requests[rows[i]].claim.recoveryUntil <= t.db.requests[id].claim.recoveryUntil
  {
    rows := Select(map id | id in t.db.requests && IsDue(t, id, o, at) :: t.db.requests[id].claim.recoveryUntil, limit);
  }

  method SelectStale(t: Tables, o: string, at: int, limit: nat) returns (rows: seq<C.RowId>)
    ensures Distinct(rows) && |rows| <= limit && AllStale(t, rows, o, at)
    ensures |rows| < limit ==> forall row :: IsStale(t, row, o, at) ==> row in rows
    ensures forall i, row :: 0 <= i < |rows| && IsStale(t, row, o, at) && row !in rows ==>
              t.db.store.rows[rows[i]].updatedAt <= t.db.store.rows[row].updatedAt
  {
    rows := Select(map row | row in t.db.store.rows && IsStale(t, row, o, at) :: t.db.store.rows[row].updatedAt, limit);
  }

  method SelectVerifications(t: Tables, o: string, at: int, limit: nat) returns (ids: seq<string>)
    ensures Distinct(ids) && |ids| <= limit && forall i :: 0 <= i < |ids| ==> IsOldVerification(t, ids[i], o, at)
    ensures |ids| < limit ==> forall id :: IsOldVerification(t, id, o, at) ==> id in ids
    ensures forall i, id ::
              0 <= i < |ids| && IsOldVerification(t, ids[i], o, at) && IsOldVerification(t, id, o, at) && id !in ids ==>
              t.db.verifications[ids[i]].verifiedAt <= t.db.verifications[id].verifiedAt
  {
    ids := Select(map id | id in t.db.verifications && IsOldVerification(t, id, o, at) ::
                  t.db.verifications[id].verifiedAt, limit);
  }

  method SelectRequests(t: Tables, o: string, at: int, limit: nat) returns (ids: seq<string>)
    ensures Distinct(ids) && |ids| <= limit
    ensures forall i :: 0 <= i < |ids| ==> IsOldRequest(t, ids[i], o, at) && ids[i] !in t.db.verifications
    ensures |ids| < limit ==> forall id :: IsOldRequest(t, id, o, at) && id !in t.db.verifications ==> id in ids
    ensures forall i, id ::
              0 <= i < |ids| && id !in ids && IsOldRequest(t, ids[i], o, at)
              && IsOldRequest(t, id, o, at) && id !in t.db.verifications ==>
              EndedAt(t.db.requests[ids[i]]) <= EndedAt(t.db.requests[id])
  {
    ids := Select(map id | id in t.db.requests && IsOldRequest(t, id, o, at) && id !in t.db.verifications
                    :: EndedAt(t.db.requests[id]), limit);
  }

  method SelectAudits(t: Tables, o: string, at: int, limit: nat) returns (ns: seq<nat>)
    ensures Distinct(ns) && |ns| <= limit && forall i :: 0 <= i < |ns| ==> IsOldAudit(t, ns[i], o, at)
    ensures |ns| < limit ==> forall n :: IsOldAudit(t, n, o, at) ==> n in ns
    ensures forall i, n :: 0 <= i < |ns| && IsOldAudit(t, ns[i], o, at) && IsOldAudit(t, n, o, at) && n !in ns ==>
              t.audits[ns[i]].occurredAt <= t.audits[n].occurredAt
  {
    ns := Select(map n | n in t.audits && IsOldAudit(t, n, o, at) :: t.audits[n].occurredAt, limit);
  }

  // ---------- deletes of selected evidence ----------

  function Among<T>(ids: seq<T>): set<T> {
    set id | id in ids
  }

  function WithoutVerifications(t: Tables, ids: seq<string>): Tables {
    t.(db := t.db.(verifications := t.db.verifications - Among(ids)))
  }

  function WithoutRequests(t: Tables, ids: seq<string>): Tables {
    t.(db := t.db.(requests := t.db.requests - Among(ids)))
  }

  function WithoutAudits(t: Tables, ns: seq<nat>): Tables {
    t.(audits := t.audits - Among(ns))
  }

  lemma VerificationsGo(t: Tables, o: string, at: int, ids: seq<string>)
    requires o in t.live && Distinct(ids)
    requires forall i :: 0 <= i < |ids| ==> IsOldVerification(t, ids[i], o, at)
    ensures Worked(t, WithoutVerifications(t, ids), at, o, VerificationItems(o, ids), |ids|)
  {
    var items := VerificationItems(o, ids);
    var gone := Among(ids);
    forall item ensures item in First(items, |ids|) <==>
        item.OldVerification? && item.organizationId == o && item.id in gone {
      if item.OldVerification? && item.organizationId == o && item.id in gone {
        var i :| 0 <= i < |ids| && ids[i] == item.id;
        assert items[i] == item;
      }
    }
    VerificationsProgress(t, gone, First(items, |ids|), o, at);
  }

  lemma RequestsMayGo(w: World, t: Tables, ids: seq<string>) returns (v: World)
    requires Reachable(w) && w.db == t.db && forall i :: 0 <= i < |ids| ==> Terminal(t.db, ids[i])
    ensures Reachable(v) && v.db == WithoutRequests(t, ids).db
  {
    ReachableNext(w, DropRequests(Among(ids)));
    v := Next(w, DropRequests(Among(ids)));
  }

  lemma VerificationsMayGo(w: World, t: Tables, ids: seq<string>) returns (v: World)
    requires Reachable(w) && w.db == t.db
    ensures Reachable(v) && v.db == WithoutVerifications(t, ids).db
  {
    ReachableNext(w, DropVerifications(Among(ids)));
    v := Next(w, DropVerifications(Among(ids)));
  }

  lemma DeletingVerifications(w: World, t: Tables, o: string, at: int, ids: seq<string>) returns (v: World)
    requires Reachable(w) && w.db == t.db && o in t.live && Distinct(ids)
    requires forall i :: 0 <= i < |ids| ==> IsOldVerification(t, ids[i], o, at)
    ensures Reachable(v) && v.db == WithoutVerifications(t, ids).db
    ensures Worked(t, WithoutVerifications(t, ids), at, o, VerificationItems(o, ids), |ids|)
  {
    VerificationsGo(t, o, at, ids);
    v := VerificationsMayGo(w, t, ids);
  }

  lemma DeletingRequests(w: World, t: Tables, o: string, at: int, ids: seq<string>) returns (v: World)
    requires Reachable(w) && w.db == t.db && o in t.live && Distinct(ids)
    requires forall i :: 0 <= i < |ids| ==> IsOldRequest(t, ids[i], o, at) && ids[i] !in t.db.verifications
    ensures Reachable(v) && v.db == WithoutRequests(t, ids).db
    ensures Worked(t, WithoutRequests(t, ids), at, o, RequestItems(o, ids), |ids|)
  {
    RequestsGo(t, o, at, ids);
    OldIsTerminal(t, o, at, ids);
    v := RequestsMayGo(w, t, ids);
  }

  lemma OldIsTerminal(t: Tables, o: string, at: int, ids: seq<string>)
    requires forall i :: 0 <= i < |ids| ==> IsOldRequest(t, ids[i], o, at) && ids[i] !in t.db.verifications
    ensures forall i :: 0 <= i < |ids| ==> Terminal(t.db, ids[i])
  {
  }

  lemma RequestsGo(t: Tables, o: string, at: int, ids: seq<string>)
    requires o in t.live && Distinct(ids)
    requires forall i :: 0 <= i < |ids| ==> IsOldRequest(t, ids[i], o, at) && ids[i] !in t.db.verifications
    ensures Worked(t, WithoutRequests(t, ids), at, o, RequestItems(o, ids), |ids|)
  {
    var items := RequestItems(o, ids);
    var gone := Among(ids);
    forall item ensures item in First(items, |ids|) <==>
        item.OldRequest? && item.organizationId == o && item.id in gone {
      if item.OldRequest? && item.organizationId == o && item.id in gone {
        var i :| 0 <= i < |ids| && ids[i] == item.id;
        assert items[i] == item;
      }
    }
    RequestsProgress(t, gone, First(items, |ids|), o, at);
  }

  lemma AuditsGo(t: Tables, o: string, at: int, ns: seq<nat>)
    requires o in t.live && Distinct(ns)
    requires forall i :: 0 <= i < |ns| ==> IsOldAudit(t, ns[i], o, at)
    ensures Worked(t, WithoutAudits(t, ns), at, o, AuditItems(o, ns), |ns|)
  {
    var items := AuditItems(o, ns);
    var gone := Among(ns);
    forall item ensures item in First(items, |ns|) <==> item.OldAudit? && item.organizationId == o && item.n in gone {
      if item.OldAudit? && item.organizationId == o && item.n in gone {
        var i :| 0 <= i < |ns| && ns[i] == item.n;
        assert items[i] == item;
      }
    }
    AuditsProgress(t, gone, First(items, |ns|), o, at);
  }

  // ---------- one organization, and all of them ----------

  lemma ReachedJoins(w: World, a: Tables, b: Tables, c: Tables, at: int, o: string, done: set<Item>,
                     spent: Deleted, left: nat, kinds: set<Kind>, items: seq<Item>, kind: Kind)
    requires Reachable(w) && w.db == b.db
    requires Stage(a, b, at, o, done, spent, left, kinds)
    requires Worked(b, c, at, o, items, |items|) && |items| <= left
    requires forall i :: 0 <= i < |items| ==> KindOf(items[i]) == kind
    requires |items| < left ==> NoneLeft(c, o, kind, at)
    requires kind.Verifications? ==> Requests !in kinds
    ensures Stage(a, c, at, o, done + First(items, |items|), Sum(spent, Only(kind, |items|)), left - |items|,
                  kinds + {kind})
  {
    ReachedIsKept(w);
    StageJoins(a, b, c, at, o, done, spent, left, kinds, items, kind);
  }

  /** What has been counted after all five stages. */
  lemma FiveCounters(projects: nat, runbooks: nat, verifications: nat, requests: nat, audits: nat)
    ensures Sum(Sum(Sum(Sum(Sum(NONE, Only(Projects, projects)), Only(Runbooks, runbooks)),
                            Only(Verifications, verifications)), Only(Requests, requests)), Only(Audits, audits))
            == Deleted(projects, runbooks, audits, requests, verifications)
  {
  }

  lemma ReachedAllStages(w: World, a: Tables, b: Tables, at: int, o: string, done: set<Item>, spent: Deleted,
                         left: nat, kinds: set<Kind>, n: nat, audit: Audit)
    requires Reachable(w) && w.db == b.db && PoliciesOk(b) && n !in b.audits && audit.occurredAt >= at
    requires Stage(a, b, at, o, done, spent, left,
                   kinds + {Projects} + {Runbooks} + {Verifications} + {Requests} + {Audits})
    ensures Swept(a, b.(audits := b.audits[n := audit]), at, o, done, spent, left)
  {
    ReachedIsKept(w);
    AllStagesSweep(a, b, at, o, done, spent, left,
                   kinds + {Projects} + {Runbooks} + {Verifications} + {Requests} + {Audits}, n, audit);
  }

  /** Nothing done, counted or cleared so far. */
  lemma FirstStage(a: Tables, at: int, o: string, left: nat) returns (done: set<Item>, spent: Deleted, kinds: set<Kind>)
    ensures Stage(a, a, at, o, done, spent, left, kinds) && spent == NONE && Requests !in kinds
  {
    done, spent, kinds := {}, NONE, {};
    StageStarts(a, at, o, left);
  }

  lemma ReachedVisits(w: World, a: Tables, b: Tables, c: Tables, at: int, organizations: seq<string>, k: nat,
                      done: set<Item>, spent: Deleted, left: nat, more: set<Item>, extra: Deleted, after: nat)
    requires Reachable(w) && w.db == b.db && Distinct(organizations) && k < |organizations| && 0 < left && after <= left
    requires Visited(a, b, at, organizations, k, done, spent, left) && InOrder(b, at, organizations, k, done)
    requires Swept(b, c, at, organizations[k], more, extra, after)
    ensures Visited(a, c, at, organizations, k + 1, done + more, Sum(spent, extra), after)
    ensures InOrder(c, at, organizations, k + 1, done + more)
  {
    ReachedIsKept(w);
    VisitedOneMore(a, b, c, at, organizations, k, done, spent, left, more, extra, after);
    InOrderOneMore(a, b, c, at, organizations, k, done, spent, left, more, extra, after);
  }

  lemma ReachedRemovals(w: World, a: Tables, b: Tables, at: int, done: set<Item>)
    requires Reachable(w) && w.db == a.db && PoliciesOk(a) && Progress(a, b, at, done)
    ensures RemovedWereFree(a, b, at)
  {
    ReachableIsSound(w);
    RemovedRequestsWereFree(w, a, b, at, done);
  }

  /** What is gone had served its days, and after a sweep that was not exhausted nothing is left that has. */
  lemma ReachedTerms(w: World, v: World, a: Tables, b: Tables, at: int, done: set<Item>, spent: Deleted, limit: nat)
    requires Reachable(w) && w.db == a.db && Reachable(v) && v.db == b.db && SweptAll(a, b, at, done, spent, limit)
    ensures OnlyExpiredGoes(a, b, at)
    ensures Total(spent) < limit ==> NothingOverstays(b, at)
  {
    ReachableIsSound(w);
    ReachableIsSound(v);
    DoneWasExpired(w, a, b, at, done);
    if Total(spent) < limit {
      forall o | o in b.live ensures WithinTerms(b, o, at) {
        CleanIsWithinTerms(v, b, o, at);
      }
    }
  }

  lemma ReachedTermsOf(w: World, v: World, a: Tables, b: Tables, at: int, o: string, done: set<Item>, spent: Deleted,
                       left: nat)
    requires Reachable(w) && w.db == a.db && Reachable(v) && v.db == b.db && o in b.live
    requires Swept(a, b, at, o, done, spent, left)
    ensures OnlyExpiredGoes(a, b, at)
    ensures left > 0 ==> WithinTerms(b, o, at)
  {
    ReachableIsSound(w);
    ReachableIsSound(v);
    DoneWasExpired(w, a, b, at, done);
    if left > 0 {
      CleanIsWithinTerms(v, b, o, at);
    }
  }

  lemma RequestsComeLater(kinds: set<Kind>)
    requires Requests !in kinds
    ensures Requests !in kinds + {Projects} + {Runbooks}
  {
  }

  ghost predicate Below(audits: map<nat, Audit>, next: nat) {
    forall n :: n in audits ==> n < next
  }

  class DataProtection {
    var tables: Tables
    var clock: int
    var nextAudit: nat
    ghost var world: World

    ghost predicate Valid()
      reads this
    {
      Reachable(world) && world.db == tables.db && PoliciesOk(tables) && Below(tables.audits, nextAudit)
    }

    /** Over any state that the operations on deletion requests and on the rows below projects may have left. */
    constructor (t: Tables, ghost w: World, next: nat, now: int)
      requires Reachable(w) && w.db == t.db && PoliciesOk(t) && Below(t.audits, next)
      ensures Valid() && tables == t && clock == now && nextAudit == next && world == w
    {
      tables := t;
      clock := now;
      nextAudit := next;
      world := w;
    }

    /** The audit event recorded last. */
    ghost function LastAudit(): Option<Audit>
      reads this
    {
      if nextAudit > 0 && nextAudit - 1 in tables.audits then Some(tables.audits[nextAudit - 1]) else None
    }

    /** The clock never runs backwards. */
    method Now() returns (t: int)
      requires Valid()
      modifies this`clock
      ensures Valid() && tables == old(tables) && t == clock >= old(clock)
    {
      var reading: int := *;
      if reading > clock {
        clock := reading;
      }
      t := clock;
    }

    method RecordAudit(organizationId: string, at: int)
      requires Valid()
      modifies this`tables, this`nextAudit
      ensures Valid() && clock == old(clock) && nextAudit == old(nextAudit) + 1
      ensures old(nextAudit) !in old(tables).audits
      ensures tables == old(tables).(audits := old(tables).audits[old(nextAudit) := Audit(organizationId, at)])
      ensures LastAudit() == Some(Audit(organizationId, at))
    {
      tables := tables.(audits := tables.audits[nextAudit := Audit(organizationId, at)]);
      nextAudit := nextAudit + 1;
    }

    /** A confirmed purge: the batch, the counts, and what the caller is told. */
    method RunPurge(a: Action) returns (r: Result<Request, PurgeError>)
      requires Valid() && a.Purge? && Reachable(Next(Ready(world, a), Batch(a)))
      modifies this`tables, this`world
      ensures Valid() && tables == old(tables).(db := tables.db)
      ensures match Run(old(tables).db, a)
              case Err(abort) => r == Err(Aborted(abort)) && tables == old(tables)
              case Ok(n) => tables.db == n && r == (match AnswerAtOnce(n, a) case Err(e) => Err(Refused(e))
                                                    case Ok(q) => Ok(q))
    {
      var batch := Run(tables.db, a);
      if batch.Err? {
        return Err(Aborted(batch.error));
      }
      world := Next(Ready(world, a), Batch(a));
      tables := tables.(db := batch.value);
      var answer := AnswerAtOnce(tables.db, a);
      r := if answer.Err? then Err(Refused(answer.error)) else Ok(answer.value);
    }

    method PurgeProject(organizationId: string, projectId: string, actor: string, id: string)
      returns (r: Result<Request, PurgeError>, ghost now: int)
      requires Valid()
      modifies this
      ensures Valid() && old(clock) <= now <= clock
      ensures (tables.db, r) == PurgeOutcome(old(tables).db, organizationId, projectId, actor, id, now)
      ensures old(nextAudit) !in old(tables).audits
      ensures tables.(db := old(tables).db)
              == if r.Ok? then old(tables).(audits := old(tables).audits[old(nextAudit) := Audit(organizationId, now)])
                 else old(tables)
    {
      var at := Now();
      now := at;
      var plan := Consider(tables.db, Call.PurgeProject(organizationId, projectId, actor, id), at);
      if plan.Err? {
        return Err(Refused(plan.error)), at;
      }
      var a := plan.value.action;
      if !Confirmed(tables.db, a) {
        return Err(Refused(PurgeConflict)), at;
      }
      ReadyIsReached(world, Call.PurgeProject(organizationId, projectId, actor, id), at, a);
      r := RunPurge(a);
      if r.Ok? {
        RecordAudit(organizationId, at);
      }
    }

    /** One selected project: the purge finds it as it was selected. */
    method PurgeDue(organizationId: string, projectId: string, id: string, startedAt: int,
                    ghost found: Tables, ghost items: seq<Item>, ghost k: nat)
      requires Valid() && organizationId in tables.live && startedAt <= clock
      requires k < |items| && Worked(found, tables, startedAt, organizationId, items, k)
      requires (forall i :: 0 <= i < |items| ==> items[i].DueProject?) && items[k] == DueProject(organizationId, id)
      requires IsDue(found, id, organizationId, startedAt) && found.db.requests[id].claim.projectId == projectId
      modifies this
      ensures Valid() && clock >= old(clock)
      ensures Worked(found, tables, startedAt, organizationId, items, k + 1)
    {
      NextIsStillDue(found, tables, startedAt, organizationId, items, k);
      ghost var w, n := world, nextAudit;
      var request, now := PurgeProject(organizationId, projectId, "system:data-retention", id);
      DuePurgeProgress(w, old(tables), n, id, "system:data-retention", organizationId, now, startedAt);
      OneMore(w, found, old(tables), tables, startedAt, organizationId, items, k);
    }

    /** One purge for each selected project. */
    method PurgeAll(organizationId: string, startedAt: int, rows: seq<string>) returns (purged: nat)
      requires Valid() && organizationId in tables.live && startedAt <= clock
      requires Distinct(rows) && AllDue(tables, rows, organizationId, startedAt)
      modifies this
      ensures Valid() && clock >= old(clock) && purged == |rows|
      ensures Worked(old(tables), tables, startedAt, organizationId, ProjectItems(organizationId, rows), |rows|)
    {
      var found := tables;
      ghost var items := ProjectItems(organizationId, rows);
      purged := 0;
      ProjectItemsAre(organizationId, rows);
      WorkStarts(found, startedAt, organizationId, items);
      while purged < |rows|
        invariant purged <= |rows| && Valid() && clock >= old(clock)
        invariant Worked(found, tables, startedAt, organizationId, items, purged)
      {
        DueItem(found, rows, organizationId, startedAt, purged);
        PurgeDue(organizationId, found.db.requests[rows[purged]].claim.projectId, rows[purged], startedAt, found, items,
                 purged);
        purged := purged + 1;
      }
    }

    /** Lease, delete and end of lease, in one batch. */
    method SweepOne(organizationId: string, row: C.RowId, projectId: string, startedAt: int)
      requires Valid() && organizationId in tables.live && IsStale(tables, row, organizationId, startedAt)
      requires tables.db.store.rows[row].projectId == projectId
      modifies this`tables, this`world
      ensures Valid() && clock == old(clock)
      ensures Progress(old(tables), tables, startedAt, {StaleRunbook(organizationId, row)})
    {
      ghost var v := StaleRunbookGoes(world, tables, row, organizationId, projectId, startedAt);
      var batch := C.SweepRunbook(tables.db.store, row.key.id, organizationId, projectId, startedAt);
      Commit(batch.value, v);
    }

    /** The store that a batch has left, and the world that its step leads to. */
    method Commit(store: C.Store, ghost v: World)
      requires Valid() && Reachable(v) && v.db == tables.db.(store := store)
      modifies this`tables, this`world
      ensures Valid() && clock == old(clock) && tables == old(tables).(db := old(tables).db.(store := store))
    {
      world := v;
      tables := tables.(db := tables.db.(store := store));
    }

    method SweepAll(organizationId: string, startedAt: int, rows: seq<C.RowId>) returns (swept: nat)
      requires Valid() && organizationId in tables.live
      requires Distinct(rows) && AllStale(tables, rows, organizationId, startedAt)
      modifies this`tables, this`world
      ensures Valid() && clock == old(clock) && swept == |rows|
      ensures Worked(old(tables), tables, startedAt, organizationId, RunbookItems(organizationId, rows), |rows|)
    {
      var found := tables;
      ghost var items := RunbookItems(organizationId, rows);
      swept := 0;
      RunbookItemsAre(organizationId, rows);
      ReachedIsKept(world);
      WorkStarts(found, startedAt, organizationId, items);
      while swept < |rows|
        invariant swept <= |rows| && Valid() && clock == old(clock)
        invariant Worked(found, tables, startedAt, organizationId, items, swept)
      {
        StaleItem(found, rows, organizationId, startedAt, swept);
        SweepNext(organizationId, rows[swept], found.db.store.rows[rows[swept]].projectId, startedAt, found, items,
                  swept);
        swept := swept + 1;
      }
    }

    method SweepNext(organizationId: string, row: C.RowId, projectId: string, startedAt: int,
                     ghost found: Tables, ghost items: seq<Item>, ghost k: nat)
      requires Valid() && organizationId in tables.live
      requires C.Kept(found.db.store) && k < |items| && Worked(found, tables, startedAt, organizationId, items, k)
      requires (forall i :: 0 <= i < |items| ==> items[i].StaleRunbook?)
               && items[k] == StaleRunbook(organizationId, row)
      requires IsStale(found, row, organizationId, startedAt) && found.db.store.rows[row].projectId == projectId
      modifies this`tables, this`world
      ensures Valid() && clock == old(clock)
      ensures Worked(found, tables, startedAt, organizationId, items, k + 1)
    {
      ghost var w := world;
      NextIsStillStale(found, tables, startedAt, organizationId, items, k);
      SweepOne(organizationId, row, projectId, startedAt);
      OneMore(w, found, old(tables), tables, startedAt, organizationId, items, k);
    }

    /** The three bounded deletes: select what is old enough, then delete exactly what was selected. */
    method DeleteVerifications(organizationId: string, startedAt: int, remaining: nat) returns (n: nat,
                               ids: seq<string>)
      requires Valid() && organizationId in tables.live
      modifies this`tables, this`world
      ensures Valid() && clock == old(clock) && n == |ids| <= remaining
              && tables == WithoutVerifications(old(tables), ids)
      ensures Worked(old(tables), tables, startedAt, organizationId, VerificationItems(organizationId, ids), |ids|)
      ensures n < remaining ==> forall id :: IsOldVerification(old(tables), id, organizationId, startedAt) ==> id in ids
    {
      ids := SelectVerifications(tables, organizationId, startedAt, remaining);
      n := |ids|;
      world := DeletingVerifications(world, tables, organizationId, startedAt, ids);
      tables := WithoutVerifications(tables, ids);
    }

    method DeleteRequests(organizationId: string, startedAt: int, remaining: nat) returns (n: nat, ids: seq<string>)
      requires Valid() && organizationId in tables.live
      modifies this`tables, this`world
      ensures Valid() && clock == old(clock) && n == |ids| <= remaining && tables == WithoutRequests(old(tables), ids)
      ensures Worked(old(tables), tables, startedAt, organizationId, RequestItems(organizationId, ids), |ids|)
      ensures n < remaining ==>
        forall id :: IsOldRequest(old(tables), id, organizationId, startedAt) && id !in tables.db.verifications ==>
            id in ids
    {
      ids := SelectRequests(tables, organizationId, startedAt, remaining);
      n := |ids|;
      world := DeletingRequests(world, tables, organizationId, startedAt, ids);
      tables := WithoutRequests(tables, ids);
    }

    method DeleteAudits(organizationId: string, startedAt: int, remaining: nat) returns (n: nat, ns: seq<nat>)
      requires Valid() && organizationId in tables.live
      modifies this`tables
      ensures Valid() && clock == old(clock) && n == |ns| <= remaining && tables == WithoutAudits(old(tables), ns)
      ensures Worked(old(tables), tables, startedAt, organizationId, AuditItems(organizationId, ns), |ns|)
      ensures n < remaining ==> forall k :: IsOldAudit(old(tables), k, organizationId, startedAt) ==> k in ns
    {
      ns := SelectAudits(tables, organizationId, startedAt, remaining);
      n := |ns|;
      AuditsGo(tables, organizationId, startedAt, ns);
      tables := WithoutAudits(tables, ns);
    }

    method PurgeStage(organizationId: string, startedAt: int, remaining: nat) returns (n: nat, ghost items: seq<Item>)
      requires Valid() && organizationId in tables.live && startedAt <= clock
      modifies this
      ensures Valid() && clock >= old(clock) && n == |items| <= remaining
      ensures Worked(old(tables), tables, startedAt, organizationId, items, |items|)
      ensures forall i :: 0 <= i < |items| ==> KindOf(items[i]) == Projects
      ensures n < remaining ==> NoneLeft(tables, organizationId, Projects, startedAt)
    {
      var rows := SelectDue(tables, organizationId, startedAt, remaining);
      n := PurgeAll(organizationId, startedAt, rows);
      items := ProjectItems(organizationId, rows);
      if n < remaining {
        ProjectsCleared(old(tables), tables, startedAt, organizationId, rows);
      }
    }

    method RunbookStage(organizationId: string, startedAt: int, remaining: nat) returns (n: nat, ghost items: seq<Item>)
      requires Valid() && organizationId in tables.live
      modifies this`tables, this`world
      ensures Valid() && clock == old(clock) && n == |items| <= remaining
      ensures Worked(old(tables), tables, startedAt, organizationId, items, |items|)
      ensures forall i :: 0 <= i < |items| ==> KindOf(items[i]) == Runbooks
      ensures n < remaining ==> NoneLeft(tables, organizationId, Runbooks, startedAt)
    {
      var rows := SelectStale(tables, organizationId, startedAt, remaining);
      n := SweepAll(organizationId, startedAt, rows);
      items := RunbookItems(organizationId, rows);
      if n < remaining {
        RunbooksCleared(old(tables), tables, startedAt, organizationId, rows);
      }
    }

    method VerificationStage(organizationId: string, startedAt: int, remaining: nat) returns (n: nat,
                             ghost items: seq<Item>)
      requires Valid() && organizationId in tables.live
      modifies this`tables, this`world
      ensures Valid() && clock == old(clock) && n == |items| <= remaining
      ensures Worked(old(tables), tables, startedAt, organizationId, items, |items|)
      ensures forall i :: 0 <= i < |items| ==> KindOf(items[i]) == Verifications
      ensures n < remaining ==> NoneLeft(tables, organizationId, Verifications, startedAt)
    {
      var ids;
      n, ids := DeleteVerifications(organizationId, startedAt, remaining);
      items := VerificationItems(organizationId, ids);
      if n < remaining {
        VerificationsCleared(old(tables), tables, startedAt, organizationId, ids);
      }
    }

    method RequestStage(organizationId: string, startedAt: int, remaining: nat) returns (n: nat, ghost items: seq<Item>)
      requires Valid() && organizationId in tables.live
      modifies this`tables, this`world
      ensures Valid() && clock == old(clock) && n == |items| <= remaining
      ensures Worked(old(tables), tables, startedAt, organizationId, items, |items|)
      ensures forall i :: 0 <= i < |items| ==> KindOf(items[i]) == Requests
      ensures n < remaining ==> NoneLeft(tables, organizationId, Requests, startedAt)
    {
      var ids;
      n, ids := DeleteRequests(organizationId, startedAt, remaining);
      items := RequestItems(organizationId, ids);
      if n < remaining {
        RequestsCleared(old(tables), tables, startedAt, organizationId, ids);
      }
    }

    method AuditStage(organizationId: string, startedAt: int, remaining: nat) returns (n: nat, ghost items: seq<Item>)
      requires Valid() && organizationId in tables.live
      modifies this`tables
      ensures Valid() && clock == old(clock) && n == |items| <= remaining
      ensures Worked(old(tables), tables, startedAt, organizationId, items, |items|)
      ensures forall i :: 0 <= i < |items| ==> KindOf(items[i]) == Audits
      ensures n < remaining ==> NoneLeft(tables, organizationId, Audits, startedAt)
    {
      var ns;
      n, ns := DeleteAudits(organizationId, startedAt, remaining);
      items := AuditItems(organizationId, ns);
      if n < remaining {
        AuditsCleared(old(tables), tables, startedAt, organizationId, ns);
      }
    }

    method ClearProjects(organizationId: string, startedAt: int, remaining: nat, ghost from: Tables,
                         ghost before: set<Item>,
           ghost spent: Deleted, ghost kinds: set<Kind>) returns (n: nat, ghost done: set<Item>)
      requires Valid() && organizationId in tables.live && startedAt <= clock
      requires Stage(from, tables, startedAt, organizationId, before, spent, remaining, kinds)
      modifies this
      ensures Valid() && tables.live == old(tables).live && n <= remaining && clock >= old(clock)
      ensures Stage(from, tables, startedAt, organizationId, done, Sum(spent, Only(Projects, n)), remaining - n,
                    kinds + {Projects})
    {
      ghost var w, items := world, [];
      n, items := PurgeStage(organizationId, startedAt, remaining);
      ReachedJoins(w, from, old(tables), tables, startedAt, organizationId, before, spent, remaining, kinds, items,
                   Projects);
      done := before + First(items, |items|);
    }

    method ClearRunbooks(organizationId: string, startedAt: int, remaining: nat, ghost from: Tables,
                         ghost before: set<Item>,
           ghost spent: Deleted, ghost kinds: set<Kind>) returns (n: nat, ghost done: set<Item>)
      requires Valid() && organizationId in tables.live
      requires Stage(from, tables, startedAt, organizationId, before, spent, remaining, kinds)
      modifies this`tables, this`world
      ensures Valid() && clock == old(clock) && tables.live == old(tables).live && n <= remaining
      ensures Stage(from, tables, startedAt, organizationId, done, Sum(spent, Only(Runbooks, n)), remaining - n,
                    kinds + {Runbooks})
    {
      ghost var w, items := world, [];
      n, items := RunbookStage(organizationId, startedAt, remaining);
      ReachedJoins(w, from, old(tables), tables, startedAt, organizationId, before, spent, remaining, kinds, items,
                   Runbooks);
      done := before + First(items, |items|);
    }

    method ClearVerifications(organizationId: string, startedAt: int, remaining: nat, ghost from: Tables,
                              ghost before: set<Item>,
           ghost spent: Deleted, ghost kinds: set<Kind>) returns (n: nat, ghost done: set<Item>)
      requires Valid() && organizationId in tables.live && Requests !in kinds
      requires Stage(from, tables, startedAt, organizationId, before, spent, remaining, kinds)
      modifies this`tables, this`world
      ensures Valid() && clock == old(clock) && tables.live == old(tables).live && n <= remaining
      ensures Stage(from, tables, startedAt, organizationId, done, Sum(spent, Only(Verifications, n)), remaining - n,
                    kinds + {Verifications})
    {
      ghost var w, items := world, [];
      n, items := VerificationStage(organizationId, startedAt, remaining);
      ReachedJoins(w, from, old(tables), tables, startedAt, organizationId, before, spent, remaining, kinds, items,
                   Verifications);
      done := before + First(items, |items|);
    }

    method ClearRequests(organizationId: string, startedAt: int, remaining: nat, ghost from: Tables,
                         ghost before: set<Item>,
           ghost spent: Deleted, ghost kinds: set<Kind>) returns (n: nat, ghost done: set<Item>)
      requires Valid() && organizationId in tables.live
      requires Stage(from, tables, startedAt, organizationId, before, spent, remaining, kinds)
      modifies this`tables, this`world
      ensures Valid() && clock == old(clock) && tables.live == old(tables).live && n <= remaining
      ensures Stage(from, tables, startedAt, organizationId, done, Sum(spent, Only(Requests, n)), remaining - n,
                    kinds + {Requests})
    {
      ghost var w, items := world, [];
      n, items := RequestStage(organizationId, startedAt, remaining);
      ReachedJoins(w, from, old(tables), tables, startedAt, organizationId, before, spent, remaining, kinds, items,
                   Requests);
      done := before + First(items, |items|);
    }

    method ClearAudits(organizationId: string, startedAt: int, remaining: nat, ghost from: Tables,
                       ghost before: set<Item>,
           ghost spent: Deleted, ghost kinds: set<Kind>) returns (n: nat, ghost done: set<Item>)
      requires Valid() && organizationId in tables.live
      requires Stage(from, tables, startedAt, organizationId, before, spent, remaining, kinds)
      modifies this`tables
      ensures Valid() && clock == old(clock) && tables.live == old(tables).live && n <= remaining
      ensures Stage(from, tables, startedAt, organizationId, done, Sum(spent, Only(Audits, n)), remaining - n,
                    kinds + {Audits})
    {
      ghost var w, items := world, [];
      n, items := AuditStage(organizationId, startedAt, remaining);
      ReachedJoins(w, from, old(tables), tables, startedAt, organizationId, before, spent, remaining, kinds, items,
                   Audits);
      done := before + First(items, |items|);
    }

    method SweepProjectData(organizationId: string, startedAt: int, remaining: nat, ghost from: Tables,
                            ghost before: set<Item>, ghost spent: Deleted, ghost kinds: set<Kind>)
      returns (projects: nat, runbooks: nat, ghost done: set<Item>, ghost total: Deleted)
      requires Valid() && organizationId in tables.live && startedAt <= clock
      requires Stage(from, tables, startedAt, organizationId, before, spent, remaining, kinds)
      modifies this
      ensures Valid() && clock >= old(clock) && tables.live == old(tables).live && projects + runbooks <= remaining
      ensures total == Sum(Sum(spent, Only(Projects, projects)), Only(Runbooks, runbooks))
      ensures Stage(from, tables, startedAt, organizationId, done, total, remaining - projects - runbooks,
                    kinds + {Projects} + {Runbooks})
    {
      projects, done := ClearProjects(organizationId, startedAt, remaining, from, before, spent, kinds);
      total := Sum(spent, Only(Projects, projects));
      runbooks, done := ClearRunbooks(organizationId, startedAt, remaining - projects, from, done, total,
                                      kinds + {Projects});
      total := Sum(total, Only(Runbooks, runbooks));
    }

    method SweepEvidence(organizationId: string, startedAt: int, remaining: nat, ghost from: Tables,
                         ghost before: set<Item>, ghost spent: Deleted, ghost kinds: set<Kind>)
      returns (verifications: nat, requests: nat, audits: nat, ghost done: set<Item>, ghost total: Deleted)
      requires Valid() && organizationId in tables.live && Requests !in kinds
      requires Stage(from, tables, startedAt, organizationId, before, spent, remaining, kinds)
      modifies this`tables, this`world
      ensures Valid() && clock == old(clock) && tables.live == old(tables).live
              && verifications + requests + audits <= remaining
      ensures total == Sum(Sum(Sum(spent, Only(Verifications, verifications)), Only(Requests, requests)),
                           Only(Audits, audits))
      ensures Stage(from, tables, startedAt, organizationId, done, total, remaining - verifications - requests - audits,
                    kinds + {Verifications} + {Requests} + {Audits})
    {
      verifications, done := ClearVerifications(organizationId, startedAt, remaining, from, before, spent, kinds);
      total := Sum(spent, Only(Verifications, verifications));
      requests, done := ClearRequests(organizationId, startedAt, remaining - verifications, from, done, total,
                                      kinds + {Verifications});
      total := Sum(total, Only(Requests, requests));
      audits, done := ClearAudits(organizationId, startedAt, remaining - verifications - requests, from, done, total,
                                  kinds + {Verifications} + {Requests});
      total := Sum(total, Only(Audits, audits));
    }

    /** The five stages, each within what the ones before it left of the budget. */
    method SweepStages(organizationId: string, startedAt: int, remaining: nat, ghost from: Tables,
                       ghost nothing: set<Item>, ghost none: Deleted, ghost kinds: set<Kind>)
      returns (projects: nat, runbooks: nat, verifications: nat, requests: nat, audits: nat,
               ghost done: set<Item>, ghost total: Deleted)
      requires Valid() && organizationId in tables.live && startedAt <= clock && Requests !in kinds
      requires Stage(from, tables, startedAt, organizationId, nothing, none, remaining, kinds)
      modifies this
      ensures Valid() && clock >= old(clock) && tables.live == old(tables).live
      ensures projects + runbooks + verifications + requests + audits <= remaining
      ensures total == Sum(Sum(Sum(Sum(Sum(none, Only(Projects, projects)), Only(Runbooks, runbooks)),
                                   Only(Verifications, verifications)), Only(Requests, requests)), Only(Audits, audits))
      ensures Stage(from, tables, startedAt, organizationId, done, total,
                    remaining - projects - runbooks - verifications - requests - audits,
                    kinds + {Projects} + {Runbooks} + {Verifications} + {Requests} + {Audits})
    {
      RequestsComeLater(kinds);
      projects, runbooks, done, total := SweepProjectData(organizationId, startedAt, remaining, from, nothing, none,
                                                          kinds);
      verifications, requests, audits, done, total :=
        SweepEvidence(organizationId, startedAt, remaining - projects - runbooks, from, done, total,
                      kinds + {Projects} + {Runbooks});
    }

    /** One organization, and the audit event of its sweep. */
    method SweepOrganization(organizationId: string, startedAt: int, remaining: nat)
      returns (d: Deleted, left: nat, ghost done: set<Item>)
      requires Valid() && organizationId in tables.live && startedAt <= clock
      modifies this
      ensures Valid() && clock >= old(clock) && tables.live == old(tables).live && Total(d) + left == remaining
      ensures Swept(old(tables), tables, startedAt, organizationId, done, d, left)
      ensures OnlyExpiredGoes(old(tables), tables, startedAt)
      ensures left > 0 ==> WithinTerms(tables, organizationId, startedAt)
      ensures LastAudit() == Some(Audit(organizationId, clock))
    {
      ghost var start, total, w := tables, NONE, world;
      ghost var nothing, none, kinds := FirstStage(tables, startedAt, organizationId, remaining);
      var projects, runbooks, verifications, requests, audits;
      projects, runbooks, verifications, requests, audits, done, total :=
        SweepStages(organizationId, startedAt, remaining, start, nothing, none, kinds);
      d := Deleted(projects, runbooks, audits, requests, verifications);
      FiveCounters(projects, runbooks, verifications, requests, audits);
      left := remaining - projects - runbooks - verifications - requests - audits;
      FinishOrganization(organizationId, startedAt, start, done, total, left, kinds);
      ReachedTermsOf(w, world, start, tables, startedAt, organizationId, done, d, left);
    }

    /** The audit event that says what was deleted. */
    method FinishOrganization(organizationId: string, startedAt: int, ghost from: Tables, ghost done: set<Item>,
                              ghost spent: Deleted, ghost left: nat, ghost kinds: set<Kind>)
      requires Valid() && startedAt <= clock
      requires Stage(from, tables, startedAt, organizationId, done, spent, left,
                     kinds + {Projects} + {Runbooks} + {Verifications} + {Requests} + {Audits})
      modifies this`clock, this`tables, this`nextAudit
      ensures Valid() && clock >= old(clock) && tables.live == old(tables).live
      ensures Swept(from, tables, startedAt, organizationId, done, spent, left)
      ensures LastAudit() == Some(Audit(organizationId, clock))
    {
      var now := Now();
      ReachedAllStages(world, from, tables, startedAt, organizationId, done, spent, left, kinds, nextAudit,
                       Audit(organizationId, now));
      RecordAudit(organizationId, now);
    }

    /** The live organizations, each once, in the order of their ids. */
    method LiveOrganizations() returns (organizations: seq<string>)
      ensures Ordered(organizations) && Distinct(organizations) && forall o :: o in organizations <==> o in tables.live
    {
      organizations := [];
      var rest := tables.live;
      while rest != {}
        invariant rest <= tables.live && Ordered(organizations)
        invariant forall o :: o in organizations <==> o in tables.live && o !in rest
        invariant forall o, later :: o in organizations && later in rest ==> Before(o, later)
        decreases |rest|
      {
        FirstExists(rest);
        var first :| first in rest && forall other :: other in rest && other != first ==> Before(first, other);
        organizations, rest := organizations + [first], rest - {first};
      }
      OrderedIsDistinct(organizations);
    }

    method Visit(organizations: seq<string>, k: nat, startedAt: int, remaining: nat,
                 ghost from: Tables, ghost before: set<Item>, ghost spent: Deleted)
      returns (d: Deleted, left: nat, ghost done: set<Item>)
      requires Valid() && startedAt <= clock && Distinct(organizations) && k < |organizations|
      requires organizations[k] in tables.live && remaining > 0
      requires Visited(from, tables, startedAt, organizations, k, before, spent, remaining)
      requires InOrder(tables, startedAt, organizations, k, before)
      modifies this
      ensures Valid() && clock >= old(clock) && tables.live == old(tables).live && Total(d) + left == remaining
      ensures Visited(from, tables, startedAt, organizations, k + 1, done, Sum(spent, d), left)
      ensures InOrder(tables, startedAt, organizations, k + 1, done)
    {
      ghost var w := world;
      ghost var more;
      d, left, more := SweepOrganization(organizations[k], startedAt, remaining);
      ReachedVisits(w, from, old(tables), tables, startedAt, organizations, k, before, spent, remaining, more, d, left);
      done := before + more;
    }

    /** The loop over the organizations stops when nothing remains of the limit. */
    method SweepOrganizations(organizations: seq<string>, startedAt: int, limit: nat)
      returns (deleted: Deleted, visited: nat, remaining: nat, ghost done: set<Item>)
      requires Valid() && startedAt <= clock && Distinct(organizations) && forall o :: o in organizations <==>
               o in tables.live
      modifies this
      ensures Valid() && clock >= old(clock) && visited <= |organizations| && Total(deleted) + remaining == limit
      ensures SweptAll(old(tables), tables, startedAt, done, deleted, limit)
      ensures InOrder(tables, startedAt, organizations, visited, done)
      ensures visited == |organizations| || remaining == 0
      ensures organizations != [] && limit > 0 ==> visited > 0
    {
      ghost var start := tables;
      deleted, visited, remaining, done := NONE, 0, limit, {};
      VisitsStart(tables, startedAt, organizations, limit);
      while visited < |organizations| && remaining > 0
        invariant visited <= |organizations| && Valid() && clock >= old(clock) && tables.live == old(tables).live
        invariant Visited(start, tables, startedAt, organizations, visited, done, deleted, remaining)
        invariant InOrder(tables, startedAt, organizations, visited, done)
        invariant Total(deleted) + remaining == limit && (visited == 0 ==> remaining == limit)
      {
        var d;
        d, remaining, done := Visit(organizations, visited, startedAt, remaining, start, done, deleted);
        deleted, visited := Sum(deleted, d), visited + 1;
      }
      AllVisited(start, tables, startedAt, organizations, visited, done, deleted, remaining, limit);
    }

    /**
     One sweep. The limit bounds everything deleted; a sweep that does not use it up leaves every live
     organization clean, and whatever the sweep deleted was overdue when it began. It goes on to an organization
     only when it has left the ones before it clean, and counts each it comes to.
     */
    method SweepRetention(limit: int)
      returns (r: Result<Summary, SweepError>, ghost done: set<Item>, ghost order: seq<string>)
      requires Valid()
      modifies this
      ensures Valid()
      ensures r.Err? <==> !(1 <= limit <= 100)
      ensures r.Err? ==> tables == old(tables) && clock == old(clock)
      ensures r.Ok? ==>
        && old(clock) <= r.value.startedAt <= r.value.completedAt == clock
        && limit == r.value.limit && (r.value.exhausted <==> Total(r.value.deleted) == limit)
        && SweptAll(old(tables), tables, r.value.startedAt, done, r.value.deleted, limit) && Ordered(order)
        && VisitedAsFarAs(old(tables), tables, r.value.startedAt, order, r.value.organizationsVisited, done,
                          r.value.exhausted)
        && RemovedWereFree(old(tables), tables, r.value.startedAt)
        && OnlyExpiredGoes(old(tables), tables, r.value.startedAt)
        && (!r.value.exhausted ==> NothingOverstays(tables, r.value.startedAt))
    {
      done, order := {}, [];
      if !(1 <= limit <= 100) {
        return Err(LimitInvalid), done, order;
      }
      ghost var w := world;
      var startedAt := Now();
      DropOldLeases(startedAt - DAY);
      var organizations := LiveOrganizations();
      var deleted, visited, remaining;
      deleted, visited, remaining, done := SweepOrganizations(organizations, startedAt, limit);
      ReachedRemovals(w, old(tables), tables, startedAt, done);
      ReachedTerms(w, world, old(tables), tables, startedAt, done, deleted, limit);
      order := organizations;
      var completedAt := Now();
      r := Ok(Summary(startedAt, completedAt, limit, deleted, visited, remaining == 0));
    }

    /** Between batches there is no lease to drop. */
    method DropOldLeases(before: int)
      requires Valid()
      modifies this`tables, this`world
      ensures Valid() && tables == old(tables)
    {
      ReachableIsSound(world);
      ReachableNext(world, Content(C.ExpireLeases(before)));
      var store := C.After(tables.db.store, C.ExpireLeases(before));
      assert store == tables.db.store;
      world := Next(world, Content(C.ExpireLeases(before)));
      tables := tables.(db := tables.db.(store := store));
    }
  }
}
