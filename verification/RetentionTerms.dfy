/**
 What a retention policy promises, said in days and in the columns of the rows alone: nothing is kept longer once a
 sweep has finished, and nothing goes earlier.
 */
module RetentionTerms {
  import opened Results
  import opened ProjectDeletion
  import opened DeletionProtocol
  import opened RetentionBacklog
  import C = ProjectCascade

  /** Rows of operation updated before this moment have served the days of their organization's policy. */
  ghost function OperationEnds(t: Tables, o: string, at: int): int {
    var days := if o in t.policies then t.policies[o].operationalDays else 365;
    at - days * 86_400_000
  }

  /** Evidence from before this moment has. */
  ghost function SecurityEnds(t: Tables, o: string, at: int): int {
    var days := if o in t.policies then t.policies[o].securityDays else 400;
    at - days * 86_400_000
  }

  /** Neither the runbook nor any of its tasks, monitors, registers and reviews was updated since. */
  ghost predicate IdleSince(s: C.Store, row: C.RowId, moment: int) {
    && row in s.rows && s.rows[row].updatedAt < moment
    && forall k :: k in s.rows && s.rows[k].runbookId == s.rows[row].runbookId
                   && k.table in {C.Tasks, C.Occupancy, C.Incidents, C.Deviations, C.Reviews} ==>
         s.rows[k].updatedAt < moment
  }

  /** A request that was recovered or purged, before the moment. */
  ghost predicate EndedBefore(r: Request, moment: int) {
    match r.status
    case Recoverable => false
    case Recovered => r.recoveredAt.Some? && r.recoveredAt.value < moment
    case Purged => r.purgedAt.Some? && r.purgedAt.value < moment
  }

  // ---------- nothing stays longer ----------

  ghost predicate NoProjectOverdue(t: Tables, o: string, at: int) {
    forall id :: id in t.db.requests && t.db.requests[id].claim.organizationId == o
                 && t.db.requests[id].status == Recoverable ==>
      at < t.db.requests[id].claim.recoveryUntil
  }

  ghost predicate NoRunbookOverstays(t: Tables, o: string, moment: int) {
    forall row :: row in t.db.store.rows && row.table == C.Runbooks && t.db.store.rows[row].organizationId == o ==>
      !IdleSince(t.db.store, row, moment)
  }

  /** An ended request may stay as long as its backup verification does. */
  ghost predicate NoEvidenceOverstays(t: Tables, o: string, moment: int) {
    && (forall id :: id in t.db.verifications && t.db.verifications[id].organizationId == o ==>
          t.db.verifications[id].verifiedAt >= moment)
    && (forall id :: id in t.db.requests && t.db.requests[id].claim.organizationId == o
                     && EndedBefore(t.db.requests[id], moment) ==>
          id in t.db.verifications)
    && (forall n :: n in t.audits && t.audits[n].organizationId == o ==> t.audits[n].occurredAt >= moment)
  }

  ghost predicate WithinTerms(t: Tables, o: string, at: int) {
    && NoProjectOverdue(t, o, at)
    && NoRunbookOverstays(t, o, OperationEnds(t, o, at))
    && NoEvidenceOverstays(t, o, SecurityEnds(t, o, at))
  }

  ghost predicate NothingOverstays(t: Tables, at: int) {
    forall o :: o in t.live ==> WithinTerms(t, o, at)
  }

  lemma CleanRunbooks(t: Tables, o: string, at: int)
    requires o in t.live && NoneLeft(t, o, Runbooks, at)
    ensures NoRunbookOverstays(t, o, OperationEnds(t, o, at))
  {
    forall row | row in t.db.store.rows && row.table == C.Runbooks && t.db.store.rows[row].organizationId == o
      ensures !IdleSince(t.db.store, row, OperationEnds(t, o, at))
    {
      assert !Overdue(t, StaleRunbook(o, row), at);
    }
  }

  lemma CleanProjects(t: Tables, o: string, at: int)
    requires o in t.live && NoneLeft(t, o, Projects, at)
    ensures NoProjectOverdue(t, o, at)
  {
    forall id | id in t.db.requests && t.db.requests[id].claim.organizationId == o
                && t.db.requests[id].status == Recoverable
      ensures at < t.db.requests[id].claim.recoveryUntil
    {
      assert !Overdue(t, DueProject(o, id), at);
    }
  }

  /** In a sound world an ended request has one time, that of its ending. */
  lemma EndedOnce(w: World, id: string, moment: int)
    requires AllShaped(w.db) && id in w.db.requests
    ensures EndedBefore(w.db.requests[id], moment)
            <==> !w.db.requests[id].status.Recoverable? && EndedAt(w.db.requests[id]) < moment
  {
    assert Shaped(w.db.store, w.db.requests[id]);
  }

  lemma CleanEvidence(w: World, t: Tables, o: string, at: int)
    requires Sound(w) && w.db == t.db && o in t.live
    requires NoneLeft(t, o, Verifications, at) && NoneLeft(t, o, Requests, at) && NoneLeft(t, o, Audits, at)
    ensures NoEvidenceOverstays(t, o, SecurityEnds(t, o, at))
  {
    var moment := SecurityEnds(t, o, at);
    forall id | id in t.db.verifications && t.db.verifications[id].organizationId == o
      ensures t.db.verifications[id].verifiedAt >= moment
    {
      assert !Overdue(t, OldVerification(o, id), at);
    }
    forall id | id in t.db.requests && t.db.requests[id].claim.organizationId == o
                && EndedBefore(t.db.requests[id], moment)
      ensures id in t.db.verifications
    {
      EndedOnce(w, id, moment);
      assert Overdue(t, OldRequest(o, id), at);
    }
    forall n | n in t.audits && t.audits[n].organizationId == o ensures t.audits[n].occurredAt >= moment {
      assert !Overdue(t, OldAudit(o, n), at);
    }
  }

  /** A clean organization keeps nothing beyond its days. */
  lemma CleanIsWithinTerms(w: World, t: Tables, o: string, at: int)
    requires Sound(w) && w.db == t.db && o in t.live && Clean(t, o, at)
    ensures WithinTerms(t, o, at)
  {
    CleanProjects(t, o, at);
    CleanRunbooks(t, o, at);
    CleanEvidence(w, t, o, at);
  }

  // ---------- nothing goes earlier ----------

  /** A request for a project's deletion that nobody has taken back while its window lasted. */
  ghost predicate Expired(a: Tables, id: string, projectId: string, at: int) {
    && id in a.db.requests && a.db.requests[id].claim.projectId == projectId
    && a.db.requests[id].status == Recoverable && a.db.requests[id].claim.recoveryUntil <= at
    && a.db.requests[id].claim.organizationId in a.live
  }

  ghost predicate IsExpired(a: Tables, projectId: string, at: int) {
    exists id :: Expired(a, id, projectId, at)
  }

  /** A project goes only with a deletion request whose recovery window is over, and no other request changes. */
  ghost predicate OnlyExpiredProjectsGo(a: Tables, b: Tables, at: int) {
    && (forall p :: p in a.db.store.projects && p !in b.db.store.projects ==> IsExpired(a, p, at))
    && (forall id :: id in a.db.requests && id in b.db.requests && b.db.requests[id] != a.db.requests[id] ==>
          Expired(a, id, a.db.requests[id].claim.projectId, at))
  }

  ghost predicate IdleRunbook(a: Tables, row: C.RowId, at: int) {
    && row in a.db.store.rows && row.table == C.Runbooks && a.db.store.rows[row].organizationId in a.live
    && IdleSince(a.db.store, row, OperationEnds(a, a.db.store.rows[row].organizationId, at))
  }

  ghost predicate WentWith(a: Tables, k: C.RowId, row: C.RowId, at: int)
    requires k in a.db.store.rows
  {
    && IdleRunbook(a, row, at) && C.InRunbook(k.table)
    && a.db.store.rows[k].runbookId == a.db.store.rows[row].runbookId
    && (k.table == C.Runbooks ==> row == k)
  }

  /** A row below a project goes with its project, or with its runbook, which was idle for its days. */
  ghost predicate OnlyIdleRunbooksGo(a: Tables, b: Tables, at: int) {
    forall k :: k in a.db.store.rows && k !in b.db.store.rows ==>
      IsExpired(a, C.Owner(a.db.store, k), at) || exists row :: WentWith(a, k, row, at)
  }

  ghost predicate OnlyOldEvidenceGoes(a: Tables, b: Tables, at: int) {
    && (forall id :: id in a.db.verifications && id !in b.db.verifications ==>
          a.db.verifications[id].verifiedAt < SecurityEnds(a, a.db.verifications[id].organizationId, at))
    && (forall id :: id in a.db.requests && id !in b.db.requests ==>
          EndedBefore(a.db.requests[id], SecurityEnds(a, a.db.requests[id].claim.organizationId, at)))
    && (forall n :: n in a.audits && n !in b.audits ==>
          a.audits[n].occurredAt < SecurityEnds(a, a.audits[n].organizationId, at))
  }

  ghost predicate OnlyExpiredGoes(a: Tables, b: Tables, at: int) {
    OnlyExpiredProjectsGo(a, b, at) && OnlyIdleRunbooksGo(a, b, at) && OnlyOldEvidenceGoes(a, b, at)
  }

  lemma DueIsExpired(a: Tables, at: int, done: set<Item>, item: Item)
    requires done <= Backlog(a, at) && item in done && item.DueProject? && item.id in a.db.requests
    ensures Expired(a, item.id, a.db.requests[item.id].claim.projectId, at)
  {
    assert Overdue(a, item, at);
  }

  lemma ProjectsWereExpired(a: Tables, b: Tables, at: int, done: set<Item>)
    requires Progress(a, b, at, done)
    ensures OnlyExpiredProjectsGo(a, b, at)
  {
    forall p | p in a.db.store.projects && p !in b.db.store.projects ensures IsExpired(a, p, at) {
      var item :| item in done && Removes(a, item, p);
      DueIsExpired(a, at, done, item);
    }
    forall id | id in a.db.requests && id in b.db.requests && b.db.requests[id] != a.db.requests[id]
      ensures Expired(a, id, a.db.requests[id].claim.projectId, at)
    {
      DueIsExpired(a, at, done, DueProject(a.db.requests[id].claim.organizationId, id));
    }
  }

  lemma RunbooksWereIdle(a: Tables, b: Tables, at: int, done: set<Item>)
    requires C.Kept(a.db.store) && Progress(a, b, at, done)
    ensures OnlyIdleRunbooksGo(a, b, at)
  {
    forall k | k in a.db.store.rows && k !in b.db.store.rows
      ensures IsExpired(a, C.Owner(a.db.store, k), at) || exists row :: WentWith(a, k, row, at)
    {
      var item :| item in done && Takes(a, item, k);
      if item.DueProject? {
        DueIsExpired(a, at, done, item);
      } else {
        StaleWentWith(a, at, item, k);
      }
    }
  }

  lemma StaleWentWith(a: Tables, at: int, item: Item, k: C.RowId)
    requires C.Kept(a.db.store) && Overdue(a, item, at) && k in a.db.store.rows && Takes(a, item, k)
    requires item.StaleRunbook?
    ensures WentWith(a, k, item.row, at)
  {
    assert C.RowKept(a.db.store, k) && C.RowKept(a.db.store, item.row);
  }

  ghost predicate AllOverdue(a: Tables, at: int, done: set<Item>) {
    forall item :: item in done ==> Overdue(a, item, at)
  }

  lemma VerificationWasOld(a: Tables, b: Tables, at: int, done: set<Item>, id: string)
    requires AllOverdue(a, at, done) && VerificationsKept(a, b, done)
    requires id in a.db.verifications && id !in b.db.verifications
    ensures a.db.verifications[id].verifiedAt < SecurityEnds(a, a.db.verifications[id].organizationId, at)
  {
    assert Overdue(a, OldVerification(a.db.verifications[id].organizationId, id), at);
  }

  lemma RequestWasOld(w: World, a: Tables, b: Tables, at: int, done: set<Item>, id: string)
    requires AllShaped(w.db) && w.db == a.db && AllOverdue(a, at, done) && RequestsKept(a, b, done)
    requires id in a.db.requests && id !in b.db.requests
    ensures EndedBefore(a.db.requests[id], SecurityEnds(a, a.db.requests[id].claim.organizationId, at))
  {
    assert Overdue(a, OldRequest(a.db.requests[id].claim.organizationId, id), at);
    EndedOnce(w, id, SecurityEnds(a, a.db.requests[id].claim.organizationId, at));
  }

  lemma AuditWasOld(a: Tables, b: Tables, at: int, done: set<Item>, n: nat)
    requires AllOverdue(a, at, done) && AuditsKept(a, b, done) && n in a.audits && n !in b.audits
    ensures a.audits[n].occurredAt < SecurityEnds(a, a.audits[n].organizationId, at)
  {
    assert Overdue(a, OldAudit(a.audits[n].organizationId, n), at);
  }

  lemma EvidenceWasOld(w: World, a: Tables, b: Tables, at: int, done: set<Item>)
    requires Sound(w) && w.db == a.db && AllOverdue(a, at, done)
    requires RequestsKept(a, b, done) && VerificationsKept(a, b, done) && AuditsKept(a, b, done)
    ensures OnlyOldEvidenceGoes(a, b, at)
  {
    forall id | id in a.db.verifications && id !in b.db.verifications
      ensures a.db.verifications[id].verifiedAt < SecurityEnds(a, a.db.verifications[id].organizationId, at)
    {
      VerificationWasOld(a, b, at, done, id);
    }
    forall id | id in a.db.requests && id !in b.db.requests
      ensures EndedBefore(a.db.requests[id], SecurityEnds(a, a.db.requests[id].claim.organizationId, at))
    {
      RequestWasOld(w, a, b, at, done, id);
    }
    forall n | n in a.audits && n !in b.audits
      ensures a.audits[n].occurredAt < SecurityEnds(a, a.audits[n].organizationId, at)
    {
      AuditWasOld(a, b, at, done, n);
    }
  }

  /** Whatever a sweep has worked off had served its days. */
  lemma DoneWasExpired(w: World, a: Tables, b: Tables, at: int, done: set<Item>)
    requires Sound(w) && w.db == a.db && C.Kept(a.db.store) && Progress(a, b, at, done)
    ensures OnlyExpiredGoes(a, b, at)
  {
    ProjectsWereExpired(a, b, at, done);
    RunbooksWereIdle(a, b, at, done);
    EvidenceWasOld(w, a, b, at, done);
  }

  // ---------- work on a runbook keeps it ----------

  /** A task, monitor, register or review that is written again keeps its runbook from the sweep for its days. */
  lemma RewritingKeepsTheRunbook(s: C.Store, target: C.RowId, at: int, content: string, row: C.RowId, moment: int)
    requires target in s.rows && target.table in {C.Tasks, C.Occupancy, C.Incidents, C.Deviations, C.Reviews}
    requires row in s.rows && row.table == C.Runbooks && s.rows[row].runbookId == s.rows[target].runbookId
    requires at >= moment
    ensures !IdleSince(C.After(s, C.Rewrite(target, at, content)), row, moment)
    ensures IdleSince(s, row, moment) ==>
              C.After(s, C.Rewrite(target, at, content)).rows
              == s.rows[target := s.rows[target].(updatedAt := at, content := content)]
  {
    var n := C.After(s, C.Rewrite(target, at, content));
    assert target in n.rows && n.rows[target].updatedAt == at;
    assert n.rows[target].runbookId == n.rows[row].runbookId;
  }
}
