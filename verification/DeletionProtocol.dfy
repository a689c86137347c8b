/**
 Runs of the deletion protocol. The world keeps every plan that any actor has read or confirmed, so a batch
 may run at any later moment, after any other steps, and any number of times.
 */
module DeletionProtocol {
  import opened Results
  import opened ProjectDeletion
  import C = ProjectCascade

  /**
   `issued` remembers, for every project and time, the request that was stored with that time; `known`
   remembers every project id ever used.
   */
  datatype World = World(db: Db, read: set<Action>, ready: set<Action>,
                         issued: map<(string, int), string>, known: set<string>)

  datatype Step =
    | Content(step: C.Step)
    | Create(projectId: string, organizationId: string, deletedAt: Option<int>, recoveryUntil: Option<int>)
    | Put(projectId: string, organizationId: string, expectedRevision: int, deletedAt: Option<int>,
          recoveryUntil: Option<int>)
    | Look(call: Call, now: int)
    | Confirm(action: Action)
    | Batch(action: Action)
    | DropVerifications(ids: set<string>)
    | DropRequests(ids: set<string>)

  function Key(c: Claim): (string, int) {
    (c.projectId, c.requestedAt)
  }

  predicate PutMatches(db: Db, projectId: string, organizationId: string, expectedRevision: int) {
    projectId in db.store.projects && db.store.projects[projectId].organizationId == organizationId
    && db.store.projects[projectId].revision == expectedRevision
  }

  /**
   The project repository's create, which fails when the id is taken and else stores the record's deletion columns.
   */
  function CreateProject(db: Db, projectId: string, organizationId: string, deletedAt: Option<int>,
                         recoveryUntil: Option<int>): Db {
    db.(store := C.After(db.store, C.CreateProject(projectId, organizationId, deletedAt, recoveryUntil)))
  }

  /** The project repository's own write, which carries the deletion columns of the caller's record. */
  function PutProject(db: Db, projectId: string, organizationId: string, expectedRevision: int,
                      deletedAt: Option<int>, recoveryUntil: Option<int>): Db {
    if PutMatches(db, projectId, organizationId, expectedRevision) then
      db.(store := Revised(db.store, projectId, deletedAt, recoveryUntil))
    else db
  }

  /** The selection the sweep makes before it deletes requests. */
  predicate Terminal(db: Db, id: string) {
    id in db.requests ==> !db.requests[id].status.Recoverable? && id !in db.verifications
  }

  /**
   What a run may do. The assumptions: no two requests of a project are stored with one timestamp, request
   and project ids are not used twice, a project is created without deletion columns, a put carries the
   deletion columns that are stored, and the sweep's select and delete of requests is one step.
   */
  predicate Enabled(w: World, step: Step) {
    match step
    case Content(s) => s.Insert? || s.Rewrite? || s.Delete? || s.Sweep? || s.ExpireLeases?
    case Create(p, o, d, u) => p !in w.known && d.None? && u.None?
    case Put(p, o, revision, d, u) =>
      p in w.db.store.projects ==> d == w.db.store.projects[p].deletedAt && u == w.db.store.projects[p].recoveryUntil
    case Look(call, now) => call.RequestDeletion? ==> 0 <= call.recoveryDays <= 30
    case Confirm(a) => a in w.read && Confirmed(w.db, a)
    case Batch(a) => a in w.ready && (a.Ask? ==> Key(a.claim) !in w.issued && a.requestId !in w.issued.Values)
    case DropVerifications(ids) => true
    case DropRequests(ids) => forall id :: id in ids ==> Terminal(w.db, id)
  }

  function Next(w: World, step: Step): World {
    match step
    case Content(s) => w.(db := w.db.(store := C.After(w.db.store, s)))
    case Create(p, o, d, u) => w.(db := CreateProject(w.db, p, o, d, u), known := w.known + {p})
    case Put(p, o, revision, d, u) => w.(db := PutProject(w.db, p, o, revision, d, u))
    case Look(call, now) =>
      var plan := Consider(w.db, call, now);
      if plan.Ok? && plan.value.Go? then w.(read := w.read + {plan.value.action}) else w
    case Confirm(a) => w.(ready := w.ready + {a})
    case Batch(a) =>
      var n := w.(db := After(w.db, a));
      if a.Ask? && a.requestId in n.db.requests then n.(issued := w.issued[Key(a.claim) := a.requestId]) else n
    case DropVerifications(ids) => w.(db := w.db.(verifications := w.db.verifications - ids))
    case DropRequests(ids) => w.(db := w.db.(requests := w.db.requests - ids))
  }

  predicate AllEnabled(w: World, steps: seq<Step>)
    decreases |steps|
  {
    steps == [] || (AllEnabled(w, steps[..|steps| - 1]) && Enabled(Play(w, steps[..|steps| - 1]), steps[|steps| - 1]))
  }

  function Play(w: World, steps: seq<Step>): World
    decreases |steps|
  {
    if steps == [] then w else Next(Play(w, steps[..|steps| - 1]), steps[|steps| - 1])
  }

  // ---------- what every run keeps ----------

  ghost predicate RequestsAgree(db: Db) {
    forall id :: id in db.requests && db.requests[id].status.Recoverable? ==>
        ScopeMatches(db.store, db.requests[id].claim)
  }

  ghost predicate HasActive(db: Db, projectId: string) {
    exists id :: id in db.requests && db.requests[id].status.Recoverable?
        && db.requests[id].claim.projectId == projectId
  }

  ghost predicate ProjectAgrees(db: Db, p: string)
    requires p in db.store.projects
  {
    if db.store.projects[p].deletedAt.Some? then HasActive(db, p) else db.store.projects[p].recoveryUntil.None?
  }

  /** Projects are soft-deleted exactly by their recoverable requests. */
  ghost predicate Agreed(db: Db) {
    RequestsAgree(db) && forall p :: p in db.store.projects ==> ProjectAgrees(db, p)
  }

  /** What the columns of a request say together. */
  ghost predicate Shaped(s: C.Store, r: Request) {
    && r.claim.requestedAt <= r.claim.recoveryUntil
    && (r.acknowledgedAt.None? <==> r.acknowledgedBy.None?)
    && (r.status.Recoverable? ==> Untouched(r))
    && (r.status.Recovered? ==>
          && r.recoveredAt.Some? && r.recoveredAt.value <= r.claim.recoveryUntil
          && r.purgedAt.None? && r.purgedBy.None? && r.backupEligibleAt.None? && r.verification.None?)
    && (r.status.Purged? ==>
          && r.purgedAt.Some? && r.purgedAt.value >= r.claim.recoveryUntil
          && r.recoveredAt.None? && r.recoveredBy.None?
          && r.backupEligibleAt == Some(r.purgedAt.value + BACKUP_DAYS * DAY)
          && r.verification == Some(C.PlannedVerification())
          && C.NothingOf(s, r.claim.projectId))
  }

  ghost predicate AllShaped(db: Db) {
    forall id :: id in db.requests ==> Shaped(db.store, db.requests[id])
  }

  ghost predicate Numbered(w: World) {
    forall id :: id in w.db.requests ==>
      Key(w.db.requests[id].claim) in w.issued && w.issued[Key(w.db.requests[id].claim)] == id
  }

  /** The evidence an actor carries still names the request it read, if that request still exists. */
  ghost predicate Faithful(w: World, a: Action) {
    match a
    case Ask(c, id) => c.requestedAt <= c.recoveryUntil
    case Recover(o, p, actor, id, at, now) =>
      (p, at) in w.issued && w.issued[(p, at)] == id
      && (id in w.db.requests ==> Found(w.db, o, p, id) && w.db.requests[id].claim.requestedAt == at
                                  && now <= w.db.requests[id].claim.recoveryUntil)
    case Purge(o, p, actor, id, at, now) =>
      (p, at) in w.issued && w.issued[(p, at)] == id
      && (id in w.db.requests ==> Found(w.db, o, p, id) && w.db.requests[id].claim.requestedAt == at
                                  && now >= w.db.requests[id].claim.recoveryUntil)
    case _ => true
  }

  ghost predicate AllFaithful(w: World) {
    w.ready <= w.read && forall a :: a in w.read ==> Faithful(w, a)
  }

  ghost predicate Remembered(w: World) {
    w.db.store.projects.Keys <= w.known && forall k :: k in w.issued ==> k.0 in w.known
  }

  ghost predicate VerificationsRefer(db: Db) {
    forall id :: id in db.verifications ==> VerifiedBy(db, id, db.verifications[id])
  }

  ghost predicate Sound(w: World) {
    && C.AtRest(w.db.store)
    && Agreed(w.db) && AllShaped(w.db) && Numbered(w) && AllFaithful(w) && Remembered(w)
    && VerificationsRefer(w.db)
  }

  // ---------- one active request ----------

  lemma OneActive(w: World, id: string, other: string)
    requires RequestsAgree(w.db) && Numbered(w)
    requires id in w.db.requests && w.db.requests[id].status.Recoverable?
    requires other in w.db.requests && w.db.requests[other].status.Recoverable?
    requires w.db.requests[id].claim.projectId == w.db.requests[other].claim.projectId
    ensures id == other
  {
    assert ScopeMatches(w.db.store, w.db.requests[id].claim);
    assert ScopeMatches(w.db.store, w.db.requests[other].claim);
    assert Key(w.db.requests[id].claim) == Key(w.db.requests[other].claim);
  }

  ghost predicate IsActive(db: Db, id: string, projectId: string, at: int) {
    id in db.requests && db.requests[id].status.Recoverable?
    && db.requests[id].claim.projectId == projectId && db.requests[id].claim.requestedAt == at
  }

  /** A project is soft-deleted at a time exactly when one recoverable request was stored with that time. */
  lemma DeletedExactlyWhenRequested(w: World, projectId: string, at: int)
    requires Sound(w)
    ensures projectId in w.db.store.projects && w.db.store.projects[projectId].deletedAt == Some(at)
            <==> exists id :: IsActive(w.db, id, projectId, at)
    ensures forall id, other :: IsActive(w.db, id, projectId, at) && IsActive(w.db, other, projectId, at) ==>
            id == other
    ensures forall id :: IsActive(w.db, id, projectId, at) ==>
              && projectId in w.db.store.projects
              && w.db.store.projects[projectId].recoveryUntil == Some(w.db.requests[id].claim.recoveryUntil)
  {
    forall id | IsActive(w.db, id, projectId, at) ensures ScopeMatches(w.db.store, w.db.requests[id].claim) {
    }
    if projectId in w.db.store.projects && w.db.store.projects[projectId].deletedAt == Some(at) {
      assert ProjectAgrees(w.db, projectId);
      var id :| id in w.db.requests && w.db.requests[id].status.Recoverable?
          && w.db.requests[id].claim.projectId == projectId;
      assert ScopeMatches(w.db.store, w.db.requests[id].claim);
      assert IsActive(w.db, id, projectId, at);
    }
    forall id, other | IsActive(w.db, id, projectId, at) && IsActive(w.db, other, projectId, at) ensures id == other {
      OneActive(w, id, other);
    }
  }

  // ---------- a batch takes effect whole or not at all ----------

  predicate Wins(db: Db, a: Action) {
    match a
    case Ask(c, id) =>
      && MatchesProject(db.store, c.projectId, c.organizationId, None)
      && db.store.projects[c.projectId].revision == c.projectRevision - 1
      && c.projectRevision >= 1 && 1 <= |c.reasonCode| <= 80
      && forall k :: k in db.requests ==> db.requests[k].claim.directiveId != c.directiveId
    case Recover(o, p, actor, id, at, now) => MatchesRequest(db, id, o)
    case Purge(o, p, actor, id, at, now) => MatchesRequest(db, id, o)
    case Acknowledge(o, actor, id, now) => MatchesRequest(db, id, o) && db.requests[id].acknowledgedAt.None?
    case Record(id, v) => VerifiedBy(db, id, v) && id !in db.verifications && 1 <= |v.evidenceRef| <= 160
  }

  /** The whole effect of a batch that wins. */
  ghost function Effect(db: Db, a: Action): Db
    requires Wins(db, a) && (a.Recover? ==> a.projectId in db.store.projects)
  {
    match a
    case Ask(c, id) =>
      db.(store := Revised(db.store, c.projectId, Some(c.requestedAt), Some(c.recoveryUntil)),
          requests := db.requests[id := NewRequest(c)])
    case Recover(o, p, actor, id, at, now) =>
      db.(store := Revised(db.store, p, None, None),
          requests := db.requests[id := RecoveredRequest(db.requests[id], now, actor)])
    case Purge(o, p, actor, id, at, now) =>
      db.(store := C.After(db.store, C.Purge(p, o, at)),
          requests := db.requests[id := PurgedRequest(db.requests[id], now, actor)])
    case Acknowledge(o, actor, id, now) =>
      db.(requests := db.requests[id := db.requests[id].(acknowledgedAt := Some(now), acknowledgedBy := Some(actor))])
    case Record(id, v) => db.(verifications := db.verifications[id := v])
  }

  /** A stale plan cannot find the project deleted at the time of its request unless the request is still active. */
  lemma EvidenceDecides(w: World, organizationId: string, projectId: string, id: string, at: int)
    requires Sound(w) && (projectId, at) in w.issued && w.issued[(projectId, at)] == id
    requires id in w.db.requests ==>
               Found(w.db, organizationId, projectId, id) && w.db.requests[id].claim.requestedAt == at
    ensures MatchesRequest(w.db, id, organizationId) <==>
            MatchesProject(w.db.store, projectId, organizationId, Some(at))
  {
    DeletedExactlyWhenRequested(w, projectId, at);
    if MatchesProject(w.db.store, projectId, organizationId, Some(at)) {
      var active :| IsActive(w.db, active, projectId, at);
      assert Key(w.db.requests[active].claim) == (projectId, at);
    }
  }

  lemma FreshTimeIsNoDeletion(w: World, c: Claim)
    requires Sound(w) && Key(c) !in w.issued
    ensures !MatchesProject(w.db.store, c.projectId, c.organizationId, Some(c.requestedAt))
  {
    DeletedExactlyWhenRequested(w, c.projectId, c.requestedAt);
    forall id | id in w.db.requests ensures Key(w.db.requests[id].claim) != Key(c) {
    }
    assert forall id :: !IsActive(w.db, id, c.projectId, c.requestedAt);
  }

  lemma AskIsAllOrNothing(w: World, a: Action)
    requires Sound(w) && a.Ask? && Enabled(w, Batch(a))
    ensures After(w.db, a) == if Wins(w.db, a) then Effect(w.db, a) else w.db
  {
    var c := a.claim;
    FreshTimeIsNoDeletion(w, c);
    assert a.requestId !in w.db.requests;
    assert Faithful(w, a);
  }

  lemma RecoverIsAllOrNothing(w: World, a: Action)
    requires Sound(w) && a.Recover? && a in w.read
    ensures Wins(w.db, a) ==> a.projectId in w.db.store.projects
    ensures Run(w.db, a) == Ok(if Wins(w.db, a) then Effect(w.db, a) else w.db)
  {
    assert Faithful(w, a);
    EvidenceDecides(w, a.organizationId, a.projectId, a.requestId, a.requestedAt);
    if Wins(w.db, a) {
      assert Shaped(w.db.store, w.db.requests[a.requestId]);
    }
  }

  lemma NothingOfIsAbsent(s: C.Store, projectId: string)
    requires C.NothingOf(s, projectId)
    ensures Absent(s, projectId)
  {
    forall id | id in s.rows && id.table in C.CASCADE_TABLES ensures s.rows[id].projectId != projectId {
      OwnerIsProject(s, id);
    }
  }

  lemma OwnerIsProject(s: C.Store, id: C.RowId)
    requires id in s.rows && id.table in C.CASCADE_TABLES
    ensures C.Owner(s, id) == s.rows[id].projectId
  {
    assert !id.table.Outbox?;
  }

  /** A purge that still has its evidence passes the cascade, the absence test and the terminal test. */
  lemma PurgeIsAllOrNothing(w: World, a: Action)
    requires Sound(w) && a.Purge? && a in w.read
    ensures Wins(w.db, a) <==> MatchesProject(w.db.store, a.projectId, a.organizationId, Some(a.requestedAt))
    ensures Run(w.db, a) == Ok(if Wins(w.db, a) then Effect(w.db, a) else w.db)
  {
    assert Faithful(w, a);
    EvidenceDecides(w, a.organizationId, a.projectId, a.requestId, a.requestedAt);
    if Wins(w.db, a) {
      assert Shaped(w.db.store, w.db.requests[a.requestId]);
      C.PurgeKeepsReferences(w.db.store, a.projectId);
      NothingOfIsAbsent(C.DeleteProject(w.db.store, a.projectId).value, a.projectId);
    }
  }

  lemma AcknowledgeIsAllOrNothing(w: World, a: Action)
    requires Sound(w) && a.Acknowledge?
    ensures Run(w.db, a) == Ok(if Wins(w.db, a) then Effect(w.db, a) else w.db)
  {
    if Wins(w.db, a) {
      assert Shaped(w.db.store, w.db.requests[a.requestId]);
    }
  }

  // ---------- every step keeps the invariant ----------

  ghost predicate SameDeletions(s: C.Store, n: C.Store) {
    && n.projects.Keys == s.projects.Keys
    && forall p :: p in s.projects ==>
         n.projects[p].(revision := 0) == s.projects[p].(revision := 0)
  }

  lemma SameDeletionsKeepAgreed(db: Db, n: C.Store)
    requires Agreed(db) && SameDeletions(db.store, n)
    ensures Agreed(db.(store := n))
  {
    forall id | id in db.requests && db.requests[id].status.Recoverable?
        ensures ScopeMatches(n, db.requests[id].claim) {
      assert ScopeMatches(db.store, db.requests[id].claim);
    }
    forall p | p in n.projects ensures ProjectAgrees(db.(store := n), p) {
      assert ProjectAgrees(db, p);
      assert HasActive(db, p) ==> HasActive(db.(store := n), p);
    }
  }

  ghost predicate KeepsPurged(db: Db, n: C.Store) {
    forall id :: id in db.requests && db.requests[id].status.Purged? ==> C.NothingOf(n, db.requests[id].claim.projectId)
  }

  lemma StoreStepKeepsSound(w: World, n: C.Store)
    requires Sound(w) && C.AtRest(n) && SameDeletions(w.db.store, n) && KeepsPurged(w.db, n)
    ensures Sound(w.(db := w.db.(store := n)))
  {
    var v := w.(db := w.db.(store := n));
    SameDeletionsKeepAgreed(w.db, n);
    forall id | id in v.db.requests ensures Shaped(n, v.db.requests[id]) {
      assert Shaped(w.db.store, v.db.requests[id]);
    }
    forall a | a in v.read ensures Faithful(v, a) {
      assert Faithful(w, a);
    }
  }

  lemma ContentKeepsPurged(db: Db, step: C.Step)
    requires C.AtRest(db.store) && AllShaped(db) && !(step.CreateProject?)
    ensures KeepsPurged(db, C.After(db.store, step))
  {
    forall id | id in db.requests && db.requests[id].status.Purged?
      ensures C.NothingOf(C.After(db.store, step), db.requests[id].claim.projectId)
    {
      assert Shaped(db.store, db.requests[id]);
      C.NothingComesBack(db.store, step, db.requests[id].claim.projectId);
    }
  }

  lemma ContentKeepsProjects(s: C.Store, step: C.Step)
    requires C.AtRest(s)
    requires step.Insert? || step.Rewrite? || step.Delete? || step.Sweep? || step.ExpireLeases?
    ensures C.After(s, step).projects == s.projects
  {
    if step.Sweep? {
      C.SweepKeepsReferences(s, step.runbookId, step.organizationId, step.projectId, step.issuedAt);
    }
  }

  lemma ContentKeepsSound(w: World, step: C.Step)
    requires Sound(w) && Enabled(w, Content(step))
    ensures Sound(Next(w, Content(step)))
  {
    C.EveryStepEndsAtRest(w.db.store, step);
    ContentKeepsProjects(w.db.store, step);
    ContentKeepsPurged(w.db, step);
    StoreStepKeepsSound(w, C.After(w.db.store, step));
  }

  lemma PutKeepsSound(w: World, step: Step)
    requires Sound(w) && step.Put? && Enabled(w, step)
    ensures Sound(Next(w, step))
  {
    var p := step.projectId;
    if PutMatches(w.db, p, step.organizationId, step.expectedRevision) {
      var n := Revised(w.db.store, p, step.deletedAt, step.recoveryUntil);
      assert n == C.After(w.db.store, C.ReviseProject(p, step.deletedAt, step.recoveryUntil));
      C.EveryStepEndsAtRest(w.db.store, C.ReviseProject(p, step.deletedAt, step.recoveryUntil));
      ContentKeepsPurged(w.db, C.ReviseProject(p, step.deletedAt, step.recoveryUntil));
      StoreStepKeepsSound(w, n);
    }
  }

  lemma CreateKeepsSound(w: World, step: Step)
    requires Sound(w) && step.Create? && Enabled(w, step)
    ensures Sound(Next(w, step))
  {
    var p := step.projectId;
    var c := C.CreateProject(p, step.organizationId, step.deletedAt, step.recoveryUntil);
    var v := Next(w, step);
    C.EveryStepEndsAtRest(w.db.store, c);
    forall id | id in v.db.requests
        ensures Shaped(v.db.store, v.db.requests[id]) && Key(v.db.requests[id].claim).0 != p {
      assert Shaped(w.db.store, v.db.requests[id]);
      assert Key(v.db.requests[id].claim) in w.issued;
      if v.db.requests[id].status.Purged? {
        C.NothingComesBack(w.db.store, c, v.db.requests[id].claim.projectId);
      }
    }
    forall q | q in v.db.store.projects ensures ProjectAgrees(v.db, q) {
      if q != p {
        assert ProjectAgrees(w.db, q);
        assert HasActive(w.db, q) ==> HasActive(v.db, q);
      }
    }
    forall id | id in v.db.requests && v.db.requests[id].status.Recoverable?
        ensures ScopeMatches(v.db.store, v.db.requests[id].claim) {
      assert ScopeMatches(w.db.store, v.db.requests[id].claim);
    }
    forall a | a in v.read ensures Faithful(v, a) {
      assert Faithful(w, a);
    }
  }

  lemma LookIsFaithful(w: World, call: Call, now: int)
    requires Sound(w) && Enabled(w, Look(call, now))
    requires Consider(w.db, call, now).Ok? && Consider(w.db, call, now).value.Go?
    ensures Faithful(w, Consider(w.db, call, now).value.action)
  {
  }

  lemma LookKeepsSound(w: World, call: Call, now: int)
    requires Sound(w) && Enabled(w, Look(call, now))
    ensures Sound(Next(w, Look(call, now)))
  {
    if Consider(w.db, call, now).Ok? && Consider(w.db, call, now).value.Go? {
      LookIsFaithful(w, call, now);
      var v := Next(w, Look(call, now));
      forall a | a in v.read ensures Faithful(v, a) {
        assert Faithful(w, a);
      }
    }
  }

  lemma ConfirmKeepsSound(w: World, a: Action)
    requires Sound(w) && Enabled(w, Confirm(a))
    ensures Sound(Next(w, Confirm(a)))
  {
    var v := Next(w, Confirm(a));
    forall b | b in v.read ensures Faithful(v, b) {
      assert Faithful(w, b);
    }
  }

  /** Plans stay faithful while the requests they are about keep their claims and no id that was issued comes back. */
  lemma FaithfulStays(w: World, v: World)
    requires AllFaithful(w) && v.read == w.read && v.ready == w.ready
    requires forall k :: k in w.issued ==> k in v.issued && v.issued[k] == w.issued[k]
    requires forall id :: id in v.db.requests ==>
               id !in w.issued.Values || (id in w.db.requests && v.db.requests[id].claim == w.db.requests[id].claim)
    ensures AllFaithful(v)
  {
    forall a | a in v.read ensures Faithful(v, a) {
      assert Faithful(w, a);
    }
  }

  /** Verifications still refer while their requests are as they were. */
  lemma ReferencesStay(db: Db, m: Db)
    requires VerificationsRefer(db)
    requires forall id :: id in m.verifications ==>
               && id in db.verifications && m.verifications[id] == db.verifications[id]
               && (id in db.requests ==> id in m.requests && m.requests[id] == db.requests[id])
    ensures VerificationsRefer(m)
  {
    forall id | id in m.verifications ensures VerifiedBy(m, id, m.verifications[id]) {
      assert VerifiedBy(db, id, db.verifications[id]);
    }
  }

  lemma DropVerificationsKeepsSound(w: World, ids: set<string>)
    requires Sound(w)
    ensures Sound(Next(w, DropVerifications(ids)))
  {
    var v := Next(w, DropVerifications(ids));
    assert SameDeletions(w.db.store, w.db.store);
    assert RequestsAgree(v.db);
    forall p | p in v.db.store.projects ensures ProjectAgrees(v.db, p) {
      assert ProjectAgrees(w.db, p);
      assert HasActive(w.db, p) ==> HasActive(v.db, p);
    }
    forall b | b in v.read ensures Faithful(v, b) {
      assert Faithful(w, b);
    }
    forall id | id in v.db.verifications ensures VerifiedBy(v.db, id, v.db.verifications[id]) {
      assert VerifiedBy(w.db, id, w.db.verifications[id]);
    }
  }

  lemma DropRequestsKeepsSound(w: World, ids: set<string>)
    requires Sound(w) && Enabled(w, DropRequests(ids))
    ensures Sound(Next(w, DropRequests(ids)))
  {
    var v := Next(w, DropRequests(ids));
    forall p | p in v.db.store.projects ensures ProjectAgrees(v.db, p) {
      assert ProjectAgrees(w.db, p);
      if HasActive(w.db, p) {
        var id :| id in w.db.requests && w.db.requests[id].status.Recoverable?
            && w.db.requests[id].claim.projectId == p;
        assert id !in ids by { assert id in ids ==> Terminal(w.db, id); }
        assert id in v.db.requests;
      }
    }
    forall b | b in v.read ensures Faithful(v, b) {
      assert Faithful(w, b);
    }
    forall id | id in v.db.verifications ensures VerifiedBy(v.db, id, v.db.verifications[id]) {
      assert VerifiedBy(w.db, id, w.db.verifications[id]);
      assert id in ids ==> Terminal(w.db, id);
    }
  }

  lemma AskAgrees(w: World, a: Action)
    requires Sound(w) && a.Ask? && Enabled(w, Batch(a)) && Wins(w.db, a)
    ensures Agreed(Effect(w.db, a))
  {
    var db := Effect(w.db, a);
    var p := a.claim.projectId;
    assert a.requestId !in w.db.requests;
    forall id | id in db.requests && db.requests[id].status.Recoverable?
        ensures ScopeMatches(db.store, db.requests[id].claim) {
      if id != a.requestId {
        assert ScopeMatches(w.db.store, w.db.requests[id].claim);
      }
    }
    forall q | q in db.store.projects ensures ProjectAgrees(db, q) {
      if q == p {
        assert db.requests[a.requestId].claim.projectId == p;
      } else {
        assert ProjectAgrees(w.db, q);
        if HasActive(w.db, q) {
          var id :| id in w.db.requests && w.db.requests[id].status.Recoverable?
              && w.db.requests[id].claim.projectId == q;
          assert id in db.requests && db.requests[id] == w.db.requests[id];
        }
      }
    }
  }

  lemma RevisedIsAStep(s: C.Store, p: string, deletedAt: Option<int>, recoveryUntil: Option<int>)
    requires C.AtRest(s) && p in s.projects
    ensures C.AtRest(Revised(s, p, deletedAt, recoveryUntil))
    ensures Revised(s, p, deletedAt, recoveryUntil) == C.After(s, C.ReviseProject(p, deletedAt, recoveryUntil))
  {
    C.EveryStepEndsAtRest(s, C.ReviseProject(p, deletedAt, recoveryUntil));
  }

  lemma AskShapes(w: World, a: Action)
    requires Sound(w) && a.Ask? && Enabled(w, Batch(a)) && Wins(w.db, a)
    ensures C.AtRest(Effect(w.db, a).store) && AllShaped(Effect(w.db, a))
  {
    var c := a.claim;
    assert Faithful(w, a);
    RevisedIsAStep(w.db.store, c.projectId, Some(c.requestedAt), Some(c.recoveryUntil));
    ContentKeepsPurged(w.db, C.ReviseProject(c.projectId, Some(c.requestedAt), Some(c.recoveryUntil)));
    var db := Effect(w.db, a);
    forall id | id in db.requests ensures Shaped(db.store, db.requests[id]) {
      if id != a.requestId {
        assert Shaped(w.db.store, w.db.requests[id]);
      }
    }
  }

  lemma AskNext(w: World, a: Action)
    requires Sound(w) && a.Ask? && Enabled(w, Batch(a)) && Wins(w.db, a)
    ensures Next(w, Batch(a)) == w.(db := Effect(w.db, a), issued := w.issued[Key(a.claim) := a.requestId])
    ensures a.requestId !in w.issued.Values && a.requestId !in w.db.requests && Key(a.claim) !in w.issued
  {
    AskIsAllOrNothing(w, a);
    assert a.requestId !in w.db.requests;
  }

  lemma AskIsRemembered(w: World, a: Action)
    requires Sound(w) && a.Ask? && Enabled(w, Batch(a)) && Wins(w.db, a)
    ensures Numbered(Next(w, Batch(a))) && Remembered(Next(w, Batch(a)))
  {
    AskNext(w, a);
  }

  lemma AskKeepsSound(w: World, a: Action)
    requires Sound(w) && a.Ask? && Enabled(w, Batch(a)) && Wins(w.db, a)
    ensures Sound(Next(w, Batch(a)))
  {
    AskNext(w, a);
    AskAgrees(w, a);
    AskShapes(w, a);
    AskIsRemembered(w, a);
    FaithfulStays(w, Next(w, Batch(a)));
    ReferencesStay(w.db, Effect(w.db, a));
  }

  /** What the partial unique index enforces: one active request for each project. */
  ghost predicate OneActiveEach(db: Db) {
    forall id, k :: id in db.requests && k in db.requests
                    && db.requests[id].status.Recoverable? && db.requests[k].status.Recoverable?
                    && db.requests[id].claim.projectId == db.requests[k].claim.projectId
                    ==> id == k
  }

  lemma SoundMeansOneActiveEach(w: World)
    requires Sound(w)
    ensures OneActiveEach(w.db)
  {
    forall id, k | id in w.db.requests && k in w.db.requests
                   && w.db.requests[id].status.Recoverable? && w.db.requests[k].status.Recoverable?
                   && w.db.requests[id].claim.projectId == w.db.requests[k].claim.projectId
      ensures id == k
    {
      OneActive(w, id, k);
    }
  }

  /** Ending a request together with its project's deletion leaves every other deletion as it was. */
  lemma EndingAgrees(db: Db, id: string, n: C.Store, r: Request)
    requires Agreed(db) && OneActiveEach(db)
    requires id in db.requests && db.requests[id].status.Recoverable? && !r.status.Recoverable?
    requires n.projects.Keys <= db.store.projects.Keys <= n.projects.Keys + {db.requests[id].claim.projectId}
    requires forall q :: q in n.projects && q != db.requests[id].claim.projectId ==>
             n.projects[q] == db.store.projects[q]
    requires db.requests[id].claim.projectId in n.projects ==>
               n.projects[db.requests[id].claim.projectId].deletedAt.None?
                   && n.projects[db.requests[id].claim.projectId].recoveryUntil.None?
    ensures Agreed(db.(store := n, requests := db.requests[id := r]))
  {
    var m := db.(store := n, requests := db.requests[id := r]);
    forall k | k in m.requests && m.requests[k].status.Recoverable? ensures ScopeMatches(n, m.requests[k].claim) {
      assert ScopeMatches(db.store, db.requests[k].claim);
    }
    forall q | q in n.projects && q != db.requests[id].claim.projectId ensures ProjectAgrees(m, q) {
      assert ProjectAgrees(db, q);
      if HasActive(db, q) {
        var k :| k in db.requests && db.requests[k].status.Recoverable? && db.requests[k].claim.projectId == q;
        assert k in m.requests && m.requests[k] == db.requests[k];
      }
    }
  }

  /** The parts of the invariant that look at one request at a time. */
  lemma EndingKeepsSound(w: World, id: string, n: C.Store, r: Request)
    requires Sound(w) && id in w.db.requests && w.db.requests[id].status.Recoverable?
    requires r.claim == w.db.requests[id].claim && Shaped(n, r)
    requires C.AtRest(n) && n.projects.Keys <= w.db.store.projects.Keys && KeepsPurged(w.db, n)
    requires Agreed(w.db.(store := n, requests := w.db.requests[id := r]))
    ensures Sound(w.(db := w.db.(store := n, requests := w.db.requests[id := r])))
  {
    var v := w.(db := w.db.(store := n, requests := w.db.requests[id := r]));
    EndingIsShaped(w, id, n, r);
    EndingIsFaithful(w, v, id);
    EndingRefers(w.db, v.db, id);
  }

  ghost predicate OnlyChanges(db: Db, m: Db, id: string) {
    && m.requests.Keys == db.requests.Keys && m.verifications == db.verifications
    && (forall k :: k in db.requests ==> m.requests[k].claim == db.requests[k].claim)
    && (forall k :: k in db.requests && k != id ==> m.requests[k] == db.requests[k])
  }

  lemma EndingIsFaithful(w: World, v: World, id: string)
    requires Numbered(w) && AllFaithful(w) && v == w.(db := v.db) && OnlyChanges(w.db, v.db, id)
    ensures Numbered(v) && AllFaithful(v)
  {
    FaithfulStays(w, v);
  }

  lemma EndingRefers(db: Db, m: Db, id: string)
    requires VerificationsRefer(db) && OnlyChanges(db, m, id) && id in db.requests
             && db.requests[id].status.Recoverable?
    ensures VerificationsRefer(m)
  {
    assert id in db.verifications ==> VerifiedBy(db, id, db.verifications[id]);
    ReferencesStay(db, m);
  }

  lemma EndingIsShaped(w: World, id: string, n: C.Store, r: Request)
    requires Sound(w) && id in w.db.requests && Shaped(n, r) && KeepsPurged(w.db, n)
    ensures AllShaped(w.db.(store := n, requests := w.db.requests[id := r]))
  {
    forall k | k in w.db.requests && k != id ensures Shaped(n, w.db.requests[k]) {
      assert Shaped(w.db.store, w.db.requests[k]);
    }
  }

  lemma RecoverEnds(w: World, a: Action)
    requires Sound(w) && a.Recover? && a in w.read && Wins(w.db, a)
    ensures a.projectId in w.db.store.projects && w.db.requests[a.requestId].claim.projectId == a.projectId
    ensures var n, r := Revised(w.db.store, a.projectId, None, None),
            RecoveredRequest(w.db.requests[a.requestId], a.now, a.actor);
            && Next(w, Batch(a)) == w.(db := w.db.(store := n, requests := w.db.requests[a.requestId := r]))
            && Shaped(n, r)
  {
    RecoverIsAllOrNothing(w, a);
    assert Faithful(w, a);
    assert Shaped(w.db.store, w.db.requests[a.requestId]);
  }

  lemma RecoverKeepsSound(w: World, a: Action)
    requires Sound(w) && a.Recover? && a in w.read && Wins(w.db, a)
    ensures Sound(Next(w, Batch(a)))
  {
    RecoverEnds(w, a);
    var n := Revised(w.db.store, a.projectId, None, None);
    var r := RecoveredRequest(w.db.requests[a.requestId], a.now, a.actor);
    RevisedIsAStep(w.db.store, a.projectId, None, None);
    ContentKeepsPurged(w.db, C.ReviseProject(a.projectId, None, None));
    SoundMeansOneActiveEach(w);
    EndingAgrees(w.db, a.requestId, n, r);
    EndingKeepsSound(w, a.requestId, n, r);
  }

  lemma PurgeStore(w: World, a: Action)
    requires Sound(w) && a.Purge? && a in w.read && Wins(w.db, a)
    ensures C.DeleteProject(w.db.store, a.projectId) == Ok(Effect(w.db, a).store)
    ensures Effect(w.db, a).store.projects == w.db.store.projects - {a.projectId}
    ensures C.AtRest(Effect(w.db, a).store) && C.NothingOf(Effect(w.db, a).store, a.projectId)
  {
    PurgeIsAllOrNothing(w, a);
    C.PurgeRemovesTheProject(w.db.store, a.projectId);
    C.PurgeKeepsReferences(w.db.store, a.projectId);
  }

  lemma PurgeShapes(w: World, a: Action)
    requires Sound(w) && a.Purge? && a in w.read && Wins(w.db, a)
    ensures Shaped(Effect(w.db, a).store, PurgedRequest(w.db.requests[a.requestId], a.now, a.actor))
    ensures KeepsPurged(w.db, Effect(w.db, a).store)
    ensures w.db.requests[a.requestId].claim.projectId == a.projectId
  {
    PurgeStore(w, a);
    assert Faithful(w, a);
    assert Shaped(w.db.store, w.db.requests[a.requestId]);
    ContentKeepsPurged(w.db, C.Purge(a.projectId, a.organizationId, a.requestedAt));
  }

  lemma PurgeEnds(w: World, a: Action)
    requires Sound(w) && a.Purge? && a in w.read && Wins(w.db, a)
    ensures var n, r := Effect(w.db, a).store, PurgedRequest(w.db.requests[a.requestId], a.now, a.actor);
            Next(w, Batch(a)) == w.(db := w.db.(store := n, requests := w.db.requests[a.requestId := r]))
  {
    PurgeIsAllOrNothing(w, a);
  }

  lemma PurgeAgrees(w: World, a: Action)
    requires Sound(w) && a.Purge? && a in w.read && Wins(w.db, a)
    ensures var n, r := Effect(w.db, a).store, PurgedRequest(w.db.requests[a.requestId], a.now, a.actor);
            Agreed(w.db.(store := n, requests := w.db.requests[a.requestId := r]))
  {
    PurgeStore(w, a);
    PurgeShapes(w, a);
    SoundMeansOneActiveEach(w);
    EndingAgrees(w.db, a.requestId, Effect(w.db, a).store, PurgedRequest(w.db.requests[a.requestId], a.now, a.actor));
  }

  lemma PurgeKeepsSound(w: World, a: Action)
    requires Sound(w) && a.Purge? && a in w.read && Wins(w.db, a)
    ensures Sound(Next(w, Batch(a)))
  {
    PurgeEnds(w, a);
    PurgeStore(w, a);
    PurgeShapes(w, a);
    PurgeAgrees(w, a);
    EndingKeepsSound(w, a.requestId, Effect(w.db, a).store, PurgedRequest(w.db.requests[a.requestId], a.now, a.actor));
  }

  lemma AcknowledgeAgrees(w: World, a: Action)
    requires Sound(w) && a.Acknowledge? && Wins(w.db, a)
    ensures Agreed(Effect(w.db, a))
  {
    var db := Effect(w.db, a);
    forall p | p in db.store.projects ensures ProjectAgrees(db, p) {
      assert ProjectAgrees(w.db, p);
      if HasActive(w.db, p) {
        var k :| k in w.db.requests && w.db.requests[k].status.Recoverable? && w.db.requests[k].claim.projectId == p;
        assert k in db.requests && db.requests[k].status.Recoverable? && db.requests[k].claim.projectId == p;
      }
    }
    forall k | k in db.requests && db.requests[k].status.Recoverable?
        ensures ScopeMatches(db.store, db.requests[k].claim) {
      assert ScopeMatches(w.db.store, w.db.requests[k].claim);
    }
  }

  lemma AcknowledgeShapes(w: World, a: Action)
    requires Sound(w) && a.Acknowledge? && Wins(w.db, a)
    ensures Shaped(w.db.store, w.db.requests[a.requestId].(acknowledgedAt := Some(a.now),
                                                           acknowledgedBy := Some(a.actor)))
    ensures KeepsPurged(w.db, w.db.store)
  {
    assert Shaped(w.db.store, w.db.requests[a.requestId]);
    forall k | k in w.db.requests ensures Shaped(w.db.store, w.db.requests[k]) {
    }
  }

  lemma AcknowledgeEnds(w: World, a: Action)
    requires Sound(w) && a.Acknowledge? && Wins(w.db, a)
    ensures var r := w.db.requests[a.requestId].(acknowledgedAt := Some(a.now), acknowledgedBy := Some(a.actor));
            && Effect(w.db, a) == w.db.(store := w.db.store, requests := w.db.requests[a.requestId := r])
            && Next(w, Batch(a)) == w.(db := Effect(w.db, a))
  {
    AcknowledgeIsAllOrNothing(w, a);
  }

  lemma AcknowledgeKeepsSound(w: World, a: Action)
    requires Sound(w) && a.Acknowledge? && Wins(w.db, a)
    ensures Sound(Next(w, Batch(a)))
  {
    AcknowledgeEnds(w, a);
    AcknowledgeAgrees(w, a);
    AcknowledgeShapes(w, a);
    EndingKeepsSound(w, a.requestId, w.db.store,
                     w.db.requests[a.requestId].(acknowledgedAt := Some(a.now), acknowledgedBy := Some(a.actor)));
  }

  lemma SameRequestsAgree(db: Db, m: Db)
    requires Agreed(db) && m.store == db.store && m.requests == db.requests
    ensures Agreed(m)
  {
    SameDeletionsKeepAgreed(db, m.store);
    assert db.(store := m.store) == db;
    forall p | p in m.store.projects ensures ProjectAgrees(m, p) {
      assert ProjectAgrees(db, p);
      assert HasActive(db, p) ==> HasActive(m, p);
    }
  }

  lemma RecordedRefers(db: Db, a: Action)
    requires VerificationsRefer(db) && a.Record?
    ensures VerificationsRefer(After(db, a)) && After(db, a).store == db.store && After(db, a).requests == db.requests
  {
    var m := After(db, a);
    forall id | id in m.verifications ensures VerifiedBy(m, id, m.verifications[id]) {
      assert id in db.verifications ==> VerifiedBy(db, id, db.verifications[id]);
    }
  }

  lemma RecordKeepsSound(w: World, a: Action)
    requires Sound(w) && a.Record?
    ensures Sound(Next(w, Batch(a)))
  {
    RecordedRefers(w.db, a);
    SameRequestsAgree(w.db, After(w.db, a));
    FaithfulStays(w, Next(w, Batch(a)));
  }

  /** The winner's batch takes its whole effect; whoever lost the race changes nothing. */
  lemma BatchIsAllOrNothing(w: World, a: Action)
    requires Sound(w) && Enabled(w, Batch(a))
    ensures Wins(w.db, a) && a.Recover? ==> a.projectId in w.db.store.projects
    ensures After(w.db, a) == if Wins(w.db, a) then Effect(w.db, a) else w.db
    ensures !Wins(w.db, a) ==> Next(w, Batch(a)) == w
    ensures !a.Ask? && !a.Record? ==> Run(w.db, a).Ok?
  {
    match a
    case Ask(c, id) =>
      AskIsAllOrNothing(w, a);
      assert id !in w.db.requests;
    case Recover(o, p, actor, id, at, now) => RecoverIsAllOrNothing(w, a);
    case Purge(o, p, actor, id, at, now) => PurgeIsAllOrNothing(w, a);
    case Acknowledge(o, actor, id, now) => AcknowledgeIsAllOrNothing(w, a);
    case Record(id, v) =>
  }

  lemma BatchKeepsSound(w: World, a: Action)
    requires Sound(w) && Enabled(w, Batch(a))
    ensures Sound(Next(w, Batch(a)))
  {
    if Wins(w.db, a) {
      match a
      case Ask(c, id) => AskKeepsSound(w, a);
      case Recover(o, p, actor, id, at, now) => RecoverKeepsSound(w, a);
      case Purge(o, p, actor, id, at, now) => PurgeKeepsSound(w, a);
      case Acknowledge(o, actor, id, now) => AcknowledgeKeepsSound(w, a);
      case Record(id, v) => RecordKeepsSound(w, a);
    } else {
      BatchIsAllOrNothing(w, a);
    }
  }

  lemma EveryStepKeepsSound(w: World, step: Step)
    requires Sound(w) && Enabled(w, step)
    ensures Sound(Next(w, step))
  {
    match step
    case Content(s) => ContentKeepsSound(w, s);
    case Create(p, o, d, u) => CreateKeepsSound(w, step);
    case Put(p, o, revision, d, u) => PutKeepsSound(w, step);
    case Look(call, now) => LookKeepsSound(w, call, now);
    case Confirm(a) => ConfirmKeepsSound(w, a);
    case Batch(a) => BatchKeepsSound(w, a);
    case DropVerifications(ids) => DropVerificationsKeepsSound(w, ids);
    case DropRequests(ids) => DropRequestsKeepsSound(w, ids);
  }

  const EMPTY := World(Db(C.Store(map[], map[], map[]), map[], map[]), {}, {}, map[], {})

  /** Every database that any interleaving reaches from an empty one satisfies the whole invariant. */
  lemma {:induction false} EveryRunIsSound(w: World, steps: seq<Step>)
    requires w == EMPTY || Sound(w)
    requires AllEnabled(w, steps)
    ensures Sound(Play(w, steps))
    decreases |steps|
  {
    if steps != [] {
      EveryRunIsSound(w, steps[..|steps| - 1]);
      EveryStepKeepsSound(Play(w, steps[..|steps| - 1]), steps[|steps| - 1]);
    }
  }

  /** The worlds that some run reaches. */
  ghost predicate Reached(w: World) {
    exists steps :: AllEnabled(EMPTY, steps) && w == Play(EMPTY, steps)
  }

  lemma ReachedIsSound(w: World)
    requires Reached(w)
    ensures Sound(w)
  {
    var steps :| AllEnabled(EMPTY, steps) && w == Play(EMPTY, steps);
    EveryRunIsSound(EMPTY, steps);
  }

  lemma ReachedNext(w: World, step: Step)
    requires Reached(w) && Enabled(w, step)
    ensures Reached(Next(w, step))
  {
    var steps :| AllEnabled(EMPTY, steps) && w == Play(EMPTY, steps);
    var more := steps + [step];
    assert more[..|more| - 1] == steps;
    assert AllEnabled(EMPTY, more) && Next(w, step) == Play(EMPTY, more);
  }

  /** A property that holds at first and that every step keeps. */
  ghost predicate Inductive(keeps: World -> bool) {
    keeps(EMPTY) && forall v, step :: keeps(v) && Enabled(v, step) ==> keeps(Next(v, step))
  }

  /** The same worlds without a word about runs: those that every inductive property holds of. */
  ghost predicate Reachable(w: World) {
    forall keeps: World -> bool {:trigger Inductive(keeps)} :: Inductive(keeps) ==> keeps(w)
  }

  lemma {:induction false} InductiveAlongRuns(keeps: World -> bool, steps: seq<Step>)
    requires Inductive(keeps) && AllEnabled(EMPTY, steps)
    ensures keeps(Play(EMPTY, steps))
    decreases |steps|
  {
    if steps != [] {
      InductiveAlongRuns(keeps, steps[..|steps| - 1]);
    }
  }

  lemma ReachedIsInductive()
    ensures Inductive((w: World) => Reached(w))
  {
    assert AllEnabled(EMPTY, []) && EMPTY == Play(EMPTY, []);
    forall v, step | Reached(v) && Enabled(v, step) ensures Reached(Next(v, step)) {
      ReachedNext(v, step);
    }
  }

  lemma ReachableIff(w: World)
    ensures Reachable(w) <==> Reached(w)
  {
    if Reached(w) {
      var steps :| AllEnabled(EMPTY, steps) && w == Play(EMPTY, steps);
      forall keeps: World -> bool | Inductive(keeps) ensures keeps(w) {
        InductiveAlongRuns(keeps, steps);
      }
    }
    if Reachable(w) {
      ReachedIsInductive();
    }
  }

  lemma ReachableIsSound(w: World)
    requires Reachable(w)
    ensures Sound(w)
  {
    ReachableIff(w);
    ReachedIsSound(w);
  }

  lemma ReachableNext(w: World, step: Step)
    requires Reachable(w) && Enabled(w, step)
    ensures Reachable(Next(w, step))
  {
    forall keeps: World -> bool | Inductive(keeps) ensures keeps(Next(w, step)) {
      assert keeps(w);
    }
  }

  // ---------- what the callers and the auditors see ----------

  /** In every reachable database a project is soft-deleted at a time exactly when one active request says so. */
  lemma {:induction false} EveryRunDeletesWhatIsRequested(steps: seq<Step>, projectId: string, at: int)
    requires AllEnabled(EMPTY, steps)
    ensures var db := Play(EMPTY, steps).db;
            projectId in db.store.projects && db.store.projects[projectId].deletedAt == Some(at)
            <==> exists id :: IsActive(db, id, projectId, at)
    ensures var db := Play(EMPTY, steps).db;
            forall id, other :: IsActive(db, id, projectId, at) && IsActive(db, other, projectId, at) ==> id == other
  {
    EveryRunIsSound(EMPTY, steps);
    DeletedExactlyWhenRequested(Play(EMPTY, steps), projectId, at);
  }

  ghost predicate OneEnding(r: Request) {
    && (r.recoveredAt.Some? <==> r.status.Recovered?)
    && (r.purgedAt.Some? <==> r.status.Purged?)
    && (r.status.Recovered? ==> r.recoveredAt.value <= r.claim.recoveryUntil)
    && (r.status.Purged? ==> r.purgedAt.value >= r.claim.recoveryUntil
                             && r.backupEligibleAt == Some(r.purgedAt.value + BACKUP_DAYS * DAY))
  }

  lemma EndingsExclude(w: World, id: string)
    requires Sound(w) && id in w.db.requests
    ensures OneEnding(w.db.requests[id])
  {
    assert Shaped(w.db.store, w.db.requests[id]);
  }

  /** The two endings exclude each other, and each leaves its own evidence and no other. */
  lemma {:induction false} EndingsExcludeEachOther(steps: seq<Step>, id: string)
    requires AllEnabled(EMPTY, steps) && id in Play(EMPTY, steps).db.requests
    ensures OneEnding(Play(EMPTY, steps).db.requests[id])
  {
    EveryRunIsSound(EMPTY, steps);
    EndingsExclude(Play(EMPTY, steps), id);
  }

  lemma {:induction false} EveryVerificationRefers(steps: seq<Step>, id: string)
    requires AllEnabled(EMPTY, steps) && id in Play(EMPTY, steps).db.verifications
    ensures VerifiedBy(Play(EMPTY, steps).db, id, Play(EMPTY, steps).db.verifications[id])
  {
    EveryRunIsSound(EMPTY, steps);
  }

  ghost predicate StillEnded(w: World, id: string, r: Request) {
    id in w.issued.Values && (id in w.db.requests ==> w.db.requests[id] == r)
  }

  lemma IssuedStays(w: World, step: Step, id: string)
    requires Sound(w) && Enabled(w, step) && id in w.issued.Values
    ensures id in Next(w, step).issued.Values
  {
    var k :| k in w.issued && w.issued[k] == id;
    var v := Next(w, step);
    assert k in v.issued && v.issued[k] == id;
  }

  /** A batch that wins changes the one recoverable request it is about, and no claim. */
  lemma EffectTouchesOne(db: Db, a: Action)
    requires Wins(db, a) && !a.Ask? && (a.Recover? ==> a.projectId in db.store.projects)
    ensures var m := Effect(db, a);
            && m.requests.Keys == db.requests.Keys
            && (forall id :: id in db.requests ==> m.requests[id].claim == db.requests[id].claim)
            && (forall id :: id in db.requests && !db.requests[id].status.Recoverable? ==>
                m.requests[id] == db.requests[id])
  {
  }

  /** What a batch does to the requests: it may add the one it asks for, and it never changes an ended one. */
  ghost predicate TouchesOne(w: World, v: World, a: Action) {
    && (forall id :: id in w.db.requests ==> id in v.db.requests && v.db.requests[id].claim == w.db.requests[id].claim)
    && (forall id :: id in w.db.requests && !w.db.requests[id].status.Recoverable? ==>
        id in v.db.requests && v.db.requests[id] == w.db.requests[id])
    && (forall id :: id in v.db.requests && id !in w.db.requests ==>
        a.Ask? && id == a.requestId && id !in w.issued.Values)
  }

  lemma BatchTouchesOne(w: World, a: Action)
    requires Sound(w) && Enabled(w, Batch(a))
    ensures TouchesOne(w, Next(w, Batch(a)), a)
  {
    BatchIsAllOrNothing(w, a);
    if Wins(w.db, a) {
      if a.Ask? {
        AskNext(w, a);
      } else {
        EffectTouchesOne(w.db, a);
      }
    }
  }

  lemma StepKeepsEnded(w: World, step: Step, id: string, r: Request)
    requires Sound(w) && Enabled(w, step) && StillEnded(w, id, r) && !r.status.Recoverable?
    ensures StillEnded(Next(w, step), id, r)
  {
    IssuedStays(w, step, id);
    if step.Batch? {
      BatchTouchesOne(w, step.action);
    }
  }

  /** A recovered or purged request never changes again for as long as it exists. */
  lemma {:induction false} EndedRequestsNeverChange(w: World, steps: seq<Step>, id: string)
    requires Sound(w) && AllEnabled(w, steps)
    requires id in w.db.requests && !w.db.requests[id].status.Recoverable?
    ensures StillEnded(Play(w, steps), id, w.db.requests[id])
    decreases |steps|
  {
    if steps == [] {
      assert w.issued[Key(w.db.requests[id].claim)] == id;
    } else {
      EndedRequestsNeverChange(w, steps[..|steps| - 1], id);
      EveryRunIsSound(w, steps[..|steps| - 1]);
      StepKeepsEnded(Play(w, steps[..|steps| - 1]), steps[|steps| - 1], id, w.db.requests[id]);
    }
  }

  // ---------- what the actors are told ----------

  /** The sweep deletes the request somewhere along the steps. */
  ghost predicate Dropped(steps: seq<Step>, id: string) {
    exists i :: 0 <= i < |steps| && steps[i].DropRequests? && id in steps[i].ids
  }

  /** Some deletion with this request id is run along the steps. */
  ghost predicate AskedAgain(steps: seq<Step>, id: string) {
    exists i :: 0 <= i < |steps| && steps[i].Batch? && steps[i].action.Ask? && steps[i].action.requestId == id
  }

  lemma AlongTheSteps(steps: seq<Step>, id: string)
    requires steps != []
    ensures var rest, last := steps[..|steps| - 1], steps[|steps| - 1];
            && (Dropped(steps, id) <==> Dropped(rest, id) || (last.DropRequests? && id in last.ids))
            && (AskedAgain(rest, id) ==> AskedAgain(steps, id))
            && (last.Batch? && last.action.Ask? && last.action.requestId == id ==> AskedAgain(steps, id))
  {
    var rest, last := steps[..|steps| - 1], steps[|steps| - 1];
    if Dropped(rest, id) {
      var i :| 0 <= i < |rest| && rest[i].DropRequests? && id in rest[i].ids;
      assert steps[i] == rest[i];
    }
    if AskedAgain(rest, id) {
      var i :| 0 <= i < |rest| && rest[i].Batch? && rest[i].action.Ask? && rest[i].action.requestId == id;
      assert steps[i] == rest[i];
    }
    if Dropped(steps, id) {
      var i :| 0 <= i < |steps| && steps[i].DropRequests? && id in steps[i].ids;
      assert i < |rest| ==> rest[i] == steps[i];
    }
  }

  lemma OneStepFate(w: World, step: Step, id: string)
    requires Sound(w) && Enabled(w, step) && id in w.issued.Values
    ensures id in Next(w, step).db.requests <==> id in w.db.requests && !(step.DropRequests? && id in step.ids)
    ensures id in w.db.requests && id in Next(w, step).db.requests ==>
            Next(w, step).db.requests[id].claim == w.db.requests[id].claim
  {
    if step.Batch? {
      BatchTouchesOne(w, step.action);
    }
  }

  /** A stored request stays, with its claim, until the sweep deletes it; then it never comes back. */
  lemma {:induction false} RequestsStayUntilDropped(w: World, steps: seq<Step>, id: string)
    requires Sound(w) && AllEnabled(w, steps) && id in w.issued.Values
    ensures id in Play(w, steps).issued.Values
    ensures id in Play(w, steps).db.requests <==> id in w.db.requests && !Dropped(steps, id)
    ensures id in Play(w, steps).db.requests ==> Play(w, steps).db.requests[id].claim == w.db.requests[id].claim
    decreases |steps|
  {
    if steps != [] {
      var rest, last := steps[..|steps| - 1], steps[|steps| - 1];
      RequestsStayUntilDropped(w, rest, id);
      EveryRunIsSound(w, rest);
      AlongTheSteps(steps, id);
      OneStepFate(Play(w, rest), last, id);
      IssuedStays(Play(w, rest), last, id);
    }
  }

  lemma OneStepStoresNothing(w: World, step: Step, id: string)
    requires Sound(w) && Enabled(w, step) && id !in w.db.requests
    requires !(step.Batch? && step.action.Ask? && step.action.requestId == id)
    ensures id !in Next(w, step).db.requests
  {
    if step.Batch? {
      BatchTouchesOne(w, step.action);
    }
  }

  lemma {:induction false} OnlyAskingStores(w: World, steps: seq<Step>, id: string)
    requires Sound(w) && AllEnabled(w, steps) && id !in w.db.requests && !AskedAgain(steps, id)
    ensures id !in Play(w, steps).db.requests
    decreases |steps|
  {
    if steps != [] {
      var rest, last := steps[..|steps| - 1], steps[|steps| - 1];
      AlongTheSteps(steps, id);
      OnlyAskingStores(w, rest, id);
      EveryRunIsSound(w, rest);
      OneStepStoresNothing(Play(w, rest), last, id);
    }
  }

  lemma {:induction false} PrefixIsEnabled(w: World, steps: seq<Step>, n: nat)
    requires AllEnabled(w, steps) && n <= |steps|
    ensures AllEnabled(w, steps[..n])
    decreases |steps|
  {
    if n < |steps| {
      PrefixIsEnabled(w, steps[..|steps| - 1], n);
      assert steps[..|steps| - 1][..n] == steps[..n];
    } else {
      assert steps[..n] == steps;
    }
  }

  lemma PrefixDropsLess(steps: seq<Step>, n: nat, id: string)
    requires n <= |steps| && Dropped(steps[..n], id)
    ensures Dropped(steps, id)
  {
    var i :| 0 <= i < n && steps[..n][i].DropRequests? && id in steps[..n][i].ids;
    assert steps[i].DropRequests? && id in steps[i].ids;
  }

  /** How a request that a batch is about stands right after the batch: ended by it, or before it. */
  predicate EndedAs(db: Db, id: string, status: Status) {
    id in db.requests && db.requests[id].status == status
  }

  lemma {:induction false} RecoverFate(w: World, a: Action, steps: seq<Step>)
    requires Sound(w) && Enabled(w, Batch(a)) && a.Recover? && AllEnabled(Next(w, Batch(a)), steps)
    ensures var db := Play(Next(w, Batch(a)), steps).db;
            Found(db, a.organizationId, a.projectId, a.requestId) && db.requests[a.requestId].status.Recovered?
            <==> (Wins(w.db, a) || EndedAs(w.db, a.requestId, Recovered)) && !Dropped(steps, a.requestId)
  {
    assert Faithful(w, a);
    var v := Next(w, Batch(a));
    BatchIsAllOrNothing(w, a);
    BatchKeepsSound(w, a);
    RequestsStayUntilDropped(v, steps, a.requestId);
    if a.requestId in v.db.requests {
      EndedRequestsNeverChange(v, steps, a.requestId);
    }
  }

  lemma {:induction false} PurgeFate(w: World, a: Action, steps: seq<Step>)
    requires Sound(w) && Enabled(w, Batch(a)) && a.Purge? && AllEnabled(Next(w, Batch(a)), steps)
    ensures var db := Play(Next(w, Batch(a)), steps).db;
            Found(db, a.organizationId, a.projectId, a.requestId) && db.requests[a.requestId].status.Purged?
            <==> (Wins(w.db, a) || EndedAs(w.db, a.requestId, Purged)) && !Dropped(steps, a.requestId)
  {
    assert Faithful(w, a);
    var v := Next(w, Batch(a));
    BatchIsAllOrNothing(w, a);
    BatchKeepsSound(w, a);
    RequestsStayUntilDropped(v, steps, a.requestId);
    if a.requestId in v.db.requests {
      EndedRequestsNeverChange(v, steps, a.requestId);
    }
  }

  lemma {:induction false} WonAskFate(w: World, a: Action, steps: seq<Step>)
    requires Sound(w) && Enabled(w, Batch(a)) && a.Ask? && AllEnabled(Next(w, Batch(a)), steps) && Wins(w.db, a)
    ensures var db := Play(Next(w, Batch(a)), steps).db;
            && (a.requestId in db.requests <==> !Dropped(steps, a.requestId))
            && (a.requestId in db.requests ==> db.requests[a.requestId].claim == a.claim)
  {
    var v := Next(w, Batch(a));
    AskNext(w, a);
    BatchKeepsSound(w, a);
    assert v.issued[Key(a.claim)] == a.requestId;
    RequestsStayUntilDropped(v, steps, a.requestId);
  }

  lemma {:induction false} LostAskFate(w: World, a: Action, steps: seq<Step>)
    requires Sound(w) && Enabled(w, Batch(a)) && a.Ask? && AllEnabled(Next(w, Batch(a)), steps)
    requires !Wins(w.db, a) && !AskedAgain(steps, a.requestId)
    ensures a.requestId !in Play(Next(w, Batch(a)), steps).db.requests
  {
    BatchIsAllOrNothing(w, a);
    assert a.requestId !in w.db.requests;
    OnlyAskingStores(w, steps, a.requestId);
  }

  /** Every count was made in some state along the steps, not all of them in the same one. */
  ghost predicate CountedAlong(w: World, steps: seq<Step>, projectId: string, counted: map<C.Counted, nat>) {
    && counted.Keys == C.Names()
    && forall c :: c in counted ==> CountedOnce(w, steps, projectId, c, counted[c])
  }

  ghost predicate CountedOnce(w: World, steps: seq<Step>, projectId: string, c: C.Counted, count: nat)
    requires c in C.Names()
  {
    exists n :: 0 <= n <= |steps| && count == C.ObservedVerification(Play(w, steps[..n]).db.store, projectId)[c]
  }

  lemma {:induction false} PurgedMeansNothingCounted(w: World, a: Action, steps: seq<Step>, n: nat)
    requires Sound(w) && Enabled(w, Batch(a)) && a.Purge? && AllEnabled(Next(w, Batch(a)), steps) && n <= |steps|
    requires (Wins(w.db, a) || EndedAs(w.db, a.requestId, Purged)) && !Dropped(steps, a.requestId)
    ensures C.ObservedVerification(Play(Next(w, Batch(a)), steps[..n]).db.store, a.projectId) == C.PlannedVerification()
  {
    var v := Next(w, Batch(a));
    BatchKeepsSound(w, a);
    PrefixIsEnabled(v, steps, n);
    if Dropped(steps[..n], a.requestId) {
      PrefixDropsLess(steps, n, a.requestId);
    }
    PurgeFate(w, a, steps[..n]);
    EveryRunIsSound(v, steps[..n]);
    var x := Play(v, steps[..n]);
    assert Shaped(x.db.store, x.db.requests[a.requestId]);
    C.KeptMeansNoRowsOf(x.db.store, a.projectId);
  }

  lemma {:induction false} CountIsPlanned(w: World, a: Action, steps: seq<Step>, c: C.Counted, count: nat)
    requires Sound(w) && Enabled(w, Batch(a)) && a.Purge? && AllEnabled(Next(w, Batch(a)), steps) && c in C.Names()
    requires (Wins(w.db, a) || EndedAs(w.db, a.requestId, Purged)) && !Dropped(steps, a.requestId)
    requires CountedOnce(Next(w, Batch(a)), steps, a.projectId, c, count)
    ensures count == 0
  {
    var n :| 0 <= n <= |steps| && count == C.ObservedVerification(Play(Next(w, Batch(a)), steps[..n]).db.store,
                                                                  a.projectId)[c];
    PurgedMeansNothingCounted(w, a, steps, n);
  }

  lemma AllZeroIsPlanned(counted: map<C.Counted, nat>)
    requires counted.Keys == C.Names() && forall c :: c in counted ==> counted[c] == 0
    ensures counted == C.PlannedVerification()
  {
  }

  lemma {:induction false} CountsArePlanned(w: World, a: Action, steps: seq<Step>, counted: map<C.Counted, nat>)
    requires Sound(w) && Enabled(w, Batch(a)) && a.Purge? && AllEnabled(Next(w, Batch(a)), steps)
    requires (Wins(w.db, a) || EndedAs(w.db, a.requestId, Purged)) && !Dropped(steps, a.requestId)
    requires CountedAlong(Next(w, Batch(a)), steps, a.projectId, counted)
    ensures counted == C.PlannedVerification()
  {
    forall c | c in counted ensures counted[c] == 0 {
      CountIsPlanned(w, a, steps, c, counted[c]);
    }
    AllZeroIsPlanned(counted);
  }

  /**
   What an actor is told when it reads again after its batch, whatever the others did in between: a recovery or
   a purge succeeds exactly when the batch won or the request had already ended that way, and the sweep has not
   deleted the request since; what a purge has counted on the way, in any of the states, never spoils that.
   */
  lemma {:induction false} AnswersAreTrue(w: World, a: Action, steps: seq<Step>, counted: map<C.Counted, nat>)
    requires Sound(w) && Enabled(w, Batch(a)) && AllEnabled(Next(w, Batch(a)), steps)
    requires a.Purge? ==> CountedAlong(Next(w, Batch(a)), steps, a.projectId, counted)
    ensures var answer := Answer(counted, Play(Next(w, Batch(a)), steps).db, a);
            && (a.Recover? ==>
                  (answer.Ok? <==>
                     (Wins(w.db, a) || EndedAs(w.db, a.requestId, Recovered)) && !Dropped(steps, a.requestId)))
            && (a.Purge? ==>
                  (answer.Ok? <==>
                     (Wins(w.db, a) || EndedAs(w.db, a.requestId, Purged)) && !Dropped(steps, a.requestId)))
  {
    if a.Recover? {
      RecoverFate(w, a, steps);
    } else if a.Purge? {
      PurgeFate(w, a, steps);
      if (Wins(w.db, a) || EndedAs(w.db, a.requestId, Purged)) && !Dropped(steps, a.requestId) {
        CountsArePlanned(w, a, steps, counted);
      }
    }
  }

  /**
   A deletion whose batch won succeeds, with the claim of that batch, unless the sweep has deleted its request since;
   one whose batch lost is refused, unless another deletion under the same request id has run since.
   */
  lemma {:induction false} AskAnswersAreTrue(w: World, a: Action, steps: seq<Step>, counted: map<C.Counted, nat>)
    requires Sound(w) && Enabled(w, Batch(a)) && a.Ask? && AllEnabled(Next(w, Batch(a)), steps)
    ensures var answer := Answer(counted, Play(Next(w, Batch(a)), steps).db, a);
            && (Wins(w.db, a) ==>
                  (answer.Ok? <==> !Dropped(steps, a.requestId)) && (answer.Ok? ==> answer.value.claim == a.claim))
            && (!Wins(w.db, a) && !AskedAgain(steps, a.requestId) ==> answer == Err(RevisionConflict))
  {
    if Wins(w.db, a) {
      WonAskFate(w, a, steps);
    } else if !AskedAgain(steps, a.requestId) {
      LostAskFate(w, a, steps);
    }
  }

  /** A purge that wins and reads again at once is told so. */
  lemma WonPurgeAnswers(w: World, a: Action)
    requires Sound(w) && Enabled(w, Batch(a)) && a.Purge? && Wins(w.db, a)
    ensures AnswerAtOnce(After(w.db, a), a) == Ok(PurgedRequest(w.db.requests[a.requestId], a.now, a.actor))
  {
    PurgedMeansNothingCounted(w, a, [], 0);
    PurgeFate(w, a, []);
    BatchIsAllOrNothing(w, a);
  }

  /** The least number of days an organization keeps security evidence. */
  const MIN_SECURITY_DAYS := 90

  /** The time the sweep measures a request by. */
  function EndedAt(r: Request): int {
    if r.purgedAt.Some? then r.purgedAt.value
    else if r.recoveredAt.Some? then r.recoveredAt.value
    else r.claim.requestedAt
  }

  /** A purged request old enough for the sweep had been free of backups for more than sixty days. */
  lemma SweptRequestsAreSixtyDaysFree(w: World, id: string, startedAt: int, securityDays: int)
    requires Sound(w) && id in w.db.requests && w.db.requests[id].status.Purged?
    requires securityDays >= MIN_SECURITY_DAYS && EndedAt(w.db.requests[id]) < startedAt - securityDays * DAY
    ensures w.db.requests[id].backupEligibleAt.Some?
    ensures w.db.requests[id].backupEligibleAt.value + 60 * DAY < startedAt
  {
    assert Shaped(w.db.store, w.db.requests[id]);
  }
}
