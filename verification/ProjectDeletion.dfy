/**
 Deleting a project, recovering it, purging it and recording that its backups expired. Any number of actors
 run these operations at once: each reads, checks what it read, runs one guarded batch on the evidence it
 read, and reads again. Between any two of these moments every other actor may move.
 */
module ProjectDeletion {
  import opened Results
  import C = ProjectCascade

  const DAY := 24 * 60 * 60 * 1000
  const BACKUP_DAYS := 30

  datatype Status = Recoverable | Recovered | Purged

  /** The columns of a request that no update may change. */
  datatype Claim = Claim(organizationId: string, projectId: string, projectRevision: int, reasonCode: string,
                         requestedBy: string, requestedAt: int, recoveryUntil: int, directiveId: string)

  datatype Request = Request(claim: Claim, status: Status,
                             acknowledgedAt: Option<int>, acknowledgedBy: Option<string>,
                             recoveredAt: Option<int>, recoveredBy: Option<string>,
                             purgedAt: Option<int>, purgedBy: Option<string>,
                             backupEligibleAt: Option<int>, verification: Option<map<C.Counted, nat>>)

  datatype Verification = Verification(organizationId: string, projectId: string, eligibleAt: int,
                                       evidenceRef: string, verifiedAt: int, verifiedBy: string)

  datatype Db = Db(store: C.Store, requests: map<string, Request>, verifications: map<string, Verification>)

  datatype Abort =
    | RequestInvalid | CacheAckInvalid | ScopeInvalid
    | EvidenceImmutable | CacheAckImmutable | TerminalEvidenceImmutable | StatusInvalid
    | RecoveryEvidenceInvalid | PurgeEvidenceInvalid | PurgeVerificationFailed
    | BackupEvidenceInvalid | CheckFailed | NotUnique | CascadeBlocked

  // ---------- triggers and constraints ----------

  predicate Untouched(r: Request) {
    r.recoveredAt.None? && r.recoveredBy.None? && r.purgedAt.None? && r.purgedBy.None?
    && r.backupEligibleAt.None? && r.verification.None?
  }

  predicate ScopeMatches(s: C.Store, c: Claim) {
    c.projectId in s.projects
    && s.projects[c.projectId].organizationId == c.organizationId
    && s.projects[c.projectId].deletedAt == Some(c.requestedAt)
    && s.projects[c.projectId].recoveryUntil == Some(c.recoveryUntil)
  }

  predicate RequestIsNew(db: Db, id: string, c: Claim) {
    id !in db.requests
    && forall k :: k in db.requests ==>
         && db.requests[k].claim.directiveId != c.directiveId
         && !(db.requests[k].status.Recoverable? && db.requests[k].claim.organizationId == c.organizationId
              && db.requests[k].claim.projectId == c.projectId)
  }

  function InsertRequest(db: Db, id: string, r: Request): Result<Db, Abort> {
    if !r.status.Recoverable? || r.claim.requestedAt > r.claim.recoveryUntil || !Untouched(r) then Err(RequestInvalid)
    else if r.acknowledgedAt.None? != r.acknowledgedBy.None? then Err(CacheAckInvalid)
    else if !ScopeMatches(db.store, r.claim) then Err(ScopeInvalid)
    else if r.claim.projectRevision < 1 || !(1 <= |r.claim.reasonCode| <= 80) then Err(CheckFailed)
    else if !RequestIsNew(db, id, r.claim) then Err(NotUnique)
    else Ok(db.(requests := db.requests[id := r]))
  }

  /** No project row, and no row in any of the fourteen tables. */
  predicate Absent(s: C.Store, projectId: string) {
    projectId !in s.projects
    && forall id :: id in s.rows && id.table in C.CASCADE_TABLES ==> s.rows[id].projectId != projectId
  }

  predicate SameOutcome(r: Request, n: Request) {
    n.status == r.status && n.recoveredAt == r.recoveredAt && n.recoveredBy == r.recoveredBy
    && n.purgedAt == r.purgedAt && n.purgedBy == r.purgedBy
    && n.backupEligibleAt == r.backupEligibleAt && n.verification == r.verification
  }

  function UpdateRequest(db: Db, id: string, n: Request): Result<Db, Abort>
    requires id in db.requests
  {
    var r := db.requests[id];
    if n.claim != r.claim then Err(EvidenceImmutable)
    else if r.acknowledgedAt.Some? && (n.acknowledgedAt != r.acknowledgedAt
                                       || n.acknowledgedBy != r.acknowledgedBy) then
      Err(CacheAckImmutable)
    else if !r.status.Recoverable? && !SameOutcome(r, n) then Err(TerminalEvidenceImmutable)
    else if n.acknowledgedAt.None? != n.acknowledgedBy.None? then Err(CacheAckInvalid)
    else if !(r.status.Recoverable? || r.status == n.status) then Err(StatusInvalid)
    else if n.status.Recovered? != (n.recoveredAt.Some? && n.recoveredBy.Some?) then Err(RecoveryEvidenceInvalid)
    else if n.status.Purged?
            != (n.purgedAt.Some? && n.purgedBy.Some? && n.backupEligibleAt.Some? && n.verification.Some?) then
      Err(PurgeEvidenceInvalid)
    else if n.status.Purged? && !Absent(db.store, n.claim.projectId) then Err(PurgeVerificationFailed)
    else Ok(db.(requests := db.requests[id := n]))
  }

  /** The request that a backup verification must refer to. */
  predicate VerifiedBy(db: Db, id: string, v: Verification) {
    id in db.requests
    && db.requests[id].claim.organizationId == v.organizationId
    && db.requests[id].claim.projectId == v.projectId
    && db.requests[id].status.Purged?
    && db.requests[id].backupEligibleAt == Some(v.eligibleAt)
    && v.verifiedAt >= v.eligibleAt
  }

  function InsertVerification(db: Db, id: string, v: Verification): Result<Db, Abort> {
    if !VerifiedBy(db, id, v) then Err(BackupEvidenceInvalid)
    else if !(1 <= |v.evidenceRef| <= 160) then Err(CheckFailed)
    else if id in db.verifications then Err(NotUnique)
    else Ok(db.(verifications := db.verifications[id := v]))
  }

  // ---------- the batches ----------

  /** What an actor is about to run, with the evidence it read before. */
  datatype Action =
    | Ask(claim: Claim, requestId: string)
    | Recover(organizationId: string, projectId: string, actor: string, requestId: string, requestedAt: int, now: int)
    | Purge(organizationId: string, projectId: string, actor: string, requestId: string, requestedAt: int, now: int)
    | Acknowledge(organizationId: string, actor: string, requestId: string, now: int)
    | Record(requestId: string, evidence: Verification)

  predicate MatchesProject(s: C.Store, projectId: string, organizationId: string, deletedAt: Option<int>) {
    projectId in s.projects && s.projects[projectId].organizationId == organizationId
    && s.projects[projectId].deletedAt == deletedAt
  }

  function Revised(s: C.Store, projectId: string, deletedAt: Option<int>, recoveryUntil: Option<int>): C.Store
    requires projectId in s.projects
  {
    var project := s.projects[projectId];
    s.(projects := s.projects[projectId := C.Project(project.organizationId, project.revision + 1, deletedAt,
                                                     recoveryUntil)])
  }

  predicate MatchesRequest(db: Db, id: string, organizationId: string) {
    id in db.requests && db.requests[id].claim.organizationId == organizationId && db.requests[id].status.Recoverable?
  }

  function NewRequest(c: Claim): Request {
    Request(c, Recoverable, None, None, None, None, None, None, None, None)
  }

  function AskBatch(db: Db, c: Claim, id: string): Result<Db, Abort> {
    var deletes := MatchesProject(db.store, c.projectId, c.organizationId, None)
                   && db.store.projects[c.projectId].revision == c.projectRevision - 1;
    var store := if deletes then Revised(db.store, c.projectId, Some(c.requestedAt), Some(c.recoveryUntil))
        else db.store;
    if MatchesProject(store, c.projectId, c.organizationId, Some(c.requestedAt))
       && store.projects[c.projectId].revision == c.projectRevision then
      InsertRequest(db.(store := store), id, NewRequest(c))
    else Ok(db.(store := store))
  }

  function RecoveredRequest(r: Request, now: int, actor: string): Request {
    r.(status := Recovered, recoveredAt := Some(now), recoveredBy := Some(actor))
  }

  function RecoverBatch(db: Db, organizationId: string, projectId: string, actor: string, id: string,
                        requestedAt: int, now: int): Result<Db, Abort> {
    var store := if MatchesProject(db.store, projectId, organizationId, Some(requestedAt))
                 then Revised(db.store, projectId, None, None) else db.store;
    if MatchesRequest(db, id, organizationId) then
      UpdateRequest(db.(store := store), id, RecoveredRequest(db.requests[id], now, actor))
    else Ok(db.(store := store))
  }

  function PurgedRequest(r: Request, now: int, actor: string): Request {
    r.(status := Purged, purgedAt := Some(now), purgedBy := Some(actor),
    backupEligibleAt := Some(now + BACKUP_DAYS * DAY), verification := Some(C.PlannedVerification()))
  }

  function PurgeBatch(db: Db, organizationId: string, projectId: string, actor: string, id: string,
                      requestedAt: int, now: int): Result<Db, Abort> {
    match (if MatchesProject(db.store, projectId, organizationId, Some(requestedAt))
           then C.DeleteProject(db.store, projectId) else Ok(db.store))
    case Err(e) => Err(CascadeBlocked)
    case Ok(store) =>
      if MatchesRequest(db, id, organizationId) then
        UpdateRequest(db.(store := store), id, PurgedRequest(db.requests[id], now, actor))
      else Ok(db.(store := store))
  }

  function AcknowledgeBatch(db: Db, organizationId: string, actor: string, id: string, now: int): Result<Db, Abort> {
    if MatchesRequest(db, id, organizationId) && db.requests[id].acknowledgedAt.None? then
      UpdateRequest(db, id, db.requests[id].(acknowledgedAt := Some(now), acknowledgedBy := Some(actor)))
    else Ok(db)
  }

  function Run(db: Db, a: Action): Result<Db, Abort> {
    match a
    case Ask(c, id) => AskBatch(db, c, id)
    case Recover(o, p, actor, id, at, now) => RecoverBatch(db, o, p, actor, id, at, now)
    case Purge(o, p, actor, id, at, now) => PurgeBatch(db, o, p, actor, id, at, now)
    case Acknowledge(o, actor, id, now) => AcknowledgeBatch(db, o, actor, id, now)
    case Record(id, v) => InsertVerification(db, id, v)
  }

  /** A batch that aborts leaves the database as it was. */
  function After(db: Db, a: Action): Db {
    var r := Run(db, a);
    if r.Ok? then r.value else db
  }

  // ---------- what each operation reads and checks first ----------

  datatype Call =
    | RequestDeletion(organizationId: string, projectId: string, actor: string, expectedRevision: int,
                      reasonCode: string, recoveryDays: int, requestId: string, directiveId: string)
    | RecoverProject(organizationId: string, projectId: string, actor: string, requestId: string)
    | PurgeProject(organizationId: string, projectId: string, actor: string, requestId: string)
    | AcknowledgeCache(organizationId: string, projectId: string, actor: string, requestId: string, directiveId: string)
    | RecordExpiry(organizationId: string, actor: string, requestId: string, evidenceRef: string, verifiedAt: int)

  datatype Refusal =
    | ProjectNotFound | AlreadyRequested | RevisionConflict
    | DeletionNotFound | NotRecoverable | WindowExpired | RecoveryConflict
    | NotPurgeable | WindowActive | PurgeConflict | VerificationFailed
    | DirectiveNotFound | DirectiveNotActive
    | EvidenceInvalid | ExpectationNotFound | NotEligible | EvidenceConflict

  /** An operation goes on to its batch, or already has its answer. */
  datatype Plan = Go(action: Action) | Answered

  predicate Found(db: Db, organizationId: string, projectId: string, id: string) {
    id in db.requests && db.requests[id].claim.organizationId == organizationId
        && db.requests[id].claim.projectId == projectId
  }

  predicate IsRefChar(c: char, first: bool) {
    'A' <= c <= 'Z' || 'a' <= c <= 'z' || '0' <= c <= '9' || (!first && c in "._:/-")
  }

  predicate IsEvidenceRef(ref: string) {
    1 <= |ref| <= 160 && IsRefChar(ref[0], true) && forall i :: 1 <= i < |ref| ==> IsRefChar(ref[i], false)
  }

  function Consider(db: Db, call: Call, now: int): Result<Plan, Refusal> {
    match call
    case RequestDeletion(o, p, actor, revision, reason, days, id, directive) =>
      if !(p in db.store.projects && db.store.projects[p].organizationId == o) then Err(ProjectNotFound)
      else if db.store.projects[p].deletedAt.Some? then Err(AlreadyRequested)
      else if db.store.projects[p].revision != revision then Err(RevisionConflict)
      else Ok(Go(Ask(Claim(o, p, revision + 1, reason, actor, now, now + days * DAY, directive), id)))
    case RecoverProject(o, p, actor, id) =>
      if !Found(db, o, p, id) then Err(DeletionNotFound)
      else if !db.requests[id].status.Recoverable? then Err(NotRecoverable)
      else if now > db.requests[id].claim.recoveryUntil then Err(WindowExpired)
      else Ok(Go(Recover(o, p, actor, id, db.requests[id].claim.requestedAt, now)))
    case PurgeProject(o, p, actor, id) =>
      if !Found(db, o, p, id) then Err(DeletionNotFound)
      else if !db.requests[id].status.Recoverable? then Err(NotPurgeable)
      else if now < db.requests[id].claim.recoveryUntil then Err(WindowActive)
      else Ok(Go(Purge(o, p, actor, id, db.requests[id].claim.requestedAt, now)))
    case AcknowledgeCache(o, p, actor, id, directive) =>
      if !(Found(db, o, p, id) && db.requests[id].claim.directiveId == directive) then Err(DirectiveNotFound)
      else if db.requests[id].acknowledgedAt.Some? then Ok(Answered)
      else Ok(Go(Acknowledge(o, actor, id, now)))
    case RecordExpiry(o, actor, id, ref, at) =>
      if !IsEvidenceRef(ref) then Err(EvidenceInvalid)
      else if !(id in db.requests && db.requests[id].claim.organizationId == o && db.requests[id].status.Purged?
                && db.requests[id].backupEligibleAt.Some?) then Err(ExpectationNotFound)
      else if id in db.verifications then
        if db.verifications[id].evidenceRef != ref then Err(EvidenceConflict) else Ok(Answered)
      else if now < db.requests[id].backupEligibleAt.value then Err(NotEligible)
      else Ok(Go(Record(id, Verification(o, db.requests[id].claim.projectId, db.requests[id].backupEligibleAt.value,
                                         ref, at, actor))))
  }

  /** The second read, which only a purge makes: the project is still deleted at the time the request names. */
  predicate Confirmed(db: Db, a: Action) {
    a.Purge? ==> MatchesProject(db.store, a.projectId, a.organizationId, Some(a.requestedAt))
  }

  /** What the caller is told after the batch, from the request it reads then; a purge has counted rows before that. */
  function Answer(counted: map<C.Counted, nat>, db: Db, a: Action): Result<Request, Refusal> {
    match a
    case Ask(c, id) => if Found(db, c.organizationId, c.projectId, id) then Ok(db.requests[id])
        else Err(RevisionConflict)
    case Recover(o, p, actor, id, at, now) =>
      if Found(db, o, p, id) && db.requests[id].status.Recovered? then Ok(db.requests[id]) else Err(RecoveryConflict)
    case Purge(o, p, actor, id, at, now) =>
      if counted != C.PlannedVerification() then Err(VerificationFailed)
      else if Found(db, o, p, id) && db.requests[id].status.Purged? then Ok(db.requests[id])
      else Err(PurgeConflict)
    case Acknowledge(o, actor, id, now) =>
      if id in db.requests && db.requests[id].acknowledgedAt.Some? then Ok(db.requests[id]) else Err(DirectiveNotActive)
    case Record(id, v) => if id in db.requests then Ok(db.requests[id]) else Err(ExpectationNotFound)
  }

  /** The answer of an actor that counts and reads before anything else happens. */
  function AnswerAtOnce(db: Db, a: Action): Result<Request, Refusal> {
    Answer(if a.Purge? then C.ObservedVerification(db.store, a.projectId) else map[], db, a)
  }
}
