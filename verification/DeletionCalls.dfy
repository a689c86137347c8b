/**
 What each call on a deletion request comes to when nobody interferes: exactly when it takes effect, and the whole
 effect in the columns of the tables.
 */
module DeletionCalls {
  import opened Results
  import opened ProjectDeletion
  import opened DeletionProtocol
  import C = ProjectCascade

  /** The tables after a call that nobody interrupts. */
  function AfterCall(db: Db, call: Call, now: int): Db {
    match Consider(db, call, now)
    case Ok(Go(a)) => if Confirmed(db, a) then After(db, a) else db
    case _ => db
  }

  /** A call that goes on comes to its batch with the tables as it found them. */
  lemma ComesToItsBatch(w: World, call: Call, now: int, a: Action) returns (ready: World)
    requires Sound(w) && Enabled(w, Look(call, now)) && Consider(w.db, call, now) == Ok(Go(a)) && Confirmed(w.db, a)
    requires a.Ask? ==> Key(a.claim) !in w.issued && a.requestId !in w.issued.Values
    ensures Sound(ready) && ready.db == w.db && ready.issued == w.issued && Enabled(ready, Batch(a))
  {
    var looked := Next(w, Look(call, now));
    LookKeepsSound(w, call, now);
    ConfirmKeepsSound(looked, a);
    ready := Next(looked, Confirm(a));
  }

  // ---------- projects ----------

  /** A project is stored at revision 1, with the deletion columns it came with, exactly if its id is free. */
  lemma ProjectIsCreatedIff(w: World, p: string, o: string, deletedAt: Option<int>, recoveryUntil: Option<int>)
    ensures Next(w, Create(p, o, deletedAt, recoveryUntil)).db
            == w.db.(store := w.db.store.(projects :=
                 if p in w.db.store.projects then w.db.store.projects
                 else w.db.store.projects[p := C.Project(o, 1, deletedAt, recoveryUntil)]))
  {
  }

  ghost predicate IsAt(db: Db, p: string, o: string, revision: int) {
    p in db.store.projects && db.store.projects[p].organizationId == o && db.store.projects[p].revision == revision
  }

  /** A write over the stored revision leaves the next one, with the deletion columns it came with; another is lost. */
  lemma ProjectIsWrittenIff(w: World, p: string, o: string, revision: int, deletedAt: Option<int>,
                            recoveryUntil: Option<int>)
    ensures Next(w, Put(p, o, revision, deletedAt, recoveryUntil)).db
            == if IsAt(w.db, p, o, revision) then
                 w.db.(store := w.db.store.(projects :=
                   w.db.store.projects[p := C.Project(o, revision + 1, deletedAt, recoveryUntil)]))
               else w.db
  {
  }

  // ---------- asking for a deletion ----------

  ghost predicate CanBeDeleted(db: Db, o: string, p: string, revision: int) {
    && p in db.store.projects && db.store.projects[p].organizationId == o
    && db.store.projects[p].revision == revision && db.store.projects[p].deletedAt == None
  }

  ghost predicate IsNewDirective(db: Db, directive: string) {
    forall k :: k in db.requests ==> db.requests[k].claim.directiveId != directive
  }

  /**
   A deletion takes effect exactly if the project stands undeleted at the revision expected; it marks the project and
   stores a request for so many days from now.
   */
  lemma DeletionTakesEffectIff(w: World, o: string, p: string, actor: string, revision: int, reason: string, days: int,
                               id: string, directive: string, now: int)
    requires Sound(w) && 0 <= days <= 30 && revision >= 0 && 1 <= |reason| <= 80 && IsNewDirective(w.db, directive)
    requires (p, now) !in w.issued && id !in w.issued.Values
    ensures var n := AfterCall(w.db, RequestDeletion(o, p, actor, revision, reason, days, id, directive), now);
            var until := now + days * 86_400_000;
            if CanBeDeleted(w.db, o, p, revision) then
              n == Db(w.db.store.(projects := w.db.store.projects[p := C.Project(o, revision + 1, Some(now),
                                                                                 Some(until))]),
                      w.db.requests[id := Request(Claim(o, p, revision + 1, reason, actor, now, until, directive),
                                                  Recoverable, None, None, None, None, None, None, None, None)],
                      w.db.verifications)
            else n == w.db
  {
    if CanBeDeleted(w.db, o, p, revision) {
      var c := Claim(o, p, revision + 1, reason, actor, now, now + days * 86_400_000, directive);
      var ready := ComesToItsBatch(w, RequestDeletion(o, p, actor, revision, reason, days, id, directive), now,
                                   Ask(c, id));
      AskIsAllOrNothing(ready, Ask(c, id));
    }
  }

  /** The world after a deletion that took effect. */
  lemma DeletedWorld(w: World, o: string, p: string, actor: string, revision: int, reason: string, days: int,
                     id: string, directive: string, now: int) returns (v: World)
    requires Sound(w) && 0 <= days <= 30 && revision >= 0 && 1 <= |reason| <= 80 && IsNewDirective(w.db, directive)
    requires (p, now) !in w.issued && id !in w.issued.Values && CanBeDeleted(w.db, o, p, revision)
    ensures Sound(v)
    ensures v.db == AfterCall(w.db, RequestDeletion(o, p, actor, revision, reason, days, id, directive), now)
    ensures IsOpen(v.db, o, p, id) && v.db.requests[id].claim.recoveryUntil == now + days * 86_400_000
    ensures p in v.db.store.projects && v.db.store.projects[p].revision == revision + 1
    ensures v.db.store == w.db.store.(projects := w.db.store.projects[p := v.db.store.projects[p]])
  {
    DeletionTakesEffectIff(w, o, p, actor, revision, reason, days, id, directive, now);
    var a := Ask(Claim(o, p, revision + 1, reason, actor, now, now + days * 86_400_000, directive), id);
    var ready := ComesToItsBatch(w, RequestDeletion(o, p, actor, revision, reason, days, id, directive), now, a);
    BatchKeepsSound(ready, a);
    v := Next(ready, Batch(a));
  }

  // ---------- taking it back ----------

  ghost predicate IsOpen(db: Db, o: string, p: string, id: string) {
    && id in db.requests && db.requests[id].claim.organizationId == o && db.requests[id].claim.projectId == p
    && db.requests[id].status == Recoverable
  }

  /** A recovery takes effect exactly up to the end of the window; it unmarks the project and ends the request. */
  lemma RecoveryTakesEffectIff(w: World, o: string, p: string, actor: string, id: string, now: int)
    requires Sound(w)
    ensures var n := AfterCall(w.db, RecoverProject(o, p, actor, id), now);
            if IsOpen(w.db, o, p, id) && now <= w.db.requests[id].claim.recoveryUntil then
              p in w.db.store.projects
              && n == Db(w.db.store.(projects := w.db.store.projects[p := C.Project(o,
                                                     w.db.store.projects[p].revision + 1, None, None)]),
                         w.db.requests[id := w.db.requests[id].(status := Recovered, recoveredAt := Some(now),
                                                                recoveredBy := Some(actor))],
                         w.db.verifications)
            else n == w.db
  {
    if IsOpen(w.db, o, p, id) && now <= w.db.requests[id].claim.recoveryUntil {
      var a := Recover(o, p, actor, id, w.db.requests[id].claim.requestedAt, now);
      assert ScopeMatches(w.db.store, w.db.requests[id].claim);
      var ready := ComesToItsBatch(w, RecoverProject(o, p, actor, id), now, a);
      RecoverIsAllOrNothing(ready, a);
    }
  }

  // ---------- purging ----------

  /** The verification names every table below a project but the outbox, and the outbox rows left over, all at none. */
  ghost predicate IsAllZero(verification: map<C.Counted, nat>) {
    && C.OutboxOrphans in verification
    && (forall t :: C.Rows(t) in verification <==> t != C.Outbox)
    && forall k :: k in verification ==> verification[k] == 0
  }

  ghost predicate IsPurged(db: Db, n: Db, p: string, actor: string, id: string, now: int)
    requires id in db.requests
  {
    && n.store.projects == db.store.projects - {p}
    && n.store.rows == (map k | k in db.store.rows && C.Owner(db.store, k) != p :: db.store.rows[k])
    && n.requests.Keys == db.requests.Keys
    && (forall k :: k in db.requests && k != id ==> n.requests[k] == db.requests[k])
    && n.requests[id].verification.Some? && IsAllZero(n.requests[id].verification.value)
    && n.requests[id] == db.requests[id].(status := Purged, purgedAt := Some(now), purgedBy := Some(actor),
           backupEligibleAt := Some(now + 30 * 86_400_000), verification := n.requests[id].verification)
    && n.verifications == db.verifications
  }

  lemma PurgeEffect(db: Db, a: Action)
    requires a.Purge? && C.Kept(db.store) && Wins(db, a)
    requires MatchesProject(db.store, a.projectId, a.organizationId, Some(a.requestedAt))
    ensures IsPurged(db, Effect(db, a), a.projectId, a.actor, a.requestId, a.now)
  {
    C.PurgeRemovesTheProject(db.store, a.projectId);
    PlannedIsAllZero();
    var n := Effect(db, a);
    assert n.store == C.DeleteProject(db.store, a.projectId).value;
    forall k ensures k in n.store.rows <==> k in db.store.rows && C.Owner(db.store, k) != a.projectId {
    }
  }

  lemma PlannedIsAllZero()
    ensures IsAllZero(C.PlannedVerification())
  {
  }

  /**
   A purge takes effect exactly from the end of the window on; it removes the project with all its rows and
   nothing else, and ends the request with the time its backups are eligible.
   */
  lemma PurgeTakesEffectIff(w: World, o: string, p: string, actor: string, id: string, now: int)
    requires Sound(w)
    ensures var n := AfterCall(w.db, PurgeProject(o, p, actor, id), now);
            if IsOpen(w.db, o, p, id) && now >= w.db.requests[id].claim.recoveryUntil
            then IsPurged(w.db, n, p, actor, id, now)
            else n == w.db
  {
    if IsOpen(w.db, o, p, id) && now >= w.db.requests[id].claim.recoveryUntil {
      var a := Purge(o, p, actor, id, w.db.requests[id].claim.requestedAt, now);
      assert ScopeMatches(w.db.store, w.db.requests[id].claim);
      var ready := ComesToItsBatch(w, PurgeProject(o, p, actor, id), now, a);
      PurgeIsAllOrNothing(ready, a);
      PurgeEffect(w.db, a);
    }
  }

  // ---------- the cache and the backups ----------

  lemma EndedIsNotAcknowledged(db: Db, o: string, actor: string, id: string, now: int)
    requires id in db.requests && (db.requests[id].status != Recoverable || db.requests[id].acknowledgedAt != None)
    ensures After(db, Acknowledge(o, actor, id, now)) == db
  {
  }

  /** A cache acknowledgement is stored once, while the request is open, and for its own directive alone. */
  lemma AcknowledgementTakesEffectIff(w: World, o: string, p: string, actor: string, id: string, directive: string,
                                      now: int)
    requires Sound(w)
    ensures var n := AfterCall(w.db, AcknowledgeCache(o, p, actor, id, directive), now);
            if IsOpen(w.db, o, p, id) && w.db.requests[id].claim.directiveId == directive
               && w.db.requests[id].acknowledgedAt == None
            then n == w.db.(requests := w.db.requests[id := w.db.requests[id].(acknowledgedAt := Some(now),
                                                                               acknowledgedBy := Some(actor))])
            else n == w.db
  {
    if IsOpen(w.db, o, p, id) && w.db.requests[id].claim.directiveId == directive
       && w.db.requests[id].acknowledgedAt == None {
      AcknowledgeIsAllOrNothing(w, Acknowledge(o, actor, id, now));
    } else if IsFound(w.db, o, p, id) && w.db.requests[id].claim.directiveId == directive {
      EndedIsNotAcknowledged(w.db, o, actor, id, now);
    }
  }

  /** A reference of 1 to 160 letters, digits and, after the first place, `.`, `_`, `:`, `/` and `-`, by code points. */
  ghost predicate IsReference(ref: string) {
    && 1 <= |ref| <= 160
    && forall i :: 0 <= i < |ref| ==>
         || 48 <= ref[i] as int <= 57 || 65 <= ref[i] as int <= 90 || 97 <= ref[i] as int <= 122
         || (i > 0 && ref[i] as int in {45, 46, 47, 58, 95})
  }

  lemma ReferenceCharacter(c: char, first: bool)
    ensures IsRefChar(c, first) <==>
              || 48 <= c as int <= 57 || 65 <= c as int <= 90 || 97 <= c as int <= 122
              || (!first && c as int in {45, 46, 47, 58, 95})
  {
  }

  lemma ReferenceIff(ref: string)
    ensures IsEvidenceRef(ref) <==> IsReference(ref)
  {
    forall i | 0 <= i < |ref|
      ensures IsRefChar(ref[i], i == 0) <==>
                || 48 <= ref[i] as int <= 57 || 65 <= ref[i] as int <= 90 || 97 <= ref[i] as int <= 122
                || (i > 0 && ref[i] as int in {45, 46, 47, 58, 95})
    {
      ReferenceCharacter(ref[i], i == 0);
    }
  }

  /** A request says when it was purged exactly if it was, and that its backups are eligible thirty days on. */
  ghost predicate SaysItsEnd(r: Request) {
    && (r.status == Purged <==> r.purgedAt.Some?)
    && (r.purgedAt.Some? ==> r.backupEligibleAt == Some(r.purgedAt.value + 30 * 86_400_000))
  }

  lemma SoundSaysItsEnd(w: World, id: string)
    requires Sound(w) && id in w.db.requests
    ensures SaysItsEnd(w.db.requests[id])
  {
    assert Shaped(w.db.store, w.db.requests[id]);
  }

  ghost predicate MayRecordExpiry(db: Db, o: string, id: string, ref: string, now: int) {
    && IsReference(ref) && id in db.requests && db.requests[id].claim.organizationId == o
    && db.requests[id].purgedAt.Some? && now >= db.requests[id].purgedAt.value + 30 * 86_400_000
    && id !in db.verifications
  }

  lemma ExpiryTakesEffect(db: Db, o: string, actor: string, id: string, ref: string, verifiedAt: int, now: int)
    requires now <= verifiedAt && (id in db.requests ==> SaysItsEnd(db.requests[id]))
    ensures AfterCall(db, RecordExpiry(o, actor, id, ref, verifiedAt), now)
            == if MayRecordExpiry(db, o, id, ref, now) then
                 db.(verifications := db.verifications[id := Verification(o, db.requests[id].claim.projectId,
                       db.requests[id].purgedAt.value + 30 * 86_400_000, ref, verifiedAt, actor)])
               else db
  {
    ReferenceIff(ref);
  }

  /** Evidence of expiry is recorded exactly once, for a purged request, from thirty days after its purge on. */
  lemma ExpiryIsRecordedIff(w: World, o: string, actor: string, id: string, ref: string, verifiedAt: int, now: int)
    requires Sound(w) && now <= verifiedAt
    ensures AfterCall(w.db, RecordExpiry(o, actor, id, ref, verifiedAt), now)
            == if MayRecordExpiry(w.db, o, id, ref, now) then
                 w.db.(verifications := w.db.verifications[id := Verification(o, w.db.requests[id].claim.projectId,
                         w.db.requests[id].purgedAt.value + 30 * 86_400_000, ref, verifiedAt, actor)])
               else w.db
  {
    if id in w.db.requests {
      SoundSaysItsEnd(w, id);
    }
    ExpiryTakesEffect(w.db, o, actor, id, ref, verifiedAt, now);
  }

  // ---------- calls in a row ----------

  /** A deletion taken back within its days leaves the project as it was, two revisions on, and every row in place. */
  lemma DeletedAndRecovered(w: World, o: string, p: string, actor: string, revision: int, reason: string, days: int,
                            id: string, directive: string, now: int, other: string, later: int)
    requires Sound(w) && 0 <= days <= 30 && revision >= 0 && 1 <= |reason| <= 80 && IsNewDirective(w.db, directive)
    requires (p, now) !in w.issued && id !in w.issued.Values && CanBeDeleted(w.db, o, p, revision)
    ensures var deleted := AfterCall(w.db, RequestDeletion(o, p, actor, revision, reason, days, id, directive), now);
            var n := AfterCall(deleted, RecoverProject(o, p, other, id), later);
            if later <= now + days * 86_400_000 then
              n.store == w.db.store.(projects := w.db.store.projects[p := C.Project(o, revision + 2, None, None)])
            else n == deleted
  {
    var v := DeletedWorld(w, o, p, actor, revision, reason, days, id, directive, now);
    RecoveryTakesEffectIff(v, o, p, other, id, later);
  }

  lemma RowsOfOthers(s: C.Store, n: C.Store, p: string)
    requires n.rows == s.rows
    ensures (map k | k in n.rows && C.Owner(n, k) != p :: n.rows[k])
            == (map k | k in s.rows && C.Owner(s, k) != p :: s.rows[k])
  {
    assert forall k :: k in s.rows ==> C.Owner(n, k) == C.Owner(s, k);
  }

  /** One that is not taken back can be purged exactly when its days are over, and then only the project is missing. */
  lemma DeletedAndPurged(w: World, o: string, p: string, actor: string, revision: int, reason: string, days: int,
                         id: string, directive: string, now: int, other: string, later: int)
    requires Sound(w) && 0 <= days <= 30 && revision >= 0 && 1 <= |reason| <= 80 && IsNewDirective(w.db, directive)
    requires (p, now) !in w.issued && id !in w.issued.Values && CanBeDeleted(w.db, o, p, revision)
    ensures var deleted := AfterCall(w.db, RequestDeletion(o, p, actor, revision, reason, days, id, directive), now);
            var n := AfterCall(deleted, PurgeProject(o, p, other, id), later);
            if later >= now + days * 86_400_000 then
              n.store.projects == w.db.store.projects - {p}
              && n.store.rows == (map k | k in w.db.store.rows && C.Owner(w.db.store, k) != p :: w.db.store.rows[k])
            else n == deleted
  {
    var v := DeletedWorld(w, o, p, actor, revision, reason, days, id, directive, now);
    PurgeTakesEffectIff(v, o, p, other, id, later);
    if later >= now + days * 86_400_000 {
      RowsOfOthers(w.db.store, v.db.store, p);
    }
  }

  // ---------- what the caller is told ----------

  /** The answer of a call that nobody interrupts; an aborted batch has none. */
  function Told(db: Db, call: Call, now: int): Option<Result<Request, Refusal>> {
    match Consider(db, call, now)
    case Err(refusal) => Some(Err(refusal))
    case Ok(Answered) => if call.requestId in db.requests then Some(Ok(db.requests[call.requestId])) else None
    case Ok(Go(a)) =>
      if !Confirmed(db, a) then Some(Err(PurgeConflict))
      else if Run(db, a).Err? then None
      else Some(AnswerAtOnce(After(db, a), a))
  }

  ghost predicate IsFound(db: Db, o: string, p: string, id: string) {
    id in db.requests && db.requests[id].claim.organizationId == o && db.requests[id].claim.projectId == p
  }

  /** A deletion that takes effect is answered with its request; else the caller learns what was in its way. */
  lemma DeletionIsTold(w: World, o: string, p: string, actor: string, revision: int, reason: string, days: int,
                       id: string, directive: string, now: int)
    requires Sound(w) && 0 <= days <= 30 && revision >= 0 && 1 <= |reason| <= 80 && IsNewDirective(w.db, directive)
    requires (p, now) !in w.issued && id !in w.issued.Values
    ensures var call := RequestDeletion(o, p, actor, revision, reason, days, id, directive);
            var n, told := AfterCall(w.db, call, now), Told(w.db, call, now);
            if CanBeDeleted(w.db, o, p, revision) then id in n.requests && told == Some(Ok(n.requests[id]))
            else if p !in w.db.store.projects || w.db.store.projects[p].organizationId != o then
              told == Some(Err(ProjectNotFound))
            else if w.db.store.projects[p].deletedAt != None then told == Some(Err(AlreadyRequested))
            else told == Some(Err(RevisionConflict))
  {
    DeletionTakesEffectIff(w, o, p, actor, revision, reason, days, id, directive, now);
  }

  /** A recovery is answered with the recovered request up to the end of the window, and refused for one reason else. */
  lemma RecoveryIsTold(w: World, o: string, p: string, actor: string, id: string, now: int)
    requires Sound(w)
    ensures var call := RecoverProject(o, p, actor, id);
            var n, told := AfterCall(w.db, call, now), Told(w.db, call, now);
            if !IsFound(w.db, o, p, id) then told == Some(Err(DeletionNotFound))
            else if w.db.requests[id].status != Recoverable then told == Some(Err(NotRecoverable))
            else if now > w.db.requests[id].claim.recoveryUntil then told == Some(Err(WindowExpired))
            else id in n.requests && told == Some(Ok(n.requests[id]))
  {
    RecoveryTakesEffectIff(w, o, p, actor, id, now);
  }

  /** A purge is answered with the purged request from the end of the window on, and refused for one reason else. */
  lemma PurgeIsTold(w: World, o: string, p: string, actor: string, id: string, now: int)
    requires Sound(w)
    ensures var call := PurgeProject(o, p, actor, id);
            var n, told := AfterCall(w.db, call, now), Told(w.db, call, now);
            if !IsFound(w.db, o, p, id) then told == Some(Err(DeletionNotFound))
            else if w.db.requests[id].status != Recoverable then told == Some(Err(NotPurgeable))
            else if now < w.db.requests[id].claim.recoveryUntil then told == Some(Err(WindowActive))
            else id in n.requests && told == Some(Ok(n.requests[id]))
  {
    if IsOpen(w.db, o, p, id) && now >= w.db.requests[id].claim.recoveryUntil {
      var a := Purge(o, p, actor, id, w.db.requests[id].claim.requestedAt, now);
      assert ScopeMatches(w.db.store, w.db.requests[id].claim);
      var ready := ComesToItsBatch(w, PurgeProject(o, p, actor, id), now, a);
      PurgeIsAllOrNothing(ready, a);
      WonPurgeAnswers(ready, a);
    }
  }

  /** An acknowledgement is answered with the acknowledged request, the one before if there was one. */
  lemma AcknowledgementIsTold(w: World, o: string, p: string, actor: string, id: string, directive: string, now: int)
    requires Sound(w)
    ensures var call := AcknowledgeCache(o, p, actor, id, directive);
            var n, told := AfterCall(w.db, call, now), Told(w.db, call, now);
            if !(IsFound(w.db, o, p, id) && w.db.requests[id].claim.directiveId == directive) then
              told == Some(Err(DirectiveNotFound))
            else if w.db.requests[id].acknowledgedAt != None then told == Some(Ok(w.db.requests[id]))
            else if w.db.requests[id].status != Recoverable then told == Some(Err(DirectiveNotActive))
            else id in n.requests && told == Some(Ok(n.requests[id]))
  {
    AcknowledgementTakesEffectIff(w, o, p, actor, id, directive, now);
    AcknowledgeIsAllOrNothing(w, Acknowledge(o, actor, id, now));
  }

  /** Evidence of expiry is taken once; the same evidence again is answered like the first, other evidence conflicts. */
  lemma ExpiryIsTold(w: World, o: string, actor: string, id: string, ref: string, verifiedAt: int, now: int)
    requires Sound(w) && now <= verifiedAt
    ensures var told := Told(w.db, RecordExpiry(o, actor, id, ref, verifiedAt), now);
            if !IsReference(ref) then told == Some(Err(EvidenceInvalid))
            else if !(id in w.db.requests && w.db.requests[id].claim.organizationId == o
                      && w.db.requests[id].purgedAt.Some?) then
              told == Some(Err(ExpectationNotFound))
            else if id in w.db.verifications then
              told == Some(if w.db.verifications[id].evidenceRef == ref then Ok(w.db.requests[id])
                           else Err(EvidenceConflict))
            else if now < w.db.requests[id].purgedAt.value + 30 * 86_400_000 then told == Some(Err(NotEligible))
            else told == Some(Ok(w.db.requests[id]))
  {
    ReferenceIff(ref);
    if id in w.db.requests {
      SoundSaysItsEnd(w, id);
    }
  }
}
