/**
 Where the deletion records come from: every column of a request or a verification, in every state that any
 interleaving reaches, was put there by a call that asked for it, at the time of that call; and what each call comes to
 when nobody interferes.
 */
module DeletionProvenance {
  import opened Results
  import opened ProjectDeletion
  import opened DeletionProtocol
  import C = ProjectCascade

  /** The claim is that of a deletion asked for under this id, with a window of so many days from that moment on. */
  ghost predicate AskedFor(steps: seq<Step>, id: string, c: Claim, days: int) {
    && 0 <= days <= 30 && c.recoveryUntil == c.requestedAt + days * 86_400_000
    && Look(RequestDeletion(c.organizationId, c.projectId, c.requestedBy, c.projectRevision - 1, c.reasonCode, days, id,
                            c.directiveId), c.requestedAt) in steps
  }

  ghost predicate WasAskedFor(steps: seq<Step>, id: string, c: Claim) {
    exists days :: AskedFor(steps, id, c, days)
  }

  /** Somebody recovered the project then, inside the window. */
  ghost predicate RecoveredBy(steps: seq<Step>, id: string, r: Request) {
    && r.recoveredAt.Some? && r.recoveredBy.Some? && r.recoveredAt.value <= r.claim.recoveryUntil
    && Look(RecoverProject(r.claim.organizationId, r.claim.projectId, r.recoveredBy.value, id), r.recoveredAt.value)
       in steps
  }

  /** Somebody purged it then, after the window, and its backups are eligible thirty days on. */
  ghost predicate PurgedBy(steps: seq<Step>, id: string, r: Request) {
    && r.purgedAt.Some? && r.purgedBy.Some? && r.purgedAt.value >= r.claim.recoveryUntil
    && r.backupEligibleAt == Some(r.purgedAt.value + 30 * 86_400_000)
    && Look(PurgeProject(r.claim.organizationId, r.claim.projectId, r.purgedBy.value, id), r.purgedAt.value) in steps
  }

  /** Somebody acknowledged the cache directive of this request then. */
  ghost predicate AcknowledgedBy(steps: seq<Step>, id: string, r: Request) {
    && r.acknowledgedAt.Some? && r.acknowledgedBy.Some?
    && Look(AcknowledgeCache(r.claim.organizationId, r.claim.projectId, r.acknowledgedBy.value, id,
                             r.claim.directiveId), r.acknowledgedAt.value) in steps
  }

  ghost predicate Explained(steps: seq<Step>, id: string, r: Request) {
    && WasAskedFor(steps, id, r.claim)
    && (r.status == Recovered ==> RecoveredBy(steps, id, r))
    && (r.status == Purged ==> PurgedBy(steps, id, r))
    && (r.acknowledgedAt != None ==> AcknowledgedBy(steps, id, r))
  }

  /** The evidence was recorded by somebody who looked at a time when the backups were eligible. */
  ghost predicate RecordedBy(steps: seq<Step>, id: string, v: Verification) {
    exists now :: now >= v.eligibleAt
      && Look(RecordExpiry(v.organizationId, v.verifiedBy, id, v.evidenceRef, v.verifiedAt), now) in steps
  }

  // ---------- plans and the calls they came from ----------

  ghost predicate IsAcknowledging(w: World, steps: seq<Step>, a: Action, projectId: string, directiveId: string)
    requires a.Acknowledge?
  {
    && Look(AcknowledgeCache(a.organizationId, projectId, a.actor, a.requestId, directiveId), a.now) in steps
    && a.requestId in w.issued.Values
    && (a.requestId in w.db.requests ==>
          && w.db.requests[a.requestId].claim.organizationId == a.organizationId
          && w.db.requests[a.requestId].claim.projectId == projectId
          && w.db.requests[a.requestId].claim.directiveId == directiveId)
  }

  ghost predicate Planned(w: World, steps: seq<Step>, a: Action) {
    match a
    case Ask(c, id) => WasAskedFor(steps, id, c)
    case Recover(o, p, actor, id, at, now) => Look(RecoverProject(o, p, actor, id), now) in steps
    case Purge(o, p, actor, id, at, now) => Look(PurgeProject(o, p, actor, id), now) in steps
    case Acknowledge(o, actor, id, now) =>
      exists projectId, directiveId :: IsAcknowledging(w, steps, a, projectId, directiveId)
    case Record(id, v) => RecordedBy(steps, id, v)
  }

  ghost predicate AllExplained(w: World, steps: seq<Step>) {
    && (forall id :: id in w.db.requests ==> Explained(steps, id, w.db.requests[id]))
    && (forall id :: id in w.db.verifications ==> RecordedBy(steps, id, w.db.verifications[id]))
    && (forall a :: a in w.read ==> Planned(w, steps, a))
  }

  /** What more steps leave explained. */
  lemma MoreStepsExplain(steps: seq<Step>, more: seq<Step>)
    requires steps <= more
    ensures forall id, r :: Explained(steps, id, r) ==> Explained(more, id, r)
    ensures forall id, v :: RecordedBy(steps, id, v) ==> RecordedBy(more, id, v)
    ensures forall id, c :: WasAskedFor(steps, id, c) ==> WasAskedFor(more, id, c)
  {
    assert forall step :: step in steps ==> step in more;
    forall id, c | WasAskedFor(steps, id, c) ensures WasAskedFor(more, id, c) {
      var days :| AskedFor(steps, id, c, days);
      assert AskedFor(more, id, c, days);
    }
    forall id, v | RecordedBy(steps, id, v) ensures RecordedBy(more, id, v) {
      var now :| now >= v.eligibleAt
                 && Look(RecordExpiry(v.organizationId, v.verifiedBy, id, v.evidenceRef, v.verifiedAt), now) in steps;
    }
  }

  /** A plan keeps its call while ids are not used twice. */
  lemma PlanStays(w: World, n: World, steps: seq<Step>, more: seq<Step>, a: Action)
    requires steps <= more && Planned(w, steps, a) && w.issued.Values <= n.issued.Values
    requires forall id :: id in n.db.requests && id in w.issued.Values ==>
               id in w.db.requests && n.db.requests[id].claim == w.db.requests[id].claim
    ensures Planned(n, more, a)
  {
    MoreStepsExplain(steps, more);
    if a.Acknowledge? {
      var p, directive :| IsAcknowledging(w, steps, a, p, directive);
      assert IsAcknowledging(n, more, a, p, directive);
    }
  }

  /** A step that leaves the records alone. */
  lemma QuietStep(w: World, n: World, steps: seq<Step>, more: seq<Step>)
    requires steps <= more && AllExplained(w, steps)
    requires forall id :: id in n.db.requests ==> id in w.db.requests && n.db.requests[id] == w.db.requests[id]
    requires forall id :: id in n.db.verifications ==>
               id in w.db.verifications && n.db.verifications[id] == w.db.verifications[id]
    requires n.read == w.read && n.issued == w.issued
    ensures AllExplained(n, more)
  {
    MoreStepsExplain(steps, more);
    forall a | a in n.read ensures Planned(n, more, a) {
      PlanStays(w, n, steps, more, a);
    }
  }

  /** A look plans what its call asks for. */
  lemma LookPlans(w: World, steps: seq<Step>, call: Call, now: int)
    requires Sound(w) && Enabled(w, Look(call, now)) && Look(call, now) in steps
    requires Consider(w.db, call, now).Ok? && Consider(w.db, call, now).value.Go?
    ensures Planned(w, steps, Consider(w.db, call, now).value.action)
  {
    var a := Consider(w.db, call, now).value.action;
    match call
    case RequestDeletion(o, p, actor, revision, reason, days, id, directive) =>
      assert AskedFor(steps, id, a.claim, days);
    case RecoverProject(o, p, actor, id) =>
    case PurgeProject(o, p, actor, id) =>
    case AcknowledgeCache(o, p, actor, id, directive) =>
      assert w.issued[Key(w.db.requests[id].claim)] == id;
      assert IsAcknowledging(w, steps, a, p, directive);
    case RecordExpiry(o, actor, id, ref, at) =>
      assert now >= a.evidence.eligibleAt;
  }

  lemma LookExplained(w: World, steps: seq<Step>, more: seq<Step>, call: Call, now: int)
    requires Sound(w) && AllExplained(w, steps) && Enabled(w, Look(call, now))
    requires steps <= more && Look(call, now) in more
    ensures AllExplained(Next(w, Look(call, now)), more)
  {
    var n := Next(w, Look(call, now));
    MoreStepsExplain(steps, more);
    forall a | a in w.read ensures Planned(n, more, a) {
      PlanStays(w, n, steps, more, a);
    }
    if n != w {
      LookPlans(w, more, call, now);
      PlanStays(w, n, more, more, Consider(w.db, call, now).value.action);
    }
  }

  /** What a winning batch writes is what its plan says. */
  ghost predicate Rewritten(db: Db, n: Db, a: Action, steps: seq<Step>) {
    && (forall id :: id in n.requests && id != a.requestId ==> id in db.requests && n.requests[id] == db.requests[id])
    && (a.requestId in n.requests ==> Explained(steps, a.requestId, n.requests[a.requestId]))
    && (!a.Ask? && a.requestId in n.requests ==>
          a.requestId in db.requests && n.requests[a.requestId].claim == db.requests[a.requestId].claim)
    && (forall id :: id in n.verifications && (id !in db.verifications || n.verifications[id] != db.verifications[id])
          ==> RecordedBy(steps, id, n.verifications[id]))
  }

  lemma AskWrites(w: World, steps: seq<Step>, a: Action)
    requires a.Ask? && Planned(w, steps, a) && Wins(w.db, a)
    ensures Rewritten(w.db, Effect(w.db, a), a, steps)
  {
  }

  lemma RecoverWrites(w: World, steps: seq<Step>, a: Action)
    requires a.Recover? && Planned(w, steps, a) && Faithful(w, a) && Wins(w.db, a) && a.projectId in w.db.store.projects
    requires Explained(steps, a.requestId, w.db.requests[a.requestId])
    ensures Rewritten(w.db, Effect(w.db, a), a, steps)
  {
    assert RecoveredBy(steps, a.requestId, RecoveredRequest(w.db.requests[a.requestId], a.now, a.actor));
  }

  lemma PurgeWrites(w: World, steps: seq<Step>, a: Action)
    requires a.Purge? && Planned(w, steps, a) && Faithful(w, a) && Wins(w.db, a)
    requires Explained(steps, a.requestId, w.db.requests[a.requestId])
    ensures Rewritten(w.db, Effect(w.db, a), a, steps)
  {
    assert PurgedBy(steps, a.requestId, PurgedRequest(w.db.requests[a.requestId], a.now, a.actor));
  }

  lemma AcknowledgeWrites(w: World, steps: seq<Step>, a: Action)
    requires a.Acknowledge? && Planned(w, steps, a) && Wins(w.db, a)
    requires Explained(steps, a.requestId, w.db.requests[a.requestId])
    ensures Rewritten(w.db, Effect(w.db, a), a, steps)
  {
    var projectId, directiveId :| IsAcknowledging(w, steps, a, projectId, directiveId);
    assert AcknowledgedBy(steps, a.requestId, Effect(w.db, a).requests[a.requestId]);
  }

  lemma WinnerWrites(w: World, steps: seq<Step>, a: Action)
    requires Sound(w) && AllExplained(w, steps) && Enabled(w, Batch(a)) && Wins(w.db, a)
    ensures Rewritten(w.db, After(w.db, a), a, steps)
  {
    BatchIsAllOrNothing(w, a);
    assert Planned(w, steps, a) && Faithful(w, a);
    match a
    case Ask(c, rid) => AskWrites(w, steps, a);
    case Recover(o, p, actor, rid, at, now) => RecoverWrites(w, steps, a);
    case Purge(o, p, actor, rid, at, now) => PurgeWrites(w, steps, a);
    case Acknowledge(o, actor, rid, now) => AcknowledgeWrites(w, steps, a);
    case Record(rid, v) =>
  }

  lemma IssuedGrow(w: World, a: Action)
    requires Enabled(w, Batch(a))
    ensures w.issued.Values <= Next(w, Batch(a)).issued.Values
  {
    var n := Next(w, Batch(a));
    forall id | id in w.issued.Values ensures id in n.issued.Values {
      var k :| k in w.issued && w.issued[k] == id;
      assert n.issued[k] == id;
    }
  }

  lemma RewrittenIsExplained(w: World, n: World, steps: seq<Step>, more: seq<Step>, a: Action)
    requires AllExplained(w, steps) && steps <= more && Rewritten(w.db, n.db, a, steps)
    requires a.Ask? ==> a.requestId !in w.issued.Values
    requires n.read == w.read && w.issued.Values <= n.issued.Values
    ensures AllExplained(n, more)
  {
    MoreStepsExplain(steps, more);
    forall id | id in n.db.requests ensures Explained(more, id, n.db.requests[id]) {
      assert Explained(steps, id, n.db.requests[id]);
    }
    forall id | id in n.db.verifications ensures RecordedBy(more, id, n.db.verifications[id]) {
      assert RecordedBy(steps, id, n.db.verifications[id]);
    }
    forall b | b in n.read ensures Planned(n, more, b) {
      PlanStays(w, n, steps, more, b);
    }
  }

  lemma BatchExplained(w: World, steps: seq<Step>, more: seq<Step>, a: Action)
    requires Sound(w) && AllExplained(w, steps) && Enabled(w, Batch(a)) && steps <= more
    ensures AllExplained(Next(w, Batch(a)), more)
  {
    if Wins(w.db, a) {
      WinnerWrites(w, steps, a);
      IssuedGrow(w, a);
      RewrittenIsExplained(w, Next(w, Batch(a)), steps, more, a);
    } else {
      BatchIsAllOrNothing(w, a);
      QuietStep(w, w, steps, more);
    }
  }

  lemma StepExplained(w: World, steps: seq<Step>, step: Step)
    requires Sound(w) && AllExplained(w, steps) && Enabled(w, step)
    ensures AllExplained(Next(w, step), steps + [step])
  {
    var more := steps + [step];
    match step
    case Look(call, now) => LookExplained(w, steps, more, call, now);
    case Batch(a) => BatchExplained(w, steps, more, a);
    case _ => QuietStep(w, Next(w, step), steps, more);
  }

  /** In every run, whatever the records say was asked for by some call, at the time they say. */
  lemma {:induction false} EveryRecordWasAskedFor(steps: seq<Step>)
    requires AllEnabled(EMPTY, steps)
    ensures AllExplained(Play(EMPTY, steps), steps)
    decreases |steps|
  {
    if steps != [] {
      var rest := steps[..|steps| - 1];
      EveryRecordWasAskedFor(rest);
      EveryRunIsSound(EMPTY, rest);
      StepExplained(Play(EMPTY, rest), rest, steps[|steps| - 1]);
      assert rest + [steps[|steps| - 1]] == steps;
    }
  }

  /**
   While a request stands open, in any state of any run: it is open for the days it was asked for, to the millisecond.
   Up to then a recovery is not too late, and before then a purge is too early.
   */
  lemma WindowIsAsAskedFor(steps: seq<Step>, id: string, actor: string, m: int) returns (days: int)
    requires AllEnabled(EMPTY, steps) && id in Play(EMPTY, steps).db.requests
    requires Play(EMPTY, steps).db.requests[id].status == Recoverable
    ensures var db := Play(EMPTY, steps).db;
            var c := db.requests[id].claim;
            && AskedFor(steps, id, c, days)
            && (Consider(db, RecoverProject(c.organizationId, c.projectId, actor, id), m) == Err(WindowExpired)
                <==> m > c.requestedAt + days * 86_400_000)
            && (Consider(db, PurgeProject(c.organizationId, c.projectId, actor, id), m) == Err(WindowActive)
                <==> m < c.requestedAt + days * 86_400_000)
  {
    EveryRecordWasAskedFor(steps);
    var db := Play(EMPTY, steps).db;
    assert Explained(steps, id, db.requests[id]);
    days :| AskedFor(steps, id, db.requests[id].claim, days);
  }

  /**
   Every stored verification, in any state of any run, is of a purged request that is still there, and both the look and
   the verification came thirty days or more after the purge.
   */
  lemma VerificationsCameAfterThirtyDays(steps: seq<Step>, id: string) returns (now: int)
    requires AllEnabled(EMPTY, steps) && id in Play(EMPTY, steps).db.verifications
    ensures var db := Play(EMPTY, steps).db;
            var v := db.verifications[id];
            && id in db.requests && db.requests[id].status == Purged && db.requests[id].purgedAt.Some?
            && db.requests[id].claim.organizationId == v.organizationId
            && db.requests[id].claim.projectId == v.projectId
            && v.eligibleAt == db.requests[id].purgedAt.value + 30 * 86_400_000
            && v.verifiedAt >= v.eligibleAt && now >= v.eligibleAt
            && Look(RecordExpiry(v.organizationId, v.verifiedBy, id, v.evidenceRef, v.verifiedAt), now) in steps
  {
    EveryRecordWasAskedFor(steps);
    EveryRunIsSound(EMPTY, steps);
    var w := Play(EMPTY, steps);
    var v := w.db.verifications[id];
    assert VerifiedBy(w.db, id, v) && Shaped(w.db.store, w.db.requests[id]);
    now :| now >= v.eligibleAt
           && Look(RecordExpiry(v.organizationId, v.verifiedBy, id, v.evidenceRef, v.verifiedAt), now) in steps;
  }
}
