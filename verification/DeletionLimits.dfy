/**
 How far the deletion protocol depends on its surroundings. The code matches a project by its deletion time,
 writes deletion columns from a record, and deletes requests that it selected earlier; each of these keeps
 the protocol's agreement exactly under a condition that is stated and proved here, and fails outside it.
 */
module DeletionLimits {
  import opened Results
  import opened ProjectDeletion
  import opened DeletionProtocol
  import C = ProjectCascade

  ghost predicate Consistent(db: Db) {
    C.AtRest(db.store) && Agreed(db) && AllShaped(db) && OneActiveEach(db)
  }

  /** The request an action carries evidence of, as it was read. */
  ghost predicate Carries(db: Db, a: Action) {
    (a.Recover? || a.Purge?)
    && Found(db, a.organizationId, a.projectId, a.requestId)
        && db.requests[a.requestId].claim.requestedAt == a.requestedAt
  }

  /** The project is deleted at the request's time although the request has ended. */
  predicate TimeIsShared(db: Db, a: Action)
    requires a.Recover? || a.Purge?
  {
    MatchesProject(db.store, a.projectId, a.organizationId, Some(a.requestedAt))
    && !MatchesRequest(db, a.requestId, a.organizationId)
  }

  lemma LiveRequestMatchesItsProject(db: Db, a: Action)
    requires Consistent(db) && Carries(db, a) && MatchesRequest(db, a.requestId, a.organizationId)
    ensures MatchesProject(db.store, a.projectId, a.organizationId, Some(a.requestedAt))
  {
    assert ScopeMatches(db.store, db.requests[a.requestId].claim);
  }

  /** Taking a deletion away from under another request's feet breaks the agreement. */
  lemma StolenDeletion(db: Db, projectId: string, n: C.Store)
    requires Agreed(db) && projectId in db.store.projects && db.store.projects[projectId].deletedAt.Some?
    requires projectId in n.projects ==>
               n.projects[projectId].deletedAt != db.store.projects[projectId].deletedAt
               || n.projects[projectId].recoveryUntil != db.store.projects[projectId].recoveryUntil
    ensures !Agreed(db.(store := n))
  {
    assert ProjectAgrees(db, projectId);
    var k :| k in db.requests && db.requests[k].status.Recoverable? && db.requests[k].claim.projectId == projectId;
    assert ScopeMatches(db.store, db.requests[k].claim);
    assert !ScopeMatches(n, db.requests[k].claim);
    assert k in db.(store := n).requests;
  }

  lemma RecoveryKeepsAgreementIff(db: Db, a: Action)
    requires Consistent(db) && Carries(db, a) && a.Recover?
    ensures Agreed(After(db, a)) <==> !TimeIsShared(db, a)
  {
    if MatchesRequest(db, a.requestId, a.organizationId) {
      LiveRequestMatchesItsProject(db, a);
      assert Shaped(db.store, db.requests[a.requestId]);
      EndingAgrees(db, a.requestId, Revised(db.store, a.projectId, None, None),
                      RecoveredRequest(db.requests[a.requestId], a.now, a.actor));
    } else if TimeIsShared(db, a) {
      StolenDeletion(db, a.projectId, Revised(db.store, a.projectId, None, None));
    }
  }

  lemma PurgeKeepsAgreementIff(db: Db, a: Action)
    requires Consistent(db) && Carries(db, a) && a.Purge?
    ensures Agreed(After(db, a)) <==> !TimeIsShared(db, a)
  {
    C.PurgeRemovesTheProject(db.store, a.projectId);
    C.PurgeKeepsReferences(db.store, a.projectId);
    var n := C.DeleteProject(db.store, a.projectId).value;
    if MatchesRequest(db, a.requestId, a.organizationId) {
      LiveRequestMatchesItsProject(db, a);
      assert Shaped(db.store, db.requests[a.requestId]);
      NothingOfIsAbsent(n, a.projectId);
      EndingAgrees(db, a.requestId, n, PurgedRequest(db.requests[a.requestId], a.now, a.actor));
    } else if TimeIsShared(db, a) {
      StolenDeletion(db, a.projectId, n);
    }
  }

  /** A project write keeps the agreement exactly when it matches no row or repeats the stored deletion columns. */
  lemma PutKeepsAgreementIff(db: Db, p: string, organizationId: string, revision: int, d: Option<int>, u: Option<int>)
    requires Consistent(db)
    ensures Agreed(PutProject(db, p, organizationId, revision, d, u))
            <==> (PutMatches(db, p, organizationId, revision)
                  ==> d == db.store.projects[p].deletedAt && u == db.store.projects[p].recoveryUntil)
  {
    if PutMatches(db, p, organizationId, revision) {
      var n := Revised(db.store, p, d, u);
      if d == db.store.projects[p].deletedAt && u == db.store.projects[p].recoveryUntil {
        SameDeletionsKeepAgreed(db, n);
      } else if db.store.projects[p].deletedAt.Some? {
        StolenDeletion(db, p, n);
      } else {
        InventedDeletion(db, p, n);
      }
    }
  }

  lemma InventedDeletion(db: Db, p: string, n: C.Store)
    requires Agreed(db) && p in db.store.projects && db.store.projects[p].deletedAt.None?
    requires p in n.projects && !(n.projects[p].deletedAt.None? && n.projects[p].recoveryUntil.None?)
    ensures !Agreed(db.(store := n))
  {
    forall k | k in db.requests && db.requests[k].status.Recoverable? ensures db.requests[k].claim.projectId != p {
      assert ScopeMatches(db.store, db.requests[k].claim);
    }
    assert !HasActive(db.(store := n), p);
    assert !ProjectAgrees(db.(store := n), p);
  }

  /**
   A new project keeps the agreement exactly when its id is taken already or its record says nothing of a deletion.
   */
  lemma CreateKeepsAgreementIff(db: Db, p: string, organizationId: string, d: Option<int>, u: Option<int>)
    requires Consistent(db)
    ensures Agreed(CreateProject(db, p, organizationId, d, u)) <==> p in db.store.projects || (d.None? && u.None?)
  {
    var m := CreateProject(db, p, organizationId, d, u);
    if p !in db.store.projects {
      NoRequestOfMissing(db, p);
      assert m.store.projects == db.store.projects[p := C.Project(organizationId, 1, d, u)];
      if d.None? && u.None? {
        forall id | id in m.requests && m.requests[id].status.Recoverable?
            ensures ScopeMatches(m.store, m.requests[id].claim) {
          assert ScopeMatches(db.store, db.requests[id].claim);
        }
        forall q | q in m.store.projects ensures ProjectAgrees(m, q) {
          if q != p {
            assert ProjectAgrees(db, q);
            assert HasActive(db, q) ==> HasActive(m, q);
          }
        }
      } else {
        assert !HasActive(m, p);
        assert !ProjectAgrees(m, p);
      }
    }
  }

  lemma NoRequestOfMissing(db: Db, p: string)
    requires Agreed(db) && p !in db.store.projects
    ensures !HasActive(db, p)
  {
    forall k | k in db.requests && db.requests[k].status.Recoverable? ensures db.requests[k].claim.projectId != p {
      assert ScopeMatches(db.store, db.requests[k].claim);
    }
  }

  /** Deleting selected requests keeps every verification's reference exactly while none of them has one by then. */
  lemma DropKeepsReferencesIff(db: Db, ids: set<string>)
    requires VerificationsRefer(db)
    ensures VerificationsRefer(db.(requests := db.requests - ids)) <==> ids !! db.verifications.Keys
  {
    var m := db.(requests := db.requests - ids);
    if ids !! db.verifications.Keys {
      forall id | id in m.verifications ensures VerifiedBy(m, id, m.verifications[id]) {
        assert VerifiedBy(db, id, db.verifications[id]);
      }
    } else {
      var id :| id in ids && id in db.verifications;
      assert !VerifiedBy(m, id, m.verifications[id]);
    }
  }

  // ---------- the families that fail ----------

  function OneProject(p: string, o: string): Db {
    Db(C.Store(map[p := C.Project(o, 1, None, None)], map[], map[]), map[], map[])
  }

  function AskFor(o: string, p: string, revision: int, actor: string, reason: string, at: int, days: int,
                  directive: string, id: string): Action {
    Ask(Claim(o, p, revision, reason, actor, at, at + days * DAY, directive), id)
  }

  /** The database after one deletion request. */
  function OneRequest(p: string, o: string, c: Claim, id: string, revision: int): Db {
    Db(C.Store(map[p := C.Project(o, revision, Some(c.requestedAt), Some(c.recoveryUntil))], map[], map[]),
       map[id := NewRequest(c)], map[])
  }

  /** A project deleted, recovered and deleted again, all in one millisecond. */
  lemma DeletedTwice(o: string, p: string, actor: string, reason: string, at: int, days: nat,
                     id: string, directive: string, id2: string, directive2: string)
    requires id != id2 && directive != directive2 && 1 <= |reason| <= 80
    ensures var first := AskFor(o, p, 2, actor, reason, at, days, directive, id);
            var second := AskFor(o, p, 4, actor, reason, at, days, directive2, id2);
            var one := After(OneProject(p, o), first);
            && one == OneRequest(p, o, first.claim, id, 2)
            && After(After(one, Recover(o, p, actor, id, at, at)), second) ==
                 Db(C.Store(map[p := C.Project(o, 4, Some(at), Some(at + days * DAY))], map[], map[]),
                    map[id := RecoveredRequest(NewRequest(first.claim), at, actor), id2 := NewRequest(second.claim)],
                    map[])
  {
    var first := AskFor(o, p, 2, actor, reason, at, days, directive, id);
    var second := AskFor(o, p, 4, actor, reason, at, days, directive2, id2);
    var one := After(OneProject(p, o), first);
    assert one == OneRequest(p, o, first.claim, id, 2);
    var back := After(one, Recover(o, p, actor, id, at, at));
    assert back.store.projects == map[p := C.Project(o, 3, None, None)];
    assert back.requests == map[id := RecoveredRequest(NewRequest(first.claim), at, actor)];
    assert After(back, second).requests == back.requests[id2 := NewRequest(second.claim)];
  }

  /**
   Two actors read one request; one recovers the project, the project is deleted again within the same
   millisecond, and then the other actor's batch runs: it recovers the second deletion, whose request stays active.
   */
  lemma SharedTimeBreaksRecovery(o: string, p: string, actor: string, reason: string, at: int,
                                 id: string, directive: string, id2: string, directive2: string)
    requires id != id2 && directive != directive2 && 1 <= |reason| <= 80
    ensures var stale := Recover(o, p, actor, id, at, at);
            var one := After(OneProject(p, o), AskFor(o, p, 2, actor, reason, at, 30, directive, id));
            var again := After(After(one, stale), AskFor(o, p, 4, actor, reason, at, 30, directive2, id2));
            && Consider(one, RecoverProject(o, p, actor, id), at) == Ok(Go(stale))
            && id2 in After(again, stale).requests && After(again, stale).requests[id2].status.Recoverable?
            && !Agreed(After(again, stale))
  {
    var stale := Recover(o, p, actor, id, at, at);
    DeletedTwice(o, p, actor, reason, at, 30, id, directive, id2, directive2);
    var one := After(OneProject(p, o), AskFor(o, p, 2, actor, reason, at, 30, directive, id));
    var again := After(After(one, stale), AskFor(o, p, 4, actor, reason, at, 30, directive2, id2));
    var last := After(again, stale);
    assert last.requests == again.requests && last.store.projects[p].deletedAt.None?;
    assert !ScopeMatches(last.store, last.requests[id2].claim);
  }

  lemma ActiveWithoutProject(db: Db, id: string)
    requires id in db.requests && db.requests[id].status.Recoverable?
    requires db.requests[id].claim.projectId !in db.store.projects
    ensures !Agreed(db)
  {
    assert !ScopeMatches(db.store, db.requests[id].claim);
  }

  /**
   The same with a recovery window of no days: an actor decides to purge in the one millisecond in which the request
   can also be recovered, another recovers it, and the project is deleted again. The late purge then removes the
   project although the second request, still active, was never purged.
   */
  lemma SharedTimeBreaksPurge(o: string, p: string, actor: string, reason: string, at: int,
                              id: string, directive: string, id2: string, directive2: string)
    requires id != id2 && directive != directive2 && 1 <= |reason| <= 80
    ensures var stale := Purge(o, p, actor, id, at, at);
            var one := After(OneProject(p, o), AskFor(o, p, 2, actor, reason, at, 0, directive, id));
            var back := After(one, Recover(o, p, actor, id, at, at));
            var again := After(back, AskFor(o, p, 4, actor, reason, at, 0, directive2, id2));
            && Consider(one, PurgeProject(o, p, actor, id), at) == Ok(Go(stale))
            && Consider(one, RecoverProject(o, p, actor, id), at) == Ok(Go(Recover(o, p, actor, id, at, at)))
            && Confirmed(again, stale)
            && p !in After(again, stale).store.projects
            && id2 in After(again, stale).requests && After(again, stale).requests[id2].status.Recoverable?
            && !Agreed(After(again, stale))
  {
    var stale := Purge(o, p, actor, id, at, at);
    DeletedTwice(o, p, actor, reason, at, 0, id, directive, id2, directive2);
    var back := After(After(OneProject(p, o), AskFor(o, p, 2, actor, reason, at, 0, directive, id)),
                      Recover(o, p, actor, id, at, at));
    var again := After(back, AskFor(o, p, 4, actor, reason, at, 0, directive2, id2));
    LoneProjectIsPurged(again, stale);
    ActiveWithoutProject(After(again, stale), id2);
  }

  /** A project without rows, deleted at the time of a request that has ended: the purge removes the project alone. */
  lemma LoneProjectIsPurged(db: Db, a: Action)
    requires a.Purge? && db.store.rows == map[] && TimeIsShared(db, a)
    ensures After(db, a) == db.(store := C.DeleteProject(db.store, a.projectId).value)
    ensures a.projectId !in After(db, a).store.projects
  {
    C.PurgeRemovesTheProject(db.store, a.projectId);
  }

  /** What the repository's `get` shows: no project that is soft-deleted. */
  function GetProject(db: Db, organizationId: string, p: string): Option<C.Project> {
    if MatchesProject(db.store, p, organizationId, None) then Some(db.store.projects[p]) else None
  }

  /**
   A project created from a record that says it is deleted is stored as deleted although nobody asked for that:
   the read after the insert does not see it, and neither does the deletion protocol.
   */
  lemma CreatedAsDeleted(db: Db, p: string, o: string, d: int, u: Option<int>)
    requires Consistent(db) && p !in db.store.projects
    ensures var m := CreateProject(db, p, o, Some(d), u);
            && p in m.store.projects && GetProject(m, o, p).None?
            && !HasActive(m, p) && !Agreed(m)
  {
    CreateKeepsAgreementIff(db, p, o, Some(d), u);
    NoRequestOfMissing(db, p);
    assert !HasActive(CreateProject(db, p, o, Some(d), u), p);
  }

  /** A record saved at the current revision without the deletion columns takes the deletion away. */
  lemma PutCanTakeADeletionAway(o: string, p: string, c: Claim, id: string)
    requires c.projectId == p && c.organizationId == o
    ensures Agreed(OneRequest(p, o, c, id, 2))
    ensures !Agreed(PutProject(OneRequest(p, o, c, id, 2), p, o, 2, None, None))
  {
    var db := OneRequest(p, o, c, id, 2);
    assert id in db.requests && db.requests[id].status.Recoverable? && db.requests[id].claim.projectId == p;
    StolenDeletion(db, p, Revised(db.store, p, None, None));
  }

  /** Evidence recorded after the sweep selected its request and before the sweep deleted it loses its request. */
  lemma LateEvidenceIsOrphaned(w: World, id: string, v: Verification)
    requires Sound(w) && id in w.db.requests && Terminal(w.db, id) && Wins(w.db, Record(id, v))
    ensures var late := After(w.db, Record(id, v));
            VerificationsRefer(late) && !VerificationsRefer(late.(requests := late.requests - {id}))
  {
    var late := After(w.db, Record(id, v));
    RecordKeepsSound(w, Record(id, v));
    assert id in {id} && id in late.verifications.Keys;
    DropKeepsReferencesIff(late, {id});
  }

  /** A project that is gone, its one purged request, and no verification yet. */
  function PurgedWorld(c: Claim, id: string, actor: string, now: int): World {
    World(Db(C.Store(map[], map[], map[]), map[id := PurgedRequest(NewRequest(c), now, actor)], map[]),
          {}, {}, map[Key(c) := id], {c.projectId})
  }

  function TimelyEvidence(c: Claim, actor: string, now: int, ref: string): Verification {
    Verification(c.organizationId, c.projectId, now + BACKUP_DAYS * DAY, ref, now + BACKUP_DAYS * DAY, actor)
  }

  /**
   For every purged request there is such a world: evidence recorded in time between select and delete is orphaned.
   */
  lemma EvidenceBetweenSelectAndDelete(c: Claim, id: string, actor: string, now: int, ref: string)
    requires c.requestedAt <= c.recoveryUntil <= now && 1 <= |ref| <= 160
    ensures var w, a := PurgedWorld(c, id, actor, now), Record(id, TimelyEvidence(c, actor, now, ref));
            && Sound(w) && Terminal(w.db, id) && Wins(w.db, a)
            && VerificationsRefer(After(w.db, a))
            && !VerificationsRefer(After(w.db, a).(requests := After(w.db, a).requests - {id}))
  {
    var w := PurgedWorld(c, id, actor, now);
    assert C.NothingOf(w.db.store, c.projectId);
    assert Shaped(w.db.store, w.db.requests[id]);
    LateEvidenceIsOrphaned(w, id, TimelyEvidence(c, actor, now, ref));
  }
}
