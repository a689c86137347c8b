/**
 How a database without migration records is recognized: which of the sixteen migrations its tables and
 columns already hold.
 */
module LegacyBaseline {
  import opened Results
  import opened Migrations

  /** The tables, and the columns of `projects` and `project_share_links`, that tell the versions apart. */
  datatype Marker =
    | Projects | ProjectStates
    | ProvenanceJson | ArchivedAt | DeletedAt | RecoveryUntil | Pinned | LastOpenedAt
    | OrganizationId | Users | Organizations | Memberships | Invitations | Sessions | AuditEvents | AccountDeletions
    | Revision | WriteToken
    | CollaborationEvents | Presence
    | ShareLinks | NotificationPreferences | Notifications | EmailOutbox
    | LifecycleState | CreationLedgeredAt | RevocationLedgeredAt | OperationAttempts | LastOperationError
    | Runbooks | RunbookTasks | RunbookTransitions | RunbookLedger | RunbookReceipts
    | OccupancyMonitors
    | IncidentRegisters
    | DeviationRegisters
    | PostEventReviews
    | RateLimitWindows
    | RetentionPolicies | DeletionRequests
    | ObservabilityEvents
    | ProductAnalyticsDaily
    | Unrelated(name: string)

  const LATEST := 16

  const LIFECYCLE: set<Marker> := {ProvenanceJson, ArchivedAt, DeletedAt, RecoveryUntil, Pinned, LastOpenedAt}
  const TENANCY: set<Marker> := {Users, Organizations, Memberships, Invitations, Sessions, AuditEvents,
                                 AccountDeletions}
  const CONCURRENCY: set<Marker> := {Revision, WriteToken}
  const COLLABORATION: set<Marker> := {CollaborationEvents, Presence}
  const SHARING: set<Marker> := {ShareLinks, NotificationPreferences, Notifications, EmailOutbox}
  const SHARING_DELIVERY: set<Marker> :=
    {LifecycleState, CreationLedgeredAt, RevocationLedgeredAt, OperationAttempts, LastOperationError}
  const RUNBOOKS: set<Marker> := {Runbooks, RunbookTasks, RunbookTransitions, RunbookLedger, RunbookReceipts}
  const DATA_PROTECTION: set<Marker> := {RetentionPolicies, DeletionRequests}

  predicate AllOf(found: set<Marker>, wanted: set<Marker>) {
    wanted <= found
  }

  predicate AnyOf(found: set<Marker>, wanted: set<Marker>) {
    exists m :: m in wanted && m in found
  }

  /** For each level whether it was found complete, and whether it was found in part. */
  datatype Levels = Levels(complete: seq<bool>, partial: seq<bool>)

  predicate Partly(found: set<Marker>, wanted: set<Marker>) {
    !AllOf(found, wanted) && AnyOf(found, wanted)
  }

  /** The markers that one migration brings in. */
  function Level(n: nat): set<Marker>
    requires 1 <= n <= LATEST
  {
    match n
    case 1 => {Projects, ProjectStates}
    case 2 => LIFECYCLE
    case 3 => TENANCY + {OrganizationId}
    case 4 => CONCURRENCY
    case 5 => COLLABORATION
    case 6 => SHARING
    case 7 => SHARING_DELIVERY
    case 8 => RUNBOOKS
    case 9 => {OccupancyMonitors}
    case 10 => {IncidentRegisters}
    case 11 => {DeviationRegisters}
    case 12 => {PostEventReviews}
    case 13 => {RateLimitWindows}
    case 14 => DATA_PROTECTION
    case 15 => {ObservabilityEvents}
    case _ => {ProductAnalyticsDaily}
  }

  /** The test for a whole level; delivery columns are looked at only where the sharing tables are. */
  predicate FoundComplete(found: set<Marker>, n: nat)
    requires 1 <= n <= LATEST
  {
    if n == 3 then OrganizationId in found && AllOf(found, TENANCY)
    else if n == 7 then AllOf(found, SHARING) && AllOf(found, SHARING_DELIVERY)
    else AllOf(found, Level(n))
  }

  predicate FoundPartly(found: set<Marker>, n: nat)
    requires 1 <= n <= LATEST
  {
    if n == 3 then !FoundComplete(found, 3) && (OrganizationId in found || AnyOf(found, TENANCY))
    else if n == 7 then AllOf(found, SHARING) && Partly(found, SHARING_DELIVERY)
    else Partly(found, Level(n))
  }

  function Flags(found: set<Marker>): (v: Levels)
    ensures |v.complete| == |v.partial| == LATEST + 1
    ensures forall n :: 1 <= n <= LATEST ==>
              v.complete[n] == FoundComplete(found, n) && v.partial[n] == FoundPartly(found, n)
  {
    Levels(seq(LATEST + 1, n requires 0 <= n <= LATEST => n > 0 && FoundComplete(found, n)),
           seq(LATEST + 1, n requires 0 <= n <= LATEST => n > 0 && FoundPartly(found, n)))
  }

  /** The cross-checks and the version reported. */
  function Verdict(v: Levels): Result<nat, Refusal>
    requires |v.complete| == LATEST + 1 && |v.partial| == LATEST + 1
  {
    var c, p := v.complete, v.partial;
    if !c[1] || p[2] || p[3] || p[4] || p[5] || p[6] || p[7] || p[8] || p[9] || p[10] || p[11]
        then Err(LegacySchemaPartial)
    else if p[12] || (c[12] && !c[11]) || p[13] || (c[13] && !c[12]) || p[14] || (c[14] && !c[13])
        then Err(LegacySchemaPartial)
    else if p[15] || (c[15] && !c[14]) || p[16] || (c[16] && !c[15]) then Err(LegacySchemaPartial)
    else if (c[11] && !c[10]) || (c[10] && !c[9]) || (c[9] && !c[8]) || (c[8] && !c[7]) then Err(LegacySchemaPartial)
    else
      Ok(if c[16] then 16 else if c[15] then 15 else if c[14] then 14 else if c[13] then 13 else if c[12] then 12
         else if c[11] then 11 else if c[10] then 10 else if c[9] then 9 else if c[8] then 8 else if c[7] then 7
         else if c[6] then 6 else if c[5] then 5 else if c[4] then 4 else if c[3] then 3 else if c[2] then 2 else 1)
  }

  /** The detection. */
  function Baseline(found: set<Marker>): Result<nat, Refusal> {
    if Projects !in found then Ok(0) else Verdict(Flags(found))
  }

  const PROJECT_COLUMNS: set<Marker> := LIFECYCLE + CONCURRENCY + {OrganizationId}

  /** What the three queries see together: table names, columns of `projects` and columns of `project_share_links`. */
  function Pieced(names: set<Marker>, columns: set<Marker>, shareColumns: set<Marker>): set<Marker> {
    (names - PROJECT_COLUMNS - SHARING_DELIVERY) + columns * PROJECT_COLUMNS + shareColumns * SHARING_DELIVERY
  }

  /** Which query a marker is seen by. */
  lemma PiecedSees(names: set<Marker>, columns: set<Marker>, shareColumns: set<Marker>, m: Marker)
    ensures m in Pieced(names, columns, shareColumns) <==>
              match m
              case ProvenanceJson | ArchivedAt | DeletedAt | RecoveryUntil | Pinned | LastOpenedAt => m in columns
              case OrganizationId | Revision | WriteToken => m in columns
              case LifecycleState | CreationLedgeredAt | RevocationLedgeredAt => m in shareColumns
              case OperationAttempts | LastOperationError => m in shareColumns
              case _ => m in names
  {
    assert m in LIFECYCLE || m in SHARING_DELIVERY || m in PROJECT_COLUMNS || m in names || m !in names;
  }

  lemma PiecedFromOne(found: set<Marker>)
    ensures Pieced(found, found, found) == found
  {
  }

  // ---------- what the levels mean ----------

  predicate Complete(found: set<Marker>, n: nat)
    requires 1 <= n <= LATEST
  {
    AllOf(found, Level(n))
  }

  predicate Absent(found: set<Marker>, n: nat)
    requires 1 <= n <= LATEST
  {
    !AnyOf(found, Level(n))
  }

  /** The columns that tell delivery apart stand only in a table that stands. */
  predicate WellFormed(found: set<Marker>) {
    AnyOf(found, SHARING_DELIVERY) ==> ShareLinks in found
  }

  /** Every level is there or not, the first one is there, and from 7 on none is there without the one below it. */
  predicate Regular(found: set<Marker>) {
    && Complete(found, 1)
    && (forall n :: 1 <= n <= LATEST ==> Complete(found, n) || Absent(found, n))
    && (forall n, m :: 6 <= n < LATEST && m == n + 1 && Complete(found, m) ==> Complete(found, n))
  }

  ghost predicate HighestIs(found: set<Marker>, k: nat) {
    1 <= k <= LATEST && Complete(found, k) && forall n :: k < n <= LATEST ==> Absent(found, n)
  }

  lemma TenancyLevel(found: set<Marker>)
    ensures Complete(found, 3) <==> OrganizationId in found && AllOf(found, TENANCY)
    ensures Absent(found, 3) <==> OrganizationId !in found && !AnyOf(found, TENANCY)
  {
    assert AnyOf(found, Level(3)) <== AnyOf(found, TENANCY) by {
      if m :| m in TENANCY && m in found { assert m in Level(3); }
    }
    assert OrganizationId in Level(3);
  }

  /** A delivery column can only stand where the sharing tables do. */
  lemma DeliveryNeedsSharing(found: set<Marker>)
    requires WellFormed(found)
    ensures !Absent(found, 7) ==> !Absent(found, 6)
    ensures Complete(found, 7) ==> !Absent(found, 7)
  {
    assert ShareLinks in Level(6) && LifecycleState in Level(7);
  }

  /** Once the sharing tables are known to be all there or all missing, the tests see each level as it is. */
  lemma TestsSeeTheLevel(found: set<Marker>, n: nat)
    requires WellFormed(found) && !Partly(found, SHARING) && 1 <= n <= LATEST
    ensures FoundComplete(found, n) <==> Complete(found, n)
    ensures FoundPartly(found, n) <==> !Complete(found, n) && !Absent(found, n)
  {
    if n == 3 {
      TenancyLevel(found);
    } else if n == 7 {
      DeliveryNeedsSharing(found);
    }
  }

  /** What the verdict makes of the levels, for any flags. */
  ghost predicate RegularFlags(v: Levels)
    requires |v.complete| == LATEST + 1 && |v.partial| == LATEST + 1
  {
    && v.complete[1] && (forall n :: 1 < n <= LATEST ==> !v.partial[n])
    && forall n, m :: 7 <= n < LATEST && m == n + 1 && v.complete[m] ==> v.complete[n]
  }

  lemma VerdictIff(v: Levels)
    requires |v.complete| == LATEST + 1 && |v.partial| == LATEST + 1
    ensures Verdict(v).Ok? <==> RegularFlags(v)
    ensures Verdict(v).Ok? ==>
              var k := Verdict(v).value;
              1 <= k <= LATEST && v.complete[k] && forall n :: k < n <= LATEST ==> !v.complete[n]
  {
    if RegularFlags(v) {
      assert v.complete[8] ==> v.complete[7];
      assert v.complete[16] ==> v.complete[15];
    }
  }

  /** For a database that has projects, detection succeeds exactly on a regular one. */
  lemma DetectionSucceedsIff(found: set<Marker>)
    requires WellFormed(found) && Projects in found
    ensures Baseline(found).Ok? <==> Regular(found)
  {
    VerdictIff(Flags(found));
    assert FoundPartly(found, 6) <==> Partly(found, SHARING);
    assert Partly(found, SHARING) ==> !(Complete(found, 6) || Absent(found, 6));
    if !Partly(found, SHARING) {
      RegularityIsSeen(found);
    }
  }

  lemma RegularityIsSeen(found: set<Marker>)
    requires WellFormed(found) && !Partly(found, SHARING)
    requires Projects in found
    ensures RegularFlags(Flags(found)) <==> Regular(found)
  {
    forall n | 1 <= n <= LATEST
      ensures FoundComplete(found, n) <==> Complete(found, n)
      ensures FoundPartly(found, n) <==> !Complete(found, n) && !Absent(found, n)
    {
      TestsSeeTheLevel(found, n);
    }
    assert FoundComplete(found, 7) ==> Complete(found, 6);
  }

  /** The version it reports is the highest complete level, and nothing of any later level is there. */
  lemma DetectionFindsTheHighest(found: set<Marker>)
    requires WellFormed(found) && Projects in found && Baseline(found).Ok?
    ensures HighestIs(found, Baseline(found).value)
  {
    VerdictIff(Flags(found));
    DetectionSucceedsIff(found);
    assert Complete(found, 6) || Absent(found, 6);
    var k := Baseline(found).value;
    TestsSeeTheLevel(found, k);
    forall n | k < n <= LATEST ensures Absent(found, n) {
      TestsSeeTheLevel(found, n);
      assert Complete(found, n) || Absent(found, n);
    }
  }

  /** The migration that brings a marker in, marker by marker; 0 for anything else. */
  function IntroducedIn(m: Marker): nat {
    match m
    case Projects | ProjectStates => 1
    case ProvenanceJson | ArchivedAt | DeletedAt | RecoveryUntil | Pinned | LastOpenedAt => 2
    case OrganizationId => 3
    case Users | Organizations | Memberships | Invitations | Sessions | AuditEvents | AccountDeletions => 3
    case Revision | WriteToken => 4
    case CollaborationEvents | Presence => 5
    case ShareLinks | NotificationPreferences | Notifications | EmailOutbox => 6
    case LifecycleState | CreationLedgeredAt | RevocationLedgeredAt | OperationAttempts | LastOperationError => 7
    case Runbooks | RunbookTasks | RunbookTransitions | RunbookLedger | RunbookReceipts => 8
    case OccupancyMonitors => 9
    case IncidentRegisters => 10
    case DeviationRegisters => 11
    case PostEventReviews => 12
    case RateLimitWindows => 13
    case RetentionPolicies | DeletionRequests => 14
    case ObservabilityEvents => 15
    case ProductAnalyticsDaily => 16
    case Unrelated(_) => 0
  }

  lemma LifecycleMarkers(m: Marker)
    ensures m in LIFECYCLE <==> IntroducedIn(m) == 2
  {
  }

  lemma TenancyMarkers(m: Marker)
    ensures m in TENANCY + {OrganizationId} <==> IntroducedIn(m) == 3
  {
  }

  lemma ConcurrencyMarkers(m: Marker)
    ensures m in CONCURRENCY <==> IntroducedIn(m) == 4
  {
  }

  lemma CollaborationMarkers(m: Marker)
    ensures m in COLLABORATION <==> IntroducedIn(m) == 5
  {
  }

  lemma SharingMarkers(m: Marker)
    ensures m in SHARING <==> IntroducedIn(m) == 6
  {
  }

  lemma DeliveryMarkers(m: Marker)
    ensures m in SHARING_DELIVERY <==> IntroducedIn(m) == 7
  {
  }

  lemma RunbookMarkers(m: Marker)
    ensures m in RUNBOOKS <==> IntroducedIn(m) == 8
  {
  }

  lemma ProtectionMarkers(m: Marker)
    ensures m in DATA_PROTECTION <==> IntroducedIn(m) == 14
  {
  }

  lemma SingleMarkers(n: nat, m: Marker)
    requires n in {1, 9, 10, 11}
    ensures m in Level(n) <==> IntroducedIn(m) == n
  {
  }

  lemma LaterSingleMarkers(n: nat, m: Marker)
    requires n in {12, 13, 15, 16}
    ensures m in Level(n) <==> IntroducedIn(m) == n
  {
  }

  /** A level holds the markers of its migration. */
  lemma LevelHolds(n: nat, m: Marker)
    requires 1 <= n <= LATEST
    ensures m in Level(n) <==> IntroducedIn(m) == n
  {
    if n in {1, 9, 10, 11} { SingleMarkers(n, m); }
    if n in {12, 13, 15, 16} { LaterSingleMarkers(n, m); }
    if n == 2 { LifecycleMarkers(m); }
    if n == 3 { TenancyMarkers(m); }
    if n == 4 { ConcurrencyMarkers(m); }
    if n == 5 { CollaborationMarkers(m); }
    if n == 6 { SharingMarkers(m); }
    if n == 7 { DeliveryMarkers(m); }
    if n == 8 { RunbookMarkers(m); }
    if n == 14 { ProtectionMarkers(m); }
  }

  lemma CompleteHasItsMarkers(found: set<Marker>, k: nat, m: Marker)
    requires 1 <= k <= LATEST && Complete(found, k) && IntroducedIn(m) == k
    ensures m in found
  {
    LevelHolds(k, m);
  }

  lemma FoundIsNotAbsent(found: set<Marker>, m: Marker)
    requires m in found && 1 <= IntroducedIn(m) <= LATEST
    ensures !Absent(found, IntroducedIn(m))
  {
    LevelHolds(IntroducedIn(m), m);
  }

  lemma IntroducedByLatest(m: Marker)
    ensures IntroducedIn(m) <= LATEST
  {
  }

  lemma NoneAboveTheHighest(found: set<Marker>, k: nat, m: Marker)
    requires HighestIs(found, k) && m in found
    ensures IntroducedIn(m) <= k
  {
    IntroducedByLatest(m);
    if IntroducedIn(m) > k {
      FoundIsNotAbsent(found, m);
    }
  }

  /**
   The version reported is that of the newest marker found: every marker that came with it is there, and none that came
   later.
   */
  lemma NewestMarkerTellsTheVersion(found: set<Marker>)
    requires WellFormed(found) && Projects in found && Baseline(found).Ok?
    ensures forall m :: IntroducedIn(m) == Baseline(found).value ==> m in found
    ensures forall m :: m in found ==> IntroducedIn(m) <= Baseline(found).value
  {
    var k := Baseline(found).value;
    DetectionFindsTheHighest(found);
    forall m | IntroducedIn(m) == k ensures m in found {
      CompleteHasItsMarkers(found, k, m);
    }
    forall m | m in found ensures IntroducedIn(m) <= k {
      NoneAboveTheHighest(found, k, m);
    }
  }

  ghost predicate ExactlyFirst(found: set<Marker>, k: nat) {
    forall n :: 1 <= n <= LATEST ==> if n <= k then Complete(found, n) else Absent(found, n)
  }

  /** A database with the markers of exactly the first k migrations, and anything unrelated, is at version k. */
  lemma FirstLevelsAreDetected(found: set<Marker>, k: nat)
    requires k <= LATEST && ExactlyFirst(found, k) && WellFormed(found)
    ensures Baseline(found) == Ok(k)
  {
    if k == 0 {
      assert Absent(found, 1) && Projects in Level(1);
    } else {
      assert Complete(found, 1) && Projects in Level(1);
      assert Regular(found);
      DetectionSucceedsIff(found);
      DetectionFindsTheHighest(found);
      OneHighest(found, Baseline(found).value, k);
    }
  }

  lemma OneHighest(found: set<Marker>, a: nat, b: nat)
    requires HighestIs(found, a) && HighestIs(found, b)
    ensures a == b
  {
    if a < b { NotBoth(found, b); }
    if b < a { NotBoth(found, a); }
  }

  lemma NotBoth(found: set<Marker>, n: nat)
    requires 1 <= n <= LATEST
    ensures !(Complete(found, n) && Absent(found, n))
  {
    var m :| m in Level(n);
    assert m in Level(n);
  }

  /** From version 7 on, everything back to the sharing tables is there. */
  lemma LaterVersionsAreComplete(found: set<Marker>, n: nat)
    requires WellFormed(found) && Projects in found && Baseline(found).Ok?
    requires 6 <= n <= Baseline(found).value
    ensures Complete(found, n)
    decreases Baseline(found).value - n
  {
    DetectionSucceedsIff(found);
    DetectionFindsTheHighest(found);
    if n < Baseline(found).value {
      LaterVersionsAreComplete(found, n + 1);
    }
  }

  const EARLY: set<Marker> := {Projects, ProjectStates, ShareLinks, NotificationPreferences, Notifications, EmailOutbox}

  lemma EarlyLevels(n: nat, m: Marker)
    requires 1 <= n <= LATEST && m in EARLY
    ensures m in Level(n) ==> n == 1 || n == 6
  {
    match n
    case 2 => assert m !in LIFECYCLE;
    case 3 => assert m !in TENANCY;
    case 4 => assert m !in CONCURRENCY;
    case 5 => assert m !in COLLABORATION;
    case 7 => assert m !in SHARING_DELIVERY;
    case 8 => assert m !in RUNBOOKS;
    case 14 => assert m !in DATA_PROTECTION;
    case _ =>
  }

  /** Below that the order is not looked at: the first and the sixth level alone pass for version 6. */
  lemma EarlierVersionsMayBeMissing()
    ensures WellFormed(EARLY) && Baseline(EARLY) == Ok(6)
    ensures forall n :: 2 <= n <= 5 ==> Absent(EARLY, n)
  {
    forall n | 2 <= n <= LATEST && n != 6 ensures Absent(EARLY, n) {
      forall m | m in EARLY ensures m !in Level(n) {
        EarlyLevels(n, m);
      }
    }
    EarlyIsSix(EARLY);
  }

  lemma EarlyIsSix(found: set<Marker>)
    requires Complete(found, 1) && Complete(found, 6) && forall n :: 2 <= n <= LATEST && n != 6 ==> Absent(found, n)
    ensures Baseline(found) == Ok(6)
  {
    assert Projects in Level(1);
    assert ShareLinks in Level(6);
    assert WellFormed(found);
    forall n | 1 <= n <= LATEST ensures !(Complete(found, n) && Absent(found, n)) {
      NotBoth(found, n);
    }
    DetectionSucceedsIff(found);
    DetectionFindsTheHighest(found);
    OneHighest(found, Baseline(found).value, 6);
  }

  /** Without a projects table everything else is overlooked. */
  lemma NoProjectsMeansVersionZero(found: set<Marker>)
    ensures Baseline(found) == Ok(0) <==> Projects !in found
  {
  }

  lemma AdoptsFirst<S(!new)>(x: Setting<S>, db: Database<S>, k: nat)
    requires Listed(x.list) && 1 <= k <= |x.list| && db.rows == []
    requires x.hasProjects(db.schema) && x.baseline(db.schema, db.schema, db.schema) == Ok(k)
    ensures Base(x, db.schema) == Ok(k)
    ensures PlanFor(x, db) == Ok(Plan(k, true, RecordsOf(x.list[..k], true), x.list[k..]))
  {
    PrefixDecides(x.list, RecordsOf(x.list[..k], true), true);
  }

  /** An unrecorded database at version k is adopted as such, and only what lies above k is run. */
  lemma LegacyPlanResumes(x: Setting<set<Marker>>, db: Database<set<Marker>>, k: nat)
    requires Listed(x.list) && |x.list| == LATEST && 1 <= k <= LATEST && db.rows == []
    requires x.hasProjects(db.schema) == (Projects in db.schema)
             && x.baseline(db.schema, db.schema, db.schema) == Baseline(Pieced(db.schema, db.schema, db.schema))
    requires ExactlyFirst(db.schema, k) && WellFormed(db.schema)
    ensures Base(x, db.schema) == Ok(k)
    ensures PlanFor(x, db) == Ok(Plan(k, true, RecordsOf(x.list[..k], true), x.list[k..]))
  {
    PiecedFromOne(db.schema);
    FirstLevelsAreDetected(db.schema, k);
    NoProjectsMeansVersionZero(db.schema);
    AdoptsFirst(x, db, k);
  }
}
