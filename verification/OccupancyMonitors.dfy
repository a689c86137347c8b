/**
 The live occupancy monitors: the same table shape and compare-and-set as the registers, but nothing is
 checked before a write and nothing is compared on reading. The baseline rule stands only in the trigger.
 */
module OccupancyMonitors {
  import opened Results
  import opened Registers

  /** A monitor document; its last ledger hash is the head, and an empty ledger has none. */
  function LastHash(m: Register): Option<string> {
    if m.ledger == [] then None else Some(m.ledger[|m.ledger| - 1])
  }

  function MonitorRow(organizationId: string, projectId: string, m: Register): Row
    requires LastHash(m).Some?
  {
    Row(organizationId, projectId, m.identity.runbookId, m.identity.schemaVersion, m.identity.baseline.fingerprint,
        m.identity.baseline, m, m.revision, LastHash(m).value, m.identity.createdAt, m.updatedAt)
  }

  function CreateMonitor(x: Setting, t: Table, organizationId: string, projectId: string,
                         m: Register): Result<Table, Abort> {
    if LastHash(m).None? then Err(CheckFailed)
    else InsertRow(x, t, m.id, MonitorRow(organizationId, projectId, m))
  }

  function PutMonitor(t: Table, organizationId: string, projectId: string, m: Register,
                      expectedRevision: int): Result<Table, Refusal> {
    match UpdateRow(t, m.id, organizationId, projectId, expectedRevision,
                    Write(m, m.revision, LastHash(m), m.updatedAt))
    case Err(a) => Err(WriteFailed(a))
    case Ok((n, changed)) => if changed == 0 then Err(RevisionConflict) else Ok(n)
  }

  /** The last row of the ledger has a hash, and this is it. */
  ghost predicate EndsWith(m: Register, head: string) {
    head != "" && m.ledger != [] && m.ledger[|m.ledger| - 1] == head
  }

  /** The same row with another document, and what its columns repeat of the document. */
  ghost predicate Replaces(before: Row, after: Row, m: Register) {
    SameColumns(before, after) && after.register == m && after.revision == m.revision && after.updatedAt == m.updatedAt
    && EndsWith(m, after.head)
  }

  /** Exactly when a put of a monitor is accepted: over the revision it expects, with the next one and a ledger. */
  lemma MonitorPutIsAcceptedIff(t: Table, organizationId: string, projectId: string, m: Register, expectedRevision: int)
    requires AllColumnsOk(t)
    ensures var result := PutMonitor(t, organizationId, projectId, m, expectedRevision);
            var expected := Stored(t, organizationId, projectId, m.id) && t[m.id].revision == expectedRevision;
            && (result == Err(RevisionConflict) <==> !expected)
            && (result.Ok? <==>
                  expected && m.revision == expectedRevision + 1 && exists head :: EndsWith(m, head))
            && (result.Ok? ==>
                  && result.value.Keys == t.Keys && Replaces(t[m.id], result.value[m.id], m)
                  && forall k :: k in t && k != m.id ==> result.value[k] == t[k])
  {
    if Stored(t, organizationId, projectId, m.id) {
      assert ColumnsOk(t[m.id]);
    }
    assert LastHash(m).Some? && LastHash(m).value != "" ==> EndsWith(m, LastHash(m).value);
  }

  /** Exactly when a monitor is created: well formed, with a ledger, and the first one of a runbook that exists. */
  lemma MonitorIsCreatedIff(x: Setting, t: Table, organizationId: string, projectId: string, m: Register)
    ensures var result := CreateMonitor(x, t, organizationId, projectId, m);
            && (result.Ok? <==>
                  && IsWellFormed(m) && (exists head :: EndsWith(m, head)) && m.id !in t
                  && (forall k :: k in t ==> !IsOfRunbook(t, k, organizationId, projectId, m.identity.runbookId))
                  && (m.identity.runbookId, organizationId, projectId) in x.runbooks)
            && (result.Ok? ==>
                  && result.value.Keys == t.Keys + {m.id}
                  && IsMonitorRow(result.value[m.id], organizationId, projectId, m)
                  && forall k :: k in t ==> result.value[k] == t[k])
  {
    assert LastHash(m).Some? && LastHash(m).value != "" ==> EndsWith(m, LastHash(m).value);
    if LastHash(m).Some? {
      FirstOfItsRunbookIff(t, organizationId, projectId, m);
    }
  }

  lemma FirstOfItsRunbookIff(t: Table, organizationId: string, projectId: string, m: Register)
    requires LastHash(m).Some?
    ensures TakesAPlace(t, m.id, MonitorRow(organizationId, projectId, m)) <==>
              m.id in t || exists k :: IsOfRunbook(t, k, organizationId, projectId, m.identity.runbookId)
  {
    if k :| k in t && SameRunbook(t[k], MonitorRow(organizationId, projectId, m)) {
      assert IsOfRunbook(t, k, organizationId, projectId, m.identity.runbookId);
    }
    if k :| IsOfRunbook(t, k, organizationId, projectId, m.identity.runbookId) {
      assert SameRunbook(t[k], MonitorRow(organizationId, projectId, m));
    }
  }

  ghost predicate IsMonitorRow(row: Row, organizationId: string, projectId: string, m: Register) {
    && row.register == m && row.organizationId == organizationId && row.projectId == projectId
    && row.runbookId == m.identity.runbookId && row.schemaVersion == m.identity.schemaVersion
    && row.baseline == m.identity.baseline && row.fingerprint == m.identity.baseline.fingerprint
    && row.createdAt == m.identity.createdAt && row.updatedAt == m.updatedAt
    && row.revision == m.revision && EndsWith(m, row.head)
  }

  datatype Action =
    | Make(organizationId: string, projectId: string, monitor: Register)
    | Replace(organizationId: string, projectId: string, monitor: Register, expectedRevision: int)
    | Drop(ids: set<string>)

  function After(x: Setting, t: Table, a: Action): Table {
    match a
    case Make(o, p, m) => (match CreateMonitor(x, t, o, p, m) case Ok(n) => n case Err(_) => t)
    case Replace(o, p, m, e) => (match PutMonitor(t, o, p, m, e) case Ok(n) => n case Err(_) => t)
    case Drop(ids) => t - ids
  }

  function Run(x: Setting, t: Table, actions: seq<Action>): Table
    decreases |actions|
  {
    if actions == [] then t else After(x, Run(x, t, actions[..|actions| - 1]), actions[|actions| - 1])
  }

  /** The document that an action puts over the monitor, if it is a put of it and accepted. */
  function AcceptedPut(t: Table, a: Action, id: string): seq<Register> {
    if a.Replace? && a.monitor.id == id && PutMonitor(t, a.organizationId, a.projectId, a.monitor,
                                                      a.expectedRevision).Ok?
    then [a.monitor] else []
  }

  function Puts(x: Setting, t: Table, actions: seq<Action>, id: string): seq<Register>
    decreases |actions|
  {
    if actions == [] then []
    else
      var rest := actions[..|actions| - 1];
      Puts(x, t, rest, id) + AcceptedPut(Run(x, t, rest), actions[|actions| - 1], id)
  }

  ghost predicate SameColumns(a: Row, b: Row) {
    b.organizationId == a.organizationId && b.projectId == a.projectId && b.runbookId == a.runbookId
    && b.schemaVersion == a.schemaVersion && b.fingerprint == a.fingerprint && b.baseline == a.baseline
        && b.createdAt == a.createdAt
  }

  ghost predicate AtEndOf(start: Row, log: seq<Register>, row: Row) {
    && SameColumns(start, row) && row.revision == start.revision + |log|
    && (forall i :: 0 <= i < |log| ==> log[i].revision == start.revision + i + 1)
    && (if log == [] then row == start else row.register == log[|log| - 1])
  }

  lemma OtherActionsLeaveTheRow(x: Setting, t: Table, a: Action, id: string)
    requires id in t && !(a.Drop? && id in a.ids) && !(a.Replace? && a.monitor.id == id)
    ensures id in After(x, t, a) && After(x, t, a)[id] == t[id]
  {
  }

  lemma PutMovesOn(x: Setting, t: Table, a: Action, id: string)
    requires id in t && a.Replace? && a.monitor.id == id
    ensures id in After(x, t, a) && SameColumns(t[id], After(x, t, a)[id])
    ensures if AcceptedPut(t, a, id) == [] then After(x, t, a)[id] == t[id]
            else After(x, t, a)[id].register == a.monitor
                 && After(x, t, a)[id].revision == a.monitor.revision == t[id].revision + 1
  {
  }

  lemma ActionExtendsLine(x: Setting, t: Table, a: Action, id: string, start: Row, log: seq<Register>)
    requires id in t && !(a.Drop? && id in a.ids) && AtEndOf(start, log, t[id])
    ensures id in After(x, t, a) && AtEndOf(start, log + AcceptedPut(t, a, id), After(x, t, a)[id])
  {
    if a.Replace? && a.monitor.id == id {
      PutMovesOn(x, t, a, id);
    } else {
      OtherActionsLeaveTheRow(x, t, a, id);
    }
    assert log + [] == log;
  }

  /** The accepted puts of a monitor form one line of revisions over unchanging columns. */
  lemma {:induction false} MonitorPutsFormOneLine(x: Setting, t: Table, actions: seq<Action>, id: string)
    requires id in t && forall k :: 0 <= k < |actions| ==> !(actions[k].Drop? && id in actions[k].ids)
    ensures id in Run(x, t, actions) && AtEndOf(t[id], Puts(x, t, actions, id), Run(x, t, actions)[id])
    decreases |actions|
  {
    if actions != [] {
      var init := actions[..|actions| - 1];
      MonitorPutsFormOneLine(x, t, init, id);
      ActionExtendsLine(x, Run(x, t, init), actions[|actions| - 1], id, t[id], Puts(x, t, init, id));
    }
  }

  /** The document says what the row's columns say. */
  predicate Consistent(id: string, row: Row) {
    var m := row.register;
    && m.id == id && m.projectId == row.projectId && m.identity.runbookId == row.runbookId
    && m.identity.schemaVersion == row.schemaVersion && m.identity.baseline == row.baseline
    && m.identity.baseline.fingerprint == row.fingerprint && m.identity.createdAt == row.createdAt
    && m.revision == row.revision && m.updatedAt == row.updatedAt && LastHash(m) == Some(row.head)
  }

  /** A put keeps document and columns consistent exactly when its document repeats the columns that stay. */
  lemma PutStaysConsistentIff(t: Table, organizationId: string, projectId: string, m: Register, expectedRevision: int)
    requires PutMonitor(t, organizationId, projectId, m, expectedRevision).Ok?
    requires m.id in t && Consistent(m.id, t[m.id])
    ensures Consistent(m.id, PutMonitor(t, organizationId, projectId, m, expectedRevision).value[m.id])
            <==> Agrees(t[m.id], m)
  {
  }

  /** A document with another baseline replaces the first one without complaint. */
  lemma BaselineCanDrift(x: Setting, o: string, first: Register, second: Register)
    requires first.ledger != [] && first.ledger[|first.ledger| - 1] != "" && second.ledger != []
             && second.ledger[|second.ledger| - 1] != ""
    requires (first.identity.runbookId, o, first.projectId) in x.runbooks
    requires first.identity.schemaVersion == 1 && first.identity.baseline.fingerprint != "" && first.revision >= 0
    requires second.id == first.id && second.revision == first.revision + 1
    requires second.identity.baseline != first.identity.baseline
    ensures CreateMonitor(x, map[], o, first.projectId, first).Ok?
    ensures var t := CreateMonitor(x, map[], o, first.projectId, first).value;
            && Consistent(first.id, t[first.id])
            && PutMonitor(t, o, first.projectId, second, first.revision).Ok?
            && !Consistent(first.id, PutMonitor(t, o, first.projectId, second, first.revision).value[first.id])
  {
    assert CreateMonitor(x, map[], o, first.projectId, first).Ok?;
  }
}
