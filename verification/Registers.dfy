/**
 The deviation and incident registers, which follow one protocol: a stored document with a few of its fields
 repeated as columns, replaced by compare-and-set on its revision. A put reads and checks before it writes,
 and any number of creates, puts and removals may run in between.
 */
module Registers {
  import opened Results

  datatype Baseline = Baseline(fingerprint: string, content: string)

  datatype Source = Source(runbookLedgerHead: string, content: string)

  /** The part of a register that never changes. */
  datatype Identity = Identity(runbookId: string, schemaVersion: int, createdAt: int, source: Source,
                               baseline: Baseline)

  /** `ledger` holds the hashes of the ledger rows; `content` is everything else in the document. */
  datatype Register = Register(id: string, projectId: string, identity: Identity, revision: int, updatedAt: int,
                               ledger: seq<string>, content: string)

  datatype Row = Row(organizationId: string, projectId: string, runbookId: string, schemaVersion: int,
                     fingerprint: string, baseline: Baseline, register: Register,
                     revision: int, head: string, createdAt: int, updatedAt: int)

  /** One table: rows by primary key. */
  type Table = map<string, Row>

  datatype Refusal =
    | ScopeInvalid | IntegrityFailed | BaselineImmutable | RevisionConflict | IdConflict
    | HeadMissing | StoredInvalid | WriteFailed(abort: Abort)

  datatype Abort = ForeignKey | NotUnique | CheckFailed | BaselineRule | RevisionRule

  /** The runbooks that exist, and the ledger verification of the register's own domain. */
  datatype Setting = Setting(runbooks: set<(string, string, string)>, verify: Register -> bool)

  function Head(r: Register): Option<string> {
    var head := if r.ledger != [] then r.ledger[|r.ledger| - 1] else r.identity.source.runbookLedgerHead;
    if head == "" then None else Some(head)
  }

  // ---------- the table ----------

  predicate ColumnsOk(row: Row) {
    row.schemaVersion == 1 && row.fingerprint != "" && row.revision >= 0 && row.head != ""
  }

  predicate SameRunbook(a: Row, b: Row) {
    a.runbookId == b.runbookId && a.organizationId == b.organizationId && a.projectId == b.projectId
  }

  predicate TakesAPlace(t: Table, id: string, row: Row) {
    id in t || exists k :: k in t && SameRunbook(t[k], row)
  }

  function InsertRow(x: Setting, t: Table, id: string, row: Row): Result<Table, Abort> {
    if !ColumnsOk(row) then Err(CheckFailed)
    else if TakesAPlace(t, id, row) then Err(NotUnique)
    else if (row.runbookId, row.organizationId, row.projectId) !in x.runbooks then Err(ForeignKey)
    else Ok(t[id := row])
  }

  /** What an update statement may set; the other columns keep their values. */
  datatype Write = Write(register: Register, revision: int, head: Option<string>, updatedAt: int)

  predicate Matches(t: Table, id: string, organizationId: string, projectId: string, revision: int) {
    id in t && t[id].organizationId == organizationId && t[id].projectId == projectId && t[id].revision == revision
  }

  function Written(row: Row, w: Write): Row
    requires w.head.Some?
  {
    row.(register := w.register, revision := w.revision, head := w.head.value, updatedAt := w.updatedAt)
  }

  /** The update trigger, with its baseline rule and its revision rule. */
  function Trigger(before: Row, after: Row): Option<Abort> {
    if after.organizationId != before.organizationId || after.projectId != before.projectId
        || after.runbookId != before.runbookId
       || after.schemaVersion != before.schemaVersion || after.fingerprint != before.fingerprint
       || after.baseline != before.baseline || after.createdAt != before.createdAt then Some(BaselineRule)
    else if after.revision != before.revision + 1 then Some(RevisionRule)
    else None
  }

  /** The rows changed are 0 or 1. */
  function UpdateRow(t: Table, id: string, organizationId: string, projectId: string, revision: int,
                     w: Write): Result<(Table, nat), Abort> {
    if !Matches(t, id, organizationId, projectId, revision) then Ok((t, 0))
    else if w.head.None? then Err(CheckFailed)
    else
      var row := Written(t[id], w);
      var refused := Trigger(t[id], row);
      if refused.Some? then Err(refused.value)
      else if !ColumnsOk(row) then Err(CheckFailed)
      else Ok((t[id := row], 1))
  }

  // ---------- reading ----------

  /** A row is accepted when its document is valid and says the same as its columns. */
  predicate Accepted(x: Setting, id: string, row: Row) {
    var r := row.register;
    && r.identity.schemaVersion == 1
    && r.identity.baseline == row.baseline && r.identity.baseline.fingerprint == row.fingerprint
    && x.verify(r)
    && r.id == id && r.projectId == row.projectId && r.identity.runbookId == row.runbookId
    && r.identity.schemaVersion == row.schemaVersion && r.revision == row.revision
    && Head(r) == Some(row.head) && r.identity.createdAt == row.createdAt && r.updatedAt == row.updatedAt
  }

  function ReadRow(x: Setting, id: string, row: Row): Result<Register, Refusal> {
    var r := row.register;
    if r.identity.schemaVersion != 1 then Err(StoredInvalid)
    else if r.identity.baseline != row.baseline || r.identity.baseline.fingerprint != row.fingerprint
        then Err(BaselineImmutable)
    else if Head(r).None? then Err(HeadMissing)
    else if !Accepted(x, id, row) then Err(IntegrityFailed)
    else Ok(r)
  }

  predicate Stored(t: Table, organizationId: string, projectId: string, id: string) {
    id in t && t[id].organizationId == organizationId && t[id].projectId == projectId
  }

  function Get(x: Setting, t: Table, organizationId: string, projectId: string,
               id: string): Result<Option<Register>, Refusal> {
    if !Stored(t, organizationId, projectId, id) then Ok(None)
    else match ReadRow(x, id, t[id]) case Ok(r) => Ok(Some(r)) case Err(e) => Err(e)
  }

  // ---------- writing ----------

  function NewRow(organizationId: string, r: Register): Row
    requires Head(r).Some?
  {
    Row(organizationId, r.projectId, r.identity.runbookId, r.identity.schemaVersion, r.identity.baseline.fingerprint,
        r.identity.baseline, r, r.revision, Head(r).value, r.identity.createdAt, r.updatedAt)
  }

  /** The statement of a create, after its checks. */
  function CreateRow(x: Setting, t: Table, organizationId: string, projectId: string, r: Register): Result<Table,
                     Refusal> {
    if r.projectId != projectId then Err(ScopeInvalid)
    else if !x.verify(r) then Err(IntegrityFailed)
    else if Head(r).None? then Err(HeadMissing)
    else
      match InsertRow(x, t, r.id, NewRow(organizationId, r))
      case Ok(n) => Ok(n)
      case Err(a) => Err(WriteFailed(a))
  }

  /** A put that has read and checked, and is about to write. `seen` is the register it read. */
  datatype Pending = Pending(organizationId: string, projectId: string, register: Register, expectedRevision: int,
                             seen: Option<Register>)

  function PreparePut(x: Setting, t: Table, organizationId: string, projectId: string, r: Register,
                      expectedRevision: int)
    : Result<Pending, Refusal>
  {
    if r.projectId != projectId then Err(ScopeInvalid)
    else
      match Get(x, t, organizationId, projectId, r.id)
      case Err(e) => Err(e)
      case Ok(current) =>
        if current.Some? && current.value.identity != r.identity then Err(BaselineImmutable)
        else if !x.verify(r) then Err(IntegrityFailed)
        else Ok(Pending(organizationId, projectId, r, expectedRevision, current))
  }

  function WriteOf(r: Register): Write {
    Write(r, r.revision, Head(r), r.updatedAt)
  }

  function CommitPut(t: Table, p: Pending): Result<Table, Refusal> {
    if Head(p.register).None? then Err(HeadMissing)
    else
      match UpdateRow(t, p.register.id, p.organizationId, p.projectId, p.expectedRevision, WriteOf(p.register))
      case Err(a) => Err(WriteFailed(a))
      case Ok((n, changed)) => if changed == 0 then Err(RevisionConflict) else Ok(n)
  }

  // ---------- runs ----------

  /** `used`: every register id ever stored. */
  datatype World = World(table: Table, pending: set<Pending>, used: set<string>)

  datatype Step =
    | Create(organizationId: string, projectId: string, register: Register)
    | Prepare(organizationId: string, projectId: string, register: Register, expectedRevision: int)
    | Commit(put: Pending)
    | Remove(ids: set<string>)

  /** What the stored columns ask of a document that is to replace the stored one. */
  predicate Agrees(row: Row, r: Register) {
    && r.projectId == row.projectId
    && r.identity.runbookId == row.runbookId && r.identity.schemaVersion == row.schemaVersion
    && r.identity.createdAt == row.createdAt && r.identity.baseline == row.baseline
  }

  /**
   Ids are not used again after a removal. A put that found nothing stored runs only if nothing is stored
   still, or if what was created meanwhile has its identity.
   */
  predicate Enabled(w: World, step: Step) {
    match step
    case Create(o, p, r) => r.id in w.used ==> r.id in w.table
    case Prepare(o, p, r, e) => true
    case Commit(p) =>
      p in w.pending
      && (p.seen.None? && Stored(w.table, p.organizationId, p.projectId, p.register.id)
          ==> w.table[p.register.id].register.identity == p.register.identity)
    case Remove(ids) => true
  }

  function Next(x: Setting, w: World, step: Step): World {
    match step
    case Create(o, p, r) =>
      (match CreateRow(x, w.table, o, p, r) case Ok(t) => w.(table := t, used := w.used + {r.id}) case Err(_) => w)
    case Prepare(o, p, r, e) =>
      (match PreparePut(x, w.table, o, p, r, e) case Ok(q) => w.(pending := w.pending + {q}) case Err(_) => w)
    case Commit(p) => (match CommitPut(w.table, p) case Ok(t) => w.(table := t) case Err(_) => w)
    case Remove(ids) => w.(table := w.table - ids)
  }

  function Play(x: Setting, w: World, steps: seq<Step>): World
    decreases |steps|
  {
    if steps == [] then w else Next(x, Play(x, w, steps[..|steps| - 1]), steps[|steps| - 1])
  }

  predicate AllEnabled(x: Setting, w: World, steps: seq<Step>)
    decreases |steps|
  {
    steps == []
    || (AllEnabled(x, w, steps[..|steps| - 1]) && Enabled(Play(x, w, steps[..|steps| - 1]), steps[|steps| - 1]))
  }

  // ---------- every row that is written is accepted ----------

  ghost predicate AllAccepted(x: Setting, t: Table) {
    forall id :: id in t ==> Accepted(x, id, t[id])
  }

  ghost predicate OneForEachRunbook(t: Table) {
    forall a, b :: a in t && b in t && SameRunbook(t[a], t[b]) ==> a == b
  }

  /** A put that read a register carries that register's identity; the stored one cannot have another. */
  ghost predicate Faithful(x: Setting, w: World, p: Pending) {
    && p.register.projectId == p.projectId && x.verify(p.register)
    && (p.seen.Some? ==> p.register.id in w.used)
    && (p.seen.Some? && Stored(w.table, p.organizationId, p.projectId, p.register.id) ==>
          w.table[p.register.id].register.identity == p.register.identity)
  }

  ghost predicate Sound(x: Setting, w: World) {
    && AllAccepted(x, w.table) && OneForEachRunbook(w.table) && w.table.Keys <= w.used
    && forall p :: p in w.pending ==> Faithful(x, w, p)
  }

  /**
   A put over a stored row leaves a row that reading accepts exactly when the new document agrees with the
   columns the update does not set.
   */
  lemma PutIsAcceptedIff(x: Setting, t: Table, p: Pending)
    requires AllAccepted(x, t) && x.verify(p.register) && CommitPut(t, p).Ok?
    ensures AllAccepted(x, CommitPut(t, p).value) <==> Agrees(t[p.register.id], p.register)
  {
    var n := CommitPut(t, p).value;
    var id := p.register.id;
    assert Accepted(x, id, t[id]);
    assert n == t[id := Written(t[id], WriteOf(p.register))];
    if Agrees(t[id], p.register) {
      assert Accepted(x, id, n[id]);
    }
  }

  lemma CreateKeepsSound(x: Setting, w: World, o: string, p: string, r: Register)
    requires Sound(x, w) && Enabled(w, Create(o, p, r))
    ensures Sound(x, Next(x, w, Create(o, p, r)))
  {
    var v := Next(x, w, Create(o, p, r));
    if CreateRow(x, w.table, o, p, r).Ok? {
      assert v.table == w.table[r.id := NewRow(o, r)];
      forall q | q in v.pending ensures Faithful(x, v, q) {
        assert Faithful(x, w, q);
      }
    }
  }

  lemma PrepareKeepsSound(x: Setting, w: World, o: string, p: string, r: Register, e: int)
    requires Sound(x, w)
    ensures Sound(x, Next(x, w, Prepare(o, p, r, e)))
  {
    if PreparePut(x, w.table, o, p, r, e).Ok? {
      var v := Next(x, w, Prepare(o, p, r, e));
      assert Stored(w.table, o, p, r.id) ==> Accepted(x, r.id, w.table[r.id]);
      forall q | q in v.pending ensures Faithful(x, v, q) {
        if q in w.pending { assert Faithful(x, w, q); }
      }
    }
  }

  lemma CommitAgrees(x: Setting, w: World, p: Pending)
    requires Sound(x, w) && Enabled(w, Commit(p)) && CommitPut(w.table, p).Ok?
    ensures Stored(w.table, p.organizationId, p.projectId, p.register.id)
    ensures w.table[p.register.id].register.identity == p.register.identity
    ensures Agrees(w.table[p.register.id], p.register) && x.verify(p.register)
  {
    assert Faithful(x, w, p);
    assert Accepted(x, p.register.id, w.table[p.register.id]);
  }

  /** Another document in the same columns. */
  lemma RewriteKeepsOthers(x: Setting, w: World, id: string, row: Row)
    requires Sound(x, w) && id in w.table && SameScope(w.table[id], row)
    requires row.register.identity == w.table[id].register.identity
    ensures OneForEachRunbook(w.table[id := row]) && w.table[id := row].Keys <= w.used
    ensures forall q :: q in w.pending ==> Faithful(x, w.(table := w.table[id := row]), q)
  {
    var v := w.(table := w.table[id := row]);
    forall q | q in w.pending ensures Faithful(x, v, q) {
      assert Faithful(x, w, q);
    }
  }

  ghost predicate SameScope(a: Row, b: Row) {
    b.organizationId == a.organizationId && b.projectId == a.projectId && b.runbookId == a.runbookId
  }

  lemma CommitKeepsSound(x: Setting, w: World, p: Pending)
    requires Sound(x, w) && Enabled(w, Commit(p))
    ensures Sound(x, Next(x, w, Commit(p)))
  {
    if CommitPut(w.table, p).Ok? {
      CommitAgrees(x, w, p);
      CommitMovesOn(x, w, p);
      PutIsAcceptedIff(x, w.table, p);
      RewriteKeepsOthers(x, w, p.register.id, CommitPut(w.table, p).value[p.register.id]);
    }
  }

  lemma RemoveKeepsSound(x: Setting, w: World, ids: set<string>)
    requires Sound(x, w)
    ensures Sound(x, Next(x, w, Remove(ids)))
  {
    var v := Next(x, w, Remove(ids));
    forall q | q in v.pending ensures Faithful(x, v, q) {
      assert Faithful(x, w, q);
    }
  }

  lemma StepKeepsSound(x: Setting, w: World, step: Step)
    requires Sound(x, w) && Enabled(w, step)
    ensures Sound(x, Next(x, w, step))
  {
    match step
    case Create(o, p, r) => CreateKeepsSound(x, w, o, p, r);
    case Prepare(o, p, r, e) => PrepareKeepsSound(x, w, o, p, r, e);
    case Commit(p) => CommitKeepsSound(x, w, p);
    case Remove(ids) => RemoveKeepsSound(x, w, ids);
  }

  const EMPTY := World(map[], {}, {})

  /** In every reachable table each row is accepted, and no runbook has two registers. */
  lemma {:induction false} EveryRunIsAccepted(x: Setting, w: World, steps: seq<Step>)
    requires w == EMPTY || Sound(x, w)
    requires AllEnabled(x, w, steps)
    ensures Sound(x, Play(x, w, steps))
    decreases |steps|
  {
    if steps != [] {
      EveryRunIsAccepted(x, w, steps[..|steps| - 1]);
      StepKeepsSound(x, Play(x, w, steps[..|steps| - 1]), steps[|steps| - 1]);
    }
  }

  // ---------- no update is lost ----------

  /** The documents that puts stored under one id, in order. */
  function Log(x: Setting, w: World, steps: seq<Step>, id: string): seq<Register>
    decreases |steps|
  {
    if steps == [] then []
    else
      var before := Play(x, w, steps[..|steps| - 1]);
      var step := steps[|steps| - 1];
      Log(x, w, steps[..|steps| - 1], id)
      + if step.Commit? && step.put.register.id == id && CommitPut(before.table, step.put).Ok? then [step.put.register]
          else []
  }

  /** The same register, however many puts later. */
  ghost predicate Continues(before: Row, after: Row) {
    && after.organizationId == before.organizationId && after.projectId == before.projectId
    && after.runbookId == before.runbookId && after.schemaVersion == before.schemaVersion
    && after.fingerprint == before.fingerprint && after.baseline == before.baseline
        && after.createdAt == before.createdAt
    && after.register.identity == before.register.identity
  }

  /** The stored row is where the accepted puts have brought it. */
  ghost predicate AtEndOf(start: Row, log: seq<Register>, row: Row) {
    && Continues(start, row) && row.revision == start.revision + |log|
    && (forall i :: 0 <= i < |log| ==> log[i].revision == start.revision + i + 1)
    && (if log == [] then row == start else row.register == log[|log| - 1])
  }

  /** A put is accepted only over the revision it expects, and leaves the next one. */
  lemma CommitMovesOn(x: Setting, w: World, p: Pending)
    requires Sound(x, w) && Enabled(w, Commit(p)) && CommitPut(w.table, p).Ok?
    ensures var row, after := w.table[p.register.id], CommitPut(w.table, p).value[p.register.id];
            && row.revision == p.expectedRevision && after.revision == row.revision + 1
            && after.register == p.register && p.register.revision == after.revision && Continues(row, after)
    ensures CommitPut(w.table, p).value == w.table[p.register.id := CommitPut(w.table, p).value[p.register.id]]
  {
    CommitAgrees(x, w, p);
  }

  lemma StepExtendsLog(x: Setting, w: World, step: Step, id: string, start: Row, log: seq<Register>)
    requires Sound(x, w) && Enabled(w, step) && id in w.used
    requires id in w.table ==> AtEndOf(start, log, w.table[id])
    ensures id in Next(x, w, step).used
    ensures id in Next(x, w, step).table ==>
              AtEndOf(start, if step.Commit? && step.put.register.id == id && CommitPut(w.table, step.put).Ok?
                             then log + [step.put.register] else log, Next(x, w, step).table[id])
  {
    if step.Commit? {
      CommitExtendsLog(x, w, step.put, id, start, log);
    }
  }

  lemma CommitExtendsLog(x: Setting, w: World, p: Pending, id: string, start: Row, log: seq<Register>)
    requires Sound(x, w) && Enabled(w, Commit(p)) && id in w.used
    requires id in w.table ==> AtEndOf(start, log, w.table[id])
    ensures var t := Next(x, w, Commit(p)).table;
            id in t ==> AtEndOf(start, if p.register.id == id && CommitPut(w.table, p).Ok? then log + [p.register]
                                else log, t[id])
  {
    if CommitPut(w.table, p).Ok? {
      CommitMovesOn(x, w, p);
    }
  }

  /**
   The accepted puts of a register form one line: each raises the revision by one, the stored document is the
   last one accepted, and what the columns say never changes.
   */
  lemma {:induction false} PutsFormOneLine(x: Setting, w: World, steps: seq<Step>, id: string)
    requires Sound(x, w) && AllEnabled(x, w, steps) && id in w.table
    ensures id in Play(x, w, steps).used
    ensures id in Play(x, w, steps).table ==> AtEndOf(w.table[id], Log(x, w, steps, id), Play(x, w, steps).table[id])
    decreases |steps|
  {
    if steps != [] {
      var init := steps[..|steps| - 1];
      PutsFormOneLine(x, w, init, id);
      EveryRunIsAccepted(x, w, init);
      StepExtendsLog(x, Play(x, w, init), steps[|steps| - 1], id, w.table[id], Log(x, w, init, id));
      assert Log(x, w, init, id) + [] == Log(x, w, init, id);
    }
  }

  /**
   If a put built on the row some actor read is accepted after any run, the row it replaces is still that very
   row: no put accepted in between is overwritten unseen.
   */
  lemma {:induction false} NoLostUpdate(x: Setting, w: World, steps: seq<Step>, p: Pending)
    requires Sound(x, w) && AllEnabled(x, w, steps + [Commit(p)])
    requires p.register.id in w.table && w.table[p.register.id].revision == p.expectedRevision
    requires CommitPut(Play(x, w, steps).table, p).Ok?
    ensures Play(x, w, steps).table[p.register.id] == w.table[p.register.id]
    ensures Log(x, w, steps, p.register.id) == []
  {
    var all := steps + [Commit(p)];
    assert all[..|all| - 1] == steps;
    PutsFormOneLine(x, w, steps, p.register.id);
    EveryRunIsAccepted(x, w, steps);
    CommitMovesOn(x, Play(x, w, steps), p);
  }

  // ---------- the family that fails ----------

  /**
   A put that found nothing stored, followed by a create and then by the put's update: the columns come from
   the create, the document from the put, and with another baseline no later read accepts the row.
   */
  lemma LatePutMakesARowUnreadable(x: Setting, o: string, first: Register, second: Register)
    requires x.verify(first) && x.verify(second) && Head(first).Some? && Head(second).Some?
    requires second.id == first.id && second.projectId == first.projectId && second.revision == first.revision + 1
    requires (first.identity.runbookId, o, first.projectId) in x.runbooks
    requires first.identity.schemaVersion == 1 && first.identity.baseline.fingerprint != "" && first.revision >= 0
    requires second.identity.schemaVersion == 1 && second.identity.baseline != first.identity.baseline
    ensures var late := Pending(o, second.projectId, second, first.revision, None);
            && PreparePut(x, map[], o, second.projectId, second, first.revision) == Ok(late)
            && CreateRow(x, map[], o, first.projectId, first).Ok?
            && CommitPut(CreateRow(x, map[], o, first.projectId, first).value, late).Ok?
            && Get(x, CommitPut(CreateRow(x, map[], o, first.projectId, first).value, late).value, o, first.projectId,
                   first.id)
               == Err(BaselineImmutable)
  {
    var created := map[first.id := NewRow(o, first)];
    assert CreateRow(x, map[], o, first.projectId, first) == Ok(created);
  }

  // ---------- create, get and put as an actor calls them ----------

  predicate IsOfRunbook(t: Table, k: string, organizationId: string, projectId: string, runbookId: string) {
    k in t && t[k].runbookId == runbookId && t[k].organizationId == organizationId && t[k].projectId == projectId
  }

  function GetByRunbook(x: Setting, t: Table, organizationId: string, projectId: string, runbookId: string)
    : Result<Option<Register>, Refusal>
    requires OneForEachRunbook(t)
  {
    if k :| k in t && IsOfRunbook(t, k, organizationId, projectId, runbookId) then
      match ReadRow(x, k, t[k]) case Ok(r) => Ok(Some(r)) case Err(e) => Err(e)
    else Ok(None)
  }

  /** What a failed create falls back to: the register already stored under its id, or under its runbook. */
  function Existing(x: Setting, t: Table, organizationId: string, r: Register): Result<Option<Register>, Refusal>
    requires OneForEachRunbook(t)
  {
    match Get(x, t, organizationId, r.projectId, r.id)
    case Err(e) => Err(e)
    case Ok(Some(found)) => Ok(Some(found))
    case Ok(None) => GetByRunbook(x, t, organizationId, r.projectId, r.identity.runbookId)
  }

  function CreateAnswer(x: Setting, t: Table, organizationId: string, r: Register,
                        failure: Refusal): Result<Register, Refusal>
    requires OneForEachRunbook(t)
  {
    match Existing(x, t, organizationId, r)
    case Err(e) => Err(e)
    case Ok(None) => Err(failure)
    case Ok(Some(found)) =>
      if found.id == r.id && found.identity.runbookId == r.identity.runbookId
         && found.identity.baseline.fingerprint == r.identity.baseline.fingerprint then Ok(found)
      else Err(IdConflict)
  }

  /** Creating a register that is already stored changes nothing and answers with what is stored now. */
  lemma CreateAgainAnswersTheStored(x: Setting, w: World, o: string, r: Register)
    requires Sound(x, w) && x.verify(r) && Stored(w.table, o, r.projectId, r.id)
    requires w.table[r.id].runbookId == r.identity.runbookId
             && w.table[r.id].fingerprint == r.identity.baseline.fingerprint
    ensures CreateRow(x, w.table, o, r.projectId, r).Err?
    ensures CreateAnswer(x, w.table, o, r, CreateRow(x, w.table, o, r.projectId, r).error) == Ok(w.table[r.id].register)
  {
    assert Accepted(x, r.id, w.table[r.id]);
  }

  // ---------- what the calls come to, in terms of the document and the stored rows ----------

  /** The head of a document's ledger: its last row's hash, or the runbook's when it has none. */
  ghost predicate HeadIs(r: Register, head: string) {
    if |r.ledger| > 0 then head == r.ledger[|r.ledger| - 1] else head == r.identity.source.runbookLedgerHead
  }

  ghost predicate HasHead(r: Register) {
    !HeadIs(r, "")
  }

  /** The row holds the document, and each of its columns what the document says. */
  ghost predicate IsRowOf(row: Row, organizationId: string, r: Register) {
    && row.register == r && row.organizationId == organizationId && row.projectId == r.projectId
    && row.runbookId == r.identity.runbookId && row.schemaVersion == r.identity.schemaVersion
    && row.baseline == r.identity.baseline && row.fingerprint == r.identity.baseline.fingerprint
    && row.createdAt == r.identity.createdAt && row.updatedAt == r.updatedAt
    && row.revision == r.revision && HeadIs(r, row.head)
  }

  /** A stored row is read back exactly if its valid document says what each column says; else why it is refused. */
  lemma ReadIsDecided(x: Setting, id: string, row: Row)
    requires row.head != ""
    ensures var r := row.register;
            var result := ReadRow(x, id, row);
            && (result.Ok? <==>
                  r.identity.schemaVersion == 1 && x.verify(r) && r.id == id && IsRowOf(row, row.organizationId, r))
            && (result.Ok? ==> result.value == r)
            && (result == Err(StoredInvalid) <==> r.identity.schemaVersion != 1)
            && (result == Err(BaselineImmutable) <==>
                  r.identity.schemaVersion == 1
                  && (row.baseline != r.identity.baseline || row.fingerprint != r.identity.baseline.fingerprint))
  {
  }

  ghost predicate OnlyRowOf(t: Table, n: Table, organizationId: string, r: Register) {
    && n.Keys == t.Keys + {r.id} && IsRowOf(n[r.id], organizationId, r)
    && forall k :: k in t && k != r.id ==> n[k] == t[k]
  }

  ghost predicate AllColumnsOk(t: Table) {
    forall id :: id in t ==> ColumnsOk(t[id])
  }

  /** A register with another identity is stored under the document's id. */
  ghost predicate IsOther(t: Table, organizationId: string, r: Register) {
    Stored(t, organizationId, r.projectId, r.id) && t[r.id].register.identity != r.identity
  }

  ghost predicate IsExpected(t: Table, organizationId: string, r: Register, expectedRevision: int) {
    Stored(t, organizationId, r.projectId, r.id) && t[r.id].revision == expectedRevision
  }

  /** Exactly when a put is accepted, and the one reason for each refusal. */
  ghost predicate PutIsDecided(x: Setting, t: Table, n: Table, organizationId: string, projectId: string, r: Register,
                               expectedRevision: int, answer: Result<Register, Refusal>) {
    var checked := r.projectId == projectId && !IsOther(t, organizationId, r);
    && (answer == Err(ScopeInvalid) <==> r.projectId != projectId)
    && (answer == Err(BaselineImmutable) <==> r.projectId == projectId && IsOther(t, organizationId, r))
    && (answer == Err(IntegrityFailed) <==> checked && !x.verify(r))
    && (answer == Err(HeadMissing) <==> checked && x.verify(r) && !HasHead(r))
    && (answer == Err(RevisionConflict) <==>
          checked && x.verify(r) && HasHead(r) && !IsExpected(t, organizationId, r, expectedRevision))
    && (answer == Err(WriteFailed(RevisionRule)) <==>
          checked && x.verify(r) && HasHead(r) && IsExpected(t, organizationId, r, expectedRevision)
          && r.revision != expectedRevision + 1)
    && (answer.Ok? <==>
          checked && x.verify(r) && HasHead(r) && IsExpected(t, organizationId, r, expectedRevision)
          && r.revision == expectedRevision + 1)
    && (if answer.Ok? then answer.value == r && r.id in t && OnlyRowOf(t, n, organizationId, r) else n == t)
  }

  /** What a put finds out before it writes. */
  lemma PrepareDecides(x: Setting, t: Table, organizationId: string, projectId: string, r: Register,
                       expectedRevision: int)
    requires AllAccepted(x, t)
    ensures var prepared := PreparePut(x, t, organizationId, projectId, r, expectedRevision);
            if r.projectId != projectId then prepared == Err(ScopeInvalid)
            else if IsOther(t, organizationId, r) then prepared == Err(BaselineImmutable)
            else if !x.verify(r) then prepared == Err(IntegrityFailed)
            else
              && prepared.Ok? && prepared.value.register == r && prepared.value.expectedRevision == expectedRevision
              && prepared.value.organizationId == organizationId && prepared.value.projectId == projectId
  {
    if Stored(t, organizationId, r.projectId, r.id) {
      assert Accepted(x, r.id, t[r.id]);
    }
  }

  /** An uninterrupted put: prepared on the table and written to it. */
  lemma PutDecides(x: Setting, t: Table, organizationId: string, projectId: string, r: Register, expectedRevision: int)
    requires AllAccepted(x, t) && AllColumnsOk(t)
    ensures match PreparePut(x, t, organizationId, projectId, r, expectedRevision)
            case Err(e) => PutIsDecided(x, t, t, organizationId, projectId, r, expectedRevision, Err(e))
            case Ok(p) =>
              match CommitPut(t, p)
              case Err(e) => PutIsDecided(x, t, t, organizationId, projectId, r, expectedRevision, Err(e))
              case Ok(n) => PutIsDecided(x, t, n, organizationId, projectId, r, expectedRevision, Ok(r))
  {
    PrepareDecides(x, t, organizationId, projectId, r, expectedRevision);
    if r.projectId == projectId && IsExpected(t, organizationId, r, expectedRevision) {
      assert Accepted(x, r.id, t[r.id]) && ColumnsOk(t[r.id]);
    }
  }

  /** The table has room for a new register, and its runbook exists. */
  ghost predicate HasRoom(x: Setting, t: Table, organizationId: string, r: Register) {
    && r.id !in t
    && (forall k :: k in t ==> !IsOfRunbook(t, k, organizationId, r.projectId, r.identity.runbookId))
    && (r.identity.runbookId, organizationId, r.projectId) in x.runbooks
  }

  ghost predicate IsWellFormed(r: Register) {
    r.identity.schemaVersion == 1 && r.identity.baseline.fingerprint != "" && r.revision >= 0
  }

  /** Exactly when a create stores its document, and what it answers when it does not. */
  ghost predicate CreateIsDecided(x: Setting, t: Table, n: Table, organizationId: string, projectId: string,
                                  r: Register, answer: Result<Register, Refusal>) {
    if r.projectId != projectId then n == t && answer == Err(ScopeInvalid)
    else if !x.verify(r) then n == t && answer == Err(IntegrityFailed)
    else if HasHead(r) && IsWellFormed(r) && HasRoom(x, t, organizationId, r) then
      answer == Ok(r) && OnlyRowOf(t, n, organizationId, r)
    else n == t && FallsBack(x, t, organizationId, r, answer)
  }

  /** The stored register when it is the same one, a conflict when it is another, else the reason of the failure. */
  ghost predicate FallsBack(x: Setting, t: Table, organizationId: string, r: Register,
                            answer: Result<Register, Refusal>) {
    if Stored(t, organizationId, r.projectId, r.id) then
      var stored := t[r.id].register;
      answer == if stored.identity.runbookId == r.identity.runbookId
                   && stored.identity.baseline.fingerprint == r.identity.baseline.fingerprint
                then Ok(stored) else Err(IdConflict)
    else if exists k :: IsOfRunbook(t, k, organizationId, r.projectId, r.identity.runbookId) then
      answer == Err(IdConflict)
    else
      answer == Err(if !HasHead(r) then HeadMissing
                    else WriteFailed(if !IsWellFormed(r) then CheckFailed
                                     else if r.id in t then NotUnique else ForeignKey))
  }

  ghost predicate HasRegister(t: Table, organizationId: string, r: Register) {
    exists k :: IsOfRunbook(t, k, organizationId, r.projectId, r.identity.runbookId)
  }

  function InsertFailure(t: Table, r: Register): Refusal {
    if Head(r).None? then HeadMissing
    else WriteFailed(if r.identity.schemaVersion != 1 || r.identity.baseline.fingerprint == "" || r.revision < 0
                     then CheckFailed else if r.id in t then NotUnique else ForeignKey)
  }

  lemma CreateFallsBack(x: Setting, t: Table, organizationId: string, r: Register, failure: Refusal)
    requires AllAccepted(x, t) && OneForEachRunbook(t)
    requires HasRegister(t, organizationId, r) || failure == InsertFailure(t, r)
    ensures FallsBack(x, t, organizationId, r, CreateAnswer(x, t, organizationId, r, failure))
  {
    if Stored(t, organizationId, r.projectId, r.id) {
      assert Accepted(x, r.id, t[r.id]);
    }
    forall k | IsOfRunbook(t, k, organizationId, r.projectId, r.identity.runbookId) ensures Accepted(x, k, t[k]) {
    }
  }

  /** The insert of a checked document succeeds exactly if it is well formed and there is room. */
  lemma InsertDecides(x: Setting, t: Table, organizationId: string, r: Register)
    requires x.verify(r)
    ensures var result := CreateRow(x, t, organizationId, r.projectId, r);
            && (result.Ok? <==> HasHead(r) && IsWellFormed(r) && HasRoom(x, t, organizationId, r))
            && (result.Ok? ==> OnlyRowOf(t, result.value, organizationId, r))
            && (result.Err? ==> !result.error.ScopeInvalid? && !result.error.IntegrityFailed?)
            && (result.Err? && !HasRegister(t, organizationId, r) ==> result.error == InsertFailure(t, r))
  {
    if Head(r).Some? {
      PlaceIsTakenIff(t, organizationId, r);
    }
  }

  /** An uninterrupted create: its insert, and what it falls back to. */
  lemma CreateDecides(x: Setting, t: Table, organizationId: string, projectId: string, r: Register)
    requires AllAccepted(x, t) && OneForEachRunbook(t)
    ensures match CreateRow(x, t, organizationId, projectId, r)
            case Ok(n) => CreateIsDecided(x, t, n, organizationId, projectId, r, Ok(r))
            case Err(e) =>
              CreateIsDecided(x, t, t, organizationId, projectId, r,
                              if e.ScopeInvalid? || e.IntegrityFailed? then Err(e)
                              else CreateAnswer(x, t, organizationId, r, e))
  {
    if r.projectId == projectId && x.verify(r) {
      InsertDecides(x, t, organizationId, r);
      var result := CreateRow(x, t, organizationId, projectId, r);
      if result.Err? {
        CreateFallsBack(x, t, organizationId, r, result.error);
      }
    }
  }

  lemma PlaceIsTakenIff(t: Table, organizationId: string, r: Register)
    requires Head(r).Some?
    ensures TakesAPlace(t, r.id, NewRow(organizationId, r)) <==>
              r.id in t || exists k :: IsOfRunbook(t, k, organizationId, r.projectId, r.identity.runbookId)
  {
    if k :| k in t && SameRunbook(t[k], NewRow(organizationId, r)) {
      assert IsOfRunbook(t, k, organizationId, r.projectId, r.identity.runbookId);
    }
    if k :| IsOfRunbook(t, k, organizationId, r.projectId, r.identity.runbookId) {
      assert SameRunbook(t[k], NewRow(organizationId, r));
    }
  }

  lemma CreateKeepsTable(x: Setting, t: Table, organizationId: string, projectId: string, r: Register)
    requires AllAccepted(x, t) && OneForEachRunbook(t) && AllColumnsOk(t)
    requires CreateRow(x, t, organizationId, projectId, r).Ok?
    ensures var n := CreateRow(x, t, organizationId, projectId, r).value;
            AllAccepted(x, n) && OneForEachRunbook(n) && AllColumnsOk(n)
  {
    assert CreateRow(x, t, organizationId, projectId, r).value == t[r.id := NewRow(organizationId, r)];
  }

  lemma PutKeepsTable(x: Setting, t: Table, organizationId: string, projectId: string, r: Register,
                      expectedRevision: int)
    requires AllAccepted(x, t) && OneForEachRunbook(t) && AllColumnsOk(t)
    requires PreparePut(x, t, organizationId, projectId, r, expectedRevision).Ok?
    requires CommitPut(t, PreparePut(x, t, organizationId, projectId, r, expectedRevision).value).Ok?
    ensures var n := CommitPut(t, PreparePut(x, t, organizationId, projectId, r, expectedRevision).value).value;
            AllAccepted(x, n) && OneForEachRunbook(n) && AllColumnsOk(n)
  {
    assert Accepted(x, r.id, t[r.id]);
    PutIsAcceptedIff(x, t, PreparePut(x, t, organizationId, projectId, r, expectedRevision).value);
  }

  class RegisterRepository {
    const x: Setting
    var table: Table

    ghost predicate Valid()
      reads this
    {
      AllAccepted(x, table) && OneForEachRunbook(table) && AllColumnsOk(table)
    }

    constructor (x: Setting)
      ensures this.x == x && table == map[] && Valid()
    {
      this.x := x;
      table := map[];
    }

    method Create(organizationId: string, projectId: string, r: Register) returns (answer: Result<Register, Refusal>)
      requires Valid()
      modifies this`table
      ensures Valid()
      ensures CreateIsDecided(x, old(table), table, organizationId, projectId, r, answer)
      ensures match CreateRow(x, old(table), organizationId, projectId, r)
              case Ok(t) => table == t && answer == Ok(r)
              case Err(e) =>
                && table == old(table)
                && answer == if e.ScopeInvalid? || e.IntegrityFailed? then Err(e)
                    else CreateAnswer(x, table, organizationId, r, e)
    {
      CreateDecides(x, table, organizationId, projectId, r);
      var created := CreateRow(x, table, organizationId, projectId, r);
      match created
      case Ok(t) =>
        CreateKeepsTable(x, table, organizationId, projectId, r);
        table := t;
        answer := Ok(r);
      case Err(e) =>
        answer := if e.ScopeInvalid? || e.IntegrityFailed? then Err(e)
            else CreateAnswer(x, table, organizationId, r, e);
    }

    method Put(organizationId: string, projectId: string, r: Register,
               expectedRevision: int) returns (answer: Result<Register, Refusal>)
      requires Valid()
      modifies this`table
      ensures Valid()
      ensures PutIsDecided(x, old(table), table, organizationId, projectId, r, expectedRevision, answer)
      ensures match PreparePut(x, old(table), organizationId, projectId, r, expectedRevision)
              case Err(e) => table == old(table) && answer == Err(e)
              case Ok(p) =>
                match CommitPut(old(table), p)
                case Err(e) => table == old(table) && answer == Err(e)
                case Ok(t) => table == t && answer == Ok(r)
    {
      PutDecides(x, table, organizationId, projectId, r, expectedRevision);
      var prepared := PreparePut(x, table, organizationId, projectId, r, expectedRevision);
      if prepared.Err? {
        return Err(prepared.error);
      }
      var committed := CommitPut(table, prepared.value);
      if committed.Err? {
        return Err(committed.error);
      }
      PutKeepsTable(x, table, organizationId, projectId, r, expectedRevision);
      table := committed.value;
      answer := Ok(r);
    }
  }
}
