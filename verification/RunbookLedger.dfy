/**
 The event-day runbook tables and the triggers that guard them. One runbook's rows are kept together as
 a book: its root row, its tasks, and its transition, ledger and receipt rows in insertion order. Nothing
 here assumes which statements arrive or in what order; every fact holds for any interleaving of
 single-row statements while the project and the root row stand and no purge lease is held.
 */
module RunbookLedger {
  import opened Results

  datatype Scope = Scope(organizationId: string, projectId: string)

  /** The columns of the root row that no update may change. */
  datatype Source = Source(scope: Scope, activityHead: string, definition: string)

  /** The columns of a task that no update may change. */
  datatype TaskDefinition = TaskDefinition(scope: Scope, phaseId: string, ownerRole: Option<string>, content: string)

  datatype Task = Task(definition: TaskDefinition, status: string, revision: int,
                       lastTransition: Option<string>, updatedAt: int)

  datatype Actor = Actor(kind: string, id: string, source: string, session: string)

  datatype Transition = Transition(
    id: string, taskId: string, scope: Scope, sequence: int,
    expectedRevision: int, revision: int, fromStatus: string, toStatus: string,
    actor: Actor, reasonCode: Option<string>, clientId: string, clientSequence: int, clientOccurredAt: string,
    acceptedAt: int, evidence: seq<(string, string)>,
    idempotencyKey: string, inputFingerprint: string, correlationId: string)

  datatype LedgerRow = LedgerRow(transitionId: string, scope: Scope, sequence: int, actor: Actor,
                                 occurredAt: int, previousHash: string, hash: string)

  /** The answer a command was given, as its receipt stores it. */
  datatype Answer = Applied(taskId: string, transitionId: string, revision: int, sequence: int, acceptedAt: int)

  datatype Receipt = Receipt(transitionId: string, scope: Scope, idempotencyKey: string,
                             inputFingerprint: string, correlationId: string, answer: Answer, occurredAt: int)

  datatype Book = Book(source: Source, sequence: int, head: string, updatedAt: int,
                       tasks: map<string, Task>, transitions: seq<Transition>,
                       ledger: seq<LedgerRow>, receipts: seq<Receipt>)

  datatype EvidenceTable = TransitionRows | LedgerRows | ReceiptRows

  /**
   One SQL statement on one runbook. An update names the columns it sets (None leaves a column alone) and
   the row values its WHERE clause asks for; a statement that matches no row changes nothing.
   */
  datatype Statement =
    | InsertTask(taskId: string, task: Task)
    | UpdateTask(taskId: string, taskWhere: Option<(int, string)>, definition: Option<TaskDefinition>,
                 status: string, revision: int, lastTransition: Option<string>, taskAt: int)
    | DeleteTask(taskId: string)
    | InsertTransition(transition: Transition)
    | InsertLedger(entry: LedgerRow)
    | InsertReceipt(receipt: Receipt)
    | UpdateBook(bookWhere: Option<(int, string)>, source: Option<Source>, sequence: int, head: string, bookAt: int)
    | RewriteEvidence(table: EvidenceTable, row: nat)
    | DeleteEvidence(table: EvidenceTable, row: nat)

  datatype Abort =
    | TaskBaselineInvalid | TaskDefinitionImmutable | TaskRevisionInvalid | TaskTransitionInvalid
    | TaskRevisionConflict | SequenceConflict
    | LedgerTransitionInvalid | LedgerPreviousHashInvalid
    | ReceiptTransitionInvalid
    | BaselineImmutable | SequenceInvalid
    | AppendOnly | CheckFailed | NotUnique

  // ---------- the triggers and constraints ----------

  predicate HasTransitionFor(ts: seq<Transition>, taskId: string, id: string, revision: int, status: string) {
    exists i :: 0 <= i < |ts| && ts[i].id == id && ts[i].taskId == taskId && ts[i].revision == revision
        && ts[i].toStatus == status
  }

  predicate HasTransition(ts: seq<Transition>, taskId: string) {
    exists i :: 0 <= i < |ts| && ts[i].taskId == taskId
  }

  predicate HasTransitionOf(ts: seq<Transition>, l: LedgerRow) {
    exists i :: 0 <= i < |ts| && ts[i].id == l.transitionId && ts[i].scope == l.scope && ts[i].sequence == l.sequence
                && ts[i].actor == l.actor && ts[i].acceptedAt == l.occurredAt
  }

  predicate HasCommandOf(ts: seq<Transition>, r: Receipt) {
    exists i :: 0 <= i < |ts| && ts[i].id == r.transitionId && ts[i].scope == r.scope
        && ts[i].idempotencyKey == r.idempotencyKey
                && ts[i].inputFingerprint == r.inputFingerprint && ts[i].correlationId == r.correlationId
  }

  predicate HasEntry(ls: seq<LedgerRow>, scope: Scope, sequence: int, previous: string, hash: string) {
    exists i :: 0 <= i < |ls| && ls[i].scope == scope && ls[i].sequence == sequence
                && ls[i].previousHash == previous && ls[i].hash == hash
  }

  predicate TransitionIsNew(ts: seq<Transition>, t: Transition) {
    forall i :: 0 <= i < |ts| ==>
      && ts[i].id != t.id && ts[i].sequence != t.sequence && ts[i].idempotencyKey != t.idempotencyKey
      && !(ts[i].clientId == t.clientId && ts[i].clientSequence == t.clientSequence)
  }

  predicate EntryIsNew(ls: seq<LedgerRow>, l: LedgerRow) {
    forall i :: 0 <= i < |ls| ==> ls[i].sequence != l.sequence && ls[i].transitionId != l.transitionId
  }

  predicate ReceiptIsNew(rs: seq<Receipt>, r: Receipt) {
    forall i :: 0 <= i < |rs| ==> rs[i].idempotencyKey != r.idempotencyKey && rs[i].transitionId != r.transitionId
  }

  predicate TransitionColumnsOk(t: Transition) {
    && t.sequence >= 1 && t.expectedRevision >= 0 && t.revision == t.expectedRevision + 1
    && t.fromStatus != "" && t.toStatus != "" && t.clientSequence >= 1
  }

  /** `taken`: transition ids already used by other runbooks. */
  function AddTransition(b: Book, t: Transition, taken: set<string>): Result<Book, Abort> {
    if !(t.taskId in b.tasks && b.tasks[t.taskId].definition.scope == t.scope
         && b.tasks[t.taskId].revision == t.expectedRevision && b.tasks[t.taskId].status == t.fromStatus) then
      Err(TaskRevisionConflict)
    else if !(b.source.scope == t.scope && b.sequence + 1 == t.sequence) then Err(SequenceConflict)
    else if !TransitionColumnsOk(t) then Err(CheckFailed)
    else if t.id in taken || !TransitionIsNew(b.transitions, t) then Err(NotUnique)
    else Ok(b.(transitions := b.transitions + [t]))
  }

  function AddEntry(b: Book, l: LedgerRow): Result<Book, Abort> {
    if !HasTransitionOf(b.transitions, l) then Err(LedgerTransitionInvalid)
    else if !(b.source.scope == l.scope && b.head == l.previousHash) then Err(LedgerPreviousHashInvalid)
    else if l.sequence < 1 || l.previousHash == "" || l.hash == "" then Err(CheckFailed)
    else if !EntryIsNew(b.ledger, l) then Err(NotUnique)
    else Ok(b.(ledger := b.ledger + [l]))
  }

  function AddReceipt(b: Book, r: Receipt): Result<Book, Abort> {
    if !HasCommandOf(b.transitions, r) then Err(ReceiptTransitionInvalid)
    else if !ReceiptIsNew(b.receipts, r) then Err(NotUnique)
    else Ok(b.(receipts := b.receipts + [r]))
  }

  function AddTask(b: Book, taskId: string, task: Task): Result<Book, Abort> {
    if !(b.source.scope == task.definition.scope && b.sequence == 0 && b.head == b.source.activityHead) then
      Err(TaskBaselineInvalid)
    else if task.status == "" || task.revision < 0 then Err(CheckFailed)
    else if taskId in b.tasks then Err(NotUnique)
    else Ok(b.(tasks := b.tasks[taskId := task]))
  }

  function ChangeTask(b: Book, taskId: string, now: Task): Result<Book, Abort>
    requires taskId in b.tasks
  {
    var was := b.tasks[taskId];
    if now.definition != was.definition then Err(TaskDefinitionImmutable)
    else if now.revision != was.revision + 1 || now.lastTransition == None then Err(TaskRevisionInvalid)
    else if !HasTransitionFor(b.transitions, taskId, now.lastTransition.value, now.revision, now.status) then
      Err(TaskTransitionInvalid)
    else if now.status == "" then Err(CheckFailed)
    else Ok(b.(tasks := b.tasks[taskId := now]))
  }

  /** No trigger guards a task's row, but its transitions go with it, and theirs stops that. */
  function RemoveTask(b: Book, taskId: string): Result<Book, Abort> {
    if HasTransition(b.transitions, taskId) then Err(AppendOnly) else Ok(b.(tasks := b.tasks - {taskId}))
  }

  function ChangeBook(b: Book, source: Source, sequence: int, head: string, at: int): Result<Book, Abort> {
    if source != b.source then Err(BaselineImmutable)
    else if !((sequence == b.sequence && head == b.head)
              || (sequence == b.sequence + 1 && HasEntry(b.ledger, source.scope, sequence, b.head, head))) then
      Err(SequenceInvalid)
    else if head == "" || sequence < 0 then Err(CheckFailed)
    else Ok(b.(source := source, sequence := sequence, head := head, updatedAt := at))
  }

  function RowCount(b: Book, table: EvidenceTable): nat {
    match table
    case TransitionRows => |b.transitions|
    case LedgerRows => |b.ledger|
    case ReceiptRows => |b.receipts|
  }

  function Execute(b: Book, s: Statement, taken: set<string>): Result<Book, Abort> {
    match s
    case InsertTask(taskId, task) => AddTask(b, taskId, task)
    case UpdateTask(taskId, wanted, definition, status, revision, last, at) =>
      if taskId !in b.tasks || (wanted.Some? && wanted.value != (b.tasks[taskId].revision, b.tasks[taskId].status))
          then Ok(b)
      else ChangeTask(b, taskId, Task(if definition.Some? then definition.value else b.tasks[taskId].definition,
                                      status, revision, last, at))
    case DeleteTask(taskId) => RemoveTask(b, taskId)
    case InsertTransition(t) => AddTransition(b, t, taken)
    case InsertLedger(l) => AddEntry(b, l)
    case InsertReceipt(r) => AddReceipt(b, r)
    case UpdateBook(wanted, source, sequence, head, at) =>
      if wanted.Some? && wanted.value != (b.sequence, b.head) then Ok(b)
      else ChangeBook(b, if source.Some? then source.value else b.source, sequence, head, at)
    case RewriteEvidence(table, row) => if row < RowCount(b, table) then Err(AppendOnly) else Ok(b)
    case DeleteEvidence(table, row) => if row < RowCount(b, table) then Err(AppendOnly) else Ok(b)
  }

  // ---------- runs ----------

  /** A statement and the transition ids other runbooks hold when it arrives. */
  datatype Arrival = Arrival(statement: Statement, taken: set<string>)

  /** A statement that aborts leaves the book as it was. */
  function After(b: Book, a: Arrival): Book {
    match Execute(b, a.statement, a.taken)
    case Ok(b') => b'
    case Err(_) => b
  }

  function Play(b: Book, run: seq<Arrival>): Book {
    if run == [] then b else After(Play(b, run[..|run| - 1]), run[|run| - 1])
  }

  /** A runbook as it is created: nothing has happened and the chain starts at the source head. */
  predicate Opening(b: Book) {
    && b.sequence == 0 && b.head == b.source.activityHead
    && b.transitions == [] && b.ledger == [] && b.receipts == []
  }

  // ---------- what the triggers keep ----------

  /** Transitions are numbered 1..n and ledger rows 1..m, with sequence <= m <= n <= sequence + 1. */
  ghost predicate Numbered(b: Book) {
    && 0 <= b.sequence <= |b.ledger| <= |b.transitions| <= b.sequence + 1
    && (forall i :: 0 <= i < |b.transitions| ==> b.transitions[i].sequence == i + 1)
    && (forall i :: 0 <= i < |b.ledger| ==> b.ledger[i].sequence == i + 1)
    && (forall i :: 0 <= i < |b.ledger| ==> b.ledger[i].transitionId == b.transitions[i].id)
  }

  /** Every ledger row names the hash of the row before it, the first one the source head. */
  ghost predicate Chain(b: Book) {
    && (b.ledger != [] ==> b.ledger[0].previousHash == b.source.activityHead)
    && (forall i, j :: 0 <= i < j < |b.ledger| && j == i + 1 ==> b.ledger[j].previousHash == b.ledger[i].hash)
  }

  /** The head is the hash of the row the sequence points at. */
  ghost predicate HeadIsCurrent(b: Book) {
    && 0 <= b.sequence <= |b.ledger|
    && b.head == if b.sequence == 0 then b.source.activityHead else b.ledger[b.sequence - 1].hash
  }

  /**
   A stored transition starts no later than its task stands, and from its status if it starts where the task stands.
   */
  ghost predicate StartsWhereTaskStood(b: Book, t: Transition) {
    && t.taskId in b.tasks
    && t.revision == t.expectedRevision + 1
    && t.expectedRevision <= b.tasks[t.taskId].revision
    && (t.expectedRevision == b.tasks[t.taskId].revision ==> t.fromStatus == b.tasks[t.taskId].status)
  }

  ghost predicate TransitionsFit(b: Book) {
    forall i :: 0 <= i < |b.transitions| ==> StartsWhereTaskStood(b, b.transitions[i])
  }

  ghost predicate DistinctIds(b: Book) {
    forall i, j :: 0 <= i < j < |b.transitions| ==> b.transitions[i].id != b.transitions[j].id
  }

  ghost predicate Sound(b: Book) {
    Numbered(b) && Chain(b) && HeadIsCurrent(b) && TransitionsFit(b) && DistinctIds(b)
  }

  lemma NumberAt(b: Book, i: int)
    requires Numbered(b) && 0 <= i
    ensures i < |b.transitions| ==> b.transitions[i].sequence == i + 1
    ensures i < |b.ledger| ==> b.ledger[i].sequence == i + 1
  {
  }

  lemma TransitionIsNext(b: Book, t: Transition, taken: set<string>)
    requires Sound(b) && AddTransition(b, t, taken).Ok?
    ensures |b.transitions| == b.sequence && t.sequence == |b.transitions| + 1
    ensures StartsWhereTaskStood(b, t)
  {
    NumberAt(b, b.sequence);
  }

  lemma AddTransitionKeeps(b: Book, t: Transition, taken: set<string>)
    requires Sound(b) && AddTransition(b, t, taken).Ok?
    ensures Sound(AddTransition(b, t, taken).value)
  {
    TransitionIsNext(b, t, taken);
    OneMoreFits(b, t);
  }

  lemma OneMoreFits(b: Book, t: Transition)
    requires TransitionsFit(b) && StartsWhereTaskStood(b, t)
    ensures TransitionsFit(b.(transitions := b.transitions + [t]))
  {
    var b' := b.(transitions := b.transitions + [t]);
    forall i | 0 <= i < |b'.transitions| ensures StartsWhereTaskStood(b', b'.transitions[i]) {
      assert i < |b.transitions| ==> StartsWhereTaskStood(b, b.transitions[i]);
    }
  }

  /** What fits the tasks fits them in any book that has the same ones. */
  lemma SameTasksFit(b: Book, b': Book)
    requires TransitionsFit(b) && b'.tasks == b.tasks && b'.transitions == b.transitions
    ensures TransitionsFit(b')
  {
    forall i | 0 <= i < |b'.transitions| ensures StartsWhereTaskStood(b', b'.transitions[i]) {
      assert StartsWhereTaskStood(b, b.transitions[i]);
    }
  }

  lemma EntryIsNext(b: Book, l: LedgerRow)
    requires Numbered(b) && AddEntry(b, l).Ok?
    ensures |b.ledger| == b.sequence < |b.transitions|
    ensures l.sequence == b.sequence + 1 && l.transitionId == b.transitions[b.sequence].id
  {
    var i :| 0 <= i < |b.transitions| && b.transitions[i].id == l.transitionId
        && b.transitions[i].sequence == l.sequence;
    NumberAt(b, i);
  }

  lemma AddEntryKeeps(b: Book, l: LedgerRow)
    requires Sound(b) && AddEntry(b, l).Ok?
    ensures Sound(AddEntry(b, l).value)
  {
    EntryIsNext(b, l);
    EntryKeepsNumbers(b, l);
    EntryKeepsChain(b, l);
    SameTasksFit(b, b.(ledger := b.ledger + [l]));
  }

  lemma EntryKeepsNumbers(b: Book, l: LedgerRow)
    requires Numbered(b) && |b.ledger| == b.sequence < |b.transitions|
    requires l.sequence == b.sequence + 1 && l.transitionId == b.transitions[b.sequence].id
    ensures Numbered(b.(ledger := b.ledger + [l]))
  {
  }

  lemma EntryKeepsChain(b: Book, l: LedgerRow)
    requires Chain(b) && HeadIsCurrent(b) && |b.ledger| == b.sequence && l.previousHash == b.head
    ensures Chain(b.(ledger := b.ledger + [l])) && HeadIsCurrent(b.(ledger := b.ledger + [l]))
  {
  }

  lemma ChangeTaskKeeps(b: Book, taskId: string, now: Task)
    requires Sound(b) && taskId in b.tasks && ChangeTask(b, taskId, now).Ok?
    ensures Sound(ChangeTask(b, taskId, now).value)
  {
    var b' := ChangeTask(b, taskId, now).value;
    forall i | 0 <= i < |b'.transitions| ensures StartsWhereTaskStood(b', b'.transitions[i]) {
      assert StartsWhereTaskStood(b, b.transitions[i]);
    }
  }

  lemma AddTaskKeeps(b: Book, taskId: string, task: Task)
    requires Sound(b) && AddTask(b, taskId, task).Ok?
    ensures Sound(AddTask(b, taskId, task).value)
  {
    var b' := AddTask(b, taskId, task).value;
    forall i | 0 <= i < |b'.transitions| ensures StartsWhereTaskStood(b', b'.transitions[i]) {
      assert StartsWhereTaskStood(b, b.transitions[i]);
    }
  }

  lemma RemoveTaskKeeps(b: Book, taskId: string)
    requires Sound(b) && RemoveTask(b, taskId).Ok?
    ensures Sound(RemoveTask(b, taskId).value)
  {
    var b' := RemoveTask(b, taskId).value;
    forall i | 0 <= i < |b'.transitions| ensures StartsWhereTaskStood(b', b'.transitions[i]) {
      assert StartsWhereTaskStood(b, b.transitions[i]);
    }
  }

  lemma ChangeBookKeeps(b: Book, source: Source, sequence: int, head: string, at: int)
    requires Sound(b) && ChangeBook(b, source, sequence, head, at).Ok?
    ensures Sound(ChangeBook(b, source, sequence, head, at).value)
  {
    var b' := ChangeBook(b, source, sequence, head, at).value;
    if sequence == b.sequence + 1 {
      var i :| 0 <= i < |b.ledger| && b.ledger[i].sequence == sequence && b.ledger[i].hash == head;
      NumberAt(b, i);
    }
    SameTasksFit(b, b');
    SameRowsStayNumbered(b, b');
  }

  lemma SameRowsStayNumbered(b: Book, b': Book)
    requires Numbered(b) && b'.transitions == b.transitions && b'.ledger == b.ledger
    requires b.sequence <= b'.sequence <= |b.ledger|
    ensures Numbered(b')
  {
  }

  lemma AddReceiptKeeps(b: Book, r: Receipt)
    requires Sound(b) && AddReceipt(b, r).Ok?
    ensures Sound(AddReceipt(b, r).value)
  {
    var b' := AddReceipt(b, r).value;
    forall i | 0 <= i < |b'.transitions| ensures StartsWhereTaskStood(b', b'.transitions[i]) {
      assert StartsWhereTaskStood(b, b.transitions[i]);
    }
  }

  /** Every accepted statement keeps the numbering, the chain, the head and the fit of the transitions. */
  lemma EveryStatementKeepsSound(b: Book, a: Arrival)
    requires Sound(b)
    ensures Sound(After(b, a))
  {
    if Execute(b, a.statement, a.taken).Ok? {
      match a.statement
      case InsertTask(taskId, task) => AddTaskKeeps(b, taskId, task);
      case UpdateTask(taskId, wanted, definition, status, revision, last, at) =>
        if After(b, a) != b {
          ChangeTaskKeeps(b, taskId, Task(if definition.Some? then definition.value else b.tasks[taskId].definition,
                                          status, revision, last, at));
        }
      case DeleteTask(taskId) => RemoveTaskKeeps(b, taskId);
      case InsertTransition(t) => AddTransitionKeeps(b, t, a.taken);
      case InsertLedger(l) => AddEntryKeeps(b, l);
      case InsertReceipt(r) => AddReceiptKeeps(b, r);
      case UpdateBook(wanted, source, sequence, head, at) =>
        if After(b, a) != b {
          ChangeBookKeeps(b, if source.Some? then source.value else b.source, sequence, head, at);
        }
      case RewriteEvidence(_, _) =>
      case DeleteEvidence(_, _) =>
    }
  }

  /**
   Whatever statements arrive, in whatever order: transitions are numbered 1..n and ledger rows 1..m
   without gaps, n and m are the sequence or one more, the ledger is an unbroken chain from the source
   head, and the stored head is the hash of the row the sequence points at.
   */
  lemma {:induction false} EveryRunKeepsChain(b: Book, run: seq<Arrival>)
    requires Opening(b) || Sound(b)
    ensures Sound(Play(b, run))
  {
    if run != [] {
      EveryRunKeepsChain(b, run[..|run| - 1]);
      EveryStatementKeepsSound(Play(b, run[..|run| - 1]), run[|run| - 1]);
    }
  }

  predicate Deletes(run: seq<Arrival>, taskId: string) {
    exists i :: 0 <= i < |run| && run[i].statement == DeleteTask(taskId)
  }

  /** A task is safe from a run that never tries to delete it, and from every run once it has a transition. */
  predicate Safe(b: Book, run: seq<Arrival>, taskId: string) {
    HasTransition(b.transitions, taskId) || !Deletes(run, taskId)
  }

  lemma SafeBefore(b: Book, run: seq<Arrival>, taskId: string)
    requires run != [] && Safe(b, run, taskId)
    ensures Safe(b, run[..|run| - 1], taskId)
    ensures !HasTransition(b.transitions, taskId) ==> run[|run| - 1].statement != DeleteTask(taskId)
  {
    var rest := run[..|run| - 1];
    if Deletes(rest, taskId) {
      var i :| 0 <= i < |rest| && rest[i].statement == DeleteTask(taskId);
      assert run[i].statement == DeleteTask(taskId);
    }
  }

  lemma LongerHasTransition(ts: seq<Transition>, more: seq<Transition>, taskId: string)
    requires ts <= more && HasTransition(ts, taskId)
    ensures HasTransition(more, taskId)
  {
    var i :| 0 <= i < |ts| && ts[i].taskId == taskId;
    assert more[i].taskId == taskId;
  }

  lemma OneArrivalAppends(b: Book, a: Arrival)
    ensures b.transitions <= After(b, a).transitions
    ensures b.ledger <= After(b, a).ledger
    ensures b.receipts <= After(b, a).receipts
    ensures b.source == After(b, a).source
  {
  }

  /** Rows of the three evidence tables are only ever added. */
  lemma {:induction false} EvidenceIsAppendOnly(b: Book, run: seq<Arrival>)
    ensures b.transitions <= Play(b, run).transitions
    ensures b.ledger <= Play(b, run).ledger
    ensures b.receipts <= Play(b, run).receipts
    ensures b.source == Play(b, run).source
  {
    if run != [] {
      EvidenceIsAppendOnly(b, run[..|run| - 1]);
      OneArrivalAppends(Play(b, run[..|run| - 1]), run[|run| - 1]);
    }
  }

  lemma OneArrivalKeepsTask(b: Book, a: Arrival, taskId: string)
    requires taskId in b.tasks && (HasTransition(b.transitions, taskId) || a.statement != DeleteTask(taskId))
    ensures taskId in After(b, a).tasks && After(b, a).tasks[taskId].definition == b.tasks[taskId].definition
  {
  }

  lemma {:induction false} TransitionsRemain(b: Book, run: seq<Arrival>, taskId: string)
    requires HasTransition(b.transitions, taskId)
    ensures HasTransition(Play(b, run).transitions, taskId)
  {
    EvidenceIsAppendOnly(b, run);
    LongerHasTransition(b.transitions, Play(b, run).transitions, taskId);
  }

  /** A task that has a transition stays, with its definition, whatever arrives; so does one that nobody deletes. */
  lemma {:induction false} SafeTasksStay(b: Book, run: seq<Arrival>, taskId: string)
    requires taskId in b.tasks && Safe(b, run, taskId)
    ensures taskId in Play(b, run).tasks && Play(b, run).tasks[taskId].definition == b.tasks[taskId].definition
  {
    if run != [] {
      var rest := run[..|run| - 1];
      SafeBefore(b, run, taskId);
      SafeTasksStay(b, rest, taskId);
      if HasTransition(b.transitions, taskId) {
        TransitionsRemain(b, rest, taskId);
      }
      OneArrivalKeepsTask(Play(b, rest), run[|run| - 1], taskId);
    }
  }

  lemma OneDelete(b: Book, taskId: string) returns (run: seq<Arrival>)
    requires !HasTransition(b.transitions, taskId)
    ensures taskId !in Play(b, run).tasks
  {
    run := [Arrival(DeleteTask(taskId), {})];
    assert run[..0] == [];
    assert Play(b, run) == After(b, run[0]);
  }

  /** Exactly the tasks that have a transition are there to stay. */
  lemma {:induction false} TaskStaysForeverIff(b: Book, taskId: string)
    requires taskId in b.tasks
    ensures (forall run :: taskId in Play(b, run).tasks) <==> HasTransition(b.transitions, taskId)
  {
    if HasTransition(b.transitions, taskId) {
      forall run ensures taskId in Play(b, run).tasks {
        SafeTasksStay(b, run, taskId);
      }
    } else {
      var run := OneDelete(b, taskId);
      assert !(taskId in Play(b, run).tasks);
    }
  }

  // ---------- a task's history ----------

  /** The transition with the given id, if the book holds one. */
  function Find(ts: seq<Transition>, id: string): Option<Transition> {
    if ts == [] then None
    else if ts[|ts| - 1].id == id then Some(ts[|ts| - 1])
    else Find(ts[..|ts| - 1], id)
  }

  lemma {:induction false} FindFinds(ts: seq<Transition>, i: int)
    requires 0 <= i < |ts|
    requires forall k, j :: 0 <= k < j < |ts| ==> ts[k].id != ts[j].id
    ensures Find(ts, ts[i].id) == Some(ts[i])
  {
    if i < |ts| - 1 {
      FindFinds(ts[..|ts| - 1], i);
    }
  }

  /** The transition cited by the update, if any, that took the task from one state to the next. */
  function NewCitation(was: Book, now: Book, taskId: string): seq<Transition> {
    if taskId in was.tasks && taskId in now.tasks && now.tasks[taskId] != was.tasks[taskId]
       && now.tasks[taskId].lastTransition.Some?
       && Find(now.transitions, now.tasks[taskId].lastTransition.value).Some? then
      [Find(now.transitions, now.tasks[taskId].lastTransition.value).value]
    else []
  }

  /** The transitions cited by the updates that changed a task, in the order the updates were accepted. */
  function Citations(b: Book, run: seq<Arrival>, taskId: string): seq<Transition> {
    if run == [] then []
    else
      var rest := run[..|run| - 1];
      Citations(b, rest, taskId) + NewCitation(Play(b, rest), Play(b, run), taskId)
  }

  /** Transitions of one task, each of which starts at the status and revision where the one before it ended. */
  ghost predicate Connects(taskId: string, path: seq<Transition>, status: string, revision: int,
                           status': string, revision': int)
  {
    if path == [] then status == status' && revision == revision'
    else
      var last := path[|path| - 1];
      && last.taskId == taskId
      && last.toStatus == status' && last.revision == revision' == last.expectedRevision + 1
      && Connects(taskId, path[..|path| - 1], status, revision, last.fromStatus, last.expectedRevision)
  }

  /**
   An accepted task update cites the stored transition of its task that starts where the task stood and ends where it
   now stands.
   */
  lemma UpdateFollowsCitation(b: Book, a: Arrival, taskId: string)
    requires Sound(b) && taskId in b.tasks && taskId in After(b, a).tasks
             && After(b, a).tasks[taskId] != b.tasks[taskId]
    ensures var was, now := b.tasks[taskId], After(b, a).tasks[taskId];
            && now.lastTransition.Some?
            && var found := Find(After(b, a).transitions, now.lastTransition.value);
            && found.Some?
            && found.value in b.transitions && found.value.taskId == taskId
            && found.value.fromStatus == was.status && found.value.expectedRevision == was.revision
            && found.value.toStatus == now.status && found.value.revision == now.revision == was.revision + 1
  {
    assert a.statement.UpdateTask? && a.statement.taskId == taskId;
    var now := After(b, a).tasks[taskId];
    assert HasTransitionFor(b.transitions, taskId, now.lastTransition.value, now.revision, now.status);
    var i :| 0 <= i < |b.transitions| && b.transitions[i].id == now.lastTransition.value
             && b.transitions[i].taskId == taskId && b.transitions[i].revision == now.revision
             && b.transitions[i].toStatus == now.status;
    assert StartsWhereTaskStood(b, b.transitions[i]);
    FindFinds(b.transitions, i);
  }

  /** One more arrival lengthens the path by the cited transition, or not at all. */
  lemma {:induction false} PathGrows(b: Book, a: Arrival, taskId: string, path: seq<Transition>, status: string,
                                     revision: int)
    requires Sound(b) && taskId in b.tasks && taskId in After(b, a).tasks
    requires Connects(taskId, path, status, revision, b.tasks[taskId].status, b.tasks[taskId].revision)
    ensures var now := After(b, a).tasks[taskId];
            Connects(taskId, path + NewCitation(b, After(b, a), taskId), status, revision, now.status, now.revision)
  {
    if After(b, a).tasks[taskId] != b.tasks[taskId] {
      UpdateFollowsCitation(b, a, taskId);
      var t := Find(After(b, a).transitions, After(b, a).tasks[taskId].lastTransition.value).value;
      assert (path + [t])[..|path|] == path;
    } else {
      assert path + [] == path;
    }
  }

  /**
   From the triggers alone: the transitions a task's accepted updates cite form one connected path from
   the status and revision it had to the ones it has, with the revision rising by one at each step. Only a
   task without any transition can be deleted on the way.
   */
  lemma {:induction false} TaskHistoryIsAPath(b: Book, run: seq<Arrival>, taskId: string)
    requires Sound(b) && taskId in b.tasks && Safe(b, run, taskId)
    ensures taskId in Play(b, run).tasks
    ensures var now := Play(b, run).tasks[taskId];
            Connects(taskId, Citations(b, run, taskId), b.tasks[taskId].status, b.tasks[taskId].revision, now.status,
                     now.revision)
  {
    if run != [] {
      var rest, last := run[..|run| - 1], run[|run| - 1];
      SafeBefore(b, run, taskId);
      TaskHistoryIsAPath(b, rest, taskId);
      SafeTasksStay(b, run, taskId);
      EveryRunKeepsChain(b, rest);
      PathGrows(Play(b, rest), last, taskId, Citations(b, rest, taskId), b.tasks[taskId].status,
                b.tasks[taskId].revision);
    }
  }

  /** A transition of the task from where it stands, with nothing else in particular. */
  function Attempt(b: Book, taskId: string, id: string, sequence: int, toStatus: string, actor: Actor): Transition
    requires taskId in b.tasks
  {
    var task := b.tasks[taskId];
    Transition(id, taskId, b.source.scope, sequence, task.revision, task.revision + 1, task.status, toStatus,
               actor, None, "", sequence, "", 0, [], id, "", "")
  }

  /** A runbook that nothing has happened to, with a task as `createRunbook` stores it. */
  predicate Fresh(b: Book, taskId: string) {
    && Opening(b) && b.head != "" && taskId in b.tasks
    && b.tasks[taskId].definition.scope == b.source.scope
    && b.tasks[taskId].status != "" && b.tasks[taskId].revision >= 0
  }

  /**
   What the triggers alone do not give: in any new runbook two transitions can be stored that start from the same
   revision of one task, so replaying the stored transitions does not follow from them. The whole-commit protocol
   rules this out.
   */
  lemma {:induction false} TriggersAllowTwoTransitionsOfOneRevision(b: Book, taskId: string, actor: Actor, hash: string,
                                                                    id: string, id2: string, toStatus: string,
                                                                        toStatus2: string)
    requires Fresh(b, taskId) && hash != "" && id != id2 && toStatus != "" && toStatus2 != ""
    ensures exists run :: Play(b, run).transitions ==
              [Attempt(b, taskId, id, 1, toStatus, actor), Attempt(b, taskId, id2, 2, toStatus2, actor)]
  {
    var one, two := Attempt(b, taskId, id, 1, toStatus, actor), Attempt(b, taskId, id2, 2, toStatus2, actor);
    var entry := LedgerRow(id, one.scope, 1, actor, 0, b.head, hash);
    var s1, s2 := Arrival(InsertTransition(one), {}), Arrival(InsertLedger(entry), {});
    var s3, s4 := Arrival(UpdateBook(None, None, 1, hash, 0), {}), Arrival(InsertTransition(two), {});
    TwoAttempts(b, taskId, one, two, entry);
    PlayFour(b, s1, s2, s3, s4);
    assert Play(b, [s1, s2, s3, s4]).transitions == [one, two];
  }

  lemma TwoAttempts(b: Book, taskId: string, one: Transition, two: Transition, entry: LedgerRow)
    requires Fresh(b, taskId) && one.toStatus != "" && two.toStatus != "" && one.id != two.id && entry.hash != ""
    requires one == Attempt(b, taskId, one.id, 1, one.toStatus, one.actor)
    requires two == Attempt(b, taskId, two.id, 2, two.toStatus, two.actor)
    requires entry == LedgerRow(one.id, one.scope, 1, one.actor, 0, b.head, entry.hash)
    ensures var b1 := After(b, Arrival(InsertTransition(one), {}));
            var b3 := After(After(b1, Arrival(InsertLedger(entry), {})),
                            Arrival(UpdateBook(None, None, 1, entry.hash, 0), {}));
            After(b3, Arrival(InsertTransition(two), {})).transitions == [one, two]
  {
    FirstAttempt(b, taskId, one);
    var b1 := b.(transitions := [one]);
    assert HasTransitionOf([one], entry) by { assert [one][0] == one; }
    FirstEntry(b1, entry);
    SecondAttempt(b1.(ledger := [entry], sequence := 1, head := entry.hash, updatedAt := 0), two);
  }

  lemma FirstAttempt(b: Book, taskId: string, one: Transition)
    requires Fresh(b, taskId) && one.toStatus != "" && one == Attempt(b, taskId, one.id, 1, one.toStatus, one.actor)
    ensures After(b, Arrival(InsertTransition(one), {})) == b.(transitions := [one])
  {
  }

  /** The ledger row and the root row follow the first transition. */
  lemma FirstEntry(b: Book, entry: LedgerRow)
    requires |b.transitions| == 1 && b.ledger == [] && b.sequence == 0 && HasTransitionOf(b.transitions, entry)
    requires entry.sequence == 1 && entry.scope == b.source.scope
    requires entry.previousHash == b.head && b.head != "" && entry.hash != ""
    ensures After(After(b, Arrival(InsertLedger(entry), {})), Arrival(UpdateBook(None, None, 1, entry.hash, 0), {}))
            == b.(ledger := [entry], sequence := 1, head := entry.hash, updatedAt := 0)
  {
    var b2 := b.(ledger := [entry]);
    assert After(b, Arrival(InsertLedger(entry), {})) == b2;
    assert HasEntry(b2.ledger, b.source.scope, 1, b.head, entry.hash) by { assert b2.ledger[0] == entry; }
  }

  /** The root row has moved on, but nobody has updated the task. */
  lemma SecondAttempt(b: Book, two: Transition)
    requires |b.transitions| == 1 && two.taskId in b.tasks && b.tasks[two.taskId].definition.scope == b.source.scope
    requires b.sequence == 1 && two.toStatus != "" && b.transitions[0].sequence == 1
    requires two == Attempt(b, two.taskId, two.id, 2, two.toStatus, two.actor)
    requires b.tasks[two.taskId].status != "" && b.tasks[two.taskId].revision >= 0
    requires b.transitions[0].id != two.id && b.transitions[0].idempotencyKey != two.id
             && b.transitions[0].clientSequence == 1
    ensures After(b, Arrival(InsertTransition(two), {})) == b.(transitions := b.transitions + [two])
  {
  }

  lemma {:induction false} PlayFour(b: Book, s1: Arrival, s2: Arrival, s3: Arrival, s4: Arrival)
    ensures Play(b, [s1, s2, s3, s4]) == After(After(After(After(b, s1), s2), s3), s4)
  {
    assert [s1, s2, s3, s4][..3] == [s1, s2, s3] && [s1, s2, s3][..2] == [s1, s2] && [s1, s2][..1] == [s1]
        && [s1][..0] == [];
    assert Play(b, [s1]) == After(b, s1);
    assert Play(b, [s1, s2]) == After(After(b, s1), s2);
    assert Play(b, [s1, s2, s3]) == After(After(After(b, s1), s2), s3);
  }
}
