/**
 The runbook repository's write path: a batch of commands is checked against a read of the runbook,
 turned into five statements per accepted command, and committed as one atomic batch against whatever the
 tables hold by then.
 */
module RunbookCommit {
  import opened Results
  import opened RunbookLedger

  /** A normalized transition command: its text fields are not blank and its counters are in range. */
  datatype Command = Command(
    id: string, taskId: string, expectedRevision: nat, fromStatus: string, toStatus: string,
    actor: Actor, reasonCode: Option<string>, clientId: string, clientSequence: nat, clientOccurredAt: string,
    evidence: seq<(string, string)>, idempotencyKey: string, correlationId: Option<string>)

  ghost predicate Normalized(c: Command) {
    c.fromStatus != "" && c.toStatus != "" && c.clientSequence >= 1
  }

  /** The fingerprints the repository computes: of a command, of a ledger entry, and of a correlation id. */
  datatype Fingerprints = Fingerprints(
    command: Command -> string, entry: (Source, Transition, string) -> string, correlation: string -> string)

  ghost predicate NeverBlank(f: Fingerprints) {
    forall source, t, previous :: f.entry(source, t, previous) != ""
  }

  datatype Point = Point(status: string, revision: int)

  datatype Refusal =
    | IdempotencyConflict(key: string)
    | TransitionConflict(taskId: string, current: Option<Point>)

  datatype Given = Given(inputFingerprint: string, answer: Answer)

  /** What the loop over the commands carries: projections of the tasks and of the chain, and what it has built. */
  datatype Draft = Draft(points: map<string, Point>, sequence: int, head: string, given: map<string, Given>,
                         statements: seq<Statement>, answers: seq<Answer>)

  function Points(tasks: map<string, Task>): map<string, Point> {
    map k | k in tasks :: Point(tasks[k].status, tasks[k].revision)
  }

  /** The stored receipts by idempotency key. */
  function GivenBy(receipts: seq<Receipt>): map<string, Given> {
    if receipts == [] then map[]
    else
      var last := receipts[|receipts| - 1];
      GivenBy(receipts[..|receipts| - 1])[last.idempotencyKey := Given(last.inputFingerprint, last.answer)]
  }

  function Start(b: Book): Draft {
    Draft(Points(b.tasks), b.sequence, b.head, GivenBy(b.receipts), [], [])
  }

  function TransitionFor(b: Book, c: Command, sequence: int, now: int, f: Fingerprints): Transition {
    Transition(c.id, c.taskId, b.source.scope, sequence, c.expectedRevision, c.expectedRevision + 1,
               c.fromStatus, c.toStatus, c.actor, c.reasonCode, c.clientId, c.clientSequence, c.clientOccurredAt,
               now, c.evidence, c.idempotencyKey, f.command(c),
               if c.correlationId.Some? then c.correlationId.value else f.correlation(f.command(c)))
  }

  function AnswerFor(t: Transition): Answer {
    Applied(t.taskId, t.id, t.revision, t.sequence, t.acceptedAt)
  }

  function EntryFor(source: Source, t: Transition, previous: string, f: Fingerprints): LedgerRow {
    LedgerRow(t.id, t.scope, t.sequence, t.actor, t.acceptedAt, previous, f.entry(source, t, previous))
  }

  function ReceiptFor(t: Transition): Receipt {
    Receipt(t.id, t.scope, t.idempotencyKey, t.inputFingerprint, t.correlationId, AnswerFor(t), t.acceptedAt)
  }

  /** The five statements of one accepted command. */
  function StatementsFor(source: Source, t: Transition, previous: string, f: Fingerprints): seq<Statement> {
    [ InsertTransition(t),
      InsertLedger(EntryFor(source, t, previous, f)),
      UpdateTask(t.taskId, Some((t.expectedRevision, t.fromStatus)), None, t.toStatus, t.revision, Some(t.id),
                 t.acceptedAt),
      InsertReceipt(ReceiptFor(t)),
      UpdateBook(Some((t.sequence - 1, previous)), None, t.sequence, f.entry(source, t, previous), t.acceptedAt) ]
  }

  function Accept(d: Draft, b: Book, t: Transition, f: Fingerprints): Draft {
    Draft(d.points[t.taskId := Point(t.toStatus, t.revision)], t.sequence, f.entry(b.source, t, d.head),
          d.given[t.idempotencyKey := Given(t.inputFingerprint, AnswerFor(t))],
          d.statements + StatementsFor(b.source, t, d.head, f), d.answers + [AnswerFor(t)])
  }

  /** One command against the draft so far: answered before, refused, or accepted. */
  function Consider(d: Draft, b: Book, c: Command, now: int, f: Fingerprints): Result<Draft, Refusal> {
    if c.idempotencyKey in d.given then
      if d.given[c.idempotencyKey].inputFingerprint != f.command(c) then Err(IdempotencyConflict(c.idempotencyKey))
      else Ok(d.(answers := d.answers + [d.given[c.idempotencyKey].answer]))
    else if c.taskId !in d.points then Err(TransitionConflict(c.taskId, None))
    else if d.points[c.taskId] != Point(c.fromStatus, c.expectedRevision) then
      Err(TransitionConflict(c.taskId, Some(d.points[c.taskId])))
    else Ok(Accept(d, b, TransitionFor(b, c, d.sequence + 1, now, f), f))
  }

  /** The draft for a list of commands; `clock(i)` is the time read for the i-th. */
  function Drafted(b: Book, commands: seq<Command>, clock: nat -> int, f: Fingerprints): Result<Draft, Refusal>
    decreases commands
  {
    if commands == [] then Ok(Start(b))
    else
      var n := |commands| - 1;
      match Drafted(b, commands[..n], clock, f)
      case Err(e) => Err(e)
      case Ok(d) => Consider(d, b, commands[n], clock(n), f)
  }

  /** An atomic batch: all statements in order, or none. */
  function Batch(b: Book, statements: seq<Statement>, taken: set<string>): Result<Book, Abort>
    decreases statements
  {
    if statements == [] then Ok(b)
    else
      match Execute(b, statements[0], taken)
      case Err(e) => Err(e)
      case Ok(b') => Batch(b', statements[1..], taken)
  }

  lemma {:induction false} BatchAppends(b: Book, xs: seq<Statement>, ys: seq<Statement>, taken: set<string>)
    requires Batch(b, xs, taken).Ok?
    ensures Batch(b, xs + ys, taken) == Batch(Batch(b, xs, taken).value, ys, taken)
    decreases xs
  {
    if xs == [] {
      assert xs + ys == ys;
    } else {
      assert (xs + ys)[1..] == xs[1..] + ys;
      BatchAppends(Execute(b, xs[0], taken).value, xs[1..], ys, taken);
    }
  }

  // ---------- replay ----------

  /** One transition of a log, replayed: it must start where its task stands. */
  function ReplayOne(points: map<string, Point>, t: Transition): Option<map<string, Point>> {
    if t.taskId in points && points[t.taskId] == Point(t.fromStatus, t.expectedRevision)
    then Some(points[t.taskId := Point(t.toStatus, t.revision)]) else None
  }

  function Replay(initial: map<string, Point>, log: seq<Transition>): Option<map<string, Point>> {
    if log == [] then Some(initial)
    else
      match Replay(initial, log[..|log| - 1])
      case None => None
      case Some(points) => ReplayOne(points, log[|log| - 1])
  }

  /** What every committed state satisfies, `initial` being the statuses the tasks were created with. */
  ghost predicate Committed(b: Book, initial: map<string, Point>, f: Fingerprints) {
    && Sound(b)
    && |b.transitions| == |b.ledger| == |b.receipts| == b.sequence
    && b.head != ""
    && Replay(initial, b.transitions) == Some(Points(b.tasks))
    && Receipted(b)
    && Sealed(b, f)
    && (forall k :: k in b.tasks ==> b.tasks[k].definition.scope == b.source.scope)
  }

  ghost predicate Receipted(b: Book) {
    |b.receipts| == |b.transitions|
    && forall i :: 0 <= i < |b.receipts| ==> b.receipts[i] == ReceiptFor(b.transitions[i])
  }

  ghost predicate Sealed(b: Book, f: Fingerprints) {
    |b.ledger| == |b.transitions|
    && forall i :: 0 <= i < |b.ledger| ==>
         b.ledger[i] == EntryFor(b.source, b.transitions[i], b.ledger[i].previousHash, f)
  }

  /** The opening guard of one accepted command. */
  ghost predicate MayCommit(b: Book, t: Transition, taken: set<string>) {
    && t.taskId in b.tasks
    && b.tasks[t.taskId].status == t.fromStatus && b.tasks[t.taskId].revision == t.expectedRevision
    && b.tasks[t.taskId].definition.scope == t.scope == b.source.scope && t.sequence == b.sequence + 1
    && TransitionColumnsOk(t) && t.id !in taken && TransitionIsNew(b.transitions, t)
  }

  /** The book after one accepted command. */
  function Next(b: Book, t: Transition, f: Fingerprints): Book
    requires t.taskId in b.tasks
  {
    b.(transitions := b.transitions + [t],
       ledger := b.ledger + [EntryFor(b.source, t, b.head, f)],
       receipts := b.receipts + [ReceiptFor(t)],
       tasks := b.tasks[t.taskId := Task(b.tasks[t.taskId].definition, t.toStatus, t.revision, Some(t.id),
                                         t.acceptedAt)],
       sequence := t.sequence, head := f.entry(b.source, t, b.head), updatedAt := t.acceptedAt)
  }

  /** The transition and its ledger row. */
  lemma FirstTwoStatements(b: Book, t: Transition, taken: set<string>, f: Fingerprints)
    requires Sound(b) && |b.transitions| == |b.ledger| == b.sequence && b.head != "" && NeverBlank(f)
             && MayCommit(b, t, taken)
    ensures var ss, l := StatementsFor(b.source, t, b.head, f), EntryFor(b.source, t, b.head, f);
            var b1 := b.(transitions := b.transitions + [t]);
            && Execute(b, ss[0], taken) == Ok(b1)
            && Execute(b1, ss[1], taken) == Ok(b1.(ledger := b.ledger + [l]))
  {
    var l := EntryFor(b.source, t, b.head, f);
    var b1 := b.(transitions := b.transitions + [t]);
    assert b1.transitions[|b.transitions|] == t;
    assert HasTransitionOf(b1.transitions, l);
    assert l.hash == f.entry(b.source, t, b.head) != "";
    EntryFollows(b, t, l);
  }

  /** The task, the receipt and the root row, once the transition and its ledger row are there. */
  lemma LastThreeStatements(b: Book, t: Transition, taken: set<string>, f: Fingerprints)
    requires |b.transitions| == |b.receipts| == b.sequence && Receipted(b) && NeverBlank(f) && MayCommit(b, t, taken)
    ensures var ss, l := StatementsFor(b.source, t, b.head, f), EntryFor(b.source, t, b.head, f);
            var b2 := b.(transitions := b.transitions + [t], ledger := b.ledger + [l]);
            var b3 := b2.(tasks := Next(b, t, f).tasks);
            var b4 := b3.(receipts := b.receipts + [ReceiptFor(t)]);
            && Execute(b2, ss[2], taken) == Ok(b3)
            && Execute(b3, ss[3], taken) == Ok(b4)
            && Execute(b4, ss[4], taken) == Ok(Next(b, t, f))
  {
    var l := EntryFor(b.source, t, b.head, f);
    var b2 := b.(transitions := b.transitions + [t], ledger := b.ledger + [l]);
    assert b2.transitions[|b.transitions|] == t;
    assert HasTransitionFor(b2.transitions, t.taskId, t.id, t.revision, t.toStatus);
    assert HasCommandOf(b2.transitions, ReceiptFor(t));
    ReceiptFollows(b, t, ReceiptFor(t));
    assert b2.ledger[|b.ledger|] == l;
    assert HasEntry(b2.ledger, b.source.scope, t.sequence, b.head, l.hash);
  }

  /** The guard passes every trigger: all five statements are accepted and leave exactly the next book. */
  lemma {:induction false} FiveStatementsCommit(b: Book, t: Transition, taken: set<string>, f: Fingerprints)
    requires Sound(b) && |b.transitions| == |b.ledger| == |b.receipts| == b.sequence && b.head != ""
    requires Receipted(b) && NeverBlank(f) && MayCommit(b, t, taken)
    ensures Batch(b, StatementsFor(b.source, t, b.head, f), taken) == Ok(Next(b, t, f))
  {
    FirstTwoStatements(b, t, taken, f);
    LastThreeStatements(b, t, taken, f);
    var b1 := b.(transitions := b.transitions + [t]);
    var b2 := b1.(ledger := b.ledger + [EntryFor(b.source, t, b.head, f)]);
    var b3 := b2.(tasks := Next(b, t, f).tasks);
    var b4 := b3.(receipts := b.receipts + [ReceiptFor(t)]);
    RunFive(b, StatementsFor(b.source, t, b.head, f), taken, b1, b2, b3, b4, Next(b, t, f));
  }

  lemma EntryFollows(b: Book, t: Transition, l: LedgerRow)
    requires Sound(b) && |b.transitions| == |b.ledger| == b.sequence
    requires l.sequence == b.sequence + 1 && l.transitionId == t.id && TransitionIsNew(b.transitions, t)
    ensures EntryIsNew(b.ledger, l)
  {
    forall i | 0 <= i < |b.ledger|
        ensures b.ledger[i].sequence != l.sequence && b.ledger[i].transitionId != l.transitionId {
      assert b.transitions[i].id != t.id;
    }
  }

  lemma ReceiptFollows(b: Book, t: Transition, r: Receipt)
    requires Receipted(b) && r == ReceiptFor(t) && TransitionIsNew(b.transitions, t)
    ensures ReceiptIsNew(b.receipts, r)
  {
    forall i | 0 <= i < |b.receipts|
      ensures b.receipts[i].idempotencyKey != r.idempotencyKey && b.receipts[i].transitionId != r.transitionId
    {
      assert b.transitions[i].id != t.id && b.transitions[i].idempotencyKey != t.idempotencyKey;
    }
  }

  lemma {:induction false} RunFive(b0: Book, ss: seq<Statement>, taken: set<string>, b1: Book, b2: Book, b3: Book,
                                   b4: Book, b5: Book)
    requires |ss| == 5
    requires Execute(b0, ss[0], taken) == Ok(b1) && Execute(b1, ss[1], taken) == Ok(b2)
    requires Execute(b2, ss[2], taken) == Ok(b3) && Execute(b3, ss[3], taken) == Ok(b4)
    requires Execute(b4, ss[4], taken) == Ok(b5)
    ensures Batch(b0, ss, taken) == Ok(b5)
  {
    assert ss[1..][0] == ss[1] && ss[1..][1..] == ss[2..] && ss[2..][1..] == ss[3..] && ss[3..][1..] == ss[4..];
    assert Batch(b4, ss[4..], taken) == Ok(b5) by { assert ss[4..][1..] == []; }
    assert Batch(b3, ss[3..], taken) == Ok(b5);
    assert Batch(b2, ss[2..], taken) == Ok(b5);
    assert Batch(b1, ss[1..], taken) == Ok(b5);
  }

  lemma NextIsSound(b: Book, t: Transition, taken: set<string>, f: Fingerprints)
    requires Sound(b) && |b.transitions| == |b.ledger| == |b.receipts| == b.sequence && b.head != ""
    requires Receipted(b) && NeverBlank(f) && MayCommit(b, t, taken)
    ensures Sound(Next(b, t, f))
  {
    FiveStatementsCommit(b, t, taken, f);
    BatchKeepsSound(b, StatementsFor(b.source, t, b.head, f), taken);
  }

  lemma NextIsSealed(b: Book, t: Transition, f: Fingerprints)
    requires Receipted(b) && Sealed(b, f) && t.taskId in b.tasks
    ensures Receipted(Next(b, t, f)) && Sealed(Next(b, t, f), f)
  {
  }

  lemma {:induction false} NextReplays(b: Book, t: Transition, initial: map<string, Point>, f: Fingerprints)
    requires Replay(initial, b.transitions) == Some(Points(b.tasks)) && t.taskId in b.tasks
    requires b.tasks[t.taskId].status == t.fromStatus && b.tasks[t.taskId].revision == t.expectedRevision
    ensures Points(Next(b, t, f).tasks) == Points(b.tasks)[t.taskId := Point(t.toStatus, t.revision)]
    ensures Replay(initial, Next(b, t, f).transitions) == Some(Points(Next(b, t, f).tasks))
  {
    assert Next(b, t, f).transitions[..|b.transitions|] == b.transitions;
  }

  /** One accepted command leads from a committed state to a committed state. */
  lemma CommitKeepsCommitted(b: Book, t: Transition, initial: map<string, Point>, taken: set<string>, f: Fingerprints)
    requires Committed(b, initial, f) && NeverBlank(f) && MayCommit(b, t, taken)
    ensures Committed(Next(b, t, f), initial, f)
    ensures Points(Next(b, t, f).tasks) == Points(b.tasks)[t.taskId := Point(t.toStatus, t.revision)]
  {
    NextIsSound(b, t, taken, f);
    NextIsSealed(b, t, f);
    NextReplays(b, t, initial, f);
  }

  lemma {:induction false} BatchKeepsSound(b: Book, ss: seq<Statement>, taken: set<string>)
    requires Sound(b) && Batch(b, ss, taken).Ok?
    ensures Sound(Batch(b, ss, taken).value)
    decreases ss
  {
    if ss != [] {
      EveryStatementKeepsSound(b, Arrival(ss[0], taken));
      BatchKeepsSound(Execute(b, ss[0], taken).value, ss[1..], taken);
    }
  }

  // ---------- a whole batch ----------

  /** A draft agrees with the book its statements lead to. */
  ghost predicate Mirrors(d: Draft, b: Book) {
    d.points == Points(b.tasks) && d.sequence == b.sequence && d.head == b.head && d.given == GivenBy(b.receipts)
  }

  lemma {:induction false} FailedBatchStaysFailed(b: Book, xs: seq<Statement>, ys: seq<Statement>, taken: set<string>)
    requires Batch(b, xs, taken).Err?
    ensures Batch(b, xs + ys, taken) == Batch(b, xs, taken)
    decreases xs
  {
    assert (xs + ys)[0] == xs[0] && (xs + ys)[1..] == xs[1..] + ys;
    if Execute(b, xs[0], taken).Ok? {
      FailedBatchStaysFailed(Execute(b, xs[0], taken).value, xs[1..], ys, taken);
    }
  }

  lemma GuardHolds(b: Book, d: Draft, read: Book, c: Command, now: int, initial: map<string, Point>, f: Fingerprints)
    requires Committed(b, initial, f) && Normalized(c) && Mirrors(d, b) && read.source == b.source
    requires c.taskId in d.points && d.points[c.taskId] == Point(c.fromStatus, c.expectedRevision)
    ensures var t := TransitionFor(read, c, d.sequence + 1, now, f);
            && t.taskId in b.tasks
            && b.tasks[t.taskId].status == t.fromStatus && b.tasks[t.taskId].revision == t.expectedRevision
            && b.tasks[t.taskId].definition.scope == t.scope == b.source.scope && t.sequence == b.sequence + 1
            && TransitionColumnsOk(t)
  {
  }

  lemma AcceptMirrors(b: Book, d: Draft, t: Transition, f: Fingerprints)
    requires Mirrors(d, b) && t.taskId in b.tasks
    ensures Mirrors(Accept(d, b, t, f), Next(b, t, f))
  {
    var b' := Next(b, t, f);
    assert b'.receipts[..|b.receipts|] == b.receipts;
    assert Points(b'.tasks) == Points(b.tasks)[t.taskId := Point(t.toStatus, t.revision)];
  }

  lemma {:induction false} NewCommandCommits(b: Book, d: Draft, read: Book, t: Transition,
                                             initial: map<string, Point>, taken: set<string>, f: Fingerprints)
    requires Committed(b, initial, f) && NeverBlank(f) && Mirrors(d, b) && read.source == b.source
             && MayCommit(b, t, taken)
    ensures Batch(b, StatementsFor(b.source, t, d.head, f), taken) == Ok(Next(b, t, f))
    ensures Committed(Next(b, t, f), initial, f) && Mirrors(Accept(d, read, t, f), Next(b, t, f))
  {
    FiveStatementsCommit(b, t, taken, f);
    CommitKeepsCommitted(b, t, initial, taken, f);
    AcceptMirrors(b, d, t, f);
    assert Accept(d, read, t, f) == Accept(d, b, t, f);
  }

  lemma {:induction false} UsedCommandAborts(b: Book, t: Transition, previous: string, taken: set<string>,
                                             f: Fingerprints)
    requires t.taskId in b.tasks && b.tasks[t.taskId].definition.scope == t.scope == b.source.scope
    requires b.tasks[t.taskId].status == t.fromStatus && b.tasks[t.taskId].revision == t.expectedRevision
    requires t.sequence == b.sequence + 1 && TransitionColumnsOk(t)
    requires t.id in taken || !TransitionIsNew(b.transitions, t)
    ensures Batch(b, StatementsFor(b.source, t, previous, f), taken) == Err(NotUnique)
  {
    assert Execute(b, StatementsFor(b.source, t, previous, f)[0], taken) == Err(NotUnique);
  }

  /** An accepted command, on the state its draft mirrors: it commits, or its id or client sequence was used before. */
  lemma {:induction false} AcceptedCommandCommits(b: Book, d: Draft, read: Book, c: Command, now: int,
                                                  initial: map<string, Point>, taken: set<string>, f: Fingerprints)
    requires Committed(b, initial, f) && NeverBlank(f) && Normalized(c) && Mirrors(d, b) && read.source == b.source
    requires c.idempotencyKey !in d.given
    requires c.taskId in d.points && d.points[c.taskId] == Point(c.fromStatus, c.expectedRevision)
    ensures var t := TransitionFor(read, c, d.sequence + 1, now, f);
            var result := Batch(b, StatementsFor(b.source, t, d.head, f), taken);
            if t.id !in taken && TransitionIsNew(b.transitions, t)
            then result == Ok(Next(b, t, f)) && Committed(Next(b, t, f), initial, f)
                 && Mirrors(Accept(d, read, t, f), Next(b, t, f))
            else result == Err(NotUnique)
  {
    var t := TransitionFor(read, c, d.sequence + 1, now, f);
    GuardHolds(b, d, read, c, now, initial, f);
    if t.id !in taken && TransitionIsNew(b.transitions, t) {
      NewCommandCommits(b, d, read, t, initial, taken, f);
    } else {
      UsedCommandAborts(b, t, d.head, taken, f);
    }
  }

  /** What executing a draft's statements on the state it was read from comes to. */
  ghost predicate AllOrReuse(b: Book, d: Draft, initial: map<string, Point>, taken: set<string>, f: Fingerprints) {
    var result := Batch(b, d.statements, taken);
    if result.Ok? then Committed(result.value, initial, f) && Mirrors(d, result.value)
        && result.value.source == b.source
    else result == Err(NotUnique)
  }

  lemma OneMoreCommand(b: Book, d0: Draft, c: Command, now: int,
                       initial: map<string, Point>, taken: set<string>, f: Fingerprints)
    requires AllOrReuse(b, d0, initial, taken, f) && NeverBlank(f) && Normalized(c)
    requires Consider(d0, b, c, now, f).Ok?
    ensures AllOrReuse(b, Consider(d0, b, c, now, f).value, initial, taken, f)
  {
    if c.idempotencyKey !in d0.given {
      var t := TransitionFor(b, c, d0.sequence + 1, now, f);
      var ss := StatementsFor(b.source, t, d0.head, f);
      if Batch(b, d0.statements, taken).Ok? {
        BatchAppends(b, d0.statements, ss, taken);
        AcceptedCommandCommits(Batch(b, d0.statements, taken).value, d0, b, c, now, initial, taken, f);
      } else {
        FailedBatchStaysFailed(b, d0.statements, ss, taken);
      }
    }
  }

  lemma NothingCommits(b: Book, initial: map<string, Point>, taken: set<string>, f: Fingerprints)
    requires Committed(b, initial, f)
    ensures AllOrReuse(b, Start(b), initial, taken, f)
  {
    assert Batch(b, Start(b).statements, taken) == Ok(b);
    assert Mirrors(Start(b), b);
  }

  /**
   A batch drafted from the state it is executed on passes every trigger: it commits as a whole, the new
   state is a committed state that agrees with the draft, or one of its transitions reuses an id or a
   client sequence and nothing happens.
   */
  lemma {:induction false} CurrentDraftCommits(
    b: Book, commands: seq<Command>, clock: nat -> int, initial: map<string, Point>, taken: set<string>,
        f: Fingerprints)
    requires Committed(b, initial, f) && NeverBlank(f)
    requires forall i :: 0 <= i < |commands| ==> Normalized(commands[i])
    requires Drafted(b, commands, clock, f).Ok?
    ensures AllOrReuse(b, Drafted(b, commands, clock, f).value, initial, taken, f)
    decreases commands
  {
    if commands == [] {
      NothingCommits(b, initial, taken, f);
    } else {
      var n := |commands| - 1;
      CurrentDraftCommits(b, commands[..n], clock, initial, taken, f);
      OneMoreCommand(b, Drafted(b, commands[..n], clock, f).value, commands[n], clock(n), initial, taken, f);
    }
  }

  // ---------- retries ----------

  /** Every command of an accepted draft is on record under its key, with the answer it was given. */
  ghost predicate OnRecord(d: Draft, commands: seq<Command>, f: Fingerprints) {
    && |d.answers| == |commands|
    && forall i :: 0 <= i < |commands| ==>
         && commands[i].idempotencyKey in d.given
         && d.given[commands[i].idempotencyKey] == Given(f.command(commands[i]), d.answers[i])
  }

  lemma {:induction false} AnswersAreOnRecord(b: Book, commands: seq<Command>, clock: nat -> int, f: Fingerprints)
    requires Drafted(b, commands, clock, f).Ok?
    ensures OnRecord(Drafted(b, commands, clock, f).value, commands, f)
    decreases commands
  {
    if commands != [] {
      var n := |commands| - 1;
      AnswersAreOnRecord(b, commands[..n], clock, f);
      RecordGrows(Drafted(b, commands[..n], clock, f).value, b, commands, clock(n), f);
    }
  }

  lemma RecordGrows(d: Draft, b: Book, commands: seq<Command>, now: int, f: Fingerprints)
    requires commands != [] && OnRecord(d, commands[..|commands| - 1], f)
    requires Consider(d, b, commands[|commands| - 1], now, f).Ok?
    ensures OnRecord(Consider(d, b, commands[|commands| - 1], now, f).value, commands, f)
  {
    var n := |commands| - 1;
    forall i | 0 <= i < n
      ensures commands[i].idempotencyKey in d.given
           && d.given[commands[i].idempotencyKey] == Given(f.command(commands[i]), d.answers[i])
    {
      assert commands[..n][i] == commands[i];
    }
  }

  lemma OneMoreRepeat(b: Book, c: Command, answers: seq<Answer>, now: int, f: Fingerprints)
    requires answers != [] && c.idempotencyKey in GivenBy(b.receipts)
    requires GivenBy(b.receipts)[c.idempotencyKey] == Given(f.command(c), answers[|answers| - 1])
    ensures Consider(Start(b).(answers := answers[..|answers| - 1]), b, c, now, f) == Ok(Start(b).(answers := answers))
  {
    assert answers[..|answers| - 1] + [answers[|answers| - 1]] == answers;
  }

  /** Resubmitting commands that are on record builds no statement and repeats the answers. */
  lemma {:induction false} RecordedCommandsRepeat(
    b: Book, commands: seq<Command>, answers: seq<Answer>, clock: nat -> int, f: Fingerprints)
    requires |answers| == |commands|
    requires forall i :: 0 <= i < |commands| ==>
               && commands[i].idempotencyKey in GivenBy(b.receipts)
               && GivenBy(b.receipts)[commands[i].idempotencyKey] == Given(f.command(commands[i]), answers[i])
    ensures Drafted(b, commands, clock, f) == Ok(Start(b).(answers := answers))
    decreases commands
  {
    if commands == [] {
      assert answers == [];
    } else {
      var n := |commands| - 1;
      RecordedCommandsRepeat(b, commands[..n], answers[..n], clock, f);
      OneMoreRepeat(b, commands[n], answers, clock(n), f);
    }
  }

  /**
   An exact retry of a committed batch, whenever it is read and whatever the clock says, changes nothing and gets the
   original answers.
   */
  lemma {:induction false} RetryReturnsOriginalAnswers(
                       b: Book, commands: seq<Command>, clock: nat -> int, later: nat -> int,
                       initial: map<string, Point>, taken: set<string>, f: Fingerprints)
    requires Committed(b, initial, f) && NeverBlank(f)
    requires forall i :: 0 <= i < |commands| ==> Normalized(commands[i])
    requires Drafted(b, commands, clock, f).Ok?
    requires Batch(b, Drafted(b, commands, clock, f).value.statements, taken).Ok?
    ensures var d := Drafted(b, commands, clock, f).value;
            var b' := Batch(b, d.statements, taken).value;
            Drafted(b', commands, later, f) == Ok(Start(b').(answers := d.answers))
  {
    var d := Drafted(b, commands, clock, f).value;
    CurrentDraftCommits(b, commands, clock, initial, taken, f);
    AnswersAreOnRecord(b, commands, clock, f);
    RecordedCommandsRepeat(Batch(b, d.statements, taken).value, commands, d.answers, later, f);
  }

  // ---------- stale reads ----------

  /**
   A draft either builds nothing or opens with a transition numbered right after the sequence it read, and moves on.
   */
  ghost predicate OpensAfter(d: Draft, sequence: int) {
    if d.statements == [] then d.sequence == sequence
    else
      && d.statements[0].InsertTransition?
      && d.statements[0].transition.sequence == sequence + 1
      && d.sequence > sequence
  }

  lemma {:induction false} DraftOpensAfterItsRead(b: Book, commands: seq<Command>, clock: nat -> int, f: Fingerprints)
    requires Drafted(b, commands, clock, f).Ok?
    ensures OpensAfter(Drafted(b, commands, clock, f).value, b.sequence)
    decreases commands
  {
    if commands != [] {
      DraftOpensAfterItsRead(b, commands[..|commands| - 1], clock, f);
    }
  }

  /** A draft read at one sequence never commits at another. */
  lemma {:induction false} StaleDraftAborts(read: Book, b: Book, commands: seq<Command>, clock: nat -> int,
                                            taken: set<string>,
                                            f: Fingerprints)
    requires Drafted(read, commands, clock, f).Ok? && Drafted(read, commands, clock, f).value.statements != []
    requires b.sequence != read.sequence
    ensures Batch(b, Drafted(read, commands, clock, f).value.statements, taken).Err?
  {
    DraftOpensAfterItsRead(read, commands, clock, f);
  }

  /**
   Which states a read of the runbook takes its parts from: the root row comes first, the four other queries later.
   */
  datatype Read = Read(root: nat, tasks: nat, transitions: nat, ledger: nat, receipts: nat)

  /** One call of the repository: what it read, what it submitted, and what other runbooks held when it committed. */
  datatype Write = Write(read: Read, commands: seq<Command>, clock: nat -> int, taken: set<string>)

  ghost predicate InTime(r: Read, now: nat) {
    r.root <= r.tasks <= now && r.root <= r.transitions <= now && r.root <= r.ledger <= now
        && r.root <= r.receipts <= now
  }

  /** The runbook as the call pieces it together; other calls may have committed between the queries. */
  function Pieced(h: seq<Book>, r: Read): Book
    requires h != []
  {
    var at := (i: nat) => if i < |h| then h[i] else h[|h| - 1];
    at(r.root).(tasks := at(r.tasks).tasks, transitions := at(r.transitions).transitions,
                ledger := at(r.ledger).ledger, receipts := at(r.receipts).receipts)
  }

  /** Each part is the one its query saw. */
  lemma PiecedTakesEachPart(h: seq<Book>, r: Read)
    requires h != [] && InTime(r, |h| - 1)
    ensures Pieced(h, r) == Book(h[r.root].source, h[r.root].sequence, h[r.root].head, h[r.root].updatedAt,
                                 h[r.tasks].tasks, h[r.transitions].transitions, h[r.ledger].ledger,
                                 h[r.receipts].receipts)
  {
  }

  /** The state a write leaves, having read `read` and committing against `now`. */
  function Written(read: Book, now: Book, w: Write, f: Fingerprints): Book {
    match Drafted(read, w.commands, w.clock, f)
    case Err(_) => now
    case Ok(d) =>
      match Batch(now, d.statements, w.taken)
      case Err(_) => now
      case Ok(b') => b'
  }

  ghost predicate WellFormed(writes: seq<Write>) {
    forall k :: 0 <= k < |writes| ==>
      InTime(writes[k].read, k) && forall i :: 0 <= i < |writes[k].commands| ==> Normalized(writes[k].commands[i])
  }

  /** All states of a run in which every write pieces its read together from earlier states and commits later. */
  function History(b: Book, writes: seq<Write>, f: Fingerprints): (h: seq<Book>)
    ensures |h| == |writes| + 1
  {
    if writes == [] then [b]
    else
      var h := History(b, writes[..|writes| - 1], f);
      var w := writes[|writes| - 1];
      h + [Written(Pieced(h, w.read), h[|h| - 1], w, f)]
  }

  /** The last state is a committed state, the sequence never falls, and it stands still only while nothing changes. */
  ghost predicate Settled(h: seq<Book>, initial: map<string, Point>, f: Fingerprints) {
    && h != []
    && Committed(h[|h| - 1], initial, f)
    && InOrder(h)
  }

  ghost predicate Earlier(b: Book, now: Book) {
    b.sequence <= now.sequence && (b.sequence == now.sequence ==> b == now)
  }

  /** A write that changes the state had read exactly the state it replaced. */
  lemma WriteBuildsOnWhatItReplaces(read: Book, now: Book, w: Write, initial: map<string, Point>, f: Fingerprints)
    requires Committed(now, initial, f) && NeverBlank(f)
    requires forall i :: 0 <= i < |w.commands| ==> Normalized(w.commands[i])
    requires read.sequence == now.sequence ==> read == now
    ensures var b' := Written(read, now, w, f);
            b' == now || (read == now && b'.sequence > now.sequence && Committed(b', initial, f))
  {
    match Drafted(read, w.commands, w.clock, f)
    case Err(_) =>
    case Ok(d) =>
      DraftOpensAfterItsRead(read, w.commands, w.clock, f);
      if d.statements != [] {
        if read.sequence != now.sequence {
          StaleDraftAborts(read, now, w.commands, w.clock, w.taken, f);
        } else {
          CurrentDraftCommits(now, w.commands, w.clock, initial, w.taken, f);
        }
      }
  }

  /** A root row that is still current makes the whole read current, whenever the other parts were read. */
  lemma CurrentRootIsWholeRead(h: seq<Book>, r: Read, initial: map<string, Point>, f: Fingerprints)
    requires Settled(h, initial, f) && InTime(r, |h| - 1)
    ensures Pieced(h, r).sequence <= h[|h| - 1].sequence
    ensures Pieced(h, r).sequence == h[|h| - 1].sequence ==> Pieced(h, r) == h[|h| - 1]
  {
    PiecedTakesEachPart(h, r);
    var now := h[|h| - 1];
    assert Earlier(h[r.root], now);
    forall i | i in {r.tasks, r.transitions, r.ledger, r.receipts}
      ensures h[r.root].sequence == now.sequence ==> h[i] == now
    {
      assert Earlier(h[r.root], h[i]) && Earlier(h[i], now);
    }
  }

  ghost predicate InOrder(h: seq<Book>) {
    forall i, j :: 0 <= i <= j < |h| ==> Earlier(h[i], h[j])
  }

  lemma OneMoreState(h: seq<Book>, next: Book)
    requires h != [] && InOrder(h) && (next == h[|h| - 1] || next.sequence > h[|h| - 1].sequence)
    ensures InOrder(h + [next])
  {
    var h' := h + [next];
    forall i, j | 0 <= i <= j < |h'| ensures Earlier(h'[i], h'[j]) {
      if i < |h| { assert Earlier(h[i], h[|h| - 1]); }
      if j < |h| { assert Earlier(h[i], h[j]); }
    }
  }

  lemma HistoryGrows(h: seq<Book>, w: Write, initial: map<string, Point>, f: Fingerprints)
    requires Settled(h, initial, f) && NeverBlank(f) && InTime(w.read, |h| - 1)
    requires forall i :: 0 <= i < |w.commands| ==> Normalized(w.commands[i])
    ensures Settled(h + [Written(Pieced(h, w.read), h[|h| - 1], w, f)], initial, f)
  {
    var now := h[|h| - 1];
    CurrentRootIsWholeRead(h, w.read, initial, f);
    WriteBuildsOnWhatItReplaces(Pieced(h, w.read), now, w, initial, f);
    OneMoreState(h, Written(Pieced(h, w.read), now, w, f));
  }

  /**
   In every run, with every write piecing its read together from whatever earlier states, the state is always
   committed.
   */
  lemma {:induction false} EveryHistorySettles(b: Book, writes: seq<Write>, initial: map<string, Point>,
      f: Fingerprints)
    requires Committed(b, initial, f) && NeverBlank(f) && WellFormed(writes)
    ensures Settled(History(b, writes, f), initial, f)
    decreases writes
  {
    if writes != [] {
      var n := |writes| - 1;
      EveryHistorySettles(b, writes[..n], initial, f);
      HistoryGrows(History(b, writes[..n], f), writes[n], initial, f);
    }
  }

  /**
   No lost update: in every run, a write that changes anything had read the very state it replaces, in all its parts.
   */
  lemma {:induction false} NoLostUpdate(b: Book, writes: seq<Write>, w: Write, initial: map<string, Point>,
                                        f: Fingerprints)
    requires Committed(b, initial, f) && NeverBlank(f) && WellFormed(writes)
    requires InTime(w.read, |writes|) && forall i :: 0 <= i < |w.commands| ==> Normalized(w.commands[i])
    ensures var h := History(b, writes, f);
            var read, now := Pieced(h, w.read), h[|writes|];
            Written(read, now, w, f) != now ==> read == now && Written(read, now, w, f).sequence > now.sequence
  {
    EveryHistorySettles(b, writes, initial, f);
    var h := History(b, writes, f);
    CurrentRootIsWholeRead(h, w.read, initial, f);
    WriteBuildsOnWhatItReplaces(Pieced(h, w.read), h[|h| - 1], w, initial, f);
  }

  // ---------- what a committed state proves ----------

  /** The ledger check of an export: each row links to the one before and carries the fingerprint of its content. */
  function VerifiedHead(source: Source, ts: seq<Transition>, ls: seq<LedgerRow>, f: Fingerprints): Option<string>
    requires |ts| == |ls|
  {
    if ls == [] then Some(source.activityHead)
    else
      var n := |ls| - 1;
      match VerifiedHead(source, ts[..n], ls[..n], f)
      case None => None
      case Some(previous) =>
        if ls[n].previousHash == previous && ls[n].hash == f.entry(source, ts[n], previous) then Some(ls[n].hash)
            else None
  }

  lemma {:induction false} ChainVerifies(b: Book, n: nat, f: Fingerprints)
    requires Sealed(b, f) && Chain(b) && n <= |b.ledger|
    ensures VerifiedHead(b.source, b.transitions[..n], b.ledger[..n], f)
            == Some(if n == 0 then b.source.activityHead else b.ledger[n - 1].hash)
  {
    if n > 0 {
      ChainVerifies(b, n - 1, f);
      assert b.ledger[..n][..n - 1] == b.ledger[..n - 1] && b.transitions[..n][..n - 1] == b.transitions[..n - 1];
      assert n > 1 ==> b.ledger[n - 1].previousHash == b.ledger[n - 2].hash;
    }
  }

  /** In a committed state the ledger verifies and its head is the stored head. */
  lemma {:induction false} CommittedLedgerVerifies(b: Book, initial: map<string, Point>, f: Fingerprints)
    requires Committed(b, initial, f)
    ensures VerifiedHead(b.source, b.transitions, b.ledger, f) == Some(b.head)
  {
    ChainVerifies(b, |b.ledger|, f);
    assert b.ledger[..|b.ledger|] == b.ledger && b.transitions[..|b.ledger|] == b.transitions;
  }

  /** The sum of the revisions of a set of tasks. */
  ghost function TotalRevisions(points: map<string, Point>): int {
    if points == map[] then 0
    else
      var k :| k in points;
      points[k].revision + TotalRevisions(points - {k})
  }

  lemma {:induction false} TotalTakesOut(points: map<string, Point>, k: string)
    requires k in points
    ensures TotalRevisions(points) == points[k].revision + TotalRevisions(points - {k})
    decreases |points|
  {
    var first :| first in points && TotalRevisions(points) == points[first].revision + TotalRevisions(points - {first});
    if first != k {
      TotalTakesOut(points - {first}, k);
      TotalTakesOut(points - {k}, first);
      assert points - {first} - {k} == points - {k} - {first};
    }
  }

  /** Replaying a log raises the total of the task revisions by one for each transition. */
  lemma {:induction false} ReplayCountsTransitions(initial: map<string, Point>, log: seq<Transition>)
    requires Replay(initial, log).Some?
    requires forall i :: 0 <= i < |log| ==> log[i].revision == log[i].expectedRevision + 1
    ensures TotalRevisions(Replay(initial, log).value) == TotalRevisions(initial) + |log|
  {
    if log != [] {
      var rest, t := log[..|log| - 1], log[|log| - 1];
      ReplayCountsTransitions(initial, rest);
      var points, points' := Replay(initial, rest).value, Replay(initial, log).value;
      TotalTakesOut(points, t.taskId);
      TotalTakesOut(points', t.taskId);
      assert points' - {t.taskId} == points - {t.taskId};
    }
  }

  /**
   In a committed state, replaying the transitions in sequence order from the statuses the tasks were
   created with gives every task's status and revision, and the rise of all task revisions together is the
   runbook's sequence.
   */
  lemma {:induction false} ReplayReconstructsTasks(b: Book, initial: map<string, Point>, f: Fingerprints)
    requires Committed(b, initial, f)
    ensures Replay(initial, b.transitions) == Some(Points(b.tasks))
    ensures TotalRevisions(Points(b.tasks)) == TotalRevisions(initial) + b.sequence
  {
    forall i | 0 <= i < |b.transitions|
      ensures b.transitions[i].revision == b.transitions[i].expectedRevision + 1
    {
      assert StartsWhereTaskStood(b, b.transitions[i]);
    }
    ReplayCountsTransitions(initial, b.transitions);
  }

  /** Of two transitions of one task the later starts at the higher revision, and both below where the task stands. */
  lemma {:induction false} ReplayRises(initial: map<string, Point>, log: seq<Transition>)
    requires Replay(initial, log).Some?
    requires forall i :: 0 <= i < |log| ==> log[i].revision == log[i].expectedRevision + 1
    ensures forall i :: 0 <= i < |log| ==> StartsBelow(Replay(initial, log).value, log[i])
    ensures forall i, j :: 0 <= i < j < |log| && log[i].taskId == log[j].taskId ==>
            log[i].expectedRevision < log[j].expectedRevision
  {
    if log != [] {
      var rest := log[..|log| - 1];
      ReplayRises(initial, rest);
      forall i | 0 <= i < |rest| ensures StartsBelow(Replay(initial, rest).value, log[i]) {
        assert rest[i] == log[i];
      }
    }
  }

  ghost predicate StartsBelow(points: map<string, Point>, t: Transition) {
    t.taskId in points && t.expectedRevision < points[t.taskId].revision
  }

  /** What the triggers alone do not give: in a committed state no two transitions start from one revision of a task. */
  lemma OneTransitionOfEachRevision(b: Book, initial: map<string, Point>, f: Fingerprints)
    requires Committed(b, initial, f)
    ensures forall i, j :: 0 <= i < j < |b.transitions| && b.transitions[i].taskId == b.transitions[j].taskId ==>
              b.transitions[i].expectedRevision < b.transitions[j].expectedRevision
  {
    forall i | 0 <= i < |b.transitions| ensures b.transitions[i].revision == b.transitions[i].expectedRevision + 1 {
      assert StartsWhereTaskStood(b, b.transitions[i]);
    }
    ReplayRises(initial, b.transitions);
  }

  /** A runbook as `createRunbook` stores it is a committed state. */
  lemma CreationIsCommitted(b: Book, f: Fingerprints)
    requires Opening(b) && b.source.activityHead != ""
    requires forall k :: k in b.tasks ==> b.tasks[k].definition.scope == b.source.scope
    ensures Committed(b, Points(b.tasks), f)
  {
  }
}
