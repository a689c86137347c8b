/**
 What one call of the runbook repository does, said of its commands and of the tables it read and left: which
 commands are new, which are refused, what every new one stores, and what each is answered.
 */
module RunbookWritePath {
  import opened Results
  import opened RunbookLedger
  import opened RunbookCommit

  // ---------- commands that are new, and where they find their tasks ----------

  ghost predicate LastUnder(rs: seq<Receipt>, key: string, k: int) {
    && 0 <= k < |rs| && rs[k].idempotencyKey == key
    && forall l :: k < l < |rs| ==> rs[l].idempotencyKey != key
  }

  ghost predicate Recorded(b: Book, key: string) {
    exists k :: 0 <= k < |b.receipts| && b.receipts[k].idempotencyKey == key
  }

  /** What the read's latest receipt under a key says. */
  ghost predicate RecordedAs(b: Book, key: string, inputFingerprint: string, answer: Answer) {
    exists k :: LastUnder(b.receipts, key, k)
                && b.receipts[k].inputFingerprint == inputFingerprint && b.receipts[k].answer == answer
  }

  ghost predicate Used(commands: seq<Command>, key: string) {
    exists j :: 0 <= j < |commands| && commands[j].idempotencyKey == key
  }

  /** The command's key is on no receipt that was read and on no command before it. */
  ghost predicate IsNew(b: Book, commands: seq<Command>, i: int) {
    && 0 <= i < |commands|
    && !Recorded(b, commands[i].idempotencyKey)
    && forall j :: 0 <= j < i ==> commands[j].idempotencyKey != commands[i].idempotencyKey
  }

  /** The indices of the new commands, in order. */
  ghost function NewOnes(b: Book, commands: seq<Command>): seq<nat> {
    if commands == [] then []
    else
      var n := |commands| - 1;
      NewOnes(b, commands[..n]) + if IsNew(b, commands, n) then [n] else []
  }

  /** Where a task stands after the new ones among the commands: where the last of them for it asked it to go. */
  ghost function Standing(b: Book, commands: seq<Command>, taskId: string): Option<Point> {
    if commands == [] then
      if taskId in b.tasks then Some(Point(b.tasks[taskId].status, b.tasks[taskId].revision)) else None
    else
      var n := |commands| - 1;
      if IsNew(b, commands, n) && commands[n].taskId == taskId
      then Some(Point(commands[n].toStatus, commands[n].expectedRevision + 1))
      else Standing(b, commands[..n], taskId)
  }

  /** A new command finds its task where it expects it; a repeated key comes with the input it came with before. */
  ghost predicate Fits(b: Book, commands: seq<Command>, i: nat, f: Fingerprints)
    requires i < |commands|
  {
    var c := commands[i];
    if IsNew(b, commands, i) then
      Standing(b, commands[..i], c.taskId) == Some(Point(c.fromStatus, c.expectedRevision))
    else if Recorded(b, c.idempotencyKey) then
      exists answer :: RecordedAs(b, c.idempotencyKey, f.command(c), answer)
    else
      forall j :: 0 <= j < i && commands[j].idempotencyKey == c.idempotencyKey ==>
        f.command(commands[j]) == f.command(c)
  }

  ghost predicate AllFit(b: Book, commands: seq<Command>, f: Fingerprints) {
    forall i :: 0 <= i < |commands| ==> Fits(b, commands, i, f)
  }

  /** The first command that does not fit decides the refusal. */
  ghost predicate RefusedAt(b: Book, commands: seq<Command>, i: int, refusal: Refusal, f: Fingerprints) {
    && 0 <= i < |commands| && !Fits(b, commands, i, f)
    && (forall j :: 0 <= j < i ==> Fits(b, commands, j, f))
    && var c := commands[i];
       refusal == if IsNew(b, commands, i) then TransitionConflict(c.taskId, Standing(b, commands[..i], c.taskId))
                  else IdempotencyConflict(c.idempotencyKey)
  }

  ghost predicate Refuses(b: Book, commands: seq<Command>, refusal: Refusal, f: Fingerprints) {
    exists i :: RefusedAt(b, commands, i, refusal, f)
  }

  // ---------- what is answered and stored ----------

  /** The answer of the command at `i`, the `k`-th new one. */
  ghost predicate AnsweredAs(answer: Answer, c: Command, sequence: int, now: int) {
    answer == Applied(c.taskId, c.id, c.expectedRevision + 1, sequence, now)
  }

  /** Every new command is answered with its own transition, every other one as its key was answered before. */
  ghost predicate Answered(b: Book, commands: seq<Command>, clock: nat -> int, answers: seq<Answer>, f: Fingerprints) {
    var news := NewOnes(b, commands);
    && |answers| == |commands|
    && (forall k :: 0 <= k < |news| ==>
          news[k] < |commands| && AnsweredAs(answers[news[k]], commands[news[k]], b.sequence + k + 1, clock(news[k])))
    && (forall i, j :: 0 <= i < j < |commands| && commands[i].idempotencyKey == commands[j].idempotencyKey ==>
          answers[i] == answers[j])
    && (forall i :: 0 <= i < |commands| && Recorded(b, commands[i].idempotencyKey) ==>
          RecordedAs(b, commands[i].idempotencyKey, f.command(commands[i]), answers[i]))
  }

  /** A transition says what its command asked for, and when it was accepted. */
  ghost predicate Records(t: Transition, c: Command, scope: Scope, sequence: int, now: int, f: Fingerprints) {
    && t.id == c.id && t.taskId == c.taskId && t.scope == scope && t.sequence == sequence
    && t.fromStatus == c.fromStatus && t.toStatus == c.toStatus
    && t.expectedRevision == c.expectedRevision && t.revision == c.expectedRevision + 1
    && t.actor == c.actor && t.reasonCode == c.reasonCode && t.evidence == c.evidence
    && t.clientId == c.clientId && t.clientSequence == c.clientSequence && t.clientOccurredAt == c.clientOccurredAt
    && t.acceptedAt == now && t.idempotencyKey == c.idempotencyKey && t.inputFingerprint == f.command(c)
    && t.correlationId == if c.correlationId.Some? then c.correlationId.value else f.correlation(f.command(c))
  }

  /** The ledger row of a command: its transition, under the hash of the row before. */
  ghost predicate Enters(l: LedgerRow, t: Transition, c: Command, source: Source, now: int, f: Fingerprints) {
    && l.transitionId == c.id && l.scope == source.scope && l.sequence == t.sequence
    && l.actor == c.actor && l.occurredAt == now && l.hash == f.entry(source, t, l.previousHash)
  }

  /** The receipt of a command: its key, its input and its answer. */
  ghost predicate Receives(r: Receipt, t: Transition, c: Command, now: int, f: Fingerprints) {
    && r.transitionId == c.id && r.scope == t.scope && r.idempotencyKey == c.idempotencyKey
    && r.inputFingerprint == f.command(c) && r.correlationId == t.correlationId && r.occurredAt == now
    && AnsweredAs(r.answer, c, t.sequence, now)
  }

  ghost predicate RowsOf(read: Book, now: Book, b': Book, k: nat, c: Command, at: int, f: Fingerprints)
    requires |now.transitions| + k < |b'.transitions| && |now.ledger| + k < |b'.ledger|
    requires |now.receipts| + k < |b'.receipts|
  {
    var t := b'.transitions[|now.transitions| + k];
    && Records(t, c, now.source.scope, now.sequence + k + 1, at, f)
    && Enters(b'.ledger[|now.ledger| + k], t, c, read.source, at, f)
    && Receives(b'.receipts[|now.receipts| + k], t, c, at, f)
  }

  /** Each new command has added its three rows, in the order of the commands. */
  ghost predicate EvidenceStored(read: Book, now: Book, b': Book, commands: seq<Command>, clock: nat -> int,
                                 f: Fingerprints) {
    var news := NewOnes(read, commands);
    && now.transitions <= b'.transitions && |b'.transitions| == |now.transitions| + |news|
    && now.ledger <= b'.ledger && |b'.ledger| == |now.ledger| + |news|
    && now.receipts <= b'.receipts && |b'.receipts| == |now.receipts| + |news|
    && forall k :: 0 <= k < |news| ==>
         news[k] < |commands| && RowsOf(read, now, b', k, commands[news[k]], clock(news[k]), f)
  }

  /** The last new command of its task. */
  ghost predicate IsLast(read: Book, commands: seq<Command>, i: int) {
    && IsNew(read, commands, i)
    && forall j :: i < j < |commands| && IsNew(read, commands, j) ==> commands[j].taskId != commands[i].taskId
  }

  ghost predicate IsNamed(read: Book, commands: seq<Command>, taskId: string) {
    exists i :: IsNew(read, commands, i) && commands[i].taskId == taskId
  }

  /** Each task is where its last new command asked it to go; the others are as they were. */
  ghost predicate TasksStored(read: Book, now: Book, b': Book, commands: seq<Command>, clock: nat -> int) {
    && b'.tasks.Keys == now.tasks.Keys
    && (forall i :: IsLast(read, commands, i) ==> Moved(now, b', commands[i], clock(i)))
    && (forall taskId :: taskId in now.tasks && !IsNamed(read, commands, taskId) ==>
          b'.tasks[taskId] == now.tasks[taskId])
  }

  ghost predicate Moved(now: Book, b': Book, c: Command, at: int) {
    && c.taskId in now.tasks && c.taskId in b'.tasks
    && b'.tasks[c.taskId] ==
         Task(now.tasks[c.taskId].definition, c.toStatus, c.expectedRevision + 1, Some(c.id), at)
  }

  /** All that a committed batch leaves. */
  ghost predicate Stored(read: Book, now: Book, b': Book, commands: seq<Command>, clock: nat -> int, f: Fingerprints) {
    && EvidenceStored(read, now, b', commands, clock, f)
    && TasksStored(read, now, b', commands, clock)
    && b'.source == now.source && b'.sequence == now.sequence + |NewOnes(read, commands)|
    && (NewOnes(read, commands) == [] ==> b' == now)
  }

  // ---------- the new ones of a prefix ----------

  lemma {:induction false} NewOnesAreNew(b: Book, commands: seq<Command>)
    ensures forall k :: 0 <= k < |NewOnes(b, commands)| ==> IsNew(b, commands, NewOnes(b, commands)[k])
    ensures forall i :: IsNew(b, commands, i) ==> i in NewOnes(b, commands)
    ensures forall k, l :: 0 <= k < l < |NewOnes(b, commands)| ==> NewOnes(b, commands)[k] < NewOnes(b, commands)[l]
    decreases commands
  {
    if commands != [] {
      var n := |commands| - 1;
      var rest := NewOnes(b, commands[..n]);
      NewOnesAreNew(b, commands[..n]);
      SameInPrefix(b, commands);
      forall i | IsNew(b, commands, i) ensures i in NewOnes(b, commands) {
        if i < n { assert IsNew(b, commands[..n], i); }
      }
    }
  }

  lemma SameInPrefix(b: Book, commands: seq<Command>)
    requires commands != []
    ensures forall i :: 0 <= i < |commands| - 1 ==>
              (IsNew(b, commands[..|commands| - 1], i) <==> IsNew(b, commands, i))
  {
    forall i | 0 <= i < |commands| - 1
      ensures IsNew(b, commands[..|commands| - 1], i) <==> IsNew(b, commands, i)
    {
      var first := commands[..|commands| - 1];
      assert first[i] == commands[i];
      if IsNew(b, first, i) {
        forall j | 0 <= j < i ensures commands[j].idempotencyKey != commands[i].idempotencyKey {
          assert first[j] == commands[j];
        }
      }
    }
  }

  lemma FitsInPrefix(b: Book, commands: seq<Command>, i: nat, f: Fingerprints)
    requires i < |commands| - 1
    ensures Fits(b, commands[..|commands| - 1], i, f) <==> Fits(b, commands, i, f)
  {
    var first := commands[..|commands| - 1];
    SameInPrefix(b, commands);
    assert first[..i] == commands[..i] && first[i] == commands[i];
    assert forall j :: 0 <= j < i ==> first[j] == commands[j];
  }

  // ---------- the draft ----------

  function PointOf(points: map<string, Point>, taskId: string): Option<Point> {
    if taskId in points then Some(points[taskId]) else None
  }

  /** What a draft carries, said of the commands it was drafted from. */
  ghost predicate Tracks(d: Draft, b: Book, commands: seq<Command>) {
    && d.sequence == b.sequence + |NewOnes(b, commands)|
    && (forall key :: key in d.given <==> Recorded(b, key) || Used(commands, key))
    && (forall key :: Recorded(b, key) ==> RecordedAs(b, key, d.given[key].inputFingerprint, d.given[key].answer))
    && (forall taskId :: PointOf(d.points, taskId) == Standing(b, commands, taskId))
  }

  lemma {:induction false} GivenByTheLast(receipts: seq<Receipt>, key: string) returns (k: int)
    ensures key !in GivenBy(receipts) ==> forall l :: 0 <= l < |receipts| ==> receipts[l].idempotencyKey != key
    ensures key in GivenBy(receipts) ==>
              LastUnder(receipts, key, k)
              && GivenBy(receipts)[key] == Given(receipts[k].inputFingerprint, receipts[k].answer)
  {
    k := -1;
    if receipts != [] {
      var n := |receipts| - 1;
      k := GivenByTheLast(receipts[..n], key);
      if receipts[n].idempotencyKey == key {
        k := n;
      } else if key in GivenBy(receipts) {
        assert receipts[..n][k] == receipts[k];
        assert forall l :: k < l < n ==> receipts[..n][l] == receipts[l];
      } else {
        assert forall l :: 0 <= l < n ==> receipts[..n][l] == receipts[l];
      }
    }
  }

  lemma StartTracks(b: Book)
    ensures Tracks(Start(b), b, [])
  {
    forall key
      ensures key in GivenBy(b.receipts) <==> Recorded(b, key)
      ensures Recorded(b, key) ==>
                RecordedAs(b, key, GivenBy(b.receipts)[key].inputFingerprint, GivenBy(b.receipts)[key].answer)
    {
      var k := GivenByTheLast(b.receipts, key);
    }
  }

  lemma OneReceiptIsLast(b: Book, key: string, one: string, oneAnswer: Answer, other: string, otherAnswer: Answer)
    requires RecordedAs(b, key, one, oneAnswer) && RecordedAs(b, key, other, otherAnswer)
    ensures one == other && oneAnswer == otherAnswer
  {
    var k :| LastUnder(b.receipts, key, k) && b.receipts[k].inputFingerprint == one
             && b.receipts[k].answer == oneAnswer;
    var l :| LastUnder(b.receipts, key, l) && b.receipts[l].inputFingerprint == other
             && b.receipts[l].answer == otherAnswer;
    assert k == l;
  }

  /** Whether the next command is considered well, and how it is refused, is decided by what the draft tracks. */
  lemma FitDecides(d: Draft, b: Book, commands: seq<Command>, now: int, f: Fingerprints)
    requires commands != [] && Tracks(d, b, commands[..|commands| - 1])
    requires OnRecord(d, commands[..|commands| - 1], f)
    ensures var n := |commands| - 1;
            var c, result := commands[n], Consider(d, b, commands[n], now, f);
            && (result.Ok? <==> Fits(b, commands, n, f))
            && (result.Err? ==>
                  result.error == if IsNew(b, commands, n)
                                  then TransitionConflict(c.taskId, Standing(b, commands[..n], c.taskId))
                                  else IdempotencyConflict(c.idempotencyKey))
  {
    var n := |commands| - 1;
    var c := commands[n];
    NewByTheDraft(d, b, commands);
    assert PointOf(d.points, c.taskId) == Standing(b, commands[..n], c.taskId);
    if Recorded(b, c.idempotencyKey) {
      var g := d.given[c.idempotencyKey];
      if Fits(b, commands, n, f) {
        var answer :| RecordedAs(b, c.idempotencyKey, f.command(c), answer);
        OneReceiptIsLast(b, c.idempotencyKey, f.command(c), answer, g.inputFingerprint, g.answer);
      }
    } else if !IsNew(b, commands, n) {
      var j :| 0 <= j < n && commands[..n][j].idempotencyKey == c.idempotencyKey;
      assert d.given[commands[..n][j].idempotencyKey] == Given(f.command(commands[..n][j]), d.answers[j]);
      forall i | 0 <= i < n && commands[i].idempotencyKey == c.idempotencyKey
        ensures f.command(commands[i]) == d.given[c.idempotencyKey].inputFingerprint
      {
        assert commands[..n][i] == commands[i];
      }
    }
  }

  lemma NewByTheDraft(d: Draft, b: Book, commands: seq<Command>)
    requires commands != [] && Tracks(d, b, commands[..|commands| - 1])
    ensures IsNew(b, commands, |commands| - 1) <==> commands[|commands| - 1].idempotencyKey !in d.given
  {
    var n := |commands| - 1;
    assert forall j :: 0 <= j < n ==> commands[..n][j] == commands[j];
  }

  lemma UsedByOneMore(commands: seq<Command>, key: string)
    requires commands != []
    ensures Used(commands, key) <==>
              Used(commands[..|commands| - 1], key) || commands[|commands| - 1].idempotencyKey == key
  {
    var n := |commands| - 1;
    if Used(commands, key) {
      var j :| 0 <= j < |commands| && commands[j].idempotencyKey == key;
      assert j < n ==> commands[..n][j].idempotencyKey == key;
    }
    if Used(commands[..n], key) {
      var j :| 0 <= j < n && commands[..n][j].idempotencyKey == key;
      assert commands[j].idempotencyKey == key;
    }
  }

  lemma StandingOneMore(points: map<string, Point>, points': map<string, Point>, b: Book, commands: seq<Command>)
    requires commands != []
    requires forall taskId :: PointOf(points, taskId) == Standing(b, commands[..|commands| - 1], taskId)
    requires var c := commands[|commands| - 1];
             points' == if IsNew(b, commands, |commands| - 1)
                        then points[c.taskId := Point(c.toStatus, c.expectedRevision + 1)] else points
    ensures forall taskId :: PointOf(points', taskId) == Standing(b, commands, taskId)
  {
    forall taskId ensures PointOf(points', taskId) == Standing(b, commands, taskId) {
      assert PointOf(points, taskId) == Standing(b, commands[..|commands| - 1], taskId);
    }
  }

  lemma GivenOneMore(d: Draft, b: Book, commands: seq<Command>, g: Given, key: string)
    requires commands != [] && Tracks(d, b, commands[..|commands| - 1])
    ensures var c := commands[|commands| - 1];
            var given := if c.idempotencyKey in d.given then d.given else d.given[c.idempotencyKey := g];
            && (key in given <==> Recorded(b, key) || Used(commands, key))
            && (Recorded(b, key) ==> RecordedAs(b, key, given[key].inputFingerprint, given[key].answer))
  {
    UsedByOneMore(commands, key);
    assert key in d.given <==> Recorded(b, key) || Used(commands[..|commands| - 1], key);
  }

  lemma DraftTracksOneMore(d: Draft, b: Book, commands: seq<Command>, now: int, f: Fingerprints)
    requires commands != [] && Tracks(d, b, commands[..|commands| - 1])
    requires Consider(d, b, commands[|commands| - 1], now, f).Ok?
    ensures Tracks(Consider(d, b, commands[|commands| - 1], now, f).value, b, commands)
  {
    var n := |commands| - 1;
    var c, d' := commands[n], Consider(d, b, commands[n], now, f).value;
    NewByTheDraft(d, b, commands);
    StandingOneMore(d.points, d'.points, b, commands);
    forall key
      ensures key in d'.given <==> Recorded(b, key) || Used(commands, key)
      ensures Recorded(b, key) ==> RecordedAs(b, key, d'.given[key].inputFingerprint, d'.given[key].answer)
    {
      GivenOneMore(d, b, commands, d'.given[c.idempotencyKey], key);
    }
  }

  /** Every new command is answered with its own transition, and numbered after the sequence that was read. */
  ghost predicate NewAnswers(answers: seq<Answer>, b: Book, commands: seq<Command>, clock: nat -> int) {
    var news := NewOnes(b, commands);
    && |answers| == |commands|
    && forall k :: 0 <= k < |news| ==>
         news[k] < |commands| && AnsweredAs(answers[news[k]], commands[news[k]], b.sequence + k + 1, clock(news[k]))
  }

  lemma {:induction false} OneMoreAnswer(answers: seq<Answer>, b: Book, commands: seq<Command>, clock: nat -> int,
                                         answer: Answer)
    requires commands != [] && NewAnswers(answers, b, commands[..|commands| - 1], clock)
    requires var n := |commands| - 1;
             IsNew(b, commands, n) ==>
               AnsweredAs(answer, commands[n], b.sequence + |NewOnes(b, commands[..n])| + 1, clock(n))
    ensures NewAnswers(answers + [answer], b, commands, clock)
  {
    var n := |commands| - 1;
    var rest := NewOnes(b, commands[..n]);
    forall k | 0 <= k < |rest|
      ensures AnsweredAs((answers + [answer])[rest[k]], commands[rest[k]], b.sequence + k + 1, clock(rest[k]))
    {
      assert commands[..n][rest[k]] == commands[rest[k]];
    }
  }

  lemma AnsweredOneMore(d: Draft, b: Book, commands: seq<Command>, clock: nat -> int, f: Fingerprints)
    requires commands != [] && Tracks(d, b, commands[..|commands| - 1])
    requires NewAnswers(d.answers, b, commands[..|commands| - 1], clock)
    requires Consider(d, b, commands[|commands| - 1], clock(|commands| - 1), f).Ok?
    ensures NewAnswers(Consider(d, b, commands[|commands| - 1], clock(|commands| - 1), f).value.answers, b, commands,
                       clock)
  {
    var n := |commands| - 1;
    NewByTheDraft(d, b, commands);
    var answers := Consider(d, b, commands[n], clock(n), f).value.answers;
    assert answers == d.answers + [answers[n]];
    OneMoreAnswer(d.answers, b, commands, clock, answers[n]);
  }

  /** Every command of the draft's list fits, or the first that does not is the one it was refused for. */
  ghost predicate Decided(result: Result<Draft, Refusal>, b: Book, commands: seq<Command>, clock: nat -> int,
                          f: Fingerprints) {
    match result
    case Ok(d) => AllFit(b, commands, f) && Tracks(d, b, commands) && NewAnswers(d.answers, b, commands, clock)
    case Err(refusal) => Refuses(b, commands, refusal, f)
  }

  lemma {:induction false} DraftDecides(b: Book, commands: seq<Command>, clock: nat -> int, f: Fingerprints)
    ensures Decided(Drafted(b, commands, clock, f), b, commands, clock, f)
    decreases commands
  {
    if commands == [] {
      StartTracks(b);
    } else {
      var n := |commands| - 1;
      DraftDecides(b, commands[..n], clock, f);
      match Drafted(b, commands[..n], clock, f)
      case Err(refusal) =>
        var i :| RefusedAt(b, commands[..n], i, refusal, f);
        RefusedInPrefix(b, commands, i, refusal, f);
      case Ok(d) =>
        AnswersAreOnRecord(b, commands[..n], clock, f);
        FitDecides(d, b, commands, clock(n), f);
        EarlierOnesFit(b, commands, f);
        if Fits(b, commands, n, f) {
          DraftTracksOneMore(d, b, commands, clock(n), f);
          AnsweredOneMore(d, b, commands, clock, f);
        } else {
          assert RefusedAt(b, commands, n, Drafted(b, commands, clock, f).error, f);
        }
    }
  }

  lemma RefusedInPrefix(b: Book, commands: seq<Command>, i: nat, refusal: Refusal, f: Fingerprints)
    requires commands != [] && RefusedAt(b, commands[..|commands| - 1], i, refusal, f)
    ensures RefusedAt(b, commands, i, refusal, f)
  {
    var first := commands[..|commands| - 1];
    SameInPrefix(b, commands);
    assert first[..i] == commands[..i] && first[i] == commands[i];
    forall j | 0 <= j <= i ensures Fits(b, first, j, f) <==> Fits(b, commands, j, f) {
      FitsInPrefix(b, commands, j, f);
    }
  }

  lemma EarlierOnesFit(b: Book, commands: seq<Command>, f: Fingerprints)
    requires commands != [] && AllFit(b, commands[..|commands| - 1], f)
    ensures forall i :: 0 <= i < |commands| - 1 ==> Fits(b, commands, i, f)
  {
    forall i | 0 <= i < |commands| - 1 ensures Fits(b, commands, i, f) {
      FitsInPrefix(b, commands, i, f);
    }
  }

  /** What a draft that was not refused answers. */
  lemma {:induction false} DraftAnswers(b: Book, commands: seq<Command>, clock: nat -> int, f: Fingerprints)
    requires Drafted(b, commands, clock, f).Ok?
    ensures Answered(b, commands, clock, Drafted(b, commands, clock, f).value.answers, f)
  {
    DraftDecides(b, commands, clock, f);
    AnswersAreOnRecord(b, commands, clock, f);
  }

  // ---------- the batch ----------

  /** The book with the rows of one more command. */
  function WithRows(b: Book, source: Source, t: Transition, previous: string, f: Fingerprints): Book
    requires t.taskId in b.tasks
  {
    b.(transitions := b.transitions + [t], ledger := b.ledger + [EntryFor(source, t, previous, f)],
       receipts := b.receipts + [ReceiptFor(t)],
       tasks := b.tasks[t.taskId := Task(b.tasks[t.taskId].definition, t.toStatus, t.revision, Some(t.id),
                                         t.acceptedAt)],
       sequence := t.sequence, head := f.entry(source, t, previous), updatedAt := t.acceptedAt)
  }

  lemma {:induction false} FirstStep(b: Book, ss: seq<Statement>, taken: set<string>) returns (b': Book)
    requires ss != [] && Batch(b, ss, taken).Ok?
    ensures Execute(b, ss[0], taken) == Ok(b') && Batch(b', ss[1..], taken) == Batch(b, ss, taken)
  {
    b' := Execute(b, ss[0], taken).value;
  }

  lemma {:induction false} FiveSteps(b: Book, ss: seq<Statement>, taken: set<string>) returns (bs: seq<Book>)
    requires |ss| == 5 && Batch(b, ss, taken).Ok?
    ensures |bs| == 6 && bs[0] == b && Batch(b, ss, taken) == Ok(bs[5])
    ensures forall i :: 0 <= i < 5 ==> Execute(bs[i], ss[i], taken) == Ok(bs[i + 1])
  {
    bs := [b];
    for i := 0 to 5
      invariant |bs| == i + 1 && bs[0] == b && Batch(bs[i], ss[i..], taken) == Batch(b, ss, taken)
      invariant forall j :: 0 <= j < i ==> Execute(bs[j], ss[j], taken) == Ok(bs[j + 1])
    {
      var b' := FirstStep(bs[i], ss[i..], taken);
      assert ss[i..][1..] == ss[i + 1..] && ss[i..][0] == ss[i];
      bs := bs + [b'];
    }
  }

  /** The five statements of a command go through only under its opening guard, and leave exactly its rows. */
  lemma {:induction false} FiveLeave(b: Book, source: Source, t: Transition, previous: string, taken: set<string>,
                                     f: Fingerprints)
    requires Batch(b, StatementsFor(source, t, previous, f), taken).Ok?
    ensures t.taskId in b.tasks && b.source.scope == t.scope && t.sequence == b.sequence + 1 && previous == b.head
    ensures Batch(b, StatementsFor(source, t, previous, f), taken).value == WithRows(b, source, t, previous, f)
  {
    var ss := StatementsFor(source, t, previous, f);
    var bs := FiveSteps(b, ss, taken);
    assert Execute(bs[0], ss[0], taken) == Ok(bs[1]) && Execute(bs[1], ss[1], taken) == Ok(bs[2]);
    assert bs[2] == b.(transitions := b.transitions + [t], ledger := b.ledger + [EntryFor(source, t, previous, f)]);
    assert Execute(bs[2], ss[2], taken) == Ok(bs[3]) && Execute(bs[3], ss[3], taken) == Ok(bs[4]);
    assert Execute(bs[4], ss[4], taken) == Ok(bs[5]);
  }

  /** The row a command asks for is the row its transition becomes. */
  lemma TransitionRecords(read: Book, c: Command, sequence: int, now: int, previous: string, f: Fingerprints)
    ensures var t := TransitionFor(read, c, sequence, now, f);
            && Records(t, c, read.source.scope, sequence, now, f)
            && Enters(EntryFor(read.source, t, previous, f), t, c, read.source, now, f)
            && Receives(ReceiptFor(t), t, c, now, f)
  {
  }

  lemma LastInPrefix(read: Book, commands: seq<Command>, i: nat)
    requires IsLast(read, commands, i) && i < |commands| - 1
    ensures IsLast(read, commands[..|commands| - 1], i) && commands[..|commands| - 1][i] == commands[i]
    ensures IsNew(read, commands, |commands| - 1) ==> commands[|commands| - 1].taskId != commands[i].taskId
  {
    var first := commands[..|commands| - 1];
    SameInPrefix(read, commands);
    forall j | i < j < |first| && IsNew(read, first, j) ensures first[j].taskId != first[i].taskId {
      assert IsNew(read, commands, j) && first[j] == commands[j];
    }
  }

  lemma NamedInPrefix(read: Book, commands: seq<Command>, taskId: string)
    requires commands != [] && !IsNamed(read, commands, taskId)
    ensures !IsNamed(read, commands[..|commands| - 1], taskId)
    ensures IsNew(read, commands, |commands| - 1) ==> commands[|commands| - 1].taskId != taskId
  {
    var first := commands[..|commands| - 1];
    SameInPrefix(read, commands);
    forall i | IsNew(read, first, i) ensures first[i].taskId != taskId {
      assert IsNew(read, commands, i) && first[i] == commands[i];
    }
  }

  lemma OldCommandStoresNothing(read: Book, now: Book, b1: Book, commands: seq<Command>, clock: nat -> int,
                                f: Fingerprints)
    requires commands != [] && Stored(read, now, b1, commands[..|commands| - 1], clock, f)
    requires !IsNew(read, commands, |commands| - 1)
    ensures Stored(read, now, b1, commands, clock, f)
  {
    OldCommandMovesNothing(read, now, b1, commands, clock);
    assert NewOnes(read, commands) == NewOnes(read, commands[..|commands| - 1]);
    assert forall i :: 0 <= i < |commands| - 1 ==> commands[..|commands| - 1][i] == commands[i];
  }

  lemma OldCommandMovesNothing(read: Book, now: Book, b1: Book, commands: seq<Command>, clock: nat -> int)
    requires commands != [] && TasksStored(read, now, b1, commands[..|commands| - 1], clock)
    requires !IsNew(read, commands, |commands| - 1)
    ensures TasksStored(read, now, b1, commands, clock)
  {
    forall i | IsLast(read, commands, i) ensures Moved(now, b1, commands[i], clock(i)) {
      LastInPrefix(read, commands, i);
    }
    forall taskId | taskId in now.tasks && !IsNamed(read, commands, taskId)
      ensures b1.tasks[taskId] == now.tasks[taskId]
    {
      NamedInPrefix(read, commands, taskId);
    }
  }

  lemma {:induction false} NewCommandStoresItsRows(read: Book, now: Book, b1: Book, commands: seq<Command>,
                                                   clock: nat -> int, t: Transition, previous: string,
                                                   f: Fingerprints)
    requires commands != [] && EvidenceStored(read, now, b1, commands[..|commands| - 1], clock, f)
    requires IsNew(read, commands, |commands| - 1) && t.taskId in b1.tasks
    requires var n := |commands| - 1;
             && Records(t, commands[n], now.source.scope, now.sequence + |NewOnes(read, commands[..n])| + 1, clock(n),
                        f)
             && Enters(EntryFor(read.source, t, previous, f), t, commands[n], read.source, clock(n), f)
             && Receives(ReceiptFor(t), t, commands[n], clock(n), f)
    ensures EvidenceStored(read, now, WithRows(b1, read.source, t, previous, f), commands, clock, f)
  {
    var n := |commands| - 1;
    var rest, b' := NewOnes(read, commands[..n]), WithRows(b1, read.source, t, previous, f);
    forall k | 0 <= k < |rest|
      ensures RowsOf(read, now, b', k, commands[rest[k]], clock(rest[k]), f)
    {
      assert commands[..n][rest[k]] == commands[rest[k]];
      assert RowsOf(read, now, b1, k, commands[rest[k]], clock(rest[k]), f);
    }
  }

  /** Definitions stay. */
  ghost predicate SameDefinitions(now: Book, b': Book) {
    forall taskId :: taskId in now.tasks && taskId in b'.tasks ==>
      b'.tasks[taskId].definition == now.tasks[taskId].definition
  }

  lemma LastOneMoved(read: Book, now: Book, b1: Book, b': Book, commands: seq<Command>, clock: nat -> int, i: nat)
    requires commands != [] && TasksStored(read, now, b1, commands[..|commands| - 1], clock)
    requires IsNew(read, commands, |commands| - 1) && IsLast(read, commands, i) && i < |commands| - 1
    requires forall k :: k in b1.tasks && k != commands[|commands| - 1].taskId ==>
               k in b'.tasks && b'.tasks[k] == b1.tasks[k]
    ensures Moved(now, b', commands[i], clock(i))
  {
    LastInPrefix(read, commands, i);
    assert Moved(now, b1, commands[i], clock(i));
  }

  lemma OthersStay(read: Book, now: Book, b1: Book, b': Book, commands: seq<Command>, clock: nat -> int)
    requires commands != [] && TasksStored(read, now, b1, commands[..|commands| - 1], clock)
    requires IsNew(read, commands, |commands| - 1)
    requires forall k :: k in b1.tasks && k != commands[|commands| - 1].taskId ==>
               k in b'.tasks && b'.tasks[k] == b1.tasks[k]
    ensures forall taskId :: taskId in now.tasks && taskId in b'.tasks && !IsNamed(read, commands, taskId) ==>
              b'.tasks[taskId] == now.tasks[taskId]
  {
    forall taskId | taskId in now.tasks && taskId in b'.tasks && !IsNamed(read, commands, taskId)
      ensures b'.tasks[taskId] == now.tasks[taskId]
    {
      NamedInPrefix(read, commands, taskId);
    }
  }

  lemma NewCommandMovesItsTask(read: Book, now: Book, b1: Book, b': Book, commands: seq<Command>, clock: nat -> int)
    requires commands != [] && TasksStored(read, now, b1, commands[..|commands| - 1], clock)
    requires IsNew(read, commands, |commands| - 1) && SameDefinitions(now, b1)
    requires var c := commands[|commands| - 1];
             && c.taskId in b1.tasks
             && b'.tasks == b1.tasks[c.taskId := Task(b1.tasks[c.taskId].definition, c.toStatus,
                                                      c.expectedRevision + 1, Some(c.id), clock(|commands| - 1))]
    ensures TasksStored(read, now, b', commands, clock)
  {
    assert b1.tasks.Keys == now.tasks.Keys;
    forall i | IsLast(read, commands, i) ensures Moved(now, b', commands[i], clock(i)) {
      if i < |commands| - 1 {
        LastOneMoved(read, now, b1, b', commands, clock, i);
      }
    }
    OthersStay(read, now, b1, b', commands, clock);
    assert b'.tasks.Keys == now.tasks.Keys;
  }

  lemma {:induction false} OneMoreStored(read: Book, now: Book, b1: Book, b': Book, t: Transition, previous: string,
                      commands: seq<Command>, clock: nat -> int, taken: set<string>, f: Fingerprints)
    requires commands != [] && Stored(read, now, b1, commands[..|commands| - 1], clock, f) && SameDefinitions(now, b1)
    requires IsNew(read, commands, |commands| - 1)
    requires t == TransitionFor(read, commands[|commands| - 1], t.sequence, clock(|commands| - 1), f)
    requires Batch(b1, StatementsFor(read.source, t, previous, f), taken) == Ok(b')
    ensures Stored(read, now, b', commands, clock, f) && SameDefinitions(now, b') && t.sequence == b1.sequence + 1
  {
    FiveLeave(b1, read.source, t, previous, taken, f);
    assert SameDefinitions(now, b');
    EvidenceOfOneMore(read, now, b1, t, previous, commands, clock, f);
    NewCommandMovesItsTask(read, now, b1, b', commands, clock);
  }

  lemma EvidenceOfOneMore(read: Book, now: Book, b1: Book, t: Transition, previous: string,
                          commands: seq<Command>, clock: nat -> int, f: Fingerprints)
    requires commands != [] && Stored(read, now, b1, commands[..|commands| - 1], clock, f)
    requires IsNew(read, commands, |commands| - 1) && t.taskId in b1.tasks
    requires t == TransitionFor(read, commands[|commands| - 1], t.sequence, clock(|commands| - 1), f)
    requires t.scope == b1.source.scope && t.sequence == b1.sequence + 1
    ensures EvidenceStored(read, now, WithRows(b1, read.source, t, previous, f), commands, clock, f)
  {
    var n := |commands| - 1;
    TransitionRecords(read, commands[n], t.sequence, clock(n), previous, f);
    NewCommandStoresItsRows(read, now, b1, commands, clock, t, previous, f);
  }

  /** The transition of the last command, if it is new. */
  function LastTransition(b: Book, d: Draft, commands: seq<Command>, clock: nat -> int, f: Fingerprints): Transition
    requires commands != []
  {
    TransitionFor(b, commands[|commands| - 1], d.sequence + 1, clock(|commands| - 1), f)
  }

  /** A draft has the statements of the draft before its last command, and those of that command if it is new. */
  lemma {:induction false} DraftSplits(b: Book, commands: seq<Command>, clock: nat -> int, f: Fingerprints)
    requires commands != [] && Drafted(b, commands, clock, f).Ok?
    ensures Drafted(b, commands[..|commands| - 1], clock, f).Ok?
    ensures var d := Drafted(b, commands[..|commands| - 1], clock, f).value;
            && (IsNew(b, commands, |commands| - 1) <==> commands[|commands| - 1].idempotencyKey !in d.given)
            && Consider(d, b, commands[|commands| - 1], clock(|commands| - 1), f) == Drafted(b, commands, clock, f)
            && d.sequence == b.sequence + |NewOnes(b, commands[..|commands| - 1])|
            && Drafted(b, commands, clock, f).value.statements
               == d.statements + if IsNew(b, commands, |commands| - 1)
                                 then StatementsFor(b.source, LastTransition(b, d, commands, clock, f), d.head, f)
                                 else []
  {
    var first := commands[..|commands| - 1];
    DraftDecides(b, first, clock, f);
    NewByTheDraft(Drafted(b, first, clock, f).value, b, commands);
  }

  lemma {:induction false} SplitBatch(now: Book, xs: seq<Statement>, ys: seq<Statement>, taken: set<string>)
    ensures Batch(now, xs, taken).Err? ==> Batch(now, xs + ys, taken) == Batch(now, xs, taken)
    ensures Batch(now, xs, taken).Ok? ==> Batch(now, xs + ys, taken) == Batch(Batch(now, xs, taken).value, ys, taken)
  {
    if Batch(now, xs, taken).Ok? {
      BatchAppends(now, xs, ys, taken);
    } else {
      FailedBatchStaysFailed(now, xs, ys, taken);
    }
  }

  /** What a batch that went through has stored. */
  ghost predicate HasStored(read: Book, now: Book, result: Result<Book, Abort>, commands: seq<Command>,
                            clock: nat -> int, f: Fingerprints) {
    result.Ok? ==>
      && Stored(read, now, result.value, commands, clock, f) && SameDefinitions(now, result.value)
      && (NewOnes(read, commands) != [] ==> read.sequence == now.sequence)
  }

  /** A draft's batch that goes through has stored what its commands ask for, whatever was read. */
  lemma {:induction false} BatchStores(read: Book, now: Book, commands: seq<Command>, clock: nat -> int,
                                       taken: set<string>, f: Fingerprints)
    requires Drafted(read, commands, clock, f).Ok?
    ensures HasStored(read, now, Batch(now, Drafted(read, commands, clock, f).value.statements, taken), commands, clock,
                      f)
    decreases commands
  {
    if commands != [] {
      DraftSplits(read, commands, clock, f);
      BatchStores(read, now, commands[..|commands| - 1], clock, taken, f);
      StoresOneMore(read, now, Drafted(read, commands[..|commands| - 1], clock, f).value,
                    Drafted(read, commands, clock, f).value, commands, clock, taken, f);
    }
  }

  lemma {:induction false} StoresOneMore(read: Book, now: Book, d: Draft, d': Draft, commands: seq<Command>,
                                         clock: nat -> int, taken: set<string>, f: Fingerprints)
    requires commands != []
    requires HasStored(read, now, Batch(now, d.statements, taken), commands[..|commands| - 1], clock, f)
    requires d.sequence == read.sequence + |NewOnes(read, commands[..|commands| - 1])|
    requires d'.statements == d.statements + if IsNew(read, commands, |commands| - 1)
                                 then StatementsFor(read.source, LastTransition(read, d, commands, clock, f), d.head, f)
                                 else []
    ensures HasStored(read, now, Batch(now, d'.statements, taken), commands, clock, f)
  {
    var result := Batch(now, d'.statements, taken);
    if result.Ok? {
      if !IsNew(read, commands, |commands| - 1) {
        assert d'.statements == d.statements;
        OldCommandStoresNothing(read, now, result.value, commands, clock, f);
      } else {
        var t := LastTransition(read, d, commands, clock, f);
        SplitBatch(now, d.statements, StatementsFor(read.source, t, d.head, f), taken);
        OneMoreStored(read, now, Batch(now, d.statements, taken).value, result.value, t, d.head, commands, clock, taken,
                      f);
      }
    }
  }

  // ---------- when a batch goes through ----------

  /** No transition, of this runbook or another, has the command's id, and none of this one its client sequence. */
  ghost predicate Unused(ts: seq<Transition>, c: Command, taken: set<string>) {
    && c.id !in taken
    && forall i :: 0 <= i < |ts| ==>
         ts[i].id != c.id && !(ts[i].clientId == c.clientId && ts[i].clientSequence == c.clientSequence)
  }

  ghost predicate Differ(c: Command, c': Command) {
    c.id != c'.id && !(c.clientId == c'.clientId && c.clientSequence == c'.clientSequence)
  }

  /** The new commands use ids and client sequences that are free, and no two of them the same. */
  ghost predicate AllUnused(b: Book, commands: seq<Command>, taken: set<string>) {
    && (forall i :: IsNew(b, commands, i) ==> Unused(b.transitions, commands[i], taken))
    && (forall i, j :: i < j && IsNew(b, commands, i) && IsNew(b, commands, j) ==> Differ(commands[i], commands[j]))
  }

  /** The command uses what neither a stored transition nor one of the new commands before it uses. */
  ghost predicate UnusedBeside(b: Book, before: seq<Command>, c: Command, taken: set<string>) {
    && Unused(b.transitions, c, taken)
    && forall i :: IsNew(b, before, i) ==> Differ(before[i], c)
  }

  /** The `i`-th transition after a batch is the one before it at that place, or that of a new command. */
  lemma OldOrOfACommand(b: Book, b1: Book, commands: seq<Command>, clock: nat -> int, f: Fingerprints, i: nat)
    returns (from: nat)
    requires EvidenceStored(b, b, b1, commands, clock, f) && i < |b1.transitions|
    ensures i < |b.transitions| ==> b1.transitions[i] == b.transitions[i]
    ensures i >= |b.transitions| ==>
              IsNew(b, commands, from)
              && Records(b1.transitions[i], commands[from], b.source.scope, b.sequence + i - |b.transitions| + 1,
                         clock(from), f)
  {
    if i >= |b.transitions| {
      var k := i - |b.transitions|;
      NewOnesAreNew(b, commands);
      from := NewOnes(b, commands)[k];
      assert RowsOf(b, b, b1, k, commands[from], clock(from), f);
    } else {
      from := 0;
    }
  }

  lemma HasItsTransition(b: Book, b1: Book, commands: seq<Command>, clock: nat -> int, f: Fingerprints, i: nat)
    returns (at: nat)
    requires EvidenceStored(b, b, b1, commands, clock, f) && IsNew(b, commands, i)
    ensures at < |b1.transitions|
    ensures b1.transitions[at].id == commands[i].id
            && b1.transitions[at].clientId == commands[i].clientId
            && b1.transitions[at].clientSequence == commands[i].clientSequence
  {
    NewOnesAreNew(b, commands);
    var k :| 0 <= k < |NewOnes(b, commands)| && NewOnes(b, commands)[k] == i;
    at := |b.transitions| + k;
    assert RowsOf(b, b, b1, k, commands[i], clock(i), f);
  }

  /** Whether an id and a client sequence are free after a batch depends on the rows before and its commands. */
  lemma FreeIff(b: Book, b1: Book, commands: seq<Command>, clock: nat -> int, c: Command, taken: set<string>,
                f: Fingerprints)
    requires EvidenceStored(b, b, b1, commands, clock, f)
    ensures Unused(b1.transitions, c, taken) <==> UnusedBeside(b, commands, c, taken)
  {
    if Unused(b1.transitions, c, taken) {
      assert forall i :: 0 <= i < |b.transitions| ==> b1.transitions[i] == b.transitions[i];
      forall i | IsNew(b, commands, i) ensures Differ(commands[i], c) {
        var at := HasItsTransition(b, b1, commands, clock, f, i);
      }
    }
    if UnusedBeside(b, commands, c, taken) {
      forall i | 0 <= i < |b1.transitions|
        ensures b1.transitions[i].id != c.id
        ensures !(b1.transitions[i].clientId == c.clientId && b1.transitions[i].clientSequence == c.clientSequence)
      {
        var from := OldOrOfACommand(b, b1, commands, clock, f, i);
        assert i >= |b.transitions| ==> Differ(commands[from], c);
      }
    }
  }

  /** A new command's key and number are on no transition. */
  lemma KeysAreFree(b: Book, b1: Book, commands: seq<Command>, clock: nat -> int, f: Fingerprints)
    requires commands != [] && IsNew(b, commands, |commands| - 1) && Receipted(b) && Sound(b1)
    requires EvidenceStored(b, b, b1, commands[..|commands| - 1], clock, f) && |b1.transitions| == b1.sequence
    ensures forall i :: 0 <= i < |b1.transitions| ==>
              b1.transitions[i].idempotencyKey != commands[|commands| - 1].idempotencyKey
              && b1.transitions[i].sequence != b1.sequence + 1
  {
    var c, first := commands[|commands| - 1], commands[..|commands| - 1];
    forall i | 0 <= i < |b1.transitions|
      ensures b1.transitions[i].idempotencyKey != c.idempotencyKey && b1.transitions[i].sequence != b1.sequence + 1
    {
      var from := OldOrOfACommand(b, b1, first, clock, f, i);
      if i < |b.transitions| {
        assert b.receipts[i] == ReceiptFor(b.transitions[i]);
        assert b.receipts[i].idempotencyKey != c.idempotencyKey;
      } else {
        assert first[from] == commands[from];
      }
    }
  }

  ghost predicate AllNormalized(commands: seq<Command>) {
    forall i :: 0 <= i < |commands| ==> Normalized(commands[i])
  }

  /** A draft of the state it is executed on goes through exactly if its new commands use nothing twice. */
  lemma {:induction false} CurrentBatchSucceedsIff(b: Book, commands: seq<Command>, clock: nat -> int,
                                                   initial: map<string, Point>, taken: set<string>, f: Fingerprints)
    requires Committed(b, initial, f) && NeverBlank(f) && AllNormalized(commands)
    requires Drafted(b, commands, clock, f).Ok?
    ensures Batch(b, Drafted(b, commands, clock, f).value.statements, taken).Ok? <==> AllUnused(b, commands, taken)
    decreases commands
  {
    if commands != [] {
      var n := |commands| - 1;
      CurrentBatchSucceedsIff(b, commands[..n], clock, initial, taken, f);
      DraftSplits(b, commands, clock, f);
      SucceedsOneMoreIff(b, Drafted(b, commands[..n], clock, f).value, Drafted(b, commands, clock, f).value, commands,
                         clock, initial, taken, f);
    }
  }

  lemma {:induction false} SucceedsOneMoreIff(b: Book, d: Draft, d': Draft, commands: seq<Command>, clock: nat -> int,
                                              initial: map<string, Point>, taken: set<string>, f: Fingerprints)
    requires Committed(b, initial, f) && NeverBlank(f) && AllNormalized(commands) && commands != []
    requires Drafted(b, commands[..|commands| - 1], clock, f) == Ok(d)
    requires Consider(d, b, commands[|commands| - 1], clock(|commands| - 1), f).Ok?
    requires IsNew(b, commands, |commands| - 1) <==> commands[|commands| - 1].idempotencyKey !in d.given
    requires d'.statements == d.statements + if IsNew(b, commands, |commands| - 1)
                                 then StatementsFor(b.source, LastTransition(b, d, commands, clock, f), d.head, f)
                                 else []
    requires Batch(b, d.statements, taken).Ok? <==> AllUnused(b, commands[..|commands| - 1], taken)
    ensures Batch(b, d'.statements, taken).Ok? <==> AllUnused(b, commands, taken)
  {
    UnusedOneMore(b, commands, taken);
    if !IsNew(b, commands, |commands| - 1) {
      assert d'.statements == d.statements;
    } else {
      var t := LastTransition(b, d, commands, clock, f);
      SplitBatch(b, d.statements, StatementsFor(b.source, t, d.head, f), taken);
      if Batch(b, d.statements, taken).Ok? {
        CurrentDraftCommits(b, commands[..|commands| - 1], clock, initial, taken, f);
        BatchStores(b, b, commands[..|commands| - 1], clock, taken, f);
        NextGoesThroughIff(b, Batch(b, d.statements, taken).value, d, commands, clock, initial, taken, f);
      }
    }
  }

  lemma UnusedIffNew(ts: seq<Transition>, t: Transition, c: Command, taken: set<string>)
    requires t.id == c.id && t.clientId == c.clientId && t.clientSequence == c.clientSequence
    requires forall i :: 0 <= i < |ts| ==> ts[i].idempotencyKey != t.idempotencyKey && ts[i].sequence != t.sequence
    ensures Unused(ts, c, taken) <==> t.id !in taken && TransitionIsNew(ts, t)
  {
  }

  /** Whether the transition of a new command is free after the commands before it. */
  lemma FreeAfterIff(b: Book, b1: Book, commands: seq<Command>, clock: nat -> int, t: Transition, taken: set<string>,
                     f: Fingerprints)
    requires commands != [] && IsNew(b, commands, |commands| - 1) && Receipted(b) && Sound(b1)
    requires EvidenceStored(b, b, b1, commands[..|commands| - 1], clock, f) && |b1.transitions| == b1.sequence
    requires var c := commands[|commands| - 1];
             && t.id == c.id && t.clientId == c.clientId && t.clientSequence == c.clientSequence
             && t.idempotencyKey == c.idempotencyKey && t.sequence == b1.sequence + 1
    ensures TransitionIsNew(b1.transitions, t) && t.id !in taken <==>
              UnusedBeside(b, commands[..|commands| - 1], commands[|commands| - 1], taken)
  {
    var n := |commands| - 1;
    KeysAreFree(b, b1, commands, clock, f);
    UnusedIffNew(b1.transitions, t, commands[n], taken);
    FreeIff(b, b1, commands[..n], clock, commands[n], taken, f);
  }

  lemma {:induction false} NextGoesThroughIff(b: Book, b1: Book, d: Draft, commands: seq<Command>, clock: nat -> int,
                           initial: map<string, Point>, taken: set<string>, f: Fingerprints)
    requires commands != [] && Receipted(b) && Committed(b1, initial, f) && NeverBlank(f)
    requires Mirrors(d, b1) && b1.source == b.source && IsNew(b, commands, |commands| - 1)
    requires EvidenceStored(b, b, b1, commands[..|commands| - 1], clock, f)
    requires var n := |commands| - 1;
             && Normalized(commands[n]) && commands[n].idempotencyKey !in d.given
             && Consider(d, b, commands[n], clock(n), f).Ok?
    ensures Batch(b1, StatementsFor(b.source, LastTransition(b, d, commands, clock, f), d.head, f), taken).Ok? <==>
              UnusedBeside(b, commands[..|commands| - 1], commands[|commands| - 1], taken)
  {
    var n := |commands| - 1;
    AcceptedGoesThroughIff(b1, d, b, commands[n], clock(n), initial, taken, f);
    FreeAfterIff(b, b1, commands, clock, LastTransition(b, d, commands, clock, f), taken, f);
  }

  lemma AcceptedGoesThroughIff(b: Book, d: Draft, read: Book, c: Command, now: int, initial: map<string, Point>,
                               taken: set<string>, f: Fingerprints)
    requires Committed(b, initial, f) && NeverBlank(f) && Normalized(c) && Mirrors(d, b) && read.source == b.source
    requires c.idempotencyKey !in d.given && Consider(d, read, c, now, f).Ok?
    ensures var t := TransitionFor(read, c, d.sequence + 1, now, f);
            Batch(b, StatementsFor(read.source, t, d.head, f), taken).Ok? <==>
              TransitionIsNew(b.transitions, t) && t.id !in taken
  {
    AcceptedCommandCommits(b, d, read, c, now, initial, taken, f);
  }

  lemma UnusedOneMore(b: Book, commands: seq<Command>, taken: set<string>)
    requires commands != []
    ensures var n := |commands| - 1;
            var first := commands[..n];
            AllUnused(b, commands, taken) <==>
              AllUnused(b, first, taken)
              && (IsNew(b, commands, n) ==> UnusedBeside(b, first, commands[n], taken))
  {
    var n := |commands| - 1;
    var first := commands[..n];
    SameInPrefix(b, commands);
    assert forall i :: 0 <= i < n ==> first[i] == commands[i];
    if AllUnused(b, commands, taken) {
      forall i | IsNew(b, first, i) ensures Unused(b.transitions, first[i], taken) {
        assert IsNew(b, commands, i);
      }
      forall i, j | i < j && IsNew(b, first, i) && IsNew(b, first, j) ensures Differ(first[i], first[j]) {
        assert IsNew(b, commands, i) && IsNew(b, commands, j);
      }
      forall i | IsNew(b, first, i) && IsNew(b, commands, n) ensures Differ(first[i], commands[n]) {
        assert IsNew(b, commands, i);
      }
    }
  }

  /** A draft with a new command, executed at another sequence than it was read at, meets one of the two conflicts. */
  lemma {:induction false} StaleDraftConflicts(read: Book, b: Book, commands: seq<Command>, clock: nat -> int,
                                               taken: set<string>, f: Fingerprints)
    requires Drafted(read, commands, clock, f).Ok? && Drafted(read, commands, clock, f).value.statements != []
    requires b.sequence != read.sequence
    ensures Batch(b, Drafted(read, commands, clock, f).value.statements, taken)
            in {Err(TaskRevisionConflict), Err(SequenceConflict)}
  {
    DraftOpensAfterItsRead(read, commands, clock, f);
  }

  /** A draft has statements exactly if one of its commands is new. */
  lemma {:induction false} StatementsIffNew(b: Book, commands: seq<Command>, clock: nat -> int, f: Fingerprints)
    requires Drafted(b, commands, clock, f).Ok?
    ensures Drafted(b, commands, clock, f).value.statements == [] <==> NewOnes(b, commands) == []
  {
    DraftOpensAfterItsRead(b, commands, clock, f);
    DraftDecides(b, commands, clock, f);
  }

  // ---------- the repository ----------

  datatype WriteError =
    | TooManyCommands
    | Refused(refusal: Refusal)
    | ConcurrentTransition
    | Aborted(abort: Abort)

  /** How the caller learns of a failed batch: both trigger conflicts mean another transition came first. */
  function Reported(e: Abort): WriteError {
    if e == TaskRevisionConflict || e == SequenceConflict then ConcurrentTransition else Aborted(e)
  }

  class RunbookRepository {
    var book: Book
    const maximumBatchSize: nat
    const fingerprints: Fingerprints

    constructor (b: Book, maximumBatchSize: nat, f: Fingerprints)
      ensures book == b && this.maximumBatchSize == maximumBatchSize && fingerprints == f
    {
      book := b;
      this.maximumBatchSize := maximumBatchSize;
      fingerprints := f;
    }

    /**
     `read` is what the call pieced together before; other calls may have committed since and in between.
     A command that does not fit what was read refuses the whole batch. Otherwise the batch is committed as a whole,
     with the rows and the answers its new commands ask for, or nothing changes. On a current read it is committed
     exactly if its new commands use free ids and client sequences.
     */
    method ApplyTransitionBatch(read: Book, commands: seq<Command>, clock: nat -> int, taken: set<string>)
      returns (result: Result<seq<Answer>, WriteError>)
      modifies this`book
      ensures result.Err? ==> book == old(book)
      ensures result == Err(TooManyCommands) <==> |commands| > maximumBatchSize
      ensures |commands| <= maximumBatchSize ==>
                ((result.Err? && result.error.Refused?) <==> !AllFit(read, commands, fingerprints))
      ensures result.Err? && result.error.Refused? ==> Refuses(read, commands, result.error.refusal, fingerprints)
      ensures result.Ok? ==>
                && Answered(read, commands, clock, result.value, fingerprints)
                && Stored(read, old(book), book, commands, clock, fingerprints)
                && (NewOnes(read, commands) != [] ==> read.sequence == old(book).sequence)
      ensures |commands| <= maximumBatchSize && AllFit(read, commands, fingerprints)
              && NewOnes(read, commands) == [] ==>
                result.Ok?
      ensures |commands| <= maximumBatchSize && AllFit(read, commands, fingerprints) && NewOnes(read, commands) != []
              && read.sequence != old(book).sequence ==>
                result == Err(ConcurrentTransition)
      ensures |commands| <= maximumBatchSize && AllFit(read, commands, fingerprints) && AllNormalized(commands)
              && NeverBlank(fingerprints) && read == old(book) && IsCommitted(read, fingerprints) ==>
                if AllUnused(read, commands, taken) then result.Ok? && IsCommitted(book, fingerprints)
                else result == Err(Aborted(NotUnique))
      ensures |commands| <= maximumBatchSize ==>
                book == Written(read, old(book), Write(Read(0, 0, 0, 0, 0), commands, clock, taken), fingerprints)
    {
      if |commands| > maximumBatchSize {
        return Err(TooManyCommands);
      }
      var draft := BuildDraft(read, commands, clock, fingerprints);
      if draft.Err? {
        return Err(Refused(draft.error));
      }
      BatchOutcome(read, book, commands, clock, taken, fingerprints);
      var committed := Batch(book, draft.value.statements, taken);
      if committed.Err? {
        return Err(Reported(committed.error));
      }
      book := committed.value;
      return Ok(draft.value.answers);
    }
  }

  ghost predicate IsCommitted(b: Book, f: Fingerprints) {
    exists initial :: Committed(b, initial, f)
  }

  /** What becomes of a draft when its batch is executed. */
  lemma {:induction false} BatchOutcome(read: Book, now: Book, commands: seq<Command>, clock: nat -> int,
                                        taken: set<string>, f: Fingerprints)
    requires Drafted(read, commands, clock, f).Ok?
    ensures var d := Drafted(read, commands, clock, f).value;
            var result := Batch(now, d.statements, taken);
            && (result.Ok? ==>
                  && Answered(read, commands, clock, d.answers, f)
                  && Stored(read, now, result.value, commands, clock, f)
                  && (NewOnes(read, commands) != [] ==> read.sequence == now.sequence))
            && (NewOnes(read, commands) == [] ==> result.Ok?)
            && (NewOnes(read, commands) != [] && read.sequence != now.sequence ==>
                  result in {Err(TaskRevisionConflict), Err(SequenceConflict)})
            && (AllNormalized(commands) && NeverBlank(f) && read == now && IsCommitted(read, f) ==>
                  if AllUnused(read, commands, taken) then result.Ok? && IsCommitted(result.value, f)
                  else result == Err(NotUnique))
  {
    var d := Drafted(read, commands, clock, f).value;
    DraftAnswers(read, commands, clock, f);
    StatementsIffNew(read, commands, clock, f);
    if Batch(now, d.statements, taken).Ok? {
      BatchStores(read, now, commands, clock, taken, f);
    }
    if d.statements != [] && read.sequence != now.sequence {
      StaleDraftConflicts(read, now, commands, clock, taken, f);
    }
    if AllNormalized(commands) && NeverBlank(f) && read == now && IsCommitted(read, f) {
      CurrentOutcome(now, commands, clock, taken, f);
    }
  }

  lemma {:induction false} CurrentOutcome(b: Book, commands: seq<Command>, clock: nat -> int, taken: set<string>,
                                          f: Fingerprints)
    requires Drafted(b, commands, clock, f).Ok? && AllNormalized(commands) && NeverBlank(f) && IsCommitted(b, f)
    ensures var result := Batch(b, Drafted(b, commands, clock, f).value.statements, taken);
            if AllUnused(b, commands, taken) then result.Ok? && IsCommitted(result.value, f)
            else result == Err(NotUnique)
  {
    var initial :| Committed(b, initial, f);
    CurrentDraftCommits(b, commands, clock, initial, taken, f);
    CurrentBatchSucceedsIff(b, commands, clock, initial, taken, f);
  }

  /** The loop over the commands of one batch. */
  method BuildDraft(read: Book, commands: seq<Command>, clock: nat -> int, f: Fingerprints)
    returns (result: Result<Draft, Refusal>)
    ensures result == Drafted(read, commands, clock, f)
    ensures Decided(result, read, commands, clock, f)
  {
    var d := Start(read);
    var i := 0;
    while i < |commands|
      invariant 0 <= i <= |commands|
      invariant Drafted(read, commands[..i], clock, f) == Ok(d)
    {
      var c := commands[i];
      DraftOneMore(read, commands, i, clock, f);
      DraftStops(read, commands, i + 1, clock, f);
      if c.idempotencyKey in d.given {
        if d.given[c.idempotencyKey].inputFingerprint != f.command(c) {
          DraftDecides(read, commands, clock, f);
          return Err(IdempotencyConflict(c.idempotencyKey));
        }
        d := d.(answers := d.answers + [d.given[c.idempotencyKey].answer]);
      } else if c.taskId !in d.points {
        DraftDecides(read, commands, clock, f);
        return Err(TransitionConflict(c.taskId, None));
      } else if d.points[c.taskId] != Point(c.fromStatus, c.expectedRevision) {
        DraftDecides(read, commands, clock, f);
        return Err(TransitionConflict(c.taskId, Some(d.points[c.taskId])));
      } else {
        d := Accept(d, read, TransitionFor(read, c, d.sequence + 1, clock(i), f), f);
      }
      i := i + 1;
    }
    assert commands[..i] == commands;
    DraftDecides(read, commands, clock, f);
    return Ok(d);
  }

  lemma {:induction false} DraftOneMore(b: Book, commands: seq<Command>, i: nat, clock: nat -> int, f: Fingerprints)
    requires i < |commands| && Drafted(b, commands[..i], clock, f).Ok?
    ensures Drafted(b, commands[..i + 1], clock, f)
            == Consider(Drafted(b, commands[..i], clock, f).value, b, commands[i], clock(i), f)
  {
    assert commands[..i + 1][..i] == commands[..i];
  }

  /** A refused prefix refuses the whole list. */
  lemma {:induction false} DraftStops(b: Book, commands: seq<Command>, n: nat, clock: nat -> int, f: Fingerprints)
    requires n <= |commands|
    ensures Drafted(b, commands[..n], clock, f).Err? ==>
            Drafted(b, commands, clock, f) == Drafted(b, commands[..n], clock, f)
    decreases |commands|
  {
    if n == |commands| {
      assert commands[..n] == commands;
    } else {
      var rest := commands[..|commands| - 1];
      assert rest[..n] == commands[..n];
      DraftStops(b, rest, n, clock, f);
    }
  }
}
