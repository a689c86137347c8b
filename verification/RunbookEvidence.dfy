/**
 What the stored evidence of a runbook attests, whoever wrote it and in whatever order, and what the verification of its
 hash chain rules out.
 */
module RunbookEvidence {
  import opened Results
  import opened RunbookLedger
  import opened RunbookCommit

  // ---------- the rows agree with each other ----------

  /** A ledger row repeats its transition. */
  ghost predicate Repeats(l: LedgerRow, t: Transition) {
    && l.transitionId == t.id && l.scope == t.scope && l.sequence == t.sequence && l.actor == t.actor
    && l.occurredAt == t.acceptedAt && l.hash != "" && l.previousHash != ""
  }

  /** A receipt is for a command that has its transition. */
  ghost predicate IsFor(r: Receipt, t: Transition) {
    && r.transitionId == t.id && r.scope == t.scope && r.idempotencyKey == t.idempotencyKey
    && r.inputFingerprint == t.inputFingerprint && r.correlationId == t.correlationId
  }

  ghost predicate HasItsTransition(b: Book, r: Receipt) {
    exists i :: 0 <= i < |b.transitions| && IsFor(r, b.transitions[i])
  }

  /** No two transitions of the runbook share an id, a key, or a place in a client's sequence. */
  ghost predicate Differ(t: Transition, u: Transition) {
    && t.id != u.id && t.idempotencyKey != u.idempotencyKey
    && (t.clientId == u.clientId ==> t.clientSequence != u.clientSequence)
  }

  ghost predicate Attested(b: Book) {
    && |b.ledger| <= |b.transitions|
    && (forall i :: 0 <= i < |b.ledger| ==> Repeats(b.ledger[i], b.transitions[i]))
    && (forall i :: 0 <= i < |b.receipts| ==> HasItsTransition(b, b.receipts[i]))
    && (forall i, j :: 0 <= i < j < |b.receipts| ==>
          b.receipts[i].idempotencyKey != b.receipts[j].idempotencyKey
          && b.receipts[i].transitionId != b.receipts[j].transitionId)
    && (forall i, j :: 0 <= i < j < |b.transitions| ==> Differ(b.transitions[i], b.transitions[j]))
    && (forall i :: 0 <= i < |b.transitions| ==>
          b.transitions[i].fromStatus != "" && b.transitions[i].toStatus != "" && b.transitions[i].clientSequence >= 1)
  }

  lemma MoreTransitionsAttest(b: Book, b': Book)
    requires b.transitions <= b'.transitions
    ensures forall r :: HasItsTransition(b, r) ==> HasItsTransition(b', r)
  {
    forall r | HasItsTransition(b, r) ensures HasItsTransition(b', r) {
      var i :| 0 <= i < |b.transitions| && IsFor(r, b.transitions[i]);
      assert b'.transitions[i] == b.transitions[i];
    }
  }

  lemma TransitionKeepsAttested(b: Book, t: Transition, taken: set<string>)
    requires Attested(b) && AddTransition(b, t, taken).Ok?
    ensures Attested(AddTransition(b, t, taken).value)
  {
    MoreTransitionsAttest(b, AddTransition(b, t, taken).value);
  }

  lemma EntryKeepsAttested(b: Book, l: LedgerRow)
    requires Numbered(b) && Attested(b) && AddEntry(b, l).Ok? && Numbered(AddEntry(b, l).value)
    ensures Attested(AddEntry(b, l).value)
  {
    EntryRepeatsTheNext(b, l);
    MoreTransitionsAttest(b, AddEntry(b, l).value);
  }

  lemma EntryRepeatsTheNext(b: Book, l: LedgerRow)
    requires Numbered(b) && AddEntry(b, l).Ok? && Numbered(AddEntry(b, l).value)
    ensures |b.ledger| < |b.transitions| && Repeats(l, b.transitions[|b.ledger|])
  {
    var b' := AddEntry(b, l).value;
    var i :| 0 <= i < |b.transitions| && b.transitions[i].id == l.transitionId && b.transitions[i].scope == l.scope
             && b.transitions[i].sequence == l.sequence && b.transitions[i].actor == l.actor
             && b.transitions[i].acceptedAt == l.occurredAt;
    NumberAt(b, i);
    NumberAt(b', |b.ledger|);
    assert b'.ledger[|b.ledger|] == l;
    assert i == |b.ledger|;
  }

  lemma ReceiptKeepsAttested(b: Book, r: Receipt)
    requires Attested(b) && AddReceipt(b, r).Ok?
    ensures Attested(AddReceipt(b, r).value)
  {
    var i :| 0 <= i < |b.transitions| && b.transitions[i].id == r.transitionId && b.transitions[i].scope == r.scope
             && b.transitions[i].idempotencyKey == r.idempotencyKey
             && b.transitions[i].inputFingerprint == r.inputFingerprint
             && b.transitions[i].correlationId == r.correlationId;
    assert IsFor(r, b.transitions[i]);
    MoreTransitionsAttest(b, AddReceipt(b, r).value);
  }

  lemma OtherTablesKeepAttested(b: Book, b': Book)
    requires Attested(b) && b'.transitions == b.transitions && b'.ledger == b.ledger && b'.receipts == b.receipts
    ensures Attested(b')
  {
    MoreTransitionsAttest(b, b');
  }

  lemma SoundEntryKeepsAttested(b: Book, l: LedgerRow, a: Arrival)
    requires Sound(b) && Attested(b) && a.statement == InsertLedger(l) && AddEntry(b, l).Ok?
    ensures Attested(AddEntry(b, l).value)
  {
    EveryStatementKeepsSound(b, a);
    EntryKeepsAttested(b, l);
  }

  lemma OtherStatementsLeaveEvidence(b: Book, a: Arrival)
    requires !a.statement.InsertTransition? && !a.statement.InsertLedger? && !a.statement.InsertReceipt?
    ensures After(b, a).transitions == b.transitions && After(b, a).ledger == b.ledger
            && After(b, a).receipts == b.receipts
  {
  }

  lemma EveryStatementKeepsAttested(b: Book, a: Arrival)
    requires Sound(b) && Attested(b)
    ensures Attested(After(b, a))
  {
    if Execute(b, a.statement, a.taken).Ok? {
      match a.statement
      case InsertTransition(t) => TransitionKeepsAttested(b, t, a.taken);
      case InsertLedger(l) => SoundEntryKeepsAttested(b, l, a);
      case InsertReceipt(r) => ReceiptKeepsAttested(b, r);
      case _ => OtherStatementsLeaveEvidence(b, a); OtherTablesKeepAttested(b, After(b, a));
    }
  }

  /**
   Whatever statements arrive: every ledger row repeats the transition at its place, every receipt answers a command
   that has its transition, and no key or place in a client's sequence is used twice.
   */
  lemma {:induction false} EveryRunIsAttested(b: Book, run: seq<Arrival>)
    requires Opening(b) || (Sound(b) && Attested(b))
    ensures Attested(Play(b, run))
  {
    if run != [] {
      var rest := run[..|run| - 1];
      EveryRunIsAttested(b, rest);
      EveryRunKeepsChain(b, rest);
      EveryStatementKeepsAttested(Play(b, rest), run[|run| - 1]);
    }
  }

  /** An update whose WHERE clause asks for another revision, status, sequence or head finds no row and changes none. */
  lemma UnmatchedUpdateChangesNothing(b: Book, s: Statement, taken: set<string>)
    requires || (s.UpdateTask? && s.taskWhere.Some?
                 && (s.taskId in b.tasks ==>
                       b.tasks[s.taskId].revision != s.taskWhere.value.0
                       || b.tasks[s.taskId].status != s.taskWhere.value.1))
             || (s.UpdateBook? && s.bookWhere.Some?
                 && (b.sequence != s.bookWhere.value.0 || b.head != s.bookWhere.value.1))
    ensures Execute(b, s, taken) == Ok(b)
  {
  }

  // ---------- evidence cannot be touched, not even on the way ----------

  /** The statement changes or deletes an evidence row that is there. */
  ghost predicate Touches(b: Book, s: Statement) {
    (s.RewriteEvidence? || s.DeleteEvidence?) && s.row < |EvidenceOf(b, s.table)|
  }

  ghost function EvidenceOf(b: Book, table: EvidenceTable): seq<string> {
    match table
    case TransitionRows => seq(|b.transitions|, i requires 0 <= i < |b.transitions| => b.transitions[i].id)
    case LedgerRows => seq(|b.ledger|, i requires 0 <= i < |b.ledger| => b.ledger[i].transitionId)
    case ReceiptRows => seq(|b.receipts|, i requires 0 <= i < |b.receipts| => b.receipts[i].transitionId)
  }

  /** A batch that touches evidence anywhere fails as a whole, whatever else it does before. */
  lemma {:induction false} BatchTouchingEvidenceFails(b: Book, ss: seq<Statement>, taken: set<string>, i: nat)
    requires i < |ss| && Touches(b, ss[i])
    ensures Batch(b, ss, taken).Err?
    decreases i
  {
    if i > 0 && Execute(b, ss[0], taken).Ok? {
      var b' := Execute(b, ss[0], taken).value;
      OneArrivalAppends(b, Arrival(ss[0], taken));
      assert b' == After(b, Arrival(ss[0], taken));
      BatchTouchingEvidenceFails(b', ss[1..], taken, i - 1);
    }
  }

  // ---------- what the verification of the chain says ----------

  /** Every row names the hash of the row before it, and carries the fingerprint of what it stands for. */
  ghost predicate IsChain(source: Source, ts: seq<Transition>, ls: seq<LedgerRow>, f: Fingerprints)
    requires |ts| == |ls|
  {
    forall i :: 0 <= i < |ls| ==> Links(source, ts, ls, f, i)
  }

  ghost predicate EndsAt(source: Source, ls: seq<LedgerRow>, head: string) {
    head == if ls == [] then source.activityHead else ls[|ls| - 1].hash
  }

  /** One row of the chain. */
  ghost predicate Links(source: Source, ts: seq<Transition>, ls: seq<LedgerRow>, f: Fingerprints, i: nat)
    requires i < |ls| == |ts|
  {
    && ls[i].previousHash == (if i == 0 then source.activityHead else ls[i - 1].hash)
    && ls[i].hash == f.entry(source, ts[i], ls[i].previousHash)
  }

  lemma LinksInPrefix(source: Source, ts: seq<Transition>, ls: seq<LedgerRow>, f: Fingerprints, n: nat)
    requires |ts| == |ls| && n <= |ls|
    ensures forall i :: 0 <= i < n ==> (Links(source, ts[..n], ls[..n], f, i) <==> Links(source, ts, ls, f, i))
  {
    forall i | 0 <= i < n ensures Links(source, ts[..n], ls[..n], f, i) <==> Links(source, ts, ls, f, i) {
      assert ls[..n][i] == ls[i] && ts[..n][i] == ts[i];
      assert i > 0 ==> ls[..n][i - 1] == ls[i - 1];
    }
  }

  /** The verification succeeds exactly on a chain, and ends at the hash of its last row. */
  lemma {:induction false} VerifiedIff(source: Source, ts: seq<Transition>, ls: seq<LedgerRow>, f: Fingerprints)
    requires |ts| == |ls|
    ensures VerifiedHead(source, ts, ls, f).Some? <==> IsChain(source, ts, ls, f)
    ensures VerifiedHead(source, ts, ls, f).Some? ==> EndsAt(source, ls, VerifiedHead(source, ts, ls, f).value)
  {
    if ls != [] {
      var n := |ls| - 1;
      VerifiedIff(source, ts[..n], ls[..n], f);
      LinksInPrefix(source, ts, ls, f, n);
      assert IsChain(source, ts, ls, f) <==> IsChain(source, ts[..n], ls[..n], f) && Links(source, ts, ls, f, n);
    }
  }

  /** No two contents have one fingerprint. */
  ghost predicate CollisionFree(f: Fingerprints) {
    forall source, t, previous, source', t', previous' ::
      f.entry(source, t, previous) == f.entry(source', t', previous') ==>
        source == source' && t == t' && previous == previous'
  }

  /**
   Tamper evidence: where fingerprints do not collide, a verified ledger of a given length is fixed by its head. Whoever
   changes, swaps or replaces a transition under the same head fails the verification.
   */
  lemma {:induction false} HeadFixesTheLedger(source: Source, ts: seq<Transition>, ls: seq<LedgerRow>,
                                              ts': seq<Transition>, ls': seq<LedgerRow>, f: Fingerprints)
    requires |ts| == |ls| == |ts'| == |ls'| && CollisionFree(f)
    requires VerifiedHead(source, ts, ls, f).Some?
    requires VerifiedHead(source, ts', ls', f) == VerifiedHead(source, ts, ls, f)
    ensures ts == ts' && forall i :: 0 <= i < |ls| ==> ls[i].hash == ls'[i].hash
  {
    if ls != [] {
      var n := |ls| - 1;
      HeadFixesTheLedger(source, ts[..n], ls[..n], ts'[..n], ls'[..n], f);
      assert ts == ts[..n] + [ts[n]] && ts' == ts'[..n] + [ts'[n]];
      assert forall i :: 0 <= i < n ==> ls[..n][i] == ls[i] && ls'[..n][i] == ls'[i];
    }
  }
}
