/**
 The daily counters of product analytics, kept twice: as rows of a table shared by all scopes, and as the
 entries of one map in memory. Increments saturate, prunes drop old days, and a window of days is read back.
 */
module ProductAnalytics {
  import opened Results

  datatype Name = GoldenLoopCompleted | ValidationCompleted | AdjustmentCycle | BranchCompared | ExportCompleted
                | ProductError | WorkflowAbandoned
  datatype Outcome = Completed | Pass | Warn | Fail | Requested | Compared | Exported | Error | Abandoned
  datatype Stage = Inspect | Preview | Validate | Review | Approve | Adjust | Compare | Export
  datatype Category = Authorization | Validation | Conflict | Persistence | Exporting | Unknown

  datatype Event = Event(name: Name, outcome: Outcome, stage: Stage, category: Option<Category>)

  /** The rule of each event name. */
  predicate Valid(e: Event) {
    && (e.category.Some? <==> e.name.ProductError?)
    && match e.name
       case GoldenLoopCompleted => e.outcome.Completed? && e.stage.Approve?
       case ValidationCompleted => (e.outcome.Pass? || e.outcome.Warn? || e.outcome.Fail?) && e.stage.Validate?
       case AdjustmentCycle => e.outcome.Requested? && e.stage.Adjust?
       case BranchCompared => e.outcome.Compared? && e.stage.Compare?
       case ExportCompleted => e.outcome.Exported? && e.stage.Export?
       case ProductError => e.outcome.Error?
       case WorkflowAbandoned => e.outcome.Abandoned?
  }

  /** The events that are counted, one by one. */
  const SIMPLE_EVENTS: set<Event> :=
    {Event(GoldenLoopCompleted, Completed, Approve, None), Event(ValidationCompleted, Pass, Validate, None),
     Event(ValidationCompleted, Warn, Validate, None), Event(ValidationCompleted, Fail, Validate, None),
     Event(AdjustmentCycle, Requested, Adjust, None), Event(BranchCompared, Compared, Compare, None),
     Event(ExportCompleted, Exported, Export, None)}

  /** Beside those, an error at any stage with its category, and an abandonment at any stage without one. */
  lemma ValidIff(e: Event)
    ensures Valid(e) <==>
              || e in SIMPLE_EVENTS
              || (exists s, c :: e == Event(ProductError, Error, s, Some(c)))
              || (exists s :: e == Event(WorkflowAbandoned, Abandoned, s, None))
  {
    if e.name.ProductError? && e.category.Some? {
      assert e.outcome.Error? ==> e == Event(ProductError, Error, e.stage, Some(e.category.value));
    }
    assert e.name.WorkflowAbandoned? && e.outcome.Abandoned? && e.category.None? ==>
             e == Event(WorkflowAbandoned, Abandoned, e.stage, None);
  }

  const MAX_COUNT := 2147483647
  const MAX_METRICS := 256
  const RETENTION_DAYS := 180
  const MAX_WINDOW_DAYS := 90
  const DAY := 24 * 60 * 60 * 1000

  /** The day an instant falls on, counted from the epoch. */
  function Day(at: int): int {
    at / DAY
  }

  function DaysBefore(at: int, days: int): int {
    Day(at - days * DAY)
  }

  lemma DaysBeforeCounts(at: int, days: int)
    ensures DaysBefore(at, days) == Day(at) - days
  {
  }

  function Min(a: int, b: int): int {
    if a <= b then a else b
  }

  // ---------- the two stores ----------

  datatype Cell = Cell(scope: string, day: int, event: Event)

  type Table = map<Cell, int>

  datatype Entry = Entry(day: int, event: Event)

  type Memory = map<Entry, int>

  datatype Op = Increment(scope: string, event: Event, at: int) | Prune(at: int)

  function Increased<K>(m: map<K, int>, k: K): map<K, int> {
    m[k := Min(MAX_COUNT, (if k in m then m[k] else 0) + 1)]
  }

  function TableAfter(t: Table, op: Op): Table {
    match op
    case Increment(scope, e, at) => if Valid(e) then Increased(t, Cell(scope, Day(at), e)) else t
    case Prune(at) => map c | c in t && c.day >= DaysBefore(at, RETENTION_DAYS) :: t[c]
  }

  function MemoryAfter(m: Memory, scope: string, op: Op): Memory {
    match op
    case Increment(s, e, at) => if s == scope && Valid(e) then Increased(m, Entry(Day(at), e)) else m
    case Prune(at) => map k | k in m && k.day >= DaysBefore(at, RETENTION_DAYS) :: m[k]
  }

  function TableOf(ops: seq<Op>): Table {
    if ops == [] then map[] else TableAfter(TableOf(ops[..|ops| - 1]), ops[|ops| - 1])
  }

  function MemoryOf(ops: seq<Op>, scope: string): Memory {
    if ops == [] then map[] else MemoryAfter(MemoryOf(ops[..|ops| - 1], scope), scope, ops[|ops| - 1])
  }

  // ---------- what a cell holds ----------

  /** The accepted increments of a cell since it was last pruned. */
  function Since(ops: seq<Op>, c: Cell): nat {
    if ops == [] then 0
    else
      var before := Since(ops[..|ops| - 1], c);
      match ops[|ops| - 1]
      case Increment(scope, e, at) => if Valid(e) && Cell(scope, at / 86_400_000, e) == c then before + 1 else before
      case Prune(at) => if c.day < at / 86_400_000 - 180 then 0 else before
  }

  /** Each stored count is the number of increments since the last prune, up to the greatest count there is. */
  lemma {:induction false} CellsCount(ops: seq<Op>, c: Cell)
    ensures c in TableOf(ops) <==> Since(ops, c) > 0
    ensures c in TableOf(ops) ==>
              TableOf(ops)[c] == if Since(ops, c) < 2_147_483_647 then Since(ops, c) else 2_147_483_647
    decreases |ops|
  {
    if ops != [] {
      CellsCount(ops[..|ops| - 1], c);
      if ops[|ops| - 1].Prune? {
        DaysBeforeCounts(ops[|ops| - 1].at, RETENTION_DAYS);
      }
    }
  }

  /** The entries in memory are the rows of their scope. */
  lemma {:induction false} MemoryHoldsTheScope(ops: seq<Op>, scope: string, k: Entry)
    ensures k in MemoryOf(ops, scope) <==> Cell(scope, k.day, k.event) in TableOf(ops)
    ensures k in MemoryOf(ops, scope) ==> MemoryOf(ops, scope)[k] == TableOf(ops)[Cell(scope, k.day, k.event)]
    decreases |ops|
  {
    if ops != [] {
      MemoryHoldsTheScope(ops[..|ops| - 1], scope, k);
    }
  }

  lemma {:induction false} StoredEventsAreValid(ops: seq<Op>, c: Cell)
    ensures c in TableOf(ops) ==> Valid(c.event)
    decreases |ops|
  {
    if ops != [] {
      StoredEventsAreValid(ops[..|ops| - 1], c);
    }
  }

  // ---------- reading a window ----------

  datatype Refusal = WindowInvalid | CountInvalid

  function Lookup(t: Table, c: Cell): int {
    if c in t then t[c] else 0
  }

  /** The sum of an event's rows over the days from `from` through `through`. */
  function Total(t: Table, scope: string, e: Event, from: int, through: int): int
    decreases through - from
  {
    if through < from then 0 else Total(t, scope, e, from, through - 1) + Lookup(t, Cell(scope, through, e))
  }

  /** The groups of the query. */
  function Groups(t: Table, scope: string, from: int, through: int): set<Event> {
    set c | c in t && c.scope == scope && from <= c.day <= through :: c.event
  }

  /** One total for each event; a total that cannot be a count makes the whole reading fail. */
  function Totals(t: Table, scope: string, from: int, through: int): map<Event, int> {
    map e | e in Groups(t, scope, from, through) :: Total(t, scope, e, from, through)
  }

  function TableMetrics(t: Table, scope: string, window: int, at: int): Result<map<Event, int>, Refusal> {
    if !(1 <= window <= MAX_WINDOW_DAYS) then Err(WindowInvalid)
    else
      var from, through := DaysBefore(at, window - 1), Day(at);
      var totals := Totals(t, scope, from, through);
      if exists e :: e in totals && !(1 <= totals[e] <= MAX_COUNT) then Err(CountInvalid) else Ok(totals)
  }

  // ---------- the limit on groups never cuts anything ----------

  function StageIndex(s: Stage): nat {
    match s case Inspect => 0 case Preview => 1 case Validate => 2 case Review => 3 case Approve => 4 case Adjust => 5
            case Compare => 6 case Export => 7
  }

  function CategoryIndex(c: Category): nat {
    match c case Authorization => 0 case Validation => 1 case Conflict => 2 case Persistence => 3 case Exporting => 4
        case Unknown => 5
  }

  /** The valid events, numbered. */
  function Index(e: Event): nat
    requires Valid(e)
  {
    match e.name
    case GoldenLoopCompleted => 0
    case ValidationCompleted => if e.outcome.Pass? then 1 else if e.outcome.Warn? then 2 else 3
    case AdjustmentCycle => 4
    case BranchCompared => 5
    case ExportCompleted => 6
    case WorkflowAbandoned => 7 + StageIndex(e.stage)
    case ProductError => 15 + 6 * StageIndex(e.stage) + CategoryIndex(e.category.value)
  }

  lemma IndexIsBelow63(e: Event)
    requires Valid(e)
    ensures Index(e) < 63
  {
  }

  lemma IndexTellsApart(a: Event, b: Event)
    requires Valid(a) && Valid(b) && Index(a) == Index(b)
    ensures a == b
  {
  }

  lemma {:induction false} Pigeonhole(es: set<Event>, n: nat)
    requires forall e :: e in es ==> Valid(e) && Index(e) < n
    ensures |es| <= n
  {
    if n == 0 {
      assert es == {};
    } else if e :| e in es && Index(e) == n - 1 {
      forall o | o in es - {e} ensures Index(o) < n - 1 {
        if Index(o) == n - 1 { IndexTellsApart(o, e); }
      }
      Pigeonhole(es - {e}, n - 1);
    } else {
      Pigeonhole(es, n - 1);
    }
  }

  /** There are at most 63 groups, so a limit of 256 keeps them all. */
  lemma {:induction false} GroupsFitTheLimit(ops: seq<Op>, scope: string, from: int, through: int)
    ensures |Groups(TableOf(ops), scope, from, through)| <= 63 < MAX_METRICS
  {
    var es := Groups(TableOf(ops), scope, from, through);
    forall e | e in es ensures Valid(e) && Index(e) < 63 {
      var c :| c in TableOf(ops) && c.event == e;
      StoredEventsAreValid(ops, c);
      IndexIsBelow63(e);
    }
    Pigeonhole(es, 63);
  }

  // ---------- the memory version reads row by row ----------

  datatype Metric = Metric(event: Event, count: int)

  function RowSum(rows: seq<Metric>, e: Event): int {
    if rows == [] then 0
    else RowSum(rows[..|rows| - 1], e) + if rows[|rows| - 1].event == e then rows[|rows| - 1].count else 0
  }

  ghost function SetSum(m: Memory, keys: set<Entry>): int
    requires keys <= m.Keys
  {
    if keys == {} then 0 else var k :| k in keys; m[k] + SetSum(m, keys - {k})
  }

  /** The sum does not depend on the order of taking. */
  lemma {:induction false} TakeOut(m: Memory, keys: set<Entry>, k: Entry)
    requires keys <= m.Keys && k in keys
    ensures SetSum(m, keys) == m[k] + SetSum(m, keys - {k})
    decreases |keys|
  {
    var j :| j in keys && SetSum(m, keys) == m[j] + SetSum(m, keys - {j});
    if j != k {
      TakeOut(m, keys - {j}, k);
      TakeOut(m, keys - {k}, j);
      assert keys - {j} - {k} == keys - {k} - {j};
    }
  }

  /** The entries of one event within a window. */
  function Pick(keys: set<Entry>, e: Event, from: int, through: int): set<Entry> {
    set k | k in keys && k.event == e && from <= k.day <= through
  }

  /** Row by row the entries named by `keys`, none of them twice. */
  ghost predicate Lists(m: Memory, rows: seq<Metric>, keys: seq<Entry>) {
    && |rows| == |keys|
    && (forall i :: 0 <= i < |keys| ==> keys[i] in m && rows[i] == Metric(keys[i].event, m[keys[i]]))
    && (forall i, j :: 0 <= i < j < |keys| ==> keys[i] != keys[j])
  }

  /** One row for each entry of the window, and no other row. */
  ghost predicate ReadsWindow(m: Memory, rows: seq<Metric>, keys: seq<Entry>, from: int, through: int) {
    Lists(m, rows, keys) && forall k :: k in keys <==> k in m && from <= k.day <= through
  }

  function EntriesOf(keys: seq<Entry>, e: Event): set<Entry> {
    set k | k in keys && k.event == e
  }

  lemma OneMoreEntry(keys: seq<Entry>, k: Entry, e: Event)
    requires k !in keys
    ensures k.event == e ==> k in EntriesOf(keys + [k], e) && EntriesOf(keys + [k], e) - {k} == EntriesOf(keys, e)
    ensures k.event != e ==> EntriesOf(keys + [k], e) == EntriesOf(keys, e)
  {
  }

  lemma ListsLess(m: Memory, rows: seq<Metric>, keys: seq<Entry>)
    requires Lists(m, rows, keys) && keys != []
    ensures Lists(m, rows[..|rows| - 1], keys[..|keys| - 1])
    ensures keys[|keys| - 1] !in keys[..|keys| - 1]
            && rows[|rows| - 1] == Metric(keys[|keys| - 1].event, m[keys[|keys| - 1]])
  {
    var rest, k := keys[..|keys| - 1], keys[|keys| - 1];
    forall i | 0 <= i < |rest| ensures rest[i] != k {
      assert keys[i] != k;
    }
  }

  /** The rows of an event add up to its entries. */
  lemma {:induction false} ListedSum(m: Memory, rows: seq<Metric>, keys: seq<Entry>, e: Event)
    requires Lists(m, rows, keys)
    ensures EntriesOf(keys, e) <= m.Keys && RowSum(rows, e) == SetSum(m, EntriesOf(keys, e))
    decreases |keys|
  {
    if keys != [] {
      var rest, k := keys[..|keys| - 1], keys[|keys| - 1];
      ListsLess(m, rows, keys);
      ListedSum(m, rows[..|rows| - 1], rest, e);
      OneMoreEntry(rest, k, e);
      assert keys == rest + [k];
      if k.event == e {
        TakeOut(m, EntriesOf(keys, e), k);
      }
    }
  }

  predicate Mentions(rows: seq<Metric>, e: Event) {
    exists i :: 0 <= i < |rows| && rows[i].event == e
  }

  lemma {:induction false} WindowIsPicked(m: Memory, rows: seq<Metric>, keys: seq<Entry>, e: Event, from: int,
                                          through: int)
    requires ReadsWindow(m, rows, keys, from, through)
    ensures RowSum(rows, e) == SetSum(m, Pick(m.Keys, e, from, through))
    ensures Mentions(rows, e) <==> Pick(m.Keys, e, from, through) != {}
  {
    ListedSum(m, rows, keys, e);
    assert EntriesOf(keys, e) == Pick(m.Keys, e, from, through);
    if k :| k in EntriesOf(keys, e) {
      var i :| 0 <= i < |keys| && keys[i] == k;
      assert rows[i].event == e;
    }
    if i :| 0 <= i < |rows| && rows[i].event == e {
      assert keys[i] in EntriesOf(keys, e);
    }
  }

  lemma {:induction false} PickOneDayMore(m: Memory, e: Event, from: int, through: int)
    requires from <= through
    ensures var k, all, before := Entry(through, e), Pick(m.Keys, e, from, through), Pick(m.Keys, e, from, through - 1);
            SetSum(m, all) == SetSum(m, before) + if k in m then m[k] else 0
  {
    var k, all, before := Entry(through, e), Pick(m.Keys, e, from, through), Pick(m.Keys, e, from, through - 1);
    if k in m {
      assert all - {k} == before;
      TakeOut(m, all, k);
    } else {
      assert all == before;
    }
  }

  lemma {:induction false} PickedTotal(ops: seq<Op>, scope: string, e: Event, from: int, through: int)
    ensures var m := MemoryOf(ops, scope);
            SetSum(m, Pick(m.Keys, e, from, through)) == Total(TableOf(ops), scope, e, from, through)
    decreases through - from
  {
    var m := MemoryOf(ops, scope);
    if through < from {
      assert Pick(m.Keys, e, from, through) == {};
    } else {
      PickedTotal(ops, scope, e, from, through - 1);
      PickOneDayMore(m, e, from, through);
      MemoryHoldsTheScope(ops, scope, Entry(through, e));
    }
  }

  lemma {:induction false} GroupsArePicked(ops: seq<Op>, scope: string, e: Event, from: int, through: int)
    ensures e in Groups(TableOf(ops), scope, from, through) <==> Pick(MemoryOf(ops, scope).Keys, e, from, through) != {}
  {
    var m := MemoryOf(ops, scope);
    if e in Groups(TableOf(ops), scope, from, through) {
      var c :| c in TableOf(ops) && c.scope == scope && from <= c.day <= through && c.event == e;
      MemoryHoldsTheScope(ops, scope, Entry(c.day, e));
      assert Entry(c.day, e) in Pick(m.Keys, e, from, through);
    }
    if k :| k in Pick(m.Keys, e, from, through) {
      MemoryHoldsTheScope(ops, scope, k);
      assert Cell(scope, k.day, k.event) in TableOf(ops);
    }
  }

  /**
   After the same increments and prunes both versions read the same: the table's groups are the events in the
   memory's rows, each total is the sum of that event's rows, and the table refuses exactly the windows in
   which some sum is greater than a count may be.
   */
  lemma {:induction false} BothReadTheSame(ops: seq<Op>, scope: string, window: int, at: int, rows: seq<Metric>,
                                           keys: seq<Entry>)
    requires 1 <= window <= 90
    requires ReadsWindow(MemoryOf(ops, scope), rows, keys, at / 86_400_000 - (window - 1), at / 86_400_000)
    ensures TableMetrics(TableOf(ops), scope, window, at).Ok? ==>
              var totals := TableMetrics(TableOf(ops), scope, window, at).value;
              && (forall e :: e in totals <==> Mentions(rows, e))
              && (forall e :: e in totals ==> totals[e] == RowSum(rows, e))
    ensures TableMetrics(TableOf(ops), scope, window, at).Err? <==> exists e :: SumOverflows(rows, e)
  {
    DaysBeforeCounts(at, window - 1);
    RowsAreTotals(ops, scope, DaysBefore(at, window - 1), Day(at), rows, keys);
    TableRefusesIff(ops, scope, window, at);
    forall e ensures Overflows(TableOf(ops), scope, e, window, at) <==> SumOverflows(rows, e) {
    }
  }

  /** Any other window is refused as such, by the table as by the memory. */
  lemma WindowIsRefusedIff(t: Table, scope: string, window: int, at: int)
    ensures TableMetrics(t, scope, window, at) == Err(WindowInvalid) <==> !(1 <= window <= 90)
  {
  }

  predicate SumOverflows(rows: seq<Metric>, e: Event) {
    RowSum(rows, e) > 2_147_483_647
  }

  predicate Overflows(t: Table, scope: string, e: Event, window: int, at: int) {
    Total(t, scope, e, DaysBefore(at, window - 1), Day(at)) > MAX_COUNT
  }

  lemma {:induction false} RowsAreTotals(ops: seq<Op>, scope: string, from: int, through: int, rows: seq<Metric>,
                                         keys: seq<Entry>)
    requires ReadsWindow(MemoryOf(ops, scope), rows, keys, from, through)
    ensures forall e :: RowSum(rows, e) == Total(TableOf(ops), scope, e, from, through)
    ensures forall e :: e in Groups(TableOf(ops), scope, from, through) <==> Mentions(rows, e)
  {
    forall e
      ensures RowSum(rows, e) == Total(TableOf(ops), scope, e, from, through)
      ensures e in Groups(TableOf(ops), scope, from, through) <==> Mentions(rows, e)
    {
      WindowIsPicked(MemoryOf(ops, scope), rows, keys, e, from, through);
      PickedTotal(ops, scope, e, from, through);
      GroupsArePicked(ops, scope, e, from, through);
    }
  }

  lemma {:induction false} TableRefusesIff(ops: seq<Op>, scope: string, window: int, at: int)
    requires 1 <= window <= MAX_WINDOW_DAYS
    ensures TableMetrics(TableOf(ops), scope, window, at).Err? <==>
            exists e :: Overflows(TableOf(ops), scope, e, window, at)
  {
    var t, from, through := TableOf(ops), DaysBefore(at, window - 1), Day(at);
    var totals := Totals(t, scope, from, through);
    TotalsAreCounts(ops, scope, from, through);
    if e :| Overflows(t, scope, e, window, at) {
      assert e in totals && !(1 <= totals[e] <= MAX_COUNT);
    }
    if e :| e in totals && !(1 <= totals[e] <= MAX_COUNT) {
      assert Overflows(t, scope, e, window, at);
    }
  }

  /** A group's total is at least one, and an event without rows totals nothing. */
  lemma {:induction false} TotalsAreCounts(ops: seq<Op>, scope: string, from: int, through: int)
    ensures forall e :: if e in Groups(TableOf(ops), scope, from, through)
            then Total(TableOf(ops), scope, e, from, through) >= 1
                        else Total(TableOf(ops), scope, e, from, through) == 0
  {
    forall e ensures if e in Groups(TableOf(ops), scope, from, through)
        then Total(TableOf(ops), scope, e, from, through) >= 1
                     else Total(TableOf(ops), scope, e, from, through) == 0
    {
      OneTotal(ops, scope, e, from, through);
      if e in Groups(TableOf(ops), scope, from, through) {
        var c :| c in TableOf(ops) && c.scope == scope && from <= c.day <= through && c.event == e;
      }
    }
  }

  lemma {:induction false} OneTotal(ops: seq<Op>, scope: string, e: Event, from: int, through: int)
    ensures Total(TableOf(ops), scope, e, from, through) >= 0
    ensures Total(TableOf(ops), scope, e, from, through) >= 1
            <==> exists c: Cell :: c in TableOf(ops) && c.scope == scope && from <= c.day <= through && c.event == e
    decreases through - from
  {
    if from <= through {
      var c := Cell(scope, through, e);
      OneTotal(ops, scope, e, from, through - 1);
      CellsCount(ops, c);
    }
  }

  // ---------- prunes never show ----------

  lemma {:induction false} SameCellsSameTotal(t: Table, u: Table, scope: string, e: Event, from: int, through: int)
    requires forall c: Cell :: c.day >= from ==> (c in t <==> c in u) && (c in t ==> t[c] == u[c])
    ensures Total(t, scope, e, from, through) == Total(u, scope, e, from, through)
    decreases through - from
  {
    if from <= through {
      SameCellsSameTotal(t, u, scope, e, from, through - 1);
    }
  }

  lemma SameCellsSameGroups(t: Table, u: Table, scope: string, from: int, through: int)
    requires forall c: Cell :: c.day >= from ==> (c in t <==> c in u)
    ensures Groups(t, scope, from, through) <= Groups(u, scope, from, through)
  {
    forall e | e in Groups(t, scope, from, through) ensures e in Groups(u, scope, from, through) {
      var c :| c in t && c.scope == scope && from <= c.day <= through && c.event == e;
      assert c in u;
    }
  }

  lemma SameCellsSameTotals(t: Table, u: Table, scope: string, from: int, through: int)
    requires forall c: Cell :: c.day >= from ==> (c in t <==> c in u) && (c in t ==> t[c] == u[c])
    ensures Totals(t, scope, from, through) == Totals(u, scope, from, through)
  {
    SameCellsSameGroups(t, u, scope, from, through);
    SameCellsSameGroups(u, t, scope, from, through);
    forall e ensures Total(t, scope, e, from, through) == Total(u, scope, e, from, through) {
      SameCellsSameTotal(t, u, scope, e, from, through);
    }
  }

  lemma SameCellsSameMetrics(t: Table, u: Table, scope: string, window: int, at: int)
    requires forall c: Cell :: c.day >= DaysBefore(at, window - 1) ==> (c in t <==> c in u) && (c in t ==> t[c] == u[c])
    ensures TableMetrics(t, scope, window, at) == TableMetrics(u, scope, window, at)
  {
    SameCellsSameTotals(t, u, scope, DaysBefore(at, window - 1), Day(at));
  }

  /** A prune changes no reading whose window starts at or after the prune's boundary. */
  lemma PruneChangesNoReading(t: Table, prunedAt: int, scope: string, window: int, at: int)
    requires DaysBefore(at, window - 1) >= DaysBefore(prunedAt, RETENTION_DAYS)
    ensures TableMetrics(TableAfter(t, Prune(prunedAt)), scope, window, at) == TableMetrics(t, scope, window, at)
  {
    SameCellsSameMetrics(TableAfter(t, Prune(prunedAt)), t, scope, window, at);
  }

  /** In particular none that is made at the time of the prune or later. */
  lemma LaterReadingsAreSafe(t: Table, prunedAt: int, scope: string, window: int, at: int)
    requires prunedAt <= at
    ensures TableMetrics(TableAfter(t, Prune(prunedAt)), scope, window, at) == TableMetrics(t, scope, window, at)
  {
    if 1 <= window <= MAX_WINDOW_DAYS {
      DaysBeforeCounts(at, window - 1);
      DaysBeforeCounts(prunedAt, RETENTION_DAYS);
      PruneChangesNoReading(t, prunedAt, scope, window, at);
    }
  }

  function WithoutPrunes(ops: seq<Op>): seq<Op> {
    if ops == [] then []
    else WithoutPrunes(ops[..|ops| - 1]) + if ops[|ops| - 1].Prune? then [] else [ops[|ops| - 1]]
  }

  lemma {:induction false} RecentCellsForgetPrunes(ops: seq<Op>, c: Cell)
    requires forall i :: 0 <= i < |ops| && ops[i].Prune? ==> DaysBefore(ops[i].at, RETENTION_DAYS) <= c.day
    ensures Since(WithoutPrunes(ops), c) == Since(ops, c)
    decreases |ops|
  {
    if ops != [] {
      RecentCellsForgetPrunes(ops[..|ops| - 1], c);
      var rest := WithoutPrunes(ops[..|ops| - 1]);
      if !ops[|ops| - 1].Prune? {
        assert (rest + [ops[|ops| - 1]])[..|rest|] == rest;
      } else {
        assert rest + [] == rest;
      }
    }
  }

  /** A whole history of prunes leaves no trace in a reading made after all of them. */
  lemma {:induction false} PrunesNeverShow(ops: seq<Op>, scope: string, window: int, at: int)
    requires forall i :: 0 <= i < |ops| && ops[i].Prune? ==> ops[i].at <= at
    ensures TableMetrics(TableOf(WithoutPrunes(ops)), scope, window, at)
            == TableMetrics(TableOf(ops), scope, window, at)
  {
    if 1 <= window <= MAX_WINDOW_DAYS {
      DaysBeforeCounts(at, window - 1);
      forall c: Cell | c.day >= DaysBefore(at, window - 1)
        ensures c in TableOf(WithoutPrunes(ops)) <==> c in TableOf(ops)
        ensures c in TableOf(ops) ==> TableOf(WithoutPrunes(ops))[c] == TableOf(ops)[c]
      {
        forall i | 0 <= i < |ops| && ops[i].Prune? ensures DaysBefore(ops[i].at, RETENTION_DAYS) <= c.day {
          DaysBeforeCounts(ops[i].at, RETENTION_DAYS);
        }
        RecentCellsForgetPrunes(ops, c);
        CellsCount(ops, c);
        CellsCount(WithoutPrunes(ops), c);
      }
      SameCellsSameMetrics(TableOf(WithoutPrunes(ops)), TableOf(ops), scope, window, at);
    }
  }

  // ---------- the repositories ----------

  class MemoryAnalytics {
    var counts: Memory
    const scope: string
    ghost var ops: seq<Op>

    ghost predicate Traced()
      reads this
    {
      counts == MemoryOf(ops, scope)
    }

    constructor (scope: string)
      ensures Traced() && this.scope == scope && ops == []
    {
      this.scope := scope;
      counts := map[];
      ops := [];
    }

    method Increment(e: Event, at: int) returns (ok: bool)
      requires Traced()
      modifies this
      ensures Traced() && ok == Valid(e)
      ensures ops == old(ops) + [Op.Increment(scope, e, at)]
      ensures !ok ==> counts == old(counts)
      ensures ok ==>
                var k := Entry(at / 86_400_000, e);
                var was := if k in old(counts) then old(counts)[k] else 0;
                counts == old(counts)[k := if was < 2_147_483_647 then was + 1 else 2_147_483_647]
    {
      ok := Valid(e);
      if ok {
        counts := Increased(counts, Entry(Day(at), e));
      }
      assert counts == MemoryAfter(old(counts), scope, Op.Increment(scope, e, at));
      OneMoreOp(ops, scope, Op.Increment(scope, e, at));
      ops := ops + [Op.Increment(scope, e, at)];
    }

    /** Goes through the entries in whatever order the map holds them. */
    method Prune(at: int) returns (deleted: nat)
      requires Traced()
      modifies this
      ensures Traced() && ops == old(ops) + [Op.Prune(at)]
      ensures deleted == |old(counts)| - |counts|
      ensures counts == map k | k in old(counts) && k.day >= at / 86_400_000 - 180 :: old(counts)[k]
    {
      DaysBeforeCounts(at, RETENTION_DAYS);
      var boundary := DaysBefore(at, RETENTION_DAYS);
      var rest := counts.Keys;
      deleted := 0;
      while rest != {}
        invariant rest <= counts.Keys && deleted + |counts| == |old(counts)|
        invariant LeftOver(old(counts), counts, rest, boundary)
        invariant ops == old(ops)
        decreases |rest|
      {
        var k :| k in rest;
        LeaveOne(old(counts), counts, rest, k, boundary);
        rest := rest - {k};
        if k.day < boundary {
          OneLess(counts, k);
          counts := counts - {k};
          deleted := deleted + 1;
        }
      }
      LeftOverIsPruned(old(counts), counts, scope, at);
      OneMoreOp(ops, scope, Op.Prune(at));
      ops := ops + [Op.Prune(at)];
    }

    /** One row for each entry of the window, in whatever order the map holds them. */
    method Metrics(window: int, at: int) returns (r: Result<seq<Metric>, Refusal>, ghost keys: seq<Entry>)
      requires Traced()
      ensures r == Err(WindowInvalid) <==> !(1 <= window <= 90)
      ensures r.Err? <==> !(1 <= window <= 90)
      ensures r.Ok? ==>
                ReadsWindow(counts, r.value, keys, at / 86_400_000 - (window - 1), at / 86_400_000)
    {
      DaysBeforeCounts(at, window - 1);
      keys := [];
      if !(1 <= window <= MAX_WINDOW_DAYS) {
        return Err(WindowInvalid), keys;
      }
      var from, through := DaysBefore(at, window - 1), Day(at);
      var rows, rest := [], counts.Keys;
      while rest != {}
        invariant rest <= counts.Keys && Lists(counts, rows, keys)
        invariant forall k :: k in keys <==> k in counts && k !in rest && from <= k.day <= through
        decreases |rest|
      {
        var k :| k in rest;
        if from <= k.day <= through {
          rows := rows + [Metric(k.event, counts[k])];
          keys := keys + [k];
        }
        rest := rest - {k};
      }
      r := Ok(rows);
    }
  }

  /** What is left while entries are being removed; the ones in `rest` have not been looked at. */
  ghost predicate LeftOver(m: Memory, now: Memory, rest: set<Entry>, boundary: int) {
    && (forall k :: k in now <==> k in m && (k in rest || k.day >= boundary))
    && (forall k :: k in now ==> now[k] == m[k])
  }

  lemma LeaveOne(m: Memory, now: Memory, rest: set<Entry>, k: Entry, boundary: int)
    requires LeftOver(m, now, rest, boundary) && k in rest
    ensures LeftOver(m, if k.day < boundary then now - {k} else now, rest - {k}, boundary)
  {
  }

  lemma LeftOverIsPruned(m: Memory, now: Memory, scope: string, at: int)
    requires LeftOver(m, now, {}, DaysBefore(at, RETENTION_DAYS))
    ensures now == MemoryAfter(m, scope, Op.Prune(at))
  {
  }

  lemma {:induction false} OneMoreOp(ops: seq<Op>, scope: string, op: Op)
    ensures MemoryOf(ops + [op], scope) == MemoryAfter(MemoryOf(ops, scope), scope, op)
  {
    assert (ops + [op])[..|ops|] == ops;
  }

  lemma OneLess(m: Memory, k: Entry)
    requires k in m
    ensures |m - {k}| == |m| - 1
  {
    assert (m - {k}).Keys == m.Keys - {k};
    assert |m| == |m.Keys| && |m - {k}| == |(m - {k}).Keys|;
  }
}
