/**
 The per-project collaboration event log: many streams share one growing id space, every event links
 back to the previous event of its own stream, and a reader that resumes after an id learns from one
 event whether it has missed something.
 */
module CollaborationLog {
  import opened Results

  datatype Stream = Stream(organizationId: string, projectId: string)

  /** `content` stands for the type, actor, session, project revision, payload and time of the event. */
  datatype Event = Event(id: int, previous: Option<int>, stream: Stream, content: string)

  type Log = seq<Event>

  // ---------- reading a log ----------

  /** The events of one stream, in the order they were appended. */
  function StreamOf(log: Log, s: Stream): seq<Event> {
    if log == [] then []
    else
      var last := log[|log| - 1];
      StreamOf(log[..|log| - 1], s) + (if last.stream == s then [last] else [])
  }

  function Later(events: seq<Event>, after: int): seq<Event> {
    if events == [] then []
    else
      var last := events[|events| - 1];
      Later(events[..|events| - 1], after) + (if last.id > after then [last] else [])
  }

  function LastId(events: seq<Event>): Option<int> {
    if events == [] then None else Some(events[|events| - 1].id)
  }

  function End(events: seq<Event>): int {
    if events == [] then 0 else events[|events| - 1].id
  }

  function Cursor(log: Log, s: Stream): int {
    End(StreamOf(log, s))
  }

  function Clamp(limit: int): int {
    if limit < 1 then 1 else if limit > 100 then 100 else limit
  }

  /** `slice(0, limit)`: a negative limit counts from the end. */
  function Slice(events: seq<Event>, limit: int): seq<Event> {
    if limit >= |events| then events
    else if limit >= 0 then events[..limit]
    else if |events| + limit >= 0 then events[..|events| + limit]
    else []
  }

  function Page(log: Log, s: Stream, after: int, limit: int): seq<Event> {
    Slice(Later(StreamOf(log, s), after), limit)
  }

  predicate Missed(after: int, page: seq<Event>, cursor: int) {
    after > cursor || (after > 0 && page != [] && page[0].previous != Some(after))
  }

  // ---------- what a log looks like ----------

  /** Ids rise along the log and each event names the event before it in its own stream. */
  predicate WellLinked(log: Log) {
    log == [] ||
    var rest, last := log[..|log| - 1], log[|log| - 1];
    && WellLinked(rest)
    && last.id > 0
    && (rest != [] ==> rest[|rest| - 1].id < last.id)
    && last.previous == LastId(StreamOf(rest, last.stream))
  }

  predicate HasId(events: seq<Event>, id: int) {
    exists i :: 0 <= i < |events| && events[i].id == id
  }

  /** What `missed` is meant to say: the reader resumes after an id its stream does not hold. */
  predicate Gap(log: Log, s: Stream, after: int) {
    after > 0 && !HasId(StreamOf(log, s), after)
  }

  predicate Rising(events: seq<Event>) {
    && (forall i :: 0 <= i < |events| ==> events[i].id > 0)
    && (forall i, j :: 0 <= i < j < |events| ==> events[i].id < events[j].id)
  }

  /** One stream: ids rise and each event names the one before it. */
  ghost predicate Chained(events: seq<Event>) {
    && Rising(events)
    && (events != [] ==> events[0].previous == None)
    && (forall i, j :: 0 <= i < j < |events| && j == i + 1 ==> events[j].previous == Some(events[i].id))
  }

  lemma {:induction false} IdsBelowLast(log: Log, i: int)
    requires WellLinked(log) && 0 <= i < |log|
    ensures 0 < log[i].id <= log[|log| - 1].id
  {
    if i < |log| - 1 {
      IdsBelowLast(log[..|log| - 1], i);
    }
  }

  lemma {:induction false} StreamMembers(log: Log, s: Stream, i: int) returns (k: int)
    requires 0 <= i < |StreamOf(log, s)|
    ensures 0 <= k < |log| && log[k] == StreamOf(log, s)[i] && log[k].stream == s
  {
    var rest := log[..|log| - 1];
    if i < |StreamOf(rest, s)| {
      k := StreamMembers(rest, s, i);
    } else {
      k := |log| - 1;
    }
  }

  lemma ChainGrows(events: seq<Event>, last: Event)
    requires Chained(events) && last.id > 0 && last.previous == LastId(events)
    requires forall i :: 0 <= i < |events| ==> events[i].id < last.id
    ensures Chained(events + [last])
  {
  }

  /** A well-linked log is, stream by stream, a chain. */
  lemma {:induction false} StreamsAreChained(log: Log, s: Stream)
    requires WellLinked(log)
    ensures Chained(StreamOf(log, s))
  {
    if log != [] {
      var rest, last := log[..|log| - 1], log[|log| - 1];
      StreamsAreChained(rest, s);
      var before := StreamOf(rest, s);
      if last.stream == s {
        forall i | 0 <= i < |before| ensures before[i].id < last.id {
          var k := StreamMembers(rest, s, i);
          IdsBelowLast(rest, k);
        }
        ChainGrows(before, last);
      }
    }
  }

  /** `k` parts the events up to an id from the ones above it. */
  ghost predicate Parts(events: seq<Event>, after: int, k: int) {
    0 <= k <= |events| && forall i :: 0 <= i < |events| ==> (events[i].id > after <==> i >= k)
  }

  lemma OneMorePart(events: seq<Event>, last: Event, after: int, k: int) returns (k': int)
    requires Rising(events + [last]) && Parts(events, after, k)
    ensures Parts(events + [last], after, k')
    ensures (events + [last])[k'..] == events[k..] + (if last.id > after then [last] else [])
  {
    if last.id > after {
      k' := k;
    } else {
      var all := events + [last];
      assert k < |events| ==> events[k].id > after;
      forall i | 0 <= i < |events| ensures events[i].id <= after {
        assert all[i].id < all[|events|].id;
      }
      k' := k + 1;
    }
  }

  /** Where ids rise, the events above an id are a suffix. */
  lemma {:induction false} LaterIsSuffix(events: seq<Event>, after: int) returns (k: int)
    requires Rising(events)
    ensures 0 <= k <= |events| && Later(events, after) == events[k..]
    ensures Parts(events, after, k)
  {
    if events == [] {
      k := 0;
    } else {
      var rest, last := events[..|events| - 1], events[|events| - 1];
      assert events == rest + [last];
      k := LaterIsSuffix(rest, after);
      k := OneMorePart(rest, last, after, k);
    }
  }

  lemma {:induction false} NothingLater(events: seq<Event>, after: int)
    requires Rising(events) && after >= End(events)
    ensures Later(events, after) == []
  {
    var k := LaterIsSuffix(events, after);
    if events != [] {
      assert events[|events| - 1].id <= after;
    }
  }

  /** A page opens with the first later event; `k` is its place. */
  lemma PageOpens(events: seq<Event>, after: int, limit: int) returns (k: int)
    requires Rising(events) && limit >= 1
    ensures Parts(events, after, k)
    ensures var page := Slice(Later(events, after), limit);
            (page == [] <==> k == |events|) && (page != [] ==> page[0] == events[k])
  {
    k := LaterIsSuffix(events, after);
  }

  // ---------- the gap test ----------

  /** Below the end of a chain: the event after the reader's place names that place exactly if it is an event. */
  lemma NextNamesPlace(events: seq<Event>, after: int, k: nat)
    requires Chained(events) && after > 0 && k < |events|
    requires Parts(events, after, k)
    ensures events[k].previous != Some(after) <==> !HasId(events, after)
  {
    if HasId(events, after) {
      var i :| 0 <= i < |events| && events[i].id == after;
      assert i < k && events[i + 1].id > after;
    } else if k > 0 {
      assert events[k].previous == Some(events[k - 1].id);
    }
  }

  /** The gap test on one chain: the first later event, if any, is the one right after the reader's place. */
  lemma {:induction false} GapInChain(events: seq<Event>, after: int, limit: int)
    requires Chained(events) && limit >= 1
    ensures Missed(after, Slice(Later(events, after), limit), End(events)) <==> after > 0 && !HasId(events, after)
  {
    var k := PageOpens(events, after, limit);
    if k < |events| {
      EndIsLast(events, k);
      if after > 0 {
        NextNamesPlace(events, after, k);
      }
    } else {
      PlaceAtTheEnd(events, after);
    }
  }

  lemma EndIsLast(events: seq<Event>, k: nat)
    requires Rising(events) && k < |events|
    ensures 0 < events[k].id <= End(events)
  {
  }

  /** With nothing later, the reader's place is the end of the chain or past it. */
  lemma PlaceAtTheEnd(events: seq<Event>, after: int)
    requires Rising(events) && forall i :: 0 <= i < |events| ==> events[i].id <= after
    ensures after > End(events) <==> after > 0 && !HasId(events, after)
  {
    if events != [] && after == End(events) {
      assert events[|events| - 1].id == after;
    }
  }

  /** On every well-linked log, whatever streams are interleaved, `missed` says exactly that there is a gap. */
  lemma {:induction false} GapTestExact(log: Log, s: Stream, after: int, limit: int)
    requires WellLinked(log) && limit >= 1
    ensures Missed(after, Page(log, s, after, limit), Cursor(log, s)) <==> Gap(log, s, after)
  {
    StreamsAreChained(log, s);
    GapInChain(StreamOf(log, s), after, limit);
  }

  lemma {:induction false} StreamGrows(before: Log, now: Log, s: Stream)
    requires before <= now
    ensures StreamOf(before, s) <= StreamOf(now, s)
  {
    if |before| < |now| {
      StreamGrows(before, now[..|now| - 1], s);
    } else {
      assert before == now;
    }
  }

  lemma {:induction false} PrefixIsLinked(before: Log, now: Log)
    requires before <= now && WellLinked(now)
    ensures WellLinked(before)
  {
    if |before| < |now| {
      PrefixIsLinked(before, now[..|now| - 1]);
    } else {
      assert before == now;
    }
  }

  lemma SameOpening(first: seq<Event>, second: seq<Event>, after: int, k: nat)
    requires first <= second && Rising(second) && k < |first|
    requires Parts(first, after, k)
    ensures Parts(second, after, k)
  {
    forall i | 0 <= i < |second| ensures second[i].id > after <==> i >= k {
      assert second[k] == first[k];
      assert i < k ==> second[i] == first[i];
    }
  }

  /** A page of the chain as it was, with something on it, judged against the end of the chain as it is. */
  lemma {:induction false} FullPageIsCurrent(first: seq<Event>, second: seq<Event>, after: int, limit: int)
    requires first <= second && Chained(first) && Chained(second) && limit >= 1 && 0 < after < End(first)
    ensures Missed(after, Slice(Later(first, after), limit), End(second)) <==> !HasId(second, after)
  {
    var k := PageOpens(first, after, limit);
    assert first[|first| - 1].id > after;
    SameOpening(first, second, after, k);
    NextNamesPlace(second, after, k);
    assert second[k] == first[k];
    EndIsLast(second, k);
  }

  /** An empty page at the end of the chain as it was: there is no gap, and none is reported. */
  lemma EndOfChainIsNoGap(first: seq<Event>, second: seq<Event>, after: int)
    requires first <= second && Rising(second) && 0 < after == End(first)
    ensures after <= End(second) && HasId(second, after)
  {
    assert second[|first| - 1].id == after;
  }

  // ---------- two reads ----------

  /**
   The D1 repository reads the page and the cursor in two statements: is its answer, with the page from the log
   as it was first and the cursor from the log as it was later, exact for that later log?
   */
  ghost predicate ExactAcross(first: Log, second: Log, s: Stream, after: int, limit: int) {
    Missed(after, Page(first, s, after, Clamp(limit)), Cursor(second, s)) <==> Gap(second, s, after)
  }

  lemma {:induction false} ResumingInsideChain(first: seq<Event>, second: seq<Event>, after: int, limit: int)
    requires first <= second && Chained(first) && Chained(second) && limit >= 1 && after <= End(first)
    ensures Missed(after, Slice(Later(first, after), limit), End(second)) <==> after > 0 && !HasId(second, after)
  {
    if after <= 0 {
      assert End(second) >= 0;
    } else if after < End(first) {
      FullPageIsCurrent(first, second, after, limit);
    } else {
      NothingLater(first, after);
      EndOfChainIsNoGap(first, second, after);
    }
  }

  lemma {:induction false} ResumingInsideIsExact(first: Log, second: Log, s: Stream, after: int, limit: int)
    requires first <= second && WellLinked(second) && after <= Cursor(first, s)
    ensures ExactAcross(first, second, s, after, limit)
  {
    PrefixIsLinked(first, second);
    StreamsAreChained(first, s);
    StreamsAreChained(second, s);
    StreamGrows(first, second, s);
    ResumingInsideChain(StreamOf(first, s), StreamOf(second, s), after, Clamp(limit));
  }

  /** The next event of stream `s`, with an id above both the log's last and the reader's place. */
  function NextPast(log: Log, s: Stream, after: int, content: string): Event {
    var last := if log == [] then 0 else log[|log| - 1].id;
    Event((if after > last then after else last) + 1, LastId(StreamOf(log, s)), s, content)
  }

  lemma {:induction false} StreamGains(log: Log, e: Event)
    ensures StreamOf(log + [e], e.stream) == StreamOf(log, e.stream) + [e]
  {
    assert (log + [e])[..|log|] == log;
  }

  /** Past the end of a chain there is no event, and a further one past that does not fill the place. */
  lemma PlaceStaysEmpty(events: seq<Event>, after: int, e: Event)
    requires Rising(events) && after > End(events) && e.id > after
    ensures !HasId(events + [e], after) && End(events + [e]) == e.id
  {
    forall i | 0 <= i < |events + [e]| ensures (events + [e])[i].id != after {
      if i < |events| {
        EndIsLast(events, i);
      }
    }
  }

  /** The gap test on a chain that a further event has closed in the meantime. */
  lemma {:induction false} GapIsHidden(events: seq<Event>, after: int, limit: int, e: Event)
    requires Rising(events) && after > End(events) && e.id > after
    ensures after > 0 && !HasId(events + [e], after)
    ensures !Missed(after, Slice(Later(events, after), limit), End(events + [e]))
  {
    NothingLater(events, after);
    PlaceStaysEmpty(events, after, e);
  }

  /** A reader past the end of its stream: the next event, appended between the two reads, hides the gap. */
  lemma {:induction false} AppendHidesGap(first: Log, s: Stream, after: int, limit: int, content: string)
    requires WellLinked(first) && after > Cursor(first, s)
    ensures var second := first + [NextPast(first, s, after, content)];
            && WellLinked(second)
            && Gap(second, s, after)
            && !Missed(after, Page(first, s, after, Clamp(limit)), Cursor(second, s))
  {
    var e := NextPast(first, s, after, content);
    AppendKeepsLinks(first, e);
    StreamsAreChained(first, s);
    StreamGains(first, e);
    GapIsHidden(StreamOf(first, s), after, Clamp(limit), e);
  }

  lemma SecondLog(first: Log, s: Stream, after: int, limit: int) returns (second: Log)
    requires WellLinked(first) && after > Cursor(first, s)
    ensures first <= second && WellLinked(second) && !ExactAcross(first, second, s, after, limit)
  {
    AppendHidesGap(first, s, after, limit, "");
    second := first + [NextPast(first, s, after, "")];
  }

  /**
   Appends may slip in between the two reads. The answer is exact for the later log, whatever was appended,
   exactly when the reader resumes no later than where the stream ended at the first read.
   */
  lemma {:induction false} TwoReadGapTestExactIff(first: Log, s: Stream, after: int, limit: int)
    requires WellLinked(first)
    ensures (forall second {:trigger ExactAcross(first, second, s, after, limit)} ::
               first <= second && WellLinked(second) ==> ExactAcross(first, second, s, after, limit))
            <==> after <= Cursor(first, s)
  {
    if after <= Cursor(first, s) {
      forall second | first <= second && WellLinked(second) ensures ExactAcross(first, second, s, after, limit) {
        ResumingInsideIsExact(first, second, s, after, limit);
      }
    } else {
      var second := SecondLog(first, s, after, limit);
      assert !ExactAcross(first, second, s, after, limit);
    }
  }

  /** One log, one reader position: does the memory repository's answer say exactly that there is a gap? */
  ghost predicate MemoryExact(log: Log, s: Stream, after: int, limit: int) {
    WellLinked(log) ==> (Missed(after, Page(log, s, after, limit), Cursor(log, s)) <==> Gap(log, s, after))
  }

  lemma {:induction false} StreamIgnores(log: Log, e: Event, s: Stream)
    requires e.stream != s
    ensures StreamOf(log + [e], s) == StreamOf(log, s)
  {
    assert (log + [e])[..|log|] == log;
    assert StreamOf(log, s) + [] == StreamOf(log, s);
  }

  /** Three events, the second of another stream: for readers of the first, 2 is no event of theirs. */
  function ThreeEvents(a: Stream, b: Stream): Log {
    [] + [Event(1, None, a, "")] + [Event(2, None, b, "")] + [Event(3, Some(1), a, "")]
  }

  lemma {:induction false} ThreeEventsAreLinked(a: Stream, b: Stream)
    requires a != b
    ensures WellLinked(ThreeEvents(a, b)) && StreamOf(ThreeEvents(a, b), a)
            == [Event(1, None, a, ""), Event(3, Some(1), a, "")]
  {
    var one, two, three := Event(1, None, a, ""), Event(2, None, b, ""), Event(3, Some(1), a, "");
    var first: Log := [];
    StreamGains(first, one);
    AppendKeepsLinks(first, one);
    StreamIgnores(first, one, b);
    StreamIgnores(first + [one], two, a);
    AppendKeepsLinks(first + [one], two);
    StreamGains(first + [one] + [two], three);
    AppendKeepsLinks(first + [one] + [two], three);
  }

  lemma {:induction false} LaterOfTwo(one: Event, three: Event, after: int)
    requires one.id <= after < three.id
    ensures Later([one, three], after) == [three]
  {
    assert [one, three][..1] == [one] && [one][..0] == [];
    assert Later([one], after) == [];
  }

  /** With a limit below 1 the page can come back empty although later events show the gap. */
  lemma EmptyPageHidesGap(a: Stream, b: Stream, limit: int)
    requires a != b && limit < 1
    ensures !MemoryExact(ThreeEvents(a, b), a, 2, limit)
  {
    ThreeEventsAreLinked(a, b);
    LaterOfTwo(Event(1, None, a, ""), Event(3, Some(1), a, ""), 2);
    assert Slice([Event(3, Some(1), a, "")], limit) == [];
  }

  /** The memory repository does not clamp its limit: its gap test is exact for every log only from limit 1 up. */
  lemma MemoryGapTestExactIff(limit: int)
    ensures (forall log: Log, s: Stream, after: int :: MemoryExact(log, s, after, limit)) <==> limit >= 1
  {
    if limit >= 1 {
      forall log: Log, s: Stream, after: int ensures MemoryExact(log, s, after, limit) {
        if WellLinked(log) {
          GapTestExact(log, s, after, limit);
        }
      }
    } else {
      var a, b := Stream("a", "p"), Stream("b", "p");
      EmptyPageHidesGap(a, b, limit);
      assert !MemoryExact(ThreeEvents(a, b), a, 2, limit);
    }
  }

  // ---------- paging ----------

  /** One call of `events`: the log at its first read, the log at its second, and the limit asked for. */
  datatype Poll = Poll(first: Log, second: Log, limit: int)

  /** Calls in order of time, with appends allowed between any two reads. */
  ghost predicate Schedule(polls: seq<Poll>) {
    polls == [] ||
    var rest, last := polls[..|polls| - 1], polls[|polls| - 1];
    && Schedule(rest)
    && last.first <= last.second
    && WellLinked(last.second)
    && (rest != [] ==> rest[|rest| - 1].second <= last.first)
  }

  /** One call that resumes after the last event received. */
  function Resume(events: seq<Event>, sofar: seq<Event>, limit: int): seq<Event> {
    sofar + Slice(Later(events, End(sofar)), Clamp(limit))
  }

  /** What a reader that starts at 0 and always resumes after its last event has received. */
  function Received(polls: seq<Poll>, s: Stream): seq<Event> {
    if polls == [] then []
    else Resume(StreamOf(polls[|polls| - 1].first, s), Received(polls[..|polls| - 1], s), polls[|polls| - 1].limit)
  }

  function Min(a: int, b: int): int { if a < b then a else b }

  /** What one call of a resuming reader is told. */
  predicate ToldOfGap(poll: Poll, s: Stream, after: int) {
    Missed(after, Page(poll.first, s, after, Clamp(poll.limit)), Cursor(poll.second, s))
  }

  /** In a chain, the events after a received beginning are the rest of the chain. */
  lemma {:induction false} RestOfChain(chain: seq<Event>, sofar: seq<Event>)
    requires sofar <= chain && Chained(chain)
    ensures Later(chain, End(sofar)) == chain[|sofar|..]
  {
    var after, n := End(sofar), |sofar|;
    var k := LaterIsSuffix(chain, after);
    assert n > 0 ==> chain[n - 1].id == after;
    assert forall i :: 0 <= i < n ==> chain[i].id <= after;
    assert n < |chain| ==> chain[n].id > after;
  }

  lemma RestIsNoGap(first: seq<Event>, second: seq<Event>, sofar: seq<Event>, limit: int)
    requires sofar <= first <= second && Chained(first) && Chained(second)
    ensures !Missed(End(sofar), Slice(first[|sofar|..], limit), End(second))
  {
    var after, n := End(sofar), |sofar|;
    if n > 0 {
      assert first[n - 1].id == after == second[n - 1].id <= End(second);
      assert n < |first| ==> first[n].previous == Some(after);
    }
  }

  lemma SliceExtends(events: seq<Event>, sofar: seq<Event>, limit: int)
    requires sofar <= events && limit >= 1
    ensures var page := Slice(events[|sofar|..], limit);
            && sofar + page <= events
            && |sofar + page| == Min(|events|, |sofar| + limit)
  {
    assert events == sofar + events[|sofar|..];
  }

  /** One call took a reader from `before` to `now`: still a beginning of the stream, and no less than it could get. */
  predicate Delivered(events: seq<Event>, before: seq<Event>, now: seq<Event>, limit: int) {
    now <= events && |now| == Min(|events|, |before| + Clamp(limit))
  }

  /** A reader that resumes after what it received of a chain gets what follows. */
  lemma NextPage(events: seq<Event>, sofar: seq<Event>, limit: int)
    requires Chained(events) && sofar <= events
    ensures Delivered(events, sofar, Resume(events, sofar, limit), limit)
  {
    RestOfChain(events, sofar);
    SliceExtends(events, sofar, Clamp(limit));
  }

  /** And it is not told of a gap. */
  lemma {:induction false} ResumingIsNoGap(poll: Poll, s: Stream, sofar: seq<Event>)
    requires WellLinked(poll.second) && poll.first <= poll.second
    requires sofar <= StreamOf(poll.first, s)
    ensures !ToldOfGap(poll, s, End(sofar))
  {
    PrefixIsLinked(poll.first, poll.second);
    StreamGrows(poll.first, poll.second, s);
    StreamsAreChained(poll.first, s);
    StreamsAreChained(poll.second, s);
    RestOfChain(StreamOf(poll.first, s), sofar);
    RestIsNoGap(StreamOf(poll.first, s), StreamOf(poll.second, s), sofar, Clamp(poll.limit));
  }

  /** Whatever is appended after the last call, what was received stays a beginning of the stream. */
  lemma {:induction false} ReceivedIsPrefix(polls: seq<Poll>, now: Log, s: Stream)
    requires Schedule(polls) && WellLinked(now)
    requires polls != [] ==> polls[|polls| - 1].second <= now
    ensures Received(polls, s) <= StreamOf(now, s)
    decreases polls
  {
    if polls != [] {
      var rest, last := polls[..|polls| - 1], polls[|polls| - 1];
      PrefixIsLinked(last.first, last.second);
      ReceivedIsPrefix(rest, last.first, s);
      StillDelivered(last.first, now, s, Received(rest, s), last.limit);
    }
  }

  lemma {:induction false} StillDelivered(log: Log, now: Log, s: Stream, sofar: seq<Event>, limit: int)
    requires WellLinked(log) && log <= now && sofar <= StreamOf(log, s)
    ensures Resume(StreamOf(log, s), sofar, limit) <= StreamOf(now, s)
  {
    ResumeDelivers(log, s, sofar, limit);
    StreamGrows(log, now, s);
  }

  lemma {:induction false} ReceivedSoFar(polls: seq<Poll>, s: Stream)
    requires Schedule(polls) && polls != []
    ensures var rest, last := polls[..|polls| - 1], polls[|polls| - 1];
            && last.first <= last.second && WellLinked(last.first) && WellLinked(last.second)
            && Received(rest, s) <= StreamOf(last.first, s)
  {
    PrefixIsLinked(polls[|polls| - 1].first, polls[|polls| - 1].second);
    ReceivedIsPrefix(polls[..|polls| - 1], polls[|polls| - 1].first, s);
  }

  /**
   After every call the reader holds exactly the first events of its stream, each once and in order, and
   the call moved it forward by a full page or to the end of what its first read saw.
   */
  lemma {:induction false} PagingDeliversOnce(polls: seq<Poll>, s: Stream)
    requires Schedule(polls) && polls != []
    ensures var rest, last := polls[..|polls| - 1], polls[|polls| - 1];
            Delivered(StreamOf(last.first, s), Received(rest, s), Received(polls, s), last.limit)
  {
    var rest, last := polls[..|polls| - 1], polls[|polls| - 1];
    ReceivedSoFar(polls, s);
    ResumeDelivers(last.first, s, Received(rest, s), last.limit);
  }

  lemma {:induction false} ResumeDelivers(log: Log, s: Stream, sofar: seq<Event>, limit: int)
    requires WellLinked(log) && sofar <= StreamOf(log, s)
    ensures Delivered(StreamOf(log, s), sofar, Resume(StreamOf(log, s), sofar, limit), limit)
  {
    StreamsAreChained(log, s);
    NextPage(StreamOf(log, s), sofar, limit);
  }

  /** No call of a resuming reader is told that events are missing. */
  lemma {:induction false} ReaderIsNeverReset(polls: seq<Poll>, s: Stream)
    requires Schedule(polls) && polls != []
    ensures !ToldOfGap(polls[|polls| - 1], s, End(Received(polls[..|polls| - 1], s)))
  {
    ReceivedSoFar(polls, s);
    ResumingIsNoGap(polls[|polls| - 1], s, Received(polls[..|polls| - 1], s));
  }

  // ---------- the two repositories ----------

  lemma {:induction false} AppendKeepsLinks(log: Log, e: Event)
    requires WellLinked(log)
    requires e.id > 0 && (log != [] ==> log[|log| - 1].id < e.id)
    requires e.previous == LastId(StreamOf(log, e.stream))
    ensures WellLinked(log + [e])
    ensures forall s :: StreamOf(log + [e], s) == StreamOf(log, s) + if s == e.stream then [e] else []
  {
    assert (log + [e])[..|log|] == log;
  }

  /** What a project purge leaves: the foreign key removes every event of the project. */
  function WithoutProject(log: Log, projectId: string): Log {
    if log == [] then []
    else
      var last := log[|log| - 1];
      WithoutProject(log[..|log| - 1], projectId) + (if last.stream.projectId == projectId then [] else [last])
  }

  lemma {:induction false} PurgeKeepsOtherStreams(log: Log, projectId: string, s: Stream)
    ensures StreamOf(WithoutProject(log, projectId), s)
            == if s.projectId == projectId then [] else StreamOf(log, s)
  {
    if log != [] {
      var rest, last := log[..|log| - 1], log[|log| - 1];
      PurgeKeepsOtherStreams(rest, projectId, s);
      var kept := WithoutProject(rest, projectId);
      if last.stream.projectId == projectId {
        assert WithoutProject(log, projectId) == kept;
      } else {
        assert WithoutProject(log, projectId) == kept + [last];
        assert (kept + [last])[..|kept|] == kept;
      }
    }
  }

  /** Purging a project removes its streams whole, so the links and the gap test of the others survive. */
  lemma {:induction false} PurgeKeepsLinks(log: Log, projectId: string)
    requires WellLinked(log)
    ensures WellLinked(WithoutProject(log, projectId))
    ensures |WithoutProject(log, projectId)| <= |log|
    ensures WithoutProject(log, projectId) != [] ==>
              log != [] && LastId(WithoutProject(log, projectId)).value <= log[|log| - 1].id
  {
    if log != [] {
      var rest, last := log[..|log| - 1], log[|log| - 1];
      PurgeKeepsLinks(rest, projectId);
      PurgeKeepsOtherStreams(rest, projectId, last.stream);
      var kept := WithoutProject(rest, projectId);
      if last.stream.projectId != projectId {
        AppendKeepsLinks(kept, last);
        assert WithoutProject(log, projectId) == kept + [last];
      } else {
        assert WithoutProject(log, projectId) == kept;
      }
    }
  }

  // ---------- what the calls return, in terms of the log ----------

  ghost predicate IsLater(log: Log, s: Stream, after: int, e: Event) {
    e in log && e.stream == s && e.id > after
  }

  /** The first so many of the stream's events after an id, in rising order: all of them, if there are no more. */
  ghost predicate FirstLater(log: Log, s: Stream, after: int, events: seq<Event>, most: int) {
    && |events| <= most
    && (forall i :: 0 <= i < |events| ==> IsLater(log, s, after, events[i]))
    && (forall i, j :: 0 <= i < j < |events| ==> events[i].id < events[j].id)
    && (forall e :: IsLater(log, s, after, e) && e !in events ==>
          |events| == most && forall i :: 0 <= i < |events| ==> events[i].id < e.id)
  }

  /** The highest id of the stream, or 0. */
  ghost predicate IsCursor(log: Log, s: Stream, cursor: int) {
    && (forall e :: e in log && e.stream == s ==> e.id <= cursor)
    && (cursor == 0 || exists e :: e in log && e.stream == s && e.id == cursor)
    && cursor >= 0
  }

  /** The reader resumes after an id that no event of its stream has. */
  ghost predicate MissesSome(log: Log, s: Stream, after: int) {
    after > 0 && forall e :: e in log && e.stream == s ==> e.id != after
  }

  /** The new event names the last one of its stream, if there is one. */
  ghost predicate LinksBack(log: Log, event: Event) {
    match event.previous
    case None => forall e :: e in log ==> e.stream != event.stream
    case Some(id) => IsCursor(log, event.stream, id) && exists e :: e in log && e.stream == event.stream && e.id == id
  }

  lemma {:induction false} StreamHolds(log: Log, s: Stream, e: Event)
    ensures e in StreamOf(log, s) <==> e in log && e.stream == s
  {
    if log != [] {
      var rest, last := log[..|log| - 1], log[|log| - 1];
      StreamHolds(rest, s, e);
      assert log == rest + [last];
    }
  }

  lemma {:induction false} LaterHolds(events: seq<Event>, after: int, e: Event)
    ensures e in Later(events, after) <==> e in events && e.id > after
  {
    if events != [] {
      var rest, last := events[..|events| - 1], events[|events| - 1];
      LaterHolds(rest, after, e);
      assert events == rest + [last];
    }
  }

  ghost predicate AreAllLater(log: Log, s: Stream, after: int, later: seq<Event>) {
    && (forall e :: IsLater(log, s, after, e) <==> e in later)
    && (forall i, j :: 0 <= i < j < |later| ==> later[i].id < later[j].id)
  }

  lemma {:induction false} LaterAreAll(log: Log, s: Stream, after: int)
    requires WellLinked(log)
    ensures AreAllLater(log, s, after, Later(StreamOf(log, s), after))
  {
    var stream := StreamOf(log, s);
    StreamsAreChained(log, s);
    var k := LaterIsSuffix(stream, after);
    forall e ensures IsLater(log, s, after, e) <==> e in Later(stream, after) {
      StreamHolds(log, s, e);
      LaterHolds(stream, after, e);
    }
  }

  /** Cutting the later events at the front gives the first of them. */
  lemma CutIsFirst(log: Log, s: Stream, after: int, later: seq<Event>, most: nat)
    requires AreAllLater(log, s, after, later)
    ensures FirstLater(log, s, after, later[..if most < |later| then most else |later|], most)
  {
    var page := later[..if most < |later| then most else |later|];
    forall i | 0 <= i < |page| ensures IsLater(log, s, after, page[i]) {
      assert later[i] in later;
    }
    forall e | IsLater(log, s, after, e) && e !in page
      ensures |page| == most && forall i :: 0 <= i < |page| ==> page[i].id < e.id
    {
      var k :| 0 <= k < |later| && later[k] == e;
      assert forall m :: 0 <= m < |page| ==> later[m] in page;
      assert k >= |page|;
    }
  }

  /** All but so many of the later events, from the front. */
  ghost predicate CutAtTheEnd(log: Log, s: Stream, after: int, events: seq<Event>, n: nat) {
    exists all :: FirstLater(log, s, after, all, |all| + 1)
                  && events == all[..if n < |all| then |all| - n else 0]
  }

  lemma SliceCutsAtTheEnd(log: Log, s: Stream, after: int, later: seq<Event>, limit: int)
    requires AreAllLater(log, s, after, later) && limit < 0
    ensures CutAtTheEnd(log, s, after, Slice(later, limit), -limit)
  {
    CutIsFirst(log, s, after, later, |later| + 1);
    assert later[..|later|] == later;
    assert later[..0] == [];
  }

  lemma {:induction false} SliceCuts(log: Log, s: Stream, after: int, limit: int)
    requires WellLinked(log)
    ensures limit >= 0 ==> FirstLater(log, s, after, Page(log, s, after, limit), limit)
    ensures limit < 0 ==> CutAtTheEnd(log, s, after, Page(log, s, after, limit), -limit)
  {
    var later := Later(StreamOf(log, s), after);
    LaterAreAll(log, s, after);
    if limit < 0 {
      SliceCutsAtTheEnd(log, s, after, later, limit);
    } else {
      CutIsFirst(log, s, after, later, limit);
      assert later[..|later|] == later;
    }
  }

  /** What one read of the table comes to. */
  lemma {:induction false} ReadIsExact(log: Log, s: Stream, after: int, limit: int)
    requires WellLinked(log) && limit >= 1
    ensures FirstLater(log, s, after, Page(log, s, after, limit), limit)
    ensures IsCursor(log, s, Cursor(log, s))
    ensures Missed(after, Page(log, s, after, limit), Cursor(log, s)) <==> MissesSome(log, s, after)
  {
    SliceCuts(log, s, after, limit);
    CursorIsHighest(log, s);
    GapTestExact(log, s, after, limit);
    GapIsMissing(log, s, after);
  }

  lemma {:induction false} CursorIsHighest(log: Log, s: Stream)
    requires WellLinked(log)
    ensures IsCursor(log, s, Cursor(log, s))
  {
    var stream := StreamOf(log, s);
    StreamsAreChained(log, s);
    forall e | e in log && e.stream == s ensures e in stream && e.id <= End(stream) {
      StreamHolds(log, s, e);
    }
    if stream != [] {
      StreamHolds(log, s, stream[|stream| - 1]);
    }
  }

  lemma GapIsMissing(log: Log, s: Stream, after: int)
    ensures Gap(log, s, after) <==> MissesSome(log, s, after)
  {
    forall e ensures e in StreamOf(log, s) <==> e in log && e.stream == s {
      StreamHolds(log, s, e);
    }
  }

  lemma {:induction false} LastIdLinksBack(log: Log, event: Event)
    requires WellLinked(log) && event.previous == LastId(StreamOf(log, event.stream))
    ensures LinksBack(log, event)
  {
    var stream := StreamOf(log, event.stream);
    forall e ensures e in stream <==> e in log && e.stream == event.stream {
      StreamHolds(log, event.stream, e);
    }
    CursorIsHighest(log, event.stream);
    if stream != [] {
      assert stream[|stream| - 1] in stream;
    }
  }

  /** The D1 table: rows in id order and the AUTOINCREMENT counter, which never goes back. */
  class D1Collaboration {
    var rows: Log
    var counter: nat

    ghost predicate Valid() reads this {
      WellLinked(rows) && (rows != [] ==> rows[|rows| - 1].id <= counter)
    }

    constructor ()
      ensures Valid() && rows == [] && counter == 0
    {
      rows, counter := [], 0;
    }

    method Append(stream: Stream, content: string) returns (event: Event)
      requires Valid()
      modifies this
      ensures Valid()
      ensures rows == old(rows) + [event] && counter == old(counter) + 1
      ensures event.id == counter && event.stream == stream && event.content == content
      ensures LinksBack(old(rows), event)
      ensures event == Event(counter, LastId(StreamOf(old(rows), stream)), stream, content)
    {
      event := Event(counter + 1, LastId(StreamOf(rows, stream)), stream, content);
      AppendKeepsLinks(rows, event);
      LastIdLinksBack(rows, event);
      rows, counter := rows + [event], counter + 1;
    }

    method Events(stream: Stream, after: int, limit: int) returns (events: seq<Event>, cursor: int, missed: bool)
      requires Valid()
      ensures FirstLater(rows, stream, after, events, if limit < 1 then 1 else if limit <= 100 then limit else 100)
      ensures events <= Later(StreamOf(rows, stream), after)
      ensures |events| == Min(|Later(StreamOf(rows, stream), after)|, Clamp(limit))
      ensures IsCursor(rows, stream, cursor)
      ensures missed <==> MissesSome(rows, stream, after)
    {
      events := Page(rows, stream, after, Clamp(limit));
      cursor := Cursor(rows, stream);
      missed := Missed(after, events, cursor);
      ReadIsExact(rows, stream, after, Clamp(limit));
    }

    method PurgeProject(projectId: string)
      requires Valid()
      modifies this
      ensures Valid() && counter == old(counter)
      ensures forall s :: StreamOf(rows, s) == if s.projectId == projectId then [] else StreamOf(old(rows), s)
    {
      PurgeKeepsLinks(rows, projectId);
      forall s ensures StreamOf(WithoutProject(rows, projectId), s)
                       == if s.projectId == projectId then [] else StreamOf(rows, s)
      {
        PurgeKeepsOtherStreams(rows, projectId, s);
      }
      rows := WithoutProject(rows, projectId);
    }
  }

  /** The memory repository numbers events by the length of its list. */
  class MemoryCollaboration {
    var eventRecords: Log

    ghost predicate Valid() reads this {
      && WellLinked(eventRecords)
      && forall i :: 0 <= i < |eventRecords| ==> eventRecords[i].id == i + 1
    }

    constructor ()
      ensures Valid() && eventRecords == []
    {
      eventRecords := [];
    }

    method Append(stream: Stream, content: string) returns (event: Event)
      requires Valid()
      modifies this
      ensures Valid()
      ensures eventRecords == old(eventRecords) + [event]
      ensures event == Event(|eventRecords|, LastId(StreamOf(old(eventRecords), stream)), stream, content)
      ensures LinksBack(old(eventRecords), event)
    {
      event := Event(|eventRecords| + 1, LastId(StreamOf(eventRecords, stream)), stream, content);
      AppendKeepsLinks(eventRecords, event);
      LastIdLinksBack(eventRecords, event);
      eventRecords := eventRecords + [event];
    }

    method Events(stream: Stream, after: int, limit: int) returns (events: seq<Event>, cursor: int, missed: bool)
      requires Valid()
      ensures events == Page(eventRecords, stream, after, limit)
      ensures limit >= 0 ==> FirstLater(eventRecords, stream, after, events, limit)
      ensures limit < 0 ==> CutAtTheEnd(eventRecords, stream, after, events, -limit)
      ensures IsCursor(eventRecords, stream, cursor)
      ensures limit >= 1 ==> (missed <==> MissesSome(eventRecords, stream, after))
      ensures events == [] ==> (missed <==> after > cursor)
    {
      events := Page(eventRecords, stream, after, limit);
      cursor := Cursor(eventRecords, stream);
      missed := Missed(after, events, cursor);
      if limit >= 1 {
        ReadIsExact(eventRecords, stream, after, limit);
      } else {
        CursorIsHighest(eventRecords, stream);
        SliceCuts(eventRecords, stream, after, limit);
      }
    }
  }
}
