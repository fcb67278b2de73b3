// The append-only trace store (app/domain/trace/engine.py): one flat event table shared
// by all traces, with a hash chain per trace.
module TraceStore {
  import opened Wrappers
  import opened Json
  import opened Hashing
  import opened Evidence

  datatype EventType =
    | RequestReceived | PlanCreated | PolicyEvaluated
    | ApprovalRequested | ApprovalGranted | ApprovalRejected
    | ToolCallStarted | ToolCallCompleted | ToolCallBlocked
    | IncidentQuarantined | ReceiptIssued | InterventionApplied

  datatype TraceEvent = TraceEvent(
    traceId: string,
    sequence: int,
    eventType: EventType,
    body: Body,
    previousHash: string,
    eventHash: string)

  type Log = seq<TraceEvent>

  datatype Timeline = Timeline(traceId: string, events: Log, chainValid: bool)

  // ---------------------------------------------------------------------------------
  // Queries over the flat table
  // ---------------------------------------------------------------------------------

  // The rows of one trace, in the order they were inserted.
  function LogOf(events: Log, traceId: string): Log {
    if |events| == 0 then []
    else
      var last := events[|events| - 1];
      var front := LogOf(events[..|events| - 1], traceId);
      if last.traceId == traceId then front + [last] else front
  }

  // select ... where trace_id = ? order by sequence desc limit 1
  function LatestEvent(events: Log, traceId: string): Option<TraceEvent> {
    if |events| == 0 then None
    else
      var last := events[|events| - 1];
      var front := LatestEvent(events[..|events| - 1], traceId);
      if last.traceId == traceId && (front.None? || front.value.sequence <= last.sequence) then Some(last)
      else front
  }

  // order by sequence asc
  function InsertBySequence(e: TraceEvent, sorted: Log): Log {
    if |sorted| == 0 || sorted[|sorted| - 1].sequence <= e.sequence then sorted + [e]
    else InsertBySequence(e, sorted[..|sorted| - 1]) + [sorted[|sorted| - 1]]
  }

  function SortBySequence(events: Log): Log {
    if |events| == 0 then []
    else InsertBySequence(events[|events| - 1], SortBySequence(events[..|events| - 1]))
  }

  lemma LogOfAppend(events: Log, e: TraceEvent, traceId: string)
    ensures LogOf(events + [e], traceId) ==
            if e.traceId == traceId then LogOf(events, traceId) + [e] else LogOf(events, traceId)
  {
    assert (events + [e])[..|events|] == events;
  }

  // ---------------------------------------------------------------------------------
  // The abstract log of one trace
  // ---------------------------------------------------------------------------------

  function Front(log: Log): Log
    requires |log| > 0
  {
    log[..|log| - 1]
  }

  function Last(log: Log): TraceEvent
    requires |log| > 0
  {
    log[|log| - 1]
  }

  function FinalHash(log: Log): string {
    if |log| == 0 then GENESIS_HASH else Last(log).eventHash
  }

  // The event that append_event adds to a log.
  function NextEvent(sealer: Sealer, log: Log, traceId: string,
                     eventType: EventType, body: Body): TraceEvent {
    TraceEvent(traceId, |log|, eventType, body, FinalHash(log),
               Seal(sealer, FinalHash(log), body))
  }

  // The text that was hashed for an event.
  function Hashed(sealer: Sealer, e: TraceEvent): string {
    sealer.text(e.previousHash, e.body)
  }

  // The event names the given predecessor and carries the hash of that link.
  predicate Follows(sealer: Sealer, previous: string, e: TraceEvent) {
    e.previousHash == previous && e.eventHash == Seal(sealer, previous, e.body)
  }

  // What verify_chain accepts.
  predicate Linked(sealer: Sealer, log: Log) {
    |log| == 0 || (Linked(sealer, Front(log)) && Follows(sealer, FinalHash(Front(log)), Last(log)))
  }

  ghost predicate Sequenced(log: Log, traceId: string) {
    forall i :: 0 <= i < |log| ==> log[i].sequence == i && log[i].traceId == traceId
  }

  // A log as the store writes it: linked from genesis, numbered 0, 1, 2, ... without gap.
  ghost predicate WellKept(sealer: Sealer, log: Log, traceId: string) {
    Linked(sealer, log) && Sequenced(log, traceId)
  }

  lemma NextEventKeeps(sealer: Sealer, log: Log, traceId: string, eventType: EventType, body: Body)
    requires WellKept(sealer, log, traceId)
    ensures WellKept(sealer, log + [NextEvent(sealer, log, traceId, eventType, body)], traceId)
  {
    var e := NextEvent(sealer, log, traceId, eventType, body);
    assert Front(log + [e]) == log;
  }

  // Every prefix of an accepted list is accepted.
  lemma {:induction false} PrefixLinked(sealer: Sealer, log: Log, n: nat)
    requires n <= |log| && Linked(sealer, log)
    ensures Linked(sealer, log[..n])
  {
    if n == |log| {
      assert log[..n] == log;
    } else {
      PrefixLinked(sealer, Front(log), n);
      assert Front(log)[..n] == log[..n];
    }
  }

  // verify_chain: recompute the chain and stop at the first mismatch.
  method VerifyChain(sealer: Sealer, events: Log) returns (valid: bool)
    ensures valid <==> Linked(sealer, events)
  {
    var previousHash := GENESIS_HASH;
    var i := 0;
    while i < |events|
      invariant 0 <= i <= |events|
      invariant previousHash == FinalHash(events[..i])
      invariant Linked(sealer, events[..i])
    {
      assert Front(events[..i + 1]) == events[..i];
      PrefixIfLinked(sealer, events, i + 1);
      if events[i].previousHash != previousHash {
        return false;
      }
      var expected := Seal(sealer, previousHash, events[i].body);
      if expected != events[i].eventHash {
        return false;
      }
      previousHash := events[i].eventHash;
      i := i + 1;
    }
    assert events[..i] == events;
    return true;
  }

  lemma PrefixIfLinked(sealer: Sealer, log: Log, n: nat)
    requires n <= |log|
    ensures Linked(sealer, log) ==> Linked(sealer, log[..n])
  {
    if Linked(sealer, log) {
      PrefixLinked(sealer, log, n);
    }
  }

  // ---------------------------------------------------------------------------------
  // The database table
  // ---------------------------------------------------------------------------------

  ghost predicate TraceKept(sealer: Sealer, events: Log, t: string) {
    WellKept(sealer, LogOf(events, t), t)
  }

  // Every trace in the table is well kept.
  ghost predicate TableKept(sealer: Sealer, events: Log) {
    forall t: string :: TraceKept(sealer, events, t)
  }

  lemma AppendKeepsTable(sealer: Sealer, events: Log, traceId: string, eventType: EventType, body: Body)
    requires TableKept(sealer, events)
    ensures TableKept(sealer, events + [NextEvent(sealer, LogOf(events, traceId), traceId, eventType, body)])
  {
    var e := NextEvent(sealer, LogOf(events, traceId), traceId, eventType, body);
    forall t
      ensures TraceKept(sealer, events + [e], t)
    {
      LogOfAppend(events, e, t);
      assert TraceKept(sealer, events, t);
      NextEventKeeps(sealer, LogOf(events, t), t, eventType, body);
    }
  }

  class EventTable {
    const sealer: Sealer
    var events: Log

    ghost predicate Valid()
      reads this
    {
      TableKept(sealer, events)
    }

    constructor (sealer: Sealer)
      ensures Valid() && events == []
      ensures this.sealer == sealer
    {
      this.sealer := sealer;
      this.events := [];
    }

    // append_event: the latest row of the trace supplies the predecessor hash and the
    // next sequence number.
    method AppendEvent(traceId: string, eventType: EventType, body: Body) returns (e: TraceEvent)
      requires Valid()
      modifies this
      ensures Valid()
      ensures e == NextEvent(sealer, LogOf(old(events), traceId), traceId, eventType, body)
      ensures events == old(events) + [e]
      ensures LogOf(events, traceId) == LogOf(old(events), traceId) + [e]
      ensures forall t :: t != traceId ==> LogOf(events, t) == LogOf(old(events), t)
    {
      var previous := LatestEvent(events, traceId);
      var previousHash := if previous.Some? then previous.value.eventHash else GENESIS_HASH;
      var sequence := if previous.Some? then previous.value.sequence + 1 else 0;
      assert TraceKept(sealer, events, traceId);
      LatestIsLast(events, traceId);
      var eventHash := Seal(sealer, previousHash, body);
      e := TraceEvent(traceId, sequence, eventType, body, previousHash, eventHash);
      ghost var before := events;
      events := events + [e];
      AppendKeepsTable(sealer, before, traceId, eventType, body);
      forall t { LogOfAppend(before, e, t); }
    }

    // get_timeline: the rows of one trace by sequence, and whether they verify.
    method GetTimeline(traceId: string) returns (timeline: Timeline)
      ensures timeline.traceId == traceId
      ensures timeline.events == SortBySequence(LogOf(events, traceId))
      ensures timeline.chainValid <==> Linked(sealer, timeline.events)
      ensures Valid() ==> timeline.events == LogOf(events, traceId) && timeline.chainValid
    {
      var rows := SortBySequence(LogOf(events, traceId));
      var valid := VerifyChain(sealer, rows);
      timeline := Timeline(traceId, rows, valid);
      if TableKept(sealer, events) {
        assert TraceKept(sealer, events, traceId);
        SequencedIsSorted(LogOf(events, traceId), traceId);
      }
    }
  }

  // Under gap-free numbering the row with the highest sequence is the last one inserted.
  lemma {:induction false} LatestIsLast(events: Log, traceId: string)
    requires Sequenced(LogOf(events, traceId), traceId)
    ensures var log := LogOf(events, traceId);
            LatestEvent(events, traceId) == if |log| == 0 then None else Some(log[|log| - 1])
  {
    if |events| > 0 {
      var front := LogOf(events[..|events| - 1], traceId);
      var log := LogOf(events, traceId);
      assert forall i :: 0 <= i < |front| ==> front[i] == log[i];
      LatestIsLast(events[..|events| - 1], traceId);
    }
  }

  lemma FrontSequenced(log: Log, traceId: string)
    requires |log| > 0 && Sequenced(log, traceId)
    ensures Sequenced(Front(log), traceId)
    ensures |log| > 1 ==> Last(Front(log)).sequence == |log| - 2
    ensures Last(log).sequence == |log| - 1 && log == Front(log) + [Last(log)]
  {
    forall i | 0 <= i < |log| - 1
      ensures Front(log)[i] == log[i]
    {
    }
  }

  lemma {:induction false} SequencedIsSorted(log: Log, traceId: string)
    requires Sequenced(log, traceId)
    ensures SortBySequence(log) == log
  {
    if |log| > 0 {
      FrontSequenced(log, traceId);
      SequencedIsSorted(Front(log), traceId);
    }
  }

  // ---------------------------------------------------------------------------------
  // The shared table refines independent logs
  // ---------------------------------------------------------------------------------

  datatype Append = Append(traceId: string, eventType: EventType, body: Body)

  // The table after a list of appends to any traces in any order.
  function TableAfter(sealer: Sealer, appends: seq<Append>): Log {
    if |appends| == 0 then []
    else
      var table := TableAfter(sealer, appends[..|appends| - 1]);
      var a := appends[|appends| - 1];
      table + [NextEvent(sealer, LogOf(table, a.traceId), a.traceId, a.eventType, a.body)]
  }

  // The appends to one trace, in order.
  function AppendsTo(appends: seq<Append>, traceId: string): seq<Append> {
    if |appends| == 0 then []
    else
      var front := AppendsTo(appends[..|appends| - 1], traceId);
      var a := appends[|appends| - 1];
      if a.traceId == traceId then front + [a] else front
  }

  // The log holds these appends in order, numbered from 0 and linked from genesis, and is
  // what they alone would give.
  ghost predicate Mirrors(sealer: Sealer, log: Log, own: seq<Append>, traceId: string) {
    WellKept(sealer, log, traceId) && SameContents(log, own) && log == TableAfter(sealer, own)
  }

  predicate SameContents(log: Log, own: seq<Append>) {
    && |log| == |own|
    && forall i | 0 <= i < |own| :: log[i].body == own[i].body && log[i].eventType == own[i].eventType
  }

  lemma SameContentsGrow(log: Log, own: seq<Append>, e: TraceEvent, a: Append)
    requires SameContents(log, own) && e.body == a.body && e.eventType == a.eventType
    ensures SameContents(log + [e], own + [a])
  {
  }

  lemma SequencedIsSingle(log: Log, traceId: string)
    requires Sequenced(log, traceId)
    ensures LogOf(log, traceId) == log
  {
    SingleTrace(log, traceId);
  }

  lemma TableGrows(sealer: Sealer, appends: seq<Append>, a: Append)
    ensures var table := TableAfter(sealer, appends);
            TableAfter(sealer, appends + [a]) ==
            table + [NextEvent(sealer, LogOf(table, a.traceId), a.traceId, a.eventType, a.body)]
  {
    assert (appends + [a])[..|appends|] == appends;
  }

  lemma MirrorGrows(sealer: Sealer, log: Log, own: seq<Append>, a: Append)
    requires Mirrors(sealer, log, own, a.traceId)
    ensures Mirrors(sealer, log + [NextEvent(sealer, log, a.traceId, a.eventType, a.body)], own + [a], a.traceId)
  {
    var e := NextEvent(sealer, log, a.traceId, a.eventType, a.body);
    NextEventKeeps(sealer, log, a.traceId, a.eventType, a.body);
    SequencedIsSingle(log, a.traceId);
    TableGrows(sealer, own, a);
    SameContentsGrow(log, own, e, a);
  }

  // Whatever the interleaving, a trace holds exactly its own appends, untouched by appends
  // to other traces.
  lemma {:induction false} InterleavingsAreInvisible(sealer: Sealer, appends: seq<Append>, traceId: string)
    ensures Mirrors(sealer, LogOf(TableAfter(sealer, appends), traceId), AppendsTo(appends, traceId), traceId)
  {
    if |appends| > 0 {
      var front := appends[..|appends| - 1];
      var a := appends[|appends| - 1];
      var table := TableAfter(sealer, front);
      InterleavingsAreInvisible(sealer, front, traceId);
      LogOfAppend(table, NextEvent(sealer, LogOf(table, a.traceId), a.traceId, a.eventType, a.body), traceId);
      if a.traceId == traceId {
        MirrorGrows(sealer, LogOf(table, traceId), AppendsTo(front, traceId), a);
      }
    }
  }

  // A table that holds one trace only is that trace's log.
  lemma {:induction false} SingleTrace(table: Log, traceId: string)
    requires forall i :: 0 <= i < |table| ==> table[i].traceId == traceId
    ensures LogOf(table, traceId) == table
  {
    if |table| > 0 {
      SingleTrace(table[..|table| - 1], traceId);
    }
  }

  // ---------------------------------------------------------------------------------
  // Tamper evidence
  // ---------------------------------------------------------------------------------

  ghost predicate WellFormedBodies(json: Body -> Value, log: Log) {
    forall i :: 0 <= i < |log| ==> BodyWellFormed(json, log[i].body)
  }

  // Same length, and the same bodies position by position.
  ghost predicate SameHistory(json: Body -> Value, a: Log, b: Log) {
    && |a| == |b|
    && forall i :: 0 <= i < |a| ==> SameBody(json, a[i].body, b[i].body)
  }

  // Two events, k places before the end of each list, whose hashed texts collide.
  predicate CollisionFromEnd(sealer: Sealer, a: Log, b: Log, k: nat) {
    && k < |a| && k < |b|
    && Collision(sealer.sha, Hashed(sealer, a[|a| - 1 - k]), Hashed(sealer, b[|b| - 1 - k]))
  }

  // An event whose hashed text is a preimage of the genesis value.
  predicate GenesisPreimage(sealer: Sealer, log: Log, i: nat) {
    i < |log| && sealer.sha(Hashed(sealer, log[i])) == GENESIS_HASH
  }

  ghost predicate Broken(sealer: Sealer, a: Log, b: Log) {
    || (exists k: nat :: CollisionFromEnd(sealer, a, b, k))
    || (exists i: nat :: GenesisPreimage(sealer, a, i))
    || (exists i: nat :: GenesisPreimage(sealer, b, i))
  }

  lemma HashedSplits(sealer: Sealer, json: Body -> Value, x: TraceEvent, y: TraceEvent)
    requires Splits(sealer, json) && BodyWellFormed(json, x.body) && BodyWellFormed(json, y.body)
    ensures Hashed(sealer, x) == Hashed(sealer, y) <==>
            x.previousHash == y.previousHash && SameBody(json, x.body, y.body)
  {
  }

  lemma SameHistoryExtends(json: Body -> Value, a: Log, b: Log)
    requires |a| > 0 && |b| > 0
    requires SameHistory(json, Front(a), Front(b)) && SameBody(json, Last(a).body, Last(b).body)
    ensures SameHistory(json, a, b)
  {
    forall i | 0 <= i < |a|
      ensures SameBody(json, a[i].body, b[i].body)
    {
      if i < |a| - 1 {
        assert Front(a)[i] == a[i] && Front(b)[i] == b[i];
      }
    }
  }

  // The last hash of a verified list pins the whole history behind it. Otherwise the two
  // lists themselves exhibit a collision, at the same distance from their ends, or an
  // event that hashes to the genesis value.
  lemma {:induction false} LastHashPinsHistory(sealer: Sealer, json: Body -> Value, a: Log, b: Log)
    requires Splits(sealer, json)
    requires Linked(sealer, a) && Linked(sealer, b)
    requires WellFormedBodies(json, a) && WellFormedBodies(json, b)
    requires FinalHash(a) == FinalHash(b)
    ensures SameHistory(json, a, b) || Broken(sealer, a, b)
  {
    if |a| > 0 && |b| > 0 {
      HashedSplits(sealer, json, Last(a), Last(b));
      if Hashed(sealer, Last(a)) != Hashed(sealer, Last(b)) {
        assert CollisionFromEnd(sealer, a, b, 0);
      } else {
        LastHashPinsHistory(sealer, json, Front(a), Front(b));
        if SameHistory(json, Front(a), Front(b)) {
          SameHistoryExtends(json, a, b);
        } else {
          BrokenExtends(sealer, a, b);
        }
      }
    } else if |a| > 0 {
      assert GenesisPreimage(sealer, a, |a| - 1);
    } else if |b| > 0 {
      assert GenesisPreimage(sealer, b, |b| - 1);
    }
  }

  lemma BrokenExtends(sealer: Sealer, a: Log, b: Log)
    requires |a| > 0 && |b| > 0
    requires Broken(sealer, Front(a), Front(b))
    ensures Broken(sealer, a, b)
  {
    var a', b' := Front(a), Front(b);
    if k: nat :| CollisionFromEnd(sealer, a', b', k) {
      assert CollisionFromEnd(sealer, a, b, k + 1);
    } else if i: nat :| GenesisPreimage(sealer, a', i) {
      assert GenesisPreimage(sealer, a, i);
    } else {
      var i: nat :| GenesisPreimage(sealer, b', i);
      assert GenesisPreimage(sealer, b, i);
    }
  }

  // Overwriting one stored body leaves the chain verifiable exactly when the new body has
  // the same content or its text collides with the old one.
  lemma OverwriteIsDetected(sealer: Sealer, json: Body -> Value, log: Log, i: nat, body: Body)
    requires Splits(sealer, json)
    requires Linked(sealer, log) && i < |log|
    requires BodyWellFormed(json, log[i].body) && BodyWellFormed(json, body)
    ensures var forged := log[i].(body := body);
            Linked(sealer, log[i := forged]) <==>
            SameBody(json, log[i].body, body) ||
            Collision(sealer.sha, Hashed(sealer, log[i]), Hashed(sealer, forged))
  {
    var forged := log[i].(body := body);
    HashedSplits(sealer, json, log[i], forged);
    OverwriteKeepsLinks(sealer, log, i, forged);
  }

  lemma {:induction false} OverwriteKeepsLinks(sealer: Sealer, log: Log, i: nat, forged: TraceEvent)
    requires Linked(sealer, log) && i < |log|
    requires forged.previousHash == log[i].previousHash && forged.eventHash == log[i].eventHash
    ensures Linked(sealer, log[i := forged]) <==>
            sealer.sha(Hashed(sealer, log[i])) == sealer.sha(Hashed(sealer, forged))
  {
    var tampered := log[i := forged];
    if i == |log| - 1 {
      assert Front(tampered) == Front(log);
    } else {
      assert Front(tampered) == Front(log)[i := forged];
      OverwriteKeepsLinks(sealer, Front(log), i, forged);
    }
  }
}
