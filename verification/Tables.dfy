// The database: flat tables that all requests share, and the rows of one request in them.
module Tables {
  import opened Wrappers
  import opened Domain
  import opened PolicyEngine
  import opened Evidence
  import opened Receipts
  import opened Lifecycle
  import opened System
  import TraceStore

  // A row with its foreign key.
  datatype Row<T> = Row(requestId: Id, row: T)

  datatype IncidentRow = IncidentRow(requestId: Id, traceId: string, incident: Incident)

  // select ... where request_id = ?, in insertion order
  function RowsOf<T>(rows: seq<Row<T>>, id: Id): seq<T> {
    if |rows| == 0 then []
    else
      var front := RowsOf(rows[..|rows| - 1], id);
      var last := rows[|rows| - 1];
      if last.requestId == id then front + [last.row] else front
  }

  lemma RowsOfInsert<T>(rows: seq<Row<T>>, r: Row<T>)
    ensures forall id :: RowsOf(rows + [r], id) ==
                         if r.requestId == id then RowsOf(rows, id) + [r.row] else RowsOf(rows, id)
  {
    assert (rows + [r])[..|rows|] == rows;
  }

  function IncidentsOf(incidents: map<string, IncidentRow>, id: Id): map<string, Incident> {
    map k | k in incidents && incidents[k].requestId == id :: incidents[k].incident
  }

  lemma IncidentInsert(incidents: map<string, IncidentRow>, k: string, r: IncidentRow, id: Id)
    requires k in incidents ==> incidents[k].requestId == r.requestId
    ensures IncidentsOf(incidents[k := r], id) ==
            if r.requestId == id then IncidentsOf(incidents, id)[k := r.incident] else IncidentsOf(incidents, id)
  {
  }

  // The endpoint under which execute stores its replies.
  function Endpoint(id: Id): string {
    "execute:" + id
  }

  lemma EndpointsDiffer(a: Id, b: Id)
    ensures Endpoint(a) == Endpoint(b) <==> a == b
  {
    assert Endpoint(a)[8..] == a && Endpoint(b)[8..] == b;
  }

  function RepliesOf(records: map<(string, string), Receipt>, id: Id): map<string, Receipt> {
    map k | k in records && k.1 == Endpoint(id) :: k.0 := records[k]
  }

  lemma ReplyInsert(records: map<(string, string), Receipt>, key: string, owner: Id, receipt: Receipt, id: Id)
    ensures RepliesOf(records[(key, Endpoint(owner)) := receipt], id) ==
            if owner == id then RepliesOf(records, id)[key := receipt] else RepliesOf(records, id)
  {
    EndpointsDiffer(owner, id);
  }

  datatype Tables = Tables(
    requests: map<Id, Request>,
    plans: map<Id, PlanRow>,
    evaluations: seq<Row<Evaluation>>,
    approvals: seq<Row<Approval>>,
    toolCalls: seq<Row<ToolCall>>,
    executions: seq<Row<Execution>>,
    receipts: seq<Row<Receipt>>,
    incidents: map<string, IncidentRow>,
    idempotency: map<(string, string), Receipt>)

  type Cases = map<Id, Case>

  function EvaluationsIn(c: Case): seq<Evaluation> { c.evaluations }

  function ApprovalsIn(c: Case): seq<Approval> { c.approvals }

  function ToolCallsIn(c: Case): seq<ToolCall> { c.toolCalls }

  function ExecutionsIn(c: Case): seq<Execution> { c.executions }

  function ReceiptsIn(c: Case): seq<Receipt> { c.receipts }

  // --- The rows of every request are those in the tables ------------------------------

  // A table has rows for requests that exist, and for no others.
  function ColumnAt<T>(cases: Cases, column: Case -> seq<T>, id: Id): seq<T> {
    if id in cases then column(cases[id]) else []
  }

  ghost predicate RowsHold<T>(rows: seq<Row<T>>, cases: Cases, column: Case -> seq<T>) {
    forall id :: RowsOf(rows, id) == ColumnAt(cases, column, id)
  }

  ghost predicate RequestsHold(requests: map<Id, Request>, cases: Cases) {
    && cases.Keys == requests.Keys
    && forall id :: id in cases ==> cases[id].request == requests[id]
  }

  function PlanAt(cases: Cases, id: Id): Option<PlanRow> {
    if id in cases then cases[id].plan else None
  }

  ghost predicate PlansHold(plans: map<Id, PlanRow>, cases: Cases) {
    forall id :: Find(plans, id) == PlanAt(cases, id)
  }

  function IncidentsAt(cases: Cases, id: Id): map<string, Incident> {
    if id in cases then cases[id].incidents else map[]
  }

  ghost predicate IncidentsHold(incidents: map<string, IncidentRow>, cases: Cases) {
    forall id :: IncidentsOf(incidents, id) == IncidentsAt(cases, id)
  }

  function RepliesAt(cases: Cases, id: Id): map<string, Receipt> {
    if id in cases then cases[id].replies else map[]
  }

  ghost predicate RepliesHold(records: map<(string, string), Receipt>, cases: Cases) {
    forall id :: RepliesOf(records, id) == RepliesAt(cases, id)
  }

  ghost predicate HasTrace(cases: Cases, traceId: string) {
    exists id :: id in cases && cases[id].request.traceId == traceId
  }

  ghost predicate TracesHold(events: TraceStore.Log, cases: Cases) {
    && (forall id :: id in cases ==> cases[id].trace == TraceStore.LogOf(events, cases[id].request.traceId))
    && (forall t :: TraceStore.LogOf(events, t) != [] ==> HasTrace(cases, t))
  }

  // No two requests share a trace, and incidents name their request's trace.
  ghost predicate OwnTraces(incidents: map<string, IncidentRow>, cases: Cases) {
    && (forall a, b :: a in cases && b in cases && cases[a].request.traceId == cases[b].request.traceId ==> a == b)
    && (forall k :: k in incidents ==>
         incidents[k].requestId in cases && incidents[k].traceId == cases[incidents[k].requestId].request.traceId)
  }

  datatype Table =
    | RequestTable | PlanTable | EvaluationTable | ApprovalTable | ToolCallTable | ExecutionTable | ReceiptTable
    | IncidentTable | IdempotencyTable | EventTable | TraceOwners

  ghost predicate Holds(k: Table, t: Tables, events: TraceStore.Log, cases: Cases) {
    match k
    case RequestTable => RequestsHold(t.requests, cases)
    case PlanTable => PlansHold(t.plans, cases)
    case EvaluationTable => RowsHold(t.evaluations, cases, EvaluationsIn)
    case ApprovalTable => RowsHold(t.approvals, cases, ApprovalsIn)
    case ToolCallTable => RowsHold(t.toolCalls, cases, ToolCallsIn)
    case ExecutionTable => RowsHold(t.executions, cases, ExecutionsIn)
    case ReceiptTable => RowsHold(t.receipts, cases, ReceiptsIn)
    case IncidentTable => IncidentsHold(t.incidents, cases)
    case IdempotencyTable => RepliesHold(t.idempotency, cases)
    case EventTable => TracesHold(events, cases)
    case TraceOwners => OwnTraces(t.incidents, cases)
  }

  // Every table holds exactly the rows of the requests.
  ghost predicate Hold(t: Tables, events: TraceStore.Log, cases: Cases) {
    forall k: Table :: Holds(k, t, events, cases)
  }

  lemma RowAdded<T>(rows: seq<Row<T>>, cases: Cases, column: Case -> seq<T>, id: Id, c: Case, row: T)
    requires RowsHold(rows, cases, column) && id in cases && column(c) == column(cases[id]) + [row]
    ensures RowsHold(rows + [Row(id, row)], cases[id := c], column)
  {
    RowsOfInsert(rows, Row(id, row));
  }

  // Whether a table is blind to the difference between two versions of one request's rows.
  predicate Blind(k: Table, c: Case, d: Case) {
    match k
    case RequestTable => d.request == c.request
    case PlanTable => d.plan == c.plan
    case EvaluationTable => d.evaluations == c.evaluations
    case ApprovalTable => d.approvals == c.approvals
    case ToolCallTable => d.toolCalls == c.toolCalls
    case ExecutionTable => d.executions == c.executions
    case ReceiptTable => d.receipts == c.receipts
    case IncidentTable => d.incidents == c.incidents
    case IdempotencyTable => d.replies == c.replies
    case EventTable => d.trace == c.trace && d.request.traceId == c.request.traceId
    case TraceOwners => d.request.traceId == c.request.traceId
  }

  lemma BlindMapsKept(t: Tables, cases: Cases, id: Id, c: Case)
    requires id in cases
    ensures PlansHold(t.plans, cases) && c.plan == cases[id].plan ==> PlansHold(t.plans, cases[id := c])
    ensures IncidentsHold(t.incidents, cases) && c.incidents == cases[id].incidents ==>
            IncidentsHold(t.incidents, cases[id := c])
    ensures RepliesHold(t.idempotency, cases) && c.replies == cases[id].replies ==>
            RepliesHold(t.idempotency, cases[id := c])
  {
    var cases' := cases[id := c];
    assert c.plan == cases[id].plan ==> forall other :: PlanAt(cases', other) == PlanAt(cases, other);
    assert c.incidents == cases[id].incidents ==>
           forall other :: IncidentsAt(cases', other) == IncidentsAt(cases, other);
    assert c.replies == cases[id].replies ==> forall other :: RepliesAt(cases', other) == RepliesAt(cases, other);
  }

  lemma BlindTracesKept(events: TraceStore.Log, cases: Cases, id: Id, c: Case)
    requires TracesHold(events, cases) && id in cases
    requires c.trace == cases[id].trace && c.request.traceId == cases[id].request.traceId
    ensures TracesHold(events, cases[id := c])
  {
    forall t | TraceStore.LogOf(events, t) != []
      ensures HasTrace(cases[id := c], t)
    {
      TraceRemains(cases, id, c, t);
    }
  }

  lemma BlindTableKept(k: Table, t: Tables, events: TraceStore.Log, cases: Cases, id: Id, c: Case)
    requires Holds(k, t, events, cases) && id in cases && Blind(k, cases[id], c)
    ensures Holds(k, t, events, cases[id := c])
  {
    match k
    case EventTable => BlindTracesKept(events, cases, id, c);
    case PlanTable => BlindMapsKept(t, cases, id, c);
    case IncidentTable => BlindMapsKept(t, cases, id, c);
    case IdempotencyTable => BlindMapsKept(t, cases, id, c);
    case _ =>
  }

  // The contents of all tables but one.
  predicate SameBut(k: Table, t: Tables, t': Tables, events: TraceStore.Log, events': TraceStore.Log) {
    && (k.RequestTable? || t'.requests == t.requests)
    && (k.PlanTable? || t'.plans == t.plans)
    && (k.EvaluationTable? || t'.evaluations == t.evaluations)
    && (k.ApprovalTable? || t'.approvals == t.approvals)
    && (k.ToolCallTable? || t'.toolCalls == t.toolCalls)
    && (k.ExecutionTable? || t'.executions == t.executions)
    && (k.ReceiptTable? || t'.receipts == t.receipts)
    && (k.IncidentTable? || t'.incidents == t.incidents)
    && (k.IdempotencyTable? || t'.idempotency == t.idempotency)
    && (k.EventTable? || events' == events)
  }

  // A statement that changes one table, and one request's rows as that table sees them.
  lemma OneTableChanges(k: Table, t: Tables, t': Tables, events: TraceStore.Log, events': TraceStore.Log,
                        cases: Cases, id: Id, c: Case)
    requires Hold(t, events, cases) && id in cases && SameBut(k, t, t', events, events')
    requires forall other: Table :: other != k && !(k.IncidentTable? && other.TraceOwners?) ==>
             Blind(other, cases[id], c)
    requires Holds(k, t', events', cases[id := c])
    requires k.IncidentTable? ==> Holds(TraceOwners, t', events', cases[id := c])
    ensures Hold(t', events', cases[id := c])
  {
    var cases' := cases[id := c];
    forall other: Table
      ensures Holds(other, t', events', cases')
    {
      if other != k && !(k.IncidentTable? && other.TraceOwners?) {
        assert Holds(other, t, events, cases);
        BlindTableKept(other, t, events, cases, id, c);
      }
    }
  }

  // Grants and gateway runs are in no table.
  lemma HistoryChanges(t: Tables, events: TraceStore.Log, cases: Cases, id: Id, grants: seq<Grant>,
                       runs: seq<GatewayRun>)
    requires Hold(t, events, cases) && id in cases
    ensures Hold(t, events, cases[id := cases[id].(grants := grants, runs := runs)])
  {
    var c := cases[id].(grants := grants, runs := runs);
    var cases' := cases[id := c];
    forall k: Table
      ensures Holds(k, t, events, cases')
    {
      assert Holds(k, t, events, cases);
      BlindTableKept(k, t, events, cases, id, c);
    }
  }

  // An event appended to a request's trace is in no other request's trace.
  lemma EventAppended(t: Tables, events: TraceStore.Log, cases: Cases, id: Id, e: TraceStore.TraceEvent)
    requires Hold(t, events, cases) && id in cases && e.traceId == cases[id].request.traceId
    ensures Hold(t, events + [e], cases[id := cases[id].(trace := cases[id].trace + [e])])
  {
    var c := cases[id].(trace := cases[id].trace + [e]);
    assert Holds(EventTable, t, events, cases) && Holds(TraceOwners, t, events, cases);
    TracesStillHold(t.incidents, events, cases, id, e, c);
    OneTableChanges(EventTable, t, t, events, events + [e], cases, id, c);
  }

  lemma OtherTraceUntouched(incidents: map<string, IncidentRow>, events: TraceStore.Log, cases: Cases, id: Id,
                            e: TraceStore.TraceEvent, other: Id)
    requires TracesHold(events, cases) && OwnTraces(incidents, cases) && id in cases && other in cases
    requires e.traceId == cases[id].request.traceId
    ensures TraceStore.LogOf(events + [e], cases[other].request.traceId) ==
            if other == id then cases[id].trace + [e] else cases[other].trace
  {
    TraceStore.LogOfAppend(events, e, cases[other].request.traceId);
  }

  lemma TracesStillHold(incidents: map<string, IncidentRow>, events: TraceStore.Log, cases: Cases, id: Id,
                        e: TraceStore.TraceEvent, c: Case)
    requires TracesHold(events, cases) && OwnTraces(incidents, cases) && id in cases
    requires e.traceId == cases[id].request.traceId && c == cases[id].(trace := cases[id].trace + [e])
    ensures TracesHold(events + [e], cases[id := c])
  {
    var events', cases' := events + [e], cases[id := c];
    forall other | other in cases'
      ensures cases'[other].trace == TraceStore.LogOf(events', cases'[other].request.traceId)
    {
      OtherTraceUntouched(incidents, events, cases, id, e, other);
    }
    forall t | TraceStore.LogOf(events', t) != []
      ensures HasTrace(cases', t)
    {
      TraceStore.LogOfAppend(events, e, t);
      TraceRemains(cases, id, c, t);
    }
  }

  lemma TraceRemains(cases: Cases, id: Id, c: Case, t: string)
    requires id in cases && c.request.traceId == cases[id].request.traceId
    ensures HasTrace(cases, t) || t == c.request.traceId ==> HasTrace(cases[id := c], t)
  {
    var cases' := cases[id := c];
    if t == c.request.traceId {
      assert id in cases' && cases'[id].request.traceId == t;
    } else if other :| other in cases && cases[other].request.traceId == t {
      assert other in cases' && cases'[other].request.traceId == t;
    }
  }

  lemma IncidentStored(t: Tables, events: TraceStore.Log, cases: Cases, id: Id, incidentId: string, incident: Incident)
    requires Hold(t, events, cases) && id in cases
    requires incidentId in t.incidents ==> t.incidents[incidentId].requestId == id
    ensures Hold(t.(incidents := t.incidents[incidentId := IncidentRow(id, cases[id].request.traceId, incident)]),
                 events, cases[id := cases[id].(incidents := cases[id].incidents[incidentId := incident])])
  {
    var c := cases[id].(incidents := cases[id].incidents[incidentId := incident]);
    var r := IncidentRow(id, cases[id].request.traceId, incident);
    assert Holds(IncidentTable, t, events, cases) && Holds(TraceOwners, t, events, cases);
    IncidentsStillHold(t.incidents, cases, id, incidentId, r, c);
    OneTableChanges(IncidentTable, t, t.(incidents := t.incidents[incidentId := r]), events, events, cases, id, c);
  }

  lemma PlanStillHolds(plans: map<Id, PlanRow>, cases: Cases, id: Id, row: PlanRow, c: Case)
    requires PlansHold(plans, cases) && id in cases && c.plan == Some(row)
    ensures PlansHold(plans[id := row], cases[id := c])
  {
    var plans', cases' := plans[id := row], cases[id := c];
    forall other
      ensures Find(plans', other) == PlanAt(cases', other)
    {
      assert Find(plans, other) == PlanAt(cases, other);
    }
  }

  lemma IncidentsStillHold(incidents: map<string, IncidentRow>, cases: Cases, id: Id, k: string, r: IncidentRow,
                           c: Case)
    requires IncidentsHold(incidents, cases) && OwnTraces(incidents, cases) && id in cases
    requires r.requestId == id && r.traceId == cases[id].request.traceId && c.request == cases[id].request
    requires k in incidents ==> incidents[k].requestId == id
    requires c.incidents == cases[id].incidents[k := r.incident]
    ensures IncidentsHold(incidents[k := r], cases[id := c]) && OwnTraces(incidents[k := r], cases[id := c])
  {
    var incidents', cases' := incidents[k := r], cases[id := c];
    forall other
      ensures IncidentsOf(incidents', other) == IncidentsAt(cases', other)
    {
      IncidentInsert(incidents, k, r, other);
      assert IncidentsOf(incidents, other) == IncidentsAt(cases, other);
    }
  }

  lemma ReplyStored(t: Tables, events: TraceStore.Log, cases: Cases, id: Id, key: string, receipt: Receipt)
    requires Hold(t, events, cases) && id in cases
    ensures Hold(t.(idempotency := t.idempotency[(key, Endpoint(id)) := receipt]), events,
                 cases[id := cases[id].(replies := cases[id].replies[key := receipt])])
  {
    var c := cases[id].(replies := cases[id].replies[key := receipt]);
    assert Holds(IdempotencyTable, t, events, cases);
    RepliesStillHold(t.idempotency, cases, id, key, receipt, c);
    OneTableChanges(IdempotencyTable, t, t.(idempotency := t.idempotency[(key, Endpoint(id)) := receipt]),
                    events, events, cases, id, c);
  }

  lemma RepliesStillHold(records: map<(string, string), Receipt>, cases: Cases, id: Id, key: string, receipt: Receipt,
                         c: Case)
    requires RepliesHold(records, cases) && id in cases && c.replies == cases[id].replies[key := receipt]
    ensures RepliesHold(records[(key, Endpoint(id)) := receipt], cases[id := c])
  {
    var records', cases' := records[(key, Endpoint(id)) := receipt], cases[id := c];
    forall other
      ensures RepliesOf(records', other) == RepliesAt(cases', other)
    {
      ReplyInsert(records, key, id, receipt, other);
      assert RepliesOf(records, other) == RepliesAt(cases, other);
    }
  }

  // Identifiers drawn at random have not been used.
  predicate Unused(cases: Cases, id: Id, traceId: string) {
    id !in cases && forall other | other in cases :: cases[other].request.traceId != traceId
  }

  // A column that is empty for the new request.
  lemma EmptyColumn<T>(rows: seq<Row<T>>, cases: Cases, column: Case -> seq<T>, id: Id, c: Case)
    requires RowsHold(rows, cases, column) && id !in cases && column(c) == []
    ensures RowsHold(rows, cases[id := c], column)
  {
  }

  lemma OpenedOwnTraces(incidents: map<string, IncidentRow>, cases: Cases, id: Id, c: Case)
    requires OwnTraces(incidents, cases) && Unused(cases, id, c.request.traceId)
    ensures OwnTraces(incidents, cases[id := c])
  {
  }

  lemma OpenedMaps(t: Tables, cases: Cases, id: Id, c: Case)
    requires id !in cases && c.plan == None && c.incidents == map[] && c.replies == map[]
    ensures PlansHold(t.plans, cases) ==> PlansHold(t.plans, cases[id := c])
    ensures IncidentsHold(t.incidents, cases) ==> IncidentsHold(t.incidents, cases[id := c])
    ensures RepliesHold(t.idempotency, cases) ==> RepliesHold(t.idempotency, cases[id := c])
  {
  }

  lemma OpenedTrace(events: TraceStore.Log, cases: Cases, id: Id, c: Case)
    requires TracesHold(events, cases) && Unused(cases, id, c.request.traceId) && c.trace == []
    ensures TracesHold(events, cases[id := c])
  {
    var cases' := cases[id := c];
    assert TraceStore.LogOf(events, c.request.traceId) == [];
    forall t | TraceStore.LogOf(events, t) != []
      ensures HasTrace(cases', t)
    {
      var other :| other in cases && cases[other].request.traceId == t;
      assert other in cases' && cases'[other].request.traceId == t;
    }
  }

  lemma OpenedTable(k: Table, t: Tables, events: TraceStore.Log, cases: Cases, id: Id, request: Request)
    requires Holds(k, t, events, cases) && Holds(RequestTable, t, events, cases)
    requires Unused(cases, id, request.traceId)
    ensures Holds(k, t.(requests := t.requests[id := request.(state := Draft)]), events, cases[id := OpenCase(request)])
  {
    var c := OpenCase(request);
    match k
    case EvaluationTable => EmptyColumn(t.evaluations, cases, EvaluationsIn, id, c);
    case ApprovalTable => EmptyColumn(t.approvals, cases, ApprovalsIn, id, c);
    case ToolCallTable => EmptyColumn(t.toolCalls, cases, ToolCallsIn, id, c);
    case ExecutionTable => EmptyColumn(t.executions, cases, ExecutionsIn, id, c);
    case ReceiptTable => EmptyColumn(t.receipts, cases, ReceiptsIn, id, c);
    case TraceOwners => OpenedOwnTraces(t.incidents, cases, id, c);
    case EventTable => OpenedTrace(events, cases, id, c);
    case RequestTable =>
    case _ => OpenedMaps(t, cases, id, c);
  }

  lemma RequestOpened(t: Tables, events: TraceStore.Log, cases: Cases, id: Id, request: Request)
    requires Hold(t, events, cases) && Unused(cases, id, request.traceId)
    ensures Hold(t.(requests := t.requests[id := request.(state := Draft)]), events, cases[id := OpenCase(request)])
  {
    var t', cases' := t.(requests := t.requests[id := request.(state := Draft)]), cases[id := OpenCase(request)];
    forall k: Table
      ensures Holds(k, t', events, cases')
    {
      assert Holds(k, t, events, cases) && Holds(RequestTable, t, events, cases);
      OpenedTable(k, t, events, cases, id, request);
    }
  }

  // The last of several updates of one entry counts.
  lemma Overwriting(id: Id)
    ensures forall m: Cases, a: Case, b: Case {:trigger m[id := a][id := b]} :: m[id := a][id := b] == m[id := b]
  {
  }

  class Database {
    const world: World
    const trace: TraceStore.EventTable
    var requests: map<Id, Request>
    var plans: map<Id, PlanRow>
    var evaluations: seq<Row<Evaluation>>
    var approvals: seq<Row<Approval>>
    var toolCalls: seq<Row<ToolCall>>
    var executions: seq<Row<Execution>>
    var receipts: seq<Row<Receipt>>
    var incidents: map<string, IncidentRow>
    var idempotency: map<(string, string), Receipt>
    var policies: map<PolicyKey, Policy>
    var principals: map<string, Principal>
    var agents: map<string, Agent>

    // The rows of every request, and those of the request at hand after every commit.
    ghost var cases: Cases
    ghost var commits: seq<Case>

    ghost function Contents(): Tables
      reads this
    {
      Tables(requests, plans, evaluations, approvals, toolCalls, executions, receipts, incidents, idempotency)
    }

    ghost predicate Valid()
      reads this, trace
    {
      && trace.Valid() && trace.sealer == world.sealer
      && Hold(Contents(), trace.events, cases)
    }

    // The abstract database.
    ghost function State(): Db
      reads this
    {
      Db(cases, policies, principals, agents)
    }

    constructor (world: World, policies: map<PolicyKey, Policy>, principals: map<string, Principal>,
                 agents: map<string, Agent>)
      ensures Valid() && fresh(trace)
      ensures this.world == world && commits == []
      ensures State() == Db(map[], policies, principals, agents)
    {
      this.world := world;
      this.trace := new TraceStore.EventTable(world.sealer);
      requests, plans, evaluations, approvals := map[], map[], [], [];
      toolCalls, executions, receipts := [], [], [];
      incidents, idempotency := map[], map[];
      this.policies, this.principals, this.agents := policies, principals, agents;
      cases, commits := map[], [];
    }

    // --- One statement each: the rows of one request change, nothing else does ----------

    // db.commit()
    ghost method Commit(id: Id)
      requires id in cases
      modifies this`commits
      ensures commits == old(commits) + [cases[id]]
    {
      commits := commits + [cases[id]];
    }

    method SetState(id: Id, s: RequestState)
      requires Valid() && id in cases
      modifies this`requests, this`cases
      ensures Valid()
      ensures cases == old(cases)[id := WithState(old(cases[id]), s)]
    {
      ghost var t, c := Contents(), WithState(cases[id], s);
      assert Holds(RequestTable, t, trace.events, cases);
      ghost var t' := t.(requests := requests[id := requests[id].(state := s)]);
      OneTableChanges(RequestTable, t, t', trace.events, trace.events, cases, id, c);
      requests := requests[id := requests[id].(state := s)];
      cases := cases[id := c];
    }

    method PutPlan(id: Id, row: PlanRow)
      requires Valid() && id in cases
      modifies this`plans, this`cases
      ensures Valid()
      ensures cases == old(cases)[id := old(cases[id]).(plan := Some(row))]
    {
      ghost var t, c := Contents(), cases[id].(plan := Some(row));
      assert Holds(PlanTable, t, trace.events, cases);
      PlanStillHolds(plans, cases, id, row, c);
      OneTableChanges(PlanTable, t, t.(plans := plans[id := row]), trace.events, trace.events, cases, id, c);
      plans := plans[id := row];
      cases := cases[id := c];
    }

    method AddEvaluation(id: Id, row: Evaluation)
      requires Valid() && id in cases
      modifies this`evaluations, this`cases
      ensures Valid()
      ensures cases == old(cases)[id := old(cases[id]).(evaluations := old(cases[id]).evaluations + [row])]
    {
      ghost var t, c := Contents(), cases[id].(evaluations := cases[id].evaluations + [row]);
      assert Holds(EvaluationTable, t, trace.events, cases);
      RowAdded(evaluations, cases, EvaluationsIn, id, c, row);
      OneTableChanges(EvaluationTable, t, t.(evaluations := evaluations + [Row(id, row)]), trace.events, trace.events,
                      cases, id, c);
      evaluations := evaluations + [Row(id, row)];
      cases := cases[id := c];
    }

    method AddApproval(id: Id, row: Approval)
      requires Valid() && id in cases
      modifies this`approvals, this`cases
      ensures Valid()
      ensures cases == old(cases)[id := old(cases[id]).(approvals := old(cases[id]).approvals + [row])]
    {
      ghost var t, c := Contents(), cases[id].(approvals := cases[id].approvals + [row]);
      assert Holds(ApprovalTable, t, trace.events, cases);
      RowAdded(approvals, cases, ApprovalsIn, id, c, row);
      OneTableChanges(ApprovalTable, t, t.(approvals := approvals + [Row(id, row)]), trace.events, trace.events,
                      cases, id, c);
      approvals := approvals + [Row(id, row)];
      cases := cases[id := c];
    }

    method AddToolCall(id: Id, row: ToolCall)
      requires Valid() && id in cases
      modifies this`toolCalls, this`cases
      ensures Valid()
      ensures cases == old(cases)[id := old(cases[id]).(toolCalls := old(cases[id]).toolCalls + [row])]
    {
      ghost var t, c := Contents(), cases[id].(toolCalls := cases[id].toolCalls + [row]);
      assert Holds(ToolCallTable, t, trace.events, cases);
      RowAdded(toolCalls, cases, ToolCallsIn, id, c, row);
      OneTableChanges(ToolCallTable, t, t.(toolCalls := toolCalls + [Row(id, row)]), trace.events, trace.events,
                      cases, id, c);
      toolCalls := toolCalls + [Row(id, row)];
      cases := cases[id := c];
    }

    method AddExecution(id: Id, row: Execution)
      requires Valid() && id in cases
      modifies this`executions, this`cases
      ensures Valid()
      ensures cases == old(cases)[id := old(cases[id]).(executions := old(cases[id]).executions + [row])]
    {
      ghost var t, c := Contents(), cases[id].(executions := cases[id].executions + [row]);
      assert Holds(ExecutionTable, t, trace.events, cases);
      RowAdded(executions, cases, ExecutionsIn, id, c, row);
      OneTableChanges(ExecutionTable, t, t.(executions := executions + [Row(id, row)]), trace.events, trace.events,
                      cases, id, c);
      executions := executions + [Row(id, row)];
      cases := cases[id := c];
    }

    method AddReceipt(id: Id, row: Receipt)
      requires Valid() && id in cases
      modifies this`receipts, this`cases
      ensures Valid()
      ensures cases == old(cases)[id := old(cases[id]).(receipts := old(cases[id]).receipts + [row])]
    {
      ghost var t, c := Contents(), cases[id].(receipts := cases[id].receipts + [row]);
      assert Holds(ReceiptTable, t, trace.events, cases);
      RowAdded(receipts, cases, ReceiptsIn, id, c, row);
      OneTableChanges(ReceiptTable, t, t.(receipts := receipts + [Row(id, row)]), trace.events, trace.events, cases,
                      id, c);
      receipts := receipts + [Row(id, row)];
      cases := cases[id := c];
    }

    method PutIncident(id: Id, incidentId: string, incident: Incident)
      requires Valid() && id in cases
      requires incidentId in incidents ==> incidents[incidentId].requestId == id
      modifies this`incidents, this`cases
      ensures Valid()
      ensures cases == old(cases)[id := old(cases[id]).(incidents := old(cases[id]).incidents[incidentId := incident])]
    {
      assert Holds(RequestTable, Contents(), trace.events, cases);
      IncidentStored(Contents(), trace.events, cases, id, incidentId, incident);
      incidents := incidents[incidentId := IncidentRow(id, requests[id].traceId, incident)];
      cases := cases[id := cases[id].(incidents := cases[id].incidents[incidentId := incident])];
    }

    method PutReply(id: Id, key: string, receipt: Receipt)
      requires Valid() && id in cases
      modifies this`idempotency, this`cases
      ensures Valid()
      ensures cases == old(cases)[id := old(cases[id]).(replies := old(cases[id]).replies[key := receipt])]
    {
      ReplyStored(Contents(), trace.events, cases, id, key, receipt);
      idempotency := idempotency[(key, Endpoint(id)) := receipt];
      cases := cases[id := cases[id].(replies := cases[id].replies[key := receipt])];
    }

    ghost method RecordGrant(id: Id, grant: Grant)
      requires Valid() && id in cases
      modifies this`cases
      ensures Valid()
      ensures cases == old(cases)[id := old(cases[id]).(grants := old(cases[id]).grants + [grant])]
    {
      HistoryChanges(Contents(), trace.events, cases, id, cases[id].grants + [grant], cases[id].runs);
      cases := cases[id := cases[id].(grants := cases[id].grants + [grant])];
    }

    ghost method RecordRun(id: Id, run: GatewayRun)
      requires Valid() && id in cases
      modifies this`cases
      ensures Valid()
      ensures cases == old(cases)[id := old(cases[id]).(runs := old(cases[id]).runs + [run])]
    {
      HistoryChanges(Contents(), trace.events, cases, id, cases[id].grants, cases[id].runs + [run]);
      cases := cases[id := cases[id].(runs := cases[id].runs + [run])];
    }

    // trace.append_event commits on its own.
    method AppendEvent(id: Id, eventType: TraceStore.EventType, body: Body) returns (e: TraceStore.TraceEvent)
      requires Valid() && id in cases
      modifies trace, this`cases, this`commits
      ensures Valid()
      ensures cases == old(cases)[id := Append(world, old(cases[id]), eventType, body)]
      ensures commits == old(commits) + [cases[id]]
      ensures e.eventHash == TraceStore.FinalHash(cases[id].trace)
    {
      assert Holds(RequestTable, Contents(), trace.events, cases) && Holds(EventTable, Contents(), trace.events, cases);
      ghost var events := trace.events;
      e := trace.AppendEvent(requests[id].traceId, eventType, body);
      EventAppended(Contents(), events, cases, id, e);
      cases := cases[id := Append(world, cases[id], eventType, body)];
      Commit(id);
    }

    // A new row under fresh identifiers.
    method InsertRequest(id: Id, request: Request)
      requires Valid() && Unused(cases, id, request.traceId)
      modifies this`requests, this`cases
      ensures Valid()
      ensures cases == old(cases)[id := OpenCase(request)]
    {
      RequestOpened(Contents(), trace.events, cases, id, request);
      requests := requests[id := request.(state := Draft)];
      cases := cases[id := OpenCase(request)];
    }

    // The rows of a request as its queries find them.
    lemma Queries(id: Id)
      requires Valid()
      ensures id in requests <==> id in cases
      ensures id in cases ==>
              && requests[id] == cases[id].request && Find(plans, id) == cases[id].plan
              && RowsOf(approvals, id) == cases[id].approvals
              && RepliesOf(idempotency, id) == cases[id].replies
              && IncidentsOf(incidents, id) == cases[id].incidents
    {
      assert Holds(RequestTable, Contents(), trace.events, cases) && Holds(PlanTable, Contents(), trace.events, cases);
      assert Holds(ApprovalTable, Contents(), trace.events, cases) &&
             Holds(IdempotencyTable, Contents(), trace.events, cases);
      assert Holds(IncidentTable, Contents(), trace.events, cases);
    }

    // The record that a key finds under a request's endpoint.
    lemma RepliesQuery(id: Id, key: string)
      requires Valid() && id in cases
      ensures (key, Endpoint(id)) in idempotency <==> key in cases[id].replies
      ensures key in cases[id].replies ==> idempotency[(key, Endpoint(id))] == cases[id].replies[key]
    {
      assert Holds(IdempotencyTable, Contents(), trace.events, cases);
      if key in RepliesOf(idempotency, id) {
        assert (key, Endpoint(id)) in idempotency;
      }
      if (key, Endpoint(id)) in idempotency {
        assert key in RepliesOf(idempotency, id);
      }
    }

    lemma TraceQuery(id: Id)
      requires Valid() && id in cases
      ensures TraceStore.LogOf(trace.events, cases[id].request.traceId) == cases[id].trace
    {
      assert Holds(EventTable, Contents(), trace.events, cases);
    }

    // An incident row belongs to a request, and is found among its incidents.
    lemma IncidentQuery(incidentId: string)
      requires Valid() && incidentId in incidents
      ensures var id := incidents[incidentId].requestId;
              && id in cases && incidentId in cases[id].incidents
              && cases[id].incidents[incidentId] == incidents[incidentId].incident
    {
      var id := incidents[incidentId].requestId;
      assert Holds(TraceOwners, Contents(), trace.events, cases) &&
             Holds(IncidentTable, Contents(), trace.events, cases);
      assert incidentId in IncidentsOf(incidents, id);
      assert IncidentsOf(incidents, id) == IncidentsAt(cases, id);
    }

    // Conversely, a request's incidents are the rows that belong to it.
    lemma IncidentOwner(incidentId: string, id: Id)
      requires Valid() && id in cases
      ensures incidentId in cases[id].incidents <==> incidentId in incidents && incidents[incidentId].requestId == id
    {
      assert Holds(IncidentTable, Contents(), trace.events, cases);
      assert IncidentsOf(incidents, id) == IncidentsAt(cases, id);
    }
  }
}
