// The evidence of a request between calls that ran to completion: the trace tells the
// state, and the receipt, execution, incident and approval rows agree with it.
module Settlement {
  import opened Wrappers
  import opened Domain
  import opened PolicyRules
  import opened PolicyEngine
  import opened Evidence
  import Gateway
  import Receipts
  import opened Lifecycle
  import opened CaseSafety
  import opened Rows
  import TraceStore

  // --- Reading a trace ----------------------------------------------------------------

  // What a trace tells: the state of the request, the hashes of the receipt events, and
  // whether a tool was blocked or an incident opened.
  datatype Story = Story(state: RequestState, issued: seq<string>, blocked: bool, incident: bool)

  const BEGINNING := Story(Draft, [], false, false)

  function DecisionIn(b: Body): Option<Decision> {
    if b.Msts? then b.policyDecision else None
  }

  // The automaton reads the type of an event and the decision in its body.
  function StateAfter(s: RequestState, eventType: TraceStore.EventType, d: Option<Decision>): RequestState {
    match eventType
    case RequestReceived => Draft
    case PlanCreated => RequestState.PlanCreated
    case PolicyEvaluated => (match d case Some(decision) => StateFor(decision) case None => s)
    case ApprovalRequested => ApprovalRequired
    case ApprovalGranted => Approved
    case ApprovalRejected => Rejected
    case ToolCallStarted => Executing
    case ToolCallCompleted => Executed
    case ToolCallBlocked => s
    case IncidentQuarantined => RequestState.Quarantined
    case ReceiptIssued => RequestState.ReceiptIssued
    case InterventionApplied => s
  }

  function Read(s: Story, e: TraceStore.TraceEvent): Story {
    Story(StateAfter(s.state, e.eventType, DecisionIn(e.body)),
          if e.eventType == TraceStore.ReceiptIssued then s.issued + [e.eventHash] else s.issued,
          s.blocked || e.eventType == TraceStore.ToolCallBlocked,
          s.incident || e.eventType == TraceStore.IncidentQuarantined)
  }

  function Replay(log: TraceStore.Log): Story {
    if |log| == 0 then BEGINNING
    else Read(Replay(TraceStore.Front(log)), TraceStore.Last(log))
  }

  lemma ReplayAppend(w: World, c: Case, eventType: TraceStore.EventType, body: Body)
    ensures var d := Append(w, c, eventType, body);
            Replay(d.trace) == Read(Replay(c.trace), TraceStore.Last(d.trace))
  {
    var d := Append(w, c, eventType, body);
    assert TraceStore.Front(d.trace) == c.trace;
  }

  // --- The invariant ------------------------------------------------------------------

  function LastDecision(c: Case): Option<Decision> {
    if |c.evaluations| == 0 then None else Some(c.evaluations[|c.evaluations| - 1].decision)
  }

  predicate WasQuarantined(c: Case) {
    LastDecision(c) == Some(Quarantine)
  }

  predicate WasHeld(c: Case) {
    LastDecision(c) == Some(RequireApproval)
  }

  // The states in which a call that completes can leave a request.
  predicate Resting(s: RequestState) {
    s.Draft? || s.PlanCreated? || s.ApprovalRequired? || s.Approved? || s.Rejected? || s.Allowed? || s.ReceiptIssued?
  }

  // The trace reconstructs the state, and blocked tools and incidents tell of quarantine only.
  predicate TraceTells(c: Case) {
    var s := Replay(c.trace);
    && s.state == c.request.state
    && (s.blocked ==> WasQuarantined(c))
    && (s.incident <==> WasQuarantined(c))
  }

  // One receipt, one execution, one receipt event: together or not at all.
  predicate ReceiptSettled(c: Case) {
    var issued := Replay(c.trace).issued;
    if c.request.state == ReceiptIssued then
      && |c.receipts| == 1 && |c.executions| == 1 && |issued| == 1
      && c.receipts[0].eventHash == issued[0]
      && (c.receipts[0].status == Receipts.Completed <==> c.executions[0].status == Submitted)
      && (c.receipts[0].status == Receipts.AwaitingApproval <==> WasHeld(c))
      && LastDecision(c) == Some(c.receipts[0].decision)
    else
      c.receipts == [] && c.executions == [] && issued == []
  }

  predicate IncidentSettled(c: Case) {
    && |c.incidents| <= 1
    && (c.incidents != map[] <==> WasQuarantined(c))
    && (WasQuarantined(c) ==> c.request.state == ReceiptIssued)
  }

  predicate AllBlocked(rows: seq<ToolCall>) {
    forall i | 0 <= i < |rows| :: rows[i].status == CallBlocked
  }

  // After an allowed execution the tool rows are the calls of its gateway run, in order and
  // completed. Without one they are blocked calls, there exactly if the trace tells of them.
  predicate ToolsSettled(c: Case) {
    if c.request.state != ReceiptIssued then c.toolCalls == [] && c.runs == []
    else if LastDecision(c) == Some(Allow) then
      |c.runs| == 1 && Gateway.AllCompleted(c.runs[0].payload.proposedToolCalls, c.toolCalls)
    else
      c.runs == [] && AllBlocked(c.toolCalls) && (c.toolCalls != [] <==> Replay(c.trace).blocked)
  }

  predicate Settled(c: Case) {
    && Resting(c.request.state) && TraceTells(c) && ReceiptSettled(c) && IncidentSettled(c)
    && ToolsSettled(c)
  }

  // --- Calls that decide nothing ------------------------------------------------------

  lemma CreateSettles(w: World, request: Request, policy: Policy, now: Time)
    ensures var t := CreateTrail(w, request, policy, now); Settled(t[1])
  {
    var c := OpenCase(request);
    ReplayAppend(w, c, TraceStore.RequestReceived,
                 MstsBody(request, Some(policy), None, now, None, ReviewNotRequired, [], [], None, None));
  }

  lemma PersistSettles(w: World, c: Case, actors: Actors, plan: ActionPlan, now: Time)
    requires Settled(c) && (c.request.state.Draft? || c.request.state.PlanCreated?)
    ensures Settled(After(c, PersistTrail(w, c, actors, plan, now)))
  {
    var t := PersistTrail(w, c, actors, plan, now);
    ReplayAppend(w, t[0], TraceStore.PlanCreated,
                 MstsBody(c.request, actors.policy, Some(plan), now, None, ReviewNotRequired, [], [], None, None));
  }

  lemma ApproveSettles(w: World, c: Case, actors: Actors, approverId: string, now: Time)
    requires Settled(c)
    ensures Settled(After(c, Approve(w, c, actors, approverId, now).trail))
  {
    if |Approve(w, c, actors, approverId, now).trail| > 0 {
      var t := ApproveTrail(w, c, actors, c.plan.value, approverId, now);
      ReplayAppend(w, t[0], TraceStore.ApprovalGranted,
                   ReviewBody(t[0].request, actors, c.plan.value.payload, now, ReviewApproved));
    }
  }

  lemma RejectSettles(w: World, c: Case, actors: Actors, approverId: string, now: Time)
    requires Settled(c)
    ensures Settled(After(c, Reject(w, c, actors, approverId, now).trail))
  {
    if |Reject(w, c, actors, approverId, now).trail| > 0 {
      var t := RejectTrail(w, c, actors, c.plan.value, approverId, now);
      ReplayAppend(w, t[0], TraceStore.ApprovalRejected,
                   ReviewBody(t[0].request, actors, c.plan.value.payload, now, ReviewRejected));
    }
  }

  lemma SameKeys(a: map<string, Incident>, b: map<string, Incident>)
    requires a.Keys == b.Keys
    ensures |a| == |b| && (a == map[] <==> b == map[])
  {
    assert |a| == |a.Keys| && |b| == |b.Keys|;
    assert a == map[] <==> a.Keys == {};
    assert b == map[] <==> b.Keys == {};
  }

  lemma SameStorySettles(c: Case, d: Case)
    requires Settled(c) && SameRows(c, d) && d.toolCalls == c.toolCalls
    requires Replay(d.trace) == Replay(c.trace)
    requires |d.incidents| == |c.incidents| && (d.incidents == map[] <==> c.incidents == map[])
    ensures Settled(d)
  {
  }

  lemma InterventionTellsNothing(w: World, c: Case, incidentId: string, intervention: Intervention)
    requires incidentId in c.incidents
    ensures var d := After(c, Intervene(w, c, incidentId, intervention).trail);
            && SameRows(c, d) && d.toolCalls == c.toolCalls && Replay(d.trace) == Replay(c.trace)
            && d.incidents.Keys == c.incidents.Keys
  {
    var t := Intervene(w, c, incidentId, intervention).trail;
    ReplayAppend(w, t[0], TraceStore.InterventionApplied, InterventionBody(incidentId, intervention));
  }

  lemma InterveneSettles(w: World, c: Case, incidentId: string, intervention: Intervention)
    requires Settled(c)
    ensures Settled(After(c, Intervene(w, c, incidentId, intervention).trail))
  {
    if incidentId in c.incidents {
      var d := After(c, Intervene(w, c, incidentId, intervention).trail);
      InterventionTellsNothing(w, c, incidentId, intervention);
      SameKeys(c.incidents, d.incidents);
      SameStorySettles(c, d);
    }
  }

  // --- Blocking -----------------------------------------------------------------------

  // Nothing has been written about an outcome yet.
  predicate Unreported(c: Case) {
    var s := Replay(c.trace);
    && c.receipts == [] && c.executions == [] && s.issued == []
    && c.toolCalls == [] && c.runs == []
    && c.incidents == map[] && !s.blocked && !s.incident
  }

  lemma RestingIsUnreported(c: Case)
    requires Settled(c) && c.request.state != ReceiptIssued
    ensures Unreported(c)
  {
  }

  predicate AttemptsFound(b: Blocking) {
    |b.signals.attemptedUnauthorizedTools| > 0
  }

  // What recording the attempted tools does to a request.
  predicate RecordsAttempts(c: Case, d: Case, b: Blocking) {
    && SameLedger(c, d) && d.evaluations == c.evaluations && d.incidents == c.incidents
    && d.toolCalls == c.toolCalls + BlockedCalls(b.signals.attemptedUnauthorizedTools)
    && Replay(d.trace) == Replay(c.trace).(blocked := Replay(c.trace).blocked || AttemptsFound(b))
  }

  lemma BlockToolsStory(w: World, c: Case, b: Blocking)
    ensures RecordsAttempts(c, After(c, BlockToolsTrail(w, c, b)), b)
  {
    if AttemptsFound(b) {
      var t := BlockToolsTrail(w, c, b);
      ReplayAppend(w, t[0], TraceStore.ToolCallBlocked, BlockedBody(t[0].request, b, BlockedUses(b), None));
    }
  }

  lemma IncidentStory(w: World, c: Case, b: Blocking)
    requires c.incidents == map[]
    ensures var d := After(c, IncidentTrail(w, c, b));
            var q := b.evaluation.decision == Quarantine;
            && SameLedger(c, d) && d.evaluations == c.evaluations && d.toolCalls == c.toolCalls
            && (d.incidents != map[] <==> q) && |d.incidents| <= 1
            && Replay(d.trace).issued == Replay(c.trace).issued
            && Replay(d.trace).blocked == Replay(c.trace).blocked
            && Replay(d.trace).incident == (Replay(c.trace).incident || q)
  {
    if b.evaluation.decision == Quarantine {
      var t := IncidentTrail(w, c, b);
      ReplayAppend(w, t[0], TraceStore.IncidentQuarantined, BlockedBody(t[0].request, b, [], None));
      assert t[0].incidents.Keys == {b.draws.incidentId};
      assert |t[0].incidents| == |t[0].incidents.Keys| == 1;
      assert b.draws.incidentId in t[0].incidents;
    }
  }

  // The trace tells of a receipt, and no other row of the outcome changed.
  predicate TellsOfReceipt(c: Case, d: Case) {
    && d.incidents == c.incidents && d.toolCalls == c.toolCalls && d.runs == c.runs
    && Replay(d.trace) == Replay(c.trace).(state := RequestState.ReceiptIssued,
                                           issued := Replay(c.trace).issued + [TraceStore.FinalHash(d.trace)])
  }

  // The event of a receipt: nothing else changes.
  lemma ReceiptEventStory(w: World, c: Case, body: Body)
    ensures var d := Append(w, c, TraceStore.ReceiptIssued, body);
            Replay(d.trace) == Replay(c.trace).(state := RequestState.ReceiptIssued,
                                                issued := Replay(c.trace).issued + [TraceStore.FinalHash(d.trace)])
  {
    ReplayAppend(w, c, TraceStore.ReceiptIssued, body);
  }

  lemma CloseBlockedStory(w: World, c: Case, b: Blocking)
    ensures TellsOfReceipt(c, After(c, CloseBlockedTrail(w, c, b)))
  {
    ReceiptEventStory(w, c, BlockedBody(c.request, b, BlockedUses(b), Some(NoExecutionOutcome())));
  }

  // A tool that untrusted text tried to reach goes with quarantine.
  predicate AttemptsQuarantine(b: Blocking) {
    AttemptsFound(b) ==> b.evaluation.decision == Quarantine
  }

  lemma JudgedAttempts(ctx: Context, b: Blocking)
    requires ctx.policy.Some? && b.signals == ctx.security && b.evaluation == EvaluationOf(ctx)
    ensures AttemptsQuarantine(b)
  {
    if AttemptsFound(b) {
      AttemptedToolQuarantines(ctx);
    }
  }

  // A closed request whose trace tells of this receipt and of nothing that did not happen.
  lemma ClosedIsSettled(d: Case, decision: Decision, status: ExecutionStatus)
    requires ClosedBy(d, decision, status) && LastDecision(d) == Some(decision)
    requires Replay(d.trace).state == RequestState.ReceiptIssued
    requires Replay(d.trace).issued == [TraceStore.FinalHash(d.trace)]
    requires Replay(d.trace).blocked ==> decision == Quarantine
    requires Replay(d.trace).incident <==> decision == Quarantine
    requires |d.incidents| <= 1 && (d.incidents != map[] <==> decision == Quarantine)
    requires ToolsSettled(d)
    ensures Settled(d)
  {
  }

  // Blocked calls are on record, and nothing else about the outcome is.
  predicate BlockedRecorded(c: Case, b: Blocking) {
    var s := Replay(c.trace);
    && c.receipts == [] && c.executions == [] && s.issued == []
    && LastDecision(c) == Some(b.evaluation.decision)
    && c.runs == [] && AllBlocked(c.toolCalls) && (c.toolCalls != [] <==> s.blocked)
    && (s.blocked ==> b.evaluation.decision == Quarantine)
  }

  predicate IncidentRecorded(c: Case, b: Blocking) {
    var q := b.evaluation.decision == Quarantine;
    |c.incidents| <= 1 && (c.incidents != map[] <==> q) && (Replay(c.trace).incident <==> q)
  }

  lemma ClosedBlockedIsSettled(c: Case, d: Case, b: Blocking)
    requires BlockedRecorded(c, b) && IncidentRecorded(c, b) && b.evaluation.decision != Allow
    requires TellsOfReceipt(c, d) && ClosedBy(d, b.evaluation.decision, NoExecution) && d.evaluations == c.evaluations
    ensures Settled(d)
  {
    ClosedIsSettled(d, b.evaluation.decision, NoExecution);
  }

  lemma CloseBlockedSettles(w: World, c: Case, b: Blocking)
    requires BlockedRecorded(c, b) && IncidentRecorded(c, b) && b.evaluation.decision != Allow
    ensures Settled(After(c, CloseBlockedTrail(w, c, b)))
  {
    CloseBlockedStory(w, c, b);
    CloseBlockedRows(w, c, b);
    ClosedBlockedIsSettled(c, After(c, CloseBlockedTrail(w, c, b)), b);
  }

  lemma RecordedCallsAreBlocked(tools: seq<string>)
    ensures AllBlocked(BlockedCalls(tools)) && (BlockedCalls(tools) != [] <==> |tools| > 0)
  {
  }

  lemma RecordedAttempts(c: Case, d: Case, b: Blocking)
    requires Unreported(c) && LastDecision(c) == Some(b.evaluation.decision) && AttemptsQuarantine(b)
    requires RecordsAttempts(c, d, b)
    ensures BlockedRecorded(d, b) && d.incidents == map[] && !Replay(d.trace).incident
  {
    RecordedCallsAreBlocked(b.signals.attemptedUnauthorizedTools);
    assert d.toolCalls == BlockedCalls(b.signals.attemptedUnauthorizedTools);
  }

  lemma BlockToolsRecords(w: World, c: Case, b: Blocking)
    requires Unreported(c) && LastDecision(c) == Some(b.evaluation.decision) && AttemptsQuarantine(b)
    ensures var d := After(c, BlockToolsTrail(w, c, b));
            BlockedRecorded(d, b) && d.incidents == map[] && !Replay(d.trace).incident
  {
    BlockToolsStory(w, c, b);
    RecordedAttempts(c, After(c, BlockToolsTrail(w, c, b)), b);
  }

  lemma IncidentRecords(w: World, c: Case, b: Blocking)
    requires BlockedRecorded(c, b) && c.incidents == map[] && !Replay(c.trace).incident
    ensures var d := After(c, IncidentTrail(w, c, b));
            BlockedRecorded(d, b) && IncidentRecorded(d, b)
  {
    IncidentStory(w, c, b);
  }

  lemma HandleBlockedSettles(w: World, c: Case, b: Blocking)
    requires Unreported(c) && LastDecision(c) == Some(b.evaluation.decision)
    requires b.evaluation.decision != Allow && AttemptsQuarantine(b)
    ensures Settled(After(c, HandleBlockedTrail(w, c, b)))
  {
    BlockToolsRecords(w, c, b);
    var c1 := After(c, BlockToolsTrail(w, c, b));
    IncidentRecords(w, c1, b);
    CloseBlockedSettles(w, After(c1, IncidentTrail(w, c1, b)), b);
  }

  // One blocked row for every tool that was attempted, in order.
  predicate RecordsBlocked(c: Case, d: Case, attempted: seq<string>) {
    && c.toolCalls <= d.toolCalls && |d.toolCalls| == |c.toolCalls| + |attempted|
    && forall i | 0 <= i < |attempted| ::
         var row := d.toolCalls[|c.toolCalls| + i];
         row.tool == attempted[i] && row.status == CallBlocked && row.arguments == []
  }

  lemma HandleBlockedRecords(w: World, c: Case, b: Blocking)
    requires c.incidents == map[]
    ensures RecordsBlocked(c, After(c, HandleBlockedTrail(w, c, b)), b.signals.attemptedUnauthorizedTools)
  {
    BlockToolsStory(w, c, b);
    var c1 := After(c, BlockToolsTrail(w, c, b));
    IncidentStory(w, c1, b);
    CloseBlockedStory(w, After(c1, IncidentTrail(w, c1, b)), b);
  }

  // --- Evaluating ---------------------------------------------------------------------

  // The decision is on record, in the trace and in the state.
  predicate Decided(c: Case, d: Decision) {
    Unreported(c) && LastDecision(c) == Some(d) && Replay(c.trace).state == c.request.state == StateFor(d)
  }

  lemma EvaluatedStory(w: World, c: Case, b: Blocking)
    requires Unreported(c)
    ensures Decided(After(c, DecideTrail(w, c, b)), b.evaluation.decision)
  {
    var t := DecideTrail(w, c, b);
    ReplayAppend(w, t[0], TraceStore.PolicyEvaluated, EvaluatedBody(t[0].request, b));
  }

  lemma ApprovalRequestSettles(w: World, c: Case, b: Blocking)
    requires Decided(c, RequireApproval)
    ensures Settled(Append(w, c, TraceStore.ApprovalRequested, EvaluatedBody(c.request, b)))
  {
    ReplayAppend(w, c, TraceStore.ApprovalRequested, EvaluatedBody(c.request, b));
  }

  lemma AllowedSettles(c: Case)
    requires Decided(c, Allow)
    ensures Settled(c)
  {
  }

  lemma FollowUpSettles(w: World, c: Case, b: Blocking)
    requires Decided(c, b.evaluation.decision) && AttemptsQuarantine(b)
    ensures Settled(After(c, FollowUpTrail(w, c, b)))
  {
    match b.evaluation.decision
    case Allow => AllowedSettles(c);
    case RequireApproval => ApprovalRequestSettles(w, c, b);
    case Deny | Quarantine => HandleBlockedSettles(w, c, b);
  }

  lemma EvaluateTrailSettles(w: World, c: Case, b: Blocking)
    requires Unreported(c) && AttemptsQuarantine(b)
    ensures Settled(After(c, EvaluateTrail(w, c, b)))
  {
    EvaluatedStory(w, c, b);
    FollowUpSettles(w, After(c, DecideTrail(w, c, b)), b);
  }

  lemma GatedEvaluateSettles(w: World, c: Case, actors: Actors, policy: Policy, row: PlanRow, now: Time, draws: Draws)
    requires Unreported(c)
    ensures var ctx := EvaluationContext(w, c, actors, policy, row, now);
            Settled(After(c, EvaluateTrail(w, c,
              Blocking(Some(policy), row.payload, EvaluationOf(ctx), ctx.security, now, draws))))
  {
    var ctx := EvaluationContext(w, c, actors, policy, row, now);
    var b := Blocking(Some(policy), row.payload, EvaluationOf(ctx), ctx.security, now, draws);
    JudgedAttempts(ctx, b);
    EvaluateTrailSettles(w, c, b);
  }

  lemma EvaluateSettles(w: World, c: Case, actors: Actors, now: Time, draws: Draws)
    requires Settled(c)
    ensures Settled(After(c, EvaluateRequest(w, c, actors, now, draws).trail))
  {
    if c.request.state in {PlanCreated, PolicyEvaluated, ApprovalRequired} && c.plan.Some? && actors.policy.Some? {
      RestingIsUnreported(c);
      GatedEvaluateSettles(w, c, actors, actors.policy.value, c.plan.value, now, draws);
    }
  }

  // --- Executing ----------------------------------------------------------------------

  lemma StartedEventStory(w: World, c: Case, body: Body)
    ensures var d := Append(w, c, TraceStore.ToolCallStarted, body);
            Replay(d.trace) == Replay(c.trace).(state := Executing)
  {
    ReplayAppend(w, c, TraceStore.ToolCallStarted, body);
  }

  lemma RunToolsStory(w: World, c: Case, x: Running)
    ensures var d := After(c, RunToolsTrail(w, c, x));
            && d.incidents == c.incidents
            && d.toolCalls == c.toolCalls + x.rows && d.runs == c.runs + [RunOf(x)]
            && Replay(d.trace) == Replay(c.trace).(state := Executing)
  {
    var c1 := WithState(c, Executing);
    StartedEventStory(w, c1, ExecutingBody(c1.request, x, [], None));
  }

  lemma CompletedEventStory(w: World, c: Case, body: Body)
    ensures var d := Append(w, c, TraceStore.ToolCallCompleted, body);
            Replay(d.trace) == Replay(c.trace).(state := Executed)
  {
    ReplayAppend(w, c, TraceStore.ToolCallCompleted, body);
  }

  lemma RecordExecutionStory(w: World, c: Case, x: Running)
    ensures TellsOfReceipt(c, After(c, RecordExecutionTrail(w, c, x)))
  {
    var t := RecordExecutionTrail(w, c, x);
    CompletedEventStory(w, t[0], ExecutingBody(t[0].request, x, Receipts.UsesOf(x.rows), x.outcome));
    ReceiptEventStory(w, t[1], ExecutingBody(t[1].request, x, Receipts.UsesOf(x.rows), x.outcome));
  }

  lemma IssueReceiptStory(c: Case, receipt: Receipts.Receipt, key: Option<string>)
    ensures var d := After(c, IssueReceiptTrail(c, receipt, key));
            && d.incidents == c.incidents && d.trace == c.trace
            && d.toolCalls == c.toolCalls && d.runs == c.runs
  {
  }

  // The trace tells of a receipt, and the tools that ran are on record.
  predicate TellsOfRun(c: Case, d: Case, x: Running) {
    && d.incidents == c.incidents
    && d.toolCalls == c.toolCalls + x.rows && d.runs == c.runs + [RunOf(x)]
    && Replay(d.trace) == Replay(c.trace).(state := RequestState.ReceiptIssued,
                                           issued := Replay(c.trace).issued + [TraceStore.FinalHash(d.trace)])
  }

  lemma ExecuteAllowedStory(w: World, c: Case, x: Running)
    ensures TellsOfRun(c, After(c, ExecuteAllowedTrail(w, c, x)), x)
  {
    RunToolsStory(w, c, x);
    var c1 := After(c, RunToolsTrail(w, c, x));
    RecordExecutionStory(w, c1, x);
    var c2 := After(c1, RecordExecutionTrail(w, c1, x));
    IssueReceiptStory(c2, IssuedReceipt(c2, x), x.key);
  }

  lemma ExecutedIsSettled(c: Case, d: Case, x: Running)
    requires Unreported(c) && LastDecision(c) == Some(Allow)
    requires Gateway.AllCompleted(x.plan.proposedToolCalls, x.rows)
    requires TellsOfRun(c, d, x) && ClosedBy(d, Allow, ExecutionRow(x).status) && d.evaluations == c.evaluations
    ensures Settled(d)
  {
    assert d.toolCalls == x.rows && d.runs == [RunOf(x)];
    ClosedIsSettled(d, Allow, ExecutionRow(x).status);
  }

  lemma ExecuteAllowedSettles(w: World, c: Case, x: Running)
    requires Unreported(c) && LastDecision(c) == Some(Allow) && x.evaluation.decision == Allow
    requires Gateway.AllCompleted(x.plan.proposedToolCalls, x.rows)
    ensures Settled(After(c, ExecuteAllowedTrail(w, c, x)))
  {
    ExecuteAllowedStory(w, c, x);
    ExecuteAllowedRows(w, c, x);
    ExecutedIsSettled(c, After(c, ExecuteAllowedTrail(w, c, x)), x);
  }

  lemma ExecuteTrailSettles(w: World, c: Case, x: Running, b: Blocking)
    requires Unreported(c) && AttemptsQuarantine(b) && x.evaluation == b.evaluation
    requires b.evaluation.decision == Allow ==> Gateway.AllCompleted(x.plan.proposedToolCalls, x.rows)
    ensures Settled(After(c, ExecuteTrail(w, c, x, b)))
  {
    var c1 := c.(evaluations := c.evaluations + [b.evaluation]);
    if b.evaluation.decision == Allow {
      ExecuteAllowedSettles(w, c1, x);
    } else {
      HandleBlockedSettles(w, WithState(c1, RefusedState(b.evaluation.decision)), b);
    }
  }

  lemma GatedExecuteSettles(w: World, c: Case, actors: Actors, policy: Policy, row: PlanRow,
                            key: Option<string>, now: Time, draws: Draws)
    requires Unreported(c)
    ensures Settled(After(c, GatedExecuteTrail(w, c, actors, policy, row, key, now, draws)))
  {
    var ctx := ExecutionContext(w, c, actors, policy, row, now, key);
    var b := Blocking(Some(policy), row.payload, EvaluationOf(ctx), ctx.security, now, draws);
    JudgedAttempts(ctx, b);
    if DecisionOf(ctx) == Allow {
      Gateway.GateAllowsSoGatewayRuns(ctx, w.profiles);
    }
    ExecuteTrailSettles(w, c, ExecutingOf(w, c, policy, row, EvaluationOf(ctx), now, key, draws), b);
  }

  lemma ExecuteSettles(w: World, c: Case, actors: Actors, key: Option<string>, now: Time, draws: Draws)
    requires Settled(c)
    ensures Settled(After(c, Execute(w, c, actors, key, now, draws).trail))
  {
    if !(HasKey(key) && key.value in c.replies) && c.request.state in {Allowed, Approved}
       && c.plan.Some? && actors.policy.Some? {
      RestingIsUnreported(c);
      GatedExecuteSettles(w, c, actors, actors.policy.value, c.plan.value, key, now, draws);
    }
  }
}
