// The lifecycle steps (app/domain/lifecycle.py) on the rows of one request. A step is the
// list of database states that its commits leave behind: a call that completes ends in the
// last one, a process that stops part way leaves an earlier one.
module Lifecycle {
  import opened Wrappers
  import opened Json
  import opened Domain
  import opened Detectors
  import opened Tools
  import opened PolicyRules
  import opened PolicyEngine
  import opened Evidence
  import TraceStore
  import Gateway
  import Planner
  import opened Receipts

  // What the service is configured with: the hash of a plan payload, the keyed chain hash,
  // the synthetic loan data, and regular-expression search.
  datatype World = World(
    planHash: ActionPlan -> string,
    sealer: Sealer,
    profiles: seq<LoanProfile>,
    search: Search)

  datatype Error =
    | RequestNotFound | PolicyNotFound | PlanNotFound | IncidentNotFound
    | IllegalTransition(state: RequestState)
    | SelfApprovalForbidden
    | PolicyVersionExists
    | IntegrityViolation
    | AssertionFailed
    | IndexOutOfRange

  datatype PlanRow = PlanRow(planHash: string, payload: ActionPlan)

  datatype IncidentStatus = IncidentOpen | IncidentClosed

  datatype Incident = Incident(riskFlags: seq<RiskFlag>, status: IncidentStatus, interventions: seq<Intervention>)

  // What happened outside the tables: a human saw a payload and approved it, the gateway
  // ran the tools of a payload.
  datatype Grant = Grant(payload: ActionPlan, approverId: string, policyVersion: int, at: Time)

  datatype GatewayRun = GatewayRun(
    payload: ActionPlan, policy: Policy, at: Time, key: Option<string>, outcome: Option<Fields>)

  // All rows that belong to one request.
  datatype Case = Case(
    request: Request,
    plan: Option<PlanRow>,
    evaluations: seq<Evaluation>,
    approvals: seq<Approval>,
    toolCalls: seq<ToolCall>,
    executions: seq<Execution>,
    receipts: seq<Receipt>,
    incidents: map<string, Incident>,
    replies: map<string, Receipt>,
    trace: TraceStore.Log,
    grants: seq<Grant>,
    runs: seq<GatewayRun>)

  // _load_actors
  datatype Actors = Actors(principal: Option<Principal>, agent: Option<Agent>, policy: Option<Policy>)

  // Identifiers drawn by uuid4 during a call.
  datatype Draws = Draws(receiptId: string, incidentId: string)

  datatype Outcome<+T> = Outcome(result: Result<T, Error>, trail: seq<Case>)

  // The state in which a trail leaves the rows.
  function After(c: Case, trail: seq<Case>): Case {
    if |trail| == 0 then c else trail[|trail| - 1]
  }

  // --- Rows ---------------------------------------------------------------------------

  function WithState(c: Case, s: RequestState): Case {
    c.(request := c.request.(state := s))
  }

  function Append(w: World, c: Case, eventType: TraceStore.EventType, body: Body): Case {
    c.(trace := c.trace + [TraceStore.NextEvent(w.sealer, c.trace, c.request.traceId, eventType, body)])
  }

  function Source(plan: Option<ActionPlan>): seq<RequiredDatum> {
    match plan
    case None => []
    case Some(p) => p.requiredData
  }

  function Recommended(plan: Option<ActionPlan>): Option<Action> {
    match plan
    case None => None
    case Some(p) => Some(ActionOf(p))
  }

  // _msts_body
  function MstsBody(request: Request, policy: Option<Policy>, plan: Option<ActionPlan>, now: Time,
                    decision: Option<Decision>, review: ReviewStatus, flags: seq<RiskFlag>,
                    toolCalls: seq<ToolUse>, executed: Option<Fields>, outcome: Option<Fields>): Body {
    Msts(request.traceId, now, request.principalId, request.agentId, request.userRequest, policy,
         Source(plan), toolCalls, Recommended(plan), executed, review, decision, flags, outcome)
  }

  // --- create_request -----------------------------------------------------------------

  function OpenCase(request: Request): Case {
    Case(request.(state := Draft), None, [], [], [], [], [], map[], map[], [], [], [])
  }

  function CreateTrail(w: World, request: Request, policy: Policy, now: Time): seq<Case> {
    var c1 := OpenCase(request);
    [c1, Append(w, c1, TraceStore.RequestReceived,
                MstsBody(request, Some(policy), None, now, None, ReviewNotRequired, [], [], None, None))]
  }

  // --- create_plan, store_custom_plan -------------------------------------------------

  // _persist_plan
  function PersistTrail(w: World, c: Case, actors: Actors, plan: ActionPlan, now: Time): seq<Case> {
    var c1 := WithState(c.(plan := Some(PlanRow(w.planHash(plan), plan))), PlanCreated);
    [c1, Append(w, c1, TraceStore.PlanCreated,
                MstsBody(c.request, actors.policy, Some(plan), now, None, ReviewNotRequired, [], [], None, None))]
  }

  function CreatePlan(w: World, c: Case, actors: Actors, now: Time): Outcome<ActionPlan> {
    if c.request.state !in {Draft, PlanCreated} then Outcome(Err(IllegalTransition(c.request.state)), [])
    else match actors.policy
      case None => Outcome(Err(PolicyNotFound), [])
      case Some(policy) =>
        match Planner.BuildPlan(w.profiles, c.request, policy)
        case None => Outcome(Err(IndexOutOfRange), [])
        case Some(plan) => Outcome(Ok(plan), PersistTrail(w, c, actors, plan, now))
  }

  function StoreCustomPlan(w: World, c: Case, actors: Actors, plan: ActionPlan, now: Time): Outcome<ActionPlan> {
    Outcome(Ok(plan), PersistTrail(w, c, actors, plan, now))
  }

  // The rewrite of scenarios.py: payload and hash change together, nothing else does.
  function RewritePlan(w: World, c: Case, plan: ActionPlan): seq<Case> {
    if c.plan.None? then [] else [c.(plan := Some(PlanRow(w.planHash(plan), plan)))]
  }

  // --- _handle_blocked ----------------------------------------------------------------

  function BlockedCall(tool: string): ToolCall {
    ToolCall(tool, [], CallBlocked, [Field("reason", Str("unauthorized_via_untrusted_content"))])
  }

  function BlockedCalls(tools: seq<string>): (r: seq<ToolCall>)
    ensures |r| == |tools| && forall i :: 0 <= i < |tools| ==> r[i] == BlockedCall(tools[i])
  {
    seq(|tools|, i requires 0 <= i < |tools| => BlockedCall(tools[i]))
  }

  function NoExecutionOutcome(): Fields {
    [Field("status", Str("NO_EXECUTION"))]
  }

  // What the blocking steps of one call share.
  datatype Blocking = Blocking(
    policy: Option<Policy>, plan: ActionPlan, evaluation: Evaluation, signals: Signals, now: Time, draws: Draws)

  function BlockedBody(request: Request, b: Blocking, toolCalls: seq<ToolUse>, outcome: Option<Fields>): Body {
    MstsBody(request, b.policy, Some(b.plan), b.now, Some(b.evaluation.decision), ReviewNotRequired,
             RiskFlags(b.signals), toolCalls, None, outcome)
  }

  function BlockedUses(b: Blocking): seq<ToolUse> {
    UsesOf(BlockedCalls(b.signals.attemptedUnauthorizedTools))
  }

  // Rows for the tools that untrusted text tried to reach, and an event if there are any.
  function BlockToolsTrail(w: World, c: Case, b: Blocking): seq<Case> {
    var rows := BlockedCalls(b.signals.attemptedUnauthorizedTools);
    var c1 := c.(toolCalls := c.toolCalls + rows);
    if |rows| == 0 then [c1]
    else [c1, Append(w, c1, TraceStore.ToolCallBlocked, BlockedBody(c1.request, b, BlockedUses(b), None))]
  }

  function IncidentTrail(w: World, c: Case, b: Blocking): seq<Case> {
    if b.evaluation.decision != Quarantine then []
    else
      var c1 := c.(incidents := c.incidents[b.draws.incidentId := Incident(RiskFlags(b.signals), IncidentOpen, [])]);
      [c1, Append(w, c1, TraceStore.IncidentQuarantined, BlockedBody(c1.request, b, [], None))]
  }

  function BlockedReceipt(c: Case, b: Blocking, eventHash: string): Receipt {
    ReceiptOf(b.draws.receiptId, c.request, b.plan, b.evaluation, None, None,
              BlockedCalls(b.signals.attemptedUnauthorizedTools), eventHash)
  }

  function CloseBlockedTrail(w: World, c: Case, b: Blocking): seq<Case> {
    var c1 := Append(w, c, TraceStore.ReceiptIssued,
                     BlockedBody(c.request, b, BlockedUses(b), Some(NoExecutionOutcome())));
    var c2 := c1.(executions := c1.executions + [Execution(None, NoExecution, NoExecutionOutcome())]);
    var c3 := c2.(receipts := c2.receipts + [BlockedReceipt(c2, b, TraceStore.FinalHash(c2.trace))]);
    [c1, c2, c3, WithState(c3, ReceiptIssued)]
  }

  function HandleBlockedTrail(w: World, c: Case, b: Blocking): seq<Case> {
    var t1 := BlockToolsTrail(w, c, b);
    var c1 := After(c, t1);
    var t2 := IncidentTrail(w, c1, b);
    var c2 := After(c1, t2);
    t1 + t2 + CloseBlockedTrail(w, c2, b)
  }

  // --- evaluate -----------------------------------------------------------------------

  function SignalsOf(w: World, request: Request, policy: Policy): Signals {
    ScanOf(w.search, request.untrustedDocument, policy.allowedTools)
  }

  function EvaluationContext(w: World, c: Case, actors: Actors, policy: Policy, row: PlanRow, now: Time): Context {
    Context(actors.principal, actors.agent, Some(policy), row.payload, row.planHash, c.request, now,
            SignalsOf(w, c.request, policy), None, None, false)
  }

  // The state that a decision puts the request in.
  function StateFor(d: Decision): RequestState {
    match d
    case Quarantine => RequestState.Quarantined
    case Deny => Denied
    case RequireApproval => ApprovalRequired
    case Allow => Allowed
  }

  // The state of a request whose execution the gate refuses.
  function RefusedState(d: Decision): RequestState {
    if d == Quarantine then RequestState.Quarantined else Denied
  }

  function EvaluatedBody(request: Request, b: Blocking): Body {
    MstsBody(request, b.policy, Some(b.plan), b.now, Some(b.evaluation.decision),
             if b.evaluation.decision == RequireApproval then ReviewPending else ReviewNotRequired,
             RiskFlags(b.signals), [], None, None)
  }

  function DecideTrail(w: World, c: Case, b: Blocking): seq<Case> {
    var c1 := c.(evaluations := c.evaluations + [b.evaluation]);
    var c2 := Append(w, c1, TraceStore.PolicyEvaluated, EvaluatedBody(c1.request, b));
    [c1, c2, WithState(c2, StateFor(b.evaluation.decision))]
  }

  function FollowUpTrail(w: World, c: Case, b: Blocking): seq<Case> {
    match b.evaluation.decision
    case Allow => []
    case RequireApproval => [Append(w, c, TraceStore.ApprovalRequested, EvaluatedBody(c.request, b))]
    case Deny | Quarantine => HandleBlockedTrail(w, c, b)
  }

  function EvaluateTrail(w: World, c: Case, b: Blocking): seq<Case> {
    var t := DecideTrail(w, c, b);
    t + FollowUpTrail(w, After(c, t), b)
  }

  function EvaluateRequest(w: World, c: Case, actors: Actors, now: Time, draws: Draws): Outcome<Evaluation> {
    if c.request.state !in {PlanCreated, PolicyEvaluated, ApprovalRequired} then
      Outcome(Err(IllegalTransition(c.request.state)), [])
    else match c.plan
      case None => Outcome(Err(PlanNotFound), [])
      case Some(row) =>
        match actors.policy
        case None => Outcome(Err(AssertionFailed), [])
        case Some(policy) =>
          var ctx := EvaluationContext(w, c, actors, policy, row, now);
          var evaluation := EvaluationOf(ctx);
          Outcome(Ok(evaluation),
                  EvaluateTrail(w, c, Blocking(Some(policy), row.payload, evaluation, ctx.security, now, draws)))
  }

  // --- approve, reject ----------------------------------------------------------------

  function ReviewBody(request: Request, actors: Actors, plan: ActionPlan, now: Time, review: ReviewStatus): Body {
    MstsBody(request, actors.policy, Some(plan), now, Some(RequireApproval), review, [], [], None, None)
  }

  function GrantRow(c: Case, row: PlanRow, approverId: string, now: Time): Approval {
    Approval(Granted, row.planHash, c.request.policyVersion, approverId, Some(now + APPROVAL_TTL))
  }

  function RefusalRow(c: Case, row: PlanRow, approverId: string): Approval {
    Approval(Refused, row.planHash, c.request.policyVersion, approverId, None)
  }

  function ApproveTrail(w: World, c: Case, actors: Actors, row: PlanRow, approverId: string, now: Time): seq<Case> {
    var c1 := WithState(c.(
      approvals := c.approvals + [GrantRow(c, row, approverId, now)],
      grants := c.grants + [Grant(row.payload, approverId, c.request.policyVersion, now)]), Approved);
    [c1, Append(w, c1, TraceStore.ApprovalGranted, ReviewBody(c1.request, actors, row.payload, now, ReviewApproved))]
  }

  function RejectTrail(w: World, c: Case, actors: Actors, row: PlanRow, approverId: string, now: Time): seq<Case> {
    var c1 := WithState(c.(approvals := c.approvals + [RefusalRow(c, row, approverId)]), Rejected);
    [c1, Append(w, c1, TraceStore.ApprovalRejected, ReviewBody(c1.request, actors, row.payload, now, ReviewRejected))]
  }

  function Approve(w: World, c: Case, actors: Actors, approverId: string, now: Time): Outcome<Approval> {
    if c.request.state != ApprovalRequired then Outcome(Err(IllegalTransition(c.request.state)), [])
    else match c.plan
      case None => Outcome(Err(PlanNotFound), [])
      case Some(row) =>
        if approverId == c.request.agentId then Outcome(Err(SelfApprovalForbidden), [])
        else Outcome(Ok(GrantRow(c, row, approverId, now)), ApproveTrail(w, c, actors, row, approverId, now))
  }

  function Reject(w: World, c: Case, actors: Actors, approverId: string, now: Time): Outcome<Approval> {
    if c.request.state != ApprovalRequired then Outcome(Err(IllegalTransition(c.request.state)), [])
    else match c.plan
      case None => Outcome(Err(PlanNotFound), [])
      case Some(row) => Outcome(Ok(RefusalRow(c, row, approverId)), RejectTrail(w, c, actors, row, approverId, now))
  }

  // --- execute ------------------------------------------------------------------------

  predicate HasKey(key: Option<string>) {
    key.Some? && key.value != ""
  }

  // The newest granted approval.
  function LatestGrant(approvals: seq<Approval>): Option<Approval> {
    if |approvals| == 0 then None
    else if approvals[|approvals| - 1].status == Granted then Some(approvals[|approvals| - 1])
    else LatestGrant(approvals[..|approvals| - 1])
  }

  function ExecutionContext(w: World, c: Case, actors: Actors, policy: Policy, row: PlanRow, now: Time,
                            key: Option<string>): Context {
    EvaluationContext(w, c, actors, policy, row, now).(
      approval := LatestGrant(c.approvals), idempotencyKey := key, isExecution := true)
  }

  // What the executing steps of one call share.
  datatype Running = Running(
    policy: Policy, plan: ActionPlan, evaluation: Evaluation, approval: Option<Approval>,
    key: Option<string>, now: Time, receiptId: string,
    rows: seq<ToolCall>, outcome: Option<Fields>)

  // The run that an executing call is about to make.
  function RunOf(x: Running): GatewayRun {
    GatewayRun(x.plan, x.policy, x.now, x.key, x.outcome)
  }

  function ExecutingBody(request: Request, x: Running, toolCalls: seq<ToolUse>, outcome: Option<Fields>): Body {
    MstsBody(request, Some(x.policy), Some(x.plan), x.now, Some(Allow),
             if x.approval.Some? then ReviewApproved else ReviewNotRequired, [], toolCalls, outcome, outcome)
  }

  function ExecutionRow(x: Running): Execution {
    match x.outcome
    case Some(result) => Execution(x.key, Submitted, result)
    case None => Execution(x.key, ExecutionFailedSafe, NoExecutionOutcome())
  }

  function IssuedReceipt(c: Case, x: Running): Receipt {
    ReceiptOf(x.receiptId, c.request, x.plan, x.evaluation, x.approval, Some(ExecutionRow(x)), x.rows,
              TraceStore.FinalHash(c.trace))
  }

  // From the commit of EXECUTING to the rows of the tools. The adapters take effect when
  // they are called, before their rows are committed.
  function RunToolsTrail(w: World, c: Case, x: Running): seq<Case> {
    var c1 := WithState(c, Executing);
    var c2 := Append(w, c1, TraceStore.ToolCallStarted, ExecutingBody(c1.request, x, [], None));
    var c3 := c2.(runs := c2.runs + [RunOf(x)]);
    [c1, c2, c3, c3.(toolCalls := c3.toolCalls + x.rows)]
  }

  function RecordExecutionTrail(w: World, c: Case, x: Running): seq<Case> {
    var c1 := WithState(c.(executions := c.executions + [ExecutionRow(x)]),
                        if x.outcome.Some? then Executed else FailedSafe);
    var c2 := Append(w, c1, TraceStore.ToolCallCompleted, ExecutingBody(c1.request, x, UsesOf(x.rows), x.outcome));
    [c1, c2, Append(w, c2, TraceStore.ReceiptIssued, ExecutingBody(c2.request, x, UsesOf(x.rows), x.outcome))]
  }

  function IssueReceiptTrail(c: Case, receipt: Receipt, key: Option<string>): seq<Case> {
    var c1 := c.(receipts := c.receipts + [receipt]);
    var c2 := WithState(c1, ReceiptIssued);
    [c1, c2] + if HasKey(key) then [c2.(replies := c2.replies[key.value := receipt])] else []
  }

  function CloseExecutionTrail(w: World, c: Case, x: Running): seq<Case> {
    var t1 := RecordExecutionTrail(w, c, x);
    var c1 := After(c, t1);
    t1 + IssueReceiptTrail(c1, IssuedReceipt(c1, x), x.key)
  }

  function ExecuteAllowedTrail(w: World, c: Case, x: Running): seq<Case> {
    var t1 := RunToolsTrail(w, c, x);
    t1 + CloseExecutionTrail(w, After(c, t1), x)
  }

  function ExecuteTrail(w: World, c: Case, x: Running, b: Blocking): seq<Case> {
    var c1 := c.(evaluations := c.evaluations + [b.evaluation]);
    if b.evaluation.decision == Allow then [c1] + ExecuteAllowedTrail(w, c1, x)
    else
      var c2 := WithState(c1, RefusedState(b.evaluation.decision));
      [c1, c2] + HandleBlockedTrail(w, c2, b)
  }

  function LastReceipt(c: Case): Receipt
    requires |c.receipts| > 0
  {
    c.receipts[|c.receipts| - 1]
  }

  function ExecutingOf(w: World, c: Case, policy: Policy, row: PlanRow, evaluation: Evaluation,
                       now: Time, key: Option<string>, draws: Draws): Running {
    var rows := Gateway.Attempts(w.profiles, row.payload.proposedToolCalls, policy.allowedTools);
    Running(policy, row.payload, evaluation, LatestGrant(c.approvals), key, now, draws.receiptId,
              rows, Gateway.OutcomeOf(rows))
  }

  // The trail of a call that reaches the gate.
  function GatedExecuteTrail(w: World, c: Case, actors: Actors, policy: Policy, row: PlanRow,
                             key: Option<string>, now: Time, draws: Draws): seq<Case> {
    var ctx := ExecutionContext(w, c, actors, policy, row, now, key);
    var evaluation := EvaluationOf(ctx);
    ExecuteTrail(w, c, ExecutingOf(w, c, policy, row, evaluation, now, key, draws),
                 Blocking(Some(policy), row.payload, evaluation, ctx.security, now, draws))
  }

  lemma ExecuteIssuesReceipt(w: World, c: Case, x: Running, b: Blocking)
    ensures |After(c, ExecuteTrail(w, c, x, b)).receipts| > 0
  {
  }

  // The gated call returns the receipt that it stored.
  function GatedExecute(w: World, c: Case, actors: Actors, policy: Policy, row: PlanRow,
                        key: Option<string>, now: Time, draws: Draws): (o: Outcome<Receipt>)
    ensures o.trail == GatedExecuteTrail(w, c, actors, policy, row, key, now, draws)
    ensures |After(c, o.trail).receipts| > 0 && o.result == Ok(LastReceipt(After(c, o.trail)))
  {
    var trail := GatedExecuteTrail(w, c, actors, policy, row, key, now, draws);
    assert |After(c, trail).receipts| > 0 by {
      var ctx := ExecutionContext(w, c, actors, policy, row, now, key);
      ExecuteIssuesReceipt(w, c, ExecutingOf(w, c, policy, row, EvaluationOf(ctx), now, key, draws),
                           Blocking(Some(policy), row.payload, EvaluationOf(ctx), ctx.security, now, draws));
    }
    Outcome(Ok(LastReceipt(After(c, trail))), trail)
  }

  function Execute(w: World, c: Case, actors: Actors, key: Option<string>, now: Time, draws: Draws): Outcome<Receipt> {
    if HasKey(key) && key.value in c.replies then Outcome(Ok(c.replies[key.value]), [])
    else if c.request.state !in {Allowed, Approved} then Outcome(Err(IllegalTransition(c.request.state)), [])
    else match c.plan
      case None => Outcome(Err(PlanNotFound), [])
      case Some(row) =>
        match actors.policy
        case None => Outcome(Err(AssertionFailed), [])
        case Some(policy) => GatedExecute(w, c, actors, policy, row, key, now, draws)
  }

  // --- add_intervention ---------------------------------------------------------------

  function Intervene(w: World, c: Case, incidentId: string, intervention: Intervention): Outcome<Incident> {
    if incidentId !in c.incidents then Outcome(Err(IncidentNotFound), [])
    else
      var row := c.incidents[incidentId];
      var updated := Incident(row.riskFlags,
                              if intervention.kind == "CLOSE_INCIDENT" then IncidentClosed else row.status,
                              row.interventions + [intervention]);
      var c1 := c.(incidents := c.incidents[incidentId := updated]);
      Outcome(Ok(updated),
              [c1, Append(w, c1, TraceStore.InterventionApplied, InterventionBody(incidentId, intervention))])
  }
}
