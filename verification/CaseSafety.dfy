// What every committed state keeps, whether or not the process stops between two commits
// and whether or not plans are rewritten behind the gate's back.
module CaseSafety {
  import opened Wrappers
  import opened Domain
  import opened PolicyRules
  import opened PolicyEngine
  import opened Evidence
  import opened Receipts
  import opened Lifecycle
  import TraceStore
  import Gateway

  // The stored hash is the hash of the stored payload.
  ghost predicate PlanBound(w: World, c: Case) {
    && (c.plan.Some? ==> c.plan.value.planHash == w.planHash(c.plan.value.payload))
    && (c.plan.None? ==> c.request.state == Draft)
  }

  // The approval row that a human's approval leaves behind.
  function RowOf(w: World, g: Grant): Approval {
    Approval(Granted, w.planHash(g.payload), g.policyVersion, g.approverId, Some(g.at + APPROVAL_TTL))
  }

  // At most one approval row; a granted one stands for one human approval, given by
  // somebody other than the acting agent, for the request's policy version.
  ghost predicate ApprovalsBound(w: World, c: Case) {
    && |c.approvals| <= 1 && |c.grants| <= 1
    && (|c.grants| == 1 <==> |c.approvals| == 1 && c.approvals[0].status == Granted)
    && (|c.grants| == 1 ==>
         && c.approvals[0] == RowOf(w, c.grants[0])
         && c.grants[0].approverId != c.request.agentId
         && c.grants[0].policyVersion == c.request.policyVersion)
    && (BeforeReview(c.request.state) ==> c.approvals == [])
    && (c.request.state == Approved ==> |c.grants| == 1)
    && (c.request.state == Rejected ==> |c.approvals| == 1 && c.grants == [])
  }

  // A human approved a payload with this hash, and the approval had not expired.
  predicate ApprovedBy(w: World, g: Grant, run: GatewayRun) {
    && w.planHash(g.payload) == w.planHash(run.payload)
    && run.at <= g.at + APPROVAL_TTL
  }

  // The gateway ran under a usable delegation of the request's version, with a key, and
  // under a binding approval where the policy asks for one.
  ghost predicate Authorized(w: World, policyId: string, version: int, grants: seq<Grant>, run: GatewayRun) {
    && DelegationUsable(run.policy, run.at)
    && run.policy.policyId == policyId && run.policy.version == version
    && HasKey(run.key)
    && (run.outcome.Some? <==> Submits(run.payload))
    && (NeedsApproval(run.policy, run.payload) ==> |grants| == 1 && ApprovedBy(w, grants[0], run))
  }

  ghost predicate AuthorizedIn(w: World, c: Case, run: GatewayRun) {
    Authorized(w, c.request.policyId, c.request.policyVersion, c.grants, run)
  }

  // Tools may have run.
  predicate HasStarted(s: RequestState) {
    s.Executing? || s.Executed? || s.FailedSafe? || s.ReceiptIssued?
  }

  ghost predicate RunsAuthorized(w: World, c: Case) {
    && |c.runs| <= 1
    && (|c.runs| == 1 ==> HasStarted(c.request.state))
    && (|c.runs| == 1 ==> AuthorizedIn(w, c, c.runs[0]))
  }

  // An execution row reports what the gateway run did.
  predicate Reports(e: Execution, run: GatewayRun) {
    && e.idempotencyKey == run.key
    && e.status == (if run.outcome.Some? then Submitted else ExecutionFailedSafe)
    && e.outcome == (if run.outcome.Some? then run.outcome.value else NoExecutionOutcome())
  }

  // A decision or an execution is being written up.
  predicate Closing(s: RequestState) {
    s.Denied? || s.Quarantined? || s.Executed? || s.FailedSafe? || s.ReceiptIssued?
  }

  // No approval has been recorded yet.
  predicate BeforeReview(s: RequestState) {
    s.Draft? || s.PlanCreated? || s.ApprovalRequired? || s.Allowed?
  }

  ghost predicate LedgerSound(c: Case) {
    && |c.executions| <= 1 && |c.receipts| <= 1
    && (|c.executions| == 1 || |c.receipts| == 1 ==> Closing(c.request.state))
    && (|c.executions| == 1 ==>
         if |c.runs| == 0 then c.executions[0].status == NoExecution else Reports(c.executions[0], c.runs[0]))
    && (c.request.state == ReceiptIssued ==> |c.executions| == 1 && |c.receipts| == 1)
    && (forall k :: k in c.replies ==>
         && c.request.state == ReceiptIssued && |c.receipts| == 1 && c.replies[k] == c.receipts[0]
         && |c.runs| == 1 && c.runs[0].key == Some(k))
    && !c.request.state.PolicyEvaluated? && !c.request.state.Expired?
  }

  ghost predicate Safe(w: World, c: Case) {
    PlanBound(w, c) && ApprovalsBound(w, c) && RunsAuthorized(w, c) && LedgerSound(c)
  }

  ghost predicate AllSafe(w: World, trail: seq<Case>) {
    forall i :: 0 <= i < |trail| ==> Safe(w, trail[i])
  }

  lemma AppendSafe(w: World, c: Case, eventType: TraceStore.EventType, body: Body)
    requires Safe(w, c)
    ensures Safe(w, Append(w, c, eventType, body))
  {
  }

  // --- Opening, planning, reviewing ---------------------------------------------------

  lemma CreateSafe(w: World, request: Request, policy: Policy, now: Time)
    ensures AllSafe(w, CreateTrail(w, request, policy, now))
  {
    var c1 := OpenCase(request);
    AppendSafe(w, c1, TraceStore.RequestReceived,
               MstsBody(request, Some(policy), None, now, None, ReviewNotRequired, [], [], None, None));
  }

  lemma PersistSafe(w: World, c: Case, actors: Actors, plan: ActionPlan, now: Time)
    requires Safe(w, c) && c.request.state in {Draft, PlanCreated}
    ensures AllSafe(w, PersistTrail(w, c, actors, plan, now))
  {
    var c1 := WithState(c.(plan := Some(PlanRow(w.planHash(plan), plan))), PlanCreated);
    AppendSafe(w, c1, TraceStore.PlanCreated,
               MstsBody(c.request, actors.policy, Some(plan), now, None, ReviewNotRequired, [], [], None, None));
  }

  // The plan that the call returns is the one it stores, under its hash.
  lemma PlanIsStored(w: World, c: Case, actors: Actors, now: Time)
    ensures var o := CreatePlan(w, c, actors, now);
            o.result.Ok? ==>
              && After(c, o.trail).plan == Some(PlanRow(w.planHash(o.result.value), o.result.value))
              && After(c, o.trail).request.state == PlanCreated
  {
  }

  lemma RewriteSafe(w: World, c: Case, plan: ActionPlan)
    requires Safe(w, c)
    ensures AllSafe(w, RewritePlan(w, c, plan))
  {
  }

  lemma ApproveSafe(w: World, c: Case, actors: Actors, approverId: string, now: Time)
    requires Safe(w, c)
    ensures AllSafe(w, Approve(w, c, actors, approverId, now).trail)
  {
    if c.request.state == ApprovalRequired && approverId != c.request.agentId {
      var row := c.plan.value;
      var c1 := ApproveTrail(w, c, actors, row, approverId, now)[0];
      AppendSafe(w, c1, TraceStore.ApprovalGranted, ReviewBody(c1.request, actors, row.payload, now, ReviewApproved));
    }
  }

  lemma RejectSafe(w: World, c: Case, actors: Actors, approverId: string, now: Time)
    requires Safe(w, c)
    ensures AllSafe(w, Reject(w, c, actors, approverId, now).trail)
  {
    if c.request.state == ApprovalRequired {
      var row := c.plan.value;
      var c1 := RejectTrail(w, c, actors, row, approverId, now)[0];
      AppendSafe(w, c1, TraceStore.ApprovalRejected, ReviewBody(c1.request, actors, row.payload, now, ReviewRejected));
    }
  }

  // What a review leaves: one more row, about the stored plan and the request's version, by
  // this reviewer, good for an hour if it grants.
  predicate ReviewedBy(c: Case, d: Case, status: ApprovalStatus, reviewerId: string, until: Option<Time>)
    requires c.plan.Some?
  {
    && |d.approvals| == |c.approvals| + 1 && c.approvals <= d.approvals && d.plan == c.plan
    && var row := d.approvals[|c.approvals|];
       && row.status == status && row.approverId == reviewerId && row.expiresAt == until
       && row.approvedPlanHash == c.plan.value.planHash && row.policyVersion == c.request.policyVersion
  }

  // Approving is for anybody but the acting agent, rejecting for anybody.
  lemma ReviewIsRecorded(w: World, c: Case, actors: Actors, reviewerId: string, now: Time)
    requires c.request.state == ApprovalRequired && c.plan.Some?
    ensures var o := Approve(w, c, actors, reviewerId, now);
            var d := After(c, o.trail);
            if reviewerId == c.request.agentId then o.result == Err(SelfApprovalForbidden) && d == c
            else o.result.Ok? && d.request.state == Approved
                 && ReviewedBy(c, d, Granted, reviewerId, Some(now + 3_600_000_000))
    ensures var o := Reject(w, c, actors, reviewerId, now);
            var d := After(c, o.trail);
            o.result.Ok? && d.request.state == Rejected && ReviewedBy(c, d, Refused, reviewerId, None)
            && d.grants == c.grants
  {
  }

  lemma InterveneSafe(w: World, c: Case, incidentId: string, intervention: Intervention)
    requires Safe(w, c)
    ensures AllSafe(w, Intervene(w, c, incidentId, intervention).trail)
  {
    if incidentId in c.incidents {
      var c1 := Intervene(w, c, incidentId, intervention).trail[0];
      AppendSafe(w, c1, TraceStore.InterventionApplied, InterventionBody(incidentId, intervention));
    }
  }

  // --- Blocking -----------------------------------------------------------------------

  // Nothing has been executed or issued yet.
  predicate Untouched(c: Case) {
    c.runs == [] && c.executions == [] && c.receipts == [] && c.replies == map[]
  }

  // Nothing that Safe reads differs.
  predicate SameLedger(c: Case, d: Case) {
    && d.request == c.request && d.plan == c.plan
    && d.approvals == c.approvals && d.grants == c.grants && d.runs == c.runs
    && d.executions == c.executions && d.receipts == c.receipts && d.replies == c.replies
  }

  predicate Neutral(c: Case, trail: seq<Case>) {
    forall i | 0 <= i < |trail| :: SameLedger(c, trail[i])
  }

  lemma NeutralSafe(w: World, c: Case, trail: seq<Case>)
    requires Safe(w, c) && Neutral(c, trail)
    ensures AllSafe(w, trail)
    ensures SameLedger(c, After(c, trail))
  {
    forall i | 0 <= i < |trail|
      ensures Safe(w, trail[i])
    {
      LedgerDecides(w, c, trail[i]);
    }
  }

  lemma LedgerDecides(w: World, c: Case, d: Case)
    requires Safe(w, c) && SameLedger(c, d)
    ensures Safe(w, d)
  {
  }

  lemma BlockToolsNeutral(w: World, c: Case, b: Blocking)
    ensures Neutral(c, BlockToolsTrail(w, c, b))
  {
  }

  lemma IncidentNeutral(w: World, c: Case, b: Blocking)
    ensures Neutral(c, IncidentTrail(w, c, b))
  {
  }

  // One row of each kind, in the order in which the closing steps write them.
  lemma ExecutionRowSafe(w: World, c: Case, e: Execution, s: RequestState)
    requires Safe(w, c) && Untouched(c.(runs := []))
    requires if |c.runs| == 0 then
               && (c.request.state.Denied? || c.request.state.Quarantined?)
               && s == c.request.state && e.status == NoExecution
             else
               c.request.state.Executing? && (s.Executed? || s.FailedSafe?) && Reports(e, c.runs[0])
    ensures Safe(w, WithState(c.(executions := c.executions + [e]), s))
  {
  }

  lemma ReceiptRowSafe(w: World, c: Case, receipt: Receipt)
    requires Safe(w, c) && Closing(c.request.state) && c.receipts == [] && c.replies == map[]
    ensures Safe(w, c.(receipts := c.receipts + [receipt]))
  {
  }

  lemma CloseSafe(w: World, c: Case)
    requires Safe(w, c) && Closing(c.request.state) && |c.receipts| == 1 && |c.executions| == 1
    ensures Safe(w, WithState(c, ReceiptIssued))
  {
  }

  lemma ReplySafe(w: World, c: Case, key: string)
    requires Safe(w, c) && c.request.state == ReceiptIssued
    requires |c.runs| == 1 && c.runs[0].key == Some(key)
    ensures Safe(w, c.(replies := c.replies[key := c.receipts[0]]))
  {
  }

  lemma CloseBlockedSafe(w: World, c: Case, b: Blocking)
    requires Safe(w, c) && Untouched(c) && (c.request.state.Denied? || c.request.state.Quarantined?)
    ensures AllSafe(w, CloseBlockedTrail(w, c, b))
  {
    var t := CloseBlockedTrail(w, c, b);
    LedgerDecides(w, c, t[0]);
    ExecutionRowSafe(w, t[0], Execution(None, NoExecution, NoExecutionOutcome()), t[0].request.state);
    assert t[1] == WithState(t[1], t[0].request.state);
    ReceiptRowSafe(w, t[1], t[2].receipts[0]);
    CloseSafe(w, t[2]);
  }

  lemma HandleBlockedSafe(w: World, c: Case, b: Blocking)
    requires Safe(w, c) && Untouched(c) && (c.request.state.Denied? || c.request.state.Quarantined?)
    ensures AllSafe(w, HandleBlockedTrail(w, c, b))
  {
    var t1 := BlockToolsTrail(w, c, b);
    BlockToolsNeutral(w, c, b);
    NeutralSafe(w, c, t1);
    var c1 := After(c, t1);
    LedgerDecides(w, c, c1);
    var t2 := IncidentTrail(w, c1, b);
    IncidentNeutral(w, c1, b);
    NeutralSafe(w, c1, t2);
    var c2 := After(c1, t2);
    LedgerDecides(w, c1, c2);
    CloseBlockedSafe(w, c2, b);
  }

  // --- Evaluating ---------------------------------------------------------------------

  lemma DecidedSafe(w: World, c: Case, d: Decision)
    requires Safe(w, c) && (c.request.state.PlanCreated? || c.request.state.ApprovalRequired?)
    ensures Safe(w, WithState(c, StateFor(d))) && Untouched(c)
  {
  }

  lemma DecideSafe(w: World, c: Case, b: Blocking)
    requires Safe(w, c) && (c.request.state.PlanCreated? || c.request.state.ApprovalRequired?)
    ensures AllSafe(w, DecideTrail(w, c, b))
    ensures var d := After(c, DecideTrail(w, c, b));
            Untouched(d) && d.request.state == StateFor(b.evaluation.decision)
  {
    var t := DecideTrail(w, c, b);
    LedgerDecides(w, c, t[0]);
    LedgerDecides(w, c, t[1]);
    DecidedSafe(w, t[1], b.evaluation.decision);
  }

  lemma EvaluateTrailSafe(w: World, c: Case, b: Blocking)
    requires Safe(w, c) && (c.request.state.PlanCreated? || c.request.state.ApprovalRequired?)
    ensures AllSafe(w, EvaluateTrail(w, c, b))
  {
    DecideSafe(w, c, b);
    var d := After(c, DecideTrail(w, c, b));
    if b.evaluation.decision == RequireApproval {
      LedgerDecides(w, d, FollowUpTrail(w, d, b)[0]);
    } else if b.evaluation.decision != Allow {
      HandleBlockedSafe(w, d, b);
    }
  }

  lemma EvaluateSafe(w: World, c: Case, actors: Actors, now: Time, draws: Draws)
    requires Safe(w, c)
    ensures AllSafe(w, EvaluateRequest(w, c, actors, now, draws).trail)
  {
    if c.request.state in {PlanCreated, PolicyEvaluated, ApprovalRequired} && c.plan.Some? && actors.policy.Some? {
      var ctx := EvaluationContext(w, c, actors, actors.policy.value, c.plan.value, now);
      EvaluateTrailSafe(w, c,
                        Blocking(actors.policy, c.plan.value.payload, EvaluationOf(ctx), ctx.security, now, draws));
    }
  }

  // --- Executing ----------------------------------------------------------------------

  lemma StartSafe(w: World, c: Case)
    requires Safe(w, c) && (c.request.state.Allowed? || c.request.state.Approved?)
    ensures Safe(w, WithState(c, Executing)) && Untouched(c)
  {
  }

  lemma RunSafe(w: World, c: Case, run: GatewayRun)
    requires Safe(w, c) && c.request.state.Executing? && Untouched(c) && AuthorizedIn(w, c, run)
    ensures Safe(w, c.(runs := c.runs + [run]))
  {
  }

  lemma RunToolsSafe(w: World, c: Case, x: Running)
    requires Safe(w, c) && (c.request.state.Allowed? || c.request.state.Approved?)
    requires AuthorizedIn(w, c, RunOf(x))
    ensures AllSafe(w, RunToolsTrail(w, c, x))
    ensures var d := After(c, RunToolsTrail(w, c, x));
            d.runs == [RunOf(x)] && d.request.state.Executing? && Untouched(d.(runs := []))
  {
    var t := RunToolsTrail(w, c, x);
    StartSafe(w, c);
    LedgerDecides(w, t[0], t[1]);
    RunSafe(w, t[1], RunOf(x));
    LedgerDecides(w, t[2], t[3]);
  }

  lemma RecordExecutionSafe(w: World, c: Case, x: Running)
    requires Safe(w, c) && c.request.state.Executing?
    requires c.runs == [RunOf(x)] && Untouched(c.(runs := []))
    ensures AllSafe(w, RecordExecutionTrail(w, c, x))
    ensures var d := After(c, RecordExecutionTrail(w, c, x));
            && Closing(d.request.state) && d.receipts == [] && d.replies == map[] && |d.executions| == 1
            && d.runs == c.runs
  {
    var t := RecordExecutionTrail(w, c, x);
    ExecutionRowSafe(w, c, ExecutionRow(x), if x.outcome.Some? then Executed else FailedSafe);
    LedgerDecides(w, t[0], t[1]);
    LedgerDecides(w, t[1], t[2]);
  }

  lemma IssueReceiptSafe(w: World, c: Case, receipt: Receipt, key: Option<string>)
    requires Safe(w, c) && Closing(c.request.state)
    requires c.receipts == [] && c.replies == map[] && |c.executions| == 1
    requires |c.runs| == 1 && c.runs[0].key == key
    ensures AllSafe(w, IssueReceiptTrail(c, receipt, key))
  {
    var t := IssueReceiptTrail(c, receipt, key);
    ReceiptRowSafe(w, c, receipt);
    CloseSafe(w, t[0]);
    if HasKey(key) {
      ReplySafe(w, t[1], key.value);
    }
  }

  lemma CloseExecutionSafe(w: World, c: Case, x: Running)
    requires Safe(w, c) && c.request.state.Executing?
    requires c.runs == [RunOf(x)] && Untouched(c.(runs := []))
    ensures AllSafe(w, CloseExecutionTrail(w, c, x))
  {
    RecordExecutionSafe(w, c, x);
    var c1 := After(c, RecordExecutionTrail(w, c, x));
    IssueReceiptSafe(w, c1, IssuedReceipt(c1, x), x.key);
  }

  lemma ExecuteAllowedSafe(w: World, c: Case, x: Running)
    requires Safe(w, c) && (c.request.state.Allowed? || c.request.state.Approved?)
    requires AuthorizedIn(w, c, RunOf(x))
    ensures AllSafe(w, ExecuteAllowedTrail(w, c, x))
  {
    var t := RunToolsTrail(w, c, x);
    RunToolsSafe(w, c, x);
    AfterSafe(w, c, t);
    CloseExecutionSafe(w, After(c, t), x);
    SafeConcat(w, t, CloseExecutionTrail(w, After(c, t), x));
  }

  lemma AfterSafe(w: World, c: Case, trail: seq<Case>)
    requires Safe(w, c) && AllSafe(w, trail)
    ensures Safe(w, After(c, trail))
  {
  }

  lemma SafeConcat(w: World, t1: seq<Case>, t2: seq<Case>)
    requires AllSafe(w, t1) && AllSafe(w, t2)
    ensures AllSafe(w, t1 + t2)
  {
  }

  lemma BlockedStateSafe(w: World, c: Case, s: RequestState)
    requires Safe(w, c) && (c.request.state.Allowed? || c.request.state.Approved?) && (s.Denied? || s.Quarantined?)
    ensures Safe(w, WithState(c, s)) && Untouched(c)
  {
  }

  lemma ExecuteBlockedSafe(w: World, c: Case, b: Blocking, s: RequestState)
    requires Safe(w, c) && (c.request.state.Allowed? || c.request.state.Approved?) && (s.Denied? || s.Quarantined?)
    ensures AllSafe(w, [c, WithState(c, s)] + HandleBlockedTrail(w, WithState(c, s), b))
  {
    BlockedStateSafe(w, c, s);
    HandleBlockedSafe(w, WithState(c, s), b);
  }

  lemma ExecuteRunSafe(w: World, c: Case, x: Running)
    requires Safe(w, c) && (c.request.state.Allowed? || c.request.state.Approved?)
    requires AuthorizedIn(w, c, RunOf(x))
    ensures AllSafe(w, [c] + ExecuteAllowedTrail(w, c, x))
  {
    ExecuteAllowedSafe(w, c, x);
    SafeFirst(w, c, ExecuteAllowedTrail(w, c, x));
  }

  lemma SafeFirst(w: World, c: Case, trail: seq<Case>)
    requires Safe(w, c) && AllSafe(w, trail)
    ensures AllSafe(w, [c] + trail)
  {
  }

  lemma ExecuteTrailSafe(w: World, c: Case, x: Running, b: Blocking)
    requires Safe(w, c) && (c.request.state.Allowed? || c.request.state.Approved?)
    requires b.evaluation.decision == Allow ==> AuthorizedIn(w, c, RunOf(x))
    ensures AllSafe(w, ExecuteTrail(w, c, x, b))
  {
    var c1 := c.(evaluations := c.evaluations + [b.evaluation]);
    LedgerDecides(w, c, c1);
    if b.evaluation.decision == Allow {
      ExecuteRunSafe(w, c1, x);
    } else {
      ExecuteBlockedSafe(w, c1, b, RefusedState(b.evaluation.decision));
    }
  }

  lemma GrantIsLatest(w: World, c: Case)
    requires Safe(w, c)
    ensures LatestGrant(c.approvals) == if |c.grants| == 1 then Some(RowOf(w, c.grants[0])) else None
  {
    if |c.approvals| == 1 {
      assert c.approvals[..0] == [];
    }
  }

  // The policy row that the request names.
  predicate Loaded(c: Case, actors: Actors) {
    actors.policy.Some? ==>
      actors.policy.value.policyId == c.request.policyId && actors.policy.value.version == c.request.policyVersion
  }

  // What an allowing gate has established.
  lemma AllowEstablishes(ctx: Context)
    requires ctx.policy.Some? && ctx.isExecution && DecisionOf(ctx) == Allow
    ensures DelegationUsable(ctx.policy.value, ctx.now) && HasKey(ctx.idempotencyKey)
    ensures NeedsApproval(ctx.policy.value, ctx.plan) ==> ctx.approval.Some?
    ensures ctx.approval.Some? ==>
            ctx.approval.value.approvedPlanHash == ctx.planHash && !HasExpired(ctx.approval.value, ctx.now)
  {
    MildDecisionMeansPass(ctx);
    DelegationRuleMeaning(ctx);
    ApprovalRuleMeaning(ctx);
    BindingRuleMeaning(ctx);
    KeyRuleMeaning(ctx);
  }

  // The gate allows an execution only under the authority that Authorized spells out.
  lemma AllowMeansAuthorized(w: World, c: Case, actors: Actors, policy: Policy, row: PlanRow,
                             key: Option<string>, now: Time, draws: Draws)
    requires Safe(w, c) && c.plan == Some(row) && actors.policy == Some(policy) && Loaded(c, actors)
    requires DecisionOf(ExecutionContext(w, c, actors, policy, row, now, key)) == Allow
    ensures var ctx := ExecutionContext(w, c, actors, policy, row, now, key);
            AuthorizedIn(w, c, RunOf(ExecutingOf(w, c, policy, row, EvaluationOf(ctx), now, key, draws)))
  {
    var ctx := ExecutionContext(w, c, actors, policy, row, now, key);
    AllowEstablishes(ctx);
    GrantIsLatest(w, c);
    Gateway.GateAllowsSoGatewayRuns(ctx, w.profiles);
  }

  lemma GatedExecuteSafe(w: World, c: Case, actors: Actors, policy: Policy, row: PlanRow,
                         key: Option<string>, now: Time, draws: Draws)
    requires Safe(w, c) && (c.request.state.Allowed? || c.request.state.Approved?)
    requires c.plan == Some(row) && actors.policy == Some(policy) && Loaded(c, actors)
    ensures AllSafe(w, GatedExecuteTrail(w, c, actors, policy, row, key, now, draws))
  {
    var ctx := ExecutionContext(w, c, actors, policy, row, now, key);
    var evaluation := EvaluationOf(ctx);
    var x := ExecutingOf(w, c, policy, row, evaluation, now, key, draws);
    if evaluation.decision == Allow {
      AllowMeansAuthorized(w, c, actors, policy, row, key, now, draws);
    }
    ExecuteTrailSafe(w, c, x, Blocking(Some(policy), row.payload, evaluation, ctx.security, now, draws));
  }

  lemma ExecuteSafe(w: World, c: Case, actors: Actors, key: Option<string>, now: Time, draws: Draws)
    requires Safe(w, c) && Loaded(c, actors)
    ensures AllSafe(w, Execute(w, c, actors, key, now, draws).trail)
  {
    if !(HasKey(key) && key.value in c.replies) && c.request.state in {Allowed, Approved}
       && c.plan.Some? && actors.policy.Some? {
      GatedExecuteSafe(w, c, actors, actors.policy.value, c.plan.value, key, now, draws);
    }
  }
}
