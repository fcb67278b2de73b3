// What a commit may change: records are only added, and a request only moves on.
module Progress {
  import opened Wrappers
  import opened Domain
  import opened PolicyEngine
  import opened Evidence
  import opened Lifecycle
  import TraceStore
  import Receipts

  // How far a request is from its receipt.
  function Remaining(s: RequestState): (r: nat)
    ensures 1 <= r <= 7
  {
    match s
    case Draft => 7
    case PlanCreated => 6
    case PolicyEvaluated => 5
    case ApprovalRequired => 5
    case Approved | Rejected | Allowed => 4
    case Executing => 3
    case Denied | Quarantined | Executed | FailedSafe => 2
    case ReceiptIssued | Expired => 1
  }

  predicate KeepsReplies(c: Case, d: Case) {
    forall k | k in c.replies :: k in d.replies && d.replies[k] == c.replies[k]
  }

  // The records of c are still there in d, in the same order, and no state has come back.
  predicate Extends(c: Case, d: Case) {
    && d.request == c.request.(state := d.request.state)
    && Remaining(d.request.state) <= Remaining(c.request.state)
    && c.evaluations <= d.evaluations && c.approvals <= d.approvals
    && c.toolCalls <= d.toolCalls && c.executions <= d.executions && c.receipts <= d.receipts
    && c.trace <= d.trace && c.grants <= d.grants && c.runs <= d.runs
    && c.incidents.Keys <= d.incidents.Keys
    && KeepsReplies(c, d)
  }

  lemma ExtendsTransitive(a: Case, b: Case, c: Case)
    requires Extends(a, b) && Extends(b, c)
    ensures Extends(a, c)
  {
  }

  // Every commit of the trail extends c.
  predicate Advances(c: Case, trail: seq<Case>) {
    forall i | 0 <= i < |trail| :: Extends(c, trail[i])
  }

  lemma AdvancesConcat(c: Case, t1: seq<Case>, t2: seq<Case>)
    requires Advances(c, t1) && Advances(After(c, t1), t2)
    ensures Advances(c, t1 + t2)
  {
    var t := t1 + t2;
    forall i | |t1| <= i < |t|
      ensures Extends(c, t[i])
    {
      if |t1| > 0 {
        ExtendsTransitive(c, After(c, t1), t2[i - |t1|]);
      }
    }
  }

  // --- Every trail advances -----------------------------------------------------------

  lemma PersistAdvances(w: World, c: Case, actors: Actors, plan: ActionPlan, now: Time)
    requires c.request.state.Draft? || c.request.state.PlanCreated?
    ensures Advances(c, PersistTrail(w, c, actors, plan, now))
  {
  }

  lemma RewriteAdvances(w: World, c: Case, plan: ActionPlan)
    ensures Advances(c, RewritePlan(w, c, plan))
  {
  }

  lemma ApproveAdvances(w: World, c: Case, actors: Actors, approverId: string, now: Time)
    ensures Advances(c, Approve(w, c, actors, approverId, now).trail)
  {
  }

  lemma RejectAdvances(w: World, c: Case, actors: Actors, approverId: string, now: Time)
    ensures Advances(c, Reject(w, c, actors, approverId, now).trail)
  {
  }

  lemma InterveneAdvances(w: World, c: Case, incidentId: string, intervention: Intervention)
    ensures Advances(c, Intervene(w, c, incidentId, intervention).trail)
  {
  }

  predicate Blockable(s: RequestState) {
    s.Denied? || s.Quarantined?
  }

  lemma BlockToolsAdvances(w: World, c: Case, b: Blocking)
    ensures Advances(c, BlockToolsTrail(w, c, b))
    ensures After(c, BlockToolsTrail(w, c, b)).request == c.request
  {
  }

  lemma IncidentAdvances(w: World, c: Case, b: Blocking)
    ensures Advances(c, IncidentTrail(w, c, b))
    ensures After(c, IncidentTrail(w, c, b)).request == c.request
  {
  }

  lemma RowsExtend(c: Case, e: Execution, r: Receipts.Receipt)
    ensures var d := c.(executions := c.executions + [e]); Extends(c, d) && Extends(d, d.(receipts := d.receipts + [r]))
  {
  }

  lemma CloseBlockedAdvances(w: World, c: Case, b: Blocking)
    requires Blockable(c.request.state)
    ensures Advances(c, CloseBlockedTrail(w, c, b))
  {
    var t := CloseBlockedTrail(w, c, b);
    AppendExtends(w, c, TraceStore.ReceiptIssued,
                  BlockedBody(c.request, b, BlockedUses(b), Some(NoExecutionOutcome())));
    RowsExtend(t[0], t[1].executions[|t[1].executions| - 1], t[2].receipts[|t[2].receipts| - 1]);
    ExtendsTransitive(c, t[0], t[1]);
    ExtendsTransitive(c, t[1], t[2]);
    StateExtends(t[2], ReceiptIssued);
    ExtendsTransitive(c, t[2], t[3]);
  }

  lemma HandleBlockedAdvances(w: World, c: Case, b: Blocking)
    requires Blockable(c.request.state)
    ensures Advances(c, HandleBlockedTrail(w, c, b))
  {
    var t1 := BlockToolsTrail(w, c, b);
    BlockToolsAdvances(w, c, b);
    var c1 := After(c, t1);
    var t2 := IncidentTrail(w, c1, b);
    IncidentAdvances(w, c1, b);
    CloseBlockedAdvances(w, After(c1, t2), b);
    AdvancesConcat(c, t1, t2);
    assert After(c, t1 + t2) == After(c1, t2);
    AdvancesConcat(c, t1 + t2, CloseBlockedTrail(w, After(c1, t2), b));
  }

  lemma AppendExtends(w: World, c: Case, eventType: TraceStore.EventType, body: Body)
    ensures Extends(c, Append(w, c, eventType, body))
  {
  }

  lemma StateExtends(c: Case, s: RequestState)
    requires Remaining(s) <= Remaining(c.request.state)
    ensures Extends(c, WithState(c, s))
  {
  }

  lemma DecideAdvances(w: World, c: Case, b: Blocking)
    requires c.request.state.PlanCreated? || c.request.state.PolicyEvaluated? || c.request.state.ApprovalRequired?
    ensures Advances(c, DecideTrail(w, c, b))
  {
    var t := DecideTrail(w, c, b);
    AppendExtends(w, t[0], TraceStore.PolicyEvaluated, EvaluatedBody(t[0].request, b));
    ExtendsTransitive(c, t[0], t[1]);
    StateExtends(t[1], StateFor(b.evaluation.decision));
    ExtendsTransitive(c, t[1], t[2]);
  }

  lemma EvaluateTrailAdvances(w: World, c: Case, b: Blocking)
    requires c.request.state.PlanCreated? || c.request.state.PolicyEvaluated? || c.request.state.ApprovalRequired?
    ensures Advances(c, EvaluateTrail(w, c, b))
  {
    var t := DecideTrail(w, c, b);
    var d := After(c, t);
    DecideAdvances(w, c, b);
    if b.evaluation.decision == RequireApproval {
      AppendExtends(w, d, TraceStore.ApprovalRequested, EvaluatedBody(d.request, b));
    } else if b.evaluation.decision != Allow {
      HandleBlockedAdvances(w, d, b);
    }
    AdvancesConcat(c, t, FollowUpTrail(w, d, b));
  }

  lemma RunToolsAdvances(w: World, c: Case, x: Running)
    requires c.request.state.Allowed? || c.request.state.Approved?
    ensures Advances(c, RunToolsTrail(w, c, x))
  {
  }

  lemma RecordExecutionAdvances(w: World, c: Case, x: Running)
    requires c.request.state.Executing?
    ensures Advances(c, RecordExecutionTrail(w, c, x))
  {
  }

  lemma IssueReceiptAdvances(c: Case, receipt: Receipts.Receipt, key: Option<string>)
    requires c.replies == map[]
    ensures Advances(c, IssueReceiptTrail(c, receipt, key))
  {
  }

  lemma ExecuteAllowedAdvances(w: World, c: Case, x: Running)
    requires c.request.state.Allowed? || c.request.state.Approved?
    requires c.replies == map[]
    ensures Advances(c, ExecuteAllowedTrail(w, c, x))
  {
    var t1 := RunToolsTrail(w, c, x);
    RunToolsAdvances(w, c, x);
    var c1 := After(c, t1);
    var t2 := RecordExecutionTrail(w, c1, x);
    RecordExecutionAdvances(w, c1, x);
    var c2 := After(c1, t2);
    var t3 := IssueReceiptTrail(c2, IssuedReceipt(c2, x), x.key);
    IssueReceiptAdvances(c2, IssuedReceipt(c2, x), x.key);
    AdvancesConcat(c1, t2, t3);
    AdvancesConcat(c, t1, t2 + t3);
  }

  lemma ExecuteBlockedAdvances(w: World, c: Case, s: RequestState, b: Blocking)
    requires c.request.state.Allowed? || c.request.state.Approved?
    requires Blockable(s)
    ensures Advances(c, [c, WithState(c, s)] + HandleBlockedTrail(w, WithState(c, s), b))
  {
    HandleBlockedAdvances(w, WithState(c, s), b);
    StateExtends(c, s);
    StartsWith(c, WithState(c, s), HandleBlockedTrail(w, WithState(c, s), b));
  }

  lemma StartsWith(c: Case, c1: Case, t: seq<Case>)
    requires Extends(c, c1) && Advances(c1, t)
    ensures Advances(c, t) && Advances(c, [c, c1] + t)
  {
    forall i | 0 <= i < |t| { ExtendsTransitive(c, c1, t[i]); }
  }

  lemma ExecuteTrailAdvances(w: World, c: Case, x: Running, b: Blocking)
    requires c.request.state.Allowed? || c.request.state.Approved?
    requires c.replies == map[]
    ensures Advances(c, ExecuteTrail(w, c, x, b))
  {
    var c1 := c.(evaluations := c.evaluations + [b.evaluation]);
    if b.evaluation.decision == Allow {
      ExecuteAllowedAdvances(w, c1, x);
    } else {
      ExecuteBlockedAdvances(w, c1, RefusedState(b.evaluation.decision), b);
    }
    StartsWith(c, c1, ExecuteTrail(w, c, x, b));
  }

  lemma ExecuteAdvances(w: World, c: Case, actors: Actors, key: Option<string>, now: Time, draws: Draws)
    requires c.request.state.Allowed? || c.request.state.Approved? ==> c.replies == map[]
    ensures Advances(c, Execute(w, c, actors, key, now, draws).trail)
  {
    if !(HasKey(key) && key.value in c.replies) && c.request.state in {Allowed, Approved}
       && c.plan.Some? && actors.policy.Some? {
      var policy, row := actors.policy.value, c.plan.value;
      var ctx := ExecutionContext(w, c, actors, policy, row, now, key);
      ExecuteTrailAdvances(w, c, ExecutingOf(w, c, policy, row, EvaluationOf(ctx), now, key, draws),
                           Blocking(Some(policy), row.payload, EvaluationOf(ctx), ctx.security, now, draws));
    }
  }

  lemma EvaluateAdvances(w: World, c: Case, actors: Actors, now: Time, draws: Draws)
    ensures Advances(c, EvaluateRequest(w, c, actors, now, draws).trail)
  {
    if c.request.state in {PlanCreated, PolicyEvaluated, ApprovalRequired} && c.plan.Some? && actors.policy.Some? {
      var ctx := EvaluationContext(w, c, actors, actors.policy.value, c.plan.value, now);
      EvaluateTrailAdvances(w, c,
                            Blocking(actors.policy, c.plan.value.payload, EvaluationOf(ctx), ctx.security, now, draws));
    }
  }

  // --- Where gateway runs come from ---------------------------------------------------

  predicate SameRuns(c: Case, trail: seq<Case>) {
    forall i | 0 <= i < |trail| :: trail[i].runs == c.runs
  }

  // At most this run is added.
  predicate AddsRun(c: Case, d: Case, run: GatewayRun) {
    d.runs == c.runs || d.runs == c.runs + [run]
  }

  predicate AllAddRun(c: Case, trail: seq<Case>, run: GatewayRun) {
    forall i | 0 <= i < |trail| :: AddsRun(c, trail[i], run)
  }

  lemma HandleBlockedSameRuns(w: World, c: Case, b: Blocking)
    ensures SameRuns(c, HandleBlockedTrail(w, c, b))
  {
    var c1 := After(c, BlockToolsTrail(w, c, b));
    assert SameRuns(c, BlockToolsTrail(w, c, b));
    assert SameRuns(c1, IncidentTrail(w, c1, b));
    var c2 := After(c1, IncidentTrail(w, c1, b));
    assert SameRuns(c2, CloseBlockedTrail(w, c2, b));
  }

  lemma EvaluateTrailSameRuns(w: World, c: Case, b: Blocking)
    ensures SameRuns(c, EvaluateTrail(w, c, b))
  {
    var d := After(c, DecideTrail(w, c, b));
    assert SameRuns(c, DecideTrail(w, c, b));
    HandleBlockedSameRuns(w, d, b);
  }

  lemma RunToolsAddsRun(w: World, c: Case, x: Running)
    ensures AllAddRun(c, RunToolsTrail(w, c, x), RunOf(x))
  {
  }

  lemma CloseExecutionSameRuns(w: World, c: Case, x: Running)
    ensures SameRuns(c, CloseExecutionTrail(w, c, x))
  {
    var c1 := After(c, RecordExecutionTrail(w, c, x));
    assert SameRuns(c, RecordExecutionTrail(w, c, x));
    assert SameRuns(c1, IssueReceiptTrail(c1, IssuedReceipt(c1, x), x.key));
  }

  lemma AddsRunConcat(c: Case, t1: seq<Case>, t2: seq<Case>, run: GatewayRun)
    requires AllAddRun(c, t1, run) && SameRuns(After(c, t1), t2)
    ensures AllAddRun(c, t1 + t2, run)
  {
  }

  lemma ExecuteTrailAddsRun(w: World, c: Case, x: Running, b: Blocking)
    ensures AllAddRun(c, ExecuteTrail(w, c, x, b), RunOf(x))
    ensures b.evaluation.decision != Allow ==> SameRuns(c, ExecuteTrail(w, c, x, b))
  {
    var c1 := c.(evaluations := c.evaluations + [b.evaluation]);
    if b.evaluation.decision == Allow {
      RunToolsAddsRun(w, c1, x);
      var t := RunToolsTrail(w, c1, x);
      CloseExecutionSameRuns(w, After(c1, t), x);
      AddsRunConcat(c1, t, CloseExecutionTrail(w, After(c1, t), x), RunOf(x));
    } else {
      HandleBlockedSameRuns(w, WithState(c1, RefusedState(b.evaluation.decision)), b);
    }
  }

  // The run that an execution of this plan makes.
  function ExpectedRun(w: World, c: Case, actors: Actors, policy: Policy, row: PlanRow, key: Option<string>, now: Time,
                       draws: Draws): GatewayRun {
    var ctx := ExecutionContext(w, c, actors, policy, row, now, key);
    RunOf(ExecutingOf(w, c, policy, row, EvaluationOf(ctx), now, key, draws))
  }

  lemma GatedExecuteAddsRun(w: World, c: Case, actors: Actors, policy: Policy, row: PlanRow, key: Option<string>,
                            now: Time, draws: Draws)
    ensures var t := GatedExecuteTrail(w, c, actors, policy, row, key, now, draws);
            && AllAddRun(c, t, ExpectedRun(w, c, actors, policy, row, key, now, draws))
            && (DecisionOf(ExecutionContext(w, c, actors, policy, row, now, key)) != Allow ==> SameRuns(c, t))
  {
    var ctx := ExecutionContext(w, c, actors, policy, row, now, key);
    ExecuteTrailAddsRun(w, c, ExecutingOf(w, c, policy, row, EvaluationOf(ctx), now, key, draws),
                        Blocking(Some(policy), row.payload, EvaluationOf(ctx), ctx.security, now, draws));
  }

  // An execution writes nothing, or the trail of a call that reaches the gate.
  lemma ExecuteTrailIs(w: World, c: Case, actors: Actors, key: Option<string>, now: Time, draws: Draws)
    ensures var t := Execute(w, c, actors, key, now, draws).trail;
            t == [] || (c.plan.Some? && actors.policy.Some? &&
                        t == GatedExecuteTrail(w, c, actors, actors.policy.value, c.plan.value, key, now, draws))
  {
  }
}
