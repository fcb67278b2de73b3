// What a call to execute comes to, exactly, when nobody rewrites the stored plan.
module Outcomes {
  import opened Wrappers
  import opened Domain
  import opened PolicyRules
  import opened PolicyEngine
  import opened Lifecycle
  import opened CaseSafety
  import opened GateStability
  import opened Rows
  import Json
  import Receipts
  import Gateway

  // What is recorded for a decision on a plan.
  function StatusFor(d: Decision, plan: ActionPlan): ExecutionStatus {
    if d != Allow then NoExecution else if Submits(plan) then Submitted else ExecutionFailedSafe
  }

  // The call is past its guards.
  predicate Ready(c: Case, actors: Actors) {
    (c.request.state.Allowed? || c.request.state.Approved?) && HasPlan(c, actors)
  }

  function ExecutionDecision(w: World, c: Case, actors: Actors, key: Option<string>, now: Time): Decision
    requires HasPlan(c, actors)
  {
    DecisionOf(ExecutionContext(w, c, actors, actors.policy.value, c.plan.value, now, key))
  }

  lemma ExecutedStatus(w: World, c: Case, actors: Actors, key: Option<string>, now: Time, draws: Draws)
    requires HasPlan(c, actors)
    ensures var policy, row := actors.policy.value, c.plan.value;
            var ctx := ExecutionContext(w, c, actors, policy, row, now, key);
            StatusIn(ExecutingOf(w, c, policy, row, EvaluationOf(ctx), now, key, draws), DecisionOf(ctx)) ==
            StatusFor(DecisionOf(ctx), row.payload)
  {
    var ctx := ExecutionContext(w, c, actors, actors.policy.value, c.plan.value, now, key);
    if DecisionOf(ctx) == Allow {
      Gateway.GateAllowsSoGatewayRuns(ctx, w.profiles);
    }
  }

  // Every commit of a gated call, and the last one in full.
  lemma GatedExecuteRows(w: World, c: Case, actors: Actors, key: Option<string>, now: Time, draws: Draws)
    requires NoOutcome(c) && HasPlan(c, actors)
    ensures var t := GatedExecuteTrail(w, c, actors, actors.policy.value, c.plan.value, key, now, draws);
            var decision := ExecutionDecision(w, c, actors, key, now);
            && AnswersOnly(t, decision)
            && ClosedBy(After(c, t), decision, StatusFor(decision, c.plan.value.payload))
            && (decision != Allow ==> After(c, t).replies == c.replies)
  {
    var policy, row := actors.policy.value, c.plan.value;
    var ctx := ExecutionContext(w, c, actors, policy, row, now, key);
    ExecutedStatus(w, c, actors, key, now, draws);
    ExecuteTrailRows(w, c, ExecutingOf(w, c, policy, row, EvaluationOf(ctx), now, key, draws),
                     Blocking(Some(policy), row.payload, EvaluationOf(ctx), ctx.security, now, draws));
  }

  lemma ExecuteIsGated(w: World, c: Case, actors: Actors, key: Option<string>, now: Time, draws: Draws)
    requires Ready(c, actors) && c.replies == map[]
    ensures Execute(w, c, actors, key, now, draws) ==
            GatedExecute(w, c, actors, actors.policy.value, c.plan.value, key, now, draws)
  {
  }

  // The request is closed with this receipt, and the rows behind it agree with the decision.
  predicate ClosedWith(d: Case, receipt: Receipts.Receipt, decision: Decision, plan: ActionPlan) {
    d.receipts == [receipt] && ClosedBy(d, decision, StatusFor(decision, plan))
  }

  // The receipt that a call past its guards returns, and the rows behind it.
  lemma ExecutionReports(w: World, c: Case, actors: Actors, key: Option<string>, now: Time, draws: Draws)
    requires NoOutcome(c) && Ready(c, actors)
    ensures var o := GatedExecute(w, c, actors, actors.policy.value, c.plan.value, key, now, draws);
            && o.result.Ok?
            && ClosedWith(After(c, o.trail), o.result.value, ExecutionDecision(w, c, actors, key, now),
                          c.plan.value.payload)
  {
    GatedExecuteRows(w, c, actors, key, now, draws);
  }

  lemma ReadyIsUntouched(w: World, c: Case, actors: Actors)
    requires Safe(w, c) && Ready(c, actors)
    ensures NoOutcome(c) && c.replies == map[]
  {
  }

  // The same of the whole call, from any committed state.
  lemma ReadyExecutionReports(w: World, c: Case, actors: Actors, key: Option<string>, now: Time, draws: Draws)
    requires Safe(w, c) && Ready(c, actors)
    ensures var o := Execute(w, c, actors, key, now, draws);
            && o.result.Ok?
            && ClosedWith(After(c, o.trail), o.result.value, ExecutionDecision(w, c, actors, key, now),
                          c.plan.value.payload)
  {
    ReadyIsUntouched(w, c, actors);
    ExecuteIsGated(w, c, actors, key, now, draws);
    ExecutionReports(w, c, actors, key, now, draws);
  }

  // The decision that an unrewritten plan meets on execution.
  function ExpectedDecision(c: Case, policy: Policy, key: Option<string>, now: Time): Decision
    requires c.request.state == Approved ==> |c.grants| == 1
  {
    if c.request.state == Approved && ApprovalExpired(c, now) then Quarantine
    else if !DelegationUsable(policy, now) || !HasKey(key) then Deny
    else Allow
  }

  lemma ExpectedIsMet(w: World, c: Case, actors: Actors, key: Option<string>, now: Time)
    requires Safe(w, c) && Gated(w, c, actors) && Loaded(c, actors)
    requires c.request.state.Allowed? || c.request.state.Approved?
    ensures Ready(c, actors)
    ensures c.request.state.Approved? ==> Submits(c.plan.value.payload)
    ensures ExecutionDecision(w, c, actors, key, now) == ExpectedDecision(c, actors.policy.value, key, now)
  {
    if c.request.state == Approved {
      ApprovedExecutionDecision(w, c, actors, key, now);
    } else {
      AllowedExecutionDecision(w, c, actors, key, now);
    }
  }

  // From Approved and from Allowed, in any committed state, the decision, the receipt and
  // the execution are fixed by the approval's age, the delegation's status and window, and
  // the key. The receipt does not await approval, and an approved plan that is allowed is
  // submitted.
  lemma ExecutionOutcome(w: World, c: Case, actors: Actors, key: Option<string>, now: Time, draws: Draws)
    requires Safe(w, c) && Gated(w, c, actors) && Loaded(c, actors)
    requires c.request.state.Allowed? || c.request.state.Approved?
    ensures Ready(c, actors)
    ensures c.request.state.Approved? ==> Submits(c.plan.value.payload)
    ensures var o := Execute(w, c, actors, key, now, draws);
            && o.result.Ok?
            && o.result.value.status != Receipts.AwaitingApproval
            && ClosedWith(After(c, o.trail), o.result.value,
                          ExpectedDecision(c, actors.policy.value, key, now), c.plan.value.payload)
  {
    ExpectedIsMet(w, c, actors, key, now);
    ReadyExecutionReports(w, c, actors, key, now, draws);
  }

  // --- Replies ------------------------------------------------------------------------

  lemma IssueStoresReply(c: Case, receipt: Receipts.Receipt, key: Option<string>)
    requires HasKey(key)
    ensures var d := After(c, IssueReceiptTrail(c, receipt, key));
            key.value in d.replies && |d.receipts| > 0 && d.replies[key.value] == LastReceipt(d)
  {
  }

  lemma ExecuteTrailStoresReply(w: World, c: Case, x: Running, b: Blocking)
    requires b.evaluation.decision == Allow && HasKey(x.key)
    ensures var d := After(c, ExecuteTrail(w, c, x, b));
            x.key.value in d.replies && |d.receipts| > 0 && d.replies[x.key.value] == LastReceipt(d)
  {
    var c1 := c.(evaluations := c.evaluations + [b.evaluation]);
    var c2 := After(c1, RunToolsTrail(w, c1, x));
    var c3 := After(c2, RecordExecutionTrail(w, c2, x));
    IssueStoresReply(c3, IssuedReceipt(c3, x), x.key);
  }

  // An execution that the gate allows stores the receipt it returns, under its key.
  lemma AllowedExecutionStoresReply(w: World, c: Case, actors: Actors, key: Option<string>, now: Time, draws: Draws)
    requires Ready(c, actors) && ExecutionDecision(w, c, actors, key, now) == Allow
    ensures HasKey(key)
    ensures var o := GatedExecute(w, c, actors, actors.policy.value, c.plan.value, key, now, draws);
            && o.result.Ok? && key.value in After(c, o.trail).replies
            && After(c, o.trail).replies[key.value] == o.result.value
  {
    var policy, row := actors.policy.value, c.plan.value;
    var ctx := ExecutionContext(w, c, actors, policy, row, now, key);
    MildDecisionMeansPass(ctx);
    KeyRuleMeaning(ctx);
    ExecuteTrailStoresReply(w, c, ExecutingOf(w, c, policy, row, EvaluationOf(ctx), now, key, draws),
                            Blocking(Some(policy), row.payload, EvaluationOf(ctx), ctx.security, now, draws));
  }

  lemma ExecuteStoresReply(w: World, c: Case, actors: Actors, key: Option<string>, now: Time, draws: Draws)
    requires Safe(w, c) && Ready(c, actors) && ExecutionDecision(w, c, actors, key, now) == Allow
    ensures HasKey(key)
    ensures var o := Execute(w, c, actors, key, now, draws);
            && o.result.Ok? && key.value in After(c, o.trail).replies
            && After(c, o.trail).replies[key.value] == o.result.value
  {
    ReadyIsUntouched(w, c, actors);
    AllowedExecutionStoresReply(w, c, actors, key, now, draws);
    ExecuteIsGated(w, c, actors, key, now, draws);
  }

  // An execution that the gate does not allow stores none.
  lemma RefusedExecutionStoresNoReply(w: World, c: Case, actors: Actors, key: Option<string>, now: Time, draws: Draws)
    requires Safe(w, c) && Ready(c, actors) && ExecutionDecision(w, c, actors, key, now) != Allow
    ensures var d := After(c, Execute(w, c, actors, key, now, draws).trail);
            d.replies == map[] && d.request.state == ReceiptIssued
  {
    ReadyIsUntouched(w, c, actors);
    ExecuteIsGated(w, c, actors, key, now, draws);
    GatedExecuteRows(w, c, actors, key, now, draws);
  }

  // --- Plans rewritten behind the gate's back -----------------------------------------

  // An approved request whose stored plan no longer has the approved hash is quarantined,
  // whatever else holds.
  lemma RewrittenPlanIsQuarantined(w: World, c: Case, actors: Actors, key: Option<string>, now: Time)
    requires Safe(w, c) && Loaded(c, actors) && HasPlan(c, actors) && |c.grants| == 1
    requires w.planHash(c.grants[0].payload) != c.plan.value.planHash
    ensures ExecutionDecision(w, c, actors, key, now) == Quarantine
  {
    var ctx := ExecutionContext(w, c, actors, actors.policy.value, c.plan.value, now, key);
    GrantIsLatest(w, c);
    BindingRuleMeaning(ctx);
    IntegrityFailureQuarantines(ctx);
  }

  lemma IntegrityFailureQuarantines(ctx: Context)
    requires ctx.policy.Some? && Fails(ApprovalBindsCurrentPlan, ctx)
    ensures DecisionOf(ctx) == Quarantine
  {
    DecisionIsJoin(ctx);
    assert SomeEffect(FailedAmong(AllRules(), ctx), Quarantine);
  }

  // The replay scenario: approve, rewrite the plan, execute. Unless the new plan has the
  // approved hash, the receipt says QUARANTINE and nothing is executed.
  lemma ApprovalReplayIsBlocked(w: World, c: Case, actors: Actors, plan: ActionPlan, key: Option<string>, now: Time,
                                draws: Draws)
    requires Safe(w, c) && Loaded(c, actors) && HasPlan(c, actors)
    requires c.request.state.Approved? && w.planHash(plan) != w.planHash(c.grants[0].payload)
    ensures var c' := After(c, RewritePlan(w, c, plan));
            var o := Execute(w, c', actors, key, now, draws);
            o.result.Ok? && ClosedWith(After(c', o.trail), o.result.value, Quarantine, plan)
  {
    var c' := After(c, RewritePlan(w, c, plan));
    RewriteSafe(w, c, plan);
    RewrittenPlanIsQuarantined(w, c', actors, key, now);
    ReadyExecutionReports(w, c', actors, key, now, draws);
  }

  // --- When the gate asks for an approval on execution --------------------------------

  // What holds an execution back: a request that was allowed, whose stored plan passes all
  // else but needs an approval that nobody gave.
  ghost predicate HeldBack(w: World, c: Case, actors: Actors, key: Option<string>, now: Time) {
    && c.request.state.Allowed? && Passed(w, c, actors)
    && DelegationUsable(actors.policy.value, now) && HasKey(key)
    && NeedsApproval(actors.policy.value, c.plan.value.payload)
  }

  // Exactly then the decision of an execution is REQUIRE_APPROVAL.
  lemma HeldOnExecution(w: World, c: Case, actors: Actors, key: Option<string>, now: Time)
    requires Safe(w, c) && Ready(c, actors) && Loaded(c, actors)
    ensures ExecutionDecision(w, c, actors, key, now) == RequireApproval <==> HeldBack(w, c, actors, key, now)
  {
    var ctx := ExecutionContext(w, c, actors, actors.policy.value, c.plan.value, now, key);
    StaticsAgree(ctx, GateContext(w, c, actors, 0));
    GrantIsLatest(w, c);
    if c.request.state.Allowed? {
      HeldWithoutApproval(ctx);
    } else {
      NeverHeldWithApproval(ctx);
    }
  }

  lemma HeldWithoutApproval(ctx: Context)
    requires ctx.policy.Some? && ctx.approval.None? && ctx.isExecution
    ensures DecisionOf(ctx) == RequireApproval <==>
            && StaticRulesPass(ctx)
            && DelegationUsable(ctx.policy.value, ctx.now) && HasKey(ctx.idempotencyKey)
            && NeedsApproval(ctx.policy.value, ctx.plan)
  {
    DelegationRuleMeaning(ctx);
    ApprovalRuleMeaning(ctx);
    BindingRuleMeaning(ctx);
    KeyRuleMeaning(ctx);
    if DecisionOf(ctx) == RequireApproval {
      MildDecisionMeansPass(ctx);
    }
    if StaticRulesPass(ctx) {
      DecisionWhenStaticPass(ctx);
    }
  }

  // A granted approval is in force, or the plan is quarantined for it.
  lemma NeverHeldWithApproval(ctx: Context)
    requires ctx.policy.Some? && ctx.approval.Some? && ctx.approval.value.status == Granted
    ensures DecisionOf(ctx) != RequireApproval
  {
    if DecisionOf(ctx) == RequireApproval {
      MildDecisionMeansPass(ctx);
      ApprovalRuleMeaning(ctx);
      BindingRuleMeaning(ctx);
    }
  }

  // --- What a receipt shows ------------------------------------------------------------

  // The gateway's outcome, if any, is a dict that says SUBMITTED.
  ghost predicate SaysWhatRan(outcome: Option<Json.Fields>) {
    outcome.Some? ==>
      Json.DistinctKeys(outcome.value) && Json.Get(outcome.value, "status") == Some(Json.Str("SUBMITTED"))
  }

  lemma GatewaySaysWhatRan(w: World, calls: seq<ProposedToolCall>, allowedTools: seq<string>)
    ensures SaysWhatRan(Gateway.OutcomeOf(Gateway.Attempts(w.profiles, calls, allowedTools)))
  {
    Gateway.OutcomeMeaning(Gateway.Attempts(w.profiles, calls, allowedTools));
    Gateway.OutcomeIsWellFormed(w.profiles, calls, allowedTools);
  }

  // The status that a receipt shows of an execution.
  predicate Shows(r: Receipts.Receipt, status: string) {
    r.actualOutcome.Some? && Json.Get(r.actualOutcome.value, "status") == Some(Json.Str(status))
  }

  lemma IssuedShows(c: Case, x: Running)
    requires SaysWhatRan(x.outcome)
    ensures Shows(IssuedReceipt(c, x), if x.outcome.Some? then "SUBMITTED" else "NO_EXECUTION")
  {
    Receipts.EvidenceMeaning(IssuedReceipt(c, x), ExecutionRow(x));
  }

  // The outcome overwrites the status of the execution row: a receipt with status FAILED_SAFE
  // shows NO_EXECUTION as what happened.
  lemma ShownStatus(w: World, c: Case, policy: Policy, row: PlanRow, evaluation: Evaluation, now: Time,
                    key: Option<string>, draws: Draws)
    requires evaluation.decision == Allow
    ensures var x := ExecutingOf(w, c, policy, row, evaluation, now, key, draws);
            var r := IssuedReceipt(c, x);
            if x.outcome.Some? then r.status == Receipts.Completed && Shows(r, "SUBMITTED")
            else r.status == Receipts.FailedSafely && Shows(r, "NO_EXECUTION")
  {
    GatewaySaysWhatRan(w, row.payload.proposedToolCalls, policy.allowedTools);
    IssuedShows(c, ExecutingOf(w, c, policy, row, evaluation, now, key, draws));
  }
}
