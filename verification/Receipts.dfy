// Action receipts, derived from stored evidence (app/domain/receipt/builder.py).
module Receipts {
  import opened Wrappers
  import opened Json
  import opened Domain
  import opened PolicyRules
  import opened PolicyEngine
  import opened Verdicts
  import opened Risk
  import opened Evidence

  datatype ReceiptStatus = Completed | AwaitingApproval | Withheld | HeldInQuarantine | FailedSafely

  datatype Reason =
    | RuleFailed(rule: RuleId) | PolicyViolation
    | AllowedBankAndProduct | AllowedDataOnly | HumanApproved

  datatype ApprovalEvidence = ApprovalEvidence(status: ApprovalStatus, approvedPlanHash: string, approverId: string)

  datatype Receipt = Receipt(
    receiptId: string,
    traceId: string,
    status: ReceiptStatus,
    userRequest: string,
    agentPlan: Action,
    policyId: string,
    policyVersion: int,
    matched: bool,
    decision: Decision,
    riskLevel: RiskLevel,
    flags: seq<RuleId>,
    humanApproval: Option<ApprovalEvidence>,
    actualOutcome: Option<Fields>,
    dataUsed: seq<RequiredDatum>,
    toolsUsed: seq<ToolUse>,
    reasons: seq<Reason>,
    eventHash: string)

  // _status_and_headline
  function StatusOf(decision: Decision, execution: Option<Execution>): ReceiptStatus {
    if decision == Quarantine then HeldInQuarantine
    else if decision == Deny then Withheld
    else if execution.Some? && execution.value.status == ExecutionFailedSafe then FailedSafely
    else if execution.Some? && execution.value.status == Submitted then Completed
    else AwaitingApproval
  }

  function FailedReasons(results: seq<RuleResult>): seq<Reason> {
    if |results| == 0 then []
    else (if results[0].status == Fail then [RuleFailed(results[0].ruleId)] else []) + FailedReasons(results[1..])
  }

  function CriticalFlags(results: seq<RuleResult>): seq<RuleId> {
    if |results| == 0 then []
    else (if results[0].status == Fail && results[0].severity == Critical then [results[0].ruleId] else [])
         + CriticalFlags(results[1..])
  }

  function PassedReasons(approval: Option<Approval>): seq<Reason> {
    [AllowedBankAndProduct, AllowedDataOnly]
    + (if approval.Some? && approval.value.status == Granted then [HumanApproved] else [])
  }

  predicate InScope(decision: Decision) {
    decision == Allow || decision == RequireApproval
  }

  function ReasonsOf(evaluation: Evaluation, approval: Option<Approval>): seq<Reason> {
    if InScope(evaluation.decision) then PassedReasons(approval)
    else if FailedReasons(evaluation.results) != [] then FailedReasons(evaluation.results)
    else [PolicyViolation]
  }

  function ApprovalEvidenceOf(approval: Option<Approval>): Option<ApprovalEvidence> {
    match approval
    case None => None
    case Some(a) => Some(ApprovalEvidence(a.status, a.approvedPlanHash, a.approverId))
  }

  function ExecutionText(status: ExecutionStatus): string {
    match status
    case Submitted => "SUBMITTED"
    case NoExecution => "NO_EXECUTION"
    case ExecutionFailedSafe => "FAILED_SAFE"
  }

  // dict.__setitem__: a key that is there keeps its place.
  function Put(fields: Fields, entry: Field): Fields {
    if |fields| == 0 then [entry]
    else if fields[0].key == entry.key then [entry] + fields[1..]
    else [fields[0]] + Put(fields[1..], entry)
  }

  // {**fields, **more}
  function Merge(fields: Fields, more: Fields): Fields {
    if |more| == 0 then fields else Put(Merge(fields, more[..|more| - 1]), more[|more| - 1])
  }

  // What a receipt shows of an execution: its status, overwritten by its outcome.
  function OutcomeEvidenceOf(execution: Option<Execution>): Option<Fields> {
    match execution
    case None => None
    case Some(e) => Some(Merge([Field("status", Str(ExecutionText(e.status)))], e.outcome))
  }

  function UsesOf(rows: seq<ToolCall>): (r: seq<ToolUse>)
    ensures |r| == |rows|
  {
    seq(|rows|, i requires 0 <= i < |rows| => ToolUse(rows[i].tool, rows[i].status))
  }

  function ActionOf(plan: ActionPlan): Action {
    Action(plan.actionType, plan.institution)
  }

  function ReceiptOf(receiptId: string, request: Request, plan: ActionPlan, evaluation: Evaluation,
                     approval: Option<Approval>, execution: Option<Execution>,
                     toolCalls: seq<ToolCall>, eventHash: string): Receipt {
    Receipt(
      receiptId, request.traceId, StatusOf(evaluation.decision, execution), request.userRequest, ActionOf(plan),
      evaluation.policyId, evaluation.policyVersion, InScope(evaluation.decision), evaluation.decision,
      evaluation.riskLevel, CriticalFlags(evaluation.results), ApprovalEvidenceOf(approval),
      OutcomeEvidenceOf(execution), plan.requiredData, UsesOf(toolCalls), ReasonsOf(evaluation, approval), eventHash)
  }

  // build_receipt
  method BuildReceipt(receiptId: string, request: Request, plan: ActionPlan, evaluation: Evaluation,
                      approval: Option<Approval>, execution: Option<Execution>,
                      toolCalls: seq<ToolCall>, eventHash: string) returns (receipt: Receipt)
    ensures receipt == ReceiptOf(receiptId, request, plan, evaluation, approval, execution, toolCalls, eventHash)
  {
    var status := StatusOf(evaluation.decision, execution);
    var failedReasons := FailedReasons(evaluation.results);
    var passedReasons := [AllowedBankAndProduct, AllowedDataOnly];
    if approval.Some? && approval.value.status == Granted {
      passedReasons := passedReasons + [HumanApproved];
    }
    var reasons: seq<Reason>;
    if InScope(evaluation.decision) {
      reasons := passedReasons;
    } else {
      reasons := if failedReasons != [] then failedReasons else [PolicyViolation];
    }
    var humanApproval: Option<ApprovalEvidence> := None;
    if approval.Some? {
      humanApproval := Some(ApprovalEvidence(approval.value.status, approval.value.approvedPlanHash,
                                             approval.value.approverId));
    }
    var actualOutcome: Option<Fields> := None;
    if execution.Some? {
      var entry := Field("status", Str(ExecutionText(execution.value.status)));
      actualOutcome := Some(Merge([entry], execution.value.outcome));
    }
    receipt := Receipt(
      receiptId, request.traceId, status, request.userRequest, ActionOf(plan),
      evaluation.policyId, evaluation.policyVersion, InScope(evaluation.decision), evaluation.decision,
      evaluation.riskLevel, CriticalFlags(evaluation.results), humanApproval, actualOutcome,
      plan.requiredData, UsesOf(toolCalls), reasons, eventHash);
  }

  // ---------------------------------------------------------------------------------
  // What a receipt says
  // ---------------------------------------------------------------------------------

  // Some result says that the rule failed.
  predicate ReportsFailure(results: seq<RuleResult>, rule: RuleId) {
    exists i | 0 <= i < |results| :: results[i].ruleId == rule && results[i].status == Fail
  }

  lemma {:induction false} FailedReasonsMeaning(results: seq<RuleResult>)
    ensures forall reason :: reason in FailedReasons(results) <==>
                             reason.RuleFailed? && ReportsFailure(results, reason.rule)
  {
    if |results| > 0 {
      var rest := results[1..];
      FailedReasonsMeaning(rest);
      forall rule
        ensures ReportsFailure(results, rule) <==>
                (results[0].ruleId == rule && results[0].status == Fail) || ReportsFailure(rest, rule)
      {
        if ReportsFailure(rest, rule) {
          var i :| 0 <= i < |rest| && rest[i].ruleId == rule && rest[i].status == Fail;
          assert results[i + 1] == rest[i];
        }
        if i :| 0 < i < |results| && results[i].ruleId == rule && results[i].status == Fail {
          assert rest[i - 1] == results[i];
        }
      }
    }
  }

  lemma EvaluationReportsFailures(ctx: Context, rule: RuleId)
    requires ctx.policy.Some?
    ensures ReportsFailure(EvaluationOf(ctx).results, rule) <==> Fails(rule, ctx)
  {
    var results := ResultsOf(RuleOrder(), ctx);
    TablePosition(rule);
    assert results[Position(rule)] == RunRule(rule, ctx).value;
    forall i | 0 <= i < |results| {
      TableEntry(i);
    }
  }

  // A refusal names exactly the rules that failed, and there is always one to name: the
  // generic reason never appears. A receipt in scope names none.
  lemma ReasonsNameTheFailures(ctx: Context, approval: Option<Approval>)
    requires ctx.policy.Some?
    ensures var reasons := ReasonsOf(EvaluationOf(ctx), approval);
            && PolicyViolation !in reasons && |reasons| > 0
            && forall rule :: RuleFailed(rule) in reasons <==> !InScope(DecisionOf(ctx)) && Fails(rule, ctx)
  {
    FailedReasonsMeaning(EvaluationOf(ctx).results);
    forall rule: RuleId { EvaluationReportsFailures(ctx, rule); }
    if !InScope(DecisionOf(ctx)) {
      RefusalHasFailure(ctx);
    }
  }

  lemma SomeRuleFails(ctx: Context) returns (rule: RuleId)
    requires ctx.policy.Some? && !InScope(DecisionOf(ctx))
    ensures Fails(rule, ctx)
  {
    DecisionIsJoin(ctx);
    JoinIsMaximum(FailedAmong(AllRules(), ctx));
    rule :| rule in FailedAmong(AllRules(), ctx);
  }

  lemma RefusalHasFailure(ctx: Context)
    requires ctx.policy.Some? && !InScope(DecisionOf(ctx))
    ensures FailedReasons(EvaluationOf(ctx).results) != []
  {
    var rule := SomeRuleFails(ctx);
    var results := EvaluationOf(ctx).results;
    EvaluationReportsFailures(ctx, rule);
    FailedReasonsMeaning(results);
    assert RuleFailed(rule) in FailedReasons(results);
  }

  predicate ReportsCritical(results: seq<RuleResult>, rule: RuleId) {
    exists i | 0 <= i < |results| ::
      results[i].ruleId == rule && results[i].status == Fail && results[i].severity == Critical
  }

  lemma {:induction false} CriticalFlagsMeaning(results: seq<RuleResult>)
    ensures forall rule :: rule in CriticalFlags(results) <==> ReportsCritical(results, rule)
  {
    if |results| > 0 {
      var rest := results[1..];
      CriticalFlagsMeaning(rest);
      forall rule
        ensures ReportsCritical(results, rule) <==>
                || (results[0].ruleId == rule && results[0].status == Fail && results[0].severity == Critical)
                || ReportsCritical(rest, rule)
      {
        if ReportsCritical(rest, rule) {
          var i :| 0 <= i < |rest| && rest[i].ruleId == rule && rest[i].status == Fail && rest[i].severity == Critical;
          assert results[i + 1] == rest[i];
        }
        if i :| 0 < i < |results| && results[i].ruleId == rule && results[i].status == Fail
                && results[i].severity == Critical {
          assert rest[i - 1] == results[i];
        }
      }
    }
  }

  // The failures that are critical: what the detectors found, and an approval that is not
  // for this plan.
  predicate FailsCritically(rule: RuleId, ctx: Context)
    requires ctx.policy.Some?
  {
    match rule
    case UntrustedInstructionBoundaryIntact | PromptInjectionNotDetected
       | SensitiveDataExfiltrationNotDetected | RiskThreshold => Fails(rule, ctx)
    case ApprovalBindsCurrentPlan =>
      ctx.approval.Some? && !Binds(ctx.approval.value, ctx.planHash, ctx.policy.value)
    case _ => false
  }

  lemma CriticalResult(ctx: Context, rule: RuleId)
    requires ctx.policy.Some?
    ensures var r := RunRule(rule, ctx).value;
            r.status == Fail && r.severity == Critical <==> FailsCritically(rule, ctx)
  {
  }

  // The flags of a receipt are exactly the critical failures.
  lemma FlagsNameCriticalFailures(ctx: Context)
    requires ctx.policy.Some?
    ensures forall rule :: rule in CriticalFlags(EvaluationOf(ctx).results) <==> FailsCritically(rule, ctx)
  {
    var results := EvaluationOf(ctx).results;
    CriticalFlagsMeaning(results);
    forall rule: RuleId
      ensures ReportsCritical(results, rule) <==> FailsCritically(rule, ctx)
    {
      ReportsCriticalMeaning(ctx, rule);
    }
  }

  lemma ReportsCriticalMeaning(ctx: Context, rule: RuleId)
    requires ctx.policy.Some?
    ensures ReportsCritical(EvaluationOf(ctx).results, rule) <==> FailsCritically(rule, ctx)
  {
    var results := ResultsOf(RuleOrder(), ctx);
    TablePosition(rule);
    CriticalResult(ctx, rule);
    assert results[Position(rule)] == RunRule(rule, ctx).value;
    forall i | 0 <= i < |results| {
      TableEntry(i);
    }
  }

  // An approval for this plan that is too old.
  predicate TooOld(ctx: Context)
    requires ctx.policy.Some?
  {
    && ctx.approval.Some? && Binds(ctx.approval.value, ctx.planHash, ctx.policy.value)
    && HasExpired(ctx.approval.value, ctx.now)
  }

  predicate SomeCritical(ctx: Context)
    requires ctx.policy.Some?
  {
    || Fails(UntrustedInstructionBoundaryIntact, ctx) || Fails(PromptInjectionNotDetected, ctx)
    || Fails(SensitiveDataExfiltrationNotDetected, ctx) || FailsCritically(ApprovalBindsCurrentPlan, ctx)
  }

  // Rule 17 adds no occasion of its own.
  lemma CriticalMeansSome(ctx: Context, rule: RuleId)
    requires ctx.policy.Some?
    ensures FailsCritically(rule, ctx) ==> SomeCritical(ctx)
  {
    RiskFollowsSecurity(ctx);
  }

  lemma SomeIsCritical(ctx: Context) returns (rule: RuleId)
    requires ctx.policy.Some? && SomeCritical(ctx)
    ensures FailsCritically(rule, ctx)
  {
    rule := if Fails(UntrustedInstructionBoundaryIntact, ctx) then UntrustedInstructionBoundaryIntact
            else if Fails(PromptInjectionNotDetected, ctx) then PromptInjectionNotDetected
            else if Fails(SensitiveDataExfiltrationNotDetected, ctx) then SensitiveDataExfiltrationNotDetected
            else ApprovalBindsCurrentPlan;
  }

  lemma SomeFlagMeansCritical(ctx: Context, flags: seq<RuleId>)
    requires ctx.policy.Some? && forall rule :: rule in flags <==> FailsCritically(rule, ctx)
    ensures |flags| > 0 <==> SomeCritical(ctx)
  {
    if |flags| > 0 {
      assert flags[0] in flags;
      CriticalMeansSome(ctx, flags[0]);
    }
    if SomeCritical(ctx) {
      var rule := SomeIsCritical(ctx);
      assert rule in flags;
    }
  }

  // A quarantine shows on the receipt as a flag, unless the approval was merely too old.
  lemma FlagsTellQuarantine(ctx: Context)
    requires ctx.policy.Some?
    ensures DecisionOf(ctx) == Quarantine <==> |CriticalFlags(EvaluationOf(ctx).results)| > 0 || TooOld(ctx)
  {
    FlagsNameCriticalFailures(ctx);
    SomeFlagMeansCritical(ctx, CriticalFlags(EvaluationOf(ctx).results));
    QuarantineMeaning(ctx);
  }

  lemma QuarantineMeaning(ctx: Context)
    requires ctx.policy.Some?
    ensures DecisionOf(ctx) == Quarantine <==> SomeCritical(ctx) || TooOld(ctx)
  {
    var failed := FailedAmong(AllRules(), ctx);
    DecisionIsJoin(ctx);
    BindingRuleMeaning(ctx);
    JoinQuarantines(failed);
  }

  lemma JoinQuarantines(failed: set<RuleId>)
    ensures Join(failed) == Quarantine <==>
            || UntrustedInstructionBoundaryIntact in failed || PromptInjectionNotDetected in failed
            || SensitiveDataExfiltrationNotDetected in failed || ApprovalBindsCurrentPlan in failed
  {
    assert SomeEffect(failed, Quarantine) <==>
           || UntrustedInstructionBoundaryIntact in failed || PromptInjectionNotDetected in failed
           || SensitiveDataExfiltrationNotDetected in failed || ApprovalBindsCurrentPlan in failed;
  }

  lemma {:induction false} PutMeaning(fields: Fields, entry: Field, key: string)
    ensures Get(Put(fields, entry), key) == if key == entry.key then Some(entry.value) else Get(fields, key)
  {
    if |fields| > 0 && fields[0].key != entry.key {
      PutMeaning(fields[1..], entry, key);
    }
  }

  lemma {:induction false} LastEntry(fields: Fields, key: string)
    requires |fields| > 0 && DistinctKeys(fields)
    ensures var n := |fields| - 1;
            Get(fields, key) == if key == fields[n].key then Some(fields[n].value) else Get(fields[..n], key)
  {
    if |fields| > 1 {
      LastEntry(fields[1..], key);
      assert fields[1..][..|fields| - 2] == fields[..|fields| - 1][1..];
    }
  }

  // In a merged dict the later entries win.
  lemma {:induction false} MergeMeaning(fields: Fields, more: Fields, key: string)
    requires DistinctKeys(more)
    ensures Get(Merge(fields, more), key) == if key in Keys(more) then Get(more, key) else Get(fields, key)
  {
    if |more| > 0 {
      var front := more[..|more| - 1];
      MergeMeaning(fields, front, key);
      PutMeaning(Merge(fields, front), more[|more| - 1], key);
      LastEntry(more, key);
    }
  }

  // The receipt shows the outcome of the execution, and the status of its row only where the
  // outcome has none.
  ghost predicate ShowsOutcome(r: Receipt, e: Execution) {
    && r.actualOutcome.Some?
    && forall key :: Get(r.actualOutcome.value, key) ==
         if key in Keys(e.outcome) then Get(e.outcome, key)
         else if key == "status" then Some(Str(ExecutionText(e.status))) else None
  }

  lemma EvidenceMeaning(r: Receipt, e: Execution)
    requires r.actualOutcome == OutcomeEvidenceOf(Some(e)) && DistinctKeys(e.outcome)
    ensures ShowsOutcome(r, e)
  {
    var status := [Field("status", Str(ExecutionText(e.status)))];
    forall key
      ensures Get(Merge(status, e.outcome), key) ==
                if key in Keys(e.outcome) then Get(e.outcome, key) else Get(status, key)
    {
      MergeMeaning(status, e.outcome, key);
    }
  }

  predicate ShowsApproval(r: Receipt, a: Approval) {
    && r.humanApproval.Some? && r.humanApproval.value.status == a.status
    && r.humanApproval.value.approvedPlanHash == a.approvedPlanHash
    && r.humanApproval.value.approverId == a.approverId
  }

  // What the facts on a receipt mean: COMPLETED for a submitted execution in scope and for
  // nothing else, the given approval and execution exactly when there are any, and the flags
  // above.
  lemma ReceiptMeaning(receiptId: string, request: Request, plan: ActionPlan, ctx: Context,
                       approval: Option<Approval>, execution: Option<Execution>,
                       toolCalls: seq<ToolCall>, eventHash: string)
    requires ctx.policy.Some?
    requires execution.Some? ==> DistinctKeys(execution.value.outcome)
    ensures var r := ReceiptOf(receiptId, request, plan, EvaluationOf(ctx), approval, execution, toolCalls, eventHash);
            && (r.status == Completed <==> r.matched && execution.Some? && execution.value.status == Submitted)
            && (r.status == HeldInQuarantine <==> |r.flags| > 0 || TooOld(ctx))
            && (r.status == Withheld <==> !r.matched && r.flags == [] && !TooOld(ctx))
            && (r.status == FailedSafely <==>
                 r.matched && execution.Some? && execution.value.status == ExecutionFailedSafe)
            && (r.matched <==> forall rule :: RuleFailed(rule) !in r.reasons)
            && (r.matched <==> AllowedBankAndProduct in r.reasons) && (r.matched <==> AllowedDataOnly in r.reasons)
            && (HumanApproved in r.reasons <==> r.matched && approval.Some? && approval.value.status == Granted)
            && (if approval.Some? then ShowsApproval(r, approval.value) else r.humanApproval == None)
            && (if execution.Some? then ShowsOutcome(r, execution.value) else r.actualOutcome == None)
  {
    var r := ReceiptOf(receiptId, request, plan, EvaluationOf(ctx), approval, execution, toolCalls, eventHash);
    if execution.Some? {
      EvidenceMeaning(r, execution.value);
    }
    FlagsTellQuarantine(ctx);
    MatchedMeaning(ctx, approval);
  }

  // The facts that a receipt takes over: the request's words, the plan's action and data, the
  // tools that were called, the delegation it was judged under, and the risk as scored.
  lemma ReceiptCopies(receiptId: string, request: Request, plan: ActionPlan, ctx: Context,
                      approval: Option<Approval>, execution: Option<Execution>,
                      toolCalls: seq<ToolCall>, eventHash: string)
    requires ctx.policy.Some?
    ensures var r := ReceiptOf(receiptId, request, plan, EvaluationOf(ctx), approval, execution, toolCalls, eventHash);
            && r.receiptId == receiptId && r.eventHash == eventHash
            && r.traceId == request.traceId && r.userRequest == request.userRequest
            && r.agentPlan.actionType == plan.actionType && r.agentPlan.institution == plan.institution
            && r.dataUsed == plan.requiredData && |r.toolsUsed| == |toolCalls|
            && (forall i :: 0 <= i < |toolCalls| ==>
                 r.toolsUsed[i].name == toolCalls[i].tool && r.toolsUsed[i].status == toolCalls[i].status)
            && r.policyId == ctx.policy.value.policyId && r.policyVersion == ctx.policy.value.version
            && r.decision == DecisionOf(ctx) && r.riskLevel == Level(RiskScore(ctx, AwaitsHuman(ctx)))
  {
    ApprovalRequiredMeaning(ctx);
  }

  lemma MatchedMeaning(ctx: Context, approval: Option<Approval>)
    requires ctx.policy.Some?
    ensures var reasons := ReasonsOf(EvaluationOf(ctx), approval);
            && (InScope(DecisionOf(ctx)) <==> forall rule :: RuleFailed(rule) !in reasons)
            && (InScope(DecisionOf(ctx)) <==> AllowedBankAndProduct in reasons)
            && (InScope(DecisionOf(ctx)) <==> AllowedDataOnly in reasons)
            && (HumanApproved in reasons <==>
                 InScope(DecisionOf(ctx)) && approval.Some? && approval.value.status == Granted)
  {
    var evaluation := EvaluationOf(ctx);
    FailedReasonsMeaning(evaluation.results);
    if !InScope(DecisionOf(ctx)) {
      RefusalHasFailure(ctx);
      var first := FailedReasons(evaluation.results)[0];
      assert first in FailedReasons(evaluation.results);
    }
  }
}
