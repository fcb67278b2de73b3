// The twenty ordered policy rules (app/domain/policy/rules.py).
module PolicyRules {
  import opened Wrappers
  import opened Domain
  import opened Detectors
  import opened Tools

  // Everything a rule may read (app/domain/policy/context.py).
  datatype Context = Context(
    principal: Option<Principal>,
    agent: Option<Agent>,
    policy: Option<Policy>,
    plan: ActionPlan,
    planHash: string,
    request: Request,
    now: Time,
    security: Signals,
    approval: Option<Approval>,
    idempotencyKey: Option<string>,
    isExecution: bool)

  datatype RuleId =
    | PrincipalIdentityValid | AgentActiveAndRegistered | DelegationActive
    | PurposeMatch | ActionTypeAllowed | InstitutionAllowed | ProductAllowed | AmountWithinLimit
    | CounterpartyAllowed | DataAccessAllowed | ToolAllowed | ToolArgumentsSchemaValid
    | UntrustedInstructionBoundaryIntact | PromptInjectionNotDetected | SensitiveDataExfiltrationNotDetected
    | PlanMatchesUserIntent | RiskThreshold
    | HumanApprovalRequirement | ApprovalBindsCurrentPlan | ExecutionIdempotencyKeyValid

  datatype Category =
    | IdentityCategory | ScopeCategory | SecurityCategory | IntegrityCategory
    | ApprovalCategory | RiskCategory | IdempotencyCategory

  datatype RuleStatus = Pass | Fail | NotApplicable

  datatype Severity = Low | Medium | High | Critical

  datatype RuleResult = RuleResult(ruleId: RuleId, status: RuleStatus, severity: Severity)

  function Ok(rule: RuleId): RuleResult { RuleResult(rule, Pass, Low) }

  function Na(rule: RuleId): RuleResult { RuleResult(rule, NotApplicable, Low) }

  function Failed(rule: RuleId, severity: Severity): RuleResult { RuleResult(rule, Fail, severity) }

  function Require(rule: RuleId, condition: bool, severity: Severity): RuleResult {
    if condition then Ok(rule) else Failed(rule, severity)
  }

  // --- What the rules compare ---------------------------------------------------------

  predicate WithinWindow(policy: Policy, now: Time) {
    policy.validFrom <= now <= policy.validUntil
  }

  predicate DelegationUsable(policy: Policy, now: Time) {
    policy.status == "ACTIVE" && WithinWindow(policy, now)
  }

  predicate ToolsAllowlisted(policy: Policy, plan: ActionPlan) {
    forall i | 0 <= i < |plan.proposedToolCalls| :: plan.proposedToolCalls[i].tool in policy.allowedTools
  }

  predicate DataAllowed(policy: Policy, plan: ActionPlan) {
    forall i | 0 <= i < |plan.requiredData| :: plan.requiredData[i].dataClass in policy.allowedDataClasses
  }

  predicate Submits(plan: ActionPlan) {
    exists i | 0 <= i < |plan.proposedToolCalls| :: plan.proposedToolCalls[i].tool == SUBMIT
  }

  // The policy reserves submission for a human, and the plan submits.
  predicate NeedsApproval(policy: Policy, plan: ActionPlan) {
    policy.submitRequiresHuman && Submits(plan)
  }

  predicate Binds(approval: Approval, planHash: string, policy: Policy) {
    approval.approvedPlanHash == planHash && approval.policyVersion == policy.version
  }

  predicate HasExpired(approval: Approval, now: Time) {
    approval.expiresAt.Some? && now > approval.expiresAt.value
  }

  function CallErrors(call: ProposedToolCall): seq<SchemaError> {
    match SchemaOf(call.tool)
    case None => [NoSchema(call.tool)]
    case Some(schema) => SchemaErrors(schema, call.arguments)
  }

  function Flatten<T>(lists: seq<seq<T>>): seq<T> {
    if |lists| == 0 then [] else Flatten(lists[..|lists| - 1]) + lists[|lists| - 1]
  }

  lemma {:induction false} FlattenEmpty<T>(lists: seq<seq<T>>)
    ensures Flatten(lists) == [] <==> forall i :: 0 <= i < |lists| ==> lists[i] == []
  {
    if |lists| > 0 {
      FlattenEmpty(lists[..|lists| - 1]);
    }
  }

  function ErrorLists(calls: seq<ProposedToolCall>): (r: seq<seq<SchemaError>>)
    ensures |r| == |calls| && forall i :: 0 <= i < |calls| ==> r[i] == CallErrors(calls[i])
  {
    seq(|calls|, i requires 0 <= i < |calls| => CallErrors(calls[i]))
  }

  // The call names a registered tool and meets its contract.
  ghost predicate MeetsContract(call: ProposedToolCall) {
    SchemaOf(call.tool).Some? && Conforms(SchemaOf(call.tool).value, call.arguments)
  }

  // The validator reports nothing exactly for such calls.
  lemma CallConforms(call: ProposedToolCall)
    ensures CallErrors(call) == [] <==> MeetsContract(call)
  {
    if SchemaOf(call.tool).Some? {
      NoErrorsIffConforms(SchemaOf(call.tool).value, call.arguments);
    }
  }

  ghost predicate CallsConform(calls: seq<ProposedToolCall>) {
    forall i | 0 <= i < |calls| :: MeetsContract(calls[i])
  }

  lemma NoErrorsMeansConforming(calls: seq<ProposedToolCall>)
    ensures Flatten(ErrorLists(calls)) == [] <==> CallsConform(calls)
  {
    var lists := ErrorLists(calls);
    FlattenEmpty(lists);
    forall i | 0 <= i < |calls|
      ensures lists[i] == [] <==> MeetsContract(calls[i])
    {
      CallConforms(calls[i]);
    }
  }

  predicate ArgumentsValid(plan: ActionPlan) {
    Flatten(ErrorLists(plan.proposedToolCalls)) == []
  }

  lemma ArgumentsValidMeaning(plan: ActionPlan)
    ensures ArgumentsValid(plan) <==> CallsConform(plan.proposedToolCalls)
  {
    NoErrorsMeansConforming(plan.proposedToolCalls);
  }

  // tool_arguments_schema_valid collects errors call by call.
  method CollectArgumentErrors(calls: seq<ProposedToolCall>) returns (errors: seq<SchemaError>)
    ensures errors == Flatten(ErrorLists(calls))
    ensures errors == [] <==> CallsConform(calls)
  {
    errors := [];
    ghost var lists := ErrorLists(calls);
    var i := 0;
    while i < |calls|
      invariant 0 <= i <= |calls|
      invariant errors == Flatten(lists[..i])
    {
      assert lists[..i + 1][..i] == lists[..i];
      var call := calls[i];
      assert lists[i] == CallErrors(call);
      var schema := SchemaOf(call.tool);
      if schema.None? {
        errors := errors + [NoSchema(call.tool)];
      } else {
        errors := errors + SchemaErrors(schema.value, call.arguments);
      }
      i := i + 1;
    }
    assert lists[..i] == lists;
    NoErrorsMeansConforming(calls);
  }

  // --- The rules ----------------------------------------------------------------------

  // Rules 4 to 11, 16, 18 and 19 assert that the delegation was found.
  predicate AssertsPolicy(rule: RuleId) {
    match rule
    case PrincipalIdentityValid | AgentActiveAndRegistered | DelegationActive => false
    case ToolArgumentsSchemaValid => false
    case UntrustedInstructionBoundaryIntact | PromptInjectionNotDetected => false
    case SensitiveDataExfiltrationNotDetected | RiskThreshold | ExecutionIdempotencyKeyValid => false
    case _ => true
  }

  function DelegationRule(ctx: Context): RuleResult {
    match ctx.policy
    case None => Failed(DelegationActive, High)
    case Some(policy) => Require(DelegationActive, DelegationUsable(policy, ctx.now), High)
  }

  function ProductRule(policy: Policy, plan: ActionPlan): RuleResult {
    if |policy.allowedProducts| == 0 || plan.product.None? then Na(ProductAllowed)
    else Require(ProductAllowed, plan.product.value in policy.allowedProducts, High)
  }

  function AmountRule(policy: Policy, plan: ActionPlan): RuleResult {
    if plan.amount.None? || policy.amountLimit.None? then Na(AmountWithinLimit)
    else Require(AmountWithinLimit, AmountOf(plan.amount.value) <= AmountOf(policy.amountLimit.value), High)
  }

  function CounterpartyRule(policy: Policy, plan: ActionPlan): RuleResult {
    if policy.counterpartyMode.None? || policy.counterpartyMode.value == "NOT_APPLICABLE" then Na(CounterpartyAllowed)
    else if plan.counterparty.None? then Ok(CounterpartyAllowed)
    else Require(CounterpartyAllowed,
                 !(policy.counterpartyMode.value == "EXISTING_ONLY" && IsNew(plan.counterparty.value)), High)
  }

  function ApprovalRule(policy: Policy, ctx: Context): RuleResult {
    if !NeedsApproval(policy, ctx.plan) then Ok(HumanApprovalRequirement)
    else Require(HumanApprovalRequirement,
                 ctx.approval.Some? && ctx.approval.value.status == Granted
                 && Binds(ctx.approval.value, ctx.planHash, policy), Medium)
  }

  function BindingRule(policy: Policy, ctx: Context): RuleResult {
    match ctx.approval
    case None => Na(ApprovalBindsCurrentPlan)
    case Some(approval) =>
      if !Binds(approval, ctx.planHash, policy) then Failed(ApprovalBindsCurrentPlan, Critical)
      else Require(ApprovalBindsCurrentPlan, !HasExpired(approval, ctx.now), High)
  }

  function KeyRule(ctx: Context): RuleResult {
    if !ctx.isExecution then Na(ExecutionIdempotencyKeyValid)
    else Require(ExecutionIdempotencyKeyValid, ctx.idempotencyKey.Some? && ctx.idempotencyKey.value != "", Medium)
  }

  function PolicyRule(rule: RuleId, policy: Policy, ctx: Context): RuleResult
    requires AssertsPolicy(rule)
  {
    match rule
    case PurposeMatch =>
      Require(rule, policy.purpose != "" && ctx.plan.actionType in policy.allowedActionTypes, High)
    case ActionTypeAllowed => Require(rule, ctx.plan.actionType in policy.allowedActionTypes, High)
    case InstitutionAllowed => Require(rule, ctx.plan.institution in policy.allowedInstitutions, High)
    case ProductAllowed => ProductRule(policy, ctx.plan)
    case AmountWithinLimit => AmountRule(policy, ctx.plan)
    case CounterpartyAllowed => CounterpartyRule(policy, ctx.plan)
    case DataAccessAllowed => Require(rule, DataAllowed(policy, ctx.plan), High)
    case ToolAllowed => Require(rule, ToolsAllowlisted(policy, ctx.plan), High)
    case PlanMatchesUserIntent => Require(rule, ToolsAllowlisted(policy, ctx.plan), High)
    case HumanApprovalRequirement => ApprovalRule(policy, ctx)
    case ApprovalBindsCurrentPlan => BindingRule(policy, ctx)
  }

  function FreeRule(rule: RuleId, ctx: Context): RuleResult
    requires !AssertsPolicy(rule)
  {
    match rule
    case PrincipalIdentityValid => Require(rule, ctx.principal.Some?, High)
    case AgentActiveAndRegistered => Require(rule, ctx.agent.Some? && ctx.agent.value.status == "ACTIVE", High)
    case DelegationActive => DelegationRule(ctx)
    case ToolArgumentsSchemaValid => Require(rule, ArgumentsValid(ctx.plan), High)
    case UntrustedInstructionBoundaryIntact =>
      Require(rule, |ctx.security.attemptedUnauthorizedTools| == 0, Critical)
    case PromptInjectionNotDetected => Require(rule, !ctx.security.injectionDetected, Critical)
    case SensitiveDataExfiltrationNotDetected => Require(rule, !ctx.security.exfiltrationDetected, Critical)
    case RiskThreshold => Require(rule, !AnyCritical(ctx.security), Critical)
    case ExecutionIdempotencyKeyValid => KeyRule(ctx)
  }

  // None stands for the AssertionError of a rule that needs the delegation.
  function RunRule(rule: RuleId, ctx: Context): (r: Option<RuleResult>)
    ensures r.Some? ==> r.value.ruleId == rule
    ensures r.None? <==> AssertsPolicy(rule) && ctx.policy.None?
  {
    if !AssertsPolicy(rule) then Some(FreeRule(rule, ctx))
    else match ctx.policy
      case None => None
      case Some(policy) => Some(PolicyRule(rule, policy, ctx))
  }

  predicate Fails(rule: RuleId, ctx: Context) {
    var r := RunRule(rule, ctx);
    r.Some? && r.value.status == Fail
  }

  lemma ToolRuleMeaning(ctx: Context)
    requires ctx.policy.Some?
    ensures Fails(ToolAllowed, ctx) <==> !ToolsAllowlisted(ctx.policy.value, ctx.plan)
  {
  }

  lemma ArgumentRuleMeaning(ctx: Context)
    ensures Fails(ToolArgumentsSchemaValid, ctx) <==> !ArgumentsValid(ctx.plan)
  {
  }

  lemma DelegationRuleMeaning(ctx: Context)
    requires ctx.policy.Some?
    ensures Fails(DelegationActive, ctx) <==> !DelegationUsable(ctx.policy.value, ctx.now)
  {
  }

  lemma ApprovalRuleMeaning(ctx: Context)
    requires ctx.policy.Some?
    ensures Fails(HumanApprovalRequirement, ctx) <==>
            && NeedsApproval(ctx.policy.value, ctx.plan)
            && !(ctx.approval.Some? && ctx.approval.value.status == Granted
                 && Binds(ctx.approval.value, ctx.planHash, ctx.policy.value))
  {
  }

  lemma BindingRuleMeaning(ctx: Context)
    requires ctx.policy.Some?
    ensures Fails(ApprovalBindsCurrentPlan, ctx) <==>
            && ctx.approval.Some?
            && (!Binds(ctx.approval.value, ctx.planHash, ctx.policy.value) || HasExpired(ctx.approval.value, ctx.now))
  {
  }

  lemma KeyRuleMeaning(ctx: Context)
    ensures Fails(ExecutionIdempotencyKeyValid, ctx) <==>
            ctx.isExecution && !(ctx.idempotencyKey.Some? && ctx.idempotencyKey.value != "")
  {
  }

  datatype RuleEntry = RuleEntry(rule: RuleId, category: Category)

  // RULES: the pipeline, in order, with each rule's decision category.
  const RULES: seq<RuleEntry> := [
    RuleEntry(PrincipalIdentityValid, IdentityCategory),
    RuleEntry(AgentActiveAndRegistered, IdentityCategory),
    RuleEntry(DelegationActive, IdentityCategory),
    RuleEntry(PurposeMatch, ScopeCategory),
    RuleEntry(ActionTypeAllowed, ScopeCategory),
    RuleEntry(InstitutionAllowed, ScopeCategory),
    RuleEntry(ProductAllowed, ScopeCategory),
    RuleEntry(AmountWithinLimit, ScopeCategory),
    RuleEntry(CounterpartyAllowed, ScopeCategory),
    RuleEntry(DataAccessAllowed, ScopeCategory),
    RuleEntry(ToolAllowed, ScopeCategory),
    RuleEntry(ToolArgumentsSchemaValid, ScopeCategory),
    RuleEntry(UntrustedInstructionBoundaryIntact, SecurityCategory),
    RuleEntry(PromptInjectionNotDetected, SecurityCategory),
    RuleEntry(SensitiveDataExfiltrationNotDetected, SecurityCategory),
    RuleEntry(PlanMatchesUserIntent, ScopeCategory),
    RuleEntry(RiskThreshold, RiskCategory),
    RuleEntry(HumanApprovalRequirement, ApprovalCategory),
    RuleEntry(ApprovalBindsCurrentPlan, IntegrityCategory),
    RuleEntry(ExecutionIdempotencyKeyValid, IdempotencyCategory)
  ]

  // The category that the table gives a rule.
  function CategoryOf(rule: RuleId): Category {
    match rule
    case PrincipalIdentityValid | AgentActiveAndRegistered | DelegationActive => IdentityCategory
    case UntrustedInstructionBoundaryIntact | PromptInjectionNotDetected => SecurityCategory
    case SensitiveDataExfiltrationNotDetected => SecurityCategory
    case RiskThreshold => RiskCategory
    case HumanApprovalRequirement => ApprovalCategory
    case ApprovalBindsCurrentPlan => IntegrityCategory
    case ExecutionIdempotencyKeyValid => IdempotencyCategory
    case _ => ScopeCategory
  }

  // Every rule stands in the table exactly once, under its category.
  lemma TableEntry(i: nat)
    requires i < |RULES|
    ensures Position(RULES[i].rule) == i
    ensures RULES[i].category == CategoryOf(RULES[i].rule)
  {
  }

  lemma TablePosition(rule: RuleId)
    ensures RULES[Position(rule)].rule == rule
  {
  }

  function Position(rule: RuleId): (i: nat)
    ensures i < |RULES|
  {
    match rule
    case PrincipalIdentityValid => 0
    case AgentActiveAndRegistered => 1
    case DelegationActive => 2
    case PurposeMatch => 3
    case ActionTypeAllowed => 4
    case InstitutionAllowed => 5
    case ProductAllowed => 6
    case AmountWithinLimit => 7
    case CounterpartyAllowed => 8
    case DataAccessAllowed => 9
    case ToolAllowed => 10
    case ToolArgumentsSchemaValid => 11
    case UntrustedInstructionBoundaryIntact => 12
    case PromptInjectionNotDetected => 13
    case SensitiveDataExfiltrationNotDetected => 14
    case PlanMatchesUserIntent => 15
    case RiskThreshold => 16
    case HumanApprovalRequirement => 17
    case ApprovalBindsCurrentPlan => 18
    case ExecutionIdempotencyKeyValid => 19
  }
}
