// What a decision of the gate says about the delegation, the plan, the actors and the
// document, without naming rules.
module Verdicts {
  import opened Wrappers
  import opened Domain
  import opened Detectors
  import opened PolicyRules
  import opened PolicyEngine
  import opened Risk
  import Tools

  // --- What the delegation permits ----------------------------------------------------

  predicate ProductPermitted(policy: Policy, plan: ActionPlan) {
    |policy.allowedProducts| > 0 && plan.product.Some? ==> plan.product.value in policy.allowedProducts
  }

  // A missing amount key counts as 0.
  function Requested(m: Money): int {
    if m.amount.Some? then m.amount.value else 0
  }

  predicate AmountPermitted(policy: Policy, plan: ActionPlan) {
    plan.amount.Some? && policy.amountLimit.Some? ==>
      Requested(plan.amount.value) <= Requested(policy.amountLimit.value)
  }

  predicate PartyPermitted(policy: Policy, plan: ActionPlan) {
    policy.counterpartyMode == Some("EXISTING_ONLY") && plan.counterparty.Some? ==>
      plan.counterparty.value.isNew != Some(true)
  }

  predicate DataPermitted(policy: Policy, plan: ActionPlan) {
    forall d | d in plan.requiredData :: d.dataClass in policy.allowedDataClasses
  }

  // Every call goes to an allowlisted, registered tool and meets that tool's contract.
  ghost predicate CallsPermitted(policy: Policy, plan: ActionPlan) {
    forall call | call in plan.proposedToolCalls ::
      && call.tool in policy.allowedTools
      && Tools.SchemaOf(call.tool).Some? && Tools.Conforms(Tools.SchemaOf(call.tool).value, call.arguments)
  }

  // The plan stays within the delegation.
  ghost predicate WithinDelegation(policy: Policy, plan: ActionPlan) {
    && policy.purpose != ""
    && plan.actionType in policy.allowedActionTypes
    && plan.institution in policy.allowedInstitutions
    && ProductPermitted(policy, plan) && AmountPermitted(policy, plan) && PartyPermitted(policy, plan)
    && DataPermitted(policy, plan) && CallsPermitted(policy, plan)
  }

  // --- What else must hold ------------------------------------------------------------

  predicate ActorsStand(ctx: Context) {
    ctx.principal.Some? && ctx.agent.Some? && ctx.agent.value.status == "ACTIVE"
  }

  predicate InForce(policy: Policy, now: Time) {
    policy.status == "ACTIVE" && policy.validFrom <= now && now <= policy.validUntil
  }

  // The document raised no signal.
  predicate Clean(s: Signals) {
    !s.injectionDetected && s.attemptedUnauthorizedTools == [] && !s.exfiltrationDetected
  }

  // An approval for this plan and this version that has not run out.
  predicate Holds(a: Approval, planHash: string, version: int, now: Time) {
    && a.approvedPlanHash == planHash && a.policyVersion == version
    && (a.expiresAt.Some? ==> now <= a.expiresAt.value)
  }

  // Nothing speaks for fraud: no signal, and no approval that is not for this plan.
  predicate Trusted(ctx: Context)
    requires ctx.policy.Some?
  {
    && Clean(ctx.security)
    && (ctx.approval.Some? ==> Holds(ctx.approval.value, ctx.planHash, ctx.policy.value.version, ctx.now))
  }

  predicate KeyGiven(ctx: Context) {
    ctx.isExecution ==> ctx.idempotencyKey.Some? && ctx.idempotencyKey.value != ""
  }

  ghost predicate Delegated(ctx: Context)
    requires ctx.policy.Some?
  {
    && WithinDelegation(ctx.policy.value, ctx.plan) && ActorsStand(ctx)
    && InForce(ctx.policy.value, ctx.now) && KeyGiven(ctx)
  }

  // A human must look first: the plan submits, the delegation asks for it, and nobody has
  // granted this plan under this version.
  predicate AwaitsHuman(ctx: Context)
    requires ctx.policy.Some?
  {
    && ctx.policy.value.submitRequiresHuman
    && (exists call | call in ctx.plan.proposedToolCalls :: call.tool == Tools.SUBMIT)
    && !(ctx.approval.Some? && ctx.approval.value.status == Granted
         && ctx.approval.value.approvedPlanHash == ctx.planHash
         && ctx.approval.value.policyVersion == ctx.policy.value.version)
  }

  ghost function Verdict(ctx: Context): Decision
    requires ctx.policy.Some?
  {
    if !Trusted(ctx) then Quarantine
    else if !Delegated(ctx) then Deny
    else if AwaitsHuman(ctx) then RequireApproval
    else Allow
  }

  // --- The rules, one by one ----------------------------------------------------------

  lemma IdentityRules(ctx: Context)
    requires ctx.policy.Some?
    ensures !Fails(PrincipalIdentityValid, ctx) && !Fails(AgentActiveAndRegistered, ctx) <==> ActorsStand(ctx)
    ensures !Fails(DelegationActive, ctx) <==> InForce(ctx.policy.value, ctx.now)
    ensures !Fails(ExecutionIdempotencyKeyValid, ctx) <==> KeyGiven(ctx)
  {
  }

  lemma PurposeRules(ctx: Context)
    requires ctx.policy.Some?
    ensures var policy, plan := ctx.policy.value, ctx.plan;
            && (!Fails(PurposeMatch, ctx) <==> policy.purpose != "" && plan.actionType in policy.allowedActionTypes)
            && (!Fails(ActionTypeAllowed, ctx) <==> plan.actionType in policy.allowedActionTypes)
            && (!Fails(InstitutionAllowed, ctx) <==> plan.institution in policy.allowedInstitutions)
  {
  }

  lemma LimitRules(ctx: Context)
    requires ctx.policy.Some?
    ensures !Fails(ProductAllowed, ctx) <==> ProductPermitted(ctx.policy.value, ctx.plan)
    ensures !Fails(AmountWithinLimit, ctx) <==> AmountPermitted(ctx.policy.value, ctx.plan)
    ensures !Fails(CounterpartyAllowed, ctx) <==> PartyPermitted(ctx.policy.value, ctx.plan)
  {
  }

  lemma DataRule(ctx: Context)
    requires ctx.policy.Some?
    ensures !Fails(DataAccessAllowed, ctx) <==> DataPermitted(ctx.policy.value, ctx.plan)
  {
    var data := ctx.plan.requiredData;
    assert forall i | 0 <= i < |data| :: data[i] in data;
  }

  lemma PermittedCalls(policy: Policy, plan: ActionPlan)
    ensures ToolsAllowlisted(policy, plan) && CallsConform(plan.proposedToolCalls) <==> CallsPermitted(policy, plan)
  {
    var calls := plan.proposedToolCalls;
    assert forall i | 0 <= i < |calls| :: calls[i] in calls;
  }

  lemma CallRules(ctx: Context)
    requires ctx.policy.Some?
    ensures !Fails(PlanMatchesUserIntent, ctx) <==> !Fails(ToolAllowed, ctx)
    ensures !Fails(ToolAllowed, ctx) && !Fails(ToolArgumentsSchemaValid, ctx) <==>
            CallsPermitted(ctx.policy.value, ctx.plan)
  {
    IntentFollowsTools(ctx);
    ToolRuleMeaning(ctx);
    ArgumentRuleMeaning(ctx);
    ArgumentsValidMeaning(ctx.plan);
    PermittedCalls(ctx.policy.value, ctx.plan);
  }

  lemma IntentFollowsTools(ctx: Context)
    requires ctx.policy.Some?
    ensures Fails(PlanMatchesUserIntent, ctx) <==> Fails(ToolAllowed, ctx)
  {
  }

  lemma SecurityRules(ctx: Context)
    ensures Fails(UntrustedInstructionBoundaryIntact, ctx) <==> ctx.security.attemptedUnauthorizedTools != []
    ensures Fails(PromptInjectionNotDetected, ctx) <==> ctx.security.injectionDetected
    ensures Fails(SensitiveDataExfiltrationNotDetected, ctx) <==> ctx.security.exfiltrationDetected
    ensures !Fails(RiskThreshold, ctx) <==> Clean(ctx.security)
  {
  }

  lemma BindingRuleHolds(ctx: Context)
    requires ctx.policy.Some?
    ensures !Fails(ApprovalBindsCurrentPlan, ctx) <==>
            (ctx.approval.Some? ==> Holds(ctx.approval.value, ctx.planHash, ctx.policy.value.version, ctx.now))
  {
  }

  lemma HumanRule(ctx: Context)
    requires ctx.policy.Some?
    ensures Fails(HumanApprovalRequirement, ctx) <==> AwaitsHuman(ctx)
  {
    var calls := ctx.plan.proposedToolCalls;
    assert forall i | 0 <= i < |calls| :: calls[i] in calls;
  }

  // --- The decision -------------------------------------------------------------------

  // No failed rule has this effect.
  ghost predicate NoneWith(failed: set<RuleId>, effect: Decision) {
    forall rule :: rule in failed ==> Effect(rule) != effect
  }

  const IDENTITY: set<RuleId> := {
    PrincipalIdentityValid, AgentActiveAndRegistered, DelegationActive, ExecutionIdempotencyKeyValid}

  const SCOPE: set<RuleId> := {
    PurposeMatch, ActionTypeAllowed, InstitutionAllowed, ProductAllowed, AmountWithinLimit,
    CounterpartyAllowed, DataAccessAllowed, ToolAllowed, ToolArgumentsSchemaValid, PlanMatchesUserIntent}

  const DENYING: set<RuleId> := IDENTITY + SCOPE

  const QUARANTINING: set<RuleId> := {
    UntrustedInstructionBoundaryIntact, PromptInjectionNotDetected, SensitiveDataExfiltrationNotDetected,
    ApprovalBindsCurrentPlan}

  lemma EffectsAre(rule: RuleId)
    ensures Effect(rule) == Deny <==> rule in DENYING
    ensures Effect(rule) == Quarantine <==> rule in QUARANTINING
    ensures Effect(rule) == RequireApproval <==> rule == HumanApprovalRequirement
  {
  }

  lemma NoneWithMeaning(failed: set<RuleId>)
    ensures NoneWith(failed, Deny) <==> failed !! DENYING
    ensures NoneWith(failed, Quarantine) <==> failed !! QUARANTINING
    ensures NoneWith(failed, RequireApproval) <==> HumanApprovalRequirement !in failed
  {
    forall rule: RuleId { EffectsAre(rule); }
  }

  lemma JoinByNames(failed: set<RuleId>)
    ensures Join(failed) ==
            if failed !! QUARANTINING then
              if failed !! DENYING then
                if HumanApprovalRequirement in failed then RequireApproval else Allow
              else Deny
            else Quarantine
  {
    NoneWithMeaning(failed);
    forall effect
      ensures SomeEffect(failed, effect) <==> !NoneWith(failed, effect)
    {
    }
  }

  ghost predicate AllPass(rules: set<RuleId>, ctx: Context) {
    FailedAmong(AllRules(), ctx) !! rules
  }

  lemma ScopeNames(failed: set<RuleId>)
    ensures failed !! SCOPE <==>
            && PurposeMatch !in failed && ActionTypeAllowed !in failed && InstitutionAllowed !in failed
            && ProductAllowed !in failed && AmountWithinLimit !in failed && CounterpartyAllowed !in failed
            && DataAccessAllowed !in failed && ToolAllowed !in failed && ToolArgumentsSchemaValid !in failed
            && PlanMatchesUserIntent !in failed
  {
  }

  lemma IdentityNames(failed: set<RuleId>)
    ensures failed !! IDENTITY <==>
            && PrincipalIdentityValid !in failed && AgentActiveAndRegistered !in failed
            && DelegationActive !in failed && ExecutionIdempotencyKeyValid !in failed
  {
  }

  lemma ScopeRules(ctx: Context)
    requires ctx.policy.Some?
    ensures AllPass(SCOPE, ctx) <==> WithinDelegation(ctx.policy.value, ctx.plan)
  {
    ScopeNames(FailedAmong(AllRules(), ctx));
    PurposeRules(ctx);
    LimitRules(ctx);
    DataRule(ctx);
    CallRules(ctx);
  }

  lemma DenyingRules(ctx: Context)
    requires ctx.policy.Some?
    ensures AllPass(DENYING, ctx) <==> Delegated(ctx)
  {
    var failed := FailedAmong(AllRules(), ctx);
    IdentityNames(failed);
    IdentityRules(ctx);
    ScopeRules(ctx);
    assert failed !! DENYING <==> failed !! IDENTITY && failed !! SCOPE;
  }

  lemma QuarantiningRules(ctx: Context)
    requires ctx.policy.Some?
    ensures AllPass(QUARANTINING, ctx) <==> Trusted(ctx)
  {
    SecurityRules(ctx);
    BindingRuleHolds(ctx);
  }

  // The gate decides by the delegation, the plan, the actors, the document, the approval
  // and the key, in this precedence and by nothing else.
  lemma DecisionIsVerdict(ctx: Context)
    requires ctx.policy.Some?
    ensures DecisionOf(ctx) == Verdict(ctx)
  {
    var failed := FailedAmong(AllRules(), ctx);
    DecisionIsJoin(ctx);
    JoinByNames(failed);
    QuarantiningRules(ctx);
    DenyingRules(ctx);
    HumanRule(ctx);
  }

  const STANDING: set<RuleId> := {
    PrincipalIdentityValid, AgentActiveAndRegistered, UntrustedInstructionBoundaryIntact,
    PromptInjectionNotDetected, SensitiveDataExfiltrationNotDetected, RiskThreshold}

  lemma StaticNames(rule: RuleId)
    ensures IsStatic(rule) <==> rule in SCOPE || rule in STANDING
  {
  }

  lemma StaticByNames(ctx: Context)
    ensures StaticRulesPass(ctx) <==> AllPass(SCOPE, ctx) && AllPass(STANDING, ctx)
  {
    forall rule: RuleId { StaticNames(rule); }
  }

  lemma StandingRules(ctx: Context)
    ensures AllPass(STANDING, ctx) <==> ActorsStand(ctx) && Clean(ctx.security)
  {
    var failed := FailedAmong(AllRules(), ctx);
    StandingNames(failed);
    SecurityRules(ctx);
  }

  lemma StandingNames(failed: set<RuleId>)
    ensures failed !! STANDING <==>
            && PrincipalIdentityValid !in failed && AgentActiveAndRegistered !in failed
            && UntrustedInstructionBoundaryIntact !in failed && PromptInjectionNotDetected !in failed
            && SensitiveDataExfiltrationNotDetected !in failed && RiskThreshold !in failed
  {
  }

  // The risk score counts an approval as required exactly if a human must look first.
  lemma ApprovalRequiredMeaning(ctx: Context)
    requires ctx.policy.Some?
    ensures ApprovalRequiredIn(ctx) <==> AwaitsHuman(ctx)
  {
    DecisionIsVerdict(ctx);
    HumanRule(ctx);
  }

  // The rules that do not depend on the moment pass exactly for a plan within the
  // delegation, actors in good standing and a clean document.
  lemma StaticRulesMeaning(ctx: Context)
    requires ctx.policy.Some?
    ensures StaticRulesPass(ctx) <==>
            WithinDelegation(ctx.policy.value, ctx.plan) && ActorsStand(ctx) && Clean(ctx.security)
  {
    StaticByNames(ctx);
    ScopeRules(ctx);
    StandingRules(ctx);
  }

  // --- What a single result says ------------------------------------------------------

  // The rule has nothing to compare.
  predicate Idle(rule: RuleId, ctx: Context)
    requires ctx.policy.Some?
  {
    match rule
    case ProductAllowed => ctx.policy.value.allowedProducts == [] || ctx.plan.product == None
    case AmountWithinLimit => ctx.plan.amount == None || ctx.policy.value.amountLimit == None
    case CounterpartyAllowed =>
      ctx.policy.value.counterpartyMode == None || ctx.policy.value.counterpartyMode.value == "NOT_APPLICABLE"
    case ApprovalBindsCurrentPlan => ctx.approval == None
    case ExecutionIdempotencyKeyValid => !ctx.isExecution
    case _ => false
  }

  // How severe a failure of the rule is. An approval for another plan is critical, one that
  // has run out is not.
  function SeverityOf(rule: RuleId, ctx: Context): Severity
    requires ctx.policy.Some?
  {
    match rule
    case UntrustedInstructionBoundaryIntact | PromptInjectionNotDetected => Critical
    case SensitiveDataExfiltrationNotDetected | RiskThreshold => Critical
    case HumanApprovalRequirement | ExecutionIdempotencyKeyValid => Medium
    case ApprovalBindsCurrentPlan =>
      if ctx.approval.Some? && ctx.approval.value.approvedPlanHash == ctx.planHash
         && ctx.approval.value.policyVersion == ctx.policy.value.version then High
      else Critical
    case _ => High
  }

  // A rule that fails says how severe that is, one that has nothing to compare says so, and
  // any other passes.
  lemma ResultMeaning(ctx: Context, rule: RuleId)
    requires ctx.policy.Some?
    ensures var r := RunRule(rule, ctx).value;
            && (r.status == NotApplicable <==> Idle(rule, ctx))
            && r.severity == if r.status == Fail then SeverityOf(rule, ctx) else Low
  {
  }

  // The results that an evaluation stores: one per rule, in the order of the table.
  predicate ResultsInOrder(results: seq<RuleResult>, ctx: Context)
    requires ctx.policy.Some?
  {
    && |results| == |RULES|
    && forall i | 0 <= i < |RULES| ::
         results[i].ruleId == RULES[i].rule && (results[i].status == Fail <==> Fails(RULES[i].rule, ctx))
  }

  // What an evaluation says: the verdict, on this plan hash under this delegation, with the
  // score in which a human who must look first counts as mitigation, and all results.
  lemma EvaluationMeaning(ctx: Context)
    requires ctx.policy.Some?
    ensures var e := EvaluationOf(ctx);
            && e.decision == Verdict(ctx) && e.planHash == ctx.planHash
            && e.policyId == ctx.policy.value.policyId && e.policyVersion == ctx.policy.value.version
            && e.riskScore == RiskScore(ctx, AwaitsHuman(ctx)) && e.riskLevel == Level(e.riskScore)
            && ResultsInOrder(e.results, ctx)
  {
    DecisionIsVerdict(ctx);
    ApprovalRequiredMeaning(ctx);
  }

  // --- Amounts ------------------------------------------------------------------------

  // The same context with this amount in the plan.
  function WithAmount(ctx: Context, amount: Money): Context {
    ctx.(plan := ctx.plan.(amount := Some(amount)))
  }

  // Asking for less never makes the decision harsher.
  lemma LowerAmountIsMilder(ctx: Context, lower: Money, higher: Money)
    requires ctx.policy.Some? && Requested(lower) <= Requested(higher)
    ensures Rank(DecisionOf(WithAmount(ctx, lower))) <= Rank(DecisionOf(WithAmount(ctx, higher)))
  {
    DecisionIsVerdict(WithAmount(ctx, lower));
    DecisionIsVerdict(WithAmount(ctx, higher));
  }
}
