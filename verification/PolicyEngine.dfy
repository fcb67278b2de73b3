// From rule results to a decision (app/domain/policy/engine.py).
module PolicyEngine {
  import opened Wrappers
  import opened Domain
  import opened PolicyRules
  import opened Risk

  datatype Evaluation = Evaluation(
    policyId: string,
    policyVersion: int,
    planHash: string,
    decision: Decision,
    riskScore: int,
    riskLevel: RiskLevel,
    results: seq<RuleResult>)

  // ---------------------------------------------------------------------------------
  // The decision of a list of results
  // ---------------------------------------------------------------------------------

  predicate Categorized(results: seq<RuleResult>, categories: map<RuleId, Category>) {
    forall i | 0 <= i < |results| :: results[i].ruleId in categories
  }

  function FailedCategories(results: seq<RuleResult>, categories: map<RuleId, Category>): set<Category>
    requires Categorized(results, categories)
  {
    set i | 0 <= i < |results| && results[i].status == Fail :: categories[results[i].ruleId]
  }

  function Decide(results: seq<RuleResult>, categories: map<RuleId, Category>): Decision
    requires Categorized(results, categories)
  {
    var failed := FailedCategories(results, categories);
    if SecurityCategory in failed || IntegrityCategory in failed then Quarantine
    else if IdentityCategory in failed || ScopeCategory in failed || IdempotencyCategory in failed then Deny
    else if ApprovalCategory in failed then RequireApproval
    else Allow
  }

  // ---------------------------------------------------------------------------------
  // The join of failures: an independent reading of the same decision
  // ---------------------------------------------------------------------------------

  function Rank(d: Decision): nat {
    match d
    case Allow => 0
    case RequireApproval => 1
    case Deny => 2
    case Quarantine => 3
  }

  // What a failure in each category leads to on its own.
  function Effect(rule: RuleId): Decision {
    match CategoryOf(rule)
    case SecurityCategory | IntegrityCategory => Quarantine
    case IdentityCategory | ScopeCategory | IdempotencyCategory => Deny
    case ApprovalCategory => RequireApproval
    case RiskCategory => Allow
  }

  // A failed rule has this effect.
  ghost predicate SomeEffect(failed: set<RuleId>, d: Decision) {
    exists rule :: rule in failed && Effect(rule) == d
  }

  ghost function Join(failed: set<RuleId>): Decision {
    if SomeEffect(failed, Quarantine) then Quarantine
    else if SomeEffect(failed, Deny) then Deny
    else if SomeEffect(failed, RequireApproval) then RequireApproval
    else Allow
  }

  // The join is the greatest effect of a failed rule, and Allow when there is none.
  lemma JoinIsMaximum(failed: set<RuleId>)
    ensures forall rule :: rule in failed ==> Rank(Effect(rule)) <= Rank(Join(failed))
    ensures Join(failed) != Allow ==> SomeEffect(failed, Join(failed))
  {
    forall rule | rule in failed
      ensures Rank(Effect(rule)) <= Rank(Join(failed))
    {
      assert SomeEffect(failed, Effect(rule));
    }
  }

  // More failures never soften the decision.
  lemma JoinIsMonotone(fewer: set<RuleId>, more: set<RuleId>)
    requires fewer <= more
    ensures Rank(Join(fewer)) <= Rank(Join(more))
  {
    JoinIsMaximum(fewer);
    JoinIsMaximum(more);
  }

  ghost function FailedAmong(rules: set<RuleId>, ctx: Context): (failed: set<RuleId>)
    ensures forall rule :: rule in failed <==> rule in rules && Fails(rule, ctx)
  {
    set rule | rule in rules && Fails(rule, ctx)
  }

  // The results of rules run in a given order.
  function ResultsOf(rules: seq<RuleId>, ctx: Context): (r: seq<RuleResult>)
    requires ctx.policy.Some?
    ensures |r| == |rules|
    ensures forall i :: 0 <= i < |rules| ==> r[i] == RunRule(rules[i], ctx).value
  {
    seq(|rules|, i requires 0 <= i < |rules| => RunRule(rules[i], ctx).value)
  }

  function RuleSet(rules: seq<RuleId>): set<RuleId> {
    set i | 0 <= i < |rules| :: rules[i]
  }

  lemma FailedCategoryMeaning(rules: seq<RuleId>, ctx: Context, categories: map<RuleId, Category>, c: Category)
    requires ctx.policy.Some?
    requires forall rule :: rule in rules ==> rule in categories && categories[rule] == CategoryOf(rule)
    ensures Categorized(ResultsOf(rules, ctx), categories)
    ensures c in FailedCategories(ResultsOf(rules, ctx), categories) <==>
            exists rule :: rule in RuleSet(rules) && Fails(rule, ctx) && CategoryOf(rule) == c
  {
    var results := ResultsOf(rules, ctx);
    forall i | 0 <= i < |results|
      ensures results[i].ruleId == rules[i] && rules[i] in categories
      ensures results[i].status == Fail <==> Fails(rules[i], ctx)
    {
      assert rules[i] in rules;
    }
    if rule :| rule in RuleSet(rules) && Fails(rule, ctx) && CategoryOf(rule) == c {
      var i :| 0 <= i < |rules| && rules[i] == rule;
      assert results[i].status == Fail && categories[results[i].ruleId] == c;
    }
    if c in FailedCategories(results, categories) {
      var i :| 0 <= i < |results| && results[i].status == Fail && categories[results[i].ruleId] == c;
      assert rules[i] in RuleSet(rules);
    }
  }

  lemma JoinByCategory(failed: set<RuleId>, categories: set<Category>)
    requires forall c :: c in categories <==> exists rule :: rule in failed && CategoryOf(rule) == c
    ensures Join(failed) ==
            if SecurityCategory in categories || IntegrityCategory in categories then Quarantine
            else if IdentityCategory in categories || ScopeCategory in categories
                    || IdempotencyCategory in categories then Deny
            else if ApprovalCategory in categories then RequireApproval
            else Allow
  {
    assert SomeEffect(failed, Quarantine) <==> SecurityCategory in categories || IntegrityCategory in categories;
    assert SomeEffect(failed, RequireApproval) <==> ApprovalCategory in categories;
  }

  // The engine's decision is the join of failures: it depends on which rules fail, and
  // not on the order in which they ran.
  lemma DecideIsJoin(rules: seq<RuleId>, ctx: Context, categories: map<RuleId, Category>)
    requires ctx.policy.Some?
    requires forall rule :: rule in rules ==> rule in categories && categories[rule] == CategoryOf(rule)
    ensures Categorized(ResultsOf(rules, ctx), categories)
    ensures Decide(ResultsOf(rules, ctx), categories) == Join(FailedAmong(RuleSet(rules), ctx))
  {
    forall c { FailedCategoryMeaning(rules, ctx, categories, c); }
    var results := ResultsOf(rules, ctx);
    JoinByCategory(FailedAmong(RuleSet(rules), ctx), FailedCategories(results, categories));
  }

  // The rules of the table.
  ghost function AllRules(): (rules: set<RuleId>)
    ensures forall rule: RuleId :: rule in rules
  {
    set rule: RuleId | Position(rule) < |RULES|
  }

  const REDUNDANT: set<RuleId> := {ActionTypeAllowed, PlanMatchesUserIntent, RiskThreshold}

  lemma RedundantFailures(ctx: Context)
    requires ctx.policy.Some?
    ensures Fails(ActionTypeAllowed, ctx) ==> Fails(PurposeMatch, ctx)
    ensures Fails(PlanMatchesUserIntent, ctx) ==> Fails(ToolAllowed, ctx)
  {
  }

  // Rules 5, 16 and 17 decide nothing: whenever one fails, another with at least its
  // effect fails too.
  lemma RedundantRules(ctx: Context)
    requires ctx.policy.Some?
    ensures Join(FailedAmong(AllRules() - REDUNDANT, ctx)) == Join(FailedAmong(AllRules(), ctx))
  {
    RedundantFailures(ctx);
    DropRedundant(FailedAmong(AllRules(), ctx));
    assert FailedAmong(AllRules() - REDUNDANT, ctx) == FailedAmong(AllRules(), ctx) - REDUNDANT;
  }

  lemma DropRedundant(failed: set<RuleId>)
    requires ActionTypeAllowed in failed ==> PurposeMatch in failed
    requires PlanMatchesUserIntent in failed ==> ToolAllowed in failed
    ensures Join(failed - REDUNDANT) == Join(failed)
  {
    var kept := failed - REDUNDANT;
    JoinIsMonotone(kept, failed);
    JoinIsMaximum(kept);
    JoinIsMaximum(failed);
    if Join(failed) != Allow {
      var rule :| rule in failed && Effect(rule) == Join(failed);
      var other := if rule == ActionTypeAllowed then PurposeMatch
                   else if rule == PlanMatchesUserIntent then ToolAllowed else rule;
      assert other in kept && Effect(other) == Effect(rule);
    }
  }

  // ---------------------------------------------------------------------------------
  // evaluate
  // ---------------------------------------------------------------------------------

  function RuleOrder(): (r: seq<RuleId>)
    ensures |r| == |RULES| && forall i :: 0 <= i < |RULES| ==> r[i] == RULES[i].rule
  {
    seq(|RULES|, i requires 0 <= i < |RULES| => RULES[i].rule)
  }

  function CategoryTable(): (m: map<RuleId, Category>)
    ensures forall rule: RuleId :: rule in m && m[rule] == CategoryOf(rule)
  {
    map rule: RuleId | true :: CategoryOf(rule)
  }

  function DecisionOf(ctx: Context): Decision
    requires ctx.policy.Some?
  {
    Decide(ResultsOf(RuleOrder(), ctx), CategoryTable())
  }

  // Approval counts as required when its rule failed.
  function ApprovalRequiredIn(ctx: Context): bool
    requires ctx.policy.Some?
  {
    DecisionOf(ctx) == RequireApproval || Fails(HumanApprovalRequirement, ctx)
  }

  function EvaluationOf(ctx: Context): Evaluation
    requires ctx.policy.Some?
  {
    var score := RiskScore(ctx, ApprovalRequiredIn(ctx));
    Evaluation(ctx.policy.value.policyId, ctx.policy.value.version, ctx.planHash, DecisionOf(ctx),
               score, Level(score), ResultsOf(RuleOrder(), ctx))
  }

  lemma OrderCoversAllRules()
    ensures RuleSet(RuleOrder()) == AllRules()
  {
    forall rule: RuleId
      ensures rule in RuleSet(RuleOrder())
    {
      TablePosition(rule);
      assert RuleOrder()[Position(rule)] == rule;
    }
  }

  lemma DecisionIsJoin(ctx: Context)
    requires ctx.policy.Some?
    ensures DecisionOf(ctx) == Join(FailedAmong(AllRules(), ctx))
  {
    DecideIsJoin(RuleOrder(), ctx, CategoryTable());
    OrderCoversAllRules();
  }

  function FindResult(results: seq<RuleResult>, rule: RuleId): Option<RuleResult> {
    if |results| == 0 then None
    else if results[0].ruleId == rule then Some(results[0])
    else FindResult(results[1..], rule)
  }

  lemma {:induction false} FindRule(rules: seq<RuleId>, ctx: Context, rule: RuleId)
    requires ctx.policy.Some?
    ensures FindResult(ResultsOf(rules, ctx), rule) == if rule in rules then RunRule(rule, ctx) else None
  {
    if |rules| > 0 {
      assert rules == [rules[0]] + rules[1..];
      assert ResultsOf(rules, ctx)[1..] == ResultsOf(rules[1..], ctx);
      FindRule(rules[1..], ctx, rule);
    }
  }

  // The first half of evaluate: run the table in order. Without a delegation, rule 4 raises.
  method RunRules(ctx: Context) returns (outcome: Option<seq<RuleResult>>, categories: map<RuleId, Category>)
    ensures outcome.Some? <==> ctx.policy.Some?
    ensures outcome.Some? ==> outcome.value == ResultsOf(RuleOrder(), ctx) && categories == CategoryTable()
  {
    categories := map[];
    var results: seq<RuleResult> := [];
    var i := 0;
    while i < |RULES|
      invariant 0 <= i <= |RULES|
      invariant ctx.policy.None? ==> i <= 3
      invariant |results| == i
      invariant forall k :: 0 <= k < i ==> Some(results[k]) == RunRule(RULES[k].rule, ctx)
      invariant forall k :: 0 <= k < i ==> RULES[k].rule in categories
      invariant forall rule :: rule in categories ==> categories[rule] == CategoryOf(rule)
    {
      TableEntry(i);
      var result := RunRule(RULES[i].rule, ctx);
      if result.None? {
        return None, categories;
      }
      assert i == 3 ==> AssertsPolicy(RULES[i].rule);
      results := results + [result.value];
      categories := categories[RULES[i].rule := RULES[i].category];
      i := i + 1;
    }
    assert ctx.policy.Some?;
    assert results == ResultsOf(RuleOrder(), ctx);
    forall rule: RuleId ensures rule in categories {
      TablePosition(rule);
    }
    assert categories == CategoryTable();
    outcome := Some(results);
  }

  lemma ApprovalRuleIsFound(ctx: Context)
    requires ctx.policy.Some?
    ensures FindResult(ResultsOf(RuleOrder(), ctx), HumanApprovalRequirement) == RunRule(HumanApprovalRequirement, ctx)
  {
    TablePosition(HumanApprovalRequirement);
    assert RuleOrder()[Position(HumanApprovalRequirement)] == HumanApprovalRequirement;
    FindRule(RuleOrder(), ctx, HumanApprovalRequirement);
  }

  // evaluate: run the table, derive the decision, score the risk. It answers exactly when
  // the delegation exists.
  method Evaluate(ctx: Context) returns (evaluation: Option<Evaluation>)
    ensures evaluation.Some? <==> ctx.policy.Some?
    ensures evaluation.Some? ==> evaluation.value == EvaluationOf(ctx)
  {
    var outcome, categories := RunRules(ctx);
    if outcome.None? {
      return None;
    }
    var results := outcome.value;
    var decision := Decide(results, categories);
    var approvalRule := FindResult(results, HumanApprovalRequirement);
    ApprovalRuleIsFound(ctx);
    var approvalRequired :=
      decision == RequireApproval || (approvalRule.Some? && approvalRule.value.status == Fail);
    var score, level := ComputeRisk(ctx, approvalRequired);
    evaluation := Some(Evaluation(ctx.policy.value.policyId, ctx.policy.value.version, ctx.planHash,
                                  decision, score, level, results));
  }

  // ---------------------------------------------------------------------------------
  // Reading a decision back
  // ---------------------------------------------------------------------------------

  // Rules 1, 2 and 4 to 17: they read only what never changes once a plan is stored.
  predicate IsStatic(rule: RuleId) {
    rule !in {DelegationActive, HumanApprovalRequirement, ApprovalBindsCurrentPlan, ExecutionIdempotencyKeyValid}
  }

  ghost predicate StaticRulesPass(ctx: Context) {
    forall rule: RuleId :: IsStatic(rule) ==> !Fails(rule, ctx)
  }

  lemma JoinOfDynamic(failed: set<RuleId>)
    requires forall rule :: rule in failed ==> !IsStatic(rule)
    ensures Join(failed) ==
            if ApprovalBindsCurrentPlan in failed then Quarantine
            else if DelegationActive in failed || ExecutionIdempotencyKeyValid in failed then Deny
            else if HumanApprovalRequirement in failed then RequireApproval
            else Allow
  {
    assert SomeEffect(failed, Quarantine) <==> ApprovalBindsCurrentPlan in failed;
    assert SomeEffect(failed, Deny) <==> DelegationActive in failed || ExecutionIdempotencyKeyValid in failed;
    assert SomeEffect(failed, RequireApproval) <==> HumanApprovalRequirement in failed;
  }

  // With the static rules passing, four rules are left to decide.
  lemma DecisionWhenStaticPass(ctx: Context)
    requires ctx.policy.Some? && StaticRulesPass(ctx)
    ensures DecisionOf(ctx) ==
            if Fails(ApprovalBindsCurrentPlan, ctx) then Quarantine
            else if Fails(DelegationActive, ctx) || Fails(ExecutionIdempotencyKeyValid, ctx) then Deny
            else if Fails(HumanApprovalRequirement, ctx) then RequireApproval
            else Allow
  {
    DecisionIsJoin(ctx);
    JoinOfDynamic(FailedAmong(AllRules(), ctx));
  }

  // A mild join leaves only rule 18, and rule 17 whose failures have no effect.
  lemma MildJoin(failed: set<RuleId>)
    requires Join(failed) == Allow || Join(failed) == RequireApproval
    ensures forall rule :: rule in failed ==> rule == HumanApprovalRequirement || rule == RiskThreshold
    ensures Join(failed) == Allow <==> HumanApprovalRequirement !in failed
  {
    JoinIsMaximum(failed);
    forall rule | rule in failed
      ensures rule == HumanApprovalRequirement || rule == RiskThreshold
    {
      assert Rank(Effect(rule)) <= 1;
    }
  }

  lemma RiskFollowsSecurity(ctx: Context)
    ensures Fails(RiskThreshold, ctx) <==>
            || Fails(UntrustedInstructionBoundaryIntact, ctx)
            || Fails(PromptInjectionNotDetected, ctx)
            || Fails(SensitiveDataExfiltrationNotDetected, ctx)
  {
  }

  // Anything short of Deny means that no rule failed, except rule 18 when approval is missing.
  lemma MildDecisionMeansPass(ctx: Context)
    requires ctx.policy.Some?
    requires DecisionOf(ctx) == Allow || DecisionOf(ctx) == RequireApproval
    ensures StaticRulesPass(ctx)
    ensures !Fails(DelegationActive, ctx)
    ensures !Fails(ApprovalBindsCurrentPlan, ctx)
    ensures !Fails(ExecutionIdempotencyKeyValid, ctx)
    ensures DecisionOf(ctx) == Allow <==> !Fails(HumanApprovalRequirement, ctx)
  {
    DecisionIsJoin(ctx);
    MildJoin(FailedAmong(AllRules(), ctx));
    RiskFollowsSecurity(ctx);
  }

  // A tool that untrusted text tried to reach always quarantines.
  lemma AttemptedToolQuarantines(ctx: Context)
    requires ctx.policy.Some? && |ctx.security.attemptedUnauthorizedTools| > 0
    ensures DecisionOf(ctx) == Quarantine
  {
    DecisionIsJoin(ctx);
    assert Fails(UntrustedInstructionBoundaryIntact, ctx);
    assert SomeEffect(FailedAmong(AllRules(), ctx), Quarantine);
  }
}
