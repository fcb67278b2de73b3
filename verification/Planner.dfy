// The deterministic planner (app/domain/orchestrator/planner.py).
module Planner {
  import opened Wrappers
  import opened Json
  import opened Domain
  import opened Tools
  import opened PolicyRules
  import Gateway

  const RATE_REDUCTION := "RATE_REDUCTION_REQUEST"

  const RATE_GOAL: string := "대출 금리인하요구 조건을 확인하고 신청을 준비하여, 승인 시 제출한다."
  const RATE_ASSUMPTIONS: seq<string> := [
    "소득 증가 등 금리인하 요구 자격 조건이 충족되었다고 가정",
    "실행은 시뮬레이션이며 실제 금융거래가 아님"]
  const RATE_OUTPUT: string := "금리인하요구 신청서가 준비되고, 승인 후 제출되어 접수번호가 발급됨."
  const APPROVAL_REASON: string := "제출은 위임 정책에 따라 제출 전 인간 승인이 필요합니다."
  const FALLBACK_OUTPUT: string := "분석 결과 요약."
  const RATE_REASON: string := "현재 적용 금리 확인 (인하 여력 산정)"
  const INCOME_REASON: string := "소득 변동 여부 확인 (신청 자격 근거)"

  // Only data classes that the policy allows are claimed.
  function ClaimedData(policy: Policy): seq<RequiredDatum> {
    (if "CURRENT_RATE" in policy.allowedDataClasses then [RequiredDatum("CURRENT_RATE", RATE_REASON)] else [])
    + (if "INCOME_CHANGE_FLAG" in policy.allowedDataClasses
       then [RequiredDatum("INCOME_CHANGE_FLAG", INCOME_REASON)] else [])
  }

  // list(profile.get("eligibility", {}).get("reason_codes", []))
  function Basis(profiles: seq<LoanProfile>, institution: string, product: Option<string>): seq<Value> {
    match FindProfile(profiles, Str(institution), OptStr(product))
    case None => []
    case Some(p) => StrItems(p.reasonCodes)
  }

  function PairArguments(institution: string, product: Option<string>): Dict {
    var fields := [Field("institution", Str(institution)), Field("product", OptStr(product))];
    assert WellFormed(fields[0].value) && WellFormed(fields[1].value);
    fields
  }

  function PrepareArguments(institution: string, product: Option<string>, basis: seq<Value>): Dict
    requires forall i :: 0 <= i < |basis| ==> basis[i].Str?
  {
    var fields := [Field("institution", Str(institution)), Field("product", OptStr(product)),
                   Field("basis", Arr(basis))];
    assert WellFormed(fields[0].value) && WellFormed(fields[1].value) && WellFormed(fields[2].value);
    fields
  }

  function RatePlan(profiles: seq<LoanProfile>, policy: Policy, institution: string): ActionPlan {
    var product := if |policy.allowedProducts| > 0 then Some(policy.allowedProducts[0]) else None;
    ActionPlan(
      RATE_REDUCTION, institution, product, RATE_GOAL, RATE_ASSUMPTIONS, ClaimedData(policy),
      [ProposedToolCall(READ_PROFILE, PairArguments(institution, product)),
       ProposedToolCall(PREPARE, PrepareArguments(institution, product, Basis(profiles, institution, product))),
       ProposedToolCall(SUBMIT, PairArguments(institution, product))],
      RATE_OUTPUT, "REVERSIBLE", "MEDIUM",
      if policy.submitRequiresHuman then Some(APPROVAL_REASON) else None,
      None, None)
  }

  // build_plan; None is the IndexError of an empty institution list.
  function BuildPlan(profiles: seq<LoanProfile>, request: Request, policy: Policy): Option<ActionPlan> {
    var actionType := if |policy.allowedActionTypes| > 0 then policy.allowedActionTypes[0] else "UNKNOWN";
    if actionType == RATE_REDUCTION then
      if |policy.allowedInstitutions| == 0 then None
      else Some(RatePlan(profiles, policy, policy.allowedInstitutions[0]))
    else
      Some(ActionPlan(
        actionType,
        if |policy.allowedInstitutions| > 0 then policy.allowedInstitutions[0] else "UNKNOWN",
        None, request.userRequest, [], [], [], FALLBACK_OUTPUT, "REVERSIBLE", "LOW", None, None, None))
  }

  // The untrusted document has no influence on the plan.
  lemma DocumentIsIgnored(profiles: seq<LoanProfile>, request: Request, policy: Policy, document: Option<string>)
    ensures BuildPlan(profiles, request.(untrustedDocument := document), policy) == BuildPlan(profiles, request, policy)
  {
  }

  ghost predicate ScopeRulesPass(ctx: Context) {
    forall rule: RuleId :: CategoryOf(rule) == ScopeCategory ==> !Fails(rule, ctx)
  }

  lemma PairConforms(institution: string, product: Option<string>)
    ensures SchemaErrors(PAIR_SCHEMA, PairArguments(institution, product)) == [] <==> product.Some?
  {
    var args := PairArguments(institution, product);
    NoErrorsIffConforms(PAIR_SCHEMA, args);
    assert Keys(args) == {args[0].key, args[1].key};
    GetAt(args, 0);
    GetAt(args, 1);
    var p := PAIR_SCHEMA.properties;
    assert p[0].name == args[0].key && p[1].name == args[1].key;
    assert Declared(PAIR_SCHEMA, args[0].key) && Declared(PAIR_SCHEMA, args[1].key);
    assert Get(args, p[1].name) == Some(OptStr(product));
  }

  lemma PrepareConforms(institution: string, product: Option<string>, basis: seq<Value>)
    requires forall i :: 0 <= i < |basis| ==> basis[i].Str?
    ensures SchemaErrors(PREPARE_SCHEMA, PrepareArguments(institution, product, basis)) == [] <==> product.Some?
  {
    var args := PrepareArguments(institution, product, basis);
    NoErrorsIffConforms(PREPARE_SCHEMA, args);
    assert Keys(args) == {args[0].key, args[1].key, args[2].key};
    GetAt(args, 0);
    GetAt(args, 1);
    GetAt(args, 2);
    var p := PREPARE_SCHEMA.properties;
    assert p[0].name == args[0].key && p[1].name == args[1].key && p[2].name == args[2].key;
    assert Declared(PREPARE_SCHEMA, args[0].key) && Declared(PREPARE_SCHEMA, args[1].key) &&
           Declared(PREPARE_SCHEMA, args[2].key);
    assert Get(args, p[1].name) == Some(OptStr(product));
  }

  lemma RateCallsConform(profiles: seq<LoanProfile>, policy: Policy, institution: string)
    ensures CallsConform(RatePlan(profiles, policy, institution).proposedToolCalls) <==> |policy.allowedProducts| > 0
  {
    var plan := RatePlan(profiles, policy, institution);
    var calls := plan.proposedToolCalls;
    PairConforms(institution, plan.product);
    PrepareConforms(institution, plan.product, Basis(profiles, institution, plan.product));
    RegisteredTools();
    CallConforms(calls[0]);
    CallConforms(calls[1]);
    CallConforms(calls[2]);
    assert CallErrors(calls[0]) == SchemaErrors(PAIR_SCHEMA, calls[0].arguments);
    assert CallErrors(calls[1]) == SchemaErrors(PREPARE_SCHEMA, calls[1].arguments);
    assert CallErrors(calls[2]) == SchemaErrors(PAIR_SCHEMA, calls[2].arguments);
  }

  lemma RegisteredTools()
    ensures SchemaOf(READ_PROFILE) == Some(PAIR_SCHEMA)
    ensures SchemaOf(PREPARE) == Some(PREPARE_SCHEMA)
    ensures SchemaOf(SUBMIT) == Some(PAIR_SCHEMA)
  {
  }

  lemma RateToolsAllowlisted(profiles: seq<LoanProfile>, policy: Policy, institution: string)
    ensures ToolsAllowlisted(policy, RatePlan(profiles, policy, institution)) <==>
            READ_PROFILE in policy.allowedTools && PREPARE in policy.allowedTools && SUBMIT in policy.allowedTools
  {
    var calls := RatePlan(profiles, policy, institution).proposedToolCalls;
    assert calls[0].tool == READ_PROFILE && calls[1].tool == PREPARE && calls[2].tool == SUBMIT;
  }

  // What the planner fixes, so that five of the scope rules cannot fail.
  predicate StaysInside(policy: Policy, plan: ActionPlan) {
    && plan.actionType in policy.allowedActionTypes
    && plan.institution in policy.allowedInstitutions
    && (plan.product.Some? ==> plan.product.value in policy.allowedProducts)
    && plan.amount.None? && plan.counterparty.None?
    && DataAllowed(policy, plan)
  }

  lemma RatePlanStaysInside(profiles: seq<LoanProfile>, policy: Policy, institution: string)
    requires RATE_REDUCTION in policy.allowedActionTypes && institution in policy.allowedInstitutions
    ensures StaysInside(policy, RatePlan(profiles, policy, institution))
  {
  }

  // The plan built for a rate-reduction policy passes every scope rule exactly when the
  // policy names a purpose and a product and allowlists the three tools.
  lemma RatePlanIsInScope(ctx: Context, profiles: seq<LoanProfile>, policy: Policy)
    requires ctx.policy == Some(policy)
    requires |policy.allowedActionTypes| > 0 && policy.allowedActionTypes[0] == RATE_REDUCTION
    requires |policy.allowedInstitutions| > 0
    requires BuildPlan(profiles, ctx.request, policy) == Some(ctx.plan)
    ensures ScopeRulesPass(ctx) <==>
            && policy.purpose != ""
            && |policy.allowedProducts| > 0
            && READ_PROFILE in policy.allowedTools && PREPARE in policy.allowedTools && SUBMIT in policy.allowedTools
  {
    var institution := policy.allowedInstitutions[0];
    RatePlanStaysInside(profiles, policy, institution);
    RateCallsConform(profiles, policy, institution);
    RateToolsAllowlisted(profiles, policy, institution);
    ScopeRulesOfInsidePlan(ctx, policy);
  }

  lemma ScopeRulesOfInsidePlan(ctx: Context, policy: Policy)
    requires ctx.policy == Some(policy)
    requires StaysInside(policy, ctx.plan)
    ensures ScopeRulesPass(ctx) <==>
            && policy.purpose != ""
            && ToolsAllowlisted(policy, ctx.plan)
            && CallsConform(ctx.plan.proposedToolCalls)
  {
    ArgumentsValidMeaning(ctx.plan);
    InsideRules(ctx, policy);
  }

  lemma InsideRules(ctx: Context, policy: Policy)
    requires ctx.policy == Some(policy)
    requires StaysInside(policy, ctx.plan)
    ensures ScopeRulesPass(ctx) <==>
            policy.purpose != "" && ToolsAllowlisted(policy, ctx.plan) && ArgumentsValid(ctx.plan)
  {
    assert Fails(PurposeMatch, ctx) <==> policy.purpose == "";
    ToolRuleMeaning(ctx);
    ArgumentRuleMeaning(ctx);
  }

  // --- What the planned calls are for -------------------------------------------------

  // The arguments name this bank and this product.
  predicate ArgumentsName(args: Fields, institution: string, product: Option<string>) {
    Get(args, "institution") == Some(Str(institution)) && Get(args, "product") == Some(OptStr(product))
  }

  // Every call of the plan is for the plan's own bank and product.
  predicate CallsNamePlan(plan: ActionPlan) {
    forall call | call in plan.proposedToolCalls :: ArgumentsName(call.arguments, plan.institution, plan.product)
  }

  lemma PairNames(institution: string, product: Option<string>)
    ensures ArgumentsName(PairArguments(institution, product), institution, product)
  {
    var args := PairArguments(institution, product);
    GetAt(args, 0);
    GetAt(args, 1);
  }

  lemma PrepareArgumentsName(institution: string, product: Option<string>, basis: seq<Value>)
    requires forall i :: 0 <= i < |basis| ==> basis[i].Str?
    ensures var args := PrepareArguments(institution, product, basis);
            ArgumentsName(args, institution, product) && Get(args, "basis") == Some(Arr(basis))
  {
    var args := PrepareArguments(institution, product, basis);
    GetAt(args, 0);
    GetAt(args, 1);
    GetAt(args, 2);
  }

  // The basis is the reason codes of the profile found, and empty without one.
  ghost predicate BasisIsOfProfile(profiles: seq<LoanProfile>, plan: ActionPlan, basis: Option<Value>) {
    exists found :: Finds(profiles, Str(plan.institution), OptStr(plan.product), found)
      && basis == Some(Arr(if found.Some? then StrItems(found.value.reasonCodes) else []))
  }

  // Of the two data classes that such a plan can use it claims those that are allowed.
  predicate ClaimsWhatIsAllowed(policy: Policy, plan: ActionPlan) {
    && (forall d | d in plan.requiredData ::
          d.dataClass in {"CURRENT_RATE", "INCOME_CHANGE_FLAG"} && d.dataClass in policy.allowedDataClasses)
    && (forall name | name in {"CURRENT_RATE", "INCOME_CHANGE_FLAG"} && name in policy.allowedDataClasses ::
          exists d | d in plan.requiredData :: d.dataClass == name)
  }

  lemma ClaimedDataIsAllowed(policy: Policy, plan: ActionPlan)
    requires plan.requiredData == ClaimedData(policy)
    ensures ClaimsWhatIsAllowed(policy, plan)
  {
    assert "CURRENT_RATE" in policy.allowedDataClasses ==>
           RequiredDatum("CURRENT_RATE", RATE_REASON) in plan.requiredData;
    assert "INCOME_CHANGE_FLAG" in policy.allowedDataClasses ==>
           RequiredDatum("INCOME_CHANGE_FLAG", INCOME_REASON) in plan.requiredData;
  }

  // A rate plan is for the delegation's first bank and product: it reads their profile,
  // prepares with its reason codes, and submits.
  ghost predicate IsRatePlan(profiles: seq<LoanProfile>, policy: Policy, plan: ActionPlan) {
    var calls := plan.proposedToolCalls;
    && |policy.allowedInstitutions| > 0 && plan.institution == policy.allowedInstitutions[0]
    && (if |policy.allowedProducts| > 0 then plan.product == Some(policy.allowedProducts[0]) else plan.product == None)
    && ClaimsWhatIsAllowed(policy, plan) && (plan.approvalReason.Some? <==> policy.submitRequiresHuman)
    && |calls| == 3 && calls[0].tool == READ_PROFILE && calls[1].tool == PREPARE && calls[2].tool == SUBMIT
    && CallsNamePlan(plan)
    && BasisIsOfProfile(profiles, plan, Get(calls[1].arguments, "basis"))
  }

  lemma RatePlanCalls(profiles: seq<LoanProfile>, policy: Policy, institution: string)
    requires |policy.allowedInstitutions| > 0 && institution == policy.allowedInstitutions[0]
    ensures IsRatePlan(profiles, policy, RatePlan(profiles, policy, institution))
  {
    var plan := RatePlan(profiles, policy, institution);
    var basis := Basis(profiles, institution, plan.product);
    ClaimedDataIsAllowed(policy, plan);
    PairNames(institution, plan.product);
    PrepareArgumentsName(institution, plan.product, basis);
    FindProfileMeaning(profiles, Str(institution), OptStr(plan.product));
  }

  // A plan without calls, for whatever the delegation puts first.
  predicate IsFallbackPlan(request: Request, policy: Policy, plan: ActionPlan) {
    && plan.proposedToolCalls == [] && plan.requiredData == [] && plan.goal == request.userRequest
    && plan.product == None && plan.amount == None && plan.counterparty == None
    && (if |policy.allowedActionTypes| > 0 then plan.actionType == policy.allowedActionTypes[0]
        else plan.actionType == "UNKNOWN")
    && (if |policy.allowedInstitutions| > 0 then plan.institution == policy.allowedInstitutions[0]
        else plan.institution == "UNKNOWN")
  }

  // What the planner builds: a rate plan for the first action type it knows, and otherwise a
  // plan without calls, whose goal is what the user asked for.
  lemma BuiltPlanMeaning(profiles: seq<LoanProfile>, request: Request, policy: Policy, plan: ActionPlan)
    requires BuildPlan(profiles, request, policy) == Some(plan)
    ensures if |policy.allowedActionTypes| > 0 && policy.allowedActionTypes[0] == RATE_REDUCTION then
              plan.actionType == RATE_REDUCTION && IsRatePlan(profiles, policy, plan)
            else
              IsFallbackPlan(request, policy, plan)
    ensures CallsNamePlan(plan)
  {
    if |policy.allowedActionTypes| > 0 && policy.allowedActionTypes[0] == RATE_REDUCTION {
      RatePlanCalls(profiles, policy, policy.allowedInstitutions[0]);
    }
  }

  // Whatever the gateway submits for such a plan names the plan's own bank and product.
  lemma SubmissionNamesPlan(profiles: seq<LoanProfile>, plan: ActionPlan, allowedTools: seq<string>)
    requires CallsNamePlan(plan)
    ensures var outcome := Gateway.OutcomeOf(Gateway.Attempts(profiles, plan.proposedToolCalls, allowedTools));
            outcome.Some? ==> ArgumentsName(outcome.value, plan.institution, plan.product)
  {
    var calls := plan.proposedToolCalls;
    var rows := Gateway.Attempts(profiles, calls, allowedTools);
    Gateway.OutcomeNamesItsCall(profiles, calls, allowedTools);
    if Gateway.OutcomeOf(rows).Some? {
      var i: nat :| Gateway.LastSubmission(rows, i) && NamesSame(Gateway.OutcomeOf(rows).value, calls[i].arguments);
      assert calls[i] in calls;
    }
  }
}
