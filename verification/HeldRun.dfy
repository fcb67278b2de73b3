// Two concrete runs. One ends in a receipt awaiting approval: a plan that submits nothing is
// allowed, somebody rewrites it into one that does, and the request is executed. The other
// ends in a blocked request that never gets a receipt: its process stops right after the
// refusal.
module HeldRun {
  import opened Wrappers
  import opened Domain
  import opened Detectors
  import opened Tools
  import opened PolicyRules
  import opened PolicyEngine
  import opened Lifecycle
  import opened CaseSafety
  import opened GateStability
  import opened Outcomes
  import opened System
  import opened Issuing
  import opened Stopping
  import opened ReceiptReach
  import Planner

  // Submission is reserved for a human.
  const POLICY := Policy("policy", 1, "principal", "agent", "purpose", ["ACTION"], ["BANK"], [], [], [SUBMIT],
                         None, None, true, 0, 10, "ACTIVE")

  const REQUEST := Request("principal", "agent", "policy", 1, "", None, "trace", Draft)

  const HARMLESS := ActionPlan("ACTION", "BANK", None, "", [], [], [], "", "", "", None, None, None)

  function SubmittingPlan(): ActionPlan {
    HARMLESS.(proposedToolCalls := [ProposedToolCall(SUBMIT, Planner.PairArguments("BANK", Some("LOAN")))])
  }

  const START := Db(map[], map[("policy", 1) := POLICY], map["principal" := Principal("principal")],
                    map["agent" := Agent("agent", "ACTIVE")])

  const DRAWS := Draws("receipt", "incident")

  const ID: Id := "request"

  const KEY := Some("key")

  function Steps(): seq<Step> {
    [Step(Open(ID, REQUEST), 1, None),
     Step(On(ID, CallStoreCustomPlan(HARMLESS)), 2, None),
     Step(On(ID, CallEvaluate(DRAWS)), 3, None),
     Step(On(ID, RewriteStoredPlan(SubmittingPlan())), 4, None),
     Step(On(ID, CallExecute(KEY, DRAWS)), 5, None)]
  }

  // --- What the gate makes of the two plans -------------------------------------------

  // Everything that the policy limits but the tool calls.
  predicate WithinPolicy(ctx: Context) {
    && ctx.policy == Some(POLICY) && ctx.principal.Some? && ctx.agent.Some? && ctx.agent.value.status == "ACTIVE"
    && ctx.security == NO_SIGNALS
    && ctx.plan == HARMLESS.(proposedToolCalls := ctx.plan.proposedToolCalls)
  }

  lemma WithinPolicyPasses(ctx: Context)
    requires WithinPolicy(ctx) && ToolsAllowlisted(POLICY, ctx.plan) && ArgumentsValid(ctx.plan)
    ensures StaticRulesPass(ctx)
  {
    assert "ACTION" == POLICY.allowedActionTypes[0] && "BANK" == POLICY.allowedInstitutions[0];
    ToolRuleMeaning(ctx);
    ArgumentRuleMeaning(ctx);
  }

  lemma HarmlessIsValid()
    ensures ToolsAllowlisted(POLICY, HARMLESS) && ArgumentsValid(HARMLESS) && !Submits(HARMLESS)
  {
    ArgumentsValidMeaning(HARMLESS);
  }

  lemma SubmissionConforms(call: ProposedToolCall)
    requires call == ProposedToolCall(SUBMIT, Planner.PairArguments("BANK", Some("LOAN")))
    ensures MeetsContract(call)
  {
    Planner.PairConforms("BANK", Some("LOAN"));
    Planner.RegisteredTools();
    CallConforms(call);
  }

  lemma SubmittingConforms(plan: ActionPlan, call: ProposedToolCall)
    requires plan.proposedToolCalls == [call] && MeetsContract(call) && call.tool == SUBMIT
    ensures ArgumentsValid(plan) && Submits(plan) && ToolsAllowlisted(POLICY, plan)
  {
    assert plan.proposedToolCalls[0].tool == SUBMIT && SUBMIT == POLICY.allowedTools[0];
    ArgumentsValidMeaning(plan);
  }

  lemma SubmittingIsValid()
    ensures ToolsAllowlisted(POLICY, SubmittingPlan()) && ArgumentsValid(SubmittingPlan()) && Submits(SubmittingPlan())
  {
    SubmissionConforms(SubmittingPlan().proposedToolCalls[0]);
    SubmittingConforms(SubmittingPlan(), SubmittingPlan().proposedToolCalls[0]);
  }

  lemma HarmlessIsAllowed(ctx: Context)
    requires WithinPolicy(ctx) && ctx.plan == HARMLESS && 0 <= ctx.now <= 10
    requires ctx.approval.None? && !ctx.isExecution
    ensures DecisionOf(ctx) == Allow
  {
    HarmlessIsValid();
    WithinPolicyPasses(ctx);
    DecisionWhenStaticPass(ctx);
    DelegationRuleMeaning(ctx);
    ApprovalRuleMeaning(ctx);
    BindingRuleMeaning(ctx);
    KeyRuleMeaning(ctx);
  }

  // --- The request, step by step ------------------------------------------------------

  const ACTORS := Actors(Some(Principal("principal")), Some(Agent("agent", "ACTIVE")), Some(POLICY))

  // The request as opened, in this state, with this plan.
  predicate At(c: Case, s: RequestState, plan: ActionPlan) {
    c.request == REQUEST.(state := s) && c.plan.Some? && c.plan.value.payload == plan
  }

  lemma Planned(w: World, c: Case)
    requires c.request == REQUEST
    ensures At(After(c, StoreCustomPlan(w, c, ACTORS, HARMLESS, 2).trail), PlanCreated, HARMLESS)
  {
  }

  lemma AllowedTrailEnds(w: World, c: Case, b: Blocking)
    requires b.evaluation.decision == Allow && At(c, PlanCreated, HARMLESS)
    ensures At(After(c, EvaluateTrail(w, c, b)), Allowed, HARMLESS)
  {
  }

  lemma ContextIsWithin(w: World, c: Case, s: RequestState, plan: ActionPlan, now: Time)
    requires At(c, s, plan) && plan == HARMLESS.(proposedToolCalls := plan.proposedToolCalls)
    ensures var ctx := EvaluationContext(w, c, ACTORS, POLICY, c.plan.value, now);
            WithinPolicy(ctx) && ctx.plan == plan && ctx.now == now && ctx.approval.None? && !ctx.isExecution
  {
  }

  lemma GoesAllowed(w: World, c: Case)
    requires At(c, PlanCreated, HARMLESS)
    ensures At(After(c, EvaluateRequest(w, c, ACTORS, 3, DRAWS).trail), Allowed, HARMLESS)
  {
    var ctx := EvaluationContext(w, c, ACTORS, POLICY, c.plan.value, 3);
    ContextIsWithin(w, c, PlanCreated, HARMLESS, 3);
    HarmlessIsAllowed(ctx);
    AllowedTrailEnds(w, c, Blocking(Some(POLICY), HARMLESS, EvaluationOf(ctx), ctx.security, 3, DRAWS));
  }

  lemma CallGoesAllowed(w: World, c: Case)
    requires At(c, PlanCreated, HARMLESS)
    ensures At(After(c, TrailOf(w, c, ACTORS, CallEvaluate(DRAWS), 3)), Allowed, HARMLESS)
  {
    TrailOfEvaluate(w, c, ACTORS, 3, DRAWS);
    GoesAllowed(w, c);
  }

  lemma Rewritten(w: World, c: Case)
    requires At(c, Allowed, HARMLESS)
    ensures At(After(c, RewritePlan(w, c, SubmittingPlan())), Allowed, SubmittingPlan())
  {
  }

  lemma SubmittingPasses(w: World, c: Case)
    requires At(c, Allowed, SubmittingPlan())
    ensures Passed(w, c, ACTORS)
  {
    SubmittingIsValid();
    ContextIsWithin(w, c, Allowed, SubmittingPlan(), 0);
    WithinPolicyPasses(EvaluationContext(w, c, ACTORS, POLICY, c.plan.value, 0));
  }

  lemma IsHeldBack(w: World, c: Case)
    requires At(c, Allowed, SubmittingPlan())
    ensures HeldBack(w, c, ACTORS, KEY, 5)
  {
    SubmittingIsValid();
    SubmittingPasses(w, c);
  }

  lemma ExecutedAwaits(w: World, c: Case)
    requires Safe(w, c) && At(c, Allowed, SubmittingPlan())
    ensures var d := After(c, Execute(w, c, ACTORS, KEY, 5, DRAWS).trail);
            |d.receipts| == 1 && Awaits(d.receipts[0])
  {
    IsHeldBack(w, c);
    HeldOnExecution(w, c, ACTORS, KEY, 5);
    ReadyExecutionReports(w, c, ACTORS, KEY, 5, DRAWS);
  }

  // --- The run ------------------------------------------------------------------------

  // The first k steps.
  function Stage(w: World, k: nat): Db
    requires k <= 5
  {
    Run(w, START, Steps()[..k])
  }

  lemma NextStage(w: World, k: nat)
    requires k < 5
    ensures Stage(w, k + 1) == Perform(w, Stage(w, k), Steps()[k])
  {
    assert Steps()[..k + 1][..k] == Steps()[..k];
  }

  // The request is there, and everything else is as it was at the start.
  predicate Ground(db: Db) {
    db == START.(cases := db.cases) && ID in db.cases &&
      db.cases[ID].request == REQUEST.(state := db.cases[ID].request.state)
  }

  lemma GroundActors(db: Db)
    requires Ground(db)
    ensures ActorsOf(db, db.cases[ID].request) == ACTORS
  {
  }

  lemma CallOnGround(w: World, db: Db, call: Call, now: Time)
    requires Ground(db)
    ensures var after := Perform(w, db, Step(On(ID, call), now, None));
            && after == START.(cases := after.cases) && ID in after.cases
            && after.cases[ID] == After(db.cases[ID], TrailOf(w, db.cases[ID], ACTORS, call, now))
  {
    GroundActors(db);
    PerformTarget(w, db, Step(On(ID, call), now, None), ID);
  }

  lemma StepsAre()
    ensures Steps()[1] == Step(On(ID, CallStoreCustomPlan(HARMLESS)), 2, None)
    ensures Steps()[2] == Step(On(ID, CallEvaluate(DRAWS)), 3, None)
    ensures Steps()[3] == Step(On(ID, RewriteStoredPlan(SubmittingPlan())), 4, None)
    ensures Steps()[4] == Step(On(ID, CallExecute(KEY, DRAWS)), 5, None)
  {
  }

  lemma CallAtStage(w: World, k: nat, call: Call, now: Time)
    requires k < 5 && Steps()[k] == Step(On(ID, call), now, None) && Ground(Stage(w, k))
    ensures var before, after := Stage(w, k), Stage(w, k + 1);
            && after == START.(cases := after.cases) && ID in after.cases
            && after.cases[ID] == After(before.cases[ID], TrailOf(w, before.cases[ID], ACTORS, call, now))
  {
    NextStage(w, k);
    CallOnGround(w, Stage(w, k), call, now);
  }

  lemma Opened(w: World)
    ensures Ground(Stage(w, 1)) && Stage(w, 1).cases[ID].request == REQUEST
  {
    assert Steps()[..0] == [];
    NextStage(w, 0);
    PerformsOpening(w);
  }

  lemma PerformsOpening(w: World)
    ensures var after := Perform(w, START, Step(Open(ID, REQUEST), 1, None));
            Ground(after) && after.cases[ID].request == REQUEST
  {
  }

  lemma StageAt(w: World, k: nat, s: RequestState, plan: ActionPlan)
    requires 2 <= k <= 5 && Stage(w, k) == START.(cases := Stage(w, k).cases) && ID in Stage(w, k).cases
    requires At(Stage(w, k).cases[ID], s, plan)
    ensures Ground(Stage(w, k))
  {
  }

  lemma StageTwo(w: World)
    ensures Ground(Stage(w, 2)) && At(Stage(w, 2).cases[ID], PlanCreated, HARMLESS)
  {
    Opened(w);
    StepsAre();
    CallAtStage(w, 1, CallStoreCustomPlan(HARMLESS), 2);
    TrailOfStore(w, Stage(w, 1).cases[ID], ACTORS, HARMLESS, 2);
    Planned(w, Stage(w, 1).cases[ID]);
    StageAt(w, 2, PlanCreated, HARMLESS);
  }

  lemma EvaluatedOnGround(w: World, db: Db)
    requires Ground(db) && At(db.cases[ID], PlanCreated, HARMLESS)
    ensures var after := Perform(w, db, Step(On(ID, CallEvaluate(DRAWS)), 3, None));
            Ground(after) && At(after.cases[ID], Allowed, HARMLESS)
  {
    CallOnGround(w, db, CallEvaluate(DRAWS), 3);
    CallGoesAllowed(w, db.cases[ID]);
  }

  lemma StageThree(w: World)
    ensures Ground(Stage(w, 3)) && At(Stage(w, 3).cases[ID], Allowed, HARMLESS)
  {
    StageTwo(w);
    StepsAre();
    NextStage(w, 2);
    EvaluatedOnGround(w, Stage(w, 2));
  }

  lemma StageFour(w: World)
    ensures Ground(Stage(w, 4)) && At(Stage(w, 4).cases[ID], Allowed, SubmittingPlan())
  {
    StageThree(w);
    StepsAre();
    CallAtStage(w, 3, RewriteStoredPlan(SubmittingPlan()), 4);
    TrailOfRewrite(w, Stage(w, 3).cases[ID], ACTORS, SubmittingPlan(), 4);
    Rewritten(w, Stage(w, 3).cases[ID]);
    StageAt(w, 4, Allowed, SubmittingPlan());
  }

  lemma StageFourIsSafe(w: World)
    requires ID in Stage(w, 4).cases
    ensures Safe(w, Stage(w, 4).cases[ID])
  {
    RunIsSafe(w, START, Steps()[..4]);
  }

  lemma StageFive(w: World)
    ensures ID in Stage(w, 5).cases && |Stage(w, 5).cases[ID].receipts| == 1
    ensures Awaits(Stage(w, 5).cases[ID].receipts[0])
  {
    StageFour(w);
    StageFourIsSafe(w);
    StepsAre();
    CallAtStage(w, 4, CallExecute(KEY, DRAWS), 5);
    TrailOfExecute(w, Stage(w, 4).cases[ID], ACTORS, KEY, 5, DRAWS);
    ExecutedAwaits(w, Stage(w, 4).cases[ID]);
  }

  lemma AnAwaitingReceipt(db: Db, id: Id)
    requires id in db.cases && |db.cases[id].receipts| == 1 && Awaits(db.cases[id].receipts[0])
    ensures AnyAwaits(ReceiptsOf(db, id))
  {
    assert Awaits(ReceiptsOf(db, id)[0]);
  }

  // Whatever the digest, the loan data and the detectors: this run, without a crash, starts
  // from nothing and ends in a receipt with status APPROVAL_REQUIRED.
  lemma ReceiptCanAwaitApproval(w: World)
    ensures Initial(START)
    ensures AnyAwaits(ReceiptsOf(Run(w, START, Steps()), ID))
  {
    StageFive(w);
    AnAwaitingReceipt(Stage(w, 5), ID);
    assert Steps()[..5] == Steps();
  }

  // --- A blocked request without a receipt --------------------------------------------

  // The delegation has run out, and the process stops once the refusal is committed.
  function StoppedStep(): Step {
    Step(On(ID, CallEvaluate(DRAWS)), 11, Some(3))
  }

  function StoppedSteps(): seq<Step> {
    Steps()[..2] + [StoppedStep()]
  }

  lemma HarmlessIsDenied(ctx: Context)
    requires WithinPolicy(ctx) && ctx.plan == HARMLESS && 10 < ctx.now
    requires ctx.approval.None? && !ctx.isExecution
    ensures DecisionOf(ctx) == Deny
  {
    HarmlessIsValid();
    WithinPolicyPasses(ctx);
    DecisionWhenStaticPass(ctx);
    DelegationRuleMeaning(ctx);
    BindingRuleMeaning(ctx);
  }

  lemma IsRefusedLate(w: World, c: Case)
    requires At(c, PlanCreated, HARMLESS)
    ensures HasPlan(c, ACTORS) && EvaluationDecision(w, c, ACTORS, 11) == Deny
  {
    ContextIsWithin(w, c, PlanCreated, HARMLESS, 11);
    HarmlessIsDenied(EvaluationContext(w, c, ACTORS, POLICY, c.plan.value, 11));
  }

  lemma StoppedAtDenied(w: World, c: Case)
    requires At(c, PlanCreated, HARMLESS) && c.receipts == []
    ensures var d := After(c, Committed(TrailOf(w, c, ACTORS, CallEvaluate(DRAWS), 11), Some(3)));
            d.request.state == Denied && !Receipted(d)
  {
    IsRefusedLate(w, c);
    EvaluationRefusal(w, c, ACTORS, 11, DRAWS);
    TrailOfEvaluate(w, c, ACTORS, 11, DRAWS);
    StoppedRefusal(c, TrailOf(w, c, ACTORS, CallEvaluate(DRAWS), 11), Denied, 2, 3);
  }

  lemma StageTwoHasNoReceipt(w: World)
    requires Ground(Stage(w, 2)) && At(Stage(w, 2).cases[ID], PlanCreated, HARMLESS)
    ensures Stage(w, 2).cases[ID].receipts == []
  {
    RunIsSafe(w, START, Steps()[..2]);
    EvaluableIsLive(w, Stage(w, 2).cases[ID]);
  }

  lemma StopsAtDenied(w: World, db: Db)
    requires Ground(db) && At(db.cases[ID], PlanCreated, HARMLESS) && db.cases[ID].receipts == []
    ensures var after := Perform(w, db, StoppedStep());
            ID in after.cases && after.cases[ID].request.state == Denied && !Receipted(after.cases[ID])
  {
    GroundActors(db);
    StoppedAtDenied(w, db.cases[ID]);
    PerformTarget(w, db, StoppedStep(), ID);
  }

  // This run starts from nothing and leaves a request blocked without a receipt, and no
  // continuation issues one.
  lemma BlockedWithoutReceipt(w: World, from: Time)
    ensures var db := Run(w, START, StoppedSteps());
            && ID in db.cases && db.cases[ID].request.state == Denied && !Receipted(db.cases[ID])
            && !CanBeReceipted(w, db, ID, from)
  {
    StageTwo(w);
    StageTwoHasNoReceipt(w);
    StopsAtDenied(w, Stage(w, 2));
    assert StoppedSteps()[..2] == Steps()[..2];
    FinalStaysWithoutReceipt(w, Run(w, START, StoppedSteps()), ID, from);
  }
}
