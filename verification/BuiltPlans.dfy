// Requests whose plans come from the planner alone: what runs and what is submitted is for the
// bank and the product that the delegation puts first.
module BuiltPlans {
  import opened Wrappers
  import opened Domain
  import opened PolicyEngine
  import opened Verdicts
  import opened Lifecycle
  import opened Progress
  import opened System
  import opened Authority
  import Mandate
  import Json
  import Planner

  // Nobody hands in or rewrites a plan of this request.
  predicate PlannerOnly(steps: seq<Step>, id: Id) {
    forall i | 0 <= i < |steps| :: !(Targets(steps[i], id) && BringsPlan(steps[i].action.call))
  }

  predicate BringsPlan(call: Call) {
    call.CallStoreCustomPlan? || call.RewriteStoredPlan?
  }

  // --- Calls that leave the plan as it is ---------------------------------------------

  predicate SamePlans(c: Case, trail: seq<Case>) {
    forall i | 0 <= i < |trail| :: trail[i].plan == c.plan
  }

  lemma HandleBlockedSamePlans(w: World, c: Case, b: Blocking)
    ensures SamePlans(c, HandleBlockedTrail(w, c, b))
  {
    var c1 := After(c, BlockToolsTrail(w, c, b));
    assert SamePlans(c, BlockToolsTrail(w, c, b));
    assert SamePlans(c1, IncidentTrail(w, c1, b));
    var c2 := After(c1, IncidentTrail(w, c1, b));
    assert SamePlans(c2, CloseBlockedTrail(w, c2, b));
  }

  lemma EvaluateTrailSamePlans(w: World, c: Case, b: Blocking)
    ensures SamePlans(c, EvaluateTrail(w, c, b))
  {
    var d := After(c, DecideTrail(w, c, b));
    assert SamePlans(c, DecideTrail(w, c, b));
    HandleBlockedSamePlans(w, d, b);
  }

  lemma ExecuteAllowedSamePlans(w: World, c: Case, x: Running)
    ensures SamePlans(c, ExecuteAllowedTrail(w, c, x))
  {
    var c1 := After(c, RunToolsTrail(w, c, x));
    assert SamePlans(c, RunToolsTrail(w, c, x));
    var c2 := After(c1, RecordExecutionTrail(w, c1, x));
    assert SamePlans(c1, RecordExecutionTrail(w, c1, x));
    assert SamePlans(c2, IssueReceiptTrail(c2, IssuedReceipt(c2, x), x.key));
  }

  lemma ExecuteTrailSamePlans(w: World, c: Case, x: Running, b: Blocking)
    ensures SamePlans(c, ExecuteTrail(w, c, x, b))
  {
    var c1 := c.(evaluations := c.evaluations + [b.evaluation]);
    if b.evaluation.decision == Allow {
      ExecuteAllowedSamePlans(w, c1, x);
    } else {
      HandleBlockedSamePlans(w, WithState(c1, RefusedState(b.evaluation.decision)), b);
    }
  }

  lemma EvaluateSamePlans(w: World, c: Case, actors: Actors, now: Time, draws: Draws)
    ensures SamePlans(c, EvaluateRequest(w, c, actors, now, draws).trail)
  {
    if c.request.state in {PlanCreated, PolicyEvaluated, ApprovalRequired} && c.plan.Some? && actors.policy.Some? {
      var ctx := EvaluationContext(w, c, actors, actors.policy.value, c.plan.value, now);
      EvaluateTrailSamePlans(w, c,
        Blocking(actors.policy, c.plan.value.payload, EvaluationOf(ctx), ctx.security, now, draws));
    }
  }

  lemma GatedExecuteSamePlans(w: World, c: Case, actors: Actors, policy: Policy, row: PlanRow, key: Option<string>,
                              now: Time, draws: Draws)
    ensures SamePlans(c, GatedExecuteTrail(w, c, actors, policy, row, key, now, draws))
  {
    var ctx := ExecutionContext(w, c, actors, policy, row, now, key);
    ExecuteTrailSamePlans(w, c, ExecutingOf(w, c, policy, row, EvaluationOf(ctx), now, key, draws),
                          Blocking(Some(policy), row.payload, EvaluationOf(ctx), ctx.security, now, draws));
  }

  // --- The plan is the planner's ------------------------------------------------------

  predicate IsBuilt(w: World, request: Request, policy: Policy, plan: ActionPlan) {
    Planner.BuildPlan(w.profiles, request, policy) == Some(plan)
  }

  // The stored plan, and the plan of every gateway run, is the planner's for this request.
  predicate HoldsBuilt(w: World, policy: Policy, c: Case) {
    && (c.plan.Some? ==> IsBuilt(w, c.request, policy, c.plan.value.payload))
    && forall run | run in c.runs :: IsBuilt(w, c.request, policy, run.payload)
  }

  // The planner reads neither the state of the request nor the status of the delegation.
  lemma BuildIgnoresStates(w: World, request: Request, state: RequestState, policy: Policy, status: string)
    ensures Planner.BuildPlan(w.profiles, request.(state := state), policy.(status := status)) ==
            Planner.BuildPlan(w.profiles, request, policy)
  {
  }

  lemma BuiltStays(w: World, before: Policy, after: Policy, c: Case, d: Case)
    requires HoldsBuilt(w, before, c) && PolicyKept(before, after)
    requires d.request == c.request.(state := d.request.state) && d.plan == c.plan
    requires forall run :: run in d.runs ==> run in c.runs || (c.plan.Some? && run.payload == c.plan.value.payload)
    ensures HoldsBuilt(w, after, d)
  {
    BuildIgnoresStates(w, c.request, d.request.state, before, after.status);
  }

  lemma NewPlanIsBuilt(w: World, before: Policy, after: Policy, c: Case, d: Case)
    requires HoldsBuilt(w, before, c) && PolicyKept(before, after)
    requires d.request == c.request.(state := d.request.state) && d.runs == c.runs
    requires d.plan.Some? && IsBuilt(w, c.request, before, d.plan.value.payload)
    ensures HoldsBuilt(w, after, d)
  {
    BuildIgnoresStates(w, c.request, d.request.state, before, after.status);
  }

  // How a call may move the plan and the runs.
  predicate MovesPlan(w: World, c: Case, policy: Policy, d: Case) {
    || (d.plan == c.plan &&
        forall run | run in d.runs :: run in c.runs || (c.plan.Some? && run.payload == c.plan.value.payload))
    || (d.runs == c.runs && d.plan.Some? && IsBuilt(w, c.request, policy, d.plan.value.payload))
  }

  predicate TrailMovesPlan(w: World, c: Case, policy: Policy, trail: seq<Case>) {
    forall i | 0 <= i < |trail| :: MovesPlan(w, c, policy, trail[i])
  }

  lemma SamePlansMove(w: World, c: Case, policy: Policy, trail: seq<Case>)
    requires SamePlans(c, trail) && SameRuns(c, trail)
    ensures TrailMovesPlan(w, c, policy, trail)
  {
  }

  lemma ExecuteMovesPlan(w: World, c: Case, actors: Actors, policy: Policy, key: Option<string>, now: Time,
                         draws: Draws)
    requires actors.policy == Some(policy)
    ensures TrailMovesPlan(w, c, policy, Execute(w, c, actors, key, now, draws).trail)
  {
    var t := Execute(w, c, actors, key, now, draws).trail;
    ExecuteTrailIs(w, c, actors, key, now, draws);
    if t != [] {
      GatedExecuteSamePlans(w, c, actors, policy, c.plan.value, key, now, draws);
      GatedExecuteAddsRun(w, c, actors, policy, c.plan.value, key, now, draws);
      OneRunMoves(w, c, policy, t, ExpectedRun(w, c, actors, policy, c.plan.value, key, now, draws));
    }
  }

  lemma OneRunMoves(w: World, c: Case, policy: Policy, trail: seq<Case>, run: GatewayRun)
    requires SamePlans(c, trail) && AllAddRun(c, trail, run)
    requires c.plan.Some? && run.payload == c.plan.value.payload
    ensures TrailMovesPlan(w, c, policy, trail)
  {
  }

  lemma CreatePlanMovesPlan(w: World, c: Case, actors: Actors, policy: Policy, now: Time)
    requires actors.policy == Some(policy)
    ensures TrailMovesPlan(w, c, policy, CreatePlan(w, c, actors, now).trail)
  {
  }

  lemma CallMovesPlan(w: World, c: Case, actors: Actors, policy: Policy, call: Call, now: Time)
    requires actors.policy == Some(policy) && !BringsPlan(call)
    ensures TrailMovesPlan(w, c, policy, TrailOf(w, c, actors, call, now))
  {
    match call
    case CallCreatePlan => CreatePlanMovesPlan(w, c, actors, policy, now);
    case CallEvaluate(draws) =>
      EvaluateSamePlans(w, c, actors, now, draws);
      EvaluateSameRuns(w, c, actors, now, draws);
      SamePlansMove(w, c, policy, EvaluateRequest(w, c, actors, now, draws).trail);
    case CallExecute(key, draws) => ExecuteMovesPlan(w, c, actors, policy, key, now, draws);
    case _ =>
      PersonCallSamePlans(w, c, actors, call, now);
      SamePlansMove(w, c, policy, TrailOf(w, c, actors, call, now));
  }

  lemma ReviewSamePlans(w: World, c: Case, actors: Actors, reviewerId: string, now: Time)
    ensures SamePlans(c, Approve(w, c, actors, reviewerId, now).trail)
    ensures SameRuns(c, Approve(w, c, actors, reviewerId, now).trail)
    ensures SamePlans(c, Reject(w, c, actors, reviewerId, now).trail)
    ensures SameRuns(c, Reject(w, c, actors, reviewerId, now).trail)
  {
  }

  lemma PersonCallSamePlans(w: World, c: Case, actors: Actors, call: Call, now: Time)
    requires KindOf(call) == PersonKind
    ensures SamePlans(c, TrailOf(w, c, actors, call, now)) && SameRuns(c, TrailOf(w, c, actors, call, now))
  {
    if !call.CallIntervene? {
      ReviewSamePlans(w, c, actors, call.approverId, now);
    }
  }

  // --- Runs ---------------------------------------------------------------------------

  predicate CaseBuilt(w: World, db: Db, c: Case) {
    var k := PolicyKeyOf(c.request);
    k in db.policies && HoldsBuilt(w, db.policies[k], c)
  }

  lemma CommittedMovesPlan(w: World, c: Case, policy: Policy, trail: seq<Case>, stopsAfter: Option<nat>)
    requires TrailMovesPlan(w, c, policy, trail)
    ensures MovesPlan(w, c, policy, After(c, Committed(trail, stopsAfter)))
  {
  }

  lemma StepMovesPlan(w: World, db: Db, step: Step, id: Id)
    requires id in db.cases && PolicyKeyOf(db.cases[id].request) in db.policies
    requires !(Targets(step, id) && BringsPlan(step.action.call))
    ensures id in Perform(w, db, step).cases
    ensures MovesPlan(w, db.cases[id], db.policies[PolicyKeyOf(db.cases[id].request)], Perform(w, db, step).cases[id])
  {
    var c := db.cases[id];
    if Targets(step, id) {
      var actors := ActorsOf(db, c.request);
      PerformTarget(w, db, step, id);
      CallMovesPlan(w, c, actors, actors.policy.value, step.action.call, step.now);
      CommittedMovesPlan(w, c, actors.policy.value, TrailOf(w, c, actors, step.action.call, step.now), step.stopsAfter);
    } else {
      PerformElsewhere(w, db, step, id);
    }
  }

  lemma MovedIsBuilt(w: World, before: Db, after: Db, c: Case, d: Case)
    requires CaseBuilt(w, before, c) && DbExtends(before, after) && Extends(c, d)
    requires MovesPlan(w, c, before.policies[PolicyKeyOf(c.request)], d)
    ensures CaseBuilt(w, after, d)
  {
    var k := PolicyKeyOf(c.request);
    var p, q := before.policies[k], after.policies[k];
    if d.plan == c.plan &&
       forall run | run in d.runs :: run in c.runs || (c.plan.Some? && run.payload == c.plan.value.payload) {
      BuiltStays(w, p, q, c, d);
    } else {
      NewPlanIsBuilt(w, p, q, c, d);
    }
  }

  lemma OpenedIsBuilt(w: World, db: Db, step: Step, id: Id)
    requires DbSafe(w, db) && id !in db.cases && id in Perform(w, db, step).cases
    ensures CaseBuilt(w, Perform(w, db, step), Perform(w, db, step).cases[id])
  {
    OpenedHasNoRuns(w, db, step, id);
    OpenedHasNoPlan(w, db, step, id);
    StepKeepsActors(w, db, step, id);
  }

  lemma OpenedHasNoPlan(w: World, db: Db, step: Step, id: Id)
    requires id !in db.cases && id in Perform(w, db, step).cases
    ensures Perform(w, db, step).cases[id].plan == None
  {
    PerformOpens(w, db, step, id);
  }

  // In every run in which nobody hands in or rewrites a plan of this request, its stored
  // plan and the plan of its gateway run are the planner's, for its own delegation.
  lemma {:induction false} RunsAreBuilt(w: World, db: Db, steps: seq<Step>, id: Id)
    requires Initial(db) && PlannerOnly(steps, id) && id in Run(w, db, steps).cases
    ensures CaseBuilt(w, Run(w, db, steps), Run(w, db, steps).cases[id])
  {
    if |steps| > 0 {
      var front, step := steps[..|steps| - 1], steps[|steps| - 1];
      var before := Run(w, db, front);
      assert step == steps[|steps| - 1];
      RunIsSafe(w, db, front);
      if id in before.cases {
        RunsAreBuilt(w, db, front, id);
        StepMovesPlan(w, before, step, id);
        PerformExtends(w, before, step);
        MovedIsBuilt(w, before, Perform(w, before, step), before.cases[id], Perform(w, before, step).cases[id]);
      } else {
        OpenedIsBuilt(w, before, step, id);
      }
    }
  }

  // The outcome names the delegation's first bank and first product.
  predicate NamesFirst(outcome: Json.Fields, policy: Policy) {
    && |policy.allowedInstitutions| > 0 && |policy.allowedProducts| > 0
    && Planner.ArgumentsName(outcome, policy.allowedInstitutions[0], Some(policy.allowedProducts[0]))
  }

  lemma BuiltSubmissionNamesFirst(w: World, request: Request, policy: Policy, plan: ActionPlan, e: Execution)
    requires IsBuilt(w, request, policy, plan) && WithinDelegation(policy, plan) && Mandate.NamesWhatRan(w, e, plan)
    ensures NamesFirst(e.outcome, policy)
  {
    Planner.BuiltPlanMeaning(w.profiles, request, policy, plan);
    assert Mandate.Built(w, plan);
    PermittedCalls(policy, plan);
    Planner.RateCallsConform(w.profiles, policy, policy.allowedInstitutions[0]);
  }

  lemma CaseSubmissionNamesFirst(w: World, db: Db, c: Case, e: Execution)
    requires CaseBuilt(w, db, c) && |c.runs| == 1 && Mandate.NamesWhatRan(w, e, c.runs[0].payload)
    requires WithinDelegation(db.policies[PolicyKeyOf(c.request)], c.runs[0].payload)
    ensures NamesFirst(e.outcome, db.policies[PolicyKeyOf(c.request)])
  {
    assert c.runs[0] in c.runs;
    BuiltSubmissionNamesFirst(w, c.request, db.policies[PolicyKeyOf(c.request)], c.runs[0].payload, e);
  }

  // In every such run, whatever was submitted names the bank and the product that the
  // delegation puts first.
  lemma SubmissionNamesFirst(w: World, db: Db, steps: seq<Step>, id: Id, e: Execution)
    requires Initial(db) && PlannerOnly(steps, id) && id in Run(w, db, steps).cases
    requires e in Run(w, db, steps).cases[id].executions && e.status == Submitted
    ensures var after := Run(w, db, steps);
            var k := PolicyKeyOf(after.cases[id].request);
            k in after.policies && NamesFirst(e.outcome, after.policies[k])
  {
    var after := Run(w, db, steps);
    var c := after.cases[id];
    RunsAreBuilt(w, db, steps, id);
    Mandate.SubmissionNamesWhatRan(w, db, steps, id, e);
    assert c.runs[0] in c.runs;
    Mandate.RunIsWithinDelegation(w, db, steps, id, c.runs[0]);
    CaseSubmissionNamesFirst(w, after, c, e);
  }
}
