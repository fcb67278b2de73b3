// Which requests can still get their receipt, and where a call must stop to lose it.
module ReceiptReach {
  import opened Wrappers
  import opened Domain
  import opened PolicyRules
  import opened PolicyEngine
  import opened Lifecycle
  import opened CaseSafety
  import opened GateStability
  import opened Rows
  import opened Outcomes
  import opened System
  import opened Issuing
  import opened Standstill
  import opened Stopping
  import opened Authority
  import Planner

  predicate HasReceipt(db: Db, id: Id) {
    id in db.cases && Receipted(db.cases[id])
  }

  // No clock reads earlier than this.
  predicate NotBefore(steps: seq<Step>, from: Time) {
    forall i | 0 <= i < |steps| :: from <= steps[i].now
  }

  // Some continuation from this moment on issues one.
  ghost predicate CanBeReceipted(w: World, db: Db, id: Id, from: Time) {
    exists steps :: NotBefore(steps, from) && HasReceipt(Run(w, db, steps), id)
  }

  lemma HasOneAlready(w: World, db: Db, id: Id, from: Time)
    requires HasReceipt(db, id)
    ensures CanBeReceipted(w, db, id, from)
  {
    assert NotBefore([], from) && HasReceipt(Run(w, db, []), id);
  }

  lemma OneStepRuns(w: World, db: Db, step: Step)
    ensures Run(w, db, [step]) == Perform(w, db, step)
  {
    assert [step][..0] == [];
  }

  lemma OneStepFirst(w: World, db: Db, step: Step, id: Id, from: Time)
    requires from <= step.now && CanBeReceipted(w, Perform(w, db, step), id, from)
    ensures CanBeReceipted(w, db, id, from)
  {
    var rest :| NotBefore(rest, from) && HasReceipt(Run(w, Perform(w, db, step), rest), id);
    OneStepRuns(w, db, step);
    RunConcat(w, db, [step], rest);
    assert NotBefore([step] + rest, from) && HasReceipt(Run(w, db, [step] + rest), id);
  }

  lemma OneCallIssues(w: World, db: Db, id: Id, call: Call, now: Time, from: Time)
    requires id in db.cases && from <= now
    requires Receipted(After(db.cases[id], TrailOf(w, db.cases[id], ActorsOf(db, db.cases[id].request), call, now)))
    ensures CanBeReceipted(w, db, id, from)
  {
    var step := Step(On(id, call), now, None);
    PerformTarget(w, db, step, id);
    HasOneAlready(w, Perform(w, db, step), id, from);
    OneStepFirst(w, db, step, id, from);
  }

  // --- Planned: let the delegation run out --------------------------------------------

  // A delegation outside its window refuses the plan.
  lemma UnusableIsRefused(ctx: Context)
    requires ctx.policy.Some? && !DelegationUsable(ctx.policy.value, ctx.now)
    ensures DecisionOf(ctx) == Deny || DecisionOf(ctx) == Quarantine
  {
    if DecisionOf(ctx) == Allow || DecisionOf(ctx) == RequireApproval {
      MildDecisionMeansPass(ctx);
      DelegationRuleMeaning(ctx);
    }
  }

  lemma RefusedTrailIssues(w: World, c: Case, b: Blocking)
    requires NoOutcome(c) && (b.evaluation.decision == Deny || b.evaluation.decision == Quarantine)
    ensures Receipted(After(c, EvaluateTrail(w, c, b)))
  {
    DecideRows(w, c, b);
    HandleBlockedRows(w, After(c, DecideTrail(w, c, b)), b);
  }

  lemma LateEvaluationIssues(w: World, c: Case, actors: Actors, now: Time, draws: Draws)
    requires Safe(w, c) && (c.request.state.PlanCreated? || c.request.state.ApprovalRequired?)
    requires actors.policy.Some? && actors.policy.value.validUntil < now
    ensures Receipted(After(c, EvaluateRequest(w, c, actors, now, draws).trail))
  {
    var ctx := EvaluationContext(w, c, actors, actors.policy.value, c.plan.value, now);
    EvaluableIsUntouched(w, c);
    UnusableIsRefused(ctx);
    RefusedTrailIssues(w, c,
                       Blocking(actors.policy, c.plan.value.payload, EvaluationOf(ctx), ctx.security, now, draws));
  }

  const SOME_DRAWS := Draws("", "")

  function Later(a: Time, b: Time): Time {
    if a < b then b else a
  }

  lemma PlannedCanBeReceipted(w: World, db: Db, id: Id, from: Time)
    requires DbSafe(w, db) && id in db.cases && HasActors(db, db.cases[id])
    requires db.cases[id].request.state.PlanCreated? || db.cases[id].request.state.ApprovalRequired?
    ensures CanBeReceipted(w, db, id, from)
  {
    var actors := ActorsOf(db, db.cases[id].request);
    var late := Later(from, actors.policy.value.validUntil + 1);
    LateEvaluationIssues(w, db.cases[id], actors, late, SOME_DRAWS);
    TrailOfEvaluate(w, db.cases[id], actors, late, SOME_DRAWS);
    OneCallIssues(w, db, id, CallEvaluate(SOME_DRAWS), late, from);
  }

  // --- Approved or allowed: execute ---------------------------------------------------

  lemma ReadyByState(w: World, c: Case, actors: Actors)
    requires Safe(w, c) && actors.policy.Some? && (c.request.state.Allowed? || c.request.state.Approved?)
    ensures Ready(c, actors)
  {
  }

  lemma ReadyExecutionIssues(w: World, c: Case, actors: Actors, key: Option<string>, now: Time, draws: Draws)
    requires Safe(w, c) && Ready(c, actors)
    ensures Receipted(After(c, Execute(w, c, actors, key, now, draws).trail))
  {
    ReadyExecutionReports(w, c, actors, key, now, draws);
  }

  lemma ReadyCanBeReceipted(w: World, db: Db, id: Id, key: Option<string>, from: Time, draws: Draws)
    requires DbSafe(w, db) && id in db.cases && HasActors(db, db.cases[id])
    requires db.cases[id].request.state.Allowed? || db.cases[id].request.state.Approved?
    ensures CanBeReceipted(w, db, id, from)
  {
    var c := db.cases[id];
    ReadyByState(w, c, ActorsOf(db, c.request));
    ReadyExecutionIssues(w, c, ActorsOf(db, c.request), key, from, draws);
    TrailOfExecute(w, c, ActorsOf(db, c.request), key, from, draws);
    OneCallIssues(w, db, id, CallExecute(key, draws), from, from);
  }

  // --- Draft: store a custom plan -----------------------------------------------------

  const SOME_PLAN := ActionPlan("", "", None, "", [], [], [], "", "", "", None, None, None)

  lemma StoringPlans(w: World, db: Db, id: Id, now: Time)
    requires id in db.cases && db.cases[id].request.state.Draft?
    ensures var after := Perform(w, db, Step(On(id, CallStoreCustomPlan(SOME_PLAN)), now, None));
            id in after.cases && after.cases[id].request.state.PlanCreated?
  {
    PerformTarget(w, db, Step(On(id, CallStoreCustomPlan(SOME_PLAN)), now, None), id);
  }

  // Planning first, evaluating after.
  lemma DraftCanBeReceipted(w: World, db: Db, id: Id, from: Time)
    requires DbSafe(w, db) && id in db.cases && HasActors(db, db.cases[id]) && db.cases[id].request.state.Draft?
    ensures CanBeReceipted(w, db, id, from)
  {
    var step := Step(On(id, CallStoreCustomPlan(SOME_PLAN)), from, None);
    PerformSafe(w, db, step);
    StoringPlans(w, db, id, from);
    StepKeepsActors(w, db, step, id);
    PlannedCanBeReceipted(w, Perform(w, db, step), id, from);
    OneStepFirst(w, db, step, id, from);
  }

  // --- Who can be receipted -----------------------------------------------------------

  lemma FinalStaysWithoutReceipt(w: World, db: Db, id: Id, from: Time)
    requires id in db.cases && Final(db.cases[id].request.state) && !Receipted(db.cases[id])
    ensures !CanBeReceipted(w, db, id, from)
  {
    if CanBeReceipted(w, db, id, from) {
      var steps :| NotBefore(steps, from) && HasReceipt(Run(w, db, steps), id);
      FinalStandsStill(w, db, steps, id);
    }
  }

  lemma LiveCanBeReceipted(w: World, db: Db, id: Id, from: Time)
    requires DbSafe(w, db) && id in db.cases && HasActors(db, db.cases[id]) && !Final(db.cases[id].request.state)
    ensures CanBeReceipted(w, db, id, from)
  {
    match db.cases[id].request.state
    case Draft => DraftCanBeReceipted(w, db, id, from);
    case PlanCreated => PlannedCanBeReceipted(w, db, id, from);
    case ApprovalRequired => PlannedCanBeReceipted(w, db, id, from);
    case Approved => ReadyCanBeReceipted(w, db, id, None, from, SOME_DRAWS);
    case Allowed => ReadyCanBeReceipted(w, db, id, None, from, SOME_DRAWS);
    case _ =>
  }

  lemma CanBeReceiptedByState(w: World, db: Db, id: Id, from: Time)
    requires DbSafe(w, db) && id in db.cases && HasActors(db, db.cases[id])
    ensures CanBeReceipted(w, db, id, from) <==> Receipted(db.cases[id]) || !Final(db.cases[id].request.state)
  {
    if Receipted(db.cases[id]) {
      HasOneAlready(w, db, id, from);
    } else if Final(db.cases[id].request.state) {
      FinalStaysWithoutReceipt(w, db, id, from);
    } else {
      LiveCanBeReceipted(w, db, id, from);
    }
  }

  // In every run and from every moment on: a request can still get a receipt exactly if it
  // has one or is not in a final state, that is closed, rejected, or left in the middle of
  // a decision or an execution.
  lemma WhoCanBeReceipted(w: World, initial: Db, steps: seq<Step>, id: Id, from: Time)
    requires Initial(initial) && id in Run(w, initial, steps).cases
    ensures var db := Run(w, initial, steps);
            CanBeReceipted(w, db, id, from) <==> Receipted(db.cases[id]) || !Final(db.cases[id].request.state)
  {
    RunIsSafe(w, initial, steps);
    RequestsHaveActors(w, initial, steps, id);
    CanBeReceiptedByState(w, Run(w, initial, steps), id, from);
  }

  // --- Where a call must stop to lose its receipt -------------------------------------

  lemma TurningStop(w: World, db: Db, id: Id, call: Call, now: Time, n: nat, keeps: nat, k: nat, from: Time)
    requires DbSafe(w, db) && id in db.cases && HasActors(db, db.cases[id])
    requires !Receipted(db.cases[id]) && !Final(db.cases[id].request.state)
    requires Turns(TrailOf(w, db.cases[id], ActorsOf(db, db.cases[id].request), call, now),
                   db.cases[id].request.state, keeps, k)
    ensures CanBeReceipted(w, Perform(w, db, Step(On(id, call), now, Some(n))), id, from) <==> n <= keeps || n > k
  {
    var step := Step(On(id, call), now, Some(n));
    var c := db.cases[id];
    PerformTarget(w, db, step, id);
    PerformSafe(w, db, step);
    StepKeepsActors(w, db, step, id);
    StoppedTurning(c, TrailOf(w, c, ActorsOf(db, c.request), call, now), keeps, k, n);
    CanBeReceiptedByState(w, Perform(w, db, step), id, from);
  }

  predicate Evaluable(c: Case) {
    c.request.state.PlanCreated? || c.request.state.ApprovalRequired?
  }

  predicate IsRefusal(d: Decision) {
    d == Deny || d == Quarantine
  }

  // How many commits a refused evaluation makes up to and including its receipt.
  function CommitsToBlockedReceipt(w: World, c: Case, actors: Actors, now: Time): nat
    requires HasPlan(c, actors)
  {
    3 + BlockedCommits(EvaluationDecision(w, c, actors, now), SignalsFor(w, c, actors)) - 1
  }

  // The gate refuses the stored plan at this time.
  predicate WouldBeRefused(w: World, c: Case, actors: Actors, now: Time) {
    Evaluable(c) && HasPlan(c, actors) && IsRefusal(EvaluationDecision(w, c, actors, now))
  }

  lemma EvaluateTurns(w: World, c: Case, actors: Actors, now: Time, draws: Draws)
    requires c.receipts == [] && WouldBeRefused(w, c, actors, now)
    ensures Turns(EvaluateRequest(w, c, actors, now, draws).trail, c.request.state, 2,
                  CommitsToBlockedReceipt(w, c, actors, now) - 1)
  {
    EvaluationRefusal(w, c, actors, now, draws);
    RefusalTurns(EvaluateRequest(w, c, actors, now, draws).trail, c.request.state,
                 StateFor(EvaluationDecision(w, c, actors, now)), 2);
  }

  lemma EvaluateCallTurns(w: World, c: Case, actors: Actors, now: Time, draws: Draws)
    requires c.receipts == [] && WouldBeRefused(w, c, actors, now)
    ensures Turns(TrailOf(w, c, actors, CallEvaluate(draws), now), c.request.state, 2,
                  CommitsToBlockedReceipt(w, c, actors, now) - 1)
  {
    EvaluateTurns(w, c, actors, now, draws);
    TrailOfEvaluate(w, c, actors, now, draws);
  }

  lemma EvaluableIsLive(w: World, c: Case)
    requires Safe(w, c) && Evaluable(c)
    ensures c.receipts == [] && !Final(c.request.state)
  {
  }

  // A refused evaluation that stops after n commits: the request can still get its receipt
  // exactly if the refusal had not been committed to the state yet, so that evaluating
  // again is permitted, or the receipt had been stored.
  lemma StoppedEvaluation(w: World, db: Db, id: Id, now: Time, draws: Draws, n: nat, from: Time)
    requires DbSafe(w, db) && id in db.cases && HasActors(db, db.cases[id])
    requires WouldBeRefused(w, db.cases[id], ActorsOf(db, db.cases[id].request), now)
    ensures CanBeReceipted(w, Perform(w, db, Step(On(id, CallEvaluate(draws)), now, Some(n))), id, from) <==>
            n < 3 || n >= CommitsToBlockedReceipt(w, db.cases[id], ActorsOf(db, db.cases[id].request), now)
  {
    var c, actors := db.cases[id], ActorsOf(db, db.cases[id].request);
    EvaluableIsLive(w, c);
    EvaluateCallTurns(w, c, actors, now, draws);
    TurningStop(w, db, id, CallEvaluate(draws), now, n, 2, CommitsToBlockedReceipt(w, c, actors, now) - 1, from);
  }

  // How many commits an execution makes up to and including its receipt: nine if the gate
  // allows it, for the tools run in between.
  function CommitsToReceipt(w: World, c: Case, actors: Actors, key: Option<string>, now: Time): nat
    requires HasPlan(c, actors)
  {
    var d := ExecutionDecision(w, c, actors, key, now);
    if d == Allow then 9 else 2 + BlockedCommits(d, SignalsFor(w, c, actors)) - 1
  }

  lemma ExecuteTurns(w: World, c: Case, actors: Actors, key: Option<string>, now: Time, draws: Draws)
    requires Safe(w, c) && Ready(c, actors)
    ensures Turns(Execute(w, c, actors, key, now, draws).trail, c.request.state, 1,
                  CommitsToReceipt(w, c, actors, key, now) - 1)
  {
    var d := ExecutionDecision(w, c, actors, key, now);
    if d == Allow {
      AllowedExecutionTurns(w, c, actors, key, now, draws);
    } else {
      ExecutionRefusal(w, c, actors, key, now, draws);
      RefusalTurns(Execute(w, c, actors, key, now, draws).trail, c.request.state, RefusedState(d), 1);
    }
  }

  lemma ExecuteCallTurns(w: World, c: Case, actors: Actors, key: Option<string>, now: Time, draws: Draws)
    requires Safe(w, c) && Ready(c, actors)
    ensures Turns(TrailOf(w, c, actors, CallExecute(key, draws), now), c.request.state, 1,
                  CommitsToReceipt(w, c, actors, key, now) - 1)
  {
    ExecuteTurns(w, c, actors, key, now, draws);
    TrailOfExecute(w, c, actors, key, now, draws);
  }

  // An execution, refused or allowed, that stops after n commits: likewise.
  lemma StoppedExecution(w: World, db: Db, id: Id, key: Option<string>, now: Time, draws: Draws, n: nat, from: Time)
    requires DbSafe(w, db) && id in db.cases && HasActors(db, db.cases[id])
    requires Ready(db.cases[id], ActorsOf(db, db.cases[id].request))
    ensures CanBeReceipted(w, Perform(w, db, Step(On(id, CallExecute(key, draws)), now, Some(n))), id, from) <==>
            n < 2 || n >= CommitsToReceipt(w, db.cases[id], ActorsOf(db, db.cases[id].request), key, now)
  {
    var c, actors := db.cases[id], ActorsOf(db, db.cases[id].request);
    ReadyIsUntouched(w, c, actors);
    ExecuteCallTurns(w, c, actors, key, now, draws);
    TurningStop(w, db, id, CallExecute(key, draws), now, n, 1, CommitsToReceipt(w, c, actors, key, now) - 1, from);
  }

  // --- Drafts that only a custom plan can move ----------------------------------------

  // The planner has no institution to plan for.
  predicate Unplannable(policy: Policy) {
    && |policy.allowedActionTypes| > 0 && policy.allowedActionTypes[0] == Planner.RATE_REDUCTION
    && |policy.allowedInstitutions| == 0
  }

  predicate StoresCustomPlan(step: Step, id: Id) {
    Targets(step, id) && step.action.call.CallStoreCustomPlan?
  }

  predicate StuckDraft(db: Db, id: Id) {
    && id in db.cases && db.cases[id].request.state.Draft? && HasActors(db, db.cases[id])
    && Unplannable(db.policies[PolicyKeyOf(db.cases[id].request)])
  }

  lemma StuckCall(w: World, c: Case, actors: Actors, call: Call, now: Time)
    requires c.request.state.Draft? && actors.policy.Some? && Unplannable(actors.policy.value)
    requires !call.CallStoreCustomPlan?
    ensures forall d :: d in TrailOf(w, c, actors, call, now) ==> d.request.state.Draft?
  {
  }

  lemma CommittedDraft(c: Case, trail: seq<Case>, stopsAfter: Option<nat>)
    requires c.request.state.Draft? && forall d :: d in trail ==> d.request.state.Draft?
    ensures After(c, Committed(trail, stopsAfter)).request.state.Draft?
  {
  }

  lemma StuckTarget(w: World, db: Db, id: Id, call: Call, now: Time, stopsAfter: Option<nat>)
    requires StuckDraft(db, id) && !call.CallStoreCustomPlan?
    ensures PerformCall(w, db, id, call, now, stopsAfter).cases[id].request.state.Draft?
  {
    var c := db.cases[id];
    StuckCall(w, c, ActorsOf(db, c.request), call, now);
    CommittedDraft(c, TrailOf(w, c, ActorsOf(db, c.request), call, now), stopsAfter);
  }

  lemma DraftStays(w: World, db: Db, step: Step, id: Id)
    requires StuckDraft(db, id) && !StoresCustomPlan(step, id)
    ensures id in Perform(w, db, step).cases && Perform(w, db, step).cases[id].request.state.Draft?
  {
    if Targets(step, id) {
      PerformTarget(w, db, step, id);
      StuckTarget(w, db, id, step.action.call, step.now, step.stopsAfter);
    } else {
      PerformElsewhere(w, db, step, id);
    }
  }

  lemma StuckRemains(before: Db, after: Db, id: Id)
    requires StuckDraft(before, id) && DbExtends(before, after) && after.cases[id].request.state.Draft?
    requires HasActors(after, after.cases[id])
    ensures StuckDraft(after, id)
  {
  }

  lemma StuckStep(w: World, db: Db, step: Step, id: Id)
    requires DbSafe(w, db) && StuckDraft(db, id) && !StoresCustomPlan(step, id)
    ensures StuckDraft(Perform(w, db, step), id)
  {
    DraftStays(w, db, step, id);
    PerformExtends(w, db, step);
    StepKeepsActors(w, db, step, id);
    StuckRemains(db, Perform(w, db, step), id);
  }

  // A draft under such a delegation stays one until somebody stores a custom plan.
  lemma {:induction false} StuckDraftStays(w: World, db: Db, steps: seq<Step>, id: Id)
    requires DbSafe(w, db) && StuckDraft(db, id)
    requires forall i :: 0 <= i < |steps| ==> !StoresCustomPlan(steps[i], id)
    ensures StuckDraft(Run(w, db, steps), id)
  {
    if |steps| > 0 {
      var front := steps[..|steps| - 1];
      StuckDraftStays(w, db, front, id);
      RunIsSafe(w, db, front);
      StuckStep(w, Run(w, db, front), steps[|steps| - 1], id);
    }
  }
}
