// Runs in which nobody rewrites a stored plan: what the gate promised still holds, through
// crashes, and it settles every later decision.
module RewriteFreeRuns {
  import opened Wrappers
  import opened Domain
  import opened PolicyRules
  import opened Lifecycle
  import opened CaseSafety
  import opened GateStability
  import opened Outcomes
  import opened System
  import opened Issuing
  import Receipts

  predicate Rewrites(step: Step) {
    step.action.On? && step.action.call.RewriteStoredPlan?
  }

  predicate RewriteFree(steps: seq<Step>) {
    forall i | 0 <= i < |steps| :: !Rewrites(steps[i])
  }

  // --- The gate's promises ------------------------------------------------------------

  ghost predicate DbGated(w: World, db: Db) {
    forall id :: id in db.cases ==> Gated(w, db.cases[id], ActorsOf(db, db.cases[id].request))
  }

  lemma CreatePlanGated(w: World, c: Case, actors: Actors, now: Time)
    ensures AllGated(w, actors, CreatePlan(w, c, actors, now).trail)
  {
    var o := CreatePlan(w, c, actors, now);
    if o.result.Ok? {
      PersistGated(w, c, actors, o.result.value, now);
    }
  }

  lemma PlanCallGated(w: World, c: Case, actors: Actors, call: Call, now: Time)
    requires KindOf(call) == PlanKind && !call.RewriteStoredPlan?
    ensures Gated(w, c, actors) ==> AllGated(w, actors, TrailOf(w, c, actors, call, now))
  {
    if call.CallCreatePlan? {
      CreatePlanGated(w, c, actors, now);
    } else {
      PersistGated(w, c, actors, call.plan, now);
    }
  }

  lemma PersonCallGated(w: World, c: Case, actors: Actors, call: Call, now: Time)
    requires Safe(w, c) && Gated(w, c, actors) && KindOf(call) == PersonKind
    ensures AllGated(w, actors, TrailOf(w, c, actors, call, now))
  {
    if call.CallApprove? {
      ApproveGated(w, c, actors, call.approverId, now);
    } else if call.CallReject? {
      RejectGated(w, c, actors, call.approverId, now);
    } else {
      InterveneGated(w, c, actors, call.incidentId, call.intervention);
    }
  }

  lemma GateCallGated(w: World, c: Case, actors: Actors, call: Call, now: Time)
    requires Gated(w, c, actors) && KindOf(call) == GateKind
    ensures AllGated(w, actors, TrailOf(w, c, actors, call, now))
  {
    if call.CallEvaluate? {
      EvaluateGated(w, c, actors, now, call.draws);
    } else {
      ExecuteGated(w, c, actors, call.key, now, call.draws);
    }
  }

  lemma CallGated(w: World, c: Case, actors: Actors, call: Call, now: Time)
    requires Safe(w, c) && Gated(w, c, actors) && !call.RewriteStoredPlan?
    ensures AllGated(w, actors, TrailOf(w, c, actors, call, now))
  {
    match KindOf(call)
    case PlanKind => PlanCallGated(w, c, actors, call, now);
    case PersonKind => PersonCallGated(w, c, actors, call, now);
    case GateKind => GateCallGated(w, c, actors, call, now);
  }

  lemma CommittedGated(w: World, c: Case, actors: Actors, trail: seq<Case>, stopsAfter: Option<nat>)
    requires Gated(w, c, actors) && AllGated(w, actors, trail)
    ensures Gated(w, After(c, Committed(trail, stopsAfter)), actors)
  {
  }

  lemma OnGated(w: World, db: Db, id: Id, call: Call, now: Time, stopsAfter: Option<nat>)
    requires id in db.cases && Safe(w, db.cases[id]) && !call.RewriteStoredPlan?
    requires Gated(w, db.cases[id], ActorsOf(db, db.cases[id].request))
    ensures var d := PerformCall(w, db, id, call, now, stopsAfter).cases[id];
            Gated(w, d, ActorsOf(db, d.request))
  {
    var c := db.cases[id];
    var actors := ActorsOf(db, c.request);
    var trail := TrailOf(w, c, actors, call, now);
    CallGated(w, c, actors, call, now);
    CommittedGated(w, c, actors, trail, stopsAfter);
    CallAdvances(w, c, actors, call, now);
    CommittedExtends(c, trail, stopsAfter);
  }

  // Policies that are only added or revoked leave the promises in force.
  lemma KeptPoliciesGated(w: World, c: Case, before: Db, after: Db)
    requires Gated(w, c, ActorsOf(before, c.request)) && PoliciesKept(before, after)
    requires after.principals == before.principals && after.agents == before.agents
    ensures Gated(w, c, ActorsOf(after, c.request))
  {
    RevocationKeepsGate(w, c, ActorsOf(before, c.request), ActorsOf(after, c.request));
  }

  lemma OpenedIsDraft(w: World, db: Db, step: Step, id: Id)
    requires id !in db.cases && id in Perform(w, db, step).cases
    ensures Perform(w, db, step).cases[id].request.state == Draft
  {
    PerformOpens(w, db, step, id);
  }

  lemma StepGated(w: World, db: Db, step: Step, id: Id)
    requires DbSafe(w, db) && !Rewrites(step)
    requires id in db.cases && Gated(w, db.cases[id], ActorsOf(db, db.cases[id].request))
    ensures id in Perform(w, db, step).cases
    ensures var d := Perform(w, db, step).cases[id]; Gated(w, d, ActorsOf(Perform(w, db, step), d.request))
  {
    var after := Perform(w, db, step);
    PerformExtends(w, db, step);
    if Targets(step, id) {
      PerformTarget(w, db, step, id);
      OnGated(w, db, id, step.action.call, step.now, step.stopsAfter);
    } else {
      PerformElsewhere(w, db, step, id);
    }
    KeptPoliciesGated(w, after.cases[id], db, after);
  }

  // Holds through crashes.
  lemma {:induction false} RunIsGated(w: World, db: Db, steps: seq<Step>)
    requires Initial(db) && RewriteFree(steps)
    ensures DbGated(w, Run(w, db, steps))
  {
    if |steps| > 0 {
      var front := steps[..|steps| - 1];
      var before, step := Run(w, db, front), steps[|steps| - 1];
      RunIsGated(w, db, front);
      RunIsSafe(w, db, front);
      forall id | id in Perform(w, before, step).cases
        ensures var d := Perform(w, before, step).cases[id]; Gated(w, d, ActorsOf(Perform(w, before, step), d.request))
      {
        if id in before.cases {
          StepGated(w, before, step, id);
        } else {
          OpenedIsDraft(w, before, step, id);
        }
      }
    }
  }

  // --- What it settles ----------------------------------------------------------------

  // In every run without rewrites, whatever stops and resumes, executing an approved or
  // allowed request comes to exactly what the approval's age, the delegation and the key
  // determine.
  lemma ExecutionOutcomeInRuns(w: World, db: Db, steps: seq<Step>, id: Id, key: Option<string>, now: Time, draws: Draws)
    requires Initial(db) && RewriteFree(steps)
    requires id in Run(w, db, steps).cases
    requires var s := Run(w, db, steps).cases[id].request.state; s.Allowed? || s.Approved?
    ensures var after := Run(w, db, steps);
            var c := after.cases[id];
            var actors := ActorsOf(after, c.request);
            && Ready(c, actors)
            && (c.request.state == Approved ==> |c.grants| == 1 && Submits(c.plan.value.payload))
            && var o := Execute(w, c, actors, key, now, draws);
               && o.result.Ok? && o.result.value.status != Receipts.AwaitingApproval
               && ClosedWith(After(c, o.trail), o.result.value,
                             ExpectedDecision(c, actors.policy.value, key, now), c.plan.value.payload)
  {
    RunIsSafe(w, db, steps);
    RunIsGated(w, db, steps);
    var after := Run(w, db, steps);
    var c := after.cases[id];
    ExecutionOutcome(w, c, ActorsOf(after, c.request), key, now, draws);
  }

  // Re-evaluating a request that awaits approval, in any run without rewrites: it still
  // awaits approval, or is denied because the delegation is no longer usable.
  lemma ReevaluationInRuns(w: World, db: Db, steps: seq<Step>, id: Id, now: Time, draws: Draws)
    requires Initial(db) && RewriteFree(steps)
    requires id in Run(w, db, steps).cases && Run(w, db, steps).cases[id].request.state == ApprovalRequired
    ensures var after := Run(w, db, steps);
            var c := after.cases[id];
            var actors := ActorsOf(after, c.request);
            && actors.policy.Some?
            && var o := EvaluateRequest(w, c, actors, now, draws);
               && o.result.Ok?
               && o.result.value.decision ==
                  if DelegationUsable(actors.policy.value, now) then RequireApproval else Deny
  {
    RunIsGated(w, db, steps);
    var after := Run(w, db, steps);
    var c := after.cases[id];
    ReevaluationNeverImproves(w, c, ActorsOf(after, c.request), now);
  }

  lemma GatedIsNotHeld(w: World, db: Db, step: Step, id: Id)
    requires DbGated(w, db)
    ensures !HeldStep(w, db, step, id)
  {
  }

  lemma {:induction false} NeverHeldBack(w: World, db: Db, steps: seq<Step>, id: Id)
    requires Initial(db) && RewriteFree(steps)
    ensures !WasHeldBack(w, db, steps, id)
  {
    if |steps| > 0 {
      var front := steps[..|steps| - 1];
      NeverHeldBack(w, db, front, id);
      RunIsGated(w, db, front);
      GatedIsNotHeld(w, Run(w, db, front), steps[|steps| - 1], id);
    }
  }

  // The receipt status APPROVAL_REQUIRED is unreachable without rewrites, through crashes.
  lemma NoReceiptAwaitsApproval(w: World, db: Db, steps: seq<Step>, id: Id)
    requires Initial(db) && RewriteFree(steps)
    ensures !AnyAwaits(ReceiptsOf(Run(w, db, steps), id))
  {
    NeverHeldBack(w, db, steps, id);
    AwaitingReceipts(w, db, steps, id);
  }
}
