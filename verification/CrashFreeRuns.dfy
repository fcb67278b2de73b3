// Runs in which no process stops while it serves one request: that request's trace tells
// its state, and its rows agree. Other requests may crash and plans may be rewritten.
module CrashFreeRuns {
  import opened Wrappers
  import opened Domain
  import opened Lifecycle
  import opened Settlement
  import opened System

  // The step serves this request.
  predicate Concerns(step: Step, id: Id) {
    Targets(step, id) || (step.action.Open? && step.action.id == id)
  }

  predicate CrashFree(steps: seq<Step>, id: Id) {
    forall i | 0 <= i < |steps| :: Concerns(steps[i], id) ==> steps[i].stopsAfter.None?
  }

  lemma RewriteSettles(w: World, c: Case, plan: ActionPlan)
    requires Settled(c)
    ensures Settled(After(c, RewritePlan(w, c, plan)))
  {
  }

  lemma CreatePlanSettles(w: World, c: Case, actors: Actors, now: Time)
    requires Settled(c)
    ensures Settled(After(c, CreatePlan(w, c, actors, now).trail))
  {
    var o := CreatePlan(w, c, actors, now);
    if o.result.Ok? {
      PersistSettles(w, c, actors, o.result.value, now);
    }
  }

  lemma PlanCallSettles(w: World, c: Case, actors: Actors, call: Call, now: Time)
    requires Settled(c) && KindOf(call) == PlanKind
    ensures Settled(After(c, TrailOf(w, c, actors, call, now)))
  {
    if call.CallCreatePlan? {
      CreatePlanSettles(w, c, actors, now);
    } else if call.RewriteStoredPlan? {
      RewriteSettles(w, c, call.plan);
    } else if c.request.state.Draft? || c.request.state.PlanCreated? {
      PersistSettles(w, c, actors, call.plan, now);
    }
  }

  lemma PersonCallSettles(w: World, c: Case, actors: Actors, call: Call, now: Time)
    requires Settled(c) && KindOf(call) == PersonKind
    ensures Settled(After(c, TrailOf(w, c, actors, call, now)))
  {
    if call.CallApprove? {
      ApproveSettles(w, c, actors, call.approverId, now);
    } else if call.CallReject? {
      RejectSettles(w, c, actors, call.approverId, now);
    } else {
      InterveneSettles(w, c, call.incidentId, call.intervention);
    }
  }

  lemma GateCallSettles(w: World, c: Case, actors: Actors, call: Call, now: Time)
    requires Settled(c) && KindOf(call) == GateKind
    ensures Settled(After(c, TrailOf(w, c, actors, call, now)))
  {
    if call.CallEvaluate? {
      EvaluateSettles(w, c, actors, now, call.draws);
    } else {
      ExecuteSettles(w, c, actors, call.key, now, call.draws);
    }
  }

  lemma CallSettles(w: World, c: Case, actors: Actors, call: Call, now: Time)
    requires Settled(c)
    ensures Settled(After(c, TrailOf(w, c, actors, call, now)))
  {
    match KindOf(call)
    case PlanKind => PlanCallSettles(w, c, actors, call, now);
    case PersonKind => PersonCallSettles(w, c, actors, call, now);
    case GateKind => GateCallSettles(w, c, actors, call, now);
  }

  lemma OpenSettles(w: World, db: Db, step: Step, id: Id)
    requires id !in db.cases && id in Perform(w, db, step).cases
    requires Concerns(step, id) ==> step.stopsAfter.None?
    ensures Settled(Perform(w, db, step).cases[id])
  {
    PerformOpens(w, db, step, id);
    var request := step.action.request;
    CreateSettles(w, request, db.policies[PolicyKeyOf(request)], step.now);
  }

  lemma OnSettles(w: World, db: Db, id: Id, call: Call, now: Time)
    requires id in db.cases && Settled(db.cases[id])
    ensures Settled(PerformCall(w, db, id, call, now, None).cases[id])
  {
    CallSettles(w, db.cases[id], ActorsOf(db, db.cases[id].request), call, now);
  }

  lemma StepSettles(w: World, db: Db, step: Step, id: Id)
    requires id in db.cases ==> Settled(db.cases[id])
    requires Concerns(step, id) ==> step.stopsAfter.None?
    requires id in Perform(w, db, step).cases
    ensures Settled(Perform(w, db, step).cases[id])
  {
    if id !in db.cases {
      OpenSettles(w, db, step, id);
    } else if Targets(step, id) {
      PerformTarget(w, db, step, id);
      OnSettles(w, db, id, step.action.call, step.now);
    } else {
      PerformElsewhere(w, db, step, id);
    }
  }

  // Whatever happens to other requests, and with plans rewritten: as long as no process
  // stops while serving this one, its trace reconstructs its state and its rows agree.
  lemma {:induction false} RunSettles(w: World, db: Db, steps: seq<Step>, id: Id)
    requires Initial(db) && CrashFree(steps, id) && id in Run(w, db, steps).cases
    ensures Settled(Run(w, db, steps).cases[id])
  {
    if |steps| > 0 {
      var before := Run(w, db, steps[..|steps| - 1]);
      if id in before.cases {
        RunSettles(w, db, steps[..|steps| - 1], id);
      }
      StepSettles(w, before, steps[|steps| - 1], id);
    }
  }
}
