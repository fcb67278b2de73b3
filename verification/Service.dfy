// The service at work: any list of calls, served one after the other on the database, is a
// run. So whatever is proved of runs is true of the tables.
module Service {
  import opened Wrappers
  import opened Domain
  import opened Lifecycle
  import opened System
  import opened Tables
  import opened Evidence
  import ControlPlane

  // The process does not stop, and what uuid4 draws for the step has not been drawn before.
  ghost predicate Served(db: Db, step: Step) {
    && step.stopsAfter.None?
    && match step.action
       case Open(id, request) => Unused(db.cases, id, request.traceId)
       case On(_, CallEvaluate(draws)) => NewIncident(db, draws)
       case On(_, CallExecute(_, draws)) => NewIncident(db, draws)
       case _ => true
  }

  ghost predicate NewIncident(db: Db, draws: Draws) {
    forall id :: id in db.cases ==> draws.incidentId !in db.cases[id].incidents
  }

  ghost predicate AllServed(w: World, db: Db, steps: seq<Step>) {
    forall i | 0 <= i < |steps| :: Served(Run(w, db, steps[..i]), steps[i])
  }

  lemma NewIncidentRow(db: Database, draws: Draws)
    requires db.Valid() && NewIncident(db.State(), draws)
    ensures draws.incidentId !in db.incidents
  {
    if draws.incidentId in db.incidents {
      db.IncidentQuery(draws.incidentId);
    }
  }

  // --- One call -----------------------------------------------------------------------

  // What a call on a request leaves: the step, if the request exists.
  ghost predicate Leaves(w: World, before: Db, after: Db, id: Id, call: Call, now: Time) {
    after == Perform(w, before, Step(On(id, call), now, None))
  }

  lemma CommitsLeave(w: World, before: Db, commits: seq<Case>, after: ControlPlane.Snapshot, id: Id, call: Call,
                     now: Time, trail: seq<Case>)
    requires id in before.cases &&
             ControlPlane.Committing(ControlPlane.Snapshot(before.cases, commits), after, id, trail)
    requires trail == TrailOf(w, before.cases[id], ActorsOf(before, before.cases[id].request), call, now)
    ensures Leaves(w, before, before.(cases := after.cases), id, call, now)
  {
    ControlPlane.CommittingPerforms(w, before, commits, after, id, call, now, 0);
  }

  lemma NothingLeaves(w: World, before: Db, id: Id, call: Call, now: Time)
    requires id !in before.cases
    ensures Leaves(w, before, before, id, call, now)
  {
  }

  method ServeCreatePlan(db: Database, id: Id, now: Time)
    requires db.Valid()
    modifies db`requests, db`plans, db`cases, db`commits, db.trace
    ensures db.Valid() && Leaves(db.world, old(db.State()), db.State(), id, CallCreatePlan, now)
  {
    ghost var w, before, commits := db.world, db.State(), db.commits;
    var r := ControlPlane.CreatePlan(db, id, now);
    if id in before.cases {
      ghost var c, actors := before.cases[id], ActorsOf(before, before.cases[id].request);
      TrailOfCreatePlan(w, c, actors, now);
      CommitsLeave(w, before, commits, ControlPlane.Now(db), id, CallCreatePlan, now,
                   CreatePlan(w, c, actors, now).trail);
    } else {
      NothingLeaves(w, before, id, CallCreatePlan, now);
    }
  }

  method ServeStorablePlan(db: Database, id: Id, plan: ActionPlan, now: Time)
    requires db.Valid() && id in db.cases && CanStore(db.cases[id])
    modifies db`requests, db`plans, db`cases, db`commits, db.trace
    ensures db.Valid() && Leaves(db.world, old(db.State()), db.State(), id, CallStoreCustomPlan(plan), now)
  {
    ghost var w, before, commits := db.world, db.State(), db.commits;
    var r := ControlPlane.StoreCustomPlan(db, id, plan, now);
    ghost var c, actors := before.cases[id], ActorsOf(before, before.cases[id].request);
    TrailOfStore(w, c, actors, plan, now);
    CommitsLeave(w, before, commits, ControlPlane.Now(db), id, CallStoreCustomPlan(plan), now,
                 StoreCustomPlan(w, c, actors, plan, now).trail);
  }

  lemma UnstorableLeaves(w: World, before: Db, commits: seq<Case>, id: Id, plan: ActionPlan, now: Time)
    requires id in before.cases ==> !CanStore(before.cases[id])
    ensures Leaves(w, before, before, id, CallStoreCustomPlan(plan), now)
  {
    if id in before.cases {
      TrailOfStore(w, before.cases[id], ActorsOf(before, before.cases[id].request), plan, now);
    }
    NoCallLeaves(w, before, commits, id, CallStoreCustomPlan(plan), now);
  }

  // Its one caller stores a custom plan before anything is decided.
  method ServeCustomPlan(db: Database, id: Id, plan: ActionPlan, now: Time)
    requires db.Valid()
    modifies db`requests, db`plans, db`cases, db`commits, db.trace
    ensures db.Valid() && Leaves(db.world, old(db.State()), db.State(), id, CallStoreCustomPlan(plan), now)
  {
    db.Queries(id);
    if id in db.requests && (db.requests[id].state == Draft || db.requests[id].state == RequestState.PlanCreated) {
      ServeStorablePlan(db, id, plan, now);
    } else {
      UnstorableLeaves(db.world, db.State(), db.commits, id, plan, now);
    }
  }

  lemma NoCallLeaves(w: World, before: Db, commits: seq<Case>, id: Id, call: Call, now: Time)
    requires id in before.cases ==>
             TrailOf(w, before.cases[id], ActorsOf(before, before.cases[id].request), call, now) == []
    ensures Leaves(w, before, before, id, call, now)
  {
    if id in before.cases {
      var here := ControlPlane.Snapshot(before.cases, commits);
      ControlPlane.Idle(here, id);
      CommitsLeave(w, before, commits, here, id, call, now, []);
    } else {
      NothingLeaves(w, before, id, call, now);
    }
  }

  method ServeRewrite(db: Database, id: Id, plan: ActionPlan, now: Time)
    requires db.Valid()
    modifies db`plans, db`cases, db`commits
    ensures db.Valid() && Leaves(db.world, old(db.State()), db.State(), id, RewriteStoredPlan(plan), now)
  {
    ghost var w, before, commits := db.world, db.State(), db.commits;
    var r := ControlPlane.RewriteStoredPlan(db, id, plan);
    if id in before.cases {
      ghost var c, actors := before.cases[id], ActorsOf(before, before.cases[id].request);
      TrailOfRewrite(w, c, actors, plan, now);
      CommitsLeave(w, before, commits, ControlPlane.Now(db), id, RewriteStoredPlan(plan), now,
                   RewritePlan(w, c, plan));
    } else {
      NothingLeaves(w, before, id, RewriteStoredPlan(plan), now);
    }
  }

  method ServeApprove(db: Database, id: Id, approverId: string, now: Time)
    requires db.Valid()
    modifies db`requests, db`approvals, db`cases, db`commits, db.trace
    ensures db.Valid() && Leaves(db.world, old(db.State()), db.State(), id, CallApprove(approverId), now)
  {
    ghost var w, before, commits := db.world, db.State(), db.commits;
    var r := ControlPlane.Approve(db, id, approverId, now);
    if id in before.cases {
      ghost var c, actors := before.cases[id], ActorsOf(before, before.cases[id].request);
      TrailOfReview(w, c, actors, approverId, now);
      CommitsLeave(w, before, commits, ControlPlane.Now(db), id, CallApprove(approverId), now,
                   Approve(w, c, actors, approverId, now).trail);
    } else {
      NothingLeaves(w, before, id, CallApprove(approverId), now);
    }
  }

  method ServeReject(db: Database, id: Id, approverId: string, now: Time)
    requires db.Valid()
    modifies db`requests, db`approvals, db`cases, db`commits, db.trace
    ensures db.Valid() && Leaves(db.world, old(db.State()), db.State(), id, CallReject(approverId), now)
  {
    ghost var w, before, commits := db.world, db.State(), db.commits;
    var r := ControlPlane.Reject(db, id, approverId, now);
    if id in before.cases {
      ghost var c, actors := before.cases[id], ActorsOf(before, before.cases[id].request);
      TrailOfReview(w, c, actors, approverId, now);
      CommitsLeave(w, before, commits, ControlPlane.Now(db), id, CallReject(approverId), now,
                   Reject(w, c, actors, approverId, now).trail);
    } else {
      NothingLeaves(w, before, id, CallReject(approverId), now);
    }
  }

  method ServeIntervention(db: Database, id: Id, incidentId: string, intervention: Intervention, now: Time)
    requires db.Valid()
    modifies db`incidents, db`cases, db`commits, db.trace
    ensures db.Valid() && Leaves(db.world, old(db.State()), db.State(), id, CallIntervene(incidentId, intervention),
                                 now)
  {
    ghost var w, before, commits := db.world, db.State(), db.commits;
    if id in db.cases {
      db.IncidentOwner(incidentId, id);
      TrailOfIntervention(w, db.cases[id], ActorsOf(before, db.cases[id].request), incidentId, intervention, now);
    }
    if incidentId in db.incidents && db.incidents[incidentId].requestId == id {
      db.IncidentQuery(incidentId);
      var r := ControlPlane.AddIntervention(db, incidentId, intervention);
      CommitsLeave(w, before, commits, ControlPlane.Now(db), id, CallIntervene(incidentId, intervention), now,
                   Intervene(w, before.cases[id], incidentId, intervention).trail);
    } else {
      NoCallLeaves(w, before, commits, id, CallIntervene(incidentId, intervention), now);
    }
  }

  method ServeEvaluate(db: Database, id: Id, draws: Draws, now: Time)
    requires db.Valid() && NewIncident(db.State(), draws)
    modifies db`requests, db`evaluations, db`toolCalls, db`incidents, db`executions, db`receipts, db`cases, db`commits,
             db.trace
    ensures db.Valid() && Leaves(db.world, old(db.State()), db.State(), id, CallEvaluate(draws), now)
  {
    ghost var w, before, commits := db.world, db.State(), db.commits;
    NewIncidentRow(db, draws);
    var r := ControlPlane.Evaluate(db, id, now, draws);
    if id in before.cases {
      ghost var c, actors := before.cases[id], ActorsOf(before, before.cases[id].request);
      TrailOfEvaluate(w, c, actors, now, draws);
      CommitsLeave(w, before, commits, ControlPlane.Now(db), id, CallEvaluate(draws), now,
                   EvaluateRequest(w, c, actors, now, draws).trail);
    } else {
      NothingLeaves(w, before, id, CallEvaluate(draws), now);
    }
  }

  method ServeExecute(db: Database, id: Id, key: Option<string>, draws: Draws, now: Time)
    requires db.Valid() && NewIncident(db.State(), draws)
    modifies db`requests, db`evaluations, db`toolCalls, db`incidents, db`executions, db`receipts, db`idempotency,
             db`cases, db`commits, db.trace
    ensures db.Valid() && Leaves(db.world, old(db.State()), db.State(), id, CallExecute(key, draws), now)
  {
    ghost var w, before, commits := db.world, db.State(), db.commits;
    NewIncidentRow(db, draws);
    var r := ControlPlane.Execute(db, id, key, now, draws);
    if id in before.cases {
      ghost var c, actors := before.cases[id], ActorsOf(before, before.cases[id].request);
      TrailOfExecute(w, c, actors, key, now, draws);
      CommitsLeave(w, before, commits, ControlPlane.Now(db), id, CallExecute(key, draws), now,
                   Execute(w, c, actors, key, now, draws).trail);
    } else {
      NothingLeaves(w, before, id, CallExecute(key, draws), now);
    }
  }

  // --- One step, and many -------------------------------------------------------------

  method ServeCall(db: Database, id: Id, call: Call, now: Time)
    requires db.Valid() && (KindOf(call) == GateKind ==> NewIncident(db.State(), call.draws))
    modifies db, db.trace
    ensures db.Valid() && Leaves(db.world, old(db.State()), db.State(), id, call, now)
  {
    match call
    case CallCreatePlan => ServeCreatePlan(db, id, now);
    case CallStoreCustomPlan(plan) => ServeCustomPlan(db, id, plan, now);
    case RewriteStoredPlan(plan) => ServeRewrite(db, id, plan, now);
    case CallApprove(approverId) => ServeApprove(db, id, approverId, now);
    case CallReject(approverId) => ServeReject(db, id, approverId, now);
    case CallIntervene(incidentId, intervention) => ServeIntervention(db, id, incidentId, intervention, now);
    case CallEvaluate(draws) => ServeEvaluate(db, id, draws, now);
    case CallExecute(key, draws) => ServeExecute(db, id, key, draws, now);
  }

  method ServeStep(db: Database, step: Step)
    requires db.Valid() && Served(db.State(), step)
    modifies db, db.trace
    ensures db.Valid() && db.State() == Perform(db.world, old(db.State()), step)
  {
    match step.action
    case Open(id, request) =>
      var r := ControlPlane.CreateRequest(db, id, request, step.now);
    case On(id, call) => ServeCall(db, id, call, step.now);
    case CreateDelegation(policy, generatedId) =>
      var r := ControlPlane.AddDelegation(db, policy, generatedId);
    case RevokeDelegation(policyId) =>
      var r := ControlPlane.Revoke(db, policyId);
  }

  // Serving a list of steps that run to completion leaves the state of the run.
  method Serve(db: Database, steps: seq<Step>)
    requires db.Valid() && AllServed(db.world, db.State(), steps)
    modifies db, db.trace
    ensures db.Valid() && db.State() == Run(db.world, old(db.State()), steps)
  {
    ghost var start := db.State();
    var i := 0;
    assert steps[..0] == [];
    while i < |steps|
      invariant 0 <= i <= |steps| && db.Valid()
      invariant db.State() == Run(db.world, start, steps[..i])
    {
      ServeStep(db, steps[i]);
      assert steps[..i + 1][..i] == steps[..i];
      i := i + 1;
    }
    assert steps[..i] == steps;
  }
}
