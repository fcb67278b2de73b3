// What every gateway run of every run of the service had behind it: actors in good standing, a
// clean document, and a plan within the delegation in force; and what it reported.
module Mandate {
  import opened Wrappers
  import opened Domain
  import opened Detectors
  import opened PolicyEngine
  import opened Verdicts
  import opened Lifecycle
  import opened CaseSafety
  import opened Progress
  import opened System
  import opened Authority
  import Gateway
  import Planner
  import Tools

  // What the gateway reported is what its tools answered.
  predicate ReportedByTools(w: World, run: GatewayRun) {
    run.outcome ==
      Gateway.OutcomeOf(Gateway.Attempts(w.profiles, run.payload.proposedToolCalls, run.policy.allowedTools))
  }

  predicate Standing(principal: Option<Principal>, agent: Option<Agent>) {
    principal.Some? && agent.Some? && agent.value.status == "ACTIVE"
  }

  // The run was made for these actors, on this document.
  ghost predicate Mandated(w: World, principal: Option<Principal>, agent: Option<Agent>, document: Option<string>,
                           run: GatewayRun) {
    && Standing(principal, agent)
    && Clean(ScanOf(w.search, document, run.policy.allowedTools))
    && InForce(run.policy, run.at) && WithinDelegation(run.policy, run.payload) && HasKey(run.key)
    && ReportedByTools(w, run)
  }

  lemma AllowIsMandated(w: World, c: Case, actors: Actors, policy: Policy, row: PlanRow, key: Option<string>,
                        now: Time, draws: Draws)
    requires DecisionOf(ExecutionContext(w, c, actors, policy, row, now, key)) == Allow
    ensures Mandated(w, actors.principal, actors.agent, c.request.untrustedDocument,
                     ExpectedRun(w, c, actors, policy, row, key, now, draws))
  {
    DecisionIsVerdict(ExecutionContext(w, c, actors, policy, row, now, key));
  }

  // --- Every step ---------------------------------------------------------------------

  ghost predicate RunsMandated(w: World, principal: Option<Principal>, agent: Option<Agent>, c: Case) {
    forall run | run in c.runs :: Mandated(w, principal, agent, c.request.untrustedDocument, run)
  }

  ghost predicate CaseMandated(w: World, db: Db, c: Case) {
    RunsMandated(w, Find(db.principals, c.request.principalId), Find(db.agents, c.request.agentId), c)
  }

  // The runs after a call: those before it, and at most one that is mandated.
  ghost predicate AddsMandated(w: World, c: Case, actors: Actors, d: Case) {
    forall run | run in d.runs ::
      run in c.runs || Mandated(w, actors.principal, actors.agent, c.request.untrustedDocument, run)
  }

  ghost predicate AllAddMandated(w: World, c: Case, actors: Actors, trail: seq<Case>) {
    forall d | d in trail :: AddsMandated(w, c, actors, d)
  }

  lemma SameRunsAddNothing(w: World, c: Case, actors: Actors, trail: seq<Case>)
    requires SameRuns(c, trail)
    ensures AllAddMandated(w, c, actors, trail)
  {
  }

  lemma MandatedRunIsAdded(w: World, c: Case, actors: Actors, trail: seq<Case>, run: GatewayRun)
    requires AllAddRun(c, trail, run)
    requires Mandated(w, actors.principal, actors.agent, c.request.untrustedDocument, run)
    ensures AllAddMandated(w, c, actors, trail)
  {
    forall d | d in trail {
      OneMandatedRun(w, c, actors, d, run);
    }
  }

  lemma OneMandatedRun(w: World, c: Case, actors: Actors, d: Case, run: GatewayRun)
    requires AddsRun(c, d, run)
    requires Mandated(w, actors.principal, actors.agent, c.request.untrustedDocument, run)
    ensures AddsMandated(w, c, actors, d)
  {
  }

  lemma ExecuteAddsMandated(w: World, c: Case, actors: Actors, key: Option<string>, now: Time, draws: Draws)
    ensures AllAddMandated(w, c, actors, Execute(w, c, actors, key, now, draws).trail)
  {
    var t := Execute(w, c, actors, key, now, draws).trail;
    ExecuteTrailIs(w, c, actors, key, now, draws);
    if t != [] {
      GatedExecuteAddsMandated(w, c, actors, actors.policy.value, c.plan.value, key, now, draws);
    }
  }

  lemma GatedExecuteAddsMandated(w: World, c: Case, actors: Actors, policy: Policy, row: PlanRow, key: Option<string>,
                                 now: Time, draws: Draws)
    ensures AllAddMandated(w, c, actors, GatedExecuteTrail(w, c, actors, policy, row, key, now, draws))
  {
    var t := GatedExecuteTrail(w, c, actors, policy, row, key, now, draws);
    GatedExecuteAddsRun(w, c, actors, policy, row, key, now, draws);
    if DecisionOf(ExecutionContext(w, c, actors, policy, row, now, key)) == Allow {
      AllowIsMandated(w, c, actors, policy, row, key, now, draws);
      MandatedRunIsAdded(w, c, actors, t, ExpectedRun(w, c, actors, policy, row, key, now, draws));
    } else {
      SameRunsAddNothing(w, c, actors, t);
    }
  }

  lemma OtherCallSameRuns(w: World, c: Case, actors: Actors, call: Call, now: Time)
    requires !call.CallExecute?
    ensures SameRuns(c, TrailOf(w, c, actors, call, now))
  {
    if call.CallEvaluate? {
      EvaluateSameRuns(w, c, actors, now, call.draws);
    }
  }

  lemma CallAddsMandated(w: World, c: Case, actors: Actors, call: Call, now: Time)
    ensures AllAddMandated(w, c, actors, TrailOf(w, c, actors, call, now))
  {
    if call.CallExecute? {
      ExecuteAddsMandated(w, c, actors, call.key, now, call.draws);
    } else {
      OtherCallSameRuns(w, c, actors, call, now);
      SameRunsAddNothing(w, c, actors, TrailOf(w, c, actors, call, now));
    }
  }

  lemma CommittedAddsMandated(w: World, c: Case, actors: Actors, trail: seq<Case>, stopsAfter: Option<nat>)
    requires AllAddMandated(w, c, actors, trail)
    ensures AddsMandated(w, c, actors, After(c, Committed(trail, stopsAfter)))
  {
    var t := Committed(trail, stopsAfter);
    if |t| > 0 {
      assert t[|t| - 1] in trail;
    }
  }

  lemma MandateStays(w: World, before: Db, after: Db, c: Case, d: Case)
    requires CaseMandated(w, before, c) && DbExtends(before, after) && Extends(c, d)
    requires AddsMandated(w, c, ActorsOf(before, c.request), d)
    ensures CaseMandated(w, after, d)
  {
  }

  lemma StepMandates(w: World, db: Db, step: Step, id: Id)
    requires DbSafe(w, db) && (id in db.cases ==> CaseMandated(w, db, db.cases[id]))
    requires id in Perform(w, db, step).cases
    ensures CaseMandated(w, Perform(w, db, step), Perform(w, db, step).cases[id])
  {
    if id !in db.cases {
      OpenedHasNoRuns(w, db, step, id);
    } else {
      var c := db.cases[id];
      PerformExtends(w, db, step);
      StepAddsMandated(w, db, step, id);
      MandateStays(w, db, Perform(w, db, step), c, Perform(w, db, step).cases[id]);
    }
  }

  lemma StepAddsMandated(w: World, db: Db, step: Step, id: Id)
    requires id in db.cases
    ensures id in Perform(w, db, step).cases
    ensures AddsMandated(w, db.cases[id], ActorsOf(db, db.cases[id].request), Perform(w, db, step).cases[id])
  {
    var c := db.cases[id];
    if Targets(step, id) {
      var actors := ActorsOf(db, c.request);
      PerformTarget(w, db, step, id);
      CallAddsMandated(w, c, actors, step.action.call, step.now);
      CommittedAddsMandated(w, c, actors, TrailOf(w, c, actors, step.action.call, step.now), step.stopsAfter);
    } else {
      PerformElsewhere(w, db, step, id);
    }
  }

  // In every run, with crashes and rewrites: every gateway run was made for actors in good
  // standing, on a document without signals, under a delegation in force and with a plan
  // within it, and reported what its tools answered.
  lemma {:induction false} RunsAreMandated(w: World, db: Db, steps: seq<Step>, id: Id)
    requires Initial(db) && id in Run(w, db, steps).cases
    ensures CaseMandated(w, Run(w, db, steps), Run(w, db, steps).cases[id])
  {
    if |steps| > 0 {
      var front := steps[..|steps| - 1];
      RunIsSafe(w, db, front);
      if id in Run(w, db, front).cases {
        RunsAreMandated(w, db, front, id);
      }
      StepMandates(w, Run(w, db, front), steps[|steps| - 1], id);
    }
  }

  // --- What was submitted -------------------------------------------------------------

  lemma StatusIsNotScope(p: Policy, q: Policy, plan: ActionPlan)
    requires PolicyKept(p, q) && WithinDelegation(p, plan)
    ensures WithinDelegation(q, plan)
  {
  }

  // The delegation that the request names, as it is stored now, permits every plan that ran.
  lemma RunIsWithinDelegation(w: World, db: Db, steps: seq<Step>, id: Id, run: GatewayRun)
    requires Initial(db) && id in Run(w, db, steps).cases && run in Run(w, db, steps).cases[id].runs
    ensures var after := Run(w, db, steps);
            var k := PolicyKeyOf(after.cases[id].request);
            k in after.policies && WithinDelegation(after.policies[k], run.payload)
  {
    var after := Run(w, db, steps);
    RunIsSafe(w, db, steps);
    RunsAreStored(w, db, steps);
    RunsAreMandated(w, db, steps, id);
    StoredRunIsWithin(w, after, after.cases[id], run);
  }

  lemma SoleRun(w: World, c: Case, run: GatewayRun)
    requires Safe(w, c) && run in c.runs
    ensures c.runs == [run]
  {
  }

  lemma MandatedRun(w: World, db: Db, c: Case, run: GatewayRun)
    requires CaseMandated(w, db, c) && run in c.runs
    ensures WithinDelegation(run.policy, run.payload) && ReportedByTools(w, run)
  {
  }

  lemma StoredRunIsWithin(w: World, db: Db, c: Case, run: GatewayRun)
    requires Safe(w, c) && CaseMandated(w, db, c) && run in c.runs && (|c.runs| == 1 ==> RunStored(db, c))
    ensures var k := PolicyKeyOf(c.request); k in db.policies && WithinDelegation(db.policies[k], run.payload)
  {
    SoleRun(w, c, run);
    MandatedRun(w, db, c, run);
    StatusIsNotScope(run.policy, db.policies[PolicyKeyOf(c.request)], run.payload);
  }

  // The planner built this plan, for some request and delegation.
  ghost predicate Built(w: World, plan: ActionPlan) {
    exists request, policy :: Planner.BuildPlan(w.profiles, request, policy) == Some(plan)
  }

  // The outcome of an execution is that of a submission in its plan, and names the bank and
  // the product of that call. For a plan that the planner built these are the plan's own.
  ghost predicate NamesWhatRan(w: World, e: Execution, plan: ActionPlan) {
    && (exists call | call in plan.proposedToolCalls ::
          call.tool == Tools.SUBMIT && Tools.NamesSame(e.outcome, call.arguments))
    && (Built(w, plan) ==> Planner.ArgumentsName(e.outcome, plan.institution, plan.product))
  }

  lemma ReportNames(w: World, e: Execution, run: GatewayRun)
    requires Reports(e, run) && e.status == Submitted && ReportedByTools(w, run)
    ensures NamesWhatRan(w, e, run.payload)
  {
    var calls := run.payload.proposedToolCalls;
    Gateway.OutcomeNamesItsCall(w.profiles, calls, run.policy.allowedTools);
    var rows := Gateway.Attempts(w.profiles, calls, run.policy.allowedTools);
    var i: nat :| Gateway.LastSubmission(rows, i) && calls[i].tool == Tools.SUBMIT
                  && Tools.NamesSame(e.outcome, calls[i].arguments);
    assert calls[i] in calls;
    if Built(w, run.payload) {
      var request, policy :| Planner.BuildPlan(w.profiles, request, policy) == Some(run.payload);
      Planner.BuiltPlanMeaning(w.profiles, request, policy, run.payload);
      Planner.SubmissionNamesPlan(w.profiles, run.payload, run.policy.allowedTools);
    }
  }

  // In every run, a submitted execution names what its one gateway run submitted.
  lemma SubmissionNamesWhatRan(w: World, db: Db, steps: seq<Step>, id: Id, e: Execution)
    requires Initial(db) && id in Run(w, db, steps).cases
    requires e in Run(w, db, steps).cases[id].executions && e.status == Submitted
    ensures var c := Run(w, db, steps).cases[id];
            |c.runs| == 1 && NamesWhatRan(w, e, c.runs[0].payload)
  {
    RunIsSafe(w, db, steps);
    RunsAreMandated(w, db, steps, id);
    CaseNamesWhatRan(w, Run(w, db, steps), Run(w, db, steps).cases[id], e);
  }

  lemma SubmittedReports(w: World, c: Case, e: Execution)
    requires Safe(w, c) && e in c.executions && e.status == Submitted
    ensures |c.runs| == 1 && Reports(e, c.runs[0])
  {
  }

  lemma CaseNamesWhatRan(w: World, db: Db, c: Case, e: Execution)
    requires Safe(w, c) && CaseMandated(w, db, c) && e in c.executions && e.status == Submitted
    ensures |c.runs| == 1 && NamesWhatRan(w, e, c.runs[0].payload)
  {
    SubmittedReports(w, c, e);
    assert c.runs[0] in c.runs;
    MandatedRun(w, db, c, c.runs[0]);
    ReportNames(w, e, c.runs[0]);
  }
}
