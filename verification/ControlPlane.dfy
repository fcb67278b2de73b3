// The lifecycle service (app/domain/lifecycle.py, app/routers/operator.py,
// app/routers/delegations.py) over the database, statement by statement. Every method
// leaves exactly the commits of its step, in order.
module ControlPlane {
  import opened Wrappers
  import opened Domain
  import opened Detectors
  import opened PolicyRules
  import opened PolicyEngine
  import opened Evidence
  import opened Receipts
  import opened Lifecycle
  import opened System
  import opened Tables
  import TraceStore
  import Gateway
  import Planner

  // The rows of every request, and the commits so far.
  datatype Snapshot = Snapshot(cases: Cases, commits: seq<Case>)

  ghost function Now(db: Database): Snapshot
    reads db
  {
    Snapshot(db.cases, db.commits)
  }

  // From one moment to the next, exactly this trail was committed for one request.
  ghost predicate Committing(before: Snapshot, after: Snapshot, id: Id, trail: seq<Case>) {
    && id in before.cases
    && after.cases == before.cases[id := After(before.cases[id], trail)]
    && after.commits == before.commits + trail
  }

  lemma Idle(before: Snapshot, id: Id)
    requires id in before.cases
    ensures Committing(before, before, id, [])
  {
    assert before.cases == before.cases[id := before.cases[id]];
  }

  // Two trails on one request, one after the other, are one trail.
  lemma InSequence(before: Snapshot, between: Snapshot, after: Snapshot, id: Id, t1: seq<Case>, t2: seq<Case>)
    requires Committing(before, between, id, t1) && Committing(between, after, id, t2)
    ensures Committing(before, after, id, t1 + t2)
  {
  }

  // _handle_blocked
  method HandleBlocked(db: Database, id: Id, b: Blocking) returns (receipt: Receipt)
    requires db.Valid() && id in db.cases && b.draws.incidentId !in db.incidents
    modifies db`requests, db`toolCalls, db`incidents, db`executions, db`receipts, db`cases, db`commits, db.trace
    ensures db.Valid()
    ensures Committing(old(Now(db)), Now(db), id, HandleBlockedTrail(db.world, old(db.cases[id]), b))
    ensures |db.cases[id].receipts| > 0 && receipt == LastReceipt(db.cases[id])
  {
    ghost var before := Now(db);
    var blocked := BlockTools(db, id, b);
    ghost var between := Now(db);
    QuarantineIncident(db, id, b);
    ghost var closing := Now(db);
    ghost var t1 := BlockToolsTrail(db.world, before.cases[id], b);
    ghost var t2 := IncidentTrail(db.world, between.cases[id], b);
    InSequence(before, between, closing, id, t1, t2);
    receipt := CloseBlocked(db, id, b, blocked);
    InSequence(before, closing, Now(db), id, t1 + t2, CloseBlockedTrail(db.world, closing.cases[id], b));
  }

  method AddToolCalls(db: Database, id: Id, rows: seq<ToolCall>)
    requires db.Valid() && id in db.cases
    modifies db`toolCalls, db`cases
    ensures db.Valid()
    ensures db.cases == old(db.cases)[id := old(db.cases[id]).(toolCalls := old(db.cases[id]).toolCalls + rows)]
  {
    ghost var before, c := db.cases, db.cases[id];
    Overwriting(id);
    assert c.toolCalls + rows[..0] == c.toolCalls;
    assert before == before[id := c];
    var i := 0;
    while i < |rows|
      invariant 0 <= i <= |rows| && db.Valid() && id in db.cases
      invariant db.cases == before[id := c.(toolCalls := c.toolCalls + rows[..i])]
    {
      db.AddToolCall(id, rows[i]);
      assert c.toolCalls + rows[..i] + [rows[i]] == c.toolCalls + rows[..i + 1];
      i := i + 1;
    }
    assert rows[..i] == rows;
  }

  // The rows of the tools that untrusted text tried to reach, in one commit.
  method StoreBlockedCalls(db: Database, id: Id, tools: seq<string>) returns (blocked: seq<ToolCall>)
    requires db.Valid() && id in db.cases
    modifies db`toolCalls, db`cases, db`commits
    ensures db.Valid() && blocked == BlockedCalls(tools)
    ensures var c := old(db.cases[id]);
            Committing(old(Now(db)), Now(db), id, [c.(toolCalls := c.toolCalls + blocked)])
  {
    ghost var all := BlockedCalls(tools);
    blocked := [];
    for i := 0 to |tools|
      invariant blocked == all[..i]
    {
      blocked := blocked + [BlockedCall(tools[i])];
    }
    AddToolCalls(db, id, blocked);
    db.Commit(id);
  }

  method BlockTools(db: Database, id: Id, b: Blocking) returns (blocked: seq<ToolCall>)
    requires db.Valid() && id in db.cases
    modifies db`toolCalls, db`cases, db`commits, db.trace
    ensures db.Valid() && blocked == BlockedCalls(b.signals.attemptedUnauthorizedTools)
    ensures Committing(old(Now(db)), Now(db), id, BlockToolsTrail(db.world, old(db.cases[id]), b))
  {
    ghost var before := Now(db);
    blocked := StoreBlockedCalls(db, id, b.signals.attemptedUnauthorizedTools);
    if |blocked| > 0 {
      ghost var between := Now(db);
      db.Queries(id);
      var e := db.AppendEvent(id, TraceStore.ToolCallBlocked, BlockedBody(db.requests[id], b, UsesOf(blocked), None));
      InSequence(before, between, Now(db), id, [between.cases[id]], [db.cases[id]]);
    }
  }

  method OpenIncident(db: Database, id: Id, b: Blocking)
    requires db.Valid() && id in db.cases && b.draws.incidentId !in db.incidents
    modifies db`incidents, db`cases, db`commits
    ensures db.Valid()
    ensures var c := old(db.cases[id]);
            Committing(old(Now(db)), Now(db), id,
              [c.(incidents := c.incidents[b.draws.incidentId := Incident(RiskFlags(b.signals), IncidentOpen, [])])])
  {
    db.PutIncident(id, b.draws.incidentId, Incident(RiskFlags(b.signals), IncidentOpen, []));
    db.Commit(id);
  }

  method QuarantineIncident(db: Database, id: Id, b: Blocking)
    requires db.Valid() && id in db.cases && b.draws.incidentId !in db.incidents
    modifies db`incidents, db`cases, db`commits, db.trace
    ensures db.Valid()
    ensures Committing(old(Now(db)), Now(db), id, IncidentTrail(db.world, old(db.cases[id]), b))
  {
    ghost var before := Now(db);
    if b.evaluation.decision == Quarantine {
      OpenIncident(db, id, b);
      ghost var between := Now(db);
      db.Queries(id);
      var e := db.AppendEvent(id, TraceStore.IncidentQuarantined, BlockedBody(db.requests[id], b, [], None));
      InSequence(before, between, Now(db), id, [between.cases[id]], [db.cases[id]]);
    } else {
      Idle(before, id);
    }
  }

  // _store_receipt, and the commit that closes the request
  method IssueReceipt(db: Database, id: Id, receipt: Receipt)
    requires db.Valid() && id in db.cases
    modifies db`requests, db`receipts, db`cases, db`commits
    ensures db.Valid()
    ensures Committing(old(Now(db)), Now(db), id, IssueReceiptTrail(old(db.cases[id]), receipt, None))
  {
    Overwriting(id);
    db.AddReceipt(id, receipt);
    db.Commit(id);
    db.SetState(id, ReceiptIssued);
    db.Commit(id);
  }

  // The last event of a blocked request, and the execution that did not happen.
  method RecordNoExecution(db: Database, id: Id, b: Blocking, blocked: seq<ToolCall>) returns (eventHash: string)
    requires db.Valid() && id in db.cases && blocked == BlockedCalls(b.signals.attemptedUnauthorizedTools)
    modifies db`executions, db`cases, db`commits, db.trace
    ensures db.Valid()
    ensures Committing(old(Now(db)), Now(db), id, NoExecutionTrail(db.world, old(db.cases[id]), b))
    ensures eventHash == TraceStore.FinalHash(db.cases[id].trace)
  {
    ghost var before := Now(db);
    db.Queries(id);
    var e := db.AppendEvent(id, TraceStore.ReceiptIssued,
                            BlockedBody(db.requests[id], b, UsesOf(blocked), Some(NoExecutionOutcome())));
    eventHash := e.eventHash;
    ghost var between := Now(db);
    db.AddExecution(id, Execution(None, NoExecution, NoExecutionOutcome()));
    db.Commit(id);
    InSequence(before, between, Now(db), id, [between.cases[id]], [db.cases[id]]);
  }

  ghost function NoExecutionTrail(w: World, c: Case, b: Blocking): seq<Case> {
    var c1 := Append(w, c, TraceStore.ReceiptIssued,
                     BlockedBody(c.request, b, BlockedUses(b), Some(NoExecutionOutcome())));
    [c1, c1.(executions := c1.executions + [Execution(None, NoExecution, NoExecutionOutcome())])]
  }

  method CloseBlocked(db: Database, id: Id, b: Blocking, blocked: seq<ToolCall>) returns (receipt: Receipt)
    requires db.Valid() && id in db.cases && blocked == BlockedCalls(b.signals.attemptedUnauthorizedTools)
    modifies db`requests, db`executions, db`receipts, db`cases, db`commits, db.trace
    ensures db.Valid()
    ensures Committing(old(Now(db)), Now(db), id, CloseBlockedTrail(db.world, old(db.cases[id]), b))
    ensures |db.cases[id].receipts| > 0 && receipt == LastReceipt(db.cases[id])
  {
    ghost var before := Now(db);
    ClosesBlocked(db.world, db.cases[id], b);
    var finalHash := RecordNoExecution(db, id, b, blocked);
    ghost var between := Now(db);
    db.Queries(id);
    receipt := BuildReceipt(b.draws.receiptId, db.requests[id], b.plan, b.evaluation, None, None, blocked, finalHash);
    IssueReceipt(db, id, receipt);
    InSequence(before, between, Now(db), id, NoExecutionTrail(db.world, before.cases[id], b),
               IssueReceiptTrail(between.cases[id], receipt, None));
  }

  lemma ClosesBlocked(w: World, c: Case, b: Blocking)
    ensures var t := NoExecutionTrail(w, c, b);
            var c2 := After(c, t);
            CloseBlockedTrail(w, c, b) ==
            t + IssueReceiptTrail(c2, Lifecycle.BlockedReceipt(c2, b, TraceStore.FinalHash(c2.trace)), None)
  {
  }

  // --- Loading ------------------------------------------------------------------------

  function Load(db: Database, request: Request): (actors: Actors)
    reads db
    ensures actors == ActorsOf(db.State(), request)
  {
    Actors(Find(db.principals, request.principalId), Find(db.agents, request.agentId),
           Find(db.policies, PolicyKeyOf(request)))
  }

  // Assign the state and commit.
  method MoveTo(db: Database, id: Id, s: RequestState)
    requires db.Valid() && id in db.cases
    modifies db`requests, db`cases, db`commits
    ensures db.Valid()
    ensures db.cases == old(db.cases)[id := WithState(old(db.cases[id]), s)]
    ensures db.commits == old(db.commits) + [WithState(old(db.cases[id]), s)]
  {
    db.SetState(id, s);
    db.Commit(id);
  }

  // --- create_request -----------------------------------------------------------------

  method CreateRequest(db: Database, id: Id, request: Request, now: Time) returns (r: Result<(), Error>)
    requires db.Valid() && Unused(db.cases, id, request.traceId)
    modifies db`requests, db`cases, db`commits, db.trace
    ensures db.Valid()
    ensures r.Ok? <==> CanOpen(old(db.State()), id, request)
    ensures r.Err? ==> db.cases == old(db.cases) && db.commits == old(db.commits)
    ensures r == Err(PolicyNotFound) <==> PolicyKeyOf(request) !in db.policies
    ensures r.Ok? ==>
            var trail := OpenTrail(db.world, old(db.State()), request, now);
            db.cases == old(db.cases)[id := trail[1]] && db.commits == old(db.commits) + trail
    ensures db.State() == PerformOpen(db.world, old(db.State()), id, request, now, None)
  {
    db.Queries(id);
    if PolicyKeyOf(request) !in db.policies {
      return Err(PolicyNotFound);
    }
    if request.principalId !in db.principals || request.agentId !in db.agents {
      return Err(IntegrityViolation);
    }
    Overwriting(id);
    db.InsertRequest(id, request);
    db.Commit(id);
    var e := db.AppendEvent(id, TraceStore.RequestReceived,
      MstsBody(request, Some(db.policies[PolicyKeyOf(request)]), None, now, None, ReviewNotRequired, [], [], None,
               None));
    r := Ok(());
  }

  // --- create_plan, store_custom_plan, the plan rewrite of scenarios.py ---------------

  // _persist_plan
  method PersistPlan(db: Database, id: Id, actors: Actors, plan: ActionPlan, now: Time)
    requires db.Valid() && id in db.cases
    modifies db`requests, db`plans, db`cases, db`commits, db.trace
    ensures db.Valid()
    ensures Committing(old(Now(db)), Now(db), id, PersistTrail(db.world, old(db.cases[id]), actors, plan, now))
  {
    Overwriting(id);
    db.PutPlan(id, PlanRow(db.world.planHash(plan), plan));
    db.SetState(id, RequestState.PlanCreated);
    db.Commit(id);
    db.Queries(id);
    var e := db.AppendEvent(id, TraceStore.PlanCreated,
      MstsBody(db.requests[id], actors.policy, Some(plan), now, None, ReviewNotRequired, [], [], None, None));
  }

  method CreatePlan(db: Database, id: Id, now: Time) returns (r: Result<ActionPlan, Error>)
    requires db.Valid()
    modifies db`requests, db`plans, db`cases, db`commits, db.trace
    ensures db.Valid()
    ensures id !in old(db.cases) ==>
            r == Err(RequestNotFound) && db.cases == old(db.cases) && db.commits == old(db.commits)
    ensures id in old(db.cases) ==>
            var c := old(db.cases[id]);
            var o := Lifecycle.CreatePlan(db.world, c, ActorsOf(old(db.State()), c.request), now);
            r == o.result && Committing(old(Now(db)), Now(db), id, o.trail)
  {
    db.Queries(id);
    if id !in db.requests {
      return Err(RequestNotFound);
    }
    Idle(Now(db), id);
    var request := db.requests[id];
    if request.state !in {Draft, RequestState.PlanCreated} {
      return Err(IllegalTransition(request.state));
    }
    var actors := Load(db, request);
    if actors.policy.None? {
      return Err(PolicyNotFound);
    }
    var plan := Planner.BuildPlan(db.world.profiles, request, actors.policy.value);
    if plan.None? {
      return Err(IndexOutOfRange);
    }
    PersistPlan(db, id, actors, plan.value, now);
    r := Ok(plan.value);
  }

  method StoreCustomPlan(db: Database, id: Id, plan: ActionPlan, now: Time) returns (r: Result<ActionPlan, Error>)
    requires db.Valid()
    modifies db`requests, db`plans, db`cases, db`commits, db.trace
    ensures db.Valid()
    ensures id !in old(db.cases) ==>
            r == Err(RequestNotFound) && db.cases == old(db.cases) && db.commits == old(db.commits)
    ensures id in old(db.cases) ==>
            var c := old(db.cases[id]);
            var o := Lifecycle.StoreCustomPlan(db.world, c, ActorsOf(old(db.State()), c.request), plan, now);
            r == o.result && Committing(old(Now(db)), Now(db), id, o.trail)
  {
    db.Queries(id);
    if id !in db.requests {
      return Err(RequestNotFound);
    }
    PersistPlan(db, id, Load(db, db.requests[id]), plan, now);
    r := Ok(plan);
  }

  method RewriteStoredPlan(db: Database, id: Id, plan: ActionPlan) returns (r: Result<(), Error>)
    requires db.Valid()
    modifies db`plans, db`cases, db`commits
    ensures db.Valid()
    ensures id !in old(db.cases) ==> r == Err(RequestNotFound) && db.cases == old(db.cases)
    ensures id in old(db.cases) ==>
            Committing(old(Now(db)), Now(db), id, RewritePlan(db.world, old(db.cases[id]), plan))
  {
    db.Queries(id);
    if id !in db.requests {
      return Err(RequestNotFound);
    }
    Idle(Now(db), id);
    if id !in db.plans {
      return Err(PlanNotFound);
    }
    db.PutPlan(id, PlanRow(db.world.planHash(plan), plan));
    db.Commit(id);
    r := Ok(());
  }

  // --- evaluate -----------------------------------------------------------------------

  method Evaluate(db: Database, id: Id, now: Time, draws: Draws) returns (r: Result<Evaluation, Error>)
    requires db.Valid() && draws.incidentId !in db.incidents
    modifies db`requests, db`evaluations, db`toolCalls, db`incidents, db`executions, db`receipts, db`cases,
             db`commits, db.trace
    ensures db.Valid()
    ensures id !in old(db.cases) ==>
            r == Err(RequestNotFound) && db.cases == old(db.cases) && db.commits == old(db.commits)
    ensures id in old(db.cases) ==>
            var c := old(db.cases[id]);
            var o := EvaluateRequest(db.world, c, ActorsOf(old(db.State()), c.request), now, draws);
            r == o.result && Committing(old(Now(db)), Now(db), id, o.trail)
  {
    db.Queries(id);
    if id !in db.requests {
      return Err(RequestNotFound);
    }
    Idle(Now(db), id);
    var request := db.requests[id];
    if request.state !in {RequestState.PlanCreated, RequestState.PolicyEvaluated, ApprovalRequired} {
      return Err(IllegalTransition(request.state));
    }
    var actors := Load(db, request);
    if id !in db.plans {
      return Err(PlanNotFound);
    }
    var row := db.plans[id];
    var ctx := Assess(db.world, request, actors, row, now);
    var evaluation := PolicyEngine.Evaluate(ctx);
    if evaluation.None? {
      return Err(AssertionFailed);
    }
    var b := Blocking(actors.policy, row.payload, evaluation.value, ctx.security, now, draws);
    Conclude(db, id, b);
    r := Ok(evaluation.value);
  }

  // Record the evaluation and act on its decision.
  method Conclude(db: Database, id: Id, b: Blocking)
    requires db.Valid() && id in db.cases && b.draws.incidentId !in db.incidents
    modifies db`requests, db`evaluations, db`toolCalls, db`incidents, db`executions, db`receipts, db`cases,
             db`commits, db.trace
    ensures db.Valid()
    ensures Committing(old(Now(db)), Now(db), id, EvaluateTrail(db.world, old(db.cases[id]), b))
  {
    ghost var before := Now(db);
    Decide(db, id, b);
    ghost var between := Now(db);
    FollowUp(db, id, b);
    InSequence(before, between, Now(db), id, DecideTrail(db.world, before.cases[id], b),
               FollowUpTrail(db.world, between.cases[id], b));
  }

  // _store_evaluation
  method StoreEvaluation(db: Database, id: Id, evaluation: Evaluation)
    requires db.Valid() && id in db.cases
    modifies db`evaluations, db`cases, db`commits
    ensures db.Valid()
    ensures var c1 := old(db.cases[id]).(evaluations := old(db.cases[id]).evaluations + [evaluation]);
            db.cases == old(db.cases)[id := c1] && db.commits == old(db.commits) + [c1]
  {
    db.AddEvaluation(id, evaluation);
    db.Commit(id);
  }

  // Scan the untrusted document and gather what the rules read.
  method Assess(w: World, request: Request, actors: Actors, row: PlanRow, now: Time) returns (ctx: Context)
    ensures ctx.policy == actors.policy
    ensures actors.policy.Some? ==>
            forall c: Case :: c.request == request ==>
              ctx == EvaluationContext(w, c, actors, actors.policy.value, row, now)
  {
    var allowedTools := if actors.policy.Some? then actors.policy.value.allowedTools else [];
    var signals := Scan(w.search, request.untrustedDocument, allowedTools);
    ctx := Context(actors.principal, actors.agent, actors.policy, row.payload, row.planHash, request, now,
                   signals, None, None, false);
  }

  method AppendEvaluated(db: Database, id: Id, b: Blocking)
    requires db.Valid() && id in db.cases
    modifies db`cases, db`commits, db.trace
    ensures db.Valid()
    ensures var c := old(db.cases[id]);
            Committing(old(Now(db)), Now(db), id,
                       [Append(db.world, c, TraceStore.PolicyEvaluated, EvaluatedBody(c.request, b))])
  {
    db.Queries(id);
    var e := db.AppendEvent(id, TraceStore.PolicyEvaluated, EvaluatedBody(db.requests[id], b));
  }

  method Decide(db: Database, id: Id, b: Blocking)
    requires db.Valid() && id in db.cases
    modifies db`requests, db`evaluations, db`cases, db`commits, db.trace
    ensures db.Valid()
    ensures Committing(old(Now(db)), Now(db), id, DecideTrail(db.world, old(db.cases[id]), b))
  {
    ghost var before := Now(db);
    StoreEvaluation(db, id, b.evaluation);
    ghost var stored := Now(db);
    AppendEvaluated(db, id, b);
    ghost var told := Now(db);
    InSequence(before, stored, told, id, [stored.cases[id]], [told.cases[id]]);
    MoveTo(db, id, StateFor(b.evaluation.decision));
    InSequence(before, told, Now(db), id, [stored.cases[id]] + [told.cases[id]], [db.cases[id]]);
  }

  method FollowUp(db: Database, id: Id, b: Blocking)
    requires db.Valid() && id in db.cases && b.draws.incidentId !in db.incidents
    modifies db`requests, db`toolCalls, db`incidents, db`executions, db`receipts, db`cases, db`commits, db.trace
    ensures db.Valid()
    ensures Committing(old(Now(db)), Now(db), id, FollowUpTrail(db.world, old(db.cases[id]), b))
  {
    Idle(Now(db), id);
    match b.evaluation.decision
    case Allow =>
    case RequireApproval =>
      db.Queries(id);
      var e := db.AppendEvent(id, TraceStore.ApprovalRequested, EvaluatedBody(db.requests[id], b));
    case _ =>
      var receipt := HandleBlocked(db, id, b);
  }

  // --- approve, reject ----------------------------------------------------------------

  method Approve(db: Database, id: Id, approverId: string, now: Time) returns (r: Result<Approval, Error>)
    requires db.Valid()
    modifies db`requests, db`approvals, db`cases, db`commits, db.trace
    ensures db.Valid()
    ensures id !in old(db.cases) ==>
            r == Err(RequestNotFound) && db.cases == old(db.cases) && db.commits == old(db.commits)
    ensures id in old(db.cases) ==>
            var c := old(db.cases[id]);
            var o := Lifecycle.Approve(db.world, c, ActorsOf(old(db.State()), c.request), approverId, now);
            r == o.result && Committing(old(Now(db)), Now(db), id, o.trail)
  {
    db.Queries(id);
    if id !in db.requests {
      return Err(RequestNotFound);
    }
    Idle(Now(db), id);
    var request := db.requests[id];
    if request.state != ApprovalRequired {
      return Err(IllegalTransition(request.state));
    }
    var actors := Load(db, request);
    if id !in db.plans {
      return Err(PlanNotFound);
    }
    var row := db.plans[id];
    if approverId == request.agentId {
      return Err(SelfApprovalForbidden);
    }
    var approval := Approval(Granted, row.planHash, request.policyVersion, approverId, Some(now + APPROVAL_TTL));
    StoreReview(db, id, actors, row, approval, now);
    r := Ok(approval);
  }

  method Reject(db: Database, id: Id, approverId: string, now: Time) returns (r: Result<Approval, Error>)
    requires db.Valid()
    modifies db`requests, db`approvals, db`cases, db`commits, db.trace
    ensures db.Valid()
    ensures id !in old(db.cases) ==>
            r == Err(RequestNotFound) && db.cases == old(db.cases) && db.commits == old(db.commits)
    ensures id in old(db.cases) ==>
            var c := old(db.cases[id]);
            var o := Lifecycle.Reject(db.world, c, ActorsOf(old(db.State()), c.request), approverId, now);
            r == o.result && Committing(old(Now(db)), Now(db), id, o.trail)
  {
    db.Queries(id);
    if id !in db.requests {
      return Err(RequestNotFound);
    }
    Idle(Now(db), id);
    var request := db.requests[id];
    if request.state != ApprovalRequired {
      return Err(IllegalTransition(request.state));
    }
    var actors := Load(db, request);
    if id !in db.plans {
      return Err(PlanNotFound);
    }
    var row := db.plans[id];
    var approval := Approval(Refused, row.planHash, request.policyVersion, approverId, None);
    StoreReview(db, id, actors, row, approval, now);
    r := Ok(approval);
  }

  // The rows once a human has decided.
  ghost function Reviewed(c: Case, row: PlanRow, approval: Approval, now: Time): Case {
    if approval.status == Granted then
      WithState(c.(approvals := c.approvals + [approval],
                   grants := c.grants + [Grant(row.payload, approval.approverId, approval.policyVersion, now)]),
                Approved)
    else WithState(c.(approvals := c.approvals + [approval]), Rejected)
  }

  method StoreApproval(db: Database, id: Id, row: PlanRow, approval: Approval, now: Time)
    requires db.Valid() && id in db.cases
    modifies db`requests, db`approvals, db`cases, db`commits
    ensures db.Valid()
    ensures Committing(old(Now(db)), Now(db), id, [Reviewed(old(db.cases[id]), row, approval, now)])
  {
    Overwriting(id);
    db.AddApproval(id, approval);
    if approval.status == Granted {
      db.RecordGrant(id, Grant(row.payload, approval.approverId, approval.policyVersion, now));
      MoveTo(db, id, Approved);
    } else {
      MoveTo(db, id, Rejected);
    }
  }

  ghost function ReviewTrail(w: World, c: Case, actors: Actors, row: PlanRow, approval: Approval,
                             now: Time): seq<Case> {
    if approval.status == Granted then ApproveTrail(w, c, actors, row, approval.approverId, now)
    else RejectTrail(w, c, actors, row, approval.approverId, now)
  }

  // The approval row and the new state, then the event of a human's decision.
  method StoreReview(db: Database, id: Id, actors: Actors, row: PlanRow, approval: Approval, now: Time)
    requires db.Valid() && id in db.cases
    requires approval == GrantRow(db.cases[id], row, approval.approverId, now) ||
             approval == RefusalRow(db.cases[id], row, approval.approverId)
    modifies db`requests, db`approvals, db`cases, db`commits, db.trace
    ensures db.Valid()
    ensures Committing(old(Now(db)), Now(db), id, ReviewTrail(db.world, old(db.cases[id]), actors, row, approval, now))
  {
    ghost var before := Now(db);
    var granted := approval.status == Granted;
    StoreApproval(db, id, row, approval, now);
    ghost var between := Now(db);
    db.Queries(id);
    var e := db.AppendEvent(id, if granted then TraceStore.ApprovalGranted else TraceStore.ApprovalRejected,
      ReviewBody(db.requests[id], actors, row.payload, now, if granted then ReviewApproved else ReviewRejected));
    InSequence(before, between, Now(db), id, [between.cases[id]], [db.cases[id]]);
  }

  // --- execute ------------------------------------------------------------------------

  method Execute(db: Database, id: Id, key: Option<string>, now: Time, draws: Draws) returns (r: Result<Receipt, Error>)
    requires db.Valid() && draws.incidentId !in db.incidents
    modifies db`requests, db`evaluations, db`toolCalls, db`incidents, db`executions, db`receipts, db`idempotency,
             db`cases, db`commits, db.trace
    ensures db.Valid()
    ensures id !in old(db.cases) ==>
            r == Err(RequestNotFound) && db.cases == old(db.cases) && db.commits == old(db.commits)
    ensures id in old(db.cases) ==>
            var c := old(db.cases[id]);
            var o := Lifecycle.Execute(db.world, c, ActorsOf(old(db.State()), c.request), key, now, draws);
            r == o.result && Committing(old(Now(db)), Now(db), id, o.trail)
  {
    db.Queries(id);
    if id !in db.requests {
      return Err(RequestNotFound);
    }
    Idle(Now(db), id);
    if HasKey(key) {
      db.RepliesQuery(id, key.value);
      if (key.value, Endpoint(id)) in db.idempotency {
        return Ok(db.idempotency[(key.value, Endpoint(id))]);
      }
    }
    var request := db.requests[id];
    if request.state !in {Allowed, Approved} {
      return Err(IllegalTransition(request.state));
    }
    var actors := Load(db, request);
    if id !in db.plans {
      return Err(PlanNotFound);
    }
    var row := db.plans[id];
    var approval := LatestGrant(RowsOf(db.approvals, id));
    var ctx := Assess(db.world, request, actors, row, now);
    ctx := ctx.(approval := approval, idempotencyKey := key, isExecution := true);
    var evaluation := PolicyEngine.Evaluate(ctx);
    if evaluation.None? {
      return Err(AssertionFailed);
    }
    var receipt := ActOnContext(db, id, ctx, evaluation.value, draws);
    r := Ok(receipt);
  }

  method ActOnContext(db: Database, id: Id, ctx: Context, evaluation: Evaluation, draws: Draws)
    returns (receipt: Receipt)
    requires db.Valid() && id in db.cases && draws.incidentId !in db.incidents
    requires ctx.policy.Some? && evaluation == EvaluationOf(ctx)
    requires ctx.approval == LatestGrant(db.cases[id].approvals)
    modifies db`requests, db`evaluations, db`toolCalls, db`incidents, db`executions, db`receipts, db`idempotency,
             db`cases, db`commits, db.trace
    ensures db.Valid()
    ensures Committing(old(Now(db)), Now(db), id, JudgedTrail(db.world, old(db.cases[id]), ctx, draws))
    ensures |db.cases[id].receipts| > 0 && receipt == LastReceipt(db.cases[id])
  {
    var b := Blocking(ctx.policy, ctx.plan, evaluation, ctx.security, ctx.now, draws);
    var start := Running(ctx.policy.value, ctx.plan, evaluation, ctx.approval, ctx.idempotencyKey, ctx.now,
                         draws.receiptId, [], None);
    receipt := ActOn(db, id, start, b);
  }

  // The trail of a call that the gate has judged in this context.
  ghost function JudgedTrail(w: World, c: Case, ctx: Context, draws: Draws): seq<Case>
    requires ctx.policy.Some?
  {
    ExecuteTrail(w, c,
      ExecutingOf(w, c, ctx.policy.value, PlanRow(ctx.planHash, ctx.plan), EvaluationOf(ctx), ctx.now,
                  ctx.idempotencyKey, draws),
      Blocking(ctx.policy, ctx.plan, EvaluationOf(ctx), ctx.security, ctx.now, draws))
  }

  // What an executing call knows once the gateway has run.
  ghost function Finished(w: World, start: Running): Running {
    var rows := Gateway.Attempts(w.profiles, start.plan.proposedToolCalls, start.policy.allowedTools);
    start.(rows := rows, outcome := Gateway.OutcomeOf(rows))
  }

  method ActOn(db: Database, id: Id, start: Running, b: Blocking) returns (receipt: Receipt)
    requires db.Valid() && id in db.cases && b.draws.incidentId !in db.incidents
    modifies db`requests, db`evaluations, db`toolCalls, db`incidents, db`executions, db`receipts, db`idempotency,
             db`cases, db`commits, db.trace
    ensures db.Valid()
    ensures Committing(old(Now(db)), Now(db), id,
                       ExecuteTrail(db.world, old(db.cases[id]), Finished(db.world, start), b))
    ensures |db.cases[id].receipts| > 0 && receipt == LastReceipt(db.cases[id])
  {
    ghost var before := Now(db);
    StoreEvaluation(db, id, b.evaluation);
    ghost var between := Now(db);
    TrailByDecision(db.world, before.cases[id], Finished(db.world, start), b);
    if b.evaluation.decision != Allow {
      receipt := RefuseExecution(db, id, b);
      InSequence(before, between, Now(db), id, [between.cases[id]], RefusalTrail(db.world, between.cases[id], b));
    } else {
      receipt := RunPlan(db, id, start);
      InSequence(before, between, Now(db), id, [between.cases[id]],
                 ExecuteAllowedTrail(db.world, between.cases[id], Finished(db.world, start)));
    }
  }

  ghost function RefusalTrail(w: World, c: Case, b: Blocking): seq<Case> {
    var c2 := WithState(c, RefusedState(b.evaluation.decision));
    [c2] + HandleBlockedTrail(w, c2, b)
  }

  lemma TrailByDecision(w: World, c: Case, x: Running, b: Blocking)
    ensures var c1 := c.(evaluations := c.evaluations + [b.evaluation]);
            ExecuteTrail(w, c, x, b) ==
            [c1] + if b.evaluation.decision == Allow then ExecuteAllowedTrail(w, c1, x) else RefusalTrail(w, c1, b)
  {
  }

  method RefuseExecution(db: Database, id: Id, b: Blocking) returns (receipt: Receipt)
    requires db.Valid() && id in db.cases && b.draws.incidentId !in db.incidents
    modifies db`requests, db`toolCalls, db`incidents, db`executions, db`receipts, db`cases, db`commits, db.trace
    ensures db.Valid()
    ensures Committing(old(Now(db)), Now(db), id, RefusalTrail(db.world, old(db.cases[id]), b))
    ensures |db.cases[id].receipts| > 0 && receipt == LastReceipt(db.cases[id])
  {
    ghost var before := Now(db);
    MoveTo(db, id, RefusedState(b.evaluation.decision));
    ghost var between := Now(db);
    receipt := HandleBlocked(db, id, b);
    InSequence(before, between, Now(db), id, [between.cases[id]], HandleBlockedTrail(db.world, between.cases[id], b));
  }

  method RunPlan(db: Database, id: Id, start: Running) returns (receipt: Receipt)
    requires db.Valid() && id in db.cases
    modifies db`requests, db`toolCalls, db`executions, db`receipts, db`idempotency, db`cases, db`commits, db.trace
    ensures db.Valid()
    ensures Committing(old(Now(db)), Now(db), id,
                       ExecuteAllowedTrail(db.world, old(db.cases[id]), Finished(db.world, start)))
    ensures |db.cases[id].receipts| > 0 && receipt == LastReceipt(db.cases[id])
  {
    ghost var before := Now(db);
    var running := RunTools(db, id, start);
    ghost var between := Now(db);
    receipt := CloseExecution(db, id, running);
    InSequence(before, between, Now(db), id, RunToolsTrail(db.world, before.cases[id], running),
               CloseExecutionTrail(db.world, between.cases[id], running));
  }

  method RunTools(db: Database, id: Id, start: Running) returns (x: Running)
    requires db.Valid() && id in db.cases
    modifies db`requests, db`toolCalls, db`cases, db`commits, db.trace
    ensures db.Valid() && x == Finished(db.world, start)
    ensures Committing(old(Now(db)), Now(db), id, RunToolsTrail(db.world, old(db.cases[id]), x))
  {
    ghost var before := Now(db);
    StartTools(db, id, start);
    ghost var between := Now(db);
    x := CallTools(db, id, start);
    InSequence(before, between, Now(db), id, StartTrail(db.world, before.cases[id], start),
               CallTrail(between.cases[id], x));
    ToolsInTwoParts(db.world, before.cases[id], start);
  }

  ghost function StartTrail(w: World, c: Case, start: Running): seq<Case> {
    var c1 := WithState(c, Executing);
    [c1, Append(w, c1, TraceStore.ToolCallStarted, ExecutingBody(c1.request, start, [], None))]
  }

  ghost function CallTrail(c: Case, x: Running): seq<Case> {
    var c1 := c.(runs := c.runs + [GatewayRun(x.plan, x.policy, x.now, x.key, x.outcome)]);
    [c1, c1.(toolCalls := c1.toolCalls + x.rows)]
  }

  lemma ToolsInTwoParts(w: World, c: Case, start: Running)
    ensures var x := Finished(w, start);
            var t := StartTrail(w, c, start);
            RunToolsTrail(w, c, x) == t + CallTrail(After(c, t), x)
  {
  }

  // EXECUTING is committed before the gateway is entered.
  method StartTools(db: Database, id: Id, start: Running)
    requires db.Valid() && id in db.cases
    modifies db`requests, db`cases, db`commits, db.trace
    ensures db.Valid()
    ensures Committing(old(Now(db)), Now(db), id, StartTrail(db.world, old(db.cases[id]), start))
  {
    ghost var before := Now(db);
    MoveTo(db, id, Executing);
    ghost var between := Now(db);
    db.Queries(id);
    var e := db.AppendEvent(id, TraceStore.ToolCallStarted, ExecutingBody(db.requests[id], start, [], None));
    InSequence(before, between, Now(db), id, [between.cases[id]], [db.cases[id]]);
  }

  method CallTools(db: Database, id: Id, start: Running) returns (x: Running)
    requires db.Valid() && id in db.cases
    modifies db`toolCalls, db`cases, db`commits
    ensures db.Valid() && x == Finished(db.world, start)
    ensures Committing(old(Now(db)), Now(db), id, CallTrail(old(db.cases[id]), x))
  {
    Overwriting(id);
    var rows, outcome := Gateway.ExecutePlanTools(db.world.profiles, start.plan, start.policy.allowedTools);
    x := start.(rows := rows, outcome := outcome);
    db.RecordRun(id, GatewayRun(x.plan, x.policy, x.now, x.key, x.outcome));
    db.Commit(id);
    AddToolCalls(db, id, rows);
    db.Commit(id);
  }

  method CloseExecution(db: Database, id: Id, x: Running) returns (receipt: Receipt)
    requires db.Valid() && id in db.cases
    modifies db`requests, db`executions, db`receipts, db`idempotency, db`cases, db`commits, db.trace
    ensures db.Valid()
    ensures Committing(old(Now(db)), Now(db), id, CloseExecutionTrail(db.world, old(db.cases[id]), x))
    ensures |db.cases[id].receipts| > 0 && receipt == LastReceipt(db.cases[id])
  {
    ghost var before := Now(db);
    var finalHash := RecordExecution(db, id, x);
    ghost var between := Now(db);
    receipt := IssueOutcome(db, id, x, finalHash);
    InSequence(before, between, Now(db), id, RecordExecutionTrail(db.world, before.cases[id], x),
               IssueReceiptTrail(between.cases[id], receipt, x.key));
  }

  method RecordExecution(db: Database, id: Id, x: Running) returns (finalHash: string)
    requires db.Valid() && id in db.cases
    modifies db`requests, db`executions, db`cases, db`commits, db.trace
    ensures db.Valid()
    ensures Committing(old(Now(db)), Now(db), id, RecordExecutionTrail(db.world, old(db.cases[id]), x))
    ensures finalHash == TraceStore.FinalHash(db.cases[id].trace)
  {
    Overwriting(id);
    StoreExecution(db, id, x);
    var completed := AppendOutcome(db, id, TraceStore.ToolCallCompleted, x);
    finalHash := AppendOutcome(db, id, TraceStore.ReceiptIssued, x);
  }

  method StoreExecution(db: Database, id: Id, x: Running)
    requires db.Valid() && id in db.cases
    modifies db`requests, db`executions, db`cases, db`commits
    ensures db.Valid()
    ensures var c := old(db.cases[id]);
            var c1 := WithState(c.(executions := c.executions + [ExecutionRow(x)]),
                                if x.outcome.Some? then Executed else FailedSafe);
            db.cases == old(db.cases)[id := c1] && db.commits == old(db.commits) + [c1]
  {
    Overwriting(id);
    db.AddExecution(id, ExecutionRow(x));
    MoveTo(db, id, if x.outcome.Some? then Executed else FailedSafe);
  }

  method AppendOutcome(db: Database, id: Id, eventType: TraceStore.EventType, x: Running) returns (eventHash: string)
    requires db.Valid() && id in db.cases
    modifies db`cases, db`commits, db.trace
    ensures db.Valid()
    ensures var c := old(db.cases[id]);
            var c1 := Append(db.world, c, eventType, ExecutingBody(c.request, x, UsesOf(x.rows), x.outcome));
            db.cases == old(db.cases)[id := c1] && db.commits == old(db.commits) + [c1]
    ensures eventHash == TraceStore.FinalHash(db.cases[id].trace)
  {
    db.Queries(id);
    var e := db.AppendEvent(id, eventType, ExecutingBody(db.requests[id], x, UsesOf(x.rows), x.outcome));
    eventHash := e.eventHash;
  }

  method IssueOutcome(db: Database, id: Id, x: Running, finalHash: string) returns (receipt: Receipt)
    requires db.Valid() && id in db.cases && finalHash == TraceStore.FinalHash(db.cases[id].trace)
    modifies db`requests, db`receipts, db`idempotency, db`cases, db`commits
    ensures db.Valid() && receipt == IssuedReceipt(old(db.cases[id]), x)
    ensures Committing(old(Now(db)), Now(db), id, IssueReceiptTrail(old(db.cases[id]), receipt, x.key))
    ensures |db.cases[id].receipts| > 0 && receipt == LastReceipt(db.cases[id])
  {
    db.Queries(id);
    receipt := BuildReceipt(x.receiptId, db.requests[id], x.plan, x.evaluation, x.approval,
                            Some(ExecutionRow(x)), x.rows, finalHash);
    StoreOutcome(db, id, receipt, x.key);
  }

  method StoreOutcome(db: Database, id: Id, receipt: Receipt, key: Option<string>)
    requires db.Valid() && id in db.cases
    modifies db`requests, db`receipts, db`idempotency, db`cases, db`commits
    ensures db.Valid()
    ensures Committing(old(Now(db)), Now(db), id, IssueReceiptTrail(old(db.cases[id]), receipt, key))
    ensures |db.cases[id].receipts| > 0 && receipt == LastReceipt(db.cases[id])
  {
    ghost var before := Now(db);
    IssueReceipt(db, id, receipt);
    if HasKey(key) {
      ghost var between := Now(db);
      StoreReply(db, id, key.value, receipt);
      InSequence(before, between, Now(db), id, IssueReceiptTrail(before.cases[id], receipt, None), [db.cases[id]]);
    }
  }

  method StoreReply(db: Database, id: Id, key: string, receipt: Receipt)
    requires db.Valid() && id in db.cases
    modifies db`idempotency, db`cases, db`commits
    ensures db.Valid()
    ensures var c1 := old(db.cases[id]).(replies := old(db.cases[id]).replies[key := receipt]);
            db.cases == old(db.cases)[id := c1] && db.commits == old(db.commits) + [c1]
  {
    db.PutReply(id, key, receipt);
    db.Commit(id);
  }

  // --- add_intervention ---------------------------------------------------------------

  method AddIntervention(db: Database, incidentId: string, intervention: Intervention)
    returns (r: Result<Incident, Error>)
    requires db.Valid()
    modifies db`incidents, db`cases, db`commits, db.trace
    ensures db.Valid()
    ensures incidentId !in old(db.incidents) ==>
            r == Err(IncidentNotFound) && db.cases == old(db.cases) && db.commits == old(db.commits)
    ensures incidentId in old(db.incidents) ==>
            var id := old(db.incidents[incidentId]).requestId;
            && id in old(db.cases)
            && var c := old(db.cases[id]);
               var o := Intervene(db.world, c, incidentId, intervention);
               r == o.result && Committing(old(Now(db)), Now(db), id, o.trail)
  {
    if incidentId !in db.incidents {
      return Err(IncidentNotFound);
    }
    var row := db.incidents[incidentId];
    var id := row.requestId;
    db.IncidentQuery(incidentId);
    Overwriting(id);
    var updated := Incident(row.incident.riskFlags,
                            if intervention.kind == "CLOSE_INCIDENT" then IncidentClosed else row.incident.status,
                            row.incident.interventions + [intervention]);
    db.PutIncident(id, incidentId, updated);
    db.Commit(id);
    var e := db.AppendEvent(id, TraceStore.InterventionApplied, InterventionBody(incidentId, intervention));
    r := Ok(updated);
  }

  // --- create_delegation, revoke_delegation -------------------------------------------

  // create_delegation: the version is looked up under the identifier as given.
  method AddDelegation(db: Database, policy: Policy, generatedId: string) returns (r: Result<string, Error>)
    requires db.Valid()
    modifies db`policies
    ensures db.Valid()
    ensures db.State() == PerformCreateDelegation(old(db.State()), policy, generatedId)
    ensures r.Ok? <==> CanDelegate(old(db.State()), policy, generatedId)
    ensures r == Err(PolicyVersionExists) <==> KeyOf(policy) in old(db.policies)
    ensures r.Ok? ==> r.value != "" || generatedId == ""
    ensures r.Ok? ==> (r.value, policy.version) in db.policies && (r.value, policy.version) !in old(db.policies)
  {
    if KeyOf(policy) in db.policies {
      return Err(PolicyVersionExists);
    }
    var row := Named(policy, generatedId);
    if KeyOf(row) in db.policies || row.principalId !in db.principals || row.agentId !in db.agents {
      return Err(IntegrityViolation);
    }
    db.policies := db.policies[KeyOf(row) := row];
    r := Ok(row.policyId);
  }

  // order by version desc, first row
  method LatestVersion(policies: map<PolicyKey, Policy>, policyId: string) returns (latest: Option<PolicyKey>)
    ensures latest.None? ==> forall k :: k in policies ==> k.0 != policyId
    ensures latest.Some? ==> latest.value.0 == policyId && IsLatestVersion(policies, latest.value)
  {
    latest := None;
    var unseen := policies.Keys;
    while unseen != {}
      invariant unseen <= policies.Keys
      invariant latest.None? ==> forall k :: k in policies && k !in unseen ==> k.0 != policyId
      invariant latest.Some? ==> latest.value in policies && latest.value.0 == policyId
      invariant latest.Some? ==> forall k :: k in policies && k !in unseen && k.0 == policyId ==> k.1 <= latest.value.1
      decreases unseen
    {
      var k :| k in unseen;
      unseen := unseen - {k};
      if k.0 == policyId && (latest.None? || latest.value.1 < k.1) {
        latest := Some(k);
      }
    }
  }

  method Revoke(db: Database, policyId: string) returns (r: Result<(), Error>)
    requires db.Valid()
    modifies db`policies
    ensures db.Valid()
    ensures db.State() == PerformRevoke(old(db.State()), policyId)
    ensures r.Ok? <==> exists k :: k in old(db.policies) && k.0 == policyId
  {
    var latest := LatestVersion(db.policies, policyId);
    if latest.None? {
      assert Revoked(db.policies, policyId) == db.policies;
      return Err(PolicyNotFound);
    }
    var k := latest.value;
    ghost var before := db.policies;
    db.policies := db.policies[k := db.policies[k].(status := "REVOKED")];
    assert db.policies == Revoked(before, policyId);
    r := Ok(());
  }

  // --- get_timeline -------------------------------------------------------------------

  // The trace of a request is read back as it was written, and verifies.
  method ReadTimeline(db: Database, id: Id) returns (timeline: TraceStore.Timeline)
    requires db.Valid() && id in db.cases
    ensures timeline.events == db.cases[id].trace && timeline.chainValid
  {
    db.Queries(id);
    db.TraceQuery(id);
    timeline := db.trace.GetTimeline(db.requests[id].traceId);
  }

  // --- The service refines the runs ---------------------------------------------------

  // A method that commits exactly the trail of a call performs that step of a run, and its
  // first n commits are what a process stopped after n commits leaves behind.
  lemma CommittingPerforms(w: World, before: Db, commits: seq<Case>, after: Snapshot, id: Id, call: Call, now: Time,
                           n: nat)
    requires id in before.cases
    requires var c := before.cases[id];
             Committing(Snapshot(before.cases, commits), after, id,
                        TrailOf(w, c, ActorsOf(before, c.request), call, now))
    ensures before.(cases := after.cases) == Perform(w, before, Step(On(id, call), now, None))
    ensures var done := after.commits[|commits|..];
            0 < n <= |done| ==> Perform(w, before, Step(On(id, call), now, Some(n))) == Stored(before, id, done[n - 1])
  {
    var c := before.cases[id];
    var trail := TrailOf(w, c, ActorsOf(before, c.request), call, now);
    assert after.commits[|commits|..] == trail;
    PerformTarget(w, before, Step(On(id, call), now, None), id);
    PerformTarget(w, before, Step(On(id, call), now, Some(n)), id);
    if 0 < n <= |trail| {
      CutAt(c, trail, n);
    }
  }

  lemma CutAt(c: Case, trail: seq<Case>, n: nat)
    requires 0 < n <= |trail|
    ensures After(c, Committed(trail, Some(n))) == trail[n - 1]
  {
  }
}
