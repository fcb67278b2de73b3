// What the incidents of every run say, and the events that report a scan: the flags of the
// scan of the request's document, and closed exactly if an operator closed them.
module Incidents {
  import opened Wrappers
  import opened Domain
  import opened Detectors
  import opened PolicyEngine
  import opened Evidence
  import opened Receipts
  import opened Lifecycle
  import opened Progress
  import opened System
  import opened Authority
  import TraceStore

  predicate Closes(intervention: Intervention) {
    intervention.kind == "CLOSE_INCIDENT"
  }

  predicate ToldByInterventions(incident: Incident) {
    incident.status == IncidentClosed <==>
    exists i | 0 <= i < |incident.interventions| :: Closes(incident.interventions[i])
  }

  // The incident carries these flags, and is closed exactly if an operator closed it.
  predicate Told(incident: Incident, flags: seq<RiskFlag>) {
    incident.riskFlags == flags && ToldByInterventions(incident)
  }

  predicate IncidentsTold(c: Case, flags: seq<RiskFlag>) {
    forall id | id in c.incidents :: Told(c.incidents[id], flags)
  }

  // The event reports what the scan found.
  predicate ReportsScan(eventType: TraceStore.EventType, b: Body) {
    match eventType
    case PolicyEvaluated | ApprovalRequested | ToolCallBlocked | IncidentQuarantined => b.Msts?
    case ReceiptIssued => b.Msts? && b.policyDecision != Some(Allow)
    case _ => false
  }

  predicate FlagsRight(eventType: TraceStore.EventType, b: Body, flags: seq<RiskFlag>) {
    ReportsScan(eventType, b) ==> b.riskFlags == flags
  }

  predicate EventsTold(trace: TraceStore.Log, flags: seq<RiskFlag>) {
    forall i | 0 <= i < |trace| :: FlagsRight(trace[i].eventType, trace[i].body, flags)
  }

  predicate AllTold(c: Case, flags: seq<RiskFlag>) {
    IncidentsTold(c, flags) && EventsTold(c.trace, flags)
  }

  predicate TrailTold(trail: seq<Case>, flags: seq<RiskFlag>) {
    forall i | 0 <= i < |trail| :: AllTold(trail[i], flags)
  }

  // --- Trails -------------------------------------------------------------------------

  predicate SameStory(c: Case, d: Case) {
    d.incidents == c.incidents && d.trace == c.trace
  }

  lemma SameStoryTold(c: Case, d: Case, flags: seq<RiskFlag>)
    requires AllTold(c, flags) && SameStory(c, d)
    ensures AllTold(d, flags)
  {
  }

  lemma AppendTold(w: World, c: Case, eventType: TraceStore.EventType, body: Body, flags: seq<RiskFlag>)
    requires AllTold(c, flags) && FlagsRight(eventType, body, flags)
    ensures AllTold(Append(w, c, eventType, body), flags)
  {
  }

  lemma AfterTold(c: Case, trail: seq<Case>, flags: seq<RiskFlag>)
    requires AllTold(c, flags) && TrailTold(trail, flags)
    ensures AllTold(After(c, trail), flags)
  {
  }

  lemma ToldConcat(t1: seq<Case>, t2: seq<Case>, flags: seq<RiskFlag>)
    requires TrailTold(t1, flags) && TrailTold(t2, flags)
    ensures TrailTold(t1 + t2, flags)
  {
  }

  lemma BlockToolsTold(w: World, c: Case, b: Blocking)
    requires AllTold(c, RiskFlags(b.signals))
    ensures TrailTold(BlockToolsTrail(w, c, b), RiskFlags(b.signals))
  {
    var t := BlockToolsTrail(w, c, b);
    SameStoryTold(c, t[0], RiskFlags(b.signals));
    if |t| > 1 {
      AppendTold(w, t[0], TraceStore.ToolCallBlocked, BlockedBody(t[0].request, b, BlockedUses(b), None),
                 RiskFlags(b.signals));
    }
  }

  lemma IncidentTold(w: World, c: Case, b: Blocking)
    requires AllTold(c, RiskFlags(b.signals))
    ensures TrailTold(IncidentTrail(w, c, b), RiskFlags(b.signals))
  {
    var t := IncidentTrail(w, c, b);
    if |t| > 0 {
      assert AllTold(t[0], RiskFlags(b.signals));
      AppendTold(w, t[0], TraceStore.IncidentQuarantined, BlockedBody(t[0].request, b, [], None), RiskFlags(b.signals));
    }
  }

  lemma CloseBlockedTold(w: World, c: Case, b: Blocking)
    requires AllTold(c, RiskFlags(b.signals))
    ensures TrailTold(CloseBlockedTrail(w, c, b), RiskFlags(b.signals))
  {
    var t := CloseBlockedTrail(w, c, b);
    AppendTold(w, c, TraceStore.ReceiptIssued, BlockedBody(c.request, b, BlockedUses(b), Some(NoExecutionOutcome())),
               RiskFlags(b.signals));
    forall i | 0 <= i < |t| {
      SameStoryTold(t[0], t[i], RiskFlags(b.signals));
    }
  }

  lemma HandleBlockedTold(w: World, c: Case, b: Blocking)
    requires AllTold(c, RiskFlags(b.signals))
    ensures TrailTold(HandleBlockedTrail(w, c, b), RiskFlags(b.signals))
  {
    var flags := RiskFlags(b.signals);
    var t1 := BlockToolsTrail(w, c, b);
    BlockToolsTold(w, c, b);
    AfterTold(c, t1, flags);
    var c1 := After(c, t1);
    var t2 := IncidentTrail(w, c1, b);
    IncidentTold(w, c1, b);
    AfterTold(c1, t2, flags);
    var c2 := After(c1, t2);
    CloseBlockedTold(w, c2, b);
    ToldConcat(t1, t2, flags);
    ToldConcat(t1 + t2, CloseBlockedTrail(w, c2, b), flags);
  }

  lemma DecideTold(w: World, c: Case, b: Blocking)
    requires AllTold(c, RiskFlags(b.signals))
    ensures TrailTold(DecideTrail(w, c, b), RiskFlags(b.signals))
  {
    var t := DecideTrail(w, c, b);
    SameStoryTold(c, t[0], RiskFlags(b.signals));
    AppendTold(w, t[0], TraceStore.PolicyEvaluated, EvaluatedBody(t[0].request, b), RiskFlags(b.signals));
    SameStoryTold(t[1], t[2], RiskFlags(b.signals));
  }

  lemma EvaluateTrailTold(w: World, c: Case, b: Blocking)
    requires AllTold(c, RiskFlags(b.signals))
    ensures TrailTold(EvaluateTrail(w, c, b), RiskFlags(b.signals))
  {
    var t := DecideTrail(w, c, b);
    DecideTold(w, c, b);
    AfterTold(c, t, RiskFlags(b.signals));
    FollowUpTold(w, After(c, t), b);
    ToldConcat(t, FollowUpTrail(w, After(c, t), b), RiskFlags(b.signals));
  }

  lemma FollowUpTold(w: World, c: Case, b: Blocking)
    requires AllTold(c, RiskFlags(b.signals))
    ensures TrailTold(FollowUpTrail(w, c, b), RiskFlags(b.signals))
  {
    match b.evaluation.decision
    case Allow =>
    case RequireApproval =>
      AppendTold(w, c, TraceStore.ApprovalRequested, EvaluatedBody(c.request, b), RiskFlags(b.signals));
    case Deny | Quarantine => HandleBlockedTold(w, c, b);
  }

  lemma RunToolsTold(w: World, c: Case, x: Running, flags: seq<RiskFlag>)
    requires AllTold(c, flags)
    ensures TrailTold(RunToolsTrail(w, c, x), flags)
  {
    var t := RunToolsTrail(w, c, x);
    SameStoryTold(c, t[0], flags);
    AppendTold(w, t[0], TraceStore.ToolCallStarted, ExecutingBody(t[0].request, x, [], None), flags);
    SameStoryTold(t[1], t[2], flags);
    SameStoryTold(t[1], t[3], flags);
  }

  lemma RecordExecutionTold(w: World, c: Case, x: Running, flags: seq<RiskFlag>)
    requires AllTold(c, flags)
    ensures TrailTold(RecordExecutionTrail(w, c, x), flags)
  {
    var t := RecordExecutionTrail(w, c, x);
    SameStoryTold(c, t[0], flags);
    AppendTold(w, t[0], TraceStore.ToolCallCompleted, ExecutingBody(t[0].request, x, UsesOf(x.rows), x.outcome), flags);
    AppendTold(w, t[1], TraceStore.ReceiptIssued, ExecutingBody(t[1].request, x, UsesOf(x.rows), x.outcome), flags);
  }

  lemma IssueReceiptTold(c: Case, receipt: Receipt, key: Option<string>, flags: seq<RiskFlag>)
    requires AllTold(c, flags)
    ensures TrailTold(IssueReceiptTrail(c, receipt, key), flags)
  {
    var t := IssueReceiptTrail(c, receipt, key);
    forall i | 0 <= i < |t| {
      SameStoryTold(c, t[i], flags);
    }
  }

  lemma ExecuteAllowedTold(w: World, c: Case, x: Running, flags: seq<RiskFlag>)
    requires AllTold(c, flags)
    ensures TrailTold(ExecuteAllowedTrail(w, c, x), flags)
  {
    var t1 := RunToolsTrail(w, c, x);
    RunToolsTold(w, c, x, flags);
    AfterTold(c, t1, flags);
    var c1 := After(c, t1);
    var t2 := RecordExecutionTrail(w, c1, x);
    RecordExecutionTold(w, c1, x, flags);
    AfterTold(c1, t2, flags);
    var c2 := After(c1, t2);
    IssueReceiptTold(c2, IssuedReceipt(c2, x), x.key, flags);
    ToldConcat(t2, IssueReceiptTrail(c2, IssuedReceipt(c2, x), x.key), flags);
    ToldConcat(t1, CloseExecutionTrail(w, c1, x), flags);
  }

  lemma ExecuteTrailTold(w: World, c: Case, x: Running, b: Blocking)
    requires AllTold(c, RiskFlags(b.signals))
    ensures TrailTold(ExecuteTrail(w, c, x, b), RiskFlags(b.signals))
  {
    var flags := RiskFlags(b.signals);
    var c1 := c.(evaluations := c.evaluations + [b.evaluation]);
    SameStoryTold(c, c1, flags);
    if b.evaluation.decision == Allow {
      ExecuteAllowedTold(w, c1, x, flags);
      ToldConcat([c1], ExecuteAllowedTrail(w, c1, x), flags);
    } else {
      var c2 := WithState(c1, RefusedState(b.evaluation.decision));
      SameStoryTold(c, c2, flags);
      HandleBlockedTold(w, c2, b);
      ToldConcat([c1, c2], HandleBlockedTrail(w, c2, b), flags);
    }
  }

  // The flags of the scan of the request's document under this delegation.
  function FlagsFor(w: World, c: Case, policy: Option<Policy>): seq<RiskFlag> {
    match policy
    case None => []
    case Some(p) => RiskFlags(ScanOf(w.search, c.request.untrustedDocument, p.allowedTools))
  }

  lemma EvaluateTold(w: World, c: Case, actors: Actors, now: Time, draws: Draws)
    requires AllTold(c, FlagsFor(w, c, actors.policy))
    ensures TrailTold(EvaluateRequest(w, c, actors, now, draws).trail, FlagsFor(w, c, actors.policy))
  {
    if c.request.state in {PlanCreated, PolicyEvaluated, ApprovalRequired} && c.plan.Some? && actors.policy.Some? {
      var ctx := EvaluationContext(w, c, actors, actors.policy.value, c.plan.value, now);
      EvaluateTrailTold(w, c,
                        Blocking(actors.policy, c.plan.value.payload, EvaluationOf(ctx), ctx.security, now, draws));
    }
  }

  lemma GatedExecuteTold(w: World, c: Case, actors: Actors, policy: Policy, row: PlanRow, key: Option<string>,
                         now: Time, draws: Draws)
    requires AllTold(c, FlagsFor(w, c, Some(policy)))
    ensures TrailTold(GatedExecuteTrail(w, c, actors, policy, row, key, now, draws), FlagsFor(w, c, Some(policy)))
  {
    var ctx := ExecutionContext(w, c, actors, policy, row, now, key);
    ExecuteTrailTold(w, c, ExecutingOf(w, c, policy, row, EvaluationOf(ctx), now, key, draws),
                     Blocking(Some(policy), row.payload, EvaluationOf(ctx), ctx.security, now, draws));
  }

  lemma ExecuteTold(w: World, c: Case, actors: Actors, key: Option<string>, now: Time, draws: Draws)
    requires AllTold(c, FlagsFor(w, c, actors.policy))
    ensures TrailTold(Execute(w, c, actors, key, now, draws).trail, FlagsFor(w, c, actors.policy))
  {
    ExecuteTrailIs(w, c, actors, key, now, draws);
    if Execute(w, c, actors, key, now, draws).trail != [] {
      GatedExecuteTold(w, c, actors, actors.policy.value, c.plan.value, key, now, draws);
    }
  }

  // One more intervention.
  lemma IntervenedTold(incident: Incident, updated: Incident, intervention: Intervention, flags: seq<RiskFlag>)
    requires Told(incident, flags) && updated.riskFlags == incident.riskFlags
    requires updated.interventions == incident.interventions + [intervention]
    requires updated.status == if Closes(intervention) then IncidentClosed else incident.status
    ensures Told(updated, flags)
  {
    var n := |incident.interventions|;
    assert updated.interventions[n] == intervention;
    assert forall i | 0 <= i < n :: updated.interventions[i] == incident.interventions[i];
  }

  lemma InterveneTold(w: World, c: Case, incidentId: string, intervention: Intervention, flags: seq<RiskFlag>)
    requires AllTold(c, flags)
    ensures TrailTold(Intervene(w, c, incidentId, intervention).trail, flags)
  {
    if incidentId in c.incidents {
      var t := Intervene(w, c, incidentId, intervention).trail;
      IntervenedTold(c.incidents[incidentId], t[0].incidents[incidentId], intervention, flags);
      assert AllTold(t[0], flags);
      AppendTold(w, t[0], TraceStore.InterventionApplied, InterventionBody(incidentId, intervention), flags);
    }
  }

  lemma PersistTold(w: World, c: Case, actors: Actors, plan: ActionPlan, now: Time, flags: seq<RiskFlag>)
    requires AllTold(c, flags)
    ensures TrailTold(PersistTrail(w, c, actors, plan, now), flags)
  {
    var t := PersistTrail(w, c, actors, plan, now);
    SameStoryTold(c, t[0], flags);
    AppendTold(w, t[0], TraceStore.PlanCreated,
               MstsBody(c.request, actors.policy, Some(plan), now, None, ReviewNotRequired, [], [], None, None), flags);
  }

  lemma ReviewTold(w: World, c: Case, actors: Actors, row: PlanRow, reviewerId: string, now: Time, flags: seq<RiskFlag>)
    requires AllTold(c, flags)
    ensures TrailTold(ApproveTrail(w, c, actors, row, reviewerId, now), flags)
    ensures TrailTold(RejectTrail(w, c, actors, row, reviewerId, now), flags)
  {
    var a := ApproveTrail(w, c, actors, row, reviewerId, now)[0];
    SameStoryTold(c, a, flags);
    var granted := ReviewBody(a.request, actors, row.payload, now, ReviewApproved);
    AppendTold(w, a, TraceStore.ApprovalGranted, granted, flags);
    var r := RejectTrail(w, c, actors, row, reviewerId, now)[0];
    SameStoryTold(c, r, flags);
    var refused := ReviewBody(r.request, actors, row.payload, now, ReviewRejected);
    AppendTold(w, r, TraceStore.ApprovalRejected, refused, flags);
  }

  lemma PlanCallTold(w: World, c: Case, actors: Actors, call: Call, now: Time, flags: seq<RiskFlag>)
    requires AllTold(c, flags) && KindOf(call) == PlanKind
    ensures TrailTold(TrailOf(w, c, actors, call, now), flags)
  {
    if call.CallCreatePlan? {
      var o := CreatePlan(w, c, actors, now);
      if o.result.Ok? {
        PersistTold(w, c, actors, o.result.value, now, flags);
      }
    } else if call.RewriteStoredPlan? {
      RewriteTold(w, c, call.plan, flags);
    } else {
      PersistTold(w, c, actors, call.plan, now, flags);
    }
  }

  lemma RewriteTold(w: World, c: Case, plan: ActionPlan, flags: seq<RiskFlag>)
    requires AllTold(c, flags)
    ensures TrailTold(RewritePlan(w, c, plan), flags)
  {
    if c.plan.Some? {
      SameStoryTold(c, RewritePlan(w, c, plan)[0], flags);
    }
  }

  lemma PersonCallTold(w: World, c: Case, actors: Actors, call: Call, now: Time, flags: seq<RiskFlag>)
    requires AllTold(c, flags) && KindOf(call) == PersonKind
    ensures TrailTold(TrailOf(w, c, actors, call, now), flags)
  {
    if call.CallIntervene? {
      InterveneTold(w, c, call.incidentId, call.intervention, flags);
    } else if c.plan.Some? {
      ReviewTold(w, c, actors, c.plan.value, call.approverId, now, flags);
    }
  }

  lemma CallTold(w: World, c: Case, actors: Actors, call: Call, now: Time)
    requires AllTold(c, FlagsFor(w, c, actors.policy))
    ensures TrailTold(TrailOf(w, c, actors, call, now), FlagsFor(w, c, actors.policy))
  {
    match call
    case CallEvaluate(draws) => EvaluateTold(w, c, actors, now, draws);
    case CallExecute(key, draws) => ExecuteTold(w, c, actors, key, now, draws);
    case _ =>
      if KindOf(call) == PlanKind {
        PlanCallTold(w, c, actors, call, now, FlagsFor(w, c, actors.policy));
      } else {
        PersonCallTold(w, c, actors, call, now, FlagsFor(w, c, actors.policy));
      }
  }

  // --- Runs ---------------------------------------------------------------------------

  predicate CaseTold(w: World, db: Db, c: Case) {
    AllTold(c, FlagsFor(w, c, Find(db.policies, PolicyKeyOf(c.request))))
  }

  lemma CommittedTold(c: Case, trail: seq<Case>, stopsAfter: Option<nat>, flags: seq<RiskFlag>)
    requires AllTold(c, flags) && TrailTold(trail, flags)
    ensures AllTold(After(c, Committed(trail, stopsAfter)), flags)
  {
  }

  lemma StepTold(w: World, db: Db, step: Step, id: Id)
    requires id in db.cases && CaseTold(w, db, db.cases[id])
    ensures id in Perform(w, db, step).cases
    ensures AllTold(Perform(w, db, step).cases[id],
                    FlagsFor(w, db.cases[id], Find(db.policies, PolicyKeyOf(db.cases[id].request))))
  {
    var c := db.cases[id];
    if Targets(step, id) {
      var actors := ActorsOf(db, c.request);
      PerformTarget(w, db, step, id);
      CallTold(w, c, actors, step.action.call, step.now);
      var trail := TrailOf(w, c, actors, step.action.call, step.now);
      CommittedTold(c, trail, step.stopsAfter, FlagsFor(w, c, actors.policy));
    } else {
      PerformElsewhere(w, db, step, id);
    }
  }

  lemma FlagsStay(w: World, before: Db, after: Db, c: Case, d: Case)
    requires DbExtends(before, after) && Extends(c, d) && PolicyKeyOf(c.request) in before.policies
    ensures FlagsFor(w, d, Find(after.policies, PolicyKeyOf(d.request))) ==
            FlagsFor(w, c, Find(before.policies, PolicyKeyOf(c.request)))
  {
  }

  lemma OpenedTold(w: World, db: Db, step: Step, id: Id, flags: seq<RiskFlag>)
    requires id !in db.cases && id in Perform(w, db, step).cases
    ensures AllTold(Perform(w, db, step).cases[id], flags)
  {
    var request := step.action.request;
    var policy := db.policies[PolicyKeyOf(request)];
    PerformOpens(w, db, step, id);
    CreateTold(w, request, policy, step.now, flags);
  }

  lemma CreateTold(w: World, request: Request, policy: Policy, now: Time, flags: seq<RiskFlag>)
    ensures TrailTold(CreateTrail(w, request, policy, now), flags)
  {
    AppendTold(w, OpenCase(request), TraceStore.RequestReceived,
               MstsBody(request, Some(policy), None, now, None, ReviewNotRequired, [], [], None, None), flags);
  }

  // In every run, with crashes and rewrites, every incident and every event that reports the
  // scan carries the flags of the scan of the request's document, and an incident is closed
  // exactly if one of its interventions closed it.
  lemma {:induction false} RunTellsIncidents(w: World, db: Db, steps: seq<Step>, id: Id)
    requires Initial(db) && id in Run(w, db, steps).cases
    ensures CaseTold(w, Run(w, db, steps), Run(w, db, steps).cases[id])
  {
    if |steps| > 0 {
      var front, step := steps[..|steps| - 1], steps[|steps| - 1];
      var before := Run(w, db, front);
      if id in before.cases {
        RunTellsIncidents(w, db, front, id);
        RequestsHaveActors(w, db, front, id);
        RunIsSafe(w, db, front);
        StepTold(w, before, step, id);
        PerformExtends(w, before, step);
        FlagsStay(w, before, Perform(w, before, step), before.cases[id], Perform(w, before, step).cases[id]);
      } else {
        var after := Perform(w, before, step);
        var c := after.cases[id];
        OpenedTold(w, before, step, id, FlagsFor(w, c, Find(after.policies, PolicyKeyOf(c.request))));
      }
    }
  }
}
