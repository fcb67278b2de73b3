// The evidence of every run: each request's trace verifies at every commit, and the hash
// on a receipt pins everything that happened up to it.
module Audit {
  import opened Wrappers
  import opened Json
  import opened Domain
  import opened PolicyEngine
  import opened Evidence
  import opened EventFacts
  import Hashing
  import opened Lifecycle
  import opened System
  import opened Progress
  import opened Rows
  import opened Issuing
  import Tools
  import Gateway
  import Detectors
  import Authority
  import Receipts
  import TraceStore

  // Nobody has decided, and nothing has happened yet.
  predicate SaysPending(b: Body)
    requires b.Msts?
  {
    && b.policyDecision == None && b.review == ReviewNotRequired && b.riskFlags == [] && b.toolCalls == []
    && b.executedAction == None && b.postActionOutcome == None
  }

  // A human still has to look at it exactly if the gate asks for an approval.
  predicate SaysDecided(b: Body)
    requires b.Msts?
  {
    && b.policyDecision.Some? && b.toolCalls == [] && b.executedAction == None && b.postActionOutcome == None
    && b.review == if b.policyDecision == Some(RequireApproval) then ReviewPending else ReviewNotRequired
  }

  predicate SaysReviewed(b: Body, review: ReviewStatus)
    requires b.Msts?
  {
    && b.policyDecision == Some(RequireApproval) && b.review == review
    && b.toolCalls == [] && b.executedAction == None && b.postActionOutcome == None
  }

  predicate SaysRunning(b: Body)
    requires b.Msts?
  {
    && b.policyDecision == Some(Allow) && b.review in {ReviewApproved, ReviewNotRequired}
    && b.executedAction == b.postActionOutcome
  }

  predicate SaysBlocked(b: Body)
    requires b.Msts?
  {
    && b.policyDecision.Some? && b.review == ReviewNotRequired && b.executedAction == None
    && forall use | use in b.toolCalls :: use.status == CallBlocked
  }

  predicate SaysOfType(eventType: TraceStore.EventType, b: Body)
    requires b.Msts?
  {
    match eventType
    case RequestReceived => SaysPending(b) && b.recommended == None
    case PlanCreated => SaysPending(b) && b.recommended.Some?
    case PolicyEvaluated => SaysDecided(b)
    case ApprovalRequested => SaysDecided(b) && b.policyDecision == Some(RequireApproval)
    case ApprovalGranted => SaysReviewed(b, ReviewApproved)
    case ApprovalRejected => SaysReviewed(b, ReviewRejected)
    case ToolCallStarted => SaysRunning(b) && b.toolCalls == [] && b.executedAction == None
    case ToolCallCompleted => SaysRunning(b)
    case ToolCallBlocked => SaysBlocked(b) && b.toolCalls != [] && b.postActionOutcome == None
    case IncidentQuarantined => SaysBlocked(b) && b.policyDecision == Some(Quarantine)
    case ReceiptIssued => SaysRunning(b) || (SaysBlocked(b) && b.postActionOutcome == Some(NoExecutionOutcome()))
    case InterventionApplied => false
  }

  // What never changes about a request.
  datatype About = About(
    traceId: string, principalId: string, agentId: string, userRequest: string, policyId: string, policyVersion: int)

  function AboutOf(r: Request): About {
    About(r.traceId, r.principalId, r.agentId, r.userRequest, r.policyId, r.policyVersion)
  }

  // This is the delegation that the request names.
  predicate NamedBy(a: About, policy: Option<Policy>) {
    policy.Some? ==> policy.value.policyId == a.policyId && policy.value.version == a.policyVersion
  }

  predicate SaysAbout(a: About, b: Body)
    requires b.Msts?
  {
    && b.traceId == a.traceId && b.principalId == a.principalId && b.agentId == a.agentId
    && b.userIntent == a.userRequest && NamedBy(a, b.delegatedScope)
  }

  // What the body of an event says goes with its type, and it is about this request.
  predicate Says(eventType: TraceStore.EventType, b: Body, a: About) {
    if b.Msts? then SaysAbout(a, b) && SaysOfType(eventType, b)
    else b.InterventionBody? && eventType.InterventionApplied?
  }

  datatype Aspect = Verified | Numbered | Formed | Truthful

  ghost predicate Has(aspect: Aspect, w: World, trace: TraceStore.Log, a: About) {
    match aspect
    case Verified => TraceStore.Linked(w.sealer, trace)
    case Numbered => TraceStore.Sequenced(trace, a.traceId)
    case Formed => TraceStore.WellFormedBodies(BodyJson, trace)
    case Truthful => forall i | 0 <= i < |trace| :: Says(trace[i].eventType, trace[i].body, a)
  }

  // The trace verifies, is numbered without gap, and holds well-formed bodies that say what
  // their events are.
  ghost predicate Kept(w: World, c: Case) {
    forall aspect: Aspect :: Has(aspect, w, c.trace, AboutOf(c.request))
  }

  ghost predicate AllKept(w: World, trail: seq<Case>) {
    forall i :: 0 <= i < |trail| ==> Kept(w, trail[i])
  }

  lemma AppendKept(w: World, c: Case, eventType: TraceStore.EventType, body: Body)
    requires Kept(w, c) && BodyWellFormed(BodyJson, body) && Says(eventType, body, AboutOf(c.request))
    ensures Kept(w, Append(w, c, eventType, body))
  {
    var d := Append(w, c, eventType, body);
    forall aspect: Aspect
      ensures Has(aspect, w, d.trace, AboutOf(d.request))
    {
      assert Has(Verified, w, c.trace, AboutOf(c.request)) && Has(Numbered, w, c.trace, AboutOf(c.request));
      assert Has(Formed, w, c.trace, AboutOf(c.request)) && Has(Truthful, w, c.trace, AboutOf(c.request));
      TraceStore.NextEventKeeps(w.sealer, c.trace, c.request.traceId, eventType, body);
    }
  }

  predicate SameTrace(c: Case, d: Case) {
    d.trace == c.trace && AboutOf(d.request) == AboutOf(c.request)
  }

  lemma SameTraceKept(w: World, c: Case, d: Case)
    requires Kept(w, c) && SameTrace(c, d)
    ensures Kept(w, d)
  {
  }

  lemma KeptConcat(w: World, t1: seq<Case>, t2: seq<Case>)
    requires AllKept(w, t1) && AllKept(w, t2)
    ensures AllKept(w, t1 + t2)
  {
  }

  lemma AfterKept(w: World, c: Case, trail: seq<Case>)
    requires Kept(w, c) && AllKept(w, trail)
    ensures Kept(w, After(c, trail))
  {
  }

  // An event without outcomes, or with the one of a blocked request.
  lemma AppendPlainKept(w: World, c: Case, eventType: TraceStore.EventType, body: Body)
    requires Kept(w, c) && body.Msts? && body.executedAction.None? && Says(eventType, body, AboutOf(c.request))
    requires body.postActionOutcome.None? || body.postActionOutcome == Some(NoExecutionOutcome())
    ensures Kept(w, Append(w, c, eventType, body))
  {
    assert WellFormed(Obj(NoExecutionOutcome()));
    MstsIsWellFormed(body);
    AppendKept(w, c, eventType, body);
  }

  lemma CreateKept(w: World, request: Request, policy: Policy, now: Time)
    requires NamedBy(AboutOf(request), Some(policy))
    ensures AllKept(w, CreateTrail(w, request, policy, now))
  {
    AppendPlainKept(w, OpenCase(request), TraceStore.RequestReceived,
               MstsBody(request, Some(policy), None, now, None, ReviewNotRequired, [], [], None, None));
  }

  lemma PersistKept(w: World, c: Case, actors: Actors, plan: ActionPlan, now: Time)
    requires Kept(w, c)
    requires NamedBy(AboutOf(c.request), actors.policy)
    ensures AllKept(w, PersistTrail(w, c, actors, plan, now))
  {
    AppendPlainKept(w, PersistTrail(w, c, actors, plan, now)[0], TraceStore.PlanCreated,
               MstsBody(c.request, actors.policy, Some(plan), now, None, ReviewNotRequired, [], [], None, None));
  }

  lemma ReviewKept(w: World, c: Case, actors: Actors, row: PlanRow, approverId: string, now: Time)
    requires Kept(w, c)
    requires NamedBy(AboutOf(c.request), actors.policy)
    ensures AllKept(w, ApproveTrail(w, c, actors, row, approverId, now))
    ensures AllKept(w, RejectTrail(w, c, actors, row, approverId, now))
  {
    var a := ApproveTrail(w, c, actors, row, approverId, now)[0];
    AppendPlainKept(w, a, TraceStore.ApprovalGranted, ReviewBody(a.request, actors, row.payload, now, ReviewApproved));
    var r := RejectTrail(w, c, actors, row, approverId, now)[0];
    AppendPlainKept(w, r, TraceStore.ApprovalRejected, ReviewBody(r.request, actors, row.payload, now, ReviewRejected));
  }

  lemma InterveneKept(w: World, c: Case, incidentId: string, intervention: Intervention)
    requires Kept(w, c)
    ensures AllKept(w, Intervene(w, c, incidentId, intervention).trail)
  {
    if incidentId in c.incidents {
      InterventionIsWellFormed(incidentId, intervention);
      AppendKept(w, Intervene(w, c, incidentId, intervention).trail[0], TraceStore.InterventionApplied,
                 InterventionBody(incidentId, intervention));
    }
  }

  lemma BlockToolsKept(w: World, c: Case, b: Blocking)
    requires Kept(w, c)
    requires NamedBy(AboutOf(c.request), b.policy)
    ensures AllKept(w, BlockToolsTrail(w, c, b))
  {
    var t := BlockToolsTrail(w, c, b);
    if |b.signals.attemptedUnauthorizedTools| > 0 {
      AppendPlainKept(w, t[0], TraceStore.ToolCallBlocked, BlockedBody(t[0].request, b, BlockedUses(b), None));
    }
  }

  lemma IncidentKept(w: World, c: Case, b: Blocking)
    requires Kept(w, c)
    requires NamedBy(AboutOf(c.request), b.policy)
    ensures AllKept(w, IncidentTrail(w, c, b))
  {
    var t := IncidentTrail(w, c, b);
    if |t| > 0 {
      AppendPlainKept(w, t[0], TraceStore.IncidentQuarantined, BlockedBody(t[0].request, b, [], None));
    }
  }

  lemma CloseBlockedKept(w: World, c: Case, b: Blocking)
    requires Kept(w, c)
    requires NamedBy(AboutOf(c.request), b.policy)
    ensures AllKept(w, CloseBlockedTrail(w, c, b))
  {
    AppendPlainKept(w, c, TraceStore.ReceiptIssued,
                    BlockedBody(c.request, b, BlockedUses(b), Some(NoExecutionOutcome())));
  }

  lemma HandleBlockedKept(w: World, c: Case, b: Blocking)
    requires Kept(w, c)
    requires NamedBy(AboutOf(c.request), b.policy)
    ensures AllKept(w, HandleBlockedTrail(w, c, b))
  {
    var t1 := BlockToolsTrail(w, c, b);
    BlockToolsKept(w, c, b);
    AfterKept(w, c, t1);
    var c1 := After(c, t1);
    var t2 := IncidentTrail(w, c1, b);
    IncidentKept(w, c1, b);
    AfterKept(w, c1, t2);
    var c2 := After(c1, t2);
    CloseBlockedKept(w, c2, b);
    KeptConcat(w, t1, t2);
    KeptConcat(w, t1 + t2, CloseBlockedTrail(w, c2, b));
  }

  lemma DecideKept(w: World, c: Case, b: Blocking)
    requires Kept(w, c)
    requires NamedBy(AboutOf(c.request), b.policy)
    ensures AllKept(w, DecideTrail(w, c, b))
  {
    var t := DecideTrail(w, c, b);
    AppendPlainKept(w, t[0], TraceStore.PolicyEvaluated, EvaluatedBody(t[0].request, b));
  }

  lemma EvaluateTrailKept(w: World, c: Case, b: Blocking)
    requires Kept(w, c)
    requires NamedBy(AboutOf(c.request), b.policy)
    ensures AllKept(w, EvaluateTrail(w, c, b))
  {
    DecideKept(w, c, b);
    var d := After(c, DecideTrail(w, c, b));
    if b.evaluation.decision == RequireApproval {
      AppendPlainKept(w, d, TraceStore.ApprovalRequested, EvaluatedBody(d.request, b));
    } else {
      HandleBlockedKept(w, d, b);
    }
  }

  lemma RunToolsKept(w: World, c: Case, x: Running)
    requires Kept(w, c)
    requires NamedBy(AboutOf(c.request), Some(x.policy))
    ensures AllKept(w, RunToolsTrail(w, c, x))
  {
    var c1 := WithState(c, Executing);
    AppendPlainKept(w, c1, TraceStore.ToolCallStarted, ExecutingBody(c1.request, x, [], None));
  }

  ghost predicate OutcomeFits(x: Running) {
    x.outcome.Some? ==> WellFormed(Obj(x.outcome.value))
  }

  lemma AppendOutcomeKept(w: World, c: Case, x: Running, eventType: TraceStore.EventType)
    requires Kept(w, c) && OutcomeFits(x) && (eventType.ToolCallCompleted? || eventType.ReceiptIssued?)
    requires NamedBy(AboutOf(c.request), Some(x.policy))
    ensures Kept(w, Append(w, c, eventType, ExecutingBody(c.request, x, Receipts.UsesOf(x.rows), x.outcome)))
  {
    var body := ExecutingBody(c.request, x, Receipts.UsesOf(x.rows), x.outcome);
    MstsIsWellFormed(body);
    AppendKept(w, c, eventType, body);
  }

  lemma RecordExecutionKept(w: World, c: Case, x: Running)
    requires Kept(w, c) && OutcomeFits(x)
    requires NamedBy(AboutOf(c.request), Some(x.policy))
    ensures AllKept(w, RecordExecutionTrail(w, c, x))
  {
    var t := RecordExecutionTrail(w, c, x);
    SameTraceKept(w, c, t[0]);
    AppendOutcomeKept(w, t[0], x, TraceStore.ToolCallCompleted);
    AppendOutcomeKept(w, t[1], x, TraceStore.ReceiptIssued);
  }

  lemma IssueReceiptKept(w: World, c: Case, receipt: Receipts.Receipt, key: Option<string>)
    requires Kept(w, c)
    ensures AllKept(w, IssueReceiptTrail(c, receipt, key))
  {
    var t := IssueReceiptTrail(c, receipt, key);
    forall i | 0 <= i < |t| {
      SameTraceKept(w, c, t[i]);
    }
  }

  lemma ExecuteAllowedKept(w: World, c: Case, x: Running)
    requires Kept(w, c) && OutcomeFits(x)
    requires NamedBy(AboutOf(c.request), Some(x.policy))
    ensures AllKept(w, ExecuteAllowedTrail(w, c, x))
  {
    var t1 := RunToolsTrail(w, c, x);
    RunToolsKept(w, c, x);
    AfterKept(w, c, t1);
    var c1 := After(c, t1);
    var t2 := RecordExecutionTrail(w, c1, x);
    RecordExecutionKept(w, c1, x);
    AfterKept(w, c1, t2);
    var c2 := After(c1, t2);
    IssueReceiptKept(w, c2, IssuedReceipt(c2, x), x.key);
    KeptConcat(w, t2, IssueReceiptTrail(c2, IssuedReceipt(c2, x), x.key));
    KeptConcat(w, t1, CloseExecutionTrail(w, c1, x));
  }

  lemma ExecuteTrailKept(w: World, c: Case, x: Running, b: Blocking)
    requires Kept(w, c) && OutcomeFits(x)
    requires NamedBy(AboutOf(c.request), Some(x.policy)) && NamedBy(AboutOf(c.request), b.policy)
    ensures AllKept(w, ExecuteTrail(w, c, x, b))
  {
    var c1 := c.(evaluations := c.evaluations + [b.evaluation]);
    if b.evaluation.decision == Allow {
      ExecuteAllowedKept(w, c1, x);
    } else {
      HandleBlockedKept(w, WithState(c1, RefusedState(b.evaluation.decision)), b);
    }
  }

  lemma EvaluateKept(w: World, c: Case, actors: Actors, now: Time, draws: Draws)
    requires Kept(w, c)
    requires NamedBy(AboutOf(c.request), actors.policy)
    ensures AllKept(w, EvaluateRequest(w, c, actors, now, draws).trail)
  {
    if c.plan.Some? && actors.policy.Some? {
      var ctx := EvaluationContext(w, c, actors, actors.policy.value, c.plan.value, now);
      EvaluateTrailKept(w, c,
                        Blocking(actors.policy, c.plan.value.payload, EvaluationOf(ctx), ctx.security, now, draws));
    }
  }

  lemma ExecuteKept(w: World, c: Case, actors: Actors, key: Option<string>, now: Time, draws: Draws)
    requires Kept(w, c)
    requires NamedBy(AboutOf(c.request), actors.policy)
    ensures AllKept(w, Execute(w, c, actors, key, now, draws).trail)
  {
    if c.plan.Some? && actors.policy.Some? {
      var policy, row := actors.policy.value, c.plan.value;
      var ctx := ExecutionContext(w, c, actors, policy, row, now, key);
      Gateway.OutcomeIsWellFormed(w.profiles, row.payload.proposedToolCalls, policy.allowedTools);
      ExecuteTrailKept(w, c, ExecutingOf(w, c, policy, row, EvaluationOf(ctx), now, key, draws),
                       Blocking(Some(policy), row.payload, EvaluationOf(ctx), ctx.security, now, draws));
    }
  }

  lemma PlanCallKept(w: World, c: Case, actors: Actors, call: Call, now: Time)
    requires Kept(w, c) && (call.CallCreatePlan? || call.CallStoreCustomPlan?)
    requires NamedBy(AboutOf(c.request), actors.policy)
    ensures AllKept(w, TrailOf(w, c, actors, call, now))
  {
    match call
    case CallCreatePlan =>
      var o := CreatePlan(w, c, actors, now);
      if o.result.Ok? { PersistKept(w, c, actors, o.result.value, now); }
    case CallStoreCustomPlan(plan) => PersistKept(w, c, actors, plan, now);
  }

  lemma ReviewCallKept(w: World, c: Case, actors: Actors, call: Call, now: Time)
    requires Kept(w, c) && (call.CallApprove? || call.CallReject?)
    requires NamedBy(AboutOf(c.request), actors.policy)
    ensures AllKept(w, TrailOf(w, c, actors, call, now))
  {
    if c.plan.Some? {
      ReviewKept(w, c, actors, c.plan.value, call.approverId, now);
    }
  }

  lemma CallKept(w: World, c: Case, actors: Actors, call: Call, now: Time)
    requires Kept(w, c)
    requires NamedBy(AboutOf(c.request), actors.policy)
    ensures AllKept(w, TrailOf(w, c, actors, call, now))
  {
    match call
    case CallCreatePlan => PlanCallKept(w, c, actors, call, now);
    case CallStoreCustomPlan(_) => PlanCallKept(w, c, actors, call, now);
    case CallEvaluate(draws) => EvaluateKept(w, c, actors, now, draws);
    case CallApprove(_) => ReviewCallKept(w, c, actors, call, now);
    case CallReject(_) => ReviewCallKept(w, c, actors, call, now);
    case CallExecute(key, draws) => ExecuteKept(w, c, actors, key, now, draws);
    case CallIntervene(incidentId, intervention) => InterveneKept(w, c, incidentId, intervention);
    case RewriteStoredPlan(plan) => RewriteKept(w, c, plan);
  }

  lemma RewriteKept(w: World, c: Case, plan: ActionPlan)
    requires Kept(w, c)
    ensures AllKept(w, RewritePlan(w, c, plan))
  {
  }

  lemma CommittedKept(w: World, c: Case, trail: seq<Case>, stopsAfter: Option<nat>)
    requires Kept(w, c) && AllKept(w, trail)
    ensures Kept(w, After(c, Committed(trail, stopsAfter)))
  {
  }

  lemma StepKept(w: World, db: Db, step: Step, id: Id)
    requires DbSafe(w, db)
    requires id in db.cases ==> Kept(w, db.cases[id])
    requires id in Perform(w, db, step).cases
    ensures Kept(w, Perform(w, db, step).cases[id])
  {
    if id !in db.cases {
      PerformOpens(w, db, step, id);
      CreateKept(w, step.action.request, db.policies[PolicyKeyOf(step.action.request)], step.now);
    } else if Targets(step, id) {
      var c := db.cases[id];
      var trail := TrailOf(w, c, ActorsOf(db, c.request), step.action.call, step.now);
      PerformTarget(w, db, step, id);
      CallKept(w, c, ActorsOf(db, c.request), step.action.call, step.now);
      CommittedKept(w, c, trail, step.stopsAfter);
    } else {
      PerformElsewhere(w, db, step, id);
    }
  }

  // In every run, with crashes and rewrites, every trace is numbered without gap and
  // verifies.
  lemma {:induction false} RunKeepsTraces(w: World, db: Db, steps: seq<Step>, id: Id)
    requires Initial(db) && id in Run(w, db, steps).cases
    ensures Kept(w, Run(w, db, steps).cases[id])
  {
    if |steps| > 0 {
      var before := Run(w, db, steps[..|steps| - 1]);
      RunIsSafe(w, db, steps[..|steps| - 1]);
      if id in before.cases {
        RunKeepsTraces(w, db, steps[..|steps| - 1], id);
      }
      StepKept(w, before, steps[|steps| - 1], id);
    }
  }

  // --- Receipts -----------------------------------------------------------------------

  // The n-th event is the receipt event whose hash the receipt carries, and its body states
  // the receipt's facts: decision, plan, data, tools, approval and whether it was executed.
  predicate IssuedAt(c: Case, n: nat) {
    && |c.receipts| == 1 && 0 < n <= |c.trace|
    && c.trace[n - 1].eventType == TraceStore.ReceiptIssued
    && c.trace[n - 1].eventHash == c.receipts[0].eventHash
    && Certifies(c.trace[n - 1].body, c.receipts[0])
  }

  // Every receipt was issued with some event of its request's trace.
  ghost predicate Vouched(c: Case) {
    |c.receipts| > 0 ==> exists n: nat :: IssuedAt(c, n)
  }

  lemma VouchedStays(c: Case, d: Case, held: bool)
    requires Vouched(c) && Extends(c, d) && Issues(c, d, held) && |d.receipts| <= 1
    ensures Vouched(d)
  {
    if d.receipts == c.receipts && |c.receipts| > 0 {
      var n: nat :| IssuedAt(c, n);
      assert IssuedAt(d, n);
    } else if |d.receipts| > 0 {
      assert IssuedAt(d, |d.trace|);
    }
  }

  lemma StepVouches(w: World, db: Db, step: Step, id: Id)
    requires DbSafe(w, db) && (id in db.cases ==> Vouched(db.cases[id]))
    requires id in Perform(w, db, step).cases
    ensures Vouched(Perform(w, db, step).cases[id])
  {
    if id in db.cases {
      StepIssues(w, db, step, id);
      PerformExtends(w, db, step);
      PerformSafe(w, db, step);
      VouchedStays(db.cases[id], Perform(w, db, step).cases[id], HeldStep(w, db, step, id));
    } else {
      OpenedHasNoReceipt(w, db, step, id);
    }
  }

  lemma {:induction false} RunVouches(w: World, db: Db, steps: seq<Step>, id: Id)
    requires Initial(db) && id in Run(w, db, steps).cases
    ensures Vouched(Run(w, db, steps).cases[id])
  {
    if |steps| > 0 {
      var front := steps[..|steps| - 1];
      RunIsSafe(w, db, front);
      if id in Run(w, db, front).cases {
        RunVouches(w, db, front, id);
      }
      StepVouches(w, Run(w, db, front), steps[|steps| - 1], id);
    }
  }

  // The history that a receipt vouches for: the events up to the one it was issued with.
  ghost predicate VouchedFor(c: Case, history: TraceStore.Log) {
    IssuedAt(c, |history|) && history == c.trace[..|history|]
  }

  ghost predicate Verifies(w: World, history: TraceStore.Log) {
    TraceStore.Linked(w.sealer, history) && TraceStore.WellFormedBodies(BodyJson, history)
  }

  lemma ReceiptHasHistory(w: World, c: Case)
    requires Vouched(c) && Kept(w, c) && |c.receipts| > 0
    ensures exists history :: VouchedFor(c, history) && Verifies(w, history)
  {
    var n: nat :| IssuedAt(c, n);
    KeptVerifies(w, c);
    PrefixVerifies(w, c.trace, n);
    assert VouchedFor(c, c.trace[..n]);
  }

  lemma KeptVerifies(w: World, c: Case)
    requires Kept(w, c)
    ensures Verifies(w, c.trace)
  {
    assert Has(Verified, w, c.trace, AboutOf(c.request)) && Has(Formed, w, c.trace, AboutOf(c.request));
  }

  lemma PrefixVerifies(w: World, trace: TraceStore.Log, n: nat)
    requires Verifies(w, trace) && n <= |trace|
    ensures Verifies(w, trace[..n])
  {
    TraceStore.PrefixLinked(w.sealer, trace, n);
  }

  // The two lists record the same, event by event.
  ghost predicate SameRecords(history: TraceStore.Log, claimed: TraceStore.Log) {
    && |history| == |claimed|
    && forall i | 0 <= i < |history| :: SameRecord(history[i].body, claimed[i].body)
  }

  // In every run of the service, with crashes and rewrites, the hash on a receipt pins the
  // history it vouches for: whatever list of events verifies and ends in that hash records
  // the same, event by event and field by field, or exhibits a collision or a preimage of
  // the genesis value.
  lemma ReceiptPinsHistory(sha: Hashing.Digest, secret: string, profiles: seq<Tools.LoanProfile>,
                           search: Detectors.Search, initial: Db, steps: seq<Step>, id: Id, claimed: TraceStore.Log)
    requires Initial(initial)
    requires var db := Run(Authority.ServiceWorld(sha, secret, profiles, search), initial, steps);
             id in db.cases && |db.cases[id].receipts| > 0
             && TraceStore.FinalHash(claimed) == db.cases[id].receipts[0].eventHash
    requires TraceStore.Linked(ChainSealer(sha, secret), claimed) && TraceStore.WellFormedBodies(BodyJson, claimed)
    ensures var c := Run(Authority.ServiceWorld(sha, secret, profiles, search), initial, steps).cases[id];
            exists history :: VouchedFor(c, history) &&
              (SameRecords(history, claimed) || TraceStore.Broken(ChainSealer(sha, secret), history, claimed))
  {
    var w := Authority.ServiceWorld(sha, secret, profiles, search);
    var c := Run(w, initial, steps).cases[id];
    RunVouches(w, initial, steps, id);
    RunKeepsTraces(w, initial, steps, id);
    CasePinsHistory(w, c, sha, secret, claimed);
  }

  lemma CasePinsHistory(w: World, c: Case, sha: Hashing.Digest, secret: string, claimed: TraceStore.Log)
    requires w.sealer == ChainSealer(sha, secret) && Vouched(c) && Kept(w, c) && |c.receipts| > 0
    requires TraceStore.FinalHash(claimed) == c.receipts[0].eventHash
    requires TraceStore.Linked(ChainSealer(sha, secret), claimed) && TraceStore.WellFormedBodies(BodyJson, claimed)
    ensures exists history :: VouchedFor(c, history) &&
              (SameRecords(history, claimed) || TraceStore.Broken(ChainSealer(sha, secret), history, claimed))
  {
    ReceiptHasHistory(w, c);
    var history :| VouchedFor(c, history) && Verifies(w, history);
    PinHistory(sha, secret, history, claimed);
  }

  lemma SameHistorySameRecords(history: TraceStore.Log, claimed: TraceStore.Log)
    requires TraceStore.SameHistory(BodyJson, history, claimed)
    ensures SameRecords(history, claimed)
  {
    forall i | 0 <= i < |history| {
      SameBodySameRecord(history[i].body, claimed[i].body);
    }
  }

  lemma PinHistory(sha: Hashing.Digest, secret: string, history: TraceStore.Log, claimed: TraceStore.Log)
    requires TraceStore.Linked(ChainSealer(sha, secret), history) &&
             TraceStore.Linked(ChainSealer(sha, secret), claimed)
    requires TraceStore.WellFormedBodies(BodyJson, history) && TraceStore.WellFormedBodies(BodyJson, claimed)
    requires TraceStore.FinalHash(history) == TraceStore.FinalHash(claimed)
    ensures SameRecords(history, claimed) || TraceStore.Broken(ChainSealer(sha, secret), history, claimed)
  {
    ChainSealerSplits(sha, secret);
    TraceStore.LastHashPinsHistory(ChainSealer(sha, secret), BodyJson, history, claimed);
    if TraceStore.SameHistory(BodyJson, history, claimed) {
      SameHistorySameRecords(history, claimed);
    }
  }

  // --- Overwritten events -------------------------------------------------------------

  predicate TextsCollide(sealer: Sealer, e: TraceStore.TraceEvent, body: Body) {
    Hashing.Collision(sealer.sha, TraceStore.Hashed(sealer, e), TraceStore.Hashed(sealer, e.(body := body)))
  }

  // The chain with the body of one event overwritten.
  function Overwritten(trace: TraceStore.Log, i: nat, body: Body): TraceStore.Log
    requires i < |trace|
  {
    trace[i := trace[i].(body := body)]
  }

  // The overwritten chain verifies only if the new body records the same or the two hashed
  // texts collide, and it does then if the new body has the shape of the service's own.
  ghost predicate OverwriteShows(sealer: Sealer, trace: TraceStore.Log, i: nat, body: Body)
    requires i < |trace|
  {
    var verifies := TraceStore.Linked(sealer, Overwritten(trace, i, body));
    var unnoticed := SameRecord(trace[i].body, body) || TextsCollide(sealer, trace[i], body);
    (verifies ==> unnoticed) && (unnoticed && !body.Raw? ==> verifies)
  }

  lemma OverwrittenTrace(sha: Hashing.Digest, secret: string, w: World, c: Case, i: nat, body: Body)
    requires w.sealer == ChainSealer(sha, secret) && Kept(w, c) && i < |c.trace|
    requires BodyWellFormed(BodyJson, body)
    ensures OverwriteShows(w.sealer, c.trace, i, body)
  {
    KeptVerifies(w, c);
    assert Has(Truthful, w, c.trace, AboutOf(c.request));
    assert Says(c.trace[i].eventType, c.trace[i].body, AboutOf(c.request));
    ChainSealerSplits(sha, secret);
    TraceStore.OverwriteIsDetected(w.sealer, BodyJson, c.trace, i, body);
    if SameBody(BodyJson, c.trace[i].body, body) {
      SameBodySameRecord(c.trace[i].body, body);
    }
    if !body.Raw? {
      SameRecordSameBody(c.trace[i].body, body);
    }
  }

  // In every run, overwriting the body of any event of any trace shows.
  lemma OverwrittenEventIsDetected(sha: Hashing.Digest, secret: string, profiles: seq<Tools.LoanProfile>,
                                   search: Detectors.Search, initial: Db, steps: seq<Step>, id: Id, i: nat, body: Body)
    requires Initial(initial) && BodyWellFormed(BodyJson, body)
    requires var db := Run(Authority.ServiceWorld(sha, secret, profiles, search), initial, steps);
             id in db.cases && i < |db.cases[id].trace|
    ensures var trace := Run(Authority.ServiceWorld(sha, secret, profiles, search), initial, steps).cases[id].trace;
            OverwriteShows(ChainSealer(sha, secret), trace, i, body)
  {
    var w := Authority.ServiceWorld(sha, secret, profiles, search);
    RunKeepsTraces(w, initial, steps, id);
    OverwrittenTrace(sha, secret, w, Run(w, initial, steps).cases[id], i, body);
  }
}
