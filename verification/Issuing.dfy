// Which receipts the steps of a run issue, whatever crashes and rewrites it contains.
module Issuing {
  import opened Wrappers
  import opened Domain
  import opened PolicyEngine
  import opened Lifecycle
  import opened CaseSafety
  import opened Rows
  import opened Outcomes
  import opened PolicyRules
  import opened GateStability
  import opened System
  import opened Stopping
  import Receipts

  predicate Awaits(receipt: Receipts.Receipt) {
    receipt.status == Receipts.AwaitingApproval
  }

  // No receipt is issued, or the first one is, sealed, and it awaits approval exactly if
  // the call was held back.
  predicate Issues(c: Case, d: Case, held: bool) {
    d.receipts == c.receipts ||
    (c.receipts == [] && |d.receipts| == 1 && Sealed(d.trace, d.receipts[0]) && (Awaits(d.receipts[0]) <==> held))
  }

  predicate AllIssue(c: Case, trail: seq<Case>, held: bool) {
    forall i | 0 <= i < |trail| :: Issues(c, trail[i], held)
  }

  lemma AnswersIssue(c: Case, trail: seq<Case>, decision: Decision)
    requires c.receipts == [] && AnswersOnly(trail, decision)
    ensures AllIssue(c, trail, decision == RequireApproval)
  {
  }

  // --- One call -----------------------------------------------------------------------

  lemma NoReceiptsIssue(c: Case, trail: seq<Case>)
    requires c.receipts == [] && NoReceipts(trail)
    ensures AllIssue(c, trail, false)
  {
  }

  lemma EvaluateTrailIssues(w: World, c: Case, b: Blocking)
    requires NoOutcome(c)
    ensures AllIssue(c, EvaluateTrail(w, c, b), false)
  {
    EvaluateTrailRows(w, c, b);
    if Receipts.InScope(b.evaluation.decision) {
      NoReceiptsIssue(c, EvaluateTrail(w, c, b));
    } else {
      AnswersIssue(c, EvaluateTrail(w, c, b), b.evaluation.decision);
    }
  }

  lemma EvaluableIsUntouched(w: World, c: Case)
    requires Safe(w, c)
    requires c.request.state.PlanCreated? || c.request.state.PolicyEvaluated? || c.request.state.ApprovalRequired?
    ensures NoOutcome(c)
  {
  }

  // An evaluation never issues a receipt that awaits approval.
  lemma EvaluateIssues(w: World, c: Case, actors: Actors, now: Time, draws: Draws)
    requires Safe(w, c)
    ensures AllIssue(c, EvaluateRequest(w, c, actors, now, draws).trail, false)
  {
    if c.request.state in {PlanCreated, PolicyEvaluated, ApprovalRequired} && c.plan.Some? && actors.policy.Some? {
      var ctx := EvaluationContext(w, c, actors, actors.policy.value, c.plan.value, now);
      EvaluableIsUntouched(w, c);
      EvaluateTrailIssues(w, c,
                          Blocking(actors.policy, c.plan.value.payload, EvaluationOf(ctx), ctx.security, now, draws));
    }
  }

  lemma ExecuteIssues(w: World, c: Case, actors: Actors, key: Option<string>, now: Time, draws: Draws)
    requires Safe(w, c) && Loaded(c, actors)
    ensures AllIssue(c, Execute(w, c, actors, key, now, draws).trail, HeldBack(w, c, actors, key, now))
  {
    if Ready(c, actors) {
      ReadyIsUntouched(w, c, actors);
      ExecuteIsGated(w, c, actors, key, now, draws);
      GatedExecuteRows(w, c, actors, key, now, draws);
      HeldOnExecution(w, c, actors, key, now);
      AnswersIssue(c, Execute(w, c, actors, key, now, draws).trail, ExecutionDecision(w, c, actors, key, now));
    } else {
      UnreadyWritesNothing(w, c, actors, key, now, draws);
    }
  }

  lemma UnreadyWritesNothing(w: World, c: Case, actors: Actors, key: Option<string>, now: Time, draws: Draws)
    requires !Ready(c, actors)
    ensures Execute(w, c, actors, key, now, draws).trail == []
  {
  }

  // The call is an execution that the gate holds back.
  ghost predicate HeldCall(w: World, c: Case, actors: Actors, call: Call, now: Time) {
    call.CallExecute? && HeldBack(w, c, actors, call.key, now)
  }

  lemma OtherCallIssuesNothing(w: World, c: Case, actors: Actors, call: Call, now: Time)
    requires !call.CallEvaluate? && !call.CallExecute?
    ensures AllIssue(c, TrailOf(w, c, actors, call, now), false)
  {
  }

  lemma CallIssues(w: World, c: Case, actors: Actors, call: Call, now: Time)
    requires Safe(w, c) && Loaded(c, actors)
    ensures AllIssue(c, TrailOf(w, c, actors, call, now), HeldCall(w, c, actors, call, now))
  {
    if call.CallEvaluate? {
      EvaluateIssues(w, c, actors, now, call.draws);
    } else if call.CallExecute? {
      ExecuteIssues(w, c, actors, call.key, now, call.draws);
    } else {
      OtherCallIssuesNothing(w, c, actors, call, now);
    }
  }

  // --- One step -----------------------------------------------------------------------

  lemma CommittedIssues(c: Case, trail: seq<Case>, stopsAfter: Option<nat>, held: bool)
    requires AllIssue(c, trail, held)
    ensures Issues(c, After(c, Committed(trail, stopsAfter)), held)
  {
  }

  // The step executes this request and is held back.
  ghost predicate HeldStep(w: World, db: Db, step: Step, id: Id) {
    && id in db.cases && Targets(step, id)
    && HeldCall(w, db.cases[id], ActorsOf(db, db.cases[id].request), step.action.call, step.now)
  }

  lemma OnIssues(w: World, db: Db, id: Id, call: Call, now: Time, stopsAfter: Option<nat>)
    requires DbSafe(w, db) && id in db.cases
    ensures Issues(db.cases[id], PerformCall(w, db, id, call, now, stopsAfter).cases[id],
                   HeldCall(w, db.cases[id], ActorsOf(db, db.cases[id].request), call, now))
  {
    var c := db.cases[id];
    var actors := ActorsOf(db, c.request);
    CallIssues(w, c, actors, call, now);
    CommittedIssues(c, TrailOf(w, c, actors, call, now), stopsAfter, HeldCall(w, c, actors, call, now));
  }

  // A step on a committed state, whole or stopped part way: if it issues a receipt, the
  // receipt awaits approval exactly if the step was held back.
  lemma StepIssues(w: World, db: Db, step: Step, id: Id)
    requires DbSafe(w, db) && id in db.cases
    ensures id in Perform(w, db, step).cases
    ensures Issues(db.cases[id], Perform(w, db, step).cases[id], HeldStep(w, db, step, id))
  {
    if Targets(step, id) {
      PerformTarget(w, db, step, id);
      OnIssues(w, db, id, step.action.call, step.now, step.stopsAfter);
    } else {
      PerformElsewhere(w, db, step, id);
    }
  }

  lemma OpenedHasNoReceipt(w: World, db: Db, step: Step, id: Id)
    requires id !in db.cases && id in Perform(w, db, step).cases
    ensures Perform(w, db, step).cases[id].receipts == []
  {
    PerformOpens(w, db, step, id);
  }

  // --- Every run ----------------------------------------------------------------------

  function ReceiptsOf(db: Db, id: Id): seq<Receipts.Receipt> {
    if id in db.cases then db.cases[id].receipts else []
  }

  predicate AnyAwaits(receipts: seq<Receipts.Receipt>) {
    exists i | 0 <= i < |receipts| :: Awaits(receipts[i])
  }

  // The call makes at least this many commits before it stops.
  predicate Reaches(stopsAfter: Option<nat>, n: nat) {
    stopsAfter.None? || stopsAfter.value >= n
  }

  // The step is held back, and goes on to its sixth commit, the receipt.
  ghost predicate HoldsBack(w: World, db: Db, step: Step, id: Id) {
    HeldStep(w, db, step, id) && Reaches(step.stopsAfter, 6)
  }

  // Some step of the run did that.
  ghost predicate WasHeldBack(w: World, initial: Db, steps: seq<Step>, id: Id) {
    |steps| > 0 &&
    (var front := steps[..|steps| - 1];
     WasHeldBack(w, initial, front, id) || HoldsBack(w, Run(w, initial, front), steps[|steps| - 1], id))
  }

  lemma AwaitingAfter(c: Case, d: Case, held: bool)
    requires Issues(c, d, held) && (held ==> c.receipts == [])
    ensures AnyAwaits(d.receipts) <==> AnyAwaits(c.receipts) || (held && d.receipts != [])
  {
  }

  lemma HeldHasNoReceipt(w: World, db: Db, step: Step, id: Id)
    requires DbSafe(w, db) && HeldStep(w, db, step, id)
    ensures db.cases[id].receipts == []
  {
    ReadyIsUntouched(w, db.cases[id], ActorsOf(db, db.cases[id].request));
  }

  lemma HeldHasNoAttempts(w: World, c: Case, actors: Actors, key: Option<string>, now: Time)
    requires HeldBack(w, c, actors, key, now)
    ensures HasPlan(c, actors) && |SignalsFor(w, c, actors).attemptedUnauthorizedTools| == 0
  {
    assert !Fails(UntrustedInstructionBoundaryIntact, GateContext(w, c, actors, 0));
  }

  // A held-back execution makes seven commits, and its receipt is the sixth.
  lemma HeldCommits(w: World, c: Case, actors: Actors, key: Option<string>, now: Time, draws: Draws)
    requires Safe(w, c) && Loaded(c, actors) && HeldBack(w, c, actors, key, now)
    ensures var t := Execute(w, c, actors, key, now, draws).trail; |t| == 7 && ReceiptFrom(t, 5)
  {
    HeldHasNoAttempts(w, c, actors, key, now);
    HeldOnExecution(w, c, actors, key, now);
    ExecutionRefusal(w, c, actors, key, now, draws);
  }

  lemma ReceiptFromSixth(c: Case, trail: seq<Case>, stopsAfter: Option<nat>)
    requires c.receipts == [] && |trail| == 7 && ReceiptFrom(trail, 5)
    ensures Receipted(After(c, Committed(trail, stopsAfter))) <==> Reaches(stopsAfter, 6)
  {
    if stopsAfter.Some? && 0 < stopsAfter.value < 7 {
      assert After(c, Committed(trail, stopsAfter)) == trail[stopsAfter.value - 1];
    }
  }

  lemma HeldStepIssues(w: World, db: Db, step: Step, id: Id)
    requires DbSafe(w, db) && HeldStep(w, db, step, id)
    ensures ReceiptsOf(Perform(w, db, step), id) != [] <==> Reaches(step.stopsAfter, 6)
  {
    var c, actors := db.cases[id], ActorsOf(db, db.cases[id].request);
    var key, draws := step.action.call.key, step.action.call.draws;
    HeldHasNoReceipt(w, db, step, id);
    HeldCommits(w, c, actors, key, step.now, draws);
    TrailOfExecute(w, c, actors, key, step.now, draws);
    ReceiptFromSixth(c, TrailOf(w, c, actors, step.action.call, step.now), step.stopsAfter);
    PerformTarget(w, db, step, id);
  }

  lemma LastStepAwaits(w: World, db: Db, step: Step, id: Id)
    requires DbSafe(w, db)
    ensures AnyAwaits(ReceiptsOf(Perform(w, db, step), id)) <==>
            AnyAwaits(ReceiptsOf(db, id)) || HoldsBack(w, db, step, id)
  {
    if id in db.cases {
      var held := HeldStep(w, db, step, id);
      StepIssues(w, db, step, id);
      if held {
        HeldHasNoReceipt(w, db, step, id);
        HeldStepIssues(w, db, step, id);
      }
      AwaitingAfter(db.cases[id], Perform(w, db, step).cases[id], held);
    } else if id in Perform(w, db, step).cases {
      OpenedHasNoReceipt(w, db, step, id);
    }
  }

  // In every run a receipt awaits approval exactly if some step executed a request that had
  // been allowed while its stored plan passed all else but needed an approval, and did not
  // stop before its sixth commit.
  lemma {:induction false} AwaitingReceipts(w: World, initial: Db, steps: seq<Step>, id: Id)
    requires Initial(initial)
    ensures AnyAwaits(ReceiptsOf(Run(w, initial, steps), id)) <==> WasHeldBack(w, initial, steps, id)
  {
    if |steps| > 0 {
      var front := steps[..|steps| - 1];
      AwaitingReceipts(w, initial, front, id);
      RunIsSafe(w, initial, front);
      LastStepAwaits(w, Run(w, initial, front), steps[|steps| - 1], id);
    }
  }
}
