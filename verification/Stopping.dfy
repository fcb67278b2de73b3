// How far a call must get: at which commit of its trail the receipt is there, and at which
// the request has left the state from which the call can be repeated.
module Stopping {
  import opened Wrappers
  import opened Domain
  import opened PolicyEngine
  import opened Lifecycle
  import opened CaseSafety
  import opened GateStability
  import opened Rows
  import opened Outcomes
  import opened System
  import opened Standstill
  import Detectors

  predicate Receipted(c: Case) {
    |c.receipts| > 0
  }

  // The receipt is there from the k-th commit on, counting from 0.
  predicate ReceiptFrom(trail: seq<Case>, k: int) {
    forall i | 0 <= i < |trail| :: Receipted(trail[i]) <==> i >= k
  }

  // The request is in this state at the commits from the j-th up to the k-th, exclusive.
  predicate StateBetween(trail: seq<Case>, s: RequestState, j: int, k: int) {
    forall i | 0 <= i < |trail| && j <= i < k :: trail[i].request.state == s
  }

  lemma ReceiptLater(t1: seq<Case>, t2: seq<Case>, k: int)
    requires NoReceipts(t1) && ReceiptFrom(t2, k) && 0 <= k <= |t2|
    ensures ReceiptFrom(t1 + t2, |t1| + k)
  {
  }

  lemma StateLonger(t1: seq<Case>, t2: seq<Case>, s: RequestState, j: int, k: int)
    requires StateBetween(t1, s, j, |t1|) && StateBetween(t2, s, 0, k) && 0 <= j <= |t1| && 0 <= k <= |t2|
    ensures StateBetween(t1 + t2, s, j, |t1| + k)
  {
    var t := t1 + t2;
    forall i | 0 <= i < |t| && j <= i < |t1| + k
      ensures t[i].request.state == s
    {
      if i >= |t1| {
        assert t[i] == t2[i - |t1|];
      }
    }
  }

  // --- Blocked outcomes ---------------------------------------------------------------

  // How many commits a blocked outcome takes: one for the rows of blocked calls and one for
  // their event if there are any, two for an incident, four to close.
  function BlockedCommits(d: Decision, signals: Detectors.Signals): nat {
    (if |signals.attemptedUnauthorizedTools| > 0 then 2 else 1) + (if d == Quarantine then 2 else 0) + 4
  }

  lemma KeptRowsHaveNoReceipt(c: Case, trail: seq<Case>)
    requires KeepsRows(c, trail) && c.receipts == []
    ensures NoReceipts(trail) && StateBetween(trail, c.request.state, 0, |trail|)
    ensures SameRows(c, After(c, trail))
  {
  }

  lemma CloseBlockedReceipt(w: World, c: Case, b: Blocking)
    requires c.receipts == []
    ensures var t := CloseBlockedTrail(w, c, b);
            |t| == 4 && ReceiptFrom(t, 2) && StateBetween(t, c.request.state, 0, 3)
  {
  }

  // The receipt is there from the last commit but one, and the state stays until the last.
  lemma HandleBlockedReceipt(w: World, c: Case, b: Blocking)
    requires c.receipts == []
    ensures var t := HandleBlockedTrail(w, c, b);
            && |t| == BlockedCommits(b.evaluation.decision, b.signals)
            && ReceiptFrom(t, |t| - 2) && StateBetween(t, c.request.state, 0, |t| - 1)
  {
    var s := c.request.state;
    var t1 := BlockToolsTrail(w, c, b);
    BlockToolsKeepsRows(w, c, b);
    KeptRowsHaveNoReceipt(c, t1);
    var c1 := After(c, t1);
    var t2 := IncidentTrail(w, c1, b);
    IncidentKeepsRows(w, c1, b);
    KeptRowsHaveNoReceipt(c1, t2);
    var c2 := After(c1, t2);
    var t3 := CloseBlockedTrail(w, c2, b);
    CloseBlockedReceipt(w, c2, b);
    StateLonger(t1, t2, s, 0, |t2|);
    StateLonger(t1 + t2, t3, s, 0, 3);
    ReceiptLater(t1 + t2, t3, 2);
  }

  // --- A call that the gate refuses ---------------------------------------------------

  // The trail keeps the state for the first few commits, then is in a final state without a
  // receipt, and has the receipt from the last commit but one.
  predicate Refusal(trail: seq<Case>, before: RequestState, refused: RequestState, keeps: nat) {
    && keeps + 2 <= |trail|
    && StateBetween(trail, before, 0, keeps) && StateBetween(trail, refused, keeps, |trail| - 1)
    && ReceiptFrom(trail, |trail| - 2)
  }

  lemma RefusalBegins(t1: seq<Case>, t2: seq<Case>, before: RequestState, refused: RequestState, keeps: nat)
    requires NoReceipts(t1) && |t1| == keeps + 1
    requires StateBetween(t1, before, 0, keeps) && StateBetween(t1, refused, keeps, |t1|)
    requires |t2| >= 2 && StateBetween(t2, refused, 0, |t2| - 1) && ReceiptFrom(t2, |t2| - 2)
    ensures Refusal(t1 + t2, before, refused, keeps)
  {
    StateLonger(t1, t2, refused, keeps, |t2| - 1);
    ReceiptLater(t1, t2, |t2| - 2);
  }

  lemma DecideTrailStates(w: World, c: Case, b: Blocking)
    ensures var t := DecideTrail(w, c, b);
            && |t| == 3 && StateBetween(t, c.request.state, 0, 2)
            && After(c, t).request.state == t[2].request.state == StateFor(b.evaluation.decision)
  {
  }

  // A refused evaluation: two commits before the state, then the blocked outcome.
  lemma EvaluateTrailRefusal(w: World, c: Case, b: Blocking)
    requires c.receipts == [] && (b.evaluation.decision == Deny || b.evaluation.decision == Quarantine)
    ensures var t := EvaluateTrail(w, c, b);
            && |t| == 3 + BlockedCommits(b.evaluation.decision, b.signals)
            && Refusal(t, c.request.state, StateFor(b.evaluation.decision), 2)
  {
    var t1 := DecideTrail(w, c, b);
    DecideRows(w, c, b);
    DecideTrailStates(w, c, b);
    var d := After(c, t1);
    HandleBlockedReceipt(w, d, b);
    RefusalBegins(t1, HandleBlockedTrail(w, d, b), c.request.state, StateFor(b.evaluation.decision), 2);
  }

  // A refused execution: one commit before the state, then the blocked outcome.
  lemma ExecuteTrailRefusal(w: World, c: Case, x: Running, b: Blocking)
    requires c.receipts == [] && b.evaluation.decision != Allow
    ensures var t := ExecuteTrail(w, c, x, b);
            && |t| == 2 + BlockedCommits(b.evaluation.decision, b.signals)
            && Refusal(t, c.request.state, RefusedState(b.evaluation.decision), 1)
  {
    var c1 := c.(evaluations := c.evaluations + [b.evaluation]);
    var c2 := WithState(c1, RefusedState(b.evaluation.decision));
    HandleBlockedReceipt(w, c2, b);
    RefusalBegins([c1, c2], HandleBlockedTrail(w, c2, b), c.request.state, RefusedState(b.evaluation.decision), 1);
  }

  // --- The calls ----------------------------------------------------------------------

  function EvaluationDecision(w: World, c: Case, actors: Actors, now: Time): Decision
    requires HasPlan(c, actors)
  {
    DecisionOf(GateContext(w, c, actors, now))
  }

  function SignalsFor(w: World, c: Case, actors: Actors): Detectors.Signals
    requires HasPlan(c, actors)
  {
    SignalsOf(w, c.request, actors.policy.value)
  }

  lemma EvaluationRefusal(w: World, c: Case, actors: Actors, now: Time, draws: Draws)
    requires c.receipts == [] && HasPlan(c, actors)
    requires c.request.state.PlanCreated? || c.request.state.ApprovalRequired?
    requires EvaluationDecision(w, c, actors, now) == Deny || EvaluationDecision(w, c, actors, now) == Quarantine
    ensures var d := EvaluationDecision(w, c, actors, now);
            var t := EvaluateRequest(w, c, actors, now, draws).trail;
            && |t| == 3 + BlockedCommits(d, SignalsFor(w, c, actors))
            && Refusal(t, c.request.state, StateFor(d), 2)
  {
    var ctx := GateContext(w, c, actors, now);
    var b := Blocking(actors.policy, c.plan.value.payload, EvaluationOf(ctx), ctx.security, now, draws);
    EvaluateTrailRefusal(w, c, b);
  }

  lemma GatedExecutionRefusal(w: World, c: Case, actors: Actors, key: Option<string>, now: Time, draws: Draws)
    requires c.receipts == [] && HasPlan(c, actors) && ExecutionDecision(w, c, actors, key, now) != Allow
    ensures var d := ExecutionDecision(w, c, actors, key, now);
            var t := GatedExecuteTrail(w, c, actors, actors.policy.value, c.plan.value, key, now, draws);
            && |t| == 2 + BlockedCommits(d, SignalsFor(w, c, actors))
            && Refusal(t, c.request.state, RefusedState(d), 1)
  {
    var policy, row := actors.policy.value, c.plan.value;
    var ctx := ExecutionContext(w, c, actors, policy, row, now, key);
    ExecuteTrailRefusal(w, c, ExecutingOf(w, c, policy, row, EvaluationOf(ctx), now, key, draws),
                        Blocking(Some(policy), row.payload, EvaluationOf(ctx), ctx.security, now, draws));
  }

  lemma ExecutionRefusal(w: World, c: Case, actors: Actors, key: Option<string>, now: Time, draws: Draws)
    requires Safe(w, c) && Ready(c, actors) && ExecutionDecision(w, c, actors, key, now) != Allow
    ensures var d := ExecutionDecision(w, c, actors, key, now);
            var t := Execute(w, c, actors, key, now, draws).trail;
            && |t| == 2 + BlockedCommits(d, SignalsFor(w, c, actors))
            && Refusal(t, c.request.state, RefusedState(d), 1)
  {
    ReadyIsUntouched(w, c, actors);
    ExecuteIsGated(w, c, actors, key, now, draws);
    GatedExecutionRefusal(w, c, actors, key, now, draws);
  }

  // --- An execution that the gate allows ----------------------------------------------

  // Final states of a request before its receipt.
  predicate FinalBetween(trail: seq<Case>, j: int, k: int) {
    forall i | 0 <= i < |trail| && j <= i < k :: Final(trail[i].request.state)
  }

  lemma FinalLonger(t1: seq<Case>, t2: seq<Case>, j: int, k: int)
    requires FinalBetween(t1, j, |t1|) && FinalBetween(t2, 0, k) && 0 <= j <= |t1| && 0 <= k <= |t2|
    ensures FinalBetween(t1 + t2, j, |t1| + k)
  {
    var t := t1 + t2;
    forall i | 0 <= i < |t| && j <= i < |t1| + k
      ensures Final(t[i].request.state)
    {
      if i >= |t1| {
        assert t[i] == t2[i - |t1|];
      }
    }
  }

  lemma NoReceiptsConcat(t1: seq<Case>, t2: seq<Case>)
    requires NoReceipts(t1) && NoReceipts(t2)
    ensures NoReceipts(t1 + t2)
  {
  }

  lemma RunToolsFinal(w: World, c: Case, x: Running)
    requires c.receipts == []
    ensures var t := RunToolsTrail(w, c, x);
            && |t| == 4 && NoReceipts(t) && FinalBetween(t, 0, 4)
            && After(c, t).receipts == [] && After(c, t).request.state == Executing
  {
  }

  lemma RecordExecutionFinal(w: World, c: Case, x: Running)
    requires c.receipts == []
    ensures var t := RecordExecutionTrail(w, c, x);
            && |t| == 3 && NoReceipts(t) && FinalBetween(t, 0, 3)
            && After(c, t).receipts == [] && Final(After(c, t).request.state)
  {
  }

  lemma IssueReceiptFinal(c: Case, receipt: Receipts.Receipt, key: Option<string>)
    requires c.receipts == [] && Final(c.request.state)
    ensures var t := IssueReceiptTrail(c, receipt, key);
            |t| == (if HasKey(key) then 3 else 2) && ReceiptFrom(t, 0)
  {
  }

  // One commit before the state, seven without a receipt, then the receipt.
  lemma ExecuteTrailAllowed(w: World, c: Case, x: Running, b: Blocking)
    requires c.receipts == [] && b.evaluation.decision == Allow
    ensures var t := ExecuteTrail(w, c, x, b);
            && |t| >= 10 && ReceiptFrom(t, 8)
            && StateBetween(t, c.request.state, 0, 1) && FinalBetween(t, 1, 8)
  {
    var c1 := c.(evaluations := c.evaluations + [b.evaluation]);
    var t1 := RunToolsTrail(w, c1, x);
    RunToolsFinal(w, c1, x);
    var c2 := After(c1, t1);
    var t2 := RecordExecutionTrail(w, c2, x);
    RecordExecutionFinal(w, c2, x);
    var c3 := After(c2, t2);
    var t3 := IssueReceiptTrail(c3, IssuedReceipt(c3, x), x.key);
    IssueReceiptFinal(c3, IssuedReceipt(c3, x), x.key);
    AllowedTrailTurns(c1, t1, t2, t3);
    assert ExecuteTrail(w, c, x, b) == [c1] + t1 + t2 + t3;
  }

  lemma AllowedTrailTurns(c1: Case, t1: seq<Case>, t2: seq<Case>, t3: seq<Case>)
    requires c1.receipts == [] && |t1| == 4 && NoReceipts(t1) && FinalBetween(t1, 0, 4)
    requires |t2| == 3 && NoReceipts(t2) && FinalBetween(t2, 0, 3)
    requires |t3| >= 2 && ReceiptFrom(t3, 0)
    ensures var t := [c1] + t1 + t2 + t3;
            && |t| >= 10 && ReceiptFrom(t, 8)
            && StateBetween(t, c1.request.state, 0, 1) && FinalBetween(t, 1, 8)
  {
    FinalLonger([c1], t1, 1, 4);
    FinalLonger([c1] + t1, t2, 1, 3);
    FinalLonger([c1] + t1 + t2, t3, 1, 0);
    NoReceiptsConcat([c1], t1);
    NoReceiptsConcat([c1] + t1, t2);
    ReceiptLater([c1] + t1 + t2, t3, 0);
  }

  lemma AllowedExecutionTurns(w: World, c: Case, actors: Actors, key: Option<string>, now: Time, draws: Draws)
    requires Safe(w, c) && Ready(c, actors) && ExecutionDecision(w, c, actors, key, now) == Allow
    ensures var t := Execute(w, c, actors, key, now, draws).trail;
            |t| >= 10 && Turns(t, c.request.state, 1, 8)
  {
    ReadyIsUntouched(w, c, actors);
    ExecuteIsGated(w, c, actors, key, now, draws);
    GatedExecutionAllowed(w, c, actors, key, now, draws);
  }

  lemma GatedExecutionAllowed(w: World, c: Case, actors: Actors, key: Option<string>, now: Time, draws: Draws)
    requires c.receipts == [] && HasPlan(c, actors) && ExecutionDecision(w, c, actors, key, now) == Allow
    ensures var t := GatedExecuteTrail(w, c, actors, actors.policy.value, c.plan.value, key, now, draws);
            |t| >= 10 && Turns(t, c.request.state, 1, 8)
  {
    var policy, row := actors.policy.value, c.plan.value;
    var ctx := ExecutionContext(w, c, actors, policy, row, now, key);
    ExecuteTrailAllowed(w, c, ExecutingOf(w, c, policy, row, EvaluationOf(ctx), now, key, draws),
                        Blocking(Some(policy), row.payload, EvaluationOf(ctx), ctx.security, now, draws));
  }

  // --- A stopped call -----------------------------------------------------------------

  // The trail keeps the state for the first few commits, is then in final states, and has
  // the receipt from the k-th commit on.
  predicate Turns(trail: seq<Case>, before: RequestState, keeps: nat, k: nat) {
    && keeps <= k < |trail|
    && StateBetween(trail, before, 0, keeps) && FinalBetween(trail, keeps, k) && ReceiptFrom(trail, k)
  }

  lemma RefusalTurns(trail: seq<Case>, before: RequestState, refused: RequestState, keeps: nat)
    requires Refusal(trail, before, refused, keeps) && Final(refused)
    ensures Turns(trail, before, keeps, |trail| - 2)
  {
  }

  // What such a call leaves when it stops after n commits.
  lemma StoppedTurning(c: Case, trail: seq<Case>, keeps: nat, k: nat, n: nat)
    requires c.receipts == [] && Turns(trail, c.request.state, keeps, k)
    ensures var d := After(c, Committed(trail, Some(n)));
            && (Receipted(d) <==> n > k)
            && (n <= keeps ==> d.request.state == c.request.state)
            && (keeps < n <= k ==> Final(d.request.state))
  {
    if 0 < n < |trail| {
      assert After(c, Committed(trail, Some(n))) == trail[n - 1];
    }
  }

  // A refusal that stops after leaving the state and before its receipt.
  lemma StoppedRefusal(c: Case, trail: seq<Case>, refused: RequestState, keeps: nat, n: nat)
    requires Refusal(trail, c.request.state, refused, keeps) && keeps < n < |trail| - 1
    ensures var d := After(c, Committed(trail, Some(n)));
            d.request.state == refused && !Receipted(d)
  {
    assert After(c, Committed(trail, Some(n))) == trail[n - 1];
  }

  // Until it is closed, a refused request is QUARANTINED or DENIED, by the decision.
  lemma StoppedEvaluationState(w: World, c: Case, actors: Actors, now: Time, draws: Draws, n: nat)
    requires c.receipts == [] && HasPlan(c, actors)
    requires c.request.state.PlanCreated? || c.request.state.ApprovalRequired?
    requires EvaluationDecision(w, c, actors, now) == Deny || EvaluationDecision(w, c, actors, now) == Quarantine
    ensures var t := EvaluateRequest(w, c, actors, now, draws).trail;
            2 < n < |t| - 1 ==>
              After(c, Committed(t, Some(n))).request.state ==
              if EvaluationDecision(w, c, actors, now) == Quarantine then RequestState.Quarantined else Denied
  {
    var t := EvaluateRequest(w, c, actors, now, draws).trail;
    EvaluationRefusal(w, c, actors, now, draws);
    if 2 < n < |t| - 1 {
      StoppedRefusal(c, t, StateFor(EvaluationDecision(w, c, actors, now)), 2, n);
    }
  }

  lemma StoppedExecutionState(w: World, c: Case, actors: Actors, key: Option<string>, now: Time, draws: Draws, n: nat)
    requires Safe(w, c) && Ready(c, actors) && ExecutionDecision(w, c, actors, key, now) != Allow
    ensures var t := Execute(w, c, actors, key, now, draws).trail;
            1 < n < |t| - 1 ==>
              After(c, Committed(t, Some(n))).request.state ==
              if ExecutionDecision(w, c, actors, key, now) == Quarantine then RequestState.Quarantined else Denied
  {
    var t := Execute(w, c, actors, key, now, draws).trail;
    ExecutionRefusal(w, c, actors, key, now, draws);
    if 1 < n < |t| - 1 {
      StoppedRefusal(c, t, RefusedState(ExecutionDecision(w, c, actors, key, now)), 1, n);
    }
  }
}
