// The receipt, execution and evaluation rows that each trail leaves, commit by commit,
// whatever the trace looks like when the call begins.
module Rows {
  import opened Wrappers
  import opened Domain
  import opened Evidence
  import opened Lifecycle
  import opened CaseSafety
  import Receipts
  import TraceStore

  // No outcome has been written up.
  predicate NoOutcome(c: Case) {
    c.receipts == [] && c.executions == []
  }

  predicate SameRows(c: Case, d: Case) {
    SameLedger(c, d) && d.evaluations == c.evaluations
  }

  predicate KeepsRows(c: Case, trail: seq<Case>) {
    forall i | 0 <= i < |trail| :: SameRows(c, trail[i])
  }

  // The body of an event states the facts of a receipt.
  predicate Certifies(body: Body, r: Receipts.Receipt) {
    && body.Msts? && body.traceId == r.traceId && body.userIntent == r.userRequest
    && body.policyDecision == Some(r.decision)
    && body.recommended == Some(r.agentPlan) && body.dataSources == r.dataUsed && body.toolCalls == r.toolsUsed
    && (body.review == ReviewApproved <==> r.humanApproval.Some?)
    && (body.executedAction.Some? <==> r.status == Receipts.Completed)
  }

  // The receipt carries the hash of the trace's last event, a receipt event with its facts.
  predicate Sealed(trace: TraceStore.Log, receipt: Receipts.Receipt) {
    && |trace| > 0 && TraceStore.Last(trace).eventType == TraceStore.ReceiptIssued
    && receipt.eventHash == TraceStore.Last(trace).eventHash
    && Certifies(TraceStore.Last(trace).body, receipt)
  }

  // The one receipt gives this decision, awaits approval exactly for REQUIRE_APPROVAL, and
  // is sealed.
  predicate Answers(d: Case, decision: Decision) {
    && |d.receipts| == 1 && d.receipts[0].decision == decision
    && (d.receipts[0].status == Receipts.AwaitingApproval <==> decision == RequireApproval)
    && Sealed(d.trace, d.receipts[0])
  }

  // No commit of the trail holds any other receipt.
  predicate AnswersOnly(trail: seq<Case>, decision: Decision) {
    forall i | 0 <= i < |trail| :: trail[i].receipts == [] || Answers(trail[i], decision)
  }

  predicate NoReceipts(trail: seq<Case>) {
    forall i | 0 <= i < |trail| :: trail[i].receipts == []
  }

  // The request is closed, with one execution row, and the receipt says COMPLETED exactly if
  // that was submitted.
  predicate ClosedBy(d: Case, decision: Decision, status: ExecutionStatus) {
    && d.request.state == ReceiptIssued && Answers(d, decision)
    && |d.executions| == 1 && d.executions[0].status == status
    && (d.receipts[0].status == Receipts.Completed <==> status == Submitted)
  }

  lemma AnswersConcat(t1: seq<Case>, t2: seq<Case>, decision: Decision)
    requires AnswersOnly(t1, decision) && AnswersOnly(t2, decision)
    ensures AnswersOnly(t1 + t2, decision)
  {
  }

  lemma KeptRowsAnswer(c: Case, trail: seq<Case>, decision: Decision)
    requires KeepsRows(c, trail) && c.receipts == []
    ensures AnswersOnly(trail, decision) && SameRows(c, After(c, trail))
  {
  }

  lemma SameRowsTransitive(a: Case, b: Case, c: Case)
    requires SameRows(a, b) && SameRows(b, c)
    ensures SameRows(a, c)
  {
  }

  // --- Blocking -----------------------------------------------------------------------

  lemma BlockToolsKeepsRows(w: World, c: Case, b: Blocking)
    ensures KeepsRows(c, BlockToolsTrail(w, c, b))
  {
  }

  lemma IncidentKeepsRows(w: World, c: Case, b: Blocking)
    ensures KeepsRows(c, IncidentTrail(w, c, b))
  {
  }

  lemma BlockedStatus(c: Case, b: Blocking, eventHash: string)
    requires b.evaluation.decision != Allow
    ensures var r := Lifecycle.BlockedReceipt(c, b, eventHash);
            && r.decision == b.evaluation.decision
            && (r.status == Receipts.AwaitingApproval <==> b.evaluation.decision == RequireApproval)
            && r.status != Receipts.Completed && r.eventHash == eventHash
  {
  }

  lemma BlockedCertificate(c: Case, c': Case, b: Blocking, eventHash: string)
    requires b.evaluation.decision != Allow && c'.request == c.request
    ensures Certifies(BlockedBody(c.request, b, BlockedUses(b), Some(NoExecutionOutcome())),
                      Lifecycle.BlockedReceipt(c', b, eventHash))
  {
  }

  lemma CloseBlockedRows(w: World, c: Case, b: Blocking)
    requires NoOutcome(c) && b.evaluation.decision != Allow
    ensures var t := CloseBlockedTrail(w, c, b);
            && AnswersOnly(t, b.evaluation.decision)
            && ClosedBy(After(c, t), b.evaluation.decision, NoExecution)
            && After(c, t).evaluations == c.evaluations && After(c, t).replies == c.replies
  {
    var t := CloseBlockedTrail(w, c, b);
    BlockedStatus(t[1], b, TraceStore.FinalHash(t[1].trace));
    BlockedCertificate(c, t[1], b, TraceStore.FinalHash(t[1].trace));
  }

  lemma HandleBlockedRows(w: World, c: Case, b: Blocking)
    requires NoOutcome(c) && b.evaluation.decision != Allow
    ensures var t := HandleBlockedTrail(w, c, b);
            && AnswersOnly(t, b.evaluation.decision)
            && ClosedBy(After(c, t), b.evaluation.decision, NoExecution)
            && After(c, t).evaluations == c.evaluations && After(c, t).replies == c.replies
  {
    var d := b.evaluation.decision;
    var t1 := BlockToolsTrail(w, c, b);
    BlockToolsKeepsRows(w, c, b);
    KeptRowsAnswer(c, t1, d);
    var c1 := After(c, t1);
    var t2 := IncidentTrail(w, c1, b);
    IncidentKeepsRows(w, c1, b);
    KeptRowsAnswer(c1, t2, d);
    var c2 := After(c1, t2);
    var t3 := CloseBlockedTrail(w, c2, b);
    SameRowsTransitive(c, c1, c2);
    CloseBlockedRows(w, c2, b);
    AnswersConcat(t1, t2, d);
    AnswersConcat(t1 + t2, t3, d);
  }

  // --- Evaluating ---------------------------------------------------------------------

  lemma DecideRows(w: World, c: Case, b: Blocking)
    requires c.receipts == []
    ensures var t := DecideTrail(w, c, b);
            var d := After(c, t);
            && NoReceipts(t)
            && d.executions == c.executions && d.replies == c.replies
            && d.evaluations == c.evaluations + [b.evaluation]
  {
  }

  lemma EvaluateTrailRows(w: World, c: Case, b: Blocking)
    requires NoOutcome(c)
    ensures AnswersOnly(EvaluateTrail(w, c, b), b.evaluation.decision)
    ensures Receipts.InScope(b.evaluation.decision) ==> NoReceipts(EvaluateTrail(w, c, b))
  {
    var t := DecideTrail(w, c, b);
    DecideRows(w, c, b);
    if b.evaluation.decision == Deny || b.evaluation.decision == Quarantine {
      HandleBlockedRows(w, After(c, t), b);
    }
    AnswersConcat(t, FollowUpTrail(w, After(c, t), b), b.evaluation.decision);
  }

  // --- Executing ----------------------------------------------------------------------

  lemma RunToolsRows(w: World, c: Case, x: Running)
    requires c.receipts == []
    ensures var t := RunToolsTrail(w, c, x);
            var d := After(c, t);
            && AnswersOnly(t, Allow)
            && d.receipts == [] && d.executions == c.executions && d.evaluations == c.evaluations
  {
  }

  lemma ExecutionCertificate(c: Case, c': Case, x: Running)
    requires x.evaluation.decision == Allow
    requires c'.request == c.request.(state := c'.request.state)
    ensures Certifies(ExecutingBody(c.request, x, Receipts.UsesOf(x.rows), x.outcome), IssuedReceipt(c', x))
  {
  }

  lemma RecordExecutionRows(w: World, c: Case, x: Running)
    requires NoOutcome(c) && x.evaluation.decision == Allow
    ensures var t := RecordExecutionTrail(w, c, x);
            var d := After(c, t);
            && AnswersOnly(t, Allow)
            && d.receipts == [] && d.executions == [ExecutionRow(x)] && d.evaluations == c.evaluations
            && Sealed(d.trace, IssuedReceipt(d, x))
  {
    var t := RecordExecutionTrail(w, c, x);
    ExecutionCertificate(t[1], t[2], x);
  }

  lemma IssuedStatus(c: Case, x: Running)
    requires x.evaluation.decision == Allow
    ensures IssuedReceipt(c, x).decision == Allow && IssuedReceipt(c, x).status != Receipts.AwaitingApproval
    ensures IssuedReceipt(c, x).status == Receipts.Completed <==> ExecutionRow(x).status == Submitted
  {
  }

  lemma IssueReceiptRows(c: Case, receipt: Receipts.Receipt, key: Option<string>)
    requires c.receipts == [] && receipt.decision == Allow && receipt.status != Receipts.AwaitingApproval
    requires Sealed(c.trace, receipt)
    ensures var t := IssueReceiptTrail(c, receipt, key);
            var d := After(c, t);
            && AnswersOnly(t, Allow) && Answers(d, Allow) && d.receipts == [receipt]
            && d.request.state == ReceiptIssued && d.executions == c.executions && d.evaluations == c.evaluations
  {
  }

  lemma ExecuteAllowedRows(w: World, c: Case, x: Running)
    requires NoOutcome(c) && x.evaluation.decision == Allow
    ensures var t := ExecuteAllowedTrail(w, c, x);
            && AnswersOnly(t, Allow)
            && ClosedBy(After(c, t), Allow, ExecutionRow(x).status)
            && After(c, t).evaluations == c.evaluations
  {
    var t1 := RunToolsTrail(w, c, x);
    RunToolsRows(w, c, x);
    var c1 := After(c, t1);
    var t2 := RecordExecutionTrail(w, c1, x);
    RecordExecutionRows(w, c1, x);
    var c2 := After(c1, t2);
    var t3 := IssueReceiptTrail(c2, IssuedReceipt(c2, x), x.key);
    IssuedStatus(c2, x);
    IssueReceiptRows(c2, IssuedReceipt(c2, x), x.key);
    AnswersConcat(t2, t3, Allow);
    AnswersConcat(t1, t2 + t3, Allow);
  }

  // What is recorded when a running plan is judged.
  function StatusIn(x: Running, d: Decision): ExecutionStatus {
    if d == Allow then ExecutionRow(x).status else NoExecution
  }

  lemma ExecuteTrailRows(w: World, c: Case, x: Running, b: Blocking)
    requires NoOutcome(c) && x.evaluation == b.evaluation
    ensures var t := ExecuteTrail(w, c, x, b);
            && AnswersOnly(t, b.evaluation.decision)
            && ClosedBy(After(c, t), b.evaluation.decision, StatusIn(x, b.evaluation.decision))
            && After(c, t).evaluations == c.evaluations + [b.evaluation]
            && (b.evaluation.decision != Allow ==> After(c, t).replies == c.replies)
  {
    var c1 := c.(evaluations := c.evaluations + [b.evaluation]);
    if b.evaluation.decision == Allow {
      ExecuteRunRows(w, c1, x);
    } else {
      ExecuteBlockedRows(w, c1, b, RefusedState(b.evaluation.decision));
    }
  }

  lemma ExecuteRunRows(w: World, c: Case, x: Running)
    requires NoOutcome(c) && x.evaluation.decision == Allow
    ensures var t := [c] + ExecuteAllowedTrail(w, c, x);
            && AnswersOnly(t, Allow)
            && ClosedBy(After(c, t), Allow, ExecutionRow(x).status)
            && After(c, t).evaluations == c.evaluations
  {
    ExecuteAllowedRows(w, c, x);
    AnswersConcat([c], ExecuteAllowedTrail(w, c, x), Allow);
  }

  lemma ExecuteBlockedRows(w: World, c: Case, b: Blocking, s: RequestState)
    requires NoOutcome(c) && b.evaluation.decision != Allow
    ensures var t := [c, WithState(c, s)] + HandleBlockedTrail(w, WithState(c, s), b);
            && AnswersOnly(t, b.evaluation.decision)
            && ClosedBy(After(c, t), b.evaluation.decision, NoExecution)
            && After(c, t).evaluations == c.evaluations && After(c, t).replies == c.replies
  {
    HandleBlockedRows(w, WithState(c, s), b);
    AnswersConcat([c, WithState(c, s)], HandleBlockedTrail(w, WithState(c, s), b), b.evaluation.decision);
  }
}
