// The tool gateway (app/domain/gateway/gateway.py): a second enforcement pass over the
// plan's tool calls, in front of the adapters.
module Gateway {
  import opened Wrappers
  import opened Json
  import opened Domain
  import opened Tools
  import opened PolicyRules
  import opened PolicyEngine

  datatype BlockReason = ToolNotAllowlisted | ToolNotRegistered | ArgumentsInvalid

  function ReasonText(r: BlockReason): string {
    match r
    case ToolNotAllowlisted => "tool_not_allowlisted"
    case ToolNotRegistered => "tool_not_registered"
    case ArgumentsInvalid => "arguments_invalid"
  }

  function BlockOf(call: ProposedToolCall, allowedTools: seq<string>): Option<BlockReason> {
    if call.tool !in allowedTools then Some(ToolNotAllowlisted)
    else match SchemaOf(call.tool)
      case None => Some(ToolNotRegistered)
      case Some(schema) => if SchemaErrors(schema, call.arguments) != [] then Some(ArgumentsInvalid) else None
  }

  function Blocked(call: ProposedToolCall, reason: BlockReason): ToolCall {
    ToolCall(call.tool, call.arguments, CallBlocked, [Field("reason", Str(ReasonText(reason)))])
  }

  // The row recorded for one proposed call.
  function Attempt(profiles: seq<LoanProfile>, call: ProposedToolCall, allowedTools: seq<string>): ToolCall {
    match BlockOf(call, allowedTools)
    case Some(reason) => Blocked(call, reason)
    case None =>
      ValidArgumentsRun(profiles, call.tool, call.arguments);
      ToolCall(call.tool, call.arguments, CallCompleted, RunAdapter(profiles, call.tool, call.arguments).value)
  }

  function Attempts(profiles: seq<LoanProfile>, calls: seq<ProposedToolCall>,
                    allowedTools: seq<string>): (r: seq<ToolCall>)
    ensures |r| == |calls| && forall i :: 0 <= i < |calls| ==> r[i] == Attempt(profiles, calls[i], allowedTools)
  {
    seq(|calls|, i requires 0 <= i < |calls| => Attempt(profiles, calls[i], allowedTools))
  }

  predicate RanSubmission(row: ToolCall) {
    row.status == CallCompleted && SaysSubmitted(row.result)
  }

  // The result of the last completed submission.
  function OutcomeOf(rows: seq<ToolCall>): Option<Fields> {
    if |rows| == 0 then None
    else if RanSubmission(rows[|rows| - 1]) then Some(rows[|rows| - 1].result)
    else OutcomeOf(rows[..|rows| - 1])
  }

  // One pass of the gateway's loop: validate, then call the adapter.
  method AttemptCall(profiles: seq<LoanProfile>, call: ProposedToolCall, allowedTools: seq<string>)
    returns (row: ToolCall)
    ensures row == Attempt(profiles, call, allowedTools)
  {
    var blockedReason: Option<BlockReason> := None;
    if call.tool !in allowedTools {
      blockedReason := Some(ToolNotAllowlisted);
    } else {
      var schema := SchemaOf(call.tool);
      if schema.None? {
        blockedReason := Some(ToolNotRegistered);
      } else if SchemaErrors(schema.value, call.arguments) != [] {
        blockedReason := Some(ArgumentsInvalid);
      }
    }
    if blockedReason.Some? {
      return Blocked(call, blockedReason.value);
    }
    ValidArgumentsRun(profiles, call.tool, call.arguments);
    var result := RunAdapter(profiles, call.tool, call.arguments).value;
    row := ToolCall(call.tool, call.arguments, CallCompleted, result);
  }

  lemma OutcomeAfter(all: seq<ToolCall>, i: nat)
    requires i < |all|
    ensures all[..i + 1] == all[..i] + [all[i]]
    ensures OutcomeOf(all[..i + 1]) == if RanSubmission(all[i]) then Some(all[i].result) else OutcomeOf(all[..i])
  {
    assert all[..i + 1][..i] == all[..i];
  }

  // execute_plan_tools
  method ExecutePlanTools(profiles: seq<LoanProfile>, plan: ActionPlan, allowedTools: seq<string>)
    returns (recorded: seq<ToolCall>, finalOutcome: Option<Fields>)
    ensures recorded == Attempts(profiles, plan.proposedToolCalls, allowedTools)
    ensures finalOutcome == OutcomeOf(recorded)
  {
    recorded, finalOutcome := [], None;
    var calls := plan.proposedToolCalls;
    ghost var all := Attempts(profiles, calls, allowedTools);
    var i := 0;
    while i < |calls|
      invariant 0 <= i <= |calls|
      invariant recorded == all[..i]
      invariant finalOutcome == OutcomeOf(all[..i])
    {
      var row := AttemptCall(profiles, calls[i], allowedTools);
      assert row == all[i];
      OutcomeAfter(all, i);
      if RanSubmission(row) {
        finalOutcome := Some(row.result);
      }
      assert finalOutcome == OutcomeOf(all[..i + 1]);
      recorded := recorded + [row];
      i := i + 1;
    }
    assert all[..i] == all;
  }

  // ---------------------------------------------------------------------------------
  // Gate and gateway agree
  // ---------------------------------------------------------------------------------

  // The last completed submission stands in this place.
  predicate LastSubmission(rows: seq<ToolCall>, i: nat) {
    && i < |rows| && RanSubmission(rows[i])
    && forall j | i < j < |rows| :: !RanSubmission(rows[j])
  }

  lemma {:induction false} OutcomeMeaning(rows: seq<ToolCall>)
    ensures OutcomeOf(rows).None? ==> forall i :: 0 <= i < |rows| ==> !RanSubmission(rows[i])
    ensures OutcomeOf(rows).Some? ==>
              exists i: nat :: LastSubmission(rows, i) && OutcomeOf(rows).value == rows[i].result
  {
    if |rows| > 0 {
      var last := |rows| - 1;
      if RanSubmission(rows[last]) {
        assert LastSubmission(rows, last);
      } else {
        OutcomeMeaning(rows[..last]);
        if OutcomeOf(rows).Some? {
          var i: nat :| LastSubmission(rows[..last], i) && OutcomeOf(rows).value == rows[i].result;
          assert LastSubmission(rows, i);
        }
      }
    }
  }

  lemma AttemptMeaning(profiles: seq<LoanProfile>, call: ProposedToolCall, allowedTools: seq<string>)
    ensures var row := Attempt(profiles, call, allowedTools);
            && row.tool == call.tool && row.arguments == call.arguments
            && (row.status == CallCompleted <==> call.tool in allowedTools && MeetsContract(call))
            && (row.status == CallCompleted ==> (SaysSubmitted(row.result) <==> call.tool == SUBMIT))
  {
    CallConforms(call);
    if BlockOf(call, allowedTools).None? {
      ValidArgumentsRun(profiles, call.tool, call.arguments);
    }
  }

  // A call is recorded as blocked exactly when it is not allowlisted or breaks its
  // contract; the outcome exists exactly when a submission ran.
  lemma GatewayMeaning(profiles: seq<LoanProfile>, plan: ActionPlan, allowedTools: seq<string>)
    ensures var rows := Attempts(profiles, plan.proposedToolCalls, allowedTools);
            && (forall i :: 0 <= i < |rows| ==>
                 (rows[i].status == CallCompleted <==>
                  plan.proposedToolCalls[i].tool in allowedTools && MeetsContract(plan.proposedToolCalls[i])))
            && (OutcomeOf(rows).Some? <==>
                 exists i :: 0 <= i < |rows| && rows[i].status == CallCompleted && rows[i].tool == SUBMIT)
  {
    var rows := Attempts(profiles, plan.proposedToolCalls, allowedTools);
    forall i | 0 <= i < |rows| {
      AttemptMeaning(profiles, plan.proposedToolCalls[i], allowedTools);
    }
    OutcomeMeaning(rows);
  }

  // A completed row holds what its tool answers to the row's arguments.
  lemma CompletedIsAnswered(profiles: seq<LoanProfile>, call: ProposedToolCall, allowedTools: seq<string>)
    ensures var row := Attempt(profiles, call, allowedTools);
            row.status == CallCompleted ==> Answers(profiles, row.tool, row.arguments, row.result)
  {
    if BlockOf(call, allowedTools).None? {
      ValidArgumentsAreAnswered(profiles, call.tool, call.arguments);
    }
  }

  // The outcome names the bank and the product of the last submission that ran.
  lemma OutcomeNamesItsCall(profiles: seq<LoanProfile>, calls: seq<ProposedToolCall>, allowedTools: seq<string>)
    ensures var rows := Attempts(profiles, calls, allowedTools);
            var outcome := OutcomeOf(rows);
            outcome.Some? ==>
              exists i: nat :: LastSubmission(rows, i) && calls[i].tool == SUBMIT && SaysSubmitted(outcome.value)
                               && NamesSame(outcome.value, calls[i].arguments)
  {
    var rows := Attempts(profiles, calls, allowedTools);
    OutcomeMeaning(rows);
    if OutcomeOf(rows).Some? {
      var i: nat :| LastSubmission(rows, i) && OutcomeOf(rows).value == rows[i].result;
      AttemptMeaning(profiles, calls[i], allowedTools);
      CompletedIsAnswered(profiles, calls[i], allowedTools);
    }
  }

  // Every proposed call is recorded, in order, as completed.
  predicate AllCompleted(calls: seq<ProposedToolCall>, rows: seq<ToolCall>) {
    && |rows| == |calls|
    && forall i | 0 <= i < |calls| ::
         rows[i].tool == calls[i].tool && rows[i].arguments == calls[i].arguments && rows[i].status == CallCompleted
  }

  lemma CheckedCallsComplete(profiles: seq<LoanProfile>, plan: ActionPlan, policy: Policy)
    requires ToolsAllowlisted(policy, plan) && CallsConform(plan.proposedToolCalls)
    ensures var rows := Attempts(profiles, plan.proposedToolCalls, policy.allowedTools);
            AllCompleted(plan.proposedToolCalls, rows) && (OutcomeOf(rows).Some? <==> Submits(plan))
  {
    var calls := plan.proposedToolCalls;
    GatewayMeaning(profiles, plan, policy.allowedTools);
    forall i | 0 <= i < |calls| {
      AttemptMeaning(profiles, calls[i], policy.allowedTools);
    }
  }

  // When the gate allows a plan, the gateway blocks nothing: every proposed call is
  // recorded, in order, as completed, and there is an outcome exactly when the plan submits.
  lemma GateAllowsSoGatewayRuns(ctx: Context, profiles: seq<LoanProfile>)
    requires ctx.policy.Some? && DecisionOf(ctx) == Allow
    ensures var calls := ctx.plan.proposedToolCalls;
            var rows := Attempts(profiles, calls, ctx.policy.value.allowedTools);
            AllCompleted(calls, rows) && (OutcomeOf(rows).Some? <==> Submits(ctx.plan))
  {
    AllowChecksCalls(ctx);
    CheckedCallsComplete(profiles, ctx.plan, ctx.policy.value);
  }

  lemma AllowChecksCalls(ctx: Context)
    requires ctx.policy.Some? && DecisionOf(ctx) == Allow
    ensures ToolsAllowlisted(ctx.policy.value, ctx.plan) && CallsConform(ctx.plan.proposedToolCalls)
  {
    MildDecisionMeansPass(ctx);
    GateChecksCalls(ctx);
  }

  lemma GateChecksCalls(ctx: Context)
    requires ctx.policy.Some?
    requires !Fails(ToolAllowed, ctx) && !Fails(ToolArgumentsSchemaValid, ctx)
    ensures ToolsAllowlisted(ctx.policy.value, ctx.plan) && CallsConform(ctx.plan.proposedToolCalls)
  {
    ToolRuleMeaning(ctx);
    ArgumentRuleMeaning(ctx);
    ArgumentsValidMeaning(ctx.plan);
  }

  lemma SubmissionIsWellFormed(profiles: seq<LoanProfile>, args: Dict)
    requires RunAdapter(profiles, SUBMIT, args).Some?
    ensures WellFormed(Obj(RunAdapter(profiles, SUBMIT, args).value))
  {
    var institution, product := Get(args, "institution").value, Get(args, "product").value;
    GetIsWellFormed(args, "institution");
    GetIsWellFormed(args, "product");
    var fields := SubmitRequest(institution, product);
    SubmitKeysDiffer();
    assert forall i | 0 <= i < 6 :: fields[i].key == SUBMIT_KEYS[i];
    assert WellFormed(fields[0].value) && WellFormed(fields[1].value) && WellFormed(fields[2].value);
    assert WellFormed(fields[3].value) && WellFormed(fields[4].value) && WellFormed(fields[5].value);
  }

  const SUBMIT_KEYS: seq<string> := [
    "status", "institution", "product", "reference", "reversible", "reversal_window_days"]

  lemma SubmitKeysDiffer()
    ensures forall i, j :: 0 <= i < j < |SUBMIT_KEYS| ==> SUBMIT_KEYS[i] != SUBMIT_KEYS[j]
  {
  }

  // Whatever the gateway reports as an outcome is a JSON object.
  lemma {:induction false} OutcomeIsWellFormed(profiles: seq<LoanProfile>, calls: seq<ProposedToolCall>,
                                               allowedTools: seq<string>)
    ensures var outcome := OutcomeOf(Attempts(profiles, calls, allowedTools));
            outcome.Some? ==> WellFormed(Obj(outcome.value))
  {
    if |calls| > 0 {
      var front, call := calls[..|calls| - 1], calls[|calls| - 1];
      assert Attempts(profiles, calls, allowedTools)[..|calls| - 1] == Attempts(profiles, front, allowedTools);
      OutcomeIsWellFormed(profiles, front, allowedTools);
      AttemptOutcomeIsWellFormed(profiles, call, allowedTools);
    }
  }

  lemma AttemptOutcomeIsWellFormed(profiles: seq<LoanProfile>, call: ProposedToolCall, allowedTools: seq<string>)
    ensures var row := Attempt(profiles, call, allowedTools);
            RanSubmission(row) ==> WellFormed(Obj(row.result))
  {
    AttemptMeaning(profiles, call, allowedTools);
    if RanSubmission(Attempt(profiles, call, allowedTools)) {
      ValidArgumentsRun(profiles, call.tool, call.arguments);
      SubmissionIsWellFormed(profiles, call.arguments);
    }
  }
}
