// What the gate's earlier verdict guarantees later, as long as nobody rewrites the stored
// plan: the only grounds left for a later refusal are the delegation's status and window,
// the approval's age, and the idempotency key.
module GateStability {
  import opened Wrappers
  import opened Domain
  import opened PolicyRules
  import opened PolicyEngine
  import opened Lifecycle
  import opened CaseSafety
  import Evidence

  // --- Static rules -------------------------------------------------------------------

  // Two rows of one delegation version: only the status may differ.
  predicate SameScope(p: Policy, q: Policy) {
    q == p.(status := q.status)
  }

  // The contexts agree on everything that the static rules read.
  predicate SameStatics(a: Context, b: Context) {
    && a.principal == b.principal && a.agent == b.agent
    && a.plan == b.plan && a.security == b.security
    && a.policy.Some? && b.policy.Some? && SameScope(a.policy.value, b.policy.value)
  }

  lemma StaticRuleAgrees(a: Context, b: Context, rule: RuleId)
    requires SameStatics(a, b) && IsStatic(rule)
    ensures Fails(rule, a) <==> Fails(rule, b)
  {
  }

  lemma StaticsAgree(a: Context, b: Context)
    requires SameStatics(a, b)
    ensures StaticRulesPass(a) <==> StaticRulesPass(b)
  {
    forall rule: RuleId | IsStatic(rule) { StaticRuleAgrees(a, b, rule); }
  }

  // --- The gate invariant -------------------------------------------------------------

  predicate HasPlan(c: Case, actors: Actors) {
    c.plan.Some? && actors.policy.Some?
  }

  function GateContext(w: World, c: Case, actors: Actors, now: Time): Context
    requires HasPlan(c, actors)
  {
    EvaluationContext(w, c, actors, actors.policy.value, c.plan.value, now)
  }

  // The stored plan passes every rule that does not depend on the moment.
  ghost predicate Passed(w: World, c: Case, actors: Actors) {
    HasPlan(c, actors) && StaticRulesPass(GateContext(w, c, actors, 0))
  }

  ghost predicate Gated(w: World, c: Case, actors: Actors) {
    && (c.request.state in {ApprovalRequired, Approved, Allowed} ==>
         && Passed(w, c, actors)
         && (c.request.state == Allowed <==> !NeedsApproval(actors.policy.value, c.plan.value.payload)))
    && (c.request.state == Approved ==>
         |c.grants| == 1 && w.planHash(c.grants[0].payload) == c.plan.value.planHash)
  }

  // What Gated reads.
  predicate SameGateInput(c: Case, d: Case) {
    d.request == c.request && d.plan == c.plan && d.grants == c.grants
  }

  predicate AllSameGateInput(c: Case, trail: seq<Case>) {
    forall i | 0 <= i < |trail| :: SameGateInput(c, trail[i])
  }

  ghost predicate AllGated(w: World, actors: Actors, trail: seq<Case>) {
    forall i :: 0 <= i < |trail| ==> Gated(w, trail[i], actors)
  }

  lemma GateInputDecides(w: World, c: Case, d: Case, actors: Actors)
    requires Gated(w, c, actors) && SameGateInput(c, d)
    ensures Gated(w, d, actors)
  {
  }

  // The gate looks at the request's document, not at its state.
  lemma StateIsIrrelevant(w: World, c: Case, d: Case, actors: Actors, now: Time)
    requires HasPlan(c, actors) && d.plan == c.plan && d.request == c.request.(state := d.request.state)
    ensures StaticRulesPass(GateContext(w, c, actors, now)) <==> Passed(w, d, actors)
  {
    StaticsAgree(GateContext(w, c, actors, now), GateContext(w, d, actors, 0));
  }

  // States in which the gate has promised nothing.
  predicate Ungated(c: Case) {
    c.request.state !in {ApprovalRequired, Approved, Allowed}
  }

  ghost predicate AllUngated(trail: seq<Case>) {
    forall i :: 0 <= i < |trail| ==> Ungated(trail[i])
  }

  // Revoking the delegation changes nothing that the gate has promised.
  lemma RevocationKeepsGate(w: World, c: Case, before: Actors, after: Actors)
    requires Gated(w, c, before)
    requires after.principal == before.principal && after.agent == before.agent
    requires before.policy.Some? ==> after.policy.Some? && SameScope(before.policy.value, after.policy.value)
    ensures Gated(w, c, after)
  {
    if HasPlan(c, before) {
      StaticsAgree(GateContext(w, c, before, 0), GateContext(w, c, after, 0));
    }
  }

  // --- Every call keeps it ------------------------------------------------------------

  lemma UngatedIsGated(w: World, actors: Actors, trail: seq<Case>)
    requires AllUngated(trail)
    ensures AllGated(w, actors, trail)
  {
  }

  lemma SameInputIsGated(w: World, c: Case, actors: Actors, trail: seq<Case>)
    requires Gated(w, c, actors) && AllSameGateInput(c, trail)
    ensures AllGated(w, actors, trail)
  {
    forall i | 0 <= i < |trail| ensures Gated(w, trail[i], actors) {
      GateInputDecides(w, c, trail[i], actors);
    }
  }

  lemma PersistGated(w: World, c: Case, actors: Actors, plan: ActionPlan, now: Time)
    ensures AllGated(w, actors, PersistTrail(w, c, actors, plan, now))
  {
    UngatedIsGated(w, actors, PersistTrail(w, c, actors, plan, now));
  }

  lemma RejectGated(w: World, c: Case, actors: Actors, approverId: string, now: Time)
    ensures AllGated(w, actors, Reject(w, c, actors, approverId, now).trail)
  {
    UngatedIsGated(w, actors, Reject(w, c, actors, approverId, now).trail);
  }

  lemma InterveneGated(w: World, c: Case, actors: Actors, incidentId: string, intervention: Evidence.Intervention)
    requires Gated(w, c, actors)
    ensures AllGated(w, actors, Intervene(w, c, incidentId, intervention).trail)
  {
    SameInputIsGated(w, c, actors, Intervene(w, c, incidentId, intervention).trail);
  }

  lemma ApproveGated(w: World, c: Case, actors: Actors, approverId: string, now: Time)
    requires Safe(w, c) && Gated(w, c, actors)
    ensures AllGated(w, actors, Approve(w, c, actors, approverId, now).trail)
  {
    if c.request.state == ApprovalRequired && approverId != c.request.agentId {
      var t := ApproveTrail(w, c, actors, c.plan.value, approverId, now);
      StateIsIrrelevant(w, c, t[0], actors, 0);
      GateInputDecides(w, t[0], t[1], actors);
    }
  }

  lemma HandleBlockedUngated(w: World, c: Case, b: Blocking)
    requires Ungated(c)
    ensures AllUngated(HandleBlockedTrail(w, c, b))
  {
    var c1 := After(c, BlockToolsTrail(w, c, b));
    BlockToolsNeutral(w, c, b);
    IncidentNeutral(w, c1, b);
    NeutralUngated(c, BlockToolsTrail(w, c, b));
    NeutralUngated(c1, IncidentTrail(w, c1, b));
    CloseBlockedUngated(w, After(c1, IncidentTrail(w, c1, b)), b);
  }

  lemma NeutralUngated(c: Case, trail: seq<Case>)
    requires Ungated(c) && Neutral(c, trail)
    ensures AllUngated(trail) && Ungated(After(c, trail))
  {
  }

  lemma CloseBlockedUngated(w: World, c: Case, b: Blocking)
    requires Ungated(c)
    ensures AllUngated(CloseBlockedTrail(w, c, b))
  {
  }

  // What a decision promises about the stored plan.
  ghost predicate Promised(w: World, c: Case, actors: Actors, d: Decision) {
    d == Allow || d == RequireApproval ==>
      && Passed(w, c, actors)
      && (d == Allow <==> !NeedsApproval(actors.policy.value, c.plan.value.payload))
  }

  // The gate's verdict on a plan puts the request in a state that promises as much.
  lemma DecisionGates(w: World, c: Case, actors: Actors, now: Time)
    requires HasPlan(c, actors)
    ensures Promised(w, c, actors, DecisionOf(GateContext(w, c, actors, now)))
  {
    var ctx := GateContext(w, c, actors, now);
    if DecisionOf(ctx) == Allow || DecisionOf(ctx) == RequireApproval {
      MildDecisionMeansPass(ctx);
      ApprovalRuleMeaning(ctx);
      StateIsIrrelevant(w, c, c, actors, now);
    }
  }

  lemma DecideGated(w: World, c: Case, actors: Actors, b: Blocking)
    requires Gated(w, c, actors) && Promised(w, c, actors, b.evaluation.decision)
    ensures AllGated(w, actors, DecideTrail(w, c, b))
  {
    var t := DecideTrail(w, c, b);
    GateInputDecides(w, c, t[0], actors);
    GateInputDecides(w, c, t[1], actors);
    if b.evaluation.decision == Allow || b.evaluation.decision == RequireApproval {
      StateIsIrrelevant(w, c, t[2], actors, 0);
    }
  }

  lemma EvaluateTrailGated(w: World, c: Case, actors: Actors, b: Blocking)
    requires Gated(w, c, actors) && Promised(w, c, actors, b.evaluation.decision)
    ensures AllGated(w, actors, EvaluateTrail(w, c, b))
  {
    DecideGated(w, c, actors, b);
    var d := After(c, DecideTrail(w, c, b));
    if b.evaluation.decision == RequireApproval {
      GateInputDecides(w, d, FollowUpTrail(w, d, b)[0], actors);
    } else if b.evaluation.decision != Allow {
      HandleBlockedUngated(w, d, b);
      UngatedIsGated(w, actors, HandleBlockedTrail(w, d, b));
    }
  }

  lemma EvaluateGated(w: World, c: Case, actors: Actors, now: Time, draws: Draws)
    requires Gated(w, c, actors)
    ensures AllGated(w, actors, EvaluateRequest(w, c, actors, now, draws).trail)
  {
    if c.request.state in {PlanCreated, PolicyEvaluated, ApprovalRequired} && HasPlan(c, actors) {
      var ctx := GateContext(w, c, actors, now);
      DecisionGates(w, c, actors, now);
      EvaluateTrailGated(w, c, actors,
        Blocking(actors.policy, c.plan.value.payload, EvaluationOf(ctx), ctx.security, now, draws));
    }
  }

  lemma ExecuteAllowedUngated(w: World, c: Case, x: Running)
    ensures AllUngated(ExecuteAllowedTrail(w, c, x))
  {
    var c1 := After(c, RunToolsTrail(w, c, x));
    assert AllUngated(RunToolsTrail(w, c, x));
    assert AllUngated(RecordExecutionTrail(w, c1, x));
    var c2 := After(c1, RecordExecutionTrail(w, c1, x));
    assert AllUngated(IssueReceiptTrail(c2, IssuedReceipt(c2, x), x.key));
  }

  lemma ExecuteTrailGated(w: World, c: Case, actors: Actors, x: Running, b: Blocking)
    requires Gated(w, c, actors)
    ensures AllGated(w, actors, ExecuteTrail(w, c, x, b))
  {
    var c1 := c.(evaluations := c.evaluations + [b.evaluation]);
    GateInputDecides(w, c, c1, actors);
    if b.evaluation.decision == Allow {
      ExecuteAllowedUngated(w, c1, x);
      UngatedIsGated(w, actors, ExecuteAllowedTrail(w, c1, x));
    } else {
      var c2 := WithState(c1, RefusedState(b.evaluation.decision));
      HandleBlockedUngated(w, c2, b);
      UngatedIsGated(w, actors, HandleBlockedTrail(w, c2, b));
    }
  }

  lemma ExecuteGated(w: World, c: Case, actors: Actors, key: Option<string>, now: Time, draws: Draws)
    requires Gated(w, c, actors)
    ensures AllGated(w, actors, Execute(w, c, actors, key, now, draws).trail)
  {
    if !(HasKey(key) && key.value in c.replies) && c.request.state in {Allowed, Approved} && HasPlan(c, actors) {
      var policy, row := actors.policy.value, c.plan.value;
      var ctx := ExecutionContext(w, c, actors, policy, row, now, key);
      ExecuteTrailGated(w, c, actors, ExecutingOf(w, c, policy, row, EvaluationOf(ctx), now, key, draws),
                        Blocking(Some(policy), row.payload, EvaluationOf(ctx), ctx.security, now, draws));
    }
  }

  // --- What is left for the gate to decide --------------------------------------------

  // Re-evaluating a request that awaits approval: still that, or denied once the
  // delegation is revoked or outside its window. It never improves.
  lemma ReevaluationNeverImproves(w: World, c: Case, actors: Actors, now: Time)
    requires Gated(w, c, actors) && c.request.state == ApprovalRequired
    ensures HasPlan(c, actors)
    ensures DecisionOf(GateContext(w, c, actors, now)) ==
            if DelegationUsable(actors.policy.value, now) then RequireApproval else Deny
  {
    var ctx := GateContext(w, c, actors, now);
    StateIsIrrelevant(w, c, c, actors, now);
    DecisionWhenStaticPass(ctx);
    DelegationRuleMeaning(ctx);
    ApprovalRuleMeaning(ctx);
    BindingRuleMeaning(ctx);
    KeyRuleMeaning(ctx);
  }

  predicate ApprovalExpired(c: Case, now: Time)
    requires |c.grants| == 1
  {
    now > c.grants[0].at + APPROVAL_TTL
  }

  // The decision of an execution from Approved, exactly.
  lemma ApprovedExecutionDecision(w: World, c: Case, actors: Actors, key: Option<string>, now: Time)
    requires Safe(w, c) && Gated(w, c, actors) && Loaded(c, actors) && c.request.state == Approved
    ensures HasPlan(c, actors)
    ensures DecisionOf(ExecutionContext(w, c, actors, actors.policy.value, c.plan.value, now, key)) ==
            if ApprovalExpired(c, now) then Quarantine
            else if !DelegationUsable(actors.policy.value, now) || !HasKey(key) then Deny
            else Allow
  {
    var ctx := ExecutionContext(w, c, actors, actors.policy.value, c.plan.value, now, key);
    StaticsAgree(ctx, GateContext(w, c, actors, 0));
    DecisionWhenStaticPass(ctx);
    DelegationRuleMeaning(ctx);
    ApprovalRuleMeaning(ctx);
    BindingRuleMeaning(ctx);
    KeyRuleMeaning(ctx);
    GrantIsLatest(w, c);
  }

  // And from Allowed: never quarantined, never sent back for approval.
  lemma AllowedExecutionDecision(w: World, c: Case, actors: Actors, key: Option<string>, now: Time)
    requires Safe(w, c) && Gated(w, c, actors) && Loaded(c, actors) && c.request.state == Allowed
    ensures HasPlan(c, actors)
    ensures DecisionOf(ExecutionContext(w, c, actors, actors.policy.value, c.plan.value, now, key)) ==
            if !DelegationUsable(actors.policy.value, now) || !HasKey(key) then Deny else Allow
  {
    var ctx := ExecutionContext(w, c, actors, actors.policy.value, c.plan.value, now, key);
    StaticsAgree(ctx, GateContext(w, c, actors, 0));
    DecisionWhenStaticPass(ctx);
    DelegationRuleMeaning(ctx);
    ApprovalRuleMeaning(ctx);
    BindingRuleMeaning(ctx);
    KeyRuleMeaning(ctx);
    GrantIsLatest(w, c);
  }
}
