// Whole-run guarantees about execution that survive crashes and plan rewrites: what was
// submitted was approved, tools run at most once, nothing runs under a revoked delegation,
// and a stored reply never changes.
module Authority {
  import opened Wrappers
  import opened Json
  import opened Domain
  import opened Payloads
  import opened Detectors
  import opened Tools
  import opened PolicyRules
  import PolicyEngine
  import opened Evidence
  import Hashing
  import Receipts
  import GateStability
  import Outcomes
  import opened Lifecycle
  import opened CaseSafety
  import opened Progress
  import opened System
  import opened Standstill

  // --- Runs happen under the delegation that is stored at that moment -----------------

  // At most one run is added, under the policy row that the call loaded and at its time.
  predicate NewRunUnder(c: Case, d: Case, actors: Actors, now: Time) {
    d.runs == c.runs ||
    (|d.runs| > 0 && d.runs == c.runs + [d.runs[|d.runs| - 1]]
     && actors.policy == Some(d.runs[|d.runs| - 1].policy) && d.runs[|d.runs| - 1].at == now)
  }

  predicate AllNewRunsUnder(c: Case, trail: seq<Case>, actors: Actors, now: Time) {
    forall i | 0 <= i < |trail| :: NewRunUnder(c, trail[i], actors, now)
  }

  lemma AddedRunsUnder(c: Case, trail: seq<Case>, actors: Actors, now: Time, run: GatewayRun)
    requires AllAddRun(c, trail, run) && actors.policy == Some(run.policy) && run.at == now
    ensures AllNewRunsUnder(c, trail, actors, now)
  {
  }

  lemma ExecuteRunsUnder(w: World, c: Case, actors: Actors, key: Option<string>, now: Time, draws: Draws)
    ensures AllNewRunsUnder(c, Execute(w, c, actors, key, now, draws).trail, actors, now)
  {
    var t := Execute(w, c, actors, key, now, draws).trail;
    ExecuteTrailIs(w, c, actors, key, now, draws);
    if t != [] {
      var policy, row := actors.policy.value, c.plan.value;
      GatedExecuteAddsRun(w, c, actors, policy, row, key, now, draws);
      AddedRunsUnder(c, t, actors, now, ExpectedRun(w, c, actors, policy, row, key, now, draws));
    }
  }

  lemma EvaluateSameRuns(w: World, c: Case, actors: Actors, now: Time, draws: Draws)
    ensures SameRuns(c, EvaluateRequest(w, c, actors, now, draws).trail)
  {
    if c.request.state in {PlanCreated, PolicyEvaluated, ApprovalRequired} && c.plan.Some? && actors.policy.Some? {
      var ctx := EvaluationContext(w, c, actors, actors.policy.value, c.plan.value, now);
      EvaluateTrailSameRuns(w, c,
                            Blocking(actors.policy, c.plan.value.payload, PolicyEngine.EvaluationOf(ctx),
                                     ctx.security, now, draws));
    }
  }

  lemma CallRunsUnder(w: World, c: Case, actors: Actors, call: Call, now: Time)
    ensures AllNewRunsUnder(c, TrailOf(w, c, actors, call, now), actors, now)
  {
    match call
    case CallExecute(key, draws) => ExecuteRunsUnder(w, c, actors, key, now, draws);
    case CallEvaluate(draws) => EvaluateSameRuns(w, c, actors, now, draws);
    case _ =>
  }

  lemma CommittedRunsUnder(c: Case, trail: seq<Case>, actors: Actors, now: Time, stopsAfter: Option<nat>)
    requires AllNewRunsUnder(c, trail, actors, now)
    ensures NewRunUnder(c, After(c, Committed(trail, stopsAfter)), actors, now)
  {
  }

  // Nothing new ran, or one run under the stored delegation, which is usable at that time.
  predicate RanUsably(db: Db, now: Time, c: Case, d: Case) {
    var k := PolicyKeyOf(c.request);
    d.runs == c.runs ||
    (k in db.policies && |d.runs| == 1 && d.runs[0].policy == db.policies[k] && DelegationUsable(db.policies[k], now))
  }

  lemma NewRunIsOnly(w: World, db: Db, c: Case, d: Case, now: Time)
    requires Safe(w, d) && NewRunUnder(c, d, ActorsOf(db, c.request), now)
    ensures RanUsably(db, now, c, d)
  {
  }

  lemma OnRunsUsably(w: World, db: Db, id: Id, call: Call, now: Time, stopsAfter: Option<nat>)
    requires DbSafe(w, db) && id in db.cases
    ensures RanUsably(db, now, db.cases[id], PerformCall(w, db, id, call, now, stopsAfter).cases[id])
  {
    var c := db.cases[id];
    var actors := ActorsOf(db, c.request);
    CallRunsUnder(w, c, actors, call, now);
    CommittedRunsUnder(c, TrailOf(w, c, actors, call, now), actors, now, stopsAfter);
    OnSafe(w, db, id, call, now, stopsAfter);
    NewRunIsOnly(w, db, c, PerformCall(w, db, id, call, now, stopsAfter).cases[id], now);
  }

  // A step runs tools for a request only under that request's stored, usable delegation.
  lemma NewRunIsUsable(w: World, db: Db, step: Step, id: Id)
    requires DbSafe(w, db) && id in db.cases
    ensures id in Perform(w, db, step).cases
    ensures RanUsably(db, step.now, db.cases[id], Perform(w, db, step).cases[id])
  {
    if Targets(step, id) {
      PerformTarget(w, db, step, id);
      OnRunsUsably(w, db, id, step.action.call, step.now, step.stopsAfter);
    } else {
      PerformElsewhere(w, db, step, id);
    }
  }

  // --- Revocation ---------------------------------------------------------------------

  predicate IsRevoked(db: Db, k: PolicyKey) {
    k in db.policies && db.policies[k].status == "REVOKED"
  }

  // The request names a revoked delegation version.
  predicate UnderRevoked(db: Db, id: Id) {
    id in db.cases && IsRevoked(db, PolicyKeyOf(db.cases[id].request))
  }

  lemma RevokedRunsNothing(w: World, db: Db, step: Step, id: Id)
    requires DbSafe(w, db) && UnderRevoked(db, id)
    ensures UnderRevoked(Perform(w, db, step), id)
    ensures Perform(w, db, step).cases[id].runs == db.cases[id].runs
  {
    PerformExtends(w, db, step);
    NewRunIsUsable(w, db, step, id);
  }

  // Once a delegation version is revoked, no later step of any kind runs tools under it.
  lemma {:induction false} RevocationStopsRuns(w: World, db: Db, steps: seq<Step>, id: Id)
    requires DbSafe(w, db) && UnderRevoked(db, id)
    ensures UnderRevoked(Run(w, db, steps), id)
    ensures Run(w, db, steps).cases[id].runs == db.cases[id].runs
  {
    if |steps| > 0 {
      var front := steps[..|steps| - 1];
      RevocationStopsRuns(w, db, front, id);
      RunIsSafe(w, db, front);
      RevokedRunsNothing(w, Run(w, db, front), steps[|steps| - 1], id);
    }
  }

  // --- At most one gateway run --------------------------------------------------------

  predicate IsToolExecution(e: Execution) {
    e.status == Submitted || e.status == ExecutionFailedSafe
  }

  // Tools run at most once per request, and at most one execution reports it.
  ghost predicate RanAtMostOnce(c: Case) {
    && |c.runs| <= 1 && |c.executions| <= 1
    && (forall i :: 0 <= i < |c.executions| && IsToolExecution(c.executions[i]) ==>
         |c.runs| == 1 && Reports(c.executions[i], c.runs[0]))
  }

  lemma SafeRanAtMostOnce(w: World, c: Case)
    requires Safe(w, c)
    ensures RanAtMostOnce(c)
  {
  }

  // Whatever stops and resumes, with whatever keys and rewrites: a run that has happened
  // is the only one that ever will.
  lemma AtMostOneGatewayRun(w: World, db: Db, first: seq<Step>, rest: seq<Step>, id: Id)
    requires Initial(db) && id in Run(w, db, first).cases
    ensures var before := Run(w, db, first).cases[id];
            var after := Run(w, db, first + rest).cases;
            && id in after && RanAtMostOnce(after[id])
            && (|before.runs| == 1 ==> after[id].runs == before.runs)
            && (|before.executions| == 1 ==> after[id].executions == before.executions)
  {
    RunIsSafe(w, db, first);
    RunIsSafe(w, db, first + rest);
    RunConcat(w, db, first, rest);
    RunExtends(w, Run(w, db, first), rest);
    SafeRanAtMostOnce(w, Run(w, db, first + rest).cases[id]);
    KeptWhole(Run(w, db, first).cases[id], Run(w, db, first + rest).cases[id]);
  }

  lemma KeptWhole(c: Case, d: Case)
    requires Extends(c, d) && |d.runs| <= 1 && |d.executions| <= 1
    ensures |c.runs| == 1 ==> d.runs == c.runs
    ensures |c.executions| == 1 ==> d.executions == c.executions
  {
  }

  // --- What was submitted was approved ------------------------------------------------

  // Every run was made under the delegation version that is still stored.
  ghost predicate RunsStored(db: Db) {
    forall id :: id in db.cases && |db.cases[id].runs| == 1 ==> RunStored(db, db.cases[id])
  }

  predicate RunStored(db: Db, c: Case)
    requires |c.runs| == 1
  {
    var k := PolicyKeyOf(c.request);
    k in db.policies && PolicyKept(c.runs[0].policy, db.policies[k])
  }

  lemma RunStoredAfter(before: Db, after: Db, c: Case, d: Case, now: Time)
    requires RanUsably(before, now, c, d) && Extends(c, d) && PoliciesKept(before, after)
    requires |c.runs| == 1 ==> RunStored(before, c)
    ensures |d.runs| == 1 ==> RunStored(after, d)
  {
  }

  lemma StepKeepsRunStored(w: World, db: Db, step: Step, id: Id)
    requires DbSafe(w, db) && RunsStored(db) && id in db.cases
    ensures id in Perform(w, db, step).cases
    ensures var c := Perform(w, db, step).cases[id]; |c.runs| == 1 ==> RunStored(Perform(w, db, step), c)
  {
    NewRunIsUsable(w, db, step, id);
    PerformExtends(w, db, step);
    RunStoredAfter(db, Perform(w, db, step), db.cases[id], Perform(w, db, step).cases[id], step.now);
  }

  lemma OpenedHasNoRuns(w: World, db: Db, step: Step, id: Id)
    requires id !in db.cases && id in Perform(w, db, step).cases
    ensures Perform(w, db, step).cases[id].runs == []
  {
    PerformOpens(w, db, step, id);
  }

  lemma {:induction false} RunsAreStored(w: World, db: Db, steps: seq<Step>)
    requires Initial(db)
    ensures RunsStored(Run(w, db, steps))
  {
    if |steps| > 0 {
      var front := steps[..|steps| - 1];
      var before, step := Run(w, db, front), steps[|steps| - 1];
      RunsAreStored(w, db, front);
      RunIsSafe(w, db, front);
      forall id | id in Perform(w, before, step).cases && |Perform(w, before, step).cases[id].runs| == 1
        ensures RunStored(Perform(w, before, step), Perform(w, before, step).cases[id])
      {
        if id in before.cases {
          StepKeepsRunStored(w, before, step, id);
        } else {
          OpenedHasNoRuns(w, before, step, id);
        }
      }
    }
  }

  // The service: plan hashes and chain hashes come from one digest and one secret.
  function ServiceWorld(sha: Hashing.Digest, secret: string, profiles: seq<LoanProfile>, search: Search): World {
    World(plan => Hashing.PlanHash(sha, PlanJson(plan)), ChainSealer(sha, secret), profiles, search)
  }

  predicate TextsCollide(sha: Hashing.Digest, a: ActionPlan, b: ActionPlan) {
    Hashing.Collision(sha, Canonicalize(PlanJson(a)), Canonicalize(PlanJson(b)))
  }

  // The same plan, field by field and up to key order in its dicts, or two texts that collide.
  ghost predicate SamePlan(sha: Hashing.Digest, a: ActionPlan, b: ActionPlan) {
    SamePayload(a, b) || TextsCollide(sha, a, b)
  }

  lemma EqualHashesMeanSamePlan(sha: Hashing.Digest, secret: string, profiles: seq<LoanProfile>, search: Search,
                                a: ActionPlan, b: ActionPlan)
    ensures var w := ServiceWorld(sha, secret, profiles, search);
            w.planHash(a) == w.planHash(b) <==> SamePlan(sha, a, b)
  {
    PlanJsonIsWellFormed(a);
    PlanJsonIsWellFormed(b);
    Hashing.PlanHashBinds(sha, PlanJson(a), PlanJson(b));
    SameDumpsMeanSamePayload(a, b);
  }

  // A human other than the agent approved the request's one grant, no more than the
  // approval's lifetime before the run, and it is the stored approval row.
  predicate HumanApproved(c: Case, run: GatewayRun) {
    && |c.grants| == 1 && |c.approvals| == 1
    && c.approvals[0].status == Granted && c.approvals[0].approverId == c.grants[0].approverId
    && c.grants[0].approverId != c.request.agentId
    && c.grants[0].policyVersion == c.request.policyVersion
    && run.at <= c.grants[0].at + APPROVAL_TTL
  }

  // The run behind an execution: its key, its payload, and a delegation usable at its time.
  predicate RanUnder(c: Case, e: Execution, policy: Policy) {
    && |c.runs| == 1 && c.runs[0].outcome.Some? && Submits(c.runs[0].payload)
    && c.runs[0].key == e.idempotencyKey && HasKey(e.idempotencyKey)
    && DelegationUsable(c.runs[0].policy, c.runs[0].at) && PolicyKept(c.runs[0].policy, policy)
  }

  lemma SubmissionUnderApproval(w: World, db: Db, id: Id, i: nat)
    requires DbSafe(w, db) && RunsStored(db) && id in db.cases
    requires i < |db.cases[id].executions| && db.cases[id].executions[i].status == Submitted
    ensures PolicyKeyOf(db.cases[id].request) in db.policies
    ensures var c := db.cases[id];
            var policy := db.policies[PolicyKeyOf(c.request)];
            && RanUnder(c, c.executions[i], policy)
            && (policy.submitRequiresHuman ==>
                 HumanApproved(c, c.runs[0]) && w.planHash(c.grants[0].payload) == w.planHash(c.runs[0].payload))
  {
  }

  // In every run, with crashes and with plans rewritten between any two calls: what was
  // submitted is what a human approved.
  lemma SubmittedIsApproved(sha: Hashing.Digest, secret: string, profiles: seq<LoanProfile>, search: Search,
                            initial: Db, steps: seq<Step>, id: Id, i: nat)
    requires Initial(initial)
    requires id in Run(ServiceWorld(sha, secret, profiles, search), initial, steps).cases
    requires i < |Run(ServiceWorld(sha, secret, profiles, search), initial, steps).cases[id].executions|
    requires var db := Run(ServiceWorld(sha, secret, profiles, search), initial, steps);
             db.cases[id].executions[i].status == Submitted
    ensures var db := Run(ServiceWorld(sha, secret, profiles, search), initial, steps);
            var c := db.cases[id];
            && PolicyKeyOf(c.request) in db.policies
            && RanUnder(c, c.executions[i], db.policies[PolicyKeyOf(c.request)])
            && (db.policies[PolicyKeyOf(c.request)].submitRequiresHuman ==>
                 HumanApproved(c, c.runs[0]) && SamePlan(sha, c.grants[0].payload, c.runs[0].payload))
  {
    var w := ServiceWorld(sha, secret, profiles, search);
    var db := Run(w, initial, steps);
    RunIsSafe(w, initial, steps);
    RunsAreStored(w, initial, steps);
    SubmissionUnderApproval(w, db, id, i);
    if |db.cases[id].grants| == 1 {
      EqualHashesMeanSamePlan(sha, secret, profiles, search, db.cases[id].grants[0].payload,
                              db.cases[id].runs[0].payload);
    }
  }

  // --- Plans swapped after approval ---------------------------------------------------

  // The stored plan is replaced and the request is executed: it is quarantined.
  predicate SwapIsQuarantined(w: World, c: Case, actors: Actors, plan: ActionPlan, key: Option<string>, now: Time,
                              draws: Draws) {
    var c' := After(c, RewritePlan(w, c, plan));
    var o := Execute(w, c', actors, key, now, draws);
    o.result.Ok? && Outcomes.ClosedWith(After(c', o.trail), o.result.value, Quarantine, plan)
  }

  lemma SwappedPlanIsQuarantined(sha: Hashing.Digest, secret: string, profiles: seq<LoanProfile>, search: Search,
                                 c: Case, actors: Actors, plan: ActionPlan, key: Option<string>, now: Time,
                                 draws: Draws)
    requires var w := ServiceWorld(sha, secret, profiles, search); Safe(w, c)
    requires Loaded(c, actors) && GateStability.HasPlan(c, actors) && c.request.state.Approved?
    requires |c.grants| == 1 && !SamePlan(sha, plan, c.grants[0].payload)
    ensures SwapIsQuarantined(ServiceWorld(sha, secret, profiles, search), c, actors, plan, key, now, draws)
  {
    var w := ServiceWorld(sha, secret, profiles, search);
    EqualHashesMeanSamePlan(sha, secret, profiles, search, plan, c.grants[0].payload);
    Outcomes.ApprovalReplayIsBlocked(w, c, actors, plan, key, now, draws);
  }

  lemma ApprovedInRun(w: World, initial: Db, steps: seq<Step>, id: Id)
    requires Initial(initial) && id in Run(w, initial, steps).cases
    requires Run(w, initial, steps).cases[id].request.state.Approved?
    ensures var db := Run(w, initial, steps);
            var c := db.cases[id];
            Safe(w, c) && |c.grants| == 1 && Loaded(c, ActorsOf(db, c.request))
            && GateStability.HasPlan(c, ActorsOf(db, c.request))
  {
    RunIsSafe(w, initial, steps);
    RequestsHaveActors(w, initial, steps, id);
  }

  // In every run: whatever plan takes the place of an approved one, executing it ends in
  // quarantine without an execution, unless the two plans agree field by field or their
  // texts collide.
  lemma SwapAfterApproval(sha: Hashing.Digest, secret: string, profiles: seq<LoanProfile>, search: Search,
                          initial: Db, steps: seq<Step>, id: Id, plan: ActionPlan, key: Option<string>, now: Time,
                          draws: Draws)
    requires Initial(initial)
    requires id in Run(ServiceWorld(sha, secret, profiles, search), initial, steps).cases
    requires Run(ServiceWorld(sha, secret, profiles, search), initial, steps).cases[id].request.state.Approved?
    ensures var w := ServiceWorld(sha, secret, profiles, search);
            var db := Run(w, initial, steps);
            var c := db.cases[id];
            && |c.grants| == 1
            && (SwapIsQuarantined(w, c, ActorsOf(db, c.request), plan, key, now, draws)
                || SamePayload(plan, c.grants[0].payload) || TextsCollide(sha, plan, c.grants[0].payload))
  {
    var w := ServiceWorld(sha, secret, profiles, search);
    var db := Run(w, initial, steps);
    var c := db.cases[id];
    ApprovedInRun(w, initial, steps, id);
    if !SamePlan(sha, plan, c.grants[0].payload) {
      SwappedPlanIsQuarantined(sha, secret, profiles, search, c, ActorsOf(db, c.request), plan, key, now, draws);
    }
  }

  // The replay scenario appends to the goal of the approved plan.
  lemma ChangedGoalAfterApproval(sha: Hashing.Digest, secret: string, profiles: seq<LoanProfile>, search: Search,
                                 initial: Db, steps: seq<Step>, id: Id, key: Option<string>, now: Time,
                                 draws: Draws)
    requires Initial(initial)
    requires id in Run(ServiceWorld(sha, secret, profiles, search), initial, steps).cases
    requires Run(ServiceWorld(sha, secret, profiles, search), initial, steps).cases[id].request.state.Approved?
    ensures var w := ServiceWorld(sha, secret, profiles, search);
            var db := Run(w, initial, steps);
            var c := db.cases[id];
            && |c.grants| == 1
            && var approved := c.grants[0].payload;
               var changed := approved.(goal := approved.goal + " (변경됨)");
               SwapIsQuarantined(w, c, ActorsOf(db, c.request), changed, key, now, draws)
               || TextsCollide(sha, changed, approved)
  {
    var w := ServiceWorld(sha, secret, profiles, search);
    ApprovedInRun(w, initial, steps, id);
    var approved := Run(w, initial, steps).cases[id].grants[0].payload;
    var changed := approved.(goal := approved.goal + " (변경됨)");
    assert |changed.goal| > |approved.goal|;
    SwapAfterApproval(sha, secret, profiles, search, initial, steps, id, changed, key, now, draws);
  }

  // --- Replies ------------------------------------------------------------------------

  // The key is answered with this receipt, and nothing is written.
  predicate Replays(w: World, c: Case, actors: Actors, key: Option<string>, now: Time, draws: Draws,
                    receipt: Receipts.Receipt) {
    Execute(w, c, actors, key, now, draws) == Outcome(Ok(receipt), [])
  }

  predicate Refuses(w: World, c: Case, actors: Actors, key: Option<string>, now: Time, draws: Draws) {
    Execute(w, c, actors, key, now, draws) == Outcome(Err(IllegalTransition(ReceiptIssued)), [])
  }

  lemma StoredKeyDecides(w: World, c: Case, actors: Actors, stored: string, key: Option<string>, now: Time,
                         draws: Draws)
    requires Safe(w, c) && stored in c.replies
    ensures Replays(w, c, actors, Some(stored), now, draws, c.replies[stored])
    ensures key != Some(stored) ==> Refuses(w, c, actors, key, now, draws)
  {
  }

  // Once a reply is stored, then after any further steps on this or other requests its key
  // answers with that same receipt and writes nothing; every other key is refused.
  lemma ReplayIsStable(w: World, db: Db, steps: seq<Step>, id: Id, stored: string, key: Option<string>,
                       now: Time, draws: Draws)
    requires DbSafe(w, db) && id in db.cases && stored in db.cases[id].replies
    ensures var after := Run(w, db, steps);
            && id in after.cases
            && Replays(w, after.cases[id], ActorsOf(after, after.cases[id].request), Some(stored), now, draws,
                       db.cases[id].replies[stored])
            && (key != Some(stored) ==>
                 Refuses(w, after.cases[id], ActorsOf(after, after.cases[id].request), key, now, draws))
  {
    var after := Run(w, db, steps);
    RunIsSafe(w, db, steps);
    RunExtends(w, db, steps);
    var c := after.cases[id];
    StoredKeyDecides(w, c, ActorsOf(after, c.request), stored, key, now, draws);
  }

  lemma NothingStoredRefuses(w: World, c: Case, actors: Actors, key: Option<string>, now: Time, draws: Draws)
    requires c.request.state == ReceiptIssued && c.replies == map[]
    ensures Refuses(w, c, actors, key, now, draws)
  {
  }

  // A closed request without a stored reply refuses every key, after any further steps.
  lemma RefusalIsStable(w: World, db: Db, steps: seq<Step>, id: Id, key: Option<string>, now: Time, draws: Draws)
    requires id in db.cases && db.cases[id].request.state == ReceiptIssued && db.cases[id].replies == map[]
    ensures var after := Run(w, db, steps);
            && id in after.cases
            && Refuses(w, after.cases[id], ActorsOf(after, after.cases[id].request), key, now, draws)
  {
    FinalStandsStill(w, db, steps, id);
    var after := Run(w, db, steps);
    NothingStoredRefuses(w, after.cases[id], ActorsOf(after, after.cases[id].request), key, now, draws);
  }

  // What the call leaves in the database when it completes.
  function Executed(w: World, db: Db, id: Id, key: Option<string>, at: Time, draws: Draws): Db {
    Perform(w, db, Step(On(id, CallExecute(key, draws)), at, None))
  }

  lemma ExecutedCase(w: World, db: Db, id: Id, key: Option<string>, at: Time, draws: Draws)
    requires id in db.cases
    ensures var after := Executed(w, db, id, key, at, draws);
            var o := Execute(w, db.cases[id], ActorsOf(db, db.cases[id].request), key, at, draws);
            id in after.cases && after.cases[id] == After(db.cases[id], o.trail)
  {
    PerformTarget(w, db, Step(On(id, CallExecute(key, draws)), at, None), id);
  }

  // The gate's decision on executing this request.
  function Verdict(w: World, db: Db, id: Id, key: Option<string>, at: Time): Decision
    requires id in db.cases && Outcomes.Ready(db.cases[id], ActorsOf(db, db.cases[id].request))
  {
    Outcomes.ExecutionDecision(w, db.cases[id], ActorsOf(db, db.cases[id].request), key, at)
  }

  lemma AllowedIsReplayed(w: World, db: Db, id: Id, key: Option<string>, at: Time, draws: Draws,
                          later: seq<Step>, other: Option<string>, now: Time, draws': Draws)
    requires DbSafe(w, db) && id in db.cases
    requires Outcomes.Ready(db.cases[id], ActorsOf(db, db.cases[id].request)) && Verdict(w, db, id, key, at) == Allow
    ensures var o := Execute(w, db.cases[id], ActorsOf(db, db.cases[id].request), key, at, draws);
            var after := Run(w, Executed(w, db, id, key, at, draws), later);
            && o.result.Ok? && id in after.cases
            && Replays(w, after.cases[id], ActorsOf(after, after.cases[id].request), key, now, draws', o.result.value)
            && (other != key ==>
                  Refuses(w, after.cases[id], ActorsOf(after, after.cases[id].request), other, now, draws'))
  {
    Outcomes.ExecuteStoresReply(w, db.cases[id], ActorsOf(db, db.cases[id].request), key, at, draws);
    ExecutedCase(w, db, id, key, at, draws);
    PerformSafe(w, db, Step(On(id, CallExecute(key, draws)), at, None));
    ReplayIsStable(w, Executed(w, db, id, key, at, draws), later, id, key.value, other, now, draws');
  }

  lemma RefusedIsNotReplayed(w: World, db: Db, id: Id, key: Option<string>, at: Time, draws: Draws,
                             later: seq<Step>, other: Option<string>, now: Time, draws': Draws)
    requires DbSafe(w, db) && id in db.cases
    requires Outcomes.Ready(db.cases[id], ActorsOf(db, db.cases[id].request)) && Verdict(w, db, id, key, at) != Allow
    ensures var after := Run(w, Executed(w, db, id, key, at, draws), later);
            && id in after.cases
            && Refuses(w, after.cases[id], ActorsOf(after, after.cases[id].request), other, now, draws')
  {
    Outcomes.RefusedExecutionStoresNoReply(w, db.cases[id], ActorsOf(db, db.cases[id].request), key, at, draws);
    ExecutedCase(w, db, id, key, at, draws);
    RefusalIsStable(w, Executed(w, db, id, key, at, draws), later, id, other, now, draws');
  }

  // A completed execution returns a receipt. After any further steps its key returns that
  // receipt again, and writes nothing, exactly if the gate allowed the execution; every
  // other key is refused, and after a refusal by the gate its own key is as well.
  lemma ExecutionIsIdempotent(w: World, db: Db, id: Id, key: Option<string>, at: Time, draws: Draws,
                              later: seq<Step>, other: Option<string>, now: Time, draws': Draws)
    requires DbSafe(w, db) && id in db.cases
    requires Outcomes.Ready(db.cases[id], ActorsOf(db, db.cases[id].request))
    ensures var o := Execute(w, db.cases[id], ActorsOf(db, db.cases[id].request), key, at, draws);
            var after := Run(w, Executed(w, db, id, key, at, draws), later);
            && o.result.Ok? && id in after.cases
            && (Replays(w, after.cases[id], ActorsOf(after, after.cases[id].request), key, now, draws', o.result.value)
                <==> Verdict(w, db, id, key, at) == Allow)
            && (other != key || Verdict(w, db, id, key, at) != Allow ==>
                  Refuses(w, after.cases[id], ActorsOf(after, after.cases[id].request), other, now, draws'))
  {
    Outcomes.ReadyExecutionReports(w, db.cases[id], ActorsOf(db, db.cases[id].request), key, at, draws);
    if Verdict(w, db, id, key, at) == Allow {
      AllowedIsReplayed(w, db, id, key, at, draws, later, other, now, draws');
    } else {
      RefusedIsNotReplayed(w, db, id, key, at, draws, later, other, now, draws');
      RefusedIsNotReplayed(w, db, id, key, at, draws, later, key, now, draws');
    }
  }

  // --- No assertion fires -------------------------------------------------------------

  predicate HasActors(db: Db, c: Case) {
    && PolicyKeyOf(c.request) in db.policies
    && c.request.principalId in db.principals && c.request.agentId in db.agents
  }

  lemma ActorsKept(before: Db, after: Db, c: Case, d: Case)
    requires HasActors(before, c) && DbExtends(before, after) && Extends(c, d)
    ensures HasActors(after, d)
  {
  }

  lemma StepKeepsActors(w: World, db: Db, step: Step, id: Id)
    requires DbSafe(w, db) && id in Perform(w, db, step).cases
    requires id in db.cases ==> HasActors(db, db.cases[id])
    ensures HasActors(Perform(w, db, step), Perform(w, db, step).cases[id])
  {
    PerformExtends(w, db, step);
    if id in db.cases {
      ActorsKept(db, Perform(w, db, step), db.cases[id], Perform(w, db, step).cases[id]);
    } else {
      PerformOpens(w, db, step, id);
      OpenTrailKeepsRequest(w, db, step.action.request, step.now, step.stopsAfter);
      PolicyRowsKept(db, Perform(w, db, step), PolicyKeyOf(step.action.request));
    }
  }

  lemma PolicyRowsKept(before: Db, after: Db, k: PolicyKey)
    requires DbExtends(before, after) && k in before.policies
    ensures k in after.policies
  {
  }

  lemma OpenTrailKeepsRequest(w: World, db: Db, request: Request, now: Time, stopsAfter: Option<nat>)
    requires PolicyKeyOf(request) in db.policies
    ensures forall c :: c in Committed(OpenTrail(w, db, request, now), stopsAfter) ==>
            c.request == request.(state := Draft)
  {
  }

  // Every request of a run has its delegation, principal and agent on file.
  lemma {:induction false} RequestsHaveActors(w: World, db: Db, steps: seq<Step>, id: Id)
    requires Initial(db) && id in Run(w, db, steps).cases
    ensures HasActors(Run(w, db, steps), Run(w, db, steps).cases[id])
  {
    if |steps| > 0 {
      var front := steps[..|steps| - 1];
      RunIsSafe(w, db, front);
      if id in Run(w, db, front).cases {
        RequestsHaveActors(w, db, front, id);
      }
      StepKeepsActors(w, Run(w, db, front), steps[|steps| - 1], id);
    }
  }

  lemma WithPolicyNoAssertion(w: World, c: Case, actors: Actors, key: Option<string>, now: Time, draws: Draws)
    requires Safe(w, c) && actors.policy.Some?
    ensures EvaluateRequest(w, c, actors, now, draws).result.Err? <==>
            !(c.request.state.PlanCreated? || c.request.state.ApprovalRequired?)
    ensures EvaluateRequest(w, c, actors, now, draws).result.Err? ==>
            EvaluateRequest(w, c, actors, now, draws).result == Err(IllegalTransition(c.request.state))
    ensures Execute(w, c, actors, key, now, draws).result.Err? ==>
            Execute(w, c, actors, key, now, draws).result == Err(IllegalTransition(c.request.state))
  {
  }

  // In every run, evaluate and execute fail in one way only: from a state that does not
  // permit them. No rule's assertion fires, and no plan or delegation is missing.
  lemma NoAssertionFires(w: World, db: Db, steps: seq<Step>, id: Id, key: Option<string>, now: Time, draws: Draws)
    requires Initial(db) && id in Run(w, db, steps).cases
    ensures var after := Run(w, db, steps);
            var c := after.cases[id];
            var actors := ActorsOf(after, c.request);
            && (EvaluateRequest(w, c, actors, now, draws).result.Err? <==>
                 !(c.request.state.PlanCreated? || c.request.state.ApprovalRequired?))
            && (EvaluateRequest(w, c, actors, now, draws).result.Err? ==>
                 EvaluateRequest(w, c, actors, now, draws).result == Err(IllegalTransition(c.request.state)))
            && (Execute(w, c, actors, key, now, draws).result.Err? ==>
                 Execute(w, c, actors, key, now, draws).result == Err(IllegalTransition(c.request.state)))
  {
    RunIsSafe(w, db, steps);
    RequestsHaveActors(w, db, steps, id);
    var c := Run(w, db, steps).cases[id];
    WithPolicyNoAssertion(w, c, ActorsOf(Run(w, db, steps), c.request), key, now, draws);
  }
}
