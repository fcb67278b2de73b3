// The whole control plane: every request's rows, the delegation policies, and runs of
// calls that may stop between any two commits.
module System {
  import opened Wrappers
  import opened Domain
  import opened Evidence
  import opened Lifecycle
  import opened CaseSafety
  import opened Progress

  type Id = string

  type PolicyKey = (string, int)

  datatype Db = Db(
    cases: map<Id, Case>,
    policies: map<PolicyKey, Policy>,
    principals: map<string, Principal>,
    agents: map<string, Agent>)

  function Find<K, V>(m: map<K, V>, k: K): Option<V> {
    if k in m then Some(m[k]) else None
  }

  function PolicyKeyOf(request: Request): PolicyKey {
    (request.policyId, request.policyVersion)
  }

  // _load_actors
  function ActorsOf(db: Db, request: Request): Actors {
    Actors(Find(db.principals, request.principalId), Find(db.agents, request.agentId),
           Find(db.policies, PolicyKeyOf(request)))
  }

  // --- Calls on one request -----------------------------------------------------------

  datatype Call =
    | CallCreatePlan
    | CallStoreCustomPlan(plan: ActionPlan)
    | CallEvaluate(draws: Draws)
    | CallApprove(approverId: string)
    | CallReject(approverId: string)
    | CallExecute(key: Option<string>, draws: Draws)
    | CallIntervene(incidentId: string, intervention: Intervention)
    | RewriteStoredPlan(plan: ActionPlan)

  // Who makes a call: the planner or whoever rewrites plans, a person, or the agent at the gate.
  datatype Kind = PlanKind | PersonKind | GateKind

  function KindOf(call: Call): Kind {
    match call
    case CallCreatePlan | CallStoreCustomPlan(_) | RewriteStoredPlan(_) => PlanKind
    case CallApprove(_) | CallReject(_) | CallIntervene(_, _) => PersonKind
    case CallEvaluate(_) | CallExecute(_, _) => GateKind
  }

  predicate CanStore(c: Case) {
    c.request.state.Draft? || c.request.state.PlanCreated?
  }

  // A custom plan is stored before anything is decided, as its only caller does.
  function TrailOf(w: World, c: Case, actors: Actors, call: Call, now: Time): seq<Case> {
    match call
    case CallCreatePlan => CreatePlan(w, c, actors, now).trail
    case CallStoreCustomPlan(plan) =>
      if CanStore(c) then StoreCustomPlan(w, c, actors, plan, now).trail else []
    case CallEvaluate(draws) => EvaluateRequest(w, c, actors, now, draws).trail
    case CallApprove(approverId) => Approve(w, c, actors, approverId, now).trail
    case CallReject(approverId) => Reject(w, c, actors, approverId, now).trail
    case CallExecute(key, draws) => Execute(w, c, actors, key, now, draws).trail
    case CallIntervene(incidentId, intervention) => Intervene(w, c, incidentId, intervention).trail
    case RewriteStoredPlan(plan) => RewritePlan(w, c, plan)
  }

  lemma TrailOfEvaluate(w: World, c: Case, actors: Actors, now: Time, draws: Draws)
    ensures TrailOf(w, c, actors, CallEvaluate(draws), now) == EvaluateRequest(w, c, actors, now, draws).trail
  {
  }

  lemma TrailOfExecute(w: World, c: Case, actors: Actors, key: Option<string>, now: Time, draws: Draws)
    ensures TrailOf(w, c, actors, CallExecute(key, draws), now) == Execute(w, c, actors, key, now, draws).trail
  {
  }

  lemma TrailOfStore(w: World, c: Case, actors: Actors, plan: ActionPlan, now: Time)
    ensures TrailOf(w, c, actors, CallStoreCustomPlan(plan), now) ==
            if CanStore(c) then StoreCustomPlan(w, c, actors, plan, now).trail else []
  {
  }

  lemma TrailOfCreatePlan(w: World, c: Case, actors: Actors, now: Time)
    ensures TrailOf(w, c, actors, CallCreatePlan, now) == CreatePlan(w, c, actors, now).trail
  {
  }

  lemma TrailOfReview(w: World, c: Case, actors: Actors, approverId: string, now: Time)
    ensures TrailOf(w, c, actors, CallApprove(approverId), now) == Approve(w, c, actors, approverId, now).trail
    ensures TrailOf(w, c, actors, CallReject(approverId), now) == Reject(w, c, actors, approverId, now).trail
  {
  }

  lemma TrailOfIntervention(w: World, c: Case, actors: Actors, incidentId: string, intervention: Intervention,
                            now: Time)
    ensures TrailOf(w, c, actors, CallIntervene(incidentId, intervention), now) ==
            Intervene(w, c, incidentId, intervention).trail
    ensures incidentId !in c.incidents ==> Intervene(w, c, incidentId, intervention).trail == []
  {
  }

  lemma TrailOfRewrite(w: World, c: Case, actors: Actors, plan: ActionPlan, now: Time)
    ensures TrailOf(w, c, actors, RewriteStoredPlan(plan), now) == RewritePlan(w, c, plan)
  {
  }

  // --- Steps and runs -----------------------------------------------------------------

  datatype Action =
    | Open(id: Id, request: Request)
    | On(id: Id, call: Call)
    | CreateDelegation(policy: Policy, generatedId: string)
    | RevokeDelegation(policyId: string)

  // A process that stops leaves only the first commits of its call.
  datatype Step = Step(action: Action, now: Time, stopsAfter: Option<nat>)

  function Committed(trail: seq<Case>, stopsAfter: Option<nat>): seq<Case> {
    match stopsAfter
    case None => trail
    case Some(n) => if n < |trail| then trail[..n] else trail
  }

  // The row with the highest version, whose status a revocation changes.
  predicate IsLatestVersion(policies: map<PolicyKey, Policy>, k: PolicyKey) {
    k in policies && forall other | other in policies && other.0 == k.0 :: other.1 <= k.1
  }

  function Revoked(policies: map<PolicyKey, Policy>, policyId: string): map<PolicyKey, Policy> {
    map k | k in policies ::
      if k.0 == policyId && IsLatestVersion(policies, k) then policies[k].(status := "REVOKED") else policies[k]
  }

  // Foreign keys and a fresh identifier.
  predicate CanOpen(db: Db, id: Id, request: Request) {
    && id !in db.cases
    && PolicyKeyOf(request) in db.policies
    && request.principalId in db.principals && request.agentId in db.agents
  }

  function OpenTrail(w: World, db: Db, request: Request, now: Time): seq<Case>
    requires PolicyKeyOf(request) in db.policies
  {
    CreateTrail(w, request, db.policies[PolicyKeyOf(request)], now)
  }

  function Stored(db: Db, id: Id, c: Case): Db {
    db.(cases := db.cases[id := c])
  }

  function PerformOpen(w: World, db: Db, id: Id, request: Request, now: Time, stopsAfter: Option<nat>): Db {
    if !CanOpen(db, id, request) then db
    else
      var trail := Committed(OpenTrail(w, db, request, now), stopsAfter);
      if |trail| == 0 then db else Stored(db, id, trail[|trail| - 1])
  }

  function PerformCall(w: World, db: Db, id: Id, call: Call, now: Time, stopsAfter: Option<nat>): Db
    requires id in db.cases
  {
    var c := db.cases[id];
    Stored(db, id, After(c, Committed(TrailOf(w, c, ActorsOf(db, c.request), call, now), stopsAfter)))
  }

  function KeyOf(policy: Policy): PolicyKey {
    (policy.policyId, policy.version)
  }

  // An empty identifier is replaced by a generated one.
  function Named(policy: Policy, generatedId: string): Policy {
    if policy.policyId == "" then policy.(policyId := generatedId) else policy
  }

  // The version is new, and no constraint of the table stands against the row.
  predicate CanDelegate(db: Db, policy: Policy, generatedId: string) {
    && KeyOf(policy) !in db.policies && KeyOf(Named(policy, generatedId)) !in db.policies
    && policy.principalId in db.principals && policy.agentId in db.agents
  }

  function PerformCreateDelegation(db: Db, policy: Policy, generatedId: string): Db {
    if !CanDelegate(db, policy, generatedId) then db
    else db.(policies := db.policies[KeyOf(Named(policy, generatedId)) := Named(policy, generatedId)])
  }

  function PerformRevoke(db: Db, policyId: string): Db {
    db.(policies := Revoked(db.policies, policyId))
  }

  function Perform(w: World, db: Db, step: Step): Db {
    match step.action
    case Open(id, request) => PerformOpen(w, db, id, request, step.now, step.stopsAfter)
    case On(id, call) => if id in db.cases then PerformCall(w, db, id, call, step.now, step.stopsAfter) else db
    case CreateDelegation(policy, generatedId) => PerformCreateDelegation(db, policy, generatedId)
    case RevokeDelegation(policyId) => PerformRevoke(db, policyId)
  }

  function Run(w: World, db: Db, steps: seq<Step>): Db {
    if |steps| == 0 then db
    else Perform(w, Run(w, db, steps[..|steps| - 1]), steps[|steps| - 1])
  }

  lemma {:induction false} RunConcat(w: World, db: Db, first: seq<Step>, rest: seq<Step>)
    ensures Run(w, db, first + rest) == Run(w, Run(w, db, first), rest)
  {
    var all := first + rest;
    if |rest| == 0 {
      assert all == first;
    } else {
      assert all[..|all| - 1] == first + rest[..|rest| - 1];
      RunConcat(w, db, first, rest[..|rest| - 1]);
    }
  }

  // A step touches the rows of one request at most.
  predicate Targets(step: Step, id: Id) {
    step.action.On? && step.action.id == id
  }

  lemma OpenElsewhere(w: World, db: Db, other: Id, request: Request, now: Time, stopsAfter: Option<nat>, id: Id)
    requires id in db.cases
    ensures id in PerformOpen(w, db, other, request, now, stopsAfter).cases
    ensures PerformOpen(w, db, other, request, now, stopsAfter).cases[id] == db.cases[id]
  {
  }

  lemma CallElsewhere(w: World, db: Db, other: Id, call: Call, now: Time, stopsAfter: Option<nat>, id: Id)
    requires id in db.cases && other in db.cases && id != other
    ensures id in PerformCall(w, db, other, call, now, stopsAfter).cases
    ensures PerformCall(w, db, other, call, now, stopsAfter).cases[id] == db.cases[id]
  {
  }

  lemma PerformElsewhere(w: World, db: Db, step: Step, id: Id)
    requires id in db.cases && !Targets(step, id)
    ensures id in Perform(w, db, step).cases && Perform(w, db, step).cases[id] == db.cases[id]
  {
    match step.action
    case Open(other, request) => OpenElsewhere(w, db, other, request, step.now, step.stopsAfter, id);
    case On(other, call) =>
      if other in db.cases {
        CallElsewhere(w, db, other, call, step.now, step.stopsAfter, id);
      }
    case CreateDelegation(policy, generatedId) =>
    case RevokeDelegation(policyId) =>
  }

  lemma PerformTarget(w: World, db: Db, step: Step, id: Id)
    requires id in db.cases && Targets(step, id)
    ensures Perform(w, db, step) == PerformCall(w, db, id, step.action.call, step.now, step.stopsAfter)
  {
  }

  // A request appears only by being opened.
  lemma PerformOpens(w: World, db: Db, step: Step, id: Id)
    requires id !in db.cases && id in Perform(w, db, step).cases
    ensures step.action.Open? && step.action.id == id && CanOpen(db, id, step.action.request)
    ensures Perform(w, db, step).cases[id] in Committed(OpenTrail(w, db, step.action.request, step.now),
                                                        step.stopsAfter)
    ensures step.stopsAfter.None? ==>
            Perform(w, db, step).cases[id] == OpenTrail(w, db, step.action.request, step.now)[1]
  {
  }

  // --- Safety of every run ------------------------------------------------------------

  predicate PoliciesKeyed(db: Db) {
    forall k | k in db.policies :: db.policies[k].policyId == k.0 && db.policies[k].version == k.1
  }

  ghost predicate DbSafe(w: World, db: Db) {
    PoliciesKeyed(db) && forall id :: id in db.cases ==> Safe(w, db.cases[id])
  }

  // The service starts without requests.
  predicate Initial(db: Db) {
    db.cases == map[] && PoliciesKeyed(db)
  }

  lemma PlanCallSafe(w: World, c: Case, actors: Actors, call: Call, now: Time)
    requires Safe(w, c) && KindOf(call) == PlanKind
    ensures AllSafe(w, TrailOf(w, c, actors, call, now))
  {
    if call.CallCreatePlan? {
      CreatePlanSafe(w, c, actors, now);
    } else if call.RewriteStoredPlan? {
      RewriteSafe(w, c, call.plan);
    } else if c.request.state.Draft? || c.request.state.PlanCreated? {
      PersistSafe(w, c, actors, call.plan, now);
    }
  }

  lemma PersonCallSafe(w: World, c: Case, actors: Actors, call: Call, now: Time)
    requires Safe(w, c) && KindOf(call) == PersonKind
    ensures AllSafe(w, TrailOf(w, c, actors, call, now))
  {
    if call.CallApprove? {
      ApproveSafe(w, c, actors, call.approverId, now);
    } else if call.CallReject? {
      RejectSafe(w, c, actors, call.approverId, now);
    } else {
      InterveneSafe(w, c, call.incidentId, call.intervention);
    }
  }

  lemma GateCallSafe(w: World, c: Case, actors: Actors, call: Call, now: Time)
    requires Safe(w, c) && Loaded(c, actors) && KindOf(call) == GateKind
    ensures AllSafe(w, TrailOf(w, c, actors, call, now))
  {
    if call.CallEvaluate? {
      EvaluateSafe(w, c, actors, now, call.draws);
    } else {
      ExecuteSafe(w, c, actors, call.key, now, call.draws);
    }
  }

  lemma CallSafe(w: World, c: Case, actors: Actors, call: Call, now: Time)
    requires Safe(w, c) && Loaded(c, actors)
    ensures AllSafe(w, TrailOf(w, c, actors, call, now))
  {
    match KindOf(call)
    case PlanKind => PlanCallSafe(w, c, actors, call, now);
    case PersonKind => PersonCallSafe(w, c, actors, call, now);
    case GateKind => GateCallSafe(w, c, actors, call, now);
  }

  lemma CreatePlanSafe(w: World, c: Case, actors: Actors, now: Time)
    requires Safe(w, c)
    ensures AllSafe(w, CreatePlan(w, c, actors, now).trail)
  {
    var o := CreatePlan(w, c, actors, now);
    if o.result.Ok? {
      PersistSafe(w, c, actors, o.result.value, now);
    }
  }

  lemma CommittedSafe(w: World, c: Case, trail: seq<Case>, stopsAfter: Option<nat>)
    requires Safe(w, c) && AllSafe(w, trail)
    ensures Safe(w, After(c, Committed(trail, stopsAfter)))
  {
  }

  lemma StoredSafe(w: World, db: Db, id: Id, c: Case)
    requires DbSafe(w, db) && Safe(w, c)
    ensures DbSafe(w, Stored(db, id, c))
  {
  }

  lemma OpenSafe(w: World, db: Db, id: Id, request: Request, now: Time, stopsAfter: Option<nat>)
    requires DbSafe(w, db)
    ensures DbSafe(w, PerformOpen(w, db, id, request, now, stopsAfter))
  {
    if CanOpen(db, id, request) {
      var trail := OpenTrail(w, db, request, now);
      CreateSafe(w, request, db.policies[PolicyKeyOf(request)], now);
      var kept := Committed(trail, stopsAfter);
      if |kept| > 0 {
        StoredSafe(w, db, id, kept[|kept| - 1]);
      }
    }
  }

  lemma OnSafe(w: World, db: Db, id: Id, call: Call, now: Time, stopsAfter: Option<nat>)
    requires DbSafe(w, db) && id in db.cases
    ensures DbSafe(w, PerformCall(w, db, id, call, now, stopsAfter))
  {
    var c := db.cases[id];
    var trail := TrailOf(w, c, ActorsOf(db, c.request), call, now);
    CallSafe(w, c, ActorsOf(db, c.request), call, now);
    CommittedSafe(w, c, trail, stopsAfter);
    StoredSafe(w, db, id, After(c, Committed(trail, stopsAfter)));
  }

  lemma PolicyStepsSafe(w: World, db: Db, db': Db)
    requires DbSafe(w, db) && db'.cases == db.cases && PoliciesKeyed(db')
    ensures DbSafe(w, db')
  {
  }

  lemma CreateDelegationKeepsKeys(db: Db, policy: Policy, generatedId: string)
    requires PoliciesKeyed(db)
    ensures PoliciesKeyed(PerformCreateDelegation(db, policy, generatedId))
  {
  }

  lemma RevokeKeepsKeys(db: Db, policyId: string)
    requires PoliciesKeyed(db)
    ensures PoliciesKeyed(PerformRevoke(db, policyId))
  {
  }

  lemma OnStepSafe(w: World, db: Db, id: Id, call: Call, now: Time, stopsAfter: Option<nat>)
    requires DbSafe(w, db)
    ensures DbSafe(w, if id in db.cases then PerformCall(w, db, id, call, now, stopsAfter) else db)
  {
    if id in db.cases {
      OnSafe(w, db, id, call, now, stopsAfter);
    }
  }

  lemma DelegationStepSafe(w: World, db: Db, policy: Policy, generatedId: string)
    requires DbSafe(w, db)
    ensures DbSafe(w, PerformCreateDelegation(db, policy, generatedId))
  {
    CreateDelegationKeepsKeys(db, policy, generatedId);
    PolicyStepsSafe(w, db, PerformCreateDelegation(db, policy, generatedId));
  }

  lemma RevokeStepSafe(w: World, db: Db, policyId: string)
    requires DbSafe(w, db)
    ensures DbSafe(w, PerformRevoke(db, policyId))
  {
    RevokeKeepsKeys(db, policyId);
    PolicyStepsSafe(w, db, PerformRevoke(db, policyId));
  }

  lemma PerformSafe(w: World, db: Db, step: Step)
    requires DbSafe(w, db)
    ensures DbSafe(w, Perform(w, db, step))
  {
    match step.action
    case Open(id, request) => OpenSafe(w, db, id, request, step.now, step.stopsAfter);
    case On(id, call) => OnStepSafe(w, db, id, call, step.now, step.stopsAfter);
    case CreateDelegation(policy, generatedId) => DelegationStepSafe(w, db, policy, generatedId);
    case RevokeDelegation(policyId) => RevokeStepSafe(w, db, policyId);
  }

  lemma {:induction false} RunIsSafe(w: World, db: Db, steps: seq<Step>)
    requires DbSafe(w, db)
    ensures DbSafe(w, Run(w, db, steps))
  {
    if |steps| > 0 {
      RunIsSafe(w, db, steps[..|steps| - 1]);
      PerformSafe(w, Run(w, db, steps[..|steps| - 1]), steps[|steps| - 1]);
    }
  }

  // --- Every run only adds ------------------------------------------------------------

  lemma PlanCallAdvances(w: World, c: Case, actors: Actors, call: Call, now: Time)
    requires KindOf(call) == PlanKind
    ensures Advances(c, TrailOf(w, c, actors, call, now))
  {
    if call.CallCreatePlan? {
      var o := CreatePlan(w, c, actors, now);
      if o.result.Ok? {
        PersistAdvances(w, c, actors, o.result.value, now);
      }
    } else if call.RewriteStoredPlan? {
      RewriteAdvances(w, c, call.plan);
    } else if c.request.state.Draft? || c.request.state.PlanCreated? {
      PersistAdvances(w, c, actors, call.plan, now);
    }
  }

  lemma PersonCallAdvances(w: World, c: Case, actors: Actors, call: Call, now: Time)
    requires KindOf(call) == PersonKind
    ensures Advances(c, TrailOf(w, c, actors, call, now))
  {
    if call.CallApprove? {
      ApproveAdvances(w, c, actors, call.approverId, now);
    } else if call.CallReject? {
      RejectAdvances(w, c, actors, call.approverId, now);
    } else {
      InterveneAdvances(w, c, call.incidentId, call.intervention);
    }
  }

  lemma GateCallAdvances(w: World, c: Case, actors: Actors, call: Call, now: Time)
    requires Safe(w, c) && KindOf(call) == GateKind
    ensures Advances(c, TrailOf(w, c, actors, call, now))
  {
    if call.CallEvaluate? {
      EvaluateAdvances(w, c, actors, now, call.draws);
    } else {
      ExecuteAdvances(w, c, actors, call.key, now, call.draws);
    }
  }

  lemma CallAdvances(w: World, c: Case, actors: Actors, call: Call, now: Time)
    requires Safe(w, c)
    ensures Advances(c, TrailOf(w, c, actors, call, now))
  {
    match KindOf(call)
    case PlanKind => PlanCallAdvances(w, c, actors, call, now);
    case PersonKind => PersonCallAdvances(w, c, actors, call, now);
    case GateKind => GateCallAdvances(w, c, actors, call, now);
  }

  // A delegation version never changes but for its status, which only becomes REVOKED.
  predicate PolicyKept(p: Policy, q: Policy) {
    q == p || q == p.(status := "REVOKED")
  }

  predicate PoliciesKept(before: Db, after: Db) {
    forall k | k in before.policies :: k in after.policies && PolicyKept(before.policies[k], after.policies[k])
  }

  predicate CasesKept(before: Db, after: Db) {
    forall id | id in before.cases :: id in after.cases && Extends(before.cases[id], after.cases[id])
  }

  predicate DbExtends(before: Db, after: Db) {
    && PoliciesKept(before, after) && CasesKept(before, after)
    && after.principals == before.principals && after.agents == before.agents
  }

  lemma ExtendsItself(db: Db)
    ensures DbExtends(db, db)
  {
  }

  lemma StoredExtends(db: Db, id: Id, c: Case)
    requires id in db.cases ==> Extends(db.cases[id], c)
    ensures DbExtends(db, Stored(db, id, c))
  {
  }

  lemma OpenExtends(w: World, db: Db, id: Id, request: Request, now: Time, stopsAfter: Option<nat>)
    ensures DbExtends(db, PerformOpen(w, db, id, request, now, stopsAfter))
  {
    ExtendsItself(db);
    if CanOpen(db, id, request) {
      var kept := Committed(OpenTrail(w, db, request, now), stopsAfter);
      if |kept| > 0 {
        StoredExtends(db, id, kept[|kept| - 1]);
      }
    }
  }

  lemma CommittedExtends(c: Case, trail: seq<Case>, stopsAfter: Option<nat>)
    requires Advances(c, trail)
    ensures Extends(c, After(c, Committed(trail, stopsAfter)))
  {
  }

  lemma OnExtends(w: World, db: Db, id: Id, call: Call, now: Time, stopsAfter: Option<nat>)
    requires id in db.cases && Safe(w, db.cases[id])
    ensures DbExtends(db, PerformCall(w, db, id, call, now, stopsAfter))
  {
    var c := db.cases[id];
    var trail := TrailOf(w, c, ActorsOf(db, c.request), call, now);
    CallAdvances(w, c, ActorsOf(db, c.request), call, now);
    CommittedExtends(c, trail, stopsAfter);
    StoredExtends(db, id, After(c, Committed(trail, stopsAfter)));
  }

  lemma CreateDelegationExtends(db: Db, policy: Policy, generatedId: string)
    ensures DbExtends(db, PerformCreateDelegation(db, policy, generatedId))
  {
  }

  lemma RevokeExtends(db: Db, policyId: string)
    ensures DbExtends(db, PerformRevoke(db, policyId))
  {
  }

  lemma OnStepExtends(w: World, db: Db, id: Id, call: Call, now: Time, stopsAfter: Option<nat>)
    requires DbSafe(w, db)
    ensures DbExtends(db, if id in db.cases then PerformCall(w, db, id, call, now, stopsAfter) else db)
  {
    if id in db.cases {
      OnExtends(w, db, id, call, now, stopsAfter);
    } else {
      ExtendsItself(db);
    }
  }

  lemma PerformExtends(w: World, db: Db, step: Step)
    requires DbSafe(w, db)
    ensures DbExtends(db, Perform(w, db, step))
  {
    match step.action
    case Open(id, request) => OpenExtends(w, db, id, request, step.now, step.stopsAfter);
    case On(id, call) => OnStepExtends(w, db, id, call, step.now, step.stopsAfter);
    case CreateDelegation(policy, generatedId) => CreateDelegationExtends(db, policy, generatedId);
    case RevokeDelegation(policyId) => RevokeExtends(db, policyId);
  }

  lemma DbExtendsTransitive(a: Db, b: Db, c: Db)
    requires DbExtends(a, b) && DbExtends(b, c)
    ensures DbExtends(a, c)
  {
    forall id | id in a.cases ensures id in c.cases && Extends(a.cases[id], c.cases[id]) {
      ExtendsTransitive(a.cases[id], b.cases[id], c.cases[id]);
    }
  }

  lemma StepExtendsRun(w: World, start: Db, db: Db, step: Step)
    requires DbExtends(start, db) && DbSafe(w, db)
    ensures DbExtends(start, Perform(w, db, step))
  {
    PerformExtends(w, db, step);
    DbExtendsTransitive(start, db, Perform(w, db, step));
  }

  lemma {:induction false} RunExtends(w: World, db: Db, steps: seq<Step>)
    requires DbSafe(w, db)
    ensures DbExtends(db, Run(w, db, steps))
  {
    if |steps| == 0 {
      ExtendsItself(db);
    } else {
      var front := steps[..|steps| - 1];
      RunExtends(w, db, front);
      RunIsSafe(w, db, front);
      StepExtendsRun(w, db, Run(w, db, front), steps[|steps| - 1]);
    }
  }
}
