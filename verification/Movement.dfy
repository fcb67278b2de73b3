// How requests move through their states, over runs with crashes and rewrites: they never
// come back, and they move a bounded number of times.
module Movement {
  import opened Wrappers
  import opened Domain
  import opened PolicyEngine
  import opened Lifecycle
  import opened CaseSafety
  import opened Outcomes
  import opened Progress
  import opened System
  import opened Issuing

  // --- Moving on ----------------------------------------------------------------------

  predicate Replans(call: Call) {
    call.CallCreatePlan? || call.CallStoreCustomPlan?
  }

  // The call lowered the request's rank, or it is one of the few that need not.
  predicate MovesOn(c: Case, d: Case, call: Call) {
    || Remaining(d.request.state) < Remaining(c.request.state)
    || (d.request.state == c.request.state &&
        (call.CallIntervene? || call.RewriteStoredPlan?
         || (c.request.state == PlanCreated && Replans(call))
         || (c.request.state == ApprovalRequired && call.CallEvaluate?)))
  }

  // Where a completed evaluation leaves the request.
  function EndsIn(d: Decision): RequestState {
    match d
    case Allow => Allowed
    case RequireApproval => ApprovalRequired
    case Deny | Quarantine => ReceiptIssued
  }

  lemma EvaluateTrailEnds(w: World, c: Case, b: Blocking)
    ensures After(c, EvaluateTrail(w, c, b)).request.state == EndsIn(b.evaluation.decision)
  {
    if b.evaluation.decision == Deny || b.evaluation.decision == Quarantine {
      HandleBlockedCloses(w, After(c, DecideTrail(w, c, b)), b);
    }
  }

  lemma HandleBlockedCloses(w: World, c: Case, b: Blocking)
    ensures After(c, HandleBlockedTrail(w, c, b)).request.state == ReceiptIssued
  {
  }

  lemma EvaluateEnds(w: World, c: Case, actors: Actors, now: Time, draws: Draws)
    requires |EvaluateRequest(w, c, actors, now, draws).trail| > 0
    ensures c.request.state.PlanCreated? || c.request.state.PolicyEvaluated? || c.request.state.ApprovalRequired?
    ensures exists d :: After(c, EvaluateRequest(w, c, actors, now, draws).trail).request.state == EndsIn(d)
  {
    var ctx := EvaluationContext(w, c, actors, actors.policy.value, c.plan.value, now);
    EvaluateTrailEnds(w, c, Blocking(actors.policy, c.plan.value.payload, EvaluationOf(ctx), ctx.security, now, draws));
  }

  lemma EndingMovesOn(c: Case, after: Case, call: Call, d: Decision)
    requires c.request.state.PlanCreated? || c.request.state.ApprovalRequired?
    requires call.CallEvaluate? && after.request.state == EndsIn(d)
    ensures MovesOn(c, after, call)
  {
  }

  lemma EvaluateMovesOn(w: World, c: Case, actors: Actors, now: Time, draws: Draws)
    requires Safe(w, c) && |EvaluateRequest(w, c, actors, now, draws).trail| > 0
    ensures MovesOn(c, After(c, EvaluateRequest(w, c, actors, now, draws).trail), CallEvaluate(draws))
  {
    EvaluateEnds(w, c, actors, now, draws);
    var after := After(c, EvaluateRequest(w, c, actors, now, draws).trail);
    var d :| after.request.state == EndsIn(d);
    EndingMovesOn(c, after, CallEvaluate(draws), d);
  }

  lemma ClosingMovesOn(c: Case, d: Case, call: Call)
    requires (c.request.state.Allowed? || c.request.state.Approved?) && d.request.state.ReceiptIssued?
    ensures MovesOn(c, d, call)
  {
  }

  lemma ExecuteMovesOn(w: World, c: Case, actors: Actors, key: Option<string>, now: Time, draws: Draws)
    requires Safe(w, c) && |Execute(w, c, actors, key, now, draws).trail| > 0
    ensures MovesOn(c, After(c, Execute(w, c, actors, key, now, draws).trail), CallExecute(key, draws))
  {
    if !Ready(c, actors) {
      UnreadyWritesNothing(w, c, actors, key, now, draws);
    }
    ReadyExecutionReports(w, c, actors, key, now, draws);
    ClosingMovesOn(c, After(c, Execute(w, c, actors, key, now, draws).trail), CallExecute(key, draws));
  }

  lemma OtherCallMovesOn(w: World, c: Case, actors: Actors, call: Call, now: Time)
    requires !call.CallEvaluate? && !call.CallExecute? && |TrailOf(w, c, actors, call, now)| > 0
    ensures MovesOn(c, After(c, TrailOf(w, c, actors, call, now)), call)
  {
  }

  // A call that completes and writes anything lowers the rank of its request; only
  // planning again and evaluating again keep it, and interventions and rewrites.
  lemma CompletedCallMovesOn(w: World, c: Case, actors: Actors, call: Call, now: Time)
    requires Safe(w, c) && |TrailOf(w, c, actors, call, now)| > 0
    ensures MovesOn(c, After(c, TrailOf(w, c, actors, call, now)), call)
  {
    if call.CallEvaluate? {
      EvaluateMovesOn(w, c, actors, now, call.draws);
    } else if call.CallExecute? {
      ExecuteMovesOn(w, c, actors, call.key, now, call.draws);
    } else {
      OtherCallMovesOn(w, c, actors, call, now);
    }
  }

  // The rank of a request; one that is not open yet has them all before it.
  function RankOf(db: Db, id: Id): nat {
    if id in db.cases then Remaining(db.cases[id].request.state) else 7
  }

  lemma RankNeverRises(before: Db, after: Db, id: Id)
    requires DbExtends(before, after)
    ensures RankOf(after, id) <= RankOf(before, id) <= 7
  {
  }

  // How many steps of a run lowered the rank of a request.
  function Moves(w: World, db: Db, steps: seq<Step>, id: Id): nat {
    if |steps| == 0 then 0
    else
      Moves(w, db, steps[..|steps| - 1], id) +
      if RankOf(Run(w, db, steps), id) < RankOf(Run(w, db, steps[..|steps| - 1]), id) then 1 else 0
  }

  lemma RunStepKeepsRank(w: World, db: Db, steps: seq<Step>, id: Id)
    requires Initial(db) && |steps| > 0
    ensures RankOf(Run(w, db, steps), id) <= RankOf(Run(w, db, steps[..|steps| - 1]), id) <= 7
  {
    var before := Run(w, db, steps[..|steps| - 1]);
    RunIsSafe(w, db, steps[..|steps| - 1]);
    PerformExtends(w, before, steps[|steps| - 1]);
    RankNeverRises(before, Perform(w, before, steps[|steps| - 1]), id);
  }

  // No run, however long, crashed or rewritten, moves a request more than six times.
  lemma {:induction false} MovesAreBounded(w: World, db: Db, steps: seq<Step>, id: Id)
    requires Initial(db)
    ensures Moves(w, db, steps, id) + RankOf(Run(w, db, steps), id) <= 7
    ensures Moves(w, db, steps, id) <= 6
  {
    if |steps| > 0 {
      MovesAreBounded(w, db, steps[..|steps| - 1], id);
      RunStepKeepsRank(w, db, steps, id);
    }
  }
}
