// Requests that stand still: closed, rejected, or left by a process that stopped in the
// middle of a decision or an execution.
module Standstill {
  import opened Wrappers
  import opened Domain
  import opened Lifecycle
  import opened System

  // No call is permitted any more.
  predicate Final(s: RequestState) {
    s.Rejected? || s.Denied? || s.Quarantined? || s.Executing? || s.Executed? || s.FailedSafe? || s.ReceiptIssued?
  }

  // Only the stored plan, incidents and the trace may differ: rewrites and interventions.
  predicate Frozen(c: Case, d: Case) {
    d == c.(plan := d.plan, incidents := d.incidents, trace := d.trace)
  }

  predicate AllFrozen(c: Case, trail: seq<Case>) {
    forall i | 0 <= i < |trail| :: Frozen(c, trail[i])
  }

  lemma FinalCallWritesNothing(w: World, c: Case, actors: Actors, call: Call, now: Time)
    requires Final(c.request.state) && !call.CallIntervene? && !call.RewriteStoredPlan?
    ensures TrailOf(w, c, actors, call, now) == []
  {
  }

  lemma FinalCallFreezes(w: World, c: Case, actors: Actors, call: Call, now: Time)
    requires Final(c.request.state)
    ensures AllFrozen(c, TrailOf(w, c, actors, call, now))
  {
    if !call.CallIntervene? && !call.RewriteStoredPlan? {
      FinalCallWritesNothing(w, c, actors, call, now);
    }
  }

  lemma CommittedFreezes(c: Case, trail: seq<Case>, stopsAfter: Option<nat>)
    requires AllFrozen(c, trail)
    ensures Frozen(c, After(c, Committed(trail, stopsAfter)))
  {
  }

  lemma StepFreezes(w: World, db: Db, step: Step, id: Id)
    requires id in db.cases && Final(db.cases[id].request.state)
    ensures id in Perform(w, db, step).cases && Frozen(db.cases[id], Perform(w, db, step).cases[id])
  {
    if Targets(step, id) {
      var c := db.cases[id];
      var trail := TrailOf(w, c, ActorsOf(db, c.request), step.action.call, step.now);
      PerformTarget(w, db, step, id);
      FinalCallFreezes(w, c, ActorsOf(db, c.request), step.action.call, step.now);
      CommittedFreezes(c, trail, step.stopsAfter);
    } else {
      PerformElsewhere(w, db, step, id);
    }
  }

  // Once a process has stopped in the middle of a decision or an execution, or the request
  // is closed, no later step of any kind changes its state or adds an evaluation, approval,
  // tool call, execution, receipt, reply or gateway run.
  lemma {:induction false} FinalStandsStill(w: World, db: Db, steps: seq<Step>, id: Id)
    requires id in db.cases && Final(db.cases[id].request.state)
    ensures id in Run(w, db, steps).cases && Frozen(db.cases[id], Run(w, db, steps).cases[id])
  {
    if |steps| > 0 {
      var front := steps[..|steps| - 1];
      FinalStandsStill(w, db, front, id);
      StepFreezes(w, Run(w, db, front), steps[|steps| - 1], id);
    }
  }
}
