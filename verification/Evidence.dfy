// The bodies of trace events (app/domain/lifecycle.py, _msts_body) and the keyed hash that
// chains them.
module Evidence {
  import opened Wrappers
  import opened Json
  import opened Hashing
  import opened Domain
  import opened Detectors

  datatype ReviewStatus = ReviewNotRequired | ReviewPending | ReviewApproved | ReviewRejected

  datatype ToolUse = ToolUse(name: string, status: ToolCallStatus)

  datatype Action = Action(actionType: string, institution: string)

  datatype Intervention = Intervention(kind: string, note: Option<string>)

  // The varying fields of an event body. A missing decision is "PENDING".
  datatype Body =
    | Msts(
        traceId: string,
        timestamp: Time,
        principalId: string,
        agentId: string,
        userIntent: string,
        delegatedScope: Option<Policy>,
        dataSources: seq<RequiredDatum>,
        toolCalls: seq<ToolUse>,
        recommended: Option<Action>,
        executedAction: Option<Fields>,
        review: ReviewStatus,
        policyDecision: Option<Decision>,
        riskFlags: seq<RiskFlag>,
        postActionOutcome: Option<Fields>)
    | InterventionBody(incidentId: string, intervention: Intervention)
    | Raw(json: Value)

  // --- JSON ---------------------------------------------------------------------------

  function ReviewText(r: ReviewStatus): string {
    match r
    case ReviewNotRequired => "NOT_REQUIRED"
    case ReviewPending => "PENDING"
    case ReviewApproved => "APPROVED"
    case ReviewRejected => "REJECTED"
  }

  function DecisionText(d: Option<Decision>): string {
    match d
    case None => "PENDING"
    case Some(Allow) => "ALLOW"
    case Some(RequireApproval) => "REQUIRE_APPROVAL"
    case Some(Deny) => "DENY"
    case Some(Quarantine) => "QUARANTINE"
  }

  function FlagText(f: RiskFlag): string {
    match f
    case IndirectPromptInjection => "INDIRECT_PROMPT_INJECTION"
    case UnauthorizedTool => "UNAUTHORIZED_TOOL"
    case DataExfiltrationAttempt => "DATA_EXFILTRATION_ATTEMPT"
  }

  function ToolUseJson(t: ToolUse): Value {
    Obj([Field("name", Str(t.name)),
         Field("status", Str(if t.status == CallCompleted then "COMPLETED" else "BLOCKED"))])
  }

  function SourceJson(d: RequiredDatum): Value {
    Obj([Field("class", Str(d.dataClass)), Field("purpose", Str(d.reason))])
  }

  function SourcesJson(data: seq<RequiredDatum>): Value {
    Arr(seq(|data|, i requires 0 <= i < |data| => SourceJson(data[i])))
  }

  function ToolUsesJson(uses: seq<ToolUse>): Value {
    Arr(seq(|uses|, i requires 0 <= i < |uses| => ToolUseJson(uses[i])))
  }

  function ActionJson(action: Option<Action>): Value {
    match action
    case None => Null
    case Some(a) => Obj([Field("action_type", Str(a.actionType)), Field("institution", Str(a.institution))])
  }

  function FlagsJson(flags: seq<RiskFlag>): Value {
    Arr(seq(|flags|, i requires 0 <= i < |flags| => Str(FlagText(flags[i]))))
  }

  function ScopeJson(p: Option<Policy>): Value {
    match p
    case None => Obj([])
    case Some(policy) => Obj([
      Field("allowed_action_types", Arr(StrItems(policy.allowedActionTypes))),
      Field("allowed_institutions", Arr(StrItems(policy.allowedInstitutions))),
      Field("allowed_products", Arr(StrItems(policy.allowedProducts))),
      Field("allowed_data_classes", Arr(StrItems(policy.allowedDataClasses))),
      Field("allowed_tools", Arr(StrItems(policy.allowedTools))),
      Field("valid_until", Int(policy.validUntil))])
  }

  function OptObj(fields: Option<Fields>): Value {
    match fields
    case None => Null
    case Some(f) => Obj(f)
  }

  function BodyJson(b: Body): Value {
    match b
    case Raw(json) => json
    case InterventionBody(incidentId, intervention) => Obj([
      Field("event_type", Str("INTERVENTION_APPLIED")),
      Field("incident_id", Str(incidentId)),
      Field("intervention", Obj([Field("type", Str(intervention.kind)), Field("note", OptStr(intervention.note))])),
      Field("override_status", Str("APPLIED"))])
    case Msts(_, _, _, _, _, _, _, _, _, _, _, _, _, _) => Obj([
      Field("schema_version", Str("msts-lite-0.1")),
      Field("trace_id", Str(b.traceId)),
      Field("timestamp_utc", Int(b.timestamp)),
      Field("principal_id", Str(b.principalId)),
      Field("agent_id", Str(b.agentId)),
      Field("user_intent", Str(b.userIntent)),
      Field("delegated_scope", ScopeJson(b.delegatedScope)),
      Field("data_sources", SourcesJson(b.dataSources)),
      Field("tool_calls", ToolUsesJson(b.toolCalls)),
      Field("recommended_action", ActionJson(b.recommended)),
      Field("executed_action", OptObj(b.executedAction)),
      Field("human_review_status", Str(ReviewText(b.review))),
      Field("policy_decision", Str(DecisionText(b.policyDecision))),
      Field("risk_flags", FlagsJson(b.riskFlags)),
      Field("post_action_outcome", OptObj(b.postActionOutcome))])
  }

  // --- The keyed hash of a chain ------------------------------------------------------

  // A digest, and the text it is applied to for a predecessor hash and an event body.
  datatype Sealer = Sealer(sha: Digest, text: (string, Body) -> string)

  function Seal(sealer: Sealer, previous: string, body: Body): string {
    sealer.sha(sealer.text(previous, body))
  }

  // chain_hash under one server secret.
  function ChainSealer(sha: Digest, secret: string): Sealer {
    Sealer(sha, (previous, body) => ChainPreimage(previous, BodyJson(body), secret))
  }

  lemma SealIsChainHash(sha: Digest, secret: string, previous: string, body: Body)
    ensures Seal(ChainSealer(sha, secret), previous, body) == ChainHash(sha, previous, BodyJson(body), secret)
  {
  }

  // A body that json.dumps can meet, and equality of two bodies up to key order.
  ghost predicate BodyWellFormed(json: Body -> Value, b: Body) {
    WellFormed(json(b))
  }

  ghost predicate SameBody(json: Body -> Value, a: Body, b: Body) {
    Same(json(a), json(b))
  }

  // The text determines the predecessor and the body, up to key order.
  ghost predicate Splits(sealer: Sealer, json: Body -> Value) {
    forall p1, b1, p2, b2 :: BodyWellFormed(json, b1) && BodyWellFormed(json, b2) ==>
      (sealer.text(p1, b1) == sealer.text(p2, b2) <==> p1 == p2 && SameBody(json, b1, b2))
  }

  lemma ChainSealerSplits(sha: Digest, secret: string)
    ensures Splits(ChainSealer(sha, secret), BodyJson)
  {
    var text := ChainSealer(sha, secret).text;
    forall p1, b1, p2, b2 | BodyWellFormed(BodyJson, b1) && BodyWellFormed(BodyJson, b2)
      ensures text(p1, b1) == text(p2, b2) <==> p1 == p2 && SameBody(BodyJson, b1, b2)
    {
      ChainPreimageSplits(p1, BodyJson(b1), secret, p2, BodyJson(b2), secret);
    }
  }

  // --- Bodies are well formed ---------------------------------------------------------

  const MSTS_KEYS: seq<string> := [
    "schema_version", "trace_id", "timestamp_utc", "principal_id", "agent_id", "user_intent", "delegated_scope",
    "data_sources", "tool_calls", "recommended_action", "executed_action", "human_review_status",
    "policy_decision", "risk_flags", "post_action_outcome"]

  lemma MstsKeysDiffer()
    ensures forall i, j :: 0 <= i < j < |MSTS_KEYS| ==> MSTS_KEYS[i] != MSTS_KEYS[j]
  {
  }

  lemma ScopeIsWellFormed(p: Option<Policy>)
    ensures WellFormed(ScopeJson(p))
  {
  }

  lemma MstsPartsAreWellFormed(b: Body)
    requires b.Msts?
    ensures WellFormed(BodyJson(b).fields[7].value) && WellFormed(BodyJson(b).fields[8].value)
    ensures WellFormed(BodyJson(b).fields[9].value) && WellFormed(BodyJson(b).fields[13].value)
  {
    assert forall i | 0 <= i < |b.dataSources| :: WellFormed(SourceJson(b.dataSources[i]));
    assert forall i | 0 <= i < |b.toolCalls| :: WellFormed(ToolUseJson(b.toolCalls[i]));
  }

  lemma MstsKeysAreDistinct(b: Body)
    requires b.Msts?
    ensures DistinctKeys(BodyJson(b).fields)
  {
    MstsKeysDiffer();
    assert forall i | 0 <= i < 15 :: BodyJson(b).fields[i].key == MSTS_KEYS[i];
  }

  // An event body is a JSON object whenever the outcomes in it are.
  lemma MstsIsWellFormed(b: Body)
    requires b.Msts? && WellFormed(OptObj(b.executedAction)) && WellFormed(OptObj(b.postActionOutcome))
    ensures BodyWellFormed(BodyJson, b)
  {
    var fields := BodyJson(b).fields;
    MstsKeysAreDistinct(b);
    ScopeIsWellFormed(b.delegatedScope);
    MstsPartsAreWellFormed(b);
    assert forall i | 0 <= i < 15 && i !in {6, 7, 8, 9, 10, 13, 14} :: WellFormed(fields[i].value);
    assert forall i | 0 <= i < 15 :: WellFormed(fields[i].value);
  }

  lemma InterventionIsWellFormed(incidentId: string, intervention: Intervention)
    ensures BodyWellFormed(BodyJson, InterventionBody(incidentId, intervention))
  {
    var fields := BodyJson(InterventionBody(incidentId, intervention)).fields;
    assert WellFormed(fields[2].value);
  }
}
