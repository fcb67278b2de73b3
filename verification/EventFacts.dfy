// What the sealed JSON of an event body says: the facts are read back from it by key, and two
// bodies with the same JSON state the same facts.
module EventFacts {
  import opened Wrappers
  import opened Json
  import opened JsonReader
  import opened Domain
  import opened Detectors
  import opened Evidence
  import CanonicalForm

  // The part of a delegation that an event records.
  datatype Scope = Scope(
    actionTypes: seq<string>, institutions: seq<string>, products: seq<string>, dataClasses: seq<string>,
    tools: seq<string>, validUntil: int)

  // What an event states. A fact is None where its key is missing or unreadable.
  datatype Facts = Facts(subject: Subject, findings: Findings, ruling: Ruling, remark: Remark)

  datatype Subject = Subject(
    traceId: Option<string>,
    timestamp: Option<int>,
    principalId: Option<string>,
    agentId: Option<string>,
    userIntent: Option<string>,
    scope: Option<Scope>,
    sources: Option<seq<RequiredDatum>>)

  datatype Findings = Findings(
    toolUses: Option<seq<ToolUse>>,
    recommended: Option<Action>,
    executed: Option<Value>,
    outcome: Option<Value>)

  datatype Ruling = Ruling(
    review: Option<ReviewStatus>,
    decision: Option<Option<Decision>>,
    flags: Option<seq<RiskFlag>>)

  datatype Remark = Remark(incidentId: Option<string>, intervention: Option<Intervention>)

  // --- Reading ------------------------------------------------------------------------

  function EntriesOf(v: Option<Value>): Fields {
    match v
    case Some(Obj(fields)) => fields
    case _ => []
  }

  function IntIn(fields: Fields, key: string): Option<int> {
    match Get(fields, key)
    case Some(Int(n)) => Some(n)
    case _ => None
  }

  function ListIn<T>(fields: Fields, key: string, read: Value -> Option<T>): Option<seq<T>> {
    match Get(fields, key)
    case Some(Arr(items)) => Collect(seq(|items|, i requires 0 <= i < |items| => read(items[i])))
    case _ => None
  }

  function ReadReview(text: Option<string>): Option<ReviewStatus> {
    if text == Some("NOT_REQUIRED") then Some(ReviewNotRequired)
    else if text == Some("PENDING") then Some(ReviewPending)
    else if text == Some("APPROVED") then Some(ReviewApproved)
    else if text == Some("REJECTED") then Some(ReviewRejected)
    else None
  }

  function ReadDecision(text: Option<string>): Option<Option<Decision>> {
    if text == Some("PENDING") then Some(None)
    else if text == Some("ALLOW") then Some(Some(Allow))
    else if text == Some("REQUIRE_APPROVAL") then Some(Some(RequireApproval))
    else if text == Some("DENY") then Some(Some(Deny))
    else if text == Some("QUARANTINE") then Some(Some(Quarantine))
    else None
  }

  function ReadFlag(v: Value): Option<RiskFlag> {
    if v == Str("INDIRECT_PROMPT_INJECTION") then Some(IndirectPromptInjection)
    else if v == Str("UNAUTHORIZED_TOOL") then Some(UnauthorizedTool)
    else if v == Str("DATA_EXFILTRATION_ATTEMPT") then Some(DataExfiltrationAttempt)
    else None
  }

  function ReadCallStatus(text: string): Option<ToolCallStatus> {
    if text == "COMPLETED" then Some(CallCompleted) else if text == "BLOCKED" then Some(CallBlocked) else None
  }

  function ReadToolUse(v: Value): Option<ToolUse> {
    var f := EntriesOf(Some(v));
    match (TextIn(f, "name"), TextIn(f, "status"))
    case (Some(name), Some(text)) =>
      (match ReadCallStatus(text)
       case Some(status) => Some(ToolUse(name, status))
       case None => None)
    case _ => None
  }

  function ReadSource(v: Value): Option<RequiredDatum> {
    var f := EntriesOf(Some(v));
    match (TextIn(f, "class"), TextIn(f, "purpose"))
    case (Some(dataClass), Some(reason)) => Some(RequiredDatum(dataClass, reason))
    case _ => None
  }

  function ReadAction(f: Fields): Option<Action> {
    match (TextIn(f, "action_type"), TextIn(f, "institution"))
    case (Some(actionType), Some(institution)) => Some(Action(actionType, institution))
    case _ => None
  }

  function ReadScope(f: Fields): Option<Scope> {
    var actionTypes := ListIn(f, "allowed_action_types", ReadText);
    var institutions := ListIn(f, "allowed_institutions", ReadText);
    var products := ListIn(f, "allowed_products", ReadText);
    var dataClasses := ListIn(f, "allowed_data_classes", ReadText);
    var tools, until := ListIn(f, "allowed_tools", ReadText), IntIn(f, "valid_until");
    if actionTypes.Some? && institutions.Some? && products.Some? && dataClasses.Some? && tools.Some? && until.Some? then
      Some(Scope(actionTypes.value, institutions.value, products.value, dataClasses.value, tools.value, until.value))
    else None
  }

  function ReadIntervention(f: Fields): Option<Intervention> {
    match (TextIn(f, "type"), OptTextIn(f, "note"))
    case (Some(kind), Some(note)) => Some(Intervention(kind, note))
    case _ => None
  }

  function SubjectIn(f: Fields): Subject {
    Subject(
      TextIn(f, "trace_id"), IntIn(f, "timestamp_utc"), TextIn(f, "principal_id"), TextIn(f, "agent_id"),
      TextIn(f, "user_intent"), ReadScope(EntriesOf(Get(f, "delegated_scope"))), ListIn(f, "data_sources", ReadSource))
  }

  function FindingsIn(f: Fields): Findings {
    Findings(
      ListIn(f, "tool_calls", ReadToolUse), ReadAction(EntriesOf(Get(f, "recommended_action"))),
      Get(f, "executed_action"), Get(f, "post_action_outcome"))
  }

  function RulingIn(f: Fields): Ruling {
    Ruling(
      ReadReview(TextIn(f, "human_review_status")), ReadDecision(TextIn(f, "policy_decision")),
      ListIn(f, "risk_flags", ReadFlag))
  }

  function RemarkIn(f: Fields): Remark {
    Remark(TextIn(f, "incident_id"), ReadIntervention(EntriesOf(Get(f, "intervention"))))
  }

  // The facts in a JSON object.
  function FactsIn(f: Fields): Facts {
    Facts(SubjectIn(f), FindingsIn(f), RulingIn(f), RemarkIn(f))
  }

  // --- The facts of a body ------------------------------------------------------------

  function ScopeOf(policy: Policy): Scope {
    Scope(policy.allowedActionTypes, policy.allowedInstitutions, policy.allowedProducts, policy.allowedDataClasses,
          policy.allowedTools, policy.validUntil)
  }

  function OptScope(policy: Option<Policy>): Option<Scope> {
    match policy
    case None => None
    case Some(p) => Some(ScopeOf(p))
  }

  function SubjectOf(b: Body): Subject
    requires b.Msts?
  {
    Subject(Some(b.traceId), Some(b.timestamp), Some(b.principalId), Some(b.agentId), Some(b.userIntent),
            OptScope(b.delegatedScope), Some(b.dataSources))
  }

  function FindingsOf(b: Body): Findings
    requires b.Msts?
  {
    Findings(Some(b.toolCalls), b.recommended, Some(OptObj(b.executedAction)), Some(OptObj(b.postActionOutcome)))
  }

  function RulingOf(b: Body): Ruling
    requires b.Msts?
  {
    Ruling(Some(b.review), Some(b.policyDecision), Some(b.riskFlags))
  }

  const NO_SUBJECT := Subject(None, None, None, None, None, None, None)

  function FactsOf(b: Body): Facts {
    match b
    case Raw(json) => FactsIn(EntriesOf(Some(json)))
    case InterventionBody(incidentId, intervention) =>
      Facts(NO_SUBJECT, Findings(None, None, None, None), Ruling(None, None, None),
            Remark(Some(incidentId), Some(intervention)))
    case Msts(_, _, _, _, _, _, _, _, _, _, _, _, _, _) =>
      Facts(SubjectOf(b), FindingsOf(b), RulingOf(b), Remark(None, None))
  }

  // --- The facts of a body are read back from its JSON --------------------------------

  ghost predicate KeyedAsMsts(f: Fields) {
    Keyed(f, MSTS_KEYS) && DistinctKeys(f)
  }

  // The values of an event body: who and what it is about.
  ghost predicate SealsSubject(f: Fields, b: Body)
    requires b.Msts? && |f| == |MSTS_KEYS|
  {
    && f[1].value == Str(b.traceId) && f[2].value == Int(b.timestamp) && f[3].value == Str(b.principalId)
    && f[4].value == Str(b.agentId) && f[5].value == Str(b.userIntent)
  }

  // Under which schema, within which scope, and from which data.
  ghost predicate SealsScope(f: Fields, b: Body)
    requires b.Msts? && |f| == |MSTS_KEYS|
  {
    && f[0].value == Str("msts-lite-0.1")
    && f[6].value == ScopeJson(b.delegatedScope) && f[7].value == SourcesJson(b.dataSources)
  }

  ghost predicate Seals(f: Fields, b: Body)
    requires b.Msts? && |f| == |MSTS_KEYS|
  {
    SealsSubject(f, b) && SealsScope(f, b) && SealsOutcome(f, b)
  }

  // What came of it.
  ghost predicate SealsOutcome(f: Fields, b: Body)
    requires b.Msts? && |f| == |MSTS_KEYS|
  {
    && f[8].value == ToolUsesJson(b.toolCalls) && f[9].value == ActionJson(b.recommended)
    && f[10].value == OptObj(b.executedAction) && f[11].value == Str(ReviewText(b.review))
    && f[12].value == Str(DecisionText(b.policyDecision)) && f[13].value == FlagsJson(b.riskFlags)
    && f[14].value == OptObj(b.postActionOutcome)
  }

  lemma MstsIsKeyed(b: Body)
    requires b.Msts?
    ensures KeyedAsMsts(BodyJson(b).fields)
  {
    MstsKeysAreDistinct(b);
  }

  lemma MstsSealsSubject(b: Body)
    requires b.Msts?
    ensures SealsSubject(BodyJson(b).fields, b)
  {
  }

  lemma MstsSealsScope(b: Body)
    requires b.Msts?
    ensures SealsScope(BodyJson(b).fields, b)
  {
  }

  lemma MstsSealsOutcome(b: Body)
    requires b.Msts?
    ensures SealsOutcome(BodyJson(b).fields, b)
  {
  }

  lemma MstsSeals(b: Body)
    requires b.Msts?
    ensures Seals(BodyJson(b).fields, b)
  {
    MstsSealsSubject(b);
    MstsSealsScope(b);
    MstsSealsOutcome(b);
  }

  lemma IntIsFound(f: Fields, i: nat, key: string, n: int)
    requires DistinctKeys(f) && i < |f| && f[i].key == key && f[i].value == Int(n)
    ensures IntIn(f, key) == Some(n)
  {
    EntryIsFound(f, i, key);
  }

  lemma ListIsFound<T>(f: Fields, i: nat, key: string, read: Value -> Option<T>, values: seq<T>)
    requires DistinctKeys(f) && i < |f| && f[i].key == key && f[i].value.Arr? && |f[i].value.items| == |values|
    requires forall k :: 0 <= k < |values| ==> read(f[i].value.items[k]) == Some(values[k])
    ensures ListIn(f, key, read) == Some(values)
  {
    EntryIsFound(f, i, key);
    var items := f[i].value.items;
    CollectAll(seq(|items|, k requires 0 <= k < |items| => read(items[k])), values);
  }

  lemma TextsAreFound(f: Fields, i: nat, key: string, texts: seq<string>)
    requires DistinctKeys(f) && i < |f| && f[i].key == key && f[i].value == Arr(StrItems(texts))
    ensures ListIn(f, key, ReadText) == Some(texts)
  {
    ListIsFound(f, i, key, ReadText, texts);
  }

  lemma ToolUseReadsBack(t: ToolUse)
    ensures ReadToolUse(ToolUseJson(t)) == Some(t)
  {
    var f := ToolUseJson(t).fields;
    TextIsFound(f, 0, "name", t.name);
    TextIsFound(f, 1, "status", if t.status == CallCompleted then "COMPLETED" else "BLOCKED");
  }

  lemma SourceReadsBack(d: RequiredDatum)
    ensures ReadSource(SourceJson(d)) == Some(d)
  {
    var f := SourceJson(d).fields;
    TextIsFound(f, 0, "class", d.dataClass);
    TextIsFound(f, 1, "purpose", d.reason);
  }

  lemma ActionReadsBack(action: Option<Action>)
    ensures ReadAction(EntriesOf(Some(ActionJson(action)))) == action
  {
    if action.Some? {
      var f := ActionJson(action).fields;
      TextIsFound(f, 0, "action_type", action.value.actionType);
      TextIsFound(f, 1, "institution", action.value.institution);
    }
  }

  ghost predicate HoldsScope(f: Fields, p: Policy) {
    && DistinctKeys(f) && |f| == 6
    && f[0] == Field("allowed_action_types", Arr(StrItems(p.allowedActionTypes)))
    && f[1] == Field("allowed_institutions", Arr(StrItems(p.allowedInstitutions)))
    && f[2] == Field("allowed_products", Arr(StrItems(p.allowedProducts)))
    && f[3] == Field("allowed_data_classes", Arr(StrItems(p.allowedDataClasses)))
    && f[4] == Field("allowed_tools", Arr(StrItems(p.allowedTools)))
    && f[5] == Field("valid_until", Int(p.validUntil))
  }

  lemma ScopeIsRead(f: Fields, p: Policy)
    requires HoldsScope(f, p)
    ensures ReadScope(f) == Some(ScopeOf(p))
  {
    TextsAreFound(f, 0, "allowed_action_types", p.allowedActionTypes);
    TextsAreFound(f, 1, "allowed_institutions", p.allowedInstitutions);
    TextsAreFound(f, 2, "allowed_products", p.allowedProducts);
    TextsAreFound(f, 3, "allowed_data_classes", p.allowedDataClasses);
    TextsAreFound(f, 4, "allowed_tools", p.allowedTools);
    IntIsFound(f, 5, "valid_until", p.validUntil);
  }

  lemma ScopeReadsBack(policy: Option<Policy>)
    ensures ReadScope(EntriesOf(Some(ScopeJson(policy)))) == OptScope(policy)
  {
    if policy.Some? {
      ScopeIsWellFormed(policy);
      ScopeIsRead(ScopeJson(policy).fields, policy.value);
    }
  }

  lemma SubjectReadsBack(f: Fields, b: Body)
    requires b.Msts? && KeyedAsMsts(f) && SealsSubject(f, b) && SealsScope(f, b)
    ensures SubjectIn(f) == SubjectOf(b)
  {
    TextIsFound(f, 1, "trace_id", b.traceId);
    IntIsFound(f, 2, "timestamp_utc", b.timestamp);
    TextIsFound(f, 3, "principal_id", b.principalId);
    TextIsFound(f, 4, "agent_id", b.agentId);
    TextIsFound(f, 5, "user_intent", b.userIntent);
    EntryIsFound(f, 6, "delegated_scope");
    ScopeReadsBack(b.delegatedScope);
    forall d | d in b.dataSources { SourceReadsBack(d); }
    ListIsFound(f, 7, "data_sources", ReadSource, b.dataSources);
  }

  lemma FindingsReadBack(f: Fields, b: Body)
    requires b.Msts? && KeyedAsMsts(f) && SealsOutcome(f, b)
    ensures FindingsIn(f) == FindingsOf(b)
  {
    forall t | t in b.toolCalls { ToolUseReadsBack(t); }
    ListIsFound(f, 8, "tool_calls", ReadToolUse, b.toolCalls);
    EntryIsFound(f, 9, "recommended_action");
    ActionReadsBack(b.recommended);
    EntryIsFound(f, 10, "executed_action");
    EntryIsFound(f, 14, "post_action_outcome");
  }

  lemma ReviewReadsBack(r: ReviewStatus)
    ensures ReadReview(Some(ReviewText(r))) == Some(r)
  {
  }

  lemma DecisionReadsBack(d: Option<Decision>)
    ensures ReadDecision(Some(DecisionText(d))) == Some(d)
  {
  }

  lemma FlagReadsBack(flag: RiskFlag)
    ensures ReadFlag(Str(FlagText(flag))) == Some(flag)
  {
  }

  lemma FlagsReadBack(f: Fields, i: nat, key: string, flags: seq<RiskFlag>)
    requires DistinctKeys(f) && i < |f| && f[i].key == key && f[i].value == FlagsJson(flags)
    ensures ListIn(f, key, ReadFlag) == Some(flags)
  {
    forall flag { FlagReadsBack(flag); }
    ListIsFound(f, i, key, ReadFlag, flags);
  }

  lemma RulingReadsBack(f: Fields, b: Body)
    requires b.Msts? && KeyedAsMsts(f) && SealsOutcome(f, b)
    ensures RulingIn(f) == RulingOf(b)
  {
    TextIsFound(f, 11, "human_review_status", ReviewText(b.review));
    ReviewReadsBack(b.review);
    TextIsFound(f, 12, "policy_decision", DecisionText(b.policyDecision));
    DecisionReadsBack(b.policyDecision);
    FlagsReadBack(f, 13, "risk_flags", b.riskFlags);
  }

  lemma MstsKeysDifferFromOthers()
    ensures "incident_id" !in MSTS_KEYS && "intervention" !in MSTS_KEYS
  {
  }

  lemma NoRemarkInMsts(f: Fields)
    requires KeyedAsMsts(f)
    ensures RemarkIn(f) == Remark(None, None)
  {
    MstsKeysDifferFromOthers();
    assert forall i | 0 <= i < |f| :: f[i].key in MSTS_KEYS;
    assert Get(f, "incident_id") == None && Get(f, "intervention") == None;
  }

  lemma MstsEntriesReadBack(f: Fields, b: Body)
    requires b.Msts? && KeyedAsMsts(f) && Seals(f, b)
    ensures FactsIn(f) == FactsOf(b)
  {
    SubjectReadsBack(f, b);
    FindingsReadBack(f, b);
    RulingReadsBack(f, b);
    NoRemarkInMsts(f);
  }

  lemma MstsReadsBack(b: Body)
    requires b.Msts?
    ensures FactsIn(BodyJson(b).fields) == FactsOf(b)
  {
    MstsIsKeyed(b);
    MstsSeals(b);
    MstsEntriesReadBack(BodyJson(b).fields, b);
  }

  const REMARK_KEYS: seq<string> := ["event_type", "incident_id", "intervention", "override_status"]

  lemma KeySetsDiffer()
    ensures forall i, j :: 0 <= i < |MSTS_KEYS| && 0 <= j < |REMARK_KEYS| ==> MSTS_KEYS[i] != REMARK_KEYS[j]
    ensures forall i, j :: 0 <= i < j < |REMARK_KEYS| ==> REMARK_KEYS[i] != REMARK_KEYS[j]
  {
  }

  lemma AbsentInRemark(f: Fields, key: string, i: nat)
    requires Keyed(f, REMARK_KEYS) && i < |MSTS_KEYS| && key == MSTS_KEYS[i]
    ensures Get(f, key) == None
  {
    KeySetsDiffer();
  }

  lemma NothingInEmpty()
    ensures ReadScope([]) == None && ReadAction([]) == None
  {
  }

  lemma NoNamesInRemark(f: Fields)
    requires Keyed(f, REMARK_KEYS)
    ensures TextIn(f, "trace_id") == None && IntIn(f, "timestamp_utc") == None && TextIn(f, "principal_id") == None
    ensures TextIn(f, "agent_id") == None && TextIn(f, "user_intent") == None
  {
    AbsentInRemark(f, "trace_id", 1);
    AbsentInRemark(f, "timestamp_utc", 2);
    AbsentInRemark(f, "principal_id", 3);
    AbsentInRemark(f, "agent_id", 4);
    AbsentInRemark(f, "user_intent", 5);
  }

  lemma NoSubjectInRemark(f: Fields)
    requires Keyed(f, REMARK_KEYS)
    ensures SubjectIn(f) == NO_SUBJECT
  {
    NoNamesInRemark(f);
    NothingInEmpty();
    AbsentInRemark(f, "delegated_scope", 6);
    AbsentInRemark(f, "data_sources", 7);
  }

  lemma NoFindingsInRemark(f: Fields)
    requires Keyed(f, REMARK_KEYS)
    ensures FindingsIn(f) == Findings(None, None, None, None)
  {
    NothingInEmpty();
    AbsentInRemark(f, "tool_calls", 8);
    AbsentInRemark(f, "recommended_action", 9);
    AbsentInRemark(f, "executed_action", 10);
    AbsentInRemark(f, "post_action_outcome", 14);
  }

  lemma NoRulingInRemark(f: Fields)
    requires Keyed(f, REMARK_KEYS)
    ensures RulingIn(f) == Ruling(None, None, None)
  {
    AbsentInRemark(f, "human_review_status", 11);
    AbsentInRemark(f, "policy_decision", 12);
    AbsentInRemark(f, "risk_flags", 13);
  }

  function InterventionJson(intervention: Intervention): Value {
    Obj([Field("type", Str(intervention.kind)), Field("note", OptStr(intervention.note))])
  }

  lemma RemarkReadsBack(f: Fields, incidentId: string, intervention: Intervention)
    requires Keyed(f, REMARK_KEYS)
    requires f[1].value == Str(incidentId) && f[2].value == InterventionJson(intervention)
    ensures RemarkIn(f) == Remark(Some(incidentId), Some(intervention))
  {
    KeySetsDiffer();
    TextIsFound(f, 1, "incident_id", incidentId);
    EntryIsFound(f, 2, "intervention");
    InterventionIsRead(intervention);
  }

  lemma InterventionIsRead(intervention: Intervention)
    ensures ReadIntervention(InterventionJson(intervention).fields) == Some(intervention)
  {
    var f := InterventionJson(intervention).fields;
    TextIsFound(f, 0, "type", intervention.kind);
    OptTextIsFound(f, 1, "note", intervention.note);
  }

  lemma InterventionEntries(incidentId: string, intervention: Intervention)
    ensures var f := BodyJson(InterventionBody(incidentId, intervention)).fields;
            && Keyed(f, REMARK_KEYS)
            && f[1].value == Str(incidentId) && f[2].value == InterventionJson(intervention)
  {
  }

  lemma InterventionReadsBack(incidentId: string, intervention: Intervention)
    ensures var b := InterventionBody(incidentId, intervention); FactsIn(BodyJson(b).fields) == FactsOf(b)
  {
    var f := BodyJson(InterventionBody(incidentId, intervention)).fields;
    InterventionEntries(incidentId, intervention);
    RemarkEntriesReadBack(f, incidentId, intervention);
  }

  lemma RemarkEntriesReadBack(f: Fields, incidentId: string, intervention: Intervention)
    requires Keyed(f, REMARK_KEYS)
    requires f[1].value == Str(incidentId) && f[2].value == InterventionJson(intervention)
    ensures FactsIn(f) == FactsOf(InterventionBody(incidentId, intervention))
  {
    NoSubjectInRemark(f);
    NoFindingsInRemark(f);
    NoRulingInRemark(f);
    RemarkReadsBack(f, incidentId, intervention);
  }

  // The facts of every body are read back from its JSON.
  lemma BodyReadsBack(b: Body)
    ensures FactsIn(EntriesOf(Some(BodyJson(b)))) == FactsOf(b)
  {
    match b
    case Raw(_) =>
    case InterventionBody(incidentId, intervention) => InterventionReadsBack(incidentId, intervention);
    case Msts(_, _, _, _, _, _, _, _, _, _, _, _, _, _) => MstsReadsBack(b);
  }

  // --- The same JSON states the same facts --------------------------------------------

  ghost predicate SameOptional(a: Option<Value>, b: Option<Value>) {
    (a.Some? <==> b.Some?) && (a.Some? ==> Same(a.value, b.value))
  }

  // The facts agree, the outcomes among them up to key order.
  ghost predicate SameFacts(a: Facts, b: Facts) {
    && a.subject == b.subject && a.ruling == b.ruling && a.remark == b.remark
    && a.findings.toolUses == b.findings.toolUses && a.findings.recommended == b.findings.recommended
    && SameOptional(a.findings.executed, b.findings.executed) && SameOptional(a.findings.outcome, b.findings.outcome)
  }

  lemma SameTextIn(f: Fields, g: Fields, key: string)
    requires Same(Obj(f), Obj(g))
    ensures TextIn(f, key) == TextIn(g, key)
  {
    SameIsReadAlike(f, g, key);
  }

  lemma SameOptTextIn(f: Fields, g: Fields, key: string)
    requires Same(Obj(f), Obj(g))
    ensures OptTextIn(f, key) == OptTextIn(g, key)
  {
    SameIsReadAlike(f, g, key);
  }

  lemma SameIntIn(f: Fields, g: Fields, key: string)
    requires Same(Obj(f), Obj(g))
    ensures IntIn(f, key) == IntIn(g, key)
  {
    SameIsReadAlike(f, g, key);
  }

  lemma SameListIn<T>(f: Fields, g: Fields, key: string, read: Value -> Option<T>)
    requires Same(Obj(f), Obj(g)) && forall x, y :: Same(x, y) ==> read(x) == read(y)
    ensures ListIn(f, key, read) == ListIn(g, key, read)
  {
    SameIsReadAlike(f, g, key);
    match (Get(f, key), Get(g, key))
    case (Some(Arr(x)), Some(Arr(y))) =>
      assert seq(|x|, i requires 0 <= i < |x| => read(x[i])) == seq(|y|, i requires 0 <= i < |y| => read(y[i]));
    case _ =>
  }

  lemma SameEntriesOf(f: Fields, g: Fields, key: string)
    requires Same(Obj(f), Obj(g))
    ensures Same(Obj(EntriesOf(Get(f, key))), Obj(EntriesOf(Get(g, key))))
  {
    SameIsReadAlike(f, g, key);
    assert Same(Obj([]), Obj([]));
  }

  lemma SameEntriesOfValue(x: Value, y: Value)
    requires Same(x, y)
    ensures Same(Obj(EntriesOf(Some(x))), Obj(EntriesOf(Some(y))))
  {
    assert Same(Obj([]), Obj([]));
  }

  lemma SameSourceRead(x: Value, y: Value)
    requires Same(x, y)
    ensures ReadSource(x) == ReadSource(y)
  {
    var f, g := EntriesOf(Some(x)), EntriesOf(Some(y));
    SameEntriesOfValue(x, y);
    SameTextIn(f, g, "class");
    SameTextIn(f, g, "purpose");
  }

  lemma SameToolUseRead(x: Value, y: Value)
    requires Same(x, y)
    ensures ReadToolUse(x) == ReadToolUse(y)
  {
    var f, g := EntriesOf(Some(x)), EntriesOf(Some(y));
    SameEntriesOfValue(x, y);
    SameTextIn(f, g, "name");
    SameTextIn(f, g, "status");
  }

  lemma SameTextRead(x: Value, y: Value)
    requires Same(x, y)
    ensures ReadText(x) == ReadText(y) && ReadFlag(x) == ReadFlag(y)
  {
  }

  lemma SameItemsRead()
    ensures forall x, y :: Same(x, y) ==>
              && ReadText(x) == ReadText(y) && ReadFlag(x) == ReadFlag(y)
              && ReadSource(x) == ReadSource(y) && ReadToolUse(x) == ReadToolUse(y)
  {
    forall x, y | Same(x, y)
      ensures ReadText(x) == ReadText(y) && ReadFlag(x) == ReadFlag(y)
      ensures ReadSource(x) == ReadSource(y) && ReadToolUse(x) == ReadToolUse(y)
    {
      SameTextRead(x, y);
      SameSourceRead(x, y);
      SameToolUseRead(x, y);
    }
  }

  lemma SameScopes(f: Fields, g: Fields)
    requires Same(Obj(f), Obj(g))
    ensures ReadScope(f) == ReadScope(g)
  {
    SameItemsRead();
    SameListIn(f, g, "allowed_action_types", ReadText);
    SameListIn(f, g, "allowed_institutions", ReadText);
    SameListIn(f, g, "allowed_products", ReadText);
    SameListIn(f, g, "allowed_data_classes", ReadText);
    SameListIn(f, g, "allowed_tools", ReadText);
    SameIntIn(f, g, "valid_until");
  }

  lemma SameSubjects(f: Fields, g: Fields)
    requires Same(Obj(f), Obj(g))
    ensures SubjectIn(f) == SubjectIn(g)
  {
    SameTextIn(f, g, "trace_id");
    SameIntIn(f, g, "timestamp_utc");
    SameTextIn(f, g, "principal_id");
    SameTextIn(f, g, "agent_id");
    SameTextIn(f, g, "user_intent");
    SameEntriesOf(f, g, "delegated_scope");
    SameScopes(EntriesOf(Get(f, "delegated_scope")), EntriesOf(Get(g, "delegated_scope")));
    SameItemsRead();
    SameListIn(f, g, "data_sources", ReadSource);
  }

  lemma SameRulings(f: Fields, g: Fields)
    requires Same(Obj(f), Obj(g))
    ensures RulingIn(f) == RulingIn(g)
  {
    SameTextIn(f, g, "human_review_status");
    SameTextIn(f, g, "policy_decision");
    SameItemsRead();
    SameListIn(f, g, "risk_flags", ReadFlag);
  }

  lemma SameActions(f: Fields, g: Fields)
    requires Same(Obj(f), Obj(g))
    ensures ReadAction(f) == ReadAction(g)
  {
    SameTextIn(f, g, "action_type");
    SameTextIn(f, g, "institution");
  }

  lemma SameFindings(f: Fields, g: Fields)
    requires Same(Obj(f), Obj(g))
    ensures FindingsIn(f).toolUses == FindingsIn(g).toolUses && FindingsIn(f).recommended == FindingsIn(g).recommended
    ensures SameOptional(FindingsIn(f).executed, FindingsIn(g).executed)
    ensures SameOptional(FindingsIn(f).outcome, FindingsIn(g).outcome)
  {
    SameItemsRead();
    SameListIn(f, g, "tool_calls", ReadToolUse);
    SameEntriesOf(f, g, "recommended_action");
    SameActions(EntriesOf(Get(f, "recommended_action")), EntriesOf(Get(g, "recommended_action")));
    SameIsReadAlike(f, g, "executed_action");
    SameIsReadAlike(f, g, "post_action_outcome");
  }

  lemma SameInterventions(f: Fields, g: Fields)
    requires Same(Obj(f), Obj(g))
    ensures ReadIntervention(f) == ReadIntervention(g)
  {
    SameTextIn(f, g, "type");
    SameOptTextIn(f, g, "note");
  }

  lemma SameRemarks(f: Fields, g: Fields)
    requires Same(Obj(f), Obj(g))
    ensures RemarkIn(f) == RemarkIn(g)
  {
    SameTextIn(f, g, "incident_id");
    SameEntriesOf(f, g, "intervention");
    SameInterventions(EntriesOf(Get(f, "intervention")), EntriesOf(Get(g, "intervention")));
  }

  lemma SameJsonSameFacts(f: Fields, g: Fields)
    requires Same(Obj(f), Obj(g))
    ensures SameFacts(FactsIn(f), FactsIn(g))
  {
    SameSubjects(f, g);
    SameFindings(f, g);
    SameRulings(f, g);
    SameRemarks(f, g);
  }

  // --- Two bodies with the same JSON --------------------------------------------------

  ghost predicate SameOutcome(a: Option<Fields>, b: Option<Fields>) {
    (a.Some? <==> b.Some?) && (a.Some? ==> Same(Obj(a.value), Obj(b.value)))
  }

  // The same event about the same request: every recorded field agrees, of the delegation
  // the six fields that an event records, and the outcomes up to key order.
  ghost predicate SameMsts(a: Body, b: Body)
    requires a.Msts? && b.Msts?
  {
    && a.traceId == b.traceId && a.timestamp == b.timestamp
    && a.principalId == b.principalId && a.agentId == b.agentId && a.userIntent == b.userIntent
    && OptScope(a.delegatedScope) == OptScope(b.delegatedScope)
    && a.dataSources == b.dataSources && a.toolCalls == b.toolCalls && a.recommended == b.recommended
    && SameOutcome(a.executedAction, b.executedAction)
    && a.review == b.review && a.policyDecision == b.policyDecision && a.riskFlags == b.riskFlags
    && SameOutcome(a.postActionOutcome, b.postActionOutcome)
  }

  // The two bodies record the same. A body of unknown shape is compared by what it states.
  ghost predicate SameRecord(a: Body, b: Body) {
    if a.Raw? || b.Raw? then SameFacts(FactsOf(a), FactsOf(b))
    else if a.Msts? then b.Msts? && SameMsts(a, b)
    else a == b
  }

  lemma SameFactsOfMsts(a: Body, b: Body)
    requires a.Msts? && b.Msts? && SameFacts(FactsOf(a), FactsOf(b))
    ensures SameMsts(a, b)
  {
    assert FactsOf(a).subject == SubjectOf(a) && FactsOf(b).subject == SubjectOf(b);
    assert FactsOf(a).ruling == RulingOf(a) && FactsOf(b).ruling == RulingOf(b);
  }

  // The JSON of a body determines what it records.
  lemma SameBodySameRecord(a: Body, b: Body)
    requires SameBody(BodyJson, a, b)
    ensures SameRecord(a, b)
  {
    BodyReadsBack(a);
    BodyReadsBack(b);
    SameEntriesOfValue(BodyJson(a), BodyJson(b));
    SameJsonSameFacts(EntriesOf(Some(BodyJson(a))), EntriesOf(Some(BodyJson(b))));
    SameFactsSameRecord(a, b);
  }

  lemma SameFactsSameRecord(a: Body, b: Body)
    requires SameFacts(FactsOf(a), FactsOf(b))
    ensures SameRecord(a, b)
  {
    if a.Msts? && b.Msts? {
      SameFactsOfMsts(a, b);
    }
  }

  // The entries are equal, but for two whose values are the same.
  ghost predicate Alike(f: Fields, g: Fields) {
    && |f| == |g| == |MSTS_KEYS|
    && (forall i | 0 <= i < |f| && i != 10 && i != 14 :: f[i].value == g[i].value)
    && Same(f[10].value, g[10].value) && Same(f[14].value, g[14].value)
  }

  lemma SameMstsAlike(f: Fields, a: Body, g: Fields, b: Body)
    requires a.Msts? && b.Msts? && |f| == |g| == |MSTS_KEYS| && Seals(f, a) && Seals(g, b)
    requires SameMsts(a, b)
    ensures Alike(f, g)
  {
    assert ScopeJson(a.delegatedScope) == ScopeJson(b.delegatedScope);
  }

  lemma AlikeIsSame(f: Fields, g: Fields)
    requires Keyed(f, MSTS_KEYS) && Keyed(g, MSTS_KEYS) && Alike(f, g) && WellFormed(Obj(f))
    ensures Same(Obj(f), Obj(g))
  {
    forall i | 0 <= i < |f|
      ensures Same(f[i].value, g[i].value)
    {
      if i != 10 && i != 14 {
        CanonicalForm.SameIsReflexive(f[i].value);
      }
    }
    SameInPlace(f, g);
  }

  lemma SameMstsSameJson(a: Body, b: Body)
    requires a.Msts? && b.Msts? && SameMsts(a, b) && BodyWellFormed(BodyJson, a)
    ensures SameBody(BodyJson, a, b)
  {
    var f, g := BodyJson(a).fields, BodyJson(b).fields;
    MstsIsKeyed(a);
    MstsIsKeyed(b);
    MstsSeals(a);
    MstsSeals(b);
    SameMstsAlike(f, a, g, b);
    AlikeIsSame(f, g);
  }

  // Between bodies of the service's own shape it is the other way round too.
  lemma SameRecordSameBody(a: Body, b: Body)
    requires !a.Raw? && !b.Raw? && BodyWellFormed(BodyJson, a)
    ensures SameRecord(a, b) <==> SameBody(BodyJson, a, b)
  {
    if SameBody(BodyJson, a, b) {
      SameBodySameRecord(a, b);
    } else if a.Msts? && b.Msts? && SameMsts(a, b) {
      SameMstsSameJson(a, b);
    } else if a == b {
      CanonicalForm.SameIsReflexive(BodyJson(a));
    }
  }
}
