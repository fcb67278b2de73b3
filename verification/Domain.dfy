// The rows and payloads of the delegation domain (app/db/models.py, app/schemas/).
module Domain {
  import opened Wrappers
  import opened Json

  // Microseconds; only differences and comparisons matter.
  type Time = int

  const APPROVAL_TTL: Time := 3_600_000_000

  datatype Decision = Allow | RequireApproval | Deny | Quarantine

  datatype RequestState =
    | Draft | PlanCreated | PolicyEvaluated | ApprovalRequired | Approved | Rejected | Expired
    | Denied | Quarantined | Allowed | Executing | Executed | FailedSafe | ReceiptIssued

  datatype Principal = Principal(id: string)

  datatype Agent = Agent(id: string, status: string)

  // The entries of a dict: no key occurs twice, at any depth.
  type Dict = fields: Fields | WellFormed(Obj(fields))

  // A dict read at one key only; its other entries are carried along.
  type MoneyEntries = fields: Dict | "amount" !in Keys(fields)

  type PartyEntries = fields: Dict | "is_new" !in Keys(fields)

  // A money dict; the "amount" key may be missing.
  datatype Money = Money(amount: Option<int>, others: MoneyEntries)

  function AmountOf(m: Money): int {
    match m.amount
    case Some(n) => n
    case None => 0
  }

  datatype Policy = Policy(
    policyId: string,
    version: int,
    principalId: string,
    agentId: string,
    purpose: string,
    allowedActionTypes: seq<string>,
    allowedInstitutions: seq<string>,
    allowedProducts: seq<string>,
    allowedDataClasses: seq<string>,
    allowedTools: seq<string>,
    amountLimit: Option<Money>,
    counterpartyMode: Option<string>,
    submitRequiresHuman: bool,
    validFrom: Time,
    validUntil: Time,
    status: string)

  datatype Request = Request(
    principalId: string,
    agentId: string,
    policyId: string,
    policyVersion: int,
    userRequest: string,
    untrustedDocument: Option<string>,
    traceId: string,
    state: RequestState)

  datatype RequiredDatum = RequiredDatum(dataClass: string, reason: string)

  datatype ProposedToolCall = ProposedToolCall(tool: string, arguments: Dict)

  datatype Counterparty = Counterparty(isNew: Option<bool>, others: PartyEntries)

  predicate IsNew(c: Counterparty) {
    c.isNew == Some(true)
  }

  datatype ActionPlan = ActionPlan(
    actionType: string,
    institution: string,
    product: Option<string>,
    goal: string,
    assumptions: seq<string>,
    requiredData: seq<RequiredDatum>,
    proposedToolCalls: seq<ProposedToolCall>,
    expectedOutput: string,
    reversibility: string,
    estimatedRisk: string,
    approvalReason: Option<string>,
    amount: Option<Money>,
    counterparty: Option<Counterparty>)

  datatype ApprovalStatus = Granted | Refused

  datatype Approval = Approval(
    status: ApprovalStatus,
    approvedPlanHash: string,
    policyVersion: int,
    approverId: string,
    expiresAt: Option<Time>)

  datatype ToolCallStatus = CallCompleted | CallBlocked

  datatype ToolCall = ToolCall(tool: string, arguments: Fields, status: ToolCallStatus, result: Fields)

  datatype ExecutionStatus = Submitted | NoExecution | ExecutionFailedSafe

  datatype Execution = Execution(idempotencyKey: Option<string>, status: ExecutionStatus, outcome: Fields)

  // ---------------------------------------------------------------------------------
  // ActionPlan.model_dump()
  // ---------------------------------------------------------------------------------

  function OptStr(s: Option<string>): Value {
    match s
    case Some(text) => Str(text)
    case None => Null
  }

  function StrItems(texts: seq<string>): (r: seq<Value>)
    ensures |r| == |texts| && forall i :: 0 <= i < |texts| ==> r[i] == Str(texts[i])
  {
    seq(|texts|, i requires 0 <= i < |texts| => Str(texts[i]))
  }

  function DatumJson(d: RequiredDatum): Value {
    Obj([Field("data_class", Str(d.dataClass)), Field("reason", Str(d.reason))])
  }

  function CallJson(c: ProposedToolCall): Value {
    Obj([Field("tool", Str(c.tool)), Field("arguments", Obj(c.arguments))])
  }

  function DataJson(data: seq<RequiredDatum>): Value {
    Arr(seq(|data|, i requires 0 <= i < |data| => DatumJson(data[i])))
  }

  function CallsJson(calls: seq<ProposedToolCall>): Value {
    Arr(seq(|calls|, i requires 0 <= i < |calls| => CallJson(calls[i])))
  }

  function MoneyJson(m: Option<Money>): Value {
    match m
    case None => Null
    case Some(money) => Obj(Entry("amount", money.amount, n => Int(n)) + money.others)
  }

  function CounterpartyJson(c: Option<Counterparty>): Value {
    match c
    case None => Null
    case Some(party) => Obj(Entry("is_new", party.isNew, b => Bool(b)) + party.others)
  }

  // The entry of an optional key.
  function Entry<T>(key: string, value: Option<T>, json: T -> Value): Fields {
    match value
    case None => []
    case Some(x) => [Field(key, json(x))]
  }

  lemma EntryIsWellFormed<T>(key: string, value: Option<T>, json: T -> Value, others: Dict)
    requires key !in Keys(others) && forall x :: WellFormed(json(x))
    ensures WellFormed(Obj(Entry(key, value, json) + others))
  {
    var fields := Entry(key, value, json) + others;
    forall i, j | 0 <= i < j < |fields|
      ensures fields[i].key != fields[j].key
    {
      if value.Some? {
        assert fields[j] == others[j - 1];
        if i == 0 {
          assert fields[j].key in Keys(others);
        } else {
          assert fields[i] == others[i - 1];
        }
      } else {
        assert fields == others;
      }
    }
  }

  function PlanJson(p: ActionPlan): Value {
    Obj([
      Field("action_type", Str(p.actionType)),
      Field("institution", Str(p.institution)),
      Field("product", OptStr(p.product)),
      Field("goal", Str(p.goal)),
      Field("assumptions", Arr(StrItems(p.assumptions))),
      Field("required_data", DataJson(p.requiredData)),
      Field("proposed_tool_calls", CallsJson(p.proposedToolCalls)),
      Field("expected_output", Str(p.expectedOutput)),
      Field("reversibility", Str(p.reversibility)),
      Field("estimated_risk", Str(p.estimatedRisk)),
      Field("approval_reason", OptStr(p.approvalReason)),
      Field("amount", MoneyJson(p.amount)),
      Field("counterparty", CounterpartyJson(p.counterparty))])
  }

  const PLAN_KEYS: seq<string> := [
    "action_type", "institution", "product", "goal", "assumptions", "required_data", "proposed_tool_calls",
    "expected_output", "reversibility", "estimated_risk", "approval_reason", "amount", "counterparty"]

  lemma PlanKeysDiffer()
    ensures forall i, j :: 0 <= i < j < |PLAN_KEYS| ==> PLAN_KEYS[i] != PLAN_KEYS[j]
  {
  }

  lemma PlanKeysAreDistinct(p: ActionPlan)
    ensures DistinctKeys(PlanJson(p).fields)
  {
    PlanKeysDiffer();
    assert forall i :: 0 <= i < 13 ==> PlanJson(p).fields[i].key == PLAN_KEYS[i];
  }

  lemma PlanJsonIsWellFormed(p: ActionPlan)
    ensures WellFormed(PlanJson(p))
  {
    var fields := PlanJson(p).fields;
    PlanKeysAreDistinct(p);
    DataAreWellFormed(p.requiredData);
    CallsAreWellFormed(p.proposedToolCalls);
    ExtrasAreWellFormed(p);
    assert forall i | 0 <= i < |fields| && i != 5 && i != 6 && i < 11 :: WellFormed(fields[i].value);
    assert WellFormed(fields[5].value) && WellFormed(fields[6].value);
  }

  lemma ExtrasAreWellFormed(p: ActionPlan)
    ensures WellFormed(MoneyJson(p.amount)) && WellFormed(CounterpartyJson(p.counterparty))
  {
    if p.amount.Some? {
      EntryIsWellFormed("amount", p.amount.value.amount, n => Int(n), p.amount.value.others);
    }
    if p.counterparty.Some? {
      EntryIsWellFormed("is_new", p.counterparty.value.isNew, b => Bool(b), p.counterparty.value.others);
    }
  }

  lemma DataAreWellFormed(data: seq<RequiredDatum>)
    ensures WellFormed(DataJson(data))
  {
    forall k | 0 <= k < |data| {
      DatumIsWellFormed(data[k]);
    }
  }

  lemma CallsAreWellFormed(calls: seq<ProposedToolCall>)
    ensures WellFormed(CallsJson(calls))
  {
    forall k | 0 <= k < |calls| {
      CallIsWellFormed(calls[k]);
    }
  }

  lemma DatumIsWellFormed(d: RequiredDatum)
    ensures WellFormed(DatumJson(d))
  {
  }

  lemma CallIsWellFormed(c: ProposedToolCall)
    ensures WellFormed(CallJson(c))
  {
  }
}
