// What a dumped plan keeps (app/schemas/plan.py): validating a dump gives the plan back, and
// two dumps are the same exactly if the plans agree field by field.
module Payloads {
  import opened Wrappers
  import opened Json
  import opened JsonReader
  import opened Domain

  // --- ActionPlan.model_validate() ----------------------------------------------------

  function ReadDatum(v: Value): Option<RequiredDatum> {
    if !v.Obj? then None
    else match (TextIn(v.fields, "data_class"), TextIn(v.fields, "reason"))
      case (Some(dataClass), Some(reason)) => Some(RequiredDatum(dataClass, reason))
      case _ => None
  }

  function ReadData(items: seq<Value>): Option<seq<RequiredDatum>> {
    Collect(seq(|items|, i requires 0 <= i < |items| => ReadDatum(items[i])))
  }

  function ReadArguments(fields: Fields): Option<Dict>
    requires WellFormed(Obj(fields))
  {
    GetIsWellFormed(fields, "arguments");
    match Get(fields, "arguments")
    case None => Some([])
    case Some(Obj(arguments)) => Some(arguments)
    case _ => None
  }

  function ReadCall(v: Value): Option<ProposedToolCall>
    requires WellFormed(v)
  {
    if !v.Obj? then None
    else match (TextIn(v.fields, "tool"), ReadArguments(v.fields))
      case (Some(tool), Some(arguments)) => Some(ProposedToolCall(tool, arguments))
      case _ => None
  }

  function ReadCalls(items: seq<Value>): Option<seq<ProposedToolCall>>
    requires forall i :: 0 <= i < |items| ==> WellFormed(items[i])
  {
    Collect(seq(|items|, i requires 0 <= i < |items| => ReadCall(items[i])))
  }

  // The entries under all other keys.
  function Without(fields: Fields, key: string): (rest: Fields)
    ensures key !in Keys(rest) && forall e :: e in rest ==> e in fields
  {
    if |fields| == 0 then []
    else
      var rest := Without(fields[1..], key);
      assert fields == [fields[0]] + fields[1..];
      if fields[0].key == key then rest else [fields[0]] + rest
  }

  lemma {:induction false} WithoutIsWellFormed(fields: Fields, key: string)
    requires WellFormed(Obj(fields))
    ensures WellFormed(Obj(Without(fields, key)))
  {
    if |fields| > 0 {
      var tail := fields[1..];
      WithoutIsWellFormed(tail, key);
      forall e | e in Without(tail, key)
        ensures e.key != fields[0].key
      {
        var i :| 0 <= i < |tail| && tail[i] == e;
        assert fields[i + 1] == e;
      }
    }
  }

  // A money dict whose amount is an integer.
  function ReadMoney(v: Option<Value>): Option<Option<Money>>
    requires v.Some? ==> WellFormed(v.value)
  {
    match v
    case None => Some(None)
    case Some(Null) => Some(None)
    case Some(Obj(fields)) =>
      (match Get(fields, "amount")
       case None => Some(Some(Money(None, fields)))
       case Some(Int(n)) =>
         WithoutIsWellFormed(fields, "amount");
         Some(Some(Money(Some(n), Without(fields, "amount"))))
       case _ => None)
    case _ => None
  }

  // A counterparty dict whose is_new is a boolean.
  function ReadParty(v: Option<Value>): Option<Option<Counterparty>>
    requires v.Some? ==> WellFormed(v.value)
  {
    match v
    case None => Some(None)
    case Some(Null) => Some(None)
    case Some(Obj(fields)) =>
      (match Get(fields, "is_new")
       case None => Some(Some(Counterparty(None, fields)))
       case Some(Bool(b)) =>
         WithoutIsWellFormed(fields, "is_new");
         Some(Some(Counterparty(Some(b), Without(fields, "is_new"))))
       case _ => None)
    case _ => None
  }

  // The values under "required_data" and "proposed_tool_calls", which must be lists.
  function ReadDataIn(fields: Fields): Option<seq<RequiredDatum>> {
    match ItemsIn(fields, "required_data")
    case None => None
    case Some(items) => ReadData(items)
  }

  function ReadCallsIn(fields: Fields): Option<seq<ProposedToolCall>>
    requires WellFormed(Obj(fields))
  {
    GetIsWellFormed(fields, "proposed_tool_calls");
    match ItemsIn(fields, "proposed_tool_calls")
    case None => None
    case Some(items) => ReadCalls(items)
  }

  function ReadTextsIn(fields: Fields, key: string): Option<seq<string>> {
    match ItemsIn(fields, key)
    case None => None
    case Some(items) => ReadTexts(items)
  }

  function ReadMoneyIn(fields: Fields): Option<Option<Money>>
    requires WellFormed(Obj(fields))
  {
    GetIsWellFormed(fields, "amount");
    ReadMoney(Get(fields, "amount"))
  }

  function ReadPartyIn(fields: Fields): Option<Option<Counterparty>>
    requires WellFormed(Obj(fields))
  {
    GetIsWellFormed(fields, "counterparty");
    ReadParty(Get(fields, "counterparty"))
  }

  // ActionPlan.model_validate(payload); None is a ValidationError.
  function ReadPlan(v: Value): Option<ActionPlan>
    requires WellFormed(v)
  {
    if !v.Obj? then None
    else
      var f := v.fields;
      var actionType, institution := TextIn(f, "action_type"), TextIn(f, "institution");
      var product := OptTextIn(f, "product");
      var goal, assumptions := TextIn(f, "goal"), ReadTextsIn(f, "assumptions");
      var data, calls := ReadDataIn(f), ReadCallsIn(f);
      var output, reversibility := TextIn(f, "expected_output"), TextIn(f, "reversibility");
      var risk, reason := TextIn(f, "estimated_risk"), OptTextIn(f, "approval_reason");
      var amount, counterparty := ReadMoneyIn(f), ReadPartyIn(f);
      if actionType.Some? && institution.Some? && product.Some? && goal.Some? && assumptions.Some? && data.Some?
         && calls.Some? && output.Some? && reversibility.Some? && risk.Some? && reason.Some? && amount.Some?
         && counterparty.Some? then
        Some(ActionPlan(actionType.value, institution.value, product.value, goal.value, assumptions.value, data.value,
                        calls.value, output.value, reversibility.value, risk.value, reason.value, amount.value,
                        counterparty.value))
      else None
  }

  // --- A dump is read back ------------------------------------------------------------

  ghost predicate KeyedAsPlan(f: Fields) {
    Keyed(f, PLAN_KEYS) && DistinctKeys(f)
  }

  // The values of a dump.
  ghost predicate Dumps(f: Fields, p: ActionPlan) {
    && |f| == |PLAN_KEYS|
    && f[0].value == Str(p.actionType) && f[1].value == Str(p.institution) && f[2].value == OptStr(p.product)
    && f[3].value == Str(p.goal) && f[4].value == Arr(StrItems(p.assumptions))
    && f[5].value == DataJson(p.requiredData) && f[6].value == CallsJson(p.proposedToolCalls)
    && f[7].value == Str(p.expectedOutput) && f[8].value == Str(p.reversibility)
    && f[9].value == Str(p.estimatedRisk) && f[10].value == OptStr(p.approvalReason)
    && f[11].value == MoneyJson(p.amount) && f[12].value == CounterpartyJson(p.counterparty)
  }

  lemma PlanIsKeyed(p: ActionPlan)
    ensures KeyedAsPlan(PlanJson(p).fields)
  {
    PlanKeysAreDistinct(p);
  }

  lemma PlanDumps(p: ActionPlan)
    ensures Dumps(PlanJson(p).fields, p)
  {
  }

  lemma DatumReadsBack(d: RequiredDatum)
    ensures ReadDatum(DatumJson(d)) == Some(d)
  {
    GetAt(DatumJson(d).fields, 0);
    GetAt(DatumJson(d).fields, 1);
  }

  lemma CallReadsBack(c: ProposedToolCall)
    ensures WellFormed(CallJson(c)) && ReadCall(CallJson(c)) == Some(c)
  {
    CallIsWellFormed(c);
    GetAt(CallJson(c).fields, 0);
    GetAt(CallJson(c).fields, 1);
  }

  lemma WithoutNothing(fields: Fields, key: string)
    requires key !in Keys(fields)
    ensures Without(fields, key) == fields
  {
    if |fields| > 0 {
      assert fields[0].key in Keys(fields);
      assert forall i :: 0 <= i < |fields| - 1 ==> fields[1..][i].key in Keys(fields);
      WithoutNothing(fields[1..], key);
    }
  }

  // An entry in front of others is read and taken out again.
  lemma EntryReadsBack<T>(key: string, value: Option<T>, json: T -> Value, others: Dict)
    requires key !in Keys(others)
    ensures var fields := Entry(key, value, json) + others;
            && Get(fields, key) == (if value.Some? then Some(json(value.value)) else None)
            && Without(fields, key) == others
            && (value.None? ==> fields == others)
  {
    var fields := Entry(key, value, json) + others;
    WithoutNothing(others, key);
    if value.Some? {
      assert fields[1..] == others;
    } else {
      assert fields == others;
    }
  }

  lemma MoneyReadsBack(m: Option<Money>)
    ensures WellFormed(MoneyJson(m)) && ReadMoney(Some(MoneyJson(m))) == Some(m)
  {
    if m.Some? {
      EntryIsWellFormed("amount", m.value.amount, n => Int(n), m.value.others);
      EntryReadsBack("amount", m.value.amount, n => Int(n), m.value.others);
    }
  }

  lemma PartyReadsBack(c: Option<Counterparty>)
    ensures WellFormed(CounterpartyJson(c)) && ReadParty(Some(CounterpartyJson(c))) == Some(c)
  {
    if c.Some? {
      EntryIsWellFormed("is_new", c.value.isNew, b => Bool(b), c.value.others);
      EntryReadsBack("is_new", c.value.isNew, b => Bool(b), c.value.others);
    }
  }

  lemma DataReadBack(data: seq<RequiredDatum>)
    ensures ReadData(DataJson(data).items) == Some(data)
  {
    var items := DataJson(data).items;
    forall i | 0 <= i < |data| { DatumReadsBack(data[i]); }
    CollectAll(seq(|items|, i requires 0 <= i < |items| => ReadDatum(items[i])), data);
  }

  lemma CallsReadBack(calls: seq<ProposedToolCall>)
    ensures WellFormed(CallsJson(calls)) && ReadCalls(CallsJson(calls).items) == Some(calls)
  {
    var items := CallsJson(calls).items;
    CallsAreWellFormed(calls);
    forall i | 0 <= i < |calls| { CallReadsBack(calls[i]); }
    CollectAll(seq(|items|, i requires 0 <= i < |items| => ReadCall(items[i])), calls);
  }

  lemma NamesReadBack(f: Fields, p: ActionPlan)
    requires KeyedAsPlan(f) && Dumps(f, p)
    ensures TextIn(f, "action_type") == Some(p.actionType) && TextIn(f, "institution") == Some(p.institution)
    ensures OptTextIn(f, "product") == Some(p.product) && TextIn(f, "goal") == Some(p.goal)
  {
    TextIsFound(f, 0, "action_type", p.actionType);
    TextIsFound(f, 1, "institution", p.institution);
    OptTextIsFound(f, 2, "product", p.product);
    TextIsFound(f, 3, "goal", p.goal);
  }

  lemma RatingsReadBack(f: Fields, p: ActionPlan)
    requires KeyedAsPlan(f) && Dumps(f, p)
    ensures TextIn(f, "expected_output") == Some(p.expectedOutput)
    ensures TextIn(f, "reversibility") == Some(p.reversibility)
    ensures TextIn(f, "estimated_risk") == Some(p.estimatedRisk)
    ensures OptTextIn(f, "approval_reason") == Some(p.approvalReason)
  {
    TextIsFound(f, 7, "expected_output", p.expectedOutput);
    TextIsFound(f, 8, "reversibility", p.reversibility);
    TextIsFound(f, 9, "estimated_risk", p.estimatedRisk);
    OptTextIsFound(f, 10, "approval_reason", p.approvalReason);
  }

  lemma ListsReadBack(f: Fields, p: ActionPlan)
    requires KeyedAsPlan(f) && Dumps(f, p) && WellFormed(Obj(f))
    ensures ReadTextsIn(f, "assumptions") == Some(p.assumptions)
    ensures ReadDataIn(f) == Some(p.requiredData) && ReadCallsIn(f) == Some(p.proposedToolCalls)
  {
    ItemsAreFound(f, 4, "assumptions", StrItems(p.assumptions));
    ItemsAreFound(f, 5, "required_data", DataJson(p.requiredData).items);
    ItemsAreFound(f, 6, "proposed_tool_calls", CallsJson(p.proposedToolCalls).items);
    TextsReadBack(p.assumptions);
    DataReadBack(p.requiredData);
    CallsReadBack(p.proposedToolCalls);
  }

  lemma ExtrasReadBack(f: Fields, p: ActionPlan)
    requires KeyedAsPlan(f) && Dumps(f, p) && WellFormed(Obj(f))
    ensures ReadMoneyIn(f) == Some(p.amount) && ReadPartyIn(f) == Some(p.counterparty)
  {
    EntryIsFound(f, 11, "amount");
    EntryIsFound(f, 12, "counterparty");
    MoneyReadsBack(p.amount);
    PartyReadsBack(p.counterparty);
  }

  lemma EntriesReadBack(f: Fields, p: ActionPlan)
    requires KeyedAsPlan(f) && Dumps(f, p) && WellFormed(Obj(f))
    ensures ReadPlan(Obj(f)) == Some(p)
  {
    NamesReadBack(f, p);
    RatingsReadBack(f, p);
    ListsReadBack(f, p);
    ExtrasReadBack(f, p);
  }

  // Validating a dumped plan gives the plan back.
  lemma PlanReadsBack(p: ActionPlan)
    ensures WellFormed(PlanJson(p)) && ReadPlan(PlanJson(p)) == Some(p)
  {
    PlanJsonIsWellFormed(p);
    PlanIsKeyed(p);
    PlanDumps(p);
    EntriesReadBack(PlanJson(p).fields, p);
  }

  // --- Two dumps that are the same ----------------------------------------------------

  ghost predicate SameCalls(a: seq<ProposedToolCall>, b: seq<ProposedToolCall>) {
    && |a| == |b|
    && forall i | 0 <= i < |a| :: a[i].tool == b[i].tool && Same(Obj(a[i].arguments), Obj(b[i].arguments))
  }

  ghost predicate SameMoney(a: Option<Money>, b: Option<Money>) {
    && (a.Some? <==> b.Some?)
    && (a.Some? ==> a.value.amount == b.value.amount && Same(Obj(a.value.others), Obj(b.value.others)))
  }

  ghost predicate SameParty(a: Option<Counterparty>, b: Option<Counterparty>) {
    && (a.Some? <==> b.Some?)
    && (a.Some? ==> a.value.isNew == b.value.isNew && Same(Obj(a.value.others), Obj(b.value.others)))
  }

  // The plans agree field by field, the dicts among the fields up to key order.
  ghost predicate SamePayload(a: ActionPlan, b: ActionPlan) {
    && a.actionType == b.actionType && a.institution == b.institution && a.product == b.product
    && a.goal == b.goal && a.assumptions == b.assumptions && a.requiredData == b.requiredData
    && SameCalls(a.proposedToolCalls, b.proposedToolCalls)
    && a.expectedOutput == b.expectedOutput && a.reversibility == b.reversibility
    && a.estimatedRisk == b.estimatedRisk && a.approvalReason == b.approvalReason
    && SameMoney(a.amount, b.amount) && SameParty(a.counterparty, b.counterparty)
  }

  lemma SameDatum(a: RequiredDatum, b: RequiredDatum)
    ensures Same(DatumJson(a), DatumJson(b)) <==> a == b
  {
    var x, y := DatumJson(a).fields, DatumJson(b).fields;
    SameInPlace(x, y);
    assert Same(x[0].value, y[0].value) <==> a.dataClass == b.dataClass;
    assert Same(x[1].value, y[1].value) <==> a.reason == b.reason;
  }

  lemma SameData(a: seq<RequiredDatum>, b: seq<RequiredDatum>)
    ensures Same(DataJson(a), DataJson(b)) <==> a == b
  {
    if |a| == |b| {
      forall i | 0 <= i < |a|
        ensures Same(DataJson(a).items[i], DataJson(b).items[i]) <==> a[i] == b[i]
      {
        SameDatum(a[i], b[i]);
      }
    }
  }

  lemma SameCall(a: ProposedToolCall, b: ProposedToolCall)
    ensures Same(CallJson(a), CallJson(b)) <==> a.tool == b.tool && Same(Obj(a.arguments), Obj(b.arguments))
  {
    var x, y := CallJson(a).fields, CallJson(b).fields;
    SameInPlace(x, y);
    assert Same(x[0].value, y[0].value) <==> a.tool == b.tool;
    assert Same(x[1].value, y[1].value) <==> Same(Obj(a.arguments), Obj(b.arguments));
  }

  lemma SameCallLists(a: seq<ProposedToolCall>, b: seq<ProposedToolCall>)
    ensures Same(CallsJson(a), CallsJson(b)) <==> SameCalls(a, b)
  {
    if |a| == |b| {
      forall i | 0 <= i < |a|
        ensures Same(CallsJson(a).items[i], CallsJson(b).items[i]) <==>
                a[i].tool == b[i].tool && Same(Obj(a[i].arguments), Obj(b[i].arguments))
      {
        SameCall(a[i], b[i]);
      }
    }
  }

  // An optional entry in front of others.
  lemma SameEntries<T>(key: string, u: Option<T>, x: Fields, v: Option<T>, y: Fields, json: T -> Value)
    requires key !in Keys(x) && key !in Keys(y)
    requires forall s, t :: Same(json(s), json(t)) <==> s == t
    ensures Same(Obj(Entry(key, u, json) + x), Obj(Entry(key, v, json) + y)) <==> u == v && Same(Obj(x), Obj(y))
  {
    assert [] + x == x && [] + y == y;
    match (u, v)
    case (Some(s), Some(t)) =>
      var e, d := Field(key, json(s)), Field(key, json(t));
      if Same(Obj([e] + x), Obj([d] + y)) {
        OneLessStaysSame(e, x, d, y);
      }
      if s == t && Same(Obj(x), Obj(y)) {
        OneMoreStaysSame(e, x, d, y);
      }
    case (Some(s), None) => OneMoreDiffers(Field(key, json(s)), x, y);
    case (None, Some(t)) => OneMoreDiffers(Field(key, json(t)), y, x);
    case (None, None) =>
  }

  lemma SameAmounts(a: Option<Money>, b: Option<Money>)
    ensures Same(MoneyJson(a), MoneyJson(b)) <==> SameMoney(a, b)
  {
    if a.Some? && b.Some? {
      SameEntries("amount", a.value.amount, a.value.others, b.value.amount, b.value.others, n => Int(n));
    }
  }

  lemma SameParties(a: Option<Counterparty>, b: Option<Counterparty>)
    ensures Same(CounterpartyJson(a), CounterpartyJson(b)) <==> SameParty(a, b)
  {
    if a.Some? && b.Some? {
      SameEntries("is_new", a.value.isNew, a.value.others, b.value.isNew, b.value.others, b => Bool(b));
    }
  }

  ghost predicate SameAt(f: Fields, g: Fields, i: nat)
    requires i < |f| && i < |g|
  {
    Same(f[i].value, g[i].value)
  }

  lemma SameAtAll(f: Fields, g: Fields)
    requires |f| == |g| == |PLAN_KEYS|
    ensures (forall i :: 0 <= i < |f| ==> Same(f[i].value, g[i].value)) <==>
            && SameAt(f, g, 0) && SameAt(f, g, 1) && SameAt(f, g, 2) && SameAt(f, g, 3) && SameAt(f, g, 4)
            && SameAt(f, g, 5) && SameAt(f, g, 6) && SameAt(f, g, 7) && SameAt(f, g, 8) && SameAt(f, g, 9)
            && SameAt(f, g, 10) && SameAt(f, g, 11) && SameAt(f, g, 12)
  {
  }

  lemma SameTextValues(f: Fields, a: ActionPlan, g: Fields, b: ActionPlan)
    requires Dumps(f, a) && Dumps(g, b)
    ensures SameAt(f, g, 0) <==> a.actionType == b.actionType
    ensures SameAt(f, g, 1) <==> a.institution == b.institution
    ensures SameAt(f, g, 2) <==> a.product == b.product
    ensures SameAt(f, g, 3) <==> a.goal == b.goal
    ensures SameAt(f, g, 7) <==> a.expectedOutput == b.expectedOutput
    ensures SameAt(f, g, 8) <==> a.reversibility == b.reversibility
    ensures SameAt(f, g, 9) <==> a.estimatedRisk == b.estimatedRisk
    ensures SameAt(f, g, 10) <==> a.approvalReason == b.approvalReason
  {
  }

  lemma SameOtherValues(f: Fields, a: ActionPlan, g: Fields, b: ActionPlan)
    requires Dumps(f, a) && Dumps(g, b)
    ensures SameAt(f, g, 4) <==> a.assumptions == b.assumptions
    ensures SameAt(f, g, 5) <==> a.requiredData == b.requiredData
    ensures SameAt(f, g, 6) <==> SameCalls(a.proposedToolCalls, b.proposedToolCalls)
    ensures SameAt(f, g, 11) <==> SameMoney(a.amount, b.amount)
    ensures SameAt(f, g, 12) <==> SameParty(a.counterparty, b.counterparty)
  {
    SameTexts(a.assumptions, b.assumptions);
    SameData(a.requiredData, b.requiredData);
    SameCallLists(a.proposedToolCalls, b.proposedToolCalls);
    SameAmounts(a.amount, b.amount);
    SameParties(a.counterparty, b.counterparty);
  }

  lemma SameEntriesOfPlans(f: Fields, a: ActionPlan, g: Fields, b: ActionPlan)
    requires KeyedAsPlan(f) && Dumps(f, a) && KeyedAsPlan(g) && Dumps(g, b)
    ensures Same(Obj(f), Obj(g)) <==> SamePayload(a, b)
  {
    SameInPlace(f, g);
    SameAtAll(f, g);
    SameTextValues(f, a, g, b);
    SameOtherValues(f, a, g, b);
  }

  // Two dumps are the same up to key order exactly if the plans agree field by field.
  lemma SameDumpsMeanSamePayload(a: ActionPlan, b: ActionPlan)
    ensures Same(PlanJson(a), PlanJson(b)) <==> SamePayload(a, b)
  {
    PlanIsKeyed(a);
    PlanIsKeyed(b);
    PlanDumps(a);
    PlanDumps(b);
    SameEntriesOfPlans(PlanJson(a).fields, a, PlanJson(b).fields, b);
  }
}
