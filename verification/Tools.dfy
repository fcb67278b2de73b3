// The simulated tools (app/domain/adapters/registry.py): argument contracts, adapters,
// and the part of JSON Schema validation that the contracts use.
module Tools {
  import opened Wrappers
  import opened Json
  import opened Domain

  const READ_PROFILE := "read_loan_profile"
  const PREPARE := "prepare_rate_reduction_request"
  const SUBMIT := "submit_rate_reduction_request"

  datatype PropertyType = StringType | StringArrayType

  datatype Property = Property(name: string, kind: PropertyType)

  // {"type": "object", "additionalProperties": false, "required": ..., "properties": ...}
  datatype Schema = Schema(required: seq<string>, properties: seq<Property>)

  const PAIR_SCHEMA := Schema(
    ["institution", "product"],
    [Property("institution", StringType), Property("product", StringType)])

  const PREPARE_SCHEMA := Schema(
    ["institution", "product", "basis"],
    [Property("institution", StringType), Property("product", StringType), Property("basis", StringArrayType)])

  // TOOL_ARG_SCHEMAS.get(tool)
  function SchemaOf(tool: string): Option<Schema> {
    if tool == READ_PROFILE then Some(PAIR_SCHEMA)
    else if tool == PREPARE then Some(PREPARE_SCHEMA)
    else if tool == SUBMIT then Some(PAIR_SCHEMA)
    else None
  }

  // ---------------------------------------------------------------------------------
  // Draft202012Validator(schema).iter_errors(arguments)
  // ---------------------------------------------------------------------------------

  datatype SchemaError =
    | NoSchema(tool: string)
    | Unexpected(keys: seq<string>)
    | MissingRequired(key: string)
    | WrongType(key: string)
    | WrongItem(key: string, index: nat)

  predicate Declared(schema: Schema, key: string) {
    exists i | 0 <= i < |schema.properties| :: schema.properties[i].name == key
  }

  function UnexpectedKeys(schema: Schema, args: Fields): seq<string> {
    if |args| == 0 then []
    else (if Declared(schema, args[0].key) then [] else [args[0].key]) + UnexpectedKeys(schema, args[1..])
  }

  function MissingErrors(required: seq<string>, args: Fields): seq<SchemaError> {
    if |required| == 0 then []
    else (if required[0] in Keys(args) then [] else [MissingRequired(required[0])]) + MissingErrors(required[1..], args)
  }

  function ItemErrors(key: string, items: seq<Value>, from: nat): seq<SchemaError>
    decreases |items| - from
  {
    if from >= |items| then []
    else (if items[from].Str? then [] else [WrongItem(key, from)]) + ItemErrors(key, items, from + 1)
  }

  function PropertyErrors(p: Property, v: Value): seq<SchemaError> {
    match p.kind
    case StringType => if v.Str? then [] else [WrongType(p.name)]
    case StringArrayType => if v.Arr? then ItemErrors(p.name, v.items, 0) else [WrongType(p.name)]
  }

  function TypeErrors(properties: seq<Property>, args: Fields): seq<SchemaError> {
    if |properties| == 0 then []
    else
      (match Get(args, properties[0].name)
       case None => []
       case Some(v) => PropertyErrors(properties[0], v))
      + TypeErrors(properties[1..], args)
  }

  function SchemaErrors(schema: Schema, args: Fields): seq<SchemaError> {
    var unexpected := UnexpectedKeys(schema, args);
    (if |unexpected| > 0 then [Unexpected(unexpected)] else [])
    + MissingErrors(schema.required, args)
    + TypeErrors(schema.properties, args)
  }

  predicate HasType(kind: PropertyType, v: Value) {
    match kind
    case StringType => v.Str?
    case StringArrayType => v.Arr? && forall i | 0 <= i < |v.items| :: v.items[i].Str?
  }

  // The arguments meet the contract: every required key is there, no other key is, and
  // every value has the declared type.
  ghost predicate Conforms(schema: Schema, args: Fields) {
    && (forall k :: k in schema.required ==> k in Keys(args))
    && (forall k :: k in Keys(args) ==> Declared(schema, k))
    && (forall i | 0 <= i < |schema.properties| ::
          var found := Get(args, schema.properties[i].name);
          found.Some? ==> HasType(schema.properties[i].kind, found.value))
  }

  lemma {:induction false} ItemErrorsMeaning(key: string, items: seq<Value>, from: nat)
    requires from <= |items|
    ensures ItemErrors(key, items, from) == [] <==> forall i :: from <= i < |items| ==> items[i].Str?
    decreases |items| - from
  {
    if from < |items| {
      ItemErrorsMeaning(key, items, from + 1);
    }
  }

  lemma {:induction false} MissingMeaning(required: seq<string>, args: Fields)
    ensures MissingErrors(required, args) == [] <==> forall k :: k in required ==> k in Keys(args)
  {
    if |required| > 0 {
      MissingMeaning(required[1..], args);
      assert required == [required[0]] + required[1..];
    }
  }

  lemma {:induction false} UnexpectedMeaning(schema: Schema, args: Fields)
    ensures UnexpectedKeys(schema, args) == [] <==>
            forall i :: 0 <= i < |args| ==> Declared(schema, args[i].key)
  {
    if |args| > 0 {
      UnexpectedMeaning(schema, args[1..]);
      assert forall i :: 1 <= i < |args| ==> args[i] == args[1..][i - 1];
    }
  }

  lemma {:induction false} TypesMeaning(properties: seq<Property>, args: Fields)
    ensures TypeErrors(properties, args) == [] <==>
            forall i | 0 <= i < |properties| ::
              var found := Get(args, properties[i].name);
              found.Some? ==> HasType(properties[i].kind, found.value)
  {
    if |properties| > 0 {
      TypesMeaning(properties[1..], args);
      assert forall i :: 1 <= i < |properties| ==> properties[i] == properties[1..][i - 1];
      var found := Get(args, properties[0].name);
      if found.Some? && found.value.Arr? {
        ItemErrorsMeaning(properties[0].name, found.value.items, 0);
      }
    }
  }

  // The validator reports nothing exactly for arguments that meet the contract.
  lemma NoErrorsIffConforms(schema: Schema, args: Fields)
    ensures SchemaErrors(schema, args) == [] <==> Conforms(schema, args)
  {
    UnexpectedMeaning(schema, args);
    MissingMeaning(schema.required, args);
    TypesMeaning(schema.properties, args);
    assert (forall i :: 0 <= i < |args| ==> Declared(schema, args[i].key)) <==>
           (forall k :: k in Keys(args) ==> Declared(schema, k)) by {
      forall i | 0 <= i < |args| ensures args[i].key in Keys(args) {}
    }
  }

  // ---------------------------------------------------------------------------------
  // Adapters
  // ---------------------------------------------------------------------------------

  // One row of the synthetic loan data.
  datatype LoanProfile = LoanProfile(
    profileId: string, institution: string, product: string, data: Value, eligible: bool, reasonCodes: seq<string>)

  function FindProfile(profiles: seq<LoanProfile>, institution: Value, product: Value): Option<LoanProfile> {
    if |profiles| == 0 then None
    else if Str(profiles[0].institution) == institution && Str(profiles[0].product) == product then Some(profiles[0])
    else FindProfile(profiles[1..], institution, product)
  }

  function EligibilityJson(p: LoanProfile): Value {
    Obj([Field("eligible", Bool(p.eligible)), Field("reason_codes", Arr(StrItems(p.reasonCodes)))])
  }

  function ReadLoanProfile(profiles: seq<LoanProfile>, institution: Value, product: Value): Fields {
    match FindProfile(profiles, institution, product)
    case None => [Field("found", Bool(false))]
    case Some(p) => [
      Field("found", Bool(true)),
      Field("profile_id", Str(p.profileId)),
      Field("data", p.data),
      Field("eligibility", EligibilityJson(p)),
      Field("reversible", Bool(true))]
  }

  function PrepareRequest(institution: Value, product: Value, basis: Value): Fields {
    [Field("status", Str("PREPARED")), Field("institution", institution), Field("product", product),
     Field("basis", basis), Field("reversible", Bool(true))]
  }

  function SubmitRequest(institution: Value, product: Value): Fields {
    [Field("status", Str("SUBMITTED")), Field("institution", institution), Field("product", product),
     Field("reference", Str("DEMO-RATE-2026-001")), Field("reversible", Bool(true)),
     Field("reversal_window_days", Int(7))]
  }

  // ADAPTERS[tool](arguments); None when the tool has no adapter or when a key that the
  // adapter subscripts is absent (KeyError).
  function RunAdapter(profiles: seq<LoanProfile>, tool: string, args: Fields): Option<Fields> {
    match (Get(args, "institution"), Get(args, "product"))
    case (Some(institution), Some(product)) =>
      if tool == READ_PROFILE then Some(ReadLoanProfile(profiles, institution, product))
      else if tool == PREPARE then
        Some(PrepareRequest(institution, product,
          match Get(args, "basis") case Some(basis) => basis case None => Arr([])))
      else if tool == SUBMIT then Some(SubmitRequest(institution, product))
      else None
    case _ => None
  }

  predicate SaysSubmitted(result: Fields) {
    Get(result, "status") == Some(Str("SUBMITTED"))
  }

  // Validated arguments supply every key that an adapter looks up, and only the submitting
  // tool reports a submission.
  lemma ValidArgumentsRun(profiles: seq<LoanProfile>, tool: string, args: Fields)
    requires SchemaOf(tool).Some? && SchemaErrors(SchemaOf(tool).value, args) == []
    ensures RunAdapter(profiles, tool, args).Some?
    ensures SaysSubmitted(RunAdapter(profiles, tool, args).value) <==> tool == SUBMIT
  {
    RequiredKeysAreThere(tool, args);
    var institution := Get(args, "institution").value;
    var product := Get(args, "product").value;
    if tool == READ_PROFILE {
      ReadHasNoStatus(profiles, institution, product);
    } else if tool == PREPARE {
      var result := RunAdapter(profiles, tool, args).value;
      GetAt(result, 0);
      assert "PREPARED" != "SUBMITTED";
    } else {
      GetAt(SubmitRequest(institution, product), 0);
    }
  }

  lemma ReadHasNoStatus(profiles: seq<LoanProfile>, institution: Value, product: Value)
    ensures Get(ReadLoanProfile(profiles, institution, product), "status") == None
  {
    var result := ReadLoanProfile(profiles, institution, product);
    forall i | 0 <= i < |result|
      ensures result[i].key != "status"
    {
    }
  }

  // ---------------------------------------------------------------------------------
  // What the adapters answer
  // ---------------------------------------------------------------------------------

  predicate IsFor(p: LoanProfile, institution: Value, product: Value) {
    institution == Str(p.institution) && product == Str(p.product)
  }

  // The profile in this place is the first one for that bank and product.
  ghost predicate FirstFor(profiles: seq<LoanProfile>, i: nat, institution: Value, product: Value) {
    && i < |profiles| && IsFor(profiles[i], institution, product)
    && forall j | 0 <= j < i :: !IsFor(profiles[j], institution, product)
  }

  // The profile that is found is the first one, and none is found only if there is none.
  ghost predicate Finds(profiles: seq<LoanProfile>, institution: Value, product: Value, found: Option<LoanProfile>) {
    match found
    case Some(p) => exists i: nat :: FirstFor(profiles, i, institution, product) && profiles[i] == p
    case None => forall p | p in profiles :: !IsFor(p, institution, product)
  }

  lemma {:induction false} FindProfileMeaning(profiles: seq<LoanProfile>, institution: Value, product: Value)
    ensures Finds(profiles, institution, product, FindProfile(profiles, institution, product))
  {
    if |profiles| > 0 {
      if IsFor(profiles[0], institution, product) {
        assert FirstFor(profiles, 0, institution, product);
      } else {
        var rest := profiles[1..];
        assert profiles == [profiles[0]] + rest;
        FindProfileMeaning(rest, institution, product);
        var found := FindProfile(rest, institution, product);
        if found.Some? {
          var i: nat :| FirstFor(rest, i, institution, product) && rest[i] == found.value;
          assert FirstFor(profiles, i + 1, institution, product);
        }
      }
    }
  }

  // The answer names the bank and the product of the arguments.
  predicate NamesSame(result: Fields, args: Fields) {
    && Get(result, "institution") == Get(args, "institution")
    && Get(result, "product") == Get(args, "product")
  }

  // A profile in full, or that there is none.
  ghost predicate ShowsProfile(result: Fields, found: Option<LoanProfile>) {
    match found
    case None => result == [Field("found", Bool(false))]
    case Some(p) =>
      && Get(result, "found") == Some(Bool(true)) && Get(result, "profile_id") == Some(Str(p.profileId))
      && Get(result, "data") == Some(p.data) && ShowsEligibility(Get(result, "eligibility"), p)
  }

  ghost predicate ShowsEligibility(v: Option<Value>, p: LoanProfile) {
    && v.Some? && v.value.Obj?
    && Get(v.value.fields, "eligible") == Some(Bool(p.eligible))
    && Get(v.value.fields, "reason_codes") == Some(Arr(StrItems(p.reasonCodes)))
  }

  lemma ReadShowsProfile(profiles: seq<LoanProfile>, institution: Value, product: Value)
    ensures ShowsProfile(ReadLoanProfile(profiles, institution, product), FindProfile(profiles, institution, product))
  {
    var result := ReadLoanProfile(profiles, institution, product);
    var found := FindProfile(profiles, institution, product);
    if found.Some? {
      GetAt(result, 0);
      GetAt(result, 1);
      GetAt(result, 2);
      GetAt(result, 3);
      EligibilityShows(found.value);
    }
  }

  lemma EligibilityShows(p: LoanProfile)
    ensures ShowsEligibility(Some(EligibilityJson(p)), p)
  {
    var fields := EligibilityJson(p).fields;
    GetAt(fields, 0);
    GetAt(fields, 1);
  }

  lemma PrepareNames(institution: Value, product: Value, basis: Value)
    ensures var result := PrepareRequest(institution, product, basis);
            && Get(result, "status") == Some(Str("PREPARED")) && Get(result, "institution") == Some(institution)
            && Get(result, "product") == Some(product) && Get(result, "basis") == Some(basis)
  {
    var result := PrepareRequest(institution, product, basis);
    GetAt(result, 0);
    GetAt(result, 1);
    GetAt(result, 2);
    GetAt(result, 3);
  }

  lemma SubmitNames(institution: Value, product: Value)
    ensures var result := SubmitRequest(institution, product);
            && Get(result, "status") == Some(Str("SUBMITTED")) && Get(result, "institution") == Some(institution)
            && Get(result, "product") == Some(product)
  {
    var result := SubmitRequest(institution, product);
    GetAt(result, 0);
    GetAt(result, 1);
    GetAt(result, 2);
  }

  // What a tool answers to its arguments.
  ghost predicate Answers(profiles: seq<LoanProfile>, tool: string, args: Fields, result: Fields) {
    if tool == READ_PROFILE then
      && Get(args, "institution").Some? && Get(args, "product").Some?
      && exists found :: Finds(profiles, Get(args, "institution").value, Get(args, "product").value, found)
                         && ShowsProfile(result, found)
    else if tool == PREPARE then
      && NamesSame(result, args) && Get(result, "status") == Some(Str("PREPARED"))
      && Get(result, "basis") == Get(args, "basis")
    else
      tool == SUBMIT && NamesSame(result, args) && SaysSubmitted(result)
  }

  lemma RequiredKeysAreThere(tool: string, args: Fields)
    requires SchemaOf(tool).Some? && SchemaErrors(SchemaOf(tool).value, args) == []
    ensures Get(args, "institution").Some? && Get(args, "product").Some?
    ensures tool == PREPARE ==> Get(args, "basis").Some?
  {
    var schema := SchemaOf(tool).value;
    NoErrorsIffConforms(schema, args);
    assert "institution" == schema.required[0] && "product" == schema.required[1];
    assert "institution" in schema.required && "product" in schema.required;
    if tool == PREPARE {
      assert "basis" == schema.required[2];
      assert "basis" in schema.required;
    }
  }

  // Validated arguments are answered: with the first profile for that bank and product,
  // with a prepared request for it, or with its submission.
  lemma ValidArgumentsAreAnswered(profiles: seq<LoanProfile>, tool: string, args: Fields)
    requires SchemaOf(tool).Some? && SchemaErrors(SchemaOf(tool).value, args) == []
    ensures RunAdapter(profiles, tool, args).Some?
    ensures Answers(profiles, tool, args, RunAdapter(profiles, tool, args).value)
  {
    RequiredKeysAreThere(tool, args);
    var institution, product := Get(args, "institution").value, Get(args, "product").value;
    if tool == READ_PROFILE {
      FindProfileMeaning(profiles, institution, product);
      ReadShowsProfile(profiles, institution, product);
    } else if tool == PREPARE {
      PrepareNames(institution, product, Get(args, "basis").value);
    } else {
      SubmitNames(institution, product);
    }
  }
}
