// Security signals from untrusted text (app/security/detectors.py). Regular-expression
// search is a parameter; everything built on it is modelled.
module Detectors {
  import opened Wrappers

  // re.search(pattern, text, IGNORECASE) succeeds.
  type Search = (string, string) -> bool

  const INJECTION_PATTERNS: seq<string> := [
    @"system\s*override",
    @"ignore\s+(the\s+)?(previous|prior|above|user)",
    @"기존\s*지시\w*\s*무시",
    @"지시\w*\s*무시",
    @"무시하고",
    @"disregard\s+(the\s+)?(policy|instructions)",
    @"정책\w*\s*무시"
  ]

  const TOOL_CALL_HINTS: seq<string> := [@"도구를?\s*호출", @"call\s+\w+", @"호출하여", @"호출하세요"]

  const SENSITIVE_TOOL_NAMES: seq<string> := ["transfer_funds", "wire_transfer", "send_money", "disclose_account"]

  const EXFIL_PATTERNS: seq<string> := [
    @"검증\s*계좌",
    @"verification\s+account",
    @"잔액을?\s*.*(전송|보내)",
    @"send\s+.*(balance|account)",
    @"계좌\s*정보를?\s*.*(전송|공유|보내)"
  ]

  datatype RiskFlag = IndirectPromptInjection | UnauthorizedTool | DataExfiltrationAttempt

  datatype Signals = Signals(
    injectionDetected: bool,
    injectionMatches: seq<string>,
    attemptedUnauthorizedTools: seq<string>,
    exfiltrationDetected: bool,
    exfiltrationMatches: seq<string>)

  const NO_SIGNALS := Signals(false, [], [], false, [])

  predicate AnyCritical(s: Signals) {
    s.injectionDetected || |s.attemptedUnauthorizedTools| > 0 || s.exfiltrationDetected
  }

  function RiskFlags(s: Signals): seq<RiskFlag> {
    (if s.injectionDetected then [IndirectPromptInjection] else [])
    + (if |s.attemptedUnauthorizedTools| > 0 then [UnauthorizedTool] else [])
    + (if s.exfiltrationDetected then [DataExfiltrationAttempt] else [])
  }

  // The elements that pass a test, in order.
  function Filter(p: string -> bool, xs: seq<string>): (r: seq<string>)
    ensures forall x :: x in r <==> x in xs && p(x)
  {
    if |xs| == 0 then []
    else
      assert xs == xs[..|xs| - 1] + [xs[|xs| - 1]];
      Filter(p, xs[..|xs| - 1]) + (if p(xs[|xs| - 1]) then [xs[|xs| - 1]] else [])
  }

  function MatchesOf(search: Search, text: string, patterns: seq<string>): seq<string> {
    Filter(pattern => search(pattern, text), patterns)
  }

  function SensitiveTools(search: Search, text: string, allowedTools: seq<string>): seq<string> {
    Filter(tool => search(tool, text) && tool !in allowedTools, SENSITIVE_TOOL_NAMES)
  }

  // The tool that stands for a call that names none.
  const GENERIC_TOOL := "unknown_tool"

  function WithGeneric(generic: bool, tool: string, named: seq<string>): (tools: seq<string>)
    ensures forall t :: t in tools <==> if generic then t == tool else t in named
  {
    if generic then [tool] else named
  }

  // What a scan reports.
  function ScanOf(search: Search, untrusted: Option<string>, allowedTools: seq<string>): Signals {
    if untrusted.None? || untrusted.value == "" then NO_SIGNALS
    else
      var text := untrusted.value;
      var injection := MatchesOf(search, text, INJECTION_PATTERNS);
      var exfiltration := MatchesOf(search, text, EXFIL_PATTERNS);
      var named := SensitiveTools(search, text, allowedTools);
      var generic := |injection| > 0 && |named| == 0 && |MatchesOf(search, text, TOOL_CALL_HINTS)| > 0;
      Signals(|injection| > 0, injection, WithGeneric(generic, GENERIC_TOOL, named), |exfiltration| > 0, exfiltration)
  }

  method Matches(search: Search, text: string, patterns: seq<string>) returns (found: seq<string>)
    ensures found == MatchesOf(search, text, patterns)
  {
    found := [];
    var i := 0;
    while i < |patterns|
      invariant 0 <= i <= |patterns|
      invariant found == MatchesOf(search, text, patterns[..i])
    {
      assert patterns[..i + 1][..i] == patterns[..i];
      if search(patterns[i], text) {
        found := found + [patterns[i]];
      }
      i := i + 1;
    }
    assert patterns[..i] == patterns;
  }

  method Scan(search: Search, untrusted: Option<string>, allowedTools: seq<string>) returns (signals: Signals)
    ensures signals == ScanOf(search, untrusted, allowedTools)
  {
    signals := NO_SIGNALS;
    if untrusted.None? || untrusted.value == "" {
      return;
    }
    var text := untrusted.value;
    var injectionMatches := Matches(search, text, INJECTION_PATTERNS);
    if |injectionMatches| > 0 {
      signals := signals.(injectionDetected := true, injectionMatches := injectionMatches);
    }
    var hints := Matches(search, text, TOOL_CALL_HINTS);
    var named := UnauthorizedTools(search, text, allowedTools);
    signals := signals.(attemptedUnauthorizedTools := named);
    if |hints| > 0 && signals.injectionDetected && |signals.attemptedUnauthorizedTools| == 0 {
      signals := signals.(attemptedUnauthorizedTools := [GENERIC_TOOL]);
    }
    var exfilMatches := Matches(search, text, EXFIL_PATTERNS);
    if |exfilMatches| > 0 {
      signals := signals.(exfiltrationDetected := true, exfiltrationMatches := exfilMatches);
    }
  }

  method UnauthorizedTools(search: Search, text: string, allowedTools: seq<string>) returns (tools: seq<string>)
    ensures tools == SensitiveTools(search, text, allowedTools)
  {
    tools := [];
    ghost var test := tool => search(tool, text) && tool !in allowedTools;
    var i := 0;
    while i < |SENSITIVE_TOOL_NAMES|
      invariant 0 <= i <= |SENSITIVE_TOOL_NAMES|
      invariant tools == Filter(test, SENSITIVE_TOOL_NAMES[..i])
    {
      var tool := SENSITIVE_TOOL_NAMES[i];
      assert SENSITIVE_TOOL_NAMES[..i + 1][..i] == SENSITIVE_TOOL_NAMES[..i];
      if search(tool, text) && tool !in allowedTools {
        tools := tools + [tool];
      }
      i := i + 1;
    }
    assert SENSITIVE_TOOL_NAMES[..i] == SENSITIVE_TOOL_NAMES;
  }

  lemma MatchesMeaning(search: Search, text: string, patterns: seq<string>)
    ensures |MatchesOf(search, text, patterns)| > 0 <==> exists p :: p in patterns && search(p, text)
  {
    var found := MatchesOf(search, text, patterns);
    if |found| > 0 {
      assert found[0] in found;
    }
  }

  // The document names this tool, which is sensitive and not allowed.
  predicate NamesTool(search: Search, text: string, allowedTools: seq<string>, tool: string) {
    tool in SENSITIVE_TOOL_NAMES && search(tool, text) && tool !in allowedTools
  }

  // The document instructs some tool call without naming a tool that counts.
  predicate AsksForSomeTool(search: Search, text: string, allowedTools: seq<string>) {
    && (exists p | p in INJECTION_PATTERNS :: search(p, text))
    && (exists p | p in TOOL_CALL_HINTS :: search(p, text))
    && !(exists t | t in SENSITIVE_TOOL_NAMES :: NamesTool(search, text, allowedTools, t))
  }

  lemma NamesToolMeaning(search: Search, text: string, allowedTools: seq<string>)
    ensures forall t :: t in SensitiveTools(search, text, allowedTools) <==> NamesTool(search, text, allowedTools, t)
    ensures |SensitiveTools(search, text, allowedTools)| > 0 <==>
            exists t | t in SENSITIVE_TOOL_NAMES :: NamesTool(search, text, allowedTools, t)
  {
    var named := SensitiveTools(search, text, allowedTools);
    if |named| > 0 {
      assert named[0] in named;
    }
  }

  lemma GenericMeaning(search: Search, text: string, allowedTools: seq<string>)
    ensures AsksForSomeTool(search, text, allowedTools) <==>
            && |MatchesOf(search, text, INJECTION_PATTERNS)| > 0 && |MatchesOf(search, text, TOOL_CALL_HINTS)| > 0
            && |SensitiveTools(search, text, allowedTools)| == 0
  {
    NamesToolMeaning(search, text, allowedTools);
    MatchesMeaning(search, text, INJECTION_PATTERNS);
    MatchesMeaning(search, text, TOOL_CALL_HINTS);
  }

  // A tool counts as attempted exactly if it is such a tool, or the generic one if the
  // document asks for a tool without naming one.
  lemma AttemptsMeaning(search: Search, text: string, allowedTools: seq<string>)
    requires text != ""
    ensures var s := ScanOf(search, Some(text), allowedTools);
            forall t :: t in s.attemptedUnauthorizedTools <==>
              || NamesTool(search, text, allowedTools, t)
              || (t == GENERIC_TOOL && AsksForSomeTool(search, text, allowedTools))
  {
    NamesToolMeaning(search, text, allowedTools);
    GenericMeaning(search, text, allowedTools);
  }

  // Exactly which documents raise which signal, and what the lists of matches hold.
  lemma ScanMeaning(search: Search, text: string, allowedTools: seq<string>)
    requires text != ""
    ensures var s := ScanOf(search, Some(text), allowedTools);
            && (s.injectionDetected <==> exists p :: p in INJECTION_PATTERNS && search(p, text))
            && (s.exfiltrationDetected <==> exists p :: p in EXFIL_PATTERNS && search(p, text))
            && (forall p :: p in s.injectionMatches <==> p in INJECTION_PATTERNS && search(p, text))
            && (forall p :: p in s.exfiltrationMatches <==> p in EXFIL_PATTERNS && search(p, text))
            && (forall t :: t in s.attemptedUnauthorizedTools <==>
                  || NamesTool(search, text, allowedTools, t)
                  || (t == "unknown_tool" && AsksForSomeTool(search, text, allowedTools)))
  {
    MatchesMeaning(search, text, INJECTION_PATTERNS);
    MatchesMeaning(search, text, EXFIL_PATTERNS);
    AttemptsMeaning(search, text, allowedTools);
  }

  // The flags of an event name exactly the kinds of signals found.
  lemma FlagsMeaning(s: Signals)
    ensures IndirectPromptInjection in RiskFlags(s) <==> s.injectionDetected
    ensures UnauthorizedTool in RiskFlags(s) <==> |s.attemptedUnauthorizedTools| > 0
    ensures DataExfiltrationAttempt in RiskFlags(s) <==> s.exfiltrationDetected
    ensures RiskFlags(s) == [] <==> !AnyCritical(s)
  {
  }
}
