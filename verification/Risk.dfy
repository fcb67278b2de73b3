// The explanatory risk score (app/domain/policy/risk.py).
module Risk {
  import opened Wrappers
  import opened Domain
  import opened Detectors
  import opened PolicyRules

  datatype RiskLevel = LevelLow | LevelMedium | LevelHigh | LevelCritical

  function Min(a: int, b: int): int { if a <= b then a else b }

  function Max(a: int, b: int): int { if a >= b then a else b }

  // _CRITICALITY_BASE.get(band, 15)
  function CriticalityBase(band: string): int {
    if band == "LOW" then 10
    else if band == "MEDIUM" then 15
    else if band == "HIGH" then 22
    else if band == "CRITICAL" then 30
    else 15
  }

  // One point per 100 000 won, at most 20. Division rounds down, also below zero.
  function Exposure(plan: ActionPlan): int {
    if plan.amount.None? then 0 else Min(20, AmountOf(plan.amount.value) / 100000)
  }

  function Irreversibility(plan: ActionPlan): int {
    if plan.reversibility == "IRREVERSIBLE" then 15
    else if plan.reversibility == "PARTIALLY_REVERSIBLE" then 7
    else 0
  }

  function Novelty(plan: ActionPlan): int {
    if plan.counterparty.Some? && IsNew(plan.counterparty.value) then 10 else 0
  }

  predicate HasDocument(ctx: Context) {
    ctx.request.untrustedDocument.Some? && ctx.request.untrustedDocument.value != ""
  }

  function Points(condition: bool, n: int): int { if condition then n else 0 }

  predicate Anomaly(s: Signals) {
    s.exfiltrationDetected || |s.attemptedUnauthorizedTools| > 0
  }

  function RawScore(ctx: Context, approvalRequired: bool): int {
    CriticalityBase(ctx.plan.estimatedRisk)
    + Exposure(ctx.plan)
    + Irreversibility(ctx.plan)
    + Novelty(ctx.plan)
    + Min(10, 2 * |ctx.plan.requiredData|)
    + Points(HasDocument(ctx), 5)
    + Points(ctx.security.injectionDetected, 5)
    + Points(Anomaly(ctx.security), 20)
    - Points(approvalRequired, 10)
  }

  function RiskScore(ctx: Context, approvalRequired: bool): (score: int)
    ensures 0 <= score <= 100
  {
    Max(0, Min(100, RawScore(ctx, approvalRequired)))
  }

  function Level(score: int): RiskLevel {
    if score <= 24 then LevelLow
    else if score <= 49 then LevelMedium
    else if score <= 74 then LevelHigh
    else LevelCritical
  }

  method ComputeRisk(ctx: Context, approvalRequired: bool) returns (score: int, level: RiskLevel)
    ensures score == RiskScore(ctx, approvalRequired) && level == Level(score)
  {
    score := CriticalityBase(ctx.plan.estimatedRisk);
    if ctx.plan.amount.Some? {
      var amount := AmountOf(ctx.plan.amount.value);
      score := score + Min(20, amount / 100000);
    }
    assert score == CriticalityBase(ctx.plan.estimatedRisk) + Exposure(ctx.plan);
    ghost var soFar := score;
    if ctx.plan.reversibility == "IRREVERSIBLE" {
      score := score + 15;
    } else if ctx.plan.reversibility == "PARTIALLY_REVERSIBLE" {
      score := score + 7;
    }
    assert score == soFar + Irreversibility(ctx.plan);
    soFar := score;
    if ctx.plan.counterparty.Some? && IsNew(ctx.plan.counterparty.value) {
      score := score + 10;
    }
    assert score == soFar + Novelty(ctx.plan);
    score := score + Min(10, 2 * |ctx.plan.requiredData|);
    if HasDocument(ctx) {
      score := score + 5;
    }
    if ctx.security.injectionDetected {
      score := score + 5;
    }
    if ctx.security.exfiltrationDetected || |ctx.security.attemptedUnauthorizedTools| > 0 {
      score := score + 20;
    }
    if approvalRequired {
      score := score - 10;
    }
    score := Max(0, Min(100, score));
    level := Level(score);
  }

  // The second context is at least as exposed: a larger amount, more data, more signals.
  predicate AtLeastAsExposed(lesser: Context, greater: Context) {
    && greater.plan.estimatedRisk == lesser.plan.estimatedRisk
    && greater.plan.reversibility == lesser.plan.reversibility
    && greater.plan.counterparty == lesser.plan.counterparty
    && (lesser.plan.amount.Some? <==> greater.plan.amount.Some?)
    && (lesser.plan.amount.Some? ==> AmountOf(lesser.plan.amount.value) <= AmountOf(greater.plan.amount.value))
    && |lesser.plan.requiredData| <= |greater.plan.requiredData|
    && (HasDocument(lesser) ==> HasDocument(greater))
    && (lesser.security.injectionDetected ==> greater.security.injectionDetected)
    && (Anomaly(lesser.security) ==> Anomaly(greater.security))
  }

  lemma FloorIsMonotone(a: int, b: int)
    requires a <= b
    ensures a / 100000 <= b / 100000
  {
  }

  lemma ExposureIsMonotone(lesser: ActionPlan, greater: ActionPlan)
    requires lesser.amount.Some? <==> greater.amount.Some?
    requires lesser.amount.Some? ==> AmountOf(lesser.amount.value) <= AmountOf(greater.amount.value)
    ensures Exposure(lesser) <= Exposure(greater)
  {
    if lesser.amount.Some? {
      FloorIsMonotone(AmountOf(lesser.amount.value), AmountOf(greater.amount.value));
    }
  }

  // For a fixed approval flag, more exposure never lowers the score.
  lemma ScoreIsMonotone(lesser: Context, greater: Context, approvalRequired: bool)
    requires AtLeastAsExposed(lesser, greater)
    ensures RiskScore(lesser, approvalRequired) <= RiskScore(greater, approvalRequired)
  {
    ExposureIsMonotone(lesser.plan, greater.plan);
    assert CriticalityBase(lesser.plan.estimatedRisk) == CriticalityBase(greater.plan.estimatedRisk);
    assert Irreversibility(lesser.plan) == Irreversibility(greater.plan);
    assert Novelty(lesser.plan) == Novelty(greater.plan);
  }

  // --- What each factor is worth ------------------------------------------------------

  function InBand(ctx: Context, band: string): Context {
    ctx.(plan := ctx.plan.(estimatedRisk := band))
  }

  // From LOW to MEDIUM 5 points, to HIGH 7 more, to CRITICAL 8 more; any other band counts as
  // MEDIUM.
  lemma BandsAreWorth(ctx: Context, band: string, approvalRequired: bool)
    ensures var low := RawScore(InBand(ctx, "LOW"), approvalRequired);
            && RawScore(InBand(ctx, "MEDIUM"), approvalRequired) == low + 5
            && RawScore(InBand(ctx, "HIGH"), approvalRequired) == low + 12
            && RawScore(InBand(ctx, "CRITICAL"), approvalRequired) == low + 20
            && (band !in {"LOW", "HIGH", "CRITICAL"} ==> RawScore(InBand(ctx, band), approvalRequired) == low + 5)
  {
  }

  function Undoing(ctx: Context, reversibility: string): Context {
    ctx.(plan := ctx.plan.(reversibility := reversibility))
  }

  lemma ReversibilityIsWorth(ctx: Context, other: string, approvalRequired: bool)
    requires other !in {"IRREVERSIBLE", "PARTIALLY_REVERSIBLE"}
    ensures var reversible := RawScore(Undoing(ctx, other), approvalRequired);
            && RawScore(Undoing(ctx, "PARTIALLY_REVERSIBLE"), approvalRequired) == reversible + 7
            && RawScore(Undoing(ctx, "IRREVERSIBLE"), approvalRequired) == reversible + 15
  {
  }

  function Asking(ctx: Context, amount: int): Context {
    ctx.(plan := ctx.plan.(amount := Some(Money(Some(amount), []))))
  }

  lemma WonPerPoint(points: nat)
    ensures 100_000 * points / 100_000 == points
    ensures points > 0 ==> (100_000 * points - 1) / 100_000 == points - 1
  {
  }

  lemma OnlyExposureDiffers(ctx: Context, amount: int, approvalRequired: bool)
    ensures RawScore(Asking(ctx, amount), approvalRequired) ==
            RawScore(Asking(ctx, 0), approvalRequired) + Min(20, amount / 100_000)
  {
  }

  // One point for every 100 000 won up to two million, and none beyond.
  lemma AmountIsWorth(ctx: Context, points: nat, approvalRequired: bool)
    ensures var nothing := RawScore(Asking(ctx, 0), approvalRequired);
            && RawScore(Asking(ctx, 100_000 * points), approvalRequired) == nothing + Min(20, points)
            && (points > 0 ==>
                 RawScore(Asking(ctx, 100_000 * points - 1), approvalRequired) == nothing + Min(20, points - 1))
  {
    WonPerPoint(points);
    OnlyExposureDiffers(ctx, 100_000 * points, approvalRequired);
    OnlyExposureDiffers(ctx, 100_000 * points - 1, approvalRequired);
  }

  function Signalling(ctx: Context, injection: bool, exfiltration: bool): Context {
    ctx.(security := NO_SIGNALS.(injectionDetected := injection, exfiltrationDetected := exfiltration))
  }

  lemma SignalsAreWorth(ctx: Context, approvalRequired: bool)
    ensures var clean := RawScore(Signalling(ctx, false, false), approvalRequired);
            && RawScore(Signalling(ctx, true, false), approvalRequired) == clean + 5
            && RawScore(Signalling(ctx, false, true), approvalRequired) == clean + 20
    ensures RawScore(ctx, true) == RawScore(ctx, false) - 10
  {
  }

  function LevelRank(level: RiskLevel): nat {
    match level
    case LevelLow => 0
    case LevelMedium => 1
    case LevelHigh => 2
    case LevelCritical => 3
  }

  // Levels rise with the score, at 25, 50 and 75.
  lemma LevelsRise(a: int, b: int)
    requires a <= b
    ensures LevelRank(Level(a)) <= LevelRank(Level(b))
    ensures Level(24) == LevelLow && Level(25) == Level(49) == LevelMedium
    ensures Level(50) == Level(74) == LevelHigh && Level(75) == LevelCritical
  {
  }

  // Exfiltration or an unauthorized tool, found by the scan of the request's own document,
  // is never rated low unless the amount is negative; 25 is the least such score.
  lemma AnomalyIsAtLeastMedium(ctx: Context, search: Search, allowedTools: seq<string>, approvalRequired: bool)
    requires ctx.security == ScanOf(search, ctx.request.untrustedDocument, allowedTools)
    requires Anomaly(ctx.security)
    requires ctx.plan.amount.Some? ==> AmountOf(ctx.plan.amount.value) >= 0
    ensures RiskScore(ctx, approvalRequired) >= 25
    ensures Level(RiskScore(ctx, approvalRequired)) != LevelLow
  {
    if ctx.plan.amount.Some? {
      FloorIsMonotone(0, AmountOf(ctx.plan.amount.value));
    }
  }

  // Which patterns a search may find: one, or all.
  function Only(pattern: string): Search {
    (p: string, text: string) => p == pattern
  }

  function Anything(): Search {
    (p: string, text: string) => true
  }

  const EXFILTRATING := EXFIL_PATTERNS[1]

  lemma InjectionIsOther(pattern: string)
    requires pattern in INJECTION_PATTERNS
    ensures pattern != EXFILTRATING
  {
    assert |pattern| != |EXFILTRATING|;
  }

  // Some document raises an anomaly without injection.
  lemma SomeScanIsBare(text: string, allowedTools: seq<string>)
    requires text != ""
    ensures var s := ScanOf(Only(EXFILTRATING), Some(text), allowedTools);
            Anomaly(s) && !s.injectionDetected
  {
    var search := Only(EXFILTRATING);
    ScanMeaning(search, text, allowedTools);
    forall p | p in INJECTION_PATTERNS
      ensures !search(p, text)
    {
      InjectionIsOther(p);
    }
    assert EXFILTRATING in EXFIL_PATTERNS && search(EXFILTRATING, text);
  }

  // Some document raises both signals.
  lemma SomeScanIsFull(text: string, allowedTools: seq<string>)
    requires text != ""
    ensures var s := ScanOf(Anything(), Some(text), allowedTools);
            Anomaly(s) && s.injectionDetected
  {
    var search := Anything();
    ScanMeaning(search, text, allowedTools);
    assert EXFIL_PATTERNS[0] in EXFIL_PATTERNS && search(EXFIL_PATTERNS[0], text);
    assert INJECTION_PATTERNS[0] in INJECTION_PATTERNS && search(INJECTION_PATTERNS[0], text);
  }

  // The context of a request with this plan and document, as the given search scans it.
  function Scanned(ctx: Context, plan: ActionPlan, search: Search, document: Option<string>,
                   allowedTools: seq<string>): Context {
    ctx.(plan := plan, security := ScanOf(search, document, allowedTools),
         request := ctx.request.(untrustedDocument := document))
  }

  predicate Harmless(plan: ActionPlan) {
    && plan.amount == None && plan.counterparty == None && plan.requiredData == []
    && plan.reversibility == "REVERSIBLE" && plan.estimatedRisk == "LOW"
  }

  predicate Worst(plan: ActionPlan) {
    && plan.amount == Some(Money(Some(2_000_000), [])) && plan.counterparty == Some(Counterparty(Some(true), []))
    && |plan.requiredData| >= 5 && plan.reversibility == "IRREVERSIBLE" && plan.estimatedRisk == "CRITICAL"
  }

  lemma LeastAnomaly(ctx: Context)
    requires Harmless(ctx.plan) && HasDocument(ctx) && Anomaly(ctx.security) && !ctx.security.injectionDetected
    ensures RiskScore(ctx, true) == 25
  {
  }

  lemma MostExposed(ctx: Context)
    requires Worst(ctx.plan) && HasDocument(ctx) && Anomaly(ctx.security) && ctx.security.injectionDetected
    ensures RawScore(ctx, false) == 115
  {
  }

  lemma LeastExposed(ctx: Context, plan: ActionPlan)
    requires Harmless(plan) && ctx.plan == plan.(amount := Some(Money(Some(-1_000_001), [])))
    requires !HasDocument(ctx) && ctx.security == NO_SIGNALS
    ensures RawScore(ctx, false) == -1
  {
  }

  // The bounds are reached by what scans return: 25 with one anomaly and no injection, the upper clamp
  // where the parts add up to 115, and the lower clamp for a negative amount.
  lemma BoundsAreTight(ctx: Context, plan: ActionPlan, worst: ActionPlan, allowedTools: seq<string>)
    requires Harmless(plan) && Worst(worst)
    ensures var anomalous := Scanned(ctx, plan, Only(EXFILTRATING), Some("x"), allowedTools);
            Anomaly(anomalous.security) && RiskScore(anomalous, true) == 25
    ensures var exposed := Scanned(ctx, worst, Anything(), Some("x"), allowedTools);
            RawScore(exposed, false) == 115 && RiskScore(exposed, false) == 100
    ensures var negative := Scanned(ctx, plan.(amount := Some(Money(Some(-1_000_001), []))),
                                    Anything(), None, allowedTools);
            RawScore(negative, false) == -1 && RiskScore(negative, false) == 0
  {
    SomeScanIsBare("x", allowedTools);
    SomeScanIsFull("x", allowedTools);
    LeastAnomaly(Scanned(ctx, plan, Only(EXFILTRATING), Some("x"), allowedTools));
    MostExposed(Scanned(ctx, worst, Anything(), Some("x"), allowedTools));
    var negative := plan.(amount := Some(Money(Some(-1_000_001), [])));
    LeastExposed(Scanned(ctx, negative, Anything(), None, allowedTools), plan);
  }
}
