# Delegation control plane: a verified model

An AI agent asks to act for a principal under a delegation policy. A deterministic gate
evaluates the agent's plan, a human may have to approve it, a gateway runs its tools, and
every step is recorded in a hash-chained trace that ends in a receipt. This project models
that control plane as one system and proves what it promises over whole runs, including runs
in which the process stops between any two commits and runs in which stored plans are
rewritten behind the gate's back.

## How the model is built

* `Json`, `JsonParser`, `CanonicalForm`: JSON values without floats, the canonical printer,
  a parser that inverts it, and the proof that two values print alike exactly when they are
  equal up to the order of object keys.
* `Hashing`, `Evidence`, `TraceStore`: plan hashes, chain hashes and the event table. SHA-256
  is an arbitrary function from text to text. Nothing assumes that it is injective: where two
  digests agree, the results give the two texts that collide.
* `JsonReader`, `Payloads`, `EventFacts`: plans and event bodies are read back from their JSON
  by key, so that two of them with the same JSON agree field by field.
* `Domain`, `Detectors`, `Tools`, `PolicyRules`, `Risk`, `PolicyEngine`, `Gateway`, `Planner`,
  `Receipts`: the rows, the detectors, the twenty rules and their fold into a decision, the
  gateway's enforcement loop, the planner and the receipt builder. Code that loops or updates
  variables is a method, proved against a function.
* `Verdicts`: what a decision says about delegation, plan, actors, document, approval and key,
  without naming rules.
* `Lifecycle`: each call on one request as its *trail*, the list of states that its commits
  leave. A call that completes ends in the last state of the trail; a process that stops
  part way leaves an earlier one.
* `System`: requests, policies, principals and agents together; a `Step` performs a call,
  whole or stopped after n commits; `Run` performs a list of steps.
* `Tables`, `ControlPlane`, `Service`: the database as an object with flat tables that all
  requests share, and the service as methods that update it statement by statement. Each
  method is proved to return the result and to commit exactly the trail of its call.
  `Service.Serve` serves any list of calls that run to completion and leaves exactly the
  state of the run, so everything proved about runs is about what the methods do. Stopped
  calls leave a prefix of those commits (`ControlPlane.CommittingPerforms`).
* `CaseSafety`, `GateStability`, `Settlement`, `Rows`, `Outcomes`, `Progress`, `Stopping`:
  what every commit keeps, what the gate's verdict still guarantees later, what the trace
  and the rows look like, what an execution comes to, what a commit may change, and at which
  commit a call leaves its state and has its receipt.
* `Authority`, `Issuing`, `RewriteFreeRuns`, `CrashFreeRuns`, `Standstill`, `Movement`,
  `ReceiptReach`, `Audit`, `Mandate`, `BuiltPlans`, `Incidents`, `HeldRun`: the results about
  whole runs.

Three notions recur. A *grant* is the history entry made when a human approves a payload,
and a *gateway run* is the one made when tools are called; no table holds them, and they are
what approval and execution rows are checked against. *Same* means equal up to the order of
object keys, at any depth. Every result about runs holds with processes that stop between
any two commits and with stored plans rewritten between any two calls, unless it says
otherwise: results of `RewriteFreeRuns` need that nobody rewrites a plan, and
`CrashFreeRuns.RunSettles` needs that no process stops while it serves the request in
question.

Where code and documentation differ, the model follows the code.

* The docstring of `app/domain/policy/engine.py` says that the engine never raises, but
  rules 4 to 11, 16, 18 and 19 assert that the delegation exists;
  `Authority.NoAssertionFires` proves that no run reaches such an assertion.
* The docstring of `app/domain/hashing.py` names RFC 8785, whose section 3.2.3 sorts keys by
  UTF-16 code units; the code sorts by code point.
* A receipt with status APPROVAL_REQUIRED is unreachable while nobody rewrites a plan
  (`RewriteFreeRuns.NoReceiptAwaitsApproval`). With rewrites it is reachable:
  `HeldRun.ReceiptCanAwaitApproval` is such a run, and `Issuing.AwaitingReceipts` says
  exactly which runs have one.
* The docstring of `app/domain/receipt/builder.py` promises a receipt for every blocked
  action. The receipt is lost exactly when a process stops after it has committed the refusal
  to the request's state and before it has stored the receipt: a call that stopped earlier
  can be repeated, so the request can still get one. `ReceiptReach.StoppedEvaluation` and
  `ReceiptReach.StoppedExecution` say at which commits that is, and
  `HeldRun.BlockedWithoutReceipt` is a run that leaves a request DENIED without a receipt.
* A request in DRAFT whose delegation is for rate reductions and names no institution cannot
  be planned: the planner subscripts an empty list. Only a custom plan, as the scenario
  runner stores it, moves it on (`ReceiptReach.StuckDraftStays`).
* `app/domain/receipt/builder.py` merges the outcome over the status of the execution row, so
  that a receipt with status FAILED_SAFE shows NO_EXECUTION as the actual outcome
  (`Outcomes.ShownStatus`).
* The docstring of `execute` promises the stored receipt for a repeated key. A blocked
  execution returns a receipt but stores no reply: `Authority.ExecutionIsIdempotent` says
  that a repeated key is answered exactly if the gate allowed the execution.

## Model

| member | source | states |
|---|---|---|
| JsonParser.ParseRender | app/domain/hashing.py:22-34 | a parser recovers every value, of any depth, from its printed text followed by any text that cannot continue a number |
| CanonicalForm.RenderIsInjective | app/domain/hashing.py:22-34 | printing is injective on values |
| CanonicalForm.CanonicalIffSame | app/domain/hashing.py:22-34 | canonical texts are equal exactly for values that are equal up to key order at any depth |
| CanonicalForm.EntryOrderIsInvisible | app/domain/hashing.py:25-27 | permuting the entries of an object leaves the canonical text unchanged |
| CanonicalForm.CanonicalHasNoNewline | app/domain/hashing.py:63-64 | a canonical text contains no newline |
| Json.SortedIsUnique | app/domain/hashing.py:31 | two key-sorted entry lists with the same entries are equal |
| Hashing.PlanHashBinds | app/domain/hashing.py:43-49 | two plan payloads have the same hash exactly when they are the same up to key order or their canonical texts collide |
| Hashing.SplitAtLastNewline | app/domain/hashing.py:64 | a text splits at its last newline in one way, whatever newlines the secret contains |
| Hashing.ChainPreimageSplits | app/domain/hashing.py:52-64 | the hashed text determines the secret, the predecessor hash and the body up to key order, and conversely |
| Evidence.ChainSealerSplits | app/domain/hashing.py:52-64 | under one secret the sealed text determines predecessor and body of an event, and conversely |
| Evidence.SealIsChainHash | app/domain/hashing.py:52-64 | the sealer used by the trace store is the chain hash of previous hash, body JSON and secret |
| Evidence.MstsIsWellFormed | app/domain/lifecycle.py:111-147 | an event body has no duplicate key at any depth when the outcomes inside it have none |
| EventFacts.BodyReadsBack | app/domain/lifecycle.py:111-147 | every recorded fact of an event body is read back from its JSON under its key: trace, time, principal, agent, intent, the six scope fields, sources, tool uses, recommended and executed action, review, decision, flags, outcome; likewise those of an intervention |
| EventFacts.SameBodySameRecord | app/domain/hashing.py:52-64 | two bodies whose JSON is the same up to key order record the same, field by field, the outcomes up to key order |
| EventFacts.SameRecordSameBody | app/domain/hashing.py:52-64 | and conversely, between bodies of the shapes that the service writes |
| TraceStore.VerifyChain | app/domain/trace/engine.py:66-77 | accepts exactly the lists in which every event names its predecessor's hash, from genesis on, and carries the hash of that link |
| TraceStore.PrefixLinked | app/domain/trace/engine.py:66-77 | every prefix of an accepted list is accepted |
| TraceStore.LastHashPinsHistory | app/domain/trace/engine.py:66-77 | two accepted lists with the same last hash have the same length and the same bodies position by position, or exhibit a collision or a preimage of the genesis value |
| TraceStore.OverwriteIsDetected | app/domain/trace/engine.py:3-7 | after overwriting one stored body the chain still verifies exactly when the new body is the same up to key order or the two texts collide |
| TraceStore.LatestIsLast | app/domain/trace/engine.py:24-32 | the row with the highest sequence is the last one inserted for its trace |
| TraceStore.SequencedIsSorted | app/domain/trace/engine.py:82-87 | reading a trace by sequence gives insertion order |
| TraceStore.EventTable.AppendEvent | app/domain/trace/engine.py:35-63 | adds one event with the next gap-free sequence and the link to the last event of its trace, keeps every trace verifiable, leaves all other traces as they were |
| TraceStore.EventTable.GetTimeline | app/domain/trace/engine.py:80-105 | returns the trace's rows by sequence and whether they verify; on a table kept by appends, exactly the appended events, verified |
| TraceStore.InterleavingsAreInvisible | app/domain/trace/engine.py:35-63 | after any interleaving of appends to any traces, each trace is what its own appends alone would give, numbered from 0, linked from genesis |
| Detectors.Scan | app/security/detectors.py:85-120 | the scan that fills in signals step by step ends with exactly those that ScanMeaning describes |
| Detectors.Matches | app/security/detectors.py:45-51 | returns the matching patterns in order |
| Detectors.UnauthorizedTools | app/security/detectors.py:103-105 | returns the named sensitive tools that are not allowed, in order |
| Detectors.ScanMeaning | app/security/detectors.py:85-120 | exactly which documents raise which signal: the lists hold exactly the matching patterns; a tool is attempted exactly if it is a named sensitive tool outside the allowlist, or the generic one where injection and a tool-call hint match and no such tool is named |
| Detectors.FlagsMeaning | app/security/detectors.py:64-82 | the flags of an event name exactly the kinds of signals found; none exactly if nothing is critical |
| Tools.NoErrorsIffConforms | app/domain/adapters/registry.py:18-47 | the validator reports nothing exactly when no undeclared key is present, every required key is, and every declared value has its type |
| Tools.ValidArgumentsRun | app/domain/adapters/registry.py:64-106 | validated arguments supply every key an adapter subscripts, and only the submitting tool reports SUBMITTED |
| Tools.FindProfileMeaning | app/domain/adapters/registry.py:57-61 | the profile found is the first one for that bank and product, and none is found only if there is none |
| Tools.ValidArgumentsAreAnswered | app/domain/adapters/registry.py:64-106 | a validated call is answered with that profile in full, with a prepared request, or with a submission, the last two naming the bank, the product and the basis of the arguments |
| PolicyRules.CollectArgumentErrors | app/domain/policy/rules.py:337-359 | collects the errors of all calls in order; none exactly when every call names a registered tool and meets its contract |
| PolicyRules.CallConforms | app/domain/policy/rules.py:337-359 | a call raises no error exactly when it names a registered tool and its arguments meet that tool's contract |
| PolicyRules.ArgumentsValidMeaning | app/domain/policy/rules.py:337-359 | rule 12 passes exactly when every call conforms |
| PolicyRules.TableEntry | app/domain/policy/rules.py:540-561 | each place of the rule table holds a different rule, under that rule's category |
| PolicyRules.TablePosition | app/domain/policy/rules.py:540-561 | every rule stands in the table |
| Risk.ComputeRisk | app/domain/policy/risk.py:15-65 | the step-by-step score is the clamped sum of its parts, always within 0 to 100, with the level of its bucket |
| Risk.ScoreIsMonotone | app/domain/policy/risk.py:15-55 | for a fixed approval flag a larger amount, more data or more signals never lower the score |
| Risk.BandsAreWorth | app/domain/policy/risk.py:12-20 | what the risk band adds: 5, 12 and 20 points over LOW, and as for MEDIUM in any other band |
| Risk.ReversibilityIsWorth | app/domain/policy/risk.py:28-32 | a partially reversible action adds 7 points, an irreversible one 15 |
| Risk.AmountIsWorth | app/domain/policy/risk.py:22-25 | one point for every full 100 000 won, twenty at most |
| Risk.SignalsAreWorth | app/domain/policy/risk.py:41-52 | injection adds 5 points, exfiltration 20; a required approval takes 10 away |
| Risk.LevelsRise | app/domain/policy/risk.py:58-65 | levels rise with the score, at 25, 50 and 75 |
| Risk.AnomalyIsAtLeastMedium | app/domain/policy/risk.py:46-65 | with a non-negative amount, exfiltration or an attempted tool found by the scan scores at least 25 |
| Risk.BoundsAreTight | app/domain/policy/risk.py:15-55 | by signals that scans return, 25 is attained under an anomaly, the parts can add up to 115 so that the upper clamp acts, and a negative amount reaches the lower clamp |
| PolicyEngine.DecideIsJoin | app/domain/policy/engine.py:27-42 | for any list of rules in any order the decision is the join of the effects of those that fail |
| PolicyEngine.JoinIsMaximum | app/domain/policy/engine.py:3-7 | the join is the greatest effect of a failed rule in QUARANTINE > DENY > REQUIRE_APPROVAL > ALLOW, and ALLOW when none has an effect |
| PolicyEngine.JoinIsMonotone | app/domain/policy/engine.py:3-7 | more failures never soften the decision |
| PolicyEngine.DecisionIsJoin | app/domain/policy/engine.py:45-54 | the decision over the rule table is the join over all twenty rules |
| PolicyEngine.RedundantRules | app/domain/policy/rules.py:175-191 | removing rules 5, 16 and 17 changes no decision |
| PolicyEngine.RiskFollowsSecurity | app/domain/policy/rules.py:435-448 | rule 17 fails exactly when one of rules 13 to 15 does |
| PolicyEngine.Evaluate | app/domain/policy/engine.py:45-79 | answers exactly when the delegation exists, with the results of all rules in order, their decision, and the risk of the context |
| PolicyEngine.DecisionWhenStaticPass | app/domain/policy/engine.py:27-54 | once the sixteen rules that do not depend on the moment pass, rules 3, 18, 19 and 20 alone decide, in this precedence |
| PolicyEngine.MildDecisionMeansPass | app/domain/policy/engine.py:27-54 | ALLOW or REQUIRE_APPROVAL means that no rule failed except rule 18, and that one exactly for REQUIRE_APPROVAL |
| PolicyEngine.AttemptedToolQuarantines | app/domain/policy/rules.py:363-376 | a tool that untrusted text tried to reach always leads to quarantine |
| Verdicts.DecisionIsVerdict | app/domain/policy/rules.py:78-536 | the exact decision: QUARANTINE for any signal or an approval that is not for this plan and version or has run out; else DENY unless the plan is within the delegation (purpose, action type, institution, product, amount at most the limit, no new counterparty under EXISTING_ONLY, data classes, allowlisted and conforming calls), the principal exists, the agent is ACTIVE, the delegation is in force and an execution has a key; else REQUIRE_APPROVAL exactly if the plan submits, the delegation asks for a human and nobody has granted it; else ALLOW |
| Verdicts.EvaluationMeaning | app/domain/policy/engine.py:45-79 | an evaluation states that verdict, the plan hash, identifier and version it is about, the score and its level, and one result per rule in the order of the table |
| Verdicts.StaticRulesMeaning | app/domain/policy/rules.py:78-448 | the rules that do not depend on the moment pass exactly for a plan within the delegation, actors in good standing and a document without signals |
| Verdicts.ResultMeaning | app/domain/policy/rules.py:60-536 | a rule is not applicable exactly where it has nothing to compare, and how severe each failure is |
| Verdicts.ApprovalRequiredMeaning | app/domain/policy/engine.py:57-66 | the risk score counts an approval as required exactly if the plan submits, the delegation asks for a human and nobody has granted this plan |
| Verdicts.LowerAmountIsMilder | app/domain/policy/rules.py:236-261 | asking for less never makes the decision harsher |
| Gateway.ExecutePlanTools | app/domain/gateway/gateway.py:20-79 | records one row per proposed call in order and returns the result of the last submission |
| Gateway.GatewayMeaning | app/domain/gateway/gateway.py:35-79 | a call is completed exactly when its tool is allowlisted and its arguments conform; there is an outcome exactly when a completed call submits |
| Gateway.GateAllowsSoGatewayRuns | app/domain/gateway/gateway.py:35-79 | when the gate allows a plan the gateway completes every call in order and blocks none; there is an outcome exactly when the plan submits |
| Gateway.CompletedIsAnswered | app/domain/gateway/gateway.py:35-79 | a completed row holds what its tool answers to the arguments of the row |
| Gateway.OutcomeNamesItsCall | app/domain/gateway/gateway.py:70-79 | the outcome is that of the last submission that ran, and names the bank and the product of its arguments |
| Gateway.OutcomeIsWellFormed | app/domain/adapters/registry.py:89-98 | whatever the gateway reports as outcome has no duplicate key at any depth |
| Planner.RatePlanIsInScope | app/domain/orchestrator/planner.py:24-78 | for a rate-reduction policy with an institution, the built plan passes all scope rules exactly when the purpose and the product list are non-empty and the three tools are allowlisted |
| Planner.BuiltPlanMeaning | app/domain/orchestrator/planner.py:24-100 | a rate plan is for the first bank and product of the delegation, claims exactly the allowed of its two data classes, and reads the profile, prepares with the reason codes of the first profile for that bank and product, and submits, every call naming the plan's own bank and product; any other plan has no calls and the user's request as its goal |
| Planner.SubmissionNamesPlan | app/domain/orchestrator/planner.py:56-69 | whatever the gateway submits for a plan whose calls name the plan's bank and product names them too |
| Planner.DocumentIsIgnored | app/domain/orchestrator/planner.py:3-6 | the plan does not depend on the untrusted document |
| Receipts.ReceiptMeaning | app/domain/receipt/builder.py:25-127 | COMPLETED exactly for a submitted execution in scope; QUARANTINED exactly if there is a flag or the approval was too old, BLOCKED exactly if out of scope otherwise, FAILED_SAFE exactly for a failed execution in scope; in scope exactly if no failed rule is named; the human-approval reason exactly in scope with a granted approval; status, hash and approver are those of the given approval; the actual outcome is that of the given execution key by key, with the status of its row only where the outcome has none; neither without one |
| Receipts.ReceiptCopies | app/domain/receipt/builder.py:95-127 | the request's words and trace, the plan's action and data, the tools called in order with their status, the delegation's identifier and version, the decision, and the level of the risk score |
| Receipts.FlagsNameCriticalFailures | app/domain/receipt/builder.py:89-93 | the flags are exactly the critical failures: what the detectors found, and an approval that is not for this plan |
| Receipts.FlagsTellQuarantine | app/domain/receipt/builder.py:89-93 | a quarantine shows as a flag, unless the approval was merely too old; without quarantine there is no flag |
| Receipts.ReasonsNameTheFailures | app/domain/receipt/builder.py:58-75 | a refusal names exactly the rules that failed, never the generic reason; a receipt in scope names no rule |
| Domain.PlanJsonIsWellFormed | app/schemas/plan.py:29-45 | a dumped plan has no duplicate key at any depth |
| Payloads.PlanReadsBack | app/domain/lifecycle.py:71-77 | validating a dumped plan gives the plan back, every field of it |
| Payloads.SameDumpsMeanSamePayload | app/schemas/plan.py:29-45 | two dumps are the same up to key order exactly if the plans agree field by field, with arguments, amount and counterparty up to key order |
| CaseSafety.CreateSafe | app/domain/lifecycle.py:153-186 | both commits of create_request satisfy the safety invariant |
| CaseSafety.PersistSafe | app/domain/lifecycle.py:189-225 | storing a plan before any decision keeps hash and payload together and the invariant at both commits |
| CaseSafety.PlanIsStored | app/domain/lifecycle.py:228-239 | the plan that create_plan returns is the one it stores, under its hash |
| CaseSafety.ApproveSafe | app/domain/lifecycle.py:313-350 | approving leaves exactly one approval row, for the stored hash, the request's version, and an approver who is not the agent |
| CaseSafety.RejectSafe | app/domain/lifecycle.py:353-383 | rejecting leaves one refusal and no grant |
| CaseSafety.ReviewIsRecorded | app/domain/lifecycle.py:313-383 | a review adds one row for the stored hash and the request's version by this reviewer, good for one hour if it grants; approving is refused exactly to the acting agent |
| CaseSafety.RewriteSafe | app/domain/scenarios.py:232-241 | rewriting payload and hash together keeps the invariant |
| CaseSafety.HandleBlockedSafe | app/domain/lifecycle.py:553-647 | every commit of a blocked outcome keeps the invariant: one execution that did not happen, one receipt, no gateway run |
| CaseSafety.EvaluateSafe | app/domain/lifecycle.py:253-310 | every commit of evaluate keeps the invariant |
| CaseSafety.AllowMeansAuthorized | app/domain/lifecycle.py:399-434 | the gate allows an execution only under a usable delegation of the request's version, with a key, and, where the policy asks for it, under an unexpired grant of a payload with the stored hash |
| CaseSafety.ExecuteSafe | app/domain/lifecycle.py:386-512 | every commit of execute keeps the invariant: at most one authorized gateway run, at most one execution that reports its key, its status and its outcome, at most one receipt, replies only for that run's key |
| GateStability.StaticsAgree | app/domain/policy/rules.py:78-448 | rules 1, 2 and 4 to 17 do not read time, delegation status, approval, key or hash |
| GateStability.RevocationKeepsGate | app/routers/delegations.py:86-101 | revoking a delegation withdraws no verdict of those rules |
| GateStability.EvaluateGated | app/domain/lifecycle.py:253-310 | after evaluate, a request that awaits approval or is allowed has a plan that passes those rules, and awaits approval exactly when the policy reserves submission for a human |
| GateStability.ExecuteGated | app/domain/lifecycle.py:386-512 | every commit of execute keeps what the gate has promised |
| GateStability.ReevaluationNeverImproves | app/domain/lifecycle.py:253-310 | evaluating again while awaiting approval gives REQUIRE_APPROVAL when the delegation is usable and DENY otherwise |
| GateStability.ApprovedExecutionDecision | app/domain/lifecycle.py:399-426 | from APPROVED: QUARANTINE exactly when the approval has expired, else DENY when the delegation is unusable or the key missing or empty, else ALLOW |
| GateStability.AllowedExecutionDecision | app/domain/lifecycle.py:399-426 | from ALLOWED: DENY when the delegation is unusable or the key missing or empty, else ALLOW; never QUARANTINE or REQUIRE_APPROVAL |
| Settlement.EvaluateSettles | app/domain/lifecycle.py:253-310 | a completed evaluate leaves trace, state, receipt, execution and incident in agreement |
| Settlement.HandleBlockedSettles | app/domain/lifecycle.py:553-647 | a blocked outcome ends with one receipt carrying the hash of the one RECEIPT_ISSUED event, one execution, and an incident exactly for quarantine |
| Settlement.HandleBlockedRecords | app/domain/lifecycle.py:564-576 | a blocked outcome adds one BLOCKED row for every tool that was attempted, in order |
| Settlement.ExecuteSettles | app/domain/lifecycle.py:386-512 | a completed execute leaves them in agreement, COMPLETED exactly for SUBMITTED; the tool-call rows are the calls of the allowed run, or blocked calls |
| Settlement.InterveneSettles | app/routers/operator.py:70-97 | an intervention changes neither what the trace tells nor the agreement of the rows |
| Outcomes.ExecutionReports | app/domain/lifecycle.py:386-512 | a gated call on a request without receipt or execution closes it with the receipt it returns, whose decision is the gate's, and one execution: SUBMITTED exactly for an allowed plan that submits |
| Outcomes.ReadyExecutionReports | app/domain/lifecycle.py:386-512 | the same of every call past its guards, in every committed state, including those that a stopped process left |
| Rows.HandleBlockedRows | app/domain/lifecycle.py:553-647 | from any state without receipt or execution, every commit of a blocked outcome holds no receipt or the one with its decision, sealed with the hash of the receipt event; the last one closes the request |
| Rows.ExecuteAllowedRows | app/domain/lifecycle.py:434-512 | from any state without receipt or execution, every commit of an allowed execution holds no receipt or the one with decision ALLOW, sealed; the last one closes the request, COMPLETED exactly for SUBMITTED |
| Outcomes.ExecutionOutcome | app/domain/lifecycle.py:399-461 | in every committed state whose gate promise holds, decision, receipt and execution are fixed by the approval's age, the delegation and the key |
| Outcomes.AllowedExecutionStoresReply | app/domain/lifecycle.py:503-512 | an allowed execution has a non-empty key and stores the receipt it returns under it |
| Outcomes.RewrittenPlanIsQuarantined | app/domain/policy/rules.py:487-518 | an approved request whose stored hash is no longer the approved one is quarantined whatever else holds |
| Outcomes.ApprovalReplayIsBlocked | app/domain/scenarios.py:212-244 | approve, rewrite, execute, in any committed state: unless the new plan has the approved hash the receipt says QUARANTINE and nothing is executed |
| Outcomes.HeldOnExecution | app/domain/policy/rules.py:452-518 | the gate asks for an approval on execution exactly when the request was ALLOWED and its stored plan passes all else but needs an approval; never from APPROVED |
| Outcomes.RefusedExecutionStoresNoReply | app/domain/lifecycle.py:426-432 | an execution that the gate does not allow closes the request without storing a reply |
| Outcomes.ShownStatus | app/domain/receipt/builder.py:85-87 | the receipt of an allowed execution shows SUBMITTED with status COMPLETED or NO_EXECUTION with status FAILED_SAFE, never the status of a failed row |
| Issuing.StepIssues | app/domain/receipt/builder.py:25-40 | a step on a committed state, whole or stopped, issues no receipt or the request's first one, sealed with the hash of its receipt event, and with status APPROVAL_REQUIRED exactly if the step was held back |
| Issuing.AwaitingReceipts | app/domain/receipt/builder.py:36-40 | in every run a request has a receipt with status APPROVAL_REQUIRED exactly if some step executed it held back, that is ALLOWED with a stored plan that needs an approval and passes all else, and did not stop before the sixth commit |
| Issuing.HeldCommits | app/domain/lifecycle.py:553-647 | an execution held back has exactly seven commits and holds its receipt from the sixth on |
| HeldRun.ReceiptCanAwaitApproval | app/domain/lifecycle.py:426-432 | there is such a run: open, store a harmless plan, evaluate to ALLOWED, rewrite it into one that submits, execute |
| HeldRun.BlockedWithoutReceipt | app/domain/receipt/builder.py:3-6 | there is a run that ends in DENIED without a receipt, so that no continuation issues one: open, store a harmless plan, evaluate after the delegation's window and stop after the third commit |
| Progress.ExecuteAdvances | app/domain/lifecycle.py:386-512 | every commit of execute only adds rows, events and replies, and never moves the request back |
| Progress.EvaluateAdvances | app/domain/lifecycle.py:253-310 | every commit of evaluate only adds rows and events, and never moves the request back |
| System.RunIsSafe | app/domain/lifecycle.py:153-512 | every run, with crashes and rewrites, keeps the safety invariant of every request |
| System.RunExtends | app/routers/delegations.py:54-101 | in every run records are only added, states only move on, and delegation versions change in status only, to REVOKED |
| Authority.SubmittedIsApproved | app/domain/lifecycle.py:313-461 | in every run with crashes and rewrites: a SUBMITTED execution has a gateway run with its key under a usable delegation of the request's version; where submission is reserved for a human, somebody other than the agent approved, within the approval's lifetime, a plan that agrees with the one that ran field by field, dicts up to key order, or the two canonical texts collide |
| Authority.SwapAfterApproval | app/domain/scenarios.py:228-244 | in every run: whatever plan takes the place of an approved one, executing it ends in quarantine without an execution, unless the plans agree field by field or their texts collide |
| Authority.ChangedGoalAfterApproval | app/domain/scenarios.py:228-244 | in every run, the replay scenario's change of the goal is quarantined, or exhibits a collision |
| Authority.AtMostOneGatewayRun | app/domain/lifecycle.py:394-460 | in every run with crashes and rewrites tools run at most once per request, at most one execution reports it, and neither ever changes |
| Authority.NewRunIsUsable | app/domain/policy/rules.py:120-152 | a step runs tools only under the request's stored delegation, active and inside its window at that time |
| Authority.RevocationStopsRuns | app/routers/delegations.py:86-101 | once a delegation version is revoked no later step runs tools under it |
| Authority.ReplayIsStable | app/domain/lifecycle.py:394-400 | once a reply is stored, after any further steps its key returns that receipt and writes nothing, and every other key is refused |
| Authority.ExecutionIsIdempotent | app/domain/lifecycle.py:386-400 | a completed execution returns a receipt; after any further steps its key returns that receipt and writes nothing exactly if the gate allowed the execution, and is refused otherwise; every other key is refused |
| Authority.NoAssertionFires | app/domain/policy/rules.py:156-158 | in every run evaluate and execute fail only by illegal transition, evaluate exactly outside PLAN_CREATED and APPROVAL_REQUIRED |
| Authority.RequestsHaveActors | app/domain/lifecycle.py:155-157 | in every run each request's delegation, principal and agent exist |
| RewriteFreeRuns.RunIsGated | app/domain/lifecycle.py:228-310 | in every run without rewrites, with crashes, what the gate promised still holds under the current delegation row |
| CrashFreeRuns.RunSettles | app/domain/lifecycle.py:475-647 | in every run in which no process stops while serving this request, its trace replays to its state, RECEIPT_ISSUED goes with exactly one receipt and execution, the receipt carries the hash of the one receipt event, COMPLETED exactly for SUBMITTED, incidents and blocked tools go with quarantine only, and the tool-call rows are, after an allowed execution, exactly the calls of its gateway run in order and completed, otherwise blocked calls, there exactly if the trace tells of them |
| RewriteFreeRuns.ExecutionOutcomeInRuns | app/domain/lifecycle.py:399-461 | in every run without rewrites, whatever stops and resumes, the exact outcome of executing an approved or allowed request |
| RewriteFreeRuns.ReevaluationInRuns | app/domain/lifecycle.py:253-310 | in every run without rewrites, evaluating again while awaiting approval never improves the decision |
| RewriteFreeRuns.NoReceiptAwaitsApproval | app/domain/receipt/builder.py:25-40 | in every run without rewrites, at every commit, no receipt has status APPROVAL_REQUIRED |
| Movement.CompletedCallMovesOn | app/domain/lifecycle.py:228-512 | from every committed state, a completed call that writes anything lowers the request's rank, except planning again, evaluating again, interventions and rewrites |
| Movement.MovesAreBounded | app/domain/lifecycle.py:3-7 | in every run, however long, crashed or rewritten, a request moves at most six times |
| Standstill.FinalStandsStill | app/domain/lifecycle.py:394-400 | once a request is closed, rejected, or left in DENIED, QUARANTINED, EXECUTING, EXECUTED or FAILED_SAFE, no later step changes its state or adds an evaluation, approval, tool call, execution, receipt, reply or gateway run |
| ReceiptReach.WhoCanBeReceipted | app/domain/receipt/builder.py:3-6 | in every run and from any moment on, some continuation whose clocks read no earlier than that moment issues a receipt for a request exactly if it has one or is not in such a state; a draft may need a custom plan |
| ReceiptReach.StoppedEvaluation | app/domain/lifecycle.py:253-310 | from every committed state, after a refused evaluation that stopped after n commits the request can still get a receipt exactly if n is below 3, so that it can be evaluated again, or the receipt was stored |
| ReceiptReach.StoppedExecution | app/domain/lifecycle.py:386-512 | from every committed state, after an execution, refused or allowed, that stopped after n commits the request can still get a receipt exactly if n is below 2, so that it can be executed again, or the receipt was stored |
| ReceiptReach.StuckDraftStays | app/domain/orchestrator/planner.py:24-32 | a draft under a rate-reduction delegation without institutions stays a draft through every run that stores no custom plan for it |
| Stopping.HandleBlockedReceipt | app/domain/lifecycle.py:553-647 | how many commits a blocked outcome makes, and that the receipt is there exactly from the last but one and the state unchanged until the last |
| Stopping.StoppedEvaluationState | app/domain/lifecycle.py:280-287 | between its third commit and its last a refused evaluation leaves the request QUARANTINED or DENIED, by the decision |
| Stopping.StoppedExecutionState | app/domain/lifecycle.py:426-432 | likewise a refused execution between its second commit and its last |
| Audit.RunKeepsTraces | app/domain/trace/engine.py:35-63 | in every run, with crashes and rewrites, every trace is gap-free, verifies, and holds well-formed bodies about this request, its principal, agent, intent and delegation, that say what their events are: no decision before the gate has decided, PENDING review exactly with REQUIRE_APPROVAL, APPROVED and REJECTED in the review events, ALLOW while tools run, blocked tools only where tools were blocked, QUARANTINE with an incident |
| Audit.RunVouches | app/domain/lifecycle.py:475-500 | in every run, at every commit, a receipt carries the hash of a receipt event of its request's trace, and the body of that event states the receipt's decision, plan, data and tools, whether a human approved and whether anything was executed |
| Audit.ReceiptPinsHistory | app/domain/lifecycle.py:475-500 | in every run the hash on a receipt pins the history up to the receipt event it was issued with, whose body states the receipt's facts: any list that verifies and ends in it records the same event by event and field by field, or exhibits a collision or a genesis preimage |
| Audit.OverwrittenEventIsDetected | app/domain/trace/engine.py:3-7 | in every run, after overwriting the body of any event the trace verifies only if the new body records the same field by field or the two texts collide; and it does then if the new body has the shape of the service's own |
| Mandate.RunsAreMandated | app/domain/lifecycle.py:399-461 | in every run with crashes and rewrites: every gateway run was made for an existing principal and an ACTIVE agent, on a document without signals, under a delegation in force, with a key and with a plan within that delegation, and reported what its tools answered |
| Mandate.RunIsWithinDelegation | app/domain/policy/rules.py:156-359 | in every run the delegation that the request names, as stored, permits every plan that ran |
| Mandate.SubmissionNamesWhatRan | app/domain/lifecycle.py:446-458 | in every run a SUBMITTED execution names the bank and the product of a submission of the plan that ran, and of the plan itself if the planner built it |
| BuiltPlans.RunsAreBuilt | app/domain/orchestrator/planner.py:3-6 | in every run in which nobody hands in or rewrites a plan of the request, its stored plan and the plan of its gateway run are the planner's for its own delegation |
| BuiltPlans.SubmissionNamesFirst | app/domain/orchestrator/planner.py:24-69 | in every such run whatever was submitted names the bank and the product that the delegation puts first |
| Incidents.RunTellsIncidents | app/domain/lifecycle.py:592-600 | in every run with crashes and rewrites every incident and every event that reports the scan carries the flags of the scan of the request's document, and an incident is closed exactly if one of its interventions closed it |
| Tables.OneTableChanges | app/db/models.py:81-232 | a statement that changes one table as one request sees it leaves all other rows of all requests as they were |
| Tables.RequestOpened | app/domain/lifecycle.py:159-172 | a request row under fresh identifiers starts with no rows in any table and touches no other request |
| Tables.EventAppended | app/domain/trace/engine.py:60-63 | an event appended to a request's trace is in no other request's trace |
| Tables.EndpointsDiffer | app/domain/lifecycle.py:395 | idempotency records of different requests never share an endpoint |
| Tables.Database.AppendEvent | app/domain/trace/engine.py:35-63 | appends to the request's own trace, in one commit, and changes nothing else |
| ControlPlane.CreateRequest | app/domain/lifecycle.py:153-186 | succeeds exactly when delegation, principal and agent exist, and then commits the trail of an opened request; its effect is that step of a run |
| ControlPlane.CreatePlan | app/domain/lifecycle.py:228-239 | returns the result and commits exactly the trail of create_plan |
| ControlPlane.StoreCustomPlan | app/domain/lifecycle.py:242-250 | returns the result and commits exactly the trail of store_custom_plan |
| ControlPlane.RewriteStoredPlan | app/domain/scenarios.py:232-241 | replaces payload and hash together in one commit |
| ControlPlane.Evaluate | app/domain/lifecycle.py:253-310 | returns the result and commits exactly the trail of evaluate |
| ControlPlane.Approve | app/domain/lifecycle.py:313-350 | returns the result and commits exactly the trail of approve |
| ControlPlane.Reject | app/domain/lifecycle.py:353-383 | returns the result and commits exactly the trail of reject |
| ControlPlane.HandleBlocked | app/domain/lifecycle.py:553-647 | commits exactly the trail of a blocked outcome and returns the stored receipt |
| ControlPlane.Execute | app/domain/lifecycle.py:386-512 | returns the result and commits exactly the trail of execute, replayed keys included |
| ControlPlane.AddIntervention | app/routers/operator.py:70-97 | records the intervention with its incident and appends its event to that incident's trace |
| ControlPlane.AddDelegation | app/routers/delegations.py:54-83 | adds the version under its identifier or, if that is empty, under the generated one; refuses exactly an existing version or a row that breaks a constraint |
| ControlPlane.LatestVersion | app/routers/delegations.py:91-95 | finds the highest version of a delegation, if there is any |
| ControlPlane.Revoke | app/routers/delegations.py:86-101 | revokes exactly the highest version and reports whether there was one |
| ControlPlane.ReadTimeline | app/domain/trace/engine.py:80-105 | a request's trace is read back as written, and verifies |
| ControlPlane.CommittingPerforms | app/domain/lifecycle.py:153-512 | a method that commits the trail of a call performs that step of a run, and its first n commits are what stopping after n commits leaves |
| Service.ServeStep | app/domain/lifecycle.py:153-512 | serving a step on the database has exactly the effect of the step on the abstract state |
| Service.Serve | app/domain/lifecycle.py:153-512 | serving any list of steps to completion leaves exactly the state of the run |

## Left out

- Concurrency: one call runs at a time; the code takes no row locks, so interleaved calls on one request are not covered.
- SHA-256 and UTF-8: one arbitrary function from text to text; lone surrogates, and the exception they raise, are not modelled.
- Floats and non-string keys in JSON values (section 3.2.2.3 of RFC 8785): no event body or plan of the service needs them.
- Regular-expression matching in the detectors: an arbitrary predicate on pattern and text; escaping of tool names is part of it.
- Evidence.MstsIsWellFormed: speaks of 15 of the 29 body fields; the identifier of an event and the fields that repeat the agent's record or a constant (jurisdiction, institution, role, model, autonomy and criticality levels, retention and the like) are not modelled.
- EventFacts.BodyReadsBack: reads the same 15 fields only, for the same reason.
- Message texts, headlines, labels, next actions, and the evidence dictionaries of rule results.
- Delegation rules: of counterparty_rules and approval_rules only the keys that the rules read; an amount is an integer and is_new a boolean, other entries of both dictionaries are carried into the plan hash.
- The product of a tool argument contract other than type, items, required, properties and additionalProperties: the three schemas use no more.
- Clock readings: one per call, shared by the gate, the approval's expiry and the event timestamps; the code reads the clock anew each time. Nothing is assumed about readings of different calls.
- Identifiers: uuid4 values are parameters; that a new one is unused is a precondition (`Tables.Unused`, and the incident identifiers of `ControlPlane.Evaluate` and `ControlPlane.Execute`); `Service.Serve` states it of the abstract state.
- Principals and agents: they are on file from the start and no call changes them, as no endpoint does.
- Service.ServeCustomPlan: in runs a custom plan is stored in DRAFT and PLAN_CREATED only, as its one caller does; `ControlPlane.StoreCustomPlan` has no such guard, like the code.
- Demo bootstrap and seeding, which wipe all rows: not a step.
- HTTP routing, envelopes, settings, list and read endpoints other than the timeline, Pydantic validation (taken as identity, but for that of a stored plan, `Payloads.ReadPlan`), scenario summaries and the benchmark.
- Evaluation rows: rule_set_version, identifiers and creation times; the newest approval is the last inserted.
