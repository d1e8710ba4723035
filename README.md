# ai-token-exo-bridge routing core, modelled in Dafny

This project models the core of the inference bridge's routing engine as the
Python source implements it, one Dafny module per source file. The bridge sends
inference requests to a local exo cluster or to external API providers, and the
core is what keeps those requests away from backends that cannot serve them:

- `HolmesianSolver` (`src/holmesian_solver.py`) rules out candidates by
  elimination. It checks, in the source's fixed order, whether the model is
  available, authenticated, free under free-only mode, within quota, approved
  and reachable. The survivors are scored and ranked, and a recommendation is
  derived: auto-select, guide the user to a resolution, or suggest a mode change.
- `AdvancedSelfHealing` (`src/advanced_self_healing.py`) classifies failures by
  status code and error text, and picks a remedy: an alternative model for a
  404, scope guidance plus rotation for a 403, rotation for rate limits, retries
  for timeouts. It also journals its actions and keeps health metrics per
  provider.
- `ReliakitIntegration` (`src/reliakit_integration.py`) is the health-check
  state machine (HEALTHY, FAILING, OFFLINE, RECOVERING) and the self-healing
  manager built on it.
- `CloudProviderHealth`, `ProviderPreflight`, `ProviderTokenRefresh`,
  `IntelligentTokenizer` and `ModelUiSync` cover health probing, cached model
  preflight validation, credential-change refresh, the model catalog, and the
  "zero ghost models" UI sync.
- `AutoFreeModels`, `OpenRouterFreeModels` and `ByokProviderRegistry` cover
  free-model highlighting, the OpenRouter free-model filter with its cache, and
  the BYOK provider ratings.
- `SecureKeyManager`, `PortUtils`, `LocalhostAutoDetector` and
  `HuggingFaceDiagnostic` cover the key store's bookkeeping, port search,
  localhost service detection, and the Hugging Face token diagnostic.

Shared helpers live in `Common` (Option and Result), `Strings` (ASCII case
folding, substring search, splitting, integer rendering), `Dicts` (Python's
insertion-ordered dict as an association list with distinct keys), `Filters`,
`Sorting` (stable insertion sort, as Python's `sorted` is stable) and
`JsonValues` (the JSON values the source reads from responses and configs).

Objects whose methods update their fields are Dafny classes. Each method states
the new value of every field it changes as a function of the old fields and its
inputs; `OpenRouterFreeModelsFilter` bundles its fields into one `State()`
value. The invariants the methods keep are proved as lemmas about those
functions. Pure code is written as
functions and lemmas. The world outside the program is passed in as parameters
or function-typed oracles:

- the clock (`now`);
- HTTP and socket outcomes, as datatypes describing what came back;
- port availability;
- hashing and encryption;
- float parsing and the platform's token counter.

## Where the code and the description differ

The model follows the code in each case below.

- The health state machine never leaves RECOVERING through successes.
  `src/reliakit_integration.py:135` promotes to HEALTHY only from FAILING or
  OFFLINE, so a check that recovers stays RECOVERING until it fails again.
- A 200 health reply whose non-empty body is not JSON counts first as a
  success and then, through the generic `except`, as a failure
  (`src/reliakit_integration.py:129-180`). The check is unhealthy, and the
  recovery and failure callbacks of both steps can fire.
- The Holmesian solver reports an unavailable candidate as API_KEY_MISSING,
  not MODEL_UNAVAILABLE. The solution built for it is marked unauthenticated,
  and the impossibility's reason tests authentication first
  (`src/holmesian_solver.py:205-216`, `:356`). The solver also degrades a
  survivor with `min()` over a plain `Enum`, which raises `TypeError`; see
  Findings.
- Ties between alternative providers go to the one inserted first, not the one
  with the lowest priority value.
- The self-healing manager's early returns (no alternative model, no healthy
  provider) do not append to the healing journal.
- Preflight validation reports VALID when the inference probe fails with
  anything other than 403. Its cache age is always about zero, because the
  cached dictionary carries no timestamp of its own.
- Token refresh resets health checks on a freshly constructed monitor, so the
  reset has no effect on shared state.
- `src/model_ui_sync.py:213` uses `Tuple`, which line 14 never imports. The
  model treats the module as importable.
- Port search returns the preferred port when it is free, whatever the port
  range. Binding a port outside 0..65535 raises `OverflowError`, which the
  availability check does not catch (`src/port_utils.py:24-31`). So a
  preferred port out of that range that is not excluded, or a negative port
  the sequential search reaches, makes `find_available_port` raise, and
  `get_port_info` raises for any such port. The model returns `BindOverflow`
  and `None` for these. The connection test of the localhost detector has the
  same gap (`src/localhost_auto_detector.py:153-164`). `scan_localhost` raises
  at the first scanned port outside 0..65535 and keeps its earlier detected
  nodes; the model returns `Err(port)`. `scan_localhost` with an empty `ports`
  list scans the common ports.
- Provider recommendations compare the difficulty ceiling by the value
  strings (`src/byok_provider_registry.py:374`), so a MODERATE ceiling admits
  an EXPERT provider. `GetRecommendedProviders`, `Eligible` and
  `RecommendedSpec` use the corrected order instead; `EligibleAsWritten` and
  `ModerateCeilingAsWritten` keep the code's comparison (see Findings).
- `SecureKeyManager.save_key` always reports success.
- The Hugging Face diagnostic counts an inference error with no status code,
  or an unrecognised one, as success with status 200. An empty whoami error
  whose payload is not a dictionary would crash. So would printing a truthy
  `orgs` that is not a list of dictionaries whose names are strings
  (`src/huggingface_diagnostic.py:80-84`), and a sample model id that is not
  a string. The model returns a crash outcome for all three.
- Preflight validation builds its cache key by slicing `api_key`
  (`src/provider_preflight.py:114`). A key that is null, a boolean, a number
  or a dictionary raises `TypeError` there, before the key check, and the
  exception also ends `validate_all_providers`. The model returns `None`.
- `filter_free_models` catches errors per model, but its handler calls `.get`
  on the element again (`src/openrouter_free_models.py:164`). An element that
  is not an object therefore raises out of the filter and out of
  `get_free_models` and its callers, before the cache is written.
- Loading token hashes stops at the first provider with a truthy key that is
  not a string, or with a truthy name that is a list or a dictionary. The
  whole loop sits in one `try` (`src/provider_token_refresh.py:50-61`), so the
  providers after it get no hash.

## Model

| member | source | states |
|---|---|---|
| HolmesianSolver.EvaluateViableIff | src/holmesian_solver.py:185-347 | a candidate survives evaluation exactly when it is available, authenticated, free when free-only mode is on, within quota, not awaiting approval and reachable |
| HolmesianSolver.EvaluateSurvivor | src/holmesian_solver.py:185-347 | a survivor is available and authenticated, free under free-only mode, degraded exactly when unhealthy, rate-limited or deprecated, and scores 0.7 × (100 − 30·unhealthy − 20·rate-limited − 40·deprecated) + 0.3 × trust score, the trust score defaulting to 50 |
| HolmesianSolver.SurvivorScoreBounds | src/holmesian_solver.py:330-331 | with a trust score in [0, 100], a survivor's score lies in [7, 100] |
| HolmesianSolver.EvaluateRejected | src/holmesian_solver.py:204-319 | an eliminated candidate is IMPOSSIBLE with score 0 and exactly one limitation |
| HolmesianSolver.EvaluateAsWrittenRaises | src/holmesian_solver.py:259-264 | a working, free, rate-limited candidate reaches `min(viability, DEGRADED)` on a plain Enum, which raises |
| HolmesianSolver.EvaluateAsWrittenAgrees | src/holmesian_solver.py:259-304 | the evaluation as written raises exactly for candidates that reach one of the two `min` calls, and elsewhere equals the corrected evaluation |
| HolmesianSolver.DescribeResolvable | src/holmesian_solver.py:349-412 | only MODEL_UNAVAILABLE is unresolvable, every other reason carries three resolution steps, and the reported reason is the given one exactly for the reasons with a branch of their own |
| HolmesianSolver.ReportedOwnBranch | src/holmesian_solver.py:360-404 | the reasons without a branch of their own are reported as CONFIGURATION_ERROR |
| HolmesianSolver.StepsCount | src/holmesian_solver.py:360-404 | MODEL_UNAVAILABLE has no resolution steps and every other reason has three |
| HolmesianSolver.ReasonOfEliminated | src/holmesian_solver.py:349-412 | the reason reported for an eliminated candidate follows its flags in the order of the checks; an unavailable candidate is reported as API_KEY_MISSING, so MODEL_UNAVAILABLE is never reported and every reported impossibility is resolvable |
| HolmesianSolver.RankOrders | src/holmesian_solver.py:414-429 | the ranking is a permutation of its input, ordered by tier (OPTIMAL first) and then by score descending, stable among equal keys |
| HolmesianSolver.SolvePartitions | src/holmesian_solver.py:164-176 | each candidate lands in exactly one of the two outputs; no kept solution is impossible, unavailable or unauthenticated, and under free-only mode every kept solution is free and needs no payment |
| HolmesianSolver.SurvivorsAdmissible | src/holmesian_solver.py:168-176 | each kept solution is the evaluation of a candidate that passes every elimination check |
| HolmesianSolver.FirstResolvableIsFirst | src/holmesian_solver.py:488-510 | the guidance candidate exists exactly when some impossibility is resolvable, and it is the first resolvable one |
| HolmesianSolver.OptimalsAreOptimal | src/holmesian_solver.py:462-463 | the optimal solutions are exactly the OPTIMAL ones |
| HolmesianSolver.OptimalsSingle | src/holmesian_solver.py:462-470 | there is exactly one optimal solution exactly when exactly one index holds an OPTIMAL solution, and the optimal list is then that solution |
| HolmesianSolver.Solver.constructor | src/holmesian_solver.py:120-139 | the solver keeps its three flags and starts with no impossibilities and no evaluation time |
| HolmesianSolver.Solver.Solve | src/holmesian_solver.py:141-183 | `solve` returns the ranked survivors and the impossibilities in input order, with `free_only` forced by free mode, and stores the impossibilities and the evaluation time |
| HolmesianSolver.RecommendationRules | src/holmesian_solver.py:431-535 | each action holds exactly under its own condition: `error` when there are neither solutions nor impossibilities; `guide_resolution`, from the first resolvable impossibility, when there are no solutions and some impossibility is resolvable; `suggest_mode_change` when there are no solutions and none is resolvable; `auto_select` of the lone solution when there is one and auto-selection is on; otherwise `choose_from_optimal` when some solution is OPTIMAL, auto-selecting exactly when it is the only OPTIMAL one and auto-selection is on, and `choose_with_compromises` when none is; no other action carries an auto-selection or a primary impossibility |
| HolmesianSolver.NoDeadEnd | src/holmesian_solver.py:431-535 | after solving at least one candidate, the recommendation is never `error` and never `suggest_mode_change` |
| HolmesianSolver.Autocorrect | src/holmesian_solver.py:538-563 | `holmesian_autocorrect` returns the ranked survivors and exactly the recommendation of a solver that auto-selects a single solution, for the impossibilities that `solve` reports, so `RecommendationRules` describes it; for at least one candidate it is neither `error` nor `suggest_mode_change` |
| AdvancedSelfHealing.MessageRulesChain | src/advanced_self_healing.py:191-207 | the ordered rule table gives the same answer as the chain of message tests, first match winning |
| AdvancedSelfHealing.MessageDecisionByRules | src/advanced_self_healing.py:191-209 | the message decision is the first matching rule of the table, UNKNOWN when none matches |
| AdvancedSelfHealing.ClassifyCodes | src/advanced_self_healing.py:174-188 | codes 401, 403, 404, 429, 402, 400 and every code from 500 up map to their reasons whatever the message says |
| AdvancedSelfHealing.ClassifyByMessageRules | src/advanced_self_healing.py:174-209 | without a recognised code (none, 0 or another one) the lower-cased message decides by the rule table, so the result ignores case |
| AdvancedSelfHealing.EmptyMessageUnknown | src/advanced_self_healing.py:191-209 | an empty message classifies as UNKNOWN |
| AdvancedSelfHealing.ParsePermissionRequirements | src/advanced_self_healing.py:412-428 | the scopes are non-empty and distinct; missing or empty details give the default pair; otherwise the scopes mentioned appear in the order inference, chat.completions, models:read, or the default pair when none is mentioned |
| AdvancedSelfHealing.SuccessRateBounds | src/advanced_self_healing.py:81-85 | the success rate lies in [0, 100] and is 0 with no requests |
| AdvancedSelfHealing.FailedRecordSpec | src/advanced_self_healing.py:449-478 | a failure creates the record if missing, adds one request and one consecutive failure, clears the success streak, counts the reason, and leaves the provider healthy exactly while failures stay below 3 |
| AdvancedSelfHealing.SucceededRecordSpec | src/advanced_self_healing.py:480-504 | a success creates the record if missing, clears the failure streak, adds one success and one request, makes the provider healthy and adds a non-empty model to the current models at most once |
| AdvancedSelfHealing.ThreeFailuresThenSuccess | src/advanced_self_healing.py:449-504 | three failures in a row make a provider unhealthy and one success heals it |
| AdvancedSelfHealing.PutHealthOk | src/advanced_self_healing.py:449-478 | storing a well-formed record under its provider's name keeps the health table well formed |
| AdvancedSelfHealing.HealthyOthers | src/advanced_self_healing.py:436-440 | the candidates for rotation are drawn from the health table and never outnumber it |
| AdvancedSelfHealing.HealthyOthersMembers | src/advanced_self_healing.py:436-440 | the candidates are exactly the healthy records of the other providers |
| AdvancedSelfHealing.HealthyOthersConcat | src/advanced_self_healing.py:436-440 | the candidates of a concatenated table are the candidates of each part, in order |
| AdvancedSelfHealing.HealthyOthersOrder | src/advanced_self_healing.py:436-440 | the candidates keep the insertion order of the table |
| AdvancedSelfHealing.HealthyOthersDistinct | src/advanced_self_healing.py:436-440 | the candidates have distinct names |
| AdvancedSelfHealing.HealthyAlternativeNone | src/advanced_self_healing.py:430-447 | there is no alternative exactly when no other provider is healthy |
| AdvancedSelfHealing.HealthyAlternativeEntry | src/advanced_self_healing.py:430-447 | the alternative is the first candidate of maximal success rate, an entry of the table |
| AdvancedSelfHealing.HealthyAlternativeMaximal | src/advanced_self_healing.py:430-447 | no healthy other provider has a higher success rate than the alternative |
| AdvancedSelfHealing.HealthyAlternativeSpec | src/advanced_self_healing.py:430-447 | the alternative is never the failing provider, is healthy, and has a maximal success rate among the healthy others |
| AdvancedSelfHealing.HealthyAlternativeFirstOnTies | src/advanced_self_healing.py:430-447 | ties go to the provider inserted first, not to any priority: every healthy provider before the alternative rates strictly lower |
| AdvancedSelfHealing.JournalAllKeepsNewest | src/advanced_self_healing.py:506-521 | journaling actions one by one leaves the newest `max_journal_size` of everything journaled, newest last |
| AdvancedSelfHealing.JournaledIffNoAlternative | src/advanced_self_healing.py:211-325 | the actions reach the journal exactly when no alternative provider is returned, and then no model is returned either |
| AdvancedSelfHealing.RecordedHealth | src/advanced_self_healing.py:228-230 | after the failure is recorded the health table is well formed and holds the failing provider's record |
| AdvancedSelfHealing.WithUnavailableSpec | src/advanced_self_healing.py:327-366 | marking a model unavailable changes only that provider's list of unavailable models and adds the model once |
| AdvancedSelfHealing.WithPermissionIssueSpec | src/advanced_self_healing.py:368-410 | recording a permission issue changes only that provider's list of issues and adds the issue once |
| AdvancedSelfHealing.RespondKeepsHealth | src/advanced_self_healing.py:211-325 | every response keeps the health table well formed and holds a record for the failing provider |
| AdvancedSelfHealing.RespondDispatch | src/advanced_self_healing.py:211-325 | `handle_provider_failure` first records the failure and then takes the branch for its reason |
| AdvancedSelfHealing.RespondHealth | src/advanced_self_healing.py:211-325 | only MODEL_NOT_FOUND and PERMISSION_ERROR change the health table beyond the recorded failure |
| AdvancedSelfHealing.RemedyModelNotFound | src/advanced_self_healing.py:236-243 | MODEL_NOT_FOUND counts the failure, marks the model unavailable once and returns the catalog's first alternative when its id is non-empty; its one action succeeds exactly when the catalog offered an alternative |
| AdvancedSelfHealing.ModelNotFoundOutcome | src/advanced_self_healing.py:327-366 | the model-not-found handler's action, provider and model follow the catalog's first alternative |
| AdvancedSelfHealing.RemedyPermissionError | src/advanced_self_healing.py:245-262 | PERMISSION_ERROR records the issue once, emits the guidance with the scopes parsed from the details, then rotates to the healthy alternative, never the failing provider, keeping the model |
| AdvancedSelfHealing.PermissionOutcome | src/advanced_self_healing.py:368-410 | the guidance action names the provider, the reason and the parsed scopes |
| AdvancedSelfHealing.PermissionRotation | src/advanced_self_healing.py:252-262 | the rotation half of the permission branch returns the alternative with the same model, or nothing |
| AdvancedSelfHealing.RemedyRateOrQuota | src/advanced_self_healing.py:264-280 | RATE_LIMIT and QUOTA_EXCEEDED rotate to the healthy alternative keeping the model, or return nothing |
| AdvancedSelfHealing.RateOrQuotaOutcome | src/advanced_self_healing.py:264-280 | the rotation action records the reason's value and the two providers |
| AdvancedSelfHealing.RemedyConnectivity | src/advanced_self_healing.py:282-305 | TIMEOUT and CONNECTION_ERROR retry the same provider and model while the consecutive failures, this one included, stay below the retry limit, and from the limit on rotate like a rate limit |
| AdvancedSelfHealing.ConnectivityOutcome | src/advanced_self_healing.py:282-305 | the retry action carries the failure count; the rotation action marks the retries as exceeded |
| AdvancedSelfHealing.RemedyNoAlternative | src/advanced_self_healing.py:307-325 | AUTH_ERROR only emits a notify-user action, and the other reasons only count the failure, both returning no provider and no model |
| AdvancedSelfHealing.AdvancedSelfHealingManager.constructor | src/advanced_self_healing.py:118-154 | the manager keeps the catalog and the retry limit, and starts with no health records and an empty journal |
| AdvancedSelfHealing.AdvancedSelfHealingManager.RecordFailure | src/advanced_self_healing.py:449-478 | `_record_failure` stores the updated record under the provider and leaves the journal alone |
| AdvancedSelfHealing.AdvancedSelfHealingManager.RecordSuccess | src/advanced_self_healing.py:480-504 | `record_success` stores the updated record under the provider and leaves the journal alone |
| AdvancedSelfHealing.AdvancedSelfHealingManager.JournalOne | src/advanced_self_healing.py:506-512 | `_journal_action` appends the action and trims the journal to its newest 1000 entries |
| AdvancedSelfHealing.AdvancedSelfHealingManager.HandleModelNotFound | src/advanced_self_healing.py:327-366 | `_handle_model_not_found` marks the model unavailable and returns the catalog's first alternative |
| AdvancedSelfHealing.AdvancedSelfHealingManager.HandlePermissionError | src/advanced_self_healing.py:368-410 | `_handle_permission_error` records the issue and returns the guidance action with the parsed scopes |
| AdvancedSelfHealing.AdvancedSelfHealingManager.JournalActions | src/advanced_self_healing.py:321-323 | journaling each action in turn equals journaling them all at once |
| AdvancedSelfHealing.AdvancedSelfHealingManager.FallBackModel | src/advanced_self_healing.py:236-243 | the model-not-found branch gives the response the specification assigns to it |
| AdvancedSelfHealing.AdvancedSelfHealingManager.GuideAndRotate | src/advanced_self_healing.py:245-262 | the permission branch gives the response the specification assigns to it |
| AdvancedSelfHealing.AdvancedSelfHealingManager.RotateOnLimit | src/advanced_self_healing.py:264-280 | the rate-limit and quota branch gives the response the specification assigns to it |
| AdvancedSelfHealing.AdvancedSelfHealingManager.RetryOrRotate | src/advanced_self_healing.py:282-305 | the timeout and connection branch gives the response the specification assigns to it |
| AdvancedSelfHealing.AdvancedSelfHealingManager.ApplyRemedy | src/advanced_self_healing.py:236-319 | the dispatch on the reason gives the response the specification assigns to that reason |
| AdvancedSelfHealing.AdvancedSelfHealingManager.HandleProviderFailure | src/advanced_self_healing.py:211-325 | `handle_provider_failure` leaves the health table, the returned provider and model, the actions and the journal as the specification says: the journal grows only on the paths that return no alternative |
| AdvancedSelfHealing.AdvancedSelfHealingManager.RecentActionsSpec | src/advanced_self_healing.py:568-575 | the recent actions are the newest `limit` journal entries, newest first; a limit of 0 gives the whole journal reversed |
| ReliakitIntegration.PushBoundedSpec | src/reliakit_integration.py:185-187 | a bounded log ends with the new entry, stays within its cap and drops only its oldest entries |
| ReliakitIntegration.ProbeError | src/reliakit_integration.py:123-180 | a probe reports no error exactly for a 200 reply whose body decodes |
| ReliakitIntegration.UndecodableRules | src/reliakit_integration.py:129-180 | a 200 reply whose body fails to decode runs the success handling and then the failure handling: the check is unhealthy with the decoding error, the streaks end at one failure, a recovery fires when the success completes one, and the target goes OFFLINE with the failure callback exactly when one failure meets the threshold |
| ReliakitIntegration.StepKeepsCountersOk | src/reliakit_integration.py:114-202 | after any probe the failure and success streaks are never both non-zero, and the target is OFFLINE exactly when the failures reach the threshold |
| ReliakitIntegration.SuccessRules | src/reliakit_integration.py:129-140 | a success from FAILING or OFFLINE becomes HEALTHY, firing the recovery callback, once the streak reaches the recovery threshold, and RECOVERING before that; from HEALTHY or RECOVERING only the counters change and nothing fires |
| ReliakitIntegration.FailureRules | src/reliakit_integration.py:191-202 | a failure reaching the threshold takes the target OFFLINE and fires the failure callback only when it was not offline already; from two failures below the threshold it is FAILING; a first failure below the threshold leaves the status alone |
| ReliakitIntegration.FailureAlertsConcat | src/reliakit_integration.py:218-224 | the failure alerts of two runs of notifications are those of each run, in order |
| ReliakitIntegration.OfflineFailuresAreSilent | src/reliakit_integration.py:196-198 | repeated failures while OFFLINE fire nothing and stay OFFLINE |
| ReliakitIntegration.FailureRunAlerts | src/reliakit_integration.py:191-202 | over any run of failures the failure callback fires at most once, exactly when the run takes a target that was not offline to the threshold, and the run ends OFFLINE exactly when it reaches the threshold |
| ReliakitIntegration.RecoveringIsSticky | src/reliakit_integration.py:135-140 | successes never lead out of RECOVERING, because promotion to HEALTHY is only checked from FAILING and OFFLINE |
| ReliakitIntegration.SuccessRunFromOutage | src/reliakit_integration.py:135-140 | from an outage any number of successes ends HEALTHY only when one success meets the recovery threshold, and RECOVERING otherwise |
| ReliakitIntegration.HealthyIsStable | src/reliakit_integration.py:129-140 | successes keep a HEALTHY target HEALTHY |
| ReliakitIntegration.HealthyCount | src/reliakit_integration.py:257 | the healthy count never exceeds the number of results |
| ReliakitIntegration.HealthyCountAll | src/reliakit_integration.py:257 | the healthy count equals the number of results exactly when all are healthy, and is 0 exactly when none is |
| ReliakitIntegration.SuccessRateSpec | src/reliakit_integration.py:256-266 | the recent success rate lies in [0, 1], is 1 exactly when every result is healthy and 0 exactly when none is |
| ReliakitIntegration.HealthChecker.constructor | src/reliakit_integration.py:71-112 | a checker keeps its target, endpoint, interval, timeout and thresholds, and starts HEALTHY with no streaks, no check time and no history |
| ReliakitIntegration.HealthChecker.TransitionTo | src/reliakit_integration.py:204-216 | `_transition_to` sets the status and fires the status-change notice even when the status stays the same |
| ReliakitIntegration.HealthChecker.HandleFailure | src/reliakit_integration.py:191-202 | `_handle_failure` leaves the counters, status and notices as the failure rule says and nothing else changed |
| ReliakitIntegration.HealthChecker.HandleSuccess | src/reliakit_integration.py:129-140 | the success branch leaves the counters, status and notices as the success rule says and nothing else changed |
| ReliakitIntegration.HealthChecker.Check | src/reliakit_integration.py:114-189 | `check` applies the probe's step, records the check time, and appends its result to the history bounded at 100 |
| ReliakitIntegration.HealthChecker.GetStatsSpec | src/reliakit_integration.py:246-269 | the statistics report no checks exactly for an empty history, and otherwise the history's length and the success rate of its last `min(20, checks)` results |
| ReliakitIntegration.OnNotificationsKeepLogsOk | src/reliakit_integration.py:380-497 | the manager's callbacks keep the event log within 500 entries and the recovery log within 100 |
| ReliakitIntegration.RecoveryRule | src/reliakit_integration.py:380-426 | a recovery is attempted for a failure alert only and only with auto recovery on; its action is a failover exactly when the target name contains "exo" in any case, and a reset otherwise |
| ReliakitIntegration.RecoveryOnlyOnEnteringOffline | src/reliakit_integration.py:191-426 | one probe adds a recovery action exactly when its failure handling takes a target that was not offline to its failure threshold and auto recovery is on |
| ReliakitIntegration.QuietNotices | src/reliakit_integration.py:380-426 | callbacks with no failure alert among them attempt no recovery |
| ReliakitIntegration.StepNotices | src/reliakit_integration.py:114-202 | one probe fires at most one failure alert, as its last notice, exactly when its failure handling takes a target that was not offline to the threshold |
| ReliakitIntegration.CheckedFromLast | src/reliakit_integration.py:182-189 | a check's result is the newest entry of the history it leaves, is healthy exactly when the probe reports no error, and leaves a failure streak exactly when it does |
| ReliakitIntegration.NotifyAllNext | src/reliakit_integration.py:539-543 | the callbacks of one more target extend the logs the earlier targets left |
| ReliakitIntegration.PutChecker | src/reliakit_integration.py:312-335 | filing a new checker under its name keeps the checker table well organised |
| ReliakitIntegration.CheckersOkFrom | src/reliakit_integration.py:312-335 | replacing the checker table by one with a new valid checker keeps it well organised |
| ReliakitIntegration.PutDistinctValues | src/reliakit_integration.py:312-335 | filing a new checker keeps every checker distinct |
| ReliakitIntegration.ReliakitSelfHealingManager.constructor | src/reliakit_integration.py:279-310 | the manager keeps its interval and auto-recovery flag and starts with no checkers and empty logs |
| ReliakitIntegration.ReliakitSelfHealingManager.LogEventStep | src/reliakit_integration.py:485-497 | `_log_event` appends the event and keeps the newest 500 |
| ReliakitIntegration.ReliakitSelfHealingManager.AttemptRecoveryStep | src/reliakit_integration.py:412-483 | `_attempt_recovery` appends the failover or reset action and keeps the newest 100 |
| ReliakitIntegration.ReliakitSelfHealingManager.HandleNotification | src/reliakit_integration.py:380-410 | each callback logs its event, and a failure alert triggers a recovery when auto recovery is on |
| ReliakitIntegration.ReliakitSelfHealingManager.HandleNotifications | src/reliakit_integration.py:380-410 | the callbacks run for the notices of one check in the order they fired |
| ReliakitIntegration.ReliakitSelfHealingManager.Install | src/reliakit_integration.py:312-335 | filing a checker replaces any checker of the same name and leaves the logs alone |
| ReliakitIntegration.ReliakitSelfHealingManager.AddTarget | src/reliakit_integration.py:312-335 | `add_target` files a fresh checker with the given URL and endpoint and the manager's interval, replacing any checker of that name |
| ReliakitIntegration.ReliakitSelfHealingManager.RunCheck | src/reliakit_integration.py:532-538 | checking one target takes that checker's step from its old state, records the result at the end of its bounded history, runs the manager's callbacks for its notices, and leaves every other checker as it was |
| ReliakitIntegration.ReliakitSelfHealingManager.CheckNext | src/reliakit_integration.py:539-543 | one more target of the in-order pass is checked from its state before the pass and its notices are logged after those of the targets before it |
| ReliakitIntegration.ReliakitSelfHealingManager.CheckAll | src/reliakit_integration.py:539-543 | checking every target gives one result per target, keyed by name in table order; each checker takes its step from its state before the pass, and the logs are the callbacks for each target's notices run target by target in table order |
| ReliakitIntegration.ReliakitSelfHealingManager.ForceCheck | src/reliakit_integration.py:532-543 | an unknown name raises "Unknown target: " + name and changes nothing; a named target is checked alone, with the same effect as checking it directly and no other checker changed; without a name, or with an empty one, every target is checked as the in-order pass says |
| ModelUiSync.ProviderConfig | src/model_ui_sync.py:115-143 | the configuration handed to the validator carries the provider's name and the token |
| ModelUiSync.FreshCatalog | src/model_ui_sync.py:150-158 | a fresh catalog records the token hash and sync time; a passed validation keeps its models and no error, a failed one keeps no models and the validator's error |
| ModelUiSync.CacheHit | src/model_ui_sync.py:96-109 | the cache is served exactly when no refresh is forced, an entry exists, its token hash matches, it is not older than the TTL and it passed validation |
| ModelUiSync.SafeModels | src/model_ui_sync.py:196-207 | a failed catalog shows no models; a validated one shows its models minus the blocked ones |
| ModelUiSync.Unblocked | src/model_ui_sync.py:200-203 | the kept models are exactly the catalog's models whose `provider:model` key is not blocked |
| ModelUiSync.UnblockedAll | src/model_ui_sync.py:200-203 | with nothing blocked the whole catalog list is kept, in order |
| ModelUiSync.UnblockedAppend | src/model_ui_sync.py:200-203 | filtering distributes over concatenation, so kept models keep their relative order |
| ModelUiSync.SelectionCheck | src/model_ui_sync.py:228-246 | a selection is accepted exactly when the catalog passed validation, holds the model and the model is not blocked, and an error message is given exactly when it is rejected |
| ModelUiSync.CacheHitValidated | src/model_ui_sync.py:96-109 | a catalog served from the cache passed validation and sits under its provider's name, so a failed catalog is never served |
| ModelUiSync.NewTokenMisses | src/model_ui_sync.py:96-109 | a forced refresh, or a token whose hash differs from the stored one, never hits the cache |
| ModelUiSync.ModelUISyncEnforcer.constructor | src/model_ui_sync.py:63-73 | the enforcer starts with no catalogs and no blocked models, keeping the TTL |
| ModelUiSync.ModelUISyncEnforcer.SyncProviderModels | src/model_ui_sync.py:75-170 | `sync_provider_models` returns the cached catalog when the cache rule allows it, and otherwise validates with a forced refresh and stores the fresh catalog over the old one |
| ModelUiSync.ModelUISyncEnforcer.GetUiModels | src/model_ui_sync.py:172-207 | `get_ui_models` returns the synced catalog's safe models |
| ModelUiSync.ModelUISyncEnforcer.ValidateModelSelection | src/model_ui_sync.py:209-246 | `validate_model_selection` returns the selection check of the synced catalog |
| ModelUiSync.ModelUISyncEnforcer.BlockModel | src/model_ui_sync.py:248-260 | `block_model` adds the `provider:model` key and leaves the catalogs alone |
| ModelUiSync.ModelUISyncEnforcer.UnblockModel | src/model_ui_sync.py:262-267 | `unblock_model` discards the key and leaves the catalogs alone |
| ModelUiSync.ModelUISyncEnforcer.ClearCache | src/model_ui_sync.py:269-282 | `clear_cache` drops the named catalog, or every catalog when there is no name, and leaves the blocked models alone |
| ModelUiSync.ModelUISyncEnforcer.OnTokenChange | src/model_ui_sync.py:284-300 | `on_token_change` clears the provider's catalog and then stores a freshly validated one |
| ModelUiSync.ClearedCatalogs | src/model_ui_sync.py:269-282 | clearing by a name removes only that entry; clearing without one, or with an empty one, removes all |
| ModelUiSync.BlockUnblock | src/model_ui_sync.py:248-267 | blocking is idempotent, and unblocking a freshly blocked key restores the set |
| ModelUiSync.BlockedNeverShown | src/model_ui_sync.py:196-246 | a blocked model is never shown and never accepted |
| ProviderPreflight.PermissionFixStepsShape | src/provider_preflight.py:320-359 | the fix steps start with three common steps, the first naming the provider's dashboard, and run to eight steps for Hugging Face, seven for OpenRouter and Together AI and six otherwise; the inference flag changes nothing |
| ProviderPreflight.ModelIds | src/provider_preflight.py:267-276 | extraction yields at most one id per element |
| ProviderPreflight.Contribution | src/provider_preflight.py:268-275 | one element contributes at most one id |
| ProviderPreflight.ModelIdsAppend | src/provider_preflight.py:267-276 | extraction distributes over concatenation, so ids keep the order of the array |
| ProviderPreflight.ModelIdsMembers | src/provider_preflight.py:267-276 | an id is extracted exactly when some element contributes it: a bare string, or an object whose `id`, else `name`, is a non-empty string |
| ProviderPreflight.ExtractModelIds | src/provider_preflight.py:266-276 | the extraction loop computes the ids of the array |
| ProviderPreflight.Decide | src/provider_preflight.py:124-232 | the decision keeps the provider's name, succeeds exactly when it is VALID, and a success has listed models with the first one probed by an inference call |
| ProviderPreflight.RunChecks | src/provider_preflight.py:124-232 | the early-return chain of `validate_provider` computes the decision |
| ProviderPreflight.NoKeyNoRequests | src/provider_preflight.py:124-139 | with neither `api_key` nor `api_key_encrypted` the answer is INVALID_KEY and not a success, whatever either request would return |
| ProviderPreflight.ListingErrorDecides | src/provider_preflight.py:144-181 | a failed listing decides the answer whatever the inference gives: INVALID_KEY for "401" or "unauthorized", else NO_PERMISSION with the provider's scopes for "403" or "forbidden", else CONNECTION_ERROR |
| ProviderPreflight.EmptyListingNoModels | src/provider_preflight.py:183-195 | a listing with no usable ids gives NO_MODELS and the inference is never consulted |
| ProviderPreflight.InferenceDecides | src/provider_preflight.py:197-232 | once models are listed, a forbidden inference gives NO_PERMISSION and every other outcome, a failure included, gives VALID; both keep the listed models and test the first one |
| ProviderPreflight.CacheKey | src/provider_preflight.py:114 | the cache key is the name, `_`, and at most ten characters of the key |
| ProviderPreflight.CacheKeyPrefix | src/provider_preflight.py:114 | two keys that agree on their first ten characters share a cache entry |
| ProviderPreflight.ValidatedSpec | src/provider_preflight.py:113-232 | a key that cannot be sliced raises and leaves the cache alone; otherwise a cached answer is returned whenever no refresh is forced, because its age is always about 0, only VALID answers enter the cache, and an answer succeeds exactly when it is VALID |
| ProviderPreflight.ActiveNames | src/provider_preflight.py:368-375 | the names validated are exactly those of the providers whose status is `active`, and a single provider gives its name exactly when it is active |
| ProviderPreflight.ActiveNamesAppend | src/provider_preflight.py:368-375 | the active names of two runs of providers are those of the first followed by those of the second, so the names keep the providers' order |
| ProviderPreflight.ValidateFromRaises | src/provider_preflight.py:361-377 | `validate_all_providers` raises exactly when some active provider has an `api_key` that cannot be sliced into its cache key (line 114) |
| ProviderPreflight.ValidateFromKeys | src/provider_preflight.py:361-377 | when `validate_all_providers` answers, it answers for exactly the names of the active providers, once each |
| ProviderPreflight.ValidateFromOk | src/provider_preflight.py:361-377 | validating in order keeps only VALID answers in the cache, even when a later provider raises, and every answer honest about success |
| ProviderPreflight.ProviderPreFlightValidator.constructor | src/provider_preflight.py:91-94 | the validator starts with an empty cache |
| ProviderPreflight.ProviderPreFlightValidator.ValidateProvider | src/provider_preflight.py:96-235 | `validate_provider` raises on a key that cannot be sliced, and otherwise returns the cached or decided answer and caches a VALID one |
| ProviderPreflight.ProviderPreFlightValidator.Recheck | src/provider_preflight.py:124-232 | the uncached path answers with the decision chain and caches the answer under the key exactly when it succeeds |
| ProviderPreflight.ProviderPreFlightValidator.ValidateAllProviders | src/provider_preflight.py:361-377 | each active provider is validated in order against the cache as the earlier ones left it, and the first one that raises abandons the rest |
| ProviderPreflight.ProviderPreFlightValidator.GetValidModelsForUi | src/provider_preflight.py:379-394 | `get_valid_models_for_ui` returns the models of a successful validation and none otherwise, and raises when the validation does |
| IntelligentTokenizer.DetectEncoding | src/intelligent_tokenizer.py:292-309 | the encoding is always one of cl100k_base, r50k_base and p50k_base |
| IntelligentTokenizer.DetectEncodingByRules | src/intelligent_tokenizer.py:292-309 | the encoding is the first matching rule (gpt-4 or gpt-3.5, then davinci, curie or babbage, then code) on the lower-cased name, cl100k_base by default, so the detection ignores case |
| IntelligentTokenizer.EncodingRulesChain | src/intelligent_tokenizer.py:296-309 | the rule table gives the same answer as the chain of tests |
| IntelligentTokenizer.TruncateEnd | src/intelligent_tokenizer.py:196-205 | "end", and every unknown strategy, keep the first `max_tokens` tokens |
| IntelligentTokenizer.TruncateStart | src/intelligent_tokenizer.py:198-199 | "start" keeps the last `max_tokens` tokens, except that `tokens[-0:]` keeps the whole list for a limit of 0 |
| IntelligentTokenizer.TruncateMiddle | src/intelligent_tokenizer.py:200-203 | "middle" keeps the first and the last `max_tokens // 2` tokens, `2·half` of them, except that a half of 0 keeps everything |
| IntelligentTokenizer.Tokenizer.CountTokens | src/intelligent_tokenizer.py:110-152 | a count is never marked truncated and keeps the text; with a loaded encoder that encodes the text it is the encoded tokens and their number, and without an encoder, or when `encode` raises, it is the word estimate `4·words // 3` |
| IntelligentTokenizer.Tokenizer.TruncateToLimitSpec | src/intelligent_tokenizer.py:154-218 | text within the limit comes back exactly as counted; over it, it is cut by characters when no encoder is loaded; the call raises exactly when it is over the limit and the loaded encoder raises on the text, since the second `encode` is not guarded; otherwise the result is marked truncated with the strategy's slice of the tokens and their decoding, within a positive limit |
| IntelligentTokenizer.Tokenizer.TruncateStartZeroKeepsAll | src/intelligent_tokenizer.py:198-199 | a limit of 0 with "start" keeps every token while reporting a truncation |
| IntelligentTokenizer.Tokenizer.FallbackMayExceedLimit | src/intelligent_tokenizer.py:326-345 | without an encoder, "a a a a" with a limit of 2 comes back unchanged, 5 tokens by the word estimate and not marked truncated, because it fits 4 characters per token |
| IntelligentTokenizer.RaisingEncoderTruncateRaises | src/intelligent_tokenizer.py:148-185 | with an encoder that raises, "a b c d" counts 5 tokens by the word estimate, and truncating it to 2 tokens raises |
| IntelligentTokenizer.Tokenizer.ValidateForModel | src/intelligent_tokenizer.py:220-249 | the text is valid exactly when its count is at most the context length minus the reserve, and the message is empty exactly when it is valid |
| IntelligentTokenizer.FormatMessagesWithTokens | src/intelligent_tokenizer.py:251-290 | each message keeps its role (default "user") and content and gets its own count, and the total is the sum of the counts plus 4 per message plus 3 |
| IntelligentTokenizer.ParseModelInfo | src/intelligent_tokenizer.py:518-567 | a parsed model comes from a dictionary with an id or a name, carries the provider and the sync time, and parsing fails for a non-dictionary, a missing id or an unparseable price |
| IntelligentTokenizer.ParseAll | src/intelligent_tokenizer.py:428-434 | the parsed models of a listing belong to the provider and are no more than the entries |
| IntelligentTokenizer.FindById | src/intelligent_tokenizer.py:450-462 | the lookup finds a model with the id when one exists, and nothing otherwise |
| IntelligentTokenizer.ModelsOf | src/intelligent_tokenizer.py:516 | the returned models are the candidates' models, in order |
| IntelligentTokenizer.CandidatesSpec | src/intelligent_tokenizer.py:483-510 | every candidate is another model of the catalog at least `min_context` long, scored against the requested one |
| IntelligentTokenizer.ModelCatalogSync.constructor | src/intelligent_tokenizer.py:359-368 | the catalog starts from the cached models and sync times, with a TTL of 3600 |
| IntelligentTokenizer.ModelCatalogSync.SyncProviderModels | src/intelligent_tokenizer.py:370-448 | a fresh cache entry is served without a request; a missing key, an HTTP error or a failed request return an error and leave the catalog alone; a listing replaces the provider's models and stamps its sync time |
| IntelligentTokenizer.ModelCatalogSync.ParseEntries | src/intelligent_tokenizer.py:428-434 | the parsing loop keeps, in order, exactly the listing entries that parse, the same catalog the specification function gives |
| IntelligentTokenizer.ModelCatalogSync.GetModelInfo | src/intelligent_tokenizer.py:450-462 | with a non-empty provider name the catalog knows, the answer is a model of that provider with the id, and nothing exactly when that provider has none; with no provider, an empty one or an unknown one, nothing exactly when no catalogued model has the id; what is found has the id and is in the catalog |
| IntelligentTokenizer.ModelCatalogSync.FindAlternativeModels | src/intelligent_tokenizer.py:475-516 | `find_alternative_models` returns the top five candidates by score, whose properties `AlternativesSpec` and `AlternativesTop` state |
| IntelligentTokenizer.ModelCatalogSync.AlternativesSpec | src/intelligent_tokenizer.py:475-516 | the alternatives are at most five catalogued models, none with the original id, each at least `min_context` long |
| IntelligentTokenizer.ModelCatalogSync.AlternativesTop | src/intelligent_tokenizer.py:512-516 | the returned candidates are ordered by score, a candidate left out scores no higher, and equal scores keep catalog order |
| IntelligentTokenizer.TopFive | src/intelligent_tokenizer.py:512-516 | the first five of the candidates sorted by score are in non-increasing order, none left out scores higher, and ties keep catalog order |
| IntelligentTokenizer.GetInAllModels | src/intelligent_tokenizer.py:468-473 | a model of one provider is among all models |
| IntelligentTokenizer.EntryInAllModels | src/intelligent_tokenizer.py:468-473 | a model of any entry is among all models |
| IntelligentTokenizer.UnknownOriginalScoresZero | src/intelligent_tokenizer.py:495-508 | with an unknown requested model every candidate scores 0, so catalog order decides |
| IntelligentTokenizer.EmptyPieceMatchesEveryModel | src/intelligent_tokenizer.py:501-503 | an id with an empty '-'-separated piece shares a word with every model, since the empty string occurs in every string |
| CloudProviderHealth.SuccessRateBounds | src/cloud_provider_health.py:44 | with sound counters the success rate, dividing by `max(total, 1)`, lies in [0, 100] and is 100 exactly when every one of at least one request succeeded |
| CloudProviderHealth.CheckHealthSpec | src/cloud_provider_health.py:81-208 | the counters carry over: only a 200 answer with a key is a success, resetting the failures and adding one to both totals; every other outcome (no key, another status, a timeout recorded at 10000 ms, an exception) adds one failure and one request and leaves the successes alone |
| CloudProviderHealth.NoKeyNoRequest | src/cloud_provider_health.py:95-113 | without a key the record does not depend on what a request would return, has the "No API key configured" error and zero latency |
| CloudProviderHealth.ActiveCloud | src/cloud_provider_health.py:71-74 | the kept entries are exactly those with status `active` and a type other than `local` |
| CloudProviderHealth.LoadProviders | src/cloud_provider_health.py:64-79 | an unreadable file gives no providers, and a readable one gives exactly its active cloud entries |
| CloudProviderHealth.CheckOneOk | src/cloud_provider_health.py:222-224 | one check keeps every record under its name with sound counters and adds the checked name |
| CloudProviderHealth.CheckedNames | src/cloud_provider_health.py:222-224 | the names checked are those of the providers, "Unknown" when a provider has none |
| CloudProviderHealth.CheckFromOk | src/cloud_provider_health.py:222-224 | checking keeps every record under its name with sound counters, and every checked name gets a record |
| CloudProviderHealth.HealthyNames | src/cloud_provider_health.py:238-243 | `get_healthy_providers` returns exactly the healthy names, no more of them than records, and a single record gives its name exactly when it is healthy |
| CloudProviderHealth.HealthyNamesAppend | src/cloud_provider_health.py:238-243 | the healthy names of two runs of records are those of the first followed by those of the second, so the names keep insertion order |
| CloudProviderHealth.ProviderForModel | src/cloud_provider_health.py:245-258 | `get_provider_for_model` returns a healthy provider listing the model, and nothing exactly when there is none |
| CloudProviderHealth.FindProvider | src/cloud_provider_health.py:285-288 | the lookup returns an entry with the name, and nothing exactly when none has it |
| CloudProviderHealth.TestChatGuards | src/cloud_provider_health.py:274-300 | an unknown or unhealthy provider, or no model, fails without sending, whatever the POST would return |
| CloudProviderHealth.TestChatOutcome | src/cloud_provider_health.py:302-330 | past the guards, the request succeeds exactly on a 200 answer |
| CloudProviderHealth.CloudProviderHealthMonitor.constructor | src/cloud_provider_health.py:53-62 | the monitor starts with no records and no full check |
| CloudProviderHealth.CloudProviderHealthMonitor.CheckAllProviders | src/cloud_provider_health.py:210-236 | nothing changes without an active cloud provider; otherwise each is checked in order, its record stored under its name over the old one, and the check time recorded |
| ProviderTokenRefresh.TokenNames | src/provider_token_refresh.py:55-59 | a name is listed exactly when some provider entry read before loading stops has that name and a non-empty key |
| ProviderTokenRefresh.Readable | src/provider_token_refresh.py:50-61 | loading reads the providers before the first one whose truthy key is not a string or whose truthy name is a list or a dictionary, and stops at that one |
| ProviderTokenRefresh.HashesFromKeys | src/provider_token_refresh.py:48-61 | after loading, a provider has a stored hash exactly when it had one before or the file lists it, before loading stops, with both a name and a key |
| ProviderTokenRefresh.TokenChanged | src/provider_token_refresh.py:282-296 | a token counts as changed exactly when no hash is stored for the provider or the stored hash differs from the new token's |
| ProviderTokenRefresh.FirstNamed | src/provider_token_refresh.py:131-133 | the index found is the first entry carrying the provider's name, or the end of the list when none does |
| ProviderTokenRefresh.WithToken | src/provider_token_refresh.py:133-138 | the rewritten entry keeps its other fields and gains the new key and timestamp, and the status "active" when activation is asked for |
| ProviderTokenRefresh.UpdatedProviders | src/provider_token_refresh.py:128-151 | when the provider is listed only its first entry is rewritten and the list keeps its length; otherwise exactly one new cloud entry is appended |
| ProviderTokenRefresh.UpdatedProvidersFind | src/provider_token_refresh.py:128-151 | after the update the first entry with the provider's name holds the new key, and is active when activation was asked for |
| ProviderTokenRefresh.FirstNamedIs | src/provider_token_refresh.py:131-133 | an entry with the name preceded by none is where the search stops |
| ProviderTokenRefresh.FirstNamedAbsent | src/provider_token_refresh.py:140-151 | with no entry of that name the search runs off the end, so the provider is appended |
| ProviderTokenRefresh.PreflightConfig | src/provider_token_refresh.py:205-230 | the validation configuration always carries the new token, and OpenRouter, Hugging Face and Together AI get their endpoints |
| ProviderTokenRefresh.ProviderTokenRefreshManager.constructor | src/provider_token_refresh.py:35-46 | a new manager holds the hashes of every named provider with a key that the configuration file lists before loading stops, and none when there is no file |
| ProviderTokenRefresh.ProviderTokenRefreshManager.LoadTokenHashes | src/provider_token_refresh.py:48-61 | the stored hashes are those of the previous state updated with every named provider with a key read before the first provider that makes loading raise, and unchanged without a file |
| ProviderTokenRefresh.ProviderTokenRefreshManager.UpdateConfigFile | src/provider_token_refresh.py:118-170 | a missing file gives false and changes nothing; otherwise the provider list becomes the updated one and true is returned |
| ProviderTokenRefresh.ProviderTokenRefreshManager.UpdateProviderToken | src/provider_token_refresh.py:63-116 | an unchanged hash returns true and touches nothing; a missing file returns false and touches nothing; otherwise the file is rewritten, the caches are cleared, pre-flight runs, the catalog is resynced when it passed, and the new hash is stored |
| ProviderTokenRefresh.RefreshedCatalog | src/provider_token_refresh.py:96-106 | after a refresh the provider has a catalog exactly when pre-flight passed, built from the new token's hash; other providers' catalogs stay unless the name is empty |
| ProviderTokenRefresh.RefreshedCacheOk | src/provider_token_refresh.py:96-103 | the pre-flight cache left behind holds only successful results |
| AutoFreeModels.WithoutDollar | src/auto_free_models.py:138-139 | stripping the dollar signs leaves no dollar sign and never lengthens the text |
| AutoFreeModels.Costs | src/auto_free_models.py:135-143 | both costs become infinite as soon as either price fails to parse, and otherwise are the parsed prompt and completion prices, a missing price reading as "0" |
| AutoFreeModels.Grouped | src/auto_free_models.py:152-155 | the context length is rendered in decimal with comma groups, so a number below 1000 is its plain digits |
| AutoFreeModels.ParseModel | src/auto_free_models.py:129-166 | an entry parses exactly when it is an object with a string id and a formattable context length; the model is free exactly when both costs are zero or the lower-cased id contains ":free" |
| AutoFreeModels.UnparseablePricingIsPaid | src/auto_free_models.py:140-146 | a prompt price that does not parse makes both costs infinite, so the model is free only by its ":free" label |
| AutoFreeModels.ParseAll | src/auto_free_models.py:107-108 | a list that parses yields one entry per element |
| AutoFreeModels.ParseAllPrefix | src/auto_free_models.py:107-123 | one element whose parse raises aborts the whole categorisation |
| AutoFreeModels.ParseAllStep | src/auto_free_models.py:107-108 | parsing proceeds element by element, in order |
| AutoFreeModels.WithFreeness | src/auto_free_models.py:110-113 | every entry in a category has that category's freeness |
| AutoFreeModels.WithFreenessAppend | src/auto_free_models.py:110-113 | a new entry is appended to its own category and leaves the other alone |
| AutoFreeModels.SplitPartitions | src/auto_free_models.py:107-113 | the free and the paid list together hold every parsed entry exactly once |
| AutoFreeModels.SplitLengths | src/auto_free_models.py:107-113 | the two lists are together as long as the parsed list |
| AutoFreeModels.IndexOfId | src/auto_free_models.py:211-217 | the index found is the first model with the id, or the end when none has it |
| AutoFreeModels.TopModelsSpec | src/auto_free_models.py:242-246 | the top list has five models or all of them, all from the list, in descending context order, and no model left out has a larger context than one kept |
| AutoFreeModels.Summarize | src/auto_free_models.py:230-256 | an empty list gives all zeros; otherwise the count, the total context, the floor of the average and the top models |
| AutoFreeModels.FreeModelsHighlighter.constructor | src/auto_free_models.py:58-62 | a new highlighter shows free models only and has empty lists |
| AutoFreeModels.FreeModelsHighlighter.FetchAndCategorizeModels | src/auto_free_models.py:64-127 | on a 200 answer that parses, the free and the paid entries, in order, become the stored lists and are returned; any failure returns two empty lists and keeps the stored ones |
| AutoFreeModels.FreeModelsHighlighter.ModelsForUi | src/auto_free_models.py:168-183 | the free models always come first, and the paid ones are included exactly when asked for or unlocked |
| AutoFreeModels.FreeModelsHighlighter.ModelDisplayNames | src/auto_free_models.py:185-188 | one display name per shown model, in the same order |
| AutoFreeModels.FreeModelsHighlighter.ModelByDisplayName | src/auto_free_models.py:190-198 | the result is the first free-then-paid model with that display name, and nothing exactly when none has it |
| AutoFreeModels.FreeModelsHighlighter.IsModelAllowed | src/auto_free_models.py:200-228 | an id is allowed exactly when it is free or paid with paid models unlocked; a locked paid model gets the cost message and an unknown id the not-found message |
| OpenRouterFreeModels.FreeInfo | src/openrouter_free_models.py:137-160 | an object entry is kept exactly when both its prices parse as zero, and a kept entry is marked free and is truly free |
| OpenRouterFreeModels.FilterFreeModels | src/openrouter_free_models.py:125-168 | the loop raises exactly when the fetched list holds an element that is not an object, and otherwise builds exactly the free entries of the list, in order |
| OpenRouterFreeModels.FreeOriginAt | src/openrouter_free_models.py:153-162 | each kept entry is the free entry of some fetched model, and is truly free |
| OpenRouterFreeModels.FreeSpec | src/openrouter_free_models.py:137-165 | the kept entries are all truly free and stem from the fetched list, and every fetched model with two zero prices is kept |
| OpenRouterFreeModels.Loaded | src/openrouter_free_models.py:321-351 | the cache loads exactly when the file exists with a model list and a timestamp that parse |
| OpenRouterFreeModels.AgeUnit | src/openrouter_free_models.py:370-382 | ages under an hour are whole minutes truncated toward zero, under a day whole hours between 1 and 23, and beyond that whole days, each the floor of the age in that unit |
| OpenRouterFreeModels.Summarize | src/openrouter_free_models.py:279-299 | an empty list gives a zero summary with "No cache"; otherwise the count, the floor of the average context, the cache age and the last refresh time or "Never" |
| OpenRouterFreeModels.ForcedRefreshFilters | src/openrouter_free_models.py:192-208 | a forced refresh with fetched models raises, changing nothing, exactly when one is not an object; otherwise it answers the filtered list, caches it with the current time so the cache is valid, and stores it |
| OpenRouterFreeModels.CacheAnswers | src/openrouter_free_models.py:180-188 | an unforced request with a valid non-empty cache answers the cached models and leaves the file alone |
| OpenRouterFreeModels.EmptyFetchFallsBack | src/openrouter_free_models.py:190-198 | an empty fetch answers the cached models whatever their age, or nothing, and never rewrites the file |
| OpenRouterFreeModels.OpenRouterFreeModelsFilter.constructor | src/openrouter_free_models.py:78-94 | a new filter has no models and no fetch time, over the given cache file |
| OpenRouterFreeModels.OpenRouterFreeModelsFilter.LoadCache | src/openrouter_free_models.py:321-351 | the answer is the cached models when they load, and a successful load takes the file's timestamp as the last fetch |
| OpenRouterFreeModels.OpenRouterFreeModelsFilter.GetFreeModels | src/openrouter_free_models.py:170-208 | the answer, or the exception filtering raises, and the new state are those of the cache-then-fetch-then-fallback decision |
| OpenRouterFreeModels.OpenRouterFreeModelsFilter.IsModelFree | src/openrouter_free_models.py:210-234 | the list is loaded first only when empty, and the check raises exactly when that load does; the id is free exactly when it is listed, and otherwise the message names the number of free models |
| OpenRouterFreeModels.OpenRouterFreeModelsFilter.BlockPaidModel | src/openrouter_free_models.py:236-253 | a model is allowed exactly when it is listed as free; the check raises exactly when loading the list does |
| OpenRouterFreeModels.OpenRouterFreeModelsFilter.GetModelIdsOnly | src/openrouter_free_models.py:274-277 | the ids of the models an unforced request answers, in order, raising when the request does |
| OpenRouterFreeModels.OpenRouterFreeModelsFilter.GetFreeModelsSummary | src/openrouter_free_models.py:279-299 | an unforced request followed by the summary of its answer, raising when the request does |
| ByokProviderRegistry.UserScore | src/byok_provider_registry.py:96-97 | the adoption share lies in [0, 1] and is full exactly at a hundred active users or more |
| ByokProviderRegistry.Sentiment | src/byok_provider_registry.py:99-103 | the sentiment share lies in [0, 1] and is zero without reviews |
| ByokProviderRegistry.TrustScoreBounds | src/byok_provider_registry.py:83-103 | with stars and success rate in range the trust score lies in [0, 100], is at most 85 without reviews, and is 100 only with five stars, full success, a hundred active users and no negative review |
| ByokProviderRegistry.Level | src/byok_provider_registry.py:105-117 | highly recommended exactly at a score of 85 or more with RECOMMENDED status, not recommended exactly below 50, and recommended exactly when it is not highly recommended and has a score of 70 or more with a free tier |
| ByokProviderRegistry.UnreviewedNeverHighly | src/byok_provider_registry.py:105-110 | a provider without reviews and with fewer than five stars is never highly recommended |
| ByokProviderRegistry.ExceedsAsWrittenMisorders | src/byok_provider_registry.py:374 | comparing the difficulty value strings lets every provider through a MODERATE maximum, EXPERT included, and an ADVANCED one through an EASY maximum |
| ByokProviderRegistry.ModerateCeilingAsWritten | src/byok_provider_registry.py:362-384 | as written, a MODERATE difficulty ceiling filters nothing, so an EXPERT provider passing the other filters is recommended although the corrected ceiling excludes it |
| ByokProviderRegistry.LexLessIrreflexive | src/byok_provider_registry.py:374 | no value string compares below itself |
| ByokProviderRegistry.ModerateNotBelowItself | src/byok_provider_registry.py:374 | a MODERATE provider is not excluded by a MODERATE maximum under the string comparison |
| ByokProviderRegistry.ExceedsOrder | src/byok_provider_registry.py:26-32 | in the corrected comparison a difficulty exceeds the maximum exactly when it comes later in the easy, moderate, advanced, expert order |
| ByokProviderRegistry.ListAll | src/byok_provider_registry.py:517-521 | every registered provider appears as often as registered, in descending trust order |
| ByokProviderRegistry.Signed | src/byok_provider_registry.py:388-421 | a signup adds one user, one active user and positive review on success or one negative review on failure, sets the success rate to the positive share, averages a non-zero setup time in truncating, and changes nothing else |
| ByokProviderRegistry.SignedInRange | src/byok_provider_registry.py:406-409 | after a signup the success rate is a percentage that equals 100 times the sentiment share |
| ByokProviderRegistry.WithFeedback | src/byok_provider_registry.py:423-453 | the stars become the mean of the old stars over the reviews and the new rating; a non-empty new comment goes to the issues when flagged so, else to the tips when flagged so; nothing else changes |
| ByokProviderRegistry.FeedbackBounds | src/byok_provider_registry.py:436-451 | stars and a rating within one to five keep the stars within one to five, and neither list gains a duplicate |
| ByokProviderRegistry.FeedbackStars | src/byok_provider_registry.py:436-441 | the new mean stays within one to five |
| ByokProviderRegistry.BYOKProviderRegistry.constructor | src/byok_provider_registry.py:126-139 | the registry holds the providers it loaded |
| ByokProviderRegistry.BYOKProviderRegistry.GetProvider | src/byok_provider_registry.py:513-515 | an unknown id gives nothing, and a known one the rating registered under it |
| ByokProviderRegistry.BYOKProviderRegistry.GetRecommendedProviders | src/byok_provider_registry.py:354-386 | the answer is the eligible providers in registry order, stably sorted by descending trust, with the difficulty ceiling in the corrected easy, moderate, advanced, expert order rather than the code's string comparison (see Findings) |
| ByokProviderRegistry.BYOKProviderRegistry.RecordUserSignup | src/byok_provider_registry.py:388-402 | an unknown id changes nothing, and a known one has its rating updated by the signup |
| ByokProviderRegistry.BYOKProviderRegistry.AddFeedback | src/byok_provider_registry.py:423-435 | an unknown id changes nothing, and a known one has its rating updated by the feedback |
| ByokProviderRegistry.RecommendedSpec | src/byok_provider_registry.py:362-384 | every recommendation is registered and passes the free-tier, trust, difficulty and AVOID filters, every registered provider that passes them is recommended, and the list is in descending trust order; the difficulty ceiling is the corrected one (see Findings) |
| SecureKeyManager.LoadedKeys | src/secure_key_manager.py:183-199 | a missing or unreadable keys file leaves no keys, and a readable one its entries |
| SecureKeyManager.KeyOf | src/secure_key_manager.py:105-124 | an unknown provider, an entry without an encrypted key or a failed decryption gives no key |
| SecureKeyManager.Locked | src/secure_key_manager.py:126-130 | only a known provider can be locked; an entry without the flag reads as unlocked |
| SecureKeyManager.Info | src/secure_key_manager.py:169-177 | the info exists exactly for a known provider, never carries the encrypted key, and keeps every other field |
| SecureKeyManager.Providers | src/secure_key_manager.py:179-181 | the listed providers are exactly those with an entry, each once |
| SecureKeyManager.SaveThenGet | src/secure_key_manager.py:84-93 | when decryption undoes encryption, after a save the provider has an entry, its key reads back as the saved key, the flag is the one given, the hash is the first 16 digest characters and the metadata is the given or empty one |
| SecureKeyManager.SaveKeepsOthers | src/secure_key_manager.py:87-93 | a save leaves every other provider's key, flag and info unchanged |
| SecureKeyManager.LockSetsFlag | src/secure_key_manager.py:132-154 | locking or unlocking sets the flag exactly for a known provider and changes no key, no other flag and not the provider list |
| SecureKeyManager.DeleteRemoves | src/secure_key_manager.py:156-163 | after a delete the provider has no entry, no key and no lock, and every other provider keeps its entry and key |
| SecureKeyManager.SecureKeyManager.constructor | src/secure_key_manager.py:35-48 | the store uses the given cipher and hash and holds the keys loaded from the file |
| SecureKeyManager.SecureKeyManager.LoadKeys | src/secure_key_manager.py:183-199 | the keys become the loaded ones, and false is returned exactly when the file exists but cannot be read |
| SecureKeyManager.SecureKeyManager.SaveKey | src/secure_key_manager.py:63-103 | the save always succeeds, stores the new entry under the provider, and then reads back the saved key when decryption undoes encryption |
| SecureKeyManager.SecureKeyManager.LockKey | src/secure_key_manager.py:132-142 | true exactly for a known provider, which is then locked; an unknown one changes nothing |
| SecureKeyManager.SecureKeyManager.UnlockKey | src/secure_key_manager.py:144-154 | true exactly for a known provider, which is then unlocked; an unknown one changes nothing |
| SecureKeyManager.SecureKeyManager.SetLock | src/secure_key_manager.py:132-154 | the flag is set, with its timestamp, for a known provider only |
| SecureKeyManager.SecureKeyManager.DeleteKey | src/secure_key_manager.py:156-163 | true exactly when the provider had an entry, which is then removed; afterwards it has none |
| PortUtils.SearchFromSpec | src/port_utils.py:24-75 | the sequential search ends at the first port within the range that is free or negative and not excluded: with that port when it is free, with the overflowing bind when it is negative, and with the range error exactly when there is none; stopping above 65535 loses none |
| PortUtils.FindSpecCorrect | src/port_utils.py:24-79 | a preferred port outside 0..65535 that is not excluded overflows the bind; a free, non-excluded preferred port is returned; otherwise the first qualifying port after it within the range, unless a negative port is reached first; the answer is never excluded; the error with the range message is raised exactly when no port stops the search |
| PortUtils.ProbesFromBounded | src/port_utils.py:62-75 | every port the loop probes lies after the preferred one within the range, is at most 65535 and is not excluded |
| PortUtils.ProbesBounded | src/port_utils.py:58-75 | the availability check is never asked about an excluded port, nor about a port above 65535 other than the preferred one |
| PortUtils.FindAvailablePort | src/port_utils.py:13-79 | the loop returns the port, the range error or the overflowing bind of the search specification, and probes exactly the ports it lists, in order |
| PortUtils.GetPortInfo | src/port_utils.py:82-100 | a port outside 0..65535 overflows the bind of the availability check (lines 24-31); otherwise the info carries the port and host, is available exactly when the port is, and has status "available" or "in_use" accordingly |
| LocalhostAutoDetector.IdentifyNodeType | src/localhost_auto_detector.py:166-186 | always one of the two node types: an Exo cluster when the body mentions "exo" in any case, or for an object body reached by the model listing; a local node when the body does not decode or the membership test raises |
| LocalhostAutoDetector.NodeDetails | src/localhost_auto_detector.py:188-221 | a failed, non-200 or non-object reply gives no version and zero models; otherwise the length of the data member, else of the models member, and the version member |
| LocalhostAutoDetector.FirstHealthy | src/localhost_auto_detector.py:125-151 | a found endpoint answered 200 and its reply is the one returned |
| LocalhostAutoDetector.FirstHealthySpec | src/localhost_auto_detector.py:125-151 | the endpoint found is the first that answers 200, and none is found exactly when none answers 200 |
| LocalhostAutoDetector.TestPortSpec | src/localhost_auto_detector.py:108-164 | a port outside 0..65535 raises `OverflowError` from the connection test, reported as `Err(port)`; any other closed port has no node, and a found node is healthy on 127.0.0.1 at that port and its URL |
| LocalhostAutoDetector.Probe | src/localhost_auto_detector.py:119-151 | on a port whose connection test does not raise, a closed port has no node, and a found node is healthy on 127.0.0.1 at that port and its URL |
| LocalhostAutoDetector.TestPortFirst | src/localhost_auto_detector.py:119-164 | a port raises exactly when it lies outside 0..65535; any other port yields a node exactly when it is open and some health endpoint answers 200, the first such endpoint decides the node type, and the model listing decides the version and the model count |
| LocalhostAutoDetector.PortsToScan | src/localhost_auto_detector.py:92 | no port list, or an empty one, scans the common ports, so the scan list is never empty |
| LocalhostAutoDetector.FirstUnbindable | src/localhost_auto_detector.py:97-98 | the position where the scan meets its first port outside 0..65535: every port before it is in range, and the port there is not |
| LocalhostAutoDetector.ScannedSpec | src/localhost_auto_detector.py:92-106 | the scan raises exactly when some scanned port lies outside 0..65535, naming the first such port; otherwise every detected node is on a scanned, open port, and every scanned port that yields a node contributes it |
| LocalhostAutoDetector.BestNode | src/localhost_auto_detector.py:223-227 | there is no best node exactly when none was detected |
| LocalhostAutoDetector.BestNodeSpec | src/localhost_auto_detector.py:225-234 | the best node is a detected one with the most models and, among those, the lowest port, and the first such in detection order |
| LocalhostAutoDetector.ExoEntrySpec | src/localhost_auto_detector.py:272-282 | the updated provider points at the node's URL, port and model count, is active and auto-detected, and keeps every field the update does not name |
| LocalhostAutoDetector.NewExoEntrySpec | src/localhost_auto_detector.py:262-270 | a created provider is named "Exo Local" and has type local |
| LocalhostAutoDetector.FindExo | src/localhost_auto_detector.py:256-260 | a found index lies in range and its provider's name contains "exo" |
| LocalhostAutoDetector.FindExoSpec | src/localhost_auto_detector.py:256-260 | the search stops at the first provider whose name contains "exo", and fails exactly at a name met first that is not a string |
| LocalhostAutoDetector.EnabledSpec | src/localhost_auto_detector.py:236-297 | a missing file fails; a success updates the first Exo provider in place or appends a new one, leaves every other provider and top-level field untouched |
| LocalhostAutoDetector.LocalhostAutoDetector.constructor | src/localhost_auto_detector.py:72-80 | a new detector has found no nodes |
| LocalhostAutoDetector.LocalhostAutoDetector.TestPort | src/localhost_auto_detector.py:108-164 | the method raises for a port outside 0..65535 and otherwise finds, by its loop over the health endpoints, exactly the node the specification describes |
| LocalhostAutoDetector.LocalhostAutoDetector.ScanLocalhost | src/localhost_auto_detector.py:82-106 | the result is the scan specification: the nodes found, in port order, which become the detected nodes; or the raise of the first port outside 0..65535, which leaves the detected nodes as they were |
| LocalhostAutoDetector.LocalhostAutoDetector.ScanPorts | src/localhost_auto_detector.py:92-104 | the loop over the ports gives exactly the scan of that list, stopping at the first port whose test raises |
| LocalhostAutoDetector.LocalhostAutoDetector.EnableInConfig | src/localhost_auto_detector.py:236-297 | the written file is the one the enable specification gives, and true is returned exactly when a file is written |
| HuggingFaceDiagnostic.TestWhoami | src/huggingface_diagnostic.py:142-156 | exactly one of the account information and the error is present, and the information exactly for a 200 reply whose body decodes |
| HuggingFaceDiagnostic.ModelIds | src/huggingface_diagnostic.py:171 | at most one id per listed element |
| HuggingFaceDiagnostic.ModelIdsOrigin | src/huggingface_diagnostic.py:171 | each listed id is the `id` member, or the empty string, of a dictionary element of the reply |
| HuggingFaceDiagnostic.TestModelListing | src/huggingface_diagnostic.py:158-176 | an error comes with no models, and there is no error exactly for a 200 reply whose body is iterable |
| HuggingFaceDiagnostic.TestInference | src/huggingface_diagnostic.py:178-205 | exactly one of reply and error is present; a reply comes with code 200; a non-200 reply gives its code and its text cut to 500 characters; an exception gives no code |
| HuggingFaceDiagnostic.Analyze403Spec | src/huggingface_diagnostic.py:207-220 | each permission marker is reported exactly when its word occurs in the lower-cased message, once and in a fixed order, and the unknown issue, alone, exactly when none occurs; the list is never empty |
| HuggingFaceDiagnostic.MaskedHeader | src/huggingface_diagnostic.py:278-283 | the header shows at most the first ten characters of the token, followed by an ellipsis |
| HuggingFaceDiagnostic.CurlCommands | src/huggingface_diagnostic.py:274-289 | twelve lines, both requests carrying the masked token |
| HuggingFaceDiagnostic.BuildFailedResult | src/huggingface_diagnostic.py:291-309 | a failed result is never a success and lists no models, keeping the given error, steps, code, permissions and account, with the curl commands for the token |
| HuggingFaceDiagnostic.WhoamiFailureStops | src/huggingface_diagnostic.py:68-77 | a failing account check ends the diagnosis, whatever the other probes give, with "Account check failed: " and the error, the invalid-token steps, no code and an unknown account |
| HuggingFaceDiagnostic.Inference403 | src/huggingface_diagnostic.py:76-115 | with the account and organisations printable, an inference 403 with an error text fails with code 403, that text, the permissions read from it, the 403 steps, the account and no models |
| HuggingFaceDiagnostic.Inference401 | src/huggingface_diagnostic.py:76-122 | with the account and organisations printable, an inference 401 with an error text fails with code 401, that text, no permissions, the invalid-token steps and an unknown account |
| HuggingFaceDiagnostic.SuccessIff | src/huggingface_diagnostic.py:56-140 | the diagnosis succeeds exactly when the account check passes, printing the organisations and the sample does not raise and inference does not stop at a 403 or 401 error; a success reports code 200, no error, the listed models, no fix steps, both permissions and the account |
| HuggingFaceDiagnostic.ListingFailureIrrelevant | src/huggingface_diagnostic.py:86-95 | any two failing model listings lead to the same diagnosis, and a failing listing never makes the sample print raise |
| HuggingFaceDiagnostic.CrashCauses | src/huggingface_diagnostic.py:68-95 | the diagnosis raises exactly when the account check reports no error and either the account information is not a dictionary, a truthy `orgs` is not a list of dictionaries with string names, or the model sample is not all strings |

## Left out

- The Streamlit dashboard and the `streamlit_*` helpers: UI rendering, outside the routing logic.
- Printing and logging: they change no state that the core reads back.
- Threads and the `Lock` objects: the model is sequential, and each method call is one critical section.
- Persistence: the JSON and registry files, the OpenRouter cache file, catalog save and load, and `chmod`. The files are in-memory fields, and a missing file is `None`.
- `SecureKeyManager._get_or_create_encryption_key` and Fernet: encryption is a pair of function parameters, and only their round trip is assumed, through the `Inverse` predicate.
- SHA-256 hashing of keys and tokens: a function parameter.
- `tiktoken` and other platform token counters: each loaded encoding is a pair of uninterpreted functions, an `encode` that gives the tokens or raises and a `decode`. Only the fallback estimate is computed. A raising `decode` is not modelled, so IntelligentTokenizer.Tokenizer.TruncateToLimit always decodes the kept tokens.
- Python `float()` parsing of price strings: an oracle.
- `round()`: reals are kept exact.
- Wall-clock time: passed in as `now`.
- HTTP requests, sockets, `lsof` and `kill_port_process`: their outcomes are parameters.
- Timeouts: they only shape the outcome an oracle reports.
- `to_dict` serialisations and `get_healing_summary` JSON details: these are formatting.
- The Hugging Face diagnostic's printed lines and `print_full_report`: output only. Only the crashes of the printing are modelled.
- `ByokProviderRegistry._initialize_default_providers` and the registry's load and save: fixed seed data and persistence. The ratings are parameters of the constructor.
- `OpenRouterFreeModelsFilter.get_ui_model_list`: UI label formatting.
- `OpenRouterFreeModelsFilter.fetch_all_models`: HTTP. Its result is passed in as `fetched`.
- ByokProviderRegistry.TrustScoreBounds: states the bound on the unrounded score. The source applies `round(x, 1)`, which is not modelled.
- ByokProviderRegistry.WithFeedback: the running average is kept exact, without `round(x, 1)`.
- ByokProviderRegistry.Level: is computed on the unrounded score, without `round(x, 1)`.
- AutoFreeModels.ParseModel: the display strings come from oracles `formatCost` and `render`, so their exact text is not modelled.
- JsonValues.Value: has no floating-point case. A JSON number with a fraction or an exponent is not representable, so AutoFreeModels.ParseModel, AutoFreeModels.ParsedPrice and OpenRouterFreeModels.Price never see a float price such as `0.0`, and a float `context_length` (which `src/auto_free_models.py:139` would format and keep) cannot occur.
- OpenRouterFreeModels.Context: a `context_length` that is not an integer is read as 0. The source keeps the value as it is.
- JsonValues.TextOr: reads a present non-string value as the empty string. The source uses it as it is. This affects provider names in CloudProviderHealth.CheckOne, CloudProviderHealth.CheckedNames, ProviderPreflight.ValidateFrom and ProviderPreflight.ActiveNames: a non-string name is keyed as "", where the source keys it by the value or, in an f-string, by its rendering.
- ProviderPreflight.CacheKey: a list-valued `api_key` is sliced and rendered into the key by the source. The model keys it as if the key were empty.
- ProviderPreflight.Contribution: a truthy `id` (else `name`) that is not a string, such as a number or a non-empty list, is dropped. The source appends it to the ids, and it can become the tested model. The same holds for ProviderPreflight.ModelIds, ProviderPreflight.ModelIdsMembers, ProviderPreflight.ExtractModelIds and the ids CloudProviderHealth.CheckHealth lists through them.
- ProviderTokenRefresh.HashesFrom: a provider whose name is a non-zero number or `true`, with a string key, is skipped. The source stores its hash under that non-string name, where only the status listing could look it up.
- CloudProviderHealth.CloudProviderHealthMonitor.CheckAllProviders: the probe outcomes are a function of the provider's name, so two providers with the same name get the same outcome.
- HolmesianSolver.Solver.GetRecommendation: the recommendation's message text and its suggestion list are not modelled. Only the action, the auto-selected solution and the primary impossibility are.
- Strings.Lower: folds only the ASCII letters A to Z, where Python's `str.lower()` folds every Unicode letter. Text with other capital letters is matched differently by AdvancedSelfHealing.Classify, AdvancedSelfHealing.ParsePermissionRequirements, AutoFreeModels.ParseModel, HuggingFaceDiagnostic.Analyze403, IntelligentTokenizer.DetectEncoding, IntelligentTokenizer.Candidates, LocalhostAutoDetector.IdentifyNodeType, LocalhostAutoDetector.ExoNamed, ProviderPreflight's 401 and 403 tests and ReliakitIntegration.RecoveryFor.
- LocalhostAutoDetector.TestPortSpec: the `get` oracle is a function of the URL, so the health probe of `/v1/models` and the later `_get_node_details` request of the same URL get the same reply. The source makes two requests, which can answer differently.
- SecureKeyManager.LoadedKeys: a stored entry is a typed `KeyEntry`, so a key file whose entry is not an object, or whose `locked` is not a boolean, cannot be expressed. The source would read such a file and use those values as they are.
- ProviderPreflight.ValidateFrom: a provider with no `name` is keyed under `""`. The source keys it under `None`, so it does not collide there with a provider whose name is `""`.

## Findings

| source | as written | input that shows it | evidently intended | confidence | as-written member | corrected member |
|---|---|---|---|---|---|---|
| src/holmesian_solver.py:259-264 | `min(viability, ViabilityLevel.DEGRADED)` on a plain `Enum`, which has no ordering | a rate-limited candidate that passes the availability, authentication and free-only checks, or a deprecated one (`:299-301`) that passes every check, raises `TypeError` | lower the viability to DEGRADED | not executed | HolmesianSolver.EvaluateAsWritten | HolmesianSolver.Evaluate |
| src/byok_provider_registry.py:374 | the difficulty ceiling compares the enum value strings, so the order is alphabetical | `difficulty_max` MODERATE admits an EXPERT provider, and EASY admits ADVANCED | compare by the enum's declared order (EASY < MODERATE < ADVANCED < EXPERT) | not executed | ByokProviderRegistry.ExceedsAsWritten | ByokProviderRegistry.Exceeds |
