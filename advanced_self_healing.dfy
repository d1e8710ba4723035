/**
 * Failure classification and the self-healing manager: per-provider health
 * records, the per-reason remedy table, healthy-alternative selection and the
 * bounded healing journal.
 */
module AdvancedSelfHealing {
  import opened Common
  import opened Strings
  import opened Dicts
  import opened Sorting
  import IntelligentTokenizer

  datatype FailureReason =
    | AuthError | PermissionError | RateLimit | ModelNotFound | QuotaExceeded
    | Timeout | ConnectionError | InvalidRequest | ServerError | Unknown
  {
    /** The enum's string value. */
    function Value(): string
    {
      match this
      case AuthError => "authentication_error"
      case PermissionError => "permission_error"
      case RateLimit => "rate_limit_exceeded"
      case ModelNotFound => "model_not_found"
      case QuotaExceeded => "quota_exceeded"
      case Timeout => "timeout"
      case ConnectionError => "connection_error"
      case InvalidRequest => "invalid_request"
      case ServerError => "server_error"
      case Unknown => "unknown"
    }
  }

  // ---------------------------------------------------------------------------
  // classify_error

  /** The ordered message rules of `classify_error`, applied to the lower-cased message. */
  const MessageRules: seq<Rule<FailureReason>> := [
    Rule(["timeout"], Timeout),
    Rule(["connection"], ConnectionError),
    Rule(["permission", "forbidden"], PermissionError),
    Rule(["rate limit", "too many requests"], RateLimit),
    Rule(["quota", "exceeded"], QuotaExceeded),
    Rule(["not found", "does not exist"], ModelNotFound),
    Rule(["unauthorized", "invalid"], AuthError)
  ]

  /** The message chain of `classify_error` on an already lower-cased message. */
  function MessageDecision(m: string): FailureReason
  {
    if Contains(m, "timeout") then Timeout
    else if Contains(m, "connection") then ConnectionError
    else if Contains(m, "permission") || Contains(m, "forbidden") then PermissionError
    else if Contains(m, "rate limit") || Contains(m, "too many requests") then RateLimit
    else if Contains(m, "quota") || Contains(m, "exceeded") then QuotaExceeded
    else if Contains(m, "not found") || Contains(m, "does not exist") then ModelNotFound
    else if Contains(m, "unauthorized") || Contains(m, "invalid") then AuthError
    else Unknown
  }

  function ClassifyMessage(message: string): FailureReason
  {
    MessageDecision(Lower(message))
  }

  /** The table, read as the chain of tests it encodes. */
  lemma MessageRulesChain(m: string)
    ensures FirstMatch(MessageRules, m, Unknown)
         == if AnyIn(["timeout"], m) then Timeout
            else if AnyIn(["connection"], m) then ConnectionError
            else if AnyIn(["permission", "forbidden"], m) then PermissionError
            else if AnyIn(["rate limit", "too many requests"], m) then RateLimit
            else if AnyIn(["quota", "exceeded"], m) then QuotaExceeded
            else if AnyIn(["not found", "does not exist"], m) then ModelNotFound
            else if AnyIn(["unauthorized", "invalid"], m) then AuthError
            else Unknown
  {
    var t6: seq<Rule<FailureReason>> := [Rule(["unauthorized", "invalid"], AuthError)];
    var t5 := [Rule(["not found", "does not exist"], ModelNotFound)] + t6;
    var t4 := [Rule(["quota", "exceeded"], QuotaExceeded)] + t5;
    var t3 := [Rule(["rate limit", "too many requests"], RateLimit)] + t4;
    var t2 := [Rule(["permission", "forbidden"], PermissionError)] + t3;
    var t1 := [Rule(["connection"], ConnectionError)] + t2;
    var t0 := [Rule(["timeout"], Timeout)] + t1;
    FirstMatchCons(t6[0], [], m, Unknown);
    assert t6 == [t6[0]] + [];
    FirstMatchCons(t5[0], t6, m, Unknown);
    FirstMatchCons(t4[0], t5, m, Unknown);
    FirstMatchCons(t3[0], t4, m, Unknown);
    FirstMatchCons(t2[0], t3, m, Unknown);
    FirstMatchCons(t1[0], t2, m, Unknown);
    FirstMatchCons(t0[0], t1, m, Unknown);
    assert t0 == MessageRules;
  }

  /** The message chain is the first matching rule of the table. */
  lemma MessageDecisionByRules(m: string)
    ensures MessageDecision(m) == FirstMatch(MessageRules, m, Unknown)
  {
    MessageRulesChain(m);
    AnyInOne("timeout", m);
    AnyInOne("connection", m);
    AnyInTwo("permission", "forbidden", m);
    AnyInTwo("rate limit", "too many requests", m);
    AnyInTwo("quota", "exceeded", m);
    AnyInTwo("not found", "does not exist", m);
    AnyInTwo("unauthorized", "invalid", m);
  }

  /** The status codes `classify_error` recognises. */
  predicate KnownCode(code: int)
  {
    code == 401 || code == 403 || code == 404 || code == 429 || code == 402 || code >= 500 || code == 400
  }

  /**
   * `classify_error`: a recognised status code decides; a missing or zero
   * code, or any other code, leaves the decision to a non-empty message, and
   * everything else is UNKNOWN.
   */
  function Classify(statusCode: Option<int>, message: Option<string>): FailureReason
  {
    var code := statusCode.GetOr(0);   // `if status_code:` skips None and 0 alike
    if code == 401 then AuthError
    else if code == 403 then PermissionError
    else if code == 404 then ModelNotFound
    else if code == 429 then RateLimit
    else if code == 402 then QuotaExceeded
    else if code >= 500 then ServerError
    else if code == 400 then InvalidRequest
    else if message.Some? && message.value != "" then ClassifyMessage(message.value)
    else Unknown
  }

  /** The status-code table, which no message overrides. */
  lemma ClassifyCodes(code: int, message: Option<string>)
    requires KnownCode(code)
    ensures Classify(Some(code), message)
         == if code == 401 then AuthError
            else if code == 403 then PermissionError
            else if code == 404 then ModelNotFound
            else if code == 429 then RateLimit
            else if code == 402 then QuotaExceeded
            else if code == 400 then InvalidRequest
            else ServerError
  {
  }

  /**
   * Without a recognised code the message decides, by the first matching rule
   * of the table on the lower-cased text, so the decision ignores case.
   */
  lemma ClassifyByMessageRules(statusCode: Option<int>, message: string)
    requires !KnownCode(statusCode.GetOr(0))
    ensures Classify(statusCode, Some(message)) == FirstMatch(MessageRules, Lower(message), Unknown)
    ensures Classify(statusCode, Some(message)) == Classify(statusCode, Some(Lower(message)))
  {
    var m := Lower(message);
    LowerIdempotent(message);
    MessageDecisionByRules(m);
    if message == "" {
      EmptyMessageUnknown();
    } else {
      assert |m| == |message|;
    }
  }

  lemma EmptyMessageUnknown()
    ensures MessageDecision("") == Unknown
  {
  }

  // ---------------------------------------------------------------------------
  // _parse_permission_requirements

  const DefaultScopes: seq<string> := ["inference", "models:read"]

  /**
   * `_parse_permission_requirements`: the scopes the error text mentions,
   * in the fixed order inference, chat.completions, models:read, or the
   * default pair when there is no text or it mentions none.
   */
  function ParsePermissionRequirements(details: Option<string>): (r: seq<string>)
    ensures |r| > 0 && Distinct(r)
    ensures details.None? || details.value == "" ==> r == DefaultScopes
    ensures details.Some? && details.value != "" ==>
      var e := Lower(details.value);
      var none := !Contains(e, "inference") && !Contains(e, "chat") && !(Contains(e, "model") && Contains(e, "read"));
      && ("inference" in r <==> none || Contains(e, "inference"))
      && ("chat.completions" in r <==> !none && Contains(e, "chat"))
      && ("models:read" in r <==> none || (Contains(e, "model") && Contains(e, "read")))
      && (forall s :: s in r ==> s in ["inference", "chat.completions", "models:read"])
  {
    if details.None? || details.value == "" then DefaultScopes
    else
      var e := Lower(details.value);
      var scopes :=
        (if Contains(e, "inference") then ["inference"] else [])
        + (if Contains(e, "chat") then ["chat.completions"] else [])
        + (if Contains(e, "model") && Contains(e, "read") then ["models:read"] else []);
      if scopes == [] then DefaultScopes else scopes
  }

  // ---------------------------------------------------------------------------
  // Provider health records

  datatype ProviderHealthRecord = ProviderHealthRecord(
    providerName: string,
    healthy: bool,
    lastCheck: int,
    lastSuccess: Option<int>,
    lastFailure: Option<int>,
    consecutiveFailures: int,
    consecutiveSuccesses: int,
    totalRequests: int,
    successfulRequests: int,
    failureReasons: map<FailureReason, int>,
    currentModels: seq<string>,
    unavailableModels: seq<string>,
    permissionIssues: seq<string>)
  {
    /** `success_rate`: a percentage, 0 before the first request. */
    function SuccessRate(): real
    {
      if totalRequests == 0 then 0.0 else (successfulRequests as real / totalRequests as real) * 100.0
    }
  }

  /** The record `_record_failure` and `record_success` create for a new provider. */
  function NewRecord(name: string, now: int): ProviderHealthRecord
  {
    ProviderHealthRecord(name, true, now, None, None, 0, 0, 0, 0, map[], [], [], [])
  }

  /** What holds of every record the manager keeps. */
  predicate RecordOk(r: ProviderHealthRecord)
  {
    && 0 <= r.successfulRequests <= r.totalRequests
    && r.consecutiveFailures >= 0 && r.consecutiveSuccesses >= 0
    && (r.consecutiveFailures == 0 || r.consecutiveSuccesses == 0)
    && (r.healthy <==> r.consecutiveFailures < 3)
    && (forall k :: k in r.failureReasons ==> 1 <= r.failureReasons[k] <= r.totalRequests - r.successfulRequests)
    && Distinct(r.currentModels) && Distinct(r.unavailableModels) && Distinct(r.permissionIssues)
  }

  lemma SuccessRateBounds(r: ProviderHealthRecord)
    requires RecordOk(r)
    ensures 0.0 <= r.SuccessRate() <= 100.0
    ensures r.totalRequests == 0 ==> r.SuccessRate() == 0.0
  {
    if r.totalRequests > 0 {
      var q := r.successfulRequests as real / r.totalRequests as real;
      assert q * (r.totalRequests as real) == r.successfulRequests as real;
      assert q <= 1.0 by {
        if q > 1.0 {
          assert q * (r.totalRequests as real) > 1.0 * (r.totalRequests as real);
        }
      }
    }
  }

  /** The record after `_record_failure`; `prev` is the stored record, if any. */
  function FailedRecord(prev: Option<ProviderHealthRecord>, name: string, reason: FailureReason, now: int): ProviderHealthRecord
  {
    var r := prev.GetOr(NewRecord(name, now));
    var failures := r.consecutiveFailures + 1;
    var count := if reason in r.failureReasons then r.failureReasons[reason] else 0;
    r.(lastFailure := Some(now), lastCheck := now,
       consecutiveFailures := failures, consecutiveSuccesses := 0,
       totalRequests := r.totalRequests + 1,
       failureReasons := r.failureReasons[reason := count + 1],
       healthy := if failures >= 3 then false else r.healthy)
  }

  /** The record after `record_success`; an empty model name is not tracked. */
  function SucceededRecord(prev: Option<ProviderHealthRecord>, name: string, model: Option<string>, now: int): ProviderHealthRecord
  {
    var r := prev.GetOr(NewRecord(name, now));
    r.(lastSuccess := Some(now), lastCheck := now,
       consecutiveSuccesses := r.consecutiveSuccesses + 1, consecutiveFailures := 0,
       successfulRequests := r.successfulRequests + 1, totalRequests := r.totalRequests + 1,
       healthy := true,
       currentModels := if model.Some? && model.value != "" && model.value !in r.currentModels
                        then r.currentModels + [model.value] else r.currentModels)
  }

  /**
   * A failure counts one more request and one more consecutive failure,
   * clears the success streak, counts the reason, and makes the provider
   * unhealthy from the third consecutive failure on.
   */
  lemma FailedRecordSpec(prev: Option<ProviderHealthRecord>, name: string, reason: FailureReason, now: int)
    requires prev.Some? ==> RecordOk(prev.value) && prev.value.providerName == name
    ensures var p := prev.GetOr(NewRecord(name, now));
      var r := FailedRecord(prev, name, reason, now);
      && RecordOk(r) && r.providerName == name
      && r.consecutiveFailures == p.consecutiveFailures + 1 && r.consecutiveSuccesses == 0
      && r.totalRequests == p.totalRequests + 1 && r.successfulRequests == p.successfulRequests
      && reason in r.failureReasons
      && r.failureReasons[reason] == (if reason in p.failureReasons then p.failureReasons[reason] else 0) + 1
      && (forall k :: k != reason ==> (k in r.failureReasons <==> k in p.failureReasons))
      && (r.healthy <==> r.consecutiveFailures < 3)
      && r.lastFailure == Some(now) && r.lastSuccess == p.lastSuccess
  {
  }

  /**
   * A success counts one more successful request, clears the failure streak,
   * makes the provider healthy, and tracks the model at most once.
   */
  lemma SucceededRecordSpec(prev: Option<ProviderHealthRecord>, name: string, model: Option<string>, now: int)
    requires prev.Some? ==> RecordOk(prev.value) && prev.value.providerName == name
    ensures var p := prev.GetOr(NewRecord(name, now));
      var r := SucceededRecord(prev, name, model, now);
      && RecordOk(r) && r.providerName == name && r.healthy
      && r.consecutiveFailures == 0 && r.consecutiveSuccesses == p.consecutiveSuccesses + 1
      && r.successfulRequests == p.successfulRequests + 1 && r.totalRequests == p.totalRequests + 1
      && r.failureReasons == p.failureReasons
      && (model.Some? && model.value != "" ==> model.value in r.currentModels)
      && (forall m :: m in r.currentModels <==> m in p.currentModels || (model.Some? && model.value != "" && m == model.value))
  {
  }

  /** Three failures in a row make a healthy provider unhealthy; a success then heals it. */
  lemma ThreeFailuresThenSuccess(r: ProviderHealthRecord, name: string, a: FailureReason, b: FailureReason,
                                 c: FailureReason, now: int)
    requires RecordOk(r) && r.providerName == name
    ensures var r3 := FailedRecord(Some(FailedRecord(Some(FailedRecord(Some(r), name, a, now)), name, b, now)), name, c, now);
      !r3.healthy && SucceededRecord(Some(r3), name, None, now).healthy
  {
    FailedRecordSpec(Some(r), name, a, now);
    var r1 := FailedRecord(Some(r), name, a, now);
    FailedRecordSpec(Some(r1), name, b, now);
    var r2 := FailedRecord(Some(r1), name, b, now);
    FailedRecordSpec(Some(r2), name, c, now);
  }

  /** Every stored record is well formed and filed under its own provider's name. */
  ghost predicate HealthOk(d: Dict<string, ProviderHealthRecord>)
  {
    WellFormed(d) && forall k :: HasKey(d, k) ==> RecordOk(Get(d, k).value) && Get(d, k).value.providerName == k
  }

  lemma PutHealthOk(d: Dict<string, ProviderHealthRecord>, k: string, v: ProviderHealthRecord)
    requires HealthOk(d) && RecordOk(v) && v.providerName == k
    ensures HealthOk(Put(d, k, v))
  {
    PutWellFormed(d, k, v);
    forall k' | HasKey(Put(d, k, v), k')
      ensures RecordOk(Get(Put(d, k, v), k').value) && Get(Put(d, k, v), k').value.providerName == k'
    {
      HasKeyPut(d, k, v, k');
    }
  }

  // ---------------------------------------------------------------------------
  // _find_healthy_alternative_provider

  predicate IsHealthyOther(e: (string, ProviderHealthRecord), current: string)
  {
    e.1.healthy && e.0 != current
  }

  /** The healthy records of other providers, in insertion order. */
  function HealthyOthers(d: Dict<string, ProviderHealthRecord>, current: string): (r: Dict<string, ProviderHealthRecord>)
    ensures |r| <= |d|
  {
    if d == [] then []
    else (if IsHealthyOther(d[0], current) then [d[0]] else []) + HealthyOthers(d[1..], current)
  }

  /** The candidates are exactly the healthy records of other providers. */
  lemma {:induction false} HealthyOthersMembers(d: Dict<string, ProviderHealthRecord>, current: string)
    ensures forall e :: e in HealthyOthers(d, current) <==> e in d && IsHealthyOther(e, current)
  {
    if d != [] {
      HealthyOthersMembers(d[1..], current);
      assert d == [d[0]] + d[1..];
    }
  }

  function RateKey(e: (string, ProviderHealthRecord)): SortKey
  {
    SortKey(e.1.SuccessRate(), 0.0)
  }

  /** `_find_healthy_alternative_provider`: the head of the candidates sorted by success rate. */
  function HealthyAlternative(d: Dict<string, ProviderHealthRecord>, current: string): Option<string>
  {
    var hs := HealthyOthers(d, current);
    if hs == [] then None else Some(SortDesc(hs, RateKey)[0].0)
  }

  lemma {:induction false} HealthyOthersConcat(a: Dict<string, ProviderHealthRecord>, b: Dict<string, ProviderHealthRecord>, current: string)
    ensures HealthyOthers(a + b, current) == HealthyOthers(a, current) + HealthyOthers(b, current)
  {
    if a != [] {
      assert (a + b)[0] == a[0] && (a + b)[1..] == a[1..] + b;
      HealthyOthersConcat(a[1..], b, current);
    } else {
      assert a + b == b;
    }
  }

  /** The candidates keep the order of the dictionary. */
  lemma HealthyOthersOrder(d: Dict<string, ProviderHealthRecord>, current: string, i: int, k: int)
    requires 0 <= i < k < |d| && IsHealthyOther(d[i], current) && IsHealthyOther(d[k], current)
    ensures var hs := HealthyOthers(d, current);
      exists a, b :: 0 <= a < b < |hs| && hs[a] == d[i] && hs[b] == d[k]
  {
    var p1, m, p2 := d[..i], d[i + 1..k], d[k + 1..];
    assert d == p1 + [d[i]] + m + [d[k]] + p2;
    HealthyOthersConcat(p1 + [d[i]] + m + [d[k]], p2, current);
    HealthyOthersConcat(p1 + [d[i]] + m, [d[k]], current);
    HealthyOthersConcat(p1 + [d[i]], m, current);
    HealthyOthersConcat(p1, [d[i]], current);
    var hs := HealthyOthers(d, current);
    var a := |HealthyOthers(p1, current)|;
    var b := a + 1 + |HealthyOthers(m, current)|;
    assert hs[a] == d[i] && hs[b] == d[k];
  }

  /** The candidates have distinct names, so no record appears twice. */
  lemma {:induction false} HealthyOthersDistinct(d: Dict<string, ProviderHealthRecord>, current: string)
    requires WellFormed(d)
    ensures forall a, b :: 0 <= a < b < |HealthyOthers(d, current)| ==>
      HealthyOthers(d, current)[a].0 != HealthyOthers(d, current)[b].0
  {
    if d != [] {
      var rest := HealthyOthers(d[1..], current);
      var hs := HealthyOthers(d, current);
      assert Keys(d[1..]) == Keys(d)[1..];
      assert WellFormed(d[1..]);
      HealthyOthersDistinct(d[1..], current);
      if IsHealthyOther(d[0], current) {
        HealthyOthersMembers(d[1..], current);
        assert hs == [d[0]] + rest;
        forall a, b | 0 <= a < b < |hs| ensures hs[a].0 != hs[b].0 {
          if a == 0 {
            assert rest[b - 1] in rest;
            var j :| 0 <= j < |d[1..]| && d[1..][j] == rest[b - 1];
            assert Keys(d)[0] != Keys(d)[j + 1];
          } else {
            assert hs[a] == rest[a - 1] && hs[b] == rest[b - 1];
          }
        }
      } else {
        assert hs == rest;
      }
    }
  }

  /** There is no alternative exactly when no other provider is healthy. */
  lemma HealthyAlternativeNone(d: Dict<string, ProviderHealthRecord>, current: string)
    ensures HealthyAlternative(d, current).None? <==> forall i :: 0 <= i < |d| ==> !IsHealthyOther(d[i], current)
  {
    var hs := HealthyOthers(d, current);
    HealthyOthersMembers(d, current);
    if hs != [] {
      assert hs[0] in hs;
    } else if exists i :: 0 <= i < |d| && IsHealthyOther(d[i], current) {
      var i :| 0 <= i < |d| && IsHealthyOther(d[i], current);
      assert d[i] in hs;
    }
  }

  /** The alternative is the first candidate of maximal rate, and an entry of the dictionary. */
  lemma HealthyAlternativeEntry(d: Dict<string, ProviderHealthRecord>, current: string) returns (j: int)
    requires WellFormed(d) && HealthyAlternative(d, current).Some?
    ensures HealthyOthers(d, current) != []
    ensures 0 <= j < |d| && d[j] == FirstMax(HealthyOthers(d, current), RateKey)
    ensures d[j].0 == HealthyAlternative(d, current).value && IsHealthyOther(d[j], current)
    ensures Get(d, d[j].0) == Some(d[j].1)
  {
    var hs := HealthyOthers(d, current);
    HealthyOthersMembers(d, current);
    SortDescHead(hs, RateKey);
    FirstMaxIsMax(hs, RateKey);
    var w := FirstMax(hs, RateKey);
    j :| 0 <= j < |d| && d[j] == w;
    GetAt(d, j);
  }

  /** No healthy other provider rates above the alternative. */
  lemma HealthyAlternativeMaximal(d: Dict<string, ProviderHealthRecord>, current: string, j: int, i: int)
    requires HealthyOthers(d, current) != []
    requires 0 <= j < |d| && d[j] == FirstMax(HealthyOthers(d, current), RateKey)
    requires 0 <= i < |d| && IsHealthyOther(d[i], current)
    ensures d[i].1.SuccessRate() <= d[j].1.SuccessRate()
  {
    var hs := HealthyOthers(d, current);
    HealthyOthersMembers(d, current);
    assert d[i] in hs;
    var a :| 0 <= a < |hs| && hs[a] == d[i];
    FirstMaxIsMax(hs, RateKey);
    assert AtLeast(RateKey(d[j]), RateKey(hs[a]));
  }

  /**
   * The alternative is another provider with a healthy record and a maximal
   * success rate among them.
   */
  lemma HealthyAlternativeSpec(d: Dict<string, ProviderHealthRecord>, current: string)
    requires WellFormed(d) && HealthyAlternative(d, current).Some?
    ensures var n := HealthyAlternative(d, current).value;
      && n != current && HasKey(d, n) && Get(d, n).value.healthy
      && forall i :: 0 <= i < |d| && IsHealthyOther(d[i], current) ==>
           d[i].1.SuccessRate() <= Get(d, n).value.SuccessRate()
  {
    var j := HealthyAlternativeEntry(d, current);
    forall i | 0 <= i < |d| && IsHealthyOther(d[i], current)
      ensures d[i].1.SuccessRate() <= d[j].1.SuccessRate()
    {
      HealthyAlternativeMaximal(d, current, j, i);
    }
  }

  /** Ties go to the provider inserted first: an earlier healthy provider rates strictly lower. */
  lemma HealthyAlternativeFirstOnTies(d: Dict<string, ProviderHealthRecord>, current: string, i: int, k: int)
    requires WellFormed(d) && 0 <= i < k < |d|
    requires HealthyAlternative(d, current) == Some(d[k].0)
    requires IsHealthyOther(d[i], current)
    ensures d[i].1.SuccessRate() < d[k].1.SuccessRate()
  {
    var hs := HealthyOthers(d, current);
    HealthyOthersMembers(d, current);
    SortDescHead(hs, RateKey);
    FirstMaxIsMax(hs, RateKey);
    var w := FirstMax(hs, RateKey);
    var j :| 0 <= j < |d| && d[j] == w;
    assert Keys(d)[j] == Keys(d)[k];
    assert j == k;
    HealthyOthersOrder(d, current, i, k);
    var a, b :| 0 <= a < b < |hs| && hs[a] == d[i] && hs[b] == d[k];
    HealthyOthersDistinct(d, current);
    FirstMaxIsFirst(hs, RateKey, b);
    assert Above(RateKey(hs[b]), RateKey(hs[a]));
  }

  // ---------------------------------------------------------------------------
  // Healing actions and the journal

  datatype ActionType = FallbackModel | GuidePermissionFix | RotateProvider | RetryWithBackoff | NotifyUser

  /** The `details` dictionary of each kind of action. */
  datatype Details =
    | NoDetails
    | ModelFallback(originalModel: string, alternativeModel: string, provider: string, contextLength: int)
    | PermissionGuide(provider: string, message: string, requiredScopes: seq<string>,
                      fixSteps: seq<string>, actionable: bool)
    | Rotation(fromProvider: string, toProvider: string)
    | RotationForReason(fromProvider: string, toProvider: string, reasonValue: string)
    | RotationAfterRetries(fromProvider: string, maxRetriesExceeded: bool)
    | RetryCount(retryCount: int)
    | UserNotice(message: string, actionable: bool, actionUrl: string)

  datatype HealingAction = HealingAction(
    actionType: ActionType,
    target: string,
    reason: FailureReason,
    timestamp: int,
    success: bool,
    details: Details,
    error: Option<string>)

  const MaxJournalSize: int := 1000

  /** `_journal_action`: append, then keep only the newest `max` actions. */
  function JournalAction(journal: seq<HealingAction>, a: HealingAction, max: int): (r: seq<HealingAction>)
  {
    var j := journal + [a];
    if |j| > max then SliceFrom(j, -max) else j
  }

  /** The journal after `_journal_action` on each action in turn. */
  function JournalAll(journal: seq<HealingAction>, actions: seq<HealingAction>, max: int): seq<HealingAction>
  {
    if actions == [] then journal
    else JournalAction(JournalAll(journal, actions[..|actions| - 1], max), actions[|actions| - 1], max)
  }

  /** The newest `min(n, |s|)` elements of `s`. */
  function Newest<T>(s: seq<T>, n: nat): (r: seq<T>)
  {
    if |s| <= n then s else s[|s| - n..]
  }

  /**
   * The journal holds the newest `max` actions of everything journaled,
   * newest last.
   */
  lemma {:induction false} JournalAllKeepsNewest(journal: seq<HealingAction>, actions: seq<HealingAction>, max: nat)
    requires max >= 1 && |journal| <= max
    ensures JournalAll(journal, actions, max) == Newest(journal + actions, max)
  {
    if actions != [] {
      var init := actions[..|actions| - 1];
      var a := actions[|actions| - 1];
      JournalAllKeepsNewest(journal, init, max);
      var j := Newest(journal + init, max);
      assert journal + actions == (journal + init) + [a];
      if |j + [a]| > max {
        assert |j| == max;
        SliceFromLast(j + [a], max);
        assert (j + [a])[1..] == Newest((journal + init) + [a], max);
      }
    }
  }

  // ---------------------------------------------------------------------------
  // handle_provider_failure

  /** `_handle_model_not_found`'s bookkeeping: mark the model unavailable, at most once. */
  function WithUnavailable(h: Dict<string, ProviderHealthRecord>, name: string, model: string): Dict<string, ProviderHealthRecord>
  {
    match Get(h, name)
    case None => h
    case Some(r) =>
      if model in r.unavailableModels then h
      else Put(h, name, r.(unavailableModels := r.unavailableModels + [model]))
  }

  /** The issue `_handle_permission_error` records: the first 100 characters of the details. */
  function IssueText(details: Option<string>): string
  {
    if details.Some? && details.value != "" then SliceTo(details.value, 100) else "Unknown permission issue"
  }

  /** `_handle_permission_error`'s bookkeeping: record the issue, at most once. */
  function WithPermissionIssue(h: Dict<string, ProviderHealthRecord>, name: string, details: Option<string>): Dict<string, ProviderHealthRecord>
  {
    match Get(h, name)
    case None => h
    case Some(r) =>
      var issue := IssueText(details);
      if issue in r.permissionIssues then h
      else Put(h, name, r.(permissionIssues := r.permissionIssues + [issue]))
  }

  function PermissionGuidance(name: string, details: Option<string>): Details
  {
    PermissionGuide(name, "Insufficient permissions for " + name, ParsePermissionRequirements(details),
                    ["1. Go to " + name + " dashboard",
                     "2. Regenerate API token with required permissions",
                     "3. Update token in HUD settings",
                     "4. Reconnect to apply changes"],
                    true)
  }

  /** What `handle_provider_failure` does, and whether its actions reach the journal. */
  datatype Response = Response(
    health: Dict<string, ProviderHealthRecord>,
    altProvider: Option<string>,
    altModel: Option<string>,
    actions: seq<HealingAction>,
    journaled: bool)

  type Health = Dict<string, ProviderHealthRecord>

  /** The catalog's alternatives to a model, `None` when the manager has no catalog. */
  type Alternatives = Option<seq<IntelligentTokenizer.ModelInfo>>

  /** MODEL_NOT_FOUND: mark the model, then fall back to the catalog's first alternative. */
  function OnModelNotFound(h: Health, name: string, model: string, alternatives: Alternatives, now: int): Response
  {
    var h2 := WithUnavailable(h, name, model);
    if alternatives.Some? && alternatives.value != [] then
      var alt := alternatives.value[0];
      var action := HealingAction(FallbackModel, alt.id, ModelNotFound, now, true,
                                  ModelFallback(model, alt.id, alt.provider, alt.contextLength), None);
      if alt.id != "" then Response(h2, Some(alt.provider), Some(alt.id), [action], false)
      else Response(h2, None, None, [action], true)
    else
      Response(h2, None, None, [HealingAction(FallbackModel, model, ModelNotFound, now, false, NoDetails,
                                              Some("No alternative model found"))], true)
  }

  /** PERMISSION_ERROR: record the issue, guide the user, then rotate if another provider is healthy. */
  function OnPermissionError(h: Health, name: string, model: string, details: Option<string>, now: int): Response
  {
    var h2 := WithPermissionIssue(h, name, details);
    var guide := HealingAction(GuidePermissionFix, name, PermissionError, now, false,
                               PermissionGuidance(name, details), None);
    var alt := HealthyAlternative(h2, name);
    if alt.Some? && alt.value != "" then
      Response(h2, alt, Some(model),
               [guide, HealingAction(RotateProvider, alt.value, PermissionError, now, true, Rotation(name, alt.value), None)],
               false)
    else Response(h2, None, None, [guide], true)
  }

  /** RATE_LIMIT and QUOTA_EXCEEDED: rotate if another provider is healthy. */
  function OnRateOrQuota(h: Health, name: string, model: string, reason: FailureReason, now: int): Response
  {
    var alt := HealthyAlternative(h, name);
    if alt.Some? && alt.value != "" then
      Response(h, alt, Some(model),
               [HealingAction(RotateProvider, alt.value, reason, now, true,
                              RotationForReason(name, alt.value, reason.Value()), None)], false)
    else Response(h, None, None, [], true)
  }

  /** TIMEOUT and CONNECTION_ERROR: retry below the retry limit, rotate from it on. */
  function OnConnectivity(h: Health, name: string, model: string, reason: FailureReason, failures: int,
                          maxRetry: int, now: int): Response
  {
    if failures < maxRetry then
      Response(h, Some(name), Some(model),
               [HealingAction(RetryWithBackoff, name, reason, now, false, RetryCount(failures), None)], false)
    else
      var alt := HealthyAlternative(h, name);
      if alt.Some? && alt.value != "" then
        Response(h, alt, Some(model),
                 [HealingAction(RotateProvider, alt.value, reason, now, true, RotationAfterRetries(name, true), None)], false)
      else Response(h, None, None, [], true)
  }

  function AuthNotice(name: string, now: int): HealingAction
  {
    HealingAction(NotifyUser, name, AuthError, now, false,
                  UserNotice("API key for " + name + " is invalid. Please update in settings.", true, "/settings/api-keys"),
                  None)
  }

  /**
   * The remedy for one failure (`handle_provider_failure`). The failure is
   * recorded first; the branches that return early skip the journal.
   */
  function Respond(h0: Health, name: string, model: string, reason: FailureReason, details: Option<string>,
                   alternatives: Alternatives, maxRetry: int, now: int): Response
  {
    var failed := FailedRecord(Get(h0, name), name, reason, now);
    Remedy(Put(h0, name, failed), name, model, reason, failed.consecutiveFailures, details, alternatives, maxRetry, now)
  }

  /** The branch of `handle_provider_failure` for each reason, once the failure is on record in `h`. */
  function Remedy(h: Health, name: string, model: string, reason: FailureReason, failures: int,
                  details: Option<string>, alternatives: Alternatives, maxRetry: int, now: int): Response
  {
    match reason
    case ModelNotFound => OnModelNotFound(h, name, model, alternatives, now)
    case PermissionError => OnPermissionError(h, name, model, details, now)
    case RateLimit => OnRateOrQuota(h, name, model, reason, now)
    case QuotaExceeded => OnRateOrQuota(h, name, model, reason, now)
    case Timeout => OnConnectivity(h, name, model, reason, failures, maxRetry, now)
    case ConnectionError => OnConnectivity(h, name, model, reason, failures, maxRetry, now)
    case AuthError => Response(h, None, None, [AuthNotice(name, now)], true)
    case InvalidRequest => Response(h, None, None, [], true)
    case ServerError => Response(h, None, None, [], true)
    case Unknown => Response(h, None, None, [], true)
  }

  /**
   * The actions reach the journal exactly when no alternative is returned,
   * and then the returned model is absent too.
   */
  lemma JournaledIffNoAlternative(h0: Health, name: string, model: string, reason: FailureReason,
                                  details: Option<string>, alternatives: Alternatives, maxRetry: int, now: int)
    ensures var p := Respond(h0, name, model, reason, details, alternatives, maxRetry, now);
      (p.journaled <==> p.altProvider.None?) && (p.altProvider.None? <==> p.altModel.None?)
  {
  }

  /** The health records after recording the failure. */
  lemma RecordedHealth(h0: Health, name: string, reason: FailureReason, now: int)
    requires HealthOk(h0)
    ensures var h := Put(h0, name, FailedRecord(Get(h0, name), name, reason, now));
      && HealthOk(h) && HasKey(h, name)
      && (forall k :: HasKey(h, k) <==> HasKey(h0, k) || k == name)
      && (forall k :: k != name ==> Get(h, k) == Get(h0, k))
  {
    var failed := FailedRecord(Get(h0, name), name, reason, now);
    FailedRecordSpec(Get(h0, name), name, reason, now);
    PutHealthOk(h0, name, failed);
    forall k ensures HasKey(Put(h0, name, failed), k) <==> HasKey(h0, k) || k == name {
      HasKeyPut(h0, name, failed, k);
    }
  }

  /** Marking a model unavailable changes only that list of that record, and adds the model once. */
  lemma WithUnavailableSpec(h: Health, name: string, model: string)
    requires HealthOk(h) && HasKey(h, name)
    ensures var h2 := WithUnavailable(h, name, model);
      var r := Get(h, name).value;
      && HealthOk(h2) && (forall k :: HasKey(h2, k) <==> HasKey(h, k))
      && (forall k :: k != name ==> Get(h2, k) == Get(h, k))
      && Get(h2, name).value == r.(unavailableModels := Get(h2, name).value.unavailableModels)
      && (forall m :: m in Get(h2, name).value.unavailableModels <==> m in r.unavailableModels || m == model)
  {
    var r := Get(h, name).value;
    if model !in r.unavailableModels {
      var r2 := r.(unavailableModels := r.unavailableModels + [model]);
      PutHealthOk(h, name, r2);
      forall k ensures HasKey(Put(h, name, r2), k) <==> HasKey(h, k) { HasKeyPut(h, name, r2, k); }
    }
  }

  /** Recording a permission issue changes only that list of that record, and adds the issue once. */
  lemma WithPermissionIssueSpec(h: Health, name: string, details: Option<string>)
    requires HealthOk(h) && HasKey(h, name)
    ensures var h2 := WithPermissionIssue(h, name, details);
      var r := Get(h, name).value;
      && HealthOk(h2) && (forall k :: HasKey(h2, k) <==> HasKey(h, k))
      && (forall k :: k != name ==> Get(h2, k) == Get(h, k))
      && Get(h2, name).value == r.(permissionIssues := Get(h2, name).value.permissionIssues)
      && (forall m :: m in Get(h2, name).value.permissionIssues <==> m in r.permissionIssues || m == IssueText(details))
  {
    var r := Get(h, name).value;
    var issue := IssueText(details);
    if issue !in r.permissionIssues {
      var r2 := r.(permissionIssues := r.permissionIssues + [issue]);
      PutHealthOk(h, name, r2);
      forall k ensures HasKey(Put(h, name, r2), k) <==> HasKey(h, k) { HasKeyPut(h, name, r2, k); }
    }
  }

  /** Every response keeps the health records well formed and holds a record for the failing provider. */
  lemma RespondKeepsHealth(h0: Health, name: string, model: string, reason: FailureReason,
                           details: Option<string>, alternatives: Alternatives, maxRetry: int, now: int)
    requires HealthOk(h0)
    ensures var p := Respond(h0, name, model, reason, details, alternatives, maxRetry, now);
      && HealthOk(p.health)
      && (forall k :: HasKey(p.health, k) <==> HasKey(h0, k) || k == name)
  {
    RecordedHealth(h0, name, reason, now);
    var h := Put(h0, name, FailedRecord(Get(h0, name), name, reason, now));
    RespondHealth(h0, name, model, reason, details, alternatives, maxRetry, now);
    if reason == ModelNotFound {
      WithUnavailableSpec(h, name, model);
    } else if reason == PermissionError {
      WithPermissionIssueSpec(h, name, details);
    }
  }

  /** `handle_provider_failure` first records the failure, then takes the branch for the reason. */
  lemma RespondDispatch(h0: Health, name: string, model: string, reason: FailureReason,
                        details: Option<string>, alternatives: Alternatives, maxRetry: int, now: int)
    ensures var failed := FailedRecord(Get(h0, name), name, reason, now);
      Respond(h0, name, model, reason, details, alternatives, maxRetry, now)
        == Remedy(Put(h0, name, failed), name, model, reason, failed.consecutiveFailures, details, alternatives, maxRetry, now)
  {
  }

  /** Only MODEL_NOT_FOUND and PERMISSION_ERROR touch the health beyond recording the failure. */
  lemma RespondHealth(h0: Health, name: string, model: string, reason: FailureReason,
                      details: Option<string>, alternatives: Alternatives, maxRetry: int, now: int)
    ensures var h := Put(h0, name, FailedRecord(Get(h0, name), name, reason, now));
      Respond(h0, name, model, reason, details, alternatives, maxRetry, now).health
        == if reason == ModelNotFound then WithUnavailable(h, name, model)
           else if reason == PermissionError then WithPermissionIssue(h, name, details)
           else h
  {
    RespondDispatch(h0, name, model, reason, details, alternatives, maxRetry, now);
  }

  /**
   * The answer to MODEL_NOT_FOUND for provider `name` whose record was `r`:
   * the record is kept except that the model is marked unavailable once,
   * and a single fallback action succeeds exactly when the catalog offered an
   * alternative, which is returned when its id is non-empty.
   */
  predicate ModelNotFoundAnswer(p: Response, name: string, r: ProviderHealthRecord, model: string,
                                alternatives: Alternatives)
  {
    var found := alternatives.Some? && alternatives.value != [];
    && HasKey(p.health, name)
    && Get(p.health, name).value == r.(unavailableModels := Get(p.health, name).value.unavailableModels)
    && model in Get(p.health, name).value.unavailableModels
    && Distinct(Get(p.health, name).value.unavailableModels)
    && |p.actions| == 1 && p.actions[0].actionType == FallbackModel
    && (p.actions[0].success <==> found)
    && (found && alternatives.value[0].id != "" ==>
          p.altProvider == Some(alternatives.value[0].provider) && p.altModel == Some(alternatives.value[0].id))
    && (!found || alternatives.value[0].id == "" ==> p.altProvider == None && p.altModel == None)
  }

  /**
   * MODEL_NOT_FOUND counts the failure, marks the model unavailable once, and
   * falls back to the catalog's first alternative, which is returned when its
   * id is non-empty. The single fallback action succeeds exactly when the
   * catalog offered an alternative.
   */
  lemma RemedyModelNotFound(h0: Health, name: string, model: string, details: Option<string>,
                            alternatives: Alternatives, maxRetry: int, now: int)
    requires HealthOk(h0)
    ensures ModelNotFoundAnswer(Respond(h0, name, model, ModelNotFound, details, alternatives, maxRetry, now),
                                name, FailedRecord(Get(h0, name), name, ModelNotFound, now), model, alternatives)
  {
    var failed := FailedRecord(Get(h0, name), name, ModelNotFound, now);
    var h := Put(h0, name, failed);
    RecordedHealth(h0, name, ModelNotFound, now);
    assert Get(h, name).value == failed;
    RespondDispatch(h0, name, model, ModelNotFound, details, alternatives, maxRetry, now);
    assert Respond(h0, name, model, ModelNotFound, details, alternatives, maxRetry, now)
      == OnModelNotFound(h, name, model, alternatives, now);
    ModelNotFoundOutcome(h, name, model, alternatives, now);
  }

  lemma ModelNotFoundOutcome(h: Health, name: string, model: string, alternatives: Alternatives, now: int)
    requires HealthOk(h) && HasKey(h, name)
    ensures ModelNotFoundAnswer(OnModelNotFound(h, name, model, alternatives, now), name, Get(h, name).value,
                                model, alternatives)
  {
    WithUnavailableSpec(h, name, model);
  }

  /**
   * PERMISSION_ERROR records the issue once and emits the guidance, with the
   * scopes parsed from the details; it then rotates to the healthy
   * alternative, never the failing provider, keeping the model.
   */
  lemma RemedyPermissionError(h0: Health, name: string, model: string, details: Option<string>,
                              alternatives: Alternatives, maxRetry: int, now: int)
    requires HealthOk(h0)
    ensures var p := Respond(h0, name, model, PermissionError, details, alternatives, maxRetry, now);
      var failed := FailedRecord(Get(h0, name), name, PermissionError, now);
      var alt := HealthyAlternative(p.health, name);
      && HasKey(p.health, name)
      && Get(p.health, name).value == failed.(permissionIssues := Get(p.health, name).value.permissionIssues)
      && IssueText(details) in Get(p.health, name).value.permissionIssues
      && Distinct(Get(p.health, name).value.permissionIssues)
      && |p.actions| >= 1
      && p.actions[0] == HealingAction(GuidePermissionFix, name, PermissionError, now, false,
                                       PermissionGuidance(name, details), None)
      && (alt.Some? && alt.value != "" ==>
            && p.altProvider == alt && alt.value != name && p.altModel == Some(model)
            && |p.actions| == 2 && p.actions[1].actionType == RotateProvider && p.actions[1].target == alt.value)
      && (alt.None? || alt.value == "" ==> p.altProvider == None && |p.actions| == 1)
  {
    RecordedHealth(h0, name, PermissionError, now);
    var h := Put(h0, name, FailedRecord(Get(h0, name), name, PermissionError, now));
    PermissionOutcome(h, name, model, details, now);
    RespondDispatch(h0, name, model, PermissionError, details, alternatives, maxRetry, now);
  }

  lemma PermissionOutcome(h: Health, name: string, model: string, details: Option<string>, now: int)
    requires HealthOk(h) && HasKey(h, name)
    ensures var p := OnPermissionError(h, name, model, details, now);
      var r := Get(h, name).value;
      var alt := HealthyAlternative(p.health, name);
      && HasKey(p.health, name)
      && Get(p.health, name).value == r.(permissionIssues := Get(p.health, name).value.permissionIssues)
      && IssueText(details) in Get(p.health, name).value.permissionIssues
      && Distinct(Get(p.health, name).value.permissionIssues)
      && |p.actions| >= 1
      && p.actions[0] == HealingAction(GuidePermissionFix, name, PermissionError, now, false,
                                       PermissionGuidance(name, details), None)
      && (alt.Some? && alt.value != "" ==>
            && p.altProvider == alt && alt.value != name && p.altModel == Some(model)
            && |p.actions| == 2 && p.actions[1].actionType == RotateProvider && p.actions[1].target == alt.value)
      && (alt.None? || alt.value == "" ==> p.altProvider == None && |p.actions| == 1)
  {
    WithPermissionIssueSpec(h, name, details);
    PermissionRotation(h, name, model, details, now);
  }

  /** The rotation half of the permission branch, on the health with the issue on record. */
  lemma PermissionRotation(h: Health, name: string, model: string, details: Option<string>, now: int)
    requires WellFormed(WithPermissionIssue(h, name, details))
    ensures var p := OnPermissionError(h, name, model, details, now);
      var alt := HealthyAlternative(p.health, name);
      && p.health == WithPermissionIssue(h, name, details)
      && |p.actions| >= 1
      && p.actions[0] == HealingAction(GuidePermissionFix, name, PermissionError, now, false,
                                       PermissionGuidance(name, details), None)
      && (alt.Some? && alt.value != "" ==>
            && p.altProvider == alt && alt.value != name && p.altModel == Some(model)
            && |p.actions| == 2 && p.actions[1].actionType == RotateProvider && p.actions[1].target == alt.value)
      && (alt.None? || alt.value == "" ==> p.altProvider == None && |p.actions| == 1)
  {
    var h2 := WithPermissionIssue(h, name, details);
    if HealthyAlternative(h2, name).Some? { HealthyAlternativeSpec(h2, name); }
  }

  /** RATE_LIMIT and QUOTA_EXCEEDED rotate to the healthy alternative, keeping the model, or do nothing. */
  lemma RemedyRateOrQuota(h0: Health, name: string, model: string, reason: FailureReason, details: Option<string>,
                          alternatives: Alternatives, maxRetry: int, now: int)
    requires HealthOk(h0) && (reason == RateLimit || reason == QuotaExceeded)
    ensures var p := Respond(h0, name, model, reason, details, alternatives, maxRetry, now);
      var alt := HealthyAlternative(p.health, name);
      && p.health == Put(h0, name, FailedRecord(Get(h0, name), name, reason, now))
      && (alt.Some? && alt.value != "" ==>
            && p.altProvider == alt && alt.value != name && p.altModel == Some(model)
            && |p.actions| == 1 && p.actions[0].actionType == RotateProvider)
      && (alt.None? || alt.value == "" ==> p.altProvider == None && p.actions == [])
  {
    var h := Put(h0, name, FailedRecord(Get(h0, name), name, reason, now));
    RecordedHealth(h0, name, reason, now);
    RateOrQuotaOutcome(h, name, model, reason, now);
    RespondDispatch(h0, name, model, reason, details, alternatives, maxRetry, now);
  }

  lemma RateOrQuotaOutcome(h: Health, name: string, model: string, reason: FailureReason, now: int)
    requires WellFormed(h)
    ensures var p := OnRateOrQuota(h, name, model, reason, now);
      var alt := HealthyAlternative(h, name);
      && p.health == h
      && (alt.Some? && alt.value != "" ==>
            && p.altProvider == alt && alt.value != name && p.altModel == Some(model)
            && |p.actions| == 1 && p.actions[0].actionType == RotateProvider)
      && (alt.None? || alt.value == "" ==> p.altProvider == None && p.actions == [])
  {
    if HealthyAlternative(h, name).Some? { HealthyAlternativeSpec(h, name); }
  }

  /**
   * TIMEOUT and CONNECTION_ERROR retry the same provider and model while the
   * consecutive failures, this one included, stay below the retry limit;
   * from the limit on they rotate like a rate limit.
   */
  lemma RemedyConnectivity(h0: Health, name: string, model: string, reason: FailureReason, details: Option<string>,
                           alternatives: Alternatives, maxRetry: int, now: int)
    requires HealthOk(h0) && (reason == Timeout || reason == ConnectionError)
    ensures var p := Respond(h0, name, model, reason, details, alternatives, maxRetry, now);
      var failures := FailedRecord(Get(h0, name), name, reason, now).consecutiveFailures;
      var alt := HealthyAlternative(p.health, name);
      && HasKey(p.health, name) && Get(p.health, name).value.consecutiveFailures == failures
      && failures == Get(h0, name).GetOr(NewRecord(name, now)).consecutiveFailures + 1
      && (failures < maxRetry ==>
            p.altProvider == Some(name) && p.altModel == Some(model)
            && p.actions == [HealingAction(RetryWithBackoff, name, reason, now, false, RetryCount(failures), None)])
      && (failures >= maxRetry && alt.Some? && alt.value != "" ==>
            p.altProvider == alt && alt.value != name && p.altModel == Some(model)
            && |p.actions| == 1 && p.actions[0].actionType == RotateProvider)
      && (failures >= maxRetry && (alt.None? || alt.value == "") ==> p.altProvider == None && p.actions == [])
  {
    RecordedHealth(h0, name, reason, now);
    FailedRecordSpec(Get(h0, name), name, reason, now);
    var failed := FailedRecord(Get(h0, name), name, reason, now);
    var h := Put(h0, name, failed);
    ConnectivityOutcome(h, name, model, reason, failed.consecutiveFailures, maxRetry, now);
    RespondDispatch(h0, name, model, reason, details, alternatives, maxRetry, now);
  }

  lemma ConnectivityOutcome(h: Health, name: string, model: string, reason: FailureReason, failures: int,
                            maxRetry: int, now: int)
    requires WellFormed(h)
    ensures var p := OnConnectivity(h, name, model, reason, failures, maxRetry, now);
      var alt := HealthyAlternative(h, name);
      && p.health == h
      && (failures < maxRetry ==>
            p.altProvider == Some(name) && p.altModel == Some(model)
            && p.actions == [HealingAction(RetryWithBackoff, name, reason, now, false, RetryCount(failures), None)])
      && (failures >= maxRetry && alt.Some? && alt.value != "" ==>
            p.altProvider == alt && alt.value != name && p.altModel == Some(model)
            && |p.actions| == 1 && p.actions[0].actionType == RotateProvider)
      && (failures >= maxRetry && (alt.None? || alt.value == "") ==> p.altProvider == None && p.actions == [])
  {
    var alt := HealthyAlternative(h, name);
    if failures >= maxRetry && alt.Some? && alt.value != "" {
      HealthyAlternativeSpec(h, name);
    }
  }

  /** AUTH_ERROR only notifies the user; the other reasons only count the failure. */
  lemma RemedyNoAlternative(h0: Health, name: string, model: string, reason: FailureReason, details: Option<string>,
                            alternatives: Alternatives, maxRetry: int, now: int)
    requires reason in {AuthError, InvalidRequest, ServerError, Unknown}
    ensures var p := Respond(h0, name, model, reason, details, alternatives, maxRetry, now);
      && p.health == Put(h0, name, FailedRecord(Get(h0, name), name, reason, now))
      && p.altProvider == None && p.altModel == None && p.journaled
      && p.actions == if reason == AuthError then [AuthNotice(name, now)] else []
  {
  }

  // ---------------------------------------------------------------------------
  // The manager

  class AdvancedSelfHealingManager {
    const modelCatalog: IntelligentTokenizer.ModelCatalogSync?
    const maxRetryAttempts: int
    const maxJournalSize: int
    var providerHealth: Dict<string, ProviderHealthRecord>
    var healingJournal: seq<HealingAction>

    ghost predicate Valid()
      reads this
    {
      HealthOk(providerHealth) && maxJournalSize == MaxJournalSize && |healingJournal| <= maxJournalSize
    }

    constructor (catalog: IntelligentTokenizer.ModelCatalogSync?, maxRetry: int)
      ensures Valid()
      ensures modelCatalog == catalog && maxRetryAttempts == maxRetry
      ensures providerHealth == [] && healingJournal == []
    {
      modelCatalog := catalog;
      maxRetryAttempts := maxRetry;
      maxJournalSize := MaxJournalSize;
      providerHealth := [];
      healingJournal := [];
    }

    /** The catalog's alternatives to `model`, as `_handle_model_not_found` asks for them. */
    function CatalogAlternatives(model: string, name: string): Option<seq<IntelligentTokenizer.ModelInfo>>
      reads this, modelCatalog
    {
      if modelCatalog == null then None
      else Some(modelCatalog.Alternatives(model, Some(name), IntelligentTokenizer.DefaultMinContext))
    }

    /** `_record_failure`. */
    method RecordFailure(name: string, reason: FailureReason, now: int)
      requires Valid()
      modifies this
      ensures Valid() && healingJournal == old(healingJournal)
      ensures providerHealth == Put(old(providerHealth), name, FailedRecord(Get(old(providerHealth), name), name, reason, now))
    {
      var record := FailedRecord(Get(providerHealth, name), name, reason, now);
      FailedRecordSpec(Get(providerHealth, name), name, reason, now);
      PutHealthOk(providerHealth, name, record);
      providerHealth := Put(providerHealth, name, record);
    }

    /** `record_success`. */
    method RecordSuccess(name: string, model: Option<string>, now: int)
      requires Valid()
      modifies this
      ensures Valid() && healingJournal == old(healingJournal)
      ensures providerHealth == Put(old(providerHealth), name, SucceededRecord(Get(old(providerHealth), name), name, model, now))
    {
      var record := SucceededRecord(Get(providerHealth, name), name, model, now);
      SucceededRecordSpec(Get(providerHealth, name), name, model, now);
      PutHealthOk(providerHealth, name, record);
      providerHealth := Put(providerHealth, name, record);
    }

    /** `_journal_action`. */
    method JournalOne(a: HealingAction)
      requires Valid()
      modifies this
      ensures Valid() && providerHealth == old(providerHealth)
      ensures healingJournal == JournalAction(old(healingJournal), a, maxJournalSize)
    {
      healingJournal := healingJournal + [a];
      if |healingJournal| > maxJournalSize {
        healingJournal := SliceFrom(healingJournal, -maxJournalSize);
      }
    }

    /** `_handle_model_not_found`. */
    method HandleModelNotFound(name: string, model: string, now: int)
      returns (action: HealingAction, altProvider: Option<string>, altModel: Option<string>)
      requires Valid()
      modifies this
      ensures providerHealth == WithUnavailable(old(providerHealth), name, model)
      ensures healingJournal == old(healingJournal)
      ensures var alts := CatalogAlternatives(model, name);
        if alts.Some? && alts.value != [] then
          var alt := alts.value[0];
          action == HealingAction(FallbackModel, alt.id, ModelNotFound, now, true,
                                  ModelFallback(model, alt.id, alt.provider, alt.contextLength), None)
          && altProvider == Some(alt.provider) && altModel == Some(alt.id)
        else
          action == HealingAction(FallbackModel, model, ModelNotFound, now, false, NoDetails,
                                  Some("No alternative model found"))
          && altProvider == None && altModel == None
    {
      var record := Get(providerHealth, name);
      if record.Some? && model !in record.value.unavailableModels {
        providerHealth := Put(providerHealth, name, record.value.(unavailableModels := record.value.unavailableModels + [model]));
      }
      if modelCatalog != null {
        var alternatives := modelCatalog.FindAlternativeModels(model, Some(name), IntelligentTokenizer.DefaultMinContext);
        if alternatives != [] {
          var alt := alternatives[0];
          action := HealingAction(FallbackModel, alt.id, ModelNotFound, now, true,
                                  ModelFallback(model, alt.id, alt.provider, alt.contextLength), None);
          return action, Some(alt.provider), Some(alt.id);
        }
      }
      action := HealingAction(FallbackModel, model, ModelNotFound, now, false, NoDetails, Some("No alternative model found"));
      return action, None, None;
    }

    /** `_handle_permission_error`. */
    method HandlePermissionError(name: string, details: Option<string>, now: int) returns (action: HealingAction)
      modifies this
      ensures providerHealth == WithPermissionIssue(old(providerHealth), name, details)
      ensures healingJournal == old(healingJournal)
      ensures action == HealingAction(GuidePermissionFix, name, PermissionError, now, false,
                                      PermissionGuidance(name, details), None)
    {
      var record := Get(providerHealth, name);
      if record.Some? {
        var issue := IssueText(details);
        if issue !in record.value.permissionIssues {
          providerHealth := Put(providerHealth, name, record.value.(permissionIssues := record.value.permissionIssues + [issue]));
        }
      }
      action := HealingAction(GuidePermissionFix, name, PermissionError, now, false, PermissionGuidance(name, details), None);
    }

    /** Journals each action in turn, as `handle_provider_failure` does on its way out. */
    method JournalActions(actions: seq<HealingAction>)
      requires Valid()
      modifies this
      ensures Valid() && providerHealth == old(providerHealth)
      ensures healingJournal == JournalAll(old(healingJournal), actions, maxJournalSize)
    {
      for i := 0 to |actions|
        invariant Valid()
        invariant providerHealth == old(providerHealth)
        invariant healingJournal == JournalAll(old(healingJournal), actions[..i], maxJournalSize)
      {
        assert actions[..i + 1][..i] == actions[..i];
        JournalOne(actions[i]);
      }
      assert actions[..|actions|] == actions;
    }

    /** The model-not-found branch of `handle_provider_failure`. */
    method FallBackModel(name: string, model: string, now: int)
      returns (altProvider: Option<string>, altModel: Option<string>, actions: seq<HealingAction>, journal: bool)
      requires Valid()
      modifies this
      ensures healingJournal == old(healingJournal)
      ensures Response(providerHealth, altProvider, altModel, actions, journal)
              == OnModelNotFound(old(providerHealth), name, model, CatalogAlternatives(model, name), now)
    {
      var action, ap, am := HandleModelNotFound(name, model, now);
      actions := [action];
      if am.Some? && am.value != "" {
        return ap, am, actions, false;
      }
      return None, None, actions, true;
    }

    /** The permission branch of `handle_provider_failure`. */
    method GuideAndRotate(name: string, model: string, details: Option<string>, now: int)
      returns (altProvider: Option<string>, altModel: Option<string>, actions: seq<HealingAction>, journal: bool)
      modifies this
      ensures healingJournal == old(healingJournal)
      ensures Response(providerHealth, altProvider, altModel, actions, journal)
              == OnPermissionError(old(providerHealth), name, model, details, now)
    {
      var action := HandlePermissionError(name, details, now);
      actions := [action];
      var alt := HealthyAlternative(providerHealth, name);
      if alt.Some? && alt.value != "" {
        actions := actions + [HealingAction(RotateProvider, alt.value, PermissionError, now, true, Rotation(name, alt.value), None)];
        return alt, Some(model), actions, false;
      }
      return None, None, actions, true;
    }

    /** The rate-limit and quota branch of `handle_provider_failure`. */
    method RotateOnLimit(name: string, model: string, reason: FailureReason, now: int)
      returns (altProvider: Option<string>, altModel: Option<string>, actions: seq<HealingAction>, journal: bool)
      ensures Response(providerHealth, altProvider, altModel, actions, journal)
              == OnRateOrQuota(providerHealth, name, model, reason, now)
    {
      var alt := HealthyAlternative(providerHealth, name);
      if alt.Some? && alt.value != "" {
        actions := [HealingAction(RotateProvider, alt.value, reason, now, true,
                                  RotationForReason(name, alt.value, reason.Value()), None)];
        return alt, Some(model), actions, false;
      }
      return None, None, [], true;
    }

    /** The timeout and connection branch of `handle_provider_failure`. */
    method RetryOrRotate(name: string, model: string, reason: FailureReason, now: int)
      returns (altProvider: Option<string>, altModel: Option<string>, actions: seq<HealingAction>, journal: bool)
      requires HasKey(providerHealth, name)
      ensures Response(providerHealth, altProvider, altModel, actions, journal)
              == OnConnectivity(providerHealth, name, model, reason, Get(providerHealth, name).value.consecutiveFailures,
                                maxRetryAttempts, now)
    {
      var failures := Get(providerHealth, name).value.consecutiveFailures;
      if failures < maxRetryAttempts {
        actions := [HealingAction(RetryWithBackoff, name, reason, now, false, RetryCount(failures), None)];
        return Some(name), Some(model), actions, false;
      }
      var alt := HealthyAlternative(providerHealth, name);
      if alt.Some? && alt.value != "" {
        actions := [HealingAction(RotateProvider, alt.value, reason, now, true, RotationAfterRetries(name, true), None)];
        return alt, Some(model), actions, false;
      }
      return None, None, [], true;
    }

    /** The dispatch on the reason in `handle_provider_failure`, after the failure is recorded. */
    method ApplyRemedy(name: string, model: string, reason: FailureReason, details: Option<string>, now: int)
      returns (altProvider: Option<string>, altModel: Option<string>, actions: seq<HealingAction>, journal: bool)
      requires Valid() && HasKey(providerHealth, name)
      modifies this
      ensures healingJournal == old(healingJournal)
      ensures Response(providerHealth, altProvider, altModel, actions, journal)
              == Remedy(old(providerHealth), name, model, reason, Get(old(providerHealth), name).value.consecutiveFailures,
                        details, CatalogAlternatives(model, name), maxRetryAttempts, now)
    {
      match reason {
        case ModelNotFound =>
          altProvider, altModel, actions, journal := FallBackModel(name, model, now);
        case PermissionError =>
          altProvider, altModel, actions, journal := GuideAndRotate(name, model, details, now);
        case RateLimit =>
          altProvider, altModel, actions, journal := RotateOnLimit(name, model, reason, now);
        case QuotaExceeded =>
          altProvider, altModel, actions, journal := RotateOnLimit(name, model, reason, now);
        case Timeout =>
          altProvider, altModel, actions, journal := RetryOrRotate(name, model, reason, now);
        case ConnectionError =>
          altProvider, altModel, actions, journal := RetryOrRotate(name, model, reason, now);
        case AuthError =>
          altProvider, altModel, actions, journal := None, None, [AuthNotice(name, now)], true;
        case InvalidRequest =>
          altProvider, altModel, actions, journal := None, None, [], true;
        case ServerError =>
          altProvider, altModel, actions, journal := None, None, [], true;
        case Unknown =>
          altProvider, altModel, actions, journal := None, None, [], true;
      }
    }

    /**
     * `handle_provider_failure`: record the failure, apply the remedy for its
     * reason, and journal the actions unless an alternative was returned.
     */
    method HandleProviderFailure(name: string, model: string, reason: FailureReason, details: Option<string>, now: int)
      returns (altProvider: Option<string>, altModel: Option<string>, actions: seq<HealingAction>)
      requires Valid()
      modifies this
      ensures Valid()
      ensures var p := Respond(old(providerHealth), name, model, reason, details,
                               CatalogAlternatives(model, name), maxRetryAttempts, now);
        && providerHealth == p.health
        && altProvider == p.altProvider && altModel == p.altModel && actions == p.actions
        && healingJournal == if p.journaled then JournalAll(old(healingJournal), p.actions, maxJournalSize)
                             else old(healingJournal)
    {
      ghost var alts := CatalogAlternatives(model, name);
      ghost var p := Respond(providerHealth, name, model, reason, details, alts, maxRetryAttempts, now);
      RespondKeepsHealth(providerHealth, name, model, reason, details, alts, maxRetryAttempts, now);
      RecordFailure(name, reason, now);
      var journal;
      altProvider, altModel, actions, journal := ApplyRemedy(name, model, reason, details, now);
      assert p == Response(providerHealth, altProvider, altModel, actions, journal);
      if journal {
        JournalActions(actions);
      }
    }

    /**
     * `get_recent_actions`: the journal's last `limit` actions, newest first.
     * A limit of 0 slices from `-0`, which is the whole journal.
     */
    function RecentActions(limit: int): (r: seq<HealingAction>)
      reads this
    {
      Reverse(SliceFrom(healingJournal, -limit))
    }

    lemma RecentActionsSpec(limit: int)
      requires limit >= 0
      ensures limit > 0 ==> RecentActions(limit) == Reverse(Newest(healingJournal, limit))
      ensures limit == 0 ==> RecentActions(limit) == Reverse(healingJournal)
      ensures healingJournal != [] ==> RecentActions(limit)[0] == healingJournal[|healingJournal| - 1]
    {
      if limit > 0 {
        SliceFromLast(healingJournal, limit);
      }
    }
  }
}
