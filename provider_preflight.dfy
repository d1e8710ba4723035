/**
 * Pre-flight validation of a cloud provider: is a key configured, can the
 * key list models, and can it run one inference with the first listed model.
 * The answer is a `ValidationStatus` with fix steps; only VALID answers are
 * cached, under the provider's name and the first ten characters of its key.
 *
 * The two HTTP requests are outcomes passed in: `ListingOutcome` for the GET
 * of the model list, `InferenceOutcome` for the test POST.
 */
module ProviderPreflight {
  import opened Common
  import opened Strings
  import opened Dicts
  import opened JsonValues

  datatype ValidationStatus = Valid | InvalidKey | NoPermission | NoModels | ConnectionError | Unknown
  {
    function Value(): string
    {
      match this
      case Valid => "valid"
      case InvalidKey => "invalid_key"
      case NoPermission => "no_permission"
      case NoModels => "no_models"
      case ConnectionError => "connection_error"
      case Unknown => "unknown"
    }
  }

  datatype ValidationResult = ValidationResult(
    status: ValidationStatus,
    providerName: string,
    success: bool,
    availableModels: seq<string>,
    testedModel: Option<string>,
    errorMessage: Option<string>,
    fixSteps: seq<string>,
    dashboardUrl: Option<string>,
    requiredScopes: seq<string>)

  /** One element of the listed `data` (or `models`) array. */
  datatype RawModel = ObjectModel(fields: Entry) | TextModel(id: string) | OtherModel

  /**
   * What `_test_model_listing` saw: the raw array of a 200 response, or the
   * error text it returns (`HTTP <code>: <body>` or the exception's text).
   */
  datatype ListingOutcome = Listed(raw: seq<RawModel>) | ListingFailed(error: string)

  /** What `_test_inference` saw: a 200 response, or its error text. */
  datatype InferenceOutcome = Inferred | InferenceFailed(error: string)

  const CacheTtl := 300

  function DashboardUrl(name: string): Option<string>
  {
    if name == "OpenRouter" then Some("https://openrouter.ai/keys")
    else if name == "Hugging Face" then Some("https://huggingface.co/settings/tokens")
    else if name == "Together AI" then Some("https://api.together.xyz/settings/api-keys")
    else if name == "Anthropic" then Some("https://console.anthropic.com/settings/keys")
    else if name == "OpenAI" then Some("https://platform.openai.com/api-keys")
    else None
  }

  /** `REQUIRED_SCOPES.get(name, [])`. */
  function RequiredScopes(name: string): seq<string>
  {
    if name == "OpenRouter" then ["api.read", "api.inference"]
    else if name == "Hugging Face" then ["inference-api", "read-repos"]
    else if name == "Together AI" then ["inference"]
    else if name == "Anthropic" then ["messages:write"]
    else if name == "OpenAI" then ["completions.create"]
    else []
  }

  /** The three steps every permission fix starts with. */
  function BaseFixSteps(name: string): seq<string>
  {
    ["1. Go to " + name + " dashboard",
     "2. Navigate to API keys/tokens section",
     "3. Check current token permissions"]
  }

  /** The steps a permission fix continues with, by provider. */
  function ProviderFixSteps(name: string): seq<string>
  {
    if name == "Hugging Face" then
      ["4. Enable 'Make calls to serverless Inference API' permission",
       "5. Enable 'Read access to contents of all repos' if needed",
       "6. Save token settings",
       "7. Update token in HUD",
       "8. Reconnect"]
    else if name == "OpenRouter" then
      ["4. Ensure account has credits/billing enabled",
       "5. Check model access permissions",
       "6. Regenerate key if needed",
       "7. Update in HUD and reconnect"]
    else if name == "Together AI" then
      ["4. Verify API key has 'inference' scope",
       "5. Check billing is active",
       "6. Regenerate key with full permissions",
       "7. Update in HUD"]
    else
      ["4. Regenerate API key with full permissions",
       "5. Update in HUD",
       "6. Reconnect"]
  }

  /**
   * `_get_permission_fix_steps`: the common steps, then the provider's. The
   * `include_inference` flag is accepted and not used.
   */
  function PermissionFixSteps(name: string, includeInference: bool): seq<string>
  {
    BaseFixSteps(name) + ProviderFixSteps(name)
  }

  /**
   * The fix steps start with the three common steps, the first naming the
   * provider's dashboard; they run to eight steps for Hugging Face, seven for
   * OpenRouter and Together AI and six otherwise; the inference flag changes
   * nothing.
   */
  lemma PermissionFixStepsShape(name: string, includeInference: bool)
    ensures var r := PermissionFixSteps(name, includeInference);
      && r == PermissionFixSteps(name, !includeInference)
      && |r| == (if name == "Hugging Face" then 8
                 else if name == "OpenRouter" || name == "Together AI" then 7
                 else 6)
      && r[0] == "1. Go to " + name + " dashboard"
  {
    var base := BaseFixSteps(name);
    var rest := ProviderFixSteps(name);
    assert |base| == 3 && base[0] == "1. Go to " + name + " dashboard";
    if name == "Hugging Face" {
      assert |rest| == 5;
    } else if name == "OpenRouter" {
      assert |rest| == 4;
    } else if name == "Together AI" {
      assert |rest| == 4;
    } else {
      assert |rest| == 3;
    }
  }

  // ---------------------------------------------------------------------------
  // Model-id extraction

  /** The id an object contributes: `model.get('id', model.get('name'))`. */
  function ObjectId(fields: Entry): Value
  {
    if "id" in fields then fields["id"] else JsonValues.Get(fields, "name")
  }

  /** The ids a raw array yields, in order: non-empty string object ids and bare strings. */
  function ModelIds(raw: seq<RawModel>): (r: seq<string>)
    ensures |r| <= |raw|
  {
    if raw == [] then []
    else Contribution(raw[0]) + ModelIds(raw[1..])
  }

  /** What one element adds to the list of ids. */
  function Contribution(m: RawModel): (r: seq<string>)
    ensures |r| <= 1
  {
    match m
    case ObjectModel(fields) =>
      var id := ObjectId(fields);
      if id.Truthy() && id.Str? then [id.s] else []
    case TextModel(id) => [id]
    case OtherModel => []
  }

  /** Extraction distributes over concatenation, so it keeps the array's order. */
  lemma {:induction false} ModelIdsAppend(a: seq<RawModel>, b: seq<RawModel>)
    ensures ModelIds(a + b) == ModelIds(a) + ModelIds(b)
  {
    if a == [] {
      assert a + b == b;
    } else {
      assert (a + b)[0] == a[0];
      assert (a + b)[1..] == a[1..] + b;
      ModelIdsAppend(a[1..], b);
    }
  }

  /**
   * Every id extracted comes from an element, and every bare string and
   * every object with a usable id is extracted.
   */
  lemma {:induction false} ModelIdsMembers(raw: seq<RawModel>, id: string)
    ensures id in ModelIds(raw) <==> exists i :: 0 <= i < |raw| && id in Contribution(raw[i])
  {
    if raw != [] {
      ModelIdsMembers(raw[1..], id);
      if id in Contribution(raw[0]) {
        assert 0 < |raw|;
      }
      if exists i :: 0 <= i < |raw| && id in Contribution(raw[i]) {
        var i :| 0 <= i < |raw| && id in Contribution(raw[i]);
        if i > 0 {
          assert raw[1..][i - 1] == raw[i];
        }
      }
    }
  }

  /** The ID-extraction loop of `_test_model_listing`. */
  method ExtractModelIds(raw: seq<RawModel>) returns (ids: seq<string>)
    ensures ids == ModelIds(raw)
  {
    ids := [];
    var i := 0;
    while i < |raw|
      invariant 0 <= i <= |raw|
      invariant ids == ModelIds(raw[..i])
    {
      var model := raw[i];
      match model {
        case ObjectModel(fields) =>
          var id := ObjectId(fields);
          if id.Truthy() && id.Str? {
            ids := ids + [id.s];
          }
        case TextModel(id) =>
          ids := ids + [id];
        case OtherModel =>
      }
      assert raw[..i + 1] == raw[..i] + [raw[i]];
      ModelIdsAppend(raw[..i], [raw[i]]);
      assert ModelIds([raw[i]]) == Contribution(raw[i]);
      i := i + 1;
    }
    assert raw[..i] == raw;
  }

  // ---------------------------------------------------------------------------
  // The decision chain

  /** `provider_config.get('api_key') or provider_config.get('api_key_encrypted')`. */
  function ApiKey(config: Entry): Value
  {
    Either(config, "api_key", "api_key_encrypted")
  }

  /** `str(error)` names a rejected key. */
  predicate Unauthorized(error: string)
  {
    Contains(error, "401") || Contains(Lower(error), "unauthorized")
  }

  /** `str(error)` names a missing permission. */
  predicate Forbidden(error: string)
  {
    Contains(error, "403") || Contains(Lower(error), "forbidden")
  }

  function NoKeyResult(name: string): ValidationResult
  {
    ValidationResult(InvalidKey, name, false, [], None, Some("No API key configured"),
                     ["1. Get API key from provider dashboard", "2. Enter key in HUD sidebar",
                      "3. Click 'Save API Keys'", "4. Reconnect"],
                     DashboardUrl(name), [])
  }

  /** The answer to a listing that failed with a non-empty error text. */
  function ListingErrorResult(name: string, error: string): ValidationResult
  {
    if Unauthorized(error) then
      ValidationResult(InvalidKey, name, false, [], None, Some("API key invalid: " + error),
                       ["1. Check API key is correct", "2. Regenerate key in provider dashboard",
                        "3. Update key in HUD", "4. Reconnect"],
                       DashboardUrl(name), [])
    else if Forbidden(error) then
      ValidationResult(NoPermission, name, false, [], None, Some("Insufficient permissions: " + error),
                       PermissionFixSteps(name, false), DashboardUrl(name), RequiredScopes(name))
    else
      ValidationResult(ConnectionError, name, false, [], None, Some(error),
                       ["1. Check internet connection", "2. Verify provider is not down", "3. Try again later"],
                       None, [])
  }

  function NoModelsResult(name: string): ValidationResult
  {
    ValidationResult(NoModels, name, false, [], None, Some("No models available"),
                     ["1. Check account has model access", "2. Verify billing is enabled",
                      "3. Contact provider support"],
                     DashboardUrl(name), [])
  }

  /** The answer once the listing gave models and the test inference ran. */
  function InferenceResult(name: string, models: seq<string>, inference: InferenceOutcome): ValidationResult
    requires models != []
  {
    if inference.InferenceFailed? && Forbidden(inference.error) then
      ValidationResult(NoPermission, name, false, models, Some(models[0]),
                       Some("Inference forbidden: " + inference.error),
                       PermissionFixSteps(name, true), DashboardUrl(name), RequiredScopes(name))
    else
      ValidationResult(Valid, name, true, models, Some(models[0]), None, [], None, [])
  }

  /**
   * `validate_provider` past the cache: the key check, the listing, and the
   * test inference, each returning early on failure. An exception raised
   * with an empty text makes the listing error falsy, so that listing counts
   * as an empty one.
   */
  function Decide(name: string, config: Entry, listing: ListingOutcome, inference: InferenceOutcome): (r: ValidationResult)
    ensures r.providerName == name
    ensures r.success <==> r.status == Valid
    ensures r.success ==> r.availableModels != [] && r.testedModel == Some(r.availableModels[0])
  {
    if !ApiKey(config).Truthy() then NoKeyResult(name)
    else if listing.ListingFailed? && listing.error != "" then ListingErrorResult(name, listing.error)
    else
      var models := if listing.Listed? then ModelIds(listing.raw) else [];
      if models == [] then NoModelsResult(name)
      else InferenceResult(name, models, inference)
  }

  /** The early-return chain of `validate_provider`, from the key check to the test inference. */
  method RunChecks(name: string, config: Entry, listing: ListingOutcome, inference: InferenceOutcome)
    returns (r: ValidationResult)
    ensures r == Decide(name, config, listing, inference)
  {
    var apiKey := ApiKey(config);
    if !apiKey.Truthy() {
      return NoKeyResult(name);
    }
    if listing.ListingFailed? && listing.error != "" {
      return ListingErrorResult(name, listing.error);
    }
    var models: seq<string> := [];
    if listing.Listed? {
      models := ExtractModelIds(listing.raw);
    }
    if models == [] {
      return NoModelsResult(name);
    }
    r := InferenceResult(name, models, inference);
  }

  /** Without a key the answer is INVALID_KEY, whatever either request would have returned. */
  lemma NoKeyNoRequests(name: string, config: Entry, l1: ListingOutcome, i1: InferenceOutcome,
                        l2: ListingOutcome, i2: InferenceOutcome)
    requires !ApiKey(config).Truthy()
    ensures Decide(name, config, l1, i1) == Decide(name, config, l2, i2)
    ensures Decide(name, config, l1, i1).status == InvalidKey
    ensures !Decide(name, config, l1, i1).success
  {
  }

  /**
   * A failed listing decides the answer, whatever the inference would have
   * returned: INVALID_KEY for a 401 or "unauthorized", else NO_PERMISSION with
   * the provider's scopes for a 403 or "forbidden", else CONNECTION_ERROR.
   */
  lemma ListingErrorDecides(name: string, config: Entry, error: string, i1: InferenceOutcome, i2: InferenceOutcome)
    requires ApiKey(config).Truthy() && error != ""
    ensures var r := Decide(name, config, ListingFailed(error), i1);
      && r == Decide(name, config, ListingFailed(error), i2)
      && r.status == (if Unauthorized(error) then InvalidKey
                      else if Forbidden(error) then NoPermission
                      else ConnectionError)
      && (r.status == NoPermission ==> r.requiredScopes == RequiredScopes(name))
      && r.availableModels == []
  {
  }

  /** A listing with no usable ids is NO_MODELS, and the inference is never consulted. */
  lemma EmptyListingNoModels(name: string, config: Entry, listing: ListingOutcome, i1: InferenceOutcome,
                             i2: InferenceOutcome)
    requires ApiKey(config).Truthy()
    requires (listing.Listed? && ModelIds(listing.raw) == []) || listing == ListingFailed("")
    ensures Decide(name, config, listing, i1) == Decide(name, config, listing, i2)
    ensures Decide(name, config, listing, i1).status == NoModels
  {
  }

  /**
   * Once models were listed, a forbidden inference is NO_PERMISSION and every
   * other inference outcome, a failure included, is VALID; both keep the
   * listed models and test the first one.
   */
  lemma InferenceDecides(name: string, config: Entry, raw: seq<RawModel>, inference: InferenceOutcome)
    requires ApiKey(config).Truthy() && ModelIds(raw) != []
    ensures var r := Decide(name, config, Listed(raw), inference);
      && r.availableModels == ModelIds(raw)
      && r.testedModel == Some(ModelIds(raw)[0])
      && (r.status == NoPermission <==> inference.InferenceFailed? && Forbidden(inference.error))
      && (r.status == Valid <==> !(inference.InferenceFailed? && Forbidden(inference.error)))
  {
  }

  /**
   * Slicing the key for the cache key raises `TypeError` when `api_key` is
   * present with a value that cannot be sliced: null, a boolean, a number or
   * a dictionary.
   */
  predicate KeySliceRaises(config: Entry)
  {
    "api_key" in config && !config["api_key"].Str? && !config["api_key"].List?
  }

  /** The validation cache key: the name, `_`, and the first ten characters of the key. */
  function CacheKey(name: string, config: Entry): (k: string)
    ensures |k| >= |name| + 1 && k[..|name| + 1] == name + "_"
    ensures |k| <= |name| + 11
  {
    var key := TextOr(config, "api_key", "");
    name + "_" + (if |key| <= 10 then key else key[..10])
  }

  /** Two keys that agree on their first ten characters share their cache entry. */
  lemma CacheKeyPrefix(name: string, c1: Entry, c2: Entry)
    requires var k1 := TextOr(c1, "api_key", ""); var k2 := TextOr(c2, "api_key", "");
      |k1| >= 10 && |k2| >= 10 && k1[..10] == k2[..10]
    ensures CacheKey(name, c1) == CacheKey(name, c2)
  {
  }

  /** Every cached answer is a VALID one. */
  predicate CacheOk(cache: map<string, ValidationResult>)
  {
    forall k :: k in cache ==> cache[k].status == Valid && cache[k].success
  }

  /**
   * The answer `validate_provider` gives against a cache, `None` when the
   * cache key cannot be built. A cached entry is returned whenever a refresh
   * is not forced: its age is taken from a `timestamp` the cached record
   * never has, so it is always zero.
   */
  function Validated(cache: map<string, ValidationResult>, name: string, config: Entry, forceRefresh: bool,
                     listing: ListingOutcome, inference: InferenceOutcome): Option<ValidationResult>
  {
    var key := CacheKey(name, config);
    if KeySliceRaises(config) then None
    else if !forceRefresh && key in cache then Some(cache[key])
    else Some(Decide(name, config, listing, inference))
  }

  /** The cache after `validate_provider`: a fresh VALID answer is stored under the key. */
  function CacheAfter(cache: map<string, ValidationResult>, name: string, config: Entry, forceRefresh: bool,
                      listing: ListingOutcome, inference: InferenceOutcome): map<string, ValidationResult>
  {
    var key := CacheKey(name, config);
    if KeySliceRaises(config) || (!forceRefresh && key in cache) then cache
    else
      var r := Decide(name, config, listing, inference);
      if r.success then cache[key := r] else cache
  }

  /**
   * Only VALID answers enter the cache, so the cache keeps holding only VALID
   * answers, and an answer is a success exactly when it is VALID, cached or
   * not; a key that cannot be sliced raises before anything is read or stored.
   */
  lemma {:induction false} ValidatedSpec(cache: map<string, ValidationResult>, name: string, config: Entry,
                                         forceRefresh: bool, listing: ListingOutcome, inference: InferenceOutcome)
    requires CacheOk(cache)
    ensures var r := Validated(cache, name, config, forceRefresh, listing, inference);
      && CacheOk(CacheAfter(cache, name, config, forceRefresh, listing, inference))
      && (r.None? <==> KeySliceRaises(config))
      && (r.None? ==> CacheAfter(cache, name, config, forceRefresh, listing, inference) == cache)
      && (r.Some? ==> (r.value.success <==> r.value.status == Valid))
      && (r.Some? && forceRefresh ==> r.value == Decide(name, config, listing, inference))
      && (r.Some? && r.value.success ==>
            CacheAfter(cache, name, config, forceRefresh, listing, inference)[CacheKey(name, config)] == r.value)
  {
  }

  /** `provider.get('status') != 'active'` filters `validate_all_providers`. */
  predicate Active(provider: Entry)
  {
    Is(provider, "status", "active")
  }

  /** The request outcomes a provider produces, by name. */
  datatype Probe = Probe(listing: ListingOutcome, inference: InferenceOutcome)

  /**
   * The answers and the cache after validating the active providers of `ps`
   * in order, starting from `results` and `cache`; an answer is stored under
   * the provider's name, a later provider of the same name replacing it. The
   * answers are `None` when a provider's validation raises, which abandons
   * the rest with the cache the earlier ones left.
   */
  function ValidateFrom(results: Dict<string, ValidationResult>, cache: map<string, ValidationResult>,
                        ps: seq<Entry>, forceRefresh: bool, probe: string -> Probe)
    : (Option<Dict<string, ValidationResult>>, map<string, ValidationResult>)
    decreases |ps|
  {
    if ps == [] then (Some(results), cache)
    else if Active(ps[0]) then
      var name := TextOr(ps[0], "name", "");
      var o := probe(name);
      var r := Validated(cache, name, ps[0], forceRefresh, o.listing, o.inference);
      if r.None? then (None, cache)
      else
        ValidateFrom(Put(results, name, r.value), CacheAfter(cache, name, ps[0], forceRefresh, o.listing, o.inference),
                     ps[1..], forceRefresh, probe)
    else ValidateFrom(results, cache, ps[1..], forceRefresh, probe)
  }

  /** Some active provider's key cannot be sliced. */
  predicate SomeKeyRaises(ps: seq<Entry>)
  {
    exists i :: 0 <= i < |ps| && Active(ps[i]) && KeySliceRaises(ps[i])
  }

  lemma SomeKeyRaisesCons(ps: seq<Entry>)
    requires ps != []
    ensures SomeKeyRaises(ps) <==> (Active(ps[0]) && KeySliceRaises(ps[0])) || SomeKeyRaises(ps[1..])
  {
    assert forall i :: 0 < i < |ps| ==> ps[i] == ps[1..][i - 1];
  }

  /**
   * The names of the active providers of `ps`, in order (a single provider
   * gives its name exactly when it is active, and `ActiveNamesAppend` keeps
   * the order across providers).
   */
  function ActiveNames(ps: seq<Entry>): (r: seq<string>)
    ensures forall n :: n in r <==> exists i :: 0 <= i < |ps| && Active(ps[i]) && TextOr(ps[i], "name", "") == n
    ensures |ps| == 1 ==> r == if Active(ps[0]) then [TextOr(ps[0], "name", "")] else []
  {
    if ps == [] then []
    else
      var rest := ActiveNames(ps[1..]);
      assert forall i :: 0 < i < |ps| ==> ps[i] == ps[1..][i - 1];
      (if Active(ps[0]) then [TextOr(ps[0], "name", "")] else []) + rest
  }

  /** The active names of two runs of providers are those of the first, then those of the second. */
  lemma {:induction false} ActiveNamesAppend(a: seq<Entry>, b: seq<Entry>)
    ensures ActiveNames(a + b) == ActiveNames(a) + ActiveNames(b)
  {
    if a == [] {
      assert a + b == b;
    } else {
      assert (a + b)[0] == a[0];
      assert (a + b)[1..] == a[1..] + b;
      ActiveNamesAppend(a[1..], b);
    }
  }

  /**
   * `validate_all_providers` raises exactly when some active provider's key
   * cannot be sliced, whatever answers and cache it starts from.
   */
  lemma {:induction false} ValidateFromRaises(results: Dict<string, ValidationResult>,
                                              cache: map<string, ValidationResult>,
                                              ps: seq<Entry>, forceRefresh: bool, probe: string -> Probe)
    ensures ValidateFrom(results, cache, ps, forceRefresh, probe).0.None? <==> SomeKeyRaises(ps)
    decreases |ps|
  {
    if ps != [] {
      SomeKeyRaisesCons(ps);
      if Active(ps[0]) && KeySliceRaises(ps[0]) {
      } else if Active(ps[0]) {
        var name := TextOr(ps[0], "name", "");
        var o := probe(name);
        var r := Validated(cache, name, ps[0], forceRefresh, o.listing, o.inference).value;
        ValidateFromRaises(Put(results, name, r), CacheAfter(cache, name, ps[0], forceRefresh, o.listing, o.inference),
                           ps[1..], forceRefresh, probe);
      } else {
        ValidateFromRaises(results, cache, ps[1..], forceRefresh, probe);
      }
    }
  }

  /** When `validate_all_providers` answers, it answers for exactly the names of the active providers, once each. */
  lemma {:induction false} ValidateFromKeys(results: Dict<string, ValidationResult>, cache: map<string, ValidationResult>,
                                            ps: seq<Entry>, forceRefresh: bool, probe: string -> Probe)
    requires WellFormed(results)
    ensures var out := ValidateFrom(results, cache, ps, forceRefresh, probe).0;
      out.Some? ==> WellFormed(out.value) && forall n :: HasKey(out.value, n) <==> HasKey(results, n) || n in ActiveNames(ps)
    decreases |ps|
  {
    if ps != [] && !(Active(ps[0]) && KeySliceRaises(ps[0])) {
      if Active(ps[0]) {
        var name := TextOr(ps[0], "name", "");
        var o := probe(name);
        var r := Validated(cache, name, ps[0], forceRefresh, o.listing, o.inference).value;
        var next := Put(results, name, r);
        PutWellFormed(results, name, r);
        forall n ensures HasKey(next, n) <==> HasKey(results, n) || n == name {
          HasKeyPut(results, name, r, n);
        }
        ValidateFromKeys(next, CacheAfter(cache, name, ps[0], forceRefresh, o.listing, o.inference),
                         ps[1..], forceRefresh, probe);
      } else {
        ValidateFromKeys(results, cache, ps[1..], forceRefresh, probe);
      }
    }
  }

  /** Every answer is a success exactly when it is VALID. */
  predicate AnswersOk(results: Dict<string, ValidationResult>)
  {
    forall i :: 0 <= i < |results| ==> (results[i].1.success <==> results[i].1.status == Valid)
  }

  /** Validating in order keeps only VALID answers in the cache, and every answer honest about success. */
  lemma {:induction false} ValidateFromOk(results: Dict<string, ValidationResult>, cache: map<string, ValidationResult>,
                                          ps: seq<Entry>, forceRefresh: bool, probe: string -> Probe)
    requires AnswersOk(results) && CacheOk(cache)
    ensures var (out, after) := ValidateFrom(results, cache, ps, forceRefresh, probe);
      (out.Some? ==> AnswersOk(out.value)) && CacheOk(after)
    decreases |ps|
  {
    if ps != [] {
      if Active(ps[0]) && KeySliceRaises(ps[0]) {
      } else if Active(ps[0]) {
        var name := TextOr(ps[0], "name", "");
        var o := probe(name);
        var r := Validated(cache, name, ps[0], forceRefresh, o.listing, o.inference).value;
        var next := Put(results, name, r);
        var cache' := CacheAfter(cache, name, ps[0], forceRefresh, o.listing, o.inference);
        assert ValidateFrom(results, cache, ps, forceRefresh, probe)
            == ValidateFrom(next, cache', ps[1..], forceRefresh, probe);
        ValidatedSpec(cache, name, ps[0], forceRefresh, o.listing, o.inference);
        PutOrigin(results, name, r);
        forall i | 0 <= i < |next|
          ensures next[i].1.success <==> next[i].1.status == Valid
        {
          if next[i] != (name, r) {
            assert next[i] == results[i];
          }
        }
        ValidateFromOk(next, cache', ps[1..], forceRefresh, probe);
      } else {
        assert ValidateFrom(results, cache, ps, forceRefresh, probe)
            == ValidateFrom(results, cache, ps[1..], forceRefresh, probe);
        ValidateFromOk(results, cache, ps[1..], forceRefresh, probe);
      }
    }
  }

  class ProviderPreFlightValidator {
    var validationCache: map<string, ValidationResult>
    const cacheTtl: int

    ghost predicate Valid()
      reads this
    {
      CacheOk(validationCache) && cacheTtl == CacheTtl
    }

    constructor ()
      ensures Valid() && validationCache == map[]
    {
      validationCache := map[];
      cacheTtl := CacheTtl;
    }

    /**
     * `validate_provider`: the cache lookup, then the decision chain, caching
     * a VALID answer; `None` when the cache key cannot be built.
     */
    method ValidateProvider(name: string, config: Entry, forceRefresh: bool,
                            listing: ListingOutcome, inference: InferenceOutcome)
      returns (r: Option<ValidationResult>)
      requires Valid()
      modifies this
      ensures Valid()
      ensures r == Validated(old(validationCache), name, config, forceRefresh, listing, inference)
      ensures validationCache == CacheAfter(old(validationCache), name, config, forceRefresh, listing, inference)
    {
      if KeySliceRaises(config) {
        return None;
      }
      var key := CacheKey(name, config);
      if !forceRefresh && key in validationCache {
        var cached := validationCache[key];
        var age := 0;
        if age < cacheTtl {
          return Some(cached);
        }
      }
      var result := Recheck(name, config, key, listing, inference);
      return Some(result);
    }

    /** The uncached path of `validate_provider`: the decision chain, caching a VALID answer under `key`. */
    method Recheck(name: string, config: Entry, key: string, listing: ListingOutcome, inference: InferenceOutcome)
      returns (result: ValidationResult)
      requires Valid()
      modifies this
      ensures Valid()
      ensures result == Decide(name, config, listing, inference)
      ensures validationCache == if result.success then old(validationCache)[key := result] else old(validationCache)
    {
      result := RunChecks(name, config, listing, inference);
      if result.success {
        validationCache := validationCache[key := result];
      }
    }

    /**
     * `validate_all_providers`: each active provider is validated in order
     * against the cache as the earlier ones left it; `None` when one of the
     * validations raises.
     */
    method ValidateAllProviders(providers: seq<Entry>, forceRefresh: bool, probe: string -> Probe)
      returns (results: Option<Dict<string, ValidationResult>>)
      requires Valid()
      modifies this
      ensures Valid()
      ensures (results, validationCache) == ValidateFrom([], old(validationCache), providers, forceRefresh, probe)
    {
      var answers := [];
      var i := 0;
      while i < |providers|
        invariant 0 <= i <= |providers|
        invariant Valid()
        invariant ValidateFrom(answers, validationCache, providers[i..], forceRefresh, probe)
               == ValidateFrom([], old(validationCache), providers, forceRefresh, probe)
      {
        var provider := providers[i];
        assert providers[i..][1..] == providers[i + 1..];
        if Active(provider) {
          var name := TextOr(provider, "name", "");
          var outcome := probe(name);
          var result := ValidateProvider(name, provider, forceRefresh, outcome.listing, outcome.inference);
          if result.None? {
            return None;
          }
          answers := Put(answers, name, result.value);
        }
        i := i + 1;
      }
      return Some(answers);
    }

    /** `get_valid_models_for_ui`: the models of a successful validation, else none; `None` when it raises. */
    method GetValidModelsForUi(name: string, config: Entry, listing: ListingOutcome, inference: InferenceOutcome)
      returns (models: Option<seq<string>>)
      requires Valid()
      modifies this
      ensures Valid()
      ensures var r := Validated(old(validationCache), name, config, false, listing, inference);
        models == if r.None? then None else Some(if r.value.success then r.value.availableModels else [])
      ensures validationCache == CacheAfter(old(validationCache), name, config, false, listing, inference)
    {
      var r := ValidateProvider(name, config, false, listing, inference);
      if r.None? {
        return None;
      }
      if r.value.success {
        models := Some(r.value.availableModels);
      } else {
        models := Some([]);
      }
    }
  }
}
