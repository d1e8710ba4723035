/**
 * The model catalog the UI may offer. For each provider the enforcer keeps
 * the catalog of its last pre-flight validation, keyed by provider, and
 * serves it again only while it was built from the same token, is no older
 * than the cache TTL and passed validation. A set of `provider:model` keys
 * blocks single models from the UI.
 *
 * The clock is `now` (seconds); the token hash is a function fixed at
 * construction; the pre-flight validator is the shared
 * `ProviderPreFlightValidator`, whose two HTTP requests are passed in.
 */
module ModelUiSync {
  import opened Common
  import opened Strings
  import opened JsonValues
  import opened ProviderPreflight

  datatype ModelCatalog = ModelCatalog(
    providerName: string,
    models: seq<string>,
    lastSync: int,
    tokenHash: string,
    validationPassed: bool,
    errorMessage: Option<string>)
  {
    /** `is_stale`: older than the TTL. */
    predicate IsStale(ttl: int, now: int)
    {
      now - lastSync > ttl
    }
  }

  const DefaultCacheTtl := 300

  /** The `provider:model` key under which a model is blocked. */
  function ModelKey(provider: string, model: string): string
  {
    provider + ":" + model
  }

  /** The configuration handed to the validator: the token, plus endpoints for three known providers. */
  function ProviderConfig(name: string, token: string): (c: Entry)
    ensures Get(c, "api_key") == Str(token) && Get(c, "name") == Str(name)
  {
    var common := map["name" := Str(name), "api_key" := Str(token), "status" := Str("active")];
    if name == "OpenRouter" then
      common + map["base_url" := Str("https://openrouter.ai/api"), "list_models_endpoint" := Str("v1/models"),
                   "chat_endpoint" := Str("v1/chat/completions"), "headers" := Object(map["HTTP-Referer" := Str("spiral-codex-hud")])]
    else if name == "Hugging Face" then
      common + map["base_url" := Str("https://api-inference.huggingface.co"),
                   "list_models_endpoint" := Str("https://huggingface.co/api/models"),
                   "chat_endpoint" := Str("models/{model}")]
    else if name == "Together AI" then
      common + map["base_url" := Str("https://api.together.xyz"), "list_models_endpoint" := Str("v1/models"),
                   "chat_endpoint" := Str("v1/chat/completions")]
    else common
  }

  /** The catalog built from a fresh validation: a failed one keeps no models and its error. */
  function FreshCatalog(name: string, result: ValidationResult, tokenHash: string, now: int): (c: ModelCatalog)
    ensures c.providerName == name && c.tokenHash == tokenHash && c.lastSync == now
    ensures c.validationPassed == result.success
    ensures c.validationPassed ==> c.models == result.availableModels && c.errorMessage == None
    ensures !c.validationPassed ==> c.models == [] && c.errorMessage == result.errorMessage
  {
    ModelCatalog(name, if result.success then result.availableModels else [], now, tokenHash, result.success,
                 if !result.success then result.errorMessage else None)
  }

  /**
   * The cached catalog `sync_provider_models` returns without validating:
   * one exists, no refresh is forced, and it is fresh, from the same token
   * and validated.
   */
  function CacheHit(catalogs: map<string, ModelCatalog>, name: string, tokenHash: string,
                    forceRefresh: bool, ttl: int, now: int): (r: Option<ModelCatalog>)
    ensures r.Some? <==>
      && !forceRefresh && name in catalogs
      && catalogs[name].tokenHash == tokenHash
      && now - catalogs[name].lastSync <= ttl
      && catalogs[name].validationPassed
    ensures r.Some? ==> r.value == catalogs[name]
  {
    if !forceRefresh && name in catalogs then
      var cached := catalogs[name];
      if cached.tokenHash == tokenHash && !cached.IsStale(ttl, now) && cached.validationPassed then Some(cached)
      else None
    else None
  }

  /** The models `get_ui_models` shows from a catalog: none unless validated, and never a blocked one. */
  function SafeModels(catalog: ModelCatalog, blocked: set<string>): (r: seq<string>)
    ensures !catalog.validationPassed ==> r == []
    ensures catalog.validationPassed ==>
      forall m :: m in r <==> m in catalog.models && ModelKey(catalog.providerName, m) !in blocked
  {
    if catalog.validationPassed then Unblocked(catalog.providerName, catalog.models, blocked) else []
  }

  /** `[m for m in models if f"{provider}:{m}" not in blocked]`. */
  function Unblocked(provider: string, models: seq<string>, blocked: set<string>): (r: seq<string>)
    ensures |r| <= |models|
    ensures forall m :: m in r <==> m in models && ModelKey(provider, m) !in blocked
  {
    if models == [] then []
    else (if ModelKey(provider, models[0]) in blocked then [] else [models[0]])
         + Unblocked(provider, models[1..], blocked)
  }

  /** Filtering keeps the catalog's order: with nothing blocked it is the whole list. */
  lemma {:induction false} UnblockedAll(provider: string, models: seq<string>, blocked: set<string>)
    requires forall m :: m in models ==> ModelKey(provider, m) !in blocked
    ensures Unblocked(provider, models, blocked) == models
  {
    if models != [] {
      assert models[0] in models;
      assert forall m :: m in models[1..] ==> m in models;
      UnblockedAll(provider, models[1..], blocked);
    }
  }

  /** Filtering is a homomorphism of concatenation, so kept models keep their relative order. */
  lemma {:induction false} UnblockedAppend(provider: string, a: seq<string>, b: seq<string>, blocked: set<string>)
    ensures Unblocked(provider, a + b, blocked) == Unblocked(provider, a, blocked) + Unblocked(provider, b, blocked)
  {
    if a == [] {
      assert a + b == b;
    } else {
      assert (a + b)[0] == a[0];
      assert (a + b)[1..] == a[1..] + b;
      UnblockedAppend(provider, a[1..], b, blocked);
    }
  }

  /** `", ".join(pieces)`. */
  function JoinComma(pieces: seq<string>): string
  {
    if pieces == [] then "" else if |pieces| == 1 then pieces[0] else pieces[0] + ", " + JoinComma(pieces[1..])
  }

  /** f-string rendering of an optional message: `None` prints as "None". */
  function Show(s: Option<string>): string
  {
    if s.Some? then s.value else "None"
  }

  /** The (ok, message) pair `validate_model_selection` returns for a catalog. */
  function SelectionCheck(catalog: ModelCatalog, provider: string, model: string, blocked: set<string>)
    : (r: (bool, Option<string>))
    ensures r.0 <==> catalog.validationPassed && model in catalog.models && ModelKey(provider, model) !in blocked
    ensures r.0 <==> r.1.None?
  {
    if !catalog.validationPassed then
      (false, Some("Provider " + provider + " validation failed: " + Show(catalog.errorMessage)))
    else if model !in catalog.models then
      var available := if |catalog.models| <= 5 then catalog.models else catalog.models[..5];
      (false, Some("Model '" + model + "' not available for " + provider + ". Available models: "
                   + JoinComma(available)
                   + (if |catalog.models| > 5 then " (and " + IntToString(|catalog.models| - 5) + " more)" else "")))
    else if ModelKey(provider, model) in blocked then
      (false, Some("Model '" + model + "' is blocked due to previous failures"))
    else (true, None)
  }

  /** Every stored catalog sits under its own provider's name, and a failed one holds no models. */
  predicate CatalogsOk(catalogs: map<string, ModelCatalog>)
  {
    forall n :: n in catalogs ==>
      catalogs[n].providerName == n && (!catalogs[n].validationPassed ==> catalogs[n].models == [])
  }

  /**
   * A catalog served from the cache passed validation, so a failed catalog is
   * never served; a catalog served either way sits under its provider's name.
   */
  lemma CacheHitValidated(catalogs: map<string, ModelCatalog>, name: string, tokenHash: string,
                          forceRefresh: bool, ttl: int, now: int)
    requires CatalogsOk(catalogs)
    ensures var hit := CacheHit(catalogs, name, tokenHash, forceRefresh, ttl, now);
      hit.Some? ==> hit.value.validationPassed && hit.value.providerName == name && hit.value.tokenHash == tokenHash
  {
  }

  /**
   * A forced refresh never hits the cache, and a token whose hash differs
   * from the stored catalog's never hits either.
   */
  lemma NewTokenMisses(catalogs: map<string, ModelCatalog>, name: string, tokenHash: string,
                       forceRefresh: bool, ttl: int, now: int)
    requires forceRefresh || (name in catalogs && catalogs[name].tokenHash != tokenHash)
    ensures CacheHit(catalogs, name, tokenHash, forceRefresh, ttl, now).None?
  {
  }

  class ModelUISyncEnforcer {
    const cacheTtl: int
    const hashToken: string -> string
    var catalogs: map<string, ModelCatalog>
    var blockedModels: set<string>

    ghost predicate Valid()
      reads this
    {
      CatalogsOk(catalogs)
    }

    constructor (ttl: int, hash: string -> string)
      ensures Valid() && cacheTtl == ttl && hashToken == hash
      ensures catalogs == map[] && blockedModels == {}
    {
      cacheTtl := ttl;
      hashToken := hash;
      catalogs := map[];
      blockedModels := {};
    }

    /**
     * `sync_provider_models`: the cached catalog when `CacheHit` allows it;
     * otherwise a forced validation whose catalog replaces the stored one.
     */
    method SyncProviderModels(name: string, token: string, forceRefresh: bool, now: int,
                              validator: ProviderPreFlightValidator,
                              listing: ListingOutcome, inference: InferenceOutcome)
      returns (catalog: ModelCatalog)
      requires Valid() && validator.Valid()
      modifies this, validator
      ensures Valid() && validator.Valid()
      ensures blockedModels == old(blockedModels)
      ensures var hit := CacheHit(old(catalogs), name, hashToken(token), forceRefresh, cacheTtl, now);
        if hit.Some? then
          catalog == hit.value && catalogs == old(catalogs)
          && validator.validationCache == old(validator.validationCache)
        else
          var config := ProviderConfig(name, token);
          && catalog == FreshCatalog(name, Decide(name, config, listing, inference), hashToken(token), now)
          && catalogs == old(catalogs)[name := catalog]
          && validator.validationCache == CacheAfter(old(validator.validationCache), name, config, true, listing, inference)
    {
      var tokenHash := hashToken(token);
      if !forceRefresh && name in catalogs {
        var cached := catalogs[name];
        if cached.tokenHash == tokenHash && !cached.IsStale(cacheTtl, now) && cached.validationPassed {
          return cached;
        }
      }
      var config := ProviderConfig(name, token);
      var result := validator.ValidateProvider(name, config, true, listing, inference);
      catalog := FreshCatalog(name, result.value, tokenHash, now);
      catalogs := catalogs[name := catalog];
    }

    /** `get_ui_models`: the synced catalog's models, filtered by the blocked set. */
    method GetUiModels(name: string, token: string, forceRefresh: bool, now: int,
                       validator: ProviderPreFlightValidator,
                       listing: ListingOutcome, inference: InferenceOutcome)
      returns (models: seq<string>)
      requires Valid() && validator.Valid()
      modifies this, validator
      ensures Valid() && validator.Valid()
      ensures blockedModels == old(blockedModels)
      ensures name in catalogs && models == SafeModels(catalogs[name], blockedModels)
      ensures catalogs.Keys == old(catalogs).Keys + {name}
    {
      var catalog := SyncProviderModels(name, token, forceRefresh, now, validator, listing, inference);
      if !catalog.validationPassed {
        return [];
      }
      models := Unblocked(name, catalog.models, blockedModels);
    }

    /** `validate_model_selection`: checks the (possibly cached) catalog and the blocked set. */
    method ValidateModelSelection(name: string, model: string, token: string, now: int,
                                  validator: ProviderPreFlightValidator,
                                  listing: ListingOutcome, inference: InferenceOutcome)
      returns (ok: bool, error: Option<string>)
      requires Valid() && validator.Valid()
      modifies this, validator
      ensures Valid() && validator.Valid()
      ensures blockedModels == old(blockedModels)
      ensures name in catalogs && (ok, error) == SelectionCheck(catalogs[name], name, model, blockedModels)
    {
      var catalog := SyncProviderModels(name, token, false, now, validator, listing, inference);
      var answer := SelectionCheck(catalog, name, model, blockedModels);
      ok, error := answer.0, answer.1;
    }

    method BlockModel(provider: string, model: string, reason: string)
      requires Valid()
      modifies this
      ensures Valid()
      ensures blockedModels == old(blockedModels) + {ModelKey(provider, model)}
      ensures catalogs == old(catalogs)
    {
      blockedModels := blockedModels + {ModelKey(provider, model)};
    }

    method UnblockModel(provider: string, model: string)
      requires Valid()
      modifies this
      ensures Valid()
      ensures blockedModels == old(blockedModels) - {ModelKey(provider, model)}
      ensures catalogs == old(catalogs)
    {
      blockedModels := blockedModels - {ModelKey(provider, model)};
    }

    /**
     * `clear_cache`: a non-empty name drops that provider's catalog; `None`,
     * and an empty name, which Python reads as false, drop every catalog.
     */
    method ClearCache(name: Option<string>)
      requires Valid()
      modifies this
      ensures Valid()
      ensures catalogs == ClearedCatalogs(old(catalogs), name)
      ensures blockedModels == old(blockedModels)
    {
      if name.Some? && name.value != "" {
        catalogs := catalogs - {name.value};
      } else {
        catalogs := map[];
      }
    }

    /** `on_token_change`: clear the provider's catalog, then sync it with a forced refresh. */
    method OnTokenChange(name: string, newToken: string, now: int,
                         validator: ProviderPreFlightValidator,
                         listing: ListingOutcome, inference: InferenceOutcome)
      requires Valid() && validator.Valid()
      modifies this, validator
      ensures Valid() && validator.Valid()
      ensures blockedModels == old(blockedModels)
      ensures catalogs == ClearedCatalogs(old(catalogs), Some(name))[name :=
        FreshCatalog(name, Decide(name, ProviderConfig(name, newToken), listing, inference), hashToken(newToken), now)]
    {
      ClearCache(Some(name));
      var _ := SyncProviderModels(name, newToken, true, now, validator, listing, inference);
    }
  }

  /** The catalogs left by `clear_cache(name)`. */
  function ClearedCatalogs(catalogs: map<string, ModelCatalog>, name: Option<string>): (r: map<string, ModelCatalog>)
    ensures name.Some? && name.value != "" ==>
      r.Keys == catalogs.Keys - {name.value} && forall n :: n in r ==> r[n] == catalogs[n]
    ensures !(name.Some? && name.value != "") ==> r == map[]
  {
    if name.Some? && name.value != "" then catalogs - {name.value} else map[]
  }

  /** Blocking twice is blocking once; unblocking a key that was not blocked restores the set. */
  lemma BlockUnblock(blocked: set<string>, provider: string, model: string)
    ensures blocked + {ModelKey(provider, model)} + {ModelKey(provider, model)} == blocked + {ModelKey(provider, model)}
    ensures ModelKey(provider, model) !in blocked ==> blocked + {ModelKey(provider, model)} - {ModelKey(provider, model)} == blocked
    ensures ModelKey(provider, model) !in blocked - {ModelKey(provider, model)}
  {
  }

  /** A blocked model is never shown, whatever else the catalog holds. */
  lemma BlockedNeverShown(catalog: ModelCatalog, blocked: set<string>, model: string)
    requires ModelKey(catalog.providerName, model) in blocked
    ensures model !in SafeModels(catalog, blocked)
    ensures !SelectionCheck(catalog, catalog.providerName, model, blocked).0
  {
  }
}
