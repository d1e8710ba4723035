/**
 * The token-refresh protocol. When a provider's token changes, the manager
 * writes the token into the configuration file, clears the pre-flight cache
 * and the provider's catalog, runs a forced pre-flight validation, resyncs
 * the catalog if that passed, and records the new token's hash.
 *
 * The configuration file's provider list is a field (`None` for a missing
 * file); the token hash is a function fixed at construction; the clock's
 * ISO stamp and the HTTP outcomes of the validations are passed in. The
 * shared validator and catalog enforcer are passed as objects.
 */
module ProviderTokenRefresh {
  import opened Common
  import opened Dicts
  import J = JsonValues
  import opened ProviderPreflight
  import opened ModelUiSync

  /** `_load_token_hashes` reads a provider only when both its name and its key are non-empty strings. */
  predicate HasToken(p: J.Entry)
  {
    J.Get(p, "name").Str? && J.Get(p, "name").s != "" && J.Get(p, "api_key").Str? && J.Get(p, "api_key").s != ""
  }

  /**
   * A provider with a truthy name and a truthy key makes the loader raise
   * when the key is not a string (it has no `encode`) or the name is a list
   * or a dictionary (it cannot be a dictionary key); the `except` around the
   * loop then abandons the providers after it.
   */
  predicate HashRaises(p: J.Entry)
  {
    var name := J.Get(p, "name");
    var key := J.Get(p, "api_key");
    name.Truthy() && key.Truthy() && (!key.Str? || name.List? || name.Object?)
  }

  /** How many providers are read before the first one that makes the loader raise. */
  function Readable(ps: seq<J.Entry>): (r: nat)
    ensures r <= |ps|
    ensures forall k :: 0 <= k < r ==> !HashRaises(ps[k])
    ensures r < |ps| ==> HashRaises(ps[r])
  {
    if ps == [] || HashRaises(ps[0]) then 0
    else
      var rest := Readable(ps[1..]);
      assert forall k :: 0 < k < |ps| ==> ps[k] == ps[1..][k - 1];
      1 + rest
  }

  /** The hashes after reading `ps` in order into `d`; a later entry of the same name wins. */
  function HashesFrom(d: Dict<string, string>, ps: seq<J.Entry>, hash: string -> string): Dict<string, string>
    decreases |ps|
  {
    if ps == [] || HashRaises(ps[0]) then d
    else if HasToken(ps[0]) then HashesFrom(Put(d, J.Get(ps[0], "name").s, hash(J.Get(ps[0], "api_key").s)), ps[1..], hash)
    else HashesFrom(d, ps[1..], hash)
  }

  /** The names of the providers read with a name and a key, in order. */
  function TokenNames(ps: seq<J.Entry>): (r: seq<string>)
    ensures forall n :: n in r <==>
      exists i :: 0 <= i < Readable(ps) && HasToken(ps[i]) && J.Get(ps[i], "name").s == n
  {
    if ps == [] || HashRaises(ps[0]) then []
    else
      var rest := TokenNames(ps[1..]);
      assert Readable(ps) == 1 + Readable(ps[1..]);
      assert forall i :: 0 < i < |ps| ==> ps[i] == ps[1..][i - 1];
      (if HasToken(ps[0]) then [J.Get(ps[0], "name").s] else []) + rest
  }

  /** Exactly the providers with both a name and a key get a hash. */
  lemma {:induction false} HashesFromKeys(d: Dict<string, string>, ps: seq<J.Entry>, hash: string -> string)
    requires WellFormed(d)
    ensures WellFormed(HashesFrom(d, ps, hash))
    ensures forall n :: HasKey(HashesFrom(d, ps, hash), n) <==> HasKey(d, n) || n in TokenNames(ps)
    decreases |ps|
  {
    if ps != [] && !HashRaises(ps[0]) {
      if HasToken(ps[0]) {
        var name := J.Get(ps[0], "name").s;
        var v := hash(J.Get(ps[0], "api_key").s);
        PutWellFormed(d, name, v);
        forall n ensures HasKey(Put(d, name, v), n) <==> HasKey(d, n) || n == name {
          HasKeyPut(d, name, v, n);
        }
        HashesFromKeys(Put(d, name, v), ps[1..], hash);
      } else {
        HashesFromKeys(d, ps[1..], hash);
      }
    }
  }

  /** `detect_token_change`: no hash is stored for the provider, or the stored one differs. */
  function TokenChanged(hashes: Dict<string, string>, name: string, token: string, hash: string -> string): (r: bool)
    ensures r <==> !HasKey(hashes, name) || Get(hashes, name).value != hash(token)
  {
    Get(hashes, name) != Some(hash(token))
  }

  /** The first index whose entry is named `name`, or `|ps|` when there is none. */
  function FirstNamed(ps: seq<J.Entry>, name: string): (i: nat)
    ensures i <= |ps|
    ensures i < |ps| ==> J.Is(ps[i], "name", name)
    ensures forall j :: 0 <= j < i ==> !J.Is(ps[j], "name", name)
  {
    if ps == [] then 0
    else if J.Is(ps[0], "name", name) then 0
    else 1 + FirstNamed(ps[1..], name)
  }

  /** The provider entry rewritten with the new token, activated if asked, and stamped. */
  function WithToken(p: J.Entry, token: string, autoActivate: bool, stamp: string): (r: J.Entry)
    ensures r.Keys == p.Keys + {"api_key", "last_updated"} + (if autoActivate then {"status"} else {})
    ensures r["api_key"] == J.Str(token) && r["last_updated"] == J.Str(stamp)
    ensures autoActivate ==> r["status"] == J.Str("active")
    ensures forall k :: k in p && k !in {"api_key", "last_updated", "status"} ==> r[k] == p[k]
    ensures !autoActivate && "status" in p ==> r["status"] == p["status"]
  {
    var keyed := p["api_key" := J.Str(token)];
    var activated := if autoActivate then keyed["status" := J.Str("active")] else keyed;
    activated["last_updated" := J.Str(stamp)]
  }

  /** The entry appended for a provider the file does not list. */
  function NewEntry(name: string, token: string, autoActivate: bool, stamp: string): J.Entry
  {
    map["name" := J.Str(name), "api_key" := J.Str(token),
        "status" := J.Str(if autoActivate then "active" else "inactive"),
        "type" := J.Str("cloud"), "last_updated" := J.Str(stamp)]
  }

  /** `_update_config_file`'s new provider list: the first entry of that name rewritten, else one appended. */
  function UpdatedProviders(ps: seq<J.Entry>, name: string, token: string, autoActivate: bool, stamp: string)
    : (r: seq<J.Entry>)
    ensures var i := FirstNamed(ps, name);
      if i < |ps| then
        |r| == |ps| && r[i] == WithToken(ps[i], token, autoActivate, stamp)
        && forall j :: 0 <= j < |ps| && j != i ==> r[j] == ps[j]
      else r == ps + [NewEntry(name, token, autoActivate, stamp)]
  {
    var i := FirstNamed(ps, name);
    if i < |ps| then ps[i := WithToken(ps[i], token, autoActivate, stamp)]
    else ps + [NewEntry(name, token, autoActivate, stamp)]
  }

  /** After an update exactly one entry carries the provider's name first, and it holds the new token. */
  lemma UpdatedProvidersFind(ps: seq<J.Entry>, name: string, token: string, autoActivate: bool, stamp: string)
    ensures var r := UpdatedProviders(ps, name, token, autoActivate, stamp);
      var i := FirstNamed(r, name);
      i < |r| && J.Get(r[i], "api_key") == J.Str(token) && (autoActivate ==> J.Is(r[i], "status", "active"))
  {
    var r := UpdatedProviders(ps, name, token, autoActivate, stamp);
    var i := FirstNamed(ps, name);
    if i < |ps| {
      assert J.Is(r[i], "name", name);
      assert forall j :: 0 <= j < i ==> r[j] == ps[j];
      FirstNamedIs(r, name, i);
    } else {
      assert r[|ps|] == NewEntry(name, token, autoActivate, stamp);
      assert forall j :: 0 <= j < |ps| ==> r[j] == ps[j];
      FirstNamedIs(r, name, |ps|);
    }
  }

  /** The first match is where the name first occurs. */
  lemma {:induction false} FirstNamedIs(ps: seq<J.Entry>, name: string, i: nat)
    requires i < |ps| && J.Is(ps[i], "name", name)
    requires forall j :: 0 <= j < i ==> !J.Is(ps[j], "name", name)
    ensures FirstNamed(ps, name) == i
  {
    if i > 0 {
      assert forall j :: 0 <= j < i - 1 ==> ps[1..][j] == ps[j + 1];
      FirstNamedIs(ps[1..], name, i - 1);
    }
  }

  /** The configuration handed to `_run_preflight`'s validation: the token, plus endpoints for three providers. */
  function PreflightConfig(name: string, token: string): (c: J.Entry)
    ensures J.Get(c, "api_key") == J.Str(token)
  {
    var common := map["name" := J.Str(name), "api_key" := J.Str(token), "status" := J.Str("active")];
    if name == "OpenRouter" then
      common + map["base_url" := J.Str("https://openrouter.ai/api"), "list_models_endpoint" := J.Str("v1/models"),
                   "chat_endpoint" := J.Str("v1/chat/completions"), "headers" := J.Object(map["HTTP-Referer" := J.Str("spiral-codex-hud")])]
    else if name == "Hugging Face" then
      common + map["base_url" := J.Str("https://api-inference.huggingface.co"),
                   "list_models_endpoint" := J.Str("https://huggingface.co/api/models")]
    else if name == "Together AI" then
      common + map["base_url" := J.Str("https://api.together.xyz"), "list_models_endpoint" := J.Str("v1/models"),
                   "chat_endpoint" := J.Str("v1/chat/completions")]
    else common
  }

  /** The outcomes of the HTTP requests one token update makes: the pre-flight pair, then the resync pair. */
  datatype Requests = Requests(
    preflightListing: ListingOutcome, preflightInference: InferenceOutcome,
    resyncListing: ListingOutcome, resyncInference: InferenceOutcome)

  class ProviderTokenRefreshManager {
    const hashToken: string -> string
    var tokenHashes: Dict<string, string>
    /** The `providers` list of the configuration file; `None` when the file does not exist. */
    var configFile: Option<seq<J.Entry>>

    ghost predicate Valid()
      reads this
    {
      WellFormed(tokenHashes)
    }

    /** The manager over a configuration file, with the hashes of the tokens it lists. */
    constructor (file: Option<seq<J.Entry>>, hash: string -> string)
      ensures Valid() && configFile == file && hashToken == hash
      ensures tokenHashes == if file.Some? then HashesFrom([], file.value, hash) else []
    {
      hashToken := hash;
      configFile := file;
      tokenHashes := [];
      new;
      LoadTokenHashes();
    }

    /**
     * `_load_token_hashes`: hash the token of every provider with a name and
     * a key, up to the first provider that makes the loader raise.
     */
    method LoadTokenHashes()
      requires Valid()
      modifies this
      ensures Valid() && configFile == old(configFile)
      ensures tokenHashes == if configFile.Some? then HashesFrom(old(tokenHashes), configFile.value, hashToken)
                             else old(tokenHashes)
    {
      if configFile.None? {
        return;
      }
      var providers := configFile.value;
      var i := 0;
      while i < |providers|
        invariant 0 <= i <= |providers|
        invariant WellFormed(tokenHashes) && configFile == old(configFile)
        invariant HashesFrom(tokenHashes, providers[i..], hashToken) == HashesFrom(old(tokenHashes), providers, hashToken)
      {
        var provider := providers[i];
        assert providers[i..][1..] == providers[i + 1..];
        if HashRaises(provider) {
          return;
        }
        if HasToken(provider) {
          var name := J.Get(provider, "name").s;
          var token := J.Get(provider, "api_key").s;
          PutWellFormed(tokenHashes, name, hashToken(token));
          tokenHashes := Put(tokenHashes, name, hashToken(token));
        }
        i := i + 1;
      }
    }

    /** `_update_config_file`: false for a missing file; otherwise the provider list is rewritten. */
    method UpdateConfigFile(name: string, token: string, autoActivate: bool, stamp: string) returns (ok: bool)
      modifies this
      ensures ok <==> old(configFile).Some?
      ensures configFile == if ok then Some(UpdatedProviders(old(configFile).value, name, token, autoActivate, stamp))
                            else old(configFile)
      ensures tokenHashes == old(tokenHashes)
    {
      if configFile.None? {
        return false;
      }
      var providers := configFile.value;
      var i := 0;
      while i < |providers| && !J.Is(providers[i], "name", name)
        invariant 0 <= i <= |providers|
        invariant forall j :: 0 <= j < i ==> !J.Is(providers[j], "name", name)
      {
        i := i + 1;
      }
      if i < |providers| {
        FirstNamedIs(providers, name, i);
        configFile := Some(providers[i := WithToken(providers[i], token, autoActivate, stamp)]);
      } else {
        FirstNamedAbsent(providers, name);
        configFile := Some(providers + [NewEntry(name, token, autoActivate, stamp)]);
      }
      return true;
    }

    /**
     * `update_provider_token`. An unchanged token is accepted with nothing
     * done; a missing file refuses the update and keeps the old hash;
     * otherwise the refresh protocol runs and the new hash is stored whether
     * or not pre-flight passed. The health reset acts on a monitor of its
     * own, so it leaves no state behind.
     */
    method UpdateProviderToken(name: string, newToken: string, autoActivate: bool, stamp: string, now: int,
                               validator: ProviderPreFlightValidator, enforcer: ModelUISyncEnforcer,
                               requests: Requests)
      returns (ok: bool)
      requires Valid() && validator.Valid() && enforcer.Valid()
      modifies this, validator, enforcer
      ensures Valid() && validator.Valid() && enforcer.Valid()
      ensures var newHash := hashToken(newToken);
        if Get(old(tokenHashes), name) == Some(newHash) then
          && ok && tokenHashes == old(tokenHashes) && configFile == old(configFile)
          && validator.validationCache == old(validator.validationCache)
          && enforcer.catalogs == old(enforcer.catalogs)
        else if old(configFile).None? then
          && !ok && tokenHashes == old(tokenHashes) && configFile == old(configFile)
          && validator.validationCache == old(validator.validationCache)
          && enforcer.catalogs == old(enforcer.catalogs)
        else
          && ok
          && configFile == Some(UpdatedProviders(old(configFile).value, name, newToken, autoActivate, stamp))
          && tokenHashes == Put(old(tokenHashes), name, newHash)
          && RefreshedState(old(enforcer.catalogs), name, newToken, enforcer.hashToken, now, requests)
             == (validator.validationCache, enforcer.catalogs)
      ensures enforcer.blockedModels == old(enforcer.blockedModels)
    {
      var newHash := hashToken(newToken);
      var oldHash := Get(tokenHashes, name);
      if oldHash == Some(newHash) {
        return true;
      }
      var written := UpdateConfigFile(name, newToken, autoActivate, stamp);
      if !written {
        return false;
      }
      // Clear the pre-flight cache and the provider's catalog.
      validator.validationCache := map[];
      enforcer.ClearCache(Some(name));
      // Run pre-flight with the new token.
      var result := validator.ValidateProvider(name, PreflightConfig(name, newToken), true,
                                               requests.preflightListing, requests.preflightInference);
      if result.value.success {
        var _ := enforcer.SyncProviderModels(name, newToken, true, now, validator,
                                             requests.resyncListing, requests.resyncInference);
      }
      PutWellFormed(tokenHashes, name, newHash);
      tokenHashes := Put(tokenHashes, name, newHash);
      ok := true;
    }
  }

  /** Without an entry of that name the first match is past the end. */
  lemma {:induction false} FirstNamedAbsent(ps: seq<J.Entry>, name: string)
    requires forall j :: 0 <= j < |ps| ==> !J.Is(ps[j], "name", name)
    ensures FirstNamed(ps, name) == |ps|
  {
    if ps != [] {
      assert forall j :: 0 <= j < |ps| - 1 ==> ps[1..][j] == ps[j + 1];
      FirstNamedAbsent(ps[1..], name);
    }
  }

  /**
   * The validation cache and the catalogs a refresh leaves: the cache holds
   * at most the pre-flight answer and then the resync's, and the provider's
   * catalog is dropped and, if pre-flight passed, rebuilt from a forced sync.
   */
  function RefreshedState(catalogs: map<string, ModelCatalog>, name: string, token: string, hash: string -> string,
                          now: int, requests: Requests)
    : (map<string, ValidationResult>, map<string, ModelCatalog>)
  {
    var preflight := PreflightConfig(name, token);
    var cache := CacheAfter(map[], name, preflight, true, requests.preflightListing, requests.preflightInference);
    var cleared := ClearedCatalogs(catalogs, Some(name));
    if Decide(name, preflight, requests.preflightListing, requests.preflightInference).success then
      var config := ProviderConfig(name, token);
      var resynced := Decide(name, config, requests.resyncListing, requests.resyncInference);
      (CacheAfter(cache, name, config, true, requests.resyncListing, requests.resyncInference),
       cleared[name := FreshCatalog(name, resynced, hash(token), now)])
    else (cache, cleared)
  }

  /**
   * After a refresh the provider's catalog was never served from a stale
   * cache: it is present exactly when pre-flight passed, and then it was built
   * from the new token; every other provider's catalog is untouched unless
   * the name is empty, which clears them all.
   */
  lemma RefreshedCatalog(catalogs: map<string, ModelCatalog>, name: string, token: string, hash: string -> string,
                         now: int, requests: Requests)
    ensures var after := RefreshedState(catalogs, name, token, hash, now, requests).1;
      var passed := Decide(name, PreflightConfig(name, token), requests.preflightListing, requests.preflightInference).success;
      && (name in after <==> passed)
      && (passed ==> after[name].tokenHash == hash(token) && after[name].lastSync == now)
      && (name != "" ==> forall n :: n in catalogs && n != name ==> n in after && after[n] == catalogs[n])
  {
  }

  /** Only VALID answers are left in the cleared pre-flight cache. */
  lemma RefreshedCacheOk(catalogs: map<string, ModelCatalog>, name: string, token: string, hash: string -> string,
                         now: int, requests: Requests)
    ensures CacheOk(RefreshedState(catalogs, name, token, hash, now, requests).0)
  {
    var preflight := PreflightConfig(name, token);
    ValidatedSpec(map[], name, preflight, true, requests.preflightListing, requests.preflightInference);
    var cache := CacheAfter(map[], name, preflight, true, requests.preflightListing, requests.preflightInference);
    ValidatedSpec(cache, name, ProviderConfig(name, token), true, requests.resyncListing, requests.resyncInference);
  }
}
