/**
 * The OpenRouter free-model filter: of the fetched models only those whose
 * prompt and completion prices both parse as zero are kept; the list is
 * cached in a file for 24 hours, and a model outside it is refused.
 *
 * The cache file is a field (`None` when it is missing or not JSON); times
 * are whole seconds passed in; the fetched model list is passed in, empty
 * when the request failed. Price parsing is the oracle `parse`.
 */
module OpenRouterFreeModels {
  import opened Common
  import opened Strings
  import J = JsonValues
  import A = AutoFreeModels
  import Filters

  const CacheTtlHours := 24
  const CacheTtlSeconds := CacheTtlHours * 3600

  datatype ModelInfo = ModelInfo(
    id: J.Value, name: J.Value, pricing: map<string, A.Cost>, contextLength: int, isFree: bool,
    description: J.Value)
  {
    /** `is_truly_free`: a missing price reads as zero. */
    predicate IsTrulyFree()
    {
      var zero := A.Finite(0.0);
      (if "prompt" in pricing then pricing["prompt"] else zero) == zero
      && (if "completion" in pricing then pricing["completion"] else zero) == zero
    }
  }

  /** The cache file's content: its timestamp, `None` when it does not parse, and its models, `None` when malformed. */
  datatype CacheFile = CacheFile(timestamp: Option<int>, models: Option<seq<ModelInfo>>)

  /** `pricing.get(key, '0').replace('$', '')` parsed; `None` when it raises. */
  function Price(pricing: A.Pricing, key: string, parse: string -> Option<A.Cost>): Option<A.Cost>
  {
    match pricing
    case NoPricing => parse("0")
    case PricingOther => None
    case PricingObject(fields) =>
      if key !in fields then parse("0")
      else if fields[key].Str? then parse(A.WithoutDollar(fields[key].s))
      else None
  }

  /** `model_data.get('context_length', 0)` read as an integer. */
  function Context(fields: J.Entry): int
  {
    if "context_length" in fields && fields["context_length"].Int? then fields["context_length"].i else 0
  }

  /** The free entry a fetched object yields, `None` when it is paid or its prices do not parse; a non-object raises in the loop. */
  function FreeInfo(data: A.ModelData, parse: string -> Option<A.Cost>): (r: Option<ModelInfo>)
    ensures r.Some? ==> r.value.isFree && r.value.IsTrulyFree()
    ensures data.ModelObject? ==>
      (r.Some? <==> Price(data.pricing, "prompt", parse) == Some(A.Finite(0.0))
                    && Price(data.pricing, "completion", parse) == Some(A.Finite(0.0)))
  {
    match data
    case NotAnObject => None
    case ModelObject(fields, pricing) =>
      var p := Price(pricing, "prompt", parse);
      var c := Price(pricing, "completion", parse);
      if p == Some(A.Finite(0.0)) && c == Some(A.Finite(0.0)) then
        var id := if "id" in fields then fields["id"] else J.Str("");
        var name := if "name" in fields then fields["name"] else id;
        var description := if "description" in fields then fields["description"] else J.Str("");
        Some(ModelInfo(id, name, map["prompt" := A.Finite(0.0), "completion" := A.Finite(0.0)],
                       Context(fields), true, description))
      else None
  }

  function Pick(parse: string -> Option<A.Cost>): A.ModelData -> Option<ModelInfo>
  {
    d => FreeInfo(d, parse)
  }

  /** The free entries of a list, in order. */
  function Free(all: seq<A.ModelData>, parse: string -> Option<A.Cost>): seq<ModelInfo>
  {
    Filters.FilterMap(all, Pick(parse))
  }

  /**
   * An element that is not an object makes `filter_free_models` raise: its
   * `.get` fails inside the `try`, and the `except` handler calls `.get` on
   * it again.
   */
  predicate FilterRaises(all: seq<A.ModelData>)
  {
    exists i :: 0 <= i < |all| && all[i].NotAnObject?
  }

  /** `filter_free_models`: builds the free entries with a loop, `None` when it raises. */
  method FilterFreeModels(all: seq<A.ModelData>, parse: string -> Option<A.Cost>) returns (r: Option<seq<ModelInfo>>)
    ensures r.None? <==> FilterRaises(all)
    ensures r.Some? ==> r.value == Free(all, parse)
  {
    var free := [];
    var i := 0;
    while i < |all|
      invariant 0 <= i <= |all|
      invariant forall k :: 0 <= k < i ==> all[k].ModelObject?
      invariant free + Free(all[i..], parse) == Free(all, parse)
    {
      if all[i].NotAnObject? {
        return None;
      }
      Filters.FilterMapStep(all, i, Pick(parse));
      var info := FreeInfo(all[i], parse);
      if info.Some? {
        free := free + [info.value];
      }
      i := i + 1;
    }
    assert all[i..] == [];
    return Some(free);
  }

  /** `m` is the free entry of one of the fetched models. */
  predicate FromFetched(all: seq<A.ModelData>, parse: string -> Option<A.Cost>, m: ModelInfo)
  {
    exists i :: 0 <= i < |all| && FreeInfo(all[i], parse) == Some(m)
  }

  /** The `k`-th kept entry stems from a fetched model and is truly free. */
  lemma FreeOriginAt(all: seq<A.ModelData>, parse: string -> Option<A.Cost>, k: nat)
    requires k < |Free(all, parse)|
    ensures FromFetched(all, parse, Free(all, parse)[k])
    ensures Free(all, parse)[k].isFree && Free(all, parse)[k].IsTrulyFree()
  {
    Filters.FilterMapOrigin(all, Pick(parse));
    var i :| 0 <= i < |all| && Pick(parse)(all[i]) == Some(Free(all, parse)[k]);
    assert FreeInfo(all[i], parse) == Some(Free(all, parse)[k]);
  }

  /**
   * Every kept entry stems from a fetched model and is truly free, and every
   * fetched model whose two prices parse as zero is kept.
   */
  lemma FreeSpec(all: seq<A.ModelData>, parse: string -> Option<A.Cost>)
    ensures forall k :: 0 <= k < |Free(all, parse)| ==>
      FromFetched(all, parse, Free(all, parse)[k]) && Free(all, parse)[k].isFree && Free(all, parse)[k].IsTrulyFree()
    ensures forall i :: 0 <= i < |all| && FreeInfo(all[i], parse).Some? ==> FreeInfo(all[i], parse).value in Free(all, parse)
  {
    Filters.FilterMapComplete(all, Pick(parse));
    forall k | 0 <= k < |Free(all, parse)|
      ensures FromFetched(all, parse, Free(all, parse)[k]) && Free(all, parse)[k].isFree && Free(all, parse)[k].IsTrulyFree()
    {
      FreeOriginAt(all, parse, k);
    }
  }

  /** `_load_cache`: the models and their timestamp when the file holds both. */
  function Loaded(file: Option<CacheFile>): (r: Option<(seq<ModelInfo>, int)>)
    ensures r.Some? <==> file.Some? && file.value.models.Some? && file.value.timestamp.Some?
  {
    if file.Some? && file.value.models.Some? && file.value.timestamp.Some? then
      Some((file.value.models.value, file.value.timestamp.value))
    else None
  }

  /** `_is_cache_valid`: the file's timestamp parses and is less than 24 hours old. */
  predicate CacheValid(file: Option<CacheFile>, now: int)
  {
    file.Some? && file.value.timestamp.Some? && now - file.value.timestamp.value < CacheTtlSeconds
  }

  /**
   * The count and unit `_get_cache_age` reports for an age in seconds: whole
   * minutes below an hour (truncated toward zero, so a clock running backwards
   * gives a negative count), whole hours below a day, whole days beyond.
   */
  function AgeUnit(age: int): (r: (int, string))
    ensures age < 3600 ==> r.1 == "minutes" && r.0 == TruncDiv(age, 60)
    ensures 0 <= age < 3600 ==> 0 <= r.0 < 60 && r.0 * 60 <= age < (r.0 + 1) * 60
    ensures 3600 <= age < 86400 ==> r.1 == "hours" && 1 <= r.0 < 24 && r.0 * 3600 <= age < (r.0 + 1) * 3600
    ensures 86400 <= age ==> r.1 == "days" && 1 <= r.0 && r.0 * 86400 <= age < (r.0 + 1) * 86400
  {
    if age < 3600 then (TruncDiv(age, 60), "minutes")
    else if age < 86400 then (age / 3600, "hours")
    else (age / 86400, "days")
  }

  /** `_get_cache_age`. */
  function CacheAge(lastFetch: Option<int>, now: int): string
  {
    if lastFetch.None? then "No cache"
    else
      var (amount, unit) := AgeUnit(now - lastFetch.value);
      IntToString(amount) + " " + unit + " ago"
  }

  /** The summary's `last_refresh` entry: absent, `'Never'`, or a timestamp. */
  datatype LastRefresh = Absent | Never | At(time: int)

  datatype FreeModelsSummary = FreeModelsSummary(
    count: nat, totalContext: int, averageContext: int, cacheAge: string, lastRefresh: LastRefresh)

  function TotalContext(models: seq<ModelInfo>): int
  {
    if models == [] then 0 else models[0].contextLength + TotalContext(models[1..])
  }

  /** `get_free_models_summary` over the list it obtained. */
  function Summarize(models: seq<ModelInfo>, lastFetch: Option<int>, now: int): (r: FreeModelsSummary)
    ensures r.count == |models|
    ensures models == [] ==> r == FreeModelsSummary(0, 0, 0, "No cache", Absent)
    ensures models != [] ==>
      && r.averageContext * r.count <= r.totalContext < (r.averageContext + 1) * r.count
      && r.cacheAge == CacheAge(lastFetch, now)
      && r.lastRefresh == if lastFetch.Some? then At(lastFetch.value) else Never
  {
    if models == [] then FreeModelsSummary(0, 0, 0, "No cache", Absent)
    else
      var total := TotalContext(models);
      FreeModelsSummary(|models|, total, total / |models|, CacheAge(lastFetch, now),
                        if lastFetch.Some? then At(lastFetch.value) else Never)
  }

  /** The filter's state: its model list, the time of its last fetch, and the cache file. */
  datatype FilterState = FilterState(freeModels: seq<ModelInfo>, lastFetch: Option<int>, cacheFile: Option<CacheFile>)

  /** The state after `_load_cache`: a successful load takes the file's timestamp. */
  function AfterLoad(s: FilterState): FilterState
  {
    var loaded := Loaded(s.cacheFile);
    if loaded.Some? then s.(lastFetch := Some(loaded.value.1)) else s
  }

  /**
   * `get_free_models` as a function of the state: a valid, non-empty cache
   * when not forced; else the fetched list filtered and cached; else, for an
   * empty fetch, a non-empty cache whatever its age, or nothing. `None` is
   * the exception filtering raises, with the state the cache load left.
   */
  function FreeModelsAfter(s: FilterState, forceRefresh: bool, now: int, fetched: seq<A.ModelData>,
                           parse: string -> Option<A.Cost>): (Option<seq<ModelInfo>>, FilterState)
  {
    var loaded := Loaded(s.cacheFile);
    var cachedModels := if loaded.Some? then loaded.value.0 else [];
    var s1 := if !forceRefresh && CacheValid(s.cacheFile, now) then AfterLoad(s) else s;
    if !forceRefresh && CacheValid(s.cacheFile, now) && cachedModels != [] then
      (Some(cachedModels), s1.(freeModels := cachedModels))
    else if fetched == [] then
      var s2 := AfterLoad(s1);
      if cachedModels != [] then (Some(cachedModels), s2.(freeModels := cachedModels)) else (Some([]), s2)
    else if FilterRaises(fetched) then (None, s1)
    else
      var free := Free(fetched, parse);
      (Some(free), FilterState(free, Some(now), Some(CacheFile(Some(now), Some(free)))))
  }

  /**
   * A fetched, non-empty list always wins over the cache when forced, and the
   * answer then holds only truly free models, is written to the cache with the
   * current time, and becomes the filter's list; a list holding a non-object
   * raises instead and leaves the state as it was.
   */
  lemma ForcedRefreshFilters(s: FilterState, now: int, fetched: seq<A.ModelData>, parse: string -> Option<A.Cost>)
    requires fetched != []
    ensures var (r, t) := FreeModelsAfter(s, true, now, fetched, parse);
      && (r.None? <==> FilterRaises(fetched))
      && (r.None? ==> t == s)
      && (r.Some? ==>
            && r.value == Free(fetched, parse) && t.freeModels == r.value && t.lastFetch == Some(now)
            && Loaded(t.cacheFile) == Some((r.value, now)) && CacheValid(t.cacheFile, now)
            && forall k :: 0 <= k < |r.value| ==> r.value[k].IsTrulyFree())
  {
    FreeSpec(fetched, parse);
  }

  /** A valid non-empty cache answers an unforced request without fetching or rewriting the file. */
  lemma CacheAnswers(s: FilterState, now: int, fetched: seq<A.ModelData>, parse: string -> Option<A.Cost>)
    requires CacheValid(s.cacheFile, now) && Loaded(s.cacheFile).Some? && Loaded(s.cacheFile).value.0 != []
    ensures var (r, t) := FreeModelsAfter(s, false, now, fetched, parse);
      r == Some(s.cacheFile.value.models.value) && t.cacheFile == s.cacheFile && t.freeModels == r.value
      && t.lastFetch == s.cacheFile.value.timestamp
  {
  }

  /** An empty fetch never empties a non-empty cache: its models are answered, stale or not. */
  lemma EmptyFetchFallsBack(s: FilterState, forceRefresh: bool, now: int, parse: string -> Option<A.Cost>)
    ensures var (r, t) := FreeModelsAfter(s, forceRefresh, now, [], parse);
      && t.cacheFile == s.cacheFile
      && r == Some(if Loaded(s.cacheFile).Some? then Loaded(s.cacheFile).value.0 else [])
      && (r.value != [] ==> t.freeModels == r.value)
      && (r.value == [] ==> t.freeModels == s.freeModels)
  {
  }

  class OpenRouterFreeModelsFilter {
    const parse: string -> Option<A.Cost>
    var freeModels: seq<ModelInfo>
    var lastFetch: Option<int>
    var cacheFile: Option<CacheFile>

    function State(): FilterState
      reads this
    {
      FilterState(freeModels, lastFetch, cacheFile)
    }

    /** An empty list and no fetch yet, over a cache file. */
    constructor (file: Option<CacheFile>, parse: string -> Option<A.Cost>)
      ensures State() == FilterState([], None, file) && this.parse == parse
    {
      this.parse := parse;
      freeModels := [];
      lastFetch := None;
      cacheFile := file;
    }

    /** `_load_cache`. */
    method LoadCache() returns (r: Option<seq<ModelInfo>>)
      modifies this
      ensures r == (if Loaded(old(cacheFile)).Some? then Some(Loaded(old(cacheFile)).value.0) else None)
      ensures State() == AfterLoad(old(State()))
    {
      var loaded := Loaded(cacheFile);
      if loaded.None? {
        return None;
      }
      lastFetch := Some(loaded.value.1);
      return Some(loaded.value.0);
    }

    /** `get_free_models`; `None` when filtering the fetched list raises. */
    method GetFreeModels(forceRefresh: bool, now: int, fetched: seq<A.ModelData>) returns (r: Option<seq<ModelInfo>>)
      modifies this
      ensures (r, State()) == FreeModelsAfter(old(State()), forceRefresh, now, fetched, parse)
    {
      if !forceRefresh && CacheValid(cacheFile, now) {
        var cached := LoadCache();
        if cached.Some? && cached.value != [] {
          freeModels := cached.value;
          return cached;
        }
      }
      if fetched == [] {
        var cached := LoadCache();
        if cached.Some? && cached.value != [] {
          freeModels := cached.value;
          return cached;
        }
        return Some([]);
      }
      var free := FilterFreeModels(fetched, parse);
      if free.None? {
        return None;
      }
      cacheFile := Some(CacheFile(Some(now), free));
      freeModels := free.value;
      lastFetch := Some(now);
      return free;
    }

    /**
     * `is_model_free`: loads the list first when it is empty; the id is free
     * exactly when it is listed, and the refusal names the list's size.
     * `None` when the load raises.
     */
    method IsModelFree(id: string, now: int, fetched: seq<A.ModelData>) returns (r: Option<(bool, Option<string>)>)
      modifies this
      ensures old(freeModels) != [] ==> State() == old(State()) && r.Some?
      ensures old(freeModels) == [] ==>
        var (loaded, after) := FreeModelsAfter(old(State()), false, now, fetched, parse);
        State() == after && (r.None? <==> loaded.None?)
      ensures r.Some? ==> (r.value.0 <==> exists k :: 0 <= k < |freeModels| && freeModels[k].id == J.Str(id))
      ensures r.Some? ==> (r.value.0 <==> r.value.1.None?)
      ensures r.Some? && !r.value.0 ==> r.value.1 == Some(NotFreeMessage(id, |freeModels|))
    {
      if freeModels == [] {
        var loaded := GetFreeModels(false, now, fetched);
        if loaded.None? {
          return None;
        }
      }
      var i := 0;
      while i < |freeModels|
        invariant 0 <= i <= |freeModels|
        invariant forall k :: 0 <= k < i ==> freeModels[k].id != J.Str(id)
      {
        if freeModels[i].id == J.Str(id) {
          return Some((true, None));
        }
        i := i + 1;
      }
      return Some((false, Some(NotFreeMessage(id, |freeModels|))));
    }

    /** `block_paid_model`: allowed exactly when the model is free; `None` when the check raises. */
    method BlockPaidModel(id: string, now: int, fetched: seq<A.ModelData>) returns (allowed: Option<bool>)
      modifies this
      ensures old(freeModels) != [] ==> State() == old(State()) && allowed.Some?
      ensures old(freeModels) == [] ==>
        var (loaded, after) := FreeModelsAfter(old(State()), false, now, fetched, parse);
        State() == after && (allowed.None? <==> loaded.None?)
      ensures allowed.Some? ==> (allowed.value <==> exists k :: 0 <= k < |freeModels| && freeModels[k].id == J.Str(id))
    {
      var r := IsModelFree(id, now, fetched);
      allowed := if r.Some? then Some(r.value.0) else None;
    }

    /** `get_model_ids_only`: the ids of what an unforced `get_free_models` answers, in order. */
    method GetModelIdsOnly(now: int, fetched: seq<A.ModelData>) returns (ids: Option<seq<J.Value>>)
      modifies this
      ensures var (models, after) := FreeModelsAfter(old(State()), false, now, fetched, parse);
        && State() == after && (ids.Some? <==> models.Some?)
        && (ids.Some? ==> |ids.value| == |models.value|
                          && forall k :: 0 <= k < |ids.value| ==> ids.value[k] == models.value[k].id)
    {
      var models := GetFreeModels(false, now, fetched);
      if models.None? {
        return None;
      }
      var ms := models.value;
      ids := Some(seq(|ms|, k requires 0 <= k < |ms| => ms[k].id));
    }

    /** `get_free_models_summary`: an unforced `get_free_models`, then its summary. */
    method GetFreeModelsSummary(now: int, fetched: seq<A.ModelData>) returns (summary: Option<FreeModelsSummary>)
      modifies this
      ensures var (models, after) := FreeModelsAfter(old(State()), false, now, fetched, parse);
        && State() == after && (summary.Some? <==> models.Some?)
        && (summary.Some? ==> summary.value == Summarize(models.value, after.lastFetch, now))
    {
      var models := GetFreeModels(false, now, fetched);
      if models.None? {
        return None;
      }
      summary := Some(Summarize(models.value, lastFetch, now));
    }
  }

  function NotFreeMessage(id: string, count: nat): string
  {
    "Model '" + id + "' is not free. Only zero-cost models are allowed. Choose from "
    + IntToString(count) + " available free models."
  }
}
