/**
 * Health of the configured cloud providers. Each check lists the provider's
 * models and builds a new health record that carries the previous record's
 * request counters forward; the monitor keeps the latest record per provider
 * name.
 *
 * The model-list GET and the test chat POST are outcomes passed in; the
 * clock is `now`; the configuration file's provider list is passed in, `None`
 * standing for a file that is missing or cannot be parsed.
 */
module CloudProviderHealth {
  import opened Common
  import opened Strings
  import opened Dicts
  import J = JsonValues
  import P = ProviderPreflight

  datatype CloudProviderHealth = CloudProviderHealth(
    name: string,
    healthy: bool,
    lastCheck: int,
    latencyMs: real,
    availableModels: seq<string>,
    error: Option<string>,
    consecutiveFailures: int,
    totalRequests: int,
    successfulRequests: int)

  /**
   * What the model-list GET came back with: a response (its status, the
   * start of its text, the elapsed time, and the `data` or `models` value
   * when that is a list), a timeout, or another exception.
   */
  datatype HealthProbe =
    | Answered(statusCode: int, text: string, latencyMs: real, models: Option<seq<P.RawModel>>)
    | TimedOut
    | Raised(message: string, latencyMs: real)

  /** What the test chat POST came back with. */
  datatype ChatOutcome = ChatAnswered(statusCode: int, text: string) | ChatRaised(message: string)

  /** `f"HTTP {code}: {text[:200]}"`. */
  function HttpError(code: int, text: string): string
  {
    "HTTP " + IntToString(code) + ": " + SliceTo(text, 200)
  }

  /** The counters a record carries: at most the successes of all requests, none negative. */
  predicate CountsOk(h: CloudProviderHealth)
  {
    0 <= h.successfulRequests <= h.totalRequests && 0 <= h.consecutiveFailures
  }

  /** `to_dict`'s success rate, in percent; a provider never asked has rate 0. */
  function SuccessRate(h: CloudProviderHealth): real
  {
    (h.successfulRequests as real) / (Max(h.totalRequests, 1) as real) * 100.0
  }

  lemma SuccessRateBounds(h: CloudProviderHealth)
    requires CountsOk(h)
    ensures 0.0 <= SuccessRate(h) <= 100.0
    ensures SuccessRate(h) == 100.0 <==> h.totalRequests > 0 && h.successfulRequests == h.totalRequests
  {
    var n := Max(h.totalRequests, 1) as real;
    RatioBounds(h.successfulRequests as real, n);
  }

  /** A failed check: the failure streak and the request count grow, successes stay. */
  function Failed(name: string, prev: Option<CloudProviderHealth>, latency: real, error: string, now: int)
    : CloudProviderHealth
  {
    var failures := if prev.Some? then prev.value.consecutiveFailures else 0;
    var total := if prev.Some? then prev.value.totalRequests else 0;
    var successes := if prev.Some? then prev.value.successfulRequests else 0;
    CloudProviderHealth(name, false, now, latency, [], Some(error), failures + 1, total + 1, successes)
  }

  /**
   * `check_provider_health`: the record for `provider` given the previous
   * record under its name and what the model-list request returned. Without
   * a key no request is made.
   */
  function CheckHealth(provider: J.Entry, prev: Option<CloudProviderHealth>, probe: HealthProbe, now: int)
    : CloudProviderHealth
  {
    var name := J.TextOr(provider, "name", "Unknown");
    if !P.ApiKey(provider).Truthy() then Failed(name, prev, 0.0, "No API key configured", now)
    else
      match probe
      case Answered(code, text, latency, models) =>
        if code == 200 then
          var total := if prev.Some? then prev.value.totalRequests else 0;
          var successes := if prev.Some? then prev.value.successfulRequests else 0;
          var ids := if models.Some? then P.ModelIds(models.value) else [];
          CloudProviderHealth(name, true, now, latency, ids, None, 0, total + 1, successes + 1)
        else Failed(name, prev, latency, HttpError(code, text), now)
      case TimedOut => Failed(name, prev, 10000.0, "Request timeout (>10s)", now)
      case Raised(message, latency) => Failed(name, prev, latency, message, now)
  }

  /** A check answered with 200: healthy, the failure streak reset, one more request and one more success. */
  predicate Succeeded(before: Option<CloudProviderHealth>, after: CloudProviderHealth)
  {
    && after.healthy && after.consecutiveFailures == 0 && after.error.None?
    && after.totalRequests == (if before.Some? then before.value.totalRequests else 0) + 1
    && after.successfulRequests == (if before.Some? then before.value.successfulRequests else 0) + 1
  }

  /** Any other check: unhealthy, one more failure in the streak, one more request, successes unchanged. */
  predicate FailedOnce(before: Option<CloudProviderHealth>, after: CloudProviderHealth)
  {
    && !after.healthy && after.error.Some? && after.availableModels == []
    && after.consecutiveFailures == (if before.Some? then before.value.consecutiveFailures else 0) + 1
    && after.totalRequests == (if before.Some? then before.value.totalRequests else 0) + 1
    && after.successfulRequests == (if before.Some? then before.value.successfulRequests else 0)
  }

  /**
   * The counters carry over: a 200 answer with a key is the only success,
   * every other outcome (no key, another status, a timeout at 10000 ms, an
   * exception) is one more failure, and the counter invariant is kept.
   */
  lemma CheckHealthSpec(provider: J.Entry, prev: Option<CloudProviderHealth>, probe: HealthProbe, now: int)
    requires prev.Some? ==> CountsOk(prev.value)
    ensures var h := CheckHealth(provider, prev, probe, now);
      && h.name == J.TextOr(provider, "name", "Unknown")
      && CountsOk(h)
      && (h.healthy <==> P.ApiKey(provider).Truthy() && probe.Answered? && probe.statusCode == 200)
      && (h.healthy ==> Succeeded(prev, h))
      && (!h.healthy ==> FailedOnce(prev, h))
      && (P.ApiKey(provider).Truthy() && probe.TimedOut? ==> h.latencyMs == 10000.0)
  {
  }

  /** Without a key the record does not depend on what a request would have returned. */
  lemma NoKeyNoRequest(provider: J.Entry, prev: Option<CloudProviderHealth>, p1: HealthProbe, p2: HealthProbe, now: int)
    requires !P.ApiKey(provider).Truthy()
    ensures CheckHealth(provider, prev, p1, now) == CheckHealth(provider, prev, p2, now)
    ensures CheckHealth(provider, prev, p1, now).error == Some("No API key configured")
    ensures CheckHealth(provider, prev, p1, now).latencyMs == 0.0
  {
  }

  /** `load_providers`' filter: active entries that are not of type local. */
  predicate IsActiveCloud(p: J.Entry)
  {
    J.Is(p, "status", "active") && J.Get(p, "type") != J.Str("local")
  }

  function ActiveCloud(ps: seq<J.Entry>): (r: seq<J.Entry>)
    ensures |r| <= |ps|
    ensures forall p :: p in r <==> p in ps && IsActiveCloud(p)
  {
    if ps == [] then []
    else (if IsActiveCloud(ps[0]) then [ps[0]] else []) + ActiveCloud(ps[1..])
  }

  /** `load_providers`: the active cloud entries of the file, none when it cannot be read. */
  function LoadProviders(file: Option<seq<J.Entry>>): (r: seq<J.Entry>)
    ensures file.None? ==> r == []
    ensures file.Some? ==> forall p :: p in r <==> p in file.value && IsActiveCloud(p)
  {
    if file.Some? then ActiveCloud(file.value) else []
  }

  /** Every record is stored under its own name and keeps the counter invariant. */
  predicate RecordsOk(d: Dict<string, CloudProviderHealth>)
  {
    WellFormed(d) && forall i :: 0 <= i < |d| ==> d[i].1.name == d[i].0 && CountsOk(d[i].1)
  }

  /** One iteration of `check_all_providers`: check the provider and store its record under its name. */
  function CheckOne(d: Dict<string, CloudProviderHealth>, p: J.Entry, probe: string -> HealthProbe, now: int)
    : Dict<string, CloudProviderHealth>
  {
    var name := J.TextOr(p, "name", "Unknown");
    var h := CheckHealth(p, Get(d, name), probe(name), now);
    Put(d, h.name, h)
  }

  /** The records after checking `ps` in order, each against the record its name had so far. */
  function CheckFrom(d: Dict<string, CloudProviderHealth>, ps: seq<J.Entry>, probe: string -> HealthProbe, now: int)
    : Dict<string, CloudProviderHealth>
    decreases |ps|
  {
    if ps == [] then d else CheckFrom(CheckOne(d, ps[0], probe, now), ps[1..], probe, now)
  }

  /** One check keeps every record under its name with sound counters, and adds the checked name. */
  lemma CheckOneOk(d: Dict<string, CloudProviderHealth>, p: J.Entry, probe: string -> HealthProbe, now: int)
    requires RecordsOk(d)
    ensures RecordsOk(CheckOne(d, p, probe, now))
    ensures forall n :: HasKey(CheckOne(d, p, probe, now), n) <==> HasKey(d, n) || n == J.TextOr(p, "name", "Unknown")
  {
    var name := J.TextOr(p, "name", "Unknown");
    var prev := Get(d, name);
    if prev.Some? { GetEntry(d, name); }
    var h := CheckHealth(p, prev, probe(name), now);
    CheckHealthSpec(p, prev, probe(name), now);
    var r := Put(d, h.name, h);
    assert CheckOne(d, p, probe, now) == r;
    PutWellFormed(d, h.name, h);
    PutOrigin(d, h.name, h);
    forall i | 0 <= i < |r|
      ensures r[i].1.name == r[i].0 && CountsOk(r[i].1)
    {
      if r[i] != (h.name, h) {
        assert r[i] == d[i];
      }
    }
    forall n ensures HasKey(r, n) <==> HasKey(d, n) || n == name {
      HasKeyPut(d, h.name, h, n);
    }
  }

  /** The names the providers of `ps` are checked under, in order. */
  function CheckedNames(ps: seq<J.Entry>): (r: seq<string>)
    ensures forall n :: n in r <==> exists i :: 0 <= i < |ps| && J.TextOr(ps[i], "name", "Unknown") == n
  {
    if ps == [] then []
    else
      var rest := CheckedNames(ps[1..]);
      assert forall i :: 0 < i < |ps| ==> ps[i] == ps[1..][i - 1];
      [J.TextOr(ps[0], "name", "Unknown")] + rest
  }

  /** Checking keeps every record under its name with sound counters, and every checked name gets a record. */
  lemma {:induction false} CheckFromOk(d: Dict<string, CloudProviderHealth>, ps: seq<J.Entry>,
                                       probe: string -> HealthProbe, now: int)
    requires RecordsOk(d)
    ensures RecordsOk(CheckFrom(d, ps, probe, now))
    ensures forall n :: HasKey(CheckFrom(d, ps, probe, now), n) <==> HasKey(d, n) || n in CheckedNames(ps)
    decreases |ps|
  {
    if ps != [] {
      var next := CheckOne(d, ps[0], probe, now);
      CheckOneOk(d, ps[0], probe, now);
      CheckFromOk(next, ps[1..], probe, now);
    }
  }

  /**
   * `get_healthy_providers`: the healthy names, in insertion order (a single
   * record gives its name exactly when it is healthy, and `HealthyNamesAppend`
   * keeps the order across records).
   */
  function HealthyNames(d: Dict<string, CloudProviderHealth>): (r: seq<string>)
    ensures |r| <= |d|
    ensures forall n :: n in r <==> exists i :: 0 <= i < |d| && d[i].0 == n && d[i].1.healthy
    ensures |d| == 1 ==> r == if d[0].1.healthy then [d[0].0] else []
  {
    if d == [] then []
    else
      var rest := HealthyNames(d[1..]);
      assert forall i :: 0 < i < |d| ==> d[i] == d[1..][i - 1];
      (if d[0].1.healthy then [d[0].0] else []) + rest
  }

  /** The healthy names of two runs of records are those of the first, then those of the second. */
  lemma {:induction false} HealthyNamesAppend(a: Dict<string, CloudProviderHealth>, b: Dict<string, CloudProviderHealth>)
    ensures HealthyNames(a + b) == HealthyNames(a) + HealthyNames(b)
  {
    if a == [] {
      assert a + b == b;
    } else {
      var ab := a + b;
      assert ab[0] == a[0] && ab[1..] == a[1..] + b;
      HealthyNamesAppend(a[1..], b);
      assert HealthyNames(ab) == (if a[0].1.healthy then [a[0].0] else []) + HealthyNames(a[1..] + b);
    }
  }

  /** `get_provider_for_model`: the first healthy provider listing the model. */
  function ProviderForModel(d: Dict<string, CloudProviderHealth>, model: string): (r: Option<string>)
    ensures r.None? <==> forall i :: 0 <= i < |d| ==> !(d[i].1.healthy && model in d[i].1.availableModels)
    ensures r.Some? ==> exists i :: 0 <= i < |d| && d[i].0 == r.value && d[i].1.healthy
                                    && model in d[i].1.availableModels
                                    && forall j :: 0 <= j < i ==> !(d[j].1.healthy && model in d[j].1.availableModels)
  {
    if d == [] then None
    else if d[0].1.healthy && model in d[0].1.availableModels then Some(d[0].0)
    else
      var r := ProviderForModel(d[1..], model);
      assert forall i :: 0 < i < |d| ==> d[i] == d[1..][i - 1];
      r
  }

  /** The first entry whose `name` is `name`: `next(p for p in providers if p.get('name') == name)`. */
  function FindProvider(ps: seq<J.Entry>, name: string): (r: Option<J.Entry>)
    ensures r.Some? ==> r.value in ps && J.Is(r.value, "name", name)
    ensures r.None? ==> forall p :: p in ps ==> !J.Is(p, "name", name)
  {
    if ps == [] then None
    else if J.Is(ps[0], "name", name) then Some(ps[0])
    else FindProvider(ps[1..], name)
  }

  /**
   * `test_chat_request` over the loaded providers and the stored records: the
   * guards first, then the outcome of the POST. A model that is not given,
   * or is empty, defaults to the provider's first listed model.
   */
  function TestChat(ps: seq<J.Entry>, d: Dict<string, CloudProviderHealth>, name: string, model: Option<string>,
                    outcome: ChatOutcome): (bool, string)
  {
    var provider := FindProvider(ps, name);
    if provider.None? || provider.value == map[] then (false, "Provider " + name + " not found")
    else
      var health := Get(d, name);
      if health.None? || !health.value.healthy then (false, "Provider " + name + " is not healthy")
      else
        var given := model.Some? && model.value != "";
        var chosen := if !given && health.value.availableModels != [] then Some(health.value.availableModels[0])
                      else model;
        if chosen.None? || chosen.value == "" then (false, "No model specified or available")
        else
          match outcome
          case ChatAnswered(code, text) =>
            if code == 200 then (true, "Success! Model " + chosen.value + " responded correctly")
            else (false, HttpError(code, text))
          case ChatRaised(message) => (false, "Request failed: " + message)
  }

  /** The request is sent only past the guards: an unknown or unhealthy provider, or no model, fails the same whatever the POST would return. */
  lemma TestChatGuards(ps: seq<J.Entry>, d: Dict<string, CloudProviderHealth>, name: string, model: Option<string>,
                       o1: ChatOutcome, o2: ChatOutcome)
    requires || FindProvider(ps, name).None?
             || Get(d, name).None? || !Get(d, name).value.healthy
             || ((model.None? || model.value == "") && Get(d, name).value.availableModels == [])
    ensures TestChat(ps, d, name, model, o1) == TestChat(ps, d, name, model, o2)
    ensures !TestChat(ps, d, name, model, o1).0
  {
  }

  /** Past the guards, success is exactly a 200 answer to the POST. */
  lemma TestChatOutcome(ps: seq<J.Entry>, d: Dict<string, CloudProviderHealth>, name: string, model: Option<string>,
                        outcome: ChatOutcome)
    requires FindProvider(ps, name).Some? && FindProvider(ps, name).value != map[]
    requires Get(d, name).Some? && Get(d, name).value.healthy
    requires || (model.Some? && model.value != "")
             || (Get(d, name).value.availableModels != [] && Get(d, name).value.availableModels[0] != "")
    ensures TestChat(ps, d, name, model, outcome).0 <==> outcome.ChatAnswered? && outcome.statusCode == 200
  {
  }

  class CloudProviderHealthMonitor {
    var providerHealth: Dict<string, CloudProviderHealth>
    var lastFullCheck: Option<int>

    ghost predicate Valid()
      reads this
    {
      RecordsOk(providerHealth)
    }

    constructor ()
      ensures Valid() && providerHealth == [] && lastFullCheck == None
    {
      providerHealth := [];
      lastFullCheck := None;
    }

    /**
     * `check_all_providers`: nothing happens without an active cloud provider;
     * otherwise each is checked in order and the check time is recorded.
     */
    method CheckAllProviders(file: Option<seq<J.Entry>>, probe: string -> HealthProbe, now: int)
      returns (result: Dict<string, CloudProviderHealth>)
      requires Valid()
      modifies this
      ensures Valid()
      ensures var ps := LoadProviders(file);
        if ps == [] then
          result == [] && providerHealth == old(providerHealth) && lastFullCheck == old(lastFullCheck)
        else
          && providerHealth == CheckFrom(old(providerHealth), ps, probe, now)
          && result == providerHealth && lastFullCheck == Some(now)
    {
      var providers := LoadProviders(file);
      if providers == [] {
        return [];
      }
      var i := 0;
      while i < |providers|
        invariant 0 <= i <= |providers|
        invariant RecordsOk(providerHealth)
        invariant CheckFrom(providerHealth, providers[i..], probe, now)
               == CheckFrom(old(providerHealth), providers, probe, now)
      {
        var provider := providers[i];
        var name := J.TextOr(provider, "name", "Unknown");
        var prev := Get(providerHealth, name);
        var health := CheckHealth(provider, prev, probe(name), now);
        assert providers[i..][1..] == providers[i + 1..];
        ghost var before := providerHealth;
        providerHealth := Put(providerHealth, health.name, health);
        assert providerHealth == CheckOne(before, provider, probe, now);
        assert CheckFrom(before, providers[i..], probe, now)
            == CheckFrom(providerHealth, providers[i + 1..], probe, now);
        CheckOneOk(before, provider, probe, now);
        i := i + 1;
      }
      assert providers[i..] == [];
      lastFullCheck := Some(now);
      result := providerHealth;
    }
  }
}
