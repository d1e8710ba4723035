/**
 * The free-model highlighter: fetched model entries are parsed for their
 * pricing, split into a free and a paid list, and the paid list is locked
 * away unless the user opts in.
 *
 * Parsing a price string as a float is an oracle `parse`; rendering a float
 * with six decimals is an oracle `formatCost`; rendering a non-string name
 * is an oracle `render`. The HTTP response is passed in.
 */
module AutoFreeModels {
  import opened Common
  import opened Strings
  import J = JsonValues
  import Sorting

  /** A cost as `float()` yields it: a finite amount, or an infinity or NaN. */
  datatype Cost = Finite(amount: real) | Unbounded

  datatype ModelEntry = ModelEntry(
    id: string, name: J.Value, isFree: bool, promptCost: Cost, completionCost: Cost,
    contextLength: int, provider: string, displayName: string)

  /** The `pricing` field of a fetched model: missing, an object, or some other value. */
  datatype Pricing = NoPricing | PricingObject(fields: J.Entry) | PricingOther

  /** One element of the response's `data` list. */
  datatype ModelData = ModelObject(fields: J.Entry, pricing: Pricing) | NotAnObject

  /** The result of the models request: a status code and, when the body is an object, its `data` list. */
  datatype FetchOutcome = Response(statusCode: int, data: Option<seq<ModelData>>) | Raised

  /** `str(value)` for the values a price can take; `None` for an object or a list. */
  function PriceText(v: J.Value): Option<string>
  {
    match v
    case Str(s) => Some(s)
    case Int(i) => Some(IntToString(i))
    case Null => Some("None")
    case Bool(b) => Some(if b then "True" else "False")
    case List(_) => None
    case Object(_) => None
  }

  /** `s.replace('$', '')`. */
  function WithoutDollar(s: string): (r: string)
    ensures forall i :: 0 <= i < |r| ==> r[i] != '$'
    ensures |r| <= |s|
  {
    if s == [] then []
    else (if s[0] == '$' then [] else [s[0]]) + WithoutDollar(s[1..])
  }

  /** `float(str(pricing.get(key, '0')).replace('$', ''))`, `None` when it raises. */
  function ParsedPrice(fields: J.Entry, key: string, parse: string -> Option<Cost>): Option<Cost>
  {
    var text := if key in fields then PriceText(fields[key]) else Some("0");
    if text.Some? then parse(WithoutDollar(text.value)) else None
  }

  /** The two costs: both infinite as soon as either price fails to parse. */
  function Costs(pricing: Pricing, parse: string -> Option<Cost>): (r: (Cost, Cost))
    ensures pricing.PricingOther? ==> r == (Unbounded, Unbounded)
    ensures pricing.PricingObject? ==>
      var p := ParsedPrice(pricing.fields, "prompt", parse);
      var c := ParsedPrice(pricing.fields, "completion", parse);
      r == if p.Some? && c.Some? then (p.value, c.value) else (Unbounded, Unbounded)
  {
    var fields := match pricing
      case NoPricing => map[]
      case PricingObject(f) => f
      case PricingOther => map[];
    if pricing.PricingOther? then (Unbounded, Unbounded)
    else
      var p := ParsedPrice(fields, "prompt", parse);
      var c := ParsedPrice(fields, "completion", parse);
      if p.Some? && c.Some? then (p.value, c.value) else (Unbounded, Unbounded)
  }

  /** Three decimal digits with leading zeros. */
  function Pad3(k: nat): string
    requires k < 1000
  {
    [DigitChar(k / 100), DigitChar(k / 10 % 10), DigitChar(k % 10)]
  }

  /** `f"{n:,}"`: the decimal digits grouped in threes by commas. */
  function Grouped(n: int): (r: string)
    ensures 0 <= n < 1000 ==> r == NatToString(n)
    decreases if n < 0 then 1 - n else n
  {
    if n < 0 then "-" + Grouped(-n)
    else if n < 1000 then NatToString(n)
    else Grouped(n / 1000) + "," + Pad3(n % 1000)
  }

  /** The context length as the format accepts it, `None` for the values that make formatting raise. */
  function ContextLength(fields: J.Entry): Option<int>
  {
    if "context_length" !in fields then Some(0)
    else match fields["context_length"]
      case Int(i) => Some(i)
      case Bool(b) => Some(if b then 1 else 0)
      case _ => None
  }

  /** `model_data.get('id', 'unknown')`. */
  function ModelId(fields: J.Entry): J.Value
  {
    if "id" in fields then fields["id"] else J.Str("unknown")
  }

  /** The label text of a name. */
  function NameText(name: J.Value, render: J.Value -> string): string
  {
    if name.Str? then name.s else render(name)
  }

  /**
   * `_parse_model`. `None` stands for the exceptions the parse lets escape:
   * an entry that is not an object, an id that is not a string, or a context
   * length that cannot be formatted. Free means both costs are zero or the
   * lowercased id carries `:free`.
   */
  function ParseModel(data: ModelData, provider: string, parse: string -> Option<Cost>,
                      formatCost: Cost -> string, render: J.Value -> string): (r: Option<ModelEntry>)
    ensures r.Some? ==> data.ModelObject? && r.value.provider == provider
    ensures r.Some? ==>
      var p := Costs(data.pricing, parse).0;
      var c := Costs(data.pricing, parse).1;
      && r.value.promptCost == p && r.value.completionCost == c
      && (r.value.isFree <==> (p == Finite(0.0) && c == Finite(0.0)) || Contains(Lower(r.value.id), ":free"))
    ensures r.Some? <==> data.ModelObject? && ModelId(data.fields).Str? && ContextLength(data.fields).Some?
    ensures r.Some? ==> r.value.id == ModelId(data.fields).s && r.value.contextLength == ContextLength(data.fields).value
  {
    match data
    case NotAnObject => None
    case ModelObject(fields, pricing) =>
      var idValue := ModelId(fields);
      var context := ContextLength(fields);
      if !idValue.Str? || context.None? then None
      else
        var id := idValue.s;
        var name := if "name" in fields then fields["name"] else idValue;
        var costs := Costs(pricing, parse);
        var p := costs.0;
        var c := costs.1;
        var free := (p == Finite(0.0) && c == Finite(0.0)) || Contains(Lower(id), ":free");
        var caption := NameText(name, render) + " (" + Grouped(context.value) + " tokens)";
        var display := if free then "\U{2705} FREE - " + caption else "\U{1F4B0} $" + formatCost(p) + " - " + caption;
        Some(ModelEntry(id, name, free, p, c, context.value, provider, display))
  }

  /** Unparseable pricing makes a model paid unless its id says `:free`. */
  lemma UnparseablePricingIsPaid(data: ModelData, provider: string, parse: string -> Option<Cost>,
                                 formatCost: Cost -> string, render: J.Value -> string)
    requires data.ModelObject? && data.pricing.PricingObject?
    requires "prompt" in data.pricing.fields && data.pricing.fields["prompt"].Str?
    requires parse(WithoutDollar(data.pricing.fields["prompt"].s)) == None
    ensures var r := ParseModel(data, provider, parse, formatCost, render);
      r.Some? ==> r.value.promptCost == Unbounded && r.value.completionCost == Unbounded
                  && (r.value.isFree <==> Contains(Lower(r.value.id), ":free"))
  {
    assert ParsedPrice(data.pricing.fields, "prompt", parse) == None;
  }

  /** Every element parsed, in order; `None` as soon as one of them raises. */
  function ParseAll(ms: seq<ModelData>, provider: string, parse: string -> Option<Cost>,
                    formatCost: Cost -> string, render: J.Value -> string): (r: Option<seq<ModelEntry>>)
    ensures r.Some? ==> |r.value| == |ms|
    decreases |ms|
  {
    if ms == [] then Some([])
    else
      var front := ParseAll(ms[..|ms| - 1], provider, parse, formatCost, render);
      var last := ParseModel(ms[|ms| - 1], provider, parse, formatCost, render);
      if front.Some? && last.Some? then Some(front.value + [last.value]) else None
  }

  /** A prefix that fails to parse makes the whole list fail. */
  lemma {:induction false} ParseAllPrefix(ms: seq<ModelData>, i: nat, provider: string, parse: string -> Option<Cost>,
                                          formatCost: Cost -> string, render: J.Value -> string)
    requires i <= |ms| && ParseAll(ms[..i], provider, parse, formatCost, render).None?
    ensures ParseAll(ms, provider, parse, formatCost, render).None?
    decreases |ms| - i
  {
    if i < |ms| {
      assert ms[..i + 1][..i] == ms[..i];
      ParseAllPrefix(ms, i + 1, provider, parse, formatCost, render);
    } else {
      assert ms[..i] == ms;
    }
  }

  /** Parsing one element more extends the parsed prefix by its entry. */
  lemma ParseAllStep(ms: seq<ModelData>, i: nat, provider: string, parse: string -> Option<Cost>,
                     formatCost: Cost -> string, render: J.Value -> string)
    requires i < |ms|
    ensures var front := ParseAll(ms[..i], provider, parse, formatCost, render);
      var e := ParseModel(ms[i], provider, parse, formatCost, render);
      ParseAll(ms[..i + 1], provider, parse, formatCost, render)
        == if front.Some? && e.Some? then Some(front.value + [e.value]) else None
  {
    assert ms[..i + 1][..i] == ms[..i];
  }

  /** The entries with the given freeness, in order. */
  function WithFreeness(es: seq<ModelEntry>, free: bool): (r: seq<ModelEntry>)
    ensures forall k :: 0 <= k < |r| ==> r[k].isFree == free
    ensures |r| <= |es|
    decreases |es|
  {
    if es == [] then []
    else WithFreeness(es[..|es| - 1], free) + (if es[|es| - 1].isFree == free then [es[|es| - 1]] else [])
  }

  /** A new entry extends the list of its own freeness only. */
  lemma WithFreenessAppend(es: seq<ModelEntry>, e: ModelEntry)
    ensures WithFreeness(es + [e], e.isFree) == WithFreeness(es, e.isFree) + [e]
    ensures WithFreeness(es + [e], !e.isFree) == WithFreeness(es, !e.isFree)
  {
    assert (es + [e])[..|es|] == es;
  }

  /** Each entry lands in exactly one of the two lists and none is made up. */
  lemma {:induction false} SplitPartitions(es: seq<ModelEntry>)
    ensures multiset(WithFreeness(es, true)) + multiset(WithFreeness(es, false)) == multiset(es)
    decreases |es|
  {
    if es != [] {
      var front := es[..|es| - 1];
      var last := es[|es| - 1];
      SplitPartitions(front);
      assert es == front + [last];
      if last.isFree {
        assert WithFreeness(es, true) == WithFreeness(front, true) + [last];
        assert WithFreeness(es, false) == WithFreeness(front, false);
      } else {
        assert WithFreeness(es, true) == WithFreeness(front, true);
        assert WithFreeness(es, false) == WithFreeness(front, false) + [last];
      }
    }
  }

  /** So the two lists together are exactly as long as the parsed list. */
  lemma SplitLengths(es: seq<ModelEntry>)
    ensures |WithFreeness(es, true)| + |WithFreeness(es, false)| == |es|
  {
    SplitPartitions(es);
    assert |multiset(WithFreeness(es, true)) + multiset(WithFreeness(es, false))| == |multiset(es)|;
  }

  /** The model lists a fetch yields: `None` for a failed request or a parse that raised. */
  function Categorized(outcome: FetchOutcome, provider: string, parse: string -> Option<Cost>,
                       formatCost: Cost -> string, render: J.Value -> string): Option<seq<ModelEntry>>
  {
    if outcome.Raised? || outcome.statusCode != 200 || outcome.data.None? then None
    else ParseAll(outcome.data.value, provider, parse, formatCost, render)
  }

  /** The first index whose entry has the id, or the length when none has. */
  function IndexOfId(models: seq<ModelEntry>, id: string): (i: nat)
    ensures i <= |models|
    ensures i < |models| ==> models[i].id == id
    ensures forall j :: 0 <= j < i ==> models[j].id != id
  {
    if models == [] then 0
    else if models[0].id == id then 0
    else 1 + IndexOfId(models[1..], id)
  }

  /** The message refusing a paid model. */
  function NotFreeMessage(m: ModelEntry, formatCost: Cost -> string): string
  {
    "Model '" + m.id + "' is not free. Enable 'Show Paid Models' to use paid models. Cost: $"
    + formatCost(m.promptCost) + " prompt, $" + formatCost(m.completionCost) + " completion"
  }

  datatype FreeModelSummary = FreeModelSummary(
    count: nat, totalContext: int, averageContext: int, topModels: seq<ModelEntry>)

  /** The total context of `models`. */
  function TotalContext(models: seq<ModelEntry>): int
  {
    if models == [] then 0 else models[0].contextLength + TotalContext(models[1..])
  }

  function ContextKey(m: ModelEntry): Sorting.SortKey
  {
    Sorting.SortKey(m.contextLength as real, 0.0)
  }

  /** The five models with the largest context, largest first, earlier ones first among equals. */
  function TopModels(models: seq<ModelEntry>): seq<ModelEntry>
  {
    SliceTo(Sorting.SortDesc(models, ContextKey), 5)
  }

  /**
   * The top list holds five models or all of them, from the list, largest
   * context first, and no model left out has a larger context than one kept.
   */
  lemma TopModelsSpec(models: seq<ModelEntry>)
    ensures var top := TopModels(models);
      && |top| == (if |models| < 5 then |models| else 5)
      && (forall k :: 0 <= k < |top| ==> top[k] in models)
      && (forall i, j :: 0 <= i < j < |top| ==> top[i].contextLength >= top[j].contextLength)
      && (forall m :: m in models && m !in top ==>
            forall k :: 0 <= k < |top| ==> top[k].contextLength >= m.contextLength)
  {
    var sorted := Sorting.SortDesc(models, ContextKey);
    var top := TopModels(models);
    Sorting.SortDescSorted(models, ContextKey);
    Sorting.SortDescPermutes(models, ContextKey);
    assert top == sorted[..|top|];
    forall k | 0 <= k < |top| ensures top[k] in models {
      assert top[k] in multiset(sorted);
    }
    forall m | m in models && m !in top
      ensures forall k :: 0 <= k < |top| ==> top[k].contextLength >= m.contextLength
    {
      assert m in multiset(sorted);
      var j :| 0 <= j < |sorted| && sorted[j] == m;
      assert j >= |top|;
    }
  }

  /** `get_free_model_summary`. */
  function Summarize(free: seq<ModelEntry>): (r: FreeModelSummary)
    ensures r.count == |free|
    ensures free == [] ==> r == FreeModelSummary(0, 0, 0, [])
    ensures free != [] ==> r.totalContext == TotalContext(free) && r.averageContext * r.count <= r.totalContext
                           && r.totalContext < (r.averageContext + 1) * r.count
    ensures r.topModels == TopModels(free)
  {
    if free == [] then FreeModelSummary(0, 0, 0, [])
    else
      var total := TotalContext(free);
      FreeModelSummary(|free|, total, total / |free|, TopModels(free))
  }

  class FreeModelsHighlighter {
    const parse: string -> Option<Cost>
    const formatCost: Cost -> string
    const render: J.Value -> string
    var showPaidModels: bool
    var freeModels: seq<ModelEntry>
    var paidModels: seq<ModelEntry>

    /** Free models only, with empty lists. */
    constructor (parse: string -> Option<Cost>, formatCost: Cost -> string, render: J.Value -> string)
      ensures this.parse == parse && this.formatCost == formatCost && this.render == render
      ensures !showPaidModels && freeModels == [] && paidModels == []
    {
      this.parse := parse;
      this.formatCost := formatCost;
      this.render := render;
      showPaidModels := false;
      freeModels := [];
      paidModels := [];
    }

    /**
     * `fetch_and_categorize_models`: on success the parsed entries are split,
     * in order, into the free and the paid list, which replace the stored
     * ones; a failed request or a parse that raised yields two empty lists and
     * leaves the stored ones alone.
     */
    method FetchAndCategorizeModels(provider: string, outcome: FetchOutcome)
      returns (free: seq<ModelEntry>, paid: seq<ModelEntry>)
      modifies this
      ensures showPaidModels == old(showPaidModels)
      ensures var c := Categorized(outcome, provider, parse, formatCost, render);
        if c.Some? then
          && free == WithFreeness(c.value, true) && paid == WithFreeness(c.value, false)
          && freeModels == free && paidModels == paid
        else free == [] && paid == [] && freeModels == old(freeModels) && paidModels == old(paidModels)
    {
      if outcome.Raised? || outcome.statusCode != 200 || outcome.data.None? {
        return [], [];
      }
      var ms := outcome.data.value;
      free, paid := [], [];
      ghost var parsed: seq<ModelEntry> := [];
      var i := 0;
      while i < |ms|
        invariant 0 <= i <= |ms|
        invariant ParseAll(ms[..i], provider, parse, formatCost, render) == Some(parsed)
        invariant free == WithFreeness(parsed, true) && paid == WithFreeness(parsed, false)
        invariant freeModels == old(freeModels) && paidModels == old(paidModels) && showPaidModels == old(showPaidModels)
      {
        var entry := ParseModel(ms[i], provider, parse, formatCost, render);
        ParseAllStep(ms, i, provider, parse, formatCost, render);
        if entry.None? {
          ParseAllPrefix(ms, i + 1, provider, parse, formatCost, render);
          return [], [];
        }
        WithFreenessAppend(parsed, entry.value);
        if entry.value.isFree {
          free := free + [entry.value];
        } else {
          paid := paid + [entry.value];
        }
        parsed := parsed + [entry.value];
        i := i + 1;
      }
      assert ms[..i] == ms;
      freeModels := free;
      paidModels := paid;
    }

    /** `get_models_for_ui`: the free models, followed by the paid ones when they are asked for or unlocked. */
    function ModelsForUi(includePaid: bool): (r: seq<ModelEntry>)
      reads this
      ensures |r| >= |freeModels| && r[..|freeModels|] == freeModels
      ensures forall m :: m in r <==> m in freeModels || ((includePaid || showPaidModels) && m in paidModels)
    {
      if includePaid || showPaidModels then freeModels + paidModels else freeModels
    }

    /** `get_model_display_names`: the display names of the models the UI shows, in the same order. */
    function ModelDisplayNames(includePaid: bool): (r: seq<string>)
      reads this
      ensures |r| == |freeModels| + (if includePaid || showPaidModels then |paidModels| else 0)
      ensures forall k :: 0 <= k < |freeModels| ==> r[k] == freeModels[k].displayName
      ensures includePaid || showPaidModels ==>
        forall k :: 0 <= k < |paidModels| ==> r[|freeModels| + k] == paidModels[k].displayName
    {
      var models := ModelsForUi(includePaid);
      seq(|models|, k requires 0 <= k < |models| => models[k].displayName)
    }

    /** `get_model_by_display_name`: the first match among the free then the paid models. */
    method ModelByDisplayName(display: string) returns (r: Option<ModelEntry>)
      ensures var all := freeModels + paidModels;
        && (r.None? <==> forall k :: 0 <= k < |all| ==> all[k].displayName != display)
        && (r.Some? ==> exists i :: 0 <= i < |all| && all[i] == r.value && r.value.displayName == display
                                    && forall j :: 0 <= j < i ==> all[j].displayName != display)
    {
      var all := freeModels + paidModels;
      var i := 0;
      while i < |all|
        invariant 0 <= i <= |all|
        invariant forall j :: 0 <= j < i ==> all[j].displayName != display
      {
        if all[i].displayName == display {
          return Some(all[i]);
        }
        i := i + 1;
      }
      return None;
    }

    /**
     * `is_model_allowed`: a free id is allowed; a paid one only once paid
     * models are unlocked; an id in neither list is refused as unknown.
     */
    method IsModelAllowed(id: string) returns (ok: bool, error: Option<string>)
      ensures var f := IndexOfId(freeModels, id); var p := IndexOfId(paidModels, id);
        && (ok <==> f < |freeModels| || (showPaidModels && p < |paidModels|))
        && (ok <==> error.None?)
        && (!ok && p < |paidModels| ==> error == Some(NotFreeMessage(paidModels[p], formatCost)))
        && (p == |paidModels| && f == |freeModels| ==>
              error == Some("Model '" + id + "' not found in available models"))
    {
      var i := 0;
      while i < |freeModels|
        invariant 0 <= i <= |freeModels|
        invariant forall j :: 0 <= j < i ==> freeModels[j].id != id
      {
        if freeModels[i].id == id {
          return true, None;
        }
        i := i + 1;
      }
      i := 0;
      while i < |paidModels|
        invariant 0 <= i <= |paidModels|
        invariant forall j :: 0 <= j < i ==> paidModels[j].id != id
      {
        if paidModels[i].id == id {
          if showPaidModels {
            return true, None;
          }
          return false, Some(NotFreeMessage(paidModels[i], formatCost));
        }
        i := i + 1;
      }
      return false, Some("Model '" + id + "' not found in available models");
    }
  }
}
