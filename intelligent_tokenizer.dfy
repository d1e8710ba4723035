/**
 * Token counting, truncation and context-limit checks over an abstract
 * encoder, and the per-provider model catalog with its alternative-model
 * search.
 */
module IntelligentTokenizer {
  import opened Common
  import opened Strings
  import opened Dicts
  import opened Sorting
  import JsonValues

  /**
   * A tiktoken encoding: `encode` and `decode` are left uninterpreted, and
   * `encode` gives `None` where it raises.
   */
  datatype Codec = Codec(encode: string -> Option<seq<int>>, decode: seq<int> -> string)

  datatype TokenizationResult = TokenizationResult(
    tokens: seq<int>,
    tokenCount: int,
    text: string,
    encodingName: string,
    truncated: bool,
    originalLength: int,
    warnings: seq<string>)

  datatype ModelInfo = ModelInfo(
    id: string,
    name: string,
    provider: string,
    contextLength: int,
    supportsStreaming: bool,
    supportsFunctions: bool,
    costPerPrompt: real,
    costPerCompletion: real,
    encoding: string,
    lastSynced: Option<int>)

  /** The ordered substring rules of `_detect_encoding_for_model`. */
  const EncodingRules: seq<Rule<string>> := [
    Rule(["gpt-4", "gpt-3.5"], "cl100k_base"),
    Rule(["davinci", "curie", "babbage"], "r50k_base"),
    Rule(["code"], "p50k_base")
  ]

  function DetectEncoding(model: string): (r: string)
    ensures r == "cl100k_base" || r == "r50k_base" || r == "p50k_base"
  {
    var m := Lower(model);
    if Contains(m, "gpt-4") || Contains(m, "gpt-3.5") then "cl100k_base"
    else if Contains(m, "davinci") || Contains(m, "curie") || Contains(m, "babbage") then "r50k_base"
    else if Contains(m, "code") then "p50k_base"
    else "cl100k_base"
  }

  /**
   * The encoding is the first matching rule of the table, applied to the
   * lower-cased name, so the detection ignores case.
   */
  lemma DetectEncodingByRules(model: string)
    ensures DetectEncoding(model) == FirstMatch(EncodingRules, Lower(model), "cl100k_base")
    ensures DetectEncoding(Lower(model)) == DetectEncoding(model)
  {
    LowerIdempotent(model);
    var m := Lower(model);
    EncodingRulesChain(m);
    AnyInTwo("gpt-4", "gpt-3.5", m);
    AnyInThree("davinci", "curie", "babbage", m);
    AnyInOne("code", m);
  }

  /** The table, read as the chain of tests it encodes. */
  lemma EncodingRulesChain(m: string)
    ensures FirstMatch(EncodingRules, m, "cl100k_base")
         == if AnyIn(["gpt-4", "gpt-3.5"], m) then "cl100k_base"
            else if AnyIn(["davinci", "curie", "babbage"], m) then "r50k_base"
            else if AnyIn(["code"], m) then "p50k_base"
            else "cl100k_base"
  {
    var t2: seq<Rule<string>> := [Rule(["code"], "p50k_base")];
    var t1 := [Rule(["davinci", "curie", "babbage"], "r50k_base")] + t2;
    var t0 := [Rule(["gpt-4", "gpt-3.5"], "cl100k_base")] + t1;
    FirstMatchCons(t2[0], [], m, "cl100k_base");
    assert t2 == [t2[0]] + [];
    FirstMatchCons(t1[0], t2, m, "cl100k_base");
    FirstMatchCons(t0[0], t1, m, "cl100k_base");
    assert t0 == EncodingRules;
  }

  /** `_fallback_tokenize`: `int(len(words) / 0.75)`, that is `4·words / 3` rounded down. */
  function FallbackTokenize(text: string): (r: TokenizationResult)
  {
    TokenizationResult([], 4 * WordCount(text) / 3, text, "fallback_wordcount", false, |text|,
                       ["Using fallback word-count estimation"])
  }

  /**
   * `_fallback_truncate`: four characters per token. Text that fits is counted
   * by words; longer text is cut to `4·max_tokens` characters and reported as
   * exactly `max_tokens` tokens.
   */
  function FallbackTruncate(text: string, maxTokens: int): (r: TokenizationResult)
  {
    var maxChars := maxTokens * 4;
    if |text| <= maxChars then FallbackTokenize(text)
    else TokenizationResult([], maxTokens, SliceTo(text, maxChars), "fallback_charcount", true, |text|,
                            ["Using fallback character-based truncation"])
  }

  /** The token slicing of `truncate_to_limit`, with Python's slice semantics. */
  function TruncateTokens(tokens: seq<int>, maxTokens: int, strategy: string): seq<int>
  {
    if strategy == "end" then SliceTo(tokens, maxTokens)
    else if strategy == "start" then SliceFrom(tokens, -maxTokens)
    else if strategy == "middle" then
      var half := maxTokens / 2;   // Python's `//`: the divisor is positive, so this floors
      SliceTo(tokens, half) + SliceFrom(tokens, -half)
    else SliceTo(tokens, maxTokens)
  }

  /** "end", and every unknown strategy, keep the first `max_tokens` tokens. */
  lemma TruncateEnd(tokens: seq<int>, maxTokens: int, strategy: string)
    requires 0 <= maxTokens < |tokens|
    requires strategy != "start" && strategy != "middle"
    ensures TruncateTokens(tokens, maxTokens, strategy) == tokens[..maxTokens]
  {
  }

  /**
   * "start" keeps the last `max_tokens` tokens, except that `tokens[-0:]` is
   * the whole list, so a limit of 0 keeps everything.
   */
  lemma TruncateStart(tokens: seq<int>, maxTokens: int)
    requires 0 <= maxTokens < |tokens|
    ensures TruncateTokens(tokens, maxTokens, "start")
         == if maxTokens == 0 then tokens else tokens[|tokens| - maxTokens..]
  {
  }

  /**
   * "middle" keeps the first and the last `max_tokens // 2` tokens, which is
   * `2·half <= max_tokens` of them, except that `half == 0` keeps everything.
   */
  lemma TruncateMiddle(tokens: seq<int>, maxTokens: int)
    requires 0 <= maxTokens < |tokens|
    ensures var half := maxTokens / 2;
      TruncateTokens(tokens, maxTokens, "middle")
        == if half == 0 then tokens else tokens[..half] + tokens[|tokens| - half..]
    ensures maxTokens >= 2 ==> |TruncateTokens(tokens, maxTokens, "middle")| == 2 * (maxTokens / 2) <= maxTokens
  {
    var half := maxTokens / 2;
    if half == 0 {
      assert tokens[..0] + tokens == tokens;
    }
  }

  /** The encoding name a call uses: detected from a non-empty model name, else the one given. */
  function EncodingFor(encodingName: string, model: Option<string>): string
  {
    if model.Some? && model.value != "" then DetectEncoding(model.value) else encodingName
  }

  /**
   * The tokenizer's loaded encodings; a name that is not loaded falls back to
   * cl100k_base, and to word counting when that is not loaded either.
   */
  datatype Tokenizer = Tokenizer(encodings: map<string, Codec>)
  {
    function Encoder(name: string): Option<Codec>
    {
      if name in encodings then Some(encodings[name])
      else if "cl100k_base" in encodings then Some(encodings["cl100k_base"])
      else None
    }

    /**
     * `count_tokens`: the encoded tokens when an encoder is loaded and
     * encodes the text, the word estimate when none is loaded or it raises.
     */
    function CountTokens(text: string, encodingName: string, model: Option<string>): (r: TokenizationResult)
      ensures !r.truncated && r.text == text && r.originalLength == |text|
      ensures var enc := Encoder(EncodingFor(encodingName, model));
        if enc.Some? && enc.value.encode(text).Some? then
          r.tokens == enc.value.encode(text).value && r.tokenCount == |r.tokens|
          && r.encodingName == EncodingFor(encodingName, model) && r.warnings == []
        else r.tokenCount == 4 * WordCount(text) / 3 && r.encodingName == "fallback_wordcount"
    {
      var enc := EncodingFor(encodingName, model);
      match Encoder(enc)
      case None => FallbackTokenize(text)
      case Some(codec) =>
        match codec.encode(text)
        case None => FallbackTokenize(text)
        case Some(tokens) => TokenizationResult(tokens, |tokens|, text, enc, false, |text|, [])
    }

    /**
     * `truncate_to_limit`; `None` is the exception of its second, uncaught
     * `encode`.
     */
    function TruncateToLimit(text: string, maxTokens: int, encodingName: string,
                             model: Option<string>, strategy: string): (r: Option<TokenizationResult>)
    {
      var counted := CountTokens(text, encodingName, model);
      if counted.tokenCount <= maxTokens then Some(counted)
      else
        var enc := EncodingFor(encodingName, model);
        match Encoder(enc)
        case None => Some(FallbackTruncate(text, maxTokens))
        case Some(codec) =>
          match codec.encode(text)
          case None => None
          case Some(tokens) =>
            var kept := TruncateTokens(tokens, maxTokens, strategy);
            Some(TokenizationResult(kept, |kept|, codec.decode(kept), enc, true, |tokens|,
              ["Truncated from " + IntToString(|tokens|) + " to " + IntToString(|kept|)
               + " tokens using '" + strategy + "' strategy"]))
    }

    /**
     * Text within the limit comes back exactly as counted. Text over it is
     * cut by characters when no encoder is loaded. With an encoder, the call
     * raises exactly when the encoder raises on the text (the count fell back
     * on the word estimate, the second `encode` is not guarded); otherwise the
     * result is marked truncated, its tokens are the strategy's slice of the
     * encoding and its text their decoding, and for a positive limit (at
     * least 2 for "middle") they fit the limit.
     */
    lemma TruncateToLimitSpec(text: string, maxTokens: int, encodingName: string,
                              model: Option<string>, strategy: string)
      ensures var counted := CountTokens(text, encodingName, model);
        var enc := Encoder(EncodingFor(encodingName, model));
        var r := TruncateToLimit(text, maxTokens, encodingName, model, strategy);
        && (r.None? <==> counted.tokenCount > maxTokens && enc.Some? && enc.value.encode(text).None?)
        && (counted.tokenCount <= maxTokens ==> r == Some(counted))
        && (counted.tokenCount > maxTokens && enc.None? ==> r == Some(FallbackTruncate(text, maxTokens)))
        && (counted.tokenCount > maxTokens && enc.Some? && enc.value.encode(text).Some? ==>
              var tokens := enc.value.encode(text).value;
              && r.Some? && r.value.truncated
              && r.value.tokens == TruncateTokens(tokens, maxTokens, strategy)
              && r.value.text == enc.value.decode(r.value.tokens)
              && r.value.originalLength == |tokens|
              && (maxTokens > 0 && (strategy != "middle" || maxTokens >= 2) ==> r.value.tokenCount <= maxTokens))
    {
      var counted := CountTokens(text, encodingName, model);
      var enc := Encoder(EncodingFor(encodingName, model));
      if counted.tokenCount > maxTokens && enc.Some? && enc.value.encode(text).Some? {
        var tokens := enc.value.encode(text).value;
        if strategy == "middle" && maxTokens >= 2 {
          TruncateMiddle(tokens, maxTokens);
        }
      }
    }

    /** A limit of 0 with the "start" strategy keeps every token while reporting a truncation. */
    lemma TruncateStartZeroKeepsAll(text: string, encodingName: string, model: Option<string>)
      requires Encoder(EncodingFor(encodingName, model)).Some?
      requires Encoder(EncodingFor(encodingName, model)).value.encode(text).Some?
      requires |Encoder(EncodingFor(encodingName, model)).value.encode(text).value| > 0
      ensures var r := TruncateToLimit(text, 0, encodingName, model, "start");
        r.Some? && r.value.truncated
        && r.value.tokens == Encoder(EncodingFor(encodingName, model)).value.encode(text).value
    {
    }

    /**
     * Without an encoder, text whose word estimate is over the limit but whose
     * length is within four characters per token comes back over the limit and
     * not marked truncated: "a a a a" is 5 tokens by words and fits 2 tokens by
     * characters.
     */
    lemma FallbackMayExceedLimit()
      requires encodings == map[]
      ensures var r := TruncateToLimit("a a a a", 2, "cl100k_base", None, "end");
        r.Some? && !r.value.truncated && r.value.tokenCount == 5 > 2
    {
      assert WordCount("a a a a") == 4;
    }

    /**
     * `validate_for_model`: valid exactly when the count leaves `reserve`
     * tokens of the context free; the message is empty exactly when valid. The
     * model's id, when non-empty, decides the encoding, not its `encoding` field.
     */
    function ValidateForModel(text: string, info: ModelInfo, reserve: int): (r: (bool, string, TokenizationResult))
      ensures r.2 == CountTokens(text, info.encoding, Some(info.id))
      ensures r.0 <==> r.2.tokenCount <= info.contextLength - reserve
      ensures r.0 <==> r.1 == ""
    {
      var result := CountTokens(text, info.encoding, Some(info.id));
      var maxAllowed := info.contextLength - reserve;
      if result.tokenCount > maxAllowed then
        (false, "Input too long: " + IntToString(result.tokenCount) + " tokens exceeds limit of "
                + IntToString(maxAllowed) + " (context: " + IntToString(info.contextLength)
                + ", reserved: " + IntToString(reserve) + ")", result)
      else (true, "", result)
    }
  }

  /**
   * An encoder that raises on every text: `count_tokens` falls back to the
   * word estimate, 4·4//3 = 5 tokens for "a b c d", but `truncate_to_limit`
   * to 2 tokens raises from its own `encode`.
   */
  lemma RaisingEncoderTruncateRaises()
    ensures var t := Tokenizer(map["cl100k_base" := Codec(s => None, ts => "")]);
      && t.CountTokens("a b c d", "cl100k_base", None).tokenCount == 5
      && t.TruncateToLimit("a b c d", 2, "cl100k_base", None, "end").None?
  {
    assert WordCount("a b c d") == 4;
  }

  /** `validate_for_model` with its default reserve of 512 tokens. */
  const DefaultReserve: int := 512

  /** A chat message; `None` is a missing key. */
  datatype Message = Message(content: Option<string>, role: Option<string>)

  datatype FormattedMessage = FormattedMessage(role: string, content: string, tokenCount: int)

  function MessageTokens(t: Tokenizer, m: Message, model: Option<string>): int
  {
    t.CountTokens(m.content.GetOr(""), "cl100k_base", model).tokenCount
  }

  function SumMessageTokens(t: Tokenizer, ms: seq<Message>, model: Option<string>): int
  {
    if ms == [] then 0
    else SumMessageTokens(t, ms[..|ms| - 1], model) + MessageTokens(t, ms[|ms| - 1], model)
  }

  /**
   * `format_messages_with_tokens`: each message keeps its role (default
   * "user") and content (default "") and gets its own count; the total adds 4
   * per message and 3 for the reply.
   */
  method FormatMessagesWithTokens(t: Tokenizer, messages: seq<Message>, model: Option<string>)
    returns (formatted: seq<FormattedMessage>, total: int, warnings: seq<string>)
    ensures total == SumMessageTokens(t, messages, model) + 4 * |messages| + 3
    ensures |formatted| == |messages|
    ensures forall i :: 0 <= i < |messages| ==>
      formatted[i] == FormattedMessage(messages[i].role.GetOr("user"), messages[i].content.GetOr(""),
                                       MessageTokens(t, messages[i], model))
    ensures warnings == []
  {
    total := 0;
    formatted := [];
    warnings := [];
    for i := 0 to |messages|
      invariant total == SumMessageTokens(t, messages[..i], model) + 4 * i
      invariant |formatted| == i
      invariant forall j :: 0 <= j < i ==>
        formatted[j] == FormattedMessage(messages[j].role.GetOr("user"), messages[j].content.GetOr(""),
                                         MessageTokens(t, messages[j], model))
    {
      var content := messages[i].content.GetOr("");
      var role := messages[i].role.GetOr("user");
      var result := t.CountTokens(content, "cl100k_base", model);
      assert messages[..i + 1][..i] == messages[..i] && messages[..i + 1][i] == messages[i];
      assert result.tokenCount == MessageTokens(t, messages[i], model);
      assert SumMessageTokens(t, messages[..i + 1], model)
          == SumMessageTokens(t, messages[..i], model) + MessageTokens(t, messages[i], model);
      total := total + result.tokenCount;
      total := total + 4;
      formatted := formatted + [FormattedMessage(role, content, result.tokenCount)];
    }
    assert messages[..|messages|] == messages;
    total := total + 3;
  }

  // ---------------------------------------------------------------------------
  // Model catalog.

  /** A price in a provider's listing: a number, or a value `float()` rejects. */
  datatype PriceText = Price(amount: real) | Unparseable

  datatype RawPricing = RawPricing(prompt: Option<PriceText>, completion: Option<PriceText>)

  /** A provider's listing entry; `None` is a missing key. */
  datatype RawCatalogModel =
    | NotADict
    | RawModel(id: Option<string>, name: Option<string>, contextLength: Option<int>,
               maxTokens: Option<int>, contextWindow: Option<int>, pricing: Option<RawPricing>,
               supportsStreaming: Option<bool>, supportsFunctions: Option<bool>)

  /** `float(pricing.get(key, 0))`, failing on a value `float()` rejects. */
  function ParsePrice(p: Option<PriceText>): Option<real>
  {
    match p
    case None => Some(0.0)
    case Some(Price(a)) => Some(a)
    case Some(Unparseable) => None
  }

  /** The context length: the first listed field, else a size in the id, else 4096. */
  function ContextLengthOf(raw: RawCatalogModel, lowerId: string): int
    requires raw.RawModel?
  {
    if raw.contextLength.Some? then raw.contextLength.value
    else if raw.maxTokens.Some? then raw.maxTokens.value
    else if raw.contextWindow.Some? then raw.contextWindow.value
    else if Contains(lowerId, "32k") then 32768
    else if Contains(lowerId, "16k") then 16384
    else if Contains(lowerId, "8k") then 8192
    else 4096
  }

  /** `_parse_model_info`: `None` for a non-dictionary, a missing id, or an unparseable price. */
  function ParseModelInfo(raw: RawCatalogModel, provider: string, now: int): (r: Option<ModelInfo>)
    ensures r.Some? ==> raw.RawModel? && r.value.provider == provider && r.value.lastSynced == Some(now)
    ensures r.Some? ==> raw.RawModel? && ((raw.id.Some? && r.value.id == raw.id.value)
                                         || (raw.id.None? && raw.name.Some? && r.value.id == raw.name.value))
    ensures raw.RawModel? && (raw.id.Some? || raw.name.Some?)
            && ParsePrice(if raw.pricing.Some? then raw.pricing.value.prompt else None).Some?
            && ParsePrice(if raw.pricing.Some? then raw.pricing.value.completion else None).Some?
            ==> r.Some?
  {
    if raw.NotADict? then None
    else
      var idOpt := if raw.id.Some? then raw.id else raw.name;
      if idOpt.None? then None   // `None.lower()` raises, and the error is caught
      else
        var id := idOpt.value;
        var lowerId := Lower(id);
        var context := ContextLengthOf(raw, lowerId);
        var prompt := ParsePrice(if raw.pricing.Some? then raw.pricing.value.prompt else None);
        var completion := ParsePrice(if raw.pricing.Some? then raw.pricing.value.completion else None);
        if prompt.None? || completion.None? then None
        else
          var encoding :=
            if Contains(lowerId, "gpt-3") && !Contains(lowerId, "turbo") then "r50k_base"
            else if Contains(lowerId, "code") then "p50k_base"
            else "cl100k_base";
          Some(ModelInfo(id, raw.name.GetOr(id), provider, context,
                         raw.supportsStreaming.GetOr(false), raw.supportsFunctions.GetOr(false),
                         prompt.value, completion.value, encoding, Some(now)))
  }

  /** The parsed entries of a listing, skipping those that fail to parse, in order. */
  function ParseAll(raws: seq<RawCatalogModel>, provider: string, now: int): (r: seq<ModelInfo>)
    ensures |r| <= |raws|
    ensures forall m :: m in r ==> m.provider == provider
  {
    if raws == [] then []
    else
      var rest := ParseAll(raws[..|raws| - 1], provider, now);
      match ParseModelInfo(raws[|raws| - 1], provider, now)
      case Some(m) => rest + [m]
      case None => rest
  }

  /** What the models request of a sync returns. */
  datatype FetchOutcome =
    | Response(status: int, body: string, entries: seq<RawCatalogModel>)
    | RequestFailed(message: string)

  /** All models of all providers, in the dictionary's order. */
  function AllModels(d: Dict<string, seq<ModelInfo>>): seq<ModelInfo>
  {
    if d == [] then [] else AllModels(d[..|d| - 1]) + d[|d| - 1].1
  }

  function FindById(ms: seq<ModelInfo>, id: string): (r: Option<ModelInfo>)
    ensures r.Some? ==> r.value in ms && r.value.id == id
    ensures r.None? ==> forall m :: m in ms ==> m.id != id
  {
    if ms == [] then None else if ms[0].id == id then Some(ms[0]) else FindById(ms[1..], id)
  }

  /** Models `>= 4096` tokens long are the default minimum of `find_alternative_models`. */
  const DefaultMinContext: int := 4096

  /** `any(word in model_id for word in original_id.split('-'))`, both lower-cased. */
  predicate SharesWord(original: ModelInfo, m: ModelInfo)
  {
    AnyIn(SplitOn(Lower(original.id), '-'), Lower(m.id))
  }

  /** The similarity score of a candidate; 0 when the requested model is unknown. */
  function SimilarityScore(m: ModelInfo, original: Option<ModelInfo>): int
  {
    match original
    case None => 0
    case Some(o) =>
      (if m.provider == o.provider then 10 else 0)
      + (if SharesWord(o, m) then 5 else 0)
      + (if -2000 < m.contextLength - o.contextLength < 2000 then 3 else 0)
  }

  /** A scored candidate of the search. */
  datatype Scored = Scored(score: int, model: ModelInfo)

  function ScoreKey(c: Scored): SortKey
  {
    SortKey(c.score as real, 0.0)
  }

  /** The candidates in catalog order: every other model at least `minContext` long, scored. */
  function Candidates(ms: seq<ModelInfo>, id: string, minContext: int, original: Option<ModelInfo>): seq<Scored>
  {
    if ms == [] then []
    else
      var m := ms[|ms| - 1];
      Candidates(ms[..|ms| - 1], id, minContext, original)
        + (if m.id == id || m.contextLength < minContext then [] else [Scored(SimilarityScore(m, original), m)])
  }

  /** Scanning one more model adds it as a candidate exactly when it is another model long enough. */
  lemma CandidatesSnoc(ms: seq<ModelInfo>, m: ModelInfo, id: string, minContext: int, original: Option<ModelInfo>)
    ensures Candidates(ms + [m], id, minContext, original)
         == Candidates(ms, id, minContext, original)
            + (if m.id == id || m.contextLength < minContext then [] else [Scored(SimilarityScore(m, original), m)])
  {
    assert (ms + [m])[..|ms|] == ms;
  }

  /** The catalog's models, one provider further. */
  lemma AllModelsSnoc(d: Dict<string, seq<ModelInfo>>, p: int)
    requires 0 <= p < |d|
    ensures AllModels(d[..p + 1]) == AllModels(d[..p]) + d[p].1
  {
    assert d[..p + 1][..p] == d[..p];
  }

  function ModelsOf(cs: seq<Scored>): (r: seq<ModelInfo>)
    ensures |r| == |cs|
    ensures forall i :: 0 <= i < |cs| ==> r[i] == cs[i].model
  {
    if cs == [] then [] else [cs[0].model] + ModelsOf(cs[1..])
  }

  lemma {:induction false} CandidatesSpec(ms: seq<ModelInfo>, id: string, minContext: int,
                                          original: Option<ModelInfo>, c: Scored)
    requires c in Candidates(ms, id, minContext, original)
    ensures c.model in ms && c.model.id != id && c.model.contextLength >= minContext
    ensures c.score == SimilarityScore(c.model, original)
  {
    if c !in Candidates(ms[..|ms| - 1], id, minContext, original) {
      assert c.model == ms[|ms| - 1];
    } else {
      CandidatesSpec(ms[..|ms| - 1], id, minContext, original, c);
    }
  }

  class ModelCatalogSync {
    var models: Dict<string, seq<ModelInfo>>
    var lastSync: map<string, int>
    const syncTtl: int

    ghost predicate Valid()
      reads this
    {
      WellFormed(models)
    }

    /** The catalog as `_load_catalog` leaves it: the cached models and sync times. */
    constructor (cachedModels: Dict<string, seq<ModelInfo>>, cachedSync: map<string, int>)
      requires WellFormed(cachedModels)
      ensures Valid() && models == cachedModels && lastSync == cachedSync && syncTtl == 3600
    {
      models := cachedModels;
      lastSync := cachedSync;
      syncTtl := 3600;
    }

    /** Whether a sync at `now` serves the cached list. */
    predicate CacheFresh(name: string, force: bool, now: int)
      reads this
    {
      !force && name in lastSync && now - lastSync[name] < syncTtl
    }

    /**
     * `sync_provider_models`: a fresh cache entry is served without a request;
     * a missing key, an HTTP error or a failed request return an error and
     * leave the catalog alone; a listing replaces the provider's models and
     * stamps its sync time.
     */
    method SyncProviderModels(name: string, config: JsonValues.Entry, force: bool, now: int,
                              fetch: FetchOutcome)
      returns (result: seq<ModelInfo>, error: Option<string>)
      requires Valid()
      modifies this
      ensures Valid()
      ensures old(CacheFresh(name, force, now)) ==>
        result == Get(old(models), name).GetOr([]) && error == None
        && models == old(models) && lastSync == old(lastSync)
      ensures !old(CacheFresh(name, force, now)) && !JsonValues.Either(config, "api_key", "api_key_encrypted").Truthy() ==>
        result == [] && error == Some("No API key for " + name)
        && models == old(models) && lastSync == old(lastSync)
      ensures !old(CacheFresh(name, force, now)) && JsonValues.Either(config, "api_key", "api_key_encrypted").Truthy() ==>
        match fetch
        case Response(status, body, entries) =>
          if status == 200 then
            result == ParseAll(entries, name, now) && error == None
            && models == Put(old(models), name, result) && lastSync == old(lastSync)[name := now]
          else
            result == [] && error == Some("HTTP " + IntToString(status) + ": " + SliceTo(body, 200))
            && models == old(models) && lastSync == old(lastSync)
        case RequestFailed(message) =>
          result == [] && error == Some("Model sync failed: " + message)
          && models == old(models) && lastSync == old(lastSync)
    {
      if CacheFresh(name, force, now) {
        return Get(models, name).GetOr([]), None;
      }
      if !JsonValues.Either(config, "api_key", "api_key_encrypted").Truthy() {
        return [], Some("No API key for " + name);
      }
      var entries: seq<RawCatalogModel>;
      match fetch {
        case RequestFailed(message) =>
          return [], Some("Model sync failed: " + message);
        case Response(status, body, es) =>
          if status != 200 {
            return [], Some("HTTP " + IntToString(status) + ": " + SliceTo(body, 200));
          }
          entries := es;
      }
      var parsed := ParseEntries(entries, name, now);
      PutWellFormed(models, name, parsed);
      models := Put(models, name, parsed);
      lastSync := lastSync[name := now];
      return parsed, None;
    }

    /** The parsing loop of `sync_provider_models`: every entry that parses, in order. */
    static method ParseEntries(entries: seq<RawCatalogModel>, name: string, now: int)
      returns (parsed: seq<ModelInfo>)
      ensures parsed == ParseAll(entries, name, now)
    {
      parsed := [];
      for i := 0 to |entries|
        invariant parsed == ParseAll(entries[..i], name, now)
      {
        assert entries[..i + 1][..i] == entries[..i];
        var info := ParseModelInfo(entries[i], name, now);
        if info.Some? {
          parsed := parsed + [info.value];
        }
      }
      assert entries[..|entries|] == entries;
    }

    /**
     * `get_model_info`: with a provider the catalog knows, only its models are
     * searched; otherwise every provider is, in order.
     */
    function GetModelInfo(id: string, provider: Option<string>): (r: Option<ModelInfo>)
      reads this
      ensures r.Some? ==> r.value.id == id && r.value in AllModels(models)
      ensures provider.Some? && provider.value != "" && HasKey(models, provider.value) ==>
        && (r.Some? ==> r.value in Get(models, provider.value).value)
        && (r.None? <==> forall m :: m in Get(models, provider.value).value ==> m.id != id)
      ensures !(provider.Some? && provider.value != "" && HasKey(models, provider.value)) ==>
        (r.None? <==> forall m :: m in AllModels(models) ==> m.id != id)
    {
      if provider.Some? && provider.value != "" && HasKey(models, provider.value) then
        var r := FindById(Get(models, provider.value).value, id);
        if r.Some? then GetInAllModels(models, provider.value, r.value); r
        else r
      else FindById(AllModels(models), id)
    }

    /** The answer of `find_alternative_models`, as a function of the catalog. */
    function Alternatives(id: string, provider: Option<string>, minContext: int): seq<ModelInfo>
      reads this
    {
      var cands := Candidates(AllModels(models), id, minContext, GetModelInfo(id, provider));
      ModelsOf(SliceTo(SortDesc(cands, ScoreKey), 5))
    }

    /** `find_alternative_models`. */
    method FindAlternativeModels(id: string, provider: Option<string>, minContext: int)
      returns (alternatives: seq<ModelInfo>)
      ensures alternatives == Alternatives(id, provider, minContext)
    {
      var original := GetModelInfo(id, provider);
      var scored: seq<Scored> := [];
      for p := 0 to |models|
        invariant scored == Candidates(AllModels(models[..p]), id, minContext, original)
      {
        var providerModels := models[p].1;
        ghost var prefix := AllModels(models[..p]);
        assert prefix + providerModels[..0] == prefix;
        for k := 0 to |providerModels|
          invariant scored == Candidates(prefix + providerModels[..k], id, minContext, original)
        {
          var m := providerModels[k];
          assert prefix + providerModels[..k + 1] == (prefix + providerModels[..k]) + [m];
          CandidatesSnoc(prefix + providerModels[..k], m, id, minContext, original);
          if m.id != id && m.contextLength >= minContext {
            scored := scored + [Scored(SimilarityScore(m, original), m)];
          }
        }
        assert providerModels[..|providerModels|] == providerModels;
        AllModelsSnoc(models, p);
      }
      assert models[..|models|] == models;
      alternatives := ModelsOf(SliceTo(SortDesc(scored, ScoreKey), 5));
    }

    /**
     * The alternatives are at most five other models of the catalog, each at
     * least `minContext` long. Their order, and the bound on what is left
     * out, are `AlternativesTop`'s.
     */
    lemma AlternativesSpec(id: string, provider: Option<string>, minContext: int)
      ensures var alts := Alternatives(id, provider, minContext);
        && |alts| <= 5
        && (forall m :: m in alts ==> m in AllModels(models) && m.id != id && m.contextLength >= minContext)
    {
      var cands := Candidates(AllModels(models), id, minContext, GetModelInfo(id, provider));
      var sorted := SortDesc(cands, ScoreKey);
      var top := SliceTo(sorted, 5);
      SortDescPermutes(cands, ScoreKey);
      forall m | m in ModelsOf(top) ensures m in AllModels(models) && m.id != id && m.contextLength >= minContext {
        var i :| 0 <= i < |top| && ModelsOf(top)[i] == m;
        assert top[i] in multiset(sorted);
        CandidatesSpec(AllModels(models), id, minContext, GetModelInfo(id, provider), top[i]);
      }
    }

    /**
     * The returned candidates are ordered by score, a candidate left out scores
     * no higher, and candidates of equal score keep their catalog order.
     */
    lemma AlternativesTop(id: string, provider: Option<string>, minContext: int)
      ensures var original := GetModelInfo(id, provider);
        var cands := Candidates(AllModels(models), id, minContext, original);
        var top := SliceTo(SortDesc(cands, ScoreKey), 5);
        && Alternatives(id, provider, minContext) == ModelsOf(top)
        && |top| == (if |cands| < 5 then |cands| else 5)
        && (forall i, j :: 0 <= i < j < |top| ==> top[i].score >= top[j].score)
        && (forall c :: c in cands && c !in top ==> forall t :: t in top ==> c.score <= t.score)
        && (forall k :: WithKey(SortDesc(cands, ScoreKey), ScoreKey, k) == WithKey(cands, ScoreKey, k))
    {
      var original := GetModelInfo(id, provider);
      TopFive(Candidates(AllModels(models), id, minContext, original));
    }
  }

  /**
   * The first five of the candidates sorted by score: in non-increasing
   * score order, none left out scoring higher, ties kept in catalog order.
   */
  lemma TopFive(cands: seq<Scored>)
    ensures var top := SliceTo(SortDesc(cands, ScoreKey), 5);
      && |top| == (if |cands| < 5 then |cands| else 5)
      && (forall i, j :: 0 <= i < j < |top| ==> top[i].score >= top[j].score)
      && (forall c :: c in cands && c !in top ==> forall t :: t in top ==> c.score <= t.score)
      && (forall k :: WithKey(SortDesc(cands, ScoreKey), ScoreKey, k) == WithKey(cands, ScoreKey, k))
  {
    var sorted := SortDesc(cands, ScoreKey);
    var top := SliceTo(sorted, 5);
    assert top == sorted[..|top|];
    SortDescSorted(cands, ScoreKey);
    SortDescPermutes(cands, ScoreKey);
    forall k ensures WithKey(SortDesc(cands, ScoreKey), ScoreKey, k) == WithKey(cands, ScoreKey, k) {
      SortDescStable(cands, ScoreKey, k);
    }
    forall c | c in cands && c !in top ensures forall t :: t in top ==> c.score <= t.score {
      assert c in multiset(sorted);
      var k :| 0 <= k < |sorted| && sorted[k] == c;
      assert k >= |top|;
      forall t | t in top ensures c.score <= t.score {
        var j :| 0 <= j < |top| && top[j] == t;
        assert sorted[j] == t;
      }
    }
  }

  lemma {:induction false} GetInAllModels(d: Dict<string, seq<ModelInfo>>, p: string, m: ModelInfo)
    requires HasKey(d, p) && m in Get(d, p).value
    ensures m in AllModels(d)
  {
    GetEntry(d, p);
    var j :| 0 <= j < |d| && d[j] == (p, Get(d, p).value);
    EntryInAllModels(d, j, m);
  }

  lemma {:induction false} EntryInAllModels(d: Dict<string, seq<ModelInfo>>, j: int, m: ModelInfo)
    requires 0 <= j < |d| && m in d[j].1
    ensures m in AllModels(d)
  {
    if j < |d| - 1 {
      EntryInAllModels(d[..|d| - 1], j, m);
    }
  }

  /** With an unknown requested model every candidate scores 0, so the catalog order decides. */
  lemma UnknownOriginalScoresZero(m: ModelInfo)
    ensures SimilarityScore(m, None) == 0
  {
  }

  /**
   * An id with an empty '-'-separated piece (a trailing '-', say) shares a
   * word with every model, because the empty string occurs in every string.
   */
  lemma EmptyPieceMatchesEveryModel(o: ModelInfo, m: ModelInfo)
    requires "" in SplitOn(Lower(o.id), '-')
    ensures SharesWord(o, m)
  {
    ContainsEmpty(Lower(m.id));
  }
}
