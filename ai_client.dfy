/** The policy side of the DeepSeek client (api/services/deepseek_client.py):
    the two prompt messages, the price of a call, and the retry decisions
    of call_deepseek. The network is not modelled: the outcome of each
    attempt is a parameter, as are the JSON decoder and whether a client
    could be created. */
module AiClient {
  import opened Text
  import opened Results
  import opened JsonData

  // ---------------------------------------------------------------------
  // build_analysis_messages

  datatype Message = Message(role: string, content: string)

  const SystemPrompt :=
    "你是一位资深测试架构师，擅长分析代码改动并评估测试用例覆盖情况。\n"
    + "请根据提供的代码改动diff、功能映射和现有测试用例，分析测试覆盖缺口并给出补充建议。\n"
    + "请以JSON格式输出分析结果。"

  const DiffHeading := "## 代码改动Diff\n"
  const MappingHeading := "## 功能映射关系\n"
  const TestsHeading := "## 现有测试用例\n"

  const OutputInstructions :=
    "请分析以上信息，输出JSON格式结果，包含以下字段：\n"
    + "- uncovered_methods: 未覆盖的方法列表\n"
    + "- coverage_gaps: 覆盖缺口描述\n"
    + "- suggested_test_cases: 建议补充的测试用例（每个包含 test_id, test_function, test_steps, expected_result）\n"
    + "- risk_assessment: 风险评估（high/medium/low）\n"
    + "- improvement_suggestions: 改进建议列表"

  /** Three titled sections, each followed by a blank line, then a tail. */
  function Sections3(h1: string, x: string, h2: string, y: string, h3: string, z: string, tail: string): string {
    h1 + x + "\n\n" + h2 + y + "\n\n" + h3 + z + "\n\n" + tail
  }

  /** The user prompt: the diff, the mapping and the test cases under their
      headings, then the output instructions. */
  function UserPrompt(diffSummary: string, mappingInfo: string, testCasesText: string): string {
    Sections3(DiffHeading, diffSummary, MappingHeading, mappingInfo, TestsHeading, testCasesText, OutputInstructions)
  }

  function BuildAnalysisMessages(diffSummary: string, mappingInfo: string, testCasesText: string): (r: seq<Message>)
    ensures |r| == 2 && r[0].role == "system" && r[1].role == "user"
    ensures r[0].content == SystemPrompt
  {
    [Message("system", SystemPrompt), Message("user", UserPrompt(diffSummary, mappingInfo, testCasesText))]
  }

  /** The user message holds the diff, the mapping and the test cases, each
      under its heading, in that order and without overlapping, and ends
      with the output instructions. */
  lemma UserPromptSections(diffSummary: string, mappingInfo: string, testCasesText: string)
    ensures var c := BuildAnalysisMessages(diffSummary, mappingInfo, testCasesText)[1].content;
      exists i, j, k ::
        && OccursAt(c, DiffHeading + diffSummary, i)
        && OccursAt(c, MappingHeading + mappingInfo, j)
        && OccursAt(c, TestsHeading + testCasesText, k)
        && i + |DiffHeading + diffSummary| < j && j + |MappingHeading + mappingInfo| < k
        && EndsWith(c, OutputInstructions)
  {
    SectionsInOrder(DiffHeading, diffSummary, MappingHeading, mappingInfo, TestsHeading, testCasesText, OutputInstructions);
  }

  lemma SectionsInOrder(h1: string, x: string, h2: string, y: string, h3: string, z: string, tail: string)
    ensures var c := Sections3(h1, x, h2, y, h3, z, tail);
      && OccursAt(c, h1 + x, 0)
      && OccursAt(c, h2 + y, |h1 + x| + 2)
      && OccursAt(c, h3 + z, |h1 + x| + 2 + |h2 + y| + 2)
      && EndsWith(c, tail)
  {
    var c := Sections3(h1, x, h2, y, h3, z, tail);
    var d, m, t := h1 + x, h2 + y, h3 + z;
    var p2 := d + "\n\n";
    var p3 := p2 + m + "\n\n";
    var p4 := p3 + t + "\n\n";
    assert c == p4 + tail;
    assert p4 == p3 + t + "\n\n";
    assert p3 == p2 + m + "\n\n";
    OccursBetween([], d, "\n\n" + m + "\n\n" + t + "\n\n" + tail);
    OccursBetween(p2, m, "\n\n" + t + "\n\n" + tail);
    OccursBetween(p3, t, "\n\n" + tail);
    OccursBetween(p4, tail, []);
  }

  lemma OccursBetween(prefix: string, x: string, suffix: string)
    ensures OccursAt(prefix + x + suffix, x, |prefix|)
  {
    assert (prefix + x + suffix)[|prefix|..|prefix| + |x|] == x;
  }

  // ---------------------------------------------------------------------
  // calculate_cost

  /** A usage record: token counts by key; a missing key counts as 0. */
  type Usage = map<string, nat>

  const CacheHitKey := "prompt_cache_hit_tokens"
  const CacheMissKey := "prompt_cache_miss_tokens"
  const CompletionKey := "completion_tokens"
  const PromptKey := "prompt_tokens"
  const TotalKey := "total_tokens"

  /** Yuan per million tokens. */
  const CacheHitPrice: real := 0.2
  const CacheMissPrice: real := 2.0
  const OutputPrice: real := 3.0
  const PerMillion: real := 1000000.0

  /** `usage.get(key, 0)` */
  function Tokens(usage: Usage, key: string): nat {
    if key in usage then usage[key] else 0
  }

  /** Costs in yuan, before rounding to six decimals. */
  datatype Cost = Cost(inputCost: real, outputCost: real, totalCost: real, totalTokens: nat)

  function CalculateCost(usage: Usage): (c: Cost)
    ensures c.totalCost == c.inputCost + c.outputCost
    ensures c.inputCost >= 0.0 && c.outputCost >= 0.0
    ensures c.totalTokens == Tokens(usage, TotalKey)
  {
    var hit := (Tokens(usage, CacheHitKey) as real) / PerMillion * CacheHitPrice;
    var miss := (Tokens(usage, CacheMissKey) as real) / PerMillion * CacheMissPrice;
    var output := (Tokens(usage, CompletionKey) as real) / PerMillion * OutputPrice;
    Cost(hit + miss, output, hit + miss + output, Tokens(usage, TotalKey))
  }

  /** A usage record with every key present. */
  function Usage5(prompt: nat, completion: nat, total: nat, hit: nat, miss: nat): Usage {
    map[PromptKey := prompt, CompletionKey := completion, TotalKey := total, CacheHitKey := hit, CacheMissKey := miss]
  }

  /** The prices: 0.2 per million cache-hit input tokens, 2.0 per million
      cache-miss input tokens and 3.0 per million output tokens; the prompt
      and total counts cost nothing. */
  lemma CostFormula(prompt: nat, completion: nat, total: nat, hit: nat, miss: nat)
    ensures var c := CalculateCost(Usage5(prompt, completion, total, hit, miss));
      && c.inputCost * 1000000.0 == (hit as real) * 0.2 + (miss as real) * 2.0
      && c.outputCost * 1000000.0 == (completion as real) * 3.0
      && c.totalTokens == total
  {
    var u := Usage5(prompt, completion, total, hit, miss);
    assert Tokens(u, CacheHitKey) == hit && Tokens(u, CacheMissKey) == miss;
    assert Tokens(u, CompletionKey) == completion && Tokens(u, TotalKey) == total;
  }

  /** An empty usage record costs nothing. */
  lemma EmptyUsageIsFree()
    ensures CalculateCost(map[]) == Cost(0.0, 0.0, 0.0, 0)
  {
  }

  /** Cost is additive: the price of two calls' usage added key by key is
      the sum of their prices. */
  lemma CostAdditive(a: Usage, b: Usage, sum: Usage)
    requires forall k :: k in {CacheHitKey, CacheMissKey, CompletionKey, TotalKey} ==>
      Tokens(sum, k) == Tokens(a, k) + Tokens(b, k)
    ensures CalculateCost(sum).inputCost == CalculateCost(a).inputCost + CalculateCost(b).inputCost
    ensures CalculateCost(sum).outputCost == CalculateCost(a).outputCost + CalculateCost(b).outputCost
    ensures CalculateCost(sum).totalCost == CalculateCost(a).totalCost + CalculateCost(b).totalCost
  {
    assert Tokens(sum, CacheHitKey) == Tokens(a, CacheHitKey) + Tokens(b, CacheHitKey);
    assert Tokens(sum, CacheMissKey) == Tokens(a, CacheMissKey) + Tokens(b, CacheMissKey);
    assert Tokens(sum, CompletionKey) == Tokens(a, CompletionKey) + Tokens(b, CompletionKey);
  }

  // ---------------------------------------------------------------------
  // call_deepseek

  const MaxRetries: nat := 1

  const ClientError := "DeepSeek客户端初始化失败，请检查API Key配置"
  const EmptyResultError := "AI返回空结果，请稍后重试"
  const BadFormatError := "AI返回格式异常，请稍后重试"
  const TimeoutError := "AI分析超时，请减少分析范围后重试"
  const RateLimitError := "请求频率超限，请稍后重试"
  const ApiErrorPrefix := "AI服务异常: "
  const OtherErrorPrefix := "调用异常: "
  const FallbackError := "AI调用失败，请稍后重试"

  /** The usage fields of a response; the cache counts may be absent. */
  datatype ResponseUsage = ResponseUsage(
    promptTokens: nat, completionTokens: nat, totalTokens: nat, cacheHit: Option<nat>, cacheMiss: Option<nat>)

  /** What one request gives: a reply (its content may be None or empty),
      a timeout, a rate limit, an API error or any other exception, the
      last two with their messages. */
  datatype Attempt =
    | Reply(content: Option<string>, usage: ResponseUsage)
    | TimedOut
    | RateLimited
    | ApiFailure(apiMessage: string)
    | OtherFailure(otherMessage: string)

  datatype CallResult = Success(result: Json, usage: Usage) | Failure(error: string)

  function OrZero(n: Option<nat>): nat {
    match n
    case Some(v) => v
    case None => 0
  }

  /** The usage dictionary of a successful call. */
  function UsageOf(u: ResponseUsage): Usage {
    Usage5(u.promptTokens, u.completionTokens, u.totalTokens, OrZero(u.cacheHit), OrZero(u.cacheMiss))
  }

  /** `if not content` */
  predicate EmptyContent(content: Option<string>) {
    content.None? || content.value == ""
  }

  /** The outcome of a reply whose content cannot be used: empty content or
      content that is not JSON. */
  predicate Retryable(a: Attempt, loads: string -> Result<Json>) {
    || a.TimedOut?
    || (a.Reply? && EmptyContent(a.content))
    || (a.Reply? && !EmptyContent(a.content) && loads(a.content.value).Err?)
  }

  /** The error a retryable failure reports when no attempt is left. */
  function LastError(a: Attempt, loads: string -> Result<Json>): string {
    if a.TimedOut? then TimeoutError
    else if a.Reply? && EmptyContent(a.content) then EmptyResultError
    else BadFormatError
  }

  /** The result of attempts `attempt`.. and the number of requests made
      in all. */
  function CallFrom(attempt: nat, respond: nat -> Attempt, loads: string -> Result<Json>): (CallResult, nat)
    requires attempt <= MaxRetries
    decreases MaxRetries - attempt
  {
    var a := respond(attempt);
    if Retryable(a, loads) then
      if attempt < MaxRetries then CallFrom(attempt + 1, respond, loads)
      else (Failure(LastError(a, loads)), attempt + 1)
    else match a
      case Reply(content, usage) => (Success(loads(content.value).value, UsageOf(usage)), attempt + 1)
      case RateLimited => (Failure(RateLimitError), attempt + 1)
      case ApiFailure(message) => (Failure(ApiErrorPrefix + message), attempt + 1)
      case OtherFailure(message) => (Failure(OtherErrorPrefix + message), attempt + 1)
  }

  /** What call_deepseek returns, and how many requests it makes, when
      attempt `i` has outcome `respond(i)`. */
  function CallOutcome(hasClient: bool, respond: nat -> Attempt, loads: string -> Result<Json>): (CallResult, nat) {
    if !hasClient then (Failure(ClientError), 0) else CallFrom(0, respond, loads)
  }

  method CallDeepseek(hasClient: bool, respond: nat -> Attempt, loads: string -> Result<Json>)
    returns (r: CallResult, requests: nat)
    ensures (r, requests) == CallOutcome(hasClient, respond, loads)
  {
    if !hasClient {
      return Failure(ClientError), 0;
    }
    requests := 0;
    for attempt := 0 to MaxRetries + 1
      invariant attempt <= MaxRetries && requests == attempt
      invariant CallFrom(0, respond, loads) == CallFrom(attempt, respond, loads)
    {
      var outcome := respond(attempt);
      requests := requests + 1;
      match outcome {
        case Reply(content, usage) =>
          if content.None? || content.value == "" {
            if attempt < MaxRetries {
              continue;
            }
            return Failure(EmptyResultError), requests;
          }
          var parsed := loads(content.value);
          if parsed.Err? {
            if attempt < MaxRetries {
              continue;
            }
            return Failure(BadFormatError), requests;
          }
          var hit := if usage.cacheHit.Some? then usage.cacheHit.value else 0;
          var miss := if usage.cacheMiss.Some? then usage.cacheMiss.value else 0;
          var usageDict := map[PromptKey := usage.promptTokens, CompletionKey := usage.completionTokens,
                               TotalKey := usage.totalTokens, CacheHitKey := hit, CacheMissKey := miss];
          return Success(parsed.value, usageDict), requests;
        case TimedOut =>
          if attempt < MaxRetries {
            continue;
          }
          return Failure(TimeoutError), requests;
        case RateLimited =>
          return Failure(RateLimitError), requests;
        case ApiFailure(message) =>
          return Failure(ApiErrorPrefix + message), requests;
        case OtherFailure(message) =>
          return Failure(OtherErrorPrefix + message), requests;
      }
    }
    assert false;
    return Failure(FallbackError), requests;
  }

  /** Without a client no request is made. */
  lemma NoClientNoRequest(respond: nat -> Attempt, loads: string -> Result<Json>)
    ensures CallOutcome(false, respond, loads) == (Failure(ClientError), 0)
  {
  }

  /** With a client, at least one and at most MaxRetries + 1 = 2 requests
      are made, and the fallback error is never returned. */
  lemma {:induction false} CallBounds(attempt: nat, respond: nat -> Attempt, loads: string -> Result<Json>)
    requires attempt <= MaxRetries
    ensures attempt < CallFrom(attempt, respond, loads).1 <= MaxRetries + 1
    ensures CallFrom(attempt, respond, loads).0 != Failure(FallbackError)
    decreases MaxRetries - attempt
  {
    var a := respond(attempt);
    if Retryable(a, loads) && attempt < MaxRetries {
      CallBounds(attempt + 1, respond, loads);
    } else if a.ApiFailure? {
      assert (ApiErrorPrefix + a.apiMessage)[2] != FallbackError[2];
    } else if a.OtherFailure? {
      assert (OtherErrorPrefix + a.otherMessage)[0] != FallbackError[0];
    }
  }

  /** A rate limit, an API error or another exception ends the call at
      once with its own error; a usable reply ends it with the parsed
      result and the usage, cache counts defaulting to 0. */
  lemma FirstAttemptDecides(respond: nat -> Attempt, loads: string -> Result<Json>)
    requires !Retryable(respond(0), loads)
    ensures CallOutcome(true, respond, loads).1 == 1
    ensures respond(0).RateLimited? ==> CallOutcome(true, respond, loads).0 == Failure(RateLimitError)
    ensures respond(0).ApiFailure? ==>
      CallOutcome(true, respond, loads).0 == Failure(ApiErrorPrefix + respond(0).apiMessage)
    ensures respond(0).OtherFailure? ==>
      CallOutcome(true, respond, loads).0 == Failure(OtherErrorPrefix + respond(0).otherMessage)
    ensures respond(0).Reply? ==>
      && CallOutcome(true, respond, loads).0.Success?
      && loads(respond(0).content.value) == Ok(CallOutcome(true, respond, loads).0.result)
      && CallOutcome(true, respond, loads).0.usage[CacheHitKey] == OrZero(respond(0).usage.cacheHit)
      && CallOutcome(true, respond, loads).0.usage[CacheMissKey] == OrZero(respond(0).usage.cacheMiss)
  {
  }

  /** A retryable failure on the first attempt is retried once, and the
      second attempt decides; a retryable failure there reports its own
      error. */
  lemma RetryOnce(respond: nat -> Attempt, loads: string -> Result<Json>)
    requires Retryable(respond(0), loads)
    ensures CallOutcome(true, respond, loads) == CallFrom(1, respond, loads)
    ensures CallOutcome(true, respond, loads).1 == 2
    ensures Retryable(respond(1), loads) ==>
      CallOutcome(true, respond, loads).0 == Failure(LastError(respond(1), loads))
  {
  }
}
