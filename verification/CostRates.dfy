/** The cost of one LLM call, in microcents: whole-number arithmetic that truncates each of
    the two products, so a call within the token bounds never costs more than the worst-case
    estimate the admission check uses. */
module CostRates {
  import opened Collections

  datatype Rate = Rate(inputPer1M: nat, outputPer1M: nat)

  datatype Provider = OpenAi | Anthropic | DeepSeek

  const PROVIDER_COST_RATES: map<Provider, map<string, Rate>> := map[
    OpenAi := map[
      "gpt-4.1" := Rate(500_000_000, 1_500_000_000),
      "gpt-4.1-mini" := Rate(40_000_000, 160_000_000),
      "gpt-4.1-nano" := Rate(10_000_000, 40_000_000)
    ],
    Anthropic := map[
      "claude-opus-4-7" := Rate(500_000_000, 2_500_000_000),
      "claude-sonnet-4-6" := Rate(300_000_000, 1_500_000_000),
      "claude-haiku-4-5" := Rate(100_000_000, 500_000_000)
    ],
    DeepSeek := map[
      "deepseek-v4-flash" := Rate(14_000_000, 28_000_000),
      "deepseek-v4-pro" := Rate(174_000_000, 348_000_000)
    ]
  ]

  const ESTIMATED_INPUT_TOKENS_FOR_CEILING_CHECK: nat := 500

  /** `estimateCostMicrocents`; None stands for its throw on an unknown provider or model. */
  function EstimateCost(provider: Provider, model: string, inputTokens: nat, outputTokens: nat): Option<nat> {
    if provider !in PROVIDER_COST_RATES || model !in PROVIDER_COST_RATES[provider] then None
    else
      var rate := PROVIDER_COST_RATES[provider][model];
      Some(inputTokens * rate.inputPer1M / 1_000_000 + outputTokens * rate.outputPer1M / 1_000_000)
  }

  lemma CancelFactor(x: nat, y: nat, d: nat)
    requires x * d < y * d
    ensures x < y
  {
    assert y <= x ==> y * d <= x * d;
  }

  lemma DivMonotone(a: nat, b: nat, d: nat)
    requires a <= b && d > 0
    ensures a / d <= b / d
  {
    assert (a / d) * d <= a && b < (b / d + 1) * d;
    CancelFactor(a / d, b / d + 1, d);
  }

  /** Fewer tokens never cost more, and neither changes whether the model is known. */
  lemma CostMonotone(provider: Provider, model: string, i: nat, o: nat, i': nat, o': nat)
    requires i <= i' && o <= o'
    ensures EstimateCost(provider, model, i, o).Some? <==> EstimateCost(provider, model, i', o').Some?
    ensures EstimateCost(provider, model, i, o).Some? ==>
              EstimateCost(provider, model, i, o).value <= EstimateCost(provider, model, i', o').value
  {
    if EstimateCost(provider, model, i, o).Some? {
      var rate := PROVIDER_COST_RATES[provider][model];
      assert i * rate.inputPer1M <= i' * rate.inputPer1M && o * rate.outputPer1M <= o' * rate.outputPer1M;
      DivMonotone(i * rate.inputPer1M, i' * rate.inputPer1M, 1_000_000);
      DivMonotone(o * rate.outputPer1M, o' * rate.outputPer1M, 1_000_000);
    }
  }

  /** Every listed rate is a whole number of microcents per token, so neither truncation ever
      loses anything: the cost is the exact rational one. */
  lemma CostIsExact(provider: Provider, model: string, i: nat, o: nat)
    requires EstimateCost(provider, model, i, o).Some?
    ensures var rate := PROVIDER_COST_RATES[provider][model];
            1_000_000 * EstimateCost(provider, model, i, o).value == i * rate.inputPer1M + o * rate.outputPer1M
  {
    var rate := PROVIDER_COST_RATES[provider][model];
    assert rate.inputPer1M % 1_000_000 == 0 && rate.outputPer1M % 1_000_000 == 0;
    Divides(i, rate.inputPer1M);
    Divides(o, rate.outputPer1M);
  }

  lemma Divides(tokens: nat, rate: nat)
    requires rate % 1_000_000 == 0
    ensures 1_000_000 * (tokens * rate / 1_000_000) == tokens * rate
  {
    var each := rate / 1_000_000;
    assert tokens * rate == 1_000_000 * (tokens * each);
  }
}
