/**
 * `estimate_openai_cost` of app/token_utils.py: the price of one chat call
 * from its prompt and completion token counts, looked up in a per-model
 * pricing table. Prices are kept exactly, as whole micro-dollars (10^-6
 * USD) per 1000 tokens, so a cost rounded to 6 decimals is a whole number
 * of micro-dollars.
 */
module TokenCost {

  /** The rates of one model, in micro-dollars per 1000 tokens. */
  datatype Pricing = Pricing(input: nat, output: nat)

  /** `MODEL_PRICING`. */
  const ModelPricing: map<string, Pricing> := map[
    "gpt-4" := Pricing(10000, 30000),
    "gpt-4-1106-preview" := Pricing(10000, 30000),
    "gpt-3.5-turbo" := Pricing(1500, 2000),
    "gpt-4o" := Pricing(5000, 15000),
    "gpt-4o-mini" := Pricing(150, 600)
  ]

  /** `MODEL_PRICING.get(model_name, MODEL_PRICING["gpt-4"])`. */
  function PricingFor(model: string): (p: Pricing)
    ensures model in ModelPricing ==> p == ModelPricing[model]
    ensures model !in ModelPricing ==> p == ModelPricing["gpt-4"]
  {
    if model in ModelPricing then ModelPricing[model] else ModelPricing["gpt-4"]
  }

  /** `round(n / 1000)` for an exact rational: to the nearest integer, a tie
      going to the even neighbour (Python's `round`). */
  function RoundThousandths(n: int): (r: int)
    ensures 1000 * r - 500 <= n <= 1000 * r + 500
    ensures n == 1000 * r - 500 || n == 1000 * r + 500 ==> r % 2 == 0
  {
    var q, m := n / 1000, n % 1000;
    if m < 500 || (m == 500 && q % 2 == 0) then q else q + 1
  }

  /** Rounding never reverses the order of two amounts. */
  lemma RoundMonotone(a: int, b: int)
    requires a <= b
    ensures RoundThousandths(a) <= RoundThousandths(b)
  {
  }

  /** `estimate_openai_cost(model_name, prompt_tokens, completion_tokens)`,
      in micro-dollars: (prompt/1000) * input rate + (completion/1000) *
      output rate, rounded to 6 decimals. */
  function EstimateCost(model: string, promptTokens: int, completionTokens: int): (r: int)
    ensures var exact := promptTokens * PricingFor(model).input + completionTokens * PricingFor(model).output;
            1000 * r - 500 <= exact <= 1000 * r + 500
  {
    var p := PricingFor(model);
    RoundThousandths(promptTokens * p.input + completionTokens * p.output)
  }

  /** Which neighbour the estimate takes: an exact price strictly between two
      whole micro-dollars goes to the nearer one, and one exactly half-way
      goes to the even one (`round` ties to even). */
  lemma EstimateTiesToEven(model: string, promptTokens: int, completionTokens: int)
    ensures var exact := promptTokens * PricingFor(model).input + completionTokens * PricingFor(model).output;
            var r := EstimateCost(model, promptTokens, completionTokens);
            (exact % 1000 == 500 ==> r % 2 == 0)
            && (exact % 1000 != 500 ==> 1000 * r - 500 < exact < 1000 * r + 500)
  {
    var p := PricingFor(model);
    var exact := promptTokens * p.input + completionTokens * p.output;
    var r := RoundThousandths(exact);
    if exact % 1000 == 500 {
      assert exact == 1000 * (exact / 1000) + 500;
    } else {
      assert exact != 1000 * r - 500 by { assert (1000 * r - 500) % 1000 == 500; }
      assert exact != 1000 * r + 500 by { assert (1000 * r + 500) % 1000 == 500; }
    }
  }

  /** A model missing from the table is priced as `gpt-4`, never rejected. */
  lemma UnknownModelPricedAsGpt4(model: string, promptTokens: int, completionTokens: int)
    requires model !in ModelPricing
    ensures EstimateCost(model, promptTokens, completionTokens) == EstimateCost("gpt-4", promptTokens, completionTokens)
  {
  }

  /** `gpt-4` and `gpt-4-1106-preview` share their rates. */
  lemma Gpt4PreviewSameAsGpt4(promptTokens: int, completionTokens: int)
    ensures EstimateCost("gpt-4-1106-preview", promptTokens, completionTokens) == EstimateCost("gpt-4", promptTokens, completionTokens)
  {
  }

  lemma ZeroTokensCostNothing(model: string)
    ensures EstimateCost(model, 0, 0) == 0
  {
  }

  lemma CostNonNegative(model: string, promptTokens: nat, completionTokens: nat)
    ensures EstimateCost(model, promptTokens, completionTokens) >= 0
  {
    var p := PricingFor(model);
    RoundMonotone(0, promptTokens * p.input + completionTokens * p.output);
  }

  /** For a fixed model, more prompt tokens or more completion tokens never
      cost less. */
  lemma CostMonotone(model: string, prompt1: int, completion1: int, prompt2: int, completion2: int)
    requires prompt1 <= prompt2 && completion1 <= completion2
    ensures EstimateCost(model, prompt1, completion1) <= EstimateCost(model, prompt2, completion2)
  {
    var p := PricingFor(model);
    assert prompt1 * p.input <= prompt2 * p.input by {
      MultiplyMonotone(prompt1, prompt2, p.input);
    }
    assert completion1 * p.output <= completion2 * p.output by {
      MultiplyMonotone(completion1, completion2, p.output);
    }
    RoundMonotone(prompt1 * p.input + completion1 * p.output, prompt2 * p.input + completion2 * p.output);
  }

  lemma MultiplyMonotone(a: int, b: int, k: nat)
    requires a <= b
    ensures a * k <= b * k
  {
  }

  /** A worked price: 1000 prompt and 1000 completion tokens on `gpt-4o-mini`
      cost 0.00075 USD. */
  lemma Gpt4oMiniExample()
    ensures EstimateCost("gpt-4o-mini", 1000, 1000) == 750
  {
  }

  /** Half a micro-dollar rounds to the even neighbour: 1 prompt token on
      `gpt-4o-mini` is 0.15 micro-dollars (0), 10 tokens are 1.5 (2) and 30
      tokens are 4.5 (4). */
  lemma HalfEvenExample()
    ensures EstimateCost("gpt-4o-mini", 1, 0) == 0
    ensures EstimateCost("gpt-4o-mini", 10, 0) == 2
    ensures EstimateCost("gpt-4o-mini", 30, 0) == 4
  {
  }
}
