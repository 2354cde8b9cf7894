/** The supported models and what a completion costs on each of them. */
module Pricing {
  import opened Wrappers
  import opened Errors

  /** `GptModel.model_versions`. */
  const ModelVersions: seq<string> := ["gpt-4o-mini", "gpt-4o", "gpt-4-turbo", "gpt-3.5-turbo"]

  /** Dollars per one million prompt (input) and completion (output) tokens. */
  datatype Rate = Rate(input: real, output: real)

  /** `GptModel.pricing_dict`. */
  const PricingTable: map<string, Rate> := map[
    "gpt-4o-mini" := Rate(0.15, 0.6),
    "gpt-4o" := Rate(5.0, 15.0),
    "gpt-4-turbo" := Rate(10.0, 30.0),
    "gpt-3.5-turbo" := Rate(0.5, 1.5)
  ]

  const Million: real := 1000000.0

  /** Every supported model has a price, and every price is positive. */
  lemma PricingCoversVersions()
    ensures forall m :: m in ModelVersions <==> m in PricingTable
    ensures forall m :: m in PricingTable ==> PricingTable[m].input > 0.0 && PricingTable[m].output > 0.0
  {
  }

  /**
   * `GptModel.response_price`: the price in dollars of a completion that read
   * `inputTokens` and wrote `outputTokens`, at the model's per-million rates.
   * Exact arithmetic: Python's float rounding is not modelled.
   */
  function ResponsePrice(model: string, inputTokens: int, outputTokens: int): (r: Result<real, Error>)
    ensures r.Failure? <==> model !in ModelVersions
    ensures r.Failure? ==> r.error == UnsupportedModel(model)
    ensures r.Success? ==>
      r.value * Million == inputTokens as real * PricingTable[model].input
                           + outputTokens as real * PricingTable[model].output
  {
    if model !in ModelVersions then
      Failure(UnsupportedModel(model))
    else
      var rate := PricingTable[model];
      var inputPerToken := rate.input / Million;
      var outputPerToken := rate.output / Million;
      Success(inputTokens as real * inputPerToken + outputTokens as real * outputPerToken)
  }

  /** A completion that used no tokens is free. */
  lemma PriceOfNoTokens(model: string)
    requires model in ModelVersions
    ensures ResponsePrice(model, 0, 0) == Success(0.0)
  {
  }

  /** More tokens, of either kind, never cost less. */
  lemma PriceMonotone(model: string, inputTokens: int, outputTokens: int, moreInput: int, moreOutput: int)
    requires model in ModelVersions
    requires inputTokens <= moreInput && outputTokens <= moreOutput
    ensures ResponsePrice(model, inputTokens, outputTokens).value
            <= ResponsePrice(model, moreInput, moreOutput).value
  {
    PricingCoversVersions();
    var rate := PricingTable[model];
    ScaleMonotone(inputTokens as real, moreInput as real, rate.input / Million);
    ScaleMonotone(outputTokens as real, moreOutput as real, rate.output / Million);
  }

  lemma ScaleMonotone(x: real, y: real, k: real)
    requires x <= y && k >= 0.0
    ensures x * k <= y * k
  {
  }

  /** Pricing two completions separately costs the same as pricing their summed usage. */
  lemma PriceAdditive(model: string, input1: int, output1: int, input2: int, output2: int)
    requires model in ModelVersions
    ensures ResponsePrice(model, input1 + input2, output1 + output2).value
            == ResponsePrice(model, input1, output1).value + ResponsePrice(model, input2, output2).value
  {
  }
}
