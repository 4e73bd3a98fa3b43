/**
 * The raw token-accounting record an OpenAI chat completion carries,
 * `OpenAiApi.Usage`, reduced to the accessors that `OpenAiUsage` reads.
 * Every field is a boxed Java value and may be `null`.
 */
module OpenAiApi {
  import opened Wrappers
  import opened JavaNumbers

  /** `OpenAiApi.Usage.PromptTokensDetails`, as sent by the provider. */
  datatype PromptTokensDetails = PromptTokensDetails(
    audioTokens: Option<int32>,
    cachedTokens: Option<int32>)

  /** `OpenAiApi.Usage.CompletionTokenDetails`, as sent by the provider. */
  datatype CompletionTokenDetails = CompletionTokenDetails(
    reasoningTokens: Option<int32>,
    acceptedPredictionTokens: Option<int32>,
    audioTokens: Option<int32>,
    rejectedPredictionTokens: Option<int32>)

  /** `OpenAiApi.Usage`: top-level counts and two optional nested payloads. */
  datatype Usage = Usage(
    completionTokens: Option<int32>,
    promptTokens: Option<int32>,
    totalTokens: Option<int32>,
    promptTokensDetails: Option<PromptTokensDetails>,
    completionTokenDetails: Option<CompletionTokenDetails>)
}
