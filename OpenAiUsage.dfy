/**
 * `OpenAiUsage`: the `Usage` implementation for OpenAI. It wraps the raw
 * provider record and reads it back as a fully populated view in which
 * every missing count is 0, every missing nested payload is an all-zero
 * record and a missing total is recomputed from its parts.
 */
module OpenAiMetadata {
  import opened Wrappers
  import opened JavaNumbers
  import OpenAiApi

  /** The exception `Assert.notNull` throws. */
  datatype Error = IllegalArgument(message: string)

  const USAGE_MUST_NOT_BE_NULL: string := "OpenAI Usage must not be null"

  /** An `OpenAiUsage` object; its one field is final, so it is a value. */
  datatype OpenAiUsage = OpenAiUsage(usage: OpenAiApi.Usage)

  /** The normalised prompt details this class hands out (never null fields). */
  datatype PromptTokensDetails = PromptTokensDetails(
    audioTokens: int32,
    cachedTokens: int32)

  /** The normalised completion details this class hands out (never null fields). */
  datatype CompletionTokenDetails = CompletionTokenDetails(
    reasoningTokens: int32,
    acceptedPredictionTokens: int32,
    audioTokens: int32,
    rejectedPredictionTokens: int32)

  /** The protected constructor: a null raw usage is refused. */
  function New(usage: Option<OpenAiApi.Usage>): (r: Result<OpenAiUsage, Error>)
    ensures r.Failure? <==> usage.None?
    ensures r.Failure? ==> r.error == IllegalArgument(USAGE_MUST_NOT_BE_NULL)
    ensures r.Success? ==> r.value.usage == usage.value
  {
    match usage
    case None => Failure(IllegalArgument(USAGE_MUST_NOT_BE_NULL))
    case Some(raw) => Success(OpenAiUsage(raw))
  }

  /** The static factory: exactly the constructor applied to its argument. */
  function From(usage: Option<OpenAiApi.Usage>): (r: Result<OpenAiUsage, Error>)
    ensures r == New(usage)
    ensures r.Success? <==> usage.Some?
  {
    New(usage)
  }

  /** A possibly-null `Integer` unboxed to `int`, with null read as 0. */
  function ValueOrZero(value: Option<int32>): int32
  {
    if value.Some? then value.value else 0
  }

  function GetPromptTokens(u: OpenAiUsage): int64
  {
    var promptTokens := u.usage.promptTokens;
    if promptTokens.Some? then Widen(promptTokens.value) else 0
  }

  function GetGenerationTokens(u: OpenAiUsage): int64
  {
    var generationTokens := u.usage.completionTokens;
    if generationTokens.Some? then Widen(generationTokens.value) else 0
  }

  /** The provider's total when it sent one, otherwise prompt + generation as a `long` sum. */
  function GetTotalTokens(u: OpenAiUsage): int64
  {
    var totalTokens := u.usage.totalTokens;
    if totalTokens.Some? then Widen(totalTokens.value)
    else LongAdd(GetPromptTokens(u), GetGenerationTokens(u))
  }

  /** Deprecated: reads the cached count straight from the raw prompt details. */
  function GetPromptTokensDetailsCachedTokens(u: OpenAiUsage): int64
  {
    var promptTokenDetails := u.usage.promptTokensDetails;
    var cachedTokens := if promptTokenDetails.Some? then promptTokenDetails.value.cachedTokens else None;
    if cachedTokens.Some? then Widen(cachedTokens.value) else 0
  }

  function GetPromptTokensDetails(u: OpenAiUsage): PromptTokensDetails
  {
    var details := u.usage.promptTokensDetails;
    if details.None? then PromptTokensDetails(0, 0)
    else PromptTokensDetails(ValueOrZero(details.value.audioTokens), ValueOrZero(details.value.cachedTokens))
  }

  /** Deprecated: reads the reasoning count straight from the raw completion details. */
  function GetReasoningTokens(u: OpenAiUsage): int64
  {
    var completionTokenDetails := u.usage.completionTokenDetails;
    var reasoningTokens := if completionTokenDetails.Some? then completionTokenDetails.value.reasoningTokens else None;
    if reasoningTokens.Some? then Widen(reasoningTokens.value) else 0
  }

  /** Deprecated: reads the accepted-prediction count straight from the raw completion details. */
  function GetAcceptedPredictionTokens(u: OpenAiUsage): int64
  {
    var completionTokenDetails := u.usage.completionTokenDetails;
    var acceptedPredictionTokens :=
      if completionTokenDetails.Some? then completionTokenDetails.value.acceptedPredictionTokens else None;
    if acceptedPredictionTokens.Some? then Widen(acceptedPredictionTokens.value) else 0
  }

  /** Deprecated: reads the completion audio count straight from the raw completion details. */
  function GetAudioTokens(u: OpenAiUsage): int64
  {
    var completionTokenDetails := u.usage.completionTokenDetails;
    var audioTokens := if completionTokenDetails.Some? then completionTokenDetails.value.audioTokens else None;
    if audioTokens.Some? then Widen(audioTokens.value) else 0
  }

  /** Deprecated: reads the rejected-prediction count straight from the raw completion details. */
  function GetRejectedPredictionTokens(u: OpenAiUsage): int64
  {
    var completionTokenDetails := u.usage.completionTokenDetails;
    var rejectedPredictionTokens :=
      if completionTokenDetails.Some? then completionTokenDetails.value.rejectedPredictionTokens else None;
    if rejectedPredictionTokens.Some? then Widen(rejectedPredictionTokens.value) else 0
  }

  function GetCompletionTokenDetails(u: OpenAiUsage): CompletionTokenDetails
  {
    var details := u.usage.completionTokenDetails;
    if details.None? then CompletionTokenDetails(0, 0, 0, 0)
    else CompletionTokenDetails(
      ValueOrZero(details.value.reasoningTokens),
      ValueOrZero(details.value.acceptedPredictionTokens),
      ValueOrZero(details.value.audioTokens),
      ValueOrZero(details.value.rejectedPredictionTokens))
  }
}
