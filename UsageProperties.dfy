/**
 * What `OpenAiUsage` promises its callers: present counts are passed through,
 * absent ones read as 0, the total falls back to prompt + generation without
 * overflowing, and the deprecated getters agree with the details records.
 */
module UsageProperties {
  import opened Wrappers
  import opened JavaNumbers
  import OpenAiApi
  import opened OpenAiMetadata

  /** Prompt and generation counts: a present count is widened unchanged, a missing one reads as 0. */
  lemma TopLevelCountsDefaultToZero(u: OpenAiUsage)
    ensures u.usage.promptTokens.Some? ==> GetPromptTokens(u) as int == u.usage.promptTokens.value as int
    ensures u.usage.promptTokens.None? ==> GetPromptTokens(u) == 0
    ensures u.usage.completionTokens.Some? ==> GetGenerationTokens(u) as int == u.usage.completionTokens.value as int
    ensures u.usage.completionTokens.None? ==> GetGenerationTokens(u) == 0
  {
  }

  /**
   * Prompt details: a missing payload becomes (0, 0); otherwise each field is
   * copied, a null one as 0.
   */
  lemma PromptDetailsDefaultToZero(u: OpenAiUsage)
    ensures u.usage.promptTokensDetails.None? ==> GetPromptTokensDetails(u) == PromptTokensDetails(0, 0)
    ensures u.usage.promptTokensDetails.Some? ==>
      var raw := u.usage.promptTokensDetails.value;
      var details := GetPromptTokensDetails(u);
      && (raw.audioTokens.Some? ==> details.audioTokens == raw.audioTokens.value)
      && (raw.audioTokens.None? ==> details.audioTokens == 0)
      && (raw.cachedTokens.Some? ==> details.cachedTokens == raw.cachedTokens.value)
      && (raw.cachedTokens.None? ==> details.cachedTokens == 0)
  {
  }

  /**
   * Completion details: a missing payload becomes (0, 0, 0, 0); otherwise the
   * four fields are copied in order, a null one as 0.
   */
  lemma CompletionDetailsDefaultToZero(u: OpenAiUsage)
    ensures u.usage.completionTokenDetails.None? ==> GetCompletionTokenDetails(u) == CompletionTokenDetails(0, 0, 0, 0)
    ensures u.usage.completionTokenDetails.Some? ==>
      var raw := u.usage.completionTokenDetails.value;
      var details := GetCompletionTokenDetails(u);
      && (raw.reasoningTokens.Some? ==> details.reasoningTokens == raw.reasoningTokens.value)
      && (raw.reasoningTokens.None? ==> details.reasoningTokens == 0)
      && (raw.acceptedPredictionTokens.Some? ==> details.acceptedPredictionTokens == raw.acceptedPredictionTokens.value)
      && (raw.acceptedPredictionTokens.None? ==> details.acceptedPredictionTokens == 0)
      && (raw.audioTokens.Some? ==> details.audioTokens == raw.audioTokens.value)
      && (raw.audioTokens.None? ==> details.audioTokens == 0)
      && (raw.rejectedPredictionTokens.Some? ==> details.rejectedPredictionTokens == raw.rejectedPredictionTokens.value)
      && (raw.rejectedPredictionTokens.None? ==> details.rejectedPredictionTokens == 0)
  {
  }

  /** A total sent by the provider is returned as is, whatever the parts add up to. */
  lemma ProviderTotalIsTrusted(u: OpenAiUsage)
    requires u.usage.totalTokens.Some?
    ensures GetTotalTokens(u) as int == u.usage.totalTokens.value as int
  {
  }

  /** The trusted total really can disagree with prompt + generation. */
  lemma ProviderTotalIsNotReconciled()
    ensures exists u: OpenAiUsage ::
      && u.usage.totalTokens.Some?
      && GetTotalTokens(u) as int != GetPromptTokens(u) as int + GetGenerationTokens(u) as int
  {
    var u := OpenAiUsage(OpenAiApi.Usage(Some(5), Some(10), Some(7), None, None));
    assert GetTotalTokens(u) == 7 && GetPromptTokens(u) == 10 && GetGenerationTokens(u) == 5;
  }

  /** Without a provider total, the total is prompt + generation, a missing part adding 0. */
  lemma MissingTotalIsSumOfParts(u: OpenAiUsage)
    requires u.usage.totalTokens.None?
    ensures GetTotalTokens(u) as int == GetPromptTokens(u) as int + GetGenerationTokens(u) as int
    ensures u.usage.promptTokens.None? ==> GetTotalTokens(u) == GetGenerationTokens(u)
    ensures u.usage.completionTokens.None? ==> GetTotalTokens(u) == GetPromptTokens(u)
  {
  }

  /** Two widened `Integer`s never make a `long` sum wrap around. */
  lemma FallbackTotalCannotOverflow(p: int32, g: int32)
    ensures LongAdd(Widen(p), Widen(g)) as int == p as int + g as int
    ensures 2 * INT_MIN <= LongAdd(Widen(p), Widen(g)) as int <= 2 * INT_MAX
  {
  }

  /** Each deprecated single-field getter agrees with the matching field of the new details records. */
  lemma DeprecatedGettersAgree(u: OpenAiUsage)
    ensures GetPromptTokensDetailsCachedTokens(u) == Widen(GetPromptTokensDetails(u).cachedTokens)
    ensures GetReasoningTokens(u) == Widen(GetCompletionTokenDetails(u).reasoningTokens)
    ensures GetAcceptedPredictionTokens(u) == Widen(GetCompletionTokenDetails(u).acceptedPredictionTokens)
    ensures GetAudioTokens(u) == Widen(GetCompletionTokenDetails(u).audioTokens)
    ensures GetRejectedPredictionTokens(u) == Widen(GetCompletionTokenDetails(u).rejectedPredictionTokens)
  {
  }
}
