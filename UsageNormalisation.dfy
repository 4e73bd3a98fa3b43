/**
 * The caller's picture of an `OpenAiUsage`: all of its getters at once.
 * This is the fully populated record the class normalises a raw usage into;
 * the lemmas here characterise exactly which records can come out and show
 * that normalising an already normalised record changes nothing.
 */
module UsageNormalisation {
  import opened Wrappers
  import opened JavaNumbers
  import OpenAiApi
  import opened OpenAiMetadata

  /** The values of the five non-deprecated getters. */
  datatype UsageView = UsageView(
    promptTokens: int64,
    generationTokens: int64,
    totalTokens: int64,
    promptTokensDetails: PromptTokensDetails,
    completionTokenDetails: CompletionTokenDetails)

  predicate FitsInt(x: int64)
  {
    INT_MIN <= x as int <= INT_MAX
  }

  /**
   * The invariant every normalised usage keeps: the two parts are widened
   * `Integer`s, and the total is either a widened `Integer` (the provider's)
   * or exactly the sum of the parts.
   */
  predicate Consistent(v: UsageView)
  {
    && FitsInt(v.promptTokens)
    && FitsInt(v.generationTokens)
    && (FitsInt(v.totalTokens) || v.totalTokens as int == v.promptTokens as int + v.generationTokens as int)
  }

  /** Reads every getter of `u`. */
  function View(u: OpenAiUsage): (v: UsageView)
    ensures Consistent(v)
  {
    UsageView(
      GetPromptTokens(u),
      GetGenerationTokens(u),
      GetTotalTokens(u),
      GetPromptTokensDetails(u),
      GetCompletionTokenDetails(u))
  }

  /**
   * A normalised record written back in the raw form, every field present,
   * except a total too large for an `Integer`, which is left for the
   * fallback to recompute.
   */
  function AsRaw(v: UsageView): (raw: OpenAiApi.Usage)
    requires Consistent(v)
    ensures raw.promptTokens.Some? && raw.completionTokens.Some?
    ensures raw.promptTokensDetails.Some? && raw.completionTokenDetails.Some?
    ensures raw.totalTokens.Some? <==> FitsInt(v.totalTokens)
  {
    var p := v.promptTokensDetails;
    var c := v.completionTokenDetails;
    OpenAiApi.Usage(
      Some(v.generationTokens as int32),
      Some(v.promptTokens as int32),
      if FitsInt(v.totalTokens) then Some(v.totalTokens as int32) else None,
      Some(OpenAiApi.PromptTokensDetails(Some(p.audioTokens), Some(p.cachedTokens))),
      Some(OpenAiApi.CompletionTokenDetails(
        Some(c.reasoningTokens), Some(c.acceptedPredictionTokens), Some(c.audioTokens), Some(c.rejectedPredictionTokens))))
  }

  /** Normalising the raw form of a consistent record gives that record back. */
  lemma AsRawRoundTrip(v: UsageView)
    requires Consistent(v)
    ensures View(OpenAiUsage(AsRaw(v))) == v
  {
  }

  /** Normalisation is idempotent: a normalised usage, fed back in raw form, is left as it is. */
  lemma NormalisationIsIdempotent(u: OpenAiUsage)
    ensures View(OpenAiUsage(AsRaw(View(u)))) == View(u)
  {
    AsRawRoundTrip(View(u));
  }

  /** A raw usage with every field present, its total included, survives normalisation unchanged. */
  lemma FullyPopulatedRawIsPreserved(raw: OpenAiApi.Usage)
    requires raw.promptTokens.Some? && raw.completionTokens.Some? && raw.totalTokens.Some?
    requires raw.promptTokensDetails.Some?
    requires raw.promptTokensDetails.value.audioTokens.Some? && raw.promptTokensDetails.value.cachedTokens.Some?
    requires raw.completionTokenDetails.Some?
    requires raw.completionTokenDetails.value.reasoningTokens.Some?
    requires raw.completionTokenDetails.value.acceptedPredictionTokens.Some?
    requires raw.completionTokenDetails.value.audioTokens.Some?
    requires raw.completionTokenDetails.value.rejectedPredictionTokens.Some?
    ensures AsRaw(View(OpenAiUsage(raw))) == raw
  {
  }

  /** The records normalisation can produce are exactly the consistent ones. */
  lemma ViewsAreExactlyTheConsistentRecords(v: UsageView)
    ensures Consistent(v) <==> exists raw: OpenAiApi.Usage :: View(OpenAiUsage(raw)) == v
  {
    if Consistent(v) {
      AsRawRoundTrip(v);
    }
  }

  predicate NonNegativeCount(n: Option<int32>)
  {
    n.Some? ==> n.value >= 0
  }

  /** The provider reported no negative count, anywhere in the record. */
  predicate NonNegativeRaw(raw: OpenAiApi.Usage)
  {
    && NonNegativeCount(raw.promptTokens)
    && NonNegativeCount(raw.completionTokens)
    && NonNegativeCount(raw.totalTokens)
    && (raw.promptTokensDetails.Some? ==>
          NonNegativeCount(raw.promptTokensDetails.value.audioTokens)
          && NonNegativeCount(raw.promptTokensDetails.value.cachedTokens))
    && (raw.completionTokenDetails.Some? ==>
          NonNegativeCount(raw.completionTokenDetails.value.reasoningTokens)
          && NonNegativeCount(raw.completionTokenDetails.value.acceptedPredictionTokens)
          && NonNegativeCount(raw.completionTokenDetails.value.audioTokens)
          && NonNegativeCount(raw.completionTokenDetails.value.rejectedPredictionTokens))
  }

  predicate NonNegativeView(v: UsageView)
  {
    && v.promptTokens >= 0 && v.generationTokens >= 0 && v.totalTokens >= 0
    && v.promptTokensDetails.audioTokens >= 0 && v.promptTokensDetails.cachedTokens >= 0
    && v.completionTokenDetails.reasoningTokens >= 0
    && v.completionTokenDetails.acceptedPredictionTokens >= 0
    && v.completionTokenDetails.audioTokens >= 0
    && v.completionTokenDetails.rejectedPredictionTokens >= 0
  }

  /**
   * The class never checks signs, so the view is non-negative exactly as far
   * as the provider's counts are; a recomputed total is then at least each part.
   */
  lemma NonNegativeInputsGiveNonNegativeView(u: OpenAiUsage)
    requires NonNegativeRaw(u.usage)
    ensures NonNegativeView(View(u))
    ensures u.usage.totalTokens.None? ==>
      View(u).totalTokens >= View(u).promptTokens && View(u).totalTokens >= View(u).generationTokens
  {
  }

  /** A single negative count from the provider reaches the caller. */
  lemma NegativeInputsAreNotRejected()
    ensures exists u: OpenAiUsage :: !NonNegativeView(View(u))
  {
    var u := OpenAiUsage(OpenAiApi.Usage(None, Some(-1), None, None, None));
    assert View(u).promptTokens == -1;
  }

  /** Missing total: {prompt 10, completion 5, total null} reads as {10, 5, 15} with all-zero details. */
  lemma MissingTotalExample()
    ensures View(OpenAiUsage(OpenAiApi.Usage(Some(5), Some(10), None, None, None)))
      == UsageView(10, 5, 15, PromptTokensDetails(0, 0), CompletionTokenDetails(0, 0, 0, 0))
  {
  }
}
