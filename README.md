# OpenAI usage normaliser

A Dafny model of `OpenAiUsage`, the Spring AI class that wraps the raw
token-accounting record of an OpenAI response (`OpenAiApi.Usage`). Every
field of that record may be `null`. The class hands callers a fully
populated view of it:

- a missing count reads as 0;
- the total is the provider's total if it sent one, otherwise prompt + generation;
- a missing nested details payload becomes an all-zero details record;
- five deprecated single-field getters agree with the new details records.

Layout:

- `Wrappers.dfy`: `Option` (Java `null`) and `Result` (a thrown exception).
- `JavaNumbers.dfy`: `int32` (`Integer`), `int64` (`Long`), widening, and `long` addition with its two's-complement wrap-around written out.
- `OpenAiApi.dfy`: the raw record, reduced to the accessors the class reads.
- `OpenAiUsage.dfy` (module `OpenAiMetadata`): the class. Its only field is final, so it is a datatype. Each getter is a function over it.
- `UsageProperties.dfy`: defaulting, the total's fallback rule, overflow freedom, and agreement of the deprecated getters.
- `UsageNormalisation.dfy`: all getters read at once as one record (`UsageView`). It shows which records normalisation can produce, that it is idempotent, and how signs carry through.

Two behaviours of the code are worth stating plainly:

- Counts are never checked for sign, so a negative provider count reaches the caller (`NegativeInputsAreNotRejected`). The view is non-negative only when the provider's counts are (`NonNegativeInputsGiveNonNegativeView`).
- The class has no error path for a malformed payload. Its only failure is the null check in the constructor.

## Model

| member | source | states |
|---|---|---|
| `OpenAiMetadata.New` | models/spring-ai-openai/src/main/java/org/springframework/ai/openai/metadata/OpenAiUsage.java:39-42 | construction fails with IllegalArgument("OpenAI Usage must not be null") exactly when the raw usage is null; otherwise the object wraps that raw usage unchanged |
| `OpenAiMetadata.From` | models/spring-ai-openai/src/main/java/org/springframework/ai/openai/metadata/OpenAiUsage.java:44-46 | the factory is the constructor applied to its argument and succeeds exactly on a non-null usage |
| `JavaNumbers.LongAdd` | models/spring-ai-openai/src/main/java/org/springframework/ai/openai/metadata/OpenAiUsage.java:71 | Java `long` addition: the result is congruent to the true sum modulo 2^64, equals it when it fits in a long, and flips sign when it does not |
| `UsageProperties.TopLevelCountsDefaultToZero` | models/spring-ai-openai/src/main/java/org/springframework/ai/openai/metadata/OpenAiUsage.java:53-62 | prompt and generation tokens are the raw counts, widened unchanged, when present, and 0 when absent |
| `UsageProperties.ProviderTotalIsTrusted` | models/spring-ai-openai/src/main/java/org/springframework/ai/openai/metadata/OpenAiUsage.java:66-69 | a provider-sent total is returned verbatim |
| `UsageProperties.ProviderTotalIsNotReconciled` | models/spring-ai-openai/src/main/java/org/springframework/ai/openai/metadata/OpenAiUsage.java:66-69 | some usage has a provider total that differs from prompt + generation, and that total is still what is returned |
| `UsageProperties.MissingTotalIsSumOfParts` | models/spring-ai-openai/src/main/java/org/springframework/ai/openai/metadata/OpenAiUsage.java:70-72 | without a provider total the total is exactly prompt + generation; with one part missing it equals the other part |
| `UsageProperties.FallbackTotalCannotOverflow` | models/spring-ai-openai/src/main/java/org/springframework/ai/openai/metadata/OpenAiUsage.java:53-72 | the long sum of two widened Integers never wraps: it equals the mathematical sum and lies within twice the Integer range |
| `UsageProperties.PromptDetailsDefaultToZero` | models/spring-ai-openai/src/main/java/org/springframework/ai/openai/metadata/OpenAiUsage.java:85-91 | a missing prompt-details payload reads as (0, 0); otherwise audio and cached tokens are copied, with null read as 0 (valueOrZero, lines 150-152) |
| `UsageProperties.CompletionDetailsDefaultToZero` | models/spring-ai-openai/src/main/java/org/springframework/ai/openai/metadata/OpenAiUsage.java:135-143 | a missing completion-details payload reads as (0, 0, 0, 0); otherwise reasoning, accepted-prediction, audio and rejected-prediction tokens are copied in that order, with null read as 0 |
| `UsageProperties.DeprecatedGettersAgree` | models/spring-ai-openai/src/main/java/org/springframework/ai/openai/metadata/OpenAiUsage.java:79-143 | for every raw usage each deprecated getter (cached, reasoning, accepted-prediction, audio, rejected-prediction) equals the widened matching field of the new details record |
| `UsageNormalisation.View` | models/spring-ai-openai/src/main/java/org/springframework/ai/openai/metadata/OpenAiUsage.java:52-143 | the getters' joint result always keeps the invariant: prompt and generation fit in an Integer, and the total either fits in an Integer or is exactly prompt + generation |
| `UsageNormalisation.AsRaw` | models/spring-ai-openai/src/main/java/org/springframework/ai/openai/metadata/OpenAiUsage.java:52-143 | a normalised record written back in raw form has every field present, with the total present exactly when it fits in an Integer |
| `UsageNormalisation.AsRawRoundTrip` | models/spring-ai-openai/src/main/java/org/springframework/ai/openai/metadata/OpenAiUsage.java:52-143 | normalising the raw form of any consistent record gives that record back |
| `UsageNormalisation.NormalisationIsIdempotent` | models/spring-ai-openai/src/main/java/org/springframework/ai/openai/metadata/OpenAiUsage.java:52-143 | normalising the raw form of a normalised usage changes nothing |
| `UsageNormalisation.FullyPopulatedRawIsPreserved` | models/spring-ai-openai/src/main/java/org/springframework/ai/openai/metadata/OpenAiUsage.java:52-143 | a raw usage with every field present, including the total, is returned unchanged by normalising and writing back |
| `UsageNormalisation.ViewsAreExactlyTheConsistentRecords` | models/spring-ai-openai/src/main/java/org/springframework/ai/openai/metadata/OpenAiUsage.java:52-143 | a record is produced by normalising some raw usage if and only if it keeps the invariant above |
| `UsageNormalisation.NonNegativeInputsGiveNonNegativeView` | models/spring-ai-openai/src/main/java/org/springframework/ai/openai/metadata/OpenAiUsage.java:52-143 | if the provider sent no negative count, every getter is non-negative; a recomputed total is then at least each of its parts |
| `UsageNormalisation.NegativeInputsAreNotRejected` | models/spring-ai-openai/src/main/java/org/springframework/ai/openai/metadata/OpenAiUsage.java:53-56 | a negative provider count is passed through, not rejected or clamped |
| `UsageNormalisation.MissingTotalExample` | models/spring-ai-openai/src/main/java/org/springframework/ai/openai/metadata/OpenAiUsage.java:64-91 | raw {prompt 10, completion 5, total null, no details} reads as prompt 10, generation 5, total 15 and all-zero details |

## Left out

- `OpenAiUsage.toString` delegates to the raw record's `toString`. The raw record's source is not part of this model.
- `OpenAiApi.Usage` itself is not part of this model. It appears only through the accessors the class calls, with every numeric field optional.
- `Assert.notNull` is Spring's library code. It appears only as the `Failure` result of `New`.
- The protected accessor `getUsage` is the datatype's `usage` field.
- The public `PromptTokensDetails` / `CompletionTokenDetails` records have `Integer` fields that could in principle hold `null`. This class always fills them with unboxed `int` values, so the model gives them non-null `int32` fields.
- The chat-client and Neo4j vector-store observation integration tests need a live OpenAI API, a Neo4j container and a Micrometer registry. The vector-store classes and observation convention they exercise are not part of this model.
