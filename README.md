# URL shortener core, modelled in Dafny

This project models the core of a URL-shortening service written in C#:

- **Creating a link.** The API validates the request. The creation handler re-checks that the URL is absolute http/https. It asks a code generator for an eight-character code, normalises the optional deep-link targets, stores one `ShortUrl` and answers with the short URL.
- **Resolving a link.** The resolution handler answers nothing for an unknown or expired code. Otherwise it records exactly one resolution and answers the target for the client's device: iOS, Android, desktop, then fallback, then the original URL.
- **Stores and generators.**
  - The in-memory repository is the one the integration tests use. It holds links and resolution counters in two dictionaries.
  - The production code generator draws random bytes, maps them into a 57-character alphabet and retries up to eight times until it finds a code that is not taken.
  - The integration tests' generator formats a 32-bit counter as `t` followed by at least seven digits, with a minus sign once the counter has wrapped to negative values.

Modules follow the source files:

| file | module | source |
|---|---|---|
| `wrappers.dfy` | `Wrappers` | `Option` / `Result` |
| `text.dfy` | `Text` | `string.IsNullOrWhiteSpace`, invariant lower-casing, `TrimEnd` |
| `uris.dfy` | `Uris` | the `Uri.TryCreate` + `Uri.Scheme` parser, as a parameter |
| `deep_link_targets.dfy` | `DeepLinks` | `DeepLinkTargets.cs` |
| `short_url.dfy` | `ShortUrls` | `ShortUrl.cs`, `ShortUrlAnalytics.cs` |
| `in_memory_repository.dfy` | `InMemoryStore` | `InMemoryShortUrlRepository.cs` |
| `secure_short_code_generator.dfy` | `SecureCodeGeneration` | `SecureShortCodeGenerator.cs` |
| `incrementing_short_code_generator.dfy` | `IncrementingCodeGeneration` | `IncrementingShortCodeGenerator.cs` |
| `create_short_url_handler.dfy` | `CreateShortUrl` | `CreateShortUrlHandler.cs` |
| `resolve_short_url_handler.dfy` | `ResolveShortUrl` | `ResolveShortUrlHandler.cs` |
| `create_short_url_request_validator.dfy` | `RequestValidation` | `CreateShortUrlRequestValidator.cs` |

Where the code changes state, the model changes state:

- The repository, the two generators and the validator's error dictionary are classes. Their mutating methods carry `modifies` clauses.
- The generator's retry loop and the byte-to-character loop are `while`/`for` loops with invariants.
- The entity, the deep-link record, the commands and the responses are datatypes.

Everything outside the project's code is a parameter:

- `Uri.TryCreate` with `Uri.Scheme` is a function from text to an optional scheme.
- Each clock read is an `Instant` (an integer).
- `Guid.NewGuid()` is a `Guid` (a natural number).
- `RandomNumberGenerator.Fill` is the sequence of random byte draws.

`ShortUrl.cs` as shipped has only the three-argument `Create`, no `DeepLinks` property and no `ResolveTarget`. Yet `CreateShortUrlHandler.cs`, `ResolveShortUrlHandler.cs` and the tests call a four-argument `Create`, read `DeepLinks` and call `ResolveTarget`. The model follows the callers:

- `ShortUrls.Create` takes optional deep links; the three-argument form is the case `None`.
- `ShortUrl.ResolveTarget` is reconstructed from its caller (`ResolveShortUrlHandler.cs:27`) and the outcomes `ShortUrlTests.cs` expects. The order iOS, Android, desktop, fallback, original URL is this model's choice. The test outcomes are pinned as lemmas.
- Every property of the resolution handler is stated in terms of `ResolveTarget`.

## Model

| member | source | states |
|---|---|---|
| Text.AllWhiteSpace | src/UrlShortener.Domain/DeepLinkTargets.cs:10-13 | a string is white space iff every character is one of the code points `char.IsWhiteSpace` accepts (the empty string included) |
| Text.IsWhiteSpace | src/UrlShortener.Domain/DeepLinkTargets.cs:10-13 | `char.IsWhiteSpace`: U+0009..U+000D, space, U+0085, U+00A0, U+1680, U+2000..U+200A, U+2028, U+2029, U+202F, U+205F, U+3000; used through `AllWhiteSpace` and `VisibleChar` |
| Text.IsBlank | src/UrlShortener.Domain/DeepLinkTargets.cs:10-13 | `string.IsNullOrWhiteSpace`: null, or every character white space; `VisibleChar` states that a non-blank value has a visible character |
| Text.VisibleChar | src/UrlShortener.Domain/DeepLinkTargets.cs:10-13 | a value that is not null-or-white-space is present and has a non-white-space character |
| Text.Lower | src/UrlShortener.Api/Security/CreateShortUrlRequestValidator.cs:62-71 | invariant lower-casing on ASCII letters; its properties are stated by `LowerRules`, `LowerOfConcat` and `LowerOfSlice` |
| Text.LowerRules | src/UrlShortener.Api/Security/CreateShortUrlRequestValidator.cs:62-71 | folding keeps the length, maps each upper-case letter to its lower-case counterpart, leaves every other character unchanged, leaves no upper-case letter, and folding twice is folding once, so a comparison of folded strings is itself case-insensitive |
| Text.LowerOfConcat | src/UrlShortener.Api/Security/CreateShortUrlRequestValidator.cs:62-71 | folding a concatenation is the concatenation of the folded parts |
| Text.LowerOfSlice | src/UrlShortener.Api/Security/CreateShortUrlRequestValidator.cs:62-71 | folding commutes with taking a slice |
| Text.TrimEnd | src/UrlShortener.Application/Features/CreateShortUrl/CreateShortUrlHandler.cs:40 | `TrimEnd('/')` is a prefix of the input; only the trimmed character was removed; the result does not end with it |
| Text.ContainsMiddle | tests/UrlShortener.UnitTests/Domain/ShortUrlTests.cs:20-38 | a text built around a piece contains that piece; `IPhoneAgentIsIos` and `AndroidAgentIsAndroid` use it to classify the test agents |
| DeepLinks.DeepLinkTargets.HasAny | src/UrlShortener.Domain/DeepLinkTargets.cs:9-13 | some target is not null-or-white-space; its meaning is stated by `HasAnyIffSomeVisibleChar`, `BlankFieldCountsAsAbsent` and `AnyNonBlankFieldSuffices` |
| DeepLinks.HasAnyIffSomeVisibleChar | src/UrlShortener.Domain/DeepLinkTargets.cs:9-13 | `HasAny` holds iff some one of the four targets is present and has a non-white-space character |
| DeepLinks.BlankFieldCountsAsAbsent | src/UrlShortener.Domain/DeepLinkTargets.cs:9-13 | replacing any target by a null or white-space value does not change `HasAny` compared with nulling it |
| DeepLinks.AnyNonBlankFieldSuffices | src/UrlShortener.Domain/DeepLinkTargets.cs:9-13 | a single non-blank target, whichever field it is in, makes `HasAny` true |
| ShortUrls.Create | src/UrlShortener.Domain/ShortUrl.cs:18-24 | fails iff the code or the original URL is null or white space, the code guard first; on success every field is the argument given |
| ShortUrls.ShortUrl.IsExpired | src/UrlShortener.Domain/ShortUrl.cs:26 | expired iff an expiry is set and is at or before the given instant; stated through `ExpiryBoundary` and `ExpiryMonotone` |
| ShortUrls.ExpiryBoundary | src/UrlShortener.Domain/ShortUrl.cs:26 | a link is expired at its expiry instant but not one tick before; a link without expiry is never expired |
| ShortUrls.ExpiryMonotone | src/UrlShortener.Domain/ShortUrl.cs:26 | once expired, a link stays expired at every later instant |
| ShortUrls.FirstNonBlank | src/UrlShortener.Application/Features/ResolveShortUrl/ResolveShortUrlHandler.cs:27 | the result is the first candidate that is not blank; when every candidate is blank, the result is the default |
| ShortUrls.ShortUrl.ResolveTarget | src/UrlShortener.Application/Features/ResolveShortUrl/ResolveShortUrlHandler.cs:27 | the device-specific destination; what it chooses is stated by `ResolveTargetIsFirstEligible` and `ResolveTargetIsOriginalOrStoredLink` |
| ShortUrls.ResolveTargetIsFirstEligible | src/UrlShortener.Application/Features/ResolveShortUrl/ResolveShortUrlHandler.cs:27 | the target is the first non-blank of: iOS (iOS agents), Android (Android agents), desktop (agents that are neither), fallback; otherwise, or with no deep links, the original URL |
| ShortUrls.ResolveTargetIsOriginalOrStoredLink | src/UrlShortener.Application/Features/ResolveShortUrl/ResolveShortUrlHandler.cs:27 | a client is only ever sent to the original URL or to one of the link's own non-blank targets |
| ShortUrls.IsIosAgent | tests/UrlShortener.UnitTests/Domain/ShortUrlTests.cs:20 | the agent names an iPhone, iPad or iPod in any letter case; pinned on the test agents by `IPhoneAgentIsIos`, `AndroidAgentIsAndroidOnly`, `UnknownAgentIsNeither` |
| ShortUrls.IsAndroidAgent | tests/UrlShortener.UnitTests/Domain/ShortUrlTests.cs:38 | the agent names Android in any letter case; pinned on the test agents by the same lemmas |
| ShortUrls.AgentClassIgnoresCase | tests/UrlShortener.UnitTests/Domain/ShortUrlTests.cs:20-38 | folding the agent to lower case never changes its classification, and a missing agent is neither iOS nor Android |
| ShortUrls.IPhoneAgentIsIos | tests/UrlShortener.UnitTests/Domain/ShortUrlTests.cs:20 | the test's iPhone user agent is classified as iOS |
| ShortUrls.AndroidAgentIsAndroidOnly | tests/UrlShortener.UnitTests/Domain/ShortUrlTests.cs:38 | the test's Pixel user agent is Android and not iOS |
| ShortUrls.UnknownAgentIsNeither | tests/UrlShortener.UnitTests/Domain/ShortUrlTests.cs:58-59 | "UnknownAgent" is neither iOS nor Android |
| ShortUrls.IosAgentGetsIosTarget | tests/UrlShortener.UnitTests/Domain/ShortUrlTests.cs:7-23 | with all four targets, an iPhone agent is sent to the iOS target |
| ShortUrls.AndroidAgentGetsAndroidTarget | tests/UrlShortener.UnitTests/Domain/ShortUrlTests.cs:25-41 | with all four targets, an Android agent is sent to the Android target |
| ShortUrls.UnknownAgentGetsFallbackThenOriginal | tests/UrlShortener.UnitTests/Domain/ShortUrlTests.cs:43-60 | an unknown agent gets the fallback when only it is set, and the original URL when no target is set |
| InMemoryStore.Recorded | tests/UrlShortener.IntegrationTests/Support/InMemoryShortUrlRepository.cs:29-36 | the counters after one resolution; stated by `RecordedCountsOnce` and, repeated, by `RecordedTimesCountsN` |
| InMemoryStore.Bumped | tests/UrlShortener.IntegrationTests/Support/InMemoryShortUrlRepository.cs:29-36 | the new counter of a code is its previous total plus one (one for a first resolution) stamped with the resolution instant |
| InMemoryStore.AnalyticsOf | tests/UrlShortener.IntegrationTests/Support/InMemoryShortUrlRepository.cs:40-53 | analytics are never null: an unknown code reports zero and no timestamp, a known one its stored total and last instant |
| InMemoryStore.RecordedCountsOnce | tests/UrlShortener.IntegrationTests/Support/InMemoryShortUrlRepository.cs:29-36 | one resolution adds exactly one to its code's total, keeps every total positive and leaves every other code's counter as it was |
| InMemoryStore.RecordedTimesCountsN | tests/UrlShortener.IntegrationTests/Support/InMemoryShortUrlRepository.cs:29-36 | n resolutions of a code add exactly n to its total and, for n > 0, set its last resolution to that instant; the analytics of every other code are untouched |
| InMemoryStore.InMemoryShortUrlRepository.constructor | tests/UrlShortener.IntegrationTests/Support/InMemoryShortUrlRepository.cs:9-10 | both dictionaries start empty |
| InMemoryStore.InMemoryShortUrlRepository.CodeExists | tests/UrlShortener.IntegrationTests/Support/InMemoryShortUrlRepository.cs:12-13 | true iff a link is stored under the code, expired or not |
| InMemoryStore.InMemoryShortUrlRepository.Create | tests/UrlShortener.IntegrationTests/Support/InMemoryShortUrlRepository.cs:15-19 | the link is stored under its own code, replacing any previous one; counters are unchanged |
| InMemoryStore.InMemoryShortUrlRepository.GetByCode | tests/UrlShortener.IntegrationTests/Support/InMemoryShortUrlRepository.cs:21-25 | the stored link under the code, or null when there is none |
| InMemoryStore.InMemoryShortUrlRepository.RecordResolution | tests/UrlShortener.IntegrationTests/Support/InMemoryShortUrlRepository.cs:27-38 | the counters become those of one more resolution of the code; links are unchanged |
| InMemoryStore.InMemoryShortUrlRepository.GetAnalytics | tests/UrlShortener.IntegrationTests/Support/InMemoryShortUrlRepository.cs:40-53 | the analytics of the current counters, with the code echoed and the total reported |
| InMemoryStore.CreateThenGet | tests/UrlShortener.IntegrationTests/Support/InMemoryShortUrlRepository.cs:15-25 | a stored link is read back unchanged under its code |
| SecureCodeGeneration.Encode | src/UrlShortener.Application/Services/SecureShortCodeGenerator.cs:36-42 | a code has one character per random byte, and every character is in the alphabet |
| SecureCodeGeneration.UniqueCode | src/UrlShortener.Application/Services/SecureShortCodeGenerator.cs:16-29 | the retry loop's answer over the random draws; stated by `UniqueCodeIsFirstFree` |
| SecureCodeGeneration.UniqueCodeIsFirstFree | src/UrlShortener.Application/Services/SecureShortCodeGenerator.cs:16-29 | generation fails iff all eight candidates are taken; otherwise it answers the first candidate not taken, every earlier one being taken |
| SecureCodeGeneration.AlphabetRuns | src/UrlShortener.Application/Services/SecureShortCodeGenerator.cs:8 | the alphabet is the 24 upper-case letters without I and O, the 25 lower-case letters without l, and the 8 digits 2-9: 57 characters |
| SecureCodeGeneration.AlphabetChars | src/UrlShortener.Application/Services/SecureShortCodeGenerator.cs:8 | every alphabet character is an upper-case letter other than I and O, a lower-case letter other than l, or a digit 2-9 |
| SecureCodeGeneration.AlphabetIsDistinct | src/UrlShortener.Application/Services/SecureShortCodeGenerator.cs:8 | no character occurs twice in the alphabet, so distinct residues give distinct characters |
| SecureCodeGeneration.AlphabetIsUnambiguous | src/UrlShortener.Application/Services/SecureShortCodeGenerator.cs:8 | the alphabet has none of `0 O 1 l I` and no white space |
| SecureCodeGeneration.EncodedCodeIsNotBlank | src/UrlShortener.Application/Services/SecureShortCodeGenerator.cs:31-43 | a generated code of positive length passes the entity's non-blank guard |
| SecureCodeGeneration.SecureShortCodeGenerator.constructor | src/UrlShortener.Application/Services/SecureShortCodeGenerator.cs:11-14 | the generator keeps the repository it is given |
| SecureCodeGeneration.SecureShortCodeGenerator.GenerateUniqueCode | src/UrlShortener.Application/Services/SecureShortCodeGenerator.cs:16-29 | one to eight attempts; every earlier candidate was taken; success iff the last candidate is free, and then the code is that candidate, of the requested length; failure only after eight attempts |
| SecureCodeGeneration.SecureShortCodeGenerator.Generate | src/UrlShortener.Application/Services/SecureShortCodeGenerator.cs:31-43 | character i of the code is alphabet letter `bytes[i] % 57` |
| IncrementingCodeGeneration.Increment32 | tests/UrlShortener.IntegrationTests/Support/IncrementingShortCodeGenerator.cs:12 | `Interlocked.Increment` stays within 32 bits, wrapping from the maximum to the minimum; `Increment32IsWrappingIncrement` states that this is `n + 1` modulo 2^32 |
| IncrementingCodeGeneration.Increment32IsWrappingIncrement | tests/UrlShortener.IntegrationTests/Support/IncrementingShortCodeGenerator.cs:12 | the incremented value is congruent to `n + 1` modulo 2^32, and it is the only 32-bit value that is |
| IncrementingCodeGeneration.Format7 | tests/UrlShortener.IntegrationTests/Support/IncrementingShortCodeGenerator.cs:13 | the format "0000000": a minus sign for a negative value, then at least seven digits; stated through `CodeFor` |
| IncrementingCodeGeneration.CodeFor | tests/UrlShortener.IntegrationTests/Support/IncrementingShortCodeGenerator.cs:13 | `t` followed by the formatted counter; stated by `CodeRoundTrip`, `CodesAreDistinct`, `CodeLength` and `FirstCode` |
| IncrementingCodeGeneration.CodeRoundTrip | tests/UrlShortener.IntegrationTests/Support/IncrementingShortCodeGenerator.cs:13 | every code is `t`, an optional minus sign and at least seven digits, and reads back as the counter value it was formatted from, negative values included |
| IncrementingCodeGeneration.CodesAreDistinct | tests/UrlShortener.IntegrationTests/Support/IncrementingShortCodeGenerator.cs:12-13 | distinct counter values give distinct codes |
| IncrementingCodeGeneration.CodeLength | tests/UrlShortener.IntegrationTests/Support/IncrementingShortCodeGenerator.cs:10-13 | a code has 8 characters iff the counter is between 0 and 9,999,999 |
| IncrementingCodeGeneration.FirstCode | tests/UrlShortener.IntegrationTests/Support/IncrementingShortCodeGenerator.cs:13 | counter value 1 gives "t0000001" |
| IncrementingCodeGeneration.IncrementingShortCodeGenerator.constructor | tests/UrlShortener.IntegrationTests/Support/IncrementingShortCodeGenerator.cs:8 | the counter starts at zero with nothing issued |
| IncrementingCodeGeneration.IncrementingShortCodeGenerator.GenerateUniqueCode | tests/UrlShortener.IntegrationTests/Support/IncrementingShortCodeGenerator.cs:10-14 | the counter is incremented once (32-bit) and the code is the new value formatted; until the counter wraps, call i issued the code of i |
| IncrementingCodeGeneration.IssuedCodesAreDistinct | tests/UrlShortener.IntegrationTests/Support/IncrementingShortCodeGenerator.cs:12-13 | until the counter wraps, no code is issued twice |
| CreateShortUrl.IsWebUrl | src/UrlShortener.Application/Features/CreateShortUrl/CreateShortUrlHandler.cs:19-23 | absolute with scheme exactly `http` or `https` (ordinal); the handler rejects every other URL, as `Handle` states, and `AcceptedUrlPassesHandlerCheck` shows the validator's verdict implies it |
| CreateShortUrl.NormalizeDeepLinks | src/UrlShortener.Application/Features/CreateShortUrl/CreateShortUrlHandler.cs:26-32 | no deep links are kept iff the command has none or all four are blank; kept ones copy the three device targets and take the command's fallback, or the URL when the fallback is null; kept ones always have a target and a fallback |
| CreateShortUrl.BlankFallbackIsKept | src/UrlShortener.Application/Features/CreateShortUrl/CreateShortUrlHandler.cs:31 | the fallback default is `??`: a white-space fallback is kept as given |
| CreateShortUrl.ShortUrlString | src/UrlShortener.Application/Features/CreateShortUrl/CreateShortUrlHandler.cs:40 | the short URL is the base URL without trailing slashes, one slash, then the code |
| CreateShortUrl.ShortUrlStringExample | tests/UrlShortener.UnitTests/Application/CreateShortUrlHandlerTests.cs:24-28 | base "https://sho.rt" (with or without trailing slashes) and code "test1234" give "https://sho.rt/test1234" |
| CreateShortUrl.GenerateUniqueCode | src/UrlShortener.Application/Features/CreateShortUrl/CreateShortUrlHandler.cs:25 | each wired generator answers as its own contract says: the secure one the first free candidate, the counting one the incremented counter's code, the fixed one its code |
| CreateShortUrl.CreateShortUrlHandler.constructor | src/UrlShortener.Application/Features/CreateShortUrl/CreateShortUrlHandler.cs:11-15 | the handler keeps its generator and repository |
| CreateShortUrl.CreateShortUrlHandler.Handle | src/UrlShortener.Application/Features/CreateShortUrl/CreateShortUrlHandler.cs:17-50 | a URL that is not absolute http/https is rejected before the generator or store is touched; any failure stores nothing; success stores exactly one link under the generated code (eight characters from the secure generator, the counter's code from the counting one, the given code from the fixed one) and returns the code, the short URL, the creation time, the expiry and the stored deep links; a secure generator on the same store yields a code that was not taken |
| CreateShortUrl.DeepLinksProvidedScenario | tests/UrlShortener.UnitTests/Application/CreateShortUrlHandlerTests.cs:9-35 | with the fixed code and no fallback, the response has code "test1234", short URL "https://sho.rt/test1234", the iOS target, the URL as fallback, and the stored link has the same deep links |
| CreateShortUrl.ScriptUrlScenario | tests/UrlShortener.UnitTests/Application/CreateShortUrlHandlerTests.cs:37-48 | a `javascript:` URL is rejected and nothing is stored |
| ResolveShortUrl.ResolveShortUrlHandler.constructor | src/UrlShortener.Application/Features/ResolveShortUrl/ResolveShortUrlHandler.cs:9-12 | the handler keeps its repository |
| ResolveShortUrl.ResolveShortUrlHandler.HandleWithUserAgent | src/UrlShortener.Application/Features/ResolveShortUrl/ResolveShortUrlHandler.cs:17-28 | null iff the code is unknown or expired, and then nothing is recorded; otherwise exactly one resolution is recorded at the second clock read and the answer is the link's target for the agent; links never change |
| ResolveShortUrl.ResolveShortUrlHandler.Handle | src/UrlShortener.Application/Features/ResolveShortUrl/ResolveShortUrlHandler.cs:14-15 | the same with no user agent |
| ResolveShortUrl.BareIPhoneIsIos | tests/UrlShortener.UnitTests/Application/ResolveShortUrlHandlerTests.cs:20 | the agent "iPhone" is classified as iOS |
| ResolveShortUrl.EntityExistsScenario | tests/UrlShortener.UnitTests/Application/ResolveShortUrlHandlerTests.cs:9-24 | an iPhone agent resolving a link with only an iOS target gets that target, and exactly one resolution is recorded |
| ResolveShortUrl.EntityMissingScenario | tests/UrlShortener.UnitTests/Application/ResolveShortUrlHandlerTests.cs:26-36 | resolving an unknown code answers null and records nothing |
| ResolveShortUrl.CreateFirstLink | tests/UrlShortener.IntegrationTests/ApiEndpointsTests.cs:48-74 | creating one link through the handler with the counting generator on a fresh store gives the code of counter value 1, stored without expiry with the normalised deep links, and no counters yet |
| ResolveShortUrl.TwoResolutionsScenario | tests/UrlShortener.IntegrationTests/ApiEndpointsTests.cs:76-108 | a link created with the counting generator and resolved twice redirects both times and reports two resolutions under its code |
| ResolveShortUrl.IosRedirectScenario | tests/UrlShortener.IntegrationTests/ApiEndpointsTests.cs:48-74 | a link created with four targets and resolved by an iPhone agent redirects to the iOS target |
| RequestValidation.UrlError | src/UrlShortener.Api/Security/CreateShortUrlRequestValidator.cs:9-17 | the primary URL's error, if any; stated by `UrlErrorRules` |
| RequestValidation.UrlErrorRules | src/UrlShortener.Api/Security/CreateShortUrlRequestValidator.cs:9-17 | "URL is required." iff the URL is null or white space; "URL must be a valid HTTP/HTTPS absolute URL." iff it is not blank and not absolute with scheme exactly http or https; no other message |
| RequestValidation.FieldError | src/UrlShortener.Api/Security/CreateShortUrlRequestValidator.cs:49-75 | one deep-link field's error, if any; stated by `FieldErrorRules` |
| RequestValidation.FieldErrorRules | src/UrlShortener.Api/Security/CreateShortUrlRequestValidator.cs:49-75 | a blank target has no error; otherwise not absolute, then `javascript`/`data` in any case, then (browser targets only) a scheme other than http/https, each with its message; no error iff none applies |
| RequestValidation.Entry | src/UrlShortener.Api/Security/CreateShortUrlRequestValidator.cs:58 | an error is written as a one-message entry under its key; no error writes nothing |
| RequestValidation.DeepLinkErrors | src/UrlShortener.Api/Security/CreateShortUrlRequestValidator.cs:32-47 | the record's errors; stated by `DeepLinkErrorsShape` and `FieldErrorIsReported` |
| RequestValidation.DeepLinkErrorsShape | src/UrlShortener.Api/Security/CreateShortUrlRequestValidator.cs:32-47 | the "DeepLinks" key is present iff no target is non-blank, and then it is the only entry; otherwise only per-field keys; never the "Url" or "ExpiresAtUtc" key; each key one message |
| RequestValidation.ExpectedErrors | src/UrlShortener.Api/Security/CreateShortUrlRequestValidator.cs:5-30 | all errors of a request; stated by `ExpectedErrorsShape`, and `TryValidate` computes exactly it |
| RequestValidation.ExpectedErrorsShape | src/UrlShortener.Api/Security/CreateShortUrlRequestValidator.cs:5-30 | each key holds exactly one message; "Url" iff a URL error; "ExpiresAtUtc" iff an expiry at or before now; "DeepLinks" iff a present record with no non-blank target; without a record only the first two keys can appear |
| RequestValidation.ErrorDictionary.constructor | src/UrlShortener.Api/Security/CreateShortUrlRequestValidator.cs:7 | the dictionary starts empty |
| RequestValidation.ErrorDictionary.Set | src/UrlShortener.Api/Security/CreateShortUrlRequestValidator.cs:11 | an indexer assignment sets one key, overwriting it, and changes nothing else |
| RequestValidation.ValidateAbsoluteUri | src/UrlShortener.Api/Security/CreateShortUrlRequestValidator.cs:49-75 | the dictionary gains exactly the field's error, if any, under its key |
| RequestValidation.ValidateDeepLinks | src/UrlShortener.Api/Security/CreateShortUrlRequestValidator.cs:32-47 | the dictionary gains exactly the record's errors |
| RequestValidation.TryValidate | src/UrlShortener.Api/Security/CreateShortUrlRequestValidator.cs:5-30 | the errors are exactly those the rules prescribe, and the verdict is true iff the dictionary has no entry |
| RequestValidation.KeyNamesAreDistinct | src/UrlShortener.Api/Security/CreateShortUrlRequestValidator.cs:11-46 | the seven dictionary keys ("Url", "ExpiresAtUtc", "DeepLinks", "DeepLinks.IosUrl", …) are pairwise distinct strings |
| RequestValidation.FieldErrorIsReported | src/UrlShortener.Api/Security/CreateShortUrlRequestValidator.cs:43-46 | in a record with some target, each field's key is present iff that field fails its rule, holding exactly that message; only desktop and fallback need a web scheme |
| RequestValidation.EmptyDeepLinksReportOnlyTheRecord | src/UrlShortener.Api/Security/CreateShortUrlRequestValidator.cs:34-41 | an all-blank record reports the "DeepLinks" error and no per-field key |
| RequestValidation.BlankFieldHasNoError | src/UrlShortener.Api/Security/CreateShortUrlRequestValidator.cs:51-54 | a blank target never has an error of its own |
| RequestValidation.NonBlankFieldMakesRecordPresent | src/UrlShortener.Api/Security/CreateShortUrlRequestValidator.cs:34-41 | one non-blank target keeps the record past the emptiness check; proved from `DeepLinks.AnyNonBlankFieldSuffices` |
| RequestValidation.ForbiddenSchemeIsRefused | src/UrlShortener.Api/Security/CreateShortUrlRequestValidator.cs:62-67 | a `javascript` or `data` scheme, in any letter case and in any field, gives "URL scheme is not allowed." under that field |
| RequestValidation.CustomSchemeRules | src/UrlShortener.Api/Security/CreateShortUrlRequestValidator.cs:69-74 | a custom scheme such as `myapp` is accepted for the iOS and Android targets and refused with "URL must use HTTP or HTTPS." for desktop and fallback |
| RequestValidation.AcceptedUrlPassesHandlerCheck | src/UrlShortener.Api/Security/CreateShortUrlRequestValidator.cs:13-14 | a request with no URL error passes the creation handler's own URL check |
| RequestValidation.JavaScriptDeepLinkScenario | tests/UrlShortener.UnitTests/Api/CreateShortUrlRequestValidatorTests.cs:7-19 | a `javascript:` iOS target makes the request invalid, with the single error under "DeepLinks.IosUrl" |
| RequestValidation.EmptyDeepLinksScenario | tests/UrlShortener.UnitTests/Api/CreateShortUrlRequestValidatorTests.cs:21-33 | an all-null record makes the request invalid, with the single error under "DeepLinks" |
| RequestValidation.AppSchemeRequestScenario | tests/UrlShortener.IntegrationTests/ApiEndpointsTests.cs:22-46 | app-scheme iOS and Android targets with web desktop and fallback targets are valid |

## Left out

- ShortUrls.ShortUrl.ResolveTarget: `ShortUrl.cs` has no such method. Its body is reconstructed from its caller (`ResolveShortUrlHandler.cs:27`) and the outcomes `ShortUrlTests.cs` expects. The order iOS, Android, desktop, fallback, original URL is this model's choice, so claims about it hold for that reconstruction.
- ShortUrls.IsIosAgent: part of the same reconstruction, as is `IsAndroidAgent`. The classification is a case-insensitive substring test for the device names, a choice that only the test agents pin down.
- Text.Lower: folds ASCII letters only. `ToLowerInvariant` and `OrdinalIgnoreCase` also fold non-ASCII letters. This matters only for non-ASCII user agents and schemes.
- InMemoryStore.Bumped: the `long` total is an unbounded integer. The model does not wrap at 2^63 resolutions.
- SecureCodeGeneration.SecureShortCodeGenerator.GenerateUniqueCode: `length` is a natural number. A negative length, for which `stackalloc` throws, is not modelled; every caller passes 8. The cancellation token is left out.
- SecureCodeGeneration.Encode: the bytes are an input. No claim is made about randomness or uniformity. `% 57` over bytes is biased, because 256 = 4·57 + 28.
- The random delay before a null resolution is left out (`ResolveShortUrlHandler.cs:22`: `Random.Shared.Next(15, 45)`, so 15 to 44 ms). It is timing plumbing with no effect on results.
- IncrementingCodeGeneration.Format7: the minus sign is always `-`. .NET takes it from the current culture's `NumberFormatInfo.NegativeSign`. This matters only once the counter has wrapped, after 2^31 calls.
- Cancellation is left out everywhere: the handlers', repository's and generators' cancellation tokens, and the cancellable `Task.Delay`. Every modelled operation runs to completion.
- `Uri.TryCreate` and `Uri.Scheme` are foreign parsing. They are a parameter of type `string -> Option<string>`, and scheme comparisons follow the source: ordinal in the handler and for the primary URL, case-insensitive for deep-link targets.
- `DateTimeOffset.UtcNow` and `Guid.NewGuid()` are parameters. Time is an integer, compared only with `<=`. The resolution handler reads the clock twice, so it takes two instants.
- Concurrency is not modelled. `ConcurrentDictionary.AddOrUpdate` and `Interlocked.Increment` are sequential updates.
- The persistence adapters are not part of this model: PostgreSQL, MySQL, SQL Server, MongoDB (`MongoModels.cs` included) and Couchbase. They are queries run by a database or a driver, so upsert atomicity is database semantics.
- Wiring, HTTP routing, status codes, rate limiting, telemetry and configuration are not part of this model. This covers both `DependencyInjection.cs` files, `Program.cs`, `TestApiFactory.cs`, `BaseInstrumentedRepository.cs` and `DatabaseOptions.cs`.
- `GetAnalyticsHandler.cs` is left out. It forwards to the repository's `GetAnalyticsAsync`, which is modelled as `InMemoryShortUrlRepository.GetAnalytics`.
- The interfaces `IShortUrlRepository` and `IShortCodeGenerator` are not separate types:
  - the repository is the in-memory implementation;
  - the generator is a choice of the secure one, the counting one, or the unit tests' fixed code.
- The unit tests' capturing and stub repositories are replaced by the in-memory repository:
  - "the created entity" is read back from that repository;
  - "number of `RecordResolutionAsync` calls" is its resolution total.
- The command's, request's and response's deep-link records are the domain's `DeepLinkTargets` datatype. They have the same four optional fields. `DeepLinkTargetsCommand` is not part of this model. `CreateShortUrlHandler.cs:26` tests its `HasAny`, which the model takes to be the domain's test (some field not null-or-white-space, `DeepLinkTargets.cs:9-13`).
- The ASP.NET dictionary is keyed by strings. The model keys it by a datatype whose `KeyName` is the exact string, with the names proved distinct.
- The validator's messages are a datatype. `MessageText` gives each message's exact text.
