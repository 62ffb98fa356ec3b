/** The creation flow
    (src/UrlShortener.Application/Features/CreateShortUrl/CreateShortUrlHandler.cs):
    re-check the URL, ask the generator for an eight-character code,
    normalise the deep links, persist once and answer with the short URL. */
module CreateShortUrl {
  import opened Wrappers
  import opened Text
  import opened Uris
  import opened DeepLinks
  import opened ShortUrls
  import InMemoryStore
  import SecureCodeGeneration
  import IncrementingCodeGeneration

  /** The length the handler asks every generator for. */
  const CodeLength: nat := 8

  /** The command, with the optional deep-link record that the handler reads. */
  datatype CreateShortUrlCommand = CreateShortUrlCommand(
    url: string,
    expiresAtUtc: Option<Instant>,
    deepLinks: Option<DeepLinkTargets>)

  datatype CreateShortUrlResponse = CreateShortUrlResponse(
    code: string,
    shortUrl: string,
    createdAtUtc: Instant,
    expiresAtUtc: Option<Instant>,
    deepLinks: Option<DeepLinkTargets>)

  /** What the handler throws: the `ArgumentException` for the URL, the
      generator's exhaustion, and the entity factory's guard failures. */
  datatype CreateFailure = InvalidUrl | GenerationFailed | EntityRejected(reason: CreateError)

  /** An absolute URI whose scheme is exactly "http" or "https" (ordinal). */
  predicate IsWebUrl(parse: UriParser, url: string) {
    parse(url).Some? && (parse(url).value == "http" || parse(url).value == "https")
  }

  /** The deep links stored with a new link: none unless the command has a
      target that is not blank; otherwise the command's four fields with a
      null fallback replaced by the URL itself. */
  function NormalizeDeepLinks(deepLinks: Option<DeepLinkTargets>, url: string)
    : (r: Option<DeepLinkTargets>)
    ensures r.None? <==> deepLinks.None? || !deepLinks.value.HasAny()
    ensures r.Some? ==> && r.value.HasAny() && r.value.fallbackUrl.Some?
                        && r.value.iosUrl == deepLinks.value.iosUrl
                        && r.value.androidUrl == deepLinks.value.androidUrl
                        && r.value.desktopUrl == deepLinks.value.desktopUrl
    ensures r.Some? && deepLinks.value.fallbackUrl.Some? ==> r.value.fallbackUrl == deepLinks.value.fallbackUrl
    ensures r.Some? && deepLinks.value.fallbackUrl.None? ==> r.value.fallbackUrl == Some(url)
  {
    if deepLinks.Some? && deepLinks.value.HasAny() then
      var d := deepLinks.value;
      Some(DeepLinkTargets(d.iosUrl, d.androidUrl, d.desktopUrl,
                           if d.fallbackUrl.Some? then d.fallbackUrl else Some(url)))
    else None
  }

  /** The fallback default is `??`, not a blank test: a white-space
      fallback is kept as given. */
  lemma BlankFallbackIsKept(d: DeepLinkTargets, url: string, blank: string)
    requires d.HasAny() && d.fallbackUrl == Some(blank) && AllWhiteSpace(blank)
    ensures NormalizeDeepLinks(Some(d), url) == Some(d)
  {
  }

  /** `$"{baseUrl.TrimEnd('/')}/{code}"`: the base without its trailing
      slashes, one slash, the code. */
  function ShortUrlString(baseUrl: string, code: string): (r: string)
    ensures |r| >= |code| + 1
    ensures var base := r[..|r| - |code| - 1];
      && base <= baseUrl
      && (base == [] || base[|base| - 1] != '/')
      && (forall i :: |base| <= i < |baseUrl| ==> baseUrl[i] == '/')
      && r[|base|..] == "/" + code
  {
    TrimEnd(baseUrl, '/') + "/" + code
  }

  /** The unit test's base URL and code. */
  lemma ShortUrlStringExample()
    ensures ShortUrlString("https://sho.rt", "test1234") == "https://sho.rt/test1234"
    ensures ShortUrlString("https://sho.rt//", "test1234") == "https://sho.rt/test1234"
  {
    var slashed := "https://sho.rt//";
    assert slashed[..|slashed| - 1] == "https://sho.rt/";
    assert slashed[..|slashed| - 1][..|slashed| - 2] == "https://sho.rt";
  }

  /** The code generators the handler can be wired with: the production
      generator, the integration tests' counter, and the unit tests' fixed
      code. */
  datatype ShortCodeGenerator =
    | Secure(secure: SecureCodeGeneration.SecureShortCodeGenerator)
    | Incrementing(incrementing: IncrementingCodeGeneration.IncrementingShortCodeGenerator)
    | Fixed(fixedCode: string)

  /** The objects a generator changes when asked for a code. */
  function GeneratorState(g: ShortCodeGenerator): set<object> {
    if g.Incrementing? then {g.incrementing} else {}
  }

  ghost predicate GeneratorReady(g: ShortCodeGenerator, randomDraws: seq<seq<SecureCodeGeneration.byte>>, length: nat)
    reads if g.Incrementing? then {g.incrementing} else {}
  {
    && (g.Incrementing? ==> g.incrementing.Valid())
    && (g.Secure? ==> SecureCodeGeneration.RandomDraws(randomDraws, length))
  }

  /** `IShortCodeGenerator.GenerateUniqueCodeAsync`, dispatched on the wired
      generator. */
  method GenerateUniqueCode(g: ShortCodeGenerator, length: nat, randomDraws: seq<seq<SecureCodeGeneration.byte>>)
    returns (code: Result<string, SecureCodeGeneration.GenerationError>)
    requires GeneratorReady(g, randomDraws, length)
    modifies GeneratorState(g)
    ensures g.Incrementing? ==>
      && g.incrementing.Valid()
      && g.incrementing.counter == IncrementingCodeGeneration.Increment32(old(g.incrementing.counter))
      && code == Ok(IncrementingCodeGeneration.CodeFor(g.incrementing.counter))
      && g.incrementing.issued == old(g.incrementing.issued) + [code.value]
    ensures g.Secure? ==>
      && code == SecureCodeGeneration.UniqueCode(randomDraws, g.secure.repository.urls.Keys)
      && (code.Ok? ==> |code.value| == length)
      && (code.Ok? && length > 0 ==> !IsBlank(Some(code.value)))
    ensures g.Fixed? ==> code == Ok(g.fixedCode)
  {
    match g
    case Secure(secure) =>
      var attempts;
      code, attempts := secure.GenerateUniqueCode(length, randomDraws);
      if code.Ok? && length > 0 {
        SecureCodeGeneration.EncodedCodeIsNotBlank(randomDraws[attempts - 1]);
      }
    case Incrementing(incrementing) =>
      var c := incrementing.GenerateUniqueCode(length);
      code := Ok(c);
    case Fixed(fixedCode) =>
      code := Ok(fixedCode);
  }

  class CreateShortUrlHandler {
    const codeGenerator: ShortCodeGenerator
    const repository: InMemoryStore.InMemoryShortUrlRepository

    constructor (codeGenerator: ShortCodeGenerator, repository: InMemoryStore.InMemoryShortUrlRepository)
      ensures this.codeGenerator == codeGenerator && this.repository == repository
    {
      this.codeGenerator := codeGenerator;
      this.repository := repository;
    }

    /** `HandleAsync`. `id` and `nowUtc` are the new entity's `Guid.NewGuid()`
        and `DateTimeOffset.UtcNow`; `randomDraws` is what the production
        generator reads from the random source. */
    method Handle(command: CreateShortUrlCommand, baseUrl: string, parse: UriParser,
                  randomDraws: seq<seq<SecureCodeGeneration.byte>>, id: Guid, nowUtc: Instant)
      returns (response: Result<CreateShortUrlResponse, CreateFailure>)
      requires repository.Valid()
      requires GeneratorReady(codeGenerator, randomDraws, CodeLength)
      modifies repository, GeneratorState(codeGenerator)
      ensures repository.Valid()
      ensures codeGenerator.Incrementing? ==> codeGenerator.incrementing.Valid()
      // An invalid URL is rejected before the generator or the store is used.
      ensures !IsWebUrl(parse, command.url) ==>
        response == Err(InvalidUrl) && unchanged(repository) && unchanged(GeneratorState(codeGenerator))
      // Nothing is stored unless a response is returned.
      ensures response.Err? ==> unchanged(repository)
      ensures response.Ok? ==> IsWebUrl(parse, command.url)
      // One link is stored, under the generated code, and the response mirrors it.
      ensures response.Ok? ==>
        var code := response.value.code;
        var entity := ShortUrl(id, code, command.url, nowUtc, command.expiresAtUtc,
                               NormalizeDeepLinks(command.deepLinks, command.url));
        && repository.urls == old(repository.urls)[code := entity]
        && repository.analytics == old(repository.analytics)
        && response.value == CreateShortUrlResponse(code, ShortUrlString(baseUrl, code), nowUtc,
                                                    command.expiresAtUtc, entity.deepLinks)
      // The code is the generator's answer to a request for eight characters.
      ensures codeGenerator.Secure? && IsWebUrl(parse, command.url) ==>
        var generated := SecureCodeGeneration.UniqueCode(randomDraws, old(codeGenerator.secure.repository.urls).Keys);
        && (generated.Err? ==> response == Err(GenerationFailed))
        && (generated.Ok? ==>
              && |generated.value| == CodeLength
              && (response.Ok? <==> !IsBlank(Some(command.url)))
              && (response.Ok? ==> response.value.code == generated.value))
      ensures codeGenerator.Secure? && codeGenerator.secure.repository == repository && response.Ok? ==>
        response.value.code !in old(repository.urls)
      ensures codeGenerator.Incrementing? && IsWebUrl(parse, command.url) ==>
        && codeGenerator.incrementing.counter == IncrementingCodeGeneration.Increment32(old(codeGenerator.incrementing.counter))
        && (response.Ok? <==> !IsBlank(Some(command.url)))
        && (response.Ok? ==> response.value.code == IncrementingCodeGeneration.CodeFor(codeGenerator.incrementing.counter))
      ensures codeGenerator.Fixed? && IsWebUrl(parse, command.url) ==>
        && (response.Ok? <==> !IsBlank(Some(codeGenerator.fixedCode)) && !IsBlank(Some(command.url)))
        && (response.Ok? ==> response.value.code == codeGenerator.fixedCode)
    {
      var scheme := parse(command.url);
      if scheme.None? || (scheme.value != "http" && scheme.value != "https") {
        return Err(InvalidUrl);
      }

      ghost var takenBefore := if codeGenerator.Secure? then codeGenerator.secure.repository.urls.Keys else {};
      var generated := GenerateUniqueCode(codeGenerator, CodeLength, randomDraws);
      if generated.Err? {
        return Err(GenerationFailed);
      }
      var code := generated.value;
      if codeGenerator.Incrementing? {
        assert !IsWhiteSpace(code[0]);
      }
      if codeGenerator.Secure? {
        SecureCodeGeneration.UniqueCodeIsFirstFree(randomDraws, takenBefore);
      }

      var deepLinks := NormalizeDeepLinks(command.deepLinks, command.url);
      var entity := ShortUrls.Create(id, nowUtc, code, command.url, command.expiresAtUtc, deepLinks);
      if entity.Err? {
        return Err(EntityRejected(entity.error));
      }
      var e := entity.value;

      repository.Create(e);

      var responseLinks := if e.deepLinks.None? then None
        else Some(DeepLinkTargets(e.deepLinks.value.iosUrl, e.deepLinks.value.androidUrl,
                                  e.deepLinks.value.desktopUrl, e.deepLinks.value.fallbackUrl));
      response := Ok(CreateShortUrlResponse(e.code, ShortUrlString(baseUrl, e.code), e.createdAtUtc,
                                            e.expiresAtUtc, responseLinks));
    }
  }

  /** The unit test with deep links and no fallback: the fixed code, the
      short URL, and the URL as the stored and returned fallback. */
  method DeepLinksProvidedScenario(parse: UriParser, id: Guid, nowUtc: Instant)
    returns (response: Result<CreateShortUrlResponse, CreateFailure>, stored: Option<ShortUrl>)
    requires parse("https://example.com/product/42") == Some("https")
    ensures response.Ok?
    ensures response.value.code == "test1234"
    ensures response.value.shortUrl == "https://sho.rt/test1234"
    ensures response.value.deepLinks.Some?
    ensures response.value.deepLinks.value.iosUrl == Some("myapp://product/42")
    ensures response.value.deepLinks.value.fallbackUrl == Some("https://example.com/product/42")
    ensures stored.Some? && stored.value.deepLinks == response.value.deepLinks
  {
    var repository := new InMemoryStore.InMemoryShortUrlRepository();
    var handler := new CreateShortUrlHandler(Fixed("test1234"), repository);
    var url := "https://example.com/product/42";
    var appLink := "myapp://product/42";
    var code := "test1234";
    assert !IsWhiteSpace(url[0]) && !IsWhiteSpace(appLink[0]) && !IsWhiteSpace(code[0]);
    assert !IsBlank(Some(url)) && !IsBlank(Some(appLink)) && !IsBlank(Some(code));
    var links := DeepLinkTargets(Some(appLink), Some(appLink), Some(url), None);
    assert links.HasAny();
    var command := CreateShortUrlCommand(url, None, Some(links));
    assert NormalizeDeepLinks(command.deepLinks, url) == Some(links.(fallbackUrl := Some(url)));
    ShortUrlStringExample();
    response := handler.Handle(command, "https://sho.rt", parse, [], id, nowUtc);
    stored := repository.GetByCode("test1234");
  }

  /** The unit test with a `javascript:` URL: rejected, nothing stored. */
  method ScriptUrlScenario(parse: UriParser, id: Guid, nowUtc: Instant)
    returns (response: Result<CreateShortUrlResponse, CreateFailure>, stored: Option<ShortUrl>)
    requires parse("javascript:alert(1)") == Some("javascript")
    ensures response == Err(InvalidUrl)
    ensures stored == None
  {
    var repository := new InMemoryStore.InMemoryShortUrlRepository();
    var handler := new CreateShortUrlHandler(Fixed("test1234"), repository);
    response := handler.Handle(CreateShortUrlCommand("javascript:alert(1)", None, None),
                               "https://sho.rt", parse, [], id, nowUtc);
    stored := repository.GetByCode("test1234");
  }
}
