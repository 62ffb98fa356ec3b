/** The resolution flow
    (src/UrlShortener.Application/Features/ResolveShortUrl/ResolveShortUrlHandler.cs):
    look the code up, answer null for a missing or expired link, otherwise
    count the resolution and answer the device-specific target. */
module ResolveShortUrl {
  import opened Wrappers
  import opened Text
  import opened Uris
  import opened DeepLinks
  import opened ShortUrls
  import opened InMemoryStore
  import IncrementingCodeGeneration
  import CreateShortUrl

  class ResolveShortUrlHandler {
    const repository: InMemoryShortUrlRepository

    constructor (repository: InMemoryShortUrlRepository)
      ensures this.repository == repository
    {
      this.repository := repository;
    }

    /** `HandleAsync(code, userAgent)`. The handler reads the clock twice:
        `checkedAtUtc` is the instant of the expiry test and `resolvedAtUtc`
        the instant that is recorded. */
    method HandleWithUserAgent(code: string, userAgent: Option<string>,
                               checkedAtUtc: Instant, resolvedAtUtc: Instant)
      returns (target: Option<string>)
      requires repository.Valid()
      modifies repository
      ensures repository.Valid()
      ensures repository.urls == old(repository.urls)
      ensures target.None? <==> code !in repository.urls || repository.urls[code].IsExpired(checkedAtUtc)
      ensures target.None? ==> repository.analytics == old(repository.analytics)
      ensures target.Some? ==>
        && target.value == repository.urls[code].ResolveTarget(userAgent)
        && repository.analytics == Recorded(old(repository.analytics), code, resolvedAtUtc)
    {
      var shortUrl := repository.GetByCode(code);
      if shortUrl.None? || shortUrl.value.IsExpired(checkedAtUtc) {
        return None;
      }
      repository.RecordResolution(code, resolvedAtUtc);
      target := Some(shortUrl.value.ResolveTarget(userAgent));
    }

    /** `HandleAsync(code)`: resolution without a user agent. */
    method Handle(code: string, checkedAtUtc: Instant, resolvedAtUtc: Instant)
      returns (target: Option<string>)
      requires repository.Valid()
      modifies repository
      ensures repository.Valid()
      ensures repository.urls == old(repository.urls)
      ensures target.None? <==> code !in repository.urls || repository.urls[code].IsExpired(checkedAtUtc)
      ensures target.None? ==> repository.analytics == old(repository.analytics)
      ensures target.Some? ==>
        && target.value == repository.urls[code].ResolveTarget(None)
        && repository.analytics == Recorded(old(repository.analytics), code, resolvedAtUtc)
    {
      target := HandleWithUserAgent(code, None, checkedAtUtc, resolvedAtUtc);
    }
  }

  /** The unit tests' agent string. */
  lemma BareIPhoneIsIos()
    ensures IsIosAgent(Some("iPhone"))
  {
    var s := "iPhone";
    var ua := Lower(s);
    forall j | 0 <= j < 6 ensures ua[j] == "iphone"[j] {
      assert ua[j] == LowerChar(s[j]);
    }
    assert ua[0..6] == "iphone";
    assert MatchAt(ua, "iphone", 0);
  }

  /** The unit test with a stored link: the iOS target, one recorded
      resolution. */
  method EntityExistsScenario(id: Guid, createdAtUtc: Instant, nowUtc: Instant)
    returns (target: Option<string>, analytics: ShortUrlAnalytics)
    ensures target == Some("myapp://ios/42")
    ensures analytics.totalResolutions == 1 && analytics.lastResolvedAtUtc == Some(nowUtc)
  {
    var created := Create(id, createdAtUtc, "abc12345", "https://example.com/original", None,
                          Some(DeepLinkTargets(Some("myapp://ios/42"), None, None, None)));
    assert !IsWhiteSpace('a') && !IsWhiteSpace('h') && !IsWhiteSpace('m');
    var repository := new InMemoryShortUrlRepository();
    repository.Create(created.value);
    var handler := new ResolveShortUrlHandler(repository);
    BareIPhoneIsIos();
    target := handler.HandleWithUserAgent("abc12345", Some("iPhone"), nowUtc, nowUtc);
    analytics := repository.GetAnalytics("abc12345");
  }

  /** The unit test with no stored link: null, and nothing recorded. */
  method EntityMissingScenario(nowUtc: Instant)
    returns (target: Option<string>, analytics: ShortUrlAnalytics)
    ensures target == None
    ensures analytics.totalResolutions == 0 && analytics.lastResolvedAtUtc == None
  {
    var repository := new InMemoryShortUrlRepository();
    var handler := new ResolveShortUrlHandler(repository);
    target := handler.HandleWithUserAgent("missing", Some("iPhone"), nowUtc, nowUtc);
    analytics := repository.GetAnalytics("missing");
  }

  /** The integration tests' set-up: a fresh store and an incrementing
      generator, and one link without expiry created through the creation
      handler with base URL `http://localhost`. */
  method CreateFirstLink(parse: UriParser, url: string, links: DeepLinkTargets,
                         id: Guid, createdAtUtc: Instant)
    returns (repository: InMemoryShortUrlRepository, code: string)
    requires parse(url) == Some("https") && !IsBlank(Some(url))
    ensures fresh(repository) && repository.Valid()
    ensures code == IncrementingCodeGeneration.CodeFor(1) && code in repository.urls
    ensures repository.urls[code].expiresAtUtc.None?
    ensures repository.urls[code].deepLinks == CreateShortUrl.NormalizeDeepLinks(Some(links), url)
    ensures repository.analytics == map[]
  {
    repository := new InMemoryShortUrlRepository();
    var generator := new IncrementingCodeGeneration.IncrementingShortCodeGenerator();
    var createHandler := new CreateShortUrl.CreateShortUrlHandler(CreateShortUrl.Incrementing(generator), repository);
    var command := CreateShortUrl.CreateShortUrlCommand(url, None, Some(links));
    var response := createHandler.Handle(command, "http://localhost", parse, [], id, createdAtUtc);
    code := response.value.code;
  }

  /** The analytics integration test: one link with an Android target,
      resolved twice with an Android agent, counts two resolutions and
      remembers the second instant. */
  method TwoResolutionsScenario(parse: UriParser, id: Guid, createdAtUtc: Instant,
                                first: Instant, second: Instant)
    returns (code: string, targets: seq<Option<string>>, analytics: ShortUrlAnalytics)
    requires parse("https://example.com/main") == Some("https")
    ensures code == IncrementingCodeGeneration.CodeFor(1)
    ensures |targets| == 2 && targets[0].Some? && targets[1].Some?
    ensures analytics.code == code && analytics.totalResolutions == 2
    ensures analytics.lastResolvedAtUtc == Some(second)
  {
    var url := "https://example.com/main";
    assert !IsWhiteSpace(url[0]);
    var links := DeepLinkTargets(None, Some("myapp://android/42"), None, None);
    var repository;
    repository, code := CreateFirstLink(parse, url, links, id, createdAtUtc);
    var resolveHandler := new ResolveShortUrlHandler(repository);
    var agent := "Mozilla/5.0 (Linux; Android 14)";
    var t1 := resolveHandler.HandleWithUserAgent(code, Some(agent), first, first);
    var t2 := resolveHandler.HandleWithUserAgent(code, Some(agent), second, second);
    targets := [t1, t2];
    analytics := repository.GetAnalytics(code);
  }

  /** The integration test with all four targets and an iPhone agent: the
      redirect goes to the iOS deep link. */
  method IosRedirectScenario(parse: UriParser, id: Guid, createdAtUtc: Instant, nowUtc: Instant)
    returns (target: Option<string>)
    requires parse("https://example.com/fallback") == Some("https")
    ensures target == Some("myapp://ios/42")
  {
    var url := "https://example.com/fallback";
    var iosLink := "myapp://ios/42";
    assert !IsWhiteSpace(url[0]) && !IsWhiteSpace(iosLink[0]);
    assert !IsBlank(Some(url)) && !IsBlank(Some(iosLink));
    var links := DeepLinkTargets(Some(iosLink), Some("myapp://android/42"),
                                 Some("https://example.com/desktop/42"), Some(url));
    assert links.HasAny();
    var repository, code := CreateFirstLink(parse, url, links, id, createdAtUtc);
    var resolveHandler := new ResolveShortUrlHandler(repository);
    IPhoneAgentIsIos();
    target := resolveHandler.HandleWithUserAgent(code, Some(IPhoneAgent), nowUtc, nowUtc);
  }

}
