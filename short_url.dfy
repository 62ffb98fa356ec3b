/** The short-URL entity (src/UrlShortener.Domain/ShortUrl.cs) and the
    analytics view (src/UrlShortener.Domain/ShortUrlAnalytics.cs). The entity's
    properties have private setters and nothing assigns them after
    construction, so it is a datatype: a value that never changes. */
module ShortUrls {
  import opened Wrappers
  import opened Text
  import opened DeepLinks

  /** `Guid.NewGuid()`, supplied by the caller. */
  type Guid = nat
  /** A `DateTimeOffset`, as an integer instant; only `<=` is used. */
  type Instant = int

  datatype ShortUrl = ShortUrl(
    id: Guid,
    code: string,
    originalUrl: string,
    createdAtUtc: Instant,
    expiresAtUtc: Option<Instant>,
    deepLinks: Option<DeepLinkTargets>)
  {
    /** Expired once an expiry is set and has been reached. */
    predicate IsExpired(nowUtc: Instant) {
      expiresAtUtc.Some? && expiresAtUtc.value <= nowUtc
    }

    /** The destination for a client, by the priority chain iOS, Android,
        desktop (only for a client that is neither), fallback, original URL.
        ShortUrl.cs has no such method. The body is reconstructed from its
        caller (ResolveShortUrlHandler.cs:27) and the outcomes ShortUrlTests.cs
        expects; the order of the chain is this model's choice. */
    function ResolveTarget(userAgent: Option<string>): string {
      match deepLinks
      case None => originalUrl
      case Some(d) =>
        var ios := IsIosAgent(userAgent);
        var android := IsAndroidAgent(userAgent);
        if ios && !IsBlank(d.iosUrl) then d.iosUrl.value
        else if android && !IsBlank(d.androidUrl) then d.androidUrl.value
        else if !ios && !android && !IsBlank(d.desktopUrl) then d.desktopUrl.value
        else if !IsBlank(d.fallbackUrl) then d.fallbackUrl.value
        else originalUrl
    }
  }

  /** The user agent names an iPhone, iPad or iPod, in any letter case. */
  predicate IsIosAgent(userAgent: Option<string>) {
    userAgent.Some? &&
    var ua := Lower(userAgent.value);
    Contains(ua, "iphone") || Contains(ua, "ipad") || Contains(ua, "ipod")
  }

  /** The user agent names Android, in any letter case. */
  predicate IsAndroidAgent(userAgent: Option<string>) {
    userAgent.Some? && Contains(Lower(userAgent.value), "android")
  }

  /** The classification ignores letter case: folding the agent first
      changes nothing, and without an agent the client is neither kind. */
  lemma AgentClassIgnoresCase(userAgent: string)
    ensures IsIosAgent(Some(Lower(userAgent))) == IsIosAgent(Some(userAgent))
    ensures IsAndroidAgent(Some(Lower(userAgent))) == IsAndroidAgent(Some(userAgent))
    ensures !IsIosAgent(None) && !IsAndroidAgent(None)
  {
    LowerRules(userAgent);
  }

  /** The `ArgumentException`s thrown by `Create`, by parameter name. */
  datatype CreateError = CodeRequired | OriginalUrlRequired

  /** `ShortUrl.Create`: guard checks, then construction. `id` and
      `createdAtUtc` are the property initialisers' `Guid.NewGuid()` and
      `DateTimeOffset.UtcNow`. The three-argument form of the source is the
      case `deepLinks == None`. */
  function Create(id: Guid, createdAtUtc: Instant, code: string, originalUrl: string,
                  expiresAtUtc: Option<Instant>, deepLinks: Option<DeepLinkTargets>)
    : (r: Result<ShortUrl, CreateError>)
    ensures r.Err? <==> IsBlank(Some(code)) || IsBlank(Some(originalUrl))
    ensures IsBlank(Some(code)) ==> r == Err(CodeRequired)
    ensures !IsBlank(Some(code)) && IsBlank(Some(originalUrl)) ==> r == Err(OriginalUrlRequired)
    ensures r.Ok? ==> && r.value.id == id && r.value.code == code
                      && r.value.originalUrl == originalUrl && r.value.createdAtUtc == createdAtUtc
                      && r.value.expiresAtUtc == expiresAtUtc && r.value.deepLinks == deepLinks
  {
    if IsBlank(Some(code)) then Err(CodeRequired)
    else if IsBlank(Some(originalUrl)) then Err(OriginalUrlRequired)
    else Ok(ShortUrl(id, code, originalUrl, createdAtUtc, expiresAtUtc, deepLinks))
  }

  /** Reaching the expiry instant already counts as expired, one tick
      before does not, and a link without expiry never expires. */
  lemma ExpiryBoundary(s: ShortUrl, t: Instant)
    ensures s.expiresAtUtc == Some(t) ==> s.IsExpired(t) && !s.IsExpired(t - 1)
    ensures s.expiresAtUtc.None? ==> !s.IsExpired(t)
  {
  }

  /** Once expired, a link stays expired. */
  lemma ExpiryMonotone(s: ShortUrl, t: Instant, t': Instant)
    requires s.IsExpired(t) && t <= t'
    ensures s.IsExpired(t')
  {
  }

  /** The first candidate that is not blank, or `default` when every
      candidate is blank. */
  function FirstNonBlank(candidates: seq<Option<string>>, default: string): (r: string)
    ensures r == default ||
      exists i :: 0 <= i < |candidates| && !IsBlank(candidates[i]) && candidates[i].value == r
    ensures (forall i :: 0 <= i < |candidates| ==> IsBlank(candidates[i])) ==> r == default
    ensures forall k ::
      (0 <= k < |candidates| && !IsBlank(candidates[k]) && forall j :: 0 <= j < k ==> IsBlank(candidates[j]))
      ==> r == candidates[k].value
  {
    if candidates == [] then default
    else if !IsBlank(candidates[0]) then candidates[0].value
    else
      var rest := candidates[1..];
      assert forall k :: 1 <= k < |candidates| ==> candidates[k] == rest[k - 1];
      FirstNonBlank(rest, default)
  }

  /** The targets a client may be sent to, in priority order. */
  function Candidates(d: DeepLinkTargets, userAgent: Option<string>): seq<Option<string>> {
    var ios := IsIosAgent(userAgent);
    var android := IsAndroidAgent(userAgent);
    (if ios then [d.iosUrl] else [])
      + (if android then [d.androidUrl] else [])
      + (if !ios && !android then [d.desktopUrl] else [])
      + [d.fallbackUrl]
  }

  lemma FirstOfTwo(x: Option<string>, y: Option<string>, default: string)
    ensures FirstNonBlank([x, y], default) ==
      if !IsBlank(x) then x.value else if !IsBlank(y) then y.value else default
  {
    assert [x, y][1..] == [y] && [y][1..] == [];
  }

  lemma FirstOfThree(x: Option<string>, y: Option<string>, z: Option<string>, default: string)
    ensures FirstNonBlank([x, y, z], default) ==
      if !IsBlank(x) then x.value else FirstNonBlank([y, z], default)
  {
    assert [x, y, z][1..] == [y, z];
  }

  /** `ResolveTarget` is the first non-blank eligible target, the original
      URL when there is none, and the original URL when no set is stored. */
  lemma ResolveTargetIsFirstEligible(s: ShortUrl, userAgent: Option<string>)
    ensures s.deepLinks.None? ==> s.ResolveTarget(userAgent) == s.originalUrl
    ensures s.deepLinks.Some? ==>
      s.ResolveTarget(userAgent) == FirstNonBlank(Candidates(s.deepLinks.value, userAgent), s.originalUrl)
  {
    if s.deepLinks.Some? {
      var d, o := s.deepLinks.value, s.originalUrl;
      var ios, android := IsIosAgent(userAgent), IsAndroidAgent(userAgent);
      if ios && android {
        assert Candidates(d, userAgent) == [d.iosUrl, d.androidUrl, d.fallbackUrl];
        FirstOfThree(d.iosUrl, d.androidUrl, d.fallbackUrl, o);
        FirstOfTwo(d.androidUrl, d.fallbackUrl, o);
      } else if ios {
        assert Candidates(d, userAgent) == [d.iosUrl, d.fallbackUrl];
        FirstOfTwo(d.iosUrl, d.fallbackUrl, o);
      } else if android {
        assert Candidates(d, userAgent) == [d.androidUrl, d.fallbackUrl];
        FirstOfTwo(d.androidUrl, d.fallbackUrl, o);
      } else {
        assert Candidates(d, userAgent) == [d.desktopUrl, d.fallbackUrl];
        FirstOfTwo(d.desktopUrl, d.fallbackUrl, o);
      }
    }
  }

  /** Whatever the client, the destination is the original URL or one of the
      stored targets that is not blank. */
  lemma ResolveTargetIsOriginalOrStoredLink(s: ShortUrl, userAgent: Option<string>)
    ensures var r := s.ResolveTarget(userAgent);
      r == s.originalUrl ||
      (s.deepLinks.Some? && exists f :: f in s.deepLinks.value.Fields() && !IsBlank(f) && f.value == r)
  {
    ResolveTargetIsFirstEligible(s, userAgent);
    if s.deepLinks.Some? {
      var cs := Candidates(s.deepLinks.value, userAgent);
      assert forall i :: 0 <= i < |cs| ==> cs[i] in s.deepLinks.value.Fields();
    }
  }

  /** The four targets of the first two domain tests. */
  function AllFourTargets(): DeepLinkTargets {
    DeepLinkTargets(Some("myapp://ios/42"), Some("myapp://android/42"),
                    Some("https://example.com/desktop"), Some("https://example.com/fallback"))
  }

  /** The domain tests' iPhone agent, "Mozilla/5.0 (iPhone; CPU iPhone OS
      17_0 like Mac OS X)", written around its device name. */
  const IPhoneAgent := "Mozilla/5.0 (" + "iPhone" + "; CPU iPhone OS 17_0 like Mac OS X)"
  const AndroidAgent := "Mozilla/5.0 (Linux; Android 14; Pixel 8)"

  lemma IPhoneAgentIsIos()
    ensures IsIosAgent(Some(IPhoneAgent))
  {
    var before, after := "Mozilla/5.0 (", "; CPU iPhone OS 17_0 like Mac OS X)";
    LowerOfConcat(before + "iPhone", after);
    LowerOfConcat(before, "iPhone");
    assert Lower("iPhone") == "iphone";
    ContainsMiddle(Lower(before), "iphone", Lower(after));
  }

  lemma AndroidAgentIsNotIos()
    ensures !IsIosAgent(Some(AndroidAgent))
  {
    var s := "Mozilla/5.0 (Linux; Android 14; Pixel 8)";
    assert s == AndroidAgent;
    var ua := Lower(s);
    forall k | 0 <= k < |ua| - 1 ensures ua[k] != 'i' || ua[k + 1] != 'p' {
      assert ua[k] == LowerChar(s[k]);
    }
    NoAdjacentPairNoMatch(ua, "iphone");
    NoAdjacentPairNoMatch(ua, "ipad");
    NoAdjacentPairNoMatch(ua, "ipod");
  }

  /** The Pixel agent, cut around its device name. */
  lemma AndroidAgentParts()
    ensures AndroidAgent == "Mozilla/5.0 (Linux; " + "Android" + " 14; Pixel 8)"
  {
  }

  lemma AndroidAgentIsAndroid()
    ensures IsAndroidAgent(Some(AndroidAgent))
  {
    var before, after := "Mozilla/5.0 (Linux; ", " 14; Pixel 8)";
    AndroidAgentParts();
    LowerOfConcat(before + "Android", after);
    LowerOfConcat(before, "Android");
    assert Lower("Android") == "android";
    ContainsMiddle(Lower(before), "android", Lower(after));
  }

  lemma AndroidAgentIsAndroidOnly()
    ensures !IsIosAgent(Some(AndroidAgent)) && IsAndroidAgent(Some(AndroidAgent))
  {
    AndroidAgentIsNotIos();
    AndroidAgentIsAndroid();
  }

  lemma UnknownAgentIsNeither()
    ensures !IsIosAgent(Some("UnknownAgent")) && !IsAndroidAgent(Some("UnknownAgent"))
  {
    var s := "UnknownAgent";
    var ua := Lower(s);
    forall k | 0 <= k < |ua| ensures ua[k] != 'i' {
      assert ua[k] == LowerChar(s[k]);
    }
    MissingFirstCharNoMatch(ua, "iphone");
    MissingFirstCharNoMatch(ua, "ipad");
    MissingFirstCharNoMatch(ua, "ipod");
    forall k | 0 <= k < |ua| - 1 ensures ua[k] != 'a' || ua[k + 1] != 'n' {
      assert ua[k] == LowerChar(s[k]);
    }
    NoAdjacentPairNoMatch(ua, "android");
  }

  /** An iPhone user agent with all four targets set gets the iOS target. */
  lemma IosAgentGetsIosTarget(id: Guid, now: Instant)
    ensures var r := Create(id, now, "abc12345", "https://example.com/web", None, Some(AllFourTargets()));
      r.Ok? && r.value.ResolveTarget(Some(IPhoneAgent)) == "myapp://ios/42"
  {
    IPhoneAgentIsIos();
    assert !IsWhiteSpace('a') && !IsWhiteSpace('h') && !IsWhiteSpace('m');
  }

  /** An Android user agent with all four targets set gets the Android target. */
  lemma AndroidAgentGetsAndroidTarget(id: Guid, now: Instant)
    ensures var r := Create(id, now, "abc12345", "https://example.com/web", None, Some(AllFourTargets()));
      r.Ok? && r.value.ResolveTarget(Some(AndroidAgent)) == "myapp://android/42"
  {
    AndroidAgentIsAndroidOnly();
    assert !IsWhiteSpace('a') && !IsWhiteSpace('h') && !IsWhiteSpace('m');
  }

  /** An unknown agent gets the fallback when only the fallback is set, and
      the original URL when no target is set. */
  lemma UnknownAgentGetsFallbackThenOriginal(id1: Guid, id2: Guid, now: Instant)
    ensures var withFallback := Create(id1, now, "code-1", "https://example.com/original", None,
                                       Some(DeepLinkTargets(None, None, None, Some("https://example.com/fallback"))));
      withFallback.Ok? && withFallback.value.ResolveTarget(Some("UnknownAgent")) == "https://example.com/fallback"
    ensures var withoutFallback := Create(id2, now, "code-2", "https://example.com/original", None,
                                          Some(DeepLinkTargets(None, None, None, None)));
      withoutFallback.Ok? && withoutFallback.value.ResolveTarget(Some("UnknownAgent")) == "https://example.com/original"
  {
    UnknownAgentIsNeither();
    assert !IsWhiteSpace('c') && !IsWhiteSpace('h');
  }

  /** `GetAnalyticsAsync`'s answer: the resolution count of a code and when it
      was last resolved. */
  datatype ShortUrlAnalytics = ShortUrlAnalytics(
    code: string,
    totalResolutions: int,
    lastResolvedAtUtc: Option<Instant>)
}
