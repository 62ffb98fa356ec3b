/** The API's request validation
    (src/UrlShortener.Api/Security/CreateShortUrlRequestValidator.cs): one
    shared error dictionary, filled by the primary URL rule, the expiry rule
    and the deep-link rules, and a verdict that is true iff it stayed empty. */
module RequestValidation {
  import opened Wrappers
  import opened Text
  import opened Uris
  import opened DeepLinks
  import opened ShortUrls
  import CreateShortUrl

  /** The request body: the URL may be absent, and the deep-link record has
      the same four optional fields as the domain's. */
  datatype CreateShortUrlRequest = CreateShortUrlRequest(
    url: Option<string>,
    expiresAtUtc: Option<Instant>,
    deepLinks: Option<DeepLinkTargets>)

  /** The dictionary keys: `nameof` of the request's properties, with the
      deep-link fields prefixed by "DeepLinks.". */
  datatype ErrorKey = UrlKey | ExpiresAtUtcKey | DeepLinksKey | FieldKey(field: DeepLinkField)
  datatype DeepLinkField = IosUrl | AndroidUrl | DesktopUrl | FallbackUrl

  function KeyName(key: ErrorKey): string {
    match key
    case UrlKey => "Url"
    case ExpiresAtUtcKey => "ExpiresAtUtc"
    case DeepLinksKey => "DeepLinks"
    case FieldKey(IosUrl) => "DeepLinks.IosUrl"
    case FieldKey(AndroidUrl) => "DeepLinks.AndroidUrl"
    case FieldKey(DesktopUrl) => "DeepLinks.DesktopUrl"
    case FieldKey(FallbackUrl) => "DeepLinks.FallbackUrl"
  }

  type Errors = map<ErrorKey, seq<ErrorMessage>>

  /** The messages the validator writes, each with its exact text. */
  datatype ErrorMessage =
    | UrlRequired | UrlNotWeb | ExpiryInPast | NoDeepLinkTarget
    | NotAbsolute | SchemeNotAllowed | SchemeNotWeb

  function MessageText(m: ErrorMessage): string {
    match m
    case UrlRequired => "URL is required."
    case UrlNotWeb => "URL must be a valid HTTP/HTTPS absolute URL."
    case ExpiryInPast => "Expiration date must be in the future."
    case NoDeepLinkTarget => "At least one deep link target must be provided when deepLinks is set."
    case NotAbsolute => "Value must be a valid absolute URL."
    case SchemeNotAllowed => "URL scheme is not allowed."
    case SchemeNotWeb => "URL must use HTTP or HTTPS."
  }

  /** The error, if any, of the primary URL. */
  function UrlError(url: Option<string>, parse: UriParser): Option<ErrorMessage> {
    if IsBlank(url) then Some(UrlRequired)
    else
      var scheme := parse(url.value);
      if scheme.None? || (scheme.value != "http" && scheme.value != "https") then Some(UrlNotWeb)
      else None
  }

  /** The two URL errors are exclusive: "required" exactly for a blank URL,
      "not a web URL" exactly for a non-blank one that is not absolute with
      the scheme http or https (compared ordinally). */
  lemma UrlErrorRules(url: Option<string>, parse: UriParser)
    ensures UrlError(url, parse) == Some(UrlRequired) <==> IsBlank(url)
    ensures UrlError(url, parse) == Some(UrlNotWeb) <==>
      !IsBlank(url) && (parse(url.value).None? || (parse(url.value).value != "http" && parse(url.value).value != "https"))
    ensures UrlError(url, parse).Some? ==> UrlError(url, parse) in {Some(UrlRequired), Some(UrlNotWeb)}
  {
  }

  /** A scheme that the validator refuses in every deep-link field. */
  predicate IsForbiddenScheme(scheme: string) {
    EqualsIgnoreCase(scheme, "javascript") || EqualsIgnoreCase(scheme, "data")
  }

  predicate IsWebScheme(scheme: string) {
    EqualsIgnoreCase(scheme, "http") || EqualsIgnoreCase(scheme, "https")
  }

  /** The error, if any, of one deep-link field. */
  function FieldError(url: Option<string>, requireWebScheme: bool, parse: UriParser): Option<ErrorMessage> {
    if IsBlank(url) then None
    else
      var scheme := parse(url.value);
      if scheme.None? then Some(NotAbsolute)
      else if IsForbiddenScheme(scheme.value) then Some(SchemeNotAllowed)
      else if requireWebScheme && !IsWebScheme(scheme.value) then Some(SchemeNotWeb)
      else None
  }

  /** A blank field has no error; otherwise the first failing rule gives the
      message: not absolute, then a forbidden scheme, then (when a web scheme
      is required) a scheme other than http or https. */
  lemma FieldErrorRules(url: Option<string>, requireWebScheme: bool, parse: UriParser)
    ensures var e := FieldError(url, requireWebScheme, parse);
      && (IsBlank(url) ==> e.None?)
      && (!IsBlank(url) && parse(url.value).None? ==> e == Some(NotAbsolute))
      && (!IsBlank(url) && parse(url.value).Some? ==>
            (e == Some(SchemeNotAllowed) <==> IsForbiddenScheme(parse(url.value).value)))
      && (!IsBlank(url) && parse(url.value).Some? && !IsForbiddenScheme(parse(url.value).value) ==>
            (e == Some(SchemeNotWeb) <==> requireWebScheme && !IsWebScheme(parse(url.value).value)))
      && (e.None? <==> IsBlank(url) || (parse(url.value).Some? && !IsForbiddenScheme(parse(url.value).value)
                                        && (requireWebScheme ==> IsWebScheme(parse(url.value).value))))
  {
  }

  function FieldOf(d: DeepLinkTargets, field: DeepLinkField): Option<string> {
    match field
    case IosUrl => d.iosUrl
    case AndroidUrl => d.androidUrl
    case DesktopUrl => d.desktopUrl
    case FallbackUrl => d.fallbackUrl
  }

  /** Desktop and fallback targets open in a browser; the app targets may
      use a custom scheme. */
  predicate RequiresWebScheme(field: DeepLinkField) {
    field == DesktopUrl || field == FallbackUrl
  }

  /** The one-entry dictionary of an error under a key, or the empty one. */
  function Entry(key: ErrorKey, e: Option<ErrorMessage>): (m: Errors)
    ensures key in m <==> e.Some?
    ensures m.Keys <= {key}
    ensures e.Some? ==> m[key] == [e.value]
  {
    if e.Some? then map[key := [e.value]] else map[]
  }

  /** What a present deep-link record adds: the emptiness error alone, or one
      entry per field that fails its rule. Only desktop and fallback must be
      web URLs. */
  function DeepLinkErrors(d: DeepLinkTargets, parse: UriParser): Errors {
    if !d.HasAny() then map[DeepLinksKey := [NoDeepLinkTarget]]
    else
      (Entry(FieldKey(IosUrl), FieldError(d.iosUrl, false, parse))
       + Entry(FieldKey(AndroidUrl), FieldError(d.androidUrl, false, parse))
       + Entry(FieldKey(DesktopUrl), FieldError(d.desktopUrl, true, parse))
       + Entry(FieldKey(FallbackUrl), FieldError(d.fallbackUrl, true, parse)))
  }

  /** A record's errors use only its own keys, one message each, and the
      emptiness error excludes every other. */
  lemma DeepLinkErrorsShape(d: DeepLinkTargets, parse: UriParser)
    ensures var errors := DeepLinkErrors(d, parse);
      && UrlKey !in errors && ExpiresAtUtcKey !in errors
      && (forall key :: key in errors ==> |errors[key]| == 1)
      && (DeepLinksKey in errors <==> !d.HasAny())
      && (DeepLinksKey in errors ==> errors == map[DeepLinksKey := [NoDeepLinkTarget]])
  {
    if d.HasAny() {
      var ios := Entry(FieldKey(IosUrl), FieldError(d.iosUrl, false, parse));
      var android := Entry(FieldKey(AndroidUrl), FieldError(d.androidUrl, false, parse));
      var desktop := Entry(FieldKey(DesktopUrl), FieldError(d.desktopUrl, true, parse));
      var fallback := Entry(FieldKey(FallbackUrl), FieldError(d.fallbackUrl, true, parse));
      var errors := ios + android + desktop + fallback;
      assert DeepLinkErrors(d, parse) == errors;
      assert errors.Keys <= {FieldKey(IosUrl), FieldKey(AndroidUrl), FieldKey(DesktopUrl), FieldKey(FallbackUrl)};
    }
  }

  /** The dictionary `TryValidate` builds. */
  function ExpectedErrors(request: CreateShortUrlRequest, nowUtc: Instant, parse: UriParser): Errors {
    Entry(UrlKey, UrlError(request.url, parse))
      + (if request.expiresAtUtc.Some? && request.expiresAtUtc.value <= nowUtc
         then map[ExpiresAtUtcKey := [ExpiryInPast]] else map[])
      + (if request.deepLinks.Some? then DeepLinkErrors(request.deepLinks.value, parse) else map[])
  }

  /** Each key holds exactly one message; the URL, expiry and emptiness
      errors appear exactly when their rules fail; without a deep-link record
      only the URL and expiry keys can appear. */
  lemma ExpectedErrorsShape(request: CreateShortUrlRequest, nowUtc: Instant, parse: UriParser)
    ensures var errors := ExpectedErrors(request, nowUtc, parse);
      && (forall key :: key in errors ==> |errors[key]| == 1)
      && (UrlKey in errors <==> UrlError(request.url, parse).Some?)
      && (UrlKey in errors ==> errors[UrlKey] == [UrlError(request.url, parse).value])
      && (ExpiresAtUtcKey in errors <==> request.expiresAtUtc.Some? && request.expiresAtUtc.value <= nowUtc)
      && (ExpiresAtUtcKey in errors ==> errors[ExpiresAtUtcKey] == [ExpiryInPast])
      && (DeepLinksKey in errors <==> request.deepLinks.Some? && !request.deepLinks.value.HasAny())
      && (DeepLinksKey in errors ==> errors[DeepLinksKey] == [NoDeepLinkTarget])
      && (request.deepLinks.None? ==> errors.Keys <= {UrlKey, ExpiresAtUtcKey})
  {
    if request.deepLinks.Some? {
      DeepLinkErrorsShape(request.deepLinks.value, parse);
    }
  }

  /** The `Dictionary<string, string[]>` the helpers write into. */
  class ErrorDictionary {
    var entries: Errors

    constructor ()
      ensures entries == map[]
    {
      entries := map[];
    }

    /** `errors[key] = messages`. */
    method Set(key: ErrorKey, messages: seq<ErrorMessage>)
      modifies this
      ensures entries == old(entries)[key := messages]
    {
      entries := entries[key := messages];
    }
  }

  /** `ValidateAbsoluteUri`: a blank field is skipped; otherwise the first
      failing rule writes its message under `key`. */
  method ValidateAbsoluteUri(url: Option<string>, key: ErrorKey, requireWebScheme: bool,
                             parse: UriParser, errors: ErrorDictionary)
    modifies errors
    ensures errors.entries == old(errors.entries) + Entry(key, FieldError(url, requireWebScheme, parse))
  {
    if IsBlank(url) {
      return;
    }
    var scheme := parse(url.value);
    if scheme.None? {
      errors.Set(key, [NotAbsolute]);
      return;
    }
    if EqualsIgnoreCase(scheme.value, "javascript") || EqualsIgnoreCase(scheme.value, "data") {
      errors.Set(key, [SchemeNotAllowed]);
      return;
    }
    if requireWebScheme && !EqualsIgnoreCase(scheme.value, "http") && !EqualsIgnoreCase(scheme.value, "https") {
      errors.Set(key, [SchemeNotWeb]);
    }
  }

  /** `ValidateDeepLinks`: the emptiness error ends the check; otherwise each
      field is checked under its own key. */
  method ValidateDeepLinks(deepLinks: DeepLinkTargets, parse: UriParser, errors: ErrorDictionary)
    modifies errors
    ensures errors.entries == old(errors.entries) + DeepLinkErrors(deepLinks, parse)
  {
    if IsBlank(deepLinks.iosUrl) && IsBlank(deepLinks.androidUrl)
       && IsBlank(deepLinks.desktopUrl) && IsBlank(deepLinks.fallbackUrl) {
      errors.Set(DeepLinksKey, [NoDeepLinkTarget]);
      return;
    }
    ghost var before := errors.entries;
    ghost var ios := Entry(FieldKey(IosUrl), FieldError(deepLinks.iosUrl, false, parse));
    ghost var android := Entry(FieldKey(AndroidUrl), FieldError(deepLinks.androidUrl, false, parse));
    ghost var desktop := Entry(FieldKey(DesktopUrl), FieldError(deepLinks.desktopUrl, true, parse));
    ghost var fallback := Entry(FieldKey(FallbackUrl), FieldError(deepLinks.fallbackUrl, true, parse));
    ValidateAbsoluteUri(deepLinks.iosUrl, FieldKey(IosUrl), false, parse, errors);
    ValidateAbsoluteUri(deepLinks.androidUrl, FieldKey(AndroidUrl), false, parse, errors);
    UnionAssociates(before, ios, android);
    ValidateAbsoluteUri(deepLinks.desktopUrl, FieldKey(DesktopUrl), true, parse, errors);
    UnionAssociates(before, ios + android, desktop);
    ValidateAbsoluteUri(deepLinks.fallbackUrl, FieldKey(FallbackUrl), true, parse, errors);
    UnionAssociates(before, ios + android + desktop, fallback);
  }

  lemma UnionAssociates(m: Errors, a: Errors, b: Errors)
    ensures m + a + b == m + (a + b)
  {
  }

  /** `TryValidate`, with `DateTimeOffset.UtcNow` as `nowUtc`: the errors
      found and whether there were none. */
  method TryValidate(request: CreateShortUrlRequest, nowUtc: Instant, parse: UriParser)
    returns (valid: bool, errors: Errors)
    ensures errors == ExpectedErrors(request, nowUtc, parse)
    ensures valid <==> |errors| == 0
  {
    var dictionary := new ErrorDictionary();
    ghost var urlPart := Entry(UrlKey, UrlError(request.url, parse));
    ghost var expiryPart: Errors := if request.expiresAtUtc.Some? && request.expiresAtUtc.value <= nowUtc
                                    then map[ExpiresAtUtcKey := [ExpiryInPast]] else map[];
    if IsBlank(request.url) {
      dictionary.Set(UrlKey, [UrlRequired]);
    } else {
      var scheme := parse(request.url.value);
      if scheme.None? || (scheme.value != "http" && scheme.value != "https") {
        dictionary.Set(UrlKey, [UrlNotWeb]);
      }
    }
    assert dictionary.entries == urlPart;
    if request.expiresAtUtc.Some? && request.expiresAtUtc.value <= nowUtc {
      dictionary.Set(ExpiresAtUtcKey, [ExpiryInPast]);
    }
    assert dictionary.entries == urlPart + expiryPart;
    ghost var linkPart := if request.deepLinks.Some? then DeepLinkErrors(request.deepLinks.value, parse) else map[];
    assert ExpectedErrors(request, nowUtc, parse) == urlPart + expiryPart + linkPart;
    if request.deepLinks.Some? {
      ValidateDeepLinks(request.deepLinks.value, parse, dictionary);
    } else {
      assert urlPart + expiryPart + linkPart == urlPart + expiryPart;
    }
    assert dictionary.entries == ExpectedErrors(request, nowUtc, parse);
    errors := dictionary.entries;
    valid := |errors| == 0;
  }

  /** The seven key names are distinct, so the datatype keys are the
      dictionary's string keys. */
  lemma KeyNamesAreDistinct(a: ErrorKey, b: ErrorKey)
    ensures KeyName(a) == KeyName(b) <==> a == b
  {
    if a != b {
      var x, y := KeyName(a), KeyName(b);
      if |x| == |y| && |x| == 20 {
        assert x[10] != y[10];
      }
    }
  }

  /** A present record with some target reports each field under its own
      key, by that field's rule. */
  lemma FieldErrorIsReported(request: CreateShortUrlRequest, nowUtc: Instant, parse: UriParser, field: DeepLinkField)
    requires request.deepLinks.Some? && request.deepLinks.value.HasAny()
    ensures var errors := ExpectedErrors(request, nowUtc, parse);
      var e := FieldError(FieldOf(request.deepLinks.value, field), RequiresWebScheme(field), parse);
      && (FieldKey(field) in errors <==> e.Some?)
      && (FieldKey(field) in errors ==> errors[FieldKey(field)] == [e.value])
  {
    var d := request.deepLinks.value;
    var front := Entry(UrlKey, UrlError(request.url, parse))
               + (if request.expiresAtUtc.Some? && request.expiresAtUtc.value <= nowUtc
                  then map[ExpiresAtUtcKey := [ExpiryInPast]] else map[]);
    assert FieldKey(field) !in front;
    assert ExpectedErrors(request, nowUtc, parse) == front + DeepLinkErrors(d, parse);
    DeepLinkFieldEntry(d, parse, field);
  }

  lemma DeepLinkFieldEntry(d: DeepLinkTargets, parse: UriParser, field: DeepLinkField)
    requires d.HasAny()
    ensures var e := FieldError(FieldOf(d, field), RequiresWebScheme(field), parse);
      && (FieldKey(field) in DeepLinkErrors(d, parse) <==> e.Some?)
      && (FieldKey(field) in DeepLinkErrors(d, parse) ==> DeepLinkErrors(d, parse)[FieldKey(field)] == [e.value])
  {
    var ios := Entry(FieldKey(IosUrl), FieldError(d.iosUrl, false, parse));
    var android := Entry(FieldKey(AndroidUrl), FieldError(d.androidUrl, false, parse));
    var desktop := Entry(FieldKey(DesktopUrl), FieldError(d.desktopUrl, true, parse));
    var fallback := Entry(FieldKey(FallbackUrl), FieldError(d.fallbackUrl, true, parse));
    assert DeepLinkErrors(d, parse) == ios + android + desktop + fallback;
    match field
    case IosUrl =>
      assert FieldKey(field) !in android && FieldKey(field) !in desktop && FieldKey(field) !in fallback;
    case AndroidUrl =>
      assert FieldKey(field) !in desktop && FieldKey(field) !in fallback;
    case DesktopUrl =>
      assert FieldKey(field) !in fallback;
    case FallbackUrl =>
  }

  /** A record whose targets are all blank gets the emptiness error and no
      per-field error. */
  lemma EmptyDeepLinksReportOnlyTheRecord(request: CreateShortUrlRequest, nowUtc: Instant, parse: UriParser)
    requires request.deepLinks.Some? && !request.deepLinks.value.HasAny()
    ensures var errors := ExpectedErrors(request, nowUtc, parse);
      && errors[DeepLinksKey] == [NoDeepLinkTarget]
      && forall field :: FieldKey(field) !in errors
  {
  }

  /** A blank target never has an error of its own. */
  lemma BlankFieldHasNoError(request: CreateShortUrlRequest, nowUtc: Instant, parse: UriParser, field: DeepLinkField)
    requires request.deepLinks.Some? && IsBlank(FieldOf(request.deepLinks.value, field))
    ensures FieldKey(field) !in ExpectedErrors(request, nowUtc, parse)
  {
    if request.deepLinks.value.HasAny() {
      FieldErrorIsReported(request, nowUtc, parse, field);
    }
  }

  /** Every target is checked for non-blankness before `HasAny` is consulted,
      so a non-blank field alone makes the record count as present: the
      field-indexed form of `AnyNonBlankFieldSuffices`. */
  lemma NonBlankFieldMakesRecordPresent(d: DeepLinkTargets, field: DeepLinkField)
    requires !IsBlank(FieldOf(d, field))
    ensures d.HasAny()
  {
    var s := FieldOf(d, field).value;
    AnyNonBlankFieldSuffices(d, s);
    match field
    case IosUrl => assert d.(iosUrl := Some(s)) == d;
    case AndroidUrl => assert d.(androidUrl := Some(s)) == d;
    case DesktopUrl => assert d.(desktopUrl := Some(s)) == d;
    case FallbackUrl => assert d.(fallbackUrl := Some(s)) == d;
  }

  /** `javascript` and `data`, in any letter case, are refused in every field. */
  lemma ForbiddenSchemeIsRefused(request: CreateShortUrlRequest, nowUtc: Instant, parse: UriParser,
                                 field: DeepLinkField, scheme: string)
    requires request.deepLinks.Some?
    requires !IsBlank(FieldOf(request.deepLinks.value, field))
    requires parse(FieldOf(request.deepLinks.value, field).value) == Some(scheme)
    requires IsForbiddenScheme(scheme)
    ensures ExpectedErrors(request, nowUtc, parse)[FieldKey(field)] == [SchemeNotAllowed]
  {
    NonBlankFieldMakesRecordPresent(request.deepLinks.value, field);
    FieldErrorIsReported(request, nowUtc, parse, field);
  }

  /** A custom scheme that is not forbidden is accepted for the app targets
      and refused for the browser targets. */
  lemma CustomSchemeRules(request: CreateShortUrlRequest, nowUtc: Instant, parse: UriParser,
                          field: DeepLinkField, scheme: string)
    requires request.deepLinks.Some?
    requires !IsBlank(FieldOf(request.deepLinks.value, field))
    requires parse(FieldOf(request.deepLinks.value, field).value) == Some(scheme)
    requires !IsForbiddenScheme(scheme) && !IsWebScheme(scheme)
    ensures var errors := ExpectedErrors(request, nowUtc, parse);
      && (RequiresWebScheme(field) ==> errors[FieldKey(field)] == [SchemeNotWeb])
      && (!RequiresWebScheme(field) ==> FieldKey(field) !in errors)
  {
    NonBlankFieldMakesRecordPresent(request.deepLinks.value, field);
    FieldErrorIsReported(request, nowUtc, parse, field);
  }

  /** A request without a URL error passes the creation handler's own URL
      check, so the handler's `ArgumentException` is unreachable from the API. */
  lemma AcceptedUrlPassesHandlerCheck(request: CreateShortUrlRequest, nowUtc: Instant, parse: UriParser)
    requires UrlKey !in ExpectedErrors(request, nowUtc, parse)
    ensures request.url.Some? && !IsBlank(request.url)
    ensures CreateShortUrl.IsWebUrl(parse, request.url.value)
  {
  }

  /** The unit test with a `javascript:` iOS target. */
  method JavaScriptDeepLinkScenario(nowUtc: Instant, parse: UriParser)
    returns (valid: bool, errors: Errors)
    requires parse("https://example.com") == Some("https")
    requires parse("javascript:alert(1)") == Some("javascript")
    ensures !valid
    ensures errors == map[FieldKey(IosUrl) := [SchemeNotAllowed]]
    ensures KeyName(FieldKey(IosUrl)) == "DeepLinks.IosUrl"
  {
    var script := "javascript:alert(1)";
    assert !IsWhiteSpace(script[0]);
    assert !IsBlank(Some(script));
    assert IsForbiddenScheme("javascript");
    var links := DeepLinkTargets(Some(script), None, None, None);
    var request := CreateShortUrlRequest(Some("https://example.com"), None, Some(links));
    assert !IsWhiteSpace("https://example.com"[0]);
    assert UrlError(request.url, parse) == None;
    assert FieldError(links.iosUrl, false, parse) == Some(SchemeNotAllowed);
    var expected := map[FieldKey(IosUrl) := [SchemeNotAllowed]];
    assert DeepLinkErrors(links, parse) == expected;
    assert ExpectedErrors(request, nowUtc, parse) == expected;
    valid, errors := TryValidate(request, nowUtc, parse);
    assert |errors| == 1;
  }

  /** The unit test with an empty deep-link record. */
  method EmptyDeepLinksScenario(nowUtc: Instant, parse: UriParser)
    returns (valid: bool, errors: Errors)
    requires parse("https://example.com") == Some("https")
    ensures !valid
    ensures errors == map[DeepLinksKey := [NoDeepLinkTarget]]
    ensures KeyName(DeepLinksKey) == "DeepLinks"
  {
    var links := DeepLinkTargets(None, None, None, None);
    var request := CreateShortUrlRequest(Some("https://example.com"), None, Some(links));
    assert !IsWhiteSpace("https://example.com"[0]);
    assert UrlError(request.url, parse) == None;
    var expected := map[DeepLinksKey := [NoDeepLinkTarget]];
    assert DeepLinkErrors(links, parse) == expected;
    assert ExpectedErrors(request, nowUtc, parse) == expected;
    valid, errors := TryValidate(request, nowUtc, parse);
    assert |errors| == 1;
  }

  /** The integration test's request: custom-scheme app targets and web
      desktop and fallback targets are accepted. */
  method AppSchemeRequestScenario(nowUtc: Instant, parse: UriParser)
    returns (valid: bool, errors: Errors)
    requires parse("https://example.com/fallback") == Some("https")
    requires parse("https://example.com/product/42") == Some("https")
    requires parse("myapp://product/42") == Some("myapp")
    ensures valid && errors == map[]
  {
    var fallback := "https://example.com/fallback";
    var desktop := "https://example.com/product/42";
    var app := "myapp://product/42";
    assert !IsWhiteSpace(fallback[0]) && !IsWhiteSpace(desktop[0]) && !IsWhiteSpace(app[0]);
    assert !IsBlank(Some(fallback)) && !IsBlank(Some(desktop)) && !IsBlank(Some(app));
    assert !IsForbiddenScheme("myapp") && !IsForbiddenScheme("https") && IsWebScheme("https");
    var links := DeepLinkTargets(Some(app), Some(app), Some(desktop), Some(fallback));
    var request := CreateShortUrlRequest(Some(fallback), None, Some(links));
    assert UrlError(request.url, parse) == None;
    assert FieldError(links.iosUrl, false, parse) == None;
    assert FieldError(links.desktopUrl, true, parse) == None;
    assert FieldError(links.fallbackUrl, true, parse) == None;
    assert DeepLinkErrors(links, parse) == map[];
    assert ExpectedErrors(request, nowUtc, parse) == map[];
    valid, errors := TryValidate(request, nowUtc, parse);
  }
}
