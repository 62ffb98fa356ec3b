/** The storage contract's in-memory implementation
    (tests/UrlShortener.IntegrationTests/Support/InMemoryShortUrlRepository.cs):
    one dictionary of links keyed by code, one dictionary of resolution
    counters keyed by code. The concurrent dictionaries are modelled as
    maps updated one call at a time. */
module InMemoryStore {
  import opened Wrappers
  import opened ShortUrls

  /** The private `AnalyticsCounter` record. */
  datatype AnalyticsCounter = AnalyticsCounter(totalResolutions: int, lastResolvedAtUtc: Instant)

  /** The number of resolutions recorded for `code` (0 when none). */
  function TotalOf(analytics: map<string, AnalyticsCounter>, code: string): int {
    if code in analytics then analytics[code].totalResolutions else 0
  }

  /** The counter `RecordResolutionAsync` leaves for `code`: a new counter
      at 1 for an unseen code, otherwise the old one plus 1; either way the
      last resolution instant is `resolvedAtUtc`. */
  function Bumped(analytics: map<string, AnalyticsCounter>, code: string, resolvedAtUtc: Instant)
    : (c: AnalyticsCounter)
    ensures c.totalResolutions == TotalOf(analytics, code) + 1
    ensures c.lastResolvedAtUtc == resolvedAtUtc
  {
    if code in analytics
    then analytics[code].(totalResolutions := analytics[code].totalResolutions + 1,
                          lastResolvedAtUtc := resolvedAtUtc)
    else AnalyticsCounter(1, resolvedAtUtc)
  }

  /** The analytics table after one recorded resolution. */
  function Recorded(analytics: map<string, AnalyticsCounter>, code: string, resolvedAtUtc: Instant)
    : map<string, AnalyticsCounter>
  {
    analytics[code := Bumped(analytics, code, resolvedAtUtc)]
  }

  /** `GetAnalyticsAsync`'s answer, never null: a zero record without
      timestamp for a code that was never resolved. */
  function AnalyticsOf(analytics: map<string, AnalyticsCounter>, code: string): (a: ShortUrlAnalytics)
    ensures a.code == code && a.totalResolutions == TotalOf(analytics, code)
    ensures a.lastResolvedAtUtc.None? <==> code !in analytics
    ensures code in analytics ==> a.lastResolvedAtUtc == Some(analytics[code].lastResolvedAtUtc)
  {
    if code !in analytics then ShortUrlAnalytics(code, 0, None)
    else ShortUrlAnalytics(code, analytics[code].totalResolutions, Some(analytics[code].lastResolvedAtUtc))
  }

  /** Every stored counter is at least 1. */
  ghost predicate CountersPositive(analytics: map<string, AnalyticsCounter>) {
    forall c :: c in analytics ==> analytics[c].totalResolutions >= 1
  }

  /** Recording one resolution adds exactly one to that code's total, keeps
      every counter positive, lowers no counter and leaves other codes alone. */
  lemma RecordedCountsOnce(analytics: map<string, AnalyticsCounter>, code: string, t: Instant)
    requires CountersPositive(analytics)
    ensures var after := Recorded(analytics, code, t);
      && TotalOf(after, code) == TotalOf(analytics, code) + 1
      && CountersPositive(after)
      && (forall c :: c in analytics ==> c in after && TotalOf(after, c) >= TotalOf(analytics, c))
      && (forall c :: c != code ==> TotalOf(after, c) == TotalOf(analytics, c) && AnalyticsOf(after, c) == AnalyticsOf(analytics, c))
  {
  }

  /** Recording `n` resolutions at instant `t` adds `n` to the total and
      leaves other codes alone. */
  function RecordedTimes(analytics: map<string, AnalyticsCounter>, code: string, t: Instant, n: nat)
    : map<string, AnalyticsCounter>
  {
    if n == 0 then analytics else Recorded(RecordedTimes(analytics, code, t, n - 1), code, t)
  }

  lemma {:induction false} RecordedTimesCountsN(analytics: map<string, AnalyticsCounter>, code: string, t: Instant, n: nat)
    ensures TotalOf(RecordedTimes(analytics, code, t, n), code) == TotalOf(analytics, code) + n
    ensures n > 0 ==> AnalyticsOf(RecordedTimes(analytics, code, t, n), code).lastResolvedAtUtc == Some(t)
    ensures forall c :: c != code ==> AnalyticsOf(RecordedTimes(analytics, code, t, n), c) == AnalyticsOf(analytics, c)
  {
    if n > 0 {
      RecordedTimesCountsN(analytics, code, t, n - 1);
    }
  }

  class InMemoryShortUrlRepository {
    var urls: map<string, ShortUrl>
    var analytics: map<string, AnalyticsCounter>

    /** Each link is stored under its own code; every counter is positive. */
    ghost predicate Valid()
      reads this
    {
      && (forall c :: c in urls ==> urls[c].code == c)
      && CountersPositive(analytics)
    }

    constructor ()
      ensures Valid() && urls == map[] && analytics == map[]
    {
      urls := map[];
      analytics := map[];
    }

    /** True iff a link, expired or not, is stored under `code`. */
    method CodeExists(code: string) returns (present: bool)
      ensures present <==> code in urls
    {
      present := code in urls;
    }

    /** Stores `shortUrl` under its code, replacing any link stored there. */
    method Create(shortUrl: ShortUrl)
      requires Valid()
      modifies this
      ensures Valid()
      ensures urls == old(urls)[shortUrl.code := shortUrl]
      ensures analytics == old(analytics)
    {
      urls := urls[shortUrl.code := shortUrl];
    }

    /** The link stored under `code`, or null. */
    method GetByCode(code: string) returns (shortUrl: Option<ShortUrl>)
      requires Valid()
      ensures shortUrl.Some? <==> code in urls
      ensures shortUrl.Some? ==> shortUrl.value == urls[code] && shortUrl.value.code == code
    {
      if code in urls {
        shortUrl := Some(urls[code]);
      } else {
        shortUrl := None;
      }
    }

    /** The upsert: a first resolution creates the counter at 1, every later
        one adds 1; the timestamp is always the latest. Links are untouched. */
    method RecordResolution(code: string, resolvedAtUtc: Instant)
      requires Valid()
      modifies this
      ensures Valid()
      ensures analytics == Recorded(old(analytics), code, resolvedAtUtc)
      ensures urls == old(urls)
    {
      if code in analytics {
        var current := analytics[code];
        analytics := analytics[code := current.(totalResolutions := current.totalResolutions + 1,
                                                lastResolvedAtUtc := resolvedAtUtc)];
      } else {
        analytics := analytics[code := AnalyticsCounter(1, resolvedAtUtc)];
      }
    }

    /** The analytics of `code`; never null. */
    method GetAnalytics(code: string) returns (result: ShortUrlAnalytics)
      ensures result == AnalyticsOf(analytics, code)
      ensures result.code == code && result.totalResolutions == TotalOf(analytics, code)
    {
      if code !in analytics {
        return ShortUrlAnalytics(code, 0, None);
      }
      var counter := analytics[code];
      result := ShortUrlAnalytics(code, counter.totalResolutions, Some(counter.lastResolvedAtUtc));
    }
  }

  /** A stored link is read back unchanged under its code. */
  method CreateThenGet(repository: InMemoryShortUrlRepository, shortUrl: ShortUrl)
    returns (found: Option<ShortUrl>)
    requires repository.Valid()
    modifies repository
    ensures found == Some(shortUrl)
  {
    repository.Create(shortUrl);
    found := repository.GetByCode(shortUrl.code);
  }
}
