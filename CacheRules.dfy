/** The cache policy of AwesomeCacheManager.swift: which store a manager is bound to
    and, per request, whether to read the cache, whether to fetch from the URL and
    whether the caller is handed the URL's data. */
module CacheRules {

  /** The kind of store a manager is created for. */
  datatype AwesomeCacheType = UrlCache | Realm

  /** The retrieval policy a requester picks for one request. */
  datatype AwesomeCacheRule =
    | FromCacheOnly
    | FromCacheOrUrl
    | FromCacheOrUrlThenUpdate   // reads the cache, always fetches from the URL, never returns the URL data
    | FromCacheAndUrl
    | FromUrl
  {
    /** Whether the store is read before anything else: every rule but `FromUrl`. */
    function ShouldGetFromCache(): (r: bool)
      ensures r <==> !FromUrl?
    {
      match this
      case FromCacheOnly | FromCacheOrUrl | FromCacheAndUrl | FromCacheOrUrlThenUpdate => true
      case _ => false
    }

    /** Whether the URL is fetched, given whether the cache produced data: always,
        except for `FromCacheOnly` and for `FromCacheOrUrl` on a hit. */
    function ShouldGetFromUrl(didReturnCache: bool): (r: bool)
      ensures r <==> !FromCacheOnly? && !(FromCacheOrUrl? && didReturnCache)
    {
      match this
      case FromCacheOrUrl => !didReturnCache
      case FromUrl | FromCacheAndUrl | FromCacheOrUrlThenUpdate => true
      case _ => false
    }

    /** Whether the caller is handed the URL's data rather than the cached data.
        URL data is only ever returned when the URL is fetched. */
    function ShouldReturnUrlData(didReturnCache: bool): (r: bool)
      ensures r ==> ShouldGetFromUrl(didReturnCache)
      ensures r <==> FromCacheAndUrl? || FromUrl? || (FromCacheOrUrl? && !didReturnCache)
    {
      match this
      case FromCacheOrUrlThenUpdate | FromCacheOnly => false
      case FromCacheAndUrl | FromUrl => true
      case _ => !didReturnCache
    }
  }

  /** The cache-read column of the decision table. */
  lemma ShouldGetFromCacheTable()
    ensures FromCacheOnly.ShouldGetFromCache() == true
    ensures FromCacheOrUrl.ShouldGetFromCache() == true
    ensures FromCacheOrUrlThenUpdate.ShouldGetFromCache() == true
    ensures FromCacheAndUrl.ShouldGetFromCache() == true
    ensures FromUrl.ShouldGetFromCache() == false
  {
  }

  /** The URL-fetch column of the decision table, for a cache hit and a miss. */
  lemma ShouldGetFromUrlTable()
    ensures FromCacheOnly.ShouldGetFromUrl(true) == false
    ensures FromCacheOnly.ShouldGetFromUrl(false) == false
    ensures FromCacheOrUrl.ShouldGetFromUrl(true) == false
    ensures FromCacheOrUrl.ShouldGetFromUrl(false) == true
    ensures FromCacheOrUrlThenUpdate.ShouldGetFromUrl(true) == true
    ensures FromCacheOrUrlThenUpdate.ShouldGetFromUrl(false) == true
    ensures FromCacheAndUrl.ShouldGetFromUrl(true) == true
    ensures FromCacheAndUrl.ShouldGetFromUrl(false) == true
    ensures FromUrl.ShouldGetFromUrl(true) == true
    ensures FromUrl.ShouldGetFromUrl(false) == true
  {
  }

  /** The returned-data column of the decision table, for a cache hit and a miss. */
  lemma ShouldReturnUrlDataTable()
    ensures FromCacheOnly.ShouldReturnUrlData(true) == false
    ensures FromCacheOnly.ShouldReturnUrlData(false) == false
    ensures FromCacheOrUrl.ShouldReturnUrlData(true) == false
    ensures FromCacheOrUrl.ShouldReturnUrlData(false) == true
    ensures FromCacheOrUrlThenUpdate.ShouldReturnUrlData(true) == false
    ensures FromCacheOrUrlThenUpdate.ShouldReturnUrlData(false) == false
    ensures FromCacheAndUrl.ShouldReturnUrlData(true) == true
    ensures FromCacheAndUrl.ShouldReturnUrlData(false) == true
    ensures FromUrl.ShouldReturnUrlData(true) == true
    ensures FromUrl.ShouldReturnUrlData(false) == true
  {
  }

  /** For every rule and either cache outcome, returning URL data implies fetching it. */
  lemma ReturnUrlDataImpliesGetFromUrl(rule: AwesomeCacheRule, didReturnCache: bool)
    ensures rule.ShouldReturnUrlData(didReturnCache) ==> rule.ShouldGetFromUrl(didReturnCache)
  {
  }

  /** Every rule consults at least one source: the rule that skips the cache fetches the URL. */
  lemma SomeSourceIsConsulted(rule: AwesomeCacheRule, didReturnCache: bool)
    ensures rule.ShouldGetFromCache() || rule.ShouldGetFromUrl(didReturnCache)
  {
  }

  /** `FromCacheOrUrl` is the only rule whose decisions depend on the cache outcome. */
  lemma OnlyCacheOrUrlDependsOnHit(rule: AwesomeCacheRule)
    ensures rule.ShouldGetFromUrl(true) != rule.ShouldGetFromUrl(false) <==> rule == FromCacheOrUrl
    ensures rule.ShouldReturnUrlData(true) != rule.ShouldReturnUrlData(false) <==> rule == FromCacheOrUrl
  {
  }

  /** `FromCacheOrUrlThenUpdate` always fetches from the URL and never hands the URL's
      data to the caller, on a hit and on a miss alike. */
  lemma ThenUpdateFetchesButNeverReturns(didReturnCache: bool)
    ensures FromCacheOrUrlThenUpdate.ShouldGetFromUrl(didReturnCache)
    ensures !FromCacheOrUrlThenUpdate.ShouldReturnUrlData(didReturnCache)
  {
  }
}
