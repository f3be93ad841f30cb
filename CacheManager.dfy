/** The manager of AwesomeCacheManager.swift: it derives a cache key from a request
    (URL, httpMethod, body), reads and writes the Realm-backed store under that key,
    and wipes the store on demand. */
module AwesomeCache {
  import opened Wrappers
  import opened CacheRules

  /** The part of Foundation's `String(data:encoding: .utf8)` the key builder needs:
      the text of bytes that are valid UTF-8, `None` otherwise. It is foreign code and
      stays uninterpreted. */
  type Utf8Decoder = Bytes -> Option<string>

  /** The separator the key builder places between the URL and the "hash". */
  const KeyHashMarker: string := "?keyHash="

  /** A JSON body value as far as `buildBody` can tell: a string, or anything else. */
  datatype JsonValue = Text(text: string) | Other

  /** The persistent key/value store behind the manager (AwesomeRealmCache). The source
      reaches it through static calls (configure, clear, lookup) plus the `save()` of a
      fresh entry object; no manager holds a database handle, so all managers share one
      database. Here that database is one object that every manager holds. */
  class RealmCache {
    var entries: map<string, Bytes>

    /** A database holding whatever was persisted before. */
    constructor (persisted: map<string, Bytes>)
      ensures entries == persisted
    {
      entries := persisted;
    }

    /** One-time set-up of the database; it changes no entry. */
    method ConfigureRealmDatabase()
      ensures entries == old(entries)
    {
    }

    /** Deletes every entry. */
    method ClearDatabase()
      modifies this
      ensures entries == map[]
    {
      entries := map[];
    }

    /** Writes `value` under `key`, replacing what was there. */
    method Save(key: string, value: Bytes)
      modifies this
      ensures entries == old(entries)[key := value]
    {
      entries := entries[key := value];
    }

    /** The value stored under `key`, `None` when there is none. */
    function Data(key: string): (r: Option<Bytes>)
      reads this
      ensures r.Some? <==> key in entries
      ensures r.Some? ==> r.value == entries[key]
    {
      if key in entries then Some(entries[key]) else None
    }
  }

  class AwesomeCacheManager {
    /** Stored at construction and never consulted: every operation uses the Realm store. */
    var cacheType: AwesomeCacheType
    const database: RealmCache
    const utf8: Utf8Decoder

    /** Binds the manager to the database and configures the database, which changes
        none of its entries. */
    constructor (database: RealmCache, utf8: Utf8Decoder, cacheType: AwesomeCacheType := Realm)
      ensures this.cacheType == cacheType
      ensures this.database == database && this.utf8 == utf8
      ensures database.entries == old(database.entries)
    {
      this.database := database;
      this.utf8 := utf8;
      this.cacheType := cacheType;
      new;
      database.ConfigureRealmDatabase();
    }

    /** Empties the store: afterwards every lookup misses. */
    method ClearCache()
      modifies database
      ensures database.entries == map[]
      ensures forall key :: DataForKey(key) == None
    {
      database.ClearDatabase();
    }

    /** Stores `data` under `key`; the entries under other keys are unchanged. */
    method Cache(data: Bytes, key: string)
      modifies database
      ensures database.entries == old(database.entries)[key := data]
      ensures DataForKey(key) == Some(data)
      ensures forall k :: k != key ==> DataForKey(k) == old(DataForKey(k))
    {
      database.Save(key, data);
    }

    /** The data stored under `key`, `None` on a miss. */
    function DataForKey(key: string): (r: Option<Bytes>)
      reads this, database
      ensures r.Some? <==> key in database.entries
      ensures r.Some? ==> r.value == database.entries[key]
    {
      database.Data(key)
    }

    /** The data cached for a request, `None` on a miss; it reads the store and changes
        nothing. */
    function VerifyForCache(urlString: string, httpMethod: Option<string>, body: Option<Bytes>): (r: Option<Bytes>)
      reads this, database
      ensures var key := BuildUrlCacheKey(Some(urlString), httpMethod, body, utf8);
        (r.Some? <==> key in database.entries) && (r.Some? ==> r.value == database.entries[key])
    {
      var url := BuildUrlCacheKey(Some(urlString), httpMethod, body, utf8);
      DataForKey(url)
    }

    /** Caches the response `data` of a request; without data it changes nothing. */
    method SaveCache(urlString: string, httpMethod: Option<string>, body: Option<Bytes>, data: Option<Bytes>)
      modifies database
      ensures var key := BuildUrlCacheKey(Some(urlString), httpMethod, body, utf8);
        database.entries == if data.Some? then old(database.entries)[key := data.value] else old(database.entries)
      ensures data.Some? ==> VerifyForCache(urlString, httpMethod, body) == data
      ensures data.None? ==> VerifyForCache(urlString, httpMethod, body) == old(VerifyForCache(urlString, httpMethod, body))
      ensures forall k :: k != BuildUrlCacheKey(Some(urlString), httpMethod, body, utf8) ==> DataForKey(k) == old(DataForKey(k))
    {
      if data.Some? {
        var url := BuildUrlCacheKey(Some(urlString), httpMethod, body, utf8);
        Cache(data.value, url);
      }
    }

    /** The string stored under `"query"` in a JSON body, `""` when there is no body, no
        such key, or a value that is not a string. The dictionary is walked in no
        particular order; at most one entry has key `"query"`, so the order does not
        matter. */
    static method BuildBody(jsonBody: Option<map<string, JsonValue>>) returns (r: string)
      ensures jsonBody.Some? && "query" in jsonBody.value && jsonBody.value["query"].Text? ==>
                r == jsonBody.value["query"].text
      ensures !(jsonBody.Some? && "query" in jsonBody.value && jsonBody.value["query"].Text?) ==>
                r == ""
    {
      if jsonBody.Some? {
        var dictionary := jsonBody.value;
        var unvisited := dictionary.Keys;
        while unvisited != {}
          invariant unvisited <= dictionary.Keys
          invariant "query" in dictionary && dictionary["query"].Text? ==> "query" in unvisited
          decreases unvisited
        {
          var key :| key in unvisited;
          if key == "query" && dictionary[key].Text? {
            return dictionary[key].text;
          }
          unvisited := unvisited - {key};
        }
      }
      return "";
    }

    /** The cache key of a request. With a body that decodes as UTF-8 and both a URL and
        a method, the "hash" after the marker is body + URL + method; with a URL and a
        method but no usable body it is URL + method; otherwise the key is the URL,
        or "" without one. */
    static function BuildUrlCacheKey(url: Option<string>, httpMethod: Option<string>, bodyData: Option<Bytes>,
                                     utf8: Utf8Decoder): (key: string)
      ensures bodyData.Some? && utf8(bodyData.value).Some? && url.Some? && httpMethod.Some? ==>
                key == url.value + KeyHashMarker + utf8(bodyData.value).value + url.value + httpMethod.value
      ensures !(bodyData.Some? && utf8(bodyData.value).Some?) && url.Some? && httpMethod.Some? ==>
                key == url.value + KeyHashMarker + url.value + httpMethod.value
      ensures url.Some? && httpMethod.None? ==> key == url.value
      ensures url.None? ==> key == ""
    {
      if bodyData.Some? && utf8(bodyData.value).Some? && url.Some? && httpMethod.Some? then
        var hashValue := utf8(bodyData.value).value + url.value + httpMethod.value;
        url.value + KeyHashMarker + hashValue
      else if url.Some? && httpMethod.Some? then
        var hashValue := url.value + httpMethod.value;
        url.value + KeyHashMarker + hashValue
      else
        url.GetOr("")
    }
  }

  /** The URL of a request is always a prefix of its key. */
  lemma UrlIsPrefixOfKey(url: string, httpMethod: Option<string>, bodyData: Option<Bytes>, utf8: Utf8Decoder)
    ensures url <= AwesomeCacheManager.BuildUrlCacheKey(Some(url), httpMethod, bodyData, utf8)
  {
    var key := AwesomeCacheManager.BuildUrlCacheKey(Some(url), httpMethod, bodyData, utf8);
    var rest := key[|url|..];
    assert key == url + rest;
  }

  /** With a URL, the key is the bare URL exactly when no method is given; a method
      always adds the marker and the "hash". */
  lemma KeyIsBareUrlIffNoMethod(url: string, httpMethod: Option<string>, bodyData: Option<Bytes>, utf8: Utf8Decoder)
    ensures AwesomeCacheManager.BuildUrlCacheKey(Some(url), httpMethod, bodyData, utf8) == url <==> httpMethod.None?
  {
    var key := AwesomeCacheManager.BuildUrlCacheKey(Some(url), httpMethod, bodyData, utf8);
    if httpMethod.Some? {
      assert |key| >= |url| + |KeyHashMarker| > |url|;
    }
  }

  /** The body enters the key only through its UTF-8 text: bodies that are missing or
      undecodable, or that decode to the same text, give the same key. */
  lemma KeyDependsOnBodyTextOnly(url: Option<string>, httpMethod: Option<string>,
                                 body1: Option<Bytes>, body2: Option<Bytes>, utf8: Utf8Decoder)
    requires (if body1.Some? then utf8(body1.value) else None) == (if body2.Some? then utf8(body2.value) else None)
    ensures AwesomeCacheManager.BuildUrlCacheKey(url, httpMethod, body1, utf8)
         == AwesomeCacheManager.BuildUrlCacheKey(url, httpMethod, body2, utf8)
  {
  }

  /** A GET request without a body. */
  lemma GetKeyExample(utf8: Utf8Decoder)
    ensures AwesomeCacheManager.BuildUrlCacheKey(Some("http://x.com/a"), Some("GET"), None, utf8)
         == "http://x.com/a?keyHash=http://x.com/aGET"
  {
  }

  /** A POST request whose body is the UTF-8 text "q=1". */
  lemma PostKeyExample(body: Bytes, utf8: Utf8Decoder)
    requires utf8(body) == Some("q=1")
    ensures AwesomeCacheManager.BuildUrlCacheKey(Some("http://x.com/a"), Some("POST"), Some(body), utf8)
         == "http://x.com/a?keyHash=q=1http://x.com/aPOST"
  {
  }

  /** The "hash" is plain concatenation, so distinct requests can share a key: URL "x"
      with method "y" and body text "x" collides with URL "x", method "xy" and no body. */
  lemma KeysCanCollide(body: Bytes, utf8: Utf8Decoder)
    requires utf8(body) == Some("x")
    ensures AwesomeCacheManager.BuildUrlCacheKey(Some("x"), Some("y"), Some(body), utf8)
         == AwesomeCacheManager.BuildUrlCacheKey(Some("x"), Some("xy"), None, utf8)
  {
  }

  // Clients: two managers on one database see each other's writes.

  /** A save through one manager is returned by `verifyForCache` through another. */
  method SaveThenVerifyElsewhere(writer: AwesomeCacheManager, reader: AwesomeCacheManager,
                                 url: string, httpMethod: Option<string>, body: Option<Bytes>, data: Bytes)
    requires writer.database == reader.database && writer.utf8 == reader.utf8
    modifies writer.database
    ensures reader.VerifyForCache(url, httpMethod, body) == Some(data)
  {
    writer.SaveCache(url, httpMethod, body, Some(data));
  }

  /** A save without data leaves what another manager reads for the request unchanged. */
  method NilSaveKeepsEntry(writer: AwesomeCacheManager, reader: AwesomeCacheManager,
                           url: string, httpMethod: Option<string>, body: Option<Bytes>)
    requires writer.database == reader.database && writer.utf8 == reader.utf8
    modifies writer.database
    ensures reader.VerifyForCache(url, httpMethod, body) == old(reader.VerifyForCache(url, httpMethod, body))
  {
    writer.SaveCache(url, httpMethod, body, None);
  }

  /** A save for any request on a URL that neither extends `url` nor is extended by it
      leaves the entry of every request on `url` unchanged: each key starts with its
      URL, so the two keys differ. */
  method UnrelatedSaveKeepsEntry(writer: AwesomeCacheManager, reader: AwesomeCacheManager,
                                 url: string, httpMethod: Option<string>, body: Option<Bytes>,
                                 otherUrl: string, otherMethod: Option<string>, otherBody: Option<Bytes>,
                                 data: Bytes)
    requires writer.database == reader.database && writer.utf8 == reader.utf8
    requires !(url <= otherUrl) && !(otherUrl <= url)
    modifies writer.database
    ensures reader.VerifyForCache(url, httpMethod, body) == old(reader.VerifyForCache(url, httpMethod, body))
  {
    UrlIsPrefixOfKey(url, httpMethod, body, writer.utf8);
    UrlIsPrefixOfKey(otherUrl, otherMethod, otherBody, writer.utf8);
    writer.SaveCache(otherUrl, otherMethod, otherBody, Some(data));
  }

  /** A clear through one manager makes every request miss through another. */
  method ClearRemovesEntryElsewhere(writer: AwesomeCacheManager, reader: AwesomeCacheManager,
                                    url: string, httpMethod: Option<string>, body: Option<Bytes>)
    requires writer.database == reader.database
    modifies writer.database
    ensures reader.VerifyForCache(url, httpMethod, body) == None
  {
    writer.ClearCache();
  }
}
