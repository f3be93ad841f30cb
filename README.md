# AwesomeNetwork cache core, modelled in Dafny

AwesomeNetwork puts a cache in front of its HTTP requests. The cache layer is the
file `AwesomeNetwork/Classes/Caching/AwesomeCacheManager.swift`, and it has three parts:

- **`AwesomeCacheRule`**: the per-request policy. It is five rules and three
  decisions: whether to read the cache, whether to fetch the URL given
  whether the cache produced data, and whether the caller is handed the URL's data.
- **`buildURLCacheKey`**: derives the cache key of a request from its URL, method
  and body by plain string concatenation: `url + "?keyHash=" + body + url + method`.
  The body part is present only when the body decodes as UTF-8.
- **`AwesomeCacheManager`**: looks up, stores and wipes cached responses in a
  Realm-backed key/value store, under the key of the request. There is also a helper,
  `buildBody`, that extracts the `"query"` string from a JSON body.

The project has three files:

- `Wrappers.dfy`: Swift's optional as `Option` and `Data` as `Bytes`, a sequence of bytes.
- `CacheRules.dfy`: `AwesomeCacheType`, plus `AwesomeCacheRule` with its three decisions.
  The ensures of each decision characterise it. Lemmas give the full 5 × 2 truth table
  and the derived facts.
- `CacheManager.dfy`: `RealmCache`, which models the store, and the class
  `AwesomeCacheManager` with its static helpers. Lemmas and client methods
  come after the class.

Modelling choices:

- **The store.** The source reaches `AwesomeRealmCache` through static calls
  (configure, clear, lookup) plus the `save()` of a fresh entry object. No manager
  holds a database handle, so all managers in a process share one database. The model makes the database one
  `RealmCache` object with a `map<string, Bytes>` field. Each manager holds it as a
  `const`, and the manager's state-changing methods `modifies` only that object.
  `save` overwrites the entry for its key, `data(forKey:)` is a lookup, and
  `clearDatabase` empties the map. `configureRealmDatabase` changes no entry.
- **UTF-8 decoding.** Foundation's `String(data:encoding: .utf8)` stays
  uninterpreted. It is a function value of type `Bytes -> Option<string>`. The
  manager receives it at construction and passes it to the static key builder. The
  source has one global decoder, so managers on one database are taken to share it:
  the client methods state this as `writer.utf8 == reader.utf8`.
- **`buildBody`.** This is a loop over the dictionary with an early return. The
  dictionary is a `map<string, JsonValue>`, where `JsonValue` is either a string or
  anything else. Swift does not fix the order in which a dictionary is visited, so
  the loop picks the next key with `:|`. Its contract holds for every order.
- **`cacheType`.** The field is stored by the constructor and read nowhere. Every
  operation goes to the Realm store, whatever the field says.

One note on the table: `fromCacheOrUrlThenUpdate` answers `shouldReturnUrlData` with
false on a cache miss too. The comment on the case says "returns cache or URL data",
but what the requester does with a miss under this rule is not part of this file. So
the model states the code as written (`CacheRules.ThenUpdateFetchesButNeverReturns`)
and claims no defect.

## Model

| member | source | states |
|---|---|---|
| `CacheRules.AwesomeCacheRule.ShouldGetFromCache` | AwesomeNetwork/Classes/Caching/AwesomeCacheManager.swift:23-30 | the cache is read for every rule except `fromURL` |
| `CacheRules.AwesomeCacheRule.ShouldGetFromUrl` | AwesomeNetwork/Classes/Caching/AwesomeCacheManager.swift:32-41 | the URL is fetched unless the rule is `fromCacheOnly`, or is `fromCacheOrUrl` and the cache returned data |
| `CacheRules.AwesomeCacheRule.ShouldReturnUrlData` | AwesomeNetwork/Classes/Caching/AwesomeCacheManager.swift:43-52 | URL data is returned for `fromCacheAndUrl` and `fromURL` always, for `fromCacheOrUrl` only on a miss, and never otherwise; returning it implies fetching it |
| `CacheRules.ShouldGetFromCacheTable` | AwesomeNetwork/Classes/Caching/AwesomeCacheManager.swift:23-30 | the cache-read value of each of the five rules |
| `CacheRules.ShouldGetFromUrlTable` | AwesomeNetwork/Classes/Caching/AwesomeCacheManager.swift:32-41 | the URL-fetch value of each rule on a hit and on a miss (10 entries) |
| `CacheRules.ShouldReturnUrlDataTable` | AwesomeNetwork/Classes/Caching/AwesomeCacheManager.swift:43-52 | the returned-data value of each rule on a hit and on a miss (10 entries) |
| `CacheRules.ReturnUrlDataImpliesGetFromUrl` | AwesomeNetwork/Classes/Caching/AwesomeCacheManager.swift:32-52 | for every rule and cache outcome, URL data is returned only if the URL is fetched |
| `CacheRules.SomeSourceIsConsulted` | AwesomeNetwork/Classes/Caching/AwesomeCacheManager.swift:23-41 | every rule reads the cache or fetches the URL, whatever the cache outcome |
| `CacheRules.OnlyCacheOrUrlDependsOnHit` | AwesomeNetwork/Classes/Caching/AwesomeCacheManager.swift:32-52 | the URL-fetch and returned-data decisions depend on the cache outcome for `fromCacheOrUrl` and for no other rule |
| `CacheRules.ThenUpdateFetchesButNeverReturns` | AwesomeNetwork/Classes/Caching/AwesomeCacheManager.swift:19-52 | `fromCacheOrUrlThenUpdate` always fetches the URL and never returns its data to the caller |
| `AwesomeCache.RealmCache.constructor` | AwesomeNetwork/Classes/Caching/AwesomeCacheManager.swift:63 | the model's stand-in for the store as already persisted: its entries are the given map (nothing in the source constructs a database) |
| `AwesomeCache.RealmCache.ConfigureRealmDatabase` | AwesomeNetwork/Classes/Caching/AwesomeCacheManager.swift:63 | configuring the database changes no entry |
| `AwesomeCache.RealmCache.ClearDatabase` | AwesomeNetwork/Classes/Caching/AwesomeCacheManager.swift:67 | the wipe leaves no entry |
| `AwesomeCache.RealmCache.Save` | AwesomeNetwork/Classes/Caching/AwesomeCacheManager.swift:71 | the value replaces the entry under its key, and every other entry is kept |
| `AwesomeCache.RealmCache.Data` | AwesomeNetwork/Classes/Caching/AwesomeCacheManager.swift:75 | a lookup gives the stored value when the key is present and `nil` otherwise |
| `AwesomeCache.AwesomeCacheManager.constructor` | AwesomeNetwork/Classes/Caching/AwesomeCacheManager.swift:57-64 | `cacheType` is the argument (default `realm`), and configuring the database changes no entry |
| `AwesomeCache.AwesomeCacheManager.ClearCache` | AwesomeNetwork/Classes/Caching/AwesomeCacheManager.swift:66-68 | afterwards the store is empty and every lookup misses |
| `AwesomeCache.AwesomeCacheManager.Cache` | AwesomeNetwork/Classes/Caching/AwesomeCacheManager.swift:70-72 | afterwards the key maps to the data, and every other key reads as before |
| `AwesomeCache.AwesomeCacheManager.DataForKey` | AwesomeNetwork/Classes/Caching/AwesomeCacheManager.swift:74-76 | the stored data when the key is present, `nil` otherwise |
| `AwesomeCache.AwesomeCacheManager.VerifyForCache` | AwesomeNetwork/Classes/Caching/AwesomeCacheManager.swift:80-86 | reads the store without changing it, and gives the entry under the request's key when present and `nil` otherwise |
| `AwesomeCache.AwesomeCacheManager.SaveCache` | AwesomeNetwork/Classes/Caching/AwesomeCacheManager.swift:88-93 | with data, only the entry under the request's key changes, and a following `verifyForCache` of the same request returns that data; with `nil` data the store is unchanged |
| `AwesomeCache.AwesomeCacheManager.BuildBody` | AwesomeNetwork/Classes/Caching/AwesomeCacheManager.swift:95-104 | the string under `"query"` when that value is a string, `""` for a missing dictionary, a missing key or a non-string value, whatever order the dictionary is visited in |
| `AwesomeCache.AwesomeCacheManager.BuildUrlCacheKey` | AwesomeNetwork/Classes/Caching/AwesomeCacheManager.swift:108-123 | the key for each case: decodable body, URL and method; URL and method without a usable body; URL without method; no URL |
| `AwesomeCache.UrlIsPrefixOfKey` | AwesomeNetwork/Classes/Caching/AwesomeCacheManager.swift:112-122 | whenever a URL is given, it is a prefix of the key |
| `AwesomeCache.KeyIsBareUrlIffNoMethod` | AwesomeNetwork/Classes/Caching/AwesomeCacheManager.swift:112-122 | with a URL, the key is exactly the URL if and only if no method is given |
| `AwesomeCache.KeyDependsOnBodyTextOnly` | AwesomeNetwork/Classes/Caching/AwesomeCacheManager.swift:112-120 | two bodies with the same UTF-8 text, or both missing or undecodable, give the same key |
| `AwesomeCache.GetKeyExample` | AwesomeNetwork/Classes/Caching/AwesomeCacheManager.swift:118-120 | ("http://x.com/a", "GET", no body) gives "http://x.com/a?keyHash=http://x.com/aGET" |
| `AwesomeCache.PostKeyExample` | AwesomeNetwork/Classes/Caching/AwesomeCacheManager.swift:112-117 | ("http://x.com/a", "POST", body text "q=1") gives "http://x.com/a?keyHash=q=1http://x.com/aPOST" |
| `AwesomeCache.KeysCanCollide` | AwesomeNetwork/Classes/Caching/AwesomeCacheManager.swift:112-120 | distinct requests can share a key: ("x", "y", body "x") and ("x", "xy", no body) |
| `AwesomeCache.SaveThenVerifyElsewhere` | AwesomeNetwork/Classes/Caching/AwesomeCacheManager.swift:80-93 | a `saveCache` with data through one manager is returned by `verifyForCache` of the same request through another manager on the same database |
| `AwesomeCache.NilSaveKeepsEntry` | AwesomeNetwork/Classes/Caching/AwesomeCacheManager.swift:88-93 | a `saveCache` with `nil` data leaves what any manager on the database reads for the request unchanged |
| `AwesomeCache.UnrelatedSaveKeepsEntry` | AwesomeNetwork/Classes/Caching/AwesomeCacheManager.swift:80-93 | a save with data for any request whose URL neither extends `url` nor is extended by it leaves what any request on `url` reads unchanged |
| `AwesomeCache.ClearRemovesEntryElsewhere` | AwesomeNetwork/Classes/Caching/AwesomeCacheManager.swift:66-86 | after a `clearCache` through one manager, every request misses through another manager on the same database |

## Left out

- The model merges the source's entry type (`AwesomeRealmCache(key:value:)`, whose
  `save()` writes itself) and the database into one `RealmCache` object; `Save(key, value)`
  stands for building an entry and saving it.
- Realm itself (`AwesomeRealmCache`) is foreign code and not part of this model. It
  is replaced by a map, `configureRealmDatabase` is a method that changes nothing,
  and I/O failures in the store are not modelled.
- `cacheType` is stored but never dispatched on, as in the source. The URL-cache
  store kind has no behaviour of its own here.
- The background refresh of `fromCacheOrUrlThenUpdate`, and the rest of the
  requester's request pipeline, live outside this file and involve concurrency.
  Only the three decisions are modelled.
- `String(data:encoding: .utf8)` stays an uninterpreted function parameter rather
  than a verified UTF-8 decoder.
- `buildBody` uses Swift's dynamic `as? String` cast. The model replaces it with a
  two-case value type (`Text` or `Other`).
- `NSObject` inheritance and access modifiers carry no behaviour and are not modelled.
- Key uniqueness is not claimed. `AwesomeCache.KeysCanCollide` shows that it fails.
