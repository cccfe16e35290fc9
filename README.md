# suga cache layer in Dafny

This project models the caching core of `suga`, a command-line crypto price
tool. The core has two parts:

- `LocalCache` (`utils/local_cache.py`) is a disk-backed key-value store with a
  time-to-live (TTL) per entry. It has a default TTL, a `maxsize` field, and
  the operations `set`, `get`, `delete`, `clear`, `in` and `len`.
- `CoinGeckoClient` (`utils/coingecko_client.py`) fetches through that cache.
  `_get` builds the request URL and a cache key that does not depend on
  parameter order. It answers from the cache when it can. Otherwise it makes
  up to `retry` HTTP attempts and caches the first HTTP-200 body. When every
  attempt fails it raises `ConnectionError`. The request builders
  `get_price`, `get_market` and `get_history` produce the endpoint and
  parameters that `_get` receives.

Modules:

- `Wrappers` (`wrappers.dfy`): the `Option` type, which stands for Python's
  `None`-or-value.
- `Cache` (`local_cache.dfy`): the store as `map<K, Entry<V>>`. Each entry
  holds a value and an absolute expiry (`None` means it never expires). The
  pure functions `Put`, `Remove` and `Lookup` give the meaning of a write, a
  delete and a read,
  and lemmas state the TTL, overwrite and removal properties. The class
  `LocalCache` holds the map in its field `store`, and its methods update it
  in place.
- `Params` (`params.dfy`): a parameter dict as its items in insertion order,
  with no key repeated. It also defines Python's string order and
  `sorted(params.items())`. It proves that the sorted form depends only on
  the dict's entries.
- `CoinGecko` (`coingecko_client.dfy`): URL and cache-key construction, the
  retry loop as the specification function `GetSpec`, the request builders,
  and the class `Client`. `Client.Get` is proved equal to `GetSpec`, and the
  lemmas about `GetSpec` state the fetch-or-cache guarantees.

The wall clock is the parameter `now`, in whole seconds. The network is a
function `net` from attempt number to that attempt's outcome. An outcome is
either a response (with its status and its body as `resp.json()` decodes it)
or an exception.

Points of the code's behaviour that the model keeps:

- The class docstring (utils/local_cache.py:7, 11) says the cache bounds the
  entry count, but `maxsize` is only stored. No operation reads it, so the
  entry count is unbounded (`PutCount`).
- `_get` retries by itself: it makes up to `retry` attempts in its own loop.
- A cached `None` is a miss. A 200 response whose JSON body is `null` is
  stored, and the next call fetches it again (`CachedNullIsMiss`).
- `in` ignores expired entries. `len` counts every stored entry, expired
  ones included, because culling is turned off (`cull_limit` 0).
- `delete` finds the entry with the same expiry test as `get`. It removes a
  live entry and leaves an expired one in place, still counted by `len`. An
  expired entry goes away only when it is overwritten or cleared.

## Model

| member | source | states |
|---|---|---|
| `Cache.LocalCache.constructor` | utils/local_cache.py:9-30 | the store opens with the directory's existing entries; `defaultTtl` and `maxsize` are exactly the `ttl` and `maxsize` arguments (defaults 60 and 1000) |
| `Cache.LocalCache.Set` | utils/local_cache.py:32-36 | the key now maps to the value, with expiry `now + ttl` for the per-call ttl when one is given (0 included) and for the default otherwise; every other key is unchanged |
| `Cache.LocalCache.Get` | utils/local_cache.py:38-41 | returns the stored value when the key is present and not expired, otherwise the caller's default (never an error); the store is not changed |
| `Cache.LocalCache.Delete` | utils/local_cache.py:43-46 | the store becomes `Remove` of the old store: a live entry under the key is removed, while an absent or expired key leaves the store unchanged (no error); no other key changes |
| `Cache.LocalCache.Clear` | utils/local_cache.py:48-51 | the store is empty and every read returns its default |
| `Cache.LocalCache.Contains` | utils/local_cache.py:53-54 | true exactly when a live entry is stored under the key (`Visible`) |
| `Cache.LocalCache.Len` | utils/local_cache.py:56-57 | the number of stored entries, expired ones included; 0 exactly when the store is empty |
| `Cache.UsageExample` | utils/local_cache.py:59-66 | with a 5-second default ttl, "foo" reads "bar" right after the write and `None` six seconds later |
| `Cache.PutVisibleUntilExpiry` | utils/local_cache.py:32-41 | a value written with ttl `t` at `now` is read back at every instant before `now + t` and is the default from `now + t` on |
| `Cache.PutWithoutTtlNeverExpires` | utils/local_cache.py:32-36 | a value written with no ttl at all (a cache built with `ttl=None`) is read back at every later instant |
| `Cache.DefaultTtlSelected` | utils/local_cache.py:35-36 | without a per-call ttl the default of `d` seconds applies: visible exactly for the `d` seconds after the write |
| `Cache.ZeroTtlIsNotDefaulted` | utils/local_cache.py:35-36 | an explicit ttl of 0 is not replaced by the default: the value is never visible, whatever the default |
| `Cache.LastPutWins` | utils/local_cache.py:32-36 | two writes to one key leave the same store as the second write alone |
| `Cache.PutKeepsOtherKeys` | utils/local_cache.py:32-36 | a write leaves the read of every other key unchanged |
| `Cache.ExpiryAt` | utils/local_cache.py:35-36 | the expiry a write records: none exactly when the ttl is `None`, otherwise the write time plus the ttl |
| `Cache.EffectiveTtl` | utils/local_cache.py:35 | the ttl a write uses: the per-call ttl whenever it is given (0 included), otherwise the default |
| `Cache.Put` | utils/local_cache.py:36 | a write adds the key to the store with the value and its expiry; every other entry is kept as it was |
| `Cache.Lookup` | utils/local_cache.py:41 | a read returns the stored value exactly when a live entry is stored under the key, otherwise the default |
| `Cache.RemoveOnlyThatKey` | utils/local_cache.py:43-46 | after a delete at `now` the key reads as the default at every later instant, and every other key reads as before |
| `Cache.RemoveCount` | utils/local_cache.py:43-57 | a delete lowers `len` by one exactly when the key held a live entry, and leaves it unchanged otherwise |
| `Cache.PutCount` | utils/local_cache.py:32-36 | a write adds one entry for a new key and none for an existing key; nothing, `maxsize` included, caps the count |
| `Params.BelowIrreflexive` | utils/coingecko_client.py:20 | no string sorts before itself under Python's string order |
| `Params.BelowTransitive` | utils/coingecko_client.py:20 | Python's string order is transitive |
| `Params.BelowAsymmetric` | utils/coingecko_client.py:20 | no two strings sort before each other |
| `Params.BelowTotal` | utils/coingecko_client.py:20 | any two different strings are ordered one way or the other |
| `Params.Insert` | utils/coingecko_client.py:20 | the result holds the old items plus the new one; it stays strictly key-sorted when the new key is not already present |
| `Params.SortItems` | utils/coingecko_client.py:20 | `sorted(items)` keeps exactly the same entries and puts a dict's items in strictly increasing key order |
| `Params.SortedUnique` | utils/coingecko_client.py:20 | two key-sorted sequences with the same entries are equal |
| `Params.SortIgnoresInsertionOrder` | utils/coingecko_client.py:20 | dicts with the same entries in different insertion orders sort to the same tuple |
| `Params.SortKeepsSorted` | utils/coingecko_client.py:20 | sorting leaves items that are already key-sorted unchanged |
| `CoinGecko.Url` | utils/coingecko_client.py:18 | the URL is the base URL and one slash, followed by a path that does not start with a slash and is what remains of the endpoint after a prefix made only of slashes |
| `CoinGecko.Items` | utils/coingecko_client.py:20 | `params or {}`: no items for `None`, the given items otherwise |
| `CoinGecko.KeyFor` | utils/coingecko_client.py:20 | the cache key holds the URL and exactly the parameters' entries, in strictly increasing key order for a dict |
| `CoinGecko.LStripSlash` | utils/coingecko_client.py:18 | `lstrip('/')` removes a prefix made only of slashes; what remains is a suffix that does not start with a slash |
| `CoinGecko.UrlIgnoresLeadingSlashes` | utils/coingecko_client.py:18 | any number of leading slashes on the endpoint give the same URL |
| `CoinGecko.UrlOfPlainEndpoint` | utils/coingecko_client.py:18 | an endpoint without a leading slash gives `BASE_URL + "/" + endpoint` |
| `CoinGecko.KeyIgnoresParamOrder` | utils/coingecko_client.py:20 | parameter dicts with the same entries give the same cache key, whatever their insertion order |
| `CoinGecko.KeyOfNoParams` | utils/coingecko_client.py:20 | `params=None` gives the same key as `{}`, with no items |
| `CoinGecko.KeyDeterminesRequest` | utils/coingecko_client.py:20 | equal cache keys come only from equal URLs and the same parameter entries (the converse of `KeyIgnoresParamOrder`) |
| `CoinGecko.GetSpec` | utils/coingecko_client.py:22-43 | `_get` makes no network attempt exactly when the key holds a live non-`None` value or `retry <= 0`; the only cache change it makes is storing a fetched result under the key with the default ttl |
| `CoinGecko.FirstSuccess` | utils/coingecko_client.py:27-42 | the index found is the first attempt below `retry` with status 200 and a decodable body; when there is none, every attempt below `retry` failed |
| `CoinGecko.FirstSuccessAt` | utils/coingecko_client.py:27-34 | a successful attempt that follows only failures is the one the loop returns on |
| `CoinGecko.HitNeverFetches` | utils/coingecko_client.py:23-25 | a live non-`None` cached value is returned with zero network attempts and no cache write |
| `CoinGecko.CachedNullIsMiss` | utils/coingecko_client.py:23-25 | a cached `None` gives the same result and attempt count as an absent key |
| `CoinGecko.AttemptsBounded` | utils/coingecko_client.py:27 | at most `retry` attempts are made, and none when `retry <= 0` |
| `CoinGecko.MissReturnsFirstSuccess` | utils/coingecko_client.py:27-34 | on a miss, a result comes from the first attempt with a 200 and a decodable body; all earlier attempts failed, and that body is stored under the key with the cache's default ttl |
| `CoinGecko.FailureNeverPoisons` | utils/coingecko_client.py:27-43 | `ConnectionError` is raised exactly when the key missed and all `retry` attempts failed; it names the URL, follows `max(retry, 0)` attempts and leaves the cache unchanged |
| `CoinGecko.NoRetryRaises` | utils/coingecko_client.py:27-43 | with `retry <= 0` a miss raises `ConnectionError` at once, with no attempt and no write |
| `CoinGecko.FetchedThenHit` | utils/coingecko_client.py:23-34 | after a miss that fetched a non-null body with default ttl `t`, the same request within `t` seconds is answered from the cache with no attempt |
| `CoinGecko.PriceRequest` | utils/coingecko_client.py:45-47 | endpoint `simple/price` with exactly the parameters `ids` (a string or a list of coin ids, as the caller gives it) and `vs_currencies` (default "usd"), carrying the given values |
| `CoinGecko.MarketRequest` | utils/coingecko_client.py:49-57 | endpoint `coins/markets`, `vs_currency` as given (default "usd") and `order` always `market_cap_desc` |
| `CoinGecko.MarketRequestParams` | utils/coingecko_client.py:49-57 | the market parameters are exactly five distinct keys, with `per_page` and `page` as given and `sparkline` false |
| `CoinGecko.MarketDefaultsToFirstPage` | utils/coingecko_client.py:49-57 | without a page argument, page 1 is requested |
| `CoinGecko.HistoryRequest` | utils/coingecko_client.py:59-70 | no request exactly when the date does not parse or is over a year old; otherwise endpoint `coins/{coin_id}/history` with `date` as its only parameter |
| `CoinGecko.Client.constructor` | utils/coingecko_client.py:11-15 | `retry` and `timeout` as given (defaults 3 and 10); a fresh cache whose default ttl is `cache_ttl` (default 300) and whose `maxsize` is the cache's default |
| `CoinGecko.Client.Get` | utils/coingecko_client.py:17-43 | `params` defaults to `None`; result, attempt count and new cache store are exactly `GetSpec` for the key `(url, sorted items)` and the stripped URL, so every `GetSpec` lemma applies to it |
| `CoinGecko.Client.FetchOrCache` | utils/coingecko_client.py:22-43 | the lookup and retry loop of `_get` once key and URL are built: equal to `GetSpec` for that key and URL |
| `CoinGecko.Client.GetPrice` | utils/coingecko_client.py:45-47 | behaves as `_get` on `PriceRequest` |
| `CoinGecko.Client.GetMarket` | utils/coingecko_client.py:49-57 | behaves as `_get` on `MarketRequest` |
| `CoinGecko.Client.GetHistory` | utils/coingecko_client.py:59-70 | returns `None` with no attempt and no cache change when the date is rejected; otherwise behaves as `_get` on the history request |

## Left out

- Locking: the `RLock` and thread safety (utils/local_cache.py:21, 34, 39, 44, 49) are not modelled. The model is sequential, and each operation is one atomic step.
- Disk storage: `diskcache`'s on-disk format and serialization are not modelled. That library's code is not part of this model. Its 1 GB `size_limit` and least-recently-stored eviction (utils/local_cache.py:20, 28-30) need no model: with `cull_limit` 0 the library's cull step returns before it expires or evicts anything, so no entry is ever evicted, whatever the size. Values that survive a restart are the constructor's `persisted` map.
- Expiry boundary: an entry is visible while `now < write time + ttl`, matching the store's `expire_time > now` test. Time is whole seconds, not floats.
- Store failures: a read or write of the disk store that raises is not modelled; every `get`, `set`, `delete` and `clear` succeeds. So the model misses one path of `_get`. The `try` (utils/coingecko_client.py:28-34) also covers `self.cache.set` at line 33. If that write raises, `except Exception` (lines 40-41) counts the 200 as a failed attempt and the loop tries again.
- `Cache.LocalCache.Get`: `get(key, default=None)` has no generic counterpart of the `None` default, so every caller passes the default explicitly (`FetchOrCache` passes `JNull`, `UsageExample` passes `None`).
- Default cache directory: computing it from `__file__` (utils/local_cache.py:15-18) is path handling and is not modelled.
- Network side effects: `requests.Session`, the HTTP `timeout` (stored but not otherwise modelled), the warnings printed with `click.secho`, and `time.sleep(1)` between attempts are all I/O. Attempts are the outcome function `net`.
- `CoinGecko.Client.FetchOrCache`: the whole of one `_get` call happens at one instant `now`. A successful write is stamped with the time of the lookup, not with the later time reached after the sleeps.
- JSON decoding: `resp.json()` is the body already decoded (or its failure). JSON numbers are integers; floating point is not modelled.
- Date checks: `datetime.strptime` and the comparison with `datetime.now() - 365 days` (utils/coingecko_client.py:61-62) are library date parsing and the wall clock. They are given as the `DateCheck` argument.
- Comparing values: Python's `sorted` on items would compare values only if two keys were equal, which a dict rules out. The model orders items by key alone.
- The module-level `client = CoinGeckoClient()` (utils/coingecko_client.py:72) is not modelled. Neither are `suga.py` and `cli.py` (command-line parsing, table rendering, watch loops), which are presentation and I/O.
