/**
 * The fetch-or-cache client of utils/coingecko_client.py.
 *
 * The network is a function from attempt number to the outcome of that
 * attempt; the clock is the parameter `now`. A request is answered from the
 * cache when a non-null value is live under its key; otherwise up to `retry`
 * attempts are made, and the first HTTP-200 response whose body decodes is
 * cached (with the cache's default ttl) and returned. When every attempt fails
 * the call ends in `ConnectionError` and the cache is as it was.
 */
module CoinGecko {
  import opened Wrappers
  import opened Cache
  import opened Params

  const BaseUrl: string := "https://api.coingecko.com/api/v3"

  /** A decoded response body; `JNull` is Python's `None`. */
  datatype Json =
    | JNull
    | JBool(b: bool)
    | JNum(n: int)
    | JStr(s: string)
    | JArr(elems: seq<Json>)
    | JObj(members: seq<(string, Json)>)

  /** `(url, tuple(sorted(params.items())))`. */
  datatype CacheKey = CacheKey(url: string, items: seq<Param>)

  /**
   * What one `session.get` attempt gives: a response with its status and its
   * body as decoded by `resp.json()` (`None` when decoding raises), or an
   * exception raised by the request itself.
   */
  datatype Outcome = Response(status: int, json: Option<Json>) | Raised

  /** The value `_get` returns, or the `ConnectionError` it raises (naming the URL). */
  datatype FetchResult = Fetched(payload: Json) | ConnectionError(url: string)

  /** A request as the builders hand it to `_get`. */
  datatype Request = Request(endpoint: string, params: seq<Param>)

  /** The date as `strptime("%d-%m-%Y")` and the 365-day check see it. */
  datatype DateCheck = Unparsable | Parsed(olderThanAYear: bool)

  // ---------------------------------------------------------------------------
  // URL and cache key

  /** `s.lstrip('/')`: drops every leading slash and nothing else. */
  function LStripSlash(s: string): (r: string)
    ensures |r| <= |s| && r == s[|s| - |r|..]
    ensures r == [] || r[0] != '/'
    ensures forall i :: 0 <= i < |s| - |r| ==> s[i] == '/'
  {
    if s != [] && s[0] == '/' then LStripSlash(s[1..]) else s
  }

  /**
   * `f"{BASE_URL}/{endpoint.lstrip('/')}"`: the base URL, one slash, and a path
   * that is the endpoint with its leading slashes gone.
   */
  function Url(endpoint: string): (r: string)
    ensures |r| > |BaseUrl| && r[..|BaseUrl| + 1] == BaseUrl + "/"
    ensures var path := r[|BaseUrl| + 1..];
            (path == [] || path[0] != '/') && |path| <= |endpoint| && path == endpoint[|endpoint| - |path|..]
    ensures var path := r[|BaseUrl| + 1..];
            forall i :: 0 <= i < |endpoint| - |path| ==> endpoint[i] == '/'
  {
    BaseUrl + "/" + LStripSlash(endpoint)
  }

  function Slashes(n: nat): (r: string)
    ensures |r| == n && forall i :: 0 <= i < n ==> r[i] == '/'
  {
    seq(n, _ => '/')
  }

  /** Leading slashes on the endpoint make no difference to the URL. */
  lemma {:induction false} UrlIgnoresLeadingSlashes(endpoint: string, n: nat)
    ensures Url(Slashes(n) + endpoint) == Url(endpoint)
  {
    if n > 0 {
      var s := Slashes(n) + endpoint;
      assert s[0] == '/';
      assert s[1..] == Slashes(n - 1) + endpoint;
      UrlIgnoresLeadingSlashes(endpoint, n - 1);
    } else {
      assert Slashes(n) + endpoint == endpoint;
    }
  }

  /** An endpoint without a leading slash is appended to the base URL as it is. */
  lemma UrlOfPlainEndpoint(endpoint: string)
    requires endpoint == [] || endpoint[0] != '/'
    ensures Url(endpoint) == BaseUrl + "/" + endpoint
  {
  }

  /** `params or {}`. */
  function Items(params: Option<seq<Param>>): (r: seq<Param>)
    ensures params.None? ==> r == []
    ensures params.Some? ==> r == params.value
  {
    if params.Some? then params.value else []
  }

  /** `cache_key = (url, tuple(sorted((params or {}).items())))`. */
  function KeyFor(endpoint: string, params: Option<seq<Param>>): (r: CacheKey)
    ensures r.url == Url(endpoint)
    ensures multiset(r.items) == multiset(Items(params))
    ensures DistinctKeys(Items(params)) ==> SortedByKey(r.items)
  {
    CacheKey(Url(endpoint), SortItems(Items(params)))
  }

  /** Parameter dicts with the same entries give the same key, whatever their insertion order. */
  lemma KeyIgnoresParamOrder(endpoint: string, p: seq<Param>, q: seq<Param>)
    requires DistinctKeys(p) && DistinctKeys(q)
    requires multiset(p) == multiset(q)
    ensures KeyFor(endpoint, Some(p)) == KeyFor(endpoint, Some(q))
  {
    SortIgnoresInsertionOrder(p, q);
  }

  /** No parameters and an empty dict give the same key. */
  lemma KeyOfNoParams(endpoint: string)
    ensures KeyFor(endpoint, None) == KeyFor(endpoint, Some([]))
    ensures KeyFor(endpoint, None).items == []
  {
  }

  /** Equal keys come only from the same URL and the same parameter entries. */
  lemma KeyDeterminesRequest(e1: string, p: seq<Param>, e2: string, q: seq<Param>)
    requires KeyFor(e1, Some(p)) == KeyFor(e2, Some(q))
    ensures Url(e1) == Url(e2)
    ensures multiset(p) == multiset(q)
  {
    assert multiset(p) == multiset(SortItems(p)) == multiset(SortItems(q)) == multiset(q);
  }

  // ---------------------------------------------------------------------------
  // The retry loop, as a function of the outcomes

  /** An attempt that ends `_get`: status 200 and a body that decodes. */
  predicate Succeeded(o: Outcome) {
    o.Response? && o.status == 200 && o.json.Some?
  }

  /** The first successful attempt among attempts `from` .. `retry - 1`, if any. */
  function FirstSuccess(net: nat -> Outcome, from: nat, retry: int): (r: Option<nat>)
    ensures r.Some? ==> from <= r.value < retry && Succeeded(net(r.value))
    ensures r.Some? ==> forall i: nat :: from <= i < r.value ==> !Succeeded(net(i))
    ensures r.None? ==> forall i: nat :: from <= i < retry ==> !Succeeded(net(i))
    decreases retry - from
  {
    if retry <= from then None
    else if Succeeded(net(from)) then Some(from)
    else FirstSuccess(net, from + 1, retry)
  }

  /** Attempt `i` is the first success when it succeeds and every earlier attempt failed. */
  lemma FirstSuccessAt(net: nat -> Outcome, retry: int, i: nat)
    requires i < retry && Succeeded(net(i))
    requires forall j: nat :: j < i ==> !Succeeded(net(j))
    ensures FirstSuccess(net, 0, retry) == Some(i)
  {
  }

  /** The result of `_get`, the number of network attempts it made and the cache store it leaves. */
  datatype GetOutcome = GetOutcome(result: FetchResult, attempts: nat, store: map<CacheKey, Entry<Json>>)

  /**
   * `_get` for the request whose cache key is `key` and whose URL is `url`,
   * against cache store `store` at `now`, with `retry` attempts allowed and the
   * cache's default ttl `ttl`.
   */
  function GetSpec(store: map<CacheKey, Entry<Json>>, key: CacheKey, url: string,
                   now: int, retry: int, ttl: Option<int>, net: nat -> Outcome): (r: GetOutcome)
    ensures r.attempts == 0 <==> Lookup(store, key, now, JNull) != JNull || retry <= 0
    ensures r.store != store ==> r.result.Fetched? && r.store == Put(store, key, r.result.payload, ttl, now)
  {
    var cached := Lookup(store, key, now, JNull);
    if cached != JNull then GetOutcome(Fetched(cached), 0, store)
    else match FirstSuccess(net, 0, retry)
      case Some(j) =>
        var payload := net(j).json.value;
        GetOutcome(Fetched(payload), j + 1, Put(store, key, payload, ttl, now))
      case None =>
        GetOutcome(ConnectionError(url), if retry > 0 then retry else 0, store)
  }

  /** A live non-null cached value is returned with no network attempt and no write. */
  lemma HitNeverFetches(store: map<CacheKey, Entry<Json>>, key: CacheKey, url: string,
                        now: int, retry: int, ttl: Option<int>, net: nat -> Outcome)
    requires Visible(store, key, now)
    requires store[key].value != JNull
    ensures GetSpec(store, key, url, now, retry, ttl, net)
            == GetOutcome(Fetched(store[key].value), 0, store)
  {
  }

  /** A cached `None` counts as a miss: the call behaves as if the key were absent. */
  lemma CachedNullIsMiss(store: map<CacheKey, Entry<Json>>, key: CacheKey, url: string,
                         now: int, retry: int, ttl: Option<int>, net: nat -> Outcome)
    requires key in store && store[key].value == JNull
    ensures var o := GetSpec(store, key, url, now, retry, ttl, net);
            var o' := GetSpec(store - {key}, key, url, now, retry, ttl, net);
            o.result == o'.result && o.attempts == o'.attempts
  {
  }

  /** At most `retry` attempts are made, and none at all when `retry <= 0`. */
  lemma AttemptsBounded(store: map<CacheKey, Entry<Json>>, key: CacheKey, url: string,
                        now: int, retry: int, ttl: Option<int>, net: nat -> Outcome)
    ensures GetSpec(store, key, url, now, retry, ttl, net).attempts <= if retry > 0 then retry else 0
  {
  }

  /**
   * On a miss, a success is the first attempt that got a decodable 200: its body
   * is returned and stored under the key with the default ttl, and every earlier
   * attempt failed.
   */
  lemma MissReturnsFirstSuccess(store: map<CacheKey, Entry<Json>>, key: CacheKey, url: string,
                                now: int, retry: int, ttl: Option<int>, net: nat -> Outcome)
    requires Lookup(store, key, now, JNull) == JNull
    ensures var o := GetSpec(store, key, url, now, retry, ttl, net);
            o.result.Fetched? ==>
              && 1 <= o.attempts <= retry
              && Succeeded(net(o.attempts - 1))
              && o.result.payload == net(o.attempts - 1).json.value
              && (forall i: nat :: i < o.attempts - 1 ==> !Succeeded(net(i)))
              && o.store == Put(store, key, o.result.payload, ttl, now)
  {
    var o := GetSpec(store, key, url, now, retry, ttl, net);
    var f := FirstSuccess(net, 0, retry);
    if f.Some? {
      assert o.attempts == f.value + 1;
      assert o.result.payload == net(f.value).json.value;
    }
  }

  /**
   * A failed call raises `ConnectionError` only when all `retry` attempts failed
   * (non-200, undecodable body or exception), and it leaves the cache unchanged.
   */
  lemma FailureNeverPoisons(store: map<CacheKey, Entry<Json>>, key: CacheKey, url: string,
                            now: int, retry: int, ttl: Option<int>, net: nat -> Outcome)
    ensures var o := GetSpec(store, key, url, now, retry, ttl, net);
            o.result.ConnectionError? <==>
              Lookup(store, key, now, JNull) == JNull
              && forall i: nat :: i < retry ==> !Succeeded(net(i))
    ensures var o := GetSpec(store, key, url, now, retry, ttl, net);
            o.result.ConnectionError? ==>
              o.store == store && o.result.url == url && o.attempts == if retry > 0 then retry else 0
  {
    var o := GetSpec(store, key, url, now, retry, ttl, net);
    if Lookup(store, key, now, JNull) == JNull && forall i: nat :: i < retry ==> !Succeeded(net(i)) {
      assert FirstSuccess(net, 0, retry).None?;
    }
  }

  /** With `retry <= 0` a miss raises at once, without any attempt. */
  lemma NoRetryRaises(store: map<CacheKey, Entry<Json>>, key: CacheKey, url: string,
                      now: int, retry: int, ttl: Option<int>, net: nat -> Outcome)
    requires retry <= 0
    requires Lookup(store, key, now, JNull) == JNull
    ensures GetSpec(store, key, url, now, retry, ttl, net) == GetOutcome(ConnectionError(url), 0, store)
  {
  }

  /**
   * A fetched non-null payload cached with default ttl `t` answers the same
   * request again, without any attempt, until `t` seconds have passed.
   */
  lemma FetchedThenHit(store: map<CacheKey, Entry<Json>>, key: CacheKey, url: string,
                       now: int, later: int, retry: int, t: int, net: nat -> Outcome, net': nat -> Outcome)
    requires now <= later < now + t
    requires Lookup(store, key, now, JNull) == JNull
    requires var o := GetSpec(store, key, url, now, retry, Some(t), net);
             o.result.Fetched? && o.result.payload != JNull
    ensures var o := GetSpec(store, key, url, now, retry, Some(t), net);
            GetSpec(o.store, key, url, later, retry, Some(t), net') == GetOutcome(o.result, 0, o.store)
  {
    var o := GetSpec(store, key, url, now, retry, Some(t), net);
    assert o.store == Put(store, key, o.result.payload, Some(t), now);
    PutVisibleUntilExpiry(store, key, o.result.payload, t, now, later, JNull);
  }

  // ---------------------------------------------------------------------------
  // Request builders

  /**
   * `get_price(ids, vs_currencies="usd")` sends exactly `ids` and
   * `vs_currencies`; `ids` is passed on as the caller gives it, a string or a
   * list of coin ids.
   */
  function PriceRequest(ids: ParamValue, vsCurrencies: string := "usd"): (r: Request)
    ensures r.endpoint == "simple/price"
    ensures DistinctKeys(r.params) && Keys(r.params) == {"ids", "vs_currencies"}
    ensures ValueOf(r.params, "ids") == Some(ids)
    ensures ValueOf(r.params, "vs_currencies") == Some(PStr(vsCurrencies))
  {
    var r := Request("simple/price", [("ids", ids), ("vs_currencies", PStr(vsCurrencies))]);
    assert Keys(r.params) == {"ids", "vs_currencies"} by {
      assert r.params[0] in r.params && r.params[1] in r.params;
    }
    r
  }

  /**
   * `get_market(vs_currency="usd", per_page=10, page=1)` always asks for market
   * cap order without sparkline.
   */
  function MarketRequest(vsCurrency: string := "usd", perPage: int := 10, page: int := 1): (r: Request)
    ensures r.endpoint == "coins/markets"
    ensures ValueOf(r.params, "vs_currency") == Some(PStr(vsCurrency))
    ensures ValueOf(r.params, "order") == Some(PStr("market_cap_desc"))
  {
    Request("coins/markets", [
      ("vs_currency", PStr(vsCurrency)),
      ("order", PStr("market_cap_desc")),
      ("per_page", PInt(perPage)),
      ("page", PInt(page)),
      ("sparkline", PBool(false))
    ])
  }

  /**
   * The market parameters form a dict of exactly five entries, with the page
   * size and page as given and sparkline off.
   */
  lemma MarketRequestParams(vsCurrency: string, perPage: int, page: int)
    ensures var r := MarketRequest(vsCurrency, perPage, page);
            DistinctKeys(r.params) && Keys(r.params) == {"vs_currency", "order", "per_page", "page", "sparkline"}
    ensures var r := MarketRequest(vsCurrency, perPage, page);
            && ValueOf(r.params, "per_page") == Some(PInt(perPage))
            && ValueOf(r.params, "page") == Some(PInt(page))
            && ValueOf(r.params, "sparkline") == Some(PBool(false))
  {
    var r := MarketRequest(vsCurrency, perPage, page);
    assert r.params[0] in r.params && r.params[1] in r.params && r.params[2] in r.params;
    assert r.params[3] in r.params && r.params[4] in r.params;
    ValueOfAt(r.params, 2);
    ValueOfAt(r.params, 3);
    ValueOfAt(r.params, 4);
  }

  /** Without a page argument the first page is requested. */
  lemma MarketDefaultsToFirstPage(vsCurrency: string, perPage: int)
    ensures ValueOf(MarketRequest(vsCurrency, perPage).params, "page") == Some(PInt(1))
  {
    MarketRequestParams(vsCurrency, perPage, 1);
  }

  /**
   * `get_history(coin_id, date)`: no request for a date that does not parse or
   * lies more than a year back; otherwise the coin's history endpoint with the
   * date as its one parameter.
   */
  function HistoryRequest(coinId: string, date: string, check: DateCheck): (r: Option<Request>)
    ensures r.None? <==> check.Unparsable? || check.olderThanAYear
    ensures r.Some? ==> r.value.endpoint == "coins/" + coinId + "/history"
    ensures r.Some? ==> DistinctKeys(r.value.params) && Keys(r.value.params) == {"date"}
    ensures r.Some? ==> ValueOf(r.value.params, "date") == Some(PStr(date))
  {
    match check
    case Unparsable => None
    case Parsed(tooOld) =>
      if tooOld then None
      else
        var params := [("date", PStr(date))];
        assert Keys(params) == {"date"} by {
          assert params[0] in params;
        }
        Some(Request("coins/" + coinId + "/history", params))
  }

  // ---------------------------------------------------------------------------
  // The client object

  class Client {
    const retry: int
    const timeout: int
    const cache: LocalCache<CacheKey, Json>

    /**
     * `CoinGeckoClient(retry=3, timeout=10, cache_ttl=300)`: a cache over the
     * default directory, whose entries `persisted` survive from earlier runs,
     * with `cache_ttl` as its default ttl.
     */
    constructor (persisted: map<CacheKey, Entry<Json>>, retry: int := 3, timeout: int := 10, cacheTtl: Option<int> := Some(300))
      ensures this.retry == retry && this.timeout == timeout
      ensures fresh(cache) && cache.store == persisted
      ensures cache.defaultTtl == cacheTtl && cache.maxsize == DefaultMaxsize
    {
      this.retry := retry;
      this.timeout := timeout;
      cache := new LocalCache(persisted, ttl := cacheTtl);
    }

    /** `_get(endpoint, params=None)`: fetch-or-cache with bounded retry. */
    method Get(endpoint: string, now: int, net: nat -> Outcome, params: Option<seq<Param>> := None)
      returns (r: FetchResult, attempts: nat)
      modifies cache
      ensures GetOutcome(r, attempts, cache.store)
              == GetSpec(old(cache.store), KeyFor(endpoint, params), Url(endpoint), now, retry, cache.defaultTtl, net)
    {
      var url := Url(endpoint);
      var key := CacheKey(url, SortItems(Items(params)));
      r, attempts := FetchOrCache(key, url, now, net);
    }

    /** The body of `_get` once the URL and the cache key are built. */
    method FetchOrCache(key: CacheKey, url: string, now: int, net: nat -> Outcome)
      returns (r: FetchResult, attempts: nat)
      modifies cache
      ensures GetOutcome(r, attempts, cache.store)
              == GetSpec(old(cache.store), key, url, now, retry, cache.defaultTtl, net)
    {
      var cached := cache.Get(key, now, JNull);
      if cached != JNull {
        return Fetched(cached), 0;
      }
      attempts := 0;
      var i := 0;
      while i < retry
        invariant 0 <= i <= if retry > 0 then retry else 0
        invariant attempts == i
        invariant forall j: nat :: j < i ==> !Succeeded(net(j))
        invariant cache.store == old(cache.store)
      {
        var outcome := net(i);
        attempts := attempts + 1;
        if Succeeded(outcome) {
          var result := outcome.json.value;
          cache.Set(key, result, now);
          FirstSuccessAt(net, retry, i);
          return Fetched(result), attempts;
        }
        // A non-200 status, an undecodable body and a raised exception all
        // fall through to the next attempt without touching the cache.
        i := i + 1;
      }
      r := ConnectionError(url);
    }

    /** `get_price(ids, vs_currencies="usd")`. */
    method GetPrice(now: int, net: nat -> Outcome, ids: ParamValue, vsCurrencies: string := "usd")
      returns (r: FetchResult, attempts: nat)
      modifies cache
      ensures var q := PriceRequest(ids, vsCurrencies);
              GetOutcome(r, attempts, cache.store)
              == GetSpec(old(cache.store), KeyFor(q.endpoint, Some(q.params)), Url(q.endpoint), now, retry, cache.defaultTtl, net)
    {
      var q := PriceRequest(ids, vsCurrencies);
      r, attempts := Get(q.endpoint, now, net, Some(q.params));
    }

    /** `get_market(vs_currency="usd", per_page=10, page=1)`. */
    method GetMarket(now: int, net: nat -> Outcome, vsCurrency: string := "usd", perPage: int := 10, page: int := 1)
      returns (r: FetchResult, attempts: nat)
      modifies cache
      ensures var q := MarketRequest(vsCurrency, perPage, page);
              GetOutcome(r, attempts, cache.store)
              == GetSpec(old(cache.store), KeyFor(q.endpoint, Some(q.params)), Url(q.endpoint), now, retry, cache.defaultTtl, net)
    {
      var q := MarketRequest(vsCurrency, perPage, page);
      r, attempts := Get(q.endpoint, now, net, Some(q.params));
    }

    /**
     * `get_history(coin_id, date)`: `None` without any network attempt or cache
     * write when the date is rejected; otherwise what `_get` gives.
     */
    method GetHistory(now: int, net: nat -> Outcome, coinId: string, date: string, check: DateCheck)
      returns (r: Option<FetchResult>, attempts: nat)
      modifies cache
      ensures HistoryRequest(coinId, date, check).None? ==>
                r == None && attempts == 0 && cache.store == old(cache.store)
      ensures HistoryRequest(coinId, date, check).Some? ==>
                var q := HistoryRequest(coinId, date, check).value;
                var o := GetSpec(old(cache.store), KeyFor(q.endpoint, Some(q.params)), Url(q.endpoint), now, retry, cache.defaultTtl, net);
                r == Some(o.result) && attempts == o.attempts && cache.store == o.store
    {
      var q := HistoryRequest(coinId, date, check);
      if q.None? {
        return None, 0;
      }
      var res;
      res, attempts := Get(q.value.endpoint, now, net, Some(q.value.params));
      r := Some(res);
    }
  }
}
