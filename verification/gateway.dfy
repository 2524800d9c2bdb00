/** The request gateway: `Client._request`, one call of which issues one or two GET
    requests against an in-memory cache of (payload, Last-Modified) pairs. */
module Gateway {
  import opened Wrappers
  import opened Http
  import opened Errors

  const API_BASE_URL := "https://api.alerts.in.ua"
  const IF_MODIFIED_SINCE := "If-Modified-Since"

  /** The immutable client configuration: the bearer token and the user-agent
      string (the latter comes from a helper outside this model). */
  datatype Config = Config(token: string, userAgent: string)

  /** A cached payload and the `Last-Modified` value it arrived with, stored as a pair. */
  datatype Entry = Entry(data: Json, lastModified: string)

  /** The client's cache, keyed by endpoint path. */
  type Cache = map<string, Entry>

  /** What a call produces: its result, the cache afterwards, and the requests it
      issued, in order. */
  datatype Outcome<T> = Outcome(result: Result<T, Failure>, cache: Cache, sent: seq<Request>)

  function BaseUrl(): string {
    API_BASE_URL + "/v1/"
  }

  function UrlFor(endpoint: string): string {
    BaseUrl() + endpoint
  }

  /** The static header set sent with every request. */
  function BaseHeaders(cfg: Config): (h: Headers)
    ensures IF_MODIFIED_SINCE !in h
    ensures h.Keys == {"Accept", "Authorization", "User-Agent"}
    ensures h["Accept"] == "application/json"
    ensures h["Authorization"] == "Bearer " + cfg.token
    ensures h["User-Agent"] == cfg.userAgent
  {
    map["Accept" := "application/json",
        "Authorization" := "Bearer " + cfg.token,
        "User-Agent" := cfg.userAgent]
  }

  /** The base headers merged with an `If-Modified-Since` validator. */
  function ConditionalHeaders(cfg: Config, validator: string): (h: Headers)
    ensures h.Keys == BaseHeaders(cfg).Keys + {IF_MODIFIED_SINCE}
    ensures h[IF_MODIFIED_SINCE] == validator
    ensures forall k :: k in BaseHeaders(cfg) ==> h[k] == BaseHeaders(cfg)[k]
  {
    BaseHeaders(cfg)[IF_MODIFIED_SINCE := validator]
  }

  /** The call starts with a conditional request. */
  predicate Revalidates(cache: Cache, endpoint: string, useCache: bool) {
    endpoint in cache && useCache
  }

  /** Position, within the call, of the plain request (if it is issued). */
  function PlainIndex(cache: Cache, endpoint: string, useCache: bool): nat {
    if Revalidates(cache, endpoint, useCache) then 1 else 0
  }

  /** A reply that lets the plain request succeed: 200, a JSON body, a validator. */
  predicate Fresh(r: Reply) {
    r.Reply? && r.status == 200 && r.body.Some? && r.lastModified.Some?
  }

  /** The plain GET and the handling of its reply. `before` holds the request
      already issued in this call, if any. */
  function PlainFetch(cfg: Config, cache: Cache, endpoint: string, reply: Reply, before: seq<Request>)
    : (o: Outcome<Json>)
    ensures o.sent == before + [Get(UrlFor(endpoint), BaseHeaders(cfg))]
    ensures o.result.Ok? <==> Fresh(reply)
    ensures Fresh(reply) ==>
      && o.result.value == reply.body.value
      && o.cache == cache[endpoint := Entry(reply.body.value, reply.lastModified.value)]
    ensures !Fresh(reply) ==> o.cache == cache
    ensures reply.TransportError? ==> o.result == Err(Transport)
    ensures reply.Reply? && reply.status != 200 ==> o.result == Err(Api(ErrorFor(reply.status, reply.body)))
    ensures reply.Reply? && reply.status == 200 && reply.body.None? ==> o.result == Err(BodyNotJson)
    ensures reply.Reply? && reply.status == 200 && reply.body.Some? && reply.lastModified.None? ==>
      o.result == Err(NoLastModified)
  {
    var sent := before + [Get(UrlFor(endpoint), BaseHeaders(cfg))];
    match reply
    case TransportError => Outcome(Err(Transport), cache, sent)
    case Reply(status, body, lastModified) =>
      if status != 200 then Outcome(Err(Api(ErrorFor(status, body))), cache, sent)
      else if body.None? then Outcome(Err(BodyNotJson), cache, sent)
      else if lastModified.None? then Outcome(Err(NoLastModified), cache, sent)
      else Outcome(Ok(body.value), cache[endpoint := Entry(body.value, lastModified.value)], sent)
  }

  /** `Client._request(endpoint, use_cache)`: the `k`-th request of the call is
      answered by `ReplyAt(replies, k)`. */
  function Fetch(cfg: Config, cache: Cache, endpoint: string, useCache: bool, replies: seq<Reply>)
    : (o: Outcome<Json>)
    ensures 1 <= |o.sent| <= 2
    ensures forall i :: 0 <= i < |o.sent| ==> o.sent[i].url == "https://api.alerts.in.ua/v1/" + endpoint
    ensures IF_MODIFIED_SINCE in o.sent[0].headers <==> Revalidates(cache, endpoint, useCache)
    ensures Revalidates(cache, endpoint, useCache) ==>
      o.sent[0].headers == ConditionalHeaders(cfg, cache[endpoint].lastModified)
    ensures forall i :: 0 <= i < |o.sent| && (i > 0 || !Revalidates(cache, endpoint, useCache)) ==>
      o.sent[i].headers == BaseHeaders(cfg)
    ensures o.cache - {endpoint} == cache - {endpoint}
    ensures cache.Keys <= o.cache.Keys
    ensures o.result.Err? ==> o.cache == cache
    ensures o.result.Ok? ==> endpoint in o.cache && o.cache[endpoint].data == o.result.value
  {
    if Revalidates(cache, endpoint, useCache) then
      var entry := cache[endpoint];
      var conditional := Get(UrlFor(endpoint), ConditionalHeaders(cfg, entry.lastModified));
      var first := ReplyAt(replies, 0);
      if first.TransportError? then Outcome(Err(Transport), cache, [conditional])
      else if first.status == 304 then Outcome(Ok(entry.data), cache, [conditional])
      else PlainFetch(cfg, cache, endpoint, ReplyAt(replies, 1), [conditional])
    else
      PlainFetch(cfg, cache, endpoint, ReplyAt(replies, 0), [])
  }

  /** A 304 to the conditional request returns the cached payload, leaves the cache
      as it was, and issues no second request. */
  lemma NotModifiedServesCache(cfg: Config, cache: Cache, endpoint: string, replies: seq<Reply>)
    requires endpoint in cache
    requires HasStatus(ReplyAt(replies, 0), 304)
    ensures var o := Fetch(cfg, cache, endpoint, true, replies);
      && o.result == Ok(cache[endpoint].data)
      && o.cache == cache
      && o.sent == [Get(UrlFor(endpoint), ConditionalHeaders(cfg, cache[endpoint].lastModified))]
  {
  }

  /** Without the cache, or without an entry, exactly one request is issued and it
      carries no validator, even when an entry exists. */
  lemma NoValidatorWithoutEntry(cfg: Config, cache: Cache, endpoint: string, useCache: bool, replies: seq<Reply>)
    requires !useCache || endpoint !in cache
    ensures var o := Fetch(cfg, cache, endpoint, useCache, replies);
      o.sent == [Get(UrlFor(endpoint), BaseHeaders(cfg))]
  {
  }

  /** A 200 with a JSON body and a `Last-Modified` value on the plain request
      returns that body and stores it with that value; no other key changes. */
  lemma FreshResponseStored(cfg: Config, cache: Cache, endpoint: string, useCache: bool, replies: seq<Reply>,
                            body: Json, lastModified: string)
    requires !(Revalidates(cache, endpoint, useCache) && !ReplyAt(replies, 0).Reply?)
    requires !(Revalidates(cache, endpoint, useCache) && HasStatus(ReplyAt(replies, 0), 304))
    requires ReplyAt(replies, PlainIndex(cache, endpoint, useCache)) == Reply(200, Some(body), Some(lastModified))
    ensures var o := Fetch(cfg, cache, endpoint, useCache, replies);
      && o.result == Ok(body)
      && o.cache == cache[endpoint := Entry(body, lastModified)]
      && o.cache[endpoint].lastModified == lastModified
      && (forall k :: k in cache && k != endpoint ==> k in o.cache && o.cache[k] == cache[k])
  {
  }

  /** A final status other than 200 raises the mapped API error and leaves the cache
      as it was, even if an entry for the endpoint exists: no stale fallback. */
  lemma ErrorStatusNoFallback(cfg: Config, cache: Cache, endpoint: string, useCache: bool, replies: seq<Reply>)
    requires !(Revalidates(cache, endpoint, useCache) && !ReplyAt(replies, 0).Reply?)
    requires !(Revalidates(cache, endpoint, useCache) && HasStatus(ReplyAt(replies, 0), 304))
    requires ReplyAt(replies, PlainIndex(cache, endpoint, useCache)).Reply?
    requires ReplyAt(replies, PlainIndex(cache, endpoint, useCache)).status != 200
    ensures var o := Fetch(cfg, cache, endpoint, useCache, replies);
      var last := ReplyAt(replies, PlainIndex(cache, endpoint, useCache));
      && o.result == Err(Api(ErrorFor(last.status, last.body)))
      && o.cache == cache
  {
  }

  /** Each way a call can fail raises its own failure, never an API error for a
      transport or payload problem, and never touches the cache: a transport error on
      the conditional GET stops the call after that one request; on the plain GET a
      transport error, a non-200 status, an undecodable 200 body and a 200 without
      `Last-Modified` give Transport, the mapped API error, BodyNotJson and
      NoLastModified respectively. */
  lemma FailureKinds(cfg: Config, cache: Cache, endpoint: string, useCache: bool, replies: seq<Reply>)
    ensures var o := Fetch(cfg, cache, endpoint, useCache, replies);
      Revalidates(cache, endpoint, useCache) && ReplyAt(replies, 0).TransportError? ==>
        o.result == Err(Transport) && o.cache == cache && |o.sent| == 1
    ensures var o := Fetch(cfg, cache, endpoint, useCache, replies);
      var last := ReplyAt(replies, PlainIndex(cache, endpoint, useCache));
      var reachesPlain := !Revalidates(cache, endpoint, useCache)
        || (ReplyAt(replies, 0).Reply? && ReplyAt(replies, 0).status != 304);
      reachesPlain ==>
        && |o.sent| == PlainIndex(cache, endpoint, useCache) + 1
        && (last.TransportError? ==> o.result == Err(Transport))
        && (last.Reply? && last.status != 200 ==> o.result == Err(Api(ErrorFor(last.status, last.body))))
        && (last.Reply? && last.status == 200 && last.body.None? ==> o.result == Err(BodyNotJson))
        && (last.Reply? && last.status == 200 && last.body.Some? && last.lastModified.None? ==>
              o.result == Err(NoLastModified))
  {
  }

  /** A call succeeds exactly when the conditional request gets a 304, or the plain
      request (reached because the conditional one got neither a 304 nor a transport
      error, or was not sent) gets a fresh 200; the cache changes only in the latter case. */
  lemma SuccessIff(cfg: Config, cache: Cache, endpoint: string, useCache: bool, replies: seq<Reply>)
    ensures var o := Fetch(cfg, cache, endpoint, useCache, replies);
      var revalidates := Revalidates(cache, endpoint, useCache);
      var notModified := revalidates && HasStatus(ReplyAt(replies, 0), 304);
      var reachesPlain := !revalidates || (ReplyAt(replies, 0).Reply? && !notModified);
      var refreshed := reachesPlain && Fresh(ReplyAt(replies, PlainIndex(cache, endpoint, useCache)));
      && (o.result.Ok? <==> notModified || refreshed)
      && (o.cache != cache ==> refreshed)
      && (|o.sent| == 2 <==> revalidates && reachesPlain)
  {
  }
}
