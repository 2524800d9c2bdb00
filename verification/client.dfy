/** The four public calls of `Client`: resolve the location (if any), build the
    endpoint path, fetch it through the gateway, and wrap the payload. */
module ClientApi {
  import opened Wrappers
  import opened Decimal
  import opened Http
  import opened Errors
  import opened Gateway
  import opened Locations
  import opened Endpoints

  /** The fields passed to the `AirRaidAlertOblastStatus` constructor. */
  datatype OblastStatus = OblastStatus(locationTitle: string, status: Json, oblastLevelOnly: bool)

  /** The fields passed to the `AirRaidAlertOblastStatuses` constructor. */
  datatype OblastStatuses = OblastStatuses(statuses: Json, oblastLevelOnly: bool)

  /** Every request of the call went to `endpoint` and only that cache key moved. */
  predicate ConfinedTo(cache: Cache, endpoint: string, sent: seq<Request>, after: Cache) {
    && 1 <= |sent| <= 2
    && (forall i :: 0 <= i < |sent| ==> sent[i].url == UrlFor(endpoint))
    && after - {endpoint} == cache - {endpoint}
    && cache.Keys <= after.Keys
  }

  /** `get_active_alerts`: the payload is handed to `Alerts` unchanged. */
  function GetActiveAlerts(cfg: Config, cache: Cache, useCache: bool, replies: seq<Reply>)
    : (o: Outcome<Json>)
    ensures o == Fetch(cfg, cache, "alerts/active.json", useCache, replies)
    ensures ConfinedTo(cache, "alerts/active.json", o.sent, o.cache)
    ensures o.result.Err? ==> o.cache == cache
    ensures o.result.Ok? ==> "alerts/active.json" in o.cache && o.cache["alerts/active.json"].data == o.result.value
  {
    Fetch(cfg, cache, ACTIVE_ALERTS, useCache, replies)
  }

  /** `get_alerts_history`: an unresolvable name fails before any request. */
  function GetAlertsHistory(cfg: Config, names: UidTable, cache: Cache, loc: LocationRef, period: string,
                            useCache: bool, replies: seq<Reply>)
    : (o: Outcome<Json>)
    ensures ResolveUid(names, loc).Err? ==> o == Outcome(Err(ResolveUid(names, loc).error), cache, [])
    ensures ResolveUid(names, loc).Ok? ==>
      var endpoint := "regions/" + IntToString(ResolveUid(names, loc).value) + "/alerts/" + period + ".json";
      && o == Fetch(cfg, cache, endpoint, useCache, replies)
      && ConfinedTo(cache, endpoint, o.sent, o.cache)
      && (o.result.Err? ==> o.cache == cache)
      && (o.result.Ok? ==> endpoint in o.cache && o.cache[endpoint].data == o.result.value)
  {
    match ResolveUid(names, loc)
    case Err(e) => Outcome(Err(e), cache, [])
    case Ok(uid) => Fetch(cfg, cache, HistoryEndpoint(uid, period), useCache, replies)
  }

  /** `get_air_raid_alert_status`: the title lookup happens after the request, so a
      missing title fails with the fetched payload already cached. */
  function GetAirRaidAlertStatus(cfg: Config, names: UidTable, titles: TitleTable, cache: Cache,
                                 loc: LocationRef, oblastLevelOnly: bool, useCache: bool, replies: seq<Reply>)
    : (o: Outcome<OblastStatus>)
    ensures ResolveUid(names, loc).Err? ==> o == Outcome(Err(ResolveUid(names, loc).error), cache, [])
    ensures ResolveUid(names, loc).Ok? ==>
      var uid := ResolveUid(names, loc).value;
      var f := Fetch(cfg, cache, StatusEndpoint(uid), useCache, replies);
      && o.cache == f.cache && o.sent == f.sent
      && (o.result.Ok? <==> f.result.Ok? && uid in titles)
      && (f.result.Err? ==> o.result == Err(f.result.error))
      && (f.result.Ok? && uid !in titles ==> o.result == Err(TitleNotFound(uid)))
      && (o.result.Ok? ==> o.result.value == OblastStatus(titles[uid], f.result.value, oblastLevelOnly))
  {
    match ResolveUid(names, loc)
    case Err(e) => Outcome(Err(e), cache, [])
    case Ok(uid) =>
      var f := Fetch(cfg, cache, StatusEndpoint(uid), useCache, replies);
      match f.result
      case Err(e) => Outcome(Err(e), f.cache, f.sent)
      case Ok(data) =>
        match ResolveTitle(titles, uid)
        case Err(e) => Outcome(Err(e), f.cache, f.sent)
        case Ok(title) => Outcome(Ok(OblastStatus(title, data, oblastLevelOnly)), f.cache, f.sent)
  }

  /** `get_air_raid_alert_statuses_by_oblast`. */
  function GetAirRaidAlertStatusesByOblast(cfg: Config, cache: Cache, oblastLevelOnly: bool, useCache: bool,
                                           replies: seq<Reply>)
    : (o: Outcome<OblastStatuses>)
    ensures var f := Fetch(cfg, cache, "iot/active_air_raid_alerts_by_oblast.json", useCache, replies);
      && o.cache == f.cache && o.sent == f.sent
      && (o.result.Ok? <==> f.result.Ok?)
      && (f.result.Err? ==> o.result == Err(f.result.error))
      && (f.result.Ok? ==> o.result.value == OblastStatuses(f.result.value, oblastLevelOnly))
    ensures ConfinedTo(cache, "iot/active_air_raid_alerts_by_oblast.json", o.sent, o.cache)
    ensures o.result.Err? ==> o.cache == cache
    ensures o.result.Ok? ==>
      o.result.value.oblastLevelOnly == oblastLevelOnly
      && "iot/active_air_raid_alerts_by_oblast.json" in o.cache
      && o.cache["iot/active_air_raid_alerts_by_oblast.json"].data == o.result.value.statuses
  {
    var f := Fetch(cfg, cache, STATUSES_BY_OBLAST, useCache, replies);
    match f.result
    case Err(e) => Outcome(Err(e), f.cache, f.sent)
    case Ok(data) => Outcome(Ok(OblastStatuses(data, oblastLevelOnly)), f.cache, f.sent)
  }

  /** Passing an all-digit text is the same call as passing its value, and never
      consults the name table: "12" and "0012" behave as 12. */
  lemma NumericTextSameAsUid(cfg: Config, names1: UidTable, names2: UidTable, cache: Cache, text: string,
                             period: string, useCache: bool, replies: seq<Reply>)
    requires IsDigitString(text)
    ensures GetAlertsHistory(cfg, names1, cache, Name(text), period, useCache, replies)
         == GetAlertsHistory(cfg, names2, cache, Uid(ParseDigits(text)), period, useCache, replies)
  {
  }

  /** The same for the air-raid status call. */
  lemma NumericTextSameAsUidForStatus(cfg: Config, names1: UidTable, names2: UidTable, titles: TitleTable,
                                      cache: Cache, text: string, oblastLevelOnly: bool, useCache: bool,
                                      replies: seq<Reply>)
    requires IsDigitString(text)
    ensures GetAirRaidAlertStatus(cfg, names1, titles, cache, Name(text), oblastLevelOnly, useCache, replies)
         == GetAirRaidAlertStatus(cfg, names2, titles, cache, Uid(ParseDigits(text)), oblastLevelOnly, useCache, replies)
  {
  }

  /** Different regions or periods never read or write each other's cache entry. */
  lemma HistoryCallsIsolated(cfg: Config, cache: Cache, u1: int, p1: string, u2: int, p2: string,
                             useCache: bool, replies: seq<Reply>)
    requires u1 != u2 || p1 != p2
    ensures var o := GetAlertsHistory(cfg, map[], cache, Uid(u1), p1, useCache, replies);
      var other := HistoryEndpoint(u2, p2);
      (other in o.cache <==> other in cache) && (other in cache ==> o.cache[other] == cache[other])
  {
    if HistoryEndpoint(u1, p1) == HistoryEndpoint(u2, p2) {
      HistoryEndpointInjective(u1, p1, u2, p2);
    }
    var o := GetAlertsHistory(cfg, map[], cache, Uid(u1), p1, useCache, replies);
    var other := HistoryEndpoint(u2, p2);
    assert other in o.cache - {HistoryEndpoint(u1, p1)} <==> other in cache - {HistoryEndpoint(u1, p1)};
  }
}
