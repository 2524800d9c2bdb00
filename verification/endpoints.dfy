/** The endpoint paths of the four API calls, built by string interpolation, and
    the fact that distinct arguments never share a path (and so a cache key). */
module Endpoints {
  import opened Decimal

  const ACTIVE_ALERTS := "alerts/active.json"
  const STATUSES_BY_OBLAST := "iot/active_air_raid_alerts_by_oblast.json"

  /** The history path of a region: the "regions" segment, the uid's decimal text as
      the whole second segment, then "alerts", then the period (not validated) with a
      ".json" suffix. */
  function HistoryEndpoint(uid: int, period: string): (e: string)
    ensures var u := IntToString(uid);
      && |e| == 21 + |u| + |period|
      && e[..8] == "regions/"
      && e[8..8 + |u|] == u && NoSlash(e[8..8 + |u|])
      && e[8 + |u|..16 + |u|] == "/alerts/"
      && e[16 + |u|..|e| - 5] == period
      && e[|e| - 5..] == ".json"
  {
    IntTextHasNoSlash(uid);
    var u := IntToString(uid);
    var a := "regions/" + u;
    var b := a + "/alerts/";
    var c := b + period;
    var e := c + ".json";
    assert e[..|c|] == c && c[..|b|] == b && b[..|a|] == a;
    assert e[..8] == a[..8] == "regions/";
    assert e[8..8 + |u|] == a[8..] == u;
    assert e[8 + |u|..16 + |u|] == b[|a|..] == "/alerts/";
    assert e[16 + |u|..|e| - 5] == c[|b|..] == period;
    assert e[|e| - 5..] == ".json";
    e
  }

  /** The status path of a region: the uid's decimal text as the last segment under
      "iot/active_air_raid_alerts", with a ".json" suffix. */
  function StatusEndpoint(uid: int): (e: string)
    ensures var u := IntToString(uid);
      && |e| == 32 + |u|
      && e[..27] == "iot/active_air_raid_alerts/"
      && e[27..|e| - 5] == u && NoSlash(e[27..|e| - 5])
      && e[|e| - 5..] == ".json"
  {
    IntTextHasNoSlash(uid);
    "iot/active_air_raid_alerts/" + IntToString(uid) + ".json"
  }

  predicate NoSlash(s: string) {
    forall i :: 0 <= i < |s| ==> s[i] != '/'
  }

  /** The decimal text of an integer is a minus sign and digits: no '/'. */
  lemma IntTextHasNoSlash(i: int)
    ensures NoSlash(IntToString(i))
  {
  }

  /** Distinct (uid, period) pairs get distinct history paths. */
  lemma HistoryEndpointInjective(u1: int, p1: string, u2: int, p2: string)
    requires HistoryEndpoint(u1, p1) == HistoryEndpoint(u2, p2)
    ensures u1 == u2 && p1 == p2
  {
    var a, b := IntToString(u1), IntToString(u2);
    var s := HistoryEndpoint(u1, p1);
    IntTextHasNoSlash(u1);
    IntTextHasNoSlash(u2);
    assert s == "regions/" + a + "/alerts/" + p1 + ".json";
    assert s == "regions/" + b + "/alerts/" + p2 + ".json";
    assert forall j :: 0 <= j < |a| ==> s[8 + j] == a[j];
    assert forall j :: 0 <= j < |b| ==> s[8 + j] == b[j];
    assert s[8 + |a|] == '/';
    assert s[8 + |b|] == '/';
    // The first '/' after "regions/" ends the uid text in both spellings.
    assert |a| == |b|;
    assert a == s[8..8 + |a|] == b;
    IntToStringInjective(u1, u2);
    assert p1 == s[16 + |a|..|s| - 5] == p2;
  }

  /** Distinct uids get distinct status paths. */
  lemma StatusEndpointInjective(u1: int, u2: int)
    requires StatusEndpoint(u1) == StatusEndpoint(u2)
    ensures u1 == u2
  {
  }

  /** The four kinds of call never share a path. */
  lemma EndpointFamiliesDisjoint(u1: int, period: string, u2: int)
    ensures HistoryEndpoint(u1, period) != ACTIVE_ALERTS
    ensures HistoryEndpoint(u1, period) != StatusEndpoint(u2)
    ensures HistoryEndpoint(u1, period) != STATUSES_BY_OBLAST
    ensures StatusEndpoint(u2) != ACTIVE_ALERTS
    ensures StatusEndpoint(u2) != STATUSES_BY_OBLAST
    ensures ACTIVE_ALERTS != STATUSES_BY_OBLAST
  {
    var h := HistoryEndpoint(u1, period);
    var st := StatusEndpoint(u2);
    assert h[0] == 'r';
    assert st[0] == 'i';
    IntTextHasNoSlash(u2);
    assert st[26] == '/';
    assert STATUSES_BY_OBLAST[26] == '_';
  }
}
