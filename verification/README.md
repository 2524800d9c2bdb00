# alerts-in-ua request gateway, modelled in Dafny

This project models the request layer of the `alerts_in_ua` Python client for the
alerts.in.ua air-raid-alert API (`alerts_in_ua/client.py`):

- `Client._request`: a conditional-GET cache keyed by endpoint path. If an entry
  exists and the cache is enabled, a GET carrying `If-Modified-Since` (section 13.1.3
  of RFC 9110) is sent first. A `304 Not Modified` reply (section 15.4.5 of RFC 9110)
  returns the cached payload. Any other reply to it is dropped and a plain GET follows.
  A 200 to the plain GET stores (body, `Last-Modified`) as one pair (section 8.8.2 of
  RFC 9110).
- The mapping from a non-200 status and its body to the raised error class and its
  message.
- Location arguments (`int` or `str`): digit-only text, names looked up in a table,
  and the endpoint paths of the four public calls.

The network is a reply script. The `k`-th request of a call receives the script's
`k`-th reply. A `TransportError` reply, or running past the end of the script, stands
for `requests.get` raising. Every call is a pure function of its inputs. It returns an
`Outcome`: the result (`Ok(payload)` or `Err(failure)`), the cache afterwards, and
the requests it sent, in order.

Modules:

- `Wrappers`: `Option`, `Result`.
- `Decimal`: `str(int)` and `int(str)` for decimal text.
- `Http`: decoded JSON values, requests, replies.
- `Errors`: error classes, messages, `ErrorFor`.
- `Gateway`: configuration, headers, cache, `Fetch` (which is `_request`).
- `Locations`: `LocationRef = Uid(int) | Name(string)`, uid and title lookup.
- `Endpoints`: path builders and the proof that distinct arguments give distinct paths.
- `ClientApi`: the four `get_*` calls.
- `Session`: properties of several calls made one after another.

Behaviour of the code that is easy to misread, and how the model follows it:

- A 401/403/429 whose body is a JSON object without `message` (or with `message: null`)
  gets the message `"None HTTP Code:<status>"`. It does not get the default message. The
  default is used only when the body is not a JSON object.
- A 200 whose body does not decode raises from `response.json()`. The model gives
  `BodyNotJson` and leaves the cache unchanged.
- A 200 without a `Last-Modified` header raises `KeyError` before anything is stored.
  The model gives `NoLastModified` and leaves the cache unchanged.
- An exception raised by the conditional GET propagates. No plain GET follows.
- In `get_air_raid_alert_status` the title lookup runs after the request. A missing
  title therefore fails even though the fetched payload is already cached.
- A 304 to a plain GET is not a success: it maps to `"Unknown error. HTTP Code:304"`.

## Model

| member | source | states |
|---|---|---|
| Decimal.NatToString | alerts_in_ua/client.py:98 | the interpolated uid text is a non-empty digit string without leading zeros, and it is "0" exactly for 0 |
| Decimal.ParseDigits | alerts_in_ua/client.py:91-92 | `int()` of a digit string; a string whose first digit is not zero denotes a positive number |
| Decimal.IntToString | alerts_in_ua/client.py:98 | the interpolated integer starts with '-' exactly when it is negative; the rest is canonical digits whose value is the integer's magnitude |
| Decimal.ParseLeadingZero | alerts_in_ua/client.py:91-92 | a leading '0' does not change the value `int()` gives |
| Decimal.ParseLeadingZeros | alerts_in_ua/client.py:91-92 | leading zeros leave the value unchanged, `int("0012")` is 12 (for any count, since Python's conversion limit is not modelled) |
| Decimal.ParseNatToString | alerts_in_ua/client.py:91-92 | `int()` of a uid's decimal text gives back that uid |
| Decimal.NatToStringParse | alerts_in_ua/client.py:91-92 | rendering the value of a canonical digit string gives back the same string |
| Decimal.IntToStringInjective | alerts_in_ua/client.py:98 | distinct integers are interpolated as distinct text |
| Errors.PyStr | alerts_in_ua/client.py:64 | `str()` of a message value: a string is itself, an integer is its decimal text, a boolean is "True" or "False" |
| Errors.JsonMessage | alerts_in_ua/client.py:63 | `data.get("message")` is absent exactly when the key is missing or null; otherwise it is the `str()` of the value |
| Errors.BodyMessage | alerts_in_ua/client.py:60-66 | a message is built exactly when the body is a JSON object; it always ends with " HTTP Code:<status>"; it is "None HTTP Code:<status>" when `message` is missing or null, and `str(message)` then " HTTP Code:<status>" otherwise |
| Errors.ErrorFor | alerts_in_ua/client.py:67-82 | 401, 403, 429 and 500 map to Unauthorized, Forbidden, RateLimit and InternalServer, in both directions, and every other code to the generic error; 401/403/429 take the body message or their own default; 500 always says "Internal server error"; other codes say "Unknown error. HTTP Code:<status>" |
| Errors.KindIgnoresBody | alerts_in_ua/client.py:67-82 | the error class depends on the status code alone |
| Errors.FixedMessageIgnoresBody | alerts_in_ua/client.py:79-82 | for 500 and unlisted codes the whole error is the same whatever the body holds |
| Errors.ServerMessageUsed | alerts_in_ua/client.py:60-78 | any non-null `message` in a JSON object body becomes "str(message) HTTP Code:<status>" for 401/403/429; a string message appears as itself |
| Errors.IntMessageExample | alerts_in_ua/client.py:60-70 | a 401 whose body is an object with `message: 42` raises the message "42 HTTP Code:401" |
| Errors.MissingMessageRendersNone | alerts_in_ua/client.py:63-64 | a JSON object body without `message` yields "None HTTP Code:<status>" and not the default |
| Errors.DefaultIffNoObject | alerts_in_ua/client.py:60-78 | for 401/403/429 the default message is used if and only if the body is not a JSON object; otherwise the message ends with " HTTP Code:<status>" |
| Gateway.BaseHeaders | alerts_in_ua/client.py:21-25 | the static headers are exactly Accept: application/json, Authorization: "Bearer " + token and the User-Agent string, so they never carry a validator |
| Http.ReplyAt | alerts_in_ua/client.py:36-49 | the `k`-th request of a call gets the script's `k`-th reply, and a transport error once the script has run out |
| Gateway.ConditionalHeaders | alerts_in_ua/client.py:32-35 | the conditional headers are the base headers plus `If-Modified-Since` set to the stored validator |
| Gateway.PlainFetch | alerts_in_ua/client.py:44-82 | the plain GET has the base headers; it succeeds exactly on a 200 with a JSON body and a Last-Modified value, and then returns the body and stores the pair; otherwise the cache is unchanged, and the failure is Transport for a raised request, the mapped API error for a non-200, BodyNotJson for an undecodable 200 and NoLastModified for a 200 without the header |
| Gateway.Fetch | alerts_in_ua/client.py:28-82 | one or two requests to "https://api.alerts.in.ua/v1/" + endpoint; the first carries `If-Modified-Since` (the stored Last-Modified) exactly when an entry exists and the cache is enabled; later requests carry only base headers; only the endpoint's entry can change; keys are never removed; an error leaves the cache unchanged; a success returns what the cache now holds for the endpoint |
| Gateway.NotModifiedServesCache | alerts_in_ua/client.py:30-42 | with an entry and a 304 to the conditional GET: the result is the cached payload, the cache is unchanged, and one request was sent |
| Gateway.NoValidatorWithoutEntry | alerts_in_ua/client.py:30-49 | with the cache disabled or no entry, exactly one plain request is sent, without a validator |
| Gateway.FreshResponseStored | alerts_in_ua/client.py:52-58 | a 200 to the plain GET returns its body and stores (body, Last-Modified) for the endpoint; every other key keeps its entry |
| Gateway.ErrorStatusNoFallback | alerts_in_ua/client.py:41-82 | a non-200 final status raises the mapped error and leaves the cache unchanged, even if the conditional reply was neither 304 nor 200 |
| Gateway.FailureKinds | alerts_in_ua/client.py:36-82 | a transport error on the conditional GET fails with Transport after that one request; on the plain GET a transport error, a non-200, an undecodable 200 and a 200 without Last-Modified give Transport, the mapped API error, BodyNotJson and NoLastModified |
| Gateway.SuccessIff | alerts_in_ua/client.py:28-82 | a call succeeds if and only if the conditional GET gets a 304, or the plain GET is reached and gets a fresh 200; only the latter changes the cache; two requests are sent exactly when the conditional GET was answered by something other than 304 |
| Locations.ResolveUid | alerts_in_ua/client.py:90-96 | an int is used as-is; a digit string resolves to its `int()` value without a table lookup; other text resolves through the table and fails with LocationNotFound exactly when the table lacks it |
| Locations.ResolveTitle | alerts_in_ua/client.py:112 | the reverse lookup succeeds exactly for uids in the title table and fails with TitleNotFound otherwise |
| Locations.DigitsBypassTable | alerts_in_ua/client.py:90-94 | an all-digit string resolves the same whatever the name table holds |
| Locations.NumericNameIsUid | alerts_in_ua/client.py:90-96 | the decimal text of a uid resolves to that uid, just as the int does |
| Locations.LeadingZerosSameUid | alerts_in_ua/client.py:90-92 | "0012" resolves to the same uid as "12", for any count of leading zeros (Python's conversion limit is not modelled) |
| Locations.DigitNameCanonicalText | alerts_in_ua/client.py:91-98 | a digit string without leading zeros resolves to a uid whose interpolated text is that string again |
| Endpoints.HistoryEndpoint | alerts_in_ua/client.py:98 | the history path is "regions/", the uid's decimal text as a whole segment without '/', "/alerts/", the period, ".json" |
| Endpoints.StatusEndpoint | alerts_in_ua/client.py:111 | the status path is "iot/active_air_raid_alerts/", the uid's decimal text as the last segment, ".json" |
| Endpoints.HistoryEndpointInjective | alerts_in_ua/client.py:98 | distinct (uid, period) pairs give distinct "regions/<uid>/alerts/<period>.json" paths |
| Endpoints.StatusEndpointInjective | alerts_in_ua/client.py:111 | distinct uids give distinct "iot/active_air_raid_alerts/<uid>.json" paths |
| Endpoints.EndpointFamiliesDisjoint | alerts_in_ua/client.py:84-118 | the active-alerts, history, status and by-oblast paths never coincide |
| ClientApi.GetActiveAlerts | alerts_in_ua/client.py:84-86 | the outcome is exactly the gateway's for "alerts/active.json": requests go only to that URL, only that key can change, an error leaves the cache unchanged and a success returns the cached payload |
| ClientApi.GetAlertsHistory | alerts_in_ua/client.py:88-100 | an unresolvable location fails with no request and an unchanged cache; otherwise the outcome is exactly the gateway's for "regions/<uid>/alerts/<period>.json", so requests go only there and only that key can change |
| ClientApi.GetAirRaidAlertStatus | alerts_in_ua/client.py:102-113 | an unresolvable location fails with no request; otherwise the call succeeds exactly when the fetch succeeds and the uid has a title; a missing title fails with TitleNotFound and keeps the fetch's cache update |
| ClientApi.GetAirRaidAlertStatusesByOblast | alerts_in_ua/client.py:115-118 | the gateway's cache, requests and failure for "iot/active_air_raid_alerts_by_oblast.json" are passed on unchanged, and a success wraps the gateway's payload with the flag |
| ClientApi.NumericTextSameAsUid | alerts_in_ua/client.py:90-99 | passing an all-digit text such as "12" or "0012" to get_alerts_history is the same call as passing its `int()` value, whatever the name table holds |
| ClientApi.NumericTextSameAsUidForStatus | alerts_in_ua/client.py:104-113 | the same for get_air_raid_alert_status |
| ClientApi.HistoryCallsIsolated | alerts_in_ua/client.py:98-99 | a history call for one (region, period) never touches the cache entry of another |
| Session.FetchStoresScriptReply | alerts_in_ua/client.py:52-57 | any entry a call writes is a (body, Last-Modified) pair that one of that call's replies delivered as a 200 |
| Session.RunSnoc | alerts_in_ua/client.py:26-58 | running one more call applies that call's gateway fetch to the cache left by the earlier calls |
| Session.LastFreshResponseStored | alerts_in_ua/client.py:52-57 | after any earlier calls, a call whose plain GET gets a fresh 200 leaves (body, Last-Modified) in the cache for its endpoint |
| Session.Run | alerts_in_ua/client.py:54-57 | over a sequence of calls no entry is evicted, and every changed entry came from a 200 reply to a call for that endpoint |
| Session.NotModifiedRepeatsLastSuccess | alerts_in_ua/client.py:30-58 | after a successful call, a 304 to the next conditional GET returns the same payload, sends the stored validator, and changes nothing |
| Session.UncachedFetchThenRevalidate | alerts_in_ua/client.py:28-58 | a 200 fetched with the cache disabled is still stored, and the next call with the cache enabled sends its Last-Modified as `If-Modified-Since` |

## Left out

- The HTTP transport (`requests.get`), TLS and the 5-second `REQUEST_TIMEOUT`. Replies come from a script. A timeout or connection failure is the `TransportError` reply, which surfaces as the `Transport` failure.
- JSON decoding. A body is a decoded value or absent (does not decode). Fractional numbers are not modelled (floating point).
- Errors.PyStr: a list or object under `message` is rendered as a fixed stand-in ("[...]" / "{...}"), not as Python's repr. Null, booleans, integers and strings are rendered exactly.
- `UserAgent.get_user_agent()` is outside this model. Its string is a field of `Config`.
- `LocationUidResolver` is outside this model. Its tables are parameters: a name-to-uid map and a uid-to-title map. The model assumes `resolve_uid` and `resolve_location_title` fail on a missing key (LocationNotFound / TitleNotFound); the resolver's own code is not modelled.
- Python's int/str conversion limit (`sys.get_int_max_str_digits()`, 4300 digits by default). `int()` of a longer digit string (leading zeros included) and the f-string of a uid with more digits raise ValueError. The model has no limit.
- The `Alerts`, `AirRaidAlertOblastStatus` and `AirRaidAlertOblastStatuses` constructors are outside this model. The payload is returned as-is or in a record of the constructor's arguments.
- Python default arguments (`use_cache=True`, `period='week_ago'`, `oblast_level_only=False`). Every argument is explicit, so the default period is just one value of `period`.
- Aliasing of the cached payload. `_request` returns the very object it stored (lines 42 and 53-58), so a caller that mutates it mutates the cache entry, and a later 304 returns the mutated object. Payloads here are immutable values, so `Session.NotModifiedRepeatsLastSuccess` holds only when no caller mutates a returned payload.
- Unicode digits accepted by `str.isdigit` (only ASCII '0'..'9' count as digits). A `bool` passed as the location, which Python treats as an int and interpolates as "True"/"False".
- Thread safety of the shared cache dict. Calls are sequential.
