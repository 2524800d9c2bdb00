/** The error taxonomy of the client and the mapping from a non-200 response to
    a typed API error with its message. */
module Errors {
  import opened Wrappers
  import opened Decimal
  import opened Http

  /** The exception classes `UnauthorizedError`, `ForbiddenError`, `RateLimitError`,
      `InternalServerError` and the generic `ApiError`. */
  datatype ErrorKind = Unauthorized | Forbidden | RateLimit | InternalServer | UnknownApi

  /** A raised API error: its class and its message argument. */
  datatype ApiError = ApiError(kind: ErrorKind, message: string)

  /** Everything a client call can fail with. */
  datatype Failure =
    | Api(error: ApiError)          // a non-200 final status
    | Transport                     // `requests.get` raised
    | BodyNotJson                   // a 200 whose body does not decode
    | NoLastModified                // a 200 without a `Last-Modified` header
    | LocationNotFound(name: string) // the name resolver has no such location
    | TitleNotFound(uid: int)       // the reverse resolver has no such uid

  const UNAUTHORIZED_DEFAULT := "Unauthorized: Incorrect token"
  const FORBIDDEN_DEFAULT := "Forbidden. API may not be available in some regions. Please ask api@alerts.in.ua for details."
  const RATE_LIMIT_DEFAULT := "Too many requests: Rate limit exceeded"
  const INTERNAL_SERVER_MESSAGE := "Internal server error"
  const HTTP_CODE_TAG := " HTTP Code:"
  const UNKNOWN_PREFIX := "Unknown error. HTTP Code:"

  /** Python's `str()` of a decoded JSON value. Lists and objects are rendered by a
      fixed stand-in, not by Python's repr. */
  function PyStr(j: Json): (r: string)
    ensures j.JString? ==> r == j.s
    ensures j.JInt? ==> r == IntToString(j.i)
    ensures j.JBool? ==> r == (if j.b then "True" else "False")
  {
    match j
    case JNull => "None"
    case JBool(b) => if b then "True" else "False"
    case JInt(i) => IntToString(i)
    case JString(s) => s
    case JArray(_) => "[...]"
    case JObject(_) => "{...}"
  }

  /** `data.get("message")` on a decoded JSON object: absent when the key is missing
      or its value is `null`. */
  function JsonMessage(fields: map<string, Json>): (m: Option<string>)
    ensures m.None? <==> "message" !in fields || fields["message"].JNull?
    ensures m.Some? ==> m.value == PyStr(fields["message"])
  {
    if "message" in fields && !fields["message"].JNull? then Some(PyStr(fields["message"]))
    else None
  }

  /** An f-string interpolation of an optional value: `None` reads "None". */
  function Render(m: Option<string>): string {
    m.GetOr("None")
  }

  /** The message built from the body before the status dispatch: present exactly
      when the body decodes to a JSON object (only a dict has `.get`); for any other
      body the `try` block fails and the message stays `None`. */
  function BodyMessage(status: int, body: Option<Json>): (m: Option<string>)
    ensures m.Some? <==> body.Some? && body.value.JObject?
    ensures m.Some? ==>
      var code := " HTTP Code:" + IntToString(status);
      |m.value| >= |code| && m.value[|m.value| - |code|..] == code
    ensures m.Some? && ("message" !in body.value.fields || body.value.fields["message"].JNull?) ==>
      m.value == "None HTTP Code:" + IntToString(status)
    ensures m.Some? && "message" in body.value.fields && !body.value.fields["message"].JNull? ==>
      m.value == PyStr(body.value.fields["message"]) + " HTTP Code:" + IntToString(status)
  {
    match body
    case Some(JObject(fields)) =>
      var code := HTTP_CODE_TAG + IntToString(status);
      var text := Render(JsonMessage(fields)) + code;
      assert text[|text| - |code|..] == code;
      Some(text)
    case _ => None
  }

  /** The error class chosen by status code alone. */
  function KindOf(status: int): ErrorKind {
    if status == 401 then Unauthorized
    else if status == 403 then Forbidden
    else if status == 429 then RateLimit
    else if status == 500 then InternalServer
    else UnknownApi
  }

  /** The default message of the three classes that use the server's message. */
  function DefaultMessage(kind: ErrorKind): string
    requires kind in {Unauthorized, Forbidden, RateLimit}
  {
    match kind
    case Unauthorized => UNAUTHORIZED_DEFAULT
    case Forbidden => FORBIDDEN_DEFAULT
    case RateLimit => RATE_LIMIT_DEFAULT
  }

  /** The error raised for a final response with a status other than 200. */
  function ErrorFor(status: int, body: Option<Json>): (e: ApiError)
    ensures e.kind == Unauthorized <==> status == 401
    ensures e.kind == Forbidden <==> status == 403
    ensures e.kind == RateLimit <==> status == 429
    ensures e.kind == InternalServer <==> status == 500
    ensures e.kind == UnknownApi <==> status !in {401, 403, 429, 500}
    ensures e.kind in {Unauthorized, Forbidden, RateLimit} ==>
      e.message == BodyMessage(status, body).GetOr(DefaultMessage(e.kind))
    ensures e.kind == InternalServer ==> e.message == INTERNAL_SERVER_MESSAGE
    ensures e.kind == UnknownApi ==> e.message == UNKNOWN_PREFIX + IntToString(status)
  {
    var message := BodyMessage(status, body);
    if status == 401 then ApiError(Unauthorized, message.GetOr(UNAUTHORIZED_DEFAULT))
    else if status == 403 then ApiError(Forbidden, message.GetOr(FORBIDDEN_DEFAULT))
    else if status == 429 then ApiError(RateLimit, message.GetOr(RATE_LIMIT_DEFAULT))
    else if status == 500 then ApiError(InternalServer, INTERNAL_SERVER_MESSAGE)
    else ApiError(UnknownApi, UNKNOWN_PREFIX + IntToString(status))
  }

  /** The error class depends on the status code only, never on the body. */
  lemma KindIgnoresBody(status: int, b1: Option<Json>, b2: Option<Json>)
    ensures ErrorFor(status, b1).kind == ErrorFor(status, b2).kind == KindOf(status)
  {
  }

  /** 500 and every unlisted status ignore whatever message the server sent. */
  lemma FixedMessageIgnoresBody(status: int, b1: Option<Json>, b2: Option<Json>)
    requires status !in {401, 403, 429}
    ensures ErrorFor(status, b1) == ErrorFor(status, b2)
  {
  }

  /** A JSON object carrying a non-null `message` puts its text, then the status, in
      the error message of a 401, 403 or 429: a string as itself, `42` as "42",
      `true` as "True". */
  lemma ServerMessageUsed(status: int, fields: map<string, Json>)
    requires status in {401, 403, 429}
    requires "message" in fields && !fields["message"].JNull?
    ensures ErrorFor(status, Some(JObject(fields))).message
         == PyStr(fields["message"]) + " HTTP Code:" + IntToString(status)
    ensures fields["message"].JString? ==>
      ErrorFor(status, Some(JObject(fields))).message
         == fields["message"].s + " HTTP Code:" + IntToString(status)
  {
  }

  /** The integer message `42` on a 401 is reported as "42 HTTP Code:401". */
  lemma IntMessageExample(fields: map<string, Json>)
    requires "message" in fields && fields["message"] == JInt(42)
    ensures ErrorFor(401, Some(JObject(fields))).message == "42 HTTP Code:401"
  {
    ExampleNumerals();
    ServerMessageUsed(401, fields);
    assert "42" + " HTTP Code:" + "401" == "42 HTTP Code:401";
  }

  lemma ExampleNumerals()
    ensures IntToString(42) == "42" && IntToString(401) == "401"
  {
    assert NatToString(4) == "4";
    assert NatToString(42) == NatToString(4) + "2";
    assert NatToString(40) == NatToString(4) + "0";
    assert NatToString(401) == NatToString(40) + "1";
  }

  /** A JSON object without a usable `message` still yields a templated message
      starting with "None", not the default. */
  lemma MissingMessageRendersNone(status: int, fields: map<string, Json>)
    requires status in {401, 403, 429}
    requires "message" !in fields
    ensures ErrorFor(status, Some(JObject(fields))).message == "None HTTP Code:" + IntToString(status)
  {
  }

  /** For 401, 403 and 429 the default message is used exactly when the body is not
      a JSON object; otherwise the message ends with the status code. */
  lemma DefaultIffNoObject(status: int, body: Option<Json>)
    requires status in {401, 403, 429}
    ensures var e := ErrorFor(status, body);
      (e.message == DefaultMessage(e.kind) <==> !(body.Some? && body.value.JObject?))
    ensures var e := ErrorFor(status, body);
      body.Some? && body.value.JObject? ==>
        var code := HTTP_CODE_TAG + IntToString(status);
        |e.message| >= |code| && e.message[|e.message| - |code|..] == code
  {
    var e := ErrorFor(status, body);
    if body.Some? && body.value.JObject? {
      var m := BodyMessage(status, body).value;
      assert e.message == m;
      var digits := IntToString(status);
      var code := HTTP_CODE_TAG + digits;
      assert m[|m| - |code|..] == code;
      // The templated message ends in a digit of the status code; no default
      // message does.
      assert m[|m| - 1] == code[|code| - 1] == digits[|digits| - 1];
      assert Canonical(digits);
      assert IsDigit(m[|m| - 1]);
      var d := DefaultMessage(e.kind);
      assert !IsDigit(d[|d| - 1]);
    }
  }
}
