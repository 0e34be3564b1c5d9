/**
 * The payment-provider client (lib/mollie.ts): the error message built from a failed
 * response, the error class it throws, and the headers of every request. The HTTP
 * exchange itself is outside the model; its outcome is an input.
 */
module Mollie {
  import opened Wrappers
  import opened Text
  import opened JsonValue

  /** MollieApiError: an Error carrying the response status. */
  class MollieApiError {
    const message: string
    const name: string
    const status: int

    constructor(message: string, status: int)
      ensures this.message == message && this.name == "MollieApiError" && this.status == status
    {
      this.message := message;
      this.name := "MollieApiError";
      this.status := status;
    }
  }

  /** What a call into the client can throw: the provider's error, or any other error. */
  datatype Thrown = ProviderError(error: MollieApiError) | OtherError(message: string)

  /** The outcome of one call to the provider: its result, or what it threw. */
  datatype Call<+T> = Returned(value: T) | Threw(thrown: Thrown)

  /** isMollieApiError: true exactly for instances of MollieApiError. */
  predicate IsMollieApiError(t: Thrown) {
    t.ProviderError?
  }

  /** The message the route handlers report for a failed call:
      `isMollieApiError(error) ? error.message : fallback`. */
  function ReportedMessage(t: Thrown, fallback: string): (m: string)
    ensures IsMollieApiError(t) ==> m == t.error.message
    ensures !IsMollieApiError(t) ==> m == fallback
  {
    if IsMollieApiError(t) then t.error.message else fallback
  }

  /** `candidate.<key>?.trim()`: absent and null give undefined, a string is trimmed,
      and any other value has no `trim` method, which throws a TypeError. */
  function TrimmedMember(payload: Json, key: string): (r: Result<Option<string>>)
    ensures r.Success? && r.value.Some? ==>
      exists s :: Field(payload, key) == Some(JString(s)) && r.value.value == Trim(s)
    ensures r.Failure? <==> Field(payload, key).Some? && !Field(payload, key).value.JString? && Field(payload, key).value != JNull
  {
    match Field(payload, key)
    case None => Success(None)
    case Some(JNull) => Success(None)
    case Some(JString(s)) => Success(Some(Trim(s)))
    case Some(_) => Failure("TypeError")
  }

  function DefaultErrorMessage(status: int): string {
    "Mollie request failed with status " + IntToDecimal(status)
  }

  /** buildMollieErrorMessage: "title: detail" when both are non-blank, else the one
      that is, else a generic message with the status. */
  function BuildMollieErrorMessage(status: int, payload: Json): (r: Result<string>)
    ensures (!payload.JObject? && !payload.JArray?) ==> r == Success(DefaultErrorMessage(status))
  {
    if payload.JObject? || payload.JArray? then
      match TrimmedMember(payload, "title")
      case Failure(e) => Failure(e)
      case Success(title) =>
        match TrimmedMember(payload, "detail")
        case Failure(e) => Failure(e)
        case Success(detail) =>
          if Present(title) && Present(detail) then Success(title.value + ": " + detail.value)
          else if Present(detail) then Success(detail.value)
          else if Present(title) then Success(title.value)
          else Success(DefaultErrorMessage(status))
    else Success(DefaultErrorMessage(status))
  }

  /** A payload whose title and detail are strings (or absent). */
  predicate StringMembers(payload: Json) {
    && (Field(payload, "title").None? || Field(payload, "title").value.JString?)
    && (Field(payload, "detail").None? || Field(payload, "detail").value.JString?)
  }

  function TrimmedString(payload: Json, key: string): string {
    match Field(payload, key)
    case Some(JString(s)) => Trim(s)
    case _ => ""
  }

  /** The message for an object payload with string members, case by case. */
  lemma ErrorMessageCases(status: int, payload: Json)
    requires payload.JObject? && StringMembers(payload)
    ensures var t := TrimmedString(payload, "title");
      var d := TrimmedString(payload, "detail");
      && BuildMollieErrorMessage(status, payload).Success?
      && (t != "" && d != "" ==> BuildMollieErrorMessage(status, payload).value == t + ": " + d)
      && (t == "" && d != "" ==> BuildMollieErrorMessage(status, payload).value == d)
      && (t != "" && d == "" ==> BuildMollieErrorMessage(status, payload).value == t)
      && (t == "" && d == "" ==> BuildMollieErrorMessage(status, payload).value == DefaultErrorMessage(status))
  {
  }

  lemma ErrorMessageExample()
    ensures BuildMollieErrorMessage(500, JNull) == Success("Mollie request failed with status 500")
  {
    assert DigitChar(0) == '0' && DigitChar(5) == '5';
    assert NatToDecimal(5) == "5";
    assert NatToDecimal(50) == "50";
    assert NatToDecimal(500) == "500";
    assert IntToDecimal(500) == "500";
    assert DefaultErrorMessage(500) == "Mollie request failed with status " + "500";
    assert "Mollie request failed with status " + "500" == "Mollie request failed with status 500";
  }

  type Headers = seq<(string, string)>

  /** Object-spread of one header: a key already present keeps its position and takes
      the new value; a new key is appended. */
  function SetHeader(h: Headers, key: string, value: string): (r: Headers)
    ensures HeaderValue(r, key) == Some(value)
    ensures forall k :: k != key ==> HeaderValue(r, k) == HeaderValue(h, k)
  {
    if h == [] then [(key, value)]
    else if h[0].0 == key then [(key, value)] + h[1..]
    else [h[0]] + SetHeader(h[1..], key, value)
  }

  /** The value of the first header named `key`. */
  function HeaderValue(h: Headers, key: string): Option<string> {
    if h == [] then None else if h[0].0 == key then Some(h[0].1) else HeaderValue(h[1..], key)
  }

  function SpreadHeaders(h: Headers, extra: Headers): (r: Headers)
    ensures forall k :: HeaderValue(r, k) == LastValue(extra, k).OrElse(HeaderValue(h, k))
    decreases |extra|
  {
    if extra == [] then h else SpreadHeaders(SetHeader(h, extra[0].0, extra[0].1), extra[1..])
  }

  /** The value of the last header named `key`: the one a spread keeps. */
  function LastValue(extra: Headers, key: string): Option<string>
    decreases |extra|
  {
    if extra == [] then None else LastValue(extra[1..], key).OrElse(if extra[0].0 == key then Some(extra[0].1) else None)
  }

  /** The headers requestMollie sends: the bearer key and JSON content type, an
      Idempotency-Key when a non-empty key is supplied, then the caller's own headers.
      A missing API key throws before anything is sent. */
  function RequestHeaders(apiKey: Option<string>, idempotencyKey: Option<string>, extra: Headers): (r: Result<Headers>)
    ensures r.Failure? <==> !Present(apiKey)
    ensures r.Failure? ==> r.error == "MOLLIE_API_KEY is not configured"
  {
    if !Present(apiKey) then Failure("MOLLIE_API_KEY is not configured")
    else
      var base := [("Authorization", "Bearer " + apiKey.value), ("Content-Type", "application/json")];
      var withKey := if Present(idempotencyKey) then base + [("Idempotency-Key", idempotencyKey.value)] else base;
      Success(SpreadHeaders(withKey, extra))
  }

  /** The Idempotency-Key header is sent exactly when a key is supplied (and the
      caller's headers do not set one), and it carries that key. */
  lemma IdempotencyHeader(apiKey: string, idempotencyKey: Option<string>)
    requires apiKey != ""
    ensures var r := RequestHeaders(Some(apiKey), idempotencyKey, []);
      && r.Success?
      && (HeaderValue(r.value, "Idempotency-Key").Some? <==> Present(idempotencyKey))
      && (Present(idempotencyKey) ==> HeaderValue(r.value, "Idempotency-Key") == idempotencyKey)
      && HeaderValue(r.value, "Authorization") == Some("Bearer " + apiKey)
  {
    var base := [("Authorization", "Bearer " + apiKey), ("Content-Type", "application/json")];
    var withKey := if Present(idempotencyKey) then base + [("Idempotency-Key", idempotencyKey.value)] else base;
    var key := "Idempotency-Key";
    assert withKey[0].0 != key && withKey[1].0 != key;
    assert HeaderValue(withKey, key) == HeaderValue(withKey[1..], key) == HeaderValue(withKey[2..], key);
  }

  /** requestMollie after the exchange: a failed response throws a MollieApiError with
      the built message and the response status; a successful one yields the payload. */
  method CheckResponse(ok: bool, status: int, payload: Json) returns (thrown: Option<Thrown>)
    ensures ok ==> thrown == None
    ensures !ok && BuildMollieErrorMessage(status, payload).Success? ==>
      thrown.Some? && IsMollieApiError(thrown.value)
      && thrown.value.error.message == BuildMollieErrorMessage(status, payload).value
      && thrown.value.error.status == status
    ensures !ok && BuildMollieErrorMessage(status, payload).Failure? ==>
      thrown == Some(OtherError(BuildMollieErrorMessage(status, payload).error))
  {
    if ok {
      return None;
    }
    var message := BuildMollieErrorMessage(status, payload);
    if message.Failure? {
      thrown := Some(OtherError(message.error));
    } else {
      var error := new MollieApiError(message.value, status);
      thrown := Some(ProviderError(error));
    }
  }
}
