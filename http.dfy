/** What a network attempt can come back with, `executeRequest`'s status check, and
    `normalizeError`. */
module Http {
  import opened Basics
  import opened Text

  /** A decoded response body; its contents play no part in the client. */
  datatype Json = Payload(text: string)

  /** A value thrown or rejected with. `ErrorObject` is an instance of `Error` (its `name`
      and `message`); `OtherValue` is anything else, with its `name` property if it has one
      and the text `String(value)` gives. */
  datatype Thrown =
    | ErrorObject(name: string, message: string)
    | OtherValue(nameProperty: Option<string>, text: string)

  /** `error.name`. */
  function NameOf(e: Thrown): (r: Option<string>)
    ensures e.ErrorObject? ==> r.Some?
    ensures r.Some? <==> e.ErrorObject? || e.nameProperty.Some?
  {
    match e
    case ErrorObject(name, _) => Some(name)
    case OtherValue(name, _) => name
  }

  /** `new Error(message)`. */
  function NewError(message: string): (r: Thrown)
    ensures r.ErrorObject? && NameOf(r) == Some("Error") && r.message == message
  {
    ErrorObject("Error", message)
  }

  const TimeoutMessage := "Request timed out"
  const ApiErrorPrefix := "API error: "

  /** How one `fetch` of the request came out, as the network and the 5000 ms abort timer
      decide: a response with its status and decoded body, an abort by the timer, or a
      rejection for any other reason (network failure, an undecodable body). */
  datatype Outcome =
    | Responded(status: nat, body: Json)
    | Aborted
    | Rejected(reason: Thrown)

  /** `response.ok`. */
  predicate IsOk(status: nat)
    ensures IsOk(status) <==> status / 100 == 2
  {
    200 <= status <= 299
  }

  /** The error `executeRequest` throws for a response that is not ok. */
  function StatusError(status: nat): (r: Thrown)
    ensures r.ErrorObject? && NameOf(r) == Some("Error")
    ensures |ApiErrorPrefix| < |r.message| && r.message[..|ApiErrorPrefix|] == ApiErrorPrefix
  {
    NewError(ApiErrorPrefix + Decimal(status))
  }

  /** `executeRequest`: the decoded body of an ok response, the status error otherwise,
      and the abort or rejection passed on as it came. */
  function ExecuteRequest(o: Outcome): (r: Result<Json, Thrown>)
    ensures r.Ok? <==> o.Responded? && IsOk(o.status)
    ensures r.Ok? ==> r.value == o.body
    ensures o.Responded? && !IsOk(o.status) ==> r == Err(StatusError(o.status))
    ensures o.Aborted? ==> r.Err? && NameOf(r.error) == Some("AbortError")
    ensures o.Rejected? ==> r == Err(o.reason)
  {
    match o
    case Responded(status, body) =>
      if IsOk(status) then Ok(body) else Err(StatusError(status))
    case Aborted =>
      // Only the name is ever read; the message text varies between browsers.
      Err(ErrorObject("AbortError", "The operation was aborted"))
    case Rejected(reason) =>
      Err(reason)
  }

  /** The status number an `API error: <status>` message reports, if it is one. */
  function StatusOfMessage(message: string): Option<nat>
  {
    var n := |ApiErrorPrefix|;
    if |message| > n && message[..n] == ApiErrorPrefix && AllDigits(message[n..])
    then Some(DecimalValue(message[n..]))
    else None
  }

  /** A status error names the status it came from: distinct statuses give distinct
      messages, and the status can be read back from the message. */
  lemma StatusErrorRoundTrip(status: nat)
    ensures StatusError(status).name == "Error"
    ensures StatusOfMessage(StatusError(status).message) == Some(status)
  {
    var m := StatusError(status).message;
    assert m[..|ApiErrorPrefix|] == ApiErrorPrefix;
    assert m[|ApiErrorPrefix|..] == Decimal(status);
    DecimalRoundTrip(status);
  }

  /** `normalizeError`: every result is an `Error`; an abort becomes the timeout error, any
      other `Error` passes through unchanged, and any other value is wrapped. */
  function NormalizeError(e: Thrown): (r: Thrown)
    ensures r.ErrorObject?
    ensures NameOf(e) == Some("AbortError") ==> r == NewError(TimeoutMessage)
    ensures NameOf(e) != Some("AbortError") && e.ErrorObject? ==> r == e
    ensures NameOf(e) != Some("AbortError") && e.OtherValue? ==> r == NewError(e.text)
  {
    if NameOf(e) == Some("AbortError") then NewError(TimeoutMessage)
    else if e.ErrorObject? then e
    else NewError(e.text)
  }

  /** Normalising an already normalised error changes nothing. */
  lemma NormalizeErrorIdempotent(e: Thrown)
    ensures NormalizeError(NormalizeError(e)) == NormalizeError(e)
  {
  }
}
