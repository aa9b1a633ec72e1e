/** `apiRequest`, the fetch-based helper: it builds the headers and options
    field by field, then turns the response into a value or an error. */
module FetchApi {
  import opened Js
  import opened Http

  /** The helper's base URL, leading space included. */
  const BASE_URL: string := " http://localhost:5500"

  /** What goes in `options.body`: nothing, the form data as given, or the
      value to be JSON-encoded (the encoding itself is not modelled). */
  datatype Payload = NoBody | Raw(form: Value) | Json(value: Value)

  datatype FetchOptions = FetchOptions(verb: string, headers: map<string, string>, body: Payload)

  /** The URL and options `apiRequest(endpoint, method, body, isFormData,
      token)` hands to `fetch`. */
  method BuildRequest(endpoint: string, verb: string, body: Value, isFormData: bool, token: Option<string>)
    returns (url: string, options: FetchOptions)
    ensures url == BASE_URL + endpoint && url[0] == ' '
    ensures options.verb == verb
    ensures options.headers.Keys <= {"Content-Type", "Authorization"}
    ensures "Content-Type" in options.headers <==> !isFormData
    ensures "Content-Type" in options.headers ==> options.headers["Content-Type"] == "application/json"
    ensures "Authorization" in options.headers <==> token.Some? && token.value != ""
    ensures "Authorization" in options.headers ==> options.headers["Authorization"] == "Bearer " + token.value
    ensures options.body == NoBody <==> !Truthy(body)
    ensures Truthy(body) && isFormData ==> options.body == Raw(body)
    ensures Truthy(body) && !isFormData ==> options.body == Json(body)
  {
    var headers: map<string, string> := map[];
    if !isFormData {
      headers := headers["Content-Type" := "application/json"];
    }
    if token.Some? && token.value != "" {
      headers := headers["Authorization" := "Bearer " + token.value];
    }
    options := FetchOptions(verb, headers, NoBody);
    if Truthy(body) {
      options := options.(body := if isFormData then Raw(body) else Json(body));
    }
    url := BASE_URL + endpoint;
  }

  /** What `res.json()` gives: the parsed body, or the message of the
      SyntaxError it rejects with when the body is not JSON (an empty 200,
      an HTML error page). */
  datatype Body = Parsed(json: Value) | Unparsable(syntaxError: string)

  /** What the awaited `fetch` gives `apiRequest`: a response with its status
      and body, or the error it rejects with. */
  datatype Reply = Reply(status: int, body: Body) | FetchRejected(message: string)

  /** After the fetch: a rejected fetch rethrows; 204 gives `null` without
      reading the body; otherwise the body is parsed first, so a body that is
      not JSON rejects whatever the status; then any other 2xx gives the
      parsed body and anything else throws `data.message` or "API Error" (a
      `null` body makes `data.message` itself throw). */
  function Interpret(reply: Reply): (r: Settled)
    ensures r.Resolved? || (r.Rejected? && r.failure.Raised?)
    ensures r.Resolved? <==> reply.Reply? && (reply.status == 204 || (StatusOk(reply.status) && reply.body.Parsed?))
    ensures reply.FetchRejected? ==> r == Rejected(Raised(reply.message))
    ensures reply.Reply? && reply.status == 204 ==> r == Resolved(Null)
    ensures reply.Reply? && reply.status != 204 && reply.body.Unparsable? ==> r == Rejected(Raised(reply.body.syntaxError))
    ensures reply.Reply? && reply.status != 204 && StatusOk(reply.status) && reply.body.Parsed? ==>
              r == Resolved(reply.body.json)
  {
    match reply
    case FetchRejected(message) => Rejected(Raised(message))
    case Reply(status, body) =>
      if status == 204 then Resolved(Null)
      else
        match body
        case Unparsable(syntaxError) => Rejected(Raised(syntaxError))
        case Parsed(json) =>
          if StatusOk(status) then Resolved(json)
          else
            match Member(json, "message")
            case TypeError(message) => Rejected(Raised(message))
            case Found(message) => Rejected(Raised(ToJsString(Or(message, Str("API Error")))))
  }

  /** A 204 answer does not depend on the body at all, parsable or not. */
  lemma NoContentIgnoresBody(b1: Body, b2: Body)
    ensures Interpret(Reply(204, b1)) == Interpret(Reply(204, b2)) == Resolved(Null)
  {
  }

  /** A failure with an object body throws the body's `message` when it is a
      non-empty string, and "API Error" when there is no usable one. */
  lemma FailureMessage(status: int, json: Value)
    requires !StatusOk(status) && json.Obj?
    ensures Get(json, "message").Str? && Get(json, "message").s != "" ==>
              Interpret(Reply(status, Parsed(json))) == Rejected(Raised(Get(json, "message").s))
    ensures !Truthy(Get(json, "message")) ==> Interpret(Reply(status, Parsed(json))) == Rejected(Raised("API Error"))
  {
  }

  /** The body is parsed before the status is looked at: a body that is not
      JSON gives the same SyntaxError on a success status as on a failure,
      and never "API Error". */
  lemma ParseBeforeStatus(ok: int, failed: int, syntaxError: string)
    requires ok != 204 && failed != 204 && StatusOk(ok) && !StatusOk(failed)
    ensures Interpret(Reply(ok, Unparsable(syntaxError))) == Interpret(Reply(failed, Unparsable(syntaxError)))
    ensures syntaxError != "API Error" ==> Interpret(Reply(failed, Unparsable(syntaxError))) != Rejected(Raised("API Error"))
  {
  }
}
