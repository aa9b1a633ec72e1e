/** What every API module shares: the request an operation issues, the
    outcome the transport reports, and how an operation turns that outcome
    into the value it resolves to or the error it throws. */
module Http {
  import opened Js

  datatype Verb = GET | POST | PUT | DELETE

  /** An axios call: verb, path relative to the base URL, and the `data`
      argument (`Undefined` when the call passes none). */
  datatype Request = Request(verb: Verb, path: string, body: Value)

  /** What the transport reports for one request. `HttpErr` is an axios error
      that carries a response (`status`, `data`); `Transport` is one without
      (timeout, refused connection). `message` is the error's own message. */
  datatype Outcome =
    | Ok(status: int, data: Value)
    | HttpErr(status: int, data: Value, message: string)
    | Transport(message: string)

  /** `error.response?.data`: the body of the failed response, if there was one. */
  function ResponseData(error: Outcome): (d: Value)
    ensures error.Transport? ==> d == Undefined
  {
    if error.HttpErr? then error.data else Undefined
  }

  /** What a rejected call rejects with: a fresh `Error(message)`, or the
      original axios error passed through untouched. */
  datatype Failure = Raised(message: string) | Propagated(error: Outcome)

  /** How an API call settles: with the response body, with the whole axios
      response object, or by rejecting. */
  datatype Settled =
    | Resolved(value: Value)
    | ResolvedResponse(status: int, data: Value)
    | Rejected(failure: Failure)

  /** The per-operation contract for failures: throw `Error` with a message
      chosen by precedence, swallow into a fixed value, let the axios error
      through, or (without a catch) return the whole response. */
  datatype Policy =
    | RaiseWith(fallback: string)
    | EmptyOnError(empty: Value)
    | Propagate
    | WholeResponse

  /** An API operation: one network request with its failure policy, or a
      placeholder that resolves to a fixed value without any request. */
  datatype Call = Network(request: Request, policy: Policy) | Placeholder(value: Value)

  /** `data?.message || data?.error || message || fallback`, where `data` is
      the failed response's body (undefined when there was no response). */
  function Precedence(data: Value, message: string, fallback: string): (v: Value)
    requires fallback != ""
    ensures Truthy(v)
    ensures Truthy(Get(data, "message")) ==> v == Get(data, "message")
    ensures !Truthy(Get(data, "message")) && Truthy(Get(data, "error")) ==> v == Get(data, "error")
    ensures !Truthy(Get(data, "message")) && !Truthy(Get(data, "error")) && message != "" ==> v == Str(message)
    ensures !Truthy(Get(data, "message")) && !Truthy(Get(data, "error")) && message == "" ==> v == Str(fallback)
  {
    Or(Get(data, "message"), Or(Get(data, "error"), Or(Str(message), Str(fallback))))
  }

  /** The message of the `Error` an operation throws on failure. */
  function ErrorMessage(error: Outcome, fallback: string): string
    requires !error.Ok? && fallback != ""
  {
    ToJsString(Precedence(ResponseData(error), error.message, fallback))
  }

  /** When the server's `message` and `error` fields are strings (or absent),
      the thrown message is never empty. */
  lemma ErrorMessageNonEmpty(error: Outcome, fallback: string)
    requires !error.Ok? && fallback != ""
    requires Get(ResponseData(error), "message").Str? || Get(ResponseData(error), "message") == Undefined
    requires Get(ResponseData(error), "error").Str? || Get(ResponseData(error), "error") == Undefined
    ensures ErrorMessage(error, fallback) != ""
  {
  }

  /** The examples of the error precedence: `{message: "A", error: "B"}` gives
      "A", `{error: "B"}` gives "B", neither gives the transport message or,
      failing that, the operation's fallback. */
  lemma ErrorPrecedenceExamples(status: int, message: string, fallback: string)
    requires fallback != ""
    ensures ErrorMessage(HttpErr(status, Obj(map["message" := Str("A"), "error" := Str("B")]), message), fallback) == "A"
    ensures ErrorMessage(HttpErr(status, Obj(map["error" := Str("B")]), message), fallback) == "B"
    ensures message != "" ==> ErrorMessage(HttpErr(status, Obj(map[]), message), fallback) == message
    ensures ErrorMessage(Transport(""), fallback) == fallback
  {
  }

  /** How a call settles once the transport has reported `outcome`. */
  function Settle(policy: Policy, outcome: Outcome): (s: Settled)
    requires policy.RaiseWith? ==> policy.fallback != ""
    ensures outcome.Ok? && !policy.WholeResponse? ==> s == Resolved(outcome.data)
    ensures outcome.Ok? && policy.WholeResponse? ==> s == ResolvedResponse(outcome.status, outcome.data)
    ensures policy.EmptyOnError? ==> !s.Rejected?
    ensures !outcome.Ok? && policy.EmptyOnError? ==> s == Resolved(policy.empty)
    ensures !outcome.Ok? && (policy.Propagate? || policy.WholeResponse?) ==> s == Rejected(Propagated(outcome))
    ensures !outcome.Ok? && policy.RaiseWith? ==> s == Rejected(Raised(ErrorMessage(outcome, policy.fallback)))
  {
    match outcome
    case Ok(status, data) => if policy.WholeResponse? then ResolvedResponse(status, data) else Resolved(data)
    case _ =>
      match policy
      case RaiseWith(fallback) => Rejected(Raised(ErrorMessage(outcome, fallback)))
      case EmptyOnError(empty) => Resolved(empty)
      case Propagate => Rejected(Propagated(outcome))
      case WholeResponse => Rejected(Propagated(outcome))
  }

  /** A policy whose fallback message, if any, is non-empty. */
  predicate WellFormed(call: Call) {
    call.Network? && call.policy.RaiseWith? ==> call.policy.fallback != ""
  }

  /** What a `fetch` call reports: a response with a status, or a thrown error. */
  datatype FetchOutcome = Responded(status: int) | FetchFailed

  /** `response.ok`: the status is in the 2xx range. */
  predicate StatusOk(status: int) {
    200 <= status <= 299
  }
}
