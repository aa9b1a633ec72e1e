/** The shared axios instance: base URL, default JSON content type and
    timeout; a request interceptor that attaches the stored bearer token;
    a response interceptor that clears the token on any 401. */
module Client {
  import opened Js
  import opened Http
  import opened Storage
  import Config

  const DEFAULT_HEADERS: map<string, string> := map["Content-Type" := "application/json"]

  /** A request as it leaves the client, after the request interceptor. */
  datatype Sent = Sent(
    baseURL: string,
    url: string,
    verb: Verb,
    headers: map<string, string>,
    data: Value,
    timeout: nat)

  predicate TokenPresent(token: Option<string>) {
    token.Some? && token.value != ""
  }

  /** The headers after the request interceptor has seen `token`. */
  function WithBearer(headers: map<string, string>, token: Option<string>): (h: map<string, string>)
    ensures TokenPresent(token) ==> "Authorization" in h && h["Authorization"] == "Bearer " + token.value
    ensures !TokenPresent(token) ==> h == headers
    ensures forall k | k != "Authorization" :: (k in h <==> k in headers) && (k in h ==> h[k] == headers[k])
  {
    if TokenPresent(token) then headers["Authorization" := "Bearer " + token.value] else headers
  }

  /** The request the instance sends for `request` while `token` is stored. */
  function Outgoing(request: Request, token: Option<string>): Sent {
    Sent(Config.BACKEND_URL, request.path, request.verb, WithBearer(DEFAULT_HEADERS, token), request.body, Config.API_TIMEOUT)
  }

  /** The store contents after the response interceptors have seen `outcome`. */
  function AfterResponse(entries: map<string, string>, outcome: Outcome): map<string, string> {
    if outcome.HttpErr? && outcome.status == 401 then Cleared(entries) else entries
  }

  /** The per-request configuration object the interceptor mutates. */
  class RequestConfig {
    const baseURL: string
    const timeout: nat
    var verb: Verb
    var url: string
    var data: Value
    var headers: map<string, string>

    constructor (request: Request)
      ensures baseURL == Config.BACKEND_URL && timeout == Config.API_TIMEOUT
      ensures verb == request.verb && url == request.path && data == request.body
      ensures headers == DEFAULT_HEADERS
    {
      baseURL := Config.BACKEND_URL;
      timeout := Config.API_TIMEOUT;
      verb := request.verb;
      url := request.path;
      data := request.body;
      headers := DEFAULT_HEADERS;
    }

    function Snapshot(): Sent
      reads this
    {
      Sent(baseURL, url, verb, headers, data, timeout)
    }
  }

  class Session {
    const store: TokenStore

    constructor (store: TokenStore)
      ensures this.store == store
    {
      this.store := store;
    }

    /** The request interceptor: adds `Authorization: Bearer <token>` when a
        non-empty token is stored, and hands back the same config object. */
    method InterceptRequest(config: RequestConfig) returns (same: RequestConfig)
      modifies config`headers
      ensures same == config
      ensures config.headers == WithBearer(old(config.headers), StoredToken(store.entries))
      ensures config.verb == old(config.verb) && config.url == old(config.url) && config.data == old(config.data)
    {
      var token := store.GetToken();
      if token.Some? && token.value != "" {
        config.headers := config.headers["Authorization" := "Bearer " + token.value];
      }
      same := config;
    }

    /** The response interceptor's error handler: a 401 clears the token,
        and the error is rejected unchanged either way. */
    method InterceptResponseError(error: Outcome) returns (rejected: Outcome)
      requires !error.Ok?
      modifies store
      ensures rejected == error
      ensures store.entries == AfterResponse(old(store.entries), error)
    {
      if error.HttpErr? && error.status == 401 {
        store.ClearToken();
      }
      rejected := error;
    }

    /** One request through the instance: both interceptors around the
        transport, whose report is `outcome`. A success passes through and
        never touches the store. */
    method Send(request: Request, outcome: Outcome) returns (sent: Sent, result: Outcome)
      modifies store
      ensures sent == Outgoing(request, StoredToken(old(store.entries)))
      ensures result == outcome
      ensures store.entries == AfterResponse(old(store.entries), outcome)
    {
      var config := new RequestConfig(request);
      config := InterceptRequest(config);
      sent := config.Snapshot();
      if outcome.Ok? {
        result := outcome;
      } else {
        result := InterceptResponseError(outcome);
      }
    }

    /** An API operation that goes through the instance: a placeholder sends
        nothing and resolves to its fixed value; any other call sends its
        request and settles by its policy. */
    method Perform(call: Call, outcome: Outcome) returns (sent: Option<Sent>, result: Settled)
      requires WellFormed(call)
      modifies store
      ensures call.Placeholder? ==> sent == None && result == Resolved(call.value)
      ensures call.Placeholder? ==> store.entries == old(store.entries)
      ensures call.Network? ==> sent == Some(Outgoing(call.request, StoredToken(old(store.entries))))
      ensures call.Network? ==> result == Settle(call.policy, outcome)
      ensures call.Network? ==> store.entries == AfterResponse(old(store.entries), outcome)
    {
      if call.Placeholder? {
        sent, result := None, Resolved(call.value);
      } else {
        var s, o := Send(call.request, outcome);
        sent, result := Some(s), Settle(call.policy, o);
      }
    }
  }

  /** The configuration key for the token is the key the store reads. */
  lemma AuthTokenKeyIsStoreKey()
    ensures Config.AUTH_TOKEN_KEY == TOKEN_KEY
  {
  }

  /** Every request uses the configured base URL, JSON content type and the
      10-second timeout, whatever the token. */
  lemma OutgoingDefaults(request: Request, token: Option<string>)
    ensures Outgoing(request, token).baseURL == Config.BACKEND_URL
    ensures Outgoing(request, token).timeout == 10000
    ensures Outgoing(request, token).headers["Content-Type"] == "application/json"
    ensures Outgoing(request, token).verb == request.verb && Outgoing(request, token).url == request.path
    ensures Outgoing(request, token).data == request.body
  {
  }

  /** With no token, or an empty one, no Authorization header is sent. */
  lemma NoTokenNoAuthorization(request: Request, token: Option<string>)
    requires token == None || token == Some("")
    ensures "Authorization" !in Outgoing(request, token).headers
  {
  }

  /** After any 401 response the store holds no token; after any other
      outcome it is exactly as before. */
  lemma UnauthorizedClearsToken(entries: map<string, string>, outcome: Outcome)
    ensures outcome.HttpErr? && outcome.status == 401 ==> StoredToken(AfterResponse(entries, outcome)) == None
    ensures !(outcome.HttpErr? && outcome.status == 401) ==> AfterResponse(entries, outcome) == entries
  {
  }
}
