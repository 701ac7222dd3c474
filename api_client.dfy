/** The axios instance's two interceptors: the request one attaches the
    stored token as a bearer header, the response one ends the session on a
    401. Promise plumbing is not modelled: a rejection is the error returned. */
module ApiClient {
  import opened Optional
  import opened Http
  import opened ClientAuth

  /** The header the request interceptor sets. */
  const AuthorizationHeader := "Authorization"

  /** The headers sent after the request interceptor has run: with a stored
      non-empty token, `Authorization` becomes "Bearer " + token; else the
      headers are left as they were. */
  function WithBearer(headers: map<string, string>, storage: Storage): (r: map<string, string>)
    ensures Authenticated(storage) ==> r == headers[AuthorizationHeader := "Bearer " + storage[TokenKey]]
    ensures !Authenticated(storage) ==> r == headers
  {
    match GetItem(storage, TokenKey)
    case Some(token) => if token != "" then headers[AuthorizationHeader := "Bearer " + token] else headers
    case None => headers
  }

  /** An axios error: `error.response` is absent when no answer arrived. */
  datatype ApiError = ApiError(response: Option<Response>)

  /** The client state after the error interceptor: a 401 answer ends the
      session exactly as logging out does; anything else changes nothing. */
  function AfterError(s: ClientState, err: ApiError): (t: ClientState)
    ensures err.response.Some? && err.response.value.status == 401 ==>
      t == LoggedOut(s) && !Authenticated(t.storage) && t.location == LoginPath
    ensures !(err.response.Some? && err.response.value.status == 401) ==> t == s
  {
    if err.response.Some? && err.response.value.status == 401 then LoggedOut(s) else s
  }

  /** The request configuration axios hands to the interceptor. */
  class RequestConfig {
    var headers: map<string, string>

    constructor (headers: map<string, string>)
      ensures this.headers == headers
    {
      this.headers := headers;
    }
  }

  /** The request interceptor: mutates the config's headers in place and
      returns the same config; storage is only read. */
  method OnRequest(b: Browser, config: RequestConfig) returns (r: RequestConfig)
    modifies config
    ensures r == config
    ensures config.headers == WithBearer(old(config.headers), b.storage)
  {
    var token := GetItem(b.storage, TokenKey);
    if token.Some? && token.value != "" {
      config.headers := config.headers[AuthorizationHeader := "Bearer " + token.value];
    }
    r := config;
  }

  /** The response interceptor's success path: the response as it came. */
  method OnResponse(response: Response) returns (r: Response)
    ensures r == response
  {
    r := response;
  }

  /** The response interceptor's error path: on 401 remove the token and go
      to the login page; in every case reject with the same error. */
  method OnResponseError(b: Browser, err: ApiError) returns (rejected: ApiError)
    modifies b
    ensures rejected == err
    ensures b.State() == AfterError(old(b.State()), err)
  {
    if err.response.Some? && err.response.value.status == 401 {
      b.storage := b.storage - {TokenKey};
      b.location := LoginPath;
    }
    rejected := err;
  }
}
