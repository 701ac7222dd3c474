/** Properties of the client and the server taken together: what happens to
    a token from its issue by the login route to its use on a guarded route. */
module Flows {
  import opened Optional
  import opened Json
  import opened ClientAuth
  import opened ApiClient
  import AuthMiddleware
  import LoginRoute

  /** The header a request carries after the request interceptor, starting
      from headers without one. */
  function SentAuthorization(storage: Storage): Option<string> {
    var headers := WithBearer(map[], storage);
    if AuthorizationHeader in headers then Some(headers[AuthorizationHeader]) else None
  }

  /** A session whose token has expired keeps it: the gate answers 403, which
      the client does not treat as the end of the session, so later requests
      send the same expired token again. */
  lemma ExpiredTokenIsKept(s: ClientState, verify: (string, string) -> AuthMiddleware.VerifyOutcome, now: string)
    requires Authenticated(s.storage)
    requires ' ' !in s.storage[TokenKey]
    requires verify(s.storage[TokenKey], AuthMiddleware.Secret) == AuthMiddleware.VerifyError("TokenExpiredError")
    ensures var gate := AuthMiddleware.Decide(SentAuthorization(s.storage), verify, now);
      && gate.Reject? && gate.response.status == 403
      && AfterError(s, ApiError(Some(gate.response))) == s
      && Authenticated(s.storage)
  {
    var token := s.storage[TokenKey];
    assert "Bearer " + token == "Bearer" + " " + token + "";
    AuthMiddleware.TokenRejected("Bearer", token, "", verify, now);
  }

  /** A token issued by the login route and stored under the key the client
      reads is sent as a bearer header, and the gate admits the request with
      the decoded payload, whose username is the one that logged in. The
      premise on `verify` is what jsonwebtoken guarantees for its own tokens
      under the same secret. */
  lemma IssuedTokenIsAdmitted(users: seq<LoginRoute.User>, i: nat, sign: LoginRoute.SignRequest -> string,
                              verify: (string, string) -> AuthMiddleware.VerifyOutcome, storage: Storage, now: string)
    requires i < |users|
    requires var token := sign(LoginRoute.SignRequest(map["username" := Str(users[i].username)], LoginRoute.Secret, LoginRoute.ExpiresIn));
      && token != "" && ' ' !in token
      && verify(token, LoginRoute.Secret).Decoded?
      && verify(token, LoginRoute.Secret).payload.Obj?
      && Field(verify(token, LoginRoute.Secret).payload.fields, "username") == Some(Str(users[i].username))
    ensures var u := users[i];
      var reply := LoginRoute.Login(users, map["username" := Str(u.username), "password" := Str(u.password)], sign);
      && reply.status == 200
      && var token := reply.body.value.fields["token"].s;
      && var gate := AuthMiddleware.Decide(SentAuthorization(StoreLoginToken(storage, token)), verify, now);
      && gate.Continue?
      && gate.user.Obj? && Field(gate.user.fields, "username") == Some(Str(u.username))
  {
    var u := users[i];
    LoginRoute.KnownUserLogsIn(users, i, sign);
    var token := sign(LoginRoute.SignRequest(map["username" := Str(u.username)], LoginRoute.Secret, LoginRoute.ExpiresIn));
    assert "Bearer " + token == "Bearer" + " " + token + "";
    AuthMiddleware.TokenAccepted("Bearer", token, "", verify, now);
  }

  /** As written, the login page's write leaves the next request without an
      Authorization header when none was stored before, and the gate refuses
      it with 401; that 401 then ends the session. */
  lemma AsWrittenLoginIsRefused(s: ClientState, token: string, verify: (string, string) -> AuthMiddleware.VerifyOutcome, now: string)
    requires TokenKey !in s.storage
    ensures var after := StoreLoginTokenAsWritten(s.storage, token);
      && SentAuthorization(after) == None
      && var gate := AuthMiddleware.Decide(SentAuthorization(after), verify, now);
      && gate.Reject? && gate.response.status == 401
      && AfterError(ClientState(after, s.location), ApiError(Some(gate.response))).location == LoginPath
  {
  }
}
