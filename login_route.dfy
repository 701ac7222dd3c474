/** POST /login: a plaintext credential check against a fixed user list.
    The list is a parameter (its data module is not part of this model);
    `jwt.sign` is an oracle. */
module LoginRoute {
  import opened Optional
  import opened Json
  import opened Http

  /** The secret and lifetime the route signs with. */
  const Secret := "secret123"
  const ExpiresIn := "1h"

  datatype User = User(username: string, password: string)

  /** The arguments of `jwt.sign(payload, secret, { expiresIn })`. */
  datatype SignRequest = SignRequest(payload: Object, secret: string, expiresIn: string)

  /** `u.username === username && u.password === password`, where the two
      values come from the request body and may be absent or of any type. */
  predicate Matches(u: User, username: Option<Value>, password: Option<Value>) {
    username == Some(Str(u.username)) && password == Some(Str(u.password))
  }

  /** `users.find(...)`: the first user matching both fields exactly. */
  function FindUser(users: seq<User>, username: Option<Value>, password: Option<Value>): (r: Option<User>)
    ensures r.None? <==> forall i :: 0 <= i < |users| ==> !Matches(users[i], username, password)
    ensures r.Some? ==> exists i :: 0 <= i < |users| && users[i] == r.value
    ensures r.Some? ==> Matches(r.value, username, password)
  {
    if users == [] then None
    else if Matches(users[0], username, password) then Some(users[0])
    else
      var r := FindUser(users[1..], username, password);
      assert forall i :: 1 <= i < |users| ==> users[i] == users[1..][i - 1];
      assert r.Some? ==> users[1..][0] in users;
      r
  }

  /** The body of the failure answer. */
  function InvalidCredentials(): Value {
    Obj(map["message" := Str("Invalid credentials")])
  }

  /** The login handler. It succeeds exactly when some user matches both
      fields, answering `{ token }` signed over `{ username }` alone for one
      hour; otherwise 401 with one fixed message. */
  function Login(users: seq<User>, body: Object, sign: SignRequest -> string): (r: Response)
    ensures r.status == 200 <==>
      exists i :: 0 <= i < |users| && Matches(users[i], Field(body, "username"), Field(body, "password"))
    ensures r.status == 200 ==>
      && "username" in body
      && r.body == JsonBody(Obj(map["token" := Str(sign(SignRequest(map["username" := body["username"]], Secret, ExpiresIn)))]))
    ensures r.status != 200 ==> r == Response(401, JsonBody(InvalidCredentials()))
  {
    var username := Field(body, "username");
    var password := Field(body, "password");
    var user := FindUser(users, username, password);
    if user.Some? then
      var token := sign(SignRequest(map["username" := username.value], Secret, ExpiresIn));
      Response(200, JsonBody(Obj(map["token" := Str(token)])))
    else
      Response(401, JsonBody(InvalidCredentials()))
  }

  /** The answer for a wrong username is the answer for a wrong password. */
  lemma FailureRevealsNothing(users: seq<User>, body1: Object, body2: Object, sign: SignRequest -> string)
    requires Login(users, body1, sign).status != 200
    requires Login(users, body2, sign).status != 200
    ensures Login(users, body1, sign) == Login(users, body2, sign)
  {
  }

  /** A user in the list who submits their own credentials gets a token
      signed over their username. */
  lemma KnownUserLogsIn(users: seq<User>, i: nat, sign: SignRequest -> string)
    requires i < |users|
    ensures var u := users[i];
      Login(users, map["username" := Str(u.username), "password" := Str(u.password)], sign)
        == Response(200, JsonBody(Obj(map["token" := Str(sign(SignRequest(map["username" := Str(u.username)], Secret, ExpiresIn)))])))
  {
    var u := users[i];
    var body := map["username" := Str(u.username), "password" := Str(u.password)];
    assert Matches(users[i], Field(body, "username"), Field(body, "password"));
  }
}
