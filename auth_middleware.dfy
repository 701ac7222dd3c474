/** The bearer-token gate placed in front of the protected book routes.
    `jwt.verify` is an oracle `verify(token, secret)`; logging is not modelled. */
module AuthMiddleware {
  import opened Optional
  import opened Json
  import opened Http
  import ErrorHandler

  /** The shared secret the gate verifies with. */
  const Secret := "secret123"

  /** What `jwt.verify` reports to its callback, or an exception escaping the
      gate's `try` block. */
  datatype VerifyOutcome =
    | Decoded(payload: Value)      // callback(null, user)
    | VerifyError(name: string)    // callback(err) with err.name
    | Thrown                       // caught by the surrounding catch

  /** The gate either answers the request itself or lets it through with the
      decoded user. */
  datatype GateOutcome = Reject(response: Response) | Continue(user: Value)

  // ---------------------------------------------------------------------
  // String.prototype.split with a one-character separator

  /** `s.split(sep)`: the pieces between separators, `[""]` for the empty string. */
  function Split(s: string, sep: char): (r: seq<string>)
    ensures |r| >= 1
    ensures forall i :: 0 <= i < |r| ==> sep !in r[i]
  {
    if s == [] then [""]
    else
      var rest := Split(s[1..], sep);
      if s[0] == sep then [""] + rest
      else [[s[0]] + rest[0]] + rest[1..]
  }

  /** `parts.join(sep)`. */
  function Join(parts: seq<string>, sep: char): string
    requires |parts| >= 1
  {
    if |parts| == 1 then parts[0] else parts[0] + [sep] + Join(parts[1..], sep)
  }

  /** Splitting loses nothing: joining the pieces gives the string back. */
  lemma {:induction false} JoinSplit(s: string, sep: char)
    ensures Join(Split(s, sep), sep) == s
  {
    if s != [] {
      var rest := Split(s[1..], sep);
      JoinSplit(s[1..], sep);
      if s[0] == sep {
        assert Split(s, sep) == [""] + rest;
        assert ([""] + rest)[1..] == rest;
      } else {
        var r := Split(s, sep);
        assert r == [[s[0]] + rest[0]] + rest[1..];
        if |rest| > 1 {
          assert r[1..] == rest[1..];
          assert Join(rest, sep) == rest[0] + [sep] + Join(rest[1..], sep);
        }
      }
    }
  }

  /** A separator-free prefix `a` is glued to the first piece of the rest. */
  lemma {:induction false} SplitPrefix(a: string, rest: string, sep: char)
    requires sep !in a
    ensures Split(a + rest, sep) == [a + Split(rest, sep)[0]] + Split(rest, sep)[1..]
  {
    if a == [] {
      assert a + rest == rest;
      assert a + Split(rest, sep)[0] == Split(rest, sep)[0];
    } else {
      assert (a + rest)[0] == a[0];
      assert (a + rest)[1..] == a[1..] + rest;
      SplitPrefix(a[1..], rest, sep);
      assert [a[0]] + (a[1..] + Split(rest, sep)[0]) == a + Split(rest, sep)[0];
    }
  }

  /** A string with a separator splits into at least two pieces. */
  lemma {:induction false} SplitMany(s: string, sep: char)
    requires sep in s
    ensures |Split(s, sep)| >= 2
  {
    if s[0] != sep {
      assert sep in s[1..] by {
        var i :| 0 <= i < |s| && s[i] == sep;
        assert s[1..][i - 1] == sep;
      }
      SplitMany(s[1..], sep);
    }
  }

  /** A word, one space, and the rest: the word is the first piece and the
      pieces of the rest follow. */
  lemma WordThenSpace(word: string, rest: string)
    requires ' ' !in word
    ensures Split(word + " " + rest, ' ') == [word] + Split(rest, ' ')
  {
    var tail := [' '] + rest;
    assert word + " " + rest == word + tail;
    assert tail[0] == ' ' && tail[1..] == rest;
    assert Split(tail, ' ') == [""] + Split(rest, ' ');
    SplitPrefix(word, tail, ' ');
    assert word + "" == word;
    assert ([""] + Split(rest, ' '))[1..] == Split(rest, ' ');
  }

  // ---------------------------------------------------------------------
  // Token extraction and the decision

  /** `authHeader.split(" ")[1]`: `None` stands for `undefined`. There is
      a second segment exactly when the header contains a space, and that
      segment holds no space itself. */
  function TokenOf(authHeader: string): (r: Option<string>)
    ensures r.Some? <==> ' ' in authHeader
    ensures r.Some? ==> ' ' !in r.value
  {
    var parts := Split(authHeader, ' ');
    if ' ' in authHeader then
      SplitMany(authHeader, ' ');
      Some(parts[1])
    else
      SplitPrefix(authHeader, "", ' ');
      assert authHeader + "" == authHeader;
      None
  }

  /** A header is `scheme token` followed by nothing or by further
      space-separated text: the token is the second word, and the scheme is
      never looked at. */
  lemma TokenOfShape(scheme: string, token: string, suffix: string)
    requires ' ' !in scheme && ' ' !in token
    requires suffix == [] || suffix[0] == ' '
    ensures TokenOf(scheme + " " + token + suffix) == Some(token)
  {
    assert scheme + " " + token + suffix == scheme + " " + (token + suffix);
    WordThenSpace(scheme, token + suffix);
    SplitPrefix(token, suffix, ' ');
    if suffix == [] {
      assert Split(suffix, ' ') == [""];
    } else {
      assert Split(suffix, ' ') == [""] + Split(suffix[1..], ' ');
    }
    assert token + "" == token;
  }

  /** The 403 message: 'Token has expired' exactly for `TokenExpiredError`. */
  function FailureMessage(name: string): (message: string)
    ensures message == "Token has expired" <==> name == "TokenExpiredError"
    ensures message == "Token has expired" || message == "Invalid token"
  {
    if name == "TokenExpiredError" then "Token has expired" else "Invalid token"
  }

  /** An error answer from the gate: status and envelope code agree. */
  function Refuse(now: string, message: string, status: int, details: Value := Null): GateOutcome {
    Reject(Response(status, JsonBody(ErrorHandler.CreateErrorResponse(now, message, status, details))))
  }

  /** The gate's decision for a request carrying header `authHeader`
      (`None` when there is none). Every refusal is a well-formed error
      envelope whose code is the HTTP status, one of 401, 403 and 500. */
  function Decide(authHeader: Option<string>, verify: (string, string) -> VerifyOutcome, now: string): (r: GateOutcome)
    ensures r.Reject? ==>
      && r.response.body.JsonBody?
      && var env := ErrorHandler.ReadErrorResponse(r.response.body.value);
      && env.Some? && env.value.statusCode == r.response.status
      && env.value.timestamp == now
      && r.response.status in {401, 403, 500}
    ensures r.Continue? <==>
      && authHeader.Some? && TokenOf(authHeader.value).Some? && TokenOf(authHeader.value).value != ""
      && verify(TokenOf(authHeader.value).value, Secret).Decoded?
    ensures r.Continue? ==> r.user == verify(TokenOf(authHeader.value).value, Secret).payload
  {
    if authHeader == None || authHeader == Some("") then
      Refuse(now, "Authorization header is required", 401)
    else
      match TokenOf(authHeader.value)
      case None => Refuse(now, "Token is required", 401)
      case Some(token) =>
        if token == "" then Refuse(now, "Token is required", 401)
        else
          match verify(token, Secret)
          case VerifyError(name) => Refuse(now, FailureMessage(name), 403, Obj(map["tokenError" := Str(name)]))
          case Decoded(user) => Continue(user)
          case Thrown => Refuse(now, "Authentication service error", 500)
  }

  /** No header, or an empty one: 401 'Authorization header is required'. */
  lemma MissingHeader(authHeader: Option<string>, verify: (string, string) -> VerifyOutcome, now: string)
    requires authHeader == None || authHeader == Some("")
    ensures Decide(authHeader, verify, now) == Refuse(now, "Authorization header is required", 401)
  {
  }

  /** A header with no space (such as "Bearer" alone) has no token: 401. */
  lemma HeaderWithoutToken(authHeader: string, verify: (string, string) -> VerifyOutcome, now: string)
    requires authHeader != "" && ' ' !in authHeader
    ensures Decide(Some(authHeader), verify, now) == Refuse(now, "Token is required", 401)
  {
  }

  /** An empty second segment ("Bearer ", "Bearer  x") is no token either: 401. */
  lemma EmptyToken(scheme: string, suffix: string, verify: (string, string) -> VerifyOutcome, now: string)
    requires ' ' !in scheme
    requires suffix == [] || suffix[0] == ' '
    ensures Decide(Some(scheme + " " + suffix), verify, now) == Refuse(now, "Token is required", 401)
  {
    assert scheme + " " + suffix == scheme + " " + "" + suffix;
    TokenOfShape(scheme, "", suffix);
  }

  /** A token the verifier rejects: 403, 'Token has expired' or 'Invalid token'
      by the error's name, with `{ tokenError: name }` as details. */
  lemma TokenRejected(scheme: string, token: string, suffix: string, verify: (string, string) -> VerifyOutcome, now: string)
    requires ' ' !in scheme && ' ' !in token && token != ""
    requires suffix == [] || suffix[0] == ' '
    requires verify(token, Secret).VerifyError?
    ensures var name := verify(token, Secret).name;
      Decide(Some(scheme + " " + token + suffix), verify, now)
        == Refuse(now, if name == "TokenExpiredError" then "Token has expired" else "Invalid token",
                  403, Obj(map["tokenError" := Str(name)]))
  {
    TokenOfShape(scheme, token, suffix);
  }

  /** A token the verifier accepts: the request continues with its payload. */
  lemma TokenAccepted(scheme: string, token: string, suffix: string, verify: (string, string) -> VerifyOutcome, now: string)
    requires ' ' !in scheme && ' ' !in token && token != ""
    requires suffix == [] || suffix[0] == ' '
    requires verify(token, Secret).Decoded?
    ensures Decide(Some(scheme + " " + token + suffix), verify, now) == Continue(verify(token, Secret).payload)
  {
    TokenOfShape(scheme, token, suffix);
  }

  /** An exception inside the gate: 500 'Authentication service error'. */
  lemma GateThrows(scheme: string, token: string, suffix: string, verify: (string, string) -> VerifyOutcome, now: string)
    requires ' ' !in scheme && ' ' !in token && token != ""
    requires suffix == [] || suffix[0] == ' '
    requires verify(token, Secret) == Thrown
    ensures Decide(Some(scheme + " " + token + suffix), verify, now) == Refuse(now, "Authentication service error", 500)
  {
    TokenOfShape(scheme, token, suffix);
  }

  /** The scheme word is never checked: any two words give the same decision. */
  lemma SchemeIgnored(scheme1: string, scheme2: string, rest: string, verify: (string, string) -> VerifyOutcome, now: string)
    requires ' ' !in scheme1 && ' ' !in scheme2
    ensures Decide(Some(scheme1 + " " + rest), verify, now) == Decide(Some(scheme2 + " " + rest), verify, now)
  {
    WordThenSpace(scheme1, rest);
    WordThenSpace(scheme2, rest);
  }

  // ---------------------------------------------------------------------
  // Carrying the decision out on the request/response pair

  /** One request in flight: `req.user`, what has been written to `res`, and
      how many times `next()` has been called. */
  class Exchange {
    var user: Option<Value>
    var response: Option<Response>
    var nextCalls: nat

    constructor ()
      ensures user == None && response == None && nextCalls == 0
    {
      user, response, nextCalls := None, None, 0;
    }
  }

  /** The exported middleware: on refusal it writes the response and neither
      sets `req.user` nor calls `next`; otherwise it sets `req.user` and calls
      `next` once. A fresh exchange thus ends with exactly one of the two. */
  method Authenticate(ex: Exchange, authHeader: Option<string>, verify: (string, string) -> VerifyOutcome, now: string)
    modifies ex
    ensures Decide(authHeader, verify, now).Reject? ==>
      && ex.response == Some(Decide(authHeader, verify, now).response)
      && ex.user == old(ex.user) && ex.nextCalls == old(ex.nextCalls)
    ensures Decide(authHeader, verify, now).Continue? ==>
      && ex.user == Some(Decide(authHeader, verify, now).user)
      && ex.response == old(ex.response) && ex.nextCalls == old(ex.nextCalls) + 1
    ensures old(ex.response) == None && old(ex.nextCalls) == 0 ==>
      (ex.response.Some? <==> ex.nextCalls == 0)
  {
    match Decide(authHeader, verify, now)
    case Reject(resp) =>
      ex.response := Some(resp);
    case Continue(user) =>
      ex.user := Some(user);
      ex.nextCalls := ex.nextCalls + 1;
  }
}
