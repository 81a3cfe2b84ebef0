/** The login handler: it checks the two credentials, forwards only them to
    `/auth/login` upstream, and reshapes the answer. Unlike every other
    handler it answers failures with 401 and rewrites a success. */
module Auth {
  import opened Json
  import opened Http

  const LOGIN_URL: string := BASE_URL + "/auth/login"

  const REQUIRED_MESSAGE: string := "Username and password are required"
  const INVALID_MESSAGE: string := "Invalid credentials"

  /** The messages of the two TypeErrors the handler's `try` block can
      raise before or after the upstream call, as the JavaScript engine words
      them: destructuring a `null` body, and reading `token` of `null` data. */
  const NULL_BODY_MESSAGE: string := "Cannot destructure property 'username' of 'req.body' as it is null."
  const NULL_DATA_MESSAGE: string := "Cannot read properties of null (reading 'token')"

  /** `{ error: 'Invalid credentials', details: message }`, the body of every
      401 answer. */
  function Unauthorized(details: string): (b: Value)
    ensures Keys(b) == ["error", "details"]
    ensures Member(b, "error") == Some(Str(INVALID_MESSAGE))
    ensures Member(b, "details") == Some(Str(details))
  {
    var b := Obj([Field("error", Str(INVALID_MESSAGE)), Field("details", Str(details))]);
    assert "error" != "details" && Keys(b)[0] == "error" && Keys(b)[1] == "details";
    assert Lookup(b.fields[..1], "error") == Some(Str(INVALID_MESSAGE));
    b
  }

  /** `{ username, password }`: the body sent upstream, built from the two
      fields alone. */
  function Credentials(username: Value, password: Value): (b: Value)
    ensures Keys(b) == ["username", "password"]
    ensures Member(b, "username") == Some(username)
    ensures Member(b, "password") == Some(password)
  {
    var b := Obj([Field("username", username), Field("password", password)]);
    assert "username" != "password" && Keys(b)[0] == "username" && Keys(b)[1] == "password";
    assert Lookup(b.fields[..1], "username") == Some(username);
    b
  }

  /** `{ token: data.token, status: 'success' }` as it is serialised: a
      `token` that is `undefined` is left out of the JSON text. */
  function SuccessBody(token: Option<Value>): (b: Value)
    ensures Keys(b) == (if token.Some? then ["token"] else []) + ["status"]
    ensures Member(b, "token") == token
    ensures Member(b, "status") == Some(Str("success"))
  {
    match token
    case Some(t) =>
      var b := Obj([Field("token", t), Field("status", Str("success"))]);
      assert "token" != "status" && Keys(b)[0] == "token" && Keys(b)[1] == "status";
      assert Lookup(b.fields[..1], "token") == token;
      b
    case None =>
      var b := Obj([Field("status", Str("success"))]);
      assert "token" != "status" && Keys(b)[0] == "status";
      assert Lookup(b.fields[..0], "token") == None;
      b
  }

  /** POST /auth/login. Any throw inside the `try` block, including the
      rejected upstream call, lands in the 401 branch. */
  function Login(req: Request, o: Outcome): (ex: Exchange)
    // A call is made exactly when the body is not null and both fields are truthy.
    ensures ex.sent.Some? <==>
      !req.body.Null? && Truthy(Member(req.body, "username")) && Truthy(Member(req.body, "password"))
    // That call is a POST to the login URL whose body holds the two fields and nothing else.
    ensures ex.sent.Some? ==>
      && ex.sent.value.verb == Post && ex.sent.value.url == LOGIN_URL && ex.sent.value.body.Some?
      && Keys(ex.sent.value.body.value) == ["username", "password"]
      && Member(ex.sent.value.body.value, "username") == Member(req.body, "username")
      && Member(ex.sent.value.body.value, "password") == Member(req.body, "password")
    // Without a call: 400 with the required-fields message, or 401 for a null body.
    ensures ex.sent.None? && !req.body.Null? ==>
      ex.response.status == 400 && ex.response.body == ErrorBody(REQUIRED_MESSAGE)
    ensures req.body.Null? ==> ex.response == Response(401, Unauthorized(NULL_BODY_MESSAGE))
    // A failed call: 401 carrying the failure's message as `details`.
    ensures ex.sent.Some? && o.Failure? ==> ex.response == Response(401, Unauthorized(o.message))
    // A successful call: 200 with the upstream token and `status: 'success'`
    // and nothing else, unless reading the token of `null` data throws.
    ensures ex.sent.Some? && o.Success? && !o.data.Null? ==>
      ex.response == Response(200, SuccessBody(Member(o.data, "token")))
    ensures ex.sent.Some? && o.Success? && o.data.Null? ==>
      ex.response == Response(401, Unauthorized(NULL_DATA_MESSAGE))
  {
    if req.body.Null? then
      Exchange(None, Response(401, Unauthorized(NULL_BODY_MESSAGE)))
    else
      var username, password := Member(req.body, "username"), Member(req.body, "password");
      if !Truthy(username) || !Truthy(password) then
        Exchange(None, Response(400, ErrorBody(REQUIRED_MESSAGE)))
      else
        Exchange(
          Some(UpstreamRequest(Post, LOGIN_URL, Some(Credentials(username.value, password.value)))),
          match o
          case Failure(message) => Response(401, Unauthorized(message))
          case Success(_, data) =>
            if data.Null? then Response(401, Unauthorized(NULL_DATA_MESSAGE))
            else Response(200, SuccessBody(Member(data, "token"))))
  }

  /** The early return comes before the call: a request answered 400 sent
      nothing, so it can never be answered 401 by a failed call, and its
      answer does not depend on the outcome it was given. */
  lemma RejectedBeforeCall(req: Request, o1: Outcome, o2: Outcome)
    ensures Login(req, o1).response.status == 400 ==>
      Login(req, o1).sent.None? && Login(req, o1) == Login(req, o2)
    ensures Login(req, o1).response.status == 400 <==>
      !req.body.Null? && !(Truthy(Member(req.body, "username")) && Truthy(Member(req.body, "password")))
  {
  }

  /** Only `username` and `password` reach upstream: two bodies that agree on
      those two fields are forwarded identically, whatever else they carry. */
  lemma OnlyCredentialsForwarded(req1: Request, req2: Request, o: Outcome)
    requires req1.body.Obj? && req2.body.Obj?
    requires Member(req1.body, "username") == Member(req2.body, "username")
    requires Member(req1.body, "password") == Member(req2.body, "password")
    ensures Login(req1, o) == Login(req2, o)
  {
  }

  /** A 200 answer carries nothing of the upstream data but its token: two
      successes whose data hold the same token are answered identically. */
  lemma OnlyTokenRelayed(req: Request, s1: int, d1: Value, s2: int, d2: Value)
    requires d1.Obj? && d2.Obj? && Member(d1, "token") == Member(d2, "token")
    ensures Login(req, Success(s1, d1)) == Login(req, Success(s2, d2))
    ensures Login(req, Success(s1, d1)).sent.Some? ==> Login(req, Success(s1, d1)).response.status == 200
  {
  }

  /** Every answer is 200, 400 or 401, and 200 only after a successful call. */
  lemma LoginStatuses(req: Request, o: Outcome)
    ensures Login(req, o).response.status in {200, 400, 401}
    ensures Login(req, o).response.status == 200 ==> Login(req, o).sent.Some? && o.Success?
  {
  }
}
