/**
 * The role facade shared by the user and developer clients: authenticate,
 * register and logout.  The client's own `setToken`, `preamble` and
 * credentials are parameters here (the clients that implement them are not
 * part of this model); `AuthCall.tokenSet` records every argument passed to
 * `setToken`, in order, so that "stores the token exactly once" and "never
 * stores a token" can be stated.
 */
module Auth {
  import opened Wire
  import opened Transport

  /** The dynamic type of the cbClient passed in, as far as the type switch can tell. */
  datatype Role = UserRole | DevRole | OtherRole

  datatype AuthCall = AuthCall(result: Result<()>, sent: Option<HttpRequest>, tokenSet: seq<string>)

  /** The username/password body of both authenticate and register. */
  function Login(username: string, password: string): Json {
    Obj(map["username" := Str(username), "password" := Str(password)])
  }

  /** The field that carries the token for a role; None when the type switch matches no case. */
  function TokenField(role: Role): Option<string> {
    match role
    case UserRole => Some("user_token")
    case DevRole => Some("dev_token")
    case OtherRole => None
  }

  /**
   * `resp.Body.(map[string]interface{})[field].(string)`: the token, "" when
   * the role has no token field, and Panicked when an assertion would fail.
   */
  function ExtractToken(role: Role, body: Payload): (r: Result<string>)
    ensures TokenField(role).None? ==> r == Ok("")
    ensures r.Ok? && TokenField(role).Some? ==>
      body.Object? && TokenField(role).value in body.fields && body.fields[TokenField(role).value] == Str(r.value)
    // a role with a token field gets the token exactly when the body is an object holding a string there
    ensures TokenField(role).Some? ==>
      (r.Ok? <==> body.Object? && TokenField(role).value in body.fields && body.fields[TokenField(role).value].Str?)
    ensures r.Err? ==> r.error == Panicked
  {
    match TokenField(role)
    case None => Ok("")
    case Some(field) =>
      if body.Object? && field in body.fields && body.fields[field].Str? then Ok(body.fields[field].s)
      else Err(Panicked)
  }

  /** The 200-status and token checks that follow both authenticate's and register's post. */
  function TokenGate(role: Role, c: Call<CbResp>): Result<string> {
    if c.result.Err? then Err(c.result.error)
    else if c.result.value.StatusCode != 200 then Err(StatusNot200("Error in authenticating ", c.result.value.Body))
    else
      match ExtractToken(role, c.result.value.Body)
      case Err(e) => Err(e)
      case Ok(token) => if token == "" then Err(TokenMissing(c.result.value.Body)) else Ok(token)
  }

  /** The response to `req` has status 200 and a non-empty token in the role's field. */
  predicate GrantsToken(net: Net, role: Role, req: HttpRequest) {
    && Answer(net, req).Some?
    && Answer(net, req).value.StatusCode == 200
    && ExtractToken(role, Answer(net, req).value.Body).Ok?
    && ExtractToken(role, Answer(net, req).value.Body).value != ""
  }

  function Authenticate(net: Net, role: Role, preamble: string, creds: seq<Credential>,
                        username: string, password: string): (a: AuthCall)
    // setToken is called at most once, and exactly when authenticate succeeds
    ensures |a.tokenSet| <= 1
    ensures a.result.Ok? <==> |a.tokenSet| == 1
    // it succeeds exactly on status 200 with a non-empty token, and stores that token
    ensures a.result.Ok? <==> a.sent.Some? && GrantsToken(net, role, a.sent.value)
    ensures a.result.Ok? ==>
      ExtractToken(role, Answer(net, a.sent.value).value.Body) == Ok(a.tokenSet[0]) && a.tokenSet[0] != ""
    ensures role == OtherRole ==> a.result.Err?
    // a response with any other status is an error carrying that body
    ensures a.sent.Some? && Answer(net, a.sent.value).Some? && Answer(net, a.sent.value).value.StatusCode != 200 ==>
      a.result == Err(StatusNot200("Error in authenticating ", Answer(net, a.sent.value).value.Body))
    // the POST goes out exactly when the login encodes, the request can be made and every credential is a pair
    ensures a.sent.Some? <==>
      && net.marshal(Login(username, password)).Some?
      && net.newRequestOk("POST", net.baseUrl + preamble + "/auth")
      && WellFormed(creds)
    ensures a.sent.Some? ==>
      a.sent.value == HttpRequest("POST", net.baseUrl + preamble + "/auth", net.marshal(Login(username, password)), HeaderPairs(creds))
  {
    assert ComposeUrl(net.baseUrl, preamble + "/auth", "") == net.baseUrl + preamble + "/auth";
    var c := Dispatch(net, PostRequest(preamble + "/auth", Some(Login(username, password))), creds);
    match TokenGate(role, c)
    case Err(e) => AuthCall(Err(e), c.sent, [])
    case Ok(token) => AuthCall(Ok(()), c.sent, [token])
  }

  /** register posts without credentials and never stores a token. */
  function Register(net: Net, role: Role, preamble: string, username: string, password: string): (a: AuthCall)
    ensures a.tokenSet == []
    // the POST goes out, with no credential headers, exactly when the login encodes and the request can be made
    ensures a.sent.Some? <==>
      net.marshal(Login(username, password)).Some? && net.newRequestOk("POST", net.baseUrl + preamble + "/reg")
    ensures a.sent.Some? ==>
      a.sent.value == HttpRequest("POST", net.baseUrl + preamble + "/reg", net.marshal(Login(username, password)), [])
    // it succeeds exactly when the response carries a token, which is then dropped
    ensures a.result.Ok? <==> a.sent.Some? && GrantsToken(net, role, a.sent.value)
  {
    assert ComposeUrl(net.baseUrl, preamble + "/reg", "") == net.baseUrl + preamble + "/reg";
    var c := Dispatch(net, PostRequest(preamble + "/reg", Some(Login(username, password))), []);
    match TokenGate(role, c)
    case Err(e) => AuthCall(Err(e), c.sent, [])
    case Ok(_) => AuthCall(Ok(()), c.sent, [])
  }

  function Logout(net: Net, preamble: string, creds: seq<Credential>): (c: Call<()>)
    // the bodiless POST goes out exactly when the request can be made and every credential is a pair
    ensures c.sent.Some? <==> net.newRequestOk("POST", net.baseUrl + preamble + "/logout") && WellFormed(creds)
    ensures c.sent.Some? ==>
      c.sent.value == HttpRequest("POST", net.baseUrl + preamble + "/logout", None, HeaderPairs(creds))
    ensures c.result.Ok? <==>
      c.sent.Some? && Answer(net, c.sent.value).Some? && Answer(net, c.sent.value).value.StatusCode == 200
  {
    assert ComposeUrl(net.baseUrl, preamble + "/logout", "") == net.baseUrl + preamble + "/logout";
    var d := Dispatch(net, PostRequest(preamble + "/logout", None), creds);
    if d.result.Err? then Call(Err(d.result.error), d.sent)
    else if d.result.value.StatusCode != 200 then Call(Err(StatusNot200("Error in authenticating ", d.result.value.Body)), d.sent)
    else Call(Ok(()), d.sent)
  }
}
