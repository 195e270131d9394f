/** The session route `/api/auth/session`. POST reads the `Authorization`
    header, verifies the ID token it carries and answers with a session
    cookie; DELETE answers with a cookie that clears it. Firebase Admin's
    `verifyIdToken` and `createSessionCookie` are oracles, passed in as
    functions of their arguments; `NODE_ENV` is the flag `production`. */
module Session {
  import opened Common
  import Login

  const BearerPrefix := "Bearer "

  /** Five days in milliseconds, the lifetime asked of the session cookie
      and its `maxAge`. */
  const ExpiresIn: int := 60 * 60 * 24 * 5 * 1000

  const SessionCookieName := "session"
  const UnauthorizedMessage := "Token de autorização ausente ou inválido."
  const ServerErrorDefault := "Ocorreu um erro no servidor ao processar sua solicitação."
  const ServerErrorPrefix := "Internal Server Error: "

  /** The options given to `response.cookies.set`; options the call leaves
      out are false. */
  datatype Cookie = Cookie(name: string, value: string, maxAge: int, httpOnly: bool, secure: bool, path: string)

  /** The JSON body: its `status` and, when present, its `message`. */
  datatype Body = Body(status: string, message: Option<string>)

  /** A `NextResponse`: HTTP status, JSON body and the cookies set on it. */
  datatype Response = Response(status: nat, body: Body, cookies: seq<Cookie>)

  /** `response.ok` on the client. */
  predicate Ok(r: Response) {
    200 <= r.status <= 299
  }

  // ---------------------------------------------------------------------
  // `authorization.split('Bearer ')[1]`
  // ---------------------------------------------------------------------

  predicate BearerAt(s: string, i: nat) {
    i + |BearerPrefix| <= |s| && s[i..i + |BearerPrefix|] == BearerPrefix
  }

  /** The first occurrence of the separator at or after `from`, as
      `split` finds it. */
  function NextBearer(s: string, from: nat): (r: Option<nat>)
    ensures r.Some? ==> from <= r.value && BearerAt(s, r.value)
    ensures r.Some? ==> forall j :: from <= j < r.value ==> !BearerAt(s, j)
    ensures r.None? ==> forall j :: from <= j ==> !BearerAt(s, j)
    decreases |s| - from
  {
    if from + |BearerPrefix| > |s| then None
    else if BearerAt(s, from) then Some(from)
    else NextBearer(s, from + 1)
  }

  /** Whether the separator occurs anywhere in `s`. */
  predicate ContainsBearer(s: string) {
    exists j :: 0 <= j < |s| && BearerAt(s, j)
  }

  /** The second piece of `split('Bearer ')` on a header that starts with
      the separator: the text after it up to its next occurrence, or to the
      end. The token never contains the separator. */
  function BearerToken(header: string): (token: string)
    requires StartsWith(header, BearerPrefix)
    ensures |BearerPrefix| + |token| <= |header|
    ensures header[..|BearerPrefix| + |token|] == BearerPrefix + token
    ensures !ContainsBearer(token)
  {
    var start := |BearerPrefix|;
    var end := match NextBearer(header, start)
      case Some(i) => i
      case None => |header|;
    var token := header[start..end];
    assert forall j :: 0 <= j < |token| && BearerAt(token, j) ==> BearerAt(header, start + j) by {
      forall j | 0 <= j < |token| && BearerAt(token, j)
        ensures BearerAt(header, start + j)
      {
        SliceOfSlice(header, start, end, j, j + |BearerPrefix|);
      }
    }
    token
  }

  lemma SliceOfSlice(s: string, a: nat, b: nat, c: nat, d: nat)
    requires a <= b <= |s| && c <= d <= b - a
    ensures s[a..b][c..d] == s[a + c..a + d]
  {
    assert forall k :: 0 <= k < d - c ==> s[a..b][c..d][k] == s[a + c + k];
  }

  /** The header the login page sends, `Bearer ${idToken}`, gives back
      exactly the ID token, and only because the token does not contain
      the separator (an ID token is a JWT, which has no spaces). */
  lemma BearerRoundTrip(idToken: string)
    ensures StartsWith(BearerPrefix + idToken, BearerPrefix)
    ensures BearerToken(BearerPrefix + idToken) == idToken <==> !ContainsBearer(idToken)
  {
    var header := BearerPrefix + idToken;
    var start := |BearerPrefix|;
    assert header[..start] == BearerPrefix;
    var token := BearerToken(header);
    if !ContainsBearer(idToken) {
      forall j | start <= j
        ensures !BearerAt(header, j)
      {
        if BearerAt(header, j) {
          assert idToken[j - start..j - start + |BearerPrefix|] == header[j..j + |BearerPrefix|];
          assert BearerAt(idToken, j - start);
        }
      }
      assert header[start..] == idToken;
    }
  }

  // ---------------------------------------------------------------------
  // POST and DELETE
  // ---------------------------------------------------------------------

  /** `POST`: `authorization` is the header (None when missing), `verify`
      the error `verifyIdToken` throws for a token (None when it is
      accepted), `mint` what `createSessionCookie` returns or throws for a
      token and a lifetime. */
  function Post(authorization: Option<string>, verify: string -> Option<ErrorValue>,
                mint: (string, int) -> Result<string, ErrorValue>, production: bool): (r: Response)
    ensures r.status in {200, 401, 500}
    ensures r.status == 401 <==> authorization.None? || !StartsWith(authorization.value, BearerPrefix)
    ensures r.status == 401 ==> r.body == Body("unauthorized", Some(UnauthorizedMessage)) && r.cookies == []
    ensures r.status == 200 <==>
      authorization.Some? && StartsWith(authorization.value, BearerPrefix)
      && verify(BearerToken(authorization.value)).None?
      && mint(BearerToken(authorization.value), ExpiresIn).Success?
    ensures r.status == 200 ==>
      r.body == Body("success", None)
      && r.cookies == [Cookie(SessionCookieName, mint(BearerToken(authorization.value), ExpiresIn).value,
                              ExpiresIn, true, production, "/")]
    ensures r.status == 500 ==>
      r.cookies == [] && r.body.status == "error" && r.body.message.Some?
      && StartsWith(r.body.message.value, ServerErrorPrefix)
    ensures authorization.Some? && StartsWith(authorization.value, BearerPrefix)
            && verify(BearerToken(authorization.value)).None?
            && mint(BearerToken(authorization.value), ExpiresIn).Failure?
            ==> r == ServerError(mint(BearerToken(authorization.value), ExpiresIn).error)
  {
    if authorization.Some? && StartsWith(authorization.value, BearerPrefix) then
      var idToken := BearerToken(authorization.value);
      match verify(idToken)
      case Some(e) => ServerError(e)
      case None =>
        match mint(idToken, ExpiresIn)
        case Failure(e) => ServerError(e)
        case Success(sessionCookie) =>
          Response(200, Body("success", None),
                   [Cookie(SessionCookieName, sessionCookie, ExpiresIn, true, production, "/")])
    else
      Response(401, Body("unauthorized", Some(UnauthorizedMessage)), [])
  }

  /** The 500 answer for a thrown error: its message after the fixed
      prefix, or the default text when it has none. */
  function ServerError(e: ErrorValue): (r: Response)
    ensures r.status == 500 && r.cookies == [] && r.body.status == "error"
    ensures e.message != "" ==> r.body.message == Some(ServerErrorPrefix + e.message)
    ensures e.message == "" ==> r.body.message == Some(ServerErrorPrefix + ServerErrorDefault)
  {
    Response(500, Body("error", Some(ServerErrorPrefix + (if e.message != "" then e.message else ServerErrorDefault))), [])
  }

  /** Verification comes first: a rejected token gives the 500 answer with
      the verifier's error, whatever the cookie minting would have done. */
  lemma VerifyBeforeMint(header: string, verify: string -> Option<ErrorValue>,
                         mint: (string, int) -> Result<string, ErrorValue>, production: bool)
    requires StartsWith(header, BearerPrefix) && verify(BearerToken(header)).Some?
    ensures Post(Some(header), verify, mint, production) == ServerError(verify(BearerToken(header)).value)
  {
  }

  /** Without a bearer header neither oracle is consulted: the answer is the
      same for every verifier, minter and environment. */
  lemma UnauthorizedWithoutOracles(authorization: Option<string>,
                                   verify1: string -> Option<ErrorValue>, verify2: string -> Option<ErrorValue>,
                                   mint1: (string, int) -> Result<string, ErrorValue>,
                                   mint2: (string, int) -> Result<string, ErrorValue>, p1: bool, p2: bool)
    requires authorization.None? || !StartsWith(authorization.value, BearerPrefix)
    ensures Post(authorization, verify1, mint1, p1) == Post(authorization, verify2, mint2, p2)
  {
  }

  /** `DELETE`: 200 with the session cookie emptied and already expired:
      name "session", empty value, `maxAge` -1, path "/", and neither
      httpOnly nor secure. */
  function Delete(): (r: Response)
    ensures Ok(r) && r.body == Body("success", None)
    ensures r.cookies == [Cookie(SessionCookieName, "", -1, false, false, "/")]
  {
    Response(200, Body("success", None), [Cookie(SessionCookieName, "", -1, false, false, "/")])
  }

  /** DELETE's cookie replaces the one POST set: same name and path, empty
      value, negative age. */
  lemma DeleteClearsPostCookie(authorization: Option<string>, verify: string -> Option<ErrorValue>,
                               mint: (string, int) -> Result<string, ErrorValue>, production: bool)
    requires Post(authorization, verify, mint, production).status == 200
    ensures var issued := Post(authorization, verify, mint, production).cookies[0];
            var cleared := Delete().cookies[0];
            cleared.name == issued.name && cleared.path == issued.path && cleared.value == "" && cleared.maxAge < 0
            && issued.maxAge == ExpiresIn
  {
  }

  // ---------------------------------------------------------------------
  // The route as the login page sees it
  // ---------------------------------------------------------------------

  /** The reply the login page reads: `response.ok` and the body's message. */
  function Reply(r: Response): (reply: Login.SessionReply)
    ensures reply.ok <==> Ok(r)
    ensures reply.message == r.body.message
  {
    Login.SessionReply(Ok(r), r.body.message)
  }

  /** Signing in with a valid token opens the session: the login page's
      check passes. */
  lemma SignInOpensSession(idToken: string, verify: string -> Option<ErrorValue>,
                           mint: (string, int) -> Result<string, ErrorValue>, production: bool)
    requires !ContainsBearer(idToken)
    requires verify(idToken).None? && mint(idToken, ExpiresIn).Success?
    ensures Login.AuthSuccessError(Success(Reply(Post(Some(BearerPrefix + idToken), verify, mint, production)))).None?
    ensures Post(Some(BearerPrefix + idToken), verify, mint, production).cookies[0].value == mint(idToken, ExpiresIn).value
  {
    BearerRoundTrip(idToken);
  }

  /** A refused token reaches the login form as the route's own message. */
  lemma RefusalShownOnLogin(idToken: string, verify: string -> Option<ErrorValue>,
                            mint: (string, int) -> Result<string, ErrorValue>, production: bool)
    requires !ContainsBearer(idToken) && verify(idToken).Some?
    ensures var e := Login.AuthSuccessError(Success(Reply(Post(Some(BearerPrefix + idToken), verify, mint, production))));
            e.Some? && StartsWith(Login.LoginDescription(e.value), ServerErrorPrefix)
  {
    BearerRoundTrip(idToken);
  }
}
