/** Sessions and provider tokens (lib/auth.ts, and the cookie options of
    NeuronNook/lib/auth.ts): the session JWT of RFC 7519 signed with HS256
    (section 3.2 of RFC 7518), the session cookie, and the refresh-token
    grant of section 6 of RFC 6749.

    Signing is symbolic: a signed token carries the exact key, header and
    claims its MAC was computed over, so a token verifies under a key only
    if it was signed with that key. Time is whole seconds since the epoch. */
module Auth {
  import opened Wrappers
  import opened Documents

  /** `60 * 60 * 24 * 7`: the `"7d"` expiry and the cookie's max-age. */
  const SessionLifetime: int := 604800

  const DefaultSecret: string := "your-secret-key-change-in-production"

  /** `process.env.JWT_SECRET || "your-secret-key-change-in-production"` */
  function SigningSecret(env: Option<string>): (key: string)
    ensures Truthy(env) ==> key == env.value
    ensures !Truthy(env) ==> key == DefaultSecret
    ensures key != ""
  {
    OrElse(env, DefaultSecret)
  }

  // ---------------------------------------------------------------------------
  // The session token

  datatype Header = Header(alg: string)

  /** The JWT payload: the `userId` and `email` claims and the expiry. */
  datatype Claims = Claims(userId: Option<string>, email: Option<string>, exp: Option<int>)

  /** The MAC of section 3.2 of RFC 7518, as a term over its inputs. */
  datatype Mac = Hmac(key: string, header: Header, claims: Claims)

  /** A compact JWS, or text that does not parse as one (an empty cookie
      value is `Garbled("")`). */
  datatype Token = Signed(header: Header, claims: Claims, mac: Mac) | Garbled(text: string)

  predicate HmacAlg(alg: string) {
    alg == "HS256" || alg == "HS384" || alg == "HS512"
  }

  /** `createSession`: `{ userId, email }` under HS256, expiring 7 days after
      `now`, signed with the key. */
  function CreateSession(u: User, key: string, now: int): (t: Token)
    ensures t.Signed? && t.header == Header("HS256")
  {
    var h := Header("HS256");
    var c := Claims(Some(u.id), u.email, Some(now + SessionLifetime));
    Signed(h, c, Hmac(key, h, c))
  }

  /** `verifySession`: the payload of a token whose MAC checks under the key,
      whose algorithm is an HMAC one, and whose expiry, if any, lies after
      `now`; `None` (the caught exception) for every other token. */
  function VerifySession(t: Token, key: string, now: int): (r: Option<Claims>)
    ensures t.Garbled? ==> r.None?
  {
    match t
    case Garbled(_) => None
    case Signed(h, c, m) =>
      if m == Hmac(key, h, c) && HmacAlg(h.alg) && (c.exp.None? || now < c.exp.value) then Some(c)
      else None
  }

  /** A session verifies, with exactly the claims it was created with, until
      7 days after its creation and not from then on. */
  lemma VerifyCreatedSession(u: User, key: string, created: int, now: int)
    ensures VerifySession(CreateSession(u, key, created), key, now)
      == if now < created + SessionLifetime then Some(Claims(Some(u.id), u.email, Some(created + SessionLifetime)))
         else None
  {
  }

  /** A session created under one key never verifies under another. */
  lemma OtherKeyRejects(u: User, key: string, other: string, created: int, now: int)
    requires key != other
    ensures VerifySession(CreateSession(u, key, created), other, now).None?
  {
  }

  /** Whatever verifies was signed with the key over exactly the claims
      returned, and has not expired. */
  lemma VerifiedWasSigned(t: Token, key: string, now: int)
    requires VerifySession(t, key, now).Some?
    ensures var c := VerifySession(t, key, now).value;
      t == Signed(t.header, c, Hmac(key, t.header, c)) && (c.exp.Some? ==> now < c.exp.value)
  {
  }

  // ---------------------------------------------------------------------------
  // The session cookie

  const SessionCookieName: string := "session"

  datatype SameSite = Lax | Strict | NoSameSite

  datatype CookieOptions = CookieOptions(
    httpOnly: bool,
    secure: bool,
    sameSite: SameSite,
    maxAge: int,
    path: string,
    domain: Option<string>)

  datatype Cookie = Cookie(value: Token, options: CookieOptions)

  /** `sessionCookieOptions` of lib/auth.ts. */
  function SessionCookieOptions(production: bool): (o: CookieOptions)
    ensures o.httpOnly && o.sameSite == Lax && o.path == "/" && o.maxAge == SessionLifetime
    ensures o.secure <==> production
    ensures o.domain == if production then Some(".vercel.app") else None
  {
    CookieOptions(true, production, Lax, SessionLifetime, "/", if production then Some(".vercel.app") else None)
  }

  /** `sessionCookieOptions` of NeuronNook/lib/auth.ts: no domain. */
  function LegacySessionCookieOptions(production: bool): (o: CookieOptions)
    ensures o == SessionCookieOptions(production).(domain := None)
  {
    CookieOptions(true, production, Lax, SessionLifetime, "/", None)
  }

  /** The options the current callbacks pass to `response.cookies.set`:
      always secure, never a domain. */
  const CallbackCookieOptions: CookieOptions := CookieOptions(true, true, Lax, SessionLifetime, "/", None)

  /** `cookieStore.get("session")?.value || null` */
  function SessionToken(cookies: map<string, Cookie>): (r: Option<Token>)
    ensures r.None? <==> SessionCookieName !in cookies || cookies[SessionCookieName].value == Garbled("")
    ensures r.Some? ==> r.value == cookies[SessionCookieName].value
  {
    if SessionCookieName in cookies && cookies[SessionCookieName].value != Garbled("")
    then Some(cookies[SessionCookieName].value)
    else None
  }

  /** A cookie jar: the request's cookie store or a response's cookies. */
  class CookieJar {
    var cookies: map<string, Cookie>

    constructor ()
      ensures cookies == map[]
    {
      cookies := map[];
    }

    /** `setSessionCookie(token, response?)`: either way one jar receives the
        cookie under "session" with the given options. */
    method SetSessionCookie(token: Token, options: CookieOptions)
      modifies this
      ensures cookies == old(cookies)[SessionCookieName := Cookie(token, options)]
    {
      cookies := cookies[SessionCookieName := Cookie(token, options)];
    }

    /** `clearSessionCookie` */
    method ClearSessionCookie()
      modifies this
      ensures cookies == old(cookies) - {SessionCookieName}
    {
      cookies := cookies - {SessionCookieName};
    }

    /** `getSessionToken` */
    method GetSessionToken() returns (r: Option<Token>)
      ensures r == SessionToken(cookies)
    {
      if SessionCookieName in cookies && cookies[SessionCookieName].value != Garbled("") {
        r := Some(cookies[SessionCookieName].value);
      } else {
        r := None;
      }
    }
  }

  /** What is set is what is read back; after clearing nothing is read. */
  lemma SetThenGet(cookies: map<string, Cookie>, t: Token, o: CookieOptions)
    requires t != Garbled("")
    ensures SessionToken(cookies[SessionCookieName := Cookie(t, o)]) == Some(t)
    ensures SessionToken(cookies - {SessionCookieName}).None?
  {
  }

  // ---------------------------------------------------------------------------
  // The refresh-token grant

  datatype Provider = Google | Microsoft

  /** The form body of a refresh request. */
  datatype RefreshForm = RefreshForm(
    endpoint: string,
    clientId: string,
    clientSecret: string,
    refreshToken: string,
    grantType: string,
    scope: Option<string>)

  /** The provider's client credentials, as read from the environment. */
  datatype ClientEnv = ClientEnv(clientId: Option<string>, clientSecret: Option<string>)

  /** The `access_token` member of a token endpoint's JSON reply. */
  datatype TokenReply = TokenReply(accessToken: Option<string>)

  function RefreshRequest(p: Provider, refreshToken: string, env: ClientEnv): (f: RefreshForm)
    ensures f.grantType == "refresh_token" && f.refreshToken == refreshToken
    ensures f.clientId == OrElse(env.clientId, "") && f.clientSecret == OrElse(env.clientSecret, "")
    ensures f.scope.Some? <==> p == Microsoft
  {
    match p
    case Google =>
      RefreshForm("https://oauth2.googleapis.com/token", OrElse(env.clientId, ""), OrElse(env.clientSecret, ""),
                  refreshToken, "refresh_token", None)
    case Microsoft =>
      RefreshForm("https://login.microsoftonline.com/common/oauth2/v2.0/token", OrElse(env.clientId, ""),
                  OrElse(env.clientSecret, ""), refreshToken, "refresh_token",
                  Some("offline_access mail.readonly calendar.readonly files.read"))
  }

  /** `refreshGoogleAccessToken` / `refreshMicrosoftAccessToken`: nothing for
      an empty refresh token, otherwise the reply's `access_token` on
      success and nothing on a non-2xx reply or an exception. `post` is the
      token endpoint. */
  function RefreshAccessToken(p: Provider, refreshToken: string, env: ClientEnv,
                              post: RefreshForm -> Reply<TokenReply>): Option<string>
  {
    if refreshToken == "" then None
    else
      match post(RefreshRequest(p, refreshToken, env))
      case Success(data) => data.accessToken
      case NotOk(_, _) => None
      case Throws => None
  }

  /** An empty refresh token yields nothing whatever the endpoint would
      answer: no request is made. */
  lemma RefreshEmptyAsksNothing(p: Provider, env: ClientEnv, post1: RefreshForm -> Reply<TokenReply>,
                                post2: RefreshForm -> Reply<TokenReply>)
    ensures RefreshAccessToken(p, "", env, post1) == RefreshAccessToken(p, "", env, post2) == None
  {
  }

  /** The refresh never fails outward: it yields a token exactly when the
      endpoint answered 2xx with one, for a non-empty refresh token. */
  lemma RefreshSoftFails(p: Provider, refreshToken: string, env: ClientEnv, post: RefreshForm -> Reply<TokenReply>)
    ensures var r := RefreshAccessToken(p, refreshToken, env, post);
      var reply := post(RefreshRequest(p, refreshToken, env));
      (r.Some? <==> refreshToken != "" && reply.Success? && reply.data.accessToken.Some?)
      && (r.Some? ==> r == reply.data.accessToken)
  {
  }
}
