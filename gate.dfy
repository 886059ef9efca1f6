/** The gate every protected route repeats (app/api/gmail/route.ts and its
    siblings): the session cookie, its verification, the user found by the
    session's email, and, for provider routes, the provider's connected flag
    and access token; then refresh-before-use, which swaps in a refreshed
    access token and writes it back, never failing the request. */
module Gate {
  import opened Wrappers
  import opened Documents
  import opened Query
  import Db
  import Airtable
  import Auth

  /** The request's surroundings: the signing key, the clock in seconds, the
      same instant as an ISO string for the store, a fresh ObjectId for an
      insert, and whether `findOneAndUpdate` hands back its document. */
  datatype Context = Context(key: string, clock: int, now: string, newOid: string, returnsDoc: bool)

  /** A JSON error reply: its status and its `error` member. */
  datatype Failure = Failure(status: int, error: string)

  const NotAuthenticated := Failure(401, "Not authenticated")
  const InvalidSession := Failure(401, "Invalid session")
  const UserNotFound := Failure(404, "User not found")

  function NotConnected(p: Auth.Provider): Failure {
    match p
    case Google => Failure(403, "Google not connected")
    case Microsoft => Failure(403, "Microsoft not connected")
  }

  /** A route's reply: its JSON body, or an error status with a message and
      possibly `details`. */
  datatype Response<T> = Answer(body: T) | Refused(status: int, error: string, details: Option<string>)

  function Refuse<T>(f: Failure): Response<T> {
    Refused(f.status, f.error, None)
  }

  /** The message of a passed-through provider failure: the JSON body's
      `error.message`, else (when the body is not such JSON) the body text,
      else the route's fallback. `parsed` is `None` when parsing the body or
      reading `error` from it throws. */
  function ErrorMessage(body: string, parsed: Option<Option<string>>, fallback: string): (m: string)
    requires fallback != ""
    ensures m != ""
    ensures m == fallback || (parsed.Some? && Some(m) == parsed.value) || (parsed.None? && m == body)
  {
    match parsed
    case Some(message) => OrElse(message, fallback)
    case None => OrElse(Some(body), fallback)
  }

  /** One query parameter of a provider request. */
  datatype Param = Param(name: string, value: string)

  /** `searchParams.get(name)`: the first parameter so named. */
  function GetParam(ps: seq<Param>, name: string): Option<string> {
    if |ps| == 0 then None
    else if ps[0].name == name then Some(ps[0].value)
    else GetParam(ps[1..], name)
  }

  lemma {:induction false} GetParamAppend(a: seq<Param>, b: seq<Param>, name: string)
    ensures GetParam(a + b, name) == if GetParam(a, name).Some? then GetParam(a, name) else GetParam(b, name)
  {
    if |a| > 0 {
      assert (a + b)[1..] == a[1..] + b;
      GetParamAppend(a[1..], b, name);
    } else {
      assert a + b == b;
    }
  }

  lemma {:induction false} GetParamFirst(ps: seq<Param>, name: string, i: nat)
    requires i < |ps| && ps[i].name == name
    requires forall j :: 0 <= j < i ==> ps[j].name != name
    ensures GetParam(ps, name) == Some(ps[i].value)
  {
    if i > 0 {
      GetParamFirst(ps[1..], name, i - 1);
    }
  }

  lemma {:induction false} GetParamAbsent(ps: seq<Param>, name: string)
    requires forall j :: 0 <= j < |ps| ==> ps[j].name != name
    ensures GetParam(ps, name) == None
  {
    if |ps| > 0 {
      GetParamAbsent(ps[1..], name);
    }
  }

  /** The API key parameter, added only when the key is set. */
  function KeyParam(apiKey: Option<string>): seq<Param> {
    if Truthy(apiKey) then [Param("key", apiKey.value)] else []
  }

  predicate Connected(u: User, p: Auth.Provider) {
    match p
    case Google => u.googleConnected
    case Microsoft => u.microsoftConnected
  }

  function AccessToken(u: User, p: Auth.Provider): Option<string> {
    match p
    case Google => u.googleAccessToken
    case Microsoft => u.microsoftAccessToken
  }

  function RefreshToken(u: User, p: Auth.Provider): Option<string> {
    match p
    case Google => u.googleRefreshToken
    case Microsoft => u.microsoftRefreshToken
  }

  /** `{ googleAccessToken: newToken }` or `{ microsoftAccessToken: newToken }` */
  function AccessTokenPatch(p: Auth.Provider, token: string): UserPatch {
    match p
    case Google => EmptyPatch.(googleAccessToken := Put(Some(token)))
    case Microsoft => EmptyPatch.(microsoftAccessToken := Put(Some(token)))
  }

  /** The session half of the gate: the session's email, or the 401 that
      ends the request. */
  function SessionEmail(cookies: map<string, Auth.Cookie>, ctx: Context): Result<Option<string>, Failure> {
    match Auth.SessionToken(cookies)
    case None => Err(NotAuthenticated)
    case Some(token) =>
      match Auth.VerifySession(token, ctx.key, ctx.clock)
      case None => Err(InvalidSession)
      case Some(claims) => Ok(claims.email)
  }

  /** The provider half: a provider route demands the connected flag and a
      non-empty access token; the account routes demand nothing. */
  function Admit(u: User, provider: Option<Auth.Provider>): Result<User, Failure> {
    if provider.Some? && (!Connected(u, provider.value) || !Truthy(AccessToken(u, provider.value)))
    then Err(NotConnected(provider.value))
    else Ok(u)
  }

  /** The gate over the current store. */
  function GateSpec(cookies: map<string, Auth.Cookie>, ctx: Context, rows: seq<UserDoc>,
                    provider: Option<Auth.Provider>): Result<User, Failure>
  {
    match SessionEmail(cookies, ctx)
    case Err(f) => Err(f)
    case Ok(email) =>
      match Db.FindUser(rows, [EmailIs(email)], ctx.now)
      case None => Err(UserNotFound)
      case Some(rec) => Admit(Db.DbRecordToUser(rec), provider)
  }

  /** The gate over the older store. */
  function LegacyGateSpec(cookies: map<string, Auth.Cookie>, ctx: Context, rows: seq<UserDoc>,
                          provider: Option<Auth.Provider>): Result<User, Failure>
  {
    match SessionEmail(cookies, ctx)
    case Err(f) => Err(f)
    case Ok(email) =>
      match Airtable.FindUser(rows, [EmailIs(email)], ctx.now)
      case None => Err(UserNotFound)
      case Some(rec) => Admit(Airtable.AirtableRecordToUser(rec), provider)
  }

  /** The store's one call in the gate: the lookup by the session's email,
      made only once the session has verified. */
  function GateOps(cookies: map<string, Auth.Cookie>, ctx: Context): seq<Op> {
    match SessionEmail(cookies, ctx)
    case Err(_) => []
    case Ok(email) => [FindOne([EmailIs(email)])]
  }

  /** The gate's order: no cookie, then a session that does not verify, then
      no user with the session's email, then (for a provider route) a
      provider that is not connected or has no token. A user who passes is
      the one stored with the session's email, and is connected. */
  lemma GateOrder(cookies: map<string, Auth.Cookie>, ctx: Context, rows: seq<UserDoc>, provider: Option<Auth.Provider>)
    ensures var r := GateSpec(cookies, ctx, rows, provider);
      var token := Auth.SessionToken(cookies);
      (token.None? ==> r == Err(NotAuthenticated))
      && (token.Some? && Auth.VerifySession(token.value, ctx.key, ctx.clock).None? ==> r == Err(InvalidSession))
      && (token.Some? && Auth.VerifySession(token.value, ctx.key, ctx.clock).Some? ==>
           var email := Auth.VerifySession(token.value, ctx.key, ctx.clock).value.email;
           ((forall j :: 0 <= j < |rows| ==> rows[j].fields.email != email) <==> r == Err(UserNotFound))
           && (r.Ok? ==> r.value.email == email))
      && (r.Ok? ==> token.Some? && Auth.VerifySession(token.value, ctx.key, ctx.clock).Some?
                    && (provider.Some? ==> Connected(r.value, provider.value) && Truthy(AccessToken(r.value, provider.value))))
      && (r.Err? && r.error.status == 403 ==> provider.Some? && r.error == NotConnected(provider.value))
  {
    match SessionEmail(cookies, ctx)
    case Err(_) =>
    case Ok(email) =>
      Db.FindByEmailSpec(rows, email, ctx.now);
  }

  /** Both stores' gates decide alike over the same documents. */
  lemma GatesAgree(cookies: map<string, Auth.Cookie>, ctx: Context, rows: seq<UserDoc>, provider: Option<Auth.Provider>)
    ensures LegacyGateSpec(cookies, ctx, rows, provider) == GateSpec(cookies, ctx, rows, provider)
  {
    match SessionEmail(cookies, ctx)
    case Err(_) =>
    case Ok(email) =>
      match FirstMatch(rows, [EmailIs(email)])
      case None =>
      case Some(i) =>
        Airtable.SameUserAsCurrentStore(rows[i], ctx.now);
  }

  /** The result of refresh-before-use: the token the route goes on with,
      the users after the write-back, and the store calls made. */
  datatype Refreshed = Refreshed(token: string, users: seq<UserDoc>, ops: seq<Op>)

  /** Refresh-before-use: with a refresh token stored, ask for a new access
      token; a non-empty one replaces the stored token for this request and
      is written back, whether or not the write succeeds. */
  function RefreshSpec(p: Auth.Provider, u: User, client: Auth.ClientEnv,
                       post: Auth.RefreshForm -> Reply<Auth.TokenReply>, ctx: Context,
                       rows: seq<UserDoc>, oidValid: string -> bool): Refreshed
  {
    var current := OrElse(AccessToken(u, p), "");
    var renewed := if Truthy(RefreshToken(u, p)) then Auth.RefreshAccessToken(p, RefreshToken(u, p).value, client, post)
                   else None;
    if !Truthy(renewed) then Refreshed(current, rows, [])
    else
      var q := AccessTokenPatch(p, renewed.value);
      Refreshed(renewed.value, Db.UpdateUserSpec(rows, u.id, q, ctx.now, ctx.newOid, ctx.returnsDoc, oidValid).0,
                Db.UpdateOps(u.id, q, ctx.returnsDoc, oidValid))
  }

  /** The refresh never fails the request: without a stored refresh token,
      or when the endpoint gives no token, the stored token is used and the
      store is untouched; otherwise the new token is used even when writing
      it back fails. */
  lemma RefreshNeverFails(p: Auth.Provider, u: User, client: Auth.ClientEnv,
                          post: Auth.RefreshForm -> Reply<Auth.TokenReply>, ctx: Context,
                          rows: seq<UserDoc>, oidValid: string -> bool)
    ensures var r := RefreshSpec(p, u, client, post, ctx, rows, oidValid);
      var reply := post(Auth.RefreshRequest(p, OrElse(RefreshToken(u, p), ""), client));
      var renewed := Truthy(RefreshToken(u, p)) && reply.Success? && Truthy(reply.data.accessToken);
      (renewed ==> r.token == reply.data.accessToken.value
                   && r.ops == Db.UpdateOps(u.id, AccessTokenPatch(p, r.token), ctx.returnsDoc, oidValid))
      && (!renewed ==> r == Refreshed(OrElse(AccessToken(u, p), ""), rows, []))
  {
    if Truthy(RefreshToken(u, p)) {
      Auth.RefreshSoftFails(p, RefreshToken(u, p).value, client, post);
    }
  }

  /** The write-back changes the user's access token for that provider and
      `updatedAt`, and nothing else, when no other document answers to the
      user's id. */
  lemma RefreshWritesOnlyToken(p: Auth.Provider, client: Auth.ClientEnv,
                               post: Auth.RefreshForm -> Reply<Auth.TokenReply>, ctx: Context,
                               rows: seq<UserDoc>, oidValid: string -> bool, i: nat)
    requires i < |rows|
    requires forall j :: 0 <= j < |rows| ==>
      (MatchesAny(rows[j], Db.IdFilter(IdText(Some(rows[i].id)), oidValid)) <==> j == i)
    ensures var u := Db.DbRecordToUser(Db.UserRecord(rows[i], ctx.now));
      var r := RefreshSpec(p, u, client, post, ctx, rows, oidValid);
      r.users == rows
      || r.users == rows[i := UserDoc(rows[i].id, SetFields(rows[i].fields, AccessTokenPatch(p, r.token), ctx.now))]
  {
    var u := Db.DbRecordToUser(Db.UserRecord(rows[i], ctx.now));
    var r := RefreshSpec(p, u, client, post, ctx, rows, oidValid);
    if r.users != rows {
      Db.UpdateExistingById(rows, i, AccessTokenPatch(p, r.token), ctx.now, ctx.newOid, ctx.returnsDoc, oidValid);
    }
  }

  /** What a protected route does, as a function of its inputs: the gate,
      the route's own checks of its request (`precheck`), refresh-before-use
      when the route uses a provider, and then the route's work with the
      token (`serve`). */
  datatype Served<T> = Served(response: Response<T>, users: seq<UserDoc>, ops: seq<Op>)

  function HandleSpec<T>(cookies: map<string, Auth.Cookie>, ctx: Context, provider: Option<Auth.Provider>,
                         client: Auth.ClientEnv, post: Auth.RefreshForm -> Reply<Auth.TokenReply>,
                         precheck: Option<Failure>, serve: (User, string) -> Response<T>,
                         rows: seq<UserDoc>, oidValid: string -> bool): Served<T>
  {
    var ops := GateOps(cookies, ctx);
    match GateSpec(cookies, ctx, rows, provider)
    case Err(f) => Served(Refuse(f), rows, ops)
    case Ok(u) =>
      if precheck.Some? then Served(Refuse(precheck.value), rows, ops)
      else if provider.None? then Served(serve(u, ""), rows, ops)
      else
        var r := RefreshSpec(provider.value, u, client, post, ctx, rows, oidValid);
        Served(serve(u, r.token), r.users, ops + r.ops)
  }

  /** A request refused by the gate or by the route's own checks never
      reaches the provider: its reply is the same whatever the route would
      do, and the store is untouched. */
  lemma RefusedBeforeServing<T>(cookies: map<string, Auth.Cookie>, ctx: Context, provider: Option<Auth.Provider>,
                                client: Auth.ClientEnv, post: Auth.RefreshForm -> Reply<Auth.TokenReply>,
                                precheck: Option<Failure>, serve1: (User, string) -> Response<T>,
                                serve2: (User, string) -> Response<T>, rows: seq<UserDoc>, oidValid: string -> bool)
    requires GateSpec(cookies, ctx, rows, provider).Err? || precheck.Some?
    ensures var s := HandleSpec(cookies, ctx, provider, client, post, precheck, serve1, rows, oidValid);
      s == HandleSpec(cookies, ctx, provider, client, post, precheck, serve2, rows, oidValid)
      && s.users == rows && s.response.Refused?
      && (GateSpec(cookies, ctx, rows, provider).Err? ==> s.response == Refuse(GateSpec(cookies, ctx, rows, provider).error))
      && (GateSpec(cookies, ctx, rows, provider).Ok? ==> s.response == Refuse(precheck.value))
  {
  }

  /** The gate over a live store; the session token is read from the
      request's cookies. */
  method Authorize(jar: Auth.CookieJar, ctx: Context, provider: Option<Auth.Provider>, db: Db.Database)
    returns (r: Result<User, Failure>)
    modifies db`log
    ensures r == GateSpec(jar.cookies, ctx, db.users, provider)
    ensures db.log == old(db.log) + GateOps(jar.cookies, ctx)
  {
    var token := jar.GetSessionToken();
    if token.None? {
      return Err(NotAuthenticated);
    }
    var session := Auth.VerifySession(token.value, ctx.key, ctx.clock);
    if session.None? {
      return Err(InvalidSession);
    }
    var userRecord := db.FindUserByEmail(session.value.email, ctx.now);
    if userRecord.None? {
      return Err(UserNotFound);
    }
    var user := Db.DbRecordToUser(userRecord.value);
    if provider.Some? && (!Connected(user, provider.value) || !Truthy(AccessToken(user, provider.value))) {
      return Err(NotConnected(provider.value));
    }
    r := Ok(user);
  }

  /** The gate over the older store. */
  method LegacyAuthorize(jar: Auth.CookieJar, ctx: Context, provider: Option<Auth.Provider>,
                         db: Airtable.LegacyDatabase)
    returns (r: Result<User, Failure>)
    modifies db`log
    ensures r == LegacyGateSpec(jar.cookies, ctx, db.users, provider)
    ensures db.log == old(db.log) + GateOps(jar.cookies, ctx)
  {
    var token := jar.GetSessionToken();
    if token.None? {
      return Err(NotAuthenticated);
    }
    var session := Auth.VerifySession(token.value, ctx.key, ctx.clock);
    if session.None? {
      return Err(InvalidSession);
    }
    var userRecord := db.FindUserByEmail(session.value.email, ctx.now);
    if userRecord.None? {
      return Err(UserNotFound);
    }
    var user := Airtable.AirtableRecordToUser(userRecord.value);
    if provider.Some? && (!Connected(user, provider.value) || !Truthy(AccessToken(user, provider.value))) {
      return Err(NotConnected(provider.value));
    }
    r := Ok(user);
  }

  /** Refresh-before-use over a live store. */
  method RefreshBeforeUse(p: Auth.Provider, u: User, client: Auth.ClientEnv,
                          post: Auth.RefreshForm -> Reply<Auth.TokenReply>, ctx: Context, db: Db.Database)
    returns (token: string)
    requires db.Valid() && Db.FreshId(db.users, Oid(ctx.newOid))
    modifies db`users, db`log
    ensures db.Valid()
    ensures var r := RefreshSpec(p, u, client, post, ctx, old(db.users), db.oidValid);
      token == r.token && db.users == r.users && db.log == old(db.log) + r.ops
  {
    token := OrElse(AccessToken(u, p), "");
    var refresh := RefreshToken(u, p);
    if Truthy(refresh) {
      var renewed := Auth.RefreshAccessToken(p, refresh.value, client, post);
      if Truthy(renewed) {
        token := renewed.value;
        var written := db.UpdateUser(u.id, AccessTokenPatch(p, renewed.value), ctx.now, ctx.newOid, ctx.returnsDoc);
      }
    }
  }

  /** A protected route over a live store: the gate, the route's checks,
      refresh-before-use, then the route's work with the token. */
  method Handle<T>(jar: Auth.CookieJar, ctx: Context, provider: Option<Auth.Provider>,
                   client: Auth.ClientEnv, post: Auth.RefreshForm -> Reply<Auth.TokenReply>,
                   precheck: Option<Failure>, serve: (User, string) -> Response<T>, db: Db.Database)
    returns (response: Response<T>)
    requires db.Valid() && Db.FreshId(db.users, Oid(ctx.newOid))
    modifies db`users, db`log
    ensures db.Valid()
    ensures var s := HandleSpec(jar.cookies, ctx, provider, client, post, precheck, serve, old(db.users), db.oidValid);
      response == s.response && db.users == s.users && db.log == old(db.log) + s.ops
  {
    var gate := Authorize(jar, ctx, provider, db);
    if gate.Err? {
      return Refuse(gate.error);
    }
    if precheck.Some? {
      return Refuse(precheck.value);
    }
    if provider.None? {
      return serve(gate.value, "");
    }
    ghost var logAfterGate := db.log;
    var token := RefreshBeforeUse(provider.value, gate.value, client, post, ctx, db);
    LogAppend(old(db.log), GateOps(jar.cookies, ctx),
              RefreshSpec(provider.value, gate.value, client, post, ctx, old(db.users), db.oidValid).ops);
    response := serve(gate.value, token);
  }
}
