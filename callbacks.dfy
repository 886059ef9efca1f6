/** The authorization-code callbacks of section 4.1.2 of RFC 6749 over the
    current store: app/api/auth/google/callback/route.ts and
    app/api/auth/microsoft/callback/route.ts. Both run the same machine:
    read `code` and `state`, exchange the code, fetch the profile, then
    either link the provider to the signed-in user or log in (creating or
    updating the user by email) and issue the session cookie. Every
    exception inside the handler ends in the provider's
    `callback_failed` redirect.

    The provider endpoints are oracles: `exchange` is the token endpoint's
    reply and `userinfo` the profile endpoint's, each consulted only when
    the machine reaches it. */
module Callbacks {
  import opened Wrappers
  import opened Documents
  import opened Query
  import Db
  import Auth
  import OAuthStart
  import opened Gate

  /** The JSON of a successful token exchange. */
  datatype Tokens = Tokens(accessToken: Option<string>, refreshToken: Option<string>)

  /** The JSON of a successful profile request: Google's userinfo, or
      Microsoft Graph's `/me`. */
  datatype Profile =
    | GoogleUser(email: Option<string>, name: Option<string>, picture: Option<string>)
    | MicrosoftUser(mail: Option<string>, userPrincipalName: Option<string>, displayName: Option<string>)

  /** Who signed in: `googleUser.email`, or `mail || userPrincipalName`. */
  function IdentityEmail(profile: Profile): (e: Option<string>)
    ensures profile.GoogleUser? ==> e == profile.email
    ensures profile.MicrosoftUser? && Truthy(profile.mail) ==> e == profile.mail
    ensures profile.MicrosoftUser? && !Truthy(profile.mail) ==> e == profile.userPrincipalName
  {
    match profile
    case GoogleUser(email, _, _) => email
    case MicrosoftUser(mail, upn, _) => if Truthy(mail) then mail else upn
  }

  /** The query of the callback URL and the request's cookies. */
  datatype CallbackRequest = CallbackRequest(code: Option<string>, state: Option<string>, cookies: map<string, Auth.Cookie>)

  /** Where the handler ends: a redirect, with the session cookie set on it
      or not, or an exception that escapes the handler (only the older
      callbacks, which have no handler of their own, let one escape). */
  datatype Outcome = Redirect(location: string, cookie: Option<Auth.Cookie>) | Raised

  /** The state of the machine after a request: the stored users, the
      outcome, and the driver calls made, in order. */
  datatype Run = Run(users: seq<UserDoc>, outcome: Outcome, ops: seq<Op>)

  function ErrorUrl(error: string): string {
    "/?error=" + error
  }

  function FailedUrl(p: Auth.Provider): string {
    match p
    case Google => ErrorUrl("google_callback_failed")
    case Microsoft => ErrorUrl("microsoft_callback_failed")
  }

  function LinkedUrl(p: Auth.Provider): string {
    match p
    case Google => "/dashboard?linked=google"
    case Microsoft => "/dashboard?linked=microsoft"
  }

  /** A redirect that sets no cookie. */
  function Plain(location: string): Outcome {
    Redirect(location, None)
  }

  /** The provider's three fields written on linking: connected, and both
      tokens (`undefined` ones written as null). */
  function LinkPatch(p: Auth.Provider, t: Tokens): UserPatch
  {
    match p
    case Google =>
      EmptyPatch.(googleConnected := Put(Some(true)), googleAccessToken := Put(t.accessToken),
                  googleRefreshToken := Put(t.refreshToken))
    case Microsoft =>
      EmptyPatch.(microsoftConnected := Put(Some(true)), microsoftAccessToken := Put(t.accessToken),
                  microsoftRefreshToken := Put(t.refreshToken))
  }

  /** The login update of an existing user: the linking fields, plus the
      Google picture; never the email. */
  function LoginPatch(p: Auth.Provider, t: Tokens, profile: Profile): UserPatch
  {
    if p == Auth.Google && profile.GoogleUser? then LinkPatch(p, t).(image := Put(profile.picture))
    else LinkPatch(p, t)
  }

  /** Linking writes exactly the provider's connected flag and its two
      tokens; login writes the same, plus the picture for Google; neither
      writes the email. */
  lemma PatchFields(p: Auth.Provider, t: Tokens, profile: Profile)
    ensures LinkPatch(p, t).email == Keep && LoginPatch(p, t, profile).email == Keep
    ensures p == Auth.Google ==> LinkPatch(p, t) == EmptyPatch.(googleConnected := Put(Some(true)),
      googleAccessToken := Put(t.accessToken), googleRefreshToken := Put(t.refreshToken))
    ensures p == Auth.Microsoft ==> LinkPatch(p, t) == EmptyPatch.(microsoftConnected := Put(Some(true)),
      microsoftAccessToken := Put(t.accessToken), microsoftRefreshToken := Put(t.refreshToken))
    ensures profile.GoogleUser? && p == Auth.Google ==>
      LoginPatch(p, t, profile) == LinkPatch(p, t).(image := Put(profile.picture))
    ensures profile.MicrosoftUser? || p == Auth.Microsoft ==> LoginPatch(p, t, profile) == LinkPatch(p, t)
  {
  }

  /** The `createUser` argument for an unknown email. */
  function NewUserFor(p: Auth.Provider, t: Tokens, profile: Profile): (u: NewUser)
    ensures u.email == IdentityEmail(profile)
  {
    var email := IdentityEmail(profile);
    var name := if profile.GoogleUser? then profile.name else profile.displayName;
    var image := if profile.GoogleUser? then profile.picture else None;
    match p
    case Google => NewUser(email, name, image, Some(true), None, t.accessToken, t.refreshToken, None, None)
    case Microsoft => NewUser(email, name, image, None, Some(true), None, None, t.accessToken, t.refreshToken)
  }

  /** A new user is connected to the provider it signed in with, holding
      that provider's tokens and none of the other's. Microsoft gives no
      image and takes the name from `displayName`; Google gives both. */
  lemma NewUserFields(p: Auth.Provider, t: Tokens, profile: Profile)
    ensures var u := NewUserFor(p, t, profile);
      (p == Auth.Google ==>
        u.googleConnected == Some(true) && u.microsoftConnected.None?
        && u.googleAccessToken == t.accessToken && u.googleRefreshToken == t.refreshToken
        && u.microsoftAccessToken.None? && u.microsoftRefreshToken.None?)
      && (p == Auth.Microsoft ==>
        u.microsoftConnected == Some(true) && u.googleConnected.None?
        && u.microsoftAccessToken == t.accessToken && u.microsoftRefreshToken == t.refreshToken
        && u.googleAccessToken.None? && u.googleRefreshToken.None?)
      && (profile.MicrosoftUser? ==> u.image.None? && u.name == profile.displayName)
      && (profile.GoogleUser? ==> u.image == profile.picture && u.name == profile.name)
  {
  }

  /** The successful end of a login: a session for the stored user, set as
      the cookie of a redirect to the dashboard. */
  function SignIn(rec: Record<UserDoc>, ctx: Context): (o: Outcome)
    ensures o.Redirect? && o.location == "/dashboard" && o.cookie.Some?
    ensures o.cookie.value.options == Auth.CallbackCookieOptions
  {
    Redirect("/dashboard", Some(Auth.Cookie(Auth.CreateSession(Db.DbRecordToUser(rec), ctx.key, ctx.clock),
                                            Auth.CallbackCookieOptions)))
  }

  /** The session cookie of a login verifies under the key, for the stored
      user's id and email, until seven days after the login, and not from
      then on. */
  lemma SignInSession(rec: Record<UserDoc>, ctx: Context, later: int)
    ensures var token := SignIn(rec, ctx).cookie.value.value;
      Auth.VerifySession(token, ctx.key, later)
      == if later < ctx.clock + Auth.SessionLifetime
         then Some(Auth.Claims(Some(rec.id), rec.data.fields.email, Some(ctx.clock + Auth.SessionLifetime)))
         else None
  {
    Auth.VerifyCreatedSession(Db.DbRecordToUser(rec), ctx.key, ctx.clock, later);
  }

  /** Linking: the signed-in user, identified by the session's email, gets
      the provider's fields. No cookie is set. */
  function LinkSpec(p: Auth.Provider, req: CallbackRequest, ctx: Context, t: Tokens,
                    rows: seq<UserDoc>, oidValid: string -> bool): Run
  {
    match Auth.SessionToken(req.cookies)
    case None => Run(rows, Plain(ErrorUrl("not_authenticated")), [])
    case Some(token) =>
      match Auth.VerifySession(token, ctx.key, ctx.clock)
      case None => Run(rows, Plain(ErrorUrl("invalid_session")), [])
      case Some(claims) => LinkUserSpec(p, claims.email, ctx, t, rows, oidValid)
  }

  /** Linking once the session has verified: the user with the session's
      email, if there is one, gets the provider's fields. */
  function LinkUserSpec(p: Auth.Provider, email: Option<string>, ctx: Context, t: Tokens,
                        rows: seq<UserDoc>, oidValid: string -> bool): Run
  {
    var find := FindOne([EmailIs(email)]);
    match Db.FindUser(rows, [EmailIs(email)], ctx.now)
    case None => Run(rows, Plain(LinkedUrl(p)), [find])
    case Some(existing) =>
      var q := LinkPatch(p, t);
      var (after, r) := Db.UpdateUserSpec(rows, existing.id, q, ctx.now, ctx.newOid, ctx.returnsDoc, oidValid);
      Run(after, Plain(if r.Ok? then LinkedUrl(p) else FailedUrl(p)),
          [find] + Db.UpdateOps(existing.id, q, ctx.returnsDoc, oidValid))
  }

  /** Login: find by the profile's email, then create or update, then sign
      in with the record the store returned. */
  function LoginSpec(p: Auth.Provider, ctx: Context, t: Tokens, profile: Profile,
                     rows: seq<UserDoc>, oidValid: string -> bool): Run
  {
    var email := IdentityEmail(profile);
    var find := FindOne([EmailIs(email)]);
    match Db.FindUser(rows, [EmailIs(email)], ctx.now)
    case None =>
      var run := EnrolSpec(p, ctx, t, profile, rows);
      run.(ops := [find] + run.ops)
    case Some(existing) =>
      var run := RefreshUserSpec(p, existing.id, ctx, t, profile, rows, oidValid);
      run.(ops := [find] + run.ops)
  }

  /** The login of an unknown email: create the user, then sign in with the
      record the store returned. */
  function EnrolSpec(p: Auth.Provider, ctx: Context, t: Tokens, profile: Profile, rows: seq<UserDoc>): Run
  {
    var d := Db.NewUserDoc(NewUserFor(p, t, profile), ctx.now, ctx.newOid);
    Run(rows + [d], SignIn(Db.UserRecord(d, ctx.now), ctx), [InsertOne])
  }

  /** The login of a known user: update by id, then sign in with the record
      the store returned. */
  function RefreshUserSpec(p: Auth.Provider, id: string, ctx: Context, t: Tokens, profile: Profile,
                           rows: seq<UserDoc>, oidValid: string -> bool): Run
  {
    var q := LoginPatch(p, t, profile);
    var (after, r) := Db.UpdateUserSpec(rows, id, q, ctx.now, ctx.newOid, ctx.returnsDoc, oidValid);
    Run(after, if r.Ok? then SignIn(r.value, ctx) else Plain(FailedUrl(p)),
        Db.UpdateOps(id, q, ctx.returnsDoc, oidValid))
  }

  /** `GET /api/auth/{google,microsoft}/callback` as a function of its
      inputs and the stored users. An exception from either endpoint
      (including a reply body that is not JSON) is caught by the handler. */
  function CallbackSpec(p: Auth.Provider, req: CallbackRequest, ctx: Context,
                        parse: seq<bv8> -> Option<OAuthStart.Json>,
                        exchange: Reply<Tokens>, userinfo: Reply<Profile>,
                        rows: seq<UserDoc>, oidValid: string -> bool): Run
  {
    if !Truthy(req.code) then Run(rows, Plain(ErrorUrl("no_code")), [])
    else
      var linking := OAuthStart.ParseState(req.state, parse);
      match exchange
      case Throws => Run(rows, Plain(FailedUrl(p)), [])
      case NotOk(_, _) => Run(rows, Plain(ErrorUrl("token_exchange_failed")), [])
      case Success(t) =>
        match userinfo
        case Throws => Run(rows, Plain(FailedUrl(p)), [])
        case NotOk(_, _) => Run(rows, Plain(ErrorUrl("user_info_failed")), [])
        case Success(profile) =>
          if linking then LinkSpec(p, req, ctx, t, rows, oidValid)
          else LoginSpec(p, ctx, t, profile, rows, oidValid)
  }

  /** The cookies the redirect response carries. */
  function ResponseCookies(o: Outcome): map<string, Auth.Cookie> {
    if o.Redirect? && o.cookie.Some? then map[Auth.SessionCookieName := o.cookie.value] else map[]
  }

  /** The linking branch over a live store. */
  method Link(p: Auth.Provider, req: CallbackRequest, ctx: Context, t: Tokens, db: Db.Database)
    returns (out: Outcome)
    requires db.Valid() && Db.FreshId(db.users, Oid(ctx.newOid))
    modifies db`users, db`log
    ensures db.Valid()
    ensures var run := LinkSpec(p, req, ctx, t, old(db.users), db.oidValid);
      db.users == run.users && out == run.outcome && db.log == old(db.log) + run.ops
  {
    var token := Auth.SessionToken(req.cookies);
    if token.None? {
      return Plain(ErrorUrl("not_authenticated"));
    }
    var claims := Auth.VerifySession(token.value, ctx.key, ctx.clock);
    if claims.None? {
      return Plain(ErrorUrl("invalid_session"));
    }
    out := LinkUser(p, claims.value.email, ctx, t, db);
  }

  /** The write of the linking branch over a live store. */
  method LinkUser(p: Auth.Provider, email: Option<string>, ctx: Context, t: Tokens, db: Db.Database)
    returns (out: Outcome)
    requires db.Valid() && Db.FreshId(db.users, Oid(ctx.newOid))
    modifies db`users, db`log
    ensures db.Valid()
    ensures var run := LinkUserSpec(p, email, ctx, t, old(db.users), db.oidValid);
      db.users == run.users && out == run.outcome && db.log == old(db.log) + run.ops
  {
    var existing := db.FindUserByEmail(email, ctx.now);
    out := Plain(LinkedUrl(p));
    if existing.Some? {
      var r := db.UpdateUser(existing.value.id, LinkPatch(p, t), ctx.now, ctx.newOid, ctx.returnsDoc);
      LogAppend(old(db.log), [FindOne([EmailIs(email)])], Db.UpdateOps(existing.value.id, LinkPatch(p, t), ctx.returnsDoc, db.oidValid));
      if r.Err? {
        out := Plain(FailedUrl(p));
      }
    }
  }

  /** The login branch over a live store. */
  method Login(p: Auth.Provider, ctx: Context, t: Tokens, profile: Profile, db: Db.Database)
    returns (out: Outcome)
    requires db.Valid() && Db.FreshId(db.users, Oid(ctx.newOid))
    modifies db`users, db`log
    ensures db.Valid()
    ensures var run := LoginSpec(p, ctx, t, profile, old(db.users), db.oidValid);
      db.users == run.users && out == run.outcome && db.log == old(db.log) + run.ops
  {
    ghost var rows := db.users;
    var email := IdentityEmail(profile);
    var userRecord := db.FindUserByEmail(email, ctx.now);
    ghost var find := FindOne([EmailIs(email)]);
    if userRecord.None? {
      out := Enrol(p, ctx, t, profile, db);
      ghost var run := EnrolSpec(p, ctx, t, profile, rows);
      LogAppend(old(db.log), [find], run.ops);
      assert LoginSpec(p, ctx, t, profile, rows, db.oidValid) == run.(ops := [find] + run.ops);
    } else {
      out := RefreshUser(p, userRecord.value.id, ctx, t, profile, db);
      ghost var run := RefreshUserSpec(p, userRecord.value.id, ctx, t, profile, rows, db.oidValid);
      LogAppend(old(db.log), [find], run.ops);
      assert LoginSpec(p, ctx, t, profile, rows, db.oidValid) == run.(ops := [find] + run.ops);
    }
  }

  /** The login of an unknown email over a live store. */
  method Enrol(p: Auth.Provider, ctx: Context, t: Tokens, profile: Profile, db: Db.Database)
    returns (out: Outcome)
    requires db.Valid() && Db.FreshId(db.users, Oid(ctx.newOid))
    modifies db`users, db`log
    ensures db.Valid()
    ensures var run := EnrolSpec(p, ctx, t, profile, old(db.users));
      db.users == run.users && out == run.outcome && db.log == old(db.log) + run.ops
  {
    var created := db.CreateUser(NewUserFor(p, t, profile), ctx.now, ctx.newOid);
    out := SignIn(created, ctx);
  }

  /** The login of a known user over a live store. */
  method RefreshUser(p: Auth.Provider, id: string, ctx: Context, t: Tokens, profile: Profile, db: Db.Database)
    returns (out: Outcome)
    requires db.Valid() && Db.FreshId(db.users, Oid(ctx.newOid))
    modifies db`users, db`log
    ensures db.Valid()
    ensures var run := RefreshUserSpec(p, id, ctx, t, profile, old(db.users), db.oidValid);
      db.users == run.users && out == run.outcome && db.log == old(db.log) + run.ops
  {
    var r := db.UpdateUser(id, LoginPatch(p, t, profile), ctx.now, ctx.newOid, ctx.returnsDoc);
    if r.Err? {
      out := Plain(FailedUrl(p));
    } else {
      out := SignIn(r.value, ctx);
    }
  }

  /** The handler, step by step, over a live store; the cookie, if any, is
      set on a new response. */
  method Callback(p: Auth.Provider, req: CallbackRequest, ctx: Context,
                  parse: seq<bv8> -> Option<OAuthStart.Json>,
                  exchange: Reply<Tokens>, userinfo: Reply<Profile>, db: Db.Database)
    returns (out: Outcome, response: Auth.CookieJar)
    requires db.Valid() && Db.FreshId(db.users, Oid(ctx.newOid))
    modifies db`users, db`log
    ensures db.Valid()
    ensures var run := CallbackSpec(p, req, ctx, parse, exchange, userinfo, old(db.users), db.oidValid);
      db.users == run.users && out == run.outcome && db.log == old(db.log) + run.ops
    ensures fresh(response) && response.cookies == ResponseCookies(out)
  {
    response := new Auth.CookieJar();
    if !Truthy(req.code) {
      out := Plain(ErrorUrl("no_code"));
      return;
    }
    var linking := OAuthStart.ParseState(req.state, parse);
    if exchange.Throws? {
      out := Plain(FailedUrl(p));
      return;
    } else if exchange.NotOk? {
      out := Plain(ErrorUrl("token_exchange_failed"));
      return;
    }
    if userinfo.Throws? {
      out := Plain(FailedUrl(p));
      return;
    } else if userinfo.NotOk? {
      out := Plain(ErrorUrl("user_info_failed"));
      return;
    }
    if linking {
      out := Link(p, req, ctx, exchange.data, db);
    } else {
      out := Login(p, ctx, exchange.data, userinfo.data, db);
      if out.Redirect? && out.cookie.Some? {
        response.SetSessionCookie(out.cookie.value.value, out.cookie.value.options);
      }
    }
  }

  // ---------------------------------------------------------------------------
  // Properties of the machine

  /** Without a code the handler redirects to `no_code` whatever the
      endpoints would answer: neither is consulted and the store is untouched. */
  lemma NoCodeFirst(p: Auth.Provider, req: CallbackRequest, ctx: Context,
                    parse: seq<bv8> -> Option<OAuthStart.Json>,
                    exchange1: Reply<Tokens>, userinfo1: Reply<Profile>,
                    exchange2: Reply<Tokens>, userinfo2: Reply<Profile>,
                    rows: seq<UserDoc>, oidValid: string -> bool)
    requires !Truthy(req.code)
    ensures CallbackSpec(p, req, ctx, parse, exchange1, userinfo1, rows, oidValid)
         == CallbackSpec(p, req, ctx, parse, exchange2, userinfo2, rows, oidValid)
         == Run(rows, Plain(ErrorUrl("no_code")), [])
  {
  }

  /** A failed exchange or profile request ends in its own error redirect
      (or, for an exception, the provider's `callback_failed`) before any
      store access. */
  lemma ProviderFailuresTouchNothing(p: Auth.Provider, req: CallbackRequest, ctx: Context,
                                     parse: seq<bv8> -> Option<OAuthStart.Json>,
                                     exchange: Reply<Tokens>, userinfo: Reply<Profile>,
                                     rows: seq<UserDoc>, oidValid: string -> bool)
    requires Truthy(req.code)
    ensures var run := CallbackSpec(p, req, ctx, parse, exchange, userinfo, rows, oidValid);
      (exchange.NotOk? ==> run == Run(rows, Plain(ErrorUrl("token_exchange_failed")), []))
      && (exchange.Throws? ==> run == Run(rows, Plain(FailedUrl(p)), []))
      && (exchange.Success? && userinfo.NotOk? ==> run == Run(rows, Plain(ErrorUrl("user_info_failed")), []))
      && (exchange.Success? && userinfo.Throws? ==> run == Run(rows, Plain(FailedUrl(p)), []))
  {
  }

  /** Linking never issues a session and never looks at who signed in at the
      provider; without a session cookie, or with one that does not verify,
      it exits before the store. */
  lemma LinkingSetsNoCookie(p: Auth.Provider, req: CallbackRequest, ctx: Context,
                            parse: seq<bv8> -> Option<OAuthStart.Json>, t: Tokens,
                            profile1: Profile, profile2: Profile,
                            rows: seq<UserDoc>, oidValid: string -> bool)
    requires Truthy(req.code) && OAuthStart.ParseState(req.state, parse)
    ensures var run := CallbackSpec(p, req, ctx, parse, Success(t), Success(profile1), rows, oidValid);
      run == CallbackSpec(p, req, ctx, parse, Success(t), Success(profile2), rows, oidValid)
      && run.outcome.Redirect? && run.outcome.cookie.None?
      && (Auth.SessionToken(req.cookies).None? ==> run == Run(rows, Plain(ErrorUrl("not_authenticated")), []))
      && (Auth.SessionToken(req.cookies).Some?
          && Auth.VerifySession(Auth.SessionToken(req.cookies).value, ctx.key, ctx.clock).None?
          ==> run == Run(rows, Plain(ErrorUrl("invalid_session")), []))
  {
  }

  /** The current callbacks never let an exception escape: every request
      ends in a redirect. */
  lemma CallbackAlwaysRedirects(p: Auth.Provider, req: CallbackRequest, ctx: Context,
                                parse: seq<bv8> -> Option<OAuthStart.Json>,
                                exchange: Reply<Tokens>, userinfo: Reply<Profile>,
                                rows: seq<UserDoc>, oidValid: string -> bool)
    ensures CallbackSpec(p, req, ctx, parse, exchange, userinfo, rows, oidValid).outcome.Redirect?
  {
  }

  /** Linking under a verified session whose email no user has writes
      nothing and still redirects as linked. */
  lemma LinkWithoutUserWritesNothing(p: Auth.Provider, email: Option<string>, ctx: Context, t: Tokens,
                                     rows: seq<UserDoc>, oidValid: string -> bool)
    requires forall j :: 0 <= j < |rows| ==> rows[j].fields.email != email
    ensures LinkUserSpec(p, email, ctx, t, rows, oidValid)
         == Run(rows, Plain(LinkedUrl(p)), [FindOne([EmailIs(email)])])
  {
    Db.FindByEmailSpec(rows, email, ctx.now);
  }

  /** Linking under a verified session writes the provider's connected flag
      and tokens to the first user with the session's email, and nothing
      else, when no other document answers to that user's id. */
  lemma LinkWritesSessionUser(p: Auth.Provider, email: Option<string>, ctx: Context, t: Tokens,
                              rows: seq<UserDoc>, oidValid: string -> bool, i: nat)
    requires i < |rows| && rows[i].fields.email == email
    requires forall j :: 0 <= j < i ==> rows[j].fields.email != email
    requires forall j :: 0 <= j < |rows| ==>
      (MatchesAny(rows[j], Db.IdFilter(IdText(Some(rows[i].id)), oidValid)) <==> j == i)
    ensures var run := LinkUserSpec(p, email, ctx, t, rows, oidValid);
      run.users == rows[i := UserDoc(rows[i].id, SetFields(rows[i].fields, LinkPatch(p, t), ctx.now))]
      && run.outcome == Plain(LinkedUrl(p))
  {
    FirstEmailMatch(rows, email, i);
    Db.UpdateExistingById(rows, i, LinkPatch(p, t), ctx.now, ctx.newOid, ctx.returnsDoc, oidValid);
  }

  /** Login with an email no user has creates the user from the profile and
      signs in as the new document: the cookie verifies, for the new id and
      the profile's email, until seven days after the login. */
  lemma LoginCreatesUnknown(p: Auth.Provider, ctx: Context, t: Tokens, profile: Profile,
                            rows: seq<UserDoc>, oidValid: string -> bool, later: int)
    requires forall j :: 0 <= j < |rows| ==> rows[j].fields.email != IdentityEmail(profile)
    ensures var run := LoginSpec(p, ctx, t, profile, rows, oidValid);
      run.users == rows + [Db.NewUserDoc(NewUserFor(p, t, profile), ctx.now, ctx.newOid)]
      && run.ops == [FindOne([EmailIs(IdentityEmail(profile))]), InsertOne]
      && run.outcome.Redirect? && run.outcome.cookie.Some?
      && Auth.VerifySession(run.outcome.cookie.value.value, ctx.key, later)
         == if later < ctx.clock + Auth.SessionLifetime
            then Some(Auth.Claims(Some(ctx.newOid), IdentityEmail(profile), Some(ctx.clock + Auth.SessionLifetime)))
            else None
  {
    Db.FindByEmailSpec(rows, IdentityEmail(profile), ctx.now);
    var d := Db.NewUserDoc(NewUserFor(p, t, profile), ctx.now, ctx.newOid);
    SignInSession(Db.UserRecord(d, ctx.now), ctx, later);
  }

  /** Login with a known email updates that user with the provider's fields
      (and, for Google, the picture), never its email, and signs in as the
      updated document, when no other document answers to its id. */
  lemma LoginUpdatesKnown(p: Auth.Provider, ctx: Context, t: Tokens, profile: Profile,
                          rows: seq<UserDoc>, oidValid: string -> bool, i: nat, later: int)
    requires i < |rows| && rows[i].fields.email == IdentityEmail(profile)
    requires forall j :: 0 <= j < i ==> rows[j].fields.email != IdentityEmail(profile)
    requires forall j :: 0 <= j < |rows| ==>
      (MatchesAny(rows[j], Db.IdFilter(IdText(Some(rows[i].id)), oidValid)) <==> j == i)
    ensures var run := LoginSpec(p, ctx, t, profile, rows, oidValid);
      var d := UserDoc(rows[i].id, SetFields(rows[i].fields, LoginPatch(p, t, profile), ctx.now));
      run.users == rows[i := d]
      && d.fields.email == rows[i].fields.email
      && run.outcome.Redirect? && run.outcome.cookie.Some?
      && Auth.VerifySession(run.outcome.cookie.value.value, ctx.key, later)
         == if later < ctx.clock + Auth.SessionLifetime
            then Some(Auth.Claims(Some(IdText(Some(rows[i].id))), IdentityEmail(profile), Some(ctx.clock + Auth.SessionLifetime)))
            else None
  {
    var email := IdentityEmail(profile);
    FirstEmailMatch(rows, email, i);
    var q := LoginPatch(p, t, profile);
    PatchFields(p, t, profile);
    Db.UpdateExistingById(rows, i, q, ctx.now, ctx.newOid, ctx.returnsDoc, oidValid);
    var d := UserDoc(rows[i].id, SetFields(rows[i].fields, q, ctx.now));
    SignInSession(Db.UserRecord(d, ctx.now), ctx, later);
  }

  /** The user found by email is the first with that email. */
  lemma FirstEmailMatch(rows: seq<UserDoc>, email: Option<string>, i: nat)
    requires i < |rows| && rows[i].fields.email == email
    requires forall j :: 0 <= j < i ==> rows[j].fields.email != email
    ensures FirstMatch(rows, [EmailIs(email)]) == Some(i)
  {
    var f := [EmailIs(email)];
    assert Matches(rows[i], f[0]);
    FirstMatchSpec(rows, f);
    var k := FirstMatch(rows, f).value;
    assert Matches(rows[k], f[0]) by {
      var c :| 0 <= c < |f| && Matches(rows[k], f[c]);
    }
  }
}
