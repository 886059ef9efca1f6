/** The older authorization-code callbacks over the older store:
    NeuronNook/app/api/auth/google/callback/route.ts and
    NeuronNook/app/api/auth/microsoft/callback/route.ts. The machine is the
    one of the current callbacks with two differences: a known user is
    updated and then read back by email, and the session is issued from that
    second read; and there is no handler of its own, so an exception from an
    endpoint or from the store escapes (`Raised`) instead of redirecting.
    The session cookie carries the older options (secure only in
    production, no domain). */
module LegacyCallbacks {
  import opened Wrappers
  import opened Documents
  import opened Query
  import Db
  import Airtable
  import Auth
  import OAuthStart
  import opened Callbacks
  import opened Gate

  /** The linking update of this store: the provider's three fields. */
  function LegacyLinkPatch(p: Auth.Provider, t: Tokens): Airtable.LegacyPatch
  {
    match p
    case Google =>
      Airtable.LegacyPatch(Keep, Keep, Put(Some(true)), Keep, Put(t.accessToken), Put(t.refreshToken), Keep, Keep)
    case Microsoft =>
      Airtable.LegacyPatch(Keep, Keep, Keep, Put(Some(true)), Keep, Keep, Put(t.accessToken), Put(t.refreshToken))
  }

  /** The login update of a known user: the linking fields, plus the Google
      picture. */
  function LegacyLoginPatch(p: Auth.Provider, t: Tokens, profile: Profile): Airtable.LegacyPatch
  {
    if p == Auth.Google && profile.GoogleUser? then LegacyLinkPatch(p, t).(image := Put(profile.picture))
    else LegacyLinkPatch(p, t)
  }

  /** Both updates write the same fields as the current callbacks'. */
  lemma LegacyPatchesAgree(p: Auth.Provider, t: Tokens, profile: Profile)
    ensures Airtable.AsPatch(LegacyLinkPatch(p, t)) == LinkPatch(p, t)
    ensures Airtable.AsPatch(LegacyLoginPatch(p, t, profile)) == LoginPatch(p, t, profile)
  {
  }

  /** A session for the record, set with the older cookie options on a
      redirect to the dashboard. */
  function LegacySignIn(rec: Record<UserFields>, ctx: Context, production: bool): (o: Outcome)
    ensures o.Redirect? && o.location == "/dashboard" && o.cookie.Some?
    ensures o.cookie.value.options == Auth.LegacySessionCookieOptions(production)
  {
    Redirect("/dashboard", Some(Auth.Cookie(Auth.CreateSession(Airtable.AirtableRecordToUser(rec), ctx.key, ctx.clock),
                                            Auth.LegacySessionCookieOptions(production))))
  }

  /** The session cookie of a login verifies under the key, for the record's
      id and email, until seven days after the login. */
  lemma LegacySignInSession(rec: Record<UserFields>, ctx: Context, production: bool, later: int)
    ensures var token := LegacySignIn(rec, ctx, production).cookie.value.value;
      Auth.VerifySession(token, ctx.key, later)
      == if later < ctx.clock + Auth.SessionLifetime
         then Some(Auth.Claims(Some(rec.id), rec.data.email, Some(ctx.clock + Auth.SessionLifetime)))
         else None
  {
    Auth.VerifyCreatedSession(Airtable.AirtableRecordToUser(rec), ctx.key, ctx.clock, later);
  }

  /** The update's driver call in this store. */
  function LegacyUpdateOp(id: string, oidValid: string -> bool): Op {
    FindOneAndUpdate(Airtable.IdFilter(id, oidValid), false)
  }

  /** Linking once the session has verified: the user with the session's
      email, if any, gets the provider's fields; a failed update escapes. */
  function LegacyLinkUserSpec(p: Auth.Provider, email: Option<string>, ctx: Context, t: Tokens,
                              rows: seq<UserDoc>, oidValid: string -> bool): Run
  {
    var find := FindOne([EmailIs(email)]);
    match Airtable.FindUser(rows, [EmailIs(email)], ctx.now)
    case None => Run(rows, Plain(LinkedUrl(p)), [find])
    case Some(existing) =>
      var (after, r) := Airtable.UpdateUserSpec(rows, existing.id, LegacyLinkPatch(p, t), ctx.now, ctx.returnsDoc, oidValid);
      Run(after, if r.Ok? then Plain(LinkedUrl(p)) else Raised, [find, LegacyUpdateOp(existing.id, oidValid)])
  }

  function LegacyLinkSpec(p: Auth.Provider, req: CallbackRequest, ctx: Context, t: Tokens,
                          rows: seq<UserDoc>, oidValid: string -> bool): Run
  {
    match Auth.SessionToken(req.cookies)
    case None => Run(rows, Plain(ErrorUrl("not_authenticated")), [])
    case Some(token) =>
      match Auth.VerifySession(token, ctx.key, ctx.clock)
      case None => Run(rows, Plain(ErrorUrl("invalid_session")), [])
      case Some(claims) => LegacyLinkUserSpec(p, claims.email, ctx, t, rows, oidValid)
  }

  /** The login of a known user: update by id (a failure escapes), then read
      the user back by email; reading nothing back escapes too (the record
      is dereferenced unchecked). */
  function LegacyRefreshSpec(p: Auth.Provider, email: Option<string>, id: string, ctx: Context, t: Tokens,
                             profile: Profile, production: bool, rows: seq<UserDoc>, oidValid: string -> bool): Run
  {
    var (after, r) := Airtable.UpdateUserSpec(rows, id, LegacyLoginPatch(p, t, profile), ctx.now, ctx.returnsDoc, oidValid);
    if r.Err? then Run(after, Raised, [LegacyUpdateOp(id, oidValid)])
    else
      var ops := [LegacyUpdateOp(id, oidValid), FindOne([EmailIs(email)])];
      match Airtable.FindUser(after, [EmailIs(email)], ctx.now)
      case None => Run(after, Raised, ops)
      case Some(rec) => Run(after, LegacySignIn(rec, ctx, production), ops)
  }

  /** The login of an unknown email: create the user and sign in with the
      created record. */
  function LegacyEnrolSpec(p: Auth.Provider, ctx: Context, t: Tokens, profile: Profile, production: bool,
                           rows: seq<UserDoc>): Run
  {
    var d := Db.NewUserDoc(NewUserFor(p, t, profile), ctx.now, ctx.newOid);
    Run(rows + [d], LegacySignIn(Airtable.UserRecord(d, ctx.now), ctx, production), [InsertOne])
  }

  /** Login: find by the profile's email, then create and sign in with the
      created record, or update, read back and sign in with what was read. */
  function LegacyLoginSpec(p: Auth.Provider, ctx: Context, t: Tokens, profile: Profile, production: bool,
                           rows: seq<UserDoc>, oidValid: string -> bool): Run
  {
    var email := IdentityEmail(profile);
    var find := FindOne([EmailIs(email)]);
    match Airtable.FindUser(rows, [EmailIs(email)], ctx.now)
    case None =>
      var run := LegacyEnrolSpec(p, ctx, t, profile, production, rows);
      run.(ops := [find] + run.ops)
    case Some(existing) =>
      var run := LegacyRefreshSpec(p, email, existing.id, ctx, t, profile, production, rows, oidValid);
      run.(ops := [find] + run.ops)
  }

  /** `GET` of the older callbacks as a function of its inputs and the
      stored users. An exception from either endpoint escapes. */
  function LegacyCallbackSpec(p: Auth.Provider, req: CallbackRequest, ctx: Context, production: bool,
                              parse: seq<bv8> -> Option<OAuthStart.Json>,
                              exchange: Reply<Tokens>, userinfo: Reply<Profile>,
                              rows: seq<UserDoc>, oidValid: string -> bool): Run
  {
    if !Truthy(req.code) then Run(rows, Plain(ErrorUrl("no_code")), [])
    else
      var linking := OAuthStart.ParseState(req.state, parse);
      match exchange
      case Throws => Run(rows, Raised, [])
      case NotOk(_, _) => Run(rows, Plain(ErrorUrl("token_exchange_failed")), [])
      case Success(t) =>
        match userinfo
        case Throws => Run(rows, Raised, [])
        case NotOk(_, _) => Run(rows, Plain(ErrorUrl("user_info_failed")), [])
        case Success(profile) =>
          if linking then LegacyLinkSpec(p, req, ctx, t, rows, oidValid)
          else LegacyLoginSpec(p, ctx, t, profile, production, rows, oidValid)
  }

  /** The linking write over a live store. */
  method LegacyLinkUser(p: Auth.Provider, email: Option<string>, ctx: Context, t: Tokens,
                        db: Airtable.LegacyDatabase)
    returns (out: Outcome)
    modifies db`users, db`log
    ensures var run := LegacyLinkUserSpec(p, email, ctx, t, old(db.users), db.oidValid);
      db.users == run.users && out == run.outcome && db.log == old(db.log) + run.ops
  {
    var existing := db.FindUserByEmail(email, ctx.now);
    out := Plain(LinkedUrl(p));
    if existing.Some? {
      var r := db.UpdateUser(existing.value.id, LegacyLinkPatch(p, t), ctx.now, ctx.returnsDoc);
      if r.Err? {
        out := Raised;
      }
    }
  }

  /** The login of an unknown email over a live store. */
  method LegacyEnrol(p: Auth.Provider, ctx: Context, t: Tokens, profile: Profile, production: bool,
                     db: Airtable.LegacyDatabase)
    returns (out: Outcome)
    requires Db.FreshId(db.users, Oid(ctx.newOid))
    modifies db`users, db`log
    ensures var run := LegacyEnrolSpec(p, ctx, t, profile, production, old(db.users));
      db.users == run.users && out == run.outcome && db.log == old(db.log) + run.ops
  {
    var created := db.CreateUser(NewUserFor(p, t, profile), ctx.now, ctx.newOid);
    out := LegacySignIn(created, ctx, production);
  }

  /** The login of a known user over a live store. */
  method LegacyRefresh(p: Auth.Provider, email: Option<string>, id: string, ctx: Context, t: Tokens,
                       profile: Profile, production: bool, db: Airtable.LegacyDatabase)
    returns (out: Outcome)
    modifies db`users, db`log
    ensures var run := LegacyRefreshSpec(p, email, id, ctx, t, profile, production, old(db.users), db.oidValid);
      db.users == run.users && out == run.outcome && db.log == old(db.log) + run.ops
  {
    var r := db.UpdateUser(id, LegacyLoginPatch(p, t, profile), ctx.now, ctx.returnsDoc);
    if r.Err? {
      return Raised;
    }
    var userRecord := db.FindUserByEmail(email, ctx.now);
    if userRecord.None? {
      return Raised;
    }
    out := LegacySignIn(userRecord.value, ctx, production);
  }

  /** The login branch over a live store. */
  method LegacyLogin(p: Auth.Provider, ctx: Context, t: Tokens, profile: Profile, production: bool,
                     db: Airtable.LegacyDatabase)
    returns (out: Outcome)
    requires Db.FreshId(db.users, Oid(ctx.newOid))
    modifies db`users, db`log
    ensures var run := LegacyLoginSpec(p, ctx, t, profile, production, old(db.users), db.oidValid);
      db.users == run.users && out == run.outcome && db.log == old(db.log) + run.ops
  {
    ghost var rows := db.users;
    var email := IdentityEmail(profile);
    var userRecord := db.FindUserByEmail(email, ctx.now);
    ghost var find := FindOne([EmailIs(email)]);
    if userRecord.None? {
      out := LegacyEnrol(p, ctx, t, profile, production, db);
      ghost var run := LegacyEnrolSpec(p, ctx, t, profile, production, rows);
      LogAppend(old(db.log), [find], run.ops);
      assert LegacyLoginSpec(p, ctx, t, profile, production, rows, db.oidValid) == run.(ops := [find] + run.ops);
    } else {
      out := LegacyRefresh(p, email, userRecord.value.id, ctx, t, profile, production, db);
      ghost var run := LegacyRefreshSpec(p, email, userRecord.value.id, ctx, t, profile, production, rows, db.oidValid);
      LogAppend(old(db.log), [find], run.ops);
      assert LegacyLoginSpec(p, ctx, t, profile, production, rows, db.oidValid) == run.(ops := [find] + run.ops);
    }
  }

  /** The handler, step by step, over a live store; the cookie, if any, is
      set on a new response. */
  method LegacyCallback(p: Auth.Provider, req: CallbackRequest, ctx: Context, production: bool,
                        parse: seq<bv8> -> Option<OAuthStart.Json>,
                        exchange: Reply<Tokens>, userinfo: Reply<Profile>, db: Airtable.LegacyDatabase)
    returns (out: Outcome, response: Auth.CookieJar)
    requires Db.FreshId(db.users, Oid(ctx.newOid))
    modifies db`users, db`log
    ensures var run := LegacyCallbackSpec(p, req, ctx, production, parse, exchange, userinfo, old(db.users), db.oidValid);
      db.users == run.users && out == run.outcome && db.log == old(db.log) + run.ops
    ensures fresh(response) && response.cookies == ResponseCookies(out)
  {
    response := new Auth.CookieJar();
    if !Truthy(req.code) {
      out := Plain(ErrorUrl("no_code"));
      return;
    }
    var linking := OAuthStart.ParseState(req.state, parse);
    if exchange.Throws? {
      out := Raised;
      return;
    } else if exchange.NotOk? {
      out := Plain(ErrorUrl("token_exchange_failed"));
      return;
    }
    if userinfo.Throws? {
      out := Raised;
      return;
    } else if userinfo.NotOk? {
      out := Plain(ErrorUrl("user_info_failed"));
      return;
    }
    if linking {
      var token := Auth.SessionToken(req.cookies);
      if token.None? {
        out := Plain(ErrorUrl("not_authenticated"));
        return;
      }
      var claims := Auth.VerifySession(token.value, ctx.key, ctx.clock);
      if claims.None? {
        out := Plain(ErrorUrl("invalid_session"));
        return;
      }
      out := LegacyLinkUser(p, claims.value.email, ctx, exchange.data, db);
    } else {
      out := LegacyLogin(p, ctx, exchange.data, userinfo.data, production, db);
      if out.Redirect? && out.cookie.Some? {
        response.SetSessionCookie(out.cookie.value.value, out.cookie.value.options);
      }
    }
  }

  // ---------------------------------------------------------------------------
  // Properties of the machine

  /** The early exits are those of the current callbacks: no code, then the
      two failure statuses, none of them touching the store; an exception
      from either endpoint escapes the handler. */
  lemma LegacyEarlyExits(p: Auth.Provider, req: CallbackRequest, ctx: Context, production: bool,
                         parse: seq<bv8> -> Option<OAuthStart.Json>,
                         exchange: Reply<Tokens>, userinfo: Reply<Profile>,
                         rows: seq<UserDoc>, oidValid: string -> bool)
    ensures var run := LegacyCallbackSpec(p, req, ctx, production, parse, exchange, userinfo, rows, oidValid);
      (!Truthy(req.code) ==> run == Run(rows, Plain(ErrorUrl("no_code")), []))
      && (Truthy(req.code) && exchange.NotOk? ==> run == Run(rows, Plain(ErrorUrl("token_exchange_failed")), []))
      && (Truthy(req.code) && exchange.Throws? ==> run == Run(rows, Raised, []))
      && (Truthy(req.code) && exchange.Success? && userinfo.NotOk?
          ==> run == Run(rows, Plain(ErrorUrl("user_info_failed")), []))
      && (Truthy(req.code) && exchange.Success? && userinfo.Throws? ==> run == Run(rows, Raised, []))
  {
  }

  /** Linking never issues a session and never looks at who signed in at the
      provider; it exits before the store without a verified session. */
  lemma LegacyLinkingSetsNoCookie(p: Auth.Provider, req: CallbackRequest, ctx: Context, production: bool,
                                  parse: seq<bv8> -> Option<OAuthStart.Json>, t: Tokens,
                                  profile1: Profile, profile2: Profile,
                                  rows: seq<UserDoc>, oidValid: string -> bool)
    requires Truthy(req.code) && OAuthStart.ParseState(req.state, parse)
    ensures var run := LegacyCallbackSpec(p, req, ctx, production, parse, Success(t), Success(profile1), rows, oidValid);
      run == LegacyCallbackSpec(p, req, ctx, production, parse, Success(t), Success(profile2), rows, oidValid)
      && (run.outcome.Redirect? ==> run.outcome.cookie.None?)
      && (Auth.SessionToken(req.cookies).None? ==> run == Run(rows, Plain(ErrorUrl("not_authenticated")), []))
      && (Auth.SessionToken(req.cookies).Some?
          && Auth.VerifySession(Auth.SessionToken(req.cookies).value, ctx.key, ctx.clock).None?
          ==> run == Run(rows, Plain(ErrorUrl("invalid_session")), []))
  {
  }

  /** The read-back after a successful update always finds the user the
      login found, with its updated fields: the update cannot change an
      email, so the first user with the email is still the first. Login
      therefore escapes exactly when the update by id fails. */
  lemma LegacyLoginRaisesOnlyOnFailedUpdate(p: Auth.Provider, ctx: Context, t: Tokens, profile: Profile,
                                            production: bool, rows: seq<UserDoc>, oidValid: string -> bool)
    ensures var email := IdentityEmail(profile);
      var found := Airtable.FindUser(rows, [EmailIs(email)], ctx.now);
      var run := LegacyLoginSpec(p, ctx, t, profile, production, rows, oidValid);
      run.outcome.Raised?
      <==> found.Some?
           && Airtable.UpdateUserSpec(rows, found.value.id, LegacyLoginPatch(p, t, profile), ctx.now, ctx.returnsDoc, oidValid).1.Err?
  {
    var email := IdentityEmail(profile);
    var found := Airtable.FindUser(rows, [EmailIs(email)], ctx.now);
    if found.Some? {
      var after := Airtable.UpdateUserSpec(rows, found.value.id, LegacyLoginPatch(p, t, profile), ctx.now, ctx.returnsDoc, oidValid).0;
      Airtable.UpdateKeepsEmails(rows, found.value.id, LegacyLoginPatch(p, t, profile), ctx.now, ctx.returnsDoc, oidValid);
      FirstMatchSameEmails(after, rows, email);
    }
  }

  /** With a driver that hands back bare documents the older callbacks
      cannot finish for any stored user: login and linking both write the
      provider's fields and then escape, and only the enrolment of a new
      email gets through. */
  lemma LegacyBareReplyRaises(p: Auth.Provider, ctx: Context, t: Tokens, profile: Profile, production: bool,
                              email: Option<string>, rows: seq<UserDoc>, oidValid: string -> bool)
    requires !ctx.returnsDoc
    ensures var found := Airtable.FindUser(rows, [EmailIs(IdentityEmail(profile))], ctx.now);
      var run := LegacyLoginSpec(p, ctx, t, profile, production, rows, oidValid);
      (run.outcome.Raised? <==> found.Some?)
      && (found.Some? ==>
            run.users == Airtable.UpdateUserSpec(rows, found.value.id, LegacyLoginPatch(p, t, profile),
                                                 ctx.now, false, oidValid).0)
    ensures var found := Airtable.FindUser(rows, [EmailIs(email)], ctx.now);
      var run := LegacyLinkUserSpec(p, email, ctx, t, rows, oidValid);
      (run.outcome.Raised? <==> found.Some?)
      && (found.Some? ==>
            run.users == Airtable.UpdateUserSpec(rows, found.value.id, LegacyLinkPatch(p, t),
                                                 ctx.now, false, oidValid).0)
  {
  }

  /** A user whose document is stored under the raw text of a valid
      ObjectId (and under no ObjectId of that text) cannot log in through
      the older callbacks: the update by id misses it and the exception
      escapes, after the lookup by email has found it. */
  lemma LegacyLoginRaisesOnRawObjectIdText(p: Auth.Provider, ctx: Context, t: Tokens, profile: Profile,
                                           production: bool, rows: seq<UserDoc>, oidValid: string -> bool,
                                           i: nat)
    requires i < |rows| && rows[i].fields.email == IdentityEmail(profile)
    requires forall j :: 0 <= j < i ==> rows[j].fields.email != IdentityEmail(profile)
    requires rows[i].id.Raw? && oidValid(rows[i].id.text) && Db.FreshId(rows, Oid(rows[i].id.text))
    ensures var run := LegacyLoginSpec(p, ctx, t, profile, production, rows, oidValid);
      run.outcome == Raised && run.users == rows
  {
    var email := IdentityEmail(profile);
    FirstEmailMatch(rows, email, i);
    var id := rows[i].id.text;
    Airtable.RawIdOfValidTextNotFound(rows, id, oidValid, ctx.now);
    FirstMatchSpec(rows, Airtable.IdFilter(id, oidValid));
  }
}
