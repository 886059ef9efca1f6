/** The signed-in user (app/api/auth/me/route.ts): the gate without a
    provider check, then the stored user with every token removed. Nothing
    is written. */
module Me {
  import opened Wrappers
  import opened Documents
  import opened Query
  import Db
  import Auth
  import opened Gate

  /** The user as the client sees it: the four token fields dropped. */
  function SafeUser(u: User): (s: User)
    ensures s.googleAccessToken.None? && s.googleRefreshToken.None?
    ensures s.microsoftAccessToken.None? && s.microsoftRefreshToken.None?
    ensures s.id == u.id && s.email == u.email && s.name == u.name && s.image == u.image
    ensures s.googleConnected == u.googleConnected && s.microsoftConnected == u.microsoftConnected
    ensures s.createdAt == u.createdAt && s.updatedAt == u.updatedAt
  {
    u.(googleAccessToken := None, googleRefreshToken := None,
       microsoftAccessToken := None, microsoftRefreshToken := None)
  }

  /** GET /api/auth/me over the stored users. */
  function MeSpec(cookies: map<string, Auth.Cookie>, ctx: Context, rows: seq<UserDoc>): Response<User> {
    match GateSpec(cookies, ctx, rows, None)
    case Err(f) => Refuse(f)
    case Ok(u) => Answer(SafeUser(u))
  }

  /** The refusals are the gate's, in its order, and never 403; an answer is
      the first user stored with the session's email, as the store converts
      it, with no token in it. */
  lemma MeOutcomes(cookies: map<string, Auth.Cookie>, ctx: Context, rows: seq<UserDoc>)
    ensures var r := MeSpec(cookies, ctx, rows);
      var token := Auth.SessionToken(cookies);
      (token.None? ==> r == Refuse(NotAuthenticated))
      && (token.Some? && Auth.VerifySession(token.value, ctx.key, ctx.clock).None? ==> r == Refuse(InvalidSession))
      && (r.Refused? ==> r.status in {401, 404} && r.details.None?)
      && (SessionEmail(cookies, ctx).Ok? ==>
            var email := SessionEmail(cookies, ctx).value;
            ((forall j :: 0 <= j < |rows| ==> rows[j].fields.email != email) <==> r == Refuse(UserNotFound))
            && (r.Answer? ==>
                  var i := FirstMatch(rows, [EmailIs(email)]).value;
                  FirstMatch(rows, [EmailIs(email)]).Some?
                  && r.body == SafeUser(Db.DbRecordToUser(Db.UserRecord(rows[i], ctx.now)))
                  && r.body.email == email))
  {
    GateOrder(cookies, ctx, rows, None);
  }

  /** The user is found by the session's email alone: two sessions carrying
      the same email, whatever their user ids, get the same answer. */
  lemma MeIgnoresUserId(cookies1: map<string, Auth.Cookie>, cookies2: map<string, Auth.Cookie>,
                        ctx: Context, rows: seq<UserDoc>)
    requires SessionEmail(cookies1, ctx) == SessionEmail(cookies2, ctx)
    ensures MeSpec(cookies1, ctx, rows) == MeSpec(cookies2, ctx, rows)
  {
  }

  /** The whole answer: every field but the tokens is the stored one. */
  lemma MeStripsOnlyTokens(cookies: map<string, Auth.Cookie>, ctx: Context, rows: seq<UserDoc>)
    requires MeSpec(cookies, ctx, rows).Answer?
    ensures var u := GateSpec(cookies, ctx, rows, None).value;
      var s := MeSpec(cookies, ctx, rows).body;
      s.(googleAccessToken := u.googleAccessToken, googleRefreshToken := u.googleRefreshToken,
         microsoftAccessToken := u.microsoftAccessToken, microsoftRefreshToken := u.microsoftRefreshToken) == u
  {
  }
}
