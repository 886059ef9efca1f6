/** The token diagnostic (app/api/auth/tokeninfo/route.ts): the gate on the
    Google connection, refresh-before-use, one call to Google's tokeninfo
    endpoint, and an analysis of the granted scopes. */
module TokenInfo {
  import opened Wrappers
  import opened Documents
  import Db
  import Auth
  import Text
  import OAuthStart
  import opened Gate

  const PhotosReadonlyScope := OAuthStart.GoogleApiAuth + "photoslibrary" + ".readonly"
  const PhotosScope := OAuthStart.GoogleApiAuth + "photoslibrary"
  const GmailReadonlyScope := OAuthStart.GoogleApiAuth + "gmail" + ".readonly"
  const DriveReadonlyScope := OAuthStart.GoogleApiAuth + "drive" + ".readonly"

  const HasPhotos := "\U{2705} Token has Google Photos scope"
  const MissingPhotos := "\U{274C} Token is MISSING Google Photos scope - need to re-authenticate"

  /** The tokeninfo reply; it is echoed back whole. */
  datatype TokenInfoReply = TokenInfoReply(scope: Option<string>, fields: map<string, string>)

  datatype Analysis = Analysis(totalScopes: nat, scopes: seq<string>, photosReadonly: bool, photos: bool,
                               gmailReadonly: bool, driveReadonly: bool, verdict: string)

  datatype Report = Report(tokenInfo: TokenInfoReply, analysis: Analysis)

  /** `scope ? scope.split(" ") : []` */
  function Scopes(scope: Option<string>): (s: seq<string>)
    ensures !Truthy(scope) ==> s == []
    ensures Truthy(scope) ==> Text.Join(s, ' ') == scope.value
    ensures forall k :: 0 <= k < |s| ==> ' ' !in s[k]
  {
    if Truthy(scope) then
      Text.JoinSplit(scope.value, ' ');
      Text.Split(scope.value, ' ')
    else []
  }

  function Analyze(scope: Option<string>): Analysis {
    var scopes := Scopes(scope);
    var photosReadonly := PhotosReadonlyScope in scopes;
    var photos := PhotosScope in scopes;
    Analysis(|scopes|, scopes, photosReadonly, photos, GmailReadonlyScope in scopes, DriveReadonlyScope in scopes,
             if photosReadonly || photos then HasPhotos else MissingPhotos)
  }

  /** Each flag is exact membership of a whole scope in the list (a scope
      that merely contains another's text does not count), and the verdict
      is positive exactly when either Photos scope is granted. */
  lemma AnalysisFlags(scope: Option<string>)
    ensures var a := Analyze(scope);
      a.totalScopes == |a.scopes|
      && (a.photosReadonly <==> exists k :: 0 <= k < |a.scopes| && a.scopes[k] == PhotosReadonlyScope)
      && (a.photos <==> exists k :: 0 <= k < |a.scopes| && a.scopes[k] == PhotosScope)
      && (a.verdict == HasPhotos <==> a.photosReadonly || a.photos)
      && (!Truthy(scope) ==> a.totalScopes == 0 && a.verdict == MissingPhotos)
  {
    assert |HasPhotos| != |MissingPhotos|;
  }

  /** A token granted exactly what the sign-in route asks for passes every
      check: seven scopes, all four flags set, and the positive verdict. */
  lemma RequestedScopesPass()
    ensures var a := Analyze(Some(OAuthStart.GoogleScope));
      a.totalScopes == 7 && a.photosReadonly && a.photos && a.gmailReadonly && a.driveReadonly
      && a.verdict == HasPhotos
  {
    RequestedScopeList();
    var s := OAuthStart.GoogleScopes;
    assert s[3] == GmailReadonlyScope && s[4] == DriveReadonlyScope;
    assert s[5] == PhotosReadonlyScope && s[6] == PhotosScope;
  }

  lemma RequestedScopeList()
    ensures Scopes(Some(OAuthStart.GoogleScope)) == OAuthStart.GoogleScopes
  {
    OAuthStart.ScopeParamLists();
  }

  /** `info` is the tokeninfo call (access token); `thrown` is the message
      of an exception raised while calling it or reading its reply. */
  function ServeTokenInfo(info: string -> Reply<TokenInfoReply>, thrown: string, token: string): (r: Response<Report>)
    ensures info(token).NotOk? ==> r == Refused(info(token).status, "Failed to get token info", Some(info(token).body))
    ensures info(token).Throws? ==> r == Refused(500, "Error checking token", Some(thrown))
    ensures info(token).Success? ==>
      r.Answer? && r.body.tokenInfo == info(token).data && r.body.analysis == Analyze(info(token).data.scope)
  {
    match info(token)
    case Throws => Refused(500, "Error checking token", Some(thrown))
    case NotOk(status, body) => Refused(status, "Failed to get token info", Some(body))
    case Success(reply) => Answer(Report(reply, Analyze(reply.scope)))
  }

  function Serve(info: string -> Reply<TokenInfoReply>, thrown: string): (User, string) -> Response<Report> {
    (u: User, token: string) => ServeTokenInfo(info, thrown, token)
  }

  /** GET /api/auth/tokeninfo over a live store. */
  method CheckToken(jar: Auth.CookieJar, ctx: Context, client: Auth.ClientEnv,
                    post: Auth.RefreshForm -> Reply<Auth.TokenReply>, info: string -> Reply<TokenInfoReply>,
                    thrown: string, db: Db.Database)
    returns (response: Response<Report>)
    requires db.Valid() && Db.FreshId(db.users, Oid(ctx.newOid))
    modifies db`users, db`log
    ensures db.Valid()
    ensures var s := HandleSpec(jar.cookies, ctx, Some(Auth.Google), client, post, None, Serve(info, thrown),
                                old(db.users), db.oidValid);
      response == s.response && db.users == s.users && db.log == old(db.log) + s.ops
  {
    response := Handle(jar, ctx, Some(Auth.Google), client, post, None, Serve(info, thrown), db);
  }
}
