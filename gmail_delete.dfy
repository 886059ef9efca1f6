/** Deleting one message (app/api/gmail/delete/route.ts): the gate on the
    Google connection, then the request body's checks, and only then
    refresh-before-use and the delete call, whose failure status is passed
    through. */
module GmailDelete {
  import opened Wrappers
  import opened Documents
  import Db
  import Auth
  import Text
  import opened Gate

  const Failed := "Failed to delete email"
  const InvalidBody := Failure(400, "Invalid request body")
  const MissingId := Failure(400, "Email ID is required")

  /** The JSON request body; `None` when it does not parse. */
  datatype DeleteBody = DeleteBody(emailId: Option<string>)

  datatype Deleted = Deleted(success: bool)

  /** The id to delete: the body's `emailId`, trimmed. */
  function EmailId(body: Option<DeleteBody>): string {
    if body.None? then "" else Text.Trim(OrElse(body.value.emailId, ""))
  }

  /** The body's checks: it must parse, and its trimmed `emailId` must not
      be empty. */
  function Precheck(body: Option<DeleteBody>): (f: Option<Failure>)
    ensures f.Some? ==> f.value.status == 400
    ensures f.None? <==> body.Some? && EmailId(body) != ""
  {
    if body.None? then Some(InvalidBody)
    else if EmailId(body) == "" then Some(MissingId)
    else None
  }

  /** An id made only of whitespace is refused like a missing one. */
  lemma BlankIdRefused(body: Option<DeleteBody>)
    requires body.Some? && body.value.emailId.Some?
    requires forall i :: 0 <= i < |body.value.emailId.value| ==> Text.IsSpace(body.value.emailId.value[i])
    ensures Precheck(body) == Some(MissingId)
  {
    Text.TrimEmptyIffBlank(OrElse(body.value.emailId, ""));
  }

  /** `del` is the delete call (message id, query, bearer token). */
  function ServeDelete(emailId: string, apiKey: Option<string>,
                       del: (string, seq<Param>, string) -> Reply<()>, token: string): (r: Response<Deleted>)
    ensures r.Refused? ==> r.error == Failed && r.details.None?
    ensures del(emailId, KeyParam(apiKey), token).NotOk? ==> r.Refused? && r.status == del(emailId, KeyParam(apiKey), token).status
    ensures del(emailId, KeyParam(apiKey), token).Throws? ==> r.Refused? && r.status == 500
    ensures del(emailId, KeyParam(apiKey), token).Success? ==> r == Answer(Deleted(true))
  {
    match del(emailId, KeyParam(apiKey), token)
    case Throws => Refused(500, Failed, None)
    case NotOk(status, _) => Refused(status, Failed, None)
    case Success(_) => Answer(Deleted(true))
  }

  function Serve(body: Option<DeleteBody>, apiKey: Option<string>,
                 del: (string, seq<Param>, string) -> Reply<()>): (User, string) -> Response<Deleted>
  {
    (u: User, token: string) => ServeDelete(EmailId(body), apiKey, del, token)
  }

  function DeleteSpec(cookies: map<string, Auth.Cookie>, ctx: Context, client: Auth.ClientEnv,
                      post: Auth.RefreshForm -> Reply<Auth.TokenReply>, body: Option<DeleteBody>,
                      apiKey: Option<string>, del: (string, seq<Param>, string) -> Reply<()>,
                      rows: seq<UserDoc>, oidValid: string -> bool): Served<Deleted>
  {
    HandleSpec(cookies, ctx, Some(Auth.Google), client, post, Precheck(body), Serve(body, apiKey, del), rows, oidValid)
  }

  /** A signed-in, connected user whose body is unparsable or has no id gets
      the 400 before any refresh: the store sees only the gate's lookup. */
  lemma BadBodyBeforeRefresh(cookies: map<string, Auth.Cookie>, ctx: Context, client: Auth.ClientEnv,
                             post: Auth.RefreshForm -> Reply<Auth.TokenReply>, body: Option<DeleteBody>,
                             apiKey: Option<string>, del: (string, seq<Param>, string) -> Reply<()>,
                             rows: seq<UserDoc>, oidValid: string -> bool)
    requires GateSpec(cookies, ctx, rows, Some(Auth.Google)).Ok?
    requires body.None? || EmailId(body) == ""
    ensures var s := DeleteSpec(cookies, ctx, client, post, body, apiKey, del, rows, oidValid);
      s.users == rows && s.ops == GateOps(cookies, ctx)
      && s.response == Refused(400, if body.None? then "Invalid request body" else "Email ID is required", None)
  {
  }

  /** With a good body, the delete call receives the trimmed id and the
      token refresh-before-use settled on. */
  lemma DeleteUsesRefreshedToken(cookies: map<string, Auth.Cookie>, ctx: Context, client: Auth.ClientEnv,
                                 post: Auth.RefreshForm -> Reply<Auth.TokenReply>, body: Option<DeleteBody>,
                                 apiKey: Option<string>, del: (string, seq<Param>, string) -> Reply<()>,
                                 rows: seq<UserDoc>, oidValid: string -> bool)
    requires GateSpec(cookies, ctx, rows, Some(Auth.Google)).Ok? && Precheck(body).None?
    ensures var u := GateSpec(cookies, ctx, rows, Some(Auth.Google)).value;
      var r := RefreshSpec(Auth.Google, u, client, post, ctx, rows, oidValid);
      var s := DeleteSpec(cookies, ctx, client, post, body, apiKey, del, rows, oidValid);
      s.response == ServeDelete(EmailId(body), apiKey, del, r.token)
      && s.users == r.users && s.ops == GateOps(cookies, ctx) + r.ops
  {
  }

  /** POST /api/gmail/delete over a live store. */
  method DeleteEmail(jar: Auth.CookieJar, ctx: Context, client: Auth.ClientEnv,
                     post: Auth.RefreshForm -> Reply<Auth.TokenReply>, body: Option<DeleteBody>,
                     apiKey: Option<string>, del: (string, seq<Param>, string) -> Reply<()>, db: Db.Database)
    returns (response: Response<Deleted>)
    requires db.Valid() && Db.FreshId(db.users, Oid(ctx.newOid))
    modifies db`users, db`log
    ensures db.Valid()
    ensures var s := DeleteSpec(jar.cookies, ctx, client, post, body, apiKey, del, old(db.users), db.oidValid);
      response == s.response && db.users == s.users && db.log == old(db.log) + s.ops
  {
    response := Handle(jar, ctx, Some(Auth.Google), client, post, Precheck(body), Serve(body, apiKey, del), db);
  }
}
