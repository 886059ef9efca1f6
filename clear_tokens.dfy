/** Clearing a user's provider tokens (app/api/auth/clear-tokens/route.ts):
    the gate without a provider check, then two writes in turn, Google's
    tokens and flag first and Microsoft's second. The session cookie is
    left as it is. */
module ClearTokens {
  import opened Wrappers
  import opened Documents
  import opened Query
  import Db
  import Auth
  import opened Gate

  const Failed := "Failed to clear tokens"

  datatype Cleared = Cleared(message: string, note: string)

  const Done := Cleared("All tokens cleared successfully", "Please log in again to re-authenticate with all scopes")

  /** `{ googleAccessToken: null, googleRefreshToken: null, googleConnected: false }` */
  const GooglePatch := EmptyPatch.(googleAccessToken := Put(None), googleRefreshToken := Put(None),
                                   googleConnected := Put(Some(false)))

  /** The same for Microsoft. */
  const MicrosoftPatch := EmptyPatch.(microsoftAccessToken := Put(None), microsoftRefreshToken := Put(None),
                                      microsoftConnected := Put(Some(false)))

  /** The two writes for the user with id `id`. The first may upsert with
      `ctx.newOid`, the second with `secondOid`. A failed write ends the
      request with 500 and the failure's message, keeping what was written
      before it. */
  function ClearUserSpec(id: string, ctx: Context, secondOid: string, rows: seq<UserDoc>,
                         oidValid: string -> bool): Served<Cleared>
  {
    var (rows1, r1) := Db.UpdateUserSpec(rows, id, GooglePatch, ctx.now, ctx.newOid, ctx.returnsDoc, oidValid);
    var ops1 := Db.UpdateOps(id, GooglePatch, ctx.returnsDoc, oidValid);
    if r1.Err? then Served(Refused(500, Failed, Some(r1.error)), rows1, ops1)
    else
      var (rows2, r2) := Db.UpdateUserSpec(rows1, id, MicrosoftPatch, ctx.now, secondOid, ctx.returnsDoc, oidValid);
      var ops2 := ops1 + Db.UpdateOps(id, MicrosoftPatch, ctx.returnsDoc, oidValid);
      if r2.Err? then Served(Refused(500, Failed, Some(r2.error)), rows2, ops2)
      else Served(Answer(Done), rows2, ops2)
  }

  /** The route over the stored users: the gate, then the two writes. */
  function ClearSpec(cookies: map<string, Auth.Cookie>, ctx: Context, secondOid: string,
                     rows: seq<UserDoc>, oidValid: string -> bool): Served<Cleared>
  {
    match GateSpec(cookies, ctx, rows, None)
    case Err(f) => Served(Refuse(f), rows, GateOps(cookies, ctx))
    case Ok(u) =>
      var s := ClearUserSpec(u.id, ctx, secondOid, rows, oidValid);
      s.(ops := GateOps(cookies, ctx) + s.ops)
  }

  /** Without a valid session or a stored user the request is refused with
      the gate's status (no provider check here) and nothing is written. */
  lemma RefusedWritesNothing(cookies: map<string, Auth.Cookie>, ctx: Context, secondOid: string,
                             rows: seq<UserDoc>, oidValid: string -> bool)
    requires GateSpec(cookies, ctx, rows, None).Err?
    ensures var s := ClearSpec(cookies, ctx, secondOid, rows, oidValid);
      s.users == rows && s.ops == GateOps(cookies, ctx) && s.response.Refused?
      && s.response.status in {401, 404}
  {
    GateOrder(cookies, ctx, rows, None);
  }

  /** The fields both writes leave on a row: every provider field cleared
      (tokens null, flags false), the profile and `createdAt` kept. */
  function ClearedFields(f: UserFields, now: string): (g: UserFields)
    ensures g.googleAccessToken.None? && g.googleRefreshToken.None? && g.googleConnected == Some(false)
    ensures g.microsoftAccessToken.None? && g.microsoftRefreshToken.None? && g.microsoftConnected == Some(false)
    ensures g.email == f.email && g.name == f.name && g.image == f.image && g.createdAt == f.createdAt
  {
    SetFields(SetFields(f, GooglePatch, now), MicrosoftPatch, now)
  }

  /** For the user found by the session's email, when no other document
      answers to that user's id, both writes succeed and that row, and only
      it, is replaced by its cleared fields. */
  lemma ClearsFoundUser(cookies: map<string, Auth.Cookie>, ctx: Context, secondOid: string,
                        rows: seq<UserDoc>, oidValid: string -> bool, i: nat)
    requires SessionEmail(cookies, ctx).Ok?
    requires FirstMatch(rows, [EmailIs(SessionEmail(cookies, ctx).value)]) == Some(i)
    requires forall j :: 0 <= j < |rows| ==>
      (MatchesAny(rows[j], Db.IdFilter(IdText(Some(rows[i].id)), oidValid)) <==> j == i)
    ensures i < |rows|
    ensures var s := ClearSpec(cookies, ctx, secondOid, rows, oidValid);
      s.response == Answer(Done) && s.users == rows[i := UserDoc(rows[i].id, ClearedFields(rows[i].fields, ctx.now))]
  {
    var u := Db.DbRecordToUser(Db.UserRecord(rows[i], ctx.now));
    assert Db.FindUser(rows, [EmailIs(SessionEmail(cookies, ctx).value)], ctx.now) == Some(Db.UserRecord(rows[i], ctx.now));
    assert GateSpec(cookies, ctx, rows, None) == Ok(u);
    assert u.id == IdText(Some(rows[i].id));
    ClearsStoredUser(ctx, secondOid, rows, oidValid, i);
  }

  lemma ClearsStoredUser(ctx: Context, secondOid: string, rows: seq<UserDoc>, oidValid: string -> bool, i: nat)
    requires i < |rows|
    requires forall j :: 0 <= j < |rows| ==>
      (MatchesAny(rows[j], Db.IdFilter(IdText(Some(rows[i].id)), oidValid)) <==> j == i)
    ensures var s := ClearUserSpec(IdText(Some(rows[i].id)), ctx, secondOid, rows, oidValid);
      s.response == Answer(Done)
      && s.users == rows[i := UserDoc(rows[i].id, ClearedFields(rows[i].fields, ctx.now))]
  {
    var id := IdText(Some(rows[i].id));
    Db.UpdateExistingById(rows, i, GooglePatch, ctx.now, ctx.newOid, ctx.returnsDoc, oidValid);
    var rows1 := Db.UpdateUserSpec(rows, id, GooglePatch, ctx.now, ctx.newOid, ctx.returnsDoc, oidValid).0;
    Db.IdFilterMatches(id, oidValid);
    assert forall j :: 0 <= j < |rows1| ==> rows1[j].id == rows[j].id;
    Db.UpdateExistingById(rows1, i, MicrosoftPatch, ctx.now, secondOid, ctx.returnsDoc, oidValid);
  }

  /** POST /api/auth/clear-tokens over a live store. The cookie jar is read
      and never written. */
  method ClearTokens(jar: Auth.CookieJar, ctx: Context, secondOid: string, db: Db.Database)
    returns (response: Response<Cleared>)
    requires db.Valid() && Db.FreshId(db.users, Oid(ctx.newOid))
    requires Db.FreshId(db.users, Oid(secondOid)) && secondOid != ctx.newOid
    modifies db`users, db`log
    ensures db.Valid()
    ensures var s := ClearSpec(jar.cookies, ctx, secondOid, old(db.users), db.oidValid);
      response == s.response && db.users == s.users && db.log == old(db.log) + s.ops
  {
    var gate := Authorize(jar, ctx, None, db);
    if gate.Err? {
      return Refuse(gate.error);
    }
    response := ClearUser(gate.value.id, ctx, secondOid, db);
    LogAppend(old(db.log), GateOps(jar.cookies, ctx),
              ClearUserSpec(gate.value.id, ctx, secondOid, old(db.users), db.oidValid).ops);
  }

  /** The two writes over a live store. */
  method ClearUser(id: string, ctx: Context, secondOid: string, db: Db.Database)
    returns (response: Response<Cleared>)
    requires db.Valid() && Db.FreshId(db.users, Oid(ctx.newOid))
    requires Db.FreshId(db.users, Oid(secondOid)) && secondOid != ctx.newOid
    modifies db`users, db`log
    ensures db.Valid()
    ensures var s := ClearUserSpec(id, ctx, secondOid, old(db.users), db.oidValid);
      response == s.response && db.users == s.users && db.log == old(db.log) + s.ops
  {
    Db.UpsertKeepsOthersFresh(db.users, id, GooglePatch, ctx.now, ctx.newOid, db.oidValid, secondOid);
    var first := db.UpdateUser(id, GooglePatch, ctx.now, ctx.newOid, ctx.returnsDoc);
    if first.Err? {
      return Refused(500, Failed, Some(first.error));
    }
    var second := db.UpdateUser(id, MicrosoftPatch, ctx.now, secondOid, ctx.returnsDoc);
    LogAppend(old(db.log), Db.UpdateOps(id, GooglePatch, ctx.returnsDoc, db.oidValid),
              Db.UpdateOps(id, MicrosoftPatch, ctx.returnsDoc, db.oidValid));
    if second.Err? {
      return Refused(500, Failed, Some(second.error));
    }
    response := Answer(Done);
  }
}
