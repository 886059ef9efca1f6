/** The OneDrive listing (app/api/onedrive/route.ts): the gate on the
    Microsoft connection, Microsoft refresh-before-use, one children call,
    each item copied with a "folder" type when it has no file facet, and the
    skip token of the next page. */
module OneDrive {
  import opened Wrappers
  import opened Documents
  import Db
  import Auth
  import opened Gate

  const Failed := "Failed to fetch files"
  const SelectFields := "id,name,size,lastModifiedDateTime,webUrl,file"

  /** The `file` facet of an item; folders have none. */
  datatype FileFacet = FileFacet(mimeType: Option<string>)

  datatype DriveItem = DriveItem(id: string, name: string, size: int, lastModifiedDateTime: string,
                                 webUrl: Option<string>, file: Option<FileFacet>)

  /** The children reply: its items and its `@odata.nextLink`. */
  datatype Children = Children(value: Option<seq<DriveItem>>, nextLink: Option<string>)

  datatype ItemEntry = ItemEntry(id: string, name: string, size: int, lastModifiedDateTime: string,
                                 webUrl: Option<string>, mimeType: string)

  datatype ItemPage = ItemPage(files: seq<ItemEntry>, nextSkipToken: string)

  /** The children call's query, in the order the URL is built: `$top`
      (default "50"), the selected fields, then `$skiptoken` appended only
      when non-empty. */
  function ListParams(top: Option<string>, skipToken: Option<string>): seq<Param> {
    [Param("$top", OrElse(top, "50")), Param("$select", SelectFields)]
    + (if Truthy(skipToken) then [Param("$skiptoken", skipToken.value)] else [])
  }

  lemma ListParamsDefaults(top: Option<string>, skipToken: Option<string>)
    ensures var ps := ListParams(top, skipToken);
      GetParam(ps, "$top") == Some(if Truthy(top) then top.value else "50")
      && (GetParam(ps, "$skiptoken").Some? <==> Truthy(skipToken))
      && (Truthy(skipToken) ==> GetParam(ps, "$skiptoken") == skipToken)
  {
    var ps := ListParams(top, skipToken);
    GetParamFirst(ps, "$top", 0);
    if Truthy(skipToken) {
      GetParamFirst(ps, "$skiptoken", 2);
    } else {
      GetParamAbsent(ps, "$skiptoken");
    }
  }

  /** `item.file?.mimeType || "folder"` */
  function MimeType(item: DriveItem): (t: string)
    ensures t != ""
    ensures item.file.None? ==> t == "folder"
    ensures item.file.Some? && Truthy(item.file.value.mimeType) ==> t == item.file.value.mimeType.value
  {
    if item.file.Some? then OrElse(item.file.value.mimeType, "folder") else "folder"
  }

  function ToEntry(item: DriveItem): ItemEntry {
    ItemEntry(item.id, item.name, item.size, item.lastModifiedDateTime, item.webUrl, MimeType(item))
  }

  /** The next page's skip token: "" without a next link; otherwise the
      link's `$skiptoken`, or "" when it has none. `query` parses the link
      (`None` when it is not a URL, which throws) into its query. */
  function NextSkipToken(nextLink: Option<string>, query: string -> Option<seq<Param>>): (r: Option<string>)
    ensures !Truthy(nextLink) ==> r == Some("")
    ensures Truthy(nextLink) && query(nextLink.value).None? ==> r.None?
    ensures Truthy(nextLink) && query(nextLink.value).Some? ==>
      r == Some(OrElse(GetParam(query(nextLink.value).value, "$skiptoken"), ""))
  {
    if !Truthy(nextLink) then Some("")
    else
      match query(nextLink.value)
      case None => None
      case Some(ps) => Some(OrElse(GetParam(ps, "$skiptoken"), ""))
  }

  /** A skip token handed back by one page is the one the next request
      sends: a link built with `$skiptoken=t` yields t, which the next
      listing puts in its query. */
  lemma SkipTokenRoundTrip(link: string, ps: seq<Param>, t: string, top: Option<string>,
                           query: string -> Option<seq<Param>>)
    requires link != "" && query(link) == Some(ps) && GetParam(ps, "$skiptoken") == Some(t) && t != ""
    ensures NextSkipToken(Some(link), query) == Some(t)
    ensures GetParam(ListParams(top, NextSkipToken(Some(link), query)), "$skiptoken") == Some(t)
  {
    ListParamsDefaults(top, Some(t));
  }

  function ServeItems(top: Option<string>, skipToken: Option<string>,
                      children: (seq<Param>, string) -> Reply<Children>,
                      parse: string -> Option<Option<string>>, query: string -> Option<seq<Param>>,
                      token: string): Response<ItemPage>
  {
    match children(ListParams(top, skipToken), token)
    case Throws => Refused(500, Failed, None)
    case NotOk(status, body) => Refused(status, ErrorMessage(body, parse(body), Failed), None)
    case Success(data) =>
      var items := data.value.GetOr([]);
      match NextSkipToken(data.nextLink, query)
      case None => Refused(500, Failed, None)
      case Some(next) => Answer(ItemPage(seq(|items|, i requires 0 <= i < |items| => ToEntry(items[i])), next))
  }

  /** A non-2xx reply is passed through with its status; a next link that
      is not a URL gives 500; otherwise every item is listed, in order, with
      its type or "folder". */
  lemma ServeItemsOutcomes(top: Option<string>, skipToken: Option<string>,
                           children: (seq<Param>, string) -> Reply<Children>,
                           parse: string -> Option<Option<string>>, query: string -> Option<seq<Param>>,
                           token: string)
    ensures var r := ServeItems(top, skipToken, children, parse, query, token);
      var reply := children(ListParams(top, skipToken), token);
      (reply.Throws? ==> r == Refused(500, Failed, None))
      && (reply.NotOk? ==> r.Refused? && r.status == reply.status && r.error != "")
      && (reply.Success? ==>
            (r.Answer? <==> NextSkipToken(reply.data.nextLink, query).Some?)
            && (r.Answer? ==>
                  var items := reply.data.value.GetOr([]);
                  |r.body.files| == |items|
                  && forall i :: 0 <= i < |items| ==>
                       r.body.files[i].id == items[i].id
                       && (items[i].file.None? ==> r.body.files[i].mimeType == "folder")))
  {
  }

  function Serve(top: Option<string>, skipToken: Option<string>,
                 children: (seq<Param>, string) -> Reply<Children>,
                 parse: string -> Option<Option<string>>, query: string -> Option<seq<Param>>)
    : (User, string) -> Response<ItemPage>
  {
    (u: User, token: string) => ServeItems(top, skipToken, children, parse, query, token)
  }

  /** GET /api/onedrive over a live store. */
  method ListItems(jar: Auth.CookieJar, ctx: Context, client: Auth.ClientEnv,
                   post: Auth.RefreshForm -> Reply<Auth.TokenReply>, top: Option<string>,
                   skipToken: Option<string>, children: (seq<Param>, string) -> Reply<Children>,
                   parse: string -> Option<Option<string>>, query: string -> Option<seq<Param>>,
                   db: Db.Database)
    returns (response: Response<ItemPage>)
    requires db.Valid() && Db.FreshId(db.users, Oid(ctx.newOid))
    modifies db`users, db`log
    ensures db.Valid()
    ensures var s := HandleSpec(jar.cookies, ctx, Some(Auth.Microsoft), client, post, None,
                                Serve(top, skipToken, children, parse, query), old(db.users), db.oidValid);
      response == s.response && db.users == s.users && db.log == old(db.log) + s.ops
  {
    response := Handle(jar, ctx, Some(Auth.Microsoft), client, post, None,
                       Serve(top, skipToken, children, parse, query), db);
  }
}
