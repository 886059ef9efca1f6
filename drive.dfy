/** The Drive listing (app/api/drive/route.ts): the gate on the Google
    connection, refresh-before-use, one files call, and each file copied
    with its size parsed as an integer. */
module Drive {
  import opened Wrappers
  import opened Documents
  import Db
  import Auth
  import Text
  import opened Gate

  const Failed := "Failed to fetch files"
  const FileFields := "nextPageToken,files(id,name,mimeType,size,modifiedTime,webViewLink,iconLink,thumbnailLink)"

  /** One file of the files reply; `size` is a decimal string when present. */
  datatype DriveFile = DriveFile(id: string, name: string, mimeType: string, size: Option<string>,
                                 modifiedTime: string, webViewLink: Option<string>, iconLink: Option<string>,
                                 thumbnailLink: Option<string>)

  datatype FileList = FileList(files: Option<seq<DriveFile>>, nextPageToken: Option<string>)

  /** A file as the route returns it; a size that is absent or not a number
      is `None`. */
  datatype FileEntry = FileEntry(id: string, name: string, mimeType: string, size: Option<int>,
                                 modifiedTime: string, webViewLink: Option<string>, iconLink: Option<string>,
                                 thumbnailLink: Option<string>)

  datatype FilePage = FilePage(files: seq<FileEntry>, nextPageToken: Option<string>)

  /** The files call's query: `pageSize` (default "50"), the fields asked
      for, newest first, and `pageToken` when non-empty. */
  function ListParams(pageSize: Option<string>, pageToken: Option<string>): seq<Param> {
    [Param("pageSize", OrElse(pageSize, "50")), Param("fields", FileFields), Param("orderBy", "modifiedTime desc")]
    + (if Truthy(pageToken) then [Param("pageToken", pageToken.value)] else [])
  }

  lemma ListParamsDefaults(pageSize: Option<string>, pageToken: Option<string>)
    ensures var ps := ListParams(pageSize, pageToken);
      GetParam(ps, "pageSize") == Some(if Truthy(pageSize) then pageSize.value else "50")
      && GetParam(ps, "orderBy") == Some("modifiedTime desc")
      && (GetParam(ps, "pageToken").Some? <==> Truthy(pageToken))
      && (Truthy(pageToken) ==> GetParam(ps, "pageToken") == pageToken)
  {
    var ps := ListParams(pageSize, pageToken);
    GetParamFirst(ps, "pageSize", 0);
    GetParamFirst(ps, "orderBy", 2);
    if Truthy(pageToken) {
      GetParamFirst(ps, "pageToken", 3);
    } else {
      GetParamAbsent(ps, "pageToken");
    }
  }

  function ToEntry(f: DriveFile): (e: FileEntry)
  {
    FileEntry(f.id, f.name, f.mimeType, if Truthy(f.size) then Text.ParseInt(f.size.value) else None,
              f.modifiedTime, f.webViewLink, f.iconLink, f.thumbnailLink)
  }

  /** Every field but the size is copied; the size is the parsed decimal
      when present, and absent otherwise. */
  lemma ToEntryCopies(f: DriveFile, n: nat)
    ensures var e := ToEntry(f);
      e.id == f.id && e.name == f.name && e.mimeType == f.mimeType && e.modifiedTime == f.modifiedTime
      && e.webViewLink == f.webViewLink && e.iconLink == f.iconLink && e.thumbnailLink == f.thumbnailLink
      && (!Truthy(f.size) ==> e.size.None?)
      && (f.size == Some(Text.NatToString(n)) ==> e.size == Some(n))
  {
    if f.size == Some(Text.NatToString(n)) {
      Text.ParseIntNatToString(n);
    }
  }

  function ServeFiles(pageSize: Option<string>, pageToken: Option<string>,
                      files: (seq<Param>, string) -> Reply<FileList>,
                      parse: string -> Option<Option<string>>, token: string): Response<FilePage>
  {
    match files(ListParams(pageSize, pageToken), token)
    case Throws => Refused(500, Failed, None)
    case NotOk(status, body) => Refused(status, ErrorMessage(body, parse(body), Failed), None)
    case Success(data) =>
      var listed := data.files.GetOr([]);
      Answer(FilePage(seq(|listed|, i requires 0 <= i < |listed| => ToEntry(listed[i])), data.nextPageToken))
  }

  /** A non-2xx reply is passed through with its status; a 2xx reply gives
      one entry per listed file, in order. */
  lemma ServeFilesOutcomes(pageSize: Option<string>, pageToken: Option<string>,
                           files: (seq<Param>, string) -> Reply<FileList>,
                           parse: string -> Option<Option<string>>, token: string)
    ensures var r := ServeFiles(pageSize, pageToken, files, parse, token);
      var reply := files(ListParams(pageSize, pageToken), token);
      (reply.Throws? ==> r == Refused(500, Failed, None))
      && (reply.NotOk? ==> r.Refused? && r.status == reply.status && r.error != "")
      && (reply.Success? ==>
            r.Answer? && r.body.nextPageToken == reply.data.nextPageToken
            && |r.body.files| == |reply.data.files.GetOr([])|
            && forall i :: 0 <= i < |r.body.files| ==>
                 r.body.files[i] == ToEntry(reply.data.files.GetOr([])[i])
                 && r.body.files[i].id == reply.data.files.GetOr([])[i].id)
  {
  }

  function Serve(pageSize: Option<string>, pageToken: Option<string>,
                 files: (seq<Param>, string) -> Reply<FileList>,
                 parse: string -> Option<Option<string>>): (User, string) -> Response<FilePage>
  {
    (u: User, token: string) => ServeFiles(pageSize, pageToken, files, parse, token)
  }

  /** GET /api/drive over a live store. */
  method ListFiles(jar: Auth.CookieJar, ctx: Context, client: Auth.ClientEnv,
                   post: Auth.RefreshForm -> Reply<Auth.TokenReply>, pageSize: Option<string>,
                   pageToken: Option<string>, files: (seq<Param>, string) -> Reply<FileList>,
                   parse: string -> Option<Option<string>>, db: Db.Database)
    returns (response: Response<FilePage>)
    requires db.Valid() && Db.FreshId(db.users, Oid(ctx.newOid))
    modifies db`users, db`log
    ensures db.Valid()
    ensures var s := HandleSpec(jar.cookies, ctx, Some(Auth.Google), client, post, None,
                                Serve(pageSize, pageToken, files, parse), old(db.users), db.oidValid);
      response == s.response && db.users == s.users && db.log == old(db.log) + s.ops
  {
    response := Handle(jar, ctx, Some(Auth.Google), client, post, None, Serve(pageSize, pageToken, files, parse), db);
  }
}
