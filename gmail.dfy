/** The inbox listing (app/api/gmail/route.ts): the gate on the Google
    connection, refresh-before-use, one list call, then one metadata call per
    listed message; failed detail calls are dropped, the rest keep the list's
    order. */
module GmailList {
  import opened Wrappers
  import opened Documents
  import Db
  import Auth
  import Text
  import opened Gate

  const Failed := "Failed to fetch emails"

  /** One entry of a message's `payload.headers`. */
  datatype HeaderEntry = HeaderEntry(name: string, value: Option<string>)

  /** The metadata reply for one message. `headers` is `None` when the
      payload or its headers are missing. */
  datatype MessageDetail = MessageDetail(id: Option<string>, threadId: Option<string>, snippet: Option<string>,
                                         headers: Option<seq<HeaderEntry>>, labelIds: Option<seq<string>>)

  /** The list reply: the listed messages' ids and the paging data. */
  datatype MessageList = MessageList(messages: Option<seq<string>>, nextPageToken: Option<string>,
                                     resultSizeEstimate: Option<int>)

  datatype EmailSummary = EmailSummary(id: Option<string>, threadId: Option<string>, from: string, to: string,
                                       subject: string, snippet: Option<string>, date: string,
                                       isRead: bool, labels: seq<string>)

  datatype EmailPage = EmailPage(emails: seq<EmailSummary>, nextPageToken: Option<string>,
                                 resultSizeEstimate: Option<int>)

  /** The list call's query: `maxResults` (default "50"), then `pageToken`
      when non-empty, then the API key when set. */
  function ListParams(maxResults: Option<string>, pageToken: Option<string>, apiKey: Option<string>): seq<Param> {
    [Param("maxResults", OrElse(maxResults, "50"))]
    + (if Truthy(pageToken) then [Param("pageToken", pageToken.value)] else [])
    + KeyParam(apiKey)
  }

  lemma ListParamsDefaults(maxResults: Option<string>, pageToken: Option<string>, apiKey: Option<string>)
    ensures var ps := ListParams(maxResults, pageToken, apiKey);
      GetParam(ps, "maxResults") == Some(if Truthy(maxResults) then maxResults.value else "50")
      && (GetParam(ps, "pageToken").Some? <==> Truthy(pageToken))
      && (Truthy(pageToken) ==> GetParam(ps, "pageToken") == pageToken)
      && (GetParam(ps, "key").Some? <==> Truthy(apiKey))
  {
    var head := [Param("maxResults", OrElse(maxResults, "50"))];
    var paging := if Truthy(pageToken) then [Param("pageToken", pageToken.value)] else [];
    GetParamAppend(head + paging, KeyParam(apiKey), "pageToken");
    GetParamAppend(head + paging, KeyParam(apiKey), "key");
    GetParamAppend(head + paging, KeyParam(apiKey), "maxResults");
    GetParamAppend(head, paging, "pageToken");
    GetParamAppend(head, paging, "key");
  }

  /** The detail call's query: metadata format, the four headers asked
      for, and the API key when set. */
  function DetailParams(apiKey: Option<string>): seq<Param> {
    [Param("format", "metadata"), Param("metadataHeaders", "From"), Param("metadataHeaders", "To"),
     Param("metadataHeaders", "Subject"), Param("metadataHeaders", "Date")]
    + KeyParam(apiKey)
  }

  /** The value of the first header whose name equals `name` ignoring case,
      or "" when there is none (or its value is empty). */
  function GetHeader(headers: seq<HeaderEntry>, name: string): (v: string)
  {
    if |headers| == 0 then ""
    else if Text.SameIgnoringCase(headers[0].name, name) then OrElse(headers[0].value, "")
    else GetHeader(headers[1..], name)
  }

  lemma {:induction false} GetHeaderAbsent(headers: seq<HeaderEntry>, name: string)
    requires forall j :: 0 <= j < |headers| ==> !Text.SameIgnoringCase(headers[j].name, name)
    ensures GetHeader(headers, name) == ""
  {
    if |headers| > 0 {
      GetHeaderAbsent(headers[1..], name);
    }
  }

  /** The first match wins, whatever follows it. */
  lemma {:induction false} GetHeaderFirst(headers: seq<HeaderEntry>, name: string, i: nat)
    requires i < |headers| && Text.SameIgnoringCase(headers[i].name, name)
    requires forall j :: 0 <= j < i ==> !Text.SameIgnoringCase(headers[j].name, name)
    ensures GetHeader(headers, name) == OrElse(headers[i].value, "")
  {
    if i > 0 {
      GetHeaderFirst(headers[1..], name, i - 1);
    }
  }

  /** Names that differ only in case find the same header. */
  lemma {:induction false} GetHeaderCaseInsensitive(headers: seq<HeaderEntry>, a: string, b: string)
    requires Text.SameIgnoringCase(a, b)
    ensures GetHeader(headers, a) == GetHeader(headers, b)
  {
    if |headers| > 0 {
      GetHeaderCaseInsensitive(headers[1..], a, b);
    }
  }

  /** `!labelIds?.includes("UNREAD")`: a message without labels is read. */
  predicate IsRead(labelIds: Option<seq<string>>) {
    labelIds.None? || "UNREAD" !in labelIds.value
  }

  function Summarize(d: MessageDetail): EmailSummary {
    var headers := d.headers.GetOr([]);
    EmailSummary(d.id, d.threadId, GetHeader(headers, "From"), GetHeader(headers, "To"),
                 GetHeader(headers, "Subject"), d.snippet, GetHeader(headers, "Date"),
                 IsRead(d.labelIds), d.labelIds.GetOr([]))
  }

  lemma SummaryReadFlag(d: MessageDetail)
    ensures Summarize(d).isRead <==> forall j :: 0 <= j < |Summarize(d).labels| ==> Summarize(d).labels[j] != "UNREAD"
    ensures d.labelIds.None? ==> Summarize(d).isRead && Summarize(d).labels == []
  {
  }

  /** The detail replies gathered: any exception sinks the whole listing;
      otherwise the non-2xx replies are dropped. */
  function Collect(replies: seq<Reply<MessageDetail>>): (r: Option<seq<EmailSummary>>)
    ensures r.None? <==> exists j :: 0 <= j < |replies| && replies[j].Throws?
  {
    if |replies| == 0 then Some([])
    else
      var rest := Collect(replies[1..]);
      assert forall j :: 1 <= j < |replies| ==> replies[j] == replies[1..][j - 1];
      match replies[0]
      case Throws => None
      case NotOk(_, _) => rest
      case Success(d) => if rest.None? then None else Some([Summarize(d)] + rest.value)
  }

  /** The number of 2xx replies. */
  function Successes(replies: seq<Reply<MessageDetail>>): nat {
    if |replies| == 0 then 0
    else (if replies[0].Success? then 1 else 0) + Successes(replies[1..])
  }

  lemma {:induction false} SuccessesPrefix(replies: seq<Reply<MessageDetail>>, j: nat)
    requires 0 < j <= |replies|
    ensures Successes(replies[..j]) == (if replies[0].Success? then 1 else 0) + Successes(replies[1..][..j - 1])
  {
    assert replies[..j][1..] == replies[1..][..j - 1];
  }

  /** The gathered summaries are the 2xx replies' summaries, in list order:
      the reply at position j lands at the position counting the 2xx replies
      before it. */
  lemma {:induction false} CollectKeepsOrder(replies: seq<Reply<MessageDetail>>, j: nat)
    requires Collect(replies).Some? && j < |replies| && replies[j].Success?
    ensures |Collect(replies).value| == Successes(replies)
    ensures Successes(replies[..j]) < |Collect(replies).value|
    ensures Collect(replies).value[Successes(replies[..j])] == Summarize(replies[j].data)
  {
    assert forall k :: 1 <= k < |replies| ==> replies[k] == replies[1..][k - 1];
    if j == 0 {
      assert replies[..0] == [];
      CollectLength(replies[1..]);
    } else {
      SuccessesPrefix(replies, j);
      CollectKeepsOrder(replies[1..], j - 1);
    }
  }

  lemma {:induction false} CollectLength(replies: seq<Reply<MessageDetail>>)
    requires Collect(replies).Some?
    ensures |Collect(replies).value| == Successes(replies)
  {
    if |replies| > 0 {
      assert forall k :: 1 <= k < |replies| ==> replies[k] == replies[1..][k - 1];
      CollectLength(replies[1..]);
    }
  }

  /** The route's work once it holds an access token. `list` and `detail`
      are the Gmail calls (query, bearer token), and `parse` reads an error
      body's `error.message`. */
  function ServeEmails(maxResults: Option<string>, pageToken: Option<string>, apiKey: Option<string>,
                       list: (seq<Param>, string) -> Reply<MessageList>,
                       detail: (string, seq<Param>, string) -> Reply<MessageDetail>,
                       parse: string -> Option<Option<string>>, token: string): Response<EmailPage>
  {
    match list(ListParams(maxResults, pageToken, apiKey), token)
    case Throws => Refused(500, Failed, None)
    case NotOk(status, body) => Refused(status, ErrorMessage(body, parse(body), Failed), None)
    case Success(listing) =>
      var ids := listing.messages.GetOr([]);
      match Collect(seq(|ids|, i requires 0 <= i < |ids| => detail(ids[i], DetailParams(apiKey), token)))
      case None => Refused(500, Failed, None)
      case Some(emails) => Answer(EmailPage(emails, listing.nextPageToken, listing.resultSizeEstimate))
  }

  /** A non-2xx list reply is passed through with its status; an exception
      anywhere gives 500; otherwise the page holds one summary per message
      whose detail call succeeded, and the list's paging data. */
  lemma ServeEmailsOutcomes(maxResults: Option<string>, pageToken: Option<string>, apiKey: Option<string>,
                            list: (seq<Param>, string) -> Reply<MessageList>,
                            detail: (string, seq<Param>, string) -> Reply<MessageDetail>,
                            parse: string -> Option<Option<string>>, token: string)
    ensures var r := ServeEmails(maxResults, pageToken, apiKey, list, detail, parse, token);
      var reply := list(ListParams(maxResults, pageToken, apiKey), token);
      (reply.Throws? ==> r == Refused(500, Failed, None))
      && (reply.NotOk? ==> r.Refused? && r.status == reply.status && r.error != "" && r.details.None?)
      && (reply.Success? ==>
            var ids := reply.data.messages.GetOr([]);
            (r.Answer? <==> forall i :: 0 <= i < |ids| ==> !detail(ids[i], DetailParams(apiKey), token).Throws?)
            && (r.Answer? ==> r.body.nextPageToken == reply.data.nextPageToken && |r.body.emails| <= |ids|))
  {
    var reply := list(ListParams(maxResults, pageToken, apiKey), token);
    if reply.Success? {
      var ids := reply.data.messages.GetOr([]);
      var replies := seq(|ids|, i requires 0 <= i < |ids| => detail(ids[i], DetailParams(apiKey), token));
      assert forall i :: 0 <= i < |ids| ==> replies[i] == detail(ids[i], DetailParams(apiKey), token);
      if Collect(replies).Some? {
        CollectLength(replies);
        SuccessesBound(replies);
      }
    }
  }

  lemma {:induction false} SuccessesBound(replies: seq<Reply<MessageDetail>>)
    ensures Successes(replies) <= |replies|
  {
    if |replies| > 0 {
      SuccessesBound(replies[1..]);
    }
  }

  /** The route's work as the handler hands it the user and the token. */
  function Serve(maxResults: Option<string>, pageToken: Option<string>, apiKey: Option<string>,
                 list: (seq<Param>, string) -> Reply<MessageList>,
                 detail: (string, seq<Param>, string) -> Reply<MessageDetail>,
                 parse: string -> Option<Option<string>>): (User, string) -> Response<EmailPage>
  {
    (u: User, token: string) => ServeEmails(maxResults, pageToken, apiKey, list, detail, parse, token)
  }

  /** GET /api/gmail over a live store. */
  method ListEmails(jar: Auth.CookieJar, ctx: Context, client: Auth.ClientEnv,
                    post: Auth.RefreshForm -> Reply<Auth.TokenReply>, apiKey: Option<string>,
                    maxResults: Option<string>, pageToken: Option<string>,
                    list: (seq<Param>, string) -> Reply<MessageList>,
                    detail: (string, seq<Param>, string) -> Reply<MessageDetail>,
                    parse: string -> Option<Option<string>>, db: Db.Database)
    returns (response: Response<EmailPage>)
    requires db.Valid() && Db.FreshId(db.users, Oid(ctx.newOid))
    modifies db`users, db`log
    ensures db.Valid()
    ensures var s := HandleSpec(jar.cookies, ctx, Some(Auth.Google), client, post, None,
                                Serve(maxResults, pageToken, apiKey, list, detail, parse), old(db.users), db.oidValid);
      response == s.response && db.users == s.users && db.log == old(db.log) + s.ops
  {
    response := Handle(jar, ctx, Some(Auth.Google), client, post, None,
                       Serve(maxResults, pageToken, apiKey, list, detail, parse), db);
  }
}
