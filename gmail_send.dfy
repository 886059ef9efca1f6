/** Sending a message (app/api/gmail/assistant/send/route.ts): the gate on
    the Google connection, the body's checks, refresh-before-use, then one
    send call carrying the message in RFC 5322 form, base64url-encoded
    (section 5 of RFC 4648, without padding). */
module GmailSend {
  import opened Wrappers
  import opened Documents
  import Db
  import Auth
  import Text
  import Base64
  import opened Gate

  const Failed := "Failed to send email"
  const InvalidBody := Failure(400, "Invalid request body")
  const MissingFields := Failure(400, "Recipient, subject, and body are required")
  const ContentType := "Content-Type: text/plain; charset=\"UTF-8\""
  const Crlf := "\r\n"

  /** The JSON request body; `None` when it does not parse. */
  datatype SendBody = SendBody(to: Option<string>, subject: Option<string>, body: Option<string>)

  /** A message as the route composes it. */
  datatype Draft = Draft(to: string, subject: string, body: string)

  /** The send reply's ids. */
  datatype Sent = Sent(id: Option<string>, threadId: Option<string>)

  /** The three fields, each trimmed (absent counts as empty). */
  function DraftOf(body: Option<SendBody>): Draft {
    if body.None? then Draft("", "", "")
    else Draft(Text.Trim(OrElse(body.value.to, "")), Text.Trim(OrElse(body.value.subject, "")),
               Text.Trim(OrElse(body.value.body, "")))
  }

  /** The body's checks: it must parse, and no trimmed field may be empty. */
  function Precheck(body: Option<SendBody>): (f: Option<Failure>)
    ensures f.Some? ==> f.value.status == 400
    ensures f.None? <==> body.Some? && DraftOf(body).to != "" && DraftOf(body).subject != "" && DraftOf(body).body != ""
  {
    if body.None? then Some(InvalidBody)
    else
      var d := DraftOf(body);
      if d.to == "" || d.subject == "" || d.body == "" then Some(MissingFields) else None
  }

  /** Lines joined with CRLF. */
  function JoinLines(lines: seq<string>): string {
    if |lines| == 0 then ""
    else if |lines| == 1 then lines[0]
    else lines[0] + Crlf + JoinLines(lines[1..])
  }

  /** The message: the To and Subject header lines, the fixed Content-Type
      line, an empty line, then the body (section 2.1 of RFC 5322). */
  function RawMessage(d: Draft): string {
    JoinLines(["To: " + d.to, "Subject: " + d.subject, ContentType, "", d.body])
  }

  /** The first line of `s` and what follows its CRLF; `None` when the first
      CR is not followed by LF or there is none. */
  function ReadLine(s: string): Option<(string, string)> {
    if '\r' !in s then None
    else
      var i := Text.FirstIndex(s, '\r');
      if i + 1 < |s| && s[i + 1] == '\n' then Some((s[..i], s[i + 2..])) else None
  }

  lemma ReadLineOf(line: string, rest: string)
    requires '\r' !in line
    ensures ReadLine(line + Crlf + rest) == Some((line, rest))
  {
    var s := line + Crlf + rest;
    assert s[..|line|] == line;
    Text.FirstIndexAt(s, '\r', |line|);
    assert s[|line| + 2..] == rest;
  }

  predicate StartsWith(s: string, prefix: string) {
    |prefix| <= |s| && s[..|prefix|] == prefix
  }

  /** Reading a message back: four CRLF-terminated lines (To, Subject, the
      Content-Type line and the empty line) and then the body. */
  function ParseMessage(raw: string): Option<Draft> {
    match ReadLine(raw)
    case None => None
    case Some((l1, r1)) =>
      match ReadLine(r1)
      case None => None
      case Some((l2, r2)) =>
        match ReadLine(r2)
        case None => None
        case Some((l3, r3)) =>
          match ReadLine(r3)
          case None => None
          case Some((l4, body)) =>
            if StartsWith(l1, "To: ") && StartsWith(l2, "Subject: ") && l3 == ContentType && l4 == ""
            then Some(Draft(l1[4..], l2[9..], body))
            else None
  }

  /** The message reads back as the draft it was built from, whatever the
      body holds, when the recipient and subject hold no CR: the header
      block ends at the first empty line and the body is all that follows. */
  lemma MessageRoundTrip(d: Draft)
    requires '\r' !in d.to && '\r' !in d.subject
    ensures ParseMessage(RawMessage(d)) == Some(d)
  {
    var l1, l2 := "To: " + d.to, "Subject: " + d.subject;
    var r3 := "" + Crlf + d.body;
    var r2 := ContentType + Crlf + r3;
    var r1 := l2 + Crlf + r2;
    MessageLines(d);
    Prefixed("To: ", d.to);
    Prefixed("Subject: ", d.subject);
    ReadLineOf(l1, r1);
    ReadLineOf(l2, r2);
    ContentTypeOneLine();
    ReadLineOf(ContentType, r3);
    ReadLineOf("", d.body);
    assert ReadLine(RawMessage(d)) == Some((l1, r1));
  }

  lemma ContentTypeOneLine()
    ensures '\r' !in ContentType
  {
    assert forall i :: 0 <= i < |ContentType| ==> ContentType[i] != '\r';
  }

  lemma MessageLines(d: Draft)
    ensures RawMessage(d)
         == ("To: " + d.to) + Crlf + (("Subject: " + d.subject) + Crlf + (ContentType + Crlf + ("" + Crlf + d.body)))
  {
    var lines := ["To: " + d.to, "Subject: " + d.subject, ContentType, "", d.body];
    var l1, l2, l3 := lines[1..], lines[2..], lines[3..];
    assert l1[0] == "Subject: " + d.subject && l1[1..] == l2;
    assert l2[0] == ContentType && l2[1..] == l3;
    assert l3[0] == "" && l3[1..] == [d.body];
    JoinLinesStep(l3);
    JoinLinesStep(l2);
    JoinLinesStep(l1);
    JoinLinesStep(lines);
  }

  lemma JoinLinesStep(lines: seq<string>)
    requires |lines| >= 2
    ensures JoinLines(lines) == lines[0] + Crlf + JoinLines(lines[1..])
  {
  }

  lemma Prefixed(prefix: string, s: string)
    requires '\r' !in prefix && '\r' !in s
    ensures StartsWith(prefix + s, prefix) && (prefix + s)[|prefix|..] == s && '\r' !in prefix + s
  {
    assert (prefix + s)[..|prefix|] == prefix;
  }

  /** `raw`: the UTF-8 bytes of the message (`utf8`), base64url-encoded. */
  function RawField(d: Draft, utf8: string -> seq<Base64.byte>): string {
    Base64.UrlEncode(utf8(RawMessage(d)))
  }

  /** What Gmail receives decodes back to the message: the field is in the
      URL-safe alphabet with no '=', and undoing the alphabet change and
      restoring the padding gives the message's bytes. */
  lemma RawFieldDecodes(d: Draft, utf8: string -> seq<Base64.byte>)
    ensures var f := RawField(d, utf8); var b := utf8(RawMessage(d));
      (forall i :: 0 <= i < |f| ==> Base64.UrlSafeChar(f[i]))
      && Base64.Decode(Base64.MapChars(f, Base64.FromUrlChar) + Base64.Padding(|b|)) == Some(b)
  {
    Base64.UrlEncodeAlphabet(utf8(RawMessage(d)));
    Base64.UrlRoundTrip(utf8(RawMessage(d)));
  }

  /** `send` is the send call (raw field, query, bearer token). */
  function ServeSend(d: Draft, apiKey: Option<string>, utf8: string -> seq<Base64.byte>,
                     send: (string, seq<Param>, string) -> Reply<Sent>, token: string): (r: Response<Sent>)
    ensures var reply := send(RawField(d, utf8), KeyParam(apiKey), token);
      (r.Refused? ==> r.error == Failed && r.details.None?)
      && (reply.NotOk? ==> r.Refused? && r.status == reply.status)
      && (reply.Throws? ==> r.Refused? && r.status == 500)
      && (reply.Success? ==> r == Answer(reply.data))
  {
    match send(RawField(d, utf8), KeyParam(apiKey), token)
    case Throws => Refused(500, Failed, None)
    case NotOk(status, _) => Refused(status, Failed, None)
    case Success(ids) => Answer(Sent(ids.id, ids.threadId))
  }

  function Serve(body: Option<SendBody>, apiKey: Option<string>, utf8: string -> seq<Base64.byte>,
                 send: (string, seq<Param>, string) -> Reply<Sent>): (User, string) -> Response<Sent>
  {
    (u: User, token: string) => ServeSend(DraftOf(body), apiKey, utf8, send, token)
  }

  function SendSpec(cookies: map<string, Auth.Cookie>, ctx: Context, client: Auth.ClientEnv,
                    post: Auth.RefreshForm -> Reply<Auth.TokenReply>, body: Option<SendBody>,
                    apiKey: Option<string>, utf8: string -> seq<Base64.byte>,
                    send: (string, seq<Param>, string) -> Reply<Sent>,
                    rows: seq<UserDoc>, oidValid: string -> bool): Served<Sent>
  {
    HandleSpec(cookies, ctx, Some(Auth.Google), client, post, Precheck(body), Serve(body, apiKey, utf8, send),
               rows, oidValid)
  }

  /** A signed-in, connected user whose body is unparsable or misses a field
      gets the 400 before any refresh or send. */
  lemma BadBodyBeforeRefresh(cookies: map<string, Auth.Cookie>, ctx: Context, client: Auth.ClientEnv,
                             post: Auth.RefreshForm -> Reply<Auth.TokenReply>, body: Option<SendBody>,
                             apiKey: Option<string>, utf8: string -> seq<Base64.byte>,
                             send: (string, seq<Param>, string) -> Reply<Sent>,
                             rows: seq<UserDoc>, oidValid: string -> bool)
    requires GateSpec(cookies, ctx, rows, Some(Auth.Google)).Ok? && Precheck(body).Some?
    ensures var s := SendSpec(cookies, ctx, client, post, body, apiKey, utf8, send, rows, oidValid);
      s.users == rows && s.ops == GateOps(cookies, ctx) && s.response.Refused? && s.response.status == 400
      && (body.Some? <==> s.response.error == "Recipient, subject, and body are required")
  {
  }

  /** POST /api/gmail/assistant/send over a live store. */
  method SendEmail(jar: Auth.CookieJar, ctx: Context, client: Auth.ClientEnv,
                   post: Auth.RefreshForm -> Reply<Auth.TokenReply>, body: Option<SendBody>,
                   apiKey: Option<string>, utf8: string -> seq<Base64.byte>,
                   send: (string, seq<Param>, string) -> Reply<Sent>, db: Db.Database)
    returns (response: Response<Sent>)
    requires db.Valid() && Db.FreshId(db.users, Oid(ctx.newOid))
    modifies db`users, db`log
    ensures db.Valid()
    ensures var s := SendSpec(jar.cookies, ctx, client, post, body, apiKey, utf8, send, old(db.users), db.oidValid);
      response == s.response && db.users == s.users && db.log == old(db.log) + s.ops
  {
    response := Handle(jar, ctx, Some(Auth.Google), client, post, Precheck(body),
                       Serve(body, apiKey, utf8, send), db);
  }
}
