/** The photo search of the older app (NeuronNook/app/api/photos/search/route.ts):
    the gate over the older store on the Google connection, with no refresh,
    then one search call whose body carries the page size, an optional date
    filter and an optional page token, and the found items reshaped. */
module PhotosSearch {
  import opened Wrappers
  import opened Documents
  import Auth
  import Text
  import Airtable
  import opened Gate

  const Failed := "Failed to search photos"
  const DefaultPageSize := 50

  /** The JSON request body; `None` when it does not parse. A `pageSize`
      that is absent is `None`. */
  datatype SearchBody = SearchBody(startDate: Option<string>, endDate: Option<string>,
                                   pageSize: Option<int>, pageToken: Option<string>)

  /** A date string as the runtime reads it in local time: the full year,
      the zero-based month and the day of the month. */
  datatype LocalDate = LocalDate(year: int, month0: int, day: int)

  /** A calendar date as the Photos API takes it, with a one-based month. */
  datatype DateParts = DateParts(year: int, month: int, day: int)

  datatype DateRange = DateRange(startDate: DateParts, endDate: DateParts)

  /** `dateFilter`, whose `ranges` may be missing. */
  datatype DateFilter = DateFilter(ranges: Option<seq<DateRange>>)

  /** `filters`, whose only key is `dateFilter`. */
  datatype Filters = Filters(dateFilter: Option<DateFilter>)

  datatype SearchRequest = SearchRequest(pageSize: int, filters: Option<Filters>, pageToken: Option<string>)

  datatype PhotoInfo = PhotoInfo(cameraMake: Option<string>, cameraModel: Option<string>)

  datatype MediaMetadata = MediaMetadata(creationTime: Option<string>, width: Option<string>,
                                         height: Option<string>, photo: Option<PhotoInfo>)

  datatype MediaItem = MediaItem(id: string, baseUrl: string, productUrl: string, mimeType: string,
                                 filename: string, mediaMetadata: Option<MediaMetadata>)

  /** The search reply. */
  datatype SearchReply = SearchReply(mediaItems: Option<seq<MediaItem>>, nextPageToken: Option<string>)

  /** One photo as the route returns it; a width or height that does not
      parse is `None` (`NaN`). */
  datatype Photo = Photo(id: string, baseUrl: string, productUrl: string, mimeType: string, filename: string,
                         creationTime: Option<string>, width: Option<int>, height: Option<int>,
                         cameraMake: Option<string>, cameraModel: Option<string>)

  datatype PhotoPage = PhotoPage(photos: seq<Photo>, nextPageToken: Option<string>)

  function Parts(d: LocalDate): DateParts {
    DateParts(d.year, d.month0 + 1, d.day)
  }

  /** The search body, as the route assembles it field by field; `date`
      reads a date string. */
  function SearchRequestOf(b: SearchBody, date: string -> LocalDate): SearchRequest {
    var filters :=
      if Truthy(b.startDate) || Truthy(b.endDate) then
        Some(Filters(Some(DateFilter(
          if Truthy(b.startDate) && Truthy(b.endDate)
          then Some([DateRange(Parts(date(b.startDate.value)), Parts(date(b.endDate.value)))])
          else None))))
      else None;
    SearchRequest(b.pageSize.GetOr(DefaultPageSize), filters,
                  if Truthy(b.pageToken) then b.pageToken else None)
  }

  /** The search body: the page size or 50; a `filters` key exactly when a
      start or an end date is given; a range in it exactly when both are,
      with one-based months; the page token exactly when it is non-empty. */
  lemma SearchRequestShape(b: SearchBody, date: string -> LocalDate)
    ensures var r := SearchRequestOf(b, date);
      (b.pageSize.Some? ==> r.pageSize == b.pageSize.value)
      && (b.pageSize.None? ==> r.pageSize == 50)
      && (r.filters.Some? <==> Truthy(b.startDate) || Truthy(b.endDate))
      && (r.filters.Some? ==> r.filters.value.dateFilter.Some?)
      && (r.filters.Some? ==>
            (r.filters.value.dateFilter.value.ranges.Some? <==> Truthy(b.startDate) && Truthy(b.endDate)))
      && (Truthy(b.startDate) && Truthy(b.endDate) ==>
            var ranges := r.filters.value.dateFilter.value.ranges.value;
            var s, e := date(b.startDate.value), date(b.endDate.value);
            |ranges| == 1
            && ranges[0].startDate == DateParts(s.year, s.month0 + 1, s.day)
            && ranges[0].endDate == DateParts(e.year, e.month0 + 1, e.day))
      && (r.pageToken.Some? <==> Truthy(b.pageToken))
      && (r.pageToken.Some? ==> r.pageToken == b.pageToken)
  {
  }

  /** The same body built as the route builds it: an empty `filters`, a
      `dateFilter` given its `ranges` only when both dates are there, then
      the body given `filters` when that has a key and the token when it is
      non-empty. */
  method BuildSearchRequest(b: SearchBody, date: string -> LocalDate) returns (r: SearchRequest)
    ensures r == SearchRequestOf(b, date)
  {
    var filters := Filters(None);
    if Truthy(b.startDate) || Truthy(b.endDate) {
      var dateFilter := DateFilter(None);
      if Truthy(b.startDate) && Truthy(b.endDate) {
        var start := date(b.startDate.value);
        var end := date(b.endDate.value);
        dateFilter := dateFilter.(ranges := Some([DateRange(DateParts(start.year, start.month0 + 1, start.day),
                                                             DateParts(end.year, end.month0 + 1, end.day))]));
      }
      filters := filters.(dateFilter := Some(dateFilter));
    }
    r := SearchRequest(b.pageSize.GetOr(DefaultPageSize), None, None);
    if filters.dateFilter.Some? {
      r := r.(filters := Some(filters));
    }
    if Truthy(b.pageToken) {
      r := r.(pageToken := b.pageToken);
    }
  }

  /** `Number.parseInt(x || "0")` */
  function Dimension(x: Option<string>): (n: Option<int>)
    ensures !Truthy(x) ==> n == Some(0)
    ensures Truthy(x) ==> n == Text.ParseInt(x.value)
  {
    Text.ParseIntNatToString(0);
    Text.ParseInt(OrElse(x, "0"))
  }

  function ToPhoto(item: MediaItem): Photo {
    var m := item.mediaMetadata;
    Photo(item.id, item.baseUrl, item.productUrl, item.mimeType, item.filename,
          if m.Some? then m.value.creationTime else None,
          Dimension(if m.Some? then m.value.width else None),
          Dimension(if m.Some? then m.value.height else None),
          if m.Some? && m.value.photo.Some? then m.value.photo.value.cameraMake else None,
          if m.Some? && m.value.photo.Some? then m.value.photo.value.cameraModel else None)
  }

  /** An item without metadata becomes a 0 by 0 photo with no creation
      time and no camera; the item's own fields are copied unchanged. */
  lemma ToPhotoWithoutMetadata(item: MediaItem)
    requires item.mediaMetadata.None?
    ensures var p := ToPhoto(item);
      p.width == Some(0) && p.height == Some(0) && p.creationTime.None?
      && p.cameraMake.None? && p.cameraModel.None?
      && p.id == item.id && p.baseUrl == item.baseUrl && p.filename == item.filename
  {
  }

  /** The reply to a search call: `parse` reads an error reply's
      `error.message` (`None` when the text is not JSON, which throws). */
  function Respond(reply: Reply<SearchReply>, parse: string -> Option<Option<string>>): Response<PhotoPage> {
    match reply
    case Throws => Refused(500, Failed, None)
    case NotOk(status, text) =>
      (match parse(text)
       case None => Refused(500, Failed, None)
       case Some(message) => Refused(status, OrElse(message, Failed), None))
    case Success(data) =>
      var items := data.mediaItems.GetOr([]);
      Answer(PhotoPage(seq(|items|, i requires 0 <= i < |items| => ToPhoto(items[i])), data.nextPageToken))
  }

  /** After the gate: the body, the search call with the stored token, and
      its reply. */
  function ServeSearch(body: Option<SearchBody>, apiKey: Option<string>, date: string -> LocalDate,
                       search: (SearchRequest, seq<Param>, string) -> Reply<SearchReply>,
                       parse: string -> Option<Option<string>>, token: string): Response<PhotoPage>
  {
    if body.None? then Refused(500, Failed, None)
    else Respond(search(SearchRequestOf(body.value, date), KeyParam(apiKey), token), parse)
  }

  /** An unparsable request body, a failed call and an error reply that is
      not JSON all give 500; an error reply that is JSON keeps its status;
      otherwise every item is listed, in order, with the reply's page token. */
  lemma ServeSearchOutcomes(body: Option<SearchBody>, apiKey: Option<string>, date: string -> LocalDate,
                            search: (SearchRequest, seq<Param>, string) -> Reply<SearchReply>,
                            parse: string -> Option<Option<string>>, token: string)
    ensures var r := ServeSearch(body, apiKey, date, search, parse, token);
      (body.None? ==> r == Refused(500, Failed, None))
      && (r.Refused? ==> r.error != "" && r.details.None?)
      && (body.Some? ==>
            var reply := search(SearchRequestOf(body.value, date), KeyParam(apiKey), token);
            (reply.Throws? ==> r == Refused(500, Failed, None))
            && (reply.NotOk? && parse(reply.body).None? ==> r == Refused(500, Failed, None))
            && (reply.NotOk? && parse(reply.body).Some? ==>
                  r.Refused? && r.status == reply.status
                  && (Truthy(parse(reply.body).value) ==> r.error == parse(reply.body).value.value))
            && (reply.Success? ==>
                  var items := reply.data.mediaItems.GetOr([]);
                  r.Answer? && |r.body.photos| == |items| && r.body.nextPageToken == reply.data.nextPageToken
                  && forall i :: 0 <= i < |items| ==> r.body.photos[i] == ToPhoto(items[i])))
  {
  }

  /** POST /api/photos/search over the older store. */
  function SearchSpec(cookies: map<string, Auth.Cookie>, ctx: Context, rows: seq<UserDoc>,
                      body: Option<SearchBody>, apiKey: Option<string>, date: string -> LocalDate,
                      search: (SearchRequest, seq<Param>, string) -> Reply<SearchReply>,
                      parse: string -> Option<Option<string>>): Response<PhotoPage>
  {
    match LegacyGateSpec(cookies, ctx, rows, Some(Auth.Google))
    case Err(f) => Refuse(f)
    case Ok(u) => ServeSearch(body, apiKey, date, search, parse, u.googleAccessToken.GetOr(""))
  }

  /** The gate refuses with its own status; past it, the search is sent with
      the stored access token as it is (a non-empty one, never refreshed). */
  lemma SearchUsesStoredToken(cookies: map<string, Auth.Cookie>, ctx: Context, rows: seq<UserDoc>,
                              body: Option<SearchBody>, apiKey: Option<string>, date: string -> LocalDate,
                              search: (SearchRequest, seq<Param>, string) -> Reply<SearchReply>,
                              parse: string -> Option<Option<string>>)
    ensures var g := LegacyGateSpec(cookies, ctx, rows, Some(Auth.Google));
      var r := SearchSpec(cookies, ctx, rows, body, apiKey, date, search, parse);
      (g.Err? ==> r == Refuse(g.error) && g.error.status in {401, 403, 404})
      && (g.Ok? ==> g.value.googleConnected && g.value.googleAccessToken.Some?
                    && g.value.googleAccessToken.value != ""
                    && r == ServeSearch(body, apiKey, date, search, parse, g.value.googleAccessToken.value))
  {
    GatesAgree(cookies, ctx, rows, Some(Auth.Google));
    GateOrder(cookies, ctx, rows, Some(Auth.Google));
  }

  /** POST /api/photos/search over a live older store. */
  method SearchPhotos(jar: Auth.CookieJar, ctx: Context, body: Option<SearchBody>, apiKey: Option<string>,
                      date: string -> LocalDate, search: (SearchRequest, seq<Param>, string) -> Reply<SearchReply>,
                      parse: string -> Option<Option<string>>, db: Airtable.LegacyDatabase)
    returns (response: Response<PhotoPage>)
    modifies db`log
    ensures response == SearchSpec(jar.cookies, ctx, db.users, body, apiKey, date, search, parse)
    ensures db.log == old(db.log) + GateOps(jar.cookies, ctx)
  {
    var gate := LegacyAuthorize(jar, ctx, Some(Auth.Google), db);
    if gate.Err? {
      return Refuse(gate.error);
    }
    if body.None? {
      return Refused(500, Failed, None);
    }
    var request := BuildSearchRequest(body.value, date);
    var reply := search(request, KeyParam(apiKey), gate.value.googleAccessToken.GetOr(""));
    response := Respond(reply, parse);
  }
}
