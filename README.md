# NeuronNook sign-in, credential store and protected routes, in Dafny

This project models the server core of NeuronNook, a Next.js dashboard that signs
users in with Google or Microsoft, stores their OAuth tokens, and proxies Gmail,
Google Drive, OneDrive and Google Photos on their behalf. Two generations of the
code live side by side: the current one (`lib/`, `app/`) over a MongoDB user
collection, and the older one under `NeuronNook/` over the same collection with a
narrower update. Both are modelled.

- **Credential stores** (`Db`, `Airtable`). The user collection is a `seq` of
  documents held by a class (`Db.Database`, `Airtable.LegacyDatabase`) whose
  methods reassign it and append every driver call to an operation log. Each
  method is proved equal to a specification function on values (`FindUser`,
  `UpdateUserSpec`, …), and the lemmas beside them state what the store promises:
  which document an id or email finds, when an update inserts, when it fails,
  that ids stay unique.
- **Sessions** (`Auth`). The JWT is symbolic: a token records its claims, the
  signing key and its expiry, so "verifies" means "signed with this key and not
  expired". The cookie store is a class (`Auth.CookieJar`). Token refresh is a
  pure function of the token endpoint's reply.
- **OAuth start and callbacks** (`OAuthStart`, `Callbacks`, `LegacyCallbacks`).
  The start routes build the authorization parameters and the base64 `state`
  (`Base64`); the callbacks decode it, exchange the code, read the profile, then
  either link the provider to the signed-in user or log in (creating the user
  when unknown) and set the session cookie. Each callback is a method over the
  store proved equal to a specification function.
- **The gate and the protected routes** (`Gate`, `GmailList`, `Drive`,
  `OneDrive`, `GmailDelete`, `GmailSend`, `TokenInfo`, `ClearTokens`, `Me`,
  `PhotosSearch`). Every route first checks the session cookie and looks up the
  signed-in user. `Me` and `ClearTokens` stop there: they check no provider
  connection and refresh nothing. The other routes then check the provider
  connection, refresh the access token and store it (all but photo search), and
  call the provider. The provider's pure answer-building is a
  `Serve` function; the route method runs the gate and the refresh against the
  store and returns exactly what the specification says.
- **Categorisation** (`Batching`, `Categorize`, `LegacyCategorize`). Emails and
  files are categorised five at a time with a fallback on failure; the Gemini
  variants extract a JSON object from the model's text and normalise it; the
  dashboard insights compute percentages with `Math.round`.

Every network endpoint, the Gemini model, the JSON parser, the date parser and the
UTF-8 encoder are parameters (oracles): `Reply<T>` is `Success`, `NotOk(status,
body)` or `Throws`. Request time, the signing key, a fresh ObjectId and whether the
driver returns the updated document come in a `Gate.Context`.

## Model

| member | source | states |
|---|---|---|
| Auth.SigningSecret | lib/auth.ts:6 | the configured secret when it is non-empty, otherwise the built-in default; never empty |
| Auth.CreateSession | lib/auth.ts:8-15 | the session token is signed, with the HS256 header |
| Auth.VerifySession | lib/auth.ts:17-24 | a garbled token never verifies; a signed one yields its claims only under its key and before expiry |
| Auth.VerifyCreatedSession | lib/auth.ts:8-24 | a created session verifies under the same key until seven days after creation, with exactly the claims it was made from, and not after |
| Auth.OtherKeyRejects | lib/auth.ts:17-24 | a session never verifies under a key other than the one that signed it |
| Auth.VerifiedWasSigned | lib/auth.ts:17-24 | whatever verifies was signed with the key over exactly the returned claims and is unexpired |
| Auth.SessionCookieOptions | lib/auth.ts:31-38 | httpOnly, sameSite lax, path "/", maxAge 604800; secure exactly in production; domain ".vercel.app" exactly in production |
| Auth.LegacySessionCookieOptions | NeuronNook/lib/auth.ts:31-37 | the same options as the current ones but never a domain |
| Auth.SessionToken | lib/auth.ts:26-29 | no token exactly when the session cookie is missing or empty, otherwise its value |
| Auth.CookieJar.SetSessionCookie | lib/auth.ts:40-48 | the jar holds the session cookie with the token and the current options; every other cookie is unchanged |
| Auth.CookieJar.ClearSessionCookie | lib/auth.ts:50-53 | the session cookie is removed; every other cookie is unchanged |
| Auth.CookieJar.GetSessionToken | lib/auth.ts:26-29 | reads the session token as `SessionToken` of the jar and changes nothing |
| Auth.SetThenGet | lib/auth.ts:26-53 | a token that was set is read back; after clearing, no token is read |
| Auth.RefreshRequest | lib/auth.ts:55-109 | the refresh request posts grant_type refresh_token with the client credentials and the refresh token; only Microsoft sends a scope |
| Auth.RefreshEmptyAsksNothing | lib/auth.ts:55-57 | an empty refresh token gives no token whatever the endpoint would answer |
| Auth.RefreshSoftFails | lib/auth.ts:58-80 | refresh yields a token exactly when the refresh token is non-empty, the endpoint answers 2xx and the answer has an access_token; failures yield none instead of raising |
| Base64.Symbol | app/api/auth/google/route.ts:30 | each 6-bit value maps to an alphabet symbol that decodes back to that value |
| Base64.Chunk | app/api/auth/google/route.ts:30 | one to three bytes encode to one more symbol than there are bytes, all in the alphabet |
| Base64.ChunkRoundTrip | app/api/auth/google/callback/route.ts:28 | decoding the symbols of a chunk gives back its bytes |
| Base64.EncodeUnpadded | app/api/auth/google/route.ts:30 | the unpadded encoding has length ceil(4n/3) and uses only alphabet symbols |
| Base64.UnpaddedRoundTrip | app/api/auth/google/callback/route.ts:28 | decoding the unpadded encoding gives back the bytes |
| Base64.DecodeDropsPadding | app/api/auth/google/callback/route.ts:28 | an alphabet body followed by at most two "=" decodes as the body alone |
| Base64.RoundTrip | app/api/auth/google/callback/route.ts:26-33 | decoding the padded encoding of any byte string gives it back |
| Base64.MapChars | app/api/gmail/assistant/send/route.ts:8-9 | maps every character by the given function and keeps the length |
| Base64.StripTrailingEquals | app/api/gmail/assistant/send/route.ts:10 | removes exactly the trailing run of "=" and nothing else |
| Base64.StripPadding | app/api/gmail/assistant/send/route.ts:5-11 | stripping the "=" run from the mapped padded encoding leaves exactly the mapped unpadded encoding |
| Base64.UrlEncodeAlphabet | app/api/gmail/assistant/send/route.ts:5-11 | every character of the URL-safe encoding is a letter, a digit, "-" or "_" |
| Base64.UrlEncodeLength | app/api/gmail/assistant/send/route.ts:5-11 | the URL-safe encoding has the unpadded length, and with the padding it has the padded length |
| Base64.UrlRoundTrip | app/api/gmail/assistant/send/route.ts:5-11 | mapping the URL-safe encoding back and restoring padding decodes to the original bytes |
| Base64.DecodedLength | app/api/auth/google/callback/route.ts:28 | a successful strict decoding never has a lone character in its last group |
| Base64.DecodeAlphabetic | app/api/auth/google/callback/route.ts:28 | every alphabet text without a lone last character decodes |
| Base64.Canonical | app/api/auth/google/callback/route.ts:28 | the characters the Node decoder keeps are all in the standard alphabet and no more than the input |
| Base64.LenientExtendsStrict | app/api/auth/google/callback/route.ts:28 | wherever the strict decoder succeeds, Node's lenient decoder gives the same bytes |
| Base64.AlphabetOfDecoded | app/api/auth/google/callback/route.ts:28 | text the strict decoder accepts is all in the alphabet |
| Base64.LenientRoundTrip | app/api/auth/google/callback/route.ts:26-33 | Node's decoder reads back any encoding the start route wrote |
| Base64.LenientSkips | app/api/auth/google/callback/route.ts:28 | a character of neither alphabet other than "=" never changes Node's decoding, wherever it stands |
| Base64.CanonicalSkips | app/api/auth/google/callback/route.ts:28 | such a character is dropped from the kept characters wherever it stands |
| Base64.LenientReadsUrlSafe | app/api/auth/google/callback/route.ts:28 | text in the URL-safe alphabet decodes as its standard-alphabet counterpart |
| Base64.CanonicalOfUrlSafe | app/api/auth/google/callback/route.ts:28 | the kept characters of URL-safe text are those of the standard text |
| Text.Lower | app/api/gmail/route.ts:111-112 | lower-casing keeps the length and maps each character by ASCII case |
| Text.SameIgnoringCaseLetters | app/api/gmail/route.ts:111-112 | names of equal length whose characters agree up to ASCII case compare equal ignoring case |
| Text.TrimStart | app/api/gmail/delete/route.ts:34-37 | the result is a suffix of the input that does not start with white space |
| Text.TrimEnd | app/api/gmail/delete/route.ts:34-37 | the result is a prefix of the input that does not end with white space |
| Text.TrimEmptyIffBlank | app/api/gmail/delete/route.ts:34-37 | trimming gives the empty string exactly when the input is all white space |
| Text.TrimOfUnpadded | app/api/gmail/assistant/send/route.ts:42-48 | trimming a string without white space at its ends leaves it unchanged |
| Text.Join | app/api/auth/google/route.ts:23-31 | joining no parts gives the empty string; Split is its inverse (JoinSplit, SplitJoin) |
| Text.Split | app/api/auth/tokeninfo/route.ts:71 | splitting gives at least one part and no part contains the separator |
| Text.JoinSplit | app/api/auth/tokeninfo/route.ts:71 | joining the parts of a split gives back the string |
| Text.SplitJoin | app/api/auth/tokeninfo/route.ts:71 | splitting the join of separator-free parts gives back the parts |
| Text.DigitRun | app/api/drive/route.ts:107 | the result is a prefix of the input made only of (hex) digits |
| Text.NatToString | app/api/gmail/route.ts:51-53 | the decimal rendering is a non-empty string of digits |
| Text.ParseIntNatToString | app/api/drive/route.ts:107 | parseInt reads back every rendered natural number |
| Text.ParseIntNaN | app/api/drive/route.ts:107 | parseInt yields NaN (none) when, after leading white space, the text starts with neither a digit nor a sign |
| Documents.IdText | lib/db.ts:39-48 | the text of a stored id: the hex of an ObjectId or the raw string itself, "" when absent |
| Documents.Apply | lib/db.ts:131-141 | a field the patch does not name keeps its old value; a named field takes the patch value |
| Documents.SetFields | lib/db.ts:131-141 | each field the patch names takes the patch value and every other keeps its value; updatedAt becomes the request time and createdAt is kept |
| Documents.SetEmptyPatch | lib/db.ts:131-141 | an empty patch changes only updatedAt |
| Documents.SetFieldsIdempotent | lib/db.ts:131-141 | applying the same patch twice at the same time equals applying it once |
| Documents.Flag | lib/db.ts:192-207 | a flag reads true exactly when stored as true; a missing flag reads as false |
| Query.FirstMatch | lib/db.ts:60-64 | the index found, if any, is in range |
| Query.FirstMatchSpec | lib/db.ts:60-64 | the first match is the smallest matching index, and none exactly when no document matches |
| Query.FirstMatchPrefix | lib/db.ts:131-141 | appending documents does not change a first match already present |
| Query.SingleClause | lib/db.ts:60-64 | a one-clause filter matches exactly the documents matching that clause |
| Query.FirstMatchSameEmails | lib/db.ts:147-158 | collections that agree on every email agree on the first match by email |
| Query.FirstMatchFinds | lib/db.ts:60-64 | when some document matches, the first match exists and is no later than it |
| Query.SortDescending | lib/db.ts:179-190 | the sorted result is a permutation of the input in descending createdAt order |
| Query.Select | lib/db.ts:179-190 | keeps exactly the categorisations for the user and item type, with their multiplicity |
| Query.SelectNewestFirstSpec | lib/db.ts:179-190 | the result holds exactly the matching categorisations, each as often as stored, newest first |
| Db.UserRecord | lib/db.ts:39-48 | the record's id is the document id's text and its data the document; createdTime is the stored createdAt when set, else the request time |
| Db.CatRecord | lib/db.ts:39-48 | a categorisation record keeps the document and its id text; createdTime falls back to the request time |
| Db.CatRecords | lib/db.ts:179-190 | converts each categorisation in order, same length |
| Db.DbRecordToUser | lib/db.ts:192-207 | connection flags default to false; createdAt and updatedAt fall back to the record's createdTime; tokens and names are copied |
| Db.UntimedUser | lib/db.ts:192-207 | a user stored without timestamps reads with the request time as both createdAt and updatedAt |
| Db.IdFilter | lib/db.ts:116-118 | a valid ObjectId text gives two clauses (ObjectId and raw text), any other text gives one raw-text clause |
| Db.IdFilterMatches | lib/db.ts:66-74 | a document matches the id filter exactly when its id is the raw text or, for valid text, the ObjectId |
| Db.SuppliedEmail | lib/db.ts:120-122 | an email is supplied exactly when the patch sets a non-empty email |
| Db.UpdateFilter | lib/db.ts:116-122 | the update filter has a single clause exactly when the id is not a valid ObjectId and the patch supplies no email |
| Db.UpdateFilterMatches | lib/db.ts:116-122 | a document matches the update filter exactly when it matches the id filter or has the supplied email |
| Db.FindByEmailSpec | lib/db.ts:60-64 | the record found is the first user with the email; none exactly when no user has it |
| Db.FindByIdSpec | lib/db.ts:66-74 | the record found is the first user whose id matches the raw or ObjectId form; none exactly when no user does |
| Db.NewUserDoc | lib/db.ts:89-95 | a new user keeps the supplied fields, gets the fresh ObjectId and createdAt == updatedAt == the request time |
| Db.UpdateChangesOnlyMatch | lib/db.ts:131-141 | an update that finds a document rewrites only that document, with the patch applied |
| Db.UpdateTargets | lib/db.ts:116-141 | without an email in the patch only the document under that id is ever written |
| Db.UpsertInserts | lib/db.ts:126-141 | when nothing matches, one document is appended; it is stored under the raw id exactly when the id is invalid and no email is supplied, else under the fresh ObjectId |
| Db.UpdateFailure | lib/db.ts:147-158 | the update errs with "Failed to update user with id: " and the id exactly when the driver returns no document and the re-read finds nothing; the write has happened anyway |
| Db.UpdateExistingById | lib/db.ts:101-161 | updating an existing user by its own id rewrites that user and returns it |
| Db.UpsertKeepsOthersFresh | lib/db.ts:126-141 | an upsert leaves every other document as it was |
| Db.UpsertKeepsIdsUnique | lib/db.ts:126-141 | the upsert keeps every document id distinct when the fresh ObjectId is unused |
| Db.NewCatDoc | lib/db.ts:163-177 | a saved categorisation gets the fresh ObjectId, the given fields and createdAt == the request time |
| Db.Database.constructor | lib/db.ts:60-64 | an empty collection and log over the given ObjectId validity test |
| Db.Database.FindUserByEmail | lib/db.ts:60-64 | returns FindByEmailSpec, logs one query, leaves the users unchanged |
| Db.Database.FindUserById | lib/db.ts:66-74 | returns the first user under the id filter, logs that query, leaves the users unchanged |
| Db.Database.CreateUser | lib/db.ts:76-99 | appends NewUserDoc and returns its record |
| Db.Database.UpdateUser | lib/db.ts:101-161 | the users and the result are those of the update specification; the log gains the upsert and the re-read |
| Db.Database.SaveCategorization | lib/db.ts:163-177 | appends NewCatDoc and returns its record |
| Db.Database.GetCategorizations | lib/db.ts:179-190 | returns the user's categorisations of that type newest first, changes nothing |
| Db.CreateThenFindById | lib/db.ts:76-99 | a created user is found again by the returned id |
| Airtable.AsPatch | NeuronNook/lib/airtable.ts:96-107 | the older update's fields become a patch that never names the email |
| Airtable.UserRecord | NeuronNook/lib/airtable.ts:37-46 | the record's id is the document id's text and its data the stored fields; createdTime falls back to the request time |
| Airtable.CatRecord | NeuronNook/lib/airtable.ts:37-46 | a categorisation record keeps the document's id text and fields; createdTime falls back to the request time |
| Airtable.CatRecords | NeuronNook/lib/airtable.ts:147-155 | converts each categorisation in order, same length |
| Airtable.AirtableRecordToUser | NeuronNook/lib/airtable.ts:157-172 | connection flags default to false; timestamps fall back to createdTime |
| Airtable.SameUserAsCurrentStore | NeuronNook/lib/airtable.ts:157-172 | the older conversion equals the current one on every record |
| Airtable.IdFilter | NeuronNook/lib/airtable.ts:64-69 | a single clause: the ObjectId for valid text, the raw text otherwise |
| Airtable.RawIdOfValidTextNotFound | NeuronNook/lib/airtable.ts:64-69 | a document stored under the raw text of a valid ObjectId is not found by that text |
| Airtable.UpdateNeverInserts | NeuronNook/lib/airtable.ts:96-128 | the older update never adds a document; it rewrites the first document with the id or nothing; it succeeds exactly when the driver wraps its reply and some document has the id; with a bare-document reply it fails with "Failed to update user" after writing, and with a missed id it fails without writing |
| Airtable.UpdateKeepsEmails | NeuronNook/lib/airtable.ts:96-129 | the older update never changes any stored email, whatever the driver's reply shape |
| Airtable.LegacyDatabase.constructor | NeuronNook/lib/airtable.ts:58-62 | an empty collection and log over the given ObjectId validity test |
| Airtable.LegacyDatabase.FindUserByEmail | NeuronNook/lib/airtable.ts:58-62 | the first user with the email, none when there is none |
| Airtable.LegacyDatabase.FindUserById | NeuronNook/lib/airtable.ts:64-69 | the first user under the single-clause id filter |
| Airtable.LegacyDatabase.CreateUser | NeuronNook/lib/airtable.ts:71-94 | appends a new user document and returns its record |
| Airtable.LegacyDatabase.UpdateUser | NeuronNook/lib/airtable.ts:96-129 | the users and result are those of the older update specification for the given reply shape, and one `findOneAndUpdate` is logged |
| Airtable.LegacyDatabase.SaveCategorization | NeuronNook/lib/airtable.ts:131-145 | appends a new categorisation and returns its record |
| Airtable.LegacyDatabase.GetCategorizations | NeuronNook/lib/airtable.ts:147-155 | the user's categorisations of that type newest first, nothing changed |
| OAuthStart.IsLinking | app/api/auth/google/route.ts:19 | linking exactly when the link query parameter is "true" |
| OAuthStart.AsciiBytes | app/api/auth/google/route.ts:21 | the bytes of ASCII text, one per character |
| OAuthStart.ParseState | app/api/auth/google/callback/route.ts:25-33 | linking exactly when the state is present and non-empty, its lenient base64 decoding parses to an object, and that object's link field is the boolean true |
| OAuthStart.ParseStateIsLenient | app/api/auth/google/callback/route.ts:28 | a stray character in a non-empty state, and the URL-safe alphabet, leave the linking decision unchanged |
| OAuthStart.ParseStateOfEncoding | app/api/auth/google/callback/route.ts:25-33 | a non-empty byte string parsing to `{link: b}`, once encoded, makes the callback decide `b` |
| OAuthStart.StateRoundTrip | app/api/auth/google/callback/route.ts:25-33 | the callback recovers the linking flag the start route encoded |
| OAuthStart.OnlyBooleanTrueLinks | app/api/auth/google/callback/route.ts:25-33 | a link field other than the boolean true does not link |
| OAuthStart.Names | app/api/auth/google/route.ts:23-31 | the parameter names in order |
| OAuthStart.RedirectUri | app/api/auth/google/route.ts:4-5 | the configured redirect URI when set, else the app URL (or "undefined") followed by the callback path |
| OAuthStart.GoogleAuthParams | app/api/auth/google/route.ts:23-31 | the eight Google parameters, each read back with its value, the state being the base64 of the linking JSON |
| OAuthStart.MicrosoftAuthParams | NeuronNook/app/api/auth/microsoft/route.ts:15-21 | the six Microsoft parameters; no prompt, access_type or include_granted_scopes |
| OAuthStart.GoogleParamNames | app/api/auth/google/route.ts:23-31 | the eight Google parameters appear in the route's order |
| OAuthStart.MicrosoftParamNames | NeuronNook/app/api/auth/microsoft/route.ts:15-21 | the six Microsoft parameters appear in the route's order, without prompt, access_type or include_granted_scopes |
| OAuthStart.GoogleStart | app/api/auth/google/route.ts:17-38 | the scope parameter is the space-joined Google scopes and the state is the base64 of the linking JSON |
| OAuthStart.MicrosoftStart | NeuronNook/app/api/auth/microsoft/route.ts:9-24 | the scope parameter is the space-joined Microsoft scopes and the state is the base64 of the linking JSON |
| OAuthStart.StartRoundTrip | app/api/auth/google/callback/route.ts:25-33 | for both providers the callback reads back exactly the linking flag the start route was given |
| OAuthStart.GoogleScopesHaveNoSpace | app/api/auth/google/route.ts:7-15 | no Google scope contains a space |
| OAuthStart.MicrosoftScopesHaveNoSpace | NeuronNook/app/api/auth/microsoft/route.ts:7 | no Microsoft scope contains a space |
| OAuthStart.ScopeParamLists | app/api/auth/google/route.ts:23-31 | the scope parameter splits back into the scope list |
| Gate.ErrorMessage | app/api/gmail/route.ts:70-85 | non-empty: the fallback, the parsed error message, or the raw body when it does not parse |
| Gate.GateOrder | app/api/gmail/route.ts:6-25 | 401 "Not authenticated" without a token; 401 "Invalid session" when it does not verify; 404 exactly when no user has the email; 403 only for a missing connection; a user let through is connected with a truthy access token |
| Gate.GatesAgree | NeuronNook/app/api/photos/search/route.ts:6-25 | the older gate answers exactly as the current one |
| Gate.RefreshNeverFails | app/api/gmail/route.ts:27-47 | refresh-before-use always yields a token: the new one, or the stored one when refresh fails |
| Gate.RefreshWritesOnlyToken | app/api/gmail/route.ts:27-47 | a successful refresh writes only the provider's access token of that user; a failed one writes nothing |
| Gate.RefusedBeforeServing | app/api/gmail/route.ts:6-25 | a refused request never reaches the refresh or the provider and writes nothing |
| Gate.Authorize | app/api/gmail/route.ts:6-25 | returns the gate specification's verdict and logs only the gate's lookup |
| Gate.LegacyAuthorize | NeuronNook/app/api/photos/search/route.ts:6-25 | the same over the older store |
| Gate.RefreshBeforeUse | app/api/gmail/route.ts:27-47 | the token, users and log are those of the refresh specification |
| Gate.Handle | app/api/gmail/route.ts:6-137 | gate, refresh and serve: response, users and log are those of the route specification |
| GmailList.ListParamsDefaults | app/api/gmail/route.ts:51-64 | maxResults defaults to "50"; pageToken only when truthy; key only when truthy |
| GmailList.GetHeaderAbsent | app/api/gmail/route.ts:111-112 | a header no entry names reads as "" |
| GmailList.GetHeaderFirst | app/api/gmail/route.ts:111-112 | the value of the first entry whose name matches |
| GmailList.GetHeaderCaseInsensitive | app/api/gmail/route.ts:111-112 | header lookup ignores the case of the name |
| GmailList.SummaryReadFlag | app/api/gmail/route.ts:114-124 | a message is read exactly when its labels lack UNREAD; labels are copied |
| GmailList.Collect | app/api/gmail/route.ts:91-127 | none exactly when some detail call throws; otherwise the summaries of the successful calls, failed ones dropped |
| GmailList.CollectKeepsOrder | app/api/gmail/route.ts:127 | the kept summaries appear in listing order |
| GmailList.ServeEmailsOutcomes | app/api/gmail/route.ts:57-137 | a throwing list call gives 500; a failed one keeps its status with a non-empty message; on success the route answers exactly when no detail call throws, with at most one summary per listed id and the next page token |
| GmailList.ListEmails | app/api/gmail/route.ts:5-138 | the route's response, users and log are those of the specification |
| Drive.ListParamsDefaults | app/api/drive/route.ts:54-68 | pageSize defaults to "50", ordered by modifiedTime descending; pageToken only when truthy |
| Drive.ToEntryCopies | app/api/drive/route.ts:93-113 | each entry copies the file's fields and parses its size |
| Drive.ServeFilesOutcomes | app/api/drive/route.ts:59-122 | a throw gives 500, a failure keeps its status with a non-empty message, success gives the next page token and exactly the listed files converted by `ToEntry`, in order |
| Drive.ListFiles | app/api/drive/route.ts:5-123 | the route's response, users and log are those of the specification |
| OneDrive.ListParamsDefaults | app/api/onedrive/route.ts:49-58 | $top defaults to "50"; $skiptoken only when truthy |
| OneDrive.MimeType | app/api/onedrive/route.ts:97 | non-empty: "folder" for an item without a file facet, else the file's MIME type when set |
| OneDrive.NextSkipToken | app/api/onedrive/route.ts:101-106 | no next link gives the empty token; a next link that cannot be read gives none; otherwise its $skiptoken |
| OneDrive.SkipTokenRoundTrip | app/api/onedrive/route.ts:101-106 | a next link built from a token gives that token back |
| OneDrive.ServeItemsOutcomes | app/api/onedrive/route.ts:54-115 | a throw gives 500, a failure keeps its status, success answers exactly when the next link can be read, one entry per item |
| OneDrive.ListItems | app/api/onedrive/route.ts:5-116 | the route's response, users and log are those of the specification |
| GmailDelete.Precheck | app/api/gmail/delete/route.ts:27-37 | 400 exactly when the body fails to parse or the trimmed id is empty; otherwise the trimmed id |
| GmailDelete.BlankIdRefused | app/api/gmail/delete/route.ts:34-37 | an id of white space only is refused with 400 |
| GmailDelete.ServeDelete | app/api/gmail/delete/route.ts:57-83 | a non-2xx answer gives "Failed to delete email" with its status, a throw 500, success deleted true |
| GmailDelete.BadBodyBeforeRefresh | app/api/gmail/delete/route.ts:27-39 | a bad body is refused before any refresh and writes nothing |
| GmailDelete.DeleteUsesRefreshedToken | app/api/gmail/delete/route.ts:39-71 | the delete call carries the refreshed token |
| GmailDelete.DeleteEmail | app/api/gmail/delete/route.ts:5-84 | the route's response, users and log are those of the specification |
| GmailSend.Precheck | app/api/gmail/assistant/send/route.ts:35-48 | 400 exactly when the body fails to parse or a trimmed required field is empty |
| GmailSend.MessageRoundTrip | app/api/gmail/assistant/send/route.ts:68-74 | parsing the raw message gives back recipient, subject and body when the first two have no carriage return |
| GmailSend.RawFieldDecodes | app/api/gmail/assistant/send/route.ts:89 | the raw field is URL-safe and decodes back to the message bytes once padding is restored |
| GmailSend.ServeSend | app/api/gmail/assistant/send/route.ts:76-103 | a non-2xx answer gives "Failed to send email" with its status, a throw 500, success the message id |
| GmailSend.BadBodyBeforeRefresh | app/api/gmail/assistant/send/route.ts:35-50 | a bad body is refused before any refresh and writes nothing |
| GmailSend.SendEmail | app/api/gmail/assistant/send/route.ts:13-104 | the route's response, users and log are those of the specification |
| TokenInfo.Scopes | app/api/auth/tokeninfo/route.ts:71 | the scopes join back to the scope string and contain no spaces |
| TokenInfo.AnalysisFlags | app/api/auth/tokeninfo/route.ts:74-93 | each flag holds exactly when its scope is granted; the verdict is positive exactly when either Photos scope is |
| TokenInfo.RequestedScopesPass | app/api/auth/tokeninfo/route.ts:74-93 | a token granted the start route's scopes has seven scopes, every flag set and a positive verdict |
| TokenInfo.ServeTokenInfo | app/api/auth/tokeninfo/route.ts:53-104 | a failed check passes its status and details on; a throw gives 500 "Error checking token" |
| TokenInfo.CheckToken | app/api/auth/tokeninfo/route.ts:9-105 | the route's response, users and log are those of the specification |
| ClearTokens.RefusedWritesNothing | app/api/auth/clear-tokens/route.ts:10-23 | a refusal is 401 or 404 and writes nothing |
| ClearTokens.ClearedFields | app/api/auth/clear-tokens/route.ts:26-38 | all four tokens are cleared, both connections false, every other field kept |
| ClearTokens.ClearsFoundUser | app/api/auth/clear-tokens/route.ts:26-43 | a signed-in user found by email ends with the cleared fields and the success message |
| ClearTokens.ClearsStoredUser | app/api/auth/clear-tokens/route.ts:26-43 | the same, stated on the stored document found by the session's email |
| ClearTokens.ClearUser | app/api/auth/clear-tokens/route.ts:26-52 | the two updates of the found user: response, users and log are those of the specification |
| ClearTokens.ClearTokens | app/api/auth/clear-tokens/route.ts:9-53 | the route's response, users and log are those of the specification |
| Me.SafeUser | app/api/auth/me/route.ts:27-33 | the four tokens are hidden, every other field equals the user's |
| Me.MeOutcomes | app/api/auth/me/route.ts:5-36 | 401 without or with a bad session, 404 for an unknown email, else the safe user |
| Me.MeIgnoresUserId | app/api/auth/me/route.ts:18 | the user is looked up by the session's email, whatever its user id claim says |
| Me.MeStripsOnlyTokens | app/api/auth/me/route.ts:24-35 | the answer differs from the stored user only in the tokens |
| PhotosSearch.SearchRequestShape | NeuronNook/app/api/photos/search/route.ts:45-86 | pageSize 50 when absent; a date filter exactly when a start or end date is given, with one range (months counted from 1) only when both are; pageToken only when truthy |
| PhotosSearch.BuildSearchRequest | NeuronNook/app/api/photos/search/route.ts:30-86 | builds the request of SearchRequestShape |
| PhotosSearch.Dimension | NeuronNook/app/api/photos/search/route.ts:135-136 | a missing dimension is 0, otherwise its parseInt |
| PhotosSearch.ToPhotoWithoutMetadata | NeuronNook/app/api/photos/search/route.ts:112-140 | an item without metadata gets width and height 0, no creation time or camera, and keeps its id, URL and file name |
| PhotosSearch.ServeSearchOutcomes | NeuronNook/app/api/photos/search/route.ts:93-149 | an unparsable body gives 500; a non-JSON error 500; a JSON error keeps its status; success maps the items |
| PhotosSearch.SearchUsesStoredToken | NeuronNook/app/api/photos/search/route.ts:93-100 | the stored token is used and never refreshed; refusals are 401, 403 or 404 |
| PhotosSearch.SearchPhotos | NeuronNook/app/api/photos/search/route.ts:26-150 | the response is the specification's and the log holds only the gate's lookup |
| Callbacks.IdentityEmail | app/api/auth/microsoft/callback/route.ts:63 | Microsoft's email is mail, else userPrincipalName; Google's is email |
| Callbacks.PatchFields | app/api/auth/google/callback/route.ts:103-146 | link and login patches never write the email; a Google login adds the picture |
| Callbacks.NewUserFor | app/api/auth/google/callback/route.ts:124-131 | the new user's email is the profile's identity email |
| Callbacks.NewUserFields | app/api/auth/microsoft/callback/route.ts:91-97 | a new user is connected to its provider only; Microsoft gives no image and takes the display name |
| Callbacks.SignIn | app/api/auth/google/callback/route.ts:160-174 | redirects to "/dashboard" with the session cookie, secure and without a domain |
| Callbacks.SignInSession | app/api/auth/google/callback/route.ts:160-162 | the cookie's token verifies for the user's id and email until seven days later |
| Callbacks.Link | app/api/auth/google/callback/route.ts:90-113 | the linking branch: response, users and log are those of its specification |
| Callbacks.LinkUser | app/api/auth/google/callback/route.ts:103-110 | updates the first user with the session's email with the provider fields |
| Callbacks.Login | app/api/auth/google/callback/route.ts:117-175 | the login branch: response, users and log are those of its specification |
| Callbacks.Enrol | app/api/auth/google/callback/route.ts:124-131 | creates the new user as its specification says |
| Callbacks.RefreshUser | app/api/auth/google/callback/route.ts:141-146 | updates the known user as its specification says |
| Callbacks.Callback | app/api/auth/google/callback/route.ts:10-183 | response, users and log are those of the callback specification; the cookies set are the response's |
| Callbacks.NoCodeFirst | app/api/auth/google/callback/route.ts:15-21 | without a code the answer is no_code, no endpoint is consulted and the store is untouched |
| Callbacks.ProviderFailuresTouchNothing | app/api/auth/google/callback/route.ts:36-85 | a non-2xx exchange or profile gives token_exchange_failed or user_info_failed, a throw the provider's callback_failed; nothing is written |
| Callbacks.LinkingSetsNoCookie | app/api/auth/google/callback/route.ts:90-113 | linking sets no cookie, ignores the profile email, and without a valid session answers not_authenticated or invalid_session |
| Callbacks.CallbackAlwaysRedirects | app/api/auth/google/callback/route.ts:10-183 | every outcome is a redirect |
| Callbacks.LinkWithoutUserWritesNothing | app/api/auth/google/callback/route.ts:103-110 | linking when no user has the session's email writes nothing |
| Callbacks.LinkWritesSessionUser | app/api/auth/google/callback/route.ts:103-112 | linking writes exactly the provider fields to the first user with the session's email |
| Callbacks.LoginCreatesUnknown | app/api/auth/google/callback/route.ts:117-175 | an unknown email appends the new user and the cookie verifies for the fresh id and the profile email for seven days |
| Callbacks.LoginUpdatesKnown | app/api/auth/google/callback/route.ts:117-175 | a known email updates that user with the login patch, keeps its email, and the cookie verifies for its id and email |
| Callbacks.FirstEmailMatch | app/api/auth/google/callback/route.ts:117-120 | the user logged in is the first with the profile email |
| LegacyCallbacks.LegacyPatchesAgree | NeuronNook/app/api/auth/google/callback/route.ts:70-102 | the older callbacks write the same fields as the current ones |
| LegacyCallbacks.LegacySignIn | NeuronNook/app/api/auth/google/callback/route.ts:106-110 | redirects with the session cookie under the older options |
| LegacyCallbacks.LegacySignInSession | NeuronNook/app/api/auth/google/callback/route.ts:107 | the session verifies for the user's id and email |
| LegacyCallbacks.LegacyLinkUser | NeuronNook/app/api/auth/google/callback/route.ts:57-80 | updates the session's user with the provider fields through the older store |
| LegacyCallbacks.LegacyEnrol | NeuronNook/app/api/auth/google/callback/route.ts:87-94 | creates the new user through the older store |
| LegacyCallbacks.LegacyRefresh | NeuronNook/app/api/auth/google/callback/route.ts:97-102 | updates the known user through the older store |
| LegacyCallbacks.LegacyLogin | NeuronNook/app/api/auth/google/callback/route.ts:83-110 | the login branch as its specification says |
| LegacyCallbacks.LegacyCallback | NeuronNook/app/api/auth/google/callback/route.ts:10-111 | response, users and log are those of the older callback specification |
| LegacyCallbacks.LegacyEarlyExits | NeuronNook/app/api/auth/google/callback/route.ts:15-53 | a missing code redirects; an endpoint that throws escapes the handler |
| LegacyCallbacks.LegacyLinkingSetsNoCookie | NeuronNook/app/api/auth/google/callback/route.ts:57-80 | linking sets no cookie |
| LegacyCallbacks.LegacyLoginRaisesOnlyOnFailedUpdate | NeuronNook/app/api/auth/google/callback/route.ts:83-110 | for either reply shape, a login raises exactly when the user is known and its update by id fails; the re-read by email always finds the user |
| LegacyCallbacks.LegacyLoginRaisesOnRawObjectIdText | NeuronNook/app/api/auth/google/callback/route.ts:97-102 | a user stored under the raw text of a valid ObjectId cannot log in and is left unchanged |
| LegacyCallbacks.LegacyBareReplyRaises | NeuronNook/app/api/auth/google/callback/route.ts:57-110 | when the driver returns bare documents, a login raises exactly when the email is known and a link raises exactly when the session's user exists, each after writing the provider fields |
| Batching.Outcome | NeuronNook/lib/ai-categorize.ts:54-69 | the categoriser's result, or the "personal" fallback at confidence 0.5 when it fails |
| Batching.ResultsKeys | NeuronNook/lib/ai-categorize.ts:71-74 | the result map has exactly the items' ids as keys |
| Batching.ResultsLastWins | NeuronNook/lib/ai-categorize.ts:71-74 | for a repeated id the last item's outcome is kept |
| Batching.CategorizeInBatches | NeuronNook/lib/ai-categorize.ts:45-78 | processing in batches of five gives the map of every item's outcome |
| LegacyCategorize.CategorizeEmails | NeuronNook/lib/ai-categorize.ts:45-78 | the map of every email's outcome, failures as "personal" |
| LegacyCategorize.CategorizeFiles | NeuronNook/lib/ai-categorize.ts:103-135 | the map of every file's outcome |
| LegacyCategorize.FailedFileIsPersonal | NeuronNook/lib/ai-categorize.ts:103-135 | a file whose categorisation fails is "personal" at confidence 0.5 |
| Categorize.CategorizeEmails | lib/ai-categorize.ts:49-82 | the map of every email's outcome, failures as "personal" |
| Categorize.CategorizeFiles | lib/ai-categorize.ts:107-139 | the map of every file's outcome |
| Categorize.JsonSpan | lib/ai-categorize.ts:175-180 | the span runs from the first "{" to the last "}" |
| Categorize.JsonSpanOf | lib/ai-categorize.ts:175-180 | a text that is one JSON object gives itself |
| Categorize.JsonSpanNone | lib/ai-categorize.ts:176-178 | no span exactly when there is no "{" followed later by a "}" |
| Categorize.ClampConfidence | lib/ai-categorize.ts:184 | the confidence lies in [0, 1]; missing or zero becomes 0.5; others are clamped |
| Categorize.Normalize | lib/ai-categorize.ts:182-186 | category copied, confidence the model's clamped into [0, 1], 0.5 when missing or zero, reasoning the model's when non-empty else the default |
| Categorize.GeminiJson | lib/ai-categorize.ts:172-180 | a result exactly when the model answers and the span from the reply's first "{" to its last "}" parses, and then that parse |
| Categorize.GeminiEmail | lib/ai-categorize.ts:142-191 | without a key it throws; with a key it answers exactly when the reply's JSON is read, and then with that JSON normalised |
| Categorize.GeminiFile | lib/ai-categorize.ts:228-278 | it answers exactly when a key is set; a reply whose JSON cannot be read gives the Gemini fallback, otherwise the JSON normalised |
| Categorize.GeminiVariantsAgree | lib/ai-categorize.ts:228-278 | after the fallback the email and file variants give the same result; without a key both fail; a result has confidence in [0, 1] and non-empty reasoning |
| Categorize.CategorizeEmailsWithGemini | lib/ai-categorize.ts:193-226 | the map of every email's Gemini outcome |
| Categorize.CategorizeFilesWithGemini | lib/ai-categorize.ts:280-312 | the map of every file's Gemini outcome |
| Categorize.NoKeyFallsBack | lib/ai-categorize.ts:147-149 | without a key the results have exactly the emails' ids as keys, and every one maps to the Gemini fallback |
| Categorize.CountCategory | lib/ai-categorize.ts:341-346 | at most the number of items; equal to it exactly when every item has the category, zero exactly when none has |
| Categorize.CountsDisjoint | lib/ai-categorize.ts:341-346 | the three category counts add up to at most the number of items |
| Categorize.Percentage | lib/ai-categorize.ts:348-349 | 0 when there are no items, else 100·count/total rounded half up |
| Categorize.PercentageAtMost100 | lib/ai-categorize.ts:348-349 | a share of at most the total is at most 100 |
| Categorize.PercentagesAtMost101 | lib/ai-categorize.ts:348-355 | two rounded shares of disjoint counts add up to at most 101 |
| Categorize.PercentagesMayReach101 | lib/ai-categorize.ts:355 | shares of 1/8 and 7/8 round to 13 and 88, so the prompt's third share is -1 |
| Categorize.MetricsBounds | lib/ai-categorize.ts:341-349 | every metric lies within its bounds |
| Categorize.InsightsOutcomes | lib/ai-categorize.ts:328-401 | an error exactly when no key is set; otherwise the metrics come from the items, and an unusable reply gives "Analytics unavailable" and "Please try again later" |

## Left out

- Network calls (token endpoints, Google, Microsoft Graph, Gmail, Drive, OneDrive, Photos, Gemini) are oracles of type `Reply<T>`; request bodies and URLs are modelled as parameter lists, not as encoded strings.
- JWT cryptography is symbolic: a token records its key; HMAC, the header encoding and clock skew are not modelled.
- JSON parsing, date parsing and UTF-8 encoding are oracles.
- console logging and the tokeninfo diagnostic call inside the Google callback are left out; they do not affect any answer.
- Concurrency is not modelled: `Promise.all` is taken in batch order, and one request runs against the store at a time.
- MongoDB's refusal of an upsert whose `$set` and `$setOnInsert` both name `email` is not modelled; the upsert applies both.
- Driver faults on writes are not modelled; the clear-tokens 500 arises only from a failed update's re-read.
- One request time (`now`) and one fresh ObjectId are used per request; clear-tokens writes both updates at the same time and takes a second fresh ObjectId for its second update.
- ClearTokens.ClearTokens: the session cookie is left as it is, as the route does.
- PhotosSearch.SearchRequestShape: invalid dates (NaN fields) and `pageSize: null` are not distinguished; a non-object error body counts as unparsable and `message` is taken to be a string.
- Categorize.Percentage: floating point is modelled as exact rationals, with `Math.round` as round-half-up.
- Categorize.Normalize: a non-numeric confidence is treated as missing.
- The prompt texts and the Gemini model names are not modelled.
- GmailSend.MessageRoundTrip: holds only when recipient and subject contain no carriage return; trimming removes white space only at the ends, so such values reach the headers.
- Base64.LenientDecode: a UTF-16 unit above U+00FF in `state` is skipped; Node's byte-level handling of such units is not modelled.
- Db.IdFilter: an ObjectId is compared as its hex text, where MongoDB compares the twelve bytes; upper-case hex, the only case where the two differ, never reaches the filter because ids come from `_id.toString()`.
- Batching.CategorizeInBatches: the result is a `map`, so the JavaScript `Map`'s insertion order is not kept, and neither is the key order of the JSON object the categorise routes build from it.
- Text.Lower: lower-cases ASCII letters only; `toLowerCase` also maps non-ASCII letters, so a query or subject outside ASCII may match differently.
- GmailDelete.Precheck: a parsed body is taken to be an object whose `emailId` is a string or absent; a `null` body or a truthy non-string `emailId` makes the route throw outside its `try` (an unhandled 500), which the model does not represent.
- GmailSend.Precheck: likewise, a `null` body or a truthy non-string `to`, `subject` or `body` throws outside the `try` (an unhandled 500) and is not represented.
- The thin LLM and proxy routes, lib/mongodb.ts and the categorise and photo routes outside those listed above are not part of this model.
