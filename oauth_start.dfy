/** The authorization request of section 4.1.1 of RFC 6749 as the two start
    routes build it (app/api/auth/google/route.ts and
    NeuronNook/app/api/auth/microsoft/route.ts), and the `state` round trip
    the callbacks complete. */
module OAuthStart {
  import opened Wrappers
  import Text
  import Base64

  /** The JSON values the callbacks can meet when they parse `state`. */
  datatype Json = JBool(b: bool) | JString(s: string) | JNull | JObject(members: map<string, Json>) | JOther

  /** `searchParams.get("link") === "true"` */
  function IsLinking(link: Option<string>): (r: bool)
    ensures r <==> link == Some("true")
  {
    link == Some("true")
  }

  /** `JSON.stringify({ link })` */
  function StateJson(link: bool): string {
    if link then "{\"link\":true}" else "{\"link\":false}"
  }

  predicate IsAscii(s: string) {
    forall i :: 0 <= i < |s| ==> (s[i] as int) < 128
  }

  /** `Buffer.from(s)` for text made of ASCII characters, which UTF-8 encodes
      one byte per character. */
  function AsciiBytes(s: string): (b: seq<Base64.byte>)
    requires IsAscii(s)
    ensures |b| == |s|
  {
    seq(|s|, i requires 0 <= i < |s| => (s[i] as int) as bv8)
  }

  /** The `state` parameter: base64 of the JSON text. */
  function StartState(link: bool): string {
    Base64.Encode(AsciiBytes(StateJson(link)))
  }

  /** The callbacks' reading of `state`: linking only when the parameter is
      present and non-empty, its Node base64 decoding (which never fails)
      parses (`parse` is `JSON.parse(buffer.toString())`, `None` when it
      throws) to an object, and that object's `link` is the boolean `true`.
      Every failure means a normal login. */
  function ParseState(state: Option<string>, parse: seq<Base64.byte> -> Option<Json>): (linking: bool)
    ensures linking ==> Truthy(state)
    ensures linking <==> (Truthy(state)
      && parse(Base64.LenientDecode(state.value)).Some?
      && parse(Base64.LenientDecode(state.value)).value.JObject?
      && "link" in parse(Base64.LenientDecode(state.value)).value.members
      && parse(Base64.LenientDecode(state.value)).value.members["link"] == JBool(true))
  {
    if !Truthy(state) then false
    else
      match parse(Base64.LenientDecode(state.value))
      case Some(JObject(m)) => "link" in m && m["link"] == JBool(true)
      case _ => false
  }

  /** A stray character in `state` (a space where a '+' was, say) is skipped
      by the decoder and so changes nothing; the URL-safe alphabet reads as
      the standard one. */
  lemma ParseStateIsLenient(x: string, c: char, y: string, parse: seq<Base64.byte> -> Option<Json>)
    requires c != '=' && !Base64.InAlphabet(Base64.FromUrlChar(c))
    ensures x + y != [] ==> ParseState(Some(x + [c] + y), parse) == ParseState(Some(x + y), parse)
    ensures ParseState(Some(Base64.MapChars(x, Base64.ToUrlChar)), parse) == ParseState(Some(x), parse)
  {
    Base64.LenientSkips(x, c, y);
    assert x + [c] + y != [];
    Base64.LenientReadsUrlSafe(x);
    assert |Base64.MapChars(x, Base64.ToUrlChar)| == |x|;
  }

  /** `JSON.parse` reads the two state texts as the objects they spell. */
  predicate ParsesStateJson(parse: seq<Base64.byte> -> Option<Json>) {
    forall b: bool :: parse(AsciiBytes(StateJson(b))) == Some(JObject(map["link" := JBool(b)]))
  }

  /** Whatever bytes were encoded, the callback decides on the object they
      parse to. */
  lemma ParseStateOfEncoding(bytes: seq<Base64.byte>, b: bool, parse: seq<Base64.byte> -> Option<Json>)
    requires |bytes| > 0
    requires parse(bytes) == Some(JObject(map["link" := JBool(b)]))
    ensures ParseState(Some(Base64.Encode(bytes)), parse) == b
  {
    Base64.LenientRoundTrip(bytes);
    assert |Base64.EncodeUnpadded(bytes)| > 0;
  }

  /** The callback recovers the linking flag the start route put in `state`. */
  lemma StateRoundTrip(link: Option<string>, parse: seq<Base64.byte> -> Option<Json>)
    requires ParsesStateJson(parse)
    ensures ParseState(Some(StartState(IsLinking(link))), parse) == IsLinking(link)
  {
    var b := IsLinking(link);
    var bytes := AsciiBytes(StateJson(b));
    assert parse(bytes) == Some(JObject(map["link" := JBool(b)]));
    ParseStateOfEncoding(bytes, b, parse);
  }

  /** A `link` member that is the string "true", or anything but the
      boolean, does not request linking. */
  lemma OnlyBooleanTrueLinks(state: string, parse: seq<Base64.byte> -> Option<Json>, v: Json)
    requires v != JBool(true)
    requires parse(Base64.LenientDecode(state)) == Some(JObject(map["link" := v]))
    ensures !ParseState(Some(state), parse)
  {
  }

  // ---------------------------------------------------------------------------
  // Authorization URLs

  /** The query parameters the start routes set. */
  datatype ParamName =
    | ClientId | RedirectUriParam | ResponseType | Scope | AccessType | Prompt | State
    | IncludeGrantedScopes | ResponseMode

  /** The parameter's name on the wire. */
  function NameText(n: ParamName): string {
    match n
    case ClientId => "client_id"
    case RedirectUriParam => "redirect_uri"
    case ResponseType => "response_type"
    case Scope => "scope"
    case AccessType => "access_type"
    case Prompt => "prompt"
    case State => "state"
    case IncludeGrantedScopes => "include_granted_scopes"
    case ResponseMode => "response_mode"
  }

  /** A query string as the ordered list of `searchParams.set` calls. */
  type Params = seq<(ParamName, string)>

  /** `searchParams.get(name)`: the first value set under the name. */
  function Lookup(ps: Params, name: ParamName): Option<string>
  {
    if ps == [] then None else if ps[0].0 == name then Some(ps[0].1) else Lookup(ps[1..], name)
  }

  /** A name reads back nothing exactly when it was never set. */
  lemma {:induction false} LookupAbsent(ps: Params, name: ParamName)
    ensures Lookup(ps, name).None? <==> forall i :: 0 <= i < |ps| ==> ps[i].0 != name
  {
    if ps != [] {
      LookupAbsent(ps[1..], name);
      assert forall i :: 1 <= i < |ps| ==> ps[i] == ps[1..][i - 1];
    }
  }

  /** The first entry under a name is the one read back. */
  lemma {:induction false} LookupFirst(ps: Params, i: nat, name: ParamName)
    requires i < |ps| && ps[i].0 == name
    requires forall j :: 0 <= j < i ==> ps[j].0 != name
    ensures Lookup(ps, name) == Some(ps[i].1)
  {
    if i > 0 {
      LookupFirst(ps[1..], i - 1, name);
    }
  }

  /** The parameter names, in the order they are set. */
  function Names(ps: Params): (r: seq<ParamName>)
    ensures |r| == |ps| && forall i :: 0 <= i < |ps| ==> r[i] == ps[i].0
  {
    seq(|ps|, i requires 0 <= i < |ps| => ps[i].0)
  }

  /** A value left `undefined` in a template string reads "undefined". */
  function TemplateText(s: Option<string>): string {
    match s
    case Some(v) => v
    case None => "undefined"
  }

  /** The common prefix of Google's API scopes. The scope texts are written
      as concatenations only so that the verifier checks them piece by piece;
      they spell the same strings. */
  const GoogleApiAuth: string := "https://" + "www.googleapis" + ".com/auth/"

  const GoogleScopes: seq<string> := [
    "openid",
    "email",
    "profile",
    GoogleApiAuth + "gmail" + ".readonly",
    GoogleApiAuth + "drive" + ".readonly",
    GoogleApiAuth + "photoslibrary" + ".readonly",
    GoogleApiAuth + "photoslibrary"]

  const MicrosoftScopes: seq<string> := ["openid", "email", "profile", "offline_access", "User.Read", "Files.Read.All"]

  /** The `scope` parameters: the lists joined with single spaces. */
  const GoogleScope: string := Text.Join(GoogleScopes, ' ')
  const MicrosoftScope: string := Text.Join(MicrosoftScopes, ' ')

  /** The deployment's settings the start routes read. */
  datatype StartEnv = StartEnv(clientId: Option<string>, redirectUri: Option<string>, appUrl: Option<string>)

  /** `X_REDIRECT_URI || `${NEXT_PUBLIC_APP_URL}/api/auth/.../callback`` */
  function RedirectUri(env: StartEnv, callbackPath: string): (r: string)
    ensures Truthy(env.redirectUri) ==> r == env.redirectUri.value
    ensures !Truthy(env.redirectUri) ==> r == TemplateText(env.appUrl) + callbackPath
  {
    OrElse(env.redirectUri, TemplateText(env.appUrl) + callbackPath)
  }

  /** The Google authorization request, in the order the route sets its
      parameters, carrying the given `scope` and `state`. */
  function GoogleAuthParams(env: StartEnv, scope: string, state: string): (ps: Params)
    ensures Lookup(ps, ClientId) == Some(TemplateText(env.clientId))
    ensures Lookup(ps, RedirectUriParam) == Some(RedirectUri(env, "/api/auth/google/callback"))
    ensures Lookup(ps, ResponseType) == Some("code")
    ensures Lookup(ps, Scope) == Some(scope)
    ensures Lookup(ps, AccessType) == Some("offline")
    ensures Lookup(ps, Prompt) == Some("consent")
    ensures Lookup(ps, State) == Some(state)
    ensures Lookup(ps, IncludeGrantedScopes) == Some("true")
  {
    var ps := [
      (ClientId, TemplateText(env.clientId)),
      (RedirectUriParam, RedirectUri(env, "/api/auth/google/callback")),
      (ResponseType, "code"),
      (Scope, scope),
      (AccessType, "offline"),
      (Prompt, "consent"),
      (State, state),
      (IncludeGrantedScopes, "true")];
    LookupFirst(ps, 0, ClientId);
    LookupFirst(ps, 1, RedirectUriParam);
    LookupFirst(ps, 2, ResponseType);
    LookupFirst(ps, 3, Scope);
    LookupFirst(ps, 4, AccessType);
    LookupFirst(ps, 5, Prompt);
    LookupFirst(ps, 6, State);
    LookupFirst(ps, 7, IncludeGrantedScopes);
    ps
  }

  /** The Microsoft authorization request: no `prompt`, no `access_type`. */
  function MicrosoftAuthParams(env: StartEnv, scope: string, state: string): (ps: Params)
    ensures Lookup(ps, ClientId) == Some(TemplateText(env.clientId))
    ensures Lookup(ps, RedirectUriParam) == Some(RedirectUri(env, "/api/auth/microsoft/callback"))
    ensures Lookup(ps, ResponseType) == Some("code")
    ensures Lookup(ps, Scope) == Some(scope)
    ensures Lookup(ps, ResponseMode) == Some("query")
    ensures Lookup(ps, State) == Some(state)
  {
    var ps := [
      (ClientId, TemplateText(env.clientId)),
      (RedirectUriParam, RedirectUri(env, "/api/auth/microsoft/callback")),
      (ResponseType, "code"),
      (Scope, scope),
      (ResponseMode, "query"),
      (State, state)];
    LookupFirst(ps, 0, ClientId);
    LookupFirst(ps, 1, RedirectUriParam);
    LookupFirst(ps, 2, ResponseType);
    LookupFirst(ps, 3, Scope);
    LookupFirst(ps, 4, ResponseMode);
    LookupFirst(ps, 5, State);
    ps
  }

  /** Google's request sets each parameter once, in this order. */
  lemma GoogleParamNames(env: StartEnv, scope: string, state: string)
    ensures Names(GoogleAuthParams(env, scope, state))
      == [ClientId, RedirectUriParam, ResponseType, Scope, AccessType, Prompt, State, IncludeGrantedScopes]
  {
    assert |GoogleAuthParams(env, scope, state)| == 8;
  }

  /** Microsoft's request sets each parameter once and has no `prompt`,
      `access_type` or `include_granted_scopes`. */
  lemma MicrosoftParamNames(env: StartEnv, scope: string, state: string)
    ensures Names(MicrosoftAuthParams(env, scope, state)) == [ClientId, RedirectUriParam, ResponseType, Scope, ResponseMode, State]
    ensures var ms := MicrosoftAuthParams(env, scope, state);
      Lookup(ms, Prompt).None? && Lookup(ms, AccessType).None? && Lookup(ms, IncludeGrantedScopes).None?
  {
    var ms := MicrosoftAuthParams(env, scope, state);
    assert |ms| == 6;
    LookupAbsent(ms, Prompt);
    LookupAbsent(ms, AccessType);
    LookupAbsent(ms, IncludeGrantedScopes);
  }

  /** `GET /api/auth/google`: the authorization request whose `state` carries
      the linking flag. */
  function GoogleStart(env: StartEnv, link: Option<string>): (ps: Params)
    ensures Lookup(ps, Scope) == Some(GoogleScope)
    ensures Lookup(ps, State) == Some(StartState(IsLinking(link)))
  {
    GoogleAuthParams(env, GoogleScope, StartState(IsLinking(link)))
  }

  /** `GET /api/auth/microsoft` */
  function MicrosoftStart(env: StartEnv, link: Option<string>): (ps: Params)
    ensures Lookup(ps, Scope) == Some(MicrosoftScope)
    ensures Lookup(ps, State) == Some(StartState(IsLinking(link)))
  {
    MicrosoftAuthParams(env, MicrosoftScope, StartState(IsLinking(link)))
  }

  /** The callback reads back from the URL's `state` the linking flag the
      start route was asked for. */
  lemma StartRoundTrip(env: StartEnv, link: Option<string>, parse: seq<Base64.byte> -> Option<Json>)
    requires ParsesStateJson(parse)
    ensures ParseState(Lookup(GoogleStart(env, link), State), parse) == IsLinking(link)
    ensures ParseState(Lookup(MicrosoftStart(env, link), State), parse) == IsLinking(link)
  {
    StateRoundTrip(link, parse);
  }

  lemma GoogleScopesHaveNoSpace()
    ensures forall k :: 0 <= k < |GoogleScopes| ==> ' ' !in GoogleScopes[k]
  {
    assert ' ' !in GoogleApiAuth;
  }

  lemma MicrosoftScopesHaveNoSpace()
    ensures forall k :: 0 <= k < |MicrosoftScopes| ==> ' ' !in MicrosoftScopes[k]
  {
  }

  /** The `scope` parameter splits back into exactly the listed scopes. */
  lemma ScopeParamLists()
    ensures Text.Split(GoogleScope, ' ') == GoogleScopes
    ensures Text.Split(MicrosoftScope, ' ') == MicrosoftScopes
  {
    GoogleScopesHaveNoSpace();
    MicrosoftScopesHaveNoSpace();
    Text.SplitJoin(GoogleScopes, ' ');
    Text.SplitJoin(MicrosoftScopes, ' ');
  }
}
