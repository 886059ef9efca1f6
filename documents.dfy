/** The documents of the `users` and `categorizations` collections, the
    records handed to callers, and the `User` value of the session layer.
    A field that is stored as `null`, stored as `undefined` or missing is
    `None`: every reader treats the three alike. */
module Documents {
  import opened Wrappers

  /** A document `_id`: an ObjectId (identified by the hex text it was built
      from) or a plain string. */
  datatype DocId = Oid(hex: string) | Raw(text: string)

  /** `(_id || "").toString()` */
  function IdText(id: Option<DocId>): (t: string)
    ensures id.None? ==> t == ""
    ensures id.Some? && id.value.Oid? ==> t == id.value.hex
    ensures id.Some? && id.value.Raw? ==> t == id.value.text
  {
    match id
    case None => ""
    case Some(Oid(h)) => h
    case Some(Raw(s)) => s
  }

  datatype UserFields = UserFields(
    email: Option<string>,
    name: Option<string>,
    image: Option<string>,
    googleConnected: Option<bool>,
    microsoftConnected: Option<bool>,
    googleAccessToken: Option<string>,
    googleRefreshToken: Option<string>,
    microsoftAccessToken: Option<string>,
    microsoftRefreshToken: Option<string>,
    createdAt: Option<string>,
    updatedAt: Option<string>)

  datatype UserDoc = UserDoc(id: DocId, fields: UserFields)

  /** A stored categorisation; `itemType` is one of "email", "drive",
      "photo", "onedrive" when written through the typed API. */
  datatype CatDoc = CatDoc(
    id: DocId,
    userId: string,
    itemId: string,
    itemType: string,
    category: string,
    confidence: real,
    reasoning: Option<string>,
    createdAt: Option<string>)

  /** `DbRecord<T>` of the current store and `AirtableRecord` of the older
      one: the id as text, the document (or its fields), and a creation time. */
  datatype Record<T> = Record(id: string, data: T, createdTime: string)

  /** The session layer's `User`. */
  datatype User = User(
    id: string,
    email: Option<string>,
    name: Option<string>,
    image: Option<string>,
    googleConnected: bool,
    microsoftConnected: bool,
    googleAccessToken: Option<string>,
    googleRefreshToken: Option<string>,
    microsoftAccessToken: Option<string>,
    microsoftRefreshToken: Option<string>,
    createdAt: string,
    updatedAt: string)

  /** The argument of `createUser`. */
  datatype NewUser = NewUser(
    email: Option<string>,
    name: Option<string>,
    image: Option<string>,
    googleConnected: Option<bool>,
    microsoftConnected: Option<bool>,
    googleAccessToken: Option<string>,
    googleRefreshToken: Option<string>,
    microsoftAccessToken: Option<string>,
    microsoftRefreshToken: Option<string>)

  /** One key of a partial update: absent from the object (`Keep`), or
      present with a value that may be `undefined` (`Put(None)`). */
  datatype Assign<T> = Keep | Put(value: Option<T>)

  function Apply<T>(a: Assign<T>, old_: Option<T>): (r: Option<T>)
    ensures a.Keep? ==> r == old_
    ensures a.Put? ==> r == a.value
  {
    match a
    case Keep => old_
    case Put(v) => v
  }

  /** The `Partial<...>` argument of `updateUser`. */
  datatype UserPatch = UserPatch(
    email: Assign<string>,
    name: Assign<string>,
    image: Assign<string>,
    googleConnected: Assign<bool>,
    microsoftConnected: Assign<bool>,
    googleAccessToken: Assign<string>,
    googleRefreshToken: Assign<string>,
    microsoftAccessToken: Assign<string>,
    microsoftRefreshToken: Assign<string>)

  const EmptyPatch := UserPatch(Keep, Keep, Keep, Keep, Keep, Keep, Keep, Keep, Keep)

  /** `{ $set: { ...patch, updatedAt: now } }` applied to stored fields. */
  function SetFields(f: UserFields, p: UserPatch, now: string): (g: UserFields)
    ensures g.updatedAt == Some(now) && g.createdAt == f.createdAt
    ensures g.email == Apply(p.email, f.email) && g.name == Apply(p.name, f.name)
    ensures g.image == Apply(p.image, f.image)
    ensures g.googleConnected == Apply(p.googleConnected, f.googleConnected)
    ensures g.microsoftConnected == Apply(p.microsoftConnected, f.microsoftConnected)
    ensures g.googleAccessToken == Apply(p.googleAccessToken, f.googleAccessToken)
    ensures g.googleRefreshToken == Apply(p.googleRefreshToken, f.googleRefreshToken)
    ensures g.microsoftAccessToken == Apply(p.microsoftAccessToken, f.microsoftAccessToken)
    ensures g.microsoftRefreshToken == Apply(p.microsoftRefreshToken, f.microsoftRefreshToken)
  {
    UserFields(
      Apply(p.email, f.email), Apply(p.name, f.name), Apply(p.image, f.image),
      Apply(p.googleConnected, f.googleConnected), Apply(p.microsoftConnected, f.microsoftConnected),
      Apply(p.googleAccessToken, f.googleAccessToken), Apply(p.googleRefreshToken, f.googleRefreshToken),
      Apply(p.microsoftAccessToken, f.microsoftAccessToken), Apply(p.microsoftRefreshToken, f.microsoftRefreshToken),
      f.createdAt, Some(now))
  }

  const NoFields := UserFields(None, None, None, None, None, None, None, None, None, None, None)

  /** Setting an empty patch only stamps `updatedAt`. */
  lemma SetEmptyPatch(f: UserFields, now: string)
    ensures SetFields(f, EmptyPatch, now) == f.(updatedAt := Some(now))
  {
  }

  /** Applying a patch twice at the same instant is applying it once. */
  lemma SetFieldsIdempotent(f: UserFields, p: UserPatch, now: string)
    ensures SetFields(SetFields(f, p, now), p, now) == SetFields(f, p, now)
  {
  }

  /** The connected flags as both record-to-User conversions read them:
      `x || false`. */
  function Flag(b: Option<bool>): (r: bool)
    ensures r <==> b == Some(true)
  {
    b.Some? && b.value
  }
}
