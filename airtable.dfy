/** The older credential store (NeuronNook/lib/airtable.ts): the same
    collections as the current store, with Airtable-shaped records (fields
    without `_id`), a single-form id lookup, and an update that never
    inserts and cannot carry an email. */
module Airtable {
  import opened Wrappers
  import opened Documents
  import opened Query
  import Db

  /** The `Partial<...>` argument of this store's `updateUser`: no email. */
  datatype LegacyPatch = LegacyPatch(
    name: Assign<string>,
    image: Assign<string>,
    googleConnected: Assign<bool>,
    microsoftConnected: Assign<bool>,
    googleAccessToken: Assign<string>,
    googleRefreshToken: Assign<string>,
    microsoftAccessToken: Assign<string>,
    microsoftRefreshToken: Assign<string>)

  function AsPatch(p: LegacyPatch): (q: UserPatch)
    ensures q.email == Keep
  {
    UserPatch(Keep, p.name, p.image, p.googleConnected, p.microsoftConnected,
              p.googleAccessToken, p.googleRefreshToken, p.microsoftAccessToken, p.microsoftRefreshToken)
  }

  /** A categorisation document's fields, `_id` removed. */
  datatype CatFields = CatFields(
    userId: string,
    itemId: string,
    itemType: string,
    category: string,
    confidence: real,
    reasoning: Option<string>,
    createdAt: Option<string>)

  /** `docToRecord` on a user document: `_id` leaves the fields and becomes
      the record id (`""` when absent). */
  function UserRecord(d: UserDoc, now: string): (r: Record<UserFields>)
    ensures r.id == IdText(Some(d.id)) && r.data == d.fields
    ensures r.createdTime == if Truthy(d.fields.createdAt) then d.fields.createdAt.value else now
  {
    Record(IdText(Some(d.id)), d.fields, OrElse(d.fields.createdAt, now))
  }

  function CatRecord(d: CatDoc, now: string): (r: Record<CatFields>)
    ensures r.id == IdText(Some(d.id))
    ensures r.data == CatFields(d.userId, d.itemId, d.itemType, d.category, d.confidence, d.reasoning, d.createdAt)
    ensures r.createdTime == if Truthy(d.createdAt) then d.createdAt.value else now
  {
    Record(IdText(Some(d.id)),
           CatFields(d.userId, d.itemId, d.itemType, d.category, d.confidence, d.reasoning, d.createdAt),
           OrElse(d.createdAt, now))
  }

  function CatRecords(s: seq<CatDoc>, now: string): (r: seq<Record<CatFields>>)
    ensures |r| == |s| && forall i :: 0 <= i < |s| ==> r[i] == CatRecord(s[i], now)
  {
    if s == [] then [] else [CatRecord(s[0], now)] + CatRecords(s[1..], now)
  }

  /** `airtableRecordToUser` */
  function AirtableRecordToUser(r: Record<UserFields>): (u: User)
    ensures u.id == r.id && u.email == r.data.email && u.name == r.data.name && u.image == r.data.image
    ensures u.googleConnected <==> r.data.googleConnected == Some(true)
    ensures u.microsoftConnected <==> r.data.microsoftConnected == Some(true)
    ensures u.googleAccessToken == r.data.googleAccessToken && u.googleRefreshToken == r.data.googleRefreshToken
    ensures u.microsoftAccessToken == r.data.microsoftAccessToken && u.microsoftRefreshToken == r.data.microsoftRefreshToken
    ensures u.createdAt == if Truthy(r.data.createdAt) then r.data.createdAt.value else r.createdTime
    ensures u.updatedAt == if Truthy(r.data.updatedAt) then r.data.updatedAt.value else r.createdTime
  {
    var f := r.data;
    User(r.id, f.email, f.name, f.image, Flag(f.googleConnected), Flag(f.microsoftConnected),
         f.googleAccessToken, f.googleRefreshToken, f.microsoftAccessToken, f.microsoftRefreshToken,
         OrElse(f.createdAt, r.createdTime), OrElse(f.updatedAt, r.createdTime))
  }

  /** Both stores read a stored document as the same `User`. */
  lemma SameUserAsCurrentStore(d: UserDoc, now: string)
    ensures AirtableRecordToUser(UserRecord(d, now)) == Db.DbRecordToUser(Db.UserRecord(d, now))
  {
  }

  /** This store's id filter: one clause, the ObjectId form when the text is
      a valid ObjectId and the raw string otherwise. */
  function IdFilter(id: string, oidValid: string -> bool): (f: seq<Clause>)
    ensures |f| == 1
    ensures forall d :: MatchesAny(d, f) <==> d.id == (if oidValid(id) then Oid(id) else Raw(id))
  {
    var f := [IdIs(if oidValid(id) then Oid(id) else Raw(id))];
    assert forall d :: Matches(d, f[0]) ==> MatchesAny(d, f);
    f
  }

  function FindUser(rows: seq<UserDoc>, filter: seq<Clause>, now: string): (r: Option<Record<UserFields>>)
  {
    match FirstMatch(rows, filter)
    case None => None
    case Some(i) => Some(UserRecord(rows[i], now))
  }

  /** A document stored under the raw text of a valid ObjectId is out of
      reach of `findUserById`, unlike in the current store. */
  lemma RawIdOfValidTextNotFound(rows: seq<UserDoc>, id: string, oidValid: string -> bool, now: string)
    requires oidValid(id) && Db.FreshId(rows, Oid(id))
    ensures FindUser(rows, IdFilter(id, oidValid), now).None?
  {
    FirstMatchSpec(rows, IdFilter(id, oidValid));
  }

  /** The error `updateUser` raises when the driver's reply has no `value`. */
  const UpdateFailed := "Failed to update user"

  /** The error of reading `value` off a `null` reply: the driver answers
      `null` for a missed filter when it hands back bare documents. */
  const NullReplyError := "Cannot read properties of null (reading 'value')"

  /** `updateUser`: `findOneAndUpdate` on the id filter with `$set` of the
      patch and `updatedAt`, no upsert. When the driver wraps its answer
      (`returnsDoc`), `value` is the updated document or `null`; when it
      hands back the bare document, `value` is missing whatever happened,
      so the call fails after the write. */
  function UpdateUserSpec(rows: seq<UserDoc>, id: string, p: LegacyPatch, now: string, returnsDoc: bool,
                          oidValid: string -> bool): (r: (seq<UserDoc>, Result<Record<UserFields>, string>))
  {
    match FirstMatch(rows, IdFilter(id, oidValid))
    case None => (rows, Err(if returnsDoc then UpdateFailed else NullReplyError))
    case Some(i) =>
      var d := UserDoc(rows[i].id, SetFields(rows[i].fields, AsPatch(p), now));
      (rows[i := d], if returnsDoc then Ok(UserRecord(d, now)) else Err(UpdateFailed))
  }

  /** The update never inserts: it changes the supplied fields and
      `updatedAt` of the one document with that id, or nothing at all. It
      succeeds exactly when the driver wraps its answer and a document has
      the id; with bare documents it fails every time, after writing. */
  lemma UpdateNeverInserts(rows: seq<UserDoc>, id: string, p: LegacyPatch, now: string, returnsDoc: bool,
                           oidValid: string -> bool)
    ensures var (after, r) := UpdateUserSpec(rows, id, p, now, returnsDoc, oidValid);
      var target := if oidValid(id) then Oid(id) else Raw(id);
      |after| == |rows|
      && (r.Err? <==> !returnsDoc || forall j :: 0 <= j < |rows| ==> rows[j].id != target)
      && ((forall j :: 0 <= j < |rows| ==> rows[j].id != target) ==>
            after == rows && r == Err(if returnsDoc then UpdateFailed else NullReplyError))
      && (!returnsDoc && r.Err? && after != rows ==> r.error == UpdateFailed)
      && ((exists j :: 0 <= j < |rows| && rows[j].id == target) ==>
            exists i :: (0 <= i < |rows| && rows[i].id == target
                         && after == rows[i := UserDoc(rows[i].id, SetFields(rows[i].fields, AsPatch(p), now))]
                         && r == (if returnsDoc then Ok(UserRecord(after[i], now)) else Err(UpdateFailed))))
  {
    var target := if oidValid(id) then Oid(id) else Raw(id);
    FirstMatchSpec(rows, IdFilter(id, oidValid));
    if FirstMatch(rows, IdFilter(id, oidValid)).Some? {
      var i := FirstMatch(rows, IdFilter(id, oidValid)).value;
      assert rows[i].id == target;
    }
  }

  /** No update through this store changes any user's email. */
  lemma UpdateKeepsEmails(rows: seq<UserDoc>, id: string, p: LegacyPatch, now: string, returnsDoc: bool,
                          oidValid: string -> bool)
    ensures var after := UpdateUserSpec(rows, id, p, now, returnsDoc, oidValid).0;
      |after| == |rows| && forall j :: 0 <= j < |rows| ==> after[j].fields.email == rows[j].fields.email
  {
  }

  class LegacyDatabase {
    var users: seq<UserDoc>
    var categorizations: seq<CatDoc>
    /** Every driver call made so far, in order. */
    ghost var log: seq<Op>
    /** `ObjectId.isValid` */
    const oidValid: string -> bool

    constructor (oidValid: string -> bool)
      ensures this.oidValid == oidValid
      ensures users == [] && categorizations == [] && log == []
    {
      this.oidValid := oidValid;
      users := [];
      categorizations := [];
      log := [];
    }

    method FindUserByEmail(email: Option<string>, now: string) returns (r: Option<Record<UserFields>>)
      modifies this`log
      ensures log == old(log) + [FindOne([EmailIs(email)])]
      ensures r == FindUser(users, [EmailIs(email)], now)
    {
      log := log + [FindOne([EmailIs(email)])];
      r := FindUser(users, [EmailIs(email)], now);
    }

    /** One query, never the two id forms together. */
    method FindUserById(id: string, now: string) returns (r: Option<Record<UserFields>>)
      modifies this`log
      ensures log == old(log) + [FindOne([IdIs(if oidValid(id) then Oid(id) else Raw(id))])]
      ensures r == FindUser(users, IdFilter(id, oidValid), now)
    {
      var filter := IdFilter(id, oidValid);
      log := log + [FindOne(filter)];
      r := FindUser(users, filter, now);
    }

    method CreateUser(u: NewUser, now: string, newOid: string) returns (r: Record<UserFields>)
      requires Db.FreshId(users, Oid(newOid))
      modifies this`users, this`log
      ensures users == old(users) + [Db.NewUserDoc(u, now, newOid)]
      ensures r == UserRecord(Db.NewUserDoc(u, now, newOid), now)
      ensures log == old(log) + [InsertOne]
    {
      var doc := Db.NewUserDoc(u, now, newOid);
      users := users + [doc];
      log := log + [InsertOne];
      r := UserRecord(doc, now);
    }

    method UpdateUser(id: string, p: LegacyPatch, now: string, returnsDoc: bool)
      returns (r: Result<Record<UserFields>, string>)
      modifies this`users, this`log
      ensures (users, r) == UpdateUserSpec(old(users), id, p, now, returnsDoc, oidValid)
      ensures log == old(log) + [FindOneAndUpdate(IdFilter(id, oidValid), false)]
    {
      var filter := IdFilter(id, oidValid);
      log := log + [FindOneAndUpdate(filter, false)];
      var hit := FirstMatch(users, filter);
      if hit.None? {
        r := Err(if returnsDoc then UpdateFailed else NullReplyError);
      } else {
        var i := hit.value;
        var d := UserDoc(users[i].id, SetFields(users[i].fields, AsPatch(p), now));
        users := users[i := d];
        r := if returnsDoc then Ok(UserRecord(d, now)) else Err(UpdateFailed);
      }
    }

    method SaveCategorization(c: Db.NewCategorization, now: string, newOid: string) returns (r: Record<CatFields>)
      modifies this`categorizations, this`log
      ensures categorizations == old(categorizations) + [Db.NewCatDoc(c, now, newOid)]
      ensures r == CatRecord(Db.NewCatDoc(c, now, newOid), now)
      ensures log == old(log) + [InsertOne]
    {
      var doc := Db.NewCatDoc(c, now, newOid);
      categorizations := categorizations + [doc];
      log := log + [InsertOne];
      r := CatRecord(doc, now);
    }

    /** `itemType` is any string here: the filter compares it as given. */
    method GetCategorizations(userId: string, itemType: string, now: string) returns (r: seq<Record<CatFields>>)
      modifies this`log
      ensures log == old(log) + [Find(userId, itemType)]
      ensures r == CatRecords(SelectNewestFirst(categorizations, userId, itemType), now)
    {
      log := log + [Find(userId, itemType)];
      r := CatRecords(SelectNewestFirst(categorizations, userId, itemType), now);
    }
  }
}
