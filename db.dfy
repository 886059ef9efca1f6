/** The current credential store (lib/db.ts): user and categorisation
    documents in MongoDB, lookups by email and by id, creation with
    defaults, the upserting partial update with its re-read fallback, and
    the conversions to records and to `User`. */
module Db {
  import opened Wrappers
  import opened Documents
  import opened Query

  datatype ItemType = EmailItem | DriveItem | PhotoItem | OneDriveItem

  function ItemTypeName(t: ItemType): string {
    match t
    case EmailItem => "email"
    case DriveItem => "drive"
    case PhotoItem => "photo"
    case OneDriveItem => "onedrive"
  }

  datatype NewCategorization = NewCategorization(
    userId: string,
    itemId: string,
    itemType: ItemType,
    category: string,
    confidence: real,
    reasoning: Option<string>)

  // ---------------------------------------------------------------------------
  // Records and users

  /** `docToRecord` on a user document: the id as text, the whole document
      (`_id` included) as data, and `createdAt || now` as creation time. */
  function UserRecord(d: UserDoc, now: string): (r: Record<UserDoc>)
    ensures r.data == d && r.id == IdText(Some(d.id))
    ensures Truthy(d.fields.createdAt) ==> r.createdTime == d.fields.createdAt.value
    ensures !Truthy(d.fields.createdAt) ==> r.createdTime == now
  {
    Record(IdText(Some(d.id)), d, OrElse(d.fields.createdAt, now))
  }

  /** `docToRecord` on a categorisation document. */
  function CatRecord(d: CatDoc, now: string): (r: Record<CatDoc>)
    ensures r.data == d && r.id == IdText(Some(d.id))
    ensures Truthy(d.createdAt) ==> r.createdTime == d.createdAt.value
    ensures !Truthy(d.createdAt) ==> r.createdTime == now
  {
    Record(IdText(Some(d.id)), d, OrElse(d.createdAt, now))
  }

  /** `items.map(docToRecord)` */
  function CatRecords(s: seq<CatDoc>, now: string): (r: seq<Record<CatDoc>>)
    ensures |r| == |s| && forall i :: 0 <= i < |s| ==> r[i] == CatRecord(s[i], now)
  {
    if s == [] then [] else [CatRecord(s[0], now)] + CatRecords(s[1..], now)
  }

  /** `dbRecordToUser`: both connected flags default to false and both
      timestamps to the record's creation time; the rest is copied. */
  function DbRecordToUser(r: Record<UserDoc>): (u: User)
    ensures u.id == r.id && u.email == r.data.fields.email && u.name == r.data.fields.name
    ensures u.image == r.data.fields.image
    ensures u.googleConnected <==> r.data.fields.googleConnected == Some(true)
    ensures u.microsoftConnected <==> r.data.fields.microsoftConnected == Some(true)
    ensures u.googleAccessToken == r.data.fields.googleAccessToken
    ensures u.googleRefreshToken == r.data.fields.googleRefreshToken
    ensures u.microsoftAccessToken == r.data.fields.microsoftAccessToken
    ensures u.microsoftRefreshToken == r.data.fields.microsoftRefreshToken
    ensures u.createdAt == if Truthy(r.data.fields.createdAt) then r.data.fields.createdAt.value else r.createdTime
    ensures u.updatedAt == if Truthy(r.data.fields.updatedAt) then r.data.fields.updatedAt.value else r.createdTime
  {
    var f := r.data.fields;
    User(r.id, f.email, f.name, f.image, Flag(f.googleConnected), Flag(f.microsoftConnected),
         f.googleAccessToken, f.googleRefreshToken, f.microsoftAccessToken, f.microsoftRefreshToken,
         OrElse(f.createdAt, r.createdTime), OrElse(f.updatedAt, r.createdTime))
  }

  /** A document without timestamps reads as a user created and updated at
      the moment of reading. */
  lemma UntimedUser(d: UserDoc, now: string)
    requires d.fields.createdAt.None? && d.fields.updatedAt.None?
    ensures DbRecordToUser(UserRecord(d, now)).createdAt == now
    ensures DbRecordToUser(UserRecord(d, now)).updatedAt == now
  {
  }

  // ---------------------------------------------------------------------------
  // Filters

  /** The `$or` clauses for an id: the ObjectId form and the raw string when
      the text is a valid ObjectId, only the raw string otherwise. */
  function IdFilter(id: string, oidValid: string -> bool): (f: seq<Clause>)
    ensures 1 <= |f| <= 2 && (|f| == 2 <==> oidValid(id))
  {
    if oidValid(id) then [IdIs(Oid(id)), IdIs(Raw(id))] else [IdIs(Raw(id))]
  }

  /** A document matches the id filter exactly when its `_id` is the raw
      text, or the ObjectId of a valid text. */
  lemma IdFilterMatches(id: string, oidValid: string -> bool)
    ensures forall d :: MatchesAny(d, IdFilter(id, oidValid)) <==> d.id == Raw(id) || (oidValid(id) && d.id == Oid(id))
  {
    var f := IdFilter(id, oidValid);
    assert forall d :: Matches(d, f[0]) ==> MatchesAny(d, f);
    assert forall d :: |f| == 2 && Matches(d, f[1]) ==> MatchesAny(d, f);
  }

  /** `userData.email` when it is a non-empty string. */
  function SuppliedEmail(p: UserPatch): (e: Option<string>)
    ensures e.Some? <==> p.email.Put? && Truthy(p.email.value)
    ensures e.Some? ==> p.email == Put(e)
  {
    if p.email.Put? && Truthy(p.email.value) then p.email.value else None
  }

  /** The update's `$or`: the id clauses, plus an email clause when the
      patch carries an email. */
  function UpdateFilter(id: string, p: UserPatch, oidValid: string -> bool): (f: seq<Clause>)
    ensures |f| == 1 <==> !oidValid(id) && SuppliedEmail(p).None?
  {
    IdFilter(id, oidValid) + if SuppliedEmail(p).Some? then [EmailIs(SuppliedEmail(p))] else []
  }

  /** A document matches the update's filter exactly when it matches the id
      filter or carries the supplied email. */
  lemma UpdateFilterMatches(id: string, p: UserPatch, oidValid: string -> bool)
    ensures forall d :: MatchesAny(d, UpdateFilter(id, p, oidValid)) <==>
      MatchesAny(d, IdFilter(id, oidValid)) || (SuppliedEmail(p).Some? && d.fields.email == SuppliedEmail(p))
  {
    var ids := IdFilter(id, oidValid);
    var f := UpdateFilter(id, p, oidValid);
    forall d ensures MatchesAny(d, f) <==>
      MatchesAny(d, ids) || (SuppliedEmail(p).Some? && d.fields.email == SuppliedEmail(p))
    {
      if MatchesAny(d, ids) {
        var k :| 0 <= k < |ids| && Matches(d, ids[k]);
        assert f[k] == ids[k];
      }
      if SuppliedEmail(p).Some? && d.fields.email == SuppliedEmail(p) {
        assert Matches(d, f[|ids|]);
      }
    }
  }

  // ---------------------------------------------------------------------------
  // The store operations on values

  /** The row `findOne(filter)` finds, as a record. */
  function FindUser(rows: seq<UserDoc>, filter: seq<Clause>, now: string): (r: Option<Record<UserDoc>>)
  {
    match FirstMatch(rows, filter)
    case None => None
    case Some(i) => Some(UserRecord(rows[i], now))
  }

  /** `findUserByEmail` returns the first user stored with exactly that email,
      and nothing only when no user has it. */
  lemma FindByEmailSpec(rows: seq<UserDoc>, email: Option<string>, now: string)
    ensures var r := FindUser(rows, [EmailIs(email)], now);
      (r.Some? ==> r.value.data in rows && r.value.data.fields.email == email)
      && (r.None? <==> forall j :: 0 <= j < |rows| ==> rows[j].fields.email != email)
  {
    var f := [EmailIs(email)];
    FirstMatchSpec(rows, f);
    forall d ensures MatchesAny(d, f) <==> d.fields.email == email {
      if d.fields.email == email {
        assert Matches(d, f[0]);
      }
    }
  }

  /** `findUserById` finds a document stored under the ObjectId form of a
      valid id or under the raw string, and no other. */
  lemma FindByIdSpec(rows: seq<UserDoc>, id: string, oidValid: string -> bool, now: string)
    ensures var r := FindUser(rows, IdFilter(id, oidValid), now);
      (r.Some? ==> r.value.data in rows && (r.value.data.id == Raw(id) || (oidValid(id) && r.value.data.id == Oid(id))))
      && (r.None? <==> forall j :: 0 <= j < |rows| ==> rows[j].id != Raw(id) && (oidValid(id) ==> rows[j].id != Oid(id)))
  {
    IdFilterMatches(id, oidValid);
    FirstMatchSpec(rows, IdFilter(id, oidValid));
  }

  /** The document `createUser` inserts: both connected flags default to
      false, and `createdAt` and `updatedAt` are the same instant. */
  function NewUserDoc(u: NewUser, now: string, newOid: string): (d: UserDoc)
    ensures d.id == Oid(newOid)
    ensures d.fields.googleConnected == Some(u.googleConnected.GetOr(false))
    ensures d.fields.microsoftConnected == Some(u.microsoftConnected.GetOr(false))
    ensures d.fields.createdAt == d.fields.updatedAt == Some(now)
    ensures d.fields.email == u.email && d.fields.name == u.name && d.fields.image == u.image
    ensures d.fields.googleAccessToken == u.googleAccessToken && d.fields.googleRefreshToken == u.googleRefreshToken
    ensures d.fields.microsoftAccessToken == u.microsoftAccessToken && d.fields.microsoftRefreshToken == u.microsoftRefreshToken
  {
    UserDoc(Oid(newOid), UserFields(
      u.email, u.name, u.image,
      Some(u.googleConnected.GetOr(false)), Some(u.microsoftConnected.GetOr(false)),
      u.googleAccessToken, u.googleRefreshToken, u.microsoftAccessToken, u.microsoftRefreshToken,
      Some(now), Some(now)))
  }

  /** No stored document has this `_id`. */
  predicate FreshId(rows: seq<UserDoc>, id: DocId) {
    forall j :: 0 <= j < |rows| ==> rows[j].id != id
  }

  /** No two documents share an `_id`. */
  predicate UniqueIds(rows: seq<UserDoc>) {
    forall i, j :: 0 <= i < j < |rows| ==> rows[i].id != rows[j].id
  }

  /** The upsert half of `updateUser`: `findOneAndUpdate` with `$set` of the
      patch and `updatedAt`, `$setOnInsert` of `createdAt` and the supplied
      email, and `upsert: true`. It changes the first matching document, or
      inserts one. An inserted document takes the raw id when the filter is
      the single clause `{ _id: id }` (MongoDB copies equality fields of the
      filter into an upserted document) and a new ObjectId otherwise. */
  function Upsert(rows: seq<UserDoc>, id: string, p: UserPatch, now: string, newOid: string,
                  oidValid: string -> bool): (r: (seq<UserDoc>, UserDoc))
  {
    var filter := UpdateFilter(id, p, oidValid);
    match FirstMatch(rows, filter)
    case Some(i) =>
      var d := UserDoc(rows[i].id, SetFields(rows[i].fields, p, now));
      (rows[i := d], d)
    case None =>
      var onInsert := NoFields.(createdAt := Some(now), email := SuppliedEmail(p));
      var d := UserDoc(if |filter| == 1 then Raw(id) else Oid(newOid), SetFields(onInsert, p, now));
      (rows + [d], d)
  }

  /** `updateUser`: the upsert, then the returned document; when the write
      hands back no document (`returnsDoc` false), a second `findOne` by the
      id clauses alone, and the error when that finds nothing. */
  function UpdateUserSpec(rows: seq<UserDoc>, id: string, p: UserPatch, now: string, newOid: string,
                          returnsDoc: bool, oidValid: string -> bool): (r: (seq<UserDoc>, Result<Record<UserDoc>, string>))
  {
    var (after, written) := Upsert(rows, id, p, now, newOid, oidValid);
    if returnsDoc then (after, Ok(UserRecord(written, now)))
    else
      match FindUser(after, IdFilter(id, oidValid), now)
      case Some(rec) => (after, Ok(rec))
      case None => (after, Err("Failed to update user with id: " + id))
  }

  /** The driver calls of `updateUser`: the upsert, then the re-read by id
      when the write hands back no document. */
  function UpdateOps(id: string, p: UserPatch, returnsDoc: bool, oidValid: string -> bool): seq<Op> {
    [FindOneAndUpdate(UpdateFilter(id, p, oidValid), true)]
    + (if returnsDoc then [] else [FindOne(IdFilter(id, oidValid))])
  }

  /** When a document matches, exactly the supplied fields and `updatedAt`
      change on it, and no other document changes. */
  lemma UpdateChangesOnlyMatch(rows: seq<UserDoc>, id: string, p: UserPatch, now: string, newOid: string,
                               oidValid: string -> bool)
    requires FirstMatch(rows, UpdateFilter(id, p, oidValid)).Some?
    ensures var i := FirstMatch(rows, UpdateFilter(id, p, oidValid)).value;
      var after := Upsert(rows, id, p, now, newOid, oidValid).0;
      |after| == |rows|
      && after[i].id == rows[i].id
      && after[i].fields == SetFields(rows[i].fields, p, now)
      && (forall j :: 0 <= j < |rows| && j != i ==> after[j] == rows[j])
  {
  }

  /** An update without an email can only change the document stored under
      that id (either form); with an email it may also hit the first document
      holding that email. */
  lemma UpdateTargets(rows: seq<UserDoc>, id: string, p: UserPatch, now: string, newOid: string,
                      oidValid: string -> bool)
    requires FirstMatch(rows, UpdateFilter(id, p, oidValid)).Some?
    ensures var i := FirstMatch(rows, UpdateFilter(id, p, oidValid)).value;
      rows[i].id == Raw(id) || (oidValid(id) && rows[i].id == Oid(id))
      || (SuppliedEmail(p).Some? && rows[i].fields.email == SuppliedEmail(p))
    ensures SuppliedEmail(p).None? ==>
      var i := FirstMatch(rows, UpdateFilter(id, p, oidValid)).value;
      rows[i].id == Raw(id) || (oidValid(id) && rows[i].id == Oid(id))
  {
  }

  /** When nothing matches, one document is appended: it carries the
      supplied fields, `createdAt` and `updatedAt` at the same instant, and an
      email only if the patch supplied one. */
  lemma UpsertInserts(rows: seq<UserDoc>, id: string, p: UserPatch, now: string, newOid: string,
                      oidValid: string -> bool)
    requires FirstMatch(rows, UpdateFilter(id, p, oidValid)).None?
    ensures var (after, d) := Upsert(rows, id, p, now, newOid, oidValid);
      after == rows + [d]
      && d.fields.createdAt == d.fields.updatedAt == Some(now)
      && (d.fields.email.Some? ==> p.email.Put?)
      && d.fields == SetFields(NoFields.(createdAt := Some(now), email := SuppliedEmail(p)), p, now)
      && d.id == (if !oidValid(id) && SuppliedEmail(p).None? then Raw(id) else Oid(newOid))
  {
  }

  /** `updateUser` fails exactly when the write hands back no document and
      the re-read by id finds none; the write has happened all the same. */
  lemma UpdateFailure(rows: seq<UserDoc>, id: string, p: UserPatch, now: string, newOid: string,
                      returnsDoc: bool, oidValid: string -> bool)
    ensures var (after, r) := UpdateUserSpec(rows, id, p, now, newOid, returnsDoc, oidValid);
      after == Upsert(rows, id, p, now, newOid, oidValid).0
      && (r.Err? <==> !returnsDoc && forall j :: 0 <= j < |after| ==> after[j].id != Raw(id) && (oidValid(id) ==> after[j].id != Oid(id)))
      && (r.Err? ==> r.error == "Failed to update user with id: " + id)
  {
    IdFilterMatches(id, oidValid);
    FirstMatchSpec(Upsert(rows, id, p, now, newOid, oidValid).0, IdFilter(id, oidValid));
  }

  /** A token-only update addressed to the id of a stored document, when no
      other document answers to that id, succeeds whether or not the driver
      returns the document, and reads back exactly the updated document. */
  lemma UpdateExistingById(rows: seq<UserDoc>, i: nat, p: UserPatch, now: string, newOid: string,
                           returnsDoc: bool, oidValid: string -> bool)
    requires i < |rows| && SuppliedEmail(p).None?
    requires forall j :: 0 <= j < |rows| ==>
      (MatchesAny(rows[j], IdFilter(IdText(Some(rows[i].id)), oidValid)) <==> j == i)
    ensures var id := IdText(Some(rows[i].id));
      var (after, r) := UpdateUserSpec(rows, id, p, now, newOid, returnsDoc, oidValid);
      r.Ok? && r.value == UserRecord(UserDoc(rows[i].id, SetFields(rows[i].fields, p, now)), now)
      && after == rows[i := r.value.data]
  {
    var id := IdText(Some(rows[i].id));
    var f := UpdateFilter(id, p, oidValid);
    UpdateFilterMatches(id, p, oidValid);
    assert MatchesAny(rows[i], f);
    FirstMatchSpec(rows, f);
    var k := FirstMatch(rows, f).value;
    assert k == i by {
      assert MatchesAny(rows[k], IdFilter(id, oidValid));
    }
    var after := Upsert(rows, id, p, now, newOid, oidValid).0;
    assert MatchesAny(after[i], IdFilter(id, oidValid));
    FirstMatchSpec(after, IdFilter(id, oidValid));
    assert forall j :: 0 <= j < |after| && j != i ==> after[j] == rows[j];
  }

  /** An upsert takes no ObjectId but the one it is handed. */
  lemma UpsertKeepsOthersFresh(rows: seq<UserDoc>, id: string, p: UserPatch, now: string, newOid: string,
                               oidValid: string -> bool, other: string)
    requires FreshId(rows, Oid(other)) && other != newOid
    ensures FreshId(Upsert(rows, id, p, now, newOid, oidValid).0, Oid(other))
  {
  }

  /** The upsert keeps every `_id` distinct, given that the new ObjectId
      is not already in use. */
  lemma UpsertKeepsIdsUnique(rows: seq<UserDoc>, id: string, p: UserPatch, now: string, newOid: string,
                             oidValid: string -> bool)
    requires UniqueIds(rows) && FreshId(rows, Oid(newOid))
    ensures UniqueIds(Upsert(rows, id, p, now, newOid, oidValid).0)
  {
    var f := UpdateFilter(id, p, oidValid);
    UpdateFilterMatches(id, p, oidValid);
    IdFilterMatches(id, oidValid);
    FirstMatchSpec(rows, f);
    if FirstMatch(rows, f).None? && |f| == 1 {
      forall j | 0 <= j < |rows| ensures rows[j].id != Raw(id) {
        assert !MatchesAny(rows[j], f);
      }
    }
  }

  /** A categorisation as `saveCategorization` inserts it. */
  function NewCatDoc(c: NewCategorization, now: string, newOid: string): (d: CatDoc)
    ensures d.id == Oid(newOid) && d.createdAt == Some(now)
    ensures d.userId == c.userId && d.itemId == c.itemId && d.itemType == ItemTypeName(c.itemType)
    ensures d.category == c.category && d.confidence == c.confidence && d.reasoning == c.reasoning
  {
    CatDoc(Oid(newOid), c.userId, c.itemId, ItemTypeName(c.itemType), c.category, c.confidence, c.reasoning, Some(now))
  }

  // ---------------------------------------------------------------------------
  // The store

  class Database {
    var users: seq<UserDoc>
    var categorizations: seq<CatDoc>
    /** Every driver call made so far, in order. */
    ghost var log: seq<Op>
    /** `ObjectId.isValid` */
    const oidValid: string -> bool

    constructor (oidValid: string -> bool)
      ensures this.oidValid == oidValid
      ensures users == [] && categorizations == [] && log == []
    {
      this.oidValid := oidValid;
      users := [];
      categorizations := [];
      log := [];
    }

    ghost predicate Valid()
      reads this`users
    {
      UniqueIds(users)
    }

    method FindUserByEmail(email: Option<string>, now: string) returns (r: Option<Record<UserDoc>>)
      modifies this`log
      ensures log == old(log) + [FindOne([EmailIs(email)])]
      ensures r == FindUser(users, [EmailIs(email)], now)
    {
      log := log + [FindOne([EmailIs(email)])];
      r := FindUser(users, [EmailIs(email)], now);
    }

    method FindUserById(id: string, now: string) returns (r: Option<Record<UserDoc>>)
      modifies this`log
      ensures log == old(log) + [FindOne(IdFilter(id, oidValid))]
      ensures r == FindUser(users, IdFilter(id, oidValid), now)
    {
      var queries := IdFilter(id, oidValid);
      log := log + [FindOne(queries)];
      r := FindUser(users, queries, now);
    }

    method CreateUser(u: NewUser, now: string, newOid: string) returns (r: Record<UserDoc>)
      requires Valid() && FreshId(users, Oid(newOid))
      modifies this`users, this`log
      ensures Valid()
      ensures users == old(users) + [NewUserDoc(u, now, newOid)]
      ensures r == UserRecord(NewUserDoc(u, now, newOid), now)
      ensures log == old(log) + [InsertOne]
    {
      var doc := NewUserDoc(u, now, newOid);
      users := users + [doc];
      log := log + [InsertOne];
      r := UserRecord(doc, now);
    }

    method UpdateUser(id: string, p: UserPatch, now: string, newOid: string, returnsDoc: bool)
      returns (r: Result<Record<UserDoc>, string>)
      requires Valid() && FreshId(users, Oid(newOid))
      modifies this`users, this`log
      ensures Valid()
      ensures (users, r) == UpdateUserSpec(old(users), id, p, now, newOid, returnsDoc, oidValid)
      ensures log == old(log) + UpdateOps(id, p, returnsDoc, oidValid)
    {
      var queries := UpdateFilter(id, p, oidValid);
      UpsertKeepsIdsUnique(users, id, p, now, newOid, oidValid);
      var (after, written) := Upsert(users, id, p, now, newOid, oidValid);
      users := after;
      log := log + [FindOneAndUpdate(queries, true)];
      if returnsDoc {
        r := Ok(UserRecord(written, now));
      } else {
        var queries2 := IdFilter(id, oidValid);
        log := log + [FindOne(queries2)];
        var existing := FindUser(users, queries2, now);
        if existing.Some? {
          r := Ok(existing.value);
        } else {
          r := Err("Failed to update user with id: " + id);
        }
      }
    }

    method SaveCategorization(c: NewCategorization, now: string, newOid: string) returns (r: Record<CatDoc>)
      modifies this`categorizations, this`log
      ensures categorizations == old(categorizations) + [NewCatDoc(c, now, newOid)]
      ensures r == CatRecord(NewCatDoc(c, now, newOid), now)
      ensures log == old(log) + [InsertOne]
    {
      var doc := NewCatDoc(c, now, newOid);
      categorizations := categorizations + [doc];
      log := log + [InsertOne];
      r := CatRecord(doc, now);
    }

    method GetCategorizations(userId: string, itemType: ItemType, now: string) returns (r: seq<Record<CatDoc>>)
      modifies this`log
      ensures log == old(log) + [Find(userId, ItemTypeName(itemType))]
      ensures r == CatRecords(SelectNewestFirst(categorizations, userId, ItemTypeName(itemType)), now)
    {
      log := log + [Find(userId, ItemTypeName(itemType))];
      var items := SelectNewestFirst(categorizations, userId, ItemTypeName(itemType));
      r := CatRecords(items, now);
    }
  }

  /** A user created and then looked up by its id reads back as created:
      the supplied fields, both flags defaulted, both timestamps equal. */
  lemma CreateThenFindById(rows: seq<UserDoc>, u: NewUser, now: string, newOid: string,
                           oidValid: string -> bool, later: string)
    requires FreshId(rows, Oid(newOid)) && FreshId(rows, Raw(newOid)) && oidValid(newOid) && now != ""
    ensures var d := NewUserDoc(u, now, newOid);
      var r := FindUser(rows + [d], IdFilter(newOid, oidValid), later);
      r == Some(UserRecord(d, later))
      && DbRecordToUser(r.value).createdAt == now
      && DbRecordToUser(r.value).updatedAt == now
      && DbRecordToUser(r.value).googleConnected == u.googleConnected.GetOr(false)
      && DbRecordToUser(r.value).id == newOid
  {
    var d := NewUserDoc(u, now, newOid);
    var all := rows + [d];
    IdFilterMatches(newOid, oidValid);
    assert all[|rows|] == d;
    assert MatchesAny(all[|rows|], IdFilter(newOid, oidValid));
    assert forall j :: 0 <= j < |rows| ==> all[j] == rows[j];
    FirstMatchSpec(all, IdFilter(newOid, oidValid));
    assert FirstMatch(all, IdFilter(newOid, oidValid)) == Some(|rows|);
  }
}
