/** The part of MongoDB's query semantics that both user stores rely on:
    equality filters joined by `$or`, `findOne` taking the first match in
    natural (insertion) order, `find` by two fields, and `sort` descending
    on a string field. */
module Query {
  import opened Wrappers
  import opened Documents

  /** One equality clause of a user filter. `EmailIs(None)` is the filter
      `{ email: undefined }`, which the driver sends as `null` and which
      matches a document whose email is null or missing. */
  datatype Clause = IdIs(id: DocId) | EmailIs(email: Option<string>)

  /** A driver call, as recorded in a store's access log. */
  datatype Op =
    | FindOne(filter: seq<Clause>)
    | InsertOne
    | FindOneAndUpdate(filter: seq<Clause>, upsert: bool)
    | Find(userId: string, itemType: string)

  predicate Matches(d: UserDoc, c: Clause) {
    match c
    case IdIs(i) => d.id == i
    case EmailIs(e) => d.fields.email == e
  }

  predicate MatchesAny(d: UserDoc, filter: seq<Clause>) {
    exists k :: 0 <= k < |filter| && Matches(d, filter[k])
  }

  /** The position `findOne` returns: the first document matching the filter. */
  function FirstMatch(rows: seq<UserDoc>, filter: seq<Clause>): (r: Option<nat>)
    ensures r.Some? ==> r.value < |rows|
  {
    if rows == [] then None
    else if MatchesAny(rows[0], filter) then Some(0)
    else
      match FirstMatch(rows[1..], filter)
      case None => None
      case Some(i) => Some(i + 1)
  }

  /** `findOne` finds a matching document with no match before it, and finds
      nothing exactly when no document matches. */
  lemma {:induction false} FirstMatchSpec(rows: seq<UserDoc>, filter: seq<Clause>)
    ensures var r := FirstMatch(rows, filter);
      (r.Some? ==> MatchesAny(rows[r.value], filter))
      && (r.Some? ==> forall j :: 0 <= j < r.value ==> !MatchesAny(rows[j], filter))
      && (r.None? <==> forall j :: 0 <= j < |rows| ==> !MatchesAny(rows[j], filter))
  {
    if rows != [] {
      FirstMatchSpec(rows[1..], filter);
      assert forall j :: 1 <= j < |rows| ==> rows[j] == rows[1..][j - 1];
    }
  }

  /** Recording calls one batch after another records them all in order. */
  lemma LogAppend(log: seq<Op>, first: seq<Op>, rest: seq<Op>)
    ensures log + first + rest == log + (first + rest)
  {
  }

  /** Appending documents does not move a match that already exists. */
  lemma {:induction false} FirstMatchPrefix(rows: seq<UserDoc>, more: seq<UserDoc>, filter: seq<Clause>)
    requires FirstMatch(rows, filter).Some?
    ensures FirstMatch(rows + more, filter) == FirstMatch(rows, filter)
  {
    assert (rows + more)[0] == rows[0];
    if !MatchesAny(rows[0], filter) {
      assert (rows + more)[1..] == rows[1..] + more;
      FirstMatchPrefix(rows[1..], more, filter);
    }
  }

  /** A one-clause filter matches exactly what its clause matches. */
  lemma SingleClause(d: UserDoc, c: Clause)
    ensures MatchesAny(d, [c]) <==> Matches(d, c)
  {
    if Matches(d, c) {
      assert Matches(d, [c][0]);
    }
  }

  /** `findOne` by email sees only the emails: two collections with the same
      emails in the same positions answer it alike. */
  lemma {:induction false} FirstMatchSameEmails(a: seq<UserDoc>, b: seq<UserDoc>, email: Option<string>)
    requires |a| == |b| && forall j :: 0 <= j < |a| ==> a[j].fields.email == b[j].fields.email
    ensures FirstMatch(a, [EmailIs(email)]) == FirstMatch(b, [EmailIs(email)])
  {
    if a != [] {
      SingleClause(a[0], EmailIs(email));
      SingleClause(b[0], EmailIs(email));
      FirstMatchSameEmails(a[1..], b[1..], email);
    }
  }

  /** Every document that matches a filter is found by `findOne` on it (the
      first such document, at or before its own position). */
  lemma FirstMatchFinds(rows: seq<UserDoc>, filter: seq<Clause>, j: nat)
    requires j < |rows| && MatchesAny(rows[j], filter)
    ensures FirstMatch(rows, filter).Some? && FirstMatch(rows, filter).value <= j
  {
    FirstMatchSpec(rows, filter);
  }

  // ---------------------------------------------------------------------------
  // Ordering of string fields under `sort({ field: -1 })`

  /** Code-point order on text; for the characters of ISO timestamps this is
      the byte order MongoDB compares strings in. */
  predicate LexLe(a: string, b: string) {
    a == [] || (b != [] && (a[0] < b[0] || (a[0] == b[0] && LexLe(a[1..], b[1..]))))
  }

  /** BSON order: a missing or null field sorts before every string. */
  predicate KeyLe(a: Option<string>, b: Option<string>) {
    a.None? || (b.Some? && LexLe(a.value, b.value))
  }

  lemma {:induction false} LexLeTotal(a: string, b: string)
    ensures LexLe(a, b) || LexLe(b, a)
  {
    if a != [] && b != [] && a[0] == b[0] {
      LexLeTotal(a[1..], b[1..]);
    }
  }

  lemma {:induction false} LexLeTransitive(a: string, b: string, c: string)
    requires LexLe(a, b) && LexLe(b, c)
    ensures LexLe(a, c)
  {
    if a != [] && b != [] && c != [] && a[0] == b[0] && b[0] == c[0] {
      LexLeTransitive(a[1..], b[1..], c[1..]);
    }
  }

  lemma KeyLeTotal(a: Option<string>, b: Option<string>)
    ensures KeyLe(a, b) || KeyLe(b, a)
  {
    if a.Some? && b.Some? {
      LexLeTotal(a.value, b.value);
    }
  }

  /** Newest first: each document's `createdAt` is at least the next one's. */
  predicate Descending(s: seq<CatDoc>) {
    forall i :: 0 <= i < |s| - 1 ==> KeyLe(s[i + 1].createdAt, s[i].createdAt)
  }

  /** Newest first, between any two positions. */
  lemma {:induction false} DescendingPairs(s: seq<CatDoc>, i: nat, j: nat)
    requires Descending(s) && i <= j < |s|
    ensures KeyLe(s[j].createdAt, s[i].createdAt)
    decreases j - i
  {
    if i == j {
      if s[i].createdAt.Some? {
        LexLeTotal(s[i].createdAt.value, s[i].createdAt.value);
      }
    } else {
      DescendingPairs(s, i + 1, j);
      var a, b, c := s[j].createdAt, s[i + 1].createdAt, s[i].createdAt;
      if a.Some? {
        LexLeTransitive(a.value, b.value, c.value);
      }
    }
  }

  function InsertDescending(x: CatDoc, s: seq<CatDoc>): (r: seq<CatDoc>)
    requires Descending(s)
    ensures Descending(r)
    ensures multiset(r) == multiset(s) + multiset{x}
    ensures r != [] && (r[0] == x || (s != [] && r[0] == s[0]))
  {
    if s == [] || KeyLe(s[0].createdAt, x.createdAt) then [x] + s
    else
      var t := InsertDescending(x, s[1..]);
      KeyLeTotal(s[0].createdAt, x.createdAt);
      assert s == [s[0]] + s[1..];
      [s[0]] + t
  }

  /** The order `sort({ createdAt: -1 })` produces. MongoDB leaves the order
      of equal keys open; this sort is one of the orders it may return. */
  function SortDescending(s: seq<CatDoc>): (r: seq<CatDoc>)
    ensures Descending(r)
    ensures multiset(r) == multiset(s)
  {
    if s == [] then []
    else
      assert s == [s[0]] + s[1..];
      InsertDescending(s[0], SortDescending(s[1..]))
  }

  /** The documents `find({ userId, itemType })` yields, in natural order. */
  function Select(cats: seq<CatDoc>, userId: string, itemType: string): (r: seq<CatDoc>)
    ensures forall x :: multiset(r)[x] == if x.userId == userId && x.itemType == itemType then multiset(cats)[x] else 0
  {
    if cats == [] then []
    else
      assert cats == [cats[0]] + cats[1..];
      (if cats[0].userId == userId && cats[0].itemType == itemType then [cats[0]] else [])
      + Select(cats[1..], userId, itemType)
  }

  /** `find({ userId, itemType }).sort({ createdAt: -1 })` */
  function SelectNewestFirst(cats: seq<CatDoc>, userId: string, itemType: string): (r: seq<CatDoc>)
  {
    SortDescending(Select(cats, userId, itemType))
  }

  /** The query returns exactly the matching documents, each as often as it
      is stored, newest first. */
  lemma SelectNewestFirstSpec(cats: seq<CatDoc>, userId: string, itemType: string)
    ensures var r := SelectNewestFirst(cats, userId, itemType);
      Descending(r)
      && (forall i :: 0 <= i < |r| ==> r[i].userId == userId && r[i].itemType == itemType && r[i] in cats)
      && (forall x :: x in cats && x.userId == userId && x.itemType == itemType ==> x in r)
      && (forall x :: multiset(r)[x] == if x.userId == userId && x.itemType == itemType then multiset(cats)[x] else 0)
  {
    var r := SelectNewestFirst(cats, userId, itemType);
    forall i | 0 <= i < |r|
      ensures r[i].userId == userId && r[i].itemType == itemType && r[i] in cats
    {
      assert r[i] in multiset(r);
    }
    forall x | x in cats && x.userId == userId && x.itemType == itemType
      ensures x in r
    {
      assert x in multiset(cats);
      assert x in multiset(r);
    }
  }
}
