/**
 * The persisted records (Search, Recommendation, User, AuditLog) and the
 * queries the routes run over the collections: lookup by key, "newest first,
 * at most n", and delete-one.
 *
 * A collection is a sequence in insertion order. Ids come from one counter,
 * so a larger id means a later `createdAt`, and "sort by createdAt
 * descending" is reverse insertion order.
 */
module Models {
  import opened Wrappers
  import Recommend

  type Id = nat

  datatype Status = Pending | Done | Failed

  /** The query a user submitted; `budget` is already `Number(budget || 0)`. */
  datatype Query = Query(
    location: string, mood: string, category: string, companions: string, budget: int, atmosphere: string)

  datatype Search = Search(id: Id, userId: Id, query: Query, status: Status)

  /** One per successful search: `searchId` is required and unique; `raw` is `{ fromOpenAI: true }`. */
  datatype Recommendation = Recommendation(id: Id, searchId: Id, result: Recommend.RecData, fromOpenAI: bool)

  datatype Role = UserRole | AdminRole

  /** The role as stored and as put in a token. */
  function RoleName(role: Role): (name: string)
    ensures name == "admin" <==> role == AdminRole
  {
    match role
    case UserRole => "user"
    case AdminRole => "admin"
  }

  datatype User = User(id: Id, email: string, passwordHash: string, role: Role)

  /** The audit actions the routes write: 'REGISTER', 'LOGIN' and 'SEARCH_CREATE'. */
  datatype Action = RegisterAction | LoginAction | SearchCreateAction

  /** An audit record; `meta` is never written by the routes and is left out. */
  datatype AuditEntry = AuditEntry(actorId: Option<Id>, action: Action, targetId: Option<Id>)

  // ---------------------------------------------------------------------------
  // findOne / findById: the first element satisfying a filter

  function IndexWhere<T>(s: seq<T>, p: T -> bool): (r: Option<nat>)
    ensures r.Some? ==> r.value < |s| && p(s[r.value]) && forall k :: 0 <= k < r.value ==> !p(s[k])
    ensures r.None? <==> forall k :: 0 <= k < |s| ==> !p(s[k])
  {
    if |s| == 0 then None
    else if p(s[0]) then Some(0)
    else match IndexWhere(s[1..], p)
      case None => None
      case Some(i) => Some(i + 1)
  }

  /** When at most one element satisfies `p`, the index found is that element's. */
  lemma IndexWhereUnique<T>(s: seq<T>, p: T -> bool, k: nat)
    requires k < |s| && p(s[k])
    requires forall i, j :: 0 <= i < j < |s| && p(s[i]) ==> !p(s[j])
    ensures IndexWhere(s, p) == Some(k)
  {
    assert IndexWhere(s, p).Some?;
  }

  function RemoveAt<T>(s: seq<T>, i: nat): (r: seq<T>)
    requires i < |s|
    ensures |r| == |s| - 1
    ensures forall k :: 0 <= k < i ==> r[k] == s[k]
    ensures forall k :: i <= k < |r| ==> r[k] == s[k + 1]
  {
    s[..i] + s[i + 1..]
  }

  function SearchIndex(ss: seq<Search>, id: Id): Option<nat> {
    IndexWhere(ss, (s: Search) => s.id == id)
  }

  predicate HasSearch(ss: seq<Search>, id: Id) {
    exists i :: 0 <= i < |ss| && ss[i].id == id
  }

  /** `Search.findById(id)`. */
  function FindSearch(ss: seq<Search>, id: Id): (r: Option<Search>)
    ensures r.Some? ==> r.value in ss && r.value.id == id
    ensures r.None? <==> !HasSearch(ss, id)
  {
    match SearchIndex(ss, id)
    case None => None
    case Some(i) => Some(ss[i])
  }

  /** `Recommendation.findById(id)`. */
  function FindRecommendation(rs: seq<Recommendation>, id: Id): (r: Option<Recommendation>)
    ensures r.Some? ==> r.value in rs && r.value.id == id
    ensures r.None? <==> forall k :: 0 <= k < |rs| ==> rs[k].id != id
  {
    match IndexWhere(rs, (rec: Recommendation) => rec.id == id)
    case None => None
    case Some(i) => Some(rs[i])
  }

  function RecForIndex(rs: seq<Recommendation>, sid: Id): Option<nat> {
    IndexWhere(rs, (rec: Recommendation) => rec.searchId == sid)
  }

  predicate HasRecFor(rs: seq<Recommendation>, sid: Id) {
    exists k :: 0 <= k < |rs| && rs[k].searchId == sid
  }

  /** The id of the Recommendation whose `searchId` is `sid`, if any. */
  function RecIdOf(rs: seq<Recommendation>, sid: Id): (r: Option<Id>)
    ensures r.Some? ==> exists k :: 0 <= k < |rs| && rs[k].searchId == sid && rs[k].id == r.value
    ensures r.None? <==> !HasRecFor(rs, sid)
  {
    match RecForIndex(rs, sid)
    case None => None
    case Some(k) => Some(rs[k].id)
  }

  /** `User.findOne({ email })`. */
  function FindUserByEmail(us: seq<User>, email: string): (r: Option<User>)
    ensures r.Some? ==> r.value in us && r.value.email == email
    ensures r.None? <==> forall k :: 0 <= k < |us| ==> us[k].email != email
  {
    match IndexWhere(us, (u: User) => u.email == email)
    case None => None
    case Some(i) => Some(us[i])
  }

  /** `s.status = status; s.save()` on the Search with that id. */
  function WithStatus(ss: seq<Search>, id: Id, status: Status): (r: seq<Search>)
    ensures |r| == |ss|
    ensures forall i :: 0 <= i < |ss| ==> r[i] == if ss[i].id == id then ss[i].(status := status) else ss[i]
  {
    seq(|ss|, i requires 0 <= i < |ss| => if ss[i].id == id then ss[i].(status := status) else ss[i])
  }

  // ---------------------------------------------------------------------------
  // deleteOne

  /** `Search.deleteOne({ _id: id })`. */
  function RemoveSearch(ss: seq<Search>, id: Id): (r: seq<Search>)
    ensures |r| == (if HasSearch(ss, id) then |ss| - 1 else |ss|)
  {
    match SearchIndex(ss, id)
    case None => ss
    case Some(i) => RemoveAt(ss, i)
  }

  /** `Recommendation.deleteOne({ searchId: sid })`. */
  function RemoveRecFor(rs: seq<Recommendation>, sid: Id): (r: seq<Recommendation>)
    ensures |r| == (if HasRecFor(rs, sid) then |rs| - 1 else |rs|)
  {
    match RecForIndex(rs, sid)
    case None => rs
    case Some(i) => RemoveAt(rs, i)
  }

  // ---------------------------------------------------------------------------
  // Invariants of the collections

  /** Search ids strictly increase with insertion and stay below the id counter. */
  ghost predicate SearchesOrdered(ss: seq<Search>, nextId: Id) {
    && (forall i, j :: 0 <= i < j < |ss| ==> ss[i].id < ss[j].id)
    && (forall i :: 0 <= i < |ss| ==> ss[i].id < nextId)
  }

  ghost predicate RecsOrdered(rs: seq<Recommendation>, nextId: Id) {
    && (forall i, j :: 0 <= i < j < |rs| ==> rs[i].id < rs[j].id)
    && (forall i :: 0 <= i < |rs| ==> rs[i].id < nextId)
  }

  ghost predicate UsersOrdered(us: seq<User>, nextId: Id) {
    && (forall i, j :: 0 <= i < j < |us| ==> us[i].id < us[j].id)
    && (forall i :: 0 <= i < |us| ==> us[i].id < nextId)
  }

  ghost predicate UniqueEmails(us: seq<User>) {
    forall i, j :: 0 <= i < j < |us| ==> us[i].email != us[j].email
  }

  /** The unique index on `Recommendation.searchId`. */
  ghost predicate UniqueSearchRefs(rs: seq<Recommendation>) {
    forall i, j :: 0 <= i < j < |rs| ==> rs[i].searchId != rs[j].searchId
  }

  /** Every Recommendation refers to a stored Search. */
  ghost predicate NoOrphans(rs: seq<Recommendation>, ss: seq<Search>) {
    forall k :: 0 <= k < |rs| ==> HasSearch(ss, rs[k].searchId)
  }

  /** A Search is done exactly when its Recommendation is stored. */
  ghost predicate DoneIffRecommended(ss: seq<Search>, rs: seq<Recommendation>) {
    forall i :: 0 <= i < |ss| ==> (ss[i].status == Done <==> HasRecFor(rs, ss[i].id))
  }

  /** Removing one element keeps the others, in order. */
  lemma RemoveAtMembers<T>(s: seq<T>, i: nat, x: T)
    requires i < |s|
    ensures x in RemoveAt(s, i) ==> x in s
    ensures x in s && x != s[i] ==> x in RemoveAt(s, i)
  {
    var r := RemoveAt(s, i);
    if x in r {
      var k :| 0 <= k < |r| && r[k] == x;
      if k < i { assert s[k] == x; } else { assert s[k + 1] == x; }
    }
    if x in s && x != s[i] {
      var k :| 0 <= k < |s| && s[k] == x;
      if k < i { assert r[k] == x; } else { assert r[k - 1] == x; }
    }
  }

  lemma RemoveAtSearchesOrdered(ss: seq<Search>, i: nat, nextId: Id)
    requires i < |ss| && SearchesOrdered(ss, nextId)
    ensures SearchesOrdered(RemoveAt(ss, i), nextId)
  {
    var r := RemoveAt(ss, i);
    forall a, b | 0 <= a < b < |r| ensures r[a].id < r[b].id {
      var a' := if a < i then a else a + 1;
      var b' := if b < i then b else b + 1;
      assert r[a] == ss[a'] && r[b] == ss[b'];
    }
  }

  /** With unique ids the deleted id is gone and the rest is still ordered. */
  lemma RemoveSearchSpec(ss: seq<Search>, id: Id, nextId: Id)
    requires SearchesOrdered(ss, nextId)
    ensures !HasSearch(RemoveSearch(ss, id), id)
    ensures SearchesOrdered(RemoveSearch(ss, id), nextId)
    ensures forall s :: s in ss && s.id != id ==> s in RemoveSearch(ss, id)
    ensures forall s :: s in RemoveSearch(ss, id) ==> s in ss
  {
    match SearchIndex(ss, id)
    case None =>
    case Some(i) =>
      RemoveAtSearchesOrdered(ss, i, nextId);
      forall s | s in ss && s.id != id ensures s in RemoveSearch(ss, id) {
        RemoveAtMembers(ss, i, s);
      }
      forall s | s in RemoveSearch(ss, id) ensures s in ss {
        RemoveAtMembers(ss, i, s);
      }
  }

  /** A second delete of the same id changes nothing. */
  lemma RemoveSearchIdempotent(ss: seq<Search>, id: Id, nextId: Id)
    requires SearchesOrdered(ss, nextId)
    ensures RemoveSearch(RemoveSearch(ss, id), id) == RemoveSearch(ss, id)
  {
    RemoveSearchSpec(ss, id, nextId);
  }

  lemma RemoveAtRecsPreserved(rs: seq<Recommendation>, i: nat, nextId: Id)
    requires i < |rs| && RecsOrdered(rs, nextId) && UniqueSearchRefs(rs)
    ensures RecsOrdered(RemoveAt(rs, i), nextId) && UniqueSearchRefs(RemoveAt(rs, i))
  {
    var r := RemoveAt(rs, i);
    forall a, b | 0 <= a < b < |r| ensures r[a].id < r[b].id && r[a].searchId != r[b].searchId {
      var a' := if a < i then a else a + 1;
      var b' := if b < i then b else b + 1;
      assert r[a] == rs[a'] && r[b] == rs[b'];
    }
  }

  /** With unique references the deleted Recommendation is gone and the others kept. */
  lemma RemoveRecForSpec(rs: seq<Recommendation>, sid: Id, nextId: Id)
    requires UniqueSearchRefs(rs) && RecsOrdered(rs, nextId)
    ensures !HasRecFor(RemoveRecFor(rs, sid), sid)
    ensures UniqueSearchRefs(RemoveRecFor(rs, sid)) && RecsOrdered(RemoveRecFor(rs, sid), nextId)
    ensures forall r :: r in rs && r.searchId != sid ==> r in RemoveRecFor(rs, sid)
    ensures forall r :: r in RemoveRecFor(rs, sid) ==> r in rs
  {
    match RecForIndex(rs, sid)
    case None =>
    case Some(i) =>
      RemoveAtRecsPreserved(rs, i, nextId);
      forall x | x in rs && x.searchId != sid ensures x in RemoveRecFor(rs, sid) {
        RemoveAtMembers(rs, i, x);
      }
      forall x | x in RemoveRecFor(rs, sid) ensures x in rs {
        RemoveAtMembers(rs, i, x);
      }
      RemoveAtDropsRef(rs, i);
  }

  /** With unique references, removing the one Recommendation for a Search leaves none for it. */
  lemma RemoveAtDropsRef(rs: seq<Recommendation>, i: nat)
    requires i < |rs| && UniqueSearchRefs(rs)
    ensures !HasRecFor(RemoveAt(rs, i), rs[i].searchId)
  {
    var r := RemoveAt(rs, i);
    forall k | 0 <= k < |r| ensures r[k].searchId != rs[i].searchId {
      var k' := if k < i then k else k + 1;
      assert r[k] == rs[k'] && k' != i;
    }
  }

  /** Other searches keep their Recommendation, and a second delete changes nothing. */
  lemma RemoveRecForOthers(rs: seq<Recommendation>, sid: Id, nextId: Id)
    requires UniqueSearchRefs(rs) && RecsOrdered(rs, nextId)
    ensures forall t :: t != sid ==> (HasRecFor(RemoveRecFor(rs, sid), t) <==> HasRecFor(rs, t))
    ensures RemoveRecFor(RemoveRecFor(rs, sid), sid) == RemoveRecFor(rs, sid)
  {
    RemoveRecForSpec(rs, sid, nextId);
    var r := RemoveRecFor(rs, sid);
    forall t | t != sid ensures HasRecFor(r, t) <==> HasRecFor(rs, t) {
      if HasRecFor(rs, t) {
        var k :| 0 <= k < |rs| && rs[k].searchId == t;
        assert rs[k] in r;
        var m :| 0 <= m < |r| && r[m] == rs[k];
      }
      if HasRecFor(r, t) {
        var k :| 0 <= k < |r| && r[k].searchId == t;
        assert r[k] in rs;
        var m :| 0 <= m < |rs| && rs[m] == r[k];
      }
    }
  }

  // ---------------------------------------------------------------------------
  // find(filter).sort({ createdAt: -1 }).limit(n)

  /** The filter: one user's searches, or all of them. */
  predicate Owned(s: Search, owner: Option<Id>) {
    owner.None? || s.userId == owner.value
  }

  function CountOwned(ss: seq<Search>, owner: Option<Id>): nat {
    if |ss| == 0 then 0
    else CountOwned(ss[..|ss| - 1], owner) + (if Owned(ss[|ss| - 1], owner) then 1 else 0)
  }

  function Min(a: nat, b: nat): nat {
    if a <= b then a else b
  }

  /** The `limit` newest searches passing the filter, newest first. */
  function Recent(ss: seq<Search>, owner: Option<Id>, limit: nat): (r: seq<Search>)
    ensures |r| == Min(limit, CountOwned(ss, owner))
    ensures forall k :: 0 <= k < |r| ==> r[k] in ss && Owned(r[k], owner)
  {
    if |ss| == 0 || limit == 0 then []
    else
      var last := ss[|ss| - 1];
      var older := Recent(ss[..|ss| - 1], owner, if Owned(last, owner) then limit - 1 else limit);
      if Owned(last, owner) then [last] + older else older
  }

  /** Ids strictly decrease along `r`: `createdAt` descending. */
  predicate NewestFirst(r: seq<Search>) {
    forall i, j :: 0 <= i < j < |r| ==> r[i].id > r[j].id
  }

  /** The query's result is newest first, and its ids come from the collection's range. */
  lemma {:induction false} RecentNewestFirst(ss: seq<Search>, owner: Option<Id>, limit: nat, nextId: Id)
    requires SearchesOrdered(ss, nextId)
    ensures NewestFirst(Recent(ss, owner, limit))
    ensures forall k :: 0 <= k < |Recent(ss, owner, limit)| ==> Recent(ss, owner, limit)[k].id < nextId
  {
    if |ss| > 0 && limit > 0 {
      var prefix := ss[..|ss| - 1];
      var last := ss[|ss| - 1];
      assert SearchesOrdered(prefix, last.id) by {
        assert forall i :: 0 <= i < |prefix| ==> prefix[i] == ss[i];
      }
      var lim := if Owned(last, owner) then limit - 1 else limit;
      RecentNewestFirst(prefix, owner, lim, last.id);
      var older := Recent(prefix, owner, lim);
      var r := Recent(ss, owner, limit);
      if Owned(last, owner) {
        assert r == [last] + older;
        forall i, j | 0 <= i < j < |r| ensures r[i].id > r[j].id {
          assert r[j] == older[j - 1];
          if i > 0 {
            assert r[i] == older[i - 1];
          }
        }
      } else {
        assert r == older;
      }
    }
  }

  /** Nothing newer is skipped: a matching search left out is older than all returned, and the limit is reached. */
  lemma {:induction false} RecentComplete(ss: seq<Search>, owner: Option<Id>, limit: nat, nextId: Id, x: Search)
    requires SearchesOrdered(ss, nextId)
    requires x in ss && Owned(x, owner) && x !in Recent(ss, owner, limit)
    ensures |Recent(ss, owner, limit)| == limit
    ensures forall y :: y in Recent(ss, owner, limit) ==> x.id < y.id
  {
    var r := Recent(ss, owner, limit);
    if limit > 0 {
      var prefix := ss[..|ss| - 1];
      var last := ss[|ss| - 1];
      assert ss == prefix + [last];
      assert SearchesOrdered(prefix, nextId);
      assert x != last;
      assert x in prefix;
      var lim := if Owned(last, owner) then limit - 1 else limit;
      var older := Recent(prefix, owner, lim);
      assert x !in older;
      RecentComplete(prefix, owner, lim, nextId, x);
      if Owned(last, owner) {
        var m :| 0 <= m < |prefix| && prefix[m] == x;
        assert x.id < last.id;
      }
    }
  }
}
