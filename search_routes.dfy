/**
 * routes/search.js: creating a search (which runs the recommendation
 * pipeline), the caller's history, one result with its ownership check, and
 * the admin listing this router also serves.
 */
module SearchRoutes {
  import opened Wrappers
  import opened Models
  import opened Gate
  import opened Store
  import Recommend

  /** The request body of `POST /searches`; an absent field is "". */
  datatype SearchBody = SearchBody(
    location: string, mood: string, category: string, companions: string, budget: int, atmosphere: string)

  const LocationRequired: HttpError := HttpError(400, "location 필요")
  const ResultNotFound: HttpError := HttpError(404, "결과 없음")
  const SearchNotFound: HttpError := HttpError(404, "검색 없음")

  /** The pipeline's failure: status 500 with the thrown message. */
  function PipelineError(message: string): HttpError {
    HttpError(500, message)
  }

  function StoredQuery(body: SearchBody): Query {
    Query(body.location, body.mood, body.category, body.companions, body.budget, body.atmosphere)
  }

  function PipelineInput(body: SearchBody): Recommend.RecommendInput {
    Recommend.RecommendInput(body.location, body.mood, body.category, body.companions, body.budget, body.atmosphere)
  }

  // ---------------------------------------------------------------------------
  // POST /searches

  /** A new search settled as done with its Recommendation, or as failed without one, keeps the store valid. */
  lemma SettledSearchValid(ss: seq<Search>, rs: seq<Recommendation>, s: Search, added: seq<Recommendation>)
    requires DoneIffRecommended(ss, rs)
    requires forall i :: 0 <= i < |ss| ==> ss[i].id != s.id
    requires !HasRecFor(rs, s.id)
    requires forall k :: 0 <= k < |added| ==> added[k].searchId == s.id
    requires s.status == Done <==> |added| > 0
    ensures DoneIffRecommended(ss + [s], rs + added)
  {
    var after := ss + [s];
    var recs := rs + added;
    forall i | 0 <= i < |after| ensures after[i].status == Done <==> HasRecFor(recs, after[i].id) {
      if i < |ss| {
        assert after[i] == ss[i];
        if HasRecFor(recs, ss[i].id) {
          var k :| 0 <= k < |recs| && recs[k].searchId == ss[i].id;
          assert k < |rs| && rs[k].searchId == ss[i].id;
        }
        if HasRecFor(rs, ss[i].id) {
          var k :| 0 <= k < |rs| && rs[k].searchId == ss[i].id;
          assert recs[k] == rs[k];
        }
      } else {
        assert after[i] == s;
        if |added| > 0 {
          assert recs[|rs|] == added[0];
        }
        if HasRecFor(recs, s.id) {
          var k :| 0 <= k < |recs| && recs[k].searchId == s.id;
          assert k >= |rs|;
        }
      }
    }
  }

  /** Settling the newest search's status rewrites only that search. */
  lemma SettleNewest(ss: seq<Search>, s: Search, status: Status)
    requires forall i :: 0 <= i < |ss| ==> ss[i].id != s.id
    ensures WithStatus(ss + [s], s.id, status) == ss + [s.(status := status)]
  {
    var after := ss + [s];
    assert forall i :: 0 <= i < |ss| ==> after[i] == ss[i];
  }

  /**
   * `POST /searches`: a pending Search is stored first and settled by the
   * pipeline's outcome; on success its Recommendation and a SEARCH_CREATE
   * audit entry are stored and the Recommendation's id returned.
   */
  method CreateSearch(db: Database, header: string, verify: string -> Option<Claims>, body: SearchBody,
                      cfg: Recommend.Config, svc: Recommend.Services) returns (r: Reply<Id>)
    requires db.Valid()
    modifies db
    ensures db.Valid()
    ensures Authenticate(header, verify).Failure? ==>
      r == Fail(Authenticate(header, verify).error) && unchanged(db)
    ensures Authenticate(header, verify).Success? && body.location == "" ==>
      r == Fail(LocationRequired) && unchanged(db)
    ensures Authenticate(header, verify).Success? && body.location != "" ==>
      var uid := Authenticate(header, verify).value.uid;
      var sid := old(db.nextId);
      var outcome := Recommend.RealRecommend(cfg, PipelineInput(body), svc);
      && db.users == old(db.users)
      && db.searches == old(db.searches) + [Search(sid, uid, StoredQuery(body), if outcome.Success? then Done else Failed)]
      && (outcome.Success? ==>
            && db.recommendations == old(db.recommendations) + [Recommendation(sid + 1, sid, outcome.value, true)]
            && db.audit == old(db.audit) + [AuditEntry(Some(uid), SearchCreateAction, Some(sid))]
            && r == Ok(201, sid + 1))
      && (outcome.Failure? ==>
            && db.recommendations == old(db.recommendations)
            && db.audit == old(db.audit)
            && r == Fail(PipelineError(outcome.error)))
  {
    var auth := Authenticate(header, verify);
    if auth.Failure? {
      return Fail(auth.error);
    }
    if body.location == "" {
      return Fail(LocationRequired);
    }
    ghost var ss0 := db.searches;
    var s := db.CreateSearch(auth.value.uid, StoredQuery(body));
    assert db.searches == ss0 + [s];
    var outcome := Recommend.RealRecommend(cfg, PipelineInput(body), svc);
    if outcome.Success? {
      var recId := SettleDone(db, ss0, s, outcome.value);
      db.AppendAudit(AuditEntry(Some(auth.value.uid), SearchCreateAction, Some(s.id)));
      r := Ok(201, recId);
    } else {
      SettleFailed(db, ss0, s);
      r := Fail(PipelineError(outcome.error));
    }
  }

  /** The pipeline succeeded: store its Recommendation, then mark the newest search done. */
  method SettleDone(db: Database, ghost ss0: seq<Search>, s: Search, result: Recommend.RecData) returns (recId: Id)
    requires db.Valid() && db.searches == ss0 + [s] && s.status == Pending
    modifies db`searches, db`recommendations, db`nextId
    ensures db.Valid()
    ensures recId == old(db.nextId)
    ensures db.searches == ss0 + [s.(status := Done)]
    ensures db.recommendations == old(db.recommendations) + [Recommendation(recId, s.id, result, true)]
  {
    ghost var rs0 := db.recommendations;
    assert db.searches[|ss0|] == s;
    assert forall i :: 0 <= i < |ss0| ==> ss0[i].id != s.id by {
      assert forall i :: 0 <= i < |ss0| ==> db.searches[i] == ss0[i];
    }
    assert !HasRecFor(db.recommendations, s.id);
    assert DoneIffRecommended(ss0, rs0) by {
      forall i | 0 <= i < |ss0| ensures ss0[i].status == Done <==> HasRecFor(rs0, ss0[i].id) {
        assert db.searches[i] == ss0[i];
      }
    }
    var rec := db.CreateRecommendation(s.id, result);
    db.SaveStatus(s.id, Done);
    SettleNewest(ss0, s, Done);
    SettledSearchValid(ss0, rs0, s.(status := Done), [rec]);
    recId := rec.id;
  }

  /** The pipeline threw: mark the newest search failed; nothing else is stored. */
  method SettleFailed(db: Database, ghost ss0: seq<Search>, s: Search)
    requires db.Valid() && db.searches == ss0 + [s] && s.status == Pending
    modifies db`searches
    ensures db.Valid()
    ensures db.searches == ss0 + [s.(status := Failed)]
  {
    ghost var rs0 := db.recommendations;
    assert db.searches[|ss0|] == s;
    assert forall i :: 0 <= i < |ss0| ==> ss0[i].id != s.id by {
      assert forall i :: 0 <= i < |ss0| ==> db.searches[i] == ss0[i];
    }
    assert !HasRecFor(db.recommendations, s.id);
    assert DoneIffRecommended(ss0, rs0) by {
      forall i | 0 <= i < |ss0| ensures ss0[i].status == Done <==> HasRecFor(rs0, ss0[i].id) {
        assert db.searches[i] == ss0[i];
      }
    }
    db.SaveStatus(s.id, Failed);
    SettleNewest(ss0, s, Failed);
    SettledSearchValid(ss0, rs0, s.(status := Failed), []);
    assert rs0 + [] == rs0;
  }

  // ---------------------------------------------------------------------------
  // GET /searches

  const HistoryLimit: nat := 50

  /** A history row: the Search and its Recommendation's id, `null` when there is none. */
  datatype HistoryItem = HistoryItem(search: Search, recId: Option<Id>)

  /** Each search with its Recommendation's id: `recMap.get(s._id) || null`. */
  function Join(list: seq<Search>, rs: seq<Recommendation>): (items: seq<HistoryItem>)
    ensures |items| == |list|
    ensures forall k :: 0 <= k < |list| ==> items[k] == HistoryItem(list[k], RecIdOf(rs, list[k].id))
  {
    seq(|list|, i requires 0 <= i < |list| => HistoryItem(list[i], RecIdOf(rs, list[i].id)))
  }

  /** The caller's 50 newest searches, each joined with its Recommendation's id. */
  function History(ss: seq<Search>, rs: seq<Recommendation>, uid: Id): seq<HistoryItem> {
    Join(Recent(ss, Some(uid), HistoryLimit), rs)
  }

  /** Only the caller's own searches, newest first, at most 50, and none newer skipped. */
  lemma HistoryScope(ss: seq<Search>, rs: seq<Recommendation>, uid: Id, nextId: Id, x: Search)
    requires SearchesOrdered(ss, nextId)
    ensures var h := History(ss, rs, uid);
      && |h| <= HistoryLimit
      && (forall k :: 0 <= k < |h| ==> h[k].search in ss && h[k].search.userId == uid)
      && (forall i, j :: 0 <= i < j < |h| ==> h[i].search.id > h[j].search.id)
    ensures var h := History(ss, rs, uid);
      x in ss && x.userId == uid && (forall k :: 0 <= k < |h| ==> h[k].search != x) ==>
        |h| == HistoryLimit && forall k :: 0 <= k < |h| ==> x.id < h[k].search.id
  {
    var h := History(ss, rs, uid);
    var list := Recent(ss, Some(uid), HistoryLimit);
    RecentNewestFirst(ss, Some(uid), HistoryLimit, nextId);
    if x in ss && x.userId == uid && (forall k :: 0 <= k < |h| ==> h[k].search != x) {
      assert x !in list by {
        forall k | 0 <= k < |list| ensures list[k] != x {
          assert h[k].search == list[k];
        }
      }
      RecentComplete(ss, Some(uid), HistoryLimit, nextId, x);
      forall k | 0 <= k < |h| ensures x.id < h[k].search.id {
        assert h[k].search == list[k] && list[k] in list;
      }
    }
  }

  /** With the unique `searchId` index, a Recommendation's search resolves to that Recommendation's id. */
  lemma RecIdOfStored(rs: seq<Recommendation>, k: nat)
    requires UniqueSearchRefs(rs) && k < |rs|
    ensures RecIdOf(rs, rs[k].searchId) == Some(rs[k].id)
  {
    var r := RecIdOf(rs, rs[k].searchId);
    assert HasRecFor(rs, rs[k].searchId);
    var k' :| 0 <= k' < |rs| && rs[k'].searchId == rs[k].searchId && rs[k'].id == r.value;
    assert k' == k;
  }

  /** A row's `recId` is set exactly when the search is done, and names its Recommendation. */
  lemma HistoryRecIds(ss: seq<Search>, rs: seq<Recommendation>, uid: Id)
    requires UniqueSearchRefs(rs) && DoneIffRecommended(ss, rs)
    ensures forall k :: 0 <= k < |History(ss, rs, uid)| ==>
      var item := History(ss, rs, uid)[k];
      && (item.recId.Some? <==> item.search.status == Done)
      && (item.recId.Some? ==> exists j :: 0 <= j < |rs| && rs[j].id == item.recId.value && rs[j].searchId == item.search.id)
  {
    var h := History(ss, rs, uid);
    var list := Recent(ss, Some(uid), HistoryLimit);
    forall k | 0 <= k < |h|
      ensures h[k].recId.Some? <==> h[k].search.status == Done
    {
      assert h[k] == HistoryItem(list[k], RecIdOf(rs, list[k].id));
      var i :| 0 <= i < |ss| && ss[i] == list[k];
      assert ss[i].status == Done <==> HasRecFor(rs, ss[i].id);
    }
  }

  /**
   * `GET /searches`: the newest 50 own searches, then one lookup of the
   * Recommendations for those ids, indexed by `searchId` in a map.
   */
  method ListSearches(searches: seq<Search>, recommendations: seq<Recommendation>, header: string,
                      verify: string -> Option<Claims>) returns (r: Reply<seq<HistoryItem>>)
    requires UniqueSearchRefs(recommendations)
    ensures Authenticate(header, verify).Failure? ==> r == Fail(Authenticate(header, verify).error)
    ensures Authenticate(header, verify).Success? ==>
      r == Ok(200, History(searches, recommendations, Authenticate(header, verify).value.uid))
  {
    var auth := Authenticate(header, verify);
    if auth.Failure? {
      return Fail(auth.error);
    }
    var list := Recent(searches, Some(auth.value.uid), HistoryLimit);
    var ids: set<Id> := set k | 0 <= k < |list| :: list[k].id;
    var recMap := RecIdsBySearch(recommendations, ids);
    var items := Annotate(list, recommendations, recMap, ids);
    r := Ok(200, items);
  }

  /** `list.map(s => ({ ...s, recId: recMap.get(s._id) || null }))`. */
  method Annotate(list: seq<Search>, recommendations: seq<Recommendation>, recMap: map<Id, Id>, ghost ids: set<Id>)
    returns (items: seq<HistoryItem>)
    requires forall k :: 0 <= k < |list| ==> list[k].id in ids
    requires forall sid :: sid in ids ==> (sid in recMap <==> HasRecFor(recommendations, sid))
    requires forall sid :: sid in recMap ==> RecIdOf(recommendations, sid) == Some(recMap[sid])
    ensures items == Join(list, recommendations)
  {
    items := [];
    var i := 0;
    while i < |list|
      invariant 0 <= i <= |list|
      invariant |items| == i
      invariant forall k :: 0 <= k < i ==> items[k] == HistoryItem(list[k], RecIdOf(recommendations, list[k].id))
    {
      var recId := if list[i].id in recMap then Some(recMap[list[i].id]) else None;
      assert recId == RecIdOf(recommendations, list[i].id);
      items := items + [HistoryItem(list[i], recId)];
      i := i + 1;
    }
  }

  /**
   * `Recommendation.find({ searchId: { $in: ids } })` turned into
   * `new Map(recs.map(r => [r.searchId, r._id]))`.
   */
  method RecIdsBySearch(recommendations: seq<Recommendation>, ids: set<Id>) returns (recMap: map<Id, Id>)
    requires UniqueSearchRefs(recommendations)
    ensures recMap.Keys <= ids
    ensures forall sid :: sid in ids ==> (sid in recMap <==> HasRecFor(recommendations, sid))
    ensures forall sid :: sid in recMap ==> RecIdOf(recommendations, sid) == Some(recMap[sid])
  {
    recMap := map[];
    var n := 0;
    while n < |recommendations|
      invariant 0 <= n <= |recommendations|
      invariant forall sid :: sid in recMap ==>
        sid in ids && exists k :: 0 <= k < n && recommendations[k].searchId == sid && recommendations[k].id == recMap[sid]
      invariant forall k :: 0 <= k < n && recommendations[k].searchId in ids ==> recommendations[k].searchId in recMap
    {
      var rec := recommendations[n];
      if rec.searchId in ids {
        recMap := recMap[rec.searchId := rec.id];
      }
      n := n + 1;
    }
    forall sid | sid in recMap ensures RecIdOf(recommendations, sid) == Some(recMap[sid]) {
      var k :| 0 <= k < |recommendations| && recommendations[k].searchId == sid && recommendations[k].id == recMap[sid];
      RecIdOfStored(recommendations, k);
    }
  }

  // ---------------------------------------------------------------------------
  // GET /results/:id

  /** The detail reply: `{ result, search }`. */
  datatype Detail = Detail(result: Recommendation, search: Search)

  /** `GET /results/:id`: the Recommendation, its Search, and the owner-or-admin check. */
  function ResultDetail(ss: seq<Search>, rs: seq<Recommendation>, header: string,
                        verify: string -> Option<Claims>, id: Id): (r: Reply<Detail>)
    ensures Authenticate(header, verify).Failure? ==> r == Fail(Authenticate(header, verify).error)
    ensures Authenticate(header, verify).Success? ==>
      (r == Fail(ResultNotFound) <==> forall k :: 0 <= k < |rs| ==> rs[k].id != id)
    ensures Authenticate(header, verify).Success? && FindRecommendation(rs, id).Some? ==>
      FindSearch(ss, FindRecommendation(rs, id).value.searchId).None? ==> r == Fail(SearchNotFound)
    ensures r.Ok? ==>
      var claims := Authenticate(header, verify).value;
      && r.status == 200
      && r.body.result in rs && r.body.result.id == id
      && r.body.search in ss && r.body.search.id == r.body.result.searchId
      && (claims.role == "admin" || r.body.search.userId == claims.uid)
  {
    match Authenticate(header, verify)
    case Failure(e) => Fail(e)
    case Success(claims) =>
      match FindRecommendation(rs, id)
      case None => Fail(ResultNotFound)
      case Some(rec) =>
        match FindSearch(ss, rec.searchId)
        case None => Fail(SearchNotFound)
        case Some(s) =>
          if claims.role != "admin" && s.userId != claims.uid then Fail(Forbidden)
          else Ok(200, Detail(rec, s))
  }

  /**
   * For a stored Recommendation in a well-formed store, the reply is the
   * Recommendation with its Search when the caller owns it or is an admin,
   * and 403 otherwise.
   */
  lemma ResultAccess(ss: seq<Search>, rs: seq<Recommendation>, nextId: Id, header: string,
                     verify: string -> Option<Claims>, k: nat)
    requires SearchesOrdered(ss, nextId) && RecsOrdered(rs, nextId) && NoOrphans(rs, ss)
    requires Authenticate(header, verify).Success? && k < |rs|
    ensures var claims := Authenticate(header, verify).value;
      exists i :: 0 <= i < |ss| && ss[i].id == rs[k].searchId &&
        ResultDetail(ss, rs, header, verify, rs[k].id) ==
          if claims.role == "admin" || ss[i].userId == claims.uid then Ok(200, Detail(rs[k], ss[i]))
          else Fail(Forbidden)
  {
    IndexWhereUnique(rs, (rec: Recommendation) => rec.id == rs[k].id, k);
    var i :| 0 <= i < |ss| && ss[i].id == rs[k].searchId;
    IndexWhereUnique(ss, (s: Search) => s.id == rs[k].searchId, i);
  }

  // ---------------------------------------------------------------------------
  // GET /admin/logs on this router

  const SearchRouterLogLimit: nat := 100

  /** `GET /admin/logs`: the 100 newest searches of all users, for admins only. */
  function AdminLogs(ss: seq<Search>, header: string, verify: string -> Option<Claims>): (r: Reply<seq<Search>>)
    ensures AdminGate(header, verify).Failure? ==> r == Fail(AdminGate(header, verify).error)
    ensures r.Ok? <==> AdminGate(header, verify).Success?
    ensures r.Ok? ==> r.status == 200 && r.body == Recent(ss, None, SearchRouterLogLimit)
  {
    match AdminGate(header, verify)
    case Failure(e) => Fail(e)
    case Success(_) => Ok(200, Recent(ss, None, SearchRouterLogLimit))
  }
}
