/**
 * routes/admin.js: the full search log and the cascading single delete,
 * both behind `requireAuth` and `requireAdmin`.
 */
module AdminRoutes {
  import opened Wrappers
  import opened Models
  import opened Gate
  import opened Store

  const LogLimit: nat := 200

  /** `GET /logs`: the 200 newest searches of all users, for admins only. */
  function Logs(ss: seq<Search>, header: string, verify: string -> Option<Claims>): (r: Reply<seq<Search>>)
    ensures AdminGate(header, verify).Failure? ==> r == Fail(AdminGate(header, verify).error)
    ensures r.Ok? <==> AdminGate(header, verify).Success?
    ensures r.Ok? ==> r.status == 200 && r.body == Recent(ss, None, LogLimit)
  {
    match AdminGate(header, verify)
    case Failure(e) => Fail(e)
    case Success(_) => Ok(200, Recent(ss, None, LogLimit))
  }

  /** The listing is every user's searches, newest first, and skips none while under the limit. */
  lemma LogsCoverAllUsers(ss: seq<Search>, nextId: Id, header: string, verify: string -> Option<Claims>, x: Search)
    requires SearchesOrdered(ss, nextId) && AdminGate(header, verify).Success?
    ensures NewestFirst(Logs(ss, header, verify).body)
    ensures |Logs(ss, header, verify).body| == Min(LogLimit, |ss|)
    ensures x in ss && x !in Logs(ss, header, verify).body ==>
      forall y :: y in Logs(ss, header, verify).body ==> x.id < y.id
  {
    RecentNewestFirst(ss, None, LogLimit, nextId);
    CountAll(ss);
    if x in ss && x !in Recent(ss, None, LogLimit) {
      RecentComplete(ss, None, LogLimit, nextId, x);
    }
  }

  /** Without an owner filter every search counts. */
  lemma {:induction false} CountAll(ss: seq<Search>)
    ensures CountOwned(ss, None) == |ss|
  {
    if |ss| > 0 {
      CountAll(ss[..|ss| - 1]);
    }
  }

  /**
   * The cascade `Recommendation.deleteOne({ searchId })` then
   * `Search.deleteOne({ _id: searchId })` on a valid store: both are gone,
   * everything else is kept, the store stays valid, and repeating it is a no-op.
   */
  lemma CascadeDelete(ss: seq<Search>, rs: seq<Recommendation>, sid: Id, nextId: Id)
    requires SearchesOrdered(ss, nextId) && RecsOrdered(rs, nextId) && UniqueSearchRefs(rs)
    requires NoOrphans(rs, ss) && DoneIffRecommended(ss, rs)
    ensures var ss' := RemoveSearch(ss, sid); var rs' := RemoveRecFor(rs, sid);
      && !HasSearch(ss', sid) && !HasRecFor(rs', sid)
      && (forall s :: s in ss && s.id != sid ==> s in ss')
      && (forall r :: r in rs && r.searchId != sid ==> r in rs')
      && NoOrphans(rs', ss') && DoneIffRecommended(ss', rs')
      && RemoveSearch(ss', sid) == ss' && RemoveRecFor(rs', sid) == rs'
  {
    var ss' := RemoveSearch(ss, sid);
    var rs' := RemoveRecFor(rs, sid);
    RemoveSearchSpec(ss, sid, nextId);
    RemoveSearchIdempotent(ss, sid, nextId);
    RemoveRecForSpec(rs, sid, nextId);
    RemoveRecForOthers(rs, sid, nextId);
    forall k | 0 <= k < |rs'| ensures HasSearch(ss', rs'[k].searchId) {
      assert rs'[k] in rs;
      var i :| 0 <= i < |ss| && ss[i].id == rs'[k].searchId;
      assert ss[i] in ss';
      var j :| 0 <= j < |ss'| && ss'[j] == ss[i];
    }
    forall i | 0 <= i < |ss'| ensures ss'[i].status == Done <==> HasRecFor(rs', ss'[i].id) {
      assert ss'[i] in ss;
      var j :| 0 <= j < |ss| && ss[j] == ss'[i];
    }
  }

  /** `DELETE /logs/:searchId`: `{ deleted }` is the number of searches removed. */
  method DeleteLog(db: Database, header: string, verify: string -> Option<Claims>, searchId: Id)
    returns (r: Reply<nat>)
    requires db.Valid()
    modifies db
    ensures db.Valid()
    ensures AdminGate(header, verify).Failure? ==>
      r == Fail(AdminGate(header, verify).error) && unchanged(db)
    ensures AdminGate(header, verify).Success? ==>
      && db.recommendations == RemoveRecFor(old(db.recommendations), searchId)
      && db.searches == RemoveSearch(old(db.searches), searchId)
      && db.users == old(db.users) && db.audit == old(db.audit) && db.nextId == old(db.nextId)
      && r == Ok(200, if HasSearch(old(db.searches), searchId) then 1 else 0)
  {
    var gate := AdminGate(header, verify);
    if gate.Failure? {
      return Fail(gate.error);
    }
    var deleted := Cascade(db, searchId);
    r := Ok(200, deleted);
  }

  /** The two `deleteOne` calls in sequence; `deleted` is the Search's count. */
  method Cascade(db: Database, searchId: Id) returns (deleted: nat)
    requires db.Valid()
    modifies db`searches, db`recommendations
    ensures db.Valid()
    ensures db.recommendations == RemoveRecFor(old(db.recommendations), searchId)
    ensures db.searches == RemoveSearch(old(db.searches), searchId)
    ensures deleted == if HasSearch(old(db.searches), searchId) then 1 else 0
  {
    ghost var ss0 := db.searches;
    ghost var rs0 := db.recommendations;
    CascadeDelete(ss0, rs0, searchId, db.nextId);
    var _ := db.DeleteRecommendationFor(searchId);
    assert !HasRecFor(db.recommendations, searchId);
    deleted := db.DeleteSearch(searchId);
    assert db.searches == RemoveSearch(ss0, searchId) && db.recommendations == RemoveRecFor(rs0, searchId);
    assert DoneIffRecommended(db.searches, db.recommendations);
  }
}
