/**
 * The document store: the four Mongo collections as sequences in insertion
 * order, and one method per write the routes issue (`create`, `save`,
 * `deleteOne`). Ids are drawn from `nextId`, standing for fresh ObjectIds.
 */
module Store {
  import opened Wrappers
  import opened Models
  import Recommend

  class Database {
    var users: seq<User>
    var searches: seq<Search>
    var recommendations: seq<Recommendation>
    var audit: seq<AuditEntry>
    var nextId: Id

    /** Unique ids, unique emails, the unique `searchId` index, and no orphan Recommendation. */
    ghost predicate WellFormed()
      reads this
    {
      && UsersOrdered(users, nextId) && UniqueEmails(users)
      && SearchesOrdered(searches, nextId)
      && RecsOrdered(recommendations, nextId) && UniqueSearchRefs(recommendations)
      && NoOrphans(recommendations, searches)
    }

    /** Between requests, also: a Search is done exactly when its Recommendation is stored. */
    ghost predicate Valid()
      reads this
    {
      WellFormed() && DoneIffRecommended(searches, recommendations)
    }

    constructor ()
      ensures Valid()
      ensures users == [] && searches == [] && recommendations == [] && audit == []
    {
      users := [];
      searches := [];
      recommendations := [];
      audit := [];
      nextId := 0;
    }

    /** `User.create(...)`: the email must not be taken. */
    method CreateUser(email: string, passwordHash: string, role: Role) returns (user: User)
      requires WellFormed()
      requires FindUserByEmail(users, email).None?
      modifies this`users, this`nextId
      ensures WellFormed()
      ensures user == User(old(nextId), email, passwordHash, role)
      ensures users == old(users) + [user] && nextId == old(nextId) + 1
    {
      user := User(nextId, email, passwordHash, role);
      users := users + [user];
      nextId := nextId + 1;
    }

    /** `Audit.create(...)`: the log only grows. */
    method AppendAudit(entry: AuditEntry)
      modifies this`audit
      ensures audit == old(audit) + [entry]
    {
      audit := audit + [entry];
    }

    /** `Search.create(...)` with status pending. */
    method CreateSearch(userId: Id, query: Query) returns (search: Search)
      requires Valid()
      modifies this`searches, this`nextId
      ensures Valid()
      ensures search == Search(old(nextId), userId, query, Pending)
      ensures searches == old(searches) + [search] && nextId == old(nextId) + 1
    {
      search := Search(nextId, userId, query, Pending);
      ghost var before := searches;
      assert NoOrphans(recommendations, before) && SearchesOrdered(before, nextId);
      assert !HasRecFor(recommendations, nextId) by {
        forall k | 0 <= k < |recommendations| ensures recommendations[k].searchId != nextId {
          assert HasSearch(before, recommendations[k].searchId);
          var i :| 0 <= i < |before| && before[i].id == recommendations[k].searchId;
        }
      }
      searches := searches + [search];
      nextId := nextId + 1;
      forall k | 0 <= k < |recommendations| ensures HasSearch(searches, recommendations[k].searchId) {
        assert HasSearch(before, recommendations[k].searchId);
        var i :| 0 <= i < |before| && before[i].id == recommendations[k].searchId;
        assert searches[i] == before[i];
      }
      forall i | 0 <= i < |searches|
        ensures searches[i].status == Done <==> HasRecFor(recommendations, searches[i].id)
      {
        if i < |before| { assert searches[i] == before[i]; }
      }
    }

    /** `s.status = status; await s.save()`. */
    method SaveStatus(id: Id, status: Status)
      requires WellFormed()
      modifies this`searches
      ensures WellFormed()
      ensures searches == WithStatus(old(searches), id, status)
    {
      ghost var before := searches;
      assert NoOrphans(recommendations, before);
      searches := WithStatus(searches, id, status);
      forall k | 0 <= k < |recommendations| ensures HasSearch(searches, recommendations[k].searchId) {
        assert HasSearch(before, recommendations[k].searchId);
        var i :| 0 <= i < |before| && before[i].id == recommendations[k].searchId;
        assert searches[i].id == before[i].id;
      }
    }

    /** `Recommendation.create({ searchId, ...result, raw: { fromOpenAI: true } })`. */
    method CreateRecommendation(searchId: Id, result: Recommend.RecData) returns (rec: Recommendation)
      requires WellFormed()
      requires HasSearch(searches, searchId) && !HasRecFor(recommendations, searchId)
      modifies this`recommendations, this`nextId
      ensures WellFormed()
      ensures rec == Recommendation(old(nextId), searchId, result, true)
      ensures recommendations == old(recommendations) + [rec] && nextId == old(nextId) + 1
    {
      rec := Recommendation(nextId, searchId, result, true);
      recommendations := recommendations + [rec];
      nextId := nextId + 1;
    }

    /** `Recommendation.deleteOne({ searchId })`. */
    method DeleteRecommendationFor(searchId: Id) returns (deleted: nat)
      requires WellFormed()
      modifies this`recommendations
      ensures WellFormed()
      ensures recommendations == RemoveRecFor(old(recommendations), searchId)
      ensures deleted == |old(recommendations)| - |recommendations|
    {
      var before := recommendations;
      RemoveRecForSpec(recommendations, searchId, nextId);
      recommendations := RemoveRecFor(recommendations, searchId);
      deleted := |before| - |recommendations|;
      forall k | 0 <= k < |recommendations| ensures HasSearch(searches, recommendations[k].searchId) {
        assert recommendations[k] in before;
      }
    }

    /** `Search.deleteOne({ _id: id })`, once no Recommendation refers to it. */
    method DeleteSearch(id: Id) returns (deleted: nat)
      requires WellFormed() && !HasRecFor(recommendations, id)
      modifies this`searches
      ensures WellFormed()
      ensures searches == RemoveSearch(old(searches), id)
      ensures deleted == |old(searches)| - |searches|
    {
      var before := searches;
      assert NoOrphans(recommendations, before);
      RemoveSearchSpec(searches, id, nextId);
      searches := RemoveSearch(searches, id);
      deleted := |before| - |searches|;
      forall k | 0 <= k < |recommendations| ensures HasSearch(searches, recommendations[k].searchId) {
        assert HasSearch(before, recommendations[k].searchId);
        var i :| 0 <= i < |before| && before[i].id == recommendations[k].searchId;
        assert before[i] in searches;
      }
    }
  }
}
