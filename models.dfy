/** The two collections of the document store (lib/models/User.ts and
    lib/models/Business.ts) and the store itself. */
module Models {

  /** A MongoDB ObjectId. The store issues them from a counter, so a new one
      differs from every id issued before. */
  type ObjectId = nat

  /** A User document. Its `clerkId` is the key of the users map, since the
      schema declares it unique; `id` is the document's own `_id`. */
  datatype User = User(id: ObjectId, email: string, name: string)

  /** The optional string fields of a BusinessPlan document. */
  datatype Field =
    | BusinessName
    | BusinessIndustry
    | BusinessAudience
    | BusinessDescription
    | BusinessBudget
    | BusinessGoal
    | AiResponse

  /** A BusinessPlan document: its owner's User `_id` (required) and the
      optional fields that are set; a field missing from the map is absent. */
  datatype Plan = Plan(userId: ObjectId, fields: map<Field, string>)

  /** A `$set` of the given fields: each named field takes its new value and
      every other field keeps its value or stays absent. */
  function Merge(p: Plan, changes: map<Field, string>): (q: Plan)
    ensures q.userId == p.userId
    ensures q.fields.Keys == p.fields.Keys + changes.Keys
    ensures forall f :: f in changes ==> q.fields[f] == changes[f]
    ensures forall f :: f in p.fields && f !in changes ==> q.fields[f] == p.fields[f]
  {
    Plan(p.userId, p.fields + changes)
  }

  /** Setting the same fields again changes nothing more. */
  lemma MergeIdempotent(p: Plan, changes: map<Field, string>)
    ensures Merge(Merge(p, changes), changes) == Merge(p, changes)
  {
    assert Merge(Merge(p, changes), changes).fields == Merge(p, changes).fields;
  }

  /** Two merges in a row are one merge in which the later values win. */
  lemma MergeCompose(p: Plan, first: map<Field, string>, second: map<Field, string>)
    ensures Merge(Merge(p, first), second) == Merge(p, first + second)
  {
    assert Merge(Merge(p, first), second).fields == Merge(p, first + second).fields;
  }

  /** An empty `$set` leaves the document as it is. */
  lemma MergeEmpty(p: Plan)
    ensures Merge(p, map[]) == p
  {
    assert Merge(p, map[]).fields == p.fields;
  }

  predicate UserIdsBelow(users: map<string, User>, bound: ObjectId) {
    forall c :: c in users ==> users[c].id < bound
  }

  predicate PlanIdsBelow(plans: map<ObjectId, Plan>, bound: ObjectId) {
    forall k :: k in plans ==> k < bound
  }

  /** No two users share an `_id`. */
  predicate UserIdsDistinct(users: map<string, User>) {
    forall c, d :: c in users && d in users && c != d ==> users[c].id != users[d].id
  }

  /** Both required string paths of User are non-empty. */
  predicate RequiredUserPaths(users: map<string, User>) {
    forall c :: c in users ==> c != "" && users[c].email != ""
  }

  /** Every plan belongs to a stored user. */
  predicate OwnersExist(users: map<string, User>, plans: map<ObjectId, Plan>) {
    forall k :: k in plans ==> exists c :: c in users && users[c].id == plans[k].userId
  }

  class Store {
    var users: map<string, User>
    var plans: map<ObjectId, Plan>
    var nextId: ObjectId

    ghost predicate Valid()
      reads this
    {
      && UserIdsBelow(users, nextId)
      && PlanIdsBelow(plans, nextId)
      && UserIdsDistinct(users)
      && RequiredUserPaths(users)
      && OwnersExist(users, plans)
    }

    constructor ()
      ensures Valid()
      ensures users == map[] && plans == map[]
    {
      users, plans, nextId := map[], map[], 0;
    }

    /** Issues an ObjectId that is neither a plan key nor a user `_id`. */
    method NewObjectId() returns (id: ObjectId)
      requires Valid()
      modifies this`nextId
      ensures Valid()
      ensures id == old(nextId) && nextId == id + 1
      ensures id !in plans
      ensures forall c :: c in users ==> users[c].id != id
    {
      id := nextId;
      nextId := nextId + 1;
    }
  }
}
