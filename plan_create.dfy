/** POST /api/businessplan/create (app/api/businessplan/create/route.ts):
    creates an empty plan linked to the caller's User document. */
module PlanCreate {
  import opened Common
  import opened Models

  /** The document `new BusinessPlan({ userId })` builds: the owner and no
      other field. */
  function EmptyPlan(owner: ObjectId): (p: Plan)
    ensures p.userId == owner && forall f :: f !in p.fields
  {
    Plan(owner, map[])
  }

  method Post(db: Store, clerkId: Option<string>, fault: DbFault) returns (r: Response<ObjectId>)
    requires db.Valid()
    modifies db
    ensures db.Valid()
    ensures db.users == old(db.users)
    ensures !Truthy(clerkId) ==> r == Fail(401, "Unauthorized") && db.plans == old(db.plans)
    ensures Truthy(clerkId) && fault == Unreachable ==>
      r == Fail(500, "Internal Server Error") && db.plans == old(db.plans)
    ensures Truthy(clerkId) && fault != Unreachable && clerkId.value !in old(db.users) ==>
      r == Fail(404, "User not found in database. Please log in again.") && db.plans == old(db.plans)
    ensures Truthy(clerkId) && fault == WriteRejected && clerkId.value in old(db.users) ==>
      r == Fail(500, "Internal Server Error") && db.plans == old(db.plans)
    ensures r.Ok? <==> Truthy(clerkId) && fault == Healthy && clerkId.value in old(db.users)
    // exactly one new plan, owned by the caller, under the returned id
    ensures r.Ok? ==>
      && r.value !in old(db.plans)
      && db.plans == old(db.plans)[r.value := EmptyPlan(old(db.users)[clerkId.value].id)]
      && db.plans.Keys == old(db.plans).Keys + {r.value}
      && |db.plans| == |old(db.plans)| + 1
  {
    if !Truthy(clerkId) {
      return Fail(401, "Unauthorized");
    }
    if fault == Unreachable {
      return Fail(500, "Internal Server Error");
    }
    var clerk := clerkId.value;
    if clerk !in db.users {
      return Fail(404, "User not found in database. Please log in again.");
    }
    var user := db.users[clerk];
    var id := db.NewObjectId();
    if fault == WriteRejected {
      return Fail(500, "Internal Server Error");
    }
    db.plans := db.plans[id := EmptyPlan(user.id)];
    assert forall k :: k in db.plans ==> exists c :: c in db.users && db.users[c].id == db.plans[k].userId by {
      forall k | k in db.plans
        ensures exists c :: c in db.users && db.users[c].id == db.plans[k].userId
      {
        if k == id {
          assert db.users[clerk].id == db.plans[k].userId;
        }
      }
    }
    r := Ok(id);
  }
}
