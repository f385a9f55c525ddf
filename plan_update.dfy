/** PATCH /api/businessplan/update (app/api/businessplan/update/route.ts):
    a chain of early returns ending in a `$set` partial merge on one plan. */
module PlanUpdate {
  import opened Common
  import opened Models

  /** The request body `{ id, updateData }`. `None` stands for a falsy value
      (absent, null, empty string); `updateData` is the field map of `$set`. */
  datatype UpdateBody = UpdateBody(id: Option<ObjectId>, updateData: Option<map<Field, string>>)

  method Patch(db: Store, clerkId: Option<string>, body: UpdateBody, fault: DbFault)
    returns (r: Response<Plan>)
    requires db.Valid()
    modifies db
    ensures db.Valid()
    ensures db.users == old(db.users) && db.nextId == old(db.nextId)
    // 401 before anything else
    ensures !Truthy(clerkId) ==> r == Fail(401, "Unauthorized") && db.plans == old(db.plans)
    // connecting fails: 500, before the body is looked at
    ensures Truthy(clerkId) && fault == Unreachable ==>
      r == Fail(500, "Internal Server Error") && db.plans == old(db.plans)
    // falsy id or falsy updateData: 400
    ensures Truthy(clerkId) && fault != Unreachable && (body.id.None? || body.updateData.None?) ==>
      r == Fail(400, "Missing ID or update data") && db.plans == old(db.plans)
    // the update itself throws: 500
    ensures Truthy(clerkId) && fault == WriteRejected && body.id.Some? && body.updateData.Some? ==>
      r == Fail(500, "Internal Server Error") && db.plans == old(db.plans)
    // no plan with that id: 404
    ensures (Truthy(clerkId) && fault == Healthy && body.id.Some? && body.updateData.Some?
             && body.id.value !in old(db.plans)) ==>
      r == Fail(404, "Business plan not found") && db.plans == old(db.plans)
    // success, whoever owns the plan: the merged record is stored and returned
    ensures r.Ok? <==>
      Truthy(clerkId) && fault == Healthy && body.id.Some? && body.updateData.Some?
      && body.id.value in old(db.plans)
    ensures r.Ok? ==>
      && db.plans == old(db.plans)[body.id.value := Merge(old(db.plans)[body.id.value], body.updateData.value)]
      && r.value == db.plans[body.id.value]
  {
    if !Truthy(clerkId) {
      return Fail(401, "Unauthorized");
    }
    if fault == Unreachable {
      return Fail(500, "Internal Server Error");
    }
    if body.id.None? || body.updateData.None? {
      return Fail(400, "Missing ID or update data");
    }
    if fault == WriteRejected {
      return Fail(500, "Internal Server Error");
    }
    var id := body.id.value;
    if id !in db.plans {
      return Fail(404, "Business plan not found");
    }
    var updated := Merge(db.plans[id], body.updateData.value);
    db.plans := db.plans[id := updated];
    r := Ok(updated);
  }
}
