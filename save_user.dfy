/** POST /api/save-user (app/api/save-user/route.ts): checks the body and hands
    `id`, `email` and `name` to `saveUserToDB`. */
module SaveUser {
  import opened Common
  import opened Models
  import opened UserRegistry

  /** The request body; `None` stands for a value that is absent or null. */
  datatype SaveUserBody = SaveUserBody(id: Option<string>, email: Option<string>, name: Option<string>)

  /** `!body.id || !body.email` rejects the body. */
  predicate ValidBody(body: SaveUserBody): (b: bool)
    ensures b <==> body.id.Some? && body.id.value != "" && body.email.Some? && body.email.value != ""
  {
    Truthy(body.id) && Truthy(body.email)
  }

  /** `Ok(true)` is the body `{ success: true }`. */
  method Post(db: Store, body: SaveUserBody, fault: DbFault) returns (r: Response<bool>)
    requires db.Valid()
    modifies db
    ensures db.Valid()
    ensures db.plans == old(db.plans)
    ensures !ValidBody(body) ==> r == Fail(400, "Invalid data") && db.users == old(db.users)
    ensures r.Ok? ==> r.value && ValidBody(body) && body.id.value in db.users
    ensures ValidBody(body) ==> r == Ok(true) || r == Fail(500, "Failed to save user")
    // a valid body is passed on as it is: the store changes exactly as saveUserToDB
    // with those three arguments changes it
    ensures ValidBody(body) && r.Ok? ==>
      db.users == InsertIfAbsent(old(db.users), body.id.value,
                                 User(old(db.nextId), body.email.value, NameOrEmpty(body.name)))
    ensures ValidBody(body) && r.Fail? ==> db.users == old(db.users)
    ensures ValidBody(body) ==> (r.Ok? <==> fault == Healthy || (fault == WriteRejected && body.id.value in old(db.users)))
  {
    if !ValidBody(body) {
      return Fail(400, "Invalid data");
    }
    var threw := SaveUserToDb(db, body.id.value, body.email.value, body.name, fault);
    if threw {
      return Fail(500, "Failed to save user");
    }
    r := Ok(true);
  }
}
