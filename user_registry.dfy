/** `saveUserToDB` (lib/auth/saveUserToDB.ts): creates the User document for a
    Clerk id unless one already exists. */
module UserRegistry {
  import opened Common
  import opened Models

  /** `clerkUser.name || ''`: an absent or empty name is stored as ''. */
  function NameOrEmpty(name: Option<string>): (n: string)
    ensures name.Some? ==> n == name.value
    ensures name.None? ==> n == ""
  {
    if name.Some? && name.value != "" then name.value else ""
  }

  /** The users map after an insert-if-absent under `clerkId`. */
  function InsertIfAbsent(users: map<string, User>, clerkId: string, u: User): (r: map<string, User>)
    ensures clerkId in r
    ensures clerkId in users ==> r == users
    ensures clerkId !in users ==> r[clerkId] == u && |r| == |users| + 1
    ensures r.Keys == users.Keys + {clerkId}
    ensures forall c :: c in users ==> r[c] == users[c]
  {
    if clerkId in users then users else users[clerkId := u]
  }

  /** A second insert under the same key does nothing, whatever document it
      would have created. */
  lemma InsertIfAbsentIdempotent(users: map<string, User>, clerkId: string, u: User, u': User)
    ensures InsertIfAbsent(InsertIfAbsent(users, clerkId, u), clerkId, u') == InsertIfAbsent(users, clerkId, u)
  {
  }

  /** Inserting a user whose `_id` is new keeps `_id`s distinct. */
  lemma InsertIfAbsentKeepsIdsDistinct(users: map<string, User>, clerkId: string, u: User)
    requires UserIdsDistinct(users)
    requires forall c :: c in users ==> users[c].id != u.id
    ensures UserIdsDistinct(InsertIfAbsent(users, clerkId, u))
  {
    var r := InsertIfAbsent(users, clerkId, u);
    forall c, d | c in r && d in r && c != d
      ensures r[c].id != r[d].id
    {
      if clerkId !in users && (c == clerkId || d == clerkId) {
        assert r[clerkId] == u;
      }
    }
  }

  /** Returns whether the call threw. `fault == Unreachable` makes the lookup
      throw; `WriteRejected` makes `User.create` throw. `User.create` also
      throws when a required path (clerkId, email) is empty. */
  method SaveUserToDb(db: Store, id: string, email: string, name: Option<string>, fault: DbFault)
    returns (threw: bool)
    requires db.Valid()
    modifies db
    ensures db.Valid()
    ensures db.plans == old(db.plans)
    ensures threw <==>
      fault == Unreachable || (id !in old(db.users) && (fault == WriteRejected || id == "" || email == ""))
    ensures threw ==> db.users == old(db.users)
    ensures id in old(db.users) ==> db.users == old(db.users)
    ensures !threw ==>
      && old(db.nextId) !in old(db.plans)
      && (forall c :: c in old(db.users) ==> old(db.users)[c].id != old(db.nextId))
      && db.users == InsertIfAbsent(old(db.users), id, User(old(db.nextId), email, NameOrEmpty(name)))
    ensures !threw ==> id in db.users
  {
    if fault == Unreachable {
      return true;
    }
    if id in db.users {
      return false;
    }
    var newId := db.NewObjectId();
    if fault == WriteRejected || id == "" || email == "" {
      return true;
    }
    var u := User(newId, email, NameOrEmpty(name));
    InsertIfAbsentKeepsIdsDistinct(db.users, id, u);
    db.users := InsertIfAbsent(db.users, id, u);
    threw := false;
  }
}
