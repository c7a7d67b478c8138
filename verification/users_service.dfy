/** The users service: CRUD over the shared users array. Usernames are
    compared exactly; the seeded users are not checked against each other,
    so username uniqueness is something the operations keep when it already
    holds rather than a store invariant. */
module UsersService {
  import opened Common
  import opened Entities
  import opened Store
  import opened MockData

  /** Some user other than the one with id `except` has exactly this username. */
  predicate UsernameInUse(us: seq<User>, username: string, except: Option<int>) {
    exists i :: 0 <= i < |us| && us[i].username == username && (except.None? || us[i].id != except.value)
  }

  /** The fields POST and PUT insist on, all truthy. */
  predicate HasRequired(input: UserInput) {
    Truthy(input.name) && Truthy(input.username) && Truthy(input.password)
  }

  /** Appending a user that carries the counter's value keeps the database
      invariant, and keeps usernames distinct when the new one is unused. */
  lemma AddUserKeeps(d: Db, u: User)
    requires Invariant(d)
    requires u.id == d.nextUserId
    ensures Invariant(d.(users := d.users + [u], nextUserId := d.nextUserId + 1))
    ensures DistinctKeys(d.users, UsernameKey) && !UsernameInUse(d.users, u.username, None)
            ==> DistinctKeys(d.users + [u], UsernameKey)
  {
    AppendFresh(d.users, UserId, d.nextUserId, u);
    if DistinctKeys(d.users, UsernameKey) && !UsernameInUse(d.users, u.username, None) {
      AppendDistinct(d.users, UsernameKey, u);
    }
  }

  /** Replacing the user at `k` by one with the same id keeps the database
      invariant, and keeps usernames distinct when the new username is
      empty, unchanged, or used by no other user. */
  lemma ReplaceUserKeeps(d: Db, k: nat, u: User)
    requires Invariant(d) && k < |d.users|
    requires u.id == d.users[k].id
    ensures Invariant(d.(users := d.users[k := u]))
    ensures DistinctKeys(d.users, UsernameKey)
            && (u.username == "" || u.username == d.users[k].username || !UsernameInUse(d.users, u.username, Some(u.id)))
            ==> DistinctKeys(d.users[k := u], UsernameKey)
  {
    IdsLocate(d.users, UserId, k);
    ReplaceSameId(d.users, UserId, d.nextUserId, k, u);
    if DistinctKeys(d.users, UsernameKey)
       && (u.username == "" || u.username == d.users[k].username || !UsernameInUse(d.users, u.username, Some(u.id)))
    {
      ReplaceDistinct(d.users, UsernameKey, k, u);
    }
  }

  /** Removing a user keeps the database invariant and distinct usernames. */
  lemma RemoveUserKeeps(d: Db, k: nat)
    requires Invariant(d) && k < |d.users|
    ensures Invariant(d.(users := RemoveAt(d.users, k)))
    ensures DistinctKeys(d.users, UsernameKey) ==> DistinctKeys(RemoveAt(d.users, k), UsernameKey)
  {
    Store.RemoveKeeps(d.users, UserId, d.nextUserId, k);
    if DistinctKeys(d.users, UsernameKey) {
      RemoveKeepsDistinct(d.users, UsernameKey, k);
    }
  }

  /** `UsersService`: holds the same `db` as every other service. */
  class UsersService {
    const db: Catalog

    constructor (db: Catalog)
      ensures this.db == db
    {
      this.db := db;
    }

    /** `findAll`: the users in store order, cut to `size`; `total` is the store size. */
    function FindAll(size: Option<nat>): (r: Listing<User>)
      reads db
      ensures r.total == |db.users|
      ensures r.data <= db.users
      ensures size.None? ==> r.data == db.users
      ensures size.Some? ==> |r.data| == if size.value < |db.users| then size.value else |db.users|
    {
      Listing(Take(db.users, size), |db.users|)
    }

    /** `findOne`: the user with that id, or 404. */
    function FindOne(id: int): (r: Result<User>)
      reads db
      ensures r.Ok? <==> id in Ids(db.users, UserId)
      ensures r.Ok? ==> r.value in db.users && r.value.id == id
      ensures r.Err? ==> r.failure == NotFound(UserEntity, id)
    {
      match FindIndex(db.users, (u: User) => u.id == id)
      case Some(k) => Ok(db.users[k])
      case None => Err(NotFound(UserEntity, id))
    }

    /** `create`: 400 unless name, username and password are all truthy, 409
        for a username already in use; otherwise appends a record with the
        next id and a generated email standing in for a falsy one. */
    method Create(input: UserInput, defaultEmail: string, now: Timestamp) returns (r: Result<User>)
      requires db.Valid()
      modifies db
      ensures db.Valid()
      ensures r.Err? ==> db.State() == old(db.State())
      ensures r == Err(RequiredFields(UserEntity)) <==> !HasRequired(input)
      ensures r == Err(NameTaken(UserEntity))
              <==> HasRequired(input) && UsernameInUse(old(db.users), input.username.value, None)
      ensures r.Ok? <==> HasRequired(input) && !UsernameInUse(old(db.users), input.username.value, None)
      ensures r.Ok? ==> r.value == User(old(db.nextUserId), input.name.value, input.username.value,
                                        input.password.value, OrKeep(input.email, defaultEmail), now, None)
      ensures r.Ok? ==> db.State() == old(db.State()).(users := old(db.users) + [r.value],
                                                       nextUserId := old(db.nextUserId) + 1)
      ensures DistinctKeys(old(db.users), UsernameKey) ==> DistinctKeys(db.users, UsernameKey)
    {
      if !HasRequired(input) {
        return Err(RequiredFields(UserEntity));
      }
      var username := input.username.value;
      if Any(db.users, (u: User) => u.username == username) {
        return Err(NameTaken(UserEntity));
      }
      ghost var d := db.State();
      var id := db.NextUserId();
      var user := User(id, input.name.value, username, input.password.value,
                       OrKeep(input.email, defaultEmail), now, None);
      AddUserKeeps(d, user);
      db.users := db.users + [user];
      r := Ok(user);
    }

    /** `update` (PUT): 404 for an unknown id, then 400 unless name, username
        and password are all truthy, then 409 for a username another user
        has; otherwise replaces the record in place, keeping id and
        createdAt, and the old email when the new one is falsy. */
    method Update(id: int, input: UserInput, now: Timestamp) returns (r: Result<User>)
      requires db.Valid()
      modifies db
      ensures db.Valid()
      ensures r.Err? ==> db.State() == old(db.State())
      ensures r == Err(NotFound(UserEntity, id)) <==> id !in Ids(old(db.users), UserId)
      ensures r == Err(RequiredFields(UserEntity)) <==> id in Ids(old(db.users), UserId) && !HasRequired(input)
      ensures r == Err(NameTaken(UserEntity))
              <==> id in Ids(old(db.users), UserId) && HasRequired(input)
                   && UsernameInUse(old(db.users), input.username.value, Some(id))
      ensures r.Ok? <==> id in Ids(old(db.users), UserId) && HasRequired(input)
                         && !UsernameInUse(old(db.users), input.username.value, Some(id))
      ensures r.Ok? ==>
                exists k :: 0 <= k < |old(db.users)| && old(db.users)[k].id == id
                  && r.value == PutUser(old(db.users)[k], input.name.value, input.username.value,
                                        input.password.value, input.email, now)
                  && db.State() == old(db.State()).(users := old(db.users)[k := r.value])
      ensures DistinctKeys(old(db.users), UsernameKey) ==> DistinctKeys(db.users, UsernameKey)
    {
      var index := FindIndex(db.users, (u: User) => u.id == id);
      if index.None? {
        return Err(NotFound(UserEntity, id));
      }
      var k := index.value;
      if !HasRequired(input) {
        return Err(RequiredFields(UserEntity));
      }
      var username := input.username.value;
      if Any(db.users, (u: User) => u.username == username && u.id != id) {
        return Err(NameTaken(UserEntity));
      }
      var user := PutUser(db.users[k], input.name.value, username, input.password.value, input.email, now);
      ReplaceUserKeeps(db.State(), k, user);
      db.users := db.users[k := user];
      r := Ok(user);
    }

    /** `partialUpdate` (PATCH): 404 for an unknown id; the username check,
        excluding this user, runs only for a truthy `username`; then the
        patch is merged over the record and the id forced back. */
    method PartialUpdate(id: int, patch: UserPatch, now: Timestamp) returns (r: Result<User>)
      requires db.Valid()
      modifies db
      ensures db.Valid()
      ensures r.Err? ==> db.State() == old(db.State())
      ensures r == Err(NotFound(UserEntity, id)) <==> id !in Ids(old(db.users), UserId)
      ensures r == Err(NameTaken(UserEntity))
              <==> id in Ids(old(db.users), UserId) && Truthy(patch.username)
                   && UsernameInUse(old(db.users), patch.username.value, Some(id))
      ensures r.Ok? <==> id in Ids(old(db.users), UserId)
                         && !(Truthy(patch.username) && UsernameInUse(old(db.users), patch.username.value, Some(id)))
      ensures r.Ok? ==>
                exists k :: 0 <= k < |old(db.users)| && old(db.users)[k].id == id
                  && r.value == PatchUser(old(db.users)[k], patch, now)
                  && db.State() == old(db.State()).(users := old(db.users)[k := r.value])
      ensures DistinctKeys(old(db.users), UsernameKey) ==> DistinctKeys(db.users, UsernameKey)
    {
      var index := FindIndex(db.users, (u: User) => u.id == id);
      if index.None? {
        return Err(NotFound(UserEntity, id));
      }
      var k := index.value;
      if Truthy(patch.username) {
        var username := patch.username.value;
        if Any(db.users, (u: User) => u.username == username && u.id != id) {
          return Err(NameTaken(UserEntity));
        }
      }
      var user := PatchUser(db.users[k], patch, now);
      ReplaceUserKeeps(db.State(), k, user);
      db.users := db.users[k := user];
      r := Ok(user);
    }

    /** `delete`: 404 for an unknown id; otherwise removes the user, keeping
        the order of the others, and returns it. */
    method Delete(id: int) returns (r: Result<User>)
      requires db.Valid()
      modifies db
      ensures db.Valid()
      ensures r.Err? ==> db.State() == old(db.State())
      ensures r.Err? <==> id !in Ids(old(db.users), UserId)
      ensures r.Err? ==> r.failure == NotFound(UserEntity, id)
      ensures r.Ok? ==>
                exists k :: 0 <= k < |old(db.users)| && old(db.users)[k] == r.value && r.value.id == id
                  && db.State() == old(db.State()).(users := RemoveAt(old(db.users), k))
      ensures DistinctKeys(old(db.users), UsernameKey) ==> DistinctKeys(db.users, UsernameKey)
    {
      var index := FindIndex(db.users, (u: User) => u.id == id);
      if index.None? {
        return Err(NotFound(UserEntity, id));
      }
      var k := index.value;
      var user := db.users[k];
      RemoveUserKeeps(db.State(), k);
      db.users := RemoveAt(db.users, k);
      r := Ok(user);
    }
  }
}
