/**
 * The one-off administrator seed: if no administrator exists, one fixed administrator
 * account is created through the ordinary save path.
 */
module SeedAdmin {
  import opened Wrappers
  import opened Primitives
  import opened Errors
  import opened UserModel

  /** How a run ended: an administrator already existed, one was created, or the save was refused (and logged). */
  datatype SeedOutcome = AlreadySeeded | Seeded(admin: User) | SaveFailed(error: Fault)

  /** `User.findOne({isAdmin: true})`. */
  function AdminIndex(users: seq<User>): Option<nat> {
    FirstIndex(users, (u: User) => u.isAdmin)
  }

  /** How many administrators the collection holds. */
  function AdminCount(users: seq<User>): (n: nat)
    ensures n <= |users|
  {
    if users == [] then 0 else (if users[0].isAdmin then 1 else 0) + AdminCount(users[1..])
  }

  /** There is no administrator to find exactly when there are none to count. */
  lemma {:induction false} NoAdminIffNoneCounted(users: seq<User>)
    ensures AdminIndex(users).None? <==> AdminCount(users) == 0
  {
    if users != [] {
      NoAdminIffNoneCounted(users[1..]);
      assert AdminIndex(users).None? <==> !users[0].isAdmin && AdminIndex(users[1..]).None?;
    }
  }

  /** Appending one account adds one to the count exactly when it is an administrator. */
  lemma {:induction false} AdminCountAppend(users: seq<User>, u: User)
    ensures AdminCount(users + [u]) == AdminCount(users) + (if u.isAdmin then 1 else 0)
  {
    if users != [] {
      assert (users + [u])[1..] == users[1..] + [u];
      AdminCountAppend(users[1..], u);
    }
  }

  /** The seeded administrator, before saving. */
  function AdminData(newId: string): User {
    User(newId, "admin", "admin@gmail.com", Plain("adminpassword"), [], true, None, None, None)
  }

  /**
   * `seedAdminUser`: nothing is written when an administrator exists; otherwise the
   * fixed administrator is saved like any new account (so its password is stored
   * hashed). A refused save is caught and changes nothing. In every case the number
   * of administrators goes from none to at most one, and is otherwise unchanged.
   */
  method SeedAdminUser(users: UserCollection, newId: string, nowMs: int) returns (outcome: SeedOutcome)
    requires users.Valid()
    modifies users
    ensures users.Valid()
    ensures outcome.AlreadySeeded? <==> AdminCount(old(users.users)) > 0
    ensures outcome.AlreadySeeded? || outcome.SaveFailed? ==> users.users == old(users.users)
    ensures outcome.Seeded? ==>
      && users.users == old(users.users) + [outcome.admin]
      && outcome.admin.id == newId && outcome.admin.name == "admin" && outcome.admin.email == "admin@gmail.com"
      && outcome.admin.isAdmin && outcome.admin.password == Hashed(Bcrypt("adminpassword"))
    ensures AdminCount(users.users) == if AdminCount(old(users.users)) > 0 then AdminCount(old(users.users))
                                       else if outcome.Seeded? then 1 else 0
  {
    NoAdminIffNoneCounted(users.users);
    if AdminIndex(users.users).Some? {
      return AlreadySeeded;
    }
    ghost var before := users.users;
    var saved := users.Save(AdminData(newId), true, true, nowMs);
    if saved.Err? {
      return SaveFailed(saved.error);
    }
    AdminCountAppend(before, saved.value);
    outcome := Seeded(saved.value);
  }
}
