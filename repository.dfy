/** The user repository as the resolver sees it: a store of users looked up
    by email. */
module Repository {
  import opened Domain

  type Users = map<Option<string>, User>

  /** Every stored record sits under its own email, so there is at most one
      user per email. */
  predicate KeyedByEmail(users: Users)
  {
    forall k :: k in users ==> users[k].email == k
  }

  class UserRepository {
    var users: Users

    constructor (users: Users)
      ensures this.users == users
    {
      this.users := users;
    }

    /** findByEmail: the record stored under `email`, or null. */
    method FindByEmail(email: Option<string>) returns (found: Option<User>)
      ensures found.Some? <==> email in users
      ensures found.Some? ==> found.value == users[email]
    {
      found := if email in users then Some(users[email]) else None;
    }

    /** save: stores `user` under its email and returns it. */
    method Save(user: User) returns (saved: User)
      modifies this
      ensures users == old(users)[user.email := user]
      ensures saved == user
    {
      users := users[user.email := user];
      saved := user;
    }
  }
}
