// The users table as the backend sees it through UserRepository: users
// found by their (normalised) email, new users given the next id.
module Users {
  import opened Wrappers
  import opened Errors

  /** A stored user account; `role` is a free string such as "CUSTOMER". */
  datatype User = User(id: Option<int>, name: string, email: string, password: string, role: Option<string>)

  /** Users are compared by id. */
  predicate SameUser(a: User, b: User)
  {
    a.id == b.id
  }

  class UserRepository {
    var byEmail: map<string, User>
    var nextId: int

    ghost predicate Valid()
      reads this
    {
      && nextId >= 1
      && (forall e :: e in byEmail ==> byEmail[e].email == e && byEmail[e].id.Some? && 1 <= byEmail[e].id.value < nextId)
      && (forall e, f :: e in byEmail && f in byEmail && e != f ==> byEmail[e].id != byEmail[f].id)
    }

    constructor ()
      ensures Valid() && byEmail == map[]
    {
      byEmail := map[];
      nextId := 1;
    }

    /** `findByEmail`: exact match on the stored email. */
    function FindByEmail(email: string): (r: Option<User>)
      reads this
      requires Valid()
      ensures r.Some? <==> email in byEmail
      ensures r.Some? ==> r.value.email == email && r.value.id.Some?
    {
      if email in byEmail then Some(byEmail[email]) else None
    }

    /**
     * `save` of a new user: the next id is assigned and the user is stored
     * under its email; an email that is already taken violates the unique
     * column and nothing is stored.
     */
    method Save(u: User) returns (r: Result<User, Exception>)
      requires Valid()
      modifies this
      ensures Valid()
      ensures u.email in old(byEmail) ==> r.Err? && byEmail == old(byEmail) && nextId == old(nextId)
      ensures u.email !in old(byEmail) ==>
                && r == Ok(u.(id := Some(old(nextId))))
                && byEmail == old(byEmail)[u.email := r.value]
                && nextId == old(nextId) + 1
    {
      if u.email in byEmail {
        return Err(Exception(Persistence, "Duplicate entry for email"));
      }
      var saved := u.(id := Some(nextId));
      byEmail := byEmail[u.email := saved];
      nextId := nextId + 1;
      return Ok(saved);
    }
  }
}
