/** The account model: a user with a free-text `user_type` whose declared
    choices are 'admin' and 'regular', and the requester a view sees. */
module Accounts {
  import opened Wrappers

  const AdminType := "admin"
  const RegularType := "regular"

  /** The declared choices of `user_type`. */
  const UserTypeChoices: seq<string> := [AdminType, RegularType]

  datatype User = User(id: int, username: string, email: string, firstName: string, userType: string)

  /** The request's user: the anonymous user or a signed-in account. */
  datatype Requester = Anonymous | Authenticated(user: User)

  predicate IsAdmin(u: User)
    ensures IsAdmin(u) ==> !IsRegularUser(u)
  {
    u.userType == AdminType
  }

  predicate IsRegularUser(u: User)
    ensures IsRegularUser(u) ==> u.userType in UserTypeChoices
  {
    u.userType == RegularType
  }

  /** No user is both an admin and a regular user. */
  lemma NotBoth(u: User)
    ensures !(IsAdmin(u) && IsRegularUser(u))
  {
  }

  predicate ValidUserType(t: string) {
    t in UserTypeChoices
  }

  /** A user created without a type is a regular user, one of the declared
      choices, and not an admin. */
  function NewUser(id: int, username: string, email: string, firstName: string): (u: User)
    ensures u.id == id && u.username == username && u.email == email && u.firstName == firstName
    ensures ValidUserType(u.userType) && IsRegularUser(u) && !IsAdmin(u)
  {
    User(id, username, email, firstName, RegularType)
  }

  /** Every user with a declared type is exactly one of admin and regular. */
  lemma ChoicesAreAdminOrRegular(u: User)
    requires ValidUserType(u.userType)
    ensures IsAdmin(u) != IsRegularUser(u)
  {
  }

  /** The unique constraint on `email`. */
  predicate UniqueEmails(users: seq<User>) {
    forall i, j :: 0 <= i < j < |users| ==> users[i].email != users[j].email
  }

  /** Inserting a user into the table: rejected when the e-mail is taken, so
      the constraint keeps holding. */
  function InsertUser(users: seq<User>, u: User): (r: Option<seq<User>>)
    requires UniqueEmails(users)
    ensures r.Some? <==> forall i :: 0 <= i < |users| ==> users[i].email != u.email
    ensures r.Some? ==> r.value == users + [u] && UniqueEmails(r.value)
  {
    if exists i :: 0 <= i < |users| && users[i].email == u.email then None
    else Some(users + [u])
  }

}
