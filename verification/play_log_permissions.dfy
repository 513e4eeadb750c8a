/** `IsOwnerOrAdminReadOnly`: a play log is visible to its owner and to
    admins. */
module PlayLogPermissions {
  import opened Accounts
  import opened Http

  function HasPermission(r: Requester): (allowed: bool)
    ensures allowed <==> r.Authenticated?
  {
    r.Authenticated?
  }

  /** Object level, reached only for a signed-in user; `logOwner` is the id of
      the log's user. The method is not consulted. */
  function HasObjectPermission(user: User, m: Method, logOwner: int): (allowed: bool)
    ensures allowed <==> IsAdmin(user) || logOwner == user.id
  {
    if IsAdmin(user) then true else logOwner == user.id
  }

  /** The decision is the same whatever the method. */
  lemma MethodIrrelevant(user: User, m1: Method, m2: Method, logOwner: int)
    ensures HasObjectPermission(user, m1, logOwner) == HasObjectPermission(user, m2, logOwner)
  {
  }
}
