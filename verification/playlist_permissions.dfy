/** `IsOwnerOrAdminOrReadOnlyPublic`: who may see and change a playlist. */
module PlaylistPermissions {
  import opened Accounts
  import opened Http

  /** The fields of a playlist the permission reads. */
  datatype PlaylistAccess = PlaylistAccess(createdBy: int, isPublic: bool)

  /** View level: any signed-in user. */
  function HasPermission(r: Requester): (allowed: bool)
    ensures allowed <==> r.Authenticated?
  {
    r.Authenticated?
  }

  /** Object level, reached only for a signed-in user: admins may do
      anything; others may read a public or their own playlist and may change
      only their own. */
  function HasObjectPermission(user: User, m: Method, obj: PlaylistAccess): (allowed: bool)
    ensures IsAdmin(user) ==> allowed
    ensures !IsAdmin(user) && IsSafe(m) ==> (allowed <==> obj.isPublic || obj.createdBy == user.id)
    ensures !IsAdmin(user) && !IsSafe(m) ==> (allowed <==> obj.createdBy == user.id)
  {
    if IsAdmin(user) then true
    else if IsSafe(m) then obj.isPublic || obj.createdBy == user.id
    else obj.createdBy == user.id
  }

  /** The owner is allowed every method. */
  lemma OwnerAlwaysAllowed(user: User, m: Method, obj: PlaylistAccess)
    requires obj.createdBy == user.id
    ensures HasObjectPermission(user, m, obj)
  {
  }

  /** Being public never lets a non-admin who does not own the playlist
      change it. */
  lemma PublicGrantsNoWrite(user: User, m: Method, obj: PlaylistAccess)
    requires !IsAdmin(user) && !IsSafe(m) && obj.createdBy != user.id
    ensures !HasObjectPermission(user, m, obj)
  {
  }
}
