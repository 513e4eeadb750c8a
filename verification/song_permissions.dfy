/** `IsAdminOrReadOnly`: everybody may read songs, only admins may change
    them. */
module SongPermissions {
  import opened Accounts
  import opened Http

  /** A signed-in admin. */
  predicate IsSignedInAdmin(r: Requester) {
    r.Authenticated? && IsAdmin(r.user)
  }

  function HasPermission(r: Requester, m: Method): (allowed: bool)
    ensures IsSafe(m) ==> allowed
    ensures !IsSafe(m) ==> (allowed <==> IsSignedInAdmin(r))
  {
    if IsSafe(m) then true else r.Authenticated? && IsAdmin(r.user)
  }

  /** The object check ignores the song itself. */
  function HasObjectPermission<S>(r: Requester, m: Method, song: S): (allowed: bool)
    ensures IsSafe(m) ==> allowed
    ensures !IsSafe(m) ==> (allowed <==> IsSignedInAdmin(r))
  {
    if IsSafe(m) then true else r.Authenticated? && IsAdmin(r.user)
  }

  /** Both checks reach the same decision for every requester and method. */
  lemma ObjectMatchesView<S>(r: Requester, m: Method, song: S)
    ensures HasObjectPermission(r, m, song) == HasPermission(r, m)
  {
  }

  /** Nobody but a signed-in admin ever changes a song. */
  lemma OnlyAdminsWrite(r: Requester, m: Method)
    requires !IsSafe(m) && HasPermission(r, m)
    ensures r.Authenticated? && IsAdmin(r.user)
  {
  }
}
