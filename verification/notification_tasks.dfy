/** The background tasks that create notifications: a playlist update, a new
    song in the library and the welcome message. A task never raises: a
    missing object yields a "Failed ..." text. */
module NotificationTasks {
  import opened Wrappers
  import opened Decimal
  import opened NotificationModels
  import Accounts
  import PlaylistModels
  import Songs

  /** `User.objects.filter(user_type='regular')`, in table order. */
  function RegularUsers(users: seq<Accounts.User>): (r: seq<Accounts.User>)
    ensures |r| <= |users|
    ensures forall i :: 0 <= i < |r| ==> Accounts.IsRegularUser(r[i])
    ensures forall u :: u in r <==> u in users && Accounts.IsRegularUser(u)
  {
    if users == [] then []
    else if Accounts.IsRegularUser(users[0]) then [users[0]] + RegularUsers(users[1..])
    else RegularUsers(users[1..])
  }

  /** The loop that collects one draft per regular user. */
  method CollectBroadcast(users: seq<Accounts.User>, title: string, message: string, kind: Kind,
                          relatedPlaylist: Option<int>, relatedSong: Option<int>)
    returns (drafts: seq<Draft>)
    ensures |drafts| == |RegularUsers(users)|
    ensures forall i :: 0 <= i < |drafts| ==>
      drafts[i] == Draft(RegularUsers(users)[i].id, title, message, kind, relatedPlaylist, relatedSong)
  {
    var recipients := RegularUsers(users);
    drafts := [];
    for k := 0 to |recipients|
      invariant |drafts| == k
      invariant forall i :: 0 <= i < k ==>
        drafts[i] == Draft(recipients[i].id, title, message, kind, relatedPlaylist, relatedSong)
    {
      drafts := drafts + [Draft(recipients[k].id, title, message, kind, relatedPlaylist, relatedSong)];
    }
  }

  predicate UniqueIds(users: seq<Accounts.User>) {
    forall i, j :: 0 <= i < j < |users| ==> users[i].id != users[j].id
  }

  /** Broadcasts reach regular users only: no admin is ever a recipient. */
  lemma AdminsNotRecipients(users: seq<Accounts.User>, admin: Accounts.User)
    requires UniqueIds(users) && admin in users && Accounts.IsAdmin(admin)
    ensures forall i :: 0 <= i < |RegularUsers(users)| ==> RegularUsers(users)[i].id != admin.id
  {
    var regular := RegularUsers(users);
    forall i | 0 <= i < |regular| ensures regular[i].id != admin.id {
      var u := regular[i];
      assert u in users;
      var a :| 0 <= a < |users| && users[a] == admin;
      var b :| 0 <= b < |users| && users[b] == u;
      assert a != b;
    }
  }

  const PlaylistMissing := "Failed to send playlist notification: Playlist matching query does not exist."
  const SongMissing := "Failed to send new song notification: Song matching query does not exist."
  const UserMissing := "Failed to create welcome notification: User matching query does not exist."

  /** `send_playlist_update_notification`: a public playlist notifies every
      regular user, a private one only its owner. `playlist` is the result of
      the lookup by id. */
  method SendPlaylistUpdate(t: NotificationTable, users: seq<Accounts.User>,
                            playlist: Option<PlaylistModels.Playlist>, message: string, now: int)
    returns (result: string)
    requires t.Valid()
    modifies t
    ensures t.Valid()
    ensures playlist.None? ==> result == PlaylistMissing && t.rows == old(t.rows)
    ensures playlist.Some? && playlist.value.isPublic ==>
      old(t.rows) <= t.rows && |t.rows| == |old(t.rows)| + |RegularUsers(users)|
    ensures playlist.Some? && playlist.value.isPublic ==>
      var regular := RegularUsers(users);
      var added := t.rows[|old(t.rows)|..];
      (forall i :: 0 <= i < |added| ==>
            added[i].user == regular[i].id && added[i].kind == PlaylistUpdate && added[i].title == "Playlist Updated"
            && added[i].message == message && added[i].relatedPlaylist == Some(playlist.value.id))
      && result == "Notification sent to " + NatToString(|regular|) + " users about playlist update"
    ensures playlist.Some? && playlist.value.isPublic ==>
      var regular := RegularUsers(users);
      t.nextId == old(t.nextId) + |regular|
      && forall i :: 0 <= i < |regular| ==>
           t.rows[|old(t.rows)| + i] == Stored(old(t.nextId) + i,
             Draft(regular[i].id, "Playlist Updated", message, PlaylistUpdate, Some(playlist.value.id), None), now)
    ensures playlist.Some? && !playlist.value.isPublic ==>
      |t.rows| == |old(t.rows)| + 1 && old(t.rows) <= t.rows
      && var n := t.rows[|old(t.rows)|];
      n.user == playlist.value.createdBy.id && n.kind == PlaylistUpdate && n.title == "Your Playlist Updated"
      && n.message == message && n.relatedPlaylist == Some(playlist.value.id)
      && result == "Notification sent to playlist owner"
    ensures playlist.Some? && !playlist.value.isPublic ==>
      t.rows == old(t.rows) + [Stored(old(t.nextId),
        Draft(playlist.value.createdBy.id, "Your Playlist Updated", message, PlaylistUpdate, Some(playlist.value.id), None), now)]
  {
    if playlist.None? {
      return PlaylistMissing;
    }
    var p := playlist.value;
    if p.isPublic {
      var drafts := CollectBroadcast(users, "Playlist Updated", message, PlaylistUpdate, Some(p.id), None);
      t.BulkCreate(drafts, now);
      result := "Notification sent to " + NatToString(|drafts|) + " users about playlist update";
    } else {
      var _ := t.Create(Draft(p.createdBy.id, "Your Playlist Updated", message, PlaylistUpdate, Some(p.id), None), now);
      result := "Notification sent to playlist owner";
    }
  }

  function NewSongMessage(s: Songs.SongRow): string {
    "New song '" + s.title + "' by " + s.artist + " has been added to the library!"
  }

  /** `send_new_song_notification`: a song uploaded by an admin notifies
      every regular user; any other upload notifies nobody. */
  method SendNewSong(t: NotificationTable, users: seq<Accounts.User>, song: Option<Songs.SongRow>, now: int)
    returns (result: string)
    requires t.Valid()
    modifies t
    ensures t.Valid()
    ensures song.None? ==> result == SongMissing && t.rows == old(t.rows)
    ensures song.Some? && !Accounts.IsAdmin(song.value.uploadedBy) ==>
      t.rows == old(t.rows) && result == "Song was not uploaded by admin, no notifications sent"
    ensures song.Some? && Accounts.IsAdmin(song.value.uploadedBy) ==>
      old(t.rows) <= t.rows && |t.rows| == |old(t.rows)| + |RegularUsers(users)|
    ensures song.Some? && Accounts.IsAdmin(song.value.uploadedBy) ==>
      var regular := RegularUsers(users);
      var added := t.rows[|old(t.rows)|..];
      (forall i :: 0 <= i < |added| ==>
            added[i].user == regular[i].id && added[i].kind == NewSong && added[i].title == "New Song Available"
            && added[i].message == NewSongMessage(song.value) && added[i].relatedSong == Some(song.value.id))
      && result == "New song notification sent to " + NatToString(|regular|) + " users"
    ensures song.Some? && Accounts.IsAdmin(song.value.uploadedBy) ==>
      var regular := RegularUsers(users);
      t.nextId == old(t.nextId) + |regular|
      && forall i :: 0 <= i < |regular| ==>
           t.rows[|old(t.rows)| + i] == Stored(old(t.nextId) + i,
             Draft(regular[i].id, "New Song Available", NewSongMessage(song.value), NewSong, None, Some(song.value.id)), now)
  {
    if song.None? {
      return SongMissing;
    }
    var s := song.value;
    if Accounts.IsAdmin(s.uploadedBy) {
      var drafts := CollectBroadcast(users, "New Song Available", NewSongMessage(s), NewSong, None, Some(s.id));
      t.BulkCreate(drafts, now);
      result := "New song notification sent to " + NatToString(|drafts|) + " users";
    } else {
      result := "Song was not uploaded by admin, no notifications sent";
    }
  }

  const WelcomePrefix := "Welcome to Music Management App, "
  const AdminWelcome := "As an admin, you can upload songs, create public playlists, and view all play logs."
  const RegularWelcome := "Start exploring songs, create your own playlists, and enjoy your musical journey!"

  /** The name the welcome uses: the first name, or the user name when the
      first name is empty. */
  function GreetingName(u: Accounts.User): (name: string)
    ensures u.firstName != "" ==> name == u.firstName
    ensures u.firstName == "" ==> name == u.username
  {
    if u.firstName != "" then u.firstName else u.username
  }

  /** The welcome text: greeting, then the admin or the regular closing. */
  function WelcomeMessage(u: Accounts.User): (m: string)
    ensures |m| == |WelcomePrefix| + |GreetingName(u)| + 2
      + (if Accounts.IsAdmin(u) then |AdminWelcome| else |RegularWelcome|)
    ensures m[..|WelcomePrefix|] == WelcomePrefix
    ensures m[|WelcomePrefix|..|WelcomePrefix| + |GreetingName(u)|] == GreetingName(u)
    ensures Accounts.IsAdmin(u) ==> m[|m| - |AdminWelcome|..] == AdminWelcome
    ensures !Accounts.IsAdmin(u) ==> m[|m| - |RegularWelcome|..] == RegularWelcome
  {
    var greeting := WelcomePrefix + GreetingName(u) + "! ";
    var m := greeting + (if Accounts.IsAdmin(u) then AdminWelcome else RegularWelcome);
    assert m[..|greeting|] == greeting;
    m
  }

  /** The two closings differ, so the welcome tells admins from others. */
  lemma WelcomeTellsRoles(a: Accounts.User, r: Accounts.User)
    requires Accounts.IsAdmin(a) && !Accounts.IsAdmin(r)
    ensures WelcomeMessage(a) != WelcomeMessage(r)
  {
    var ma := WelcomeMessage(a);
    var mr := WelcomeMessage(r);
    assert AdminWelcome[|AdminWelcome| - 1] == '.';
    assert RegularWelcome[|RegularWelcome| - 1] == '!';
    assert ma[|ma| - 1] == '.';
    assert mr[|mr| - 1] == '!';
  }

  /** `create_welcome_notification`. */
  method CreateWelcome(t: NotificationTable, user: Option<Accounts.User>, now: int) returns (result: string)
    requires t.Valid()
    modifies t
    ensures t.Valid()
    ensures user.None? ==> result == UserMissing && t.rows == old(t.rows)
    ensures user.Some? ==>
      t.rows == old(t.rows) + [Stored(old(t.nextId),
        Draft(user.value.id, "Welcome to Music App!", WelcomeMessage(user.value), Welcome, None, None), now)]
      && result == "Welcome notification created for " + user.value.username
  {
    if user.None? {
      return UserMissing;
    }
    var u := user.value;
    var _ := t.Create(Draft(u.id, "Welcome to Music App!", WelcomeMessage(u), Welcome, None, None), now);
    result := "Welcome notification created for " + u.username;
  }
}
