# Music app core, modelled in Dafny

The music management app has two halves. The Next.js client keeps a playback
queue and a session in Redux slices, persists tokens in browser storage, and
edits playlists through selection dialogs. The Django REST backend stores
users, songs, playlists with their membership rows, play logs and
notifications. It decides who may see or change what, fans notifications out
from Celery tasks, and computes play statistics and the dashboard summary.

This project models the logic of both halves, one Dafny module per source
file:

- Client state the source updates in place is a `class`: the music slice, the
  user slice, the auth storage, the music context, the playlist dialogs and the
  playlists page. Each method states its whole new state as a pure function of
  the old one, and the lemmas are proved about those functions.
- Backend tables are classes holding sequences of value records:
  - playlists with their membership rows;
  - notifications;
  - play logs.
- The permission classes, the querysets, the serializers' validation and the
  statistics are pure functions over those records.

Helper modules hold what several files share:

- `Wrappers`: option and result types.
- `Decimal`: decimal text, with a proved parse round trip.
- `Text`: lower-casing, substrings and splitting at a character.
- `Ranking`: a stable descending sort, top-k selection and counting of keys.
- `Http`: status codes and methods.

Things outside the code become parameters:

- The clock is an integer `now`. Backend times are seconds and client times milliseconds.
- The network's answer is a parameter.
- Database lookups by id are an `Option`.
- A request's `META` is a `map<string, string>`.

## Model

| member | source | states |
|---|---|---|
| MusicSlice.At | frontend/src/store/slices/musicSlice.ts:66 | reading `queue[i]` yields a song exactly when `i` is an index of the queue, and then that song |
| MusicSlice.Played | frontend/src/store/slices/musicSlice.ts:31-35 | `playSong` makes the song current, playing and visible; queue and index are unchanged |
| MusicSlice.Paused | frontend/src/store/slices/musicSlice.ts:36-38 | `pauseSong` clears `isPlaying` and changes nothing else |
| MusicSlice.Resumed | frontend/src/store/slices/musicSlice.ts:39-41 | `resumeSong` sets `isPlaying` and changes nothing else, with no guard on the current song |
| MusicSlice.Stopped | frontend/src/store/slices/musicSlice.ts:42-46 | `stopSong` clears song, playing and visibility and keeps queue and index |
| MusicSlice.WithVisibility | frontend/src/store/slices/musicSlice.ts:47-49 | `setPlayerVisible` sets only the visibility flag |
| MusicSlice.WithQueue | frontend/src/store/slices/musicSlice.ts:50-53 | `setQueue` replaces the queue and resets the index to 0; song, playing and visibility are unchanged |
| MusicSlice.PlaylistStarted | frontend/src/store/slices/musicSlice.ts:54-62 | `playPlaylist([])` is a no-op; otherwise the state is exactly: first song current, playing, visible, queue = payload, index 0 |
| MusicSlice.Advanced | frontend/src/store/slices/musicSlice.ts:63-68 | `nextSong` moves to index+1 and its song only when the index is below the last; otherwise no change |
| MusicSlice.Rewound | frontend/src/store/slices/musicSlice.ts:69-74 | `previousSong` moves to index-1 and its song only when the index is positive; otherwise no change |
| MusicSlice.StepKeepsCursor | frontend/src/store/slices/musicSlice.ts:31-74 | every reducer keeps the index within 0 .. max(0, queue length - 1) |
| MusicSlice.Step | frontend/src/store/slices/musicSlice.ts:31-74 | the reducer: only `setQueue` and `playPlaylist` replace the queue, and only those two and the next/previous actions move the index |
| MusicSlice.Run | frontend/src/store/slices/musicSlice.ts:31-74 | dispatching actions in order; a batch without `setQueue` or `playPlaylist` keeps the queue |
| MusicSlice.RunConcat | frontend/src/store/slices/musicSlice.ts:31-74 | dispatching two batches in turn equals dispatching them as one |
| MusicSlice.RunKeepsCursor | frontend/src/store/slices/musicSlice.ts:31-74 | any sequence of reducers keeps the index within bounds |
| MusicSlice.ReachableCursorInBounds | frontend/src/store/slices/musicSlice.ts:19-25 | every state reachable from the initial state has its index within bounds |
| MusicSlice.CursorNamesSong | frontend/src/store/slices/musicSlice.ts:66-72 | in a reachable state with a non-empty queue the index always names a song |
| MusicSlice.NextThenPrevious | frontend/src/store/slices/musicSlice.ts:63-74 | `nextSong` then `previousSong` restores the index and makes the song at it current |
| MusicSlice.PlaylistNextPreviousRoundTrip | frontend/src/store/slices/musicSlice.ts:54-74 | after `playPlaylist` with two or more songs, `nextSong` plays the second song and `previousSong` then restores the state exactly |
| MusicSlice.NavigationStopsAtEnds | frontend/src/store/slices/musicSlice.ts:64-70 | `nextSong` is a no-op at the last index or on an empty queue, `previousSong` at index 0 |
| MusicSlice.ResumeAfterStopPlaysNothing | frontend/src/store/slices/musicSlice.ts:39-46 | `resumeSong` after `stopSong` reports playing with no current song |
| MusicSlice.MusicStore.constructor | frontend/src/store/slices/musicSlice.ts:19-25 | the store starts with no song, not playing, hidden, an empty queue and index 0 |
| MusicSlice.MusicStore.PlaySong | frontend/src/store/slices/musicSlice.ts:31-35 | updates the fields in place to `Played` of the old state |
| MusicSlice.MusicStore.PauseSong | frontend/src/store/slices/musicSlice.ts:36-38 | updates the fields in place to `Paused` of the old state |
| MusicSlice.MusicStore.ResumeSong | frontend/src/store/slices/musicSlice.ts:39-41 | updates the fields in place to `Resumed` of the old state |
| MusicSlice.MusicStore.StopSong | frontend/src/store/slices/musicSlice.ts:42-46 | updates the fields in place to `Stopped` of the old state |
| MusicSlice.MusicStore.SetPlayerVisible | frontend/src/store/slices/musicSlice.ts:47-49 | updates the fields in place to `WithVisibility` of the old state |
| MusicSlice.MusicStore.SetQueue | frontend/src/store/slices/musicSlice.ts:50-53 | updates the fields in place to `WithQueue` of the old state |
| MusicSlice.MusicStore.PlayPlaylist | frontend/src/store/slices/musicSlice.ts:54-62 | updates the fields in place to `PlaylistStarted` of the old state |
| MusicSlice.MusicStore.NextSong | frontend/src/store/slices/musicSlice.ts:63-68 | updates the fields in place to `Advanced` of the old state, keeping the index in bounds |
| MusicSlice.MusicStore.PreviousSong | frontend/src/store/slices/musicSlice.ts:69-74 | updates the fields in place to `Rewound` of the old state, keeping the index in bounds |
| UserSlice.Authenticated | frontend/src/store/slices/userSlice.ts:31-36 | `setAuth` stores the user and both tokens and marks the session authenticated |
| UserSlice.WithUser | frontend/src/store/slices/userSlice.ts:37-40 | `setUser` stores the user and marks the session authenticated, leaving both tokens as they were |
| UserSlice.WithToken | frontend/src/store/slices/userSlice.ts:41-43 | `setToken` replaces the access token only |
| UserSlice.Cleared | frontend/src/store/slices/userSlice.ts:44-49 | `clearAuth` returns to the initial state (no user, no tokens, not authenticated) |
| UserSlice.ClearIdempotent | frontend/src/store/slices/userSlice.ts:44-49 | clearing twice is the same as clearing once |
| UserSlice.AuthenticatedWithoutToken | frontend/src/store/slices/userSlice.ts:37-40 | from the initial state `setUser` yields an authenticated session that holds no token |
| UserSlice.RefreshAfterAuth | frontend/src/store/slices/userSlice.ts:31-43 | `setToken` after `setAuth` equals `setAuth` with the new access token, the refresh token kept |
| UserSlice.UserStore.constructor | frontend/src/store/slices/userSlice.ts:20-25 | the store starts with no user, not authenticated and no tokens |
| UserSlice.UserStore.SetAuth | frontend/src/store/slices/userSlice.ts:31-36 | updates the fields in place to `Authenticated` of the old state |
| UserSlice.UserStore.SetUser | frontend/src/store/slices/userSlice.ts:37-40 | updates the fields in place to `WithUser` of the old state |
| UserSlice.UserStore.SetToken | frontend/src/store/slices/userSlice.ts:41-43 | updates the fields in place to `WithToken` of the old state |
| UserSlice.UserStore.ClearAuth | frontend/src/store/slices/userSlice.ts:44-49 | updates the fields in place to `Cleared` of the old state |
| AuthActions.SessionStored | frontend/src/_services/actions/auth-actions/actions.ts:32-34 | a stored session sets exactly the `token`, `refreshToken` and `user` keys to the reply's values and keeps every other key |
| AuthActions.SessionRemoved | frontend/src/_services/actions/auth-actions/actions.ts:55-57 | removal drops exactly the three session keys and keeps every other key and value |
| AuthActions.GetCurrentUser | frontend/src/_services/actions/auth-actions/actions.ts:75-78 | null exactly when the `user` key is missing or empty, otherwise the stored text |
| AuthActions.IsAuthenticated | frontend/src/_services/actions/auth-actions/actions.ts:80-82 | true exactly when a non-empty `token` is stored |
| AuthActions.LoginAuthenticates | frontend/src/_services/actions/auth-actions/actions.ts:28-82 | after a successful login the client is authenticated iff the access token is non-empty, and the stored user is the returned one |
| AuthActions.LogoutForgetsSession | frontend/src/_services/actions/auth-actions/actions.ts:54-58 | after logout the client is not authenticated, has no user and no refresh token |
| AuthActions.LoginThenLogout | frontend/src/_services/actions/auth-actions/actions.ts:32-57 | logout after login leaves storage as logout alone would: nothing the login wrote survives |
| AuthActions.Browser.constructor | frontend/src/_services/actions/auth-actions/actions.ts:32 | the browser holds the given storage map and location |
| AuthActions.PostAndStore | frontend/src/_services/actions/auth-actions/actions.ts:28-48 | the shared login/register body: on success storage becomes `SessionStored`, on failure the error propagates and storage is unchanged |
| AuthActions.Login | frontend/src/_services/actions/auth-actions/actions.ts:28-37 | posts to `auth/login/`; success stores the session and returns the reply, failure writes nothing |
| AuthActions.Register | frontend/src/_services/actions/auth-actions/actions.ts:39-48 | posts to `auth/register/` and behaves exactly like login |
| AuthActions.Logout | frontend/src/_services/actions/auth-actions/actions.ts:50-60 | sends the stored refresh token (null when missing), then whatever the reply removes the session and redirects to `/auth/login`, and still propagates a failure |
| AuthActions.RefreshToken | frontend/src/_services/actions/auth-actions/actions.ts:62-73 | with no (or an empty) refresh token it fails with "No refresh token" and sends nothing; otherwise on success it overwrites only the access token |
| AuthActions.RefreshKeepsSession | frontend/src/_services/actions/auth-actions/actions.ts:62-73 | a refresh keeps the refresh token and the user, and leaves the client authenticated iff the new token is non-empty |
| MusicContext.MusicProvider.constructor | frontend/src/contexts/music-context.tsx:23-25 | the provider mounts with no current song and not playing |
| MusicContext.MusicProvider.SetCurrentSong | frontend/src/contexts/music-context.tsx:24-36 | only the song cell changes |
| MusicContext.MusicProvider.SetIsPlaying | frontend/src/contexts/music-context.tsx:25-37 | only the playing flag changes |
| MusicContext.MusicProvider.PlaySong | frontend/src/contexts/music-context.tsx:27-30 | the song becomes current and the flag is set |
| MusicContext.UseMusic | frontend/src/contexts/music-context.tsx:45-51 | outside a provider the hook fails with its error message; inside it yields that provider |
| PlaylistSelection.Keep | frontend/src/components/playlist/edit-playlist.tsx:82-87 | the `filter(id => !excluded.includes(id))` result holds exactly the elements outside `excluded`, never grows, and keeps a duplicate-free list duplicate-free |
| PlaylistSelection.Toggle | frontend/src/components/playlist/edit-playlist.tsx:105-111 | the toggled id is selected afterwards iff it was not before; every other id keeps its membership; no duplicates are created |
| PlaylistSelection.ToggleTwice | frontend/src/components/playlist/edit-playlist.tsx:105-111 | toggling an id twice restores the selection as a set, and restores the list exactly when the id was absent |
| PlaylistSelection.KeepNothingExcluded | frontend/src/components/playlist/edit-playlist.tsx:108 | filtering out ids that do not occur in a list leaves that list unchanged |
| PlaylistSelection.KeepAllExcluded | frontend/src/components/playlist/edit-playlist.tsx:108 | filtering out every element leaves nothing |
| PlaylistSelection.SongsToAdd | frontend/src/components/playlist/edit-playlist.tsx:82-84 | the ids to add are exactly the selected ids the playlist does not hold |
| PlaylistSelection.SongsToRemove | frontend/src/components/playlist/edit-playlist.tsx:85-87 | the ids to remove are exactly the playlist's ids that are no longer selected |
| PlaylistSelection.SongIds | frontend/src/components/playlist/edit-playlist.tsx:81 | the playlist's song ids in order, or none when it carries no song list |
| PlaylistSelection.AddCalls | frontend/src/components/playlist/edit-playlist.tsx:90-92 | one add request per id, in list order |
| PlaylistSelection.RemoveCalls | frontend/src/components/playlist/edit-playlist.tsx:95-97 | one remove request per id, in list order |
| PlaylistSelection.AppliedAdds | frontend/src/components/playlist/edit-playlist.tsx:90-92 | applying the add requests makes the membership the old one plus the added ids |
| PlaylistSelection.AppliedRemoves | frontend/src/components/playlist/edit-playlist.tsx:95-97 | applying the remove requests makes the membership the old one minus the removed ids |
| PlaylistSelection.AppliedConcat | frontend/src/components/playlist/edit-playlist.tsx:89-97 | applying two runs of requests in a row is applying their concatenation |
| PlaylistSelection.DiffDisjoint | frontend/src/components/playlist/edit-playlist.tsx:81-87 | no id is both added and removed |
| PlaylistSelection.PlanReachesSelection | frontend/src/components/playlist/edit-playlist.tsx:81-97 | issuing every add and then every remove turns the playlist's songs into exactly the selected set |
| PlaylistSelection.IssueInOrder | frontend/src/components/playlist/edit-playlist.tsx:89-102 | requests go out one after another, as a prefix of the plan; it stops at the first rejected one; it reports success iff the whole plan went out and every request was accepted |
| EditPlaylist.EditPlaylistDialog.constructor | frontend/src/components/playlist/edit-playlist.tsx:46-51 | the dialog starts closed with the playlist's name, its description or "", and an empty selection |
| EditPlaylist.EditPlaylistDialog.Open | frontend/src/components/playlist/edit-playlist.tsx:57-65 | opening reloads name and description and sets the selection to the playlist's song ids, or [] when it carries none |
| EditPlaylist.EditPlaylistDialog.ToggleSongSelection | frontend/src/components/playlist/edit-playlist.tsx:105-111 | the selection becomes `Toggle` of the old one; the form and the open flag are unchanged |
| EditPlaylist.EditPlaylistDialog.HandleSubmit | frontend/src/components/playlist/edit-playlist.tsx:67-103 | sends the metadata update; after it succeeds issues a prefix of the add-then-remove plan in order; the dialog closes iff the metadata update and every planned request succeeded |
| AddPlaylist.AddPlaylistDialog.constructor | frontend/src/components/playlist/add-playlist.tsx:27-32 | the dialog starts closed with an empty form and selection |
| AddPlaylist.AddPlaylistDialog.ToggleSongSelection | frontend/src/components/playlist/add-playlist.tsx:55-61 | the selection becomes `Toggle` of the old one; nothing else changes |
| AddPlaylist.AddPlaylistDialog.HandleSubmit | frontend/src/components/playlist/add-playlist.tsx:38-53 | sends name, description and the selection unchanged as `song_ids`; on success resets form and selection and closes, on failure leaves every field unchanged |
| PlaylistsPage.ToQueueSong | frontend/src/app/dashboard/playlists/page.tsx:194-200 | a page song becomes a player song with the same id, title, artist and file; a missing duration becomes "", a present one its decimal text, which parses back to the number |
| PlaylistsPage.QueueSongs | frontend/src/app/dashboard/playlists/page.tsx:194-200 | the queue holds one converted song per playlist song, in order |
| PlaylistsPage.PlaylistsPageState.constructor | frontend/src/app/dashboard/playlists/page.tsx:83-103 | the page starts with the dialog closed, nothing being edited or deleted, and an empty form and selection |
| PlaylistsPage.PlaylistsPageState.StartCreate | frontend/src/app/dashboard/playlists/page.tsx:240-243 | the create trigger clears the playlist being edited and opens the dialog, leaving form and selection as they were |
| PlaylistsPage.PlaylistsPageState.CanModify | frontend/src/app/dashboard/playlists/page.tsx:184-186 | edit and delete are offered exactly for playlists whose creator name is the signed-in user's name |
| PlaylistsPage.PlaylistsPageState.HandleEdit | frontend/src/app/dashboard/playlists/page.tsx:154-163 | a playlist created by someone else changes nothing; the owner's playlist is loaded into the form and the selection and the dialog opens |
| PlaylistsPage.PlaylistsPageState.HandleDelete | frontend/src/app/dashboard/playlists/page.tsx:165-167 | only the pending deletion changes |
| PlaylistsPage.PlaylistsPageState.ConfirmDelete | frontend/src/app/dashboard/playlists/page.tsx:169-174 | a delete is sent only when a deletion is pending, for that playlist, and the pending deletion is cleared |
| PlaylistsPage.PlaylistsPageState.ToggleSongSelection | frontend/src/app/dashboard/playlists/page.tsx:176-182 | the selection becomes `Toggle` of the old one; nothing else changes |
| PlaylistsPage.PlaylistsPageState.HandleSubmit | frontend/src/app/dashboard/playlists/page.tsx:105-152 | editing: sends the update and a prefix of the add-then-remove plan; creating: sends the form with the selection as `song_ids`; the form, selection and edit target are reset and the dialog closed iff every request succeeded, otherwise nothing changes |
| PlaylistsPage.PlaylistsPageState.HandlePlayPlaylist | frontend/src/app/dashboard/playlists/page.tsx:188-204 | a playlist without songs changes nothing and logs nothing; otherwise its first song is logged and the player store becomes `PlaylistStarted` with the converted songs |
| PlaylistsPage.PlaylistsPageState.HandlePlaySong | frontend/src/app/dashboard/playlists/page.tsx:206-218 | logs the song and the player store becomes `Played` with the converted song |
| PlaylistsPage.PlayPlaylistStartsAtFirstSong | frontend/src/app/dashboard/playlists/page.tsx:188-204 | playing a playlist makes its first song current and playing at index 0, with every song of the playlist queued in order |
| PlayLogsPage.Matches | frontend/src/app/dashboard/playlogs/page.tsx:22-26 | the search test: an empty term matches every log |
| PlayLogsPage.Filter | frontend/src/app/dashboard/playlogs/page.tsx:22-26 | a log is kept iff the lower-cased term occurs in its lower-cased title, artist or user name; the result never grows |
| PlayLogsPage.EmptyTermKeepsAll | frontend/src/app/dashboard/playlogs/page.tsx:22-26 | an empty search keeps every log, in order |
| PlayLogsPage.FilterIsSubsequence | frontend/src/app/dashboard/playlogs/page.tsx:22-26 | the filtered list keeps the input's order |
| PlayLogsPage.FilterIdempotent | frontend/src/app/dashboard/playlogs/page.tsx:22-26 | filtering twice with the same term equals filtering once |
| TimeAgo.Describe | frontend/src/app/dashboard/playlogs/page.tsx:32-44 | the label from nested floor divisions equals: "Just now" below a minute (including the future), whole minutes below an hour, whole hours below a day, whole days otherwise, each counted directly in milliseconds |
| TimeAgo.LabelRanges | frontend/src/app/dashboard/playlogs/page.tsx:40-43 | the minute label carries 1 to 59, the hour label 1 to 23, the day label at least 1 |
| TimeAgo.DivDiv | frontend/src/app/dashboard/playlogs/page.tsx:36-38 | flooring a floor quotient again equals flooring once by the product, so the nested `Math.floor` steps count whole hours and days |
| NotificationsDropdown.Badge | frontend/src/components/notifications-dropdown.tsx:54-58 | no badge iff the unread count is 0 or less; "9+" iff it is above 9; otherwise a single digit that reads back as the count |
| NotificationsDropdown.MarkAllWithBadge | frontend/src/components/notifications-dropdown.tsx:54-64 | "Mark all read" is offered exactly when the badge is shown |
| NotificationsDropdown.Recent | frontend/src/components/notifications-dropdown.tsx:25 | the listed entries are the first min(5, n) notifications, in order |
| NotificationsDropdown.ViewAllWhenTruncated | frontend/src/components/notifications-dropdown.tsx:25-118 | "View all" is shown iff the list shows only part of the notifications |
| NotificationsDropdown.ClickRow | frontend/src/components/notifications-dropdown.tsx:88 | a click sends mark-read for the row's id iff the row is unread |
| NotificationsDropdown.FutureIsJustNow | frontend/src/components/notifications-dropdown.tsx:35-47 | a timestamp in the future is labelled "Just now" |
| FloatingPlayer.TwoDigits | frontend/src/components/music-player/floating-player.tsx:43-44 | the seconds field always has exactly two digits and reads back as the seconds |
| FloatingPlayer.FormatTime | frontend/src/components/music-player/floating-player.tsx:40-45 | NaN and Infinity are shown as "0:00" |
| FloatingPlayer.SecondsField | frontend/src/components/music-player/floating-player.tsx:42-44 | every label of whole seconds has exactly two digits after its only colon, reading below 60 |
| FloatingPlayer.ClockRoundTrip | frontend/src/components/music-player/floating-player.tsx:42-44 | reading a label back as minutes * 60 + seconds gives the number of seconds formatted |
| FloatingPlayer.UnknownReadsAsZero | frontend/src/components/music-player/floating-player.tsx:41 | the label for an unknown time reads back as zero seconds |
| Accounts.IsAdmin | backend/accounts/models.py:32-34 | an admin is never a regular user |
| Accounts.IsRegularUser | backend/accounts/models.py:36-38 | a regular user holds one of the declared user types |
| Accounts.NotBoth | backend/accounts/models.py:32-38 | `is_admin` and `is_regular_user` are never both true |
| Accounts.NewUser | backend/accounts/models.py:10-14 | a user created without a type gets 'regular', one of the declared choices, and is not an admin |
| Accounts.ChoicesAreAdminOrRegular | backend/accounts/models.py:32-38 | a user whose type is one of the declared choices is exactly one of admin and regular |
| Accounts.InsertUser | backend/accounts/models.py:15 | an insert succeeds iff no stored user has the e-mail, appends the user, and keeps e-mails unique |
| PlaylistPermissions.HasPermission | backend/playlists/permissions.py:11-12 | view-level access is granted iff the requester is signed in |
| PlaylistPermissions.HasObjectPermission | backend/playlists/permissions.py:14-26 | admins may do anything; otherwise a safe method is allowed iff the playlist is public or owned, and a write iff it is owned |
| PlaylistPermissions.OwnerAlwaysAllowed | backend/playlists/permissions.py:20-26 | the owner is allowed every method |
| PlaylistPermissions.PublicGrantsNoWrite | backend/playlists/permissions.py:24-26 | a non-admin who does not own a playlist may never change it, public or not |
| SongPermissions.HasPermission | backend/songs/permissions.py:9-12 | safe methods are always allowed, even anonymously; a write iff the requester is a signed-in admin |
| SongPermissions.HasObjectPermission | backend/songs/permissions.py:14-17 | the same rule at object level, whatever the song |
| SongPermissions.ObjectMatchesView | backend/songs/permissions.py:9-17 | the object-level and view-level decisions coincide for every requester and method |
| SongPermissions.OnlyAdminsWrite | backend/songs/permissions.py:12-17 | whoever is allowed a write is a signed-in admin |
| PlayLogPermissions.HasPermission | backend/play_logs/permissions.py:11-12 | view-level access is granted iff the requester is signed in |
| PlayLogPermissions.HasObjectPermission | backend/play_logs/permissions.py:14-20 | a log is accessible iff the requester is an admin or the log's user |
| PlayLogPermissions.MethodIrrelevant | backend/play_logs/permissions.py:14-20 | the object decision is the same whatever the method |
| Songs.UploadPath | backend/songs/models.py:5-6 | the upload path starts with "songs/" and ends with "/" and the uploaded file name, with the artist in between |
| Songs.AllowedFile | backend/songs/models.py:29 | a file name is accepted only when it has an extension (so a '.') and that extension is one of mp3, wav, m4a, ogg |
| Songs.Extension | backend/songs/models.py:29 | the extension the validator checks never contains a '.' or a '/' |
| Songs.ExtensionOf | backend/songs/models.py:27-30 | a file named `<stem>.<ext>` under any directory is checked by its lower-cased `ext` |
| Songs.Saved | backend/songs/models.py:53-56 | `save` sets `file_size` to the audio file's size when a file is present, leaves it unchanged otherwise, and changes no other field |
| Songs.SaveIdempotent | backend/songs/models.py:53-56 | saving twice stores what saving once does |
| Songs.FileUrl | backend/songs/models.py:58-62 | None iff there is no audio file, otherwise the file's URL |
| Songs.Filename | backend/songs/models.py:64-68 | None iff there is no audio file; otherwise a suffix of the stored name with no '/', preceded by a '/' when the name has one, and the whole name when it has none |
| Songs.FilenameOfUpload | backend/songs/models.py:64-68 | a file stored under its upload path reports the uploaded file name |
| Songs.Describe | backend/songs/models.py:50-51 | the string form is the title, then " by ", then the artist |
| Songs.Song.constructor | backend/songs/models.py:8-39 | the model object holds the given row |
| Songs.Song.Save | backend/songs/models.py:53-56 | updates the row in place to `Saved` of the old row |
| PlaylistModels.Saved | backend/playlists/models.py:37-41 | after `save` an admin's playlist is public; any other playlist keeps its flag; no other field changes |
| PlaylistModels.NewPlaylist | backend/playlists/models.py:17-41 | a new playlist starts private by default, so after `save` it is public iff its creator is an admin |
| PlaylistModels.SaveIdempotent | backend/playlists/models.py:37-41 | saving twice stores what saving once does |
| PlaylistModels.RowsOf | backend/playlists/models.py:43-45 | the membership rows of one playlist: exactly the table's rows that point at it, in table order |
| PlaylistModels.SongCount | backend/playlists/models.py:33-35 | `song_count` equals the number of membership rows of the playlist |
| PlaylistModels.SongCountAppend | backend/playlists/models.py:33-35 | a new row adds one to its own playlist's count and nothing to any other |
| PlaylistModels.InsertRow | backend/playlists/models.py:50 | inserting a row into a listing in (order, added_at) order keeps it in that order and adds exactly that row |
| PlaylistModels.Listing | backend/playlists/models.py:50 | the rows in (order, added_at) order: sorted, and a permutation of the table's rows |
| PlaylistModels.PlaylistDatabase.constructor | backend/playlists/models.py:4-51 | the database starts with empty tables satisfying the unique-pair and non-negative-order constraints |
| PlaylistSerializers.ValidateSongExists | backend/playlists/serializers.py:45-49 | an add passes validation iff the song exists; otherwise it fails with "Song does not exist" |
| PlaylistSerializers.ValidateMember | backend/playlists/serializers.py:77-81 | a remove passes validation iff the playlist has a row for the song; otherwise it fails with "Song is not in this playlist" |
| PlaylistSerializers.GetOrCreate | backend/playlists/serializers.py:59-63 | a row is created iff none exists for the pair; an existing row, its order included, is left as it is; afterwards the pair always has a row |
| PlaylistSerializers.GetOrCreateKeepsUnique | backend/playlists/models.py:51 | adding keeps every (playlist, song) pair unique |
| PlaylistSerializers.GetOrCreateCount | backend/playlists/serializers.py:59-63 | the playlist's song count grows by one exactly when a row was created |
| PlaylistSerializers.GetOrCreateTwice | backend/playlists/serializers.py:59-63 | adding the same song again creates nothing and changes nothing |
| PlaylistSerializers.AddSong | backend/playlists/serializers.py:41-72 | a missing song fails with "Song does not exist" and changes nothing; an existing row gives no change and no notification; a new row whose order is negative is refused by the database; otherwise the row with the order (default 0) is appended and exactly one update notification naming the song and the playlist is enqueued; the table invariants are kept |
| PlaylistSerializers.CreatePlaylist | backend/playlists/serializers.py:24-28 | the new playlist's creator is the requesting user, `is_public` follows the admin rule only, it gets the next id and is appended; no membership row changes |
| PlaylistViews.Visible | backend/playlists/views.py:25-33 | a playlist is in the user's queryset exactly when the object permission grants the user a read of it |
| PlaylistViews.Queryset | backend/playlists/views.py:25-33 | a playlist is listed iff it is in the table and the user is an admin, it is public, or the user created it |
| PlaylistViews.AdminSeesAll | backend/playlists/views.py:27-28 | an admin's queryset is the whole table, in order |
| PlaylistViews.Find | backend/playlists/views.py:46 | the playlist found has the requested id; none found means no playlist has it |
| PlaylistViews.GetObject | backend/playlists/views.py:46 | a playlist outside the user's queryset is 404; one the object permission refuses is 403; a success is visible, has the id and passes the object permission |
| PlaylistViews.ReadsNeverForbidden | backend/playlists/views.py:25-33 | a read of a playlist the user can list is never forbidden |
| PlaylistViews.StrangerCannotChangePublic | backend/playlists/permissions.py:24-26 | a non-admin who does not own a visible playlist gets 403 for any write |
| PlaylistViews.PerformCreate | backend/playlists/views.py:40-41 | the new playlist belongs to the requesting user and is public iff that user is an admin; it is appended and no membership row changes |
| PlaylistViews.AddSongAction | backend/playlists/views.py:43-57 | the lookup's 404/403 pass through; otherwise 400 iff the song does not exist, 500 iff the pair is new and the order negative, and 201 in every other case, with the rows after `get_or_create` and a notification naming the song and playlist iff the row is new; playlists never change |
| PlaylistViews.WithoutPair | backend/playlists/views.py:69 | exactly the rows of the deleted (playlist, song) pair are removed |
| PlaylistViews.WithoutPairConsistent | backend/playlists/models.py:51 | deleting rows keeps pairs unique and orders non-negative |
| PlaylistViews.WithoutPairCount | backend/playlists/views.py:69 | removing a present song lowers the playlist's count by exactly one |
| PlaylistViews.NoPairCount | backend/playlists/views.py:69 | deleting a pair that has no row leaves the rows as they were |
| PlaylistViews.RemoveSongAction | backend/playlists/views.py:59-73 | the lookup's 404/403 pass through; otherwise 400 iff the song is not in the playlist, and 200 with exactly that pair's rows deleted when it is; nothing changes on an error |
| PlaylistViews.ListingSongsExist | backend/playlists/views.py:79 | every row of the playlist's listing points at an existing song |
| PlaylistViews.SongsAction | backend/playlists/views.py:75-91 | the lookup's errors pass through with no entries; otherwise 200 with one entry per row of the playlist, in the declared ordering, carrying the song's fields and the row's order and added time |
| NotificationModels.KindName | backend/notifications/models.py:5-10 | each kind is stored as one of the four declared texts |
| NotificationModels.KindNameInjective | backend/notifications/models.py:5-10 | different kinds are stored as different texts |
| NotificationModels.PlainDraft | backend/notifications/models.py:19-23 | a notification created without a kind is a 'general' one with no related playlist or song |
| NotificationModels.Stored | backend/notifications/models.py:24-26 | a stored notification is unread, has no read time, was created now and keeps every supplied field |
| NotificationModels.MarkedRead | backend/notifications/models.py:55-60 | the result is read; an unread one gets the read time now and nothing else changes; a read one is left as it is |
| NotificationModels.MarkAsReadIdempotent | backend/notifications/models.py:55-60 | marking twice is marking once: the first read time is kept |
| NotificationModels.StoredAll | backend/notifications/tasks.py:29 | the drafts are stored one for one, in order, under consecutive ids |
| NotificationModels.NotificationTable.constructor | backend/notifications/models.py:4 | a new table is empty and hands out ids from 1 |
| NotificationModels.NotificationTable.BulkCreate | backend/notifications/tasks.py:29 | every draft is appended in order under fresh ids; ids stay distinct |
| NotificationModels.NotificationTable.Create | backend/notifications/tasks.py:33-39 | one draft is appended under the next id |
| NotificationModels.NotificationTable.MarkAsRead | backend/notifications/models.py:55-60 | only the notification at the given position changes, as MarkedRead says |
| NotificationViews.Own | backend/notifications/views.py:22-24 | a notification is listed iff it belongs to the requesting user |
| NotificationViews.Locate | backend/notifications/views.py:37 | the position found holds the user's notification with that id; none found means the user has no such notification |
| NotificationViews.MarkRead | backend/notifications/views.py:34-39 | 404 with no change unless the id names one of the user's notifications; otherwise 200 and only that notification is marked read |
| NotificationViews.Chosen | backend/notifications/views.py:46-51 | only the user's unread notifications are chosen, and any of them whose id is given is |
| NotificationViews.MarkAll | backend/notifications/views.py:46-56 | exactly the user's unread notifications among the given ids (all of them when no ids are given) are marked read now; every other notification is unchanged |
| NotificationViews.CountChosen | backend/notifications/views.py:53 | the count is at most the table size, and zero exactly when no notification is an unread one of the user's among those chosen |
| NotificationViews.UnreadCount | backend/notifications/views.py:64-68 | the unread count is at most the number of the user's notifications; it is zero exactly when all of them are read, and equal to their number exactly when none is |
| NotificationViews.MarkAllCounts | backend/notifications/views.py:53-56 | the unread count falls by exactly the number the bulk update reports |
| NotificationViews.MarkAllClearsUnread | backend/notifications/views.py:46-51 | with no ids, nothing of the user's is left unread |
| NotificationViews.ChosenAllUnread | backend/notifications/views.py:48-51 | with no ids, the bulk update changes exactly the user's unread notifications |
| NotificationViews.MarkAllLeavesOthers | backend/notifications/views.py:48 | a notification already read, or another user's, is never touched |
| NotificationViews.MarkAllRead | backend/notifications/views.py:41-60 | the table becomes MarkAll; the reported count is the number changed and equals the drop in the unread count; the message carries it |
| NotificationViews.Others | backend/notifications/views.py:74 | exactly the other users' notifications remain; together with the user's own they make up the table |
| NotificationViews.ClearAll | backend/notifications/views.py:70-77 | every notification of the user is deleted and no other; the count reported is how many the user had; afterwards the user has none and no unread |
| NotificationViews.OthersKeepsIds | backend/notifications/views.py:74 | deleting keeps ids distinct and below the next id |
| NotificationViews.NoOwn | backend/notifications/views.py:73-74 | a table with none of the user's notifications gives the user an empty list and no unread |
| NotificationTasks.RegularUsers | backend/notifications/tasks.py:16 | a user is a recipient iff it is in the table and a regular user |
| NotificationTasks.CollectBroadcast | backend/notifications/tasks.py:17-27 | one draft per regular user, in order, each carrying the given title, message, kind and related object |
| NotificationTasks.AdminsNotRecipients | backend/notifications/tasks.py:16 | no admin is ever a broadcast recipient |
| NotificationTasks.SendPlaylistUpdate | backend/notifications/tasks.py:7-43 | a missing playlist stores nothing and reports the failure; a public one appends one 'Playlist Updated' notification per regular user and reports how many; a private one appends one 'Your Playlist Updated' notification for its owner; every appended row is stored unread, with no read time, created now, under the next consecutive ids |
| NotificationTasks.SendNewSong | backend/notifications/tasks.py:45-74 | a missing song stores nothing and reports the failure; a song uploaded by a non-admin stores nothing; an admin's song appends one 'New Song Available' notification per regular user with the song's title and artist, each stored unread, with no read time, created now, under the next consecutive ids |
| NotificationTasks.GreetingName | backend/notifications/tasks.py:82 | the greeting uses the first name, or the user name when the first name is empty |
| NotificationTasks.WelcomeMessage | backend/notifications/tasks.py:82-86 | the welcome is the fixed opening, the greeting name, then the admin closing for admins and the regular closing for everyone else |
| NotificationTasks.WelcomeTellsRoles | backend/notifications/tasks.py:83-86 | an admin's and a regular user's welcome always differ |
| NotificationTasks.CreateWelcome | backend/notifications/tasks.py:76-98 | a missing user stores nothing and reports the failure; otherwise exactly one 'welcome' notification with the welcome text is appended |
| PlayLogModels.Get | backend/play_logs/models.py:39 | a header is found iff it is present, and then with its value |
| PlayLogModels.ClientIp | backend/play_logs/models.py:38-43 | a non-empty X-Forwarded-For header gives its first comma-separated entry (a prefix with no comma, the whole header when it has none); otherwise REMOTE_ADDR, absent when missing |
| PlayLogModels.FirstHopWins | backend/play_logs/models.py:40-41 | of a proxy chain the address written first is the one recorded |
| PlayLogModels.UserAgent | backend/play_logs/models.py:46 | the user agent header, or the empty text when it is missing |
| PlayLogModels.PlayLogTable.constructor | backend/play_logs/models.py:4 | a new table is empty and hands out ids from 1 |
| PlayLogModels.PlayLogTable.Create | backend/play_logs/models.py:48-53 | one log with the next id, played now, is appended |
| PlayLogModels.PlayLogTable.LogPlay | backend/play_logs/models.py:31-53 | the log records the user and the song, played now; without a request neither address nor agent is known; with one both come from its headers |
| PlayLogSerializers.ValidateSong | backend/play_logs/serializers.py:17-20 | a body without `song` fails as required; otherwise it passes iff the song exists, and fails with the "object does not exist" text naming the id |
| PlayLogSerializers.OnlySongCounts | backend/play_logs/serializers.py:20 | only the `song` field matters: bodies that agree on it validate alike |
| PlayLogSerializers.Create | backend/play_logs/serializers.py:22-35 | the stored log's user is the requester whatever the body says; the address follows the X-Forwarded-For rule and the agent defaults to the empty text |
| PlayLogViews.Queryset | backend/play_logs/views.py:21-27 | an admin sees every log in order; anyone else sees exactly their own logs |
| PlayLogViews.Own | backend/play_logs/views.py:27 | a log is listed iff it belongs to the user |
| PlayLogViews.SerializerFor | backend/play_logs/views.py:29-34 | the create serializer exactly for create, the list serializer exactly for list, the full one for every other action |
| PlayLogViews.CreateView | backend/play_logs/views.py:36-46 | an invalid body gives 400 and stores nothing; a valid one gives 201 with the new log's id and play time and appends exactly that log |
| PlayLogViews.CountSince | backend/play_logs/views.py:58-59 | the count is zero iff no log was played since the cut-off, and the whole length iff every log was |
| PlayLogViews.SongKeys | backend/play_logs/views.py:62-63 | each log contributes its song's (title, artist), in order |
| PlayLogViews.GenreKeys | backend/play_logs/views.py:69-70 | each log contributes its song's genre, in order |
| PlayLogViews.OwnSongsKnown | backend/play_logs/views.py:52 | the user's logs still point at existing songs |
| PlayLogViews.MyStatsOf | backend/play_logs/views.py:48-80 | only the requester's logs count: the total is their number, the weekly count is those of the last seven days and at most the total; ten songs and five genres (fewer only when fewer distinct ones were played), most played first, no song or genre listed twice, each with its true play count, and no song or genre played more often than a listed one is left out |
| PlayLogViews.UserIds | backend/play_logs/views.py:97 | each log contributes its user, in order |
| PlayLogViews.UserNames | backend/play_logs/views.py:107-108 | each log contributes its user's name, in order |
| PlayLogViews.GlobalStatsOf | backend/play_logs/views.py:82-111 | 403 iff the requester is not an admin; otherwise the total is every log, the unique users are the distinct users who played, at most the total; twenty songs and ten users (fewer only when fewer distinct ones occur), most played first, none listed twice, each with its true play count, and none played more often than a listed one is left out |
| Dashboard.CountOnDay | backend/dashboard/views.py:24-25 | the count is at most the number of logs, and zero iff no log was played on that day |
| Dashboard.PlayEntries | backend/dashboard/views.py:29-36 | each log gives its song's title and artist with its play time, in order |
| Dashboard.RecentPlays | backend/dashboard/views.py:28 | five plays (all of them when fewer), newest first, drawn from the logs, and no play left out is newer than one listed |
| Dashboard.SongCounts | backend/dashboard/views.py:39-40 | each playlist is paired with the number of songs it holds |
| Dashboard.TopPlaylists | backend/dashboard/views.py:39-49 | exactly five playlists, or all when there are fewer, fullest first, drawn from the table, and none left out holds more songs than one listed |
| Dashboard.Genres | backend/dashboard/views.py:52 | each song contributes its genre, in order |
| Dashboard.GenreStats | backend/dashboard/views.py:52-65 | empty iff there are no songs; most common first; one entry per genre in use (none twice), with its true song count, and every song's genre is listed |
| Dashboard.GenresCover | backend/dashboard/views.py:52 | the genres counted are exactly the songs' genres |
| Dashboard.Describe | backend/dashboard/views.py:71-97 | one activity per item, in order, each keeping the item's time stamp |
| Dashboard.DescribeNext | backend/dashboard/views.py:71-97 | describing one more item appends exactly its activity |
| Dashboard.RecentActivity | backend/dashboard/views.py:67-110 | the activity is the first five of the merged list sorted newest first: at most five entries, newest first, each one of the merged entries |
| Dashboard.Gather | backend/dashboard/views.py:68-97 | the three loops give the first three plays, then the playlists, then the users, each described by its kind |
| Dashboard.AppendActivities | backend/dashboard/views.py:81-87 | one loop appends an activity for each item, in order, after what was gathered before |
| Dashboard.CountKind | backend/dashboard/views.py:73 | a kind occurs at most as often as there are entries |
| Dashboard.CountKindAppend | backend/dashboard/views.py:68-97 | kind counts add up over concatenation |
| Dashboard.CountOfKind | backend/dashboard/views.py:71-97 | a list described by one kind has that kind once per item |
| Dashboard.CountOfOtherKind | backend/dashboard/views.py:71-97 | a list described by one kind holds no entry of any other kind |
| Dashboard.CountParts | backend/dashboard/views.py:68-97 | the merged list's count of a kind is the sum over its three parts |
| Dashboard.MergedKinds | backend/dashboard/views.py:71-97 | the merged list has at most three plays, one entry per recent playlist and one per recent user |
| Dashboard.Creations | backend/dashboard/views.py:80-86 | each playlist gives its name with its creation time, in order |
| Dashboard.DashboardStats | backend/dashboard/views.py:13-111 | the totals are the table sizes; the plays today are those on the current day; recent plays, top playlists, genre statistics and the activity are as above, the activity built from the two newest playlists and the newest user, at most five entries, newest first |
| Dashboard.DashboardActivityKinds | backend/dashboard/views.py:71-97 | before sorting the activity holds at most three plays, two playlist creations and one new user |
| Ranking.Insert | backend/dashboard/views.py:100 | inserting into a list sorted newest first keeps it sorted and adds exactly the one entry |
| Ranking.InsertWithKey | backend/dashboard/views.py:100 | an insert goes ahead of entries with an equal key and keeps their relative order |
| Ranking.SortDescStable | backend/dashboard/views.py:100 | the sort is stable: for every key, the entries with that key keep their input order |
| Ranking.SortDesc | backend/dashboard/views.py:100 | the result is sorted by descending key and is a permutation of the input |
| Ranking.Take | backend/dashboard/views.py:110 | the first k entries, or all of them when there are fewer: a prefix of the input |
| Ranking.TakeSortedDesc | backend/dashboard/views.py:28 | a prefix of a sorted list is sorted and no entry after it has a larger key than one in it |
| Ranking.TopBy | backend/dashboard/views.py:41 | the k largest entries (all when fewer), largest first, drawn from the input, with nothing left out larger than anything kept |
| Ranking.LeftOutBelow | backend/dashboard/views.py:41 | a prefix of a sorted list is part of it, and whatever it leaves out is no larger than what it keeps |
| Ranking.Bump | backend/play_logs/views.py:65 | counting one more occurrence of a key raises its count by one and no other count, and adds an entry exactly when the key was not yet listed |
| Ranking.Tally | backend/play_logs/views.py:62-65 | exactly one entry per distinct key, each with its number of occurrences |
| Ranking.Ranked | backend/play_logs/views.py:62-66 | one entry per distinct key, none twice: every key occurring appears with its true count, most frequent first |
| Ranking.TopCounts | backend/play_logs/views.py:62-66 | exactly k keys, or all distinct keys when there are fewer, none twice, with their true counts, most frequent first, and any key more frequent than one listed is listed too |
| Ranking.LeadersListed | backend/play_logs/views.py:66 | in a prefix of the ranking, a key more frequent than a listed one is itself listed |
| Ranking.Outranks | backend/play_logs/views.py:66 | in a sorted ranking an entry larger than one inside a prefix is inside that prefix |
| Ranking.DistinctBound | backend/play_logs/views.py:97 | there are never more distinct values than entries |
| Decimal.NatToString | backend/notifications/tasks.py:30 | a non-empty run of digits with no leading zero |
| Decimal.ParseNatToString | backend/notifications/views.py:59 | reading the decimal text back gives the number |
| Decimal.NatToStringLength | frontend/src/components/music-player/floating-player.tsx:43-44 | a number below ten has one digit, one below a hundred two |
| Decimal.IntToString | backend/play_logs/serializers.py:20 | a negative number is written as '-' followed by its magnitude |
| Text.ToLower | frontend/src/app/dashboard/playlogs/page.tsx:22-26 | lower-casing keeps the length and maps every character on its own |
| Text.ContainsAt | frontend/src/app/dashboard/playlogs/page.tsx:22-26 | one text contains another iff the other occurs at some position in it |
| Text.BeforeFirst | backend/play_logs/models.py:41 | the prefix before the first separator, the whole text when there is none; it never holds the separator |
| Text.AfterLast | backend/songs/models.py:29 | the suffix after the last separator, the whole text when there is none; it never holds the separator |
| Text.BeforeFirstSplit | backend/play_logs/models.py:41 | splitting `a,b` with `a` free of commas gives `a` |
| Text.AfterLastSplit | backend/songs/models.py:29 | splitting `a.b` with `b` free of dots gives `b` |
| Wrappers.GetOr | backend/playlists/serializers.py:43 | an absent value falls back to the default; a present one is kept |

## Left out

- Rendering, styling, routing and the songs page: presentation only.
- Network access and axios interceptors: server answers are parameters. The 401 handler only clears the session, and the code has no refresh-and-retry step, so none is modelled.
- Store persistence to localStorage and JSON encoding. A comment in the store says tokens are never persisted, but the auth actions do persist both tokens. The model follows the code.
- `resumeSong` and `setUser` are modelled as written, without guards. `resumeSong` plays with no song loaded, and `setUser` reports the session as authenticated without a token.
- Floating point: the player's volume, progress and seek, and the dashboard's genre percentages and their rounding. Genre statistics are given as counts.
- FloatingPlayer.FormatTime: the input is whole non-negative seconds, NaN or Infinity. Fractional and negative seconds and -Infinity are not modelled. Its own contract covers only NaN and Infinity; `SecondsField` and `ClockRoundTrip` state the format for whole seconds.
- Unicode case mapping: `toLowerCase` and the extension check lower-case ASCII letters only.
- Time zones and date strings. Times are integers. "Played today" compares UTC day numbers (`played_at / 86400`). ISO timestamps are not modelled: the activity feed is sorted on the integer time, which orders the same way when all timestamps share one format.
- Database ordering. The ORM gives no order among rows with equal counts or times; the model keeps table order (the stable sort). The `Meta` default orderings of `Playlist`, `PlayLog` and `Notification` are not modelled: their list querysets are in table order. `PlaylistSong`'s ordering by order and time added is modelled by `PlaylistModels.Listing`.
- ORM internals, transactions and cascading deletes. Foreign keys are stated as preconditions: `SongsKnown`, `UsersKnown` and `SongsExist`.
- `GENRE_CHOICES` and `USER_TYPE_CHOICES` are stated as predicates but not enforced. Django does not validate choices on `save`, so an arbitrary text can be stored.
- The `ModelViewSet` update, partial-update and delete actions, and list filtering, search and ordering: framework code.
- Serializer errors for malformed ids (non-integer `song_id`) and the serializer output shapes: framework code.
- `User.__str__`, `Playlist.__str__`, `PlayLog.__str__` and `Notification.__str__`: display text with HTML escaping. `Song.__str__` is modelled as `Songs.Describe`.
- Celery scheduling, retries and e-mail: each background job is modelled as one call. A failed lookup becomes its "Failed ..." result; other exceptions are not modelled.
- The client's `createPlaylist` request helper (frontend/src/_services/actions/playlists-actions/actions.ts) is not part of this model. It strips `song_ids`, creates the playlist, then adds each selected song with the add-song request, so the backend's create never sees the selection.
- Users, sign-up, JWT issuing and admin registrations: not part of this model.
- The play-log request the playlists page sends when it starts playback is returned as the logged song id. Whether that request succeeds is not modelled.
