/** The playlist serializers: creating a playlist for the requesting user,
    adding a song with get-or-create semantics (and a notification only for
    a new row), and checking that a song to remove is in the playlist. */
module PlaylistSerializers {
  import opened Wrappers
  import opened PlaylistModels
  import Accounts
  import Songs

  const SongMissing := "Song does not exist"
  const NotInPlaylist := "Song is not in this playlist"

  /** Why an add request fails: a field error (answered with 400) or the
      database refusing a negative `order` (an uncaught error). */
  datatype AddError = Invalid(message: string) | IntegrityError

  /** A notification task handed to the queue: the playlist and the text. */
  datatype Notice = Notice(playlist: int, message: string)

  /** `AddSongToPlaylistSerializer.validate_song_id`. */
  function ValidateSongExists(catalog: map<int, Songs.SongRow>, songId: int): (r: Result<int, string>)
    ensures r.Ok? <==> songId in catalog
    ensures r.Ok? ==> r.value == songId
    ensures r.Err? ==> r.error == SongMissing
  {
    if songId in catalog then Ok(songId) else Err(SongMissing)
  }

  /** `RemoveSongFromPlaylistSerializer.validate_song_id`. */
  function ValidateMember(rows: seq<Membership>, playlist: int, songId: int): (r: Result<int, string>)
    ensures r.Ok? <==> HasRow(rows, playlist, songId)
    ensures r.Ok? ==> r.value == songId
    ensures r.Err? ==> r.error == NotInPlaylist
  {
    if HasRow(rows, playlist, songId) then Ok(songId) else Err(NotInPlaylist)
  }

  /** The rows after `get_or_create`, and whether a row was created. */
  datatype Outcome = Outcome(rows: seq<Membership>, created: bool)

  /** `get_or_create` on (playlist, song): an existing row is left as it is,
      its order included; otherwise a row with the given order is
      appended. */
  function GetOrCreate(rows: seq<Membership>, playlist: int, song: int, order: int, now: int): (r: Outcome)
    ensures r.created <==> !HasRow(rows, playlist, song)
    ensures !r.created ==> r.rows == rows
    ensures r.created ==> r.rows == rows + [Membership(playlist, song, order, now)]
    ensures HasRow(r.rows, playlist, song)
  {
    if HasRow(rows, playlist, song) then Outcome(rows, false)
    else
      var m := Membership(playlist, song, order, now);
      assert (rows + [m])[|rows|] == m;
      Outcome(rows + [m], true)
  }

  /** Adding keeps every (playlist, song) pair unique. */
  lemma GetOrCreateKeepsUnique(rows: seq<Membership>, playlist: int, song: int, order: int, now: int)
    requires UniquePairs(rows)
    ensures UniquePairs(GetOrCreate(rows, playlist, song, order, now).rows)
  {
    var r := GetOrCreate(rows, playlist, song, order, now);
    if r.created {
      forall i | 0 <= i < |rows|
        ensures !(rows[i].playlist == playlist && rows[i].song == song)
      {
      }
    }
  }

  /** The playlist's song count grows by one exactly when a row was created. */
  lemma GetOrCreateCount(rows: seq<Membership>, playlist: int, song: int, order: int, now: int)
    ensures var r := GetOrCreate(rows, playlist, song, order, now);
      SongCount(r.rows, playlist) == SongCount(rows, playlist) + (if r.created then 1 else 0)
  {
    var r := GetOrCreate(rows, playlist, song, order, now);
    if r.created {
      SongCountAppend(rows, Membership(playlist, song, order, now), playlist);
    }
  }

  /** Adding the same song a second time creates nothing. */
  lemma GetOrCreateTwice(rows: seq<Membership>, playlist: int, song: int, o1: int, o2: int, t1: int, t2: int)
    ensures var r1 := GetOrCreate(rows, playlist, song, o1, t1);
      GetOrCreate(r1.rows, playlist, song, o2, t2) == Outcome(r1.rows, false)
  {
  }

  /** The text of the update notification. */
  function AddedMessage(songTitle: string, playlistName: string): string {
    "New song '" + songTitle + "' added to playlist '" + playlistName + "'"
  }

  /** `AddSongToPlaylistSerializer`: validates the song id, then
      get-or-creates the row; a new row enqueues an update notification. A
      new row with a negative order is refused by the database. */
  method AddSong(db: PlaylistDatabase, playlist: Playlist, catalog: map<int, Songs.SongRow>,
                 songId: int, order: Option<int>, now: int)
    returns (r: Result<Option<Notice>, AddError>)
    requires db.Valid()
    modifies db
    ensures db.Valid()
    ensures db.playlists == old(db.playlists) && db.nextId == old(db.nextId)
    ensures r.Ok? ==> HasRow(db.rows, playlist.id, songId)
    ensures songId !in catalog ==> r == Err(Invalid(SongMissing)) && db.rows == old(db.rows)
    ensures songId in catalog && HasRow(old(db.rows), playlist.id, songId) ==>
      r == Ok(None) && db.rows == old(db.rows)
    ensures songId in catalog && !HasRow(old(db.rows), playlist.id, songId) && GetOr(order, 0) < 0 ==>
      r == Err(IntegrityError) && db.rows == old(db.rows)
    ensures songId in catalog && !HasRow(old(db.rows), playlist.id, songId) && GetOr(order, 0) >= 0 ==>
      r == Ok(Some(Notice(playlist.id, AddedMessage(catalog[songId].title, playlist.name))))
      && db.rows == old(db.rows) + [Membership(playlist.id, songId, GetOr(order, 0), now)]
  {
    var valid := ValidateSongExists(catalog, songId);
    if valid.Err? {
      return Err(Invalid(valid.error));
    }
    var o := GetOr(order, 0);
    var outcome := GetOrCreate(db.rows, playlist.id, songId, o, now);
    if !outcome.created {
      return Ok(None);
    }
    if o < 0 {
      return Err(IntegrityError);
    }
    GetOrCreateKeepsUnique(db.rows, playlist.id, songId, o, now);
    db.rows := outcome.rows;
    r := Ok(Some(Notice(playlist.id, AddedMessage(catalog[songId].title, playlist.name))));
  }

  /** `PlaylistSerializer.create` with `perform_create`: the creator is the
      requesting user whatever the client sent, `is_public` is not taken
      from the client, and the id is the next free one. */
  method CreatePlaylist(db: PlaylistDatabase, user: Accounts.User, name: string, description: Option<string>, now: int)
    returns (p: Playlist)
    requires db.Valid()
    modifies db
    ensures db.Valid()
    ensures p == NewPlaylist(old(db.nextId), name, description, user, now)
    ensures db.playlists == old(db.playlists) + [p] && db.rows == old(db.rows)
    ensures db.nextId == old(db.nextId) + 1
  {
    p := NewPlaylist(db.nextId, name, description, user, now);
    db.playlists := db.playlists + [p];
    db.nextId := db.nextId + 1;
  }
}
