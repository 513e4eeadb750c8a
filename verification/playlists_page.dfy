/** The playlists page: the shared create/edit dialog, the owner-only edit
    and delete actions, and playing a playlist or a song through the player
    store. */
module PlaylistsPage {
  import opened Wrappers
  import opened Decimal
  import opened PlaylistSelection
  import MusicSlice

  /** The request the page's dialog sends first: an update when a playlist is
      being edited, a create otherwise. */
  datatype PageRequest = Update(update: MetadataUpdate) | Create(create: CreateRequest)

  /** A page song in the player's format: `duration?.toString() || ""`, so a
      missing duration becomes the empty string and a present one its
      decimal text. */
  function ToQueueSong(song: Song): (r: MusicSlice.Song)
    ensures r.id == song.id && r.title == song.title && r.artist == song.artist
    ensures r.fileUrl == song.fileUrl
    ensures r.duration.Some?
    ensures song.duration.None? ==> r.duration.value == ""
    ensures song.duration.Some? && song.duration.value >= 0 ==>
      AllDigits(r.duration.value) && ParseNat(r.duration.value) == song.duration.value
  {
    match song.duration
    case None => MusicSlice.Song(song.id, song.title, song.artist, Some(""), song.fileUrl)
    case Some(d) =>
      if d >= 0 then
        ParseNatToString(d);
        MusicSlice.Song(song.id, song.title, song.artist, Some(NatToString(d)), song.fileUrl)
      else
        MusicSlice.Song(song.id, song.title, song.artist, Some(IntToString(d)), song.fileUrl)
  }

  /** The queue `handlePlayPlaylist` builds: one player song per playlist
      song, in the same order. */
  function QueueSongs(songs: seq<Song>): (r: seq<MusicSlice.Song>)
    ensures |r| == |songs|
    ensures forall i :: 0 <= i < |r| ==> r[i] == ToQueueSong(songs[i])
  {
    if songs == [] then [] else [ToQueueSong(songs[0])] + QueueSongs(songs[1..])
  }

  class PlaylistsPageState {
    /** `user?.username || ""`. */
    const currentUser: string
    var isDialogOpen: bool
    var editingPlaylist: Option<PlaylistData>
    var name: string
    var description: string
    var selectedSongs: seq<int>
    var playlistToDelete: Option<PlaylistData>

    constructor (currentUser: string)
      ensures this.currentUser == currentUser
      ensures !isDialogOpen && editingPlaylist == None && playlistToDelete == None
      ensures name == "" && description == "" && selectedSongs == []
    {
      this.currentUser := currentUser;
      isDialogOpen := false;
      editingPlaylist := None;
      name, description := "", "";
      selectedSongs := [];
      playlistToDelete := None;
    }

    /** Only the creator, compared by user name, may edit or delete. */
    predicate CanModify(p: PlaylistData)
      reads this
    {
      p.createdByName == currentUser
    }

    /** The "Create Playlist" trigger clears the playlist being edited and
        opens the dialog; the form and the selection are left as they were. */
    method StartCreate()
      modifies this
      ensures editingPlaylist == None && isDialogOpen
      ensures name == old(name) && description == old(description) && selectedSongs == old(selectedSongs)
      ensures playlistToDelete == old(playlistToDelete)
    {
      editingPlaylist := None;
      isDialogOpen := true;
    }

    /** `handleEdit`: ignored for a playlist the user did not create;
        otherwise loads the playlist into the form and the selection and
        opens the dialog. */
    method HandleEdit(p: PlaylistData)
      modifies this
      ensures !CanModify(p) ==>
        isDialogOpen == old(isDialogOpen) && editingPlaylist == old(editingPlaylist)
        && name == old(name) && description == old(description) && selectedSongs == old(selectedSongs)
      ensures CanModify(p) ==>
        isDialogOpen && editingPlaylist == Some(p)
        && name == p.name && description == GetOr(p.description, "")
        && selectedSongs == SongIds(p.songs)
      ensures playlistToDelete == old(playlistToDelete)
    {
      if p.createdByName != currentUser {
        return;
      }
      editingPlaylist := Some(p);
      name := p.name;
      description := GetOr(p.description, "");
      selectedSongs := SongIds(p.songs);
      isDialogOpen := true;
    }

    method HandleDelete(p: PlaylistData)
      modifies this
      ensures playlistToDelete == Some(p)
      ensures isDialogOpen == old(isDialogOpen) && editingPlaylist == old(editingPlaylist)
      ensures name == old(name) && description == old(description) && selectedSongs == old(selectedSongs)
    {
      playlistToDelete := Some(p);
    }

    /** `confirmDelete`: sends the delete for the pending playlist, if any,
        and clears it. */
    method ConfirmDelete() returns (deleted: Option<int>)
      modifies this
      ensures old(playlistToDelete).None? ==> deleted == None
      ensures old(playlistToDelete).Some? ==> deleted == Some(old(playlistToDelete).value.id)
      ensures playlistToDelete == None
      ensures isDialogOpen == old(isDialogOpen) && editingPlaylist == old(editingPlaylist)
      ensures name == old(name) && description == old(description) && selectedSongs == old(selectedSongs)
    {
      deleted := None;
      if playlistToDelete.Some? {
        deleted := Some(playlistToDelete.value.id);
        playlistToDelete := None;
      }
    }

    method ToggleSongSelection(songId: int)
      modifies this
      ensures selectedSongs == Toggle(old(selectedSongs), songId)
      ensures isDialogOpen == old(isDialogOpen) && editingPlaylist == old(editingPlaylist)
      ensures name == old(name) && description == old(description)
      ensures playlistToDelete == old(playlistToDelete)
    {
      selectedSongs := Toggle(selectedSongs, songId);
    }

    /** `handleSubmit`. When editing: sends the metadata update and then the
        planned adds and removes against the songs the playlist had when the
        edit began; when creating: sends the form with the selection as
        `song_ids`. Only when every request succeeds is the form reset, the
        selection emptied, the edit cleared and the dialog closed; a failure
        leaves the page as it was. `serverOk` answers the first request and
        `ok` the song requests. */
    method HandleSubmit(serverOk: bool, ok: nat -> bool) returns (request: PageRequest, issued: seq<Call>)
      modifies this
      ensures old(editingPlaylist).None? ==>
        request == Create(CreateRequest(old(name), old(description), old(selectedSongs))) && issued == []
      ensures old(editingPlaylist).Some? ==>
        request == Update(MetadataUpdate(old(editingPlaylist).value.id, old(name), old(description)))
        && issued <= Plan(old(editingPlaylist).value.id, SongIds(old(editingPlaylist).value.songs), old(selectedSongs))
      ensures !serverOk ==> issued == []
      ensures
        var succeeded := serverOk && (old(editingPlaylist).None? ||
          (issued == Plan(old(editingPlaylist).value.id, SongIds(old(editingPlaylist).value.songs), old(selectedSongs))
           && AllAccepted(issued, ok)));
        if succeeded then
          name == "" && description == "" && selectedSongs == [] && editingPlaylist == None && !isDialogOpen
        else
          name == old(name) && description == old(description) && selectedSongs == old(selectedSongs)
          && editingPlaylist == old(editingPlaylist) && isDialogOpen == old(isDialogOpen)
      ensures playlistToDelete == old(playlistToDelete)
    {
      var succeeded := serverOk;
      issued := [];
      match editingPlaylist {
        case None =>
          request := Create(CreateRequest(name, description, selectedSongs));
        case Some(p) =>
          request := Update(MetadataUpdate(p.id, name, description));
          if serverOk {
            var plan := Plan(p.id, SongIds(p.songs), selectedSongs);
            issued, succeeded := IssueInOrder(plan, ok);
          }
      }
      if succeeded {
        name, description := "", "";
        selectedSongs := [];
        editingPlaylist := None;
        isDialogOpen := false;
      }
    }

    /** `handlePlayPlaylist`: for a playlist with songs, logs a play of its
        first song and starts the player on the whole list; otherwise does
        nothing. */
    method HandlePlayPlaylist(p: PlaylistData, store: MusicSlice.MusicStore) returns (logged: Option<int>)
      requires store.Valid()
      modifies store
      ensures store.Valid()
      ensures p.songs.Some? && p.songs.value != [] ==>
        logged == Some(p.songs.value[0].id)
        && store.Snapshot() == MusicSlice.PlaylistStarted(old(store.Snapshot()), QueueSongs(p.songs.value))
      ensures !(p.songs.Some? && p.songs.value != []) ==>
        logged == None && store.Snapshot() == old(store.Snapshot())
    {
      logged := None;
      if p.songs.Some? && |p.songs.value| > 0 {
        logged := Some(p.songs.value[0].id);
        store.PlayPlaylist(QueueSongs(p.songs.value));
      }
    }

    /** `handlePlaySong`: logs a play of the song and plays it. */
    method HandlePlaySong(song: Song, store: MusicSlice.MusicStore) returns (logged: int)
      requires store.Valid()
      modifies store
      ensures store.Valid()
      ensures logged == song.id
      ensures store.Snapshot() == MusicSlice.Played(old(store.Snapshot()), ToQueueSong(song))
    {
      logged := song.id;
      store.PlaySong(ToQueueSong(song));
    }
  }

  /** Playing a playlist makes its first song current and playing, with the
      queue holding every song of the playlist in order. */
  lemma PlayPlaylistStartsAtFirstSong(s: MusicSlice.PlayerState, songs: seq<Song>)
    requires songs != []
    ensures var r := MusicSlice.PlaylistStarted(s, QueueSongs(songs));
      r.currentSong == Some(ToQueueSong(songs[0])) && r.isPlaying && r.currentIndex == 0
      && |r.queue| == |songs| && forall i :: 0 <= i < |songs| ==> r.queue[i].id == songs[i].id
  {
  }
}
