/** The edit-playlist dialog: its form state, the selection loaded when it
    opens, `toggleSongSelection`, and `handleSubmit`, which updates the
    metadata and then issues every add before every remove. */
module EditPlaylist {
  import opened Wrappers
  import opened PlaylistSelection

  class EditPlaylistDialog {
    const playlist: PlaylistData
    var isOpen: bool
    var name: string
    var description: string
    var selectedSongs: seq<int>

    /** The dialog starts closed with the playlist's name and description and
        an empty selection. */
    constructor (playlist: PlaylistData)
      ensures this.playlist == playlist && !isOpen
      ensures name == playlist.name && description == GetOr(playlist.description, "")
      ensures selectedSongs == []
    {
      this.playlist := playlist;
      isOpen := false;
      name := playlist.name;
      description := GetOr(playlist.description, "");
      selectedSongs := [];
    }

    /** Opening the dialog runs the effect that reloads the form and sets the
        selection to the playlist's song ids ([] when it carries none). */
    method Open()
      modifies this
      ensures isOpen
      ensures name == playlist.name && description == GetOr(playlist.description, "")
      ensures selectedSongs == SongIds(playlist.songs)
    {
      isOpen := true;
      name := playlist.name;
      description := GetOr(playlist.description, "");
      selectedSongs := SongIds(playlist.songs);
    }

    method ToggleSongSelection(songId: int)
      modifies this
      ensures selectedSongs == Toggle(old(selectedSongs), songId)
      ensures isOpen == old(isOpen) && name == old(name) && description == old(description)
    {
      selectedSongs := Toggle(selectedSongs, songId);
    }

    /** `handleSubmit`: sends the metadata update; when it succeeds, issues the
        planned adds and removes in order, stopping at the first failure; the
        dialog closes only when every request succeeded. `metadataOk` and
        `ok` are the server's answers. */
    method HandleSubmit(metadataOk: bool, ok: nat -> bool) returns (update: MetadataUpdate, issued: seq<Call>)
      modifies this
      ensures update == MetadataUpdate(playlist.id, old(name), old(description))
      ensures !metadataOk ==> issued == []
      ensures issued <= Plan(playlist.id, SongIds(playlist.songs), old(selectedSongs))
      ensures !isOpen <==>
        (metadataOk && issued == Plan(playlist.id, SongIds(playlist.songs), old(selectedSongs))
         && AllAccepted(issued, ok)) || !old(isOpen)
      ensures name == old(name) && description == old(description) && selectedSongs == old(selectedSongs)
    {
      update := MetadataUpdate(playlist.id, name, description);
      if !metadataOk {
        return update, [];
      }
      var plan := Plan(playlist.id, SongIds(playlist.songs), selectedSongs);
      var allOk;
      issued, allOk := IssueInOrder(plan, ok);
      if allOk {
        isOpen := false;
      }
    }
  }
}
