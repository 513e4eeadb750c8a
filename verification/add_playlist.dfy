/** The create-playlist dialog: `toggleSongSelection` and `handleSubmit`,
    which sends the selection unchanged and resets the form only on success. */
module AddPlaylist {
  import opened PlaylistSelection

  class AddPlaylistDialog {
    var isOpen: bool
    var name: string
    var description: string
    var selectedSongs: seq<int>

    constructor ()
      ensures !isOpen && name == "" && description == "" && selectedSongs == []
    {
      isOpen := false;
      name := "";
      description := "";
      selectedSongs := [];
    }

    method ToggleSongSelection(songId: int)
      modifies this
      ensures selectedSongs == Toggle(old(selectedSongs), songId)
      ensures isOpen == old(isOpen) && name == old(name) && description == old(description)
    {
      selectedSongs := Toggle(selectedSongs, songId);
    }

    /** `handleSubmit`: sends the form and the selection as `song_ids`; on
        success clears the form and the selection and closes the dialog, on
        failure leaves everything as it was. */
    method HandleSubmit(createOk: bool) returns (request: CreateRequest)
      modifies this
      ensures request == CreateRequest(old(name), old(description), old(selectedSongs))
      ensures createOk ==> !isOpen && name == "" && description == "" && selectedSongs == []
      ensures !createOk ==>
        isOpen == old(isOpen) && name == old(name) && description == old(description)
        && selectedSongs == old(selectedSongs)
    {
      request := CreateRequest(name, description, selectedSongs);
      if createOk {
        name, description := "", "";
        selectedSongs := [];
        isOpen := false;
      }
    }
  }
}
