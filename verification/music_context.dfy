/** The React music context: a provider holding two state cells, the current
    song and the playing flag, with their setters and `playSong`. */
module MusicContext {
  import opened Wrappers

  /** The song record of the context (its duration is a number of seconds). */
  datatype Song = Song(id: int, title: string, artist: string, fileUrl: Option<string>, duration: Option<int>)

  const NoProvider := "useMusic must be used within a MusicProvider"

  class MusicProvider {
    var currentSong: Option<Song>
    var isPlaying: bool

    /** The provider mounts with no song and not playing. */
    constructor ()
      ensures currentSong.None? && !isPlaying
    {
      currentSong := None;
      isPlaying := false;
    }

    /** `setCurrentSong`: only the song cell changes. */
    method SetCurrentSong(song: Song)
      modifies this
      ensures currentSong == Some(song) && isPlaying == old(isPlaying)
    {
      currentSong := Some(song);
    }

    /** `setIsPlaying`: only the flag cell changes. */
    method SetIsPlaying(playing: bool)
      modifies this
      ensures isPlaying == playing && currentSong == old(currentSong)
    {
      isPlaying := playing;
    }

    /** `playSong`: sets the song, then the flag. */
    method PlaySong(song: Song)
      modifies this
      ensures currentSong == Some(song) && isPlaying
    {
      SetCurrentSong(song);
      SetIsPlaying(true);
    }
  }

  /** `useMusic`: the surrounding provider, or an error outside of one. */
  function UseMusic(context: Option<MusicProvider>): (r: Result<MusicProvider, string>)
    ensures context.None? ==> r == Err(NoProvider)
    ensures context.Some? ==> r == Ok(context.value)
  {
    match context
    case None => Err(NoProvider)
    case Some(p) => Ok(p)
  }
}
