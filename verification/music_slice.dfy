/** The client playback queue: the Redux slice `music` with its reducers.
    The store object is `MusicStore`; each reducer is a method that assigns
    the fields of the draft state in place, specified by a function on
    `PlayerState` snapshots about which the lemmas below speak. */
module MusicSlice {
  import opened Wrappers

  /** The song record the player slice stores. */
  datatype Song = Song(id: int, title: string, artist: string, duration: Option<string>, fileUrl: Option<string>)

  /** A snapshot of the slice's five fields. */
  datatype PlayerState = PlayerState(
    currentSong: Option<Song>,
    isPlaying: bool,
    isPlayerVisible: bool,
    queue: seq<Song>,
    currentIndex: int)

  /** `initialState`: no song, not playing, hidden, empty queue, cursor 0. */
  const Initial := PlayerState(None, false, false, [], 0)

  /** JavaScript array indexing: out-of-range positions read as `undefined`. */
  function At(q: seq<Song>, i: int): (r: Option<Song>)
    ensures r.Some? <==> 0 <= i < |q|
    ensures r.Some? ==> r.value == q[i]
  {
    if 0 <= i < |q| then Some(q[i]) else None
  }

  /** The cursor lies inside the queue, or is 0 when the queue is empty; so it
      never exceeds max(0, |queue| - 1) and never goes below 0. */
  predicate CursorInBounds(s: PlayerState) {
    0 <= s.currentIndex && (s.currentIndex == 0 || s.currentIndex < |s.queue|)
  }

  /** `playSong`: the song becomes current, playing and visible; queue and
      cursor are not touched. */
  function Played(s: PlayerState, song: Song): (r: PlayerState)
    ensures r.currentSong == Some(song) && r.isPlaying && r.isPlayerVisible
    ensures r.queue == s.queue && r.currentIndex == s.currentIndex
  {
    s.(currentSong := Some(song), isPlaying := true, isPlayerVisible := true)
  }

  /** `pauseSong`: only the playing flag changes. */
  function Paused(s: PlayerState): (r: PlayerState)
    ensures !r.isPlaying && r == s.(isPlaying := r.isPlaying)
  {
    s.(isPlaying := false)
  }

  /** `resumeSong`: only the playing flag changes, with no check that a song
      is loaded. */
  function Resumed(s: PlayerState): (r: PlayerState)
    ensures r.isPlaying && r == s.(isPlaying := r.isPlaying)
  {
    s.(isPlaying := true)
  }

  /** `stopSong`: no song, not playing, hidden; queue and cursor are kept. */
  function Stopped(s: PlayerState): (r: PlayerState)
    ensures r.currentSong.None? && !r.isPlaying && !r.isPlayerVisible
    ensures r.queue == s.queue && r.currentIndex == s.currentIndex
  {
    s.(currentSong := None, isPlaying := false, isPlayerVisible := false)
  }

  /** `setPlayerVisible`: only the visibility changes. */
  function WithVisibility(s: PlayerState, visible: bool): (r: PlayerState)
    ensures r.isPlayerVisible == visible && r == s.(isPlayerVisible := r.isPlayerVisible)
  {
    s.(isPlayerVisible := visible)
  }

  /** `setQueue`: the queue is replaced and the cursor reset to 0; the current
      song and the flags are not touched. */
  function WithQueue(s: PlayerState, songs: seq<Song>): (r: PlayerState)
    ensures r.queue == songs && r.currentIndex == 0
    ensures r.currentSong == s.currentSong && r.isPlaying == s.isPlaying
    ensures r.isPlayerVisible == s.isPlayerVisible
  {
    s.(queue := songs, currentIndex := 0)
  }

  /** `playPlaylist`: an empty payload changes nothing; otherwise the payload
      becomes the queue and its first song plays, visibly, at cursor 0. */
  function PlaylistStarted(s: PlayerState, songs: seq<Song>): (r: PlayerState)
    ensures songs == [] ==> r == s
    ensures songs != [] ==> r == PlayerState(Some(songs[0]), true, true, songs, 0)
  {
    if |songs| > 0 then PlayerState(Some(songs[0]), true, true, songs, 0) else s
  }

  /** `nextSong`: moves one step forward unless the cursor is at the last song
      (or the queue is empty), and then plays the song under the cursor. */
  function Advanced(s: PlayerState): (r: PlayerState)
    ensures s.currentIndex < |s.queue| - 1 ==>
      r == s.(currentIndex := s.currentIndex + 1, currentSong := At(s.queue, s.currentIndex + 1))
    ensures s.currentIndex >= |s.queue| - 1 ==> r == s
  {
    if s.currentIndex < |s.queue| - 1 then
      s.(currentIndex := s.currentIndex + 1, currentSong := At(s.queue, s.currentIndex + 1))
    else s
  }

  /** `previousSong`: moves one step back unless the cursor is at 0. */
  function Rewound(s: PlayerState): (r: PlayerState)
    ensures s.currentIndex > 0 ==>
      r == s.(currentIndex := s.currentIndex - 1, currentSong := At(s.queue, s.currentIndex - 1))
    ensures s.currentIndex <= 0 ==> r == s
  {
    if s.currentIndex > 0 then
      s.(currentIndex := s.currentIndex - 1, currentSong := At(s.queue, s.currentIndex - 1))
    else s
  }

  /** The actions the slice accepts. */
  datatype Action =
    | PlaySong(song: Song)
    | PauseSong
    | ResumeSong
    | StopSong
    | SetPlayerVisible(visible: bool)
    | SetQueue(songs: seq<Song>)
    | PlayPlaylist(songs: seq<Song>)
    | NextSong
    | PreviousSong

  /** The slice's reducer. */
  function Step(s: PlayerState, a: Action): (r: PlayerState)
    ensures r.queue != s.queue ==> a.SetQueue? || a.PlayPlaylist?
    ensures r.currentIndex != s.currentIndex ==> a.SetQueue? || a.PlayPlaylist? || a.NextSong? || a.PreviousSong?
  {
    match a
    case PlaySong(song) => Played(s, song)
    case PauseSong => Paused(s)
    case ResumeSong => Resumed(s)
    case StopSong => Stopped(s)
    case SetPlayerVisible(v) => WithVisibility(s, v)
    case SetQueue(songs) => WithQueue(s, songs)
    case PlayPlaylist(songs) => PlaylistStarted(s, songs)
    case NextSong => Advanced(s)
    case PreviousSong => Rewound(s)
  }

  /** Dispatches the actions in order. */
  function Run(s: PlayerState, actions: seq<Action>): (r: PlayerState)
    ensures (forall i :: 0 <= i < |actions| ==> !actions[i].SetQueue? && !actions[i].PlayPlaylist?) ==>
      r.queue == s.queue
    decreases |actions|
  {
    if actions == [] then s else Run(Step(s, actions[0]), actions[1..])
  }

  /** Dispatching two batches in turn is dispatching them as one. */
  lemma {:induction false} RunConcat(s: PlayerState, first: seq<Action>, second: seq<Action>)
    ensures Run(s, first + second) == Run(Run(s, first), second)
    decreases |first|
  {
    if first == [] {
      assert first + second == second;
    } else {
      assert (first + second)[1..] == first[1..] + second;
      RunConcat(Step(s, first[0]), first[1..], second);
    }
  }

  /** Every reducer keeps the cursor in bounds. */
  lemma StepKeepsCursor(s: PlayerState, a: Action)
    requires CursorInBounds(s)
    ensures CursorInBounds(Step(s, a))
  {
  }

  /** Whatever actions are dispatched from the initial state, the cursor stays
      within [0, max(0, |queue| - 1)]. */
  lemma {:induction false} RunKeepsCursor(s: PlayerState, actions: seq<Action>)
    requires CursorInBounds(s)
    ensures CursorInBounds(Run(s, actions))
    decreases |actions|
  {
    if actions != [] {
      StepKeepsCursor(s, actions[0]);
      RunKeepsCursor(Step(s, actions[0]), actions[1..]);
    }
  }

  /** Reachable states have the cursor in bounds. */
  lemma ReachableCursorInBounds(actions: seq<Action>)
    ensures CursorInBounds(Run(Initial, actions))
  {
    RunKeepsCursor(Initial, actions);
  }

  /** In bounds, the cursor of a state always names a song of a non-empty queue. */
  lemma CursorNamesSong(s: PlayerState)
    requires CursorInBounds(s) && s.queue != []
    ensures At(s.queue, s.currentIndex) == Some(s.queue[s.currentIndex])
  {
  }

  /** `nextSong` then `previousSong` returns to the same cursor and plays the
      song under it. */
  lemma NextThenPrevious(s: PlayerState)
    requires CursorInBounds(s) && s.currentIndex < |s.queue| - 1
    ensures Rewound(Advanced(s)) == s.(currentSong := Some(s.queue[s.currentIndex]))
  {
  }

  /** After `playPlaylist` with at least two songs, `nextSong` then
      `previousSong` restores the state exactly: cursor 0, first song. */
  lemma PlaylistNextPreviousRoundTrip(s: PlayerState, songs: seq<Song>)
    requires |songs| >= 2
    ensures Rewound(Advanced(PlaylistStarted(s, songs))) == PlaylistStarted(s, songs)
    ensures Advanced(PlaylistStarted(s, songs)).currentSong == Some(songs[1])
  {
  }

  /** At the last song, or on an empty queue, `nextSong` is a no-op; at cursor
      0 `previousSong` is a no-op. */
  lemma NavigationStopsAtEnds(s: PlayerState)
    requires CursorInBounds(s)
    ensures s.currentIndex == |s.queue| - 1 || s.queue == [] ==> Advanced(s) == s
    ensures s.currentIndex == 0 ==> Rewound(s) == s
  {
  }

  /** `resumeSong` has no guard: after `stopSong`, it reports playing although
      no song is loaded. */
  lemma ResumeAfterStopPlaysNothing(s: PlayerState)
    ensures Resumed(Stopped(s)).isPlaying && Resumed(Stopped(s)).currentSong.None?
  {
  }

  /** The store object whose fields the reducers assign. */
  class MusicStore {
    var currentSong: Option<Song>
    var isPlaying: bool
    var isPlayerVisible: bool
    var queue: seq<Song>
    var currentIndex: int

    function Snapshot(): PlayerState
      reads this
    {
      PlayerState(currentSong, isPlaying, isPlayerVisible, queue, currentIndex)
    }

    ghost predicate Valid()
      reads this
    {
      CursorInBounds(Snapshot())
    }

    constructor ()
      ensures Snapshot() == Initial && Valid()
    {
      currentSong := None;
      isPlaying := false;
      isPlayerVisible := false;
      queue := [];
      currentIndex := 0;
    }

    method PlaySong(song: Song)
      requires Valid()
      modifies this
      ensures Valid() && Snapshot() == Played(old(Snapshot()), song)
    {
      currentSong := Some(song);
      isPlaying := true;
      isPlayerVisible := true;
    }

    method PauseSong()
      requires Valid()
      modifies this
      ensures Valid() && Snapshot() == Paused(old(Snapshot()))
    {
      isPlaying := false;
    }

    method ResumeSong()
      requires Valid()
      modifies this
      ensures Valid() && Snapshot() == Resumed(old(Snapshot()))
    {
      isPlaying := true;
    }

    method StopSong()
      requires Valid()
      modifies this
      ensures Valid() && Snapshot() == Stopped(old(Snapshot()))
    {
      currentSong := None;
      isPlaying := false;
      isPlayerVisible := false;
    }

    method SetPlayerVisible(visible: bool)
      requires Valid()
      modifies this
      ensures Valid() && Snapshot() == WithVisibility(old(Snapshot()), visible)
    {
      isPlayerVisible := visible;
    }

    method SetQueue(songs: seq<Song>)
      requires Valid()
      modifies this
      ensures Valid() && Snapshot() == WithQueue(old(Snapshot()), songs)
    {
      queue := songs;
      currentIndex := 0;
    }

    method PlayPlaylist(songs: seq<Song>)
      requires Valid()
      modifies this
      ensures Valid() && Snapshot() == PlaylistStarted(old(Snapshot()), songs)
    {
      if |songs| > 0 {
        queue := songs;
        currentIndex := 0;
        currentSong := Some(songs[0]);
        isPlaying := true;
        isPlayerVisible := true;
      }
    }

    method NextSong()
      requires Valid()
      modifies this
      ensures Valid() && Snapshot() == Advanced(old(Snapshot()))
    {
      if currentIndex < |queue| - 1 {
        currentIndex := currentIndex + 1;
        currentSong := Some(queue[currentIndex]);
      }
    }

    method PreviousSong()
      requires Valid()
      modifies this
      ensures Valid() && Snapshot() == Rewound(old(Snapshot()))
    {
      if currentIndex > 0 {
        currentIndex := currentIndex - 1;
        currentSong := Some(queue[currentIndex]);
      }
    }
  }
}
