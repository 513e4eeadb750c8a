/** The dashboard statistics endpoint: table totals, today's plays, the five
    latest plays, the five playlists with most songs, the genre breakdown and
    the merged "recent activity" feed. Timestamps are whole seconds, so the
    ISO strings the endpoint sorts on order the same way as these numbers. */
module Dashboard {
  import opened Ranking
  import PlayLogModels
  import PlayLogViews
  import PlaylistModels
  import Songs

  const DaySeconds := 24 * 60 * 60

  /** The plays whose date (day number) is `day`. */
  function CountOnDay(logs: seq<PlayLogModels.PlayLog>, day: int): (c: nat)
    ensures c <= |logs|
    ensures c == 0 <==> forall i :: 0 <= i < |logs| ==> logs[i].playedAt / DaySeconds != day
  {
    if logs == [] then 0
    else
      var rest := CountOnDay(logs[1..], day);
      assert forall i :: 1 <= i < |logs| ==> logs[i] == logs[1..][i - 1];
      (if logs[0].playedAt / DaySeconds == day then 1 else 0) + rest
  }

  datatype PlayRow = PlayRow(songTitle: string, songArtist: string)

  /** Each play with its song's title and artist, keyed by play time. */
  function PlayEntries(logs: seq<PlayLogModels.PlayLog>, catalog: map<int, Songs.SongRow>): (r: seq<(PlayRow, int)>)
    requires PlayLogViews.SongsKnown(logs, catalog)
    ensures |r| == |logs|
    ensures forall i :: 0 <= i < |logs| ==>
      r[i] == (PlayRow(catalog[logs[i].song].title, catalog[logs[i].song].artist), logs[i].playedAt)
  {
    if logs == [] then []
    else [(PlayRow(catalog[logs[0].song].title, catalog[logs[0].song].artist), logs[0].playedAt)]
         + PlayEntries(logs[1..], catalog)
  }

  /** `recent_plays`: the five latest plays, latest first. */
  function RecentPlays(logs: seq<PlayLogModels.PlayLog>, catalog: map<int, Songs.SongRow>): (r: seq<(PlayRow, int)>)
    requires PlayLogViews.SongsKnown(logs, catalog)
    ensures |r| == if |logs| < 5 then |logs| else 5
    ensures SortedDesc(r)
    ensures multiset(r) <= multiset(PlayEntries(logs, catalog))
    ensures forall x, i :: x in multiset(PlayEntries(logs, catalog)) - multiset(r) && 0 <= i < |r| ==> x.1 <= r[i].1
  {
    TopBy(PlayEntries(logs, catalog), 5)
  }

  /** Each playlist's name keyed by its number of songs. */
  function SongCounts(playlists: seq<PlaylistModels.Playlist>, rows: seq<PlaylistModels.Membership>): (r: seq<(string, int)>)
    ensures |r| == |playlists|
    ensures forall i :: 0 <= i < |playlists| ==>
      r[i] == (playlists[i].name, PlaylistModels.SongCount(rows, playlists[i].id))
  {
    if playlists == [] then []
    else [(playlists[0].name, PlaylistModels.SongCount(rows, playlists[0].id))] + SongCounts(playlists[1..], rows)
  }

  /** `top_playlists`: at most five playlists, those with most songs, most
      songs first. */
  function TopPlaylists(playlists: seq<PlaylistModels.Playlist>, rows: seq<PlaylistModels.Membership>): (r: seq<(string, int)>)
    ensures |r| <= 5 && |r| <= |playlists|
    ensures |r| == if |playlists| < 5 then |playlists| else 5
    ensures SortedDesc(r)
    ensures multiset(r) <= multiset(SongCounts(playlists, rows))
    ensures forall x, i :: x in multiset(SongCounts(playlists, rows)) - multiset(r) && 0 <= i < |r| ==> x.1 <= r[i].1
  {
    TopBy(SongCounts(playlists, rows), 5)
  }

  function Genres(songs: seq<Songs.SongRow>): (g: seq<string>)
    ensures |g| == |songs|
    ensures forall i :: 0 <= i < |songs| ==> g[i] == songs[i].genre
  {
    if songs == [] then [] else [songs[0].genre] + Genres(songs[1..])
  }

  /** `genre_stats`: one entry per genre in use with its number of songs,
      most used first (the share of all songs is that count over the total);
      nothing at all when there are no songs. */
  function GenreStats(songs: seq<Songs.SongRow>): (r: seq<(string, int)>)
    ensures r == [] <==> songs == []
    ensures SortedDesc(r)
    ensures forall i :: 0 <= i < |r| ==> r[i].0 in Genres(songs) && r[i].1 == multiset(Genres(songs))[r[i].0]
    ensures forall s :: s in songs ==> exists i :: 0 <= i < |r| && r[i].0 == s.genre
    ensures forall i, j :: 0 <= i < j < |r| ==> r[i].0 != r[j].0
    ensures |r| == |(set s | s in songs :: s.genre)|
  {
    GenresCover(songs);
    if songs == [] then [] else Ranked(Genres(songs))
  }

  lemma GenresCover(songs: seq<Songs.SongRow>)
    ensures forall s :: s in songs ==> s.genre in Genres(songs)
    ensures (set g | g in Genres(songs)) == (set s | s in songs :: s.genre)
  {
    forall s | s in songs ensures s.genre in Genres(songs) {
      var k :| 0 <= k < |songs| && songs[k] == s;
      assert Genres(songs)[k] == s.genre;
    }
    forall g | g in Genres(songs) ensures g in (set s | s in songs :: s.genre) {
      var k :| 0 <= k < |songs| && Genres(songs)[k] == g;
      assert songs[k] in songs;
    }
  }

  datatype ActivityKind = Play | PlaylistCreated | UserJoined

  datatype Activity = Activity(kind: ActivityKind, title: string, description: string)

  function PlayActivity(p: PlayRow): Activity {
    Activity(Play, "Song played", p.songTitle + " by " + p.songArtist)
  }

  function PlaylistActivity(name: string): Activity {
    Activity(PlaylistCreated, "Playlist created", name)
  }

  function UserActivity(username: string): Activity {
    Activity(UserJoined, "New user joined", username)
  }

  /** The activity entries `describe` makes of `s`, in order, each keeping
      its timestamp. */
  function Describe<T>(s: seq<(T, int)>, describe: T -> Activity): (r: seq<(Activity, int)>)
    ensures |r| == |s|
    ensures forall i :: 0 <= i < |s| ==> r[i] == (describe(s[i].0), s[i].1)
  {
    if s == [] then [] else Describe(s[..|s| - 1], describe) + [(describe(s[|s| - 1].0), s[|s| - 1].1)]
  }

  lemma DescribeNext<T>(s: seq<(T, int)>, i: nat, describe: T -> Activity)
    requires i < |s|
    ensures Describe(s[..i + 1], describe) == Describe(s[..i], describe) + [(describe(s[i].0), s[i].1)]
  {
    assert s[..i + 1][..i] == s[..i];
  }

  /** The feed before sorting: the first three recent plays, then the given
      playlists, then the given users. */
  function Merged(plays: seq<(PlayRow, int)>, playlists: seq<(string, int)>, users: seq<(string, int)>): seq<(Activity, int)> {
    Describe(Take(plays, 3), PlayActivity) + Describe(playlists, PlaylistActivity) + Describe(users, UserActivity)
  }

  /** `recent_activity`: gathers the feed, ranks it latest first and keeps
      five entries. */
  method RecentActivity(plays: seq<(PlayRow, int)>, playlists: seq<(string, int)>, users: seq<(string, int)>)
    returns (activity: seq<(Activity, int)>)
    ensures activity == Take(SortDesc(Merged(plays, playlists, users)), 5)
    ensures |activity| <= 5 && SortedDesc(activity)
    ensures multiset(activity) <= multiset(Merged(plays, playlists, users))
  {
    activity := Gather(plays, playlists, users);
    var ranked := SortDesc(activity);
    TakeSortedDesc(ranked, 5);
    LeftOutBelow(ranked, Take(ranked, 5));
    activity := Take(ranked, 5);
  }

  /** The three loops appending the first three plays, then the playlists,
      then the users. */
  method Gather(plays: seq<(PlayRow, int)>, playlists: seq<(string, int)>, users: seq<(string, int)>)
    returns (activity: seq<(Activity, int)>)
    ensures activity == Merged(plays, playlists, users)
  {
    activity := AppendActivities([], Take(plays, 3), PlayActivity);
    activity := AppendActivities(activity, playlists, PlaylistActivity);
    activity := AppendActivities(activity, users, UserActivity);
  }

  /** One of those loops: appends an activity for each item, in order. */
  method AppendActivities<T>(before: seq<(Activity, int)>, s: seq<(T, int)>, describe: T -> Activity)
    returns (activity: seq<(Activity, int)>)
    ensures activity == before + Describe(s, describe)
  {
    activity := before;
    assert s[..0] == [];
    for i := 0 to |s|
      invariant activity == before + Describe(s[..i], describe)
    {
      DescribeNext(s, i, describe);
      activity := activity + [(describe(s[i].0), s[i].1)];
    }
    assert s[..|s|] == s;
  }

  /** Entries of one kind in a feed. */
  function CountKind(s: seq<(Activity, int)>, k: ActivityKind): (c: nat)
    ensures c <= |s|
  {
    if s == [] then 0 else CountKind(s[..|s| - 1], k) + (if s[|s| - 1].0.kind == k then 1 else 0)
  }

  lemma {:induction false} CountKindAppend(a: seq<(Activity, int)>, b: seq<(Activity, int)>, k: ActivityKind)
    ensures CountKind(a + b, k) == CountKind(a, k) + CountKind(b, k)
  {
    if b == [] {
      assert a + b == a;
    } else {
      assert (a + b)[..|a + b| - 1] == a + b[..|b| - 1];
      CountKindAppend(a, b[..|b| - 1], k);
    }
  }

  /** Describing entries with a function of fixed kind `k` yields only
      entries of kind `k`. */
  lemma {:induction false} CountOfKind<T>(s: seq<(T, int)>, describe: T -> Activity, k: ActivityKind)
    requires forall x :: describe(x).kind == k
    ensures CountKind(Describe(s, describe), k) == |s|
  {
    if s != [] {
      CountOfKind(s[..|s| - 1], describe, k);
      assert Describe(s, describe)[..|s| - 1] == Describe(s[..|s| - 1], describe);
    }
  }

  /** ... and none of any other kind. */
  lemma {:induction false} CountOfOtherKind<T>(s: seq<(T, int)>, describe: T -> Activity, k: ActivityKind)
    requires forall x :: describe(x).kind != k
    ensures CountKind(Describe(s, describe), k) == 0
  {
    if s != [] {
      CountOfOtherKind(s[..|s| - 1], describe, k);
      assert Describe(s, describe)[..|s| - 1] == Describe(s[..|s| - 1], describe);
    }
  }

  /** Counts each kind in the three parts of the feed. */
  lemma CountParts(plays: seq<(PlayRow, int)>, playlists: seq<(string, int)>, users: seq<(string, int)>, k: ActivityKind)
    ensures CountKind(Merged(plays, playlists, users), k)
      == CountKind(Describe(Take(plays, 3), PlayActivity), k)
       + CountKind(Describe(playlists, PlaylistActivity), k)
       + CountKind(Describe(users, UserActivity), k)
  {
    var a := Describe(Take(plays, 3), PlayActivity);
    var b := Describe(playlists, PlaylistActivity);
    CountKindAppend(a + b, Describe(users, UserActivity), k);
    CountKindAppend(a, b, k);
  }

  /** Before truncation the feed holds at most three plays, one entry per
      given playlist and one per given user. */
  lemma MergedKinds(plays: seq<(PlayRow, int)>, playlists: seq<(string, int)>, users: seq<(string, int)>)
    ensures CountKind(Merged(plays, playlists, users), Play) <= 3
    ensures CountKind(Merged(plays, playlists, users), PlaylistCreated) == |playlists|
    ensures CountKind(Merged(plays, playlists, users), UserJoined) == |users|
  {
    CountParts(plays, playlists, users, Play);
    CountParts(plays, playlists, users, PlaylistCreated);
    CountParts(plays, playlists, users, UserJoined);
    CountOfKind(Take(plays, 3), PlayActivity, Play);
    CountOfOtherKind(playlists, PlaylistActivity, Play);
    CountOfOtherKind(users, UserActivity, Play);
    CountOfOtherKind(Take(plays, 3), PlayActivity, PlaylistCreated);
    CountOfKind(playlists, PlaylistActivity, PlaylistCreated);
    CountOfOtherKind(users, UserActivity, PlaylistCreated);
    CountOfOtherKind(Take(plays, 3), PlayActivity, UserJoined);
    CountOfOtherKind(playlists, PlaylistActivity, UserJoined);
    CountOfKind(users, UserActivity, UserJoined);
  }

  datatype Stats = Stats(
    totalSongs: nat,
    totalPlaylists: nat,
    totalUsers: nat,
    playsToday: nat,
    recentPlays: seq<(PlayRow, int)>,
    topPlaylists: seq<(string, int)>,
    genreStats: seq<(string, int)>,
    recentActivity: seq<(Activity, int)>)

  /** Each playlist's name keyed by its creation time. */
  function Creations(playlists: seq<PlaylistModels.Playlist>): (r: seq<(string, int)>)
    ensures |r| == |playlists|
    ensures forall i :: 0 <= i < |playlists| ==> r[i] == (playlists[i].name, playlists[i].createdAt)
  {
    if playlists == [] then [] else [(playlists[0].name, playlists[0].createdAt)] + Creations(playlists[1..])
  }

  /** The dashboard merges at most three plays, two playlists and one user
      before sorting. */
  lemma DashboardActivityKinds(plays: seq<(PlayRow, int)>, playlists: seq<PlaylistModels.Playlist>,
                               users: seq<(string, int)>)
    ensures var m := Merged(plays, TopBy(Creations(playlists), 2), TopBy(users, 1));
      CountKind(m, Play) <= 3 && CountKind(m, PlaylistCreated) <= 2 && CountKind(m, UserJoined) <= 1
  {
    MergedKinds(plays, TopBy(Creations(playlists), 2), TopBy(users, 1));
  }

  /** `dashboard_stats`. The users are given as (username, date joined). */
  method DashboardStats(songs: seq<Songs.SongRow>, playlists: seq<PlaylistModels.Playlist>,
                        rows: seq<PlaylistModels.Membership>, users: seq<(string, int)>,
                        logs: seq<PlayLogModels.PlayLog>, catalog: map<int, Songs.SongRow>, now: int)
    returns (s: Stats)
    requires PlayLogViews.SongsKnown(logs, catalog)
    ensures s.totalSongs == |songs| && s.totalPlaylists == |playlists| && s.totalUsers == |users|
    ensures s.playsToday == CountOnDay(logs, now / DaySeconds)
    ensures s.recentPlays == RecentPlays(logs, catalog)
    ensures s.topPlaylists == TopPlaylists(playlists, rows)
    ensures s.genreStats == GenreStats(songs)
    ensures s.recentActivity ==
      Take(SortDesc(Merged(RecentPlays(logs, catalog), TopBy(Creations(playlists), 2), TopBy(users, 1))), 5)
    ensures |s.recentActivity| <= 5 && SortedDesc(s.recentActivity)
  {
    var recent := RecentPlays(logs, catalog);
    var activity := RecentActivity(recent, TopBy(Creations(playlists), 2), TopBy(users, 1));
    s := Stats(|songs|, |playlists|, |users|, CountOnDay(logs, now / DaySeconds), recent,
               TopPlaylists(playlists, rows), GenreStats(songs), activity);
  }
}
