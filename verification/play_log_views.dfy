/** The play-log endpoints: which logs a user sees, the serializer chosen per
    action, logging a play, and the personal and global statistics. */
module PlayLogViews {
  import opened Wrappers
  import opened Http
  import opened PlayLogModels
  import opened PlayLogSerializers
  import opened Ranking
  import Accounts
  import Songs

  /** `get_queryset`: admins see every log, others their own. */
  function Queryset(logs: seq<PlayLog>, user: Accounts.User): (r: seq<PlayLog>)
    ensures Accounts.IsAdmin(user) ==> r == logs
    ensures forall l :: l in r <==> l in logs && (Accounts.IsAdmin(user) || l.user == user.id)
  {
    if Accounts.IsAdmin(user) then logs else Own(logs, user.id)
  }

  /** The logs of one user, in table order. */
  function Own(logs: seq<PlayLog>, user: int): (r: seq<PlayLog>)
    ensures |r| <= |logs|
    ensures forall i :: 0 <= i < |r| ==> r[i].user == user
    ensures forall l :: l in r <==> l in logs && l.user == user
  {
    if logs == [] then []
    else if logs[0].user == user then [logs[0]] + Own(logs[1..], user)
    else Own(logs[1..], user)
  }

  datatype ViewAction = CreateLog | ListLogs | RetrieveLog | UpdateLog | DestroyLog | MyStatsAction | GlobalStatsAction

  datatype SerializerKind = CreateSerializer | ListSerializer | FullSerializer

  /** `get_serializer_class`. */
  function SerializerFor(a: ViewAction): (k: SerializerKind)
    ensures k == CreateSerializer <==> a == CreateLog
    ensures k == ListSerializer <==> a == ListLogs
    ensures k == FullSerializer <==> a != CreateLog && a != ListLogs
  {
    if a == CreateLog then CreateSerializer
    else if a == ListLogs then ListSerializer
    else FullSerializer
  }

  /** `create`: 201 with the new log's id and play time, or 400 with
      nothing stored. */
  method CreateView(t: PlayLogTable, requester: int, payload: Payload, meta: Meta, songs: set<int>, now: int)
    returns (status: int, created: Option<(int, int)>)
    modifies t
    ensures ValidateSong(payload, songs).Err? ==>
      status == StatusBadRequest && created.None? && t.rows == old(t.rows) && t.nextId == old(t.nextId)
    ensures ValidateSong(payload, songs).Ok? ==>
      status == StatusCreated && created == Some((old(t.nextId), now))
      && t.rows == old(t.rows) + [PlayLog(old(t.nextId), requester, ValidateSong(payload, songs).value, now,
                                          ClientIp(meta), Some(UserAgent(meta)))]
  {
    var valid := ValidateSong(payload, songs);
    if valid.Err? {
      return StatusBadRequest, None;
    }
    var log := Create(t, requester, valid.value, meta, now);
    status, created := StatusCreated, Some((log.id, log.playedAt));
  }

  /** Seven days, in the seconds the play times are counted in. */
  const Week := 7 * 24 * 60 * 60

  /** The logs played at or after `since`. */
  function CountSince(logs: seq<PlayLog>, since: int): (c: nat)
    ensures c <= |logs|
    ensures c == 0 <==> forall i :: 0 <= i < |logs| ==> logs[i].playedAt < since
    ensures c == |logs| <==> forall i :: 0 <= i < |logs| ==> logs[i].playedAt >= since
  {
    if logs == [] then 0
    else (if logs[0].playedAt >= since then 1 else 0) + CountSince(logs[1..], since)
  }

  /** Every log points at an existing song (the foreign key). */
  predicate SongsKnown(logs: seq<PlayLog>, catalog: map<int, Songs.SongRow>) {
    forall i :: 0 <= i < |logs| ==> logs[i].song in catalog
  }

  /** The (title, artist) of each log's song. */
  function SongKeys(logs: seq<PlayLog>, catalog: map<int, Songs.SongRow>): (keys: seq<(string, string)>)
    requires SongsKnown(logs, catalog)
    ensures |keys| == |logs|
    ensures forall i :: 0 <= i < |logs| ==> keys[i] == (catalog[logs[i].song].title, catalog[logs[i].song].artist)
  {
    if logs == [] then []
    else [(catalog[logs[0].song].title, catalog[logs[0].song].artist)] + SongKeys(logs[1..], catalog)
  }

  /** The genre of each log's song. */
  function GenreKeys(logs: seq<PlayLog>, catalog: map<int, Songs.SongRow>): (keys: seq<string>)
    requires SongsKnown(logs, catalog)
    ensures |keys| == |logs|
    ensures forall i :: 0 <= i < |logs| ==> keys[i] == catalog[logs[i].song].genre
  {
    if logs == [] then [] else [catalog[logs[0].song].genre] + GenreKeys(logs[1..], catalog)
  }

  lemma OwnSongsKnown(logs: seq<PlayLog>, user: int, catalog: map<int, Songs.SongRow>)
    requires SongsKnown(logs, catalog)
    ensures SongsKnown(Own(logs, user), catalog)
  {
    var own := Own(logs, user);
    forall i | 0 <= i < |own| ensures own[i].song in catalog {
      assert own[i] in logs;
    }
  }

  datatype MyStats = MyStats(
    totalPlays: nat,
    weeklyPlays: nat,
    mostPlayedSongs: seq<((string, string), int)>,
    genrePreferences: seq<(string, int)>)

  /** `my_stats`: the requester's own plays only; the ten most played
      (title, artist) pairs and five most played genres, each with its play
      count, most played first. */
  function MyStatsOf(logs: seq<PlayLog>, user: int, catalog: map<int, Songs.SongRow>, now: int): (s: MyStats)
    requires SongsKnown(logs, catalog)
    ensures s.totalPlays == |Own(logs, user)|
    ensures s.weeklyPlays <= s.totalPlays
    ensures s.weeklyPlays == CountSince(Own(logs, user), now - Week)
    ensures |s.mostPlayedSongs| <= 10 && SortedDesc(s.mostPlayedSongs)
    ensures |s.genrePreferences| <= 5 && SortedDesc(s.genrePreferences)
    ensures SongsKnown(Own(logs, user), catalog)
    ensures forall i :: 0 <= i < |s.mostPlayedSongs| ==>
      s.mostPlayedSongs[i].1 == multiset(SongKeys(Own(logs, user), catalog))[s.mostPlayedSongs[i].0]
    ensures forall i :: 0 <= i < |s.genrePreferences| ==>
      s.genrePreferences[i].1 == multiset(GenreKeys(Own(logs, user), catalog))[s.genrePreferences[i].0]
    ensures TopOf(SongKeys(Own(logs, user), catalog), 10, s.mostPlayedSongs)
    ensures TopOf(GenreKeys(Own(logs, user), catalog), 5, s.genrePreferences)
  {
    var own := Own(logs, user);
    OwnSongsKnown(logs, user, catalog);
    TopCountsTop(SongKeys(own, catalog), 10);
    TopCountsTop(GenreKeys(own, catalog), 5);
    MyStats(|own|, CountSince(own, now - Week),
            TopCounts(SongKeys(own, catalog), 10), TopCounts(GenreKeys(own, catalog), 5))
  }

  datatype GlobalStats = GlobalStats(
    totalPlays: nat,
    uniqueUsers: nat,
    mostPlayedSongs: seq<((string, string), int)>,
    mostActiveUsers: seq<(string, int)>)

  /** Every log's user is in the user table (the foreign key). */
  predicate UsersKnown(logs: seq<PlayLog>, users: map<int, Accounts.User>) {
    forall i :: 0 <= i < |logs| ==> logs[i].user in users
  }

  function UserIds(logs: seq<PlayLog>): (ids: seq<int>)
    ensures |ids| == |logs|
    ensures forall i :: 0 <= i < |logs| ==> ids[i] == logs[i].user
  {
    if logs == [] then [] else [logs[0].user] + UserIds(logs[1..])
  }

  function UserNames(logs: seq<PlayLog>, users: map<int, Accounts.User>): (names: seq<string>)
    requires UsersKnown(logs, users)
    ensures |names| == |logs|
    ensures forall i :: 0 <= i < |logs| ==> names[i] == users[logs[i].user].username
  {
    if logs == [] then [] else [users[logs[0].user].username] + UserNames(logs[1..], users)
  }

  /** `global_stats`: 403 for anyone but an admin; otherwise the total, the
      number of distinct users, the twenty most played songs and the ten
      most active user names. */
  function GlobalStatsOf(requester: Accounts.User, logs: seq<PlayLog>, catalog: map<int, Songs.SongRow>,
                         users: map<int, Accounts.User>): (r: Result<GlobalStats, int>)
    requires SongsKnown(logs, catalog) && UsersKnown(logs, users)
    ensures r.Err? <==> !Accounts.IsAdmin(requester)
    ensures r.Err? ==> r.error == StatusForbidden
    ensures r.Ok? ==>
      r.value.totalPlays == |logs| && r.value.uniqueUsers <= r.value.totalPlays
      && |r.value.mostPlayedSongs| <= 20 && SortedDesc(r.value.mostPlayedSongs)
      && |r.value.mostActiveUsers| <= 10 && SortedDesc(r.value.mostActiveUsers)
    ensures r.Ok? ==> r.value.uniqueUsers == |(set l | l in logs :: l.user)|
    ensures r.Ok? ==> TopOf(SongKeys(logs, catalog), 20, r.value.mostPlayedSongs)
    ensures r.Ok? ==> TopOf(UserNames(logs, users), 10, r.value.mostActiveUsers)
  {
    if !Accounts.IsAdmin(requester) then Err(StatusForbidden)
    else
      var ids := UserIds(logs);
      assert (set l | l in logs :: l.user) == (set u | u in ids) by {
        forall u | u in ids ensures u in (set l | l in logs :: l.user) {
          var i :| 0 <= i < |ids| && ids[i] == u;
          assert logs[i] in logs;
        }
      }
      DistinctBound(ids);
      TopCountsTop(SongKeys(logs, catalog), 20);
      TopCountsTop(UserNames(logs, users), 10);
      Ok(GlobalStats(|logs|, |(set u | u in ids)|, TopCounts(SongKeys(logs, catalog), 20), TopCounts(UserNames(logs, users), 10)))
  }
}
