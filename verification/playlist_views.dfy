/** The playlist endpoints: which playlists a user sees, the object lookup
    with its 404/403 answers, creating a playlist, and the `add_song`,
    `remove_song` and `songs` actions. */
module PlaylistViews {
  import opened Wrappers
  import opened Http
  import opened PlaylistModels
  import opened PlaylistSerializers
  import Accounts
  import Songs
  import PlaylistPermissions

  /** `get_queryset`: admins see every playlist, others the public ones and
      their own. */
  predicate Visible(user: Accounts.User, p: Playlist)
    ensures Visible(user, p) <==> PlaylistPermissions.HasObjectPermission(user, GET, Access(p))
  {
    Accounts.IsAdmin(user) || p.isPublic || p.createdBy.id == user.id
  }

  function Queryset(playlists: seq<Playlist>, user: Accounts.User): (r: seq<Playlist>)
    ensures |r| <= |playlists|
    ensures forall i :: 0 <= i < |r| ==> Visible(user, r[i])
    ensures forall p :: p in r <==> p in playlists && Visible(user, p)
  {
    if playlists == [] then []
    else if Visible(user, playlists[0]) then [playlists[0]] + Queryset(playlists[1..], user)
    else Queryset(playlists[1..], user)
  }

  /** An admin's queryset is the whole table, in order. */
  lemma {:induction false} AdminSeesAll(playlists: seq<Playlist>, user: Accounts.User)
    requires Accounts.IsAdmin(user)
    ensures Queryset(playlists, user) == playlists
  {
    if playlists != [] {
      AdminSeesAll(playlists[1..], user);
      assert playlists == [playlists[0]] + playlists[1..];
    }
  }

  /** The first playlist with the given id. */
  function Find(playlists: seq<Playlist>, pk: int): (r: Option<Playlist>)
    ensures r.Some? ==> r.value in playlists && r.value.id == pk
    ensures r.None? ==> forall i :: 0 <= i < |playlists| ==> playlists[i].id != pk
  {
    if playlists == [] then None
    else if playlists[0].id == pk then Some(playlists[0])
    else Find(playlists[1..], pk)
  }

  function Access(p: Playlist): PlaylistPermissions.PlaylistAccess {
    PlaylistPermissions.PlaylistAccess(p.createdBy.id, p.isPublic)
  }

  /** `get_object`: a playlist outside the user's queryset is not found
      (404); one the object permission refuses is forbidden (403). */
  function GetObject(playlists: seq<Playlist>, user: Accounts.User, pk: int, m: Method): (r: Result<Playlist, int>)
    ensures r.Ok? ==>
      r.value in playlists && r.value.id == pk && Visible(user, r.value)
      && PlaylistPermissions.HasObjectPermission(user, m, Access(r.value))
    ensures r.Err? ==> r.error == StatusNotFound || r.error == StatusForbidden
    ensures r == Err(StatusNotFound) <==> Find(Queryset(playlists, user), pk).None?
  {
    match Find(Queryset(playlists, user), pk)
    case None => Err(StatusNotFound)
    case Some(p) =>
      if PlaylistPermissions.HasObjectPermission(user, m, Access(p)) then Ok(p) else Err(StatusForbidden)
  }

  /** Reading a playlist the user can list is never forbidden: visibility and
      the read permission agree. */
  lemma ReadsNeverForbidden(playlists: seq<Playlist>, user: Accounts.User, pk: int, m: Method)
    requires IsSafe(m)
    ensures GetObject(playlists, user, pk, m) != Err(StatusForbidden)
  {
  }

  /** A non-admin who does not own a public playlist can read it but is
      forbidden to change it. */
  lemma StrangerCannotChangePublic(playlists: seq<Playlist>, user: Accounts.User, pk: int, m: Method)
    requires !Accounts.IsAdmin(user) && !IsSafe(m)
    requires Find(Queryset(playlists, user), pk).Some?
    requires Find(Queryset(playlists, user), pk).value.createdBy.id != user.id
    ensures GetObject(playlists, user, pk, m) == Err(StatusForbidden)
  {
  }

  /** `perform_create`: the new playlist belongs to the requesting user. */
  method PerformCreate(db: PlaylistDatabase, user: Accounts.User, name: string, description: Option<string>, now: int)
    returns (p: Playlist)
    requires db.Valid()
    modifies db
    ensures db.Valid()
    ensures p.createdBy == user && (p.isPublic <==> Accounts.IsAdmin(user))
    ensures p == NewPlaylist(old(db.nextId), name, description, user, now)
    ensures db.playlists == old(db.playlists) + [p] && db.rows == old(db.rows)
  {
    p := CreatePlaylist(db, user, name, description, now);
  }

  /** `add_song`: 201 when the song is added or already there, 400 for an
      unknown song, the lookup's 404/403, and 500 for a refused negative
      order. Only a newly created row enqueues a notification. */
  method AddSongAction(db: PlaylistDatabase, user: Accounts.User, pk: int, catalog: map<int, Songs.SongRow>,
                       songId: int, order: Option<int>, now: int)
    returns (status: int, notice: Option<Notice>)
    requires db.Valid()
    modifies db
    ensures db.Valid()
    ensures db.playlists == old(db.playlists) && db.nextId == old(db.nextId)
    ensures status != StatusCreated ==> db.rows == old(db.rows) && notice == None
    ensures status == StatusCreated || status == StatusBadRequest || status == StatusNotFound || status == StatusForbidden || status == StatusServerError
    ensures GetObject(old(db.playlists), user, pk, POST).Err? ==>
      status == GetObject(old(db.playlists), user, pk, POST).error
    ensures GetObject(old(db.playlists), user, pk, POST).Ok? ==>
      (status == StatusBadRequest <==> songId !in catalog)
    ensures status == StatusCreated ==>
      HasRow(db.rows, pk, songId) && (notice.Some? <==> !HasRow(old(db.rows), pk, songId))
    ensures status == StatusServerError <==>
      GetObject(old(db.playlists), user, pk, POST).Ok? && songId in catalog
      && !HasRow(old(db.rows), pk, songId) && GetOr(order, 0) < 0
    ensures (GetObject(old(db.playlists), user, pk, POST).Ok? && songId in catalog
             && (HasRow(old(db.rows), pk, songId) || GetOr(order, 0) >= 0)) ==>
      status == StatusCreated
      && db.rows == GetOrCreate(old(db.rows), pk, songId, GetOr(order, 0), now).rows
    ensures (GetObject(old(db.playlists), user, pk, POST).Ok? && songId in catalog
             && !HasRow(old(db.rows), pk, songId) && GetOr(order, 0) >= 0) ==>
      notice == Some(Notice(pk, AddedMessage(catalog[songId].title, GetObject(old(db.playlists), user, pk, POST).value.name)))
  {
    notice := None;
    var obj := GetObject(db.playlists, user, pk, POST);
    if obj.Err? {
      return obj.error, None;
    }
    var r := AddSong(db, obj.value, catalog, songId, order, now);
    match r
    case Ok(n) =>
      status, notice := StatusCreated, n;
    case Err(Invalid(_)) =>
      status := StatusBadRequest;
    case Err(IntegrityError) =>
      status := StatusServerError;
  }

  /** The rows left after deleting the (playlist, song) pair. */
  function WithoutPair(rows: seq<Membership>, playlist: int, song: int): (r: seq<Membership>)
    ensures forall m :: m in r <==> m in rows && !(m.playlist == playlist && m.song == song)
    ensures !HasRow(r, playlist, song)
  {
    if rows == [] then []
    else if rows[0].playlist == playlist && rows[0].song == song then WithoutPair(rows[1..], playlist, song)
    else [rows[0]] + WithoutPair(rows[1..], playlist, song)
  }

  /** Deleting rows keeps pairs unique and orders non-negative. */
  lemma {:induction false} WithoutPairConsistent(rows: seq<Membership>, playlist: int, song: int)
    requires UniquePairs(rows) && OrdersNonNegative(rows)
    ensures UniquePairs(WithoutPair(rows, playlist, song)) && OrdersNonNegative(WithoutPair(rows, playlist, song))
  {
    if rows != [] {
      var rest := WithoutPair(rows[1..], playlist, song);
      WithoutPairConsistent(rows[1..], playlist, song);
      forall j | 0 <= j < |rest|
        ensures !(rows[0].playlist == rest[j].playlist && rows[0].song == rest[j].song)
      {
        assert rest[j] in rows[1..];
      }
    }
  }

  /** Removing a pair drops exactly one from that playlist's count. */
  lemma {:induction false} WithoutPairCount(rows: seq<Membership>, playlist: int, song: int)
    requires UniquePairs(rows) && HasRow(rows, playlist, song)
    ensures SongCount(WithoutPair(rows, playlist, song), playlist) == SongCount(rows, playlist) - 1
  {
    var r := WithoutPair(rows, playlist, song);
    if rows[0].playlist == playlist && rows[0].song == song {
      NoPairCount(rows[1..], playlist, song);
    } else {
      assert HasRow(rows[1..], playlist, song) by {
        var i :| 0 <= i < |rows| && rows[i].playlist == playlist && rows[i].song == song;
        assert rows[1..][i - 1] == rows[i];
      }
      WithoutPairCount(rows[1..], playlist, song);
    }
  }

  lemma {:induction false} NoPairCount(rows: seq<Membership>, playlist: int, song: int)
    requires !HasRow(rows, playlist, song)
    ensures WithoutPair(rows, playlist, song) == rows
  {
    if rows != [] {
      HasRowTail(rows, playlist, song);
      NoPairCount(rows[1..], playlist, song);
      assert rows == [rows[0]] + rows[1..];
    }
  }

  lemma HasRowTail(rows: seq<Membership>, playlist: int, song: int)
    requires rows != []
    ensures HasRow(rows[1..], playlist, song) ==> HasRow(rows, playlist, song)
  {
    if HasRow(rows[1..], playlist, song) {
      var i :| 0 <= i < |rows[1..]| && rows[1..][i].playlist == playlist && rows[1..][i].song == song;
      assert rows[i + 1] == rows[1..][i];
    }
  }

  /** The rows of a playlist, listed in order, still point at existing
      songs. */
  lemma ListingSongsExist(rows: seq<Membership>, pk: int, catalog: map<int, Songs.SongRow>)
    requires SongsExist(rows, catalog)
    ensures SongsExist(Listing(RowsOf(rows, pk)), catalog)
  {
    var own := RowsOf(rows, pk);
    var listing := Listing(own);
    forall i | 0 <= i < |listing| ensures listing[i].song in catalog {
      assert listing[i] in multiset(own);
      assert listing[i] in own;
    }
  }

  /** `remove_song`: 200 after deleting exactly the (playlist, song) row, 400
      when the song is not in the playlist, or the lookup's 404/403; nothing
      changes unless the answer is 200. */
  method RemoveSongAction(db: PlaylistDatabase, user: Accounts.User, pk: int, songId: int) returns (status: int)
    requires db.Valid()
    modifies db
    ensures db.Valid()
    ensures db.playlists == old(db.playlists) && db.nextId == old(db.nextId)
    ensures status != StatusOk ==> db.rows == old(db.rows)
    ensures status == StatusOk || status == StatusBadRequest || status == StatusNotFound || status == StatusForbidden
    ensures GetObject(old(db.playlists), user, pk, DELETE).Err? ==>
      status == GetObject(old(db.playlists), user, pk, DELETE).error
    ensures GetObject(old(db.playlists), user, pk, DELETE).Ok? ==>
      (status == StatusBadRequest <==> !HasRow(old(db.rows), pk, songId))
    ensures status == StatusOk ==> db.rows == WithoutPair(old(db.rows), pk, songId)
    ensures GetObject(old(db.playlists), user, pk, DELETE).Ok? && HasRow(old(db.rows), pk, songId) ==>
      status == StatusOk
  {
    var obj := GetObject(db.playlists, user, pk, DELETE);
    if obj.Err? {
      return obj.error;
    }
    var valid := ValidateMember(db.rows, pk, songId);
    if valid.Err? {
      return StatusBadRequest;
    }
    WithoutPairConsistent(db.rows, pk, songId);
    db.rows := WithoutPair(db.rows, pk, songId);
    status := StatusOk;
  }

  /** One entry of the `songs` answer. */
  datatype SongEntry = SongEntry(id: int, title: string, artist: string, genre: string,
                                 duration: Option<int>, order: int, addedAt: int)

  function EntryOf(m: Membership, s: Songs.SongRow): SongEntry {
    SongEntry(s.id, s.title, s.artist, s.genre, s.duration, m.order, m.addedAt)
  }

  /** Every row points at a song that exists (the foreign key). */
  predicate SongsExist(rows: seq<Membership>, catalog: map<int, Songs.SongRow>) {
    forall i :: 0 <= i < |rows| ==> rows[i].song in catalog
  }

  /** `songs`: after the lookup, one entry per row of the playlist, built by
      a loop over the rows in their declared ordering. */
  method SongsAction(db: PlaylistDatabase, user: Accounts.User, pk: int, catalog: map<int, Songs.SongRow>)
    returns (status: int, entries: seq<SongEntry>)
    requires SongsExist(db.rows, catalog)
    ensures GetObject(db.playlists, user, pk, GET).Err? ==>
      status == GetObject(db.playlists, user, pk, GET).error && entries == []
    ensures GetObject(db.playlists, user, pk, GET).Ok? ==> status == StatusOk
    ensures status == StatusOk ==>
      var listing := Listing(RowsOf(db.rows, pk));
      |entries| == |listing| == SongCount(db.rows, pk)
      && forall i :: 0 <= i < |entries| ==> listing[i].song in catalog && entries[i] == EntryOf(listing[i], catalog[listing[i].song])
  {
    var obj := GetObject(db.playlists, user, pk, GET);
    if obj.Err? {
      return obj.error, [];
    }
    var listing := Listing(RowsOf(db.rows, pk));
    ListingSongsExist(db.rows, pk, catalog);
    entries := [];
    var k := 0;
    while k < |listing|
      invariant 0 <= k <= |listing|
      invariant |entries| == k
      invariant forall i :: 0 <= i < k ==> entries[i] == EntryOf(listing[i], catalog[listing[i].song])
    {
      entries := entries + [EntryOf(listing[k], catalog[listing[k].song])];
      k := k + 1;
    }
    status := StatusOk;
  }
}
