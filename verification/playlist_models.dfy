/** The playlist tables: playlists, whose `save` makes an admin's playlist
    public, and the membership rows linking playlists to songs, unique per
    (playlist, song) and listed by (order, added_at). */
module PlaylistModels {
  import opened Wrappers
  import Accounts

  datatype Playlist = Playlist(
    id: int,
    name: string,
    description: Option<string>,
    createdBy: Accounts.User,
    isPublic: bool,
    createdAt: int)

  /** A `PlaylistSong` row. */
  datatype Membership = Membership(playlist: int, song: int, order: int, addedAt: int)

  /** `save`: a playlist created by an admin becomes public; any other
      playlist keeps its flag; nothing else changes. */
  function Saved(p: Playlist): (r: Playlist)
    ensures Accounts.IsAdmin(p.createdBy) ==> r.isPublic
    ensures !Accounts.IsAdmin(p.createdBy) ==> r.isPublic == p.isPublic
    ensures r.(isPublic := p.isPublic) == p
  {
    if Accounts.IsAdmin(p.createdBy) then p.(isPublic := true) else p
  }

  /** A freshly created playlist: `is_public` starts at its default, false,
      and `save` then applies the admin rule, so the flag ends up telling
      whether the creator is an admin. */
  function NewPlaylist(id: int, name: string, description: Option<string>, creator: Accounts.User, now: int): (p: Playlist)
    ensures p.id == id && p.name == name && p.description == description
    ensures p.createdBy == creator && p.createdAt == now
    ensures p.isPublic <==> Accounts.IsAdmin(creator)
  {
    Saved(Playlist(id, name, description, creator, false, now))
  }

  /** Saving is idempotent. */
  lemma SaveIdempotent(p: Playlist)
    ensures Saved(Saved(p)) == Saved(p)
  {
  }

  /** The playlist has a row for the song. */
  predicate HasRow(rows: seq<Membership>, playlist: int, song: int) {
    exists i :: 0 <= i < |rows| && rows[i].playlist == playlist && rows[i].song == song
  }

  /** `unique_together = ['playlist', 'song']`. */
  predicate UniquePairs(rows: seq<Membership>) {
    forall i, j :: 0 <= i < j < |rows| ==> !(rows[i].playlist == rows[j].playlist && rows[i].song == rows[j].song)
  }

  /** `order` is a `PositiveIntegerField`, which admits zero. */
  predicate OrdersNonNegative(rows: seq<Membership>) {
    forall i :: 0 <= i < |rows| ==> rows[i].order >= 0
  }

  /** The rows of one playlist, in table order. */
  function RowsOf(rows: seq<Membership>, playlist: int): (r: seq<Membership>)
    ensures |r| <= |rows|
    ensures forall i :: 0 <= i < |r| ==> r[i].playlist == playlist
    ensures forall m :: m in r <==> m in rows && m.playlist == playlist
  {
    if rows == [] then []
    else if rows[0].playlist == playlist then [rows[0]] + RowsOf(rows[1..], playlist)
    else RowsOf(rows[1..], playlist)
  }

  /** `song_count`: the number of songs linked to the playlist. */
  function SongCount(rows: seq<Membership>, playlist: int): (n: nat)
    ensures n <= |rows|
    ensures n == |RowsOf(rows, playlist)|
  {
    if rows == [] then 0
    else (if rows[0].playlist == playlist then 1 else 0) + SongCount(rows[1..], playlist)
  }

  /** Appending a row adds one to its own playlist's count and to no other. */
  lemma {:induction false} SongCountAppend(rows: seq<Membership>, m: Membership, playlist: int)
    ensures SongCount(rows + [m], playlist) == SongCount(rows, playlist) + (if m.playlist == playlist then 1 else 0)
  {
    if rows != [] {
      assert (rows + [m])[1..] == rows[1..] + [m];
      SongCountAppend(rows[1..], m, playlist);
    }
  }

  /** `ordering = ['order', 'added_at']`: `a` is listed no later than `b`. */
  predicate ListedBefore(a: Membership, b: Membership) {
    a.order < b.order || (a.order == b.order && a.addedAt <= b.addedAt)
  }

  predicate InListingOrder(rows: seq<Membership>) {
    forall i, j :: 0 <= i < j < |rows| ==> ListedBefore(rows[i], rows[j])
  }

  function InsertRow(m: Membership, rows: seq<Membership>): (r: seq<Membership>)
    requires InListingOrder(rows)
    ensures InListingOrder(r)
    ensures multiset(r) == multiset(rows) + multiset{m}
  {
    if rows == [] || ListedBefore(m, rows[0]) then [m] + rows
    else
      assert rows == [rows[0]] + rows[1..];
      var rest := InsertRow(m, rows[1..]);
      HeadListedFirst(m, rows, rest);
      [rows[0]] + rest
  }

  /** The head of an ordered table comes before every row of the rest with
      `m` inserted, when `m` does not come before it. */
  lemma HeadListedFirst(m: Membership, rows: seq<Membership>, rest: seq<Membership>)
    requires rows != [] && InListingOrder(rows) && !ListedBefore(m, rows[0])
    requires InListingOrder(rest) && multiset(rest) == multiset(rows[1..]) + multiset{m}
    ensures InListingOrder([rows[0]] + rest)
  {
    var r := [rows[0]] + rest;
    forall i | 0 <= i < |rest| ensures ListedBefore(rows[0], rest[i]) {
      assert rest[i] in multiset(rest);
      if rest[i] != m {
        assert rest[i] in multiset(rows[1..]);
        var j :| 0 <= j < |rows[1..]| && rows[1..][j] == rest[i];
        assert rows[j + 1] == rest[i];
      }
    }
    forall i, j | 0 <= i < j < |r| ensures ListedBefore(r[i], r[j]) {
      if i == 0 {
        assert r[j] == rest[j - 1];
      } else {
        assert r[i] == rest[i - 1] && r[j] == rest[j - 1];
      }
    }
  }

  /** The rows in the table's declared ordering. */
  function Listing(rows: seq<Membership>): (r: seq<Membership>)
    ensures InListingOrder(r)
    ensures multiset(r) == multiset(rows)
    ensures |r| == |rows|
  {
    if rows == [] then []
    else
      assert rows == [rows[0]] + rows[1..];
      var r := InsertRow(rows[0], Listing(rows[1..]));
      assert |r| == |multiset(r)|;
      r
  }

  /** The contents of both tables. */
  datatype Tables = Tables(playlists: seq<Playlist>, rows: seq<Membership>, nextId: int)

  /** The constraints the database keeps: playlist ids are distinct and below
      the next id to hand out, and the membership rows are unique per pair
      with non-negative orders. */
  predicate Consistent(t: Tables) {
    (forall i, j :: 0 <= i < j < |t.playlists| ==> t.playlists[i].id != t.playlists[j].id)
    && (forall i :: 0 <= i < |t.playlists| ==> t.playlists[i].id < t.nextId)
    && UniquePairs(t.rows) && OrdersNonNegative(t.rows)
  }

  /** The database holding both tables. */
  class PlaylistDatabase {
    var playlists: seq<Playlist>
    var rows: seq<Membership>
    var nextId: int

    function Snapshot(): Tables
      reads this
    {
      Tables(playlists, rows, nextId)
    }

    ghost predicate Valid()
      reads this
    {
      Consistent(Snapshot())
    }

    constructor ()
      ensures Valid() && playlists == [] && rows == [] && nextId == 1
    {
      playlists, rows, nextId := [], [], 1;
    }
  }
}
