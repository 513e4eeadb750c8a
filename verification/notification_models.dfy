/** The notification model: four declared kinds, the defaults of a new
    notification, and `mark_as_read`, which stamps a notification read only
    the first time. */
module NotificationModels {
  import opened Wrappers

  /** The declared `notification_type` choices. */
  datatype Kind = PlaylistUpdate | NewSong | Welcome | General

  /** The stored text of each kind. */
  function KindName(k: Kind): (name: string)
    ensures name in ["playlist_update", "new_song", "welcome", "general"]
  {
    match k
    case PlaylistUpdate => "playlist_update"
    case NewSong => "new_song"
    case Welcome => "welcome"
    case General => "general"
  }

  /** Different kinds are stored as different texts. */
  lemma KindNameInjective(a: Kind, b: Kind)
    requires KindName(a) == KindName(b)
    ensures a == b
  {
  }

  datatype Notification = Notification(
    id: int,
    user: int,
    title: string,
    message: string,
    kind: Kind,
    isRead: bool,
    createdAt: int,
    readAt: Option<int>,
    relatedPlaylist: Option<int>,
    relatedSong: Option<int>)

  /** The fields a caller supplies when creating a notification. */
  datatype Draft = Draft(user: int, title: string, message: string, kind: Kind,
                         relatedPlaylist: Option<int>, relatedSong: Option<int>)

  /** A draft with only the required fields: the kind defaults to 'general'
      and nothing is related. */
  function PlainDraft(user: int, title: string, message: string): (d: Draft)
    ensures d.kind == General && d.relatedPlaylist.None? && d.relatedSong.None?
    ensures d.user == user && d.title == title && d.message == message
  {
    Draft(user, title, message, General, None, None)
  }

  /** The stored notification: unread, never read, created now. */
  function Stored(id: int, d: Draft, now: int): (n: Notification)
    ensures !n.isRead && n.readAt.None? && n.createdAt == now && n.id == id
    ensures n.user == d.user && n.title == d.title && n.message == d.message && n.kind == d.kind
    ensures n.relatedPlaylist == d.relatedPlaylist && n.relatedSong == d.relatedSong
  {
    Notification(id, d.user, d.title, d.message, d.kind, false, now, None, d.relatedPlaylist, d.relatedSong)
  }

  /** `mark_as_read`: an unread notification becomes read at `now`; a read
      one is left exactly as it is. */
  function MarkedRead(n: Notification, now: int): (r: Notification)
    ensures r.isRead
    ensures n.isRead ==> r == n
    ensures !n.isRead ==> r.readAt == Some(now) && r.(isRead := n.isRead, readAt := n.readAt) == n
  {
    if n.isRead then n else n.(isRead := true, readAt := Some(now))
  }

  /** Marking twice is marking once: the first read time is kept. */
  lemma MarkAsReadIdempotent(n: Notification, t1: int, t2: int)
    ensures MarkedRead(MarkedRead(n, t1), t2) == MarkedRead(n, t1)
  {
  }

  /** Drafts stored with consecutive ids from `firstId`. */
  function StoredAll(firstId: int, drafts: seq<Draft>, now: int): (r: seq<Notification>)
    ensures |r| == |drafts|
    ensures forall i :: 0 <= i < |r| ==> r[i] == Stored(firstId + i, drafts[i], now)
    decreases |drafts|
  {
    if drafts == [] then [] else [Stored(firstId, drafts[0], now)] + StoredAll(firstId + 1, drafts[1..], now)
  }

  /** Ids are distinct and below the next id to hand out. */
  predicate IdsBelow(rows: seq<Notification>, nextId: int) {
    (forall i, j :: 0 <= i < j < |rows| ==> rows[i].id != rows[j].id)
    && (forall i :: 0 <= i < |rows| ==> rows[i].id < nextId)
  }

  /** The notifications table. */
  class NotificationTable {
    var rows: seq<Notification>
    var nextId: int

    ghost predicate Valid()
      reads this
    {
      IdsBelow(rows, nextId)
    }

    constructor ()
      ensures Valid() && rows == [] && nextId == 1
    {
      rows, nextId := [], 1;
    }

    /** `bulk_create`: stores every draft, in order, under fresh ids. */
    method BulkCreate(drafts: seq<Draft>, now: int)
      requires Valid()
      modifies this
      ensures Valid()
      ensures rows == old(rows) + StoredAll(old(nextId), drafts, now)
      ensures nextId == old(nextId) + |drafts|
    {
      var added := StoredAll(nextId, drafts, now);
      assert forall i, j :: 0 <= i < j < |rows + added| ==> (rows + added)[i].id != (rows + added)[j].id by {
        forall i, j | 0 <= i < j < |rows + added|
          ensures (rows + added)[i].id != (rows + added)[j].id
        {
          if j >= |rows| && i < |rows| {
            assert (rows + added)[i].id < nextId;
          }
        }
      }
      rows := rows + added;
      nextId := nextId + |drafts|;
    }

    /** `objects.create`: stores one draft. */
    method Create(d: Draft, now: int) returns (n: Notification)
      requires Valid()
      modifies this
      ensures Valid()
      ensures n == Stored(old(nextId), d, now)
      ensures rows == old(rows) + [n] && nextId == old(nextId) + 1
    {
      n := Stored(nextId, d, now);
      rows := rows + [n];
      nextId := nextId + 1;
    }

    /** `mark_as_read` on the notification stored at position `i`. */
    method MarkAsRead(i: nat, now: int)
      requires Valid() && i < |rows|
      modifies this
      ensures Valid()
      ensures rows == old(rows)[i := MarkedRead(old(rows)[i], now)] && nextId == old(nextId)
    {
      if !rows[i].isRead {
        rows := rows[i := rows[i].(isRead := true, readAt := Some(now))];
      }
    }
  }
}
