/** The notification endpoints. Every operation works on the requesting
    user's notifications only: marking one read, marking several or all
    read, counting the unread ones and deleting them all. */
module NotificationViews {
  import opened Wrappers
  import opened Decimal
  import opened Http
  import opened NotificationModels

  /** `get_queryset`: the user's own notifications, in table order. */
  function Own(rows: seq<Notification>, user: int): (r: seq<Notification>)
    ensures |r| <= |rows|
    ensures forall i :: 0 <= i < |r| ==> r[i].user == user
    ensures forall n :: n in r <==> n in rows && n.user == user
  {
    if rows == [] then []
    else if rows[0].user == user then [rows[0]] + Own(rows[1..], user)
    else Own(rows[1..], user)
  }

  /** The position of the user's notification with the given id. */
  function Locate(rows: seq<Notification>, user: int, id: int): (r: Option<nat>)
    ensures r.Some? ==> r.value < |rows| && rows[r.value].id == id && rows[r.value].user == user
    ensures r.None? ==> forall i :: 0 <= i < |rows| ==> !(rows[i].id == id && rows[i].user == user)
  {
    if rows == [] then None
    else if rows[0].id == id && rows[0].user == user then Some(0)
    else match Locate(rows[1..], user, id)
      case None => None
      case Some(k) => Some(k + 1)
  }

  /** `mark_read`: 404 unless the id names one of the user's notifications;
      otherwise that notification is marked read, idempotently. */
  method MarkRead(t: NotificationTable, user: int, id: int, now: int) returns (status: int)
    requires t.Valid()
    modifies t
    ensures t.Valid() && t.nextId == old(t.nextId)
    ensures Locate(old(t.rows), user, id).None? ==> status == StatusNotFound && t.rows == old(t.rows)
    ensures Locate(old(t.rows), user, id).Some? ==>
      var i := Locate(old(t.rows), user, id).value;
      status == StatusOk && t.rows == old(t.rows)[i := MarkedRead(old(t.rows)[i], now)]
  {
    var found := Locate(t.rows, user, id);
    if found.None? {
      return StatusNotFound;
    }
    t.MarkAsRead(found.value, now);
    status := StatusOk;
  }

  /** `notification_ids`, missing or empty, selects every notification. */
  predicate Chosen(n: Notification, user: int, ids: seq<int>)
    ensures Chosen(n, user, ids) ==> n.user == user && !n.isRead
    ensures n.user == user && !n.isRead && n.id in ids ==> Chosen(n, user, ids)
  {
    n.user == user && !n.isRead && (ids == [] || n.id in ids)
  }

  /** The table after `mark_all_read`'s bulk update. */
  function MarkAll(rows: seq<Notification>, user: int, ids: seq<int>, now: int): (r: seq<Notification>)
    ensures |r| == |rows|
    ensures forall i :: 0 <= i < |r| ==>
      r[i] == (if Chosen(rows[i], user, ids) then rows[i].(isRead := true, readAt := Some(now)) else rows[i])
  {
    if rows == [] then []
    else
      var n := rows[0];
      [if Chosen(n, user, ids) then n.(isRead := true, readAt := Some(now)) else n] + MarkAll(rows[1..], user, ids, now)
  }

  /** How many notifications the bulk update changes. */
  function CountChosen(rows: seq<Notification>, user: int, ids: seq<int>): (c: nat)
    ensures c <= |rows|
    ensures c == 0 <==> forall n :: n in rows ==> !Chosen(n, user, ids)
  {
    if rows == [] then 0
    else (if Chosen(rows[0], user, ids) then 1 else 0) + CountChosen(rows[1..], user, ids)
  }

  /** `unread_count`: the user's unread notifications. */
  function UnreadCount(rows: seq<Notification>, user: int): (c: nat)
    ensures c <= |Own(rows, user)|
    ensures c == 0 <==> forall n :: n in Own(rows, user) ==> n.isRead
    ensures c == |Own(rows, user)| <==> forall n :: n in Own(rows, user) ==> !n.isRead
  {
    if rows == [] then 0
    else (if rows[0].user == user && !rows[0].isRead then 1 else 0) + UnreadCount(rows[1..], user)
  }

  /** The bulk update marks the chosen notifications as a whole: read ones
      and other users' ones are left alone, and the unread count drops by
      exactly the number reported. */
  lemma {:induction false} MarkAllCounts(rows: seq<Notification>, user: int, ids: seq<int>, now: int)
    ensures UnreadCount(MarkAll(rows, user, ids, now), user) + CountChosen(rows, user, ids) == UnreadCount(rows, user)
  {
    if rows != [] {
      MarkAllCounts(rows[1..], user, ids, now);
      assert MarkAll(rows, user, ids, now)[1..] == MarkAll(rows[1..], user, ids, now);
    }
  }

  /** With no ids, nothing of the user's is left unread. */
  lemma MarkAllClearsUnread(rows: seq<Notification>, user: int, now: int)
    ensures UnreadCount(MarkAll(rows, user, [], now), user) == 0
  {
    MarkAllCounts(rows, user, [], now);
    ChosenAllUnread(rows, user);
  }

  lemma {:induction false} ChosenAllUnread(rows: seq<Notification>, user: int)
    ensures CountChosen(rows, user, []) == UnreadCount(rows, user)
  {
    if rows != [] {
      ChosenAllUnread(rows[1..], user);
    }
  }

  /** The bulk update never touches a notification that was already read or
      that belongs to someone else. */
  lemma MarkAllLeavesOthers(rows: seq<Notification>, user: int, ids: seq<int>, now: int, i: int)
    requires 0 <= i < |rows| && (rows[i].isRead || rows[i].user != user)
    ensures MarkAll(rows, user, ids, now)[i] == rows[i]
  {
  }

  /** The bulk update changes no id, so the ids stay distinct and below the
      next one. */
  lemma MarkAllKeepsIds(rows: seq<Notification>, user: int, ids: seq<int>, now: int, nextId: int)
    requires IdsBelow(rows, nextId)
    ensures IdsBelow(MarkAll(rows, user, ids, now), nextId)
  {
    var updated := MarkAll(rows, user, ids, now);
    assert forall i :: 0 <= i < |updated| ==> updated[i].id == rows[i].id;
  }

  function MarkedMessage(count: nat): string {
    NatToString(count) + " notification(s) marked as read"
  }

  /** `mark_all_read`: marks the chosen notifications read at `now` and
      reports how many changed. */
  method MarkAllRead(t: NotificationTable, user: int, ids: Option<seq<int>>, now: int) returns (count: nat, message: string)
    requires t.Valid()
    modifies t
    ensures t.Valid() && t.nextId == old(t.nextId)
    ensures t.rows == MarkAll(old(t.rows), user, GetOr(ids, []), now)
    ensures count == CountChosen(old(t.rows), user, GetOr(ids, []))
    ensures count == UnreadCount(old(t.rows), user) - UnreadCount(t.rows, user)
    ensures message == MarkedMessage(count)
  {
    var chosen := GetOr(ids, []);
    count := CountChosen(t.rows, user, chosen);
    MarkAllCounts(t.rows, user, chosen, now);
    MarkAllKeepsIds(t.rows, user, chosen, now, t.nextId);
    t.rows := MarkAll(t.rows, user, chosen, now);
    message := MarkedMessage(count);
  }

  /** The table after deleting every notification of the user. */
  function Others(rows: seq<Notification>, user: int): (r: seq<Notification>)
    ensures forall i :: 0 <= i < |r| ==> r[i].user != user
    ensures forall n :: n in r <==> n in rows && n.user != user
    ensures |r| + |Own(rows, user)| == |rows|
  {
    if rows == [] then []
    else if rows[0].user == user then Others(rows[1..], user)
    else [rows[0]] + Others(rows[1..], user)
  }

  function DeletedMessage(count: nat): string {
    NatToString(count) + " notification(s) deleted"
  }

  /** `clear_all`: deletes all of the user's notifications, reports how many,
      and keeps everybody else's. */
  method ClearAll(t: NotificationTable, user: int) returns (count: nat, message: string)
    requires t.Valid()
    modifies t
    ensures t.Valid() && t.nextId == old(t.nextId)
    ensures count == |Own(old(t.rows), user)|
    ensures t.rows == Others(old(t.rows), user)
    ensures Own(t.rows, user) == [] && UnreadCount(t.rows, user) == 0
    ensures message == DeletedMessage(count)
  {
    count := |Own(t.rows, user)|;
    var kept := Others(t.rows, user);
    OthersKeepsIds(t.rows, user, t.nextId);
    NoOwn(kept, user);
    t.rows := kept;
    message := DeletedMessage(count);
  }

  lemma {:induction false} OthersKeepsIds(rows: seq<Notification>, user: int, nextId: int)
    requires IdsBelow(rows, nextId)
    ensures IdsBelow(Others(rows, user), nextId)
  {
    if rows != [] {
      OthersKeepsIds(rows[1..], user, nextId);
      var rest := Others(rows[1..], user);
      forall j | 0 <= j < |rest| ensures rest[j].id != rows[0].id {
        assert rest[j] in rows[1..];
      }
    }
  }

  lemma {:induction false} NoOwn(rows: seq<Notification>, user: int)
    requires forall i :: 0 <= i < |rows| ==> rows[i].user != user
    ensures Own(rows, user) == [] && UnreadCount(rows, user) == 0
  {
    if rows != [] {
      NoOwn(rows[1..], user);
    }
  }
}
