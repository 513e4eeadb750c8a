/** The notifications bell: the unread badge, the five most recent entries,
    the "View all" link and the click guard. Its time label is
    `TimeAgo.Describe`. */
module NotificationsDropdown {
  import opened Wrappers
  import opened Decimal
  import TimeAgo

  /** The fields of a listed notification the dropdown uses. */
  datatype NotificationRow = NotificationRow(id: int, isRead: bool, title: string, message: string)

  const RecentLimit := 5

  /** The badge text: no badge for a count of zero or less, "9+" above nine,
      otherwise the count itself. */
  function Badge(unreadCount: int): (r: Option<string>)
    ensures r.None? <==> unreadCount <= 0
    ensures r == Some("9+") <==> unreadCount > 9
    ensures 0 < unreadCount <= 9 ==>
      r.Some? && |r.value| == 1 && AllDigits(r.value) && ParseNat(r.value) == unreadCount
  {
    if unreadCount <= 0 then None
    else if unreadCount > 9 then Some("9+")
    else
      ParseNatToString(unreadCount);
      Some(IntToString(unreadCount))
  }

  /** "Mark all read" is offered exactly when the badge is shown. */
  predicate ShowMarkAll(unreadCount: int) {
    unreadCount > 0
  }

  lemma MarkAllWithBadge(unreadCount: int)
    ensures ShowMarkAll(unreadCount) <==> Badge(unreadCount).Some?
  {
  }

  /** `slice(0, 5)`: the first five notifications, or all when fewer. */
  function Recent(ns: seq<NotificationRow>): (r: seq<NotificationRow>)
    ensures |r| == if |ns| < RecentLimit then |ns| else RecentLimit
    ensures r <= ns
  {
    if |ns| <= RecentLimit then ns else ns[..RecentLimit]
  }

  predicate ShowViewAll(ns: seq<NotificationRow>) {
    |ns| > RecentLimit
  }

  /** "View all" is offered exactly when the list shows only part of them. */
  lemma ViewAllWhenTruncated(ns: seq<NotificationRow>)
    ensures ShowViewAll(ns) <==> Recent(ns) != ns
  {
    if ShowViewAll(ns) {
      assert |Recent(ns)| < |ns|;
    }
  }

  /** Clicking a row sends a mark-read request for that row's id only when
      it is unread. */
  function ClickRow(n: NotificationRow): (request: Option<int>)
    ensures request.Some? <==> !n.isRead
    ensures request.Some? ==> request.value == n.id
  {
    if !n.isRead then Some(n.id) else None
  }

  /** `formatTimeAgo` gives "Just now" for a timestamp in the future. */
  lemma FutureIsJustNow(diffMs: int)
    requires diffMs < 0
    ensures TimeAgo.Describe(diffMs) == "Just now"
  {
  }
}
