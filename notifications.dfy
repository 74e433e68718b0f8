/**
 * The notifications page: the local list marked read one at a time or all at
 * once, the unread filter, the newest-first order, and the age label.
 * Timestamps are milliseconds; the clock is a parameter.
 */
module Notifications {
  import opened Wrappers
  import opened Seqs

  datatype Kind = BookingKind | PaymentKind | SystemKind | ChatKind

  datatype Notification = Notification(
    id: string, kind: Kind, title: string, description: Option<string>, isRead: bool, createdAt: int)

  datatype FilterMode = AllNotifications | UnreadOnly

  const HourMs := 1000 * 60 * 60
  const DayMs := 24 * HourMs

  function Shows(filter: FilterMode): Notification -> bool {
    (n: Notification) => filter == AllNotifications || !n.isRead
  }

  /** `sort((a, b) => b.created_at - a.created_at)`. */
  function NewestFirst(): Notification -> seq<int> {
    (n: Notification) => [-n.createdAt]
  }

  /** `loadNotifications`: the local list, only the unread ones under the unread filter, newest first. */
  function Visible(ns: seq<Notification>, filter: FilterMode): (r: seq<Notification>)
    ensures forall n :: multiset(r)[n] == if Shows(filter)(n) then multiset(ns)[n] else 0
  {
    SortBy(Filter(ns, Shows(filter)), NewestFirst())
  }

  /** A notification is listed iff it is in the local list and, under the unread filter, unread. */
  lemma VisibleMembership(ns: seq<Notification>, filter: FilterMode, n: Notification)
    ensures n in Visible(ns, filter) <==> n in ns && (filter == UnreadOnly ==> !n.isRead)
  {
    var r := Visible(ns, filter);
    assert n in r <==> multiset(r)[n] > 0;
    assert n in ns <==> multiset(ns)[n] > 0;
  }

  /** The list runs from the newest notification to the oldest. */
  lemma VisibleNewestFirst(ns: seq<Notification>, filter: FilterMode)
    ensures var r := Visible(ns, filter);
      forall i, j :: 0 <= i < j < |r| ==> r[i].createdAt >= r[j].createdAt
  {
    var r := Visible(ns, filter);
    SortByIsSorted(Filter(ns, Shows(filter)), NewestFirst());
    forall i, j | 0 <= i < j < |r|
      ensures r[i].createdAt >= r[j].createdAt
    {
      assert LexLe([-r[i].createdAt], [-r[j].createdAt]);
    }
  }

  /** `markAsRead`'s map: the notification with that id is read, every other one unchanged. */
  function MarkRead(ns: seq<Notification>, id: string): (r: seq<Notification>)
    ensures |r| == |ns|
    ensures forall i :: 0 <= i < |ns| ==>
      r[i] == if ns[i].id == id then ns[i].(isRead := true) else ns[i]
  {
    UpdateWhere(ns, (n: Notification) => n.id == id, (n: Notification) => n.(isRead := true))
  }

  /** `markAllAsRead`'s map: every notification is read, and nothing else about any of them changes. */
  function MarkAllRead(ns: seq<Notification>): (r: seq<Notification>)
    ensures |r| == |ns|
    ensures forall i :: 0 <= i < |ns| ==> r[i] == ns[i].(isRead := true)
  {
    UpdateWhere(ns, (n: Notification) => true, (n: Notification) => n.(isRead := true))
  }

  /** Marking everything read a second time changes nothing, and neither does marking one read afterwards. */
  lemma MarkAllReadIdempotent(ns: seq<Notification>, id: string)
    ensures MarkAllRead(MarkAllRead(ns)) == MarkAllRead(ns)
    ensures MarkRead(MarkAllRead(ns), id) == MarkAllRead(ns)
  {
  }

  /** After "Mark all as read", the unread filter lists nothing and the full list keeps its length. */
  lemma {:induction false} NothingUnreadAfterMarkAll(ns: seq<Notification>)
    ensures Visible(MarkAllRead(ns), UnreadOnly) == []
    ensures |Visible(MarkAllRead(ns), AllNotifications)| == |ns|
  {
    var m := MarkAllRead(ns);
    var r := Visible(m, UnreadOnly);
    if r != [] {
      assert r[0] in r;
      VisibleMembership(m, UnreadOnly, r[0]);
      assert false;
    }
    FilterKeepsAll(m, Shows(AllNotifications));
    assert |multiset(Visible(m, AllNotifications))| == |multiset(m)|;
  }

  /** The four forms `formatTime` gives a notification's age. */
  datatype AgeLabel = JustNow | HoursAgo(hours: int) | DaysAgo(days: int) | OnDate

  /**
   * `formatTime` on `diff = now - then`: under an hour (or in the future)
   * "Just now", then whole hours below a day, whole days below a week, and
   * the date after that.
   */
  function Age(diff: int): (l: AgeLabel)
    ensures l == JustNow <==> diff < HourMs
    ensures l.HoursAgo? ==> 1 <= l.hours < 24 && l.hours * HourMs <= diff < (l.hours + 1) * HourMs
    ensures l.HoursAgo? <==> HourMs <= diff < DayMs
    ensures l.DaysAgo? ==> 1 <= l.days < 7 && l.days * DayMs <= diff < (l.days + 1) * DayMs
    ensures l.DaysAgo? <==> DayMs <= diff < 7 * DayMs
    ensures l == OnDate <==> diff >= 7 * DayMs
  {
    var hours := diff / HourMs;
    var days := hours / 24;
    DaysOfHours(diff);
    if hours < 1 then JustNow
    else if hours < 24 then HoursAgo(hours)
    else if days < 7 then DaysAgo(days)
    else OnDate
  }

  /** Whole days of whole hours are the whole days of the difference. */
  lemma DaysOfHours(diff: int)
    ensures (diff / HourMs) / 24 == diff / DayMs
  {
    var h := diff / HourMs;
    var d := h / 24;
    assert diff == h * HourMs + diff % HourMs;
    assert h == d * 24 + h % 24;
    assert diff == d * DayMs + ((h % 24) * HourMs + diff % HourMs);
    assert 0 <= (h % 24) * HourMs + diff % HourMs < DayMs;
  }

  /** The notifications page's state; `local` stands for the stored notifications. */
  class NotificationsPage {
    var local: seq<Notification>
    var notifications: seq<Notification>
    var filter: FilterMode
    var loading: bool

    constructor(sample: seq<Notification>)
      ensures local == sample && notifications == [] && filter == AllNotifications && loading
    {
      local := sample;
      notifications := [];
      filter := AllNotifications;
      loading := true;
    }

    /** `loadNotifications`, which runs whenever the user, the filter or the local list changes. */
    method Load(user: Option<string>)
      modifies this
      ensures local == old(local) && filter == old(filter)
      ensures user.Some? ==> notifications == Visible(local, filter) && !loading
      ensures user.None? ==> notifications == old(notifications) && loading == old(loading)
    {
      if user.None? {
        return;
      }
      loading := true;
      notifications := Visible(local, filter);
      loading := false;
    }

    method SetFilter(f: FilterMode, user: Option<string>)
      modifies this
      ensures filter == f && local == old(local)
      ensures user.Some? ==> notifications == Visible(local, f) && !loading
      ensures user.None? ==> notifications == old(notifications) && loading == old(loading)
    {
      filter := f;
      Load(user);
    }

    /** `markAsRead`, which does not look at the user, followed by the reload. */
    method MarkAsRead(id: string, user: Option<string>)
      modifies this
      ensures local == MarkRead(old(local), id) && filter == old(filter)
      ensures user.Some? ==> notifications == Visible(local, filter) && !loading
      ensures user.None? ==> notifications == old(notifications) && loading == old(loading)
    {
      local := MarkRead(local, id);
      Load(user);
    }

    /** `markAllAsRead`: nothing without a user; otherwise every notification is read and the list reloaded. */
    method MarkAllAsRead(user: Option<string>)
      modifies this
      ensures filter == old(filter)
      ensures user.None? ==> local == old(local) && notifications == old(notifications) && loading == old(loading)
      ensures user.Some? ==> local == MarkAllRead(old(local)) && notifications == Visible(local, filter) && !loading
    {
      if user.None? {
        return;
      }
      local := MarkAllRead(local);
      Load(user);
    }

    /** A click on a row marks it read only when it is unread. */
    method Click(n: Notification, user: Option<string>)
      modifies this
      ensures filter == old(filter)
      ensures n.isRead ==> local == old(local) && notifications == old(notifications) && loading == old(loading)
      ensures !n.isRead ==> local == MarkRead(old(local), n.id)
      ensures !n.isRead && user.Some? ==> notifications == Visible(local, filter) && !loading
      ensures !n.isRead && user.None? ==> notifications == old(notifications) && loading == old(loading)
    {
      if !n.isRead {
        MarkAsRead(n.id, user);
      }
    }
  }
}
