/** The notification centre of js/notification.js: a newest-first list of at most 50
    entries, an unread counter that is kept apart from the list, the permission gate in
    front of the browser's Notification constructor, the badge label and the relative
    time text. The clock is the parameter `now`; whether `new Notification(...)` throws
    is the parameter `constructorThrows`, and `confirm()`'s answer the parameter
    `confirmed`. Writes to localStorage and to the badge element are not modelled. */
module Notifications {
  import opened JsBase

  const MaxStored: nat := 50
  const Granted: string := "granted"
  const DefaultIcon: string := "/assets/icons/icon-192x192.png"
  const BadgeIcon: string := "/assets/icons/icon-72x72.png"
  const DefaultVibrate: seq<int> := [200, 100, 200]
  const DefaultTag: string := "dancebudpwa"

  const MsPerMinute: int := 60000

  /** A stored entry; `timestamp` is the instant (ms) it was recorded. */
  datatype Notification = Notification(title: string, body: string, timestamp: int, read: bool)

  /** The options a caller passes to sendNotification; a missing option is None. */
  datatype Options = Options(
    title: string,
    body: string,
    icon: Option<string>,
    vibrate: Option<seq<int>>,
    tag: Option<string>,
    requireInteraction: bool)

  /** The system notification constructed when the permission is granted. */
  datatype Shown = Shown(
    title: string,
    body: string,
    icon: string,
    badge: string,
    vibrate: seq<int>,
    tag: string,
    requireInteraction: bool)

  datatype NotifState = NotifState(permission: string, notifications: seq<Notification>, unreadCount: int)

  const Initial: NotifState := NotifState("default", [], 0)

  /** The number of entries whose `read` flag is off. */
  function CountUnread(ns: seq<Notification>): (c: nat)
    ensures c <= |ns|
  {
    if |ns| == 0 then 0 else CountUnread(ns[..|ns| - 1]) + (if ns[|ns| - 1].read then 0 else 1)
  }

  /** The counter never undercounts the unread entries in the list. */
  predicate Valid(s: NotifState)
  {
    CountUnread(s.notifications) <= s.unreadCount
  }

  // ---------------------------------------------------------------------------
  // Operations

  /** saveNotification(n): `unshift`, one more unread, then the first 50 entries. */
  function Saved(s: NotifState, n: Notification): NotifState
  {
    var l := [n] + s.notifications;
    s.(notifications := if |l| > MaxStored then l[..MaxStored] else l, unreadCount := s.unreadCount + 1)
  }

  /** The entry that sendNotification records. */
  function EntryFor(options: Options, now: int): Notification
  {
    Notification(options.title, options.body, now, false)
  }

  /** The arguments of `new Notification(...)`, each missing option replaced by its
      default. */
  function ShownFor(options: Options): Shown
  {
    Shown(options.title, options.body,
          if options.icon.Some? && options.icon.value != "" then options.icon.value else DefaultIcon,
          BadgeIcon,
          if options.vibrate.Some? then options.vibrate.value else DefaultVibrate,
          if options.tag.Some? && options.tag.value != "" then options.tag.value else DefaultTag,
          options.requireInteraction)
  }

  /** sendNotification(options): without the permission the entry is only recorded and
      null returned; with it, a throwing constructor records nothing and returns null,
      and otherwise the entry is recorded and the notification returned. */
  function Sent(s: NotifState, options: Options, now: int, constructorThrows: bool): (NotifState, Option<Shown>)
  {
    if s.permission != Granted then (Saved(s, EntryFor(options, now)), None)
    else if constructorThrows then (s, None)
    else (Saved(s, EntryFor(options, now)), Some(ShownFor(options)))
  }

  function MarkedRead(n: Notification): Notification
  {
    n.(read := true)
  }

  function EveryMarkedRead(ns: seq<Notification>): seq<Notification>
  {
    seq(|ns|, i requires 0 <= i < |ns| => MarkedRead(ns[i]))
  }

  /** markAllAsRead(): every flag set, the counter zeroed. */
  function AllRead(s: NotifState): NotifState
  {
    s.(notifications := EveryMarkedRead(s.notifications), unreadCount := 0)
  }

  /** clearAll(), with `confirm()`'s answer as `confirmed`. */
  function Cleared(s: NotifState, confirmed: bool): NotifState
  {
    if confirmed then s.(notifications := [], unreadCount := 0) else s
  }

  /** The badge of updateBadge: hidden (None) unless the count is positive, "9+" above
      nine, otherwise the count as text. */
  function BadgeLabel(unreadCount: int): Option<string>
  {
    if unreadCount > 0 then Some(if unreadCount > 9 then "9+" else IntToString(unreadCount))
    else None
  }

  function Plural(k: int): string
  {
    if k > 1 then "s" else ""
  }

  /** formatDate(dateString) with `diffMs` = now - date and `localeDate` the text of
      toLocaleDateString(). The buckets are taken from floored minutes, hours and days. */
  function FormatDate(diffMs: int, localeDate: string): string
  {
    var diffMins := diffMs / MsPerMinute;
    if diffMins < 1 then "Just now"
    else if diffMins < 60 then IntToString(diffMins) + " min ago"
    else
      var diffHours := diffMins / 60;
      if diffHours < 24 then IntToString(diffHours) + " hour" + Plural(diffHours) + " ago"
      else
        var diffDays := diffHours / 24;
        if diffDays < 7 then IntToString(diffDays) + " day" + Plural(diffDays) + " ago"
        else localeDate
  }

  // ---------------------------------------------------------------------------
  // Properties

  lemma {:induction false} CountUnreadAppend(a: seq<Notification>, b: seq<Notification>)
    ensures CountUnread(a + b) == CountUnread(a) + CountUnread(b)
    decreases |b|
  {
    if |b| == 0 {
      assert a + b == a;
    } else {
      assert (a + b)[..|a + b| - 1] == a + b[..|b| - 1];
      CountUnreadAppend(a, b[..|b| - 1]);
    }
  }

  /** Every operation keeps the counter at least the number of unread entries. */
  lemma ValidPreserved(s: NotifState, n: Notification, options: Options, now: int, throws: bool, confirmed: bool)
    requires Valid(s)
    ensures Valid(Initial) && Valid(Saved(s, n)) && Valid(AllRead(s)) && Valid(Cleared(s, confirmed))
    ensures Valid(Sent(s, options, now, throws).0)
  {
    SavedKeepsValid(s, n);
    SavedKeepsValid(s, EntryFor(options, now));
    AllReadCountsNothing(s.notifications);
  }

  lemma SavedKeepsValid(s: NotifState, n: Notification)
    requires Valid(s)
    ensures Valid(Saved(s, n))
  {
    var l := [n] + s.notifications;
    CountUnreadAppend([n], s.notifications);
    assert CountUnread([n]) <= 1 by {
      assert [n][..0] == [];
    }
    if |l| > MaxStored {
      CountUnreadAppend(l[..MaxStored], l[MaxStored..]);
      assert l == l[..MaxStored] + l[MaxStored..];
    }
  }

  lemma {:induction false} AllReadCountsNothing(ns: seq<Notification>)
    ensures CountUnread(EveryMarkedRead(ns)) == 0
    decreases |ns|
  {
    var r := EveryMarkedRead(ns);
    if |ns| > 0 {
      var front := ns[..|ns| - 1];
      AllReadCountsNothing(front);
      assert r[..|r| - 1] == EveryMarkedRead(front);
    }
  }

  /** saveNotification puts the entry first and keeps the older ones after it, at most
      50 in all; the counter rises by one whatever the list length. */
  lemma SaveNewestFirst(s: NotifState, n: Notification)
    ensures var t := Saved(s, n);
      && |t.notifications| == (if |s.notifications| + 1 > MaxStored then MaxStored else |s.notifications| + 1)
      && t.notifications[0] == n
      && t.notifications[1..] == s.notifications[..|t.notifications| - 1]
      && t.unreadCount == s.unreadCount + 1
      && t.permission == s.permission
  {
  }

  /** A run of saves: the list stops growing at 50, the counter does not. */
  function SavedAll(s: NotifState, ns: seq<Notification>): NotifState
  {
    if |ns| == 0 then s else Saved(SavedAll(s, ns[..|ns| - 1]), ns[|ns| - 1])
  }

  lemma {:induction false} CounterNotCapped(s: NotifState, ns: seq<Notification>)
    requires |s.notifications| <= MaxStored
    ensures var t := SavedAll(s, ns);
      && t.unreadCount == s.unreadCount + |ns|
      && |t.notifications| == (if |s.notifications| + |ns| > MaxStored then MaxStored else |s.notifications| + |ns|)
    decreases |ns|
  {
    if |ns| > 0 {
      CounterNotCapped(s, ns[..|ns| - 1]);
    }
  }

  /** Fifty-one notifications on an empty centre: 50 entries and a count of 51. */
  lemma FiftyOneSaves(ns: seq<Notification>)
    requires |ns| == 51
    ensures |SavedAll(Initial, ns).notifications| == 50 && SavedAll(Initial, ns).unreadCount == 51
  {
    CounterNotCapped(Initial, ns);
  }

  /** markAllAsRead sets every flag and zeroes the counter; length, order and the rest
      of every entry stay. */
  lemma AllReadKeepsEntries(s: NotifState)
    ensures var t := AllRead(s);
      && t.unreadCount == 0 && |t.notifications| == |s.notifications|
      && (forall i :: 0 <= i < |t.notifications| ==>
            t.notifications[i].read && t.notifications[i].(read := s.notifications[i].read) == s.notifications[i])
      && CountUnread(t.notifications) == 0
  {
    AllReadCountsNothing(s.notifications);
  }

  /** Without the permission an unread entry is still recorded and nothing is shown;
      with it the entry is recorded exactly when the notification is shown. */
  lemma SendRecordsEntry(s: NotifState, options: Options, now: int, throws: bool)
    ensures var (t, shown) := Sent(s, options, now, throws);
      && (s.permission != Granted ==> shown == None && t == Saved(s, EntryFor(options, now)))
      && (s.permission == Granted ==> (shown.Some? <==> !throws))
      && (shown.Some? ==> t.notifications[0] == EntryFor(options, now) && !t.notifications[0].read
                          && shown.value.title == options.title && shown.value.badge == BadgeIcon)
      && (shown.None? && s.permission == Granted ==> t == s)
  {
  }

  /** The badge: hidden at 0 (and below), "9+" above nine, one digit from 1 to 9. */
  lemma BadgeRule(c: int)
    ensures BadgeLabel(c).None? <==> c <= 0
    ensures c > 9 ==> BadgeLabel(c) == Some("9+")
    ensures 1 <= c <= 9 ==> BadgeLabel(c) == Some([DigitChar(c)]) && ParseInt(BadgeLabel(c).value) == Some(c)
  {
    if 1 <= c <= 9 {
      ParseIntOfNatToString(c);
    }
  }

  /** The buckets of formatDate in milliseconds: under a minute, under an hour, under a
      day, under a week, and the locale date beyond. */
  lemma FormatDateBuckets(diffMs: int, localeDate: string)
    ensures diffMs < 60000 ==> FormatDate(diffMs, localeDate) == "Just now"
    ensures 60000 <= diffMs < 3600000 ==>
      FormatDate(diffMs, localeDate) == NatToString(diffMs / 60000) + " min ago"
    ensures 3600000 <= diffMs < 86400000 ==>
      FormatDate(diffMs, localeDate) == NatToString(diffMs / 3600000) + " hour" + Plural(diffMs / 3600000) + " ago"
    ensures 86400000 <= diffMs < 604800000 ==>
      FormatDate(diffMs, localeDate) == NatToString(diffMs / 86400000) + " day" + Plural(diffMs / 86400000) + " ago"
    ensures 604800000 <= diffMs ==> FormatDate(diffMs, localeDate) == localeDate
  {
    NestedFloors(diffMs);
  }

  /** floor(floor(x / 60000) / 60) is floor(x / 3600000), and so on for days. */
  lemma NestedFloors(x: int)
    ensures (x / 60000) / 60 == x / 3600000
    ensures (x / 3600000) / 24 == x / 86400000
  {
    var q := x / 3600000;
    var r := x % 3600000;
    assert x == q * 3600000 + r && 0 <= r < 3600000;
    assert x / 60000 == q * 60 + r / 60000;
    var d := x / 86400000;
    var e := x % 86400000;
    assert x == d * 86400000 + e && 0 <= e < 86400000;
    assert x / 3600000 == d * 24 + e / 3600000;
  }

  /** Only hours and days carry a plural "s", and only above one: a minute count never
      does, one hour or one day is singular, and two or more hours or days are plural. */
  lemma PluralOnlyAboveOne(diffMs: int, localeDate: string)
    ensures 60000 <= diffMs < 3600000 ==> FormatDate(diffMs, localeDate) == NatToString(diffMs / 60000) + " min ago"
    ensures 3600000 <= diffMs < 7200000 ==> FormatDate(diffMs, localeDate) == "1 hour ago"
    ensures 7200000 <= diffMs < 86400000 ==> FormatDate(diffMs, localeDate) == NatToString(diffMs / 3600000) + " hours ago"
    ensures 86400000 <= diffMs < 172800000 ==> FormatDate(diffMs, localeDate) == "1 day ago"
    ensures 172800000 <= diffMs < 604800000 ==> FormatDate(diffMs, localeDate) == NatToString(diffMs / 86400000) + " days ago"
  {
    FormatDateBuckets(diffMs, localeDate);
    if 3600000 <= diffMs < 86400000 {
      HourPlural(diffMs / 3600000);
    } else if 86400000 <= diffMs < 604800000 {
      DayPlural(diffMs / 86400000);
    }
  }

  lemma HourPlural(h: int)
    requires h >= 1
    ensures NatToString(h) + " hour" + Plural(h) + " ago" == if h == 1 then "1 hour ago" else NatToString(h) + " hours ago"
  {
    assert NatToString(1) == "1";
  }

  lemma DayPlural(d: int)
    requires d >= 1
    ensures NatToString(d) + " day" + Plural(d) + " ago" == if d == 1 then "1 day ago" else NatToString(d) + " days ago"
  {
    assert NatToString(1) == "1";
  }

  /** A confirmed clear empties the list and the counter; a declined one does nothing. */
  lemma ClearRule(s: NotifState, confirmed: bool)
    ensures confirmed ==>
      Cleared(s, true).notifications == [] && Cleared(s, true).unreadCount == 0
      && BadgeLabel(Cleared(s, true).unreadCount).None?
    ensures !confirmed ==> Cleared(s, confirmed) == s
  {
  }

  // ---------------------------------------------------------------------------
  // The notification object

  class NotificationSystem {
    var permission: string
    var notifications: seq<Notification>
    var unreadCount: int

    function State(): NotifState
      reads this
    {
      NotifState(permission, notifications, unreadCount)
    }

    constructor ()
      ensures State() == Initial
    {
      permission, notifications, unreadCount := "default", [], 0;
    }

    method SaveNotification(n: Notification)
      modifies this
      ensures State() == Saved(old(State()), n)
    {
      notifications := [n] + notifications;
      unreadCount := unreadCount + 1;
      if |notifications| > MaxStored {
        notifications := notifications[..MaxStored];
      }
    }

    method SendNotification(options: Options, now: int, constructorThrows: bool) returns (shown: Option<Shown>)
      modifies this
      ensures (State(), shown) == Sent(old(State()), options, now, constructorThrows)
    {
      if permission != Granted {
        SaveNotification(EntryFor(options, now));
        return None;
      }
      if constructorThrows {
        return None;
      }
      var notification := ShownFor(options);
      SaveNotification(EntryFor(options, now));
      shown := Some(notification);
    }

    /** The `forEach` that sets each flag, then the counter. */
    method MarkAllAsRead()
      modifies this
      ensures State() == AllRead(old(State()))
    {
      var i := 0;
      while i < |notifications|
        invariant 0 <= i <= |notifications| == |old(notifications)|
        invariant permission == old(permission) && unreadCount == old(unreadCount)
        invariant forall j :: 0 <= j < i ==> notifications[j] == MarkedRead(old(notifications)[j])
        invariant forall j :: i <= j < |notifications| ==> notifications[j] == old(notifications)[j]
      {
        notifications := notifications[i := MarkedRead(notifications[i])];
        i := i + 1;
      }
      unreadCount := 0;
    }

    method ClearAll(confirmed: bool)
      modifies this
      ensures State() == Cleared(old(State()), confirmed)
    {
      if confirmed {
        notifications := [];
        unreadCount := 0;
      }
    }
  }
}
