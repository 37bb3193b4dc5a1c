/**
 * The notification store: newest first, with read flags, the unread count,
 * and the actions that replace the list with an updated copy.
 */
module Notifications {
  import opened Wrappers
  import Lists
  import Text

  datatype Notification = Notification(
    id: string,
    message: string,
    timestamp: int,
    read: bool,
    kind: string)

  /**
   * The object handed to `addNotification`: `id`, `timestamp` and `read` may be
   * left out, and then the store's defaults apply.
   */
  datatype NotificationInput = NotificationInput(
    id: Option<string>,
    message: string,
    timestamp: Option<int>,
    read: Option<bool>,
    kind: string)

  predicate Unread(x: Notification) { !x.read }

  /** `unreadCount`: how many notifications are not read. */
  function UnreadCount(ns: seq<Notification>): (n: nat)
    ensures n <= |ns|
    ensures n == 0 <==> forall i :: 0 <= i < |ns| ==> ns[i].read
  {
    Lists.Count(ns, Unread)
  }

  /**
   * The notification `addNotification(input)` builds at clock `now`: the defaults
   * come first and the argument is spread over them, so a value the argument
   * carries always wins.
   */
  function Build(input: NotificationInput, now: nat): (n: Notification)
    ensures n.id == (if input.id.Some? then input.id.value else Text.NatToString(now))
    ensures n.timestamp == (if input.timestamp.Some? then input.timestamp.value else now)
    ensures n.read <==> input.read == Some(true)
    ensures n.message == input.message && n.kind == input.kind
  {
    Notification(input.id.GetOr(Text.NatToString(now)), input.message,
      input.timestamp.GetOr(now), input.read.GetOr(false), input.kind)
  }

  /** New list after `addNotification(input)`: the new item first, the old ones after it in order. */
  function Add(ns: seq<Notification>, input: NotificationInput, now: nat): (r: seq<Notification>)
    ensures |r| == |ns| + 1 && r[0] == Build(input, now) && r[1..] == ns
  {
    [Build(input, now)] + ns
  }

  /** A notification added without a `read` value is unread and raises the count by one. */
  lemma AddRaisesUnread(ns: seq<Notification>, input: NotificationInput, now: nat)
    ensures UnreadCount(Add(ns, input, now)) == UnreadCount(ns) + (if input.read == Some(true) then 0 else 1)
  {
    var r := Add(ns, input, now);
    assert r == [r[0]] + ns;
  }

  /** New list after `markAsRead(id)`. */
  function MarkRead(ns: seq<Notification>, id: string): (r: seq<Notification>)
    ensures |r| == |ns|
    ensures forall i :: 0 <= i < |ns| && ns[i].id == id ==> r[i] == ns[i].(read := true)
    ensures forall i :: 0 <= i < |ns| && ns[i].id != id ==> r[i] == ns[i]
  {
    Lists.UpdateWhere(ns, (x: Notification) => x.id == id, (x: Notification) => x.(read := true))
  }

  /** Marking the same notification read twice is marking it once. */
  lemma MarkReadIdempotent(ns: seq<Notification>, id: string)
    ensures MarkRead(MarkRead(ns, id), id) == MarkRead(ns, id)
  {
    var once := MarkRead(ns, id);
    assert forall i :: 0 <= i < |ns| ==> MarkRead(once, id)[i] == once[i];
  }

  /** Marking one notification read never raises the unread count. */
  lemma {:induction false} MarkReadLowersUnread(ns: seq<Notification>, id: string)
    ensures UnreadCount(MarkRead(ns, id)) <= UnreadCount(ns)
  {
    if ns != [] {
      MarkReadLowersUnread(ns[1..], id);
      var r := MarkRead(ns, id);
      assert r[1..] == MarkRead(ns[1..], id);
      assert r == [r[0]] + r[1..];
      assert ns == [ns[0]] + ns[1..];
    }
  }

  /** New list after `markAllAsRead`. */
  function MarkAllRead(ns: seq<Notification>): (r: seq<Notification>)
    ensures |r| == |ns|
    ensures forall i :: 0 <= i < |ns| ==> r[i] == ns[i].(read := true)
  {
    Lists.MapSeq(ns, (x: Notification) => x.(read := true))
  }

  /** After marking everything read nothing is unread, and doing it again changes nothing. */
  lemma MarkAllReadSettles(ns: seq<Notification>)
    ensures UnreadCount(MarkAllRead(ns)) == 0
    ensures MarkAllRead(MarkAllRead(ns)) == MarkAllRead(ns)
  {
    var once := MarkAllRead(ns);
    assert forall i :: 0 <= i < |ns| ==> MarkAllRead(once)[i] == once[i];
  }

  /** New list after `deleteNotification(id)`. */
  function Delete(ns: seq<Notification>, id: string): (r: seq<Notification>)
    ensures forall i :: 0 <= i < |r| ==> r[i].id != id && r[i] in ns
    ensures forall i :: 0 <= i < |ns| && ns[i].id != id ==> ns[i] in r
    ensures |r| == |ns| - Lists.Count(ns, (x: Notification) => x.id == id)
  {
    Lists.FilterPartition(ns, (x: Notification) => x.id != id, (x: Notification) => x.id == id);
    Lists.Filter(ns, (x: Notification) => x.id != id)
  }

  /** Deletion keeps the surviving notifications in their original order. */
  lemma DeleteKeepsOrder(ns: seq<Notification>, id: string)
    ensures Lists.IsSubsequence(Delete(ns, id), ns)
  {
    Lists.FilterIsSubsequence(ns, (x: Notification) => x.id != id);
  }

  /** The seven notifications the store starts with, timestamps counted back from load instant `t`. */
  function Seed(t: int): seq<Notification>
  {
    [
      Notification("1", "Front Door Lock was unlocked", t - 1800000, false, "security"),
      Notification("2", "Living Room Lights turned on", t - 3600000, false, "device"),
      Notification("3", "Bedroom Thermostat set to 72°F", t - 7200000, true, "device"),
      Notification("4", "Good Morning routine executed", t - 28800000, true, "routine"),
      Notification("5", "Kitchen Lights battery is low (15%)", t - 86400000, false, "alert"),
      Notification("6", "New device detected: Office Speaker", t - 172800000, true, "system"),
      Notification("7", "Bathroom Outlet is offline", t - 259200000, true, "alert")
    ]
  }

  /** Three of the seeded notifications start unread. */
  lemma SeedUnread(t: int)
    ensures UnreadCount(Seed(t)) == 3
  {
    var s := Seed(t);
    UnreadOfFlags(s);
  }

  /** Seven notifications read as the seeded ones are (unread, unread, read, read, unread, read, read) leave three unread. */
  lemma UnreadOfFlags(s: seq<Notification>)
    requires |s| == 7 && !s[0].read && !s[1].read && s[2].read && s[3].read && !s[4].read && s[5].read && s[6].read
    ensures UnreadCount(s) == 3
  {
    var p := Unread;
    assert Lists.Filter(s[6..], p) == [];
    assert Lists.Filter(s[5..], p) == [];
    assert Lists.Filter(s[4..], p) == [s[4]];
    assert Lists.Filter(s[3..], p) == [s[4]];
    assert Lists.Filter(s[2..], p) == [s[4]];
    assert Lists.Filter(s[1..], p) == [s[1], s[4]];
    assert s[0..] == s;
  }

  /** The store: one `notifications` list, replaced by each action. */
  class NotificationStore {
    var notifications: seq<Notification>

    constructor (t: int)
      ensures notifications == Seed(t)
    {
      notifications := Seed(t);
    }

    /** The `unreadCount` getter. */
    function Unread(): nat
      reads this
    {
      UnreadCount(notifications)
    }

    /** `addNotification(input)` at clock `now`. */
    method AddNotification(input: NotificationInput, now: nat)
      modifies this
      ensures notifications == Add(old(notifications), input, now)
    {
      notifications := Add(notifications, input, now);
    }

    /** `markAsRead(id)`. */
    method MarkAsRead(id: string)
      modifies this
      ensures notifications == MarkRead(old(notifications), id)
    {
      notifications := MarkRead(notifications, id);
    }

    /** `markAllAsRead()`. */
    method MarkAllAsRead()
      modifies this
      ensures notifications == MarkAllRead(old(notifications))
      ensures Unread() == 0
    {
      notifications := MarkAllRead(notifications);
      MarkAllReadSettles(old(notifications));
    }

    /** `deleteNotification(id)`. */
    method DeleteNotification(id: string)
      modifies this
      ensures notifications == Delete(old(notifications), id)
    {
      notifications := Delete(notifications, id);
    }

    /** `clearAll()`. */
    method ClearAll()
      modifies this
      ensures notifications == [] && Unread() == 0
    {
      notifications := [];
    }
  }
}
