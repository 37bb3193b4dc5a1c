/** The notification panel's all / unread / read filter. */
module NotificationPanel {
  import Lists
  import Notifications

  type Notification = Notifications.Notification

  predicate IsRead(n: Notification) { n.read }

  /** The test a notification must pass under `filter`; an unknown filter lets everything through. */
  function FilterTest(filter: string): Notification -> bool
  {
    (n: Notification) =>
      if filter == "all" then true
      else if filter == "unread" then !n.read
      else if filter == "read" then n.read
      else true
  }

  /** `filteredNotifications`. */
  function Shown(ns: seq<Notification>, filter: string): (r: seq<Notification>)
    ensures forall n :: n in r <==> n in ns && FilterTest(filter)(n)
  {
    Lists.Filter(ns, FilterTest(filter))
  }

  /** 'all', and any filter other than 'unread' and 'read', shows every notification in order. */
  lemma OtherFiltersShowAll(ns: seq<Notification>, filter: string)
    requires filter != "unread" && filter != "read"
    ensures Shown(ns, filter) == ns
  {
    Lists.FilterAll(ns, FilterTest(filter));
  }

  /**
   * 'unread' and 'read' split the list: each keeps the store's order, every
   * notification is in exactly one of them, and the 'unread' tab holds as many
   * items as the store's unread count.
   */
  lemma UnreadAndReadPartition(ns: seq<Notification>)
    ensures Lists.IsSubsequence(Shown(ns, "unread"), ns) && Lists.IsSubsequence(Shown(ns, "read"), ns)
    ensures multiset(Shown(ns, "unread")) + multiset(Shown(ns, "read")) == multiset(ns)
    ensures |Shown(ns, "unread")| == Notifications.UnreadCount(ns)
    ensures forall n :: n in Shown(ns, "unread") ==> !n.read
    ensures forall n :: n in Shown(ns, "read") ==> n.read
  {
    Lists.FilterIsSubsequence(ns, FilterTest("unread"));
    Lists.FilterIsSubsequence(ns, FilterTest("read"));
    Lists.FilterPartition(ns, FilterTest("unread"), FilterTest("read"));
    Lists.FilterCongruent(ns, FilterTest("unread"), Notifications.Unread);
  }
}
