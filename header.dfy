/** The header: the page title for the current path and the unread badge. */
module Header {
  import opened Wrappers
  import Text

  /**
   * The title the header shows for `path`. Each title comes only from its own
   * test: the details titles only from a longer path with the list page's
   * prefix, the application name only from a path no test accepts.
   */
  function Title(path: string): (t: string)
    ensures t == "Dashboard" <==> path == "/"
    ensures t == "Device Details" ==> Text.StartsWith(path, "/devices") && path != "/devices"
    ensures t == "Room Details" ==> Text.StartsWith(path, "/rooms") && path != "/rooms"
    ensures t == "Routine Details" ==> Text.StartsWith(path, "/routines") && path != "/routines"
    ensures t == "SmartHome Hub" ==>
      path !in {"/", "/energy", "/settings", "/profile"} &&
      !Text.StartsWith(path, "/devices") && !Text.StartsWith(path, "/rooms") && !Text.StartsWith(path, "/routines")
  {
    if path == "/" then "Dashboard"
    else if Text.StartsWith(path, "/devices") then (if path == "/devices" then "Devices" else "Device Details")
    else if Text.StartsWith(path, "/rooms") then (if path == "/rooms" then "Rooms" else "Room Details")
    else if Text.StartsWith(path, "/routines") then (if path == "/routines" then "Routines" else "Routine Details")
    else if path == "/energy" then "Energy Monitoring"
    else if path == "/settings" then "Settings"
    else if path == "/profile" then "Profile"
    else "SmartHome Hub"
  }

  /** The exact paths of the three list pages get the list titles. */
  lemma ListTitles()
    ensures Title("/") == "Dashboard"
    ensures Title("/devices") == "Devices"
    ensures Title("/rooms") == "Rooms"
    ensures Title("/routines") == "Routines"
  {
    Text.NotPrefixByChar("/rooms", "/devices", 1);
    Text.NotPrefixByChar("/routines", "/devices", 1);
    Text.NotPrefixByChar("/routines", "/rooms", 3);
  }

  /**
   * Every longer path with a list page's prefix gets the details title: not only
   * `/devices/…` but also, say, `/devicesX`.
   */
  lemma DetailTitles(path: string)
    ensures Text.StartsWith(path, "/devices") && path != "/devices" ==> Title(path) == "Device Details"
    ensures Text.StartsWith(path, "/rooms") && path != "/rooms" ==> Title(path) == "Room Details"
    ensures Text.StartsWith(path, "/routines") && path != "/routines" ==> Title(path) == "Routine Details"
  {
    if Text.StartsWith(path, "/rooms") {
      Text.PrefixChar(path, "/rooms", 1);
      Text.NotPrefixByChar(path, "/devices", 1);
    }
    if Text.StartsWith(path, "/routines") {
      Text.PrefixChar(path, "/routines", 1);
      Text.PrefixChar(path, "/routines", 3);
      Text.NotPrefixByChar(path, "/devices", 1);
      Text.NotPrefixByChar(path, "/rooms", 3);
    }
  }

  /** '/energy', '/settings' and '/profile' have their own titles. */
  lemma ExactTitles()
    ensures Title("/energy") == "Energy Monitoring"
    ensures Title("/settings") == "Settings"
    ensures Title("/profile") == "Profile"
  {
    Text.NotPrefixByChar("/energy", "/devices", 1);
    Text.NotPrefixByChar("/energy", "/rooms", 1);
    Text.NotPrefixByChar("/energy", "/routines", 1);
    Text.NotPrefixByChar("/settings", "/devices", 1);
    Text.NotPrefixByChar("/settings", "/rooms", 1);
    Text.NotPrefixByChar("/settings", "/routines", 1);
    Text.NotPrefixByChar("/profile", "/devices", 1);
    Text.NotPrefixByChar("/profile", "/rooms", 1);
    Text.NotPrefixByChar("/profile", "/routines", 1);
  }

  /**
   * '/energy', '/settings' and '/profile' match only exactly: a longer path
   * such as '/energy/today' falls through to the app name, as does every path
   * no rule names.
   */
  lemma OtherPathsGetAppName(path: string)
    requires path != "/" && !Text.StartsWith(path, "/devices") && !Text.StartsWith(path, "/rooms")
    requires !Text.StartsWith(path, "/routines")
    requires path != "/energy" && path != "/settings" && path != "/profile"
    ensures Title(path) == "SmartHome Hub"
  {
  }

  /** The badge over the bell: nothing at zero, the count up to 9, and '9+' above. */
  function Badge(unreadCount: nat): (badge: Option<string>)
    ensures badge.None? <==> unreadCount == 0
    ensures unreadCount > 9 ==> badge == Some("9+")
  {
    if unreadCount > 0 then Some(if unreadCount > 9 then "9+" else Text.NatToString(unreadCount)) else None
  }

  /** For one to nine unread notifications the badge is a single digit that reads back as the count. */
  lemma BadgeShowsSmallCounts(unreadCount: nat)
    requires 0 < unreadCount <= 9
    ensures Badge(unreadCount).Some? && |Badge(unreadCount).value| == 1
    ensures Text.AllDigits(Badge(unreadCount).value) && Text.ParseDigits(Badge(unreadCount).value) == unreadCount
  {
    Text.ParsePrinted(unreadCount);
  }
}
