/**
 * The dashboard's quick-access panel: favourite and recently used devices,
 * favourite rooms and routines, and the list shown for the selected tab.
 */
module QuickAccess {
  import Lists
  import Devices
  import Rooms
  import Routines

  type Device = Devices.Device
  type Room = Rooms.Room
  type Routine = Routines.Routine

  predicate FavoriteDevice(d: Device) { d.isFavorite }
  predicate FavoriteRoom(r: Room) { r.isFavorite }
  predicate FavoriteRoutine(r: Routine) { r.isFavorite }

  /** `favoriteDevices`: every favourite device, in store order, with no cap. */
  function FavoriteDevices(devices: seq<Device>): (r: seq<Device>)
    ensures |r| == Lists.Count(devices, FavoriteDevice)
    ensures forall d :: d in r <==> d in devices && d.isFavorite
  {
    Lists.Filter(devices, FavoriteDevice)
  }

  /** `(a, b) => new Date(b.lastUsed) - new Date(a.lastUsed) <= 0`: the later use first. */
  function UsedNoEarlier(): (Device, Device) -> bool
  {
    (a: Device, b: Device) => a.lastUsed >= b.lastUsed
  }

  lemma UsedNoEarlierIsPreorder(devices: seq<Device>)
    ensures Lists.TotalPreorderOn(devices, UsedNoEarlier())
  {
  }

  /**
   * `recentDevices`: at most four devices, most recently used first, taken from
   * the store; every device left out was used no later than each one shown.
   * The sort works on a copy, so the store's order is not changed.
   */
  function RecentDevices(devices: seq<Device>): (r: seq<Device>)
    ensures |r| == if |devices| < 4 then |devices| else 4
    ensures forall i, j :: 0 <= i < j < |r| ==> r[i].lastUsed >= r[j].lastUsed
    ensures multiset(r) <= multiset(devices)
    ensures forall d :: d in multiset(devices) - multiset(r) ==> forall i :: 0 <= i < |r| ==> d.lastUsed <= r[i].lastUsed
  {
    UsedNoEarlierIsPreorder(devices);
    Lists.TopK(devices, UsedNoEarlier(), 4)
  }

  /** The devices last used at `time`. */
  function UsedAt(time: int): Device -> bool
  {
    (d: Device) => d.lastUsed == time
  }

  /**
   * The sort is stable: devices last used at the same time are shown in the
   * store's order, and those shown are the earliest such devices.
   */
  lemma TiesInStoreOrder(devices: seq<Device>, time: int)
    ensures Lists.Filter(RecentDevices(devices), UsedAt(time)) <= Lists.Filter(devices, UsedAt(time))
  {
    UsedNoEarlierIsPreorder(devices);
    Lists.TopKStable(devices, UsedNoEarlier(), 4, UsedAt(time));
  }

  /** `favoriteRooms`: the first four favourite rooms, in store order. */
  function FavoriteRooms(rooms: seq<Room>): (r: seq<Room>)
    ensures |r| == if Lists.Count(rooms, FavoriteRoom) < 4 then Lists.Count(rooms, FavoriteRoom) else 4
    ensures r == Lists.Filter(rooms, FavoriteRoom)[..|r|]
  {
    Lists.Take(Lists.Filter(rooms, FavoriteRoom), 4)
  }

  /** `favoriteRoutines`: the first four favourite routines, in store order. */
  function FavoriteRoutines(routines: seq<Routine>): (r: seq<Routine>)
    ensures |r| == if Lists.Count(routines, FavoriteRoutine) < 4 then Lists.Count(routines, FavoriteRoutine) else 4
    ensures r == Lists.Filter(routines, FavoriteRoutine)[..|r|]
  {
    Lists.Take(Lists.Filter(routines, FavoriteRoutine), 4)
  }

  /** Every room and routine on those tabs is a favourite from the store, in store order. */
  lemma FavoritesComeFromStore(rooms: seq<Room>, routines: seq<Routine>)
    ensures forall r :: r in FavoriteRooms(rooms) ==> r in rooms && r.isFavorite
    ensures forall r :: r in FavoriteRoutines(routines) ==> r in routines && r.isFavorite
    ensures Lists.IsSubsequence(FavoriteRooms(rooms), rooms)
    ensures Lists.IsSubsequence(FavoriteRoutines(routines), routines)
  {
    var fr := Lists.Filter(rooms, FavoriteRoom);
    var ft := Lists.Filter(routines, FavoriteRoutine);
    Lists.FilterIsSubsequence(rooms, FavoriteRoom);
    Lists.FilterIsSubsequence(routines, FavoriteRoutine);
    PrefixOfSubsequence(fr, FavoriteRooms(rooms), rooms);
    PrefixOfSubsequence(ft, FavoriteRoutines(routines), routines);
    forall r | r in FavoriteRooms(rooms) ensures r in rooms && r.isFavorite {
      var k :| 0 <= k < |FavoriteRooms(rooms)| && FavoriteRooms(rooms)[k] == r;
      assert fr[k] == r;
    }
    forall r | r in FavoriteRoutines(routines) ensures r in routines && r.isFavorite {
      var k :| 0 <= k < |FavoriteRoutines(routines)| && FavoriteRoutines(routines)[k] == r;
      assert ft[k] == r;
    }
  }

  lemma {:induction false} PrefixOfSubsequence<T>(r: seq<T>, p: seq<T>, s: seq<T>)
    requires Lists.IsSubsequence(r, s) && |p| <= |r| && p == r[..|p|]
    ensures Lists.IsSubsequence(p, s)
    decreases |s|
  {
    if p != [] {
      assert s != [];
      if r[0] == s[0] && Lists.IsSubsequence(r[1..], s[1..]) {
        assert p[1..] == r[1..][..|p| - 1];
        PrefixOfSubsequence(r[1..], p[1..], s[1..]);
      } else {
        PrefixOfSubsequence(r, p, s[1..]);
      }
    }
  }

  /** What the selected tab shows. */
  datatype Items = DeviceItems(devices: seq<Device>) | RoomItems(rooms: seq<Room>) | RoutineItems(routines: seq<Routine>)
  {
    function Size(): nat
    {
      match this
      case DeviceItems(ds) => |ds|
      case RoomItems(rs) => |rs|
      case RoutineItems(rs) => |rs|
    }
  }

  /** `getActiveItems()`: the list of the active tab, and an empty list for an unknown tab. */
  function ActiveItems(activeTab: string, devices: seq<Device>, rooms: seq<Room>, routines: seq<Routine>): (items: Items)
    ensures activeTab == "favorites" ==> items == DeviceItems(FavoriteDevices(devices))
    ensures activeTab == "recent" ==> items == DeviceItems(RecentDevices(devices))
    ensures activeTab == "rooms" ==> items == RoomItems(FavoriteRooms(rooms))
    ensures activeTab == "routines" ==> items == RoutineItems(FavoriteRoutines(routines))
    ensures activeTab !in {"favorites", "recent", "rooms", "routines"} ==> items.Size() == 0
  {
    match activeTab
    case "favorites" =>
      var favorites := FavoriteDevices(devices);
      if |favorites| > 0 then DeviceItems(favorites) else DeviceItems([])
    case "recent" => DeviceItems(RecentDevices(devices))
    case "rooms" => RoomItems(FavoriteRooms(rooms))
    case "routines" => RoutineItems(FavoriteRoutines(routines))
    case _ => DeviceItems([])
  }

  /**
   * The empty-state message is shown exactly when the tab is unknown or its
   * list is empty: no favourite device, no device at all, no favourite room or
   * no favourite routine.
   */
  lemma EmptyStateIff(activeTab: string, devices: seq<Device>, rooms: seq<Room>, routines: seq<Routine>)
    ensures ActiveItems(activeTab, devices, rooms, routines).Size() == 0 <==>
      (activeTab == "favorites" && forall i :: 0 <= i < |devices| ==> !devices[i].isFavorite) ||
      (activeTab == "recent" && devices == []) ||
      (activeTab == "rooms" && forall i :: 0 <= i < |rooms| ==> !rooms[i].isFavorite) ||
      (activeTab == "routines" && forall i :: 0 <= i < |routines| ==> !routines[i].isFavorite) ||
      activeTab !in {"favorites", "recent", "rooms", "routines"}
  {
    Lists.CountBounds(rooms, FavoriteRoom);
    Lists.CountBounds(routines, FavoriteRoutine);
  }
}
