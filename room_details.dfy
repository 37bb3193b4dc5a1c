/**
 * The room details screen: the devices of one room, their grouping by type,
 * the room statistics, and the "Turn All On/Off" and "Lights On/Off" buttons,
 * which call the device store's `toggleDevice` once per device of a snapshot
 * of the room's devices.
 */
module RoomDetails {
  import opened Wrappers
  import Lists
  import Devices
  import Rooms

  type Device = Devices.Device
  type Room = Rooms.Room

  /** `rooms.find(r => r.id === roomId)`. */
  function FindRoom(rooms: seq<Room>, roomId: string): (r: Option<Room>)
    ensures r.None? <==> forall i :: 0 <= i < |rooms| ==> rooms[i].id != roomId
    ensures r.Some? ==> exists k :: 0 <= k < |rooms| && rooms[k] == r.value &&
                                  r.value.id == roomId && forall j :: 0 <= j < k ==> rooms[j].id != roomId
  {
    match Lists.FindFirst(rooms, (x: Room) => x.id == roomId)
    case None => None
    case Some(k) => Some(rooms[k])
  }

  function InRoom(name: string): Device -> bool { (d: Device) => d.room == name }

  /** `roomDevices`: the devices whose `room` string is the room's name. */
  function RoomDevices(devices: seq<Device>, room: Room): (r: seq<Device>)
    ensures forall d :: d in r <==> d in devices && d.room == room.name
  {
    Lists.Filter(devices, InRoom(room.name))
  }

  /** The room's devices come in the order of the device list. */
  lemma RoomDevicesInOrder(devices: seq<Device>, room: Room)
    ensures Lists.IsSubsequence(RoomDevices(devices, room), devices)
  {
    Lists.FilterIsSubsequence(devices, InRoom(room.name));
  }

  /** `activeDevices`: how many of the room's devices are on. */
  function ActiveDevices(roomDevices: seq<Device>): (n: nat)
    ensures n <= |roomDevices|
    ensures n == 0 <==> forall i :: 0 <= i < |roomDevices| ==> !roomDevices[i].isOn
    ensures n == |roomDevices| <==> forall i :: 0 <= i < |roomDevices| ==> roomDevices[i].isOn
  {
    Lists.Count(roomDevices, Devices.IsOn)
  }

  /** The types present among `ds`. */
  function Types(ds: seq<Device>): set<string>
  {
    set i | 0 <= i < |ds| :: ds[i].deviceType
  }

  /** What `devicesByType` holds: for each type present, the devices of that type in order. */
  function ByType(ds: seq<Device>): (g: map<string, seq<Device>>)
    ensures g.Keys == Types(ds)
    ensures forall t, d :: t in g && d in g[t] ==> d.deviceType == t
  {
    map t | t in Types(ds) :: Lists.Filter(ds, Devices.OfType(t))
  }

  /**
   * `devicesByType` is a partition of the room's devices: every device sits in
   * the group of its own type, every group holds only devices of its type taken
   * from the list in their original order, and no group is empty.
   */
  lemma ByTypePartition(ds: seq<Device>)
    ensures forall i :: 0 <= i < |ds| ==>
      ds[i].deviceType in ByType(ds) && ds[i] in ByType(ds)[ds[i].deviceType]
    ensures forall t :: t in ByType(ds) ==> ByType(ds)[t] != [] && Lists.IsSubsequence(ByType(ds)[t], ds)
    ensures forall t, d :: t in ByType(ds) && d in ByType(ds)[t] ==> d.deviceType == t && d in ds
  {
    var g := ByType(ds);
    forall i | 0 <= i < |ds| ensures ds[i].deviceType in g && ds[i] in g[ds[i].deviceType] {
      assert ds[i].deviceType in Types(ds);
    }
    forall t | t in g ensures g[t] != [] && Lists.IsSubsequence(g[t], ds) {
      var i :| 0 <= i < |ds| && ds[i].deviceType == t;
      assert ds[i] in g[t];
      Lists.FilterIsSubsequence(ds, Devices.OfType(t));
    }
  }

  lemma TypesSnoc(ds: seq<Device>, d: Device)
    ensures Types(ds + [d]) == Types(ds) + {d.deviceType}
  {
    forall t | t in Types(ds) ensures t in Types(ds + [d]) {
      var i :| 0 <= i < |ds| && ds[i].deviceType == t;
      assert (ds + [d])[i] == ds[i];
    }
    assert (ds + [d])[|ds|] == d;
  }

  /** The devices of type `t` after adding `d` at the end. */
  lemma TypeGroupSnoc(ds: seq<Device>, d: Device, t: string)
    ensures Lists.Filter(ds + [d], Devices.OfType(t)) ==
      (if t in Types(ds) then Lists.Filter(ds, Devices.OfType(t)) else []) + (if d.deviceType == t then [d] else [])
  {
    Lists.FilterAppend(ds, [d], Devices.OfType(t));
    if t !in Types(ds) {
      Lists.FilterNone(ds, Devices.OfType(t));
    }
  }

  /** Adding one device to the end extends its type's group, creating the group if needed. */
  lemma ByTypeSnoc(ds: seq<Device>, d: Device)
    ensures ByType(ds + [d]) ==
      ByType(ds)[d.deviceType := (if d.deviceType in ByType(ds) then ByType(ds)[d.deviceType] else []) + [d]]
  {
    var g := ByType(ds);
    var h := ByType(ds + [d]);
    var want := g[d.deviceType := (if d.deviceType in g then g[d.deviceType] else []) + [d]];
    TypesSnoc(ds, d);
    assert h.Keys == want.Keys;
    forall t | t in h.Keys ensures h[t] == want[t] {
      TypeGroupSnoc(ds, d, t);
    }
  }

  /** One `reduce` step: push `d` onto its type's group, creating the group if needed. */
  function Push(groups: map<string, seq<Device>>, d: Device): map<string, seq<Device>>
  {
    groups[d.deviceType := (if d.deviceType in groups then groups[d.deviceType] else []) + [d]]
  }

  /** The `reduce` itself, one device after another from `{}`. */
  function Reduce(ds: seq<Device>): map<string, seq<Device>>
  {
    if ds == [] then map[] else Push(Reduce(ds[..|ds| - 1]), ds[|ds| - 1])
  }

  /** The `reduce` builds exactly the groups `ByType` describes. */
  lemma {:induction false} ReduceIsByType(ds: seq<Device>)
    ensures Reduce(ds) == ByType(ds)
  {
    if ds == [] {
      assert Types(ds) == {};
    } else {
      var init := ds[..|ds| - 1];
      ReduceIsByType(init);
      assert ds == init + [ds[|ds| - 1]];
      ByTypeSnoc(init, ds[|ds| - 1]);
    }
  }

  /** The `reduce` that builds `devicesByType`, one device at a time. */
  method GroupByType(ds: seq<Device>) returns (groups: map<string, seq<Device>>)
    ensures groups == ByType(ds)
  {
    groups := map[];
    var i := 0;
    while i < |ds|
      invariant 0 <= i <= |ds|
      invariant groups == Reduce(ds[..i])
    {
      var d := ds[i];
      if d.deviceType !in groups {
        groups := groups[d.deviceType := []];
      }
      groups := groups[d.deviceType := groups[d.deviceType] + [d]];
      assert ds[..i + 1][..i] == ds[..i];
      i := i + 1;
    }
    assert ds[..i] == ds;
    ReduceIsByType(ds);
  }

  /**
   * The on/total figures of the group for type `t` in `devicesByType`, or
   * nothing when the room has no device of that type.
   */
  function TypeStat(roomDevices: seq<Device>, t: string): (r: Option<(nat, nat)>)
    ensures r.None? <==> forall i :: 0 <= i < |roomDevices| ==> roomDevices[i].deviceType != t
    ensures r.Some? ==> r.value == (Lists.Count(roomDevices, Devices.OfTypeAndOn(t)), Lists.Count(roomDevices, Devices.OfType(t)))
    ensures r.Some? ==> 0 < r.value.1 && r.value.0 <= r.value.1
  {
    var g := ByType(roomDevices);
    if t in g then
      TypeStatCounts(roomDevices, t);
      Some((Lists.Count(g[t], Devices.IsOn), |g[t]|))
    else
      None
  }

  lemma TypeStatCounts(ds: seq<Device>, t: string)
    requires t in ByType(ds)
    ensures Lists.Count(ByType(ds)[t], Devices.IsOn) == Lists.Count(ds, Devices.OfTypeAndOn(t))
    ensures |ByType(ds)[t]| == Lists.Count(ds, Devices.OfType(t))
    ensures 0 < |ByType(ds)[t]|
  {
    Lists.FilterFilter(ds, Devices.OfType(t), Devices.IsOn, Devices.OfTypeAndOn(t));
    var i :| 0 <= i < |ds| && ds[i].deviceType == t;
    assert ds[i] in ByType(ds)[t];
  }

  /** The "Lights" row: lit lights over all lights, `0/0` when the room has none. */
  function LightsStat(roomDevices: seq<Device>): (r: (nat, nat))
    ensures r.0 <= r.1
    ensures r == (Lists.Count(roomDevices, Devices.OfTypeAndOn("light")), Lists.Count(roomDevices, Devices.OfType("light")))
  {
    match TypeStat(roomDevices, "light")
    case None => (0, 0)
    case Some(stat) => stat
  }

  /** The "Locks" row, shown only when the room has a lock. */
  function LocksStat(roomDevices: seq<Device>): (r: Option<(nat, nat)>)
    ensures r.None? <==> forall i :: 0 <= i < |roomDevices| ==> roomDevices[i].deviceType != "lock"
    ensures r.Some? ==> r.value.0 <= r.value.1
  {
    TypeStat(roomDevices, "lock")
  }

  /**
   * The "Thermostat" row: whether the first thermostat of the room is on, and
   * nothing when the room has no thermostat. Later thermostats are not shown.
   */
  function ThermostatStat(roomDevices: seq<Device>): (r: Option<bool>)
    ensures r == match Lists.FindFirst(roomDevices, Devices.OfType("thermostat"))
      case None => None
      case Some(k) => Some(roomDevices[k].isOn)
  {
    var g := ByType(roomDevices);
    if "thermostat" in g then
      TypeStatCounts(roomDevices, "thermostat");
      Lists.FilterHead(roomDevices, Devices.OfType("thermostat"));
      Some(g["thermostat"][0].isOn)
    else
      None
  }

  /** The ids of a list of devices. */
  function Ids(ds: seq<Device>): set<string>
  {
    set i | 0 <= i < |ds| :: ds[i].id
  }

  /**
   * The device list after `toggleDevice(id, on)` was called for every id in
   * `ids` at clock `now`: since `toggleDevice` updates every device carrying the
   * id, this is every device whose id is among `ids`, wherever it is.
   */
  function SwitchIds(ds: seq<Device>, ids: set<string>, on: bool, now: int): (r: seq<Device>)
    ensures |r| == |ds|
    ensures forall i :: 0 <= i < |ds| && ds[i].id in ids ==> r[i] == ds[i].(isOn := on, lastUsed := now)
    ensures forall i :: 0 <= i < |ds| && ds[i].id !in ids ==> r[i] == ds[i]
  {
    Lists.UpdateWhere(ds, (d: Device) => d.id in ids, (d: Device) => d.(isOn := on, lastUsed := now))
  }

  predicate UniqueIds(ds: seq<Device>)
  {
    forall i, j :: 0 <= i < j < |ds| ==> ds[i].id != ds[j].id
  }

  /**
   * "Turn All On/Off": afterwards every device of the room is in the requested
   * state, and when device ids are unique, devices of other rooms are untouched.
   */
  lemma ToggleAllEffect(ds: seq<Device>, room: Room, on: bool, now: int)
    ensures forall i :: 0 <= i < |ds| && ds[i].room == room.name ==>
      SwitchIds(ds, Ids(RoomDevices(ds, room)), on, now)[i].isOn == on
    ensures UniqueIds(ds) ==> forall i :: 0 <= i < |ds| && ds[i].room != room.name ==>
      SwitchIds(ds, Ids(RoomDevices(ds, room)), on, now)[i] == ds[i]
  {
    var rd := RoomDevices(ds, room);
    forall i | 0 <= i < |ds| && ds[i].room == room.name ensures ds[i].id in Ids(rd) {
      assert ds[i] in rd;
      var k :| 0 <= k < |rd| && rd[k] == ds[i];
    }
    if UniqueIds(ds) {
      forall i | 0 <= i < |ds| && ds[i].room != room.name ensures ds[i].id !in Ids(rd) {
        forall k | 0 <= k < |rd| ensures rd[k].id != ds[i].id {
          assert rd[k] in rd;
          var j :| 0 <= j < |ds| && ds[j] == rd[k];
        }
      }
    }
  }

  /**
   * "Lights On/Off" (`toggleDevicesByType`): every device of the room with
   * that type ends in the requested state; with unique ids nothing else changes.
   */
  lemma ToggleByTypeEffect(ds: seq<Device>, room: Room, t: string, on: bool, now: int)
    ensures forall i :: 0 <= i < |ds| && ds[i].room == room.name && ds[i].deviceType == t ==>
      SwitchIds(ds, Ids(Lists.Filter(RoomDevices(ds, room), Devices.OfType(t))), on, now)[i].isOn == on
    ensures UniqueIds(ds) ==> forall i :: 0 <= i < |ds| && (ds[i].room != room.name || ds[i].deviceType != t) ==>
      SwitchIds(ds, Ids(Lists.Filter(RoomDevices(ds, room), Devices.OfType(t))), on, now)[i] == ds[i]
  {
    var ts := Lists.Filter(RoomDevices(ds, room), Devices.OfType(t));
    forall i | 0 <= i < |ds| && ds[i].room == room.name && ds[i].deviceType == t ensures ds[i].id in Ids(ts) {
      assert ds[i] in RoomDevices(ds, room);
      assert ds[i] in ts;
      var k :| 0 <= k < |ts| && ts[k] == ds[i];
    }
    if UniqueIds(ds) {
      forall i | 0 <= i < |ds| && (ds[i].room != room.name || ds[i].deviceType != t) ensures ds[i].id !in Ids(ts) {
        forall k | 0 <= k < |ts| ensures ts[k].id != ds[i].id {
          assert ts[k] in ts;
          assert ts[k] in RoomDevices(ds, room);
          var j :| 0 <= j < |ds| && ds[j] == ts[k];
        }
      }
    }
  }

  /** `targets.forEach(device => toggleDevice(device.id, on))`, every call at clock `now`. */
  method ToggleEach(store: Devices.DeviceStore, targets: seq<Device>, on: bool, now: int)
    modifies store
    ensures store.devices == SwitchIds(old(store.devices), Ids(targets), on, now)
  {
    ghost var start := store.devices;
    var j := 0;
    while j < |targets|
      invariant 0 <= j <= |targets|
      invariant store.devices == SwitchIds(start, Ids(targets[..j]), on, now)
    {
      assert Ids(targets[..j + 1]) == Ids(targets[..j]) + {targets[j].id} by {
        assert targets[..j + 1] == targets[..j] + [targets[j]];
        forall x | x in Ids(targets[..j]) ensures x in Ids(targets[..j + 1]) {
          var k :| 0 <= k < j && targets[..j][k].id == x;
          assert targets[..j + 1][k] == targets[..j][k];
        }
        assert targets[..j + 1][j] == targets[j];
      }
      store.ToggleDevice(targets[j].id, on, now);
      j := j + 1;
    }
    assert targets[..j] == targets;
  }

  /** `toggleAllDevices(on)`; the button exists only when the room was found. */
  method ToggleAllDevices(store: Devices.DeviceStore, rooms: seq<Room>, roomId: string, on: bool, now: int)
    modifies store
    ensures FindRoom(rooms, roomId).None? ==> store.devices == old(store.devices)
    ensures FindRoom(rooms, roomId).Some? ==>
              store.devices == SwitchIds(old(store.devices), Ids(RoomDevices(old(store.devices), FindRoom(rooms, roomId).value)), on, now)
  {
    match FindRoom(rooms, roomId)
    case None =>
    case Some(room) =>
      var roomDevices := RoomDevices(store.devices, room);
      ToggleEach(store, roomDevices, on, now);
  }

  /** `toggleDevicesByType(t, on)`; the button exists only when the room was found. */
  method ToggleDevicesByType(store: Devices.DeviceStore, rooms: seq<Room>, roomId: string, t: string, on: bool, now: int)
    modifies store
    ensures FindRoom(rooms, roomId).None? ==> store.devices == old(store.devices)
    ensures FindRoom(rooms, roomId).Some? ==>
              store.devices == SwitchIds(old(store.devices),
                                         Ids(Lists.Filter(RoomDevices(old(store.devices), FindRoom(rooms, roomId).value), Devices.OfType(t))), on, now)
  {
    match FindRoom(rooms, roomId)
    case None =>
    case Some(room) =>
      var roomDevices := RoomDevices(store.devices, room);
      ToggleEach(store, Lists.Filter(roomDevices, Devices.OfType(t)), on, now);
  }

  /** `handleDelete`: removes the room from the room store, then goes to the room list. */
  method HandleDelete(store: Rooms.RoomStore, room: Room) returns (path: string)
    modifies store
    ensures store.rooms == Rooms.Remove(old(store.rooms), room.id)
    ensures path == "/rooms"
  {
    store.RemoveRoom(room.id);
    path := "/rooms";
  }
}
