/**
 * The device store: the list of devices every screen reads, and the actions
 * that replace it with an updated copy (power, favourite, add, update, remove).
 * Timestamps are integer milliseconds; the clock is a parameter.
 */
module Devices {
  import opened Wrappers
  import Lists
  import Text

  /**
   * A device record. `lastUsed` is the instant of the ISO timestamp the store
   * keeps; `brightness`, `colorTemperature` and `currentValue` are present only
   * on the devices that have them.
   */
  datatype Device = Device(
    id: string,
    name: string,
    deviceType: string,
    room: string,
    isOn: bool,
    isFavorite: bool,
    status: string,
    lastUsed: int,
    brightness: Option<int>,
    colorTemperature: Option<int>,
    currentValue: Option<int>,
    aliases: seq<string>)

  predicate IsOn(d: Device) { d.isOn }

  /** `d => d.type === t`, the type test of every per-type selector. */
  function OfType(t: string): Device -> bool { (d: Device) => d.deviceType == t }

  /** `d => d.type === t && d.isOn`. */
  function OfTypeAndOn(t: string): Device -> bool { (d: Device) => d.deviceType == t && d.isOn }

  /** The `updates` object of `updateDevice`: each present field overrides the device's. */
  datatype DevicePatch = DevicePatch(
    id: Option<string>,
    name: Option<string>,
    deviceType: Option<string>,
    room: Option<string>,
    isOn: Option<bool>,
    isFavorite: Option<bool>,
    status: Option<string>,
    lastUsed: Option<int>,
    brightness: Option<int>,
    colorTemperature: Option<int>,
    currentValue: Option<int>,
    aliases: Option<seq<string>>)

  const NoChanges := DevicePatch(None, None, None, None, None, None, None, None, None, None, None, None)

  /** `{...device, ...updates}`: every field the updates carry wins, every other field is the device's. */
  function Merge(d: Device, p: DevicePatch): (m: Device)
    ensures m.id == (if p.id.Some? then p.id.value else d.id)
    ensures m.name == (if p.name.Some? then p.name.value else d.name)
    ensures m.deviceType == (if p.deviceType.Some? then p.deviceType.value else d.deviceType)
    ensures m.room == (if p.room.Some? then p.room.value else d.room)
    ensures m.isOn == (if p.isOn.Some? then p.isOn.value else d.isOn)
    ensures m.isFavorite == (if p.isFavorite.Some? then p.isFavorite.value else d.isFavorite)
    ensures m.status == (if p.status.Some? then p.status.value else d.status)
    ensures m.lastUsed == (if p.lastUsed.Some? then p.lastUsed.value else d.lastUsed)
    ensures m.brightness == (if p.brightness.Some? then p.brightness else d.brightness)
    ensures m.colorTemperature == (if p.colorTemperature.Some? then p.colorTemperature else d.colorTemperature)
    ensures m.currentValue == (if p.currentValue.Some? then p.currentValue else d.currentValue)
    ensures m.aliases == (if p.aliases.Some? then p.aliases.value else d.aliases)
  {
    Device(
      p.id.GetOr(d.id),
      p.name.GetOr(d.name),
      p.deviceType.GetOr(d.deviceType),
      p.room.GetOr(d.room),
      p.isOn.GetOr(d.isOn),
      p.isFavorite.GetOr(d.isFavorite),
      p.status.GetOr(d.status),
      p.lastUsed.GetOr(d.lastUsed),
      if p.brightness.Some? then p.brightness else d.brightness,
      if p.colorTemperature.Some? then p.colorTemperature else d.colorTemperature,
      if p.currentValue.Some? then p.currentValue else d.currentValue,
      p.aliases.GetOr(d.aliases))
  }

  /** `{...updates, ...later}`: the patch whose merge is merging `p` and then `q`. */
  function Then(p: DevicePatch, q: DevicePatch): DevicePatch
  {
    DevicePatch(
      if q.id.Some? then q.id else p.id,
      if q.name.Some? then q.name else p.name,
      if q.deviceType.Some? then q.deviceType else p.deviceType,
      if q.room.Some? then q.room else p.room,
      if q.isOn.Some? then q.isOn else p.isOn,
      if q.isFavorite.Some? then q.isFavorite else p.isFavorite,
      if q.status.Some? then q.status else p.status,
      if q.lastUsed.Some? then q.lastUsed else p.lastUsed,
      if q.brightness.Some? then q.brightness else p.brightness,
      if q.colorTemperature.Some? then q.colorTemperature else p.colorTemperature,
      if q.currentValue.Some? then q.currentValue else p.currentValue,
      if q.aliases.Some? then q.aliases else p.aliases)
  }

  /** Merging an empty `updates` object leaves the device as it was. */
  lemma MergeNothing(d: Device)
    ensures Merge(d, NoChanges) == d
  {
  }

  /** Merging the same updates twice is merging them once. */
  lemma MergeIdempotent(d: Device, p: DevicePatch)
    ensures Merge(Merge(d, p), p) == Merge(d, p)
  {
  }

  /** Two successive updates amount to one update with the later keys winning. */
  lemma MergeThen(d: Device, p: DevicePatch, q: DevicePatch)
    ensures Merge(Merge(d, p), q) == Merge(d, Then(p, q))
  {
  }

  /** New list after `toggleDevice(id, isOn)` at clock `now`. */
  function SetPower(ds: seq<Device>, id: string, isOn: bool, now: int): (r: seq<Device>)
    ensures |r| == |ds|
    ensures forall i :: 0 <= i < |ds| && ds[i].id == id ==>
      r[i].isOn == isOn && r[i].lastUsed == now && r[i].(isOn := ds[i].isOn, lastUsed := ds[i].lastUsed) == ds[i]
    ensures forall i :: 0 <= i < |ds| && ds[i].id != id ==> r[i] == ds[i]
  {
    Lists.UpdateWhere(ds, (d: Device) => d.id == id, (d: Device) => d.(isOn := isOn, lastUsed := now))
  }

  /** `toggleDevice` sets the power state rather than flipping it: a repeat changes only the timestamp. */
  lemma SetPowerTwice(ds: seq<Device>, id: string, isOn: bool, t1: int, t2: int)
    ensures SetPower(SetPower(ds, id, isOn, t1), id, isOn, t2) == SetPower(ds, id, isOn, t2)
  {
    var once := SetPower(ds, id, isOn, t1);
    var twice := SetPower(once, id, isOn, t2);
    assert forall i :: 0 <= i < |ds| ==> twice[i] == SetPower(ds, id, isOn, t2)[i];
  }

  /** New list after `favoriteDevice(id, isFavorite)`. */
  function SetFavorite(ds: seq<Device>, id: string, isFavorite: bool): (r: seq<Device>)
    ensures |r| == |ds|
    ensures forall i :: 0 <= i < |ds| && ds[i].id == id ==>
      r[i].isFavorite == isFavorite && r[i].(isFavorite := ds[i].isFavorite) == ds[i]
    ensures forall i :: 0 <= i < |ds| && ds[i].id != id ==> r[i] == ds[i]
  {
    Lists.UpdateWhere(ds, (d: Device) => d.id == id, (d: Device) => d.(isFavorite := isFavorite))
  }

  /** New list after `updateDevice(id, updates)`. */
  function Update(ds: seq<Device>, id: string, updates: DevicePatch): (r: seq<Device>)
    ensures |r| == |ds|
    ensures forall i :: 0 <= i < |ds| && ds[i].id == id ==> r[i] == Merge(ds[i], updates)
    ensures forall i :: 0 <= i < |ds| && ds[i].id != id ==> r[i] == ds[i]
  {
    Lists.UpdateWhere(ds, (d: Device) => d.id == id, (d: Device) => Merge(d, updates))
  }

  /** An id that matches no device leaves the list as it was, for every update-by-id action. */
  lemma UnknownIdChangesNothing(ds: seq<Device>, id: string, isOn: bool, now: int, f: bool, p: DevicePatch)
    requires forall i :: 0 <= i < |ds| ==> ds[i].id != id
    ensures SetPower(ds, id, isOn, now) == ds
    ensures SetFavorite(ds, id, f) == ds
    ensures Update(ds, id, p) == ds
  {
    assert forall i :: 0 <= i < |ds| ==> SetPower(ds, id, isOn, now)[i] == ds[i];
    assert forall i :: 0 <= i < |ds| ==> SetFavorite(ds, id, f)[i] == ds[i];
    assert forall i :: 0 <= i < |ds| ==> Update(ds, id, p)[i] == ds[i];
  }

  /** The id `addDevice` gives a device created at clock `now`: `Date.now().toString()`. */
  function FreshId(now: nat): (id: string)
    ensures id != [] && Text.AllDigits(id)
  {
    Text.NatToString(now)
  }

  /** Devices added at different instants get different ids. */
  lemma FreshIdsDiffer(t1: nat, t2: nat)
    requires t1 != t2
    ensures FreshId(t1) != FreshId(t2)
  {
    if FreshId(t1) == FreshId(t2) {
      Text.PrintInjective(t1, t2);
    }
  }

  /** New list after `addDevice(device)` at clock `now`. */
  function Add(ds: seq<Device>, device: Device, now: nat): (r: seq<Device>)
    ensures |r| == |ds| + 1 && r[..|ds|] == ds
    ensures r[|ds|].id == FreshId(now)
    ensures r[|ds|].(id := device.id) == device
  {
    ds + [device.(id := FreshId(now))]
  }

  /** New list after `removeDevice(id)`. */
  function Remove(ds: seq<Device>, id: string): (r: seq<Device>)
    ensures forall i :: 0 <= i < |r| ==> r[i].id != id && r[i] in ds
    ensures forall i :: 0 <= i < |ds| && ds[i].id != id ==> ds[i] in r
    ensures |r| == |ds| - Lists.Count(ds, (d: Device) => d.id == id)
  {
    Lists.FilterPartition(ds, (d: Device) => d.id != id, (d: Device) => d.id == id);
    Lists.Filter(ds, (d: Device) => d.id != id)
  }

  /** Removal keeps the surviving devices in their original order. */
  lemma RemoveKeepsOrder(ds: seq<Device>, id: string)
    ensures Lists.IsSubsequence(Remove(ds, id), ds)
  {
    Lists.FilterIsSubsequence(ds, (d: Device) => d.id != id);
  }

  /** Removing a device that was just added at a fresh instant gives back the list before. */
  lemma RemoveAdded(ds: seq<Device>, device: Device, now: nat)
    requires forall i :: 0 <= i < |ds| ==> ds[i].id != FreshId(now)
    ensures Remove(Add(ds, device, now), FreshId(now)) == ds
  {
    var p := (d: Device) => d.id != FreshId(now);
    var added := Add(ds, device, now);
    Lists.FilterAll(ds, p);
    assert added == ds + [added[|ds|]];
    Lists.FilterAppend(ds, [added[|ds|]], p);
  }

  /** The ten devices the store starts with, `lastUsed` counted back from the load instant `t`. */
  function Seed(t: int): seq<Device>
  {
    [
      Device("1", "Living Room Lights", "light", "Living Room", true, true, "online", t,
        Some(80), Some(4000), None, ["main lights", "living room"]),
      Device("2", "Kitchen Lights", "light", "Kitchen", false, false, "online", t - 3600000,
        Some(100), None, None, ["kitchen"]),
      Device("3", "Bedroom Thermostat", "thermostat", "Bedroom", true, true, "online", t - 7200000,
        None, None, Some(72), ["thermostat", "temperature"]),
      Device("4", "Front Door Lock", "lock", "Entrance", true, true, "online", t - 86400000,
        None, None, None, ["front door", "main door"]),
      Device("5", "Living Room Camera", "camera", "Living Room", true, false, "warning", t - 43200000,
        None, None, None, ["living room cam", "security camera"]),
      Device("6", "Kitchen Speaker", "speaker", "Kitchen", false, false, "online", t - 172800000,
        None, None, None, ["kitchen speaker", "sonos"]),
      Device("7", "Office Lights", "light", "Office", false, false, "online", t - 259200000,
        Some(90), Some(5000), None, ["office", "work lights"]),
      Device("8", "Bedroom Lights", "light", "Bedroom", false, false, "online", t - 345600000,
        Some(50), None, None, ["bedroom", "sleep lights"]),
      Device("9", "Bathroom Outlet", "outlet", "Bathroom", false, false, "error", t - 432000000,
        None, None, None, ["bathroom plug", "smart plug"]),
      Device("10", "Garage Door", "lock", "Garage", true, false, "online", t - 518400000,
        None, None, None, ["garage", "car door"])
    ]
  }

  /** Every seeded id is distinct, so each update-by-id action touches at most one seeded device. */
  lemma SeedIdsDistinct(t: int)
    ensures forall i, j :: 0 <= i < j < |Seed(t)| ==> Seed(t)[i].id != Seed(t)[j].id
  {
  }

  /** The store: one `devices` list, replaced by each action. */
  class DeviceStore {
    var devices: seq<Device>

    /** The store as loaded at instant `t`. */
    constructor (t: int)
      ensures devices == Seed(t)
    {
      devices := Seed(t);
    }

    /** `fetchDevices`: the current list, unmodified. */
    method FetchDevices() returns (r: seq<Device>)
      ensures r == devices
    {
      r := devices;
    }

    /** `toggleDevice(id, isOn)` at clock `now`. */
    method ToggleDevice(id: string, isOn: bool, now: int)
      modifies this
      ensures devices == SetPower(old(devices), id, isOn, now)
    {
      devices := SetPower(devices, id, isOn, now);
    }

    /** `favoriteDevice(id, isFavorite)`. */
    method FavoriteDevice(id: string, isFavorite: bool)
      modifies this
      ensures devices == SetFavorite(old(devices), id, isFavorite)
    {
      devices := SetFavorite(devices, id, isFavorite);
    }

    /** `addDevice(device)` at clock `now`. */
    method AddDevice(device: Device, now: nat)
      modifies this
      ensures devices == Add(old(devices), device, now)
    {
      devices := Add(devices, device, now);
    }

    /** `updateDevice(id, updates)`. */
    method UpdateDevice(id: string, updates: DevicePatch)
      modifies this
      ensures devices == Update(old(devices), id, updates)
    {
      devices := Update(devices, id, updates);
    }

    /** `removeDevice(id)`. */
    method RemoveDevice(id: string)
      modifies this
      ensures devices == Remove(old(devices), id)
    {
      devices := Remove(devices, id);
    }
  }
}
