/**
 * The device list screen: the choices of its two drop-downs and the filter
 * that combines the search box with the type and room selections.
 */
module DeviceList {
  import Lists
  import Text
  import Devices

  type Device = Devices.Device

  /** `devices.map(d => d.type)`. */
  function TypesOf(devices: seq<Device>): seq<string>
  {
    Lists.MapSeq(devices, (d: Device) => d.deviceType)
  }

  /** `devices.map(d => d.room)`. */
  function RoomsOf(devices: seq<Device>): seq<string>
  {
    Lists.MapSeq(devices, (d: Device) => d.room)
  }

  /** `deviceTypes`: 'all', then every device type once, in first-occurrence order. */
  function DeviceTypes(devices: seq<Device>): (r: seq<string>)
    ensures |r| >= 1 && r[0] == "all"
    ensures forall i :: 0 <= i < |devices| ==> devices[i].deviceType in r[1..]
    ensures forall k :: 1 <= k < |r| ==> exists i :: 0 <= i < |devices| && devices[i].deviceType == r[k]
    ensures forall k :: 1 <= k < |r| ==> r[k] in TypesOf(devices)
    ensures Lists.NoDuplicates(r[1..])
    ensures forall i, j :: 1 <= i < j < |r| ==>
      Lists.FirstIndex(TypesOf(devices), r[i]) < Lists.FirstIndex(TypesOf(devices), r[j])
  {
    var types := TypesOf(devices);
    var r := Lists.WithAll(types);
    assert forall k :: 1 <= k < |r| ==> r[k] in types;
    r
  }

  /** `rooms`: 'all', then every room name once, in first-occurrence order. */
  function RoomChoices(devices: seq<Device>): (r: seq<string>)
    ensures |r| >= 1 && r[0] == "all"
    ensures forall i :: 0 <= i < |devices| ==> devices[i].room in r[1..]
    ensures forall k :: 1 <= k < |r| ==> exists i :: 0 <= i < |devices| && devices[i].room == r[k]
    ensures forall k :: 1 <= k < |r| ==> r[k] in RoomsOf(devices)
    ensures Lists.NoDuplicates(r[1..])
    ensures forall i, j :: 1 <= i < j < |r| ==>
      Lists.FirstIndex(RoomsOf(devices), r[i]) < Lists.FirstIndex(RoomsOf(devices), r[j])
  {
    var names := RoomsOf(devices);
    var r := Lists.WithAll(names);
    assert forall k :: 1 <= k < |r| ==> r[k] in names;
    r
  }

  /** The three tests a device must pass to be listed. */
  predicate Passes(d: Device, query: string, filterType: string, filterRoom: string)
  {
    (Text.ContainsIgnoringCase(d.name, query) || Text.ContainsIgnoringCase(d.room, query)) &&
    (filterType == "all" || d.deviceType == filterType) &&
    (filterRoom == "all" || d.room == filterRoom)
  }

  function PassesFn(query: string, filterType: string, filterRoom: string): Device -> bool
  {
    (d: Device) => Passes(d, query, filterType, filterRoom)
  }

  /** `filteredDevices`. */
  function Visible(devices: seq<Device>, query: string, filterType: string, filterRoom: string): (r: seq<Device>)
    ensures forall d :: d in r <==> d in devices && Passes(d, query, filterType, filterRoom)
  {
    Lists.Filter(devices, PassesFn(query, filterType, filterRoom))
  }

  /** The listed devices keep the order of the store. */
  lemma VisibleInOrder(devices: seq<Device>, query: string, filterType: string, filterRoom: string)
    ensures Lists.IsSubsequence(Visible(devices, query, filterType, filterRoom), devices)
  {
    Lists.FilterIsSubsequence(devices, PassesFn(query, filterType, filterRoom));
  }

  /** An empty search with both drop-downs on 'all' lists every device, in order. */
  lemma NoFilterShowsAll(devices: seq<Device>)
    ensures Visible(devices, "", "all", "all") == devices
  {
    forall i | 0 <= i < |devices| ensures Passes(devices[i], "", "all", "all") {
      Text.EmptyQueryMatches(devices[i].name);
    }
    Lists.FilterAll(devices, PassesFn("", "all", "all"));
  }

  /**
   * Narrowing the selection (a specific type or room instead of 'all', or a
   * search text that contains the previous one) selects from what was listed
   * before, so the list never grows.
   */
  lemma NarrowingShrinks(devices: seq<Device>, q1: string, t1: string, r1: string, q2: string, t2: string, r2: string)
    requires Text.Includes(Text.Lower(q2), Text.Lower(q1))
    requires t1 == "all" || t1 == t2
    requires r1 == "all" || r1 == r2
    ensures Visible(devices, q2, t2, r2) == Lists.Filter(Visible(devices, q1, t1, r1), PassesFn(q2, t2, r2))
    ensures |Visible(devices, q2, t2, r2)| <= |Visible(devices, q1, t1, r1)|
  {
    forall i | 0 <= i < |devices| && Passes(devices[i], q2, t2, r2) ensures Passes(devices[i], q1, t1, r1) {
      if Text.ContainsIgnoringCase(devices[i].name, q2) {
        Text.LongerQueryNarrows(devices[i].name, q1, q2);
      } else {
        Text.LongerQueryNarrows(devices[i].room, q1, q2);
      }
    }
    Lists.FilterNarrow(devices, PassesFn(q2, t2, r2), PassesFn(q1, t1, r1));
  }
}
