/**
 * The energy screen's device table: each device joined with its energy
 * figures, filtered by the search box and the type drop-down, and sorted by
 * usage or by name in the direction the column headers select.
 *
 * Usage and cost are fractional kWh and dollar figures in the application;
 * here they are integers in a fixed unit (hundredths), which keeps their
 * order and their zero default.
 */
module DeviceEnergyList {
  import opened Wrappers
  import Lists
  import Text
  import Devices
  import DeviceList

  type Device = Devices.Device

  /** An entry of the energy store's `deviceEnergy` list. */
  datatype EnergyEntry = EnergyEntry(deviceId: string, usage: int, cost: int)

  /** `{...device, energy, cost}`: the device with its energy figures beside it. */
  datatype EnergyRow = EnergyRow(device: Device, energy: int, cost: int)

  function ForDevice(id: string): EnergyEntry -> bool
  {
    (e: EnergyEntry) => e.deviceId == id
  }

  /**
   * One device's row: the first energy entry with the device's id supplies the
   * figures, and a device without one gets usage 0 and cost 0.
   */
  function JoinOne(d: Device, entries: seq<EnergyEntry>): (row: EnergyRow)
    ensures row.device == d
    ensures (forall k :: 0 <= k < |entries| ==> entries[k].deviceId != d.id) ==> row.energy == 0 && row.cost == 0
    ensures (exists k :: 0 <= k < |entries| && entries[k].deviceId == d.id) ==>
              exists k :: 0 <= k < |entries| && entries[k].deviceId == d.id &&
                (forall j :: 0 <= j < k ==> entries[j].deviceId != d.id) &&
                row.energy == entries[k].usage && row.cost == entries[k].cost
  {
    match Lists.FindFirst(entries, ForDevice(d.id))
    case Some(k) => EnergyRow(d, entries[k].usage, entries[k].cost)
    case None => EnergyRow(d, 0, 0)
  }

  /** `devicesWithEnergy`: one row per device, in store order. */
  function Join(devices: seq<Device>, entries: seq<EnergyEntry>): (rows: seq<EnergyRow>)
    ensures |rows| == |devices|
    ensures forall i :: 0 <= i < |devices| ==> rows[i] == JoinOne(devices[i], entries)
  {
    Lists.MapSeq(devices, (d: Device) => JoinOne(d, entries))
  }

  /** Joining keeps every device field: dropping the figures gives the store's list back. */
  lemma JoinKeepsDevices(devices: seq<Device>, entries: seq<EnergyEntry>)
    ensures Lists.MapSeq(Join(devices, entries), (row: EnergyRow) => row.device) == devices
  {
  }

  /** `deviceTypes`: 'all', then each device type once, in first-occurrence order. */
  function DeviceTypes(devices: seq<Device>): (r: seq<string>)
    ensures |r| >= 1 && r[0] == "all"
    ensures forall i :: 0 <= i < |devices| ==> devices[i].deviceType in r[1..]
    ensures forall k :: 1 <= k < |r| ==> exists i :: 0 <= i < |devices| && devices[i].deviceType == r[k]
    ensures forall k :: 1 <= k < |r| ==> r[k] in DeviceList.TypesOf(devices)
    ensures Lists.NoDuplicates(r[1..])
    ensures forall i, j :: 1 <= i < j < |r| ==>
      Lists.FirstIndex(DeviceList.TypesOf(devices), r[i]) < Lists.FirstIndex(DeviceList.TypesOf(devices), r[j])
  {
    var types := DeviceList.TypesOf(devices);
    var r := Lists.WithAll(types);
    assert forall k :: 1 <= k < |r| ==> r[k] in types;
    r
  }

  /** The search (name or room, ignoring case) and the type drop-down. */
  predicate Passes(row: EnergyRow, query: string, filterType: string)
  {
    (Text.ContainsIgnoringCase(row.device.name, query) || Text.ContainsIgnoringCase(row.device.room, query)) &&
    (filterType == "all" || row.device.deviceType == filterType)
  }

  function PassesFn(query: string, filterType: string): EnergyRow -> bool
  {
    (row: EnergyRow) => Passes(row, query, filterType)
  }

  /**
   * The sort comparator as an order: `a` may precede `b` when the comparator
   * gives a non-positive result. Usage compares the energy figures, name the
   * names; 'desc' reverses either; any other field compares everything equal.
   */
  function Before(sortBy: string, sortOrder: string): (EnergyRow, EnergyRow) -> bool
  {
    (a: EnergyRow, b: EnergyRow) =>
      if sortBy == "usage" then
        (if sortOrder == "desc" then b.energy <= a.energy else a.energy <= b.energy)
      else if sortBy == "name" then
        (if sortOrder == "desc" then Text.NoLaterThan(b.device.name, a.device.name)
         else Text.NoLaterThan(a.device.name, b.device.name))
      else true
  }

  /** Every choice of field and direction gives a consistent comparator. */
  lemma BeforeIsPreorder(rows: seq<EnergyRow>, sortBy: string, sortOrder: string)
    ensures Lists.TotalPreorderOn(rows, Before(sortBy, sortOrder))
  {
    var le := Before(sortBy, sortOrder);
    if sortBy == "name" {
      forall a, b | a in rows && b in rows ensures le(a, b) || le(b, a) {
        Text.NoLaterThanTotal(a.device.name, b.device.name);
      }
      forall a, b, c | a in rows && b in rows && c in rows && le(a, b) && le(b, c) ensures le(a, c) {
        if sortOrder == "desc" {
          Text.NoLaterThanTransitive(c.device.name, b.device.name, a.device.name);
        } else {
          Text.NoLaterThanTransitive(a.device.name, b.device.name, c.device.name);
        }
      }
    }
  }

  /** What the order of a sorted list means for each field and direction. */
  lemma SortedMeaning(rows: seq<EnergyRow>, sortBy: string, sortOrder: string)
    requires Lists.SortedBy(rows, Before(sortBy, sortOrder))
    ensures sortBy == "usage" && sortOrder == "desc" ==> forall i, j :: 0 <= i < j < |rows| ==> rows[i].energy >= rows[j].energy
    ensures sortBy == "usage" && sortOrder != "desc" ==> forall i, j :: 0 <= i < j < |rows| ==> rows[i].energy <= rows[j].energy
    ensures sortBy == "name" && sortOrder == "desc" ==>
              forall i, j :: 0 <= i < j < |rows| ==> Text.NoLaterThan(rows[j].device.name, rows[i].device.name)
    ensures sortBy == "name" && sortOrder != "desc" ==>
              forall i, j :: 0 <= i < j < |rows| ==> Text.NoLaterThan(rows[i].device.name, rows[j].device.name)
  {
    var le := Before(sortBy, sortOrder);
    assert forall i, j :: 0 <= i < j < |rows| ==> le(rows[i], rows[j]);
  }

  /** Sorting on a field the comparator does not know leaves the rows where they were. */
  lemma UnknownFieldKeepsOrder(rows: seq<EnergyRow>, sortBy: string, sortOrder: string)
    requires Lists.TotalPreorderOn(rows, Before(sortBy, sortOrder))
    ensures sortBy != "usage" && sortBy != "name" ==> Lists.SortBy(rows, Before(sortBy, sortOrder)) == rows
  {
    if sortBy != "usage" && sortBy != "name" {
      Lists.SortByAllEqual(rows, Before(sortBy, sortOrder));
    }
  }

  /**
   * `filteredDevices`: exactly the joined rows that pass the filters, reordered
   * (a permutation) so that they follow the chosen field and direction; an
   * unknown field keeps the store's order.
   */
  function FilteredDevices(devices: seq<Device>, entries: seq<EnergyEntry>, query: string, filterType: string,
                           sortBy: string, sortOrder: string): (r: seq<EnergyRow>)
    ensures multiset(r) == multiset(Lists.Filter(Join(devices, entries), PassesFn(query, filterType)))
    ensures forall row :: row in r <==> row in Join(devices, entries) && Passes(row, query, filterType)
    ensures sortBy == "usage" && sortOrder == "desc" ==> forall i, j :: 0 <= i < j < |r| ==> r[i].energy >= r[j].energy
    ensures sortBy == "usage" && sortOrder != "desc" ==> forall i, j :: 0 <= i < j < |r| ==> r[i].energy <= r[j].energy
    ensures sortBy == "name" && sortOrder == "desc" ==>
              forall i, j :: 0 <= i < j < |r| ==> Text.NoLaterThan(r[j].device.name, r[i].device.name)
    ensures sortBy == "name" && sortOrder != "desc" ==>
              forall i, j :: 0 <= i < j < |r| ==> Text.NoLaterThan(r[i].device.name, r[j].device.name)
    ensures sortBy != "usage" && sortBy != "name" ==> r == Lists.Filter(Join(devices, entries), PassesFn(query, filterType))
  {
    var kept := Lists.Filter(Join(devices, entries), PassesFn(query, filterType));
    BeforeIsPreorder(kept, sortBy, sortOrder);
    UnknownFieldKeepsOrder(kept, sortBy, sortOrder);
    var r := Lists.SortBy(kept, Before(sortBy, sortOrder));
    SortedMeaning(r, sortBy, sortOrder);
    MembersOfPermutation(r, kept);
    r
  }

  lemma MembersOfPermutation<T>(r: seq<T>, s: seq<T>)
    requires multiset(r) == multiset(s)
    ensures forall x :: x in r <==> x in s
  {
    forall x ensures x in r <==> x in s {
      assert x in r <==> x in multiset(r);
      assert x in s <==> x in multiset(s);
    }
  }

  /** The two directions of one field list the same rows. */
  lemma DirectionKeepsRows(devices: seq<Device>, entries: seq<EnergyEntry>, query: string, filterType: string, sortBy: string)
    ensures multiset(FilteredDevices(devices, entries, query, filterType, sortBy, "asc")) ==
            multiset(FilteredDevices(devices, entries, query, filterType, sortBy, "desc"))
  {
  }

  /** The state behind the column headers: the field sorted on and its direction. */
  datatype SortState = SortState(field: string, order: string)

  const InitialSort := SortState("usage", "desc")

  predicate ValidOrder(s: SortState) { s.order == "asc" || s.order == "desc" }

  /**
   * `toggleSort(field)`: the current field flips its direction ('asc' becomes
   * 'desc', anything else 'asc'); another field is selected with 'desc'.
   */
  function NextSort(s: SortState, field: string): (t: SortState)
    ensures t.field == field && ValidOrder(t)
  {
    if s.field == field then SortState(field, if s.order == "asc" then "desc" else "asc")
    else SortState(field, "desc")
  }

  /** Clicking the current column twice restores its direction. */
  lemma SameFieldTwiceRestores(s: SortState)
    requires ValidOrder(s)
    ensures NextSort(NextSort(s, s.field), s.field) == s
    ensures NextSort(s, s.field).order != s.order
  {
  }

  /** Clicking a new column sorts it descending; clicking it again sorts it ascending. */
  lemma NewFieldStartsDescending(s: SortState, field: string)
    requires field != s.field
    ensures NextSort(s, field) == SortState(field, "desc")
    ensures NextSort(NextSort(s, field), field) == SortState(field, "asc")
  {
  }

  /** The component state this model keeps: search text, type filter and sort. */
  class EnergyListView {
    var searchQuery: string
    var filterType: string
    var sort: SortState

    constructor ()
      ensures searchQuery == "" && filterType == "all" && sort == InitialSort
    {
      searchQuery, filterType, sort := "", "all", InitialSort;
    }

    /** The rows the table shows for the store's current lists. */
    function Shown(devices: seq<Device>, entries: seq<EnergyEntry>): seq<EnergyRow>
      reads this
    {
      FilteredDevices(devices, entries, searchQuery, filterType, sort.field, sort.order)
    }

    /** `toggleSort(field)`; the search and type filter stay as they are. */
    method ToggleSort(field: string)
      modifies this
      ensures sort == NextSort(old(sort), field)
      ensures searchQuery == old(searchQuery) && filterType == old(filterType)
    {
      sort := NextSort(sort, field);
    }
  }
}
