/**
 * The room store: the list of rooms and the actions that replace it with an
 * updated copy. Device counts are stored numbers that no action recomputes.
 */
module Rooms {
  import opened Wrappers
  import Lists
  import Text

  datatype Room = Room(
    id: string,
    name: string,
    roomType: string,
    deviceCount: int,
    activeDevices: int,
    temperature: int,
    humidity: int,
    isFavorite: bool,
    floor: string)

  /** The `updates` object of `updateRoom`: each present field overrides the room's. */
  datatype RoomPatch = RoomPatch(
    id: Option<string>,
    name: Option<string>,
    roomType: Option<string>,
    deviceCount: Option<int>,
    activeDevices: Option<int>,
    temperature: Option<int>,
    humidity: Option<int>,
    isFavorite: Option<bool>,
    floor: Option<string>)

  /** `{...room, ...updates}`: every field the updates carry wins, every other field is the room's. */
  function Merge(r: Room, p: RoomPatch): (m: Room)
    ensures m.id == (if p.id.Some? then p.id.value else r.id)
    ensures m.name == (if p.name.Some? then p.name.value else r.name)
    ensures m.roomType == (if p.roomType.Some? then p.roomType.value else r.roomType)
    ensures m.deviceCount == (if p.deviceCount.Some? then p.deviceCount.value else r.deviceCount)
    ensures m.activeDevices == (if p.activeDevices.Some? then p.activeDevices.value else r.activeDevices)
    ensures m.temperature == (if p.temperature.Some? then p.temperature.value else r.temperature)
    ensures m.humidity == (if p.humidity.Some? then p.humidity.value else r.humidity)
    ensures m.isFavorite == (if p.isFavorite.Some? then p.isFavorite.value else r.isFavorite)
    ensures m.floor == (if p.floor.Some? then p.floor.value else r.floor)
  {
    Room(
      p.id.GetOr(r.id), p.name.GetOr(r.name), p.roomType.GetOr(r.roomType),
      p.deviceCount.GetOr(r.deviceCount), p.activeDevices.GetOr(r.activeDevices),
      p.temperature.GetOr(r.temperature), p.humidity.GetOr(r.humidity),
      p.isFavorite.GetOr(r.isFavorite), p.floor.GetOr(r.floor))
  }

  /** An update that does not name the counts leaves them as stored. */
  lemma MergeKeepsCounts(r: Room, p: RoomPatch)
    requires p.deviceCount.None? && p.activeDevices.None?
    ensures Merge(r, p).deviceCount == r.deviceCount && Merge(r, p).activeDevices == r.activeDevices
  {
  }

  /** New list after `favoriteRoom(id, isFavorite)`. */
  function SetFavorite(rs: seq<Room>, id: string, isFavorite: bool): (r: seq<Room>)
    ensures |r| == |rs|
    ensures forall i :: 0 <= i < |rs| && rs[i].id == id ==>
      r[i].isFavorite == isFavorite && r[i].(isFavorite := rs[i].isFavorite) == rs[i]
    ensures forall i :: 0 <= i < |rs| && rs[i].id != id ==> r[i] == rs[i]
  {
    Lists.UpdateWhere(rs, (x: Room) => x.id == id, (x: Room) => x.(isFavorite := isFavorite))
  }

  /** New list after `updateRoom(id, updates)`. */
  function Update(rs: seq<Room>, id: string, updates: RoomPatch): (r: seq<Room>)
    ensures |r| == |rs|
    ensures forall i :: 0 <= i < |rs| && rs[i].id == id ==> r[i] == Merge(rs[i], updates)
    ensures forall i :: 0 <= i < |rs| && rs[i].id != id ==> r[i] == rs[i]
  {
    Lists.UpdateWhere(rs, (x: Room) => x.id == id, (x: Room) => Merge(x, updates))
  }

  /** New list after `addRoom(room)` at clock `now`. */
  function Add(rs: seq<Room>, room: Room, now: nat): (r: seq<Room>)
    ensures |r| == |rs| + 1 && r[..|rs|] == rs
    ensures r[|rs|].id == Text.NatToString(now)
    ensures r[|rs|].(id := room.id) == room
  {
    rs + [room.(id := Text.NatToString(now))]
  }

  /** New list after `removeRoom(id)`. */
  function Remove(rs: seq<Room>, id: string): (r: seq<Room>)
    ensures forall i :: 0 <= i < |r| ==> r[i].id != id && r[i] in rs
    ensures forall i :: 0 <= i < |rs| && rs[i].id != id ==> rs[i] in r
    ensures |r| == |rs| - Lists.Count(rs, (x: Room) => x.id == id)
  {
    Lists.FilterPartition(rs, (x: Room) => x.id != id, (x: Room) => x.id == id);
    Lists.Filter(rs, (x: Room) => x.id != id)
  }

  /** Removal keeps the surviving rooms in their original order. */
  lemma RemoveKeepsOrder(rs: seq<Room>, id: string)
    ensures Lists.IsSubsequence(Remove(rs, id), rs)
  {
    Lists.FilterIsSubsequence(rs, (x: Room) => x.id != id);
  }

  /** Favouriting never touches the stored device counts of any room. */
  lemma {:induction false} SetFavoriteKeepsCounts(rs: seq<Room>, id: string, f: bool)
    ensures Lists.MapSeq(SetFavorite(rs, id, f), (x: Room) => (x.deviceCount, x.activeDevices))
         == Lists.MapSeq(rs, (x: Room) => (x.deviceCount, x.activeDevices))
  {
    var r := SetFavorite(rs, id, f);
    var a := Lists.MapSeq(r, (x: Room) => (x.deviceCount, x.activeDevices));
    var b := Lists.MapSeq(rs, (x: Room) => (x.deviceCount, x.activeDevices));
    forall i | 0 <= i < |rs| ensures a[i] == b[i] {
      if rs[i].id == id {
        assert r[i].(isFavorite := rs[i].isFavorite) == rs[i];
      }
    }
  }

  /** The six rooms the store starts with. */
  function Seed(): seq<Room>
  {
    [
      Room("1", "Living Room", "living", 3, 2, 72, 45, true, "1"),
      Room("2", "Kitchen", "kitchen", 2, 0, 74, 50, false, "1"),
      Room("3", "Bedroom", "bedroom", 2, 1, 70, 40, true, "2"),
      Room("4", "Bathroom", "bathroom", 1, 0, 73, 60, false, "2"),
      Room("5", "Office", "office", 1, 0, 71, 45, false, "1"),
      Room("6", "Garage", "other", 1, 1, 68, 55, false, "1")
    ]
  }

  /** The store: one `rooms` list, replaced by each action. */
  class RoomStore {
    var rooms: seq<Room>

    constructor ()
      ensures rooms == Seed()
    {
      rooms := Seed();
    }

    /** `fetchRooms`: the current list, unmodified. */
    method FetchRooms() returns (r: seq<Room>)
      ensures r == rooms
    {
      r := rooms;
    }

    /** `favoriteRoom(id, isFavorite)`. */
    method FavoriteRoom(id: string, isFavorite: bool)
      modifies this
      ensures rooms == SetFavorite(old(rooms), id, isFavorite)
    {
      rooms := SetFavorite(rooms, id, isFavorite);
    }

    /** `addRoom(room)` at clock `now`. */
    method AddRoom(room: Room, now: nat)
      modifies this
      ensures rooms == Add(old(rooms), room, now)
    {
      rooms := Add(rooms, room, now);
    }

    /** `updateRoom(id, updates)`. */
    method UpdateRoom(id: string, updates: RoomPatch)
      modifies this
      ensures rooms == Update(old(rooms), id, updates)
    {
      rooms := Update(rooms, id, updates);
    }

    /** `removeRoom(id)`: only this store changes; the devices of the room stay where they are. */
    method RemoveRoom(id: string)
      modifies this
      ensures rooms == Remove(old(rooms), id)
    {
      rooms := Remove(rooms, id);
    }
  }
}
