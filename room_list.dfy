/** The room list: the room-type drop-down and the name search. */
module RoomList {
  import Lists
  import Text
  import Rooms

  type Room = Rooms.Room

  /** `rooms.map(r => r.type)`. */
  function TypesOf(rooms: seq<Room>): seq<string>
  {
    Lists.MapSeq(rooms, (x: Room) => x.roomType)
  }

  /** `roomTypes`: 'all', then every room type once, in first-occurrence order. */
  function RoomTypes(rooms: seq<Room>): (r: seq<string>)
    ensures |r| >= 1 && r[0] == "all"
    ensures forall i :: 0 <= i < |rooms| ==> rooms[i].roomType in r[1..]
    ensures forall k :: 1 <= k < |r| ==> exists i :: 0 <= i < |rooms| && rooms[i].roomType == r[k]
    ensures forall k :: 1 <= k < |r| ==> r[k] in TypesOf(rooms)
    ensures Lists.NoDuplicates(r[1..])
    ensures forall i, j :: 1 <= i < j < |r| ==>
      Lists.FirstIndex(TypesOf(rooms), r[i]) < Lists.FirstIndex(TypesOf(rooms), r[j])
  {
    var types := TypesOf(rooms);
    var r := Lists.WithAll(types);
    assert forall k :: 1 <= k < |r| ==> r[k] in types;
    r
  }

  /** A room is listed when its name contains the query ignoring case and the type filter allows it. */
  predicate Passes(r: Room, query: string, filterType: string)
  {
    Text.ContainsIgnoringCase(r.name, query) && (filterType == "all" || r.roomType == filterType)
  }

  function PassesFn(query: string, filterType: string): Room -> bool
  {
    (r: Room) => Passes(r, query, filterType)
  }

  /** `filteredRooms`. */
  function Visible(rooms: seq<Room>, query: string, filterType: string): (r: seq<Room>)
    ensures forall x :: x in r <==> x in rooms && Passes(x, query, filterType)
  {
    Lists.Filter(rooms, PassesFn(query, filterType))
  }

  /** The listed rooms keep the store's order. */
  lemma VisibleInOrder(rooms: seq<Room>, query: string, filterType: string)
    ensures Lists.IsSubsequence(Visible(rooms, query, filterType), rooms)
  {
    Lists.FilterIsSubsequence(rooms, PassesFn(query, filterType));
  }

  /** An empty search with the type filter on 'all' lists every room, in order. */
  lemma NoFilterShowsAll(rooms: seq<Room>)
    ensures Visible(rooms, "", "all") == rooms
  {
    forall i | 0 <= i < |rooms| ensures Passes(rooms[i], "", "all") {
      Text.EmptyQueryMatches(rooms[i].name);
    }
    Lists.FilterAll(rooms, PassesFn("", "all"));
  }

  /** Choosing a type, or extending the query, lists a selection of what was listed before. */
  lemma NarrowingShrinks(rooms: seq<Room>, q1: string, t1: string, q2: string, t2: string)
    requires Text.Includes(Text.Lower(q2), Text.Lower(q1))
    requires t1 == "all" || t1 == t2
    ensures Visible(rooms, q2, t2) == Lists.Filter(Visible(rooms, q1, t1), PassesFn(q2, t2))
    ensures |Visible(rooms, q2, t2)| <= |Visible(rooms, q1, t1)|
  {
    forall i | 0 <= i < |rooms| && Passes(rooms[i], q2, t2) ensures Passes(rooms[i], q1, t1) {
      Text.LongerQueryNarrows(rooms[i].name, q1, q2);
    }
    Lists.FilterNarrow(rooms, PassesFn(q2, t2), PassesFn(q1, t1));
  }
}
