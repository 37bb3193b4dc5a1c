/**
 * The routine store: the list of routines, the icon lookup, and the actions
 * that replace the list with an updated copy. Running a routine only records
 * that it ran; nothing here talks to a device.
 */
module Routines {
  import opened Wrappers
  import Lists
  import Text

  /** A routine's `schedule`: a string, `null` (manual), or absent altogether. */
  datatype Schedule = Null | Undefined | Text(text: string)
  {
    /** JavaScript truthiness: only a non-empty string is truthy. */
    predicate Truthy()
    {
      Text? && text != ""
    }
  }

  /** One step of a routine: which devices and after how long. */
  datatype Action = Action(deviceIds: seq<string>, delay: int)

  datatype Routine = Routine(
    id: string,
    name: string,
    schedule: Schedule,
    timesExecuted: int,
    isFavorite: bool,
    iconName: string,
    created: string,
    lastRun: string,
    actions: seq<Action>,
    aliases: seq<string>)

  /** The icon components the store can hand out. */
  datatype Icon = WbSunny | Nightlight | Home | DirectionsCar | Movie | FreeBreakfast

  /** The name under which each icon is stored in a routine's `iconName`. */
  function IconName(icon: Icon): string
  {
    match icon
    case WbSunny => "MdWbSunny"
    case Nightlight => "MdNightlight"
    case Home => "MdHome"
    case DirectionsCar => "MdDirectionsCar"
    case Movie => "MdMovie"
    case FreeBreakfast => "MdFreeBreakfast"
  }

  /** `getIconComponent(iconName)`: the mapped icon, or the sun for any other name. */
  function IconFor(iconName: string): (icon: Icon)
    ensures IconName(icon) == iconName || icon == WbSunny
    ensures (forall i: Icon :: IconName(i) != iconName) ==> icon == WbSunny
  {
    if iconName == "MdNightlight" then Nightlight
    else if iconName == "MdHome" then Home
    else if iconName == "MdDirectionsCar" then DirectionsCar
    else if iconName == "MdMovie" then Movie
    else if iconName == "MdFreeBreakfast" then FreeBreakfast
    else WbSunny
  }

  /** Looking up the stored name of an icon gives that icon back. */
  lemma IconRoundTrip(icon: Icon)
    ensures IconFor(IconName(icon)) == icon
  {
  }

  /** The `updates` object of `updateRoutine`: each present field overrides the routine's. */
  datatype RoutinePatch = RoutinePatch(
    id: Option<string>,
    name: Option<string>,
    schedule: Option<Schedule>,
    timesExecuted: Option<int>,
    isFavorite: Option<bool>,
    iconName: Option<string>,
    created: Option<string>,
    lastRun: Option<string>,
    actions: Option<seq<Action>>,
    aliases: Option<seq<string>>)

  /** `{...routine, ...updates}`: every field the updates carry wins, every other field is the routine's. */
  function Merge(r: Routine, p: RoutinePatch): (m: Routine)
    ensures m.id == (if p.id.Some? then p.id.value else r.id)
    ensures m.name == (if p.name.Some? then p.name.value else r.name)
    ensures m.schedule == (if p.schedule.Some? then p.schedule.value else r.schedule)
    ensures m.timesExecuted == (if p.timesExecuted.Some? then p.timesExecuted.value else r.timesExecuted)
    ensures m.isFavorite == (if p.isFavorite.Some? then p.isFavorite.value else r.isFavorite)
    ensures m.iconName == (if p.iconName.Some? then p.iconName.value else r.iconName)
    ensures m.created == (if p.created.Some? then p.created.value else r.created)
    ensures m.lastRun == (if p.lastRun.Some? then p.lastRun.value else r.lastRun)
    ensures m.actions == (if p.actions.Some? then p.actions.value else r.actions)
    ensures m.aliases == (if p.aliases.Some? then p.aliases.value else r.aliases)
  {
    Routine(
      p.id.GetOr(r.id), p.name.GetOr(r.name), p.schedule.GetOr(r.schedule),
      p.timesExecuted.GetOr(r.timesExecuted), p.isFavorite.GetOr(r.isFavorite),
      p.iconName.GetOr(r.iconName), p.created.GetOr(r.created), p.lastRun.GetOr(r.lastRun),
      p.actions.GetOr(r.actions), p.aliases.GetOr(r.aliases))
  }

  /** Merging the same updates twice is merging them once. */
  lemma MergeIdempotent(r: Routine, p: RoutinePatch)
    ensures Merge(Merge(r, p), p) == Merge(r, p)
  {
  }

  /**
   * New list after `executeRoutine(id)`: the matching routines gain one run and
   * a `lastRun` of 'Just now'; no other field and no other routine changes.
   */
  function Execute(rs: seq<Routine>, id: string): (r: seq<Routine>)
    ensures |r| == |rs|
    ensures forall i :: 0 <= i < |rs| && rs[i].id == id ==>
      r[i].timesExecuted == rs[i].timesExecuted + 1 && r[i].lastRun == "Just now" &&
      r[i].(timesExecuted := rs[i].timesExecuted, lastRun := rs[i].lastRun) == rs[i]
    ensures forall i :: 0 <= i < |rs| && rs[i].id != id ==> r[i] == rs[i]
  {
    Lists.UpdateWhere(rs, (x: Routine) => x.id == id,
      (x: Routine) => x.(lastRun := "Just now", timesExecuted := x.timesExecuted + 1))
  }

  /** Running a routine twice counts two runs: nothing guards against a second run. */
  lemma {:induction false} ExecuteTwice(rs: seq<Routine>, id: string)
    ensures |Execute(Execute(rs, id), id)| == |rs|
    ensures forall i :: 0 <= i < |rs| && rs[i].id == id ==>
      Execute(Execute(rs, id), id)[i].timesExecuted == rs[i].timesExecuted + 2
    ensures forall i :: 0 <= i < |rs| ==> Execute(Execute(rs, id), id)[i].actions == rs[i].actions
  {
    var once := Execute(rs, id);
    assert forall i :: 0 <= i < |rs| ==> once[i].id == rs[i].id && once[i].actions == rs[i].actions;
  }

  /** Running an unknown routine changes nothing. */
  lemma ExecuteUnknown(rs: seq<Routine>, id: string)
    requires forall i :: 0 <= i < |rs| ==> rs[i].id != id
    ensures Execute(rs, id) == rs
  {
    assert forall i :: 0 <= i < |rs| ==> Execute(rs, id)[i] == rs[i];
  }

  /** New list after `favoriteRoutine(id, isFavorite)`. */
  function SetFavorite(rs: seq<Routine>, id: string, isFavorite: bool): (r: seq<Routine>)
    ensures |r| == |rs|
    ensures forall i :: 0 <= i < |rs| && rs[i].id == id ==>
      r[i].isFavorite == isFavorite && r[i].(isFavorite := rs[i].isFavorite) == rs[i]
    ensures forall i :: 0 <= i < |rs| && rs[i].id != id ==> r[i] == rs[i]
  {
    Lists.UpdateWhere(rs, (x: Routine) => x.id == id, (x: Routine) => x.(isFavorite := isFavorite))
  }

  /** New list after `updateRoutine(id, updates)`. */
  function Update(rs: seq<Routine>, id: string, updates: RoutinePatch): (r: seq<Routine>)
    ensures |r| == |rs|
    ensures forall i :: 0 <= i < |rs| && rs[i].id == id ==> r[i] == Merge(rs[i], updates)
    ensures forall i :: 0 <= i < |rs| && rs[i].id != id ==> r[i] == rs[i]
  {
    Lists.UpdateWhere(rs, (x: Routine) => x.id == id, (x: Routine) => Merge(x, updates))
  }

  /**
   * New list after `addRoutine(routine)` at clock `now`: the id, run count,
   * creation label and last-run label are always the store's, whatever the
   * argument carried; every other field comes from the argument.
   */
  function Add(rs: seq<Routine>, routine: Routine, now: nat): (r: seq<Routine>)
    ensures |r| == |rs| + 1 && r[..|rs|] == rs
    ensures r[|rs|].id == Text.NatToString(now)
    ensures r[|rs|].timesExecuted == 0 && r[|rs|].created == "Just now" && r[|rs|].lastRun == "Never"
    ensures r[|rs|].(id := routine.id, timesExecuted := routine.timesExecuted,
                     created := routine.created, lastRun := routine.lastRun) == routine
  {
    rs + [routine.(id := Text.NatToString(now), timesExecuted := 0, created := "Just now", lastRun := "Never")]
  }

  /** New list after `removeRoutine(id)`. */
  function Remove(rs: seq<Routine>, id: string): (r: seq<Routine>)
    ensures forall i :: 0 <= i < |r| ==> r[i].id != id && r[i] in rs
    ensures forall i :: 0 <= i < |rs| && rs[i].id != id ==> rs[i] in r
    ensures |r| == |rs| - Lists.Count(rs, (x: Routine) => x.id == id)
  {
    Lists.FilterPartition(rs, (x: Routine) => x.id != id, (x: Routine) => x.id == id);
    Lists.Filter(rs, (x: Routine) => x.id != id)
  }

  /** Removal keeps the surviving routines in their original order. */
  lemma RemoveKeepsOrder(rs: seq<Routine>, id: string)
    ensures Lists.IsSubsequence(Remove(rs, id), rs)
  {
    Lists.FilterIsSubsequence(rs, (x: Routine) => x.id != id);
  }

  /** The six routines the store starts with. */
  function Seed(): seq<Routine>
  {
    [
      Routine("1", "Good Morning", Text("Weekdays, 7:00 AM"), 42, true, "MdWbSunny",
        "2 months ago", "Today, 7:00 AM",
        [Action(["1"], 0), Action(["2"], 5), Action(["3"], 0), Action(["6"], 10)],
        ["morning", "wake up"]),
      Routine("2", "Good Night", Text("Daily, 11:00 PM"), 38, true, "MdNightlight",
        "2 months ago", "Yesterday, 11:00 PM",
        [Action(["1", "2", "7", "8"], 0), Action(["3"], 0), Action(["4", "10"], 5)],
        ["night", "sleep"]),
      Routine("3", "I'm Home", Null, 27, false, "MdHome",
        "1 month ago", "Yesterday, 6:15 PM",
        [Action(["1"], 0), Action(["3"], 0), Action(["2"], 0)],
        ["arrived", "home"]),
      Routine("4", "Leaving Home", Null, 25, false, "MdDirectionsCar",
        "1 month ago", "Yesterday, 8:30 AM",
        [Action(["1", "2", "7", "8"], 0), Action(["3"], 0), Action(["4", "10"], 5), Action(["5"], 10)],
        ["leaving", "away"]),
      Routine("5", "Movie Night", Null, 12, true, "MdMovie",
        "3 weeks ago", "3 days ago",
        [Action(["1"], 0), Action(["2"], 0), Action(["3"], 0)],
        ["movie", "cinema"]),
      Routine("6", "Weekend Morning", Text("Weekends, 8:30 AM"), 8, false, "MdFreeBreakfast",
        "2 weeks ago", "Last Sunday",
        [Action(["1"], 0), Action(["2"], 5), Action(["3"], 0), Action(["6"], 10)],
        ["weekend", "saturday morning"])
    ]
  }

  /** Every seeded action waits a non-negative time and names at least one device. */
  lemma SeedActionsWellFormed()
    ensures forall i, k :: 0 <= i < |Seed()| && 0 <= k < |Seed()[i].actions| ==>
      Seed()[i].actions[k].delay >= 0 && Seed()[i].actions[k].deviceIds != []
  {
  }

  /** The store: one `routines` list, replaced by each action. */
  class RoutineStore {
    var routines: seq<Routine>

    constructor ()
      ensures routines == Seed()
    {
      routines := Seed();
    }

    /** `fetchRoutines`: the current list, unmodified. */
    method FetchRoutines() returns (r: seq<Routine>)
      ensures r == routines
    {
      r := routines;
    }

    /**
     * `executeRoutine(id)`: always reports success, whether or not a routine
     * has that id; the actions are not read.
     */
    method ExecuteRoutine(id: string) returns (ok: bool)
      modifies this
      ensures ok
      ensures routines == Execute(old(routines), id)
    {
      routines := Execute(routines, id);
      ok := true;
    }

    /** `favoriteRoutine(id, isFavorite)`. */
    method FavoriteRoutine(id: string, isFavorite: bool)
      modifies this
      ensures routines == SetFavorite(old(routines), id, isFavorite)
    {
      routines := SetFavorite(routines, id, isFavorite);
    }

    /** `addRoutine(routine)` at clock `now`. */
    method AddRoutine(routine: Routine, now: nat)
      modifies this
      ensures routines == Add(old(routines), routine, now)
    {
      routines := Add(routines, routine, now);
    }

    /** `updateRoutine(id, updates)`. */
    method UpdateRoutine(id: string, updates: RoutinePatch)
      modifies this
      ensures routines == Update(old(routines), id, updates)
    {
      routines := Update(routines, id, updates);
    }

    /** `removeRoutine(id)`. */
    method RemoveRoutine(id: string)
      modifies this
      ensures routines == Remove(old(routines), id)
    {
      routines := Remove(routines, id);
    }
  }
}
