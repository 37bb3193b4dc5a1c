/** The routines page: its all / favourites / scheduled tabs and its two actions. */
module RoutinesPage {
  import Lists
  import Routines

  type Routine = Routines.Routine

  /** The test a routine must pass on tab `activeTab`; an unknown tab lets everything through. */
  function TabTest(activeTab: string): Routine -> bool
  {
    (r: Routine) =>
      if activeTab == "all" then true
      else if activeTab == "favorites" then r.isFavorite
      else if activeTab == "scheduled" then r.schedule != Routines.Null
      else true
  }

  /** `filteredRoutines`. */
  function Shown(routines: seq<Routine>, activeTab: string): (r: seq<Routine>)
    ensures forall x :: x in r <==> x in routines && TabTest(activeTab)(x)
  {
    Lists.Filter(routines, TabTest(activeTab))
  }

  /** 'all', and every tab other than 'favorites' and 'scheduled', shows every routine in order. */
  lemma OtherTabsShowAll(routines: seq<Routine>, activeTab: string)
    requires activeTab != "favorites" && activeTab != "scheduled"
    ensures Shown(routines, activeTab) == routines
  {
    Lists.FilterAll(routines, TabTest(activeTab));
  }

  /**
   * 'favorites' shows exactly the favourite routines and 'scheduled' exactly
   * those whose schedule is not `null`: a missing or empty schedule still
   * counts as scheduled. Both keep the store's order.
   */
  lemma FavoritesAndScheduledTabs(routines: seq<Routine>)
    ensures forall x :: x in Shown(routines, "favorites") <==> x in routines && x.isFavorite
    ensures forall x :: x in Shown(routines, "scheduled") <==> x in routines && x.schedule != Routines.Null
    ensures forall x :: x in routines && x.schedule == Routines.Undefined ==> x in Shown(routines, "scheduled")
    ensures Lists.IsSubsequence(Shown(routines, "favorites"), routines)
    ensures Lists.IsSubsequence(Shown(routines, "scheduled"), routines)
  {
    Lists.FilterIsSubsequence(routines, TabTest("favorites"));
    Lists.FilterIsSubsequence(routines, TabTest("scheduled"));
  }

  /** `handleToggleFavorite(id, currentStatus)`: asks the store for the opposite status. */
  method HandleToggleFavorite(store: Routines.RoutineStore, id: string, currentStatus: bool)
    modifies store
    ensures store.routines == Routines.SetFavorite(old(store.routines), id, !currentStatus)
  {
    store.FavoriteRoutine(id, !currentStatus);
  }

  /** `handleExecuteRoutine(id)`: hands the id to the store. */
  method HandleExecuteRoutine(store: Routines.RoutineStore, id: string)
    modifies store
    ensures store.routines == Routines.Execute(old(store.routines), id)
  {
    var _ := store.ExecuteRoutine(id);
  }
}
