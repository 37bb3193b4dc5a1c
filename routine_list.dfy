/** The routine list: a name search combined with the all / scheduled / manual filter. */
module RoutineList {
  import Lists
  import Text
  import Routines

  type Routine = Routines.Routine

  /**
   * The two tests of a routine: its name contains the query ignoring case
   * (aliases are not searched), and its schedule is truthy for 'scheduled',
   * falsy for 'manual', anything for 'all'. Any other filter matches nothing.
   */
  predicate Passes(r: Routine, query: string, filterType: string)
  {
    Text.ContainsIgnoringCase(r.name, query) &&
    (filterType == "all" ||
     (filterType == "scheduled" && r.schedule.Truthy()) ||
     (filterType == "manual" && !r.schedule.Truthy()))
  }

  function PassesFn(query: string, filterType: string): Routine -> bool
  {
    (r: Routine) => Passes(r, query, filterType)
  }

  /** `filteredRoutines`. */
  function Visible(routines: seq<Routine>, query: string, filterType: string): (r: seq<Routine>)
    ensures forall x :: x in r <==> x in routines && Passes(x, query, filterType)
  {
    Lists.Filter(routines, PassesFn(query, filterType))
  }

  /** The listed routines keep the store's order. */
  lemma VisibleInOrder(routines: seq<Routine>, query: string, filterType: string)
    ensures Lists.IsSubsequence(Visible(routines, query, filterType), routines)
  {
    Lists.FilterIsSubsequence(routines, PassesFn(query, filterType));
  }

  /**
   * For any query, 'scheduled' and 'manual' split what 'all' lists: both are
   * drawn from it, no routine is in both, and together they are all of it.
   */
  lemma ScheduledAndManualSplitAll(routines: seq<Routine>, query: string)
    ensures Visible(routines, query, "scheduled") == Lists.Filter(Visible(routines, query, "all"), PassesFn(query, "scheduled"))
    ensures Visible(routines, query, "manual") == Lists.Filter(Visible(routines, query, "all"), PassesFn(query, "manual"))
    ensures multiset(Visible(routines, query, "scheduled")) + multiset(Visible(routines, query, "manual")) ==
            multiset(Visible(routines, query, "all"))
    ensures forall x :: x in Visible(routines, query, "scheduled") ==> x !in Visible(routines, query, "manual")
  {
    Lists.FilterNarrow(routines, PassesFn(query, "scheduled"), PassesFn(query, "all"));
    Lists.FilterNarrow(routines, PassesFn(query, "manual"), PassesFn(query, "all"));
    var all := Visible(routines, query, "all");
    Lists.FilterPartition(all, PassesFn(query, "scheduled"), PassesFn(query, "manual"));
  }

  /** The search ignores case: a query and its lower-case form list the same routines. */
  lemma SearchIgnoresCase(routines: seq<Routine>, query: string, filterType: string)
    ensures Visible(routines, Text.Lower(query), filterType) == Visible(routines, query, filterType)
  {
    Text.LowerIdempotent(query);
    Lists.FilterCongruent(routines, PassesFn(Text.Lower(query), filterType), PassesFn(query, filterType));
  }

  /** A filter value other than the three known ones lists nothing. */
  lemma UnknownFilterListsNothing(routines: seq<Routine>, query: string, filterType: string)
    requires filterType != "all" && filterType != "scheduled" && filterType != "manual"
    ensures Visible(routines, query, filterType) == []
  {
    Lists.FilterNone(routines, PassesFn(query, filterType));
  }
}
