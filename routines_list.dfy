/** The dashboard's routine panel: the five most executed routines. */
module RoutinesList {
  import Lists
  import Routines

  type Routine = Routines.Routine

  /** `(a, b) => b.timesExecuted - a.timesExecuted <= 0`: the more executed first. */
  function RunNoLess(): (Routine, Routine) -> bool
  {
    (a: Routine, b: Routine) => a.timesExecuted >= b.timesExecuted
  }

  /**
   * `topRoutines`: at most five routines from the store, by non-increasing
   * `timesExecuted`; a routine left out was executed no more often than any
   * routine shown. A copy is sorted, so the store keeps its order.
   */
  function TopRoutines(routines: seq<Routine>): (r: seq<Routine>)
    ensures |r| == if |routines| < 5 then |routines| else 5
    ensures forall i, j :: 0 <= i < j < |r| ==> r[i].timesExecuted >= r[j].timesExecuted
    ensures multiset(r) <= multiset(routines)
    ensures forall x :: x in multiset(routines) - multiset(r) ==>
      forall i :: 0 <= i < |r| ==> x.timesExecuted <= r[i].timesExecuted
  {
    assert Lists.TotalPreorderOn(routines, RunNoLess());
    Lists.TopK(routines, RunNoLess(), 5)
  }

  /** The routines run exactly `n` times. */
  function RunTimes(n: int): Routine -> bool
  {
    (x: Routine) => x.timesExecuted == n
  }

  /**
   * The sort is stable: routines that ran equally often are shown in the
   * store's order, and those shown are the earliest such routines.
   */
  lemma TiesInStoreOrder(routines: seq<Routine>, n: int)
    ensures Lists.Filter(TopRoutines(routines), RunTimes(n)) <= Lists.Filter(routines, RunTimes(n))
  {
    Lists.TopKStable(routines, RunNoLess(), 5, RunTimes(n));
  }

  /** With five routines or fewer, every routine is shown. */
  lemma FewRoutinesAllShown(routines: seq<Routine>)
    requires |routines| <= 5
    ensures multiset(TopRoutines(routines)) == multiset(routines)
  {
    var r := TopRoutines(routines);
    assert multiset(routines) - multiset(r) == multiset{} by {
      assert |multiset(r)| == |multiset(routines)|;
      var m := multiset(routines) - multiset(r);
      assert multiset(r) + m == multiset(routines);
    }
  }
}
